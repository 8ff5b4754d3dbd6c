/**
 * The patient intake record as the Mongoose schema declares it: which
 * fields are required, the gender and appointment-status enumerations,
 * the defaults a new record receives, and the creation timestamps.
 */
module PatientSchema {

  import opened Common

  datatype Gender = Male | Female | Other

  const GenderLabels: seq<string> := ["Male", "Female", "Other"]

  function GenderLabel(g: Gender): string
  {
    match g
    case Male => "Male"
    case Female => "Female"
    case Other => "Other"
  }

  /** The gender enum check: only the three exact labels are accepted. */
  function ParseGender(s: string): (r: Option<Gender>)
    ensures r.Some? <==> s in GenderLabels
    ensures r.Some? ==> GenderLabel(r.value) == s
  {
    if s == "Male" then Some(Male)
    else if s == "Female" then Some(Female)
    else if s == "Other" then Some(Other)
    else None
  }

  lemma GenderRoundTrip(g: Gender)
    ensures ParseGender(GenderLabel(g)) == Some(g)
  {
  }

  datatype Status = Pending | Scheduled | Completed | Cancelled

  const StatusLabels: seq<string> := ["Pending", "Scheduled", "Completed", "Cancelled"]

  /** The status a record receives when none is given. */
  const DefaultStatus: Status := Pending

  function StatusLabel(s: Status): string
  {
    match s
    case Pending => "Pending"
    case Scheduled => "Scheduled"
    case Completed => "Completed"
    case Cancelled => "Cancelled"
  }

  /** The status enum check: only the four exact labels are accepted. */
  function ParseStatus(s: string): (r: Option<Status>)
    ensures r.Some? <==> s in StatusLabels
    ensures r.Some? ==> StatusLabel(r.value) == s
  {
    if s == "Pending" then Some(Pending)
    else if s == "Scheduled" then Some(Scheduled)
    else if s == "Completed" then Some(Completed)
    else if s == "Cancelled" then Some(Cancelled)
    else None
  }

  /** Every status has its own label, and the label reads back as that status. */
  lemma StatusRoundTrip(s: Status)
    ensures ParseStatus(StatusLabel(s)) == Some(s)
    ensures StatusLabel(s) in StatusLabels
  {
  }

  /**
   * What the creating code hands to the model: the schema's eight input
   * fields plus the three prediction fields the schema does not declare.
   * The empty string stands for a field that is absent, null or empty.
   */
  datatype PatientInput = PatientInput(
    userId: string,
    fullName: string,
    dob: string,
    gender: string,
    contact: string,
    email: string,
    symptoms: string,
    department: string,
    predictedDisease: Option<string>,
    predictionConfidence: Option<string>,
    extractedSymptoms: seq<string>)

  /** A stored record: the declared fields, the store's id and the two timestamps. */
  datatype Record = Record(
    id: nat,
    userId: string,
    fullName: string,
    dob: string,
    gender: Gender,
    contact: string,
    email: string,
    symptoms: string,
    department: string,
    appointmentStatus: Status,
    appointmentDate: Option<string>,
    assignedDoctor: Option<string>,
    notes: Option<string>,
    createdAt: nat,
    updatedAt: nat)

  /** The declared paths that carry `required: true`, in declaration order. */
  datatype Path = UserId | FullName | Dob | GenderPath | Contact | Email | Symptoms | Department

  const RequiredPaths: seq<Path> := [UserId, FullName, Dob, GenderPath, Contact, Email, Symptoms, Department]

  function PathValue(doc: PatientInput, p: Path): string
  {
    match p
    case UserId => doc.userId
    case FullName => doc.fullName
    case Dob => doc.dob
    case GenderPath => doc.gender
    case Contact => doc.contact
    case Email => doc.email
    case Symptoms => doc.symptoms
    case Department => doc.department
  }

  datatype FieldError = Required(path: Path) | NotInEnum(path: Path)

  /** The error a single path reports, if any: `required` first, then `enum`. */
  function PathError(doc: PatientInput, p: Path): (e: Option<FieldError>)
    ensures e.Some? ==> e.value.path == p
    ensures e == Some(Required(p)) <==> PathValue(doc, p) == ""
    ensures e == Some(NotInEnum(p)) <==> p == GenderPath && doc.gender != "" && doc.gender !in GenderLabels
    ensures e.None? <==> PathValue(doc, p) != "" && (p == GenderPath ==> doc.gender in GenderLabels)
  {
    if PathValue(doc, p) == "" then Some(Required(p))
    else if p == GenderPath && ParseGender(doc.gender).None? then Some(NotInEnum(p))
    else None
  }

  function ErrorsOf(doc: PatientInput, paths: seq<Path>): (errs: seq<FieldError>)
    ensures forall e :: e in errs ==> e.path in paths && PathError(doc, e.path) == Some(e)
    ensures forall p :: p in paths && PathError(doc, p).Some? ==> PathError(doc, p).value in errs
    ensures |errs| <= |paths|
  {
    if paths == [] then []
    else
      var rest := ErrorsOf(doc, paths[1..]);
      match PathError(doc, paths[0])
      case Some(e) => [e] + rest
      case None => rest
  }

  /** Schema validation: one error per failing path, in declaration order. */
  function Validate(doc: PatientInput): (errs: seq<FieldError>)
    ensures forall e :: e in errs <==> e.path in RequiredPaths && PathError(doc, e.path) == Some(e)
    ensures errs == [] <==> (forall p :: p in RequiredPaths ==> PathValue(doc, p) != "") && doc.gender in GenderLabels
    ensures |errs| <= |RequiredPaths|
  {
    var errs := ErrorsOf(doc, RequiredPaths);
    assert GenderPath in RequiredPaths;
    if errs == [] then
      assert forall p :: p in RequiredPaths ==> PathError(doc, p).None?;
      errs
    else
      assert errs[0] in errs;
      errs
  }

  /**
   * `Patient.create(doc)` with id `id` at time `now`: a validation failure,
   * or the new record with the schema defaults.  The prediction fields of
   * the input are not declared by the schema, so they are not stored.
   */
  function Create(doc: PatientInput, id: nat, now: nat): (r: Result<Record, seq<FieldError>>)
    ensures r.Ok? <==> (forall p :: p in RequiredPaths ==> PathValue(doc, p) != "") && doc.gender in GenderLabels
    ensures r.Err? ==> r.error != []
    ensures r.Err? ==> forall e :: e in r.error ==> PathError(doc, e.path) == Some(e)
    ensures r.Ok? ==> var rec := r.value;
      && rec.id == id
      && rec.userId == doc.userId && rec.fullName == doc.fullName && rec.dob == doc.dob
      && GenderLabel(rec.gender) == doc.gender && rec.contact == doc.contact
      && rec.email == doc.email && rec.symptoms == doc.symptoms && rec.department == doc.department
      && rec.appointmentStatus == Pending
      && rec.appointmentDate == None && rec.assignedDoctor == None && rec.notes == None
      && rec.createdAt == now && rec.updatedAt == now
  {
    var errs := Validate(doc);
    if errs != [] then
      assert errs[0] in errs;
      Err(errs)
    else
      assert forall p :: p in RequiredPaths ==> PathError(doc, p).None?;
      assert PathError(doc, GenderPath).None?;
      Ok(Record(id, doc.userId, doc.fullName, doc.dob, ParseGender(doc.gender).value, doc.contact,
                doc.email, doc.symptoms, doc.department, DefaultStatus, None, None, None, now, now))
  }

  /** An input lacking a required field is rejected, and the error names that field. */
  lemma MissingFieldRejected(doc: PatientInput, p: Path, id: nat, now: nat)
    requires p in RequiredPaths && PathValue(doc, p) == ""
    ensures Create(doc, id, now).Err? && Required(p) in Create(doc, id, now).error
  {
    assert PathError(doc, p) == Some(Required(p));
  }

  /** A gender outside Male, Female, Other is rejected by the enum. */
  lemma GenderOutsideEnumRejected(doc: PatientInput, id: nat, now: nat)
    requires doc.gender != "" && doc.gender !in GenderLabels
    ensures Create(doc, id, now).Err? && NotInEnum(GenderPath) in Create(doc, id, now).error
  {
    assert PathError(doc, GenderPath) == Some(NotInEnum(GenderPath));
  }

  /** The undeclared prediction fields have no effect on what is stored. */
  lemma PredictionFieldsDropped(doc: PatientInput, disease: Option<string>, confidence: Option<string>,
                                extracted: seq<string>, id: nat, now: nat)
    ensures Create(doc, id, now) == Create(doc.(predictedDisease := disease,
      predictionConfidence := confidence, extractedSymptoms := extracted), id, now)
  {
    var other := doc.(predictedDisease := disease, predictionConfidence := confidence, extractedSymptoms := extracted);
    assert forall p :: PathValue(doc, p) == PathValue(other, p);
    assert forall p :: PathError(doc, p) == PathError(other, p);
    ErrorsAgree(doc, other, RequiredPaths);
  }

  lemma {:induction false} ErrorsAgree(a: PatientInput, b: PatientInput, paths: seq<Path>)
    requires forall p :: PathError(a, p) == PathError(b, p)
    ensures ErrorsOf(a, paths) == ErrorsOf(b, paths)
  {
    if paths != [] {
      ErrorsAgree(a, b, paths[1..]);
    }
  }

}
