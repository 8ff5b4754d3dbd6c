/**
 * The intake form page: the field-by-field update of the form, the
 * presence check on submit, the best-effort prediction call made before
 * the record is submitted, and the payload sent to create the record.
 */
module PatientForm {

  import opened Common
  import PatientSchema
  import PatientRoute

  /** The named inputs of the form; the email input has no name and cannot be edited. */
  datatype FormField = FullName | Dob | Gender | Contact | Symptoms | Department

  datatype FormData = FormData(
    fullName: string,
    dob: string,
    gender: string,
    contact: string,
    symptoms: string,
    department: string,
    email: string)

  const EmptyForm: FormData := FormData("", "", "", "", "", "", "")

  function FieldValue(form: FormData, name: FormField): string
  {
    match name
    case FullName => form.fullName
    case Dob => form.dob
    case Gender => form.gender
    case Contact => form.contact
    case Symptoms => form.symptoms
    case Department => form.department
  }

  /** `handleChange`: `{...prev, [name]: value}`. */
  function WithField(form: FormData, name: FormField, value: string): (r: FormData)
    ensures FieldValue(r, name) == value
    ensures forall other :: other != name ==> FieldValue(r, other) == FieldValue(form, other)
    ensures r.email == form.email
  {
    match name
    case FullName => form.(fullName := value)
    case Dob => form.(dob := value)
    case Gender => form.(gender := value)
    case Contact => form.(contact := value)
    case Symptoms => form.(symptoms := value)
    case Department => form.(department := value)
  }

  /** The submit-time presence check: the six named inputs must be non-empty. */
  predicate AllFilled(form: FormData)
    ensures AllFilled(form) <==> (form.fullName != "" && form.dob != "" && form.gender != ""
                                  && form.contact != "" && form.symptoms != "" && form.department != "")
  {
    assert FieldValue(form, FullName) == form.fullName && FieldValue(form, Dob) == form.dob;
    assert FieldValue(form, Gender) == form.gender && FieldValue(form, Contact) == form.contact;
    assert FieldValue(form, Symptoms) == form.symptoms && FieldValue(form, Department) == form.department;
    forall name :: FieldValue(form, name) != ""
  }

  /** The fields of a successful prediction response that the form reads; `None` for absent or null. */
  datatype Prediction = Prediction(
    disease: Option<string>,
    confidence: Option<string>,
    extractedSymptoms: Option<seq<string>>)

  /** `x || null` on a string field: empty and absent both become null. */
  function OrNull(field: Option<string>): (r: Option<string>)
    ensures r.Some? <==> field.Some? && field.value != ""
    ensures r.Some? ==> r == field
  {
    if field.Some? && field.value != "" then field else None
  }

  /**
   * The body of `POST /api/patient`: the form fields, the user's id and
   * the three prediction fields, which fall back to null, null and [].
   */
  function Payload(form: FormData, userId: string, prediction: Option<Prediction>): (p: PatientSchema.PatientInput)
    ensures p.fullName == form.fullName && p.dob == form.dob && p.gender == form.gender
    ensures p.contact == form.contact && p.symptoms == form.symptoms && p.department == form.department
    ensures p.email == form.email && p.userId == userId
    ensures prediction.None? ==> p.predictedDisease.None? && p.predictionConfidence.None? && p.extractedSymptoms == []
    ensures prediction.Some? ==>
      (p.predictedDisease == OrNull(prediction.value.disease)
       && p.predictionConfidence == OrNull(prediction.value.confidence))
    ensures prediction.Some? ==>
      (p.extractedSymptoms ==
       if prediction.value.extractedSymptoms.Some? then prediction.value.extractedSymptoms.value else [])
    ensures p.predictedDisease.Some? ==> p.predictedDisease.value != ""
    ensures p.predictionConfidence.Some? ==> p.predictionConfidence.value != ""
  {
    PatientSchema.PatientInput(
      userId, form.fullName, form.dob, form.gender, form.contact, form.email, form.symptoms, form.department,
      if prediction.Some? then OrNull(prediction.value.disease) else None,
      if prediction.Some? then OrNull(prediction.value.confidence) else None,
      if prediction.Some? && prediction.value.extractedSymptoms.Some? then prediction.value.extractedSymptoms.value else [])
  }

  /** A form that passes its own check, sent by a signed-in user, passes the route's check. */
  lemma FilledFormPassesRoute(form: FormData, userId: string, prediction: Option<Prediction>)
    requires AllFilled(form) && userId != ""
    ensures PatientRoute.RouteFieldsPresent(Payload(form, userId, prediction))
  {
    assert FieldValue(form, FullName) != "" && FieldValue(form, Dob) != "" && FieldValue(form, Gender) != "";
    assert FieldValue(form, Contact) != "" && FieldValue(form, Symptoms) != "" && FieldValue(form, Department) != "";
  }

  /**
   * The prediction cannot block submission: whatever the prediction call
   * returned, the record the server creates (or the error it reports) is
   * the same as without a prediction.
   */
  lemma PredictionDoesNotAffectRecord(form: FormData, userId: string, prediction: Option<Prediction>, id: nat, now: nat)
    ensures PatientSchema.Create(Payload(form, userId, prediction), id, now)
         == PatientSchema.Create(Payload(form, userId, None), id, now)
  {
    var p := Payload(form, userId, prediction);
    PatientSchema.PredictionFieldsDropped(p, None, None, [], id, now);
    assert p.(predictedDisease := None, predictionConfidence := None, extractedSymptoms := []) == Payload(form, userId, None);
  }

  /** The values of the gender select: the placeholder and the three options. */
  const GenderOptions: seq<string> := ["", "Male", "Female", "Other"]

  /**
   * A filled form whose gender came from the select, sent by a signed-in
   * user with an email, yields a record the schema accepts.
   */
  lemma SelectedFormIsStored(form: FormData, userId: string, prediction: Option<Prediction>, id: nat, now: nat)
    requires AllFilled(form) && form.gender in GenderOptions
    requires form.email != "" && userId != ""
    ensures PatientSchema.Create(Payload(form, userId, prediction), id, now).Ok?
  {
    var p := Payload(form, userId, prediction);
    assert FieldValue(form, FullName) != "" && FieldValue(form, Dob) != "" && FieldValue(form, Gender) != "";
    assert FieldValue(form, Contact) != "" && FieldValue(form, Symptoms) != "" && FieldValue(form, Department) != "";
    assert p.gender in PatientSchema.GenderLabels;
  }

  /** What the prediction call gets back. */
  datatype PredictOutcome = PredictOk(result: Prediction) | PredictRejected | PredictThrew

  /** What the record-creation call gets back. */
  datatype CreateOutcome = CreateOk | CreateRejected(error: string) | CreateThrew

  datatype User = User(id: string, email: string)

  const FillAllMessage: string := "Please fill in all fields"
  const SubmitFailedMessage: string := "Failed to submit form"
  const SubmitErrorMessage: string := "An error occurred. Please try again."

  /** The error text left after the creation call. */
  function SubmitError(outcome: CreateOutcome): (e: string)
    ensures e == "" <==> outcome == CreateOk
    ensures outcome.CreateRejected? ==> e == (if outcome.error != "" then outcome.error else SubmitFailedMessage)
    ensures outcome == CreateThrew ==> e == SubmitErrorMessage
  {
    match outcome
    case CreateOk => ""
    case CreateRejected(e) => if e != "" then e else SubmitFailedMessage
    case CreateThrew => SubmitErrorMessage
  }

  class FormPage {
    var user: Option<User>
    var formData: FormData
    var error: string
    var loading: bool
    var submitted: bool
    var prediction: Option<Prediction>

    constructor ()
      ensures user == None && formData == EmptyForm && error == "" && !loading && !submitted && prediction == None
    {
      user := None;
      formData := EmptyForm;
      error := "";
      loading := false;
      submitted := false;
      prediction := None;
    }

    /** The mount effect for a stored user: remember it and copy its email into the form. */
    method LoadUser(u: User)
      modifies this
      ensures user == Some(u) && formData == old(formData).(email := u.email)
      ensures error == old(error) && loading == old(loading) && submitted == old(submitted)
      ensures prediction == old(prediction)
    {
      user := Some(u);
      formData := formData.(email := u.email);
    }

    /** `handleChange` for the input called `name`. */
    method HandleChange(name: FormField, value: string)
      modifies this
      ensures formData == WithField(old(formData), name, value)
      ensures user == old(user) && error == old(error) && loading == old(loading)
      ensures submitted == old(submitted) && prediction == old(prediction)
    {
      formData := WithField(formData, name, value);
    }

    /**
     * `handleSubmit`, with the outcomes of the two calls given.  Returns
     * the text sent for prediction and the body sent to create the record.
     */
    method HandleSubmit(predicted: PredictOutcome, created: CreateOutcome)
      returns (predictText: Option<string>, body: Option<PatientSchema.PatientInput>)
      requires user.Some? && !submitted
      modifies this
      ensures !loading && user == old(user) && formData == old(formData)
      ensures !AllFilled(old(formData)) ==>
        && predictText == None && body == None
        && error == FillAllMessage && !submitted && prediction == old(prediction)
      ensures AllFilled(old(formData)) ==>
        && predictText == Some(old(formData).symptoms)
        && body == Some(Payload(old(formData), old(user).value.id,
                                if predicted.PredictOk? then Some(predicted.result) else None))
        && prediction == (if predicted.PredictOk? then Some(predicted.result) else old(prediction))
        && error == SubmitError(created)
        && (submitted <==> created == CreateOk)
    {
      error := "";
      loading := true;
      if !AllFilled(formData) {
        error := FillAllMessage;
        loading := false;
        return None, None;
      }
      var predictionResult: Option<Prediction> := None;
      predictText := Some(formData.symptoms);
      match predicted {
        case PredictOk(result) =>
          predictionResult := Some(result);
          prediction := predictionResult;
        case PredictRejected =>
        case PredictThrew =>
      }
      body := Some(Payload(formData, user.value.id, predictionResult));
      match created {
        case CreateOk =>
          submitted := true;
        case CreateRejected(e) =>
          error := if e != "" then e else SubmitFailedMessage;
        case CreateThrew =>
          error := SubmitErrorMessage;
      }
      loading := false;
    }
  }

}
