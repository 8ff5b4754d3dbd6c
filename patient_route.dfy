/**
 * The `/api/patient` route: POST checks that the request carries the
 * fields it needs and appends a new record to the collection, several per
 * user allowed; GET lists the collection, optionally restricted to one
 * owner, newest record first.
 */
module PatientRoute {

  import opened Common
  import opened PatientSchema

  const RequiredMessage: string := "All fields are required"
  const CreatedMessage: string := "Patient record created successfully"
  const CreateFailedMessage: string := "Failed to create patient record"
  const OwnerListedMessage: string := "User appointments fetched successfully"
  const AllListedMessage: string := "Patients fetched successfully"
  const FetchFailedMessage: string := "Failed to fetch patient records"

  datatype PostResponse =
    | Created(message: string, patient: Record)
    | PostFailed(status: nat, error: string)

  datatype GetResponse =
    | Listed(message: string, patients: seq<Record>)
    | GetFailed(status: nat, error: string)

  /** The HTTP status code the POST handler answers with. */
  function PostStatus(r: PostResponse): nat
  {
    match r
    case Created(_, _) => 201
    case PostFailed(status, _) => status
  }

  /** The schema's required paths that the route checks itself: all but the email. */
  const RoutePaths: seq<Path> := [UserId, FullName, Dob, GenderPath, Contact, Symptoms, Department]

  /**
   * The route's own presence check: seven fields must be truthy.  The
   * email is not among them, and gender and department are not checked
   * against any list.
   */
  predicate RouteFieldsPresent(body: PatientInput)
    ensures RouteFieldsPresent(body) <==> forall p :: p in RoutePaths ==> PathValue(body, p) != ""
  {
    var present := body.userId != "" && body.fullName != "" && body.dob != "" && body.gender != ""
      && body.contact != "" && body.symptoms != "" && body.department != "";
    assert present ==> forall p :: p in RoutePaths ==> PathValue(body, p) != "" by {
      forall p | p in RoutePaths && present
        ensures PathValue(body, p) != ""
      {
        var k :| 0 <= k < |RoutePaths| && RoutePaths[k] == p;
      }
    }
    assert UserId in RoutePaths && FullName in RoutePaths && Dob in RoutePaths && GenderPath in RoutePaths;
    assert Contact in RoutePaths && Symptoms in RoutePaths && Department in RoutePaths;
    present
  }

  // ---------------------------------------------------------------------
  // GET: owner filter and newest-first order

  /** The records of `owner`, in store order. */
  function OwnedBy(records: seq<Record>, owner: string): (r: seq<Record>)
    ensures forall x :: multiset(r)[x] == if x.userId == owner then multiset(records)[x] else 0
    ensures forall x :: x in r <==> x in records && x.userId == owner
    ensures |r| <= |records|
  {
    if records == [] then []
    else
      var rest := OwnedBy(records[1..], owner);
      assert records == [records[0]] + records[1..];
      if records[0].userId == owner then [records[0]] + rest else rest
  }

  ghost predicate NewestFirst(s: seq<Record>)
  {
    forall i, j :: 0 <= i < j < |s| ==> s[i].createdAt >= s[j].createdAt
  }

  /** Insert `r` into a newest-first sequence, before the first older record. */
  function InsertByCreatedAt(r: Record, s: seq<Record>): (t: seq<Record>)
    ensures multiset(t) == multiset(s) + multiset{r}
    ensures |t| == |s| + 1
  {
    if s == [] || s[0].createdAt <= r.createdAt then [r] + s
    else
      assert s == [s[0]] + s[1..];
      [s[0]] + InsertByCreatedAt(r, s[1..])
  }

  /** Putting a record no older than any of `u` in front keeps `u` newest-first. */
  lemma ConsNewestFirst(a: Record, u: seq<Record>)
    requires NewestFirst(u)
    requires forall x :: x in u ==> x.createdAt <= a.createdAt
    ensures NewestFirst([a] + u)
  {
    var t := [a] + u;
    forall i, j | 0 <= i < j < |t|
      ensures t[i].createdAt >= t[j].createdAt
    {
      assert t[j] == u[j - 1];
      if i > 0 {
        assert t[i] == u[i - 1];
      }
    }
  }

  /** The head of a newest-first sequence is no older than any of its records. */
  lemma HeadIsNewest(s: seq<Record>, x: Record)
    requires NewestFirst(s) && x in s
    ensures x.createdAt <= s[0].createdAt
  {
  }

  lemma {:induction false} InsertKeepsNewestFirst(r: Record, s: seq<Record>)
    requires NewestFirst(s)
    ensures NewestFirst(InsertByCreatedAt(r, s))
  {
    if s == [] || s[0].createdAt <= r.createdAt {
      forall x | x in s
        ensures x.createdAt <= r.createdAt
      {
        HeadIsNewest(s, x);
      }
      ConsNewestFirst(r, s);
    } else {
      var rest := InsertByCreatedAt(r, s[1..]);
      InsertKeepsNewestFirst(r, s[1..]);
      forall x | x in rest
        ensures x.createdAt <= s[0].createdAt
      {
        assert x in multiset(rest);
        if x != r {
          assert x in multiset(s[1..]);
          HeadIsNewest(s, x);
        }
      }
      ConsNewestFirst(s[0], rest);
    }
  }

  /** `.sort({ createdAt: -1 })`: the same records, newest first. */
  function SortNewestFirst(s: seq<Record>): (t: seq<Record>)
    ensures multiset(t) == multiset(s)
    ensures NewestFirst(t)
  {
    if s == [] then []
    else
      assert s == [s[0]] + s[1..];
      var rest := SortNewestFirst(s[1..]);
      InsertKeepsNewestFirst(s[0], rest);
      InsertByCreatedAt(s[0], rest)
  }

  /** The GET query: a non-empty `userId` parameter restricts to that owner. */
  function Query(records: seq<Record>, userId: Option<string>): (r: seq<Record>)
    ensures NewestFirst(r)
    ensures userId.Some? && userId.value != "" ==> multiset(r) == multiset(OwnedBy(records, userId.value))
    ensures userId.Some? && userId.value != "" ==> forall x :: x in r <==> x in records && x.userId == userId.value
    ensures !(userId.Some? && userId.value != "") ==> multiset(r) == multiset(records)
  {
    if userId.Some? && userId.value != "" then
      var owned := OwnedBy(records, userId.value);
      var sorted := SortNewestFirst(owned);
      assert forall x :: x in sorted <==> x in owned by {
        forall x ensures x in sorted <==> x in owned {
          assert x in sorted <==> x in multiset(sorted);
        }
      }
      sorted
    else SortNewestFirst(records)
  }

  /** Every record of the store appears in an unrestricted listing, and nothing else. */
  lemma ListAllIsEverything(records: seq<Record>, userId: Option<string>)
    requires userId.None? || userId == Some("")
    ensures |Query(records, userId)| == |records|
    ensures forall x :: x in Query(records, userId) <==> x in records
  {
    var r := Query(records, userId);
    assert |multiset(r)| == |multiset(records)|;
    forall x ensures x in r <==> x in records {
      assert x in r <==> x in multiset(r);
    }
  }

  // ---------------------------------------------------------------------
  // The collection

  /**
   * The Patient collection.  `clock` is the creation counter: it supplies
   * both the id and the creation time of the next record, so creation
   * times strictly increase in store order.
   */
  class PatientStore {
    var records: seq<Record>
    var clock: nat

    ghost predicate Valid()
      reads this
    {
      && (forall i :: 0 <= i < |records| ==> records[i].createdAt < clock)
      && (forall i :: 0 <= i < |records| ==> records[i].id == records[i].createdAt)
      && (forall i, j :: 0 <= i < j < |records| ==> records[i].createdAt < records[j].createdAt)
    }

    constructor ()
      ensures Valid() && records == [] && clock == 0
    {
      records := [];
      clock := 0;
    }

    /**
     * POST /api/patient.  `available` is false when connecting to the
     * database or reading the body throws.
     */
    method Post(body: PatientInput, available: bool) returns (resp: PostResponse)
      requires Valid()
      modifies this
      ensures Valid()
      ensures PostStatus(resp) == 201 <==> resp.Created? && records == old(records) + [resp.patient]
      ensures PostStatus(resp) != 201 ==> records == old(records)
      ensures !available || !RouteFieldsPresent(body) || Create(body, old(clock), old(clock)).Err? ==>
        records == old(records) && clock == old(clock)
      ensures !available ==> resp == PostFailed(500, CreateFailedMessage)
      ensures available && !RouteFieldsPresent(body) ==> resp == PostFailed(400, RequiredMessage)
      ensures available && RouteFieldsPresent(body) ==>
        match Create(body, old(clock), old(clock))
        case Ok(rec) => resp == Created(CreatedMessage, rec)
          && records == old(records) + [rec] && clock == old(clock) + 1
        case Err(_) => resp == PostFailed(500, CreateFailedMessage)
    {
      if !available {
        return PostFailed(500, CreateFailedMessage);
      }
      if !RouteFieldsPresent(body) {
        return PostFailed(400, RequiredMessage);
      }
      var created := Create(body, clock, clock);
      match created {
        case Ok(rec) =>
          records := records + [rec];
          clock := clock + 1;
          resp := Created(CreatedMessage, rec);
        case Err(_) =>
          resp := PostFailed(500, CreateFailedMessage);
      }
    }

    /** GET /api/patient. */
    function Get(userId: Option<string>, available: bool): (r: GetResponse)
      reads this
      ensures !available <==> r == GetFailed(500, FetchFailedMessage)
      ensures r.Listed? ==> r.patients == Query(records, userId)
      ensures r.Listed? ==> r.message == if userId.Some? && userId.value != "" then OwnerListedMessage else AllListedMessage
    {
      if !available then GetFailed(500, FetchFailedMessage)
      else if userId.Some? && userId.value != "" then Listed(OwnerListedMessage, Query(records, userId))
      else Listed(AllListedMessage, Query(records, userId))
    }
  }

  /** No two records of a store share an id, so a second submission never replaces the first. */
  lemma IdsDistinct(store: PatientStore, i: nat, j: nat)
    requires store.Valid()
    requires i < j < |store.records|
    ensures store.records[i].id != store.records[j].id
  {
  }

  /** The same submission sent twice creates two records for the same owner. */
  method SubmitTwice(body: PatientInput) returns (first: PostResponse, second: PostResponse, count: nat)
    requires RouteFieldsPresent(body) && body.email != "" && body.gender in GenderLabels
    ensures first.Created? && second.Created?
    ensures first.patient.userId == second.patient.userId == body.userId
    ensures first.patient.id != second.patient.id
    ensures count == 2
  {
    var store := new PatientStore();
    assert forall p :: p in RequiredPaths ==> PathValue(body, p) != "";
    first := store.Post(body, true);
    second := store.Post(body, true);
    count := |store.records|;
    IdsDistinct(store, 0, 1);
  }

  /** A request missing only the email passes the route's check but fails the schema: 500, not 400. */
  lemma MissingEmailIsServerError(body: PatientInput, id: nat, now: nat)
    requires RouteFieldsPresent(body) && body.email == ""
    ensures Create(body, id, now).Err? && Required(Email) in Create(body, id, now).error
  {
    MissingFieldRejected(body, Email, id, now);
  }

  /** The route accepts any non-empty department and gender; only the schema checks gender. */
  lemma RouteChecksPresenceOnly(body: PatientInput, dept: string, gender: string)
    requires RouteFieldsPresent(body) && dept != "" && gender != ""
    ensures RouteFieldsPresent(body.(department := dept, gender := gender))
    ensures gender !in GenderLabels ==> Create(body.(department := dept, gender := gender), 0, 0).Err?
  {
  }

}
