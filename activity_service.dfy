/** The browser-side service of the application
    (src/services/activityService.js): validation of the search criteria
    before they are sent, the defaults filled into an activity for display,
    the `APIError` value with its status classes and user messages, and the
    decisions `searchActivities` and `checkAPIHealth` take on the outcome of
    `fetch`. The network is an input: the outcome of `fetch` and of
    `response.json()` is given as a value. */
module ActivityService {
  import opened Wrappers
  import opened JsStrings
  import opened JsValues

  // ---------------------------------------------------------------------
  // validateSearchCriteria
  // ---------------------------------------------------------------------

  /** The criteria as the validation sees them: the four text fields as
      JavaScript values (`None` when `undefined`) and the distance as a
      number, `None` when it is `undefined`, `null` or not a number. */
  datatype Criteria = Criteria(city: Option<Json>, state: Option<Json>, ages: Option<Json>,
                               availability: Option<Json>, distance: Option<int>)

  /** The problems the validation reports, in the order it checks them. */
  datatype Problem =
    | CityMissing
    | StateMissing
    | AgesMissing
    | AvailabilityMissing
    | DistanceNotNumber
    | DistanceOutOfRange

  const AllProblems: seq<Problem> :=
    [CityMissing, StateMissing, AgesMissing, AvailabilityMissing, DistanceNotNumber, DistanceOutOfRange]

  /** The position of a problem in the order of the checks. */
  function Rank(p: Problem): (n: nat)
    ensures n < |AllProblems| && AllProblems[n] == p
  {
    match p
    case CityMissing => 0
    case StateMissing => 1
    case AgesMissing => 2
    case AvailabilityMissing => 3
    case DistanceNotNumber => 4
    case DistanceOutOfRange => 5
  }

  function Message(p: Problem): string
  {
    match p
    case CityMissing => "City is required"
    case StateMissing => "State is required"
    case AgesMissing => "Children's ages are required"
    case AvailabilityMissing => "Availability is required"
    case DistanceNotNumber => "Distance must be a valid number"
    case DistanceOutOfRange => "Distance must be between 1 and 50 miles"
  }

  /** A text field passes when it is a string that is not whitespace only
      (an absent or falsy value, or one that is not a string, fails). */
  predicate IsFilledText(v: Option<Json>)
  {
    v.Some? && v.value.JStr? && !AllWhitespace(v.value.s)
  }

  /** The test of the source: a truthy string whose trim is not empty. */
  lemma FilledTextIsTrimmedNonEmpty(v: Option<Json>)
    ensures IsFilledText(v) <==> TruthyOpt(v) && v.value.JStr? && |Trim(v.value.s)| != 0
  {
  }

  /** Whether the criteria have the problem `p`. */
  predicate HasProblem(c: Criteria, p: Problem)
  {
    match p
    case CityMissing => !IsFilledText(c.city)
    case StateMissing => !IsFilledText(c.state)
    case AgesMissing => !IsFilledText(c.ages)
    case AvailabilityMissing => !IsFilledText(c.availability)
    case DistanceNotNumber => c.distance.None?
    case DistanceOutOfRange => c.distance.Some? && (c.distance.value < 1 || c.distance.value > 50)
  }

  /** The outcome of every check, in check order: `true` where it fails. */
  function CheckResults(c: Criteria): (fails: seq<bool>)
    ensures |fails| == |AllProblems|
  {
    [HasProblem(c, CityMissing), HasProblem(c, StateMissing), HasProblem(c, AgesMissing),
     HasProblem(c, AvailabilityMissing), HasProblem(c, DistanceNotNumber), HasProblem(c, DistanceOutOfRange)]
  }

  /** The problems of the failing checks among the first `n`, in check
      order: each failing check appends its problem. */
  function FoundAmong(fails: seq<bool>, n: nat): seq<Problem>
    requires |fails| == |AllProblems| && n <= |AllProblems|
  {
    if n == 0 then []
    else if fails[n - 1] then FoundAmong(fails, n - 1) + [AllProblems[n - 1]]
    else FoundAmong(fails, n - 1)
  }

  /** The problems of the criteria, in the order of the checks. */
  function Problems(c: Criteria): seq<Problem>
  {
    FoundAmong(CheckResults(c), |AllProblems|)
  }

  /** The message of each problem, in order. */
  function Messages(ps: seq<Problem>): (ms: seq<string>)
    ensures |ms| == |ps|
  {
    if ps == [] then [] else Messages(ps[..|ps| - 1]) + [Message(ps[|ps| - 1])]
  }

  lemma {:induction false} MessagesAt(ps: seq<Problem>, i: nat)
    requires i < |ps|
    ensures Messages(ps)[i] == Message(ps[i])
  {
    if i < |ps| - 1 {
      MessagesAt(ps[..|ps| - 1], i);
    }
  }

  /** Pushing the message of a problem onto the messages of `found`. */
  lemma MessagesPush(found: seq<Problem>, errors: seq<string>, p: Problem)
    requires errors == Messages(found)
    ensures errors + [Message(p)] == Messages(found + [p])
  {
    assert (found + [p])[..|found|] == found;
  }

  /** `if (failed) list.push(x)`. */
  function Push<T>(xs: seq<T>, failed: bool, x: T): seq<T>
  {
    if failed then xs + [x] else xs
  }

  /** Messages commute with a push. */
  lemma MessagesOfPush(ps: seq<Problem>, failed: bool, p: Problem)
    ensures Messages(Push(ps, failed, p)) == Push(Messages(ps), failed, Message(p))
  {
    if failed {
      MessagesPush(ps, Messages(ps), p);
    }
  }

  /** The problems in the order the validation pushes their messages. */
  function PushedProblems(c: Criteria): seq<Problem>
  {
    var p1 := Push([], !IsFilledText(c.city), CityMissing);
    var p2 := Push(p1, !IsFilledText(c.state), StateMissing);
    var p3 := Push(p2, !IsFilledText(c.ages), AgesMissing);
    var p4 := Push(p3, !IsFilledText(c.availability), AvailabilityMissing);
    var p5 := Push(p4, c.distance.None?, DistanceNotNumber);
    Push(p5, c.distance.Some? && (c.distance.value < 1 || c.distance.value > 50), DistanceOutOfRange)
  }

  lemma PushedProblemsAreProblems(c: Criteria)
    ensures PushedProblems(c) == Problems(c)
  {
    var fails := CheckResults(c);
    assert AllProblems == [CityMissing, StateMissing, AgesMissing, AvailabilityMissing,
                           DistanceNotNumber, DistanceOutOfRange];
    var p1 := Push([], !IsFilledText(c.city), CityMissing);
    assert p1 == FoundAmong(fails, 1);
    var p2 := Push(p1, !IsFilledText(c.state), StateMissing);
    assert p2 == FoundAmong(fails, 2);
    var p3 := Push(p2, !IsFilledText(c.ages), AgesMissing);
    assert p3 == FoundAmong(fails, 3);
    var p4 := Push(p3, !IsFilledText(c.availability), AvailabilityMissing);
    assert p4 == FoundAmong(fails, 4);
    var p5 := Push(p4, c.distance.None?, DistanceNotNumber);
    assert p5 == FoundAmong(fails, 5);
  }

  /** The errors the validation pushes, check by check. */
  function ValidationErrors(c: Criteria): seq<string>
  {
    var e1 := Push([], !IsFilledText(c.city), Message(CityMissing));
    var e2 := Push(e1, !IsFilledText(c.state), Message(StateMissing));
    var e3 := Push(e2, !IsFilledText(c.ages), Message(AgesMissing));
    var e4 := Push(e3, !IsFilledText(c.availability), Message(AvailabilityMissing));
    var e5 := Push(e4, c.distance.None?, Message(DistanceNotNumber));
    Push(e5, c.distance.Some? && (c.distance.value < 1 || c.distance.value > 50), Message(DistanceOutOfRange))
  }

  lemma ValidationErrorsAreMessages(c: Criteria)
    ensures ValidationErrors(c) == Messages(Problems(c))
  {
    assert Messages([]) == [];
    var p1 := Push([], !IsFilledText(c.city), CityMissing);
    MessagesOfPush([], !IsFilledText(c.city), CityMissing);
    var e1 := Push([], !IsFilledText(c.city), Message(CityMissing));
    var p2 := Push(p1, !IsFilledText(c.state), StateMissing);
    MessagesOfPush(p1, !IsFilledText(c.state), StateMissing);
    var e2 := Push(e1, !IsFilledText(c.state), Message(StateMissing));
    var p3 := Push(p2, !IsFilledText(c.ages), AgesMissing);
    MessagesOfPush(p2, !IsFilledText(c.ages), AgesMissing);
    var e3 := Push(e2, !IsFilledText(c.ages), Message(AgesMissing));
    var p4 := Push(p3, !IsFilledText(c.availability), AvailabilityMissing);
    MessagesOfPush(p3, !IsFilledText(c.availability), AvailabilityMissing);
    var e4 := Push(e3, !IsFilledText(c.availability), Message(AvailabilityMissing));
    var p5 := Push(p4, c.distance.None?, DistanceNotNumber);
    MessagesOfPush(p4, c.distance.None?, DistanceNotNumber);
    var e5 := Push(e4, c.distance.None?, Message(DistanceNotNumber));
    var outOfRange := c.distance.Some? && (c.distance.value < 1 || c.distance.value > 50);
    MessagesOfPush(p5, outOfRange, DistanceOutOfRange);
    assert Messages(PushedProblems(c)) == Push(e5, outOfRange, Message(DistanceOutOfRange));
    PushedProblemsAreProblems(c);
  }

  /** `validateSearchCriteria(criteria)`: one push per failing check. */
  method ValidateSearchCriteria(criteria: Criteria) returns (errors: seq<string>)
    ensures errors == Messages(Problems(criteria))
  {
    errors := [];
    errors := Push(errors, !IsFilledText(criteria.city), Message(CityMissing));
    errors := Push(errors, !IsFilledText(criteria.state), Message(StateMissing));
    errors := Push(errors, !IsFilledText(criteria.ages), Message(AgesMissing));
    errors := Push(errors, !IsFilledText(criteria.availability), Message(AvailabilityMissing));
    if criteria.distance.None? {
      errors := Push(errors, true, Message(DistanceNotNumber));
    } else {
      var distance := criteria.distance.value;
      errors := Push(errors, distance < 1 || distance > 50, Message(DistanceOutOfRange));
    }
    assert errors == ValidationErrors(criteria);
    ValidationErrorsAreMessages(criteria);
  }

  /** Criteria that pass every check. */
  predicate CriteriaValid(c: Criteria)
  {
    && IsFilledText(c.city) && IsFilledText(c.state) && IsFilledText(c.ages)
    && IsFilledText(c.availability)
    && c.distance.Some? && 1 <= c.distance.value <= 50
  }

  lemma {:induction false} FoundAmongMembers(fails: seq<bool>, n: nat)
    requires |fails| == |AllProblems| && n <= |AllProblems|
    ensures forall p :: p in FoundAmong(fails, n) <==> Rank(p) < n && fails[Rank(p)]
  {
    if n > 0 {
      FoundAmongMembers(fails, n - 1);
      RankOfAll(n - 1);
    }
  }

  lemma RankOfAll(k: nat)
    requires k < |AllProblems|
    ensures Rank(AllProblems[k]) == k
  {
  }

  /** A problem is reported exactly when its check fails. */
  lemma ProblemReportedIff(c: Criteria, p: Problem)
    ensures p in Problems(c) <==> HasProblem(c, p)
  {
    FoundAmongMembers(CheckResults(c), |AllProblems|);
    CheckResultOf(c, p);
  }

  lemma CheckResultOf(c: Criteria, p: Problem)
    ensures CheckResults(c)[Rank(p)] == HasProblem(c, p)
  {
  }

  /** No message at all exactly when every check passes; the bounds 1 and
      50 are accepted. */
  lemma NoErrorsIffValid(c: Criteria)
    ensures Problems(c) == [] <==> CriteriaValid(c)
  {
    if Problems(c) != [] {
      var p := Problems(c)[0];
      ProblemReportedIff(c, p);
    } else {
      ProblemReportedIff(c, CityMissing);
      ProblemReportedIff(c, StateMissing);
      ProblemReportedIff(c, AgesMissing);
      ProblemReportedIff(c, AvailabilityMissing);
      ProblemReportedIff(c, DistanceNotNumber);
      ProblemReportedIff(c, DistanceOutOfRange);
    }
  }

  /** Problems listed in strictly increasing check order. */
  predicate InCheckOrder(ps: seq<Problem>)
  {
    forall i, j :: 0 <= i < j < |ps| ==> Rank(ps[i]) < Rank(ps[j])
  }

  lemma {:induction false} FoundAmongOrdered(fails: seq<bool>, n: nat)
    requires |fails| == |AllProblems| && n <= |AllProblems|
    ensures InCheckOrder(FoundAmong(fails, n))
  {
    if n > 0 {
      FoundAmongOrdered(fails, n - 1);
      FoundAmongMembers(fails, n - 1);
      RankOfAll(n - 1);
      var before := FoundAmong(fails, n - 1);
      if fails[n - 1] {
        var r := before + [AllProblems[n - 1]];
        forall i, j | 0 <= i < j < |r|
          ensures Rank(r[i]) < Rank(r[j])
        {
          assert r[i] == before[i] && r[i] in before;
          if j < |before| {
            assert r[j] == before[j];
            assert Rank(before[i]) < Rank(before[j]);
          } else {
            assert r[j] == AllProblems[n - 1];
            assert Rank(r[i]) < n - 1;
          }
        }
        assert InCheckOrder(r);
      }
    }
  }

  /** The messages come out in the order of the checks. */
  lemma ProblemsInOrder(c: Criteria)
    ensures InCheckOrder(Problems(c))
  {
    FoundAmongOrdered(CheckResults(c), |AllProblems|);
  }

  /** At most one distance message. */
  lemma OneDistanceMessage(c: Criteria)
    ensures !(DistanceNotNumber in Problems(c) && DistanceOutOfRange in Problems(c))
  {
    ProblemReportedIff(c, DistanceNotNumber);
    ProblemReportedIff(c, DistanceOutOfRange);
  }

  /** A city that is not a string, is empty or only whitespace gets the
      city message. */
  lemma UnfilledCityReported(c: Criteria)
    requires c.city.None? || !c.city.value.JStr? || AllWhitespace(c.city.value.s)
    ensures Message(CityMissing) in Messages(Problems(c))
  {
    ProblemReportedIff(c, CityMissing);
    var k :| 0 <= k < |Problems(c)| && Problems(c)[k] == CityMissing;
    MessagesAt(Problems(c), k);
  }

  // ---------------------------------------------------------------------
  // formatActivity
  // ---------------------------------------------------------------------

  /** The display fields and the text that replaces a falsy one. */
  const DisplayDefaults: seq<(string, string)> := [
    ("title", "Unknown Activity"),
    ("emoji", "\U{1F3AF}"),
    ("description", "No description available."),
    ("location", "Location not specified"),
    ("distance", "Distance unknown")]

  /** `activity[key] || fallback`. */
  function FieldOr(activity: map<string, Json>, key: string, fallback: string): (v: Json)
    requires fallback != ""
    ensures Truthy(v)
  {
    OrDefault(Get(activity, key), JStr(fallback))
  }

  /** `formatActivity(activity)`: the activity with each falsy display field
      replaced by its default, `ageAppropriate` a boolean that is false only
      for an explicit `false`, and `currentInfo` `null` when falsy. */
  function FormatActivity(activity: map<string, Json>): (r: map<string, Json>)
    ensures r.Keys == activity.Keys + {"title", "emoji", "description", "location", "distance",
                                       "ageAppropriate", "currentInfo"}
    ensures forall k :: k in activity && k !in FormattedKeys ==> r[k] == activity[k]
    ensures forall i :: 0 <= i < |DisplayDefaults| ==>
              var (key, fallback) := DisplayDefaults[i];
              Truthy(r[key]) && (TruthyOpt(Get(activity, key)) ==> r[key] == activity[key])
                             && (!TruthyOpt(Get(activity, key)) ==> r[key] == JStr(fallback))
    ensures r["ageAppropriate"] == JBool(Get(activity, "ageAppropriate") != Some(JBool(false)))
    ensures TruthyOpt(Get(activity, "currentInfo")) ==> r["currentInfo"] == activity["currentInfo"]
    ensures !TruthyOpt(Get(activity, "currentInfo")) ==> r["currentInfo"] == JNull
  {
    activity["title" := FieldOr(activity, "title", "Unknown Activity")]
            ["emoji" := FieldOr(activity, "emoji", "\U{1F3AF}")]
            ["description" := FieldOr(activity, "description", "No description available.")]
            ["location" := FieldOr(activity, "location", "Location not specified")]
            ["distance" := FieldOr(activity, "distance", "Distance unknown")]
            ["ageAppropriate" := JBool(Get(activity, "ageAppropriate") != Some(JBool(false)))]
            ["currentInfo" := OrDefault(Get(activity, "currentInfo"), JNull)]
  }

  const FormattedKeys: set<string> :=
    {"title", "emoji", "description", "location", "distance", "ageAppropriate", "currentInfo"}

  /** Formatting a formatted activity leaves each of its fields as it is. */
  lemma FormattedFieldStable(activity: map<string, Json>, k: string)
    requires k in FormatActivity(activity)
    ensures k in FormatActivity(FormatActivity(activity))
    ensures FormatActivity(FormatActivity(activity))[k] == FormatActivity(activity)[k]
  {
    var once := FormatActivity(activity);
    if k in FormattedKeys && k != "ageAppropriate" && k != "currentInfo" {
      var i :| 0 <= i < |DisplayDefaults| && DisplayDefaults[i].0 == k by {
        assert DisplayDefaults[0].0 == "title" && DisplayDefaults[1].0 == "emoji";
        assert DisplayDefaults[2].0 == "description" && DisplayDefaults[3].0 == "location";
        assert DisplayDefaults[4].0 == "distance";
      }
    }
  }

  /** Formatting a formatted activity changes nothing. */
  lemma FormatActivityIdempotent(activity: map<string, Json>)
    ensures FormatActivity(FormatActivity(activity)) == FormatActivity(activity)
  {
    var once := FormatActivity(activity);
    var twice := FormatActivity(once);
    assert twice.Keys == once.Keys;
    forall k | k in once
      ensures twice[k] == once[k]
    {
      FormattedFieldStable(activity, k);
    }
  }

  // ---------------------------------------------------------------------
  // APIError
  // ---------------------------------------------------------------------

  /** An `APIError`: its message, HTTP status (0 for a network failure) and
      details. Its fields are set once, by the constructor. */
  datatype APIError = APIError(message: string, status: int, details: Json)
  {
    predicate IsClientError()
    {
      400 <= status < 500
    }

    predicate IsServerError()
    {
      status >= 500
    }

    predicate IsNetworkError()
    {
      status == 0
    }

    /** `getUserMessage()`: the first of the network message, the error's
        own message for a client error, the server message, and the error's
        own message or a generic text. */
    function GetUserMessage(): (m: string)
      ensures m != ""
      ensures IsNetworkError() ==> m == NetworkUserMessage
      ensures IsClientError() ==> m == (if message != "" then message else ClientUserMessage)
      ensures IsServerError() ==> m == ServerUserMessage
      ensures !IsNetworkError() && !IsClientError() && !IsServerError() ==>
                m == (if message != "" then message else GenericUserMessage)
    {
      if IsNetworkError() then NetworkUserMessage
      else if IsClientError() then (if message != "" then message else ClientUserMessage)
      else if IsServerError() then ServerUserMessage
      else if message != "" then message
      else GenericUserMessage
    }
  }

  const NetworkUserMessage: string := "Unable to connect to our servers. Please check your internet connection and try again."
  const ClientUserMessage: string := "There was an issue with your request. Please check your input and try again."
  const ServerUserMessage: string := "Our servers are currently experiencing issues. Please try again in a few moments."
  const GenericUserMessage: string := "An unexpected error occurred. Please try again."

  /** `new APIError(message, status = 500, details = {})`. */
  function NewAPIError(message: string, status: int := 500, details: Json := JObj(map[])): (e: APIError)
    ensures e.message == message && e.status == status && e.details == details
  {
    APIError(message, status, details)
  }

  /** The status classes never overlap: a status is at most one of network,
      client and server, and a status of 1 to 399 is none of them. */
  lemma StatusClassesExclusive(e: APIError)
    ensures e.IsNetworkError() ==> !e.IsClientError() && !e.IsServerError()
    ensures e.IsClientError() ==> !e.IsServerError()
    ensures e.status != 0 && e.status < 400 <==> !e.IsNetworkError() && !e.IsClientError() && !e.IsServerError()
  {
  }

  /** The default status is a server error, so its user message is the
      server message. */
  lemma DefaultStatusIsServerError(message: string)
    ensures NewAPIError(message).IsServerError()
    ensures NewAPIError(message).GetUserMessage() == ServerUserMessage
  {
  }

  // ---------------------------------------------------------------------
  // searchActivities and checkAPIHealth
  // ---------------------------------------------------------------------

  /** An error that a promise rejected with, by its name and message. */
  datatype Rejection = Rejection(name: string, message: string)

  /** What `fetch` produced: a rejection (an error's name and message), or a
      response with its status, status text and the outcome of
      `response.json()` (`Err` with the error reading the body rejected
      with). */
  datatype FetchResult =
    | FetchRejected(name: string, message: string)
    | Response(status: int, statusText: string, body: Result<Json, Rejection>)

  /** `response.ok`. */
  predicate IsOk(status: int)
  {
    200 <= status <= 299
  }

  /** What the `try` block of `searchActivities` throws: an `APIError` of its
      own, or another error given by its name and message. */
  datatype Thrown = ThrownAPIError(error: APIError) | ThrownOther(name: string, message: string)

  /** The message of the `TypeError` thrown when a property is read from
      `null` (the text is the one V8 uses). */
  function NullPropertyMessage(key: string): string
  {
    "Cannot read properties of null (reading '" + key + "')"
  }

  /** The activities of a successful search, with the criteria and the
      timestamp the server echoed. */
  datatype SearchResponse = SearchResponse(activities: seq<Json>, searchCriteria: Option<Json>, timestamp: Option<Json>)

  const InvalidFormatMessage: string := "Invalid response format: missing activities array"
  const ConnectMessage: string := "Unable to connect to the activity service. Please check your internet connection."
  const UnexpectedMessage: string := "An unexpected error occurred while searching for activities."

  /** The `try` block of `searchActivities`. */
  function SearchAttempt(f: FetchResult): (r: Result<SearchResponse, Thrown>)
    ensures f.FetchRejected? ==> r == Err(ThrownOther(f.name, f.message))
    ensures r.Ok? <==> && f.Response? && IsOk(f.status) && f.body.Ok?
                       && Prop(f.body.value, "activities").Some? && Prop(f.body.value, "activities").value.JArr?
    ensures r.Ok? ==> r.value.activities == Prop(f.body.value, "activities").value.items
    ensures f.Response? && !IsOk(f.status) && r.Err? && r.error.ThrownAPIError? ==> r.error.error.status == f.status
  {
    match f
    case FetchRejected(name, message) => Err(ThrownOther(name, message))
    case Response(status, statusText, body) =>
      if !IsOk(status) then
        var errorData := if body.Ok? then body.value else JObj(map[]);
        if errorData.JNull? then Err(ThrownOther("TypeError", NullPropertyMessage("message")))
        else
          var message := if TruthyOpt(Prop(errorData, "message")) then ToJsString(Prop(errorData, "message").value)
                         else "HTTP " + IntToString(status) + ": " + statusText;
          Err(ThrownAPIError(NewAPIError(message, status, errorData)))
      else if body.Err? then Err(ThrownOther(body.error.name, body.error.message))
      else if body.value.JNull? then Err(ThrownOther("TypeError", NullPropertyMessage("activities")))
      else
        match Prop(body.value, "activities")
        case Some(JArr(items)) =>
          Ok(SearchResponse(items, Prop(body.value, "searchCriteria"), Prop(body.value, "timestamp")))
        case _ => Err(ThrownAPIError(NewAPIError(InvalidFormatMessage, 500, body.value)))
  }

  /** The `catch` block of `searchActivities`: an `APIError` is re-thrown as
      it is, a `TypeError` mentioning `fetch` becomes a network error with
      status 0, anything else a server error with status 500. */
  function SearchCatch(t: Thrown): (e: APIError)
    ensures t.ThrownAPIError? ==> e == t.error
    ensures t.ThrownOther? ==> (e.status == 0 <==> t.name == "TypeError" && Includes(t.message, "fetch"))
    ensures t.ThrownOther? ==> e.details == JObj(map["originalError" := JStr(t.message)])
    ensures t.ThrownOther? ==> e.status == 0 || e.status == 500
  {
    match t
    case ThrownAPIError(error) => error
    case ThrownOther(name, message) =>
      if name == "TypeError" && Includes(message, "fetch") then
        NewAPIError(ConnectMessage, 0, JObj(map["originalError" := JStr(message)]))
      else
        NewAPIError(UnexpectedMessage, 500, JObj(map["originalError" := JStr(message)]))
  }

  /** `searchActivities(criteria)` on the outcome of its `fetch`. */
  function SearchActivities(f: FetchResult): (r: Result<SearchResponse, APIError>)
    ensures SearchAttempt(f).Ok? ==> r == Ok(SearchAttempt(f).value)
    ensures SearchAttempt(f).Err? ==> r == Err(SearchCatch(SearchAttempt(f).error))
  {
    match SearchAttempt(f)
    case Ok(response) => Ok(response)
    case Err(t) => Err(SearchCatch(t))
  }

  /** A response that is not ok fails with its own status, and with the
      body's `message` when it has one, else `HTTP <status>: <statusText>`
      (a `null` body aside, which fails reading its message). */
  lemma NotOkKeepsStatus(status: int, statusText: string, body: Result<Json, Rejection>)
    requires !IsOk(status)
    requires body.Ok? ==> !body.value.JNull?
    ensures var r := SearchActivities(Response(status, statusText, body));
            && r.Err? && r.error.status == status
            && (body.Ok? && TruthyOpt(Prop(body.value, "message")) ==>
                  r.error.message == ToJsString(Prop(body.value, "message").value))
            && (body.Err? || !TruthyOpt(Prop(body.value, "message")) ==>
                  r.error.message == "HTTP " + IntToString(status) + ": " + statusText)
  {
  }

  /** A response that is not ok with a `null` body fails reading the body's
      `message`, which the `catch` block turns into an unexpected error. */
  lemma NullErrorBodyFails(status: int, statusText: string)
    requires !IsOk(status)
    ensures var r := SearchActivities(Response(status, statusText, Ok(JNull)));
            r == Err(APIError(UnexpectedMessage, 500, JObj(map["originalError" := JStr(NullPropertyMessage("message"))])))
  {
    var p := "fetch";
    assert p[3] == 'c';
    var before, key, after := "Cannot read properties of null (reading '", "message", "')";
    assert 'c' !in before && 'c' !in key && 'c' !in after;
    assert NullPropertyMessage("message") == before + key + after;
    MissingCharNotIncluded(NullPropertyMessage("message"), p, 3);
  }

  /** An ok response whose body is `null` fails reading its `activities`,
      which the `catch` block turns into an unexpected error. */
  lemma OkNullBodyFails(status: int, statusText: string)
    requires IsOk(status)
    ensures var r := SearchActivities(Response(status, statusText, Ok(JNull)));
            r == Err(APIError(UnexpectedMessage, 500, JObj(map["originalError" := JStr(NullPropertyMessage("activities"))])))
  {
    var p := "fetch";
    assert p[4] == 'h';
    var before, key, after := "Cannot read properties of null (reading '", "activities", "')";
    assert 'h' !in before && 'h' !in key && 'h' !in after;
    assert NullPropertyMessage("activities") == before + key + after;
    MissingCharNotIncluded(NullPropertyMessage("activities"), p, 4);
  }

  /** An ok response whose body cannot be read fails by what the read
      rejected with: a network error exactly for a `TypeError` mentioning
      `fetch`, an unexpected error otherwise, keeping the original message. */
  lemma OkBodyUnreadable(status: int, statusText: string, e: Rejection)
    requires IsOk(status)
    ensures var r := SearchActivities(Response(status, statusText, Err(e)));
            && r.Err?
            && (r.error.status == 0 <==> e.name == "TypeError" && Includes(e.message, "fetch"))
            && (r.error.status != 0 ==> r.error.status == 500 && r.error.message == UnexpectedMessage)
            && r.error.details == JObj(map["originalError" := JStr(e.message)])
  {
  }

  /** An ok response whose body has no `activities` array fails with status
      500 and the format message; one with the array gives it unchanged. */
  lemma OkResponseNeedsActivities(status: int, statusText: string, data: Json)
    requires IsOk(status) && !data.JNull?
    ensures var r := SearchActivities(Response(status, statusText, Ok(data)));
            && (Prop(data, "activities").Some? && Prop(data, "activities").value.JArr? ==>
                  r.Ok? && r.value.activities == Prop(data, "activities").value.items)
            && (!(Prop(data, "activities").Some? && Prop(data, "activities").value.JArr?) ==>
                  r == Err(APIError(InvalidFormatMessage, 500, data)))
  {
  }

  /** A failed `fetch` is a network error exactly when it is a `TypeError`
      mentioning `fetch`; the user is then told to check the connection. */
  lemma RejectedFetch(name: string, message: string)
    ensures var r := SearchActivities(FetchRejected(name, message));
            && r.Err?
            && (r.error.IsNetworkError() <==> name == "TypeError" && Includes(message, "fetch"))
            && (r.error.IsNetworkError() ==> r.error.GetUserMessage() == NetworkUserMessage)
            && (!r.error.IsNetworkError() ==> r.error.GetUserMessage() == ServerUserMessage)
  {
  }

  /** Every failure of a search carries status 0, 500 or the status of a
      response that was not ok. */
  lemma SearchFailureStatus(f: FetchResult)
    requires SearchActivities(f).Err?
    ensures var s := SearchActivities(f).error.status;
            s == 0 || s == 500 || (f.Response? && !IsOk(f.status) && s == f.status)
  {
  }

  /** `checkAPIHealth()` on the outcome of its `fetch`: the body of an ok
      response; a response that is not ok fails with its status; any other
      failure becomes a 500 `Health check failed`. */
  function CheckAPIHealth(f: FetchResult): (r: Result<Json, APIError>)
    ensures f.Response? && !IsOk(f.status) ==>
              r == Err(APIError("Health check failed: " + f.statusText, f.status, JObj(map[])))
    ensures f.Response? && IsOk(f.status) && f.body.Ok? ==> r == Ok(f.body.value)
    ensures f.FetchRejected? || (IsOk(f.status) && f.body.Err?) ==>
              r == Err(APIError("Health check failed", 500, JObj(map[])))
  {
    match f
    case FetchRejected(_, _) => Err(NewAPIError("Health check failed"))
    case Response(status, statusText, body) =>
      if !IsOk(status) then Err(NewAPIError("Health check failed: " + statusText, status))
      else if body.Err? then Err(NewAPIError("Health check failed"))
      else Ok(body.value)
  }
}
