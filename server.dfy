/** The decisions of the activity endpoint (`POST /api/activities` in
    server/index.js): the request guard, the choice between the web-search
    answer and the knowledge-only retry, the extraction of the answer's
    text, the parsing of activities out of that text and the error reply.
    The language-model client, `JSON.parse` and `JSON.stringify` are
    inputs: the calls' outcomes are given as values and the two JSON
    functions as function parameters. */
module ActivityServer {
  import opened Wrappers
  import opened JsStrings
  import opened JsValues
  import opened Templates
  import opened PromptManagement
  import opened ServerMessages

  const MaxActivities: nat := 5

  function Min(a: nat, b: nat): nat
  {
    if a <= b then a else b
  }

  // ---------------------------------------------------------------------
  // parseActivitiesFromResponse and createFallbackActivities
  // ---------------------------------------------------------------------

  /** What `/\{[\s\S]*\}/` matches: the text from the first `{` to the last
      `}`, when a `}` follows the first `{`. */
  function CandidateJson(text: string): (r: Option<string>)
    ensures r.None? <==> forall i, j :: 0 <= i < j < |text| ==> !(text[i] == '{' && text[j] == '}')
    ensures r.Some? ==>
              && IndexOfChar(text, '{').Some? && LastIndexOfChar(text, '}').Some?
              && r.value == text[IndexOfChar(text, '{').value..LastIndexOfChar(text, '}').value + 1]
    ensures r.Some? ==> |r.value| >= 2 && r.value[0] == '{' && r.value[|r.value| - 1] == '}'
  {
    match (IndexOfChar(text, '{'), LastIndexOfChar(text, '}'))
    case (Some(i), Some(j)) =>
      if i < j then
        assert text[i..j + 1][0] == text[i] && text[i..j + 1][j - i] == text[j];
        Some(text[i..j + 1])
      else
        NoBracePair(text, i, j);
        None
    case (None, _) =>
      assert forall k :: 0 <= k < |text| ==> text[k] != '{';
      None
    case (_, None) =>
      assert forall k :: 0 <= k < |text| ==> text[k] != '}';
      None
  }

  /** When the last `}` is not after the first `{`, no `}` follows a `{`. */
  lemma NoBracePair(text: string, i: nat, j: nat)
    requires i < |text| && '{' !in text[..i]
    requires j < |text| && '}' !in text[j + 1..]
    requires j <= i
    ensures forall a, b :: 0 <= a < b < |text| ==> !(text[a] == '{' && text[b] == '}')
  {
    forall k | 0 <= k < i
      ensures text[k] != '{'
    {
      assert text[..i][k] == text[k];
    }
    forall k | j < k < |text|
      ensures text[k] != '}'
    {
      assert text[j + 1..][k - j - 1] == text[k];
    }
  }

  /** The `activities` array of the candidate text, when the candidate
      parses and its `activities` property is an array. */
  function ActivitiesArray(text: string, jsonParse: string -> Option<Json>): Option<seq<Json>>
  {
    match CandidateJson(text)
    case None => None
    case Some(candidate) =>
      match jsonParse(candidate)
      case None => None
      case Some(parsed) =>
        match Prop(parsed, "activities")
        case Some(JArr(items)) => Some(items)
        case _ => None
  }

  function Field(key: string, value: Json): (string, Json)
  {
    (key, value)
  }

  /** `createFallbackActivities(responseText)`: one fixed activity, whatever
      the text. */
  function CreateFallbackActivities(responseText: string): (r: seq<Json>)
    ensures |r| == 1 && r[0].JObj?
    ensures Get(r[0].fields, "ageAppropriate") == Some(JBool(true))
    ensures Get(r[0].fields, "title") == Some(JStr("Activity Search Results"))
  {
    [JObj(map[
      "title" := JStr("Activity Search Results"),
      "emoji" := JStr("\U{1F50D}"),
      "description" := JStr("Please try your search again. We're working to improve our activity recommendations."),
      "location" := JStr("Various locations"),
      "distance" := JStr("Varies"),
      "ageAppropriate" := JBool(true),
      "currentInfo" := JStr("Please refine your search criteria")])]
  }

  /** The fallback does not depend on the text it is given. */
  lemma FallbackIgnoresText(a: string, b: string)
    ensures CreateFallbackActivities(a) == CreateFallbackActivities(b)
  {
  }

  /** `parseActivitiesFromResponse(responseText)`: the first five elements of
      the `activities` array, in order and unchanged, or the fallback when
      there is no candidate, it does not parse or has no such array. It
      never fails. */
  function ParseActivities(text: string, jsonParse: string -> Option<Json>): (r: seq<Json>)
    ensures |r| <= MaxActivities
    ensures ActivitiesArray(text, jsonParse).Some? ==>
              var items := ActivitiesArray(text, jsonParse).value;
              |r| == Min(MaxActivities, |items|) && r == items[..|r|]
    ensures ActivitiesArray(text, jsonParse).None? ==> r == CreateFallbackActivities(text)
  {
    match ActivitiesArray(text, jsonParse)
    case Some(items) => if |items| <= MaxActivities then items else items[..MaxActivities]
    case None => CreateFallbackActivities(text)
  }

  /** A text with no `{` before a `}` always gives the fallback. */
  lemma NoBracesGiveFallback(text: string, jsonParse: string -> Option<Json>)
    requires '{' !in text
    ensures ParseActivities(text, jsonParse) == CreateFallbackActivities(text)
  {
    assert forall i :: 0 <= i < |text| ==> text[i] != '{';
  }

  /** An array of at most five activities is returned whole. */
  lemma ShortArrayKept(text: string, jsonParse: string -> Option<Json>)
    requires ActivitiesArray(text, jsonParse).Some?
    requires |ActivitiesArray(text, jsonParse).value| <= MaxActivities
    ensures ParseActivities(text, jsonParse) == ActivitiesArray(text, jsonParse).value
  {
  }

  // ---------------------------------------------------------------------
  // Extracting the answer's text
  // ---------------------------------------------------------------------

  /** A content block of type "text" with a truthy text. */
  predicate IsTextBlock(block: Json)
  {
    Prop(block, "type") == Some(JStr("text")) && TruthyOpt(Prop(block, "text"))
  }

  /** The first text block at or after `from`. */
  function FirstTextBlock(items: seq<Json>, from: nat): (r: Option<nat>)
    requires from <= |items|
    ensures r.Some? ==> from <= r.value < |items| && IsTextBlock(items[r.value])
    ensures r.Some? ==> forall j :: from <= j < r.value ==> !IsTextBlock(items[j])
    ensures r.None? ==> forall j :: from <= j < |items| ==> !IsTextBlock(items[j])
    decreases |items| - from
  {
    if from == |items| then None
    else if IsTextBlock(items[from]) then Some(from)
    else FirstTextBlock(items, from + 1)
  }

  /** The text taken from the first block when no block is a text block:
      its truthy `text`, else the block itself when it is a string, else
      the block stringified. */
  function FirstBlockText(first: Json, stringify: Json -> string): Json
  {
    if TruthyOpt(Prop(first, "text")) then Prop(first, "text").value
    else if first.JStr? then first
    else JStr(stringify(first))
  }

  /** The text the handler parses, in its order of preference: the text of
      the first text block; else what the first block offers; with a string
      content, its first character (the only string block); with no
      content, the whole response stringified. */
  function ResponseText(response: Json, stringify: Json -> string): (r: Json)
    ensures var content := Prop(response, "content");
            content.Some? && content.value.JArr? && |content.value.items| > 0 ==>
              var items := content.value.items;
              && (FirstTextBlock(items, 0).Some? ==>
                    var k := FirstTextBlock(items, 0).value;
                    r == Prop(items[k], "text").value && Truthy(r))
              && (FirstTextBlock(items, 0).None? ==> r == FirstBlockText(items[0], stringify))
    ensures Prop(response, "content").None? ==> r == JStr(stringify(response))
    ensures var content := Prop(response, "content");
            content.Some? && !(content.value.JArr? && |content.value.items| > 0)
                          && !(content.value.JStr? && |content.value.s| > 0) ==>
              r == JStr(stringify(response))
    ensures var content := Prop(response, "content");
            content.Some? && content.value.JStr? && |content.value.s| > 0 ==>
              r == JStr([content.value.s[0]])
  {
    match Prop(response, "content")
    case Some(JArr(items)) =>
      if |items| > 0 then
        match FirstTextBlock(items, 0)
        case Some(k) => Prop(items[k], "text").value
        case None => FirstBlockText(items[0], stringify)
      else JStr(stringify(response))
    case Some(JStr(s)) =>
      if |s| > 0 then JStr([s[0]]) else JStr(stringify(response))
    case _ => JStr(stringify(response))
  }

  /** The extraction block of the handler: a loop over the content blocks
      that stops at the first text block, then the fallbacks. */
  method ExtractResponseText(response: Json, stringify: Json -> string) returns (responseText: Json)
    ensures responseText == ResponseText(response, stringify)
  {
    responseText := JStr("");
    var content := Prop(response, "content");
    if content.Some? && content.value.JArr? && |content.value.items| > 0 {
      var items := content.value.items;
      var i := 0;
      while i < |items|
        invariant 0 <= i <= |items|
        invariant FirstTextBlock(items, 0) == FirstTextBlock(items, i)
        invariant responseText == JStr("")
      {
        if Prop(items[i], "type") == Some(JStr("text")) && TruthyOpt(Prop(items[i], "text")) {
          responseText := Prop(items[i], "text").value;
          break;
        }
        i := i + 1;
      }
      if !Truthy(responseText) {
        var first := items[0];
        if TruthyOpt(Prop(first, "text")) {
          responseText := Prop(first, "text").value;
        } else if first.JStr? {
          responseText := first;
        } else {
          responseText := JStr(stringify(first));
        }
      }
    } else if content.Some? && content.value.JStr? && |content.value.s| > 0 {
      responseText := JStr([content.value.s[0]]);
    } else {
      responseText := JStr(stringify(response));
    }
  }

  /** Text blocks before the first one do not matter: with a text block at
      `k` and none before it, its text is the answer. */
  lemma FirstTextBlockWins(response: Json, stringify: Json -> string, k: nat)
    requires Prop(response, "content").Some? && Prop(response, "content").value.JArr?
    requires k < |Prop(response, "content").value.items|
    requires IsTextBlock(Prop(response, "content").value.items[k])
    requires forall j :: 0 <= j < k ==> !IsTextBlock(Prop(response, "content").value.items[j])
    ensures ResponseText(response, stringify) == Prop(Prop(response, "content").value.items[k], "text").value
  {
    var items := Prop(response, "content").value.items;
    FirstTextBlockIs(items, 0, k);
  }

  lemma {:induction false} FirstTextBlockIs(items: seq<Json>, from: nat, k: nat)
    requires from <= k < |items| && IsTextBlock(items[k])
    requires forall j :: from <= j < k ==> !IsTextBlock(items[j])
    ensures FirstTextBlock(items, from) == Some(k)
    decreases k - from
  {
    if from < k {
      FirstTextBlockIs(items, from + 1, k);
    }
  }

  // ---------------------------------------------------------------------
  // Errors from the language-model client
  // ---------------------------------------------------------------------

  /** An error thrown by the client or the timer: an HTTP status when the
      service answered, and a message ("" when there is none). */
  datatype UpstreamError = UpstreamError(status: Option<int>, message: string)


  /** The error the 45-second timer rejects with. */
  function TimeoutError(): UpstreamError
  {
    UpstreamError(None, TimeoutMessage)
  }

  /** The test that sends a failed web-search call to the knowledge-only
      retry: status 429, or a message mentioning `rate_limit_error`. */
  predicate IsRateLimit(e: UpstreamError)
  {
    e.status == Some(429) || (e.message != "" && Includes(e.message, "rate_limit_error"))
  }

  /** What happens after the web-search call. */
  datatype CallOutcome = Answered(response: Json) | RetryWithoutSearch | Rethrown(error: UpstreamError)

  function AfterPrimaryCall(r: Result<Json, UpstreamError>): (o: CallOutcome)
    ensures r.Ok? ==> o == Answered(r.value)
    ensures r.Err? ==> (o.RetryWithoutSearch? <==> IsRateLimit(r.error))
    ensures r.Err? && !IsRateLimit(r.error) ==> o == Rethrown(r.error)
  {
    match r
    case Ok(response) => Answered(response)
    case Err(e) => if IsRateLimit(e) then RetryWithoutSearch else Rethrown(e)
  }

  /** A timeout is never retried: it has no status and its message does not
      mention a rate limit. */
  lemma TimeoutIsNotRateLimit()
    ensures !IsRateLimit(TimeoutError())
  {
    NoUnderscoreInTimeout();
    var p := "rate_limit_error";
    assert p[4] == '_';
    MissingCharNotIncluded(TimeoutMessage, p, 4);
  }


  /** The status and message of the reply to a failure: `error.status` when
      it is set and not 0, else 500; the message, else a generic text. */
  function FailureStatus(e: UpstreamError): (status: int)
    ensures status != 0
    ensures e.status.Some? && e.status.value != 0 ==> status == e.status.value
    ensures e.status.None? || e.status.value == 0 ==> status == 500
  {
    if e.status.Some? && e.status.value != 0 then e.status.value else 500
  }

  function FailureMessage(e: UpstreamError): (m: string)
    ensures m != ""
    ensures e.message != "" ==> m == e.message
  {
    if e.message != "" then e.message else "Internal server error"
  }

  // ---------------------------------------------------------------------
  // The request guard and the whole reply
  // ---------------------------------------------------------------------

  const RequiredFields: seq<string> := ["city", "state", "ages", "availability", "distance"]

  /** The guard: city, state, ages and availability truthy, and a distance
      present (any value, even falsy). */
  predicate HasRequiredFields(body: map<string, Json>)
  {
    && TruthyOpt(Get(body, "city"))
    && TruthyOpt(Get(body, "state"))
    && TruthyOpt(Get(body, "ages"))
    && TruthyOpt(Get(body, "availability"))
    && Get(body, "distance").Some?
  }


  function PromptErrorMessage(e: PromptError): string
  {
    match e
    case MissingVariables(names) => MissingVariablesMessage(names)
    case StateNotText => StateNotTextMessage
  }


  /** The replies of the endpoint: 400 for missing fields or a prompt that
      cannot be built, the activities, or a failure with a status. */
  datatype Reply =
    | MissingFields(required: seq<string>)
    | InvalidCriteria(message: string)
    | Activities(activities: seq<Json>)
    | Failure(status: int, message: string)

  function StatusOf(reply: Reply): int
  {
    match reply
    case MissingFields(_) => 400
    case InvalidCriteria(_) => 400
    case Activities(_) => 200
    case Failure(status, _) => status
  }

  /** The activities found in a response. */
  function RepliedActivities(response: Json, jsonParse: string -> Option<Json>, stringify: Json -> string): Reply
  {
    match ResponseText(response, stringify)
    case JStr(text) => Activities(ParseActivities(text, jsonParse))
    case _ => Failure(500, TextNotStringMessage)
  }

  /** The reply once the prompt is built: the web-search answer, the
      re-thrown error, or, for a rate limit, the knowledge-only retry's
      answer or failure. */
  function UpstreamReply(primary: Result<Json, UpstreamError>, retry: Result<Json, UpstreamError>,
                         jsonParse: string -> Option<Json>, stringify: Json -> string): (reply: Reply)
    ensures primary.Ok? ==> reply == RepliedActivities(primary.value, jsonParse, stringify)
    ensures primary.Err? && !IsRateLimit(primary.error) ==>
              reply == Failure(FailureStatus(primary.error), FailureMessage(primary.error))
    ensures primary.Err? && IsRateLimit(primary.error) && retry.Ok? ==>
              reply == RepliedActivities(retry.value, jsonParse, stringify)
    ensures primary.Err? && IsRateLimit(primary.error) && retry.Err? ==>
              reply == Failure(FailureStatus(retry.error), FailureMessage(retry.error))
    ensures reply.Activities? ==> |reply.activities| <= MaxActivities
    ensures StatusOf(reply) != 0
  {
    match AfterPrimaryCall(primary)
    case Answered(response) => RepliedActivities(response, jsonParse, stringify)
    case Rethrown(e) => Failure(FailureStatus(e), FailureMessage(e))
    case RetryWithoutSearch =>
      match retry
      case Ok(response) => RepliedActivities(response, jsonParse, stringify)
      case Err(e) => Failure(FailureStatus(e), FailureMessage(e))
  }

  /** The reply to a request body, given the loaded template, the outcome of
      the web-search call and the outcome of the knowledge-only retry. */
  function HandleActivities(body: map<string, Json>, template: string,
                            primary: Result<Json, UpstreamError>, retry: Result<Json, UpstreamError>,
                            jsonParse: string -> Option<Json>, stringify: Json -> string): (reply: Reply)
    ensures !HasRequiredFields(body) <==> reply == MissingFields(RequiredFields)
    ensures HasRequiredFields(body) && PromptFor(template, body).Err? ==>
              reply == InvalidCriteria(PromptErrorMessage(PromptFor(template, body).error))
    ensures HasRequiredFields(body) && PromptFor(template, body).Ok? ==>
              && (primary.Ok? ==> reply == RepliedActivities(primary.value, jsonParse, stringify))
              && (primary.Err? && !IsRateLimit(primary.error) ==>
                    reply == Failure(FailureStatus(primary.error), FailureMessage(primary.error)))
              && (primary.Err? && IsRateLimit(primary.error) && retry.Ok? ==>
                    reply == RepliedActivities(retry.value, jsonParse, stringify))
              && (primary.Err? && IsRateLimit(primary.error) && retry.Err? ==>
                    reply == Failure(FailureStatus(retry.error), FailureMessage(retry.error)))
    ensures reply.Activities? ==> |reply.activities| <= MaxActivities
    ensures reply.Failure? ==> reply.status != 0
    ensures StatusOf(reply) != 0
  {
    if !HasRequiredFields(body) then MissingFields(RequiredFields)
    else
      match PromptFor(template, body)
      case Err(e) => InvalidCriteria(PromptErrorMessage(e))
      case Ok(_) => UpstreamReply(primary, retry, jsonParse, stringify)
  }

  /** A rate-limited web search answered by the retry replies with the
      retry's activities, whatever the first error was. */
  lemma RateLimitUsesRetry(body: map<string, Json>, template: string, e: UpstreamError, response: Json,
                           other: UpstreamError, jsonParse: string -> Option<Json>, stringify: Json -> string)
    requires HasRequiredFields(body) && PromptFor(template, body).Ok?
    requires IsRateLimit(e) && IsRateLimit(other)
    ensures HandleActivities(body, template, Err(e), Ok(response), jsonParse, stringify)
            == HandleActivities(body, template, Err(other), Ok(response), jsonParse, stringify)
            == RepliedActivities(response, jsonParse, stringify)
  {
  }

  /** A timed-out web search is a failure with status 500 and the timeout
      message; the retry is not attempted. */
  lemma TimeoutFails(body: map<string, Json>, template: string, retry: Result<Json, UpstreamError>,
                     jsonParse: string -> Option<Json>, stringify: Json -> string)
    requires HasRequiredFields(body) && PromptFor(template, body).Ok?
    ensures HandleActivities(body, template, Err(TimeoutError()), retry, jsonParse, stringify)
            == Failure(500, TimeoutMessage)
  {
    TimeoutIsNotRateLimit();
  }
}
