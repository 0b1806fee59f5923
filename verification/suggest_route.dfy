/**
 The POST handler of app/api/suggest-category: it rejects a malformed request
 body with 400, asks the model for a suggestion, and turns whatever text comes
 back into a payload whose category is one of the listed ones and whose
 confidence lies in [0, 95]. The model call itself and the prompt it is sent
 are outside the model; the model's outcome is an input.
 */
module SuggestRoute {
  import opened Js
  import opened Categories
  import opened Suggestion
  import Cleanup

  /** The route's own copy of the category list. */
  const RouteCategories: seq<string> := [
    "Groceries",
    "Restaurants",
    "Transportation",
    "Entertainment",
    "Shopping",
    "Health",
    "Education",
    "Housing",
    "Utilities",
    "Other"
  ]

  /** The copy agrees with lib/constants.ts element by element. */
  lemma RouteCategoriesMatchConstants()
    ensures RouteCategories == CATEGORIES
  {
  }

  /** An HTTP response: status and JSON body. */
  datatype Reply = Reply(status: nat, body: Json)

  const ParseFailureReasoning: string := "Failed to parse AI response"

  /** `{error: message}` with status 400. */
  function Rejection(message: string): Reply {
    Reply(400, JObject(map["error" := JString(message)]))
  }

  /** The 500 response for an exception outside the reply parsing. */
  function Failure(e: Thrown): Reply {
    Reply(500, JObject(map[
      "error" := JString("Failed to process request"),
      "details" := JString(Details(e))
    ]))
  }

  /** The fields a location context must carry, with their types. */
  predicate HasContextFields(body: Json) {
    && IsNumber(Prop(body, "latitude"))
    && IsNumber(Prop(body, "longitude"))
    && IsNumber(Prop(body, "amount"))
    && IsString(Prop(body, "datetime"))
    && IsArray(Prop(body, "nearbyExpenses"))
  }

  /** The request-body check: a falsy or non-object body, or one missing a
      required field, is answered with 400; `None` lets the request proceed. */
  function CheckBody(body: Json): (r: Option<Reply>)
    ensures r.Some? ==> r.value.status == 400
    ensures r.None? <==> body.JObject? && HasContextFields(body)
    ensures !body.JObject? && !body.JArray? ==> r == Some(Rejection("Invalid request body"))
    ensures (body.JObject? || body.JArray?) && r.Some? ==> r == Some(Rejection("Missing required fields"))
  {
    if !Truthy(Some(body)) || !IsObjectTyped(body) then
      Some(Rejection("Invalid request body"))
    else if !HasContextFields(body) then
      Some(Rejection("Missing required fields"))
    else
      None
  }

  /** `Math.min(95, Math.max(0, c))`. */
  function Clamp(c: real): (r: real)
    ensures 0.0 <= r <= MaxConfidence
    ensures 0.0 <= c <= MaxConfidence ==> r == c
    ensures c < 0.0 ==> r == 0.0
    ensures c > MaxConfidence ==> r == MaxConfidence
  {
    var lower := if c < 0.0 then 0.0 else c;
    if lower > MaxConfidence then MaxConfidence else lower
  }

  /** The shape check on the parsed reply: truthy `category`, numeric
      `confidence`, truthy `reasoning`. */
  predicate WellShaped(v: Json) {
    Truthy(Prop(v, "category")) && IsNumber(Prop(v, "confidence")) && Truthy(Prop(v, "reasoning"))
  }

  /** The model's category is one of the route's list. */
  predicate Listed(category: Json) {
    category.JString? && category.s in RouteCategories
  }

  /** Reasoning of the answer to an unlisted category: the value as shown by
      a template literal, then the list of `names` joined with ", ". */
  function UnlistedReasoning(shown: string, names: seq<string>): string {
    UnlistedLead + shown + UnlistedMiddle + Join(names, ", ")
  }

  const UnlistedLead: string := "Invalid category suggested: "
  const UnlistedMiddle: string := ". Must be one of: "

  /** A listed category names one of `CATEGORIES`. */
  lemma ListedIsCategory(category: Json)
    requires Listed(category)
    ensures FromName(category.s).Some?
  {
    RouteCategoriesMatchConstants();
  }

  /** The parsed reply the success path accepts, with its confidence clamped;
      every other field passes through. */
  function Accept(v: Json): (r: Json)
    requires WellShaped(v)
    ensures r.JObject? && r.fields.Keys == v.fields.Keys
    ensures forall k :: k in v.fields && k != "confidence" ==> r.fields[k] == v.fields[k]
    ensures r.fields["confidence"] == JNumber(Clamp(v.fields["confidence"].n))
  {
    JObject(v.fields["confidence" := JNumber(Clamp(v.fields["confidence"].n))])
  }

  /** The payload of the 200 response for the model's reply `text`. */
  function Interpret(host: Host, text: string): (r: Json)
    ensures IsSafe(r)
    ensures Truthy(Prop(r, "reasoning"))
    ensures host.parse(Cleanup.Clean(text)).None? ==> r == Fallback(ParseFailureReasoning)
    ensures CategoryOf(r) != Some(Other) ==>
      && host.parse(Cleanup.Clean(text)).Some?
      && var v := host.parse(Cleanup.Clean(text)).value;
         WellShaped(v) && Listed(v.fields["category"]) && r == Accept(v)
  {
    match host.parse(Cleanup.Clean(text))
    case None => Fallback(ParseFailureReasoning)
    case Some(v) =>
      if !WellShaped(v) then Fallback(ParseFailureReasoning)
      else if !Listed(v.fields["category"]) then
        (match Show(host, v.fields["category"])
         case None => Fallback(ParseFailureReasoning)
         case Some(shown) => Fallback(UnlistedReasoning(shown, RouteCategories)))
      else
        var r := Accept(v);
        ListedIsCategory(v.fields["category"]);
        assert Prop(r, "category") == Some(v.fields["category"]);
        r
  }

  /** The route: parse the request body, check it, call the model, interpret
      its reply. `body` is the outcome of `request.json()`, `generate` that of
      the model call. */
  function Post(host: Host, body: Attempt<Json>, generate: Attempt<string>): (r: Reply)
    ensures r.status == 200 || r.status == 400 || r.status == 500
    ensures r.status == 200 ==> IsSafe(r.body)
    ensures r.status == 200 ==> body.Returned? && generate.Returned? && r.body == Interpret(host, generate.value)
    ensures r.status == 400 <==> body.Returned? && CheckBody(body.value).Some?
    ensures r.status == 400 ==> r == CheckBody(body.value).value
    ensures r.status == 500 <==> body.Threw? || (CheckBody(body.value).None? && generate.Threw?)
    ensures r.status == 500 ==> r == Failure(if body.Threw? then body.thrown else generate.thrown)
  {
    match body
    case Threw(e) => Failure(e)
    case Returned(b) =>
      match CheckBody(b)
      case Some(rejection) => rejection
      case None =>
        match generate
        case Threw(e) => Failure(e)
        case Returned(text) => Reply(200, Interpret(host, text))
  }

  /** A valid request whose model reply cleans to a well-shaped object with
      a listed category is answered 200 with that object, its confidence
      clamped. */
  lemma ListedReplyIsRelayed(host: Host, body: Json, text: string)
    requires CheckBody(body).None?
    requires host.parse(Cleanup.Clean(text)).Some?
    requires WellShaped(host.parse(Cleanup.Clean(text)).value)
    requires Listed(host.parse(Cleanup.Clean(text)).value.fields["category"])
    ensures Post(host, Returned(body), Returned(text)) == Reply(200, Accept(host.parse(Cleanup.Clean(text)).value))
  {
    ListedCategoryPassesThrough(host, text);
  }

  /** A rejected request never reaches the model: its response is the same
      whatever the model would have answered. */
  lemma RejectionPrecedesModel(host: Host, body: Json, g1: Attempt<string>, g2: Attempt<string>)
    requires CheckBody(body).Some?
    ensures Post(host, Returned(body), g1) == Post(host, Returned(body), g2)
    ensures Post(host, Returned(body), g1).status == 400
  {
  }

  /** A reply without any `{` leaves nothing to parse and yields the
      parse-failure fallback. */
  lemma NoBraceReplyFallsBack(host: Host, text: string)
    requires RejectsEmptyText(host)
    requires '{' !in text
    ensures Interpret(host, text) == Fallback(ParseFailureReasoning)
  {
    Cleanup.NoOpenBraceCleansToEmpty(text);
  }

  /** A parsed reply failing the shape check yields the parse-failure fallback. */
  lemma MalformedReplyFallsBack(host: Host, text: string)
    requires host.parse(Cleanup.Clean(text)).Some?
    requires !WellShaped(host.parse(Cleanup.Clean(text)).value)
    ensures Interpret(host, text) == Fallback(ParseFailureReasoning)
  {
  }

  /** A well-shaped reply with an unlisted category that converts to a string
      yields "Other" with confidence 0 and a reasoning naming the bad value
      and the list. */
  lemma UnlistedCategoryFallsBack(host: Host, text: string)
    requires host.parse(Cleanup.Clean(text)).Some?
    requires WellShaped(host.parse(Cleanup.Clean(text)).value)
    requires !Listed(host.parse(Cleanup.Clean(text)).value.fields["category"])
    requires !ShowThrows(host.parse(Cleanup.Clean(text)).value.fields["category"])
    ensures var bad := host.parse(Cleanup.Clean(text)).value.fields["category"];
      Interpret(host, text) == Fallback(UnlistedReasoning(Show(host, bad).value, RouteCategories))
  {
  }

  /** An unlisted category whose conversion to a string throws (an object
      with its own `toString` key, or an array holding one) makes building
      the message throw; the surrounding catch turns that into the
      parse-failure fallback. */
  lemma UnshowableCategoryFallsBack(host: Host, text: string)
    requires host.parse(Cleanup.Clean(text)).Some?
    requires WellShaped(host.parse(Cleanup.Clean(text)).value)
    requires ShowThrows(host.parse(Cleanup.Clean(text)).value.fields["category"])
    ensures Interpret(host, text) == Fallback(ParseFailureReasoning)
  {
    var bad := host.parse(Cleanup.Clean(text)).value.fields["category"];
    assert !Listed(bad);
  }

  /** The reply `{"category": {"toString": 1}, "confidence": 50,
      "reasoning": "x"}` gets the parse-failure fallback. */
  lemma ToStringKeyFallsBack(host: Host, text: string)
    requires host.parse(Cleanup.Clean(text)) == Some(JObject(map[
      "category" := JObject(map["toString" := JNumber(1.0)]),
      "confidence" := JNumber(50.0),
      "reasoning" := JString("x")]))
    ensures Interpret(host, text) == Fallback(ParseFailureReasoning)
  {
    UnshowableCategoryFallsBack(host, text);
  }

  /** A well-shaped reply with a listed category is returned with only its
      confidence clamped. */
  lemma ListedCategoryPassesThrough(host: Host, text: string)
    requires host.parse(Cleanup.Clean(text)).Some?
    requires WellShaped(host.parse(Cleanup.Clean(text)).value)
    requires Listed(host.parse(Cleanup.Clean(text)).value.fields["category"])
    ensures Interpret(host, text) == Accept(host.parse(Cleanup.Clean(text)).value)
  {
  }

  /** The unlisted-category reasoning quotes the shown value right after its
      lead, and every name of the list; `at` is where the `k`-th name appears
      in it. */
  lemma UnlistedReasoningNamesAll(shown: string, names: seq<string>, k: nat) returns (at: nat)
    requires k < |names|
    ensures var why := UnlistedReasoning(shown, names);
      && why[|UnlistedLead|..|UnlistedLead| + |shown|] == shown
      && at + |names[k]| <= |why| && why[at..at + |names[k]|] == names[k]
  {
    var joined := Join(names, ", ");
    var prefix := UnlistedLead + shown + UnlistedMiddle;
    var inner := JoinContains(names, ", ", k);
    at := |prefix| + inner;
    var why := UnlistedReasoning(shown, names);
    assert why == prefix + joined;
    SliceOfSecond(prefix, joined, inner, |names[k]|);
    assert why == UnlistedLead + (shown + UnlistedMiddle + joined);
    SliceOfSecond(UnlistedLead, shown + UnlistedMiddle + joined, 0, |shown|);
  }

  /** Clamping examples: -10, 0, 50, 95, 200 become 0, 0, 50, 95, 95. */
  lemma ClampExamples()
    ensures Clamp(-10.0) == 0.0 && Clamp(0.0) == 0.0 && Clamp(50.0) == 50.0
    ensures Clamp(95.0) == 95.0 && Clamp(200.0) == 95.0
  {
  }
}
