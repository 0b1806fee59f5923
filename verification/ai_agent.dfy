/**
 `getCategorySuggestion` of lib/ai-agent.ts: the browser-side call to the
 suggestion route. It checks the location context, posts it, and turns every
 failure (bad input, a network error, a non-2xx status, an undecodable body)
 into the `Other`/0 fallback, so it never throws. `fetch` is an input: the
 outcome of the request, or the exception it raised.
 */
module AiAgent {
  import opened Js
  import opened Categories
  import opened Suggestion
  import SuggestRoute

  /** A `Response` as far as the client reads it: its status, status text and
      the outcome of `response.json()`. */
  datatype HttpResponse = HttpResponse(status: nat, statusText: string, body: Attempt<Json>)

  /** `response.ok`: a status in the range 200-299. */
  predicate Ok(response: HttpResponse) {
    200 <= response.status <= 299
  }

  const InvalidInputReasoning: string := "Invalid input data"
  const GenericFailureReasoning: string := "Failed to get category suggestion"
  const ApiErrorLead: string := "API error: "

  /** The client's input check: a truthy context whose `latitude`, `longitude`
      and `amount` are numbers, whose `datetime` is a string and whose
      `nearbyExpenses` is an array. */
  predicate ValidContext(context: Json) {
    && Truthy(Some(context))
    && IsNumber(Prop(context, "latitude"))
    && IsNumber(Prop(context, "longitude"))
    && IsNumber(Prop(context, "amount"))
    && IsString(Prop(context, "datetime"))
    && IsArray(Prop(context, "nearbyExpenses"))
  }

  /** The message of the error thrown for a non-ok status. */
  function ApiError(response: HttpResponse): string {
    ApiErrorLead + Decimal(response.status) + " " + response.statusText
  }

  /** The reasoning the catch block reports: an `Error`'s message, or a fixed
      text for any other thrown value. */
  function CaughtReasoning(e: Thrown): (why: string)
    ensures e.ErrorObject? ==> why == e.message
    ensures e.OtherValue? ==> why == GenericFailureReasoning
    ensures why == "" ==> e == ErrorObject("")
  {
    match e
    case ErrorObject(m) => m
    case OtherValue(_) => GenericFailureReasoning
  }

  /** The suggestion handed to the page. */
  function GetCategorySuggestion(context: Json, fetch: Attempt<HttpResponse>): (r: Json)
    ensures !ValidContext(context) ==> r == Fallback(InvalidInputReasoning)
    ensures ValidContext(context) && fetch.Threw? ==> r == Fallback(CaughtReasoning(fetch.thrown))
    ensures ValidContext(context) && fetch.Returned? && !Ok(fetch.value) ==>
      r == Fallback(ApiError(fetch.value))
    ensures ValidContext(context) && fetch.Returned? && Ok(fetch.value) ==>
      r == match fetch.value.body
           case Returned(data) => data
           case Threw(e) => Fallback(CaughtReasoning(e))
  {
    if !ValidContext(context) then Fallback(InvalidInputReasoning)
    else
      match fetch
      case Threw(e) => Fallback(CaughtReasoning(e))
      case Returned(response) =>
        if !Ok(response) then Fallback(CaughtReasoning(ErrorObject(ApiError(response))))
        else
          match response.body
          case Threw(e) => Fallback(CaughtReasoning(e))
          case Returned(data) => data
  }

  /** An invalid context sends no request: the answer is the same whatever the
      request would have produced. */
  lemma InvalidContextSendsNothing(context: Json, f1: Attempt<HttpResponse>, f2: Attempt<HttpResponse>)
    requires !ValidContext(context)
    ensures GetCategorySuggestion(context, f1) == GetCategorySuggestion(context, f2)
    ensures CategoryOf(GetCategorySuggestion(context, f1)) == Some(Other)
  {
  }

  /** Whatever the outcome of the request, the answer is a payload the server
      sent with a 2xx status or a safe fallback: nothing escapes as an
      exception. */
  lemma AnswerIsDataOrFallback(context: Json, fetch: Attempt<HttpResponse>)
    ensures var r := GetCategorySuggestion(context, fetch);
      || (fetch.Returned? && Ok(fetch.value) && fetch.value.body == Returned(r))
      || (IsSafe(r) && CategoryOf(r) == Some(Other) && Prop(r, "confidence") == Some(JNumber(0.0)))
  {
  }

  /** The client's input check and the route's request check accept the same
      bodies, so a context the client sends is never answered with 400. */
  lemma GuardsAgree(context: Json)
    ensures ValidContext(context) <==> SuggestRoute.CheckBody(context).None?
  {
  }

  /** The route's reply as the client receives it: the route's status and
      body, with whatever status text the server attached. Sending the context
      through `JSON.stringify` and `request.json()` is taken to give it back. */
  function Served(reply: SuggestRoute.Reply, statusText: string): HttpResponse {
    HttpResponse(reply.status, statusText, Returned(reply.body))
  }

  /** The request as a whole: `link` is `Threw` when `fetch` itself fails and
      otherwise carries the status text of the route's reply. */
  function Exchange(host: Host, context: Json, generate: Attempt<string>, link: Attempt<string>): Attempt<HttpResponse> {
    match link
    case Threw(e) => Threw(e)
    case Returned(statusText) => Returned(Served(SuggestRoute.Post(host, Returned(context), generate), statusText))
  }

  /** End to end: whatever the model answers and whatever happens on the
      network, the caller receives a listed category and a confidence in
      [0, 95]; a valid context never draws the route's 400. */
  lemma ClientAnswerIsSafe(host: Host, context: Json, generate: Attempt<string>, link: Attempt<string>)
    ensures IsSafe(GetCategorySuggestion(context, Exchange(host, context, generate, link)))
    ensures ValidContext(context) ==> SuggestRoute.Post(host, Returned(context), generate).status != 400
  {
    GuardsAgree(context);
  }
}
