# Expense categorization: a Dafny model of the suggestion pipeline

The expense tracker suggests a category for a new expense from where it is made. The page collects
past expenses within 500 m of the current position. The client `getCategorySuggestion` checks the
location context and posts it to `/api/suggest-category`. That route checks the request body, asks
a language model, and reduces whatever text comes back to a payload `{category, confidence,
reasoning}` whose category is one of the ten `CATEGORIES` and whose confidence lies in [0, 95].
Every failure on the way degrades to `Other` with confidence 0.

This project models that decision logic as pure functions over immutable data and proves its
properties:

- `js.dfy` (`Js`): the JavaScript notions the code relies on. These are JSON values, truthiness,
  property reads, `typeof` checks, `Array.prototype.join`, what a template literal makes of a
  value, calls that return or throw, and the decimal digits of a whole number.
- `categories.dfy` (`Categories`): the category vocabulary of `lib/constants.ts` as a datatype,
  with its names.
- `suggestion.dfy` (`Suggestion`): the payload, its `Other`/0 fallback, and the safety invariant
  every payload handed to a caller keeps.
- `cleanup.dfy` (`Cleanup`): the `trim()` and the two regular-expression replacements applied to
  the model's reply.
- `suggest_route.dfy` (`SuggestRoute`): the POST handler. This covers the request check, the
  shape, whitelist and clamp checks on the parsed reply, and the fallbacks.
- `expense_tools.dfy` (`ExpenseTools`): the `getTypicalAmountRange` lookup table.
- `ai_agent.dfy` (`AiAgent`): the client call and its error absorption. It also states the
  end-to-end property over the route.
- `tracker_page.dfy` (`TrackerPage`): the nearby filter and the suggestion card of
  `generateSuggestions`, and the `handleSubmit` guard and prepend.

The model leaves several things outside as inputs:

- The model call and the network are inputs of type `Attempt`. This is the value returned or the
  exception thrown.
- `JSON.parse` and `Number.prototype.toString` are parameters, collected in a `Host` record.
- The distance function, the clock and number parsing of the page are parameters.
- Sending a JSON value over HTTP gives the same value back on the other side.

## Model

| member | source | states |
|---|---|---|
| `Categories.FromName` | lib/constants.ts:2-13 | a string names a category exactly when it is an entry of `CATEGORIES`, and the category found is written as that string |
| `Categories.NameRoundTrip` | lib/constants.ts:2-13 | every category is written as an entry of `CATEGORIES` and reading that entry back gives the same category, so no two categories share a name |
| `Categories.CategoriesShape` | lib/constants.ts:2-13 | `CATEGORIES` has ten pairwise distinct entries, "Other" is the last one and "Microspends" is not among them |
| `SuggestRoute.RouteCategoriesMatchConstants` | app/api/suggest-category/route.ts:7-18 | the route's own category list is identical, element by element, to the one in `lib/constants.ts` |
| `Cleanup.TrimBounds` | app/api/suggest-category/route.ts:105 | `trim()` keeps a contiguous slice of the reply, removes only whitespace before and after it, and removes all of it: a non-empty result starts and ends with a non-whitespace character |
| `Cleanup.DropBeforeOpen` | app/api/suggest-category/route.ts:105 | removing `^[^{]*` leaves a suffix that is empty or starts with `{`, and nothing removed is a `{` |
| `Cleanup.DropAfterClose` | app/api/suggest-category/route.ts:105 | removing `[^}]*$` leaves a prefix that is empty or ends with `}`, and nothing removed is a `}` |
| `Cleanup.Clean` | app/api/suggest-category/route.ts:105 | the cleaned reply is empty or starts with `{` and ends with `}`, and is never longer than the reply |
| `Cleanup.StripsCutBraceSpan` | app/api/suggest-category/route.ts:105 | the two replacements in sequence cut a text down to the span from its first `{` to its last `}` |
| `Cleanup.CleanIsBraceSpan` | app/api/suggest-category/route.ts:105 | the cleaned reply is the span of the raw reply from its first `{` to its last `}`, or empty when no `}` follows the first `{`; trimming first never changes it |
| `Cleanup.CleanEmptyIff` | app/api/suggest-category/route.ts:105 | the cleaned reply is empty exactly when no `}` comes after a `{` in the reply |
| `Cleanup.NoOpenBraceCleansToEmpty` | app/api/suggest-category/route.ts:105 | a reply without any `{` cleans to the empty text |
| `Cleanup.CleanIdempotent` | app/api/suggest-category/route.ts:105 | cleaning a cleaned reply changes nothing |
| `SuggestRoute.CheckBody` | app/api/suggest-category/route.ts:42-63 | a body is answered with 400 exactly unless it is an object with numeric `latitude`, `longitude` and `amount`, a string `datetime` and an array `nearbyExpenses`; a body that is neither an object nor an array gets "Invalid request body", a rejected object or array gets "Missing required fields" |
| `SuggestRoute.RejectionPrecedesModel` | app/api/suggest-category/route.ts:42-63 | a rejected body gets 400 before the model is asked: the response is the same whatever the model would answer |
| `SuggestRoute.Clamp` | app/api/suggest-category/route.ts:124 | the final confidence lies in [0, 95]; it is the model's value inside that range, 0 below it and 95 above it |
| `SuggestRoute.ClampExamples` | app/api/suggest-category/route.ts:124 | -10, 0, 50, 95 and 200 become 0, 0, 50, 95 and 95 |
| `SuggestRoute.Accept` | app/api/suggest-category/route.ts:126-129 | the success payload has the parsed reply's keys, every field other than `confidence` unchanged, and the clamped confidence |
| `Suggestion.Fallback` | app/api/suggest-category/route.ts:135-139 | the fallback payload names `Other`, has confidence 0 and the given reasoning, and keeps the safety invariant |
| `SuggestRoute.ListedIsCategory` | app/api/suggest-category/route.ts:114 | a category that passes the route's whitelist check is one of the `Category` values |
| `SuggestRoute.Interpret` | app/api/suggest-category/route.ts:103-140 | every 200 payload has a listed category, a confidence in [0, 95] and a truthy reasoning; an unparsable reply gives the parse-failure fallback; any category other than `Other` comes from a well-shaped reply with a listed category, returned with only its confidence clamped |
| `SuggestRoute.NoBraceReplyFallsBack` | app/api/suggest-category/route.ts:105-106 | a reply without `{` leaves nothing `JSON.parse` accepts and yields the parse-failure fallback |
| `SuggestRoute.MalformedReplyFallsBack` | app/api/suggest-category/route.ts:109-111 | a parsed reply with a falsy `category`, a non-number `confidence` or a falsy `reasoning` yields the parse-failure fallback |
| `SuggestRoute.UnlistedCategoryFallsBack` | app/api/suggest-category/route.ts:114-120 | a well-shaped reply with an unlisted category that converts to a string yields `Other`, 0 and the reasoning that names the bad value and the list |
| `SuggestRoute.UnshowableCategoryFallsBack` | app/api/suggest-category/route.ts:114-139 | a well-shaped reply whose category cannot be put in the message (converting it throws) is caught and yields the parse-failure fallback |
| `SuggestRoute.ToStringKeyFallsBack` | app/api/suggest-category/route.ts:114-139 | the reply `{"category": {"toString": 1}, ...}` yields the parse-failure fallback, not the unlisted-category one |
| `SuggestRoute.UnlistedReasoningNamesAll` | app/api/suggest-category/route.ts:119 | that reasoning quotes the bad value right after its lead and contains every name of the list |
| `SuggestRoute.ListedCategoryPassesThrough` | app/api/suggest-category/route.ts:123-131 | a well-shaped reply with a listed category is returned with only its confidence clamped |
| `SuggestRoute.Post` | app/api/suggest-category/route.ts:35-148 | the status is 200, 400 or 500; 400 exactly when the parsed body fails the check, with the check's error body; 500 exactly when the body cannot be read or the model call throws, with that exception's details; a 200 body is the interpretation of the model's reply, and is always safe |
| `SuggestRoute.ListedReplyIsRelayed` | app/api/suggest-category/route.ts:103-131 | a valid request whose model reply cleans to a well-shaped object with a listed category is answered 200 with that object, its confidence clamped |
| `ExpenseTools.TableBandsOrdered` | lib/expense-tools.ts:195-207 | every band of the table has `min <= max` |
| `ExpenseTools.TypicalAmountRange` | lib/expense-tools.ts:193-209 | the lookup never fails: a name in the table gets its own band, any other name gets `{0, 100}`, and every result has `min <= max` |
| `ExpenseTools.TableKeys` | lib/expense-tools.ts:195-207 | the table's keys are the ten category names and "Microspends" |
| `ExpenseTools.EveryCategoryHasEntry` | lib/expense-tools.ts:195-207 | every category has an explicit entry, and the lookup returns it |
| `ExpenseTools.MicrospendsIsExtraKey` | lib/expense-tools.ts:205 | "Microspends" has the band `{0, 1}` although it is not a category |
| `ExpenseTools.OtherIsDefault` | lib/expense-tools.ts:206-208 | "Other" and any name outside the table get the same band, `{0, 100}` |
| `ExpenseTools.TableValues` | lib/expense-tools.ts:196-206 | each category gets exactly its listed band, e.g. Groceries `{10, 100}` and Housing `{100, 2000}` |
| `AiAgent.CaughtReasoning` | lib/ai-agent.ts:56 | a caught `Error` reports its message; any other thrown value reports "Failed to get category suggestion"; the reasoning is empty only for an `Error` with an empty message |
| `AiAgent.GetCategorySuggestion` | lib/ai-agent.ts:14-59 | an invalid context gives `Other`/0 "Invalid input data"; a failed request gives `Other`/0 with the error's reasoning; a non-2xx status gives `Other`/0 "API error: status statusText"; a 2xx status gives the decoded payload unchanged |
| `AiAgent.InvalidContextSendsNothing` | lib/ai-agent.ts:17-29 | an invalid context sends no request: the answer is the same whatever the request would produce |
| `AiAgent.AnswerIsDataOrFallback` | lib/ai-agent.ts:15-58 | every path returns a value: either the payload of a 2xx response or a safe `Other`/0 fallback; nothing escapes as an exception |
| `AiAgent.GuardsAgree` | lib/ai-agent.ts:17-22 | the client's input check accepts exactly the bodies the route's check accepts |
| `AiAgent.ClientAnswerIsSafe` | lib/ai-agent.ts:31-50 | composed with the route, whatever the model answers and whatever happens on the network, the caller gets a listed category and a confidence in [0, 95], and a valid context never draws a 400 |
| `TrackerPage.WithinRadius` | app/page.tsx:112 | the filter keeps only entries at most 500 m away and never lengthens the list |
| `TrackerPage.WithinRadiusSelects` | app/page.tsx:112 | the filter keeps exactly the entries within the radius, in their original order |
| `TrackerPage.NearbyIsOrderedSelection` | app/page.tsx:102-112 | the nearby list holds exactly the past expenses whose distance is at most 500, in history order, each with its category, amount, datetime and computed distance |
| `TrackerPage.BoundaryIsNearby` | app/page.tsx:102-112 | the threshold is inclusive: an expense exactly 500 m away is nearby |
| `TrackerPage.CurrentAmount` | app/page.tsx:96 | `Number(amount)`, or 0 when that is NaN or 0, is 0 or the parsed number, and it is positive exactly when the parsed number is |
| `TrackerPage.Context` | app/page.tsx:115-121 | the context the page sends always passes the client's input check and carries the given latitude, longitude, amount, ISO time and nearby list |
| `TrackerPage.GenerateSuggestions` | app/page.tsx:95-136 | at most one suggestion; none exactly when the amount is not positive or the answer is `null`; otherwise its count is the length of the nearby list, its distance 0, and its fields are those of the answer |
| `TrackerPage.NoAmountNoRequest` | app/page.tsx:96-100 | a non-positive amount clears the suggestions and makes no request |
| `TrackerPage.ShownCategoryIsListed` | app/page.tsx:114-131 | with a positive amount, whatever the model and the network do, the page shows one suggestion whose category is in `CATEGORIES` and whose confidence lies in [0, 95] |
| `TrackerPage.LabelOf` | app/page.tsx:177 | an empty place label is dropped, any other label is kept |
| `TrackerPage.HandleSubmit` | app/page.tsx:167-184 | with no amount, no category or no position nothing changes; otherwise the new expense is prepended with the form's values and an id made of the clock value's decimal digits with no leading zero, the earlier expenses stay unchanged and in order, and the form is cleared |
| `TrackerPage.SubmitIsNoOpIff` | app/page.tsx:168 | submit changes nothing exactly when the amount is empty, no category is selected or there is no position |
| `Js.Show` | app/api/suggest-category/route.ts:119 | a template literal gives a string unchanged, and throws exactly when the value is an object with its own `toString` key or an array holding such a value at any depth |
| `Js.DecimalRoundTrip` | app/page.tsx:171 | the digits `toString` writes for a whole number read back as that number, so an expense id gives back the clock value it was made from |
| `Js.JoinContains` | app/api/suggest-category/route.ts:119 | every entry of a list appears in the list joined with a separator |

## Left out

- The haversine `calculateDistance` (app/page.tsx:33-42) uses trigonometry on floating point. The
  distance is a function parameter.
- React machinery is not modelled: hooks, the debounce timer, the effect that calls
  `generateSuggestions`, `localStorage`, the simulated position and rendering.
- The `generateText` call and its multi-step tool loop are not modelled. The model's reply is an
  input, and so is the exception the call may throw.
- The prompt template (app/api/suggest-category/route.ts:65-90) is not modelled.
- `JSON.parse`, `JSON.stringify`, `fetch`, `NextResponse` and `console` are not modelled:
  - Parsing is a `Host` parameter.
  - Serialising a value across HTTP is taken to give the same value back.
  - Logging is dropped.
- Numbers are exact reals. NaN, infinities and the number-to-string algorithm are not modelled;
  the latter is a `Host` parameter.
- AiAgent.ClientAnswerIsSafe: the promise that a valid context never draws a 400 holds only for
  finite numbers. A typed amount "Infinity" gives `Number("Infinity") || 0 == Infinity`
  (app/page.tsx:96). That passes the page's positivity check (app/page.tsx:97) and the client's
  number check (lib/ai-agent.ts:20). But `JSON.stringify` sends it as `null`, so the route
  answers 400. Serialisation is taken to give the value back, so the model does not see this.
- Js.Show: JSON values cannot hold functions, so a callable own `toString` or `valueOf` never
  arises. Only a non-callable own `toString` is modelled, and it always throws.
- TrackerPage.HandleSubmit: `parseFloat` is a parameter returning a real, so an amount text that
  parses to NaN is not modelled.
- `getDayOfWeek` (lib/expense-tools.ts:212-223) is not modelled: it depends on `Date` parsing, the
  locale and the host's time zone.
- The commented-out tools in lib/expense-tools.ts are dead code and are not modelled.
- ExpenseTools.TypicalAmountRange: the table is a finite map. A name such as "constructor" reads an
  inherited property of `ranges` in JavaScript, and the model does not reproduce that.
- SuggestRoute.Accept: objects are maps, so the order of keys in the spread `{...suggestion,
  confidence}` is not modelled.
- Property reads see only own keys of objects. No key the code reads is an own property of an array
  or a string.
- `TrackerPage.GenerateSuggestions` covers one call with one request outcome. Overlapping calls, and
  the order in which their answers arrive, are not modelled.

The model follows the code where its documentation differs:

- A request body that is not valid JSON makes `request.json()` throw. The outer catch answers it
  with 500, not 400. Only a parsed body that fails the checks gets 400.
- An empty cleaned reply and an unparsable one both give the same reasoning, "Failed to parse AI
  response". They cannot be told apart.
- An exception from the model call (app/api/suggest-category/route.ts:93-100) is not caught by
  the reply's own handler. The outer catch (app/api/suggest-category/route.ts:141-147) answers it
  with 500 and an error body. It does not resolve to the fallback suggestion.
