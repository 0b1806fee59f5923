/**
 The pure parts of the expense-tracker page (app/page.tsx): the list of past
 expenses near the current position that goes with a suggestion request, the
 suggestion shown for the answer, and the submit handler that records a new
 expense. React state is passed in and returned as values; the distance
 function, the clock and number parsing are parameters.
 */
module TrackerPage {
  import opened Js
  import opened Categories
  import opened Suggestion
  import AiAgent

  /** A recorded expense. */
  datatype Expense = Expense(
    id: string,
    amount: real,
    category: string,
    latitude: real,
    longitude: real,
    datetime: string,
    location: Option<string>
  )

  /** A past expense as sent with a suggestion request: its distance, in
      metres, from the current position. */
  datatype NearbyExpense = NearbyExpense(category: string, amount: real, distance: real, datetime: string)

  /** The suggestion card. Its category, confidence and reasoning are read off
      whatever the client returned, so each may be `undefined` (`None`). */
  datatype LocationSuggestion = LocationSuggestion(
    category: Option<Json>,
    confidence: Option<Json>,
    distance: real,
    count: nat,
    reasoning: Option<Json>
  )

  /** `calculateDistance(lat1, lon1, lat2, lon2)`, in metres. */
  type Distance = (real, real, real, real) -> real

  /** Expenses at most this many metres away count as nearby. */
  const RadiusThreshold: real := 500.0

  /** The `map` step: a past expense with its distance from `(lat, lng)`. */
  function Annotate(distance: Distance, lat: real, lng: real, e: Expense): NearbyExpense {
    NearbyExpense(e.category, e.amount, distance(lat, lng, e.latitude, e.longitude), e.datetime)
  }

  /** `expenses.map(...)`. */
  function Annotated(distance: Distance, lat: real, lng: real, history: seq<Expense>): (r: seq<NearbyExpense>)
    ensures |r| == |history|
  {
    seq(|history|, i requires 0 <= i < |history| => Annotate(distance, lat, lng, history[i]))
  }

  /** `.filter((expense) => expense.distance <= RADIUS_THRESHOLD)`. */
  function WithinRadius(xs: seq<NearbyExpense>): (r: seq<NearbyExpense>)
    ensures |r| <= |xs|
    ensures forall k :: 0 <= k < |r| ==> r[k].distance <= RadiusThreshold
  {
    if xs == [] then []
    else
      var kept := WithinRadius(xs[..|xs| - 1]);
      var last := xs[|xs| - 1];
      if last.distance <= RadiusThreshold then kept + [last] else kept
  }

  /** The nearby list of `generateSuggestions`. */
  function Nearby(distance: Distance, lat: real, lng: real, history: seq<Expense>): seq<NearbyExpense> {
    WithinRadius(Annotated(distance, lat, lng, history))
  }

  /** `r` is the sub-list of `xs` at the increasing positions `idx`, which are
      exactly the positions of entries within the radius. */
  predicate Selection(xs: seq<NearbyExpense>, r: seq<NearbyExpense>, idx: seq<nat>) {
    && |idx| == |r|
    && (forall k :: 0 <= k < |idx| ==> idx[k] < |xs| && r[k] == xs[idx[k]])
    && (forall k, l :: 0 <= k < l < |idx| ==> idx[k] < idx[l])
    && (forall i :: 0 <= i < |xs| ==> (xs[i].distance <= RadiusThreshold <==> i in idx))
  }

  /** A selection extends by a last entry within the radius. */
  lemma SelectionKeepsLast(xs: seq<NearbyExpense>, r: seq<NearbyExpense>, idx: seq<nat>)
    requires |xs| > 0 && xs[|xs| - 1].distance <= RadiusThreshold
    requires Selection(xs[..|xs| - 1], r, idx)
    ensures Selection(xs, r + [xs[|xs| - 1]], idx + [|xs| - 1])
  {
    var n := |xs| - 1;
    forall i | 0 <= i < n ensures xs[i] == xs[..n][i] {
    }
  }

  /** A selection is unchanged by a last entry outside the radius. */
  lemma SelectionDropsLast(xs: seq<NearbyExpense>, r: seq<NearbyExpense>, idx: seq<nat>)
    requires |xs| > 0 && xs[|xs| - 1].distance > RadiusThreshold
    requires Selection(xs[..|xs| - 1], r, idx)
    ensures Selection(xs, r, idx)
  {
    var n := |xs| - 1;
    forall i | 0 <= i < n ensures xs[i] == xs[..n][i] {
    }
    assert n !in idx;
  }

  /** The filter keeps exactly the entries within the radius, in their order:
      `idx` lists, increasing, the positions of `xs` it keeps. */
  lemma {:induction false} WithinRadiusSelects(xs: seq<NearbyExpense>) returns (idx: seq<nat>)
    ensures Selection(xs, WithinRadius(xs), idx)
    decreases |xs|
  {
    if xs == [] {
      idx := [];
    } else {
      var n := |xs| - 1;
      var prior := WithinRadiusSelects(xs[..n]);
      if xs[n].distance <= RadiusThreshold {
        SelectionKeepsLast(xs, WithinRadius(xs[..n]), prior);
        idx := prior + [n];
      } else {
        SelectionDropsLast(xs, WithinRadius(xs[..n]), prior);
        idx := prior;
      }
    }
  }

  /** The nearby list holds exactly the past expenses at most 500 m away, in
      the order of the history, each with its category, amount and datetime
      and its computed distance. */
  lemma NearbyIsOrderedSelection(distance: Distance, lat: real, lng: real, history: seq<Expense>)
    returns (idx: seq<nat>)
    ensures var r := Nearby(distance, lat, lng, history);
      && |idx| == |r|
      && (forall k, l :: 0 <= k < l < |idx| ==> idx[k] < idx[l])
      && (forall k :: 0 <= k < |idx| ==>
            && idx[k] < |history|
            && var e := history[idx[k]];
               r[k] == NearbyExpense(e.category, e.amount, distance(lat, lng, e.latitude, e.longitude), e.datetime))
      && (forall i :: 0 <= i < |history| ==>
            (distance(lat, lng, history[i].latitude, history[i].longitude) <= RadiusThreshold <==> i in idx))
  {
    var xs := Annotated(distance, lat, lng, history);
    idx := WithinRadiusSelects(xs);
    forall i | 0 <= i < |history|
      ensures (distance(lat, lng, history[i].latitude, history[i].longitude) <= RadiusThreshold <==> i in idx)
    {
      assert xs[i].distance == distance(lat, lng, history[i].latitude, history[i].longitude);
    }
  }

  /** The threshold is inclusive: an expense exactly 500 m away is nearby. */
  lemma BoundaryIsNearby(distance: Distance, lat: real, lng: real, e: Expense)
    requires distance(lat, lng, e.latitude, e.longitude) == RadiusThreshold
    ensures Nearby(distance, lat, lng, [e]) == [NearbyExpense(e.category, e.amount, RadiusThreshold, e.datetime)]
  {
    assert Annotated(distance, lat, lng, [e])[..0] == [];
  }

  /** `Number(debouncedAmount) || 0`, given what `Number` makes of the text
      (`None` for NaN): NaN and 0 both become 0. */
  function CurrentAmount(number: Option<real>): (r: real)
    ensures r == 0.0 || number == Some(r)
    ensures r > 0.0 <==> number.Some? && number.value > 0.0
  {
    if number.Some? && number.value != 0.0 then number.value else 0.0
  }

  /** A nearby entry as JSON. */
  function NearbyJson(n: NearbyExpense): Json {
    JObject(map[
      "category" := JString(n.category),
      "amount" := JNumber(n.amount),
      "distance" := JNumber(n.distance),
      "datetime" := JString(n.datetime)
    ])
  }

  /** The location context `generateSuggestions` passes to the client. It
      always passes the client's input check. */
  function Context(lat: real, lng: real, amount: real, nearby: seq<NearbyExpense>, now: string): (c: Json)
    ensures AiAgent.ValidContext(c)
    ensures Prop(c, "latitude") == Some(JNumber(lat)) && Prop(c, "longitude") == Some(JNumber(lng))
    ensures Prop(c, "amount") == Some(JNumber(amount)) && Prop(c, "datetime") == Some(JString(now))
    ensures Prop(c, "nearbyExpenses") == Some(JArray(seq(|nearby|, i requires 0 <= i < |nearby| => NearbyJson(nearby[i]))))
  {
    JObject(map[
      "latitude" := JNumber(lat),
      "longitude" := JNumber(lng),
      "amount" := JNumber(amount),
      "nearbyExpenses" := JArray(seq(|nearby|, i requires 0 <= i < |nearby| => NearbyJson(nearby[i]))),
      "datetime" := JString(now)
    ])
  }

  /** The request `generateSuggestions` makes, as the client sends it. */
  function RequestContext(number: Option<real>, lat: real, lng: real, history: seq<Expense>, distance: Distance, now: string): Json {
    Context(lat, lng, CurrentAmount(number), Nearby(distance, lat, lng, history), now)
  }

  /** `generateSuggestions(lat, lng)`: the new suggestion list. `number` is
      `Number(debouncedAmount)`, `now` the ISO time of the call and `fetch`
      the outcome of the request the client makes. Reading `category` off a
      `null` answer throws, and the catch block clears the list. */
  function GenerateSuggestions(number: Option<real>, lat: real, lng: real, history: seq<Expense>,
                               distance: Distance, now: string, fetch: Attempt<AiAgent.HttpResponse>): (r: seq<LocationSuggestion>)
    ensures |r| <= 1
    ensures r == [] <==>
      || CurrentAmount(number) <= 0.0
      || AiAgent.GetCategorySuggestion(RequestContext(number, lat, lng, history, distance, now), fetch).JNull?
    ensures r != [] ==>
      var answer := AiAgent.GetCategorySuggestion(RequestContext(number, lat, lng, history, distance, now), fetch);
      && r[0].count == |Nearby(distance, lat, lng, history)|
      && r[0].distance == 0.0
      && r[0].category == Prop(answer, "category")
      && r[0].confidence == Prop(answer, "confidence")
      && r[0].reasoning == Prop(answer, "reasoning")
  {
    var amount := CurrentAmount(number);
    if amount <= 0.0 then []
    else
      var nearby := Nearby(distance, lat, lng, history);
      var answer := AiAgent.GetCategorySuggestion(Context(lat, lng, amount, nearby, now), fetch);
      if answer.JNull? then []
      else [LocationSuggestion(Prop(answer, "category"), Prop(answer, "confidence"), 0.0, |nearby|, Prop(answer, "reasoning"))]
  }

  /** A non-positive amount makes no request: the list is cleared whatever the
      request would have produced. */
  lemma NoAmountNoRequest(number: Option<real>, lat: real, lng: real, history: seq<Expense>,
                          distance: Distance, now: string, f1: Attempt<AiAgent.HttpResponse>, f2: Attempt<AiAgent.HttpResponse>)
    requires CurrentAmount(number) <= 0.0
    ensures GenerateSuggestions(number, lat, lng, history, distance, now, f1) == []
    ensures GenerateSuggestions(number, lat, lng, history, distance, now, f1) ==
            GenerateSuggestions(number, lat, lng, history, distance, now, f2)
  {
  }

  /** End to end: with a positive amount, whatever the model answers and
      whatever happens on the network, the page shows one suggestion whose
      category is one of `CATEGORIES` and whose confidence lies in [0, 95]. */
  lemma ShownCategoryIsListed(host: Host, number: Option<real>, lat: real, lng: real, history: seq<Expense>,
                              distance: Distance, now: string, generate: Attempt<string>, link: Attempt<string>)
    requires CurrentAmount(number) > 0.0
    ensures var context := RequestContext(number, lat, lng, history, distance, now);
      var r := GenerateSuggestions(number, lat, lng, history, distance, now,
                                   AiAgent.Exchange(host, context, generate, link));
      && |r| == 1
      && r[0].category.Some? && r[0].category.value.JString? && r[0].category.value.s in CATEGORIES
      && r[0].confidence.Some? && r[0].confidence.value.JNumber?
      && 0.0 <= r[0].confidence.value.n <= MaxConfidence
  {
    var context := RequestContext(number, lat, lng, history, distance, now);
    var fetch := AiAgent.Exchange(host, context, generate, link);
    AiAgent.ClientAnswerIsSafe(host, context, generate, link);
    var answer := AiAgent.GetCategorySuggestion(context, fetch);
    NameRoundTrip(CategoryOf(answer).value);
  }

  /** A known position; `labelText` is the optional place name (`label`). */
  datatype Place = Place(lat: real, lng: real, labelText: Option<string>)

  /** The page state `handleSubmit` reads and writes. */
  datatype Form = Form(
    amount: string,
    selectedCategory: string,
    currentLocation: Option<Place>,
    expenses: seq<Expense>,
    suggestions: seq<LocationSuggestion>
  )

  /** `currentLocation.label || undefined`: an empty label is dropped. */
  function LabelOf(labelText: Option<string>): (r: Option<string>)
    ensures r.Some? <==> labelText.Some? && labelText.value != ""
    ensures r.Some? ==> r == labelText
  {
    if labelText.Some? && labelText.value != "" then labelText else None
  }

  /** Submit needs an amount, a category and a position. */
  predicate CanSubmit(f: Form) {
    f.amount != "" && f.selectedCategory != "" && f.currentLocation.Some?
  }

  /** `handleSubmit`. `nowMillis` is `Date.now()`, `now` the ISO time and
      `parseFloat` stands for `Number.parseFloat`. */
  function HandleSubmit(f: Form, nowMillis: nat, now: string, parseFloat: string -> real): (g: Form)
    ensures !CanSubmit(f) ==> g == f
    ensures CanSubmit(f) ==>
      && |g.expenses| == |f.expenses| + 1
      && g.expenses[1..] == f.expenses
      && g.amount == "" && g.selectedCategory == "" && g.suggestions == []
      && g.currentLocation == f.currentLocation
    ensures CanSubmit(f) ==>
      var e := g.expenses[0];
      var place := f.currentLocation.value;
      && e.amount == parseFloat(f.amount)
      && e.category == f.selectedCategory
      && e.latitude == place.lat && e.longitude == place.lng
      && e.datetime == now
      && e.location == LabelOf(place.labelText)
      && |e.id| > 0 && (e.id[0] == '0' ==> |e.id| == 1)
      && (forall k :: 0 <= k < |e.id| ==> '0' <= e.id[k] <= '9')
      && DecimalValue(e.id) == nowMillis
  {
    if !CanSubmit(f) then f
    else
      var place := f.currentLocation.value;
      var e := Expense(Decimal(nowMillis), parseFloat(f.amount), f.selectedCategory,
                       place.lat, place.lng, now, LabelOf(place.labelText));
      DecimalRoundTrip(nowMillis);
      f.(amount := "", selectedCategory := "", expenses := [e] + f.expenses, suggestions := [])
  }

  /** Submit changes nothing exactly when the amount is empty, no category is
      selected or there is no position. */
  lemma SubmitIsNoOpIff(f: Form, nowMillis: nat, now: string, parseFloat: string -> real)
    ensures HandleSubmit(f, nowMillis, now, parseFloat) == f <==> !CanSubmit(f)
  {
    if CanSubmit(f) {
      assert |HandleSubmit(f, nowMillis, now, parseFloat).expenses| != |f.expenses|;
    }
  }
}
