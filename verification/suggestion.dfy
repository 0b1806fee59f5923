/**
 The suggestion payload `{category, confidence, reasoning}` as it travels from
 the route to the client, its safe fallback, and the invariant every payload a
 caller receives must keep.
 */
module Suggestion {
  import opened Js
  import opened Categories

  /** Upper bound of a confidence: never 100, to signal inherent uncertainty. */
  const MaxConfidence: real := 95.0

  /** `{category: 'Other', confidence: 0, reasoning}`. */
  function Fallback(reasoning: string): (r: Json)
    ensures IsSafe(r)
    ensures CategoryOf(r) == Some(Other)
    ensures Prop(r, "confidence") == Some(JNumber(0.0))
    ensures Prop(r, "reasoning") == Some(JString(reasoning))
  {
    NameRoundTrip(Other);
    JObject(map[
      "category" := JString("Other"),
      "confidence" := JNumber(0.0),
      "reasoning" := JString(reasoning)
    ])
  }

  /** The category a payload names, when it names one of `CATEGORIES`. */
  function CategoryOf(v: Json): (r: Option<Category>)
    ensures r.Some? ==> Prop(v, "category") == Some(JString(Name(r.value)))
  {
    match Prop(v, "category")
    case Some(JString(s)) => FromName(s)
    case _ => None
  }

  /** The payload's `category` is one of `CATEGORIES`. */
  predicate HasListedCategory(v: Json) {
    CategoryOf(v).Some?
  }

  /** The payload's `confidence` is a number in [0, 95]. */
  predicate HasBoundedConfidence(v: Json) {
    match Prop(v, "confidence")
    case Some(JNumber(n)) => 0.0 <= n <= MaxConfidence
    case _ => false
  }

  /** What every payload handed to a caller satisfies: a listed category, a
      bounded confidence and some reasoning. */
  predicate IsSafe(v: Json) {
    HasListedCategory(v) && HasBoundedConfidence(v) && Prop(v, "reasoning").Some?
  }
}
