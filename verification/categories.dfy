/**
 The closed expense-category vocabulary of lib/constants.ts: ten names in a fixed
 order, the last of which, "Other", is the universal fallback.
 */
module Categories {
  import opened Js

  datatype Category =
    | Groceries
    | Restaurants
    | Transportation
    | Entertainment
    | Shopping
    | Health
    | Education
    | Housing
    | Utilities
    | Other

  /** `CATEGORIES` as exported by lib/constants.ts. */
  const CATEGORIES: seq<string> := [
    "Groceries",
    "Restaurants",
    "Transportation",
    "Entertainment",
    "Shopping",
    "Health",
    "Education",
    "Housing",
    "Utilities",
    "Other"
  ]

  /** Position of a category in `CATEGORIES`. */
  function Ordinal(c: Category): (i: nat)
    ensures i < |CATEGORIES|
  {
    match c
    case Groceries => 0
    case Restaurants => 1
    case Transportation => 2
    case Entertainment => 3
    case Shopping => 4
    case Health => 5
    case Education => 6
    case Housing => 7
    case Utilities => 8
    case Other => 9
  }

  /** The category at a position of `CATEGORIES`. */
  function AtOrdinal(i: nat): (c: Category)
    requires i < |CATEGORIES|
    ensures Ordinal(c) == i
  {
    [Groceries, Restaurants, Transportation, Entertainment, Shopping,
     Health, Education, Housing, Utilities, Other][i]
  }

  /** The string a category is written as. */
  function Name(c: Category): string {
    CATEGORIES[Ordinal(c)]
  }

  /** Position of `s` in `list` at or after `from`, if it is there. */
  function IndexFrom(list: seq<string>, s: string, from: nat): (r: Option<nat>)
    requires from <= |list|
    ensures r.Some? ==> from <= r.value < |list| && list[r.value] == s
    ensures r.None? ==> forall k :: from <= k < |list| ==> list[k] != s
    decreases |list| - from
  {
    if from == |list| then None
    else if list[from] == s then Some(from)
    else IndexFrom(list, s, from + 1)
  }

  /** The category a string names, if it is one of `CATEGORIES`. */
  function FromName(s: string): (r: Option<Category>)
    ensures r.Some? <==> s in CATEGORIES
    ensures r.Some? ==> Name(r.value) == s
  {
    match IndexFrom(CATEGORIES, s, 0)
    case None => None
    case Some(i) => Some(AtOrdinal(i))
  }

  /** Writing a category and reading it back gives the category; so no two
      categories share a name. */
  lemma NameRoundTrip(c: Category)
    ensures Name(c) in CATEGORIES
    ensures FromName(Name(c)) == Some(c)
  {
    CategoriesShape();
    var r := FromName(Name(c));
    assert Name(r.value) == Name(c);
    assert Ordinal(r.value) == Ordinal(c);
  }

  /** Shape of the exported list: ten pairwise distinct names ending in
      "Other", and no "Microspends" among them. */
  lemma CategoriesShape()
    ensures |CATEGORIES| == 10
    ensures forall i, j :: 0 <= i < j < |CATEGORIES| ==> CATEGORIES[i] != CATEGORIES[j]
    ensures "Other" in CATEGORIES && CATEGORIES[|CATEGORIES| - 1] == "Other"
    ensures "Microspends" !in CATEGORIES
  {
  }

  /** "Other" is written "Other". */
  lemma OtherName()
    ensures Name(Other) == "Other"
  {
  }
}
