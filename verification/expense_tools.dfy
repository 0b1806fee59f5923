/**
 The `getTypicalAmountRange` tool of lib/expense-tools.ts: a fixed table from
 category names to typical amount bands, with a default band for every other
 name. The lookup is total.
 */
module ExpenseTools {
  import opened Categories

  /** `{min, max}`: a typical amount band, in whole currency units. */
  datatype AmountRange = AmountRange(min: nat, max: nat)

  /** The tool's table. Besides the ten categories it holds "Microspends". */
  const TypicalRanges: map<string, AmountRange> := map[
    "Groceries" := AmountRange(10, 100),
    "Restaurants" := AmountRange(15, 80),
    "Transportation" := AmountRange(2, 50),
    "Entertainment" := AmountRange(5, 100),
    "Shopping" := AmountRange(10, 500),
    "Health" := AmountRange(5, 200),
    "Education" := AmountRange(20, 300),
    "Housing" := AmountRange(100, 2000),
    "Utilities" := AmountRange(20, 300),
    "Microspends" := AmountRange(0, 1),
    "Other" := AmountRange(0, 100)
  ]

  /** The band for a name the table does not hold. */
  const DefaultRange: AmountRange := AmountRange(0, 100)

  /** Every band of the table is ordered. */
  lemma TableBandsOrdered()
    ensures forall k :: k in TypicalRanges ==> TypicalRanges[k].min <= TypicalRanges[k].max
  {
  }

  /** `ranges[category] || { min: 0, max: 100 }`: a table entry is an object,
      hence truthy, so the default only replaces a missing entry. */
  function TypicalAmountRange(category: string): (r: AmountRange)
    ensures r.min <= r.max
    ensures category in TypicalRanges ==> r == TypicalRanges[category]
    ensures category !in TypicalRanges ==> r == DefaultRange
  {
    TableBandsOrdered();
    if category in TypicalRanges then TypicalRanges[category] else DefaultRange
  }

  /** The table's keys are the category names and "Microspends". */
  lemma TableKeys()
    ensures TypicalRanges.Keys == (set s | s in CATEGORIES) + {"Microspends"}
  {
  }

  /** Every category has its own entry. */
  lemma EveryCategoryHasEntry(c: Category)
    ensures Name(c) in TypicalRanges
    ensures TypicalAmountRange(Name(c)) == TypicalRanges[Name(c)]
  {
    NameRoundTrip(c);
    TableKeys();
  }

  /** "Microspends" has an entry although it is not a category. */
  lemma MicrospendsIsExtraKey()
    ensures "Microspends" in TypicalRanges && "Microspends" !in CATEGORIES
    ensures TypicalAmountRange("Microspends") == AmountRange(0, 1)
  {
    CategoriesShape();
  }

  /** "Other" gets the same band as a name the table does not hold. */
  lemma OtherIsDefault(unknown: string)
    requires unknown !in TypicalRanges
    ensures TypicalAmountRange(Name(Other)) == TypicalAmountRange(unknown) == DefaultRange
  {
    OtherName();
  }

  /** The bands of the table, name by name. */
  lemma TableValues()
    ensures TypicalAmountRange("Groceries") == AmountRange(10, 100)
    ensures TypicalAmountRange("Restaurants") == AmountRange(15, 80)
    ensures TypicalAmountRange("Transportation") == AmountRange(2, 50)
    ensures TypicalAmountRange("Entertainment") == AmountRange(5, 100)
    ensures TypicalAmountRange("Shopping") == AmountRange(10, 500)
    ensures TypicalAmountRange("Health") == AmountRange(5, 200)
    ensures TypicalAmountRange("Education") == AmountRange(20, 300)
    ensures TypicalAmountRange("Housing") == AmountRange(100, 2000)
    ensures TypicalAmountRange("Utilities") == AmountRange(20, 300)
    ensures TypicalAmountRange("Other") == AmountRange(0, 100)
  {
  }
}
