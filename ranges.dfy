/** The range filters shared by the record and budget lists: a lower and an
    upper bound, either of which may be left empty. Amounts are parsed
    numbers (`None` for an empty field); dates are ISO strings (`""` for an
    empty field) compared as strings. */
module Ranges {
  import opened Wrappers
  import opened Strings

  /** The upper amount bound a filter sends: nothing without an upper bound;
      with a lower bound as well, the larger of the two. */
  function UpperAmount(lower: Option<int>, upper: Option<int>): (r: Option<int>)
    ensures r.Some? <==> upper.Some?
    ensures lower.None? ==> r == upper
    ensures r.Some? && lower.Some? ==>
              r.value >= lower.value && r.value >= upper.value
              && (r.value == lower.value || r.value == upper.value)
  {
    if upper.None? then None
    else if lower.Some? && upper.value < lower.value then lower
    else upper
  }

  /** The same rule on dates: an upper date before the lower one is replaced
      by the lower one. */
  function UpperDate(lower: string, upper: string): (r: string)
    ensures r == "" <==> upper == ""
    ensures lower == "" ==> r == upper
    ensures lower != "" && upper != "" ==>
              !Less(r, lower) && !Less(r, upper) && (r == lower || r == upper)
  {
    LessIrreflexive(lower);
    LessIrreflexive(upper);
    LessAsymmetric(upper, lower);
    if upper == "" then ""
    else if lower != "" && Less(upper, lower) then lower
    else upper
  }

  /** The upper-amount `onBlur`: the field is reset to the lower value when
      both parse and the upper one is smaller; otherwise it is kept. */
  function BlurAmount(lower: Option<int>, upper: Option<int>): (r: Option<int>)
    ensures r == upper || (lower.Some? && upper.Some? && upper.value < lower.value && r == lower)
    ensures lower.Some? && r.Some? ==> r.value >= lower.value
  {
    if lower.Some? && upper.Some? && upper.value < lower.value then lower else upper
  }

  /** The upper-date `onBlur`, on the same rule. */
  function BlurDate(lower: string, upper: string): (r: string)
    ensures r == upper || (lower != "" && upper != "" && Less(upper, lower) && r == lower)
    ensures lower != "" && r != "" ==> !Less(r, lower)
  {
    LessIrreflexive(lower);
    if lower != "" && upper != "" && Less(upper, lower) then lower else upper
  }

  /** Leaving the field changes nothing that a search would send. */
  lemma BlurAmountKeepsFilter(lower: Option<int>, upper: Option<int>)
    ensures UpperAmount(lower, BlurAmount(lower, upper)) == UpperAmount(lower, upper)
  {
  }

  lemma BlurDateKeepsFilter(lower: string, upper: string)
    ensures UpperDate(lower, BlurDate(lower, upper)) == UpperDate(lower, upper)
  {
    LessIrreflexive(lower);
  }

  /** Leaving the field twice is the same as leaving it once. */
  lemma BlurAmountIdempotent(lower: Option<int>, upper: Option<int>)
    ensures BlurAmount(lower, BlurAmount(lower, upper)) == BlurAmount(lower, upper)
  {
  }

  lemma BlurDateIdempotent(lower: string, upper: string)
    ensures BlurDate(lower, BlurDate(lower, upper)) == BlurDate(lower, upper)
  {
    LessIrreflexive(lower);
  }
}
