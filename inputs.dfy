/** The two input handlers of the betting form. Each takes the result of
    `parseInt` on the field's text, which is either an integer or NaN. */
module Inputs {
  import opened Payout

  datatype Parsed = NaN | Num(value: int)

  /** Largest number of booms the form accepts. */
  const MaxBooms: int := 15

  /** `parseInt(...) || 1`: NaN and 0 are falsy and become 1. */
  function OrOne(p: Parsed): (v: int)
    ensures v != 0
    ensures p.Num? && p.value != 0 ==> v == p.value
    ensures !(p.Num? && p.value != 0) ==> v == 1
  {
    match p
    case NaN => 1
    case Num(n) => if n == 0 then 1 else n
  }

  /** The bet field: `Math.max(1, parseInt(value) || 1)`. A bet is never below
      1; a typed positive number is kept as it is, everything else becomes 1. */
  function ClampBet(p: Parsed): (bet: int)
    ensures bet >= 1
    ensures p.Num? && p.value >= 1 ==> bet == p.value
    ensures !(p.Num? && p.value >= 1) ==> bet == 1
  {
    Max(1, OrOne(p))
  }

  /** The boom-count field: `Math.max(1, Math.min(15, parseInt(value) || 1))`.
      The count always lies in [1, 15]; a typed number in that range is kept,
      a larger one becomes 15, and everything else becomes 1. */
  function ClampBooms(p: Parsed): (booms: int)
    ensures 1 <= booms <= MaxBooms
    ensures p.Num? && 1 <= p.value <= MaxBooms ==> booms == p.value
    ensures p.Num? && p.value > MaxBooms ==> booms == MaxBooms
    ensures !(p.Num? && p.value >= 1) ==> booms == 1
  {
    Max(1, Min(MaxBooms, OrOne(p)))
  }
}
