/** The stake a prediction's creator puts up against a bet, shared by both
  * servicers: the bettor's stake scaled by the odds at the near end of the
  * creator's certainty range, truncated to whole cents. */
module Betting {
  import opened Wrappers
  import opened Messages
  import opened Text

  /** The refusal of a bet that would take the creator's stake on one side
    * past the prediction's maximum; both servicers word it alike. */
  function ToleranceMessage(existing: int, creatorStake: int, maximum: nat): (m: string)
    ensures |m| > |TOLERANCE_PREFIX| && m[..|TOLERANCE_PREFIX|] == TOLERANCE_PREFIX
  {
    var m := TOLERANCE_PREFIX + IntToDecimal(existing) + " existing + " + IntToDecimal(creatorStake)
      + " new stake > " + NatToDecimal(maximum) + " max)";
    assert m[..|TOLERANCE_PREFIX|] == TOLERANCE_PREFIX;
    m
  }

  const TOLERANCE_PREFIX := "bet would exceed creator tolerance ("

  /** How both servicers begin the refusal of a bet past the bettor's own
    * legal maximum. */
  const BETTOR_LIMIT_PREFIX := "your existing stake of ~$"

  /** Python's `int()` on a float: truncation toward zero. */
  function Truncate(x: real): (n: int)
    ensures x >= 0.0 ==> n >= 0 && n as real <= x < n as real + 1.0
    ensures x < 0.0 ==> n <= 0 && n as real - 1.0 < x <= n as real
  {
    if x >= 0.0 then x.Floor else -((-x).Floor)
  }

  /** The creator's counter-stake for a bet of `bettorStakeCents`: against a
    * skeptic at odds low/(1-low), against a believer at odds (1-high)/high.
    * None where the formula divides by zero (ZeroDivisionError). */
  function CreatorStakeCents(bettorStakeCents: nat, bettorIsASkeptic: bool, c: CertaintyRange): (r: Option<int>)
    ensures r.None? <==> (if bettorIsASkeptic then c.low == 1.0 else c.high == 0.0)
  {
    if bettorIsASkeptic then
      if c.low == 1.0 then None
      else Some(ScaledQuotient(bettorStakeCents, c.low, 1.0 - c.low))
    else
      if c.high == 0.0 then None
      else Some(ScaledQuotient(bettorStakeCents, 1.0 - c.high, c.high))
  }

  /** `int(p / k)`. */
  function TruncatedQuotient(p: real, k: real): int
    requires k != 0.0
  {
    Truncate(p / k)
  }

  /** `s` is the largest whole number with s * k <= p. */
  predicate WholeQuotient(s: int, p: real, k: real) {
    s >= 0 && s as real * k <= p < (s as real + 1.0) * k
  }

  /** Truncating `p / k` gives the whole quotient of `p` by `k`. */
  lemma TruncatedQuotientBounds(p: real, k: real)
    requires p >= 0.0 && k > 0.0
    ensures WholeQuotient(TruncatedQuotient(p, k), p, k)
  {
    var x := p / k;
    assert x >= 0.0 && x * k == p;
    var s := Truncate(x);
    assert s as real <= x < s as real + 1.0;
    assert s as real * k <= x * k;
    assert x * k < (s as real + 1.0) * k;
  }

  /** `int(b * num / den)`: a stake of `b` cents scaled by the odds num:den. */
  function ScaledQuotient(b: nat, num: real, den: real): int
    requires den != 0.0
  {
    TruncatedQuotient(b as real * num, den)
  }

  lemma ScaledQuotientBounds(b: nat, num: real, den: real)
    requires num >= 0.0 && den > 0.0
    ensures WholeQuotient(ScaledQuotient(b, num, den), b as real * num, den)
  {
    assert ScaledQuotient(b, num, den) == TruncatedQuotient(b as real * num, den);
    assert b as real * num >= 0.0;
    TruncatedQuotientBounds(b as real * num, den);
  }

  /** Against a skeptic, the creator stakes the largest whole number of cents
    * that is not worth more than the bet at the creator's lowest stated
    * probability: c * (1 - low) <= b * low < (c + 1) * (1 - low). */
  lemma SkepticCounterStakeAtCreatorOdds(b: nat, c: CertaintyRange)
    requires 0.0 <= c.low < 1.0
    ensures CreatorStakeCents(b, true, c).Some?
    ensures WholeQuotient(CreatorStakeCents(b, true, c).value, b as real * c.low, 1.0 - c.low)
  {
    ScaledQuotientBounds(b, c.low, 1.0 - c.low);
  }

  /** Against a believer, symmetrically at the creator's highest stated
    * probability: c * high <= b * (1 - high) < (c + 1) * high. */
  lemma BelieverCounterStakeAtCreatorOdds(b: nat, c: CertaintyRange)
    requires 0.0 < c.high <= 1.0
    ensures CreatorStakeCents(b, false, c).Some?
    ensures WholeQuotient(CreatorStakeCents(b, false, c).value, b as real * (1.0 - c.high), c.high)
  {
    ScaledQuotientBounds(b, 1.0 - c.high, c.high);
  }

  /** With a certainty range inside (0, 1], the counter-stake is defined on
    * the believer side, and on the skeptic side unless low is exactly 1;
    * it is never negative. */
  lemma CreatorStakeDefined(b: nat, skeptic: bool, c: CertaintyRange)
    requires 0.0 < c.low <= c.high <= 1.0
    requires skeptic ==> c.low < 1.0
    ensures CreatorStakeCents(b, skeptic, c).Some?
    ensures CreatorStakeCents(b, skeptic, c).value >= 0
  {
    if skeptic {
      SkepticCounterStakeAtCreatorOdds(b, c);
    } else {
      BelieverCounterStakeAtCreatorOdds(b, c);
    }
  }
}
