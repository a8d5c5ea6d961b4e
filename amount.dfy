/** How many entries of one language go to validation: a percentage of the
    language's size, rounded, then clamped between a minimum and a maximum. */
module ValidationAmount {

  type Positive = x: int | x > 0 witness 1

  /** A percentage read from the configuration, as the exact fraction
      `num / den` (0.2 is `Fraction(1, 5)`). */
  datatype Fraction = Fraction(num: int, den: Positive)

  function Abs(x: int): nat
  {
    if x < 0 then -x else x
  }

  /** Python's `round` of the exact value `num / den`: the nearest integer,
      and on a tie the even one. */
  function RoundHalfEven(num: int, den: Positive): (r: int)
    ensures 2 * Abs(num - r * den) <= den
    ensures 2 * Abs(num - r * den) == den ==> r % 2 == 0
  {
    var q, rem := num / den, num % den;
    assert num == q * den + rem && 0 <= rem < den;
    if 2 * rem < den then q
    else if 2 * rem > den then
      assert num - (q + 1) * den == rem - den;
      q + 1
    else if q % 2 == 0 then q
    else
      assert num - (q + 1) * den == rem - den;
      q + 1
  }

  /** A step of `d` integers moves `x * den` by `d * den`, at least two
      denominators when `d` is at least two. */
  lemma StepScale(x: int, d: int, den: Positive)
    ensures (x + d) * den - x * den == d * den
    ensures d >= 2 ==> d * den >= 2 * den
    ensures d == 1 ==> d * den == den
  {
  }

  /** The two properties of RoundHalfEven single out one integer. */
  lemma RoundHalfEvenUnique(num: int, den: Positive, r: int)
    requires 2 * Abs(num - r * den) <= den
    requires 2 * Abs(num - r * den) == den ==> r % 2 == 0
    ensures r == RoundHalfEven(num, den)
  {
    var s := RoundHalfEven(num, den);
    if r != s {
      // Two integers within half a step of num / den are neighbours, and
      // then both sit exactly half a step away: a tie, where only one of
      // two neighbours is even.
      var lo, hi := if r < s then r else s, if r < s then s else r;
      var d := hi - lo;
      StepScale(lo, d, den);
      assert false;
    }
  }

  /** The validation amount for a language of `numEntries` entries:
      `round(numEntries * pct)`, raised to `valMin` when below it, otherwise
      lowered to `valMax` when above it. The minimum is tested first, so when
      `valMin > valMax` any amount that is not below the minimum yields
      `valMax`. */
  function GetValidationAmount(numEntries: nat, valMin: int, valMax: int, pct: Fraction): (r: int)
    ensures var k := RoundHalfEven(numEntries * pct.num, pct.den);
      && (valMin <= valMax ==> valMin <= r <= valMax && (r == k <==> valMin <= k <= valMax))
      && (valMin > valMax ==> (r == valMin <==> k < valMin) && (r == valMax <==> k >= valMin))
  {
    var amount := RoundHalfEven(numEntries * pct.num, pct.den);
    if amount < valMin then valMin
    else if amount > valMax then valMax
    else amount
  }

  /** With a consistent range, the clamp picks the value of the range
      nearest to the rounded amount. */
  lemma {:induction false} AmountIsNearest(numEntries: nat, valMin: int, valMax: int, pct: Fraction, v: int)
    requires valMin <= v <= valMax
    ensures var k := RoundHalfEven(numEntries * pct.num, pct.den);
      Abs(GetValidationAmount(numEntries, valMin, valMax, pct) - k) <= Abs(v - k)
  {
  }

  /** The amounts quoted for a 20% share clamped to [5, 50]. */
  lemma AmountExamples()
    ensures GetValidationAmount(100, 5, 50, Fraction(1, 5)) == 20
    ensures GetValidationAmount(10, 5, 50, Fraction(1, 5)) == 5
    ensures GetValidationAmount(1000, 5, 50, Fraction(1, 5)) == 50
  {
  }
}
