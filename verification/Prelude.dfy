/**
 * Small helpers shared by the models: an option type, the smaller and the larger of two numbers, and a few facts about
 * products, ratios and sizes that the models need more than once. Times are reals, in seconds, on one monotone clock
 * that all parts of a model share.
 */
module Prelude {
  datatype Option<+T> = None | Some(value: T)

  function Min(a: real, b: real): real {
    if a <= b then a else b
  }

  function Max(a: real, b: real): real {
    if a >= b then a else b
  }

  function MinInt(a: int, b: int): int {
    if a <= b then a else b
  }

  function MaxInt(a: int, b: int): int {
    if a >= b then a else b
  }

  lemma MulMono(a: real, b: real, r: real)
    requires a <= b && 0.0 <= r
    ensures a * r <= b * r
  {
    assert 0.0 <= (b - a) * r;
  }

  lemma StrictMul(a: real, b: real, r: real)
    requires a < b && 0.0 < r
    ensures a * r < b * r
  {
    assert 0.0 < (b - a) * r;
  }

  /** Comparing a ratio is comparing its part with that many bases. */
  lemma RatioOf(part: real, base: real, times: real)
    requires base > 0.0
    ensures part / base <= times <==> part <= times * base
    ensures part / base >= times <==> part >= times * base
  {
    var ratio := part / base;
    assert ratio * base == part;
    if ratio < times {
      StrictMul(ratio, times, base);
    } else if times < ratio {
      StrictMul(times, ratio, base);
    }
  }

  lemma SubsetSize<T>(a: set<T>, b: set<T>)
    requires a <= b
    ensures |a| <= |b|
  {
    assert b == a + (b - a);
  }
}
