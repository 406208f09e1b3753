/** The skybox loading-progress label of onProgress: `((loaded / total) * 100) | 0`.
    The division is modelled over exact rationals; `| 0` is the JavaScript
    ToInt32 conversion (truncate toward zero, then wrap into 32 bits). */
module Loading {
  import RealArith

  const TwoTo32: int := 0x1_0000_0000
  const TwoTo31: int := 0x8000_0000

  /** JavaScript ToInt32 applied to an integral value: reduce modulo 2^32 into
      the signed range [-2^31, 2^31). */
  function ToInt32(n: int): (v: int)
    ensures -TwoTo31 <= v < TwoTo31
    ensures (v - n) % TwoTo32 == 0
  {
    var m := n % TwoTo32;
    if m >= TwoTo31 then m - TwoTo32 else m
  }

  /** Truncation toward zero, the first step of ToInt32 on a finite number. */
  function Truncate(x: real): (t: int)
    ensures 0.0 <= x ==> t as real <= x < t as real + 1.0
    ensures x < 0.0 ==> t as real - 1.0 < x <= t as real
  {
    if 0.0 <= x then x.Floor else -((-x).Floor)
  }

  /** The number of skybox faces the loader reports progress on. */
  const SkyboxFaces: nat := 6

  /** The percentage label for `loaded` of `total` items. With no items the
      quotient is NaN or an infinity, which `| 0` maps to 0. */
  function ProgressPercent(loaded: nat, total: nat): (p: int)
    ensures total == 0 ==> p == 0
    ensures 0 < total && loaded <= total ==> 0 <= p <= 100
    ensures 0 < total && loaded == total ==> p == 100
    ensures 0 < total && loaded <= total ==>
              p as real <= (loaded as real / total as real) * 100.0 < p as real + 1.0
  {
    if total == 0 then 0
    else
      PercentBounds(loaded, total);
      ToInt32(Truncate((loaded as real / total as real) * 100.0))
  }

  /** The exact percentage is never negative, and at most 100 while
      loaded <= total. */
  lemma PercentBounds(loaded: nat, total: nat)
    requires 0 < total
    ensures 0.0 <= (loaded as real / total as real) * 100.0
    ensures loaded <= total ==> (loaded as real / total as real) * 100.0 <= 100.0
    ensures loaded == total ==> (loaded as real / total as real) * 100.0 == 100.0
  {
    var t := total as real;
    var q := loaded as real / t;
    RealArith.QuotientNonNegative(loaded as real, t);
    RealArith.MulLeMono(0.0, q, 100.0);
    if loaded <= total {
      RealArith.QuotientInClosedUnit(loaded as real, t);
      RealArith.MulLeMono(q, 1.0, 100.0);
    }
  }

  /** Loading more items never lowers the label. */
  lemma ProgressMonotone(a: nat, b: nat, total: nat)
    requires a <= b <= total
    ensures ProgressPercent(a, total) <= ProgressPercent(b, total)
  {
    if 0 < total {
      var t := total as real;
      var qa := a as real / t;
      var qb := b as real / t;
      RealArith.DivLeMono(a as real, b as real, t);
      RealArith.MulLeMono(qa, qb, 100.0);
      var pa := ProgressPercent(a, total);
      var pb := ProgressPercent(b, total);
      assert pa as real <= qa * 100.0 && qb * 100.0 < pb as real + 1.0;
    }
  }

  /** The labels shown while the six skybox faces resolve one by one. */
  lemma SkyboxProgress()
    ensures ProgressPercent(1, SkyboxFaces) == 16
    ensures ProgressPercent(2, SkyboxFaces) == 33
    ensures ProgressPercent(3, SkyboxFaces) == 50
    ensures ProgressPercent(4, SkyboxFaces) == 66
    ensures ProgressPercent(5, SkyboxFaces) == 83
    ensures ProgressPercent(6, SkyboxFaces) == 100
  {
  }
}
