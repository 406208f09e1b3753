/** Small facts about multiplication, division and floor over the reals, stated once so
    that the nonlinear steps of the other proofs are explicit. */
module RealArith {

  /** Multiplying by a non-negative factor keeps a non-strict order. */
  lemma MulLeMono(a: real, b: real, c: real)
    requires 0.0 <= c && a <= b
    ensures a * c <= b * c
  {
    assert b * c - a * c == (b - a) * c;
  }

  /** Multiplying by a positive factor keeps a strict order. */
  lemma MulLtMono(a: real, b: real, c: real)
    requires 0.0 < c && a < b
    ensures a * c < b * c
  {
    assert b * c - a * c == (b - a) * c;
  }

  /** A draw in [0, 1) scales a positive width into [0, width). */
  lemma ScaleIntoPositive(r: real, c: real)
    requires 0.0 <= r < 1.0 && 0.0 < c
    ensures 0.0 <= r * c < c
  {
    MulLeMono(0.0, r, c);
    MulLtMono(r, 1.0, c);
  }

  /** A draw in [0, 1) scales a negative width into (width, 0]. */
  lemma ScaleIntoNegative(r: real, c: real)
    requires 0.0 <= r < 1.0 && c < 0.0
    ensures c < r * c <= 0.0
  {
    ScaleIntoPositive(r, -c);
    assert r * -c == -(r * c);
  }

  /** A positive factor can be cancelled from a non-strict inequality. */
  lemma CancelPositive(x: real, y: real, t: real)
    requires 0.0 < t && x * t <= y * t
    ensures x <= y
  {
    if y < x {
      MulLtMono(y, x, t);
    }
  }

  /** A positive factor can be cancelled from a strict inequality. */
  lemma CancelPositiveStrict(x: real, y: real, t: real)
    requires 0.0 < t && x * t < y * t
    ensures x < y
  {
    if y <= x {
      MulLeMono(y, x, t);
    }
  }

  /** The quotient of a in [0, c) by c lies in [0, 1) and multiplies back to a. */
  lemma QuotientInUnit(a: real, c: real)
    requires 0.0 <= a < c
    ensures 0.0 <= a / c < 1.0
    ensures (a / c) * c == a
  {
    var q := a / c;
    assert q * c == a;
    assert 0.0 * c == 0.0 && 1.0 * c == c;
    CancelPositive(0.0, q, c);
    CancelPositiveStrict(q, 1.0, c);
  }

  /** A non-negative number divided by a positive one is non-negative. */
  lemma QuotientNonNegative(a: real, c: real)
    requires 0.0 <= a && 0.0 < c
    ensures 0.0 <= a / c
  {
    var q := a / c;
    assert q * c == a;
    assert 0.0 * c == 0.0;
    CancelPositive(0.0, q, c);
  }

  /** The quotient of a in [0, c] by c lies in [0, 1], and is 1 exactly at a == c. */
  lemma QuotientInClosedUnit(a: real, c: real)
    requires 0.0 <= a <= c && 0.0 < c
    ensures 0.0 <= a / c <= 1.0
    ensures a == c ==> a / c == 1.0
  {
    if a < c {
      QuotientInUnit(a, c);
    } else {
      assert a / c == 1.0;
    }
  }

  /** Dividing by a positive number keeps a non-strict order. */
  lemma DivLeMono(a: real, b: real, c: real)
    requires 0.0 < c && a <= b
    ensures a / c <= b / c
  {
    var qa := a / c;
    var qb := b / c;
    assert qa * c == a;
    assert qb * c == b;
    CancelPositive(qa, qb, c);
  }

  /** Floor is monotone. */
  lemma FloorMonotone(x: real, y: real)
    requires x <= y
    ensures x.Floor <= y.Floor
  {
    assert x.Floor as real <= x;
    assert y < y.Floor as real + 1.0;
  }
}
