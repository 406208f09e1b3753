/** Integer draws in a half-open range, as used for planet speeds and
    initial orbit angles. The uniform source (Math.random) is a parameter:
    a real draw in [0, 1). */
module Random {
  import RealArith

  /** A value Math.random can return. */
  predicate IsDraw(r: real) {
    0.0 <= r < 1.0
  }

  /** randomInRange: `min + floor(r * (max - min))`. For `min < max` this is
      an integer of the half-open range [min, max); for an empty range it
      collapses to `min`, and for a reversed range it lies in [max, min]. */
  function RandomInRange(min: int, max: int, r: real): (v: int)
    requires IsDraw(r)
    ensures min < max ==> min <= v < max
    ensures min == max ==> v == min
    ensures max < min ==> max <= v <= min
  {
    ScaledFloorBounds(r, max - min);
    min + (r * (max - min) as real).Floor
  }

  /** `r * d` stays within [0, d) for a positive width, is 0 for width 0, and
      lies in (d, 0] for a negative width. */
  lemma ScaledDrawBounds(r: real, d: int)
    requires IsDraw(r)
    ensures 0 < d ==> 0.0 <= r * d as real < d as real
    ensures d == 0 ==> r * d as real == 0.0
    ensures d < 0 ==> d as real < r * d as real <= 0.0
  {
    var dr := d as real;
    if 0 < d {
      RealArith.ScaleIntoPositive(r, dr);
    } else if d < 0 {
      RealArith.ScaleIntoNegative(r, dr);
    }
  }

  /** The floor of the scaled draw stays in the matching integer range. */
  lemma ScaledFloorBounds(r: real, d: int)
    requires IsDraw(r)
    ensures 0 < d ==> 0 <= (r * d as real).Floor < d
    ensures d == 0 ==> (r * d as real).Floor == 0
    ensures d < 0 ==> d <= (r * d as real).Floor <= 0
  {
    ScaledDrawBounds(r, d);
  }

  /** Every integer of a non-empty range is produced by some draw: the draw
      `(v - min) / (max - min)` lands exactly on `v`. */
  lemma EveryValueReachable(min: int, max: int, v: int)
    requires min <= v < max
    ensures var r := (v - min) as real / (max - min) as real;
            IsDraw(r) && RandomInRange(min, max, r) == v
  {
    var d := (max - min) as real;
    var r := (v - min) as real / d;
    RealArith.QuotientInUnit((v - min) as real, d);
    assert (r * d).Floor == v - min;
  }

  /** A larger draw never yields a smaller value in a non-empty range. */
  lemma RandomInRangeMonotone(min: int, max: int, r1: real, r2: real)
    requires min <= max
    requires IsDraw(r1) && IsDraw(r2) && r1 <= r2
    ensures RandomInRange(min, max, r1) <= RandomInRange(min, max, r2)
  {
    var d := (max - min) as real;
    RealArith.MulLeMono(r1, r2, d);
    RealArith.FloorMonotone(r1 * d, r2 * d);
  }

  /** Speed range of the start-up assignment: randomInRange(1, 10). */
  const SpeedMin: int := 1
  const SpeedMax: int := 10

  /** Initial orbit angle range, in degrees, of createPlanet: randomInRange(-180, 180). */
  const AngleMin: int := -180
  const AngleMax: int := 180

  predicate AllDraws(draws: seq<real>) {
    forall i :: 0 <= i < |draws| ==> IsDraw(draws[i])
  }

  /** The start-up speed assignment: one draw per catalog planet, in catalog
      order; every speed is an integer from 1 to 9. */
  function AssignSpeeds(draws: seq<real>): (speeds: seq<int>)
    requires AllDraws(draws)
    ensures |speeds| == |draws|
    ensures forall i :: 0 <= i < |speeds| ==> 1 <= speeds[i] <= 9
    ensures forall i :: 0 <= i < |speeds| ==> speeds[i] == RandomInRange(SpeedMin, SpeedMax, draws[i])
    decreases |draws|
  {
    if |draws| == 0 then []
    else [RandomInRange(SpeedMin, SpeedMax, draws[0])] + AssignSpeeds(draws[1..])
  }

  /** The initial orbit angle of one planet, in whole degrees in [-180, 179]. */
  function InitialAngle(r: real): (deg: int)
    requires IsDraw(r)
    ensures -180 <= deg <= 179
  {
    RandomInRange(AngleMin, AngleMax, r)
  }
}
