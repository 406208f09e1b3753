/** Procedural layout of the planets in drawGalaxy: the running orbit offset,
    the ring annulus of ringed planets, and the list of per-planet objects. */
module Layout {
  import opened Catalog
  import Random

  /** Fixed spacing added between consecutive orbits (`distance` in drawGalaxy). */
  const OrbitGap: int := 60

  /** Gap between a planet's surface and the inner edge of its ring. */
  const RingInset: int := 20

  /** Radial width of a ring. */
  const RingWidth: int := 14

  /** The offsets the accumulator produces: starting from `start`, each radius
      advances the running offset by its diameter plus `gap`, and the planet is
      placed at the advanced offset. */
  function Offsets(start: int, gap: int, radii: seq<int>): (os: seq<int>)
    ensures |os| == |radii|
    ensures |radii| > 0 ==> os[0] == start + 2 * radii[0] + gap
    ensures forall i :: 0 < i < |radii| ==> os[i] - os[i - 1] == 2 * radii[i] + gap
    decreases |radii|
  {
    if |radii| == 0 then []
    else
      var first := start + 2 * radii[0] + gap;
      [first] + Offsets(first, gap, radii[1..])
  }

  /** Total advance of the accumulator over a list of radii: Σ (2 r + gap). */
  function Advance(gap: int, radii: seq<int>): int
    decreases |radii|
  {
    if |radii| == 0 then 0
    else Advance(gap, radii[..|radii| - 1]) + 2 * radii[|radii| - 1] + gap
  }

  /** Closed form: the i-th offset is the start plus the advance over the
      first i + 1 radii. */
  lemma {:induction false} OffsetsClosedForm(start: int, gap: int, radii: seq<int>, i: nat)
    requires i < |radii|
    ensures Offsets(start, gap, radii)[i] == start + Advance(gap, radii[..i + 1])
    decreases i
  {
    var os := Offsets(start, gap, radii);
    if i == 0 {
      assert radii[..1][..0] == [];
    } else {
      OffsetsClosedForm(start, gap, radii, i - 1);
      assert radii[..i + 1][..i] == radii[..i];
    }
  }

  /** A sequence whose consecutive elements increase is strictly increasing. */
  lemma {:induction false} StepwiseIncreasing(os: seq<int>)
    requires forall i :: 0 < i < |os| ==> os[i - 1] < os[i]
    ensures forall i, j :: 0 <= i < j < |os| ==> os[i] < os[j]
    decreases |os|
  {
    if |os| > 1 {
      var init := os[..|os| - 1];
      StepwiseIncreasing(init);
      forall i, j | 0 <= i < j < |os|
        ensures os[i] < os[j]
      {
        if j < |os| - 1 {
          assert init[i] < init[j];
        } else if i < j - 1 {
          assert init[i] < init[j - 1];
        }
      }
    }
  }

  /** With positive radii and a non-negative gap the offsets are strictly
      increasing in catalog order, and the first lies beyond the start. */
  lemma OffsetsIncreasing(start: int, gap: int, radii: seq<int>)
    requires 0 <= gap
    requires forall i :: 0 <= i < |radii| ==> 0 < radii[i]
    ensures var os := Offsets(start, gap, radii);
            (|os| > 0 ==> start < os[0]) &&
            forall i, j :: 0 <= i < j < |os| ==> os[i] < os[j]
  {
    StepwiseIncreasing(Offsets(start, gap, radii));
  }

  /** Two consecutive planets, seen as radial intervals [offset - r, offset + r],
      are disjoint exactly when the earlier radius is below the later radius
      plus the gap; the accumulator does not guarantee it for every catalog. */
  lemma NeighboursDisjointIff(start: int, gap: int, radii: seq<int>, i: nat)
    requires 0 < i < |radii|
    ensures var os := Offsets(start, gap, radii);
            os[i - 1] + radii[i - 1] < os[i] - radii[i] <==> radii[i - 1] < radii[i] + gap
  {
  }

  /** The layout of drawGalaxy: the running offset starts at the sun's radius. */
  function GalaxyOffsets(planets: seq<Body>): (os: seq<int>)
    ensures |os| == |planets|
  {
    Offsets(Sun.radius, OrbitGap, Radii(planets))
  }

  /** The radii of the shipped catalog, in order. */
  const ShippedRadii: seq<int> := [10, 13, 14, 12, 20, 40, 42, 44]

  lemma ShippedRadiiMatch()
    ensures Radii(Planets) == ShippedRadii
  {
    var rs := Radii(Planets);
    forall i | 0 <= i < 8
      ensures rs[i] == ShippedRadii[i]
    {
    }
  }

  /** With the shipped catalog the orbit offsets are 140, 226, 314, 398, 498,
      638, 782 and 930, and no two neighbouring planets overlap radially. */
  lemma ShippedOffsets()
    ensures GalaxyOffsets(Planets) == [140, 226, 314, 398, 498, 638, 782, 930]
    ensures GalaxyOffsets(Planets)[SaturnIndex] == 638
    ensures forall i :: 0 < i < |Planets| ==>
              GalaxyOffsets(Planets)[i - 1] + Planets[i - 1].radius
                < GalaxyOffsets(Planets)[i] - Planets[i].radius
  {
    ShippedRadiiMatch();
    var os := Offsets(Sun.radius, OrbitGap, ShippedRadii);
    assert os[0] == 140;
    assert os[1] == 226;
    assert os[2] == 314;
    assert os[3] == 398;
    assert os[4] == 498;
    assert os[5] == 638;
    assert os[6] == 782;
    assert os[7] == 930;
    assert GalaxyOffsets(Planets) == os;
  }

  /** A flat annulus around a ringed planet. */
  datatype Ring = Ring(inner: int, outer: int)

  /** createRing: the annulus starts RingInset beyond the planet's surface
      and is RingWidth wide, so it never touches the sphere. */
  function CreateRing(radius: int): (ring: Ring)
    ensures ring.inner - radius == RingInset
    ensures ring.outer - ring.inner == RingWidth
    ensures radius < ring.inner < ring.outer
  {
    var inner := radius + RingInset;
    Ring(inner, inner + RingWidth)
  }

  /** The object createPlanet builds for one planet: an orbit outline of
      radius `orbit`, the sphere of radius `radius` centred at distance `orbit`,
      an optional ring centred there too, and the whole rotated by `angle`
      degrees about the vertical axis. */
  datatype PlanetObject = PlanetObject(
    orbit: int,
    radius: int,
    ring: Option<Ring>,
    angle: int)

  /** createPlanet: a ring is built exactly when the planet's ring texture is
      truthy, that is present and not the empty string. */
  function CreatePlanet(planet: Body, offset: int, draw: real): (obj: PlanetObject)
    requires Random.IsDraw(draw)
    ensures obj.orbit == offset && obj.radius == planet.radius
    ensures obj.ring.Some? <==> Truthy(planet.ringTexture)
    ensures obj.ring.Some? ==> obj.ring.value == CreateRing(planet.radius)
    ensures -180 <= obj.angle <= 179
  {
    var ring := if Truthy(planet.ringTexture) then Some(CreateRing(planet.radius)) else None;
    PlanetObject(offset, planet.radius, ring, Random.InitialAngle(draw))
  }

  /** The planet loop of drawGalaxy: a running offset seeded with the sun's
      radius, advanced by each planet's diameter plus the gap, and one object
      pushed onto the existing planet list per catalog planet, in catalog order. */
  method DrawGalaxy(existing: seq<PlanetObject>, planets: seq<Body>, angleDraws: seq<real>)
    returns (planetList: seq<PlanetObject>)
    requires |angleDraws| == |planets|
    requires Random.AllDraws(angleDraws)
    ensures |planetList| == |existing| + |planets|
    ensures planetList[..|existing|] == existing
    ensures forall i :: 0 <= i < |planets| ==>
              planetList[|existing| + i] == CreatePlanet(planets[i], GalaxyOffsets(planets)[i], angleDraws[i])
  {
    var distance := OrbitGap;
    var offset := Sun.radius;
    ghost var os := GalaxyOffsets(planets);
    planetList := existing;
    var k := 0;
    while k < |planets|
      invariant 0 <= k <= |planets|
      invariant |planetList| == |existing| + k
      invariant planetList[..|existing|] == existing
      invariant offset == if k == 0 then Sun.radius else os[k - 1]
      invariant forall i :: 0 <= i < k ==>
                  planetList[|existing| + i] == CreatePlanet(planets[i], os[i], angleDraws[i])
    {
      offset := offset + planets[k].radius * 2 + distance;
      var planetMesh := CreatePlanet(planets[k], offset, angleDraws[k]);
      planetList := planetList + [planetMesh];
      k := k + 1;
    }
  }

  /** In the shipped catalog only Saturn gets a ring, spanning radii 60 to 74
      around its centre at offset 638. */
  lemma ShippedRing(angleDraws: seq<real>)
    requires |angleDraws| == |Planets|
    requires Random.AllDraws(angleDraws)
    ensures forall i :: 0 <= i < |Planets| ==>
              var obj := CreatePlanet(Planets[i], GalaxyOffsets(Planets)[i], angleDraws[i]);
              obj.ring.Some? <==> i == SaturnIndex
    ensures var saturn := CreatePlanet(Planets[SaturnIndex], GalaxyOffsets(Planets)[SaturnIndex],
                                       angleDraws[SaturnIndex]);
            saturn.orbit == 638 && saturn.ring == Some(Ring(60, 74))
  {
    ShippedOffsets();
    ShippedCatalog();
    assert CreateRing(Planets[SaturnIndex].radius) == Ring(60, 74);
  }
}
