/** The per-frame animation driver of render: the frame timer, and the
    arguments of the incremental rotations applied to the sun and to every
    planet object. The rotations themselves (`rotateY(sin(..))`) are left to
    the rendering library; only their arguments are modelled, over reals. */
module Animation {
  import opened Catalog
  import Layout
  import Random
  import RealArith

  /** Seconds between the last two frames, and the time of the last frame. */
  datatype Timer = Timer(delta: real, previous: real)

  /** The timer as the application constructs it. */
  const InitialTimer: Timer := Timer(0.0, 0.0)

  /** render scales its millisecond timestamp to seconds (`time *= 0.001`). */
  function Seconds(ms: real): real {
    ms * 0.001
  }

  /** One frame: the new delta bridges the previous frame time and this one,
      and this frame's time becomes the previous frame time. */
  function Tick(timer: Timer, ms: real): (next: Timer)
    ensures next.previous == Seconds(ms)
    ensures timer.previous + next.delta == next.previous
  {
    var now := Seconds(ms);
    Timer(now - timer.previous, now)
  }

  /** The timer after a sequence of frames, applied in order. */
  function Run(timer: Timer, frames: seq<real>): Timer
    decreases |frames|
  {
    if |frames| == 0 then timer else Run(Tick(timer, frames[0]), frames[1..])
  }

  /** The delta each frame of the sequence computes, in order. */
  function Deltas(timer: Timer, frames: seq<real>): (ds: seq<real>)
    ensures |ds| == |frames|
    decreases |frames|
  {
    if |frames| == 0 then []
    else
      var next := Tick(timer, frames[0]);
      [next.delta] + Deltas(next, frames[1..])
  }

  function Sum(xs: seq<real>): real
    decreases |xs|
  {
    if |xs| == 0 then 0.0 else xs[0] + Sum(xs[1..])
  }

  /** After at least one frame the timer holds the last frame's time, and its
      delta is the gap between the last two frames (the first frame measures
      from the starting timer). */
  lemma {:induction false} RunEndsAtLastFrame(timer: Timer, frames: seq<real>)
    requires |frames| > 0
    ensures Run(timer, frames).previous == Seconds(frames[|frames| - 1])
    ensures |frames| == 1 ==> Run(timer, frames).delta == Seconds(frames[0]) - timer.previous
    ensures |frames| > 1 ==>
              Run(timer, frames).delta == Seconds(frames[|frames| - 1]) - Seconds(frames[|frames| - 2])
    decreases |frames|
  {
    if |frames| > 1 {
      var rest := frames[1..];
      RunEndsAtLastFrame(Tick(timer, frames[0]), rest);
      assert rest[|rest| - 1] == frames[|frames| - 1];
      if |rest| > 1 {
        assert rest[|rest| - 2] == frames[|frames| - 2];
      }
    }
  }

  /** The per-frame deltas add up to the total time the timer advanced:
      no elapsed time is lost or counted twice between frames. */
  lemma {:induction false} DeltasTelescope(timer: Timer, frames: seq<real>)
    ensures Sum(Deltas(timer, frames)) == Run(timer, frames).previous - timer.previous
    decreases |frames|
  {
    if |frames| > 0 {
      var next := Tick(timer, frames[0]);
      DeltasTelescope(next, frames[1..]);
      assert Deltas(timer, frames) == [next.delta] + Deltas(next, frames[1..]);
    }
  }

  /** The first call of render has no timestamp and uses 0: it leaves the
      timer exactly as constructed, so the first frame rotates nothing. */
  lemma FirstFrameIsStill()
    ensures Tick(InitialTimer, 0.0) == InitialTimer
    ensures Tick(InitialTimer, 0.0).delta == 0.0
  {
  }

  /** The arguments passed to `sin` before each `rotateY` of one frame. */
  datatype Rotations = Rotations(sun: real, planets: seq<real>)

  /** The rotation arguments of one frame: the sun turns by `delta * 0.6`, and
      planet object i by `delta * 0.1 * speeds[i]`, the speed of catalog
      planet i. The factors 0.6 and 0.1 are the sun's and a planet's spin per
      second of delta. */
  function RotationArguments(delta: real, planetList: seq<Layout.PlanetObject>, speeds: seq<int>): (rot: Rotations)
    requires |planetList| <= |speeds|
    ensures |rot.planets| == |planetList|
    ensures rot.sun == delta * 0.6
    ensures forall i :: 0 <= i < |planetList| ==> rot.planets[i] == delta * 0.1 * speeds[i] as real
  {
    Rotations(delta * 0.6,
              seq(|planetList|, i requires 0 <= i < |planetList| => delta * 0.1 * speeds[i] as real))
  }

  /** A frame with no elapsed time turns nothing, and with elapsed time a
      faster planet turns strictly further than a slower one. */
  lemma RotationFollowsSpeed(delta: real, planetList: seq<Layout.PlanetObject>, speeds: seq<int>, i: nat, j: nat)
    requires |planetList| <= |speeds|
    requires i < |planetList| && j < |planetList|
    ensures var rot := RotationArguments(delta, planetList, speeds);
            (delta == 0.0 ==> rot.sun == 0.0 && rot.planets[i] == 0.0) &&
            (0.0 < delta && speeds[i] < speeds[j] ==> rot.planets[i] < rot.planets[j])
  {
    if 0.0 < delta && speeds[i] < speeds[j] {
      RealArith.MulLtMono(speeds[i] as real, speeds[j] as real, delta * 0.1);
    }
  }

  /** Every speed lies in the range the start-up assignment draws from. */
  predicate SpeedsInRange(speeds: seq<int>) {
    forall k :: 0 <= k < |speeds| ==> 1 <= speeds[k] <= 9
  }

  /** With speeds in the range the start-up assignment draws from (1 to 9),
      every planet's rotation argument lies between 0.1 and 0.9 times a
      non-negative delta. */
  lemma RotationBounded(delta: real, planetList: seq<Layout.PlanetObject>, speeds: seq<int>, i: nat)
    requires |planetList| <= |speeds|
    requires SpeedsInRange(speeds)
    requires i < |planetList|
    requires 0.0 <= delta
    ensures delta * 0.1 <= RotationArguments(delta, planetList, speeds).planets[i] <= delta * 0.9
  {
    var rot := RotationArguments(delta, planetList, speeds);
    assert rot.planets[i] == delta * 0.1 * speeds[i] as real;
    SpinBetween(delta, speeds[i] as real);
    assert delta * 0.1 <= rot.planets[i];
    assert rot.planets[i] <= delta * 0.9;
  }

  /** A planet's spin `delta * 0.1 * s` for a speed s in [1, 9]. */
  lemma SpinBetween(delta: real, s: real)
    requires 0.0 <= delta && 1.0 <= s <= 9.0
    ensures delta * 0.1 <= delta * 0.1 * s <= delta * 0.9
  {
    RealArith.MulLeMono(1.0, s, delta * 0.1);
    RealArith.MulLeMono(s, 9.0, delta * 0.1);
  }

  /** The application state the animation driver works on. */
  datatype App = App(timer: Timer, planetList: seq<Layout.PlanetObject>, speeds: seq<int>)

  /** The planet list never outgrows the speed table it is paired with. */
  predicate Paired(app: App) {
    |app.planetList| <= |app.speeds|
  }

  /** The application right after construction: the speeds drawn for the
      catalog, no planet built yet (the skybox is still loading), and the
      timer at {0, 0}. */
  function Construct(speedDraws: seq<real>): (app: App)
    requires |speedDraws| == |Planets|
    requires Random.AllDraws(speedDraws)
    ensures Paired(app) && app.planetList == [] && |app.speeds| == |Planets|
    ensures app.speeds == Random.AssignSpeeds(speedDraws) && SpeedsInRange(app.speeds)
    ensures app.timer == InitialTimer
  {
    App(InitialTimer, [], Random.AssignSpeeds(speedDraws))
  }

  /** startSettingWorld: once loading completes, drawGalaxy pushes one object
      per catalog planet onto the planet list. Starting from the empty list of
      a fresh application, object i is then paired with the speed of catalog
      planet i and render never indexes past the speed table; a second run
      would push eight more objects and break that pairing. */
  method StartSettingWorld(app: App, angleDraws: seq<real>) returns (next: App)
    requires |app.speeds| == |Planets|
    requires |angleDraws| == |Planets|
    requires Random.AllDraws(angleDraws)
    ensures |next.planetList| == |app.planetList| + |Planets|
    ensures next.planetList[..|app.planetList|] == app.planetList
    ensures forall i :: 0 <= i < |Planets| ==>
              next.planetList[|app.planetList| + i]
                == Layout.CreatePlanet(Planets[i], Layout.GalaxyOffsets(Planets)[i], angleDraws[i])
    ensures Paired(next) <==> app.planetList == []
    ensures next.timer == app.timer && next.speeds == app.speeds
  {
    var planetList := Layout.DrawGalaxy(app.planetList, Planets, angleDraws);
    next := app.(planetList := planetList);
  }

  /** One call of render: tick the timer, then compute the rotation
      arguments from the new delta. The planet list and speeds are untouched. */
  function Render(app: App, ms: real): (r: (App, Rotations))
    requires Paired(app)
    ensures Paired(r.0)
    ensures r.0.planetList == app.planetList && r.0.speeds == app.speeds
    ensures r.0.timer.previous == Seconds(ms)
    ensures |r.1.planets| == |app.planetList|
    ensures r.1 == RotationArguments(Seconds(ms) - app.timer.previous, app.planetList, app.speeds)
  {
    var timer := Tick(app.timer, ms);
    (app.(timer := timer), RotationArguments(timer.delta, app.planetList, app.speeds))
  }
}
