/** The static body catalog of the solar-system scene: the sun and the
    eight planets, in the order in which they are laid out and animated. */
module Catalog {

  datatype Option<+T> = None | Some(value: T)

  /** JavaScript truthiness of an optional string field: an absent field and
      the empty string are both falsy. */
  predicate Truthy(o: Option<string>) {
    o.Some? && o.value != ""
  }

  /** One celestial body. The per-planet speed is not a field: it is drawn
      once at start-up and kept in a separate sequence parallel to the catalog. */
  datatype Body = Body(
    name: string,
    radius: int,
    color: int,
    texture: Option<string>,
    ringTexture: Option<string>)

  const Sun: Body := Body("Sun", 60, 0xffdd59, Some("./images/textures/tex/2k_sun.jpg"), None)

  const Planets: seq<Body> := [
    Body("Mercury", 10, 0xffdd59, Some("./images/textures/tex/mercury.jpg"), None),
    Body("Venus", 13, 0x0fbcf9, Some("./images/textures/tex/Venus.jpg"), None),
    Body("Earth", 14, 0x575fcf, Some("./images/textures/tex/world5400x2700.jpg"), None),
    Body("Mars", 12, 0x34e7e4, Some("./images/textures/tex/mars.jpg"), None),
    Body("Jupiter", 20, 0x05c46b, Some("./images/textures/tex/Jupitar.jpg"), None),
    Body("Saturn", 40, 0xff3f34, Some("./images/textures/tex/saturn.jpg"),
         Some("./images/textures/tex/ring.PNG")),
    Body("Uranus", 42, 0x808e9b, Some("./images/textures/tex/uranus.jpg"), None),
    Body("Neptune", 44, 0xef5777, Some("./images/textures/tex/neptune.jpg"), None)
  ]

  /** Index of Saturn, the only ringed planet of the shipped catalog. */
  const SaturnIndex: nat := 5

  /** The radii of a list of bodies, in order. */
  function Radii(bodies: seq<Body>): (rs: seq<int>)
    ensures |rs| == |bodies|
    ensures forall i :: 0 <= i < |bodies| ==> rs[i] == bodies[i].radius
  {
    seq(|bodies|, i requires 0 <= i < |bodies| => bodies[i].radius)
  }

  /** Every body of the shipped catalog has a positive radius, and Saturn is
      the one planet that carries a ring texture. */
  lemma ShippedCatalog()
    ensures |Planets| == 8
    ensures Sun.radius == 60
    ensures forall i :: 0 <= i < |Planets| ==> Planets[i].radius > 0
    ensures forall i :: 0 <= i < |Planets| ==>
              (Truthy(Planets[i].ringTexture) <==> i == SaturnIndex)
    ensures Planets[SaturnIndex].name == "Saturn" && Planets[SaturnIndex].radius == 40
  {
  }
}
