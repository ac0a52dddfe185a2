/**
  The orbiting bodies, the ship and the path frame of the solar viewer, the
  collaborators whose code is not part of this model, and the two
  operations of a timer tick on them: stepping every body and placing the
  planets on their orbits (update_body_positions).
*/
module Bodies {
  import opened Geometry

  /** The value of the C macro M_PI. */
  const Pi: real := 3.14159265358979323846

  /** The six bodies the camera can look at, in the order of keys 1..6. */
  datatype BodyId = Sun | Mercury | Venus | Earth | Moon | Mars

  /** One celestial body: its constructor arguments and its current pose. */
  datatype Planet = Planet(
    angleStepOrbit: real,
    angleStepSelf: real,
    radius: real,
    distance: real,
    angleOrbit: real,
    angleSelf: real,
    pos: Vec4)

  datatype Ship = Ship(pos: Vec4, direction: Vec4, angle: real, speed: real, radius: real)

  /** The moving frame along the ship's path, with its parallel-transport switch. */
  datatype PathFrame = PathFrame(parallelTransport: bool, tangent: Vec3, normal: Vec3, binormal: Vec3)

  /**
    The operations the viewer calls but whose code is not modelled: the
    trigonometric functions, the Planet and Ship classes, the path curve's
    tangent and the frame's alignment. Every property proved here holds
    whatever these functions are.
  */
  datatype Env = Env(
    cos: real -> real,
    sin: real -> real,
    newPlanet: (real, real, real, real) -> Planet,
    planetStep: (Planet, real) -> Planet,
    newShip: Ship,
    updateShip: Ship -> Ship,
    accelerate: (Ship, real) -> Ship,
    accelerateAngular: (Ship, real) -> Ship,
    newFrame: PathFrame,
    pathTangent: real -> Vec3,
    alignTo: (PathFrame, Vec3) -> PathFrame)

  /** The six bodies that the timer steps. */
  datatype SolarBodies = SolarBodies(sun: Planet, mercury: Planet, venus: Planet, earth: Planet, moon: Planet, mars: Planet)

  /** Everything a timer tick can change. */
  datatype World = World(bodies: SolarBodies, stars: Planet, ship: Ship, frame: PathFrame, shipPathParam: real)

  /** The body selected by key 1 + i, from the array {sun, mercury, venus, earth, moon, mars}. */
  function BodyAt(i: int): BodyId
    requires 0 <= i < 6
  {
    [Sun, Mercury, Venus, Earth, Moon, Mars][i]
  }

  function BodyOf(b: SolarBodies, id: BodyId): Planet
  {
    match id
    case Sun => b.sun
    case Mercury => b.mercury
    case Venus => b.venus
    case Earth => b.earth
    case Moon => b.moon
    case Mars => b.mars
  }

  /**
    The point of a circular orbit of radius p.distance around `center`, at
    orbit angle p.angleOrbit, in the horizontal plane at height planeY,
    keeping the body's own homogeneous coordinate w.
  */
  function OrbitPoint(env: Env, center: Vec4, planeY: real, p: Planet): (r: Vec4)
  {
    Vec4(center.x + p.distance * env.cos(p.angleOrbit), planeY,
         center.z + p.distance * env.sin(p.angleOrbit), p.pos.w)
  }

  /** The body moved to its orbit point; nothing else about it changes. */
  function Placed(env: Env, center: Vec4, planeY: real, p: Planet): (r: Planet)
  {
    p.(pos := OrbitPoint(env, center, planeY, p))
  }

  /** The orbit point depends on the orbit, not on the position, so placing twice is placing once. */
  lemma PlacedTwice(env: Env, center: Vec4, planeY: real, p: Planet)
    ensures Placed(env, center, planeY, Placed(env, center, planeY, p)) == Placed(env, center, planeY, p)
  {
    var q := Placed(env, center, planeY, p);
    assert q.distance == p.distance && q.angleOrbit == p.angleOrbit && q.pos.w == p.pos.w;
    assert env.cos(q.angleOrbit) == env.cos(p.angleOrbit) && env.sin(q.angleOrbit) == env.sin(p.angleOrbit);
    var a, c := OrbitPoint(env, center, planeY, q), OrbitPoint(env, center, planeY, p);
    assert a.x == c.x && a.y == c.y && a.z == c.z && a.w == c.w;
  }

  /**
    update_body_positions: every planet is put on its orbit around the sun,
    and then the moon on its orbit around the earth position just computed.
    The sun itself is not moved, and every orbit lies in the sun's plane.
  */
  function Positioned(env: Env, b: SolarBodies): (r: SolarBodies)
    ensures r.sun == b.sun
    ensures r.mercury == b.mercury.(pos := r.mercury.pos) && r.venus == b.venus.(pos := r.venus.pos)
    ensures r.earth == b.earth.(pos := r.earth.pos) && r.mars == b.mars.(pos := r.mars.pos)
    ensures r.moon == b.moon.(pos := r.moon.pos)
    ensures r.mercury.pos == OrbitPoint(env, b.sun.pos, b.sun.pos.y, b.mercury)
    ensures r.venus.pos == OrbitPoint(env, b.sun.pos, b.sun.pos.y, b.venus)
    ensures r.earth.pos == OrbitPoint(env, b.sun.pos, b.sun.pos.y, b.earth)
    ensures r.mars.pos == OrbitPoint(env, b.sun.pos, b.sun.pos.y, b.mars)
    ensures r.moon.pos == OrbitPoint(env, r.earth.pos, b.sun.pos.y, b.moon)
  {
    var venus := Placed(env, b.sun.pos, b.sun.pos.y, b.venus);
    var mercury := Placed(env, b.sun.pos, b.sun.pos.y, b.mercury);
    var mars := Placed(env, b.sun.pos, b.sun.pos.y, b.mars);
    var earth := Placed(env, b.sun.pos, b.sun.pos.y, b.earth);
    var moon := Placed(env, earth.pos, b.sun.pos.y, b.moon);
    SolarBodies(b.sun, mercury, venus, earth, moon, mars)
  }

  /** Every body advanced once by Planet::time_step with the same step. */
  function StepAll(env: Env, b: SolarBodies, dt: real): (r: SolarBodies)
  {
    SolarBodies(env.planetStep(b.sun, dt), env.planetStep(b.mercury, dt), env.planetStep(b.venus, dt),
                env.planetStep(b.earth, dt), env.planetStep(b.moon, dt), env.planetStep(b.mars, dt))
  }

  /**
    One active timer tick with step dt: the six bodies are stepped, then
    repositioned, the ship is updated, the path parameter is reset to 0 and
    the frame is aligned to the path's tangent there.
  */
  function Tick(env: Env, w: World, dt: real): (r: World)
    ensures Positioned(env, r.bodies) == r.bodies
    ensures r.stars == w.stars && r.shipPathParam == 0.0
  {
    PositionsAreFixedPoint(env, StepAll(env, w.bodies, dt));
    World(Positioned(env, StepAll(env, w.bodies, dt)), w.stars, env.updateShip(w.ship),
          env.alignTo(w.frame, env.pathTangent(0.0)), 0.0)
  }

  /**
    A tick steps each of the six bodies exactly once and changes nothing
    else about them but the planets' positions, which it leaves consistent
    with the new orbit angles. It does not move the starfield.
  */
  lemma TickStepsEachBodyOnce(env: Env, w: World, dt: real)
    ensures var r := Tick(env, w, dt);
      && r.bodies.sun == env.planetStep(w.bodies.sun, dt)
      && r.bodies.mercury == env.planetStep(w.bodies.mercury, dt).(pos := r.bodies.mercury.pos)
      && r.bodies.venus == env.planetStep(w.bodies.venus, dt).(pos := r.bodies.venus.pos)
      && r.bodies.earth == env.planetStep(w.bodies.earth, dt).(pos := r.bodies.earth.pos)
      && r.bodies.moon == env.planetStep(w.bodies.moon, dt).(pos := r.bodies.moon.pos)
      && r.bodies.mars == env.planetStep(w.bodies.mars, dt).(pos := r.bodies.mars.pos)
      && Positioned(env, r.bodies) == r.bodies
      && r.stars == w.stars && r.ship == env.updateShip(w.ship)
      && r.shipPathParam == 0.0 && r.frame == env.alignTo(w.frame, env.pathTangent(0.0))
  {
    PositionsAreFixedPoint(env, StepAll(env, w.bodies, dt));
  }

  /**
    Positions are a function of the orbit angles only: placing already
    placed bodies again changes nothing.
  */
  lemma PositionsAreFixedPoint(env: Env, b: SolarBodies)
    ensures Positioned(env, Positioned(env, b)) == Positioned(env, b)
  {
    var c, y := b.sun.pos, b.sun.pos.y;
    PlacedTwice(env, c, y, b.mercury);
    PlacedTwice(env, c, y, b.venus);
    PlacedTwice(env, c, y, b.earth);
    PlacedTwice(env, c, y, b.mars);
    PlacedTwice(env, Placed(env, c, y, b.earth).pos, y, b.moon);
  }

  /**
    Where cos and sin satisfy the Pythagorean identity at a body's orbit
    angle, its orbit point lies at exactly its distance from the centre.
  */
  lemma OrbitRadius(env: Env, center: Vec4, planeY: real, p: Planet)
    requires Sq(env.cos(p.angleOrbit)) + Sq(env.sin(p.angleOrbit)) == 1.0
    ensures var q := OrbitPoint(env, center, planeY, p);
      Sq(q.x - center.x) + Sq(q.z - center.z) == Sq(p.distance)
  {
    var c, s, d := env.cos(p.angleOrbit), env.sin(p.angleOrbit), p.distance;
    var q := OrbitPoint(env, center, planeY, p);
    assert q.x - center.x == d * c;
    assert q.z - center.z == d * s;
    calc {
      Sq(d * c) + Sq(d * s);
      d * d * (c * c + s * s);
      d * d;
    }
  }

  /**
    After update_body_positions all five orbiting bodies share the sun's
    plane, so the moon sits at exactly its orbit distance from the earth as
    it is AFTER the update.
  */
  lemma MoonOrbitsCurrentEarth(env: Env, b: SolarBodies)
    requires Sq(env.cos(b.moon.angleOrbit)) + Sq(env.sin(b.moon.angleOrbit)) == 1.0
    ensures var r := Positioned(env, b);
      && r.moon.pos.y == r.earth.pos.y
      && Sq(r.moon.pos.x - r.earth.pos.x) + Sq(r.moon.pos.y - r.earth.pos.y) + Sq(r.moon.pos.z - r.earth.pos.z)
         == Sq(b.moon.distance)
  {
    var r := Positioned(env, b);
    OrbitRadius(env, r.earth.pos, b.sun.pos.y, b.moon);
    assert Sq(r.moon.pos.y - r.earth.pos.y) == 0.0;
  }

  /**
    Every planet on the sun's orbits (all but the moon) lies in the sun's
    plane at its own distance from the sun.
  */
  lemma PlanetsOrbitSun(env: Env, b: SolarBodies, id: BodyId)
    requires id != Sun && id != Moon
    requires Sq(env.cos(BodyOf(b, id).angleOrbit)) + Sq(env.sin(BodyOf(b, id).angleOrbit)) == 1.0
    ensures var q := BodyOf(Positioned(env, b), id).pos;
      && q.y == b.sun.pos.y
      && q.w == BodyOf(b, id).pos.w
      && Sq(q.x - b.sun.pos.x) + Sq(q.z - b.sun.pos.z) == Sq(BodyOf(b, id).distance)
  {
    OrbitRadius(env, b.sun.pos, b.sun.pos.y, BodyOf(b, id));
  }
}
