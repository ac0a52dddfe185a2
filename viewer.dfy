/**
  The solar viewer object: its fields, its constructor, the keyboard
  handler, the timer, update_body_positions, randomize_planets, the
  choice of camera target in paint, and draw_scene.
*/
module Viewer {
  import opened Wrappers
  import opened Glfw
  import opened Geometry
  import opened Bodies
  import opened Input
  import opened Scene

  /** The ship's radius is scaled by this factor when the camera follows it. */
  const OffsetShip: real := 4.0

  /** The speed and heading changes of the W, S, A and D keys. */
  const Thrust: real := 0.001
  const Turn: real := 0.02

  /** What the sun's animation time advances by per frame while the timer runs. */
  const AnimationStep: real := 0.01

  /** The step that randomize_planets takes: rand() % 20000 days, for the rand() value rnd. */
  function RandomStep(rnd: nat): real
  {
    (rnd % 20000) as real
  }

  /**
    What the keyboard handler does to the bodies, the ship and the path
    frame, given the controls before the key: R runs the timer once with a
    random step (so it does nothing while the timer is paused), W/S/A/D
    steer the ship only in ship mode, and T switches parallel transport.
  */
  function WorldOnKey(env: Env, c: Controls, w: World, key: int, action: int, rnd: nat): (r: World)
    ensures !IsActive(action) ==> r == w
    ensures r.stars == w.stars
    ensures key != KeyR ==> r.bodies == w.bodies && r.shipPathParam == w.shipPathParam
    ensures key == KeyR && !c.timerActive ==> r == w
    ensures !IsWorldKey(key) ==> r == w
  {
    if !IsActive(action) then w
    else if key == KeyR then (if c.timerActive then Tick(env, w, RandomStep(rnd)) else w)
    else if key == KeyW then (if c.inShip then w.(ship := env.accelerate(w.ship, Thrust)) else w)
    else if key == KeyS then (if c.inShip then w.(ship := env.accelerate(w.ship, -Thrust)) else w)
    else if key == KeyA then (if c.inShip then w.(ship := env.accelerateAngular(w.ship, Turn)) else w)
    else if key == KeyD then (if c.inShip then w.(ship := env.accelerateAngular(w.ship, -Turn)) else w)
    else if key == KeyT then w.(frame := w.frame.(parallelTransport := !w.frame.parallelTransport))
    else w
  }

  /** The keys whose cases act on the bodies, the ship or the path frame rather than on the controls. */
  predicate IsWorldKey(key: int)
  {
    key == KeyR || key == KeyW || key == KeyS || key == KeyA || key == KeyD || key == KeyT
  }

  /** Keys 1..6 act only on the controls, so the switch sees the world as the selection left it. */
  lemma SelectionKeepsWorldKeys(env: Env, c: Controls, w: World, key: int, action: int, rnd: nat)
    requires IsActive(action)
    ensures WorldOnKey(env, SelectTarget(c, key), w, key, ActionPress, rnd) == WorldOnKey(env, c, w, key, action, rnd)
  {
  }

  /** The keys that act on the world leave every control as it was. */
  lemma WorldKeysKeepControls(c: Controls, key: int)
    requires IsWorldKey(key)
    ensures SwitchKey(c, key) == c
  {
  }

  /** The keys that set the controls leave the bodies, the ship and the frame as they were. */
  lemma ControlKeysKeepWorld(env: Env, c: Controls, w: World, key: int, rnd: nat)
    requires !IsWorldKey(key)
    ensures WorldOnKey(env, c, w, key, ActionPress, rnd) == w
  {
  }

  /** The centre the camera looks at and the radius its distance is measured in. */
  datatype Target = Target(center: Vec4, radius: real)

  /** paint's choice: the ship (radius times 4) in ship mode, otherwise the selected body. */
  function Focus(c: Controls, w: World): (r: Target)
    requires c.inShip || c.lookAt.Some?
    ensures c.inShip ==> r.center == w.ship.pos && r.radius == OffsetShip * w.ship.radius
    ensures !c.inShip ==> r == Target(BodyOf(w.bodies, c.lookAt.value).pos, BodyOf(w.bodies, c.lookAt.value).radius)
  {
    if c.inShip then Target(w.ship.pos, w.ship.radius * OffsetShip)
    else var p := BodyOf(w.bodies, c.lookAt.value); Target(p.pos, p.radius)
  }

  /** Ship commands leave the whole world unchanged unless the viewer is in ship mode, and steer it when it is. */
  lemma ShipCommandsGated(env: Env, c: Controls, w: World, key: int, action: int, rnd: nat)
    requires key == KeyW || key == KeyS || key == KeyA || key == KeyD
    ensures !c.inShip || !IsActive(action) ==> WorldOnKey(env, c, w, key, action, rnd) == w
    ensures c.inShip && IsActive(action) ==> WorldOnKey(env, c, w, key, action, rnd) == w.(ship :=
      if key == KeyW then env.accelerate(w.ship, 0.001)
      else if key == KeyS then env.accelerate(w.ship, -0.001)
      else if key == KeyA then env.accelerateAngular(w.ship, 0.02)
      else env.accelerateAngular(w.ship, -0.02))
  {
  }

  /** A release changes nothing at all, and neither does any key the handler does not know. */
  lemma IgnoredEventsChangeNothing(env: Env, c: Controls, w: World, key: int, action: int, rnd: nat)
    requires !IsActive(action) || key !in {Key1, Key2, Key3, Key4, Key5, Key6, Key7, Key8, Key9, KeyR, KeyG,
      KeyW, KeyS, KeyA, KeyD, KeyC, KeyT, KeyLeft, KeyRight, KeyDown, KeyUp, KeySpace, KeyP, KeyKpAdd, KeyEqual,
      KeyM, KeyKpSubtract, KeyMinus, KeyEscape}
    ensures OnKey(c, key, action) == c
    ensures WorldOnKey(env, c, w, key, action, rnd) == w
  {
  }

  /** In every reachable state paint has a target: a body unless in ship mode. */
  lemma FocusDefined(c: Controls)
    requires ValidControls(c)
    ensures c.inShip || c.lookAt.Some?
  {
  }

  /**
    After key 1..6 the camera looks at that body's current centre, at its
    own radius, and the ship is not followed; after key 7 it follows the
    ship. The key moves no body, so the target is where the body is now.
  */
  lemma FocusAfterSelection(env: Env, c: Controls, w: World, key: int, action: int, rnd: nat)
    requires IsActive(action)
    requires IsBodyKey(key) || key == Key7
    ensures var c', w' := OnKey(c, key, action), WorldOnKey(env, c, w, key, action, rnd);
      && w' == w
      && (c'.inShip <==> key == Key7)
      && (IsBodyKey(key) ==>
            Focus(c', w') == Target(BodyOf(w.bodies, BodyAt(key - Key1)).pos, BodyOf(w.bodies, BodyAt(key - Key1)).radius))
      && (key == Key7 ==> Focus(c', w') == Target(w.ship.pos, w.ship.radius * 4.0))
  {
  }

  /** Key 4 selects the earth: the camera then looks at the earth's current position. */
  lemma SelectEarth(env: Env, c: Controls, w: World, rnd: nat)
    ensures var c' := OnKey(c, Key4, ActionPress);
      && !c'.inShip && Focus(c', w).center == w.bodies.earth.pos
  {
    FocusAfterSelection(env, c, w, Key4, ActionPress, rnd);
  }

  class SolarViewer {
    const env: Env

    var sun: Planet
    var mercury: Planet
    var venus: Planet
    var earth: Planet
    var moon: Planet
    var mars: Planet
    var stars: Planet
    var ship: Ship
    var frame: PathFrame
    var shipPathParam: real

    var timerActive: bool
    var timeStep: real
    var greyscale: bool
    var lookAt: Option<BodyId>
    var inShip: bool
    var xAngle: real
    var yAngle: real
    var distTenths: int
    var curveMode: int
    var closeRequested: bool

    /** The static sun_animation_time of draw_scene; there is one viewer. */
    var sunAnimationTime: real

    function ControlState(): Controls
      reads this`lookAt, this`inShip, this`distTenths, this`timeStep, this`greyscale, this`timerActive
      reads this`curveMode, this`xAngle, this`yAngle, this`closeRequested
    {
      Controls(lookAt, inShip, distTenths, timeStep, greyscale, timerActive, curveMode, xAngle, yAngle, closeRequested)
    }

    function SolarState(): SolarBodies
      reads this`sun, this`mercury, this`venus, this`earth, this`moon, this`mars
    {
      SolarBodies(sun, mercury, venus, earth, moon, mars)
    }

    function WorldState(): World
      reads this`sun, this`mercury, this`venus, this`earth, this`moon, this`mars
      reads this`stars, this`ship, this`frame, this`shipPathParam
    {
      World(SolarState(), stars, ship, frame, shipPathParam)
    }

    predicate Valid()
      reads this`lookAt, this`inShip, this`distTenths, this`timeStep, this`greyscale, this`timerActive
      reads this`curveMode, this`xAngle, this`yAngle, this`closeRequested
    {
      ValidControls(ControlState())
    }

    /**
      The constructor: the seven bodies built from their orbit speeds, radii and
      distances, the timer on with a step of one hour, the camera on the
      earth at 4.5 radii, and the ship 4.5 earth radii from the earth's
      centre along -z, heading +z at angle 180. The curve display mode and
      the path parameter are initialised in the class declaration.
    */
    constructor (env: Env, initialCurveMode: int, initialPathParam: real)
      requires 0 <= initialCurveMode < CurveShowNumModes
      ensures Valid()
      ensures this.env == env
      ensures ControlState() == InitialControls(initialCurveMode)
      ensures sun == env.newPlanet(0.0, 2.0 * Pi / 26.0, 1.0, 0.0)
      ensures mercury == env.newPlanet(2.0 * Pi / 116.0, 2.0 * Pi / 58.5, 0.075, -1.4)
      ensures venus == env.newPlanet(2.0 * Pi / 225.0, 2.0 * Pi / 243.0, 0.2, -2.2)
      ensures earth == env.newPlanet(2.0 * Pi / 365.0, 2.0 * Pi, 0.25, -3.3)
      ensures moon == env.newPlanet(2.0 * Pi / 27.0, 0.0, 0.04, -0.4)
      ensures mars == env.newPlanet(2.0 * Pi / 687.0, 2.0 * Pi * 24.0 / 25.0, 0.15, -5.0)
      ensures stars == env.newPlanet(0.0, 0.0, 21.0, 0.0)
      ensures ship == env.newShip.(pos := Minus(earth.pos, Vec4(0.0, 0.0, 4.5 * earth.radius, 0.0)),
                                   direction := Vec4(0.0, 0.0, 1.0, 0.0), angle := 180.0)
      ensures frame == env.newFrame && shipPathParam == initialPathParam && sunAnimationTime == 0.0
    {
      this.env := env;
      sun := env.newPlanet(0.0, 2.0 * Pi / 26.0, 1.0, 0.0);
      mercury := env.newPlanet(2.0 * Pi / 116.0, 2.0 * Pi / 58.5, 0.075, -1.4);
      venus := env.newPlanet(2.0 * Pi / 225.0, 2.0 * Pi / 243.0, 0.2, -2.2);
      earth := env.newPlanet(2.0 * Pi / 365.0, 2.0 * Pi, 0.25, -3.3);
      moon := env.newPlanet(2.0 * Pi / 27.0, 0.0, 0.04, -0.4);
      mars := env.newPlanet(2.0 * Pi / 687.0, 2.0 * Pi * 24.0 / 25.0, 0.15, -5.0);
      stars := env.newPlanet(0.0, 0.0, 21.0, 0.0);
      frame := env.newFrame;
      shipPathParam := initialPathParam;
      curveMode := initialCurveMode;
      sunAnimationTime := 0.0;
      closeRequested := false;

      timerActive := true;
      timeStep := 1.0 / 24.0;
      greyscale := false;
      lookAt := Some(Earth);
      xAngle := 0.0;
      yAngle := 0.0;
      distTenths := InitialDistTenths;
      ship := env.newShip;
      inShip := false;
      new;
      var target := earth;
      var distFactor := distTenths as real / 10.0;
      ship := env.newShip.(pos := Minus(target.pos, Vec4(0.0, 0.0, distFactor * target.radius, 0.0)),
                           direction := Vec4(0.0, 0.0, 1.0, 0.0), angle := 180.0);
    }

    /** update_body_positions, in the source's order: venus, mercury, mars, earth, then the moon. */
    method UpdateBodyPositions()
      modifies this`mercury, this`venus, this`earth, this`moon, this`mars
      ensures SolarState() == Positioned(env, old(SolarState()))
    {
      venus := venus.(pos := OrbitPoint(env, sun.pos, sun.pos.y, venus));
      mercury := mercury.(pos := OrbitPoint(env, sun.pos, sun.pos.y, mercury));
      mars := mars.(pos := OrbitPoint(env, sun.pos, sun.pos.y, mars));
      earth := earth.(pos := OrbitPoint(env, sun.pos, sun.pos.y, earth));
      moon := moon.(pos := OrbitPoint(env, earth.pos, sun.pos.y, moon));
    }

    /** The six Planet::time_step calls of timer, in its order. */
    method StepBodies(dt: real)
      modifies this`sun, this`mercury, this`venus, this`earth, this`moon, this`mars
      ensures SolarState() == StepAll(env, old(SolarState()), dt)
    {
      sun := env.planetStep(sun, dt);
      mercury := env.planetStep(mercury, dt);
      venus := env.planetStep(venus, dt);
      earth := env.planetStep(earth, dt);
      moon := env.planetStep(moon, dt);
      mars := env.planetStep(mars, dt);
    }

    /**
      timer: while the timer is paused nothing changes; otherwise the world
      advances by one tick of the time step. No control changes.
    */
    method Timer()
      modifies this`sun, this`mercury, this`venus, this`earth, this`moon, this`mars
      modifies this`ship, this`shipPathParam, this`frame
      ensures WorldState() == if old(timerActive) then Tick(env, old(WorldState()), old(timeStep)) else old(WorldState())
      ensures old(Valid()) ==> Valid()
    {
      if timerActive {
        Advance(timeStep);
      }
    }

    /**
      The body of timer's active branch: the six bodies are stepped by dt,
      repositioned, the ship updated and the path parameter reset, and the
      frame aligned to the path's tangent there.
    */
    method Advance(dt: real)
      modifies this`sun, this`mercury, this`venus, this`earth, this`moon, this`mars
      modifies this`ship, this`shipPathParam, this`frame
      ensures WorldState() == Tick(env, old(WorldState()), dt)
    {
      StepBodies(dt);
      UpdateBodyPositions();

      ship := env.updateShip(ship);

      shipPathParam := 0.0;
      shipPathParam := if shipPathParam >= 1.0 then 0.0 else shipPathParam;
      var tangent := env.pathTangent(shipPathParam);
      frame := env.alignTo(frame, tangent);
    }

    /** randomize_planets: one timer tick with a random step, the time step saved and restored around it. */
    method RandomizePlanets(rnd: nat)
      modifies this`sun, this`mercury, this`venus, this`earth, this`moon, this`mars
      modifies this`ship, this`shipPathParam, this`frame, this`timeStep
      ensures timeStep == old(timeStep)
      ensures WorldState() == if old(timerActive) then Tick(env, old(WorldState()), RandomStep(rnd)) else old(WorldState())
    {
      var savedStep := timeStep;
      timeStep := RandomStep(rnd);
      Timer();
      timeStep := savedStep;
    }

    /**
      keyboard: a press or a repeat of a key acts, anything else is ignored;
      rnd is the value rand() would return if the key is R.
    */
    method Keyboard(key: int, action: int, rnd: nat)
      requires Valid()
      modifies this
      ensures Valid()
      ensures ControlState() == OnKey(old(ControlState()), key, action)
      ensures WorldState() == WorldOnKey(env, old(ControlState()), old(WorldState()), key, action, rnd)
      ensures sunAnimationTime == old(sunAnimationTime)
    {
      if action == ActionPress || action == ActionRepeat {
        SelectionKeepsWorldKeys(env, ControlState(), WorldState(), key, action, rnd);
        SelectBody(key);
        SwitchOnKey(key, rnd);
      }
    }

    /** Keys 1..6, before the switch: look at {sun, mercury, venus, earth, moon, mars}[key - 1]. */
    method SelectBody(key: int)
      modifies this`inShip, this`lookAt
      ensures ControlState() == SelectTarget(old(ControlState()), key)
    {
      if Key1 <= key <= Key6 {
        var bodies := [Sun, Mercury, Venus, Earth, Moon, Mars];
        inShip := false;
        lookAt := Some(bodies[key - Key1]);
      }
    }

    /**
      The switch of the keyboard handler. Its cases fall in two groups that
      touch disjoint fields: those that act on the bodies, the ship and the
      path frame, and those that set the controls.
    */
    method SwitchOnKey(key: int, rnd: nat)
      modifies this
      ensures ControlState() == SwitchKey(old(ControlState()), key)
      ensures WorldState() == WorldOnKey(env, old(ControlState()), old(WorldState()), key, ActionPress, rnd)
      ensures sunAnimationTime == old(sunAnimationTime)
    {
      if IsWorldKey(key) {
        WorldKeysKeepControls(ControlState(), key);
        WorldKey(key, rnd);
      } else {
        ControlKeysKeepWorld(env, ControlState(), WorldState(), key, rnd);
        ControlKey(key);
      }
    }

    /** The cases R, W, S, A, D and T. */
    method WorldKey(key: int, rnd: nat)
      requires IsWorldKey(key)
      modifies this`sun, this`mercury, this`venus, this`earth, this`moon, this`mars
      modifies this`ship, this`shipPathParam, this`frame, this`timeStep
      ensures timeStep == old(timeStep)
      ensures WorldState() == WorldOnKey(env, ControlState(), old(WorldState()), key, ActionPress, rnd)
    {
      if key == KeyR {
        RandomizePlanets(rnd);
      } else if key == KeyT {
        frame := frame.(parallelTransport := !frame.parallelTransport);
      } else {
        SteerShip(key);
      }
    }

    /** The cases that set the controls: every key but R, W, S, A, D and T. */
    method ControlKey(key: int)
      requires !IsWorldKey(key)
      modifies this`lookAt, this`inShip, this`distTenths, this`timeStep, this`greyscale, this`timerActive
      modifies this`curveMode, this`xAngle, this`yAngle, this`closeRequested
      ensures ControlState() == SwitchKey(old(ControlState()), key)
    {
      if key == Key7 {
        lookAt := None;
        inShip := true;
      } else if key == Key8 {
        if distTenths > MinDistTenths {
          distTenths := distTenths - 1;
        }
      } else if key == Key9 {
        if distTenths < MaxDistTenths {
          distTenths := distTenths + 1;
        }
      } else if key == KeyG {
        greyscale := !greyscale;
      } else if key == KeyC {
        curveMode := (curveMode + 1) % CurveShowNumModes;
      } else if key == KeyLeft {
        yAngle := yAngle - 10.0;
      } else if key == KeyRight {
        yAngle := yAngle + 10.0;
      } else if key == KeyDown {
        xAngle := xAngle + 10.0;
      } else if key == KeyUp {
        xAngle := xAngle - 10.0;
      } else if key == KeySpace {
        timerActive := !timerActive;
      } else if key == KeyP || key == KeyKpAdd || key == KeyEqual {
        timeStep := timeStep * 2.0;
      } else if key == KeyM || key == KeyKpSubtract || key == KeyMinus {
        timeStep := timeStep * 0.5;
      } else if key == KeyEscape {
        closeRequested := true;
      }
    }

    /** The W, S, A and D cases: accelerate or turn the ship, in ship mode only. */
    method SteerShip(key: int)
      requires key == KeyW || key == KeyS || key == KeyA || key == KeyD
      modifies this`ship
      ensures WorldState() == WorldOnKey(env, ControlState(), old(WorldState()), key, ActionPress, 0)
    {
      if key == KeyW {
        if inShip {
          ship := env.accelerate(ship, Thrust);
        }
      } else if key == KeyS {
        if inShip {
          ship := env.accelerate(ship, -Thrust);
        }
      } else if key == KeyA {
        if inShip {
          ship := env.accelerateAngular(ship, Turn);
        }
      } else {
        if inShip {
          ship := env.accelerateAngular(ship, -Turn);
        }
      }
    }

    /** The centre and radius paint frames the camera on. */
    method ViewTarget() returns (target: Target)
      requires Valid()
      ensures target == Focus(ControlState(), WorldState())
    {
      var center := if inShip then ship.pos else BodyOf(SolarState(), lookAt.value).pos;
      var radius := if inShip then ship.radius * OffsetShip else BodyOf(SolarState(), lookAt.value).radius;
      target := Target(center, radius);
    }

    /** draw_scene: advance the sun's animation time while the timer runs, then issue the frame's draws. */
    method DrawScene() returns (cmds: seq<DrawCmd>)
      modifies this`sunAnimationTime
      ensures sunAnimationTime == old(sunAnimationTime) + (if timerActive then AnimationStep else 0.0)
      ensures IsFrame(cmds, curveMode, greyscale, sunAnimationTime)
      ensures old(Valid()) ==> Valid()
    {
      if timerActive {
        sunAnimationTime := sunAnimationTime + AnimationStep;
      }
      var blendAfter;
      cmds, blendAfter := ComposeScene(curveMode, greyscale, sunAnimationTime);
    }

    /** paint: the camera's target, then the scene's draws. */
    method Paint() returns (target: Target, cmds: seq<DrawCmd>)
      requires Valid()
      modifies this`sunAnimationTime
      ensures target == Focus(ControlState(), WorldState())
      ensures sunAnimationTime == old(sunAnimationTime) + (if timerActive then AnimationStep else 0.0)
      ensures IsFrame(cmds, curveMode, greyscale, sunAnimationTime)
      ensures Valid()
    {
      target := ViewTarget();
      cmds := DrawScene();
    }
  }
}
