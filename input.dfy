/**
  The viewer's controls and what the keyboard handler does to them: the
  camera target, the distance factor, the view angles, the toggles, the
  time step and the curve display mode.
*/
module Input {
  import opened Wrappers
  import opened Glfw
  import opened Bodies
  import Scene

  /** dist_factor_ in tenths: 2.5, 20.0 and the initial 4.5. */
  const MinDistTenths := 25
  const MaxDistTenths := 200
  const InitialDistTenths := 45

  /** The fields of the viewer that the keyboard handler sets. */
  datatype Controls = Controls(
    lookAt: Option<BodyId>,
    inShip: bool,
    distTenths: int,
    timeStep: real,
    greyscale: bool,
    timerActive: bool,
    curveMode: int,
    xAngle: real,
    yAngle: real,
    closeRequested: bool)

  datatype KeyEvent = KeyEvent(key: int, action: int)

  predicate IsActive(action: int)
  {
    action == ActionPress || action == ActionRepeat
  }

  predicate IsBodyKey(key: int)
  {
    Key1 <= key <= Key6
  }

  predicate IsFasterKey(key: int)
  {
    key == KeyP || key == KeyKpAdd || key == KeyEqual
  }

  predicate IsSlowerKey(key: int)
  {
    key == KeyM || key == KeyKpSubtract || key == KeyMinus
  }

  /**
    What every reachable state satisfies: exactly one of "a body is the
    target" and "ship mode", the distance factor within [2.5, 20.0], a
    curve mode in range and a positive time step.
  */
  predicate ValidControls(c: Controls)
  {
    && (c.inShip <==> c.lookAt.None?)
    && MinDistTenths <= c.distTenths <= MaxDistTenths
    && 0 <= c.curveMode < Scene.CurveShowNumModes
    && c.timeStep > 0.0
  }

  /** The constructor's settings; the initial curve mode comes from the class declaration. */
  function InitialControls(curveMode: int): Controls
  {
    Controls(Some(Earth), false, InitialDistTenths, 1.0 / 24.0, false, true, curveMode, 0.0, 0.0, false)
  }

  /** Keys 1..6, handled before the switch: look at that body, leave the ship. */
  function SelectTarget(c: Controls, key: int): (r: Controls)
    ensures ValidControls(c) ==> ValidControls(r)
  {
    if IsBodyKey(key) then c.(inShip := false, lookAt := Some(BodyAt(key - Key1))) else c
  }

  /**
    The switch of the keyboard handler, as far as it concerns the controls.
    R restores the time step it borrows, and W, S, A, D and T act on the
    ship and the path frame only.
  */
  function SwitchKey(c: Controls, key: int): (r: Controls)
    ensures ValidControls(c) ==> ValidControls(r)
  {
    if key == Key7 then c.(lookAt := None, inShip := true)
    else if key == Key8 then
      (if c.distTenths > MinDistTenths then c.(distTenths := c.distTenths - 1) else c)
    else if key == Key9 then
      (if c.distTenths < MaxDistTenths then c.(distTenths := c.distTenths + 1) else c)
    else if key == KeyG then c.(greyscale := !c.greyscale)
    else if key == KeyC then c.(curveMode := (c.curveMode + 1) % Scene.CurveShowNumModes)
    else if key == KeyLeft then c.(yAngle := c.yAngle - 10.0)
    else if key == KeyRight then c.(yAngle := c.yAngle + 10.0)
    else if key == KeyDown then c.(xAngle := c.xAngle + 10.0)
    else if key == KeyUp then c.(xAngle := c.xAngle - 10.0)
    else if key == KeySpace then c.(timerActive := !c.timerActive)
    else if IsFasterKey(key) then c.(timeStep := c.timeStep * 2.0)
    else if IsSlowerKey(key) then c.(timeStep := c.timeStep * 0.5)
    else if key == KeyEscape then c.(closeRequested := true)
    else c
  }

  /** One call of the keyboard handler; only a press or a repeat does anything. */
  function OnKey(c: Controls, key: int, action: int): (r: Controls)
    ensures ValidControls(c) ==> ValidControls(r)
  {
    if IsActive(action) then SwitchKey(SelectTarget(c, key), key) else c
  }

  /** The controls after a sequence of key events, the first one first. */
  function OnKeys(c: Controls, events: seq<KeyEvent>): Controls
    decreases |events|
  {
    if events == [] then c else OnKeys(OnKey(c, events[0].key, events[0].action), events[1..])
  }

  /** n presses of the same key. */
  function Presses(key: int, n: nat): seq<KeyEvent>
  {
    if n == 0 then [] else [KeyEvent(key, ActionPress)] + Presses(key, n - 1)
  }

  lemma {:induction false} OnKeysCons(c: Controls, e: KeyEvent, rest: seq<KeyEvent>)
    ensures OnKeys(c, [e] + rest) == OnKeys(OnKey(c, e.key, e.action), rest)
  {
    assert ([e] + rest)[1..] == rest;
  }

  /** Every state reachable by key events satisfies the invariant. */
  lemma {:induction false} ValidAfterKeys(c: Controls, events: seq<KeyEvent>)
    requires ValidControls(c)
    ensures ValidControls(OnKeys(c, events))
    decreases |events|
  {
    if events != [] {
      ValidAfterKeys(OnKey(c, events[0].key, events[0].action), events[1..]);
    }
  }

  /**
    From the initial 4.5, no sequence of keys moves the distance factor out
    of [2.5, 20.0], and there is always exactly one target.
  */
  lemma DistanceStaysInRange(curveMode: int, events: seq<KeyEvent>)
    requires 0 <= curveMode < Scene.CurveShowNumModes
    ensures var c := OnKeys(InitialControls(curveMode), events);
      && MinDistTenths <= c.distTenths <= MaxDistTenths
      && (c.inShip <==> c.lookAt.None?)
  {
    ValidAfterKeys(InitialControls(curveMode), events);
  }

  /** Keys 8 and 9 move the distance by one tenth, each only on its own side of the bounds. */
  lemma DistanceKeys(c: Controls, action: int)
    requires IsActive(action)
    ensures OnKey(c, Key8, action) == if c.distTenths > MinDistTenths then c.(distTenths := c.distTenths - 1) else c
    ensures OnKey(c, Key9, action) == if c.distTenths < MaxDistTenths then c.(distTenths := c.distTenths + 1) else c
  {
  }

  /** Keys 1..6 select {sun, mercury, venus, earth, moon, mars}[key - 1] and leave ship mode; key 7 enters it. */
  lemma TargetSelection(c: Controls, key: int, action: int)
    requires IsActive(action)
    ensures IsBodyKey(key) ==> OnKey(c, key, action) == c.(inShip := false, lookAt := Some(BodyAt(key - Key1)))
    ensures key == Key7 ==> OnKey(c, key, action) == c.(inShip := true, lookAt := None)
    ensures !IsBodyKey(key) && key != Key7 ==>
      OnKey(c, key, action).inShip == c.inShip && OnKey(c, key, action).lookAt == c.lookAt
  {
  }

  /** A release, or any action other than a press or a repeat, changes nothing. */
  lemma InactiveActionIgnored(c: Controls, key: int, action: int)
    requires !IsActive(action)
    ensures OnKey(c, key, action) == c
  {
  }

  /** G and SPACE each flip one flag and nothing else, so pressing one twice restores the state. */
  lemma TogglesAreInvolutions(c: Controls, action: int)
    requires IsActive(action)
    ensures OnKey(c, KeyG, action) == c.(greyscale := !c.greyscale)
    ensures OnKey(c, KeySpace, action) == c.(timerActive := !c.timerActive)
    ensures OnKey(OnKey(c, KeyG, action), KeyG, action) == c
    ensures OnKey(OnKey(c, KeySpace, action), KeySpace, action) == c
  {
  }

  /** The arrow keys turn the view by exactly 10 degrees about one axis. */
  lemma ArrowKeys(c: Controls, action: int)
    requires IsActive(action)
    ensures OnKey(c, KeyLeft, action) == c.(yAngle := c.yAngle - 10.0)
    ensures OnKey(c, KeyRight, action) == c.(yAngle := c.yAngle + 10.0)
    ensures OnKey(c, KeyDown, action) == c.(xAngle := c.xAngle + 10.0)
    ensures OnKey(c, KeyUp, action) == c.(xAngle := c.xAngle - 10.0)
  {
  }

  /** The randomize key leaves every control as it was, the time step included. */
  lemma RandomizeKeepsControls(c: Controls, action: int)
    ensures OnKey(c, KeyR, action) == c
  {
  }

  /** 2 to the power n, for any integer n. */
  function Pow2(n: int): (r: real)
    decreases if n < 0 then -n else n
  {
    if n == 0 then 1.0 else if n > 0 then 2.0 * Pow2(n - 1) else Pow2(n + 1) / 2.0
  }

  /** t doubled k times, or halved -k times when k is negative. */
  function Scaled(t: real, k: int): (r: real)
    decreases if k < 0 then -k else k
  {
    if k == 0 then t else if k > 0 then Scaled(t, k - 1) * 2.0 else Scaled(t, k + 1) * 0.5
  }

  /** Doubling or halving k times is scaling by 2^k. */
  lemma {:induction false} ScaledIsPow2(t: real, k: int)
    ensures Scaled(t, k) == t * Pow2(k)
    decreases if k < 0 then -k else k
  {
    if k > 0 {
      ScaledIsPow2(t, k - 1);
      assert (t * Pow2(k - 1)) * 2.0 == t * (2.0 * Pow2(k - 1));
    } else if k < 0 {
      ScaledIsPow2(t, k + 1);
      assert (t * Pow2(k + 1)) * 0.5 == t * (Pow2(k + 1) / 2.0);
    }
  }

  /** Doubling first is one more doubling afterwards. */
  lemma {:induction false} DoubledFirst(t: real, n: int)
    ensures Scaled(t * 2.0, n) == Scaled(t, n + 1)
    decreases if n < 0 then -n else n
  {
    if n > 0 {
      DoubledFirst(t, n - 1);
    } else if n < -1 {
      DoubledFirst(t, n + 1);
    }
  }

  /** Halving first is one more halving afterwards. */
  lemma {:induction false} HalvedFirst(t: real, n: int)
    ensures Scaled(t * 0.5, n) == Scaled(t, n - 1)
    decreases if n < 0 then -n else n
  {
    if n > 1 {
      HalvedFirst(t, n - 1);
    } else if n < 0 {
      HalvedFirst(t, n + 1);
    }
  }

  /** +1 for a key that doubles the time step, -1 for one that halves it, 0 otherwise. */
  function StepExponent(e: KeyEvent): int
  {
    if !IsActive(e.action) then 0
    else if IsFasterKey(e.key) then 1
    else if IsSlowerKey(e.key) then -1
    else 0
  }

  function NetDoublings(events: seq<KeyEvent>): int
  {
    if events == [] then 0 else StepExponent(events[0]) + NetDoublings(events[1..])
  }

  /** What one key event does to the time step: double it, halve it, or keep it. */
  function ScaleStep(t: real, e: KeyEvent): real
  {
    if StepExponent(e) == 1 then t * 2.0 else if StepExponent(e) == -1 then t * 0.5 else t
  }

  /** The time step after a key sequence, following the time step alone. */
  function StepAfter(t: real, events: seq<KeyEvent>): real
    decreases |events|
  {
    if events == [] then t else StepAfter(ScaleStep(t, events[0]), events[1..])
  }

  /** Only the faster and slower keys of the switch touch the time step. */
  lemma SwitchKeyTimeStep(c: Controls, key: int)
    ensures SwitchKey(c, key).timeStep ==
      if IsFasterKey(key) then c.timeStep * 2.0 else if IsSlowerKey(key) then c.timeStep * 0.5 else c.timeStep
  {
  }

  lemma OnKeyTimeStep(c: Controls, e: KeyEvent)
    ensures OnKey(c, e.key, e.action).timeStep == ScaleStep(c.timeStep, e)
  {
    if IsActive(e.action) {
      var c1 := SelectTarget(c, e.key);
      assert c1.timeStep == c.timeStep;
      SwitchKeyTimeStep(c1, e.key);
    }
  }

  /** The time step of the whole controls follows StepAfter. */
  lemma {:induction false} OnKeysTimeStep(c: Controls, events: seq<KeyEvent>)
    ensures OnKeys(c, events).timeStep == StepAfter(c.timeStep, events)
    decreases |events|
  {
    if events != [] {
      OnKeyTimeStep(c, events[0]);
      OnKeysTimeStep(OnKey(c, events[0].key, events[0].action), events[1..]);
    }
  }

  /** One event's scaling, then n more doublings, is the event's exponent plus n doublings. */
  lemma ScaleThenScaled(t: real, e: KeyEvent, n: int)
    ensures Scaled(ScaleStep(t, e), n) == Scaled(t, StepExponent(e) + n)
  {
    if StepExponent(e) == 1 {
      DoubledFirst(t, n);
    } else if StepExponent(e) == -1 {
      HalvedFirst(t, n);
    }
  }

  lemma {:induction false} StepAfterScaling(t: real, events: seq<KeyEvent>)
    ensures StepAfter(t, events) == Scaled(t, NetDoublings(events))
    decreases |events|
  {
    if events != [] {
      StepAfterScaling(ScaleStep(t, events[0]), events[1..]);
      ScaleThenScaled(t, events[0], NetDoublings(events[1..]));
    }
  }

  /**
    After any key sequence the time step is the old one doubled as many
    times as there were doublings minus halvings (halved when that number
    is negative): by ScaledIsPow2, the old one times 2 to that number.
  */
  lemma TimeStepScaling(c: Controls, events: seq<KeyEvent>)
    ensures OnKeys(c, events).timeStep == Scaled(c.timeStep, NetDoublings(events))
  {
    OnKeysTimeStep(c, events);
    StepAfterScaling(c.timeStep, events);
  }

  lemma {:induction false} NetDoublingsCons(e: KeyEvent, rest: seq<KeyEvent>)
    ensures NetDoublings([e] + rest) == StepExponent(e) + NetDoublings(rest)
  {
    assert ([e] + rest)[1..] == rest;
  }

  /** Doubling then halving the time step gives it back. */
  lemma DoubleThenHalve(c: Controls)
    ensures OnKeys(c, [KeyEvent(KeyP, ActionPress), KeyEvent(KeyM, ActionPress)]).timeStep == c.timeStep
  {
    var p, m := KeyEvent(KeyP, ActionPress), KeyEvent(KeyM, ActionPress);
    TimeStepScaling(c, [p, m]);
    NetDoublingsCons(p, [m]);
    NetDoublingsCons(m, []);
    assert [p] + [m] == [p, m];
    assert [m] + [] == [m];
  }

  /** Two doublings from the initial hour give four hours, 4/24 of a day. */
  lemma TwoDoublingsFromOneHour(curveMode: int)
    ensures OnKeys(InitialControls(curveMode), Presses(KeyP, 2)).timeStep == 4.0 / 24.0
  {
    var p := KeyEvent(KeyP, ActionPress);
    var events := Presses(KeyP, 2);
    TimeStepScaling(InitialControls(curveMode), events);
    assert events == [p] + ([p] + []);
    NetDoublingsCons(p, [p] + []);
    NetDoublingsCons(p, []);
    assert Scaled(1.0 / 24.0, 2) == 4.0 / 24.0;
  }

  /** Pressing C n times advances the curve mode by n, modulo the number of modes, and changes nothing else. */
  lemma {:induction false} CurveModeAfterPresses(c: Controls, n: nat)
    requires 0 <= c.curveMode < Scene.CurveShowNumModes
    ensures OnKeys(c, Presses(KeyC, n)) == c.(curveMode := (c.curveMode + n) % Scene.CurveShowNumModes)
    decreases n
  {
    if n > 0 {
      var c1 := OnKey(c, KeyC, ActionPress);
      assert c1 == c.(curveMode := (c.curveMode + 1) % Scene.CurveShowNumModes);
      OnKeysCons(c, KeyEvent(KeyC, ActionPress), Presses(KeyC, n - 1));
      CurveModeAfterPresses(c1, n - 1);
      assert (c1.curveMode + (n - 1)) % Scene.CurveShowNumModes == (c.curveMode + n) % Scene.CurveShowNumModes;
    }
  }

  /** After as many presses of C as there are modes, the curve mode is back where it started. */
  lemma CurveModeCycles(c: Controls)
    requires 0 <= c.curveMode < Scene.CurveShowNumModes
    ensures OnKeys(c, Presses(KeyC, Scene.CurveShowNumModes)) == c
  {
    CurveModeAfterPresses(c, Scene.CurveShowNumModes);
    assert (c.curveMode + Scene.CurveShowNumModes) % Scene.CurveShowNumModes == c.curveMode;
  }
}
