/**
  The command sequence of draw_scene: which objects are drawn, in which
  order, with which shader, with which greyscale flag, and whether
  blending is on while each is drawn.
*/
module Scene {
  import opened Wrappers
  import opened Bodies

  /** The curve display modes the C key cycles through. */
  const CurveShowNone := 0
  const CurveShowPath := 1
  const CurveShowPathCp := 2
  const CurveShowPathFrame := 3
  const CurveShowNumModes := 4

  datatype Drawable = FrameAxes | ControlPolygon | PathCurve | Body(id: BodyId) | Spaceship | Starfield | SunGlow
  {
    /** The debug overlays of the ship's path. */
    predicate IsOverlay()
    {
      FrameAxes? || ControlPolygon? || PathCurve?
    }
  }

  datatype Shader = SolidColorShader | SunShader | PhongShader | EarthShader | ColorShader

  /**
    One draw: the object, the program in use, whether GL_BLEND is enabled,
    the value given to the program's "greyscale" uniform (None when it is
    not set) and the value of the sun program's time uniform "t".
  */
  datatype DrawCmd = DrawCmd(obj: Drawable, shader: Shader, blend: bool, greyscale: Option<bool>, animationTime: Option<real>)

  /** The overlays that each display mode shows before the scene. */
  function OverlaysFor(mode: int): seq<Drawable>
  {
    if mode == CurveShowPathFrame then [FrameAxes, ControlPolygon, PathCurve]
    else if mode == CurveShowPathCp then [ControlPolygon, PathCurve]
    else if mode == CurveShowPath then [PathCurve]
    else []
  }

  /** The array of simply shaded planets drawn after the sun. */
  const PlanetLoop: seq<BodyId> := [Mercury, Venus, Moon, Mars]

  /** The objects of every frame after the overlays: opaque ones first, the glow last. */
  const SceneOrder: seq<Drawable> :=
    [Body(Sun), Body(Mercury), Body(Venus), Body(Moon), Body(Mars), Body(Earth), Spaceship, Starfield, SunGlow]

  /** The program each object is drawn with. */
  function ShaderFor(obj: Drawable): Shader
  {
    match obj
    case FrameAxes => SolidColorShader
    case ControlPolygon => SolidColorShader
    case PathCurve => SolidColorShader
    case Body(id) => if id == Sun then SunShader else if id == Earth then EarthShader else PhongShader
    case Spaceship => PhongShader
    case Starfield => ColorShader
    case SunGlow => ColorShader
  }

  /**
    A draw is as the scene needs it: the object's own program, blending on
    exactly for the glow, the greyscale flag passed to every draw except the
    overlays, and the animation time passed to the sun only.
  */
  predicate DrawnAsSpecified(cmd: DrawCmd, greyscale: bool, sunTime: real)
  {
    && cmd.shader == ShaderFor(cmd.obj)
    && (cmd.blend <==> cmd.obj == SunGlow)
    && cmd.greyscale == (if cmd.obj.IsOverlay() then None else Some(greyscale))
    && cmd.animationTime == (if cmd.obj == Body(Sun) then Some(sunTime) else None)
  }

  /** The mode's overlays, then the first m objects of the scene in order, every draw as specified. */
  predicate FramePrefix(cmds: seq<DrawCmd>, mode: int, greyscale: bool, sunTime: real, m: nat)
    requires m <= |SceneOrder|
  {
    var n := |OverlaysFor(mode)|;
    && |cmds| == n + m
    && (forall k :: 0 <= k < n ==> cmds[k].obj == OverlaysFor(mode)[k])
    && (forall k :: 0 <= k < m ==> cmds[n + k].obj == SceneOrder[k])
    && (forall k :: 0 <= k < |cmds| ==> DrawnAsSpecified(cmds[k], greyscale, sunTime))
  }

  /** A whole frame: the mode's overlays, then the scene in its fixed order, every draw as specified. */
  predicate IsFrame(cmds: seq<DrawCmd>, mode: int, greyscale: bool, sunTime: real)
  {
    FramePrefix(cmds, mode, greyscale, sunTime, |SceneOrder|)
  }

  /** Appending the next object of the scene, drawn as specified, extends a prefix of the frame. */
  lemma ExtendPrefix(cmds: seq<DrawCmd>, cmd: DrawCmd, mode: int, greyscale: bool, sunTime: real, m: nat)
    requires m < |SceneOrder| && FramePrefix(cmds, mode, greyscale, sunTime, m)
    requires cmd.obj == SceneOrder[m] && DrawnAsSpecified(cmd, greyscale, sunTime)
    ensures FramePrefix(cmds + [cmd], mode, greyscale, sunTime, m + 1)
  {
    var n := |OverlaysFor(mode)|;
    var c' := cmds + [cmd];
    assert forall k :: 0 <= k < |cmds| ==> c'[k] == cmds[k];
    assert c'[n + m] == cmd;
  }

  /**
    The overlay switch of draw_scene. It has no break, so entering it at a
    mode also runs every case after it.
  */
  method DrawOverlays(mode: int, blend: bool) returns (cmds: seq<DrawCmd>)
    requires !blend
    ensures |cmds| == |OverlaysFor(mode)|
    ensures forall k :: 0 <= k < |cmds| ==> cmds[k] == DrawCmd(OverlaysFor(mode)[k], SolidColorShader, false, None, None)
  {
    cmds := [];
    var fallThrough := false;
    if mode == CurveShowPathFrame {
      cmds := cmds + [DrawCmd(FrameAxes, SolidColorShader, blend, None, None)];
      fallThrough := true;
    }
    if fallThrough || mode == CurveShowPathCp {
      cmds := cmds + [DrawCmd(ControlPolygon, SolidColorShader, blend, None, None)];
      fallThrough := true;
    }
    if fallThrough || mode == CurveShowPath {
      cmds := cmds + [DrawCmd(PathCurve, SolidColorShader, blend, None, None)];
    }
  }

  /** The overlays, drawn with the solid colour program and blending off, are the start of every frame. */
  lemma OverlaysStartFrame(cmds: seq<DrawCmd>, mode: int, greyscale: bool, sunTime: real)
    requires |cmds| == |OverlaysFor(mode)|
    requires forall k :: 0 <= k < |cmds| ==> cmds[k] == DrawCmd(OverlaysFor(mode)[k], SolidColorShader, false, None, None)
    ensures FramePrefix(cmds, mode, greyscale, sunTime, 0)
  {
    forall k | 0 <= k < |cmds|
      ensures DrawnAsSpecified(cmds[k], greyscale, sunTime)
    {
      assert OverlaysFor(mode)[k].IsOverlay();
    }
  }

  /** The loop of draw_scene over the simply shaded planets, with blending off. */
  method DrawPlanets(prefix: seq<DrawCmd>, mode: int, greyscale: bool, sunTime: real) returns (cmds: seq<DrawCmd>)
    requires FramePrefix(prefix, mode, greyscale, sunTime, 1)
    ensures FramePrefix(cmds, mode, greyscale, sunTime, 1 + |PlanetLoop|)
    ensures cmds[..|prefix|] == prefix
  {
    cmds := prefix;
    var planets := PlanetLoop;
    var i := 0;
    while i < |planets|
      invariant 0 <= i <= |planets|
      invariant FramePrefix(cmds, mode, greyscale, sunTime, 1 + i)
      invariant |prefix| <= |cmds| && cmds[..|prefix|] == prefix
    {
      var planet := DrawCmd(Body(planets[i]), PhongShader, false, Some(greyscale), None);
      ExtendPrefix(cmds, planet, mode, greyscale, sunTime, 1 + i);
      cmds := cmds + [planet];
      i := i + 1;
    }
  }

  /**
    draw_scene's sequence of draws: the overlays, the sun, the planets of
    the array in its order, the earth, the ship, the stars and the glow.
    Blending starts off (as every frame leaves it), is enabled just before
    the glow and disabled again after it; `blend` is the state left for
    the next frame.
  */
  method ComposeScene(mode: int, greyscale: bool, sunTime: real) returns (cmds: seq<DrawCmd>, blend: bool)
    ensures IsFrame(cmds, mode, greyscale, sunTime)
    ensures !blend
  {
    blend := false;
    cmds := DrawOverlays(mode, blend);
    OverlaysStartFrame(cmds, mode, greyscale, sunTime);

    var sun := DrawCmd(Body(Sun), SunShader, blend, Some(greyscale), Some(sunTime));
    ExtendPrefix(cmds, sun, mode, greyscale, sunTime, 0);
    cmds := cmds + [sun];

    cmds := DrawPlanets(cmds, mode, greyscale, sunTime);

    var earth := DrawCmd(Body(Earth), EarthShader, blend, Some(greyscale), None);
    ExtendPrefix(cmds, earth, mode, greyscale, sunTime, 5);
    cmds := cmds + [earth];
    var ship := DrawCmd(Spaceship, PhongShader, blend, Some(greyscale), None);
    ExtendPrefix(cmds, ship, mode, greyscale, sunTime, 6);
    cmds := cmds + [ship];
    var stars := DrawCmd(Starfield, ColorShader, blend, Some(greyscale), None);
    ExtendPrefix(cmds, stars, mode, greyscale, sunTime, 7);
    cmds := cmds + [stars];
    blend := true;
    var glow := DrawCmd(SunGlow, ColorShader, blend, Some(greyscale), None);
    ExtendPrefix(cmds, glow, mode, greyscale, sunTime, 8);
    cmds := cmds + [glow];
    blend := false;
  }

  /** Blending is on for exactly one draw of every frame, the last one, the glow. */
  lemma BlendOnlyForGlow(cmds: seq<DrawCmd>, mode: int, greyscale: bool, sunTime: real, i: int)
    requires IsFrame(cmds, mode, greyscale, sunTime)
    requires 0 <= i < |cmds|
    ensures cmds[i].blend <==> i == |cmds| - 1
  {
    var n := |OverlaysFor(mode)|;
    if i < n {
      assert cmds[i].obj == OverlaysFor(mode)[i];
    } else {
      assert cmds[n + (i - n)].obj == SceneOrder[i - n];
    }
  }

  /** A frame is determined by the mode, the greyscale flag and the sun's time. */
  lemma FrameIsUnique(a: seq<DrawCmd>, b: seq<DrawCmd>, mode: int, greyscale: bool, sunTime: real)
    requires IsFrame(a, mode, greyscale, sunTime) && IsFrame(b, mode, greyscale, sunTime)
    ensures a == b
  {
    var n := |OverlaysFor(mode)|;
    forall i | 0 <= i < |a| ensures a[i] == b[i] {
      if i < n {
        assert a[i].obj == OverlaysFor(mode)[i] == b[i].obj;
      } else {
        assert a[n + (i - n)].obj == SceneOrder[i - n] == b[n + (i - n)].obj;
      }
    }
  }
}
