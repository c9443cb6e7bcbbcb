/**
 * The camera-follow scene (CameraScene.swift): a world rectangle sized from
 * the first scene size, a player, a camera whose scale is clamped to
 * [0.5, 2.0] and whose position is confined by SpriteKit constraints, and
 * three parallax layers.  The constraint objects are modelled by the ranges
 * they carry; the solver that enforces them is not part of this model.
 * SKAction animations are modelled by their end values only.
 */
module Camera {
  import opened Geometry
  import opened Wrappers

  const MinScale: real := 0.5
  const MaxScale: real := 2.0
  const ZoomInStep: real := 0.85
  const ZoomOutStep: real := 1.15
  const FarFactor: real := 0.05
  const MidFactor: real := 0.15
  const NearFactor: real := 0.35

  /** An SKRange with both limits. */
  datatype Range = Range(lower: real, upper: real) {
    predicate Holds(v: real) { lower <= v <= upper }
  }

  /** The two constraint kinds the scene installs on its camera. */
  datatype Constraint =
    | PositionRange(xRange: Range, yRange: Range)  // SKConstraint.positionX(_:y:)
    | FollowPlayer(distance: Range)                 // SKConstraint.distance(_:to: player)

  /** The world rectangle `didMove(to:)` builds for a scene of size `size`. */
  function InitialWorld(size: Size): (w: Rect)
    ensures w.MinX() == 0.0 && w.MinY() == 0.0
    ensures w.Width() >= 2000.0 && w.Width() >= 2.0 * size.width
    ensures w.Height() >= 1500.0 && w.Height() >= 2.0 * size.height
    ensures w.Width() == 2000.0 || w.Width() == 2.0 * size.width
    ensures w.Height() == 1500.0 || w.Height() == 2.0 * size.height
  {
    Rect(0.0, 0.0, Max(2000.0, size.width * 2.0), Max(1500.0, size.height * 2.0))
  }

  /** `clampPointToWorld`: the nearest point of the closed world rectangle. */
  function ClampPointToWorld(world: Rect, p: Point): (r: Point)
    ensures world.Covers(r)
    ensures world.Covers(p) ==> r == p
    ensures p.x < world.MinX() ==> r.x == world.MinX()
    ensures p.x > world.MaxX() ==> r.x == world.MaxX()
    ensures p.y < world.MinY() ==> r.y == world.MinY()
    ensures p.y > world.MaxY() ==> r.y == world.MaxY()
  {
    Point(Max(world.MinX(), Min(world.MaxX(), p.x)),
          Max(world.MinY(), Min(world.MaxY(), p.y)))
  }

  /** The clamp `setCameraScale` applies to a requested scale. */
  function ClampScale(s: real): (r: real)
    ensures MinScale <= r <= MaxScale
    ensures MinScale <= s <= MaxScale ==> r == s
    ensures s < MinScale ==> r == MinScale
    ensures s > MaxScale ==> r == MaxScale
  {
    Max(MinScale, Min(MaxScale, s))
  }

  /**
   * The x and y ranges `updateCameraConstraints` gives the camera: the world
   * inset on each side by half the visible extent at the camera node's scale.
   * Each range is centred on the world's centre and is shorter than the
   * world by exactly the visible extent.
   */
  function ConstraintRanges(world: Rect, size: Size, nodeScale: real): (ranges: (Range, Range))
    ensures ranges.0.lower + ranges.0.upper == world.MinX() + world.MaxX()
    ensures ranges.1.lower + ranges.1.upper == world.MinY() + world.MaxY()
    ensures ranges.0.upper - ranges.0.lower == world.Width() - size.width / Max(nodeScale, DivisorFloor)
    ensures ranges.1.upper - ranges.1.lower == world.Height() - size.height / Max(nodeScale, DivisorFloor)
  {
    var s := Max(nodeScale, DivisorFloor);
    var halfW := (size.width / s) * 0.5;
    var halfH := (size.height / s) * 0.5;
    (Range(world.MinX() + halfW, world.MaxX() - halfW),
     Range(world.MinY() + halfH, world.MaxY() - halfH))
  }

  /** The constraint list installed on the camera: the range always, the follow constraint only when focused. */
  function CameraConstraints(world: Rect, size: Size, nodeScale: real, focused: bool): (cs: seq<Constraint>)
    ensures |cs| == (if focused then 2 else 1) && cs[0].PositionRange?
    ensures (cs[0].xRange, cs[0].yRange) == ConstraintRanges(world, size, nodeScale)
    ensures focused <==> FollowPlayer(Range(0.0, 0.0)) in cs
    ensures forall i :: 0 < i < |cs| ==> cs[i] == FollowPlayer(Range(0.0, 0.0))
  {
    var ranges := ConstraintRanges(world, size, nodeScale);
    var range := PositionRange(ranges.0, ranges.1);
    if focused then [range, FollowPlayer(Range(0.0, 0.0))] else [range]
  }

  /** Position of a parallax layer that moves against the camera by `factor`. */
  function Parallax(cameraPosition: Point, factor: real): Point
  {
    Point(-cameraPosition.x * factor, -cameraPosition.y * factor)
  }

  /**
   * On the world `didMove(to:)` builds, at that same scene size, every scale
   * the camera can take leaves a non-empty range on both axes, and the
   * starting position (the world's centre, where the player is put) lies in
   * both ranges.
   */
  lemma InitialRangesNonEmpty(size: Size, nodeScale: real)
    requires MinScale <= nodeScale <= MaxScale
    ensures var world := InitialWorld(size);
            var ranges := ConstraintRanges(world, size, nodeScale);
            ranges.0.lower <= ranges.0.upper && ranges.1.lower <= ranges.1.upper
            && ranges.0.Holds(world.MidX()) && ranges.1.Holds(world.MidY())
  {
    var world := InitialWorld(size);
    VisibleExtentAtMost(size.width, nodeScale);
    VisibleExtentAtMost(size.height, nodeScale);
  }

  /**
   * The world is built once, from the first size: after the scene turns
   * from 750 x 1334 to 1334 x 750, at scale 0.5 the x range is empty.
   */
  lemma RotatedRangesCanBeEmpty()
    ensures var ranges := ConstraintRanges(InitialWorld(Size(750.0, 1334.0)), Size(1334.0, 750.0), 0.5);
            ranges.0.lower == 1334.0 && ranges.0.upper == 666.0
  {
  }

  /** At scale `s >= 0.5` a scene extent `e` shows at most `2e` of the world (and less than nothing when `e` is negative). */
  lemma VisibleExtentAtMost(e: real, s: real)
    requires MinScale <= s
    ensures e / Max(s, DivisorFloor) <= Max(0.0, 2.0 * e)
  {
    var q := e / s;
    assert q * s == e;
    if e >= 0.0 {
      assert q >= 0.0;
      assert q * s >= q * MinScale;
    } else {
      assert q < 0.0;
    }
  }

  /** `zoomIn` never enlarges the scale and `zoomOut` never shrinks it. */
  lemma ZoomStepsMonotone(s: real)
    requires MinScale <= s <= MaxScale
    ensures ClampScale(s * ZoomInStep) <= s
    ensures ClampScale(s * ZoomOutStep) >= s
  {
  }

  /**
   * The two zoom steps are not inverse to each other: away from the lower
   * bound, zooming in and then out leaves the scale at 0.9775 of where it was.
   */
  lemma ZoomInThenOutShrinks(s: real)
    requires MinScale / ZoomInStep <= s <= MaxScale
    ensures ClampScale(ClampScale(s * ZoomInStep) * ZoomOutStep) == s * 0.9775 < s
  {
  }

  /** Dividing a scale in range by a pinch factor of at least 1 never enlarges it, and by one of at most 1 never shrinks it. */
  lemma PinchDirection(s: real, pinch: real)
    requires MinScale <= s <= MaxScale && pinch > 0.0
    ensures pinch >= 1.0 ==> ClampScale(s * (1.0 / pinch)) <= s
    ensures pinch <= 1.0 ==> ClampScale(s * (1.0 / pinch)) >= s
  {
    var q := 1.0 / pinch;
    assert q * pinch == 1.0;
    if pinch >= 1.0 {
      assert q <= 1.0;
      assert s * q <= s;
    }
    if pinch <= 1.0 {
      assert q >= 1.0;
      assert s * q >= s;
    }
  }

  /**
   * Below 0.5/0.85 zooming in stops at the lower bound, so zooming in and
   * then out always ends at 0.575: the pair grows a scale below 0.575 and
   * shrinks one above it.
   */
  lemma ZoomInThenOutNearFloor(s: real)
    requires MinScale <= s < MinScale / ZoomInStep
    ensures ClampScale(ClampScale(s * ZoomInStep) * ZoomOutStep) == MinScale * ZoomOutStep == 0.575
  {
  }

  /**
   * Parallax layers move against the camera, the far layer least and the
   * near one most, and a camera shift `d` moves each layer by its own
   * offset for `d`.
   */
  lemma ParallaxDepthOrder(p: Point, d: Point)
    ensures var far, mid, near := Parallax(p, FarFactor), Parallax(p, MidFactor), Parallax(p, NearFactor);
            Abs(far.x) <= Abs(mid.x) <= Abs(near.x) <= Abs(p.x)
            && Abs(far.y) <= Abs(mid.y) <= Abs(near.y) <= Abs(p.y)
            && (p.x > 0.0 ==> near.x < 0.0) && (p.y > 0.0 ==> near.y < 0.0)
    ensures forall f: real ::
              Parallax(Point(p.x + d.x, p.y + d.y), f)
              == Point(Parallax(p, f).x + Parallax(d, f).x, Parallax(p, f).y + Parallax(d, f).y)
  {
  }

  /**
   * The scene's camera state.  `cameraPosition` and `cameraNodeScale` are the
   * camera node's own position and xScale; the `...Target` fields hold the
   * end value of the last SKAction started on the camera or the player.
   */
  class CameraScene {
    var size: Size
    var worldRect: Rect
    var cameraScale: real
    var isCameraFocused: bool
    var cameraPosition: Point
    var cameraNodeScale: real
    var playerPosition: Point
    var cameraTarget: Option<Point>
    var scaleTarget: Option<real>
    var playerTarget: Option<Point>
    var constraints: seq<Constraint>
    var farLayer: Point
    var midLayer: Point
    var nearLayer: Point

    ghost predicate Valid()
      reads this
    {
      && MinScale <= cameraScale <= MaxScale
      && MinScale <= cameraNodeScale <= MaxScale
      && (scaleTarget.Some? ==> MinScale <= scaleTarget.value <= MaxScale)
      && worldRect.Covers(playerPosition)
      && worldRect.Covers(cameraPosition)
      && (cameraTarget.Some? ==> worldRect.Covers(cameraTarget.value))
      && (playerTarget.Some? ==> worldRect.Covers(playerTarget.value))
      && constraints == CameraConstraints(worldRect, size, cameraNodeScale, isCameraFocused)
    }

    /** `didMove(to:)` for a scene of size `sceneSize`. */
    constructor (sceneSize: Size)
      ensures Valid()
      ensures size == sceneSize && worldRect == InitialWorld(sceneSize)
      ensures playerPosition == Point(worldRect.MidX(), worldRect.MidY())
      ensures cameraPosition == playerPosition
      ensures cameraScale == 1.0 && cameraNodeScale == 1.0 && isCameraFocused
      ensures cameraTarget == None && scaleTarget == None && playerTarget == None
      ensures constraints[0].xRange.lower <= constraints[0].xRange.upper
      ensures constraints[0].yRange.lower <= constraints[0].yRange.upper
    {
      size := sceneSize;
      cameraScale := 1.0;
      cameraNodeScale := 1.0;
      isCameraFocused := true;
      var world := InitialWorld(sceneSize);
      worldRect := world;
      playerPosition := Point(world.MidX(), world.MidY());
      cameraPosition := Point(world.MidX(), world.MidY());
      cameraTarget, scaleTarget, playerTarget := None, None, None;
      farLayer, midLayer, nearLayer := Point(0.0, 0.0), Point(0.0, 0.0), Point(0.0, 0.0);
      constraints := CameraConstraints(world, sceneSize, 1.0, true);
      InitialRangesNonEmpty(sceneSize, 1.0);
    }

    /** `updateCameraConstraints`. */
    method UpdateCameraConstraints()
      modifies this`constraints
      ensures constraints == CameraConstraints(worldRect, size, cameraNodeScale, isCameraFocused)
    {
      var ranges := ConstraintRanges(worldRect, size, cameraNodeScale);
      var range := PositionRange(ranges.0, ranges.1);
      var follow := FollowPlayer(Range(0.0, 0.0));
      constraints := if isCameraFocused then [range, follow] else [range];
    }

    /** `setCameraFocus`: set the flag, then reinstall the constraints. */
    method SetCameraFocus(focus: bool)
      requires Valid()
      modifies this
      ensures Valid()
      ensures isCameraFocused == focus
      ensures focus <==> FollowPlayer(Range(0.0, 0.0)) in constraints
      ensures constraints[0] == old(constraints[0])
      ensures cameraScale == old(cameraScale) && cameraNodeScale == old(cameraNodeScale)
      ensures cameraPosition == old(cameraPosition) && playerPosition == old(playerPosition)
      ensures unchanged(this`size, this`worldRect, this`cameraTarget, this`scaleTarget, this`playerTarget)
      ensures unchanged(this`farLayer, this`midLayer, this`nearLayer)
    {
      isCameraFocused := focus;
      UpdateCameraConstraints();
    }

    /** `relayoutForCurrentSize` after the scene size became `newSize`: recentre on the player. */
    method DidChangeSize(newSize: Size)
      requires Valid()
      modifies this
      ensures Valid()
      ensures size == newSize && cameraPosition == playerPosition
      ensures constraints == CameraConstraints(worldRect, newSize, cameraNodeScale, isCameraFocused)
      ensures worldRect == old(worldRect) && playerPosition == old(playerPosition)
      ensures cameraScale == old(cameraScale) && cameraNodeScale == old(cameraNodeScale)
      ensures isCameraFocused == old(isCameraFocused)
      ensures unchanged(this`cameraTarget, this`scaleTarget, this`playerTarget)
      ensures unchanged(this`farLayer, this`midLayer, this`nearLayer)
    {
      size := newSize;
      cameraPosition := playerPosition;
      UpdateCameraConstraints();
    }

    /** `movePlayerToward`: start a move of the player to the point clamped into the world. */
    method MovePlayerToward(p: Point)
      requires Valid()
      modifies this`playerTarget
      ensures Valid()
      ensures playerTarget == Some(ClampPointToWorld(worldRect, p))
    {
      playerTarget := Some(ClampPointToWorld(worldRect, p));
    }

    /** `movePlayerBy`: the target is the player's position moved by (dx, dy), then clamped. */
    method MovePlayerBy(dx: real, dy: real)
      requires Valid()
      modifies this`playerTarget
      ensures Valid()
      ensures playerTarget == Some(ClampPointToWorld(worldRect, Point(playerPosition.x + dx, playerPosition.y + dy)))
    {
      MovePlayerToward(Point(playerPosition.x + dx, playerPosition.y + dy));
    }

    /**
     * `setCameraScale`: store the clamped scale; set the camera node's scale
     * at once, or start an action ending there; reinstall the constraints.
     */
    method SetCameraScale(s: real, animated: bool)
      requires Valid()
      modifies this
      ensures Valid()
      ensures cameraScale == ClampScale(s)
      ensures animated ==> scaleTarget == Some(cameraScale) && cameraNodeScale == old(cameraNodeScale)
      ensures !animated ==> cameraNodeScale == cameraScale && scaleTarget == old(scaleTarget)
      ensures constraints == CameraConstraints(worldRect, size, cameraNodeScale, isCameraFocused)
      ensures size == old(size) && worldRect == old(worldRect) && isCameraFocused == old(isCameraFocused)
      ensures cameraPosition == old(cameraPosition) && playerPosition == old(playerPosition)
      ensures unchanged(this`cameraTarget, this`playerTarget, this`farLayer, this`midLayer, this`nearLayer)
    {
      var clamped := ClampScale(s);
      cameraScale := clamped;
      if animated {
        scaleTarget := Some(clamped);
      } else {
        cameraNodeScale := clamped;
      }
      UpdateCameraConstraints();
    }

    /** `zoomIn`: one step of x0.85, clamped. */
    method ZoomIn()
      requires Valid()
      modifies this
      ensures Valid()
      ensures cameraScale == ClampScale(old(cameraScale) * ZoomInStep)
      ensures cameraScale <= old(cameraScale)
      ensures scaleTarget == Some(cameraScale) && cameraNodeScale == old(cameraNodeScale)
      ensures cameraPosition == old(cameraPosition) && worldRect == old(worldRect)
      ensures size == old(size) && isCameraFocused == old(isCameraFocused) && playerPosition == old(playerPosition)
      ensures unchanged(this`cameraTarget, this`playerTarget, this`farLayer, this`midLayer, this`nearLayer)
    {
      ZoomStepsMonotone(cameraScale);
      SetCameraScale(cameraScale * ZoomInStep, true);
    }

    /** `zoomOut`: one step of x1.15, clamped. */
    method ZoomOut()
      requires Valid()
      modifies this
      ensures Valid()
      ensures cameraScale == ClampScale(old(cameraScale) * ZoomOutStep)
      ensures cameraScale >= old(cameraScale)
      ensures scaleTarget == Some(cameraScale) && cameraNodeScale == old(cameraNodeScale)
      ensures cameraPosition == old(cameraPosition) && worldRect == old(worldRect)
      ensures size == old(size) && isCameraFocused == old(isCameraFocused) && playerPosition == old(playerPosition)
      ensures unchanged(this`cameraTarget, this`playerTarget, this`farLayer, this`midLayer, this`nearLayer)
    {
      ZoomStepsMonotone(cameraScale);
      SetCameraScale(cameraScale * ZoomOutStep, true);
    }

    /**
     * The pinch handler of the hosting view: divide the scale by the pinch
     * factor and set it without animation.  Spreading the fingers
     * (`pinch > 1`) never zooms out.
     */
    method Pinch(pinch: real)
      requires Valid()
      requires pinch > 0.0
      modifies this
      ensures Valid()
      ensures cameraScale == ClampScale(old(cameraScale) * (1.0 / pinch))
      ensures cameraNodeScale == cameraScale
      ensures pinch >= 1.0 ==> cameraScale <= old(cameraScale)
      ensures pinch <= 1.0 ==> cameraScale >= old(cameraScale)
      ensures scaleTarget == old(scaleTarget)
      ensures size == old(size) && worldRect == old(worldRect) && isCameraFocused == old(isCameraFocused)
      ensures cameraPosition == old(cameraPosition) && playerPosition == old(playerPosition)
      ensures unchanged(this`cameraTarget, this`playerTarget, this`farLayer, this`midLayer, this`nearLayer)
    {
      ghost var s0 := cameraScale;
      var target := cameraScale * (1.0 / pinch);
      PinchDirection(s0, pinch);
      SetCameraScale(target, false);
    }

    /**
     * `setCameraPosition`: the point is clamped into the world rectangle
     * (not into the narrower constraint range); the camera is moved at once,
     * or an action ending there is started.
     */
    method SetCameraPosition(p: Point, animated: bool)
      requires Valid()
      modifies this`cameraPosition, this`cameraTarget
      ensures Valid()
      ensures animated ==> cameraTarget == Some(ClampPointToWorld(worldRect, p)) && cameraPosition == old(cameraPosition)
      ensures !animated ==> cameraPosition == ClampPointToWorld(worldRect, p) && cameraTarget == old(cameraTarget)
    {
      var clamped := ClampPointToWorld(worldRect, p);
      if animated {
        cameraTarget := Some(clamped);
      } else {
        cameraPosition := clamped;
      }
    }

    /** `update`: reinstall the constraints and place the parallax layers against the camera. */
    method Update()
      requires Valid()
      modifies this`constraints, this`farLayer, this`midLayer, this`nearLayer
      ensures Valid()
      ensures constraints == old(constraints)
      ensures farLayer == Parallax(cameraPosition, FarFactor)
      ensures midLayer == Parallax(cameraPosition, MidFactor)
      ensures nearLayer == Parallax(cameraPosition, NearFactor)
    {
      UpdateCameraConstraints();
      var c := cameraPosition;
      farLayer := Point(-c.x * FarFactor, -c.y * FarFactor);
      midLayer := Point(-c.x * MidFactor, -c.y * MidFactor);
      nearLayer := Point(-c.x * NearFactor, -c.y * NearFactor);
    }
  }
}
