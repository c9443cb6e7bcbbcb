/**
 * The mini-map of the camera scene (MiniMapView.swift): a letterboxed,
 * aspect-preserving projection of the world rectangle (y grows upward) into
 * the mini-map's box (y grows downward), its clamped inverse, the camera's
 * visible rectangle, and the grid lines drawn every 200 world units.
 */
module MiniMap {
  import opened Geometry
  import Camera

  const GridStep: real := 200.0

  /** `MiniMapMapping`: the world, the box, the uniform scale and the letterboxed content rectangle. */
  datatype Mapping = Mapping(world: Rect, box: Size, scale: real, contentRect: Rect)

  datatype Segment = Segment(from: Point, to: Point)

  /**
   * What `init` promises for a box of non-negative size: a non-negative
   * scale, and a content rectangle of the world's extents times that scale
   * that fits in the box, with the slack split evenly on both sides.
   */
  ghost predicate Letterboxed(m: Mapping) {
    var c := m.contentRect;
    && m.scale >= 0.0
    && c.width == m.world.Width() * m.scale && c.height == m.world.Height() * m.scale
    && 0.0 <= c.width <= m.box.width && 0.0 <= c.height <= m.box.height
    && c.x == (m.box.width - c.width) * 0.5 && c.y == (m.box.height - c.height) * 0.5
  }

  /** `MiniMapMapping.init(world:box:)`. */
  function MakeMapping(world: Rect, box: Size): (m: Mapping)
    ensures m.world == world && m.box == box
    ensures box.NonNegative() ==> Letterboxed(m)
    ensures m.scale > 0.0 <==> box.width > 0.0 && box.height > 0.0
  {
    var scale := UniformScale(world.Width(), world.Height(), box.width, box.height);
    var contentW := world.Width() * scale;
    var contentH := world.Height() * scale;
    var offsetX := (box.width - contentW) * 0.5;
    var offsetY := (box.height - contentH) * 0.5;
    Mapping(world, box, scale, Rect(offsetX, offsetY, contentW, contentH))
  }

  /**
   * The scale of `init`: the smaller of the box-to-world ratios on the two
   * axes, each world extent floored at 0.0001.  It is positive exactly when
   * the box has positive area, and both scaled extents fit the box.
   */
  function UniformScale(w: real, h: real, bw: real, bh: real): (s: real)
    requires w >= 0.0 && h >= 0.0
    ensures s > 0.0 <==> bw > 0.0 && bh > 0.0
    ensures bw >= 0.0 && bh >= 0.0 ==> s >= 0.0 && 0.0 <= w * s <= bw && 0.0 <= h * s <= bh
  {
    var sx := bw / Max(w, DivisorFloor);
    var sy := bh / Max(h, DivisorFloor);
    DivSign(bw, Max(w, DivisorFloor));
    DivSign(bh, Max(h, DivisorFloor));
    ScaleFits(w, h, bw, bh);
    Min(sx, sy)
  }

  lemma DivSign(b: real, d: real)
    requires d > 0.0
    ensures b / d > 0.0 <==> b > 0.0
    ensures b / d >= 0.0 <==> b >= 0.0
  {
    assert (b / d) * d == b;
  }

  /** An extent `e` at a scale no larger than `b / d`, for a divisor `d >= e`, fits in `b`. */
  lemma ExtentTimesScale(e: real, b: real, d: real, s: real)
    requires 0.0 <= e <= d && d > 0.0 && b >= 0.0 && 0.0 <= s <= b / d
    ensures e * s <= b
  {
    var q := b / d;
    assert q * d == b;
    MulMonotone(e, d, s);
    MulMonotone(s, q, d);
    assert e * s <= d * s;
    assert d * s == s * d;
    assert s * d <= q * d;
  }

  /** The uniform scale of `init`, on the extents alone: for a box of non-negative size, both scaled extents fit their box extents. */
  lemma ScaleFits(w: real, h: real, bw: real, bh: real)
    requires w >= 0.0 && h >= 0.0
    ensures var s := Min(bw / Max(w, DivisorFloor), bh / Max(h, DivisorFloor));
            bw >= 0.0 && bh >= 0.0 ==> s >= 0.0 && 0.0 <= w * s <= bw && 0.0 <= h * s <= bh
  {
    if bw >= 0.0 && bh >= 0.0 {
      var d1, d2 := Max(w, DivisorFloor), Max(h, DivisorFloor);
      var s := Min(bw / d1, bh / d2);
      DivSign(bw, d1);
      DivSign(bh, d2);
      MulNonNegative(w, s);
      MulNonNegative(h, s);
      ExtentTimesScale(w, bw, d1, s);
      ExtentTimesScale(h, bh, d2, s);
    }
  }

  /** For extents at least the floor, the uniform scale makes one scaled extent fill its box extent. */
  lemma ScaleTight(w: real, h: real, bw: real, bh: real)
    requires w >= DivisorFloor && h >= DivisorFloor
    ensures var s := Min(bw / Max(w, DivisorFloor), bh / Max(h, DivisorFloor));
            w * s == bw || h * s == bh
  {
    assert Max(w, DivisorFloor) == w && Max(h, DivisorFloor) == h;
    assert (bw / w) * w == bw;
    assert (bh / h) * h == bh;
  }

  /** `worldToMini`: scale, shift into the content rectangle, flip y. */
  function WorldToMini(m: Mapping, p: Point): Point
  {
    Point(m.contentRect.MinX() + (p.x - m.world.MinX()) * m.scale,
          m.contentRect.MaxY() - (p.y - m.world.MinY()) * m.scale)
  }

  /** `worldRectToMiniRect`: map the top-left and bottom-right corners and span them. */
  function WorldRectToMiniRect(m: Mapping, r: Rect): Rect
  {
    var tl := WorldToMini(m, Point(r.MinX(), r.MaxY()));
    var br := WorldToMini(m, Point(r.MaxX(), r.MinY()));
    Rect(tl.x, tl.y, br.x - tl.x, br.y - tl.y)
  }

  /** `miniToWorld`: clamp into the content rectangle, unflip y, unscale. */
  function MiniToWorld(m: Mapping, q: Point): Point
    requires m.scale != 0.0
  {
    var c := m.contentRect;
    var lx := Max(0.0, Min(c.Width(), q.x - c.MinX()));
    var ly := Max(0.0, Min(c.Height(), c.MaxY() - q.y));
    Point(m.world.MinX() + lx / m.scale, m.world.MinY() + ly / m.scale)
  }

  /**
   * `MiniMapModel.viewportWorldRect`: the part of the world the camera shows,
   * centred on the camera, of the scene's size divided by the camera node's
   * scale (floored at 0.0001).
   */
  function ViewportWorldRect(cameraPosition: Point, cameraNodeScale: real, sceneSize: Size): (r: Rect)
    ensures r.MidX() == cameraPosition.x && r.MidY() == cameraPosition.y
    ensures sceneSize.NonNegative() ==>
              r.Width() * Max(cameraNodeScale, DivisorFloor) == sceneSize.width
              && r.Height() * Max(cameraNodeScale, DivisorFloor) == sceneSize.height
  {
    var s := Max(cameraNodeScale, DivisorFloor);
    var w := sceneSize.width / s;
    var h := sceneSize.height / s;
    Rect(cameraPosition.x - w / 2.0, cameraPosition.y - h / 2.0, w, h)
  }

  /**
   * The letterboxed content of `init` always fits the box, is centred in it
   * with equal margins on opposite sides, and (when the world has extent at
   * least the floor on both axes) fills the box on at least one axis.
   */
  lemma ContentFitsBox(world: Rect, box: Size)
    requires box.NonNegative()
    ensures var c := MakeMapping(world, box).contentRect;
            0.0 <= c.MinX() && c.MaxX() <= box.width && 0.0 <= c.MinY() && c.MaxY() <= box.height
            && c.MinX() == box.width - c.MaxX() && c.MinY() == box.height - c.MaxY()
    ensures var c := MakeMapping(world, box).contentRect;
            world.Width() >= DivisorFloor && world.Height() >= DivisorFloor ==>
              c.Width() == box.width || c.Height() == box.height
  {
    if world.Width() >= DivisorFloor && world.Height() >= DivisorFloor {
      ScaleTight(world.Width(), world.Height(), box.width, box.height);
    }
  }

  /**
   * `worldToMini` flips y: the world's bottom-left corner lands on the
   * content's bottom-left corner as the display sees it (its largest y),
   * the world's top-right corner on the content's top-right corner, and
   * the world's top-left corner on the content's origin.
   */
  lemma WorldCornersFlip(m: Mapping)
    requires Letterboxed(m)
    ensures var w, c := m.world, m.contentRect;
            WorldToMini(m, Point(w.MinX(), w.MinY())) == Point(c.MinX(), c.MaxY())
            && WorldToMini(m, Point(w.MaxX(), w.MaxY())) == Point(c.MaxX(), c.MinY())
            && WorldToMini(m, Point(w.MinX(), w.MaxY())) == Point(c.MinX(), c.MinY())
            && WorldToMini(m, Point(w.MaxX(), w.MinY())) == Point(c.MaxX(), c.MaxY())
  {
    var w, c, s := m.world, m.contentRect, m.scale;
    ContentEdges(m);
    assert (w.MaxX() - w.MinX()) * s == c.width;
    assert (w.MaxY() - w.MinY()) * s == c.height;
    assert (w.MinX() - w.MinX()) * s == 0.0;
    assert (w.MinY() - w.MinY()) * s == 0.0;
  }

  /** The whole world rectangle maps exactly onto the content rectangle. */
  lemma WorldRectIsContentRect(m: Mapping)
    requires Letterboxed(m)
    ensures WorldRectToMiniRect(m, m.world) == m.contentRect
  {
    WorldCornersFlip(m);
  }

  /** A world point lands inside the content rectangle. */
  lemma WorldToMiniInContent(m: Mapping, p: Point)
    requires Letterboxed(m) && m.world.Covers(p)
    ensures m.contentRect.Covers(WorldToMini(m, p))
  {
    var c, w := m.contentRect, m.world;
    ContentEdges(m);
    var ox, oy := (p.x - w.MinX()) * m.scale, (p.y - w.MinY()) * m.scale;
    ScaledOffset(p.x - w.MinX(), w.Width(), m.scale, ox);
    ScaledOffset(p.y - w.MinY(), w.Height(), m.scale, oy);
    assert WorldToMini(m, p) == Point(c.MinX() + ox, c.MaxY() - oy);
  }

  /** The edges of a letterboxed content rectangle, and the world's extents as edge differences. */
  lemma ContentEdges(m: Mapping)
    requires Letterboxed(m)
    ensures var c := m.contentRect;
            c.Width() == c.width && c.Height() == c.height
            && c.MinX() == c.x && c.MaxX() == c.x + c.width
            && c.MinY() == c.y && c.MaxY() == c.y + c.height
    ensures m.world.MaxX() - m.world.MinX() == m.world.Width()
    ensures m.world.MaxY() - m.world.MinY() == m.world.Height()
  {
  }

  /** An offset within an extent, scaled, stays within the scaled extent. */
  lemma ScaledOffset(d: real, e: real, s: real, o: real)
    requires 0.0 <= d <= e && s >= 0.0 && o == d * s
    ensures 0.0 <= o <= e * s
  {
    MulMonotone(d, e, s);
    MulNonNegative(d, s);
  }

  /** Whatever point of the display is dragged, `miniToWorld` returns a point of the world. */
  lemma MiniToWorldInWorld(m: Mapping, q: Point)
    requires Letterboxed(m) && m.scale > 0.0
    ensures m.world.Covers(MiniToWorld(m, q))
  {
    var c := m.contentRect;
    var lx := Max(0.0, Min(c.Width(), q.x - c.MinX()));
    var ly := Max(0.0, Min(c.Height(), c.MaxY() - q.y));
    UnscaleBound(lx, m.world.Width(), m.scale);
    UnscaleBound(ly, m.world.Height(), m.scale);
  }

  /** An offset of at most `e * s` at scale `s > 0` is at most `e` in the world. */
  lemma UnscaleBound(l: real, e: real, s: real)
    requires s > 0.0 && 0.0 <= l <= e * s
    ensures 0.0 <= l / s <= e
  {
    assert (l / s) * s == l;
  }

  /** Round trip from the world: every world point comes back unchanged. */
  lemma WorldRoundTrip(m: Mapping, p: Point)
    requires Letterboxed(m) && m.scale > 0.0 && m.world.Covers(p)
    ensures MiniToWorld(m, WorldToMini(m, p)) == p
  {
    var c, w, s := m.contentRect, m.world, m.scale;
    ContentEdges(m);
    var q := WorldToMini(m, p);
    AxisRoundTrip(w.MinX(), p.x, w.Width(), s, q.x - c.MinX(), c.Width());
    AxisRoundTrip(w.MinY(), p.y, w.Height(), s, c.MaxY() - q.y, c.Height());
  }

  /**
   * On one axis: an offset `o` into content of extent `ce`, scaled from a
   * world extent `e`, clamps to itself and unscales to the world offset.
   */
  lemma AxisRoundTrip(lo: real, v: real, e: real, s: real, o: real, ce: real)
    requires s > 0.0 && lo <= v <= lo + e && o == (v - lo) * s && ce == e * s
    ensures lo + Max(0.0, Min(ce, o)) / s == v
  {
    ScaledOffset(v - lo, e, s, o);
    Unscale(v - lo, s, o);
  }

  lemma Unscale(d: real, s: real, o: real)
    requires s > 0.0 && o == d * s
    ensures o / s == d
  {
  }

  /** Round trip from the display: every point of the content rectangle comes back unchanged. */
  lemma MiniRoundTrip(m: Mapping, q: Point)
    requires Letterboxed(m) && m.scale > 0.0 && m.contentRect.Covers(q)
    ensures WorldToMini(m, MiniToWorld(m, q)) == q
  {
    var c := m.contentRect;
    var lx, ly := q.x - c.MinX(), c.MaxY() - q.y;
    assert (lx / m.scale) * m.scale == lx;
    assert (ly / m.scale) * m.scale == ly;
  }

  /**
   * When the camera sits inside the ranges its constraints allow, the
   * visible rectangle lies within the world.
   */
  lemma ViewportInsideWorld(world: Rect, sceneSize: Size, cameraNodeScale: real, cameraPosition: Point)
    requires sceneSize.NonNegative()
    requires var ranges := Camera.ConstraintRanges(world, sceneSize, cameraNodeScale);
             ranges.0.Holds(cameraPosition.x) && ranges.1.Holds(cameraPosition.y)
    ensures world.Encloses(ViewportWorldRect(cameraPosition, cameraNodeScale, sceneSize))
  {
    var s := Max(cameraNodeScale, DivisorFloor);
    var w, h := sceneSize.width / s, sceneSize.height / s;
    assert w >= 0.0 && h >= 0.0;
  }

  /** The first multiple of the grid step at or above `v`. */
  function FirstGridIndex(v: real): (k: int)
    ensures k as real * GridStep >= v && (k - 1) as real * GridStep < v
  {
    -((-v / GridStep).Floor)
  }

  function GridValue(k: int): real { k as real * GridStep }

  /** The vertical grid line at world x `x`, from the world's bottom to its top, in display coordinates. */
  function VerticalLine(m: Mapping, x: real): Segment
  {
    Segment(WorldToMini(m, Point(x, m.world.MinY())), WorldToMini(m, Point(x, m.world.MaxY())))
  }

  /** The horizontal grid line at world y `y`, from the world's left edge to its right, in display coordinates. */
  function HorizontalLine(m: Mapping, y: real): Segment
  {
    Segment(WorldToMini(m, Point(m.world.MinX(), y)), WorldToMini(m, Point(m.world.MaxX(), y)))
  }

  /**
   * The grid drawing of the mini-map canvas: the vertical lines, then the
   * horizontal ones.  Both sets sit exactly at the multiples of 200 within
   * the world, in increasing order, all of them, inside the content
   * rectangle.
   */
  method GridPath(m: Mapping) returns (vertical: seq<Segment>, horizontal: seq<Segment>)
    requires Letterboxed(m)
    ensures forall i :: 0 <= i < |vertical| ==>
              vertical[i] == VerticalLine(m, GridValue(FirstGridIndex(m.world.MinX()) + i))
    ensures forall i :: 0 <= i < |horizontal| ==>
              horizontal[i] == HorizontalLine(m, GridValue(FirstGridIndex(m.world.MinY()) + i))
    ensures forall k :: m.world.MinX() <= GridValue(k) <= m.world.MaxX() <==>
              FirstGridIndex(m.world.MinX()) <= k < FirstGridIndex(m.world.MinX()) + |vertical|
    ensures forall k :: m.world.MinY() <= GridValue(k) <= m.world.MaxY() <==>
              FirstGridIndex(m.world.MinY()) <= k < FirstGridIndex(m.world.MinY()) + |horizontal|
    ensures forall i :: 0 <= i < |vertical| ==>
              m.contentRect.Covers(vertical[i].from) && m.contentRect.Covers(vertical[i].to)
    ensures forall i :: 0 <= i < |horizontal| ==>
              m.contentRect.Covers(horizontal[i].from) && m.contentRect.Covers(horizontal[i].to)
  {
    vertical := VerticalGridLines(m);
    horizontal := HorizontalGridLines(m);
  }

  /**
   * The first grid loop: from `ceil(minX / 200) * 200`, while within the
   * world, a segment from the world's bottom to its top, then 200 further.
   * The lines are at exactly the multiples of 200 within the world's x
   * range, in increasing order.
   */
  method VerticalGridLines(m: Mapping) returns (lines: seq<Segment>)
    requires Letterboxed(m)
    ensures forall i :: 0 <= i < |lines| ==>
              lines[i] == VerticalLine(m, GridValue(FirstGridIndex(m.world.MinX()) + i))
    ensures forall k :: m.world.MinX() <= GridValue(k) <= m.world.MaxX() <==>
              FirstGridIndex(m.world.MinX()) <= k < FirstGridIndex(m.world.MinX()) + |lines|
    ensures forall i :: 0 <= i < |lines| ==>
              m.contentRect.Covers(lines[i].from) && m.contentRect.Covers(lines[i].to)
  {
    var w := m.world;
    var first := FirstGridIndex(w.MinX());
    var x := first as real * GridStep;
    lines := [];
    while x <= w.MaxX()
      invariant x == GridValue(first + |lines|) && x >= w.MinX()
      invariant forall i :: 0 <= i < |lines| ==> lines[i] == VerticalLine(m, GridValue(first + i))
      invariant |lines| > 0 ==> GridValue(first + |lines| - 1) <= w.MaxX()
      invariant forall i :: 0 <= i < |lines| ==>
                  m.contentRect.Covers(lines[i].from) && m.contentRect.Covers(lines[i].to)
      decreases (w.MaxX() - x).Floor
    {
      var p1 := WorldToMini(m, Point(x, w.MinY()));
      var p2 := WorldToMini(m, Point(x, w.MaxY()));
      WorldToMiniInContent(m, Point(x, w.MinY()));
      WorldToMiniInContent(m, Point(x, w.MaxY()));
      lines := lines + [Segment(p1, p2)];
      x := x + GridStep;
    }
    forall k ensures w.MinX() <= GridValue(k) <= w.MaxX() <==> first <= k < first + |lines| {
      assert GridValue(first - 1) < w.MinX() && GridValue(first + |lines|) > w.MaxX();
    }
  }

  /**
   * The second grid loop: from `ceil(minY / 200) * 200`, while within the
   * world, a segment from the world's left edge to its right, then 200
   * further.  The lines are at exactly the multiples of 200 within the
   * world's y range, in increasing order.
   */
  method HorizontalGridLines(m: Mapping) returns (lines: seq<Segment>)
    requires Letterboxed(m)
    ensures forall i :: 0 <= i < |lines| ==>
              lines[i] == HorizontalLine(m, GridValue(FirstGridIndex(m.world.MinY()) + i))
    ensures forall k :: m.world.MinY() <= GridValue(k) <= m.world.MaxY() <==>
              FirstGridIndex(m.world.MinY()) <= k < FirstGridIndex(m.world.MinY()) + |lines|
    ensures forall i :: 0 <= i < |lines| ==>
              m.contentRect.Covers(lines[i].from) && m.contentRect.Covers(lines[i].to)
  {
    var w := m.world;
    var first := FirstGridIndex(w.MinY());
    var y := first as real * GridStep;
    lines := [];
    while y <= w.MaxY()
      invariant y == GridValue(first + |lines|) && y >= w.MinY()
      invariant forall i :: 0 <= i < |lines| ==> lines[i] == HorizontalLine(m, GridValue(first + i))
      invariant |lines| > 0 ==> GridValue(first + |lines| - 1) <= w.MaxY()
      invariant forall i :: 0 <= i < |lines| ==>
                  m.contentRect.Covers(lines[i].from) && m.contentRect.Covers(lines[i].to)
      decreases (w.MaxY() - y).Floor
    {
      var p1 := WorldToMini(m, Point(w.MinX(), y));
      var p2 := WorldToMini(m, Point(w.MaxX(), y));
      WorldToMiniInContent(m, Point(w.MinX(), y));
      WorldToMiniInContent(m, Point(w.MaxX(), y));
      lines := lines + [Segment(p1, p2)];
      y := y + GridStep;
    }
    forall k ensures w.MinY() <= GridValue(k) <= w.MaxY() <==> first <= k < first + |lines| {
      assert GridValue(first - 1) < w.MinY() && GridValue(first + |lines|) > w.MaxY();
    }
  }
}
