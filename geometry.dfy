/**
 * The vector and rectangle arithmetic of the modelled scripts (Unity's
 * `Vector2`, `Vector3` and `Rect`), over `real`.
 */
module Geometry {
  import opened Mathf

  datatype Vec2 = Vec2(x: real, y: real) {
    function Plus(o: Vec2): Vec2 { Vec2(x + o.x, y + o.y) }
    function Minus(o: Vec2): Vec2 { Vec2(x - o.x, y - o.y) }
    function Times(k: real): Vec2 { Vec2(x * k, y * k) }
    /** Squared length; lengths themselves need a square root and are not modelled. */
    function SqLength(): real { x * x + y * y }
  }

  datatype Vec3 = Vec3(x: real, y: real, z: real) {
    function Times(k: real): Vec3 { Vec3(x * k, y * k, z * k) }
  }

  function Abs(r: real): real { if r < 0.0 then -r else r }

  /** Unity `Rect`: the minimum corner and the (signed) size. */
  datatype Rect = Rect(x: real, y: real, width: real, height: real) {
    function XMax(): real { x + width }
    function YMax(): real { y + height }

    /** A point strictly inside the rectangle. */
    predicate Interior(p: Vec2) {
      x < p.x < XMax() && y < p.y < YMax()
    }

    /** The centre of the intersection of the two rectangles. */
    function SharedPoint(other: Rect): Vec2 {
      Vec2((Max(x, other.x) + Min(XMax(), other.XMax())) / 2.0,
           (Max(y, other.y) + Min(YMax(), other.YMax())) / 2.0)
    }

    /**
     * `Rect.Overlaps(other)`: strict on every side, so rectangles that only
     * share an edge do not overlap; rectangles of positive size overlap
     * exactly when some point lies strictly inside both.
     */
    function Overlaps(other: Rect): (b: bool)
      ensures XMax() == other.x || other.XMax() == x || YMax() == other.y || other.YMax() == y ==> !b
      ensures (exists p :: Interior(p) && other.Interior(p)) ==> b
      ensures b && width > 0.0 && height > 0.0 && other.width > 0.0 && other.height > 0.0 ==>
                Interior(SharedPoint(other)) && other.Interior(SharedPoint(other))
    {
      other.XMax() > x && other.x < XMax() && other.YMax() > y && other.y < YMax()
    }
  }

  /** `new Rect(center - size / 2, size)` */
  function CenteredRect(center: Vec2, size: Vec2): (r: Rect)
    ensures r.x + r.width / 2.0 == center.x && r.y + r.height / 2.0 == center.y
    ensures r.width == size.x && r.height == size.y
  {
    Rect(center.x - size.x / 2.0, center.y - size.y / 2.0, size.x, size.y)
  }

  /** A rectangle grown by `pad` on every side. */
  function Inflate(r: Rect, pad: real): (g: Rect)
    ensures g.x == r.x - pad && g.y == r.y - pad
    ensures g.XMax() == r.XMax() + pad && g.YMax() == r.YMax() + pad
  {
    Rect(r.x - pad, r.y - pad, r.width + 2.0 * pad, r.height + 2.0 * pad)
  }

  /**
   * Two centred rectangles of non-negative size, the second grown by `pad`,
   * overlap exactly when their centres are closer than the half sizes plus
   * the pad on both axes.
   */
  lemma CenteredOverlapIff(p: Vec2, s: Vec2, q: Vec2, t: Vec2, pad: real)
    requires s.x >= 0.0 && s.y >= 0.0 && t.x >= 0.0 && t.y >= 0.0 && pad >= 0.0
    ensures CenteredRect(p, s).Overlaps(Inflate(CenteredRect(q, t), pad))
        <==> Abs(p.x - q.x) < (s.x + t.x) / 2.0 + pad && Abs(p.y - q.y) < (s.y + t.y) / 2.0 + pad
  {
  }

  /** The four corners of a room, counter-clockwise from the lower left. */
  function RoomCorners(center: Vec2, size: Vec2): (c: seq<Vec2>)
    ensures |c| == 4
    ensures c[0].Plus(c[2]) == center.Times(2.0) && c[1].Plus(c[3]) == center.Times(2.0)
    ensures c[1].Minus(c[0]) == Vec2(size.x, 0.0) && c[2].Minus(c[1]) == Vec2(0.0, size.y)
    ensures c[2].Minus(c[3]) == Vec2(size.x, 0.0) && c[3].Minus(c[0]) == Vec2(0.0, size.y)
  {
    [ center.Plus(Vec2(-size.x / 2.0, -size.y / 2.0)),
      center.Plus(Vec2(size.x / 2.0, -size.y / 2.0)),
      center.Plus(Vec2(size.x / 2.0, size.y / 2.0)),
      center.Plus(Vec2(-size.x / 2.0, size.y / 2.0)) ]
  }

  /** The normal of a direction: the direction turned a quarter to the left. */
  function Perpendicular(d: Vec2): (p: Vec2)
    ensures p.x * d.x + p.y * d.y == 0.0
    ensures p.SqLength() == d.SqLength()
  {
    Vec2(-d.y, d.x)
  }

  /**
   * The corners of a corridor of width `width` from `start` to `end` along
   * the unit direction `d`: both long sides, then back.
   */
  function CorridorCorners(start: Vec2, end: Vec2, d: Vec2, width: real): (c: seq<Vec2>)
    ensures |c| == 4
    ensures c[0].Plus(c[3]) == start.Times(2.0) && c[1].Plus(c[2]) == end.Times(2.0)
    ensures c[1].Minus(c[0]) == end.Minus(start) && c[2].Minus(c[3]) == end.Minus(start)
    ensures c[0].Minus(c[3]) == Perpendicular(d).Times(width)
  {
    var p := Perpendicular(d);
    [ start.Plus(p.Times(width / 2.0)),
      end.Plus(p.Times(width / 2.0)),
      end.Minus(p.Times(width / 2.0)),
      start.Minus(p.Times(width / 2.0)) ]
  }

  /** With a unit direction, the two long sides of a corridor are `width` apart. */
  lemma CorridorSidesApart(start: Vec2, end: Vec2, d: Vec2, width: real)
    requires d.SqLength() == 1.0
    ensures var c := CorridorCorners(start, end, d, width);
            c[0].Minus(c[3]).SqLength() == width * width
            && c[1].Minus(c[2]).SqLength() == width * width
  {
    var p := Perpendicular(d);
    var c := CorridorCorners(start, end, d, width);
    assert c[1].Minus(c[2]) == p.Times(width);
    ScaledSqLength(p, width);
  }

  lemma ScaledSqLength(v: Vec2, k: real)
    ensures v.Times(k).SqLength() == k * k * v.SqLength()
  {
    assert (v.x * k) * (v.x * k) == k * k * (v.x * v.x);
    assert (v.y * k) * (v.y * k) == k * k * (v.y * v.y);
  }

  /**
   * A point drawn at fractions `u`, `v` of the central 80% of a room:
   * `center + ((u - 0.5) * size.x * 0.8, (v - 0.5) * size.y * 0.8)`.
   */
  function InteriorPoint(center: Vec2, size: Vec2, u: real, v: real): (p: Vec2)
    requires 0.0 <= u < 1.0 && 0.0 <= v < 1.0
    ensures Abs(p.x - center.x) <= 0.4 * Abs(size.x)
    ensures Abs(p.y - center.y) <= 0.4 * Abs(size.y)
  {
    CentralOffset(u, size.x);
    CentralOffset(v, size.y);
    center.Plus(Vec2((u - 0.5) * size.x * 0.8, (v - 0.5) * size.y * 0.8))
  }

  lemma CentralOffset(u: real, len: real)
    requires 0.0 <= u < 1.0
    ensures Abs((u - 0.5) * len * 0.8) <= 0.4 * Abs(len)
  {
    var w := u - 0.5;
    var m := Abs(len) * 0.8;
    HalfBound(w, m);
    if len >= 0.0 {
      assert w * len * 0.8 == w * m;
    } else {
      assert w * len * 0.8 == -(w * m);
    }
  }

  lemma HalfBound(w: real, m: real)
    requires -0.5 <= w <= 0.5 && m >= 0.0
    ensures -0.5 * m <= w * m <= 0.5 * m
  {
    assert (0.5 - w) * m >= 0.0;
    assert (w + 0.5) * m >= 0.0;
  }
}
