/**
 * The framework's vector, point and rectangle types, and the C# numeric
 * conventions the mod relies on: `(int)` casts of floats and integer `/` and
 * `%` all truncate toward zero, where Dafny's `/` and `%` on `int` are
 * Euclidean. Floats are modelled as reals.
 */
module Geometry {

  /** Microsoft.Xna.Framework.Vector2. */
  datatype Vec = Vec(x: real, y: real) {
    function Add(o: Vec): Vec { Vec(x + o.x, y + o.y) }
    function Sub(o: Vec): Vec { Vec(x - o.x, y - o.y) }
    function Scale(k: real): Vec { Vec(x * k, y * k) }
    function LengthSquared(): real { x * x + y * y }
  }

  const Zero := Vec(0.0, 0.0)

  /** Vector2.DistanceSquared; never negative. */
  function DistanceSquared(a: Vec, b: Vec): (d: real)
    ensures 0.0 <= d
  {
    var dx, dy := a.x - b.x, a.y - b.y;
    assert 0.0 <= dx * dx && 0.0 <= dy * dy;
    a.Sub(b).LengthSquared()
  }

  /** Vector2.Lerp: `a + (b - a) * t`, component-wise. */
  function Lerp(a: Vec, b: Vec, t: real): Vec
  {
    Vec(a.x + (b.x - a.x) * t, a.y + (b.y - a.y) * t)
  }

  function Abs(n: int): nat { if n < 0 then -n else n }

  function RAbs(r: real): real { if r < 0.0 then -r else r }

  /** Math.Clamp / MathHelper.Clamp with `lo <= hi` (every call site passes constants). */
  function Clamp(v: real, lo: real, hi: real): (r: real)
    requires lo <= hi
    ensures lo <= r <= hi
    ensures lo <= v <= hi ==> r == v
    ensures v < lo ==> r == lo
    ensures hi < v ==> r == hi
  {
    if v < lo then lo else if hi < v then hi else v
  }

  /** Terraria's `bool.ToDirectionInt()`. */
  function ToDirectionInt(b: bool): (d: int)
    ensures d == 1 || d == -1
    ensures d == 1 <==> b
  {
    if b then 1 else -1
  }

  /** Math.Sign of a float. */
  function Sign(r: real): int
  {
    if r < 0.0 then -1 else if r > 0.0 then 1 else 0
  }

  /** A C# `(int)` cast of a float: the fractional part is dropped, toward zero. */
  function Truncate(r: real): (n: int)
    ensures Abs(n) as real <= RAbs(r) < Abs(n) as real + 1.0
    ensures n != 0 ==> (0 < n <==> 0.0 < r)
  {
    if r >= 0.0 then r.Floor else -((-r).Floor)
  }

  /** C# integer division `a / b`, which truncates toward zero. */
  function TDiv(a: int, b: int): (q: int)
    requires b != 0
    ensures Abs(q) == Abs(a) / Abs(b)
    ensures (0 <= a) == (0 < b) ==> 0 <= q
    ensures (0 <= a) != (0 < b) ==> q <= 0
  {
    var n, d := Abs(a), Abs(b);
    var m: int := n / d;
    assert 0 <= m by { assert 0 <= n && 0 < d; }
    if (0 <= a) == (0 < b) then m else -m
  }

  /** C# remainder `a % b`: it takes the sign of the dividend. */
  function TMod(a: int, b: int): (r: int)
    requires b != 0
    ensures a == b * TDiv(a, b) + r
    ensures Abs(r) < Abs(b)
    ensures r != 0 ==> (0 < r <==> 0 < a)
  {
    var n, d := Abs(a), Abs(b);
    var m: int := n % d;
    assert n == d * (n / d) + m;
    if 0 <= a then m else -m
  }

  /** On a nonnegative dividend and positive divisor C# and Dafny agree. */
  lemma TruncatingAgreesOnNaturals(a: int, b: int)
    requires 0 <= a && 0 < b
    ensures TDiv(a, b) == a / b && TMod(a, b) == a % b
  {
  }

  /** Microsoft.Xna.Framework.Point. */
  datatype Point = Point(x: int, y: int)

  /**
   * Terraria's `Vector2.ToTileCoordinates()`: each coordinate is cast to an
   * int, which truncates toward zero, and then shifted right by 4, which
   * rounds down. Dafny's `/` by 16 rounds down too, so it is that shift.
   */
  function ToTileCoordinates(v: Vec): (p: Point)
    ensures 16 * p.x <= Truncate(v.x) < 16 * p.x + 16
    ensures 16 * p.y <= Truncate(v.y) < 16 * p.y + 16
  {
    Point(Truncate(v.x) / 16, Truncate(v.y) / 16)
  }

  /** Microsoft.Xna.Framework.Rectangle. */
  datatype Rect = Rect(x: int, y: int, width: int, height: int) {

    predicate Contains(p: Point)
    {
      x <= p.x < x + width && y <= p.y < y + height
    }

    predicate Intersects(o: Rect)
    {
      o.x < x + width && x < o.x + o.width && o.y < y + height && y < o.y + o.height
    }

    /** Rectangle.Inflate: grows by `h` on the left and right and `v` on top and bottom. */
    function Inflate(h: int, v: int): Rect
    {
      Rect(x - h, y - v, width + 2 * h, height + 2 * v)
    }
  }

  function Min(a: int, b: int): int { if a <= b then a else b }

  function Max(a: int, b: int): int { if a <= b then b else a }

  /**
   * Rectangle.Intersect: the overlap of two rectangles, or the empty
   * rectangle (0, 0, 0, 0) when they do not overlap. Either way it contains
   * exactly the points both rectangles contain.
   */
  function Intersect(a: Rect, b: Rect): (r: Rect)
    ensures forall p :: r.Contains(p) <==> a.Contains(p) && b.Contains(p)
  {
    if a.Intersects(b) then
      var left := Max(a.x, b.x);
      var top := Max(a.y, b.y);
      Rect(left, top, Min(a.x + a.width, b.x + b.width) - left, Min(a.y + a.height, b.y + b.height) - top)
    else
      Rect(0, 0, 0, 0)
  }
}
