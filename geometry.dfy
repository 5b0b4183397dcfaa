/** Real-valued helpers shared by the touch handler, the client and the
    server: the JavaScript `Math.abs`, `Math.sign` and `Math.round`, plane
    vectors and squared distances (every `Math.sqrt(...) < t` of the source is
    compared as `sq < t * t`, which is the same test for a positive `t`). */
module Geometry {

  /** A point or a displacement in the plane. */
  datatype Vec = Vec(x: real, y: real)

  function Add(u: Vec, v: Vec): Vec
  {
    Vec(u.x + v.x, u.y + v.y)
  }

  function Sub(u: Vec, v: Vec): Vec
  {
    Vec(u.x - v.x, u.y - v.y)
  }

  const Zero := Vec(0.0, 0.0)

  /** `Math.abs`. */
  function Abs(x: real): (r: real)
    ensures r >= 0.0 && (r == x || r == -x)
  {
    if x < 0.0 then -x else x
  }

  /** `Math.sign`: the unit that, times the magnitude, gives back `x`. */
  function Sign(x: real): (r: real)
    ensures r == 1.0 || r == 0.0 || r == -1.0
    ensures r * Abs(x) == x
    ensures (r == 0.0) == (x == 0.0) && (r > 0.0) == (x > 0.0)
  {
    if x > 0.0 then 1.0 else if x < 0.0 then -1.0 else 0.0
  }

  /** `Math.round`: the nearest integer, halves rounded up. */
  function Round(x: real): (r: int)
    ensures x - 0.5 < r as real <= x + 0.5
  {
    (x + 0.5).Floor
  }

  /** Rounding an integer gives it back. */
  lemma RoundInteger(n: int)
    ensures Round(n as real) == n
  {
  }

  /** Multiplying by a non-negative factor keeps an order. */
  lemma MulMono(x: real, y: real, z: real)
    requires x >= y && z >= 0.0
    ensures x * z >= y * z
  {
  }

  /** Squaring is monotone on non-negative reals. */
  lemma SquareMono(b: real, t: real)
    requires b >= t >= 0.0
    ensures b * b >= t * t
  {
    MulMono(b, t, b);
    MulMono(b, t, t);
  }

  /** A square is the square of the magnitude. */
  lemma SquareAbs(a: real)
    ensures a * a == Abs(a) * Abs(a)
  {
    if a < 0.0 {
      assert Abs(a) == -a;
    }
  }

  /** A square below `t * t` comes from a magnitude below `t`. */
  lemma SquareBelow(a: real, t: real)
    requires t >= 0.0
    ensures a * a < t * t ==> Abs(a) < t
  {
    if Abs(a) >= t {
      SquareMono(Abs(a), t);
      SquareAbs(a);
    }
  }

  /** The square of the Euclidean distance between two points: never
      negative and zero for equal points. */
  function SqDist(p: Vec, q: Vec): (r: real)
    ensures r >= 0.0
    ensures p == q ==> r == 0.0
  {
    (q.x - p.x) * (q.x - p.x) + (q.y - p.y) * (q.y - p.y)
  }

  /** Two points closer than `t` lie within `t` of each other on both axes. */
  lemma CloseOnBothAxes(p: Vec, q: Vec, t: real)
    requires t >= 0.0
    ensures SqDist(p, q) < t * t ==> Abs(q.x - p.x) < t && Abs(q.y - p.y) < t
  {
    var dx, dy := q.x - p.x, q.y - p.y;
    SquareMono(Abs(dx), 0.0);
    SquareMono(Abs(dy), 0.0);
    SquareAbs(dx);
    SquareAbs(dy);
    SquareBelow(dx, t);
    SquareBelow(dy, t);
  }

  /** `Math.abs(x) > 1 || Math.abs(y) > 1`: the gate every accumulator uses. */
  predicate ExceedsUnit(v: Vec)
    ensures ExceedsUnit(v) <==> !(-1.0 <= v.x <= 1.0 && -1.0 <= v.y <= 1.0)
  {
    Abs(v.x) > 1.0 || Abs(v.y) > 1.0
  }
}
