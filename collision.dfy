/** Geometry predicates of src/utils/collision.ts. The square root, cosine and sine of the
    JavaScript `Math` object are supplied as a `Maths` record; `ValidMaths` states what the
    proofs need of the square root. */
module Collision {

  import opened Wrappers
  import opened Entropy

  datatype Point = Point(x: real, y: real)

  datatype Circle = Circle(x: real, y: real, radius: real)

  datatype Rectangle = Rectangle(x: real, y: real, width: real, height: real)

  datatype Maths = Maths(sqrt: real -> real, cos: real -> real, sin: real -> real)

  /** The square of a real; products stay behind this function so that the solver treats
      them as single terms. */
  function Sq(x: real): real
  {
    x * x
  }

  /** `Math.sqrt` on non-negative arguments: the non-negative square root. */
  ghost predicate ValidMaths(m: Maths)
  {
    forall x: real {:trigger m.sqrt(x)} :: 0.0 <= x ==> 0.0 <= m.sqrt(x) && Sq(m.sqrt(x)) == x
  }

  /** `dx * dx + dy * dy` for the two centres. */
  function SquaredDistance(x1: real, y1: real, x2: real, y2: real): (d: real)
    ensures d >= 0.0
  {
    SquareSign(x1 - x2);
    SquareSign(y1 - y2);
    Sq(x1 - x2) + Sq(y1 - y2)
  }

  /** Squaring is strictly monotone on non-negative reals. */
  lemma SquareMonotone(a: real, b: real)
    requires 0.0 <= a && a < b
    ensures Sq(a) < Sq(b)
  {
    var p, q, r := a * a, a * b, b * b;
    assert p <= q by { assert q - p == a * (b - a); }
    assert q < r by { assert r - q == b * (b - a); assert b * (b - a) > 0.0; }
  }

  lemma SquareSign(x: real)
    ensures Sq(x) >= 0.0
    ensures x != 0.0 ==> Sq(x) > 0.0
    ensures x == 0.0 ==> Sq(x) == 0.0
  {
    if x < 0.0 {
      SquareMonotone(0.0, -x);
      assert Sq(-x) == Sq(x);
    } else if x > 0.0 {
      SquareMonotone(0.0, x);
    }
  }

  /** A square root lies below `s` exactly when `s` is positive and its square lies below `Sq(s)`. */
  lemma SqrtBelow(m: Maths, a: real, s: real)
    requires ValidMaths(m) && 0.0 <= a
    ensures m.sqrt(a) < s <==> 0.0 < s && a < Sq(s)
  {
    var r := m.sqrt(a);
    if r < s {
      SquareMonotone(r, s);
    }
    if 0.0 < s && s <= r {
      if s < r {
        SquareMonotone(s, r);
      }
    }
  }

  /** The square root is strictly monotone. */
  lemma SqrtMonotone(m: Maths, a: real, b: real)
    requires ValidMaths(m) && 0.0 <= a && 0.0 <= b
    ensures m.sqrt(a) < m.sqrt(b) <==> a < b
  {
    var ra, rb := m.sqrt(a), m.sqrt(b);
    if ra < rb {
      SquareMonotone(ra, rb);
    }
    if rb < ra {
      SquareMonotone(rb, ra);
    }
  }

  lemma SqrtZero(m: Maths)
    requires ValidMaths(m)
    ensures m.sqrt(0.0) == 0.0
  {
    SquareSign(m.sqrt(0.0));
  }

  /** `circleToCircle`: the centre distance is below the sum of the radii. */
  function CircleToCircle(m: Maths, c1: Circle, c2: Circle): bool
  {
    m.sqrt(SquaredDistance(c1.x, c1.y, c2.x, c2.y)) < c1.radius + c2.radius
  }

  /** The overlap test in squared form, as used by every reasoning step about hits. */
  lemma CircleToCircleSquared(m: Maths, c1: Circle, c2: Circle)
    requires ValidMaths(m)
    ensures CircleToCircle(m, c1, c2) <==>
      var s := c1.radius + c2.radius;
      0.0 < s && SquaredDistance(c1.x, c1.y, c2.x, c2.y) < Sq(s)
  {
    SqrtBelow(m, SquaredDistance(c1.x, c1.y, c2.x, c2.y), c1.radius + c2.radius);
  }

  /** Overlap does not depend on the order of the two circles. */
  lemma CircleToCircleSymmetric(m: Maths, c1: Circle, c2: Circle)
    ensures CircleToCircle(m, c1, c2) == CircleToCircle(m, c2, c1)
  {
    assert SquaredDistance(c1.x, c1.y, c2.x, c2.y) == SquaredDistance(c2.x, c2.y, c1.x, c1.y);
  }

  /** Two circles of positive radius at the same centre always overlap. */
  lemma ConcentricCirclesOverlap(m: Maths, c1: Circle, c2: Circle)
    requires ValidMaths(m)
    requires c1.x == c2.x && c1.y == c2.y && c1.radius + c2.radius > 0.0
    ensures CircleToCircle(m, c1, c2)
  {
    SqrtZero(m);
  }

  /** `circleToCircleWithRadius`: `customRadius || circle2.radius`, so an absent or zero custom
      radius falls back to the second circle's own. */
  function CircleToCircleWithRadius(m: Maths, c1: Circle, c2: Circle,
                                    customRadius: Option<real>): (b: bool)
    ensures customRadius == None || customRadius == Some(0.0) ==>
      b == CircleToCircle(m, c1, c2)
    ensures customRadius.Some? && customRadius.value != 0.0 ==>
      b == CircleToCircle(m, c1, c2.(radius := customRadius.value))
  {
    var effectiveRadius :=
      if customRadius.Some? && customRadius.value != 0.0 then customRadius.value else c2.radius;
    m.sqrt(SquaredDistance(c1.x, c1.y, c2.x, c2.y)) < c1.radius + effectiveRadius
  }

  function Clamp(lo: real, hi: real, v: real): real
  {
    if lo >= (if v <= hi then v else hi) then lo else if v <= hi then v else hi
  }

  /** `circleToRectangle`: distance from the centre to the closest point of the rectangle. */
  function CircleToRectangle(m: Maths, c: Circle, rect: Rectangle): bool
  {
    var closestX := Clamp(rect.x, rect.x + rect.width, c.x);
    var closestY := Clamp(rect.y, rect.y + rect.height, c.y);
    m.sqrt(SquaredDistance(c.x, c.y, closestX, closestY)) < c.radius
  }

  /** A circle of positive radius whose centre lies in the rectangle collides with it; a circle
      whose centre is at least its radius away on one axis does not. */
  lemma CircleToRectangleCases(m: Maths, c: Circle, rect: Rectangle)
    requires ValidMaths(m)
    ensures (rect.x <= c.x <= rect.x + rect.width && rect.y <= c.y <= rect.y + rect.height
             && c.radius > 0.0) ==> CircleToRectangle(m, c, rect)
    ensures (rect.width >= 0.0 && c.radius >= 0.0 && c.x >= rect.x + rect.width + c.radius)
            ==> !CircleToRectangle(m, c, rect)
  {
    SqrtZero(m);
    var closestX := Clamp(rect.x, rect.x + rect.width, c.x);
    var closestY := Clamp(rect.y, rect.y + rect.height, c.y);
    var d := SquaredDistance(c.x, c.y, closestX, closestY);
    SqrtBelow(m, d, c.radius);
    SquareSign(c.x - closestX);
    SquareSign(c.y - closestY);
    if rect.width >= 0.0 && c.radius >= 0.0 && c.x >= rect.x + rect.width + c.radius {
      assert closestX == rect.x + rect.width;
      if c.radius < c.x - closestX {
        SquareMonotone(c.radius, c.x - closestX);
      }
    }
  }

  /** `isOffScreen`: the `margin` argument is ignored and a fixed 150 is used. */
  function IsOffScreen(p: Point, width: real, height: real, margin: real): (b: bool)
  {
    p.x < -150.0 || p.x > width + 150.0 || p.y < -150.0 || p.y > height + 150.0
  }

  /** The margin has no influence on the culling test. */
  lemma OffScreenIgnoresMargin(p: Point, width: real, height: real, m1: real, m2: real)
    ensures IsOffScreen(p, width, height, m1) == IsOffScreen(p, width, height, m2)
    ensures !IsOffScreen(p, width, height, m1) <==>
      -150.0 <= p.x <= width + 150.0 && -150.0 <= p.y <= height + 150.0
  {
  }

  /** `getRandomSpawnPosition`: one draw picks the side (`Math.floor(random * 4)`), a second
      the position along it; a side outside 0..3 yields the origin without a second draw.
      There is no zoom parameter. Returns the point and the next unused draw. */
  function GetRandomSpawnPosition(screenWidth: real, screenHeight: real,
                                  random: RandomStream, cursor: nat): (r: (Point, nat))
    ensures cursor + 1 <= r.1 <= cursor + 2
  {
    var side := (random(cursor) * 4.0).Floor;
    var margin := 50.0;
    if side == 0 then (Point(random(cursor + 1) * screenWidth, -margin), cursor + 2)
    else if side == 1 then (Point(screenWidth + margin, random(cursor + 1) * screenHeight), cursor + 2)
    else if side == 2 then (Point(random(cursor + 1) * screenWidth, screenHeight + margin), cursor + 2)
    else if side == 3 then (Point(-margin, random(cursor + 1) * screenHeight), cursor + 2)
    else (Point(0.0, 0.0), cursor + 1)
  }

  /** A spawn point lies 50 beyond one side of the `w` by `h` rectangle, within the span of the
      other axis, and so never inside the rectangle. */
  predicate OnSpawnEdge(p: Point, w: real, h: real)
  {
    && !(0.0 <= p.x <= w && 0.0 <= p.y <= h)
    && (((p.y == -50.0 || p.y == h + 50.0) && 0.0 <= p.x < w)
        || ((p.x == -50.0 || p.x == w + 50.0) && 0.0 <= p.y < h))
  }

  /** With draws in [0, 1) a side is always chosen, two draws are used and the point lies
      on the spawn edge: the first draw's quarter picks top, right, bottom or left, and the
      second draw places the point along that side. */
  lemma SpawnPositionOutside(w: real, h: real, random: RandomStream, cursor: nat)
    requires ValidRandom(random) && w > 0.0 && h > 0.0
    ensures var (p, next) := GetRandomSpawnPosition(w, h, random, cursor);
      next == cursor + 2 && OnSpawnEdge(p, w, h)
    ensures var (p, _) := GetRandomSpawnPosition(w, h, random, cursor);
      var r0, r1 := random(cursor), random(cursor + 1);
      && (r0 < 0.25 ==> p == Point(r1 * w, -50.0))
      && (0.25 <= r0 < 0.5 ==> p == Point(w + 50.0, r1 * h))
      && (0.5 <= r0 < 0.75 ==> p == Point(r1 * w, h + 50.0))
      && (0.75 <= r0 ==> p == Point(-50.0, r1 * h))
  {
    var r0, r1 := random(cursor), random(cursor + 1);
    assert 0.0 <= r0 < 1.0 && 0.0 <= r1 < 1.0;
    var side := (r0 * 4.0).Floor;
    assert 0 <= side < 4;
    FractionOfSpan(r1, w);
    FractionOfSpan(r1, h);
    if side == 0 {
      TopEdge(r1 * w, w, h);
    } else if side == 1 {
      RightEdge(r1 * h, w, h);
    } else if side == 2 {
      BottomEdge(r1 * w, w, h);
    } else {
      LeftEdge(r1 * h, w, h);
    }
  }

  lemma TopEdge(x: real, w: real, h: real)
    requires 0.0 <= x < w && h > 0.0
    ensures OnSpawnEdge(Point(x, -50.0), w, h)
  {
  }

  lemma RightEdge(y: real, w: real, h: real)
    requires 0.0 <= y < h && w > 0.0
    ensures OnSpawnEdge(Point(w + 50.0, y), w, h)
  {
  }

  lemma BottomEdge(x: real, w: real, h: real)
    requires 0.0 <= x < w && h > 0.0
    ensures OnSpawnEdge(Point(x, h + 50.0), w, h)
  {
  }

  lemma LeftEdge(y: real, w: real, h: real)
    requires 0.0 <= y < h && w > 0.0
    ensures OnSpawnEdge(Point(-50.0, y), w, h)
  {
  }

  /** A draw in [0, 1) times a positive span lies in [0, span). */
  lemma FractionOfSpan(r: real, span: real)
    requires 0.0 <= r < 1.0 && span > 0.0
    ensures 0.0 <= r * span < span
  {
    assert r * span < 1.0 * span;
  }

  /** `getDistance`. */
  function GetDistance(m: Maths, p: Point, q: Point): real
  {
    m.sqrt(SquaredDistance(p.x, p.y, q.x, q.y))
  }

  /** Distance is symmetric, zero between equal points, and orders points like squared distance. */
  lemma DistanceFacts(m: Maths, p: Point, q: Point, r: Point)
    requires ValidMaths(m)
    ensures GetDistance(m, p, q) == GetDistance(m, q, p)
    ensures GetDistance(m, p, p) == 0.0
    ensures GetDistance(m, p, q) < GetDistance(m, p, r) <==>
      SquaredDistance(p.x, p.y, q.x, q.y) < SquaredDistance(p.x, p.y, r.x, r.y)
  {
    assert SquaredDistance(p.x, p.y, q.x, q.y) == SquaredDistance(q.x, q.y, p.x, p.y);
    assert SquaredDistance(p.x, p.y, p.x, p.y) == 0.0;
    SqrtZero(m);
    SqrtMonotone(m, SquaredDistance(p.x, p.y, q.x, q.y), SquaredDistance(p.x, p.y, r.x, r.y));
  }

  /** `normalize`: the zero vector maps to the origin, any other vector to the unit vector of
      the same direction. */
  function Normalize(m: Maths, v: Point): Point
  {
    var length := m.sqrt(Sq(v.x) + Sq(v.y));
    if length == 0.0 then Point(0.0, 0.0) else Point(v.x / length, v.y / length)
  }

  /** The zero vector stays at the origin; any other vector becomes a vector of length one that
      scales back to the original by its length. */
  lemma NormalizeFacts(m: Maths, v: Point)
    requires ValidMaths(m)
    ensures v == Point(0.0, 0.0) ==> Normalize(m, v) == Point(0.0, 0.0)
    ensures v != Point(0.0, 0.0) ==>
      var n := Normalize(m, v);
      var length := m.sqrt(Sq(v.x) + Sq(v.y));
      && length > 0.0
      && Sq(n.x) + Sq(n.y) == 1.0
      && n.x * length == v.x && n.y * length == v.y
  {
    SqrtZero(m);
    SquareSign(v.x);
    SquareSign(v.y);
    if v != Point(0.0, 0.0) {
      var d := Sq(v.x) + Sq(v.y);
      var length := m.sqrt(d);
      SqrtMonotone(m, 0.0, d);
      assert length > 0.0 && Sq(length) == d;
      var nx, ny := v.x / length, v.y / length;
      assert Normalize(m, v) == Point(nx, ny);
      DivisionScalesBack(v.x, length);
      DivisionScalesBack(v.y, length);
      UnitScaled(nx, ny, v.x, v.y, length);
    }
  }

  lemma DivisionScalesBack(x: real, l: real)
    requires l > 0.0
    ensures (x / l) * l == x
  {
  }

  /** Components scaled by the length of the vector they came from form a unit vector. */
  lemma UnitScaled(nx: real, ny: real, x: real, y: real, length: real)
    requires length > 0.0 && nx * length == x && ny * length == y
    requires Sq(length) == Sq(x) + Sq(y)
    ensures Sq(nx) + Sq(ny) == 1.0
  {
    SquareSign(length);
    assert (nx * length) * (nx * length) == x * x;
    assert (ny * length) * (ny * length) == y * y;
    assert (nx * nx + ny * ny) * (length * length)
        == (nx * length) * (nx * length) + (ny * length) * (ny * length);
    assert (nx * nx + ny * ny - 1.0) * (length * length) == 0.0;
  }
}
