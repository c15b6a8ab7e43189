/** Rectangles and the ray casting of src/server/game_world.cpp, over exact reals. A direction is
    any non-zero vector; for the cosine and sine of an angle its magnitude is one, so the parameter
    `t` of an impact is the distance that `impacts` computes. */
module Geometry {
  import opened Basics
  import opened Settings

  /** src/server/rect.cpp */
  datatype Rect = Rect(x: int, y: int, w: int, h: int) {
    predicate IntersectsWith(o: Rect) {
      !(x + w <= o.x || x >= o.x + o.w || y + h <= o.y || y >= o.y + o.h)
    }

    predicate Contains(o: Rect) {
      o.x >= x && o.x + o.w <= x + w && o.y >= y && o.y + o.h <= y + h
    }
  }

  datatype Vec = Vec(x: real, y: real) {
    function Minus(o: Vec): Vec { Vec(x - o.x, y - o.y) }
    function Cross(o: Vec): real { x * o.y - y * o.x }
  }

  /** A coordinate that starts at `o` and moves at rate `d`. */
  function Coord(o: real, d: real, t: real): real { o + t * d }

  datatype Ray = Ray(origin: Vec, dir: Vec) {
    function At(t: real): Vec { Vec(Coord(origin.x, dir.x, t), Coord(origin.y, dir.y, t)) }
    function Path(): real -> Vec { t => At(t) }
    predicate Valid() { dir.x != 0.0 || dir.y != 0.0 }
  }

  datatype Impact = Impact(t: real, point: Vec)

  function IntersectsSegment(ray: Ray, start: Vec, end: Vec): Option<Impact> {
    var segDir := end.Minus(start);
    var r := start.Minus(ray.origin);
    var c := ray.dir.Cross(segDir);
    if c == 0.0 then None
    else
      var t := r.Cross(segDir) / c;
      var u := r.Cross(ray.dir) / c;
      if t >= 0.0 && u >= 0.0 && u <= 1.0 then Some(Impact(t, ray.At(t))) else None
  }

  function Corners(r: Rect): (Vec, Vec, Vec, Vec) {
    var x0, x1, y0, y1 := r.x as real, (r.x + r.w) as real, r.y as real, (r.y + r.h) as real;
    (Vec(x0, y0), Vec(x1, y0), Vec(x1, y1), Vec(x0, y1))
  }

  function Closer(a: Option<Impact>, b: Option<Impact>): Option<Impact> {
    if b.None? then a
    else if a.None? || b.value.t < a.value.t then b
    else a
  }

  /** The nearest of the four edges' impacts, the earlier edge on a tie. */
  function NearestEdge(r: Rect, cast: (Vec, Vec) -> Option<Impact>): Option<Impact> {
    var (v1, v2, v3, v4) := Corners(r);
    Closer(Closer(Closer(cast(v1, v2), cast(v2, v3)), cast(v3, v4)), cast(v4, v1))
  }

  /** Where a shot meets the outline of a collidable. */
  function Impacts(ray: Ray, r: Rect): Option<Impact> {
    NearestEdge(r, (start, end) => IntersectsSegment(ray, start, end))
  }

  // ---- What an impact should be

  predicate OnSegment(a: Vec, b: Vec, p: Vec) {
    (a.x <= p.x <= b.x || b.x <= p.x <= a.x) && (a.y <= p.y <= b.y || b.y <= p.y <= a.y)
  }

  predicate OnOutline(r: Rect, p: Vec) {
    var (v1, v2, v3, v4) := Corners(r);
    OnSegment(v1, v2, p) || OnSegment(v2, v3, p) || OnSegment(v3, v4, p) || OnSegment(v4, v1, p)
  }

  predicate InClosed(r: Rect, p: Vec) {
    r.x as real <= p.x <= (r.x + r.w) as real && r.y as real <= p.y <= (r.y + r.h) as real
  }

  /** `i` is the first point of the ray on the outline, or nothing when the ray misses it. */
  ghost predicate IsFirstOnOutline(ray: Ray, r: Rect, i: Option<Impact>) {
    match i
    case None => forall s :: s >= 0.0 ==> !OnOutline(r, ray.At(s))
    case Some(im) =>
      && im.t >= 0.0 && im.point == ray.At(im.t) && OnOutline(r, im.point)
      && forall s :: 0.0 <= s < im.t ==> !OnOutline(r, ray.At(s))
  }

  /** The ray starts strictly between the ends of an edge and runs along it. */
  predicate Skims(ray: Ray, r: Rect) {
    var (v1, _, v3, _) := Corners(r);
    || (ray.dir.y == 0.0 && (ray.origin.y == v1.y || ray.origin.y == v3.y) && v1.x < ray.origin.x < v3.x)
    || (ray.dir.x == 0.0 && (ray.origin.x == v1.x || ray.origin.x == v3.x) && v1.y < ray.origin.y < v3.y)
  }

  // ---- Arithmetic steps

  lemma ZeroProduct(a: real, b: real)
    requires a * b == 0.0 && b != 0.0
    ensures a == 0.0
  {}

  lemma Ordered(a: real, b: real, d: real, p: real, q: real)
    requires a <= b && p == a * d && q == b * d
    ensures (d >= 0.0 ==> p <= q) && (d <= 0.0 ==> q <= p)
  {
    var gap := b - a;
    assert gap * d == q - p;
    if gap > 0.0 && d > 0.0 { MulPos(gap, d); }
    if gap > 0.0 && d < 0.0 { MulPos(gap, -d); }
  }

  // ---- One edge

  /** The equations of intersects_segment, for a segment from `a` to `b` at level `v` parallel to an axis:
      `o` and `d` are the ray's coordinates along that axis, `p` and `q` those across it. */
  lemma AxisEdge(o: real, d: real, p: real, q: real, a: real, b: real, v: real, t: real, u: real)
    requires a != b && q != 0.0
    requires t * (q * (b - a)) == (v - p) * (b - a)
    requires u * (q * (b - a)) == (v - p) * d - (a - o) * q
    ensures Coord(p, q, t) == v && Coord(o, d, t) == a + u * (b - a)
    ensures (0.0 <= u <= 1.0) <==> (a <= Coord(o, d, t) <= b || b <= Coord(o, d, t) <= a)
  {
    var k := b - a;
    assert (t * q - (v - p)) * k == 0.0;
    ZeroProduct(t * q - (v - p), k);
    assert t * q == v - p;
    assert (v - p) * d == t * q * d;
    assert (u * k - (t * d - (a - o))) * q == u * (q * k) - t * q * d + (a - o) * q == 0.0;
    ZeroProduct(u * k - (t * d - (a - o)), q);
    var x := Coord(o, d, t);
    assert x == a + u * k;
    Fraction(u, k, x - a);
  }

  lemma SignOfProduct(a: real, k: real, p: real)
    requires k != 0.0 && p == a * k
    ensures k > 0.0 ==> (a > 0.0 <==> p > 0.0) && (a < 0.0 <==> p < 0.0)
    ensures k < 0.0 ==> (a > 0.0 <==> p < 0.0) && (a < 0.0 <==> p > 0.0)
  {
    if k > 0.0 {
      if a > 0.0 { MulPos(a, k); } else if a < 0.0 { MulPos(-a, k); }
    } else {
      if a > 0.0 { MulPos(a, -k); } else if a < 0.0 { MulPos(-a, -k); }
    }
  }

  lemma Fraction(u: real, k: real, m: real)
    requires k != 0.0 && m == u * k
    ensures 0.0 <= u <= 1.0 <==> (0.0 <= m <= k || k <= m <= 0.0)
  {
    SignOfProduct(u, k, m);
    SignOfProduct(1.0 - u, k, k - m);
  }

  lemma Quotient(a: real, c: real, t: real)
    requires c != 0.0 && t == a / c
    ensures t * c == a && t * (-c) == -a
  {}

  lemma OnlyOneCrossing(p: real, q: real, v: real, t: real, s: real)
    requires q != 0.0 && Coord(p, q, t) == v && Coord(p, q, s) == v
    ensures t == s
  {
    assert (t - s) * q == 0.0;
    ZeroProduct(t - s, q);
  }

  /** `i` is what casting a ray on one edge should give; `at` is the ray's path, `crossing` says
      that it does not run parallel to the edge, and `s` is any parameter. */
  ghost predicate EdgeOk(i: Option<Impact>, at: real -> Vec, crossing: bool, a: Vec, b: Vec, s: real) {
    && (i.Some? ==> crossing && i.value.t >= 0.0 && i.value.point == at(i.value.t) && OnSegment(a, b, i.value.point))
    && (crossing && s >= 0.0 && OnSegment(a, b, at(s)) ==> i.Some? && i.value.t == s)
  }

  /** The two quotients of intersects_segment, and the result they lead to. */
  lemma Quotients(ray: Ray, start: Vec, end: Vec, c: real, a: real, b: real) returns (t: real, u: real)
    requires c == ray.dir.Cross(end.Minus(start)) && c != 0.0
    requires a == start.Minus(ray.origin).Cross(end.Minus(start))
    requires b == start.Minus(ray.origin).Cross(ray.dir)
    ensures t * c == a && u * c == b
    ensures IntersectsSegment(ray, start, end) == Result(ray, t, u)
  {
    t, u := a / c, b / c;
    Quotient(a, c, t);
    Quotient(b, c, u);
  }

  function Result(ray: Ray, t: real, u: real): Option<Impact> {
    if t >= 0.0 && 0.0 <= u <= 1.0 then Some(Impact(t, ray.At(t))) else None
  }

  lemma HorizontalQuotients(ray: Ray, start: Vec, end: Vec) returns (t: real, u: real)
    requires start.y == end.y && start.x != end.x && ray.dir.y != 0.0
    ensures t * (ray.dir.y * (end.x - start.x)) == (start.y - ray.origin.y) * (end.x - start.x)
    ensures u * (ray.dir.y * (end.x - start.x))
            == (start.y - ray.origin.y) * ray.dir.x - (start.x - ray.origin.x) * ray.dir.y
    ensures IntersectsSegment(ray, start, end) == Result(ray, t, u)
  {
    var d, r, k := ray.dir, start.Minus(ray.origin), end.x - start.x;
    var q := d.y * k;
    if q == 0.0 { ZeroProduct(d.y, k); }
    var a, b := r.y * k, r.y * d.x - r.x * d.y;
    t, u := Quotients(ray, start, end, -q, -a, -b);
    Negate(t, q, a);
    Negate(u, q, b);
  }

  lemma Negate(t: real, q: real, a: real)
    requires t * (-q) == -a
    ensures t * q == a
  {}

  lemma VerticalQuotients(ray: Ray, start: Vec, end: Vec) returns (t: real, u: real)
    requires start.x == end.x && start.y != end.y && ray.dir.x != 0.0
    ensures t * (ray.dir.x * (end.y - start.y)) == (start.x - ray.origin.x) * (end.y - start.y)
    ensures u * (ray.dir.x * (end.y - start.y))
            == (start.x - ray.origin.x) * ray.dir.y - (start.y - ray.origin.y) * ray.dir.x
    ensures IntersectsSegment(ray, start, end) == Result(ray, t, u)
  {
    var d, r, k := ray.dir, start.Minus(ray.origin), end.y - start.y;
    var q := d.x * k;
    if q == 0.0 { ZeroProduct(d.x, k); }
    t, u := Quotients(ray, start, end, q, r.x * k, r.x * d.y - r.y * d.x);
  }

  lemma HorizontalResult(ray: Ray, start: Vec, end: Vec, t: real, u: real)
    requires start.y == end.y && start.x != end.x && ray.dir.y != 0.0
    requires t * (ray.dir.y * (end.x - start.x)) == (start.y - ray.origin.y) * (end.x - start.x)
    requires u * (ray.dir.y * (end.x - start.x))
             == (start.y - ray.origin.y) * ray.dir.x - (start.x - ray.origin.x) * ray.dir.y
    ensures ray.At(t).y == start.y && (0.0 <= u <= 1.0 <==> OnSegment(start, end, ray.At(t)))
  {
    AxisEdge(ray.origin.x, ray.dir.x, ray.origin.y, ray.dir.y, start.x, end.x, start.y, t, u);
  }

  lemma VerticalResult(ray: Ray, start: Vec, end: Vec, t: real, u: real)
    requires start.x == end.x && start.y != end.y && ray.dir.x != 0.0
    requires t * (ray.dir.x * (end.y - start.y)) == (start.x - ray.origin.x) * (end.y - start.y)
    requires u * (ray.dir.x * (end.y - start.y))
             == (start.x - ray.origin.x) * ray.dir.y - (start.y - ray.origin.y) * ray.dir.x
    ensures ray.At(t).x == start.x && (0.0 <= u <= 1.0 <==> OnSegment(start, end, ray.At(t)))
  {
    AxisEdge(ray.origin.y, ray.dir.y, ray.origin.x, ray.dir.x, start.y, end.y, start.x, t, u);
  }

  lemma HorizontalEdge(ray: Ray, start: Vec, end: Vec, i: Option<Impact>, s: real)
    requires start.y == end.y && start.x != end.x
    requires i == IntersectsSegment(ray, start, end)
    ensures EdgeOk(i, ray.Path(), ray.dir.y != 0.0, start, end, s)
  {
    if ray.dir.y == 0.0 {
      assert ray.dir.Cross(end.Minus(start)) == 0.0;
    } else {
      var t, u := HorizontalQuotients(ray, start, end);
      HorizontalResult(ray, start, end, t, u);
      if OnSegment(start, end, ray.At(s)) { OnlyOneCrossing(ray.origin.y, ray.dir.y, start.y, t, s); }
    }
  }

  lemma VerticalEdge(ray: Ray, start: Vec, end: Vec, i: Option<Impact>, s: real)
    requires start.x == end.x && start.y != end.y
    requires i == IntersectsSegment(ray, start, end)
    ensures EdgeOk(i, ray.Path(), ray.dir.x != 0.0, start, end, s)
  {
    if ray.dir.x == 0.0 {
      assert ray.dir.Cross(end.Minus(start)) == 0.0;
    } else {
      var t, u := VerticalQuotients(ray, start, end);
      VerticalResult(ray, start, end, t, u);
      if OnSegment(start, end, ray.At(s)) { OnlyOneCrossing(ray.origin.x, ray.dir.x, start.x, t, s); }
    }
  }

  // ---- The four edges together

  /** A point on a horizontal edge when the path moves vertically (`hy`), or on a vertical one when
      it moves horizontally (`hx`). */
  predicate CrossesAt(r: Rect, hx: bool, hy: bool, p: Vec) {
    var (v1, v2, v3, v4) := Corners(r);
    (hy && (OnSegment(v1, v2, p) || OnSegment(v3, v4, p))) || (hx && (OnSegment(v2, v3, p) || OnSegment(v4, v1, p)))
  }

  lemma NearestEdgeIsNearest(r: Rect, cast: (Vec, Vec) -> Option<Impact>, at: real -> Vec, hx: bool, hy: bool, s: real)
    requires var (v1, v2, v3, v4) := Corners(r);
             && EdgeOk(cast(v1, v2), at, hy, v1, v2, s) && EdgeOk(cast(v2, v3), at, hx, v2, v3, s)
             && EdgeOk(cast(v3, v4), at, hy, v3, v4, s) && EdgeOk(cast(v4, v1), at, hx, v4, v1, s)
    ensures var i := NearestEdge(r, cast);
            && (i.Some? ==> i.value.t >= 0.0 && i.value.point == at(i.value.t) && CrossesAt(r, hx, hy, i.value.point))
            && (s >= 0.0 && CrossesAt(r, hx, hy, at(s)) ==> i.Some? && i.value.t <= s)
  {}

  /** The ray crosses, without running along it, an edge of the outline at parameter `t`. */
  predicate Crosses(ray: Ray, r: Rect, t: real) {
    t >= 0.0 && CrossesAt(r, ray.dir.x != 0.0, ray.dir.y != 0.0, ray.At(t))
  }

  ghost predicate IsNearestCrossing(ray: Ray, r: Rect, i: Option<Impact>) {
    && (i.Some? ==> i.value.point == ray.At(i.value.t) && Crosses(ray, r, i.value.t))
    && (forall s :: Crosses(ray, r, s) ==> i.Some? && i.value.t <= s)
  }

  lemma ImpactsIsNearestCrossing(ray: Ray, r: Rect)
    requires r.w > 0 && r.h > 0
    ensures IsNearestCrossing(ray, r, Impacts(ray, r))
  {
    var cast := (start, end) => IntersectsSegment(ray, start, end);
    var i := NearestEdge(r, cast);
    assert i == Impacts(ray, r);
    CastOk(ray, r, cast, 0.0);
    forall s | Crosses(ray, r, s) ensures i.Some? && i.value.t <= s {
      CastOk(ray, r, cast, s);
    }
  }

  lemma CastOk(ray: Ray, r: Rect, cast: (Vec, Vec) -> Option<Impact>, s: real)
    requires r.w > 0 && r.h > 0
    requires forall start, end :: cast(start, end) == IntersectsSegment(ray, start, end)
    ensures var i := NearestEdge(r, cast);
            && (i.Some? ==> i.value.point == ray.At(i.value.t) && Crosses(ray, r, i.value.t))
            && (Crosses(ray, r, s) ==> i.Some? && i.value.t <= s)
  {
    var (v1, v2, v3, v4) := Corners(r);
    HorizontalEdge(ray, v1, v2, cast(v1, v2), s);
    VerticalEdge(ray, v2, v3, cast(v2, v3), s);
    HorizontalEdge(ray, v3, v4, cast(v3, v4), s);
    VerticalEdge(ray, v4, v1, cast(v4, v1), s);
    NearestEdgeIsNearest(r, cast, ray.Path(), ray.dir.x != 0.0, ray.dir.y != 0.0, s);
  }

  /** A coordinate that goes from `o` to `o + s * d` passes through every value between. */
  lemma ReachBefore(o: real, d: real, v: real, s: real) returns (t: real)
    requires s >= 0.0 && d != 0.0
    requires o <= v <= Coord(o, d, s) || o >= v >= Coord(o, d, s)
    ensures 0.0 <= t <= s && Coord(o, d, t) == v
  {
    t := (v - o) / d;
    Quotient(v - o, d, t);
    SignOfProduct(t, d, v - o);
    SignOfProduct(s, d, s * d);
    SignOfProduct(s - t, d, s * d - (v - o));
  }

  /** A path along the line of an edge meets the edge first at one of its ends. */
  lemma AlongEdge(o: real, d: real, a: real, b: real, s: real) returns (t: real)
    requires a < b && d != 0.0 && s >= 0.0
    requires !(a < o < b) && a <= Coord(o, d, s) <= b
    ensures 0.0 <= t <= s && (Coord(o, d, t) == a || Coord(o, d, t) == b)
  {
    if o <= a { t := ReachBefore(o, d, a, s); } else { t := ReachBefore(o, d, b, s); }
  }

  lemma OutlineIsReachedByACrossing(ray: Ray, r: Rect, s: real) returns (t: real)
    requires r.w > 0 && r.h > 0 && ray.Valid() && !Skims(ray, r)
    requires s >= 0.0 && OnOutline(r, ray.At(s))
    ensures t <= s && Crosses(ray, r, t)
  {
    var (v1, v2, v3, v4) := Corners(r);
    var p := ray.At(s);
    if OnSegment(v1, v2, p) || OnSegment(v3, v4, p) {
      if ray.dir.y == 0.0 { t := AlongHorizontal(ray, r, s); } else { t := s; }
    } else {
      if ray.dir.x == 0.0 { t := AlongVertical(ray, r, s); } else { t := s; }
    }
  }

  lemma AlongHorizontal(ray: Ray, r: Rect, s: real) returns (t: real)
    requires r.w > 0 && r.h > 0 && ray.Valid() && !Skims(ray, r) && ray.dir.y == 0.0
    requires s >= 0.0
    requires var (v1, v2, v3, v4) := Corners(r); OnSegment(v1, v2, ray.At(s)) || OnSegment(v3, v4, ray.At(s))
    ensures t <= s && Crosses(ray, r, t)
  {
    var (v1, v2, v3, v4) := Corners(r);
    assert s * ray.dir.y == 0.0;
    t := AlongEdge(ray.origin.x, ray.dir.x, v1.x, v3.x, s);
    assert t * ray.dir.y == 0.0;
    assert OnSegment(v2, v3, ray.At(t)) || OnSegment(v4, v1, ray.At(t));
  }

  lemma AlongVertical(ray: Ray, r: Rect, s: real) returns (t: real)
    requires r.w > 0 && r.h > 0 && ray.Valid() && !Skims(ray, r) && ray.dir.x == 0.0
    requires s >= 0.0
    requires var (v1, v2, v3, v4) := Corners(r); OnSegment(v2, v3, ray.At(s)) || OnSegment(v4, v1, ray.At(s))
    ensures t <= s && Crosses(ray, r, t)
  {
    var (v1, v2, v3, v4) := Corners(r);
    assert s * ray.dir.x == 0.0;
    t := AlongEdge(ray.origin.y, ray.dir.y, v1.y, v3.y, s);
    assert t * ray.dir.x == 0.0;
    assert OnSegment(v1, v2, ray.At(t)) || OnSegment(v3, v4, ray.At(t));
  }

  /** Of a ray that skims an edge, the first crossing is at the far end of the edge. */
  lemma SkimmingIsReportedLate(ray: Ray, r: Rect, i: Option<Impact>)
    requires r.w > 0 && r.h > 0 && ray.Valid() && Skims(ray, r)
    requires IsNearestCrossing(ray, r, i)
    ensures !IsFirstOnOutline(ray, r, i)
  {
    assert ray.At(0.0) == ray.origin;
    assert OnOutline(r, ray.At(0.0));
  }

  /** From between two values a coordinate gets to the one that it heads for. */
  lemma ReachesEnd(o: real, d: real, a: real, b: real) returns (t: real, end: real)
    requires a < o < b && d != 0.0
    ensures t >= 0.0 && Coord(o, d, t) == end && (end == a || end == b)
  {
    end := if d > 0.0 then b else a;
    t := (end - o) / d;
    Quotient(end - o, d, t);
    SignOfProduct(t, d, end - o);
  }

  /** ... which it does cross. */
  lemma SkimmingCrosses(ray: Ray, r: Rect) returns (t: real)
    requires r.w > 0 && r.h > 0 && ray.Valid() && Skims(ray, r)
    ensures Crosses(ray, r, t)
  {
    var (v1, v2, v3, v4) := Corners(r);
    var end;
    if ray.dir.y == 0.0 {
      t, end := ReachesEnd(ray.origin.x, ray.dir.x, v1.x, v3.x);
      assert t * ray.dir.y == 0.0;
      assert OnSegment(v2, v3, ray.At(t)) || OnSegment(v4, v1, ray.At(t));
    } else {
      t, end := ReachesEnd(ray.origin.y, ray.dir.y, v1.y, v3.y);
      assert t * ray.dir.x == 0.0;
      assert OnSegment(v1, v2, ray.At(t)) || OnSegment(v3, v4, ray.At(t));
    }
  }

  lemma NearestCrossingIsFirst(ray: Ray, r: Rect, i: Option<Impact>)
    requires r.w > 0 && r.h > 0 && ray.Valid() && !Skims(ray, r)
    requires IsNearestCrossing(ray, r, i)
    ensures IsFirstOnOutline(ray, r, i)
  {
    forall s | s >= 0.0 && (i.None? || s < i.value.t) ensures !OnOutline(r, ray.At(s)) {
      if OnOutline(r, ray.At(s)) {
        var t := OutlineIsReachedByACrossing(ray, r, s);
      }
    }
  }

  /** `impacts` finds the first point of the ray on the outline, corners and rays collinear with
      an edge included, exactly when the ray does not start inside an edge and run along it. */
  lemma ImpactsFindsFirstPoint(ray: Ray, r: Rect)
    requires r.w > 0 && r.h > 0 && ray.Valid()
    ensures IsFirstOnOutline(ray, r, Impacts(ray, r)) <==> !Skims(ray, r)
  {
    var i := Impacts(ray, r);
    ImpactsIsNearestCrossing(ray, r);
    if Skims(ray, r) { SkimmingIsReportedLate(ray, r, i); } else { NearestCrossingIsFirst(ray, r, i); }
  }

  // ---- The whole rectangle, not only its outline

  lemma Between(o: real, d: real, a: real, b: real, t0: real, t1: real, t: real)
    requires t0 <= t <= t1 && a <= Coord(o, d, t0) <= b && a <= Coord(o, d, t1) <= b
    ensures a <= Coord(o, d, t) <= b
  {
    Ordered(t0, t, d, t0 * d, t * d);
    Ordered(t, t1, d, t * d, t1 * d);
  }

  lemma Resume(o: real, d: real, t0: real, s: real)
    ensures Coord(o, d, t0 + s) == Coord(Coord(o, d, t0), d, s)
  {
    assert (t0 + s) * d == t0 * d + s * d;
  }

  /** A coordinate outside [a, b] at `t0` and inside at `t1` is at an end of it in between. */
  lemma ComesIn(o: real, d: real, a: real, b: real, t0: real, t1: real) returns (t: real)
    requires a < b && t0 <= t1 && !(a <= Coord(o, d, t0) <= b) && a <= Coord(o, d, t1) <= b
    ensures d != 0.0 && t0 <= t <= t1 && (Coord(o, d, t) == a || Coord(o, d, t) == b)
  {
    var p := Coord(o, d, t0);
    Resume(o, d, t0, t1 - t0);
    assert d == 0.0 ==> (t1 - t0) * d == 0.0;
    var s := ReachBefore(p, d, if p < a then a else b, t1 - t0);
    t := t0 + s;
    Resume(o, d, t0, s);
  }

  /** A ray that starts outside a rectangle enters it through the outline. */
  lemma EntersThroughOutline(ray: Ray, r: Rect, s: real) returns (t: real)
    requires r.w > 0 && r.h > 0 && s >= 0.0
    requires !InClosed(r, ray.origin) && InClosed(r, ray.At(s))
    ensures 0.0 <= t <= s && OnOutline(r, ray.At(t))
  {
    assert ray.At(0.0) == ray.origin;
    var (v1, v2, v3, v4) := Corners(r);
    var x := 0.0;
    if !(v1.x <= ray.origin.x <= v3.x) {
      x := ComesIn(ray.origin.x, ray.dir.x, v1.x, v3.x, 0.0, s);
    }
    t := x;
    if !(v1.y <= ray.At(x).y <= v3.y) {
      t := ComesIn(ray.origin.y, ray.dir.y, v1.y, v3.y, x, s);
      Between(ray.origin.x, ray.dir.x, v1.x, v3.x, x, s, t);
    }
    SidesAreOutline(r, ray.At(t));
  }

  lemma SidesAreOutline(r: Rect, p: Vec)
    requires r.w > 0 && r.h > 0 && InClosed(r, p)
    requires var (v1, _, v3, _) := Corners(r); p.x == v1.x || p.x == v3.x || p.y == v1.y || p.y == v3.y
    ensures OnOutline(r, p)
  {}

  /** Seen from outside, an impact is the first point of the rectangle on the way. */
  lemma ImpactIsFirstPointOfRect(ray: Ray, r: Rect, s: real)
    requires r.w > 0 && r.h > 0 && ray.Valid() && s >= 0.0 && !InClosed(r, ray.origin)
    ensures var i := Impacts(ray, r);
            && (i.Some? ==> InClosed(r, i.value.point))
            && (InClosed(r, ray.At(s)) ==> i.Some? && i.value.t <= s)
  {
    ImpactsFindsFirstPoint(ray, r);
    if InClosed(r, ray.At(s)) { var t := EntersThroughOutline(ray, r, s); }
  }

  // ---- The shot: nearest impact over all collidables

  /** A collidable as a shot sees it; the shooter and the dead are not solid. */
  datatype Target = Target(rect: Rect, solid: bool)
  datatype Hit = Hit(index: nat, impact: Impact)

  function Nearest(ray: Ray, ts: seq<Target>): (h: Option<Hit>)
    ensures h.Some? ==> h.value.index < |ts| && ts[h.value.index].solid
  {
    if ts == [] then None
    else
      var n := |ts| - 1;
      var best := Nearest(ray, ts[..n]);
      if !ts[n].solid then best
      else
        var i := Impacts(ray, ts[n].rect);
        if i.None? then best
        else if best.None? || i.value.t < best.value.impact.t then Some(Hit(n, i.value))
        else best
  }

  method CalculateShot(ray: Ray, ts: seq<Target>) returns (hit: Option<Hit>)
    ensures hit == Nearest(ray, ts)
  {
    hit := None;
    for n := 0 to |ts|
      invariant hit == Nearest(ray, ts[..n])
    {
      assert ts[..n + 1][..n] == ts[..n];
      if ts[n].solid {
        var i := Impacts(ray, ts[n].rect);
        if i.Some? && (hit.None? || i.value.t < hit.value.impact.t) {
          hit := Some(Hit(n, i.value));
        }
      }
    }
    assert ts[..|ts|] == ts;
  }

  /** `h` is the nearest impact over the solid targets, the first of them in the list on a tie. */
  ghost predicate IsNearestHit(ray: Ray, ts: seq<Target>, h: Option<Hit>) {
    && (h.Some? ==>
        && h.value.index < |ts| && ts[h.value.index].solid
        && Impacts(ray, ts[h.value.index].rect) == Some(h.value.impact))
    && forall j :: 0 <= j < |ts| && ts[j].solid && Impacts(ray, ts[j].rect).Some? ==>
        && h.Some?
        && h.value.impact.t <= Impacts(ray, ts[j].rect).value.t
        && (j < h.value.index ==> h.value.impact.t < Impacts(ray, ts[j].rect).value.t)
  }

  lemma {:induction false} NearestIsNearest(ray: Ray, ts: seq<Target>)
    ensures IsNearestHit(ray, ts, Nearest(ray, ts))
  {
    if ts != [] {
      var n := |ts| - 1;
      NearestIsNearest(ray, ts[..n]);
      forall j | 0 <= j < n ensures ts[..n][j] == ts[j] {}
      Extend(ray, ts, Nearest(ray, ts[..n]), Nearest(ray, ts), Impacts(ray, ts[n].rect));
    }
  }

  lemma Extend(ray: Ray, ts: seq<Target>, best: Option<Hit>, h: Option<Hit>, i: Option<Impact>)
    requires ts != []
    requires IsNearestHit(ray, ts[..|ts| - 1], best)
    requires i == Impacts(ray, ts[|ts| - 1].rect)
    requires h == if !ts[|ts| - 1].solid || i.None? || (best.Some? && best.value.impact.t <= i.value.t) then best
                  else Some(Hit(|ts| - 1, i.value))
    ensures IsNearestHit(ray, ts, h)
  {
    var n := |ts| - 1;
    forall j | 0 <= j < |ts| && ts[j].solid && Impacts(ray, ts[j].rect).Some?
      ensures h.Some? && h.value.impact.t <= Impacts(ray, ts[j].rect).value.t
      ensures j < h.value.index ==> h.value.impact.t < Impacts(ray, ts[j].rect).value.t
    {
      if j < n { assert ts[..n][j] == ts[j]; }
    }
  }

  /** Some solid collidable that a ray skims. */
  ghost predicate SkimsSomething(ray: Ray, ts: seq<Target>) {
    exists k <- ts :: k.solid && Skims(ray, k.rect)
  }

  /** Nothing solid has its outline on the way before the impact. */
  ghost predicate WayIsClear(ray: Ray, ts: seq<Target>, h: Option<Hit>) {
    forall k, s :: k in ts && k.solid && s >= 0.0 && (h.None? || s < h.value.impact.t) ==> !OnOutline(k.rect, ray.At(s))
  }

  lemma WayIsClearOf(ray: Ray, ts: seq<Target>, k: Target, s: real)
    requires ray.Valid() && k in ts && k.solid && k.rect.w > 0 && k.rect.h > 0 && !Skims(ray, k.rect) && s >= 0.0
    requires var h := Nearest(ray, ts); h.None? || s < h.value.impact.t
    ensures !OnOutline(k.rect, ray.At(s))
  {
    NearestIsNearest(ray, ts);
    var j :| 0 <= j < |ts| && ts[j] == k;
    ImpactsFindsFirstPoint(ray, k.rect);
  }

  /** A ray that skims something solid is on its outline from the start, and hits something. */
  lemma SkimmingStarts(ray: Ray, ts: seq<Target>, k: Target)
    requires ray.Valid() && k in ts && k.solid && k.rect.w > 0 && k.rect.h > 0 && Skims(ray, k.rect)
    ensures OnOutline(k.rect, ray.At(0.0)) && Nearest(ray, ts).Some?
  {
    assert ray.At(0.0) == ray.origin;
    var t := SkimmingCrosses(ray, k.rect);
    ImpactsIsNearestCrossing(ray, k.rect);
    NearestIsNearest(ray, ts);
    var j :| 0 <= j < |ts| && ts[j] == k;
  }

  /** A shot stops on the outline of something solid, and the way there is clear, exactly unless it skims
      something solid and does not stop where it starts. */
  lemma ShotStopsAtFirstObstacle(ray: Ray, ts: seq<Target>)
    requires ray.Valid() && forall k <- ts :: k.rect.w > 0 && k.rect.h > 0
    ensures var h := Nearest(ray, ts);
            && (h.Some? ==>
                && h.value.impact.point == ray.At(h.value.impact.t)
                && OnOutline(ts[h.value.index].rect, h.value.impact.point))
            && (WayIsClear(ray, ts, h) <==>
                (SkimsSomething(ray, ts) ==> h.Some? && h.value.impact.t == 0.0))
  {
    var h := Nearest(ray, ts);
    NearestIsNearest(ray, ts);
    if h.Some? { ImpactsIsNearestCrossing(ray, ts[h.value.index].rect); }
    if SkimsSomething(ray, ts) {
      var k :| k in ts && k.solid && Skims(ray, k.rect);
      SkimmingStarts(ray, ts, k);
    } else {
      forall k, s | k in ts && k.solid && s >= 0.0 && (h.None? || s < h.value.impact.t)
        ensures !OnOutline(k.rect, ray.At(s))
      {
        WayIsClearOf(ray, ts, k, s);
      }
    }
  }

  /** For a unit direction, as that of an angle is, the parameter of an impact is its distance. */
  lemma ParameterIsDistance(ray: Ray, t: real)
    requires ray.dir.x * ray.dir.x + ray.dir.y * ray.dir.y == 1.0
    ensures var d := ray.At(t);
            (d.x - ray.origin.x) * (d.x - ray.origin.x) + (d.y - ray.origin.y) * (d.y - ray.origin.y) == t * t
  {
    assert (t * ray.dir.x) * (t * ray.dir.x) + (t * ray.dir.y) * (t * ray.dir.y)
        == t * t * (ray.dir.x * ray.dir.x + ray.dir.y * ray.dir.y);
  }

  // ---- The arena

  const BLOCK: int := 400

  /** The four invisible walls around a map of `w` by `h`, in the order in which they are added. */
  function Walls(w: int, h: int): seq<Rect> {
    [Rect(0, -BLOCK, w, BLOCK), Rect(w, 0, BLOCK, h), Rect(0, h, w, BLOCK), Rect(-BLOCK, 0, BLOCK, h)]
  }

  predicate StrictlyInside(w: int, h: int, p: Vec) {
    0.0 < p.x < w as real && 0.0 < p.y < h as real
  }

  /** A coordinate moving at a non-zero rate leaves the interval on the side it heads for. */
  lemma Leaves(o: real, d: real, w: real) returns (t: real, side: real)
    requires 0.0 < o < w && d != 0.0
    ensures t > 0.0 && Coord(o, d, t) == side && side == if d > 0.0 then w else 0.0
  {
    side := if d > 0.0 then w else 0.0;
    t := (side - o) / d;
    Quotient(side - o, d, t);
    SignOfProduct(t, d, side - o);
  }

  lemma StaysBetween(o: real, d: real, w: real, t: real, s: real)
    requires 0.0 <= s <= t && 0.0 <= o <= w && 0.0 <= Coord(o, d, t) <= w
    ensures 0.0 <= Coord(o, d, s) <= w
  {
    assert 0.0 * d == 0.0;
    Between(o, d, 0.0, w, 0.0, t, s);
  }

  /** The side of the map that each wall stands on. */
  predicate AtSide(w: int, h: int, k: nat, p: Vec) {
    && 0.0 <= p.x <= w as real && 0.0 <= p.y <= h as real
    && (k == 0 ==> p.y == 0.0) && (k == 1 ==> p.x == w as real)
    && (k == 2 ==> p.y == h as real) && (k == 3 ==> p.x == 0.0)
  }

  lemma CrossesWall(ray: Ray, w: int, h: int, k: nat, t: real, p: Vec)
    requires k < 4 && t >= 0.0 && p == ray.At(t) && AtSide(w, h, k, p)
    requires if k == 0 || k == 2 then ray.dir.y != 0.0 else ray.dir.x != 0.0
    ensures Crosses(ray, Walls(w, h)[k], t)
  {
    var (v1, v2, v3, v4) := Corners(Walls(w, h)[k]);
    if k == 0 { assert OnSegment(v3, v4, p); }
    else if k == 1 { assert OnSegment(v4, v1, p); }
    else if k == 2 { assert OnSegment(v1, v2, p); }
    else { assert OnSegment(v2, v3, p); }
  }

  /** Where a ray leaves the map, and which wall is there. */
  lemma LeavesThroughAWall(ray: Ray, w: int, h: int) returns (t: real, k: nat)
    requires StrictlyInside(w, h, ray.origin) && ray.Valid()
    ensures k < 4 && Crosses(ray, Walls(w, h)[k], t)
    ensures AtSide(w, h, k, ray.At(t))
  {
    if ray.dir.x == 0.0 {
      t, k := ThroughTopOrBottom(ray, w, h);
    } else {
      t, k := ThroughAnySide(ray, w, h);
    }
    CrossesWall(ray, w, h, k, t, ray.At(t));
  }

  lemma ThroughTopOrBottom(ray: Ray, w: int, h: int) returns (t: real, k: nat)
    requires StrictlyInside(w, h, ray.origin) && ray.dir.x == 0.0 && ray.dir.y != 0.0
    ensures (k == 0 || k == 2) && t >= 0.0 && AtSide(w, h, k, ray.At(t))
  {
    var side;
    t, side := Leaves(ray.origin.y, ray.dir.y, h as real);
    k := if ray.dir.y > 0.0 then 2 else 0;
    assert t * ray.dir.x == 0.0;
  }

  lemma ThroughAnySide(ray: Ray, w: int, h: int) returns (t: real, k: nat)
    requires StrictlyInside(w, h, ray.origin) && ray.dir.x != 0.0
    ensures k < 4 && t >= 0.0 && AtSide(w, h, k, ray.At(t)) && (k == 0 || k == 2 ==> ray.dir.y != 0.0)
  {
    var out, side := Leaves(ray.origin.x, ray.dir.x, w as real);
    if 0.0 <= ray.At(out).y <= h as real {
      t, k := out, if ray.dir.x > 0.0 then 1 else 3;
    } else {
      t, k := ThroughLevel(ray, w, h, out);
    }
  }

  lemma ThroughLevel(ray: Ray, w: int, h: int, out: real) returns (t: real, k: nat)
    requires StrictlyInside(w, h, ray.origin) && out >= 0.0
    requires 0.0 <= ray.At(out).x <= w as real && !(0.0 <= ray.At(out).y <= h as real)
    ensures (k == 0 || k == 2) && t >= 0.0 && AtSide(w, h, k, ray.At(t)) && ray.dir.y != 0.0
  {
    var level;
    t, level := LeavesEarlier(ray.origin.y, ray.dir.y, h as real, out);
    StaysBetween(ray.origin.x, ray.dir.x, w as real, out, t);
    k := if level == 0.0 then 0 else 2;
  }

  /** A coordinate found outside the interval left it before, through one of its ends. */
  lemma LeavesEarlier(o: real, d: real, h: real, t: real) returns (s: real, level: real)
    requires 0.0 < o < h && t >= 0.0 && !(0.0 <= Coord(o, d, t) <= h)
    ensures d != 0.0 && 0.0 <= s <= t && Coord(o, d, s) == level && (level == 0.0 || level == h)
  {
    assert d == 0.0 ==> t * d == 0.0;
    level := if Coord(o, d, t) < 0.0 then 0.0 else h;
    s := ReachBefore(o, d, level, t);
  }

  /** From strictly inside the map, in any direction and whatever else stands there, a shot hits
      something, and hits it without leaving the map. */
  lemma EveryShotHits(ray: Ray, ts: seq<Target>, w: int, h: int)
    requires StrictlyInside(w, h, ray.origin) && ray.Valid()
    requires forall wall <- Walls(w, h) :: Target(wall, true) in ts
    requires forall k <- ts :: k.rect.w > 0 && k.rect.h > 0
    ensures var hit := Nearest(ray, ts);
            && hit.Some?
            && 0.0 <= hit.value.impact.point.x <= w as real
            && 0.0 <= hit.value.impact.point.y <= h as real
  {
    var t, k := LeavesThroughAWall(ray, w, h);
    var wall := Walls(w, h)[k];
    assert Target(wall, true) in ts;
    var j :| 0 <= j < |ts| && ts[j] == Target(wall, true);
    NearestIsNearest(ray, ts);
    ImpactsIsNearestCrossing(ray, wall);
    var hit := Nearest(ray, ts);
    ImpactsIsNearestCrossing(ray, ts[hit.value.index].rect);
    InsideUntil(ray, w, h, t, hit.value.impact.t);
  }

  lemma InsideUntil(ray: Ray, w: int, h: int, t: real, s: real)
    requires StrictlyInside(w, h, ray.origin) && 0.0 <= s <= t
    requires 0.0 <= ray.At(t).x <= w as real && 0.0 <= ray.At(t).y <= h as real
    ensures 0.0 <= ray.At(s).x <= w as real && 0.0 <= ray.At(s).y <= h as real
  {
    StaysBetween(ray.origin.x, ray.dir.x, w as real, t, s);
    StaysBetween(ray.origin.y, ray.dir.y, h as real, t, s);
  }
}
