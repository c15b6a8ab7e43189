/** Movement with collisions: the axis-by-axis slide of src/server/game_world.cpp. The collidables
    are the list that shots see too: first the static blocks and walls, then the players in order
    of arrival, where the mover itself and the dead are not solid. */
module Slide {
  import opened Settings
  import opened Geometry

  /** The first collidable in list order that the rectangle overlaps. */
  function CollidingWith(ts: seq<Target>, r: Rect): (c: Option<Rect>)
    ensures c.Some? ==> Target(c.value, true) in ts && c.value.IntersectsWith(r)
    ensures c.None? ==> forall t <- ts :: t.solid ==> !t.rect.IntersectsWith(r)
  {
    if ts == [] then None
    else if ts[0].solid && ts[0].rect.IntersectsWith(r) then Some(ts[0].rect)
    else CollidingWith(ts[1..], r)
  }

  function SlideX(ts: seq<Target>, p: Rect, dx: int): Rect {
    if dx == 0 then p
    else
      var q := p.(x := p.x + dx);
      match CollidingWith(ts, q)
      case None => q
      case Some(c) => if dx > 0 then q.(x := c.x - p.w) else q.(x := c.x + c.w)
  }

  function SlideY(ts: seq<Target>, p: Rect, dy: int): Rect {
    if dy == 0 then p
    else
      var q := p.(y := p.y + dy);
      match CollidingWith(ts, q)
      case None => q
      case Some(c) => if dy > 0 then q.(y := c.y - p.h) else q.(y := c.y + c.h)
  }

  function MakeStep(ts: seq<Target>, p: Rect, dx: int, dy: int): Rect {
    SlideY(ts, SlideX(ts, p, dx), dy)
  }

  // ---- The terrain

  predicate OnGrid(r: Rect) {
    r.x % BLOCK == 0 && r.y % BLOCK == 0 && r.w % BLOCK == 0 && r.h % BLOCK == 0 && r.w > 0 && r.h > 0
  }

  /** The first `n` collidables are the static ones: solid, aligned, the four walls among them. */
  ghost predicate Terrain(ts: seq<Target>, n: nat, w: int, h: int) {
    && n <= |ts|
    && (forall t <- ts[..n] :: t.solid && OnGrid(t.rect))
    && (forall wall <- Walls(w, h) :: Target(wall, true) in ts[..n])
  }

  ghost predicate ClearOfStatics(ts: seq<Target>, n: nat, r: Rect)
    requires n <= |ts|
  {
    forall t <- ts[..n] :: !t.rect.IntersectsWith(r)
  }

  predicate InsideMap(w: int, h: int, r: Rect) {
    0 <= r.x && r.x + r.w <= w && 0 <= r.y && r.y + r.h <= h
  }

  /** A position a player may be in: inside the map and overlapping no static block. */
  ghost predicate Safe(ts: seq<Target>, n: nat, w: int, h: int, r: Rect)
    requires n <= |ts|
  {
    r.w > 0 && r.h > 0 && InsideMap(w, h, r) && ClearOfStatics(ts, n, r)
  }

  predicate Between(a: int, m: int, b: int) { a <= m <= b || b <= m <= a }

  /** The probe of a move finds a collidable that the mover overlapped already before moving. */
  predicate StuckInWhatItHits(ts: seq<Target>, p: Rect, q: Rect) {
    var c := CollidingWith(ts, q);
    c.Some? && c.value.IntersectsWith(p)
  }

  // ---- Arithmetic of the grid

  /** A window no wider than a block holds at most one grid line: every block that a move runs into
      has its near side there, so whichever comes first in the list is the nearest. */
  lemma OneLineInWindow(a: int, s: int, c1: int, c2: int)
    requires c1 % BLOCK == 0 && c2 % BLOCK == 0 && s <= BLOCK
    requires a <= c1 < a + s && a <= c2 < a + s
    ensures c1 == c2
  {}

  lemma FirstHitOnTerrain(ts: seq<Target>, n: nat, q: Rect)
    requires n <= |ts| && forall t <- ts[..n] :: t.solid
    ensures var c := CollidingWith(ts, q);
            ClearOfStatics(ts, n, q) || (c.Some? && Target(c.value, true) in ts[..n])
  {
    if n > 0 {
      assert ts[..n][0] == ts[0] && ts[1..][..n - 1] == ts[..n][1..];
      if !ts[0].rect.IntersectsWith(q) {
        FirstHitOnTerrain(ts[1..], n - 1, q);
        forall t | t in ts[..n] && ClearOfStatics(ts[1..], n - 1, q) ensures !t.rect.IntersectsWith(q) {
          if t != ts[0] { assert t in ts[..n][1..]; }
        }
      }
    }
  }

  lemma WallBlocksX(ts: seq<Target>, n: nat, w: int, h: int, p: Rect, r: Rect)
    requires Terrain(ts, n, w, h) && Safe(ts, n, w, h, p)
    requires r == p.(x := r.x) && -BLOCK <= r.x - p.x <= BLOCK
    requires ClearOfStatics(ts, n, r)
    ensures InsideMap(w, h, r)
  {
    var left, right := Walls(w, h)[3], Walls(w, h)[1];
    assert Target(left, true) in ts[..n] && Target(right, true) in ts[..n];
  }

  lemma WallBlocksY(ts: seq<Target>, n: nat, w: int, h: int, p: Rect, r: Rect)
    requires Terrain(ts, n, w, h) && Safe(ts, n, w, h, p)
    requires r == p.(y := r.y) && -BLOCK <= r.y - p.y <= BLOCK
    requires ClearOfStatics(ts, n, r)
    ensures InsideMap(w, h, r)
  {
    var top, bottom := Walls(w, h)[0], Walls(w, h)[2];
    assert Target(top, true) in ts[..n] && Target(bottom, true) in ts[..n];
  }

  // ---- One axis

  /** A block in the way of a move has its near side where the block that was hit has it. */
  lemma SameSideX(t: Rect, c: Rect, p: Rect, dx: int)
    requires OnGrid(t) && OnGrid(c) && !t.IntersectsWith(p) && !c.IntersectsWith(p) && p.w > 0 && p.h > 0
    requires -BLOCK <= dx <= BLOCK
    requires t.IntersectsWith(p.(x := p.x + dx)) && c.IntersectsWith(p.(x := p.x + dx))
    ensures if dx > 0 then t.x == c.x else t.x + t.w == c.x + c.w
  {
    if dx > 0 { OneLineInWindow(p.x + p.w, dx, c.x, t.x); }
    else { OneLineInWindow(p.x + dx + 1, -dx, c.x + c.w, t.x + t.w); }
  }

  /** A block clear of both ends of a move is clear of every position between. */
  lemma NothingBetweenX(t: Rect, p: Rect, dx: int, x: int)
    requires t.w >= BLOCK && t.h >= BLOCK && !t.IntersectsWith(p) && !t.IntersectsWith(p.(x := p.x + dx))
    requires p.w > 0 && p.h > 0 && -BLOCK <= dx <= BLOCK && Between(p.x, x, p.x + dx)
    ensures !t.IntersectsWith(p.(x := x))
  {}

  /** Backing off to the side of what was hit, `c`, leaves every static block `t` clear. */
  lemma BlockStaysClearX(t: Rect, c: Rect, p: Rect, dx: int)
    requires OnGrid(t) && !t.IntersectsWith(p) && p.w > 0 && p.h > 0
    requires -BLOCK <= dx <= BLOCK && dx != 0
    requires c.IntersectsWith(p.(x := p.x + dx)) && !c.IntersectsWith(p)
    requires t.IntersectsWith(p.(x := p.x + dx)) ==> OnGrid(c)
    ensures !t.IntersectsWith(p.(x := if dx > 0 then c.x - p.w else c.x + c.w))
  {
    if t.IntersectsWith(p.(x := p.x + dx)) {
      SameSideX(t, c, p, dx);
    } else {
      NothingBetweenX(t, p, dx, if dx > 0 then c.x - p.w else c.x + c.w);
    }
  }

  lemma ClearAfterX(ts: seq<Target>, n: nat, w: int, h: int, p: Rect, dx: int)
    requires Terrain(ts, n, w, h) && Safe(ts, n, w, h, p) && -BLOCK <= dx <= BLOCK
    requires !StuckInWhatItHits(ts, p, p.(x := p.x + dx))
    ensures ClearOfStatics(ts, n, SlideX(ts, p, dx))
  {
    var q, r := p.(x := p.x + dx), SlideX(ts, p, dx);
    var hit := CollidingWith(ts, q);
    FirstHitOnTerrain(ts, n, q);
    forall t | t in ts[..n] ensures !t.rect.IntersectsWith(r) {
      if dx != 0 && hit.Some? { BlockStaysClearX(t.rect, hit.value, p, dx); }
    }
  }

  /** A block in the way of a move has its near side where the block that was hit has it. */
  lemma SameSideY(t: Rect, c: Rect, p: Rect, dy: int)
    requires OnGrid(t) && OnGrid(c) && !t.IntersectsWith(p) && !c.IntersectsWith(p) && p.w > 0 && p.h > 0
    requires -BLOCK <= dy <= BLOCK
    requires t.IntersectsWith(p.(y := p.y + dy)) && c.IntersectsWith(p.(y := p.y + dy))
    ensures if dy > 0 then t.y == c.y else t.y + t.h == c.y + c.h
  {
    if dy > 0 { OneLineInWindow(p.y + p.h, dy, c.y, t.y); }
    else { OneLineInWindow(p.y + dy + 1, -dy, c.y + c.h, t.y + t.h); }
  }

  /** A block clear of both ends of a move is clear of every position between. */
  lemma NothingBetweenY(t: Rect, p: Rect, dy: int, y: int)
    requires t.w >= BLOCK && t.h >= BLOCK && !t.IntersectsWith(p) && !t.IntersectsWith(p.(y := p.y + dy))
    requires p.w > 0 && p.h > 0 && -BLOCK <= dy <= BLOCK && Between(p.y, y, p.y + dy)
    ensures !t.IntersectsWith(p.(y := y))
  {}

  /** Backing off to the side of what was hit, `c`, leaves every static block `t` clear. */
  lemma BlockStaysClearY(t: Rect, c: Rect, p: Rect, dy: int)
    requires OnGrid(t) && !t.IntersectsWith(p) && p.w > 0 && p.h > 0
    requires -BLOCK <= dy <= BLOCK && dy != 0
    requires c.IntersectsWith(p.(y := p.y + dy)) && !c.IntersectsWith(p)
    requires t.IntersectsWith(p.(y := p.y + dy)) ==> OnGrid(c)
    ensures !t.IntersectsWith(p.(y := if dy > 0 then c.y - p.h else c.y + c.h))
  {
    if t.IntersectsWith(p.(y := p.y + dy)) {
      SameSideY(t, c, p, dy);
    } else {
      NothingBetweenY(t, p, dy, if dy > 0 then c.y - p.h else c.y + c.h);
    }
  }

  lemma ClearAfterY(ts: seq<Target>, n: nat, w: int, h: int, p: Rect, dy: int)
    requires Terrain(ts, n, w, h) && Safe(ts, n, w, h, p) && -BLOCK <= dy <= BLOCK
    requires !StuckInWhatItHits(ts, p, p.(y := p.y + dy))
    ensures ClearOfStatics(ts, n, SlideY(ts, p, dy))
  {
    var q, r := p.(y := p.y + dy), SlideY(ts, p, dy);
    var hit := CollidingWith(ts, q);
    FirstHitOnTerrain(ts, n, q);
    forall t | t in ts[..n] ensures !t.rect.IntersectsWith(r) {
      if dy != 0 && hit.Some? { BlockStaysClearY(t.rect, hit.value, p, dy); }
    }
  }

  /** One axis of the slide: the mover stops between where it was and where it wanted to be exactly
      when it was not already overlapping what stops it, and then it stays safe. */
  lemma SlideXIsSafe(ts: seq<Target>, n: nat, w: int, h: int, p: Rect, dx: int)
    requires Terrain(ts, n, w, h) && Safe(ts, n, w, h, p) && -BLOCK <= dx <= BLOCK && dx != 0
    ensures var r, stuck := SlideX(ts, p, dx), StuckInWhatItHits(ts, p, p.(x := p.x + dx));
            && r == p.(x := r.x)
            && (Between(p.x, r.x, p.x + dx) <==> !stuck)
            && (!stuck ==> Safe(ts, n, w, h, r))
  {
    var q := p.(x := p.x + dx);
    if !StuckInWhatItHits(ts, p, q) {
      ClearAfterX(ts, n, w, h, p, dx);
      WallBlocksX(ts, n, w, h, p, SlideX(ts, p, dx));
    }
  }

  lemma SlideYIsSafe(ts: seq<Target>, n: nat, w: int, h: int, p: Rect, dy: int)
    requires Terrain(ts, n, w, h) && Safe(ts, n, w, h, p) && -BLOCK <= dy <= BLOCK && dy != 0
    ensures var r, stuck := SlideY(ts, p, dy), StuckInWhatItHits(ts, p, p.(y := p.y + dy));
            && r == p.(y := r.y)
            && (Between(p.y, r.y, p.y + dy) <==> !stuck)
            && (!stuck ==> Safe(ts, n, w, h, r))
  {
    var q := p.(y := p.y + dy);
    if !StuckInWhatItHits(ts, p, q) {
      ClearAfterY(ts, n, w, h, p, dy);
      WallBlocksY(ts, n, w, h, p, SlideY(ts, p, dy));
    }
  }

  // ---- The whole step

  predicate FreeX(ts: seq<Target>, p: Rect, dx: int) {
    dx == 0 || !StuckInWhatItHits(ts, p, p.(x := p.x + dx))
  }

  predicate FreeY(ts: seq<Target>, p: Rect, dy: int) {
    dy == 0 || !StuckInWhatItHits(ts, p, p.(y := p.y + dy))
  }

  /** A step of at most one block per axis, from a safe position: both coordinates end between the
      old and the requested one exactly when neither axis is stopped by something the mover was
      overlapping already; the position it ends in is then safe again. */
  lemma StepIsSafe(ts: seq<Target>, n: nat, w: int, h: int, p: Rect, dx: int, dy: int)
    requires Terrain(ts, n, w, h) && Safe(ts, n, w, h, p)
    requires -BLOCK <= dx <= BLOCK && -BLOCK <= dy <= BLOCK
    ensures var r := MakeStep(ts, p, dx, dy);
            var free := FreeX(ts, p, dx) && FreeY(ts, SlideX(ts, p, dx), dy);
            && r.w == p.w && r.h == p.h
            && (Between(p.x, r.x, p.x + dx) && Between(p.y, r.y, p.y + dy) <==> free)
            && (free ==> Safe(ts, n, w, h, r))
  {
    var m := SlideX(ts, p, dx);
    if dx != 0 { SlideXIsSafe(ts, n, w, h, p, dx); }
    if FreeX(ts, p, dx) && dy != 0 { SlideYIsSafe(ts, n, w, h, m, dy); }
  }

  /** Static blocks never hold a mover: it is free whenever what it runs into is static, and on its
      first axis whenever it starts out overlapping no live player. */
  lemma FreeOfPlayers(ts: seq<Target>, n: nat, w: int, h: int, p: Rect, q: Rect)
    requires Terrain(ts, n, w, h) && Safe(ts, n, w, h, p)
    requires var c := CollidingWith(ts, q);
             c.None? || Target(c.value, true) in ts[..n] || CollidingWith(ts, p).None?
    ensures !StuckInWhatItHits(ts, p, q)
  {
    var c := CollidingWith(ts, q);
    if c.Some? && Target(c.value, true) in ts[..n] {
      assert !Target(c.value, true).rect.IntersectsWith(p);
    }
  }

  const PLAYER: int := 320

  // ---- Where a step may end

  /** Everything that a move along x passes over, its beginning included. */
  function SweepX(p: Rect, dx: int): Rect {
    if dx > 0 then p.(w := p.w + dx) else p.(x := p.x + dx, w := p.w - dx)
  }

  function SweepY(p: Rect, dy: int): Rect {
    if dy > 0 then p.(h := p.h + dy) else p.(y := p.y + dy, h := p.h - dy)
  }

  /** How far along the direction of the move the side that faces the mover is. */
  function NearX(r: Rect, dx: int): int { if dx > 0 then r.x else -(r.x + r.w) }
  function NearY(r: Rect, dy: int): int { if dy > 0 then r.y else -(r.y + r.h) }

  /** `t` comes up before `c` in the move, and the gap between the two is too narrow for the mover. */
  predicate PinnedX(t: Rect, c: Rect, p: Rect, dx: int) {
    t.IntersectsWith(SweepX(p, dx)) && NearX(t, dx) < NearX(c, dx) < NearX(t, dx) + t.w + p.w
  }

  predicate PinnedY(t: Rect, c: Rect, p: Rect, dy: int) {
    t.IntersectsWith(SweepY(p, dy)) && NearY(t, dy) < NearY(c, dy) < NearY(t, dy) + t.h + p.h
  }

  predicate HasArea(r: Rect) { r.w > 0 && r.h > 0 }

  /** Nothing solid among `us` overlaps a rectangle. */
  ghost predicate Apart(us: seq<Target>, r: Rect) { forall t <- us :: t.solid ==> !t.rect.IntersectsWith(r) }

  /** The collidables that a move may not pass over: each of them is one of the list, and the mover
      starts apart from them and from whatever stops it. */
  ghost predicate StartsApart(ts: seq<Target>, us: seq<Target>, p: Rect, q: Rect) {
    && HasArea(p) && (forall t <- us :: t in ts && (t.solid ==> HasArea(t.rect)))
    && Apart(us, p) && !StuckInWhatItHits(ts, p, q)
  }

  lemma EndsX(t: Rect, c: Rect, p: Rect, dx: int)
    requires HasArea(t) && HasArea(p) && dx != 0 && !t.IntersectsWith(p)
    requires !c.IntersectsWith(p) && c.IntersectsWith(p.(x := p.x + dx))
    ensures t.IntersectsWith(p.(x := if dx > 0 then c.x - p.w else c.x + c.w)) <==> PinnedX(t, c, p, dx)
  {}

  lemma EndsY(t: Rect, c: Rect, p: Rect, dy: int)
    requires HasArea(t) && HasArea(p) && dy != 0 && !t.IntersectsWith(p)
    requires !c.IntersectsWith(p) && c.IntersectsWith(p.(y := p.y + dy))
    ensures t.IntersectsWith(p.(y := if dy > 0 then c.y - p.h else c.y + c.h)) <==> PinnedY(t, c, p, dy)
  {}

  /** A step of any length, from a place apart from `us`, ends apart from them exactly when what stops it
      pins the mover to none of them. */
  lemma EndsApartX(ts: seq<Target>, us: seq<Target>, p: Rect, dx: int)
    requires dx != 0 && StartsApart(ts, us, p, p.(x := p.x + dx))
    ensures var c := CollidingWith(ts, p.(x := p.x + dx));
            Apart(us, SlideX(ts, p, dx)) <==>
            (c.Some? ==> forall t <- us :: t.solid ==> !PinnedX(t.rect, c.value, p, dx))
  {
    var c := CollidingWith(ts, p.(x := p.x + dx));
    if c.Some? {
      forall t | t in us && t.solid
        ensures t.rect.IntersectsWith(SlideX(ts, p, dx)) <==> PinnedX(t.rect, c.value, p, dx)
      {
        EndsX(t.rect, c.value, p, dx);
      }
    }
  }

  lemma EndsApartY(ts: seq<Target>, us: seq<Target>, p: Rect, dy: int)
    requires dy != 0 && StartsApart(ts, us, p, p.(y := p.y + dy))
    ensures var c := CollidingWith(ts, p.(y := p.y + dy));
            Apart(us, SlideY(ts, p, dy)) <==>
            (c.Some? ==> forall t <- us :: t.solid ==> !PinnedY(t.rect, c.value, p, dy))
  {
    var c := CollidingWith(ts, p.(y := p.y + dy));
    if c.Some? {
      forall t | t in us && t.solid
        ensures t.rect.IntersectsWith(SlideY(ts, p, dy)) <==> PinnedY(t.rect, c.value, p, dy)
      {
        EndsY(t.rect, c.value, p, dy);
      }
    }
  }

  /** A step too short to carry the mover past any of `us`. */
  ghost predicate ShortX(us: seq<Target>, p: Rect, dx: int) {
    dx != 0 && forall t <- us :: t.solid ==> -(p.w + t.rect.w) < dx < p.w + t.rect.w
  }

  ghost predicate ShortY(us: seq<Target>, p: Rect, dy: int) {
    dy != 0 && forall t <- us :: t.solid ==> -(p.h + t.rect.h) < dy < p.h + t.rect.h
  }

  /** Of all of `us` that the requested position overlaps, none faces the mover before the first collidable
      of the list does. */
  ghost predicate FirstIsNearestX(ts: seq<Target>, us: seq<Target>, p: Rect, dx: int) {
    var q := p.(x := p.x + dx);
    var c := CollidingWith(ts, q);
    c.Some? ==> forall t <- us :: t.solid && t.rect.IntersectsWith(q) ==> NearX(c.value, dx) <= NearX(t.rect, dx)
  }

  ghost predicate FirstIsNearestY(ts: seq<Target>, us: seq<Target>, p: Rect, dy: int) {
    var q := p.(y := p.y + dy);
    var c := CollidingWith(ts, q);
    c.Some? ==> forall t <- us :: t.solid && t.rect.IntersectsWith(q) ==> NearY(c.value, dy) <= NearY(t.rect, dy)
  }

  lemma PinnedIsNearerX(t: Rect, c: Rect, p: Rect, dx: int)
    requires HasArea(t) && HasArea(p) && dx != 0 && -(p.w + t.w) < dx < p.w + t.w && !t.IntersectsWith(p)
    requires !c.IntersectsWith(p) && c.IntersectsWith(p.(x := p.x + dx))
    ensures PinnedX(t, c, p, dx) <==> t.IntersectsWith(p.(x := p.x + dx)) && NearX(t, dx) < NearX(c, dx)
  {}

  lemma PinnedIsNearerY(t: Rect, c: Rect, p: Rect, dy: int)
    requires HasArea(t) && HasArea(p) && dy != 0 && -(p.h + t.h) < dy < p.h + t.h && !t.IntersectsWith(p)
    requires !c.IntersectsWith(p) && c.IntersectsWith(p.(y := p.y + dy))
    ensures PinnedY(t, c, p, dy) <==> t.IntersectsWith(p.(y := p.y + dy)) && NearY(t, dy) < NearY(c, dy)
  {}

  /** A short step along x ends apart from all of `us` exactly when the first collidable of the list that it
      runs into is the nearest of those that it runs into. */
  lemma ShortStepEndsApartX(ts: seq<Target>, us: seq<Target>, p: Rect, dx: int)
    requires ShortX(us, p, dx) && StartsApart(ts, us, p, p.(x := p.x + dx))
    ensures Apart(us, SlideX(ts, p, dx)) <==> FirstIsNearestX(ts, us, p, dx)
  {
    var q := p.(x := p.x + dx);
    var c := CollidingWith(ts, q);
    EndsApartX(ts, us, p, dx);
    if c.Some? {
      forall t | t in us && t.solid
        ensures PinnedX(t.rect, c.value, p, dx) <==>
                t.rect.IntersectsWith(q) && NearX(t.rect, dx) < NearX(c.value, dx)
      {
        PinnedIsNearerX(t.rect, c.value, p, dx);
      }
    }
  }

  lemma ShortStepEndsApartY(ts: seq<Target>, us: seq<Target>, p: Rect, dy: int)
    requires ShortY(us, p, dy) && StartsApart(ts, us, p, p.(y := p.y + dy))
    ensures Apart(us, SlideY(ts, p, dy)) <==> FirstIsNearestY(ts, us, p, dy)
  {
    var q := p.(y := p.y + dy);
    var c := CollidingWith(ts, q);
    EndsApartY(ts, us, p, dy);
    if c.Some? {
      forall t | t in us && t.solid
        ensures PinnedY(t.rect, c.value, p, dy) <==>
                t.rect.IntersectsWith(q) && NearY(t.rect, dy) < NearY(c.value, dy)
      {
        PinnedIsNearerY(t.rect, c.value, p, dy);
      }
    }
  }

  lemma PassesX(t: Rect, c: Rect, p: Rect, dx: int)
    requires HasArea(t) && HasArea(p) && dx != 0 && !t.IntersectsWith(p)
    requires !c.IntersectsWith(p) && c.IntersectsWith(p.(x := p.x + dx))
    ensures t.IntersectsWith(SweepX(p, (if dx > 0 then c.x - p.w else c.x + c.w) - p.x)) <==>
            t.IntersectsWith(SweepX(p, dx)) && NearX(t, dx) < NearX(c, dx)
  {}

  lemma PassesY(t: Rect, c: Rect, p: Rect, dy: int)
    requires HasArea(t) && HasArea(p) && dy != 0 && !t.IntersectsWith(p)
    requires !c.IntersectsWith(p) && c.IntersectsWith(p.(y := p.y + dy))
    ensures t.IntersectsWith(SweepY(p, (if dy > 0 then c.y - p.h else c.y + c.h) - p.y)) <==>
            t.IntersectsWith(SweepY(p, dy)) && NearY(t, dy) < NearY(c, dy)
  {}

  /** No collidable faces the mover, anywhere on the way to the requested position, before the one that
      stops it. */
  ghost predicate NothingSoonerX(us: seq<Target>, c: Option<Rect>, p: Rect, dx: int) {
    forall t <- us :: t.solid && t.rect.IntersectsWith(SweepX(p, dx)) ==>
      c.Some? && NearX(c.value, dx) <= NearX(t.rect, dx)
  }

  ghost predicate NothingSoonerY(us: seq<Target>, c: Option<Rect>, p: Rect, dy: int) {
    forall t <- us :: t.solid && t.rect.IntersectsWith(SweepY(p, dy)) ==>
      c.Some? && NearY(c.value, dy) <= NearY(t.rect, dy)
  }

  /** A step of any length passes through none of `us`, from where it starts to where it ends, exactly when
      nothing on the whole way comes up before what stops it. */
  lemma PassesThroughNothingX(ts: seq<Target>, us: seq<Target>, p: Rect, dx: int)
    requires dx != 0 && StartsApart(ts, us, p, p.(x := p.x + dx))
    ensures Apart(us, SweepX(p, SlideX(ts, p, dx).x - p.x)) <==>
            NothingSoonerX(us, CollidingWith(ts, p.(x := p.x + dx)), p, dx)
  {
    var c := CollidingWith(ts, p.(x := p.x + dx));
    if c.Some? {
      forall t | t in us && t.solid
        ensures t.rect.IntersectsWith(SweepX(p, SlideX(ts, p, dx).x - p.x)) <==>
                t.rect.IntersectsWith(SweepX(p, dx)) && NearX(t.rect, dx) < NearX(c.value, dx)
      {
        PassesX(t.rect, c.value, p, dx);
      }
    }
  }

  lemma PassesThroughNothingY(ts: seq<Target>, us: seq<Target>, p: Rect, dy: int)
    requires dy != 0 && StartsApart(ts, us, p, p.(y := p.y + dy))
    ensures Apart(us, SweepY(p, SlideY(ts, p, dy).y - p.y)) <==>
            NothingSoonerY(us, CollidingWith(ts, p.(y := p.y + dy)), p, dy)
  {
    var c := CollidingWith(ts, p.(y := p.y + dy));
    if c.Some? {
      forall t | t in us && t.solid
        ensures t.rect.IntersectsWith(SweepY(p, SlideY(ts, p, dy).y - p.y)) <==>
                t.rect.IntersectsWith(SweepY(p, dy)) && NearY(t.rect, dy) < NearY(c.value, dy)
      {
        PassesY(t.rect, c.value, p, dy);
      }
    }
  }

  // ---- Any step, from anywhere

  predicate SameRows(a: Rect, b: Rect) { a.y < b.y + b.h && b.y < a.y + a.h }
  predicate SameColumns(a: Rect, b: Rect) { a.x < b.x + b.w && b.x < a.x + a.w }

  /** Where the slide puts a mover that ran into `c`. */
  function BesideX(c: Rect, p: Rect, dx: int): Rect { p.(x := if dx > 0 then c.x - p.w else c.x + c.w) }
  function BesideY(c: Rect, p: Rect, dy: int): Rect { p.(y := if dy > 0 then c.y - p.h else c.y + c.h) }

  /** `t` comes up before `c` in the rows of the mover, and so near to it that the mover does not fit between. */
  predicate CrowdsX(t: Rect, c: Rect, p: Rect, dx: int) {
    SameRows(t, p) && NearX(t, dx) < NearX(c, dx) < NearX(t, dx) + t.w + p.w
  }

  predicate CrowdsY(t: Rect, c: Rect, p: Rect, dy: int) {
    SameColumns(t, p) && NearY(t, dy) < NearY(c, dy) < NearY(t, dy) + t.h + p.h
  }

  lemma BesideIsCrowdedX(t: Rect, c: Rect, p: Rect, dx: int)
    requires dx != 0
    ensures t.IntersectsWith(BesideX(c, p, dx)) <==> CrowdsX(t, c, p, dx)
  {}

  lemma BesideIsCrowdedY(t: Rect, c: Rect, p: Rect, dy: int)
    requires dy != 0
    ensures t.IntersectsWith(BesideY(c, p, dy)) <==> CrowdsY(t, c, p, dy)
  {}

  /** There is room for the mover among `us` beside what it runs into. */
  ghost predicate RoomX(ts: seq<Target>, us: seq<Target>, p: Rect, dx: int) {
    var c := CollidingWith(ts, p.(x := p.x + dx));
    c.Some? ==> forall t <- us :: t.solid ==> !CrowdsX(t.rect, c.value, p, dx)
  }

  ghost predicate RoomY(ts: seq<Target>, us: seq<Target>, p: Rect, dy: int) {
    var c := CollidingWith(ts, p.(y := p.y + dy));
    c.Some? ==> forall t <- us :: t.solid ==> !CrowdsY(t.rect, c.value, p, dy)
  }

  /** Along one axis, wherever it starts and however long it is, a move ends apart from `us` exactly when there
      is room among them beside what it runs into. */
  lemma MoveEndsApartX(ts: seq<Target>, us: seq<Target>, p: Rect, dx: int)
    requires dx != 0 && forall t <- us :: t in ts
    ensures Apart(us, SlideX(ts, p, dx)) <==> RoomX(ts, us, p, dx)
  {
    var c := CollidingWith(ts, p.(x := p.x + dx));
    if c.Some? {
      forall t | t in us
        ensures t.rect.IntersectsWith(SlideX(ts, p, dx)) <==> CrowdsX(t.rect, c.value, p, dx)
      {
        BesideIsCrowdedX(t.rect, c.value, p, dx);
      }
    }
  }

  lemma MoveEndsApartY(ts: seq<Target>, us: seq<Target>, p: Rect, dy: int)
    requires dy != 0 && forall t <- us :: t in ts
    ensures Apart(us, SlideY(ts, p, dy)) <==> RoomY(ts, us, p, dy)
  {
    var c := CollidingWith(ts, p.(y := p.y + dy));
    if c.Some? {
      forall t | t in us
        ensures t.rect.IntersectsWith(SlideY(ts, p, dy)) <==> CrowdsY(t.rect, c.value, p, dy)
      {
        BesideIsCrowdedY(t.rect, c.value, p, dy);
      }
    }
  }

  // ---- Players apart from players

  /** What a step of the game starts from: the mover overlaps nothing solid, and nothing solid is smaller
      than a player. */
  ghost predicate InTheOpen(ts: seq<Target>, p: Rect) {
    && p.w == PLAYER && p.h == PLAYER && CollidingWith(ts, p).None?
    && forall t <- ts :: t.solid ==> t.rect.w >= PLAYER && t.rect.h >= PLAYER
  }

  ghost predicate GoesFreelyX(ts: seq<Target>, p: Rect, dx: int) { dx == 0 || FirstIsNearestX(ts, ts, p, dx) }
  ghost predicate GoesFreelyY(ts: seq<Target>, p: Rect, dy: int) { dy == 0 || FirstIsNearestY(ts, ts, p, dy) }

  lemma ApartIsClear(ts: seq<Target>, r: Rect)
    ensures Apart(ts, r) <==> CollidingWith(ts, r).None?
  {}

  lemma StaysInTheOpenX(ts: seq<Target>, p: Rect, dx: int)
    requires InTheOpen(ts, p) && -2 * PLAYER < dx < 2 * PLAYER
    ensures CollidingWith(ts, SlideX(ts, p, dx)).None? <==> GoesFreelyX(ts, p, dx)
  {
    if dx != 0 {
      ShortStepEndsApartX(ts, ts, p, dx);
      ApartIsClear(ts, SlideX(ts, p, dx));
    }
  }

  lemma StaysInTheOpenY(ts: seq<Target>, p: Rect, dy: int)
    requires InTheOpen(ts, p) && -2 * PLAYER < dy < 2 * PLAYER
    ensures CollidingWith(ts, SlideY(ts, p, dy)).None? <==> GoesFreelyY(ts, p, dy)
  {
    if dy != 0 {
      ShortStepEndsApartY(ts, ts, p, dy);
      ApartIsClear(ts, SlideY(ts, p, dy));
    }
  }

  /** A step shorter than two players, from a place apart from every block and every live player, is apart
      from all of them after each axis exactly when on each axis the first collidable of the list that
      it runs into is the nearest one. */
  lemma StepStaysApart(ts: seq<Target>, p: Rect, dx: int, dy: int)
    requires InTheOpen(ts, p) && -2 * PLAYER < dx < 2 * PLAYER && -2 * PLAYER < dy < 2 * PLAYER
    ensures var m := SlideX(ts, p, dx);
            CollidingWith(ts, m).None? && CollidingWith(ts, MakeStep(ts, p, dx, dy)).None? <==>
            GoesFreelyX(ts, p, dx) && GoesFreelyY(ts, m, dy)
  {
    StaysInTheOpenX(ts, p, dx);
    if GoesFreelyX(ts, p, dx) { StaysInTheOpenY(ts, SlideX(ts, p, dx), dy); }
  }

  /** The end of such a step alone: it is apart from everything exactly when it goes freely on both axes, or when it
      does not on the first, the mover then moves on the second, and there is room beside what it runs into there
      or it runs into nothing. */
  lemma StepEndsApart(ts: seq<Target>, p: Rect, dx: int, dy: int)
    requires InTheOpen(ts, p) && -2 * PLAYER < dx < 2 * PLAYER && -2 * PLAYER < dy < 2 * PLAYER
    ensures var m := SlideX(ts, p, dx);
            CollidingWith(ts, MakeStep(ts, p, dx, dy)).None? <==>
            if GoesFreelyX(ts, p, dx) then GoesFreelyY(ts, m, dy) else dy != 0 && RoomY(ts, ts, m, dy)
  {
    var m := SlideX(ts, p, dx);
    StaysInTheOpenX(ts, p, dx);
    if GoesFreelyX(ts, p, dx) {
      StaysInTheOpenY(ts, m, dy);
    } else if dy != 0 {
      MoveEndsApartY(ts, ts, m, dy);
      ApartIsClear(ts, SlideY(ts, m, dy));
    }
  }

  /** Three players apart from each other; the one who moves, by the distance of one frame, is stopped by the
      first in the list, though another stood nearer, and ends up overlapping that one. */
  lemma LivePlayersCanOverlap()
    ensures var mover := Rect(1000, 1000, PLAYER, PLAYER);
            var first, nearer := Rect(1330, 1300, PLAYER, PLAYER), Rect(1324, 700, PLAYER, PLAYER);
            var ts := [Target(first, true), Target(nearer, true)];
            && !first.IntersectsWith(nearer) && InTheOpen(ts, mover)
            && !GoesFreelyX(ts, mover, 20) && nearer.IntersectsWith(SlideX(ts, mover, 20))
  {
    var mover := Rect(1000, 1000, PLAYER, PLAYER);
    var ts := [Target(Rect(1330, 1300, PLAYER, PLAYER), true), Target(Rect(1324, 700, PLAYER, PLAYER), true)];
    assert ts[1..] == [ts[1]];
    assert CollidingWith(ts, mover.(x := mover.x + 20)) == Some(ts[0].rect);
    assert ts[1] in ts;
  }

  // ---- Safe places

  /** Whether a move along one axis, from anywhere, ends in a safe place. */
  ghost predicate EndsSafeX(ts: seq<Target>, n: nat, w: int, h: int, p: Rect, dx: int)
    requires n <= |ts|
  {
    var q := p.(x := p.x + dx);
    var c := CollidingWith(ts, q);
    InsideMap(w, h, if c.None? then q else BesideX(c.value, p, dx)) && RoomX(ts, ts[..n], p, dx)
  }

  ghost predicate EndsSafeY(ts: seq<Target>, n: nat, w: int, h: int, p: Rect, dy: int)
    requires n <= |ts|
  {
    var q := p.(y := p.y + dy);
    var c := CollidingWith(ts, q);
    InsideMap(w, h, if c.None? then q else BesideY(c.value, p, dy)) && RoomY(ts, ts[..n], p, dy)
  }

  lemma StaticsApart(ts: seq<Target>, n: nat, r: Rect)
    requires n <= |ts| && forall t <- ts[..n] :: t.solid
    ensures Apart(ts[..n], r) <==> ClearOfStatics(ts, n, r)
    ensures forall t <- ts[..n] :: t in ts
  {}

  lemma MoveEndsSafeX(ts: seq<Target>, n: nat, w: int, h: int, p: Rect, dx: int)
    requires n <= |ts| && (forall t <- ts[..n] :: t.solid) && HasArea(p) && dx != 0
    ensures Safe(ts, n, w, h, SlideX(ts, p, dx)) <==> EndsSafeX(ts, n, w, h, p, dx)
  {
    StaticsApart(ts, n, SlideX(ts, p, dx));
    MoveEndsApartX(ts, ts[..n], p, dx);
  }

  lemma MoveEndsSafeY(ts: seq<Target>, n: nat, w: int, h: int, p: Rect, dy: int)
    requires n <= |ts| && (forall t <- ts[..n] :: t.solid) && HasArea(p) && dy != 0
    ensures Safe(ts, n, w, h, SlideY(ts, p, dy)) <==> EndsSafeY(ts, n, w, h, p, dy)
  {
    StaticsApart(ts, n, SlideY(ts, p, dy));
    MoveEndsApartY(ts, ts[..n], p, dy);
  }

  /** Where a step of any length from a safe place must have room: on the last axis that it moves along. */
  ghost predicate StepEndsWell(ts: seq<Target>, n: nat, w: int, h: int, p: Rect, dx: int, dy: int)
    requires n <= |ts|
  {
    if dy != 0 then EndsSafeY(ts, n, w, h, SlideX(ts, p, dx), dy)
    else dx == 0 || EndsSafeX(ts, n, w, h, p, dx)
  }

  /** A step of any length from a safe place ends in a safe place exactly when it has room there. */
  lemma StepEndsSafe(ts: seq<Target>, n: nat, w: int, h: int, p: Rect, dx: int, dy: int)
    requires Terrain(ts, n, w, h) && Safe(ts, n, w, h, p)
    ensures Safe(ts, n, w, h, MakeStep(ts, p, dx, dy)) <==> StepEndsWell(ts, n, w, h, p, dx, dy)
  {
    if dy != 0 {
      MoveEndsSafeY(ts, n, w, h, SlideX(ts, p, dx), dy);
    } else if dx != 0 {
      MoveEndsSafeX(ts, n, w, h, p, dx);
    }
  }

  /** A mover held by something that it overlaps is put beside it; there it is safe. */
  ghost predicate HeldSafelyX(ts: seq<Target>, n: nat, w: int, h: int, p: Rect, dx: int)
    requires n <= |ts|
  {
    FreeX(ts, p, dx) || EndsSafeX(ts, n, w, h, p, dx)
  }

  ghost predicate HeldSafelyY(ts: seq<Target>, n: nat, w: int, h: int, p: Rect, dy: int)
    requires n <= |ts|
  {
    FreeY(ts, p, dy) || EndsSafeY(ts, n, w, h, p, dy)
  }

  /** Along one axis, by at most a block and from a safe place, only a mover who is held can get into an unsafe
      one, and does exactly when the place beside what holds it is. */
  lemma ShortMoveIsSafeX(ts: seq<Target>, n: nat, w: int, h: int, p: Rect, dx: int)
    requires Terrain(ts, n, w, h) && Safe(ts, n, w, h, p) && -BLOCK <= dx <= BLOCK
    ensures Safe(ts, n, w, h, SlideX(ts, p, dx)) <==> HeldSafelyX(ts, n, w, h, p, dx)
  {
    if dx != 0 {
      MoveEndsSafeX(ts, n, w, h, p, dx);
      SlideXIsSafe(ts, n, w, h, p, dx);
    }
  }

  lemma ShortMoveIsSafeY(ts: seq<Target>, n: nat, w: int, h: int, p: Rect, dy: int)
    requires Terrain(ts, n, w, h) && Safe(ts, n, w, h, p) && -BLOCK <= dy <= BLOCK
    ensures Safe(ts, n, w, h, SlideY(ts, p, dy)) <==> HeldSafelyY(ts, n, w, h, p, dy)
  {
    if dy != 0 {
      MoveEndsSafeY(ts, n, w, h, p, dy);
      SlideYIsSafe(ts, n, w, h, p, dy);
    }
  }

  /** So for a whole step of at most a block per axis: it ends in a safe place exactly when the mover, where it is
      held, is held safely; or when the first axis puts it out of bounds and the second brings it back. */
  lemma ShortStepIsSafe(ts: seq<Target>, n: nat, w: int, h: int, p: Rect, dx: int, dy: int)
    requires Terrain(ts, n, w, h) && Safe(ts, n, w, h, p) && -BLOCK <= dx <= BLOCK && -BLOCK <= dy <= BLOCK
    ensures var m := SlideX(ts, p, dx);
            Safe(ts, n, w, h, MakeStep(ts, p, dx, dy)) <==>
            if HeldSafelyX(ts, n, w, h, p, dx) then HeldSafelyY(ts, n, w, h, m, dy)
            else dy != 0 && EndsSafeY(ts, n, w, h, m, dy)
  {
    var m := SlideX(ts, p, dx);
    ShortMoveIsSafeX(ts, n, w, h, p, dx);
    if HeldSafelyX(ts, n, w, h, p, dx) {
      ShortMoveIsSafeY(ts, n, w, h, m, dy);
    } else if dy != 0 {
      MoveEndsSafeY(ts, n, w, h, m, dy);
    }
  }

  // ---- Steps of more than a block

  ghost predicate LongStep(ts: seq<Target>, n: nat, w: int, h: int, p: Rect, q: Rect) {
    Terrain(ts, n, w, h) && Safe(ts, n, w, h, p) && !StuckInWhatItHits(ts, p, q)
  }

  lemma StaticsStartApart(ts: seq<Target>, n: nat, w: int, h: int, p: Rect, q: Rect)
    requires LongStep(ts, n, w, h, p, q)
    ensures StartsApart(ts, ts[..n], p, q)
  {}

  /** However long a step is, it ends clear of the static blocks exactly when what stops it pins the mover to
      none of them; */
  lemma LongStepEndsClearX(ts: seq<Target>, n: nat, w: int, h: int, p: Rect, dx: int)
    requires dx != 0 && LongStep(ts, n, w, h, p, p.(x := p.x + dx))
    ensures var c := CollidingWith(ts, p.(x := p.x + dx));
            ClearOfStatics(ts, n, SlideX(ts, p, dx)) <==>
            (c.Some? ==> forall t <- ts[..n] :: !PinnedX(t.rect, c.value, p, dx))
  {
    StaticsStartApart(ts, n, w, h, p, p.(x := p.x + dx));
    EndsApartX(ts, ts[..n], p, dx);
  }

  lemma LongStepEndsClearY(ts: seq<Target>, n: nat, w: int, h: int, p: Rect, dy: int)
    requires dy != 0 && LongStep(ts, n, w, h, p, p.(y := p.y + dy))
    ensures var c := CollidingWith(ts, p.(y := p.y + dy));
            ClearOfStatics(ts, n, SlideY(ts, p, dy)) <==>
            (c.Some? ==> forall t <- ts[..n] :: !PinnedY(t.rect, c.value, p, dy))
  {
    StaticsStartApart(ts, n, w, h, p, p.(y := p.y + dy));
    EndsApartY(ts, ts[..n], p, dy);
  }

  /** and shorter than the mover and a block together, exactly when the first that it runs into is nearest. */
  lemma StepEndsClearX(ts: seq<Target>, n: nat, w: int, h: int, p: Rect, dx: int)
    requires LongStep(ts, n, w, h, p, p.(x := p.x + dx)) && -(p.w + BLOCK) < dx < p.w + BLOCK && dx != 0
    ensures ClearOfStatics(ts, n, SlideX(ts, p, dx)) <==> FirstIsNearestX(ts, ts[..n], p, dx)
  {
    StaticsStartApart(ts, n, w, h, p, p.(x := p.x + dx));
    ShortStepEndsApartX(ts, ts[..n], p, dx);
  }

  lemma StepEndsClearY(ts: seq<Target>, n: nat, w: int, h: int, p: Rect, dy: int)
    requires LongStep(ts, n, w, h, p, p.(y := p.y + dy)) && -(p.h + BLOCK) < dy < p.h + BLOCK && dy != 0
    ensures ClearOfStatics(ts, n, SlideY(ts, p, dy)) <==> FirstIsNearestY(ts, ts[..n], p, dy)
  {
    StaticsStartApart(ts, n, w, h, p, p.(y := p.y + dy));
    ShortStepEndsApartY(ts, ts[..n], p, dy);
  }

  function LongStepTerrain(): seq<Target> {
    [Target(Rect(800, 0, BLOCK, BLOCK), true), Target(Rect(400, 0, BLOCK, BLOCK), true),
     Target(Rect(0, -BLOCK, 2000, BLOCK), true), Target(Rect(2000, 0, BLOCK, 2000), true),
     Target(Rect(0, 2000, 2000, BLOCK), true), Target(Rect(-BLOCK, 0, BLOCK, 2000), true)]
  }

  lemma LongStepTerrainIsTerrain()
    ensures Terrain(LongStepTerrain(), 6, 2000, 2000)
  {
    var ts := LongStepTerrain();
    assert ts[..6] == ts;
    forall wall | wall in Walls(2000, 2000) ensures Target(wall, true) in ts[..6] {
      var i :| 0 <= i < 4 && Walls(2000, 2000)[i] == wall;
      assert ts[i + 2] == Target(wall, true);
    }
  }

  /** One unit beyond a block is too far: the window then holds two grid lines and the first block
      in the list need not be the nearest. */
  lemma StepsBeyondABlockAreUnsafe()
    ensures var ts, p := LongStepTerrain(), Rect(80, 0, PLAYER, PLAYER);
            && Terrain(ts, 6, 2000, 2000) && Safe(ts, 6, 2000, 2000, p)
            && FreeX(ts, p, BLOCK + 1) && !FirstIsNearestX(ts, ts[..6], p, BLOCK + 1)
            && !ClearOfStatics(ts, 6, SlideX(ts, p, BLOCK + 1))
  {
    var ts, p := LongStepTerrain(), Rect(80, 0, PLAYER, PLAYER);
    LongStepTerrainIsTerrain();
    assert ts[..6] == ts;
    var q := p.(x := p.x + (BLOCK + 1));
    assert CollidingWith(ts, q) == Some(Rect(800, 0, BLOCK, BLOCK));
    assert SlideX(ts, p, BLOCK + 1) == Rect(480, 0, PLAYER, PLAYER);
    assert ts[1].rect.IntersectsWith(Rect(480, 0, PLAYER, PLAYER)) && ts[1] in ts[..6];
    assert ts[1].rect.IntersectsWith(q);
  }
}
