/** The map of a game as the server builds it (src/server/game_world.cpp, add_collidables): no shot of anybody in
    it gets lost, and exactly which steps keep everybody there. */
module MapTerrain {
  import opened Basics
  import opened Settings
  import opened Geometry
  import opened Slide
  import opened Arms
  import opened World

  datatype MapObject = MapObject(collidable: bool, positions: seq<(int, int)>)

  /** `width` and `height` count blocks. */
  datatype GameMap = GameMap(width: nat, height: nat, objects: seq<MapObject>)

  function BlockAt(p: (int, int)): Rect { Rect(p.0 * BLOCK, p.1 * BLOCK, BLOCK, BLOCK) }

  function BlocksAt(ps: seq<(int, int)>): (r: seq<Rect>)
    ensures |r| == |ps| && forall i :: 0 <= i < |ps| ==> r[i] == BlockAt(ps[i])
  {
    seq(|ps|, i requires 0 <= i < |ps| => BlockAt(ps[i]))
  }

  function Blocks(objects: seq<MapObject>): seq<Rect> {
    if objects == [] then []
    else
      var last := objects[|objects| - 1];
      Blocks(objects[..|objects| - 1]) + (if last.collidable then BlocksAt(last.positions) else [])
  }

  /** The static collidables of a map: its blocks, then the four walls. */
  function Statics(map_: GameMap): seq<Rect> {
    Blocks(map_.objects) + Walls(map_.width * BLOCK, map_.height * BLOCK)
  }

  /** What stands still in a game: the four walls around the map, and a block wherever an object that can be run into
      is. */
  predicate StandsStill(map_: GameMap, r: Rect) {
    || r == Rect(0, -400, 400 * map_.width, 400)
    || r == Rect(400 * map_.width, 0, 400, 400 * map_.height)
    || r == Rect(0, 400 * map_.height, 400 * map_.width, 400)
    || r == Rect(-400, 0, 400, 400 * map_.height)
    || IsBlock(map_.objects, r)
  }

  predicate IsBlock(objects: seq<MapObject>, r: Rect) {
    exists o <- objects, p <- o.positions :: o.collidable && r == Rect(400 * p.0, 400 * p.1, 400, 400)
  }

  lemma InBlocksAtIff(ps: seq<(int, int)>, r: Rect)
    ensures r in BlocksAt(ps) <==> exists p <- ps :: r == Rect(400 * p.0, 400 * p.1, 400, 400)
  {
    if p :| p in ps && r == Rect(400 * p.0, 400 * p.1, 400, 400) {
      var i :| 0 <= i < |ps| && ps[i] == p;
      assert BlocksAt(ps)[i] == r;
    }
  }

  lemma {:induction false} InBlocksIff(objects: seq<MapObject>, r: Rect)
    ensures r in Blocks(objects) <==> IsBlock(objects, r)
  {
    if objects != [] {
      var before, last := objects[..|objects| - 1], objects[|objects| - 1];
      InBlocksIff(before, r);
      InBlocksAtIff(last.positions, r);
      assert objects == before + [last];
    }
  }

  /** Exactly that is in the list. */
  lemma IsStaticIff(map_: GameMap, r: Rect)
    ensures r in Statics(map_) <==> StandsStill(map_, r)
  {
    InBlocksIff(map_.objects, r);
  }

  /** How many blocks the first `k` objects make. */
  function Room(objects: seq<MapObject>, k: nat): nat
    requires k <= |objects|
  {
    if k == 0 then 0
    else Room(objects, k - 1) + (if objects[k - 1].collidable then |objects[k - 1].positions| else 0)
  }

  /** A block is where the object and the position have it, counted by those before it. */
  lemma {:induction false} BlockIsAt(objects: seq<MapObject>, k: nat, a: nat, b: nat)
    requires a < k <= |objects| && objects[a].collidable && b < |objects[a].positions|
    ensures |Blocks(objects[..k])| == Room(objects, k) && Room(objects, a) + b < Room(objects, k)
    ensures var p := objects[a].positions[b];
            Blocks(objects[..k])[Room(objects, a) + b] == Rect(400 * p.0, 400 * p.1, 400, 400)
  {
    assert objects[..k][..k - 1] == objects[..k - 1];
    RoomOfBlocks(objects, k - 1);
    if a < k - 1 { BlockIsAt(objects, k - 1, a, b); }
  }

  lemma {:induction false} RoomOfBlocks(objects: seq<MapObject>, k: nat)
    requires k <= |objects|
    ensures |Blocks(objects[..k])| == Room(objects, k)
  {
    if k > 0 {
      assert objects[..k][..k - 1] == objects[..k - 1];
      RoomOfBlocks(objects, k - 1);
    }
  }

  /** The order of the list, which steps depend on: the blocks by objects and positions, then the walls. */
  lemma StaticsInOrder(map_: GameMap, a: nat, b: nat)
    requires a < |map_.objects| && map_.objects[a].collidable && b < |map_.objects[a].positions|
    ensures var p, n, i, all := map_.objects[a].positions[b], |map_.objects|, Room(map_.objects, a) + b, Statics(map_);
            && i < Room(map_.objects, n) == |all| - 4 && all[i] == Rect(400 * p.0, 400 * p.1, 400, 400)
            && all[|all| - 4] == Rect(0, -400, 400 * map_.width, 400)
            && all[|all| - 3] == Rect(400 * map_.width, 0, 400, 400 * map_.height)
            && all[|all| - 2] == Rect(0, 400 * map_.height, 400 * map_.width, 400)
            && all[|all| - 1] == Rect(-400, 0, 400, 400 * map_.height)
  {
    BlockIsAt(map_.objects, |map_.objects|, a, b);
    assert map_.objects[..|map_.objects|] == map_.objects;
  }

  method AddCollidables(map_: GameMap) returns (collidables: seq<Rect>)
    ensures collidables == Statics(map_)
    ensures forall r :: r in collidables <==> StandsStill(map_, r)
  {
    collidables := [];
    var i := 0;
    while i < |map_.objects|
      invariant i <= |map_.objects| && collidables == Blocks(map_.objects[..i])
    {
      var block := map_.objects[i];
      assert map_.objects[..i + 1][..i] == map_.objects[..i];
      if block.collidable {
        ghost var before := collidables;
        var j := 0;
        while j < |block.positions|
          invariant j <= |block.positions| && collidables == before + BlocksAt(block.positions)[..j]
        {
          var vec := block.positions[j];
          collidables := collidables + [Rect(vec.0 * BLOCK, vec.1 * BLOCK, BLOCK, BLOCK)];
          j := j + 1;
        }
      }
      i := i + 1;
    }
    assert map_.objects[..i] == map_.objects;
    var width, height := map_.width * BLOCK, map_.height * BLOCK;
    collidables := collidables + [Rect(0, -BLOCK, width, BLOCK)];
    collidables := collidables + [Rect(width, 0, BLOCK, height)];
    collidables := collidables + [Rect(0, height, width, BLOCK)];
    collidables := collidables + [Rect(-BLOCK, 0, BLOCK, height)];
    forall r ensures r in collidables <==> StandsStill(map_, r) { IsStaticIff(map_, r); }
  }

  lemma {:induction false} BlocksAreOnGrid(objects: seq<MapObject>)
    ensures forall r <- Blocks(objects) :: OnGrid(r)
  {
    if objects != [] { BlocksAreOnGrid(objects[..|objects| - 1]); }
  }

  lemma StaticsAreOnGrid(map_: GameMap)
    requires map_.width > 0 && map_.height > 0
    ensures forall r <- Statics(map_) :: OnGrid(r)
    ensures forall wall <- Walls(map_.width * BLOCK, map_.height * BLOCK) :: wall in Statics(map_)
  {
    BlocksAreOnGrid(map_.objects);
  }

  // ---- Players in the map

  /** The surroundings of a game on a map: directions are not null. */
  ghost predicate OnMap(env: Env, map_: GameMap) {
    && env.Valid() && map_.width > 0 && map_.height > 0 && env.statics == Statics(map_)
    && exists heading :: IsHeading(heading) && env == Arena(env.cfg, env.statics, env.sites, heading)
  }

  /** Directions of angles, which are unit vectors: the reach of a knife is compared with a distance
      (Geometry.ParameterIsDistance). */
  ghost predicate IsHeading(heading: real -> Vec) {
    forall a :: heading(a).x * heading(a).x + heading(a).y * heading(a).y == 1.0
  }

  ghost predicate Placed(map_: GameMap, r: Rect) {
    && r.w == PLAYER && r.h == PLAYER && InsideMap(map_.width * BLOCK, map_.height * BLOCK, r)
    && forall s <- Statics(map_) :: !s.IntersectsWith(r)
  }

  function Places(w: World): map<Name, Rect> { map n <- w.players :: w.players[n].rect }

  ghost predicate AllPlaced(map_: GameMap, w: World) { forall n <- Places(w) :: Placed(map_, Places(w)[n]) }

  lemma MapIsTerrain(env: Env, map_: GameMap, w: World, me: Name)
    requires OnMap(env, map_) && w.Ok()
    ensures Terrain(Targets(env, w, me), |env.statics|, map_.width * BLOCK, map_.height * BLOCK)
  {
    var ts, n := Targets(env, w, me), |env.statics|;
    StaticsAreOnGrid(map_);
    forall t | t in ts[..n] ensures t.solid && OnGrid(t.rect) {
      var i :| 0 <= i < n && ts[i] == t;
      assert env.statics[i] in Statics(map_);
    }
    forall wall | wall in Walls(map_.width * BLOCK, map_.height * BLOCK) ensures Target(wall, true) in ts[..n] {
      var i :| 0 <= i < n && env.statics[i] == wall;
      assert ts[..n][i] == Target(wall, true);
    }
  }

  lemma PlacedIsSafe(env: Env, map_: GameMap, w: World, me: Name, r: Rect)
    requires OnMap(env, map_) && w.Ok() && r.w == PLAYER && r.h == PLAYER
    ensures Placed(map_, r) <==>
              Safe(Targets(env, w, me), |env.statics|, map_.width * BLOCK, map_.height * BLOCK, r)
  {
    var ts, n := Targets(env, w, me), |env.statics|;
    if Placed(map_, r) {
      forall t | t in ts[..n] ensures !t.rect.IntersectsWith(r) {
        var i :| 0 <= i < n && ts[i] == t;
        assert env.statics[i] in Statics(map_);
      }
    }
    if ClearOfStatics(ts, n, r) {
      forall s | s in Statics(map_) ensures !s.IntersectsWith(r) {
        var i :| 0 <= i < n && env.statics[i] == s;
        assert ts[..n][i].rect == s;
      }
    }
  }

  // ---- No shot gets lost

  lemma CenterIsInside(w: int, h: int, r: Rect, ray: Ray)
    requires InsideMap(w, h, r) && r.w == PLAYER && r.h == PLAYER
    requires ray.origin == Vec(Center(r).0 as real, Center(r).1 as real)
    ensures StrictlyInside(w, h, ray.origin)
  {}

  lemma TargetsAroundPlayers(env: Env, map_: GameMap, w: World, me: Name, ts: seq<Target>)
    requires OnMap(env, map_) && w.Ok() && AllPlaced(map_, w) && ts == Targets(env, w, me)
    ensures forall wall <- Walls(map_.width * BLOCK, map_.height * BLOCK) :: Target(wall, true) in ts
    ensures forall t <- ts :: t.rect.w > 0 && t.rect.h > 0
  {
    var n := |env.statics|;
    MapIsTerrain(env, map_, w, me);
    forall wall | wall in Walls(map_.width * BLOCK, map_.height * BLOCK) ensures Target(wall, true) in ts {
      assert Target(wall, true) in ts[..n];
    }
    forall i | 0 <= i < |ts| ensures ts[i].rect.w > 0 && ts[i].rect.h > 0 {
      if i < n { assert ts[i] in ts[..n]; } else { assert Placed(map_, Places(w)[w.joined[i - n]]); }
    }
  }

  /** calculate_shot finds something for every player in the map, at any angle. */
  lemma NoShotThrows(env: Env, map_: GameMap, w: World, me: Name, angle: real)
    requires OnMap(env, map_) && w.Ok() && me in w.players && AllPlaced(map_, w)
    ensures Shoot(env, w, me, angle).Some?
  {
    var heading :| IsHeading(heading) && env == Arena(env.cfg, env.statics, env.sites, heading);
    var ts, ray := Targets(env, w, me), Aim(heading, w.players[me].rect, angle);
    TargetsAroundPlayers(env, map_, w, me, ts);
    assert Placed(map_, Places(w)[me]);
    CenterIsInside(map_.width * BLOCK, map_.height * BLOCK, w.players[me].rect, ray);
    EveryShotHits(ray, ts, map_.width * BLOCK, map_.height * BLOCK);
  }

  ghost predicate Lands(env: Env, w: World, me: Name, angle: real)
    requires env.Valid()
  {
    w.Ok() && me in w.players ==> Shoot(env, w, me, angle).Some?
  }

  ghost predicate ShotsLand(env: Env, map_: GameMap)
    requires env.Valid()
  {
    forall w: World, me, angle :: AllPlaced(map_, w) ==> Lands(env, w, me, angle)
  }

  lemma AllShotsLand(env: Env, map_: GameMap)
    requires OnMap(env, map_)
    ensures ShotsLand(env, map_)
  {
    forall w: World, me, angle | AllPlaced(map_, w) ensures Lands(env, w, me, angle) {
      if w.Ok() && me in w.players { NoShotThrows(env, map_, w, me, angle); }
    }
  }

  // ---- Only walking moves

  /** Nobody moved ... */
  ghost predicate Still(w: World, w': World) { SameRoster(w, w') && Places(w') == Places(w) }

  /** ... and nothing was thrown. */
  ghost predicate Unmoved(w: World, w': World) { Still(w, w') && w'.crashed == w.crashed }

  lemma UnmovedTrans(w: World, w1: World, w2: World)
    requires Unmoved(w, w1) && Unmoved(w1, w2)
    ensures Unmoved(w, w2)
  {}

  /** With everybody in the map no shot is lost. */
  ghost predicate Sure(env: Env, map_: GameMap, w: World, sure: bool)
    requires env.Valid()
  {
    sure ==> ShotsLand(env, map_) && AllPlaced(map_, w)
  }

  /** Nobody moved, and where it is sure nothing was thrown. */
  ghost predicate Calmly(sure: bool, w: World, w': World) { Still(w, w') && (sure ==> w'.crashed == w.crashed) }

  lemma CalmlyTrans(sure: bool, w: World, w1: World, w2: World)
    requires Calmly(sure, w, w1) && Calmly(sure, w1, w2)
    ensures Calmly(sure, w, w2)
  {}

  lemma StillSure(env: Env, map_: GameMap, w: World, w': World, sure: bool)
    requires env.Valid() && Sure(env, map_, w, sure) && Calmly(sure, w, w')
    ensures Sure(env, map_, w', sure)
  {}

  lemma SetMovesNobody(w: World, n: Name, p: Player, w': World)
    requires w.Ok() && n in w.players && p.rect == w.players[n].rect && w' == SetPlayer(w, n, p)
    ensures Unmoved(w, w')
  {
    assert Places(w') == Places(w);
  }

  lemma FallMovesNobody(env: Env, w: World, v: Name, w': World)
    requires env.Valid() && w.Ok() && v in w.players && w' == DropWeapons(env, w, v)
    ensures Unmoved(w, w')
  {
    var p := w.players[v];
    var w1 := DropBomb(DropGun(w, p), p);
    assert Places(w1) == Places(w);
    SetMovesNobody(w1, v, p.(loadout := ResetLoadout(env.cfg, p.loadout, true)), w');
  }

  lemma DamageMovesNobody(env: Env, w: World, v: Name, damage: nat, s: Source, w': World)
    requires env.Valid() && w.Ok() && v in w.players && w' == ReceiveDamage(env, w, v, damage, s)
    ensures Unmoved(w, w')
  {
    var p, w1 := w.players[v], Marked(w, v, s);
    if 0 < p.life <= damage {
      SetMovesNobody(w, v, Corpse(p), SetPlayer(w, v, Corpse(p)));
      assert Places(w1) == Places(SetPlayer(w, v, Corpse(p)));
      FallMovesNobody(env, w1, v, w');
    } else if p.life > damage {
      SetMovesNobody(w, v, p.(life := p.life - damage), w');
    }
  }

  lemma {:induction false} HitsMoveNobody(env: Env, w: World, v: Name, hits: seq<nat>, s: Source, w': World)
    requires env.Valid() && w.Ok() && v in w.players && w' == ReceiveHits(env, w, v, hits, s)
    ensures Unmoved(w, w')
    decreases |hits|
  {
    if hits != [] {
      var w1 := ReceiveDamage(env, w, v, hits[0], s);
      DamageMovesNobody(env, w, v, hits[0], s, w1);
      HitsMoveNobody(env, w1, v, hits[1..], s, w');
      UnmovedTrans(w, w1, w');
    }
  }

  lemma CreditMovesNobody(env: Env, w: World, killer: Name, v: Name, bonus: nat, w': World)
    requires env.Valid() && w.Ok() && killer in w.players && v in w.players && w' == CountKill(env, w, killer, v, bonus)
    ensures Unmoved(w, w')
  {
    assert Places(w') == Places(w);
  }

  /** A shot that hits something. */
  lemma HitMovesNobody(
    env: Env, w: World, me: Name, angle: real, hits: seq<nat>, reach: Option<nat>, bonus: nat, w': World)
    requires env.Valid() && w.Ok() && me in w.players && Shoot(env, w, me, angle).Some?
    requires w' == Strike(env, w, me, angle, hits, reach, bonus)
    ensures Unmoved(w, w')
  {
    var (victim, impact) := Shoot(env, w, me, angle).value;
    var w1 := SetPlayer(w, me, w.players[me].(shot := Some(impact.point)));
    SetMovesNobody(w, me, w.players[me].(shot := Some(impact.point)), w1);
    if victim.Some? {
      var felt := if reach.Some? && impact.t >= reach.value as real then [] else hits;
      var w2 := ReceiveHits(env, w1, victim.value, felt, ByPlayer(me));
      HitsMoveNobody(env, w1, victim.value, felt, ByPlayer(me), w2);
      CreditMovesNobody(env, w2, me, victim.value, bonus, CountKill(env, w2, me, victim.value, bonus));
    }
  }

  lemma StrikeMovesNobody(
    env: Env, map_: GameMap, sure: bool, w: World, me: Name, angle: real, hits: seq<nat>, reach: Option<nat>,
    bonus: nat, w': World)
    requires env.Valid() && w.Ok() && me in w.players && Sure(env, map_, w, sure)
    requires w' == Strike(env, w, me, angle, hits, reach, bonus)
    ensures Calmly(sure, w, w')
  {
    if sure { assert Lands(env, w, me, angle); }
    if Shoot(env, w, me, angle).Some? {
      HitMovesNobody(env, w, me, angle, hits, reach, bonus, w');
    } else {
      assert Places(w') == Places(w);
    }
  }

  lemma PelletMovesNobody(
    env: Env, map_: GameMap, sure: bool, w: World, me: Name, center: real, i: nat, luck: Luck, bonus: nat, w1: World)
    requires env.Valid() && w.Ok() && me in w.players && Sure(env, map_, w, sure)
    requires w1 == FirePellet(env, w, me, center, i, luck, bonus)
    ensures Calmly(sure, w, w1)
  {
    var angle := PelletAngle(center, i);
    StrikeMovesNobody(env, map_, sure, w, me, angle, Bullets(luck, me, i, 1), None, bonus, w1);
  }

  lemma {:induction false} PelletsMoveNobody(
    env: Env, map_: GameMap, sure: bool, w: World, me: Name, center: real, i: nat, n: nat, luck: Luck, bonus: nat,
    w': World)
    requires env.Valid() && w.Ok() && me in w.players && i <= n && Sure(env, map_, w, sure)
    requires w' == FirePellets(env, w, me, center, i, n, luck, bonus)
    ensures Calmly(sure, w, w')
    decreases n - i
  {
    if i < n && !w.crashed {
      var w1 := FirePellet(env, w, me, center, i, luck, bonus);
      PelletMovesNobody(env, map_, sure, w, me, center, i, luck, bonus, w1);
      StillSure(env, map_, w, w1, sure);
      PelletsMoveNobody(env, map_, sure, w1, me, center, i + 1, n, luck, bonus, w');
      CalmlyTrans(sure, w, w1, w');
    }
  }

  lemma StillPlaced(map_: GameMap, w: World, w': World)
    requires AllPlaced(map_, w) && Still(w, w')
    ensures AllPlaced(map_, w')
  {}

  lemma FireMovesNobody(
    env: Env, map_: GameMap, sure: bool, w: World, me: Name, kind: GunType, luck: Luck, w': World)
    requires env.Valid() && w.Ok() && me in w.players && Sure(env, map_, w, sure) && w' == Fire(env, w, me, kind, luck)
    ensures Calmly(sure, w, w')
  {
    var angle, bonus := w.players[me].orientation, env.cfg.Gun(kind).killBonus;
    if kind == M3 {
      PelletsMoveNobody(env, map_, sure, w, me, angle, 0, Pellets(kind), luck, bonus, w');
    } else {
      StrikeMovesNobody(env, map_, sure, w, me, angle, Bullets(luck, me, 0, AmmoCost(kind)), None, bonus, w');
    }
  }

  lemma PuttingMovesNobody(w: World, me: Name, g: Gun, w': World)
    requires w.Ok() && me in w.players && w' == PutGun(w, me, g)
    ensures Unmoved(w, w')
  {
    var p := w.players[me];
    match p.loadout.equipped
    case PrimarySlot => SetMovesNobody(w, me, p.(loadout := p.loadout.(primary := Some(g))), w');
    case SecondarySlot => SetMovesNobody(w, me, p.(loadout := p.loadout.(secondary := g)), w');
    case _ =>
  }

  lemma DischargeMovesNobody(
    env: Env, map_: GameMap, sure: bool, w: World, me: Name, g': Gun, luck: Luck, w': World)
    requires env.Valid() && w.Ok() && me in w.players && Sure(env, map_, w, sure)
    requires w' == Discharge(env, w, me, g', luck)
    ensures Calmly(sure, w, w')
  {
    var w1 := Fire(env, w, me, g'.kind, luck);
    FireMovesNobody(env, map_, sure, w, me, g'.kind, luck, w1);
    PuttingMovesNobody(w1, me, g', PutGun(w1, me, g'));
    CalmlyTrans(sure, w, w1, PutGun(w1, me, g'));
  }

  lemma GunMovesNobody(
    env: Env, map_: GameMap, sure: bool, w: World, me: Name, g: Gun, fires: bool, g': Gun, luck: Luck, w': World)
    requires env.Valid() && w.Ok() && me in w.players && Sure(env, map_, w, sure)
    requires fires ==> g.ammo >= AmmoCost(g.kind)
    requires w' == UseGun(env, w, me, g, fires, g', luck)
    ensures Calmly(sure, w, w')
  {
    if fires {
      var taken := Spent(g);
      var w1 := PutGun(w, me, taken);
      PuttingMovesNobody(w, me, taken, w1);
      StillSure(env, map_, w, w1, sure);
      DischargeMovesNobody(env, map_, sure, w1, me, g', luck, w');
      CalmlyTrans(sure, w, w1, w');
    } else {
      PuttingMovesNobody(w, me, g', w');
    }
  }

  lemma KnifeMovesNobody(
    env: Env, map_: GameMap, sure: bool, w: World, me: Name, stabs: bool, k': Knife, w': World)
    requires env.Valid() && w.Ok() && me in w.players && Sure(env, map_, w, sure)
    requires w' == UseKnife(env, w, me, stabs, k')
    ensures Calmly(sure, w, w')
  {
    var angle, damage := w.players[me].orientation, [env.cfg.knifeDamage];
    var w1 := Strike(env, w, me, angle, damage, Some(env.cfg.knifeDistance), env.cfg.knifeKillBonus);
    StrikeMovesNobody(
      env, map_, sure, w, me, angle, damage, Some(env.cfg.knifeDistance), env.cfg.knifeKillBonus, w1);
    var w2 := if stabs then w1 else w;
    var p := w2.players[me];
    SetMovesNobody(w2, me, p.(loadout := p.loadout.(knife := k')), PutKnife(w2, me, k'));
  }

  lemma BombMovesNobody(env: Env, w: World, me: Name, dt: real, w': World)
    requires env.Valid() && w.Ok() && me in w.players && w' == UseBomb(env, w, me, dt)
    ensures Unmoved(w, w')
  {
    var p := w.players[me].(loadout := WithoutBomb(w.players[me].loadout));
    SetMovesNobody(w, me, p, SetPlayer(w, me, p));
    assert w'.players == w.players || w'.players == SetPlayer(w, me, p).players;
  }

  lemma WeaponMovesNobody(
    env: Env, map_: GameMap, sure: bool, w: World, me: Name, dt: real, luck: Luck, w': World)
    requires env.Valid() && w.Ok() && me in w.players && Sure(env, map_, w, sure)
    requires w' == UseWeapon(env, w, me, dt, luck)
    ensures Calmly(sure, w, w')
  {
    var l := w.players[me].loadout;
    match l.equipped
    case KnifeSlot =>
      KnifeMovesNobody(env, map_, sure, w, me, CanStab(env.cfg, l.knife), UpdateKnife(env.cfg, l.knife, dt), w');
    case BombSlot => BombMovesNobody(env, w, me, dt, UseBomb(env, w, me, dt));
    case _ =>
      if EquippedGun(l).Some? {
        var g := EquippedGun(l).value;
        GunMovesNobody(env, map_, sure, w, me, g, CanShoot(env.cfg, g), UpdateGun(env.cfg, g, dt), luck, w');
      }
  }

  // ---- A turn

  /** Where a player's step would end, and whether that is in the map: see Slide.StepEndsSafe. */
  function StepOfTurn(env: Env, w: World, me: Name, stepped: nat): Rect
    requires env.Valid() && w.Ok() && me in w.players
  {
    var (dx, dy) := StepOf(w.players[me], stepped);
    MakeStep(Targets(env, w, me), w.players[me].rect, dx, dy)
  }

  ghost predicate StepLands(env: Env, map_: GameMap, w: World, me: Name, stepped: nat)
    requires env.Valid() && w.Ok() && me in w.players
  {
    var (dx, dy) := StepOf(w.players[me], stepped);
    StepEndsWell(Targets(env, w, me), |env.statics|, map_.width * BLOCK, map_.height * BLOCK,
                 w.players[me].rect, dx, dy)
  }

  lemma {:induction false} DiagonalIsShorter(s: nat, k: nat)
    ensures Diagonal(s, k) <= k
  {
    if k > 0 { DiagonalIsShorter(s, k - 1); }
  }

  predicate Within(n: int, most: int) { -most <= n <= most }

  lemma SignedLength(sign: int, length: nat, most: nat)
    requires Within(sign, 1) && length <= most
    ensures Within(sign * length, most)
  {}

  lemma StepIsShort(p: Player, stepped: nat)
    ensures Within(StepOf(p, stepped).0, stepped) && Within(StepOf(p, stepped).1, stepped)
  {
    var sx, sy := Sign(p.right, p.left), Sign(p.down, p.up);
    var length := if sx != 0 && sy != 0 then Diagonal(stepped, stepped) else stepped;
    DiagonalIsShorter(stepped, stepped);
    SignedLength(sx, length, stepped);
    SignedLength(sy, length, stepped);
  }

  /** A player in the map is in it after his step exactly when the step lands. */
  lemma StepLandsIff(env: Env, map_: GameMap, w: World, me: Name, stepped: nat)
    requires OnMap(env, map_) && w.Ok() && me in w.players && Placed(map_, w.players[me].rect)
    ensures Placed(map_, StepOfTurn(env, w, me, stepped)) <==> StepLands(env, map_, w, me, stepped)
  {
    var (dx, dy) := StepOf(w.players[me], stepped);
    var r := StepOfTurn(env, w, me, stepped);
    MapIsTerrain(env, map_, w, me);
    PlacedIsSafe(env, map_, w, me, w.players[me].rect);
    StepEndsSafe(Targets(env, w, me), |env.statics|, map_.width * BLOCK, map_.height * BLOCK,
                 w.players[me].rect, dx, dy);
    PlacedIsSafe(env, map_, w, me, r);
  }

  /** A player's step is not stopped by anything the player overlaps already. */
  predicate StepsFreely(env: Env, w: World, me: Name, stepped: nat)
    requires env.Valid() && w.Ok() && me in w.players
  {
    var (dx, dy) := StepOf(w.players[me], stepped);
    var ts, r := Targets(env, w, me), w.players[me].rect;
    FreeX(ts, r, dx) && FreeY(ts, SlideX(ts, r, dx), dy)
  }

  /** Of the steps of at most a block only those can fail to land that are held by a player overlapped. */
  lemma FreeStepLands(env: Env, map_: GameMap, w: World, me: Name, stepped: nat)
    requires OnMap(env, map_) && w.Ok() && me in w.players && Placed(map_, w.players[me].rect)
    requires stepped <= BLOCK && StepsFreely(env, w, me, stepped)
    ensures StepLands(env, map_, w, me, stepped)
  {
    var (dx, dy) := StepOf(w.players[me], stepped);
    var ts, n, width, height := Targets(env, w, me), |env.statics|, map_.width * BLOCK, map_.height * BLOCK;
    StepIsShort(w.players[me], stepped);
    MapIsTerrain(env, map_, w, me);
    PlacedIsSafe(env, map_, w, me, w.players[me].rect);
    StepIsSafe(ts, n, width, height, w.players[me].rect, dx, dy);
    StepEndsSafe(ts, n, width, height, w.players[me].rect, dx, dy);
  }

  lemma WalkMovesOne(env: Env, w: World, me: Name, stepped: nat, w': World)
    requires env.Valid() && w.Ok() && me in w.players && w' == Walk(env, w, me, stepped)
    ensures Places(w') == Places(w)[me := StepOfTurn(env, w, me, stepped)]
    ensures w'.crashed == w.crashed && SameRoster(w, w')
  {}

  lemma OneMoved(map_: GameMap, w: World, me: Name, r: Rect, w': World)
    requires AllPlaced(map_, w) && Places(w') == Places(w)[me := r]
    ensures AllPlaced(map_, w') <==> Placed(map_, r)
  {
    if !Placed(map_, r) { assert me in Places(w'); }
  }

  /** Somebody's turn moved at most himself, to `r`. */
  ghost predicate TurnMoves(w: World, me: Name, r: Rect, w': World) {
    SameRoster(w, w') && Places(w') == Places(w)[me := r]
  }

  /** The moving turn of Player::update. */
  lemma MoveAndFire(
    env: Env, map_: GameMap, w: World, me: Name, stepped: nat, dt: real, luck: Luck, w1: World, w': World)
    requires OnMap(env, map_) && w.Ok() && me in w.players && AllPlaced(map_, w)
    requires w1 == Walk(env, w, me, stepped) && w' == UseWeapon(env, w1, me, dt, luck)
    ensures TurnMoves(w, me, StepOfTurn(env, w, me, stepped), w')
    ensures Placed(map_, StepOfTurn(env, w, me, stepped)) ==> w'.crashed == w.crashed
  {
    var r := StepOfTurn(env, w, me, stepped);
    AllShotsLand(env, map_);
    WalkMovesOne(env, w, me, stepped, w1);
    OneMoved(map_, w, me, r, w1);
    WeaponMovesNobody(env, map_, Placed(map_, r), w1, me, dt, luck, w');
  }

  lemma MakeReady(env: Env, w: World, me: Name, stepped: nat, p: Player, w': World)
    requires env.Valid() && w.Ok() && me in w.players && w' == SetPlayer(w, me, p)
    requires p == w.players[me].(shot := p.shot, planting := p.planting, defusing := p.defusing)
    ensures Unmoved(w, w') && StepOfTurn(env, w', me, stepped) == StepOfTurn(env, w, me, stepped)
  {
    SetMovesNobody(w, me, p, w');
    SameTargets(env, w, w', me);
  }

  lemma PlantInPlace(env: Env, w: World, me: Name, dt: real, w': World)
    requires env.Valid() && w.Ok() && me in w.players
    requires w' == UseBomb(env, SetPlayer(w, me, w.players[me].(planting := true)), me, dt)
    ensures Unmoved(w, w')
  {
    var w1 := SetPlayer(w, me, w.players[me].(planting := true));
    SetMovesNobody(w, me, w.players[me].(planting := true), w1);
    BombMovesNobody(env, w1, me, dt, w');
    UnmovedTrans(w, w1, w');
  }

  /** Who is alive and neither defuses nor plants walks. */
  predicate Walks(p: Player) {
    p.Alive() && !p.defusing && !(p.making && p.onSite && p.loadout.equipped == BombSlot && p.loadout.hasBomb)
  }

  /** Where a player is after his turn. */
  function PlaceAfter(env: Env, w: World, me: Name, walks: bool, stepped: nat): Rect
    requires env.Valid() && w.Ok() && me in w.players
  {
    if walks then StepOfTurn(env, w, me, stepped) else w.players[me].rect
  }

  /** One player's turn moves nobody else, and if it leaves him in the map it throws nothing. */
  lemma UpdateMoves(
    env: Env, map_: GameMap, w: World, me: Name, frames: nat, stepped: nat, luck: Luck, r: Rect, w': World)
    requires OnMap(env, map_) && w.Ok() && me in w.players && AllPlaced(map_, w)
    requires stepped == frames * env.cfg.playerSpeed && r == PlaceAfter(env, w, me, Walks(w.players[me]), stepped)
    requires w' == UpdatePlayer(env, w, me, frames, luck)
    ensures TurnMoves(w, me, r, w') && (Placed(map_, r) ==> w'.crashed == w.crashed)
  {
    var dt := frames as real / env.cfg.fps as real;
    var p := w.players[me].(shot := None, planting := false);
    var w0 := SetPlayer(w, me, p);
    MakeReady(env, w, me, stepped, p, w0);
    StillPlaced(map_, w, w0);
    if !p.Alive() || p.defusing {
      NobodyMoved(w, me, w0);
    } else if p.making && p.onSite && p.loadout.equipped == BombSlot && p.loadout.hasBomb {
      assert w0.players[me] == p;
      PlantInPlace(env, w0, me, dt, w');
      UnmovedTrans(w, w0, w');
      NobodyMoved(w, me, w');
    } else {
      MoveAndFire(env, map_, w0, me, stepped, dt, luck, Walk(env, w0, me, stepped), w');
    }
  }

  lemma NobodyMoved(w: World, me: Name, w': World)
    requires Still(w, w') && me in w.players
    ensures TurnMoves(w, me, w.players[me].rect, w')
  {
    assert Places(w)[me := w.players[me].rect] == Places(w);
  }

  /** What a step runs into depends on places and lives only. */
  lemma SameTargets(env: Env, w: World, w0: World, me: Name)
    requires w.Ok() && w0.Ok() && SameRoster(w, w0)
    requires forall n <- w.players ::
               w0.players[n].rect == w.players[n].rect && w0.players[n].Alive() == w.players[n].Alive()
    ensures Targets(env, w0, me) == Targets(env, w, me)
  {}

  /** GameWorld::update calls off a defusal that has succeeded before the player's turn. */
  predicate CalledOff(w: World, me: Name, wasPlanted: bool)
    requires me in w.players
  {
    w.players[me].team == CT && wasPlanted && w.bomb.status == Defused && w.players[me].defusing
  }

  predicate WalksInTurn(w: World, me: Name, wasPlanted: bool)
    requires me in w.players
  {
    Walks(if CalledOff(w, me, wasPlanted) then w.players[me].(defusing := false) else w.players[me])
  }

  lemma TurnMovesOne(
    env: Env, map_: GameMap, w: World, me: Name, wasPlanted: bool, frames: nat, stepped: nat, luck: Luck, r: Rect,
    w': World)
    requires OnMap(env, map_) && w.Ok() && me in w.players && AllPlaced(map_, w)
    requires stepped == frames * env.cfg.playerSpeed
    requires r == PlaceAfter(env, w, me, WalksInTurn(w, me, wasPlanted), stepped)
    requires w' == TakeTurn(env, w, me, wasPlanted, frames, luck)
    ensures TurnMoves(w, me, r, w') && (Placed(map_, r) ==> w'.crashed == w.crashed)
  {
    if CalledOff(w, me, wasPlanted) {
      var p := w.players[me].(defusing := false);
      var w0 := SetPlayer(w, me, p);
      MakeReady(env, w, me, stepped, p, w0);
      StillPlaced(map_, w, w0);
      UpdateMoves(env, map_, w0, me, frames, stepped, luck, r, w');
    } else {
      UpdateMoves(env, map_, w, me, frames, stepped, luck, r, w');
    }
  }

  /** The turn of a player, unless he does not walk, ends in the map. */
  ghost predicate TurnLands(env: Env, map_: GameMap, w: World, me: Name, wasPlanted: bool, stepped: nat)
    requires env.Valid() && w.Ok() && me in w.players
  {
    WalksInTurn(w, me, wasPlanted) ==> StepLands(env, map_, w, me, stepped)
  }

  lemma TurnLandsIff(
    env: Env, map_: GameMap, w: World, me: Name, wasPlanted: bool, frames: nat, stepped: nat, luck: Luck, w': World)
    requires OnMap(env, map_) && w.Ok() && me in w.players && AllPlaced(map_, w)
    requires stepped == frames * env.cfg.playerSpeed && w' == TakeTurn(env, w, me, wasPlanted, frames, luck)
    ensures SameRoster(w, w') && Places(w').Keys == Places(w).Keys
    ensures if TurnLands(env, map_, w, me, wasPlanted, stepped) then AllPlaced(map_, w') && w'.crashed == w.crashed
            else !Placed(map_, Places(w')[me])
  {
    var r := PlaceAfter(env, w, me, WalksInTurn(w, me, wasPlanted), stepped);
    assert Placed(map_, Places(w)[me]);
    StepLandsIff(env, map_, w, me, stepped);
    TurnMovesOne(env, map_, w, me, wasPlanted, frames, stepped, luck, r, w');
    OneMoved(map_, w, me, r, w');
  }

  // ---- The turns of a tick

  /** Every turn from the i-th on ends in the map. */
  ghost predicate TurnsLand(
    env: Env, map_: GameMap, w: World, i: nat, wasPlanted: bool, frames: nat, stepped: nat, luck: Luck)
    requires env.Valid() && w.Ok() && i <= |w.order|
    decreases |w.order| - i
  {
    i == |w.order| || w.crashed
    || (TurnLands(env, map_, w, w.order[i], wasPlanted, stepped)
        && var w1 := TakeTurn(env, w, w.order[i], wasPlanted, frames, luck);
           TurnsLand(env, map_, w1, i + 1, wasPlanted, frames, stepped, luck))
  }

  /** What a turn does, to whoever takes it, moves nobody else, wherever everybody is. */
  lemma TurnMovesOnlyMe(env: Env, w: World, me: Name, wasPlanted: bool, frames: nat, luck: Luck, n: Name, w': World)
    requires env.Valid() && w.Ok() && me in w.players && n in w.players && n != me
    requires w' == TakeTurn(env, w, me, wasPlanted, frames, luck)
    ensures SameRoster(w, w') && n in w'.players && w'.players[n].rect == w.players[n].rect
  {
    var p := w.players[me];
    var w0 := if CalledOff(w, me, wasPlanted) then SetPlayer(w, me, p.(defusing := false)) else w;
    UpdateMovesOnlyMe(env, w0, me, frames, luck, n, w');
  }

  lemma UpdateMovesOnlyMe(env: Env, w: World, me: Name, frames: nat, luck: Luck, n: Name, w': World)
    requires env.Valid() && w.Ok() && me in w.players && n in w.players && n != me
    requires w' == UpdatePlayer(env, w, me, frames, luck)
    ensures n in w'.players && w'.players[n].rect == w.players[n].rect
  {
    var dt := frames as real / env.cfg.fps as real;
    var p := w.players[me].(shot := None, planting := false);
    var w0 := SetPlayer(w, me, p);
    if Walks(p) {
      var w1 := Walk(env, w0, me, frames * env.cfg.playerSpeed);
      WeaponMovesNobody(env, GameMap(0, 0, []), false, w1, me, dt, luck, w');
      assert Places(w')[n] == Places(w1)[n];
    } else if p.Alive() && !p.defusing {
      PlantInPlace(env, w0, me, dt, w');
      assert Places(w')[n] == Places(w0)[n];
    }
  }

  lemma {:induction false} TurnsMoveOnlyThem(
    env: Env, w: World, i: nat, wasPlanted: bool, frames: nat, luck: Luck, n: Name, w': World)
    requires env.Valid() && w.Ok() && i <= |w.order| && n in w.players && n !in w.order[i..]
    requires w' == TakeTurns(env, w, i, wasPlanted, frames, luck)
    ensures n in w'.players && w'.players[n].rect == w.players[n].rect
    decreases |w.order| - i
  {
    if i < |w.order| && !w.crashed {
      var w1 := TakeTurn(env, w, w.order[i], wasPlanted, frames, luck);
      assert w.order[i] in w.order[i..] && w.order[i + 1..] == w.order[i..][1..];
      TurnMovesOnlyMe(env, w, w.order[i], wasPlanted, frames, luck, n, w1);
      TurnsMoveOnlyThem(env, w1, i + 1, wasPlanted, frames, luck, n, w');
    }
  }

  /** Whom his turn took out of the map is not in it at the end either. */
  lemma OutStaysOut(
    env: Env, map_: GameMap, w1: World, i: nat, me: Name, wasPlanted: bool, frames: nat, luck: Luck, w': World)
    requires env.Valid() && w1.Ok() && i < |w1.order| && Once(w1.order) && me == w1.order[i]
    requires me in Places(w1) && !Placed(map_, Places(w1)[me])
    requires w' == TakeTurns(env, w1, i + 1, wasPlanted, frames, luck)
    ensures !AllPlaced(map_, w')
  {
    TurnsMoveOnlyThem(env, w1, i + 1, wasPlanted, frames, luck, me, w');
    assert me in Places(w') && !Placed(map_, Places(w')[me]);
  }

  lemma {:induction false} TurnsLandIff(
    env: Env, map_: GameMap, w: World, i: nat, wasPlanted: bool, frames: nat, stepped: nat, luck: Luck, w': World)
    requires OnMap(env, map_) && w.Ok() && i <= |w.order| && AllPlaced(map_, w) && Once(w.order) && !w.crashed
    requires stepped == frames * env.cfg.playerSpeed && w' == TakeTurns(env, w, i, wasPlanted, frames, luck)
    ensures AllPlaced(map_, w') <==> TurnsLand(env, map_, w, i, wasPlanted, frames, stepped, luck)
    ensures AllPlaced(map_, w') ==> !w'.crashed
    decreases |w.order| - i
  {
    if i < |w.order| {
      var me := w.order[i];
      var w1 := TakeTurn(env, w, me, wasPlanted, frames, luck);
      TurnLandsIff(env, map_, w, me, wasPlanted, frames, stepped, luck, w1);
      if TurnLands(env, map_, w, me, wasPlanted, stepped) {
        TurnsLandIff(env, map_, w1, i + 1, wasPlanted, frames, stepped, luck, w');
      } else {
        OutStaysOut(env, map_, w1, i, me, wasPlanted, frames, luck, w');
      }
    }
  }

  lemma BlastOneMovesNobody(env: Env, w: World, v: Name, at: Rect, w': World)
    requires env.Valid() && w.Ok() && v in w.players && w' == BlastOne(env, w, v, at)
    ensures Unmoved(w, w')
  {
    var d2 := SquaredDistance(at, w.players[v].rect);
    var damage := BlastDamage(env.cfg.explosionDamage, env.cfg.explosionRadius, d2, env.cfg.explosionDamage);
    DamageMovesNobody(env, w, v, damage, Blast, ReceiveDamage(env, w, v, damage, Blast));
  }

  lemma {:induction false} BlastMovesNobody(env: Env, w: World, at: Rect, i: nat, w': World)
    requires env.Valid() && w.Ok() && i <= |w.order| && w' == Explode(env, w, at, i)
    ensures Unmoved(w, w')
    decreases |w.order| - i
  {
    if i < |w.order| {
      var w1 := BlastOne(env, w, w.order[i], at);
      BlastOneMovesNobody(env, w, w.order[i], at, w1);
      BlastMovesNobody(env, w1, at, i + 1, w');
      UnmovedTrans(w, w1, w');
    }
  }

  lemma FuseMovesNobody(env: Env, w: World, frames: nat, w': World)
    requires env.Valid() && w.Ok() && w' == BurnFuse(env, w, frames)
    ensures Unmoved(w, w')
  {
    if w.bomb.status == Planted {
      var w1 := w.(bomb := UpdatePlanted(env.cfg, w.bomb, frames as real / env.cfg.fps as real));
      assert Places(w1) == Places(w);
      if w1.bomb.status == Exploded && w1.bomb.plantation.Some? {
        BlastMovesNobody(env, w1, w1.bomb.plantation.value, 0, w');
      }
    }
  }

  /** Whether a tick leaves everybody in the map. */
  ghost predicate TickLands(env: Env, map_: GameMap, w: World, frames: nat, luck: Luck)
    requires env.Valid() && w.Ok()
  {
    TurnsLand(env, map_, BurnFuse(env, w, frames), 0, w.bomb.status == Planted, frames,
              frames * env.cfg.playerSpeed, luck)
  }

  /** A tick that finds everybody in the map leaves everybody there exactly when the step of each who walks, in his
      turn, ends with room beside what he runs into; and no shot of it throws then. */
  lemma TickStaysInMapIff(env: Env, map_: GameMap, w: World, frames: nat, luck: Luck)
    requires OnMap(env, map_) && w.Ok() && AllPlaced(map_, w) && !w.crashed && Once(w.order)
    ensures AllPlaced(map_, Tick(env, w, frames, luck)) <==> TickLands(env, map_, w, frames, luck)
    ensures AllPlaced(map_, Tick(env, w, frames, luck)) ==> !Tick(env, w, frames, luck).crashed
  {
    var w1 := BurnFuse(env, w, frames);
    FuseMovesNobody(env, w, frames, w1);
    StillPlaced(map_, w, w1);
    TurnsLandIff(env, map_, w1, 0, w.bomb.status == Planted, frames, frames * env.cfg.playerSpeed, luck,
                 Tick(env, w, frames, luck));
  }
}
