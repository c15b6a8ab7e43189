/** A match in which a player leaves the map, and what comes of it: two players walk for eight frames, one is put
    outside by another whom he overlaps, and the first thing he then does with his knife ends the game. */
module Escape {
  import opened Basics
  import opened Settings
  import opened Geometry
  import opened Slide
  import opened Arms
  import opened World
  import opened MapTerrain
  import opened Accounts
  import opened Refinement
  import opened Rounds
  import opened Matches
  import opened Runs
  import opened Fuse
  import opened Confines
  import opened Bell

  // ---- The map

  /** Three blocks by two, with one in the way. */
  const MAP := GameMap(3, 2, [MapObject(true, [(1, 0)])])

  const OBSTACLE := Rect(400, 0, 400, 400)
  const STATICS: seq<Rect> :=
    [OBSTACLE, Rect(0, -400, 1200, 400), Rect(1200, 0, 400, 800), Rect(0, 800, 1200, 400), Rect(-400, 0, 400, 800)]

  lemma StaticsOfMap()
    ensures Statics(MAP) == STATICS
  {
    var objects := MAP.objects;
    assert objects[..0] == [] && Blocks(objects[..0]) == [];
    assert Blocks(objects) == BlocksAt([(1, 0)]);
  }

  function At(x: int, y: int): Rect { Rect(x, y, PLAYER, PLAYER) }

  /** What the one at `mine` can run into, the other being at `other`; the mover comes first in the list or last. */
  function Around(mine: Rect, other: Rect, first: bool): seq<Target> {
    seq(5, i requires 0 <= i < 5 => Target(STATICS[i], true))
    + (if first then [Target(mine, false), Target(other, true)] else [Target(other, true), Target(mine, false)])
  }

  predicate MeetsStatic(q: Rect) {
    STATICS[0].IntersectsWith(q) || STATICS[1].IntersectsWith(q) || STATICS[2].IntersectsWith(q)
    || STATICS[3].IntersectsWith(q) || STATICS[4].IntersectsWith(q)
  }

  lemma NothingMet(mine: Rect, other: Rect, first: bool, q: Rect)
    requires !MeetsStatic(q) && !other.IntersectsWith(q)
    ensures CollidingWith(Around(mine, other, first), q) == None
  {
    var ts := Around(mine, other, first);
    forall t | t in ts && t.solid ensures !t.rect.IntersectsWith(q) {
      var i :| 0 <= i < |ts| && ts[i] == t;
      assert i < 5 ==> STATICS[i] == t.rect;
    }
  }

  lemma OtherMet(mine: Rect, other: Rect, first: bool, q: Rect)
    requires !MeetsStatic(q) && other.IntersectsWith(q)
    ensures CollidingWith(Around(mine, other, first), q) == Some(other)
  {
    var ts := Around(mine, other, first);
    var c := CollidingWith(ts, q);
    assert ts[if first then 6 else 5] == Target(other, true);
    assert Target(other, true) in ts;
    var i :| 0 <= i < |ts| && ts[i] == Target(c.value, true);
    assert i < 5 ==> STATICS[i] == c.value;
  }

  /** The wall below the map. */
  lemma BottomMet(mine: Rect, other: Rect, first: bool, q: Rect)
    requires STATICS[3].IntersectsWith(q) && !other.IntersectsWith(q)
    requires !STATICS[0].IntersectsWith(q) && !STATICS[1].IntersectsWith(q) && !STATICS[2].IntersectsWith(q)
    requires !STATICS[4].IntersectsWith(q)
    ensures CollidingWith(Around(mine, other, first), q) == Some(STATICS[3])
  {
    var ts := Around(mine, other, first);
    var c := CollidingWith(ts, q);
    assert ts[3] == Target(STATICS[3], true);
    assert ts[3] in ts;
    var i :| 0 <= i < |ts| && ts[i] == Target(c.value, true);
    assert i < 5 ==> STATICS[i] == c.value;
  }

  /** The obstacle is the first of the list. */
  lemma ObstacleMet(mine: Rect, other: Rect, first: bool, q: Rect)
    requires OBSTACLE.IntersectsWith(q)
    ensures CollidingWith(Around(mine, other, first), q) == Some(OBSTACLE)
  {
    assert Around(mine, other, first)[0] == Target(OBSTACLE, true);
  }

  // ---- Two who walk

  datatype Keys = Keys(up: bool, down: bool, left: bool, right: bool) {
    function Press(m: Movement, on: bool): Keys {
      match m
      case Up => this.(up := on)
      case Down => this.(down := on)
      case Left => this.(left := on)
      case Right => this.(right := on)
    }
  }

  const IDLE_KEYS := Keys(false, false, false, false)

  function KeysOf(p: Player): Keys { Keys(p.up, p.down, p.left, p.right) }

  /** Alive, with the gun of the beginning in hand and a knife not used yet, and doing nothing but walk. */
  predicate Ready(cfg: Settings, p: Player)
    requires cfg.Valid()
  {
    && p.Alive() && !p.making && !p.defusing && p.loadout.equipped == SecondarySlot
    && !p.loadout.secondary.trigger.just && p.loadout.secondary.kind == Glock && p.loadout.knife == NewKnife(cfg)
  }

  datatype Who = Who(rect: Rect, keys: Keys)

  predicate Is(cfg: Settings, p: Player, a: Who)
    requires cfg.Valid()
  {
    Ready(cfg, p) && p.rect == a.rect && KeysOf(p) == a.keys
  }

  /** The step of a player with these keys down. */
  function StepOfKeys(k: Keys, stepped: nat): (int, int) {
    var sx, sy := Sign(k.right, k.left), Sign(k.down, k.up);
    var length := if sx != 0 && sy != 0 then Diagonal(stepped, stepped) else stepped;
    (sx * length, sy * length)
  }

  lemma WalkerFires(env: Env, w: World, n: Name, dt: real, luck: Luck, p: Player, w': World)
    requires env.Valid() && w.Ok() && n in w.players && p == w.players[n] && Ready(env.cfg, p)
    requires w' == UseWeapon(env, w, n, dt, luck)
    ensures n in w'.players && w' == SetPlayer(w, n, w'.players[n])
    ensures Ready(env.cfg, w'.players[n]) && w'.players[n] == p.(loadout := w'.players[n].loadout)
  {}

  lemma WalkerWalks(env: Env, w: World, n: Name, stepped: nat, a: Who, r: Rect, p: Player)
    requires env.Valid() && w.Ok() && n in w.players && w.players[n].rect == a.rect && KeysOf(w.players[n]) == a.keys
    requires var (dx, dy) := StepOfKeys(a.keys, stepped); r == MakeStep(Targets(env, w, n), a.rect, dx, dy)
    requires p == w.players[n].(rect := r, onSite := OnSite(env, r))
    ensures Walk(env, w, n, stepped) == SetPlayer(w, n, p)
  {}

  /** The turn of somebody who does nothing but walk. */
  lemma TurnIsWalk(env: Env, w: World, n: Name, frames: nat, luck: Luck, w0: World)
    requires env.Valid() && w.Ok() && n in w.players && Ready(env.cfg, w.players[n]) && w.bomb.status != Defused
    requires w0 == SetPlayer(w, n, w.players[n].(shot := None, planting := false))
    ensures TakeTurn(env, w, n, false, frames, luck)
            == UseWeapon(env, Walk(env, w0, n, frames * env.cfg.playerSpeed), n, Seconds(env.cfg, frames), luck)
  {}

  lemma WalkerTurn(env: Env, w: World, n: Name, frames: nat, luck: Luck, a: Who, r: Rect, w': World)
    requires env.Valid() && w.Ok() && n in w.players && Is(env.cfg, w.players[n], a) && w.bomb.status != Defused
    requires w' == TakeTurn(env, w, n, false, frames, luck)
    requires var (dx, dy) := StepOfKeys(a.keys, frames * env.cfg.playerSpeed);
             r == MakeStep(Targets(env, w, n), a.rect, dx, dy)
    ensures n in w'.players && w' == SetPlayer(w, n, w'.players[n])
    ensures Is(env.cfg, w'.players[n], Who(r, a.keys)) && w'.players[n].team == w.players[n].team
  {
    var p := w.players[n].(shot := None, planting := false);
    var w0 := SetPlayer(w, n, p);
    TurnIsWalk(env, w, n, frames, luck, w0);
    SameTargets(env, w, w0, n);
    var p1 := p.(rect := r, onSite := OnSite(env, r));
    WalkerWalks(env, w0, n, frames * env.cfg.playerSpeed, a, r, p1);
    Fired(env, w, n, Seconds(env.cfg, frames), luck, p1, w');
  }

  /** ... seen from before the turn. */
  lemma Fired(env: Env, w: World, n: Name, dt: real, luck: Luck, p: Player, w': World)
    requires env.Valid() && w.Ok() && n in w.players && Ready(env.cfg, p)
    requires var w0 := SetPlayer(w, n, w.players[n].(shot := None, planting := false));
             w' == UseWeapon(env, SetPlayer(w0, n, p), n, dt, luck)
    ensures n in w'.players && w' == SetPlayer(w, n, w'.players[n])
    ensures Ready(env.cfg, w'.players[n]) && w'.players[n] == p.(loadout := w'.players[n].loadout)
  {
    var w0 := SetPlayer(w, n, w.players[n].(shot := None, planting := false));
    WalkerFires(env, SetPlayer(w0, n, p), n, dt, luck, p, w');
    assert SetPlayer(w0, n, p) == SetPlayer(w, n, p);
    assert w' == SetPlayer(w, n, w'.players[n]);
  }

  /** The two of Bell.dfy, on opposite sides, and where they are. */
  predicate Scene(env: Env, w: World, cast: Cast, a: Who, b: Who)
    requires env.Valid()
  {
    && Pair(w, cast) && w.joined == [cast.c, cast.t] && w.players[cast.c].team != w.players[cast.t].team
    && Is(env.cfg, w.players[cast.c], a) && Is(env.cfg, w.players[cast.t], b)
  }

  lemma TargetsOfScene(env: Env, w: World, cast: Cast, a: Who, b: Who)
    requires env.Valid() && env.statics == STATICS && Scene(env, w, cast, a, b)
    ensures Targets(env, w, cast.c) == Around(a.rect, b.rect, true)
    ensures Targets(env, w, cast.t) == Around(b.rect, a.rect, false)
  {}

  /** Where the two are after a tick: the second sees where the first went. */
  predicate Walked(stepped: nat, a: Who, b: Who, r: Rect, r': Rect) {
    && (var (dx, dy) := StepOfKeys(a.keys, stepped); r == MakeStep(Around(a.rect, b.rect, true), a.rect, dx, dy))
    && (var (dx, dy) := StepOfKeys(b.keys, stepped); r' == MakeStep(Around(b.rect, r, false), b.rect, dx, dy))
  }

  lemma SceneTick(
    env: Env, w: World, cast: Cast, frames: nat, luck: Luck, a: Who, b: Who, r: Rect, r': Rect, w': World)
    requires env.Valid() && env.statics == STATICS && Scene(env, w, cast, a, b)
    requires Walked(frames * env.cfg.playerSpeed, a, b, r, r') && w' == Tick(env, w, frames, luck)
    ensures Scene(env, w', cast, Who(r, a.keys), Who(r', b.keys)) && w'.bomb == w.bomb
  {
    var w1 := TakeTurn(env, w, cast.c, false, frames, luck);
    TargetsOfScene(env, w, cast, a, b);
    WalkerTurn(env, w, cast.c, frames, luck, a, r, w1);
    TwoTurns(env, w, cast, frames, luck, w1);
    TargetsOfScene(env, w1, cast, Who(r, a.keys), b);
    WalkerTurn(env, w1, cast.t, frames, luck, b, r', w');
  }

  // ---- Keys

  /** The keys of `n` after commands of the two, all of which move. */
  function After(cs: seq<(Name, Command)>, n: Name, k: Keys): Keys {
    if cs == [] then k
    else After(cs[1..], n, if cs[0].0 == n && cs[0].1.Move? then k.Press(cs[0].1.direction, cs[0].1.on) else k)
  }

  lemma KeyPressed(env: Env, w: World, cast: Cast, a: Who, b: Who, e: (Name, Command), w': World)
    requires env.Valid() && Scene(env, w, cast, a, b) && e.1.Move? && (e.0 == cast.c || e.0 == cast.t)
    requires w' == Execute(env, w, e.0, e.1, false)
    ensures w'.bomb == w.bomb
    ensures if e.0 == cast.c then Scene(env, w', cast, a.(keys := a.keys.Press(e.1.direction, e.1.on)), b)
            else Scene(env, w', cast, a, b.(keys := b.keys.Press(e.1.direction, e.1.on)))
  {}

  lemma {:induction false} KeysPressed(
    env: Env, w: World, cast: Cast, a: Who, b: Who, cs: seq<(Name, Command)>, w': World)
    requires env.Valid() && Scene(env, w, cast, a, b) && w' == ExecuteAll(env, w, cs, false)
    requires forall e <- cs :: e.1.Move? && (e.0 == cast.c || e.0 == cast.t)
    ensures Scene(env, w', cast, a.(keys := After(cs, cast.c, a.keys)), b.(keys := After(cs, cast.t, b.keys)))
    ensures w'.bomb == w.bomb
    decreases |cs|
  {
    if cs != [] {
      var e := cs[0];
      var w1 := Execute(env, w, e.0, e.1, false);
      KeyPressed(env, w, cast, a, b, e, w1);
      var a1 := if e.0 == cast.c then a.(keys := a.keys.Press(e.1.direction, e.1.on)) else a;
      var b1 := if e.0 == cast.t then b.(keys := b.keys.Press(e.1.direction, e.1.on)) else b;
      KeysPressed(env, w1, cast, a1, b1, cs[1..], w');
    }
  }

  // ---- The match

  predicate On(env: Env, m: Match, cast: Cast, phase: Phase, k: nat, a: Who, b: Who)
    requires env.Valid()
  {
    && m.phase == phase && !m.over && Timed(m, k) && m.duration == Rounds.Duration(env.cfg, phase)
    && Scene(env, m.world, cast, a, b) && !m.world.bomb.justPlanted
  }

  /** The draws that do not matter. */
  datatype Chance = Chance(env: Env, guns: Guns, d: Draw, luck: Luck)

  function TurnWith(ch: Chance, cs: seq<(Name, Command)>): Frame { Frame(cs, ch.luck, 0, true, ch.d) }

  predicate MovesOnly(cast: Cast, cs: seq<(Name, Command)>) {
    forall e <- cs :: e.1.Move? && (e.0 == cast.c || e.0 == cast.t)
  }

  /** A turn of the loop: the keys that are pressed, and the steps. */
  lemma FrameTurn(
    ch: Chance, m: Match, cast: Cast, phase: Phase, k: nat, a: Who, b: Who, cs: seq<(Name, Command)>,
    a': Who, b': Who, r: Rect, r': Rect, m': Match)
    requires ch.env.Valid() && ch.env.statics == STATICS && On(ch.env, m, cast, phase, k, a, b)
    requires MovesOnly(cast, cs) && (phase == Buy ==> cs == [])
    requires a' == a.(keys := After(cs, cast.c, a.keys)) && b' == b.(keys := After(cs, cast.t, b.keys))
    requires Walked(m.delta * ch.env.cfg.playerSpeed, a', b', r, r')
    requires m' == Iterate(ch.env, m, TurnWith(ch, cs))
    ensures On(ch.env, m', cast, phase, k + 1, Who(r, a'.keys), Who(r', b'.keys))
  {
    var w1 := ExecuteAll(ch.env, m.world, cs, phase == Buy);
    KeysPressed(ch.env, m.world, cast, a, b, cs, ExecuteAll(ch.env, m.world, cs, false));
    SceneTick(ch.env, w1, cast, m.delta, ch.luck, a', b', r, r', m'.world);
  }

  lemma NobodyWalks(a: Who, b: Who, stepped: nat)
    requires a.keys == IDLE_KEYS && b.keys == IDLE_KEYS
    ensures Walked(stepped, a, b, a.rect, b.rect)
  {}

  lemma StillTurns(env: Env, m: Match, cast: Cast, phase: Phase, k: nat, a: Who, b: Who)
    requires env.Valid() && On(env, m, cast, phase, k, a, b)
    ensures Continues(env.cfg, m) <==> m.duration > 0 && k <= m.duration * env.cfg.fps
  {
    NobodyHasWon(m.world, cast);
    SecondsWithin(env.cfg, m.ticks, m.duration);
  }

  /** The purchase phase, in which nobody can move. */
  lemma BuyOn(ch: Chance, m0: Match, fs: seq<Frame>, cast: Cast, k: nat, a: Who, b: Who, m: Match)
    returns (fs': seq<Frame>, m': Match)
    requires ch.env.Valid() && ch.env.statics == STATICS && m0.world.Ok() && m == Run(ch.env, m0, ch.guns, fs)
    requires On(ch.env, m, cast, Buy, k, a, b) && a.keys == IDLE_KEYS && b.keys == IDLE_KEYS
    requires forall f <- fs :: Harmless(cast, f)
    ensures m' == Run(ch.env, m0, ch.guns, fs') && On(ch.env, m', cast, Attack, 0, a, b)
    ensures forall f <- fs' :: Harmless(cast, f)
    decreases ch.env.cfg.buyDuration * ch.env.cfg.fps + 1 - k
  {
    var f := TurnWith(ch, []);
    m' := Step(ch.env, m, ch.guns, f);
    RunOn(ch.env, m0, ch.guns, fs, f);
    StillTurns(ch.env, m, cast, Buy, k, a, b);
    fs' := fs + [f];
    if Continues(ch.env.cfg, m) {
      NobodyWalks(a, b, m.delta * ch.env.cfg.playerSpeed);
      FrameTurn(ch, m, cast, Buy, k, a, b, [], a, b, a.rect, b.rect, m');
      fs', m' := BuyOn(ch, m0, fs', cast, k + 1, a, b, m');
    }
  }

  /** A turn that moves the clock by one frame, with commands of the two players only, none of which buys. */
  ghost predicate Harmless(cast: Cast, f: Frame) {
    f.advance == 0 && f.anyAlive && forall e <- f.commands :: (e.0 == cast.c || e.0 == cast.t) && ForAttack(e.1)
  }

  // ---- The steps

  lemma DiagonalOf20()
    ensures Diagonal(20, 20) == 14
  {
    assert Diagonal(20, 14) == 14;
    assert Diagonal(20, 15) == Diagonal(20, 14) && Diagonal(20, 16) == Diagonal(20, 15);
    assert Diagonal(20, 17) == Diagonal(20, 16) && Diagonal(20, 18) == Diagonal(20, 17);
    assert Diagonal(20, 19) == Diagonal(20, 18) && Diagonal(20, 20) == Diagonal(20, 19);
  }

  /** A step that runs into nothing. */
  lemma FreeStep(x: int, y: int, other: Rect, first: bool, dx: int, dy: int)
    requires !MeetsStatic(At(x + dx, y)) && !other.IntersectsWith(At(x + dx, y))
    requires !MeetsStatic(At(x + dx, y + dy)) && !other.IntersectsWith(At(x + dx, y + dy))
    ensures MakeStep(Around(At(x, y), other, first), At(x, y), dx, dy) == At(x + dx, y + dy)
  {
    NothingMet(At(x, y), other, first, At(x + dx, y));
    NothingMet(At(x, y), other, first, At(x + dx, y + dy));
  }

  const DOWN_RIGHT := Keys(false, true, false, true)
  const UP_LEFT := Keys(true, false, true, false)
  const DOWN := Keys(false, true, false, false)
  const UP := Keys(true, false, false, false)
  const LEFT := Keys(false, false, true, false)
  const RIGHT := Keys(false, false, false, true)

  lemma Walk1()
    ensures Walked(20, Who(At(40, 40), DOWN_RIGHT), Who(At(440, 440), UP_LEFT), At(54, 54), At(426, 426))
  {
    DiagonalOf20();
    FreeStep(40, 40, At(440, 440), true, 14, 14);
    FreeStep(440, 440, At(54, 54), false, -14, -14);
  }

  lemma Walk2()
    ensures Walked(20, Who(At(54, 54), DOWN_RIGHT), Who(At(426, 426), UP_LEFT), At(68, 68), At(412, 412))
  {
    DiagonalOf20();
    FreeStep(54, 54, At(426, 426), true, 14, 14);
    FreeStep(426, 426, At(68, 68), false, -14, -14);
  }

  lemma Walk3()
    ensures Walked(20, Who(At(68, 68), DOWN), Who(At(412, 412), LEFT), At(68, 88), At(392, 412))
  {
    FreeStep(68, 68, At(412, 412), true, 0, 20);
    FreeStep(412, 412, At(68, 88), false, -20, 0);
  }

  /** Down along the side of the other, who waits. */
  lemma WalkDown(y: int)
    requires 68 <= y <= 108
    ensures Walked(20, Who(At(68, y), DOWN), Who(At(392, 412), IDLE_KEYS), At(68, y + 20), At(392, 412))
  {
    FreeStep(68, y, At(392, 412), true, 0, 20);
  }

  /** To the right, up to the obstacle: the other stands nearer, and is overlapped. */
  lemma WalkInto()
    ensures Walked(20, Who(At(68, 128), RIGHT), Who(At(392, 412), IDLE_KEYS), At(80, 128), At(392, 412))
    ensures At(392, 412).IntersectsWith(At(80, 128))
  {
    ObstacleMet(At(68, 128), At(392, 412), true, At(88, 128));
  }

  /** Up: the other, who is overlapped, puts the mover behind his back, below the map. */
  lemma PutOut()
    ensures Walked(20, Who(At(80, 128), UP), Who(At(392, 412), IDLE_KEYS), At(80, 732), At(392, 412))
  {
    OtherMet(At(80, 128), At(392, 412), true, At(80, 108));
  }

  /** To the right: the wall below the map, which is overlapped, puts him beside its far end. */
  lemma PutAside()
    ensures Walked(20, Who(At(80, 732), RIGHT), Who(At(392, 412), IDLE_KEYS), At(-320, 732), At(392, 412))
  {
    BottomMet(At(80, 732), At(392, 412), true, At(100, 732));
  }

  lemma NoStep(a: Who, b: Who)
    ensures Walked(0, a, b, a.rect, b.rect)
  {
    assert Diagonal(0, 0) == 0;
  }

  // ---- The turns, one after the other

  /** A match under way, in which nobody has done any harm. */
  ghost predicate Going(ch: Chance, m0: Match, fs: seq<Frame>, cast: Cast, k: nat, a: Who, b: Who)
    requires ch.env.Valid() && m0.world.Ok()
  {
    && On(ch.env, Run(ch.env, m0, ch.guns, fs), cast, Attack, k, a, b) && forall f <- fs :: Harmless(cast, f)
  }

  /** The settings that matter: the speed of the settings file, and enough time. */
  predicate Plain(cfg: Settings) {
    cfg.Valid() && cfg.playerSpeed == 20 && cfg.rounds >= 2 && cfg.attackDuration > 0
    && cfg.attackDuration * cfg.fps >= 10
  }

  /** In the first turns of the attack there is time, and nobody has won. */
  lemma StepIsTurn(ch: Chance, m: Match, cast: Cast, k: nat, a: Who, b: Who, f: Frame)
    requires ch.env.Valid() && Plain(ch.env.cfg) && On(ch.env, m, cast, Attack, k, a, b) && k <= 10
    ensures Step(ch.env, m, ch.guns, f) == Iterate(ch.env, m, f)
  {
    StillTurns(ch.env, m, cast, Attack, k, a, b);
  }

  lemma MovesAreHarmless(ch: Chance, cast: Cast, cs: seq<(Name, Command)>)
    requires MovesOnly(cast, cs)
    ensures Harmless(cast, TurnWith(ch, cs))
  {}

  lemma GoesOn(
    ch: Chance, m0: Match, fs: seq<Frame>, cast: Cast, k: nat, a: Who, b: Who, cs: seq<(Name, Command)>,
    a': Who, b': Who, r: Rect, r': Rect) returns (fs': seq<Frame>)
    requires ch.env.Valid() && ch.env.statics == STATICS && Plain(ch.env.cfg) && m0.world.Ok()
    requires Going(ch, m0, fs, cast, k, a, b) && k <= 10 && MovesOnly(cast, cs)
    requires a' == a.(keys := After(cs, cast.c, a.keys)) && b' == b.(keys := After(cs, cast.t, b.keys))
    requires Walked(if k == 0 then 0 else 20, a', b', r, r')
    ensures fs' == fs + [TurnWith(ch, cs)] && Going(ch, m0, fs', cast, k + 1, Who(r, a'.keys), Who(r', b'.keys))
  {
    var m, f := Run(ch.env, m0, ch.guns, fs), TurnWith(ch, cs);
    var m' := Step(ch.env, m, ch.guns, f);
    StepGoes(ch, m, cast, k, a, b, cs, a', b', r, r', m');
    MovesAreHarmless(ch, cast, cs);
    OneMoreFrame(ch, m0, fs, cast, k, a, b, f, m', Who(r, a'.keys), Who(r', b'.keys));
    fs' := fs + [f];
  }

  lemma StepGoes(
    ch: Chance, m: Match, cast: Cast, k: nat, a: Who, b: Who, cs: seq<(Name, Command)>, a': Who, b': Who, r: Rect,
    r': Rect, m': Match)
    requires ch.env.Valid() && ch.env.statics == STATICS && Plain(ch.env.cfg) && m.world.Ok()
    requires On(ch.env, m, cast, Attack, k, a, b) && k <= 10 && MovesOnly(cast, cs)
    requires a' == a.(keys := After(cs, cast.c, a.keys)) && b' == b.(keys := After(cs, cast.t, b.keys))
    requires Walked(if k == 0 then 0 else 20, a', b', r, r') && m' == Step(ch.env, m, ch.guns, TurnWith(ch, cs))
    ensures On(ch.env, m', cast, Attack, k + 1, Who(r, a'.keys), Who(r', b'.keys))
  {
    StepIsTurn(ch, m, cast, k, a, b, TurnWith(ch, cs));
    FrameTurn(ch, m, cast, Attack, k, a, b, cs, a', b', r, r', m');
  }

  lemma OneMoreFrame(
    ch: Chance, m0: Match, fs: seq<Frame>, cast: Cast, k: nat, a: Who, b: Who, f: Frame, m': Match, a': Who, b': Who)
    requires ch.env.Valid() && m0.world.Ok() && Going(ch, m0, fs, cast, k, a, b) && Harmless(cast, f)
    requires m' == Step(ch.env, Run(ch.env, m0, ch.guns, fs), ch.guns, f) && On(ch.env, m', cast, Attack, k + 1, a', b')
    ensures Going(ch, m0, fs + [f], cast, k + 1, a', b')
  {
    RunOn(ch.env, m0, ch.guns, fs, f);
  }

  lemma NoKey(n: Name, k: Keys)
    ensures After([], n, k) == k
  {}

  lemma KeyBefore(e: (Name, Command), cs: seq<(Name, Command)>, n: Name, k: Keys)
    ensures After([e] + cs, n, k)
            == After(cs, n, if e.0 == n && e.1.Move? then k.Press(e.1.direction, e.1.on) else k)
  {
    assert ([e] + cs)[1..] == cs;
  }

  lemma OneKey(e: (Name, Command), n: Name, k: Keys)
    ensures After([e], n, k) == if e.0 == n && e.1.Move? then k.Press(e.1.direction, e.1.on) else k
  {
    assert [e] + [] == [e];
    KeyBefore(e, [], n, k);
  }

  lemma TwoKeys(e: (Name, Command), e': (Name, Command), n: Name, k: Keys)
    ensures var k1 := if e.0 == n && e.1.Move? then k.Press(e.1.direction, e.1.on) else k;
            After([e, e'], n, k) == if e'.0 == n && e'.1.Move? then k1.Press(e'.1.direction, e'.1.on) else k1
  {
    assert [e] + [e'] == [e, e'];
    KeyBefore(e, [e'], n, k);
    OneKey(e', n, if e.0 == n && e.1.Move? then k.Press(e.1.direction, e.1.on) else k);
  }

  function Setting(cast: Cast): seq<(Name, Command)> {
    [(cast.c, Move(Down, true)), (cast.c, Move(Right, true)), (cast.t, Move(Up, true)), (cast.t, Move(Left, true))]
  }

  lemma SettingOut(cast: Cast)
    requires cast.c != cast.t
    ensures After(Setting(cast), cast.c, IDLE_KEYS) == DOWN_RIGHT && After(Setting(cast), cast.t, IDLE_KEYS) == UP_LEFT
  {
    var cs := Setting(cast);
    assert cs == [cs[0]] + ([cs[1]] + [cs[2], cs[3]]);
    forall n | n == cast.c || n == cast.t
      ensures After(cs, n, IDLE_KEYS) == if n == cast.c then DOWN_RIGHT else UP_LEFT
    {
      KeyBefore(cs[0], [cs[1]] + [cs[2], cs[3]], n, IDLE_KEYS);
      var k := if n == cast.c then DOWN else IDLE_KEYS;
      KeyBefore(cs[1], [cs[2], cs[3]], n, k);
      TwoKeys(cs[2], cs[3], n, if n == cast.c then DOWN_RIGHT else IDLE_KEYS);
    }
  }

  /** Three turns in which the two come closer. */
  lemma ComeCloser(ch: Chance, m0: Match, fs: seq<Frame>, cast: Cast) returns (fs': seq<Frame>)
    requires ch.env.Valid() && ch.env.statics == STATICS && Plain(ch.env.cfg) && m0.world.Ok() && cast.c != cast.t
    requires Going(ch, m0, fs, cast, 0, Who(At(40, 40), IDLE_KEYS), Who(At(440, 440), IDLE_KEYS))
    ensures Going(ch, m0, fs', cast, 3, Who(At(68, 68), DOWN_RIGHT), Who(At(412, 412), UP_LEFT))
  {
    var a, b := Who(At(40, 40), IDLE_KEYS), Who(At(440, 440), IDLE_KEYS);
    var a0, b0 := Who(At(40, 40), DOWN_RIGHT), Who(At(440, 440), UP_LEFT);
    SettingOut(cast);
    NoStep(a0, b0);
    fs' := GoesOn(ch, m0, fs, cast, 0, a, b, Setting(cast), a0, b0, a0.rect, b0.rect);
    Walk1();
    fs' := GoesOn(ch, m0, fs', cast, 1, a0, b0, [], a0, b0, At(54, 54), At(426, 426));
    var a1, b1 := Who(At(54, 54), DOWN_RIGHT), Who(At(426, 426), UP_LEFT);
    Walk2();
    fs' := GoesOn(ch, m0, fs', cast, 2, a1, b1, [], a1, b1, At(68, 68), At(412, 412));
  }

  function Parting(cast: Cast): seq<(Name, Command)> { [(cast.c, Move(Right, false)), (cast.t, Move(Up, false))] }

  lemma Parted(cast: Cast)
    requires cast.c != cast.t
    ensures After(Parting(cast), cast.c, DOWN_RIGHT) == DOWN && After(Parting(cast), cast.t, UP_LEFT) == LEFT
  {
    TwoKeys(Parting(cast)[0], Parting(cast)[1], cast.c, DOWN_RIGHT);
    TwoKeys(Parting(cast)[0], Parting(cast)[1], cast.t, UP_LEFT);
  }

  lemma ComesNearest(ch: Chance, m0: Match, fs: seq<Frame>, cast: Cast) returns (fs': seq<Frame>)
    requires ch.env.Valid() && ch.env.statics == STATICS && Plain(ch.env.cfg) && m0.world.Ok() && cast.c != cast.t
    requires Going(ch, m0, fs, cast, 3, Who(At(68, 68), DOWN_RIGHT), Who(At(412, 412), UP_LEFT))
    ensures Going(ch, m0, fs', cast, 4, Who(At(68, 88), DOWN), Who(At(392, 412), LEFT))
  {
    Parted(cast);
    Walk3();
    fs' := GoesOn(ch, m0, fs, cast, 3, Who(At(68, 68), DOWN_RIGHT), Who(At(412, 412), UP_LEFT), Parting(cast),
                  Who(At(68, 68), DOWN), Who(At(412, 412), LEFT), At(68, 88), At(392, 412));
  }

  /** One waits, and the other goes on until he stands beside him. */
  lemma WaitsThere(ch: Chance, m0: Match, fs: seq<Frame>, cast: Cast) returns (fs': seq<Frame>)
    requires ch.env.Valid() && ch.env.statics == STATICS && Plain(ch.env.cfg) && m0.world.Ok() && cast.c != cast.t
    requires Going(ch, m0, fs, cast, 4, Who(At(68, 88), DOWN), Who(At(392, 412), LEFT))
    ensures Going(ch, m0, fs', cast, 6, Who(At(68, 128), DOWN), Who(At(392, 412), IDLE_KEYS))
  {
    var e, there := (cast.t, Move(Left, false)), Who(At(392, 412), IDLE_KEYS);
    OneKey(e, cast.c, DOWN);
    OneKey(e, cast.t, LEFT);
    WalkDown(88);
    fs' := GoesOn(ch, m0, fs, cast, 4, Who(At(68, 88), DOWN), Who(At(392, 412), LEFT), [e],
                  Who(At(68, 88), DOWN), there, At(68, 108), At(392, 412));
    WalkDown(108);
    fs' := GoesOn(ch, m0, fs', cast, 5, Who(At(68, 108), DOWN), there, [],
                  Who(At(68, 108), DOWN), there, At(68, 128), At(392, 412));
  }

  /** One key instead of another. */
  function Turning(n: Name, from: Movement, to: Movement): seq<(Name, Command)> {
    [(n, Move(from, false)), (n, Move(to, true))]
  }

  lemma Turned(cast: Cast, from: Movement, to: Movement, k: Keys)
    requires cast.c != cast.t
    ensures After(Turning(cast.c, from, to), cast.c, k) == k.Press(from, false).Press(to, true)
    ensures After(Turning(cast.c, from, to), cast.t, IDLE_KEYS) == IDLE_KEYS
  {
    var cs := Turning(cast.c, from, to);
    TwoKeys(cs[0], cs[1], cast.c, k);
    TwoKeys(cs[0], cs[1], cast.t, IDLE_KEYS);
  }

  /** To the right, into the other; and up, out of the map. */
  lemma LeavesTheMap(ch: Chance, m0: Match, fs: seq<Frame>, cast: Cast) returns (fs': seq<Frame>)
    requires ch.env.Valid() && ch.env.statics == STATICS && Plain(ch.env.cfg) && m0.world.Ok() && cast.c != cast.t
    requires Going(ch, m0, fs, cast, 6, Who(At(68, 128), DOWN), Who(At(392, 412), IDLE_KEYS))
    ensures Going(ch, m0, fs', cast, 8, Who(At(80, 732), UP), Who(At(392, 412), IDLE_KEYS))
  {
    var there := Who(At(392, 412), IDLE_KEYS);
    Turned(cast, Down, Right, DOWN);
    WalkInto();
    fs' := GoesOn(ch, m0, fs, cast, 6, Who(At(68, 128), DOWN), there, Turning(cast.c, Down, Right),
                  Who(At(68, 128), RIGHT), there, At(80, 128), At(392, 412));
    Turned(cast, Right, Up, RIGHT);
    PutOut();
    fs' := GoesOn(ch, m0, fs', cast, 7, Who(At(80, 128), RIGHT), there, Turning(cast.c, Right, Up),
                  Who(At(80, 128), UP), there, At(80, 732), At(392, 412));
  }

  lemma GoesAside(ch: Chance, m0: Match, fs: seq<Frame>, cast: Cast) returns (fs': seq<Frame>)
    requires ch.env.Valid() && ch.env.statics == STATICS && Plain(ch.env.cfg) && m0.world.Ok() && cast.c != cast.t
    requires Going(ch, m0, fs, cast, 8, Who(At(80, 732), UP), Who(At(392, 412), IDLE_KEYS))
    ensures fs' == fs + [TurnWith(ch, Turning(cast.c, Up, Right))]
    ensures Going(ch, m0, fs', cast, 9, Who(At(-320, 732), RIGHT), Who(At(392, 412), IDLE_KEYS))
  {
    var there := Who(At(392, 412), IDLE_KEYS);
    Turned(cast, Up, Right, UP);
    PutAside();
    fs' := GoesOn(ch, m0, fs, cast, 8, Who(At(80, 732), UP), there, Turning(cast.c, Up, Right),
                  Who(At(80, 732), RIGHT), there, At(-320, 732), At(392, 412));
  }

  // ---- The lost shot

  /** A rectangle that does not lie to the left at this height is not hit from there. */
  lemma MissedToTheLeft(ray: Ray, r: Rect)
    requires r.w > 0 && r.h > 0 && ray == Ray(Vec(-160.0, 892.0), Vec(-1.0, 0.0))
    requires r.x > -160 || r.y > 892 || r.y + r.h < 892
    ensures Impacts(ray, r).None?
  {
    forall t | t >= 0.0 ensures !OnOutline(r, ray.At(t)) {
      assert ray.At(t) == Vec(-160.0 - t, 892.0);
    }
    ImpactsIsNearestCrossing(ray, r);
    var i := Impacts(ray, r);
    assert i.Some? ==> OnOutline(r, ray.At(i.value.t));
  }

  lemma ShotIsLost(ray: Ray)
    requires ray == Ray(Vec(-160.0, 892.0), Vec(-1.0, 0.0))
    ensures Nearest(ray, Around(At(-320, 732), At(392, 412), true)).None?
  {
    var ts := Around(At(-320, 732), At(392, 412), true);
    NearestIsNearest(ray, ts);
    var h := Nearest(ray, ts);
    if h.Some? {
      var k := h.value.index;
      assert k < 5 ==> ts[k].rect == STATICS[k];
      MissedToTheLeft(ray, ts[k].rect);
    }
  }

  /** About to stab to the left, from where nothing is to the left. */
  predicate Stabbing(env: Env, w: World, cast: Cast)
    requires env.Valid()
  {
    && Pair(w, cast) && w.joined == [cast.c, cast.t]
    && w.players[cast.t].Alive() && w.players[cast.t].rect == At(392, 412)
    && var p := w.players[cast.c];
       (&& p.Alive() && !p.defusing && KeysOf(p) == IDLE_KEYS && p.rect == At(-320, 732) && p.orientation == 180.0
        && p.loadout.equipped == KnifeSlot
        && p.loadout.knife == NewKnife(env.cfg).(trigger := Trigger(true, true, 0.0)))
  }

  function Attacking(n: Name): seq<(Name, Command)> {
    [(n, Move(Right, false)), (n, Rotate(180.0)), (n, Command.Equip(KnifeSlot)), (n, Act(true))]
  }

  lemma KnifeDrawn(env: Env, w: World, cast: Cast, w': World)
    requires env.Valid() && Scene(env, w, cast, Who(At(-320, 732), IDLE_KEYS), Who(At(392, 412), IDLE_KEYS))
    requires w.players[cast.c].orientation == 180.0
    requires w' == ActInAttack(ActInAttack(w, cast.c, Command.Equip(KnifeSlot)), cast.c, Act(true))
    ensures Stabbing(env, w', cast)
  {}

  lemma OneByOne(
    env: Env, w: World, a: (Name, Command), b: (Name, Command), c: (Name, Command), d: (Name, Command),
    w1: World, w2: World, w3: World, w4: World)
    requires env.Valid() && w.Ok() && w1.Ok() && w2.Ok() && w3.Ok()
    requires w1 == Execute(env, w, a.0, a.1, false) && w2 == Execute(env, w1, b.0, b.1, false)
    requires w3 == Execute(env, w2, c.0, c.1, false) && w4 == Execute(env, w3, d.0, d.1, false)
    ensures ExecuteAll(env, w, [a, b, c, d], false) == w4
  {
    var cs := [a, b, c, d];
    assert cs[1..] == [b, c, d] && [b, c, d][1..] == [c, d] && [c, d][1..] == [d] && [d][1..] == [];
    assert ExecuteAll(env, w3, [d], false) == w4;
    assert ExecuteAll(env, w2, [c, d], false) == w4;
    assert ExecuteAll(env, w1, [b, c, d], false) == w4;
  }

  lemma ExecuteIsAct(env: Env, w: World, n: Name, c: Command)
    requires env.Valid() && w.Ok() && !w.crashed && n in w.players && w.players[n].Alive() && ForAttack(c)
    ensures Execute(env, w, n, c, false) == ActInAttack(w, n, c)
  {}

  lemma TurnsLeft(env: Env, w: World, cast: Cast, a: Who, b: Who, w': World)
    requires env.Valid() && Scene(env, w, cast, a, b) && w' == Execute(env, w, cast.c, Rotate(180.0), false)
    ensures Scene(env, w', cast, a, b) && w'.players[cast.c].orientation == 180.0
  {}

  lemma KnifeEquipped(w: World, n: Name, w': World)
    requires w.Ok() && n in w.players && w' == ActInAttack(w, n, Command.Equip(KnifeSlot))
    ensures w'.crashed == w.crashed && n in w'.players && w'.players[n].life == w.players[n].life
  {}

  lemma KnifeCommands(env: Env, w: World, cast: Cast, a: Who, b: Who, w2: World, w3: World, w4: World)
    requires env.Valid() && Scene(env, w, cast, a, b) && a == Who(At(-320, 732), IDLE_KEYS) && b.rect == At(392, 412)
    requires b.keys == IDLE_KEYS && w2 == Execute(env, w, cast.c, Rotate(180.0), false)
    requires w2.Ok() && w3 == Execute(env, w2, cast.c, Command.Equip(KnifeSlot), false)
    requires w3.Ok() && w4 == Execute(env, w3, cast.c, Act(true), false)
    ensures Stabbing(env, w4, cast)
  {
    TurnsLeft(env, w, cast, a, b, w2);
    ExecuteIsAct(env, w2, cast.c, Command.Equip(KnifeSlot));
    KnifeEquipped(w2, cast.c, w3);
    ExecuteIsAct(env, w3, cast.c, Act(true));
    KnifeDrawn(env, w2, cast, w4);
  }

  lemma AttackCommands(env: Env, w: World, cast: Cast, w': World)
    requires env.Valid() && Scene(env, w, cast, Who(At(-320, 732), RIGHT), Who(At(392, 412), IDLE_KEYS))
    requires w' == ExecuteAll(env, w, Attacking(cast.c), false)
    ensures Stabbing(env, w', cast)
  {
    var cs := Attacking(cast.c);
    var w1 := Execute(env, w, cs[0].0, cs[0].1, false);
    KeyPressed(env, w, cast, Who(At(-320, 732), RIGHT), Who(At(392, 412), IDLE_KEYS), cs[0], w1);
    var w2 := Execute(env, w1, cs[1].0, cs[1].1, false);
    var w3 := Execute(env, w2, cs[2].0, cs[2].1, false);
    var w4 := Execute(env, w3, cs[3].0, cs[3].1, false);
    OneByOne(env, w, cs[0], cs[1], cs[2], cs[3], w1, w2, w3, w4);
    KnifeCommands(env, w1, cast, Who(At(-320, 732), IDLE_KEYS), Who(At(392, 412), IDLE_KEYS), w2, w3, w4);
  }

  /** Where the knife looks from there. */
  lemma LooksLeft(cfg: Settings, sites: seq<Rect>, heading: real -> Vec, ts: seq<Target>)
    requires cfg.Valid() && heading(180.0) == Vec(-1.0, 0.0) && ts == Around(At(-320, 732), At(392, 412), true)
    ensures Arena(cfg, STATICS, sites, heading).caster(At(-320, 732), 180.0, ts) == None
  {
    ShotIsLost(Aim(heading, At(-320, 732), 180.0));
  }

  lemma StabIsLost(env: Env, w: World, cast: Cast, luck: Luck, w1: World)
    requires env.Valid() && Stabbing(env, w, cast) && env.statics == STATICS
    requires env.caster(At(-320, 732), 180.0, Around(At(-320, 732), At(392, 412), true)) == None
    requires w1 == TakeTurn(env, w, cast.c, false, 1, luck)
    ensures w1.crashed
  {
    var p := w.players[cast.c].(shot := None, planting := false);
    var w0 := SetPlayer(w, cast.c, p);
    assert StepOf(p, env.cfg.playerSpeed) == (0, 0);
    var w2 := Walk(env, w0, cast.c, env.cfg.playerSpeed);
    assert Targets(env, w2, cast.c) == Around(At(-320, 732), At(392, 412), true);
    assert Shoot(env, w2, cast.c, 180.0) == None;
    assert w1 == UseWeapon(env, w2, cast.c, Seconds(env.cfg, 1), luck);
  }

  lemma TickIsLost(env: Env, w: World, cast: Cast, luck: Luck)
    requires env.Valid() && Stabbing(env, w, cast) && env.statics == STATICS
    requires env.caster(At(-320, 732), 180.0, Around(At(-320, 732), At(392, 412), true)) == None
    ensures Tick(env, w, 1, luck).crashed
  {
    var w1 := TakeTurn(env, w, cast.c, false, 1, luck);
    StabIsLost(env, w, cast, luck, w1);
    assert TakeTurns(env, w1, 1, false, 1, luck) == w1;
    assert TakeTurns(env, w, 0, false, 1, luck) == w1;
  }

  lemma IterateIsLost(ch: Chance, m: Match, cast: Cast, f: Frame)
    requires ch.env.Valid() && ch.env.statics == STATICS
    requires On(ch.env, m, cast, Attack, 9, Who(At(-320, 732), RIGHT), Who(At(392, 412), IDLE_KEYS))
    requires ch.env.caster(At(-320, 732), 180.0, Around(At(-320, 732), At(392, 412), true)) == None
    requires f == TurnWith(ch, Attacking(cast.c))
    ensures Iterate(ch.env, m, f).world.crashed
  {
    var w := ExecuteAll(ch.env, m.world, f.commands, false);
    AttackCommands(ch.env, m.world, cast, w);
    TickIsLost(ch.env, w, cast, ch.luck);
  }

  lemma TurnIsLost(ch: Chance, m: Match, cast: Cast, f: Frame, m': Match)
    requires ch.env.Valid() && ch.env.statics == STATICS && Plain(ch.env.cfg)
    requires On(ch.env, m, cast, Attack, 9, Who(At(-320, 732), RIGHT), Who(At(392, 412), IDLE_KEYS))
    requires ch.env.caster(At(-320, 732), 180.0, Around(At(-320, 732), At(392, 412), true)) == None
    requires f == TurnWith(ch, Attacking(cast.c)) && m' == Step(ch.env, m, ch.guns, f)
    ensures m'.world.crashed && Harmless(cast, f)
  {
    StepIsTurn(ch, m, cast, 9, Who(At(-320, 732), RIGHT), Who(At(392, 412), IDLE_KEYS), f);
    IterateIsLost(ch, m, cast, f);
    AttackIsHarmless(ch, cast);
  }

  lemma AttackIsHarmless(ch: Chance, cast: Cast)
    ensures Harmless(cast, TurnWith(ch, Attacking(cast.c)))
  {}

  lemma GameIsLost(ch: Chance, m0: Match, fs: seq<Frame>, cast: Cast) returns (fs': seq<Frame>)
    requires ch.env.Valid() && ch.env.statics == STATICS && Plain(ch.env.cfg) && m0.world.Ok() && cast.c != cast.t
    requires Going(ch, m0, fs, cast, 9, Who(At(-320, 732), RIGHT), Who(At(392, 412), IDLE_KEYS))
    requires ch.env.caster(At(-320, 732), 180.0, Around(At(-320, 732), At(392, 412), true)) == None
    ensures fs' == fs + [TurnWith(ch, Attacking(cast.c))] && (forall f <- fs' :: Harmless(cast, f))
    ensures Run(ch.env, m0, ch.guns, fs').world.crashed
  {
    var m, f := Run(ch.env, m0, ch.guns, fs), TurnWith(ch, Attacking(cast.c));
    TurnIsLost(ch, m, cast, f, Step(ch.env, m, ch.guns, f));
    RunOn(ch.env, m0, ch.guns, fs, f);
    fs' := fs + [f];
  }

  // ---- The whole match

  lemma NewIsReady(cfg: Settings, team: Team, p: Player)
    requires cfg.Valid() && p == Restarted(cfg, NewPlayer(cfg, team))
    ensures Ready(cfg, p) && KeysOf(p) == IDLE_KEYS && p.team == team && p.rect.w == PLAYER && p.rect.h == PLAYER
  {}

  lemma FirstScene(env: Env, w: World, guns: Guns, d: Draw, cast: Cast, w': World)
    requires env.Valid() && cast.c != cast.t && w == TwoPlayers(env.cfg, cast.c, cast.t)
    requires w' == NewRound(env, w, false, guns, d) && d.spots(cast.c) == (40, 40) && d.spots(cast.t) == (440, 440)
    ensures Scene(env, w', cast, Who(At(40, 40), IDLE_KEYS), Who(At(440, 440), IDLE_KEYS))
    ensures w'.bomb == RestartBomb(NEW_BOMB)
  {
    var w1 := RestartAll(env, w);
    TwoReady(env, w, cast, w1);
    OnlyTerrorist(w1, cast);
    ScenePlaced(env, w1, guns, d, cast, w');
  }

  lemma TwoReady(env: Env, w: World, cast: Cast, w': World)
    requires env.Valid() && cast.c != cast.t && w == TwoPlayers(env.cfg, cast.c, cast.t) && w' == RestartAll(env, w)
    ensures Pair(w', cast) && w'.joined == [cast.c, cast.t] && w'.bomb == RestartBomb(NEW_BOMB)
    ensures w'.players[cast.c].team == CT && w'.players[cast.t].team == TT
    ensures forall n <- [cast.c, cast.t] :: var p := w'.players[n];
               Ready(env.cfg, p) && KeysOf(p) == IDLE_KEYS && p.rect.w == PLAYER && p.rect.h == PLAYER
  {
    NewIsReady(env.cfg, CT, w'.players[cast.c]);
    NewIsReady(env.cfg, TT, w'.players[cast.t]);
  }

  lemma ScenePlaced(env: Env, w: World, guns: Guns, d: Draw, cast: Cast, w': World)
    requires env.Valid() && Pair(w, cast) && w.joined == [cast.c, cast.t]
    requires w.players[cast.c].team != w.players[cast.t].team
    requires forall n <- [cast.c, cast.t] :: var p := w.players[n];
               Ready(env.cfg, p) && KeysOf(p) == IDLE_KEYS && p.rect.w == PLAYER && p.rect.h == PLAYER
    requires w' == RestartItems(env, PlacePlayers(HandBomb(w, cast.t), d.spots), guns)
    requires d.spots(cast.c) == (40, 40) && d.spots(cast.t) == (440, 440)
    ensures Scene(env, w', cast, Who(At(40, 40), IDLE_KEYS), Who(At(440, 440), IDLE_KEYS)) && w'.bomb == w.bomb
  {
    LaidAmong(env, PlacePlayers(HandBomb(w, cast.t), d.spots), guns);
    assert cast.c in [cast.c, cast.t] && cast.t in [cast.c, cast.t];
  }

  lemma Begins(ch: Chance, cast: Cast, w: World, m: Match)
    requires ch.env.Valid() && Plain(ch.env.cfg) && cast.c != cast.t
    requires w == TwoPlayers(ch.env.cfg, cast.c, cast.t) && m == Kickoff(ch.env, w, ch.guns, ch.d)
    requires ch.d.spots(cast.c) == (40, 40) && ch.d.spots(cast.t) == (440, 440)
    ensures On(ch.env, m, cast, Buy, 0, Who(At(40, 40), IDLE_KEYS), Who(At(440, 440), IDLE_KEYS))
  {
    FirstScene(ch.env, w, ch.guns, ch.d, cast, m.world);
  }

  /** Where the two begin is in the map, and below it is not. */
  lemma InAndOut()
    ensures Placed(MAP, At(40, 40)) && Placed(MAP, At(440, 440)) && !Placed(MAP, At(80, 732))
  {
    StaticsOfMap();
  }

  lemma TwoPlaced(env: Env, w: World, cast: Cast, a: Who, b: Who)
    requires env.Valid() && Scene(env, w, cast, a, b)
    ensures AllPlaced(MAP, w) <==> Placed(MAP, a.rect) && Placed(MAP, b.rect)
  {
    assert Places(w).Keys == {cast.c, cast.t};
    assert Places(w)[cast.c] == a.rect && Places(w)[cast.t] == b.rect;
    assert cast.c in Places(w) && cast.t in Places(w);
  }

  lemma ArenaIsOnMap(cfg: Settings, sites: seq<Rect>, heading: real -> Vec)
    requires cfg.Valid() && IsHeading(heading)
    ensures OnMap(Arena(cfg, Statics(MAP), sites, heading), MAP)
  {}

  /** The way out, from the first purchases on. */
  lemma TheWayOut(ch: Chance, m0: Match, cast: Cast) returns (fs: seq<Frame>)
    requires ch.env.Valid() && ch.env.statics == STATICS && Plain(ch.env.cfg) && m0.world.Ok() && cast.c != cast.t
    requires On(ch.env, m0, cast, Buy, 0, Who(At(40, 40), IDLE_KEYS), Who(At(440, 440), IDLE_KEYS))
    ensures Going(ch, m0, fs, cast, 8, Who(At(80, 732), UP), Who(At(392, 412), IDLE_KEYS))
  {
    var m;
    fs, m := BuyOn(ch, m0, [], cast, 0, Who(At(40, 40), IDLE_KEYS), Who(At(440, 440), IDLE_KEYS), m0);
    fs := ComeCloser(ch, m0, fs, cast);
    fs := ComesNearest(ch, m0, fs, cast);
    fs := WaitsThere(ch, m0, fs, cast);
    fs := LeavesTheMap(ch, m0, fs, cast);
  }

  lemma TheEnd(ch: Chance, m0: Match, cast: Cast, fs: seq<Frame>) returns (more: seq<Frame>)
    requires ch.env.Valid() && ch.env.statics == STATICS && Plain(ch.env.cfg) && m0.world.Ok() && cast.c != cast.t
    requires Going(ch, m0, fs, cast, 8, Who(At(80, 732), UP), Who(At(392, 412), IDLE_KEYS))
    requires ch.env.caster(At(-320, 732), 180.0, Around(At(-320, 732), At(392, 412), true)) == None
    ensures (forall f <- fs + more :: Harmless(cast, f)) && Run(ch.env, m0, ch.guns, fs + more).world.crashed
  {
    var aside := GoesAside(ch, m0, fs, cast);
    var all := GameIsLost(ch, m0, aside, cast);
    more := all[|fs|..];
    assert fs + more == all;
  }

  lemma OutAndLost(ch: Chance, m0: Match, cast: Cast) returns (fs: seq<Frame>, more: seq<Frame>)
    requires ch.env.Valid() && ch.env.statics == STATICS && Plain(ch.env.cfg) && m0.world.Ok() && cast.c != cast.t
    requires On(ch.env, m0, cast, Buy, 0, Who(At(40, 40), IDLE_KEYS), Who(At(440, 440), IDLE_KEYS))
    requires ch.env.caster(At(-320, 732), 180.0, Around(At(-320, 732), At(392, 412), true)) == None
    ensures Scene(ch.env, Run(ch.env, m0, ch.guns, fs).world, cast, Who(At(80, 732), UP), Who(At(392, 412), IDLE_KEYS))
    ensures (forall f <- fs + more :: Harmless(cast, f)) && Run(ch.env, m0, ch.guns, fs + more).world.crashed
  {
    fs := TheWayOut(ch, m0, cast);
    more := TheEnd(ch, m0, cast, fs);
  }

  lemma BeginsInMap(
    cfg: Settings, sites: seq<Rect>, heading: real -> Vec, guns: Guns, d: Draw, luck: Luck, cast: Cast, env: Env,
    m0: Match)
    requires Plain(cfg) && IsHeading(heading) && cast.c != cast.t && env == Arena(cfg, Statics(MAP), sites, heading)
    requires d.spots(cast.c) == (40, 40) && d.spots(cast.t) == (440, 440)
    requires m0 == Kickoff(env, TwoPlayers(cfg, cast.c, cast.t), guns, d)
    ensures OnMap(env, MAP) && env.statics == STATICS && Fine(MAP, m0.world)
    ensures On(env, m0, cast, Buy, 0, Who(At(40, 40), IDLE_KEYS), Who(At(440, 440), IDLE_KEYS))
  {
    StaticsOfMap();
    ArenaIsOnMap(cfg, sites, heading);
    InAndOut();
    Begins(Chance(env, guns, d, luck), cast, TwoPlayers(cfg, cast.c, cast.t), m0);
    TwoPlaced(env, m0.world, cast, Who(At(40, 40), IDLE_KEYS), Who(At(440, 440), IDLE_KEYS));
  }

  /** On a map of three blocks by two with one in the way, at the speed of the settings file, whatever the other
      settings, the draws and the names: two players begin in the middle of blocks; the clock moves by single
      frames; they only walk, and then one stabs. He is out of the map after eight turns of the attack, and
      after ten an exception has ended the game. */
  lemma AMatchThatLeavesTheMap(
    cfg: Settings, sites: seq<Rect>, heading: real -> Vec, guns: Guns, d: Draw, luck: Luck, cast: Cast)
    returns (fs: seq<Frame>, more: seq<Frame>)
    requires Plain(cfg) && IsHeading(heading) && heading(180.0) == Vec(-1.0, 0.0) && cast.c != cast.t
    requires d.spots(cast.c) == (40, 40) && d.spots(cast.t) == (440, 440)
    ensures var env := Arena(cfg, Statics(MAP), sites, heading);
            var m0 := Kickoff(env, TwoPlayers(cfg, cast.c, cast.t), guns, d);
            && OnMap(env, MAP) && Fine(MAP, m0.world) && (forall f <- fs + more :: Harmless(cast, f))
            && !Run(env, m0, guns, fs).world.crashed && !AllPlaced(MAP, Run(env, m0, guns, fs).world)
            && Run(env, m0, guns, fs + more).world.crashed
  {
    var env := Arena(cfg, Statics(MAP), sites, heading);
    var m0 := Kickoff(env, TwoPlayers(cfg, cast.c, cast.t), guns, d);
    BeginsInMap(cfg, sites, heading, guns, d, luck, cast, env, m0);
    LooksLeft(cfg, sites, heading, Around(At(-320, 732), At(392, 412), true));
    fs, more := OutAndLost(Chance(env, guns, d, luck), m0, cast);
    InAndOut();
    TwoPlaced(env, Run(env, m0, guns, fs).world, cast, Who(At(80, 732), UP), Who(At(392, 412), IDLE_KEYS));
  }
}
