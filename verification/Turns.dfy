/** What a player does in one turn of a tick (src/server/player.cpp, update), by what he holds, the keys he has pressed
    and where he stands: where he goes, whether he fires, and where his shots lead. */
module Turns {
  import opened Basics
  import opened Settings
  import opened Geometry
  import opened Slide
  import opened Arms
  import opened World
  import opened Wounds
  import opened Shooting

  // ---- Whether he fires

  /** An AK-47 held with three rounds left, or another gun just pulled with one, and the time of a shot gone by. */
  predicate Ready(cfg: Settings, g: Gun) {
    && (if g.kind == Ak47 then g.trigger.making && g.ammo >= 3 else g.trigger.just && g.ammo >= 1)
    && g.sinceShot * cfg.Gun(g.kind).rateOfFire as real >= 60.0
  }

  predicate ReadyToStab(cfg: Settings, k: Knife) {
    k.trigger.just && k.sinceStab * cfg.knifeAttackRate as real >= 60.0
  }

  function GunDeeds(
    cfg: Settings, heading: real -> Vec, a: real, g: Gun, r: Rect, luck: Luck, me: Name): seq<Shot>
  {
    if Ready(cfg, g) then GunShots(cfg, heading, r, a, g.kind, luck, me) else []
  }

  /** The shots of `p` where he stands. */
  function Deeds(cfg: Settings, heading: real -> Vec, p: Player, r: Rect, luck: Luck, me: Name): seq<Shot> {
    match p.loadout.equipped
    case PrimarySlot =>
      if p.loadout.primary.None? then []
      else GunDeeds(cfg, heading, p.orientation, p.loadout.primary.value, r, luck, me)
    case SecondarySlot => GunDeeds(cfg, heading, p.orientation, p.loadout.secondary, r, luck, me)
    case KnifeSlot =>
      var stab := Blow(cfg.knifeDamage, Some(cfg.knifeDistance), cfg.knifeKillBonus);
      if ReadyToStab(cfg, p.loadout.knife) then [Shot(RayFrom(heading, r, p.orientation), stab)] else []
    case BombSlot => []
  }

  lemma Elapsed(since: real, rate: int)
    requires rate > 0
    ensures since >= 60.0 / rate as real <==> since * rate as real >= 60.0
  {
    var period := 60.0 / rate as real;
    Quotient(60.0, rate as real, period);
    SignOfProduct(since - period, rate as real, since * rate as real - 60.0);
  }

  lemma ReadyIff(cfg: Settings, g: Gun)
    requires cfg.Valid()
    ensures CanShoot(cfg, g) <==> Ready(cfg, g)
  {
    Elapsed(g.sinceShot, cfg.Gun(g.kind).rateOfFire);
  }

  lemma ReadyToStabIff(cfg: Settings, k: Knife)
    requires cfg.Valid()
    ensures CanStab(cfg, k) <==> ReadyToStab(cfg, k)
  {
    Elapsed(k.sinceStab, cfg.knifeAttackRate);
  }

  // ---- The weapon in his hand

  lemma SameBody(w: World, n: Name, p: Player, w': World)
    requires w.Ok() && n in w.players && w' == SetPlayer(w, n, p) && BodyOf(p) == BodyOf(w.players[n])
    ensures w'.crashed == w.crashed && SceneOf(w') == SceneOf(w)
  {
    SetBody(w, n, p, w');
    assert SceneOf(w).bodies[n := BodyOf(p)] == SceneOf(w).bodies;
  }

  /** A change of what is carried, which no shot sees. */
  lemma SameWithLoadout(w: World, n: Name, p: Player, l: Loadout, w': World)
    requires w.Ok() && n in w.players && p == w.players[n] && l.money == p.loadout.money
    requires w' == SetPlayer(w, n, p.(loadout := l))
    ensures w'.crashed == w.crashed && SceneOf(w') == SceneOf(w)
    ensures w'.players[n].orientation == w.players[n].orientation
  {
    SameBody(w, n, p.(loadout := l), w');
  }

  lemma PuttingKeepsScene(w: World, me: Name, g: Gun, w': World)
    requires w.Ok() && me in w.players && w' == PutGun(w, me, g)
    ensures w'.crashed == w.crashed && SceneOf(w') == SceneOf(w)
    ensures w'.players[me].orientation == w.players[me].orientation
  {
    var p := w.players[me];
    match p.loadout.equipped
    case PrimarySlot => SameWithLoadout(w, me, p, p.loadout.(primary := Some(g)), w');
    case SecondarySlot => SameWithLoadout(w, me, p, p.loadout.(secondary := g), w');
    case _ =>
  }

  lemma GunLeads(env: Env, heading: real -> Vec, w: World, me: Name, g: Gun, g': Gun, luck: Luck, r: Rect, a: real,
                 shots: seq<Shot>, w': World)
    requires Range(env, heading, w) && me in w.players && !w.crashed && g.ammo >= AmmoCost(g.kind) && g'.kind == g.kind
    requires r == w.players[me].rect && a == w.players[me].orientation
    requires shots == GunShots(env.cfg, heading, r, a, g.kind, luck, me)
    requires w' == UseGun(env, w, me, g, true, g', luck)
    ensures VolleyLeads(env.cfg, env.statics, SceneOf(w), me, shots, SceneOf(w'), w'.crashed)
  {
    var w1 := PutGun(w, me, Spent(g));
    PuttingKeepsScene(w, me, Spent(g), w1);
    RangeStays(env, heading, w, me, SceneOf(w), w1, SceneOf(w1));
    var w2 := Fire(env, w1, me, g'.kind, luck);
    FireLeads(env, heading, w1, me, r, a, g.kind, luck, shots, w2);
    PuttingKeepsScene(w2, me, g', PutGun(w2, me, g'));
  }

  lemma KnifeLeads(env: Env, heading: real -> Vec, w: World, me: Name, k': Knife, r: Rect, a: real,
                   shots: seq<Shot>, w': World)
    requires Range(env, heading, w) && me in w.players && !w.crashed
    requires r == w.players[me].rect && a == w.players[me].orientation
    requires shots == [Shot(RayFrom(heading, r, a),
                            Blow(env.cfg.knifeDamage, Some(env.cfg.knifeDistance), env.cfg.knifeKillBonus))]
    requires w' == UseKnife(env, w, me, true, k')
    ensures VolleyLeads(env.cfg, env.statics, SceneOf(w), me, shots, SceneOf(w'), w'.crashed)
  {
    var hits, reach, bonus := [env.cfg.knifeDamage], Some(env.cfg.knifeDistance), env.cfg.knifeKillBonus;
    assert Sum(hits) == env.cfg.knifeDamage + Sum(hits[1..]);
    var w1 := Strike(env, w, me, a, hits, reach, bonus);
    BulletsLead(env, heading, w, me, r, a, hits, bonus, reach, shots, w1);
    KnifePutKeepsScene(w1, me, k', PutKnife(w1, me, k'));
  }

  lemma KnifePutKeepsScene(w: World, me: Name, k: Knife, w': World)
    requires w.Ok() && me in w.players && w' == PutKnife(w, me, k)
    ensures w'.crashed == w.crashed && SceneOf(w') == SceneOf(w)
  {
    var p := w.players[me];
    SameBody(w, me, p.(loadout := p.loadout.(knife := k)), w');
  }

  lemma BombKeepsScene(env: Env, w: World, me: Name, dt: real, w': World)
    requires env.Valid() && w.Ok() && me in w.players && w' == UseBomb(env, w, me, dt)
    ensures w'.crashed == w.crashed && SceneOf(w') == SceneOf(w)
  {
    var p := w.players[me].(loadout := WithoutBomb(w.players[me].loadout));
    var w1 := SetPlayer(w, me, p);
    SameBody(w, me, p, w1);
    if w'.players == w1.players { SameScene(w1, w'); } else { SameScene(w, w'); }
  }

  lemma GunInHandLeads(
    env: Env, heading: real -> Vec, w: World, me: Name, g: Gun, g': Gun, luck: Luck, r: Rect, a: real, w': World)
    requires Range(env, heading, w) && me in w.players && !w.crashed && g'.kind == g.kind
    requires r == w.players[me].rect && a == w.players[me].orientation
    requires w' == UseGun(env, w, me, g, CanShoot(env.cfg, g), g', luck)
    ensures VolleyLeads(env.cfg, env.statics, SceneOf(w), me, GunDeeds(env.cfg, heading, a, g, r, luck, me),
                        SceneOf(w'), w'.crashed)
  {
    ReadyIff(env.cfg, g);
    if CanShoot(env.cfg, g) {
      GunLeads(env, heading, w, me, g, g', luck, r, a, GunShots(env.cfg, heading, r, a, g.kind, luck, me), w');
    } else {
      PuttingKeepsScene(w, me, g', w');
    }
  }

  lemma KnifeInHandLeads(
    env: Env, heading: real -> Vec, w: World, me: Name, p: Player, k': Knife, luck: Luck, r: Rect, w': World)
    requires Range(env, heading, w) && me in w.players && !w.crashed
    requires p == w.players[me] && r == p.rect && p.loadout.equipped == KnifeSlot
    requires w' == UseKnife(env, w, me, CanStab(env.cfg, p.loadout.knife), k')
    ensures VolleyLeads(env.cfg, env.statics, SceneOf(w), me, Deeds(env.cfg, heading, p, r, luck, me),
                        SceneOf(w'), w'.crashed)
  {
    ReadyToStabIff(env.cfg, p.loadout.knife);
    if CanStab(env.cfg, p.loadout.knife) {
      KnifeLeads(env, heading, w, me, k', r, p.orientation, Deeds(env.cfg, heading, p, r, luck, me), w');
    } else {
      KnifePutKeepsScene(w, me, k', w');
    }
  }

  /** The use of what he holds leads where its shots lead. */
  lemma WeaponLeads(
    env: Env, heading: real -> Vec, w: World, me: Name, dt: real, luck: Luck, p: Player, r: Rect, w': World)
    requires Range(env, heading, w) && me in w.players && !w.crashed && p == w.players[me] && r == p.rect
    requires w' == UseWeapon(env, w, me, dt, luck)
    ensures VolleyLeads(env.cfg, env.statics, SceneOf(w), me, Deeds(env.cfg, heading, p, r, luck, me),
                        SceneOf(w'), w'.crashed)
  {
    var cfg, l := env.cfg, p.loadout;
    match l.equipped
    case KnifeSlot => KnifeInHandLeads(env, heading, w, me, p, UpdateKnife(cfg, l.knife, dt), luck, r, w');
    case BombSlot => BombKeepsScene(env, w, me, dt, UseBomb(env, w, me, dt));
    case PrimarySlot =>
      if l.primary.Some? {
        var g := l.primary.value;
        GunInHandLeads(env, heading, w, me, g, UpdateGun(cfg, g, dt), luck, r, p.orientation, w');
      }
    case SecondarySlot =>
      GunInHandLeads(env, heading, w, me, l.secondary, UpdateGun(cfg, l.secondary, dt), luck, r, p.orientation, w');
  }

  // ---- His way

  /** What two opposite keys make of a length. */
  function Along(forward: bool, back: bool, length: int): int {
    if forward == back then 0 else if forward then length else -length
  }

  /** The length of a step along each axis: that of the way on one axis alone, otherwise the whole part of it divided
      by the square root of two. */
  predicate IsLength(p: Player, way: nat, length: nat) {
    if p.right != p.left && p.down != p.up
    then 2 * length * length <= way * way < 2 * (length + 1) * (length + 1)
    else length == way
  }

  ghost predicate StepsBy(p: Player, way: nat, dx: int, dy: int) {
    exists length: nat ::
      IsLength(p, way, length) && dx == Along(p.right, p.left, length) && dy == Along(p.down, p.up, length)
  }

  lemma {:induction false} DiagonalIsWholePart(way: nat, k: nat)
    requires way * way < 2 * (k + 1) * (k + 1)
    ensures var d := Diagonal(way, k); 2 * d * d <= way * way < 2 * (d + 1) * (d + 1)
  {
    if k > 0 && 2 * k * k > way * way { DiagonalIsWholePart(way, k - 1); }
  }

  lemma StepIs(p: Player, way: nat, dx: int, dy: int)
    requires (dx, dy) == StepOf(p, way)
    ensures StepsBy(p, way, dx, dy)
  {
    var sideways, along := p.right != p.left, p.down != p.up;
    var length := if sideways && along then Diagonal(way, way) else way;
    LengthIs(p, way, length);
    Signed(p.right, p.left, length);
    Signed(p.down, p.up, length);
  }

  lemma LengthIs(p: Player, way: nat, length: nat)
    requires length == if p.right != p.left && p.down != p.up then Diagonal(way, way) else way
    ensures IsLength(p, way, length)
  {
    if p.right != p.left && p.down != p.up { DiagonalIsWholePart(way, way); }
  }

  lemma Signed(forward: bool, back: bool, length: nat)
    ensures Sign(forward, back) * length == Along(forward, back, length)
  {}

  /** The middle of a rectangle is on a site. */
  predicate MiddleOn(sites: seq<Rect>, r: Rect) {
    exists k <- sites :: k.x <= r.x + r.w / 2 < k.x + k.w && k.y <= r.y + r.h / 2 < k.y + k.h
  }

  /** The scene with `n` standing at `r`. */
  function Stands(s: Scene, n: Name, r: Rect, sites: seq<Rect>): Scene
    requires n in s.bodies
  {
    s.(bodies := s.bodies[n := s.bodies[n].(rect := r, stance := s.bodies[n].stance.(onSite := MiddleOn(sites, r)))])
  }

  /** The scene in which `n` begins his turn. */
  function Begins(s: Scene, n: Name, planting: bool, defusing: bool): Scene
    requires n in s.bodies
  {
    var b := s.bodies[n];
    s.(bodies := s.bodies[n := b.(shot := None, stance := b.stance.(planting := planting, defusing := defusing))])
  }

  lemma StepKeepsSize(ts: seq<Target>, p: Rect, dx: int, dy: int)
    ensures var r := MakeStep(ts, p, dx, dy); r.w == p.w && r.h == p.h
  {}

  /** He goes as far as the slide lets him, and nobody else does. */
  lemma WalkLeads(env: Env, heading: real -> Vec, w: World, me: Name, way: nat, s: Scene, w': World)
    returns (dx: int, dy: int)
    requires Range(env, heading, w) && me in w.players && s == SceneOf(w) && w' == Walk(env, w, me, way)
    ensures StepsBy(w.players[me], way, dx, dy) && Range(env, heading, w') && w'.crashed == w.crashed
    ensures var r := MakeStep(TargetsOf(env.statics, s, me), w.players[me].rect, dx, dy);
            && SceneOf(w') == Stands(s, me, r, env.sites)
            && w'.players[me] == w.players[me].(rect := r, onSite := w'.players[me].onSite)
  {
    var p := w.players[me];
    dx, dy := StepOf(p, way).0, StepOf(p, way).1;
    StepIs(p, way, dx, dy);
    ScenesAgree(w, env.statics, env, me);
    var r := MakeStep(TargetsOf(env.statics, s, me), p.rect, dx, dy);
    StepKeepsSize(TargetsOf(env.statics, s, me), p.rect, dx, dy);
    SetBody(w, me, p.(rect := r, onSite := OnSite(env, r)), w');
  }

  // ---- His turn

  /** A defuser is so until the bomb is defused. */
  predicate StillDefuses(w: World, p: Player, wasPlanted: bool) {
    p.defusing && !(p.team == CT && wasPlanted && w.bomb.status == Defused)
  }

  /** The dead do nothing, nor does who is defusing. */
  predicate Idle(w: World, p: Player, wasPlanted: bool) { p.life == 0 || StillDefuses(w, p, wasPlanted) }

  /** Who has the bomb in his hand on a site and the trigger pulled stands still. */
  predicate Plants(p: Player) {
    p.making && p.onSite && p.loadout.equipped == BombSlot && p.loadout.hasBomb
  }

  /** A turn begins with the shot before no longer shown. */
  function Cleared(p: Player, planting: bool): Player { p.(shot := None, planting := planting) }

  lemma ClearedScene(w: World, me: Name, p: Player, planting: bool, w': World)
    requires w.Ok() && me in w.players && p == w.players[me] && w' == SetPlayer(w, me, Cleared(p, planting))
    ensures w'.crashed == w.crashed && SceneOf(w') == Begins(SceneOf(w), me, planting, p.defusing)
  {
    SetBody(w, me, Cleared(p, planting), w');
  }

  /** The turn after the clearing. */
  lemma UpdateIdle(env: Env, w: World, me: Name, frames: nat, luck: Luck, p: Player, w': World)
    requires env.Valid() && w.Ok() && me in w.players && p == w.players[me] && (!p.Alive() || p.defusing)
    requires w' == UpdatePlayer(env, w, me, frames, luck)
    ensures w' == SetPlayer(w, me, p.(shot := None, planting := false))
  {}

  lemma UpdatePlants(env: Env, w: World, me: Name, frames: nat, luck: Luck, p: Player, dt: real, w0: World, w': World)
    requires env.Valid() && w.Ok() && me in w.players && p == w.players[me] && p.Alive() && !p.defusing && Plants(p)
    requires dt == frames as real / env.cfg.fps as real && w0 == SetPlayer(w, me, p.(shot := None, planting := true))
    requires w' == UpdatePlayer(env, w, me, frames, luck)
    ensures w' == UseBomb(env, w0, me, dt)
  {
    assert w0 == SetPlayer(SetPlayer(w, me, Cleared(p, false)), me, Cleared(p, true));
  }

  lemma UpdateWalks(env: Env, w: World, me: Name, frames: nat, luck: Luck, p: Player, dt: real, w0: World, w': World)
    returns (w1: World, way: nat)
    requires env.Valid() && w.Ok() && me in w.players && p == w.players[me] && p.Alive() && !p.defusing && !Plants(p)
    requires dt == frames as real / env.cfg.fps as real && w0 == SetPlayer(w, me, p.(shot := None, planting := false))
    requires w' == UpdatePlayer(env, w, me, frames, luck)
    ensures way == frames * env.cfg.playerSpeed
    ensures w1 == Walk(env, w0, me, way) && w' == UseWeapon(env, w1, me, dt, luck)
  {
    way := frames * env.cfg.playerSpeed;
    w1 := Walk(env, w0, me, way);
  }

  lemma SetSame(w: World, n: Name)
    requires w.Ok() && n in w.players
    ensures SetPlayer(w, n, w.players[n]) == w
  {}

  /** ... which may find him not defusing any more. */
  lemma CalledOff(env: Env, w: World, me: Name, wasPlanted: bool, frames: nat, luck: Luck, p: Player, p1: Player)
    requires env.Valid() && w.Ok() && me in w.players && p == w.players[me]
    requires p1 == p.(defusing := StillDefuses(w, p, wasPlanted))
    ensures TakeTurn(env, w, me, wasPlanted, frames, luck) == UpdatePlayer(env, SetPlayer(w, me, p1), me, frames, luck)
  {
    SetSame(w, me);
  }

  /** He goes as far as the slide lets him and fires from there what he holds, if it is ready; his shots lead to
      `s'`. */
  ghost predicate GoesAndFires(
    env: Env, heading: real -> Vec, s: Scene, me: Name, p: Player, way: nat, luck: Luck, dx: int, dy: int, s': Scene,
    thrown: bool)
  {
    && (forall n <- s.joined :: n in s.bodies) && me in s.bodies && StepsBy(p, way, dx, dy)
    && var r := MakeStep(TargetsOf(env.statics, s, me), p.rect, dx, dy);
       var shots := Deeds(env.cfg, heading, p, r, luck, me);
       VolleyLeads(env.cfg, env.statics, Stands(s, me, r, env.sites), me, shots, s', thrown)
  }

  /** The player whose turn it is. */
  function Called(w: World, p: Player, wasPlanted: bool): Player { p.(defusing := StillDefuses(w, p, wasPlanted)) }

  function Stops(s: Scene, n: Name, defusing: bool): Scene
    requires n in s.bodies
  {
    s.(bodies := s.bodies[n := s.bodies[n].(stance := s.bodies[n].stance.(defusing := defusing))])
  }

  lemma StopsThenBegins(s: Scene, n: Name, before: bool, s1: Scene, planting: bool, defusing: bool)
    requires n in s.bodies && s1 == Stops(s, n, before)
    ensures Begins(s1, n, planting, defusing) == Begins(s, n, planting, defusing) && InPlace(s, s1)
  {
    assert Begins(s1, n, planting, defusing).bodies == Begins(s, n, planting, defusing).bodies;
  }

  lemma CalledScene(
    w: World, me: Name, p: Player, wasPlanted: bool, w1: World, s: Scene, planting: bool, defusing: bool)
    requires w.Ok() && me in w.players && p == w.players[me] && w1 == SetPlayer(w, me, Called(w, p, wasPlanted))
    requires s == SceneOf(w)
    ensures w1.crashed == w.crashed && InPlace(s, SceneOf(w1))
    ensures Begins(SceneOf(w1), me, planting, defusing) == Begins(s, me, planting, defusing)
  {
    SetBody(w, me, Called(w, p, wasPlanted), w1);
    StopsThenBegins(s, me, StillDefuses(w, p, wasPlanted), SceneOf(w1), planting, defusing);
  }

  lemma UpdateStands(env: Env, w: World, me: Name, frames: nat, luck: Luck, p: Player, s: Scene, w': World)
    requires env.Valid() && w.Ok() && me in w.players && p == w.players[me]
    requires !p.Alive() || p.defusing || Plants(p)
    requires s == Begins(SceneOf(w), me, p.Alive() && !p.defusing, p.defusing)
    requires w' == UpdatePlayer(env, w, me, frames, luck)
    ensures w'.crashed == w.crashed && SceneOf(w') == s
  {
    if !p.Alive() || p.defusing {
      UpdateIdle(env, w, me, frames, luck, p, w');
      ClearedScene(w, me, p, false, w');
    } else {
      PlantsThere(env, w, me, frames, luck, p, s, w');
    }
  }

  /** What a turn leads to. Who is idle or planting stays where he is and hurts nobody ... */
  lemma TurnStands(
    env: Env, w: World, me: Name, wasPlanted: bool, frames: nat, luck: Luck, p: Player, s: Scene, w': World)
    requires env.Valid() && w.Ok() && me in w.players && p == w.players[me]
    requires s == Begins(SceneOf(w), me, !Idle(w, p, wasPlanted) && Plants(p), StillDefuses(w, p, wasPlanted))
    requires Idle(w, p, wasPlanted) || Plants(p)
    requires w' == TakeTurn(env, w, me, wasPlanted, frames, luck)
    ensures w'.crashed == w.crashed && SceneOf(w') == s
  {
    var planting, defusing := !Idle(w, p, wasPlanted) && Plants(p), StillDefuses(w, p, wasPlanted);
    var p1 := Called(w, p, wasPlanted);
    var w1 := SetPlayer(w, me, p1);
    CalledOff(env, w, me, wasPlanted, frames, luck, p, p1);
    CalledScene(w, me, p, wasPlanted, w1, SceneOf(w), planting, defusing);
    UpdateStands(env, w1, me, frames, luck, p1, s, w');
  }

  /** ... and anybody else moves and fires. */
  lemma TurnLeads(
    env: Env, heading: real -> Vec, w: World, me: Name, wasPlanted: bool, frames: nat, luck: Luck, p: Player, s: Scene,
    w': World)
    returns (way: nat, dx: int, dy: int)
    requires Range(env, heading, w) && me in w.players && !w.crashed
    requires p == w.players[me] && s == Begins(SceneOf(w), me, false, false)
    requires !Idle(w, p, wasPlanted) && !Plants(p)
    requires w' == TakeTurn(env, w, me, wasPlanted, frames, luck)
    ensures way == frames * env.cfg.playerSpeed
    ensures GoesAndFires(env, heading, s, me, p, way, luck, dx, dy, SceneOf(w'), w'.crashed)
  {
    var p1 := Called(w, p, wasPlanted);
    var w1 := SetPlayer(w, me, p1);
    CalledOff(env, w, me, wasPlanted, frames, luck, p, p1);
    CalledScene(w, me, p, wasPlanted, w1, SceneOf(w), false, false);
    RangeStays(env, heading, w, me, SceneOf(w), w1, SceneOf(w1));
    way, dx, dy := GoesThere(env, heading, w1, me, frames, luck, p1, s, w');
    SameTurn(env, heading, s, me, p1, p, way, luck, dx, dy, SceneOf(w'), w'.crashed);
  }

  lemma PlantsThere(env: Env, w: World, me: Name, frames: nat, luck: Luck, p: Player, s: Scene, w': World)
    requires env.Valid() && w.Ok() && me in w.players && p == w.players[me] && p.Alive() && !p.defusing && Plants(p)
    requires s == Begins(SceneOf(w), me, true, false) && w' == UpdatePlayer(env, w, me, frames, luck)
    ensures w'.crashed == w.crashed && SceneOf(w') == s
  {
    var dt, w0 := frames as real / env.cfg.fps as real, SetPlayer(w, me, Cleared(p, true));
    UpdatePlants(env, w, me, frames, luck, p, dt, w0, w');
    ClearedScene(w, me, p, true, w0);
    BombKeepsScene(env, w0, me, dt, w');
  }

  lemma GoesThere(
    env: Env, heading: real -> Vec, w: World, me: Name, frames: nat, luck: Luck, p: Player, s: Scene, w': World)
    returns (way: nat, dx: int, dy: int)
    requires Range(env, heading, w) && me in w.players && !w.crashed && p == w.players[me]
    requires p.Alive() && !p.defusing && !Plants(p)
    requires s == Begins(SceneOf(w), me, false, false) && w' == UpdatePlayer(env, w, me, frames, luck)
    ensures way == frames * env.cfg.playerSpeed
    ensures GoesAndFires(env, heading, s, me, p, way, luck, dx, dy, SceneOf(w'), w'.crashed)
  {
    var dt, w0 := frames as real / env.cfg.fps as real, SetPlayer(w, me, Cleared(p, false));
    var w1;
    w1, way := UpdateWalks(env, w, me, frames, luck, p, dt, w0, w');
    ClearedScene(w, me, p, false, w0);
    RangeStays(env, heading, w, me, SceneOf(w), w0, s);
    dx, dy := MovesAndFires(env, heading, w0, me, way, dt, luck, p, s, w1, w');
  }

  lemma SameTurn(
    env: Env, heading: real -> Vec, s: Scene, me: Name, p: Player, q: Player, way: nat, luck: Luck, dx: int, dy: int,
    s': Scene, thrown: bool)
    requires GoesAndFires(env, heading, s, me, p, way, luck, dx, dy, s', thrown) && p == q.(defusing := p.defusing)
    ensures GoesAndFires(env, heading, s, me, q, way, luck, dx, dy, s', thrown)
  {
    SameSteps(p, q, way, dx, dy);
    SameDeeds(env.cfg, heading, p, q, MakeStep(TargetsOf(env.statics, s, me), p.rect, dx, dy), luck, me);
  }

  lemma MovesAndFires(
    env: Env, heading: real -> Vec, w: World, me: Name, way: nat, dt: real, luck: Luck, p: Player, s: Scene,
    w1: World, w': World)
    returns (dx: int, dy: int)
    requires Range(env, heading, w) && me in w.players && !w.crashed && s == SceneOf(w)
    requires w.players[me] == Cleared(p, false)
    requires w1 == Walk(env, w, me, way) && w' == UseWeapon(env, w1, me, dt, luck)
    ensures GoesAndFires(env, heading, s, me, p, way, luck, dx, dy, SceneOf(w'), w'.crashed)
  {
    dx, dy := WalkLeads(env, heading, w, me, way, s, w1);
    SameSteps(w.players[me], p, way, dx, dy);
    var r, p1 := MakeStep(TargetsOf(env.statics, s, me), p.rect, dx, dy), w1.players[me];
    WeaponLeads(env, heading, w1, me, dt, luck, p1, r, w');
    SameDeeds(env.cfg, heading, p1, p, r, luck, me);
  }

  lemma SameSteps(p: Player, q: Player, way: nat, dx: int, dy: int)
    requires StepsBy(p, way, dx, dy) && q.up == p.up && q.down == p.down && q.left == p.left && q.right == p.right
    ensures StepsBy(q, way, dx, dy)
  {
    var length: nat :| IsLength(p, way, length) && dx == Along(p.right, p.left, length)
                       && dy == Along(p.down, p.up, length);
    assert IsLength(q, way, length);
  }

  lemma SameDeeds(cfg: Settings, heading: real -> Vec, p: Player, q: Player, r: Rect, luck: Luck, me: Name)
    requires p.loadout == q.loadout && p.orientation == q.orientation
    ensures Deeds(cfg, heading, p, r, luck, me) == Deeds(cfg, heading, q, r, luck, me)
  {}

  // ---- What is left of his weapon

  predicate TriggerUsed(t: Trigger, dt: real, t': Trigger) {
    t' == Trigger(t.making, false, if t.just then t.since else t.since + dt)
  }

  /** A shot takes its rounds and starts the wait for the next one. */
  predicate GunUsed(cfg: Settings, g: Gun, dt: real, g': Gun) {
    && g'.kind == g.kind && TriggerUsed(g.trigger, dt, g'.trigger)
    && if Ready(cfg, g) then g'.ammo == g.ammo - (if g.kind == Ak47 then 3 else 1) && g'.sinceShot == 0.0
       else g'.ammo == g.ammo && g'.sinceShot == g.sinceShot + dt
  }

  predicate KnifeUsed(cfg: Settings, k: Knife, dt: real, k': Knife) {
    TriggerUsed(k.trigger, dt, k'.trigger) && k'.sinceStab == if ReadyToStab(cfg, k) then 0.0 else k.sinceStab + dt
  }

  /** Only the weapon in the hand is used, and money may come or go for a kill. */
  predicate ArmsUsed(cfg: Settings, l: Loadout, dt: real, l': Loadout) {
    match l.equipped
    case PrimarySlot =>
      && l' == l.(money := l'.money, primary := l'.primary) && l'.primary.Some? == l.primary.Some?
      && (l.primary.Some? ==> GunUsed(cfg, l.primary.value, dt, l'.primary.value))
    case SecondarySlot =>
      l' == l.(money := l'.money, secondary := l'.secondary) && GunUsed(cfg, l.secondary, dt, l'.secondary)
    case KnifeSlot => l' == l.(money := l'.money, knife := l'.knife) && KnifeUsed(cfg, l.knife, dt, l'.knife)
    case BombSlot => true
  }

  lemma {:induction false} HitsLeaveOthers(
    env: Env, w: World, v: Name, hits: seq<nat>, s: Source, n: Name, w': World)
    requires env.Valid() && w.Ok() && v in w.players && n in w.players && n != v
    requires w' == ReceiveHits(env, w, v, hits, s)
    ensures w'.players[n] == w.players[n]
    decreases |hits|
  {
    if hits != [] {
      HitsLeaveOthers(env, ReceiveDamage(env, w, v, hits[0], s), v, hits[1..], s, n, w');
    }
  }

  /** Nothing about a player but money and credit changes when he shoots. */
  predicate KeepsArms(p: Player, p': Player) {
    p'.loadout == p.loadout.(money := p'.loadout.money) && p'.orientation == p.orientation
  }

  lemma CreditKeepsArms(env: Env, w: World, me: Name, v: Name, bonus: nat, w': World)
    requires env.Valid() && w.Ok() && me in w.players && v in w.players && w' == CountKill(env, w, me, v, bonus)
    ensures KeepsArms(w.players[me], w'.players[me])
  {}

  lemma HitKeepsArms(env: Env, w: World, me: Name, v: Name, hits: seq<nat>, bonus: nat, w2: World, w': World)
    requires env.Valid() && w.Ok() && me in w.players && v in w.players && me != v
    requires w2 == ReceiveHits(env, w, v, hits, ByPlayer(me))
    requires w' == if w2.players[v].Alive() then w2 else CountKill(env, w2, me, v, bonus)
    ensures KeepsArms(w.players[me], w'.players[me])
  {
    HitsLeaveOthers(env, w, v, hits, ByPlayer(me), me, w2);
    if !w2.players[v].Alive() { CreditKeepsArms(env, w2, me, v, bonus, w'); }
  }

  lemma StrikeKeepsArms(
    env: Env, w: World, me: Name, angle: real, hits: seq<nat>, reach: Option<nat>, bonus: nat, w': World)
    requires env.Valid() && w.Ok() && me in w.players && w' == Strike(env, w, me, angle, hits, reach, bonus)
    ensures KeepsArms(w.players[me], w'.players[me])
  {
    match Shoot(env, w, me, angle)
    case None =>
    case Some((victim, impact)) =>
      var w1 := SetPlayer(w, me, w.players[me].(shot := Some(impact.point)));
      assert KeepsArms(w.players[me], w1.players[me]);
      if victim.Some? {
        var v, felt := victim.value, if reach.Some? && impact.t >= reach.value as real then [] else hits;
        HitKeepsArms(env, w1, me, v, felt, bonus, ReceiveHits(env, w1, v, felt, ByPlayer(me)), w');
      }
  }

  lemma {:induction false} PelletsKeepArms(
    env: Env, w: World, me: Name, center: real, i: nat, n: nat, luck: Luck, bonus: nat, w': World)
    requires env.Valid() && w.Ok() && me in w.players && i <= n
    requires w' == FirePellets(env, w, me, center, i, n, luck, bonus)
    ensures KeepsArms(w.players[me], w'.players[me])
    decreases n - i
  {
    if i < n && !w.crashed {
      var w1 := FirePellet(env, w, me, center, i, luck, bonus);
      StrikeKeepsArms(env, w, me, PelletAngle(center, i), Bullets(luck, me, i, 1), None, bonus, w1);
      PelletsKeepArms(env, w1, me, center, i + 1, n, luck, bonus, w');
    }
  }

  lemma FireKeepsArms(env: Env, w: World, me: Name, kind: GunType, luck: Luck, w': World)
    requires env.Valid() && w.Ok() && me in w.players && w' == Fire(env, w, me, kind, luck)
    ensures KeepsArms(w.players[me], w'.players[me])
  {
    var angle, bonus := w.players[me].orientation, env.cfg.Gun(kind).killBonus;
    if kind == M3 {
      PelletsKeepArms(env, w, me, angle, 0, Pellets(kind), luck, bonus, w');
    } else {
      StrikeKeepsArms(env, w, me, angle, Bullets(luck, me, 0, AmmoCost(kind)), None, bonus, w');
    }
  }

  lemma GunIsUsed(cfg: Settings, g: Gun, dt: real)
    requires cfg.Valid()
    ensures GunUsed(cfg, g, dt, UpdateGun(cfg, g, dt))
  {
    ReadyIff(cfg, g);
  }

  lemma KnifeIsUsed(cfg: Settings, k: Knife, dt: real)
    requires cfg.Valid()
    ensures KnifeUsed(cfg, k, dt, UpdateKnife(cfg, k, dt))
  {
    ReadyToStabIff(cfg, k);
  }

  /** What `w'` has in the hand that held a gun. */
  predicate GunLeft(p: Player, g': Gun, p': Player) {
    p'.loadout == if p.loadout.equipped == PrimarySlot
                  then p.loadout.(money := p'.loadout.money, primary := Some(g'))
                  else p.loadout.(money := p'.loadout.money, secondary := g')
  }

  lemma PuttingLeaves(w: World, me: Name, g: Gun, w': World)
    requires w.Ok() && me in w.players && EquippedGun(w.players[me].loadout).Some? && w' == PutGun(w, me, g)
    ensures GunLeft(w.players[me], g, w'.players[me])
  {}

  lemma GunLeftLast(p: Player, g1: Gun, p1: Player, p2: Player, g': Gun, p': Player)
    requires EquippedGun(p.loadout).Some?
    requires GunLeft(p, g1, p1) && KeepsArms(p1, p2) && GunLeft(p2, g', p')
    ensures GunLeft(p, g', p')
  {}

  lemma GunIsLeft(env: Env, w: World, me: Name, g: Gun, fires: bool, g': Gun, luck: Luck, w': World)
    requires env.Valid() && w.Ok() && me in w.players && (fires ==> g.ammo >= AmmoCost(g.kind)) && g'.kind == g.kind
    requires EquippedGun(w.players[me].loadout) == Some(g)
    requires w' == UseGun(env, w, me, g, fires, g', luck) && !w'.crashed
    ensures GunLeft(w.players[me], g', w'.players[me])
  {
    if fires {
      var w1 := PutGun(w, me, Spent(g));
      PuttingLeaves(w, me, Spent(g), w1);
      var w2 := Fire(env, w1, me, g'.kind, luck);
      FireKeepsArms(env, w1, me, g'.kind, luck, w2);
      PuttingLeaves(w2, me, g', w');
      GunLeftLast(w.players[me], Spent(g), w1.players[me], w2.players[me], g', w'.players[me]);
    } else {
      PuttingLeaves(w, me, g', w');
    }
  }

  lemma KnifeIsLeft(env: Env, w: World, me: Name, stabs: bool, k': Knife, w': World)
    requires env.Valid() && w.Ok() && me in w.players && w' == UseKnife(env, w, me, stabs, k') && !w'.crashed
    ensures var l, l' := w.players[me].loadout, w'.players[me].loadout; l' == l.(money := l'.money, knife := k')
  {
    if stabs {
      var angle, hits, reach := w.players[me].orientation, [env.cfg.knifeDamage], Some(env.cfg.knifeDistance);
      var w1 := Strike(env, w, me, angle, hits, reach, env.cfg.knifeKillBonus);
      StrikeKeepsArms(env, w, me, angle, hits, reach, env.cfg.knifeKillBonus, w1);
    }
  }

  lemma WeaponIsUsed(env: Env, w: World, me: Name, dt: real, luck: Luck, w': World)
    requires env.Valid() && w.Ok() && me in w.players && w' == UseWeapon(env, w, me, dt, luck) && !w'.crashed
    ensures ArmsUsed(env.cfg, w.players[me].loadout, dt, w'.players[me].loadout)
  {
    var cfg, l := env.cfg, w.players[me].loadout;
    match l.equipped
    case KnifeSlot =>
      KnifeIsUsed(cfg, l.knife, dt);
      KnifeIsLeft(env, w, me, CanStab(cfg, l.knife), UpdateKnife(cfg, l.knife, dt), w');
    case BombSlot =>
    case PrimarySlot =>
      if l.primary.Some? {
        var g := l.primary.value;
        GunIsUsed(cfg, g, dt);
        GunIsLeft(env, w, me, g, CanShoot(cfg, g), UpdateGun(cfg, g, dt), luck, w');
      }
    case SecondarySlot =>
      GunIsUsed(cfg, l.secondary, dt);
      GunIsLeft(env, w, me, l.secondary, CanShoot(cfg, l.secondary), UpdateGun(cfg, l.secondary, dt), luck, w');
  }

  /** After a turn of somebody who moves and fires. */
  lemma TurnUsesArms(
    env: Env, w: World, me: Name, wasPlanted: bool, frames: nat, luck: Luck, p: Player, dt: real, w': World)
    requires env.Valid() && w.Ok() && me in w.players && p == w.players[me] && !Idle(w, p, wasPlanted) && !Plants(p)
    requires dt == frames as real / env.cfg.fps as real
    requires w' == TakeTurn(env, w, me, wasPlanted, frames, luck) && !w'.crashed
    ensures ArmsUsed(env.cfg, p.loadout, dt, w'.players[me].loadout)
  {
    var p1 := Called(w, p, wasPlanted);
    var w1 := SetPlayer(w, me, p1);
    CalledOff(env, w, me, wasPlanted, frames, luck, p, p1);
    UpdateUsesArms(env, w1, me, frames, luck, p1, dt, w');
  }

  lemma UpdateUsesArms(env: Env, w: World, me: Name, frames: nat, luck: Luck, p: Player, dt: real, w': World)
    requires env.Valid() && w.Ok() && me in w.players && p == w.players[me] && p.Alive() && !p.defusing && !Plants(p)
    requires dt == frames as real / env.cfg.fps as real
    requires w' == UpdatePlayer(env, w, me, frames, luck) && !w'.crashed
    ensures ArmsUsed(env.cfg, p.loadout, dt, w'.players[me].loadout)
  {
    var w0 := SetPlayer(w, me, Cleared(p, false));
    var w1, way := UpdateWalks(env, w, me, frames, luck, p, dt, w0, w');
    WalkKeepsLoadout(env, w0, me, way, w1);
    WeaponIsUsed(env, w1, me, dt, luck, w');
  }

  lemma WalkKeepsLoadout(env: Env, w: World, me: Name, way: nat, w': World)
    requires env.Valid() && w.Ok() && me in w.players && w' == Walk(env, w, me, way)
    ensures w'.players[me].loadout == w.players[me].loadout
  {}

  // ---- The bomb in his hand

  /** He has the bomb in his hand, and it was not defused. */
  predicate Holds(w: World, p: Player, wasPlanted: bool) {
    && !Idle(w, p, wasPlanted) && p.loadout.equipped == BombSlot && p.loadout.hasBomb && w.bomb.status != Defused
  }

  function Held(t: Trigger, dt: real): real { if t.just then t.since else t.since + dt }

  /** The bomb is planted under who stands on a site with its trigger held for long enough; otherwise the time goes
      on. */
  predicate BombUsed(cfg: Settings, b: Bomb, l: Loadout, dt: real, p': Player, b': Bomb) {
    if p'.onSite && b.trigger.making && Held(b.trigger, dt) >= cfg.plantationTime as real then
      && b' == Bomb(Trigger(false, false, 0.0), Planted, true, b.sincePlanted,
                    Some(Rect(p'.rect.x + p'.rect.w / 2, p'.rect.y + p'.rect.h / 2, 100, 100)))
      && p'.loadout == l.(hasBomb := false, equipped := SecondarySlot)
    else b' == b.(trigger := Trigger(b.trigger.making, false, Held(b.trigger, dt))) && p'.loadout == l
  }

  lemma BombIsUsed(env: Env, w: World, me: Name, dt: real, l: Loadout, w': World)
    requires env.Valid() && w.Ok() && me in w.players && w.bomb.status != Defused && l == w.players[me].loadout
    requires l.equipped == BombSlot && l.hasBomb && w' == UseBomb(env, w, me, dt)
    ensures BombUsed(env.cfg, w.bomb, l, dt, w'.players[me], w'.bomb)
  {
    var p, t := w.players[me], w.bomb.trigger;
    if p.onSite && t.making && Held(t, dt) >= env.cfg.plantationTime as real {
      BombIsPlanted(env, w, me, dt, p, t, w');
    } else {
      BombIsHeld(env, w, me, dt, p, t, w');
    }
  }

  lemma BombIsPlanted(env: Env, w: World, me: Name, dt: real, p: Player, t: Trigger, w': World)
    requires env.Valid() && w.Ok() && me in w.players && w.bomb.status != Defused && p == w.players[me]
    requires p.loadout.equipped == BombSlot && p.loadout.hasBomb && t == w.bomb.trigger
    requires p.onSite && t.making && Held(t, dt) >= env.cfg.plantationTime as real && w' == UseBomb(env, w, me, dt)
    ensures w'.players[me] == p.(loadout := p.loadout.(hasBomb := false, equipped := SecondarySlot))
    ensures w'.bomb == Bomb(Trigger(false, false, 0.0), Planted, true, w.bomb.sincePlanted,
                            Some(Rect(p.rect.x + p.rect.w / 2, p.rect.y + p.rect.h / 2, 100, 100)))
  {}

  lemma BombIsHeld(env: Env, w: World, me: Name, dt: real, p: Player, t: Trigger, w': World)
    requires env.Valid() && w.Ok() && me in w.players && w.bomb.status != Defused && p == w.players[me]
    requires t == w.bomb.trigger && w' == UseBomb(env, w, me, dt)
    requires !(p.onSite && t.making && Held(t, dt) >= env.cfg.plantationTime as real)
    ensures w'.players == w.players && w'.bomb == w.bomb.(trigger := Trigger(t.making, false, Held(t, dt)))
  {}

  lemma WeaponLeavesBomb(env: Env, w: World, me: Name, dt: real, luck: Luck, w': World)
    requires env.Valid() && w.Ok() && me in w.players && w' == UseWeapon(env, w, me, dt, luck)
    requires var l := w.players[me].loadout; l.equipped != BombSlot || !l.hasBomb || w.bomb.status == Defused
    ensures w'.bomb == w.bomb
  {}

  lemma UpdateUsesBomb(env: Env, w: World, me: Name, frames: nat, luck: Luck, p: Player, dt: real, w': World)
    requires env.Valid() && w.Ok() && me in w.players && p == w.players[me]
    requires dt == frames as real / env.cfg.fps as real && w' == UpdatePlayer(env, w, me, frames, luck)
    ensures if p.life > 0 && !p.defusing && p.loadout.equipped == BombSlot && p.loadout.hasBomb
               && w.bomb.status != Defused
            then BombUsed(env.cfg, w.bomb, p.loadout, dt, w'.players[me], w'.bomb)
            else w'.bomb == w.bomb
  {
    if p.life == 0 || p.defusing {
      UpdateIdle(env, w, me, frames, luck, p, w');
    } else if Plants(p) {
      var w0 := SetPlayer(w, me, Cleared(p, true));
      UpdatePlants(env, w, me, frames, luck, p, dt, w0, w');
      if w.bomb.status != Defused { BombIsUsed(env, w0, me, dt, p.loadout, w'); }
    } else {
      var w0 := SetPlayer(w, me, Cleared(p, false));
      var w1, way := UpdateWalks(env, w, me, frames, luck, p, dt, w0, w');
      WalkKeepsLoadout(env, w0, me, way, w1);
      if p.loadout.equipped != BombSlot || !p.loadout.hasBomb || w.bomb.status == Defused {
        WeaponLeavesBomb(env, w1, me, dt, luck, w');
      } else {
        BombIsUsed(env, w1, me, dt, p.loadout, w');
      }
    }
  }

  /** A turn of who has the bomb in his hand uses it, and plants it exactly if he has held its trigger long enough
      and stands on a site ... */
  lemma TurnUsesBomb(
    env: Env, w: World, me: Name, wasPlanted: bool, frames: nat, luck: Luck, p: Player, dt: real, w': World)
    requires env.Valid() && w.Ok() && me in w.players && p == w.players[me] && Holds(w, p, wasPlanted)
    requires dt == frames as real / env.cfg.fps as real && w' == TakeTurn(env, w, me, wasPlanted, frames, luck)
    ensures BombUsed(env.cfg, w.bomb, p.loadout, dt, w'.players[me], w'.bomb)
  {
    var p1 := Called(w, p, wasPlanted);
    var w1 := SetPlayer(w, me, p1);
    CalledOff(env, w, me, wasPlanted, frames, luck, p, p1);
    UpdateUsesBomb(env, w1, me, frames, luck, p1, dt, w');
  }

  /** ... and no other turn touches the bomb. */
  lemma TurnLeavesBomb(
    env: Env, w: World, me: Name, wasPlanted: bool, frames: nat, luck: Luck, p: Player, w': World)
    requires env.Valid() && w.Ok() && me in w.players && p == w.players[me] && !Holds(w, p, wasPlanted)
    requires w' == TakeTurn(env, w, me, wasPlanted, frames, luck)
    ensures w'.bomb == w.bomb
  {
    var p1 := Called(w, p, wasPlanted);
    var w1 := SetPlayer(w, me, p1);
    CalledOff(env, w, me, wasPlanted, frames, luck, p, p1);
    UpdateUsesBomb(env, w1, me, frames, luck, p1, frames as real / env.cfg.fps as real, w');
  }

  // ---- The whole tick

  lemma {:induction false} VolleyMovesNobody(
    cfg: Settings, blocks: seq<Rect>, s: Scene, me: Name, shots: seq<Shot>, s': Scene, thrown: bool)
    requires VolleyLeads(cfg, blocks, s, me, shots, s', thrown)
    ensures InPlace(s, s')
    decreases |shots|
  {
    if shots != [] {
      var s1, lost :| VolleyGoesOn(cfg, blocks, s, me, shots[0], s1, lost)
        && if lost then s' == s1 && thrown else VolleyLeads(cfg, blocks, s1, me, shots[1..], s', thrown);
      ShotMovesNobody(cfg, blocks, s, me, shots[0].ray, shots[0].blow, s1, lost);
      if !lost { VolleyMovesNobody(cfg, blocks, s1, me, shots[1..], s', thrown); }
    }
  }

  /** Nobody comes or goes, or changes his size. */
  ghost predicate SameSizes(s: Scene, s': Scene) {
    && s'.joined == s.joined && s'.bodies.Keys == s.bodies.Keys
    && forall n <- s.bodies :: s'.bodies[n].rect.w == s.bodies[n].rect.w && s'.bodies[n].rect.h == s.bodies[n].rect.h
  }

  lemma SizesKeepRange(env: Env, heading: real -> Vec, w: World, s: Scene, w': World, s': Scene)
    requires Range(env, heading, w) && w'.Ok() && s == SceneOf(w) && s' == SceneOf(w') && SameSizes(s, s')
    ensures Range(env, heading, w')
  {}

  lemma GoingKeepsSizes(
    env: Env, heading: real -> Vec, s: Scene, me: Name, p: Player, way: nat, luck: Luck, dx: int, dy: int, s': Scene,
    thrown: bool)
    requires GoesAndFires(env, heading, s, me, p, way, luck, dx, dy, s', thrown) && s.bodies[me].rect == p.rect
    ensures SameSizes(s, s')
  {
    var ts := TargetsOf(env.statics, s, me);
    var r := MakeStep(ts, p.rect, dx, dy);
    StepKeepsSize(ts, p.rect, dx, dy);
    var shots := Deeds(env.cfg, heading, p, r, luck, me);
    VolleyMovesNobody(env.cfg, env.statics, Stands(s, me, r, env.sites), me, shots, s', thrown);
  }

  lemma BeginsInPlace(s: Scene, n: Name, planting: bool, defusing: bool)
    requires n in s.bodies
    ensures SameSizes(s, Begins(s, n, planting, defusing))
    ensures Begins(s, n, planting, defusing).bodies[n].rect == s.bodies[n].rect
  {}

  lemma SizesTrans(s: Scene, s1: Scene, s2: Scene)
    requires SameSizes(s, s1) && SameSizes(s1, s2)
    ensures SameSizes(s, s2)
  {}

  lemma TurnKeepsSizes(
    env: Env, heading: real -> Vec, w: World, me: Name, wasPlanted: bool, frames: nat, luck: Luck, p: Player, s: Scene,
    w': World)
    requires Range(env, heading, w) && me in w.players && !w.crashed && p == w.players[me]
    requires s == Begins(SceneOf(w), me, !Idle(w, p, wasPlanted) && Plants(p), StillDefuses(w, p, wasPlanted))
    requires w' == TakeTurn(env, w, me, wasPlanted, frames, luck)
    ensures SameSizes(s, SceneOf(w'))
  {
    BeginsInPlace(SceneOf(w), me, !Idle(w, p, wasPlanted) && Plants(p), StillDefuses(w, p, wasPlanted));
    if Idle(w, p, wasPlanted) || Plants(p) {
      TurnStands(env, w, me, wasPlanted, frames, luck, p, s, w');
    } else {
      var way, dx, dy := TurnLeads(env, heading, w, me, wasPlanted, frames, luck, p, s, w');
      GoingKeepsSizes(env, heading, s, me, p, way, luck, dx, dy, SceneOf(w'), w'.crashed);
    }
  }

  lemma TurnKeepsRange(
    env: Env, heading: real -> Vec, w: World, me: Name, wasPlanted: bool, frames: nat, luck: Luck, w': World)
    requires Range(env, heading, w) && me in w.players && !w.crashed
    requires w' == TakeTurn(env, w, me, wasPlanted, frames, luck)
    ensures Range(env, heading, w')
  {
    var p := w.players[me];
    var planting, defusing := !Idle(w, p, wasPlanted) && Plants(p), StillDefuses(w, p, wasPlanted);
    var s := Begins(SceneOf(w), me, planting, defusing);
    BeginsInPlace(SceneOf(w), me, planting, defusing);
    TurnKeepsSizes(env, heading, w, me, wasPlanted, frames, luck, p, s, w');
    SizesTrans(SceneOf(w), s, SceneOf(w'));
    SizesKeepRange(env, heading, w, SceneOf(w), w', SceneOf(w'));
  }

  /** The worlds between the turns of the players, from the i-th on, each of whom has one turn unless a shot throws. */
  ghost predicate TurnsOf(
    env: Env, heading: real -> Vec, i: nat, wasPlanted: bool, frames: nat, luck: Luck, ws: seq<World>)
  {
    && |ws| > 0 && (forall k :: 0 <= k < |ws| ==> Range(env, heading, ws[k]))
    && (forall k :: 0 <= k < |ws| ==> ws[k].order == ws[0].order)
    && i + |ws| - 1 <= |ws[0].order| && (i + |ws| - 1 < |ws[0].order| ==> ws[|ws| - 1].crashed)
    && forall k :: 0 <= k < |ws| - 1 ==> TakesTurn(env, ws, ws[0].order, i, k, wasPlanted, frames, luck)
  }

  /** From the k-th world to the next. */
  ghost predicate TakesTurn(
    env: Env, ws: seq<World>, order: seq<Name>, i: nat, k: nat, wasPlanted: bool, frames: nat, luck: Luck)
    requires env.Valid() && k + 1 < |ws| && ws[k].Ok() && i + k < |order|
  {
    && !ws[k].crashed && order[i + k] in ws[k].players
    && ws[k + 1] == TakeTurn(env, ws[k], order[i + k], wasPlanted, frames, luck)
  }

  lemma OneMoreTurn(env: Env, heading: real -> Vec, i: nat, wasPlanted: bool, frames: nat, luck: Luck, w: World,
                    rest: seq<World>)
    requires Range(env, heading, w) && TurnsOf(env, heading, i + 1, wasPlanted, frames, luck, rest)
    requires i < |w.order| && rest[0].order == w.order && !w.crashed
    requires rest[0] == TakeTurn(env, w, w.order[i], wasPlanted, frames, luck)
    ensures TurnsOf(env, heading, i, wasPlanted, frames, luck, [w] + rest)
  {
    var ws := [w] + rest;
    forall k | 0 <= k < |ws| - 1 ensures TakesTurn(env, ws, w.order, i, k, wasPlanted, frames, luck) {
      if k > 0 { assert TakesTurn(env, rest, rest[0].order, i + 1, k - 1, wasPlanted, frames, luck); }
    }
  }

  lemma {:induction false} TurnsAreTaken(
    env: Env, heading: real -> Vec, w: World, i: nat, wasPlanted: bool, frames: nat, luck: Luck, w': World)
    returns (ws: seq<World>)
    requires Range(env, heading, w) && i <= |w.order| && w' == TakeTurns(env, w, i, wasPlanted, frames, luck)
    ensures TurnsOf(env, heading, i, wasPlanted, frames, luck, ws) && ws[0] == w && ws[|ws| - 1] == w'
    decreases |w.order| - i
  {
    if i == |w.order| || w.crashed {
      ws := [w];
    } else {
      var w1 := TakeTurn(env, w, w.order[i], wasPlanted, frames, luck);
      TurnKeepsRange(env, heading, w, w.order[i], wasPlanted, frames, luck, w1);
      var rest := TurnsAreTaken(env, heading, w1, i + 1, wasPlanted, frames, luck, w');
      OneMoreTurn(env, heading, i, wasPlanted, frames, luck, w, rest);
      ws := [w] + rest;
    }
  }

  /** A tick is the burning of the fuse and one turn for each player in the order of the map, of which the theorems
      above say what it leads to. */
  lemma TickIsTurns(env: Env, heading: real -> Vec, w: World, frames: nat, luck: Luck, w': World)
    returns (ws: seq<World>)
    requires Range(env, heading, w) && !w.crashed && Lists(w.order, w.players.Keys) && env.cfg.explosionRadius > 0
    requires w' == Tick(env, w, frames, luck)
    ensures TurnsOf(env, heading, 0, w.bomb.status == Planted, frames, luck, ws)
    ensures ws[0] == BurnFuse(env, w, frames) && ws[|ws| - 1] == w'
  {
    var w1 := BurnFuse(env, w, frames);
    ExplosionHurts(env, w, frames, w1);
    assert SameSizes(SceneOf(w), SceneOf(w1));
    SizesKeepRange(env, heading, w, SceneOf(w), w1, SceneOf(w1));
    ws := TurnsAreTaken(env, heading, w1, 0, w.bomb.status == Planted, frames, luck, w');
  }
}
