/** Where the shots of a game go and whom they hurt (src/server/gun.cpp, ak47.cpp, m3.cpp, knife.cpp, shot.cpp), said of
    scenes and rays, without the functions that fire. */
module Shooting {
  import opened Basics
  import opened Settings
  import opened Geometry
  import opened Slide
  import opened Arms
  import opened World
  import opened Wounds

  // ---- What is in the way of a shot

  /** A block or wall of the map, or one of the players, as `joined` lists them. */
  datatype Obstacle = Block(index: nat) | Person(index: nat)

  /** On the way of a ray at `t`: a block or wall, or somebody else who is alive. */
  predicate Meets(blocks: seq<Rect>, s: Scene, me: Name, ray: Ray, o: Obstacle, t: real) {
    match o
    case Block(i) => i < |blocks| && Crosses(ray, blocks[i], t)
    case Person(i) =>
      && i < |s.joined| && s.joined[i] != me && s.joined[i] in s.bodies
      && s.bodies[s.joined[i]].life > 0 && Crosses(ray, s.bodies[s.joined[i]].rect, t)
  }

  predicate Before(a: Obstacle, b: Obstacle) {
    if a.Block? == b.Block? then a.index < b.index else a.Block?
  }

  /** The nearest of all that, at the same distance blocks before players. */
  ghost predicate FirstMet(blocks: seq<Rect>, s: Scene, me: Name, ray: Ray, o: Obstacle, t: real) {
    && Meets(blocks, s, me, ray, o, t)
    && forall o', t' :: Meets(blocks, s, me, ray, o', t') ==> t < t' || (t == t' && !Before(o', o))
  }

  ghost predicate NothingMet(blocks: seq<Rect>, s: Scene, me: Name, ray: Ray) {
    forall o, t :: !Meets(blocks, s, me, ray, o, t)
  }

  ghost predicate HaveArea(blocks: seq<Rect>, s: Scene) {
    && (forall b <- blocks :: b.w > 0 && b.h > 0)
    && forall n <- s.bodies :: s.bodies[n].rect.w > 0 && s.bodies[n].rect.h > 0
  }

  function TargetsOf(blocks: seq<Rect>, s: Scene, me: Name): (ts: seq<Target>)
    requires forall n <- s.joined :: n in s.bodies
    ensures |ts| == |blocks| + |s.joined|
  {
    seq(|blocks|, i requires 0 <= i < |blocks| => Target(blocks[i], true))
    + seq(|s.joined|, i requires 0 <= i < |s.joined| =>
          Target(s.bodies[s.joined[i]].rect, s.joined[i] != me && s.bodies[s.joined[i]].life > 0))
  }

  function IndexOf(blocks: seq<Rect>, o: Obstacle): nat { if o.Block? then o.index else |blocks| + o.index }

  lemma MeetsTarget(blocks: seq<Rect>, s: Scene, me: Name, ray: Ray, ts: seq<Target>, o: Obstacle, t: real)
    requires (forall n <- s.joined :: n in s.bodies) && ts == TargetsOf(blocks, s, me)
    requires o.Block? ==> o.index < |blocks|
    ensures Meets(blocks, s, me, ray, o, t) <==>
            var i := IndexOf(blocks, o); i < |ts| && ts[i].solid && Crosses(ray, ts[i].rect, t)
  {}

  lemma NothingSolidBefore(ray: Ray, ts: seq<Target>, h: Option<Hit>, i: nat, t: real)
    requires h == Nearest(ray, ts) && i < |ts| && ts[i].solid && ts[i].rect.w > 0 && ts[i].rect.h > 0
    requires Crosses(ray, ts[i].rect, t)
    ensures h.Some? && (h.value.impact.t < t || (h.value.impact.t == t && h.value.index <= i))
  {
    NearestIsNearest(ray, ts);
    ImpactsIsNearestCrossing(ray, ts[i].rect);
  }

  lemma HitCrosses(ray: Ray, ts: seq<Target>, h: Hit)
    requires Nearest(ray, ts) == Some(h) && h.index < |ts| && ts[h.index].rect.w > 0 && ts[h.index].rect.h > 0
    ensures ts[h.index].solid && Crosses(ray, ts[h.index].rect, h.impact.t) && h.impact.point == ray.At(h.impact.t)
  {
    NearestIsNearest(ray, ts);
    ImpactsIsNearestCrossing(ray, ts[h.index].rect);
  }

  lemma TargetsHaveArea(blocks: seq<Rect>, s: Scene, me: Name, i: nat)
    requires (forall n <- s.joined :: n in s.bodies) && HaveArea(blocks, s) && i < |TargetsOf(blocks, s, me)|
    ensures var r := TargetsOf(blocks, s, me)[i].rect; r.w > 0 && r.h > 0
  {}

  /** The ray caster finds what is met first. */
  lemma CasterFinds(blocks: seq<Rect>, s: Scene, me: Name, ray: Ray, ts: seq<Target>, h: Option<Hit>)
    requires (forall n <- s.joined :: n in s.bodies) && HaveArea(blocks, s)
    requires ts == TargetsOf(blocks, s, me) && h == Nearest(ray, ts)
    ensures match h
            case None => NothingMet(blocks, s, me, ray)
            case Some(hit) =>
              && hit.index < |ts| && hit.impact.point == ray.At(hit.impact.t)
              && FirstMet(blocks, s, me, ray, ObstacleAt(blocks, hit.index), hit.impact.t)
  {
    forall o, t | Meets(blocks, s, me, ray, o, t)
      ensures h.Some?
      ensures h.value.impact.t < t || (h.value.impact.t == t && !Before(o, ObstacleAt(blocks, h.value.index)))
    {
      MeetsTarget(blocks, s, me, ray, ts, o, t);
      TargetsHaveArea(blocks, s, me, IndexOf(blocks, o));
      NothingSolidBefore(ray, ts, h, IndexOf(blocks, o), t);
    }
    if h.Some? {
      TargetsHaveArea(blocks, s, me, h.value.index);
      HitCrosses(ray, ts, h.value);
      MeetsTarget(blocks, s, me, ray, ts, ObstacleAt(blocks, h.value.index), h.value.impact.t);
    }
  }

  function ObstacleAt(blocks: seq<Rect>, i: nat): Obstacle { if i < |blocks| then Block(i) else Person(i - |blocks|) }

  // ---- One shot

  /** What a shot does to a player met within `reach`, and what killing an enemy earns. */
  datatype Blow = Blow(damage: nat, reach: Option<nat>, bonus: nat)

  /** Who has killed an enemy earns the bonus, in money of 16 bits; who has killed a teammate loses the penalty, as far
      as there is money. */
  function Paid(cfg: Settings, b: Body, teammates: bool, bonus: nat): Body {
    if teammates then b.(money := Max(0, b.money - cfg.teamKillPenalty), bonus := b.bonus - cfg.teamKillPenalty)
    else b.(money := (b.money + bonus) % 0x1_0000, bonus := b.bonus + bonus)
  }

  /** The scene after `me` has met `o` at `t`: only a player met within reach loses life, and only the shooter
      gets or loses money, if that was his death. */
  function After(cfg: Settings, s: Scene, me: Name, b: Blow, o: Obstacle, t: real): Scene
    requires me in s.bodies && (o.Person? ==> o.index < |s.joined| && s.joined[o.index] in s.bodies)
  {
    if o.Block? || (b.reach.Some? && t >= b.reach.value as real) then s
    else
      var v := s.joined[o.index];
      var s1 := Wounded(s, v, b.damage);
      if s1.bodies[v].life > 0 then s1
      else s1.(bodies := s1.bodies[me := Paid(cfg, s1.bodies[me], s.bodies[me].team == s.bodies[v].team, b.bonus)])
  }

  function Shows(s: Scene, n: Name, p: Option<Vec>): Scene
    requires n in s.bodies
  {
    s.(bodies := s.bodies[n := s.bodies[n].(shot := p)])
  }

  /** A shot along a ray: it is shown where it first meets something; one that meets nothing throws. */
  ghost predicate ShotLeads(
    cfg: Settings, blocks: seq<Rect>, s: Scene, me: Name, ray: Ray, b: Blow, s': Scene, thrown: bool)
  {
    && me in s.bodies && (forall n <- s.joined :: n in s.bodies)
    && if thrown then NothingMet(blocks, s, me, ray) && s' == s
       else exists o, t ::
              FirstMet(blocks, s, me, ray, o, t) && s' == After(cfg, Shows(s, me, Some(ray.At(t))), me, b, o, t)
  }

  /** From the middle of somebody's rectangle, in the direction of an angle. */
  function RayFrom(heading: real -> Vec, r: Rect, angle: real): Ray {
    Ray(Vec((r.x + r.w / 2) as real, (r.y + r.h / 2) as real), heading(angle))
  }

  lemma ScenesAgree(w: World, blocks: seq<Rect>, env: Env, me: Name)
    requires w.Ok() && env.statics == blocks
    ensures Targets(env, w, me) == TargetsOf(blocks, SceneOf(w), me)
  {}

  lemma PenalizedBody(cfg: Settings, p: Player)
    ensures BodyOf(Penalized(cfg, p)) == Paid(cfg, BodyOf(p), true, 0)
  {}

  lemma RewardedBody(cfg: Settings, p: Player, bonus: nat)
    ensures BodyOf(Rewarded(p, bonus)) == Paid(cfg, BodyOf(p), false, bonus)
  {}

  lemma CreditIs(env: Env, w: World, me: Name, v: Name, bonus: nat, w': World, s: Scene)
    requires env.Valid() && w.Ok() && me in w.players && v in w.players && w' == CountKill(env, w, me, v, bonus)
    requires s == SceneOf(w)
    ensures w'.crashed == w.crashed
    ensures var teammates := s.bodies[me].team == s.bodies[v].team;
            SceneOf(w') == s.(bodies := s.bodies[me := Paid(env.cfg, s.bodies[me], teammates, bonus)])
  {
    var p := w.players[me];
    if Teammates(w, me, v) {
      PenalizedBody(env.cfg, p);
      SetBody(w, me, Penalized(env.cfg, p), w');
    } else {
      RewardedBody(env.cfg, p, bonus);
      SetBody(w, me, Rewarded(p, bonus), w');
    }
  }

  /** The world of a shot: everything has an area, and shots are cast by Geometry's caster. */
  ghost predicate Range(env: Env, heading: real -> Vec, w: World) {
    && env.Valid() && w.Ok() && HaveArea(env.statics, SceneOf(w))
    && env == Arena(env.cfg, env.statics, env.sites, heading)
  }

  lemma CasterIs(env: Env, heading: real -> Vec, w: World, me: Name, angle: real, ray: Ray, h: Option<Hit>)
    requires Range(env, heading, w) && me in w.players && ray == RayFrom(heading, w.players[me].rect, angle)
    requires h == Nearest(ray, TargetsOf(env.statics, SceneOf(w), me))
    ensures env.caster(w.players[me].rect, angle, Targets(env, w, me)) == h
  {
    ScenesAgree(w, env.statics, env, me);
  }

  /** Whom the world's shot finds. */
  lemma ShootFinds(env: Env, heading: real -> Vec, w: World, me: Name, angle: real, ray: Ray, s: Scene)
    returns (o: Obstacle)
    requires Range(env, heading, w) && me in w.players && ray == RayFrom(heading, w.players[me].rect, angle)
    requires s == SceneOf(w)
    ensures match Shoot(env, w, me, angle)
            case None => NothingMet(env.statics, s, me, ray)
            case Some((v, impact)) =>
              && FirstMet(env.statics, s, me, ray, o, impact.t) && impact.point == ray.At(impact.t)
              && o.Person? == v.Some? && (v.Some? ==> o.index < |s.joined| && s.joined[o.index] == v.value)
  {
    var ts := TargetsOf(env.statics, s, me);
    var h := Nearest(ray, ts);
    CasterIs(env, heading, w, me, angle, ray, h);
    CasterFinds(env.statics, s, me, ray, ts, h);
    o := if h.Some? then ObstacleAt(env.statics, h.value.index) else Block(0);
  }

  lemma ShotIsShown(w: World, me: Name, p: Vec, w': World)
    requires w.Ok() && me in w.players && w' == SetPlayer(w, me, w.players[me].(shot := Some(p)))
    ensures w'.crashed == w.crashed && SceneOf(w') == Shows(SceneOf(w), me, Some(p))
  {
    SetBody(w, me, w.players[me].(shot := Some(p)), w');
  }

  lemma HitLeads(
    env: Env, w: World, me: Name, v: Name, hits: seq<nat>, bonus: nat, w': World, b: Blow, o: Obstacle, t: real)
    requires env.Valid() && w.Ok() && me in w.players && v in w.players && me != v
    requires var w2 := ReceiveHits(env, w, v, hits, ByPlayer(me));
             w' == if w2.players[v].Alive() then w2 else CountKill(env, w2, me, v, bonus)
    requires o.Person? && o.index < |w.joined| && w.joined[o.index] == v
    requires b.damage == Sum(hits) && b.bonus == bonus && (b.reach.Some? ==> t < b.reach.value as real)
    ensures w'.crashed == w.crashed && SceneOf(w') == After(env.cfg, SceneOf(w), me, b, o, t)
  {
    var w2, s := ReceiveHits(env, w, v, hits, ByPlayer(me)), SceneOf(w);
    HitsAreTaken(env, w, v, hits, ByPlayer(me), w2);
    assert SceneOf(w2).bodies[v].life == w2.players[v].life;
    if !w2.players[v].Alive() { CreditIs(env, w2, me, v, bonus, w', SceneOf(w2)); }
  }

  /** Every shot of the game goes where a shot goes. */
  lemma StrikeLeads(
    env: Env, heading: real -> Vec, w: World, me: Name, angle: real, hits: seq<nat>, reach: Option<nat>, bonus: nat,
    s: Scene, ray: Ray, w': World)
    requires Range(env, heading, w) && me in w.players && !w.crashed
    requires w' == Strike(env, w, me, angle, hits, reach, bonus)
    requires s == SceneOf(w) && ray == RayFrom(heading, w.players[me].rect, angle)
    ensures ShotLeads(env.cfg, env.statics, s, me, ray, Blow(Sum(hits), reach, bonus), SceneOf(w'), w'.crashed)
  {
    var b := Blow(Sum(hits), reach, bonus);
    var o := ShootFinds(env, heading, w, me, angle, ray, s);
    match Shoot(env, w, me, angle)
    case None => SameScene(w, w');
    case Some((victim, impact)) =>
      var w1 := SetPlayer(w, me, w.players[me].(shot := Some(impact.point)));
      ShotIsShown(w, me, impact.point, w1);
      if victim.Some? {
        if reach.Some? && impact.t >= reach.value as real {
          assert w' == w1;
        } else {
          HitLeads(env, w1, me, victim.value, hits, bonus, w', b, o, impact.t);
        }
      }
      assert SceneOf(w') == After(env.cfg, Shows(s, me, Some(ray.At(impact.t))), me, b, o, impact.t);
  }

  // ---- Several shots of one weapon

  datatype Shot = Shot(ray: Ray, blow: Blow)

  /** Shots one after the other, until one throws. */
  ghost predicate VolleyLeads(
    cfg: Settings, blocks: seq<Rect>, s: Scene, me: Name, shots: seq<Shot>, s': Scene, thrown: bool)
    decreases |shots|
  {
    if shots == [] then s' == s && !thrown
    else exists s1, lost :: VolleyGoesOn(cfg, blocks, s, me, shots[0], s1, lost)
           && if lost then s' == s1 && thrown else VolleyLeads(cfg, blocks, s1, me, shots[1..], s', thrown)
  }

  ghost predicate VolleyGoesOn(
    cfg: Settings, blocks: seq<Rect>, s: Scene, me: Name, shot: Shot, s1: Scene, lost: bool)
  {
    ShotLeads(cfg, blocks, s, me, shot.ray, shot.blow, s1, lost)
  }

  /** The damage of one bullet, which lack of precision makes nothing. */
  function DamageOf(luck: Luck, me: Name, bullet: nat): nat {
    match luck(me, bullet)
    case None => 0
    case Some(damage) => damage
  }

  /** What a gun fires from the middle of `r` at an angle: eight pellets in a cone of 30 degrees, three bullets along
      one ray, or one. */
  function GunShots(
    cfg: Settings, heading: real -> Vec, r: Rect, a: real, kind: GunType, luck: Luck, me: Name): seq<Shot>
  {
    var bonus := cfg.Gun(kind).killBonus;
    var pellet := (turn, i: nat) => Shot(RayFrom(heading, r, a + turn), Blow(DamageOf(luck, me, i), None, bonus));
    match kind
    case M3 =>
      [pellet(-13.125, 0), pellet(-9.375, 1), pellet(-5.625, 2), pellet(-1.875, 3),
       pellet(1.875, 4), pellet(5.625, 5), pellet(9.375, 6), pellet(13.125, 7)]
    case Ak47 =>
      var damage := DamageOf(luck, me, 0) + DamageOf(luck, me, 1) + DamageOf(luck, me, 2);
      [Shot(RayFrom(heading, r, a), Blow(damage, None, bonus))]
    case _ => [Shot(RayFrom(heading, r, a), Blow(DamageOf(luck, me, 0), None, bonus))]
  }

  lemma OneBullet(luck: Luck, me: Name, i: nat)
    ensures Sum(Bullets(luck, me, i, 1)) == DamageOf(luck, me, i)
  {
    SumOfBullets(luck, me, i, 1);
  }

  lemma ThreeBullets(luck: Luck, me: Name)
    ensures Sum(Bullets(luck, me, 0, 3)) == DamageOf(luck, me, 0) + DamageOf(luck, me, 1) + DamageOf(luck, me, 2)
  {
    SumOfBullets(luck, me, 2, 1);
    SumOfBullets(luck, me, 1, 2);
    SumOfBullets(luck, me, 0, 3);
  }

  lemma SumOfBullets(luck: Luck, me: Name, from: nat, n: nat)
    requires n > 0
    ensures Sum(Bullets(luck, me, from, n)) == DamageOf(luck, me, from) + Sum(Bullets(luck, me, from + 1, n - 1))
  {
    var rest := Bullets(luck, me, from + 1, n - 1);
    if luck(me, from).Some? { assert ([luck(me, from).value] + rest)[1..] == rest; }
  }

  /** Nobody moves, comes or goes. */
  ghost predicate InPlace(s: Scene, s': Scene) {
    && s'.joined == s.joined && s'.bodies.Keys == s.bodies.Keys
    && forall n <- s.bodies :: s'.bodies[n].rect == s.bodies[n].rect
  }

  lemma ShotMovesNobody(
    cfg: Settings, blocks: seq<Rect>, s: Scene, me: Name, ray: Ray, b: Blow, s': Scene, thrown: bool)
    requires ShotLeads(cfg, blocks, s, me, ray, b, s', thrown)
    ensures InPlace(s, s')
  {}

  lemma RangeStays(env: Env, heading: real -> Vec, w: World, me: Name, s: Scene, w': World, s': Scene)
    requires Range(env, heading, w) && w'.Ok() && me in w.players && s == SceneOf(w) && s' == SceneOf(w')
    requires InPlace(s, s')
    ensures Range(env, heading, w') && me in w'.players && w'.players[me].rect == w.players[me].rect
  {
    assert s'.bodies.Keys == w'.players.Keys;
    assert s'.bodies[me].rect == s.bodies[me].rect;
  }

  lemma PelletShot(cfg: Settings, heading: real -> Vec, r: Rect, a: real, i: nat, luck: Luck, me: Name, shot: Shot)
    requires i < 8 && shot == GunShots(cfg, heading, r, a, M3, luck, me)[i]
    ensures shot.ray == RayFrom(heading, r, PelletAngle(a, i))
    ensures shot.blow == Blow(DamageOf(luck, me, i), None, cfg.m3.killBonus)
  {}

  lemma PelletLeads(
    env: Env, heading: real -> Vec, w: World, me: Name, r: Rect, a: real, i: nat, luck: Luck, shot: Shot, w': World)
    requires Range(env, heading, w) && me in w.players && !w.crashed && i < 8 && w.players[me].rect == r
    requires shot.ray == RayFrom(heading, r, PelletAngle(a, i))
    requires shot.blow == Blow(DamageOf(luck, me, i), None, env.cfg.m3.killBonus)
    requires w' == FirePellet(env, w, me, a, i, luck, env.cfg.m3.killBonus)
    ensures ShotLeads(env.cfg, env.statics, SceneOf(w), me, shot.ray, shot.blow, SceneOf(w'), w'.crashed)
  {
    OneBullet(luck, me, i);
    var bullets, angle := Bullets(luck, me, i, 1), PelletAngle(a, i);
    StrikeLeads(env, heading, w, me, angle, bullets, None, env.cfg.m3.killBonus, SceneOf(w), shot.ray, w');
  }

  lemma {:induction false} PelletsLead(
    env: Env, heading: real -> Vec, w: World, me: Name, r: Rect, a: real, i: nat, luck: Luck, shots: seq<Shot>,
    w': World)
    requires Range(env, heading, w) && me in w.players && !w.crashed && i <= 8 && w.players[me].rect == r
    requires shots == GunShots(env.cfg, heading, r, a, M3, luck, me)
    requires w' == FirePellets(env, w, me, a, i, 8, luck, env.cfg.m3.killBonus)
    ensures VolleyLeads(env.cfg, env.statics, SceneOf(w), me, shots[i..], SceneOf(w'), w'.crashed)
    decreases 8 - i
  {
    if i < 8 {
      var w1 := FirePellet(env, w, me, a, i, luck, env.cfg.m3.killBonus);
      PelletShot(env.cfg, heading, r, a, i, luck, me, shots[i]);
      PelletLeads(env, heading, w, me, r, a, i, luck, shots[i], w1);
      ShotMovesNobody(
        env.cfg, env.statics, SceneOf(w), me, shots[i].ray, shots[i].blow, SceneOf(w1), w1.crashed);
      RangeStays(env, heading, w, me, SceneOf(w), w1, SceneOf(w1));
      if !w1.crashed { PelletsLead(env, heading, w1, me, r, a, i + 1, luck, shots, w'); }
      assert shots[i..][1..] == shots[i + 1..];
      assert VolleyGoesOn(env.cfg, env.statics, SceneOf(w), me, shots[i], SceneOf(w1), w1.crashed);
    }
  }

  lemma BulletShot(cfg: Settings, heading: real -> Vec, r: Rect, a: real, kind: GunType, luck: Luck, me: Name)
    requires kind != M3
    ensures GunShots(cfg, heading, r, a, kind, luck, me)
            == [Shot(RayFrom(heading, r, a),
                     Blow(Sum(Bullets(luck, me, 0, AmmoCost(kind))), None, cfg.Gun(kind).killBonus))]
  {
    OneBullet(luck, me, 0);
    ThreeBullets(luck, me);
  }

  lemma BulletsLead(env: Env, heading: real -> Vec, w: World, me: Name, r: Rect, a: real, hits: seq<nat>, bonus: nat,
                    reach: Option<nat>, shots: seq<Shot>, w': World)
    requires Range(env, heading, w) && me in w.players && !w.crashed && w.players[me].rect == r
    requires shots == [Shot(RayFrom(heading, r, a), Blow(Sum(hits), reach, bonus))]
    requires w' == Strike(env, w, me, a, hits, reach, bonus)
    ensures VolleyLeads(env.cfg, env.statics, SceneOf(w), me, shots, SceneOf(w'), w'.crashed)
  {
    StrikeLeads(env, heading, w, me, a, hits, reach, bonus, SceneOf(w), shots[0].ray, w');
    OneShot(env.cfg, env.statics, SceneOf(w), me, shots, SceneOf(w'), w'.crashed);
  }

  lemma FireLeads(env: Env, heading: real -> Vec, w: World, me: Name, r: Rect, a: real, kind: GunType, luck: Luck,
                  shots: seq<Shot>, w': World)
    requires Range(env, heading, w) && me in w.players && !w.crashed && w' == Fire(env, w, me, kind, luck)
    requires r == w.players[me].rect && a == w.players[me].orientation
    requires shots == GunShots(env.cfg, heading, r, a, kind, luck, me)
    ensures VolleyLeads(env.cfg, env.statics, SceneOf(w), me, shots, SceneOf(w'), w'.crashed)
  {
    if kind == M3 {
      PelletsLead(env, heading, w, me, r, a, 0, luck, shots, w');
      assert shots[0..] == shots;
    } else {
      var hits := Bullets(luck, me, 0, AmmoCost(kind));
      BulletShot(env.cfg, heading, r, a, kind, luck, me);
      BulletsLead(env, heading, w, me, r, a, hits, env.cfg.Gun(kind).killBonus, None, shots, w');
    }
  }

  lemma OneShot(
    cfg: Settings, blocks: seq<Rect>, s: Scene, me: Name, shots: seq<Shot>, s': Scene, thrown: bool)
    requires |shots| == 1 && ShotLeads(cfg, blocks, s, me, shots[0].ray, shots[0].blow, s', thrown)
    ensures VolleyLeads(cfg, blocks, s, me, shots, s', thrown)
  {
    assert VolleyGoesOn(cfg, blocks, s, me, shots[0], s', thrown);
  }
}
