/** What damage does to lives (src/server/player.cpp, receive_damage; src/server/game_world.cpp,
    make_bomb_explode), said without the functions that do it. */
module Wounds {
  import opened Basics
  import opened Settings
  import opened Geometry
  import opened Slide
  import opened Arms
  import opened World

  /** What a player is about, which no shot at him changes. */
  datatype Stance = Stance(
    up: bool, down: bool, left: bool, right: bool, making: bool, orientation: real,
    planting: bool, defusing: bool, onSite: bool)

  /** A player apart from what he carries and what the ledger counts; `bonus` is what he has earned with kills. */
  datatype Body = Body(rect: Rect, team: Team, life: nat, money: nat, bonus: int, shot: Option<Vec>, stance: Stance)

  /** `joined` lists the players in the order in which a shot tries them. */
  datatype Scene = Scene(bodies: map<Name, Body>, joined: seq<Name>)

  function StanceOf(p: Player): Stance {
    Stance(p.up, p.down, p.left, p.right, p.making, p.orientation, p.planting, p.defusing, p.onSite)
  }

  function BodyOf(p: Player): Body {
    Body(p.rect, p.team, p.life, p.loadout.money, p.bonifications, p.shot, StanceOf(p))
  }

  function SceneOf(w: World): Scene { Scene(map n <- w.players :: BodyOf(w.players[n]), w.joined) }

  /** One player's life taken down by `damage`, to zero at most, and nothing else. */
  function Wounded(s: Scene, v: Name, damage: nat): Scene
    requires v in s.bodies
  {
    s.(bodies := s.bodies[v := s.bodies[v].(life := Max(0, s.bodies[v].life - damage))])
  }

  function Sum(hits: seq<nat>): nat { if hits == [] then 0 else hits[0] + Sum(hits[1..]) }

  lemma SetBody(w: World, n: Name, p: Player, w': World)
    requires w.Ok() && n in w.players && w' == SetPlayer(w, n, p)
    ensures w'.crashed == w.crashed
    ensures SceneOf(w') == SceneOf(w).(bodies := SceneOf(w).bodies[n := BodyOf(p)])
  {
    assert SceneOf(w').bodies == SceneOf(w).bodies[n := BodyOf(p)];
  }

  lemma SameScene(w: World, w': World)
    requires w'.players == w.players && w'.joined == w.joined
    ensures SceneOf(w') == SceneOf(w)
  {}

  /** What falls with a death touches nobody's body. */
  lemma FallKeepsBodies(env: Env, w: World, v: Name, w': World)
    requires env.Valid() && w.Ok() && v in w.players && w' == DropWeapons(env, w, v)
    ensures w'.crashed == w.crashed && SceneOf(w') == SceneOf(w)
  {
    var p := w.players[v];
    var w1 := DropBomb(DropGun(w, p), p);
    SameScene(w, w1);
    SetBody(w1, v, p.(loadout := ResetLoadout(env.cfg, p.loadout, true)), w');
    assert SceneOf(w).bodies[v := BodyOf(p)] == SceneOf(w).bodies;
  }

  lemma MarkedBody(w: World, v: Name, s: Source, w': World)
    requires w.Ok() && v in w.players && w' == Marked(w, v, s)
    ensures w'.crashed == w.crashed && SceneOf(w') == Wounded(SceneOf(w), v, w.players[v].life)
  {
    var w1 := SetPlayer(w, v, Corpse(w.players[v]));
    SetBody(w, v, Corpse(w.players[v]), w1);
    SameScene(w1, w');
  }

  lemma HurtBody(w: World, v: Name, p: Player, damage: nat, w': World)
    requires w.Ok() && v in w.players && p == w.players[v] && damage < p.life
    requires w' == SetPlayer(w, v, p.(life := p.life - damage))
    ensures w'.crashed == w.crashed && SceneOf(w') == Wounded(SceneOf(w), v, damage)
  {
    SetBody(w, v, p.(life := p.life - damage), w');
  }

  lemma WoundedToDeath(s: Scene, v: Name, damage: nat)
    requires v in s.bodies && damage >= s.bodies[v].life
    ensures Wounded(s, v, damage) == Wounded(s, v, s.bodies[v].life)
  {}

  /** Damage is taken from the life of the victim, down to zero, and from nobody else's. */
  lemma DamageIsTaken(env: Env, w: World, v: Name, damage: nat, s: Source, w': World)
    requires env.Valid() && w.Ok() && v in w.players && w' == ReceiveDamage(env, w, v, damage, s)
    ensures w'.crashed == w.crashed && SceneOf(w') == Wounded(SceneOf(w), v, damage)
  {
    var p, w1 := w.players[v], Marked(w, v, s);
    if p.life == 0 {
      NoWound(SceneOf(w), v, damage);
    } else if p.life > damage {
      HurtBody(w, v, p, damage, w');
    } else {
      MarkedBody(w, v, s, w1);
      FallKeepsBodies(env, w1, v, w');
      WoundedToDeath(SceneOf(w), v, damage);
    }
  }

  lemma WoundedTwice(s: Scene, v: Name, a: nat, s1: Scene, b: nat, s2: Scene)
    requires v in s.bodies && s1 == Wounded(s, v, a) && s2 == Wounded(s1, v, b)
    ensures s2 == Wounded(s, v, a + b)
  {
    assert s2.bodies == Wounded(s, v, a + b).bodies;
  }

  lemma NoWound(s: Scene, v: Name, damage: nat)
    requires v in s.bodies && (damage == 0 || s.bodies[v].life == 0)
    ensures Wounded(s, v, damage) == s
  {
    assert Wounded(s, v, damage).bodies == s.bodies;
  }

  /** One wound after the other. */
  function WoundedBy(s: Scene, v: Name, hits: seq<nat>): (s': Scene)
    requires v in s.bodies
    decreases |hits|
  {
    if hits == [] then s else WoundedBy(Wounded(s, v, hits[0]), v, hits[1..])
  }

  lemma {:induction false} WoundsAddUp(s: Scene, v: Name, hits: seq<nat>)
    requires v in s.bodies
    ensures WoundedBy(s, v, hits) == Wounded(s, v, Sum(hits))
    decreases |hits|
  {
    if hits == [] {
      NoWound(s, v, 0);
    } else {
      var s1 := Wounded(s, v, hits[0]);
      WoundsAddUp(s1, v, hits[1..]);
      WoundedTwice(s, v, hits[0], s1, Sum(hits[1..]), WoundedBy(s, v, hits));
    }
  }

  lemma {:induction false} HitsWound(env: Env, w: World, v: Name, hits: seq<nat>, s: Source, w': World)
    requires env.Valid() && w.Ok() && v in w.players && w' == ReceiveHits(env, w, v, hits, s)
    ensures w'.crashed == w.crashed && SceneOf(w') == WoundedBy(SceneOf(w), v, hits)
    decreases |hits|
  {
    if hits != [] {
      var w1 := ReceiveDamage(env, w, v, hits[0], s);
      DamageIsTaken(env, w, v, hits[0], s, w1);
      HitsWound(env, w1, v, hits[1..], s, w');
    }
  }

  /** So several hits take what they add up to ... */
  lemma HitsAreTaken(env: Env, w: World, v: Name, hits: seq<nat>, s: Source, w': World)
    requires env.Valid() && w.Ok() && v in w.players && w' == ReceiveHits(env, w, v, hits, s)
    ensures w'.crashed == w.crashed && SceneOf(w') == Wounded(SceneOf(w), v, Sum(hits))
  {
    HitsWound(env, w, v, hits, s, w');
    WoundsAddUp(SceneOf(w), v, hits);
  }

  /** ... and kill exactly if that is the whole life. */
  lemma HitsKillIff(env: Env, w: World, v: Name, hits: seq<nat>, s: Source, w': World)
    requires env.Valid() && w.Ok() && v in w.players && w' == ReceiveHits(env, w, v, hits, s)
    ensures w'.players[v].life == 0 <==> Sum(hits) >= w.players[v].life
  {
    HitsAreTaken(env, w, v, hits, s, w');
    assert SceneOf(w').bodies[v].life == w'.players[v].life;
  }

  // ---- The explosion

  /** The program's damage at a distance: damage * (1 - distance / radius), its whole part. */
  function DamageAt(damage: nat, radius: nat, distance: real): int
    requires radius > 0
  {
    (damage as real * (1.0 - distance / radius as real)).Floor
  }

  /** What BlastDamage looks for, from `k` downwards. */
  predicate Takes(damage: nat, radius: nat, d2: int, k: int) {
    damage - k >= 0 && damage * damage * d2 <= (damage - k) * (damage - k) * radius * radius
  }

  lemma SquaresInOrder(a: real, b: real)
    requires a >= 0.0 && b >= 0.0
    ensures a <= b <==> a * a <= b * b
  {
    if a < b { SquareGrows(a, b); }
    if b < a { SquareGrows(b, a); }
  }

  lemma SquareGrows(a: real, b: real)
    requires 0.0 <= a < b
    ensures a * a < b * b
  {
    assert b * b - a * a == (b - a) * (b + a);
    MulPos(b - a, b + a);
  }

  /** A damage of `k` is not more than that at the distance whose square is `d2`. */
  lemma TakesIff(damage: nat, radius: nat, distance: real, d2: int, k: nat)
    requires radius > 0 && distance >= 0.0 && distance * distance == d2 as real && k <= damage
    ensures Takes(damage, radius, d2, k) <==> damage as real * distance <= (damage - k) as real * radius as real
  {
    var d, r, m := damage as real, radius as real, (damage - k) as real;
    SquaresInOrder(d * distance, m * r);
    assert (d * distance) * (d * distance) == d * d * (distance * distance);
    assert (m * r) * (m * r) == m * m * r * r;
    assert d * d * d2 as real == (damage * damage * d2) as real;
    assert m * m * r * r == ((damage - k) * (damage - k) * radius * radius) as real;
  }

  lemma AtLeast(damage: nat, radius: nat, distance: real, k: nat)
    requires radius > 0 && k <= damage
    ensures damage as real * distance <= (damage - k) as real * radius as real
            <==> DamageAt(damage, radius, distance) >= k
  {
    var d, r, q := damage as real, radius as real, distance / radius as real;
    assert q * r == distance;
    assert d * (1.0 - q) == d - d * q;
    assert (d - d * q) * r == d * r - d * distance;
    var gap := d - d * q - k as real;
    assert gap * r == (damage - k) as real * r - d * distance;
    SignOfProduct(gap, r, gap * r);
  }

  lemma {:induction false} BlastDamageIsGreatest(damage: nat, radius: nat, d2: int, k: nat)
    ensures var b := BlastDamage(damage, radius, d2, k);
            && b <= k && (b == 0 || Takes(damage, radius, d2, b))
            && forall j :: b < j <= k ==> !Takes(damage, radius, d2, j)
  {
    if k > 0 && !Takes(damage, radius, d2, k) { BlastDamageIsGreatest(damage, radius, d2, k - 1); }
  }

  /** The damage of the explosion, within its radius, is that of the distance. */
  lemma BlastDamageIs(damage: nat, radius: nat, d2: int, distance: real)
    requires radius > 0 && 0.0 <= distance <= radius as real && distance * distance == d2 as real
    ensures BlastDamage(damage, radius, d2, damage) == DamageAt(damage, radius, distance)
  {
    var b, at := BlastDamage(damage, radius, d2, damage), DamageAt(damage, radius, distance);
    BlastDamageIsGreatest(damage, radius, d2, damage);
    DamageAtRange(damage, radius, distance);
    TakesIff(damage, radius, distance, d2, b);
    AtLeast(damage, radius, distance, b);
    TakesIff(damage, radius, distance, d2, at);
    AtLeast(damage, radius, distance, at);
  }

  lemma DamageAtRange(damage: nat, radius: nat, distance: real)
    requires radius > 0 && 0.0 <= distance <= radius as real
    ensures 0 <= DamageAt(damage, radius, distance) <= damage
  {
    var d, r, q := damage as real, radius as real, distance / radius as real;
    assert q * r == distance;
    SignOfProduct(q, r, distance);
    SignOfProduct(1.0 - q, r, r - distance);
    assert d * q >= 0.0;
    assert d * (1.0 - q) == d - d * q;
  }

  /** How far the middles of two rectangles are from each other. */
  predicate Away(a: Rect, b: Rect, distance: real) {
    var dx, dy := (a.x + a.w / 2) - (b.x + b.w / 2), (a.y + a.h / 2) - (b.y + b.h / 2);
    distance >= 0.0 && distance * distance == (dx * dx + dy * dy) as real
  }

  /** What an explosion of the bomb planted at `at` leaves of a life `distance` away. */
  function LifeLeft(cfg: Settings, life: nat, distance: real): int
    requires cfg.explosionRadius > 0
  {
    if distance <= cfg.explosionRadius as real
    then Max(0, life - DamageAt(cfg.explosionDamage, cfg.explosionRadius, distance))
    else life
  }

  /** The explosion reaches everybody within its radius, and takes from his life the damage of the distance. */
  ghost predicate Blasted(cfg: Settings, s: Scene, at: Rect, hurt: set<Name>, s': Scene) {
    && cfg.explosionRadius > 0 && s'.joined == s.joined && s'.bodies.Keys == s.bodies.Keys
    && (forall n <- s.bodies :: s'.bodies[n] == s.bodies[n].(life := s'.bodies[n].life))
    && (forall n <- s.bodies :: n !in hurt ==> s'.bodies[n].life == s.bodies[n].life)
    && forall n, distance :: n in s.bodies && n in hurt && Away(at, s.bodies[n].rect, distance) ==>
         s'.bodies[n].life == LifeLeft(cfg, s.bodies[n].life, distance)
  }

  /** The damage that the program takes, from the square of the distance. */
  function Loss(cfg: Settings, d2: int): nat
    requires cfg.explosionRadius > 0
  {
    if d2 <= cfg.explosionRadius * cfg.explosionRadius
    then BlastDamage(cfg.explosionDamage, cfg.explosionRadius, d2, cfg.explosionDamage)
    else 0
  }

  lemma LossIs(cfg: Settings, life: nat, d2: int, distance: real)
    requires cfg.explosionRadius > 0 && distance >= 0.0 && distance * distance == d2 as real
    ensures Max(0, life - Loss(cfg, d2)) == LifeLeft(cfg, life, distance)
  {
    InRadiusIff(cfg.explosionRadius, d2, distance);
    if distance <= cfg.explosionRadius as real {
      BlastDamageIs(cfg.explosionDamage, cfg.explosionRadius, d2, distance);
    }
  }

  lemma WoundedIsBlasted(cfg: Settings, s: Scene, at: Rect, v: Name, s': Scene)
    requires cfg.explosionRadius > 0 && v in s.bodies
    requires s' == Wounded(s, v, Loss(cfg, SquaredDistance(at, s.bodies[v].rect)))
    ensures Blasted(cfg, s, at, {v}, s')
  {
    forall distance | Away(at, s.bodies[v].rect, distance)
      ensures s'.bodies[v].life == LifeLeft(cfg, s.bodies[v].life, distance)
    {
      LossIs(cfg, s.bodies[v].life, SquaredDistance(at, s.bodies[v].rect), distance);
    }
  }

  lemma BlastOnOneBody(env: Env, w: World, v: Name, at: Rect, w': World)
    requires env.Valid() && w.Ok() && v in w.players && env.cfg.explosionRadius > 0 && w' == BlastOne(env, w, v, at)
    ensures w'.crashed == w.crashed && Blasted(env.cfg, SceneOf(w), at, {v}, SceneOf(w'))
  {
    var d2, s := SquaredDistance(at, w.players[v].rect), SceneOf(w);
    var loss := Loss(env.cfg, d2);
    if w.players[v].Alive() && d2 <= env.cfg.explosionRadius * env.cfg.explosionRadius {
      DamageIsTaken(env, w, v, loss, Blast, w');
    } else {
      NoWound(s, v, loss);
    }
    WoundedIsBlasted(env.cfg, s, at, v, SceneOf(w'));
  }

  lemma InRadiusIff(radius: nat, d2: int, distance: real)
    requires distance >= 0.0 && distance * distance == d2 as real
    ensures d2 <= radius * radius <==> distance <= radius as real
  {
    SquaresInOrder(distance, radius as real);
    assert radius as real * radius as real == (radius * radius) as real;
  }

  lemma BlastedOn(cfg: Settings, s: Scene, at: Rect, v: Name, s1: Scene, rest: set<Name>, s2: Scene)
    requires Blasted(cfg, s, at, {v}, s1) && Blasted(cfg, s1, at, rest, s2) && v !in rest
    ensures Blasted(cfg, s, at, rest + {v}, s2)
  {}

  function Members(names: seq<Name>): set<Name> { set n <- names }

  lemma OneMember(names: seq<Name>, i: nat)
    requires i < |names| && Once(names)
    ensures Members(names[i..]) == Members(names[i + 1..]) + {names[i]} && names[i] !in Members(names[i + 1..])
  {
    assert names[i..] == [names[i]] + names[i + 1..];
  }

  lemma {:induction false} BlastReaches(env: Env, w: World, at: Rect, i: nat, w': World)
    requires env.Valid() && w.Ok() && i <= |w.order| && Once(w.order) && env.cfg.explosionRadius > 0
    requires w' == Explode(env, w, at, i)
    ensures w'.crashed == w.crashed && Blasted(env.cfg, SceneOf(w), at, Members(w.order[i..]), SceneOf(w'))
    decreases |w.order| - i
  {
    if i < |w.order| {
      var v, rest := w.order[i], Members(w.order[i + 1..]);
      var w1 := BlastOne(env, w, v, at);
      OneMember(w.order, i);
      BlastOnOneBody(env, w, v, at, w1);
      BlastReaches(env, w1, at, i + 1, w');
      BlastedOn(env.cfg, SceneOf(w), at, v, SceneOf(w1), rest, SceneOf(w'));
    }
  }

  /** A tick hurts nobody but by shots and by the explosion of a planted bomb whose fuse is burnt, and that takes
      from everybody's life the damage of his distance from the plantation. */
  lemma ExplosionHurts(env: Env, w: World, frames: nat, w': World)
    requires env.Valid() && w.Ok() && Lists(w.order, w.players.Keys) && env.cfg.explosionRadius > 0
    requires w' == BurnFuse(env, w, frames)
    ensures w'.crashed == w.crashed
    ensures var burnt := w.bomb.sincePlanted + frames as real / env.cfg.fps as real >= env.cfg.detonationTime as real;
            if w.bomb.status == Planted && burnt && w.bomb.plantation.Some?
            then Blasted(env.cfg, SceneOf(w), w.bomb.plantation.value, w.players.Keys, SceneOf(w'))
            else SceneOf(w') == SceneOf(w)
  {
    var w1 := w.(bomb := UpdatePlanted(env.cfg, w.bomb, frames as real / env.cfg.fps as real));
    SameScene(w, w1);
    if w.bomb.plantation.Some? {
      var at := w.bomb.plantation.value;
      BlastReachesAll(env, w1, at, Explode(env, w1, at, 0));
    }
  }

  lemma BlastReachesAll(env: Env, w: World, at: Rect, w': World)
    requires env.Valid() && w.Ok() && Lists(w.order, w.players.Keys) && env.cfg.explosionRadius > 0
    requires w' == Explode(env, w, at, 0)
    ensures w'.crashed == w.crashed && Blasted(env.cfg, SceneOf(w), at, w.players.Keys, SceneOf(w'))
  {
    ListsOnce(w.order, w.players.Keys);
    assert Members(w.order) == w.players.Keys && w.order[0..] == w.order;
    BlastReaches(env, w, at, 0, w');
  }
}
