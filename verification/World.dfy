/** The game world as a value, and every command and tick as a function on it: the specification
    that the classes of Engine.dfy are proved against (src/server/game_world.cpp, player.cpp, bomb.cpp, item.cpp,
    gun.cpp, m3.cpp, ak47.cpp, knife.cpp, command.cpp). */
module World {
  import opened Settings
  import opened Geometry
  import opened Slide
  import opened Arms

  type Name = string

  const ITEM: int := 200
  const BOMB: int := 100

  datatype Player = Player(
    team: Team, up: bool, down: bool, left: bool, right: bool, making: bool, orientation: real,
    life: nat, shot: Option<Vec>, planting: bool, defusing: bool, onSite: bool,
    bonifications: int, kills: nat, deaths: nat, loadout: Loadout, rect: Rect)
  {
    predicate Alive() { life > 0 }
  }

  /** A player who has just joined: outside the map, with the loadout to start with. */
  function NewPlayer(cfg: Settings, team: Team): Player
    requires cfg.Valid()
  {
    Player(team, false, false, false, false, false, 0.0, cfg.initialLife, None, false, false, false, 0, 0, 0,
           NewLoadout(cfg), Rect(-100, -100, PLAYER, PLAYER))
  }

  const NEW_BOMB := Bomb(IDLE, NotPlanted, false, 0.0, None)

  datatype Bomb = Bomb(
    trigger: Trigger, status: BombStatus, justPlanted: bool, sincePlanted: real, plantation: Option<Rect>)

  datatype Item = DroppedGun(rect: Rect, id: nat, gun: Gun) | DroppedBomb(rect: Rect, id: nat)

  /** History of the deaths, which the game does not keep: who died, and of what. `teammates` says
      whether killer and victim were on one side. */
  datatype Source = ByPlayer(killer: Name) | Blast
  datatype Death = Death(victim: Name, source: Source, teammates: bool)

  /** `joined` is the order of the collidables, `order` that of the map of players. An exception
      that leaves the game thread is `crashed`: nothing happens after it. */
  datatype World = World(
    players: map<Name, Player>, joined: seq<Name>, order: seq<Name>,
    items: seq<Item>, nextDropId: nat, bomb: Bomb, deaths: seq<Death>, crashed: bool)
  {
    predicate Ok() {
      (forall n <- joined :: n in players) && (forall n <- order :: n in players)
    }
  }

  /** What a ray caster may answer: something solid among the targets, or nothing. */
  ghost predicate HitsSolid(ts: seq<Target>, h: Option<Hit>) {
    h.Some? ==> h.value.index < |ts| && ts[h.value.index].solid
  }

  /** What does not change during a game. `caster` finds what a shot from the middle of a rectangle at
      an angle hits first; `Arena` below makes it the one of Geometry.dfy. */
  datatype Env = Env(
    cfg: Settings, statics: seq<Rect>, sites: seq<Rect>, caster: (Rect, real, seq<Target>) -> Option<Hit>)
  {
    ghost predicate Valid() { cfg.Valid() && forall r, angle, ts :: HitsSolid(ts, caster(r, angle, ts)) }
  }

  function Center(r: Rect): (int, int) { (r.x + r.w / 2, r.y + r.h / 2) }

  function Aim(heading: real -> Vec, r: Rect, angle: real): Ray {
    Ray(Vec(Center(r).0 as real, Center(r).1 as real), heading(angle))
  }

  /** The surroundings of a real game: `heading` gives the direction of an angle in degrees. */
  function Arena(cfg: Settings, statics: seq<Rect>, sites: seq<Rect>, heading: real -> Vec): (env: Env)
    requires cfg.Valid()
    ensures env.Valid()
  {
    Env(cfg, statics, sites, (r: Rect, angle: real, ts: seq<Target>) => Nearest(Aim(heading, r, angle), ts))
  }

  /** The random draws of a tick: for each shooter and bullet, nothing when it misses by lack of
      precision, otherwise the damage it does. */
  type Luck = (Name, nat) -> Option<nat>

  ghost predicate SameRoster(w: World, w': World) {
    w'.joined == w.joined && w'.order == w.order && w'.players.Keys == w.players.Keys
  }

  /** ... and the bomb was not touched. */
  ghost predicate SameBomb(w: World, w': World) { SameRoster(w, w') && w'.bomb == w.bomb }

  /** ... apart from its trigger. */
  ghost predicate SameFuse(w: World, w': World) {
    SameRoster(w, w') && w'.bomb == w.bomb.(trigger := w'.bomb.trigger)
  }

  function SetPlayer(w: World, n: Name, p: Player): (r: World)
    requires w.Ok() && n in w.players
    ensures r.Ok() && SameBomb(w, r)
  {
    w.(players := w.players[n := p])
  }

  // ---- Damage, death and credit

  /** Puts an item on the ground under the next drop id. */
  function AddItem(w: World, it: Item): (r: World)
    requires w.Ok() && it.id == w.nextDropId
    ensures r.Ok() && SameBomb(w, r) && r.players == w.players
  {
    w.(items := w.items + [it], nextDropId := w.nextDropId + 1)
  }

  function DropGun(w: World, p: Player): (r: World)
    requires w.Ok()
    ensures r.Ok() && SameBomb(w, r) && r.players == w.players
  {
    if p.loadout.primary.None? then w
    else AddItem(w, DroppedGun(Rect(p.rect.x, p.rect.y, ITEM, ITEM), w.nextDropId, p.loadout.primary.value))
  }

  function DropBomb(w: World, p: Player): (r: World)
    requires w.Ok()
    ensures r.Ok() && SameBomb(w, r) && r.players == w.players
  {
    if !p.loadout.hasBomb then w else AddItem(w, DroppedBomb(ItemRect(p), w.nextDropId))
  }

  /** GameWorld::drop_weapons: the primary gun and the bomb fall, and the loadout starts anew. */
  function DropWeapons(env: Env, w: World, v: Name): (r: World)
    requires env.Valid() && w.Ok() && v in w.players
    ensures r.Ok() && SameBomb(w, r)
  {
    var p := w.players[v];
    SetPlayer(DropBomb(DropGun(w, p), p), v, p.(loadout := ResetLoadout(env.cfg, p.loadout, true)))
  }

  /** Where the bomb, or a gun replaced in the shop, falls. */
  function ItemRect(p: Player): Rect { Rect(Center(p.rect).0, Center(p.rect).1, ITEM, ITEM) }

  predicate Teammates(w: World, a: Name, b: Name)
    requires a in w.players && b in w.players
  {
    w.players[a].team == w.players[b].team
  }

  function DeathOf(w: World, v: Name, s: Source): Death
    requires v in w.players
  {
    Death(v, s, s.ByPlayer? && s.killer in w.players && Teammates(w, s.killer, v))
  }

  /** A player who has just died, and the world then, before the weapons fall. */
  function Corpse(p: Player): Player { p.(life := 0, deaths := p.deaths + 1) }

  function Marked(w: World, v: Name, s: Source): (r: World)
    requires w.Ok() && v in w.players
    ensures r.Ok() && SameBomb(w, r)
  {
    SetPlayer(w, v, Corpse(w.players[v])).(deaths := w.deaths + [DeathOf(w, v, s)])
  }

  /** Player::receive_damage. */
  function ReceiveDamage(env: Env, w: World, v: Name, damage: nat, s: Source): (r: World)
    requires env.Valid() && w.Ok() && v in w.players
    ensures r.Ok() && SameBomb(w, r)
  {
    var p := w.players[v];
    if p.life == 0 then w
    else if p.life > damage then SetPlayer(w, v, p.(life := p.life - damage))
    else DropWeapons(env, Marked(w, v, s), v)
  }

  /** Several bullets on one victim, one after the other. */
  function ReceiveHits(env: Env, w: World, v: Name, hits: seq<nat>, s: Source): (r: World)
    requires env.Valid() && w.Ok() && v in w.players
    ensures r.Ok() && SameBomb(w, r)
    decreases |hits|
  {
    if hits == [] then w else ReceiveHits(env, ReceiveDamage(env, w, v, hits[0], s), v, hits[1..], s)
  }

  function Penalized(cfg: Settings, p: Player): Player {
    p.(bonifications := p.bonifications - cfg.teamKillPenalty,
       loadout := p.loadout.DecreaseMoneyBy(cfg.teamKillPenalty))
  }

  function Rewarded(p: Player, bonus: nat): Player {
    p.(kills := p.kills + 1, bonifications := p.bonifications + bonus, loadout := p.loadout.AddMoney(bonus))
  }

  /** Player::count_kill. */
  function CountKill(env: Env, w: World, killer: Name, v: Name, bonus: nat): (r: World)
    requires env.Valid() && w.Ok() && killer in w.players && v in w.players
    ensures r.Ok() && SameBomb(w, r)
  {
    if Teammates(w, killer, v) then SetPlayer(w, killer, Penalized(env.cfg, w.players[killer]))
    else SetPlayer(w, killer, Rewarded(w.players[killer], bonus))
  }

  // ---- Shots

  /** The collidables in list order, as a player's shot or step sees them. */
  function Targets(env: Env, w: World, me: Name): (ts: seq<Target>)
    requires w.Ok()
    ensures |ts| == |env.statics| + |w.joined|
  {
    seq(|env.statics|, i requires 0 <= i < |env.statics| => Target(env.statics[i], true))
    + seq(|w.joined|, i requires 0 <= i < |w.joined| =>
          Target(w.players[w.joined[i]].rect, w.joined[i] != me && w.players[w.joined[i]].Alive()))
  }

  /** GameWorld::calculate_shot: the player hit, if it is one, with the impact; None if nothing at
      all is hit. */
  function Shoot(env: Env, w: World, me: Name, angle: real): (hit: Option<(Option<Name>, Impact)>)
    requires env.Valid() && w.Ok() && me in w.players
    ensures hit.Some? && hit.value.0.Some? ==>
              var v := hit.value.0.value; v != me && v in w.players && w.players[v].Alive()
  {
    match env.caster(w.players[me].rect, angle, Targets(env, w, me))
    case None => None
    case Some(h) =>
      if h.index < |env.statics| then Some((None, h.impact))
      else Some((Some(w.joined[h.index - |env.statics|]), h.impact))
  }

  /** One shot: the ray, its damage to a player within `reach`, and the credit for a kill. A shot
      that hits nothing throws. The directions of angles being unit vectors, `t` is the distance. */
  function Strike(env: Env, w: World, me: Name, angle: real, hits: seq<nat>, reach: Option<nat>, bonus: nat): (r: World)
    requires env.Valid() && w.Ok() && me in w.players
    ensures r.Ok() && SameBomb(w, r)
  {
    match Shoot(env, w, me, angle)
    case None => w.(crashed := true)
    case Some((victim, impact)) =>
      var w1 := SetPlayer(w, me, w.players[me].(shot := Some(impact.point)));
      match victim
      case None => w1
      case Some(v) =>
        var missed := reach.Some? && impact.t >= reach.value as real;
        var w2 := ReceiveHits(env, w1, v, if missed then [] else hits, ByPlayer(me));
        if w2.players[v].Alive() then w2 else CountKill(env, w2, me, v, bonus)
  }

  /** The damages of the bullets `from`, `from` + 1, ... that do hit. */
  function Bullets(luck: Luck, me: Name, from: nat, n: nat): seq<nat>
    decreases n
  {
    if n == 0 then []
    else
      var rest := Bullets(luck, me, from + 1, n - 1);
      match luck(me, from)
      case None => rest
      case Some(d) => [d] + rest
  }

  /** Angle of the i-th of eight pellets in a cone of 30 degrees. */
  function PelletAngle(center: real, i: nat): real {
    center + ((i as real + 0.5) / 8.0 - 0.5) * 30.0
  }

  /** One pellet of a shot. */
  function FirePellet(env: Env, w: World, me: Name, center: real, i: nat, luck: Luck, bonus: nat): (r: World)
    requires env.Valid() && w.Ok() && me in w.players
    ensures r.Ok() && SameBomb(w, r)
  {
    Strike(env, w, me, PelletAngle(center, i), Bullets(luck, me, i, 1), None, bonus)
  }

  /** The pellets of a shot from the i-th up to the n-th, unless one throws. */
  function FirePellets(env: Env, w: World, me: Name, center: real, i: nat, n: nat, luck: Luck, bonus: nat): (r: World)
    requires env.Valid() && w.Ok() && me in w.players && i <= n
    ensures r.Ok() && SameBomb(w, r)
    decreases n - i
  {
    if i == n || w.crashed then w
    else FirePellets(env, FirePellet(env, w, me, center, i, luck, bonus), me, center, i + 1, n, luck, bonus)
  }

  function Fire(env: Env, w: World, me: Name, kind: GunType, luck: Luck): (r: World)
    requires env.Valid() && w.Ok() && me in w.players
    ensures r.Ok() && SameBomb(w, r)
  {
    var angle, bonus := w.players[me].orientation, env.cfg.Gun(kind).killBonus;
    if kind == M3 then FirePellets(env, w, me, angle, 0, Pellets(kind), luck, bonus)
    else Strike(env, w, me, angle, Bullets(luck, me, 0, AmmoCost(kind)), None, bonus)
  }

  function EquippedGun(l: Loadout): Option<Gun> {
    match l.equipped
    case PrimarySlot => l.primary
    case SecondarySlot => Some(l.secondary)
    case _ => None
  }

  function PutGun(w: World, me: Name, g: Gun): (r: World)
    requires w.Ok() && me in w.players
    ensures r.Ok() && SameBomb(w, r)
  {
    var p := w.players[me];
    match p.loadout.equipped
    case PrimarySlot => SetPlayer(w, me, p.(loadout := p.loadout.(primary := Some(g))))
    case SecondarySlot => SetPlayer(w, me, p.(loadout := p.loadout.(secondary := g)))
    case _ => w
  }

  /** After a shot, unless it threw, the gun is left as `g`. */
  function AfterShot(w: World, me: Name, g: Gun): (r: World)
    requires w.Ok() && me in w.players
    ensures r.Ok() && SameBomb(w, r)
  {
    if w.crashed then w else PutGun(w, me, g)
  }

  /** A shot of a gun whose ammunition is already taken, and that is then left as `g'`. */
  function Discharge(env: Env, w: World, me: Name, g': Gun, luck: Luck): (r: World)
    requires env.Valid() && w.Ok() && me in w.players
    ensures r.Ok() && SameBomb(w, r)
  {
    AfterShot(Fire(env, w, me, g'.kind, luck), me, g')
  }

  /** Gun::update, for a gun that does or does not fire and is left as `g'`. */
  function UseGun(env: Env, w: World, me: Name, g: Gun, fires: bool, g': Gun, luck: Luck): (r: World)
    requires env.Valid() && w.Ok() && me in w.players && (fires ==> g.ammo >= AmmoCost(g.kind))
    ensures r.Ok() && SameBomb(w, r)
  {
    if fires then Discharge(env, PutGun(w, me, Spent(g)), me, g', luck)
    else PutGun(w, me, g')
  }

  function PutKnife(w: World, me: Name, k: Knife): (r: World)
    requires w.Ok() && me in w.players
    ensures r.Ok() && SameBomb(w, r)
  {
    var p := w.players[me];
    SetPlayer(w, me, p.(loadout := p.loadout.(knife := k)))
  }

  /** Knife::update, for a knife that does or does not stab and is left as `k'`. */
  function UseKnife(env: Env, w: World, me: Name, stabs: bool, k': Knife): (r: World)
    requires env.Valid() && w.Ok() && me in w.players
    ensures r.Ok() && SameBomb(w, r)
  {
    if stabs then
      var angle, damage := w.players[me].orientation, [env.cfg.knifeDamage];
      var w1 := Strike(env, w, me, angle, damage, Some(env.cfg.knifeDistance), env.cfg.knifeKillBonus);
      if w1.crashed then w1 else PutKnife(w1, me, k')
    else PutKnife(w, me, k')
  }

  // ---- The bomb

  /** Player::leave_bomb. */
  function WithoutBomb(l: Loadout): Loadout {
    l.(hasBomb := false, equipped := if l.equipped == BombSlot && l.hasBomb then SecondarySlot else l.equipped)
  }

  /** Bomb::update, called by the player who has it equipped. */
  function UseBomb(env: Env, w: World, me: Name, dt: real): (r: World)
    requires env.Valid() && w.Ok() && me in w.players
    ensures r.Ok() && SameRoster(w, r)
  {
    if w.bomb.status == Defused then w
    else
      var p := w.players[me];
      var t := w.bomb.trigger.Update(dt);
      if p.onSite && t.making && t.since >= env.cfg.plantationTime as real then
        SetPlayer(w, me, p.(loadout := WithoutBomb(p.loadout)))
        .(bomb := Bomb(Trigger(false, t.just, 0.0), Planted, true, w.bomb.sincePlanted,
                       Some(Rect(Center(p.rect).0, Center(p.rect).1, BOMB, BOMB))))
      else w.(bomb := w.bomb.(trigger := t))
  }

  /** Bomb::update_planted: the fuse before the defusal. */
  function UpdatePlanted(cfg: Settings, b: Bomb, dt: real): Bomb {
    var t := b.trigger.Update(dt);
    var since := b.sincePlanted + dt;
    if since >= cfg.detonationTime as real then
      b.(trigger := t, justPlanted := false, sincePlanted := since, status := Exploded)
    else if t.making && t.since >= cfg.defuseTime as real then
      b.(trigger := Trigger(false, t.just, 0.0), justPlanted := false, sincePlanted := since, status := Defused)
    else b.(trigger := t, justPlanted := false, sincePlanted := since)
  }

  function RestartBomb(b: Bomb): Bomb {
    b.(trigger := Trigger(false, false, 0.0), status := NotPlanted, sincePlanted := 0.0, plantation := None)
  }

  /** Whole part of damage * (1 - distance / radius) for a squared distance within the radius. */
  function BlastDamage(damage: nat, radius: nat, d2: int, k: nat): nat {
    if k == 0 || (damage - k >= 0 && damage * damage * d2 <= (damage - k) * (damage - k) * radius * radius) then k
    else BlastDamage(damage, radius, d2, k - 1)
  }

  function SquaredDistance(a: Rect, b: Rect): int {
    var dx, dy := Center(a).0 - Center(b).0, Center(a).1 - Center(b).1;
    dx * dx + dy * dy
  }

  /** What the explosion does to one player. */
  function BlastOne(env: Env, w: World, v: Name, at: Rect): (r: World)
    requires env.Valid() && w.Ok() && v in w.players
    ensures r.Ok() && SameBomb(w, r)
  {
    var d2 := SquaredDistance(at, w.players[v].rect);
    if w.players[v].Alive() && d2 <= env.cfg.explosionRadius * env.cfg.explosionRadius then
      ReceiveDamage(env, w, v,
          BlastDamage(env.cfg.explosionDamage, env.cfg.explosionRadius, d2, env.cfg.explosionDamage), Blast)
    else w
  }

  /** GameWorld::make_bomb_explode, over the players from the i-th in map order. */
  function Explode(env: Env, w: World, at: Rect, i: nat): (r: World)
    requires env.Valid() && w.Ok() && i <= |w.order|
    ensures r.Ok() && SameBomb(w, r)
    decreases |w.order| - i
  {
    if i == |w.order| then w else Explode(env, BlastOne(env, w, w.order[i], at), at, i + 1)
  }

  // ---- One player's turn in a tick

  /** Whole part of s divided by the square root of two. */
  function Diagonal(s: nat, k: nat): nat {
    if k == 0 || 2 * k * k <= s * s then k else Diagonal(s, k - 1)
  }

  function Sign(forward: bool, back: bool): int { (if forward then 1 else 0) - (if back then 1 else 0) }

  function StepOf(p: Player, stepped: nat): (int, int) {
    var sx, sy := Sign(p.right, p.left), Sign(p.down, p.up);
    var len := if sx != 0 && sy != 0 then Diagonal(stepped, stepped) else stepped;
    (sx * len, sy * len)
  }

  predicate OnSite(env: Env, r: Rect) {
    exists s <- env.sites :: s.x <= Center(r).0 < s.x + s.w && s.y <= Center(r).1 < s.y + s.h
  }

  function Walk(env: Env, w: World, me: Name, stepped: nat): (r: World)
    requires env.Valid() && w.Ok() && me in w.players
    ensures r.Ok() && SameBomb(w, r)
  {
    var p := w.players[me];
    var (dx, dy) := StepOf(p, stepped);
    var rect := MakeStep(Targets(env, w, me), p.rect, dx, dy);
    SetPlayer(w, me, p.(rect := rect, onSite := OnSite(env, rect)))
  }

  function UseWeapon(env: Env, w: World, me: Name, dt: real, luck: Luck): (r: World)
    requires env.Valid() && w.Ok() && me in w.players
    ensures r.Ok() && SameRoster(w, r)
  {
    var l := w.players[me].loadout;
    match l.equipped
    case KnifeSlot => UseKnife(env, w, me, CanStab(env.cfg, l.knife), UpdateKnife(env.cfg, l.knife, dt))
    case BombSlot => if l.hasBomb then UseBomb(env, w, me, dt) else w
    case _ =>
      match EquippedGun(l)
      case None => w
      case Some(g) => UseGun(env, w, me, g, CanShoot(env.cfg, g), UpdateGun(env.cfg, g, dt), luck)
  }

  /** Player::update after `frames` frames. */
  function UpdatePlayer(env: Env, w: World, me: Name, frames: nat, luck: Luck): (r: World)
    requires env.Valid() && w.Ok() && me in w.players
    ensures r.Ok() && SameRoster(w, r)
  {
    var dt := frames as real / env.cfg.fps as real;
    var p := w.players[me].(shot := None, planting := false);
    var w0 := SetPlayer(w, me, p);
    if !p.Alive() || p.defusing then w0
    else if p.making && p.onSite && p.loadout.equipped == BombSlot && p.loadout.hasBomb then
      UseBomb(env, SetPlayer(w0, me, p.(planting := true)), me, dt)
    else
      UseWeapon(env, Walk(env, w0, me, frames * env.cfg.playerSpeed), me, dt, luck)
  }

  /** ... in GameWorld::update, which first calls off a defusal that has succeeded. */
  function TakeTurn(env: Env, w: World, me: Name, wasPlanted: bool, frames: nat, luck: Luck): (r: World)
    requires env.Valid() && w.Ok() && me in w.players
    ensures r.Ok() && SameRoster(w, r)
  {
    var p := w.players[me];
    var called := p.team == CT && wasPlanted && w.bomb.status == Defused && p.defusing;
    UpdatePlayer(env, if called then SetPlayer(w, me, p.(defusing := false)) else w, me, frames, luck)
  }

  function TakeTurns(env: Env, w: World, i: nat, wasPlanted: bool, frames: nat, luck: Luck): (r: World)
    requires env.Valid() && w.Ok() && i <= |w.order|
    ensures r.Ok() && SameRoster(w, r)
    decreases |w.order| - i
  {
    if i == |w.order| || w.crashed then w
    else TakeTurns(env, TakeTurn(env, w, w.order[i], wasPlanted, frames, luck), i + 1, wasPlanted, frames, luck)
  }

  /** The bomb's part of GameWorld::update. */
  function BurnFuse(env: Env, w: World, frames: nat): (r: World)
    requires env.Valid() && w.Ok()
    ensures r.Ok() && SameRoster(w, r)
  {
    if w.bomb.status != Planted then w
    else
      var w1 := w.(bomb := UpdatePlanted(env.cfg, w.bomb, frames as real / env.cfg.fps as real));
      if w1.bomb.status == Exploded && w1.bomb.plantation.Some? then
        Explode(env, w1, w1.bomb.plantation.value, 0)
      else w1
  }

  /** GameWorld::update. */
  function Tick(env: Env, w: World, frames: nat, luck: Luck): (r: World)
    requires env.Valid() && w.Ok()
    ensures r.Ok() && SameRoster(w, r)
  {
    if w.crashed then w
    else TakeTurns(env, BurnFuse(env, w, frames), 0, w.bomb.status == Planted, frames, luck)
  }

  // ---- Commands

  datatype Command =
    | Move(direction: Movement, on: bool)
    | Rotate(angle: real)
    | Act(on: bool)
    | Defuse(on: bool)
    | Equip(slot: WeaponType)
    | PickUp
    | BuyGunCommand(gun: Option<GunType>)
    | BuyAmmoCommand(forPrimary: bool)
    | ForceStart

  /** A change of trigger of the weapon in the player's hand, the bomb included. */
  function OnTrigger(w: World, me: Name, f: Trigger -> Trigger): (r: World)
    requires w.Ok() && me in w.players
    ensures r.Ok() && SameFuse(w, r)
  {
    var p := w.players[me];
    if p.loadout.equipped == BombSlot then
      if p.loadout.hasBomb then w.(bomb := w.bomb.(trigger := f(w.bomb.trigger))) else w
    else SetPlayer(w, me, p.(loadout := p.loadout.OnTrigger(f)))
  }

  /** A bomb that was defused no longer reacts to the trigger being pulled. */
  function PullTrigger(w: World, me: Name): (r: World)
    requires w.Ok() && me in w.players
    ensures r.Ok() && SameFuse(w, r)
  {
    if w.players[me].loadout.equipped == BombSlot && w.bomb.status == Defused then w
    else OnTrigger(w, me, (t: Trigger) => t.Action())
  }

  function ReleaseTrigger(w: World, me: Name): (r: World)
    requires w.Ok() && me in w.players
    ensures r.Ok() && SameFuse(w, r)
  {
    OnTrigger(w, me, (t: Trigger) => t.StopAction())
  }

  function MakeAction(w: World, me: Name, on: bool): (r: World)
    requires w.Ok() && me in w.players
    ensures r.Ok() && SameFuse(w, r)
  {
    var p := w.players[me];
    if p.loadout.equipped == BombSlot && !p.onSite then w
    else
      var w1 := if on then PullTrigger(w, me) else ReleaseTrigger(w, me);
      SetPlayer(w1, me, w1.players[me].(making := on))
  }

  predicate CanDefuse(w: World, me: Name)
    requires me in w.players
  {
    w.bomb.plantation.Some? && w.players[me].rect.IntersectsWith(w.bomb.plantation.value)
  }

  function DefuseBomb(w: World, me: Name, on: bool): (r: World)
    requires w.Ok() && me in w.players
    ensures r.Ok() && SameFuse(w, r)
  {
    var p := w.players[me];
    if p.team != CT then w
    else if on then
      if !CanDefuse(w, me) then w
      else
        var w1 := SetPlayer(w, me, p.(defusing := true));
        if w.bomb.status == Defused then w1 else w1.(bomb := w.bomb.(trigger := w.bomb.trigger.Action()))
    else if p.defusing then
      SetPlayer(w, me, p.(defusing := false)).(bomb := w.bomb.(trigger := w.bomb.trigger.StopAction()))
    else w
  }

  function EquipSlot(w: World, me: Name, slot: WeaponType): (r: World)
    requires w.Ok() && me in w.players
    ensures r.Ok() && SameFuse(w, r)
  {
    var w1 := ReleaseTrigger(w, me);
    SetPlayer(w1, me, w1.players[me].(loadout := w1.players[me].loadout.Equip(slot)))
  }

  /** Indices of the items within reach of a player. */
  predicate InReach(w: World, me: Name, i: nat)
    requires me in w.players
  {
    i < |w.items| && w.players[me].rect.Contains(w.items[i].rect)
  }

  /** The first item in reach of the least drop id, looking from the i-th on. */
  function OldestInReach(w: World, me: Name, i: nat): (r: Option<nat>)
    requires me in w.players
    ensures r.Some? ==> i <= r.value && InReach(w, me, r.value)
    ensures r.None? ==> forall j :: i <= j < |w.items| ==> !InReach(w, me, j)
    ensures r.Some? ==> forall j :: i <= j && InReach(w, me, j) ==> w.items[r.value].id <= w.items[j].id
    decreases |w.items| - i
  {
    if i >= |w.items| then None
    else
      var rest := OldestInReach(w, me, i + 1);
      if !InReach(w, me, i) then rest
      else if rest.None? || w.items[i].id <= w.items[rest.value].id then Some(i)
      else rest
  }

  function Without(items: seq<Item>, i: nat): (r: seq<Item>)
    requires i < |items|
    ensures forall it <- r :: it in items
  {
    items[..i] + items[i + 1..]
  }

  /** GameWorld::pick_up_gun_for: the gun goes to its slot and what was there takes its place. */
  function PickUpGun(w: World, me: Name, i: nat): (r: World)
    requires w.Ok() && me in w.players && i < |w.items| && w.items[i].DroppedGun?
    ensures r.Ok() && SameBomb(w, r)
  {
    var p, it := w.players[me], w.items[i];
    var prev := if it.gun.kind == Glock then Some(p.loadout.secondary) else p.loadout.primary;
    var l := if it.gun.kind == Glock then p.loadout.(secondary := it.gun) else p.loadout.(primary := Some(it.gun));
    var w1 := SetPlayer(w, me, p.(loadout := l));
    var w2 := if prev.None? then w1 else AddItem(w1, DroppedGun(it.rect, w.nextDropId, prev.value));
    w2.(items := Without(w2.items, i))
  }

  /** GameWorld::try_pick_up_bomb_for: a CT only puts it at the end of the round of items. */
  function PickUpBomb(w: World, me: Name, i: nat): (r: World)
    requires w.Ok() && me in w.players && i < |w.items| && w.items[i].DroppedBomb?
    ensures r.Ok() && SameBomb(w, r)
  {
    var p := w.players[me];
    if p.team == TT then
      SetPlayer(w, me, p.(loadout := p.loadout.(hasBomb := true))).(items := Without(w.items, i))
    else
      w.(items := w.items[i := DroppedBomb(w.items[i].rect, w.nextDropId)], nextDropId := w.nextDropId + 1)
  }

  function PickUpItem(w: World, me: Name): (r: World)
    requires w.Ok() && me in w.players
    ensures r.Ok() && SameBomb(w, r)
  {
    match OldestInReach(w, me, 0)
    case None => w
    case Some(i) => if w.items[i].DroppedGun? then PickUpGun(w, me, i) else PickUpBomb(w, me, i)
  }

  function BuyGunFor(env: Env, w: World, me: Name, kind: Option<GunType>): (r: World)
    requires env.Valid() && w.Ok() && me in w.players
    ensures r.Ok() && SameBomb(w, r)
  {
    if kind.None? then w.(crashed := true)
    else
      var p := w.players[me];
      var (l, prev) := BuyGun(env.cfg, p.loadout, kind.value);
      var w1 := SetPlayer(w, me, p.(loadout := l));
      match prev
      case None => w1
      case Some(g) => AddItem(w1, DroppedGun(ItemRect(p), w1.nextDropId, g))
  }

  function BuyAmmoFor(env: Env, w: World, me: Name, forPrimary: bool): (r: World)
    requires env.Valid() && w.Ok() && me in w.players
    ensures r.Ok() && SameBomb(w, r)
  {
    var p := w.players[me];
    SetPlayer(w, me, p.(loadout := BuyClip(env.cfg, p.loadout, forPrimary)))
  }

  function SetMoving(p: Player, m: Movement, on: bool): Player {
    p.(up := if m == Up then on else p.up, down := if m == Down then on else p.down,
       left := if m == Left then on else p.left, right := if m == Right then on else p.right)
  }

  function Steer(w: World, me: Name, c: Command): (r: World)
    requires w.Ok() && me in w.players && (c.Move? || c.Rotate?)
    ensures r.Ok() && SameBomb(w, r)
  {
    var p := w.players[me];
    if c.Move? then SetPlayer(w, me, SetMoving(p, c.direction, c.on))
    else SetPlayer(w, me, p.(orientation := c.angle))
  }

  /** What a command does for a living player of the game, in the attack phase and after it. */
  function ActInAttack(w: World, me: Name, c: Command): (r: World)
    requires w.Ok() && me in w.players
    ensures r.Ok() && SameFuse(w, r)
  {
    match c
    case Move(_, _) => Steer(w, me, c)
    case Rotate(_) => Steer(w, me, c)
    case Act(on) => MakeAction(w, me, on)
    case Defuse(on) => DefuseBomb(w, me, on)
    case Equip(slot) => EquipSlot(w, me, slot)
    case PickUp => PickUpItem(w, me)
    case _ => w
  }

  function ActInBuy(env: Env, w: World, me: Name, c: Command): (r: World)
    requires env.Valid() && w.Ok() && me in w.players
    ensures r.Ok() && SameFuse(w, r)
  {
    match c
    case BuyGunCommand(kind) => BuyGunFor(env, w, me, kind)
    case BuyAmmoCommand(forPrimary) => BuyAmmoFor(env, w, me, forPrimary)
    case Equip(slot) => EquipSlot(w, me, slot)
    case _ => w
  }

  predicate ForAttack(c: Command) { !c.BuyGunCommand? && !c.BuyAmmoCommand? && !c.ForceStart? }
  predicate ForBuy(c: Command) { c.BuyGunCommand? || c.BuyAmmoCommand? || c.Equip? }

  /** GameWorld::with_player around a command that a phase executes: the dead do nothing, and a
      user who is not in the game raises an exception. */
  function Execute(env: Env, w: World, me: Name, c: Command, buying: bool): (r: World)
    requires env.Valid() && w.Ok()
    ensures r.Ok() && SameFuse(w, r)
  {
    if w.crashed || !(if buying then ForBuy(c) else ForAttack(c)) then w
    else if me !in w.players then w.(crashed := true)
    else if !w.players[me].Alive() then w
    else if buying then ActInBuy(env, w, me, c)
    else ActInAttack(w, me, c)
  }
}
