/** The world refines the machine of Accounts.dfy: every command and every turn of a tick amounts to a
    sequence of its events. */
module Refinement {
  import opened Settings
  import opened Geometry
  import opened Slide
  import opened Arms
  import opened World
  import opened Accounts

  /** The events between two worlds. */
  ghost predicate Moves(w: World, es: seq<Event>, w': World) { Leads(AccountOf(w), es, AccountOf(w')) }

  lemma MovesOn(a: World, es: seq<Event>, b: World, fs: seq<Event>, c: World)
    requires Moves(a, es, b) && Moves(b, fs, c)
    ensures Moves(a, es + fs, c)
  {
    LeadsOn(AccountOf(a), es, AccountOf(b), fs, AccountOf(c));
  }

  lemma OneEvent(a: Account, e: Event, b: Account)
    requires Enabled(a, e) && b == Apply(a, e)
    ensures Leads(a, [e], b)
  {
    assert [e][1..] == [];
  }

  lemma VitalsOfSet(w: World, n: Name, p: Player)
    requires w.Ok() && n in w.players
    ensures Vitals(SetPlayer(w, n, p)) == Vitals(w)[n := VitalOf(p)]
    ensures AccountOf(SetPlayer(w, n, p)) == AccountOf(w).(vitals := Vitals(w)[n := VitalOf(p)])
  {}

  /** A change to one player that the accounts do not see. */
  lemma Passing(w: World, n: Name, p: Player)
    requires w.Ok() && n in w.players && VitalOf(w.players[n]) == VitalOf(p)
    ensures AccountOf(SetPlayer(w, n, p)) == AccountOf(w)
  {
    VitalsOfSet(w, n, p);
    assert Vitals(w)[n := VitalOf(p)] == Vitals(w);
  }

  // ---- Death

  lemma GunFalls(w: World, p: Player) returns (guns: seq<Item>)
    requires w.Ok()
    ensures FreshGuns(guns, w.nextDropId)
    ensures DropGun(w, p) == w.(items := w.items + guns, nextDropId := w.nextDropId + |guns|)
  {
    guns := if p.loadout.primary.Some? then [DropGun(w, p).items[|w.items|]] else [];
    assert DropGun(w, p).items == w.items + guns;
  }

  lemma BombFalls(w: World, p: Player) returns (bombs: seq<Item>)
    requires w.Ok()
    ensures FreshBombs(bombs, if p.loadout.hasBomb then 1 else 0, w.nextDropId)
    ensures DropBomb(w, p) == w.(items := w.items + bombs, nextDropId := w.nextDropId + |bombs|)
  {
    bombs := if p.loadout.hasBomb then [DropBomb(w, p).items[|w.items|]] else [];
    assert DropBomb(w, p).items == w.items + bombs;
  }

  /** drop_weapons in one piece. */
  lemma WeaponsFall(env: Env, w: World, v: Name) returns (guns: seq<Item>, bombs: seq<Item>)
    requires env.Valid() && w.Ok() && v in w.players
    ensures DroppedTo(w, v, guns, bombs, DropWeapons(env, w, v))
  {
    var p := w.players[v];
    guns := GunFalls(w, p);
    var w1 := DropGun(w, p);
    bombs := BombFalls(w1, p);
    var w2 := DropBomb(w1, p);
    assert Vitals(w2) == Vitals(w);
    VitalsOfSet(w2, v, p.(loadout := ResetLoadout(env.cfg, p.loadout, true)));
  }

  lemma MarkedAccount(w: World, v: Name, s: Source)
    requires w.Ok() && v in w.players
    ensures MarkedTo(w, v, s, Marked(w, v, s))
  {
    CorpseVital(w.players[v]);
    VitalsOfSet(w, v, Corpse(w.players[v]));
    assert Vitals(Marked(w, v, s)) == Vitals(SetPlayer(w, v, Corpse(w.players[v])));
  }

  /** `w'` is the world `w` after the fall of `v`, who carried `guns` and `bombs`. */
  ghost predicate FellTo(w: World, v: Name, s: Source, guns: seq<Item>, bombs: seq<Item>, w': World)
    requires v in w.players
  {
    && FreshGuns(guns, w.nextDropId)
    && FreshBombs(bombs, if w.players[v].loadout.hasBomb then 1 else 0, w.nextDropId + |guns|)
    && AccountOf(w') == Fall(AccountOf(w), DeathOf(w, v, s), guns, bombs)
  }

  lemma Killed(env: Env, w: World, v: Name, s: Source) returns (guns: seq<Item>, bombs: seq<Item>)
    requires env.Valid() && w.Ok() && v in w.players
    ensures FellTo(w, v, s, guns, bombs, DropWeapons(env, Marked(w, v, s), v))
  {
    var w1 := Marked(w, v, s);
    MarkedAccount(w, v, s);
    guns, bombs := WeaponsFall(env, w1, v);
    FellInTwo(w, w1, DropWeapons(env, w1, v), v, s, guns, bombs);
  }

  ghost predicate MarkedTo(w: World, v: Name, s: Source, w1: World)
    requires v in w.players
  {
    && v in w1.players && w1.players[v].loadout.hasBomb == w.players[v].loadout.hasBomb
    && AccountOf(w1) == AccountOf(w).(
         vitals := Vitals(w)[v := Vitals(w)[v].(alive := false, deaths := Vitals(w)[v].deaths + 1)],
         deaths := w.deaths + [DeathOf(w, v, s)])
  }

  ghost predicate DroppedTo(w: World, v: Name, guns: seq<Item>, bombs: seq<Item>, w': World)
    requires v in w.players
  {
    && FreshGuns(guns, w.nextDropId)
    && FreshBombs(bombs, if w.players[v].loadout.hasBomb then 1 else 0, w.nextDropId + |guns|)
    && AccountOf(w') == AccountOf(w).(
         vitals := Vitals(w)[v := Vitals(w)[v].(hasBomb := false)],
         items := w.items + guns + bombs, nextDropId := w.nextDropId + |guns| + |bombs|)
  }

  lemma FellInTwo(w: World, w1: World, w': World, v: Name, s: Source, guns: seq<Item>, bombs: seq<Item>)
    requires v in w.players && MarkedTo(w, v, s, w1) && DroppedTo(w1, v, guns, bombs, w')
    ensures FellTo(w, v, s, guns, bombs, w')
  {
    FallInTwo(AccountOf(w), AccountOf(w1), AccountOf(w'), DeathOf(w, v, s), guns, bombs);
  }

  lemma CorpseVital(p: Player)
    ensures VitalOf(Corpse(p)) == VitalOf(p).(alive := false, deaths := p.deaths + 1)
  {}

  /** First the death, then the fall of what was carried. */
  lemma FallInTwo(a: Account, a1: Account, a2: Account, d: Death, guns: seq<Item>, bombs: seq<Item>)
    requires d.victim in a.vitals
    requires var v := a.vitals[d.victim];
             a1 == a.(vitals := a.vitals[d.victim := v.(alive := false, deaths := v.deaths + 1)],
                 deaths := a.deaths + [d])
    requires a2 == a1.(vitals := a1.vitals[d.victim := a1.vitals[d.victim].(hasBomb := false)],
                       items := a1.items + guns + bombs, nextDropId := a1.nextDropId + |guns| + |bombs|)
    ensures a2 == Fall(a, d, guns, bombs)
  {}

  /** A living player hit by several bullets: nothing shows, or one of them kills. */
  datatype Outcome = Lives | Dies(guns: seq<Item>, bombs: seq<Item>)

  ghost predicate HitsTo(w: World, v: Name, s: Source, w': World, o: Outcome)
    requires v in w.players && v in w'.players
  {
    match o
    case Lives => w'.players[v].Alive() && AccountOf(w') == AccountOf(w)
    case Dies(guns, bombs) =>
      !w'.players[v].Alive() && FellTo(w, v, s, guns, bombs, w')
  }

  lemma Damaged(env: Env, w: World, v: Name, d: nat, s: Source) returns (o: Outcome)
    requires env.Valid() && w.Ok() && v in w.players && w.players[v].Alive()
    ensures v in ReceiveDamage(env, w, v, d, s).players
    ensures HitsTo(w, v, s, ReceiveDamage(env, w, v, d, s), o)
  {
    var p := w.players[v];
    if p.life > d {
      Passing(w, v, p.(life := p.life - d));
      o := Lives;
    } else {
      var guns, bombs := Killed(env, w, v, s);
      o := Dies(guns, bombs);
    }
  }

  lemma SameAccountSameDeath(w: World, w1: World, v: Name, s: Source)
    requires AccountOf(w1) == AccountOf(w) && v in w.players && v in w1.players
    ensures DeathOf(w1, v, s) == DeathOf(w, v, s) && w1.players[v].loadout.hasBomb == w.players[v].loadout.hasBomb
  {
    assert Vitals(w)[v] == Vitals(w1)[v];
    if s.ByPlayer? {
      assert s.killer in Vitals(w) <==> s.killer in Vitals(w1);
      if s.killer in w.players { assert Vitals(w)[s.killer] == Vitals(w1)[s.killer]; }
    }
  }

  /** Of several bullets on a living player one at most kills; the dead feel the rest no more. */
  lemma {:induction false} Hit(env: Env, w: World, v: Name, hits: seq<nat>, s: Source) returns (o: Outcome)
    requires env.Valid() && w.Ok() && v in w.players && w.players[v].Alive()
    ensures v in ReceiveHits(env, w, v, hits, s).players
    ensures HitsTo(w, v, s, ReceiveHits(env, w, v, hits, s), o)
    decreases |hits|
  {
    o := Lives;
    if hits != [] {
      var w1 := ReceiveDamage(env, w, v, hits[0], s);
      o := Damaged(env, w, v, hits[0], s);
      if o.Lives? {
        o := Hit(env, w1, v, hits[1..], s);
        SameAccountSameDeath(w, w1, v, s);
      } else {
        DeadFeelNothing(env, w1, v, hits[1..], s);
      }
    }
  }

  lemma {:induction false} DeadFeelNothing(env: Env, w: World, v: Name, hits: seq<nat>, s: Source)
    requires env.Valid() && w.Ok() && v in w.players && !w.players[v].Alive()
    ensures ReceiveHits(env, w, v, hits, s) == w
    decreases |hits|
  {
    if hits != [] {
      assert ReceiveDamage(env, w, v, hits[0], s) == w;
      DeadFeelNothing(env, w, v, hits[1..], s);
    }
  }

  lemma Credited(env: Env, w: World, killer: Name, v: Name, bonus: nat, d: Death)
    requires env.Valid() && w.Ok() && killer in w.players && v in w.players
    requires d.source == ByPlayer(killer) && d.teammates == Teammates(w, killer, v)
    ensures AccountOf(CountKill(env, w, killer, v, bonus)) == Credit(AccountOf(w), d)
  {
    var p := w.players[killer];
    RewardVitals(env.cfg, p, bonus);
    if d.teammates { Passing(w, killer, Penalized(env.cfg, p)); }
    else { VitalsOfSet(w, killer, Rewarded(p, bonus)); }
  }

  lemma RewardVitals(cfg: Settings, p: Player, bonus: nat)
    ensures VitalOf(Penalized(cfg, p)) == VitalOf(p)
    ensures VitalOf(Rewarded(p, bonus)) == VitalOf(p).(kills := p.kills + 1)
  {}

  // ---- Shots

  /** A volley at a living player: at most one event, the kill with its credit. */
  lemma HitAndCredited(env: Env, w: World, me: Name, v: Name, hits: seq<nat>, bonus: nat) returns (es: seq<Event>)
    requires env.Valid() && w.Ok() && me in w.players && v in w.players && v != me && w.players[v].Alive()
    ensures var w2 := ReceiveHits(env, w, v, hits, ByPlayer(me));
            var w' := if w2.players[v].Alive() then w2 else CountKill(env, w2, me, v, bonus);
            Moves(w, es, w')
  {
    var w2 := ReceiveHits(env, w, v, hits, ByPlayer(me));
    var o := Hit(env, w, v, hits, ByPlayer(me));
    match o
    case Lives => es := [];
    case Dies(guns, bombs) =>
      var d := DeathOf(w, v, ByPlayer(me));
      es := [Kill(d, guns, bombs)];
      SidesStay(w, w2, me, v, d, guns, bombs);
      Credited(env, w2, me, v, bonus, d);
      OneEvent(AccountOf(w), Kill(d, guns, bombs), AccountOf(CountKill(env, w2, me, v, bonus)));
  }

  lemma SidesStay(w: World, w2: World, me: Name, v: Name, d: Death, guns: seq<Item>, bombs: seq<Item>)
    requires me in w.players && v in w.players && me in w2.players && v in w2.players
    requires d.victim == v && AccountOf(w2) == Fall(AccountOf(w), d, guns, bombs)
    ensures Teammates(w2, me, v) == Teammates(w, me, v)
  {
    assert Vitals(w2)[me].team == Vitals(w)[me].team && Vitals(w2)[v].team == Vitals(w)[v].team;
  }

  /** One shot: whoever dies of it was alive before, dies once, and is credited once. */
  lemma Struck(env: Env, w: World, me: Name, angle: real, hits: seq<nat>, reach: Option<nat>, bonus: nat)
    returns (es: seq<Event>)
    requires env.Valid() && w.Ok() && me in w.players
    ensures Moves(w, es, Strike(env, w, me, angle, hits, reach, bonus))
  {
    es := [];
    match Shoot(env, w, me, angle)
    case None => assert Vitals(w.(crashed := true)) == Vitals(w);
    case Some((victim, impact)) =>
      var p := w.players[me].(shot := Some(impact.point));
      var w1 := SetPlayer(w, me, p);
      Passing(w, me, p);
      if victim.Some? {
        var hs := if reach.Some? && impact.t >= reach.value as real then [] else hits;
        es := HitAndCredited(env, w1, me, victim.value, hs, bonus);
      }
  }

  lemma {:induction false} PelletsFired(
    env: Env, w: World, me: Name, center: real, i: nat, n: nat, luck: Luck, bonus: nat)
    returns (es: seq<Event>)
    requires env.Valid() && w.Ok() && me in w.players && i <= n
    ensures Moves(w, es, FirePellets(env, w, me, center, i, n, luck, bonus))
    decreases n - i
  {
    es := [];
    if i < n && !w.crashed {
      var w1 := FirePellet(env, w, me, center, i, luck, bonus);
      var first := Struck(env, w, me, PelletAngle(center, i), Bullets(luck, me, i, 1), None, bonus);
      var rest := PelletsFired(env, w1, me, center, i + 1, n, luck, bonus);
      MovesOn(w, first, w1, rest, FirePellets(env, w1, me, center, i + 1, n, luck, bonus));
      es := first + rest;
    }
  }

  lemma Fired(env: Env, w: World, me: Name, kind: GunType, luck: Luck) returns (es: seq<Event>)
    requires env.Valid() && w.Ok() && me in w.players
    ensures Moves(w, es, Fire(env, w, me, kind, luck))
  {
    var angle, bonus := w.players[me].orientation, env.cfg.Gun(kind).killBonus;
    if kind == M3 {
      es := PelletsFired(env, w, me, angle, 0, Pellets(kind), luck, bonus);
    } else {
      es := Struck(env, w, me, angle, Bullets(luck, me, 0, AmmoCost(kind)), None, bonus);
    }
  }

  lemma GunPut(w: World, me: Name, g: Gun)
    requires w.Ok() && me in w.players
    ensures AccountOf(PutGun(w, me, g)) == AccountOf(w)
  {
    var p := w.players[me];
    if p.loadout.equipped == PrimarySlot { Passing(w, me, p.(loadout := p.loadout.(primary := Some(g)))); }
    if p.loadout.equipped == SecondarySlot { Passing(w, me, p.(loadout := p.loadout.(secondary := g))); }
  }

  lemma ShotOver(w: World, me: Name, g: Gun)
    requires w.Ok() && me in w.players
    ensures AccountOf(AfterShot(w, me, g)) == AccountOf(w)
  {
    GunPut(w, me, g);
  }

  lemma Discharged(env: Env, w: World, me: Name, g': Gun, luck: Luck) returns (es: seq<Event>)
    requires env.Valid() && w.Ok() && me in w.players
    ensures Moves(w, es, Discharge(env, w, me, g', luck))
  {
    es := Fired(env, w, me, g'.kind, luck);
    ShotOver(Fire(env, w, me, g'.kind, luck), me, g');
  }

  lemma GunFired(env: Env, w: World, w0: World, me: Name, g': Gun, luck: Luck) returns (es: seq<Event>)
    requires env.Valid() && w0.Ok() && me in w0.players && AccountOf(w0) == AccountOf(w)
    ensures Moves(w, es, Discharge(env, w0, me, g', luck))
  {
    es := Discharged(env, w0, me, g', luck);
  }

  lemma GunUsed(env: Env, w: World, me: Name, g: Gun, fires: bool, g': Gun, luck: Luck) returns (es: seq<Event>)
    requires env.Valid() && w.Ok() && me in w.players && (fires ==> g.ammo >= AmmoCost(g.kind))
    ensures Moves(w, es, UseGun(env, w, me, g, fires, g', luck))
  {
    if fires {
      GunPut(w, me, Spent(g));
      es := GunFired(env, w, PutGun(w, me, Spent(g)), me, g', luck);
    } else {
      GunPut(w, me, g');
      es := [];
    }
  }

  lemma KnifePut(w: World, me: Name, k: Knife)
    requires w.Ok() && me in w.players
    ensures AccountOf(PutKnife(w, me, k)) == AccountOf(w)
  {
    var p := w.players[me];
    Passing(w, me, p.(loadout := p.loadout.(knife := k)));
  }

  lemma KnifeUsed(env: Env, w: World, me: Name, stabs: bool, k': Knife) returns (es: seq<Event>)
    requires env.Valid() && w.Ok() && me in w.players
    ensures Moves(w, es, UseKnife(env, w, me, stabs, k'))
  {
    var angle, cfg := w.players[me].orientation, env.cfg;
    if stabs {
      es := Struck(env, w, me, angle, [cfg.knifeDamage], Some(cfg.knifeDistance), cfg.knifeKillBonus);
      KnifePut(Strike(env, w, me, angle, [cfg.knifeDamage], Some(cfg.knifeDistance), cfg.knifeKillBonus), me, k');
    } else {
      KnifePut(w, me, k');
      es := [];
    }
  }

  // ---- The bomb in hand

  lemma BombUsed(env: Env, w: World, me: Name, dt: real) returns (es: seq<Event>)
    requires env.Valid() && w.Ok() && me in w.players
    requires w.players[me].loadout.hasBomb && w.players[me].Alive()
    ensures Moves(w, es, UseBomb(env, w, me, dt))
  {
    es := [];
    var p, w' := w.players[me], UseBomb(env, w, me, dt);
    var t := w.bomb.trigger.Update(dt);
    if w.bomb.status != Defused && p.onSite && t.making && t.since >= env.cfg.plantationTime as real {
      var q := p.(loadout := WithoutBomb(p.loadout));
      VitalsOfSet(w, me, q);
      assert Vitals(w') == Vitals(w)[me := VitalOf(q)];
      es := [Plant(me)];
      OneEvent(AccountOf(w), Plant(me), AccountOf(w'));
    } else {
      assert Vitals(w') == Vitals(w);
    }
  }

  // ---- A turn, and all turns of a tick

  lemma WeaponUsed(env: Env, w: World, me: Name, dt: real, luck: Luck) returns (es: seq<Event>)
    requires env.Valid() && w.Ok() && me in w.players && w.players[me].Alive()
    ensures Moves(w, es, UseWeapon(env, w, me, dt, luck))
  {
    es := [];
    var l := w.players[me].loadout;
    match l.equipped
    case KnifeSlot => es := KnifeUsed(env, w, me, CanStab(env.cfg, l.knife), UpdateKnife(env.cfg, l.knife, dt));
    case BombSlot => if l.hasBomb { es := BombUsed(env, w, me, dt); }
    case _ =>
      if EquippedGun(l).Some? {
        var g := EquippedGun(l).value;
        es := GunUsed(env, w, me, g, CanShoot(env.cfg, g), UpdateGun(env.cfg, g, dt), luck);
      }
  }

  lemma Walked(env: Env, w: World, me: Name, stepped: nat)
    requires env.Valid() && w.Ok() && me in w.players
    ensures AccountOf(Walk(env, w, me, stepped)) == AccountOf(w)
    ensures Walk(env, w, me, stepped).players[me].life == w.players[me].life
  {
    var p := w.players[me];
    var (dx, dy) := StepOf(p, stepped);
    var rect := MakeStep(Targets(env, w, me), p.rect, dx, dy);
    Passing(w, me, p.(rect := rect, onSite := OnSite(env, rect)));
  }

  lemma Updated(env: Env, w: World, me: Name, frames: nat, luck: Luck) returns (es: seq<Event>)
    requires env.Valid() && w.Ok() && me in w.players
    ensures Moves(w, es, UpdatePlayer(env, w, me, frames, luck))
  {
    es := [];
    var dt := frames as real / env.cfg.fps as real;
    var p := w.players[me].(shot := None, planting := false);
    var w0 := SetPlayer(w, me, p);
    Passing(w, me, p);
    if p.Alive() && !p.defusing {
      if p.making && p.onSite && p.loadout.equipped == BombSlot && p.loadout.hasBomb {
        Passing(w0, me, p.(planting := true));
        es := BombUsed(env, SetPlayer(w0, me, p.(planting := true)), me, dt);
      } else {
        Walked(env, w0, me, frames * env.cfg.playerSpeed);
        es := WeaponUsed(env, Walk(env, w0, me, frames * env.cfg.playerSpeed), me, dt, luck);
      }
    }
  }

  lemma TurnTaken(env: Env, w: World, me: Name, wasPlanted: bool, frames: nat, luck: Luck) returns (es: seq<Event>)
    requires env.Valid() && w.Ok() && me in w.players
    ensures Moves(w, es, TakeTurn(env, w, me, wasPlanted, frames, luck))
  {
    var p := w.players[me];
    var called := p.team == CT && wasPlanted && w.bomb.status == Defused && p.defusing;
    var w0 := if called then SetPlayer(w, me, p.(defusing := false)) else w;
    if called { Passing(w, me, p.(defusing := false)); }
    es := Updated(env, w0, me, frames, luck);
  }

  lemma {:induction false} TurnsTaken(env: Env, w: World, i: nat, wasPlanted: bool, frames: nat, luck: Luck)
    returns (es: seq<Event>)
    requires env.Valid() && w.Ok() && i <= |w.order|
    ensures Moves(w, es, TakeTurns(env, w, i, wasPlanted, frames, luck))
    decreases |w.order| - i
  {
    es := [];
    if i < |w.order| && !w.crashed {
      var w1 := TakeTurn(env, w, w.order[i], wasPlanted, frames, luck);
      var first := TurnTaken(env, w, w.order[i], wasPlanted, frames, luck);
      var rest := TurnsTaken(env, w1, i + 1, wasPlanted, frames, luck);
      MovesOn(w, first, w1, rest, TakeTurns(env, w1, i + 1, wasPlanted, frames, luck));
      es := first + rest;
    }
  }

  // ---- The explosion

  lemma {:induction false} BlastWave(env: Env, w: World, at: Rect, i: nat) returns (es: seq<Event>)
    requires env.Valid() && w.Ok() && i <= |w.order|
    ensures Moves(w, es, Explode(env, w, at, i))
    decreases |w.order| - i
  {
    es := [];
    if i < |w.order| {
      var w1 := BlastOne(env, w, w.order[i], at);
      var first := BlastOnOne(env, w, w.order[i], at);
      var rest := BlastWave(env, w1, at, i + 1);
      MovesOn(w, first, w1, rest, Explode(env, w1, at, i + 1));
      es := first + rest;
    }
  }

  lemma BlastOnOne(env: Env, w: World, v: Name, at: Rect) returns (es: seq<Event>)
    requires env.Valid() && w.Ok() && v in w.players
    ensures Moves(w, es, BlastOne(env, w, v, at))
  {
    es := [];
    var cfg, d2 := env.cfg, SquaredDistance(at, w.players[v].rect);
    if w.players[v].Alive() && d2 <= cfg.explosionRadius * cfg.explosionRadius {
      es := BlastHits(env, w, v, BlastDamage(cfg.explosionDamage, cfg.explosionRadius, d2, cfg.explosionDamage));
    }
  }

  lemma BlastHits(env: Env, w: World, v: Name, damage: nat) returns (es: seq<Event>)
    requires env.Valid() && w.Ok() && v in w.players && w.players[v].Alive()
    ensures Moves(w, es, ReceiveDamage(env, w, v, damage, Blast))
  {
    var o := Damaged(env, w, v, damage, Blast);
    match o
    case Lives => es := [];
    case Dies(guns, bombs) =>
      es := [Kill(DeathOf(w, v, Blast), guns, bombs)];
      OneEvent(AccountOf(w), es[0], AccountOf(ReceiveDamage(env, w, v, damage, Blast)));
  }

  // ---- Commands

  lemma TriggerMoved(w: World, me: Name, f: Trigger -> Trigger)
    requires w.Ok() && me in w.players
    ensures AccountOf(OnTrigger(w, me, f)) == AccountOf(w)
  {
    var p := w.players[me];
    if p.loadout.equipped == BombSlot { assert Vitals(OnTrigger(w, me, f)) == Vitals(w); }
    else { Passing(w, me, p.(loadout := p.loadout.OnTrigger(f))); }
  }

  lemma ActionMade(w: World, me: Name, on: bool)
    requires w.Ok() && me in w.players
    ensures AccountOf(MakeAction(w, me, on)) == AccountOf(w)
  {
    TriggerMoved(w, me, (t: Trigger) => t.Action());
    TriggerMoved(w, me, (t: Trigger) => t.StopAction());
    var w1 := if on then PullTrigger(w, me) else ReleaseTrigger(w, me);
    Passing(w1, me, w1.players[me].(making := on));
  }

  lemma DefusalMade(w: World, me: Name, on: bool)
    requires w.Ok() && me in w.players
    ensures AccountOf(DefuseBomb(w, me, on)) == AccountOf(w)
  {
    var p := w.players[me];
    Passing(w, me, p.(defusing := on));
    assert Vitals(DefuseBomb(w, me, on)) == Vitals(w);
  }

  lemma SlotEquipped(w: World, me: Name, slot: WeaponType)
    requires w.Ok() && me in w.players
    ensures AccountOf(EquipSlot(w, me, slot)) == AccountOf(w)
  {
    TriggerMoved(w, me, (t: Trigger) => t.StopAction());
    var w1 := ReleaseTrigger(w, me);
    Passing(w1, me, w1.players[me].(loadout := w1.players[me].loadout.Equip(slot)));
  }

  lemma GunPickedUp(w: World, me: Name, i: nat) returns (es: seq<Event>)
    requires w.Ok() && me in w.players && i < |w.items| && w.items[i].DroppedGun?
    ensures Moves(w, es, PickUpGun(w, me, i))
  {
    var p, it := w.players[me], w.items[i];
    var prev := if it.gun.kind == Glock then Some(p.loadout.secondary) else p.loadout.primary;
    var l := if it.gun.kind == Glock then p.loadout.(secondary := it.gun) else p.loadout.(primary := Some(it.gun));
    Passing(w, me, p.(loadout := l));
    var back := if prev.None? then [] else [DroppedGun(it.rect, w.nextDropId, prev.value)];
    es := [TakeGun(i, back)];
    var w' := PickUpGun(w, me, i);
    assert Vitals(w') == Vitals(SetPlayer(w, me, p.(loadout := l)));
    assert w'.items == Without(w.items + back, i);
    OneEvent(AccountOf(w), es[0], AccountOf(w'));
  }

  lemma BombPickedUp(w: World, me: Name, i: nat) returns (es: seq<Event>)
    requires w.Ok() && me in w.players && i < |w.items| && w.items[i].DroppedBomb? && w.players[me].Alive()
    ensures Moves(w, es, PickUpBomb(w, me, i))
  {
    var p, w' := w.players[me], PickUpBomb(w, me, i);
    if p.team == TT {
      var q := p.(loadout := p.loadout.(hasBomb := true));
      VitalsOfSet(w, me, q);
      assert Vitals(w') == Vitals(w)[me := VitalOf(q)];
      es := [TakeBomb(me, i)];
    } else {
      assert Vitals(w') == Vitals(w);
      es := [LeaveBomb(i)];
    }
    OneEvent(AccountOf(w), es[0], AccountOf(w'));
  }

  lemma ItemPickedUp(w: World, me: Name) returns (es: seq<Event>)
    requires w.Ok() && me in w.players && w.players[me].Alive()
    ensures Moves(w, es, PickUpItem(w, me))
  {
    match OldestInReach(w, me, 0)
    case None => es := [];
    case Some(i) =>
      if w.items[i].DroppedGun? { es := GunPickedUp(w, me, i); } else { es := BombPickedUp(w, me, i); }
  }

  lemma GunBought(env: Env, w: World, me: Name, kind: Option<GunType>) returns (es: seq<Event>)
    requires env.Valid() && w.Ok() && me in w.players
    ensures Moves(w, es, BuyGunFor(env, w, me, kind))
  {
    es := [];
    var w' := BuyGunFor(env, w, me, kind);
    if kind.None? {
      assert Vitals(w') == Vitals(w);
    } else {
      var p := w.players[me];
      var (l, prev) := BuyGun(env.cfg, p.loadout, kind.value);
      Passing(w, me, p.(loadout := l));
      if prev.Some? {
        var it := DroppedGun(ItemRect(p), w.nextDropId, prev.value);
        assert Vitals(w') == Vitals(SetPlayer(w, me, p.(loadout := l)));
        es := [DropGunInShop(it)];
        OneEvent(AccountOf(w), es[0], AccountOf(w'));
      }
    }
  }

  lemma Steered(w: World, me: Name, c: Command)
    requires w.Ok() && me in w.players && (c.Move? || c.Rotate?)
    ensures AccountOf(Steer(w, me, c)) == AccountOf(w)
  {
    var p := w.players[me];
    if c.Move? { Passing(w, me, SetMoving(p, c.direction, c.on)); } else { Passing(w, me, p.(orientation := c.angle)); }
  }

  lemma ActedInAttack(w: World, me: Name, c: Command) returns (es: seq<Event>)
    requires w.Ok() && me in w.players && w.players[me].Alive()
    ensures Moves(w, es, ActInAttack(w, me, c))
  {
    es := [];
    match c
    case Move(_, _) => Steered(w, me, c);
    case Rotate(_) => Steered(w, me, c);
    case Act(on) => ActionMade(w, me, on);
    case Defuse(on) => DefusalMade(w, me, on);
    case Equip(slot) => SlotEquipped(w, me, slot);
    case PickUp => es := ItemPickedUp(w, me);
    case _ =>
  }

  lemma ActedInBuy(env: Env, w: World, me: Name, c: Command) returns (es: seq<Event>)
    requires env.Valid() && w.Ok() && me in w.players
    ensures Moves(w, es, ActInBuy(env, w, me, c))
  {
    es := [];
    var p := w.players[me];
    match c
    case BuyGunCommand(kind) => es := GunBought(env, w, me, kind);
    case BuyAmmoCommand(forPrimary) => Passing(w, me, p.(loadout := BuyClip(env.cfg, p.loadout, forPrimary)));
    case Equip(slot) => SlotEquipped(w, me, slot);
    case _ =>
  }

  lemma Executed(env: Env, w: World, me: Name, c: Command, buying: bool) returns (es: seq<Event>)
    requires env.Valid() && w.Ok()
    ensures Moves(w, es, Execute(env, w, me, c, buying))
  {
    es := [];
    if w.crashed || !(if buying then ForBuy(c) else ForAttack(c)) {
    } else if me !in w.players {
      assert Vitals(w.(crashed := true)) == Vitals(w);
    } else if w.players[me].Alive() {
      if buying { es := ActedInBuy(env, w, me, c); } else { es := ActedInAttack(w, me, c); }
    }
  }
}
