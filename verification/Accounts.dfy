/** The accounts of a game: who is alive, who has the bomb, what lies on the ground, who killed whom.
    A small machine that the world refines step by step (Refinement.dfy), and its invariants: the one
    bomb is in exactly one place, every death is credited exactly once, no drop id is reused. */
module Accounts {
  import opened Settings
  import opened Geometry
  import opened Arms
  import opened World

  datatype Vital = Vital(team: Team, alive: bool, kills: nat, deaths: nat, hasBomb: bool)

  datatype Account = Account(
    vitals: map<Name, Vital>, items: seq<Item>, nextDropId: nat,
    status: BombStatus, justPlanted: bool, sincePlanted: real, marked: bool, deaths: seq<Death>)

  function VitalOf(p: Player): Vital { Vital(p.team, p.Alive(), p.kills, p.deaths, p.loadout.hasBomb) }

  function Vitals(w: World): map<Name, Vital> { map n <- w.players :: VitalOf(w.players[n]) }

  function AccountOf(w: World): Account {
    Account(Vitals(w), w.items, w.nextDropId,
            w.bomb.status, w.bomb.justPlanted, w.bomb.sincePlanted, w.bomb.plantation.Some?, w.deaths)
  }

  /** The events of a game, between one move of the fuse and the next. `guns` and `bombs` are what a
      victim lets fall, `back` the gun that comes out of a slot when another goes in. */
  datatype Event =
    | Kill(death: Death, guns: seq<Item>, bombs: seq<Item>)
    | Plant(planter: Name)
    | TakeGun(i: nat, back: seq<Item>)
    | TakeBomb(taker: Name, i: nat)
    | LeaveBomb(i: nat)
    | DropGunInShop(gun: Item)

  predicate FreshGuns(items: seq<Item>, next: nat) {
    |items| <= 1 && forall it <- items :: it.DroppedGun? && it.id == next
  }

  predicate FreshBombs(items: seq<Item>, n: nat, next: nat) {
    |items| == n && forall it <- items :: it.DroppedBomb? && it.id == next
  }

  predicate Enabled(a: Account, e: Event) {
    match e
    case Kill(d, guns, bombs) =>
      && d.victim in a.vitals && a.vitals[d.victim].alive
      && (d.source.ByPlayer? ==>
            && d.source.killer in a.vitals && d.source.killer != d.victim
            && d.teammates == (a.vitals[d.source.killer].team == a.vitals[d.victim].team))
      && FreshGuns(guns, a.nextDropId)
      && FreshBombs(bombs, if a.vitals[d.victim].hasBomb then 1 else 0, a.nextDropId + |guns|)
    case Plant(n) => n in a.vitals && a.vitals[n].hasBomb && a.vitals[n].alive && a.status != Defused
    case TakeGun(i, back) => i < |a.items| && a.items[i].DroppedGun? && FreshGuns(back, a.nextDropId)
    case TakeBomb(n, i) => i < |a.items| && a.items[i].DroppedBomb?
                           && n in a.vitals && a.vitals[n].alive && a.vitals[n].team == TT
    case LeaveBomb(i) => i < |a.items| && a.items[i].DroppedBomb?
    case DropGunInShop(gun) => gun.DroppedGun? && gun.id == a.nextDropId
  }

  /** A victim falls, with what it carried; no credit yet. */
  function Fall(a: Account, d: Death, guns: seq<Item>, bombs: seq<Item>): Account
    requires d.victim in a.vitals
  {
    var v := a.vitals[d.victim];
    a.(vitals := a.vitals[d.victim := Vital(v.team, false, v.kills, v.deaths + 1, false)],
       items := a.items + guns + bombs, nextDropId := a.nextDropId + |guns| + |bombs|,
       deaths := a.deaths + [d])
  }

  /** A kill counts for the killer of an enemy. */
  function Credit(a: Account, d: Death): Account
    requires d.source.ByPlayer? ==> d.source.killer in a.vitals
  {
    if d.source.ByPlayer? && !d.teammates then
      var k := a.vitals[d.source.killer];
      a.(vitals := a.vitals[d.source.killer := k.(kills := k.kills + 1)])
    else a
  }

  function Apply(a: Account, e: Event): Account
    requires Enabled(a, e)
  {
    match e
    case Kill(d, guns, bombs) => Credit(Fall(a, d, guns, bombs), d)
    case Plant(n) =>
      a.(vitals := a.vitals[n := a.vitals[n].(hasBomb := false)],
         status := Planted, justPlanted := true, marked := true)
    case TakeGun(i, back) =>
      a.(items := Without(a.items + back, i), nextDropId := a.nextDropId + |back|)
    case TakeBomb(n, i) =>
      a.(vitals := a.vitals[n := a.vitals[n].(hasBomb := true)], items := Without(a.items, i))
    case LeaveBomb(i) =>
      a.(items := a.items[i := DroppedBomb(a.items[i].rect, a.nextDropId)], nextDropId := a.nextDropId + 1)
    case DropGunInShop(gun) => a.(items := a.items + [gun], nextDropId := a.nextDropId + 1)
  }

  /** The events lead from one account to the other. */
  ghost predicate Leads(a: Account, es: seq<Event>, b: Account)
    decreases |es|
  {
    if es == [] then a == b else Enabled(a, es[0]) && Leads(Apply(a, es[0]), es[1..], b)
  }

  lemma {:induction false} LeadsOn(a: Account, es: seq<Event>, b: Account, fs: seq<Event>, c: Account)
    requires Leads(a, es, b) && Leads(b, fs, c)
    ensures Leads(a, es + fs, c)
    decreases |es|
  {
    if es == [] {
      assert es + fs == fs;
    } else {
      LeadsOn(Apply(a, es[0]), es[1..], b, fs, c);
      assert (es + fs)[1..] == es[1..] + fs;
    }
  }

  // ---- Where the bomb is

  datatype Place = Held(holder: Name) | OnGround(id: nat) | Away

  ghost predicate OnlyHolder(vs: map<Name, Vital>, n: Name) {
    n in vs && vs[n].hasBomb && forall m <- vs :: vs[m].hasBomb ==> m == n
  }

  ghost predicate NoHolder(vs: map<Name, Vital>) { forall m <- vs :: !vs[m].hasBomb }

  ghost predicate OnlyBombItem(items: seq<Item>, id: nat) {
    (exists it <- items :: it.DroppedBomb? && it.id == id) && (forall it <- items :: it.DroppedBomb? ==> it.id == id)
  }

  ghost predicate NoBombItem(items: seq<Item>) { forall it <- items :: it.DroppedGun? }

  /** The bomb is in the loadout of a living terrorist, or lies on the ground, or is away, having
      been planted; never in two of these and never twice in one. */
  ghost predicate Where(a: Account, place: Place) {
    match place
    case Held(n) =>
      && a.status == NotPlanted && OnlyHolder(a.vitals, n) && NoBombItem(a.items)
      && a.vitals[n].alive && a.vitals[n].team == TT
    case OnGround(id) => a.status == NotPlanted && NoHolder(a.vitals) && OnlyBombItem(a.items, id)
    case Away => a.status != NotPlanted && NoHolder(a.vitals) && NoBombItem(a.items)
  }

  // ---- Drop ids

  ghost predicate Ids(items: seq<Item>, next: nat) {
    && (forall i, j :: 0 <= i < j < |items| ==> items[i].id != items[j].id)
    && (forall it <- items :: it.id < next)
  }

  // ---- Deaths and their credit

  /** Enemies killed by a player, and deaths of a player, in a history of deaths. */
  function KillsIn(log: seq<Death>, n: Name): nat {
    if log == [] then 0
    else KillsIn(log[..|log| - 1], n)
         + (if log[|log| - 1].source == ByPlayer(n) && !log[|log| - 1].teammates then 1 else 0)
  }

  function DeathsIn(log: seq<Death>, n: Name): nat {
    if log == [] then 0
    else DeathsIn(log[..|log| - 1], n) + (if log[|log| - 1].victim == n then 1 else 0)
  }

  /** Each player's counters are what the history of deaths says, and it speaks of players only. */
  ghost predicate Ledger(a: Account) {
    && (forall n <- a.vitals ::
          a.vitals[n].kills == KillsIn(a.deaths, n) && a.vitals[n].deaths == DeathsIn(a.deaths, n))
    && (forall d <- a.deaths :: d.victim in a.vitals && (d.source.ByPlayer? ==> d.source.killer in a.vitals))
  }

  ghost predicate Sound(a: Account, place: Place) {
    && Where(a, place) && Ids(a.items, a.nextDropId) && Ledger(a)
    && (a.marked <==> a.status != NotPlanted)
  }

  // ---- Every event keeps the accounts

  lemma IdsGrow(items: seq<Item>, more: seq<Item>, next: nat)
    requires Ids(items, next) && |more| <= 1 && (forall it <- more :: it.id == next)
    ensures Ids(items + more, next + |more|)
  {}

  lemma IdsShrink(items: seq<Item>, i: nat, next: nat)
    requires Ids(items, next) && i < |items|
    ensures Ids(Without(items, i), next)
  {}

  lemma EventKeepsIds(a: Account, e: Event)
    requires Ids(a.items, a.nextDropId) && Enabled(a, e)
    ensures Ids(Apply(a, e).items, Apply(a, e).nextDropId) && a.nextDropId <= Apply(a, e).nextDropId
  {
    match e
    case Kill(d, guns, bombs) =>
      IdsGrow(a.items, guns, a.nextDropId);
      IdsGrow(a.items + guns, bombs, a.nextDropId + |guns|);
    case TakeGun(i, back) =>
      IdsGrow(a.items, back, a.nextDropId);
      IdsShrink(a.items + back, i, a.nextDropId + |back|);
    case TakeBomb(n, i) => IdsShrink(a.items, i, a.nextDropId);
    case DropGunInShop(gun) => IdsGrow(a.items, [gun], a.nextDropId);
    case _ =>
  }

  lemma LogGrows(log: seq<Death>, d: Death, n: Name)
    ensures KillsIn(log + [d], n) == KillsIn(log, n) + (if d.source == ByPlayer(n) && !d.teammates then 1 else 0)
    ensures DeathsIn(log + [d], n) == DeathsIn(log, n) + (if d.victim == n then 1 else 0)
  {
    assert (log + [d])[..|log|] == log;
  }

  lemma KillKeepsLedger(a: Account, e: Event, b: Account)
    requires Ledger(a) && Enabled(a, e) && e.Kill? && b == Apply(a, e)
    ensures Ledger(b)
  {
    forall n | n in b.vitals
      ensures b.vitals[n].kills == KillsIn(b.deaths, n) && b.vitals[n].deaths == DeathsIn(b.deaths, n)
    {
      LogGrows(a.deaths, e.death, n);
    }
  }

  lemma EventKeepsLedger(a: Account, e: Event)
    requires Ledger(a) && Enabled(a, e)
    ensures Ledger(Apply(a, e))
  {
    if e.Kill? { KillKeepsLedger(a, e, Apply(a, e)); }
  }

  lemma BombItemStays(items: seq<Item>, i: nat, back: seq<Item>, id: nat)
    requires OnlyBombItem(items, id) && i < |items| && items[i].DroppedGun? && forall it <- back :: it.DroppedGun?
    ensures OnlyBombItem(Without(items + back, i), id)
  {
    var b :| b in items && b.DroppedBomb? && b.id == id;
    var k :| 0 <= k < |items| && items[k] == b;
    var r := Without(items + back, i);
    assert r[if k < i then k else k - 1] == b;
  }

  lemma KillKeepsWhere(a: Account, e: Event, place: Place) returns (place': Place)
    requires Where(a, place) && Enabled(a, e) && e.Kill?
    ensures Where(Apply(a, e), place')
    ensures place' == place || (place == Held(e.death.victim) && place'.OnGround?)
  {
    place' := place;
    var items := Apply(a, e).items;
    if a.vitals[e.death.victim].hasBomb {
      assert items[|a.items| + |e.guns|] == e.bombs[0];
      place' := OnGround(a.nextDropId + |e.guns|);
    } else if place.OnGround? {
      var b :| b in a.items && b.DroppedBomb? && b.id == place.id;
      assert b in items;
    }
  }

  lemma OnlyOneBombItem(items: seq<Item>, next: nat, id: nat, i: nat)
    requires OnlyBombItem(items, id) && Ids(items, next) && i < |items| && items[i].DroppedBomb?
    ensures items[i].id == id && NoBombItem(Without(items, i))
  {}

  lemma EventKeepsWhere(a: Account, e: Event, place: Place) returns (place': Place)
    requires Where(a, place) && Ids(a.items, a.nextDropId) && Enabled(a, e)
    ensures Where(Apply(a, e), place')
  {
    place' := place;
    match e
    case Kill(_, _, _) => place' := KillKeepsWhere(a, e, place);
    case Plant(n) => place' := Away;
    case TakeGun(i, back) =>
      if place.OnGround? { BombItemStays(a.items, i, back, place.id); }
    case TakeBomb(n, i) =>
      assert a.items[i] in a.items;
      OnlyOneBombItem(a.items, a.nextDropId, place.id, i);
      place' := Held(n);
    case LeaveBomb(i) =>
      assert a.items[i] in a.items;
      OnlyOneBombItem(a.items, a.nextDropId, place.id, i);
      LeftBombIsOnly(a.items, i, a.nextDropId);
      place' := OnGround(a.nextDropId);
    case DropGunInShop(gun) =>
      if place.OnGround? {
        var b :| b in a.items && b.DroppedBomb? && b.id == place.id;
        assert b in a.items + [gun];
      }
  }

  lemma LeftBombIsOnly(items: seq<Item>, i: nat, next: nat)
    requires i < |items| && NoBombItem(Without(items, i))
    ensures OnlyBombItem(items[i := DroppedBomb(items[i].rect, next)], next)
  {
    var r := items[i := DroppedBomb(items[i].rect, next)];
    assert r[i] in r;
    forall k | 0 <= k < |items| && k != i ensures r[k].DroppedGun? {
      assert r[k] == Without(items, i)[if k < i then k else k - 1];
    }
  }

  lemma EventKeepsSound(a: Account, e: Event, place: Place) returns (place': Place)
    requires Sound(a, place) && Enabled(a, e)
    ensures Sound(Apply(a, e), place')
  {
    place' := EventKeepsWhere(a, e, place);
    EventKeepsIds(a, e);
    EventKeepsLedger(a, e);
  }

  lemma {:induction false} EventsKeepSound(a: Account, es: seq<Event>, b: Account, place: Place) returns (place': Place)
    requires Sound(a, place) && Leads(a, es, b)
    ensures Sound(b, place')
    decreases |es|
  {
    place' := place;
    if es != [] {
      place' := EventKeepsSound(a, es[0], place);
      place' := EventsKeepSound(Apply(a, es[0]), es[1..], b, place');
    }
  }

  // ---- What events may change

  predicate BombFollows(a: Account, b: Account) {
    b.sincePlanted == a.sincePlanted
    && if b.status == a.status then b.justPlanted == a.justPlanted
       else a.status == NotPlanted && b.status == Planted && b.justPlanted
  }

  /** Same players on the same sides; nobody comes back to life, and to die once is to have died one
      more time; history, kills and drop ids only grow; the bomb stays as it is or is planted. */
  ghost predicate Follows(a: Account, b: Account) {
    && b.vitals.Keys == a.vitals.Keys
    && (forall n <- a.vitals ::
          && b.vitals[n].team == a.vitals[n].team && (b.vitals[n].alive ==> a.vitals[n].alive)
          && a.vitals[n].kills <= b.vitals[n].kills
          && b.vitals[n].deaths == a.vitals[n].deaths + (if a.vitals[n].alive && !b.vitals[n].alive then 1 else 0))
    && a.deaths <= b.deaths
    && a.nextDropId <= b.nextDropId
    && BombFollows(a, b)
  }

  lemma EventFollows(a: Account, e: Event, place: Place)
    requires Sound(a, place) && Enabled(a, e)
    ensures Follows(a, Apply(a, e))
  {
    EventKeepsIds(a, e);
    EventMovesVitals(a, e);
    EventMovesBomb(a, e, place);
  }

  lemma EventMovesVitals(a: Account, e: Event)
    requires Enabled(a, e)
    ensures var b := Apply(a, e);
            && b.vitals.Keys == a.vitals.Keys
            && (forall n <- a.vitals ::
                  && b.vitals[n].team == a.vitals[n].team && (b.vitals[n].alive ==> a.vitals[n].alive)
                  && a.vitals[n].kills <= b.vitals[n].kills
                  && b.vitals[n].deaths == a.vitals[n].deaths
                     + (if a.vitals[n].alive && !b.vitals[n].alive then 1 else 0))
            && a.deaths <= b.deaths
  {}

  /** Only a bomb that is not planted is in anyone's hands to be planted. */
  lemma EventMovesBomb(a: Account, e: Event, place: Place)
    requires Where(a, place) && Enabled(a, e)
    ensures BombFollows(a, Apply(a, e))
  {}

  lemma FollowsTrans(a: Account, b: Account, c: Account)
    requires Follows(a, b) && Follows(b, c)
    ensures Follows(a, c)
  {}

  lemma {:induction false} EventsFollow(a: Account, es: seq<Event>, b: Account, place: Place)
    requires Sound(a, place) && Leads(a, es, b)
    ensures Follows(a, b)
    decreases |es|
  {
    if es != [] {
      var a1 := Apply(a, es[0]);
      EventFollows(a, es[0], place);
      var place1 := EventKeepsSound(a, es[0], place);
      EventsFollow(a1, es[1..], b, place1);
      FollowsTrans(a, a1, b);
    }
  }
}
