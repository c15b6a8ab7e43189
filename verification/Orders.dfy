/** What each command does (src/server/command.cpp, game_world.cpp, shop.cpp), field by field. */
module Orders {
  import opened Settings
  import opened Geometry
  import opened Slide
  import opened Arms
  import opened World
  import T = Turns
  import R = Rounds

  // ---- Who may do what

  /** Purchases and changes of weapon in the phase of purchases, anything but purchases in the others. */
  predicate Allowed(c: Command, buying: bool) {
    match c
    case BuyGunCommand(_) => buying
    case BuyAmmoCommand(_) => buying
    case Equip(_) => true
    case ForceStart => false
    case _ => !buying
  }

  predicate Acts(w: World, me: Name, c: Command, buying: bool) {
    !w.crashed && Allowed(c, buying) && me in w.players && w.players[me].life > 0
  }

  /** A command of somebody else than a living player in the right phase does nothing, unless it is of a user who is
      not in the game: that throws. */
  lemma OthersDoNothing(env: Env, w: World, me: Name, c: Command, buying: bool)
    requires env.Valid() && w.Ok() && !Acts(w, me, c, buying)
    ensures Execute(env, w, me, c, buying)
            == if !w.crashed && Allowed(c, buying) && me !in w.players then w.(crashed := true) else w
  {}

  /** Nothing but the record of one player changes. */
  ghost predicate OnlyPlayer(w: World, me: Name, p': Player, w': World) {
    w' == w.(players := w.players[me := p'])
  }

  /** The commands of a turn are executed one after the other, in the order of the queue. */
  lemma {:induction false} CommandsInOrder(
    env: Env, w: World, cs: seq<(Name, Command)>, buying: bool, w': World)
    returns (ws: seq<World>)
    requires env.Valid() && w.Ok() && w' == R.ExecuteAll(env, w, cs, buying)
    ensures |ws| == |cs| + 1 && ws[0] == w && ws[|cs|] == w' && forall k :: 0 <= k <= |cs| ==> ws[k].Ok()
    ensures forall k :: 0 <= k < |cs| ==> ws[k + 1] == Execute(env, ws[k], cs[k].0, cs[k].1, buying)
    decreases |cs|
  {
    ws := [w];
    if cs != [] {
      var w1 := Execute(env, w, cs[0].0, cs[0].1, buying);
      var rest := CommandsInOrder(env, w1, cs[1..], buying, w');
      ws := [w] + rest;
      forall k | 0 <= k < |cs| ensures ws[k + 1] == Execute(env, ws[k], cs[k].0, cs[k].1, buying) {
        if k > 0 { assert cs[k] == cs[1..][k - 1] && ws[k] == rest[k - 1]; }
      }
    }
  }

  // ---- Moving and turning

  predicate Pressed(p: Player, d: Movement) {
    match d
    case Up => p.up
    case Left => p.left
    case Down => p.down
    case Right => p.right
  }

  /** Up and left are towards the origin. */
  function WayOf(d: Movement): (int, int) {
    match d
    case Up => (0, -1)
    case Left => (-1, 0)
    case Down => (0, 1)
    case Right => (1, 0)
  }

  lemma MoveDoes(env: Env, w: World, me: Name, d: Movement, on: bool, p: Player, p': Player)
    requires env.Valid() && w.Ok() && Acts(w, me, Move(d, on), false) && p == w.players[me]
    requires p' == p.(up := if d == Up then on else p.up, left := if d == Left then on else p.left,
                      down := if d == Down then on else p.down, right := if d == Right then on else p.right)
    ensures OnlyPlayer(w, me, p', Execute(env, w, me, Move(d, on), false))
    ensures forall e :: Pressed(p', e) == if e == d then on else Pressed(p, e)
  {}

  /** So a key alone leads its way, and with its opposite nowhere. */
  lemma KeysLead(p: Player, way: nat, d: Movement, dx: int, dy: int)
    requires T.StepsBy(p, way, dx, dy) && Pressed(p, d) && forall e :: Pressed(p, e) ==> e == d
    ensures dx == WayOf(d).0 * way && dy == WayOf(d).1 * way
  {
    assert Pressed(p, Up) == p.up && Pressed(p, Down) == p.down;
    assert Pressed(p, Left) == p.left && Pressed(p, Right) == p.right;
  }

  lemma RotateDoes(env: Env, w: World, me: Name, angle: real)
    requires env.Valid() && w.Ok() && Acts(w, me, Rotate(angle), false)
    ensures OnlyPlayer(w, me, w.players[me].(orientation := angle), Execute(env, w, me, Rotate(angle), false))
  {}

  // ---- The weapon in the hand

  /** The trigger of what somebody has in a slot: that of the one bomb of the game, if he has it. */
  function TriggerIn(w: World, me: Name, slot: WeaponType): Option<Trigger>
    requires me in w.players
  {
    InSlot(w.players[me].loadout, slot, w.bomb.trigger)
  }

  function InSlot(l: Loadout, slot: WeaponType, ofBomb: Trigger): Option<Trigger> {
    match slot
    case PrimarySlot => if l.primary.Some? then Some(l.primary.value.trigger) else None
    case SecondarySlot => Some(l.secondary.trigger)
    case KnifeSlot => Some(l.knife.trigger)
    case BombSlot => if l.hasBomb then Some(ofBomb) else None
  }

  predicate SameButTrigger(slot: WeaponType, l: Loadout, l': Loadout) {
    && l' == l.(primary := l'.primary, secondary := l'.secondary, knife := l'.knife, equipped := l'.equipped)
    && l'.primary.Some? == l.primary.Some?
    && (l.primary.Some? ==> l'.primary.value == l.primary.value.(trigger := l'.primary.value.trigger))
    && l'.secondary == l.secondary.(trigger := l'.secondary.trigger)
    && l'.knife == l.knife.(trigger := l'.knife.trigger)
    && (slot != PrimarySlot ==> l'.primary == l.primary) && (slot != SecondarySlot ==> l'.secondary == l.secondary)
    && (slot != KnifeSlot ==> l'.knife == l.knife)
  }

  /** Nothing changes but the trigger of what `me` has in `slot`, whether he is acting and what he has in his hand. */
  ghost predicate OnlyTrigger(w: World, me: Name, slot: WeaponType, w': World)
    requires me in w.players
  {
    && me in w'.players && w' == w.(players := w.players[me := w'.players[me]], bomb := w'.bomb)
    && w'.bomb == w.bomb.(trigger := w'.bomb.trigger) && (slot != BombSlot ==> w'.bomb == w.bomb)
    && var p, p' := w.players[me], w'.players[me];
       p' == p.(making := p'.making, loadout := p'.loadout) && SameButTrigger(slot, p.loadout, p'.loadout)
  }

  function Changed(t: Option<Trigger>, f: Trigger -> Trigger): Option<Trigger> {
    if t.Some? then Some(f(t.value)) else None
  }

  lemma LoadoutTriggered(l: Loadout, f: Trigger -> Trigger, ofBomb: Trigger)
    ensures SameButTrigger(l.equipped, l, l.OnTrigger(f)) && l.OnTrigger(f).equipped == l.equipped
    ensures l.equipped != BombSlot ==>
              InSlot(l.OnTrigger(f), l.equipped, ofBomb) == Changed(InSlot(l, l.equipped, ofBomb), f)
  {}

  lemma TriggerDoes(w: World, me: Name, f: Trigger -> Trigger, slot: WeaponType, w': World)
    requires w.Ok() && me in w.players && slot == w.players[me].loadout.equipped && w' == OnTrigger(w, me, f)
    ensures OnlyTrigger(w, me, slot, w') && TriggerIn(w', me, slot) == Changed(TriggerIn(w, me, slot), f)
    ensures w'.players[me].making == w.players[me].making && w'.players[me].loadout.equipped == slot
  {
    if slot == BombSlot {
      BombTriggered(w, me, f, w');
    } else {
      var l := w.players[me].loadout;
      LoadoutTriggered(l, f, w.bomb.trigger);
      WeaponTriggered(w, me, slot, l.OnTrigger(f), w');
    }
  }

  lemma WeaponTriggered(w: World, me: Name, slot: WeaponType, l': Loadout, w': World)
    requires w.Ok() && me in w.players && SameButTrigger(slot, w.players[me].loadout, l')
    requires w' == SetPlayer(w, me, w.players[me].(loadout := l'))
    ensures OnlyTrigger(w, me, slot, w') && w'.players[me].making == w.players[me].making
    ensures w'.players[me].loadout == l' && w'.bomb == w.bomb
  {}

  lemma BombTriggered(w: World, me: Name, f: Trigger -> Trigger, w': World)
    requires w.Ok() && me in w.players && w.players[me].loadout.equipped == BombSlot && w' == OnTrigger(w, me, f)
    ensures OnlyTrigger(w, me, BombSlot, w') && w'.players == w.players
    ensures TriggerIn(w', me, BombSlot) == Changed(TriggerIn(w, me, BombSlot), f)
  {
    SamePlayer(w, me, w');
  }

  lemma SameLoadout(slot: WeaponType, l: Loadout)
    ensures SameButTrigger(slot, l, l)
  {}

  /** Where at most the trigger of the bomb changes. */
  lemma SamePlayer(w: World, me: Name, w': World)
    requires me in w.players && w' == w.(bomb := w.bomb.(trigger := w'.bomb.trigger))
    ensures OnlyTrigger(w, me, BombSlot, w')
  {
    SameLoadout(BombSlot, w.players[me].loadout);
    assert w.players[me := w.players[me]] == w.players;
  }

  lemma ThenActs(w: World, me: Name, slot: WeaponType, w1: World, p': Player, w': World)
    requires w.Ok() && me in w.players && OnlyTrigger(w, me, slot, w1) && w1.Ok()
    requires w' == SetPlayer(w1, me, p') && p'.loadout == w1.players[me].loadout.(equipped := p'.loadout.equipped)
    requires p' == w1.players[me].(making := p'.making, loadout := p'.loadout)
    ensures OnlyTrigger(w, me, slot, w') && TriggerIn(w', me, slot) == TriggerIn(w1, me, slot)
  {
    assert w.players[me := w1.players[me]][me := p'] == w.players[me := p'];
  }

  /** What a trigger pulled, or released, becomes. */
  predicate ActedOn(t: Option<Trigger>, on: bool, defused: bool, t': Option<Trigger>) {
    match t
    case None => t' == None
    case Some(was) =>
      t' == if !on then Some(Trigger(false, was.just, was.since))
            else if defused then t
            else Some(Trigger(true, true, 0.0))
  }

  /** Pulling a trigger starts it anew; releasing it leaves the time that it was held. A bomb in the hand reacts on a
      site only, and one that was defused is not pulled. */
  lemma ActDoes(env: Env, w: World, me: Name, on: bool, p: Player, slot: WeaponType, w': World)
    requires env.Valid() && w.Ok() && Acts(w, me, Act(on), false) && p == w.players[me] && slot == p.loadout.equipped
    requires w' == Execute(env, w, me, Act(on), false)
    ensures if slot == BombSlot && !p.onSite then w' == w
            else
              && OnlyTrigger(w, me, slot, w') && w'.players[me].making == on && w'.players[me].loadout.equipped == slot
              && ActedOn(TriggerIn(w, me, slot), on, slot == BombSlot && w.bomb.status == Defused,
                         TriggerIn(w', me, slot))
  {
    if slot != BombSlot || p.onSite { ActionDoes(w, me, on, slot, w'); }
  }

  lemma ActionDoes(w: World, me: Name, on: bool, slot: WeaponType, w': World)
    requires w.Ok() && me in w.players && slot == w.players[me].loadout.equipped
    requires (slot != BombSlot || w.players[me].onSite) && w' == MakeAction(w, me, on)
    ensures OnlyTrigger(w, me, slot, w') && w'.players[me].making == on && w'.players[me].loadout.equipped == slot
    ensures ActedOn(TriggerIn(w, me, slot), on, slot == BombSlot && w.bomb.status == Defused, TriggerIn(w', me, slot))
  {
    var w1 := if on then PullTrigger(w, me) else ReleaseTrigger(w, me);
    TriggerMoves(w, me, on, slot, w1);
    ThenActs(w, me, slot, w1, w1.players[me].(making := on), w');
  }

  lemma TriggerMoves(w: World, me: Name, on: bool, slot: WeaponType, w1: World)
    requires w.Ok() && me in w.players && slot == w.players[me].loadout.equipped
    requires w1 == if on then PullTrigger(w, me) else ReleaseTrigger(w, me)
    ensures OnlyTrigger(w, me, slot, w1) && w1.players[me].loadout.equipped == slot
    ensures ActedOn(TriggerIn(w, me, slot), on, slot == BombSlot && w.bomb.status == Defused, TriggerIn(w1, me, slot))
  {
    if on && slot == BombSlot && w.bomb.status == Defused {
      SamePlayer(w, me, w);
    } else {
      TriggerDoes(w, me, if on then (t: Trigger) => t.Action() else (t: Trigger) => t.StopAction(), slot, w1);
    }
  }

  /** Changing weapons releases the old one and takes the new one, if there is something in its slot. */
  lemma EquipDoes(env: Env, w: World, me: Name, to: WeaponType, buying: bool, l: Loadout, w': World)
    requires env.Valid() && w.Ok() && Acts(w, me, Equip(to), buying) && l == w.players[me].loadout
    requires w' == Execute(env, w, me, Equip(to), buying)
    ensures OnlyTrigger(w, me, l.equipped, w') && w'.players[me].making == w.players[me].making
    ensures ActedOn(TriggerIn(w, me, l.equipped), false, false, TriggerIn(w', me, l.equipped))
    ensures w'.players[me].loadout.equipped
            == if (to == PrimarySlot && l.primary.None?) || (to == BombSlot && !l.hasBomb) then l.equipped else to
  {
    SlotDoes(w, me, to, l, w');
  }

  lemma SlotDoes(w: World, me: Name, to: WeaponType, l: Loadout, w': World)
    requires w.Ok() && me in w.players && l == w.players[me].loadout && w' == EquipSlot(w, me, to)
    ensures OnlyTrigger(w, me, l.equipped, w') && w'.players[me].making == w.players[me].making
    ensures ActedOn(TriggerIn(w, me, l.equipped), false, false, TriggerIn(w', me, l.equipped))
    ensures w'.players[me].loadout.equipped
            == if (to == PrimarySlot && l.primary.None?) || (to == BombSlot && !l.hasBomb) then l.equipped else to
  {
    var w1 := ReleaseTrigger(w, me);
    TriggerDoes(w, me, (t: Trigger) => t.StopAction(), l.equipped, w1);
    var l1 := w1.players[me].loadout;
    ThenActs(w, me, l.equipped, w1, w1.players[me].(loadout := l1.Equip(to)), w');
  }

  // ---- Purchases

  /** The gun as it comes from the shop. */
  function NewOf(cfg: Settings, kind: GunType): Gun {
    Gun(kind, Trigger(false, false, 0.0), 0.0, cfg.Gun(kind).initialAmmo % 0x1_0000)
  }

  function Bought(cfg: Settings, l: Loadout, kind: GunType): Loadout
    requires l.money >= cfg.Gun(kind).price
  {
    l.(money := l.money - cfg.Gun(kind).price, primary := Some(NewOf(cfg, kind)))
  }

  /** An item is put last on the ground, under an id that no item had. */
  ghost predicate Falls(w: World, r: Rect, g: Gun, w': World) {
    w'.items == w.items + [DroppedGun(r, w.nextDropId, g)] && w'.nextDropId == w.nextDropId + 1
  }

  ghost predicate SameGround(w: World, w': World) { w'.items == w.items && w'.nextDropId == w.nextDropId }

  /** Nothing else changes. */
  ghost predicate OnlyGround(w: World, me: Name, p': Player, w': World) {
    w' == w.(players := w.players[me := p'], items := w'.items, nextDropId := w'.nextDropId)
  }

  /** Who can pay gets a new gun for the price, always in the primary slot, and what was there falls at his middle; what
      he has in his hand stays the slot that it was. */
  lemma BuyGunDoes(env: Env, w: World, me: Name, kind: GunType, p: Player, w': World)
    requires env.Valid() && w.Ok() && Acts(w, me, BuyGunCommand(Some(kind)), true) && p == w.players[me]
    requires w' == Execute(env, w, me, BuyGunCommand(Some(kind)), true)
    ensures var price, l := env.cfg.Gun(kind).price, p.loadout;
            if l.money < price then w' == w
            else
              && OnlyGround(w, me, p.(loadout := Bought(env.cfg, l, kind)), w')
              && if l.primary.None? then SameGround(w, w')
                 else Falls(w, Rect(p.rect.x + p.rect.w / 2, p.rect.y + p.rect.h / 2, 200, 200), l.primary.value, w')
  {
    if p.loadout.money < env.cfg.Gun(kind).price { T.SetSame(w, me); }
  }

  /** A clip for the gun asked for, which there must be, and at the one price of all clips. */
  lemma BuyAmmoDoes(env: Env, w: World, me: Name, forPrimary: bool, p: Player, w': World)
    requires env.Valid() && w.Ok() && Acts(w, me, BuyAmmoCommand(forPrimary), true) && p == w.players[me]
    requires w' == Execute(env, w, me, BuyAmmoCommand(forPrimary), true)
    ensures var l, price := p.loadout, env.cfg.clipPrice;
            if l.money < price || (forPrimary && l.primary.None?) then w' == w
            else OnlyPlayer(w, me, p.(loadout := WithClip(env.cfg, l.(money := l.money - price), forPrimary)), w')
  {
    ClipIs(env.cfg, p.loadout, forPrimary);
    AmmoIs(env, w, me, forPrimary, p, w');
    T.SetSame(w, me);
  }

  lemma ClipIs(cfg: Settings, l: Loadout, forPrimary: bool)
    ensures BuyClip(cfg, l, forPrimary)
            == if l.money < cfg.clipPrice || (forPrimary && l.primary.None?) then l
               else WithClip(cfg, l.(money := l.money - cfg.clipPrice), forPrimary)
  {}

  lemma AmmoIs(env: Env, w: World, me: Name, forPrimary: bool, p: Player, w': World)
    requires env.Valid() && w.Ok() && Acts(w, me, BuyAmmoCommand(forPrimary), true) && p == w.players[me]
    requires w' == Execute(env, w, me, BuyAmmoCommand(forPrimary), true)
    ensures w' == SetPlayer(w, me, p.(loadout := BuyClip(env.cfg, p.loadout, forPrimary)))
  {}

  /** More ammunition, by a clip of the gun, in 16 bits. */
  function Reloaded(cfg: Settings, g: Gun): Gun { g.(ammo := (g.ammo + cfg.Gun(g.kind).clipSize) % 0x1_0000) }

  function WithClip(cfg: Settings, l: Loadout, forPrimary: bool): Loadout
    requires forPrimary ==> l.primary.Some?
  {
    if forPrimary then l.(primary := Some(Reloaded(cfg, l.primary.value)))
    else l.(secondary := Reloaded(cfg, l.secondary))
  }

  // ---- Picking up

  /** Every point of the item is a point of the player's rectangle. */
  ghost predicate Covers(a: Rect, b: Rect) { forall x, y :: HasPoint(b, x, y) ==> HasPoint(a, x, y) }

  predicate HasPoint(r: Rect, x: int, y: int) { r.x <= x <= r.x + r.w && r.y <= y <= r.y + r.h }

  lemma ContainsIffCovers(a: Rect, b: Rect)
    requires b.w >= 0 && b.h >= 0
    ensures a.Contains(b) <==> Covers(a, b)
  {
    if Covers(a, b) {
      assert HasPoint(b, b.x, b.y) && HasPoint(b, b.x + b.w, b.y + b.h);
    }
  }

  /** The item that a player picks up: of those that he covers, the one dropped first. */
  ghost predicate OldestCovered(w: World, me: Name, i: nat)
    requires me in w.players
  {
    && i < |w.items| && Covers(w.players[me].rect, w.items[i].rect)
    && forall j :: 0 <= j < |w.items| && Covers(w.players[me].rect, w.items[j].rect) ==> w.items[i].id <= w.items[j].id
  }

  /** A glock takes the secondary slot and any other gun the primary one, and what was there is put last where the gun
      lay; only a terrorist takes the bomb, and a counter-terrorist makes it the last to be tried. */
  ghost predicate PicksUp(w: World, me: Name, i: nat, p': Player, items: seq<Item>)
    requires me in w.players && i < |w.items|
  {
    var p, it, rest := w.players[me], w.items[i], w.items[..i] + w.items[i + 1..];
    match it
    case DroppedGun(at, _, g) =>
      if g.kind == Glock then
        && p' == p.(loadout := p.loadout.(secondary := g))
        && items == rest + [DroppedGun(at, w.nextDropId, p.loadout.secondary)]
      else
        && p' == p.(loadout := p.loadout.(primary := Some(g)))
        && items == if p.loadout.primary.None? then rest
                    else rest + [DroppedGun(at, w.nextDropId, p.loadout.primary.value)]
    case DroppedBomb(at, _) =>
      if p.team == TT then p' == p.(loadout := p.loadout.(hasBomb := true)) && items == rest
      else p' == p && items == w.items[i := DroppedBomb(at, w.nextDropId)]
  }

  lemma GunPicked(w: World, me: Name, i: nat, w': World)
    requires w.Ok() && me in w.players && i < |w.items| && w.items[i].DroppedGun? && w' == PickUpGun(w, me, i)
    ensures PicksUp(w, me, i, w'.players[me], w'.items) && OnlyGround(w, me, w'.players[me], w')
  {
    var p, it := w.players[me], w.items[i];
    var prev := if it.gun.kind == Glock then Some(p.loadout.secondary) else p.loadout.primary;
    if prev.Some? {
      var fallen := DroppedGun(it.rect, w.nextDropId, prev.value);
      var all := w.items + [fallen];
      assert all[..i] + all[i + 1..] == w.items[..i] + w.items[i + 1..] + [fallen];
    }
  }

  lemma BombPicked(w: World, me: Name, i: nat, w': World)
    requires w.Ok() && me in w.players && i < |w.items| && w.items[i].DroppedBomb? && w' == PickUpBomb(w, me, i)
    ensures PicksUp(w, me, i, w'.players[me], w'.items) && OnlyGround(w, me, w'.players[me], w')
  {
    T.SetSame(w, me);
  }

  lemma PickUpDoes(env: Env, w: World, me: Name, w': World) returns (i: nat)
    requires env.Valid() && w.Ok() && Acts(w, me, PickUp, false) && w' == Execute(env, w, me, PickUp, false)
    requires forall it <- w.items :: it.rect.w >= 0 && it.rect.h >= 0
    ensures if i < |w.items|
            then OldestCovered(w, me, i) && PicksUp(w, me, i, w'.players[me], w'.items)
                 && OnlyGround(w, me, w'.players[me], w')
            else w' == w && forall it <- w.items :: !Covers(w.players[me].rect, it.rect)
  {
    i := |w.items|;
    forall it | it in w.items ensures w.players[me].rect.Contains(it.rect) <==> Covers(w.players[me].rect, it.rect) {
      ContainsIffCovers(w.players[me].rect, it.rect);
    }
    assert forall j :: 0 <= j < |w.items| ==> (InReach(w, me, j) <==> Covers(w.players[me].rect, w.items[j].rect));
    match OldestInReach(w, me, 0)
    case None =>
    case Some(k) =>
      i := k;
      if w.items[k].DroppedGun? { GunPicked(w, me, k, w'); } else { BombPicked(w, me, k, w'); }
  }

  // ---- What falls with a death

  /** The primary gun falls at the corner of the dead, the bomb at their middle; money and knife stay, and the rest of
      the loadout is as at the start. */
  lemma DeathDoes(env: Env, w: World, v: Name, damage: nat, s: Source, p: Player, w': World)
    requires env.Valid() && w.Ok() && v in w.players && p == w.players[v] && 0 < p.life <= damage
    requires w' == ReceiveDamage(env, w, v, damage, s)
    ensures var l, id := p.loadout, w.nextDropId;
            var corner := Rect(p.rect.x, p.rect.y, 200, 200);
            var gun := if l.primary.None? then [] else [DroppedGun(corner, id, l.primary.value)];
            var at := Rect(p.rect.x + p.rect.w / 2, p.rect.y + p.rect.h / 2, 200, 200);
            && w'.items == w.items + gun + (if l.hasBomb then [DroppedBomb(at, id + |gun|)] else [])
            && w'.nextDropId == id + |w'.items| - |w.items|
            && w'.players[v].loadout == Loadout(l.money, l.knife, None, NewOf(env.cfg, Glock), false, SecondarySlot)
  {
    var w1 := Marked(w, v, s);
    assert w'.items == DropBomb(DropGun(w1, w1.players[v]), w1.players[v]).items;
  }
}
