/** Who defuses the bomb, from where, and when he succeeds (src/server/game_world.cpp, make_player_defuse_bomb;
    src/server/bomb.cpp, update_planted). */
module Defusal {
  import opened Settings
  import opened Geometry
  import opened Slide
  import opened Arms
  import opened World
  import opened Accounts
  import opened Refinement
  import opened Rounds
  import opened Matches
  import opened Runs
  import F = Fuse
  import T = Turns
  import C = Confines

  // ---- One command

  /** Two rectangles have points in common that are inside both. */
  predicate Overlap(a: Rect, b: Rect) {
    a.x < b.x + b.w && b.x < a.x + a.w && a.y < b.y + b.h && b.y < a.y + a.h
  }

  /** A counter-terrorist who stands on the plantation starts, or starts again, to defuse. */
  predicate Pulls(w: World, me: Name, c: Command, buying: bool) {
    && !w.crashed && !buying && c == Defuse(true) && me in w.players
    && w.players[me].life > 0 && w.players[me].team == CT
    && w.bomb.plantation.Some? && Overlap(w.players[me].rect, w.bomb.plantation.value)
  }

  /** One who is defusing lets go of it. */
  predicate Releases(w: World, me: Name, c: Command, buying: bool) {
    && !w.crashed && !buying && c == Defuse(false) && me in w.players
    && w.players[me].life > 0 && w.players[me].team == CT && w.players[me].defusing
  }

  /** Whoever was defusing still is, but for `me`, who is or is not according to `on`. */
  ghost predicate DefusingBut(w: World, me: Name, on: bool, w': World) {
    && w'.players.Keys == w.players.Keys && me in w.players
    && forall n <- w.players :: w'.players[n].defusing == if n == me then on else w.players[n].defusing
  }

  ghost predicate SameDefusing(w: World, w': World) {
    w'.players.Keys == w.players.Keys && forall n <- w.players :: w'.players[n].defusing == w.players[n].defusing
  }

  /** A player of whom everything but the defusing may have changed. */
  lemma SetKeepsDefusing(w: World, n: Name, p: Player, w': World)
    requires w.Ok() && n in w.players && p.defusing == w.players[n].defusing && w'.players == SetPlayer(w, n, p).players
    ensures SameDefusing(w, w')
  {}

  lemma TriggerKeepsDefusing(w: World, me: Name, f: Trigger -> Trigger, w': World)
    requires w.Ok() && me in w.players && w' == OnTrigger(w, me, f)
    ensures SameDefusing(w, w')
  {
    var p := w.players[me];
    SetKeepsDefusing(w, me, p, w);
    if w'.players != w.players { SetKeepsDefusing(w, me, p.(loadout := p.loadout.OnTrigger(f)), w'); }
  }

  lemma ActionKeepsDefusing(w: World, me: Name, on: bool, w': World)
    requires w.Ok() && me in w.players && w' == MakeAction(w, me, on)
    ensures SameDefusing(w, w')
  {
    if !(w.players[me].loadout.equipped == BombSlot && !w.players[me].onSite) {
      var w1 := if on then PullTrigger(w, me) else ReleaseTrigger(w, me);
      if w1 != w {
        TriggerKeepsDefusing(
          w, me, if on then (t: Trigger) => t.Action() else (t: Trigger) => t.StopAction(), w1);
      }
      SetKeepsDefusing(w1, me, w1.players[me].(making := on), w');
    }
  }

  lemma EquipKeepsDefusing(w: World, me: Name, slot: WeaponType, w': World)
    requires w.Ok() && me in w.players && w' == EquipSlot(w, me, slot)
    ensures SameDefusing(w, w')
  {
    var w1 := ReleaseTrigger(w, me);
    TriggerKeepsDefusing(w, me, (t: Trigger) => t.StopAction(), w1);
    SetKeepsDefusing(w1, me, w1.players[me].(loadout := w1.players[me].loadout.Equip(slot)), w');
  }

  lemma GunKeepsDefusing(w: World, me: Name, i: nat, w': World)
    requires w.Ok() && me in w.players && i < |w.items| && w.items[i].DroppedGun? && w' == PickUpGun(w, me, i)
    ensures SameDefusing(w, w')
  {
    var p := w'.players[me];
    SetKeepsDefusing(w, me, p, w');
  }

  lemma BombKeepsDefusing(w: World, me: Name, i: nat, w': World)
    requires w.Ok() && me in w.players && i < |w.items| && w.items[i].DroppedBomb? && w' == PickUpBomb(w, me, i)
    ensures SameDefusing(w, w')
  {
    var p := w.players[me];
    if p.team == TT { SetKeepsDefusing(w, me, p.(loadout := p.loadout.(hasBomb := true)), w'); }
  }

  lemma PickUpKeepsDefusing(w: World, me: Name, w': World)
    requires w.Ok() && me in w.players && w' == PickUpItem(w, me)
    ensures SameDefusing(w, w')
  {
    match OldestInReach(w, me, 0)
    case None =>
    case Some(i) =>
      if w.items[i].DroppedGun? { GunKeepsDefusing(w, me, i, w'); } else { BombKeepsDefusing(w, me, i, w'); }
  }

  lemma BuyKeepsDefusing(env: Env, w: World, me: Name, c: Command, w': World)
    requires env.Valid() && w.Ok() && me in w.players && (c.BuyGunCommand? || c.BuyAmmoCommand?)
    requires w' == ActInBuy(env, w, me, c)
    ensures SameDefusing(w, w')
  {
    var p := w'.players[me];
    SetSame(w, me);
    assert w'.players == SetPlayer(w, me, p).players;
    SetKeepsDefusing(w, me, p, w');
  }

  lemma SetSame(w: World, n: Name)
    requires w.Ok() && n in w.players
    ensures SetPlayer(w, n, w.players[n]) == w
  {}

  lemma SteerKeepsDefusing(w: World, me: Name, c: Command, w': World)
    requires w.Ok() && me in w.players && (c.Move? || c.Rotate?) && w' == Steer(w, me, c)
    ensures SameDefusing(w, w')
  {
    SetKeepsDefusing(w, me, w'.players[me], w');
  }

  lemma OtherCommandsKeepDefusing(env: Env, w: World, me: Name, c: Command, buying: bool, w': World)
    requires env.Valid() && w.Ok() && !c.Defuse? && w' == Execute(env, w, me, c, buying)
    ensures SameDefusing(w, w')
  {
    if w' != w && me in w.players {
      match c
      case Move(_, _) => SteerKeepsDefusing(w, me, c, w');
      case Rotate(_) => SteerKeepsDefusing(w, me, c, w');
      case Act(on) => ActionKeepsDefusing(w, me, on, w');
      case Equip(slot) => EquipKeepsDefusing(w, me, slot, w');
      case PickUp => PickUpKeepsDefusing(w, me, w');
      case BuyGunCommand(_) => BuyKeepsDefusing(env, w, me, c, w');
      case BuyAmmoCommand(_) => BuyKeepsDefusing(env, w, me, c, w');
      case _ =>
    }
  }

  /** A bomb's trigger pulled, and released. */
  const PULLED := Trigger(true, true, 0.0)

  lemma DefuseDoes(env: Env, w: World, me: Name, on: bool, buying: bool, w': World)
    requires env.Valid() && w.Ok() && w' == Execute(env, w, me, Defuse(on), buying)
    ensures if Pulls(w, me, Defuse(on), buying) then
              && DefusingBut(w, me, true, w')
              && w'.bomb == if w.bomb.status == Defused then w.bomb else w.bomb.(trigger := PULLED)
            else if Releases(w, me, Defuse(on), buying) then
              && DefusingBut(w, me, false, w') && w'.bomb == w.bomb.(trigger := w.bomb.trigger.(making := false))
            else SameDefusing(w, w') && w'.bomb == w.bomb
  {}

  /** A command makes somebody defuse exactly if it pulls, and makes him let go exactly if it releases; and only so
      does it reach the trigger of a planted bomb. */
  lemma CommandDefuses(env: Env, w: World, me: Name, c: Command, buying: bool, w': World)
    requires env.Valid() && w.Ok() && Good(w) && w' == Execute(env, w, me, c, buying)
    ensures if Pulls(w, me, c, buying) then DefusingBut(w, me, true, w')
            else if Releases(w, me, c, buying) then DefusingBut(w, me, false, w')
            else SameDefusing(w, w')
    ensures w.bomb.status == Planted ==>
              w'.bomb == if Pulls(w, me, c, buying) then w.bomb.(trigger := PULLED)
                         else if Releases(w, me, c, buying) then w.bomb.(trigger := w.bomb.trigger.(making := false))
                         else w.bomb
  {
    if c.Defuse? {
      DefuseDoes(env, w, me, c.on, buying, w');
    } else {
      OtherCommandsKeepDefusing(env, w, me, c, buying, w');
      if w.bomb.status == Planted { F.OnlyDefusersReachIt(env, w, me, c, buying); }
    }
  }

  // ---- Turn after turn

  /** What the commands of a turn do to the trigger of a planted bomb: the last that pulls or releases it counts. */
  function Touched(env: Env, w: World, cs: seq<(Name, Command)>): Option<bool>
    requires env.Valid() && w.Ok()
    decreases |cs|
  {
    if cs == [] then None
    else
      var later := Touched(env, Execute(env, w, cs[0].0, cs[0].1, false), cs[1..]);
      if later.Some? then later else TouchOf(w, cs[0].0, cs[0].1)
  }

  /** A trigger before and after. */
  predicate TouchedTo(t: Trigger, touched: Option<bool>, t': Trigger) {
    match touched
    case None => t' == t
    case Some(on) => if on then t' == PULLED else !t'.making
  }

  function TouchOf(w: World, me: Name, c: Command): Option<bool> {
    if Pulls(w, me, c, false) then Some(true) else if Releases(w, me, c, false) then Some(false) else None
  }

  lemma CommandTouches(env: Env, w: World, me: Name, c: Command, w': World)
    requires env.Valid() && w.Ok() && Good(w) && w.bomb.status == Planted && w' == Execute(env, w, me, c, false)
    ensures Good(w') && w'.bomb == w.bomb.(trigger := w'.bomb.trigger)
    ensures TouchedTo(w.bomb.trigger, TouchOf(w, me, c), w'.bomb.trigger)
  {
    CommandDefuses(env, w, me, c, false, w');
    F.CommandKeepsGood(env, w, me, c, false, w');
  }

  lemma {:induction false} CommandsTouch(env: Env, w: World, cs: seq<(Name, Command)>, w': World)
    requires env.Valid() && w.Ok() && Good(w) && w.bomb.status == Planted && w' == ExecuteAll(env, w, cs, false)
    ensures w'.bomb == w.bomb.(trigger := w'.bomb.trigger)
    ensures TouchedTo(w.bomb.trigger, Touched(env, w, cs), w'.bomb.trigger)
    decreases |cs|
  {
    if cs != [] {
      var w1 := Execute(env, w, cs[0].0, cs[0].1, false);
      CommandTouches(env, w, cs[0].0, cs[0].1, w1);
      CommandsTouch(env, w1, cs[1..], w');
    }
  }

  /** A turn of a phase that is not one of purchases, and the frames that it accounts for. */
  datatype Turn = Turn(frame: Frame, frames: nat)

  function Played(env: Env, w: World, ts: seq<Turn>): (r: World)
    requires env.Valid() && w.Ok()
    ensures r.Ok()
  {
    if ts == [] then w
    else
      var last := ts[|ts| - 1];
      PlayFrame(env, Played(env, w, ts[..|ts| - 1]), last.frame, last.frames, false)
  }

  /** What the commands of the k-th turn do to the trigger. */
  function TouchedAt(env: Env, w: World, ts: seq<Turn>, k: nat): Option<bool>
    requires env.Valid() && w.Ok() && k < |ts|
  {
    Touched(env, Played(env, w, ts[..k]), ts[k].frame.commands)
  }

  function FramesOf(ts: seq<Turn>): nat {
    if ts == [] then 0 else FramesOf(ts[..|ts| - 1]) + ts[|ts| - 1].frames
  }

  /** A trigger held for so long, after one more turn. */
  function HeldOn(held: Option<nat>, touched: Option<bool>, frames: nat): Option<nat> {
    match touched
    case Some(on) => if on then Some(0) else None
    case None => if held.Some? then Some(held.value + frames) else None
  }

  /** For how many frames a trigger that nobody held at first has been held: those of the turns after the one that
      pulled it, if none let go of it. */
  function HeldFor(env: Env, w: World, ts: seq<Turn>): Option<nat>
    requires env.Valid() && w.Ok()
  {
    if ts == [] then None
    else
      var n := |ts| - 1;
      HeldOn(HeldFor(env, w, ts[..n]), TouchedAt(env, w, ts, n), ts[n].frames)
  }

  lemma SameTouch(env: Env, w: World, ts: seq<Turn>, n: nat, k: nat)
    requires env.Valid() && w.Ok() && k < n <= |ts|
    ensures TouchedAt(env, w, ts[..n], k) == TouchedAt(env, w, ts, k)
  {
    assert ts[..n][..k] == ts[..k];
  }

  /** Some turn pulled it, and no later one touched it. */
  ghost predicate HeldFrom(env: Env, w: World, ts: seq<Turn>, k: nat)
    requires env.Valid() && w.Ok()
  {
    k < |ts| && TouchedAt(env, w, ts, k) == Some(true) && forall j :: k < j < |ts| ==> TouchedAt(env, w, ts, j) == None
  }

  lemma HeldFromBefore(env: Env, w: World, ts: seq<Turn>, n: nat, k: nat)
    requires env.Valid() && w.Ok() && n + 1 == |ts| && HeldFrom(env, w, ts[..n], k) && TouchedAt(env, w, ts, n) == None
    ensures HeldFrom(env, w, ts, k)
  {
    SameTouch(env, w, ts, n, k);
    forall j | k < j < |ts| ensures TouchedAt(env, w, ts, j) == None {
      if j < n { SameTouch(env, w, ts, n, j); }
    }
  }

  /** That is: some turn pulled it, no later one touched it, and so many frames went by since. */
  lemma {:induction false} HeldSince(env: Env, w: World, ts: seq<Turn>, held: Option<nat>) returns (k: nat)
    requires env.Valid() && w.Ok() && held == HeldFor(env, w, ts) && held.Some?
    ensures HeldFrom(env, w, ts, k) && held.value == FramesOf(ts) - FramesOf(ts[..k + 1])
  {
    var n := |ts| - 1;
    assert held == HeldOn(HeldFor(env, w, ts[..n]), TouchedAt(env, w, ts, n), ts[n].frames);
    if TouchedAt(env, w, ts, n).Some? {
      k := n;
      assert ts[..n + 1] == ts;
    } else {
      k := HeldSince(env, w, ts[..n], HeldFor(env, w, ts[..n]));
      HeldFromBefore(env, w, ts, n, k);
      FramesBefore(ts, n, k + 1);
    }
  }

  lemma FramesBefore(ts: seq<Turn>, n: nat, k: nat)
    requires n + 1 == |ts| && k <= n
    ensures FramesOf(ts) - FramesOf(ts[..k]) == FramesOf(ts[..n]) - FramesOf(ts[..n][..k]) + ts[n].frames
  {
    assert ts[..n][..k] == ts[..k];
  }

  // ---- A tick leaves a planted bomb to its fuse

  lemma {:induction false} TurnsLeaveBomb(
    env: Env, w: World, i: nat, wasPlanted: bool, frames: nat, luck: Luck, place: Place, w': World)
    requires env.Valid() && w.Ok() && i <= |w.order| && Sound(AccountOf(w), place) && w.bomb.status != NotPlanted
    requires w' == TakeTurns(env, w, i, wasPlanted, frames, luck)
    ensures w'.bomb == w.bomb
    decreases |w.order| - i
  {
    if i < |w.order| && !w.crashed {
      var me := w.order[i];
      var w1 := TakeTurn(env, w, me, wasPlanted, frames, luck);
      NobodyHasIt(w, place, me);
      T.TurnLeavesBomb(env, w, me, wasPlanted, frames, luck, w.players[me], w1);
      var es := TurnTaken(env, w, me, wasPlanted, frames, luck);
      var place1 := EventsKeepSound(AccountOf(w), es, AccountOf(w1), place);
      TurnsLeaveBomb(env, w1, i + 1, wasPlanted, frames, luck, place1, w');
    }
  }

  lemma NobodyHasIt(w: World, place: Place, n: Name)
    requires Sound(AccountOf(w), place) && w.bomb.status != NotPlanted && n in w.players
    ensures !w.players[n].loadout.hasBomb
  {
    assert !Vitals(w)[n].hasBomb;
  }

  lemma TickBurnsOnly(env: Env, w: World, frames: nat, luck: Luck, w': World)
    requires env.Valid() && w.Ok() && Good(w) && w.bomb.status == Planted && !w.crashed
    requires w' == Tick(env, w, frames, luck)
    ensures w'.bomb == UpdatePlanted(env.cfg, w.bomb, Seconds(env.cfg, frames))
  {
    var place :| Sound(AccountOf(w), place);
    var w1 := BurnFuse(env, w, frames);
    var es, a := FuseBurns(env, w, frames, place);
    var place1 := EventsKeepSound(a, es, AccountOf(w1), place);
    ExplosionWinsTies(env.cfg, w.bomb, Seconds(env.cfg, frames));
    TurnsLeaveBomb(env, w1, 0, true, frames, luck, place1, w');
  }

  // ---- The defusal

  /** The trigger says how long it has been held. */
  predicate Counts(cfg: Settings, t: Trigger, held: Option<nat>)
    requires cfg.Valid()
  {
    t.making == held.Some? && (held.Some? ==> !t.just && t.since == Seconds(cfg, held.value))
  }

  /** What a turn makes of the count. */
  lemma TurnCounts(cfg: Settings, t: Trigger, held: Option<nat>, touched: Option<bool>, t1: Trigger, frames: nat,
                   held': Option<nat>)
    requires cfg.Valid() && Counts(cfg, t, held)
    requires held' == HeldOn(held, touched, frames)
    requires TouchedTo(t, touched, t1)
    ensures Counts(cfg, t1.Update(Seconds(cfg, frames)), held')
  {
    if held.Some? { F.SecondsAdd(cfg, held.value, frames); }
  }

  lemma {:induction false} CrashStays(env: Env, w: World, cs: seq<(Name, Command)>, buying: bool)
    requires env.Valid() && w.Ok() && w.crashed
    ensures ExecuteAll(env, w, cs, buying).crashed
    decreases |cs|
  {
    if cs != [] { CrashStays(env, Execute(env, w, cs[0].0, cs[0].1, buying), cs[1..], buying); }
  }

  /** One turn on a planted bomb whose trigger counts. */
  lemma OneTurn(env: Env, w: World, t: Turn, held: Option<nat>, held': Option<nat>, w': World)
    requires env.Valid() && w.Ok() && Good(w) && w.bomb.status == Planted && Counts(env.cfg, w.bomb.trigger, held)
    requires w' == PlayFrame(env, w, t.frame, t.frames, false) && !w'.crashed
    requires held' == HeldOn(held, Touched(env, w, t.frame.commands), t.frames)
    ensures var burnt := w.bomb.sincePlanted + Seconds(env.cfg, t.frames) >= env.cfg.detonationTime as real;
            var held := held'.Some? && Seconds(env.cfg, held'.value) >= env.cfg.defuseTime as real;
            && (w'.bomb.status == Exploded <==> burnt)
            && (w'.bomb.status == Defused <==> !burnt && held)
            && (!burnt && !held ==> w'.bomb.status == Planted && Counts(env.cfg, w'.bomb.trigger, held'))
  {
    var cs, dt := t.frame.commands, Seconds(env.cfg, t.frames);
    var w1 := ExecuteAll(env, w, cs, false);
    CommandsTouch(env, w, cs, w1);
    TurnCounts(env.cfg, w.bomb.trigger, held, Touched(env, w, cs), w1.bomb.trigger, t.frames, held');
    CommandsKeepGood(env, w, cs, w1);
    TickBurnsOnly(env, w1, t.frames, t.frame.luck, w');
    FuseIs(env.cfg, w1.bomb, dt, w'.bomb);
  }

  lemma FuseIs(cfg: Settings, b: Bomb, dt: real, b': Bomb)
    requires b.status == Planted && b' == UpdatePlanted(cfg, b, dt)
    ensures var t := b.trigger.Update(dt);
            var burnt := b.sincePlanted + dt >= cfg.detonationTime as real;
            var held := t.making && t.since >= cfg.defuseTime as real;
            && (b'.status == Exploded <==> burnt) && (b'.status == Defused <==> !burnt && held)
            && (!burnt && !held ==> b'.status == Planted && b'.trigger == t)
  {}

  lemma {:induction false} CommandsKeepGood(env: Env, w: World, cs: seq<(Name, Command)>, w': World)
    requires env.Valid() && w.Ok() && Good(w) && w' == ExecuteAll(env, w, cs, false)
    ensures Good(w')
    decreases |cs|
  {
    if cs != [] {
      var w1 := Execute(env, w, cs[0].0, cs[0].1, false);
      F.CommandKeepsGood(env, w, cs[0].0, cs[0].1, false, w1);
      CommandsKeepGood(env, w1, cs[1..], w');
    }
  }

  /** One more turn of a run. */
  lemma OneMore(env: Env, w: World, ts: seq<Turn>, n: nat, last: Turn, w1: World)
    requires env.Valid() && w.Ok() && n + 1 == |ts| && last == ts[n] && w1 == Played(env, w, ts[..n])
    ensures Played(env, w, ts) == PlayFrame(env, w1, last.frame, last.frames, false)
    ensures HeldFor(env, w, ts) == HeldOn(HeldFor(env, w, ts[..n]), Touched(env, w1, last.frame.commands), last.frames)
    ensures w1.crashed ==> Played(env, w, ts).crashed
  {
    if w1.crashed { CrashStays(env, w1, last.frame.commands, false); }
  }

  lemma {:induction false} HoldIsCounted(env: Env, w: World, ts: seq<Turn>, held: Option<nat>, w': World)
    requires env.Valid() && w.Ok() && Good(w) && w.bomb.status == Planted && !w.bomb.trigger.making
    requires w' == Played(env, w, ts) && held == HeldFor(env, w, ts)
    ensures Good(w') && w'.bomb.status != NotPlanted
    ensures !w'.crashed && w'.bomb.status == Planted ==> Counts(env.cfg, w'.bomb.trigger, held)
  {
    if ts != [] {
      var n, last := |ts| - 1, ts[|ts| - 1];
      var w1, before := Played(env, w, ts[..n]), HeldFor(env, w, ts[..n]);
      HoldIsCounted(env, w, ts[..n], before, w1);
      OneMore(env, w, ts, n, last, w1);
      FrameGoesOn(env, w1, last.frame, last.frames, false);
      if !w'.crashed && w'.bomb.status == Planted { OneTurn(env, w1, last, before, held, w'); }
    }
  }

  /** From a planted bomb that nobody is defusing, after any turns: it is defused in a turn exactly if the fuse has not
      burnt down and a counter-terrorist on the plantation has begun the defusal, nobody who was defusing has
      called it off, and the defuse time has gone by since. Whether he is still alive does not matter. */
  lemma DefusedIffHeld(env: Env, w: World, ts: seq<Turn>, n: nat, held: Option<nat>, dt: real, w1: World, w': World)
    requires env.Valid() && w.Ok() && Good(w) && w.bomb.status == Planted && !w.bomb.trigger.making
    requires |ts| == n + 1 && w1 == Played(env, w, ts[..n]) && w1.bomb.status == Planted
    requires w' == Played(env, w, ts) && !w'.crashed
    requires held == HeldFor(env, w, ts) && dt == Seconds(env.cfg, ts[n].frames)
    ensures var burnt := w1.bomb.sincePlanted + dt >= env.cfg.detonationTime as real;
            && (w'.bomb.status == Exploded <==> burnt)
            && (w'.bomb.status == Defused <==>
                !burnt && held.Some? && Seconds(env.cfg, held.value) >= env.cfg.defuseTime as real)
  {
    var before := HeldFor(env, w, ts[..n]);
    HoldIsCounted(env, w, ts[..n], before, w1);
    OneMore(env, w, ts, n, ts[n], w1);
    OneTurn(env, w1, ts[n], before, held, w');
  }

  // ---- From the plantation on

  /** Not planted, or planted with the trigger released. */
  predicate PlantedReleased(b: Bomb) { b.status == NotPlanted || (b.status == Planted && !b.trigger.making) }

  lemma TurnPlantsReleased(
    env: Env, w: World, me: Name, wasPlanted: bool, frames: nat, luck: Luck, w': World)
    requires env.Valid() && w.Ok() && me in w.players && w.bomb.status == NotPlanted
    requires w' == TakeTurn(env, w, me, wasPlanted, frames, luck)
    ensures PlantedReleased(w'.bomb)
  {
    var p, dt := w.players[me], frames as real / env.cfg.fps as real;
    if T.Holds(w, p, wasPlanted) {
      T.TurnUsesBomb(env, w, me, wasPlanted, frames, luck, p, dt, w');
    } else {
      T.TurnLeavesBomb(env, w, me, wasPlanted, frames, luck, p, w');
    }
  }

  lemma {:induction false} TurnsPlantReleased(
    env: Env, w: World, i: nat, frames: nat, luck: Luck, place: Place, w': World)
    requires env.Valid() && w.Ok() && i <= |w.order| && Sound(AccountOf(w), place) && PlantedReleased(w.bomb)
    requires w' == TakeTurns(env, w, i, false, frames, luck)
    ensures PlantedReleased(w'.bomb)
    decreases |w.order| - i
  {
    if w.bomb.status != NotPlanted {
      TurnsLeaveBomb(env, w, i, false, frames, luck, place, w');
    } else if i < |w.order| && !w.crashed {
      var me := w.order[i];
      var w1 := TakeTurn(env, w, me, false, frames, luck);
      TurnPlantsReleased(env, w, me, false, frames, luck, w1);
      var es := TurnTaken(env, w, me, false, frames, luck);
      var place1 := EventsKeepSound(AccountOf(w), es, AccountOf(w1), place);
      TurnsPlantReleased(env, w1, i + 1, frames, luck, place1, w');
    }
  }

  /** A tick that plants the bomb leaves it as DefusedIffHeld wants it: nobody is defusing it. */
  lemma TickPlantsReleased(env: Env, w: World, frames: nat, luck: Luck, w': World)
    requires env.Valid() && w.Ok() && Good(w) && w.bomb.status == NotPlanted && w' == Tick(env, w, frames, luck)
    ensures w'.bomb.status == Planted ==> !w'.bomb.trigger.making
  {
    var place :| Sound(AccountOf(w), place);
    if !w.crashed { TurnsPlantReleased(env, w, 0, frames, luck, place, w'); }
  }

  /** Only commands to defuse touch a planted bomb: a defuser who is killed, whose commands do nothing, does not let
      go of it. */
  lemma {:induction false} OnlyDefusersTouch(env: Env, w: World, cs: seq<(Name, Command)>)
    requires env.Valid() && w.Ok()
    requires forall e <- cs :: !e.1.Defuse? || (e.0 in w.players && w.players[e.0].life == 0)
    ensures Touched(env, w, cs) == None
    decreases |cs|
  {
    if cs != [] {
      var w1 := Execute(env, w, cs[0].0, cs[0].1, false);
      if !w.crashed { C.CommandThrowsIff(env, w, cs[0], false, w1); }
      OnlyDefusersTouch(env, w1, cs[1..]);
    }
  }
}
