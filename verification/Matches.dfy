/** Safety over whole matches: the accounts of Accounts.dfy stay sound through every command, tick,
    phase and round. */
module Matches {
  import opened Settings
  import opened Geometry
  import opened Slide
  import opened Arms
  import opened World
  import opened Accounts
  import opened Refinement
  import opened Rounds

  // ---- The fuse

  /** The bomb's status after the fuse has burnt for a tick. */
  function FuseStatus(cfg: Settings, b: Bomb, dt: real): BombStatus {
    if b.status != Planted then b.status else UpdatePlanted(cfg, b, dt).status
  }

  lemma FuseBurns(env: Env, w: World, frames: nat, place: Place) returns (es: seq<Event>, a: Account)
    requires env.Valid() && w.Ok() && Sound(AccountOf(w), place)
    ensures Sound(a, place) && Leads(a, es, AccountOf(BurnFuse(env, w, frames)))
    ensures a.vitals == Vitals(w) && a.deaths == w.deaths && a.nextDropId == w.nextDropId
    ensures var b, dt := BurnFuse(env, w, frames).bomb, frames as real / env.cfg.fps as real;
            && b == (if w.bomb.status == Planted then UpdatePlanted(env.cfg, w.bomb, dt) else w.bomb)
            && a.status == b.status && a.justPlanted == b.justPlanted && a.sincePlanted == b.sincePlanted
  {
    es := [];
    a := AccountOf(w);
    if w.bomb.status == Planted {
      var w1 := w.(bomb := UpdatePlanted(env.cfg, w.bomb, frames as real / env.cfg.fps as real));
      assert Vitals(w1) == Vitals(w);
      a := AccountOf(w1);
      if w1.bomb.status == Exploded && w1.bomb.plantation.Some? {
        es := BlastWave(env, w1, w1.bomb.plantation.value, 0);
      }
    }
  }

  lemma TickIsSound(env: Env, w: World, frames: nat, luck: Luck, place: Place) returns (place': Place)
    requires env.Valid() && w.Ok() && Sound(AccountOf(w), place)
    ensures Sound(AccountOf(Tick(env, w, frames, luck)), place')
  {
    place' := place;
    if !w.crashed {
      var w1 := BurnFuse(env, w, frames);
      var es, a := FuseBurns(env, w, frames, place);
      place' := EventsKeepSound(a, es, AccountOf(w1), place);
      var fs := TurnsTaken(env, w1, 0, w.bomb.status == Planted, frames, luck);
      place' := EventsKeepSound(AccountOf(w1), fs, AccountOf(Tick(env, w, frames, luck)), place');
    }
  }

  /** Nobody changes side, nobody comes back to life or dies twice, history only grows. */
  ghost predicate LifeGoesOn(w: World, w': World) {
    var vs, vs' := Vitals(w), Vitals(w');
    && vs'.Keys == vs.Keys
    && (forall n <- vs :: vs'[n].team == vs[n].team && (vs'[n].alive ==> vs[n].alive)
                          && vs[n].kills <= vs'[n].kills
                          && vs'[n].deaths == vs[n].deaths + (if vs[n].alive && !vs'[n].alive then 1 else 0))
    && w.deaths <= w'.deaths && w.nextDropId <= w'.nextDropId
  }

  /** The status moves forward only, by the fuse before the turns; a bomb is just planted exactly
      in the tick that plants it, unless it was said to be before and none is planted now. */
  predicate BombTicks(cfg: Settings, b: Bomb, b': Bomb, dt: real) {
    match b.status
    case NotPlanted =>
      && b'.sincePlanted == b.sincePlanted && (b'.status == NotPlanted || b'.status == Planted)
      && (b'.justPlanted <==> b'.status == Planted || b.justPlanted)
    case Planted =>
      b'.status == FuseStatus(cfg, b, dt) && b'.sincePlanted == b.sincePlanted + dt && !b'.justPlanted
    case _ =>
      b'.status == b.status && b'.sincePlanted == b.sincePlanted && b'.justPlanted == b.justPlanted
  }

  lemma TickFollows(env: Env, w: World, frames: nat, luck: Luck, place: Place)
    requires env.Valid() && w.Ok() && Sound(AccountOf(w), place) && !w.crashed
    ensures LifeGoesOn(w, Tick(env, w, frames, luck))
    ensures BombTicks(env.cfg, w.bomb, Tick(env, w, frames, luck).bomb, frames as real / env.cfg.fps as real)
  {
    var w1, w' := BurnFuse(env, w, frames), Tick(env, w, frames, luck);
    var es, a := FuseBurns(env, w, frames, place);
    var place1 := EventsKeepSound(a, es, AccountOf(w1), place);
    var fs := TurnsTaken(env, w1, 0, w.bomb.status == Planted, frames, luck);
    EventsFollow(a, es, AccountOf(w1), place);
    EventsFollow(AccountOf(w1), fs, AccountOf(w'), place1);
    FollowsTrans(a, AccountOf(w1), AccountOf(w'));
    FuseThenTurns(env.cfg, w, w1, w', a, frames as real / env.cfg.fps as real);
  }

  /** The two halves of a tick, as the bomb sees them. */
  lemma FuseThenTurns(cfg: Settings, w: World, w1: World, w': World, a: Account, dt: real)
    requires w1.bomb == (if w.bomb.status == Planted then UpdatePlanted(cfg, w.bomb, dt) else w.bomb)
    requires a.status == w1.bomb.status && a.justPlanted == w1.bomb.justPlanted
             && a.sincePlanted == w1.bomb.sincePlanted
    requires a.vitals == Vitals(w) && a.deaths == w.deaths && a.nextDropId == w.nextDropId
    requires Follows(a, AccountOf(w'))
    ensures LifeGoesOn(w, w') && BombTicks(cfg, w.bomb, w'.bomb, dt)
  {}

  /** Within a round the status goes NOT_PLANTED, PLANTED, then DEFUSED or EXPLODED for good, and an
      explosion due wins over a defusal due in the same tick. */
  lemma ExplosionWinsTies(cfg: Settings, b: Bomb, dt: real)
    requires b.status == Planted
    ensures FuseStatus(cfg, b, dt) == Exploded <==> b.sincePlanted + dt >= cfg.detonationTime as real
    ensures FuseStatus(cfg, b, dt) == Defused <==>
            && b.sincePlanted + dt < cfg.detonationTime as real && b.trigger.making
            && b.trigger.Update(dt).since >= cfg.defuseTime as real
    ensures FuseStatus(cfg, b, dt) != NotPlanted
  {}

  lemma {:induction false} CommandsAreSound(env: Env, w: World, cs: seq<(Name, Command)>, buying: bool, place: Place)
    returns (place': Place)
    requires env.Valid() && w.Ok() && Sound(AccountOf(w), place)
    ensures var w' := ExecuteAll(env, w, cs, buying);
            && Sound(AccountOf(w'), place') && Follows(AccountOf(w), AccountOf(w'))
    decreases |cs|
  {
    place' := place;
    if cs != [] {
      var w1 := Execute(env, w, cs[0].0, cs[0].1, buying);
      var es := Executed(env, w, cs[0].0, cs[0].1, buying);
      place' := EventsKeepSound(AccountOf(w), es, AccountOf(w1), place);
      EventsFollow(AccountOf(w), es, AccountOf(w1), place);
      var w' := ExecuteAll(env, w1, cs[1..], buying);
      place' := CommandsAreSound(env, w1, cs[1..], buying, place');
      FollowsTrans(AccountOf(w), AccountOf(w1), AccountOf(w'));
    }
  }

  // ---- A new round

  /** Both sides have players, and the map of players lists them all. */
  ghost predicate TwoSides(w: World) {
    && (forall n <- w.players :: n in w.order)
    && (exists n <- w.players :: w.players[n].team == CT)
    && (exists n <- w.players :: w.players[n].team == TT)
  }

  lemma SwappedVitals(env: Env, w: World)
    requires w.Ok()
    ensures var vs, vs' := Vitals(w), Vitals(SwapTeams(env, w));
            && vs'.Keys == vs.Keys
            && forall n <- vs :: vs'[n] == vs[n].(team := OtherTeam(vs[n].team), hasBomb := false)
  {}

  /** Everybody is alive and has no bomb, and the bomb is as new. */
  ghost predicate Fresh(w: World, w': World) {
    && Vitals(w').Keys == Vitals(w).Keys
    && (forall n <- Vitals(w) :: Vitals(w')[n] == Vitals(w)[n].(alive := true, hasBomb := false))
    && w'.bomb == RestartBomb(w.bomb) && w'.deaths == w.deaths && w'.crashed == w.crashed
  }

  lemma RestartedVitals(env: Env, w: World)
    requires env.Valid() && w.Ok()
    ensures Fresh(w, RestartAll(env, w))
  {}

  lemma {:induction false} GunsLaid(env: Env, w: World, guns: seq<(GunType, int, int)>)
    requires w.Ok() && Ids(w.items, w.nextDropId) && NoBombItem(w.items)
    ensures var w' := LayGuns(env, w, guns);
            && Ids(w'.items, w'.nextDropId) && NoBombItem(w'.items) && w'.deaths == w.deaths && w'.crashed == w.crashed
    decreases |guns|
  {
    if guns != [] {
      var (kind, x, y) := guns[0];
      var it := DroppedGun(Rect(x * BLOCK, y * BLOCK, ITEM, ITEM), w.nextDropId, NewGun(env.cfg, kind));
      IdsGrow(w.items, [it], w.nextDropId);
      GunsLaid(env, AddItem(w, it), guns[1..]);
    }
  }

  lemma PlacedVitals(w: World, spots: Name -> (int, int))
    requires w.Ok()
    ensures Vitals(PlacePlayers(w, spots)) == Vitals(w)
  {}

  /** Players, places and items of a new round, once it is known who has the bomb. */
  lemma RoundLaidOut(env: Env, w: World, guns: seq<(GunType, int, int)>, d: Draw)
    requires env.Valid() && w.Ok()
    ensures LaidOut(w, RestartItems(env, PlacePlayers(w, d.spots), guns))
  {
    PlacedVitals(w, d.spots);
    var w1 := PlacePlayers(w, d.spots).(items := [], nextDropId := 0);
    GunsLaid(env, w1, guns);
    assert Vitals(RestartItems(env, PlacePlayers(w, d.spots), guns)) == Vitals(w);
  }

  lemma TwoSidesRestart(env: Env, w: World)
    requires w.Ok() && TwoSides(w)
    ensures TwoSides(RestartAll(env, w))
  {
    var w' := RestartAll(env, w);
    var c :| c in w.players && w.players[c].team == CT;
    var t :| t in w.players && w.players[t].team == TT;
    assert w'.players[c].team == CT && w'.players[t].team == TT;
  }

  lemma BombHanded(w: World, n: Name)
    requires w.Ok() && n in w.players
    ensures Vitals(HandBomb(w, n)) == Vitals(w)[n := Vitals(w)[n].(hasBomb := true)]
    ensures HandBomb(w, n).deaths == w.deaths && HandBomb(w, n).crashed == w.crashed
  {
    VitalsOfSet(w, n, w.players[n].(loadout := w.players[n].loadout.(hasBomb := true)));
  }

  /** The bomb is handed to one terrorist. */
  ghost predicate Handed(w: World, w': World, holder: Name) {
    && holder in Vitals(w) && Vitals(w)[holder].team == TT
    && Vitals(w') == Vitals(w)[holder := Vitals(w)[holder].(hasBomb := true)]
    && w'.deaths == w.deaths && w'.crashed == w.crashed && w'.bomb == w.bomb
  }

  lemma HolderDrawn(w: World, pick: nat) returns (holder: Name)
    requires w.Ok() && TwoSides(w)
    ensures Handed(w, DrawHolder(w, pick), holder)
  {
    var tts := Terrorists(w, w.order);
    var t :| t in w.players && w.players[t].team == TT;
    assert t in tts;
    holder := tts[pick % |tts|];
    assert holder in tts;
    BombHanded(w, holder);
  }

  /** Everybody is alive again and the holder, a terrorist, alone has the bomb, which is as new. */
  ghost predicate Dealt(w: World, w': World, holder: Name) {
    && holder in Vitals(w) && Vitals(w)[holder].team == TT
    && Vitals(w').Keys == Vitals(w).Keys
    && (forall n <- Vitals(w) :: Vitals(w')[n] == Vitals(w)[n].(alive := true, hasBomb := n == holder))
    && w'.bomb == RestartBomb(w.bomb) && w'.deaths == w.deaths && w'.crashed == w.crashed
  }

  lemma FreshAndHanded(w: World, w1: World, w': World, holder: Name)
    requires Fresh(w, w1) && Handed(w1, w', holder)
    ensures Dealt(w, w', holder)
  {}

  lemma BombGiven(env: Env, w: World, pick: nat) returns (holder: Name)
    requires env.Valid() && w.Ok() && TwoSides(w)
    ensures Dealt(w, RestartPlayers(env, w, pick), holder)
  {
    var w1 := RestartAll(env, w);
    RestartedVitals(env, w);
    TwoSidesRestart(env, w);
    holder := HolderDrawn(w1, pick);
    FreshAndHanded(w, w1, DrawHolder(w1, pick), holder);
  }

  ghost predicate RoundBegins(w: World, w': World, swap: bool, holder: Name) {
    && Sound(AccountOf(w'), Held(holder)) && TwoSides(w')
    && w'.bomb == RestartBomb(w.bomb) && w'.crashed == w.crashed && w'.deaths == w.deaths
    && SidesKept(w, w', swap)
  }

  /** Everybody is on the same side as before, or on the other one after a swap. */
  ghost predicate SidesKept(w: World, w': World, swap: bool) {
    forall n <- w.players :: n in w'.players
      && w'.players[n].team == (if swap then OtherTeam(w.players[n].team) else w.players[n].team)
  }

  /** From the start of a round the accounts are sound, with the bomb in a living terrorist's hands. */
  lemma NewRoundIsSound(env: Env, w: World, swap: bool, guns: seq<(GunType, int, int)>, d: Draw) returns (holder: Name)
    requires env.Valid() && w.Ok() && Ledger(AccountOf(w)) && TwoSides(w)
    ensures RoundBegins(w, NewRound(env, w, swap, guns, d), swap, holder)
  {
    var w1 := if swap then SwapTeams(env, w) else w;
    var w2, w' := RestartPlayers(env, w1, d.pick), NewRound(env, w, swap, guns, d);
    SwappedVitals(env, w);
    TwoSidesSwap(env, w);
    holder := BombGiven(env, w1, d.pick);
    RoundLaidOut(env, w2, guns, d);
    RoundPutTogether(w, w1, w2, w', swap, holder);
  }

  /** The sides after the swap, if any, with the counters as they were. */
  ghost predicate Sided(w: World, w1: World, swap: bool) {
    && TwoSides(w1) && SameBomb(w, w1) && SidesKept(w, w1, swap)
    && w1.deaths == w.deaths && w1.crashed == w.crashed
    && Vitals(w1).Keys == Vitals(w).Keys
    && forall n <- Vitals(w) :: Vitals(w1)[n].kills == Vitals(w)[n].kills && Vitals(w1)[n].deaths == Vitals(w)[n].deaths
  }

  ghost predicate LaidOut(w2: World, w': World) {
    && SameRoster(w2, w') && Vitals(w') == Vitals(w2) && Ids(w'.items, w'.nextDropId) && NoBombItem(w'.items)
    && w'.deaths == w2.deaths && w'.bomb == w2.bomb && w'.crashed == w2.crashed
  }

  lemma RoundPutTogether(w: World, w1: World, w2: World, w': World, swap: bool, holder: Name)
    requires Ledger(AccountOf(w)) && Sided(w, w1, swap)
    requires SameRoster(w1, w2) && Dealt(w1, w2, holder) && LaidOut(w2, w')
    ensures RoundBegins(w, w', swap, holder)
  {
    SidesAfterRound(w, w1, w2, w', swap);
    SameCounters(AccountOf(w), AccountOf(w'));
  }

  /** A ledger looks at the counters and the history only. */
  lemma SameCounters(a: Account, b: Account)
    requires Ledger(a) && b.deaths == a.deaths && b.vitals.Keys == a.vitals.Keys
    requires forall n <- a.vitals :: b.vitals[n].kills == a.vitals[n].kills && b.vitals[n].deaths == a.vitals[n].deaths
    ensures Ledger(b)
  {}

  lemma TwoSidesSwap(env: Env, w: World)
    requires w.Ok() && TwoSides(w)
    ensures TwoSides(SwapTeams(env, w))
  {
    var w' := SwapTeams(env, w);
    var c :| c in w.players && w.players[c].team == CT;
    var t :| t in w.players && w.players[t].team == TT;
    assert w'.players[c].team == TT && w'.players[t].team == CT;
  }

  lemma SidesAfterRound(w: World, w1: World, w2: World, w': World, swap: bool)
    requires TwoSides(w1) && SameRoster(w, w1) && SameRoster(w1, w2) && SameRoster(w2, w') && Vitals(w') == Vitals(w2)
    requires SidesKept(w, w1, swap)
    requires forall n <- Vitals(w1) :: n in Vitals(w2) && Vitals(w2)[n].team == Vitals(w1)[n].team
    ensures TwoSides(w') && SidesKept(w, w', swap)
  {
    forall n | n in w1.players ensures n in w'.players && w'.players[n].team == w1.players[n].team {
      assert Vitals(w')[n].team == Vitals(w2)[n].team == Vitals(w1)[n].team;
    }
    var c :| c in w1.players && w1.players[c].team == CT;
    var t :| t in w1.players && w1.players[t].team == TT;
    assert w'.players[c].team == CT && w'.players[t].team == TT;
    assert w1.players.Keys == w.players.Keys == w'.players.Keys;
  }
}
