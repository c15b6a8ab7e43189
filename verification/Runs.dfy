/** What holds after every step of every match: where the bomb is, who is credited with which death,
    and what a round cannot undo. */
module Runs {
  import opened Basics
  import opened Settings
  import opened Geometry
  import opened Slide
  import opened Arms
  import opened World
  import opened Accounts
  import opened Refinement
  import opened Rounds
  import opened Matches

  type Guns = seq<(GunType, int, int)>

  ghost predicate Good(w: World) { TwoSides(w) && exists place :: Sound(AccountOf(w), place) }

  /** Players who have just joined, on two sides. */
  ghost predicate Lobby(w: World) {
    && w.Ok() && TwoSides(w) && w.deaths == []
    && forall n <- w.players :: w.players[n].kills == 0 && w.players[n].deaths == 0
  }

  // ---- Every step keeps the accounts

  lemma SidesStayTwo(w: World, w': World)
    requires TwoSides(w) && SameRoster(w, w')
    requires forall n <- Vitals(w) :: n in Vitals(w') && Vitals(w')[n].team == Vitals(w)[n].team
    ensures TwoSides(w')
  {
    var c :| c in w.players && w.players[c].team == CT;
    var t :| t in w.players && w.players[t].team == TT;
    assert Vitals(w')[c].team == Vitals(w)[c].team && Vitals(w')[t].team == Vitals(w)[t].team;
    assert w'.players[c].team == CT && w'.players[t].team == TT;
  }

  predicate Onward(s: BombStatus, s': BombStatus) {
    s' == s || s == NotPlanted || (s == Planted && s' != NotPlanted)
  }

  /** What a step within a round cannot undo. */
  ghost predicate RoundGoesOn(w: World, w': World) {
    LifeGoesOn(w, w') && Onward(w.bomb.status, w'.bomb.status)
  }

  lemma RoundGoesOnTrans(w: World, w1: World, w2: World)
    requires RoundGoesOn(w, w1) && RoundGoesOn(w1, w2)
    ensures RoundGoesOn(w, w2)
  {}

  lemma FollowsGoesOn(w: World, w': World)
    requires Follows(AccountOf(w), AccountOf(w'))
    ensures RoundGoesOn(w, w')
  {}

  lemma TickGoesOn(env: Env, w: World, frames: nat, luck: Luck)
    requires env.Valid() && w.Ok() && Good(w)
    ensures Good(Tick(env, w, frames, luck)) && RoundGoesOn(w, Tick(env, w, frames, luck))
  {
    var place :| Sound(AccountOf(w), place);
    var place' := TickIsSound(env, w, frames, luck, place);
    if !w.crashed {
      TickFollows(env, w, frames, luck, place);
      if w.bomb.status == Planted { ExplosionWinsTies(env.cfg, w.bomb, frames as real / env.cfg.fps as real); }
    }
    SidesStayTwo(w, Tick(env, w, frames, luck));
  }

  lemma FrameGoesOn(env: Env, w: World, f: Frame, frames: nat, buying: bool)
    requires env.Valid() && w.Ok() && Good(w)
    ensures Good(PlayFrame(env, w, f, frames, buying)) && RoundGoesOn(w, PlayFrame(env, w, f, frames, buying))
  {
    var place :| Sound(AccountOf(w), place);
    var w1 := ExecuteAll(env, w, f.commands, buying);
    var place1 := CommandsAreSound(env, w, f.commands, buying, place);
    FollowsGoesOn(w, w1);
    SidesStayTwo(w, w1);
    TickGoesOn(env, w1, frames, f.luck);
    RoundGoesOnTrans(w, w1, Tick(env, w1, frames, f.luck));
  }

  lemma PaidAccount(env: Env, w: World, won: Team)
    requires w.Ok()
    ensures AccountOf(PayTeams(env, w, won)) == AccountOf(w)
  {
    assert Vitals(PayTeams(env, w, won)) == Vitals(w);
  }

  /** A change that the accounts do not see. */
  lemma SameAccountIsGood(w: World, w': World)
    requires Good(w) && SameRoster(w, w') && AccountOf(w') == AccountOf(w)
    ensures Good(w') && RoundGoesOn(w, w')
  {
    assert Vitals(w') == Vitals(w);
    SidesStayTwo(w, w');
  }

  lemma PaidIsGood(env: Env, w: World, won: Team)
    requires w.Ok() && Good(w)
    ensures Good(PayTeams(env, w, won)) && RoundGoesOn(w, PayTeams(env, w, won))
  {
    PaidAccount(env, w, won);
    SameAccountIsGood(w, PayTeams(env, w, won));
  }

  /** A step keeps the accounts, and unless it begins a round it undoes nothing. */
  ghost predicate GoodStep(m: Match, m': Match) {
    Good(m'.world) && m.round <= m'.round && (m'.round == m.round ==> RoundGoesOn(m.world, m'.world))
  }

  lemma StandStill(w: World)
    ensures RoundGoesOn(w, w)
  {}

  lemma DecidedIsGood(env: Env, m: Match)
    requires m.world.Ok() && Good(m.world)
    ensures GoodStep(m, DecideWinner(env, m))
  {
    if CtWin(m.world) {
      PaidIsGood(env, m.world, CT);
    } else if TtWin(m.world) {
      PaidIsGood(env, m.world, TT);
    } else {
      StandStill(m.world);
    }
  }

  lemma BeginningIsGood(w: World, w': World, swap: bool, holder: Name)
    requires RoundBegins(w, w', swap, holder)
    ensures Good(w')
  {}

  lemma NewRoundIsGood(env: Env, w: World, swap: bool, guns: Guns, d: Draw, w': World)
    requires env.Valid() && w.Ok() && TwoSides(w) && Ledger(AccountOf(w)) && w' == NewRound(env, w, swap, guns, d)
    ensures Good(w')
  {
    var holder := NewRoundIsSound(env, w, swap, guns, d);
    BeginningIsGood(w, w', swap, holder);
  }

  lemma NextRound(m: Match, m': Match)
    requires Good(m'.world) && m.round < m'.round
    ensures GoodStep(m, m')
  {}

  lemma IteratedIsGood(env: Env, m: Match, f: Frame)
    requires env.Valid() && m.world.Ok() && Good(m.world)
    ensures GoodStep(m, Iterate(env, m, f))
  {
    if f.anyAlive {
      FrameGoesOn(env, m.world, f, m.delta, m.phase == Buy);
    } else {
      StandStill(m.world);
    }
  }

  lemma GoodLedger(w: World)
    requires Good(w)
    ensures Ledger(AccountOf(w))
  {}

  lemma PhaseEntered(m: Match, m1: Match, m': Match)
    requires GoodStep(m, m1) && m'.world == m1.world && m'.round == m1.round
    ensures GoodStep(m, m')
  {}

  lemma StoodStill(m: Match)
    requires Good(m.world)
    ensures GoodStep(m, m)
  {
    StandStill(m.world);
  }

  lemma WorldOfRound(env: Env, m: Match, guns: Guns, d: Draw, swap: bool)
    requires m.world.Ok() && swap == SwapsNow(env.cfg, m.round + 1)
    ensures BeginNewRound(env, m, guns, d).world == NewRound(env, m.world, swap, guns, d)
  {}

  lemma RoundStarts(env: Env, m: Match, guns: Guns, d: Draw, swap: bool, m': Match)
    requires env.Valid() && m.world.Ok() && Good(m.world)
    requires m'.world == NewRound(env, m.world, swap, guns, d) && m'.round == m.round + 1
    ensures GoodStep(m, m')
  {
    GoodLedger(m.world);
    NewRoundIsGood(env, m.world, swap, guns, d, m'.world);
    NextRound(m, m');
  }

  lemma EndIsGood(env: Env, m: Match, guns: Guns, d: Draw, m': Match)
    requires env.Valid() && m.world.Ok() && Good(m.world) && m' == EndPhase(env, m, guns, d)
    ensures GoodStep(m, m')
  {
    match m.phase
    case Buy =>
      StoodStill(m);
      PhaseEntered(m, m, m');
    case Attack =>
      DecidedIsGood(env, m);
      PhaseEntered(m, DecideWinner(env, m), m');
    case _ =>
      var swap := SwapsNow(env.cfg, m.round + 1);
      WorldOfRound(env, m, guns, d, swap);
      RoundStarts(env, m, guns, d, swap, m');
  }

  lemma StepKeepsGood(env: Env, m: Match, guns: Guns, f: Frame, m': Match)
    requires env.Valid() && m.world.Ok() && Good(m.world) && m' == Step(env, m, guns, f)
    ensures GoodStep(m, m')
  {
    if m.over {
      StoodStill(m);
    } else if Continues(env.cfg, m) {
      IteratedIsGood(env, m, f);
    } else {
      EndIsGood(env, m, guns, f.draw, m');
    }
  }

  lemma GoodStepTrans(a: Match, b: Match, c: Match)
    requires GoodStep(a, b) && GoodStep(b, c)
    ensures GoodStep(a, c)
  {
    if c.round == a.round { RoundGoesOnTrans(a.world, b.world, c.world); }
  }

  lemma {:induction false} RunKeepsGood(env: Env, m: Match, guns: Guns, fs: seq<Frame>)
    requires env.Valid() && m.world.Ok() && Good(m.world)
    ensures GoodStep(m, Run(env, m, guns, fs))
  {
    if fs == [] {
      StandStill(m.world);
    } else {
      var before := Run(env, m, guns, fs[..|fs| - 1]);
      RunKeepsGood(env, m, guns, fs[..|fs| - 1]);
      var after := Run(env, m, guns, fs);
      StepKeepsGood(env, before, guns, fs[|fs| - 1], after);
      GoodStepTrans(m, before, after);
    }
  }

  lemma RunIsGood(env: Env, m: Match, guns: Guns, fs: seq<Frame>)
    requires env.Valid() && m.world.Ok() && Good(m.world)
    ensures Good(Run(env, m, guns, fs).world)
  {
    RunKeepsGood(env, m, guns, fs);
  }

  // ---- Runs put together

  lemma RunOn(env: Env, m: Match, guns: Guns, fs: seq<Frame>, f: Frame)
    requires env.Valid() && m.world.Ok()
    ensures Run(env, m, guns, fs + [f]) == Step(env, Run(env, m, guns, fs), guns, f)
  {
    assert (fs + [f])[..|fs|] == fs;
  }

  lemma {:induction false} RunAppend(env: Env, m: Match, guns: Guns, fs: seq<Frame>, gs: seq<Frame>)
    requires env.Valid() && m.world.Ok()
    ensures Run(env, m, guns, fs + gs) == Run(env, Run(env, m, guns, fs), guns, gs)
  {
    if gs == [] {
      assert fs + gs == fs;
    } else {
      RunAppend(env, m, guns, fs, gs[..|gs| - 1]);
      assert (fs + gs)[..|fs + gs| - 1] == fs + gs[..|gs| - 1];
    }
  }

  lemma LobbyLedger(w: World)
    requires Lobby(w)
    ensures Ledger(AccountOf(w))
  {}

  lemma KickoffIsGood(env: Env, w: World, guns: Guns, d: Draw, m: Match)
    requires env.Valid() && Lobby(w) && m == Kickoff(env, w, guns, d)
    ensures Good(m.world)
  {
    LobbyLedger(w);
    NewRoundIsGood(env, w, SwapsNow(env.cfg, 1), guns, d, m.world);
  }

  // ---- What the accounts say

  function Holders(w: World): set<Name> { set n <- w.players | w.players[n].loadout.hasBomb }

  function BombItems(w: World): set<nat> { set i: nat | i < |w.items| && w.items[i].DroppedBomb? }

  /** The one bomb of the game is in exactly one place: in one player's hands, on the ground once, or
      planted at some time of the round; and who has it is a living terrorist. */
  ghost predicate BombInOnePlace(w: World) {
    && |Holders(w)| + |BombItems(w)| + (if w.bomb.status != NotPlanted then 1 else 0) == 1
    && (forall n <- w.players :: w.players[n].loadout.hasBomb ==> w.players[n].Alive() && w.players[n].team == TT)
    && (w.bomb.plantation.Some? <==> w.bomb.status != NotPlanted)
  }

  lemma HeldIsHeldOnce(w: World, n: Name)
    requires OnlyHolder(Vitals(w), n)
    ensures Holders(w) == {n}
  {
    forall m | m in w.players && w.players[m].loadout.hasBomb ensures m == n { assert Vitals(w)[m].hasBomb; }
    assert Vitals(w)[n].hasBomb;
  }

  lemma NobodyHolds(w: World)
    requires NoHolder(Vitals(w))
    ensures Holders(w) == {}
  {
    forall m | m in w.players ensures !w.players[m].loadout.hasBomb { assert !Vitals(w)[m].hasBomb; }
  }

  lemma OneLies(w: World, id: nat) returns (i: nat)
    requires OnlyBombItem(w.items, id) && Ids(w.items, w.nextDropId)
    ensures BombItems(w) == {i}
  {
    i :| i < |w.items| && w.items[i].DroppedBomb? && w.items[i].id == id;
    forall j: nat | j < |w.items| && w.items[j].DroppedBomb? ensures j == i {
      assert w.items[j] in w.items;
    }
  }

  lemma NothingLies(w: World)
    requires NoBombItem(w.items)
    ensures BombItems(w) == {}
  {
    forall i: nat | i < |w.items| ensures w.items[i].DroppedGun? { assert w.items[i] in w.items; }
  }

  lemma SoundMeansOnePlace(w: World, place: Place)
    requires Sound(AccountOf(w), place)
    ensures BombInOnePlace(w)
  {
    match place {
      case Held(n) =>
        HeldIsHeldOnce(w, n);
        NothingLies(w);
        assert Vitals(w)[n].alive && Vitals(w)[n].team == TT;
      case OnGround(id) =>
        NobodyHolds(w);
        var i := OneLies(w, id);
      case Away =>
        NobodyHolds(w);
        NothingLies(w);
    }
    forall n | n in w.players && w.players[n].loadout.hasBomb
      ensures w.players[n].Alive() && w.players[n].team == TT
    {
      assert n in Holders(w);
    }
  }

  lemma GoodMeansOnePlace(w: World)
    requires Good(w)
    ensures BombInOnePlace(w)
  {
    var place :| Sound(AccountOf(w), place);
    SoundMeansOnePlace(w, place);
  }

  /** Custody, over whole matches. */
  lemma BombIsAlwaysInOnePlace(env: Env, w: World, guns: Guns, d: Draw, fs: seq<Frame>)
    requires env.Valid() && Lobby(w)
    ensures BombInOnePlace(Run(env, Kickoff(env, w, guns, d), guns, fs).world)
  {
    var m := Kickoff(env, w, guns, d);
    KickoffIsGood(env, w, guns, d, m);
    RunIsGood(env, m, guns, fs);
    GoodMeansOnePlace(Run(env, m, guns, fs).world);
  }

  // ---- Totals of deaths and of their credit

  predicate IsEnemyKill(d: Death) { d.source.ByPlayer? && !d.teammates }

  /** Deaths in a history that are credited to the killer of an enemy, that a team mate caused, and
      that the blast caused. */
  function EnemyKills(log: seq<Death>): nat {
    if log == [] then 0 else EnemyKills(log[..|log| - 1]) + (if IsEnemyKill(log[|log| - 1]) then 1 else 0)
  }

  function TeamKills(log: seq<Death>): nat {
    if log == [] then 0
    else TeamKills(log[..|log| - 1]) + (if log[|log| - 1].source.ByPlayer? && log[|log| - 1].teammates then 1 else 0)
  }

  function BlastKills(log: seq<Death>): nat {
    if log == [] then 0 else BlastKills(log[..|log| - 1]) + (if log[|log| - 1].source.Blast? then 1 else 0)
  }

  function SumKills(w: World, names: seq<Name>): nat
    requires forall n <- names :: n in w.players
  {
    if names == [] then 0 else w.players[names[0]].kills + SumKills(w, names[1..])
  }

  function SumDeaths(w: World, names: seq<Name>): nat
    requires forall n <- names :: n in w.players
  {
    if names == [] then 0 else w.players[names[0]].deaths + SumDeaths(w, names[1..])
  }

  /** The players of a world, each once. */
  ghost predicate Everybody(w: World, names: seq<Name>) {
    (forall n <- names :: n in w.players) && (forall n <- w.players :: n in names) && Once(names)
  }

  function KillsOf(log: seq<Death>, names: seq<Name>): nat {
    if names == [] then 0 else KillsIn(log, names[0]) + KillsOf(log, names[1..])
  }

  function DeathsOf(log: seq<Death>, names: seq<Name>): nat {
    if names == [] then 0 else DeathsIn(log, names[0]) + DeathsOf(log, names[1..])
  }

  lemma {:induction false} NobodysDeath(log: seq<Death>, names: seq<Name>)
    requires log != [] && Once(names)
    ensures var before, d := log[..|log| - 1], log[|log| - 1];
            && KillsOf(log, names) == KillsOf(before, names)
                 + (if IsEnemyKill(d) && d.source.killer in names then 1 else 0)
            && DeathsOf(log, names) == DeathsOf(before, names) + (if d.victim in names then 1 else 0)
    decreases |names|
  {
    if names != [] {
      NobodysDeath(log, names[1..]);
      assert names == [names[0]] + names[1..];
      assert names[0] !in names[1..];
    }
  }

  lemma {:induction false} HistoryTotals(log: seq<Death>, names: seq<Name>)
    requires Once(names)
    requires forall d <- log :: d.victim in names && (d.source.ByPlayer? ==> d.source.killer in names)
    ensures KillsOf(log, names) == EnemyKills(log) && DeathsOf(log, names) == |log|
    ensures EnemyKills(log) + TeamKills(log) + BlastKills(log) == |log|
  {
    if log == [] {
      NothingYet(names);
    } else {
      HistoryTotals(log[..|log| - 1], names);
      NobodysDeath(log, names);
      assert log[|log| - 1] in log;
    }
  }

  lemma {:induction false} NothingYet(names: seq<Name>)
    ensures KillsOf([], names) == 0 && DeathsOf([], names) == 0
  {
    if names != [] { NothingYet(names[1..]); }
  }

  lemma {:induction false} SumsAreHistory(w: World, names: seq<Name>)
    requires Ledger(AccountOf(w)) && forall n <- names :: n in w.players
    ensures SumKills(w, names) == KillsOf(w.deaths, names) && SumDeaths(w, names) == DeathsOf(w.deaths, names)
    decreases |names|
  {
    if names != [] {
      assert Vitals(w)[names[0]] == VitalOf(w.players[names[0]]);
      SumsAreHistory(w, names[1..]);
    }
  }

  /** Each player's counters are what the history of deaths says of it, and each death is credited once:
      the players' kills, the team kills and the victims of the blast add up to all deaths. */
  ghost predicate CreditedOnce(w: World) {
    && (forall n <- w.players ::
          w.players[n].kills == KillsIn(w.deaths, n) && w.players[n].deaths == DeathsIn(w.deaths, n))
    && (forall names :: Everybody(w, names) ==>
          && SumKills(w, names) + TeamKills(w.deaths) + BlastKills(w.deaths) == SumDeaths(w, names)
          && SumDeaths(w, names) == |w.deaths|)
  }

  lemma LedgerCredits(w: World)
    requires Ledger(AccountOf(w))
    ensures CreditedOnce(w)
  {
    forall n | n in w.players
      ensures w.players[n].kills == KillsIn(w.deaths, n) && w.players[n].deaths == DeathsIn(w.deaths, n)
    {
      assert Vitals(w)[n] == VitalOf(w.players[n]);
    }
    forall names | Everybody(w, names)
      ensures SumKills(w, names) + TeamKills(w.deaths) + BlastKills(w.deaths) == SumDeaths(w, names)
      ensures SumDeaths(w, names) == |w.deaths|
    {
      SumsAreHistory(w, names);
      HistoryTotals(w.deaths, names);
    }
  }

  /** Credit, over whole matches. */
  lemma EveryDeathIsCreditedOnce(env: Env, w: World, guns: Guns, d: Draw, fs: seq<Frame>)
    requires env.Valid() && Lobby(w)
    ensures CreditedOnce(Run(env, Kickoff(env, w, guns, d), guns, fs).world)
  {
    var m := Kickoff(env, w, guns, d);
    KickoffIsGood(env, w, guns, d, m);
    RunKeepsGood(env, m, guns, fs);
    GoodLedger(Run(env, m, guns, fs).world);
    LedgerCredits(Run(env, m, guns, fs).world);
  }

  /** Between two moments of a round nobody changes side, comes back to life or dies twice; the bomb's
      status moves forward only; drop ids and the history of deaths grow. */
  lemma NothingIsUndoneInARound(env: Env, w: World, guns: Guns, d: Draw, fs: seq<Frame>, more: seq<Frame>)
    requires env.Valid() && Lobby(w)
    ensures var m := Run(env, Kickoff(env, w, guns, d), guns, fs);
            var m' := Run(env, m, guns, more);
            m'.round == m.round ==> RoundGoesOn(m.world, m'.world)
  {
    var m0 := Kickoff(env, w, guns, d);
    KickoffIsGood(env, w, guns, d, m0);
    RunKeepsGood(env, m0, guns, fs);
    RunKeepsGood(env, Run(env, m0, guns, fs), guns, more);
  }
}
