/** The game thread: the loop of src/server/game_phase.cpp and the match that it moves through its phases
    (src/server/cs2d_game.cpp), proved against Rounds.dfy. */
module GameLoop {
  import opened Settings
  import opened Geometry
  import opened Slide
  import opened Arms
  import opened Engine
  import W = World
  import R = Rounds
  import A = Admissions
  import Runs

  lemma RelocatedIsPlaced(w: W.World, w': W.World) returns (spots: W.Name -> (int, int))
    requires w.Ok() && Relocated(w, w')
    ensures w' == R.PlacePlayers(w, spots)
  {
    var places := map n <- w'.players :: (w'.players[n].rect.x, w'.players[n].rect.y);
    spots := (n: W.Name) => if n in places then places[n] else (0, 0);
    assert w'.players == R.PlacePlayers(w, spots).players;
  }

  /** A verdict, counted. */
  function Counted(m: R.Match, side: Team): R.Match {
    m.(winner := Some(side), verdicts := m.verdicts + [side],
       ctWins := m.ctWins + (if side == CT then 1 else 0), ttWins := m.ttWins + (if side == TT then 1 else 0))
  }

  function VerdictOf(w: W.World): Option<Team> {
    if R.CtWin(w) then Some(CT) else if R.TtWin(w) then Some(TT) else None
  }

  lemma DecideIsAward(env: W.Env, m: R.Match, v: Option<Team>)
    requires m.world.Ok() && v == VerdictOf(m.world)
    ensures R.DecideWinner(env, m)
            == if v.None? then m else Counted(m, v.value).(world := R.PayTeams(env, m.world, v.value))
  {}

  function Clocked(cfg: Settings, m: R.Match, advance: nat): R.Match {
    var planted := m.phase == Attack && m.world.bomb.justPlanted;
    m.(ticks := if planted then 0 else m.ticks + m.delta,
       duration := if planted then cfg.detonationTime else m.duration,
       delta := advance + 1, over := m.world.crashed)
  }

  predicate Stand(env: W.Env, w: W.World, ctSpawns: seq<(int, int)>, ttSpawns: seq<(int, int)>) {
    w.Ok() && Settled(env, w, ctSpawns, ttSpawns, |w.order|)
  }

  lemma StandStays(env: W.Env, w: W.World, w': W.World, ctSpawns: seq<(int, int)>, ttSpawns: seq<(int, int)>)
    requires Stand(env, w, ctSpawns, ttSpawns) && w'.Ok() && w'.players == w.players && w'.order == w.order
    ensures Stand(env, w', ctSpawns, ttSpawns)
  {
    forall k: nat | k < |w.order| ensures StandsWell(env, w', ctSpawns, ttSpawns, k) {
      assert StandsWell(env, w, ctSpawns, ttSpawns, k);
    }
  }

  /** The first purchases of a round that has begun, unless there is none left. */
  function Paused(cfg: Settings, m: R.Match): R.Match {
    R.EnterPhase(cfg, m, Buy).(over := m.round > cfg.rounds)
  }

  /** The frames `gs` are the first of `fs`, but for the places that were found. */
  ghost predicate Plays(fs: seq<R.Frame>, gs: seq<R.Frame>) {
    && |gs| <= |fs|
    && forall i :: 0 <= i < |gs| ==> && gs[i] == fs[i].(draw := gs[i].draw)
                                     && gs[i].draw.pick == fs[i].draw.pick
  }

  /** Where frames lead from a match. */
  type RunFunction = seq<R.Frame> -> R.Match

  ghost function RunFrom(env: W.Env, m: R.Match, guns: Runs.Guns): (run: RunFunction)
    requires env.Valid() && m.world.Ok()
    ensures IsRun(env, m, guns, run) && run([]) == m
  {
    (fs: seq<R.Frame>) => R.Run(env, m, guns, fs)
  }

  ghost predicate IsRun(env: W.Env, m: R.Match, guns: Runs.Guns, run: RunFunction)
    requires env.Valid() && m.world.Ok()
  {
    forall fs {:trigger R.Run(env, m, guns, fs)} :: run(fs) == R.Run(env, m, guns, fs)
  }

  /** If a round began in a step, everybody stands where spawn_players may put them. */
  predicate RoundStands(env: W.Env, m: R.Match, m': R.Match, ctSpawns: seq<(int, int)>, ttSpawns: seq<(int, int)>) {
    m'.round == m.round + 1 ==> Stand(env, m'.world, ctSpawns, ttSpawns)
  }

  ghost predicate RoundsStand(
    env: W.Env, run: RunFunction, gs: seq<R.Frame>, ctSpawns: seq<(int, int)>, ttSpawns: seq<(int, int)>) {
    forall i :: 0 <= i < |gs| ==> RoundStands(env, run(gs[..i]), run(gs[..i + 1]), ctSpawns, ttSpawns)
  }

  lemma TurnIsStep(
    env: W.Env, m: R.Match, guns: Runs.Guns, f: R.Frame, ctSpawns: seq<(int, int)>, ttSpawns: seq<(int, int)>)
    requires env.Valid() && m.world.Ok() && !m.over && R.Continues(env.cfg, m)
    ensures R.Step(env, m, guns, f) == R.Iterate(env, m, f)
    ensures RoundStands(env, m, R.Iterate(env, m, f), ctSpawns, ttSpawns)
  {}

  lemma EndIsStep(env: W.Env, m: R.Match, guns: Runs.Guns, f: R.Frame)
    requires env.Valid() && m.world.Ok() && !m.over && !R.Continues(env.cfg, m)
    ensures R.Step(env, m, guns, f) == R.EndPhase(env, m, guns, f.draw)
  {}

  lemma RoundsStandOn(
    env: W.Env, run: RunFunction, gs: seq<R.Frame>, g: R.Frame, ctSpawns: seq<(int, int)>, ttSpawns: seq<(int, int)>)
    requires RoundsStand(env, run, gs, ctSpawns, ttSpawns)
    requires RoundStands(env, run(gs), run(gs + [g]), ctSpawns, ttSpawns)
    ensures RoundsStand(env, run, gs + [g], ctSpawns, ttSpawns)
  {
    forall i | 0 <= i < |gs + [g]|
      ensures RoundStands(env, run((gs + [g])[..i]), run((gs + [g])[..i + 1]), ctSpawns, ttSpawns)
    {
      assert (gs + [g])[..i] == gs[..i];
      if i < |gs| {
        assert (gs + [g])[..i + 1] == gs[..i + 1];
      } else {
        assert (gs + [g])[..i + 1] == gs + [g] && gs[..i] == gs;
      }
    }
  }

  lemma RunsOn(env: W.Env, m: R.Match, guns: Runs.Guns, run: RunFunction, fs: seq<R.Frame>)
    requires env.Valid() && m.world.Ok() && IsRun(env, m, guns, run)
    ensures run(fs).world.Ok() && forall f :: run(fs + [f]) == R.Step(env, run(fs), guns, f)
  {
    assert run(fs) == R.Run(env, m, guns, fs);
    forall f ensures run(fs + [f]) == R.Step(env, run(fs), guns, f) {
      Runs.RunOn(env, m, guns, fs, f);
    }
  }

  /** The match that the players of `w` begin is `m` after these frames. */
  predicate Reaches(env: W.Env, w: W.World, guns: Runs.Guns, d: R.Draw, gs: seq<R.Frame>, m: R.Match)
    requires env.Valid()
  {
    w.Ok() && m == R.Run(env, R.Kickoff(env, w, guns, d), guns, gs)
  }

  /** At the start of every round, the first included, everybody stands where spawn_players may put them. */
  ghost predicate EveryRoundStands(
    env: W.Env, w: W.World, guns: Runs.Guns, d: R.Draw, gs: seq<R.Frame>,
    ctSpawns: seq<(int, int)>, ttSpawns: seq<(int, int)>)
    requires env.Valid()
  {
    && w.Ok() && Stand(env, R.Kickoff(env, w, guns, d).world, ctSpawns, ttSpawns)
    && RoundsStand(env, RunFrom(env, R.Kickoff(env, w, guns, d), guns), gs, ctSpawns, ttSpawns)
  }

  lemma RoundsDoStand(
    env: W.Env, w: W.World, guns: Runs.Guns, d: R.Draw, gs: seq<R.Frame>, m: R.Match, run: RunFunction,
    ctSpawns: seq<(int, int)>, ttSpawns: seq<(int, int)>)
    requires env.Valid() && w.Ok() && m == R.Kickoff(env, w, guns, d) && IsRun(env, m, guns, run)
    requires Stand(env, m.world, ctSpawns, ttSpawns) && RoundsStand(env, run, gs, ctSpawns, ttSpawns)
    ensures EveryRoundStands(env, w, guns, d, gs, ctSpawns, ttSpawns)
  {
    var run' := RunFrom(env, m, guns);
    forall i | 0 <= i < |gs| ensures RoundStands(env, run'(gs[..i]), run'(gs[..i + 1]), ctSpawns, ttSpawns) {
      assert run(gs[..i]) == R.Run(env, m, guns, gs[..i]) == run'(gs[..i]);
      assert run(gs[..i + 1]) == R.Run(env, m, guns, gs[..i + 1]) == run'(gs[..i + 1]);
    }
  }

  /** ... the players being those whom these requests let in, on two sides; the bomb is then in one place and
      every death is credited once. */
  ghost predicate Played(
    env: W.Env, rs: seq<A.Request>, w: W.World, guns: Runs.Guns, d: R.Draw, gs: seq<R.Frame>, m: R.Match)
    requires env.Valid()
  {
    && A.Seated(env.cfg, w) && A.RosterOf(w) == A.HandleAll(env.cfg, rs).roster
    && Runs.Lobby(w) && Reaches(env, w, guns, d, gs, m)
    && Runs.BombInOnePlace(m.world) && Runs.CreditedOnce(m.world)
  }

  lemma StartedIsPlayed(
    env: W.Env, rs: seq<A.Request>, w: W.World, guns: Runs.Guns, d: R.Draw, gs: seq<R.Frame>, m: R.Match)
    requires env.Valid() && env.cfg.counterTerrorists >= 1 && env.cfg.terrorists >= 1
    requires A.ShouldStart(env.cfg, A.HandleAll(env.cfg, rs))
    requires A.Seated(env.cfg, w) && A.RosterOf(w) == A.HandleAll(env.cfg, rs).roster
    requires Reaches(env, w, guns, d, gs, m)
    ensures Played(env, rs, w, guns, d, gs, m)
  {
    A.StartedGameHasTwoSides(env.cfg, rs, w);
    Runs.BombIsAlwaysInOnePlace(env, w, guns, d, gs);
    Runs.EveryDeathIsCreditedOnce(env, w, guns, d, gs);
  }

  /** A match that nobody has joined. */
  function Empty(cfg: Settings): R.Match {
    R.Match(A.NOBODY, WaitingPlayers, 0, 0, cfg.waitingDuration, 0, None, 0, 0, [], false)
  }

  class CS2DGame {
    const world: GameWorld
    var creator: W.Name
    var forced: bool
    const guns: seq<(GunType, int, int)>
    const ctSpawns: seq<(int, int)>
    const ttSpawns: seq<(int, int)>
    var phase: Phase
    var ticks: nat
    var delta: nat
    var duration: nat
    var round: nat
    var winner: Option<Team>
    var ctWins: nat
    var ttWins: nat
    ghost var verdicts: seq<Team>
    var over: bool

    constructor (env: W.Env, guns: seq<(GunType, int, int)>, ctSpawns: seq<(int, int)>, ttSpawns: seq<(int, int)>)
      requires env.Valid() && ctSpawns != [] && ttSpawns != []
      ensures Valid() && fresh(world) && fresh(world.bomb) && world.env == env && this.guns == guns
      ensures this.ctSpawns == ctSpawns && this.ttSpawns == ttSpawns
      ensures View() == Empty(env.cfg) && Entrants() == A.EMPTY
    {
      world := new GameWorld(env);
      this.guns, this.ctSpawns, this.ttSpawns := guns, ctSpawns, ttSpawns;
      phase, ticks, delta, duration := WaitingPlayers, 0, 0, env.cfg.waitingDuration;
      round, winner, ctWins, ttWins, verdicts, over := 0, None, 0, 0, [], false;
      creator, forced := "", false;
    }

    ghost predicate Valid()
      reads this, world
    {
      world.Valid() && world.Listed() && ctSpawns != [] && ttSpawns != []
    }

    ghost function View(): R.Match
      reads this, world, world.players.Values, world.bomb
    {
      R.Match(world.View(), phase, ticks, delta, duration, round, winner, ctWins, ttWins, verdicts, over)
    }

    // ---- Joining

    ghost function Entrants(): A.Entrants
      requires Valid()
      reads this, world, world.players.Values, world.bomb
    {
      A.EntrantsOf(world.View(), creator, forced)
    }

    /** The checks of add_player. */
    method Refusal(n: W.Name) returns (refusal: Option<A.Outcome>)
      requires Valid()
      ensures refusal == A.Refusal(world.env.cfg, Entrants(), n)
    {
      assert world.View().players.Keys == world.players.Keys;
      A.InIsThere(world.View(), n);
      if forced { return Some(A.AlreadyStarted); }
      if |world.joined| == world.env.cfg.counterTerrorists + world.env.cfg.terrorists { return Some(A.Full); }
      if n in world.players { return Some(A.AlreadyIn); }
      return None;
    }

    /** The rest of it. */
    method Admit(n: W.Name) returns (ok: bool)
      requires Valid() && n !in world.players
      modifies this`creator, world`players, world`joined, world`order
      ensures Valid() && world.OneEntered(old(world.players), n)
      ensures ok <==> A.NextSide(world.env.cfg, old(world.View())).Some?
      ensures world.View() == A.Seat(world.env.cfg, old(world.View()), n)
      ensures creator == if old(creator) == "" then n else old(creator)
    {
      if creator == "" { creator := n; }
      ok := world.AddPlayer(n);
    }

    /** add_player: the outcome, and who is in then (A.JoinAgrees says that game and world agree on it). */
    method AddPlayer(n: W.Name) returns (outcome: A.Outcome)
      requires Valid()
      modifies this`creator, world`players, world`joined, world`order
      ensures Valid() && world.OneEntered(old(world.players), n)
      ensures outcome == A.JoinOutcome(world.env.cfg, old(Entrants()), n)
      ensures world.View() == A.WorldAfterJoin(world.env.cfg, old(world.View()), old(Entrants()), n)
      ensures creator == A.AfterJoin(world.env.cfg, old(Entrants()), n).creator
    {
      ghost var w, g := world.View(), Entrants();
      var refusal := Refusal(n);
      if refusal.Some? { return refusal.value; }
      assert w.players.Keys == world.players.Keys;
      A.InIsThere(w, n);
      var ok := Admit(n);
      A.JoinTold(world.env.cfg, w, g, n, world.View(), creator, ok);
      return if ok then A.Joined else A.NoRoom;
    }

    /** A force-start command in the waiting phase. */
    method ForceStart(n: W.Name)
      requires Valid()
      modifies this`forced
      ensures Valid() && Entrants() == A.Handle(world.env.cfg, old(Entrants()), A.Force(n))
    {
      if n == creator {
        forced := |world.joined| >= (world.env.cfg.counterTerrorists + world.env.cfg.terrorists) / 2
            && |world.joined| >= 2;
      }
    }

    /** current_round_has_a_winner. */
    method HasWinner() returns (has: bool)
      requires Valid()
      ensures has <==> R.HasWinner(world.View())
    {
      var ttDead := world.TeamIsDead(TT);
      var ctDead := world.TeamIsDead(CT);
      return (ttDead && world.bomb.status == NotPlanted) || ctDead
             || world.bomb.status == Exploded || world.bomb.status == Defused;
    }

    /** The conditions of decide_winner. */
    method Verdict() returns (v: Option<Team>)
      requires Valid()
      ensures v == VerdictOf(world.View())
    {
      var ttDead := world.TeamIsDead(TT);
      var ctDead := world.TeamIsDead(CT);
      var has := HasWinner();
      if (ttDead && world.bomb.status == NotPlanted) || world.bomb.status == Defused || !has { return Some(CT); }
      if ctDead || world.bomb.status == Exploded { return Some(TT); }
      return None;
    }

    /** decide_winner. */
    method DecideWinner()
      requires Valid()
      modifies this, world.players.Values
      ensures Valid() && View() == R.DecideWinner(world.env, old(View()))
    {
      var v := Verdict();
      DecideIsAward(world.env, View(), v);
      if v.Some? { Award(v.value); }
    }

    method Award(side: Team)
      requires Valid()
      modifies this, world.players.Values
      ensures Valid() && View() == Counted(old(View()), side).(world := R.PayTeams(world.env, old(world.View()), side))
    {
      Count(side);
      world.ApplyWonRoundBonus(side);
    }

    method Count(side: Team)
      requires Valid()
      modifies this
      ensures Valid() && View() == Counted(old(View()), side)
    {
      winner := Some(side);
      if side == CT { ctWins := ctWins + 1; } else { ttWins := ttWins + 1; }
      verdicts := verdicts + [side];
    }

    /** restart_players and spawn_players. */
    method RestartAndSpawn(pick: nat, draws: seq<nat>) returns (ok: bool, ghost spots: W.Name -> (int, int))
      requires Valid()
      modifies world.bomb, world.players.Values
      ensures Valid() && world.View() == R.PlacePlayers(R.RestartPlayers(world.env, old(world.View()), pick), spots)
      ensures ok ==> Stand(world.env, world.View(), ctSpawns, ttSpawns)
    {
      world.RestartPlayers(pick);
      ghost var w := world.View();
      ok := world.SpawnPlayers(ctSpawns, ttSpawns, draws);
      spots := RelocatedIsPlaced(w, world.View());
    }

    /** The world's part of begin_new_round. */
    method NewRound(swap: bool, pick: nat, draws: seq<nat>) returns (ok: bool, ghost d: R.Draw)
      requires Valid()
      modifies world`items, world`nextDropId, world.bomb, world.players.Values
      ensures Valid() && d.pick == pick && world.View() == R.NewRound(world.env, old(world.View()), swap, guns, d)
      ensures ok ==> Stand(world.env, world.View(), ctSpawns, ttSpawns)
    {
      ghost var spots;
      ok, spots := PlayersOfRound(swap, pick, draws);
      d := R.Draw(pick, spots);
      ghost var w := world.View();
      world.RestartItems(guns);
      if ok { StandStays(world.env, w, world.View(), ctSpawns, ttSpawns); }
    }

    method PlayersOfRound(swap: bool, pick: nat, draws: seq<nat>) returns (ok: bool, ghost spots: W.Name -> (int, int))
      requires Valid()
      modifies world.bomb, world.players.Values
      ensures Valid()
      ensures var w := if swap then R.SwapTeams(world.env, old(world.View())) else old(world.View());
              world.View() == R.PlacePlayers(R.RestartPlayers(world.env, w, pick), spots)
      ensures ok ==> Stand(world.env, world.View(), ctSpawns, ttSpawns)
    {
      if swap { world.SwapTeams(); }
      ok, spots := RestartAndSpawn(pick, draws);
    }

    /** begin_new_round. */
    method BeginNewRound(pick: nat, draws: seq<nat>) returns (ok: bool, ghost d: R.Draw)
      requires Valid()
      modifies this, world`items, world`nextDropId, world.bomb, world.players.Values
      ensures Valid() && d.pick == pick && View() == R.BeginNewRound(world.env, old(View()), guns, d)
      ensures ok ==> Stand(world.env, world.View(), ctSpawns, ttSpawns)
    {
      var swap := NextRound();
      ok, d := NewRound(swap, pick, draws);
    }

    /** The scores of a new round. */
    method NextRound() returns (swap: bool)
      requires Valid()
      modifies this
      ensures Valid() && swap == R.SwapsNow(world.env.cfg, round)
      ensures View() == old(View()).(winner := None, round := old(round) + 1,
                                     ctWins := if swap then old(ttWins) else old(ctWins),
                                     ttWins := if swap then old(ctWins) else old(ttWins))
    {
      winner := None;
      round := round + 1;
      swap := round == world.env.cfg.rounds / 2 + 1;
      if swap { ctWins, ttWins := ttWins, ctWins; }
    }

    // ---- A phase

    method ExecuteAll(commands: seq<(W.Name, W.Command)>)
      requires Valid()
      modifies world`items, world`nextDropId, world`crashed, world.bomb, world.players.Values
      ensures Valid() && world.View() == R.ExecuteAll(world.env, old(world.View()), commands, phase == Buy)
    {
      var i := 0;
      ghost var w := world.View();
      ghost var all := R.ExecuteAll(world.env, w, commands, phase == Buy);
      assert commands[0..] == commands;
      while i < |commands|
        invariant i <= |commands| && Valid() && w == world.View() && w.Ok()
        invariant all == R.ExecuteAll(world.env, w, commands[i..], phase == Buy)
      {
        world.Execute(commands[i].0, commands[i].1, phase == Buy);
        w := W.Execute(world.env, w, commands[i].0, commands[i].1, phase == Buy);
        assert commands[i..][1..] == commands[i + 1..];
        i := i + 1;
      }
      assert commands[i..] == [];
    }

    /** Commands and update of one turn. */
    method PlayFrame(f: R.Frame)
      requires Valid()
      modifies world`items, world`nextDropId, world`deaths, world`crashed, world.bomb, world.players.Values
      ensures Valid() && world.View() == R.PlayFrame(world.env, old(world.View()), f, delta, phase == Buy)
    {
      ExecuteAll(f.commands);
      if !world.crashed { world.Update(delta, f.luck); }
    }

    /** The clock of the phase after a turn. */
    method MoveClock(advance: nat)
      requires Valid()
      modifies this`ticks, this`duration, this`delta, this`over
      ensures Valid() && View() == Clocked(world.env.cfg, old(View()), advance)
    {
      var time := ticks + delta;
      if phase == Attack && world.bomb.justPlanted {
        duration := world.env.cfg.detonationTime;
        time := 0;
      }
      ticks, delta, over := time, advance + 1, world.crashed;
    }

    /** The body of the loop of GamePhase::run. */
    method Turn(f: R.Frame)
      requires Valid()
      modifies this`ticks, this`duration, this`delta, this`over
      modifies world`items, world`nextDropId, world`deaths, world`crashed, world.bomb, world.players.Values
      ensures Valid() && View() == R.Iterate(world.env, old(View()), f)
    {
      if f.anyAlive { PlayTurn(f); } else { over := true; }
    }

    method PlayTurn(f: R.Frame)
      requires Valid() && f.anyAlive
      modifies this`ticks, this`duration, this`delta, this`over
      modifies world`items, world`nextDropId, world`deaths, world`crashed, world.bomb, world.players.Values
      ensures Valid() && View() == R.Iterate(world.env, old(View()), f)
    {
      PlayFrame(f);
      MoveClock(f.advance);
    }

    /** The loop test. */
    method ShouldContinue() returns (b: bool)
      requires Valid()
      ensures b <==> R.Continues(world.env.cfg, View())
    {
      var has := HasWinner();
      return !(phase == Attack && has) && R.Seconds(world.env.cfg, ticks) < duration as real;
    }

    // ---- The match

    method EnterPhase(next: Phase)
      requires Valid()
      modifies this`phase, this`ticks, this`delta, this`duration
      ensures Valid() && View() == R.EnterPhase(world.env.cfg, old(View()), next)
    {
      phase, ticks, delta, duration := next, 0, 0, R.Duration(world.env.cfg, next);
    }

    /** AttackPhase::end. */
    method EndAttack()
      requires Valid()
      modifies this, world.players.Values
      ensures Valid()
      ensures View() == R.EnterPhase(world.env.cfg, R.DecideWinner(world.env, old(View())), RoundEnded)
    {
      DecideWinner();
      EnterPhase(RoundEnded);
    }

    /** The end of the waiting phase and of the pause between rounds, and the count of rounds in run. */
    method EndPause(pick: nat, draws: seq<nat>) returns (ok: bool, ghost d: R.Draw)
      requires Valid()
      modifies this, world`items, world`nextDropId, world.bomb, world.players.Values
      ensures Valid() && d.pick == pick
      ensures View() == Paused(world.env.cfg, R.BeginNewRound(world.env, old(View()), guns, d))
      ensures ok ==> Stand(world.env, world.View(), ctSpawns, ttSpawns)
    {
      ok, d := BeginNewRound(pick, draws);
      EnterBuy();
    }

    method EnterBuy()
      requires Valid()
      modifies this`phase, this`ticks, this`delta, this`duration, this`over
      ensures Valid() && View() == Paused(world.env.cfg, old(View()))
    {
      EnterPhase(Buy);
      over := round > world.env.cfg.rounds;
    }

    /** The end of a phase. */
    method EndPhase(pick: nat, draws: seq<nat>) returns (ok: bool, ghost d: R.Draw)
      requires Valid()
      modifies this, world`items, world`nextDropId, world.bomb, world.players.Values
      ensures Valid() && d.pick == pick && View() == R.EndPhase(world.env, old(View()), guns, d)
      ensures ok && old(phase) != Buy && old(phase) != Attack ==> Stand(world.env, world.View(), ctSpawns, ttSpawns)
    {
      ok, d := true, R.Draw(pick, (n: W.Name) => (0, 0));
      match phase
      case Buy => EnterPhase(Attack);
      case Attack => EndAttack();
      case _ => ok, d := EndPause(pick, draws);
    }

    /** One step of the game thread; `draws` are those of the places, should a round begin. It says with which
        places that round began. */
    method Step(f: R.Frame, draws: seq<nat>) returns (ok: bool, ghost g: R.Frame)
      requires Valid() && !over
      modifies this, world`items, world`nextDropId, world`deaths, world`crashed, world.bomb, world.players.Values
      ensures Valid() && g == f.(draw := g.draw) && g.draw.pick == f.draw.pick
      ensures View() == R.Step(world.env, old(View()), guns, g)
      ensures ok ==> RoundStands(world.env, old(View()), View(), ctSpawns, ttSpawns)
    {
      ok, g := true, f;
      var go := ShouldContinue();
      assert View() == old(View());
      if go { TurnStep(f); } else { ok, g := EndStep(f, draws); }
    }

    method TurnStep(f: R.Frame)
      requires Valid() && !over && R.Continues(world.env.cfg, View())
      modifies this`ticks, this`duration, this`delta, this`over
      modifies world`items, world`nextDropId, world`deaths, world`crashed, world.bomb, world.players.Values
      ensures Valid() && View() == R.Step(world.env, old(View()), guns, f)
      ensures RoundStands(world.env, old(View()), View(), ctSpawns, ttSpawns)
    {
      TurnIsStep(world.env, View(), guns, f, ctSpawns, ttSpawns);
      Turn(f);
    }

    method EndStep(f: R.Frame, draws: seq<nat>) returns (ok: bool, ghost g: R.Frame)
      requires Valid() && !over && !R.Continues(world.env.cfg, View())
      modifies this, world`items, world`nextDropId, world.bomb, world.players.Values
      ensures Valid() && g == f.(draw := g.draw) && g.draw.pick == f.draw.pick
      ensures View() == R.Step(world.env, old(View()), guns, g)
      ensures ok ==> RoundStands(world.env, old(View()), View(), ctSpawns, ttSpawns)
    {
      ghost var m, d := View(), f.draw;
      ok, d := EndPhase(f.draw.pick, draws);
      g := f.(draw := d);
      EndIsStep(world.env, m, guns, g);
    }

    /** A step of a match that has got to where the frames `gs` lead. */
    method OneMore(f: R.Frame, draws: seq<nat>, ghost m0: R.Match, ghost run: RunFunction, ghost gs: seq<R.Frame>)
      returns (ok: bool, ghost g: R.Frame)
      requires Valid() && !over && m0.world.Ok() && IsRun(world.env, m0, guns, run) && View() == run(gs)
      modifies this, world`items, world`nextDropId, world`deaths, world`crashed, world.bomb, world.players.Values
      ensures Valid() && g == f.(draw := g.draw) && g.draw.pick == f.draw.pick
      ensures View() == run(gs + [g]) && (ok ==> RoundStands(world.env, run(gs), run(gs + [g]), ctSpawns, ttSpawns))
    {
      RunsOn(world.env, m0, guns, run, gs);
      ok, g := Step(f, draws);
    }

    /** CS2DGame::run with the loops of its phases: step after step until the match is over, the frames run out or
        the draws of the places do. `run` says where the frames lead. */
    method Go(fs: seq<R.Frame>, draws: seq<seq<nat>>, ghost m0: R.Match, ghost run: RunFunction)
      returns (ok: bool, ghost gs: seq<R.Frame>)
      requires Valid() && |draws| == |fs| && m0.world.Ok() && IsRun(world.env, m0, guns, run) && View() == run([])
      modifies this, world`items, world`nextDropId, world`deaths, world`crashed, world.bomb, world.players.Values
      ensures Valid() && View() == run(gs)
      ensures Plays(fs, gs) && (ok && !over ==> |gs| == |fs|)
      ensures ok ==> RoundsStand(world.env, run, gs, ctSpawns, ttSpawns)
    {
      var i := 0;
      ok, gs := true, [];
      while i < |fs| && ok && !over
        invariant i <= |fs| && i == |gs| && Valid() && View() == run(gs) && Plays(fs, gs)
        invariant ok ==> RoundsStand(world.env, run, gs, ctSpawns, ttSpawns)
      {
        ghost var g;
        ok, g := OneMore(fs[i], draws[i], m0, run, gs);
        if ok { RoundsStandOn(world.env, run, gs, g, ctSpawns, ttSpawns); }
        gs := gs + [g];
        i := i + 1;
      }
    }

    /** Whatever the frames are, the match is then where R.Run says. */
    method Run(fs: seq<R.Frame>, draws: seq<seq<nat>>)
      returns (ok: bool, ghost gs: seq<R.Frame>, ghost run: RunFunction)
      requires Valid() && |draws| == |fs|
      modifies this, world`items, world`nextDropId, world`deaths, world`crashed, world.bomb, world.players.Values
      ensures Valid() && View() == R.Run(world.env, old(View()), guns, gs)
      ensures Plays(fs, gs) && (ok && !over ==> |gs| == |fs|)
      ensures IsRun(world.env, old(View()), guns, run) && (ok ==> RoundsStand(world.env, run, gs, ctSpawns, ttSpawns))
    {
      ghost var m0 := View();
      run := RunFrom(world.env, m0, guns);
      ok, gs := Go(fs, draws, m0, run);
    }

    // ---- A whole game

    /** One request while the game has not begun. */
    method Handle(r: A.Request)
      requires Valid() && A.Seated(world.env.cfg, world.View())
      modifies this`creator, this`forced, world`players, world`joined, world`order
      ensures Valid() && A.Seated(world.env.cfg, world.View()) && world.OneEntered(old(world.players), r.user)
      ensures Entrants() == A.Handle(world.env.cfg, old(Entrants()), r)
    {
      match r
      case Join(n) => Join(n);
      case Force(n) => ForceStart(n);
    }

    method Join(n: W.Name)
      requires Valid() && A.Seated(world.env.cfg, world.View())
      modifies this`creator, world`players, world`joined, world`order
      ensures Valid() && A.Seated(world.env.cfg, world.View()) && world.OneEntered(old(world.players), n)
      ensures Entrants() == A.AfterJoin(world.env.cfg, old(Entrants()), n)
    {
      A.JoinSeats(world.env.cfg, world.View(), Entrants(), n);
      A.JoinAgrees(world.env.cfg, world.View(), Entrants(), n);
      var outcome := AddPlayer(n);
    }

    /** The waiting phase: players come in, one after the other. */
    method Wait(rs: seq<A.Request>)
      requires Valid() && world.View() == A.NOBODY && Entrants() == A.EMPTY
      modifies this`creator, this`forced, world`players, world`joined, world`order
      ensures Valid() && A.Seated(world.env.cfg, world.View()) && Entrants() == A.HandleAll(world.env.cfg, rs)
      ensures forall n <- world.players :: fresh(world.players[n])
    {
      var i := 0;
      while i < |rs|
        invariant i <= |rs| && Valid() && A.Seated(world.env.cfg, world.View())
        invariant Entrants() == A.HandleAll(world.env.cfg, rs[..i])
        invariant forall n <- world.players :: fresh(world.players[n])
      {
        assert rs[..i + 1][..i] == rs[..i];
        Handle(rs[i]);
        i := i + 1;
      }
      assert rs[..i] == rs;
    }

    /** should_start. */
    method ShouldStart() returns (b: bool)
      requires Valid()
      ensures b <==> A.ShouldStart(world.env.cfg, Entrants())
    {
      return forced || |world.joined| >= world.env.cfg.counterTerrorists + world.env.cfg.terrorists;
    }

    /** The match that starts with the players who are in: the end of the waiting phase and all that follows. */
    method Start(pick: nat, places: seq<nat>, fs: seq<R.Frame>, draws: seq<seq<nat>>, ghost w: W.World)
      returns (ok: bool, ghost d: R.Draw, ghost gs: seq<R.Frame>, ghost m: R.Match)
      requires Valid() && |draws| == |fs| && View() == Empty(world.env.cfg).(world := w)
      modifies this, world`items, world`nextDropId, world`deaths, world`crashed, world.bomb, world.players.Values
      ensures Valid() && d.pick == pick && Plays(fs, gs)
      ensures m == View() && Reaches(world.env, w, guns, d, gs, m)
      ensures ok ==> EveryRoundStands(world.env, w, guns, d, gs, ctSpawns, ttSpawns)
    {
      ok, d := EndPhase(pick, places);
      gs := [];
      if ok {
        ghost var m0 := View();
        ghost var run;
        ok, gs, run := Run(fs, draws);
        if ok { RoundsDoStand(world.env, w, guns, d, gs, m0, run, ctSpawns, ttSpawns); }
      }
      m := View();
    }

    /** ... if it does start. */
    method Begin(
      pick: nat, places: seq<nat>, fs: seq<R.Frame>, draws: seq<seq<nat>>, ghost w: W.World, ghost g: A.Entrants)
      returns (started: bool, ok: bool, ghost d: R.Draw, ghost gs: seq<R.Frame>, ghost m: R.Match)
      requires Valid() && |draws| == |fs| && View() == Empty(world.env.cfg).(world := w) && g == Entrants()
      modifies this, world`items, world`nextDropId, world`deaths, world`crashed, world.bomb, world.players.Values
      ensures Valid() && m == View() && (started <==> A.ShouldStart(world.env.cfg, g))
      ensures started ==> Reaches(world.env, w, guns, d, gs, m) && Plays(fs, gs)
      ensures started && ok ==> EveryRoundStands(world.env, w, guns, d, gs, ctSpawns, ttSpawns)
    {
      ok, d, gs := true, R.Draw(pick, (n: W.Name) => (0, 0)), [];
      m := View();
      started := ShouldStart();
      if started { ok, d, gs, m := Start(pick, places, fs, draws, w); }
    }

    /** A whole game, from the first player who joins to wherever the frames lead, on the objects themselves: when it
        starts, it has gone through a match of Rounds.dfy between two sides, and the bomb is in one place and
        every death credited once. */
    method Play(rs: seq<A.Request>, pick: nat, places: seq<nat>, fs: seq<R.Frame>, draws: seq<seq<nat>>)
      returns (started: bool, ok: bool, ghost w: W.World, ghost d: R.Draw, ghost gs: seq<R.Frame>, ghost m: R.Match)
      requires Valid() && |draws| == |fs| && View() == Empty(world.env.cfg) && Entrants() == A.EMPTY
      requires world.env.cfg.counterTerrorists >= 1 && world.env.cfg.terrorists >= 1
      modifies this, world, world.bomb
      ensures Valid() && m == View() && (started <==> A.ShouldStart(world.env.cfg, A.HandleAll(world.env.cfg, rs)))
      ensures started ==> Plays(fs, gs) && Played(world.env, rs, w, guns, d, gs, m)
      ensures started && ok ==> EveryRoundStands(world.env, w, guns, d, gs, ctSpawns, ttSpawns)
    {
      Wait(rs);
      w := world.View();
      ghost var g := Entrants();
      assert View() == Empty(world.env.cfg).(world := w);
      assert forall p <- world.players.Values :: fresh(p);
      started, ok, d, gs, m := Begin(pick, places, fs, draws, w, g);
      if started { StartedIsPlayed(world.env, rs, w, guns, d, gs, m); }
    }
  }
}
