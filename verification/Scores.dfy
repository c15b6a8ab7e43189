/** Verdicts and scores: what decides a round, and how the scores add up over a match
    (src/server/cs2d_game.cpp, src/server/game_phase.cpp). */
module Scores {
  import opened Settings
  import opened Geometry
  import opened Slide
  import opened Arms
  import opened World
  import opened Accounts
  import opened Refinement
  import opened Rounds
  import opened Matches
  import opened Runs
  import opened Fuse

  // ---- One verdict

  /** The ways the rules of the game have for a side to win a round. */
  predicate CtEarnsIt(w: World) { (AllDead(w, TT) && w.bomb.status == NotPlanted) || w.bomb.status == Defused }
  predicate TtEarnsIt(w: World) { AllDead(w, CT) || w.bomb.status == Exploded }

  /** One more verdict, counted once, for the side it names. */
  predicate Verdict(m: Match, m': Match, v: Team) {
    && m'.winner == Some(v) && m'.verdicts == m.verdicts + [v]
    && m'.ctWins == m.ctWins + (if v == CT then 1 else 0)
    && m'.ttWins == m.ttWins + (if v == TT then 1 else 0)
  }

  lemma DecidedOnce(env: Env, m: Match, m': Match) returns (v: Team)
    requires m.world.Ok() && m' == DecideWinner(env, m)
    ensures Verdict(m, m', v)
    ensures v == CT <==> CtEarnsIt(m.world) || !TtEarnsIt(m.world)
  {
    v := if CtWin(m.world) then CT else TT;
  }

  /** A completed attack phase that began with the flag clear gives one verdict, by the rules: to the
      counter-terrorists if they earned it, or else to the terrorists if these did, or else, the time
      being up with the bomb not planted, to the counter-terrorists. */
  lemma VerdictFollowsTheRules(env: Env, m: Match, fs: seq<Frame>, m1: Match, m2: Match) returns (v: Team)
    requires env.Valid() && AttackBegins(env, m) && env.cfg.detonationTime > 0 && !m.world.bomb.justPlanted
    requires Turns(env, m, fs) && m1 == Loop(env, m, fs) && !m1.over && !Goes(env, m1)
    requires m2 == DecideWinner(env, m1)
    ensures Verdict(m1, m2, v)
    ensures CtEarnsIt(m1.world) ==> v == CT
    ensures TtEarnsIt(m1.world) && !CtEarnsIt(m1.world) ==> v == TT
    ensures !CtEarnsIt(m1.world) && !TtEarnsIt(m1.world) ==>
              && v == CT && m1.world.bomb.status == NotPlanted
              && Seconds(env.cfg, m1.ticks) >= env.cfg.attackDuration as real
  {
    v := DecidedOnce(env, m1, m2);
    if !CtEarnsIt(m1.world) && !TtEarnsIt(m1.world) {
      NoTimeoutOnAPlantedBomb(env, m, fs, m1);
      ClockAgreesThroughout(env, m, fs);
    }
  }

  // ---- The scores of a match

  /** Wins of the players who are on side `first` in the first `half` rounds, and on the other one then. */
  function SquadWins(vs: seq<Team>, half: nat, first: Team): nat {
    if vs == [] then 0
    else
      var last := |vs| - 1;
      SquadWins(vs[..last], half, first)
      + (if vs[last] == (if last < half then first else OtherTeam(first)) then 1 else 0)
  }

  lemma {:induction false} SquadsShareTheRounds(vs: seq<Team>, half: nat)
    ensures SquadWins(vs, half, CT) + SquadWins(vs, half, TT) == |vs|
  {
    if vs != [] { SquadsShareTheRounds(vs[..|vs| - 1], half); }
  }

  lemma SquadWinsAnother(vs: seq<Team>, half: nat, v: Team, first: Team)
    ensures SquadWins(vs + [v], half, first)
            == SquadWins(vs, half, first) + (if v == (if |vs| < half then first else OtherTeam(first)) then 1 else 0)
  {
    assert (vs + [v])[..|vs|] == vs;
  }

  /** The score of a side is that of the squad that is on it now. */
  predicate Tally(half: nat, round: nat, ctWins: nat, ttWins: nat, vs: seq<Team>) {
    && ctWins == SquadWins(vs, half, if round <= half then CT else TT)
    && ttWins == SquadWins(vs, half, if round <= half then TT else CT)
  }

  /** The state of the scores, for a match that the players of `w` began. */
  ghost predicate Scored(cfg: Settings, w: World, m: Match) {
    && m.phase != WaitingPlayers && 1 <= m.round <= cfg.rounds + 1
    && |m.verdicts| == (if m.phase == RoundEnded then m.round else m.round - 1)
    && Tally(cfg.rounds / 2, m.round, m.ctWins, m.ttWins, m.verdicts)
    && m.winner == (if m.phase == RoundEnded then Some(m.verdicts[|m.verdicts| - 1]) else None)
    && (m.round > cfg.rounds ==> m.over && m.phase == Buy)
    && SidesKept(w, m.world, m.round > cfg.rounds / 2)
  }

  lemma SidesThroughRound(w: World, w1: World, w2: World, swapped: bool)
    requires SidesKept(w, w1, swapped) && RoundGoesOn(w1, w2)
    ensures SidesKept(w, w2, swapped)
  {
    forall n | n in w.players
      ensures n in w2.players
              && w2.players[n].team == (if swapped then OtherTeam(w.players[n].team) else w.players[n].team)
    {
      assert n in Vitals(w1) && Vitals(w2)[n].team == Vitals(w1)[n].team;
    }
  }

  lemma SidesThroughSwap(w: World, w1: World, w2: World, swapped: bool, swap: bool)
    requires SidesKept(w, w1, swapped) && SidesKept(w1, w2, swap)
    ensures SidesKept(w, w2, swapped != swap)
  {}

  lemma VerdictScored(cfg: Settings, w: World, m: Match, m1: Match, m2: Match, v: Team)
    requires Scored(cfg, w, m) && m.phase == Attack && !m.over && Verdict(m, m1, v) && RoundGoesOn(m.world, m1.world)
    requires m1.round == m.round && m2 == EnterPhase(cfg, m1, RoundEnded)
    ensures Scored(cfg, w, m2)
  {
    SquadWinsAnother(m.verdicts, cfg.rounds / 2, v, CT);
    SquadWinsAnother(m.verdicts, cfg.rounds / 2, v, TT);
    SidesThroughRound(w, m.world, m1.world, m.round > cfg.rounds / 2);
  }

  /** What begin_new_round does to the scores. */
  predicate NextScores(cfg: Settings, m: Match, m': Match, swap: bool) {
    && swap == SwapsNow(cfg, m.round + 1) && m'.round == m.round + 1 && m'.phase == Buy && m'.winner == None
    && m'.verdicts == m.verdicts && m'.over == (m'.round > cfg.rounds)
    && m'.ctWins == (if swap then m.ttWins else m.ctWins) && m'.ttWins == (if swap then m.ctWins else m.ttWins)
  }

  lemma RoundScored(cfg: Settings, w: World, m: Match, m': Match, swap: bool)
    requires Scored(cfg, w, m) && m.phase == RoundEnded && !m.over
    requires NextScores(cfg, m, m', swap) && SidesKept(m.world, m'.world, swap)
    ensures Scored(cfg, w, m')
  {
    SidesThroughSwap(w, m.world, m'.world, m.round > cfg.rounds / 2, swap);
  }

  lemma RoundBegun(env: Env, m: Match, guns: Guns, d: Draw, m': Match, swap: bool)
    requires env.Valid() && m.world.Ok() && Good(m.world) && m.phase != Buy && m.phase != Attack
    requires m' == EndPhase(env, m, guns, d) && swap == SwapsNow(env.cfg, m.round + 1)
    ensures NextScores(env.cfg, m, m', swap) && SidesKept(m.world, m'.world, swap)
  {
    GoodLedger(m.world);
    WorldOfRound(env, m, guns, d, swap);
    var holder := NewRoundIsSound(env, m.world, swap, guns, d);
  }

  lemma SameScores(cfg: Settings, w: World, m: Match, m': Match)
    requires Scored(cfg, w, m) && !m.over && RoundGoesOn(m.world, m'.world)
    requires m'.phase == m.phase && m'.round == m.round && m'.winner == m.winner
    requires m'.ctWins == m.ctWins && m'.ttWins == m.ttWins && m'.verdicts == m.verdicts
    ensures Scored(cfg, w, m')
  {
    SidesThroughRound(w, m.world, m'.world, m.round > cfg.rounds / 2);
  }

  lemma TurnScored(env: Env, w: World, m: Match, f: Frame, m': Match)
    requires env.Valid() && m.world.Ok() && Good(m.world) && Scored(env.cfg, w, m) && !m.over
    requires m' == Iterate(env, m, f)
    ensures Scored(env.cfg, w, m')
  {
    if f.anyAlive {
      FrameGoesOn(env, m.world, f, m.delta, m.phase == Buy);
    } else {
      StandStill(m.world);
    }
    SameScores(env.cfg, w, m, m');
  }

  lemma EndScored(env: Env, w: World, m: Match, guns: Guns, d: Draw, m': Match)
    requires env.Valid() && m.world.Ok() && Good(m.world) && Scored(env.cfg, w, m) && !m.over
    requires m' == EndPhase(env, m, guns, d)
    ensures Scored(env.cfg, w, m')
  {
    if m.phase == Attack {
      var m1 := DecideWinner(env, m);
      var v := DecidedOnce(env, m, m1);
      DecidedIsGood(env, m);
      VerdictScored(env.cfg, w, m, m1, m', v);
    } else if m.phase == RoundEnded {
      var swap := SwapsNow(env.cfg, m.round + 1);
      RoundBegun(env, m, guns, d, m', swap);
      RoundScored(env.cfg, w, m, m', swap);
    }
  }

  lemma {:induction false} RunScored(env: Env, w: World, m: Match, guns: Guns, fs: seq<Frame>)
    requires env.Valid() && m.world.Ok() && Good(m.world) && Scored(env.cfg, w, m)
    ensures Scored(env.cfg, w, Run(env, m, guns, fs))
  {
    if fs != [] {
      var before, f := Run(env, m, guns, fs[..|fs| - 1]), fs[|fs| - 1];
      RunKeepsGood(env, m, guns, fs[..|fs| - 1]);
      RunScored(env, w, m, guns, fs[..|fs| - 1]);
      if !before.over {
        if Continues(env.cfg, before) {
          TurnScored(env, w, before, f, Run(env, m, guns, fs));
        } else {
          EndScored(env, w, before, guns, f.draw, Run(env, m, guns, fs));
        }
      }
    }
  }

  lemma KickoffScored(env: Env, w: World, guns: Guns, d: Draw, m: Match)
    requires env.Valid() && Lobby(w) && m == Kickoff(env, w, guns, d)
    ensures Scored(env.cfg, w, m)
  {
    var swap := SwapsNow(env.cfg, 1);
    LobbyLedger(w);
    var holder := NewRoundIsSound(env, w, swap, guns, d);
    FirstRoundScored(env.cfg, w, m, swap);
  }

  lemma FirstRoundScored(cfg: Settings, w: World, m: Match, swap: bool)
    requires m.round == 1 && m.phase == Buy && m.verdicts == [] && m.ctWins == 0 && m.ttWins == 0 && m.winner == None
    requires m.over == (1 > cfg.rounds) && swap == SwapsNow(cfg, 1) && SidesKept(w, m.world, swap)
    ensures Scored(cfg, w, m)
  {}

  /** At any moment of any match: one verdict for each attack phase completed, which the scores add up;
      the score of a side is what the squad now on it has won; and everybody is on the side of the
      start in the first half of the rounds and on the other one from then on. */
  lemma ScoresAddUp(env: Env, w: World, guns: Guns, d: Draw, fs: seq<Frame>, m: Match)
    requires env.Valid() && Lobby(w) && m == Run(env, Kickoff(env, w, guns, d), guns, fs)
    ensures m.ctWins + m.ttWins == |m.verdicts| == (if m.phase == RoundEnded then m.round else m.round - 1)
    ensures m.ctWins == SquadWins(m.verdicts, env.cfg.rounds / 2, if m.round <= env.cfg.rounds / 2 then CT else TT)
    ensures m.ttWins == SquadWins(m.verdicts, env.cfg.rounds / 2, if m.round <= env.cfg.rounds / 2 then TT else CT)
    ensures SidesKept(w, m.world, m.round > env.cfg.rounds / 2)
  {
    var m0 := Kickoff(env, w, guns, d);
    KickoffIsGood(env, w, guns, d, m0);
    KickoffScored(env, w, guns, d, m0);
    RunScored(env, w, m0, guns, fs);
    SquadsShareTheRounds(m.verdicts, env.cfg.rounds / 2);
  }

  // ---- How a match ends

  /** A match is over for one of three reasons. */
  predicate OverForAReason(cfg: Settings, m: Match, stopped: bool) {
    m.over ==> stopped || m.world.crashed || m.round > cfg.rounds
  }

  predicate Stopped(fs: seq<Frame>) { exists i :: 0 <= i < |fs| && !fs[i].anyAlive }

  lemma {:induction false} RunEndsForAReason(env: Env, m: Match, guns: Guns, fs: seq<Frame>)
    requires env.Valid() && m.world.Ok() && OverForAReason(env.cfg, m, false)
    ensures OverForAReason(env.cfg, Run(env, m, guns, fs), Stopped(fs))
  {
    if fs != [] {
      var f := fs[|fs| - 1];
      assert fs == fs[..|fs| - 1] + [f];
      RunEndsForAReason(env, m, guns, fs[..|fs| - 1]);
      StepEndsForAReason(env, Run(env, m, guns, fs[..|fs| - 1]), guns, f, Run(env, m, guns, fs),
          Stopped(fs[..|fs| - 1]));
    }
  }

  lemma StepEndsForAReason(env: Env, m: Match, guns: Guns, f: Frame, m': Match, stopped: bool)
    requires env.Valid() && m.world.Ok() && OverForAReason(env.cfg, m, stopped) && m' == Step(env, m, guns, f)
    ensures OverForAReason(env.cfg, m', stopped || !f.anyAlive)
  {}

  /** A match that nobody stops, when it is over, has decided exactly ROUNDS rounds. */
  lemma AllRoundsArePlayed(env: Env, w: World, guns: Guns, d: Draw, fs: seq<Frame>, m: Match)
    requires env.Valid() && Lobby(w) && m == Run(env, Kickoff(env, w, guns, d), guns, fs)
    requires m.over && !m.world.crashed && !Stopped(fs)
    ensures m.ctWins + m.ttWins == |m.verdicts| == env.cfg.rounds
  {
    var m0 := Kickoff(env, w, guns, d);
    KickoffIsGood(env, w, guns, d, m0);
    KickoffScored(env, w, guns, d, m0);
    RunScored(env, w, m0, guns, fs);
    SquadsShareTheRounds(m.verdicts, env.cfg.rounds / 2);
    RunEndsForAReason(env, m0, guns, fs);
  }
}
