/** How long a match lasts: with the flag just_been_planted clear when an attack begins it is over after a
    number of turns that the settings give; with the flag set it need never be. */
module Endings {
  import opened Basics
  import opened Settings
  import opened Geometry
  import opened Slide
  import opened Arms
  import opened World
  import opened Accounts
  import opened Refinement
  import opened Rounds
  import opened Matches
  import opened Runs
  import opened Fuse
  import opened Scores
  import opened Bell

  // ---- Turns that a phase has left

  /** Turns before the clock of a phase reaches `limit`; the first turn does not move it. */
  function Left(limit: nat, ticks: nat, delta: nat): nat {
    if ticks >= limit then 0 else limit - ticks + (if delta == 0 then 1 else 0)
  }

  lemma LeftFalls(limit: nat, ticks: nat, delta: nat, delta': nat)
    requires ticks < limit && delta' > 0
    ensures Left(limit, ticks + delta, delta') < Left(limit, ticks, delta)
  {}

  function Limit(cfg: Settings, seconds: nat): nat
    requires cfg.Valid()
  {
    seconds * cfg.fps
  }

  function LeftOfAttack(cfg: Settings, m: Match): nat
    requires cfg.Valid()
  {
    match m.world.bomb.status
    case NotPlanted => Left(Limit(cfg, cfg.attackDuration), m.ticks, m.delta) + Limit(cfg, cfg.detonationTime)
    case Planted => Left(Limit(cfg, cfg.detonationTime), m.ticks, m.delta)
    case _ => 0
  }

  /** Steps of a pause, of it and the attack before it, and of a round. */
  function PauseSteps(cfg: Settings): nat
    requires cfg.Valid()
  {
    Limit(cfg, cfg.betweenRoundsDuration) + 2
  }

  function AttackSteps(cfg: Settings): nat
    requires cfg.Valid()
  {
    Limit(cfg, cfg.attackDuration) + Limit(cfg, cfg.detonationTime) + 2 + PauseSteps(cfg)
  }

  function RoundSteps(cfg: Settings): nat
    requires cfg.Valid()
  {
    Limit(cfg, cfg.buyDuration) + 2 + AttackSteps(cfg)
  }

  /** Steps that a round in this phase has left at most. */
  function StepsLeft(cfg: Settings, m: Match): nat
    requires cfg.Valid()
  {
    match m.phase
    case Buy => Left(Limit(cfg, cfg.buyDuration), m.ticks, m.delta) + 1 + AttackSteps(cfg)
    case Attack => LeftOfAttack(cfg, m) + 1 + PauseSteps(cfg)
    case _ => Left(Limit(cfg, cfg.betweenRoundsDuration), m.ticks, m.delta) + 1
  }

  /** What the clock, the bomb and the phase have to do with one another when no flag is stale. */
  predicate InTime(cfg: Settings, m: Match)
    requires cfg.Valid()
  {
    match m.phase
    case WaitingPlayers => false
    case Buy => m.duration == cfg.buyDuration && Quiet(m.world.bomb, m.world.bomb.justPlanted)
    case Attack => ClockAgrees(cfg, m, false) && (m.world.bomb.status == Planted ==> m.delta > 0)
    case RoundEnded => m.duration == cfg.betweenRoundsDuration
  }

  /** The flag is not set before there is a bomb planted, in the attack phase. */
  predicate FlagIsClear(m: Match) {
    m.phase == Attack && m.world.bomb.status == NotPlanted ==> !m.world.bomb.justPlanted
  }

  // ---- Each step brings the end closer

  predicate Closer(cfg: Settings, m: Match, m': Match)
    requires cfg.Valid()
  {
    && InTime(cfg, m')
    && ((m'.round == m.round && StepsLeft(cfg, m') < StepsLeft(cfg, m))
        || (m'.round == m.round + 1 && StepsLeft(cfg, m') <= RoundSteps(cfg)))
  }

  lemma AttackTurnIsCloser(cfg: Settings, m: Match, w': World, m': Match)
    requires cfg.Valid() && cfg.detonationTime > 0 && Turned(cfg, m, w', m') && InTime(cfg, m)
    requires m'.phase == Attack && m'.round == m.round
    requires BombTurns(cfg, m.world.bomb, w'.bomb, Seconds(cfg, m.delta))
    requires !HasWinner(m.world) && Seconds(cfg, m.ticks) < m.duration as real
    ensures Closer(cfg, m, m')
  {
    TurnKeepsClock(cfg, m, w', m', false);
    SecondsWithin(cfg, m.ticks, m.duration);
    LeftFalls(Limit(cfg, m.duration), m.ticks, m.delta, m'.delta);
  }

  lemma OtherTurnIsCloser(cfg: Settings, m: Match, m': Match)
    requires cfg.Valid() && InTime(cfg, m) && m.phase != Attack && InTime(cfg, m')
    requires m'.phase == m.phase && m'.round == m.round && m'.ticks == m.ticks + m.delta && m'.delta > 0
    requires Seconds(cfg, m.ticks) < m.duration as real
    ensures Closer(cfg, m, m')
  {
    SecondsWithin(cfg, m.ticks, m.duration);
    LeftFalls(Limit(cfg, m.duration), m.ticks, m.delta, m'.delta);
  }

  lemma TurnIsCloser(env: Env, m: Match, f: Frame, m': Match)
    requires env.Valid() && env.cfg.detonationTime > 0 && m.world.Ok() && Good(m.world) && InTime(env.cfg, m)
    requires Continues(env.cfg, m) && m' == Iterate(env, m, f) && !m'.over
    ensures Closer(env.cfg, m, m')
  {
    if m.phase == Attack {
      IterateTurns(env, m, f, m');
      AttackTurnIsCloser(env.cfg, m, m'.world, m');
    } else {
      if m.phase == Buy { QuietFrame(env, m.world, f, m.delta, m.world.bomb.justPlanted); }
      OtherTurnIsCloser(env.cfg, m, m');
    }
  }

  lemma EndIsCloser(env: Env, m: Match, guns: Guns, d: Draw, m': Match)
    requires env.Valid() && m.world.Ok() && InTime(env.cfg, m) && m' == EndPhase(env, m, guns, d)
    requires FlagIsClear(m')
    ensures Closer(env.cfg, m, m')
  {
    if m.phase == RoundEnded { NewRoundBomb(env, m, guns, d, m'); }
  }

  lemma StepIsCloser(env: Env, m: Match, guns: Guns, f: Frame, m': Match)
    requires env.Valid() && env.cfg.detonationTime > 0 && m.world.Ok() && Good(m.world) && InTime(env.cfg, m)
    requires !m.over && m' == Step(env, m, guns, f) && !m'.over && FlagIsClear(m')
    ensures Closer(env.cfg, m, m')
  {
    if Continues(env.cfg, m) { TurnIsCloser(env, m, f, m'); } else { EndIsCloser(env, m, guns, f.draw, m'); }
  }

  // ---- The whole match

  /** No attack phase of the match begins with the flag set. */
  ghost predicate FlagsAreClear(env: Env, m: Match, guns: Guns, fs: seq<Frame>)
    requires env.Valid() && m.world.Ok()
  {
    forall i :: 0 <= i <= |fs| ==> FlagIsClear(Run(env, m, guns, fs[..i]))
  }

  /** `n` steps fit in the rounds that were played, less what is left of this one. */
  predicate StepsFit(cfg: Settings, m: Match, n: nat)
    requires cfg.Valid()
  {
    m.round >= 1 && n + StepsLeft(cfg, m) <= m.round * RoundSteps(cfg)
  }

  lemma OneMoreFits(n: nat, left: nat, left': nat, round: nat, round': nat, most: nat)
    requires n + left <= round * most && left > 0
    requires (round' == round && left' < left) || (round' == round + 1 && left' <= most)
    ensures n + 1 + left' <= round' * most
  {
    assert (round + 1) * most == round * most + most;
  }

  lemma OneMoreStepFits(cfg: Settings, m: Match, m': Match, n: nat)
    requires cfg.Valid() && StepsFit(cfg, m, n) && Closer(cfg, m, m')
    ensures StepsFit(cfg, m', n + 1)
  {
    OneMoreFits(n, StepsLeft(cfg, m), StepsLeft(cfg, m'), m.round, m'.round, RoundSteps(cfg));
  }

  lemma {:induction false} StepsFitThroughout(env: Env, m: Match, guns: Guns, fs: seq<Frame>)
    requires env.Valid() && env.cfg.detonationTime > 0 && m.world.Ok() && Good(m.world)
    requires InTime(env.cfg, m) && StepsFit(env.cfg, m, 0) && FlagsAreClear(env, m, guns, fs)
    requires !Run(env, m, guns, fs).over
    ensures var m' := Run(env, m, guns, fs);
            InTime(env.cfg, m') && StepsFit(env.cfg, m', |fs|)
  {
    if fs != [] {
      var before, f := fs[..|fs| - 1], fs[|fs| - 1];
      forall i | 0 <= i <= |before| ensures FlagIsClear(Run(env, m, guns, before[..i])) {
        assert before[..i] == fs[..i];
      }
      assert fs[..|fs|] == fs;
      StepsFitThroughout(env, m, guns, before);
      RunIsGood(env, m, guns, before);
      var m1, m2 := Run(env, m, guns, before), Run(env, m, guns, fs);
      StepIsCloser(env, m1, guns, f, m2);
      OneMoreStepFits(env.cfg, m1, m2, |before|);
    }
  }

  /** Steps after which a match is over. */
  function MatchSteps(cfg: Settings): nat
    requires cfg.Valid()
  {
    cfg.rounds * RoundSteps(cfg)
  }

  lemma FewerFit(a: nat, b: nat, k: nat)
    requires a <= b
    ensures a * k <= b * k
  {}

  lemma RoundsWithin(cfg: Settings, m: Match, n: nat)
    requires cfg.Valid() && StepsFit(cfg, m, n) && m.round <= cfg.rounds
    ensures n < MatchSteps(cfg)
  {
    FewerFit(m.round, cfg.rounds, RoundSteps(cfg));
  }

  lemma KickoffInTime(env: Env, w: World, guns: Guns, d: Draw, m: Match)
    requires env.Valid() && w.Ok() && m == Kickoff(env, w, guns, d)
    ensures InTime(env.cfg, m) && StepsFit(env.cfg, m, 0)
  {
    NewRoundBomb(env, Match(w, WaitingPlayers, 0, 0, env.cfg.waitingDuration, 0, None, 0, 0, [], false), guns, d, m);
  }

  /** A match in which the flag is clear whenever an attack begins is over after `MatchSteps` steps, whatever
      is done in them; and if nobody stopped it and nothing threw, every round has then been decided. */
  lemma EveryMatchEnds(env: Env, w: World, guns: Guns, d: Draw, fs: seq<Frame>, m: Match)
    requires env.Valid() && Lobby(w) && env.cfg.detonationTime > 0
    requires m == Run(env, Kickoff(env, w, guns, d), guns, fs)
    requires FlagsAreClear(env, Kickoff(env, w, guns, d), guns, fs) && |fs| >= MatchSteps(env.cfg)
    ensures m.over
    ensures !m.world.crashed && !Stopped(fs) ==> m.ctWins + m.ttWins == |m.verdicts| == env.cfg.rounds
  {
    if !m.over {
      var m0 := Kickoff(env, w, guns, d);
      KickoffIsGood(env, w, guns, d, m0);
      KickoffInTime(env, w, guns, d, m0);
      StepsFitThroughout(env, m0, guns, fs);
      StillPlaying(env, w, guns, d, fs, m);
      RoundsWithin(env.cfg, m, |fs|);
    }
    if m.over && !m.world.crashed && !Stopped(fs) { AllRoundsArePlayed(env, w, guns, d, fs, m); }
  }

  lemma StillPlaying(env: Env, w: World, guns: Guns, d: Draw, fs: seq<Frame>, m: Match)
    requires env.Valid() && Lobby(w) && m == Run(env, Kickoff(env, w, guns, d), guns, fs) && !m.over
    ensures m.round <= env.cfg.rounds
  {
    var m0 := Kickoff(env, w, guns, d);
    KickoffIsGood(env, w, guns, d, m0);
    KickoffScored(env, w, guns, d, m0);
    RunScored(env, w, m0, guns, fs);
  }

  // ---- A match without end

  /** Two players of opposite sides who idle in an attack phase with the flag set. */
  predicate Hangs(m: Match, cast: Cast) {
    && m.phase == Attack && !m.over && m.ticks == 0 && m.duration > 0
    && BothIdle(m.world, cast) && m.world.bomb.justPlanted
  }

  lemma HangingWorld(env: Env, w: World, cast: Cast, frames: nat, luck: Luck, w': World)
    requires env.Valid() && BothIdle(w, cast) && w' == Tick(env, w, frames, luck)
    ensures BothIdle(w', cast) && w'.bomb == w.bomb
  {
    IdleTick(env, w, cast, frames, luck, w');
    assert cast.c in [cast.c, cast.t] && cast.t in [cast.c, cast.t];
  }

  lemma HangingTurn(fate: Fate, m: Match, cast: Cast, f: Frame, m': Match)
    requires Suits(fate, cast) && fate.env.cfg.detonationTime > 0 && Hangs(m, cast)
    requires f == FrameOf(fate, []) && m' == Iterate(fate.env, m, f)
    ensures Hangs(m', cast)
  {
    HangingWorld(fate.env, m.world, cast, m.delta, fate.luck, m'.world);
  }

  lemma HangingStep(fate: Fate, m: Match, cast: Cast, f: Frame, m': Match)
    requires Suits(fate, cast) && Hangs(m, cast) && m' == Step(fate.env, m, fate.guns, f)
    ensures m' == Iterate(fate.env, m, f)
  {
    NobodyHasWon(m.world, cast);
    SecondsReach(fate.env.cfg, m.ticks, m.duration);
  }

  lemma HangOn(fate: Fate, m0: Match, fs: seq<Frame>, cast: Cast, n: nat, m: Match) returns (fs': seq<Frame>)
    requires Suits(fate, cast) && fate.env.cfg.detonationTime > 0 && m0.world.Ok()
    requires m == Run(fate.env, m0, fate.guns, fs) && Hangs(m, cast)
    ensures |fs'| >= |fs| + n && !Run(fate.env, m0, fate.guns, fs').over
    decreases n
  {
    fs' := fs;
    if n > 0 {
      var f := FrameOf(fate, []);
      var m' := Step(fate.env, m, fate.guns, f);
      RunOn(fate.env, m0, fate.guns, fs, f);
      HangingStep(fate, m, cast, f, m');
      HangingTurn(fate, m, cast, f, m');
      fs' := HangOn(fate, m0, fs + [f], cast, n - 1, m');
    }
  }

  /** Without that condition no number of steps is enough: in the match of Bell.dfy in which the flag is left over,
      two players who then do nothing are still in the second round after any number of frames. */
  lemma AMatchWithoutEnd(fate: Fate, cast: Cast, n: nat) returns (fs: seq<Frame>)
    requires Suits(fate, cast) && cast.c != cast.t
    requires fate.env.cfg.detonationTime > 0 && fate.env.cfg.attackDuration > 0
    ensures var w := TwoPlayers(fate.env.cfg, cast.c, cast.t);
            |fs| >= n && !Run(fate.env, Kickoff(fate.env, w, fate.guns, fate.d), fate.guns, fs).over
  {
    var m0 := Kickoff(fate.env, TwoPlayers(fate.env.cfg, cast.c, cast.t), fate.guns, fate.d);
    fs := AMatchWithAStaleFlag(fate, cast);
    fs := HangOn(fate, m0, fs, cast, n, Run(fate.env, m0, fate.guns, fs));
  }
}
