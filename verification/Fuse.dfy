/** The clock of the attack phase and the fuse of the bomb, which src/server/game_phase.cpp and
    src/server/bomb.cpp keep apart, run together. */
module Fuse {
  import opened Settings
  import opened Geometry
  import opened Slide
  import opened Arms
  import opened World
  import opened Accounts
  import opened Refinement
  import opened Rounds
  import opened Matches
  import opened Runs

  // ---- The loop of a phase

  /** Turns of the loop one after the other. */
  function Loop(env: Env, m: Match, fs: seq<Frame>): (r: Match)
    requires env.Valid() && m.world.Ok()
    ensures r.world.Ok() && r.phase == m.phase
  {
    if fs == [] then m else Iterate(env, Loop(env, m, fs[..|fs| - 1]), fs[|fs| - 1])
  }

  /** The loop test lets all of them happen. */
  predicate Turns(env: Env, m: Match, fs: seq<Frame>)
    requires env.Valid() && m.world.Ok()
  {
    fs == [] || (Turns(env, m, fs[..|fs| - 1]) && Goes(env, Loop(env, m, fs[..|fs| - 1])))
  }

  predicate Goes(env: Env, m: Match)
    requires env.Valid() && m.world.Ok()
  {
    !m.over && Continues(env.cfg, m)
  }

  lemma {:induction false} LoopIsRun(env: Env, m: Match, guns: Guns, fs: seq<Frame>)
    requires env.Valid() && m.world.Ok() && Turns(env, m, fs)
    ensures Run(env, m, guns, fs) == Loop(env, m, fs)
  {
    if fs != [] { LoopIsRun(env, m, guns, fs[..|fs| - 1]); }
  }

  // ---- Clock arithmetic

  lemma SecondsAdd(cfg: Settings, a: nat, b: nat)
    requires cfg.Valid()
    ensures Seconds(cfg, a + b) == Seconds(cfg, a) + Seconds(cfg, b)
  {}

  lemma SecondsWithin(cfg: Settings, ticks: nat, limit: nat)
    requires cfg.Valid()
    ensures Seconds(cfg, ticks) < limit as real <==> ticks < limit * cfg.fps
  {
    var s := Seconds(cfg, ticks);
    assert ticks as real == s * cfg.fps as real;
  }

  // ---- The bomb's part of a turn

  /** What the clock has to do with the fuse. `stale` is the flag just_been_planted as the phase
      begins, which a restart of the bomb does not clear. */
  predicate ClockAgrees(cfg: Settings, m: Match, stale: bool)
    requires cfg.Valid()
  {
    match m.world.bomb.status
    case NotPlanted =>
      && m.world.bomb.sincePlanted == 0.0 && m.world.bomb.justPlanted == stale
      && (if stale then m.ticks == 0 && m.duration in {cfg.attackDuration, cfg.detonationTime}
          else m.duration == cfg.attackDuration)
    case Planted =>
      && m.duration == cfg.detonationTime
      && m.world.bomb.sincePlanted == Seconds(cfg, m.ticks) < cfg.detonationTime as real
    case _ => true
  }

  /** How many turns there may have been. */
  predicate TurnsFit(cfg: Settings, m: Match, n: nat) {
    match m.world.bomb.status
    case NotPlanted => n > 0 ==> m.delta > 0 && n <= m.ticks + 1
    case Planted => m.delta > 0 && n <= cfg.attackDuration * cfg.fps + 1 + m.ticks
    case _ => n <= cfg.attackDuration * cfg.fps + cfg.detonationTime * cfg.fps + 1
  }

  /** The status, the flag and the fuse after a turn in which `dt` seconds passed. */
  predicate BombTurns(cfg: Settings, b: Bomb, b': Bomb, dt: real) {
    match b.status
    case NotPlanted =>
      && b'.sincePlanted == b.sincePlanted && (b'.status == NotPlanted || b'.status == Planted)
      && (b'.justPlanted <==> b'.status == Planted || b.justPlanted)
    case Planted =>
      && b'.status != NotPlanted && !b'.justPlanted
      && (b'.status == Planted ==> b'.sincePlanted == b.sincePlanted + dt < cfg.detonationTime as real)
    case _ => b'.status == b.status
  }

  lemma TurnAfterCommands(cfg: Settings, b: Bomb, b1: Bomb, b': Bomb, dt: real)
    requires b1 == b.(trigger := b1.trigger) && BombTicks(cfg, b1, b', dt)
    ensures BombTurns(cfg, b, b', dt)
  {
    if b.status == Planted { ExplosionWinsTies(cfg, b1, dt); }
  }

  lemma FrameMovesBomb(env: Env, w: World, f: Frame, frames: nat, w': World)
    requires env.Valid() && w.Ok() && Good(w) && w' == PlayFrame(env, w, f, frames, false) && !w'.crashed
    ensures BombTurns(env.cfg, w.bomb, w'.bomb, Seconds(env.cfg, frames))
  {
    var w1 := ExecuteAll(env, w, f.commands, false);
    var place :| Sound(AccountOf(w), place);
    var place1 := CommandsAreSound(env, w, f.commands, false, place);
    TickFollows(env, w1, frames, f.luck, place1);
    TurnAfterCommands(env.cfg, w.bomb, w1.bomb, w'.bomb, Seconds(env.cfg, frames));
  }

  // ---- What decides a planted bomb

  lemma CommandKeepsGood(env: Env, w: World, me: Name, c: Command, buying: bool, w': World)
    requires env.Valid() && w.Ok() && Good(w) && w' == Execute(env, w, me, c, buying)
    ensures Good(w')
  {
    var place :| Sound(AccountOf(w), place);
    var es := Executed(env, w, me, c, buying);
    var place' := EventsKeepSound(AccountOf(w), es, AccountOf(w'), place);
    EventsFollow(AccountOf(w), es, AccountOf(w'), place);
    FollowsGoesOn(w, w');
    SidesStayTwo(w, w');
  }

  /** Nobody has a planted bomb in his hands. */
  lemma NobodyHasIt(w: World, n: Name)
    requires Good(w) && w.bomb.status != NotPlanted && n in w.players
    ensures !w.players[n].loadout.hasBomb
  {
    var place :| Sound(AccountOf(w), place);
    assert !Vitals(w)[n].hasBomb;
  }

  /** So, although planting and defusing share the bomb's trigger, only the commands to defuse reach that of a
      planted bomb. */
  lemma OnlyDefusersReachIt(env: Env, w: World, me: Name, c: Command, buying: bool)
    requires env.Valid() && w.Ok() && Good(w) && w.bomb.status == Planted && !c.Defuse?
    ensures Execute(env, w, me, c, buying).bomb == w.bomb
  {
    if me in w.players { NobodyHasIt(w, me); }
  }

  lemma {:induction false} OthersLeaveIt(env: Env, w: World, cs: seq<(Name, Command)>, buying: bool)
    requires env.Valid() && w.Ok() && Good(w) && w.bomb.status == Planted && forall e <- cs :: !e.1.Defuse?
    ensures ExecuteAll(env, w, cs, buying).bomb == w.bomb
    decreases |cs|
  {
    if cs != [] {
      var w1 := Execute(env, w, cs[0].0, cs[0].1, buying);
      CommandKeepsGood(env, w, cs[0].0, cs[0].1, buying, w1);
      OnlyDefusersReachIt(env, w, cs[0].0, cs[0].1, buying);
      OthersLeaveIt(env, w1, cs[1..], buying);
    }
  }

  /** What a turn of any match makes of a planted bomb: it explodes exactly when the fuse has burnt down, and is
      defused exactly when that is not so and the trigger, as the commands of the turn left it, has been
      held long enough; an explosion due wins. No other command than those to defuse reaches the trigger. */
  lemma TurnDecidesTheBomb(env: Env, w: World, f: Frame, frames: nat, buying: bool, w1: World, w': World)
    requires env.Valid() && w.Ok() && Good(w) && w.bomb.status == Planted
    requires w1 == ExecuteAll(env, w, f.commands, buying) && !w1.crashed && w' == PlayFrame(env, w, f, frames, buying)
    ensures var dt, trigger := Seconds(env.cfg, frames), w1.bomb.trigger;
            var burnt := w.bomb.sincePlanted + dt >= env.cfg.detonationTime as real;
            && (w'.bomb.status == Exploded <==> burnt)
            && (w'.bomb.status == Defused <==>
                !burnt && trigger.making && trigger.Update(dt).since >= env.cfg.defuseTime as real)
            && w'.bomb.status != NotPlanted
    ensures (forall e <- f.commands :: !e.1.Defuse?) ==> w1.bomb.trigger == w.bomb.trigger
  {
    var place :| Sound(AccountOf(w), place);
    var place1 := CommandsAreSound(env, w, f.commands, buying, place);
    TickFollows(env, w1, frames, f.luck, place1);
    ExplosionWinsTies(env.cfg, w1.bomb, Seconds(env.cfg, frames));
    if forall e <- f.commands :: !e.1.Defuse? { OthersLeaveIt(env, w, f.commands, buying); }
  }

  // ---- The loop of the attack phase

  /** What an attack phase starts from. */
  ghost predicate AttackBegins(env: Env, m: Match)
    requires env.Valid()
  {
    && m.world.Ok() && Good(m.world) && !m.over
    && m.phase == Attack && m.ticks == 0 && m.delta == 0 && m.duration == env.cfg.attackDuration
    && m.world.bomb.status == NotPlanted && m.world.bomb.sincePlanted == 0.0
  }

  /** The world `w'` that a turn in the attack phase leads to, and what the loop makes of it. */
  predicate Turned(cfg: Settings, m: Match, w': World, m': Match) {
    && m.phase == Attack && m'.world == w' && m'.delta > 0
    && m'.ticks == (if w'.bomb.justPlanted then 0 else m.ticks + m.delta)
    && m'.duration == (if w'.bomb.justPlanted then cfg.detonationTime else m.duration)
  }

  lemma TurnKeepsClock(cfg: Settings, m: Match, w': World, m': Match, stale: bool)
    requires cfg.Valid() && cfg.detonationTime > 0 && Turned(cfg, m, w', m')
    requires BombTurns(cfg, m.world.bomb, w'.bomb, Seconds(cfg, m.delta))
    requires ClockAgrees(cfg, m, stale)
    ensures ClockAgrees(cfg, m', stale)
  {
    SecondsAdd(cfg, m.ticks, m.delta);
  }

  lemma TurnFits(cfg: Settings, m: Match, w': World, m': Match, n: nat)
    requires cfg.Valid() && Turned(cfg, m, w', m') && !HasWinner(m.world)
    requires BombTurns(cfg, m.world.bomb, w'.bomb, Seconds(cfg, m.delta))
    requires ClockAgrees(cfg, m, false) && TurnsFit(cfg, m, n) && Seconds(cfg, m.ticks) < m.duration as real
    ensures TurnsFit(cfg, m', n + 1)
  {
    SecondsWithin(cfg, m.ticks, m.duration);
  }

  lemma LoopKeepsGood(env: Env, m: Match, fs: seq<Frame>)
    requires env.Valid() && m.world.Ok() && Good(m.world) && Turns(env, m, fs)
    ensures Good(Loop(env, m, fs).world)
  {
    LoopIsRun(env, m, [], fs);
    RunKeepsGood(env, m, [], fs);
  }

  lemma IterateTurns(env: Env, m: Match, f: Frame, m': Match)
    requires env.Valid() && m.world.Ok() && Good(m.world) && m.phase == Attack
    requires m' == Iterate(env, m, f) && !m'.over
    ensures Turned(env.cfg, m, m'.world, m')
    ensures BombTurns(env.cfg, m.world.bomb, m'.world.bomb, Seconds(env.cfg, m.delta))
  {
    FrameMovesBomb(env, m.world, f, m.delta, m'.world);
  }

  /** At every test of the attack phase's loop the clock agrees with the fuse. */
  lemma {:induction false} ClockAgreesThroughout(env: Env, m: Match, fs: seq<Frame>)
    requires env.Valid() && AttackBegins(env, m) && env.cfg.detonationTime > 0
    requires Turns(env, m, fs) && !Loop(env, m, fs).over
    ensures ClockAgrees(env.cfg, Loop(env, m, fs), m.world.bomb.justPlanted)
  {
    if fs != [] {
      var before, f := fs[..|fs| - 1], fs[|fs| - 1];
      var m1, m2 := Loop(env, m, before), Loop(env, m, fs);
      LoopKeepsGood(env, m, before);
      ClockAgreesThroughout(env, m, before);
      IterateTurns(env, m1, f, m2);
      TurnKeepsClock(env.cfg, m1, m2.world, m2, m.world.bomb.justPlanted);
    }
  }

  lemma {:induction false} TurnsFitThroughout(env: Env, m: Match, fs: seq<Frame>)
    requires env.Valid() && AttackBegins(env, m) && env.cfg.detonationTime > 0 && !m.world.bomb.justPlanted
    requires Turns(env, m, fs) && !Loop(env, m, fs).over
    ensures TurnsFit(env.cfg, Loop(env, m, fs), |fs|)
  {
    if fs != [] {
      var before, f := fs[..|fs| - 1], fs[|fs| - 1];
      var m1, m2 := Loop(env, m, before), Loop(env, m, fs);
      LoopKeepsGood(env, m, before);
      ClockAgreesThroughout(env, m, before);
      TurnsFitThroughout(env, m, before);
      IterateTurns(env, m1, f, m2);
      TurnFits(env.cfg, m1, m2.world, m2, |before|);
    }
  }

  function MostTurns(cfg: Settings): nat
    requires cfg.Valid()
  {
    cfg.attackDuration * cfg.fps + cfg.detonationTime * cfg.fps + 1
  }

  lemma LastTurnFits(cfg: Settings, m: Match, n: nat)
    requires cfg.Valid() && TurnsFit(cfg, m, n) && ClockAgrees(cfg, m, false)
    requires !HasWinner(m.world) && Seconds(cfg, m.ticks) < m.duration as real
    ensures n + 1 <= MostTurns(cfg)
  {
    SecondsWithin(cfg, m.ticks, m.duration);
  }

  lemma TimeIsUp(cfg: Settings, m: Match, n: nat)
    requires cfg.Valid() && TurnsFit(cfg, m, n) && ClockAgrees(cfg, m, false)
    requires m.world.bomb.status == NotPlanted && n > cfg.attackDuration * cfg.fps
    ensures Seconds(cfg, m.ticks) >= m.duration as real
  {
    SecondsWithin(cfg, m.ticks, m.duration);
  }

  /** An attack phase that starts with the flag clear ends within (attack + detonation) * fps + 1 turns,
      whatever happens in them. */
  lemma AttackPhaseEnds(env: Env, m: Match, fs: seq<Frame>)
    requires env.Valid() && AttackBegins(env, m) && env.cfg.detonationTime > 0 && !m.world.bomb.justPlanted
    requires Turns(env, m, fs)
    ensures |fs| <= MostTurns(env.cfg)
  {
    if fs != [] {
      var before := fs[..|fs| - 1];
      TurnsFitThroughout(env, m, before);
      ClockAgreesThroughout(env, m, before);
      LastTurnFits(env.cfg, Loop(env, m, before), |before|);
    }
  }

  /** A phase that has run out of time, not of players or of bomb. */
  predicate TimedOut(env: Env, m: Match)
    requires env.Valid()
  {
    !HasWinner(m.world) && Seconds(env.cfg, m.ticks) >= m.duration as real
  }

  /** No attack phase times out on a planted bomb. */
  lemma NoTimeoutOnAPlantedBomb(env: Env, m: Match, fs: seq<Frame>, m': Match)
    requires env.Valid() && AttackBegins(env, m) && env.cfg.detonationTime > 0
    requires Turns(env, m, fs) && m' == Loop(env, m, fs) && !m'.over && TimedOut(env, m')
    ensures m'.world.bomb.status == NotPlanted
  {
    ClockAgreesThroughout(env, m, fs);
  }

  /** An attack phase that has gone on for longer than its clock gives it, nobody being eliminated and the bomb
      being in hand or on the ground. */
  ghost predicate Overdue(env: Env, m: Match, fs: seq<Frame>, m': Match)
    requires env.Valid()
  {
    && AttackBegins(env, m) && Turns(env, m, fs) && m' == Loop(env, m, fs) && !m'.over
    && |fs| > env.cfg.attackDuration * env.cfg.fps && !HasWinner(m'.world) && m'.world.bomb.status == NotPlanted
  }

  lemma FlagStopsClock(env: Env, m: Match, fs: seq<Frame>, m': Match)
    requires env.Valid() && env.cfg.detonationTime > 0 && m.world.bomb.justPlanted && Overdue(env, m, fs, m')
    ensures m'.ticks == 0 && m'.duration == env.cfg.detonationTime
  {
    ClockAgreesThroughout(env, m, fs);
    LoopKeepsGood(env, m, fs[..|fs| - 1]);
    IterateTurns(env, Loop(env, m, fs[..|fs| - 1]), fs[|fs| - 1], m');
  }

  lemma StoppedClock(env: Env, m: Match)
    requires env.Valid() && m.ticks == 0 && m.duration > 0
    ensures !TimedOut(env, m)
  {}

  lemma StaleFlagNeverTimesOut(env: Env, m: Match, fs: seq<Frame>, m': Match)
    requires env.Valid() && env.cfg.detonationTime > 0 && m.world.bomb.justPlanted && Overdue(env, m, fs, m')
    ensures !TimedOut(env, m')
  {
    FlagStopsClock(env, m, fs, m');
    StoppedClock(env, m');
  }

  lemma ClearFlagTimesOut(env: Env, m: Match, fs: seq<Frame>, m': Match)
    requires env.Valid() && env.cfg.detonationTime > 0 && !m.world.bomb.justPlanted && Overdue(env, m, fs, m')
    ensures TimedOut(env, m')
  {
    ClockAgreesThroughout(env, m, fs);
    TurnsFitThroughout(env, m, fs);
    TimeIsUp(env.cfg, m', |fs|);
  }

  /** With nobody eliminated and the bomb in hand or on the ground, the clock stops the phase in time
      if and only if the flag was clear when the phase began: under a stale flag every tick sets the
      clock back to zero. */
  lemma TimesOutIffFlagWasClear(env: Env, m: Match, fs: seq<Frame>, m': Match)
    requires env.Valid() && env.cfg.detonationTime > 0 && Overdue(env, m, fs, m')
    ensures TimedOut(env, m') <==> !m.world.bomb.justPlanted
  {
    if m.world.bomb.justPlanted {
      StaleFlagNeverTimesOut(env, m, fs, m');
    } else {
      ClearFlagTimesOut(env, m, fs, m');
    }
  }

  // ---- From the beginning of a round to the attack

  /** A bomb that nobody is planting. */
  predicate Quiet(b: Bomb, flag: bool) {
    b.status == NotPlanted && b.sincePlanted == 0.0 && b.justPlanted == flag && !b.trigger.making
  }

  lemma QuietBombUsed(env: Env, w: World, me: Name, dt: real, flag: bool)
    requires env.Valid() && w.Ok() && me in w.players && Quiet(w.bomb, flag)
    ensures Quiet(UseBomb(env, w, me, dt).bomb, flag)
  {}

  lemma QuietTurn(env: Env, w: World, me: Name, frames: nat, luck: Luck, flag: bool)
    requires env.Valid() && w.Ok() && me in w.players && Quiet(w.bomb, flag)
    ensures Quiet(UpdatePlayer(env, w, me, frames, luck).bomb, flag)
  {
    var dt := frames as real / env.cfg.fps as real;
    var p := w.players[me].(shot := None, planting := false);
    var w0 := SetPlayer(w, me, p);
    QuietBombUsed(env, SetPlayer(w0, me, p.(planting := true)), me, dt, flag);
    QuietWeapon(env, Walk(env, w0, me, frames * env.cfg.playerSpeed), me, dt, luck, flag);
  }

  lemma QuietWeapon(env: Env, w: World, me: Name, dt: real, luck: Luck, flag: bool)
    requires env.Valid() && w.Ok() && me in w.players && Quiet(w.bomb, flag)
    ensures Quiet(UseWeapon(env, w, me, dt, luck).bomb, flag)
  {
    if w.players[me].loadout.equipped == BombSlot && w.players[me].loadout.hasBomb {
      QuietBombUsed(env, w, me, dt, flag);
    }
  }

  lemma {:induction false} QuietTurns(env: Env, w: World, i: nat, frames: nat, luck: Luck, flag: bool)
    requires env.Valid() && w.Ok() && i <= |w.order| && Quiet(w.bomb, flag)
    ensures Quiet(TakeTurns(env, w, i, false, frames, luck).bomb, flag)
    decreases |w.order| - i
  {
    if i < |w.order| && !w.crashed {
      QuietTurn(env, w, w.order[i], frames, luck, flag);
      QuietTurns(env, TakeTurn(env, w, w.order[i], false, frames, luck), i + 1, frames, luck, flag);
    }
  }

  lemma QuietCommand(env: Env, w: World, me: Name, c: Command, flag: bool)
    requires env.Valid() && w.Ok() && Quiet(w.bomb, flag)
    ensures Quiet(Execute(env, w, me, c, true).bomb, flag)
  {}

  lemma {:induction false} QuietCommands(env: Env, w: World, cs: seq<(Name, Command)>, flag: bool)
    requires env.Valid() && w.Ok() && Quiet(w.bomb, flag)
    ensures Quiet(ExecuteAll(env, w, cs, true).bomb, flag)
    decreases |cs|
  {
    if cs != [] {
      QuietCommand(env, w, cs[0].0, cs[0].1, flag);
      QuietCommands(env, Execute(env, w, cs[0].0, cs[0].1, true), cs[1..], flag);
    }
  }

  lemma QuietFrame(env: Env, w: World, f: Frame, frames: nat, flag: bool)
    requires env.Valid() && w.Ok() && Quiet(w.bomb, flag)
    ensures Quiet(PlayFrame(env, w, f, frames, true).bomb, flag)
  {
    QuietCommands(env, w, f.commands, flag);
    QuietTurns(env, ExecuteAll(env, w, f.commands, true), 0, frames, f.luck, flag);
  }

  /** Nothing that can be done in the purchase phase plants the bomb. */
  lemma {:induction false} BuyPhaseIsQuiet(env: Env, m: Match, fs: seq<Frame>, flag: bool)
    requires env.Valid() && m.world.Ok() && m.phase == Buy && Quiet(m.world.bomb, flag)
    ensures Quiet(Loop(env, m, fs).world.bomb, flag)
  {
    if fs != [] {
      BuyPhaseIsQuiet(env, m, fs[..|fs| - 1], flag);
      var m1 := Loop(env, m, fs[..|fs| - 1]);
      QuietFrame(env, m1.world, fs[|fs| - 1], m1.delta, flag);
    }
  }

  /** The round from its beginning to the attack: the attack phase starts as the theorems above want it,
      with the flag as the phase before left it. So it starts stale exactly when the bomb had been
      planted in the last tick of the pause between rounds, or the flag was stale all along. */
  lemma AttackBeginsWithTheOldFlag(
    env: Env, m: Match, guns: Guns, d: Draw, fs: seq<Frame>, d': Draw, m1: Match, m2: Match)
    requires env.Valid() && m.world.Ok() && Good(m.world) && m.phase != Buy && m.phase != Attack
    requires m1 == EndPhase(env, m, guns, d) && !m1.over
    requires Turns(env, m1, fs) && !Loop(env, m1, fs).over && !Goes(env, Loop(env, m1, fs))
    requires m2 == EndPhase(env, Loop(env, m1, fs), guns, d')
    ensures AttackBegins(env, m2) && m2.world.bomb.justPlanted == m.world.bomb.justPlanted
  {
    EndIsGood(env, m, guns, d, m1);
    NewRoundBomb(env, m, guns, d, m1);
    BuyPhaseIsQuiet(env, m1, fs, m.world.bomb.justPlanted);
    LoopKeepsGood(env, m1, fs);
    AttackEntered(env, Loop(env, m1, fs), guns, d', m.world.bomb.justPlanted, m2);
  }

  lemma NewRoundBomb(env: Env, m: Match, guns: Guns, d: Draw, m1: Match)
    requires env.Valid() && m.world.Ok() && m.phase != Buy && m.phase != Attack && m1 == EndPhase(env, m, guns, d)
    ensures m1.phase == Buy && m1.world.Ok() && m1.world.bomb == RestartBomb(m.world.bomb)
  {}

  lemma AttackEntered(env: Env, m: Match, guns: Guns, d: Draw, flag: bool, m': Match)
    requires env.Valid() && m.world.Ok() && Good(m.world) && m.phase == Buy && !m.over && Quiet(m.world.bomb, flag)
    requires m' == EndPhase(env, m, guns, d)
    ensures AttackBegins(env, m') && m'.world.bomb.justPlanted == flag
  {}
}
