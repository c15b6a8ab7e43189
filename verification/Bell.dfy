/** The flag just_been_planted when a round begins: when it is left over from the round before, and a match
    in which it is. */
module Bell {
  import opened Basics
  import opened Settings
  import opened Geometry
  import opened Slide
  import opened Arms
  import opened World
  import opened Accounts
  import opened Refinement
  import opened Rounds
  import opened Matches
  import opened Runs
  import opened Fuse

  // ---- Two players who do nothing

  predicate Idles(p: Player) {
    && p.Alive() && !p.up && !p.down && !p.left && !p.right && !p.making && !p.defusing
    && p.loadout.equipped == SecondarySlot && !p.loadout.secondary.trigger.just && p.loadout.secondary.kind == Glock
  }

  /** What stays of a player who idles through a tick. */
  predicate StaysPut(p: Player, p': Player) {
    p'.team == p.team && p'.rect == p.rect && p'.loadout.hasBomb == p.loadout.hasBomb
  }

  lemma IdleStep(p: Player, stepped: nat)
    requires Idles(p)
    ensures StepOf(p, stepped) == (0, 0)
  {}

  lemma IdleWalk(env: Env, w: World, n: Name, stepped: nat, p: Player)
    requires env.Valid() && w.Ok() && n in w.players && p == w.players[n] && Idles(p)
    ensures Walk(env, w, n, stepped) == SetPlayer(w, n, p.(onSite := OnSite(env, p.rect)))
  {
    IdleStep(p, stepped);
  }

  lemma IdleGun(env: Env, w: World, n: Name, dt: real, luck: Luck, p: Player, w': World)
    requires env.Valid() && w.Ok() && n in w.players && p == w.players[n] && Idles(p)
    requires w' == UseWeapon(env, w, n, dt, luck)
    ensures n in w'.players && w' == SetPlayer(w, n, w'.players[n])
    ensures Idles(w'.players[n]) && StaysPut(p, w'.players[n]) && w'.players[n].onSite == p.onSite
  {}

  lemma IdleTurn(env: Env, w: World, n: Name, frames: nat, luck: Luck, w': World)
    requires env.Valid() && w.Ok() && n in w.players && Idles(w.players[n]) && w.bomb.status != Defused
    requires w' == TakeTurn(env, w, n, false, frames, luck)
    ensures n in w'.players && w' == SetPlayer(w, n, w'.players[n])
    ensures Idles(w'.players[n]) && StaysPut(w.players[n], w'.players[n])
    ensures w'.players[n].onSite == OnSite(env, w.players[n].rect)
  {
    var dt := frames as real / env.cfg.fps as real;
    var p := w.players[n].(shot := None, planting := false);
    var w0 := SetPlayer(w, n, p);
    IdleWalk(env, w0, n, frames * env.cfg.playerSpeed, p);
    var p1 := p.(onSite := OnSite(env, p.rect));
    IdleGun(env, SetPlayer(w0, n, p1), n, dt, luck, p1, w');
    assert w' == SetPlayer(w, n, w'.players[n]);
  }

  /** The names of the two, and where the second, who has the bomb, stands. */
  datatype Cast = Cast(c: Name, t: Name, at: Rect)

  predicate Pair(w: World, cast: Cast) {
    && w.order == [cast.c, cast.t] && cast.c != cast.t && w.players.Keys == {cast.c, cast.t} && w.Ok()
    && !w.crashed && w.bomb.status == NotPlanted
  }

  /** The first idles, and the second, who has the bomb, is where he was put. */
  predicate Calm(w: World, cast: Cast) {
    && Pair(w, cast) && w.players[cast.c].team == CT && w.players[cast.t].team == TT && Idles(w.players[cast.c])
    && w.players[cast.t].rect == cast.at && w.players[cast.t].loadout.hasBomb
  }

  predicate Resting(env: Env, w: World, cast: Cast) {
    Calm(w, cast) && Idles(w.players[cast.t]) && OnSite(env, cast.at)
  }

  lemma TwoTurns(env: Env, w: World, cast: Cast, frames: nat, luck: Luck, w1: World)
    requires env.Valid() && Pair(w, cast) && w1 == TakeTurn(env, w, cast.c, false, frames, luck) && !w1.crashed
    ensures Tick(env, w, frames, luck) == TakeTurn(env, w1, cast.t, false, frames, luck)
  {
    var w2 := TakeTurn(env, w1, cast.t, false, frames, luck);
    assert TakeTurns(env, w2, 2, false, frames, luck) == w2;
    assert TakeTurns(env, w1, 1, false, frames, luck) == w2;
  }

  lemma FirstIdles(env: Env, w: World, cast: Cast, frames: nat, luck: Luck, w1: World)
    requires env.Valid() && Pair(w, cast) && Idles(w.players[cast.c])
    requires w1 == TakeTurn(env, w, cast.c, false, frames, luck)
    ensures Pair(w1, cast) && w1.players[cast.t] == w.players[cast.t] && w1.bomb == w.bomb
    ensures Idles(w1.players[cast.c]) && StaysPut(w.players[cast.c], w1.players[cast.c])
  {
    IdleTurn(env, w, cast.c, frames, luck, w1);
  }

  lemma IdleTick(env: Env, w: World, cast: Cast, frames: nat, luck: Luck, w': World)
    requires env.Valid() && Pair(w, cast) && Idles(w.players[cast.c]) && Idles(w.players[cast.t])
    requires w' == Tick(env, w, frames, luck)
    ensures Pair(w', cast) && w'.bomb == w.bomb
    ensures forall n <- [cast.c, cast.t] :: Idles(w'.players[n]) && StaysPut(w.players[n], w'.players[n])
    ensures w'.players[cast.t].onSite == OnSite(env, w.players[cast.t].rect)
  {
    var w1 := TakeTurn(env, w, cast.c, false, frames, luck);
    FirstIdles(env, w, cast, frames, luck, w1);
    TwoTurns(env, w, cast, frames, luck, w1);
    IdleTurn(env, w1, cast.t, frames, luck, w');
  }

  lemma RestingTick(env: Env, w: World, cast: Cast, frames: nat, luck: Luck, w': World)
    requires env.Valid() && Resting(env, w, cast) && w' == Tick(env, w, frames, luck)
    ensures Resting(env, w', cast) && w'.bomb == w.bomb && w'.players[cast.t].onSite
  {
    IdleTick(env, w, cast, frames, luck, w');
    assert forall n <- [cast.c, cast.t] :: StaysPut(w.players[n], w'.players[n]);
  }

  // ---- Holding the trigger of the bomb

  /** A terrorist, on a site with the bomb in hand, who holds its trigger. */
  predicate Plants(p: Player) {
    && p.Alive() && p.making && p.onSite && !p.defusing
    && p.loadout.equipped == BombSlot && p.loadout.hasBomb
    && p.loadout.secondary.kind == Glock && !p.loadout.secondary.trigger.just
  }

  /** The trigger has been held for `held` frames. */
  predicate Holding(env: Env, w: World, cast: Cast, held: nat)
    requires env.Valid()
  {
    && Calm(w, cast) && Plants(w.players[cast.t])
    && w.bomb.trigger == Trigger(true, false, Seconds(env.cfg, held))
  }

  /** ... or has just been pulled. */
  predicate Pulled(w: World, cast: Cast) {
    Calm(w, cast) && Plants(w.players[cast.t]) && w.bomb.trigger == Trigger(true, true, 0.0)
  }

  function Begin(cast: Cast): seq<(Name, Command)> {
    [(cast.t, Command.Equip(BombSlot)), (cast.t, Act(true))]
  }

  lemma BeginPulls(env: Env, w: World, cast: Cast)
    requires env.Valid() && Resting(env, w, cast) && w.players[cast.t].onSite
    ensures Pulled(ExecuteAll(env, w, Begin(cast), false), cast)
    ensures ExecuteAll(env, w, Begin(cast), false).bomb.justPlanted == w.bomb.justPlanted
  {
    var cs := Begin(cast);
    var w1 := Execute(env, w, cs[0].0, cs[0].1, false);
    EquipsBomb(env, w, cast, w1);
    var w2 := Execute(env, w1, cs[1].0, cs[1].1, false);
    assert cs[1..][1..] == [];
    assert ExecuteAll(env, w1, cs[1..], false) == w2;
  }

  lemma EquipsBomb(env: Env, w: World, cast: Cast, w1: World)
    requires env.Valid() && Resting(env, w, cast) && w.players[cast.t].onSite
    requires w1 == Execute(env, w, cast.t, Command.Equip(BombSlot), false)
    ensures Calm(w1, cast) && w1.bomb == w.bomb
    ensures var p, p1 := w.players[cast.t], w1.players[cast.t];
            && p1 == p.(loadout := p1.loadout) && p1.loadout.equipped == BombSlot
            && p1.loadout.secondary == p.loadout.secondary.(trigger := p.loadout.secondary.trigger.StopAction())
  {}

  /** The two once the bomb is planted: each has the gun of the beginning in hand, its trigger untouched. */
  predicate Planting(w: World, cast: Cast) {
    && w.order == [cast.c, cast.t] && cast.c != cast.t && w.players.Keys == {cast.c, cast.t} && w.Ok()
    && !w.crashed && w.bomb.status == Planted && w.bomb.justPlanted
    && w.players[cast.c].team == CT && w.players[cast.t].team == TT
    && Armed(w.players[cast.c]) && Armed(w.players[cast.t])
  }

  predicate Armed(p: Player) {
    p.loadout.equipped == SecondarySlot && !p.loadout.secondary.trigger.just && p.loadout.secondary.kind == Glock
  }

  /** A tick with the trigger held leads from `w` to `w'`. */
  predicate HoldsOn(env: Env, w: World, cast: Cast, held: nat, w': World)
    requires env.Valid()
  {
    if Seconds(env.cfg, held) < env.cfg.plantationTime as real
    then Holding(env, w', cast, held) && w'.bomb.justPlanted == w.bomb.justPlanted
    else Planting(w', cast)
  }

  predicate HeldSoFar(env: Env, w: World, cast: Cast, held: nat, frames: nat)
    requires env.Valid()
  {
    if held == 0 then Pulled(w, cast) else Holding(env, w, cast, held - 1) && frames == 1
  }

  /** The bomb's part of the turn. */
  lemma TriggerHeld(env: Env, w: World, cast: Cast, dt: real, held: nat, w': World)
    requires env.Valid() && Calm(w, cast) && Plants(w.players[cast.t])
    requires w.bomb.trigger.making && w.bomb.trigger.Update(dt) == Trigger(true, false, Seconds(env.cfg, held))
    requires w' == UseBomb(env, w, cast.t, dt)
    ensures HoldsOn(env, w, cast, held, w')
  {}

  /** The turn of a player who plants is the bomb's. */
  lemma TurnIsPlanting(env: Env, w: World, n: Name, frames: nat, luck: Luck, w1: World)
    requires env.Valid() && w.Ok() && n in w.players && Plants(w.players[n])
    requires w1 == SetPlayer(w, n, w.players[n].(shot := None, planting := true))
    ensures TakeTurn(env, w, n, false, frames, luck) == UseBomb(env, w1, n, Seconds(env.cfg, frames))
  {
    assert w1 == SetPlayer(SetPlayer(w, n, w.players[n].(shot := None, planting := false)), n, w1.players[n]);
  }

  lemma PlantingTurn(env: Env, w: World, cast: Cast, frames: nat, luck: Luck, held: nat, w': World)
    requires env.Valid() && Calm(w, cast) && HeldSoFar(env, w, cast, held, frames)
    requires w' == TakeTurn(env, w, cast.t, false, frames, luck)
    ensures HoldsOn(env, w, cast, held, w')
  {
    if held > 0 { SecondsAdd(env.cfg, held - 1, 1); }
    var w1 := SetPlayer(w, cast.t, w.players[cast.t].(shot := None, planting := true));
    TurnIsPlanting(env, w, cast.t, frames, luck, w1);
    TriggerHeld(env, w1, cast, Seconds(env.cfg, frames), held, w');
  }

  lemma HoldingTick(env: Env, w: World, cast: Cast, frames: nat, luck: Luck, held: nat, w': World)
    requires env.Valid() && Calm(w, cast) && HeldSoFar(env, w, cast, held, frames)
    requires w' == Tick(env, w, frames, luck)
    ensures HoldsOn(env, w, cast, held, w')
  {
    var w1 := TakeTurn(env, w, cast.c, false, frames, luck);
    FirstIdles(env, w, cast, frames, luck, w1);
    TwoTurns(env, w, cast, frames, luck, w1);
    PlantingTurn(env, w1, cast, frames, luck, held, w');
  }

  // ---- When the flag outlives a round

  /** A bomb that was defused or exploded has not just been planted. */
  predicate Settles(b: Bomb) { b.status in {Defused, Exploded} ==> !b.justPlanted }

  lemma TickSettles(cfg: Settings, b: Bomb, b': Bomb, dt: real)
    requires BombTicks(cfg, b, b', dt) && Settles(b)
    ensures b'.justPlanted <==> b.status == NotPlanted && (b'.status == Planted || b.justPlanted)
    ensures Settles(b')
  {
    if b.status == Planted { ExplosionWinsTies(cfg, b, dt); }
  }

  /** The flag at the end of a turn: set exactly when the turn planted the bomb, or when it was set before
      and the bomb is still not planted. */
  lemma TurnFlags(env: Env, m: Match, f: Frame, m': Match)
    requires env.Valid() && m.world.Ok() && Good(m.world) && !m.world.crashed && Settles(m.world.bomb)
    requires m' == Iterate(env, m, f) && !m'.over
    ensures var b, b' := m.world.bomb, m'.world.bomb;
            && (b'.justPlanted <==> b.status == NotPlanted && (b'.status == Planted || b.justPlanted))
            && Settles(b')
  {
    var w1 := ExecuteAll(env, m.world, f.commands, m.phase == Buy);
    var place :| Sound(AccountOf(m.world), place);
    var place1 := CommandsAreSound(env, m.world, f.commands, m.phase == Buy, place);
    TickFollows(env, w1, m.delta, f.luck, place1);
    TickSettles(env.cfg, w1.bomb, m'.world.bomb, Seconds(env.cfg, m.delta));
  }

  lemma StepSettles(env: Env, m: Match, guns: Guns, f: Frame, m': Match)
    requires env.Valid() && m.world.Ok() && Good(m.world) && m' == Step(env, m, guns, f)
    requires !m.over ==> Settles(m.world.bomb) && !m.world.crashed
    ensures !m'.over ==> Settles(m'.world.bomb) && !m'.world.crashed
  {
    if !m'.over && !m.over {
      if Continues(env.cfg, m) {
        TurnFlags(env, m, f, m');
      } else {
        EndSettles(env, m, guns, f.draw, m');
      }
    }
  }

  lemma EndSettles(env: Env, m: Match, guns: Guns, d: Draw, m': Match)
    requires env.Valid() && m.world.Ok() && Settles(m.world.bomb) && !m.world.crashed && m' == EndPhase(env, m, guns, d)
    ensures Settles(m'.world.bomb) && !m'.world.crashed
  {
    if m.phase != Buy && m.phase != Attack {
      NewRoundBomb(env, m, guns, d, m');
      NewRoundRuns(env, m.world, SwapsNow(env.cfg, m.round + 1), guns, d);
    }
  }

  lemma NewRoundRuns(env: Env, w: World, swap: bool, guns: Guns, d: Draw)
    requires w.Ok()
    ensures NewRound(env, w, swap, guns, d).crashed == w.crashed
  {
    var w1 := if swap then SwapTeams(env, w) else w;
    LaidAmong(env, PlacePlayers(RestartPlayers(env, w1, d.pick), d.spots), guns);
  }

  lemma {:induction false} RunSettles(env: Env, m: Match, guns: Guns, fs: seq<Frame>)
    requires env.Valid() && m.world.Ok() && Good(m.world)
    requires !m.over ==> Settles(m.world.bomb) && !m.world.crashed
    ensures var m' := Run(env, m, guns, fs);
            !m'.over ==> Settles(m'.world.bomb) && !m'.world.crashed
  {
    if fs != [] {
      var f := fs[|fs| - 1];
      RunSettles(env, m, guns, fs[..|fs| - 1]);
      RunIsGood(env, m, guns, fs[..|fs| - 1]);
      StepSettles(env, Run(env, m, guns, fs[..|fs| - 1]), guns, f, Run(env, m, guns, fs));
    }
  }

  /** From the last turn of the pause, through the end of it and a purchase phase, to the attack. */
  ghost predicate LeadsToAttack(
    env: Env, guns: Guns, m: Match, f: Frame, d: Draw, m1: Match, fs: seq<Frame>, d': Draw, m2: Match)
    requires env.Valid() && m.world.Ok() && m1.world.Ok()
  {
    && m.phase == RoundEnded && !m.over && Continues(env.cfg, m) && m1 == Iterate(env, m, f) && !m1.over
    && !Continues(env.cfg, m1)
    && var buy := EndPhase(env, m1, guns, d);
       !buy.over && Turns(env, buy, fs) && !Loop(env, buy, fs).over && !Goes(env, Loop(env, buy, fs))
       && m2 == EndPhase(env, Loop(env, buy, fs), guns, d')
  }

  /** In any match: an attack phase begins with the flag set exactly when the last turn of the pause before it
      planted the bomb, or began with the flag set and left the bomb unplanted. */
  lemma FlagIsStaleIff(
    env: Env, w: World, guns: Guns, d: Draw, gs: seq<Frame>,
    m: Match, f: Frame, d1: Draw, m1: Match, fs: seq<Frame>, d2: Draw, m2: Match)
    requires env.Valid() && Lobby(w) && !w.crashed && Settles(w.bomb) && m1.world.Ok()
    requires m == Run(env, Kickoff(env, w, guns, d), guns, gs) && LeadsToAttack(env, guns, m, f, d1, m1, fs, d2, m2)
    ensures AttackBegins(env, m2)
    ensures m2.world.bomb.justPlanted <==>
            m.world.bomb.status == NotPlanted && (m1.world.bomb.status == Planted || m.world.bomb.justPlanted)
  {
    var m0 := Kickoff(env, w, guns, d);
    KickoffIsGood(env, w, guns, d, m0);
    KickoffSettles(env, w, guns, d, m0);
    RunIsGood(env, m0, guns, gs);
    RunSettles(env, m0, guns, gs);
    TurnFlags(env, m, f, m1);
    IteratedIsGood(env, m, f);
    AttackBeginsWithTheOldFlag(env, m1, guns, d1, fs, d2, EndPhase(env, m1, guns, d1), m2);
  }

  lemma KickoffSettles(env: Env, w: World, guns: Guns, d: Draw, m: Match)
    requires env.Valid() && w.Ok() && !w.crashed && Settles(w.bomb) && m == Kickoff(env, w, guns, d)
    ensures Settles(m.world.bomb) && !m.world.crashed
  {
    NewRoundRuns(env, w, SwapsNow(env.cfg, 1), guns, d);
  }

  // ---- The run

  /** The draws of the match: the only terrorist gets the bomb, everybody's place, and any luck. */
  datatype Fate = Fate(env: Env, guns: Guns, d: Draw, luck: Luck)

  ghost predicate Suits(fate: Fate, cast: Cast) {
    && fate.env.Valid() && OnSite(fate.env, cast.at)
    && cast.at == Rect(fate.d.spots(cast.t).0, fate.d.spots(cast.t).1, PLAYER, PLAYER)
    && fate.env.cfg.rounds >= 2 && fate.env.cfg.buyDuration > 0
    && 0 < fate.env.cfg.plantationTime <= fate.env.cfg.betweenRoundsDuration
  }

  function FrameOf(fate: Fate, cs: seq<(Name, Command)>): Frame { Frame(cs, fate.luck, 0, true, fate.d) }

  /** `k` turns of a phase have been taken, the clock moving by one frame from each to the next. */
  predicate Timed(m: Match, k: nat) {
    if k == 0 then m.ticks == 0 && m.delta == 0 else m.ticks == k - 1 && m.delta == 1
  }

  predicate Rests(env: Env, m: Match, cast: Cast, phase: Phase, k: nat) {
    && m.phase == phase && phase != WaitingPlayers && !m.over && Timed(m, k)
       && m.duration == Rounds.Duration(env.cfg, phase)
    && m.round == 1 && Resting(env, m.world, cast) && !m.world.bomb.justPlanted
    && (phase != Buy || k > 0 ==> m.world.players[cast.t].onSite)
  }

  lemma RestTurn(fate: Fate, m: Match, cast: Cast, phase: Phase, k: nat, m': Match)
    requires Suits(fate, cast) && Rests(fate.env, m, cast, phase, k)
    requires m' == Iterate(fate.env, m, FrameOf(fate, []))
    ensures Rests(fate.env, m', cast, phase, k + 1)
  {
    RestingTick(fate.env, m.world, cast, m.delta, fate.luck, m'.world);
  }

  lemma NobodyHasWon(w: World, cast: Cast)
    requires Pair(w, cast) && w.players[cast.c].team != w.players[cast.t].team
    requires w.players[cast.c].Alive() && w.players[cast.t].Alive()
    ensures !HasWinner(w)
  {
    assert forall n <- w.players :: n == cast.c || n == cast.t;
  }

  lemma StillTime(env: Env, m: Match, cast: Cast, phase: Phase, k: nat)
    requires env.Valid() && Rests(env, m, cast, phase, k)
    ensures Continues(env.cfg, m) <==> m.duration > 0 && k <= m.duration * env.cfg.fps
  {
    NobodyHasWon(m.world, cast);
    SecondsWithin(env.cfg, m.ticks, m.duration);
  }

  /** Both idle until `n` turns of the phase are taken. */
  lemma RestOn(fate: Fate, m0: Match, fs: seq<Frame>, cast: Cast, phase: Phase, k: nat, n: nat)
    returns (fs': seq<Frame>)
    requires Suits(fate, cast) && m0.world.Ok()
    requires Rests(fate.env, Run(fate.env, m0, fate.guns, fs), cast, phase, k) && k <= n
    requires var dur := Rounds.Duration(fate.env.cfg, phase);
             n == k || (dur > 0 && n <= dur * fate.env.cfg.fps + 1)
    ensures Rests(fate.env, Run(fate.env, m0, fate.guns, fs'), cast, phase, n)
    decreases n - k
  {
    fs' := fs;
    if k < n {
      var m, f := Run(fate.env, m0, fate.guns, fs), FrameOf(fate, []);
      StillTime(fate.env, m, cast, phase, k);
      RunOn(fate.env, m0, fate.guns, fs, f);
      RestTurn(fate, m, cast, phase, k, Iterate(fate.env, m, f));
      fs' := RestOn(fate, m0, fs + [f], cast, phase, k + 1, n);
    }
  }

  function Following(phase: Phase): Phase { if phase == Buy then Attack else RoundEnded }

  lemma RestEnds(fate: Fate, m: Match, cast: Cast, phase: Phase, k: nat, m': Match)
    requires Suits(fate, cast) && Rests(fate.env, m, cast, phase, k) && (phase == Buy || phase == Attack)
    requires phase == Buy ==> k > 0
    requires m' == EndPhase(fate.env, m, fate.guns, fate.d)
    ensures Rests(fate.env, m', cast, Following(phase), 0)
  {
    if phase == Attack { NobodyHasWon(m.world, cast); }
  }

  /** How many turns a phase takes. */
  function TurnsOf(cfg: Settings, phase: Phase): nat
    requires cfg.Valid()
  {
    if Rounds.Duration(cfg, phase) == 0 then 0 else Rounds.Duration(cfg, phase) * cfg.fps + 1
  }

  lemma RestStepEnds(fate: Fate, m: Match, cast: Cast, phase: Phase, n: nat, f: Frame, m': Match)
    requires Suits(fate, cast) && Rests(fate.env, m, cast, phase, n) && n == TurnsOf(fate.env.cfg, phase)
    requires phase == Buy || phase == Attack
    requires f == FrameOf(fate, []) && m' == Step(fate.env, m, fate.guns, f)
    ensures Rests(fate.env, m', cast, Following(phase), 0)
  {
    StillTime(fate.env, m, cast, phase, n);
    RestEnds(fate, m, cast, phase, n, m');
  }

  /** A whole phase in which both idle, and its end. */
  lemma RestThrough(fate: Fate, m0: Match, fs: seq<Frame>, cast: Cast, phase: Phase) returns (fs': seq<Frame>)
    requires Suits(fate, cast) && m0.world.Ok() && (phase == Buy || phase == Attack)
    requires Rests(fate.env, Run(fate.env, m0, fate.guns, fs), cast, phase, 0)
    ensures Rests(fate.env, Run(fate.env, m0, fate.guns, fs'), cast, Following(phase), 0)
  {
    var n, f := TurnsOf(fate.env.cfg, phase), FrameOf(fate, []);
    var gs := RestOn(fate, m0, fs, cast, phase, 0, n);
    RunOn(fate.env, m0, fate.guns, gs, f);
    RestStepEnds(fate, Run(fate.env, m0, fate.guns, gs), cast, phase, n, f, Run(fate.env, m0, fate.guns, gs + [f]));
    fs' := gs + [f];
  }

  /** The pause between rounds once the trigger is held: the bomb will be planted in its last tick. */
  predicate Holds(env: Env, m: Match, cast: Cast, held: nat)
    requires env.Valid()
  {
    && m.phase == RoundEnded && !m.over && m.delta == 1 && m.duration == env.cfg.betweenRoundsDuration && m.round == 1
    && m.ticks + env.cfg.plantationTime * env.cfg.fps == env.cfg.betweenRoundsDuration * env.cfg.fps + held
    && Holding(env, m.world, cast, held)
  }

  /** The end of the pause, with the bomb just planted. */
  predicate TooLate(env: Env, m: Match, cast: Cast)
    requires env.Valid()
  {
    m.phase == RoundEnded && !m.over && m.round == 1 && Planting(m.world, cast) && !Continues(env.cfg, m)
  }

  lemma SecondsReach(cfg: Settings, ticks: nat, limit: nat)
    requires cfg.Valid()
    ensures Seconds(cfg, ticks) >= limit as real <==> ticks >= limit * cfg.fps
  {
    SecondsWithin(cfg, ticks, limit);
  }

  /** One turn of the pause with the trigger held. */
  lemma HoldTurn(env: Env, m: Match, f: Frame, cast: Cast, held: nat, w: World, m': Match)
    requires env.Valid() && m.phase == RoundEnded && !m.over && m.world.Ok() && m.round == 1
    requires m.duration == env.cfg.betweenRoundsDuration
    requires w == ExecuteAll(env, m.world, f.commands, false) && f.anyAlive && f.advance == 0
    requires Calm(w, cast) && HeldSoFar(env, w, cast, held, m.delta)
    requires m.ticks + m.delta + env.cfg.plantationTime * env.cfg.fps
             == env.cfg.betweenRoundsDuration * env.cfg.fps + held
    requires m' == Iterate(env, m, f)
    ensures if held < env.cfg.plantationTime * env.cfg.fps then Holds(env, m', cast, held) else TooLate(env, m', cast)
  {
    HoldingTick(env, w, cast, m.delta, f.luck, held, m'.world);
    SecondsReach(env.cfg, held, env.cfg.plantationTime);
    SecondsReach(env.cfg, m'.ticks, m'.duration);
  }

  /** The terrorist begins to plant, as late as he can. */
  lemma BeginTurn(fate: Fate, m: Match, cast: Cast, k: nat, w: World, f: Frame, m': Match)
    requires Suits(fate, cast) && Rests(fate.env, m, cast, RoundEnded, k)
    requires k + fate.env.cfg.plantationTime * fate.env.cfg.fps
             == fate.env.cfg.betweenRoundsDuration * fate.env.cfg.fps
    requires fate.env.cfg.plantationTime * fate.env.cfg.fps > 0
    requires f == FrameOf(fate, Begin(cast)) && w == ExecuteAll(fate.env, m.world, f.commands, false)
    requires Pulled(w, cast)
    requires m' == Iterate(fate.env, m, f)
    ensures Holds(fate.env, m', cast, 0)
  {
    HoldTurn(fate.env, m, f, cast, 0, w, m');
  }

  lemma HoldStep(fate: Fate, m: Match, cast: Cast, held: nat, f: Frame, m': Match)
    requires Suits(fate, cast) && Holds(fate.env, m, cast, held) && f == FrameOf(fate, [])
    requires held < fate.env.cfg.plantationTime * fate.env.cfg.fps && m' == Step(fate.env, m, fate.guns, f)
    ensures if held + 1 < fate.env.cfg.plantationTime * fate.env.cfg.fps then Holds(fate.env, m', cast, held + 1)
            else TooLate(fate.env, m', cast)
  {
    SecondsReach(fate.env.cfg, m.ticks, m.duration);
    HoldTurn(fate.env, m, f, cast, held + 1, m.world, m');
  }

  lemma HoldOn(fate: Fate, m0: Match, fs: seq<Frame>, cast: Cast, held: nat, m: Match) returns (fs': seq<Frame>)
    requires Suits(fate, cast) && m0.world.Ok() && m == Run(fate.env, m0, fate.guns, fs)
    requires Holds(fate.env, m, cast, held) && held < fate.env.cfg.plantationTime * fate.env.cfg.fps
    ensures TooLate(fate.env, Run(fate.env, m0, fate.guns, fs'), cast)
    decreases fate.env.cfg.plantationTime * fate.env.cfg.fps - held
  {
    var f := FrameOf(fate, []);
    var m' := Step(fate.env, m, fate.guns, f);
    RunOn(fate.env, m0, fate.guns, fs, f);
    HoldStep(fate, m, cast, held, f, m');
    fs' := fs + [f];
    if held + 1 < fate.env.cfg.plantationTime * fate.env.cfg.fps { fs' := HoldOn(fate, m0, fs', cast, held + 1, m'); }
  }

  lemma SomeTicks(a: nat, b: nat, fps: nat)
    requires 0 < b <= a && fps > 0
    ensures 0 <= (a - b) * fps <= a * fps && (a - b) * fps + b * fps == a * fps && b * fps > 0
  {}

  lemma BeginStep(fate: Fate, m: Match, cast: Cast, k: nat, f: Frame, m': Match)
    requires Suits(fate, cast) && Rests(fate.env, m, cast, RoundEnded, k)
    requires k + fate.env.cfg.plantationTime * fate.env.cfg.fps
             == fate.env.cfg.betweenRoundsDuration * fate.env.cfg.fps
    requires fate.env.cfg.plantationTime * fate.env.cfg.fps > 0
    requires f == FrameOf(fate, Begin(cast)) && m' == Step(fate.env, m, fate.guns, f)
    ensures Holds(fate.env, m', cast, 0)
  {
    StillTime(fate.env, m, cast, RoundEnded, k);
    BeginPulls(fate.env, m.world, cast);
    BeginTurn(fate, m, cast, k, ExecuteAll(fate.env, m.world, f.commands, false), f, m');
  }

  lemma PauseRunsOut(fate: Fate, m0: Match, fs: seq<Frame>, cast: Cast) returns (fs': seq<Frame>)
    requires Suits(fate, cast) && m0.world.Ok()
    requires Rests(fate.env, Run(fate.env, m0, fate.guns, fs), cast, RoundEnded, 0)
    ensures TooLate(fate.env, Run(fate.env, m0, fate.guns, fs'), cast)
  {
    var cfg := fate.env.cfg;
    SomeTicks(cfg.betweenRoundsDuration, cfg.plantationTime, cfg.fps);
    var k := (cfg.betweenRoundsDuration - cfg.plantationTime) * cfg.fps;
    var gs := RestOn(fate, m0, fs, cast, RoundEnded, 0, k);
    var f := FrameOf(fate, Begin(cast));
    RunOn(fate.env, m0, fate.guns, gs, f);
    BeginStep(fate, Run(fate.env, m0, fate.guns, gs), cast, k, f, Run(fate.env, m0, fate.guns, gs + [f]));
    fs' := HoldOn(fate, m0, gs + [f], cast, 0, Run(fate.env, m0, fate.guns, gs + [f]));
  }

  // ---- The next round

  /** The two, on opposite sides, do nothing. */
  predicate BothIdle(w: World, cast: Cast) {
    && Pair(w, cast) && Idles(w.players[cast.c]) && Idles(w.players[cast.t])
    && w.players[cast.c].team != w.players[cast.t].team
  }

  /** The second purchase phase after `k` turns: both idle, and the flag is set. */
  predicate Stale(env: Env, m: Match, cast: Cast, k: nat) {
    && m.phase == Buy && !m.over && Timed(m, k) && m.duration == env.cfg.buyDuration
    && BothIdle(m.world, cast) && Quiet(m.world.bomb, true)
  }

  lemma RestartedIdles(cfg: Settings, p: Player, swap: bool)
    requires cfg.Valid() && Armed(p)
    ensures Idles(Restarted(cfg, if swap then Swapped(cfg, p) else p))
  {}

  /** The two restarted, after the swap if there is one. */
  lemma TwoRestarted(env: Env, w: World, swap: bool, cast: Cast)
    requires env.Valid() && Planting(w, cast)
    ensures var w' := RestartAll(env, if swap then SwapTeams(env, w) else w);
            BothIdle(w', cast) && w'.bomb == RestartBomb(w.bomb)
  {
    RestartedIdles(env.cfg, w.players[cast.c], swap);
    RestartedIdles(env.cfg, w.players[cast.t], swap);
  }

  lemma HandedAndPlaced(w: World, d: Draw, cast: Cast)
    requires BothIdle(w, cast)
    ensures var w' := PlacePlayers(DrawHolder(w, d.pick), d.spots);
            BothIdle(w', cast) && w'.bomb == w.bomb
  {}

  /** A new round of the two. */
  lemma NewRoundOfTwo(env: Env, w: World, swap: bool, guns: Guns, d: Draw, cast: Cast, w': World)
    requires env.Valid() && Planting(w, cast) && w' == NewRound(env, w, swap, guns, d)
    ensures BothIdle(w', cast) && w'.bomb == RestartBomb(w.bomb)
  {
    var w1 := RestartAll(env, if swap then SwapTeams(env, w) else w);
    TwoRestarted(env, w, swap, cast);
    HandedAndPlaced(w1, d, cast);
    LaidAmong(env, PlacePlayers(DrawHolder(w1, d.pick), d.spots), guns);
  }

  lemma LaidAmong(env: Env, w: World, guns: Guns)
    requires w.Ok()
    ensures RestartItems(env, w, guns).crashed == w.crashed
  {
    LaidFrom(env, w.(items := [], nextDropId := 0), guns);
  }

  lemma {:induction false} LaidFrom(env: Env, w: World, guns: Guns)
    requires w.Ok()
    ensures LayGuns(env, w, guns).crashed == w.crashed
    decreases |guns|
  {
    if guns != [] {
      var (kind, x, y) := guns[0];
      var it := DroppedGun(Rect(x * BLOCK, y * BLOCK, ITEM, ITEM), w.nextDropId, NewGun(env.cfg, kind));
      LaidFrom(env, AddItem(w, it), guns[1..]);
    }
  }

  /** What the end of the pause makes of everything but the world. */
  lemma RoundNumbers(env: Env, m: Match, guns: Guns, d: Draw, m': Match)
    requires env.Valid() && m.world.Ok() && m.phase == RoundEnded && m.round == 1 && env.cfg.rounds >= 2
    requires m' == EndPhase(env, m, guns, d)
    ensures m'.phase == Buy && !m'.over && Timed(m', 0) && m'.duration == env.cfg.buyDuration
    ensures m'.world == NewRound(env, m.world, SwapsNow(env.cfg, 2), guns, d)
  {
    WorldOfRound(env, m, guns, d, SwapsNow(env.cfg, 2));
  }

  lemma NextRoundIsStale(fate: Fate, m: Match, cast: Cast, m': Match)
    requires Suits(fate, cast) && TooLate(fate.env, m, cast) && m' == EndPhase(fate.env, m, fate.guns, fate.d)
    ensures Stale(fate.env, m', cast, 0)
  {
    RoundNumbers(fate.env, m, fate.guns, fate.d, m');
    NewRoundOfTwo(fate.env, m.world, SwapsNow(fate.env.cfg, 2), fate.guns, fate.d, cast, m'.world);
  }

  lemma StaleTurn(fate: Fate, m: Match, cast: Cast, k: nat, m': Match)
    requires Suits(fate, cast) && Stale(fate.env, m, cast, k) && m' == Iterate(fate.env, m, FrameOf(fate, []))
    ensures Stale(fate.env, m', cast, k + 1)
  {
    IdleTick(fate.env, m.world, cast, m.delta, fate.luck, m'.world);
    assert cast.c in [cast.c, cast.t] && cast.t in [cast.c, cast.t];
  }

  lemma StaleStep(fate: Fate, m: Match, cast: Cast, k: nat, f: Frame, m': Match)
    requires Suits(fate, cast) && Stale(fate.env, m, cast, k) && Continues(fate.env.cfg, m)
    requires f == FrameOf(fate, []) && m' == Step(fate.env, m, fate.guns, f)
    ensures Stale(fate.env, m', cast, k + 1) && k <= fate.env.cfg.buyDuration * fate.env.cfg.fps
  {
    SecondsReach(fate.env.cfg, m.ticks, m.duration);
    StaleTurn(fate, m, cast, k, m');
  }

  /** The purchase phase runs out. */
  lemma StaleOn(fate: Fate, m0: Match, fs: seq<Frame>, cast: Cast, k: nat, m: Match)
    returns (fs': seq<Frame>, n: nat, m1: Match)
    requires Suits(fate, cast) && m0.world.Ok() && m == Run(fate.env, m0, fate.guns, fs)
    requires Stale(fate.env, m, cast, k)
    ensures m1 == Run(fate.env, m0, fate.guns, fs') && Stale(fate.env, m1, cast, n) && !Continues(fate.env.cfg, m1)
    decreases fate.env.cfg.buyDuration * fate.env.cfg.fps + 1 - k
  {
    if Continues(fate.env.cfg, m) {
      var f := FrameOf(fate, []);
      var m' := Step(fate.env, m, fate.guns, f);
      RunOn(fate.env, m0, fate.guns, fs, f);
      StaleStep(fate, m, cast, k, f, m');
      fs', n, m1 := StaleOn(fate, m0, fs + [f], cast, k + 1, m');
    } else {
      fs', n, m1 := fs, k, m;
    }
  }

  // ---- The match

  /** One player on each side, and nobody else. */
  function TwoPlayers(cfg: Settings, c: Name, t: Name): (w: World)
    requires cfg.Valid() && c != t
    ensures w.Ok() && Lobby(w)
  {
    var w := World(map[c := NewPlayer(cfg, CT), t := NewPlayer(cfg, TT)], [c, t], [c, t], [], 0, NEW_BOMB, [], false);
    assert w.players[c].team == CT && w.players[t].team == TT;
    w
  }

  /** The two, restarted, on their sides and idle. */
  predicate Restored(w: World, cast: Cast) {
    && Pair(w, cast) && w.players[cast.c].team == CT && w.players[cast.t].team == TT
    && Idles(w.players[cast.c]) && Idles(w.players[cast.t]) && w.bomb == RestartBomb(NEW_BOMB)
    && w.players[cast.t].rect.w == PLAYER && w.players[cast.t].rect.h == PLAYER
  }

  lemma TwoRestored(env: Env, w: World, cast: Cast)
    requires env.Valid() && cast.c != cast.t && w == TwoPlayers(env.cfg, cast.c, cast.t)
    ensures Restored(RestartAll(env, w), cast)
  {
    RestartedIdles(env.cfg, w.players[cast.c], false);
    RestartedIdles(env.cfg, w.players[cast.t], false);
  }

  lemma PlacedOnSite(env: Env, w: World, guns: Guns, d: Draw, cast: Cast, w': World)
    requires env.Valid() && Restored(w, cast)
    requires w' == RestartItems(env, PlacePlayers(HandBomb(w, cast.t), d.spots), guns)
    requires OnSite(env, cast.at) && cast.at == Rect(d.spots(cast.t).0, d.spots(cast.t).1, PLAYER, PLAYER)
    ensures Resting(env, w', cast) && w'.bomb == RestartBomb(NEW_BOMB)
  {
    LaidAmong(env, PlacePlayers(HandBomb(w, cast.t), d.spots), guns);
  }

  /** The first round of the two. */
  lemma FirstRoundOfTwo(env: Env, w: World, guns: Guns, d: Draw, cast: Cast, w': World)
    requires env.Valid() && cast.c != cast.t && w == TwoPlayers(env.cfg, cast.c, cast.t)
    requires w' == NewRound(env, w, false, guns, d)
    requires OnSite(env, cast.at) && cast.at == Rect(d.spots(cast.t).0, d.spots(cast.t).1, PLAYER, PLAYER)
    ensures Resting(env, w', cast) && w'.bomb == RestartBomb(NEW_BOMB)
  {
    TwoRestored(env, w, cast);
    OnlyTerrorist(RestartAll(env, w), cast);
    PlacedOnSite(env, RestartAll(env, w), guns, d, cast, w');
  }

  lemma KickoffRests(fate: Fate, cast: Cast, w: World, m: Match)
    requires Suits(fate, cast) && cast.c != cast.t && w == TwoPlayers(fate.env.cfg, cast.c, cast.t)
    requires m == Kickoff(fate.env, w, fate.guns, fate.d)
    ensures Rests(fate.env, m, cast, Buy, 0)
  {
    FirstRoundOfTwo(fate.env, w, fate.guns, fate.d, cast, m.world);
  }

  lemma OnlyTerrorist(w: World, cast: Cast)
    requires Pair(w, cast) && w.players[cast.c].team == CT && w.players[cast.t].team == TT
    ensures forall pick: nat :: DrawHolder(w, pick) == HandBomb(w, cast.t)
  {
    assert w.order[..1] == [cast.c] && w.order[..1][..0] == [];
    assert Terrorists(w, w.order[..1]) == [];
    assert Terrorists(w, w.order) == [cast.t];
  }

  /** An attack phase of the two that begins with the flag set. */
  predicate StartsStale(env: Env, m: Match, cast: Cast) {
    && m.phase == Attack && !m.over && Timed(m, 0) && m.duration == env.cfg.attackDuration
    && BothIdle(m.world, cast) && Quiet(m.world.bomb, true)
  }

  lemma StaleStepEnds(fate: Fate, m: Match, cast: Cast, k: nat, f: Frame, m': Match)
    requires Suits(fate, cast) && Stale(fate.env, m, cast, k) && !Continues(fate.env.cfg, m)
    requires m' == Step(fate.env, m, fate.guns, f)
    ensures StartsStale(fate.env, m', cast)
  {}

  lemma StaleBuyEnds(fate: Fate, m0: Match, fs: seq<Frame>, cast: Cast) returns (fs': seq<Frame>)
    requires Suits(fate, cast) && m0.world.Ok() && Stale(fate.env, Run(fate.env, m0, fate.guns, fs), cast, 0)
    ensures StartsStale(fate.env, Run(fate.env, m0, fate.guns, fs'), cast)
  {
    var f := FrameOf(fate, []);
    var gs, n, m := StaleOn(fate, m0, fs, cast, 0, Run(fate.env, m0, fate.guns, fs));
    RunOn(fate.env, m0, fate.guns, gs, f);
    StaleStepEnds(fate, m, cast, n, f, Step(fate.env, m, fate.guns, f));
    fs' := gs + [f];
  }

  lemma NextAttack(fate: Fate, m0: Match, fs: seq<Frame>, cast: Cast) returns (fs': seq<Frame>)
    requires Suits(fate, cast) && m0.world.Ok() && TooLate(fate.env, Run(fate.env, m0, fate.guns, fs), cast)
    ensures StartsStale(fate.env, Run(fate.env, m0, fate.guns, fs'), cast)
  {
    var f := FrameOf(fate, []);
    var m := Run(fate.env, m0, fate.guns, fs);
    RunOn(fate.env, m0, fate.guns, fs, f);
    NextRoundIsStale(fate, m, cast, Step(fate.env, m, fate.guns, f));
    fs' := StaleBuyEnds(fate, m0, fs + [f], cast);
  }

  lemma TheWayThere(fate: Fate, m0: Match, cast: Cast) returns (fs: seq<Frame>)
    requires Suits(fate, cast) && m0.world.Ok() && Rests(fate.env, m0, cast, Buy, 0)
    ensures StartsStale(fate.env, Run(fate.env, m0, fate.guns, fs), cast)
  {
    fs := RestThrough(fate, m0, [], cast, Buy);
    fs := RestThrough(fate, m0, fs, cast, Attack);
    fs := PauseRunsOut(fate, m0, fs, cast);
    fs := NextAttack(fate, m0, fs, cast);
  }

  /** In any match between one counter-terrorist and one terrorist who starts on a bomb site, the second round's
      attack phase can begin with the flag set, whatever the draws, the map and the settings, as long as the
      pause between rounds is long enough to plant in: the terrorist plants in the last tick of the pause, and
      the clock never moves on by more than a frame. */
  lemma AMatchWithAStaleFlag(fate: Fate, cast: Cast) returns (fs: seq<Frame>)
    requires Suits(fate, cast) && cast.c != cast.t
    ensures var w := TwoPlayers(fate.env.cfg, cast.c, cast.t);
            var m := Run(fate.env, Kickoff(fate.env, w, fate.guns, fate.d), fate.guns, fs);
            AttackBegins(fate.env, m) && StartsStale(fate.env, m, cast)
  {
    var w := TwoPlayers(fate.env.cfg, cast.c, cast.t);
    var m0 := Kickoff(fate.env, w, fate.guns, fate.d);
    KickoffRests(fate, cast, w, m0);
    fs := TheWayThere(fate, m0, cast);
    KickoffIsGood(fate.env, w, fate.guns, fate.d, m0);
    RunIsGood(fate.env, m0, fate.guns, fs);
  }
}
