/** Games from the first player to join to the end: what the objects of GameLoop.dfy do on a map, put together with
    the theorems about matches. */
module Games {
  import opened Basics
  import opened Settings
  import opened Geometry
  import opened Slide
  import opened World
  import opened MapTerrain
  import opened Confines
  import opened GameLoop
  import R = Rounds
  import A = Admissions
  import E = Engine
  import Runs
  import Scores
  import Endings

  // ---- Where spawn_players puts everybody

  predicate InBlocks(map_: GameMap, spawns: seq<(int, int)>) {
    forall s <- spawns :: 0 <= s.0 < map_.width && 0 <= s.1 < map_.height
  }

  lemma SpawnedIsInside(map_: GameMap, spawns: seq<(int, int)>, r: Rect)
    requires InBlocks(map_, spawns) && E.SpawnedAt(spawns, r) && r.w == PLAYER && r.h == PLAYER
    ensures InsideMap(map_.width * BLOCK, map_.height * BLOCK, r)
  {}

  /** Who stands well stands in the map, if the spawn points are in it. */
  lemma StandingIsPlaced(
    env: Env, map_: GameMap, w: World, ctSpawns: seq<(int, int)>, ttSpawns: seq<(int, int)>, n: Name)
    requires OnMap(env, map_) && w.Ok() && AllSized(w) && Lists(w.order, w.players.Keys) && n in w.players
    requires InBlocks(map_, ctSpawns) && InBlocks(map_, ttSpawns) && Stand(env, w, ctSpawns, ttSpawns)
    ensures Placed(map_, w.players[n].rect)
  {
    ListsOnce(w.order, w.players.Keys);
    var k: nat :| k < |w.order| && w.order[k] == n;
    assert E.StandsWell(env, w, ctSpawns, ttSpawns, k);
    SpawnedIsInside(map_, if w.players[n].team == TT then ttSpawns else ctSpawns, w.players[n].rect);
  }

  /** So the places of a round found by spawn_players fit the map. */
  lemma StandFits(
    env: Env, map_: GameMap, w: World, swap: bool, guns: Runs.Guns, d: R.Draw, w': World,
    ctSpawns: seq<(int, int)>, ttSpawns: seq<(int, int)>)
    requires OnMap(env, map_) && w.Ok() && AllSized(w) && w' == R.NewRound(env, w, swap, guns, d)
    requires Lists(w.order, w.players.Keys)
    requires InBlocks(map_, ctSpawns) && InBlocks(map_, ttSpawns) && Stand(env, w', ctSpawns, ttSpawns)
    ensures SpotsFit(map_, w, d)
  {
    RoundPlaces(env, w, swap, guns, d, w');
    forall n | n in w.players ensures Placed(map_, Rect(d.spots(n).0, d.spots(n).1, PLAYER, PLAYER)) {
      StandingIsPlaced(env, map_, w', ctSpawns, ttSpawns, n);
    }
  }

  // ---- Along a run

  /** The condition on a turn of the loop: no command throws, and every step ends with room beside what its
      player runs into. */
  ghost predicate TurnFits(env: Env, map_: GameMap, m: R.Match, f: R.Frame)
    requires env.Valid() && m.world.Ok()
  {
    !m.over && R.Continues(env.cfg, m) && f.anyAlive ==> FrameFits(env, map_, m.world, f, m.delta, m.phase == Buy)
  }

  ghost predicate TurnsFit(env: Env, map_: GameMap, m: R.Match, guns: Runs.Guns, fs: seq<R.Frame>)
    requires env.Valid() && m.world.Ok()
  {
    forall i :: 0 <= i < |fs| ==> TurnFits(env, map_, R.Run(env, m, guns, fs[..i]), fs[i])
  }

  lemma RoundOfStep(env: Env, m: R.Match, guns: Runs.Guns, f: R.Frame, m': R.Match)
    requires env.Valid() && m.world.Ok() && m' == R.Step(env, m, guns, f)
    requires !m.over && !R.Continues(env.cfg, m) && m.phase != Buy && m.phase != Attack
    ensures m'.round == m.round + 1
    ensures m'.world == R.NewRound(env, m.world, R.SwapsNow(env.cfg, m.round + 1), guns, f.draw)
  {
    Runs.WorldOfRound(env, m, guns, f.draw, R.SwapsNow(env.cfg, m.round + 1));
  }

  /** Of a step in which the round, if one begins, stands, only the turn matters. */
  lemma StandingStepFits(
    env: Env, map_: GameMap, m: R.Match, guns: Runs.Guns, f: R.Frame, m': R.Match,
    ctSpawns: seq<(int, int)>, ttSpawns: seq<(int, int)>)
    requires OnMap(env, map_) && m.world.Ok() && Fine(map_, m.world) && Lists(m.world.order, m.world.players.Keys)
    requires InBlocks(map_, ctSpawns) && InBlocks(map_, ttSpawns)
    requires m' == R.Step(env, m, guns, f) && RoundStands(env, m, m', ctSpawns, ttSpawns)
    ensures StepFits(env, map_, m, f) <==> TurnFits(env, map_, m, f)
  {
    if !m.over && !R.Continues(env.cfg, m) && m.phase != Buy && m.phase != Attack {
      RoundOfStep(env, m, guns, f, m');
      PlacedIsSized(map_, m.world);
      StandFits(env, map_, m.world, R.SwapsNow(env.cfg, m.round + 1), guns, f.draw, m'.world, ctSpawns, ttSpawns);
    }
  }

  lemma TurnsWithoutLast(
    env: Env, map_: GameMap, m: R.Match, guns: Runs.Guns, fs: seq<R.Frame>, before: seq<R.Frame>, m1: R.Match)
    requires env.Valid() && m.world.Ok() && fs != [] && before == fs[..|fs| - 1] && m1 == R.Run(env, m, guns, before)
    ensures TurnsFit(env, map_, m, guns, fs) <==>
            TurnsFit(env, map_, m, guns, before) && TurnFits(env, map_, m1, fs[|fs| - 1])
  {
    forall i | 0 <= i < |before| ensures fs[..i] == before[..i] && fs[i] == before[i] {}
    assert fs[..|fs| - 1] == before;
    if TurnsFit(env, map_, m, guns, fs) {
      var k := |fs| - 1;
      assert TurnFits(env, map_, R.Run(env, m, guns, fs[..k]), fs[k]);
      forall i | 0 <= i < |before| ensures TurnFits(env, map_, R.Run(env, m, guns, before[..i]), before[i]) {
        assert TurnFits(env, map_, R.Run(env, m, guns, fs[..i]), fs[i]);
      }
    }
    if TurnsFit(env, map_, m, guns, before) && TurnFits(env, map_, m1, fs[|fs| - 1]) {
      forall i | 0 <= i < |fs| ensures TurnFits(env, map_, R.Run(env, m, guns, fs[..i]), fs[i]) {
        if i < |before| { assert TurnFits(env, map_, R.Run(env, m, guns, before[..i]), before[i]); }
      }
    }
  }

  lemma StandsBefore(
    env: Env, m: R.Match, guns: Runs.Guns, run: RunFunction, fs: seq<R.Frame>,
    ctSpawns: seq<(int, int)>, ttSpawns: seq<(int, int)>, before: seq<R.Frame>, m1: R.Match, m2: R.Match)
    requires env.Valid() && m.world.Ok() && IsRun(env, m, guns, run) && RoundsStand(env, run, fs, ctSpawns, ttSpawns)
    requires fs != [] && before == fs[..|fs| - 1]
    requires m1 == R.Run(env, m, guns, before) && m2 == R.Run(env, m, guns, fs)
    ensures RoundsStand(env, run, before, ctSpawns, ttSpawns) && RoundStands(env, m1, m2, ctSpawns, ttSpawns)
  {
    forall i | 0 <= i < |before| ensures RoundStands(env, run(before[..i]), run(before[..i + 1]), ctSpawns, ttSpawns) {
      assert before[..i] == fs[..i] && before[..i + 1] == fs[..i + 1];
    }
    var k := |fs| - 1;
    assert fs[..k] == before && fs[..k + 1] == fs;
    assert RoundStands(env, run(fs[..k]), run(fs[..k + 1]), ctSpawns, ttSpawns);
  }

  lemma {:induction false} StandingRunIsFineIff(
    env: Env, map_: GameMap, m: R.Match, guns: Runs.Guns, run: RunFunction, fs: seq<R.Frame>,
    ctSpawns: seq<(int, int)>, ttSpawns: seq<(int, int)>)
    requires OnMap(env, map_) && m.world.Ok() && Fine(map_, m.world) && Lists(m.world.order, m.world.players.Keys)
    requires InBlocks(map_, ctSpawns) && InBlocks(map_, ttSpawns)
    requires IsRun(env, m, guns, run) && RoundsStand(env, run, fs, ctSpawns, ttSpawns)
    ensures FineThroughout(env, map_, m, guns, fs) <==> TurnsFit(env, map_, m, guns, fs)
  {
    if fs == [] {
      assert fs[..0] == [];
    } else {
      var before, f := fs[..|fs| - 1], fs[|fs| - 1];
      var m1, m2 := R.Run(env, m, guns, before), R.Run(env, m, guns, fs);
      StandsBefore(env, m, guns, run, fs, ctSpawns, ttSpawns, before, m1, m2);
      StandingRunIsFineIff(env, map_, m, guns, run, before, ctSpawns, ttSpawns);
      TurnsWithoutLast(env, map_, m, guns, fs, before, m1);
      FineWithoutLast(env, map_, m, guns, fs, before, m2);
      if FineThroughout(env, map_, m, guns, before) {
        FineAtEnd(env, map_, m, guns, before);
        RunKeepsPeople(env, m, guns, before);
        LastStep(env, map_, m1, guns, f, m2, ctSpawns, ttSpawns);
      }
    }
  }

  lemma LastStep(
    env: Env, map_: GameMap, m: R.Match, guns: Runs.Guns, f: R.Frame, m': R.Match,
    ctSpawns: seq<(int, int)>, ttSpawns: seq<(int, int)>)
    requires OnMap(env, map_) && m.world.Ok() && Fine(map_, m.world) && Lists(m.world.order, m.world.players.Keys)
    requires InBlocks(map_, ctSpawns) && InBlocks(map_, ttSpawns)
    requires m' == R.Step(env, m, guns, f) && RoundStands(env, m, m', ctSpawns, ttSpawns)
    ensures Fine(map_, m'.world) <==> TurnFits(env, map_, m, f)
  {
    ListsOnce(m.world.order, m.world.players.Keys);
    StandingStepFits(env, map_, m, guns, f, m', ctSpawns, ttSpawns);
    StepIsFineIff(env, map_, m, guns, f, m');
  }

  // ---- The whole game

  lemma SeatedIsReady(cfg: Settings, w: World)
    requires cfg.Valid() && A.Seated(cfg, w)
    ensures AllSized(w) && !w.crashed && Lists(w.order, w.players.Keys)
  {}

  lemma KickoffIsFine(
    env: Env, map_: GameMap, w: World, guns: Runs.Guns, d: R.Draw, m: R.Match,
    ctSpawns: seq<(int, int)>, ttSpawns: seq<(int, int)>)
    requires OnMap(env, map_) && w.Ok() && AllSized(w) && !w.crashed && Lists(w.order, w.players.Keys)
    requires InBlocks(map_, ctSpawns) && InBlocks(map_, ttSpawns)
    requires m == R.Kickoff(env, w, guns, d) && Stand(env, m.world, ctSpawns, ttSpawns)
    ensures Fine(map_, m.world) && SamePeople(w, m.world)
  {
    StandFits(env, map_, w, R.SwapsNow(env.cfg, 1), guns, d, m.world, ctSpawns, ttSpawns);
    RoundIsFineIff(env, map_, w, R.SwapsNow(env.cfg, 1), guns, d, m.world);
  }

  /** A game that `CS2DGame.Play` has played on a map with spawn points in it, every search for places having
      ended: everybody was in the map and nothing was thrown at every moment exactly when every turn fits. */
  lemma GameStaysInMapIff(
    env: Env, map_: GameMap, rs: seq<A.Request>, w: World, guns: Runs.Guns, d: R.Draw, gs: seq<R.Frame>, m: R.Match,
    ctSpawns: seq<(int, int)>, ttSpawns: seq<(int, int)>)
    requires OnMap(env, map_) && InBlocks(map_, ctSpawns) && InBlocks(map_, ttSpawns)
    requires Played(env, rs, w, guns, d, gs, m) && EveryRoundStands(env, w, guns, d, gs, ctSpawns, ttSpawns)
    ensures var m0 := R.Kickoff(env, w, guns, d);
            FineThroughout(env, map_, m0, guns, gs) <==> TurnsFit(env, map_, m0, guns, gs)
  {
    var m0 := R.Kickoff(env, w, guns, d);
    SeatedIsReady(env.cfg, w);
    KickoffIsFine(env, map_, w, guns, d, m0, ctSpawns, ttSpawns);
    StandingRunIsFineIff(env, map_, m0, guns, RunFrom(env, m0, guns), gs, ctSpawns, ttSpawns);
  }

  /** If nobody stops it and no attack begins with a stale flag, such a game is over after the number of steps that
      the settings give: either an exception has ended it, which none does while every turn fits, or it was
      played out, every round being decided. */
  lemma GameIsPlayedOut(
    env: Env, map_: GameMap, rs: seq<A.Request>, w: World, guns: Runs.Guns, d: R.Draw, gs: seq<R.Frame>, m: R.Match,
    ctSpawns: seq<(int, int)>, ttSpawns: seq<(int, int)>)
    requires OnMap(env, map_) && InBlocks(map_, ctSpawns) && InBlocks(map_, ttSpawns) && env.cfg.detonationTime > 0
    requires Played(env, rs, w, guns, d, gs, m) && EveryRoundStands(env, w, guns, d, gs, ctSpawns, ttSpawns)
    requires !Scores.Stopped(gs) && Endings.FlagsAreClear(env, R.Kickoff(env, w, guns, d), guns, gs)
    requires |gs| >= Endings.MatchSteps(env.cfg)
    ensures m.over && (!m.world.crashed ==> m.ctWins + m.ttWins == |m.verdicts| == env.cfg.rounds)
    ensures TurnsFit(env, map_, R.Kickoff(env, w, guns, d), guns, gs) ==> !m.world.crashed
  {
    GameStaysInMapIff(env, map_, rs, w, guns, d, gs, m, ctSpawns, ttSpawns);
    if TurnsFit(env, map_, R.Kickoff(env, w, guns, d), guns, gs) {
      FineAtEnd(env, map_, R.Kickoff(env, w, guns, d), guns, gs);
    }
    Endings.EveryMatchEnds(env, w, guns, d, gs, m);
  }
}
