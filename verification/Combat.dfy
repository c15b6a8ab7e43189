/** The shots, steps and explosions of a whole match: every turn of its loop executes the commands in order, burns the
    fuse and gives each player his turn, of which Turns.dfy and Wounds.dfy say what it leads to. */
module Combat {
  import opened Basics
  import opened Settings
  import opened Geometry
  import opened Slide
  import opened Arms
  import opened World
  import opened Rounds
  import opened Wounds
  import opened Shooting
  import opened Turns
  import C = Confines
  import N = Renewal
  import O = Orders
  import R = Rounds

  /** What the theorems about turns ask for: everything has an area, and the map lists its players. */
  ghost predicate Fits(env: Env, heading: real -> Vec, w: World) {
    Range(env, heading, w) && Lists(w.order, w.players.Keys)
  }

  lemma SizesOf(env: Env, heading: real -> Vec, w: World, w': World)
    requires Fits(env, heading, w) && w'.Ok() && SameRoster(w, w')
    requires forall n <- w.players ::
               w'.players[n].rect.w == w.players[n].rect.w && w'.players[n].rect.h == w.players[n].rect.h
    ensures Fits(env, heading, w')
  {
    assert SameSizes(SceneOf(w), SceneOf(w'));
    SizesKeepRange(env, heading, w, SceneOf(w), w', SceneOf(w'));
  }

  lemma CommandsFit(env: Env, heading: real -> Vec, w: World, cs: seq<(Name, Command)>, buying: bool, w': World)
    requires Fits(env, heading, w) && w' == ExecuteAll(env, w, cs, buying)
    ensures Fits(env, heading, w') && (w.crashed ==> w'.crashed)
  {
    if w.crashed {
      C.CrashedStays(env, w, cs, buying);
    } else {
      C.CommandsThrowIff(env, w, cs, buying, w');
      SamePlacesFit(env, heading, w, w');
    }
  }

  lemma SamePlacesFit(env: Env, heading: real -> Vec, w: World, w': World)
    requires Fits(env, heading, w) && w'.Ok() && C.MapTerrain.Still(w, w')
    ensures Fits(env, heading, w')
  {
    forall n | n in w.players ensures w'.players[n].rect == w.players[n].rect {
      assert C.MapTerrain.Places(w')[n] == C.MapTerrain.Places(w)[n];
    }
    SizesOf(env, heading, w, w');
  }

  lemma TickFits(env: Env, heading: real -> Vec, w: World, frames: nat, luck: Luck, w': World)
    requires Fits(env, heading, w) && env.cfg.explosionRadius > 0 && w' == Tick(env, w, frames, luck)
    ensures Fits(env, heading, w')
  {
    if !w.crashed { var ws := TickIsTurns(env, heading, w, frames, luck, w'); }
  }

  lemma RoundFits(
    env: Env, heading: real -> Vec, w: World, swap: bool, guns: seq<(GunType, int, int)>, d: Draw, w': World)
    requires Fits(env, heading, w) && w' == NewRound(env, w, swap, guns, d)
    ensures Fits(env, heading, w')
  {
    var h := N.RoundRenews(env, w, swap, guns, d, w');
    forall n | n in w.players
      ensures w'.players[n].rect.w == w.players[n].rect.w && w'.players[n].rect.h == w.players[n].rect.h
    {
      assert N.Renewed(env.cfg, w.players[n], d.spots(n), swap, h == Some(n), w'.players[n]);
    }
    SizesOf(env, heading, w, w');
  }

  lemma VerdictFits(env: Env, heading: real -> Vec, m: Match, m': Match)
    requires Fits(env, heading, m.world) && m' == DecideWinner(env, m)
    ensures Fits(env, heading, m'.world)
  {
    if m' != m {
      N.VerdictPays(env, m, m');
      SizesOf(env, heading, m.world, m'.world);
    }
  }

  lemma EndFits(env: Env, heading: real -> Vec, m: Match, guns: seq<(GunType, int, int)>, d: Draw, m': Match)
    requires Fits(env, heading, m.world) && m' == EndPhase(env, m, guns, d)
    ensures Fits(env, heading, m'.world)
  {
    match m.phase
    case Buy =>
    case Attack => VerdictFits(env, heading, m, DecideWinner(env, m));
    case _ =>
      var swap := SwapsNow(env.cfg, m.round + 1);
      RoundFits(env, heading, m.world, swap, guns, d, NewRound(env, m.world, swap, guns, d));
  }

  lemma IterateFits(env: Env, heading: real -> Vec, m: Match, f: Frame, m': Match)
    requires Fits(env, heading, m.world) && env.cfg.explosionRadius > 0 && m' == Iterate(env, m, f)
    ensures Fits(env, heading, m'.world)
  {
    var w1 := ExecuteAll(env, m.world, f.commands, m.phase == Buy);
    CommandsFit(env, heading, m.world, f.commands, m.phase == Buy, w1);
    TickFits(env, heading, w1, m.delta, f.luck, Tick(env, w1, m.delta, f.luck));
  }

  lemma StepFits(env: Env, heading: real -> Vec, m: Match, guns: seq<(GunType, int, int)>, f: Frame, m': Match)
    requires Fits(env, heading, m.world) && env.cfg.explosionRadius > 0 && m' == R.Step(env, m, guns, f)
    ensures Fits(env, heading, m'.world)
  {
    if !m.over {
      if Continues(env.cfg, m) {
        IterateFits(env, heading, m, f, m');
      } else {
        EndFits(env, heading, m, guns, f.draw, m');
      }
    }
  }

  lemma {:induction false} RunFits(
    env: Env, heading: real -> Vec, m: Match, guns: seq<(GunType, int, int)>, fs: seq<Frame>, m': Match)
    requires Fits(env, heading, m.world) && env.cfg.explosionRadius > 0 && m' == R.Run(env, m, guns, fs)
    ensures Fits(env, heading, m'.world)
  {
    if fs != [] {
      var m1 := R.Run(env, m, guns, fs[..|fs| - 1]);
      RunFits(env, heading, m, guns, fs[..|fs| - 1], m1);
      StepFits(env, heading, m1, guns, fs[|fs| - 1], m');
    }
  }

  /** `before` are the worlds between the commands of a turn of the loop, `after` those between the turns of its
      players. */
  ghost predicate IsTurn(env: Env, heading: real -> Vec, w: World, f: Frame, frames: nat, buying: bool, w': World,
                         before: seq<World>, after: seq<World>)
    requires env.Valid()
  {
    var n := |f.commands|;
    && |before| == n + 1 && before[0] == w && (forall k :: 0 <= k <= n ==> before[k].Ok())
    && (forall k :: 0 <= k < n ==>
          before[k + 1] == Execute(env, before[k], f.commands[k].0, f.commands[k].1, buying))
    && if before[n].crashed then w' == before[n]
       else
         && TurnsOf(env, heading, 0, before[n].bomb.status == Planted, frames, f.luck, after)
         && after[0] == BurnFuse(env, before[n], frames) && after[|after| - 1] == w'
  }

  lemma FrameIsTurn(env: Env, heading: real -> Vec, w: World, f: Frame, frames: nat, buying: bool, w': World)
    returns (before: seq<World>, after: seq<World>)
    requires Fits(env, heading, w) && env.cfg.explosionRadius > 0 && w' == PlayFrame(env, w, f, frames, buying)
    ensures IsTurn(env, heading, w, f, frames, buying, w', before, after)
  {
    var w1 := ExecuteAll(env, w, f.commands, buying);
    before := O.CommandsInOrder(env, w, f.commands, buying, w1);
    CommandsFit(env, heading, w, f.commands, buying, w1);
    after := [];
    if !w1.crashed { after := TickIsTurns(env, heading, w1, frames, f.luck, w'); }
  }

  /** At any moment of any match a turn of the loop executes the commands in order, burns the fuse, and gives each
      player his turn in the order of the map. */
  lemma MatchIsTurns(
    env: Env, heading: real -> Vec, w: World, guns: seq<(GunType, int, int)>, d: Draw, fs: seq<Frame>, f: Frame,
    m: Match, m': Match)
    returns (before: seq<World>, after: seq<World>)
    requires Fits(env, heading, w) && env.cfg.explosionRadius > 0
    requires m == R.Run(env, Kickoff(env, w, guns, d), guns, fs)
    requires f.anyAlive && m' == Iterate(env, m, f)
    ensures IsTurn(env, heading, m.world, f, m.delta, m.phase == Buy, m'.world, before, after)
  {
    var m0 := Match(w, WaitingPlayers, 0, 0, env.cfg.waitingDuration, 0, None, 0, 0, [], false);
    EndFits(env, heading, m0, guns, d, Kickoff(env, w, guns, d));
    RunFits(env, heading, Kickoff(env, w, guns, d), guns, fs, m);
    before, after := FrameIsTurn(env, heading, m.world, f, m.delta, m.phase == Buy, m'.world);
  }
}
