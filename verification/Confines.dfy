/** A whole match on a map: exactly when everybody is in the map at every moment and no exception ends the game. */
module Confines {
  import opened Basics
  import opened Settings
  import opened Geometry
  import opened Slide
  import opened Arms
  import opened World
  import opened MapTerrain
  import opened Rounds
  import R = Runs

  // ---- Commands

  /** A command that the phase executes throws when its user is not in the game, or is alive and buys the gun
      that the price list does not have. */
  predicate Throws(w: World, e: (Name, Command), buying: bool) {
    && (if buying then ForBuy(e.1) else ForAttack(e.1))
    && (e.0 !in w.players || (w.players[e.0].Alive() && buying && e.1 == BuyGunCommand(None)))
  }

  ghost predicate SomeThrow(w: World, cs: seq<(Name, Command)>, buying: bool) {
    exists e <- cs :: Throws(w, e, buying)
  }

  /** Nobody was moved, hurt or healed, and nothing was thrown. */
  ghost predicate Untouched(w: World, w': World) {
    && SameRoster(w, w') && w'.crashed == w.crashed
    && forall n <- w.players :: w'.players[n].rect == w.players[n].rect && w'.players[n].life == w.players[n].life
  }

  lemma UntouchedIsUnmoved(w: World, w': World)
    requires Untouched(w, w')
    ensures Unmoved(w, w')
  {
    assert Places(w') == Places(w);
  }

  lemma PickUpTouchesNobody(w: World, me: Name, w': World)
    requires w.Ok() && me in w.players && w' == PickUpItem(w, me)
    ensures Untouched(w, w')
  {}

  lemma ActTouchesNobody(w: World, me: Name, on: bool, w': World)
    requires w.Ok() && me in w.players && w' == MakeAction(w, me, on)
    ensures Untouched(w, w')
  {}

  lemma DefuseTouchesNobody(w: World, me: Name, on: bool, w': World)
    requires w.Ok() && me in w.players && w' == DefuseBomb(w, me, on)
    ensures Untouched(w, w')
  {}

  lemma OtherTouchesNobody(w: World, me: Name, c: Command, w': World)
    requires w.Ok() && me in w.players && !c.Act? && !c.Defuse? && !c.PickUp? && w' == ActInAttack(w, me, c)
    ensures Untouched(w, w')
  {}

  lemma AttackCommandTouchesNobody(w: World, me: Name, c: Command, w': World)
    requires w.Ok() && me in w.players && w' == ActInAttack(w, me, c)
    ensures Untouched(w, w')
  {
    match c
    case Act(on) => ActTouchesNobody(w, me, on, w');
    case Defuse(on) => DefuseTouchesNobody(w, me, on, w');
    case PickUp => PickUpTouchesNobody(w, me, w');
    case _ => OtherTouchesNobody(w, me, c, w');
  }

  lemma GunTouchesNobody(env: Env, w: World, me: Name, kind: GunType, w': World)
    requires env.Valid() && w.Ok() && me in w.players && w' == BuyGunFor(env, w, me, Some(kind))
    ensures Untouched(w, w')
  {}

  lemma BuyCommandTouchesNobody(env: Env, w: World, me: Name, c: Command, w': World)
    requires env.Valid() && w.Ok() && me in w.players && c != BuyGunCommand(None) && w' == ActInBuy(env, w, me, c)
    ensures Untouched(w, w')
  {
    if c.BuyGunCommand? { GunTouchesNobody(env, w, me, c.gun.value, w'); }
  }

  lemma CommandThrowsIff(env: Env, w: World, e: (Name, Command), buying: bool, w': World)
    requires env.Valid() && w.Ok() && !w.crashed && w' == Execute(env, w, e.0, e.1, buying)
    ensures if Throws(w, e, buying) then w' == w.(crashed := true) else Untouched(w, w')
  {
    if !Throws(w, e, buying) && e.0 in w.players && w.players[e.0].Alive() {
      AttackCommandTouchesNobody(w, e.0, e.1, ActInAttack(w, e.0, e.1));
      if e.1 != BuyGunCommand(None) { BuyCommandTouchesNobody(env, w, e.0, e.1, ActInBuy(env, w, e.0, e.1)); }
    }
  }

  lemma {:induction false} CrashedStays(env: Env, w: World, cs: seq<(Name, Command)>, buying: bool)
    requires env.Valid() && w.Ok() && w.crashed
    ensures ExecuteAll(env, w, cs, buying) == w
    decreases |cs|
  {
    if cs != [] { CrashedStays(env, w, cs[1..], buying); }
  }

  lemma SomeThrowOf(w: World, cs: seq<(Name, Command)>, buying: bool)
    requires cs != []
    ensures SomeThrow(w, cs, buying) <==> Throws(w, cs[0], buying) || SomeThrow(w, cs[1..], buying)
  {
    assert cs == [cs[0]] + cs[1..];
    if SomeThrow(w, cs[1..], buying) {
      var e :| e in cs[1..] && Throws(w, e, buying);
      assert e in cs;
    }
  }

  lemma SameThrows(w: World, w1: World, cs: seq<(Name, Command)>, buying: bool)
    requires Untouched(w, w1)
    ensures SomeThrow(w1, cs, buying) <==> SomeThrow(w, cs, buying)
  {
    forall e | e in cs ensures Throws(w1, e, buying) <==> Throws(w, e, buying) {
      assert e.0 in w.players ==> w1.players[e.0].life == w.players[e.0].life;
    }
  }

  /** The commands of a turn throw exactly when one of them does by itself; else they touch nobody. */
  lemma {:induction false} CommandsThrowIff(
    env: Env, w: World, cs: seq<(Name, Command)>, buying: bool, w': World)
    requires env.Valid() && w.Ok() && !w.crashed && w' == ExecuteAll(env, w, cs, buying)
    ensures w'.crashed <==> SomeThrow(w, cs, buying)
    ensures Still(w, w') && (!w'.crashed ==> Untouched(w, w'))
    decreases |cs|
  {
    if cs != [] {
      var w1 := Execute(env, w, cs[0].0, cs[0].1, buying);
      CommandThrowsIff(env, w, cs[0], buying, w1);
      SomeThrowOf(w, cs, buying);
      if w1.crashed {
        CrashedStays(env, w1, cs[1..], buying);
        assert Places(w1) == Places(w);
      } else {
        SameThrows(w, w1, cs[1..], buying);
        UntouchedIsUnmoved(w, w1);
        CommandsThrowIff(env, w1, cs[1..], buying, w');
      }
    }
  }

  // ---- A turn of the loop

  /** Everybody is in the map, and nothing has been thrown. */
  ghost predicate Fine(map_: GameMap, w: World) { AllPlaced(map_, w) && !w.crashed }

  /** What a turn must be for that: no command throws, and every step lands. */
  ghost predicate FrameFits(env: Env, map_: GameMap, w: World, f: Frame, frames: nat, buying: bool)
    requires env.Valid() && w.Ok()
  {
    !SomeThrow(w, f.commands, buying) && TickLands(env, map_, ExecuteAll(env, w, f.commands, buying), frames, f.luck)
  }

  lemma FrameIsFineIff(env: Env, map_: GameMap, w: World, f: Frame, frames: nat, buying: bool, w': World)
    requires OnMap(env, map_) && w.Ok() && Fine(map_, w) && Once(w.order)
    requires w' == PlayFrame(env, w, f, frames, buying)
    ensures Fine(map_, w') <==> FrameFits(env, map_, w, f, frames, buying)
  {
    var w1 := ExecuteAll(env, w, f.commands, buying);
    CommandsThrowIff(env, w, f.commands, buying, w1);
    StillPlaced(map_, w, w1);
    if !w1.crashed { TickStaysInMapIff(env, map_, w1, frames, f.luck); }
  }

  // ---- A new round

  predicate AllSized(w: World) {
    forall n <- w.players :: w.players[n].rect.w == PLAYER && w.players[n].rect.h == PLAYER
  }

  /** The places drawn for the players are in the map and off the blocks. */
  ghost predicate SpotsFit(map_: GameMap, w: World, d: Draw) {
    forall n <- w.players :: Placed(map_, Rect(d.spots(n).0, d.spots(n).1, PLAYER, PLAYER))
  }

  lemma {:induction false} LaidMovesNobody(env: Env, w: World, guns: R.Guns, w': World)
    requires w.Ok() && w' == LayGuns(env, w, guns)
    ensures w'.players == w.players && w'.crashed == w.crashed
    decreases |guns|
  {
    if guns != [] {
      var (kind, x, y) := guns[0];
      var it := DroppedGun(Rect(x * BLOCK, y * BLOCK, ITEM, ITEM), w.nextDropId, NewGun(env.cfg, kind));
      LaidMovesNobody(env, AddItem(w, it), guns[1..], w');
    }
  }

  /** Who is where when a round begins. */
  lemma RoundPlaces(env: Env, w: World, swap: bool, guns: R.Guns, d: Draw, w': World)
    requires w.Ok() && AllSized(w) && w' == NewRound(env, w, swap, guns, d)
    ensures w'.players.Keys == w.players.Keys && w'.crashed == w.crashed
    ensures forall n <- w.players :: w'.players[n].rect == Rect(d.spots(n).0, d.spots(n).1, PLAYER, PLAYER)
  {
    var w1 := RestartPlayers(env, if swap then SwapTeams(env, w) else w, d.pick);
    RestartKeepsSizes(env, w, swap, d.pick, w1);
    var w2 := PlacePlayers(w1, d.spots);
    LaidMovesNobody(env, w2.(items := [], nextDropId := 0), guns, w');
  }

  lemma RestartKeepsSizes(env: Env, w: World, swap: bool, pick: nat, w': World)
    requires w.Ok() && AllSized(w) && w' == RestartPlayers(env, if swap then SwapTeams(env, w) else w, pick)
    ensures AllSized(w') && w'.players.Keys == w.players.Keys && w'.crashed == w.crashed
  {
    var w1 := RestartAll(env, if swap then SwapTeams(env, w) else w);
    HandingKeepsSizes(w1, pick, w');
  }

  lemma HandingKeepsSizes(w: World, pick: nat, w': World)
    requires w.Ok() && AllSized(w) && w' == DrawHolder(w, pick)
    ensures AllSized(w') && w'.crashed == w.crashed
  {}

  /** A round begins with everybody in the map exactly when the places drawn are. */
  lemma RoundIsFineIff(env: Env, map_: GameMap, w: World, swap: bool, guns: R.Guns, d: Draw, w': World)
    requires w.Ok() && AllSized(w) && !w.crashed && w' == NewRound(env, w, swap, guns, d)
    ensures Fine(map_, w') <==> SpotsFit(map_, w, d)
  {
    RoundPlaces(env, w, swap, guns, d, w');
    forall n | n in w.players
      ensures Places(w')[n] == Rect(d.spots(n).0, d.spots(n).1, PLAYER, PLAYER)
    {}
    assert Places(w').Keys == w.players.Keys;
  }

  lemma PlacedIsSized(map_: GameMap, w: World)
    requires AllPlaced(map_, w)
    ensures AllSized(w)
  {
    forall n | n in w.players ensures w.players[n].rect.w == PLAYER && w.players[n].rect.h == PLAYER {
      assert Placed(map_, Places(w)[n]);
    }
  }

  // ---- The match

  /** What a step of the match must be. */
  ghost predicate StepFits(env: Env, map_: GameMap, m: Match, f: Frame)
    requires env.Valid() && m.world.Ok()
  {
    !m.over ==>
      if Continues(env.cfg, m) then f.anyAlive ==> FrameFits(env, map_, m.world, f, m.delta, m.phase == Buy)
      else m.phase != Buy && m.phase != Attack ==> SpotsFit(map_, m.world, f.draw)
  }

  lemma PaidIsFine(env: Env, map_: GameMap, w: World, won: Team)
    requires w.Ok() && Fine(map_, w)
    ensures Fine(map_, PayTeams(env, w, won))
  {
    UntouchedIsUnmoved(w, PayTeams(env, w, won));
    StillPlaced(map_, w, PayTeams(env, w, won));
  }

  lemma EndIsFineIff(env: Env, map_: GameMap, m: Match, guns: R.Guns, d: Draw, m': Match)
    requires env.Valid() && m.world.Ok() && Fine(map_, m.world) && m' == EndPhase(env, m, guns, d)
    ensures Fine(map_, m'.world) <==> (m.phase != Buy && m.phase != Attack ==> SpotsFit(map_, m.world, d))
  {
    match m.phase
    case Buy =>
    case Attack =>
      PaidIsFine(env, map_, m.world, CT);
      PaidIsFine(env, map_, m.world, TT);
    case _ =>
      var swap := SwapsNow(env.cfg, m.round + 1);
      PlacedIsSized(map_, m.world);
      R.WorldOfRound(env, m, guns, d, swap);
      RoundIsFineIff(env, map_, m.world, swap, guns, d, m'.world);
  }

  lemma StepIsFineIff(env: Env, map_: GameMap, m: Match, guns: R.Guns, f: Frame, m': Match)
    requires OnMap(env, map_) && m.world.Ok() && Fine(map_, m.world) && Once(m.world.order)
    requires m' == Step(env, m, guns, f)
    ensures Fine(map_, m'.world) <==> StepFits(env, map_, m, f)
  {
    if !m.over {
      if Continues(env.cfg, m) {
        if f.anyAlive { FrameIsFineIff(env, map_, m.world, f, m.delta, m.phase == Buy, m'.world); }
      } else {
        EndIsFineIff(env, map_, m, guns, f.draw, m');
      }
    }
  }

  // ---- Along a run

  predicate SamePeople(w: World, w': World) { w'.order == w.order && w'.players.Keys == w.players.Keys }

  lemma StepKeepsPeople(env: Env, m: Match, guns: R.Guns, f: Frame, m': Match)
    requires env.Valid() && m.world.Ok() && m' == Step(env, m, guns, f)
    ensures SamePeople(m.world, m'.world)
  {}

  lemma {:induction false} RunKeepsPeople(env: Env, m: Match, guns: R.Guns, fs: seq<Frame>)
    requires env.Valid() && m.world.Ok()
    ensures SamePeople(m.world, Run(env, m, guns, fs).world)
  {
    if fs != [] {
      RunKeepsPeople(env, m, guns, fs[..|fs| - 1]);
      StepKeepsPeople(env, Run(env, m, guns, fs[..|fs| - 1]), guns, fs[|fs| - 1], Run(env, m, guns, fs));
    }
  }

  ghost predicate RunFits(env: Env, map_: GameMap, m: Match, guns: R.Guns, fs: seq<Frame>)
    requires env.Valid() && m.world.Ok()
  {
    forall i :: 0 <= i < |fs| ==> StepFits(env, map_, Run(env, m, guns, fs[..i]), fs[i])
  }

  /** At every moment of the run, its beginning and end included. */
  ghost predicate FineThroughout(env: Env, map_: GameMap, m: Match, guns: R.Guns, fs: seq<Frame>)
    requires env.Valid() && m.world.Ok()
  {
    forall i :: 0 <= i <= |fs| ==> Fine(map_, Run(env, m, guns, fs[..i]).world)
  }

  /** Both of a run are those of the run but for its last step, and of that. */
  lemma FitsWithoutLast(
    env: Env, map_: GameMap, m: Match, guns: R.Guns, fs: seq<Frame>, before: seq<Frame>, m1: Match)
    requires env.Valid() && m.world.Ok() && fs != [] && before == fs[..|fs| - 1] && m1 == Run(env, m, guns, before)
    ensures RunFits(env, map_, m, guns, fs) <==>
            RunFits(env, map_, m, guns, before) && StepFits(env, map_, m1, fs[|fs| - 1])
  {
    forall i | 0 <= i < |before| ensures fs[..i] == before[..i] && fs[i] == before[i] {}
    assert fs[..|fs| - 1] == before;
    if RunFits(env, map_, m, guns, fs) {
      var k := |fs| - 1;
      assert StepFits(env, map_, Run(env, m, guns, fs[..k]), fs[k]);
      forall i | 0 <= i < |before| ensures StepFits(env, map_, Run(env, m, guns, before[..i]), before[i]) {
        assert StepFits(env, map_, Run(env, m, guns, fs[..i]), fs[i]);
      }
    }
    if RunFits(env, map_, m, guns, before) && StepFits(env, map_, m1, fs[|fs| - 1]) {
      forall i | 0 <= i < |fs| ensures StepFits(env, map_, Run(env, m, guns, fs[..i]), fs[i]) {
        if i < |before| { assert StepFits(env, map_, Run(env, m, guns, before[..i]), before[i]); }
      }
    }
  }

  lemma FineBefore(env: Env, map_: GameMap, m: Match, guns: R.Guns, fs: seq<Frame>, before: seq<Frame>, m2: Match)
    requires env.Valid() && m.world.Ok() && fs != [] && before == fs[..|fs| - 1] && m2 == Run(env, m, guns, fs)
    requires FineThroughout(env, map_, m, guns, fs)
    ensures FineThroughout(env, map_, m, guns, before) && Fine(map_, m2.world)
  {
    assert fs[..|fs|] == fs;
    assert Fine(map_, Run(env, m, guns, fs[..|fs|]).world);
    forall i | 0 <= i <= |before| ensures Fine(map_, Run(env, m, guns, before[..i]).world) {
      assert fs[..i] == before[..i];
      assert Fine(map_, Run(env, m, guns, fs[..i]).world);
    }
  }

  lemma FineAfter(env: Env, map_: GameMap, m: Match, guns: R.Guns, fs: seq<Frame>, before: seq<Frame>, m2: Match)
    requires env.Valid() && m.world.Ok() && fs != [] && before == fs[..|fs| - 1] && m2 == Run(env, m, guns, fs)
    requires FineThroughout(env, map_, m, guns, before) && Fine(map_, m2.world)
    ensures FineThroughout(env, map_, m, guns, fs)
  {
    forall i | 0 <= i <= |fs| ensures Fine(map_, Run(env, m, guns, fs[..i]).world) {
      if i <= |before| {
        assert fs[..i] == before[..i];
        assert Fine(map_, Run(env, m, guns, before[..i]).world);
      } else {
        assert fs[..i] == fs;
      }
    }
  }

  lemma FineWithoutLast(
    env: Env, map_: GameMap, m: Match, guns: R.Guns, fs: seq<Frame>, before: seq<Frame>, m2: Match)
    requires env.Valid() && m.world.Ok() && fs != [] && before == fs[..|fs| - 1] && m2 == Run(env, m, guns, fs)
    ensures FineThroughout(env, map_, m, guns, fs) <==>
            FineThroughout(env, map_, m, guns, before) && Fine(map_, m2.world)
  {
    if FineThroughout(env, map_, m, guns, fs) { FineBefore(env, map_, m, guns, fs, before, m2); }
    if FineThroughout(env, map_, m, guns, before) && Fine(map_, m2.world) {
      FineAfter(env, map_, m, guns, fs, before, m2);
    }
  }

  lemma FineAtEnd(env: Env, map_: GameMap, m: Match, guns: R.Guns, fs: seq<Frame>)
    requires env.Valid() && m.world.Ok() && FineThroughout(env, map_, m, guns, fs)
    ensures Fine(map_, Run(env, m, guns, fs).world)
  {
    assert fs[..|fs|] == fs;
  }

  lemma {:induction false} RunIsFineIff(env: Env, map_: GameMap, m: Match, guns: R.Guns, fs: seq<Frame>)
    requires OnMap(env, map_) && m.world.Ok() && Fine(map_, m.world) && Once(m.world.order)
    ensures FineThroughout(env, map_, m, guns, fs) <==> RunFits(env, map_, m, guns, fs)
  {
    if fs == [] {
      assert fs[..0] == [];
    } else {
      var before, f := fs[..|fs| - 1], fs[|fs| - 1];
      var m1, m2 := Run(env, m, guns, before), Run(env, m, guns, fs);
      RunIsFineIff(env, map_, m, guns, before);
      FitsWithoutLast(env, map_, m, guns, fs, before, m1);
      FineWithoutLast(env, map_, m, guns, fs, before, m2);
      if FineThroughout(env, map_, m, guns, before) {
        FineAtEnd(env, map_, m, guns, before);
        RunKeepsPeople(env, m, guns, before);
        StepIsFineIff(env, map_, m1, guns, f, m2);
      }
    }
  }

  /** From the first round on, everybody is in the map and nothing has been thrown, at every moment of a match,
      exactly when the places drawn are in the map, no command throws, and every step of every player ends with
      room beside what he runs into. */
  lemma MatchStaysInMapIff(env: Env, map_: GameMap, w: World, guns: R.Guns, d: Draw, fs: seq<Frame>)
    requires OnMap(env, map_) && w.Ok() && AllSized(w) && !w.crashed && Once(w.order)
    ensures var m := Kickoff(env, w, guns, d);
            FineThroughout(env, map_, m, guns, fs) <==>
            SpotsFit(map_, w, d) && RunFits(env, map_, m, guns, fs)
  {
    var m := Kickoff(env, w, guns, d);
    RoundIsFineIff(env, map_, w, SwapsNow(env.cfg, 1), guns, d, m.world);
    if Fine(map_, m.world) {
      KickoffKeepsPeople(env, w, guns, d, m);
      RunIsFineIff(env, map_, m, guns, fs);
    } else {
      assert fs[..0] == [] && Run(env, m, guns, fs[..0]) == m;
    }
  }

  lemma KickoffKeepsPeople(env: Env, w: World, guns: R.Guns, d: Draw, m: Match)
    requires env.Valid() && w.Ok() && m == Kickoff(env, w, guns, d)
    ensures SamePeople(w, m.world)
  {}
}
