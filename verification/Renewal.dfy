/** What a round ends and begins with (src/server/game_world.cpp, restart_players, swap_teams and restart_items;
    src/server/cs2d_game.cpp), field by field. */
module Renewal {
  import opened Settings
  import opened Geometry
  import opened Slide
  import opened Arms
  import opened World
  import opened Rounds
  import O = Orders
  import F = Fuse

  // ---- The end of a round

  /** Everybody is paid, in 16 bits, by whether his side has won; nothing else about anybody changes. */
  ghost predicate PaidAll(cfg: Settings, w: World, won: Team, w': World) {
    && w' == w.(players := w'.players) && w'.players.Keys == w.players.Keys
    && forall n <- w.players ::
         var p := w.players[n];
         var bonus := if p.team == won then cfg.wonRoundBonus else cfg.lostRoundBonus;
         w'.players[n] == p.(loadout := p.loadout.(money := (p.loadout.money + bonus) % 0x1_0000))
  }

  /** The verdict counts one round for the side that has won and pays everybody. */
  lemma VerdictPays(env: Env, m: Match, m': Match)
    requires m.world.Ok() && m' == DecideWinner(env, m) && m' != m
    ensures m'.winner.Some? && PaidAll(env.cfg, m.world, m'.winner.value, m'.world)
    ensures if m'.winner.value == CT then m'.ctWins == m.ctWins + 1 && m'.ttWins == m.ttWins
            else m'.ttWins == m.ttWins + 1 && m'.ctWins == m.ctWins
  {
    PayingPays(env, m.world, CT, PayTeams(env, m.world, CT));
    PayingPays(env, m.world, TT, PayTeams(env, m.world, TT));
  }

  lemma PayingPays(env: Env, w: World, won: Team, w': World)
    requires w.Ok() && w' == PayTeams(env, w, won)
    ensures PaidAll(env.cfg, w, won, w')
  {}

  // ---- The beginning of the next

  /** A weapon that stays in the hand has its trigger released. */
  function Released(t: Trigger, inHand: bool): Trigger { if inHand then Trigger(false, t.just, t.since) else t }

  /** The loadout of who keeps his side, before the bomb is handed out: money, guns, ammunition and knife stay, what is
      in the hand is released, and who had the bomb there has his secondary gun there instead. */
  predicate KeepsLoadout(l: Loadout, l': Loadout) {
    && l'.money == l.money && l'.primary.Some? == l.primary.Some?
    && (l.primary.Some? ==>
        var g := l.primary.value; l'.primary.value == g.(trigger := Released(g.trigger, l.equipped == PrimarySlot)))
    && l'.secondary == l.secondary.(trigger := Released(l.secondary.trigger, l.equipped == SecondarySlot))
    && l'.knife == l.knife.(trigger := Released(l.knife.trigger, l.equipped == KnifeSlot))
    && l'.equipped == if l.equipped == BombSlot && l.hasBomb then SecondarySlot else l.equipped
  }

  /** The loadout of who changes sides: money and guns as at the start. */
  predicate StartsAnew(cfg: Settings, l: Loadout, l': Loadout) {
    && l'.money == cfg.initialMoney % 0x1_0000 && l'.primary == None && l'.secondary == O.NewOf(cfg, Glock)
    && l'.knife == l.knife && l'.equipped == SecondarySlot
  }

  /** Everybody stands still in his place with his whole life, and counters and bonus stay. */
  predicate Renewed(cfg: Settings, p: Player, spot: (int, int), swap: bool, holder: bool, p': Player) {
    && p'.life == cfg.initialLife && p'.shot == None && p'.orientation == 0.0
    && !p'.up && !p'.down && !p'.left && !p'.right && !p'.making && !p'.onSite && !p'.planting && !p'.defusing
    && p'.rect == Rect(spot.0, spot.1, p.rect.w, p.rect.h)
    && (p'.team == p.team <==> !swap)
    && p'.kills == p.kills && p'.deaths == p.deaths && p'.bonifications == p.bonifications
    && p'.loadout.hasBomb == holder
    && if swap then StartsAnew(cfg, p.loadout, p'.loadout) else KeepsLoadout(p.loadout, p'.loadout)
  }

  /** Before the bomb is handed out. */
  lemma OneRenewed(cfg: Settings, p: Player, spot: (int, int), swap: bool, p': Player)
    requires p' == PutAt(Restarted(cfg, if swap then Swapped(cfg, p) else p), spot)
    ensures Renewed(cfg, p, spot, swap, false, p')
  {}

  lemma Handed(cfg: Settings, p: Player, spot: (int, int), swap: bool, p1: Player, p': Player)
    requires Renewed(cfg, p, spot, swap, false, p1) && p' == p1.(loadout := p1.loadout.(hasBomb := true))
    ensures Renewed(cfg, p, spot, swap, true, p')
  {}

  /** Who joins stands at a corner of the map until the first round, with his whole life and what everybody starts
      with; his knife need not wait for its first stab. */
  lemma NewcomerIs(cfg: Settings, team: Team)
    requires cfg.Valid()
    ensures var p := NewPlayer(cfg, team);
            var l := p.loadout;
            && p.team == team && p.life == cfg.initialLife && p.kills == 0 && p.deaths == 0 && p.bonifications == 0
            && p.rect == Rect(-100, -100, 320, 320)
            && l.money == cfg.initialMoney && l.primary == None && l.secondary == O.NewOf(cfg, Glock) && !l.hasBomb
            && l.equipped == SecondarySlot && l.knife.sinceStab * cfg.knifeAttackRate as real == 60.0
  {
    var rate := cfg.knifeAttackRate as real;
    assert 60.0 / rate * rate == 60.0;
  }

  /** The gun of the i-th entry of a map's list. */
  function LaidGun(cfg: Settings, entry: (GunType, int, int), id: nat): Item {
    DroppedGun(Rect(400 * entry.1, 400 * entry.2, 200, 200), id, O.NewOf(cfg, entry.0))
  }

  lemma {:induction false} GunsAreLaid(env: Env, w: World, guns: seq<(GunType, int, int)>, w': World)
    requires w.Ok() && w' == LayGuns(env, w, guns)
    ensures |w'.items| == |w.items| + |guns| && w'.items[..|w.items|] == w.items
    ensures w'.nextDropId == w.nextDropId + |guns|
    ensures forall i :: 0 <= i < |guns| ==> w'.items[|w.items| + i] == LaidGun(env.cfg, guns[i], w.nextDropId + i)
    ensures w' == w.(items := w'.items, nextDropId := w'.nextDropId)
    decreases |guns|
  {
    if guns != [] {
      var first := LaidGun(env.cfg, guns[0], w.nextDropId);
      var w1 := AddItem(w, first);
      GunsAreLaid(env, w1, guns[1..], w');
      forall i | 0 <= i < |guns| ensures w'.items[|w.items| + i] == LaidGun(env.cfg, guns[i], w.nextDropId + i) {
        if i == 0 { assert w'.items[..|w1.items|][|w.items|] == first; } else { assert guns[i] == guns[1..][i - 1]; }
      }
      assert w'.items[..|w.items|] == w'.items[..|w1.items|][..|w.items|];
    }
  }

  /** The guns of the map, and nothing else, are on the ground, each in its place. */
  ghost predicate GunsLie(cfg: Settings, guns: seq<(GunType, int, int)>, w': World) {
    && |w'.items| == |guns| && w'.nextDropId == |guns|
    && forall i :: 0 <= i < |guns| ==> w'.items[i] == LaidGun(cfg, guns[i], i)
  }

  /** The players after a restart in which nobody, or `h`, has been handed the bomb. */
  function Renewal(cfg: Settings, p: Player, swap: bool, holds: bool): Player {
    var q := Restarted(cfg, if swap then Swapped(cfg, p) else p);
    if holds then q.(loadout := q.loadout.(hasBomb := true)) else q
  }

  lemma RenewalRenews(cfg: Settings, p: Player, spot: (int, int), swap: bool, holds: bool, p': Player)
    requires p' == PutAt(Renewal(cfg, p, swap, holds), spot)
    ensures Renewed(cfg, p, spot, swap, holds, p')
  {
    var p1 := PutAt(Renewal(cfg, p, swap, false), spot);
    OneRenewed(cfg, p, spot, swap, p1);
    if holds { Handed(cfg, p, spot, swap, p1, p'); }
  }

  lemma RestartRenews(env: Env, w: World, swap: bool, pick: nat, w': World) returns (h: Option<Name>)
    requires w.Ok() && w' == RestartPlayers(env, if swap then SwapTeams(env, w) else w, pick)
    ensures w'.players.Keys == w.players.Keys
    ensures forall n <- w.players :: w'.players[n] == Renewal(env.cfg, w.players[n], swap, h == Some(n))
    ensures if h.Some? then h.value in w.players && w'.players[h.value].team == TT
            else forall n <- w.order :: w'.players[n].team != TT
    ensures w' == w.(players := w'.players, bomb := RestartBomb(w.bomb))
  {
    var w1 := RestartAll(env, if swap then SwapTeams(env, w) else w);
    var tts := Terrorists(w1, w1.order);
    h := if tts == [] then None else Some(tts[pick % |tts|]);
  }

  /** However a round ended, this is how the next begins. */
  lemma RoundRenews(env: Env, w: World, swap: bool, guns: seq<(GunType, int, int)>, d: Draw, w': World)
    returns (h: Option<Name>)
    requires w.Ok() && w' == NewRound(env, w, swap, guns, d)
    ensures w'.players.Keys == w.players.Keys
    ensures forall n <- w.players ::
              Renewed(env.cfg, w.players[n], d.spots(n), swap, h == Some(n), w'.players[n])
    ensures if h.Some? then h.value in w.players && w'.players[h.value].team == TT
            else forall n <- w.order :: w'.players[n].team != TT
    ensures GunsLie(env.cfg, guns, w')
    ensures w'.bomb == Bomb(Trigger(false, false, 0.0), NotPlanted, w.bomb.justPlanted, 0.0, None)
    ensures w'.deaths == w.deaths && w'.crashed == w.crashed
  {
    var w1 := RestartPlayers(env, if swap then SwapTeams(env, w) else w, d.pick);
    h := RestartRenews(env, w, swap, d.pick, w1);
    var w2 := PlacePlayers(w1, d.spots);
    forall n | n in w.players ensures Renewed(env.cfg, w.players[n], d.spots(n), swap, h == Some(n), w2.players[n]) {
      RenewalRenews(env.cfg, w.players[n], d.spots(n), swap, h == Some(n), w2.players[n]);
    }
    GunsAreLaid(env, w2.(items := [], nextDropId := 0), guns, w');
  }

  // ---- The phases

  predicate SideIsDead(w: World, t: Team) { forall n <- w.players :: w.players[n].team == t ==> w.players[n].life == 0 }

  /** The terrorists can still win dead if they have planted the bomb. */
  predicate Decided(w: World) {
    || SideIsDead(w, CT) || (SideIsDead(w, TT) && w.bomb.status == NotPlanted)
    || w.bomb.status == Exploded || w.bomb.status == Defused
  }

  /** How long a phase lasts: its time, but for the attack only until the round is decided. */
  lemma PhaseLasts(env: Env, m: Match, phase: Phase, ticks: nat)
    requires env.Valid()
    ensures var m' := EnterPhase(env.cfg, m, phase).(ticks := ticks);
            var seconds := match phase
                           case WaitingPlayers => env.cfg.waitingDuration
                           case Buy => env.cfg.buyDuration
                           case Attack => env.cfg.attackDuration
                           case RoundEnded => env.cfg.betweenRoundsDuration;
            Continues(env.cfg, m') <==> ticks < seconds * env.cfg.fps && !(phase == Attack && Decided(m.world))
  {
    F.SecondsWithin(env.cfg, ticks, Rounds.Duration(env.cfg, phase));
    assert AllDead(m.world, CT) <==> SideIsDead(m.world, CT);
    assert AllDead(m.world, TT) <==> SideIsDead(m.world, TT);
  }
}
