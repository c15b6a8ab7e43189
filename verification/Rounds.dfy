/** Rounds and phases: the game loop of src/server/game_phase.cpp and the match of
    src/server/cs2d_game.cpp, over the world of World.dfy. */
module Rounds {
  import opened Settings
  import opened Geometry
  import opened Slide
  import opened Arms
  import opened World

  // ---- A new round of the world

  function OtherTeam(t: Team): Team { if t == CT then TT else CT }

  /** GameWorld::swap_teams for one player. */
  function Swapped(cfg: Settings, p: Player): Player {
    p.(team := OtherTeam(p.team), loadout := ResetLoadout(cfg, p.loadout, false))
  }

  function SwapTeams(env: Env, w: World): (r: World)
    requires w.Ok()
    ensures r.Ok() && SameBomb(w, r)
  {
    w.(players := map n <- w.players :: Swapped(env.cfg, w.players[n]))
  }

  /** Player::restart. */
  function Restarted(cfg: Settings, p: Player): Player {
    p.(life := cfg.initialLife, up := false, down := false, left := false, right := false,
       making := false, onSite := false, planting := false, defusing := false, shot := None, orientation := 0.0,
       loadout := WithoutBomb(p.loadout.OnTrigger((t: Trigger) => t.StopAction())))
  }

  function Terrorists(w: World, names: seq<Name>): (r: seq<Name>)
    requires forall n <- names :: n in w.players
    ensures forall n <- r :: n in names && w.players[n].team == TT
    ensures forall n <- names :: w.players[n].team == TT ==> n in r
  {
    if names == [] then []
    else
      var n := names[|names| - 1];
      Terrorists(w, names[..|names| - 1]) + (if w.players[n].team == TT then [n] else [])
  }

  function HandBomb(w: World, n: Name): (r: World)
    requires w.Ok() && n in w.players
    ensures r.Ok() && SameBomb(w, r)
  {
    SetPlayer(w, n, w.players[n].(loadout := w.players[n].loadout.(hasBomb := true)))
  }

  function RestartAll(env: Env, w: World): (r: World)
    requires w.Ok()
    ensures r.Ok() && SameRoster(w, r)
  {
    w.(players := map n <- w.players :: Restarted(env.cfg, w.players[n]), bomb := RestartBomb(w.bomb))
  }

  /** `pick` is the random draw among the terrorists. */
  function DrawHolder(w: World, pick: nat): (r: World)
    requires w.Ok()
    ensures r.Ok() && SameBomb(w, r)
  {
    var tts := Terrorists(w, w.order);
    if tts == [] then w else HandBomb(w, tts[pick % |tts|])
  }

  /** GameWorld::restart_players. */
  function RestartPlayers(env: Env, w: World, pick: nat): (r: World)
    requires w.Ok()
    ensures r.Ok() && SameRoster(w, r)
  {
    DrawHolder(RestartAll(env, w), pick)
  }

  function PutAt(p: Player, spot: (int, int)): Player { p.(rect := p.rect.(x := spot.0, y := spot.1)) }

  /** Where spawn_players leaves everybody (GameWorld.SpawnPlayers of Engine.dfy searches for the places). */
  function PlacePlayers(w: World, spots: Name -> (int, int)): (r: World)
    requires w.Ok()
    ensures r.Ok() && SameBomb(w, r)
  {
    w.(players := map n <- w.players :: PutAt(w.players[n], spots(n)))
  }

  function LayGuns(env: Env, w: World, guns: seq<(GunType, int, int)>): (r: World)
    requires w.Ok()
    ensures r.Ok() && SameBomb(w, r) && r.players == w.players
    decreases |guns|
  {
    if guns == [] then w
    else
      var (kind, x, y) := guns[0];
      LayGuns(env, AddItem(w, DroppedGun(Rect(x * BLOCK, y * BLOCK, ITEM, ITEM), w.nextDropId, NewGun(env.cfg, kind))),
          guns[1..])
  }

  /** GameWorld::restart_items. */
  function RestartItems(env: Env, w: World, guns: seq<(GunType, int, int)>): (r: World)
    requires w.Ok()
    ensures r.Ok() && SameBomb(w, r) && r.players == w.players
  {
    LayGuns(env, w.(items := [], nextDropId := 0), guns)
  }

  /** The draws of a new round: the terrorist who gets the bomb and everybody's place. */
  datatype Draw = Draw(pick: nat, spots: Name -> (int, int))

  function NewRound(env: Env, w: World, swap: bool, guns: seq<(GunType, int, int)>, d: Draw): (r: World)
    requires w.Ok()
    ensures r.Ok() && SameRoster(w, r)
  {
    var w1 := if swap then SwapTeams(env, w) else w;
    RestartItems(env, PlacePlayers(RestartPlayers(env, w1, d.pick), d.spots), guns)
  }

  // ---- The match

  /** `ticks` is the phase's clock in frames and `delta` the frames that the next iteration accounts
      for. `verdicts` is the history of the rounds decided, which the game does not keep. */
  datatype Match = Match(
    world: World, phase: Phase, ticks: nat, delta: nat, duration: nat,
    round: nat, winner: Option<Team>, ctWins: nat, ttWins: nat, verdicts: seq<Team>, over: bool)

  /** One iteration's input: the commands waiting in the queue, the draws, how many frames the clock
      moves on (at least one, see Clock.dfy), and whether any client is left to send to. */
  datatype Frame = Frame(commands: seq<(Name, Command)>, luck: Luck, advance: nat, anyAlive: bool, draw: Draw)

  function Seconds(cfg: Settings, ticks: nat): real
    requires cfg.Valid()
  {
    ticks as real / cfg.fps as real
  }

  predicate AllDead(w: World, t: Team) { forall n <- w.players :: w.players[n].team == t ==> !w.players[n].Alive() }

  /** CS2DGame::current_round_has_a_winner. */
  predicate HasWinner(w: World) {
    || (AllDead(w, TT) && w.bomb.status == NotPlanted)
    || AllDead(w, CT) || w.bomb.status == Exploded || w.bomb.status == Defused
  }

  /** CS2DGame::decide_winner, the first condition. */
  predicate CtWin(w: World) {
    (AllDead(w, TT) && w.bomb.status == NotPlanted) || w.bomb.status == Defused || !HasWinner(w)
  }

  predicate TtWin(w: World) { !CtWin(w) && (AllDead(w, CT) || w.bomb.status == Exploded) }

  /** GameWorld::apply_won_round_bonus for one player. */
  function Paid(cfg: Settings, p: Player, won: Team): Player {
    p.(loadout := p.loadout.AddMoney(if p.team == won then cfg.wonRoundBonus else cfg.lostRoundBonus))
  }

  function PayTeams(env: Env, w: World, won: Team): (r: World)
    requires w.Ok()
    ensures r.Ok() && SameBomb(w, r)
  {
    w.(players := map n <- w.players :: Paid(env.cfg, w.players[n], won))
  }

  function DecideWinner(env: Env, m: Match): (r: Match)
    requires m.world.Ok()
    ensures r.world.Ok()
  {
    if CtWin(m.world) then
      m.(winner := Some(CT), ctWins := m.ctWins + 1, verdicts := m.verdicts + [CT], world := PayTeams(env, m.world, CT))
    else if TtWin(m.world) then
      m.(winner := Some(TT), ttWins := m.ttWins + 1, verdicts := m.verdicts + [TT], world := PayTeams(env, m.world, TT))
    else m
  }

  /** The sides swap after half of the rounds. */
  predicate SwapsNow(cfg: Settings, round: nat) { round == cfg.rounds / 2 + 1 }

  /** CS2DGame::begin_new_round. */
  function BeginNewRound(env: Env, m: Match, guns: seq<(GunType, int, int)>, d: Draw): (r: Match)
    requires m.world.Ok()
    ensures r.world.Ok()
  {
    var swap := SwapsNow(env.cfg, m.round + 1);
    m.(winner := None, round := m.round + 1,
       ctWins := if swap then m.ttWins else m.ctWins, ttWins := if swap then m.ctWins else m.ttWins,
       world := NewRound(env, m.world, swap, guns, d))
  }

  function Duration(cfg: Settings, phase: Phase): nat {
    match phase
    case WaitingPlayers => cfg.waitingDuration
    case Buy => cfg.buyDuration
    case Attack => cfg.attackDuration
    case RoundEnded => cfg.betweenRoundsDuration
  }

  function EnterPhase(cfg: Settings, m: Match, phase: Phase): Match {
    m.(phase := phase, ticks := 0, delta := 0, duration := Duration(cfg, phase))
  }

  /** The loop test of GamePhase::run, for a game that nobody stopped. */
  predicate Continues(cfg: Settings, m: Match)
    requires cfg.Valid()
  {
    !(m.phase == Attack && HasWinner(m.world)) && Seconds(cfg, m.ticks) < m.duration as real
  }

  function ExecuteAll(env: Env, w: World, commands: seq<(Name, Command)>, buying: bool): (r: World)
    requires env.Valid() && w.Ok()
    ensures r.Ok() && SameFuse(w, r)
    decreases |commands|
  {
    if commands == [] then w
    else ExecuteAll(env, Execute(env, w, commands[0].0, commands[0].1, buying), commands[1..], buying)
  }

  /** Commands and tick of one iteration. */
  function PlayFrame(env: Env, w: World, f: Frame, frames: nat, buying: bool): (r: World)
    requires env.Valid() && w.Ok()
    ensures r.Ok() && SameRoster(w, r)
  {
    Tick(env, ExecuteAll(env, w, f.commands, buying), frames, f.luck)
  }

  /** The body of the loop. Nobody to send to stops the game, and so does an exception. */
  function Iterate(env: Env, m: Match, f: Frame): (r: Match)
    requires env.Valid() && m.world.Ok()
    ensures r.world.Ok()
  {
    if !f.anyAlive then m.(over := true)
    else
      var w := PlayFrame(env, m.world, f, m.delta, m.phase == Buy);
      var planted := m.phase == Attack && w.bomb.justPlanted;
      m.(world := w,
         ticks := if planted then 0 else m.ticks + m.delta,
         duration := if planted then env.cfg.detonationTime else m.duration,
         delta := f.advance + 1,
         over := w.crashed)
  }

  /** What follows the loop: the phase's `end`, and the count of rounds in CS2DGame::run. */
  function EndPhase(env: Env, m: Match, guns: seq<(GunType, int, int)>, d: Draw): (r: Match)
    requires env.Valid() && m.world.Ok()
    ensures r.world.Ok()
  {
    match m.phase
    case Buy => EnterPhase(env.cfg, m, Attack)
    case Attack => EnterPhase(env.cfg, DecideWinner(env, m), RoundEnded)
    case _ =>
      var m1 := EnterPhase(env.cfg, BeginNewRound(env, m, guns, d), Buy);
      m1.(over := m1.round > env.cfg.rounds)
  }

  /** One step of the game thread: a turn of the loop, or the end of the phase. */
  function Step(env: Env, m: Match, guns: seq<(GunType, int, int)>, f: Frame): (r: Match)
    requires env.Valid() && m.world.Ok()
    ensures r.world.Ok()
  {
    if m.over then m
    else if Continues(env.cfg, m) then Iterate(env, m, f)
    else EndPhase(env, m, guns, f.draw)
  }

  function Run(env: Env, m: Match, guns: seq<(GunType, int, int)>, fs: seq<Frame>): (r: Match)
    requires env.Valid() && m.world.Ok()
    ensures r.world.Ok()
  {
    if fs == [] then m else Step(env, Run(env, m, guns, fs[..|fs| - 1]), guns, fs[|fs| - 1])
  }

  /** The match at the end of the waiting phase: begin_new_round and the first purchases. */
  function Kickoff(env: Env, w: World, guns: seq<(GunType, int, int)>, d: Draw): (r: Match)
    requires env.Valid() && w.Ok()
    ensures r.world.Ok()
  {
    EndPhase(env, Match(w, WaitingPlayers, 0, 0, env.cfg.waitingDuration, 0, None, 0, 0, [], false), guns, d)
  }
}
