/** The objects of the round engine, which update one another in place: src/server/bomb.cpp, player.cpp and
    game_world.cpp. Every method is proved to do what the function of World.dfy or Rounds.dfy says on the
    value that the objects stand for, so that all that is proved of those holds of the objects. Guns,
    knives and loadouts have one owner each and are values here. */
module Engine {
  import opened Basics
  import opened Settings
  import opened Geometry
  import opened Slide
  import opened Arms
  import W = World
  import R = Rounds
  import A = Admissions

  type Name = W.Name

  // ---- The bomb

  class Bomb {
    var trigger: Trigger
    var status: BombStatus
    var justPlanted: bool
    var sincePlanted: real
    var plantation: Option<Rect>

    constructor ()
      ensures View() == W.NEW_BOMB
    {
      trigger, status, justPlanted, sincePlanted, plantation := IDLE, NotPlanted, false, 0.0, None;
    }

    function View(): W.Bomb
      reads this
    {
      W.Bomb(trigger, status, justPlanted, sincePlanted, plantation)
    }

    /** Bomb::action; a bomb that was defused does not react. */
    method Action()
      modifies this
      ensures View() == old(View()).(trigger := if status == Defused then old(trigger) else old(trigger).Action())
    {
      if status == Defused { return; }
      trigger := trigger.Action();
    }

    method StopAction()
      modifies this
      ensures View() == old(View()).(trigger := old(trigger).StopAction())
    {
      trigger := trigger.StopAction();
    }

    /** Bomb::update_planted. */
    method UpdatePlanted(cfg: Settings, dt: real)
      modifies this
      ensures View() == W.UpdatePlanted(cfg, old(View()), dt)
    {
      justPlanted := false;
      sincePlanted := sincePlanted + dt;
      if trigger.just {
        trigger := trigger.(just := false);
      } else {
        trigger := trigger.(since := trigger.since + dt);
      }
      if sincePlanted >= cfg.detonationTime as real {
        status := Exploded;
        return;
      }
      if trigger.making && trigger.since >= cfg.defuseTime as real {
        trigger := trigger.(since := 0.0, making := false);
        status := Defused;
      }
    }

    /** Bomb::restart, which leaves the flag just_been_planted as it is. */
    method Restart()
      modifies this
      ensures View() == W.RestartBomb(old(View()))
    {
      StopAction();
      trigger := trigger.(just := false, since := 0.0);
      status := NotPlanted;
      sincePlanted := 0.0;
      plantation := None;
    }
  }

  // ---- A player

  /** A player of the game. Its attributes are kept in one record, which the methods update in place;
      the object is shared between the table of players and the list of collidables. */
  class Player {
    const name: Name
    var state: W.Player

    constructor (cfg: Settings, name: Name, team: Team)
      requires cfg.Valid()
      ensures this.name == name
      ensures state == W.NewPlayer(cfg, team)
    {
      this.name := name;
      state := W.Player(team, false, false, false, false, false, 0.0, cfg.initialLife, None, false, false, false,
                        0, 0, 0, NewLoadout(cfg), Rect(-100, -100, PLAYER, PLAYER));
    }

    method SetMoving(m: Movement, on: bool)
      modifies this
      ensures state == W.SetMoving(old(state), m, on)
    {
      match m
      case Up => state := state.(up := on);
      case Down => state := state.(down := on);
      case Left => state := state.(left := on);
      case Right => state := state.(right := on);
    }

    /** Player::receive_damage, when it is the last. */
    method Die()
      modifies this
      ensures state == W.Corpse(old(state))
    {
      state := state.(life := 0);
      state := state.(deaths := state.deaths + 1);
    }

    /** Player::count_kill. */
    method CountKill(cfg: Settings, victim: Player, bonus: nat)
      modifies this
      ensures state == if old(victim.state.team == state.team) then W.Penalized(cfg, old(state))
                       else W.Rewarded(old(state), bonus)
    {
      if victim.state.team == state.team {
        state := state.(bonifications := state.bonifications - cfg.teamKillPenalty);
        state := state.(loadout := state.loadout.DecreaseMoneyBy(cfg.teamKillPenalty));
      } else {
        state := state.(kills := state.kills + 1);
        state := state.(bonifications := state.bonifications + bonus);
        state := state.(loadout := state.loadout.AddMoney(bonus));
      }
    }

    /** Player::leave_bomb. */
    method LeaveBomb()
      modifies this
      ensures state == old(state).(loadout := W.WithoutBomb(old(state).loadout))
    {
      if state.loadout.equipped == BombSlot && state.loadout.hasBomb {
        state := state.(loadout := state.loadout.(equipped := SecondarySlot));
      }
      state := state.(loadout := state.loadout.(hasBomb := false));
    }

    /** Player::restart, but for the bomb, whose trigger Bomb::restart stops. */
    method Restart(cfg: Settings)
      modifies this
      ensures state == R.Restarted(cfg, old(state))
    {
      state := state.(life := cfg.initialLife, up := false, down := false, left := false, right := false);
      state := state.(making := false, onSite := false, planting := false, defusing := false);
      state := state.(shot := None, orientation := 0.0);
      state := state.(loadout := state.loadout.OnTrigger((t: Trigger) => t.StopAction()));
      LeaveBomb();
    }

    /** Player::change_team, with a new loadout. */
    method Swap(cfg: Settings)
      modifies this
      ensures state == R.Swapped(cfg, old(state))
    {
      state := state.(team := R.OtherTeam(state.team));
      state := state.(loadout := ResetLoadout(cfg, state.loadout, false));
    }

    /** The bonus of a round, won or lost. */
    method ReceiveBonus(cfg: Settings, won: Team)
      modifies this
      ensures state == R.Paid(cfg, old(state), won)
    {
      if state.team == won {
        state := state.(loadout := state.loadout.AddMoney(cfg.wonRoundBonus));
      } else {
        state := state.(loadout := state.loadout.AddMoney(cfg.lostRoundBonus));
      }
    }

    /** GameWorld::make_step_player. */
    method MakeStep(ts: seq<Target>, dx: int, dy: int)
      modifies this
      ensures state == old(state).(rect := Slide.MakeStep(ts, old(state).rect, dx, dy))
    {
      StepX(ts, dx);
      StepY(ts, dy);
    }

    method StepX(ts: seq<Target>, dx: int)
      modifies this
      ensures state == old(state).(rect := SlideX(ts, old(state).rect, dx))
    {
      if dx == 0 { return; }
      state := state.(rect := state.rect.(x := state.rect.x + dx));
      var c := CollidingObject(ts, state.rect);
      if c.Some? {
        if dx > 0 {
          state := state.(rect := state.rect.(x := c.value.x - state.rect.w));
        } else {
          state := state.(rect := state.rect.(x := c.value.x + c.value.w));
        }
      }
    }

    method StepY(ts: seq<Target>, dy: int)
      modifies this
      ensures state == old(state).(rect := SlideY(ts, old(state).rect, dy))
    {
      if dy == 0 { return; }
      state := state.(rect := state.rect.(y := state.rect.y + dy));
      var c := CollidingObject(ts, state.rect);
      if c.Some? {
        if dy > 0 {
          state := state.(rect := state.rect.(y := c.value.y - state.rect.h));
        } else {
          state := state.(rect := state.rect.(y := c.value.y + c.value.h));
        }
      }
    }
  }

  /** GameWorld::colliding_object_with. */
  method CollidingObject(ts: seq<Target>, r: Rect) returns (c: Option<Rect>)
    ensures c == CollidingWith(ts, r)
  {
    var i := 0;
    while i < |ts|
      invariant i <= |ts| && CollidingWith(ts, r) == CollidingWith(ts[i..], r)
    {
      if ts[i].solid && ts[i].rect.IntersectsWith(r) { return Some(ts[i].rect); }
      assert ts[i..][1..] == ts[i + 1..];
      i := i + 1;
    }
    return None;
  }

  // ---- The world

  function Wounded(env: W.Env, w: W.World, me: Name, v: Name, hits: seq<nat>, bonus: nat): (r: W.World)
    requires env.Valid() && w.Ok() && me in w.players && v in w.players
    ensures r.Ok()
  {
    var w2 := W.ReceiveHits(env, w, v, hits, W.ByPlayer(me));
    if w2.players[v].Alive() then w2 else W.CountKill(env, w2, me, v, bonus)
  }

  function Sited(env: W.Env, w: W.World, me: Name): (w': W.World)
    requires w.Ok() && me in w.players
    ensures w'.Ok()
  {
    W.SetPlayer(w, me, w.players[me].(onSite := W.OnSite(env, w.players[me].rect)))
  }

  function SteppedTo(env: W.Env, w: W.World, me: Name, r: Rect): (w': W.World)
    requires w.Ok() && me in w.players
    ensures w'.Ok()
  {
    Sited(env, W.SetPlayer(w, me, w.players[me].(rect := r)), me)
  }

  lemma WalkIsStep(env: W.Env, w: W.World, me: Name, stepped: nat)
    requires env.Valid() && w.Ok() && me in w.players
    ensures var (dx, dy) := W.StepOf(w.players[me], stepped);
            W.Walk(env, w, me, stepped)
            == SteppedTo(env, w, me, Slide.MakeStep(W.Targets(env, w, me), w.players[me].rect, dx, dy))
  {}

  function Landed(
    env: W.Env, w: W.World, me: Name, h: Hit, hits: seq<nat>, reach: Option<nat>, bonus: nat): (r: W.World)
    requires env.Valid() && w.Ok() && me in w.players && h.index < |env.statics| + |w.joined|
    ensures r.Ok()
  {
    if h.index < |env.statics| then w
    else
      Wounded(env, w, me, w.joined[h.index - |env.statics|],
              if reach.Some? && h.impact.t >= reach.value as real then [] else hits, bonus)
  }

  /** What a shot that hits is, in the two steps that the program takes. */
  lemma StrikeLands(
    env: W.Env, w: W.World, me: Name, angle: real, hits: seq<nat>, reach: Option<nat>, bonus: nat, h: Hit, w1: W.World)
    requires env.Valid() && w.Ok() && me in w.players
    requires env.caster(w.players[me].rect, angle, W.Targets(env, w, me)) == Some(h)
    requires w1 == W.SetPlayer(w, me, w.players[me].(shot := Some(h.impact.point)))
    ensures h.index < |env.statics| + |w.joined|
    ensures W.Strike(env, w, me, angle, hits, reach, bonus) == Landed(env, w1, me, h, hits, reach, bonus)
  {
    if h.index < |env.statics| {
      assert W.Shoot(env, w, me, angle) == Some((None, h.impact));
    } else {
      assert W.Shoot(env, w, me, angle) == Some((Some(w.joined[h.index - |env.statics|]), h.impact));
    }
  }

  lemma {:induction false} NothingInReach(w: W.World, me: Name, i: nat)
    requires me in w.players && forall j: nat :: i <= j < |w.items| ==> !W.InReach(w, me, j)
    ensures W.OldestInReach(w, me, i) == None
    decreases |w.items| - i
  {
    if i < |w.items| { NothingInReach(w, me, i + 1); }
  }

  /** The first of the least in an ascending list of the items in reach is the oldest in reach. */
  lemma {:induction false} FirstOldest(w: W.World, me: Name, i: nat, pickable: seq<nat>, best: nat)
    requires me in w.players && best < |pickable| && i <= pickable[best]
    requires forall k :: 0 <= k < |pickable| ==> pickable[k] < |w.items| && W.InReach(w, me, pickable[k])
    requires forall k, l :: 0 <= k < l < |pickable| ==> pickable[k] < pickable[l]
    requires forall j: nat :: i <= j && W.InReach(w, me, j) ==> j in pickable
    requires forall j :: 0 <= j < best ==> w.items[pickable[best]].id < w.items[pickable[j]].id
    requires forall j :: best <= j < |pickable| ==> w.items[pickable[best]].id <= w.items[pickable[j]].id
    ensures W.OldestInReach(w, me, i) == Some(pickable[best])
    decreases |w.items| - i
  {
    if i < pickable[best] {
      FirstOldest(w, me, i + 1, pickable, best);
    } else {
      var rest := W.OldestInReach(w, me, i + 1);
      if rest.Some? { assert rest.value in pickable; }
    }
  }

  /** In the middle of the block of one of the spawn points. */
  predicate SpawnedAt(spawns: seq<(int, int)>, r: Rect) {
    exists s <- spawns :: r.x == s.0 * BLOCK + (BLOCK - PLAYER) / 2 && r.y == s.1 * BLOCK + (BLOCK - PLAYER) / 2
  }

  /** No static block and no other live player is where a player is. */
  predicate Free(env: W.Env, w: W.World, n: Name)
    requires w.Ok() && n in w.players
  {
    && (forall s <- env.statics :: !s.IntersectsWith(w.players[n].rect))
    && (forall m <- w.joined :: m != n && w.players[m].Alive() ==> !w.players[m].rect.IntersectsWith(w.players[n].rect))
  }

  lemma FreeIsClear(env: W.Env, w: W.World, n: Name)
    requires w.Ok() && n in w.players
    ensures CollidingWith(W.Targets(env, w, n), w.players[n].rect).None? <==> Free(env, w, n)
  {
    var ts, r, k := W.Targets(env, w, n), w.players[n].rect, |env.statics|;
    if CollidingWith(ts, r).None? {
      forall i | 0 <= i < k ensures !env.statics[i].IntersectsWith(r) { assert ts[i] in ts; }
      forall i | 0 <= i < |w.joined| && w.joined[i] != n && w.players[w.joined[i]].Alive()
        ensures !w.players[w.joined[i]].rect.IntersectsWith(r)
      {
        assert ts[k + i] in ts;
      }
    } else {
      var c := CollidingWith(ts, r).value;
      var i :| 0 <= i < |ts| && ts[i] == Target(c, true);
      if i < k { assert env.statics[i] in env.statics; } else { assert w.joined[i - k] in w.joined; }
    }
  }

  function Moved(w: W.World, n: Name, r: Rect): (w': W.World)
    requires w.Ok() && n in w.players
    ensures w'.Ok() && W.SameBomb(w, w')
  {
    W.SetPlayer(w, n, w.players[n].(rect := r))
  }

  predicate SameSize(r: Rect, r': Rect) { r'.w == r.w && r'.h == r.h }

  /** Nothing but places has changed. */
  ghost predicate Relocated(w: W.World, w': W.World) {
    && w' == w.(players := w'.players) && w'.players.Keys == w.players.Keys
    && forall n <- w.players :: w'.players[n] == w.players[n].(rect := w'.players[n].rect)
                               && SameSize(w.players[n].rect, w'.players[n].rect)
  }

  /** The k-th player in map order stands well among those before it. */
  predicate StandsWell(env: W.Env, w: W.World, ctSpawns: seq<(int, int)>, ttSpawns: seq<(int, int)>, k: nat)
    requires w.Ok() && k < |w.order|
  {
    var p := w.players[w.order[k]];
    && SpawnedAt(if p.team == TT then ttSpawns else ctSpawns, p.rect)
    && (forall s <- env.statics :: !s.IntersectsWith(p.rect))
    && (forall l :: 0 <= l < k && w.players[w.order[l]].Alive() ==> !w.players[w.order[l]].rect.IntersectsWith(p.rect))
  }

  predicate Settled(env: W.Env, w: W.World, ctSpawns: seq<(int, int)>, ttSpawns: seq<(int, int)>, i: nat)
    requires w.Ok() && i <= |w.order|
  {
    forall k: nat :: k < i ==> StandsWell(env, w, ctSpawns, ttSpawns, k)
  }

  lemma RelocatedNext(w0: W.World, w: W.World, n: Name, r: Rect)
    requires w0.Ok() && w.Ok() && Relocated(w0, w) && n in w.players && SameSize(w.players[n].rect, r)
    ensures Relocated(w0, Moved(w, n, r))
  {}

  lemma SettledNext(env: W.Env, w: W.World, ctSpawns: seq<(int, int)>, ttSpawns: seq<(int, int)>, i: nat, r: Rect)
    requires w.Ok() && i < |w.order| && Lists(w.order, w.players.Keys) && Lists(w.joined, w.players.Keys)
    requires Settled(env, w, ctSpawns, ttSpawns, i)
    requires var p := w.players[w.order[i]];
             SpawnedAt(if p.team == TT then ttSpawns else ctSpawns, r)
    requires Free(env, Moved(w, w.order[i], r), w.order[i])
    ensures Settled(env, Moved(w, w.order[i], r), ctSpawns, ttSpawns, i + 1)
  {
    var w' := Moved(w, w.order[i], r);
    ListsOnce(w.order, w.players.Keys);
    ListsOnce(w.joined, w.players.Keys);
    forall k: nat | k < i + 1 ensures StandsWell(env, w', ctSpawns, ttSpawns, k) {
      if k < i {
        assert StandsWell(env, w, ctSpawns, ttSpawns, k);
        assert w'.players[w.order[k]] == w.players[w.order[k]];
        forall l | 0 <= l < k ensures w'.players[w.order[l]] == w.players[w.order[l]] {}
      } else {
        forall l | 0 <= l < i ensures w.order[l] in w.joined && w.order[l] != w.order[i] {}
      }
    }
  }

  ghost function Swapping(cfg: Settings): W.Player -> W.Player { (p: W.Player) => R.Swapped(cfg, p) }
  ghost function Paying(cfg: Settings, won: Team): W.Player -> W.Player { (p: W.Player) => R.Paid(cfg, p, won) }
  ghost function Restarting(cfg: Settings): W.Player -> W.Player { (p: W.Player) => R.Restarted(cfg, p) }

  /** One player changed by `f`, and all of them from the i-th on in map order. */
  function ChangeOne(f: W.Player -> W.Player, w: W.World, n: Name): (r: W.World)
    requires w.Ok() && n in w.players
    ensures r.Ok() && W.SameBomb(w, r)
  {
    W.SetPlayer(w, n, f(w.players[n]))
  }

  function ChangeFrom(f: W.Player -> W.Player, w: W.World, i: nat): (r: W.World)
    requires w.Ok() && i <= |w.order|
    ensures r.Ok() && W.SameBomb(w, r)
    decreases |w.order| - i
  {
    if i == |w.order| then w else ChangeFrom(f, ChangeOne(f, w, w.order[i]), i + 1)
  }

  lemma {:induction false} ChangedFrom(f: W.Player -> W.Player, w: W.World, i: nat, vs: map<Name, W.Player>)
    requires w.Ok() && i <= |w.order| && Once(w.order)
    requires vs == map n <- w.players :: if n in w.order[i..] then f(w.players[n]) else w.players[n]
    ensures ChangeFrom(f, w, i) == w.(players := vs)
    decreases |w.order| - i
  {
    if i < |w.order| {
      assert w.order[i..] == [w.order[i]] + w.order[i + 1..];
      ChangedFrom(f, ChangeOne(f, w, w.order[i]), i + 1, vs);
    }
  }

  /** Everybody listed once is changed once. */
  lemma AllChanged(f: W.Player -> W.Player, w: W.World)
    requires w.Ok() && Lists(w.order, w.players.Keys)
    ensures ChangeFrom(f, w, 0) == w.(players := map n <- w.players :: f(w.players[n]))
  {
    ListsOnce(w.order, w.players.Keys);
    assert w.order[0..] == w.order;
    ChangedFrom(f, w, 0, map n <- w.players :: f(w.players[n]));
  }

  lemma AllSwapped(env: W.Env, w: W.World)
    requires w.Ok() && Lists(w.order, w.players.Keys)
    ensures ChangeFrom(Swapping(env.cfg), w, 0) == R.SwapTeams(env, w)
  {
    AllChanged(Swapping(env.cfg), w);
  }

  lemma AllPaid(env: W.Env, w: W.World, won: Team)
    requires w.Ok() && Lists(w.order, w.players.Keys)
    ensures ChangeFrom(Paying(env.cfg, won), w, 0) == R.PayTeams(env, w, won)
  {
    AllChanged(Paying(env.cfg, won), w);
  }

  lemma AllRestarted(env: W.Env, w: W.World)
    requires w.Ok() && Lists(w.order, w.players.Keys)
    ensures ChangeFrom(Restarting(env.cfg), w, 0).(bomb := W.RestartBomb(w.bomb)) == R.RestartAll(env, w)
  {
    AllChanged(Restarting(env.cfg), w);
    SamePlayers(env.cfg, w);
  }

  lemma SamePlayers(cfg: Settings, w: W.World)
    requires w.Ok()
    ensures (map n <- w.players :: Restarting(cfg)(w.players[n]))
            == (map n <- w.players :: R.Restarted(cfg, w.players[n]))
  {}

  class GameWorld {
    const env: W.Env
    const bomb: Bomb
    var players: map<Name, Player>
    var joined: seq<Name>
    var order: seq<Name>
    var items: seq<W.Item>
    var nextDropId: nat
    ghost var deaths: seq<W.Death>
    var crashed: bool

    constructor (env: W.Env)
      requires env.Valid()
      ensures Valid() && Listed() && this.env == env && fresh(bomb) && View() == A.NOBODY
    {
      this.env := env;
      bomb := new Bomb();
      players, joined, order, items, nextDropId, deaths, crashed := map[], [], [], [], 0, [], false;
    }

    ghost predicate Valid()
      reads this`players, this`joined, this`order
    {
      && env.Valid()
      && (forall n <- joined :: n in players) && (forall n <- order :: n in players)
      && (forall n <- players :: players[n].name == n)
    }

    /** The map of players is gone through in an order that has everybody once, and so has the list of
        collidables. */
    ghost predicate Listed()
      reads this`players, this`joined, this`order
    {
      Lists(order, players.Keys) && Lists(joined, players.Keys) && A.Sorted(order)
    }

    ghost function Views(): map<Name, W.Player>
      reads this`players, players.Values
    {
      map n <- players :: players[n].state
    }

    ghost function View(): W.World
      reads this, players.Values, bomb
    {
      W.World(Views(), joined, order, items, nextDropId, bomb.View(), deaths, crashed)
    }

    // ---- Joining

    /** The loop of add_player. */
    method CountSides() returns (cts: nat, tts: nat)
      requires Valid()
      ensures cts == A.CountOn(View(), order, CT) && tts == A.CountOn(View(), order, TT)
    {
      var i := 0;
      cts, tts := 0, 0;
      while i < |order|
        invariant i <= |order| && cts == A.CountOn(View(), order[..i], CT) && tts == A.CountOn(View(), order[..i], TT)
      {
        assert order[..i + 1][..i] == order[..i];
        var p := players[order[i]];
        if p.state.team == CT { cts := cts + 1; } else { tts := tts + 1; }
        i := i + 1;
      }
      assert order[..i] == order;
    }

    /** There is at most one object more in the table, a new one. */
    twostate predicate OneEntered(before: map<Name, Player>, n: Name)
      reads this`players
    {
      players == before || (n in players && fresh(players[n]) && players == before[n := players[n]])
    }

    method ChooseSide() returns (side: Option<Team>)
      requires Valid()
      ensures side == A.NextSide(env.cfg, View())
    {
      var cts, tts := CountSides();
      if cts < env.cfg.counterTerrorists && tts < env.cfg.terrorists {
        return Some(if cts <= tts then CT else TT);
      } else if cts < env.cfg.counterTerrorists {
        return Some(CT);
      } else if tts < env.cfg.terrorists {
        return Some(TT);
      }
      return None;
    }

    /** GameWorld::add_player, for a user who is not in the game; it throws when there is no room. */
    method AddPlayer(n: Name) returns (ok: bool)
      requires Valid() && Listed() && n !in players
      modifies this`players, this`joined, this`order
      ensures Valid() && Listed() && View() == A.Seat(env.cfg, old(View()), n)
      ensures ok <==> A.NextSide(env.cfg, old(View())).Some?
      ensures OneEntered(old(players), n)
    {
      var side := ChooseSide();
      ok := side.Some?;
      if ok { PutIn(n, side.value); }
    }

    method PutIn(n: Name, team: Team)
      requires Valid() && Listed() && n !in players
      modifies this`players, this`joined, this`order
      ensures Valid() && Listed() && View() == A.SeatOn(env.cfg, old(View()), n, Some(team))
      ensures OneEntered(old(players), n)
    {
      ghost var w := View();
      assert w.players.Keys == players.Keys;
      A.SeatIsListed(env.cfg, w, n, team, A.SeatOn(env.cfg, w, n, Some(team)));
      Enter(n, team);
    }

    method Enter(n: Name, team: Team)
      requires Valid() && n !in players
      modifies this`players, this`joined, this`order
      ensures Valid() && players.Keys == old(players.Keys) + {n} == View().players.Keys
      ensures View() == A.SeatOn(env.cfg, old(View()), n, Some(team))
      ensures OneEntered(old(players), n)
    {
      var player := new Player(env.cfg, n, team);
      players := players[n := player];
      joined := joined + [n];
      order := A.Insert(order, n);
      assert Views() == old(Views())[n := player.state];
    }

    /** Only one of the players has changed. */
    twostate lemma OnlyChanged(n: Name)
      requires Valid() && players == old(players) && n in players
      requires forall m <- players :: m != n ==> players[m].state == old(players[m].state)
      ensures Views() == old(Views())[n := players[n].state]
    {}

    method DropPrimary(p: W.Player)
      requires Valid()
      modifies this`items, this`nextDropId
      ensures Valid() && View() == W.DropGun(old(View()), p)
    {
      if p.loadout.primary.Some? {
        items := items + [W.DroppedGun(Rect(p.rect.x, p.rect.y, W.ITEM, W.ITEM), nextDropId, p.loadout.primary.value)];
        nextDropId := nextDropId + 1;
      }
    }

    method DropBomb(p: W.Player)
      requires Valid()
      modifies this`items, this`nextDropId
      ensures Valid() && View() == W.DropBomb(old(View()), p)
    {
      if p.loadout.hasBomb {
        var at := Rect(p.rect.x + p.rect.w / 2, p.rect.y + p.rect.h / 2, W.ITEM, W.ITEM);
        items := items + [W.DroppedBomb(at, nextDropId)];
        nextDropId := nextDropId + 1;
      }
    }

    /** GameWorld::drop_weapons. */
    method DropWeapons(v: Name)
      requires Valid() && v in players
      modifies this`items, this`nextDropId, players[v]
      ensures Valid() && View() == W.DropWeapons(env, old(View()), v)
    {
      var p := players[v];
      DropPrimary(p.state);
      DropBomb(p.state);
      p.state := p.state.(loadout := ResetLoadout(env.cfg, p.state.loadout, true));
      OnlyChanged(v);
    }

    /** The death of a player, in receive_damage: the last of its life is gone. */
    method Die(v: Name, s: W.Source)
      requires Valid() && v in players
      modifies this`deaths, players[v]
      ensures Valid() && View() == W.Marked(old(View()), v, s)
    {
      ghost var death := W.DeathOf(View(), v, s);
      LoseLife(v);
      deaths := deaths + [death];
    }

    method LoseLife(v: Name)
      requires Valid() && v in players
      modifies players[v]
      ensures Valid() && View() == W.SetPlayer(old(View()), v, W.Corpse(old(players[v].state)))
    {
      players[v].Die();
      OnlyChanged(v);
    }

    /** Player::receive_damage. */
    method ReceiveDamage(v: Name, damage: nat, s: W.Source)
      requires Valid() && v in players
      modifies this`items, this`nextDropId, this`deaths, players[v]
      ensures Valid() && View() == W.ReceiveDamage(env, old(View()), v, damage, s)
    {
      var p := players[v];
      if p.state.life == 0 { return; }
      if p.state.life > damage {
        p.state := p.state.(life := p.state.life - damage);
        OnlyChanged(v);
      } else {
        Die(v, s);
        DropWeapons(v);
      }
    }

    method CountKill(killer: Name, v: Name, bonus: nat)
      requires Valid() && killer in players && v in players
      modifies players[killer]
      ensures Valid() && View() == W.CountKill(env, old(View()), killer, v, bonus)
    {
      players[killer].CountKill(env.cfg, players[v], bonus);
      OnlyChanged(killer);
    }

    // ---- Shots

    /** The collidables as a shot or a step of `me` sees them: the player itself and the dead are passed over. */
    method Collidables(me: Name) returns (ts: seq<Target>)
      requires Valid()
      ensures ts == W.Targets(env, View(), me)
    {
      ts := [];
      var i := 0;
      while i < |env.statics|
        invariant i <= |env.statics| && |ts| == i
        invariant forall k :: 0 <= k < i ==> ts[k] == Target(env.statics[k], true)
      {
        ts := ts + [Target(env.statics[i], true)];
        i := i + 1;
      }
      var j := 0;
      while j < |joined|
        invariant j <= |joined| && |ts| == |env.statics| + j
        invariant forall k :: 0 <= k < |env.statics| ==> ts[k] == Target(env.statics[k], true)
        invariant forall k :: 0 <= k < j ==>
                    ts[|env.statics| + k]
                        == Target(players[joined[k]].state.rect, joined[k] != me && players[joined[k]].state.Alive())
      {
        var p := players[joined[j]];
        ts := ts + [Target(p.state.rect, joined[j] != me && p.state.Alive())];
        j := j + 1;
      }
      assert ts == W.Targets(env, View(), me);
    }

    /** Gun::execute_shot for bullets that hit, one after the other. */
    method ReceiveHits(v: Name, hits: seq<nat>, s: W.Source)
      requires Valid() && v in players
      modifies this`items, this`nextDropId, this`deaths, players[v]
      ensures Valid() && View() == W.ReceiveHits(env, old(View()), v, hits, s)
    {
      var i := 0;
      while i < |hits|
        invariant i <= |hits| && Valid() && players == old(players)
        invariant W.ReceiveHits(env, View(), v, hits[i..], s) == W.ReceiveHits(env, old(View()), v, hits, s)
      {
        ReceiveDamage(v, hits[i], s);
        assert hits[i..][1..] == hits[i + 1..];
        i := i + 1;
      }
    }

    /** What a shot does to the player it hits. */
    method Wound(me: Name, v: Name, hits: seq<nat>, bonus: nat)
      requires Valid() && me in players && v in players
      modifies this`items, this`nextDropId, this`deaths, players[v], players[me]
      ensures Valid() && View() == Wounded(env, old(View()), me, v, hits, bonus)
    {
      ReceiveHits(v, hits, W.ByPlayer(me));
      if !players[v].state.Alive() { CountKill(me, v, bonus); }
    }

    method ShowShot(me: Name, point: Vec)
      requires Valid() && me in players
      modifies players[me]
      ensures Valid() && View() == W.SetPlayer(old(View()), me, old(View()).players[me].(shot := Some(point)))
    {
      players[me].state := players[me].state.(shot := Some(point));
      OnlyChanged(me);
    }

    /** calculate_shot. */
    method CalculateShot(me: Name, angle: real) returns (h: Option<Hit>)
      requires Valid() && me in players
      ensures h == env.caster(View().players[me].rect, angle, W.Targets(env, View(), me))
    {
      var ts := Collidables(me);
      return env.caster(players[me].state.rect, angle, ts);
    }

    /** What a shot does where it lands, once it is shown. */
    method Land(me: Name, h: Hit, hits: seq<nat>, reach: Option<nat>, bonus: nat)
      requires Valid() && me in players && h.index < |env.statics| + |joined|
      modifies this`items, this`nextDropId, this`deaths, players.Values
      ensures Valid() && View() == Landed(env, old(View()), me, h, hits, reach, bonus)
    {
      if h.index < |env.statics| { return; }
      var felt := if reach.Some? && h.impact.t >= reach.value as real then [] else hits;
      Wound(me, joined[h.index - |env.statics|], felt, bonus);
    }

    /** Shot::shoot and what the shot does to a player within `reach`: Gun::shoot, Knife::stab and each
        pellet of M_3::shoot after the ammunition is taken. */
    method Strike(me: Name, angle: real, hits: seq<nat>, reach: Option<nat>, bonus: nat)
      requires Valid() && me in players
      modifies this`items, this`nextDropId, this`deaths, this`crashed, players.Values
      ensures Valid() && View() == W.Strike(env, old(View()), me, angle, hits, reach, bonus)
    {
      var h := CalculateShot(me, angle);
      if h.None? {
        crashed := true;
      } else {
        ghost var w := View();
        ShowShot(me, h.value.impact.point);
        StrikeLands(env, w, me, angle, hits, reach, bonus, h.value, View());
        Land(me, h.value, hits, reach, bonus);
      }
    }

    method ShootPellet(me: Name, center: real, i: nat, luck: W.Luck, bonus: nat)
      requires Valid() && me in players
      modifies this`items, this`nextDropId, this`deaths, this`crashed, players.Values
      ensures Valid() && View() == W.FirePellet(env, old(View()), me, center, i, luck, bonus)
    {
      Strike(me, W.PelletAngle(center, i), W.Bullets(luck, me, i, 1), None, bonus);
    }

    /** M_3::shoot: eight pellets in a cone, unless one throws. */
    method ShootPellets(me: Name, pellets: nat, luck: W.Luck, bonus: nat)
      requires Valid() && me in players
      modifies this`items, this`nextDropId, this`deaths, this`crashed, players.Values
      ensures Valid() && View()
              == W.FirePellets(env, old(View()), me, old(players[me].state.orientation), 0, pellets, luck, bonus)
    {
      var center := players[me].state.orientation;
      var i := 0;
      ghost var w := View();
      ghost var all := W.FirePellets(env, w, me, center, 0, pellets, luck, bonus);
      while i < pellets && !crashed
        invariant i <= pellets && Valid() && w == View() && w.Ok()
                  && all == W.FirePellets(env, w, me, center, i, pellets, luck, bonus)
      {
        ShootPellet(me, center, i, luck, bonus);
        w := W.FirePellet(env, w, me, center, i, luck, bonus);
        i := i + 1;
      }
    }

    /** Gun::shoot, by kind of gun. */
    method Shoot(me: Name, kind: GunType, luck: W.Luck)
      requires Valid() && me in players
      modifies this`items, this`nextDropId, this`deaths, this`crashed, players.Values
      ensures Valid() && View() == W.Fire(env, old(View()), me, kind, luck)
    {
      var bonus := env.cfg.Gun(kind).killBonus;
      if kind == M3 {
        ShootPellets(me, Pellets(kind), luck, bonus);
      } else {
        Strike(me, players[me].state.orientation, W.Bullets(luck, me, 0, AmmoCost(kind)), None, bonus);
      }
    }

    method PutGun(me: Name, g: Gun)
      requires Valid() && me in players
      modifies players[me]
      ensures Valid() && View() == W.PutGun(old(View()), me, g)
    {
      var p := players[me];
      match p.state.loadout.equipped
      case PrimarySlot =>
        p.state := p.state.(loadout := p.state.loadout.(primary := Some(g)));
        OnlyChanged(me);
      case SecondarySlot =>
        p.state := p.state.(loadout := p.state.loadout.(secondary := g));
        OnlyChanged(me);
      case _ =>
    }

    /** Gun::update. */
    method UpdateGun(me: Name, g: Gun, dt: real, luck: W.Luck)
      requires Valid() && me in players
      modifies this`items, this`nextDropId, this`deaths, this`crashed, players.Values
      ensures Valid()
      ensures View() == W.UseGun(env, old(View()), me, g, CanShoot(env.cfg, g), Arms.UpdateGun(env.cfg, g, dt), luck)
    {
      if CanShoot(env.cfg, g) {
        PutGun(me, Spent(g));
        Shoot(me, g.kind, luck);
        if crashed { return; }
      }
      PutGun(me, Arms.UpdateGun(env.cfg, g, dt));
    }

    /** Knife::update. */
    method UpdateKnife(me: Name, dt: real)
      requires Valid() && me in players
      modifies this`items, this`nextDropId, this`deaths, this`crashed, players.Values
      ensures Valid()
      ensures var k := old(players[me].state.loadout.knife);
              View() == W.UseKnife(env, old(View()), me, CanStab(env.cfg, k), Arms.UpdateKnife(env.cfg, k, dt))
    {
      var k := players[me].state.loadout.knife;
      if CanStab(env.cfg, k) {
        Strike(me, players[me].state.orientation, [env.cfg.knifeDamage], Some(env.cfg.knifeDistance),
            env.cfg.knifeKillBonus);
        if crashed { return; }
      }
      PutKnife(me, Arms.UpdateKnife(env.cfg, k, dt));
    }

    method PutKnife(me: Name, k: Knife)
      requires Valid() && me in players
      modifies players[me]
      ensures Valid() && View() == W.PutKnife(old(View()), me, k)
    {
      var p := players[me];
      p.state := p.state.(loadout := p.state.loadout.(knife := k));
      OnlyChanged(me);
    }

    /** The end of a plantation, in Bomb::update. */
    method PlantBomb(me: Name)
      requires Valid() && me in players
      modifies bomb, players[me]
      ensures Valid()
      ensures var w, p := old(View()), old(players[me].state);
              View() == W.SetPlayer(w, me, p.(loadout := W.WithoutBomb(p.loadout)))
                        .(bomb := W.Bomb(Trigger(false, w.bomb.trigger.just, 0.0), Planted, true, w.bomb.sincePlanted,
                                         Some(Rect(W.Center(p.rect).0, W.Center(p.rect).1, W.BOMB, W.BOMB))))
    {
      var p := players[me];
      bomb.justPlanted := true;
      bomb.status := Planted;
      bomb.plantation :=
        Some(Rect(p.state.rect.x + p.state.rect.w / 2, p.state.rect.y + p.state.rect.h / 2, W.BOMB, W.BOMB));
      p.LeaveBomb();
      bomb.trigger := bomb.trigger.(since := 0.0, making := false);
      OnlyChanged(me);
    }

    /** Bomb::update, by the player who has it equipped. */
    method UpdateBomb(me: Name, dt: real)
      requires Valid() && me in players
      modifies bomb, players[me]
      ensures Valid() && View() == W.UseBomb(env, old(View()), me, dt)
    {
      if bomb.status == Defused { return; }
      bomb.trigger := bomb.trigger.Update(dt);
      if players[me].state.onSite && bomb.trigger.making && bomb.trigger.since >= env.cfg.plantationTime as real {
        PlantBomb(me);
      }
    }

    // ---- The turn of a player

    /** GameWorld::on_site. */
    method OnSite(r: Rect) returns (on: bool)
      ensures on == W.OnSite(env, r)
    {
      var x, y := r.x + r.w / 2, r.y + r.h / 2;
      var i := 0;
      while i < |env.sites|
        invariant i <= |env.sites|
        invariant forall k :: 0 <= k < i ==>
                    !(env.sites[k].x <= x < env.sites[k].x + env.sites[k].w
                        && env.sites[k].y <= y < env.sites[k].y + env.sites[k].h)
      {
        var s := env.sites[i];
        if s.x <= x < s.x + s.w && s.y <= y < s.y + s.h {
          assert s in env.sites;
          return true;
        }
        i := i + 1;
      }
      return false;
    }

    /** The moving part of Player::update. */
    method Walk(me: Name, stepped: nat)
      requires Valid() && me in players
      modifies players[me]
      ensures Valid() && View() == W.Walk(env, old(View()), me, stepped)
    {
      WalkIsStep(env, View(), me, stepped);
      var (dx, dy) := W.StepOf(players[me].state, stepped);
      var ts := Collidables(me);
      MakeStep(me, ts, dx, dy);
    }

    method MakeStep(me: Name, ts: seq<Target>, dx: int, dy: int)
      requires Valid() && me in players
      modifies players[me]
      ensures Valid() && View()
              == SteppedTo(env, old(View()), me, Slide.MakeStep(ts, old(players[me].state.rect), dx, dy))
    {
      players[me].MakeStep(ts, dx, dy);
      OnlyChanged(me);
      NoteSite(me);
    }

    method NoteSite(me: Name)
      requires Valid() && me in players
      modifies players[me]
      ensures Valid() && View() == Sited(env, old(View()), me)
    {
      var on := OnSite(players[me].state.rect);
      players[me].state := players[me].state.(onSite := on);
      OnlyChanged(me);
    }

    method UpdateWeapon(me: Name, dt: real, luck: W.Luck)
      requires Valid() && me in players
      modifies this`items, this`nextDropId, this`deaths, this`crashed, bomb, players.Values
      ensures Valid() && View() == W.UseWeapon(env, old(View()), me, dt, luck)
    {
      var l := players[me].state.loadout;
      match l.equipped
      case KnifeSlot => UpdateKnife(me, dt);
      case BombSlot => if l.hasBomb { UpdateBomb(me, dt); }
      case PrimarySlot => if l.primary.Some? { UpdateGun(me, l.primary.value, dt, luck); }
      case SecondarySlot => UpdateGun(me, l.secondary, dt, luck);
    }

    /** Player::update after `frames` frames. */
    method UpdatePlayer(me: Name, frames: nat, luck: W.Luck)
      requires Valid() && me in players
      modifies this`items, this`nextDropId, this`deaths, this`crashed, bomb, players.Values
      ensures Valid() && View() == W.UpdatePlayer(env, old(View()), me, frames, luck)
    {
      var dt := frames as real / env.cfg.fps as real;
      var p := players[me];
      p.state := p.state.(shot := None, planting := false);
      OnlyChanged(me);
      if !p.state.Alive() || p.state.defusing { return; }
      if p.state.making && p.state.onSite && p.state.loadout.equipped == BombSlot && p.state.loadout.hasBomb {
        StartPlanting(me);
        UpdateBomb(me, dt);
      } else {
        Walk(me, frames * env.cfg.playerSpeed);
        UpdateWeapon(me, dt, luck);
      }
    }

    method StartPlanting(me: Name)
      requires Valid() && me in players
      modifies players[me]
      ensures Valid() && View() == W.SetPlayer(old(View()), me, old(players[me].state).(planting := true))
    {
      players[me].state := players[me].state.(planting := true);
      OnlyChanged(me);
    }

    /** ... in GameWorld::update, which first calls off a defusal that has succeeded. */
    method TakeTurn(me: Name, wasPlanted: bool, frames: nat, luck: W.Luck)
      requires Valid() && me in players
      modifies this`items, this`nextDropId, this`deaths, this`crashed, bomb, players.Values
      ensures Valid() && View() == W.TakeTurn(env, old(View()), me, wasPlanted, frames, luck)
    {
      var p := players[me];
      if p.state.team == CT && wasPlanted && bomb.status == Defused && p.state.defusing {
        p.state := p.state.(defusing := false);
        OnlyChanged(me);
      }
      UpdatePlayer(me, frames, luck);
    }

    /** GameWorld::make_bomb_explode. */
    method MakeBombExplode(at: Rect)
      requires Valid()
      modifies this`items, this`nextDropId, this`deaths, players.Values
      ensures Valid() && View() == W.Explode(env, old(View()), at, 0)
    {
      var i := 0;
      ghost var w := View();
      ghost var all := W.Explode(env, w, at, 0);
      while i < |order|
        invariant i <= |order| && Valid() && w == View() && w.Ok() && all == W.Explode(env, w, at, i)
      {
        Blast(order[i], at);
        w := W.BlastOne(env, w, order[i], at);
        i := i + 1;
      }
    }

    method Blast(v: Name, at: Rect)
      requires Valid() && v in players
      modifies this`items, this`nextDropId, this`deaths, players[v]
      ensures Valid() && View() == W.BlastOne(env, old(View()), v, at)
    {
      var p := players[v];
      if !p.state.Alive() { return; }
      var d2 := W.SquaredDistance(at, p.state.rect);
      if d2 <= env.cfg.explosionRadius * env.cfg.explosionRadius {
        ReceiveDamage(v, W.BlastDamage(env.cfg.explosionDamage, env.cfg.explosionRadius, d2, env.cfg.explosionDamage),
            W.Blast);
      }
    }

    /** GameWorld::update. */
    method Update(frames: nat, luck: W.Luck)
      requires Valid() && !crashed
      modifies this`items, this`nextDropId, this`deaths, this`crashed, bomb, players.Values
      ensures Valid() && View() == W.Tick(env, old(View()), frames, luck)
    {
      var wasPlanted := bomb.status == Planted;
      BurnFuse(frames);
      UpdatePlayers(wasPlanted, frames, luck);
    }

    /** The loop of GameWorld::update. */
    method UpdatePlayers(wasPlanted: bool, frames: nat, luck: W.Luck)
      requires Valid()
      modifies this`items, this`nextDropId, this`deaths, this`crashed, bomb, players.Values
      ensures Valid() && View() == W.TakeTurns(env, old(View()), 0, wasPlanted, frames, luck)
    {
      var i := 0;
      ghost var w := View();
      ghost var all := W.TakeTurns(env, w, 0, wasPlanted, frames, luck);
      while i < |order| && !crashed
        invariant i <= |order| && Valid() && w == View() && w.Ok()
                  && all == W.TakeTurns(env, w, i, wasPlanted, frames, luck)
      {
        TakeTurn(order[i], wasPlanted, frames, luck);
        w := W.TakeTurn(env, w, order[i], wasPlanted, frames, luck);
        i := i + 1;
      }
    }

    method BurnFuse(frames: nat)
      requires Valid()
      modifies this`items, this`nextDropId, this`deaths, bomb, players.Values
      ensures Valid() && View() == W.BurnFuse(env, old(View()), frames)
    {
      if bomb.status != Planted { return; }
      bomb.UpdatePlanted(env.cfg, frames as real / env.cfg.fps as real);
      if bomb.status == Exploded && bomb.plantation.Some? { MakeBombExplode(bomb.plantation.value); }
    }

    // ---- Commands

    method PullTrigger(me: Name)
      requires Valid() && me in players
      modifies bomb, players[me]
      ensures Valid() && View() == W.PullTrigger(old(View()), me)
    {
      var p := players[me];
      if p.state.loadout.equipped == BombSlot {
        if p.state.loadout.hasBomb { bomb.Action(); }
      } else {
        p.state := p.state.(loadout := p.state.loadout.OnTrigger((t: Trigger) => t.Action()));
        OnlyChanged(me);
      }
    }

    method ReleaseTrigger(me: Name)
      requires Valid() && me in players
      modifies bomb, players[me]
      ensures Valid() && View() == W.ReleaseTrigger(old(View()), me)
    {
      var p := players[me];
      if p.state.loadout.equipped == BombSlot {
        if p.state.loadout.hasBomb { bomb.StopAction(); }
      } else {
        p.state := p.state.(loadout := p.state.loadout.OnTrigger((t: Trigger) => t.StopAction()));
        OnlyChanged(me);
      }
    }

    /** make_player_action and stop_making_player_action. */
    method MakeAction(me: Name, on: bool)
      requires Valid() && me in players
      modifies bomb, players[me]
      ensures Valid() && View() == W.MakeAction(old(View()), me, on)
    {
      var p := players[me];
      if p.state.loadout.equipped == BombSlot && !p.state.onSite { return; }
      if on { PullTrigger(me); } else { ReleaseTrigger(me); }
      SetMaking(me, on);
    }

    method SetMaking(me: Name, on: bool)
      requires Valid() && me in players
      modifies players[me]
      ensures Valid() && View() == W.SetPlayer(old(View()), me, old(players[me].state).(making := on))
    {
      players[me].state := players[me].state.(making := on);
      OnlyChanged(me);
    }

    method SetDefusing(me: Name, on: bool)
      requires Valid() && me in players
      modifies players[me]
      ensures Valid() && View() == W.SetPlayer(old(View()), me, old(players[me].state).(defusing := on))
    {
      players[me].state := players[me].state.(defusing := on);
      OnlyChanged(me);
    }

    /** make_player_defuse_bomb and stop_making_player_defuse_bomb. */
    method DefuseBomb(me: Name, on: bool)
      requires Valid() && me in players
      modifies bomb, players[me]
      ensures Valid() && View() == W.DefuseBomb(old(View()), me, on)
    {
      var p := players[me];
      if p.state.team != CT { return; }
      if on {
        if bomb.plantation.Some? && p.state.rect.IntersectsWith(bomb.plantation.value) {
          SetDefusing(me, true);
          bomb.Action();
        }
      } else if p.state.defusing {
        SetDefusing(me, false);
        bomb.StopAction();
      }
    }

    /** equip_primary_for, equip_secondary_for, equip_knife_for and equip_bomb_for. */
    method EquipSlot(me: Name, slot: WeaponType)
      requires Valid() && me in players
      modifies bomb, players[me]
      ensures Valid() && View() == W.EquipSlot(old(View()), me, slot)
    {
      ReleaseTrigger(me);
      PutLoadout(me, players[me].state.loadout.Equip(slot));
    }

    method PutLoadout(me: Name, l: Loadout)
      requires Valid() && me in players
      modifies players[me]
      ensures Valid() && View() == W.SetPlayer(old(View()), me, old(players[me].state).(loadout := l))
    {
      players[me].state := players[me].state.(loadout := l);
      OnlyChanged(me);
    }

    /** move_player_up and so on, and rotate_player. */
    method Steer(me: Name, c: W.Command)
      requires Valid() && me in players && (c.Move? || c.Rotate?)
      modifies players[me]
      ensures Valid() && View() == W.Steer(old(View()), me, c)
    {
      if c.Move? {
        players[me].SetMoving(c.direction, c.on);
      } else {
        players[me].state := players[me].state.(orientation := c.angle);
      }
      OnlyChanged(me);
    }

    // ---- Picking up and buying

    /** The items in reach. */
    method ItemsInReach(me: Name) returns (pickable: seq<nat>)
      requires Valid() && me in players
      ensures forall k :: 0 <= k < |pickable| ==> pickable[k] < |items| && W.InReach(View(), me, pickable[k])
      ensures forall k, l :: 0 <= k < l < |pickable| ==> pickable[k] < pickable[l]
      ensures forall j: nat :: W.InReach(View(), me, j) ==> j in pickable
    {
      pickable := [];
      var i := 0;
      while i < |items|
        invariant i <= |items|
        invariant forall k :: 0 <= k < |pickable| ==> pickable[k] < i && W.InReach(View(), me, pickable[k])
        invariant forall k, l :: 0 <= k < l < |pickable| ==> pickable[k] < pickable[l]
        invariant forall j: nat :: j < i && W.InReach(View(), me, j) ==> j in pickable
      {
        if players[me].state.rect.Contains(items[i].rect) { pickable := pickable + [i]; }
        i := i + 1;
      }
    }

    /** The first of them with the least drop id (std::min_element). */
    method Least(pickable: seq<nat>) returns (best: nat)
      requires pickable != [] && forall k :: 0 <= k < |pickable| ==> pickable[k] < |items|
      ensures best < |pickable|
      ensures forall j :: 0 <= j < best ==> items[pickable[best]].id < items[pickable[j]].id
      ensures forall j :: best <= j < |pickable| ==> items[pickable[best]].id <= items[pickable[j]].id
    {
      best := 0;
      var k := 1;
      while k < |pickable|
        invariant 0 <= best < k <= |pickable|
        invariant forall j :: 0 <= j < best ==> items[pickable[best]].id < items[pickable[j]].id
        invariant forall j :: best <= j < k ==> items[pickable[best]].id <= items[pickable[j]].id
      {
        if items[pickable[k]].id < items[pickable[best]].id { best := k; }
        k := k + 1;
      }
    }

    /** pick_up_item_for, its search: of the items in reach, the first with the least drop id. */
    method OldestInReach(me: Name) returns (oldest: Option<nat>)
      requires Valid() && me in players
      ensures oldest == W.OldestInReach(View(), me, 0)
    {
      var pickable := ItemsInReach(me);
      if pickable == [] {
        NothingInReach(View(), me, 0);
        return None;
      }
      var best := Least(pickable);
      FirstOldest(View(), me, 0, pickable, best);
      return Some(pickable[best]);
    }

    /** pick_up_gun_for. */
    method PickUpGun(me: Name, i: nat)
      requires Valid() && me in players && i < |items| && items[i].DroppedGun?
      modifies this`items, this`nextDropId, players[me]
      ensures Valid() && View() == W.PickUpGun(old(View()), me, i)
    {
      var it, l := items[i], players[me].state.loadout;
      var prev := if it.gun.kind == Glock then Some(l.secondary) else l.primary;
      PutLoadout(me, if it.gun.kind == Glock then l.(secondary := it.gun) else l.(primary := Some(it.gun)));
      if prev.Some? { DropAt(it.rect, prev.value); }
      items := W.Without(items, i);
    }

    method DropAt(r: Rect, g: Gun)
      requires Valid()
      modifies this`items, this`nextDropId
      ensures Valid() && View() == W.AddItem(old(View()), W.DroppedGun(r, old(nextDropId), g))
    {
      items := items + [W.DroppedGun(r, nextDropId, g)];
      nextDropId := nextDropId + 1;
    }

    /** try_pick_up_bomb_for. */
    method PickUpBomb(me: Name, i: nat)
      requires Valid() && me in players && i < |items| && items[i].DroppedBomb?
      modifies this`items, this`nextDropId, players[me]
      ensures Valid() && View() == W.PickUpBomb(old(View()), me, i)
    {
      if players[me].state.team == TT {
        PutLoadout(me, players[me].state.loadout.(hasBomb := true));
        items := W.Without(items, i);
      } else {
        items := items[i := W.DroppedBomb(items[i].rect, nextDropId)];
        nextDropId := nextDropId + 1;
      }
    }

    /** pick_up_item_for. */
    method PickUpItem(me: Name)
      requires Valid() && me in players
      modifies this`items, this`nextDropId, players[me]
      ensures Valid() && View() == W.PickUpItem(old(View()), me)
    {
      var oldest := OldestInReach(me);
      if oldest.Some? {
        if items[oldest.value].DroppedGun? { PickUpGun(me, oldest.value); } else { PickUpBomb(me, oldest.value); }
      }
    }

    /** buy_gun_for. */
    method BuyGunFor(me: Name, kind: Option<GunType>)
      requires Valid() && me in players
      modifies this`items, this`nextDropId, this`crashed, players[me]
      ensures Valid() && View() == W.BuyGunFor(env, old(View()), me, kind)
    {
      if kind.None? {
        crashed := true;
        return;
      }
      var p := players[me].state;
      var (l, prev) := BuyGun(env.cfg, p.loadout, kind.value);
      PutLoadout(me, l);
      if prev.Some? { DropAt(W.ItemRect(p), prev.value); }
    }

    /** What with_player does around the commands that a phase executes. */
    method Execute(me: Name, c: W.Command, buying: bool)
      requires Valid()
      modifies this`items, this`nextDropId, this`crashed, bomb, players.Values
      ensures Valid() && View() == W.Execute(env, old(View()), me, c, buying)
    {
      if crashed || !(if buying then W.ForBuy(c) else W.ForAttack(c)) { return; }
      if me !in players {
        crashed := true;
        return;
      }
      if !players[me].state.Alive() { return; }
      if buying { ActInBuy(me, c); } else { ActInAttack(me, c); }
    }

    method ActInBuy(me: Name, c: W.Command)
      requires Valid() && me in players
      modifies this`items, this`nextDropId, this`crashed, bomb, players[me]
      ensures Valid() && View() == W.ActInBuy(env, old(View()), me, c)
    {
      match c
      case BuyGunCommand(kind) => BuyGunFor(me, kind);
      case BuyAmmoCommand(forPrimary) => PutLoadout(me, BuyClip(env.cfg, players[me].state.loadout, forPrimary));
      case Equip(slot) => EquipSlot(me, slot);
      case _ =>
    }

    method ActInAttack(me: Name, c: W.Command)
      requires Valid() && me in players
      modifies this`items, this`nextDropId, bomb, players[me]
      ensures Valid() && View() == W.ActInAttack(old(View()), me, c)
    {
      match c
      case Move(_, _) => Steer(me, c);
      case Rotate(_) => Steer(me, c);
      case Act(on) => MakeAction(me, on);
      case Defuse(on) => DefuseBomb(me, on);
      case Equip(slot) => EquipSlot(me, slot);
      case PickUp => PickUpItem(me);
      case _ =>
    }

    // ---- Rounds

    /** swap_teams. */
    method SwapTeams()
      requires Valid() && Listed()
      modifies players.Values
      ensures Valid() && View() == R.SwapTeams(env, old(View()))
    {
      assert View().players.Keys == players.Keys;
      AllSwapped(env, View());
      SwapEach();
    }

    method SwapEach()
      requires Valid()
      modifies players.Values
      ensures Valid() && View() == ChangeFrom(Swapping(env.cfg), old(View()), 0)
    {
      ghost var f := Swapping(env.cfg);
      ghost var w := View();
      ghost var all := ChangeFrom(f, w, 0);
      var i := 0;
      while i < |order|
        invariant i <= |order| && Valid() && w == View() && w.Ok() && all == ChangeFrom(f, w, i)
      {
        SwapTeam(order[i]);
        w := ChangeOne(f, w, order[i]);
        i := i + 1;
      }
    }

    method SwapTeam(n: Name)
      requires Valid() && n in players
      modifies players[n]
      ensures Valid() && View() == ChangeOne(Swapping(env.cfg), old(View()), n)
    {
      players[n].Swap(env.cfg);
      OnlyChanged(n);
    }

    /** apply_won_round_bonus. */
    method ApplyWonRoundBonus(won: Team)
      requires Valid() && Listed()
      modifies players.Values
      ensures Valid() && View() == R.PayTeams(env, old(View()), won)
    {
      assert View().players.Keys == players.Keys;
      AllPaid(env, View(), won);
      PayEach(won);
    }

    method PayEach(won: Team)
      requires Valid()
      modifies players.Values
      ensures Valid() && View() == ChangeFrom(Paying(env.cfg, won), old(View()), 0)
    {
      ghost var f := Paying(env.cfg, won);
      ghost var w := View();
      ghost var all := ChangeFrom(f, w, 0);
      var i := 0;
      while i < |order|
        invariant i <= |order| && Valid() && w == View() && w.Ok() && all == ChangeFrom(f, w, i)
      {
        PayBonus(order[i], won);
        w := ChangeOne(f, w, order[i]);
        i := i + 1;
      }
    }

    method PayBonus(n: Name, won: Team)
      requires Valid() && n in players
      modifies players[n]
      ensures Valid() && View() == ChangeOne(Paying(env.cfg, won), old(View()), n)
    {
      players[n].ReceiveBonus(env.cfg, won);
      OnlyChanged(n);
    }

    /** team_is_dead. */
    method TeamIsDead(t: Team) returns (dead: bool)
      requires Valid() && Listed()
      ensures dead <==> R.AllDead(View(), t)
    {
      ListsOnce(order, players.Keys);
      var i := 0;
      while i < |order|
        invariant i <= |order|
        invariant forall k :: 0 <= k < i ==> players[order[k]].state.team == t ==> !players[order[k]].state.Alive()
      {
        var p := players[order[i]];
        if p.state.team == t && p.state.Alive() {
          assert View().players[order[i]] == p.state;
          return false;
        }
        i := i + 1;
      }
      return true;
    }

    /** restart_players before the bomb is handed out. */
    method RestartAll()
      requires Valid() && Listed()
      modifies bomb, players.Values
      ensures Valid() && View() == R.RestartAll(env, old(View()))
    {
      ghost var w := View();
      assert w.players.Keys == players.Keys;
      AllRestarted(env, w);
      RestartEach();
      RestartBomb();
    }

    method RestartBomb()
      requires Valid()
      modifies bomb
      ensures Valid() && View() == old(View()).(bomb := W.RestartBomb(old(bomb.View())))
    {
      bomb.Restart();
    }

    method RestartEach()
      requires Valid()
      modifies players.Values
      ensures Valid() && View() == ChangeFrom(Restarting(env.cfg), old(View()), 0)
    {
      ghost var f := Restarting(env.cfg);
      ghost var w := View();
      ghost var all := ChangeFrom(f, w, 0);
      var i := 0;
      while i < |order|
        invariant i <= |order| && Valid() && w == View() && w.Ok() && all == ChangeFrom(f, w, i)
      {
        RestartPlayer(order[i]);
        w := ChangeOne(f, w, order[i]);
        i := i + 1;
      }
    }

    method RestartPlayer(n: Name)
      requires Valid() && n in players
      modifies players[n]
      ensures Valid() && View() == ChangeOne(Restarting(env.cfg), old(View()), n)
    {
      players[n].Restart(env.cfg);
      OnlyChanged(n);
    }

    /** The terrorists, among whom the bomb is drawn. */
    method Terrorists() returns (terrorists: seq<Name>)
      requires Valid()
      ensures terrorists == R.Terrorists(View(), order)
    {
      terrorists := [];
      var i := 0;
      while i < |order|
        invariant i <= |order| && terrorists == R.Terrorists(View(), order[..i])
      {
        assert order[..i + 1][..i] == order[..i];
        if players[order[i]].state.team == TT { terrorists := terrorists + [order[i]]; }
        i := i + 1;
      }
      assert order[..i] == order;
    }

    method HandBomb(n: Name)
      requires Valid() && n in players
      modifies players[n]
      ensures Valid() && View() == R.HandBomb(old(View()), n)
    {
      PutLoadout(n, players[n].state.loadout.(hasBomb := true));
    }

    method DrawHolder(pick: nat)
      requires Valid()
      modifies players.Values
      ensures Valid() && View() == R.DrawHolder(old(View()), pick)
    {
      var terrorists := Terrorists();
      if terrorists != [] {
        var n := terrorists[pick % |terrorists|];
        assert n in terrorists;
        HandBomb(n);
      }
    }

    /** restart_players. */
    method RestartPlayers(pick: nat)
      requires Valid() && Listed()
      modifies bomb, players.Values
      ensures Valid() && View() == R.RestartPlayers(env, old(View()), pick)
    {
      RestartAll();
      DrawHolder(pick);
    }

    /** restart_items. */
    method RestartItems(guns: seq<(GunType, int, int)>)
      requires Valid()
      modifies this`items, this`nextDropId
      ensures Valid() && View() == R.RestartItems(env, old(View()), guns)
    {
      items := [];
      nextDropId := 0;
      var i := 0;
      ghost var w := View();
      ghost var all := R.LayGuns(env, w, guns);
      assert w == old(View()).(items := [], nextDropId := 0);
      assert guns[0..] == guns;
      while i < |guns|
        invariant i <= |guns| && Valid() && w == View() && w.Ok() && all == R.LayGuns(env, w, guns[i..])
      {
        var (kind, x, y) := guns[i];
        DropAt(Rect(x * BLOCK, y * BLOCK, W.ITEM, W.ITEM), NewGun(env.cfg, kind));
        w := W.AddItem(
          w, W.DroppedGun(Rect(x * BLOCK, y * BLOCK, W.ITEM, W.ITEM), w.nextDropId, NewGun(env.cfg, kind)));
        assert guns[i..][1..] == guns[i + 1..];
        i := i + 1;
      }
      assert guns[i..] == [];
    }

    // ---- Spawning

    method Collides(n: Name) returns (c: bool)
      requires Valid() && n in players
      ensures c <==> !Free(env, View(), n)
    {
      var ts := Collidables(n);
      var first := CollidingObject(ts, players[n].state.rect);
      FreeIsClear(env, View(), n);
      return first.Some?;
    }

    /** random_spawn_position, for one player. */
    method PutAt(n: Name, spawns: seq<(int, int)>, draw: nat)
      requires Valid() && n in players && spawns != []
      modifies players[n]
      ensures players[n].state == old(players[n].state).(rect := players[n].state.rect)
      ensures SpawnedAt(spawns, players[n].state.rect) && SameSize(old(players[n].state.rect), players[n].state.rect)
    {
      var p := players[n];
      var spot := spawns[draw % |spawns|];
      assert spot in spawns;
      p.state := p.state.(rect := p.state.rect.(x := spot.0 * BLOCK + (BLOCK - PLAYER) / 2,
                                                y := spot.1 * BLOCK + (BLOCK - PLAYER) / 2));
    }

    /** The body of the loop of spawn_players: draws points until one is free; without draws it gives up. */
    method SpawnPlayer(n: Name, spawns: seq<(int, int)>, draws: seq<nat>) returns (ok: bool, left: seq<nat>)
      requires Valid() && n in players && spawns != []
      modifies players[n]
      ensures View() == Moved(old(View()), n, players[n].state.rect)
      ensures SameSize(old(players[n].state.rect), players[n].state.rect)
      ensures ok ==> Free(env, View(), n) && SpawnedAt(spawns, players[n].state.rect)
    {
      ok, left := false, draws;
      while left != [] && !ok
        invariant players[n].state == old(players[n].state).(rect := players[n].state.rect)
        invariant SameSize(old(players[n].state.rect), players[n].state.rect)
        invariant ok ==> Free(env, View(), n) && SpawnedAt(spawns, players[n].state.rect)
        decreases |left|
      {
        PutAt(n, spawns, left[0]);
        left := left[1..];
        var c := Collides(n);
        ok := !c;
      }
      OnlyChanged(n);
    }

    /** spawn_players. It may run out of draws, where the program would go on drawing; if it does not, every
        player stands in the middle of a spawn point of its side, off the blocks, and apart from all who
        were alive and placed before it. */
    method SpawnPlayers(ctSpawns: seq<(int, int)>, ttSpawns: seq<(int, int)>, draws: seq<nat>) returns (ok: bool)
      requires Valid() && Listed() && ctSpawns != [] && ttSpawns != []
      modifies players.Values
      ensures Valid() && Relocated(old(View()), View())
      ensures ok ==> Settled(env, View(), ctSpawns, ttSpawns, |order|)
    {
      var left := draws;
      var i := 0;
      ghost var w := View();
      while i < |order|
        invariant i <= |order| && w == View() && w.Ok()
        invariant Relocated(old(View()), w) && Settled(env, w, ctSpawns, ttSpawns, i)
      {
        ok, left := SpawnNext(i, ctSpawns, ttSpawns, left);
        RelocatedNext(old(View()), w, order[i], players[order[i]].state.rect);
        if !ok { return; }
        w := Moved(w, order[i], players[order[i]].state.rect);
        i := i + 1;
      }
      ok := true;
    }

    method SpawnNext(i: nat, ctSpawns: seq<(int, int)>, ttSpawns: seq<(int, int)>, draws: seq<nat>)
      returns (ok: bool, left: seq<nat>)
      requires Valid() && Listed() && ctSpawns != [] && ttSpawns != [] && i < |order|
      requires Settled(env, View(), ctSpawns, ttSpawns, i)
      modifies players[order[i]]
      ensures View() == Moved(old(View()), order[i], players[order[i]].state.rect)
      ensures SameSize(old(players[order[i]].state.rect), players[order[i]].state.rect)
      ensures ok ==> Settled(env, View(), ctSpawns, ttSpawns, i + 1)
    {
      var n := order[i];
      ghost var w := View();
      assert w.players.Keys == players.Keys;
      ok, left := SpawnPlayer(n, if players[n].state.team == TT then ttSpawns else ctSpawns, draws);
      if ok { SettledNext(env, w, ctSpawns, ttSpawns, i, players[n].state.rect); }
    }
  }
}
