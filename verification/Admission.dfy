/** Who may join a game, on which side, and when it may start (src/server/cs2d_game.cpp, add_player,
    can_force_start and should_start; src/server/game_world.cpp, add_player). */
module Admissions {
  import opened Basics
  import opened Settings
  import opened Geometry
  import opened Slide
  import opened Arms
  import opened World
  import opened Accounts
  import opened Rounds
  import opened Matches
  import opened Runs

  /** The players of a game that has not begun, in order of arrival. */
  datatype Entrants = Entrants(roster: seq<(Name, Team)>, creator: Name, forced: bool)

  datatype Outcome = Joined | AlreadyStarted | Full | AlreadyIn | NoRoom

  datatype Request = Join(user: Name) | Force(user: Name)

  const EMPTY := Entrants([], "", false)

  function Count(roster: seq<(Name, Team)>, t: Team): (r: nat)
    ensures r <= |roster|
  {
    if roster == [] then 0 else Count(roster[..|roster| - 1], t) + (if roster[|roster| - 1].1 == t then 1 else 0)
  }

  predicate IsIn(roster: seq<(Name, Team)>, n: Name) { exists e <- roster :: e.0 == n }

  function Capacity(cfg: Settings): nat { cfg.counterTerrorists + cfg.terrorists }

  /** The side for the next player, if there is room. */
  function SideFor(cfg: Settings, cts: nat, tts: nat): Option<Team> {
    if cts < cfg.counterTerrorists && tts < cfg.terrorists then Some(if cts <= tts then CT else TT)
    else if cts < cfg.counterTerrorists then Some(CT)
    else if tts < cfg.terrorists then Some(TT)
    else None
  }

  predicate CanForceStart(cfg: Settings, g: Entrants) { |g.roster| >= Capacity(cfg) / 2 && |g.roster| >= 2 }

  predicate ShouldStart(cfg: Settings, g: Entrants) { g.forced || |g.roster| >= Capacity(cfg) }

  /** Why CS2DGame::add_player throws, if it does. */
  function Refusal(cfg: Settings, g: Entrants, n: Name): Option<Outcome> {
    if g.forced then Some(AlreadyStarted)
    else if |g.roster| == Capacity(cfg) then Some(Full)
    else if IsIn(g.roster, n) then Some(AlreadyIn)
    else None
  }

  function JoinOutcome(cfg: Settings, g: Entrants, n: Name): Outcome {
    match Refusal(cfg, g, n)
    case Some(outcome) => outcome
    case None => if SideFor(cfg, Count(g.roster, CT), Count(g.roster, TT)).None? then NoRoom else Joined
  }

  /** A refused join changes nothing; but the first one to be let through the checks is the creator
      even when the world has no room. */
  function AfterJoin(cfg: Settings, g: Entrants, n: Name): Entrants {
    if Refusal(cfg, g, n).Some? then g
    else
      var creator := if g.creator == "" then n else g.creator;
      match SideFor(cfg, Count(g.roster, CT), Count(g.roster, TT))
      case None => g.(creator := creator)
      case Some(t) => g.(creator := creator, roster := g.roster + [(n, t)])
  }

  function Handle(cfg: Settings, g: Entrants, r: Request): Entrants {
    match r
    case Join(n) => AfterJoin(cfg, g, n)
    case Force(n) => if n == g.creator then g.(forced := CanForceStart(cfg, g)) else g
  }

  function HandleAll(cfg: Settings, rs: seq<Request>): Entrants {
    if rs == [] then EMPTY else Handle(cfg, HandleAll(cfg, rs[..|rs| - 1]), rs[|rs| - 1])
  }

  // ---- How the sides fill

  /** How many of the first `n` players are counter-terrorists: every other one, until a side is full. */
  function CtsAmong(cfg: Settings, n: nat): int {
    Max(n - cfg.terrorists, Min(cfg.counterTerrorists, (n + 1) / 2))
  }

  ghost predicate Filled(cfg: Settings, g: Entrants) {
    && |g.roster| <= Capacity(cfg)
    && Count(g.roster, CT) == CtsAmong(cfg, |g.roster|)
    && Count(g.roster, CT) + Count(g.roster, TT) == |g.roster|
    && (forall i, j :: 0 <= i < j < |g.roster| ==> g.roster[i].0 != g.roster[j].0)
    && (g.forced ==> CanForceStart(cfg, g))
  }

  lemma OneJoined(roster: seq<(Name, Team)>, n: Name, t: Team, side: Team)
    ensures Count(roster + [(n, side)], t) == Count(roster, t) + (if side == t then 1 else 0)
  {
    assert (roster + [(n, side)])[..|roster|] == roster;
  }

  /** There is room as long as the game is not full. */
  lemma SideIsNext(cfg: Settings, n: nat, cts: int)
    requires n < Capacity(cfg) && cts == CtsAmong(cfg, n)
    ensures 0 <= cts <= n && SideFor(cfg, cts, n - cts).Some?
    ensures CtsAmong(cfg, n + 1) == cts + (if SideFor(cfg, cts, n - cts) == Some(CT) then 1 else 0)
  {}

  lemma JoinedFills(cfg: Settings, g: Entrants, n: Name, side: Team, g': Entrants)
    requires Filled(cfg, g) && |g.roster| < Capacity(cfg) && !IsIn(g.roster, n) && !g.forced && !g'.forced
    requires SideFor(cfg, Count(g.roster, CT), Count(g.roster, TT)) == Some(side)
    requires g'.roster == g.roster + [(n, side)]
    ensures Filled(cfg, g')
  {
    SideIsNext(cfg, |g.roster|, Count(g.roster, CT));
    OneJoined(g.roster, n, CT, side);
    OneJoined(g.roster, n, TT, side);
    forall i, j | 0 <= i < j < |g'.roster| ensures g'.roster[i].0 != g'.roster[j].0 {
      if j == |g.roster| { assert g.roster[i] in g.roster; }
    }
  }

  lemma HandledFills(cfg: Settings, g: Entrants, r: Request)
    requires Filled(cfg, g)
    ensures Filled(cfg, Handle(cfg, g, r))
    ensures r.Join? ==> JoinOutcome(cfg, g, r.user) != NoRoom
  {
    if r.Join? && !g.forced && |g.roster| < Capacity(cfg) && !IsIn(g.roster, r.user) {
      SideIsNext(cfg, |g.roster|, Count(g.roster, CT));
      var side := SideFor(cfg, Count(g.roster, CT), Count(g.roster, TT)).value;
      JoinedFills(cfg, g, r.user, side, Handle(cfg, g, r));
    }
  }

  lemma {:induction false} SidesFillInTurn(cfg: Settings, rs: seq<Request>)
    ensures Filled(cfg, HandleAll(cfg, rs))
  {
    if rs != [] {
      SidesFillInTurn(cfg, rs[..|rs| - 1]);
      HandledFills(cfg, HandleAll(cfg, rs[..|rs| - 1]), rs[|rs| - 1]);
    }
  }

  /** After any requests: the sides are within their caps and, while neither is full, level or one ahead
      for the counter-terrorists; a join that passes the game's checks finds room in the world; and
      with both caps at least one, a game that is to start has a player on each side. */
  lemma AdmissionIsFair(cfg: Settings, rs: seq<Request>, n: Name)
    ensures var g := HandleAll(cfg, rs);
            var cts, tts := Count(g.roster, CT), Count(g.roster, TT);
            && cts <= cfg.counterTerrorists && tts <= cfg.terrorists
            && (cts < cfg.counterTerrorists && tts < cfg.terrorists ==> 0 <= cts - tts <= 1)
            && JoinOutcome(cfg, g, n) != NoRoom
            && (cfg.counterTerrorists >= 1 && cfg.terrorists >= 1 && ShouldStart(cfg, g) ==> cts >= 1 && tts >= 1)
  {
    SidesFillInTurn(cfg, rs);
    HandledFills(cfg, HandleAll(cfg, rs), Join(n));
  }

  /** Once a game is to start it is so for good, and nobody joins any more. */
  lemma NobodyJoinsAStartedGame(cfg: Settings, rs: seq<Request>, r: Request)
    requires ShouldStart(cfg, HandleAll(cfg, rs))
    ensures ShouldStart(cfg, Handle(cfg, HandleAll(cfg, rs), r))
    ensures Handle(cfg, HandleAll(cfg, rs), r).roster == HandleAll(cfg, rs).roster
    ensures r.Join? ==> JoinOutcome(cfg, HandleAll(cfg, rs), r.user) in {AlreadyStarted, Full}
  {
    SidesFillInTurn(cfg, rs);
  }

  /** The first to ask to join is the creator of the game. */
  lemma {:induction false} CreatorIsFirst(cfg: Settings, rs: seq<Request>, k: nat)
    requires k < |rs| && rs[k].Join? && rs[k].user != "" && Capacity(cfg) > 0
    requires forall j :: 0 <= j < k ==> rs[j].Force?
    ensures HandleAll(cfg, rs).creator == rs[k].user
  {
    var before := rs[..|rs| - 1];
    if k < |rs| - 1 { CreatorIsFirst(cfg, before, k); } else { OnlyForces(cfg, before); }
  }

  lemma {:induction false} OnlyForces(cfg: Settings, rs: seq<Request>)
    requires forall j :: 0 <= j < |rs| ==> rs[j].Force?
    ensures HandleAll(cfg, rs) == EMPTY
  {
    if rs != [] { OnlyForces(cfg, rs[..|rs| - 1]); }
  }

  /** The k-th request is the creator's to begin, and there are two players at least, and half of what fits. */
  ghost predicate ForcedBy(cfg: Settings, rs: seq<Request>, k: nat) {
    && k < |rs|
    && var g := HandleAll(cfg, rs[..k]);
       rs[k] == Force(g.creator) && |g.roster| >= 2 && 2 * |g.roster| + 1 >= cfg.counterTerrorists + cfg.terrorists
  }

  lemma SameForce(cfg: Settings, rs: seq<Request>, n: nat, k: nat)
    requires k < n <= |rs|
    ensures ForcedBy(cfg, rs[..n], k) <==> ForcedBy(cfg, rs, k)
  {
    assert rs[..n][..k] == rs[..k];
  }

  /** What the last request makes of it. */
  lemma LastForces(cfg: Settings, rs: seq<Request>, n: nat)
    requires n + 1 == |rs|
    ensures HandleAll(cfg, rs).forced <==> HandleAll(cfg, rs[..n]).forced || ForcedBy(cfg, rs, n)
  {
    SidesFillInTurn(cfg, rs[..n]);
  }

  ghost predicate SomeForced(cfg: Settings, rs: seq<Request>) { exists k :: ForcedBy(cfg, rs, k) }

  lemma SomeForcedOf(cfg: Settings, rs: seq<Request>, n: nat)
    requires n + 1 == |rs|
    ensures SomeForced(cfg, rs) <==> SomeForced(cfg, rs[..n]) || ForcedBy(cfg, rs, n)
  {
    if SomeForced(cfg, rs) {
      var k: nat :| ForcedBy(cfg, rs, k);
      if k < n { SameForce(cfg, rs, n, k); }
    }
    if SomeForced(cfg, rs[..n]) {
      var k: nat :| ForcedBy(cfg, rs[..n], k);
      SameForce(cfg, rs, n, k);
    }
  }

  lemma {:induction false} ForcesIff(cfg: Settings, rs: seq<Request>)
    ensures HandleAll(cfg, rs).forced <==> SomeForced(cfg, rs)
  {
    if rs != [] {
      var n := |rs| - 1;
      ForcesIff(cfg, rs[..n]);
      LastForces(cfg, rs, n);
      SomeForcedOf(cfg, rs, n);
    }
  }

  /** A game is to start exactly when it is full or its creator has begun it with enough players. */
  lemma StartsIff(cfg: Settings, rs: seq<Request>)
    ensures ShouldStart(cfg, HandleAll(cfg, rs)) <==>
            || |HandleAll(cfg, rs).roster| == cfg.counterTerrorists + cfg.terrorists
            || SomeForced(cfg, rs)
  {
    ForcesIff(cfg, rs);
    SidesFillInTurn(cfg, rs);
  }

  /** Somebody joins exactly when that is not so and he is not in already. */
  lemma JoinsIff(cfg: Settings, rs: seq<Request>, n: Name)
    ensures var g := HandleAll(cfg, rs);
            JoinOutcome(cfg, g, n) == Joined <==> !ShouldStart(cfg, g) && !IsIn(g.roster, n)
  {
    SidesFillInTurn(cfg, rs);
    HandledFills(cfg, HandleAll(cfg, rs), Join(n));
  }

  // ---- The world that a game starts with

  /** The order of std::map<std::string, ...>. */
  predicate Before(a: Name, b: Name) {
    b != "" && (a == "" || a[0] < b[0] || (a[0] == b[0] && Before(a[1..], b[1..])))
  }

  predicate Sorted(names: seq<Name>) {
    |names| < 2 || (Before(names[0], names[1]) && Sorted(names[1..]))
  }

  function Insert(names: seq<Name>, n: Name): (r: seq<Name>)
    ensures forall m <- r :: m == n || m in names
  {
    if names == [] || !Before(names[0], n) then [n] + names else [names[0]] + Insert(names[1..], n)
  }

  lemma {:induction false} BeforeIsTotal(a: Name, b: Name)
    requires a != b
    ensures Before(a, b) || Before(b, a)
  {
    if a != "" && b != "" && a[0] == b[0] {
      assert a == [a[0]] + a[1..] && b == [b[0]] + b[1..];
      BeforeIsTotal(a[1..], b[1..]);
    }
  }

  /** Inserting keeps the order, and lists one name more. */
  lemma {:induction false} Inserted(names: seq<Name>, all: set<Name>, n: Name)
    requires Sorted(names) && Lists(names, all) && n !in all
    ensures Sorted(Insert(names, n)) && Lists(Insert(names, n), all + {n})
    ensures names != [] && Before(names[0], n) ==> Insert(names, n)[0] == names[0]
    decreases |names|
  {
    var r := Insert(names, n);
    if names == [] || !Before(names[0], n) {
      if names != [] { BeforeIsTotal(names[0], n); }
      assert r[1..] == names && all + {n} - {n} == all;
    } else {
      Inserted(names[1..], all - {names[0]}, n);
      assert r[1..] == Insert(names[1..], n);
      assert all + {n} - {names[0]} == all - {names[0]} + {n};
    }
  }

  /** How many of these players are on a side. */
  function CountOn(w: World, names: seq<Name>, t: Team): (r: nat)
    requires forall n <- names :: n in w.players
    ensures r <= |names|
  {
    if names == [] then 0
    else CountOn(w, names[..|names| - 1], t) + (if w.players[names[|names| - 1]].team == t then 1 else 0)
  }

  /** GameWorld::add_player; when there is no room it throws. */
  function SeatOn(cfg: Settings, w: World, n: Name, side: Option<Team>): (r: World)
    requires cfg.Valid() && w.Ok()
    ensures r.Ok()
  {
    if side.None? then w
    else
      w.(players := w.players[n := NewPlayer(cfg, side.value)],
         joined := w.joined + [n], order := Insert(w.order, n))
  }

  function NextSide(cfg: Settings, w: World): Option<Team>
    requires w.Ok()
  {
    SideFor(cfg, CountOn(w, w.order, CT), CountOn(w, w.order, TT))
  }

  function Seat(cfg: Settings, w: World, n: Name): (r: World)
    requires cfg.Valid() && w.Ok()
    ensures r.Ok()
  {
    SeatOn(cfg, w, n, NextSide(cfg, w))
  }

  const NOBODY := World(map[], [], [], [], 0, NEW_BOMB, [], false)

  /** Everybody is there once, in the order of names and in that of arrival. */
  ghost predicate Listed(w: World) {
    Lists(w.order, w.players.Keys) && Lists(w.joined, w.players.Keys) && Sorted(w.order)
  }

  /** A world in which players have been put, and nothing else has happened. */
  ghost predicate Seated(cfg: Settings, w: World)
    requires cfg.Valid()
  {
    && w.Ok() && Listed(w) && w == NOBODY.(players := w.players, joined := w.joined, order := w.order)
    && forall n <- w.players :: w.players[n] == NewPlayer(cfg, w.players[n].team)
  }

  function RosterOf(w: World): (r: seq<(Name, Team)>)
    requires w.Ok()
    ensures |r| == |w.joined| && forall i :: 0 <= i < |r| ==> r[i] == (w.joined[i], w.players[w.joined[i]].team)
  {
    seq(|w.joined|, i requires 0 <= i < |w.joined| => (w.joined[i], w.players[w.joined[i]].team))
  }

  /** The entrants, as the game and its world have them. */
  function EntrantsOf(w: World, creator: Name, forced: bool): Entrants
    requires w.Ok()
  {
    Entrants(RosterOf(w), creator, forced)
  }

  function OnSide(w: World, names: seq<Name>, t: Team): set<Name>
    requires forall n <- names :: n in w.players
  {
    set n <- names | w.players[n].team == t
  }

  lemma OneMoreInSet(a: set<Name>, n: Name, b: set<Name>)
    requires n !in a && b == a + {n}
    ensures |b| == |a| + 1
  {}

  lemma OneMoreOnSide(w: World, before: seq<Name>, n: Name, names: seq<Name>, t: Team)
    requires n in w.players && (forall m <- before :: m in w.players) && n !in before && names == before + [n]
    ensures |OnSide(w, names, t)| == |OnSide(w, before, t)| + (if w.players[n].team == t then 1 else 0)
  {
    var a, b := OnSide(w, before, t), OnSide(w, names, t);
    assert forall m <- b :: m in a || m == n;
    assert forall m <- a :: m in b;
    if w.players[n].team == t {
      assert n in b;
      OneMoreInSet(a, n, b);
    } else {
      assert a == b;
    }
  }

  /** A count over names that come once is that of a set, in whatever order they come. */
  lemma {:induction false} CountIsCardinality(w: World, names: seq<Name>, t: Team)
    requires (forall n <- names :: n in w.players) && Once(names)
    ensures CountOn(w, names, t) == |OnSide(w, names, t)|
  {
    if names != [] {
      var before, n := names[..|names| - 1], names[|names| - 1];
      CountIsCardinality(w, before, t);
      OneMoreOnSide(w, before, n, names, t);
    }
  }

  lemma SameCount(w: World, xs: seq<Name>, ys: seq<Name>, all: set<Name>, t: Team)
    requires Lists(xs, all) && Lists(ys, all) && all <= w.players.Keys
    ensures (forall n <- xs :: n in w.players) && (forall n <- ys :: n in w.players)
    ensures CountOn(w, xs, t) == CountOn(w, ys, t)
  {
    ListsOnce(xs, all);
    ListsOnce(ys, all);
    CountIsCardinality(w, xs, t);
    CountIsCardinality(w, ys, t);
    assert OnSide(w, xs, t) == OnSide(w, ys, t);
  }

  lemma {:induction false} RosterCounts(w: World, names: seq<Name>, roster: seq<(Name, Team)>, t: Team)
    requires |names| == |roster|
    requires forall i :: 0 <= i < |names| ==> names[i] in w.players && roster[i] == (names[i], w.players[names[i]].team)
    ensures CountOn(w, names, t) == Count(roster, t)
  {
    if names != [] { RosterCounts(w, names[..|names| - 1], roster[..|names| - 1], t); }
  }

  /** The loop of GameWorld::add_player counts the sides as they joined. */
  lemma SidesAreCounted(w: World, t: Team)
    requires w.Ok() && Listed(w)
    ensures CountOn(w, w.order, t) == Count(RosterOf(w), t)
  {
    RosterCounts(w, w.joined, RosterOf(w), t);
    SameCount(w, w.order, w.joined, w.players.Keys, t);
  }

  lemma InIsThere(w: World, n: Name)
    requires w.Ok() && Listed(w)
    ensures IsIn(RosterOf(w), n) <==> n in w.players
  {
    ListsOnce(w.joined, w.players.Keys);
    if n in w.players {
      var i :| 0 <= i < |w.joined| && w.joined[i] == n;
      assert RosterOf(w)[i] in RosterOf(w);
    }
  }

  lemma SeatIsListed(cfg: Settings, w: World, n: Name, t: Team, w': World)
    requires cfg.Valid() && w.Ok() && Listed(w) && n !in w.players && w' == SeatOn(cfg, w, n, Some(t))
    ensures Listed(w') && RosterOf(w') == RosterOf(w) + [(n, t)]
  {
    Inserted(w.order, w.players.Keys, n);
    ListsOneMore(w.joined, w.players.Keys, n);
    assert w'.players.Keys == w.players.Keys + {n};
  }

  /** The world after a join: GameWorld::add_player is called when the checks of CS2DGame::add_player pass. */
  function WorldAfterJoin(cfg: Settings, w: World, g: Entrants, n: Name): (r: World)
    requires cfg.Valid() && w.Ok()
    ensures r.Ok()
  {
    if Refusal(cfg, g, n).None? then Seat(cfg, w, n) else w
  }

  /** The game and its world agree on who is in, after a join as before it. */
  lemma JoinAgrees(cfg: Settings, w: World, g: Entrants, n: Name)
    requires cfg.Valid() && w.Ok() && Listed(w) && g == EntrantsOf(w, g.creator, g.forced)
    ensures var w', g' := WorldAfterJoin(cfg, w, g, n), AfterJoin(cfg, g, n);
            Listed(w') && g' == EntrantsOf(w', g'.creator, g'.forced)
    ensures IsIn(g.roster, n) <==> n in w.players
    ensures NextSide(cfg, w) == SideFor(cfg, Count(g.roster, CT), Count(g.roster, TT))
  {
    InIsThere(w, n);
    SidesAreCounted(w, CT);
    SidesAreCounted(w, TT);
    var side := SideFor(cfg, Count(g.roster, CT), Count(g.roster, TT));
    if JoinOutcome(cfg, g, n) == Joined { SeatIsListed(cfg, w, n, side.value, SeatOn(cfg, w, n, side)); }
  }

  /** A join that is not refused, put together. */
  lemma JoinTold(cfg: Settings, w: World, g: Entrants, n: Name, w': World, creator: Name, ok: bool)
    requires cfg.Valid() && w.Ok() && Listed(w) && g == EntrantsOf(w, g.creator, g.forced) && Refusal(cfg, g, n).None?
    requires w' == Seat(cfg, w, n) && (ok <==> NextSide(cfg, w).Some?)
    requires creator == if g.creator == "" then n else g.creator
    ensures w' == WorldAfterJoin(cfg, w, g, n) && EntrantsOf(w', creator, g.forced) == AfterJoin(cfg, g, n)
    ensures JoinOutcome(cfg, g, n) == if ok then Joined else NoRoom
  {
    JoinAgrees(cfg, w, g, n);
  }

  lemma JoinSeats(cfg: Settings, w: World, g: Entrants, n: Name)
    requires cfg.Valid() && Seated(cfg, w) && g == EntrantsOf(w, g.creator, g.forced)
    ensures Seated(cfg, WorldAfterJoin(cfg, w, g, n))
  {
    JoinAgrees(cfg, w, g, n);
  }

  lemma {:induction false} SomeoneOn(roster: seq<(Name, Team)>, t: Team) returns (e: (Name, Team))
    requires Count(roster, t) >= 1
    ensures e in roster && e.1 == t
  {
    var last := |roster| - 1;
    if roster[last].1 == t { e := roster[last]; } else { e := SomeoneOn(roster[..last], t); }
  }

  /** Whatever requests came, a game that starts does so with both sides present, which is what the
      theorems about matches ask of it. */
  lemma StartedGameHasTwoSides(cfg: Settings, rs: seq<Request>, w: World)
    requires cfg.Valid() && cfg.counterTerrorists >= 1 && cfg.terrorists >= 1
    requires ShouldStart(cfg, HandleAll(cfg, rs)) && Seated(cfg, w) && RosterOf(w) == HandleAll(cfg, rs).roster
    ensures Runs.Lobby(w)
  {
    AdmissionIsFair(cfg, rs, "");
    BothAreThere(cfg, w);
  }

  lemma BothAreThere(cfg: Settings, w: World)
    requires cfg.Valid() && Seated(cfg, w) && Count(RosterOf(w), CT) >= 1 && Count(RosterOf(w), TT) >= 1
    ensures Runs.Lobby(w)
  {
    var ct := SomeoneOn(RosterOf(w), CT);
    var tt := SomeoneOn(RosterOf(w), TT);
    ListsOnce(w.order, w.players.Keys);
  }
}
