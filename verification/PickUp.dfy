/** Picking things up (src/server/game_world.cpp, item.cpp, loadout.cpp): repeated presses go round the
    items in reach in the order in which they were dropped, and make and lose no guns; what a death loses. */
module PickUps {
  import opened Basics
  import opened Settings
  import opened Geometry
  import opened Slide
  import opened Arms
  import opened World
  import opened Accounts

  /** Drop ids of the items within reach of a rectangle. */
  function ReachIds(r: Rect, items: seq<Item>): set<nat> { set it <- items | r.Contains(it.rect) :: it.id }

  /** `n` commands to pick up, in the attack phase, of a player who stays put, nobody else doing anything. */
  function Presses(env: Env, w: World, me: Name, n: nat): (r: World)
    requires env.Valid() && w.Ok() && me in w.players
    ensures r.Ok() && me in r.players
  {
    if n == 0 then w else Execute(env, Presses(env, w, me, n - 1), me, PickUp, false)
  }

  /** The ids of the items that these presses tried, in order. */
  function TriedIds(env: Env, w: World, me: Name, n: nat): seq<nat>
    requires env.Valid() && w.Ok() && me in w.players
  {
    if n == 0 then [] else TriedIds(env, w, me, n - 1) + Tried(Presses(env, w, me, n - 1), me)
  }

  function Tried(w: World, me: Name): seq<nat>
    requires w.Ok() && me in w.players
  {
    match OldestInReach(w, me, 0)
    case None => []
    case Some(i) => [w.items[i].id]
  }

  // ---- One press

  lemma IdsWithout(r: Rect, items: seq<Item>, i: nat, next: nat)
    requires Ids(items, next) && i < |items|
    ensures Ids(Without(items, i), next)
    ensures ReachIds(r, Without(items, i)) == ReachIds(r, items) - {items[i].id}
  {
    var less := Without(items, i);
    forall id | id in ReachIds(r, items) && id != items[i].id ensures id in ReachIds(r, less) {
      var j :| 0 <= j < |items| && items[j].id == id && r.Contains(items[j].rect);
      assert less[if j < i then j else j - 1] == items[j];
    }
    forall it | it in less ensures it.id != items[i].id {
      var j :| 0 <= j < |less| && less[j] == it;
      assert less[j] == items[if j < i then j else j + 1];
    }
  }

  lemma IdsWith(r: Rect, items: seq<Item>, it: Item, next: nat)
    requires Ids(items, next) && it.id == next
    ensures Ids(items + [it], next + 1)
    ensures ReachIds(r, items + [it]) == ReachIds(r, items) + (if r.Contains(it.rect) then {next} else {})
  {
    var more := items + [it];
    forall id | id in ReachIds(r, items) ensures id in ReachIds(r, more) {
      var o :| o in items && o.id == id && r.Contains(o.rect);
      assert o in more;
    }
    assert it in more;
  }

  lemma IdsReplaced(r: Rect, items: seq<Item>, i: nat, it: Item, next: nat)
    requires Ids(items, next) && i < |items| && it.id == next
    ensures Ids(items[i := it], next + 1)
    ensures ReachIds(r, items[i := it]) == ReachIds(r, Without(items, i)) + (if r.Contains(it.rect) then {next} else {})
  {
    var less, new_ := Without(items, i), items[i := it];
    forall x | x in new_ ensures x == it || x in less {
      var j :| 0 <= j < |new_| && new_[j] == x;
      if j != i { assert less[if j < i then j else j - 1] == x; }
    }
    forall x | x in less ensures x in new_ {
      var j :| 0 <= j < |less| && less[j] == x;
      assert new_[if j < i then j else j + 1] == x;
    }
    assert new_[i] == it;
  }

  /** The state of the round: what is in reach, and the next id. */
  ghost predicate Rounds(r: Rect, items: seq<Item>, next: nat, tried: nat, items': seq<Item>, next': nat) {
    && Ids(items', next') && next <= next'
    && forall id ::
         id in ReachIds(r, items') <==>
         (id in ReachIds(r, items) && id != tried) || (id >= next && id in ReachIds(r, items'))
  }

  /** A gun put in its slot, and what was there. */
  function Taken(l: Loadout, g: Gun): (Loadout, Option<Gun>) {
    if g.kind == Glock then (l.(secondary := g), Some(l.secondary)) else (l.(primary := Some(g)), l.primary)
  }

  lemma GunTaken(w: World, me: Name, i: nat, w': World, l': Loadout, out: Option<Gun>)
    requires w.Ok() && me in w.players && i < |w.items| && w.items[i].DroppedGun? && w' == PickUpGun(w, me, i)
    requires (l', out) == Taken(w.players[me].loadout, w.items[i].gun)
    ensures me in w'.players && w'.players[me] == w.players[me].(loadout := l')
    ensures w'.nextDropId == w.nextDropId + (if out.None? then 0 else 1)
    ensures w'.items == Without(w.items, i)
                        + (if out.None? then [] else [DroppedGun(w.items[i].rect, w.nextDropId, out.value)])
  {}

  lemma GunRound(w: World, me: Name, i: nat, w': World)
    requires w.Ok() && me in w.players && Ids(w.items, w.nextDropId) && i < |w.items| && w.items[i].DroppedGun?
    requires w' == PickUpGun(w, me, i)
    ensures Rounds(w.players[me].rect, w.items, w.nextDropId, w.items[i].id, w'.items, w'.nextDropId)
    ensures w'.players[me].rect == w.players[me].rect
  {
    var (l', out) := Taken(w.players[me].loadout, w.items[i].gun);
    GunTaken(w, me, i, w', l', out);
    IdsWithout(w.players[me].rect, w.items, i, w.nextDropId);
    if out.Some? {
      var it := DroppedGun(w.items[i].rect, w.nextDropId, out.value);
      IdsWith(w.players[me].rect, Without(w.items, i), it, w.nextDropId);
    }
  }

  lemma BombTaken(r: Rect, items: seq<Item>, i: nat, next: nat)
    requires Ids(items, next) && i < |items| && items[i].DroppedBomb?
    ensures Rounds(r, items, next, items[i].id, Without(items, i), next)
  {
    IdsWithout(r, items, i, next);
  }

  lemma BombLeft(r: Rect, items: seq<Item>, i: nat, next: nat, it: Item)
    requires Ids(items, next) && i < |items| && items[i].DroppedBomb? && it == DroppedBomb(items[i].rect, next)
    ensures Rounds(r, items, next, items[i].id, items[i := it], next + 1)
  {
    IdsWithout(r, items, i, next);
    IdsReplaced(r, items, i, it, next);
  }

  lemma BombRound(w: World, me: Name, i: nat, w': World)
    requires w.Ok() && me in w.players && Ids(w.items, w.nextDropId) && i < |w.items| && w.items[i].DroppedBomb?
    requires w' == PickUpBomb(w, me, i)
    ensures Rounds(w.players[me].rect, w.items, w.nextDropId, w.items[i].id, w'.items, w'.nextDropId)
    ensures w'.players[me].rect == w.players[me].rect
  {
    if w.players[me].team == TT {
      BombTaken(w.players[me].rect, w.items, i, w.nextDropId);
    } else {
      BombLeft(w.players[me].rect, w.items, i, w.nextDropId, DroppedBomb(w.items[i].rect, w.nextDropId));
    }
  }

  lemma TriedIsOldest(w: World, me: Name, i: nat)
    requires w.Ok() && me in w.players && Ids(w.items, w.nextDropId)
    requires OldestInReach(w, me, 0) == Some(i)
    ensures w.items[i].id in ReachIds(w.players[me].rect, w.items)
    ensures forall id <- ReachIds(w.players[me].rect, w.items) :: w.items[i].id <= id
  {
    assert w.items[i] in w.items;
    forall id | id in ReachIds(w.players[me].rect, w.items) ensures w.items[i].id <= id {
      var j :| 0 <= j < |w.items| && w.items[j].id == id && w.players[me].rect.Contains(w.items[j].rect);
      assert InReach(w, me, j);
    }
  }

  lemma NothingInReach(w: World, me: Name)
    requires w.Ok() && me in w.players && OldestInReach(w, me, 0) == None
    ensures ReachIds(w.players[me].rect, w.items) == {}
  {
    forall it | it in w.items ensures !w.players[me].rect.Contains(it.rect) {
      var j :| 0 <= j < |w.items| && w.items[j] == it;
      assert !InReach(w, me, j);
    }
  }

  // ---- All presses

  /** Halfway through a round that began with the ids `all`: `tried` went through the oldest of them in
      order, and what is left of them in reach is younger. */
  ghost predicate Halfway(r: Rect, items: seq<Item>, all: set<nat>, bound: nat, tried: seq<nat>) {
    && (forall i, j :: 0 <= i < j < |tried| ==> tried[i] < tried[j])
    && (forall id <- tried :: id in all)
    && (forall id: nat :: id < bound ==> (id in ReachIds(r, items) <==> id in all && id !in tried))
    && (forall id, t: nat :: id in all && id !in tried && t in tried ==> t < id)
  }

  lemma OneMore(
    r: Rect, items: seq<Item>, next: nat, items': seq<Item>, next': nat, all: set<nat>, bound: nat,
    tried: seq<nat>, id: nat)
    requires Halfway(r, items, all, bound, tried) && Rounds(r, items, next, id, items', next')
    requires bound <= next && id < bound && id in ReachIds(r, items) && forall j <- ReachIds(r, items) :: id <= j
    requires forall j <- all :: j < bound
    ensures Halfway(r, items', all, bound, tried + [id])
  {
    var more := tried + [id];
    forall t | t in tried ensures t < id {}
    forall i, j | 0 <= i < j < |more| ensures more[i] < more[j] {
      if j == |tried| { assert more[i] == tried[i] && tried[i] in tried; }
    }
  }

  lemma {:induction false} AscendingCounts(s: seq<nat>, all: set<nat>)
    requires (forall i, j :: 0 <= i < j < |s| ==> s[i] < s[j]) && forall x <- s :: x in all
    ensures |s| <= |all|
    ensures |s| == |all| ==> forall x <- all :: x in s
  {
    if s != [] {
      var last := s[|s| - 1];
      forall x | x in s[..|s| - 1] ensures x in all - {last} {}
      assert s == s[..|s| - 1] + [last];
      AscendingCounts(s[..|s| - 1], all - {last});
    }
  }

  function Elements(s: seq<nat>): set<nat> { set x | x in s }

  /** Something is left to try. */
  lemma SomeLeft(all: set<nat>, tried: seq<nat>) returns (id: nat)
    requires |tried| < |all|
    ensures id in all && id !in tried
  {
    SetOfSeq(tried);
    if all <= Elements(tried) { SubsetIsSmaller(all, Elements(tried)); }
    id :| id in all && id !in Elements(tried);
  }

  lemma {:induction false} SetOfSeq(s: seq<nat>)
    ensures |Elements(s)| <= |s|
  {
    if s != [] {
      SetOfSeq(s[1..]);
      assert s == [s[0]] + s[1..];
      assert Elements(s) == {s[0]} + Elements(s[1..]);
    }
  }

  lemma OnePress(w: World, me: Name, w': World, all: set<nat>, bound: nat, tried: seq<nat>)
    requires w.Ok() && me in w.players && Ids(w.items, w.nextDropId) && bound <= w.nextDropId && w' == PickUpItem(w, me)
    requires Halfway(w.players[me].rect, w.items, all, bound, tried) && |tried| < |all| && forall j <- all :: j < bound
    ensures me in w'.players && w'.players[me].rect == w.players[me].rect
    ensures Ids(w'.items, w'.nextDropId) && bound <= w'.nextDropId
    ensures |Tried(w, me)| == 1 && Halfway(w.players[me].rect, w'.items, all, bound, tried + Tried(w, me))
  {
    var r := w.players[me].rect;
    var left := SomeLeft(all, tried);
    if OldestInReach(w, me, 0).None? { NothingInReach(w, me); }
    var i := OldestInReach(w, me, 0).value;
    TriedIsOldest(w, me, i);
    if w.items[i].DroppedGun? { GunRound(w, me, i, w'); } else { BombRound(w, me, i, w'); }
    OneMore(r, w.items, w.nextDropId, w'.items, w'.nextDropId, all, bound, tried, w.items[i].id);
  }

  lemma TakingHarmsNobody(w: World, me: Name, i: nat, w': World)
    requires w.Ok() && me in w.players && i < |w.items|
    requires w' == if w.items[i].DroppedGun? then PickUpGun(w, me, i) else PickUpBomb(w, me, i)
    ensures me in w'.players && w'.players[me].life == w.players[me].life && w'.crashed == w.crashed
  {}

  /** The command picks up for the living. */
  lemma PressPicksUp(env: Env, w: World, me: Name, w': World)
    requires env.Valid() && w.Ok() && me in w.players && w.players[me].Alive() && !w.crashed
    requires w' == Execute(env, w, me, PickUp, false)
    ensures w' == PickUpItem(w, me) && me in w'.players && w'.players[me].Alive() && !w'.crashed
  {
    if OldestInReach(w, me, 0).Some? { TakingHarmsNobody(w, me, OldestInReach(w, me, 0).value, w'); }
  }

  /** The same, said of the world alone. */
  function TakenUp(w: World, me: Name, n: nat): (r: World)
    requires w.Ok() && me in w.players
    ensures r.Ok() && me in r.players
  {
    if n == 0 then w else PickUpItem(TakenUp(w, me, n - 1), me)
  }

  function TriedBy(w: World, me: Name, n: nat): seq<nat>
    requires w.Ok() && me in w.players
  {
    if n == 0 then [] else TriedBy(w, me, n - 1) + Tried(TakenUp(w, me, n - 1), me)
  }

  lemma {:induction false} PressesTakeUp(env: Env, w: World, me: Name, n: nat, w': World)
    requires env.Valid() && w.Ok() && me in w.players && w.players[me].Alive() && !w.crashed
    requires w' == Presses(env, w, me, n)
    ensures w' == TakenUp(w, me, n) && w'.players[me].Alive() && !w'.crashed
    ensures TriedIds(env, w, me, n) == TriedBy(w, me, n)
  {
    if n > 0 {
      var w1 := Presses(env, w, me, n - 1);
      PressesTakeUp(env, w, me, n - 1, w1);
      PressPicksUp(env, w1, me, w');
    }
  }

  lemma {:induction false} TakingGoesRound(w: World, me: Name, n: nat, w': World, all: set<nat>)
    requires w.Ok() && me in w.players && Ids(w.items, w.nextDropId) && w' == TakenUp(w, me, n)
    requires all == ReachIds(w.players[me].rect, w.items) && n <= |all|
    ensures w'.players[me].rect == w.players[me].rect && Ids(w'.items, w'.nextDropId) && w.nextDropId <= w'.nextDropId
    ensures |TriedBy(w, me, n)| == n && Halfway(w.players[me].rect, w'.items, all, w.nextDropId, TriedBy(w, me, n))
  {
    if n > 0 {
      var w1 := TakenUp(w, me, n - 1);
      TakingGoesRound(w, me, n - 1, w1, all);
      OnePress(w1, me, w', all, w.nextDropId, TriedBy(w, me, n - 1));
    }
  }

  /** With k items in reach of a living player who stays put, k commands to pick up try each of them once, in
      the order in which they were dropped. */
  lemma EveryItemIsTriedOnceInOrder(env: Env, w: World, me: Name)
    requires env.Valid() && w.Ok() && me in w.players && w.players[me].Alive() && !w.crashed
    requires Ids(w.items, w.nextDropId)
    ensures var all := ReachIds(w.players[me].rect, w.items);
            var tried := TriedIds(env, w, me, |all|);
            && |tried| == |all|
            && (forall i, j :: 0 <= i < j < |tried| ==> tried[i] < tried[j])
            && (forall id :: id in tried <==> id in all)
  {
    var all := ReachIds(w.players[me].rect, w.items);
    PressesTakeUp(env, w, me, |all|, Presses(env, w, me, |all|));
    TakingGoesRound(w, me, |all|, TakenUp(w, me, |all|), all);
    AscendingCounts(TriedBy(w, me, |all|), all);
  }

  // ---- Nothing is made and nothing lost

  /** What the game tells guns apart by. */
  datatype Piece = Piece(kind: GunType, ammo: nat)

  function PieceOf(g: Gun): Piece { Piece(g.kind, g.ammo) }

  function Hands(l: Loadout): multiset<Piece> {
    multiset{PieceOf(l.secondary)} + (if l.primary.Some? then multiset{PieceOf(l.primary.value)} else multiset{})
  }

  function Ground(items: seq<Item>): multiset<Piece> {
    if items == [] then multiset{}
    else Ground(items[..|items| - 1])
         + (if items[|items| - 1].DroppedGun? then multiset{PieceOf(items[|items| - 1].gun)} else multiset{})
  }

  /** The guns of these players and of the ground. */
  function Arsenal(w: World, names: seq<Name>): multiset<Piece>
    requires forall n <- names :: n in w.players
  {
    if names == [] then Ground(w.items) else Hands(w.players[names[0]].loadout) + Arsenal(w, names[1..])
  }

  lemma {:induction false} GroundSplits(a: seq<Item>, b: seq<Item>)
    ensures Ground(a + b) == Ground(a) + Ground(b)
  {
    if b == [] {
      assert a + b == a;
    } else {
      assert (a + b)[..|a + b| - 1] == a + b[..|b| - 1];
      GroundSplits(a, b[..|b| - 1]);
    }
  }

  function OfItem(it: Item): multiset<Piece> { if it.DroppedGun? then multiset{PieceOf(it.gun)} else multiset{} }

  lemma GroundOfOne(it: Item)
    ensures Ground([it]) == OfItem(it)
  {
    assert [it][..0] == [];
  }

  lemma LastComesFirst(a: multiset<Piece>, b: multiset<Piece>, c: multiset<Piece>)
    ensures a + (b + c) == a + c + b
  {}

  lemma GroundAround(before: seq<Item>, it: Item, after: seq<Item>)
    ensures Ground(before + ([it] + after)) == Ground(before + after) + OfItem(it)
  {
    GroundSplits(before, [it] + after);
    GroundSplits([it], after);
    GroundSplits(before, after);
    GroundOfOne(it);
    LastComesFirst(Ground(before), OfItem(it), Ground(after));
  }

  /** An item and what lies before and after it. */
  lemma Around(items: seq<Item>, i: nat) returns (before: seq<Item>, after: seq<Item>)
    requires i < |items|
    ensures items == before + ([items[i]] + after) && Without(items, i) == before + after
  {
    before, after := items[..i], items[i + 1..];
  }

  lemma GroundWithout(items: seq<Item>, i: nat)
    requires i < |items|
    ensures Ground(items) == Ground(Without(items, i)) + OfItem(items[i])
  {
    var before, after := Around(items, i);
    GroundAround(before, items[i], after);
  }

  /** Only one player's hands and the ground have changed: what they lost and won together. */
  ghost predicate Traded(w: World, w': World, me: Name, lost: multiset<Piece>, won: multiset<Piece>) {
    && me in w.players && w'.players.Keys == w.players.Keys
    && (forall n <- w.players :: n != me ==> w'.players[n] == w.players[n])
    && Hands(w'.players[me].loadout) + Ground(w'.items) + lost == Hands(w.players[me].loadout) + Ground(w.items) + won
  }

  lemma {:induction false} OneHandChanged(
    w: World, w': World, me: Name, names: seq<Name>, lost: multiset<Piece>, won: multiset<Piece>)
    requires Traded(w, w', me, lost, won) && (forall n <- names :: n in w.players) && me in names && Once(names)
    ensures Arsenal(w', names) + lost == Arsenal(w, names) + won
    decreases |names|
  {
    if names[0] == me {
      assert me !in names[1..];
      OthersUnchanged(w, w', me, names[1..], lost, won);
    } else {
      assert names == [names[0]] + names[1..];
      OneHandChanged(w, w', me, names[1..], lost, won);
      AddedTo(Hands(w.players[names[0]].loadout), Arsenal(w', names[1..]), Arsenal(w, names[1..]), lost, won);
    }
  }

  lemma OneHandConserved(w: World, w': World, me: Name, names: seq<Name>)
    requires Traded(w, w', me, multiset{}, multiset{}) && (forall n <- names :: n in w.players) && me in names
    requires Once(names)
    ensures Arsenal(w', names) == Arsenal(w, names)
  {
    OneHandChanged(w, w', me, names, multiset{}, multiset{});
    assert Arsenal(w', names) + multiset{} == Arsenal(w', names);
    assert Arsenal(w, names) + multiset{} == Arsenal(w, names);
  }

  lemma AddedTo(
    h: multiset<Piece>, a': multiset<Piece>, a: multiset<Piece>, lost: multiset<Piece>, won: multiset<Piece>)
    requires a' + lost == a + won
    ensures h + a' + lost == h + a + won
  {
    assert h + a' + lost == h + (a' + lost);
  }

  /** What others have in their hands. */
  function InHands(w: World, names: seq<Name>): multiset<Piece>
    requires forall n <- names :: n in w.players
  {
    if names == [] then multiset{} else Hands(w.players[names[0]].loadout) + InHands(w, names[1..])
  }

  lemma {:induction false} ArsenalIsHandsAndGround(w: World, names: seq<Name>)
    requires forall n <- names :: n in w.players
    ensures Arsenal(w, names) == InHands(w, names) + Ground(w.items)
  {
    if names != [] { ArsenalIsHandsAndGround(w, names[1..]); }
  }

  lemma {:induction false} SameHands(w: World, w': World, me: Name, names: seq<Name>)
    requires w'.players.Keys == w.players.Keys && forall n <- w.players :: n != me ==> w'.players[n] == w.players[n]
    requires (forall n <- names :: n in w.players) && me !in names
    ensures InHands(w', names) == InHands(w, names)
  {
    if names != [] { SameHands(w, w', me, names[1..]); }
  }

  lemma OthersUnchanged(
    w: World, w': World, me: Name, names: seq<Name>, lost: multiset<Piece>, won: multiset<Piece>)
    requires Traded(w, w', me, lost, won) && (forall n <- names :: n in w.players) && me !in names
    ensures Hands(w'.players[me].loadout) + Arsenal(w', names) + lost
            == Hands(w.players[me].loadout) + Arsenal(w, names) + won
  {
    ArsenalIsHandsAndGround(w, names);
    ArsenalIsHandsAndGround(w', names);
    SameHands(w, w', me, names);
    AndOthers(InHands(w, names), Hands(w'.players[me].loadout), Ground(w'.items),
              Hands(w.players[me].loadout), Ground(w.items), lost, won);
  }

  lemma AndOthers(
    others: multiset<Piece>, h': multiset<Piece>, g': multiset<Piece>, h: multiset<Piece>, g: multiset<Piece>,
    lost: multiset<Piece>, won: multiset<Piece>)
    requires h' + g' + lost == h + g + won
    ensures h' + (others + g') + lost == h + (others + g) + won
  {
    assert h' + (others + g') + lost == others + (h' + g' + lost);
    assert h + (others + g) + won == others + (h + g + won);
  }

  lemma TakingSwaps(l: Loadout, g: Gun)
    ensures var (l', out) := Taken(l, g);
            Hands(l') + (if out.Some? then multiset{PieceOf(out.value)} else multiset{})
            == Hands(l) + multiset{PieceOf(g)}
  {}

  lemma GunChangesHands(w: World, me: Name, i: nat, w': World)
    requires w.Ok() && me in w.players && i < |w.items| && w.items[i].DroppedGun? && w' == PickUpGun(w, me, i)
    ensures me in w'.players
            && Hands(w'.players[me].loadout) + Ground(w'.items) == Hands(w.players[me].loadout) + Ground(w.items)
  {
    var l, g := w.players[me].loadout, w.items[i].gun;
    var (l', out) := Taken(l, g);
    TakingSwaps(l, g);
    GunTaken(w, me, i, w', l', out);
    GroundWithout(w.items, i);
    if out.Some? {
      var it := DroppedGun(w.items[i].rect, w.nextDropId, out.value);
      GroundSplits(Without(w.items, i), [it]);
      GroundOfOne(it);
    }
    Rearrange(Hands(l'), Hands(l), Ground(Without(w.items, i)), multiset{PieceOf(g)},
              if out.Some? then multiset{PieceOf(out.value)} else multiset{});
  }

  lemma Rearrange(
    h': multiset<Piece>, h: multiset<Piece>, rest: multiset<Piece>, g: multiset<Piece>, out: multiset<Piece>)
    requires h' + out == h + g
    ensures h' + (rest + out) == h + (rest + g)
  {
    assert h' + (rest + out) == rest + (h' + out);
  }

  lemma BombChangesHands(w: World, me: Name, i: nat, w': World)
    requires w.Ok() && me in w.players && i < |w.items| && w.items[i].DroppedBomb? && w' == PickUpBomb(w, me, i)
    ensures Hands(w'.players[me].loadout) + Ground(w'.items) == Hands(w.players[me].loadout) + Ground(w.items)
  {
    GroundWithout(w.items, i);
    if w.players[me].team != TT {
      GroundWithout(w'.items, i);
      assert Without(w'.items, i) == Without(w.items, i);
    }
  }

  lemma OnlyOnePicksUp(w: World, me: Name, i: nat, w': World)
    requires w.Ok() && me in w.players && i < |w.items|
    requires w' == if w.items[i].DroppedGun? then PickUpGun(w, me, i) else PickUpBomb(w, me, i)
    ensures w'.players.Keys == w.players.Keys
    ensures forall n <- w.players :: n != me ==> w'.players[n] == w.players[n]
  {}

  lemma PressConserves(w: World, me: Name, i: nat, names: seq<Name>, w': World)
    requires w.Ok() && me in names && i < |w.items| && (forall n <- names :: n in w.players) && Once(names)
    requires w' == if w.items[i].DroppedGun? then PickUpGun(w, me, i) else PickUpBomb(w, me, i)
    ensures (forall n <- names :: n in w'.players) && Arsenal(w', names) == Arsenal(w, names)
  {
    TakingTrades(w, me, i, w');
    OneHandConserved(w, w', me, names);
  }

  lemma TakingTrades(w: World, me: Name, i: nat, w': World)
    requires w.Ok() && me in w.players && i < |w.items|
    requires w' == if w.items[i].DroppedGun? then PickUpGun(w, me, i) else PickUpBomb(w, me, i)
    ensures Traded(w, w', me, multiset{}, multiset{})
  {
    OnlyOnePicksUp(w, me, i, w');
    if w.items[i].DroppedGun? { GunChangesHands(w, me, i, w'); } else { BombChangesHands(w, me, i, w'); }
  }

  /** A command to pick up keeps the guns of the game, with their ammunition: what is in anybody's hands and on
      the ground, counted together, whoever `names` lists. */
  lemma PickingUpConserves(env: Env, w: World, me: Name, names: seq<Name>, w': World)
    requires env.Valid() && w.Ok() && me in names && (forall n <- names :: n in w.players) && Once(names)
    requires w' == Execute(env, w, me, PickUp, false)
    ensures (forall n <- names :: n in w'.players) && Arsenal(w', names) == Arsenal(w, names)
  {
    var i := PressTakes(env, w, me, w');
    if i.Some? { PressConserves(w, me, i.value, names, w'); }
  }

  /** The item that a command takes or leaves, if it does anything. */
  lemma PressTakes(env: Env, w: World, me: Name, w': World) returns (i: Option<nat>)
    requires env.Valid() && w.Ok() && me in w.players && w' == Execute(env, w, me, PickUp, false)
    ensures i.None? ==> w' == w
    ensures i.Some? ==> i.value < |w.items|
    ensures i.Some? ==>
              w' == if w.items[i.value].DroppedGun? then PickUpGun(w, me, i.value) else PickUpBomb(w, me, i.value)
  {
    i := if w.crashed || !w.players[me].Alive() then None else OldestInReach(w, me, 0);
  }

  // ---- What a death loses

  predicate Dies(p: Player, damage: nat) { 0 < p.life <= damage }

  /** The primary gun of a victim, on the ground. */
  function FallenGun(w: World, p: Player): seq<Item> {
    match p.loadout.primary
    case None => []
    case Some(g) => [DroppedGun(Rect(p.rect.x, p.rect.y, ITEM, ITEM), w.nextDropId, g)]
  }

  /** The glock of the victim is replaced by a new one; everything else that shoots falls. */
  lemma VictimTrades(env: Env, w: World, v: Name, damage: nat, s: Source, w': World)
    requires env.Valid() && w.Ok() && v in w.players && Dies(w.players[v], damage)
    requires w' == ReceiveDamage(env, w, v, damage, s)
    ensures Traded(w, w', v, multiset{PieceOf(w.players[v].loadout.secondary)},
                   multiset{PieceOf(NewGun(env.cfg, Glock))})
  {
    var p := w.players[v];
    var guns := FallenGun(w, p);
    var bombs: seq<Item> := if p.loadout.hasBomb then [DroppedBomb(ItemRect(p), w.nextDropId + |guns|)] else [];
    VictimDrops(env, w, v, damage, s, w', guns, bombs);
    GroundAfterDeath(w.items, guns, bombs);
    GlockTraded(Ground(guns), Ground(w.items), multiset{PieceOf(p.loadout.secondary)},
                multiset{PieceOf(NewGun(env.cfg, Glock))});
    HandsOfVictim(p.loadout, guns, w'.players[v].loadout, env.cfg);
  }

  lemma GroundAfterDeath(items: seq<Item>, guns: seq<Item>, bombs: seq<Item>)
    requires |bombs| <= 1 && forall it <- bombs :: it.DroppedBomb?
    ensures Ground(items + guns + bombs) == Ground(items) + Ground(guns)
  {
    GroundSplits(items + guns, bombs);
    GroundSplits(items, guns);
    if bombs != [] {
      GroundOfOne(bombs[0]);
      assert bombs == [bombs[0]] && bombs[0] in bombs;
    }
    assert Ground(bombs) == multiset{};
  }

  /** What was in the victim's hands is the glock and what falls, and then a new glock. */
  lemma HandsOfVictim(l: Loadout, guns: seq<Item>, l': Loadout, cfg: Settings)
    requires if l.primary.None? then guns == []
             else |guns| == 1 && guns[0].DroppedGun? && guns[0].gun == l.primary.value
    requires l' == ResetLoadout(cfg, l, true)
    ensures Hands(l) == multiset{PieceOf(l.secondary)} + Ground(guns)
    ensures Hands(l') == multiset{PieceOf(NewGun(cfg, Glock))}
  {
    if guns != [] {
      GroundOfOne(guns[0]);
      assert guns == [guns[0]];
    }
  }

  lemma GlockTraded(fallen: multiset<Piece>, ground: multiset<Piece>, glock: multiset<Piece>, renewed: multiset<Piece>)
    ensures renewed + (ground + fallen) + glock == glock + fallen + ground + renewed
  {}

  lemma VictimDrops(
    env: Env, w: World, v: Name, damage: nat, s: Source, w': World, guns: seq<Item>, bombs: seq<Item>)
    requires env.Valid() && w.Ok() && v in w.players && Dies(w.players[v], damage)
    requires w' == ReceiveDamage(env, w, v, damage, s)
    requires var p := w.players[v];
             && guns == FallenGun(w, p)
             && bombs == (if p.loadout.hasBomb then [DroppedBomb(ItemRect(p), w.nextDropId + |guns|)] else [])
    ensures w'.items == w.items + guns + bombs && w'.players.Keys == w.players.Keys
    ensures w'.players[v].loadout == ResetLoadout(env.cfg, w.players[v].loadout, true)
    ensures forall n <- w.players :: n != v ==> w'.players[n] == w.players[n]
  {}

  lemma NobodyTrades(env: Env, w: World, v: Name, damage: nat, s: Source, w': World)
    requires env.Valid() && w.Ok() && v in w.players && !Dies(w.players[v], damage)
    requires w' == ReceiveDamage(env, w, v, damage, s)
    ensures Traded(w, w', v, multiset{}, multiset{})
  {}

  lemma SameOnlyIf(a': multiset<Piece>, a: multiset<Piece>, x: Piece, y: Piece)
    requires a' + multiset{x} == a + multiset{y}
    ensures a' == a <==> x == y
  {
    assert (a' + multiset{x})[x] == a'[x] + 1;
    assert (a + multiset{y})[x] == a[x] + (if x == y then 1 else 0);
    if x == y {
      assert a' == a' + multiset{x} - multiset{x};
      assert a == a + multiset{x} - multiset{x};
    }
  }

  lemma DeathTrades(
    env: Env, w: World, v: Name, damage: nat, s: Source, names: seq<Name>, w': World, glock: Piece, renewed: Piece)
    requires env.Valid() && w.Ok() && v in names && (forall n <- names :: n in w.players) && Once(names)
    requires Dies(w.players[v], damage) && w' == ReceiveDamage(env, w, v, damage, s)
    requires glock == PieceOf(w.players[v].loadout.secondary) && renewed == PieceOf(NewGun(env.cfg, Glock))
    ensures forall n <- names :: n in w'.players
    ensures Arsenal(w', names) + multiset{glock} == Arsenal(w, names) + multiset{renewed}
    ensures Arsenal(w', names) == Arsenal(w, names) <==> glock == renewed
  {
    VictimTrades(env, w, v, damage, s, w');
    OneHandChanged(w, w', v, names, multiset{glock}, multiset{renewed});
    SameOnlyIf(Arsenal(w', names), Arsenal(w, names), glock, renewed);
  }

  lemma WoundTrades(env: Env, w: World, v: Name, damage: nat, s: Source, names: seq<Name>, w': World)
    requires env.Valid() && w.Ok() && v in names && (forall n <- names :: n in w.players) && Once(names)
    requires !Dies(w.players[v], damage) && w' == ReceiveDamage(env, w, v, damage, s)
    ensures (forall n <- names :: n in w'.players) && Arsenal(w', names) == Arsenal(w, names)
  {
    NobodyTrades(env, w, v, damage, s, w');
    OneHandConserved(w, w', v, names);
  }

  /** Damage to a player trades, among all the guns in hands and on the ground, the victim's glock for a new one if
      it kills and nothing if it does not; so the guns stay the same exactly when nobody dies or the glock
      was as good as new. */
  lemma DeathTradesTheGlock(env: Env, w: World, v: Name, damage: nat, s: Source, names: seq<Name>, w': World)
    requires env.Valid() && w.Ok() && v in names && (forall n <- names :: n in w.players) && Once(names)
    requires w' == ReceiveDamage(env, w, v, damage, s)
    ensures forall n <- names :: n in w'.players
    ensures var glock, renewed := PieceOf(w.players[v].loadout.secondary), PieceOf(NewGun(env.cfg, Glock));
            && (Dies(w.players[v], damage) ==>
                  Arsenal(w', names) + multiset{glock} == Arsenal(w, names) + multiset{renewed})
            && (Arsenal(w', names) == Arsenal(w, names) <==> !Dies(w.players[v], damage) || glock == renewed)
  {
    if Dies(w.players[v], damage) {
      DeathTrades(env, w, v, damage, s, names, w', PieceOf(w.players[v].loadout.secondary),
                  PieceOf(NewGun(env.cfg, Glock)));
    } else {
      WoundTrades(env, w, v, damage, s, names, w');
    }
  }
}
