/** The messages of the protocol: what the server tells its clients (src/server/server_protocol.cpp,
    read in src/client/client_protocol.cpp) and what these ask of it, with the round trips. */
module Messages {
  import opened Basics
  import opened Settings
  import opened Wire
  import W = World

  datatype Pos = Pos(x: int, y: int)

  datatype LoadoutDTO = LoadoutDTO(
    money: int, primary: Option<GunType>, primaryAmmo: int, secondary: Option<GunType>, secondaryAmmo: int,
    equipped: WeaponType, hasBomb: bool)

  /** Three truth values and three counters of a player, which the program does not group. */
  datatype Flags = Flags(planting: bool, defusing: bool, onSite: bool)
  datatype Score = Score(bonifications: int, kills: int, deaths: int)

  datatype PlayerDTO = PlayerDTO(
    username: Bytes, position: Pos, orientation: real, life: int, shot: Option<Pos>,
    flags: Flags, score: Score, loadout: LoadoutDTO)

  datatype ItemDTO = GunDTO(position: Pos, gun: Option<GunType>, ammo: int) | BombDTO(position: Pos)

  // ---- Positions

  function PutPos(p: Pos, rest: Bytes): Bytes { PutNum(p.x, PutNum(p.y, rest)) }

  function GetPos(bs: Bytes): (r: Parsed<Pos>)
    ensures r.Ok? ==> PosFits(r.value)
  {
    var (x, bs1) :- GetNum(bs);
    var (y, bs2) :- GetNum(bs1);
    Ok(Pos(x, y), bs2)
  }

  predicate PosFits(p: Pos) { Fits16(p.x) && Fits16(p.y) }

  lemma PosReturns(p: Pos, rest: Bytes)
    requires PosFits(p)
    ensures GetPos(PutPos(p, rest)) == Ok(p, rest)
  {
    NumFitsReturns(p.x, PutNum(p.y, rest));
    NumFitsReturns(p.y, rest);
  }

  /** A position that may be missing takes the same room then: a shot, or the place of the bomb. */
  function PutMaybePos(p: Option<Pos>, rest: Bytes): Bytes {
    PutBool(p.Some?, PutPos(if p.Some? then p.value else Pos(0, 0), rest))
  }

  function GetMaybePos(bs: Bytes): (r: Parsed<Option<Pos>>)
    ensures r.Ok? ==> MaybePosFits(r.value)
  {
    var (present, bs1) :- GetBool(bs);
    var (p, bs2) :- GetPos(bs1);
    Ok(if present then Some(p) else None, bs2)
  }

  predicate MaybePosFits(p: Option<Pos>) { p.Some? ==> PosFits(p.value) }

  lemma MaybePosReturns(p: Option<Pos>, rest: Bytes)
    requires MaybePosFits(p)
    ensures GetMaybePos(PutMaybePos(p, rest)) == Ok(p, rest)
  {
    var q := if p.Some? then p.value else Pos(0, 0);
    BoolReturns(p.Some?, PutPos(q, rest));
    PosReturns(q, rest);
  }

  // ---- Bonifications, which have a sign

  function Abs(n: int): int { if n < 0 then -n else n }

  function PutBonus(n: int, rest: Bytes): Bytes { PutByte(if n > 0 then 0 else 1, PutNum(Abs(n), rest)) }

  function GetBonus(bs: Bytes): (r: Parsed<int>)
    ensures r.Ok? ==> Fits16(Abs(r.value))
  {
    var (sign, bs1) :- GetByte(bs);
    var (n, bs2) :- GetNum(bs1);
    Ok(if sign == 1 then -n else n, bs2)
  }

  lemma BonusReturns(n: int, rest: Bytes)
    requires Fits16(Abs(n))
    ensures GetBonus(PutBonus(n, rest)) == Ok(n, rest)
  {
    NumFitsReturns(Abs(n), rest);
  }

  // ---- Loadouts

  function PutLoadout(l: LoadoutDTO, rest: Bytes): Bytes {
    PutNum(l.money, PutByte(GunCode(l.primary), PutNum(l.primaryAmmo, PutByte(GunCode(l.secondary),
    PutNum(l.secondaryAmmo, PutByte(SlotCode(l.equipped), PutBool(l.hasBomb, rest)))))))
  }

  function GetLoadout(bs: Bytes): (r: Parsed<LoadoutDTO>)
    ensures r.Ok? ==> LoadoutFits(r.value)
  {
    var (money, bs1) :- GetNum(bs);
    var (primary, bs2) :- GetCode(GunOf, bs1);
    var (primaryAmmo, bs3) :- GetNum(bs2);
    var (secondary, bs4) :- GetCode(GunOf, bs3);
    var (secondaryAmmo, bs5) :- GetNum(bs4);
    var (equipped, bs6) :- GetCode(SlotOf, bs5);
    var (hasBomb, bs7) :- GetBool(bs6);
    Ok(LoadoutDTO(money, primary, primaryAmmo, secondary, secondaryAmmo, equipped, hasBomb), bs7)
  }

  predicate LoadoutFits(l: LoadoutDTO) { Fits16(l.money) && Fits16(l.primaryAmmo) && Fits16(l.secondaryAmmo) }

  lemma LoadoutReturns(l: LoadoutDTO, rest: Bytes)
    requires LoadoutFits(l)
    ensures GetLoadout(PutLoadout(l, rest)) == Ok(l, rest)
  {
    TablesAgree();
    var bs6 := PutBool(l.hasBomb, rest);
    var bs5 := PutByte(SlotCode(l.equipped), bs6);
    var bs4 := PutNum(l.secondaryAmmo, bs5);
    var bs3 := PutByte(GunCode(l.secondary), bs4);
    var bs2 := PutNum(l.primaryAmmo, bs3);
    var bs1 := PutByte(GunCode(l.primary), bs2);
    NumFitsReturns(l.money, bs1);
    CodeIsRead(GunOf, GunCode(l.primary), l.primary, bs2);
    NumFitsReturns(l.primaryAmmo, bs3);
    CodeIsRead(GunOf, GunCode(l.secondary), l.secondary, bs4);
    NumFitsReturns(l.secondaryAmmo, bs5);
    CodeIsRead(SlotOf, SlotCode(l.equipped), l.equipped, bs6);
    BoolReturns(l.hasBomb, rest);
  }

  // ---- Players

  function PutFlags(f: Flags, rest: Bytes): Bytes { PutBool(f.planting, PutBool(f.defusing, PutBool(f.onSite, rest))) }

  function GetFlags(bs: Bytes): Parsed<Flags> {
    var (planting, bs1) :- GetBool(bs);
    var (defusing, bs2) :- GetBool(bs1);
    var (onSite, bs3) :- GetBool(bs2);
    Ok(Flags(planting, defusing, onSite), bs3)
  }

  lemma FlagsReturn(f: Flags, rest: Bytes)
    ensures GetFlags(PutFlags(f, rest)) == Ok(f, rest)
  {}

  function PutScore(s: Score, rest: Bytes): Bytes {
    PutBonus(s.bonifications, PutByte(s.kills, PutByte(s.deaths, rest)))
  }

  function GetScore(bs: Bytes): (r: Parsed<Score>)
    ensures r.Ok? ==> ScoreFits(r.value)
  {
    var (bonifications, bs1) :- GetBonus(bs);
    var (kills, bs2) :- GetByte(bs1);
    var (deaths, bs3) :- GetByte(bs2);
    Ok(Score(bonifications, kills, deaths), bs3)
  }

  predicate ScoreFits(s: Score) { Fits16(Abs(s.bonifications)) && Fits8(s.kills) && Fits8(s.deaths) }

  lemma ScoreReturns(s: Score, rest: Bytes)
    requires ScoreFits(s)
    ensures GetScore(PutScore(s, rest)) == Ok(s, rest)
  {
    BonusReturns(s.bonifications, PutByte(s.kills, PutByte(s.deaths, rest)));
  }

  function PutPlayer(p: PlayerDTO, rest: Bytes): Bytes {
    PutText(p.username, PutPos(p.position, PutAngle(p.orientation, PutNum(p.life, PutMaybePos(p.shot,
    PutFlags(p.flags, PutScore(p.score, PutLoadout(p.loadout, rest))))))))
  }

  function GetPlayer(bs: Bytes): (r: Parsed<PlayerDTO>)
    ensures r.Ok? ==> PlayerFits(r.value) && Turned(r.value) == r.value
  {
    var (username, bs1) :- GetText(bs);
    var (position, bs2) :- GetPos(bs1);
    var (orientation, bs3) :- GetAngle(bs2);
    var (life, bs4) :- GetNum(bs3);
    var (shot, bs5) :- GetMaybePos(bs4);
    var (flags, bs6) :- GetFlags(bs5);
    var (score, bs7) :- GetScore(bs6);
    var (loadout, bs8) :- GetLoadout(bs7);
    Ok(PlayerDTO(username, position, orientation, life, shot, flags, score, loadout), bs8)
  }

  predicate PlayerFits(p: PlayerDTO) {
    && Fits16(|p.username|) && PosFits(p.position) && AngleFits(p.orientation) && Fits16(p.life) && MaybePosFits(p.shot)
    && ScoreFits(p.score) && LoadoutFits(p.loadout)
  }

  /** A player as the client sees it: its angle is off by less than 360/65535 of a degree. */
  function Turned(p: PlayerDTO): PlayerDTO { p.(orientation := Rounded(p.orientation)) }

  lemma PlayerReturns(p: PlayerDTO, rest: Bytes)
    requires PlayerFits(p)
    ensures GetPlayer(PutPlayer(p, rest)) == Ok(Turned(p), rest)
  {
    var bs7 := PutLoadout(p.loadout, rest);
    var bs6 := PutScore(p.score, bs7);
    var bs5 := PutFlags(p.flags, bs6);
    var bs4 := PutMaybePos(p.shot, bs5);
    var bs3 := PutNum(p.life, bs4);
    var bs2 := PutAngle(p.orientation, bs3);
    TextReturns(p.username, PutPos(p.position, bs2));
    PosReturns(p.position, bs2);
    AngleReturns(p.orientation, bs3);
    NumFitsReturns(p.life, bs4);
    MaybePosReturns(p.shot, bs5);
    FlagsReturn(p.flags, bs6);
    ScoreReturns(p.score, bs7);
    LoadoutReturns(p.loadout, rest);
  }

  function PutPlayers(ps: seq<PlayerDTO>, rest: Bytes): Bytes { PutByte(|ps|, PutMany(PutPlayer, ps, rest)) }

  function GetPlayers(bs: Bytes): (r: Parsed<seq<PlayerDTO>>)
    ensures r.Ok? ==> PlayersFit(r.value) && Each(Turned, r.value) == r.value
  {
    var (n, bs1) :- GetByte(bs);
    ManyFit(GetPlayer, (p: PlayerDTO) => PlayerFits(p) && Turned(p) == p, n, bs1);
    GetMany(GetPlayer, n, bs1)
  }

  predicate PlayersFit(ps: seq<PlayerDTO>) { Fits8(|ps|) && forall p <- ps :: PlayerFits(p) }

  lemma PlayersReturn(ps: seq<PlayerDTO>, rest: Bytes)
    requires PlayersFit(ps)
    ensures GetPlayers(PutPlayers(ps, rest)) == Ok(Each(Turned, ps), rest)
  {
    forall p, r | p in ps ensures GetPlayer(PutPlayer(p, r)) == Ok(Turned(p), r) { PlayerReturns(p, r); }
    ManyReturn(PutPlayer, GetPlayer, Turned, ps, rest);
  }

  // ---- Items

  const GUN_DROPPED: byte := 0x61
  const BOMB_DROPPED: byte := 0x62

  function PutItem(it: ItemDTO, rest: Bytes): Bytes {
    match it
    case GunDTO(p, gun, ammo) => PutByte(GUN_DROPPED, PutPos(p, PutByte(GunCode(gun), PutNum(ammo, rest))))
    case BombDTO(p) => PutByte(BOMB_DROPPED, PutPos(p, rest))
  }

  /** The codes of src/common/common_protocol.cpp that stand for a command. */
  predicate IsCommandCode(code: byte) {
    code in {1, 2, 3, 5, 6, 7, 8, 9, 0x11, 0x12, 0x30, 0x55, 0x60, 0x61, 0x62}
  }

  /** Any other command than the one of a bomb is read as a gun. */
  function GetItem(bs: Bytes): (r: Parsed<ItemDTO>)
    ensures r.Ok? ==> ItemFits(r.value)
  {
    var (code, bs1) :- GetByte(bs);
    if code == BOMB_DROPPED then
      var (p, bs2) :- GetPos(bs1);
      Ok(BombDTO(p), bs2)
    else if !IsCommandCode(code) then Malformed
    else
      var (p, bs2) :- GetPos(bs1);
      var (gun, bs3) :- GetCode(GunOf, bs2);
      var (ammo, bs4) :- GetNum(bs3);
      Ok(GunDTO(p, gun, ammo), bs4)
  }

  predicate ItemFits(it: ItemDTO) { PosFits(it.position) && (it.GunDTO? ==> Fits16(it.ammo)) }

  lemma ItemReturns(it: ItemDTO, rest: Bytes)
    requires ItemFits(it)
    ensures GetItem(PutItem(it, rest)) == Ok(it, rest)
  {
    match it
    case BombDTO(p) => PosReturns(p, rest);
    case GunDTO(p, gun, ammo) =>
      TablesAgree();
      PosReturns(p, PutByte(GunCode(gun), PutNum(ammo, rest)));
      CodeIsRead(GunOf, GunCode(gun), gun, PutNum(ammo, rest));
      NumFitsReturns(ammo, rest);
  }

  function Same<T>(x: T): T { x }

  function PutItems(its: seq<ItemDTO>, rest: Bytes): Bytes { PutNum(|its|, PutMany(PutItem, its, rest)) }

  function GetItems(bs: Bytes): (r: Parsed<seq<ItemDTO>>)
    ensures r.Ok? ==> ItemsFit(r.value)
  {
    var (n, bs1) :- GetNum(bs);
    ManyFit(GetItem, ItemFits, n, bs1);
    GetMany(GetItem, n, bs1)
  }

  predicate ItemsFit(its: seq<ItemDTO>) { Fits16(|its|) && forall it <- its :: ItemFits(it) }

  lemma ItemsReturn(its: seq<ItemDTO>, rest: Bytes)
    requires ItemsFit(its)
    ensures GetItems(PutItems(its, rest)) == Ok(its, rest)
  {
    forall it, r | it in its ensures GetItem(PutItem(it, r)) == Ok(Same(it), r) { ItemReturns(it, r); }
    ManyReturn(PutItem, GetItem, Same<ItemDTO>, its, rest);
    NumFitsReturns(|its|, PutMany(PutItem, its, rest));
    assert Each(Same<ItemDTO>, its) == its;
  }

  // ---- Snapshots

  /** The winner of the round, if it has one yet. */
  function PutWinner(t: Option<Team>, rest: Bytes): Bytes {
    PutBool(t.Some?, PutByte(if t.Some? then TeamCode(t.value) else 0, rest))
  }

  function GetWinner(bs: Bytes): Parsed<Option<Team>> {
    var (present, bs1) :- GetBool(bs);
    var (code, bs2) :- GetByte(bs1);
    if !present then Ok(None, bs2)
    else if TeamOf(code).None? then Malformed
    else Ok(TeamOf(code), bs2)
  }

  lemma WinnerReturns(t: Option<Team>, rest: Bytes)
    ensures GetWinner(PutWinner(t, rest)) == Ok(t, rest)
  {}

  /** The counters that a snapshot begins with, which the program does not group. */
  datatype Header = Header(
    totalPlayers: int, phase: Phase, round: int, totalRounds: int, ctWins: int, ttWins: int, timeLeft: int,
        bombStatus: BombStatus)

  function PutHeader(h: Header, rest: Bytes): Bytes {
    PutByte(h.totalPlayers, PutByte(PhaseCode(h.phase), PutByte(h.round, PutByte(h.totalRounds, PutByte(h.ctWins,
    PutByte(h.ttWins, PutByte(h.timeLeft, PutByte(StatusCode(h.bombStatus), rest))))))))
  }

  function GetHeader(bs: Bytes): (r: Parsed<Header>)
    ensures r.Ok? ==> HeaderFits(r.value)
  {
    var (totalPlayers, bs1) :- GetByte(bs);
    var (phase, bs2) :- GetCode(PhaseOf, bs1);
    var (round, bs3) :- GetByte(bs2);
    var (totalRounds, bs4) :- GetByte(bs3);
    var (ctWins, bs5) :- GetByte(bs4);
    var (ttWins, bs6) :- GetByte(bs5);
    var (timeLeft, bs7) :- GetByte(bs6);
    var (bombStatus, bs8) :- GetCode(StatusOf, bs7);
    Ok(Header(totalPlayers, phase, round, totalRounds, ctWins, ttWins, timeLeft, bombStatus), bs8)
  }

  predicate HeaderFits(h: Header) {
    Fits8(h.totalPlayers) && Fits8(h.round) && Fits8(h.totalRounds) && Fits8(h.ctWins) && Fits8(h.ttWins)
        && Fits8(h.timeLeft)
  }

  lemma HeaderReturns(h: Header, rest: Bytes)
    requires HeaderFits(h)
    ensures GetHeader(PutHeader(h, rest)) == Ok(h, rest)
  {
    TablesAgree();
  }

  datatype Snapshot = Snapshot(
    header: Header, bombPosition: Option<Pos>, cts: seq<PlayerDTO>, tts: seq<PlayerDTO>,
    winner: Option<Team>, items: seq<ItemDTO>)

  function PutSnapshot(s: Snapshot, rest: Bytes): Bytes {
    var people := PutPlayers(s.cts, PutPlayers(s.tts, PutWinner(s.winner, PutItems(s.items, rest))));
    PutHeader(s.header, PutMaybePos(s.bombPosition, people))
  }

  function GetSnapshot(bs: Bytes): (r: Parsed<Snapshot>)
    ensures r.Ok? ==> SnapshotFits(r.value) && Seen(r.value) == r.value
  {
    var (header, bs1) :- GetHeader(bs);
    var (bombPosition, bs2) :- GetMaybePos(bs1);
    var (cts, bs3) :- GetPlayers(bs2);
    var (tts, bs4) :- GetPlayers(bs3);
    var (winner, bs5) :- GetWinner(bs4);
    var (items, bs6) :- GetItems(bs5);
    Ok(Snapshot(header, bombPosition, cts, tts, winner, items), bs6)
  }

  predicate SnapshotFits(s: Snapshot) {
    && HeaderFits(s.header) && MaybePosFits(s.bombPosition) && PlayersFit(s.cts) && PlayersFit(s.tts)
       && ItemsFit(s.items)
  }

  /** A snapshot as the client sees it. */
  function Seen(s: Snapshot): Snapshot { s.(cts := Each(Turned, s.cts), tts := Each(Turned, s.tts)) }

  lemma SnapshotReturns(s: Snapshot, rest: Bytes)
    requires SnapshotFits(s)
    ensures GetSnapshot(PutSnapshot(s, rest)) == Ok(Seen(s), rest)
  {
    var bs5 := PutItems(s.items, rest);
    var bs4 := PutWinner(s.winner, bs5);
    var bs3 := PutPlayers(s.tts, bs4);
    var bs2 := PutPlayers(s.cts, bs3);
    var bs1 := PutMaybePos(s.bombPosition, bs2);
    HeaderReturns(s.header, bs1);
    MaybePosReturns(s.bombPosition, bs2);
    PlayersReturn(s.cts, bs3);
    PlayersReturn(s.tts, bs4);
    WinnerReturns(s.winner, bs5);
    ItemsReturn(s.items, rest);
  }

  // ---- The map and the shop, sent once

  datatype MapObjectDTO = MapObjectDTO(kind: int, collidable: bool, positions: seq<Pos>)

  type Prices = map<Option<GunType>, int>

  datatype InitInfo = InitInfo(
    background: int, objects: seq<MapObjectDTO>, sites: set<Pos>, prices: Prices, clips: Prices, clipPrice: int)

  /** The orders in which the server's containers happen to give their elements. */
  datatype Orders = Orders(sites: seq<Pos>, prices: seq<(Option<GunType>, int)>, clips: seq<(Option<GunType>, int)>)

  function SetOf<T>(xs: seq<T>): set<T> { set x | x in xs }

  function PricesOf(ps: seq<(Option<GunType>, int)>): Prices {
    if ps == [] then map[] else PricesOf(ps[..|ps| - 1])[ps[|ps| - 1].0 := ps[|ps| - 1].1]
  }

  /** Every key once. */
  predicate KeysOnce(ps: seq<(Option<GunType>, int)>) { forall i, j :: 0 <= i < j < |ps| ==> ps[i].0 != ps[j].0 }

  ghost predicate Arranges(info: InitInfo, o: Orders) {
    && Once(o.sites) && SetOf(o.sites) == info.sites
    && KeysOnce(o.prices) && PricesOf(o.prices) == info.prices
    && KeysOnce(o.clips) && PricesOf(o.clips) == info.clips
  }

  function PutObject(ob: MapObjectDTO, rest: Bytes): Bytes {
    PutNum(ob.kind, PutBool(ob.collidable, PutNum(|ob.positions|, PutMany(PutPos, ob.positions, rest))))
  }

  function GetObject(bs: Bytes): (r: Parsed<MapObjectDTO>)
    ensures r.Ok? ==> ObjectFits(r.value)
  {
    var (kind, bs1) :- GetNum(bs);
    var (code, bs2) :- GetByte(bs1);
    var (n, bs3) :- GetNum(bs2);
    ManyFit(GetPos, PosFits, n, bs3);
    var (positions, bs4) :- GetMany(GetPos, n, bs3);
    if code > 1 then Malformed else Ok(MapObjectDTO(kind, code == 1, positions), bs4)
  }

  predicate PositionsFit(ps: seq<Pos>) { Fits16(|ps|) && forall p <- ps :: PosFits(p) }

  predicate ObjectFits(ob: MapObjectDTO) { Fits16(ob.kind) && PositionsFit(ob.positions) }

  lemma PositionsReturn(ps: seq<Pos>, rest: Bytes)
    requires forall p <- ps :: PosFits(p)
    ensures GetMany(GetPos, |ps|, PutMany(PutPos, ps, rest)) == Ok(ps, rest)
  {
    forall p, r | p in ps ensures GetPos(PutPos(p, r)) == Ok(Same(p), r) { PosReturns(p, r); }
    ManyReturn(PutPos, GetPos, Same<Pos>, ps, rest);
    assert Each(Same<Pos>, ps) == ps;
  }

  lemma ObjectReturns(ob: MapObjectDTO, rest: Bytes)
    requires ObjectFits(ob)
    ensures GetObject(PutObject(ob, rest)) == Ok(ob, rest)
  {
    var bs3 := PutMany(PutPos, ob.positions, rest);
    var bs2 := PutNum(|ob.positions|, bs3);
    NumFitsReturns(ob.kind, PutBool(ob.collidable, bs2));
    NumFitsReturns(|ob.positions|, bs3);
    PositionsReturn(ob.positions, rest);
  }

  function PutPrice(p: (Option<GunType>, int), rest: Bytes): Bytes { PutByte(GunCode(p.0), PutNum(p.1, rest)) }

  function GetPrice(bs: Bytes): (r: Parsed<(Option<GunType>, int)>)
    ensures r.Ok? ==> PriceFits(r.value)
  {
    var (gun, bs1) :- GetCode(GunOf, bs);
    var (price, bs2) :- GetNum(bs1);
    Ok((gun, price), bs2)
  }

  predicate PriceFits(p: (Option<GunType>, int)) { Fits16(p.1) }

  lemma PriceReturns(p: (Option<GunType>, int), rest: Bytes)
    requires PriceFits(p)
    ensures GetPrice(PutPrice(p, rest)) == Ok(p, rest)
  {
    TablesAgree();
    CodeIsRead(GunOf, GunCode(p.0), p.0, PutNum(p.1, rest));
    NumFitsReturns(p.1, rest);
  }

  function PutPrices(ps: seq<(Option<GunType>, int)>, rest: Bytes): Bytes { PutByte(|ps|, PutMany(PutPrice, ps, rest)) }

  function GetPrices(bs: Bytes): (r: Parsed<Prices>)
    ensures r.Ok? ==> PricesFit(r.value)
  {
    var (n, bs1) :- GetByte(bs);
    ManyFit(GetPrice, PriceFits, n, bs1);
    var (ps, bs2) :- GetMany(GetPrice, n, bs1);
    PricesListed(ps);
    Ok(PricesOf(ps), bs2)
  }

  predicate PricesFit(m: Prices) { forall g <- m :: Fits16(m[g]) }

  lemma {:induction false} PricesListed(ps: seq<(Option<GunType>, int)>)
    ensures forall g <- PricesOf(ps) :: (g, PricesOf(ps)[g]) in ps
    ensures forall p <- ps :: p.0 in PricesOf(ps)
    ensures KeysOnce(ps) ==> (forall p <- ps :: PricesOf(ps)[p.0] == p.1) && |PricesOf(ps)| == |ps|
  {
    if ps != [] {
      PricesListed(ps[..|ps| - 1]);
      assert ps == ps[..|ps| - 1] + [ps[|ps| - 1]];
    }
  }

  /** There are five guns to put a price on, NONE included. */
  lemma FewPrices(m: Prices)
    ensures |m| <= 5
  {
    var guns: set<Option<GunType>> := {None, Some(Glock), Some(Ak47), Some(M3), Some(Awp)};
    forall g | g in m.Keys ensures g in guns {
      match g
      case None =>
      case Some(kind) => match kind case Glock => case Ak47 => case M3 => case Awp =>
    }
    SubsetIsSmaller(m.Keys, guns);
    assert |m| == |m.Keys|;
  }

  lemma PricesReturn(ps: seq<(Option<GunType>, int)>, rest: Bytes)
    requires KeysOnce(ps) && PricesFit(PricesOf(ps))
    ensures GetPrices(PutPrices(ps, rest)) == Ok(PricesOf(ps), rest)
  {
    PricesListed(ps);
    FewPrices(PricesOf(ps));
    forall p, r | p in ps ensures GetPrice(PutPrice(p, r)) == Ok(Same(p), r) { PriceReturns(p, r); }
    ManyReturn(PutPrice, GetPrice, Same<(Option<GunType>, int)>, ps, rest);
    assert Each(Same<(Option<GunType>, int)>, ps) == ps;
  }

  function PutSites(ps: seq<Pos>, rest: Bytes): Bytes { PutNum(|ps|, PutMany(PutPos, ps, rest)) }

  function GetSites(bs: Bytes): (r: Parsed<set<Pos>>)
    ensures r.Ok? ==> SitesFit(r.value)
  {
    var (n, bs1) :- GetNum(bs);
    ManyFit(GetPos, PosFits, n, bs1);
    var (ps, bs2) :- GetMany(GetPos, n, bs1);
    SetIsSmaller(ps);
    Ok(SetOf(ps), bs2)
  }

  predicate SitesFit(s: set<Pos>) { Fits16(|s|) && forall p <- s :: PosFits(p) }

  lemma {:induction false} SetIsSmaller<T>(xs: seq<T>)
    ensures |SetOf(xs)| <= |xs|
    ensures Once(xs) ==> |SetOf(xs)| == |xs|
  {
    if xs != [] {
      SetIsSmaller(xs[1..]);
      assert xs == [xs[0]] + xs[1..];
      assert SetOf(xs) == {xs[0]} + SetOf(xs[1..]);
    }
  }

  lemma SitesReturn(ps: seq<Pos>, rest: Bytes)
    requires Once(ps) && SitesFit(SetOf(ps))
    ensures GetSites(PutSites(ps, rest)) == Ok(SetOf(ps), rest)
  {
    SetIsSmaller(ps);
    NumFitsReturns(|ps|, PutMany(PutPos, ps, rest));
    forall p | p in ps ensures PosFits(p) { assert p in SetOf(ps); }
    PositionsReturn(ps, rest);
  }

  function PutObjects(obs: seq<MapObjectDTO>, rest: Bytes): Bytes { PutNum(|obs|, PutMany(PutObject, obs, rest)) }

  /** The client keeps 8 bits of the 16 bits of the count. */
  function GetObjects(bs: Bytes): (r: Parsed<seq<MapObjectDTO>>)
    ensures r.Ok? ==> ObjectsFit(r.value)
  {
    var (n, bs1) :- GetNum(bs);
    ManyFit(GetObject, ObjectFits, Low(n), bs1);
    GetMany(GetObject, Low(n), bs1)
  }

  /** Fewer than 256, though the count is sent in 16 bits. */
  predicate ObjectsFit(obs: seq<MapObjectDTO>) { Fits8(|obs|) && forall ob <- obs :: ObjectFits(ob) }

  lemma ObjectsReturn(obs: seq<MapObjectDTO>, rest: Bytes)
    requires ObjectsFit(obs)
    ensures GetObjects(PutObjects(obs, rest)) == Ok(obs, rest)
  {
    NumFitsReturns(|obs|, PutMany(PutObject, obs, rest));
    forall ob, r | ob in obs ensures GetObject(PutObject(ob, r)) == Ok(Same(ob), r) { ObjectReturns(ob, r); }
    ManyReturn(PutObject, GetObject, Same<MapObjectDTO>, obs, rest);
    assert Each(Same<MapObjectDTO>, obs) == obs;
  }

  function PutInfo(info: InitInfo, o: Orders, rest: Bytes): Bytes {
    PutByte(info.background, PutObjects(info.objects, PutSites(o.sites, PutPrices(o.prices, PutPrices(o.clips,
    PutNum(info.clipPrice, rest))))))
  }

  function GetInfo(bs: Bytes): (r: Parsed<InitInfo>)
    ensures r.Ok? ==> InfoFits(r.value)
  {
    var (background, bs1) :- GetByte(bs);
    var (objects, bs2) :- GetObjects(bs1);
    var (sites, bs3) :- GetSites(bs2);
    var (prices, bs4) :- GetPrices(bs3);
    var (clips, bs5) :- GetPrices(bs4);
    var (clipPrice, bs6) :- GetNum(bs5);
    Ok(InitInfo(background, objects, sites, prices, clips, clipPrice), bs6)
  }

  predicate InfoFits(info: InitInfo) {
    && Fits8(info.background) && ObjectsFit(info.objects) && SitesFit(info.sites)
    && PricesFit(info.prices) && PricesFit(info.clips) && Fits16(info.clipPrice)
  }

  lemma InfoReturns(info: InitInfo, o: Orders, rest: Bytes)
    requires InfoFits(info) && Arranges(info, o)
    ensures GetInfo(PutInfo(info, o, rest)) == Ok(info, rest)
  {
    var bs5 := PutNum(info.clipPrice, rest);
    var bs4 := PutPrices(o.clips, bs5);
    var bs3 := PutPrices(o.prices, bs4);
    var bs2 := PutSites(o.sites, bs3);
    ObjectsReturn(info.objects, bs2);
    SitesReturn(o.sites, bs3);
    PricesReturn(o.prices, bs4);
    PricesReturn(o.clips, bs5);
    NumFitsReturns(info.clipPrice, rest);
  }

  /** The description of the game comes back exactly, in whatever orders its containers are gone through,
      if and only if its numbers fit and it has fewer than 256 map objects. */
  lemma InfoReturnsIffItFits(info: InitInfo, o: Orders, rest: Bytes)
    requires Arranges(info, o)
    ensures GetInfo(PutInfo(info, o, rest)) == Ok(info, rest) <==> InfoFits(info)
  {
    if InfoFits(info) { InfoReturns(info, o, rest); }
  }

  /** A snapshot comes back exactly if and only if its numbers fit and its angles are multiples of
      360/65535. */
  lemma SnapshotReturnsIffItFits(s: Snapshot, rest: Bytes)
    ensures GetSnapshot(PutSnapshot(s, rest)) == Ok(s, rest) <==> SnapshotFits(s) && Seen(s) == s
  {
    if SnapshotFits(s) { SnapshotReturns(s, rest); }
  }

  // ---- What the server sends during a game

  const INIT_INFO: byte := 0x25
  const SNAPSHOT: byte := 0x35
  const ENDGAME: byte := 0x60

  datatype GameDTO = Info(info: InitInfo) | Snap(snapshot: Snapshot) | GameEnded

  /** A message together with the orders in which its containers are gone through. */
  datatype Outgoing = Outgoing(message: GameDTO, orders: Orders)

  function PutGame(g: Outgoing, rest: Bytes): Bytes {
    match g.message
    case Info(info) => PutByte(INIT_INFO, PutInfo(info, g.orders, rest))
    case Snap(s) => PutByte(SNAPSHOT, PutSnapshot(s, rest))
    case GameEnded => PutByte(ENDGAME, rest)
  }

  /** Any other code ends the game for the client. */
  function GetGame(bs: Bytes): Parsed<GameDTO> {
    var (code, bs1) :- GetByte(bs);
    if code == INIT_INFO then
      var (info, bs2) :- GetInfo(bs1);
      Ok(Info(info), bs2)
    else if code == SNAPSHOT then
      var (s, bs2) :- GetSnapshot(bs1);
      Ok(Snap(s), bs2)
    else Ok(GameEnded, bs1)
  }

  ghost predicate Sendable(g: Outgoing) {
    && (g.message.Info? ==> InfoFits(g.message.info) && Arranges(g.message.info, g.orders))
    && (g.message.Snap? ==> SnapshotFits(g.message.snapshot))
  }

  function Received(g: Outgoing): GameDTO {
    if g.message.Snap? then Snap(Seen(g.message.snapshot)) else g.message
  }

  lemma InfoMessageReturns(info: InitInfo, o: Orders, rest: Bytes)
    requires InfoFits(info) && Arranges(info, o)
    ensures GetGame(PutByte(INIT_INFO, PutInfo(info, o, rest))) == Ok(Info(info), rest)
  {
    InfoReturns(info, o, rest);
  }

  lemma SnapshotIsHeard(bs: Bytes, s: Snapshot, rest: Bytes)
    requires GetSnapshot(bs) == Ok(s, rest)
    ensures GetGame(PutByte(SNAPSHOT, bs)) == Ok(Snap(s), rest)
  {}

  lemma SnapshotMessageReturns(s: Snapshot, rest: Bytes)
    requires SnapshotFits(s)
    ensures GetGame(PutByte(SNAPSHOT, PutSnapshot(s, rest))) == Ok(Snap(Seen(s)), rest)
  {
    SnapshotReturns(s, rest);
    SnapshotIsHeard(PutSnapshot(s, rest), Seen(s), rest);
  }

  lemma GameReturns(g: Outgoing, rest: Bytes)
    requires Sendable(g)
    ensures GetGame(PutGame(g, rest)) == Ok(Received(g), rest)
  {
    match g.message
    case Info(info) => InfoMessageReturns(info, g.orders, rest);
    case Snap(s) => SnapshotMessageReturns(s, rest);
    case GameEnded =>
  }

  /** Messages sent back to back come back in order, and leave no bytes over. */
  lemma GameStreamReturns(gs: seq<Outgoing>)
    requires forall g <- gs :: Sendable(g)
    ensures GetMany(GetGame, |gs|, PutMany(PutGame, gs, [])) == Ok(Each(Received, gs), [])
  {
    forall g, r | g in gs ensures GetGame(PutGame(g, r)) == Ok(Received(g), r) { GameReturns(g, r); }
    ManyReturn(PutGame, GetGame, Received, gs, []);
  }

  // ---- What the clients send during a game

  function PutCommand(c: W.Command, rest: Bytes): Bytes {
    match c
    case Move(direction, on) => PutByte(0x09, PutByte(MovementCode(direction), PutBool(on, rest)))
    case Rotate(angle) => PutByte(0x08, PutAngle(angle, rest))
    case Act(on) => PutByte(0x10, PutBool(on, rest))
    case Defuse(on) => PutByte(0x13, PutBool(on, rest))
    case Equip(slot) => PutByte(0x11, PutByte(SlotCode(slot), rest))
    case PickUp => PutByte(0x14, rest)
    case BuyGunCommand(gun) => PutByte(0x06, PutByte(GunCode(gun), rest))
    case BuyAmmoCommand(forPrimary) =>
      PutByte(0x07, PutByte(SlotCode(if forPrimary then PrimarySlot else SecondarySlot), rest))
    case ForceStart => PutByte(0x15, rest)
  }

  function GetMove(bs: Bytes): Parsed<W.Command> {
    var (direction, bs1) :- GetCode(MovementOf, bs);
    var (on, bs2) :- GetBool(bs1);
    Ok(W.Move(direction, on), bs2)
  }

  function GetCommand(bs: Bytes): Parsed<W.Command> {
    var (code, bs1) :- GetByte(bs);
    if code == 0x08 then
      var (angle, bs2) :- GetAngle(bs1);
      Ok(W.Rotate(angle), bs2)
    else if code == 0x09 then GetMove(bs1)
    else if code == 0x10 then
      var (on, bs2) :- GetBool(bs1);
      Ok(W.Act(on), bs2)
    else if code == 0x11 then
      var (slot, bs2) :- GetCode(SlotOf, bs1);
      Ok(W.Equip(slot), bs2)
    else if code == 0x06 then
      var (gun, bs2) :- GetCode(GunOf, bs1);
      Ok(W.BuyGunCommand(gun), bs2)
    else if code == 0x07 then
      var (slot, bs2) :- GetByte(bs1);
      Ok(W.BuyAmmoCommand(slot == 1), bs2)
    else if code == 0x13 then
      var (on, bs2) :- GetBool(bs1);
      Ok(W.Defuse(on), bs2)
    else if code == 0x14 then Ok(W.PickUp, bs1)
    else if code == 0x15 then Ok(W.ForceStart, bs1)
    else Malformed
  }

  predicate CommandFits(c: W.Command) { c.Rotate? ==> AngleFits(c.angle) }

  /** A command as the server gets it. */
  function Obeyed(c: W.Command): W.Command { if c.Rotate? then W.Rotate(Rounded(c.angle)) else c }

  lemma CommandReturns(c: W.Command, rest: Bytes)
    requires CommandFits(c)
    ensures GetCommand(PutCommand(c, rest)) == Ok(Obeyed(c), rest)
  {
    TablesAgree();
    if c.Rotate? { AngleReturns(c.angle, rest); }
  }

  lemma CommandStreamReturns(cs: seq<W.Command>)
    requires forall c <- cs :: CommandFits(c)
    ensures GetMany(GetCommand, |cs|, PutMany(PutCommand, cs, [])) == Ok(Each(Obeyed, cs), [])
  {
    forall c, r | c in cs ensures GetCommand(PutCommand(c, r)) == Ok(Obeyed(c), r) { CommandReturns(c, r); }
    ManyReturn(PutCommand, GetCommand, Obeyed, cs, []);
  }

  // ---- Before the game

  const CREATE_USERNAME: byte := 0x01
  const CREATE_GAME: byte := 0x02
  const JOIN_GAME: byte := 0x03
  const GAME_STARTED: byte := 0x30

  datatype LobbyRequest = CreateUsername(username: Bytes) | CreateGame(mapFile: Bytes) | JoinGame(game: Bytes)

  function PutRequest(q: LobbyRequest, rest: Bytes): Bytes {
    match q
    case CreateUsername(s) => PutByte(CREATE_USERNAME, PutText(s, rest))
    case CreateGame(s) => PutByte(CREATE_GAME, PutText(s, rest))
    case JoinGame(s) => PutByte(JOIN_GAME, PutText(s, rest))
  }

  function GetRequest(bs: Bytes): Parsed<LobbyRequest> {
    var (code, bs1) :- GetByte(bs);
    if code != CREATE_USERNAME && code != CREATE_GAME && code != JOIN_GAME then Malformed
    else
      var (s, bs2) :- GetText(bs1);
      Ok(if code == CREATE_USERNAME then CreateUsername(s)
         else if code == CREATE_GAME then CreateGame(s)
         else JoinGame(s), bs2)
  }

  function TextOf(q: LobbyRequest): Bytes {
    match q
    case CreateUsername(s) => s
    case CreateGame(s) => s
    case JoinGame(s) => s
  }

  lemma RequestReturns(q: LobbyRequest, rest: Bytes)
    ensures GetRequest(PutRequest(q, rest)) == Ok(q, rest) <==> Fits16(|TextOf(q)|)
  {
    if Fits16(|TextOf(q)|) { TextReturns(TextOf(q), rest); }
  }

  /** The server's answer. `command` is the code of the request, or of another command. */
  datatype LobbyAnswer = LobbyAnswer(command: byte, status: int, name: Bytes)

  function PutAnswer(a: LobbyAnswer, rest: Bytes): Bytes {
    PutByte(a.command, PutByte(a.status, if a.command == CREATE_GAME then PutText(a.name, rest) else rest))
  }

  /** No status is looked for after GAME_STARTED, and no name but after CREATE_GAME. */
  function GetAnswer(bs: Bytes): Parsed<LobbyAnswer> {
    var (command, bs1) :- GetByte(bs);
    if !IsCommandCode(command) then Malformed
    else if command == GAME_STARTED then Ok(LobbyAnswer(command, 0, []), bs1)
    else
      var (status, bs2) :- GetByte(bs1);
      if command != CREATE_GAME then Ok(LobbyAnswer(command, status, []), bs2)
      else
        var (name, bs3) :- GetText(bs2);
        Ok(LobbyAnswer(command, status, name), bs3)
  }

  predicate AnswerFits(a: LobbyAnswer) {
    && IsCommandCode(a.command) && a.command != GAME_STARTED && Fits8(a.status)
    && (if a.command == CREATE_GAME then Fits16(|a.name|) else a.name == [])
  }

  /** The two sides of the protocol agree on an answer exactly unless it says GAME_STARTED, after which the one
      puts a status and the other does not look for any, or does not fit. */
  lemma AnswerReturnsIffItFits(a: LobbyAnswer, rest: Bytes)
    ensures GetAnswer(PutAnswer(a, rest)) == Ok(a, rest) <==> AnswerFits(a)
  {
    if AnswerFits(a) && a.command == CREATE_GAME { TextReturns(a.name, rest); }
    if a.command == GAME_STARTED { assert |PutByte(a.status, rest)| == |rest| + 1; }
  }

  // ---- The answers that the server gives

  /** src/common/server_response_lobby.h */
  const SUCCESS := 0
  const USERNAME_IN_USE := 2
  const GAME_NOT_EXIST := 3
  const GAME_ALREADY_STARTED := 4
  const GAME_IS_DEAD := 5
  const GAME_IS_FULL := 6
  const USERNAME_ALREADY_IN_GAME := 7
  const WITHOUT_USERNAME := 8

  /** How ServerMonitor::join_game ends: with a game, with none of the name, or with an exception. */
  datatype JoinResult = InGame | NoSuchGame | Started | Dead | FullGame | NameInGame

  function JoinStatus(r: JoinResult): int {
    match r
    case InGame => SUCCESS
    case NoSuchGame => GAME_NOT_EXIST
    case Started => GAME_ALREADY_STARTED
    case Dead => GAME_IS_DEAD
    case FullGame => GAME_IS_FULL
    case NameInGame => USERNAME_ALREADY_IN_GAME
  }

  /** ClientHandler::manage_lobby_request: what it answers to a request, when the monitor took the name or not
      (`free`), when the client may enter a game (`ready`: he has a name and is in none), when the new game is
      called `game`, and when a join ends as `joined`. */
  function AnswerTo(q: LobbyRequest, free: bool, ready: bool, game: Bytes, joined: JoinResult): LobbyAnswer {
    match q
    case CreateUsername(_) => LobbyAnswer(CREATE_USERNAME, if free then SUCCESS else USERNAME_IN_USE, [])
    case CreateGame(_) =>
      if ready then LobbyAnswer(CREATE_GAME, SUCCESS, game) else LobbyAnswer(CREATE_GAME, WITHOUT_USERNAME, [])
    case JoinGame(_) => LobbyAnswer(JOIN_GAME, if ready then JoinStatus(joined) else WITHOUT_USERNAME, [])
  }

  /** Every answer that the server does give comes back as it was, unless the name of a new game is too long. */
  lemma EveryAnswerReturns(q: LobbyRequest, free: bool, ready: bool, game: Bytes, joined: JoinResult, rest: Bytes)
    ensures var a := AnswerTo(q, free, ready, game, joined);
            && a.command != GAME_STARTED
            && (GetAnswer(PutAnswer(a, rest)) == Ok(a, rest) <==> !q.CreateGame? || !ready || Fits16(|game|))
  {
    AnswerReturnsIffItFits(AnswerTo(q, free, ready, game, joined), rest);
  }
}
