/** The two halves of a connection, as src/common/common_protocol.cpp, src/server/server_protocol.cpp and
    src/client/client_protocol.cpp use them: one value after the other into the stream, or out of it.
    They are proved against the functions of Wire.dfy and Messages.dfy, which have the round trips. */
module Streams {
  import opened Settings
  import opened Wire
  import opened Messages
  import W = World

  /** What receiving ends in: a value, CommunicationEnded, or a byte that nobody sends. */
  datatype Received<+T> = Got(value: T) | Lost | Garbled {
    predicate IsFailure() { !Got? }
    function PropagateFailure<U>(): Received<U>
      requires IsFailure()
    {
      if Lost? then Received<U>.Lost else Received<U>.Garbled
    }
    function Extract(): T
      requires !IsFailure()
    {
      value
    }
  }

  /** A value received, and the stream after it, are what parsing gives. */
  predicate Reads<T(==)>(p: Parsed<T>, r: Received<T>, left: Bytes) {
    match p
    case Ok(v, rest) => r == Got(v) && left == rest
    case Ended => r == Lost
    case Malformed => r == Garbled
  }

  /** GetMany with a count of what has been read, `xs`. */
  function GetFrom<T>(get: Bytes -> Parsed<T>, i: nat, n: nat, bs: Bytes, xs: seq<T>): Parsed<seq<T>>
    requires i <= n
    decreases n - i
  {
    if i == n then Ok(xs, bs)
    else
      var (x, bs1) :- get(bs);
      GetFrom(get, i + 1, n, bs1, xs + [x])
  }

  lemma {:induction false} FromIsMany<T>(get: Bytes -> Parsed<T>, i: nat, n: nat, bs: Bytes, xs: seq<T>)
    requires i <= n
    ensures var p := GetMany(get, n - i, bs);
            GetFrom(get, i, n, bs, xs) == (if p.Ok? then Ok(xs + p.value, p.rest) else p)
    decreases n - i
  {
    if i < n && get(bs).Ok? {
      var (x, bs1) := get(bs).Extract();
      FromIsMany(get, i + 1, n, bs1, xs + [x]);
      var more := GetMany(get, n - i - 1, bs1);
      if more.Ok? { assert xs + ([x] + more.value) == (xs + [x]) + more.value; }
    }
    assert xs + [] == xs;
  }

  lemma ReadOneByOne<T>(get: Bytes -> Parsed<T>, n: nat, bs: Bytes)
    ensures GetFrom(get, 0, n, bs, []) == GetMany(get, n, bs)
  {
    FromIsMany(get, 0, n, bs, []);
    var p := GetMany(get, n, bs);
    if p.Ok? { assert [] + p.value == p.value; }
  }

  lemma OneMoreSent<T>(put: (T, Bytes) -> Bytes, xs: seq<T>, out: Bytes, out': Bytes, rest: Bytes)
    requires xs != [] && forall r :: out' + r == out + put(xs[0], r)
    ensures out' + PutMany(put, xs[1..], rest) == out + PutMany(put, xs, rest)
  {}

  // ---- Sending

  class Outbox {
    var out: Bytes

    constructor ()
      ensures out == []
    {
      out := [];
    }

    method SendByte(n: int)
      modifies this
      ensures forall rest :: out + rest == old(out) + PutByte(n, rest)
    {
      out := out + [Low(n)];
    }

    method SendNum(n: int)
      modifies this
      ensures forall rest :: out + rest == old(out) + PutNum(n, rest)
    {
      out := out + [Low(High(n)), Low(n)];
    }

    method SendBool(b: bool)
      modifies this
      ensures forall rest :: out + rest == old(out) + PutBool(b, rest)
    {
      SendByte(if b then 1 else 0);
    }

    method SendText(s: Bytes)
      modifies this
      ensures forall rest :: out + rest == old(out) + PutText(s, rest)
    {
      SendNum(|s|);
      forall rest ensures (out + s) + rest == old(out) + PutText(s, rest) {
        assert (out + s) + rest == out + (s + rest);
      }
      out := out + s;
    }

    method SendAngle(angle: real)
      modifies this
      ensures forall rest :: out + rest == old(out) + PutAngle(angle, rest)
    {
      SendNum(AngleCode(angle));
    }

    method SendPos(p: Pos)
      modifies this
      ensures forall rest :: out + rest == old(out) + PutPos(p, rest)
    {
      SendNum(p.x);
      SendNum(p.y);
    }

    method SendMaybePos(p: Option<Pos>)
      modifies this
      ensures forall rest :: out + rest == old(out) + PutMaybePos(p, rest)
    {
      if p.Some? {
        SendBool(true);
        SendPos(p.value);
      } else {
        SendBool(false);
        SendPos(Pos(0, 0));
      }
    }

    method SendBonus(n: int)
      modifies this
      ensures forall rest :: out + rest == old(out) + PutBonus(n, rest)
    {
      SendByte(if n > 0 then 0 else 1);
      SendNum(Abs(n));
    }

    method SendLoadout(l: LoadoutDTO)
      modifies this
      ensures forall rest :: out + rest == old(out) + PutLoadout(l, rest)
    {
      SendNum(l.money);
      SendByte(GunCode(l.primary));
      SendNum(l.primaryAmmo);
      SendByte(GunCode(l.secondary));
      SendNum(l.secondaryAmmo);
      SendByte(SlotCode(l.equipped));
      SendBool(l.hasBomb);
    }

    method SendPlayer(p: PlayerDTO)
      modifies this
      ensures forall rest :: out + rest == old(out) + PutPlayer(p, rest)
    {
      SendText(p.username);
      SendPos(p.position);
      SendAngle(p.orientation);
      SendNum(p.life);
      SendMaybePos(p.shot);
      SendFlagsAndScore(p.flags, p.score);
      SendLoadout(p.loadout);
    }

    method SendFlagsAndScore(f: Flags, s: Score)
      modifies this
      ensures forall rest :: out + rest == old(out) + PutFlags(f, PutScore(s, rest))
    {
      SendBool(f.planting);
      SendBool(f.defusing);
      SendBool(f.onSite);
      SendBonus(s.bonifications);
      SendByte(s.kills);
      SendByte(s.deaths);
    }

    /** send_players, after their number. */
    method SendPlayers(ps: seq<PlayerDTO>)
      modifies this
      ensures forall rest :: out + rest == old(out) + PutMany(PutPlayer, ps, rest)
    {
      var i := 0;
      while i < |ps|
        invariant i <= |ps|
        invariant forall rest :: out + PutMany(PutPlayer, ps[i..], rest) == old(out) + PutMany(PutPlayer, ps, rest)
      {
        ghost var before := out;
        SendPlayer(ps[i]);
        assert ps[i..][1..] == ps[i + 1..];
        forall rest ensures out + PutMany(PutPlayer, ps[i + 1..], rest) == before + PutMany(PutPlayer, ps[i..], rest) {
          OneMoreSent(PutPlayer, ps[i..], before, out, rest);
        }
        i := i + 1;
      }
    }

    method SendItem(it: ItemDTO)
      modifies this
      ensures forall rest :: out + rest == old(out) + PutItem(it, rest)
    {
      match it
      case GunDTO(p, gun, ammo) =>
        SendByte(GUN_DROPPED);
        SendPos(p);
        SendByte(GunCode(gun));
        SendNum(ammo);
      case BombDTO(p) =>
        SendByte(BOMB_DROPPED);
        SendPos(p);
    }

    method SendItems(items: seq<ItemDTO>)
      modifies this
      ensures forall rest :: out + rest == old(out) + PutItems(items, rest)
    {
      SendNum(|items|);
      var i := 0;
      while i < |items|
        invariant i <= |items|
        invariant forall rest :: out + PutMany(PutItem, items[i..], rest) == old(out) + PutItems(items, rest)
      {
        ghost var before := out;
        SendItem(items[i]);
        assert items[i..][1..] == items[i + 1..];
        forall rest
          ensures out + PutMany(PutItem, items[i + 1..], rest) == before + PutMany(PutItem, items[i..], rest)
        {
          OneMoreSent(PutItem, items[i..], before, out, rest);
        }
        i := i + 1;
      }
    }

    method SendWinner(t: Option<Team>)
      modifies this
      ensures forall rest :: out + rest == old(out) + PutWinner(t, rest)
    {
      if t.Some? {
        SendBool(true);
        SendByte(TeamCode(t.value));
      } else {
        SendBool(false);
        SendByte(0);
      }
    }

    method SendHeader(h: Header)
      modifies this
      ensures forall rest :: out + rest == old(out) + PutHeader(h, rest)
    {
      SendByte(h.totalPlayers);
      SendByte(PhaseCode(h.phase));
      SendByte(h.round);
      SendByte(h.totalRounds);
      SendByte(h.ctWins);
      SendByte(h.ttWins);
      SendByte(h.timeLeft);
      SendByte(StatusCode(h.bombStatus));
    }

    method SendSnapshot(s: Snapshot)
      modifies this
      ensures forall rest :: out + rest == old(out) + PutByte(SNAPSHOT, PutSnapshot(s, rest))
    {
      SendByte(SNAPSHOT);
      SendHeader(s.header);
      SendMaybePos(s.bombPosition);
      SendByte(|s.cts|);
      SendPlayers(s.cts);
      SendByte(|s.tts|);
      SendPlayers(s.tts);
      SendWinner(s.winner);
      SendItems(s.items);
    }

    method SendObject(ob: MapObjectDTO)
      modifies this
      ensures forall rest :: out + rest == old(out) + PutObject(ob, rest)
    {
      SendNum(ob.kind);
      SendBool(ob.collidable);
      SendSites(ob.positions);
    }

    /** The positions of a map object, and the sites. */
    method SendSites(ps: seq<Pos>)
      modifies this
      ensures forall rest :: out + rest == old(out) + PutSites(ps, rest)
    {
      SendNum(|ps|);
      var i := 0;
      while i < |ps|
        invariant i <= |ps|
        invariant forall rest :: out + PutMany(PutPos, ps[i..], rest) == old(out) + PutSites(ps, rest)
      {
        ghost var before := out;
        SendPos(ps[i]);
        assert ps[i..][1..] == ps[i + 1..];
        forall rest ensures out + PutMany(PutPos, ps[i + 1..], rest) == before + PutMany(PutPos, ps[i..], rest) {
          OneMoreSent(PutPos, ps[i..], before, out, rest);
        }
        i := i + 1;
      }
    }

    method SendObjects(obs: seq<MapObjectDTO>)
      modifies this
      ensures forall rest :: out + rest == old(out) + PutObjects(obs, rest)
    {
      SendNum(|obs|);
      var i := 0;
      while i < |obs|
        invariant i <= |obs|
        invariant forall rest :: out + PutMany(PutObject, obs[i..], rest) == old(out) + PutObjects(obs, rest)
      {
        ghost var before := out;
        SendObject(obs[i]);
        assert obs[i..][1..] == obs[i + 1..];
        forall rest
          ensures out + PutMany(PutObject, obs[i + 1..], rest) == before + PutMany(PutObject, obs[i..], rest)
        {
          OneMoreSent(PutObject, obs[i..], before, out, rest);
        }
        i := i + 1;
      }
    }

    method SendPrice(p: (Option<GunType>, int))
      modifies this
      ensures forall rest :: out + rest == old(out) + PutPrice(p, rest)
    {
      SendByte(GunCode(p.0));
      SendNum(p.1);
    }

    method SendPrices(ps: seq<(Option<GunType>, int)>)
      modifies this
      ensures forall rest :: out + rest == old(out) + PutPrices(ps, rest)
    {
      SendByte(|ps|);
      var i := 0;
      while i < |ps|
        invariant i <= |ps|
        invariant forall rest :: out + PutMany(PutPrice, ps[i..], rest) == old(out) + PutPrices(ps, rest)
      {
        ghost var before := out;
        SendPrice(ps[i]);
        assert ps[i..][1..] == ps[i + 1..];
        forall rest ensures out + PutMany(PutPrice, ps[i + 1..], rest) == before + PutMany(PutPrice, ps[i..], rest) {
          OneMoreSent(PutPrice, ps[i..], before, out, rest);
        }
        i := i + 1;
      }
    }

    method SendInfo(info: InitInfo, o: Orders)
      modifies this
      ensures forall rest :: out + rest == old(out) + PutByte(INIT_INFO, PutInfo(info, o, rest))
    {
      SendByte(INIT_INFO);
      SendByte(info.background);
      SendObjects(info.objects);
      SendSites(o.sites);
      SendPrices(o.prices);
      SendPrices(o.clips);
      SendNum(info.clipPrice);
    }

    /** ServerProtocol::send_game_dto. */
    method SendGame(g: Outgoing)
      modifies this
      ensures forall rest :: out + rest == old(out) + PutGame(g, rest)
    {
      match g.message
      case Info(info) => SendInfo(info, g.orders);
      case Snap(s) => SendSnapshot(s);
      case GameEnded => SendByte(ENDGAME);
    }

    /** ClientProtocol::send_command. */
    method SendCommand(c: W.Command)
      modifies this
      ensures forall rest :: out + rest == old(out) + PutCommand(c, rest)
    {
      match c
      case Move(direction, on) =>
        SendByte(0x09);
        SendByte(MovementCode(direction));
        SendBool(on);
      case Rotate(angle) =>
        SendByte(0x08);
        SendAngle(angle);
      case Act(on) =>
        SendByte(0x10);
        SendBool(on);
      case Defuse(on) =>
        SendByte(0x13);
        SendBool(on);
      case Equip(slot) =>
        SendByte(0x11);
        SendByte(SlotCode(slot));
      case PickUp => SendByte(0x14);
      case BuyGunCommand(gun) =>
        SendByte(0x06);
        SendByte(GunCode(gun));
      case BuyAmmoCommand(forPrimary) =>
        SendByte(0x07);
        SendByte(SlotCode(if forPrimary then PrimarySlot else SecondarySlot));
      case ForceStart => SendByte(0x15);
    }

    /** ClientProtocol::send_lobby_request. */
    method SendRequest(q: LobbyRequest)
      modifies this
      ensures forall rest :: out + rest == old(out) + PutRequest(q, rest)
    {
      match q
      case CreateUsername(s) =>
        SendByte(CREATE_USERNAME);
        SendText(s);
      case CreateGame(s) =>
        SendByte(CREATE_GAME);
        SendText(s);
      case JoinGame(s) =>
        SendByte(JOIN_GAME);
        SendText(s);
    }

    /** ServerProtocol::send_lobby_message. */
    method SendAnswer(a: LobbyAnswer)
      modifies this
      ensures forall rest :: out + rest == old(out) + PutAnswer(a, rest)
    {
      SendByte(a.command);
      SendByte(a.status);
      if a.command == CREATE_GAME { SendText(a.name); }
    }
  }

  // ---- Receiving

  class Inbox {
    var incoming: Bytes

    constructor (bs: Bytes)
      ensures incoming == bs
    {
      incoming := bs;
    }

    method ReceiveByte() returns (r: Received<byte>)
      modifies this
      ensures Reads(GetByte(old(incoming)), r, incoming)
    {
      if incoming == [] { return Lost; }
      r := Got(incoming[0]);
      incoming := incoming[1..];
    }

    method ReceiveNum() returns (r: Received<int>)
      modifies this
      ensures Reads(GetNum(old(incoming)), r, incoming)
    {
      var high: int :- ReceiveByte();
      var low: int :- ReceiveByte();
      return Got(high * 256 + low);
    }

    method ReceiveBool() returns (r: Received<bool>)
      modifies this
      ensures Reads(GetBool(old(incoming)), r, incoming)
    {
      var code :- ReceiveByte();
      if code > 1 { return Garbled; }
      return Got(code == 1);
    }

    method ReceiveText() returns (r: Received<Bytes>)
      modifies this
      ensures Reads(GetText(old(incoming)), r, incoming)
    {
      var n :- ReceiveNum();
      if |incoming| < n { return Lost; }
      r := Got(incoming[..n]);
      incoming := incoming[n..];
    }

    method ReceiveAngle() returns (r: Received<real>)
      modifies this
      ensures Reads(GetAngle(old(incoming)), r, incoming)
    {
      var code :- ReceiveNum();
      return Got(AngleOf(code));
    }

    /** A byte looked up in one of the tables of codes. */
    method ReceiveCode<T(==)>(table: byte -> Option<T>) returns (r: Received<T>)
      modifies this
      ensures Reads(GetCode(table, old(incoming)), r, incoming)
    {
      var code :- ReceiveByte();
      var v := table(code);
      if v.None? { return Garbled; }
      return Got(v.value);
    }

    method ReceivePos() returns (r: Received<Pos>)
      modifies this
      ensures Reads(GetPos(old(incoming)), r, incoming)
    {
      var x :- ReceiveNum();
      var y :- ReceiveNum();
      return Got(Pos(x, y));
    }

    method ReceiveMaybePos() returns (r: Received<Option<Pos>>)
      modifies this
      ensures Reads(GetMaybePos(old(incoming)), r, incoming)
    {
      var present :- ReceiveBool();
      var p :- ReceivePos();
      return Got(if present then Some(p) else None);
    }

    method ReceiveBonus() returns (r: Received<int>)
      modifies this
      ensures Reads(GetBonus(old(incoming)), r, incoming)
    {
      var sign :- ReceiveByte();
      var n :- ReceiveNum();
      if sign == 1 { return Got(-n); }
      return Got(n);
    }

    method ReceiveLoadout() returns (r: Received<LoadoutDTO>)
      modifies this
      ensures Reads(GetLoadout(old(incoming)), r, incoming)
    {
      var money :- ReceiveNum();
      var primary :- ReceiveCode(GunOf);
      var primaryAmmo :- ReceiveNum();
      var secondary :- ReceiveCode(GunOf);
      var secondaryAmmo :- ReceiveNum();
      var equipped :- ReceiveCode(SlotOf);
      var hasBomb :- ReceiveBool();
      return Got(LoadoutDTO(money, primary, primaryAmmo, secondary, secondaryAmmo, equipped, hasBomb));
    }

    method ReceiveFlags() returns (r: Received<Flags>)
      modifies this
      ensures Reads(GetFlags(old(incoming)), r, incoming)
    {
      var planting :- ReceiveBool();
      var defusing :- ReceiveBool();
      var onSite :- ReceiveBool();
      return Got(Flags(planting, defusing, onSite));
    }

    method ReceiveScore() returns (r: Received<Score>)
      modifies this
      ensures Reads(GetScore(old(incoming)), r, incoming)
    {
      var bonifications :- ReceiveBonus();
      var kills :- ReceiveByte();
      var deaths :- ReceiveByte();
      return Got(Score(bonifications, kills, deaths));
    }

    method ReceivePlayer() returns (r: Received<PlayerDTO>)
      modifies this
      ensures Reads(GetPlayer(old(incoming)), r, incoming)
    {
      var username :- ReceiveText();
      var position :- ReceivePos();
      var orientation :- ReceiveAngle();
      var life :- ReceiveNum();
      var shot :- ReceiveMaybePos();
      var flags :- ReceiveFlags();
      var score :- ReceiveScore();
      var loadout :- ReceiveLoadout();
      return Got(PlayerDTO(username, position, orientation, life, shot, flags, score, loadout));
    }

    method ReceivePlayers(n: nat) returns (r: Received<seq<PlayerDTO>>)
      modifies this
      ensures Reads(GetMany(GetPlayer, n, old(incoming)), r, incoming)
    {
      ghost var all := GetFrom(GetPlayer, 0, n, incoming, []);
      ReadOneByOne(GetPlayer, n, incoming);
      var players := [];
      var i := 0;
      while i < n
        invariant i <= n && all == GetFrom(GetPlayer, i, n, incoming, players)
      {
        var x :- ReceivePlayer();
        players := players + [x];
        i := i + 1;
      }
      return Got(players);
    }

    method ReceiveItem() returns (r: Received<ItemDTO>)
      modifies this
      ensures Reads(GetItem(old(incoming)), r, incoming)
    {
      var code :- ReceiveByte();
      if code == BOMB_DROPPED {
        var p :- ReceivePos();
        return Got(BombDTO(p));
      }
      if !IsCommandCode(code) { return Garbled; }
      var p :- ReceivePos();
      var gun :- ReceiveCode(GunOf);
      var ammo :- ReceiveNum();
      return Got(GunDTO(p, gun, ammo));
    }

    method ReceiveItems(n: nat) returns (r: Received<seq<ItemDTO>>)
      modifies this
      ensures Reads(GetMany(GetItem, n, old(incoming)), r, incoming)
    {
      ghost var all := GetFrom(GetItem, 0, n, incoming, []);
      ReadOneByOne(GetItem, n, incoming);
      var items := [];
      var i := 0;
      while i < n
        invariant i <= n && all == GetFrom(GetItem, i, n, incoming, items)
      {
        var x :- ReceiveItem();
        items := items + [x];
        i := i + 1;
      }
      return Got(items);
    }

    method ReceiveWinner() returns (r: Received<Option<Team>>)
      modifies this
      ensures Reads(GetWinner(old(incoming)), r, incoming)
    {
      var present :- ReceiveBool();
      var code :- ReceiveByte();
      if !present { return Got(None); }
      if TeamOf(code).None? { return Garbled; }
      return Got(TeamOf(code));
    }

    method ReceiveHeader() returns (r: Received<Header>)
      modifies this
      ensures Reads(GetHeader(old(incoming)), r, incoming)
    {
      var totalPlayers :- ReceiveByte();
      var phase :- ReceiveCode(PhaseOf);
      var round :- ReceiveByte();
      var totalRounds :- ReceiveByte();
      var ctWins :- ReceiveByte();
      var ttWins :- ReceiveByte();
      var timeLeft :- ReceiveByte();
      var bombStatus :- ReceiveCode(StatusOf);
      return Got(Header(totalPlayers, phase, round, totalRounds, ctWins, ttWins, timeLeft, bombStatus));
    }

    method ReceiveSnapshot() returns (r: Received<Snapshot>)
      modifies this
      ensures Reads(GetSnapshot(old(incoming)), r, incoming)
    {
      var header :- ReceiveHeader();
      var bombPosition :- ReceiveMaybePos();
      var sizeCt :- ReceiveByte();
      var cts :- ReceivePlayers(sizeCt);
      var sizeTt :- ReceiveByte();
      var tts :- ReceivePlayers(sizeTt);
      var winner :- ReceiveWinner();
      var sizeItems :- ReceiveNum();
      var items :- ReceiveItems(sizeItems);
      return Got(Snapshot(header, bombPosition, cts, tts, winner, items));
    }

    /** The positions of a map object, and the sites. */
    method ReceivePositions(n: nat) returns (r: Received<seq<Pos>>)
      modifies this
      ensures Reads(GetMany(GetPos, n, old(incoming)), r, incoming)
    {
      ghost var all := GetFrom(GetPos, 0, n, incoming, []);
      ReadOneByOne(GetPos, n, incoming);
      var positions := [];
      var i := 0;
      while i < n
        invariant i <= n && all == GetFrom(GetPos, i, n, incoming, positions)
      {
        var x :- ReceivePos();
        positions := positions + [x];
        i := i + 1;
      }
      return Got(positions);
    }

    method ReceiveObject() returns (r: Received<MapObjectDTO>)
      modifies this
      ensures Reads(GetObject(old(incoming)), r, incoming)
    {
      var kind :- ReceiveNum();
      var code :- ReceiveByte();
      var n :- ReceiveNum();
      var positions :- ReceivePositions(n);
      if code > 1 { return Garbled; }
      return Got(MapObjectDTO(kind, code == 1, positions));
    }

    method ReceiveObjects(n: nat) returns (r: Received<seq<MapObjectDTO>>)
      modifies this
      ensures Reads(GetMany(GetObject, n, old(incoming)), r, incoming)
    {
      ghost var all := GetFrom(GetObject, 0, n, incoming, []);
      ReadOneByOne(GetObject, n, incoming);
      var objects := [];
      var i := 0;
      while i < n
        invariant i <= n && all == GetFrom(GetObject, i, n, incoming, objects)
      {
        var x :- ReceiveObject();
        objects := objects + [x];
        i := i + 1;
      }
      return Got(objects);
    }

    method ReceivePrice() returns (r: Received<(Option<GunType>, int)>)
      modifies this
      ensures Reads(GetPrice(old(incoming)), r, incoming)
    {
      var gun :- ReceiveCode(GunOf);
      var price :- ReceiveNum();
      return Got((gun, price));
    }

    method ReceivePrices(n: nat) returns (r: Received<seq<(Option<GunType>, int)>>)
      modifies this
      ensures Reads(GetMany(GetPrice, n, old(incoming)), r, incoming)
    {
      ghost var all := GetFrom(GetPrice, 0, n, incoming, []);
      ReadOneByOne(GetPrice, n, incoming);
      var prices := [];
      var i := 0;
      while i < n
        invariant i <= n && all == GetFrom(GetPrice, i, n, incoming, prices)
      {
        var x :- ReceivePrice();
        prices := prices + [x];
        i := i + 1;
      }
      return Got(prices);
    }

    method ReceiveInfo() returns (r: Received<InitInfo>)
      modifies this
      ensures Reads(GetInfo(old(incoming)), r, incoming)
    {
      var background :- ReceiveByte();
      var size :- ReceiveNum();
      var objects :- ReceiveObjects(Low(size));
      var sizeSites :- ReceiveNum();
      var sites :- ReceivePositions(sizeSites);
      var sizePrices :- ReceiveByte();
      var prices :- ReceivePrices(sizePrices);
      var sizeClips :- ReceiveByte();
      var clips :- ReceivePrices(sizeClips);
      var clipPrice :- ReceiveNum();
      return Got(InitInfo(background, objects, SetOf(sites), PricesOf(prices), PricesOf(clips), clipPrice));
    }

    /** ClientProtocol::receive_game_dto. */
    method ReceiveGame() returns (r: Received<GameDTO>)
      modifies this
      ensures Reads(GetGame(old(incoming)), r, incoming)
    {
      var code :- ReceiveByte();
      if code == INIT_INFO {
        var info :- ReceiveInfo();
        return Got(Info(info));
      } else if code == SNAPSHOT {
        var s :- ReceiveSnapshot();
        return Got(Snap(s));
      }
      return Got(GameEnded);
    }

    /** ServerProtocol::receive_client_game_request. */
    method ReceiveCommand() returns (r: Received<W.Command>)
      modifies this
      ensures Reads(GetCommand(old(incoming)), r, incoming)
    {
      var code :- ReceiveByte();
      if code == 0x08 {
        var angle :- ReceiveAngle();
        return Got(W.Rotate(angle));
      } else if code == 0x09 {
        var direction :- ReceiveCode(MovementOf);
        var on :- ReceiveBool();
        return Got(W.Move(direction, on));
      } else if code == 0x10 {
        var on :- ReceiveBool();
        return Got(W.Act(on));
      } else if code == 0x11 {
        var slot :- ReceiveCode(SlotOf);
        return Got(W.Equip(slot));
      } else if code == 0x06 {
        var gun :- ReceiveCode(GunOf);
        return Got(W.BuyGunCommand(gun));
      } else if code == 0x07 {
        var slot :- ReceiveByte();
        return Got(W.BuyAmmoCommand(slot == 1));
      } else if code == 0x13 {
        var on :- ReceiveBool();
        return Got(W.Defuse(on));
      } else if code == 0x14 {
        return Got(W.PickUp);
      } else if code == 0x15 {
        return Got(W.ForceStart);
      }
      return Garbled;
    }

    /** ServerProtocol::receive_lobby_request. */
    method ReceiveRequest() returns (r: Received<LobbyRequest>)
      modifies this
      ensures Reads(GetRequest(old(incoming)), r, incoming)
    {
      var code :- ReceiveByte();
      if code != CREATE_USERNAME && code != CREATE_GAME && code != JOIN_GAME { return Garbled; }
      var s :- ReceiveText();
      if code == CREATE_USERNAME {
        return Got(CreateUsername(s));
      } else if code == CREATE_GAME {
        return Got(CreateGame(s));
      }
      return Got(JoinGame(s));
    }

    /** ClientProtocol::receive_server_response_lobby. */
    method ReceiveAnswer() returns (r: Received<LobbyAnswer>)
      modifies this
      ensures Reads(GetAnswer(old(incoming)), r, incoming)
    {
      var command :- ReceiveByte();
      if !IsCommandCode(command) { return Garbled; }
      if command == GAME_STARTED { return Got(LobbyAnswer(command, 0, [])); }
      var status :- ReceiveByte();
      if command != CREATE_GAME { return Got(LobbyAnswer(command, status, [])); }
      var name :- ReceiveText();
      return Got(LobbyAnswer(command, status, name));
    }
  }
}
