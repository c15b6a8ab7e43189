/** The binary protocol between server and client (src/common/common_protocol.cpp,
    src/common/weapon_parser.cpp): the primitives, as functions from values to bytes and back.
    `Put...` puts a value in front of the bytes that follow; `Get...` takes one off the front. */
module Wire {
  import opened Settings

  type byte = b: int | 0 <= b < 256
  type Bytes = seq<byte>

  /** The end of the stream is an exception of the protocol; bytes that no sender sends leave the
      program without a defined value. */
  datatype Parsed<+T> = Ok(value: T, rest: Bytes) | Ended | Malformed {
    predicate IsFailure() { !Ok? }
    function PropagateFailure<U>(): Parsed<U>
      requires IsFailure()
    {
      if Ended? then Parsed<U>.Ended else Parsed<U>.Malformed
    }
    function Extract(): (T, Bytes)
      requires !IsFailure()
    {
      (value, rest)
    }
  }

  // ---- Bytes, numbers, truth values

  predicate Fits8(n: int) { 0 <= n < 0x100 }
  predicate Fits16(n: int) { 0 <= n < 0x1_0000 }

  /** The low byte of an integer and what is left of it: n modulo 256 and the quotient, by repeated
      subtraction, which keeps the proofs about whole messages free of division. */
  function Low(n: int): byte
    decreases if n < 0 then 256 - n else n
  {
    if n < 0 then Low(n + 256) else if n < 256 then n else Low(n - 256)
  }

  function High(n: int): int
    decreases if n < 0 then 256 - n else n
  {
    if n < 0 then High(n + 256) - 1 else if n < 256 then 0 else High(n - 256) + 1
  }

  lemma {:induction false} LowAndHighAddUp(n: int)
    ensures High(n) * 256 + Low(n) == n
    decreases if n < 0 then 256 - n else n
  {
    if n < 0 { LowAndHighAddUp(n + 256); } else if n >= 256 { LowAndHighAddUp(n - 256); }
  }

  lemma LowAndHigh(n: int)
    ensures Low(n) == n % 256 && High(n) == n / 256
  {
    LowAndHighAddUp(n);
  }

  function PutByte(n: int, rest: Bytes): Bytes { [Low(n)] + rest }

  function GetByte(bs: Bytes): Parsed<byte> {
    if bs == [] then Ended else Ok(bs[0], bs[1..])
  }

  /** A byte carries an integer modulo 256. */
  lemma ByteReturns(n: int, rest: Bytes)
    ensures GetByte(PutByte(n, rest)) == Ok(n % 256, rest)
  {
    LowAndHigh(n);
  }

  /** Two bytes, the greater first. */
  function PutNum(n: int, rest: Bytes): Bytes { PutByte(High(n), PutByte(n, rest)) }

  function GetNum(bs: Bytes): (r: Parsed<int>)
    ensures r.Ok? ==> Fits16(r.value)
  {
    var (high, bs1) :- GetByte(bs);
    var (low, bs2) :- GetByte(bs1);
    Ok(high * 256 + low, bs2)
  }

  /** A number goes as two bytes, the high one first. */
  lemma NumIsBigEndian(n: int, rest: Bytes)
    ensures var bs := PutNum(n, rest);
            |bs| == |rest| + 2 && bs[2..] == rest && bs[0] as int * 256 + bs[1] as int == n % 65536
  {
    LowAndHighAddUp(n);
    LowAndHighAddUp(High(n));
  }

  /** Two bytes carry an integer modulo 65536. */
  lemma NumReturns(n: int, rest: Bytes)
    ensures GetNum(PutNum(n, rest)) == Ok(n % 0x1_0000, rest)
  {
    LowAndHighAddUp(n);
    LowAndHighAddUp(High(n));
  }

  lemma NumFitsReturns(n: int, rest: Bytes)
    requires Fits16(n)
    ensures GetNum(PutNum(n, rest)) == Ok(n, rest)
  {
    NumReturns(n, rest);
  }

  function PutBool(b: bool, rest: Bytes): Bytes { PutByte(if b then 1 else 0, rest) }

  function GetBool(bs: Bytes): Parsed<bool> {
    var (code, rest) :- GetByte(bs);
    if code == 1 then Ok(true, rest) else if code == 0 then Ok(false, rest) else Malformed
  }

  lemma BoolReturns(b: bool, rest: Bytes)
    ensures GetBool(PutBool(b, rest)) == Ok(b, rest)
  {}

  // ---- Text

  /** Bytes as they are. */
  function GetRaw(n: nat, bs: Bytes): Parsed<Bytes> {
    if |bs| < n then Ended else Ok(bs[..n], bs[n..])
  }

  function PutText(s: Bytes, rest: Bytes): Bytes { PutNum(|s|, s + rest) }

  function GetText(bs: Bytes): (r: Parsed<Bytes>)
    ensures r.Ok? ==> Fits16(|r.value|)
  {
    var (n, bs1) :- GetNum(bs);
    GetRaw(n, bs1)
  }

  lemma TextReturns(s: Bytes, rest: Bytes)
    requires Fits16(|s|)
    ensures GetText(PutText(s, rest)) == Ok(s, rest)
  {
    NumFitsReturns(|s|, s + rest);
  }

  // ---- Angles

  /** An angle in [0, 360] as a 16-bit number, and back. */
  function AngleCode(angle: real): int { (angle * 65535.0 / 360.0).Floor }

  function AngleOf(code: int): real { code as real * 360.0 / 65535.0 }

  function PutAngle(angle: real, rest: Bytes): Bytes { PutNum(AngleCode(angle), rest) }

  /** What is left of an angle that was sent. */
  function Rounded(angle: real): real { AngleOf(AngleCode(angle)) }

  predicate AngleFits(angle: real) { 0.0 <= angle <= 360.0 }

  /** Angles that come off the wire are ones that can be sent again unchanged. */
  function GetAngle(bs: Bytes): (r: Parsed<real>)
    ensures r.Ok? ==> AngleFits(r.value) && Rounded(r.value) == r.value
  {
    var (code, rest) :- GetNum(bs);
    CodeReturns(code);
    Ok(AngleOf(code), rest)
  }

  lemma AngleReturns(angle: real, rest: Bytes)
    requires AngleFits(angle)
    ensures GetAngle(PutAngle(angle, rest)) == Ok(Rounded(angle), rest)
  {
    NumFitsReturns(AngleCode(angle), rest);
  }

  /** An angle loses less than 360/65535 of a degree, and once it has lost that, nothing more. */
  lemma AngleIsClose(angle: real)
    requires AngleFits(angle)
    ensures 0.0 <= angle - Rounded(angle) < 360.0 / 65535.0
    ensures AngleFits(Rounded(angle)) && AngleCode(Rounded(angle)) == AngleCode(angle)
  {
    CodeReturns(AngleCode(angle));
  }

  lemma CodeReturns(code: int)
    ensures AngleCode(AngleOf(code)) == code
  {
    assert AngleOf(code) * 65535.0 / 360.0 == code as real;
  }

  // ---- Code tables

  function PhaseCode(p: Phase): byte {
    match p
    case WaitingPlayers => 0
    case Buy => 1
    case Attack => 2
    case RoundEnded => 3
  }

  function PhaseOf(code: byte): Option<Phase> {
    if code == 0 then Some(WaitingPlayers) else if code == 1 then Some(Buy) else if code == 2 then Some(Attack)
    else if code == 3 then Some(RoundEnded) else None
  }

  function StatusCode(s: BombStatus): byte {
    match s
    case NotPlanted => 0
    case Planted => 1
    case Defused => 2
    case Exploded => 3
  }

  function StatusOf(code: byte): Option<BombStatus> {
    if code == 0 then Some(NotPlanted) else if code == 1 then Some(Planted) else if code == 2 then Some(Defused)
    else if code == 3 then Some(Exploded) else None
  }

  function TeamCode(t: Team): byte { if t == CT then 0 else 1 }

  function TeamOf(code: byte): Option<Team> {
    if code == 0 then Some(CT) else if code == 1 then Some(TT) else None
  }

  /** NONE is 0. */
  function GunCode(g: Option<GunType>): byte {
    match g
    case None => 0
    case Some(kind) =>
      match kind
      case Glock => 1
      case Ak47 => 2
      case M3 => 3
      case Awp => 4
  }

  function GunOf(code: byte): Option<Option<GunType>> {
    if code == 0 then Some(None) else if code == 1 then Some(Some(Glock)) else if code == 2 then Some(Some(Ak47))
    else if code == 3 then Some(Some(M3)) else if code == 4 then Some(Some(Awp)) else None
  }

  function SlotCode(s: WeaponType): byte {
    match s
    case KnifeSlot => 0
    case PrimarySlot => 1
    case SecondarySlot => 2
    case BombSlot => 3
  }

  function SlotOf(code: byte): Option<WeaponType> {
    if code == 0 then Some(KnifeSlot) else if code == 1 then Some(PrimarySlot)
    else if code == 2 then Some(SecondarySlot)
    else if code == 3 then Some(BombSlot) else None
  }

  function MovementCode(m: Movement): byte {
    match m
    case Up => 1
    case Left => 2
    case Down => 3
    case Right => 4
  }

  function MovementOf(code: byte): Option<Movement> {
    if code == 1 then Some(Up) else if code == 2 then Some(Left) else if code == 3 then Some(Down)
    else if code == 4 then Some(Right) else None
  }

  /** Every table is read back as it was written, and no code stands for two things. */
  lemma TablesAgree()
    ensures forall p :: PhaseOf(PhaseCode(p)) == Some(p)
    ensures forall s :: StatusOf(StatusCode(s)) == Some(s)
    ensures forall t :: TeamOf(TeamCode(t)) == Some(t)
    ensures forall g :: GunOf(GunCode(g)) == Some(g)
    ensures forall s :: SlotOf(SlotCode(s)) == Some(s)
    ensures forall m :: MovementOf(MovementCode(m)) == Some(m)
  {}

  /** A byte looked up in a table. */
  function GetCode<T>(table: byte -> Option<T>, bs: Bytes): Parsed<T> {
    var (code, rest) :- GetByte(bs);
    match table(code)
    case None => Malformed
    case Some(v) => Ok(v, rest)
  }

  lemma CodeIsRead<T>(table: byte -> Option<T>, code: byte, v: T, rest: Bytes)
    requires table(code) == Some(v)
    ensures GetCode(table, PutByte(code, rest)) == Ok(v, rest)
  {}

  // ---- Lists

  function PutMany<T>(put: (T, Bytes) -> Bytes, xs: seq<T>, rest: Bytes): Bytes {
    if xs == [] then rest else put(xs[0], PutMany(put, xs[1..], rest))
  }

  function GetMany<T>(get: Bytes -> Parsed<T>, n: nat, bs: Bytes): (r: Parsed<seq<T>>)
    ensures r.Ok? ==> |r.value| == n
  {
    if n == 0 then Ok([], bs)
    else
      var (x, bs1) :- get(bs);
      var (xs, bs2) :- GetMany(get, n - 1, bs1);
      Ok([x] + xs, bs2)
  }

  function Each<T, U>(f: T -> U, xs: seq<T>): (r: seq<U>)
    ensures |r| == |xs| && forall i :: 0 <= i < |xs| ==> r[i] == f(xs[i])
  {
    seq(|xs|, i requires 0 <= i < |xs| => f(xs[i]))
  }

  /** What is put one after the other is got one after the other, if one alone is. */
  lemma {:induction false} ManyReturn<T, U>(
    put: (T, Bytes) -> Bytes, get: Bytes -> Parsed<U>, f: T -> U, xs: seq<T>, rest: Bytes)
    requires forall x, r :: x in xs ==> get(put(x, r)) == Ok(f(x), r)
    ensures GetMany(get, |xs|, PutMany(put, xs, rest)) == Ok(Each(f, xs), rest)
  {
    if xs != [] {
      ManyReturn(put, get, f, xs[1..], rest);
      assert xs[0] in xs && get(put(xs[0], PutMany(put, xs[1..], rest))).Ok?;
      assert [f(xs[0])] + Each(f, xs[1..]) == Each(f, xs);
    }
  }

  /** What is got from any bytes, one alone, is got from any bytes in a list. */
  lemma {:induction false} ManyFit<T>(get: Bytes -> Parsed<T>, fits: T -> bool, n: nat, bs: Bytes)
    requires forall b :: get(b).Ok? ==> fits(get(b).value)
    ensures GetMany(get, n, bs).Ok? ==> forall x <- GetMany(get, n, bs).value :: fits(x)
  {
    if n > 0 && get(bs).Ok? { ManyFit(get, fits, n - 1, get(bs).rest); }
  }
}
