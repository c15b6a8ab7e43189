/** Weapons as values: the trigger shared by all of them (src/server/weapon.cpp), guns, the knife,
    and the loadout that owns them (src/server/gun.cpp, ak47.cpp, knife.cpp, loadout.cpp, shop.cpp). */
module Arms {
  import opened Settings
  import opened Geometry

  function U16(n: int): (r: nat)
    ensures r < 0x1_0000
  {
    n % 0x1_0000
  }

  datatype Trigger = Trigger(making: bool, just: bool, since: real) {
    function Action(): Trigger { Trigger(true, true, 0.0) }
    function StopAction(): Trigger { this.(making := false) }
    function Update(dt: real): Trigger {
      if just then this.(just := false) else this.(since := since + dt)
    }
  }

  const IDLE := Trigger(false, false, 0.0)

  datatype Gun = Gun(kind: GunType, trigger: Trigger, sinceShot: real, ammo: nat) {
    /** AddAmmo takes and adds up 16-bit numbers. */
    function AddAmmo(n: nat): Gun { this.(ammo := U16(ammo + U16(n))) }
  }

  function NewGun(cfg: Settings, kind: GunType): Gun {
    Gun(kind, IDLE, 0.0, U16(cfg.Gun(kind).initialAmmo))
  }

  const BULLETS_PER_BURST: nat := 3

  function AmmoCost(kind: GunType): nat { if kind == Ak47 then BULLETS_PER_BURST else 1 }

  /** How many rays one shot casts. */
  function Pellets(kind: GunType): nat { if kind == M3 then 8 else 1 }

  /** Seconds between two shots of a gun. */
  function Period(cfg: Settings, kind: GunType): (p: real)
    requires cfg.Valid()
    ensures p > 0.0
  {
    60.0 / cfg.Gun(kind).rateOfFire as real
  }

  /** An AK-47 fires while the trigger is held, any other gun only when it has just been pulled. */
  predicate CanShoot(cfg: Settings, g: Gun)
    requires cfg.Valid()
  {
    && (if g.kind == Ak47 then g.trigger.making else g.trigger.just)
    && g.ammo >= AmmoCost(g.kind)
    && g.sinceShot >= Period(cfg, g.kind)
  }

  /** A gun once the ammunition for a shot is taken. */
  function Spent(g: Gun): Gun
    requires g.ammo >= AmmoCost(g.kind)
  {
    g.(ammo := g.ammo - AmmoCost(g.kind))
  }

  /** A gun after one update, apart from what the shot does to the world. */
  function UpdateGun(cfg: Settings, g: Gun, dt: real): Gun
    requires cfg.Valid()
  {
    var fired := CanShoot(cfg, g);
    g.(ammo := if fired then g.ammo - AmmoCost(g.kind) else g.ammo,
       sinceShot := if fired then 0.0 else g.sinceShot + dt,
       trigger := g.trigger.Update(dt))
  }

  datatype Knife = Knife(trigger: Trigger, sinceStab: real)

  function NewKnife(cfg: Settings): Knife
    requires cfg.Valid()
  {
    Knife(IDLE, 60.0 / cfg.knifeAttackRate as real)
  }

  predicate CanStab(cfg: Settings, k: Knife)
    requires cfg.Valid()
  {
    k.trigger.just && k.sinceStab >= 60.0 / cfg.knifeAttackRate as real
  }

  function UpdateKnife(cfg: Settings, k: Knife, dt: real): Knife
    requires cfg.Valid()
  {
    Knife(k.trigger.Update(dt), if CanStab(cfg, k) then 0.0 else k.sinceStab + dt)
  }

  /** What a player carries. `hasBomb` says that the loadout points to the one bomb of the game. */
  datatype Loadout = Loadout(
    money: nat, knife: Knife, primary: Option<Gun>, secondary: Gun, hasBomb: bool, equipped: WeaponType)
  {
    function AddMoney(n: int): Loadout { this.(money := U16(money + n)) }
    function DecreaseMoneyBy(n: int): Loadout {
      if n <= 0 then this else this.(money := if money >= n then money - n else 0)
    }

    /** Applies a change of trigger to the equipped weapon, if it is not the bomb. */
    function OnTrigger(f: Trigger -> Trigger): Loadout {
      match equipped
      case PrimarySlot =>
        if primary.Some? then this.(primary := Some(primary.value.(trigger := f(primary.value.trigger)))) else this
      case SecondarySlot => this.(secondary := secondary.(trigger := f(secondary.trigger)))
      case KnifeSlot => this.(knife := knife.(trigger := f(knife.trigger)))
      case BombSlot => this
    }

    /** The slot asked for, where there is something in it. */
    function Equip(slot: WeaponType): Loadout {
      if (slot == PrimarySlot && primary.None?) || (slot == BombSlot && !hasBomb) then this
      else this.(equipped := slot)
    }
  }

  function NewLoadout(cfg: Settings): Loadout
    requires cfg.Valid()
  {
    Loadout(cfg.initialMoney, NewKnife(cfg), None, NewGun(cfg, Glock), false, SecondarySlot)
  }

  /** Loadout::reset; on death the money stays. */
  function ResetLoadout(cfg: Settings, l: Loadout, onDeath: bool): Loadout {
    Loadout(if onDeath then l.money else U16(cfg.initialMoney), l.knife, None, NewGun(cfg, Glock), false, SecondarySlot)
  }

  /** Shop::buy_gun: the new loadout and the gun that it pushed out. A gun bought always goes to the
      primary slot. Buying NONE, which the price list does not have, throws. */
  function BuyGun(cfg: Settings, l: Loadout, kind: GunType): (Loadout, Option<Gun>) {
    var price := cfg.Gun(kind).price;
    if l.money < price then (l, None)
    else (l.DecreaseMoneyBy(price).(primary := Some(NewGun(cfg, kind))), l.primary)
  }

  function BuyClip(cfg: Settings, l: Loadout, forPrimary: bool): Loadout {
    if l.money < cfg.clipPrice || (forPrimary && l.primary.None?) then l
    else
      var paid := l.DecreaseMoneyBy(cfg.clipPrice);
      if forPrimary then
        var g := paid.primary.value;
        paid.(primary := Some(g.AddAmmo(cfg.Gun(g.kind).clipSize)))
      else
        paid.(secondary := paid.secondary.AddAmmo(cfg.Gun(paid.secondary.kind).clipSize))
  }

  // ---- One gun over a whole run

  datatype GunEvent = Pull | Release | Elapse(dt: real) | Refill(rounds: nat)

  function GunStep(cfg: Settings, g: Gun, e: GunEvent): Gun
    requires cfg.Valid()
  {
    match e
    case Pull => g.(trigger := g.trigger.Action())
    case Release => g.(trigger := g.trigger.StopAction())
    case Elapse(dt) => UpdateGun(cfg, g, dt)
    case Refill(n) => g.AddAmmo(n)
  }

  function RunGun(cfg: Settings, g: Gun, es: seq<GunEvent>): (r: Gun)
    requires cfg.Valid()
    ensures r.kind == g.kind
  {
    if es == [] then g else GunStep(cfg, RunGun(cfg, g, es[..|es| - 1]), es[|es| - 1])
  }

  predicate Fires(cfg: Settings, g: Gun, e: GunEvent)
    requires cfg.Valid()
  {
    e.Elapse? && CanShoot(cfg, g)
  }

  /** Shots fired in a run. */
  function Shots(cfg: Settings, g: Gun, es: seq<GunEvent>): nat
    requires cfg.Valid()
  {
    if es == [] then 0
    else
      var before := es[..|es| - 1];
      Shots(cfg, g, before) + (if Fires(cfg, RunGun(cfg, g, before), es[|es| - 1]) then 1 else 0)
  }

  function Duration(e: GunEvent): real { match e case Elapse(dt) => dt case _ => 0.0 }
  function Rounds(e: GunEvent): nat { match e case Refill(n) => n case _ => 0 }

  function Time(es: seq<GunEvent>): real {
    if es == [] then 0.0 else Time(es[..|es| - 1]) + Duration(es[|es| - 1])
  }

  function Pulls(es: seq<GunEvent>): nat {
    if es == [] then 0 else Pulls(es[..|es| - 1]) + (if es[|es| - 1].Pull? then 1 else 0)
  }

  function Bought(es: seq<GunEvent>): nat {
    if es == [] then 0 else Bought(es[..|es| - 1]) + Rounds(es[|es| - 1])
  }

  /** `n` whole periods and the time since the last shot fit in `t`. */
  predicate Fits(n: nat, period: real, since: real, t: real) {
    since >= 0.0 && n as real * period + since <= t
  }

  lemma OneEventTakesTime(cfg: Settings, g: Gun, e: GunEvent, n: nat, t: real)
    requires cfg.Valid() && (e.Elapse? ==> e.dt >= 0.0)
    requires Fits(n, Period(cfg, g.kind), g.sinceShot, t)
    ensures var shots := if Fires(cfg, g, e) then n + 1 else n;
            Fits(shots, Period(cfg, g.kind), GunStep(cfg, g, e).sinceShot, t + Duration(e))
  {
    var p := Period(cfg, g.kind);
    assert (n + 1) as real * p == n as real * p + p;
  }

  lemma {:induction false} ShotsTakeTime(cfg: Settings, kind: GunType, es: seq<GunEvent>)
    requires cfg.Valid()
    requires forall e <- es :: e.Elapse? ==> e.dt >= 0.0
    ensures var g := NewGun(cfg, kind);
            Fits(Shots(cfg, g, es), Period(cfg, kind), RunGun(cfg, g, es).sinceShot, Time(es))
  {
    var g := NewGun(cfg, kind);
    if es != [] {
      var before := es[..|es| - 1];
      ShotsTakeTime(cfg, kind, before);
      OneEventTakesTime(cfg, RunGun(cfg, g, before), es[|es| - 1], Shots(cfg, g, before), Time(before));
    }
  }

  /** `shots` in `t` seconds keep to a rate given in shots a minute. */
  predicate KeepsToRate(shots: nat, rateOfFire: int, t: real) {
    shots as real * 60.0 <= t * rateOfFire as real
  }

  /** A gun never fires faster than its rate, over any run of updates, pulls and releases. */
  lemma FireRateIsBounded(cfg: Settings, kind: GunType, es: seq<GunEvent>)
    requires cfg.Valid()
    requires forall e <- es :: e.Elapse? ==> e.dt >= 0.0
    ensures KeepsToRate(Shots(cfg, NewGun(cfg, kind), es), cfg.Gun(kind).rateOfFire, Time(es))
  {
    ShotsTakeTime(cfg, kind, es);
    Rescale(Shots(cfg, NewGun(cfg, kind), es), Period(cfg, kind), cfg.Gun(kind).rateOfFire,
            RunGun(cfg, NewGun(cfg, kind), es).sinceShot, Time(es));
  }

  lemma Rescale(n: nat, period: real, rate: int, since: real, t: real)
    requires rate > 0 && period == 60.0 / rate as real && Fits(n, period, since, t)
    ensures KeepsToRate(n, rate, t)
  {
    var r, k := rate as real, n as real;
    Quotient(60.0, r, period);
    var m, gap := k * period, t - k * period;
    assert m * r == k * (period * r) == k * 60.0;
    SignOfProduct(gap, r, t * r - m * r);
  }

  lemma U16Carries(x: int, n: int)
    ensures U16(U16(x) + U16(n)) == U16(x + n)
  {}

  lemma U16Fits(x: int, r: int)
    requires 0 <= r < 0x1_0000 && (x - r) % 0x1_0000 == 0
    ensures U16(x) == r
  {}

  /** A 16-bit counter of what is left when `spent` is taken from `total`; no more is taken than
      there was, as long as the total fits in the counter. */
  predicate Balance(left: int, total: int, spent: int) {
    left == U16(total - spent) && (0 <= total < 0x1_0000 ==> spent <= total)
  }

  lemma OneEventAddsUp(cfg: Settings, g: Gun, e: GunEvent, total: nat, spent: nat)
    requires cfg.Valid() && Balance(g.ammo, total, spent)
    ensures Balance(GunStep(cfg, g, e).ammo, total + Rounds(e),
                    if Fires(cfg, g, e) then spent + AmmoCost(g.kind) else spent)
  {
    match e
    case Refill(n) => U16Carries(total - spent, n);
    case Elapse(_) =>
      if Fires(cfg, g, e) { U16Fits(total - spent - AmmoCost(g.kind), g.ammo - AmmoCost(g.kind)); }
    case _ =>
  }

  /** Ammunition adds up: what is left, in the 16 bits of its counter, is what came with the gun and
      was bought less what was fired; and no more was fired than there had been. */
  lemma {:induction false} AmmoAddsUp(cfg: Settings, kind: GunType, es: seq<GunEvent>)
    requires cfg.Valid()
    ensures var g := NewGun(cfg, kind);
            Balance(RunGun(cfg, g, es).ammo, g.ammo + Bought(es), AmmoCost(kind) * Shots(cfg, g, es))
  {
    var g := NewGun(cfg, kind);
    if es != [] {
      var before := es[..|es| - 1];
      AmmoAddsUp(cfg, kind, before);
      var shots := Shots(cfg, g, before);
      OneEventAddsUp(cfg, RunGun(cfg, g, before), es[|es| - 1], g.ammo + Bought(before), AmmoCost(kind) * shots);
      assert AmmoCost(kind) * (shots + 1) == AmmoCost(kind) * shots + AmmoCost(kind);
    }
  }

  /** Any gun but the AK-47 fires at most once each time the trigger is pulled. */
  lemma {:induction false} OneShotPerPull(cfg: Settings, kind: GunType, es: seq<GunEvent>)
    requires cfg.Valid() && kind != Ak47
    ensures var g := NewGun(cfg, kind);
            Shots(cfg, g, es) + (if RunGun(cfg, g, es).trigger.just then 1 else 0) <= Pulls(es)
  {
    if es != [] { OneShotPerPull(cfg, kind, es[..|es| - 1]); }
  }
}
