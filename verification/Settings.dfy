/** The values the server reads from its settings file (src/common/settings.h), as arbitrary
    constants, and the enumerations shared by the game and the protocol. */
module Settings {
  datatype Option<+T> = None | Some(value: T)

  /** The guns of src/common/weapon_type.h; its NONE is the None of an option. */
  datatype GunType = Glock | Ak47 | M3 | Awp
  datatype WeaponType = KnifeSlot | PrimarySlot | SecondarySlot | BombSlot
  datatype Team = CT | TT
  datatype BombStatus = NotPlanted | Planted | Defused | Exploded
  datatype Phase = WaitingPlayers | Buy | Attack | RoundEnded
  datatype Movement = Up | Left | Down | Right

  datatype GunSettings = GunSettings(initialAmmo: nat, rateOfFire: int, price: nat, clipSize: nat, killBonus: nat)

  datatype Settings = Settings(
    fps: int, rounds: nat,
    buyDuration: nat, attackDuration: nat, waitingDuration: nat, betweenRoundsDuration: nat,
    playerSpeed: nat, terrorists: nat, counterTerrorists: nat,
    initialLife: nat, initialMoney: nat, clipPrice: nat,
    teamKillPenalty: nat, wonRoundBonus: nat, lostRoundBonus: nat,
    glock: GunSettings, ak47: GunSettings, m3: GunSettings, awp: GunSettings,
    knifeDistance: nat, knifeDamage: nat, knifeAttackRate: int, knifeKillBonus: nat,
    explosionDamage: nat, explosionRadius: nat,
    detonationTime: nat, plantationTime: nat, defuseTime: nat)
  {
    /** What the arithmetic of the server needs of the file: rates one can divide by, a life and a
        starting purse that fit in 16 bits, players that start alive. */
    predicate Valid() {
      && fps > 0
      && glock.rateOfFire > 0 && ak47.rateOfFire > 0 && m3.rateOfFire > 0 && awp.rateOfFire > 0
      && knifeAttackRate > 0
      && 0 < initialLife < 0x1_0000 && initialMoney < 0x1_0000
      && glock.initialAmmo < 0x1_0000 && ak47.initialAmmo < 0x1_0000
      && m3.initialAmmo < 0x1_0000 && awp.initialAmmo < 0x1_0000
    }

    function Gun(kind: GunType): GunSettings {
      match kind
      case Glock => glock
      case Ak47 => ak47
      case M3 => m3
      case Awp => awp
    }
  }
}
