/** The two persisted row shapes: `pigs` and `loot`. */
module Schema {
  import opened Wrappers

  /**
   * One row of the `pigs` table. Timestamps (`f64` seconds) are reals; the
   * integer columns are unbounded here.
   */
  datatype Pig = Pig(
    id: int,
    chatId: int,
    userId: int,
    weight: int,
    name: string,
    lastFeed: real,
    lastSalo: real,
    ownerName: string,
    salo: int,
    poisoned: bool,
    barn: int,
    pigsty: int,
    vetclinic: int,
    vetLastPickup: real,
    lastWeight: int,
    avatarUrl: Option<string>,
    biolab: int,
    butchery: int,
    pills: int,
    factory: int,
    warehouse: int,
    institute: int)

  /**
   * One row of the `loot` table. The JSON columns `base_stats` and `rarity` are kept
   * as their text, and the UUID as a number; their contents are not interpreted.
   */
  datatype Loot = Loot(
    id: int,
    chatId: int,
    owner: int,
    name: string,
    icon: string,
    description: Option<string>,
    className: string,
    classIcon: string,
    weight: real,
    baseStats: string,
    rarity: string,
    uuid: nat)

  /**
   * A pig as the game first creates it: weight and last weight both `w`, no
   * progression, not poisoned, never fed or salted, no avatar, no id yet.
   */
  predicate IsNewborn(p: Pig, w: int) {
    && p.id == 0
    && p.weight == w && p.lastWeight == w
    && p.lastFeed == 0.0 && p.lastSalo == 0.0 && p.vetLastPickup == 0.0
    && p.salo == 0 && !p.poisoned && p.avatarUrl.None?
    && p.barn == 0 && p.pigsty == 0 && p.vetclinic == 0 && p.biolab == 0
    && p.butchery == 0 && p.pills == 0 && p.factory == 0 && p.warehouse == 0
    && p.institute == 0
  }
}
