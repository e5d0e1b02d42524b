/** The catalog's item categories (the `ItemTypes` enum). Only the constants the
    modelled code names are listed; the rest of the enum is `OtherType`. */
module ItemTypes {

  datatype ItemType =
    | AMMO | GRENADE | MELEE | WEAPON | MOD | NULL
    | ARMOR | RIG | HELMET
    | OtherType(name: string)
}
