/** First load of the local catalog database (`AppDatabase.Callback`): one pass
    over the bundled catalog sorts each entry into the item, ammo, weapon and mod
    lists, and the four lists are then bulk-inserted.

    The catalog is an already-parsed sequence of entries; the two type lookups
    (`getItemType()` and `itemType()`) are fields of an entry, and the entity
    converters (`toItem`, `toAmmoItem`, `toWeapon`, `toMod`) are parameters. */
module AppDatabase {

  import opened ItemTypes
  import opened Lists

  /** One entry of the catalog file: its id, its category (`getItemType()`) and
      its secondary type (`itemType()`). */
  datatype CatalogEntry = CatalogEntry(id: string, category: ItemType, secondaryType: ItemType)

  /** Where the loop sends an entry. */
  datatype Route = Skipped | ItemOnly | ToAmmo | ToWeapons | ToMods

  /** The `when` on the entry's category. An AMMO entry whose secondary type is
      NULL hits the `continue`, which also jumps over `items.add`. */
  function RouteOf(e: CatalogEntry): (r: Route)
    ensures r == Skipped <==> e.category == AMMO && e.secondaryType == NULL
    ensures r == ToAmmo <==> e.category == AMMO && e.secondaryType != NULL
    ensures r == ToWeapons <==> e.category == GRENADE || e.category == MELEE || e.category == WEAPON
    ensures r == ToMods <==> e.category == MOD
  {
    match e.category
    case AMMO => if e.secondaryType == NULL then Skipped else ToAmmo
    case GRENADE => ToWeapons
    case MELEE => ToWeapons
    case WEAPON => ToWeapons
    case MOD => ToMods
    case _ => ItemOnly
  }

  predicate Kept(e: CatalogEntry) { RouteOf(e) != Skipped }
  predicate IsAmmo(e: CatalogEntry) { RouteOf(e) == ToAmmo }
  predicate IsWeapon(e: CatalogEntry) { RouteOf(e) == ToWeapons }
  predicate IsMod(e: CatalogEntry) { RouteOf(e) == ToMods }

  /** The entries an output list is made from, in input order. */
  function ItemSources(entries: seq<CatalogEntry>): seq<CatalogEntry> { Filter(entries, Kept) }
  function AmmoSources(entries: seq<CatalogEntry>): seq<CatalogEntry> { Filter(entries, IsAmmo) }
  function WeaponSources(entries: seq<CatalogEntry>): seq<CatalogEntry> { Filter(entries, IsWeapon) }
  function ModSources(entries: seq<CatalogEntry>): seq<CatalogEntry> { Filter(entries, IsMod) }

  /** What one more entry adds to each of the four lists. */
  lemma SourcesSnoc<I, A, W, M>(prefix: seq<CatalogEntry>, e: CatalogEntry,
                                toItem: CatalogEntry -> I, toAmmo: CatalogEntry -> A,
                                toWeapon: CatalogEntry -> W, toMod: CatalogEntry -> M)
    ensures Map(ItemSources(prefix + [e]), toItem) == Map(ItemSources(prefix), toItem) + (if Kept(e) then [toItem(e)] else [])
    ensures Map(AmmoSources(prefix + [e]), toAmmo) == Map(AmmoSources(prefix), toAmmo) + (if IsAmmo(e) then [toAmmo(e)] else [])
    ensures Map(WeaponSources(prefix + [e]), toWeapon) == Map(WeaponSources(prefix), toWeapon) + (if IsWeapon(e) then [toWeapon(e)] else [])
    ensures Map(ModSources(prefix + [e]), toMod) == Map(ModSources(prefix), toMod) + (if IsMod(e) then [toMod(e)] else [])
  {
    MapFilterSnoc(prefix, e, Kept, toItem);
    MapFilterSnoc(prefix, e, IsAmmo, toAmmo);
    MapFilterSnoc(prefix, e, IsWeapon, toWeapon);
    MapFilterSnoc(prefix, e, IsMod, toMod);
  }

  /** The `populateDatabase` loop: the four lists it builds before inserting them. */
  method Partition<I, A, W, M>(entries: seq<CatalogEntry>,
                               toItem: CatalogEntry -> I, toAmmo: CatalogEntry -> A,
                               toWeapon: CatalogEntry -> W, toMod: CatalogEntry -> M)
    returns (items: seq<I>, ammo: seq<A>, weapons: seq<W>, mods: seq<M>)
    ensures items == Map(ItemSources(entries), toItem)
    ensures ammo == Map(AmmoSources(entries), toAmmo)
    ensures weapons == Map(WeaponSources(entries), toWeapon)
    ensures mods == Map(ModSources(entries), toMod)
  {
    items, ammo, weapons, mods := [], [], [], [];
    for n := 0 to |entries|
      invariant items == Map(ItemSources(entries[..n]), toItem)
      invariant ammo == Map(AmmoSources(entries[..n]), toAmmo)
      invariant weapons == Map(WeaponSources(entries[..n]), toWeapon)
      invariant mods == Map(ModSources(entries[..n]), toMod)
    {
      var item := entries[n];
      assert entries[..n + 1] == entries[..n] + [item];
      SourcesSnoc(entries[..n], item, toItem, toAmmo, toWeapon, toMod);
      match item.category {
        case AMMO =>
          if item.secondaryType == NULL {
            assert RouteOf(item) == Skipped;
            continue;
          }
          assert RouteOf(item) == ToAmmo;
          ammo := ammo + [toAmmo(item)];
        case GRENADE | MELEE | WEAPON =>
          assert RouteOf(item) == ToWeapons;
          weapons := weapons + [toWeapon(item)];
        case MOD =>
          assert RouteOf(item) == ToMods;
          mods := mods + [toMod(item)];
        case _ =>
          assert RouteOf(item) == ItemOnly;
      }
      items := items + [toItem(item)];
    }
    assert entries[..|entries|] == entries;
  }

  /** A skipped entry (AMMO whose secondary type is NULL) is the source of no
      list at all, and every other entry is the source of an item. */
  lemma SkippedEverywhere(entries: seq<CatalogEntry>, e: CatalogEntry)
    requires e in entries
    ensures RouteOf(e) == Skipped <==>
      e !in ItemSources(entries) && e !in AmmoSources(entries) && e !in WeaponSources(entries) && e !in ModSources(entries)
    ensures RouteOf(e) != Skipped <==> e in ItemSources(entries)
  {
    FilterIn(entries, Kept, e);
    FilterIn(entries, IsAmmo, e);
    FilterIn(entries, IsWeapon, e);
    FilterIn(entries, IsMod, e);
  }

  /** The category lists: remaining AMMO to ammo; GRENADE, MELEE and WEAPON to
      weapons; MOD to mods; nothing else to any of them. */
  lemma CategoryLists(entries: seq<CatalogEntry>, e: CatalogEntry)
    requires e in entries
    ensures e in AmmoSources(entries) <==> e.category == AMMO && e.secondaryType != NULL
    ensures e in WeaponSources(entries) <==> e.category in {GRENADE, MELEE, WEAPON}
    ensures e in ModSources(entries) <==> e.category == MOD
  {
    FilterIn(entries, IsAmmo, e);
    FilterIn(entries, IsWeapon, e);
    FilterIn(entries, IsMod, e);
  }

  /** Counting: the items and the skipped entries make up the input, and every
      item's entry went to at most one of the other three lists, so their sizes
      and the item-only entries add up to the items. */
  lemma PartitionCounts(entries: seq<CatalogEntry>)
    ensures |ItemSources(entries)| + |Filter(entries, (e: CatalogEntry) => RouteOf(e) == Skipped)| == |entries|
    ensures |AmmoSources(entries)| + |WeaponSources(entries)| + |ModSources(entries)|
            + |Filter(entries, (e: CatalogEntry) => RouteOf(e) == ItemOnly)| == |ItemSources(entries)|
  {
    FilterComplement(entries, Kept, (e: CatalogEntry) => RouteOf(e) == Skipped);
    PartitionCountsSplit(entries);
  }

  lemma {:induction false} PartitionCountsSplit(entries: seq<CatalogEntry>)
    ensures |AmmoSources(entries)| + |WeaponSources(entries)| + |ModSources(entries)|
            + |Filter(entries, (e: CatalogEntry) => RouteOf(e) == ItemOnly)| == |ItemSources(entries)|
    decreases |entries|
  {
    if entries != [] {
      PartitionCountsSplit(entries[1..]);
    }
  }

  /** Every output list keeps the input order of its entries. */
  lemma ListsKeepOrder(entries: seq<CatalogEntry>)
    ensures SubsequenceOf(ItemSources(entries), entries)
    ensures SubsequenceOf(AmmoSources(entries), entries)
    ensures SubsequenceOf(WeaponSources(entries), entries)
    ensures SubsequenceOf(ModSources(entries), entries)
  {
    FilterSubsequence(entries, Kept);
    FilterSubsequence(entries, IsAmmo);
    FilterSubsequence(entries, IsWeapon);
    FilterSubsequence(entries, IsMod);
  }

  /** One `insertAll` call on a DAO. */
  datatype BulkInsert<I, A, W, M> =
    | InsertItems(items: seq<I>)
    | InsertAmmo(ammo: seq<A>)
    | InsertWeapons(weapons: seq<W>)
    | InsertMods(mods: seq<M>)

  /** The database callback: the `insertAll` calls issued so far and the
      `lastPriceUpdate` preference. */
  class Callback<I, A, W, M> {
    var inserts: seq<BulkInsert<I, A, W, M>>
    var lastPriceUpdate: int

    constructor (lastPriceUpdate: int)
      ensures this.inserts == [] && this.lastPriceUpdate == lastPriceUpdate
    {
      this.inserts := [];
      this.lastPriceUpdate := lastPriceUpdate;
    }

    /** `populateDatabase`: scans the whole catalog, then issues the four bulk
        inserts, items first. */
    method PopulateDatabase(entries: seq<CatalogEntry>,
                            toItem: CatalogEntry -> I, toAmmo: CatalogEntry -> A,
                            toWeapon: CatalogEntry -> W, toMod: CatalogEntry -> M)
      modifies this
      ensures lastPriceUpdate == old(lastPriceUpdate)
      ensures inserts == old(inserts) + [
        InsertItems(Map(ItemSources(entries), toItem)),
        InsertAmmo(Map(AmmoSources(entries), toAmmo)),
        InsertWeapons(Map(WeaponSources(entries), toWeapon)),
        InsertMods(Map(ModSources(entries), toMod))]
    {
      var items, ammo, weapons, mods := Partition(entries, toItem, toAmmo, toWeapon, toMod);
      inserts := inserts + [InsertItems(items)];
      inserts := inserts + [InsertAmmo(ammo)];
      inserts := inserts + [InsertWeapons(weapons)];
      inserts := inserts + [InsertMods(mods)];
    }

    /** `onCreate`: loads the bundled catalog. */
    method OnCreate(entries: seq<CatalogEntry>,
                    toItem: CatalogEntry -> I, toAmmo: CatalogEntry -> A,
                    toWeapon: CatalogEntry -> W, toMod: CatalogEntry -> M)
      modifies this
      ensures lastPriceUpdate == old(lastPriceUpdate)
      ensures inserts == old(inserts) + [
        InsertItems(Map(ItemSources(entries), toItem)),
        InsertAmmo(Map(AmmoSources(entries), toAmmo)),
        InsertWeapons(Map(WeaponSources(entries), toWeapon)),
        InsertMods(Map(ModSources(entries), toMod))]
    {
      PopulateDatabase(entries, toItem, toAmmo, toWeapon, toMod);
    }

    /** `onDestructiveMigration`: forgets when prices were last updated, so that
        they are fetched again, and reloads the bundled catalog. */
    method OnDestructiveMigration(entries: seq<CatalogEntry>,
                                  toItem: CatalogEntry -> I, toAmmo: CatalogEntry -> A,
                                  toWeapon: CatalogEntry -> W, toMod: CatalogEntry -> M)
      modifies this
      ensures lastPriceUpdate == 0
      ensures inserts == old(inserts) + [
        InsertItems(Map(ItemSources(entries), toItem)),
        InsertAmmo(Map(AmmoSources(entries), toAmmo)),
        InsertWeapons(Map(WeaponSources(entries), toWeapon)),
        InsertMods(Map(ModSources(entries), toMod))]
    {
      lastPriceUpdate := 0;
      PopulateDatabase(entries, toItem, toAmmo, toWeapon, toMod);
    }
  }
}
