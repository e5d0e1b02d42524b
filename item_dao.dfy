/** The items DAO (`ItemDao.kt`) over three tables of the local database:
    items, ammo and weapons. A table is a map from a row's id to the row; the
    pricing column holds the item's `Pricing` record. */
module ItemDao {

  import opened Wrappers
  import opened Sorting
  import Pricing

  /** A row of the items, ammo or weapons table; `columns` holds every column
      other than the id, the name and the pricing. */
  datatype Row = Row(id: string, name: Option<string>, pricing: Option<Pricing.Pricing>, columns: map<string, string>)

  /** The key of `ORDER BY name`: SQLite puts null names first, then compares
      UTF-8 bytes, which orders strings as their code points do. */
  function NameKey(r: Row): Key {
    match r.name
    case None => Null
    case Some(s) => Str(s)
  }

  /** Every row is stored under its own id. */
  ghost predicate KeyedById(table: map<string, Row>) {
    forall k :: k in table ==> table[k].id == k
  }

  /** The ids of the rows whose pricing is not null. */
  ghost function PricedIds(table: map<string, Row>): set<string> {
    set k | k in table && table[k].pricing.Some?
  }

  /** `UPDATE <table> SET pricing = :tt WHERE id = :id` */
  function SetPricing(table: map<string, Row>, id: string, tt: Pricing.Pricing): (r: map<string, Row>)
    ensures id !in table ==> r == table
    ensures id in table ==> id in r && r[id].pricing == Some(tt)
  {
    if id in table then table[id := table[id].(pricing := Some(tt))] else table
  }

  /** The update touches the pricing of row `id` and nothing else: the same ids,
      every other row as it was, and every other column of row `id` as it was. A
      table without `id` is left as it was. */
  lemma SetPricingFrame(table: map<string, Row>, id: string, tt: Pricing.Pricing)
    ensures SetPricing(table, id, tt).Keys == table.Keys
    ensures forall k :: k in table && k != id ==> SetPricing(table, id, tt)[k] == table[k]
    ensures id in table ==>
      var r := SetPricing(table, id, tt)[id];
      r.pricing == Some(tt) && r.id == table[id].id && r.name == table[id].name && r.columns == table[id].columns
    ensures id !in table ==> SetPricing(table, id, tt) == table
    ensures KeyedById(table) ==> KeyedById(SetPricing(table, id, tt))
  {
  }

  /** Applying the same update twice is the same as applying it once. */
  lemma SetPricingIdempotent(table: map<string, Row>, id: string, tt: Pricing.Pricing)
    ensures SetPricing(SetPricing(table, id, tt), id, tt) == SetPricing(table, id, tt)
  {
  }

  /** The ids in `done` whose row has a pricing. */
  ghost function PricedAmong(table: map<string, Row>, done: set<string>): set<string> {
    set k | k in done && k in table && table[k].pricing.Some?
  }

  lemma PricedAmongStep(table: map<string, Row>, done: set<string>, k: string)
    requires k in table && k !in done
    ensures table[k].pricing.Some? ==> PricedAmong(table, done + {k}) == PricedAmong(table, done) + {k}
    ensures table[k].pricing.None? ==> PricedAmong(table, done + {k}) == PricedAmong(table, done)
  {
  }

  /** The rows of `table` with a pricing, each once, in some order. */
  method PricedRows(table: map<string, Row>) returns (found: seq<Row>)
    ensures forall r :: r in found <==> r in table.Values && r.pricing.Some?
    ensures |found| == |PricedIds(table)|
  {
    var todo := table.Keys;
    found := [];
    ghost var done: set<string> := {};
    while todo != {}
      invariant todo <= table.Keys && done == table.Keys - todo
      invariant forall r :: r in found ==> r in table.Values && r.pricing.Some?
      invariant forall k :: k in done && table[k].pricing.Some? ==> table[k] in found
      invariant |found| == |PricedAmong(table, done)|
      decreases todo
    {
      var k :| k in todo;
      PricedAmongStep(table, done, k);
      if table[k].pricing.Some? {
        found := found + [table[k]];
      }
      todo := todo - {k};
      done := done + {k};
    }
    assert PricedAmong(table, done) == PricedIds(table);
  }

  /** Two lists that are permutations of each other hold the same elements. */
  lemma SameElements<T>(a: seq<T>, b: seq<T>)
    requires multiset(a) == multiset(b)
    ensures forall x :: x in a <==> x in b
  {
    forall x ensures x in a <==> x in b {
      assert x in a <==> x in multiset(a);
      assert x in b <==> x in multiset(b);
    }
  }

  class ItemDao {
    var items: map<string, Row>
    var ammo: map<string, Row>
    var weapons: map<string, Row>

    ghost predicate Valid()
      reads this
    {
      KeyedById(items) && KeyedById(ammo) && KeyedById(weapons)
    }

    constructor ()
      ensures Valid() && items == map[] && ammo == map[] && weapons == map[]
    {
      items, ammo, weapons := map[], map[], map[];
    }

    /** `getAll` / `getAllLive`: `SELECT * FROM items WHERE pricing IS NOT NULL
        ORDER BY name`. Every row with a pricing, once, ordered by name. */
    method GetAll() returns (rows: seq<Row>)
      requires Valid()
      ensures forall r :: r in rows <==> r in items.Values && r.pricing.Some?
      ensures |rows| == |PricedIds(items)|
      ensures Sorted(rows, NameKey, false)
    {
      var found := PricedRows(items);
      rows := SortBy(found, NameKey, false);
      SortByCorrect(found, NameKey, false);
      SameElements(found, rows);
      assert |rows| == |multiset(rows)| == |multiset(found)| == |found|;
    }
    /** `getByID`: `SELECT * FROM items WHERE id = :id`. */
    function GetByID(id: string): (r: Option<Row>)
      reads this
      requires Valid()
      ensures r.Some? <==> exists row :: row in items.Values && row.id == id
      ensures r.Some? ==> r.value in items.Values && r.value.id == id
    {
      if id in items then Some(items[id]) else None
    }

    /** `insert(item: Item)` with `OnConflictStrategy.REPLACE`: the row replaces
        any row with the same id. */
    method Insert(item: Row)
      requires Valid()
      modifies this
      ensures Valid()
      ensures items == old(items)[item.id := item]
      ensures ammo == old(ammo) && weapons == old(weapons)
    {
      items := items[item.id := item];
    }

    /** `insert(item: AmmoItem)` with `OnConflictStrategy.REPLACE`, into the ammo table. */
    method InsertAmmo(item: Row)
      requires Valid()
      modifies this
      ensures Valid()
      ensures ammo == old(ammo)[item.id := item]
      ensures items == old(items) && weapons == old(weapons)
    {
      ammo := ammo[item.id := item];
    }

    /** `updateItemsTable` */
    method UpdateItemsTable(id: string, tt: Pricing.Pricing)
      requires Valid()
      modifies this
      ensures Valid()
      ensures items == SetPricing(old(items), id, tt)
      ensures ammo == old(ammo) && weapons == old(weapons)
    {
      if id in items {
        items := items[id := items[id].(pricing := Some(tt))];
      }
    }

    /** `updateAmmoTable` */
    method UpdateAmmoTable(id: string, tt: Pricing.Pricing)
      requires Valid()
      modifies this
      ensures Valid()
      ensures ammo == SetPricing(old(ammo), id, tt)
      ensures items == old(items) && weapons == old(weapons)
    {
      if id in ammo {
        ammo := ammo[id := ammo[id].(pricing := Some(tt))];
      }
    }

    /** `updateWeaponTable` */
    method UpdateWeaponTable(id: string, tt: Pricing.Pricing)
      requires Valid()
      modifies this
      ensures Valid()
      ensures weapons == SetPricing(old(weapons), id, tt)
      ensures items == old(items) && ammo == old(ammo)
    {
      if id in weapons {
        weapons := weapons[id := weapons[id].(pricing := Some(tt))];
      }
    }

    /** `updateAllPricing`: with an id, sets that row's pricing in all three
        tables; with a null id, changes nothing. */
    method UpdateAllPricing(id: Option<string>, pricing: Pricing.Pricing)
      requires Valid()
      modifies this
      ensures Valid()
      ensures id.None? ==> items == old(items) && ammo == old(ammo) && weapons == old(weapons)
      ensures id.Some? ==>
        && items == SetPricing(old(items), id.value, pricing)
        && ammo == SetPricing(old(ammo), id.value, pricing)
        && weapons == SetPricing(old(weapons), id.value, pricing)
    {
      if id.Some? {
        UpdateItemsTable(id.value, pricing);
        UpdateAmmoTable(id.value, pricing);
        UpdateWeaponTable(id.value, pricing);
      }
    }
  }
}
