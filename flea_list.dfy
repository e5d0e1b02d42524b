/** The flea-market list (`FleaMarketListFragment.kt`): the priced items from
    the database, sorted by the chosen mode and narrowed by the search key.
    `getPrice` and `getPricePerSlot` of an item are parameters. */
module FleaList {

  import opened Wrappers
  import opened Lists
  import opened Sorting
  import opened Text
  import opened ItemDao

  /** The key of sort modes 3 and 4: the pricing's change over the last 48 hours,
      null when the item has no pricing or the change is unknown. */
  function ChangeKey(r: Row): Key {
    match r.pricing
    case None => Null
    case Some(p) =>
      match p.changeLast48h
      case None => Null
      case Some(x) => Real(x)
  }

  /** The key the chosen sort mode sorts by. */
  function ModeKey(mode: Option<int>, price: Row -> int, pricePerSlot: Row -> int): (key: Row -> Key)
    ensures mode == Some(0) ==> key == NameKey
    ensures mode == Some(3) || mode == Some(4) ==> key == ChangeKey
    ensures mode == Some(2) ==> forall r :: key(r) == Num(pricePerSlot(r))
    ensures mode != Some(0) && mode != Some(2) && mode != Some(3) && mode != Some(4) ==> forall r :: key(r) == Num(price(r))
  {
    match mode
    case Some(0) => NameKey
    case Some(1) => (r: Row) => Num(price(r))
    case Some(2) => (r: Row) => Num(pricePerSlot(r))
    case Some(3) => ChangeKey
    case Some(4) => ChangeKey
    case _ => (r: Row) => Num(price(r))
  }

  /** Whether the chosen sort mode sorts from the largest key down. */
  function ModeDescending(mode: Option<int>): (r: bool)
    ensures r <==> mode == Some(1) || mode == Some(2) || mode == Some(3)
  {
    match mode
    case Some(1) => true
    case Some(2) => true
    case Some(3) => true
    case _ => false
  }

  /** The search filter: everything passes a missing or empty key; otherwise an
      item passes when its name contains the key ignoring case. */
  predicate MatchesSearch(r: Row, search: Option<string>, fold: char -> char) {
    if search.None? || search.value == [] then true
    else r.name.Some? && ContainsIgnoreCase(r.name.value, search.value, fold)
  }

  /** The list shown: nothing until the database has answered. */
  function FleaItems(data: Option<seq<Row>>, mode: Option<int>, search: Option<string>,
                     price: Row -> int, pricePerSlot: Row -> int, fold: char -> char): (r: seq<Row>)
    ensures data.None? ==> r == []
    ensures data.Some? ==> |r| <= |data.value|
    ensures forall i :: 0 <= i < |r| ==> MatchesSearch(r[i], search, fold)
  {
    match data
    case None => []
    case Some(rows) =>
      Filter(SortBy(rows, ModeKey(mode, price, pricePerSlot), ModeDescending(mode)),
             (r: Row) => MatchesSearch(r, search, fold))
  }

  /** The list holds every item that passes the search exactly as often as the
      database does, and nothing else. */
  lemma FleaItemsContents(rows: seq<Row>, mode: Option<int>, search: Option<string>,
                          price: Row -> int, pricePerSlot: Row -> int, fold: char -> char, x: Row)
    ensures var shown := FleaItems(Some(rows), mode, search, price, pricePerSlot, fold);
            multiset(shown)[x] == if MatchesSearch(x, search, fold) then multiset(rows)[x] else 0
  {
    var sorted := SortBy(rows, ModeKey(mode, price, pricePerSlot), ModeDescending(mode));
    FilterMultiplicity(sorted, (r: Row) => MatchesSearch(r, search, fold), x);
  }

  /** The list is ordered by the mode's key: by name for mode 0, by price from the
      highest for mode 1, by price per slot from the highest for mode 2, by the 48
      hour change from the highest for mode 3 and from the lowest for mode 4, and
      by price from the lowest otherwise. Items with equal keys keep the database
      order. */
  lemma FleaItemsOrder(rows: seq<Row>, mode: Option<int>, search: Option<string>,
                       price: Row -> int, pricePerSlot: Row -> int, fold: char -> char)
    ensures var shown := FleaItems(Some(rows), mode, search, price, pricePerSlot, fold);
            && (mode == Some(0) ==> forall i, j :: 0 <= i < j < |shown| ==> KeyLe(NameKey(shown[i]), NameKey(shown[j])))
            && (mode == Some(1) ==> forall i, j :: 0 <= i < j < |shown| ==> price(shown[i]) >= price(shown[j]))
            && (mode == Some(2) ==> forall i, j :: 0 <= i < j < |shown| ==> pricePerSlot(shown[i]) >= pricePerSlot(shown[j]))
            && (mode == Some(3) ==> forall i, j :: 0 <= i < j < |shown| ==> KeyLe(ChangeKey(shown[j]), ChangeKey(shown[i])))
            && (mode == Some(4) ==> forall i, j :: 0 <= i < j < |shown| ==> KeyLe(ChangeKey(shown[i]), ChangeKey(shown[j])))
            && (mode.None? || !(0 <= mode.value <= 4) ==> forall i, j :: 0 <= i < j < |shown| ==> price(shown[i]) <= price(shown[j]))
    ensures var keep := (r: Row) => MatchesSearch(r, search, fold);
            StableFor(Filter(rows, keep), FleaItems(Some(rows), mode, search, price, pricePerSlot, fold), ModeKey(mode, price, pricePerSlot))
  {
    var key, descending := ModeKey(mode, price, pricePerSlot), ModeDescending(mode);
    var keep := (r: Row) => MatchesSearch(r, search, fold);
    var sorted := SortBy(rows, key, descending);
    SortByCorrect(rows, key, descending);
    FilterSorted(sorted, keep, key, descending);
    FilterStable(rows, sorted, keep, key);
    ModeOrder(Filter(sorted, keep), mode, price, pricePerSlot);
  }

  /** What being sorted by the mode's key means for each mode. */
  lemma ModeOrder(shown: seq<Row>, mode: Option<int>, price: Row -> int, pricePerSlot: Row -> int)
    requires Sorted(shown, ModeKey(mode, price, pricePerSlot), ModeDescending(mode))
    ensures mode == Some(0) ==> forall i, j :: 0 <= i < j < |shown| ==> KeyLe(NameKey(shown[i]), NameKey(shown[j]))
    ensures mode == Some(1) ==> forall i, j :: 0 <= i < j < |shown| ==> price(shown[i]) >= price(shown[j])
    ensures mode == Some(2) ==> forall i, j :: 0 <= i < j < |shown| ==> pricePerSlot(shown[i]) >= pricePerSlot(shown[j])
    ensures mode == Some(3) ==> forall i, j :: 0 <= i < j < |shown| ==> KeyLe(ChangeKey(shown[j]), ChangeKey(shown[i]))
    ensures mode == Some(4) ==> forall i, j :: 0 <= i < j < |shown| ==> KeyLe(ChangeKey(shown[i]), ChangeKey(shown[j]))
    ensures mode.None? || !(0 <= mode.value <= 4) ==> forall i, j :: 0 <= i < j < |shown| ==> price(shown[i]) <= price(shown[j])
  {
    if mode == Some(1) {
      forall i, j | 0 <= i < j < |shown| ensures price(shown[i]) >= price(shown[j]) {
        assert Before(Num(price(shown[i])), Num(price(shown[j])), true);
      }
    } else if mode == Some(2) {
      forall i, j | 0 <= i < j < |shown| ensures pricePerSlot(shown[i]) >= pricePerSlot(shown[j]) {
        assert Before(Num(pricePerSlot(shown[i])), Num(pricePerSlot(shown[j])), true);
      }
    } else if mode.None? || !(0 <= mode.value <= 4) {
      forall i, j | 0 <= i < j < |shown| ensures price(shown[i]) <= price(shown[j]) {
        assert Before(Num(price(shown[i])), Num(price(shown[j])), false);
      }
    }
  }

  /** Without a search key the list is the whole sorted database. */
  lemma NoSearchShowsAll(rows: seq<Row>, mode: Option<int>, search: Option<string>,
                         price: Row -> int, pricePerSlot: Row -> int, fold: char -> char)
    requires search.None? || search.value == []
    ensures FleaItems(Some(rows), mode, search, price, pricePerSlot, fold)
            == SortBy(rows, ModeKey(mode, price, pricePerSlot), ModeDescending(mode))
  {
    var sorted := SortBy(rows, ModeKey(mode, price, pricePerSlot), ModeDescending(mode));
    FilterAll(sorted, (r: Row) => MatchesSearch(r, search, fold));
  }

  /** An item whose name holds the key exactly also passes the search. */
  lemma ExactMatchPasses(r: Row, search: Option<string>, fold: char -> char)
    requires search.Some? && r.name.Some? && Contains(r.name.value, search.value)
    ensures MatchesSearch(r, search, fold)
  {
    ContainsThenContainsIgnoreCase(r.name.value, search.value, fold);
  }
}
