/** The picker screen (`PickerActivity.kt`): loads a list by the requested type,
    narrows it with the search key and sorts it by short name. The repository
    queries, the characters list and `cArmorClass` are parameters. */
module Picker {

  import opened Wrappers
  import opened Lists
  import opened Sorting
  import opened Text
  import opened ItemTypes

  /** An element of the picker's list, by its runtime class. */
  datatype Entry =
    | AmmoEntry(ammoId: string, shortName: Option<string>, name: Option<string>)
    | ItemEntry(itemId: string, itemShortName: Option<string>, itemName: Option<string>, armorClass: Option<string>)
    | CharacterEntry(characterName: string)
    | OtherEntry(other: string)

  /** What the loading effect leaves: a list, a finished activity for an unknown
      type, or no list at all when no type was passed. */
  datatype Loaded = Shown(list: seq<Entry>) | Finished | NoList

  const ARMOR_TYPES: seq<ItemType> := [ARMOR, RIG]
  const HELMET_TYPES: seq<ItemType> := [HELMET]
  const ALL_ARMOR_TYPES: seq<ItemType> := [ARMOR, RIG, HELMET]

  /** The gear of the given types that has some armour. */
  function Armored(byTypes: seq<ItemType> -> seq<Entry>, types: seq<ItemType>, armorClassOf: Entry -> int): (r: seq<Entry>)
    ensures |r| <= |byTypes(types)|
    ensures forall i :: 0 <= i < |r| ==> armorClassOf(r[i]) > 0
  {
    Filter(byTypes(types), (e: Entry) => armorClassOf(e) > 0)
  }

  /** The loading effect, on the first list each query emits. */
  function Load(kind: Option<string>, allAmmo: seq<Entry>, byTypes: seq<ItemType> -> seq<Entry>,
                characters: seq<Entry>, armorClassOf: Entry -> int): (r: Loaded)
    ensures r == NoList <==> kind.None?
    ensures r == Finished <==> kind.Some? && kind.value !in {"ammo", "armor", "helmet", "character", "armorAll"}
    ensures kind == Some("ammo") ==> r == Shown(allAmmo)
    ensures kind == Some("character") ==> r == Shown(characters)
  {
    match kind
    case None => NoList
    case Some(k) =>
      if k == "ammo" then Shown(allAmmo)
      else if k == "armor" then Shown(Armored(byTypes, ARMOR_TYPES, armorClassOf))
      else if k == "helmet" then Shown(Armored(byTypes, HELMET_TYPES, armorClassOf))
      else if k == "character" then Shown(characters)
      else if k == "armorAll" then Shown(Armored(byTypes, ALL_ARMOR_TYPES, armorClassOf))
      else Finished
  }

  /** `s?.contains(key, ignoreCase = true) == true` */
  predicate FieldMatches(field: Option<string>, key: string, fold: char -> char) {
    field.Some? && ContainsIgnoreCase(field.value, key, fold)
  }

  /** The search filter of the list. */
  predicate Matches(e: Entry, key: string, fold: char -> char) {
    match e
    case AmmoEntry(_, shortName, name) => FieldMatches(shortName, key, fold) || FieldMatches(name, key, fold)
    case ItemEntry(_, shortName, name, armorClass) =>
      FieldMatches(shortName, key, fold) || FieldMatches(name, key, fold) || FieldMatches(armorClass, key, fold)
    case CharacterEntry(name) => ContainsIgnoreCase(name, key, fold)
    case OtherEntry(_) => false
  }

  /** The sort key: the short name of ammo and gear, null for everything else. */
  function ShortNameKey(e: Entry): Key {
    var shortName :=
      match e
      case AmmoEntry(_, s, _) => s
      case ItemEntry(_, s, _, _) => s
      case _ => None;
    match shortName
    case None => Null
    case Some(s) => Str(s)
  }

  /** The entries shown for the current search key. */
  function Visible(list: Option<seq<Entry>>, key: string, fold: char -> char): (r: seq<Entry>)
    ensures list.None? ==> r == []
    ensures list.Some? ==> |r| <= |list.value|
    ensures forall i :: 0 <= i < |r| ==> Matches(r[i], key, fold)
  {
    match list
    case None => []
    case Some(entries) =>
      var found := Filter(entries, (e: Entry) => Matches(e, key, fold));
      var shown := SortBy(found, ShortNameKey, false);
      assert |shown| == |found| by {
        assert |multiset(shown)| == |multiset(found)|;
      }
      assert forall i :: 0 <= i < |shown| ==> Matches(shown[i], key, fold) by {
        forall i | 0 <= i < |shown| ensures Matches(shown[i], key, fold) {
          assert shown[i] in multiset(found);
          var k :| 0 <= k < |found| && found[k] == shown[i];
        }
      }
      shown
  }

  /** The three armour lists hold exactly the gear of their types with an armour
      class above zero. */
  lemma ArmorListsHaveArmor(kind: Option<string>, allAmmo: seq<Entry>, byTypes: seq<ItemType> -> seq<Entry>,
                            characters: seq<Entry>, armorClassOf: Entry -> int, e: Entry)
    requires kind == Some("armor") || kind == Some("helmet") || kind == Some("armorAll")
    ensures Load(kind, allAmmo, byTypes, characters, armorClassOf).Shown?
    ensures var types := if kind == Some("armor") then ARMOR_TYPES
                         else if kind == Some("helmet") then HELMET_TYPES
                         else ALL_ARMOR_TYPES;
            && (e in Load(kind, allAmmo, byTypes, characters, armorClassOf).list
                <==> e in byTypes(types) && armorClassOf(e) > 0)
            && multiset(Load(kind, allAmmo, byTypes, characters, armorClassOf).list)[e]
               == if armorClassOf(e) > 0 then multiset(byTypes(types))[e] else 0
  {
    var types := if kind == Some("armor") then ARMOR_TYPES
                 else if kind == Some("helmet") then HELMET_TYPES
                 else ALL_ARMOR_TYPES;
    FilterIn(byTypes(types), (x: Entry) => armorClassOf(x) > 0, e);
    FilterMultiplicity(byTypes(types), (x: Entry) => armorClassOf(x) > 0, e);
  }

  /** Which entries the search keeps: ammo by short name or name, gear by short
      name, name or armour class, characters by name, anything else never. */
  lemma SearchByKind(e: Entry, key: string, fold: char -> char)
    ensures e.AmmoEntry? ==> (Matches(e, key, fold) <==>
      (e.shortName.Some? && ContainsIgnoreCase(e.shortName.value, key, fold)) || (e.name.Some? && ContainsIgnoreCase(e.name.value, key, fold)))
    ensures e.ItemEntry? ==> (Matches(e, key, fold) <==>
      (e.itemShortName.Some? && ContainsIgnoreCase(e.itemShortName.value, key, fold))
      || (e.itemName.Some? && ContainsIgnoreCase(e.itemName.value, key, fold))
      || (e.armorClass.Some? && ContainsIgnoreCase(e.armorClass.value, key, fold)))
    ensures e.CharacterEntry? ==> (Matches(e, key, fold) <==> ContainsIgnoreCase(e.characterName, key, fold))
    ensures e.OtherEntry? ==> !Matches(e, key, fold)
  {
  }

  /** With an empty key every character passes, and so does every ammo or gear
      entry with some text field; an entry whose fields are all null does not. */
  lemma EmptyKeyDropsOnlyBlankEntries(e: Entry, fold: char -> char)
    ensures e.CharacterEntry? ==> Matches(e, "", fold)
    ensures e.AmmoEntry? ==> (Matches(e, "", fold) <==> e.shortName.Some? || e.name.Some?)
    ensures e.ItemEntry? ==> (Matches(e, "", fold) <==> e.itemShortName.Some? || e.itemName.Some? || e.armorClass.Some?)
  {
    assert Fold("", fold) == "";
    match e
    case AmmoEntry(_, s, n) =>
      if s.Some? { ContainsEmpty(Fold(s.value, fold)); }
      if n.Some? { ContainsEmpty(Fold(n.value, fold)); }
    case ItemEntry(_, s, n, c) =>
      if s.Some? { ContainsEmpty(Fold(s.value, fold)); }
      if n.Some? { ContainsEmpty(Fold(n.value, fold)); }
      if c.Some? { ContainsEmpty(Fold(c.value, fold)); }
    case CharacterEntry(n) => ContainsEmpty(Fold(n, fold));
    case OtherEntry(_) =>
  }

  /** What is shown: every entry that passes the search, as often as it is in the
      list, sorted by short name with the entries without one (characters among
      them) first; entries with the same key keep their order in the list. */
  lemma VisibleIsSortedSearch(entries: seq<Entry>, key: string, fold: char -> char, x: Entry)
    ensures var shown := Visible(Some(entries), key, fold);
            multiset(shown)[x] == if Matches(x, key, fold) then multiset(entries)[x] else 0
    ensures var shown := Visible(Some(entries), key, fold);
            forall i, j :: 0 <= i < j < |shown| ==> KeyLe(ShortNameKey(shown[i]), ShortNameKey(shown[j]))
    ensures var shown := Visible(Some(entries), key, fold);
            forall i, j :: 0 <= i < |shown| && 0 <= j < |shown| && ShortNameKey(shown[i]) == Null && ShortNameKey(shown[j]) != Null ==> i < j
    ensures StableFor(Filter(entries, (e: Entry) => Matches(e, key, fold)), Visible(Some(entries), key, fold), ShortNameKey)
  {
    var keep := (e: Entry) => Matches(e, key, fold);
    var found := Filter(entries, keep);
    var shown := SortBy(found, ShortNameKey, false);
    SortByCorrect(found, ShortNameKey, false);
    NullsFirst(shown, ShortNameKey);
    FilterMultiplicity(entries, keep, x);
    assert multiset(shown)[x] == multiset(found)[x];
  }

  /** The characters keep the order they have in the list, since they all have the
      same (null) key as every other entry without a short name. */
  lemma CharactersKeepOrder(entries: seq<Entry>, key: string, fold: char -> char)
    ensures WithKey(Visible(Some(entries), key, fold), ShortNameKey, Null)
            == WithKey(Filter(entries, (e: Entry) => Matches(e, key, fold)), ShortNameKey, Null)
  {
    var found := Filter(entries, (e: Entry) => Matches(e, key, fold));
    SortByCorrect(found, ShortNameKey, false);
  }
}
