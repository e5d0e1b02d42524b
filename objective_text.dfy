/** `getObjectiveText` of the in-raid quest screen (`QuestInRaidViewModel.kt`):
    the one-line text shown for a quest objective. The map table, the item
    database and the trader table are parameters, and so is Kotlin's
    `String.toInt()` (`None` where it throws). */
module ObjectiveText {

  import opened Wrappers
  import opened Ints
  import opened Lists
  import opened Text
  import opened Traders
  import Pricing

  /** A quest objective; `kind` is its `type`. */
  datatype QuestObjective = QuestObjective(
    kind: Option<string>,
    target: Option<seq<string>>,
    targetItem: Option<Pricing.Pricing>,
    number: Option<Int32>,
    location: Option<string>)

  const ANY_MAP: string := "Any Map"
  const MARKER_TEXT: string := "Place MS2000 marker"

  /** The kinds whose text is the item name alone. */
  const NAME_KINDS: set<string> := {"pickup", "place", "locate", "warning", "build"}
  /** The kinds whose text is the number, a space and the item name. */
  const COUNTED_KINDS: set<string> := {"kill", "collect", "find"}

  /** The location text: the name of the objective's map, or "Any Map" when the
      map table has none. A location that is not a number throws. */
  function Location(o: QuestObjective, toInt: string -> Option<Int32>, mapName: Option<Int32> -> Option<string>): (r: Result<string>)
    ensures r.Err? <==> o.location.Some? && toInt(o.location.value).None?
    ensures r.Err? ==> r.error == NumberFormat
    ensures r.Ok? ==>
      var code := if o.location.Some? then Some(toInt(o.location.value).value) else None;
      && (mapName(code).None? ==> r.value == ANY_MAP)
      && (mapName(code).Some? ==> r.value == mapName(code).value)
  {
    match o.location
    case None => Ok(mapName(None).GetOr(ANY_MAP))
    case Some(text) =>
      match toInt(text)
      case None => Err(NumberFormat)
      case Some(code) => Ok(mapName(Some(code)).GetOr(ANY_MAP))
  }

  /** Whether the item is looked up by the first target id rather than taken
      from `targetItem`. */
  predicate LooksUpItem(o: QuestObjective) {
    o.kind == Some("key") || o.targetItem.None?
  }

  /** The item name: for a key objective or one without a target item, the name
      of the item the first target id finds in the database, falling back to the
      id itself; otherwise the target item's name. An empty target list, and a
      missing target list when the database finds nothing, throw. */
  function ItemName(o: QuestObjective, itemPricing: string -> Option<Pricing.Pricing>): (r: Result<string>)
    ensures !LooksUpItem(o) ==> r == Ok(OptToString(o.targetItem.value.name))
    ensures LooksUpItem(o) && o.target.Some? && |o.target.value| == 0 ==> r == Err(IndexOutOfBounds)
    ensures LooksUpItem(o) && o.target.Some? && |o.target.value| > 0 ==>
      var id := o.target.value[0];
      && (itemPricing(id).Some? ==> r == Ok(OptToString(itemPricing(id).value.name)))
      && (itemPricing(id).None? ==> r == Ok(id))
    ensures LooksUpItem(o) && o.target.None? ==>
      r == (if itemPricing("").Some? then Ok(OptToString(itemPricing("").value.name)) else Err(NullPointer))
  {
    if LooksUpItem(o) then
      match o.target
      case Some(ids) =>
        if |ids| == 0 then Err(IndexOutOfBounds)
        else
          (match itemPricing(ids[0])
           case Some(p) => Ok(OptToString(p.name))
           case None => Ok(ids[0]))
      case None =>
        match itemPricing("")
        case Some(p) => Ok(OptToString(p.name))
        case None => Err(NullPointer)
    else
      Ok(OptToString(o.targetItem.value.name))
  }

  /** The number a reputation objective names: its first target id read as a
      number, 0 when it has no targets. */
  function TargetCode(o: QuestObjective, toInt: string -> Option<Int32>): (r: Result<Int32>)
    ensures o.target.None? ==> r == Ok(0)
    ensures o.target.Some? && |o.target.value| == 0 ==> r == Err(NoSuchElement)
    ensures o.target.Some? && |o.target.value| > 0 ==>
              r == (if toInt(o.target.value[0]).Some? then Ok(toInt(o.target.value[0]).value) else Err(NumberFormat))
  {
    match o.target
    case None => Ok(0)
    case Some(ids) =>
      if |ids| == 0 then Err(NoSuchElement)
      else
        match toInt(ids[0])
        case None => Err(NumberFormat)
        case Some(n) => Ok(n)
  }

  /** The trader of a reputation objective: the first trader whose number is the
      target code, printed as its id or as "null" when there is none. */
  function ReputationTrader(o: QuestObjective, traders: seq<Trader>, toInt: string -> Option<Int32>): (r: Result<string>)
    ensures o.target.Some? && |o.target.value| == 0 ==> r == Err(NoSuchElement)
    ensures o.target.Some? && |o.target.value| > 0 && toInt(o.target.value[0]).None? ==> r == Err(NumberFormat)
    ensures TargetCode(o, toInt).Ok? ==> r.Ok?
    ensures TargetCode(o, toInt).Ok? && (forall i :: 0 <= i < |traders| ==> traders[i].number != TargetCode(o, toInt).value) ==>
              r == Ok("null")
    ensures TargetCode(o, toInt).Ok? && (exists i :: 0 <= i < |traders| && traders[i].number == TargetCode(o, toInt).value) ==>
              exists i :: 0 <= i < |traders| && traders[i].number == TargetCode(o, toInt).value && r == Ok(traders[i].id)
                && forall j :: 0 <= j < i ==> traders[j].number != TargetCode(o, toInt).value
  {
    match TargetCode(o, toInt)
    case Err(e) => Err(e)
    case Ok(n) =>
      match Find(traders, (t: Trader) => t.number == n)
      case Some(t) => Ok(t.id)
      case None => Ok("null")
  }

  /** `getObjectiveText`. The location and the item name are worked out first,
      whatever the kind, so their exceptions escape for every kind. */
  function GetObjectiveText(o: QuestObjective, toInt: string -> Option<Int32>, mapName: Option<Int32> -> Option<string>,
                            itemPricing: string -> Option<Pricing.Pricing>, traders: seq<Trader>): (r: Result<string>)
    ensures r.Err? <==> Location(o, toInt, mapName).Err? || ItemName(o, itemPricing).Err?
                        || (o.kind == Some("reputation") && ReputationTrader(o, traders, toInt).Err?)
  {
    match Location(o, toInt, mapName)
    case Err(e) => Err(e)
    case Ok(location) =>
      match ItemName(o, itemPricing)
      case Err(e) => Err(e)
      case Ok(name) =>
        var number := OptIntToString(o.number);
        match o.kind
        case None => Ok("")
        case Some(kind) =>
          if kind == "key" then Ok(name + " needed")
          else if kind in NAME_KINDS then Ok(name)
          else if kind in COUNTED_KINDS then Ok(number + " " + name)
          else if kind == "mark" then Ok(MARKER_TEXT)
          else if kind == "reputation" then
            match ReputationTrader(o, traders, toInt)
            case Err(e) => Err(e)
            case Ok(trader) => Ok("Loyalty level " + number + " with " + trader)
          else if kind == "skill" then Ok("Skill level " + number + " with " + name)
          else if kind == "survive" then Ok(location + " " + number + " times.")
          else Ok("")
  }

  /** An exception while working out the location or the item name ends the
      call, whatever the objective's kind. */
  lemma ErrorsComeFirst(o: QuestObjective, toInt: string -> Option<Int32>, mapName: Option<Int32> -> Option<string>,
                        itemPricing: string -> Option<Pricing.Pricing>, traders: seq<Trader>)
    ensures Location(o, toInt, mapName).Err? ==> GetObjectiveText(o, toInt, mapName, itemPricing, traders) == Err(NumberFormat)
    ensures Location(o, toInt, mapName).Ok? && ItemName(o, itemPricing).Err? ==>
      GetObjectiveText(o, toInt, mapName, itemPricing, traders) == Err(ItemName(o, itemPricing).error)
  {
  }

  /** The texts of the kinds that need only the item name, the number and the
      location, once those are known. */
  lemma KindTexts(o: QuestObjective, toInt: string -> Option<Int32>, mapName: Option<Int32> -> Option<string>,
                  itemPricing: string -> Option<Pricing.Pricing>, traders: seq<Trader>)
    requires Location(o, toInt, mapName).Ok? && ItemName(o, itemPricing).Ok?
    ensures var text := GetObjectiveText(o, toInt, mapName, itemPricing, traders);
            var name := ItemName(o, itemPricing).value;
            var location := Location(o, toInt, mapName).value;
            var number := OptIntToString(o.number);
            && (o.kind == Some("key") ==> text == Ok(name + " needed"))
            && (o.kind.Some? && o.kind.value in NAME_KINDS ==> text == Ok(name))
            && (o.kind.Some? && o.kind.value in COUNTED_KINDS ==> text == Ok(number + " " + name))
            && (o.kind == Some("mark") ==> text == Ok("Place MS2000 marker"))
            && (o.kind == Some("skill") ==> text == Ok("Skill level " + number + " with " + name))
            && (o.kind == Some("survive") ==> text == Ok(location + " " + number + " times."))
  {
    assert "key" !in NAME_KINDS && "key" !in COUNTED_KINDS;
    assert "mark" !in NAME_KINDS && "mark" !in COUNTED_KINDS;
    assert "skill" !in NAME_KINDS && "skill" !in COUNTED_KINDS;
    assert "survive" !in NAME_KINDS && "survive" !in COUNTED_KINDS;
  }

  /** A reputation objective names the loyalty level and the trader. */
  lemma ReputationText(o: QuestObjective, toInt: string -> Option<Int32>, mapName: Option<Int32> -> Option<string>,
                       itemPricing: string -> Option<Pricing.Pricing>, traders: seq<Trader>)
    requires o.kind == Some("reputation")
    requires Location(o, toInt, mapName).Ok? && ItemName(o, itemPricing).Ok?
    ensures var text := GetObjectiveText(o, toInt, mapName, itemPricing, traders);
            var trader := ReputationTrader(o, traders, toInt);
            && (trader.Ok? ==> text == Ok("Loyalty level " + OptIntToString(o.number) + " with " + trader.value))
            && (trader.Err? ==> text == Err(trader.error))
  {
    assert "reputation" !in NAME_KINDS && "reputation" !in COUNTED_KINDS;
  }

  /** Every other kind, and a missing kind, gives the empty text. */
  lemma UnknownKindIsEmpty(o: QuestObjective, toInt: string -> Option<Int32>, mapName: Option<Int32> -> Option<string>,
                           itemPricing: string -> Option<Pricing.Pricing>, traders: seq<Trader>)
    requires Location(o, toInt, mapName).Ok? && ItemName(o, itemPricing).Ok?
    requires o.kind.None? || o.kind.value !in NAME_KINDS + COUNTED_KINDS + {"key", "mark", "reputation", "skill", "survive"}
    ensures GetObjectiveText(o, toInt, mapName, itemPricing, traders) == Ok("")
  {
  }
}
