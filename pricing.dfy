/** Pricing of one catalog item (`Pricing.kt`): icon and price fallbacks, the
    cheapest and highest trader offers, loyalty-requirement checks, offer titles
    and the instant-profit arithmetic.

    The global user settings the Kotlin code reads (`UserSettingsModel`) are the
    parameter `settings`; the helpers it calls but that are not part of this
    model (`fromDtoR` followed by `roundToInt`, `sourceTitle`, `getTraderLevel`)
    are function parameters. */
module Pricing {

  import opened Wrappers
  import opened Ints
  import opened Lists
  import opened ItemTypes

  const UNKNOWN_ICON: string := "https://tarkov-tools.com/images/unknown-item-icon.jpg"
  const FLEA_MARKET: string := "fleaMarket"
  const LOYALTY_LEVEL: string := "loyaltyLevel"

  /** The sources that are named traders, each read from its own level setting. */
  const TRADERS: seq<string> :=
    ["prapor", "therapist", "fence", "skier", "peacekeeper", "mechanic", "ragman", "jaeger"]

  datatype Requirement = Requirement(reqType: string, value: Int32)

  /** One trader or flea-market offer (`BuySellPrice`). */
  datatype BuySellPrice = BuySellPrice(source: Option<string>, price: Option<Int32>, requirements: seq<Requirement>)

  datatype Pricing = Pricing(
    id: string,
    name: Option<string>,
    shortName: Option<string>,
    iconLink: Option<string>,
    imageLink: Option<string>,
    gridImageLink: Option<string>,
    avg24hPrice: Option<Int32>,
    basePrice: Int32,
    lastLowPrice: Option<Int32>,
    changeLast48h: Option<real>,
    low24hPrice: Option<Int32>,
    high24hPrice: Option<Int32>,
    updated: Option<string>,
    types: seq<Option<ItemType>>,
    width: Option<Int32>,
    height: Option<Int32>,
    sellFor: Option<seq<BuySellPrice>>,
    buyFor: Option<seq<BuySellPrice>>,
    wikiLink: Option<string>)

  /** The player's level and loyalty level with each trader, as the user set them. */
  datatype UserSettings = UserSettings(
    playerLevel: int,
    praporLevel: int,
    therapistLevel: int,
    fenceLevel: int,
    skierLevel: int,
    peacekeeperLevel: int,
    mechanicLevel: int,
    ragmanLevel: int,
    jaegerLevel: int)

  // ---------------------------------------------------------------- icons

  /** `getIcon`: the grid image if there is one, else the icon, else the placeholder. */
  function GetIcon(p: Pricing): (r: string)
    ensures p.gridImageLink.Some? ==> r == p.gridImageLink.value
    ensures p.gridImageLink.None? && p.iconLink.Some? ==> r == p.iconLink.value
    ensures p.gridImageLink.None? && p.iconLink.None? ==> r == UNKNOWN_ICON
  {
    p.gridImageLink.GetOr(p.iconLink.GetOr(UNKNOWN_ICON))
  }

  /** `getCleanIcon`: the icon if there is one, else the grid image, else the placeholder. */
  function GetCleanIcon(p: Pricing): (r: string)
    ensures p.iconLink.Some? ==> r == p.iconLink.value
    ensures p.iconLink.None? && p.gridImageLink.Some? ==> r == p.gridImageLink.value
    ensures p.iconLink.None? && p.gridImageLink.None? ==> r == UNKNOWN_ICON
  {
    p.iconLink.GetOr(p.gridImageLink.GetOr(UNKNOWN_ICON))
  }

  /** The two icon getters differ only in which link they prefer: they agree
      unless both links are present and different. */
  lemma IconsAgree(p: Pricing)
    ensures GetIcon(p) != GetCleanIcon(p) <==>
      (p.gridImageLink.Some? && p.iconLink.Some? && p.gridImageLink.value != p.iconLink.value)
  {
  }

  // ---------------------------------------------------------------- price

  /** `getPrice`: the 24-hour average when it is positive, otherwise the last low
      price, otherwise the base price. */
  function GetPrice(p: Pricing): (r: Int32)
    ensures p.avg24hPrice.Some? && p.avg24hPrice.value > 0 ==> r == p.avg24hPrice.value
    ensures !(p.avg24hPrice.Some? && p.avg24hPrice.value > 0) ==> r == p.lastLowPrice.GetOr(p.basePrice)
  {
    if p.avg24hPrice.GetOr(0) > 0 then p.avg24hPrice.GetOr(p.lastLowPrice.GetOr(p.basePrice))
    else p.lastLowPrice.GetOr(p.basePrice)
  }

  /** The result of `getPrice` is always one of the three recorded prices, and it
      is never a non-positive average. */
  lemma GetPriceIsRecorded(p: Pricing)
    ensures GetPrice(p) == p.basePrice || Some(GetPrice(p)) == p.avg24hPrice || Some(GetPrice(p)) == p.lastLowPrice
    ensures Some(GetPrice(p)) == p.avg24hPrice && GetPrice(p) != p.basePrice && Some(GetPrice(p)) != p.lastLowPrice
            ==> GetPrice(p) > 0
  {
  }

  // ---------------------------------------------------------------- offers

  /** `isFleaMarket` */
  predicate IsFleaMarket(o: BuySellPrice) {
    o.source == Some(FLEA_MARKET)
  }

  /** `getPriceAsRoubles`: peacekeeper prices are in dollars and are converted;
      a missing price counts as 0. */
  function GetPriceAsRoubles(o: BuySellPrice, dollarsToRoubles: Int32 -> Int32): (r: Int32)
    ensures o.price.None? ==> r == 0
    ensures o.price.Some? && o.source != Some("peacekeeper") ==> r == o.price.value
    ensures o.price.Some? && o.source == Some("peacekeeper") ==> r == dollarsToRoubles(o.price.value)
  {
    match o.price
    case None => 0
    case Some(v) => if o.source == Some("peacekeeper") then dollarsToRoubles(v) else v
  }

  /** The loyalty level the user has set for a named trader, or `None` for any
      other source. */
  function TraderLevel(settings: UserSettings, source: Option<string>): (r: Option<int>)
    ensures r.Some? <==> source.Some? && source.value in TRADERS
    ensures source == Some("prapor") ==> r == Some(settings.praporLevel)
    ensures source == Some("therapist") ==> r == Some(settings.therapistLevel)
    ensures source == Some("fence") ==> r == Some(settings.fenceLevel)
    ensures source == Some("skier") ==> r == Some(settings.skierLevel)
    ensures source == Some("peacekeeper") ==> r == Some(settings.peacekeeperLevel)
    ensures source == Some("mechanic") ==> r == Some(settings.mechanicLevel)
    ensures source == Some("ragman") ==> r == Some(settings.ragmanLevel)
    ensures source == Some("jaeger") ==> r == Some(settings.jaegerLevel)
  {
    match source
    case None => None
    case Some(s) =>
      if s == "prapor" then Some(settings.praporLevel)
      else if s == "therapist" then Some(settings.therapistLevel)
      else if s == "fence" then Some(settings.fenceLevel)
      else if s == "skier" then Some(settings.skierLevel)
      else if s == "peacekeeper" then Some(settings.peacekeeperLevel)
      else if s == "mechanic" then Some(settings.mechanicLevel)
      else if s == "ragman" then Some(settings.ragmanLevel)
      else if s == "jaeger" then Some(settings.jaegerLevel)
      else None
  }

  /** The value of the first `loyaltyLevel` requirement, 1 when there is none. */
  function RequiredLoyalty(requirements: seq<Requirement>): (r: int)
    ensures (forall i :: 0 <= i < |requirements| ==> requirements[i].reqType != LOYALTY_LEVEL) ==> r == 1
    ensures (exists i :: 0 <= i < |requirements| && requirements[i].reqType == LOYALTY_LEVEL) ==>
      exists i :: 0 <= i < |requirements| && requirements[i].reqType == LOYALTY_LEVEL && r == requirements[i].value
                  && forall j :: 0 <= j < i ==> requirements[j].reqType != LOYALTY_LEVEL
  {
    match Find(requirements, (q: Requirement) => q.reqType == LOYALTY_LEVEL)
    case Some(q) => q.value
    case None => 1
  }

  /** `isRequirementMet`. A flea-market offer needs the player's level to reach
      its first requirement (and throws when it has none); a named trader's offer
      needs the user's loyalty level with that trader to reach the offer's
      loyalty requirement; any other source is never met. */
  function IsRequirementMet(o: BuySellPrice, settings: UserSettings): (r: Result<bool>)
    ensures r.Err? <==> IsFleaMarket(o) && o.requirements == []
    ensures IsFleaMarket(o) && o.requirements != [] ==>
      r == Ok(settings.playerLevel >= o.requirements[0].value)
    ensures !IsFleaMarket(o) && o.source.Some? && o.source.value in TRADERS ==>
      r == Ok(TraderLevel(settings, o.source).value >= RequiredLoyalty(o.requirements))
    ensures !IsFleaMarket(o) && !(o.source.Some? && o.source.value in TRADERS) ==> r == Ok(false)
  {
    if IsFleaMarket(o) then
      if o.requirements == [] then Err(NoSuchElement)
      else Ok(settings.playerLevel >= o.requirements[0].value)
    else
      match TraderLevel(settings, o.source)
      case Some(level) => Ok(level >= RequiredLoyalty(o.requirements))
      case None => Ok(false)
  }

  /** A named trader's offer without a loyalty requirement is met at any level of 1 or more. */
  lemma TraderOfferWithoutLoyaltyRequirement(o: BuySellPrice, settings: UserSettings)
    requires o.source.Some? && o.source.value in TRADERS
    requires forall i :: 0 <= i < |o.requirements| ==> o.requirements[i].reqType != LOYALTY_LEVEL
    ensures IsRequirementMet(o, settings) == Ok(TraderLevel(settings, o.source).value >= 1)
  {
  }

  /** The key `getCheapestBuyRequirements` minimises, for an offer whose check does
      not throw: `Int.MAX_VALUE` when its requirement is not met, its rouble price
      when it is. */
  function CheapestKey(o: BuySellPrice, settings: UserSettings, dollarsToRoubles: Int32 -> Int32): (r: Int32)
    ensures IsRequirementMet(o, settings) == Ok(true) ==> r == GetPriceAsRoubles(o, dollarsToRoubles)
    ensures IsRequirementMet(o, settings) != Ok(true) ==> r == INT_MAX
  {
    if IsRequirementMet(o, settings) == Ok(true) then GetPriceAsRoubles(o, dollarsToRoubles) else INT_MAX
  }

  /** The offer of a flea-market price at the base price that
      `getCheapestBuyRequirements` falls back to. */
  function BasePriceOffer(p: Pricing): BuySellPrice {
    BuySellPrice(Some(FLEA_MARKET), Some(p.basePrice), [])
  }

  /** Does evaluating the key of some offer in `offers` throw? */
  predicate SomeCheckThrows(offers: seq<BuySellPrice>, settings: UserSettings) {
    exists i :: 0 <= i < |offers| && IsRequirementMet(offers[i], settings).Err?
  }

  /** `getCheapestBuyRequirements`. With no offers it is the base-price fallback
      offer. Otherwise `minByOrNull` picks the first offer of smallest key; it
      computes no key when there is a single offer, so only a list of two or more
      offers can throw. */
  function GetCheapestBuyRequirements(p: Pricing, settings: UserSettings, dollarsToRoubles: Int32 -> Int32)
    : (r: Result<BuySellPrice>)
    ensures (p.buyFor.None? || p.buyFor.value == []) ==> r == Ok(BasePriceOffer(p))
    ensures p.buyFor.Some? && |p.buyFor.value| == 1 ==> r == Ok(p.buyFor.value[0])
    ensures p.buyFor.Some? && |p.buyFor.value| >= 2 ==>
      (r.Err? <==> SomeCheckThrows(p.buyFor.value, settings))
    ensures p.buyFor.Some? && |p.buyFor.value| >= 2 && r.Ok? ==>
      var offers := p.buyFor.value;
      exists i :: 0 <= i < |offers| && r.value == offers[i]
        && (forall j :: 0 <= j < |offers| ==>
              CheapestKey(offers[i], settings, dollarsToRoubles) <= CheapestKey(offers[j], settings, dollarsToRoubles))
        && (forall j :: 0 <= j < i ==>
              CheapestKey(offers[j], settings, dollarsToRoubles) > CheapestKey(offers[i], settings, dollarsToRoubles))
  {
    match p.buyFor
    case None => Ok(BasePriceOffer(p))
    case Some(offers) =>
      if offers == [] then Ok(BasePriceOffer(p))
      else if |offers| == 1 then Ok(offers[0])
      else if SomeCheckThrows(offers, settings) then Err(NoSuchElement)
      else Ok(offers[FirstMinIndex(offers, (o: BuySellPrice) => CheapestKey(o, settings, dollarsToRoubles))])
  }

  /** An offer whose requirement is met always beats one whose requirement is not,
      unless its rouble price is `Int.MAX_VALUE` itself. */
  lemma CheapestPrefersMetOffers(p: Pricing, settings: UserSettings, dollarsToRoubles: Int32 -> Int32, k: nat)
    requires p.buyFor.Some? && |p.buyFor.value| >= 2 && k < |p.buyFor.value|
    requires IsRequirementMet(p.buyFor.value[k], settings) == Ok(true)
    requires GetPriceAsRoubles(p.buyFor.value[k], dollarsToRoubles) < INT_MAX
    requires GetCheapestBuyRequirements(p, settings, dollarsToRoubles).Ok?
    ensures IsRequirementMet(GetCheapestBuyRequirements(p, settings, dollarsToRoubles).value, settings) == Ok(true)
  {
    var offers := p.buyFor.value;
    var r := GetCheapestBuyRequirements(p, settings, dollarsToRoubles).value;
    var i :| 0 <= i < |offers| && r == offers[i]
        && (forall j :: 0 <= j < |offers| ==>
              CheapestKey(offers[i], settings, dollarsToRoubles) <= CheapestKey(offers[j], settings, dollarsToRoubles));
    assert CheapestKey(offers[i], settings, dollarsToRoubles) <= CheapestKey(offers[k], settings, dollarsToRoubles);
  }

  /** The price `getCheapestBuy` ranks by: a missing price is `Int.MAX_VALUE`. */
  function PriceOrMax(o: BuySellPrice): (r: Int32)
    ensures o.price.Some? ==> r == o.price.value
    ensures o.price.None? ==> r == INT_MAX
  {
    o.price.GetOr(INT_MAX)
  }

  /** `getCheapestBuy`: the first offer of lowest price; the `!!` throws when
      there are no offers. */
  function GetCheapestBuy(p: Pricing): (r: Result<BuySellPrice>)
    ensures r.Err? <==> p.buyFor.None? || p.buyFor.value == []
    ensures r.Ok? ==> exists i :: 0 <= i < |p.buyFor.value| && p.buyFor.value[i] == r.value
                                  && forall j :: 0 <= j < i ==> PriceOrMax(p.buyFor.value[j]) > PriceOrMax(r.value)
    ensures r.Ok? ==> forall j :: 0 <= j < |p.buyFor.value| ==> PriceOrMax(r.value) <= PriceOrMax(p.buyFor.value[j])
  {
    match MinByOrNull(p.buyFor.GetOr([]), (o: BuySellPrice) => PriceOrMax(o) as int)
    case Some(o) => Ok(o)
    case None => Err(NullPointer)
  }

  /** The price `getHighestSell` and `getHighestSellTrader` rank by: a missing
      price is `Int.MIN_VALUE`. */
  function PriceOrMin(o: BuySellPrice): (r: Int32)
    ensures o.price.Some? ==> r == o.price.value
    ensures o.price.None? ==> r == INT_MIN
  {
    o.price.GetOr(INT_MIN)
  }

  /** `getHighestSell`: the first offer of highest price, `null` when there are none. */
  function GetHighestSell(p: Pricing): (r: Option<BuySellPrice>)
    ensures r.None? <==> p.sellFor.None? || p.sellFor.value == []
    ensures r.Some? ==> exists i :: 0 <= i < |p.sellFor.value| && p.sellFor.value[i] == r.value
                                    && forall j :: 0 <= j < i ==> PriceOrMin(p.sellFor.value[j]) < PriceOrMin(r.value)
    ensures r.Some? ==> forall j :: 0 <= j < |p.sellFor.value| ==> PriceOrMin(p.sellFor.value[j]) <= PriceOrMin(r.value)
  {
    match p.sellFor
    case None => None
    case Some(offers) => MaxByOrNull(offers, (o: BuySellPrice) => PriceOrMin(o) as int)
  }

  /** The sell offers that are not on the flea market, in order: every such
      offer as often as it is in `offers`, and no flea-market offer. */
  function TraderOffers(offers: seq<BuySellPrice>): (r: seq<BuySellPrice>)
    ensures forall i :: 0 <= i < |r| ==> !IsFleaMarket(r[i])
    ensures forall o :: o in r <==> o in offers && !IsFleaMarket(o)
  {
    var keep := (o: BuySellPrice) => !IsFleaMarket(o);
    assert forall o :: o in Filter(offers, keep) <==> o in offers && !IsFleaMarket(o) by {
      forall o ensures o in Filter(offers, keep) <==> o in offers && !IsFleaMarket(o) {
        FilterIn(offers, keep, o);
      }
    }
    Filter(offers, keep)
  }

  /** `filterNot` keeps every non-flea offer as often as `offers` holds it. */
  lemma TraderOffersMultiplicity(offers: seq<BuySellPrice>, o: BuySellPrice)
    ensures multiset(TraderOffers(offers))[o] == if IsFleaMarket(o) then 0 else multiset(offers)[o]
  {
    FilterMultiplicity(offers, (x: BuySellPrice) => !IsFleaMarket(x), o);
  }

  /** `getHighestSellTrader`: like `getHighestSell`, over the offers that are not
      the flea market's. */
  function GetHighestSellTrader(p: Pricing): (r: Option<BuySellPrice>)
    ensures r.Some? ==> !IsFleaMarket(r.value)
    ensures r.None? <==> p.sellFor.None? || TraderOffers(p.sellFor.value) == []
    ensures r.Some? ==> var t := TraderOffers(p.sellFor.value);
                        exists i :: 0 <= i < |t| && t[i] == r.value && forall j :: 0 <= j < i ==> PriceOrMin(t[j]) < PriceOrMin(r.value)
    ensures r.Some? ==> forall j :: 0 <= j < |TraderOffers(p.sellFor.value)| ==>
                          PriceOrMin(TraderOffers(p.sellFor.value)[j]) <= PriceOrMin(r.value)
  {
    match p.sellFor
    case None => None
    case Some(offers) =>
      MaxByOrNull(TraderOffers(offers), (o: BuySellPrice) => PriceOrMin(o) as int)
  }

  /** The trader offer found by `getHighestSellTrader` is one of the item's sell
      offers; when `getHighestSell` picks a trader offer, both rank at the same price. */
  lemma HighestSellTraderFromSellFor(p: Pricing)
    requires GetHighestSellTrader(p).Some?
    ensures exists i :: 0 <= i < |p.sellFor.value| && p.sellFor.value[i] == GetHighestSellTrader(p).value
    ensures !IsFleaMarket(GetHighestSell(p).value) ==>
      PriceOrMin(GetHighestSell(p).value) == PriceOrMin(GetHighestSellTrader(p).value)
  {
    var offers := p.sellFor.value;
    var trader := GetHighestSellTrader(p).value;
    assert trader in TraderOffers(offers);
    assert trader in offers;
    var best := GetHighestSell(p).value;
    if !IsFleaMarket(best) {
      assert best in offers;
      assert best in TraderOffers(offers);
      var k :| 0 <= k < |TraderOffers(offers)| && TraderOffers(offers)[k] == best;
      var m :| 0 <= m < |offers| && offers[m] == trader;
    }
  }

  /** `getFleaMarketBuy`: the first flea-market buy offer. */
  function GetFleaMarketBuy(p: Pricing): (r: Option<BuySellPrice>)
    ensures r.Some? ==> IsFleaMarket(r.value)
    ensures r.None? <==> p.buyFor.None? || forall i :: 0 <= i < |p.buyFor.value| ==> !IsFleaMarket(p.buyFor.value[i])
    ensures r.Some? ==> exists i :: 0 <= i < |p.buyFor.value| && p.buyFor.value[i] == r.value
                                    && forall j :: 0 <= j < i ==> !IsFleaMarket(p.buyFor.value[j])
  {
    match p.buyFor
    case None => None
    case Some(offers) => Find(offers, IsFleaMarket)
  }

  /** The price `getHighestTraderSell` ranks by: a missing price is 0. */
  function PriceOrZero(o: BuySellPrice): (r: Int32)
    ensures o.price.Some? ==> r == o.price.value
    ensures o.price.None? ==> r == 0
  {
    o.price.GetOr(0)
  }

  /** `getHighestTraderSell`: the first non-flea sell offer of highest price, a
      missing price ranking as 0. */
  function GetHighestTraderSell(p: Pricing): (r: Option<BuySellPrice>)
    ensures r.Some? ==> !IsFleaMarket(r.value)
    ensures r.None? <==> p.sellFor.None? || TraderOffers(p.sellFor.value) == []
    ensures r.Some? ==> var t := TraderOffers(p.sellFor.value);
                        exists i :: 0 <= i < |t| && t[i] == r.value && forall j :: 0 <= j < i ==> PriceOrZero(t[j]) < PriceOrZero(r.value)
    ensures r.Some? ==> forall j :: 0 <= j < |TraderOffers(p.sellFor.value)| ==>
                          PriceOrZero(TraderOffers(p.sellFor.value)[j]) <= PriceOrZero(r.value)
  {
    match p.sellFor
    case None => None
    case Some(offers) =>
      MaxByOrNull(TraderOffers(offers), (o: BuySellPrice) => PriceOrZero(o) as int)
  }

  /** What `getInstaProfit` pays on the flea market: the flea buy offer's price,
      else the last low price, else 0. */
  function FleaCost(p: Pricing): (r: Int32)
    ensures GetFleaMarketBuy(p).Some? && GetFleaMarketBuy(p).value.price.Some? ==> r == GetFleaMarketBuy(p).value.price.value
    ensures !(GetFleaMarketBuy(p).Some? && GetFleaMarketBuy(p).value.price.Some?) ==> r == p.lastLowPrice.GetOr(0)
  {
    match GetFleaMarketBuy(p)
    case Some(o) => o.price.GetOr(p.lastLowPrice.GetOr(0))
    case None => p.lastLowPrice.GetOr(0)
  }

  /** `getInstaProfit`: the best trader sell price minus the flea cost, in Kotlin
      `Int` arithmetic; `null` when there is no trader sell offer or the chosen
      one has no price. */
  function GetInstaProfit(p: Pricing): (r: Option<Int32>)
    ensures r.None? <==> GetHighestTraderSell(p).None? || GetHighestTraderSell(p).value.price.None?
    ensures r.Some? ==> r.value == Sub32(GetHighestTraderSell(p).value.price.value, FleaCost(p))
  {
    match GetHighestTraderSell(p)
    case None => None
    case Some(o) =>
      match o.price
      case None => None
      case Some(sell) => Some(Sub32(sell, FleaCost(p)))
  }

  /** Without overflow, the instant profit is the best non-flea sell price minus
      the flea cost: the price of a trader offer that every other trader offer's
      price (missing = 0) does not exceed. */
  lemma InstaProfitIsBestTraderSellMinusCost(p: Pricing)
    requires GetInstaProfit(p).Some?
    requires INT_MIN <= GetHighestTraderSell(p).value.price.value - FleaCost(p) <= INT_MAX
    ensures exists sell: Int32 ::
      && GetInstaProfit(p).value == sell - FleaCost(p)
      && (exists i :: 0 <= i < |p.sellFor.value| && !IsFleaMarket(p.sellFor.value[i]) && p.sellFor.value[i].price == Some(sell))
      && (forall j :: 0 <= j < |p.sellFor.value| && !IsFleaMarket(p.sellFor.value[j]) ==>
             PriceOrZero(p.sellFor.value[j]) <= sell)
  {
    var offers := p.sellFor.value;
    var t := TraderOffers(offers);
    var best := GetHighestTraderSell(p).value;
    var sell := best.price.value;
    var m :| 0 <= m < |t| && t[m] == best;
    assert best in offers;
    forall j | 0 <= j < |offers| && !IsFleaMarket(offers[j]) ensures PriceOrZero(offers[j]) <= sell {
      assert offers[j] in t;
      var k :| 0 <= k < |t| && t[k] == offers[j];
    }
  }

  /** `BuySellPrice.getTitle`: "Flea Market" for the flea market; the source's
      title followed by its trader level when the first requirement is a loyalty
      level (a null source prints as "null"); the source title alone, or "", otherwise. */
  function GetTitle(o: BuySellPrice, sourceTitle: string -> string, traderLevelText: int -> string): (r: string)
    ensures IsFleaMarket(o) ==> r == "Flea Market"
    ensures !IsFleaMarket(o) && o.requirements != [] && o.requirements[0].reqType == LOYALTY_LEVEL ==>
      r == (if o.source.Some? then sourceTitle(o.source.value) else "null") + " " + traderLevelText(o.requirements[0].value)
    ensures !IsFleaMarket(o) && !(o.requirements != [] && o.requirements[0].reqType == LOYALTY_LEVEL) ==>
      r == (if o.source.Some? then sourceTitle(o.source.value) else "")
  {
    if IsFleaMarket(o) then "Flea Market"
    else if o.requirements != [] && o.requirements[0].reqType == LOYALTY_LEVEL then
      (match o.source case Some(s) => sourceTitle(s) case None => "null") + " " + traderLevelText(o.requirements[0].value)
    else
      match o.source case Some(s) => sourceTitle(s) case None => ""
  }
}
