# The Hideout: a verified model of its core logic

The Hideout is an Android companion app for the game Escape from Tarkov. This
project is a Dafny model of the parts of the app that make decisions. Each
part below is modelled and has properties proved about it:

- **Item pricing** (`Pricing.kt`): icon and price fallbacks, the loyalty check
  on an offer, the cheapest and highest offers, the offer titles, and the
  instant-profit sum in Kotlin `Int` arithmetic.
- **Catalog load** (`AppDatabase.kt`): on first launch, one pass over the
  bundled catalog sorts each entry into the item, ammo, weapon and mod lists,
  which are then bulk-inserted.
- **Items DAO** (`ItemDao.kt`): the items, ammo and weapons tables, modelled as
  maps from id to row. It covers the priced-items query ordered by name, the
  replacing inserts and the pricing updates.
- **Preferences** (`Prefs.kt`): the favourite item ids, the opening page and its
  tag, with their defaults and the rewrite of an old caliber placeholder.
- **Push messages** (`MessagingService.kt`): how a push message becomes server
  status, status message and trader restock notifications. This depends on the
  user's settings and on whether the app is in the foreground. A notification
  posted under an existing id replaces the one shown there.
- **Quest list** (`QuestMainScreen.kt`): the tab and status filters (available,
  locked, completed, all) and the search over a trader's or a map's quests.
- **Objective text** (`QuestInRaidViewModel.kt`): the one-line text for each
  kind of quest objective.
- **Flea market list** (`FleaMarketListFragment.kt`): the six sort modes and the
  name search.
- **Picker** (`PickerActivity.kt`): the list loaded for each picker type, the
  armour-class filter, the search by entry class and the sort by short name.

Kotlin's nullable values are `Option`. An exception the code can raise is the
`Err` branch of a `Result`. Examples: `first()` on an empty list, `!!` on null,
`null as String`, a JSON getter on a missing key, and `toInt()` on text that is
not a number.

Kotlin's `sortedBy` and `sortedByDescending` are modelled as one stable sort
(`Sorting.SortBy`). It is proved sorted and stable: for every key value, the
elements with that key keep their input order. Keys compare as Kotlin's
`compareValues` does, with null below everything.

Some things the code reads or calls become parameters. These include the
global user settings, the clock, the JSON parser, the `Traders` enum entries,
the case folding used by `ignoreCase = true`, and the helper functions that are
not in the modelled files. Case-insensitive comparison is `fold(a) == fold(b)`
character by character. With `fold(c) = lowercase(uppercase(c))`, this is
exactly Kotlin's character rule.

Modules: `Wrappers`, `Ints` (Kotlin `Int`/`Long` and 32-bit wrap-around),
`Text`, `Lists` and `Sorting` model the Kotlin library functions the code uses.
`ItemTypes` and `Traders` hold shared types. There is one module per source
file: `Pricing`, `AppDatabase`, `ItemDao`, `Prefs`, `Messaging`, `QuestList`,
`ObjectiveText`, `FleaList` and `Picker`.

## Model

| member | source | states |
|---|---|---|
| Pricing.GetIcon | tarkovapi/src/main/java/com/austinhodak/tarkovapi/room/models/Pricing.kt:36 | the grid image if present, else the icon, else the unknown-item placeholder |
| Pricing.GetCleanIcon | tarkovapi/src/main/java/com/austinhodak/tarkovapi/room/models/Pricing.kt:37 | the icon if present, else the grid image, else the placeholder |
| Pricing.IconsAgree | tarkovapi/src/main/java/com/austinhodak/tarkovapi/room/models/Pricing.kt:36-37 | the two icon getters differ exactly when both links are present and different |
| Pricing.GetPrice | tarkovapi/src/main/java/com/austinhodak/tarkovapi/room/models/Pricing.kt:62-68 | the 24-hour average when it is positive; otherwise the last low price, else the base price |
| Pricing.GetPriceIsRecorded | tarkovapi/src/main/java/com/austinhodak/tarkovapi/room/models/Pricing.kt:62-68 | the price is always one of the recorded prices, and a non-positive average is never chosen |
| Pricing.GetPriceAsRoubles | tarkovapi/src/main/java/com/austinhodak/tarkovapi/room/models/Pricing.kt:88-94 | a missing price is 0; a peacekeeper price is converted from dollars; any other price is used as it is |
| Pricing.TraderLevel | tarkovapi/src/main/java/com/austinhodak/tarkovapi/room/models/Pricing.kt:101-143 | a loyalty level exists exactly for the eight named traders: prapor, therapist, fence, skier, peacekeeper, mechanic, ragman and jaeger each read their own loyalty setting |
| Pricing.RequiredLoyalty | tarkovapi/src/main/java/com/austinhodak/tarkovapi/room/models/Pricing.kt:104-105 | the value of the first `loyaltyLevel` requirement, or 1 when there is none |
| Pricing.IsRequirementMet | tarkovapi/src/main/java/com/austinhodak/tarkovapi/room/models/Pricing.kt:96-144 | throws exactly for a flea-market offer with no requirements. A flea offer compares the player level with its first requirement; a named trader compares the user's loyalty level with the required one; any other source is false |
| Pricing.TraderOfferWithoutLoyaltyRequirement | tarkovapi/src/main/java/com/austinhodak/tarkovapi/room/models/Pricing.kt:101-141 | a named trader's offer with no loyalty requirement is met exactly when the loyalty level is at least 1 |
| Pricing.CheapestKey | tarkovapi/src/main/java/com/austinhodak/tarkovapi/room/models/Pricing.kt:40-42 | the rouble price of an offer whose requirement is met; `Int.MAX_VALUE` otherwise |
| Pricing.GetCheapestBuyRequirements | tarkovapi/src/main/java/com/austinhodak/tarkovapi/room/models/Pricing.kt:39-48 | no offers: the base-price flea offer. One offer: that offer, with no check evaluated. Two or more: throws iff some check throws, else the first offer of smallest key |
| Pricing.CheapestPrefersMetOffers | tarkovapi/src/main/java/com/austinhodak/tarkovapi/room/models/Pricing.kt:39-48 | when some offer is met at a price below `Int.MAX_VALUE`, the offer chosen is met |
| Pricing.GetCheapestBuy | tarkovapi/src/main/java/com/austinhodak/tarkovapi/room/models/Pricing.kt:50-52 | throws iff there are no buy offers; otherwise the first offer of lowest price (missing = `Int.MAX_VALUE`) |
| Pricing.PriceOrMax | tarkovapi/src/main/java/com/austinhodak/tarkovapi/room/models/Pricing.kt:51 | an offer without a price ranks as `Int.MAX_VALUE` |
| Pricing.GetHighestSell | tarkovapi/src/main/java/com/austinhodak/tarkovapi/room/models/Pricing.kt:54-56 | null iff there are no sell offers; otherwise the first offer of highest price (missing = `Int.MIN_VALUE`) |
| Pricing.PriceOrMin | tarkovapi/src/main/java/com/austinhodak/tarkovapi/room/models/Pricing.kt:55 | an offer without a price ranks as `Int.MIN_VALUE` |
| Pricing.TraderOffers | tarkovapi/src/main/java/com/austinhodak/tarkovapi/room/models/Pricing.kt:59 | an offer is kept iff it is one of the offers and not from the flea market |
| Pricing.TraderOffersMultiplicity | tarkovapi/src/main/java/com/austinhodak/tarkovapi/room/models/Pricing.kt:59 | each non-flea offer is kept as often as it occurs, in the given order; flea offers never |
| Pricing.GetHighestSellTrader | tarkovapi/src/main/java/com/austinhodak/tarkovapi/room/models/Pricing.kt:58-60 | the first non-flea offer of highest price (missing = `Int.MIN_VALUE`); null iff there is no non-flea offer |
| Pricing.HighestSellTraderFromSellFor | tarkovapi/src/main/java/com/austinhodak/tarkovapi/room/models/Pricing.kt:54-60 | the trader offer is one of the sell offers; when the overall highest is a trader offer, both have the same price |
| Pricing.GetFleaMarketBuy | tarkovapi/src/main/java/com/austinhodak/tarkovapi/room/models/Pricing.kt:161-163 | the first flea-market buy offer; null iff there is none |
| Pricing.FleaCost | tarkovapi/src/main/java/com/austinhodak/tarkovapi/room/models/Pricing.kt:172 | the price of the first flea-market buy offer when it has one; otherwise the last low price, else 0 |
| Pricing.GetHighestTraderSell | tarkovapi/src/main/java/com/austinhodak/tarkovapi/room/models/Pricing.kt:165-169 | the first non-flea sell offer of highest price (missing = 0); null iff there is none |
| Pricing.PriceOrZero | tarkovapi/src/main/java/com/austinhodak/tarkovapi/room/models/Pricing.kt:166-168 | a sell offer without a price ranks as 0 |
| Pricing.GetInstaProfit | tarkovapi/src/main/java/com/austinhodak/tarkovapi/room/models/Pricing.kt:171-173 | null iff there is no trader sell offer or it has no price; otherwise that price minus the flea cost, wrapped to 32 bits |
| Pricing.InstaProfitIsBestTraderSellMinusCost | tarkovapi/src/main/java/com/austinhodak/tarkovapi/room/models/Pricing.kt:165-173 | without overflow, the profit is a trader price that no other trader price exceeds, minus the flea cost |
| Pricing.GetTitle | tarkovapi/src/main/java/com/austinhodak/tarkovapi/room/models/Pricing.kt:146-156 | "Flea Market" for the flea market. With a leading loyalty requirement: the source title, a space and the trader level, where a null source prints "null". Otherwise the source title, or "" for a null source |
| AppDatabase.RouteOf | tarkovapi/src/main/java/com/austinhodak/tarkovapi/room/AppDatabase.kt:105-122 | an AMMO entry is skipped iff its secondary type is NULL and goes to ammo otherwise; GRENADE, MELEE and WEAPON go to weapons, MOD to mods, every other category to the items only |
| AppDatabase.Partition | tarkovapi/src/main/java/com/austinhodak/tarkovapi/room/AppDatabase.kt:99-125 | the loop builds each of the four lists as the conversion of exactly its category's entries, in input order |
| AppDatabase.SkippedEverywhere | tarkovapi/src/main/java/com/austinhodak/tarkovapi/room/AppDatabase.kt:106-124 | an AMMO entry with a NULL secondary type is in no list at all, because the `continue` skips `items.add`; every other entry becomes an item |
| AppDatabase.CategoryLists | tarkovapi/src/main/java/com/austinhodak/tarkovapi/room/AppDatabase.kt:105-122 | ammo holds the AMMO entries not skipped; weapons holds GRENADE, MELEE and WEAPON; mods holds MOD; nothing else goes to those lists |
| AppDatabase.PartitionCounts | tarkovapi/src/main/java/com/austinhodak/tarkovapi/room/AppDatabase.kt:104-125 | the items plus the skipped entries count the whole catalog; ammo, weapons and mods together count the items with a category list |
| AppDatabase.ListsKeepOrder | tarkovapi/src/main/java/com/austinhodak/tarkovapi/room/AppDatabase.kt:104-125 | every list keeps the catalog order of its entries |
| AppDatabase.Callback.PopulateDatabase | tarkovapi/src/main/java/com/austinhodak/tarkovapi/room/AppDatabase.kt:93-132 | appends the four bulk inserts (items, ammo, weapons, mods) of the partitioned lists, and nothing else changes |
| AppDatabase.Callback.OnCreate | tarkovapi/src/main/java/com/austinhodak/tarkovapi/room/AppDatabase.kt:69-72 | loads the catalog as `PopulateDatabase` does |
| AppDatabase.Callback.OnDestructiveMigration | tarkovapi/src/main/java/com/austinhodak/tarkovapi/room/AppDatabase.kt:74-78 | sets `lastPriceUpdate` to 0, then loads the catalog |
| ItemDao.ItemDao.GetAll | tarkovapi/src/main/java/com/austinhodak/tarkovapi/room/dao/ItemDao.kt:11-15 | exactly the item rows with a pricing, each once, ordered by name with null names first |
| ItemDao.PricedRows | tarkovapi/src/main/java/com/austinhodak/tarkovapi/room/dao/ItemDao.kt:11 | the `WHERE pricing IS NOT NULL` scan: these rows, each once |
| ItemDao.ItemDao.GetByID | tarkovapi/src/main/java/com/austinhodak/tarkovapi/room/dao/ItemDao.kt:17-18 | the row with that id, present iff some row has it |
| ItemDao.ItemDao.Insert | tarkovapi/src/main/java/com/austinhodak/tarkovapi/room/dao/ItemDao.kt:20-21 | the row replaces any item row with the same id; the other tables are unchanged |
| ItemDao.ItemDao.InsertAmmo | tarkovapi/src/main/java/com/austinhodak/tarkovapi/room/dao/ItemDao.kt:23-24 | the row replaces any ammo row with the same id; the other tables are unchanged |
| ItemDao.ItemDao.UpdateItemsTable | tarkovapi/src/main/java/com/austinhodak/tarkovapi/room/dao/ItemDao.kt:26-27 | sets the pricing of the item row with that id, if there is one |
| ItemDao.ItemDao.UpdateAmmoTable | tarkovapi/src/main/java/com/austinhodak/tarkovapi/room/dao/ItemDao.kt:29-30 | sets the pricing of the ammo row with that id, if there is one |
| ItemDao.ItemDao.UpdateWeaponTable | tarkovapi/src/main/java/com/austinhodak/tarkovapi/room/dao/ItemDao.kt:32-33 | sets the pricing of the weapon row with that id, if there is one |
| ItemDao.ItemDao.UpdateAllPricing | tarkovapi/src/main/java/com/austinhodak/tarkovapi/room/dao/ItemDao.kt:35-42 | a null id changes nothing; otherwise the same pricing update on all three tables |
| ItemDao.SetPricing | tarkovapi/src/main/java/com/austinhodak/tarkovapi/room/dao/ItemDao.kt:26-33 | a table without the id is unchanged; otherwise the row with the id gets the new pricing |
| ItemDao.SetPricingFrame | tarkovapi/src/main/java/com/austinhodak/tarkovapi/room/dao/ItemDao.kt:26-33 | an update keeps the ids and every other row, changes only the pricing column of its row, leaves a table without the id untouched, and keeps rows keyed by id |
| ItemDao.SetPricingIdempotent | tarkovapi/src/main/java/com/austinhodak/tarkovapi/room/dao/ItemDao.kt:26-33 | running the same update twice is the same as running it once |
| Prefs.ReadTag | app/src/main/java/com/austinhodak/thehideout/utils/Prefs.kt:24 | the stored tag, or "flea", with every `Caliber762x35` replaced by `{caliber}` |
| Prefs.ReadTagDefault | app/src/main/java/com/austinhodak/thehideout/utils/Prefs.kt:24 | with no stored tag the opening tag reads "flea" |
| Prefs.ReadTagUnchanged | app/src/main/java/com/austinhodak/thehideout/utils/Prefs.kt:24 | a stored tag that does not contain `Caliber762x35` reads back unchanged |
| Prefs.ReadTagAmmunition | app/src/main/java/com/austinhodak/thehideout/utils/Prefs.kt:24-31 | the ammunition tag reads back unchanged |
| Prefs.ReadTagOldCaliber | app/src/main/java/com/austinhodak/thehideout/utils/Prefs.kt:24 | an ammunition tag saved with `Caliber762x35` reads back with the `{caliber}` placeholder |
| Prefs.ReadTagNoOldCaliber | app/src/main/java/com/austinhodak/thehideout/utils/Prefs.kt:24 | no stored tag, whatever it holds, reads back with `Caliber762x35` in it |
| Prefs.ReadTagSplitsAtFirst | app/src/main/java/com/austinhodak/thehideout/utils/Prefs.kt:24 | the first `Caliber762x35` of a stored tag, after any text that does not contain it, reads back as `{caliber}`, and the text after it is read the same way |
| Prefs.ReadTagIdempotent | app/src/main/java/com/austinhodak/thehideout/utils/Prefs.kt:24 | reading back a tag that was read before changes nothing |
| Prefs.TagText | app/src/main/java/com/austinhodak/thehideout/utils/Prefs.kt:35 | the item tag's text, "null" when the tag is null |
| Prefs.WithFavorite | app/src/main/java/com/austinhodak/thehideout/utils/Prefs.kt:40-46 | after adding, the id is present and nothing else has changed |
| Prefs.WithoutFavorite | app/src/main/java/com/austinhodak/thehideout/utils/Prefs.kt:48-54 | after removing, the id is absent and nothing else has changed |
| Prefs.FavoriteRoundTrip | app/src/main/java/com/austinhodak/thehideout/utils/Prefs.kt:40-54 | adding twice equals adding once; removing undoes adding a new id; adding undoes removing a present id |
| Prefs.Prefs.SetOpeningItem | app/src/main/java/com/austinhodak/thehideout/utils/Prefs.kt:27-38 | stores the identifier as the page. When the identifier truncated to `Int` is 101 the tag becomes "ammunition/{caliber}" and reads back as that; otherwise it is the item tag's text ("null" for none) |
| Prefs.Prefs.FavoriteItems | app/src/main/java/com/austinhodak/thehideout/utils/Prefs.kt:15-17 | the stored favourites, or the empty set when none are stored |
| Prefs.Prefs.OpeningPage | app/src/main/java/com/austinhodak/thehideout/utils/Prefs.kt:19-21 | the stored page, or 107 when none is stored |
| Prefs.Prefs.OpeningPageTag | app/src/main/java/com/austinhodak/thehideout/utils/Prefs.kt:23-25 | "flea" when no tag is stored, never a tag containing `Caliber762x35`, and a stored tag without it as it was stored |
| Prefs.AmmunitionIdentifierAliases | app/src/main/java/com/austinhodak/thehideout/utils/Prefs.kt:28 | a `Long` identifier 2^32 above 101 is also taken as the ammunition item, because `toInt()` truncates |
| Prefs.Prefs.AddFavorite | app/src/main/java/com/austinhodak/thehideout/utils/Prefs.kt:40-46 | stores the favourites read before, plus the id; page and tag are unchanged |
| Prefs.Prefs.RemoveFavorite | app/src/main/java/com/austinhodak/thehideout/utils/Prefs.kt:48-54 | stores the favourites read before, minus the id; page and tag are unchanged |
| Messaging.StatusTitle | app/src/main/java/com/austinhodak/thehideout/firebase/MessagingService.kt:54-58 | the falling-chart title iff the old status code is greater than the new one, the rising-chart title otherwise |
| Messaging.OldStatusCode | app/src/main/java/com/austinhodak/thehideout/firebase/MessagingService.kt:47-52 | the `status` number of the old status when there is one; 0 when the old status, or its code, is missing |
| Messaging.DecodeStatus | app/src/main/java/com/austinhodak/thehideout/firebase/MessagingService.kt:45-58 | succeeds iff the status object and its name, message and status code can all be read; the text is the status message, and the title is the falling chart iff the old code is greater than the new one |
| Messaging.DecodeStatusMessage | app/src/main/java/com/austinhodak/thehideout/firebase/MessagingService.kt:64-69 | succeeds iff the message object and its content, time, type and solveTime can all be read; the text is the content |
| Messaging.DecodeRestock | app/src/main/java/com/austinhodak/thehideout/firebase/MessagingService.kt:81-84 | succeeds iff the restock text is a JSON object holding a `restock` object; the trader is a listed one or PRAPOR |
| Messaging.DataRoute | app/src/main/java/com/austinhodak/thehideout/firebase/MessagingService.kt:42-73 | at most two server-status requests; the handler ends in an exception iff a present status or message part is malformed; a document with neither part sends nothing |
| Messaging.Route | app/src/main/java/com/austinhodak/thehideout/firebase/MessagingService.kt:34-89 | at most two requests; they are restock requests exactly when the message has a restock key, and then there is at most one; only a data or restock message can end in an exception |
| Messaging.PickTrader | app/src/main/java/com/austinhodak/thehideout/firebase/MessagingService.kt:84 | when some trader's id equals the requested one ignoring case, the first such trader; PRAPOR when none does |
| Messaging.EmptyMessagePostsNothing | app/src/main/java/com/austinhodak/thehideout/firebase/MessagingService.kt:37 | a message with empty data posts nothing and does not fail |
| Messaging.TitledMessagePostsOne | app/src/main/java/com/austinhodak/thehideout/firebase/MessagingService.kt:37-41 | title and content without a restock key post exactly one server-status notification carrying them, under the clock-derived id |
| Messaging.DataRouteGates | app/src/main/java/com/austinhodak/thehideout/firebase/MessagingService.kt:45-73 | the status notification needs `serverStatusUpdates` and the status-message notification needs `serverStatusMessages`; with both off nothing is sent |
| Messaging.DataRouteBoth | app/src/main/java/com/austinhodak/thehideout/firebase/MessagingService.kt:45-73 | with both flags on and both parts well formed, the status notification comes first, then "New Status Update"; the title is the falling one iff the old code is greater |
| Messaging.MessageErrorKeepsStatus | app/src/main/java/com/austinhodak/thehideout/firebase/MessagingService.kt:60-69 | a malformed message part throws only after the status notification has been sent |
| Messaging.RestockGates | app/src/main/java/com/austinhodak/thehideout/firebase/MessagingService.kt:74-79 | a restock message posts nothing, and parses nothing, when restock alerts are off, or when they are limited to an open app and the app is in the background |
| Messaging.RestockTrader | app/src/main/java/com/austinhodak/thehideout/firebase/MessagingService.kt:81-87 | a restock that passes the gates sends one restock request for the matched trader, with the field defaulting to "prapor" and the title and content defaulting to "" |
| Messaging.NotificationsOffPostsNothing | app/src/main/java/com/austinhodak/thehideout/firebase/MessagingService.kt:120-157 | with `serverStatusNotifications` off no message posts anything |
| Messaging.MessagingService.SendNotification | app/src/main/java/com/austinhodak/thehideout/firebase/MessagingService.kt:156-182 | posts one SERVER_STATUS notification under the milliseconds truncated to `Int`, unless notifications are off |
| Messaging.MessagingService.SendRestockNotification | app/src/main/java/com/austinhodak/thehideout/firebase/MessagingService.kt:119-146 | posts one TRADER_RESTOCK notification under the trader's number, opening that trader, unless notifications are off |
| Messaging.MessagingService.OnMessageReceived | app/src/main/java/com/austinhodak/thehideout/firebase/MessagingService.kt:34-89 | posts exactly what `Route` decides and reports whether an exception ended the handler |
| Messaging.MessagingService.ReceiveData | app/src/main/java/com/austinhodak/thehideout/firebase/MessagingService.kt:42-73 | for a parsed `data` document, posts the status and status-message notifications the settings allow, in that order, and reports an exception from a malformed part |
| Messaging.ToNotification | app/src/main/java/com/austinhodak/thehideout/firebase/MessagingService.kt:119-182 | a status request posts on SERVER_STATUS under the milliseconds truncated to `Int`, opening the status screen; a restock request posts on TRADER_RESTOCK under the trader's number, opening that trader; both carry the title and the text |
| Messaging.Displayed | app/src/main/java/com/austinhodak/thehideout/firebase/MessagingService.kt:146-181 | the last post is shown under its id, and whatever is shown under an id was posted under it |
| Messaging.DisplayedKeys | app/src/main/java/com/austinhodak/thehideout/firebase/MessagingService.kt:146-181 | the manager shows a notification under exactly the ids posted to |
| Messaging.DisplayedIsLastPerId | app/src/main/java/com/austinhodak/thehideout/firebase/MessagingService.kt:146-181 | what is shown under an id is the last notification posted under it |
| Messaging.RestockReplacesPrevious | app/src/main/java/com/austinhodak/thehideout/firebase/MessagingService.kt:146 | a second restock for the same trader replaces the first: still one notification under that trader's number (the second), with every other id unchanged |
| QuestList.CompletedQuests | app/src/main/java/com/austinhodak/thehideout/quests/QuestMainScreen.kt:221 | null iff there is no user data or no quest map |
| QuestList.CompletedQuestsExactly | app/src/main/java/com/austinhodak/thehideout/quests/QuestMainScreen.kt:221 | an id is among the completed quests iff some entry with it is marked completed |
| QuestList.TabQuests | app/src/main/java/com/austinhodak/thehideout/quests/QuestMainScreen.kt:233-245 | every quest kept belongs to the tab |
| QuestList.TabQuestsExactly | app/src/main/java/com/austinhodak/thehideout/quests/QuestMainScreen.kt:233-245 | a quest is on the tab iff its giver is the tab's trader, or its map ids contain the tab's map |
| QuestList.FirstGroup | app/src/main/java/com/austinhodak/thehideout/quests/QuestMainScreen.kt:255-258 | the first non-null prerequisite group, which the `forEach` returns at; none iff all groups are null |
| QuestList.OnTab | app/src/main/java/com/austinhodak/thehideout/quests/QuestMainScreen.kt:233-245 | a quest is on a trader tab iff that trader gives it, and on a map tab iff its map ids contain the map |
| QuestList.Unlocked | app/src/main/java/com/austinhodak/thehideout/quests/QuestMainScreen.kt:252-260 | a quest with no prerequisites and level at most 15 is unlocked; otherwise it is unlocked iff its first non-null prerequisite group is all completed |
| QuestList.IsAvailable | app/src/main/java/com/austinhodak/thehideout/quests/QuestMainScreen.kt:247-263 | not completed and unlocked |
| QuestList.IsLocked | app/src/main/java/com/austinhodak/thehideout/quests/QuestMainScreen.kt:264-280 | not completed and not unlocked, which is what `filterNot` leaves |
| QuestList.InCompleted | app/src/main/java/com/austinhodak/thehideout/quests/QuestMainScreen.kt:282-286 | the quest's id is among the completed quests of the user data |
| QuestList.StatusFilter | app/src/main/java/com/austinhodak/thehideout/quests/QuestMainScreen.kt:246-287 | ALL or no selection keeps the list; AVAILABLE, LOCKED and COMPLETED keep only quests that pass their test; never more quests than given |
| QuestList.StatusFilterFrom | app/src/main/java/com/austinhodak/thehideout/quests/QuestMainScreen.kt:246-287 | the status filter only removes quests |
| QuestList.StatusFilterExactly | app/src/main/java/com/austinhodak/thehideout/quests/QuestMainScreen.kt:246-287 | a quest passes AVAILABLE, LOCKED or COMPLETED iff it passes that test; ALL or no selection keeps every quest |
| QuestList.AvailableNeverCompleted | app/src/main/java/com/austinhodak/thehideout/quests/QuestMainScreen.kt:249-250 | AVAILABLE never shows a completed quest |
| QuestList.EntryQuestsAvailable | app/src/main/java/com/austinhodak/thehideout/quests/QuestMainScreen.kt:252-253 | an uncompleted quest with no prerequisites and level at most 15 (missing = 0) is available |
| QuestList.GatedQuestsAvailability | app/src/main/java/com/austinhodak/thehideout/quests/QuestMainScreen.kt:254-259 | any other uncompleted quest is available iff its first non-null group is all completed; without user data it never is |
| QuestList.AvailableLockedPartition | app/src/main/java/com/austinhodak/thehideout/quests/QuestMainScreen.kt:247-280 | AVAILABLE and LOCKED are disjoint, and together hold each uncompleted quest as often as the tab does |
| QuestList.MatchesSearch | app/src/main/java/com/austinhodak/thehideout/quests/QuestMainScreen.kt:288-291 | a quest passes iff its title, or its maps text, contains the key ignoring case |
| QuestList.VisibleQuests | app/src/main/java/com/austinhodak/thehideout/quests/QuestMainScreen.kt:233-291 | every quest shown is on the tab and matches the search |
| QuestList.SearchKeepsOrder | app/src/main/java/com/austinhodak/thehideout/quests/QuestMainScreen.kt:288-291 | the search keeps exactly the matching quests of the status list, in order |
| ObjectiveText.Location | app/src/main/java/com/austinhodak/thehideout/quests/viewmodels/QuestInRaidViewModel.kt:76 | the map's name, or "Any Map" when the table has none; throws iff the location is not a number |
| ObjectiveText.ItemName | app/src/main/java/com/austinhodak/thehideout/quests/viewmodels/QuestInRaidViewModel.kt:77-87 | for "key" or a missing target item: the looked-up item's name, else the first target id. An empty target list throws, and so does a missing one when nothing is found. Otherwise the target item's name |
| ObjectiveText.GetObjectiveText | app/src/main/java/com/austinhodak/thehideout/quests/viewmodels/QuestInRaidViewModel.kt:75-105 | throws iff working out the location or the item name throws, or the kind is "reputation" and reading its target throws |
| ObjectiveText.TargetCode | app/src/main/java/com/austinhodak/thehideout/quests/viewmodels/QuestInRaidViewModel.kt:98 | 0 without targets, `NoSuchElementException` for an empty target list, `NumberFormatException` for a non-numeric first target, else that number |
| ObjectiveText.ReputationTrader | app/src/main/java/com/austinhodak/thehideout/quests/viewmodels/QuestInRaidViewModel.kt:98 | an empty target list and a non-numeric first target throw; otherwise the id of the first trader whose number is the target code (0 without targets), or "null" when no trader has that number |
| ObjectiveText.ErrorsComeFirst | app/src/main/java/com/austinhodak/thehideout/quests/viewmodels/QuestInRaidViewModel.kt:76-87 | an exception from the location or the item name ends the call for every kind of objective |
| ObjectiveText.KindTexts | app/src/main/java/com/austinhodak/thehideout/quests/viewmodels/QuestInRaidViewModel.kt:89-102 | "key": the name and " needed". pickup/place/locate/warning/build: the name. kill/collect/find: the number, a space, the name. mark: "Place MS2000 marker". skill: "Skill level N with name". survive: "location N times." |
| ObjectiveText.ReputationText | app/src/main/java/com/austinhodak/thehideout/quests/viewmodels/QuestInRaidViewModel.kt:98 | "Loyalty level N with " and the trader, or the trader lookup's exception |
| ObjectiveText.UnknownKindIsEmpty | app/src/main/java/com/austinhodak/thehideout/quests/viewmodels/QuestInRaidViewModel.kt:103 | any other kind, or none, gives "" |
| FleaList.ModeDescending | app/src/main/java/com/austinhodak/thehideout/flea_market/FleaMarketListFragment.kt:65-71 | modes 1, 2 and 3 sort from the largest key down, and only they do |
| FleaList.ModeKey | app/src/main/java/com/austinhodak/thehideout/flea_market/FleaMarketListFragment.kt:65-71 | mode 0 sorts by name, 2 by price per slot, 3 and 4 by the 48-hour change, and every other mode by price |
| FleaList.MatchesSearch | app/src/main/java/com/austinhodak/thehideout/flea_market/FleaMarketListFragment.kt:72 | a missing or empty key passes every item; otherwise the name must contain the key ignoring case |
| FleaList.FleaItems | app/src/main/java/com/austinhodak/thehideout/flea_market/FleaMarketListFragment.kt:65-72 | nothing until the database has answered; otherwise at most the database's rows, every one of them passing the search |
| FleaList.FleaItemsContents | app/src/main/java/com/austinhodak/thehideout/flea_market/FleaMarketListFragment.kt:65-72 | the list holds each item that passes the search as often as the database does, and nothing else |
| FleaList.FleaItemsOrder | app/src/main/java/com/austinhodak/thehideout/flea_market/FleaMarketListFragment.kt:65-72 | mode 0: by name. 1: price highest first. 2: price per slot highest first. 3: 48-hour change highest first. 4: change lowest first. Otherwise price lowest first. Ties keep database order |
| FleaList.ModeOrder | app/src/main/java/com/austinhodak/thehideout/flea_market/FleaMarketListFragment.kt:65-71 | a list sorted by the mode's key and direction is ordered by name, price, price per slot or change, in the direction each mode of the `when` gives |
| FleaList.NoSearchShowsAll | app/src/main/java/com/austinhodak/thehideout/flea_market/FleaMarketListFragment.kt:72 | a missing or empty search key shows the whole sorted list |
| FleaList.ExactMatchPasses | app/src/main/java/com/austinhodak/thehideout/flea_market/FleaMarketListFragment.kt:72 | a name that contains the key exactly also passes the case-insensitive search |
| Picker.Armored | app/src/main/java/com/austinhodak/thehideout/pickers/PickerActivity.kt:79-81 | only gear with an armour class above 0, and no more than the query returned |
| Picker.Load | app/src/main/java/com/austinhodak/thehideout/pickers/PickerActivity.kt:68-110 | no list without a type and a finished activity for an unknown type; "ammo" and "character" show their lists as given |
| Picker.Matches | app/src/main/java/com/austinhodak/thehideout/pickers/PickerActivity.kt:143-153 | ammo by short name or name, gear by short name, name or armour class, characters by name, anything else never |
| Picker.Visible | app/src/main/java/com/austinhodak/thehideout/pickers/PickerActivity.kt:143-160 | nothing without a list; otherwise at most the list's entries, every one of them passing the search |
| Picker.ArmorListsHaveArmor | app/src/main/java/com/austinhodak/thehideout/pickers/PickerActivity.kt:73-105 | the "armor", "helmet" and "armorAll" lists hold the gear of their types with an armour class above 0, each as often as the query returned it, and nothing else |
| Picker.SearchByKind | app/src/main/java/com/austinhodak/thehideout/pickers/PickerActivity.kt:143-153 | ammo passes iff its short name or name contains the key; gear iff its ShortName, Name or armorClass does; a character iff its name does; anything else never |
| Picker.EmptyKeyDropsOnlyBlankEntries | app/src/main/java/com/austinhodak/thehideout/pickers/PickerActivity.kt:143-153 | with an empty key every character passes, and ammo or gear passes iff some text field is present |
| Picker.VisibleIsSortedSearch | app/src/main/java/com/austinhodak/thehideout/pickers/PickerActivity.kt:143-160 | each entry that passes appears as often as in the list. The list is sorted by short name with null keys first, and is stable |
| Picker.CharactersKeepOrder | app/src/main/java/com/austinhodak/thehideout/pickers/PickerActivity.kt:154-160 | characters, whose key is null, keep their relative order |

## Left out

- `calculateTax` and `getTotalCostWithExplanation` (`Pricing.kt`:175-214): floating-point arithmetic (`log10`, `pow`) and string formatting.
- `getPriceAsCurrency` (`Pricing.kt`:80-86): currency formatting by a helper that is not part of this model.
- Pricing.GetPriceAsRoubles: the dollar-to-rouble conversion (`fromDtoR` with `roundToInt`) is a parameter, because it is floating point.
- Pricing.GetTitle: `sourceTitle` and `getTraderLevel` are parameters, because they are not part of this model.
- `Traders.kt`, `Item.kt`, `Quest.kt` and the JSON conversion helpers (`toItem`, `getItemType`, `getMapsIDs`, `getMaps`, `isQuestCompleted`, `getPrice`, `getPricePerSlot`, `cArmorClass`) are not part of this model. Each is a parameter of the member that uses it.
- Concurrency and timing: coroutines, `LaunchedEffect`, LiveData and Flow observers. `loadItemsFile` runs `populateDatabase` synchronously in the model. Each `collect` is modelled on one emitted list.
- The SQL engine: tables are maps from id to row. The `ORDER BY name` order among rows with the same name is left unspecified, as SQLite leaves it.
- ItemDao.ItemDao.GetByID: `LiveData<Item>` is modelled as one lookup, not as a stream of updates.
- `onOpen`, `onNewToken`, the Android notification channels, intents, pending intents and icons. This also covers the commented-out flea-price alert code.
- `isAppInforegrounded` (`MessagingService.kt`:188-193): an operating-system query, taken as the `foreground` parameter.
- Messaging.GetString: org.json would turn a nested object into its JSON text; the model treats that case as an error. `OptString` falls back to its default there. Neither case occurs in the messages the app receives.
- Messaging.GetInt: org.json also parses numeric strings and truncates a `Double` or `Long` value through `intValue()` (2.7 reads as 2); the model accepts only `Int` numbers and gives an error otherwise.
- Messaging.OptInt: org.json's coercion of numeric strings, and its truncation of a `Double` to an `Int`, are not modelled; only a number yields its value, anything else the fallback.
- Messaging.MessagingService.OnMessageReceived: the clock is read once per message. Both notifications of a data message therefore get the same time-derived id. The app reads the clock twice.
- Messaging: the JSON parser is a parameter; the document structure after parsing is modelled.
- The rest of `QuestMainScreen.kt`, `QuestInRaidViewModel.kt`, `FleaMarketListFragment.kt` and `PickerActivity.kt`: Compose UI, navigation, Firebase listeners and view-model plumbing.
- FleaList.FleaItemsOrder: `Double` keys are modelled as reals, so NaN changes are not covered, and `-0.0` and `0.0` are one key here while Kotlin orders `-0.0` first.
- Sorting.KeyLe: strings compare by code point, while Kotlin's `compareTo` compares UTF-16 code units. The two orders differ only between a character above U+FFFF and one in U+E000 to U+FFFF.
- QuestList.StatusFilterExactly: `Quest.id` is modelled as a number. The `NumberFormatException` that `it.id.toInt()` (`QuestMainScreen.kt`:284) raises for a non-numeric id is therefore not modelled; `Quest.kt` is not part of this model.
- ObjectiveText.ReputationTrader: the target is read as a number once, before the search; Kotlin reads it inside the `find` lambda. The two agree because the `Traders` enum is never empty.
- AppDatabase.Callback.PopulateDatabase: the converters are total parameters. An exception from `getJSONObject("_props")`, `getString("_id")` or a converter, which would end the loop, is not modelled.
- The preference store's asynchronous `apply()` writes to disk are not modelled. The in-memory values they update immediately are modelled.
