/** The quest list of the quest screen (`QuestTradersScreen` in
    `QuestMainScreen.kt`): the quests of one trader or one map, narrowed by the
    selected status filter and then by the search key.

    Helpers that are not part of this model are parameters: `isCompleted` is
    `User.isQuestCompleted`, `mapsText` is `Quest.getMaps(mapsList)`, and `fold`
    is the case folding of `contains(..., ignoreCase = true)`. */
module QuestList {

  import opened Wrappers
  import opened Lists
  import opened Text

  /** The `QuestFilter` enum. */
  datatype QuestFilter = AVAILABLE | LOCKED | COMPLETED | ALL

  datatype Giver = Giver(name: Option<string>)

  /** What a quest requires: a player level and groups of prerequisite quest ids. */
  datatype Requirement = Requirement(level: Option<int>, quests: Option<seq<Option<seq<int>>>>)

  /** A quest; `id` is the integer value of the quest's numeric id string. */
  datatype Quest = Quest(
    id: int,
    title: Option<string>,
    giver: Option<Giver>,
    requirement: Option<Requirement>,
    mapIds: Option<seq<int>>)

  /** One entry of the user's quest progress. */
  datatype UserQuest = UserQuest(id: Option<int>, completed: Option<bool>)

  /** The user's data; `quests` holds the values of the user's quest map. */
  datatype User = User(quests: Option<seq<Option<UserQuest>>>)

  /** The pager tab the list belongs to: a trader (by id) or a map (by number). */
  datatype Tab = TraderTab(traderId: string) | MapTab(mapInt: int)

  /** `completedQuests`: the ids of the user's entries whose `completed` flag is
      true, or null when there is no user data or no quest map. */
  function CompletedQuests(userData: Option<User>): (r: Option<seq<Option<int>>>)
    ensures r.Some? <==> userData.Some? && userData.value.quests.Some?
  {
    match userData
    case None => None
    case Some(u) =>
      match u.quests
      case None => None
      case Some(entries) =>
        var done := Filter(entries, (e: Option<UserQuest>) => e.Some? && e.value.completed == Some(true));
        Some(seq(|done|, i requires 0 <= i < |done| => done[i].value.id))
  }

  /** `completedQuests` holds exactly the ids of the completed entries. */
  lemma CompletedQuestsExactly(u: User, x: Option<int>)
    requires u.quests.Some?
    ensures x in CompletedQuests(Some(u)).value <==>
      exists e :: e in u.quests.value && e.Some? && e.value.completed == Some(true) && e.value.id == x
  {
    var entries := u.quests.value;
    var keep := (e: Option<UserQuest>) => e.Some? && e.value.completed == Some(true);
    var done := Filter(entries, keep);
    var ids := CompletedQuests(Some(u)).value;
    if x in ids {
      var i :| 0 <= i < |ids| && ids[i] == x;
      FilterIn(entries, keep, done[i]);
    }
    if exists e :: e in entries && e.Some? && e.value.completed == Some(true) && e.value.id == x {
      var e :| e in entries && e.Some? && e.value.completed == Some(true) && e.value.id == x;
      FilterIn(entries, keep, e);
      var i :| 0 <= i < |done| && done[i] == e;
      assert ids[i] == x;
    }
  }

  /** The quests of the current tab: those the trader gives, or those that take
      place on the map. */
  function TabQuests(quests: seq<Quest>, tab: Tab): (r: seq<Quest>)
    ensures forall i :: 0 <= i < |r| ==> OnTab(r[i], tab)
  {
    Filter(quests, (q: Quest) => OnTab(q, tab))
  }

  predicate OnTab(q: Quest, tab: Tab) {
    match tab
    case TraderTab(id) => q.giver.Some? && q.giver.value.name == Some(id)
    case MapTab(n) => q.mapIds.Some? && n in q.mapIds.value
  }

  /** `userData?.isQuestCompleted(it) == true` */
  predicate Done(q: Quest, userData: Option<User>, isCompleted: (User, Quest) -> bool) {
    userData.Some? && isCompleted(userData.value, q)
  }

  /** `requirement?.quests.isNullOrEmpty()` */
  predicate NoPrerequisites(q: Quest) {
    q.requirement.None? || q.requirement.value.quests.None? || q.requirement.value.quests.value == []
  }

  /** `requirement?.level ?: 0` */
  function RequiredLevel(q: Quest): int {
    match q.requirement
    case None => 0
    case Some(r) => r.level.GetOr(0)
  }

  /** The first prerequisite group that is not null; the `forEach` in the
      source returns from the filter at that group. */
  function FirstGroup(groups: seq<Option<seq<int>>>): (r: Option<seq<int>>)
    ensures r.None? <==> forall i :: 0 <= i < |groups| ==> groups[i].None?
    ensures r.Some? ==> exists i :: 0 <= i < |groups| && groups[i] == r
                                    && forall j :: 0 <= j < i ==> groups[j].None?
    decreases |groups|
  {
    if groups == [] then None
    else if groups[0].Some? then groups[0]
    else
      var r := FirstGroup(groups[1..]);
      assert forall i :: 1 <= i < |groups| ==> groups[i] == groups[1..][i - 1];
      r
  }

  /** `completedQuests?.containsAll(group) == true` */
  predicate ContainsAll(completed: Option<seq<Option<int>>>, group: seq<int>) {
    completed.Some? && forall x :: x in group ==> Some(x) in completed.value
  }

  /** The test AVAILABLE and LOCKED share for a quest that is not completed: no
      prerequisites and a level requirement of at most 15, or else the first
      non-null prerequisite group is all completed. */
  predicate Unlocked(q: Quest, completed: Option<seq<Option<int>>>) {
    if NoPrerequisites(q) && RequiredLevel(q) <= 15 then true
    else
      match q.requirement
      case None => false
      case Some(r) =>
        match r.quests
        case None => false
        case Some(groups) =>
          match FirstGroup(groups)
          case None => false
          case Some(g) => ContainsAll(completed, g)
  }

  predicate IsAvailable(q: Quest, userData: Option<User>, isCompleted: (User, Quest) -> bool) {
    !Done(q, userData, isCompleted) && Unlocked(q, CompletedQuests(userData))
  }

  predicate IsLocked(q: Quest, userData: Option<User>, isCompleted: (User, Quest) -> bool) {
    !Done(q, userData, isCompleted) && !Unlocked(q, CompletedQuests(userData))
  }

  /** COMPLETED's test: `completedQuests?.contains(it.id.toInt()) == true` */
  predicate InCompleted(q: Quest, userData: Option<User>) {
    var c := CompletedQuests(userData);
    c.Some? && Some(q.id) in c.value
  }

  /** The status filter; no selection keeps every quest. */
  function StatusFilter(list: seq<Quest>, selected: Option<QuestFilter>, userData: Option<User>,
                        isCompleted: (User, Quest) -> bool): (r: seq<Quest>)
    ensures |r| <= |list|
    ensures selected.None? || selected == Some(ALL) ==> r == list
    ensures selected == Some(AVAILABLE) ==> forall i :: 0 <= i < |r| ==> IsAvailable(r[i], userData, isCompleted)
    ensures selected == Some(LOCKED) ==> forall i :: 0 <= i < |r| ==> IsLocked(r[i], userData, isCompleted)
    ensures selected == Some(COMPLETED) ==> forall i :: 0 <= i < |r| ==> InCompleted(r[i], userData)
  {
    match selected
    case Some(AVAILABLE) => Filter(list, (q: Quest) => IsAvailable(q, userData, isCompleted))
    case Some(LOCKED) => Filter(list, (q: Quest) => IsLocked(q, userData, isCompleted))
    case Some(COMPLETED) => Filter(list, (q: Quest) => InCompleted(q, userData))
    case Some(ALL) => list
    case None => list
  }

  /** The search test: the title or the maps text contains the key, ignoring case. */
  predicate MatchesSearch(q: Quest, searchKey: string, mapsText: Quest -> string, fold: char -> char) {
    (q.title.Some? && ContainsIgnoreCase(q.title.value, searchKey, fold))
    || ContainsIgnoreCase(mapsText(q), searchKey, fold)
  }

  /** The list one pager page shows. */
  function VisibleQuests(quests: seq<Quest>, tab: Tab, selected: Option<QuestFilter>, userData: Option<User>,
                         searchKey: string, isCompleted: (User, Quest) -> bool,
                         mapsText: Quest -> string, fold: char -> char): (r: seq<Quest>)
    ensures forall i :: 0 <= i < |r| ==> OnTab(r[i], tab) && MatchesSearch(r[i], searchKey, mapsText, fold)
  {
    var status := StatusFilter(TabQuests(quests, tab), selected, userData, isCompleted);
    var r := Filter(status, (q: Quest) => MatchesSearch(q, searchKey, mapsText, fold));
    forall i | 0 <= i < |r| ensures OnTab(r[i], tab) {
      FilterIn(status, (q: Quest) => MatchesSearch(q, searchKey, mapsText, fold), r[i]);
      StatusFilterFrom(TabQuests(quests, tab), selected, userData, isCompleted, r[i]);
      FilterIn(quests, (q: Quest) => OnTab(q, tab), r[i]);
    }
    r
  }

  /** The status filter only removes quests. */
  lemma StatusFilterFrom(list: seq<Quest>, selected: Option<QuestFilter>, userData: Option<User>,
                         isCompleted: (User, Quest) -> bool, q: Quest)
    requires q in StatusFilter(list, selected, userData, isCompleted)
    ensures q in list
  {
    match selected
    case Some(AVAILABLE) => FilterIn(list, (q: Quest) => IsAvailable(q, userData, isCompleted), q);
    case Some(LOCKED) => FilterIn(list, (q: Quest) => IsLocked(q, userData, isCompleted), q);
    case Some(COMPLETED) => FilterIn(list, (q: Quest) => InCompleted(q, userData), q);
    case Some(ALL) =>
    case None =>
  }

  /** A quest is on the status list exactly when it passes the selected test. */
  lemma StatusFilterExactly(list: seq<Quest>, selected: Option<QuestFilter>, userData: Option<User>,
                            isCompleted: (User, Quest) -> bool, q: Quest)
    ensures selected == Some(AVAILABLE) ==>
      (q in StatusFilter(list, selected, userData, isCompleted) <==> q in list && IsAvailable(q, userData, isCompleted))
    ensures selected == Some(LOCKED) ==>
      (q in StatusFilter(list, selected, userData, isCompleted) <==> q in list && IsLocked(q, userData, isCompleted))
    ensures selected == Some(COMPLETED) ==>
      (q in StatusFilter(list, selected, userData, isCompleted) <==> q in list && InCompleted(q, userData))
    ensures selected == Some(ALL) || selected == None ==>
      StatusFilter(list, selected, userData, isCompleted) == list
  {
    FilterIn(list, (q: Quest) => IsAvailable(q, userData, isCompleted), q);
    FilterIn(list, (q: Quest) => IsLocked(q, userData, isCompleted), q);
    FilterIn(list, (q: Quest) => InCompleted(q, userData), q);
  }

  /** The tab keeps exactly the trader's quests, or exactly the map's. */
  lemma TabQuestsExactly(quests: seq<Quest>, tab: Tab, q: Quest)
    ensures q in TabQuests(quests, tab) <==> q in quests && OnTab(q, tab)
  {
    FilterIn(quests, (q: Quest) => OnTab(q, tab), q);
  }

  /** AVAILABLE never shows a quest the user has completed. */
  lemma AvailableNeverCompleted(list: seq<Quest>, userData: Option<User>, isCompleted: (User, Quest) -> bool, q: Quest)
    requires q in StatusFilter(list, Some(AVAILABLE), userData, isCompleted)
    ensures !Done(q, userData, isCompleted)
  {
    StatusFilterExactly(list, Some(AVAILABLE), userData, isCompleted, q);
  }

  /** A quest that is not completed, has no prerequisites and needs level 15 or
      less (a missing level counting as 0) is AVAILABLE. */
  lemma EntryQuestsAvailable(list: seq<Quest>, userData: Option<User>, isCompleted: (User, Quest) -> bool, q: Quest)
    requires q in list && !Done(q, userData, isCompleted)
    requires NoPrerequisites(q) && RequiredLevel(q) <= 15
    ensures q in StatusFilter(list, Some(AVAILABLE), userData, isCompleted)
  {
    StatusFilterExactly(list, Some(AVAILABLE), userData, isCompleted, q);
  }

  /** Any other quest that is not completed is AVAILABLE exactly when its first
      non-null prerequisite group is all in `completedQuests`; with no such group,
      or with no user data, it is not. */
  lemma GatedQuestsAvailability(q: Quest, userData: Option<User>, isCompleted: (User, Quest) -> bool)
    requires !Done(q, userData, isCompleted)
    requires !(NoPrerequisites(q) && RequiredLevel(q) <= 15)
    ensures IsAvailable(q, userData, isCompleted) <==>
      q.requirement.Some? && q.requirement.value.quests.Some?
      && FirstGroup(q.requirement.value.quests.value).Some?
      && ContainsAll(CompletedQuests(userData), FirstGroup(q.requirement.value.quests.value).value)
    ensures userData.None? ==> !IsAvailable(q, userData, isCompleted)
  {
  }

  /** AVAILABLE and LOCKED split the tab's quests that are not completed: no
      quest is on both, and together they hold each such quest as often as the
      tab does. */
  lemma AvailableLockedPartition(list: seq<Quest>, userData: Option<User>, isCompleted: (User, Quest) -> bool)
    ensures multiset(StatusFilter(list, Some(AVAILABLE), userData, isCompleted))
          + multiset(StatusFilter(list, Some(LOCKED), userData, isCompleted))
         == multiset(Filter(list, (q: Quest) => !Done(q, userData, isCompleted)))
    ensures forall q :: !(q in StatusFilter(list, Some(AVAILABLE), userData, isCompleted)
                         && q in StatusFilter(list, Some(LOCKED), userData, isCompleted))
  {
    FilterPartition(list, (q: Quest) => !Done(q, userData, isCompleted),
      (q: Quest) => IsAvailable(q, userData, isCompleted), (q: Quest) => IsLocked(q, userData, isCompleted));
    forall q ensures !(q in StatusFilter(list, Some(AVAILABLE), userData, isCompleted)
                       && q in StatusFilter(list, Some(LOCKED), userData, isCompleted)) {
      StatusFilterExactly(list, Some(AVAILABLE), userData, isCompleted, q);
      StatusFilterExactly(list, Some(LOCKED), userData, isCompleted, q);
    }
  }

  /** The search keeps exactly the matching quests of the status list, in the
      same relative order. */
  lemma SearchKeepsOrder(quests: seq<Quest>, tab: Tab, selected: Option<QuestFilter>, userData: Option<User>,
                         searchKey: string, isCompleted: (User, Quest) -> bool,
                         mapsText: Quest -> string, fold: char -> char, q: Quest)
    ensures var status := StatusFilter(TabQuests(quests, tab), selected, userData, isCompleted);
      && SubsequenceOf(VisibleQuests(quests, tab, selected, userData, searchKey, isCompleted, mapsText, fold), status)
      && (q in VisibleQuests(quests, tab, selected, userData, searchKey, isCompleted, mapsText, fold)
          <==> q in status && MatchesSearch(q, searchKey, mapsText, fold))
  {
    var status := StatusFilter(TabQuests(quests, tab), selected, userData, isCompleted);
    FilterSubsequence(status, (q: Quest) => MatchesSearch(q, searchKey, mapsText, fold));
    FilterIn(status, (q: Quest) => MatchesSearch(q, searchKey, mapsText, fold), q);
  }
}
