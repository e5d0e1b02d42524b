/** The push-message handler (`MessagingService.kt`). A push message is a map
    from keys to strings; some values are JSON documents. `onMessageReceived`
    decides from the keys, the user's notification settings and whether the app
    is in the foreground which notifications to post; the two senders post them
    to the notification manager unless server-status notifications are off.

    The JSON parser, the trader table and the case folding are parameters: the
    parser maps a text to the document it denotes, or to `None` when the text is
    not JSON. */
module Messaging {

  import opened Wrappers
  import opened Ints
  import opened Lists
  import opened Text
  import opened Traders

  /** A parsed JSON value. `JText` is a string or any other scalar, held as the
      text org.json gives it. */
  datatype Json = JObj(fields: map<string, Json>) | JInt(n: Int32) | JText(text: string)

  type JsonObject = map<string, Json>

  /** The user settings the handler reads. */
  datatype Settings = Settings(
    serverStatusNotifications: bool,
    serverStatusUpdates: bool,
    serverStatusMessages: bool,
    globalRestockAlert: bool,
    globalRestockAlertAppOpen: bool)

  /** A call to one of the two senders. */
  datatype Request =
    | Plain(title: string, message: string)
    | Restock(title: string, message: string, trader: Trader)

  /** The sender calls one message leads to, and whether handling it ended in an
      exception after them. */
  datatype Outcome = Outcome(sends: seq<Request>, crashed: bool)

  datatype Channel = SERVER_STATUS | TRADER_RESTOCK

  /** The screen a notification opens. */
  datatype Target = ServerStatusScreen | TraderScreen(traderId: string)

  /** A notification as posted to the notification manager under `id`. */
  datatype Notification = Notification(channel: Channel, id: Int32, title: string, text: string, opens: Target)

  const STATUS_DOWN_TITLE: string := "\U{1F4C9} Server Status Update"
  const STATUS_UP_TITLE: string := "\U{1F4C8} Server Status Update"
  const STATUS_MESSAGE_TITLE: string := "New Status Update"
  const DEFAULT_TRADER_ID: string := "prapor"

  // ---- org.json accessors -------------------------------------------------

  /** `JSONObject(text)`: fails unless the text is a JSON object. */
  function ParseObject(parse: string -> Option<Json>, text: string): Result<JsonObject> {
    match parse(text)
    case Some(JObj(fields)) => Ok(fields)
    case _ => Err(JsonError)
  }

  /** `getJSONObject(key)` */
  function GetObject(o: JsonObject, key: string): Result<JsonObject> {
    if key in o && o[key].JObj? then Ok(o[key].fields) else Err(JsonError)
  }

  /** `optJSONObject(key)` */
  function OptObject(o: JsonObject, key: string): Option<JsonObject> {
    if key in o && o[key].JObj? then Some(o[key].fields) else None
  }

  /** `getString(key)`: a present scalar as text. */
  function GetString(o: JsonObject, key: string): Result<string> {
    if key !in o then Err(JsonError)
    else match o[key]
      case JText(t) => Ok(t)
      case JInt(n) => Ok(IntToString(n))
      case JObj(_) => Err(JsonError)
  }

  /** `getInt(key)` */
  function GetInt(o: JsonObject, key: string): Result<Int32> {
    if key in o && o[key].JInt? then Ok(o[key].n) else Err(JsonError)
  }

  /** `optInt(key, fallback)` */
  function OptInt(o: JsonObject, key: string, fallback: Int32): Int32 {
    if key in o && o[key].JInt? then o[key].n else fallback
  }

  /** `optString(key, fallback)` */
  function OptString(o: JsonObject, key: string, fallback: string): string {
    if key !in o then fallback
    else match o[key]
      case JText(t) => t
      case JInt(n) => IntToString(n)
      case JObj(_) => fallback
  }

  // ---- the decisions of onMessageReceived -------------------------------------

  /** The title of a server-status notification: the falling chart when the old
      status code is greater than the new one, the rising chart otherwise. */
  function StatusTitle(oldCode: Int32, code: Int32): (r: string)
    ensures r == STATUS_DOWN_TITLE <==> oldCode > code
    ensures r == STATUS_UP_TITLE <==> oldCode <= code
  {
    if oldCode > code then STATUS_DOWN_TITLE else STATUS_UP_TITLE
  }

  /** The old status code: `oldStatus?.optInt("status", 0) ?: 0`. */
  function OldStatusCode(doc: JsonObject): (r: Int32)
    ensures OptObject(doc, "oldStatus").None? ==> r == 0
    ensures OptObject(doc, "oldStatus").Some? && "status" !in OptObject(doc, "oldStatus").value ==> r == 0
    ensures var o := OptObject(doc, "oldStatus");
            o.Some? && "status" in o.value && o.value["status"].JInt? ==> r == o.value["status"].n
  {
    match OptObject(doc, "oldStatus")
    case None => 0
    case Some(previous) => OptInt(previous, "status", 0)
  }

  /** The status part of a data document: reads `status.name`, `status.message`
      and `status.status` and yields the notification's title and text. */
  function DecodeStatus(doc: JsonObject): (r: Result<(string, string)>)
    ensures r.Ok? <==> GetObject(doc, "status").Ok? &&
                       var status := GetObject(doc, "status").value;
                       GetString(status, "name").Ok? && GetString(status, "message").Ok? && GetInt(status, "status").Ok?
    ensures r.Ok? ==> var status := GetObject(doc, "status").value;
                      && r.value.1 == GetString(status, "message").value
                      && (r.value.0 == STATUS_DOWN_TITLE <==> OldStatusCode(doc) > GetInt(status, "status").value)
                      && (r.value.0 == STATUS_UP_TITLE <==> OldStatusCode(doc) <= GetInt(status, "status").value)
  {
    match GetObject(doc, "status")
    case Err(e) => Err(e)
    case Ok(status) =>
      match (GetString(status, "name"), GetString(status, "message"), GetInt(status, "status"))
      case (Ok(_), Ok(message), Ok(code)) => Ok((StatusTitle(OldStatusCode(doc), code), message))
      case _ => Err(JsonError)
  }

  /** The message part of a data document: reads `content`, `time`, `type` and
      `solveTime` and yields the content. */
  function DecodeStatusMessage(doc: JsonObject): (r: Result<string>)
    ensures r.Ok? <==> GetObject(doc, "message").Ok? &&
                       var m := GetObject(doc, "message").value;
                       GetString(m, "content").Ok? && GetString(m, "time").Ok? && GetInt(m, "type").Ok? && GetString(m, "solveTime").Ok?
    ensures r.Ok? ==> r.value == GetString(GetObject(doc, "message").value, "content").value
  {
    match GetObject(doc, "message")
    case Err(e) => Err(e)
    case Ok(m) =>
      match (GetString(m, "content"), GetString(m, "time"), GetInt(m, "type"), GetString(m, "solveTime"))
      case (Ok(content), Ok(_), Ok(_), Ok(_)) => Ok(content)
      case _ => Err(JsonError)
  }

  /** The first trader whose id equals `id` ignoring case, else PRAPOR. */
  function PickTrader(traders: seq<Trader>, prapor: Trader, id: string, fold: char -> char): (r: Trader)
    ensures r in traders || r == prapor
    ensures (forall i :: 0 <= i < |traders| ==> !EqualsIgnoreCase(traders[i].id, id, fold)) ==> r == prapor
    ensures (exists i :: 0 <= i < |traders| && EqualsIgnoreCase(traders[i].id, id, fold)) ==>
              exists i :: 0 <= i < |traders| && traders[i] == r && EqualsIgnoreCase(r.id, id, fold)
                && forall j :: 0 <= j < i ==> !EqualsIgnoreCase(traders[j].id, id, fold)
  {
    Find(traders, (t: Trader) => EqualsIgnoreCase(t.id, id, fold)).GetOr(prapor)
  }

  /** The restock part: the trader named by `restock.trader` ("prapor" when the
      field is missing). */
  function DecodeRestock(parse: string -> Option<Json>, text: string, traders: seq<Trader>, prapor: Trader, fold: char -> char): (r: Result<Trader>)
    ensures r.Ok? <==> ParseObject(parse, text).Ok? && GetObject(ParseObject(parse, text).value, "restock").Ok?
    ensures r.Ok? ==> r.value in traders || r.value == prapor
  {
    match ParseObject(parse, text)
    case Err(e) => Err(e)
    case Ok(outer) =>
      match GetObject(outer, "restock")
      case Err(e) => Err(e)
      case Ok(inner) => Ok(PickTrader(traders, prapor, OptString(inner, "trader", DEFAULT_TRADER_ID), fold))
  }

  function Lookup(data: map<string, string>, key: string): Option<string> {
    if key in data then Some(data[key]) else None
  }

  /** A document from the `data` key: the status notification, if any and if
      status updates are on, then the status-message notification, if any and if
      status messages are on. An exception stops the handler where it is raised. */
  function DataRoute(doc: JsonObject, s: Settings): (r: Outcome)
    ensures |r.sends| <= 2 && forall q :: q in r.sends ==> q.Plain?
    ensures r.crashed <==> ("status" in doc && DecodeStatus(doc).Err?) || ("message" in doc && DecodeStatusMessage(doc).Err?)
    ensures "status" !in doc && "message" !in doc ==> r == Outcome([], false)
  {
    var status := if "status" in doc then DecodeStatus(doc) else Ok(("", ""));
    match status
    case Err(_) => Outcome([], true)
    case Ok(st) =>
      var first := if "status" in doc && s.serverStatusUpdates then [Plain(st.0, st.1)] else [];
      var message := if "message" in doc then DecodeStatusMessage(doc) else Ok("");
      match message
      case Err(_) => Outcome(first, true)
      case Ok(content) =>
        Outcome(first + (if "message" in doc && s.serverStatusMessages then [Plain(STATUS_MESSAGE_TITLE, content)] else []), false)
  }

  /** `onMessageReceived`, as the sender calls it makes. */
  function Route(data: map<string, string>, s: Settings, foreground: bool,
                 parse: string -> Option<Json>, traders: seq<Trader>, prapor: Trader, fold: char -> char): (r: Outcome)
    ensures |r.sends| <= 2
    ensures forall q :: q in r.sends ==> (q.Restock? <==> "restock" in data)
    ensures "restock" in data ==> |r.sends| <= 1
    ensures r.crashed ==> "data" in data || "restock" in data
  {
    if |data| == 0 then Outcome([], false)
    else if "title" in data && "content" in data && "restock" !in data then
      Outcome([Plain(data["title"], data["content"])], false)
    else if "data" in data && "restock" !in data then
      match ParseObject(parse, data["data"])
      case Err(_) => Outcome([], true)
      case Ok(doc) => DataRoute(doc, s)
    else if "restock" in data then
      if !s.globalRestockAlert then Outcome([], false)
      else if s.globalRestockAlertAppOpen && !foreground then Outcome([], false)
      else
        match DecodeRestock(parse, data["restock"], traders, prapor, fold)
        case Err(_) => Outcome([], true)
        case Ok(trader) =>
          Outcome([Restock(Lookup(data, "title").GetOr(""), Lookup(data, "content").GetOr(""), trader)], false)
    else Outcome([], false)
  }

  // ---- the senders ------------------------------------------------------------

  /** What a sender posts for one call: a status notification under the clock's
      milliseconds truncated to an `Int`, a restock notification under the
      trader's number. */
  function ToNotification(req: Request, now: Int64): (r: Notification)
    ensures r.title == req.title && r.text == req.message
    ensures r.channel == SERVER_STATUS <==> req.Plain?
    ensures req.Plain? ==> r.id == Wrap32(now) && r.opens == ServerStatusScreen
    ensures req.Restock? ==> r.id == req.trader.number && r.opens == TraderScreen(req.trader.id)
  {
    match req
    case Plain(title, message) => Notification(SERVER_STATUS, Wrap32(now), title, message, ServerStatusScreen)
    case Restock(title, message, trader) => Notification(TRADER_RESTOCK, trader.number, title, message, TraderScreen(trader.id))
  }

  /** The notifications the senders post for a list of calls. */
  function Deliver(reqs: seq<Request>, s: Settings, now: Int64): seq<Notification> {
    if s.serverStatusNotifications then Map(reqs, (r: Request) => ToNotification(r, now)) else []
  }

  /** What the notification manager shows after a sequence of posts: a post
      replaces whatever was shown under its id. */
  function Displayed(posts: seq<Notification>): (r: map<Int32, Notification>)
    ensures posts != [] ==> posts[|posts| - 1].id in r && r[posts[|posts| - 1].id] == posts[|posts| - 1]
    ensures forall id :: id in r ==> r[id].id == id
    decreases |posts|
  {
    if posts == [] then map[]
    else Displayed(posts[..|posts| - 1])[posts[|posts| - 1].id := posts[|posts| - 1]]
  }

  class MessagingService {
    /** Every notification posted, in order. */
    var posted: seq<Notification>

    constructor ()
      ensures posted == []
    {
      posted := [];
    }

    /** `sendNotification` */
    method SendNotification(title: string, message: string, s: Settings, now: Int64)
      modifies this
      ensures posted == old(posted) + Deliver([Plain(title, message)], s, now)
    {
      if !s.serverStatusNotifications {
        return;
      }
      posted := posted + [Notification(SERVER_STATUS, Wrap32(now), title, message, ServerStatusScreen)];
    }

    /** `sendRestockNotification` */
    method SendRestockNotification(title: string, message: string, trader: Trader, s: Settings)
      modifies this
      ensures forall now: Int64 :: posted == old(posted) + Deliver([Restock(title, message, trader)], s, now)
    {
      if !s.serverStatusNotifications {
        return;
      }
      posted := posted + [Notification(TRADER_RESTOCK, trader.number, title, message, TraderScreen(trader.id))];
    }

    /** `onMessageReceived`: posts what `Route` decides; `crashed` is set when an
        exception ends the handler. */
    method OnMessageReceived(data: map<string, string>, s: Settings, foreground: bool, now: Int64,
                             parse: string -> Option<Json>, traders: seq<Trader>, prapor: Trader, fold: char -> char)
      returns (crashed: bool)
      modifies this
      ensures var o := Route(data, s, foreground, parse, traders, prapor, fold);
              posted == old(posted) + Deliver(o.sends, s, now) && crashed == o.crashed
    {
      crashed := false;
      if |data| == 0 {
        return;
      }
      if "title" in data && "content" in data && "restock" !in data {
        SendNotification(data["title"], data["content"], s, now);
      } else if "data" in data && "restock" !in data {
        var doc := ParseObject(parse, data["data"]);
        if doc.Err? {
          crashed := true;
          return;
        }
        crashed := ReceiveData(doc.value, s, now);
      } else if "restock" in data {
        if !s.globalRestockAlert {
          return;
        }
        if s.globalRestockAlertAppOpen {
          if !foreground {
            return;
          }
        }
        var trader := DecodeRestock(parse, data["restock"], traders, prapor, fold);
        if trader.Err? {
          crashed := true;
          return;
        }
        SendRestockNotification(Lookup(data, "title").GetOr(""), Lookup(data, "content").GetOr(""), trader.value, s);
      }
    }

    /** The `data` branch of `onMessageReceived`, once the document is parsed. */
    method ReceiveData(doc: JsonObject, s: Settings, now: Int64) returns (crashed: bool)
      modifies this
      ensures posted == old(posted) + Deliver(DataRoute(doc, s).sends, s, now)
      ensures crashed == DataRoute(doc, s).crashed
    {
      crashed := false;
      ghost var first: seq<Request> := [];
      if "status" in doc {
        var status := DecodeStatus(doc);
        if status.Err? {
          crashed := true;
          return;
        }
        if s.serverStatusUpdates {
          SendNotification(status.value.0, status.value.1, s, now);
          first := [Plain(status.value.0, status.value.1)];
        }
      }
      if "message" in doc {
        var content := DecodeStatusMessage(doc);
        if content.Err? {
          crashed := true;
          return;
        }
        if s.serverStatusMessages {
          SendNotification(STATUS_MESSAGE_TITLE, content.value, s, now);
          DeliverConcat(first, [Plain(STATUS_MESSAGE_TITLE, content.value)], s, now);
        }
      }
    }
  }

  /** Delivering two lists of calls is delivering one, then the other. */
  lemma DeliverConcat(a: seq<Request>, b: seq<Request>, s: Settings, now: Int64)
    ensures Deliver(a + b, s, now) == Deliver(a, s, now) + Deliver(b, s, now)
  {
    MapConcat(a, b, (r: Request) => ToNotification(r, now));
  }

  // ---- properties ---------------------------------------------------------------

  /** The notifications one message leads to. */
  function Posts(data: map<string, string>, s: Settings, foreground: bool, now: Int64,
                 parse: string -> Option<Json>, traders: seq<Trader>, prapor: Trader, fold: char -> char): seq<Notification>
  {
    Deliver(Route(data, s, foreground, parse, traders, prapor, fold).sends, s, now)
  }

  /** A message without data posts nothing. */
  lemma EmptyMessagePostsNothing(data: map<string, string>, s: Settings, foreground: bool, now: Int64,
                                 parse: string -> Option<Json>, traders: seq<Trader>, prapor: Trader, fold: char -> char)
    requires |data| == 0
    ensures Posts(data, s, foreground, now, parse, traders, prapor, fold) == []
    ensures !Route(data, s, foreground, parse, traders, prapor, fold).crashed
  {
  }

  /** A message with a title and a content and no restock key posts exactly one
      server-status notification carrying them, when notifications are on. */
  lemma TitledMessagePostsOne(data: map<string, string>, s: Settings, foreground: bool, now: Int64,
                              parse: string -> Option<Json>, traders: seq<Trader>, prapor: Trader, fold: char -> char)
    requires "title" in data && "content" in data && "restock" !in data
    requires s.serverStatusNotifications
    ensures Posts(data, s, foreground, now, parse, traders, prapor, fold)
            == [Notification(SERVER_STATUS, Wrap32(now), data["title"], data["content"], ServerStatusScreen)]
  {
    assert |data| > 0 by {
      assert "title" in data.Keys;
    }
  }

  /** With server-status notifications off, no message posts anything. */
  lemma NotificationsOffPostsNothing(data: map<string, string>, s: Settings, foreground: bool, now: Int64,
                                     parse: string -> Option<Json>, traders: seq<Trader>, prapor: Trader, fold: char -> char)
    requires !s.serverStatusNotifications
    ensures Posts(data, s, foreground, now, parse, traders, prapor, fold) == []
  {
  }

  /** A data document leads to a status notification only when status updates
      are on, and to a status-message notification only when status messages are
      on. */
  lemma DataRouteGates(doc: JsonObject, s: Settings)
    ensures !s.serverStatusUpdates ==> forall r :: r in DataRoute(doc, s).sends ==> r == Plain(STATUS_MESSAGE_TITLE, r.message)
    ensures !s.serverStatusMessages ==> forall r :: r in DataRoute(doc, s).sends ==> r.title != STATUS_MESSAGE_TITLE
    ensures !s.serverStatusUpdates && !s.serverStatusMessages ==> DataRoute(doc, s).sends == []
  {
    var o := DataRoute(doc, s);
    if "status" in doc && DecodeStatus(doc).Ok? {
      var st := DecodeStatus(doc).value;
      assert st.0 == STATUS_DOWN_TITLE || st.0 == STATUS_UP_TITLE;
      assert STATUS_DOWN_TITLE != STATUS_MESSAGE_TITLE && STATUS_UP_TITLE != STATUS_MESSAGE_TITLE by {
        assert STATUS_DOWN_TITLE[0] != STATUS_MESSAGE_TITLE[0];
        assert STATUS_UP_TITLE[0] != STATUS_MESSAGE_TITLE[0];
      }
    }
  }

  /** With both flags on, a well-formed document with both parts leads to the
      status notification, titled by the direction of the change, followed by the
      status message. */
  lemma DataRouteBoth(doc: JsonObject, s: Settings)
    requires s.serverStatusUpdates && s.serverStatusMessages
    requires "status" in doc && "message" in doc
    requires DecodeStatus(doc).Ok? && DecodeStatusMessage(doc).Ok?
    ensures DataRoute(doc, s) == Outcome([Plain(DecodeStatus(doc).value.0, DecodeStatus(doc).value.1),
                                          Plain(STATUS_MESSAGE_TITLE, DecodeStatusMessage(doc).value)], false)
    ensures DecodeStatus(doc).value.0 == STATUS_DOWN_TITLE <==> OldStatusCode(doc) > GetInt(GetObject(doc, "status").value, "status").value
  {
  }

  /** A malformed status message after a well-formed status leaves the status
      notification posted: the exception comes after it. */
  lemma MessageErrorKeepsStatus(doc: JsonObject, s: Settings)
    requires s.serverStatusUpdates
    requires "status" in doc && DecodeStatus(doc).Ok?
    requires "message" in doc && DecodeStatusMessage(doc).Err?
    ensures DataRoute(doc, s) == Outcome([Plain(DecodeStatus(doc).value.0, DecodeStatus(doc).value.1)], true)
  {
  }

  /** Restock messages post nothing when restock alerts are off, or when they are
      limited to an open app and the app is not in the foreground. */
  lemma RestockGates(data: map<string, string>, s: Settings, foreground: bool,
                     parse: string -> Option<Json>, traders: seq<Trader>, prapor: Trader, fold: char -> char)
    requires "restock" in data
    requires !s.globalRestockAlert || (s.globalRestockAlertAppOpen && !foreground)
    ensures Route(data, s, foreground, parse, traders, prapor, fold) == Outcome([], false)
  {
    assert |data| > 0 by {
      assert "restock" in data.Keys;
    }
  }

  /** A restock message that gets through its gates names the first trader whose
      id matches the `trader` field ignoring case, "prapor" when the field is
      missing, and PRAPOR when no trader matches. */
  lemma RestockTrader(data: map<string, string>, s: Settings, foreground: bool,
                      parse: string -> Option<Json>, traders: seq<Trader>, prapor: Trader, fold: char -> char)
    requires "restock" in data
    requires s.globalRestockAlert && (s.globalRestockAlertAppOpen ==> foreground)
    requires ParseObject(parse, data["restock"]).Ok?
    requires GetObject(ParseObject(parse, data["restock"]).value, "restock").Ok?
    ensures var inner := GetObject(ParseObject(parse, data["restock"]).value, "restock").value;
            var id := OptString(inner, "trader", DEFAULT_TRADER_ID);
            && ("trader" !in inner ==> id == "prapor")
            && Route(data, s, foreground, parse, traders, prapor, fold)
               == Outcome([Restock(Lookup(data, "title").GetOr(""), Lookup(data, "content").GetOr(""),
                                   PickTrader(traders, prapor, id, fold))], false)
  {
    assert |data| > 0 by {
      assert "restock" in data.Keys;
    }
  }

  /** Some post in `posts` has this id. */
  ghost predicate PostedUnder(posts: seq<Notification>, id: Int32) {
    exists i :: 0 <= i < |posts| && posts[i].id == id
  }

  /** `posts[i]` is the last post under its id. */
  ghost predicate LastUnderItsId(posts: seq<Notification>, i: int) {
    0 <= i < |posts| && forall j :: i < j < |posts| ==> posts[j].id != posts[i].id
  }

  /** The manager shows a notification under exactly the ids posted to. */
  lemma {:induction false} DisplayedKeys(posts: seq<Notification>, id: Int32)
    ensures id in Displayed(posts) <==> PostedUnder(posts, id)
    decreases |posts|
  {
    if posts != [] {
      var prefix := posts[..|posts| - 1];
      var last := posts[|posts| - 1];
      assert Displayed(posts) == Displayed(prefix)[last.id := last];
      DisplayedKeys(prefix, id);
      if id == last.id {
        assert posts[|posts| - 1].id == id;
      } else {
        if PostedUnder(posts, id) {
          var i :| 0 <= i < |posts| && posts[i].id == id;
          assert prefix[i].id == id;
        }
        if PostedUnder(prefix, id) {
          var i :| 0 <= i < |prefix| && prefix[i].id == id;
          assert posts[i].id == id;
        }
      }
    }
  }

  /** Each post replaces what was shown under its id: what is shown under an id
      is the last notification posted under it. */
  lemma {:induction false} DisplayedIsLastPerId(posts: seq<Notification>, id: Int32)
    requires id in Displayed(posts)
    ensures exists i :: LastUnderItsId(posts, i) && posts[i] == Displayed(posts)[id]
    decreases |posts|
  {
    var prefix := posts[..|posts| - 1];
    var last := posts[|posts| - 1];
    assert Displayed(posts) == Displayed(prefix)[last.id := last];
    if id == last.id {
      assert LastUnderItsId(posts, |posts| - 1);
    } else {
      assert id in Displayed(prefix);
      DisplayedIsLastPerId(prefix, id);
      var k :| LastUnderItsId(prefix, k) && prefix[k] == Displayed(prefix)[id];
      assert posts[k] == prefix[k];
      assert prefix[k].id == id;
      assert LastUnderItsId(posts, k);
    }
  }

  lemma DisplayedSnoc(posts: seq<Notification>, n: Notification)
    ensures Displayed(posts + [n]) == Displayed(posts)[n.id := n]
  {
    assert (posts + [n])[..|posts|] == posts;
  }

  /** A second restock notification for the same trader replaces the first: the
      manager then shows one notification under the trader's number, the second. */
  lemma RestockReplacesPrevious(posts: seq<Notification>, s: Settings, now1: Int64, now2: Int64, trader: Trader,
                                title1: string, message1: string, title2: string, message2: string)
    requires s.serverStatusNotifications
    ensures var shown := Displayed(posts + Deliver([Restock(title1, message1, trader)], s, now1)
                                          + Deliver([Restock(title2, message2, trader)], s, now2));
            && shown.Keys == Displayed(posts).Keys + {trader.number}
            && shown[trader.number] == Notification(TRADER_RESTOCK, trader.number, title2, message2, TraderScreen(trader.id))
            && forall id :: id in Displayed(posts) && id != trader.number ==> shown[id] == Displayed(posts)[id]
  {
    var n1 := ToNotification(Restock(title1, message1, trader), now1);
    var n2 := ToNotification(Restock(title2, message2, trader), now2);
    assert Deliver([Restock(title1, message1, trader)], s, now1) == [n1];
    assert Deliver([Restock(title2, message2, trader)], s, now2) == [n2];
    DisplayedSnoc(posts, n1);
    DisplayedSnoc(posts + [n1], n2);
  }
}
