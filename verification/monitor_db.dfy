/** The entry / take-profit / stop-loss monitor database (monitor_db.py): monitored
    stocks, their price history and the notifications raised for them, as three SQLite
    tables held as sequences of rows in rowid order. `CURRENT_TIMESTAMP` is the `now`
    parameter, in seconds. Column values that callers hand over from dictionaries are
    kept as Python values. */
module MonitorDb {
  import opened Common

  /** A row of `monitored_stocks`; `quantConfig` is `Null` where the column is NULL. */
  datatype Monitor = Monitor(
    id: nat, symbol: Value, name: Value, rating: Value, entryRange: Value,
    takeProfit: Value, stopLoss: Value, currentPrice: Option<real>, lastChecked: Option<int>,
    checkInterval: Value, notificationEnabled: Value, tradingHoursOnly: Value,
    quantEnabled: Value, quantConfig: Value, createdAt: int, updatedAt: int)

  /** A row of `price_history`. */
  datatype PriceRecord = PriceRecord(id: nat, stockId: int, price: real, time: int)

  /** A row of `notifications`. */
  datatype Notification = Notification(
    id: nat, stockId: int, kind: string, message: string, triggeredAt: int, sent: bool)

  /** A notification joined with its stock's symbol and name. */
  datatype NotificationView = NotificationView(note: Notification, symbol: Value, name: Value)

  function MonitorId(m: Monitor): nat { m.id }
  function RecordId(r: PriceRecord): nat { r.id }
  function NotificationId(n: Notification): nat { n.id }
  function Triggered(v: NotificationView): int { v.note.triggeredAt }


  // ------------------------------------------------------------ monitored stocks

  /** The row `add_monitored_stock` inserts; a falsy quant configuration is stored as NULL. */
  function NewMonitor(id: nat, symbol: Value, name: Value, rating: Value, entryRange: Value,
                      takeProfit: Value, stopLoss: Value, checkInterval: Value,
                      notificationEnabled: Value, tradingHoursOnly: Value,
                      quantEnabled: Value, quantConfig: Value, now: int): Monitor
  {
    Monitor(id, symbol, name, rating, entryRange, takeProfit, stopLoss, None, None,
            checkInterval, notificationEnabled, tradingHoursOnly, quantEnabled,
            if Truthy(quantConfig) then quantConfig else Null, now, now)
  }

  /** The insert succeeds unless a NOT NULL column gets NULL or a parameter cannot be bound
      (the entry range and quant configuration are JSON text, so always bindable). */
  predicate Insertable(symbol: Value, name: Value, rating: Value, takeProfit: Value, stopLoss: Value,
                       checkInterval: Value, notificationEnabled: Value, tradingHoursOnly: Value,
                       quantEnabled: Value)
  {
    && symbol != Null && name != Null && rating != Null
    && Bindable(symbol) && Bindable(name) && Bindable(rating) && Bindable(takeProfit)
    && Bindable(stopLoss) && Bindable(checkInterval) && Bindable(notificationEnabled)
    && Bindable(tradingHoursOnly) && Bindable(quantEnabled)
  }

  predicate HasStock(ss: seq<Monitor>, id: int) { exists m :: m in ss && m.id == id }

  /** The first row with this id. */
  function StockById(ss: seq<Monitor>, id: int): (r: Option<Monitor>)
    ensures r.Some? <==> HasStock(ss, id)
    ensures r.Some? ==> r.value in ss && r.value.id == id
  {
    if ss == [] then None
    else if ss[0].id == id then Some(ss[0])
    else StockById(ss[1..], id)
  }

  /** `get_monitor_by_code`: the first row (in rowid order) holding this symbol. */
  function MonitorByCode(ss: seq<Monitor>, symbol: Value): (r: Option<Monitor>)
    ensures r.None? <==> forall m :: m in ss ==> m.symbol != symbol
    ensures r.Some? ==> r.value in ss && r.value.symbol == symbol
    ensures r.Some? ==> forall i :: 0 <= i < |ss| && ss[i] != r.value ==>
              ss[i].symbol != symbol || exists j :: 0 <= j < i && ss[j] == r.value
  {
    if ss == [] then None
    else if ss[0].symbol == symbol then Some(ss[0])
    else
      var r := MonitorByCode(ss[1..], symbol);
      assert forall m :: m in ss ==> m == ss[0] || m in ss[1..];
      assert r.Some? ==> forall i :: 1 <= i < |ss| && ss[i] != r.value ==>
        ss[i].symbol != symbol || exists j :: 0 <= j < i && ss[j] == r.value by {
        if r.Some? {
          forall i | 1 <= i < |ss| && ss[i] != r.value && ss[i].symbol == symbol
            ensures exists j :: 0 <= j < i && ss[j] == r.value
          {
            assert ss[1..][i - 1] == ss[i];
            var j :| 0 <= j < i - 1 && ss[1..][j] == r.value;
            assert ss[j + 1] == r.value;
          }
        }
      }
      r
  }

  /** `update_stock_price`'s first statement on every row. */
  function WithPrice(ss: seq<Monitor>, id: int, price: real, now: int): seq<Monitor> {
    seq(|ss|, i requires 0 <= i < |ss| =>
      if ss[i].id == id then ss[i].(currentPrice := Some(price), lastChecked := Some(now)) else ss[i])
  }

  /** `update_last_checked` on every row. */
  function WithChecked(ss: seq<Monitor>, id: int, now: int): seq<Monitor> {
    seq(|ss|, i requires 0 <= i < |ss| =>
      if ss[i].id == id then ss[i].(lastChecked := Some(now)) else ss[i])
  }

  /** Only the row with the given id changes, and only in the named columns: the price
      update refreshes the current price and the check time, the failed-fetch update the
      check time alone. */
  lemma PriceUpdatesTouchOneRow(ss: seq<Monitor>, id: int, price: real, now: int)
    requires DistinctBy(ss, MonitorId)
    ensures |WithPrice(ss, id, price, now)| == |ss| == |WithChecked(ss, id, now)|
    ensures DistinctBy(WithPrice(ss, id, price, now), MonitorId)
    ensures DistinctBy(WithChecked(ss, id, now), MonitorId)
    ensures forall i :: 0 <= i < |ss| && ss[i].id != id ==>
              WithPrice(ss, id, price, now)[i] == ss[i] && WithChecked(ss, id, now)[i] == ss[i]
    ensures forall i :: 0 <= i < |ss| && ss[i].id == id ==>
              && WithPrice(ss, id, price, now)[i].currentPrice == Some(price)
              && WithPrice(ss, id, price, now)[i].lastChecked == Some(now)
              && WithPrice(ss, id, price, now)[i].(currentPrice := ss[i].currentPrice, lastChecked := ss[i].lastChecked) == ss[i]
              && WithChecked(ss, id, now)[i] == ss[i].(lastChecked := Some(now))
              && WithChecked(ss, id, now)[i].currentPrice == ss[i].currentPrice
  {
    var a := WithPrice(ss, id, price, now);
    var b := WithChecked(ss, id, now);
    forall i, j | 0 <= i < j < |ss| ensures a[i].id != a[j].id && b[i].id != b[j].id {
      assert a[i].id == ss[i].id == b[i].id && a[j].id == ss[j].id == b[j].id;
    }
  }

  /** The columns `update_monitored_stock` writes, for the row with that id. */
  function Revised(m: Monitor, rating: Value, entryRange: Value, takeProfit: Value, stopLoss: Value,
                   checkInterval: Value, notificationEnabled: Value, tradingHoursOnly: Value,
                   quantEnabled: Value, quantConfig: Value, now: int): (r: Monitor)
    ensures r.id == m.id && r.symbol == m.symbol && r.name == m.name
    ensures r.currentPrice == m.currentPrice && r.lastChecked == m.lastChecked && r.createdAt == m.createdAt
    ensures r.rating == rating && r.entryRange == entryRange && r.takeProfit == takeProfit
    ensures r.stopLoss == stopLoss && r.checkInterval == checkInterval
    ensures r.notificationEnabled == notificationEnabled && r.updatedAt == now
    ensures r.tradingHoursOnly == if tradingHoursOnly == Null then m.tradingHoursOnly else tradingHoursOnly
    ensures r.quantEnabled == if quantEnabled == Null || quantConfig == Null then m.quantEnabled else quantEnabled
    ensures r.quantConfig == if quantEnabled == Null || quantConfig == Null then m.quantConfig
                             else if Truthy(quantConfig) then quantConfig else Null
  {
    var base := m.(rating := rating, entryRange := entryRange, takeProfit := takeProfit,
                   stopLoss := stopLoss, checkInterval := checkInterval,
                   notificationEnabled := notificationEnabled, updatedAt := now);
    var withQuant :=
      if quantEnabled != Null && quantConfig != Null
      then base.(quantEnabled := quantEnabled, quantConfig := if Truthy(quantConfig) then quantConfig else Null)
      else base;
    if tradingHoursOnly != Null then withQuant.(tradingHoursOnly := tradingHoursOnly) else withQuant
  }

  function WithRevision(ss: seq<Monitor>, id: int, rating: Value, entryRange: Value, takeProfit: Value,
                        stopLoss: Value, checkInterval: Value, notificationEnabled: Value,
                        tradingHoursOnly: Value, quantEnabled: Value, quantConfig: Value, now: int): seq<Monitor>
  {
    seq(|ss|, i requires 0 <= i < |ss| =>
      if ss[i].id == id
      then Revised(ss[i], rating, entryRange, takeProfit, stopLoss, checkInterval,
                   notificationEnabled, tradingHoursOnly, quantEnabled, quantConfig, now)
      else ss[i])
  }

  /** Every parameter of the `UPDATE` can be bound; the quant pair is bound only when both
      are given. */
  predicate RevisionBindable(rating: Value, takeProfit: Value, stopLoss: Value, checkInterval: Value,
                             notificationEnabled: Value, tradingHoursOnly: Value,
                             quantEnabled: Value, quantConfig: Value)
  {
    && Bindable(rating) && Bindable(takeProfit) && Bindable(stopLoss) && Bindable(checkInterval)
    && Bindable(notificationEnabled) && Bindable(tradingHoursOnly)
    && (quantEnabled != Null && quantConfig != Null ==> Bindable(quantEnabled))
  }

  /** A revision keeps every id, so the primary key stays unique. */
  lemma RevisionKeepsIds(ss: seq<Monitor>, id: int, rating: Value, entryRange: Value, takeProfit: Value,
                         stopLoss: Value, checkInterval: Value, notificationEnabled: Value,
                         tradingHoursOnly: Value, quantEnabled: Value, quantConfig: Value, now: int)
    requires DistinctBy(ss, MonitorId)
    ensures var r := WithRevision(ss, id, rating, entryRange, takeProfit, stopLoss, checkInterval,
                                  notificationEnabled, tradingHoursOnly, quantEnabled, quantConfig, now);
      |r| == |ss| && DistinctBy(r, MonitorId) && forall i :: 0 <= i < |ss| ==> r[i].id == ss[i].id
  {
    var r := WithRevision(ss, id, rating, entryRange, takeProfit, stopLoss, checkInterval,
                          notificationEnabled, tradingHoursOnly, quantEnabled, quantConfig, now);
    forall i | 0 <= i < |ss| ensures r[i].id == ss[i].id {
      if ss[i].id == id {
        var m := Revised(ss[i], rating, entryRange, takeProfit, stopLoss, checkInterval,
                         notificationEnabled, tradingHoursOnly, quantEnabled, quantConfig, now);
        assert r[i] == m;
      }
    }
  }

  // ------------------------------------------------------------ notifications

  function IsUnsent(n: Notification): bool { !n.sent }

  function AllSent(ns: seq<Notification>): seq<Notification> {
    seq(|ns|, i requires 0 <= i < |ns| => ns[i].(sent := true))
  }

  function MarkSent(ns: seq<Notification>, id: int): seq<Notification> {
    seq(|ns|, i requires 0 <= i < |ns| => if ns[i].id == id then ns[i].(sent := true) else ns[i])
  }

  /** After marking everything sent nothing is pending and only the flag changed; marking
      one id touches that notification alone. */
  lemma MarkSentOutcome(ns: seq<Notification>, id: int)
    ensures |AllSent(ns)| == |ns| && |MarkSent(ns, id)| == |ns|
    ensures Filter(AllSent(ns), IsUnsent) == []
    ensures forall i :: 0 <= i < |ns| ==> AllSent(ns)[i] == ns[i].(sent := true)
    ensures forall i :: 0 <= i < |ns| && ns[i].id != id ==> MarkSent(ns, id)[i] == ns[i]
    ensures forall i :: 0 <= i < |ns| && ns[i].id == id ==> MarkSent(ns, id)[i] == ns[i].(sent := true)
  {
    var r := AllSent(ns);
    forall n | n in r ensures n.sent { var k :| 0 <= k < |r| && r[k] == n; }
    FilterNone(r, IsUnsent);
  }

  /** Notifications of stock `id` and type `kind` raised strictly after `now - minutes`
      minutes, sent or not. */
  function RecentOf(id: int, kind: string, since: int): Notification -> bool {
    (n: Notification) => n.stockId == id && n.kind == kind && n.triggeredAt > since
  }

  /** `has_recent_notification`: `COUNT(*) > 0` over the window; a negative window
      matches nothing. */
  function HasRecentNotification(ns: seq<Notification>, id: int, kind: string, minutes: int, now: int): (r: bool)
    ensures r <==> minutes >= 0 && exists n :: n in ns && n.stockId == id && n.kind == kind && n.triggeredAt > now - 60 * minutes
  {
    match WindowStart(now, minutes, 60)
    case None => false
    case Some(since) =>
      var hits := Filter(ns, RecentOf(id, kind, since));
      if |hits| > 0 then
        assert hits[0] in hits;
        true
      else
        assert forall n :: n in ns && RecentOf(id, kind, since)(n) ==> n in hits;
        false
  }

  /** A notification joins when its stock row still exists. */
  function Joins(ss: seq<Monitor>): Notification -> bool {
    (n: Notification) => HasStock(ss, n.stockId)
  }

  function PendingIn(ss: seq<Monitor>): Notification -> bool {
    (n: Notification) => !n.sent && HasStock(ss, n.stockId)
  }

  function TriggeredAt(n: Notification): int { n.triggeredAt }

  /** The view carries the symbol and name of the stock the notification refers to. */
  predicate JoinedWith(ss: seq<Monitor>, v: NotificationView) {
    exists m :: m in ss && m.id == v.note.stockId && m.symbol == v.symbol && m.name == v.name
  }

  function View(ss: seq<Monitor>, n: Notification): (v: NotificationView)
    requires HasStock(ss, n.stockId)
    ensures v.note == n && JoinedWith(ss, v)
  {
    var m := StockById(ss, n.stockId).value;
    NotificationView(n, m.symbol, m.name)
  }

  function Views(ss: seq<Monitor>, ns: seq<Notification>): (vs: seq<NotificationView>)
    requires forall n :: n in ns ==> HasStock(ss, n.stockId)
    ensures |vs| == |ns|
    ensures forall i :: 0 <= i < |ns| ==> vs[i].note == ns[i] && JoinedWith(ss, vs[i])
  {
    seq(|ns|, i requires 0 <= i < |ns| => View(ss, ns[i]))
  }

  /** The notifications a list of views shows, in its order. */
  function Notes(vs: seq<NotificationView>): (ns: seq<Notification>)
    ensures |ns| == |vs| && forall i :: 0 <= i < |vs| ==> ns[i] == vs[i].note
  {
    seq(|vs|, i requires 0 <= i < |vs| => vs[i].note)
  }

  /** Sorting the views by trigger time is sorting the notifications. */
  lemma ViewsSorted(ss: seq<Monitor>, ns: seq<Notification>, vs: seq<NotificationView>, newestFirst: bool)
    requires |vs| == |ns| && forall i :: 0 <= i < |ns| ==> vs[i].note == ns[i]
    requires newestFirst ==> SortedBy(ns, NewestFirst(TriggeredAt))
    requires !newestFirst ==> SortedBy(ns, OldestFirst(TriggeredAt))
    ensures newestFirst ==> SortedBy(vs, NewestFirst(Triggered))
    ensures !newestFirst ==> SortedBy(vs, OldestFirst(Triggered))
  {
    forall i, j | 0 <= i < j < |vs| ensures Triggered(vs[i]) == TriggeredAt(ns[i]) && Triggered(vs[j]) == TriggeredAt(ns[j]) { }
  }

  /** `get_pending_notifications`: unsent notifications whose stock still exists, joined
      with it, oldest first. */
  function PendingNotifications(ss: seq<Monitor>, ns: seq<Notification>): (r: seq<NotificationView>)
    ensures |r| == |Filter(ns, PendingIn(ss))|
    ensures forall v :: v in r ==> v.note in ns && !v.note.sent && JoinedWith(ss, v)
    ensures forall n :: n in ns && !n.sent && HasStock(ss, n.stockId) ==> exists v :: v in r && v.note == n
    ensures SortedBy(r, OldestFirst(Triggered))
  {
    KeyOrdersAreTotal(TriggeredAt);
    var sorted := Sort(Filter(ns, PendingIn(ss)), OldestFirst(TriggeredAt));
    var r := Views(ss, sorted);
    ViewsSorted(ss, sorted, r, false);
    PendingViewsComplete(ss, ns, sorted, r);
    r
  }

  lemma PendingViewsComplete(ss: seq<Monitor>, ns: seq<Notification>, sorted: seq<Notification>, r: seq<NotificationView>)
    requires forall n :: n in sorted <==> n in ns && !n.sent && HasStock(ss, n.stockId)
    requires |r| == |sorted| && forall i :: 0 <= i < |r| ==> r[i].note == sorted[i] && JoinedWith(ss, r[i])
    ensures forall v :: v in r ==> v.note in ns && !v.note.sent && JoinedWith(ss, v)
    ensures forall n :: n in ns && !n.sent && HasStock(ss, n.stockId) ==> exists v :: v in r && v.note == n
  {
    forall v | v in r ensures v.note in ns && !v.note.sent && JoinedWith(ss, v) {
      var k :| 0 <= k < |r| && r[k] == v;
      assert sorted[k] in sorted;
    }
    forall n | n in ns && !n.sent && HasStock(ss, n.stockId) ensures exists v :: v in r && v.note == n {
      var k :| 0 <= k < |sorted| && sorted[k] == n;
      assert r[k] in r;
    }
  }

  /** `get_all_recent_notifications`: at most `limit` joined notifications of any state,
      newest first. */
  function RecentNotifications(ss: seq<Monitor>, ns: seq<Notification>, limit: int): (r: seq<NotificationView>)
    ensures limit >= 0 ==> |r| <= limit
    ensures |r| == |Limit(Filter(ns, Joins(ss)), limit)|
    ensures 0 <= limit < |Filter(ns, Joins(ss))| ==> |r| == limit
    ensures forall v :: v in r ==> v.note in ns && JoinedWith(ss, v)
    ensures SortedBy(r, NewestFirst(Triggered))
    ensures forall n, v :: n in ns && HasStock(ss, n.stockId) && n !in Notes(r) && v in r ==>
              v.note.triggeredAt >= n.triggeredAt
    ensures multiset(Notes(r)) <= multiset(Filter(ns, Joins(ss)))
    ensures limit < 0 || limit >= |Filter(ns, Joins(ss))| ==> multiset(Notes(r)) == multiset(Filter(ns, Joins(ss)))
  {
    KeyOrdersAreTotal(TriggeredAt);
    var top := Limit(Sort(Filter(ns, Joins(ss)), NewestFirst(TriggeredAt)), limit);
    RecentViews(ss, ns, limit, top);
    RecentNotes(ss, top);
    Views(ss, top)
  }

  /** The views of a list of joined notifications show exactly those notifications. */
  lemma RecentNotes(ss: seq<Monitor>, top: seq<Notification>)
    requires forall n :: n in top ==> HasStock(ss, n.stockId)
    ensures Notes(Views(ss, top)) == top
  {
  }

  lemma RecentViews(ss: seq<Monitor>, ns: seq<Notification>, limit: int, top: seq<Notification>)
    requires TotalPreorder(NewestFirst(TriggeredAt))
    requires top == Limit(Sort(Filter(ns, Joins(ss)), NewestFirst(TriggeredAt)), limit)
    ensures |top| == |Limit(Filter(ns, Joins(ss)), limit)|
    ensures forall n :: n in top ==> HasStock(ss, n.stockId)
    ensures forall v :: v in Views(ss, top) ==> v.note in ns && JoinedWith(ss, v)
    ensures SortedBy(Views(ss, top), NewestFirst(Triggered))
    ensures forall n, v :: n in ns && HasStock(ss, n.stockId) && n !in Notes(Views(ss, top)) && v in Views(ss, top)
              ==> v.note.triggeredAt >= n.triggeredAt
  {
    var sorted := Sort(Filter(ns, Joins(ss)), NewestFirst(TriggeredAt));
    LimitSorted(sorted, limit, NewestFirst(TriggeredAt));
    LimitKeepsNewest(sorted, limit, TriggeredAt);
    assert forall n :: n in top ==> n in sorted;
    var r := Views(ss, top);
    RecentViewsNewest(ss, ns, sorted, top);
    ViewsSorted(ss, top, r, true);
    JoinedViews(ss, ns, top);
  }

  /** Every view of joined notifications shows one of them, with its stock. */
  lemma JoinedViews(ss: seq<Monitor>, ns: seq<Notification>, top: seq<Notification>)
    requires forall n :: n in top ==> n in ns && HasStock(ss, n.stockId)
    ensures forall v :: v in Views(ss, top) ==> v.note in ns && JoinedWith(ss, v)
  {
    var r := Views(ss, top);
    forall v | v in r ensures v.note in ns && JoinedWith(ss, v) {
      var k :| 0 <= k < |r| && r[k] == v;
      assert top[k] in top;
    }
  }

  /** A joined notification left out of the views is no newer than any view kept. */
  lemma RecentViewsNewest(ss: seq<Monitor>, ns: seq<Notification>, sorted: seq<Notification>, top: seq<Notification>)
    requires forall n :: n in sorted <==> n in ns && HasStock(ss, n.stockId)
    requires forall n :: n in top ==> HasStock(ss, n.stockId)
    requires forall n, m :: n in sorted && n !in top && m in top ==> TriggeredAt(m) >= TriggeredAt(n)
    ensures forall n, v :: n in ns && HasStock(ss, n.stockId) && n !in Notes(Views(ss, top)) && v in Views(ss, top)
              ==> v.note.triggeredAt >= n.triggeredAt
  {
    var r := Views(ss, top);
    assert Notes(r) == top;
    forall n, v | n in ns && HasStock(ss, n.stockId) && n !in top && v in r
      ensures v.note.triggeredAt >= n.triggeredAt
    {
      var k :| 0 <= k < |r| && r[k] == v;
      assert top[k] in top;
    }
  }

  // ------------------------------------------------------------ removal

  function NotOfStock(id: int): PriceRecord -> bool { (r: PriceRecord) => r.stockId != id }
  function NotAbout(id: int): Notification -> bool { (n: Notification) => n.stockId != id }
  function NotWithId(id: int): Monitor -> bool { (m: Monitor) => m.id != id }

  /** The three deletes of `remove_monitored_stock` leave nothing referring to the stock,
      keep every other row, and report whether the stock row existed. */
  lemma RemovalOutcome(ss: seq<Monitor>, hs: seq<PriceRecord>, ns: seq<Notification>, id: int)
    ensures forall r :: r in Filter(hs, NotOfStock(id)) <==> r in hs && r.stockId != id
    ensures forall n :: n in Filter(ns, NotAbout(id)) <==> n in ns && n.stockId != id
    ensures forall m :: m in Filter(ss, NotWithId(id)) <==> m in ss && m.id != id
    ensures !HasStock(Filter(ss, NotWithId(id)), id)
    ensures |Filter(ss, NotWithId(id))| < |ss| <==> HasStock(ss, id)
  {
    FilterShrinks(ss, NotWithId(id));
  }

  /** A `DELETE` removes rows exactly when some row matches. */
  lemma {:induction false} FilterShrinks<T(!new)>(s: seq<T>, keep: T -> bool)
    ensures |Filter(s, keep)| < |s| <==> exists x :: x in s && !keep(x)
    decreases |s|
  {
    if s != [] {
      FilterShrinks(s[1..], keep);
      assert forall x :: x in s <==> x == s[0] || x in s[1..];
    }
  }

  // ------------------------------------------------------------ batch sync

  datatype Store = Store(stocks: seq<Monitor>, nextId: nat)

  datatype Tally = Tally(added: nat, updated: nat, failed: nat)

  /** How one entry of `batch_add_or_update_monitors` ends. */
  datatype EntryOutcome = Incomplete | Updated | Added | Errored

  /** The fields the loop reads from one entry. */
  datatype Entry = Entry(
    symbol: Value, name: Value, rating: Value, entryMin: Value, entryMax: Value,
    takeProfit: Value, stopLoss: Value, checkInterval: Value, notificationEnabled: Value,
    tradingHoursOnly: Value)

  function ReadEntry(d: map<string, Value>): (e: Entry)
    ensures e.symbol == Or(Get(d, "code"), Get(d, "symbol"))
  {
    var symbol := Or(Get(d, "code"), Get(d, "symbol"));
    Entry(symbol, GetOr(d, "name", symbol), GetOr(d, "rating", Str("持有")),
          Get(d, "entry_min"), Get(d, "entry_max"), Get(d, "take_profit"), Get(d, "stop_loss"),
          GetOr(d, "check_interval", Int(60)), GetOr(d, "notification_enabled", Bool(true)),
          GetOr(d, "trading_hours_only", Bool(true)))
  }

  predicate Complete(e: Entry) {
    Truthy(e.symbol) && Truthy(e.entryMin) && Truthy(e.entryMax) && Truthy(e.takeProfit) && Truthy(e.stopLoss)
  }

  function RangeOf(e: Entry): Value { Dict(map["min" := e.entryMin, "max" := e.entryMax]) }

  /** One iteration of the loop: its outcome and the table after it. */
  function Step(st: Store, d: map<string, Value>, now: int): (EntryOutcome, Store) {
    var e := ReadEntry(d);
    if !Complete(e) then (Incomplete, st)
    else match MonitorByCode(st.stocks, e.symbol)
      case Some(m) =>
        if !RevisionBindable(e.rating, e.takeProfit, e.stopLoss, e.checkInterval,
                             e.notificationEnabled, e.tradingHoursOnly, Null, Null)
           || e.rating == Null
        then (Errored, st)
        else (Updated, Store(WithRevision(st.stocks, m.id, e.rating, RangeOf(e), e.takeProfit, e.stopLoss,
                                          e.checkInterval, e.notificationEnabled, e.tradingHoursOnly,
                                          Null, Null, now), st.nextId))
      case None =>
        if !Insertable(e.symbol, e.name, e.rating, e.takeProfit, e.stopLoss, e.checkInterval,
                       e.notificationEnabled, e.tradingHoursOnly, Bool(false))
        then (Errored, st)
        else (Added, Store(st.stocks + [NewMonitor(st.nextId, e.symbol, e.name, e.rating, RangeOf(e),
                                                   e.takeProfit, e.stopLoss, e.checkInterval,
                                                   e.notificationEnabled, e.tradingHoursOnly,
                                                   Bool(false), Null, now)],
                           st.nextId + 1))
  }

  function Count(t: Tally, o: EntryOutcome): Tally {
    match o
    case Added => t.(added := t.added + 1)
    case Updated => t.(updated := t.updated + 1)
    case _ => t.(failed := t.failed + 1)
  }

  /** The loop over the whole batch, entry by entry. */
  function Sync(st: Store, ds: seq<map<string, Value>>, now: int): (Tally, Store)
    decreases |ds|
  {
    if ds == [] then (Tally(0, 0, 0), st)
    else
      var (t, s) := Sync(st, ds[..|ds| - 1], now);
      var (o, s') := Step(s, ds[|ds| - 1], now);
      (Count(t, o), s')
  }

  /** One more entry counts its outcome and continues from the store it leaves. */
  lemma SyncSnoc(st: Store, ds: seq<map<string, Value>>, i: nat, now: int)
    requires i < |ds|
    ensures Sync(st, ds[..i + 1], now).0 == Count(Sync(st, ds[..i], now).0, Step(Sync(st, ds[..i], now).1, ds[i], now).0)
    ensures Sync(st, ds[..i + 1], now).1 == Step(Sync(st, ds[..i], now).1, ds[i], now).1
  {
    assert ds[..i + 1][..i] == ds[..i];
  }

  /** Every entry lands in exactly one counter. */
  lemma {:induction false} SyncAccountsForEveryEntry(st: Store, ds: seq<map<string, Value>>, now: int)
    ensures var t := Sync(st, ds, now).0; t.added + t.updated + t.failed == |ds|
    decreases |ds|
  {
    if ds != [] {
      SyncAccountsForEveryEntry(st, ds[..|ds| - 1], now);
    }
  }

  /** After a successful entry its symbol is monitored, and an incomplete or failed entry
      changes nothing. */
  lemma StepOutcome(st: Store, d: map<string, Value>, now: int)
    requires DistinctBy(st.stocks, MonitorId)
    ensures var (o, s) := Step(st, d, now);
      && (o == Incomplete <==> !Complete(ReadEntry(d)))
      && (o == Incomplete || o == Errored ==> s == st)
      && (o == Added || o == Updated ==> exists m :: m in s.stocks && m.symbol == ReadEntry(d).symbol)
      && (o == Added <==> Complete(ReadEntry(d)) && MonitorByCode(st.stocks, ReadEntry(d).symbol).None?
                          && s.stocks != st.stocks)
      && |s.stocks| >= |st.stocks|
  {
    var e := ReadEntry(d);
    var (o, s) := Step(st, d, now);
    if o == Updated {
      var m := MonitorByCode(st.stocks, e.symbol).value;
      RevisionKeepsIds(st.stocks, m.id, e.rating, RangeOf(e), e.takeProfit, e.stopLoss, e.checkInterval,
                      e.notificationEnabled, e.tradingHoursOnly, Null, Null, now);
      var k :| 0 <= k < |st.stocks| && st.stocks[k] == m;
      assert s.stocks[k] in s.stocks;
    }
    if o == Added {
      assert s.stocks[|s.stocks| - 1] in s.stocks;
      assert |s.stocks| != |st.stocks|;
    }
  }

  // ------------------------------------------------------------ the database

  class StockMonitorDatabase {
    var stocks: seq<Monitor>
    var history: seq<PriceRecord>
    var notifications: seq<Notification>
    var nextStockId: nat
    var nextRecordId: nat
    var nextNotificationId: nat

    ghost predicate Valid()
      reads this
    {
      && DistinctBy(stocks, MonitorId) && (forall m :: m in stocks ==> m.id < nextStockId)
      && DistinctBy(history, RecordId) && (forall r :: r in history ==> r.id < nextRecordId)
      && DistinctBy(notifications, NotificationId)
      && (forall n :: n in notifications ==> n.id < nextNotificationId)
    }

    constructor ()
      ensures Valid() && stocks == [] && history == [] && notifications == []
    {
      stocks, history, notifications := [], [], [];
      nextStockId, nextRecordId, nextNotificationId := 1, 1, 1;
    }

    /** `add_monitored_stock`: appends one row and returns its id, or raises (here: `None`)
        when the row cannot be inserted. */
    method AddMonitoredStock(symbol: Value, name: Value, rating: Value, entryRange: Value,
                             takeProfit: Value, stopLoss: Value, checkInterval: Value,
                             notificationEnabled: Value, tradingHoursOnly: Value,
                             quantEnabled: Value, quantConfig: Value, now: int)
      returns (id: Option<nat>)
      requires Valid()
      modifies this
      ensures Valid() && history == old(history) && notifications == old(notifications)
      ensures id.Some? <==> Insertable(symbol, name, rating, takeProfit, stopLoss, checkInterval,
                                       notificationEnabled, tradingHoursOnly, quantEnabled)
      ensures id.None? ==> stocks == old(stocks) && nextStockId == old(nextStockId)
      ensures id.Some? ==> id.value == old(nextStockId) && !HasStock(old(stocks), id.value)
      ensures id.Some? ==> nextStockId == old(nextStockId) + 1
      ensures id.Some? ==> stocks == old(stocks) + [NewMonitor(id.value, symbol, name, rating, entryRange,
                              takeProfit, stopLoss, checkInterval, notificationEnabled, tradingHoursOnly,
                              quantEnabled, quantConfig, now)]
    {
      if !Insertable(symbol, name, rating, takeProfit, stopLoss, checkInterval,
                     notificationEnabled, tradingHoursOnly, quantEnabled) {
        return None;
      }
      var row := NewMonitor(nextStockId, symbol, name, rating, entryRange, takeProfit, stopLoss,
                            checkInterval, notificationEnabled, tradingHoursOnly, quantEnabled, quantConfig, now);
      AppendDistinctBy(stocks, row, MonitorId);
      stocks := stocks + [row];
      id := Some(nextStockId);
      nextStockId := nextStockId + 1;
    }

    /** `update_stock_price`: refreshes the stock's price and check time and always appends
        exactly one price-history row, even for an id with no stock. */
    method UpdateStockPrice(id: int, price: real, now: int)
      requires Valid()
      modifies this
      ensures Valid() && notifications == old(notifications) && nextStockId == old(nextStockId)
      ensures stocks == WithPrice(old(stocks), id, price, now)
      ensures history == old(history) + [PriceRecord(old(nextRecordId), id, price, now)]
    {
      PriceUpdatesTouchOneRow(stocks, id, price, now);
      stocks := WithPrice(stocks, id, price, now);
      var r := PriceRecord(nextRecordId, id, price, now);
      AppendDistinctBy(history, r, RecordId);
      history := history + [r];
      nextRecordId := nextRecordId + 1;
      forall m | m in stocks ensures m.id < nextStockId {
        var k :| 0 <= k < |stocks| && stocks[k] == m;
        assert old(stocks)[k] in old(stocks);
      }
    }

    /** `update_last_checked`: only the check time of that stock; no history row. */
    method UpdateLastChecked(id: int, now: int)
      requires Valid()
      modifies this
      ensures Valid() && history == old(history) && notifications == old(notifications)
      ensures stocks == WithChecked(old(stocks), id, now)
    {
      PriceUpdatesTouchOneRow(stocks, id, 0.0, now);
      stocks := WithChecked(stocks, id, now);
      forall m | m in stocks ensures m.id < nextStockId {
        var k :| 0 <= k < |stocks| && stocks[k] == m;
        assert old(stocks)[k] in old(stocks);
      }
    }

    /** `add_notification`: appends one unsent notification; no duplicate check. */
    method AddNotification(stockId: int, kind: string, message: string, now: int)
      requires Valid()
      modifies this
      ensures Valid() && stocks == old(stocks) && history == old(history)
      ensures notifications == old(notifications) + [Notification(old(nextNotificationId), stockId, kind, message, now, false)]
    {
      var n := Notification(nextNotificationId, stockId, kind, message, now, false);
      AppendDistinctBy(notifications, n, NotificationId);
      notifications := notifications + [n];
      nextNotificationId := nextNotificationId + 1;
    }

    /** `mark_notification_sent` */
    method MarkNotificationSent(id: int)
      requires Valid()
      modifies this
      ensures Valid() && stocks == old(stocks) && history == old(history)
      ensures notifications == MarkSent(old(notifications), id)
    {
      var r := MarkSent(notifications, id);
      assert DistinctBy(r, NotificationId) by {
        forall i, j | 0 <= i < j < |r| ensures r[i].id != r[j].id {
          assert r[i].id == notifications[i].id && r[j].id == notifications[j].id;
        }
      }
      forall n | n in r ensures n.id < nextNotificationId {
        var k :| 0 <= k < |r| && r[k] == n;
        assert notifications[k] in notifications;
      }
      notifications := r;
    }

    /** `mark_all_notifications_sent`: flips every unsent notification and returns how many
        there were. */
    method MarkAllNotificationsSent() returns (count: nat)
      requires Valid()
      modifies this
      ensures Valid() && stocks == old(stocks) && history == old(history)
      ensures count == |Filter(old(notifications), IsUnsent)|
      ensures notifications == AllSent(old(notifications))
      ensures Filter(notifications, IsUnsent) == []
    {
      count := |Filter(notifications, IsUnsent)|;
      MarkSentOutcome(notifications, 0);
      var r := AllSent(notifications);
      assert DistinctBy(r, NotificationId) by {
        forall i, j | 0 <= i < j < |r| ensures r[i].id != r[j].id {
          assert r[i].id == notifications[i].id && r[j].id == notifications[j].id;
        }
      }
      forall n | n in r ensures n.id < nextNotificationId {
        var k :| 0 <= k < |r| && r[k] == n;
        assert notifications[k] in notifications;
      }
      notifications := r;
    }

    /** `clear_all_notifications`: deletes every notification and returns how many. */
    method ClearAllNotifications() returns (count: nat)
      requires Valid()
      modifies this
      ensures Valid() && stocks == old(stocks) && history == old(history)
      ensures count == |old(notifications)| && notifications == []
    {
      count := |notifications|;
      notifications := [];
    }

    /** `remove_monitored_stock`: deletes the stock's price history, then its notifications,
        then the stock row; true exactly when the stock row existed. */
    method RemoveMonitoredStock(id: int) returns (removed: bool)
      requires Valid()
      modifies this
      ensures Valid()
      ensures history == Filter(old(history), NotOfStock(id))
      ensures notifications == Filter(old(notifications), NotAbout(id))
      ensures stocks == Filter(old(stocks), NotWithId(id))
      ensures removed <==> HasStock(old(stocks), id)
    {
      RemovalOutcome(stocks, history, notifications, id);
      FilterDistinctBy(history, NotOfStock(id), RecordId);
      FilterDistinctBy(notifications, NotAbout(id), NotificationId);
      FilterDistinctBy(stocks, NotWithId(id), MonitorId);
      history := Filter(history, NotOfStock(id));
      notifications := Filter(notifications, NotAbout(id));
      var before := |stocks|;
      stocks := Filter(stocks, NotWithId(id));
      removed := |stocks| < before;
    }

    /** `update_monitored_stock`: revises the row with that id, or raises (here: `None`)
        when a parameter cannot be bound or the rating of an existing row would become NULL;
        otherwise true exactly when the row exists. */
    method UpdateMonitoredStock(id: int, rating: Value, entryRange: Value, takeProfit: Value,
                                stopLoss: Value, checkInterval: Value, notificationEnabled: Value,
                                tradingHoursOnly: Value, quantEnabled: Value, quantConfig: Value, now: int)
      returns (updated: Option<bool>)
      requires Valid()
      modifies this
      ensures Valid() && history == old(history) && notifications == old(notifications)
      ensures nextStockId == old(nextStockId)
      ensures updated.None? <==>
                !RevisionBindable(rating, takeProfit, stopLoss, checkInterval, notificationEnabled,
                                  tradingHoursOnly, quantEnabled, quantConfig)
                || (HasStock(old(stocks), id) && rating == Null)
      ensures updated.None? ==> stocks == old(stocks)
      ensures updated.Some? ==> updated.value == HasStock(old(stocks), id)
      ensures updated.Some? ==> stocks == WithRevision(old(stocks), id, rating, entryRange, takeProfit,
                                  stopLoss, checkInterval, notificationEnabled, tradingHoursOnly,
                                  quantEnabled, quantConfig, now)
    {
      if !RevisionBindable(rating, takeProfit, stopLoss, checkInterval, notificationEnabled,
                           tradingHoursOnly, quantEnabled, quantConfig)
         || (HasStock(stocks, id) && rating == Null) {
        return None;
      }
      RevisionKeepsIds(stocks, id, rating, entryRange, takeProfit, stopLoss, checkInterval,
                      notificationEnabled, tradingHoursOnly, quantEnabled, quantConfig, now);
      var exists_ := HasStock(stocks, id);
      stocks := WithRevision(stocks, id, rating, entryRange, takeProfit, stopLoss, checkInterval,
                             notificationEnabled, tradingHoursOnly, quantEnabled, quantConfig, now);
      forall m | m in stocks ensures m.id < nextStockId {
        var k :| 0 <= k < |stocks| && stocks[k] == m;
        assert old(stocks)[k] in old(stocks);
      }
      return Some(exists_);
    }

    /** `toggle_notification`: sets the notification switch of that stock and stamps it;
        true exactly when the row exists. */
    method ToggleNotification(id: int, enabled: Value, now: int) returns (found: bool)
      requires Valid() && Bindable(enabled)
      modifies this
      ensures Valid() && history == old(history) && notifications == old(notifications)
      ensures found <==> HasStock(old(stocks), id)
      ensures |stocks| == |old(stocks)|
      ensures forall i :: 0 <= i < |stocks| ==>
                stocks[i] == if old(stocks)[i].id == id
                             then old(stocks)[i].(notificationEnabled := enabled, updatedAt := now)
                             else old(stocks)[i]
    {
      found := HasStock(stocks, id);
      var ss := stocks;
      var r := seq(|ss|, i requires 0 <= i < |ss| =>
        if ss[i].id == id then ss[i].(notificationEnabled := enabled, updatedAt := now) else ss[i]);
      assert forall i :: 0 <= i < |r| ==> r[i].id == ss[i].id;
      forall m | m in r ensures m.id < nextStockId {
        var k :| 0 <= k < |r| && r[k] == m;
        assert ss[k] in ss;
      }
      stocks := r;
    }

    /** The body of the batch loop for one entry. */
    method ApplyEntry(d: map<string, Value>, now: int) returns (outcome: EntryOutcome)
      requires Valid()
      modifies this
      ensures Valid() && history == old(history) && notifications == old(notifications)
      ensures (outcome, Store(stocks, nextStockId)) == Step(Store(old(stocks), old(nextStockId)), d, now)
    {
      var e := ReadEntry(d);
      if !Complete(e) {
        return Incomplete;
      }
      var existing := MonitorByCode(stocks, e.symbol);
      if existing.Some? {
        assert HasStock(stocks, existing.value.id);
        var ok := UpdateMonitoredStock(existing.value.id, e.rating, RangeOf(e), e.takeProfit, e.stopLoss,
                                       e.checkInterval, e.notificationEnabled, e.tradingHoursOnly,
                                       Null, Null, now);
        outcome := if ok.Some? then Updated else Errored;
      } else {
        var id := AddMonitoredStock(e.symbol, e.name, e.rating, RangeOf(e), e.takeProfit, e.stopLoss,
                                    e.checkInterval, e.notificationEnabled, e.tradingHoursOnly,
                                    Bool(false), Null, now);
        outcome := if id.Some? then Added else Errored;
      }
    }

    /** One entry of the batch, counted into `tally`. */
    method ApplyCounted(d: map<string, Value>, now: int, tally: Tally) returns (counted: Tally)
      requires Valid()
      modifies this
      ensures Valid() && history == old(history) && notifications == old(notifications)
      ensures counted == Count(tally, Step(Store(old(stocks), old(nextStockId)), d, now).0)
      ensures Store(stocks, nextStockId) == Step(Store(old(stocks), old(nextStockId)), d, now).1
    {
      var outcome := ApplyEntry(d, now);
      match outcome {
        case Added => counted := tally.(added := tally.added + 1);
        case Updated => counted := tally.(updated := tally.updated + 1);
        case _ => counted := tally.(failed := tally.failed + 1);
      }
    }

    /** `batch_add_or_update_monitors`: each entry is skipped as incomplete, updates the
        first monitor with its symbol, or adds a new one; an entry whose write raises is
        counted as failed. The counters always add up to the number of entries. */
    method BatchAddOrUpdate(entries: seq<map<string, Value>>, now: int)
      returns (added: nat, updated: nat, failed: nat, total: nat)
      requires Valid()
      modifies this
      ensures Valid() && history == old(history) && notifications == old(notifications)
      ensures (Tally(added, updated, failed), Store(stocks, nextStockId))
              == Sync(Store(old(stocks), old(nextStockId)), entries, now)
      ensures total == added + updated + failed == |entries|
    {
      added, updated, failed := 0, 0, 0;
      ghost var start := Store(stocks, nextStockId);
      var i := 0;
      while i < |entries|
        invariant 0 <= i <= |entries|
        invariant Valid() && history == old(history) && notifications == old(notifications)
        invariant Sync(start, entries[..i], now).0 == Tally(added, updated, failed)
        invariant Sync(start, entries[..i], now).1 == Store(stocks, nextStockId)
      {
        SyncSnoc(start, entries, i, now);
        var tally := ApplyCounted(entries[i], now, Tally(added, updated, failed));
        added, updated, failed := tally.added, tally.updated, tally.failed;
        i := i + 1;
      }
      assert entries[..|entries|] == entries;
      SyncAccountsForEveryEntry(start, entries, now);
      total := added + updated + failed;
    }
  }
}
