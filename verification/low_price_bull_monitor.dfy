/** The position store and sell-alert store of the low-price-bull strategy
    (low_price_bull_monitor.py): two SQLite tables held as sequences of rows in
    insertion order. The clock is a parameter: an instant in seconds, whose day
    number is `Day`; buy dates are "YYYY-MM-DD" text read by an injected parser. */
module LowPriceBull {
  import opened Common

  datatype Status = Holding | Removed

  /** A row of `monitored_stocks`. */
  datatype Position = Position(
    id: nat, code: string, name: string, buyPrice: real, buyDate: string,
    holdingDays: int, status: Status, addTime: int,
    removeTime: Option<int>, removeReason: Option<string>)

  /** A row of `sell_alerts`. */
  datatype SellAlert = SellAlert(
    id: nat, code: string, name: string, alertType: string, reason: string,
    price: Option<real>, ma5: Option<real>, ma20: Option<real>, holdingDays: Option<int>,
    time: int, sent: bool)

  /** The calendar day of an instant given in seconds. */
  function Day(t: int): int { t / 86400 }

  function PositionKey(p: Position): (string, Status) { (p.code, p.status) }
  function PositionId(p: Position): nat { p.id }
  function AlertId(a: SellAlert): nat { a.id }
  function AddTime(p: Position): int { p.addTime }
  function AlertTime(a: SellAlert): int { a.time }

  /** `UNIQUE(stock_code, status)`. */
  predicate KeysDistinct(ps: seq<Position>) { DistinctBy(ps, PositionKey) }

  predicate HasHolding(ps: seq<Position>, code: string) {
    exists p :: p in ps && p.code == code && p.status == Holding
  }

  predicate HasPending(alerts: seq<SellAlert>, code: string, alertType: string) {
    exists a :: a in alerts && a.code == code && a.alertType == alertType && !a.sent
  }

  /** At most one unsent alert per (stock_code, alert_type): what the duplicate check in
      `add_sell_alert` maintains. */
  predicate PendingDistinct(alerts: seq<SellAlert>) {
    forall i, j :: 0 <= i < j < |alerts| && !alerts[i].sent && !alerts[j].sent ==>
      (alerts[i].code, alerts[i].alertType) != (alerts[j].code, alerts[j].alertType)
  }

  // ------------------------------------------------------------ removal

  /** The `DELETE ... WHERE stock_code = ? AND status = 'removed'` step. */
  function WithoutRemoved(ps: seq<Position>, code: string): seq<Position> {
    Filter(ps, NotRemovedRowOf(code))
  }

  function NotRemovedRowOf(code: string): Position -> bool {
    (p: Position) => !(p.code == code && p.status == Removed)
  }

  predicate IsHolding(p: Position) { p.status == Holding }

  predicate IsUnsent(a: SellAlert) { !a.sent }

  function Flip(p: Position, code: string, now: int, reason: string): Position {
    if p.code == code && p.status == Holding
    then p.(status := Removed, removeTime := Some(now), removeReason := Some(reason))
    else p
  }

  /** The `UPDATE ... SET status = 'removed'` step. */
  function FlipHolding(ps: seq<Position>, code: string, now: int, reason: string): seq<Position> {
    seq(|ps|, i requires 0 <= i < |ps| => Flip(ps[i], code, now, reason))
  }

  /** The table after a successful `remove_stock`. */
  function AfterRemove(ps: seq<Position>, code: string, now: int, reason: string): seq<Position> {
    FlipHolding(WithoutRemoved(ps, code), code, now, reason)
  }

  /** A removal keeps the ids of the rows it keeps. */
  lemma RemoveKeepsIds(ps: seq<Position>, code: string, now: int, reason: string, next: int)
    requires DistinctBy(ps, PositionId) && forall p :: p in ps ==> p.id < next
    ensures DistinctBy(AfterRemove(ps, code, now, reason), PositionId)
    ensures forall p :: p in AfterRemove(ps, code, now, reason) ==> p.id < next
  {
    var remaining := WithoutRemoved(ps, code);
    FilterDistinctBy(ps, NotRemovedRowOf(code), PositionId);
    var r := FlipHolding(remaining, code, now, reason);
    forall i, j | 0 <= i < j < |r| ensures r[i].id != r[j].id {
      assert r[i].id == remaining[i].id && r[j].id == remaining[j].id;
    }
    forall p | p in r ensures p.id < next {
      var i :| 0 <= i < |r| && r[i] == p;
      assert remaining[i] in remaining;
    }
  }

  /** A successful removal leaves the code with no holding row and with exactly one removed
      row, the former holding row carrying the removal time and reason; the key stays
      unique and the rows of every other code are untouched. */
  lemma RemoveOutcome(ps: seq<Position>, code: string, now: int, reason: string, held: Position)
    requires KeysDistinct(ps)
    requires held in ps && held.code == code && held.status == Holding
    ensures var r := AfterRemove(ps, code, now, reason);
      && KeysDistinct(r)
      && !HasHolding(r, code)
      && held.(status := Removed, removeTime := Some(now), removeReason := Some(reason)) in r
      && (forall p :: p in r && p.code == code ==> p.status == Removed && p.id == held.id)
      && (forall p: Position :: p.code != code ==> (p in r <==> p in ps))
      && |r| <= |ps|
  {
    var f := WithoutRemoved(ps, code);
    var r := FlipHolding(f, code, now, reason);
    FilterDistinctBy(ps, NotRemovedRowOf(code), PositionKey);
    assert held in f;
    var k :| 0 <= k < |f| && f[k] == held;
    assert r[k] == held.(status := Removed, removeTime := Some(now), removeReason := Some(reason));
    forall i, j | 0 <= i < j < |r| ensures PositionKey(r[i]) != PositionKey(r[j]) {
      assert PositionKey(f[i]) != PositionKey(f[j]);
      assert f[i] in f && f[j] in f;
    }
    forall p | p in r && p.code == code ensures p.status == Removed && p.id == held.id {
      var i :| 0 <= i < |r| && r[i] == p;
      assert f[i] in f;
      assert PositionKey(f[i]) == PositionKey(f[k]);
      assert i == k;
    }
    forall p: Position | p.code != code ensures p in r <==> p in ps {
      if p in r { var i :| 0 <= i < |r| && r[i] == p; assert f[i] in f; }
      if p in ps { assert p in f; var i :| 0 <= i < |f| && f[i] == p; assert r[i] == p; }
    }
  }

  // ------------------------------------------------------------ holding days

  /** Every holding row's buy date can be read (otherwise the update raises). */
  predicate AllDatesParse(ps: seq<Position>, parseDate: string -> Option<int>) {
    forall p :: p in ps && p.status == Holding ==> parseDate(p.buyDate).Some?
  }

  function Recomputed(p: Position, today: int, parseDate: string -> Option<int>): Position {
    if p.status == Holding && parseDate(p.buyDate).Some?
    then p.(holdingDays := today - parseDate(p.buyDate).value)
    else p
  }

  /** The table after `update_holding_days` commits. */
  function WithHoldingDays(ps: seq<Position>, today: int, parseDate: string -> Option<int>): seq<Position> {
    seq(|ps|, i requires 0 <= i < |ps| => Recomputed(ps[i], today, parseDate))
  }

  /** The update keeps every row's id. */
  lemma HoldingDaysKeepIds(ps: seq<Position>, today: int, parseDate: string -> Option<int>, next: int)
    requires DistinctBy(ps, PositionId) && forall p :: p in ps ==> p.id < next
    ensures DistinctBy(WithHoldingDays(ps, today, parseDate), PositionId)
    ensures forall p :: p in WithHoldingDays(ps, today, parseDate) ==> p.id < next
  {
    var r := WithHoldingDays(ps, today, parseDate);
    forall a, b | 0 <= a < b < |r| ensures r[a].id != r[b].id {
      assert r[a].id == ps[a].id && r[b].id == ps[b].id;
    }
    forall p | p in r ensures p.id < next {
      var k :| 0 <= k < |r| && r[k] == p;
      assert ps[k] in ps;
    }
  }

  /** After the update, each holding row holds the whole days from its buy date to today,
      negative for a future buy date (no clamp); removed rows and every other column are
      unchanged, so the key stays unique. */
  lemma HoldingDaysOutcome(ps: seq<Position>, today: int, parseDate: string -> Option<int>)
    requires AllDatesParse(ps, parseDate)
    requires KeysDistinct(ps)
    ensures var r := WithHoldingDays(ps, today, parseDate);
      && |r| == |ps|
      && KeysDistinct(r)
      && (forall i :: 0 <= i < |ps| && ps[i].status == Holding ==>
            r[i] == ps[i].(holdingDays := today - parseDate(ps[i].buyDate).value))
      && (forall i :: 0 <= i < |ps| && ps[i].status == Removed ==> r[i] == ps[i])
  {
    var r := WithHoldingDays(ps, today, parseDate);
    forall i, j | 0 <= i < j < |r| ensures PositionKey(r[i]) != PositionKey(r[j]) {
      assert PositionKey(r[i]) == PositionKey(ps[i]) && PositionKey(r[j]) == PositionKey(ps[j]);
    }
    forall i | 0 <= i < |ps| && ps[i].status == Holding
      ensures r[i] == ps[i].(holdingDays := today - parseDate(ps[i].buyDate).value)
    {
      assert ps[i] in ps;
    }
  }

  // ------------------------------------------------------------ alerts

  function MarkSent(alerts: seq<SellAlert>, id: int): seq<SellAlert> {
    seq(|alerts|, i requires 0 <= i < |alerts| => if alerts[i].id == id then alerts[i].(sent := true) else alerts[i])
  }

  /** `clear_old_alerts`: the cutoff is the date `days` before today, and a timestamp text
      "YYYY-MM-DD HH:MM:SS" sorts below the date text "YYYY-MM-DD" exactly when its day
      is earlier. */
  predicate Purged(a: SellAlert, cutoffDay: int) { a.sent && Day(a.time) < cutoffDay }

  function AfterPurge(alerts: seq<SellAlert>, now: int, days: int): seq<SellAlert> {
    Filter(alerts, KeptAfter(Day(now) - days))
  }

  function KeptAfter(cutoffDay: int): SellAlert -> bool {
    (a: SellAlert) => !Purged(a, cutoffDay)
  }

  /** Marking one alert sent touches that id only, and keeps at most one pending alert per
      (code, type). */
  lemma MarkSentOutcome(alerts: seq<SellAlert>, id: int)
    requires PendingDistinct(alerts)
    ensures var r := MarkSent(alerts, id);
      && |r| == |alerts|
      && PendingDistinct(r)
      && (forall i :: 0 <= i < |r| && alerts[i].id == id ==> r[i].sent)
      && (forall i :: 0 <= i < |r| && alerts[i].id != id ==> r[i] == alerts[i])
      && (forall i :: 0 <= i < |r| ==> r[i].(sent := alerts[i].sent) == alerts[i])
  {
    var r := MarkSent(alerts, id);
    forall i, j | 0 <= i < j < |r| && !r[i].sent && !r[j].sent
      ensures (r[i].code, r[i].alertType) != (r[j].code, r[j].alertType)
    {
      assert r[i] == alerts[i] && r[j] == alerts[j];
    }
  }

  /** The purge deletes sent alerts from before the cutoff day and nothing else: every
      unsent alert survives, whatever its age. */
  lemma PurgeOutcome(alerts: seq<SellAlert>, now: int, days: int)
    requires PendingDistinct(alerts)
    ensures var r := AfterPurge(alerts, now, days);
      && (forall a :: a in alerts && !a.sent ==> a in r)
      && (forall a :: a in alerts ==> (a !in r <==> a.sent && Day(a.time) < Day(now) - days))
      && (forall a :: a in r ==> a in alerts)
      && PendingDistinct(r)
  {
    PendingDistinctFilter(alerts, KeptAfter(Day(now) - days));
  }

  lemma {:induction false} PendingDistinctFilter(alerts: seq<SellAlert>, keep: SellAlert -> bool)
    requires PendingDistinct(alerts)
    ensures PendingDistinct(Filter(alerts, keep))
    decreases |alerts|
  {
    if alerts != [] {
      var rest := Filter(alerts[1..], keep);
      assert PendingDistinct(alerts[1..]) by {
        forall i, j | 0 <= i < j < |alerts[1..]| ensures alerts[1..][i] == alerts[i + 1] && alerts[1..][j] == alerts[j + 1] { }
      }
      PendingDistinctFilter(alerts[1..], keep);
      if keep(alerts[0]) {
        var r := [alerts[0]] + rest;
        forall i, j | 0 <= i < j < |r| && !r[i].sent && !r[j].sent
          ensures (r[i].code, r[i].alertType) != (r[j].code, r[j].alertType)
        {
          if i == 0 {
            assert r[j] in alerts[1..];
            var m :| 0 <= m < |alerts[1..]| && alerts[1..][m] == r[j];
            assert alerts[m + 1] == r[j];
          } else {
            assert r[i] == rest[i - 1] && r[j] == rest[j - 1];
          }
        }
      }
    }
  }

  /** Appending an unsent alert when none is pending for its (code, type) keeps at most one
      pending alert per pair, and makes a repeated call find it. */
  lemma AddAlertOutcome(alerts: seq<SellAlert>, a: SellAlert)
    requires PendingDistinct(alerts)
    requires !HasPending(alerts, a.code, a.alertType) && !a.sent
    ensures PendingDistinct(alerts + [a])
    ensures HasPending(alerts + [a], a.code, a.alertType)
  {
    var r := alerts + [a];
    forall i, j | 0 <= i < j < |r| && !r[i].sent && !r[j].sent
      ensures (r[i].code, r[i].alertType) != (r[j].code, r[j].alertType)
    {
      assert r[i] == alerts[i] && r[i] in alerts;
    }
    assert a in r;
  }

  // ------------------------------------------------------------ the store

  class LowPriceBullMonitor {
    var positions: seq<Position>
    var alerts: seq<SellAlert>
    var nextPositionId: nat
    var nextAlertId: nat

    ghost predicate Valid()
      reads this
    {
      && KeysDistinct(positions)
      && DistinctBy(positions, PositionId)
      && (forall p :: p in positions ==> p.id < nextPositionId)
      && DistinctBy(alerts, AlertId)
      && (forall a :: a in alerts ==> a.id < nextAlertId)
      && PendingDistinct(alerts)
    }

    constructor ()
      ensures Valid() && positions == [] && alerts == []
    {
      positions, alerts := [], [];
      nextPositionId, nextAlertId := 1, 1;
    }

    /** `add_stock`: refuses a code that already has a holding row; otherwise appends one
        holding row with zero holding days, bought today unless a buy date is given. */
    method AddStock(code: string, name: string, buyPrice: real, buyDate: Option<string>,
                    now: int, todayText: string)
      returns (ok: bool, message: string)
      requires Valid()
      modifies this
      ensures Valid() && alerts == old(alerts)
      ensures ok <==> !HasHolding(old(positions), code)
      ensures !ok ==> positions == old(positions) && message == "股票 " + code + " 已在监控列表中"
      ensures ok ==> message == "成功添加 " + code + " " + name + " 到监控列表"
      ensures ok ==> positions == old(positions) + [Position(old(nextPositionId), code, name, buyPrice,
                                    if buyDate.Some? then buyDate.value else todayText, 0, Holding, now, None, None)]
    {
      var date := if buyDate.Some? then buyDate.value else todayText;
      if HasHolding(positions, code) {
        return false, "股票 " + code + " 已在监控列表中";
      }
      var row := Position(nextPositionId, code, name, buyPrice, date, 0, Holding, now, None, None);
      AppendDistinctBy(positions, row, PositionKey);
      AppendDistinctBy(positions, row, PositionId);
      positions := positions + [row];
      nextPositionId := nextPositionId + 1;
      return true, "成功添加 " + code + " " + name + " 到监控列表";
    }

    /** `remove_stock`: refuses a code without a holding row; otherwise deletes the code's
        earlier removed row and turns the holding row into the removed one. */
    method RemoveStock(code: string, reason: string, now: int) returns (ok: bool, message: string)
      requires Valid()
      modifies this
      ensures Valid() && alerts == old(alerts)
      ensures ok <==> HasHolding(old(positions), code)
      ensures !ok ==> positions == old(positions) && message == "股票 " + code + " 不在监控列表中"
      ensures ok ==> positions == AfterRemove(old(positions), code, now, reason)
      ensures ok ==> message == "成功移除 " + code
    {
      if !HasHolding(positions, code) {
        return false, "股票 " + code + " 不在监控列表中";
      }
      var held :| held in positions && held.code == code && held.status == Holding;
      RemoveOutcome(positions, code, now, reason, held);
      RemoveKeepsIds(positions, code, now, reason, nextPositionId);
      positions := FlipHolding(WithoutRemoved(positions, code), code, now, reason);
      return true, "成功移除 " + code;
    }

    /** `get_monitored_stocks`: the holding rows, most recently added first. */
    function MonitoredStocks(): (r: seq<Position>)
      reads this
      ensures multiset(r) == multiset(Filter(positions, IsHolding))
      ensures forall p :: p in r <==> p in positions && p.status == Holding
      ensures SortedBy(r, NewestFirst(AddTime))
    {
      KeyOrdersAreTotal(AddTime);
      Sort(Filter(positions, IsHolding), NewestFirst(AddTime))
    }

    /** `update_holding_days`: recomputes every holding row from today's date; a buy date
        that cannot be read raises before the commit, so then nothing changes. */
    method UpdateHoldingDays(today: int, parseDate: string -> Option<int>)
      requires Valid()
      modifies this
      ensures Valid() && alerts == old(alerts) && nextPositionId == old(nextPositionId)
      ensures AllDatesParse(old(positions), parseDate) ==>
                positions == WithHoldingDays(old(positions), today, parseDate)
      ensures !AllDatesParse(old(positions), parseDate) ==> positions == old(positions)
    {
      var updated: seq<Position> := [];
      var i := 0;
      while i < |positions|
        invariant 0 <= i <= |positions|
        invariant |updated| == i
        invariant forall k :: 0 <= k < i && positions[k].status == Holding ==> parseDate(positions[k].buyDate).Some?
        invariant forall k :: 0 <= k < i ==> updated[k] == Recomputed(positions[k], today, parseDate)
      {
        var p := positions[i];
        if p.status == Holding {
          var days := parseDate(p.buyDate);
          if days.None? {
            assert !AllDatesParse(positions, parseDate) by { assert p in positions; }
            return;
          }
          p := p.(holdingDays := today - days.value);
        }
        updated := updated + [p];
        i := i + 1;
      }
      assert AllDatesParse(positions, parseDate) by {
        forall p | p in positions && p.status == Holding ensures parseDate(p.buyDate).Some? {
          var k :| 0 <= k < |positions| && positions[k] == p;
        }
      }
      HoldingDaysOutcome(positions, today, parseDate);
      assert updated == WithHoldingDays(positions, today, parseDate);
      HoldingDaysKeepIds(positions, today, parseDate, nextPositionId);
      positions := updated;
    }

    /** `add_sell_alert`: refuses while an unsent alert of the same code and type exists;
        otherwise appends one unsent alert stamped now. */
    method AddSellAlert(code: string, name: string, alertType: string, reason: string,
                        price: Option<real>, ma5: Option<real>, ma20: Option<real>,
                        holdingDays: Option<int>, now: int)
      returns (ok: bool)
      requires Valid()
      modifies this
      ensures Valid() && positions == old(positions)
      ensures ok <==> !HasPending(old(alerts), code, alertType)
      ensures !ok ==> alerts == old(alerts)
      ensures ok ==> alerts == old(alerts) + [SellAlert(old(nextAlertId), code, name, alertType, reason,
                                                        price, ma5, ma20, holdingDays, now, false)]
      ensures HasPending(alerts, code, alertType)
    {
      if HasPending(alerts, code, alertType) {
        return false;
      }
      var a := SellAlert(nextAlertId, code, name, alertType, reason, price, ma5, ma20, holdingDays, now, false);
      AddAlertOutcome(alerts, a);
      AppendDistinctBy(alerts, a, AlertId);
      alerts := alerts + [a];
      nextAlertId := nextAlertId + 1;
      return true;
    }

    /** `get_pending_alerts`: the unsent alerts, newest first. */
    function PendingAlerts(): (r: seq<SellAlert>)
      reads this
      ensures forall a :: a in r <==> a in alerts && !a.sent
      ensures multiset(r) == multiset(Filter(alerts, IsUnsent))
      ensures SortedBy(r, NewestFirst(AlertTime))
    {
      KeyOrdersAreTotal(AlertTime);
      Sort(Filter(alerts, IsUnsent), NewestFirst(AlertTime))
    }

    /** `mark_alert_sent`: sets the sent flag of the alert with that id. */
    method MarkAlertSent(id: int)
      requires Valid()
      modifies this
      ensures Valid() && positions == old(positions)
      ensures alerts == MarkSent(old(alerts), id)
    {
      MarkSentOutcome(alerts, id);
      var r := MarkSent(alerts, id);
      assert DistinctBy(r, AlertId) by {
        forall i, j | 0 <= i < j < |r| ensures r[i].id != r[j].id {
          assert r[i].id == alerts[i].id && r[j].id == alerts[j].id;
        }
      }
      forall a | a in r ensures a.id < nextAlertId {
        var k :| 0 <= k < |r| && r[k] == a;
        assert alerts[k] in alerts;
      }
      alerts := r;
    }

    /** `get_history_alerts`: at most `limit` alerts of any state, newest first. */
    function HistoryAlerts(limit: int): (r: seq<SellAlert>)
      reads this
      ensures limit >= 0 ==> |r| <= limit
      ensures |r| == if 0 <= limit < |alerts| then limit else |alerts|
      ensures forall a :: a in r ==> a in alerts
      ensures SortedBy(r, NewestFirst(AlertTime))
      ensures forall a, b :: a in alerts && a !in r && b in r ==> b.time >= a.time
      ensures multiset(r) <= multiset(alerts)
      ensures limit < 0 || limit >= |alerts| ==> multiset(r) == multiset(alerts)
    {
      KeyOrdersAreTotal(AlertTime);
      var sorted := Sort(alerts, NewestFirst(AlertTime));
      LimitSorted(sorted, limit, NewestFirst(AlertTime));
      LimitKeepsNewest(sorted, limit, AlertTime);
      Limit(sorted, limit)
    }

    /** `clear_old_alerts`: deletes the sent alerts dated before `days` days ago. */
    method ClearOldAlerts(days: int, now: int)
      requires Valid()
      modifies this
      ensures Valid() && positions == old(positions)
      ensures alerts == AfterPurge(old(alerts), now, days)
    {
      PurgeOutcome(alerts, now, days);
      FilterDistinctBy(alerts, KeptAfter(Day(now) - days), AlertId);
      alerts := AfterPurge(alerts, now, days);
    }
  }
}
