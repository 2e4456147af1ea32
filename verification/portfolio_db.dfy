/** The portfolio store (portfolio_db.py): the `portfolio_stocks` table, unique on the
    stock code, and the `portfolio_analysis_history` table of analysis records, held as
    sequences of rows in insertion order. Times are instants in seconds passed in by the
    caller. The foreign key from the history to the stocks is declared but SQLite does
    not enforce it (foreign keys are never switched on), so deleting a stock leaves its
    history in place. */
module PortfolioDb {
  import opened Common

  /** A row of `portfolio_stocks`. Columns the caller may rewrite hold any value. */
  datatype StockRow = StockRow(
    id: nat, code: Value, name: Value, costPrice: Value, quantity: Value,
    note: Value, autoMonitor: Value, createdAt: int, updatedAt: int)

  /** A row of `portfolio_analysis_history`. */
  datatype AnalysisRow = AnalysisRow(
    id: nat, stockId: int, time: int, rating: Value, confidence: Value,
    currentPrice: Value, targetPrice: Option<real>, entryMin: Option<real>,
    entryMax: Option<real>, takeProfit: Option<real>, stopLoss: Option<real>,
    summary: Value)

  function StockId(r: StockRow): nat { r.id }
  function StockCode(r: StockRow): Value { r.code }
  function AnalysisId(a: AnalysisRow): nat { a.id }
  function AnalysisTime(a: AnalysisRow): int { a.time }

  predicate HasId(stocks: seq<StockRow>, id: int) {
    exists r :: r in stocks && r.id == id
  }

  predicate HasCode(stocks: seq<StockRow>, code: Value) {
    exists r :: r in stocks && r.code == code
  }

  /** `get_stock_by_code`: the row with that code; `code = NULL` matches no row. */
  function StockByCode(stocks: seq<StockRow>, code: Value): (r: Option<StockRow>)
    ensures r.None? <==> code == Null || !HasCode(stocks, code)
    ensures r.Some? ==> r.value in stocks && r.value.code == code
  {
    if code == Null || stocks == [] then None
    else if stocks[0].code == code then Some(stocks[0])
    else StockByCode(stocks[1..], code)
  }

  function OptionalReal(x: Option<real>): (v: Value)
    ensures x.None? <==> v == Null
  {
    if x.Some? then Float(x.value) else Null
  }

  function OptionalInt(x: Option<int>): (v: Value)
    ensures x.None? <==> v == Null
  {
    if x.Some? then Int(x.value) else Null
  }

  // ------------------------------------------------------------ update_stock

  /** The columns `update_stock` may change. */
  const AllowedFields: set<string> := {"code", "name", "cost_price", "quantity", "note", "auto_monitor"}

  /** The keyword arguments `update_stock` keeps: exactly those naming an allowed
      column, with their values. */
  function Allowed(updates: map<string, Value>): (r: map<string, Value>)
    ensures r.Keys <= AllowedFields && r.Keys <= updates.Keys
    ensures forall k :: k in updates && k in AllowedFields ==> k in r && r[k] == updates[k]
  {
    map k | k in updates && k in AllowedFields :: updates[k]
  }


  /** The row after `SET` of the given columns and of `updated_at`. */
  function Revised(r: StockRow, fields: map<string, Value>, now: int): (s: StockRow)
    ensures s.id == r.id && s.createdAt == r.createdAt && s.updatedAt == now
    ensures s.code == (if "code" in fields then fields["code"] else r.code)
    ensures s.name == (if "name" in fields then fields["name"] else r.name)
    ensures s.costPrice == (if "cost_price" in fields then fields["cost_price"] else r.costPrice)
    ensures s.quantity == (if "quantity" in fields then fields["quantity"] else r.quantity)
    ensures s.note == (if "note" in fields then fields["note"] else r.note)
    ensures s.autoMonitor == (if "auto_monitor" in fields then fields["auto_monitor"] else r.autoMonitor)
  {
    r.(code := GetOr(fields, "code", r.code), name := GetOr(fields, "name", r.name),
       costPrice := GetOr(fields, "cost_price", r.costPrice),
       quantity := GetOr(fields, "quantity", r.quantity),
       note := GetOr(fields, "note", r.note),
       autoMonitor := GetOr(fields, "auto_monitor", r.autoMonitor),
       updatedAt := now)
  }

  /** `UPDATE ... WHERE id = ?` on the table. */
  function WithRevision(stocks: seq<StockRow>, id: int, fields: map<string, Value>, now: int): (r: seq<StockRow>)
    ensures |r| == |stocks|
    ensures forall i :: 0 <= i < |r| ==>
              r[i] == if stocks[i].id == id then Revised(stocks[i], fields, now) else stocks[i]
  {
    seq(|stocks|, i requires 0 <= i < |stocks| =>
      if stocks[i].id == id then Revised(stocks[i], fields, now) else stocks[i])
  }

  /** The update raises: a value cannot be bound, or the row exists and would get a
      NULL code or name (NOT NULL) or another row's code (UNIQUE). */
  predicate UpdateRaises(stocks: seq<StockRow>, id: int, fields: map<string, Value>, now: int) {
    || (exists k :: k in fields && !Bindable(fields[k]))
    || (exists i :: 0 <= i < |stocks| && stocks[i].id == id &&
          var s := Revised(stocks[i], fields, now);
          || s.code == Null || s.name == Null
          || exists j :: 0 <= j < |stocks| && stocks[j].id != id && stocks[j].code == s.code)
  }

  /** An update that goes through keeps the table's keys and NOT NULL columns valid and
      rewrites only the row with that id. */
  lemma RevisionKeepsTable(stocks: seq<StockRow>, id: int, fields: map<string, Value>, now: int)
    requires DistinctBy(stocks, StockId) && DistinctBy(stocks, StockCode)
    requires forall r :: r in stocks ==> r.code != Null && r.name != Null
    requires !UpdateRaises(stocks, id, fields, now)
    ensures var r := WithRevision(stocks, id, fields, now);
            && DistinctBy(r, StockId) && DistinctBy(r, StockCode)
            && (forall x :: x in r ==> x.code != Null && x.name != Null)
            && (forall i :: 0 <= i < |r| ==> r[i].id == stocks[i].id)
  {
    var r := WithRevision(stocks, id, fields, now);
    forall i, j | 0 <= i < j < |r| ensures r[i].code != r[j].code {
      if stocks[i].id == id {
        assert stocks[j].id != id;
      } else if stocks[j].id == id {
        assert stocks[i].id != id;
      } else {
        assert StockCode(stocks[i]) != StockCode(stocks[j]);
      }
    }
    forall x | x in r ensures x.code != Null && x.name != Null {
      var i :| 0 <= i < |r| && r[i] == x;
      assert stocks[i] in stocks;
    }
  }

  // ------------------------------------------------------------ rating changes

  /** One rating change: when it happened, the previous and the new rating. */
  datatype RatingChange = RatingChange(time: int, previous: Value, current: Value)

  /** The change at position `i` (from `rows[i - 1]` to `rows[i]`). */
  function ChangeAt(rows: seq<AnalysisRow>, i: int): RatingChange
    requires 1 <= i < |rows|
  {
    RatingChange(rows[i].time, rows[i - 1].rating, rows[i].rating)
  }

  /** The rating changes along a time-ordered history, in order. */
  function Changes(rows: seq<AnalysisRow>): (r: seq<RatingChange>)
    decreases |rows|
  {
    if |rows| <= 1 then []
    else
      var n := |rows|;
      Changes(rows[..n - 1]) + (if rows[n - 2].rating != rows[n - 1].rating then [ChangeAt(rows, n - 1)] else [])
  }

  /** A change is listed exactly when two consecutive records disagree, and there are at
      most n - 1 of them. */
  lemma ChangesMeaning(rows: seq<AnalysisRow>)
    ensures |Changes(rows)| <= if |rows| == 0 then 0 else |rows| - 1
    ensures forall c :: c in Changes(rows) <==>
              exists i :: 1 <= i < |rows| && rows[i - 1].rating != rows[i].rating && c == ChangeAt(rows, i)
  {
    ChangesCount(rows);
    ChangesSound(rows);
    ChangesComplete(rows);
  }

  lemma {:induction false} ChangesCount(rows: seq<AnalysisRow>)
    ensures |Changes(rows)| <= if |rows| == 0 then 0 else |rows| - 1
    decreases |rows|
  {
    if |rows| > 1 {
      ChangesCount(rows[..|rows| - 1]);
    }
  }

  /** Every listed change is one between consecutive records. */
  lemma {:induction false} ChangesSound(rows: seq<AnalysisRow>)
    ensures forall c :: c in Changes(rows) ==>
              exists i :: 1 <= i < |rows| && rows[i - 1].rating != rows[i].rating && c == ChangeAt(rows, i)
    decreases |rows|
  {
    if |rows| > 1 {
      var n := |rows|;
      var p := rows[..n - 1];
      ChangesSound(p);
      forall c | c in Changes(rows)
        ensures exists i :: 1 <= i < n && rows[i - 1].rating != rows[i].rating && c == ChangeAt(rows, i)
      {
        if c in Changes(p) {
          var i :| 1 <= i < n - 1 && p[i - 1].rating != p[i].rating && c == ChangeAt(p, i);
          assert p[i - 1] == rows[i - 1] && p[i] == rows[i];
          assert c == ChangeAt(rows, i);
        } else {
          assert c == ChangeAt(rows, n - 1);
        }
      }
    }
  }

  /** Every disagreement of consecutive records is listed. */
  lemma {:induction false} ChangesComplete(rows: seq<AnalysisRow>)
    ensures forall i :: 1 <= i < |rows| && rows[i - 1].rating != rows[i].rating ==> ChangeAt(rows, i) in Changes(rows)
    decreases |rows|
  {
    if |rows| > 1 {
      var n := |rows|;
      var p := rows[..n - 1];
      ChangesComplete(p);
      forall i | 1 <= i < n && rows[i - 1].rating != rows[i].rating ensures ChangeAt(rows, i) in Changes(rows) {
        if i < n - 1 {
          assert p[i - 1] == rows[i - 1] && p[i] == rows[i];
          assert ChangeAt(rows, i) == ChangeAt(p, i);
        }
      }
    }
  }

  /** Walking one record further adds the change into that record, if any. */
  lemma ChangesStep(rows: seq<AnalysisRow>, i: int)
    requires 1 <= i < |rows|
    ensures Changes(rows[..i + 1]) ==
              Changes(rows[..i]) + (if rows[i - 1].rating != rows[i].rating then [ChangeAt(rows, i)] else [])
  {
    var next := rows[..i + 1];
    assert next[..i] == rows[..i];
    assert next[i - 1] == rows[i - 1] && next[i] == rows[i];
  }

  /** No change is later than a time no record is later than. */
  lemma {:induction false} ChangesBoundedBy(rows: seq<AnalysisRow>, t: int)
    requires forall k :: 0 <= k < |rows| ==> rows[k].time <= t
    ensures forall c :: c in Changes(rows) ==> c.time <= t
    decreases |rows|
  {
    if |rows| > 1 {
      var p := rows[..|rows| - 1];
      assert forall k :: 0 <= k < |p| ==> p[k] == rows[k];
      ChangesBoundedBy(p, t);
    }
  }

  /** Along a history ordered oldest first, the changes are ordered oldest first too. */
  lemma {:induction false} ChangesInOrder(rows: seq<AnalysisRow>)
    requires SortedBy(rows, OldestFirst(AnalysisTime))
    ensures forall i, j :: 0 <= i < j < |Changes(rows)| ==> Changes(rows)[i].time <= Changes(rows)[j].time
    decreases |rows|
  {
    if |rows| > 1 {
      var n := |rows|;
      var p := rows[..n - 1];
      assert forall k :: 0 <= k < |p| ==> p[k] == rows[k];
      assert SortedBy(p, OldestFirst(AnalysisTime)) by {
        forall i, j | 0 <= i < j < |p| ensures OldestFirst(AnalysisTime)(p[i], p[j]) {
          assert OldestFirst(AnalysisTime)(rows[i], rows[j]);
        }
      }
      ChangesInOrder(p);
      assert forall k :: 0 <= k < |p| ==> p[k].time <= rows[n - 1].time by {
        forall k | 0 <= k < |p| ensures p[k].time <= rows[n - 1].time {
          assert OldestFirst(AnalysisTime)(rows[k], rows[n - 1]);
          assert AnalysisTime(rows[k]) <= AnalysisTime(rows[n - 1]);
        }
      }
      ChangesBoundedBy(p, rows[n - 1].time);
      var cp := Changes(p);
      var tail := if rows[n - 2].rating != rows[n - 1].rating then [ChangeAt(rows, n - 1)] else [];
      var c := cp + tail;
      assert Changes(rows) == c;
      forall i, j | 0 <= i < j < |c| ensures c[i].time <= c[j].time {
        if j < |cp| {
          assert c[i] == cp[i] && c[j] == cp[j];
        } else {
          assert c[i] == cp[i] && cp[i] in cp;
          assert c[j].time == rows[n - 1].time;
        }
      }
    }
  }

  /** The walk of `get_rating_changes` over its rows: each row whose rating differs
      from the one before it adds a change. */
  method WalkChanges(rows: seq<AnalysisRow>) returns (changes: seq<RatingChange>)
    ensures changes == Changes(rows)
  {
    changes := [];
    var i := 1;
    while i < |rows|
      invariant 1 <= i
      invariant |rows| > 0 ==> i <= |rows| && changes == Changes(rows[..i])
      invariant |rows| == 0 ==> changes == []
    {
      ChangesStep(rows, i);
      if rows[i - 1].rating != rows[i].rating {
        changes := changes + [RatingChange(rows[i].time, rows[i - 1].rating, rows[i].rating)];
      }
      i := i + 1;
    }
    assert |rows| > 0 ==> rows[..i] == rows;
  }

  /** The records of one stock within the last `days` days, oldest first: the rows
      `get_rating_changes` walks through (none for a negative window). */
  function RecentHistory(analyses: seq<AnalysisRow>, stockId: int, days: int, now: int): (r: seq<AnalysisRow>)
    ensures forall a :: a in r <==> days >= 0 && a in analyses && a.stockId == stockId && a.time >= now - days * 86400
    ensures SortedBy(r, OldestFirst(AnalysisTime))
  {
    match WindowStart(now, days, 86400)
    case None => []
    case Some(cutoff) =>
      KeyOrdersAreTotal(AnalysisTime);
      Sort(Filter(analyses, WithinWindow(stockId, cutoff)), OldestFirst(AnalysisTime))
  }

  function WithinWindow(stockId: int, cutoff: int): AnalysisRow -> bool {
    (a: AnalysisRow) => a.stockId == stockId && a.time >= cutoff
  }

  function OfStock(stockId: int): AnalysisRow -> bool {
    (a: AnalysisRow) => a.stockId == stockId
  }

  function NotOlderThan(cutoff: int): AnalysisRow -> bool {
    (a: AnalysisRow) => a.time >= cutoff
  }

  function OlderThan(cutoff: int): AnalysisRow -> bool {
    (a: AnalysisRow) => a.time < cutoff
  }

  function NotWithId(id: int): StockRow -> bool {
    (r: StockRow) => r.id != id
  }

  /** At most `limit` of a stock's records, newest first: each taken from its records,
      none left out newer than one kept. */
  lemma NewestRecords(analyses: seq<AnalysisRow>, stockId: int, limit: int, own: seq<AnalysisRow>, r: seq<AnalysisRow>)
    requires own == Filter(analyses, OfStock(stockId))
    requires r == Limit(Sort(own, NewestFirst(AnalysisTime)), limit)
    ensures forall a :: a in r ==> a in analyses && a.stockId == stockId
    ensures multiset(r) <= multiset(own)
    ensures limit < 0 || limit >= |own| ==> multiset(r) == multiset(own)
    ensures SortedBy(r, NewestFirst(AnalysisTime))
    ensures forall a, b :: a in analyses && a.stockId == stockId && a !in r && b in r ==> b.time >= a.time
  {
    KeyOrdersAreTotal(AnalysisTime);
    var sorted := Sort(own, NewestFirst(AnalysisTime));
    LimitSorted(sorted, limit, NewestFirst(AnalysisTime));
    LimitKeepsNewest(sorted, limit, AnalysisTime);
    LimitOfSort(own, limit, NewestFirst(AnalysisTime));
    forall a, b | a in analyses && a.stockId == stockId && a !in r && b in r ensures b.time >= a.time {
      assert OfStock(stockId)(a);
      assert a in sorted;
    }
  }

  /** The first record of a stock's newest-first history is one of its records, and
      no record of that stock is newer; the history is empty only when it has none. */
  lemma NewestOfHistory(analyses: seq<AnalysisRow>, stockId: int)
    ensures var all := Sort(Filter(analyses, OfStock(stockId)), NewestFirst(AnalysisTime));
            && (all == [] <==> forall a :: a in analyses ==> a.stockId != stockId)
            && (all != [] ==>
                  (all[0] in analyses && all[0].stockId == stockId
                   && forall a :: a in analyses && a.stockId == stockId ==> a.time <= all[0].time))
  {
    KeyOrdersAreTotal(AnalysisTime);
    var all := Sort(Filter(analyses, OfStock(stockId)), NewestFirst(AnalysisTime));
    if all != [] {
      assert all[0] in all;
      forall a | a in analyses && a.stockId == stockId ensures a.time <= all[0].time {
        assert OfStock(stockId)(a);
        assert a in all;
        var k :| 0 <= k < |all| && all[k] == a;
        if k > 0 {
          assert NewestFirst(AnalysisTime)(all[0], all[k]);
          assert AnalysisTime(all[0]) >= AnalysisTime(all[k]);
        }
      }
    } else {
      forall a | a in analyses ensures a.stockId != stockId {
        assert OfStock(stockId)(a) ==> a in all;
      }
    }
  }

  // ------------------------------------------------------------ the store

  class PortfolioDB {
    var stocks: seq<StockRow>
    var analyses: seq<AnalysisRow>
    var nextStockId: nat
    var nextAnalysisId: nat

    ghost predicate Valid()
      reads this
    {
      && DistinctBy(stocks, StockId)
      && DistinctBy(stocks, StockCode)
      && (forall r :: r in stocks ==> r.code != Null && r.name != Null)
      && (forall r :: r in stocks ==> r.id < nextStockId)
      && DistinctBy(analyses, AnalysisId)
      && (forall a :: a in analyses ==> a.id < nextAnalysisId)
    }

    constructor ()
      ensures Valid() && stocks == [] && analyses == []
    {
      stocks, analyses := [], [];
      nextStockId, nextAnalysisId := 1, 1;
    }

    /** `add_stock`: a code already in the table is refused with the ValueError message
        and nothing is inserted; otherwise one row is appended and its new id returned. */
    method AddStock(code: string, name: string, costPrice: Option<real>, quantity: Option<int>,
                    note: string, autoMonitor: bool, now: int)
      returns (r: Reply<nat>, error: string)
      requires Valid()
      modifies this
      ensures Valid() && analyses == old(analyses) && nextAnalysisId == old(nextAnalysisId)
      ensures r.Raised? <==> HasCode(old(stocks), Str(code))
      ensures r.Raised? ==> stocks == old(stocks) && error == "股票代码 " + code + " 已存在"
      ensures r.Returned? ==> r.value == old(nextStockId) && !HasId(old(stocks), r.value)
      ensures r.Returned? ==>
                stocks == old(stocks) + [StockRow(r.value, Str(code), Str(name), OptionalReal(costPrice),
                                                  OptionalInt(quantity), Str(note), Bool(autoMonitor), now, now)]
    {
      if HasCode(stocks, Str(code)) {
        return Raised, "股票代码 " + code + " 已存在";
      }
      var row := StockRow(nextStockId, Str(code), Str(name), OptionalReal(costPrice),
                          OptionalInt(quantity), Str(note), Bool(autoMonitor), now, now);
      AppendDistinctBy(stocks, row, StockId);
      AppendDistinctBy(stocks, row, StockCode);
      stocks := stocks + [row];
      r := Returned(nextStockId);
      nextStockId := nextStockId + 1;
      error := "";
    }

    /** `update_stock`: keeps only the allowed columns; with none left it returns False
        and changes nothing. Otherwise the update either raises and is rolled back, or
        rewrites the row with that id and returns whether there was one. */
    method UpdateStock(id: int, updates: map<string, Value>, now: int) returns (r: Reply<bool>)
      requires Valid()
      modifies this
      ensures Valid() && analyses == old(analyses)
      ensures nextStockId == old(nextStockId) && nextAnalysisId == old(nextAnalysisId)
      ensures Allowed(updates) == map[] ==> r == Returned(false) && stocks == old(stocks)
      ensures Allowed(updates) != map[] && UpdateRaises(old(stocks), id, Allowed(updates), now) ==>
                r == Raised && stocks == old(stocks)
      ensures Allowed(updates) != map[] && !UpdateRaises(old(stocks), id, Allowed(updates), now) ==>
                r == Returned(HasId(old(stocks), id))
                && stocks == WithRevision(old(stocks), id, Allowed(updates), now)
    {
      var fields := Allowed(updates);
      if fields == map[] {
        return Returned(false);
      }
      if UpdateRaises(stocks, id, fields, now) {
        return Raised;
      }
      RevisionKeepsTable(stocks, id, fields, now);
      var revised := WithRevision(stocks, id, fields, now);
      forall x | x in revised ensures x.id < nextStockId {
        var i :| 0 <= i < |revised| && revised[i] == x;
        assert stocks[i] in stocks;
      }
      var existed := HasId(stocks, id);
      stocks := revised;
      return Returned(existed);
    }

    /** `delete_stock`: deletes the row with that id and returns whether there was one;
        the stock's analysis history is left in place. */
    method DeleteStock(id: int) returns (deleted: bool)
      requires Valid()
      modifies this
      ensures Valid() && analyses == old(analyses)
      ensures nextStockId == old(nextStockId) && nextAnalysisId == old(nextAnalysisId)
      ensures deleted <==> HasId(old(stocks), id)
      ensures stocks == Filter(old(stocks), NotWithId(id))
      ensures !HasId(stocks, id)
      ensures forall r: StockRow :: r.id != id ==> (r in stocks <==> r in old(stocks))
    {
      deleted := HasId(stocks, id);
      FilterDistinctBy(stocks, NotWithId(id), StockId);
      FilterDistinctBy(stocks, NotWithId(id), StockCode);
      stocks := Filter(stocks, NotWithId(id));
    }

    /** `save_analysis`: appends one record, whatever the stock id, and returns its id;
        a value the driver cannot bind raises and nothing is inserted. */
    method SaveAnalysis(stockId: int, rating: Value, confidence: Value, currentPrice: Value,
                        targetPrice: Option<real>, entryMin: Option<real>, entryMax: Option<real>,
                        takeProfit: Option<real>, stopLoss: Option<real>, summary: Value, now: int)
      returns (r: Reply<nat>)
      requires Valid()
      modifies this
      ensures Valid() && stocks == old(stocks) && nextStockId == old(nextStockId)
      ensures r.Raised? <==> !(Bindable(rating) && Bindable(confidence) && Bindable(currentPrice) && Bindable(summary))
      ensures r.Raised? ==> analyses == old(analyses) && nextAnalysisId == old(nextAnalysisId)
      ensures r.Returned? ==> r.value == old(nextAnalysisId) && nextAnalysisId == r.value + 1
      ensures r.Returned? ==>
                analyses == old(analyses) + [AnalysisRow(r.value, stockId, now, rating, confidence, currentPrice,
                                                        targetPrice, entryMin, entryMax, takeProfit, stopLoss, summary)]
    {
      if !(Bindable(rating) && Bindable(confidence) && Bindable(currentPrice) && Bindable(summary)) {
        return Raised;
      }
      var id := nextAnalysisId;
      var row := AnalysisRow(id, stockId, now, rating, confidence, currentPrice,
                             targetPrice, entryMin, entryMax, takeProfit, stopLoss, summary);
      AppendDistinctBy(analyses, row, AnalysisId);
      analyses := analyses + [row];
      nextAnalysisId := nextAnalysisId + 1;
      r := Returned(id);
    }

    /** `get_analysis_history`: records of that stock only, newest first, at most
        `limit` of them (all of them for a negative limit). */
    function AnalysisHistory(stockId: int, limit: int): (r: seq<AnalysisRow>)
      reads this
      ensures forall a :: a in r ==> a in analyses && a.stockId == stockId
      ensures limit >= 0 ==> |r| <= limit
      ensures multiset(r) <= multiset(Filter(analyses, OfStock(stockId)))
      ensures (limit < 0 || limit >= |Filter(analyses, OfStock(stockId))|) ==>
                multiset(r) == multiset(Filter(analyses, OfStock(stockId)))
      ensures 0 <= limit < |Filter(analyses, OfStock(stockId))| ==> |r| == limit
      ensures SortedBy(r, NewestFirst(AnalysisTime))
      ensures forall a, b :: a in analyses && a.stockId == stockId && a !in r && b in r ==> b.time >= a.time
    {
      var own := Filter(analyses, OfStock(stockId));
      var r := Limit(Sort(own, NewestFirst(AnalysisTime)), limit);
      NewestRecords(analyses, stockId, limit, own, r);
      r
    }

    /** `get_latest_analysis`: None exactly when the stock has no record; otherwise one
        of its records that no other record of it is newer than. */
    function LatestAnalysis(stockId: int): (r: Option<AnalysisRow>)
      reads this
      ensures r.None? <==> forall a :: a in analyses ==> a.stockId != stockId
      ensures r.Some? ==> r.value in analyses && r.value.stockId == stockId
      ensures r.Some? ==> forall a :: a in analyses && a.stockId == stockId ==> a.time <= r.value.time
    {
      var h := AnalysisHistory(stockId, 1);
      NewestOfHistory(analyses, stockId);
      if h == [] then None else Some(h[0])
    }

    /** `get_rating_changes`: walks that stock's records of the last `days` days, oldest
        first, and lists each consecutive pair whose ratings differ. */
    method RatingChanges(stockId: int, days: int, now: int) returns (changes: seq<RatingChange>)
      ensures changes == Changes(RecentHistory(analyses, stockId, days, now))
    {
      var rows := RecentHistory(analyses, stockId, days, now);
      changes := WalkChanges(rows);
    }

    /** `delete_old_analysis`: deletes the records older than `days` days, keeps the
        rest in order, and returns how many were deleted; a negative window deletes
        nothing. */
    method DeleteOldAnalysis(days: int, now: int) returns (deleted: nat)
      requires Valid()
      modifies this
      ensures Valid() && stocks == old(stocks)
      ensures nextStockId == old(nextStockId) && nextAnalysisId == old(nextAnalysisId)
      ensures days < 0 ==> analyses == old(analyses) && deleted == 0
      ensures days >= 0 ==> analyses == Filter(old(analyses), NotOlderThan(now - days * 86400))
      ensures days >= 0 ==> deleted == |Filter(old(analyses), OlderThan(now - days * 86400))|
      ensures deleted == |old(analyses)| - |analyses|
    {
      var window := WindowStart(now, days, 86400);
      if window.None? {
        return 0;
      }
      var cutoff := window.value;
      FilterDistinctBy(analyses, NotOlderThan(cutoff), AnalysisId);
      FilterComplement(analyses, NotOlderThan(cutoff), OlderThan(cutoff));
      var kept := Filter(analyses, NotOlderThan(cutoff));
      deleted := |analyses| - |kept|;
      analyses := kept;
    }
  }
}
