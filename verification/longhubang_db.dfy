/** The dragon-tiger list database (longhubang_db.py): the trading records of the
    list, upserted on (date, stock code, trader, branch), the queries over them, and
    the AI analysis reports with the tracking rows that refer to them. Each table is a
    sequence of rows in rowid order; the clock, the reading of text as a number and
    SQLite's own text form of a REAL value (what a TEXT column stores for a bound float)
    are parameters. */
module LonghubangDb {
  import opened Common

  // ------------------------------------------------------------ rows

  /** A row of `longhubang_records`. The text columns hold None for NULL; the amounts
      hold None for NULL (a NaN amount is stored as NULL). */
  datatype RecordRow = RecordRow(
    id: nat, date: string, code: string, name: Option<string>, trader: Option<string>,
    branch: Option<string>, listType: Option<string>, buy: Option<real>, sell: Option<real>,
    net: Option<real>, concepts: Option<string>)

  /** The column values of one record, before it is given a rowid. */
  datatype Fields = Fields(
    date: string, code: string, name: Option<string>, trader: Option<string>,
    branch: Option<string>, listType: Option<string>, buy: Option<real>, sell: Option<real>,
    net: Option<real>, concepts: Option<string>)

  /** A row of `longhubang_analysis`. */
  datatype ReportRow = ReportRow(
    id: nat, analysisDate: int, dateRange: Value, content: Value, recommended: string, summary: Value)

  /** A row of `stock_tracking`. */
  datatype TrackingRow = TrackingRow(
    id: nat, analysisId: Option<int>, code: string, name: Value, recommendedDate: Value,
    recommendedPrice: Value, targetPrice: Value, stopLossPrice: Value, currentPrice: Value,
    profitLossPct: Value, status: Value, notes: Value, updatedAt: int)

  function RecordId(r: RecordRow): nat { r.id }
  function ReportId(r: ReportRow): nat { r.id }
  function TrackingId(t: TrackingRow): nat { t.id }

  function RowOf(id: nat, f: Fields): RecordRow {
    RecordRow(id, f.date, f.code, f.name, f.trader, f.branch, f.listType, f.buy, f.sell, f.net, f.concepts)
  }

  // ------------------------------------------------------------ preparing a record

  /** `record.get(short) or record.get(long)` */
  function Field(record: map<string, Value>, short: string, long: string): Value {
    Or(Get(record, short), Get(record, long))
  }

  /** The value a TEXT column stores for a bound parameter: None (NULL) for None and
      NaN, the text itself, an integer (and a bool, bound as 0 or 1) in decimal, a
      float in SQLite's text form of the REAL value, `show`; a list or a dictionary
      cannot be bound. */
  function TextColumn(v: Value, show: real -> string): (r: Reply<Option<string>>)
    ensures r.Raised? <==> !Bindable(v)
    ensures v == Null ==> r == Returned(None)
    ensures v.Str? ==> r == Returned(Some(v.s))
  {
    match v
    case Null => Returned(None)
    case NaN => Returned(None)
    case Bool(b) => Returned(Some(if b then "1" else "0"))
    case Int(i) => Returned(Some(IntText(i)))
    case Float(x) => Returned(Some(show(x)))
    case Str(s) => Returned(Some(s))
    case List(_) => Raised
    case Dict(_) => Raised
  }

  /** Python's `float(v)` as stored in a REAL column: None (NULL) for NaN; text is
      read by `parse` (None when it is not a number); None, a list and a dictionary
      raise. */
  function FloatColumn(v: Value, parse: string -> Option<real>): (r: Reply<Option<real>>)
    ensures v.Int? ==> r == Returned(Some(v.i as real))
    ensures v.Float? ==> r == Returned(Some(v.r))
    ensures v == Null || v.List? || v.Dict? ==> r == Raised
  {
    match v
    case Null => Raised
    case NaN => Returned(None)
    case Bool(b) => Returned(Some(if b then 1.0 else 0.0))
    case Int(i) => Returned(Some(i as real))
    case Float(x) => Returned(Some(x))
    case Str(s) => if parse(s).Some? then Returned(Some(parse(s).value)) else Raised
    case List(_) => Raised
    case Dict(_) => Raised
  }

  /** An amount: the short key, else the Chinese key, else 0. */
  function Amount(record: map<string, Value>, short: string, long: string,
                  parse: string -> Option<real>): (r: Reply<Option<real>>)
    ensures !Truthy(Get(record, short)) && !Truthy(Get(record, long)) ==> r == Returned(Some(0.0))
    ensures Truthy(Get(record, short)) ==> r == FloatColumn(Get(record, short), parse)
    ensures !Truthy(Get(record, short)) && Truthy(Get(record, long)) ==> r == FloatColumn(Get(record, long), parse)
  {
    FloatColumn(Or(Field(record, short, long), Int(0)), parse)
  }

  /** A value a NOT NULL TEXT column accepts: it binds, and not as NULL. */
  predicate Written(v: Value) {
    Bindable(v) && v != Null && v != NaN
  }

  /** The columns one record of `data_list` is written with, or Raised when building
      the parameters, binding them or the NOT NULL constraint on `date` and
      `stock_code` fails. */
  function Prepare(record: map<string, Value>, parse: string -> Option<real>,
                   show: real -> string): (r: Reply<Fields>)
    ensures r.Returned? ==> Field(record, "rq", "日期") != Null && Field(record, "gpdm", "股票代码") != Null
    ensures r.Returned? && Field(record, "yzmc", "游资名称").Str? ==>
              r.value.trader == Some(Field(record, "yzmc", "游资名称").s)
    ensures r.Returned? && Field(record, "yyb", "营业部").Str? ==>
              r.value.branch == Some(Field(record, "yyb", "营业部").s)
    ensures r.Returned? && !Truthy(Get(record, "jlrje")) && !Truthy(Get(record, "净流入金额")) ==>
              r.value.net == Some(0.0)
    ensures r.Returned? && !Truthy(Get(record, "mrje")) && !Truthy(Get(record, "买入金额")) ==>
              r.value.buy == Some(0.0)
    ensures r.Returned? && !Truthy(Get(record, "mcje")) && !Truthy(Get(record, "卖出金额")) ==>
              r.value.sell == Some(0.0)
    ensures r.Returned? ==> TextColumn(Field(record, "rq", "日期"), show) == Returned(Some(r.value.date))
    ensures r.Returned? ==> TextColumn(Field(record, "gpdm", "股票代码"), show) == Returned(Some(r.value.code))
    ensures r.Returned? ==> TextColumn(Field(record, "gpmc", "股票名称"), show) == Returned(r.value.name)
    ensures r.Returned? ==> TextColumn(Field(record, "yzmc", "游资名称"), show) == Returned(r.value.trader)
    ensures r.Returned? ==> TextColumn(Field(record, "yyb", "营业部"), show) == Returned(r.value.branch)
    ensures r.Returned? ==> TextColumn(Field(record, "sblx", "榜单类型"), show) == Returned(r.value.listType)
    ensures r.Returned? ==> TextColumn(Field(record, "gl", "概念"), show) == Returned(r.value.concepts)
    ensures r.Returned? ==> Amount(record, "mrje", "买入金额", parse) == Returned(r.value.buy)
    ensures r.Returned? ==> Amount(record, "mcje", "卖出金额", parse) == Returned(r.value.sell)
    ensures r.Returned? ==> Amount(record, "jlrje", "净流入金额", parse) == Returned(r.value.net)
    ensures (!Bindable(Field(record, "gpmc", "股票名称")) || !Bindable(Field(record, "yzmc", "游资名称"))
             || !Bindable(Field(record, "gl", "概念"))) ==> r.Raised?
    ensures r.Returned? <==>
              && Written(Field(record, "rq", "日期")) && Written(Field(record, "gpdm", "股票代码"))
              && Bindable(Field(record, "gpmc", "股票名称")) && Bindable(Field(record, "yzmc", "游资名称"))
              && Bindable(Field(record, "yyb", "营业部")) && Bindable(Field(record, "sblx", "榜单类型"))
              && Bindable(Field(record, "gl", "概念"))
              && Amount(record, "mrje", "买入金额", parse).Returned?
              && Amount(record, "mcje", "卖出金额", parse).Returned?
              && Amount(record, "jlrje", "净流入金额", parse).Returned?
  {
    var date := TextColumn(Field(record, "rq", "日期"), show);
    var code := TextColumn(Field(record, "gpdm", "股票代码"), show);
    var name := TextColumn(Field(record, "gpmc", "股票名称"), show);
    var trader := TextColumn(Field(record, "yzmc", "游资名称"), show);
    var branch := TextColumn(Field(record, "yyb", "营业部"), show);
    var listType := TextColumn(Field(record, "sblx", "榜单类型"), show);
    var buy := Amount(record, "mrje", "买入金额", parse);
    var sell := Amount(record, "mcje", "卖出金额", parse);
    var net := Amount(record, "jlrje", "净流入金额", parse);
    var concepts := TextColumn(Field(record, "gl", "概念"), show);
    if date.Raised? || code.Raised? || name.Raised? || trader.Raised? || branch.Raised?
       || listType.Raised? || buy.Raised? || sell.Raised? || net.Raised? || concepts.Raised?
    then Raised
    else if date.value.None? || code.value.None? then Raised
    else Returned(Fields(date.value.value, code.value.value, name.value, trader.value, branch.value,
                         listType.value, buy.value, sell.value, net.value, concepts.value))
  }

  /** The preparation of a record, as one function value. */
  function PreparerFor(parse: string -> Option<real>, show: real -> string): map<string, Value> -> Reply<Fields> {
    (record: map<string, Value>) => Prepare(record, parse, show)
  }

  /** The records that are written: those whose preparation does not raise. */
  function Writes(prepare: map<string, Value> -> Reply<Fields>): map<string, Value> -> bool {
    (record: map<string, Value>) => prepare(record).Returned?
  }

  // ------------------------------------------------------------ the upsert

  /** The UNIQUE constraint on (date, stock_code, youzi_name, yingye_bu) between a new
      record and a stored row. NULLs are distinct from each other, so a record without
      a trader or a branch never conflicts. */
  predicate Conflicts(f: Fields, r: RecordRow) {
    && f.trader.Some? && f.branch.Some?
    && r.date == f.date && r.code == f.code && r.trader == f.trader && r.branch == f.branch
  }

  predicate SameKey(a: RecordRow, b: RecordRow) {
    && a.trader.Some? && a.branch.Some?
    && a.date == b.date && a.code == b.code && a.trader == b.trader && a.branch == b.branch
  }

  function KeepsAgainst(f: Fields): RecordRow -> bool {
    (r: RecordRow) => !Conflicts(f, r)
  }

  /** `INSERT OR REPLACE`: every row the new one conflicts with is deleted, then the new
      row is inserted under the next rowid. */
  function Upsert(rows: seq<RecordRow>, f: Fields, id: nat): (r: seq<RecordRow>)
    ensures |r| >= 1 && r[|r| - 1] == RowOf(id, f)
    ensures |r| <= |rows| + 1
  {
    Filter(rows, KeepsAgainst(f)) + [RowOf(id, f)]
  }

  /** The table and the next rowid after writing `data` in order, each record
      prepared by `prepare`. */
  function SavedAll(rows: seq<RecordRow>, next: nat, data: seq<map<string, Value>>,
                    prepare: map<string, Value> -> Reply<Fields>): (r: (seq<RecordRow>, nat))
    ensures r.1 >= next
    decreases |data|
  {
    if data == [] then (rows, next)
    else
      var n := |data|;
      var before := SavedAll(rows, next, data[..n - 1], prepare);
      match prepare(data[n - 1])
      case Raised => before
      case Returned(f) => (Upsert(before.0, f, before.1), before.1 + 1)
  }

  /** Every written record takes one rowid, whether it inserted or replaced. */
  lemma {:induction false} SavedAllTakesOneIdPerWrite(rows: seq<RecordRow>, next: nat, data: seq<map<string, Value>>,
                                                      prepare: map<string, Value> -> Reply<Fields>)
    ensures SavedAll(rows, next, data, prepare).1 == next + |Filter(data, Writes(prepare))|
    decreases |data|
  {
    if data != [] {
      var n := |data|;
      SavedAllTakesOneIdPerWrite(rows, next, data[..n - 1], prepare);
      FilterSnoc(data[..n - 1], data[n - 1], Writes(prepare));
      assert data == data[..n - 1] + [data[n - 1]];
    }
  }

  lemma SavedAllSnoc(rows: seq<RecordRow>, next: nat, data: seq<map<string, Value>>, i: nat,
                     prepare: map<string, Value> -> Reply<Fields>)
    requires i < |data|
    ensures SavedAll(rows, next, data[..i + 1], prepare) ==
              var before := SavedAll(rows, next, data[..i], prepare);
              match prepare(data[i])
              case Raised => before
              case Returned(f) => (Upsert(before.0, f, before.1), before.1 + 1)
  {
    assert data[..i + 1][..i] == data[..i];
  }

  /** No two rows share a non-NULL key. */
  predicate KeysUnique(rows: seq<RecordRow>) {
    forall i, j :: 0 <= i < |rows| && 0 <= j < |rows| && i != j ==> !SameKey(rows[i], rows[j])
  }

  /** Upserting keeps the key unique: the new row has replaced every row with its key. */
  lemma UpsertKeepsKeysUnique(rows: seq<RecordRow>, f: Fields, id: nat)
    requires KeysUnique(rows)
    ensures KeysUnique(Upsert(rows, f, id))
  {
    var kept := Filter(rows, KeepsAgainst(f));
    var r := Upsert(rows, f, id);
    FilterKeepsKeysUnique(rows, KeepsAgainst(f));
    assert r == kept + [RowOf(id, f)];
    forall i, j | 0 <= i < |r| && 0 <= j < |r| && i != j ensures !SameKey(r[i], r[j]) {
      if i < |kept| && j < |kept| {
        assert r[i] == kept[i] && r[j] == kept[j];
      } else if i < |kept| {
        assert r[i] in kept;
      } else {
        assert r[j] in kept;
      }
    }
  }

  /** The same keyed record written twice in one call counts twice, yet leaves one row
      with its key: the second write, under the later rowid. */
  lemma SameKeyTwiceCountsTwice(rows: seq<RecordRow>, next: nat, record: map<string, Value>,
                                prepare: map<string, Value> -> Reply<Fields>)
    requires prepare(record).Returned?
    requires prepare(record).value.trader.Some? && prepare(record).value.branch.Some?
    ensures |Filter([record, record], Writes(prepare))| == 2
    ensures var f := prepare(record).value;
            var table := SavedAll(rows, next, [record, record], prepare).0;
            && RowOf(next + 1, f) in table
            && forall r :: r in table && Conflicts(f, r) ==> r == RowOf(next + 1, f)
  {
    var f := prepare(record).value;
    FilterSnoc([], record, Writes(prepare));
    FilterSnoc([record], record, Writes(prepare));
    assert [record] + [record] == [record, record];
    SavedAllSnoc(rows, next, [record, record], 0, prepare);
    SavedAllSnoc(rows, next, [record, record], 1, prepare);
    assert [record, record][..0] == [] && [record, record][..2] == [record, record];
    var once := SavedAll(rows, next, [record, record][..1], prepare);
    assert once == (Upsert(rows, f, next), next + 1);
    assert SavedAll(rows, next, [record, record], prepare).0 == Upsert(once.0, f, next + 1);
    UpsertLastWriteWins(once.0, f, next + 1);
  }

  /** Deleting rows keeps the key unique. */
  lemma {:induction false} FilterKeepsKeysUnique(rows: seq<RecordRow>, p: RecordRow -> bool)
    requires KeysUnique(rows)
    ensures KeysUnique(Filter(rows, p))
    decreases |rows|
  {
    if rows != [] {
      var tail := rows[1..];
      assert KeysUnique(tail) by {
        forall i, j | 0 <= i < |tail| && 0 <= j < |tail| && i != j ensures !SameKey(tail[i], tail[j]) {
          assert tail[i] == rows[i + 1] && tail[j] == rows[j + 1];
        }
      }
      FilterKeepsKeysUnique(tail, p);
      if p(rows[0]) {
        var ft := Filter(tail, p);
        var f := Filter(rows, p);
        assert f == [rows[0]] + ft;
        forall i, j | 0 <= i < |f| && 0 <= j < |f| && i != j ensures !SameKey(f[i], f[j]) {
          if i == 0 {
            assert f[j] == ft[j - 1] && f[j] in tail;
            var k :| 0 <= k < |tail| && tail[k] == f[j];
            assert rows[k + 1] == f[j];
          } else if j == 0 {
            assert f[i] == ft[i - 1] && f[i] in tail;
            var k :| 0 <= k < |tail| && tail[k] == f[i];
            assert rows[k + 1] == f[i];
          } else {
            assert f[i] == ft[i - 1] && f[j] == ft[j - 1];
          }
        }
      }
    }
  }

  /** Last write wins: after an upsert the only row with the record's key is the new
      one, and every row with another key is still there. */
  lemma UpsertLastWriteWins(rows: seq<RecordRow>, f: Fields, id: nat)
    ensures RowOf(id, f) in Upsert(rows, f, id)
    ensures forall r :: r in Upsert(rows, f, id) && Conflicts(f, r) ==> r == RowOf(id, f)
    ensures forall r :: r in rows && !Conflicts(f, r) ==> r in Upsert(rows, f, id)
    ensures forall r :: r in Upsert(rows, f, id) ==> r in rows || r == RowOf(id, f)
  {
    var u := Upsert(rows, f, id);
    assert u == Filter(rows, KeepsAgainst(f)) + [RowOf(id, f)];
  }

  // ------------------------------------------------------------ queries

  /** The WHERE clause of `get_longhubang_data`; an empty filter is not applied. */
  predicate InRange(r: RecordRow, start: string, end: string, code: string) {
    && (start == "" || StrLe(start, r.date))
    && (end == "" || StrLe(r.date, end))
    && (code == "" || r.code == code)
  }

  function InRangeFor(start: string, end: string, code: string): RecordRow -> bool {
    (r: RecordRow) => InRange(r, start, end, code)
  }

  /** `net_inflow DESC`: larger first, NULL last. */
  predicate NetGe(a: Option<real>, b: Option<real>) {
    b.None? || (a.Some? && a.value >= b.value)
  }

  /** `ORDER BY date DESC, net_inflow DESC` */
  function DateThenNet(): (RecordRow, RecordRow) -> bool {
    (a: RecordRow, b: RecordRow) => if a.date != b.date then StrLe(b.date, a.date) else NetGe(a.net, b.net)
  }

  lemma DateThenNetIsTotal()
    ensures TotalPreorder(DateThenNet())
  {
    var le := DateThenNet();
    forall a: RecordRow, b: RecordRow ensures le(a, b) || le(b, a) {
      StrLeTotal(a.date, b.date);
    }
    forall a: RecordRow, b: RecordRow, c: RecordRow | le(a, b) && le(b, c) ensures le(a, c) {
      StrLeRefl(a.date);
      StrLeRefl(b.date);
      StrLeRefl(c.date);
      assert StrLe(b.date, a.date) && StrLe(c.date, b.date);
      StrLeTrans(c.date, b.date, a.date);
      if a.date == c.date && a.date != b.date {
        StrLeAntisym(a.date, b.date);
      }
    }
  }

  /** One group of `get_top_youzi`. */
  datatype TraderTotal = TraderTotal(
    trader: Option<string>, tradeCount: nat, totalBuy: Option<real>, totalSell: Option<real>,
    totalNet: Option<real>)

  function OfTrader(t: Option<string>): RecordRow -> bool {
    (r: RecordRow) => r.trader == t
  }

  /** SQL `SUM`: NULLs are skipped; NULL when every value is NULL. */
  function SqlSum(xs: seq<Option<real>>): (r: Option<real>)
    ensures r.None? <==> forall i :: 0 <= i < |xs| ==> xs[i].None?
    ensures r.Some? ==> r.value == SetTotal(xs)
  {
    if xs == [] then None
    else
      var rest := SqlSum(xs[1..]);
      assert forall i :: 1 <= i < |xs| ==> xs[i] == xs[1..][i - 1];
      SetTotalFront(xs);
      SetTotalOfNulls(xs[1..]);
      if xs[0].None? then rest
      else if rest.None? then xs[0]
      else Some(xs[0].value + rest.value)
  }

  /** The sum of the values that are set, NULLs counting as nothing. */
  function SetTotal(xs: seq<Option<real>>): real {
    if xs == [] then 0.0
    else SetTotal(xs[..|xs| - 1]) + (if xs[|xs| - 1].Some? then xs[|xs| - 1].value else 0.0)
  }

  lemma {:induction false} SetTotalFront(xs: seq<Option<real>>)
    requires xs != []
    ensures SetTotal(xs) == (if xs[0].Some? then xs[0].value else 0.0) + SetTotal(xs[1..])
    decreases |xs|
  {
    var n := |xs|;
    if n > 1 {
      SetTotalFront(xs[..n - 1]);
      assert xs[..n - 1][1..] == xs[1..][..n - 2];
    } else {
      assert xs[..n - 1] == [] && xs[1..] == [];
    }
  }

  lemma {:induction false} SetTotalOfNulls(xs: seq<Option<real>>)
    ensures (forall i :: 0 <= i < |xs| ==> xs[i].None?) ==> SetTotal(xs) == 0.0
    decreases |xs|
  {
    if xs != [] {
      SetTotalOfNulls(xs[..|xs| - 1]);
    }
  }

  /** The traders of `rows` (NULL being one group), each once, in order of first appearance. */
  function Traders(rows: seq<RecordRow>): (ts: seq<Option<string>>)
    ensures forall i, j :: 0 <= i < j < |ts| ==> ts[i] != ts[j]
    ensures forall t :: t in ts <==> exists r :: r in rows && r.trader == t
    decreases |rows|
  {
    if rows == [] then []
    else
      var n := |rows|;
      var ts := Traders(rows[..n - 1]);
      assert forall r :: r in rows <==> r in rows[..n - 1] || r == rows[n - 1] by {
        assert rows == rows[..n - 1] + [rows[n - 1]];
      }
      if rows[n - 1].trader in ts then ts else ts + [rows[n - 1].trader]
  }

  function Group(rows: seq<RecordRow>, t: Option<string>): (g: TraderTotal)
    ensures g.trader == t
  {
    var mine := Filter(rows, OfTrader(t));
    TraderTotal(t, |mine|,
                SqlSum(seq(|mine|, i requires 0 <= i < |mine| => mine[i].buy)),
                SqlSum(seq(|mine|, i requires 0 <= i < |mine| => mine[i].sell)),
                SqlSum(seq(|mine|, i requires 0 <= i < |mine| => mine[i].net)))
  }

  /** `GROUP BY youzi_name`: one total per trader. */
  function Groups(rows: seq<RecordRow>): (gs: seq<TraderTotal>)
    ensures |gs| == |Traders(rows)|
    ensures forall i :: 0 <= i < |gs| ==> gs[i] == Group(rows, Traders(rows)[i])
  {
    var ts := Traders(rows);
    seq(|ts|, i requires 0 <= i < |ts| => Group(rows, ts[i]))
  }

  /** `ORDER BY total_net_inflow DESC` */
  function ByTotalNet(): (TraderTotal, TraderTotal) -> bool {
    (a: TraderTotal, b: TraderTotal) => NetGe(a.totalNet, b.totalNet)
  }

  lemma ByTotalNetIsTotal()
    ensures TotalPreorder(ByTotalNet())
  {
  }

  /** The sum of the groups' trade counts. */
  function CountSum(gs: seq<TraderTotal>): nat {
    if gs == [] then 0 else gs[0].tradeCount + CountSum(gs[1..])
  }

  function CountsOf(rows: seq<RecordRow>, ts: seq<Option<string>>): nat {
    if ts == [] then 0 else |Filter(rows, OfTrader(ts[0]))| + CountsOf(rows, ts[1..])
  }

  lemma {:induction false} CountsOfSnoc(rows: seq<RecordRow>, x: RecordRow, ts: seq<Option<string>>)
    requires forall i, j :: 0 <= i < j < |ts| ==> ts[i] != ts[j]
    ensures CountsOf(rows + [x], ts) == CountsOf(rows, ts) + (if x.trader in ts then 1 else 0)
    decreases |ts|
  {
    if ts != [] {
      FilterSnoc(rows, x, OfTrader(ts[0]));
      CountsOfSnoc(rows, x, ts[1..]);
      assert x.trader in ts <==> x.trader == ts[0] || x.trader in ts[1..] by {
        assert ts == [ts[0]] + ts[1..];
      }
      if x.trader == ts[0] {
        assert ts[0] !in ts[1..] by {
          forall k | 0 <= k < |ts[1..]| ensures ts[1..][k] != ts[0] { assert ts[1..][k] == ts[k + 1]; }
        }
      }
    }
  }

  lemma {:induction false} CountsOfAbsent(rows: seq<RecordRow>, t: Option<string>, ts: seq<Option<string>>)
    requires forall r :: r in rows ==> r.trader != t
    ensures CountsOf(rows, ts + [t]) == CountsOf(rows, ts)
    decreases |ts|
  {
    if ts == [] {
      FilterNone(rows, OfTrader(t));
      assert [t][1..] == [];
    } else {
      assert (ts + [t])[1..] == ts[1..] + [t];
      CountsOfAbsent(rows, t, ts[1..]);
    }
  }

  /** Every row falls in exactly one group: the trade counts add up to the rows. */
  lemma {:induction false} CountsAddUp(rows: seq<RecordRow>)
    ensures CountsOf(rows, Traders(rows)) == |rows|
    decreases |rows|
  {
    if rows != [] {
      var n := |rows|;
      var prefix := rows[..n - 1];
      var x := rows[n - 1];
      assert rows == prefix + [x];
      CountsAddUp(prefix);
      var ts := Traders(prefix);
      if x.trader in ts {
        CountsOfSnoc(prefix, x, ts);
      } else {
        CountsOfAbsent(prefix, x.trader, ts);
        CountsOfSnoc(prefix, x, ts + [x.trader]);
        assert x.trader in ts + [x.trader];
      }
    }
  }

  lemma {:induction false} CountSumOfGroups(rows: seq<RecordRow>, ts: seq<Option<string>>)
    ensures CountSum(seq(|ts|, i requires 0 <= i < |ts| => Group(rows, ts[i]))) == CountsOf(rows, ts)
    decreases |ts|
  {
    if ts != [] {
      var gs := seq(|ts|, i requires 0 <= i < |ts| => Group(rows, ts[i]));
      CountSumOfGroups(rows, ts[1..]);
      assert gs[1..] == seq(|ts[1..]|, i requires 0 <= i < |ts[1..]| => Group(rows, ts[1..][i]));
    }
  }

  /** The trade counts of all groups add up to the number of rows grouped. */
  lemma GroupsCoverRows(rows: seq<RecordRow>)
    ensures CountSum(Groups(rows)) == |rows|
  {
    CountSumOfGroups(rows, Traders(rows));
    CountsAddUp(rows);
  }

  // ------------------------------------------------------------ the database

  class LonghubangDatabase {
    var records: seq<RecordRow>
    var reports: seq<ReportRow>
    var tracking: seq<TrackingRow>
    var nextRecordId: nat
    var nextReportId: nat

    ghost predicate Valid()
      reads this
    {
      && DistinctBy(records, RecordId)
      && (forall r :: r in records ==> r.id < nextRecordId)
      && KeysUnique(records)
      && DistinctBy(reports, ReportId)
      && (forall r :: r in reports ==> r.id < nextReportId)
      && DistinctBy(tracking, TrackingId)
    }

    /** A database file whose tables already hold rows (`CREATE TABLE IF NOT EXISTS`
        leaves them as they are). */
    constructor Open(records: seq<RecordRow>, reports: seq<ReportRow>, tracking: seq<TrackingRow>,
                     nextRecordId: nat, nextReportId: nat)
      requires DistinctBy(records, RecordId) && KeysUnique(records)
      requires forall r :: r in records ==> r.id < nextRecordId
      requires DistinctBy(reports, ReportId) && (forall r :: r in reports ==> r.id < nextReportId)
      requires DistinctBy(tracking, TrackingId)
      ensures Valid()
      ensures this.records == records && this.reports == reports && this.tracking == tracking
      ensures this.nextRecordId == nextRecordId && this.nextReportId == nextReportId
    {
      this.records := records;
      this.reports := reports;
      this.tracking := tracking;
      this.nextRecordId := nextRecordId;
      this.nextReportId := nextReportId;
    }

    /** `save_longhubang_data`: each record in turn is upserted; a record that raises
        is skipped. Returns how many records were written, which counts every written
        record, also one that replaced a row written earlier in the same call. */
    method SaveLonghubangData(data: seq<map<string, Value>>, parse: string -> Option<real>,
                              show: real -> string)
      returns (saved: nat)
      requires Valid()
      modifies this
      ensures Valid() && reports == old(reports) && tracking == old(tracking)
      ensures nextReportId == old(nextReportId)
      ensures data == [] ==> saved == 0 && records == old(records)
      ensures saved == |Filter(data, Writes(PreparerFor(parse, show)))|
      ensures (records, nextRecordId) == SavedAll(old(records), old(nextRecordId), data, PreparerFor(parse, show))
    {
      if data == [] {
        return 0;
      }
      saved := SaveRecords(data, PreparerFor(parse, show));
    }

    /** The loop of `save_longhubang_data`, with the preparation of one record as
        `prepare`. */
    method SaveRecords(data: seq<map<string, Value>>, prepare: map<string, Value> -> Reply<Fields>)
      returns (saved: nat)
      requires Valid()
      modifies this
      ensures Valid() && reports == old(reports) && tracking == old(tracking)
      ensures nextReportId == old(nextReportId)
      ensures saved == |Filter(data, Writes(prepare))|
      ensures (records, nextRecordId) == SavedAll(old(records), old(nextRecordId), data, prepare)
    {
      saved := 0;
      ghost var rows0, next0 := records, nextRecordId;
      var i := 0;
      assert data[..0] == [];
      while i < |data|
        invariant 0 <= i <= |data|
        invariant Valid() && reports == old(reports) && tracking == old(tracking)
        invariant nextReportId == old(nextReportId)
        invariant records == SavedAll(rows0, next0, data[..i], prepare).0
        invariant nextRecordId == SavedAll(rows0, next0, data[..i], prepare).1
        invariant saved == |Filter(data[..i], Writes(prepare))|
      {
        SavedAllSnoc(rows0, next0, data, i, prepare);
        FilterSnoc(data[..i], data[i], Writes(prepare));
        assert data[..i + 1] == data[..i] + [data[i]];
        match prepare(data[i]) {
          case Raised =>
          case Returned(f) =>
            Write(f);
            saved := saved + 1;
        }
        i := i + 1;
      }
      assert data[..i] == data;
    }

    /** One `INSERT OR REPLACE` of prepared columns under the next rowid. */
    method Write(f: Fields)
      requires Valid()
      modifies this
      ensures Valid() && reports == old(reports) && tracking == old(tracking)
      ensures records == Upsert(old(records), f, old(nextRecordId))
      ensures nextRecordId == old(nextRecordId) + 1 && nextReportId == old(nextReportId)
    {
      var row := RowOf(nextRecordId, f);
      UpsertKeepsKeysUnique(records, f, nextRecordId);
      FilterDistinctBy(records, KeepsAgainst(f), RecordId);
      AppendDistinctBy(Filter(records, KeepsAgainst(f)), row, RecordId);
      records := Upsert(records, f, nextRecordId);
      nextRecordId := nextRecordId + 1;
    }

    /** `get_longhubang_data`: the rows within [start, end] and of the code, for the
        filters given, by date and then net inflow, both descending. */
    function LonghubangData(start: string, end: string, code: string): (r: seq<RecordRow>)
      reads this
      ensures multiset(r) == multiset(Filter(records, InRangeFor(start, end, code)))
      ensures forall x :: x in r <==> x in records && InRange(x, start, end, code)
      ensures SortedBy(r, DateThenNet())
    {
      DateThenNetIsTotal();
      Sort(Filter(records, InRangeFor(start, end, code)), DateThenNet())
    }

    /** `get_top_youzi`: the rows within [start, end] grouped by trader with their
        count and sums, by total net inflow descending, at most `limit` groups (all of
        them for a negative limit). */
    function TopYouzi(start: string, end: string, limit: int): (r: seq<TraderTotal>)
      reads this
      ensures limit >= 0 ==> |r| <= limit
      ensures forall g :: g in r ==> g in Groups(Filter(records, InRangeFor(start, end, "")))
      ensures multiset(r) <= multiset(Groups(Filter(records, InRangeFor(start, end, ""))))
      ensures limit < 0 || limit >= |Groups(Filter(records, InRangeFor(start, end, "")))| ==>
                multiset(r) == multiset(Groups(Filter(records, InRangeFor(start, end, ""))))
      ensures 0 <= limit < |Groups(Filter(records, InRangeFor(start, end, "")))| ==> |r| == limit
      ensures SortedBy(r, ByTotalNet())
      ensures forall g, h :: g in Groups(Filter(records, InRangeFor(start, end, ""))) && g !in r && h in r ==>
                NetGe(h.totalNet, g.totalNet)
    {
      ByTotalNetIsTotal();
      var sorted := Sort(Groups(Filter(records, InRangeFor(start, end, ""))), ByTotalNet());
      LimitSorted(sorted, limit, ByTotalNet());
      Limit(sorted, limit)
    }

    /** `save_analysis_report`: one report row under the next id, with a dictionary
        content and the recommended stocks turned into JSON text by `dumps`; a value
        the driver cannot bind raises and nothing is inserted. */
    method SaveAnalysisReport(dateRange: Value, content: Value, recommended: Value, summary: Value,
                              dumps: Value -> string, now: int)
      returns (r: Reply<nat>)
      requires Valid()
      modifies this
      ensures Valid() && records == old(records) && tracking == old(tracking)
      ensures nextRecordId == old(nextRecordId)
      ensures r.Raised? <==> !(Bindable(dateRange) && (content.Dict? || Bindable(content)) && Bindable(summary))
      ensures r.Raised? ==> reports == old(reports) && nextReportId == old(nextReportId)
      ensures r.Returned? ==>
                && r.value == old(nextReportId) && nextReportId == r.value + 1
                && reports == old(reports) + [ReportRow(r.value, now, dateRange,
                                                        if content.Dict? then Str(dumps(content)) else content,
                                                        dumps(recommended), summary)]
    {
      var stored := if content.Dict? then Str(dumps(content)) else content;
      if !(Bindable(dateRange) && Bindable(stored) && Bindable(summary)) {
        return Raised;
      }
      var row := ReportRow(nextReportId, now, dateRange, stored, dumps(recommended), summary);
      AppendDistinctBy(reports, row, ReportId);
      reports := reports + [row];
      r := Returned(nextReportId);
      nextReportId := nextReportId + 1;
    }

    /** `delete_analysis_report`: deletes the tracking rows of the report, then the
        report; True exactly when a report row was deleted. */
    method DeleteAnalysisReport(reportId: int) returns (deleted: bool)
      requires Valid()
      modifies this
      ensures Valid() && records == old(records)
      ensures nextRecordId == old(nextRecordId) && nextReportId == old(nextReportId)
      ensures deleted <==> exists r :: r in old(reports) && r.id == reportId
      ensures tracking == Filter(old(tracking), NotOfReport(reportId))
      ensures reports == Filter(old(reports), NotReport(reportId))
      ensures forall t :: t in tracking ==> t.analysisId != Some(reportId)
      ensures forall r :: r in reports ==> r.id != reportId
    {
      FilterDistinctBy(tracking, NotOfReport(reportId), TrackingId);
      tracking := Filter(tracking, NotOfReport(reportId));
      deleted := exists r :: r in reports && r.id == reportId;
      FilterDistinctBy(reports, NotReport(reportId), ReportId);
      reports := Filter(reports, NotReport(reportId));
    }

    /** `update_stock_tracking`: sets the price, status, notes and update time of the
        tracking rows of that report and code, and of no other; a value the driver
        cannot bind raises and nothing changes. */
    method UpdateStockTracking(analysisId: int, code: string, currentPrice: Value, status: Value,
                               notes: Value, now: int)
      returns (raised: bool)
      requires Valid()
      modifies this
      ensures Valid() && records == old(records) && reports == old(reports)
      ensures nextRecordId == old(nextRecordId) && nextReportId == old(nextReportId)
      ensures raised <==> !(Bindable(currentPrice) && Bindable(status) && Bindable(notes))
      ensures raised ==> tracking == old(tracking)
      ensures !raised ==> tracking == Tracked(old(tracking), analysisId, code, currentPrice, status, notes, now)
    {
      if !(Bindable(currentPrice) && Bindable(status) && Bindable(notes)) {
        return true;
      }
      var updated := Tracked(tracking, analysisId, code, currentPrice, status, notes, now);
      assert forall i :: 0 <= i < |tracking| ==> updated[i].id == tracking[i].id;
      tracking := updated;
      return false;
    }
  }

  function NotOfReport(id: int): TrackingRow -> bool {
    (t: TrackingRow) => t.analysisId != Some(id)
  }

  function NotReport(id: int): ReportRow -> bool {
    (r: ReportRow) => r.id != id
  }

  /** The WHERE clause of `update_stock_tracking` (a NULL analysis_id never matches). */
  predicate TrackedBy(t: TrackingRow, analysisId: int, code: string) {
    t.analysisId == Some(analysisId) && t.code == code
  }

  /** The tracking table after the UPDATE: matching rows get the new values and the
      update time, the rest stay as they were. */
  function Tracked(rows: seq<TrackingRow>, analysisId: int, code: string, currentPrice: Value,
                   status: Value, notes: Value, now: int): (r: seq<TrackingRow>)
    ensures |r| == |rows|
    ensures forall i :: 0 <= i < |rows| && !TrackedBy(rows[i], analysisId, code) ==> r[i] == rows[i]
    ensures forall i :: 0 <= i < |rows| && TrackedBy(rows[i], analysisId, code) ==>
              r[i] == rows[i].(currentPrice := currentPrice, status := status, notes := notes, updatedAt := now)
  {
    seq(|rows|, i requires 0 <= i < |rows| =>
      if TrackedBy(rows[i], analysisId, code)
      then rows[i].(currentPrice := currentPrice, status := status, notes := notes, updatedAt := now)
      else rows[i])
  }
}
