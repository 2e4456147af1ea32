/** The dragon-tiger list analysis engine (longhubang_engine.py): the flow of one
    comprehensive analysis (fetch, store, analyse, recommend, report, save), the
    recommendation list, the final report and the date-range label. The data fetcher,
    the summary, scoring and analyst agents, and Python's text formatting are
    parameters. */
module LonghubangEngine {
  import opened Common
  import opened LonghubangDb

  // ------------------------------------------------------------ _get_date_range

  /** The dates of the records, in order: `rq`, else `日期`, when truthy. */
  function Dates(data: seq<map<string, Value>>): (ds: seq<Value>)
    ensures forall i :: 0 <= i < |ds| ==> Truthy(ds[i])
    ensures forall v :: v in ds <==> exists d :: d in data && Field(d, "rq", "日期") == v && Truthy(v)
    decreases |data|
  {
    if data == [] then []
    else
      var n := |data|;
      var last := Field(data[n - 1], "rq", "日期");
      assert forall d :: d in data <==> d in data[..n - 1] || d == data[n - 1] by {
        assert data == data[..n - 1] + [data[n - 1]];
      }
      Dates(data[..n - 1]) + (if Truthy(last) then [last] else [])
  }

  predicate AllText(ds: seq<Value>) {
    forall i :: 0 <= i < |ds| ==> ds[i].Str?
  }

  function Texts(ds: seq<Value>): (ts: seq<string>)
    requires AllText(ds)
    ensures |ts| == |ds| && forall i :: 0 <= i < |ds| ==> ts[i] == ds[i].s
  {
    seq(|ds|, i requires 0 <= i < |ds| => ds[i].s)
  }

  /** The first text of `sorted(ts)`. */
  function MinText(ts: seq<string>): (m: string)
    requires ts != []
    ensures m in ts && forall t :: t in ts ==> StrLe(m, t)
  {
    if |ts| == 1 then
      assert forall t :: t in ts ==> t == ts[0];
      StrLeRefl(ts[0]);
      ts[0]
    else
      var rest := MinText(ts[1..]);
      StrLeTotal(ts[0], rest);
      assert forall t :: t in ts ==> t == ts[0] || t in ts[1..] by {
        assert ts == [ts[0]] + ts[1..];
      }
      if StrLe(ts[0], rest) then
        assert forall t :: t in ts[1..] ==> StrLe(ts[0], t) by {
          forall t | t in ts[1..] ensures StrLe(ts[0], t) { StrLeTrans(ts[0], rest, t); }
        }
        StrLeRefl(ts[0]);
        ts[0]
      else rest
  }

  /** The last text of `sorted(ts)`. */
  function MaxText(ts: seq<string>): (m: string)
    requires ts != []
    ensures m in ts && forall t :: t in ts ==> StrLe(t, m)
  {
    if |ts| == 1 then
      assert forall t :: t in ts ==> t == ts[0];
      StrLeRefl(ts[0]);
      ts[0]
    else
      var rest := MaxText(ts[1..]);
      StrLeTotal(ts[0], rest);
      assert forall t :: t in ts ==> t == ts[0] || t in ts[1..] by {
        assert ts == [ts[0]] + ts[1..];
      }
      if StrLe(rest, ts[0]) then
        assert forall t :: t in ts[1..] ==> StrLe(t, ts[0]) by {
          forall t | t in ts[1..] ensures StrLe(t, ts[0]) { StrLeTrans(t, rest, ts[0]); }
        }
        StrLeRefl(ts[0]);
        ts[0]
      else rest
  }

  /** `_get_date_range`: '未知' without records or dates; the one date when all dates
      are the same; otherwise "earliest 至 latest". Dates other than text are not
      ordered here and raise. */
  function DateRange(data: seq<map<string, Value>>): (r: Reply<string>)
    ensures Dates(data) == [] ==> r == Returned("未知")
    ensures Dates(data) != [] && !AllText(Dates(data)) ==> r == Raised
  {
    if data == [] then Returned("未知")
    else
      var ds := Dates(data);
      if ds == [] then Returned("未知")
      else if !AllText(ds) then Raised
      else
        var lo := MinText(Texts(ds));
        var hi := MaxText(Texts(ds));
        if lo == hi then Returned(lo) else Returned(lo + " 至 " + hi)
  }

  /** Text dates give the earliest and the latest of them, joined when they differ. */
  lemma DateRangeBounds(data: seq<map<string, Value>>)
    requires Dates(data) != [] && AllText(Dates(data))
    ensures var ts := Texts(Dates(data));
            var lo, hi := MinText(ts), MaxText(ts);
            && lo in ts && hi in ts
            && (forall t :: t in ts ==> StrLe(lo, t) && StrLe(t, hi))
            && DateRange(data) == (if lo == hi then Returned(lo) else Returned(lo + " 至 " + hi))
  {
  }

  /** When every record carries the same date `d`, the range is `d` itself. */
  lemma {:induction false} OneDistinctDate(data: seq<map<string, Value>>, d: string)
    requires Dates(data) != []
    requires forall v :: v in Dates(data) ==> v == Str(d)
    ensures DateRange(data) == Returned(d)
  {
    var ds := Dates(data);
    assert AllText(ds) by {
      forall i | 0 <= i < |ds| ensures ds[i].Str? { assert ds[i] in ds; }
    }
    var ts := Texts(ds);
    assert forall t :: t in ts ==> t == d by {
      forall t | t in ts ensures t == d {
        var i :| 0 <= i < |ts| && ts[i] == t;
        assert ds[i] in ds;
      }
    }
  }

  /** Two different text dates give a range from the smaller to the larger. */
  lemma TwoDistinctDates(data: seq<map<string, Value>>, a: string, b: string)
    requires AllText(Dates(data))
    requires Str(a) in Dates(data) && Str(b) in Dates(data) && a != b
    ensures DateRange(data).Returned?
    ensures var ts := Texts(Dates(data));
            DateRange(data) == Returned(MinText(ts) + " 至 " + MaxText(ts))
    ensures StrLe(MinText(Texts(Dates(data))), a) && StrLe(a, MaxText(Texts(Dates(data))))
  {
    var ds := Dates(data);
    var ts := Texts(ds);
    DateRangeBounds(data);
    var i :| 0 <= i < |ds| && ds[i] == Str(a);
    var j :| 0 <= j < |ds| && ds[j] == Str(b);
    assert ts[i] == a && ts[j] == b;
    var lo, hi := MinText(ts), MaxText(ts);
    assert StrLe(lo, a) && StrLe(a, hi) && StrLe(lo, b) && StrLe(b, hi);
    assert lo != hi by {
      if lo == hi {
        StrLeAntisym(a, lo);
        StrLeAntisym(b, lo);
      }
    }
  }

  /** `_get_date_range`, collecting the dates in a loop. */
  method GetDateRange(data: seq<map<string, Value>>) returns (r: Reply<string>)
    ensures r == DateRange(data)
  {
    if data == [] {
      return Returned("未知");
    }
    var dates: seq<Value> := [];
    var i := 0;
    while i < |data|
      invariant 0 <= i <= |data|
      invariant dates == Dates(data[..i])
    {
      var date := Field(data[i], "rq", "日期");
      assert data[..i + 1][..i] == data[..i];
      if Truthy(date) {
        dates := dates + [date];
      }
      i := i + 1;
    }
    assert data[..i] == data;
    if dates == [] {
      return Returned("未知");
    }
    if !AllText(dates) {
      return Raised;
    }
    var lo := MinText(Texts(dates));
    var hi := MaxText(Texts(dates));
    if lo == hi {
      r := Returned(lo);
    } else {
      r := Returned(lo + " 至 " + hi);
    }
  }

  // ------------------------------------------------------------ _extract_recommended_stocks

  /** One recommended stock. */
  datatype Recommendation = Recommendation(
    rank: nat, code: Value, name: Value, netInflow: Value, reason: string,
    confidence: string, buyPrice: string, targetPrice: string, stopLoss: string, holdPeriod: string)

  /** The entry for one top stock at `rank`: its code, name and net inflow, the reason
      with the inflow formatted by `money` (`{:,.2f}`), and the fixed placeholders. A
      stock that is not a dictionary, lacks a key or whose inflow is not a number
      raises. */
  function Recommend(stock: Value, rank: nat, money: Value -> Option<string>): (r: Reply<Recommendation>)
    ensures r.Returned? ==> r.value.rank == rank && stock.Dict? && "code" in stock.entries && r.value.code == stock.entries["code"]
    ensures r.Returned? ==>
              && r.value.confidence == "中" && r.value.buyPrice == "待定" && r.value.targetPrice == "待定"
              && r.value.stopLoss == "待定" && r.value.holdPeriod == "短线"
    ensures r.Raised? <==>
              || !stock.Dict?
              || "code" !in stock.entries || "name" !in stock.entries || "net_inflow" !in stock.entries
              || money(stock.entries["net_inflow"]).None?
    ensures r.Returned? ==>
              && r.value.name == stock.entries["name"] && r.value.netInflow == stock.entries["net_inflow"]
              && r.value.reason == "资金净流入 " + money(stock.entries["net_inflow"]).value + " 元"
  {
    if !stock.Dict? then Raised
    else
      var m := stock.entries;
      if "code" !in m || "name" !in m || "net_inflow" !in m then Raised
      else if money(m["net_inflow"]).None? then Raised
      else Returned(Recommendation(rank, m["code"], m["name"], m["net_inflow"],
                                   "资金净流入 " + money(m["net_inflow"]).value + " 元",
                                   "中", "待定", "待定", "待定", "短线"))
  }

  /** The entries for `stocks`, ranked from 1 in their order, or Raised when one raises. */
  function RankAll(stocks: seq<Value>, money: Value -> Option<string>): (r: Reply<seq<Recommendation>>)
    ensures r.Returned? ==> |r.value| == |stocks|
    ensures r.Returned? ==> forall i :: 0 <= i < |stocks| ==> Recommend(stocks[i], i + 1, money) == Returned(r.value[i])
    ensures r.Raised? <==> exists i :: 0 <= i < |stocks| && Recommend(stocks[i], i + 1, money).Raised?
    decreases |stocks|
  {
    if stocks == [] then Returned([])
    else
      var n := |stocks|;
      var before := RankAll(stocks[..n - 1], money);
      var last := Recommend(stocks[n - 1], n, money);
      assert forall i :: 0 <= i < n - 1 ==> stocks[..n - 1][i] == stocks[i];
      if before.Raised? then Raised
      else if last.Raised? then Raised
      else Returned(before.value + [last.value])
  }

  /** The top stocks of the summary, at most ten of them; empty when there are none
      (`top_stocks` missing or falsy); Raised when `top_stocks` is truthy but not a
      list (its slice or its elements cannot be indexed by key). */
  function TopStocks(summary: map<string, Value>): (r: Reply<seq<Value>>)
    ensures !Truthy(Get(summary, "top_stocks")) ==> r == Returned([])
    ensures r.Returned? ==> |r.value| <= 10
    ensures r.Returned? && Truthy(Get(summary, "top_stocks")) ==>
              Get(summary, "top_stocks").List? &&
              var xs := Get(summary, "top_stocks").items;
              r.value == xs[..if |xs| < 10 then |xs| else 10]
  {
    var v := Get(summary, "top_stocks");
    if !Truthy(v) then Returned([])
    else if !v.List? then Raised
    else Returned(v.items[..if |v.items| < 10 then |v.items| else 10])
  }

  /** What `_extract_recommended_stocks` returns for a summary. */
  function Recommended(summary: map<string, Value>, money: Value -> Option<string>): (r: Reply<seq<Recommendation>>)
    ensures !Truthy(Get(summary, "top_stocks")) ==> r == Returned([])
    ensures r.Returned? ==> |r.value| <= 10
    ensures r.Returned? ==> forall i :: 0 <= i < |r.value| ==> r.value[i].rank == i + 1
    ensures r.Returned? ==>
              && TopStocks(summary).Returned? && |r.value| == |TopStocks(summary).value|
              && forall i :: 0 <= i < |r.value| ==>
                   Recommend(TopStocks(summary).value[i], i + 1, money) == Returned(r.value[i])
  {
    match TopStocks(summary)
    case Raised => Raised
    case Returned(stocks) => RankAll(stocks, money)
  }

  /** `_extract_recommended_stocks`: the analysts' texts are not read; one entry per
      top stock of the summary, in its order. */
  method ExtractRecommendedStocks(chiefAnalysis: string, stockAnalysis: string, summary: map<string, Value>,
                                  money: Value -> Option<string>)
    returns (r: Reply<seq<Recommendation>>)
    ensures r == Recommended(summary, money)
  {
    var recommended: seq<Recommendation> := [];
    var top := TopStocks(summary);
    if top.Raised? {
      return Raised;
    }
    var stocks := top.value;
    var i := 0;
    while i < |stocks|
      invariant 0 <= i <= |stocks|
      invariant RankAll(stocks[..i], money) == Returned(recommended)
    {
      assert stocks[..i + 1][..i] == stocks[..i];
      var entry := Recommend(stocks[i], i + 1, money);
      if entry.Raised? {
        RankAllStaysRaised(stocks, i + 1, money);
        return Raised;
      }
      recommended := recommended + [entry.value];
      i := i + 1;
    }
    assert stocks[..i] == stocks;
    return Returned(recommended);
  }

  /** Once a stock raises, the whole extraction raises. */
  lemma RankAllStaysRaised(stocks: seq<Value>, j: nat, money: Value -> Option<string>)
    requires 0 < j <= |stocks| && Recommend(stocks[j - 1], j, money).Raised?
    ensures RankAll(stocks, money).Raised?
  {
  }

  // ------------------------------------------------------------ _generate_final_report

  datatype FinalReport = FinalReport(
    title: string, timestamp: int, summary: string,
    totalRecords: Value, totalStocks: Value, totalYouzi: Value, totalNetInflow: Value,
    recommendedCount: nat, agentsCount: nat)

  /** The four clauses of the report summary; `show` is `str()` as an f-string uses it. */
  function Clauses(summary: map<string, Value>, recommendedCount: nat, show: Value -> string): seq<string> {
    [ "本次分析共涵盖 " + show(GetOr(summary, "total_records", Int(0))) + " 条龙虎榜记录",
      "涉及 " + show(GetOr(summary, "total_stocks", Int(0))) + " 只股票",
      "涉及 " + show(GetOr(summary, "total_youzi", Int(0))) + " 个游资席位",
      "共推荐 " + NatText(recommendedCount) + " 只潜力股票" ]
  }

  /** `sep.join(parts)` */
  function Join(parts: seq<string>, sep: char): string {
    if parts == [] then ""
    else if |parts| == 1 then parts[0]
    else parts[0] + [sep] + Join(parts[1..], sep)
  }

  /** `_generate_final_report` */
  function FinalReportOf(agentsCount: nat, summary: map<string, Value>, recommended: seq<Recommendation>,
                         show: Value -> string, now: int): (r: FinalReport)
    ensures r.recommendedCount == |recommended| && r.agentsCount == agentsCount
    ensures r.totalRecords == GetOr(summary, "total_records", Int(0))
    ensures r.totalStocks == GetOr(summary, "total_stocks", Int(0))
    ensures r.totalYouzi == GetOr(summary, "total_youzi", Int(0))
    ensures r.timestamp == now && r.title == "智瞰龙虎榜综合分析报告"
    ensures r.totalNetInflow == GetOr(summary, "total_net_inflow", Int(0))
    ensures EndsWith(r.summary, "。")
  {
    var text := Join(Clauses(summary, |recommended|, show), '，') + "。";
    FinalReport("智瞰龙虎榜综合分析报告", now, text,
                GetOr(summary, "total_records", Int(0)), GetOr(summary, "total_stocks", Int(0)),
                GetOr(summary, "total_youzi", Int(0)), GetOr(summary, "total_net_inflow", Int(0)),
                |recommended|, agentsCount)
  }

  predicate NoComma(s: string) { forall i :: 0 <= i < |s| ==> s[i] != '，' }

  /** Texts without '，' joined by '，' split back into themselves. */
  lemma SplitThree(b: string, c: string, d: string)
    requires NoComma(b) && NoComma(c) && NoComma(d)
    ensures Split(b + ['，'] + (c + ['，'] + d), '，') == [b, c, d]
  {
    SplitNone(d, '，');
    SplitAtFirst(c, '，', d);
    SplitAtFirst(b, '，', c + ['，'] + d);
  }

  lemma SplitFour(a: string, b: string, c: string, d: string)
    requires NoComma(a) && NoComma(b) && NoComma(c) && NoComma(d)
    ensures Split(a + ['，'] + (b + ['，'] + (c + ['，'] + d)), '，') == [a, b, c, d]
  {
    SplitThree(b, c, d);
    SplitAtFirst(a, '，', b + ['，'] + (c + ['，'] + d));
  }

  /** The clauses hold no '，' when the shown counts hold none. */
  lemma ClausesHaveNoComma(summary: map<string, Value>, recommendedCount: nat, show: Value -> string)
    requires NoComma(show(GetOr(summary, "total_records", Int(0))))
    requires NoComma(show(GetOr(summary, "total_stocks", Int(0))))
    requires NoComma(show(GetOr(summary, "total_youzi", Int(0))))
    ensures var cs := Clauses(summary, recommendedCount, show);
            |cs| == 4 && NoComma(cs[0]) && NoComma(cs[1]) && NoComma(cs[2]) && NoComma(cs[3] + "。")
  {
    var n := NatText(recommendedCount);
    assert NoComma(n) by {
      forall i | 0 <= i < |n| ensures n[i] != '，' { assert IsDigit(n[i]); }
    }
  }

  /** When the shown counts hold no '，', the summary splits at '，' into exactly the
      four clauses, the last one closed by '。'. */
  lemma SummaryHasFourClauses(agentsCount: nat, summary: map<string, Value>, recommended: seq<Recommendation>,
                              show: Value -> string, now: int)
    requires NoComma(show(GetOr(summary, "total_records", Int(0))))
    requires NoComma(show(GetOr(summary, "total_stocks", Int(0))))
    requires NoComma(show(GetOr(summary, "total_youzi", Int(0))))
    ensures var cs := Clauses(summary, |recommended|, show);
            Split(FinalReportOf(agentsCount, summary, recommended, show, now).summary, '，')
              == [cs[0], cs[1], cs[2], cs[3] + "。"]
  {
    var cs := Clauses(summary, |recommended|, show);
    ClausesHaveNoComma(summary, |recommended|, show);
    var d := cs[3] + "。";
    assert Join(cs, '，') + "。" == cs[0] + ['，'] + (cs[1] + ['，'] + (cs[2] + ['，'] + d)) by {
      assert cs[1..][1..][1..] == [cs[3]];
      assert Join(cs[1..][1..], '，') == cs[2] + ['，'] + cs[3];
      assert Join(cs[1..], '，') == cs[1] + ['，'] + (cs[2] + ['，'] + cs[3]);
    }
    SplitFour(cs[0], cs[1], cs[2], cs[3] + "。");
  }

  // ------------------------------------------------------------ run_comprehensive_analysis

  /** What a collaborator produced: a value, or an exception with its text. */
  datatype Step<T> = Done(value: T) | Failed(message: string)

  /** The `results` dictionary of one run. */
  datatype Results = Results(
    success: bool, timestamp: int, error: Option<string>, recommended: seq<Recommendation>,
    finalReport: Option<FinalReport>, reportId: Option<nat>)

  /** The five analysts whose results form `agents_results`. */
  const AgentRoles: seq<string> := ["youzi", "stock", "theme", "risk", "chief"]

  const NoDataError: string := "未获取到龙虎榜数据"

  function RecommendationValue(r: Recommendation): Value {
    Dict(map["rank" := Int(r.rank), "code" := r.code, "name" := r.name, "net_inflow" := r.netInflow,
             "reason" := Str(r.reason), "confidence" := Str(r.confidence), "buy_price" := Str(r.buyPrice),
             "target_price" := Str(r.targetPrice), "stop_loss" := Str(r.stopLoss),
             "hold_period" := Str(r.holdPeriod)])
  }

  function RecommendationsValue(rs: seq<Recommendation>): Value {
    List(seq(|rs|, i requires 0 <= i < |rs| => RecommendationValue(rs[i])))
  }

  /** The report's part of the stored analysis content. */
  function ReportValue(r: FinalReport): Value {
    Dict(map["title" := Str(r.title), "summary" := Str(r.summary),
             "recommended_stocks_count" := Int(r.recommendedCount), "agents_count" := Int(r.agentsCount)])
  }

  /** The report row a successful run stores under `id`: the date range, the content
      (the final report and the time) and the recommendations as JSON text, and the
      report's summary. */
  function ReportRowOf(id: nat, now: int, dateRange: string, report: FinalReport, recommended: seq<Recommendation>,
                       dumps: Value -> string): ReportRow
  {
    ReportRow(id, now, Str(dateRange),
              Str(dumps(Dict(map["final_report" := ReportValue(report), "timestamp" := Int(now)]))),
              dumps(RecommendationsValue(recommended)), Str(report.summary))
  }

  /** The analysis and report stages succeed when the recommendations and the date
      range can be built. */
  predicate Reports(data: seq<map<string, Value>>, summary: map<string, Value>, money: Value -> Option<string>) {
    Recommended(summary, money).Returned? && DateRange(data).Returned?
  }

  /** A run succeeds when records were fetched, every analysis stage returned, and the
      recommendations and the date range could be built. */
  predicate Succeeds(fetched: Step<seq<map<string, Value>>>, analysis: Step<map<string, Value>>,
                     money: Value -> Option<string>)
  {
    fetched.Done? && fetched.value != [] && analysis.Done? && Reports(fetched.value, analysis.value, money)
  }

  /** `run_comprehensive_analysis`. `fetched` is what the data fetcher returned for the
      requested date or days; `analysis` is the data summary once the summary, scoring
      and analyst stages ran, or the first exception among them; `exceptionText` is
      the text of an exception raised by the engine's own steps. */
  method RunComprehensiveAnalysis(db: LonghubangDatabase, fetched: Step<seq<map<string, Value>>>,
                                  analysis: Step<map<string, Value>>, parse: string -> Option<real>,
                                  showReal: real -> string, show: Value -> string,
                                  money: Value -> Option<string>, dumps: Value -> string,
                                  exceptionText: string, now: int)
    returns (results: Results)
    requires db.Valid()
    modifies db
    ensures db.Valid() && db.tracking == old(db.tracking)
    ensures fetched == Done([]) ==>
              && !results.success && results.error == Some(NoDataError)
              && db.records == old(db.records) && db.reports == old(db.reports)
    ensures fetched.Failed? ==>
              && !results.success && results.error == Some(fetched.message)
              && db.records == old(db.records) && db.reports == old(db.reports)
    ensures fetched.Done? && fetched.value != [] ==>
              (db.records, db.nextRecordId) ==
              SavedAll(old(db.records), old(db.nextRecordId), fetched.value, PreparerFor(parse, showReal))
    ensures results.success <==> Succeeds(fetched, analysis, money)
    ensures results.success <==> results.error.None?
    ensures !results.success ==> db.reports == old(db.reports) && results.reportId.None?
    ensures results.success ==>
              && results.reportId == Some(old(db.nextReportId))
              && results.recommended == Recommended(analysis.value, money).value
              && results.finalReport == Some(FinalReportOf(|AgentRoles|, analysis.value, results.recommended, show, now))
              && db.reports == old(db.reports) + [ReportRowOf(old(db.nextReportId), now, DateRange(fetched.value).value,
                                                              results.finalReport.value, results.recommended, dumps)]
  {
    results := Results(false, now, None, [], None, None);
    if fetched.Failed? {
      results := results.(error := Some(fetched.message));
      return;
    }
    var data := fetched.value;
    if data == [] {
      results := results.(error := Some(NoDataError));
      return;
    }
    var saved := db.SaveLonghubangData(data, parse, showReal);
    if analysis.Failed? {
      results := results.(error := Some(analysis.message));
      return;
    }
    results := Report(db, data, analysis.value, show, money, dumps, exceptionText, now);
  }

  /** The stages after the analysts: recommendations, final report, date range and the
      stored report. */
  method Report(db: LonghubangDatabase, data: seq<map<string, Value>>, summary: map<string, Value>,
                show: Value -> string, money: Value -> Option<string>, dumps: Value -> string,
                exceptionText: string, now: int)
    returns (results: Results)
    requires db.Valid()
    modifies db
    ensures db.Valid() && db.tracking == old(db.tracking) && db.records == old(db.records)
    ensures db.nextRecordId == old(db.nextRecordId)
    ensures results.success <==> Reports(data, summary, money)
    ensures results.success <==> results.error.None?
    ensures !results.success ==> db.reports == old(db.reports) && results.reportId.None?
    ensures results.success ==>
              && results.reportId == Some(old(db.nextReportId))
              && results.recommended == Recommended(summary, money).value
              && results.finalReport == Some(FinalReportOf(|AgentRoles|, summary, results.recommended, show, now))
              && db.reports == old(db.reports) + [ReportRowOf(old(db.nextReportId), now, DateRange(data).value,
                                                              results.finalReport.value, results.recommended, dumps)]
  {
    results := Results(false, now, None, [], None, None);
    var recommended := ExtractRecommendedStocks("", "", summary, money);
    if recommended.Raised? {
      results := results.(error := Some(exceptionText));
      return;
    }
    var report := FinalReportOf(|AgentRoles|, summary, recommended.value, show, now);
    results := results.(recommended := recommended.value, finalReport := Some(report));
    var dateRange := GetDateRange(data);
    if dateRange.Raised? {
      results := results.(error := Some(exceptionText));
      return;
    }
    var content := Dict(map["final_report" := ReportValue(report), "timestamp" := Int(now)]);
    var id := db.SaveAnalysisReport(Str(dateRange.value), content, RecommendationsValue(recommended.value),
                                    Str(report.summary), dumps, now);
    if id.Raised? {
      assert false;
    }
    results := results.(reportId := Some(id.value), success := true);
  }
}
