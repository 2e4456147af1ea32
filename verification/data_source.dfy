/** The data-source manager (data_source_manager.py): the exchange prefix and Tushare
    suffix derived from a six-digit A-share code, the way back from a Tushare code, the
    normalisation of the requested dates and adjustment, and the ordered fallback over
    the market-data providers in which the first usable frame wins. The providers are
    one function parameter that answers a request with a frame or nothing (an exception
    or a `None` reply); a frame is its row count and its set of column names. */
module DataSource {
  import opened Common

  datatype Exchange = Shanghai | Shenzhen | Beijing

  /** The exchange a code's first digit names, if any: 6 is Shanghai, 0 and 3 Shenzhen,
      8 and 4 the Beijing exchange. */
  function ExchangeOf(symbol: string): Option<Exchange> {
    if |symbol| == 0 then None
    else if symbol[0] == '6' then Some(Shanghai)
    else if symbol[0] in {'0', '3'} then Some(Shenzhen)
    else if symbol[0] in {'8', '4'} then Some(Beijing)
    else None
  }

  function PrefixOf(e: Exchange): string {
    match e
    case Shanghai => "sh"
    case Shenzhen => "sz"
    case Beijing => "bj"
  }

  function SuffixOf(e: Exchange): string {
    match e
    case Shanghai => "SH"
    case Shenzhen => "SZ"
    case Beijing => "BJ"
  }

  /** Reads the exchange back from a two-letter market prefix. */
  function PrefixExchange(p: string): Option<Exchange> {
    if p == "sh" then Some(Shanghai)
    else if p == "sz" then Some(Shenzhen)
    else if p == "bj" then Some(Beijing)
    else None
  }

  /** Reads the exchange back from a Tushare suffix. */
  function SuffixExchange(p: string): Option<Exchange> {
    if p == "SH" then Some(Shanghai)
    else if p == "SZ" then Some(Shenzhen)
    else if p == "BJ" then Some(Beijing)
    else None
  }

  /** `_add_market_prefix`: a code whose first digit names an exchange gets that
      exchange's prefix; any other code is returned as it is. */
  function AddMarketPrefix(symbol: string): (r: string)
    ensures ExchangeOf(symbol).None? ==> r == symbol
    ensures ExchangeOf(symbol).Some? ==>
              |r| == |symbol| + 2 && r[2..] == symbol
              && PrefixExchange(r[..2]) == ExchangeOf(symbol)
  {
    if StartsWith(symbol, "6") then "sh" + symbol
    else if StartsWith(symbol, "0") || StartsWith(symbol, "3") then "sz" + symbol
    else if StartsWith(symbol, "8") || StartsWith(symbol, "4") then "bj" + symbol
    else symbol
  }

  /** `_convert_to_ts_code`: a six-character code gets `.SH`, `.SZ` or `.BJ` after its
      first digit, with Shenzhen as the default; anything else is returned unchanged. */
  function ToTsCode(symbol: string): (r: string)
    ensures |symbol| != 6 ==> r == symbol
    ensures |symbol| == 6 ==>
              |r| == 9 && r[..6] == symbol && r[6] == '.'
              && SuffixExchange(r[7..]) == Some(if ExchangeOf(symbol).Some? then ExchangeOf(symbol).value else Shenzhen)
  {
    if symbol == [] || |symbol| != 6 then symbol
    else
      assert symbol[..1] == [symbol[0]];
      var suffix :=
        if StartsWith(symbol, "6") then "SH"
        else if StartsWith(symbol, "0") || StartsWith(symbol, "3") then "SZ"
        else if StartsWith(symbol, "8") || StartsWith(symbol, "4") then "BJ"
        else "SZ";
      assert (symbol + "." + suffix)[7..] == suffix;
      symbol + "." + suffix
  }

  /** `_convert_from_ts_code`: the text before the first '.', or the whole code. */
  function FromTsCode(tsCode: string): (r: string)
    ensures StartsWith(tsCode, r)
    ensures forall i :: 0 <= i < |r| ==> r[i] != '.'
    ensures (forall i :: 0 <= i < |tsCode| ==> tsCode[i] != '.') ==> r == tsCode
    ensures |r| < |tsCode| ==> tsCode[|r|] == '.'
  {
    if '.' in tsCode then BeforeFirst(tsCode, '.')
    else
      assert tsCode[..|tsCode|] == tsCode;
      tsCode
  }

  /** Converting a dot-free code to a Tushare code and back gives the code again. */
  lemma TsCodeRoundTrip(symbol: string)
    requires forall i :: 0 <= i < |symbol| ==> symbol[i] != '.'
    ensures FromTsCode(ToTsCode(symbol)) == symbol
  {
    if |symbol| == 6 {
      var t := ToTsCode(symbol);
      assert forall i :: 0 <= i < 6 ==> t[i] == symbol[i] by {
        forall i | 0 <= i < 6 ensures t[i] == symbol[i] { assert t[..6][i] == t[i]; }
      }
      BeforeFirstAt(t, '.', 6);
    }
  }

  /** For a six-digit code whose first digit names an exchange, the market prefix and
      the Tushare suffix name the same exchange. */
  lemma PrefixAndSuffixAgree(symbol: string)
    requires |symbol| == 6 && ExchangeOf(symbol).Some?
    ensures PrefixExchange(AddMarketPrefix(symbol)[..2]) == SuffixExchange(ToTsCode(symbol)[7..])
    ensures SuffixExchange(ToTsCode(symbol)[7..]) == ExchangeOf(symbol)
  {
  }

  /** `start_date.replace('-', '')` when the start date is given and non-empty. */
  function NormalizeStart(start: Option<string>): (r: Option<string>)
    ensures r.None? <==> start.None?
    ensures r.Some? ==> forall i :: 0 <= i < |r.value| ==> r.value[i] != '-'
    ensures r.Some? ==> |r.value| <= |start.value|
    ensures r.Some? ==> multiset(r.value) == multiset(start.value)['-' := 0]
  {
    match start
    case None => None
    case Some(s) => if s == "" then Some(s) else Some(RemoveChar(s, '-'))
  }

  /** The end date without its '-', or `today` (already `%Y%m%d`) when it is missing
      or empty. */
  function NormalizeEnd(end: Option<string>, today: string): (r: string)
    ensures (end.None? || end == Some("")) ==> r == today
    ensures end.Some? && end.value != "" ==> forall i :: 0 <= i < |r| ==> r[i] != '-'
    ensures end.Some? && end.value != "" ==> multiset(r) == multiset(end.value)['-' := 0]
  {
    if end.Some? && end.value != "" then RemoveChar(end.value, '-') else today
  }

  /** A dashed date "Y-M-D" becomes "YMD" as a start date and as an end date. */
  lemma DashedDateNormalized(y: string, m: string, d: string, today: string)
    requires forall i :: 0 <= i < |y| ==> y[i] != '-'
    requires forall i :: 0 <= i < |m| ==> m[i] != '-'
    requires forall i :: 0 <= i < |d| ==> d[i] != '-'
    ensures NormalizeStart(Some(y + "-" + m + "-" + d)) == Some(y + m + d)
    ensures NormalizeEnd(Some(y + "-" + m + "-" + d), today) == y + m + d
  {
    DashesRemoved(y, m, d);
    assert |y + "-" + m + "-" + d| >= 2;
  }

  lemma DashesRemoved(y: string, m: string, d: string)
    requires forall i :: 0 <= i < |y| ==> y[i] != '-'
    requires forall i :: 0 <= i < |m| ==> m[i] != '-'
    requires forall i :: 0 <= i < |d| ==> d[i] != '-'
    ensures RemoveChar(y + "-" + m + "-" + d, '-') == y + m + d
  {
    var dash := RemoveChar("-", '-');
    assert dash == [];
    RemoveAbsentChar(y, '-');
    RemoveAbsentChar(m, '-');
    RemoveAbsentChar(d, '-');
    var a := y + "-";
    RemoveCharAppend(y, "-", '-');
    assert RemoveChar(a, '-') == y;
    var b := a + m;
    RemoveCharAppend(a, m, '-');
    assert RemoveChar(b, '-') == y + m;
    var c := b + "-";
    RemoveCharAppend(b, "-", '-');
    assert RemoveChar(c, '-') == y + m;
    RemoveCharAppend(c, d, '-');
    assert RemoveChar(c + d, '-') == y + m + d;
  }

  /** Normalising a start date twice is normalising it once. */
  lemma NormalizeStartIdempotent(start: Option<string>)
    ensures NormalizeStart(NormalizeStart(start)) == NormalizeStart(start)
  {
    if start.Some? && start.value != "" {
      RemoveAbsentChar(RemoveChar(start.value, '-'), '-');
    }
  }

  /** The Tushare adjustment: 'qfq' and 'hfq' are kept, '' means none, and anything
      else falls back to 'qfq'. */
  function TushareAdjust(adjust: string): (r: Option<string>)
    ensures r.None? <==> adjust == ""
    ensures r.Some? ==> r.value in {"qfq", "hfq"}
    ensures adjust in {"qfq", "hfq"} ==> r == Some(adjust)
    ensures adjust !in {"qfq", "hfq", ""} ==> r == Some("qfq")
  {
    var table := map["qfq" := Some("qfq"), "hfq" := Some("hfq"), "" := None];
    if adjust in table then table[adjust] else Some("qfq")
  }

  // ---------------------------------------------------------------------------
  // The provider fallback chain

  datatype Source = Sina | Tencent | EastMoney | Tushare

  /** The arguments one provider call receives. */
  datatype Request = Request(symbol: string, start: Option<string>, end: string, adjust: Option<string>)

  /** A provider's table: its number of rows and its column names. */
  datatype Frame = Frame(rows: nat, columns: set<string>)

  /** A history query after its dates have been normalised. */
  datatype Query = Query(symbol: string, start: Option<string>, end: string, adjust: string)

  /** What each provider is asked: Sina and Tencent get the prefixed code, Tencent gets
      "19900101" for a missing start, East Money gets the bare code and Tushare the
      suffixed code with the mapped adjustment. */
  function RequestFor(src: Source, q: Query): (req: Request)
    ensures src in {Sina, Tencent} ==> req.symbol == AddMarketPrefix(q.symbol)
    ensures src == Tencent ==> req.start.Some?
    ensures src == Tushare ==> req.symbol == ToTsCode(q.symbol) && req.adjust == TushareAdjust(q.adjust)
  {
    match src
    case Sina => Request(AddMarketPrefix(q.symbol), q.start, q.end, Some(q.adjust))
    case Tencent =>
      var start := if q.start.Some? && q.start.value != "" then q.start.value else "19900101";
      Request(AddMarketPrefix(q.symbol), Some(start), q.end, Some(q.adjust))
    case EastMoney => Request(q.symbol, q.start, q.end, Some(q.adjust))
    case Tushare => Request(ToTsCode(q.symbol), q.start, q.end, TushareAdjust(q.adjust))
  }

  /** `df.rename(columns=names)` on the set of column names. */
  function Renamed(cols: set<string>, names: map<string, string>): (r: set<string>)
    ensures forall c :: c in cols && c !in names ==> c in r
    ensures forall c :: c in cols && c in names ==> names[c] in r
    ensures forall c :: c in r ==> (c in cols && c !in names) || exists k :: k in cols && k in names && names[k] == c
  {
    set c | c in cols :: if c in names then names[c] else c
  }

  const SinaNames: map<string, string> :=
    map["date" := "Date", "open" := "Open", "close" := "Close", "high" := "High",
        "low" := "Low", "volume" := "Volume", "amount" := "Amount"]

  const TencentNames: map<string, string> :=
    map["date" := "Date", "open" := "Open", "close" := "Close", "high" := "High", "low" := "Low"]

  const ChineseNames: map<string, string> :=
    map["日期" := "Date", "开盘" := "Open", "收盘" := "Close", "最高" := "High",
        "最低" := "Low", "成交量" := "Volume", "成交额" := "Amount"]

  const EastMoneyNames: map<string, string> :=
    ChineseNames + map["振幅" := "amplitude", "涨跌幅" := "pct_change",
                       "涨跌额" := "change", "换手率" := "turnover"]

  const TushareNames: map<string, string> :=
    map["trade_date" := "date", "vol" := "volume", "amount" := "amount"]

  /** `df.empty`: no rows or no columns. */
  predicate Empty(f: Frame) { f.rows == 0 || f.columns == {} }

  /** Tencent's columns up to its volume check: `amount` (lots) becomes Volume, the
      English and then the Chinese names are renamed, and a lower-case `volume` or
      `vol` stands in for a missing Volume. */
  function TencentVolumeColumns(cols: set<string>): set<string> {
    var withVolume := if "amount" in cols then cols + {"Volume"} else cols;
    var english := Renamed(withVolume, TencentNames);
    var translated := if "日期" in english then Renamed(english, ChineseNames) else english;
    if "Volume" in translated then translated
    else if "volume" in translated then Renamed(translated, map["volume" := "Volume"])
    else if "vol" in translated then Renamed(translated, map["vol" := "Volume"])
    else translated
  }

  /** A name that a renaming neither renames nor produces is present afterwards
      exactly when it was present before. */
  lemma RenamedUntouched(cols: set<string>, names: map<string, string>, x: string)
    requires x !in names && forall k :: k in names ==> names[k] != x
    ensures x in Renamed(cols, names) <==> x in cols
  {
    if x in Renamed(cols, names) {
      var c :| c in cols && x == (if c in names then names[c] else c);
    }
  }

  /** A name that only `source` is renamed to is present afterwards exactly when it or
      `source` was present before. */
  lemma RenamedOnto(cols: set<string>, names: map<string, string>, source: string, x: string)
    requires x !in names && source in names && names[source] == x
    requires forall k :: k in names && k != source ==> names[k] != x
    ensures x in Renamed(cols, names) <==> x in cols || source in cols
  {
    if x in Renamed(cols, names) {
      var c :| c in cols && x == (if c in names then names[c] else c);
    }
  }

  /** Tencent's first two steps keep the Chinese column names and the lower-case volume
      names, and leave Volume present exactly when Volume or `amount` was. */
  lemma TencentEnglishStep(cols: set<string>)
    ensures var english := Renamed(if "amount" in cols then cols + {"Volume"} else cols, TencentNames);
            && ("Volume" in english <==> "Volume" in cols || "amount" in cols)
            && ("日期" in english <==> "日期" in cols)
            && ("成交量" in english <==> "成交量" in cols)
            && ("volume" in english <==> "volume" in cols)
            && ("vol" in english <==> "vol" in cols)
  {
    var withVolume := if "amount" in cols then cols + {"Volume"} else cols;
    RenamedUntouched(withVolume, TencentNames, "Volume");
    RenamedUntouched(withVolume, TencentNames, "日期");
    RenamedUntouched(withVolume, TencentNames, "成交量");
    RenamedUntouched(withVolume, TencentNames, "volume");
    RenamedUntouched(withVolume, TencentNames, "vol");
  }

  /** The Chinese renaming gives Volume exactly when Volume or the Chinese volume column
      was there, and keeps the lower-case volume names. */
  lemma TencentChineseStep(english: set<string>)
    ensures "Volume" in Renamed(english, ChineseNames) <==> "Volume" in english || "成交量" in english
    ensures "volume" in Renamed(english, ChineseNames) <==> "volume" in english
    ensures "vol" in Renamed(english, ChineseNames) <==> "vol" in english
  {
    RenamedOnto(english, ChineseNames, "成交量", "Volume");
    RenamedUntouched(english, ChineseNames, "volume");
    RenamedUntouched(english, ChineseNames, "vol");
  }

  /** A Tencent frame has a Volume column after renaming exactly when it had one, or an
      `amount`, `volume` or `vol` column, or a Chinese volume column beside a Chinese
      date column. */
  lemma TencentVolume(cols: set<string>)
    ensures "Volume" in TencentVolumeColumns(cols) <==>
              ("Volume" in cols || "amount" in cols || "volume" in cols || "vol" in cols
               || ("成交量" in cols && "日期" in cols))
  {
    var withVolume := if "amount" in cols then cols + {"Volume"} else cols;
    var english := Renamed(withVolume, TencentNames);
    TencentEnglishStep(cols);
    TencentChineseStep(english);
    var translated := if "日期" in english then Renamed(english, ChineseNames) else english;
    RenamedOnto(translated, map["volume" := "Volume"], "volume", "Volume");
    RenamedOnto(translated, map["vol" := "Volume"], "vol", "Volume");
  }

  /** The last renaming step for Tencent: each of Open, Close, High, Low and Amount that
      is missing takes the place of its lower-case spelling. */
  function FillCapitalised(cols: set<string>, names: seq<(string, string)>): (r: set<string>)
    requires forall i :: 0 <= i < |names| ==> names[i].0 !in {"Volume", "Date"} && names[i].1 !in {"Volume", "Date"}
    ensures "Volume" in cols ==> "Volume" in r
    ensures "Date" in cols ==> "Date" in r
    decreases |names|
  {
    if names == [] then cols
    else
      var (col, lower) := names[0];
      var next := if col !in cols && lower in cols then Renamed(cols, map[lower := col]) else cols;
      RenamedUntouched(cols, map[lower := col], "Volume");
      RenamedUntouched(cols, map[lower := col], "Date");
      FillCapitalised(next, names[1..])
  }

  /** The columns Tencent's last step looks for, each with its lower-case spelling. */
  const Capitalised: seq<(string, string)> :=
    [("Open", "open"), ("Close", "close"), ("High", "high"), ("Low", "low"), ("Amount", "amount")]

  /** The frame a provider's reply becomes, or None when the reply is rejected: an empty
      frame, a missing date column (the `df['Date']` lookup raises) or, for Sina and
      Tencent, a missing Volume column. */
  function Accepted(src: Source, f: Frame): (r: Option<Frame>)
    ensures r.Some? ==> !Empty(f) && r.value.rows == f.rows
    ensures r.Some? && src in {Sina, Tencent, EastMoney} ==> "Date" in r.value.columns
    ensures r.Some? && src in {Sina, Tencent} ==> "Volume" in r.value.columns
  {
    if Empty(f) then None
    else
      var cols := Standardised(src, f.columns);
      if Usable(src, f.columns, cols) then Some(Frame(f.rows, cols)) else None
  }

  /** The columns after the provider's renaming. */
  function Standardised(src: Source, cols: set<string>): set<string> {
    match src
    case Sina => Renamed(cols, SinaNames)
    case Tencent => FillCapitalised(TencentVolumeColumns(cols), Capitalised)
    case EastMoney => Renamed(cols, EastMoneyNames)
    case Tushare => Renamed(cols, TushareNames)
  }

  /** The columns the provider's frame must have once renamed. */
  predicate Usable(src: Source, cols: set<string>, renamed: set<string>)
    ensures Usable(src, cols, renamed) && src in {Sina, Tencent, EastMoney} ==> "Date" in renamed
  {
    match src
    case Sina => "Date" in renamed && "Volume" in renamed
    case Tencent => "Date" in renamed && "Volume" in TencentVolumeColumns(cols)
    case EastMoney => "Date" in renamed
    case Tushare => "date" in renamed && "volume" in renamed && "amount" in renamed
  }

  /** A Sina frame is used exactly when it is non-empty and has a date and a volume
      column in either spelling. */
  lemma SinaAcceptance(f: Frame)
    ensures Accepted(Sina, f).Some? <==>
              !Empty(f) && ("date" in f.columns || "Date" in f.columns)
              && ("volume" in f.columns || "Volume" in f.columns)
  {
    var cols := Renamed(f.columns, SinaNames);
    SinaColumn(f.columns, "date", "Date");
    SinaColumn(f.columns, "volume", "Volume");
    assert Standardised(Sina, f.columns) == cols;
    assert Usable(Sina, f.columns, cols) <==> "Date" in cols && "Volume" in cols;
  }

  lemma SinaColumn(cols: set<string>, source: string, x: string)
    requires (source, x) in {("date", "Date"), ("volume", "Volume")}
    ensures x in Renamed(cols, SinaNames) <==> x in cols || source in cols
  {
    assert x !in SinaNames && SinaNames[source] == x;
    forall k | k in SinaNames && k != source ensures SinaNames[k] != x {
    }
    RenamedOnto(cols, SinaNames, source, x);
  }

  /** One attempt: the provider's reply to its request, if it is usable. */
  function Attempt(src: Source, q: Query, fetch: (Source, Request) -> Option<Frame>): Option<Frame> {
    match fetch(src, RequestFor(src, q))
    case None => None
    case Some(f) => Accepted(src, f)
  }

  /** The providers in the order they are tried: the three akshare interfaces when the
      library loads, then Tushare when it is configured. */
  function Plan(akshareLoaded: bool, tushareAvailable: bool): (plan: seq<Source>)
    ensures Tushare in plan <==> tushareAvailable
    ensures |plan| <= 4
  {
    (if akshareLoaded then [Sina, Tencent, EastMoney] else [])
    + (if tushareAvailable then [Tushare] else [])
  }

  /** The first usable reply along the plan: the result is some provider's usable
      frame, every provider before it gave nothing usable, and it is None only when
      none did. */
  function FirstAccepted(plan: seq<Source>, q: Query, fetch: (Source, Request) -> Option<Frame>): (r: Option<Frame>)
    ensures r.None? <==> forall i :: 0 <= i < |plan| ==> Attempt(plan[i], q, fetch).None?
    ensures r.Some? ==> exists i :: 0 <= i < |plan| && r == Attempt(plan[i], q, fetch)
                                    && forall j :: 0 <= j < i ==> Attempt(plan[j], q, fetch).None?
  {
    if plan == [] then None
    else
      var a := Attempt(plan[0], q, fetch);
      if a.Some? then a
      else
        var rest := FirstAccepted(plan[1..], q, fetch);
        assert forall i :: 1 <= i < |plan| ==> plan[i] == plan[1..][i - 1];
        if rest.Some? then
          ShiftWitness(plan, q, fetch, rest);
          rest
        else
          rest
  }

  /** A usable reply found after a first provider that gave nothing is a usable reply
      of the whole plan with nothing usable before it. */
  lemma ShiftWitness(plan: seq<Source>, q: Query, fetch: (Source, Request) -> Option<Frame>, rest: Option<Frame>)
    requires |plan| > 0 && Attempt(plan[0], q, fetch).None?
    requires exists i :: 0 <= i < |plan[1..]| && rest == Attempt(plan[1..][i], q, fetch)
                         && forall j :: 0 <= j < i ==> Attempt(plan[1..][j], q, fetch).None?
    ensures exists i :: 0 <= i < |plan| && rest == Attempt(plan[i], q, fetch)
                        && forall j :: 0 <= j < i ==> Attempt(plan[j], q, fetch).None?
  {
    var i :| 0 <= i < |plan[1..]| && rest == Attempt(plan[1..][i], q, fetch)
             && forall j :: 0 <= j < i ==> Attempt(plan[1..][j], q, fetch).None?;
    assert rest == Attempt(plan[i + 1], q, fetch);
    forall j | 0 <= j < i + 1 ensures Attempt(plan[j], q, fetch).None? {
      if j > 0 { assert plan[j] == plan[1..][j - 1]; }
    }
  }

  /** With akshare loaded the three akshare interfaces come first, in order. */
  lemma AkshareFirst(tushareAvailable: bool, q: Query, fetch: (Source, Request) -> Option<Frame>)
    ensures FirstAccepted(Plan(true, tushareAvailable), q, fetch) ==
              if Attempt(Sina, q, fetch).Some? then Attempt(Sina, q, fetch)
              else if Attempt(Tencent, q, fetch).Some? then Attempt(Tencent, q, fetch)
              else if Attempt(EastMoney, q, fetch).Some? then Attempt(EastMoney, q, fetch)
              else FirstAccepted(Plan(false, tushareAvailable), q, fetch)
  {
    var plan := Plan(true, tushareAvailable);
    assert plan[0] == Sina && plan[1..][0] == Tencent && plan[1..][1..][0] == EastMoney;
    assert plan[1..][1..][1..] == Plan(false, tushareAvailable);
  }

  /** Tushare is the last resort, and only when it is available. */
  lemma TushareLast(tushareAvailable: bool, q: Query, fetch: (Source, Request) -> Option<Frame>)
    ensures FirstAccepted(Plan(false, tushareAvailable), q, fetch) ==
              if tushareAvailable then Attempt(Tushare, q, fetch) else None
  {
    if tushareAvailable {
      assert Plan(false, true)[1..] == [];
    }
  }

  /** `get_stock_hist_data`: normalises the dates, then tries Sina, Tencent and East
      Money (when akshare loads) and Tushare (when available) in turn, returning the
      first usable frame, or None when every source fails. */
  method GetStockHistData(symbol: string, startDate: Option<string>, endDate: Option<string>,
                          adjust: string, today: string, akshareLoaded: bool,
                          tushareAvailable: bool, fetch: (Source, Request) -> Option<Frame>)
    returns (df: Option<Frame>)
    ensures df == FirstAccepted(Plan(akshareLoaded, tushareAvailable),
                                Query(symbol, NormalizeStart(startDate), NormalizeEnd(endDate, today), adjust),
                                fetch)
  {
    var start := startDate;
    if start.Some? && start.value != "" {
      start := Some(RemoveChar(start.value, '-'));
    }
    var end: string;
    if endDate.Some? && endDate.value != "" {
      end := RemoveChar(endDate.value, '-');
    } else {
      end := today;
    }
    var q := Query(symbol, start, end, adjust);
    AkshareFirst(tushareAvailable, q, fetch);
    TushareLast(tushareAvailable, q, fetch);
    if akshareLoaded {
      df := Attempt(Sina, q, fetch);
      if df.Some? {
        return;
      }
      df := Attempt(Tencent, q, fetch);
      if df.Some? {
        return;
      }
      df := Attempt(EastMoney, q, fetch);
      if df.Some? {
        return;
      }
    }
    if tushareAvailable {
      df := Attempt(Tushare, q, fetch);
      if df.Some? {
        return;
      }
    }
    df := None;
  }
}
