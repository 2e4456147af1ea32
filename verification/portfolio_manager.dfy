/** The portfolio manager (portfolio_manager.py): the checks in front of adding a stock,
    the sequential batch analysis and its dispatch, and the saving of batch results, in
    which each analysis field is parsed out of the model's free-form decision. The
    single-stock analysis, the name lookup, `float()` on text and `str()` on non-text
    values are parameters. */
module PortfolioManager {
  import opened Common
  import opened PortfolioDb

  // ------------------------------------------------------------ add_stock

  /** `code.strip().upper()` */
  function NormalizedCode(code: string): (r: string)
    ensures |r| <= |code|
    ensures r == [] || (!IsSpace(r[0]) && !IsSpace(r[|r| - 1]))
    ensures forall i :: 0 <= i < |r| ==> !('a' <= r[i] <= 'z')
    ensures |r| == |Strip(code)|
    ensures forall i :: 0 <= i < |r| ==> r[i] == UpperChar(Strip(code)[i])
  {
    UpperOfStripped(Strip(code));
    Upper(Strip(code))
  }

  /** Upper-casing stripped text leaves no lower-case letter and no white space at
      either end. */
  lemma UpperOfStripped(t: string)
    requires t == [] || (!IsSpace(t[0]) && !IsSpace(t[|t| - 1]))
    ensures var r := Upper(t);
      && (r == [] || (!IsSpace(r[0]) && !IsSpace(r[|r| - 1])))
      && forall i :: 0 <= i < |r| ==> !('a' <= r[i] <= 'z')
  {
    var r := Upper(t);
    if t != [] {
      UpperCharKeeps(t[0]);
      UpperCharKeeps(t[|t| - 1]);
    }
    forall i | 0 <= i < |r| ensures !('a' <= r[i] <= 'z') {
      UpperCharKeeps(t[i]);
    }
  }

  /** Text without lower-case letters is its own upper-casing. */
  lemma UpperFixed(r: string)
    requires forall i :: 0 <= i < |r| ==> !('a' <= r[i] <= 'z')
    ensures Upper(r) == r
  {
    forall i | 0 <= i < |r| ensures Upper(r)[i] == r[i] {
      assert !('a' <= r[i] <= 'z');
    }
  }

  /** Upper-casing a character leaves no lower-case letter and keeps white space. */
  lemma UpperCharKeeps(c: char)
    ensures !('a' <= UpperChar(c) <= 'z')
    ensures IsSpace(UpperChar(c)) <==> IsSpace(c)
  {
  }

  /** Stripping text that neither starts nor ends with white space changes nothing. */
  lemma StripNothing(s: string)
    requires s == [] || (!IsSpace(s[0]) && !IsSpace(s[|s| - 1]))
    ensures Strip(s) == s
  {
  }

  /** A normalised code is its own normalisation. */
  lemma NormalizedCodeIsCanonical(code: string)
    ensures NormalizedCode(NormalizedCode(code)) == NormalizedCode(code)
  {
    var r := NormalizedCode(code);
    StripNothing(r);
    UpperFixed(r);
  }

  /** What the name lookup gave: a name, nothing usable, or an exception. */
  datatype NameLookup = Found(name: string) | NotFound | LookupRaised(error: string)

  /** A looked-up name is used when it is non-empty and not the placeholder '未知'. */
  predicate Usable(l: NameLookup) { l.Found? && l.name != "" && l.name != "未知" }

  /** `add_stock` of the manager: normalises the code, refuses an empty or already held
      code, fills a missing name from the lookup (refusing when none is usable), and
      only then inserts the stock. */
  method AddStock(db: PortfolioDB, code: string, name: string, costPrice: Option<real>,
                  quantity: Option<int>, note: string, autoMonitor: bool,
                  lookup: string -> NameLookup, now: int)
    returns (ok: bool, message: string, id: Option<nat>)
    requires db.Valid()
    modifies db
    ensures db.Valid() && db.analyses == old(db.analyses)
    ensures ok <==> NormalizedCode(code) != "" && !HasCode(old(db.stocks), Str(NormalizedCode(code)))
                    && (name != "" || Usable(lookup(NormalizedCode(code))))
    ensures !ok ==> db.stocks == old(db.stocks) && id.None?
    ensures NormalizedCode(code) == "" ==> message == "股票代码不能为空"
    ensures NormalizedCode(code) != "" && HasCode(old(db.stocks), Str(NormalizedCode(code))) ==>
              message == "股票代码 " + NormalizedCode(code) + " 已存在"
    ensures NormalizedCode(code) != "" && !HasCode(old(db.stocks), Str(NormalizedCode(code))) && name == ""
            && !Usable(lookup(NormalizedCode(code))) ==>
              message == if lookup(NormalizedCode(code)).LookupRaised?
                         then "自动获取股票名称异常: " + lookup(NormalizedCode(code)).error + "，请手动输入股票名称"
                         else "无法自动获取股票名称，请手动输入股票名称"
    ensures ok ==> id == Some(old(db.nextStockId))
    ensures ok ==>
              var used := if name != "" then name else lookup(NormalizedCode(code)).name;
              && db.stocks == old(db.stocks) + [StockRow(old(db.nextStockId), Str(NormalizedCode(code)), Str(used),
                                                        OptionalReal(costPrice), OptionalInt(quantity),
                                                        Str(note), Bool(autoMonitor), now, now)]
              && message == "添加持仓股票成功: " + NormalizedCode(code) + " " + used
  {
    var c := NormalizedCode(code);
    if c == "" {
      return false, "股票代码不能为空", None;
    }
    if StockByCode(db.stocks, Str(c)).Some? {
      return false, "股票代码 " + c + " 已存在", None;
    }
    var used := name;
    if name == "" {
      var info := lookup(c);
      if Usable(info) {
        used := info.name;
      } else if info.LookupRaised? {
        return false, "自动获取股票名称异常: " + info.error + "，请手动输入股票名称", None;
      } else {
        return false, "无法自动获取股票名称，请手动输入股票名称", None;
      }
    }
    var r, error := db.AddStock(c, used, costPrice, quantity, note, autoMonitor, now);
    if r.Raised? {
      return false, "添加失败: " + error, None;
    }
    return true, "添加持仓股票成功: " + c + " " + used, Some(r.value);
  }

  // ------------------------------------------------------------ batch analysis

  /** What analysing one stock produced: the result dictionary, or an exception. */
  datatype Analysis = Finished(result: map<string, Value>) | Threw(error: string)

  /** One entry of `results` (the result dictionary) or of `failed_stocks` (the error). */
  datatype Entry = Entry(code: Value, detail: Value)

  datatype BatchReport = BatchReport(
    success: bool, mode: string, total: nat, succeeded: nat, failed: nat,
    results: seq<Entry>, failedStocks: seq<Entry>)

  /** A stock counts as analysed when its result says `success`. */
  predicate Succeeds(a: Analysis) { a.Finished? && Truthy(Get(a.result, "success")) }

  function SucceedsFor(analyze: Value -> Analysis): Value -> bool {
    (c: Value) => Succeeds(analyze(c))
  }

  function FailsFor(analyze: Value -> Analysis): Value -> bool {
    (c: Value) => !Succeeds(analyze(c))
  }

  /** The entry a stock leaves: its result when it succeeded, otherwise the reported
      error ('未知错误' when the result names none) or the exception text. */
  function EntryOf(code: Value, a: Analysis): Entry {
    match a
    case Threw(e) => Entry(code, Str(e))
    case Finished(result) =>
      if Truthy(Get(result, "success")) then Entry(code, Dict(result))
      else Entry(code, GetOr(result, "error", Str("未知错误")))
  }

  function Entries(codes: seq<Value>, analyze: Value -> Analysis): (r: seq<Entry>)
    ensures |r| == |codes|
    ensures forall i :: 0 <= i < |r| ==> r[i].code == codes[i]
  {
    seq(|codes|, i requires 0 <= i < |codes| => EntryOf(codes[i], analyze(codes[i])))
  }

  lemma EntriesSnoc(codes: seq<Value>, code: Value, analyze: Value -> Analysis)
    ensures Entries(codes + [code], analyze) == Entries(codes, analyze) + [EntryOf(code, analyze(code))]
  {
  }

  /** The report of a sequential run: every succeeding code in `results` and every
      other one in `failed_stocks`, each in input order. */
  function SequentialReport(codes: seq<Value>, analyze: Value -> Analysis): (r: BatchReport)
    ensures r.success && r.mode == "sequential"
    ensures r.total == |codes| == r.succeeded + r.failed
    ensures r.succeeded == |r.results| && r.failed == |r.failedStocks|
    ensures forall c :: c in codes ==> (c in Filter(codes, SucceedsFor(analyze)) <==> c !in Filter(codes, FailsFor(analyze)))
    ensures |r.results| == |Filter(codes, SucceedsFor(analyze))|
    ensures |r.failedStocks| == |Filter(codes, FailsFor(analyze))|
    ensures forall i :: 0 <= i < |r.results| ==> r.results[i].code == Filter(codes, SucceedsFor(analyze))[i]
    ensures forall i :: 0 <= i < |r.failedStocks| ==> r.failedStocks[i].code == Filter(codes, FailsFor(analyze))[i]
    ensures forall e :: e in r.results ==> e.code in codes && Succeeds(analyze(e.code)) && e == EntryOf(e.code, analyze(e.code))
    ensures forall e :: e in r.failedStocks ==> e.code in codes && !Succeeds(analyze(e.code)) && e == EntryOf(e.code, analyze(e.code))
  {
    var ok := Filter(codes, SucceedsFor(analyze));
    var bad := Filter(codes, FailsFor(analyze));
    FilterComplement(codes, SucceedsFor(analyze), FailsFor(analyze));
    EntriesOfFiltered(codes, SucceedsFor(analyze), analyze);
    EntriesOfFiltered(codes, FailsFor(analyze), analyze);
    BatchReport(true, "sequential", |codes|, |ok|, |bad|, Entries(ok, analyze), Entries(bad, analyze))
  }

  /** Each entry of a filtered list is the entry of one of the codes kept. */
  lemma EntriesOfFiltered(codes: seq<Value>, p: Value -> bool, analyze: Value -> Analysis)
    ensures forall e :: e in Entries(Filter(codes, p), analyze) ==>
              e.code in codes && p(e.code) && e == EntryOf(e.code, analyze(e.code))
  {
    var kept := Filter(codes, p);
    var es := Entries(kept, analyze);
    forall e | e in es ensures e.code in codes && p(e.code) && e == EntryOf(e.code, analyze(e.code)) {
      var i :| 0 <= i < |es| && es[i] == e;
      assert kept[i] in kept;
    }
  }

  /** One more code adds its entry to the successes or to the failures. */
  lemma SequentialStep(codes: seq<Value>, i: nat, analyze: Value -> Analysis)
    requires i < |codes|
    ensures var e := EntryOf(codes[i], analyze(codes[i]));
            && Entries(Filter(codes[..i + 1], SucceedsFor(analyze)), analyze)
               == Entries(Filter(codes[..i], SucceedsFor(analyze)), analyze) + (if Succeeds(analyze(codes[i])) then [e] else [])
            && Entries(Filter(codes[..i + 1], FailsFor(analyze)), analyze)
               == Entries(Filter(codes[..i], FailsFor(analyze)), analyze) + (if Succeeds(analyze(codes[i])) then [] else [e])
  {
    FilteredEntriesSnoc(codes, i, SucceedsFor(analyze), analyze);
    FilteredEntriesSnoc(codes, i, FailsFor(analyze), analyze);
    assert SucceedsFor(analyze)(codes[i]) == Succeeds(analyze(codes[i]));
    assert FailsFor(analyze)(codes[i]) == !Succeeds(analyze(codes[i]));
  }

  lemma FilteredEntriesSnoc(codes: seq<Value>, i: nat, p: Value -> bool, analyze: Value -> Analysis)
    requires i < |codes|
    ensures Entries(Filter(codes[..i + 1], p), analyze)
            == Entries(Filter(codes[..i], p), analyze) + (if p(codes[i]) then [EntryOf(codes[i], analyze(codes[i]))] else [])
  {
    assert codes[..i + 1] == codes[..i] + [codes[i]];
    FilterSnoc(codes[..i], codes[i], p);
    EntriesSnoc(Filter(codes[..i], p), codes[i], analyze);
  }

  /** `batch_analyze_sequential`: analyses the codes one after another, sorting each
      into the successes or the failures. */
  method BatchAnalyzeSequential(codes: seq<Value>, analyze: Value -> Analysis) returns (report: BatchReport)
    ensures report == SequentialReport(codes, analyze)
  {
    var results: seq<Entry> := [];
    var failed: seq<Entry> := [];
    var i := 0;
    while i < |codes|
      invariant 0 <= i <= |codes|
      invariant results == Entries(Filter(codes[..i], SucceedsFor(analyze)), analyze)
      invariant failed == Entries(Filter(codes[..i], FailsFor(analyze)), analyze)
    {
      var code := codes[i];
      var a := analyze(code);
      SequentialStep(codes, i, analyze);
      match a {
        case Threw(e) =>
          failed := failed + [Entry(code, Str(e))];
        case Finished(result) =>
          if Truthy(Get(result, "success")) {
            results := results + [Entry(code, Dict(result))];
          } else {
            failed := failed + [Entry(code, GetOr(result, "error", Str("未知错误")))];
          }
      }
      i := i + 1;
    }
    assert codes[..i] == codes;
    report := BatchReport(true, "sequential", |codes|, |results|, |failed|, results, failed);
  }

  /** What `batch_analyze_portfolio` does: refuse an empty portfolio, hand the codes to
      the parallel path, or run them sequentially. */
  datatype PortfolioRun = NoStocks(error: string) | ParallelRun(codes: seq<Value>) | SequentialRun(report: BatchReport)

  function CodesOf(stocks: seq<StockRow>): (codes: seq<Value>)
    ensures |codes| == |stocks|
  {
    seq(|stocks|, i requires 0 <= i < |stocks| => stocks[i].code)
  }

  /** `batch_analyze_portfolio` */
  method BatchAnalyzePortfolio(stocks: seq<StockRow>, mode: string, analyze: Value -> Analysis)
    returns (r: PortfolioRun)
    ensures stocks == [] <==> r == NoStocks("没有持仓股票")
    ensures stocks != [] && mode == "parallel" ==> r == ParallelRun(CodesOf(stocks))
    ensures stocks != [] && mode != "parallel" ==> r == SequentialRun(SequentialReport(CodesOf(stocks), analyze))
  {
    if stocks == [] {
      return NoStocks("没有持仓股票");
    }
    var codes := CodesOf(stocks);
    if mode == "parallel" {
      return ParallelRun(codes);
    }
    var report := BatchAnalyzeSequential(codes, analyze);
    return SequentialRun(report);
  }

  // ------------------------------------------------------------ field parsing

  /** `float(confidence_level)` clamped into [0, 10]: a non-number becomes 5.0 and NaN,
      which no comparison catches, stays NaN. */
  function Confidence(raw: Value, toFloat: string -> Option<real>): (c: Value)
    ensures c.Float? || c == NaN
    ensures c == NaN <==> raw == NaN
    ensures c.Float? ==> 0.0 <= c.r <= 10.0
    ensures raw.Float? && 0.0 <= raw.r <= 10.0 ==> c == raw
    ensures raw.Null? || raw.List? || raw.Dict? ==> c == Float(5.0)
    ensures raw.Str? && toFloat(raw.s).None? ==> c == Float(5.0)
    ensures raw.Float? && raw.r < 0.0 ==> c == Float(0.0)
    ensures raw.Float? && raw.r > 10.0 ==> c == Float(10.0)
    ensures raw.Int? ==> c == Float(Clamped(raw.i as real))
    ensures raw.Bool? ==> c == Float(if raw.b then 1.0 else 0.0)
    ensures raw.Str? && toFloat(raw.s).Some? ==> c == Float(Clamped(toFloat(raw.s).value))
  {
    var f: Option<Value> :=
      match raw
      case Bool(b) => Some(Float(if b then 1.0 else 0.0))
      case Int(i) => Some(Float(i as real))
      case Float(r) => Some(Float(r))
      case NaN => Some(NaN)
      case Str(s) => if toFloat(s).Some? then Some(Float(toFloat(s).value)) else None
      case _ => None;
    if f.None? then Float(5.0)
    else if f.value == NaN then NaN
    else if f.value.r < 0.0 then Float(0.0)
    else if f.value.r > 10.0 then Float(10.0)
    else f.value
  }

  /** `max(0, min(10, x))` */
  function Clamped(x: real): (r: real)
    ensures 0.0 <= r <= 10.0
    ensures 0.0 <= x <= 10.0 ==> r == x
    ensures x < 0.0 ==> r == 0.0
    ensures x > 10.0 ==> r == 10.0
  {
    if x < 0.0 then 0.0 else if x > 10.0 then 10.0 else x
  }

  /** Clamping a clamped confidence changes nothing. */
  lemma ConfidenceIdempotent(raw: Value, toFloat: string -> Option<real>)
    ensures Confidence(Confidence(raw, toFloat), toFloat) == Confidence(raw, toFloat)
  {
  }

  /** The length of the run of digits starting at `k`. */
  function DigitRun(s: string, k: nat): (n: nat)
    requires k <= |s|
    ensures k + n <= |s|
    ensures forall i :: k <= i < k + n ==> IsDigit(s[i])
    ensures k + n == |s| || !IsDigit(s[k + n])
    decreases |s| - k
  {
    if k < |s| && IsDigit(s[k]) then 1 + DigitRun(s, k + 1) else 0
  }

  /** Text of the shape `\d+\.?\d*`: a digit, then digits with at most one '.'. */
  predicate NumberShape(m: string) {
    && |m| > 0 && IsDigit(m[0])
    && (forall i :: 0 <= i < |m| ==> IsDigit(m[i]) || m[i] == '.')
    && (forall i, j :: 0 <= i < j < |m| ==> !(m[i] == '.' && m[j] == '.'))
  }

  /** The greedy match of `\d+\.?\d*` that starts at the digit at `k`. */
  function NumberAt(s: string, k: nat): (m: string)
    requires k < |s| && IsDigit(s[k])
    ensures NumberShape(m) && OccursAt(s, m, k)
    ensures k + |m| == |s| || !IsDigit(s[k + |m|])
    ensures k + |m| < |s| && s[k + |m|] == '.' ==> exists i :: 0 <= i < |m| && m[i] == '.'
  {
    var j := k + DigitRun(s, k);
    if j < |s| && s[j] == '.' then
      var e := j + 1 + DigitRun(s, j + 1);
      var m := s[k..e];
      DottedRunShape(s, k, j, e);
      assert m[j - k] == '.';
      m
    else
      var m := s[k..j];
      assert forall i :: 0 <= i < |m| ==> m[i] == s[k + i] && IsDigit(m[i]);
      m
  }

  /** Digits, one '.', then digits: the shape `\d+\.?\d*` asks for. */
  lemma DottedRunShape(s: string, k: nat, j: nat, e: nat)
    requires k < j < e <= |s| && s[j] == '.'
    requires forall i :: k <= i < j ==> IsDigit(s[i])
    requires forall i :: j < i < e ==> IsDigit(s[i])
    ensures NumberShape(s[k..e])
  {
    var m := s[k..e];
    assert forall i :: 0 <= i < |m| ==> m[i] == s[k + i];
    forall i, i' | 0 <= i < i' < |m| ensures !(m[i] == '.' && m[i'] == '.') {
      assert m[i] == s[k + i] && m[i'] == s[k + i'];
    }
  }

  /** The index of the first digit in `s`, if any. */
  function FirstDigit(s: string, from: nat): (r: Option<nat>)
    requires from <= |s|
    ensures r.None? <==> forall i :: from <= i < |s| ==> !IsDigit(s[i])
    ensures r.Some? ==> from <= r.value < |s| && IsDigit(s[r.value])
                        && forall i :: from <= i < r.value ==> !IsDigit(s[i])
    decreases |s| - from
  {
    if from == |s| then None
    else if IsDigit(s[from]) then Some(from)
    else FirstDigit(s, from + 1)
  }

  /** `re.findall(r'\d+\.?\d*', s)[0]`: the leftmost match, or None when `s` holds no
      digit. */
  function FirstNumber(s: string): (r: Option<string>)
    ensures r.None? <==> forall i :: 0 <= i < |s| ==> !IsDigit(s[i])
    ensures r.Some? ==> NumberShape(r.value)
    ensures r.Some? ==> exists k :: 0 <= k < |s| && OccursAt(s, r.value, k)
                                    && forall i :: 0 <= i < k ==> !IsDigit(s[i])
    ensures r.Some? ==>
              FirstDigit(s, 0).Some? &&
              (var k := FirstDigit(s, 0).value; var e := k + |r.value|;
               && OccursAt(s, r.value, k)
               && (e == |s| || !IsDigit(s[e]))
               && (e < |s| && s[e] == '.' ==> '.' in r.value))
  {
    var k := FirstDigit(s, 0);
    if k.None? then None else Some(NumberAt(s, k.value))
  }

  function Pow10(n: nat): (p: nat)
    ensures p >= 1
  {
    if n == 0 then 1 else 10 * Pow10(n - 1)
  }

  /** The decimal value of a `\d+\.?\d*` match, as `float()` reads it (exactly). */
  function NumberValue(m: string): (r: real)
    requires NumberShape(m)
    ensures r >= 0.0
  {
    var whole := BeforeFirst(m, '.');
    assert forall i :: 0 <= i < |whole| ==> whole[i] == m[i];
    if |whole| == |m| then DigitsValue(whole) as real
    else
      var frac := m[|whole| + 1..];
      assert forall i :: 0 <= i < |frac| ==> frac[i] == m[|whole| + 1 + i];
      DecimalReading(whole, frac)
  }

  /** The number written "W.F": W plus F tenths, hundredths, ... as the length of F says. */
  function DecimalReading(w: string, f: string): real
    requires forall i :: 0 <= i < |w| ==> IsDigit(w[i])
    requires forall i :: 0 <= i < |f| ==> IsDigit(f[i])
  {
    DigitsValue(w) as real + (DigitsValue(f) as real) / (Pow10(|f|) as real)
  }

  /** The text a field holds: itself when it is text, else `str()` of it. */
  function TextOf(v: Value, show: Value -> string): string {
    if v.Str? then v.s else show(v)
  }

  /** A price field (target, take-profit, stop-loss): the first number in its text, or
      None when the field is empty or holds no number. */
  function PriceOf(v: Value, show: Value -> string): (r: Option<real>)
    ensures !Truthy(v) ==> r.None?
    ensures Truthy(v) ==> (r.None? <==> FirstNumber(TextOf(v, show)).None?)
    ensures r.Some? ==> r.value >= 0.0
    ensures r.Some? ==> FirstNumber(TextOf(v, show)).Some? && r.value == NumberValue(FirstNumber(TextOf(v, show)).value)
  {
    if !Truthy(v) then None
    else
      match FirstNumber(TextOf(v, show))
      case None => None
      case Some(m) => Some(NumberValue(m))
  }

  /** A field holding a plain whole number gives that number. */
  lemma PriceOfWholeNumber(n: nat, show: Value -> string)
    requires n != 0
    ensures PriceOf(Str(NatText(n)), show) == Some(n as real)
  {
    var s := NatText(n);
    assert IsDigit(s[0]);
    assert FirstDigit(s, 0) == Some(0);
    DigitRunToEnd(s, 0);
    assert NumberAt(s, 0) == s[0..|s|] == s;
    assert forall i :: 0 <= i < |s| ==> s[i] != '.' by {
      forall i | 0 <= i < |s| ensures s[i] != '.' { assert IsDigit(s[i]); }
    }
    NatTextRoundTrip(n);
  }

  /** A field holding a decimal "W.F" gives W + F / 10^|F|, read exactly. */
  lemma PriceOfDecimal(w: string, f: string, show: Value -> string)
    requires IsDigits(w) && forall i :: 0 <= i < |f| ==> IsDigit(f[i])
    ensures PriceOf(Str(w + "." + f), show)
            == Some(DecimalReading(w, f))
  {
    var s := w + "." + f;
    var v := DecimalReading(w, f);
    DecimalIsOneNumber(w, f);
    DecimalValue(w, f);
    PriceOfOneNumber(s, v, show);
  }

  /** A non-empty text field that is one number, of value `v`, gives the price `v`. */
  lemma PriceOfOneNumber(s: string, v: real, show: Value -> string)
    requires s != [] && FirstNumber(s) == Some(s) && NumberShape(s) && NumberValue(s) == v
    ensures PriceOf(Str(s), show) == Some(v)
  {
    assert Truthy(Str(s));
    assert TextOf(Str(s), show) == s;
  }

  lemma DecimalIsOneNumber(w: string, f: string)
    requires IsDigits(w) && forall i :: 0 <= i < |f| ==> IsDigit(f[i])
    ensures FirstNumber(w + "." + f) == Some(w + "." + f)
  {
    var s := w + "." + f;
    assert s[|w|] == '.' && forall i :: 0 <= i < |w| ==> s[i] == w[i];
    assert forall i :: |w| < i < |s| ==> s[i] == f[i - |w| - 1];
    assert FirstDigit(s, 0) == Some(0);
    DigitRunStops(s, 0, |w|);
    DigitRunToEnd(s, |w| + 1);
    assert s[0..|s|] == s;
  }

  lemma DecimalValue(w: string, f: string)
    requires IsDigits(w) && forall i :: 0 <= i < |f| ==> IsDigit(f[i])
    ensures NumberShape(w + "." + f)
    ensures NumberValue(w + "." + f) == DecimalReading(w, f)
  {
    var s := w + "." + f;
    DecimalIsOneNumber(w, f);
    assert s[|w|] == '.' && forall i :: 0 <= i < |w| ==> s[i] == w[i];
    BeforeFirstAt(s, '.', |w|);
    assert s[..|w|] == w && s[|w| + 1..] == f;
  }

  /** A run of digits ends at the first character that is no digit. */
  lemma {:induction false} DigitRunStops(s: string, k: nat, j: nat)
    requires k <= j < |s| && !IsDigit(s[j])
    requires forall i :: k <= i < j ==> IsDigit(s[i])
    ensures DigitRun(s, k) == j - k
    decreases j - k
  {
    if k < j {
      DigitRunStops(s, k + 1, j);
    }
  }

  /** A run of digits reaching the end of the text is the whole rest of it. */
  lemma {:induction false} DigitRunToEnd(s: string, k: nat)
    requires k <= |s|
    requires forall i :: k <= i < |s| ==> IsDigit(s[i])
    ensures DigitRun(s, k) == |s| - k
    decreases |s| - k
  {
    if k < |s| {
      DigitRunToEnd(s, k + 1);
    }
  }

  /** `entry_range`: text holding a '-' is split on it and both sides are read as
      numbers. The minimum is kept even when the maximum does not parse; a minimum that
      does not parse leaves both empty. */
  function EntryRange(v: Value, toFloat: string -> Option<real>): (r: (Option<real>, Option<real>))
    ensures !(v.Str? && '-' in v.s) ==> r == (None, None)
    ensures r.1.Some? ==> r.0.Some?
  {
    if Truthy(v) && v.Str? && '-' in v.s then
      var parts := Split(v.s, '-');
      SplitHasTwo(v.s, '-');
      var lo := toFloat(Strip(parts[0]));
      if lo.None? then (None, None)
      else (lo, toFloat(Strip(parts[1])))
    else (None, None)
  }

  /** Text holding a '-' gives the first part read as a number for the minimum and,
      when that parses, the second part for the maximum. */
  lemma EntryRangeParts(s: string, toFloat: string -> Option<real>)
    requires '-' in s
    ensures |Split(s, '-')| >= 2
    ensures EntryRange(Str(s), toFloat).0 == toFloat(Strip(Split(s, '-')[0]))
    ensures EntryRange(Str(s), toFloat).0.Some? ==>
              EntryRange(Str(s), toFloat).1 == toFloat(Strip(Split(s, '-')[1]))
  {
    SplitHasTwo(s, '-');
    assert Truthy(Str(s));
    var parts := Split(s, '-');
    assert EntryRange(Str(s), toFloat) ==
             (if toFloat(Strip(parts[0])).None? then (None, None)
              else (toFloat(Strip(parts[0])), toFloat(Strip(parts[1]))));
  }

  /** Text holding `c` splits into at least two parts. */
  lemma SplitHasTwo(s: string, c: char)
    requires c in s
    ensures |Split(s, c)| >= 2
  {
    var k :| 0 <= k < |s| && s[k] == c;
    assert OccursAt(s, [c], k) by { assert s[k..k + 1] == [c]; }
  }

  /** When only the lower bound parses, the range keeps it and drops the upper one
      ("10-abc" gives a minimum of 10 and no maximum). */
  lemma EntryRangeKeepsMinimum(s: string, toFloat: string -> Option<real>)
    requires '-' in s
    requires toFloat(Strip(Split(s, '-')[0])).Some?
    requires |Split(s, '-')| >= 2 && toFloat(Strip(Split(s, '-')[1])).None?
    ensures EntryRange(Str(s), toFloat) == (toFloat(Strip(Split(s, '-')[0])), None)
  {
    EntryRangeParts(s, toFloat);
  }

  /** `final_decision.get("advice", final_decision.get("summary", ""))[:500]`; None
      when the value cannot be sliced (the slice raises). */
  function Summary(fd: map<string, Value>): (r: Option<Value>)
    ensures var v := if "advice" in fd then fd["advice"] else GetOr(fd, "summary", Str(""));
            && (r.None? <==> !(v.Str? || v.List?))
            && (r.Some? && v.Str? ==> r.value.Str? && |r.value.s| <= 500 && StartsWith(v.s, r.value.s)
                                       && (|v.s| <= 500 ==> r.value == v)
                                       && (|v.s| > 500 ==> r.value == Str(v.s[..500])))
  {
    var v := if "advice" in fd then fd["advice"] else GetOr(fd, "summary", Str(""));
    match v
    case Str(s) => Some(Str(if |s| <= 500 then s else s[..500]))
    case List(xs) => Some(List(if |xs| <= 500 then xs else xs[..500]))
    case _ => None
  }

  // ------------------------------------------------------------ save_analysis_results

  /** One item of a batch result: its code and its result dictionary. */
  datatype Item = Item(code: Value, result: map<string, Value>)

  /** The fields of one analysis record before it is stored. */
  datatype Draft = Draft(
    stockId: nat, rating: Value, confidence: Value, currentPrice: Value,
    targetPrice: Option<real>, entryMin: Option<real>, entryMax: Option<real>,
    takeProfit: Option<real>, stopLoss: Option<real>, summary: Value)

  /** What one item leads to: skipped (not a portfolio stock), a record to save, or an
      exception that ends the whole call. */
  datatype ItemOutcome = Skip | Save(draft: Draft) | Abort

  /** The parsing of one item, after its stock has been looked up by code. */
  function ParseItem(stocks: seq<StockRow>, item: Item, toFloat: string -> Option<real>,
                     show: Value -> string): (r: ItemOutcome)
    ensures r.Skip? <==> StockByCode(stocks, item.code).None?
    ensures r.Save? ==> StockByCode(stocks, item.code).Some? && r.draft.stockId == StockByCode(stocks, item.code).value.id
    ensures r.Save? ==> (r.draft.confidence.Float? ==> 0.0 <= r.draft.confidence.r <= 10.0)
    ensures r.Save? && r.draft.summary.Str? ==> |r.draft.summary.s| <= 500
    ensures StockByCode(stocks, item.code).Some? ==>
              var fdv := GetOr(item.result, "final_decision", Dict(map[]));
              var siv := GetOr(item.result, "stock_info", Dict(map[]));
              (r.Abort? <==> !fdv.Dict? || !siv.Dict? || Summary(fdv.entries).None?)
    ensures r.Save? ==>
              var fd := GetOr(item.result, "final_decision", Dict(map[])).entries;
              var si := GetOr(item.result, "stock_info", Dict(map[])).entries;
              && r.draft.rating == (if "rating" in fd then fd["rating"] else Str("持有"))
              && r.draft.confidence == Confidence(GetOr(fd, "confidence_level", Float(5.0)), toFloat)
              && r.draft.currentPrice == (if "current_price" in si then si["current_price"] else Float(0.0))
              && r.draft.targetPrice == PriceOf(GetOr(fd, "target_price", Str("")), show)
              && (r.draft.entryMin, r.draft.entryMax) == EntryRange(GetOr(fd, "entry_range", Str("")), toFloat)
              && r.draft.takeProfit == PriceOf(GetOr(fd, "take_profit", Str("")), show)
              && r.draft.stopLoss == PriceOf(GetOr(fd, "stop_loss", Str("")), show)
              && Some(r.draft.summary) == Summary(fd)
  {
    match StockByCode(stocks, item.code)
    case None => Skip
    case Some(row) =>
      var fdv := GetOr(item.result, "final_decision", Dict(map[]));
      var siv := GetOr(item.result, "stock_info", Dict(map[]));
      if !fdv.Dict? || !siv.Dict? then Abort
      else
        var fd := fdv.entries;
        var si := siv.entries;
        var summary := Summary(fd);
        if summary.None? then Abort
        else
          var range := EntryRange(GetOr(fd, "entry_range", Str("")), toFloat);
          Save(Draft(row.id, GetOr(fd, "rating", Str("持有")),
                     Confidence(GetOr(fd, "confidence_level", Float(5.0)), toFloat),
                     GetOr(si, "current_price", Float(0.0)),
                     PriceOf(GetOr(fd, "target_price", Str("")), show),
                     range.0, range.1,
                     PriceOf(GetOr(fd, "take_profit", Str("")), show),
                     PriceOf(GetOr(fd, "stop_loss", Str("")), show),
                     summary.value))
  }

  /** The driver can bind every value of the record. */
  predicate Storable(d: Draft) {
    Bindable(d.rating) && Bindable(d.confidence) && Bindable(d.currentPrice) && Bindable(d.summary)
  }

  /** The parsing step of a run over the portfolio `stocks`. */
  function ParserFor(stocks: seq<StockRow>, toFloat: string -> Option<real>, show: Value -> string): Item -> ItemOutcome {
    (it: Item) => ParseItem(stocks, it, toFloat, show)
  }

  /** The records a run saves, in order, or None when an item raises: each item is
      parsed by `parse`, skipped items and records that cannot be bound are not saved. */
  function Planned(items: seq<Item>, parse: Item -> ItemOutcome): (r: Option<seq<Draft>>)
    ensures r.Some? ==> |r.value| <= |items|
    ensures r.Some? ==> forall d :: d in r.value ==> Storable(d)
    decreases |items|
  {
    if items == [] then Some([])
    else
      var n := |items|;
      match Planned(items[..n - 1], parse)
      case None => None
      case Some(ds) =>
        match parse(items[n - 1])
        case Abort => None
        case Skip => Some(ds)
        case Save(d) => if Storable(d) then Some(ds + [d]) else Some(ds)
  }

  /** Every record a run over the portfolio saves belongs to one of its stocks. */
  lemma {:induction false} PlannedSavesPortfolioStocks(stocks: seq<StockRow>, items: seq<Item>,
                                                       toFloat: string -> Option<real>, show: Value -> string)
    requires Planned(items, ParserFor(stocks, toFloat, show)).Some?
    ensures forall d :: d in Planned(items, ParserFor(stocks, toFloat, show)).value ==>
              exists s :: s in stocks && s.id == d.stockId
    decreases |items|
  {
    if items != [] {
      var n := |items|;
      PlannedSavesPortfolioStocks(stocks, items[..n - 1], toFloat, show);
      var o := ParseItem(stocks, items[n - 1], toFloat, show);
      if o.Save? {
        var row := StockByCode(stocks, items[n - 1].code).value;
        assert row in stocks && row.id == o.draft.stockId;
      }
    }
  }

  /** A run saves nothing for items whose code is not a portfolio stock. */
  lemma {:induction false} PlannedIgnoresOtherCodes(stocks: seq<StockRow>, items: seq<Item>,
                                                    toFloat: string -> Option<real>, show: Value -> string)
    requires forall i :: 0 <= i < |items| ==> StockByCode(stocks, items[i].code).None?
    ensures Planned(items, ParserFor(stocks, toFloat, show)) == Some([])
    decreases |items|
  {
    if items != [] {
      PlannedIgnoresOtherCodes(stocks, items[..|items| - 1], toFloat, show);
    }
  }

  /** The stored rows for a run's records: consecutive ids from `first`, all at `now`. */
  function Rows(ds: seq<Draft>, first: nat, now: int): (r: seq<AnalysisRow>)
    ensures |r| == |ds|
    ensures forall i :: 0 <= i < |ds| ==> r[i].id == first + i && r[i].time == now
  {
    seq(|ds|, i requires 0 <= i < |ds| => RowOf(ds[i], first + i, now))
  }

  /** The row a record is stored as, under the id it is given. */
  function RowOf(d: Draft, id: nat, now: int): AnalysisRow {
    AnalysisRow(id, d.stockId, now, d.rating, d.confidence, d.currentPrice, d.targetPrice,
                d.entryMin, d.entryMax, d.takeProfit, d.stopLoss, d.summary)
  }

  /** Stores one record through `save_analysis`, which refuses one it cannot bind. */
  method SaveDraft(db: PortfolioDB, d: Draft, now: int) returns (stored: bool)
    requires db.Valid()
    modifies db
    ensures db.Valid() && db.stocks == old(db.stocks)
    ensures stored <==> Storable(d)
    ensures stored ==> db.analyses == old(db.analyses) + [RowOf(d, old(db.nextAnalysisId), now)]
                       && db.nextAnalysisId == old(db.nextAnalysisId) + 1
    ensures !stored ==> db.analyses == old(db.analyses) && db.nextAnalysisId == old(db.nextAnalysisId)
  {
    var r := db.SaveAnalysis(d.stockId, d.rating, d.confidence, d.currentPrice, d.targetPrice,
                             d.entryMin, d.entryMax, d.takeProfit, d.stopLoss, d.summary, now);
    stored := r.Returned?;
  }

  /** One more item extends the plan by what that item leads to. */
  lemma PlannedSnoc(items: seq<Item>, i: nat, parse: Item -> ItemOutcome)
    requires i < |items|
    ensures Planned(items[..i + 1], parse) ==
              match Planned(items[..i], parse)
              case None => None
              case Some(ds) =>
                match parse(items[i])
                case Abort => None
                case Skip => Some(ds)
                case Save(d) => if Storable(d) then Some(ds + [d]) else Some(ds)
  {
    assert items[..i + 1][..i] == items[..i];
  }

  /** What the next item does to a run that has not raised so far. */
  lemma PlanStep(items: seq<Item>, i: nat, parse: Item -> ItemOutcome, ds: seq<Draft>)
    requires i < |items| && Planned(items[..i], parse) == Some(ds)
    ensures parse(items[i]).Abort? ==> Planned(items, parse).None?
    ensures parse(items[i]).Skip? ==> Planned(items[..i + 1], parse) == Some(ds)
    ensures parse(items[i]).Save? ==>
              Planned(items[..i + 1], parse) ==
              Some(if Storable(parse(items[i]).draft) then ds + [parse(items[i]).draft] else ds)
  {
    PlannedSnoc(items, i, parse);
    if parse(items[i]).Abort? {
      PlannedStaysNone(items, i + 1, parse);
    }
  }

  /** Once an item raises, the whole run raises. */
  lemma {:induction false} PlannedStaysNone(items: seq<Item>, j: nat, parse: Item -> ItemOutcome)
    requires j <= |items|
    requires Planned(items[..j], parse).None?
    ensures Planned(items, parse).None?
    decreases |items| - j
  {
    if j < |items| {
      PlannedSnoc(items, j, parse);
      PlannedStaysNone(items, j + 1, parse);
    } else {
      assert items[..j] == items;
    }
  }

  lemma RowsSnoc(ds: seq<Draft>, d: Draft, first: nat, now: int)
    ensures Rows(ds + [d], first, now) == Rows(ds, first, now) + [RowOf(d, first + |ds|, now)]
  {
  }

  function Ids(n: nat, first: nat): (r: seq<nat>)
    ensures |r| == n
    ensures forall i :: 0 <= i < n ==> r[i] == first + i
  {
    seq(n, i requires 0 <= i < n => first + i)
  }

  /** `save_analysis_results`: nothing when the batch did not succeed; otherwise one
      record per portfolio stock in the results, in order, returning the new ids. An
      item whose decision or stock info is not a dictionary, or whose summary cannot be
      sliced, raises; the records saved before it stay. */
  method SaveAnalysisResults(db: PortfolioDB, success: Value, items: seq<Item>,
                             toFloat: string -> Option<real>, show: Value -> string, now: int)
    returns (r: Reply<seq<nat>>)
    requires db.Valid()
    modifies db
    ensures db.Valid() && db.stocks == old(db.stocks)
    ensures !Truthy(success) ==> r == Returned([]) && db.analyses == old(db.analyses)
    ensures Truthy(success) ==> (r.Returned? <==> Planned(items, ParserFor(old(db.stocks), toFloat, show)).Some?)
    ensures Truthy(success) && r.Returned? ==>
              var ds := Planned(items, ParserFor(old(db.stocks), toFloat, show)).value;
              && db.analyses == old(db.analyses) + Rows(ds, old(db.nextAnalysisId), now)
              && r.value == Ids(|ds|, old(db.nextAnalysisId))
    ensures |old(db.analyses)| <= |db.analyses| && db.analyses[..|old(db.analyses)|] == old(db.analyses)
  {
    if !Truthy(success) {
      return Returned([]);
    }
    r := SaveEach(db, items, ParserFor(db.stocks, toFloat, show), now);
  }

  /** The loop of `save_analysis_results` over the items of a successful batch, with
      the parsing of one item as `parse`. */
  method SaveEach(db: PortfolioDB, items: seq<Item>, parse: Item -> ItemOutcome, now: int)
    returns (r: Reply<seq<nat>>)
    requires db.Valid()
    modifies db
    ensures db.Valid() && db.stocks == old(db.stocks)
    ensures r.Returned? <==> Planned(items, parse).Some?
    ensures r.Returned? ==>
              && db.analyses == old(db.analyses) + Rows(Planned(items, parse).value, old(db.nextAnalysisId), now)
              && r.value == Ids(|Planned(items, parse).value|, old(db.nextAnalysisId))
    ensures |old(db.analyses)| <= |db.analyses| && db.analyses[..|old(db.analyses)|] == old(db.analyses)
  {
    var saved: seq<nat> := [];
    ghost var drafts: seq<Draft> := [];
    ghost var first := db.nextAnalysisId;
    ghost var start := db.analyses;
    assert Rows(drafts, first, now) == [];
    assert items[..0] == [];
    var i := 0;
    while i < |items|
      invariant 0 <= i <= |items|
      invariant db.Valid() && db.stocks == old(db.stocks)
      invariant Planned(items[..i], parse) == Some(drafts)
      invariant db.analyses == start + Rows(drafts, first, now)
      invariant db.nextAnalysisId == first + |drafts|
      invariant |saved| == |drafts| && forall k :: 0 <= k < |saved| ==> saved[k] == first + k
    {
      PlanStep(items, i, parse, drafts);
      match parse(items[i]) {
        case Skip =>
        case Abort =>
          assert db.analyses[..|old(db.analyses)|] == old(db.analyses);
          return Raised;
        case Save(d) =>
          var id := db.nextAnalysisId;
          var stored := SaveDraft(db, d, now);
          if stored {
            RowsSnoc(drafts, d, first, now);
            drafts := drafts + [d];
            saved := saved + [id];
          }
      }
      i := i + 1;
    }
    assert items[..i] == items;
    assert saved == Ids(|drafts|, first);
    return Returned(saved);
  }
}
