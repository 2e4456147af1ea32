/** Symbol recognition and the small value rules of the stock data fetcher
    (stock_data.py): which market a symbol belongs to, how A-share and Hong Kong codes
    are normalised before a lookup, the look-back window of each period, the sanity
    bounds on valuation ratios and the tolerant number conversion. The providers behind
    the lookups are not part of this model; `float()` on text is a parameter. */
module StockData {
  import opened Common

  const AShareSuffixes: set<string> := {".SZ", ".SH", ".sz", ".sh"}

  /** `_is_chinese_stock` */
  predicate IsChineseStock(symbol: string) {
    if IsDigits(symbol) && |symbol| == 6 then true
    else if |symbol| == 9 && (EndsWith(symbol, ".SZ") || EndsWith(symbol, ".SH")
                              || EndsWith(symbol, ".sz") || EndsWith(symbol, ".sh"))
    then IsDigits(symbol[..|symbol| - 3]) && |symbol[..|symbol| - 3]| == 6
    else false
  }

  /** The two shapes an A-share symbol takes: a bare six-digit code, or a six-digit code
      followed by an exchange suffix. */
  lemma ChineseStockShapes(symbol: string)
    ensures IsChineseStock(symbol) <==>
      (|symbol| == 6 && IsDigits(symbol))
      || (|symbol| == 9 && IsDigits(symbol[..6]) && symbol[6..] in AShareSuffixes)
  {
    if |symbol| == 9 {
      assert symbol[..|symbol| - 3] == symbol[..6];
      assert symbol[|symbol| - 3..] == symbol[6..];
    }
  }

  /** `_is_hk_stock` */
  predicate IsHkStock(symbol: string) {
    StartsWith(Upper(symbol), "HK") || (IsDigits(symbol) && 1 <= |symbol| <= 5)
  }

  /** No symbol is taken for both an A-share and a Hong Kong stock. */
  lemma MarketsDisjoint(symbol: string)
    ensures !(IsChineseStock(symbol) && IsHkStock(symbol))
  {
    if IsChineseStock(symbol) {
      ChineseStockShapes(symbol);
      assert IsDigit(symbol[0]);
      assert Upper(symbol)[0] == symbol[0];
    }
  }

  /** `str.zfill(width)`: left-pads with '0' up to `width`, keeping a leading sign first. */
  function ZFill(s: string, width: nat): (r: string)
    ensures |r| == if |s| >= width then |s| else width
    ensures |s| >= width ==> r == s
  {
    if |s| >= width then s
    else if s != [] && (s[0] == '+' || s[0] == '-') then [s[0]] + Zeros(width - |s|) + s[1..]
    else Zeros(width - |s|) + s
  }

  function Zeros(n: nat): (z: string)
    ensures |z| == n && forall i :: 0 <= i < n ==> z[i] == '0'
  {
    seq(n, i => '0')
  }

  /** `_normalize_hk_code`: drops a leading "HK" in any case, then pads to five. */
  function NormalizeHkCode(symbol: string): string {
    var code := if StartsWith(Upper(symbol), "HK") then symbol[2..] else symbol;
    ZFill(code, 5)
  }

  /** Leading zeros do not change the value of a digit string. */
  lemma {:induction false} ZerosKeepValue(n: nat, s: string)
    requires forall i :: 0 <= i < |s| ==> IsDigit(s[i])
    ensures forall i :: 0 <= i < |Zeros(n) + s| ==> IsDigit((Zeros(n) + s)[i])
    ensures DigitsValue(Zeros(n) + s) == DigitsValue(s)
    decreases |s|
  {
    var t := Zeros(n) + s;
    if s == [] {
      assert t == Zeros(n);
      ZerosValue(n);
    } else {
      assert t[..|t| - 1] == Zeros(n) + s[..|s| - 1];
      ZerosKeepValue(n, s[..|s| - 1]);
    }
  }

  lemma {:induction false} ZerosValue(n: nat)
    ensures DigitsValue(Zeros(n)) == 0
    decreases n
  {
    if n > 0 {
      assert Zeros(n)[..n - 1] == Zeros(n - 1);
      ZerosValue(n - 1);
    }
  }

  /** A digit code becomes at least five digits with the same numeric value (700 and
      00700 are the same stock), longer codes are never cut, and normalising twice is
      normalising once. */
  lemma NormalizeDigitCode(symbol: string)
    requires IsDigits(symbol)
    ensures var r := NormalizeHkCode(symbol);
      && IsDigits(r) && |r| == (if |symbol| >= 5 then |symbol| else 5)
      && DigitsValue(r) == DigitsValue(symbol)
      && EndsWith(r, symbol)
      && NormalizeHkCode(r) == r
  {
    DigitCodeIsPadded(symbol);
    var r := NormalizeHkCode(symbol);
    if |symbol| < 5 {
      PaddedDigits(symbol);
    }
    DigitCodeIsPadded(r);
  }

  /** A code that starts with a digit has no "HK" prefix, so it is only padded. */
  lemma DigitCodeIsPadded(symbol: string)
    requires |symbol| > 0 && IsDigit(symbol[0])
    ensures NormalizeHkCode(symbol) == ZFill(symbol, 5)
  {
    assert Upper(symbol)[0] == symbol[0];
  }

  /** Padding a short digit code with zeros keeps it a digit code of the same value
      that ends in the original. */
  lemma PaddedDigits(symbol: string)
    requires IsDigits(symbol) && |symbol| < 5
    ensures var r := ZFill(symbol, 5);
      && IsDigits(r) && |r| == 5 && DigitsValue(r) == DigitsValue(symbol) && EndsWith(r, symbol)
  {
    var r := ZFill(symbol, 5);
    assert r == Zeros(5 - |symbol|) + symbol;
    ZerosKeepValue(5 - |symbol|, symbol);
    assert r[|r| - |symbol|..] == symbol;
  }

  /** A prefixed code loses exactly its two-letter prefix before padding, and a leading
      sign stays in front of the padding as `zfill` keeps it. */
  lemma NormalizePrefixed(symbol: string)
    ensures StartsWith(Upper(symbol), "HK") ==> NormalizeHkCode(symbol) == ZFill(symbol[2..], 5)
    ensures NormalizeHkCode("-12") == "-0012"
    ensures |NormalizeHkCode(symbol)| >= 5
  {
    var m := "-12";
    assert Upper(m)[0] == '-';
    assert ZFill(m, 5) == [m[0]] + Zeros(2) + m[1..];
    assert Zeros(2) == "00";
  }

  // ------------------------------------------------------------ dispatch

  /** Where `get_stock_info` / `get_stock_data` send a symbol. */
  datatype Market = AShare(code: string) | HongKong(symbol: string) | Us(symbol: string)

  /** A-shares are looked up by the text before the '.' when the symbol is the nine
      character suffixed form; Hong Kong and US symbols are passed on as given. */
  function Dispatch(symbol: string): Market {
    if IsChineseStock(symbol) then
      AShare(if |symbol| == 9 && '.' in symbol then BeforeFirst(symbol, '.') else symbol)
    else if IsHkStock(symbol) then HongKong(symbol)
    else Us(symbol)
  }

  /** Every A-share lookup uses a bare six-digit code, the leading six characters of the
      symbol, and the financial-data path (`clean_symbol`) derives the same code. */
  lemma DispatchedCodeIsSixDigits(symbol: string)
    requires IsChineseStock(symbol)
    ensures Dispatch(symbol).AShare?
    ensures var code := Dispatch(symbol).code; |code| == 6 && IsDigits(code) && code == symbol[..6]
    ensures CleanSymbol(symbol) == Dispatch(symbol).code
  {
    ChineseStockShapes(symbol);
    if |symbol| == 9 {
      assert symbol[6] == '.';
      assert '.' in symbol;
      assert forall i :: 0 <= i < 6 ==> symbol[i] != '.' by {
        forall i | 0 <= i < 6 ensures symbol[i] != '.' { assert symbol[..6][i] == symbol[i]; }
      }
      BeforeFirstAt(symbol, '.', 6);
    } else {
      assert '.' !in symbol by {
        forall i | 0 <= i < |symbol| ensures symbol[i] != '.' { assert IsDigit(symbol[i]); }
      }
    }
  }

  /** Hong Kong and US symbols reach their fetchers unchanged. */
  lemma DispatchKeepsForeignSymbols(symbol: string)
    ensures !IsChineseStock(symbol) && IsHkStock(symbol) ==> Dispatch(symbol) == HongKong(symbol)
    ensures !IsChineseStock(symbol) && !IsHkStock(symbol) ==> Dispatch(symbol) == Us(symbol)
    ensures Dispatch("600519.SH") == AShare("600519")
    ensures Dispatch("00700") == HongKong("00700")
  {
    var a := "600519.SH";
    assert IsChineseStock(a) by { ChineseStockShapes(a); assert a[..6] == "600519"; assert a[6..] == ".SH"; }
    DispatchedCodeIsSixDigits(a);
    assert a[..6] == "600519";
    var h := "00700";
    assert !IsChineseStock(h) by { ChineseStockShapes(h); }
  }

  /** `_get_chinese_financial_data`'s `clean_symbol`: the text before the first '.'. */
  function CleanSymbol(symbol: string): (r: string)
    ensures '.' !in r
    ensures '.' !in symbol ==> r == symbol
    ensures StartsWith(symbol, r)
    ensures |r| < |symbol| ==> symbol[|r|] == '.'
  {
    if '.' in symbol then
      var r := BeforeFirst(symbol, '.');
      assert forall i :: 0 <= i < |r| ==> r[i] != '.';
      r
    else
      assert symbol[..|symbol|] == symbol;
      symbol
  }

  // ------------------------------------------------------------ periods

  /** Look-back window in days for A-share history. */
  function AShareLookbackDays(period: string): (days: nat)
    ensures days in {365, 180, 90}
    ensures period == "1y" ==> days == 365
    ensures period == "6mo" ==> days == 180
    ensures period == "3mo" ==> days == 90
  {
    if period == "1y" then 365
    else if period == "6mo" then 180
    else if period == "3mo" then 90
    else 365
  }

  /** Look-back window in days for Hong Kong history: the A-share table plus one month. */
  function HkLookbackDays(period: string): (days: nat)
    ensures days in {365, 180, 90, 30}
    ensures period != "1mo" ==> days == AShareLookbackDays(period)
  {
    if period == "1y" then 365
    else if period == "6mo" then 180
    else if period == "3mo" then 90
    else if period == "1mo" then 30
    else 365
  }

  /** An unknown period falls back to a year in both markets; only Hong Kong knows "1mo". */
  lemma LookbackDefaults(period: string)
    ensures period !in {"1y", "6mo", "3mo", "1mo"} ==> AShareLookbackDays(period) == 365 == HkLookbackDays(period)
    ensures AShareLookbackDays("1mo") == 365 && HkLookbackDays("1mo") == 30
  {
  }

  // ------------------------------------------------------------ ratios

  /** `float(value)` for the kinds of cell the providers return; `toFloat` reads text. */
  function ToReal(v: Value, toFloat: string -> Option<real>): Option<real> {
    match v
    case Bool(b) => Some(if b then 1.0 else 0.0)
    case Int(i) => Some(i as real)
    case Float(r) => Some(r)
    case Str(s) => toFloat(s)
    case _ => None
  }

  /** A ratio read from a provider cell: kept only when the cell is set, is not "-",
      converts, and lies in (0, bound]; a NaN compares false and is dropped. */
  function BoundedRatio(v: Value, bound: real, toFloat: string -> Option<real>): (r: Option<real>)
    ensures r.Some? ==> 0.0 < r.value <= bound
    ensures r.Some? ==> Truthy(v) && v != Str("-") && ToReal(v, toFloat) == Some(r.value)
    ensures (Truthy(v) && v != Str("-") && ToReal(v, toFloat).Some?
             && 0.0 < ToReal(v, toFloat).value <= bound) ==> r.Some?
  {
    if !Truthy(v) || v == Str("-") then None
    else match ToReal(v, toFloat)
      case Some(x) => if 0.0 < x <= bound then Some(x) else None
      case None => None
  }

  /** The P/E ratio is believed only in (0, 1000]. */
  function PeRatio(v: Value, toFloat: string -> Option<real>): (r: Option<real>)
    ensures r.Some? ==> 0.0 < r.value <= 1000.0
  {
    BoundedRatio(v, 1000.0, toFloat)
  }

  /** The P/B ratio is believed only in (0, 100]. */
  function PbRatio(v: Value, toFloat: string -> Option<real>): (r: Option<real>)
    ensures r.Some? ==> 0.0 < r.value <= 100.0
  {
    BoundedRatio(v, 100.0, toFloat)
  }

  // ------------------------------------------------------------ tolerant conversion

  /** `_safe_convert`: missing values become 'N/A', text is read as a number after
      dropping '%' and ',', and is returned cleaned when it is not a number; any other
      value is returned as it is. */
  function SafeConvert(v: Value, toFloat: string -> Option<real>): (r: Value)
    ensures v == Null || v == Str("") || v == NaN ==> r == Str("N/A")
    ensures !v.Str? && v != Null && v != NaN ==> r == v
    ensures v.Str? && v != Str("") ==> r.Float? || (r.Str? && '%' !in r.s && ',' !in r.s)
    ensures v.Str? && r.Float? ==> toFloat(RemoveChar(RemoveChar(v.s, '%'), ',')) == Some(r.r)
    ensures v.Str? && v != Str("") && toFloat(RemoveChar(RemoveChar(v.s, '%'), ',')).Some? ==> r.Float?
    ensures v.Str? && r.Str? && v != Str("") ==> r.s == RemoveChar(RemoveChar(v.s, '%'), ',')
  {
    if v == Null || v == Str("") || v == NaN then Str("N/A")
    else if v.Str? then
      var cleaned := RemoveChar(RemoveChar(v.s, '%'), ',');
      assert '%' !in cleaned by {
        if '%' in cleaned {
          var k :| 0 <= k < |cleaned| && cleaned[k] == '%';
          RemoveCharKeepsOthers(RemoveChar(v.s, '%'), ',', '%');
        }
      }
      match toFloat(cleaned)
      case Some(x) => Float(x)
      case None => Str(cleaned)
    else v
  }

  /** A trailing '%' and a thousands separator are ignored: "1,234.5%" converts as
      "1234.5" does. */
  lemma SafeConvertIgnoresMarks(a: string, b: string, toFloat: string -> Option<real>)
    requires '%' !in a && ',' !in a && '%' !in b && ',' !in b && a + b != ""
    ensures SafeConvert(Str(a + "," + b + "%"), toFloat) == SafeConvert(Str(a + b), toFloat)
  {
    MarksRemoved(a, b);
    PlainTextCleaned(a + b);
  }

  lemma PlainTextCleaned(t: string)
    requires '%' !in t && ',' !in t
    ensures RemoveChar(RemoveChar(t, '%'), ',') == t
  {
    RemoveAbsentChar(t, '%');
    RemoveAbsentChar(t, ',');
  }

  lemma MarksRemoved(a: string, b: string)
    requires '%' !in a && ',' !in a && '%' !in b && ',' !in b
    ensures RemoveChar(RemoveChar(a + "," + b + "%", '%'), ',') == a + b
  {
    var t := a + [','] + b;
    assert a + "," + b + "%" == t + ['%'];
    TrailingDropped(t, '%');
    SeparatorDropped(a, b, ',');
  }

  /** A trailing character is the only one removed from text that has no other. */
  lemma TrailingDropped(t: string, c: char)
    requires c !in t
    ensures RemoveChar(t + [c], c) == t
  {
    RemoveAbsentChar(t, c);
    RemoveCharAppend(t, [c], c);
    RemoveOnlyChar(c);
    assert t + [] == t;
  }

  /** The one separator between two texts without it is removed. */
  lemma SeparatorDropped(a: string, b: string, c: char)
    requires c !in a && c !in b
    ensures RemoveChar(a + [c] + b, c) == a + b
  {
    TrailingDropped(a, c);
    RemoveAbsentChar(b, c);
    RemoveCharAppend(a + [c], b, c);
  }

  lemma RemoveOnlyChar(c: char)
    ensures RemoveChar([c], c) == []
  {
    assert [c][1..] == [];
  }

  /** Removing one character never introduces another. */
  lemma {:induction false} RemoveCharKeepsOthers(s: string, c: char, d: char)
    requires d !in s
    ensures d !in RemoveChar(s, c)
    decreases |s|
  {
    if s != [] {
      assert d !in s[1..];
      RemoveCharKeepsOthers(s[1..], c, d);
    }
  }
}
