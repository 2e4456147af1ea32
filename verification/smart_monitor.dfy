/** A-share trading-session classifier and the sanitiser that turns a language
    model's free-text reply into a trade-decision record (smart_monitor_deepseek.py).
    The clock is a parameter: a weekday (Monday = 0, as `datetime.weekday()`) and a
    Beijing wall-clock time of day in microseconds. */
module SmartMonitor {
  import opened Common

  type Weekday = w: int | 0 <= w < 7

  const DayMicros: int := 86_400_000_000

  /** Microseconds since midnight, Python's `datetime.time` resolution. */
  type TimeOfDay = t: int | 0 <= t < DayMicros

  /** `time(h, m)` */
  function At(h: nat, m: nat): int { (h * 3600 + m * 60) * 1_000_000 }

  datatype Session =
    | WeekendClosed    // 休市
    | CallAuction      // 集合竞价
    | Morning          // 上午盘
    | LunchBreak       // 午间休市
    | Afternoon        // 下午盘
    | ClosingWindow    // 尾盘
    | AfterHours       // 盘后

  datatype SessionInfo = SessionInfo(
    session: Session, name: string, volatility: string, recommendation: string,
    beijingHour: int, canTrade: bool)

  /** `is_trading_time`: a weekday inside 09:30-11:30 or 13:00-15:00, both ends included. */
  predicate IsTradingTime(w: Weekday, t: TimeOfDay) {
    if w >= 5 then false
    else (At(9, 30) <= t <= At(11, 30)) || (At(13, 0) <= t <= At(15, 0))
  }

  /** The wall-clock window of each session, stated independently of the classifier's
      branch order. */
  predicate InWindow(s: Session, w: Weekday, t: TimeOfDay) {
    match s
    case WeekendClosed => w >= 5
    case CallAuction => w < 5 && At(9, 0) <= t < At(9, 30)
    case Morning => w < 5 && At(9, 30) <= t <= At(11, 30)
    case LunchBreak => w < 5 && At(11, 30) < t < At(13, 0)
    case Afternoon => w < 5 && At(13, 0) <= t < At(14, 30)
    case ClosingWindow => w < 5 && At(14, 30) <= t <= At(15, 0)
    case AfterHours => w < 5 && (t < At(9, 0) || t > At(15, 0))
  }

  function Info(s: Session, t: TimeOfDay): (info: SessionInfo)
    ensures info.session == s
  {
    var hour := t / 3_600_000_000;
    match s
    case WeekendClosed => SessionInfo(s, "休市", "none", "周末不可交易", hour, false)
    case CallAuction => SessionInfo(s, "集合竞价", "high", "可观察盘面情绪，准备开盘交易", hour, false)
    case Morning => SessionInfo(s, "上午盘", "high", "交易活跃，波动较大", hour, true)
    case LunchBreak => SessionInfo(s, "午间休市", "none", "不可交易，可分析上午盘面", hour, false)
    case ClosingWindow => SessionInfo(s, "尾盘", "high", "尾盘波动大，谨慎操作", hour, true)
    case Afternoon => SessionInfo(s, "下午盘", "medium", "波动趋缓，适合布局", hour, true)
    case AfterHours => SessionInfo(s, "盘后", "none", "收盘后，可复盘分析", hour, false)
  }

  /** `get_trading_session`: the first matching branch decides. */
  function GetTradingSession(w: Weekday, t: TimeOfDay): (info: SessionInfo)
    ensures InWindow(info.session, w, t)
    ensures info.canTrade == IsTradingTime(w, t)
    ensures info.canTrade <==> info.session in {Morning, Afternoon, ClosingWindow}
    ensures 0 <= info.beijingHour < 24
  {
    if w >= 5 then Info(WeekendClosed, t)
    else if At(9, 0) <= t < At(9, 30) then Info(CallAuction, t)
    else if At(9, 30) <= t <= At(11, 30) then Info(Morning, t)
    else if At(11, 30) < t < At(13, 0) then Info(LunchBreak, t)
    else if At(13, 0) <= t <= At(15, 0) then
      (if t >= At(14, 30) then Info(ClosingWindow, t) else Info(Afternoon, t))
    else Info(AfterHours, t)
  }

  /** Exactly one session's window contains any instant. */
  lemma WindowsAreExclusive(w: Weekday, t: TimeOfDay, s: Session)
    ensures InWindow(s, w, t) <==> s == GetTradingSession(w, t).session
  {
  }

  // ------------------------------------------------------------ decision payloads

  /** What `json.loads` gives: a value, or the decoder's error message. */
  datatype Decoded = Parsed(value: Value) | DecodeError(message: string)

  /** Why a reply was rejected; `Text` is Python's `str(e)` for each exception. */
  datatype ParseFailure =
    | BadJson(message: string)             // json.JSONDecodeError
    | MissingField(field: string)          // ValueError raised by the field check
    | NotIterable(typeName: string)        // TypeError from `field not in decision`
    | NoSetDefault(typeName: string)       // AttributeError from `decision.setdefault`

  function FailureText(e: ParseFailure): string {
    match e
    case BadJson(m) => m
    case MissingField(f) => "缺少必需字段: " + f
    case NotIterable(n) => "argument of type '" + n + "' is not iterable"
    case NoSetDefault(n) => "'" + n + "' object has no attribute 'setdefault'"
  }

  const RequiredFields: seq<string> := ["action", "confidence", "reasoning"]

  const JsonFence: string := "```json"
  const Fence: string := "```"

  /** Payload extraction exactly as written: a ```json fence (found case-insensitively),
      else the line after a generic fence, else first '{' to last '}', else the whole
      reply. A missing closing fence makes `find` return -1, and the slice then stops one
      character before the end of the reply. */
  function ExtractPayloadAsWritten(reply: string): string {
    var low := Lower(reply);
    if Contains(low, JsonFence) then
      var start := Find(low, JsonFence, 0) + 7;
      var stop := Find(reply, Fence, start);
      Strip(Slice(reply, start, stop))
    else if Contains(reply, Fence) then
      var first := Find(reply, Fence, 0);
      var start := Find(reply, "\n", first) + 1;
      var stop := Find(reply, Fence, start);
      Strip(Slice(reply, start, stop))
    else if Contains(reply, "{") && Contains(reply, "}") then
      Slice(reply, Find(reply, "{", 0), RFindChar(reply, '}') + 1)
    else reply
  }

  /** The closing position of a fenced block: the next fence, or the end of the reply
      when the block is left open. */
  function FenceEnd(reply: string, start: nat): (stop: int)
    ensures start <= stop <= |reply| || (start > |reply| && stop == |reply|)
  {
    var k := Find(reply, Fence, start);
    if k == -1 then |reply| else k
  }

  /** Payload extraction with an unclosed fence read to the end of the reply; otherwise
      the same priority and the same slices as `ExtractPayloadAsWritten`. */
  function ExtractPayload(reply: string): string {
    var low := Lower(reply);
    if Contains(low, JsonFence) then
      var start := Find(low, JsonFence, 0) + 7;
      Strip(Slice(reply, start, FenceEnd(reply, start)))
    else if Contains(reply, Fence) then
      var first := Find(reply, Fence, 0);
      var start := Find(reply, "\n", first) + 1;
      Strip(Slice(reply, start, FenceEnd(reply, start)))
    else if Contains(reply, "{") && Contains(reply, "}") then
      Slice(reply, Find(reply, "{", 0), RFindChar(reply, '}') + 1)
    else reply
  }

  function TypeName(v: Value): string {
    match v
    case Null => "NoneType"
    case Bool(_) => "bool"
    case Int(_) => "int"
    case Float(_) => "float"
    case NaN => "float"
    case Str(_) => "str"
    case List(_) => "list"
    case Dict(_) => "dict"
  }

  /** `field in decision` for the kinds of value `json.loads` can return. */
  function Has(v: Value, field: string): Option<bool> {
    match v
    case Dict(m) => Some(field in m)
    case List(xs) => Some(Str(field) in xs)
    case Str(s) => Some(Contains(s, field))
    case _ => None
  }

  /** The first required field the payload lacks, in the order the source checks them. */
  function FirstMissing(v: Value, fields: seq<string>): (r: Option<ParseFailure>)
    ensures r == None <==> forall f :: f in fields ==> Has(v, f) == Some(true)
  {
    if fields == [] then None
    else match Has(v, fields[0])
      case None => Some(NotIterable(TypeName(v)))
      case Some(false) => Some(MissingField(fields[0]))
      case Some(true) => FirstMissing(v, fields[1..])
  }

  /** `dict.setdefault` for the four optional fields. */
  function WithDefaults(m: map<string, Value>): map<string, Value> {
    var m1 := if "position_size_pct" in m then m else m["position_size_pct" := Int(20)];
    var m2 := if "stop_loss_pct" in m1 then m1 else m1["stop_loss_pct" := Float(5.0)];
    var m3 := if "take_profit_pct" in m2 then m2 else m2["take_profit_pct" := Float(10.0)];
    if "risk_level" in m3 then m3 else m3["risk_level" := Str("medium")]
  }

  /** The conservative decision returned whenever the reply cannot be used. */
  function Fallback(e: ParseFailure): map<string, Value> {
    map[
      "action" := Str("HOLD"),
      "confidence" := Int(0),
      "reasoning" := Str("AI响应解析失败: " + FailureText(e)),
      "position_size_pct" := Int(0),
      "stop_loss_pct" := Float(5.0),
      "take_profit_pct" := Float(10.0),
      "risk_level" := Str("high")]
  }

  /** A decoded payload the source accepts: an object holding the three required fields. */
  predicate Accepted(d: Decoded) {
    && d.Parsed? && d.value.Dict?
    && "action" in d.value.entries && "confidence" in d.value.entries && "reasoning" in d.value.entries
  }

  /** The exception `_parse_decision` raises on a decoded payload, if any. */
  function Rejection(d: Decoded): (r: Option<ParseFailure>)
    ensures r == None <==> Accepted(d)
  {
    match d
    case DecodeError(msg) => Some(BadJson(msg))
    case Parsed(v) =>
      match FirstMissing(v, RequiredFields)
      case Some(e) => Some(e)
      case None =>
        assert Has(v, RequiredFields[0]) == Some(true) && Has(v, RequiredFields[1]) == Some(true)
          && Has(v, RequiredFields[2]) == Some(true);
        if v.Dict? then None else Some(NoSetDefault(TypeName(v)))
  }

  /** `_parse_decision` as a function of the reply and of the JSON decoder, with the
      payload extracted as written. */
  function DecisionOf(reply: string, decode: string -> Decoded): map<string, Value> {
    var d := decode(ExtractPayloadAsWritten(reply));
    match Rejection(d)
    case Some(e) => Fallback(e)
    case None => WithDefaults(d.value.entries)
  }

  const DecisionKeys: set<string> :=
    {"action", "confidence", "reasoning", "position_size_pct", "stop_loss_pct", "take_profit_pct", "risk_level"}

  /** `_parse_decision`, step by step: the payload is cut out as written, decoded, the
      required fields are checked in turn, then the defaults are set. */
  method ParseDecision(reply: string, decode: string -> Decoded) returns (decision: map<string, Value>)
    ensures decision == DecisionOf(reply, decode)
    ensures DecisionKeys <= decision.Keys
  {
    var jsonStr := ExtractPayloadAsWritten(reply);
    var decoded := decode(jsonStr);
    if decoded.DecodeError? {
      decision := Fallback(BadJson(decoded.message));
      return;
    }
    var v := decoded.value;
    var i := 0;
    while i < |RequiredFields|
      invariant 0 <= i <= |RequiredFields|
      invariant FirstMissing(v, RequiredFields) == FirstMissing(v, RequiredFields[i..])
    {
      var has := Has(v, RequiredFields[i]);
      if has.None? {
        decision := Fallback(NotIterable(TypeName(v)));
        return;
      }
      if !has.value {
        decision := Fallback(MissingField(RequiredFields[i]));
        return;
      }
      i := i + 1;
    }
    if !v.Dict? {
      decision := Fallback(NoSetDefault(TypeName(v)));
      return;
    }
    assert Rejection(decoded) == None;
    decision := v.entries;
    if "position_size_pct" !in decision { decision := decision["position_size_pct" := Int(20)]; }
    if "stop_loss_pct" !in decision { decision := decision["stop_loss_pct" := Float(5.0)]; }
    if "take_profit_pct" !in decision { decision := decision["take_profit_pct" := Float(10.0)]; }
    if "risk_level" !in decision { decision := decision["risk_level" := Str("medium")]; }
  }

  /** A payload that is a JSON object with the three required fields is kept as the model
      gave it, action included (no action validation, no T+1 override); only the four
      optional fields that are absent receive their defaults. */
  lemma AcceptedPayloadKept(reply: string, decode: string -> Decoded, m: map<string, Value>)
    requires decode(ExtractPayloadAsWritten(reply)) == Parsed(Dict(m))
    requires Accepted(Parsed(Dict(m)))
    ensures DecisionOf(reply, decode).Keys == m.Keys + DecisionKeys
    ensures forall k :: k in m ==> DecisionOf(reply, decode)[k] == m[k]
    ensures "position_size_pct" !in m ==> DecisionOf(reply, decode)["position_size_pct"] == Int(20)
    ensures "stop_loss_pct" !in m ==> DecisionOf(reply, decode)["stop_loss_pct"] == Float(5.0)
    ensures "take_profit_pct" !in m ==> DecisionOf(reply, decode)["take_profit_pct"] == Float(10.0)
    ensures "risk_level" !in m ==> DecisionOf(reply, decode)["risk_level"] == Str("medium")
  {
  }

  /** Every payload that does not decode to an object carrying action, confidence and
      reasoning yields the conservative HOLD decision, whose reasoning names the failure. */
  lemma RejectedPayloadHolds(reply: string, decode: string -> Decoded)
    requires !Accepted(decode(ExtractPayloadAsWritten(reply)))
    ensures exists e :: DecisionOf(reply, decode) == Fallback(e)
    ensures DecisionOf(reply, decode)["action"] == Str("HOLD")
    ensures DecisionOf(reply, decode)["confidence"] == Int(0)
    ensures DecisionOf(reply, decode)["position_size_pct"] == Int(0)
    ensures DecisionOf(reply, decode)["risk_level"] == Str("high")
    ensures StartsWith(DecisionOf(reply, decode)["reasoning"].s, "AI响应解析失败: ")
  {
    var e := Rejection(decode(ExtractPayloadAsWritten(reply))).value;
    assert DecisionOf(reply, decode) == Fallback(e);
    var prefix := "AI响应解析失败: ";
    assert (prefix + FailureText(e))[..|prefix|] == prefix;
  }

  // ------------------------------------------------------------ the fence finding

  predicate NoBacktick(s: string) { forall i :: 0 <= i < |s| ==> s[i] != '`' }

  lemma {:induction false} NoOccurrenceWithoutBacktick(s: string, pat: string, from: nat, upto: int)
    requires |pat| > 0 && pat[0] == '`'
    requires forall i :: from <= i < upto && 0 <= i < |s| ==> s[i] != '`'
    ensures forall i :: from <= i < upto ==> !OccursAt(s, pat, i)
  {
    forall i | from <= i < upto ensures !OccursAt(s, pat, i) {
      if 0 <= i && i + |pat| <= |s| { assert s[i..i + |pat|][0] == s[i]; }
    }
  }

  lemma LowerKeepsBackticks(s: string)
    ensures forall i :: 0 <= i < |s| ==> (Lower(s)[i] == '`' <==> s[i] == '`')
  {
  }

  /** Where the ```json fence is found, and where the search for the closing fence
      starts, for a reply `pre + "```json" + body + rest` whose prefix and body hold no
      backtick. */
  lemma {:induction false} FenceLocated(pre: string, body: string, rest: string)
    requires NoBacktick(pre) && NoBacktick(body)
    ensures var reply := pre + JsonFence + body + rest;
      && Contains(Lower(reply), JsonFence)
      && Find(Lower(reply), JsonFence, 0) == |pre|
      && (rest == [] ==> Find(reply, Fence, |pre| + 7) == -1)
      && (StartsWith(rest, Fence) ==> Find(reply, Fence, |pre| + 7) == |pre| + 7 + |body|)
  {
    var reply := pre + JsonFence + body + rest;
    var low := Lower(reply);
    LowerKeepsBackticks(reply);
    assert OccursAt(low, JsonFence, |pre|) by {
      assert low[|pre|..|pre| + 7] == JsonFence;
    }
    NoOccurrenceWithoutBacktick(low, JsonFence, 0, |pre|);
    var k := Find(low, JsonFence, 0);
    assert k == |pre|;
    NoOccurrenceWithoutBacktick(reply, Fence, |pre| + 7, |pre| + 7 + |body|);
    if rest == [] {
      assert forall i :: |pre| + 7 + |body| <= i ==> !OccursAt(reply, Fence, i);
    }
    if StartsWith(rest, Fence) {
      assert OccursAt(reply, Fence, |pre| + 7 + |body|) by {
        assert reply[|pre| + 7 + |body|..|pre| + 7 + |body| + 3] == rest[..3];
      }
    }
  }

  /** A closed ```json block: both extractions return the block's text, stripped. */
  lemma ClosedFenceRoundTrip(pre: string, body: string, post: string)
    requires NoBacktick(pre) && NoBacktick(body)
    ensures ExtractPayloadAsWritten(pre + JsonFence + body + Fence + post) == Strip(body)
    ensures ExtractPayload(pre + JsonFence + body + Fence + post) == Strip(body)
  {
    var reply := pre + JsonFence + body + (Fence + post);
    assert reply == pre + JsonFence + body + Fence + post;
    FenceLocated(pre, body, Fence + post);
    assert Slice(reply, |pre| + 7, |pre| + 7 + |body|) == body;
  }

  /** The intended behaviour: an unclosed ```json block still yields its whole text. */
  lemma UnclosedFenceRoundTrip(pre: string, body: string)
    requires NoBacktick(pre) && NoBacktick(body)
    ensures ExtractPayload(pre + JsonFence + body) == Strip(body)
  {
    var reply := pre + JsonFence + body + [];
    assert reply == pre + JsonFence + body;
    FenceLocated(pre, body, []);
    assert Slice(reply, |pre| + 7, |reply|) == body;
  }

  /** As written, an unclosed ```json block loses the last character of the reply. */
  lemma UnclosedFenceDropsLastChar(pre: string, body: string)
    requires NoBacktick(pre) && NoBacktick(body) && body != []
    ensures ExtractPayloadAsWritten(pre + JsonFence + body) == Strip(body[..|body| - 1])
  {
    var reply := pre + JsonFence + body + [];
    assert reply == pre + JsonFence + body;
    FenceLocated(pre, body, []);
    assert Slice(reply, |pre| + 7, -1) == body[..|body| - 1];
  }

  /** The smallest reply that shows it: an unclosed fence around `{}`. */
  lemma UnclosedFenceExample(reply: string)
    requires reply == JsonFence + "{}"
    ensures ExtractPayloadAsWritten(reply) == "{"
  {
    var body := "{}";
    assert NoBacktick(body);
    assert reply == "" + JsonFence + body;
    UnclosedFenceDropsLastChar("", body);
    assert body[..|body| - 1] == "{";
    BraceStripped();
  }

  lemma BraceStripped()
    ensures Strip("{") == "{"
  {
    var s := "{";
    assert s[0] == '{' && !IsSpace(s[0]);
    StripNonSpace(s);
  }

  /** The same reply under the corrected extraction. */
  lemma UnclosedFenceExampleCorrected(reply: string)
    requires reply == JsonFence + "{}"
    ensures ExtractPayload(reply) == "{}"
  {
    var body := "{}";
    assert NoBacktick(body);
    assert reply == "" + JsonFence + body;
    UnclosedFenceRoundTrip("", body);
    BracesStripped();
  }

  /** The decision under the corrected extraction. */
  function IntendedDecisionOf(reply: string, decode: string -> Decoded): map<string, Value> {
    var d := decode(ExtractPayload(reply));
    match Rejection(d)
    case Some(e) => Fallback(e)
    case None => WithDefaults(d.value.entries)
  }

  /** For a closed block the program already decides as intended. */
  lemma ClosedFenceDecision(pre: string, body: string, post: string, decode: string -> Decoded)
    requires NoBacktick(pre) && NoBacktick(body)
    ensures DecisionOf(pre + JsonFence + body + Fence + post, decode)
            == IntendedDecisionOf(pre + JsonFence + body + Fence + post, decode)
  {
    var reply := pre + JsonFence + body + Fence + post;
    ClosedFenceRoundTrip(pre, body, post);
    SamePayloadSameDecision(reply, reply, decode);
  }

  /** The two decision functions differ only in the payload they decode. */
  lemma SamePayloadSameDecision(reply: string, intended: string, decode: string -> Decoded)
    requires ExtractPayloadAsWritten(reply) == ExtractPayload(intended)
    ensures DecisionOf(reply, decode) == IntendedDecisionOf(intended, decode)
  {
  }

  /** For an unclosed block the program decides as intended for the reply without its
      last character. */
  lemma UnclosedFenceDecision(pre: string, body: string, decode: string -> Decoded)
    requires NoBacktick(pre) && NoBacktick(body) && body != []
    ensures DecisionOf(pre + JsonFence + body, decode)
            == IntendedDecisionOf(pre + JsonFence + body[..|body| - 1], decode)
  {
    UnclosedFenceDropsLastChar(pre, body);
    var shorter := body[..|body| - 1];
    assert NoBacktick(shorter);
    UnclosedFenceRoundTrip(pre, shorter);
    SamePayloadSameDecision(pre + JsonFence + body, pre + JsonFence + shorter, decode);
  }

  lemma BracesStripped()
    ensures Strip("{}") == "{}"
  {
    var s := "{}";
    assert !IsSpace(s[0]) && !IsSpace(s[|s| - 1]);
    StripNonSpace(s);
  }

  /** What the program then decides for that reply: whatever the decoder makes of the
      truncated payload "{", so a decoder that rejects it gives the HOLD fallback. */
  lemma UnclosedFenceExampleDecision(decode: string -> Decoded)
    ensures DecisionOf(JsonFence + "{}", decode) == DecisionOf("{", decode)
    ensures decode("{").DecodeError? ==>
              DecisionOf(JsonFence + "{}", decode) == Fallback(BadJson(decode("{").message))
  {
    UnclosedFenceExample(JsonFence + "{}");
    BraceIsItsOwnPayload();
  }

  lemma BraceIsItsOwnPayload()
    ensures ExtractPayloadAsWritten("{") == "{"
  {
    var s := "{";
    assert |Lower(s)| == 1;
    assert Find(Lower(s), JsonFence, 0) == -1;
    assert Find(s, Fence, 0) == -1;
    assert s[0..1][0] == '{';
    assert Find(s, "}", 0) == -1;
  }

  lemma StripNonSpace(s: string)
    requires s != [] && !IsSpace(s[0]) && !IsSpace(s[|s| - 1])
    ensures Strip(s) == s
  {
  }

  // ------------------------------------------------------------ the decision call

  /** What `analyze_stock_and_decide` returns. */
  datatype Analysis =
    | Decided(decision: map<string, Value>, rawResponse: string)   // {'success': True, ...}
    | Failed(error: string)                                        // {'success': False, 'error': ...}

  /** `analyze_stock_and_decide`: the chat call (and reading its content field) either
      gives the reply text or raises; any exception becomes a failed result, and the
      decision is the parsed reply as it is. */
  function Analyze(transport: ChatReply, decode: string -> Decoded): (a: Analysis)
    ensures a.Failed? <==> transport.Raised?
    ensures transport.Replied? ==> a == Decided(DecisionOf(transport.content, decode), transport.content)
    ensures a.Decided? ==> DecisionKeys <= a.decision.Keys
  {
    match transport
    case Raised(e) => Failed(e)
    case Replied(content) =>
      ParseDecisionTotal(content, decode);
      Decided(DecisionOf(content, decode), content)
  }

  /** The outcome of the chat-completion call. */
  datatype ChatReply = Replied(content: string) | Raised(error: string)

  /** `_parse_decision` never raises: every reply gives all seven decision fields. */
  lemma ParseDecisionTotal(reply: string, decode: string -> Decoded)
    ensures DecisionKeys <= DecisionOf(reply, decode).Keys
  {
  }
}
