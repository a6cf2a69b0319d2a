/** The server-sent-event wire: the printers of the protocol package, the framing loop and frame
    parser of the parser package, and the frame reader of the reference client. */
module Sse {
  import opened Options
  import opened Protocol

  // ---- JSON payloads ----

  /** The JSON objects that travel as `data`, with the fields the readers check. */
  datatype Payload =
    | StatusData(state: string, provider: string)
    | FailoverData(reason: string, tokens: int, from: string, to: string, attempt: int)
    | RegeneratingData(keepPartialVisible: bool)
    | TruncatedData(why: string, delivered: int, final: bool)
    | ContentData(choices: seq<string>)
  {
    function Kind(): Kind {
      match this
      case StatusData(_, _) => KStatus
      case FailoverData(_, _, _, _, _) => KFailover
      case RegeneratingData(_) => KRegenerating
      case TruncatedData(_, _, _) => KTruncated
      case ContentData(_) => KContent
    }
  }

  datatype Kind = KStatus | KFailover | KRegenerating | KTruncated | KContent

  predicate OneLine(s: string) {
    '\n' !in s && '\r' !in s
  }

  predicate JsonText(s: string) {
    |s| >= 2 && s[0] == '{' && s[|s| - 1] == '}' && OneLine(s)
  }

  // ---- Printing ----

  function ReasonName(r: FailoverReason): (name: string)
    ensures r.DeadSocket? ==> name == "dead_socket"
    ensures r.SilentHang? ==> name == "silent_hang"
    ensures r.Malformed? ==> name == "malformed"
  {
    match r
    case DeadSocket => "dead_socket"
    case SilentHang => "silent_hang"
    case Malformed => "malformed"
  }

  function WhyName(r: TruncatedReason): (name: string)
    ensures r.AllProvidersExhausted? ==> name == "all_providers_exhausted"
    ensures r.BudgetExceeded? ==> name == "budget_exceeded"
  {
    match r
    case AllProvidersExhausted => "all_providers_exhausted"
    case BudgetExceeded => "budget_exceeded"
  }

  function PayloadOf(e: Event): Payload {
    match e
    case Status(p) => StatusData("healthy", p)
    case Content(text) => ContentData([text])
    case Failover(r, n, from, to, k) => FailoverData(ReasonName(r), n, from, to, k)
    case Regenerating => RegeneratingData(true)
    case Truncated(w, n) => TruncatedData(WhyName(w), n, true)
  }

  /** The JSON library: `encode` writes an object; `decode` reads one as one of the kinds; `delta` and
      `outputTokens` read the Anthropic payloads. */
  datatype Codec = Codec(
    encode: Payload -> string, decode: (Kind, string) -> Option<Payload>,
    delta: string -> Option<(string, string)>, outputTokens: string -> Option<int>)
  {
    /** What the gateway writes is one line in braces, and decoding undoes encoding. */
    ghost predicate Valid() {
      && (forall e: Event :: JsonText(encode(PayloadOf(e))))
      && (forall e: Event :: decode(PayloadOf(e).Kind(), encode(PayloadOf(e))) == Some(PayloadOf(e)))
    }
  }

  const STATUS: string := "gateway_status"
  const FAILOVER: string := "gateway_failover"
  const REGENERATING: string := "gateway_regenerating"
  const TRUNCATED: string := "gateway_truncated"

  function EventName(e: Event): (name: string)
    ensures e.Status? ==> name == "gateway_status"
    ensures e.Failover? ==> name == "gateway_failover"
    ensures e.Regenerating? ==> name == "gateway_regenerating"
    ensures e.Truncated? ==> name == "gateway_truncated"
    ensures e.Content? ==> name == ""
  {
    match e
    case Status(_) => STATUS
    case Content(_) => ""
    case Failover(_, _, _, _, _) => FAILOVER
    case Regenerating => REGENERATING
    case Truncated(_, _) => TRUNCATED
  }

  function WriteSSE(event: string, json: string): string {
    "event: " + event + "\n" + ("data: " + json + "\n" + "\n")
  }

  function WriteContent(json: string): string {
    "data: " + json + "\n" + "\n"
  }

  function Print(c: Codec, e: Event): string {
    var json := c.encode(PayloadOf(e));
    if e.Content? then WriteContent(json) else WriteSSE(EventName(e), json)
  }

  function PrintAll(c: Codec, es: seq<Event>): string {
    if es == [] then "" else Print(c, es[0]) + PrintAll(c, es[1..])
  }

  // ---- Framing ----

  function EndsWith(s: string, suffix: string): bool {
    |s| >= |suffix| && s[|s| - |suffix|..] == suffix
  }

  predicate Terminated(buf: string) {
    EndsWith(buf, "\n\n") || EndsWith(buf, "\r\n\r\n")
  }

  /** Length of the first frame of `s`, given that no prefix of up to `n` bytes is one. */
  function CutFrom(s: string, n: nat): (r: nat)
    requires n <= |s|
    ensures n <= r <= |s|
    decreases |s| - n
  {
    if n == |s| then n
    else if Terminated(s[..n + 1]) then n + 1
    else CutFrom(s, n + 1)
  }

  /** All frames of a byte stream, the last one possibly cut off by its end. */
  function Frames(s: string): seq<string> {
    if s == "" then []
    else
      CutPositive(s);
      [s[..CutFrom(s, 0)]] + Frames(s[CutFrom(s, 0)..])
  }

  lemma CutPositive(s: string)
    requires s != ""
    ensures CutFrom(s, 0) > 0
  {
  }

  lemma CutStep(s: string, n: nat)
    requires n <= |s|
    ensures CutFrom(s, n) == if n == |s| then n else if Terminated(s[..n + 1]) then n + 1 else CutFrom(s, n + 1)
  {
  }

  lemma FramesStep(s: string)
    ensures Frames(s) == if s == "" then [] else [s[..CutFrom(s, 0)]] + Frames(s[CutFrom(s, 0)..])
  {
  }

  /** The framing loop: reads bytes into a buffer until it ends in a blank line, or the input ends. */
  method ReadRawFrame(input: string, pos: nat) returns (raw: Option<string>, next: nat)
    requires pos <= |input|
    ensures pos <= next <= |input|
    ensures Frames(input[pos..]) == if raw.None? then [] else [raw.value] + Frames(input[next..])
    ensures raw.Some? ==> raw.value == input[pos..next] && raw.value != ""
  {
    hide CutFrom, Frames, EndsWith;
    var buf := "";
    next := pos;
    ghost var s := input[pos..];
    while next < |input|
      invariant pos <= next <= |input|
      invariant buf == s[..next - pos]
      invariant CutFrom(s, 0) == CutFrom(s, next - pos)
      decreases |input| - next
    {
      CutStep(s, next - pos);
      buf := buf + [input[next]];
      next := next + 1;
      assert buf == s[..next - pos];
      if EndsWith(buf, "\n\n") || EndsWith(buf, "\r\n\r\n") {
        assert input[next..] == s[next - pos..];
        FramesStep(s);
        return Some(buf), next;
      }
    }
    if |buf| > 0 {
      assert input[next..] == s[next - pos..] == "";
      CutStep(s, next - pos);
      FramesStep(s);
      return Some(buf), next;
    }
    assert s == "";
    FramesStep(s);
    return None, next;
  }

  // ---- Parsing one frame ----

  /** `strings.ReplaceAll(s, "\r\n", "\n")` */
  function Normalize(s: string): string {
    if s == "" then ""
    else if |s| >= 2 && s[0] == '\r' && s[1] == '\n' then "\n" + Normalize(s[2..])
    else [s[0]] + Normalize(s[1..])
  }

  /** `strings.Split(s, "\n")` */
  function Split(s: string): (r: seq<string>)
    ensures |r| > 0
  {
    if s == "" then [""]
    else
      var r := Split(s[1..]);
      if s[0] == '\n' then [""] + r else [[s[0]] + r[0]] + r[1..]
  }

  predicate IsSpace(c: char): (space: bool)
    ensures c as int < 0x80 ==> (space <==> c == ' ' || '\t' <= c <= '\r')
  {
    || c in {' ', '\t', '\n', '\r', '\U{0b}', '\U{0c}', '\U{85}', '\U{a0}', '\U{1680}'}
    || '\U{2000}' <= c <= '\U{200a}'
    || c in {'\U{2028}', '\U{2029}', '\U{202f}', '\U{205f}', '\U{3000}'}
  }

  function TrimLeft(s: string): string {
    if s != "" && IsSpace(s[0]) then TrimLeft(s[1..]) else s
  }

  function TrimRight(s: string): string {
    if s != "" && IsSpace(s[|s| - 1]) then TrimRight(s[..|s| - 1]) else s
  }

  /** `strings.TrimSpace` */
  function Trim(s: string): string {
    TrimRight(TrimLeft(s))
  }

  predicate HasPrefix(s: string, p: string) {
    |s| >= |p| && s[..|p|] == p
  }

  datatype Fields = Fields(event: string, data: seq<string>)

  /** The last `event:` line and all `data:` lines. */
  function Scan(lines: seq<string>): Fields {
    if lines == [] then Fields("", [])
    else
      var f := Scan(lines[..|lines| - 1]);
      var line := lines[|lines| - 1];
      Fields(if HasPrefix(line, "event:") then Trim(line[6..]) else f.event,
             if HasPrefix(line, "data:") then f.data + [Trim(line[5..])] else f.data)
  }

  function Join(data: seq<string>): string {
    if data == [] then ""
    else if |data| == 1 then data[0]
    else Join(data[..|data| - 1]) + "\n" + data[|data| - 1]
  }

  datatype Format = OpenAI | Anthropic

  datatype Frame = Frame(event: string, data: string, text: string, usageTokens: int, hasUsage: bool)

  /** `validateGatewayEvent` */
  predicate ValidGatewayEvent(c: Codec, event: string, data: string) {
    if event == STATUS then
      var v := c.decode(KStatus, data);
      v.Some? && v.value.StatusData? && v.value.state == "healthy" && v.value.provider != ""
    else if event == FAILOVER then
      var v := c.decode(KFailover, data);
      v.Some? && v.value.FailoverData? && v.value.reason in {"dead_socket", "silent_hang", "malformed"} && v.value.attempt >= 1
    else if event == REGENERATING then
      var v := c.decode(KRegenerating, data);
      v.Some? && v.value.RegeneratingData? && v.value.keepPartialVisible
    else if event == TRUNCATED then
      var v := c.decode(KTruncated, data);
      v.Some? && v.value.TruncatedData? && v.value.why in {"all_providers_exhausted", "budget_exceeded"} && v.value.final
    else false
  }

  function ParseAnthropic(c: Codec, frame: Frame): Option<Frame> {
    if frame.event == "content_block_delta" then
      (match c.delta(frame.data)
       case None => None
       case Some(d) => Some(if d.0 == "text_delta" then frame.(event := "", text := d.1) else frame))
    else if frame.event == "message_delta" then
      (match c.outputTokens(frame.data)
       case None => None
       case Some(n) => Some(if n > 0 then frame.(usageTokens := n, hasUsage := true) else frame))
    else if frame.event == "message_stop" then Some(frame.(event := "done"))
    else if frame.event == "error" then None
    else Some(frame)
  }

  /** What becomes of the scanned fields; `None` is the malformed error. */
  function Interpret(c: Codec, f: Fields, format: Format): Option<Frame> {
    if f.data == [] then None
    else
      var frame := Frame(f.event, Join(f.data), "", 0, false);
      if Trim(frame.data) == "[DONE]" then Some(frame.(event := "done"))
      else if format.Anthropic? then ParseAnthropic(c, frame)
      else if frame.event == "" then
        (match c.decode(KContent, frame.data)
         case Some(ContentData(choices)) => Some(frame.(text := if choices == [] then "" else choices[0]))
         case _ => None)
      else if ValidGatewayEvent(c, frame.event, frame.data) then Some(frame)
      else None
  }

  function Parse(c: Codec, raw: string, format: Format): Option<Frame> {
    Interpret(c, Scan(Split(Normalize(raw))), format)
  }

  /** The frame parser, with its loop over the lines. */
  method ParseFrameForProvider(c: Codec, raw: string, format: Format) returns (r: Option<Frame>)
    ensures r == Parse(c, raw, format)
  {
    var lines := Split(Normalize(raw));
    var event := "";
    var data: seq<string> := [];
    for i := 0 to |lines|
      invariant Fields(event, data) == Scan(lines[..i])
    {
      var line := lines[i];
      assert lines[..i + 1][..i] == lines[..i];
      if HasPrefix(line, "event:") {
        event := Trim(line[6..]);
      }
      if HasPrefix(line, "data:") {
        data := data + [Trim(line[5..])];
      }
    }
    assert lines[..|lines|] == lines;
    r := Interpret(c, Fields(event, data), format);
  }

  // ---- The reference client ----

  /** `ReadString('\n')` without the newline: the first line and what follows it. */
  function FirstLine(s: string): Option<(string, string)> {
    if s == "" then None
    else if s[0] == '\n' then Some(("", s[1..]))
    else
      match FirstLine(s[1..])
      case None => None
      case Some(lr) => Some(([s[0]] + lr.0, lr.1))
  }

  function TrimLineEnd(s: string): string {
    if s != "" && (s[|s| - 1] == '\r' || s[|s| - 1] == '\n') then TrimLineEnd(s[..|s| - 1]) else s
  }

  lemma {:induction false} FirstLineShorter(s: string)
    ensures FirstLine(s).Some? ==> |FirstLine(s).value.1| < |s|
  {
    if s != "" && s[0] != '\n' {
      FirstLineShorter(s[1..]);
    }
  }

  /** The lines up to the first empty one, and what follows it. */
  function ClientLines(s: string): Option<(seq<string>, string)>
    decreases |s|
  {
    match FirstLine(s)
    case None => None
    case Some((line, rest)) =>
      FirstLineShorter(s);
      if TrimLineEnd(line) == "" then Some(([], rest))
      else
        Prepend([TrimLineEnd(line)], ClientLines(rest))
  }

  datatype ClientFrame = ClientFrame(event: string, data: string)

  function ClientScan(lines: seq<string>): ClientFrame {
    if lines == [] then ClientFrame("", "")
    else
      var f := ClientScan(lines[..|lines| - 1]);
      var line := lines[|lines| - 1];
      ClientFrame(if HasPrefix(line, "event:") then Trim(line[6..]) else f.event,
                  if HasPrefix(line, "data:") then Trim(line[5..]) else f.data)
  }

  /** One frame as the client sees it, and the rest of the stream. */
  function ClientRead(s: string): Option<(ClientFrame, string)> {
    match ClientLines(s)
    case None => None
    case Some((lines, rest)) => Some((ClientScan(lines), rest))
  }

  function Prepend(lines: seq<string>, r: Option<(seq<string>, string)>): Option<(seq<string>, string)> {
    match r
    case None => None
    case Some((more, after)) => Some((lines + more, after))
  }

  lemma PrependLaws(lines: seq<string>, line: string, r: Option<(seq<string>, string)>)
    ensures Prepend([], r) == r
    ensures Prepend(lines, Prepend([line], r)) == Prepend(lines + [line], r)
  {
    if r.Some? {
      assert [] + r.value.0 == r.value.0;
      assert lines + ([line] + r.value.0) == lines + [line] + r.value.0;
    }
  }

  /** The client's first loop: lines up to an empty one; `None` is the end of the stream before it. */
  method ReadLines(input: string) returns (r: Option<(seq<string>, string)>)
    ensures r == ClientLines(input)
  {
    hide TrimLineEnd;
    var lines: seq<string> := [];
    var rest := input;
    PrependLaws([], "", ClientLines(rest));
    while true
      invariant ClientLines(input) == Prepend(lines, ClientLines(rest))
      decreases |rest|
    {
      FirstLineShorter(rest);
      match FirstLine(rest)
      case None =>
        return None;
      case Some((line, after)) =>
        var trimmed := TrimLineEnd(line);
        rest := after;
        if trimmed == "" {
          assert lines + [] == lines;
          return Some((lines, rest));
        }
        PrependLaws(lines, trimmed, ClientLines(rest));
        lines := lines + [trimmed];
    }
  }

  /** The client's `readFrame`, with its second loop: later fields overwrite earlier ones. */
  method ReadFrame(input: string) returns (r: Option<(ClientFrame, string)>)
    ensures r == ClientRead(input)
  {
    hide Trim;
    var read := ReadLines(input);
    if read.None? {
      return None;
    }
    var lines := read.value.0;
    var f := ClientFrame("", "");
    for i := 0 to |lines|
      invariant f == ClientScan(lines[..i])
    {
      assert lines[..i + 1][..i] == lines[..i];
      if HasPrefix(lines[i], "event:") {
        f := f.(event := Trim(lines[i][6..]));
      }
      if HasPrefix(lines[i], "data:") {
        f := f.(data := Trim(lines[i][5..]));
      }
    }
    assert lines[..|lines|] == lines;
    r := Some((f, read.value.1));
  }
}
