/** What a provider sends, down to its bytes: each event it can say is written with its own names, and
    framing and parsing the bytes gives the attempt exactly what was said. */
module Feed {
  import opened Options
  import opened Protocol
  import opened Sse
  import opened SseProofs
  import opened Texts
  import Gateway

  /** What an event of a provider says. */
  datatype Message =
    | Done                            // [DONE], in either format and under any name
    | TextDelta(text: string)         // from here to `Note`: Anthropic
    | OtherDelta(kind: string)
    | UsageReport(tokens: int)
    | Stop
    | Error
    | Note(name: string)
    | Chunk(choices: seq<string>)     // OpenAI, its texts
    | Notice(event: Event)            // the gateway's own events, of an upstream gateway
    | Garbled

  ghost predicate IsDone(data: string) {
    exists a, b :: Blank(a) && Blank(b) && data == a + "[DONE]" + b
  }

  /** `e` under its own name and with its own fields. */
  predicate Carries(c: Codec, name: string, data: string, e: Event) {
    match e
    case Status(p) => name == "gateway_status" && p != "" && c.decode(KStatus, data) == Some(StatusData("healthy", p))
    case Failover(r, n, from, to, k) =>
      name == "gateway_failover" && k >= 1 && c.decode(KFailover, data) == Some(FailoverData(ReasonName(r), n, from, to, k))
    case Regenerating => name == "gateway_regenerating" && c.decode(KRegenerating, data) == Some(RegeneratingData(true))
    case Truncated(w, n) => name == "gateway_truncated" && c.decode(KTruncated, data) == Some(TruncatedData(WhyName(w), n, true))
    case Content(_) => false
  }

  /** An event of this name and data says `m`; of the data only what the codec reads from it counts. */
  ghost predicate Says(c: Codec, format: Format, name: string, data: seq<string>, m: Message) {
    var json := Join(data);
    if data == [] then m.Garbled?
    else if IsDone(json) then m.Done?
    else if format.Anthropic? then
      match m
      case TextDelta(text) => name == "content_block_delta" && c.delta(json) == Some(("text_delta", text))
      case OtherDelta(kind) =>
        name == "content_block_delta" && kind != "text_delta" && c.delta(json).Some? && c.delta(json).value.0 == kind
      case UsageReport(n) => name == "message_delta" && c.outputTokens(json) == Some(n)
      case Stop => name == "message_stop"
      case Error => name == "error"
      case Note(n) => name == n && n !in {"content_block_delta", "message_delta", "message_stop", "error"}
      case Garbled =>
        (name == "content_block_delta" && c.delta(json).None?) || (name == "message_delta" && c.outputTokens(json).None?)
      case _ => false
    else
      match m
      case Chunk(choices) => name == "" && c.decode(KContent, json) == Some(ContentData(choices))
      case Notice(e) => Carries(c, name, json, e)
      case Garbled =>
        if name == "" then forall choices :: c.decode(KContent, json) != Some(ContentData(choices))
        else forall e :: !Carries(c, name, json, e)
      case _ => false
  }

  /** What the attempt must make of it. */
  function Expected(m: Message, count: string -> nat): Gateway.Input {
    match m
    case Done => Gateway.ReceiveDone
    case TextDelta(text) => Gateway.Receive(Gateway.Text(text, count(text)))
    case OtherDelta(_) => Gateway.Receive(Gateway.Control)
    case UsageReport(n) => if n > 0 then Gateway.Receive(Gateway.Usage(n)) else Gateway.Receive(Gateway.Control)
    case Stop => Gateway.ReceiveDone
    case Error => Gateway.ReceiveError(Gateway.Failed(Malformed))
    case Note(name) =>
      if name == "" then Gateway.Receive(Gateway.Text("", count("")))
      else if name == "done" then Gateway.ReceiveDone
      else Gateway.Receive(Gateway.Control)
    case Chunk(choices) =>
      var text := if choices == [] then "" else choices[0];
      Gateway.Receive(Gateway.Text(text, count(text)))
    case Notice(_) => Gateway.Receive(Gateway.Control)
    case Garbled => Gateway.ReceiveError(Gateway.Failed(Malformed))
  }

  predicate Positive(r: Option<Frame>) {
    r.Some? && r.value.hasUsage ==> r.value.usageTokens > 0
  }

  /** The branches of the attempt on the parser's answer, in their order; `count` is the tokenizer. */
  function AsInput(r: Option<Frame>, count: string -> nat): Gateway.Input
    requires Positive(r)
  {
    match r
    case None => Gateway.ReceiveError(Gateway.Failed(Malformed))
    case Some(f) =>
      if f.event == "done" then Gateway.ReceiveDone
      else if f.hasUsage then Gateway.Receive(Gateway.Usage(f.usageTokens))
      else if f.event != "" then Gateway.Receive(Gateway.Control)
      else Gateway.Receive(Gateway.Text(f.text, count(f.text)))
  }

  lemma ParsedIsPositive(c: Codec, raw: string, format: Format)
    ensures Positive(Parse(c, raw, format))
  {
    UsageIsPositive(c, raw, format);
  }

  // ---- One event ----

  lemma DoneExactly(data: string)
    ensures IsDone(data) <==> Trim(data) == "[DONE]"
  {
    var done := "[DONE]";
    assert Bare(done) by { assert done[0] == '[' && done[5] == ']' && |done| == 6; }
    hide IsSpace, Trim, Bare;
    if IsDone(data) {
      var a, b :| Blank(a) && Blank(b) && data == a + "[DONE]" + b;
      TrimExactly(a, done, b);
    }
    var a, b := TrimSplits(data);
  }

  /** The validator accepts exactly the gateway's own events, with the names and fields they have. */
  lemma ValidExactly(c: Codec, name: string, data: string)
    ensures ValidGatewayEvent(c, name, data) <==> exists e :: Carries(c, name, data, e)
  {
    NamesDiffer();
    if ValidGatewayEvent(c, name, data) {
      var e :=
        if name == STATUS then Status(c.decode(KStatus, data).value.provider)
        else if name == FAILOVER then
          (var v := c.decode(KFailover, data).value; Failover(ReasonOf(v.reason), v.tokens, v.from, v.to, v.attempt))
        else if name == REGENERATING then Regenerating
        else (var v := c.decode(KTruncated, data).value; Truncated(WhyOf(v.why), v.delivered));
      assert Carries(c, name, data, e);
    }
  }

  /** A gateway event can say one thing only, and stands for it. */
  lemma CarriedIsDecoded(c: Codec, name: string, data: string, e: Event)
    requires Carries(c, name, data, e)
    ensures name != "" && name != "done"
    ensures forall f: Frame :: f.event == name && f.data == data ==> Decoded(c, f) == Some(e)
  {
    NamesDiffer();
    match e
    case Failover(r, _, _, _, _) => ReasonsRoundTrip(r, BudgetExceeded);
    case Truncated(w, _) => ReasonsRoundTrip(DeadSocket, w);
    case _ =>
  }

  lemma AnthropicNames()
    ensures "content_block_delta" != "" && "content_block_delta" != "message_delta" && "content_block_delta" != "message_stop"
    ensures "content_block_delta" != "error" && "content_block_delta" != "done"
    ensures "message_delta" != "" && "message_delta" != "message_stop" && "message_delta" != "error" && "message_delta" != "done"
    ensures "message_stop" != "error"
  {
    assert |"content_block_delta"| == 19 && |"message_delta"| == 13 && |"message_stop"| == 12 && |"error"| == 5 && |"done"| == 4;
  }

  /** The parser and the attempt make of the scanned fields what they say. */
  lemma Understood(c: Codec, format: Format, name: string, data: seq<string>, m: Message, count: string -> nat)
    requires Says(c, format, name, data, m)
    ensures var r := Interpret(c, Fields(name, data), format);
      && Positive(r) && AsInput(r, count) == Expected(m, count)
      && (r.Some? ==> r.value.data == Join(data))
      && (m.Notice? ==> r.Some? && Decoded(c, r.value) == Some(m.event))
  {
    var json := Join(data);
    DoneExactly(json);
    AnthropicNames();
    hide Join, Trim, IsDone, Decoded, ValidGatewayEvent, Carries;
    if format.OpenAI? {
      ValidExactly(c, name, json);
      if m.Notice? {
        CarriedIsDecoded(c, name, json, m.event);
      }
    }
  }

  /** Every event says something. */
  lemma SaysSomething(c: Codec, format: Format, name: string, data: seq<string>) returns (m: Message)
    ensures Says(c, format, name, data, m)
  {
    var json := Join(data);
    hide Join, IsDone, Carries;
    if data == [] {
      m := Garbled;
    } else if IsDone(json) {
      m := Done;
    } else if format.Anthropic? {
      if name == "content_block_delta" {
        match c.delta(json)
        case None => m := Garbled;
        case Some(d) => m := if d.0 == "text_delta" then TextDelta(d.1) else OtherDelta(d.0);
      } else if name == "message_delta" {
        match c.outputTokens(json)
        case None => m := Garbled;
        case Some(n) => m := UsageReport(n);
      } else {
        m := if name == "message_stop" then Stop else if name == "error" then Error else Note(name);
      }
    } else if name == "" {
      match c.decode(KContent, json)
      case Some(ContentData(choices)) => m := Chunk(choices);
      case _ => m := Garbled;
    } else if e: Event :| Carries(c, name, json, e) {
      m := Notice(e);
    } else {
      m := Garbled;
    }
  }

  // ---- A whole stream ----

  /** An event as sent: its lines, and what they say. */
  datatype Sent = Sent(lines: seq<Line>, message: Message)
  {
    ghost predicate Ok(c: Codec, format: Format) {
      lines != [] && Fine(lines) && Says(c, format, NameOf(lines), DataOf(lines), message)
    }

    function Bytes(): string {
      Block(LinesOf(lines))
    }
  }

  function AllBytes(es: seq<Sent>): string {
    if es == [] then "" else es[0].Bytes() + AllBytes(es[1..])
  }

  /** One event before anything: it is framed as itself, and read as what it says; the client reads
      its name and its last data. */
  lemma EventReadBack(c: Codec, format: Format, e: Sent, rest: string, count: string -> nat)
    requires e.Ok(c, format)
    ensures e.Bytes() != "" && NoCr(e.Bytes()) && Frames(e.Bytes() + rest) == [e.Bytes()] + Frames(rest)
    ensures var r := Parse(c, e.Bytes(), format);
      && Positive(r) && AsInput(r, count) == Expected(e.message, count)
      && (e.message.Notice? ==> r.Some? && Decoded(c, r.value) == Some(e.message.event))
    ensures ClientRead(e.Bytes() + rest) == Some((ClientFrame(NameOf(e.lines), LastOf(DataOf(e.lines))), rest))
  {
    hide Interpret, Decoded, Says, Expected, AsInput, Positive, Scan, ClientScan, NameOf, DataOf;
    var lines := LinesOf(e.lines);
    ScanReads(e.lines);
    ScanBlank(lines);
    SplitBlock(lines);
    NormalizePlain(e.Bytes());
    Understood(c, format, NameOf(e.lines), DataOf(e.lines), e.message, count);
    CutFirst(lines, rest);
    ClientLinesOf(lines, rest);
    var s := e.Bytes() + rest;
    BlockNotEmpty(lines);
    assert s[..|e.Bytes()|] == e.Bytes() && s[|e.Bytes()|..] == rest;
  }

  lemma BlockNotEmpty(lines: seq<string>)
    ensures Block(lines) != ""
  {
  }

  lemma {:induction false} FramesOfEvents(c: Codec, format: Format, es: seq<Sent>, count: string -> nat)
    requires forall i :: 0 <= i < |es| ==> es[i].Ok(c, format)
    ensures NoCr(AllBytes(es)) && |Frames(AllBytes(es))| == |es|
    ensures forall i :: 0 <= i < |es| ==> Frames(AllBytes(es))[i] == es[i].Bytes()
  {
    hide Frames, Parse, Sent.Ok, Sent.Bytes;
    if es == [] {
      NoFrames();
    } else {
      EventReadBack(c, format, es[0], AllBytes(es[1..]), count);
      FramesOfEvents(c, format, es[1..], count);
    }
  }

  /** What an attempt receives from the bytes of a provider. */
  function Heard(c: Codec, format: Format, s: string, count: string -> nat): (r: seq<Gateway.Input>)
    ensures |r| == |Frames(s)|
  {
    seq(|Frames(s)|, i requires 0 <= i < |Frames(s)| =>
      ParsedIsPositive(c, Frames(s)[i], format);
      AsInput(Parse(c, Frames(s)[i], format), count))
  }

  /** A provider that sends events is heard to say what they say, one after the other, with either
      line ending; and each is an input the step system allows. */
  lemma FeedReadBack(c: Codec, format: Format, es: seq<Sent>, count: string -> nat, crlf: bool)
    requires forall i :: 0 <= i < |es| ==> es[i].Ok(c, format)
    ensures var s := if crlf then ToCrlf(AllBytes(es)) else AllBytes(es);
      && |Heard(c, format, s, count)| == |es|
      && forall i :: 0 <= i < |es| ==>
           Heard(c, format, s, count)[i] == Expected(es[i].message, count) && Gateway.InputOk(Expected(es[i].message, count))
  {
    hide Frames, Parse, Sent.Ok, Sent.Bytes, Expected, AsInput, AllBytes;
    var plain := AllBytes(es);
    var s := if crlf then ToCrlf(plain) else plain;
    FramesOfEvents(c, format, es, count);
    LineEndingsDoNotMatter(c, plain, format);
    forall i | 0 <= i < |es|
      ensures Heard(c, format, s, count)[i] == Expected(es[i].message, count) && Gateway.InputOk(Expected(es[i].message, count))
    {
      EventReadBack(c, format, es[i], "", count);
      assert Parse(c, Frames(s)[i], format) == Parse(c, es[i].Bytes(), format);
      ExpectedOk(es[i].message, count);
    }
  }

  lemma ExpectedOk(m: Message, count: string -> nat)
    ensures Gateway.InputOk(Expected(m, count))
  {
  }
}
