/** Parsing undoes printing, framing is lossless, and line endings do not matter. */
module SseProofs {
  import opened Options
  import opened Protocol
  import opened Sse

  // ---- Framing is a lossless first-match split ----

  function Concat(fs: seq<string>): string {
    if fs == [] then "" else fs[0] + Concat(fs[1..])
  }

  lemma {:induction false} FirstMatch(s: string, n: nat)
    requires n <= |s|
    ensures forall k :: n < k < CutFrom(s, n) ==> !Terminated(s[..k])
    ensures CutFrom(s, n) < |s| ==> Terminated(s[..CutFrom(s, n)]) || CutFrom(s, n) == n
    decreases |s| - n
  {
    hide Terminated;
    if n < |s| && !Terminated(s[..n + 1]) {
      FirstMatch(s, n + 1);
    }
  }

  /** Frames concatenate to the input, none is empty, no proper prefix of one ends in a terminator,
      and every frame but the last does. */
  lemma {:induction false} FramesSplitLosslessly(s: string)
    ensures Concat(Frames(s)) == s
    ensures forall i :: 0 <= i < |Frames(s)| ==>
      && Frames(s)[i] != ""
      && (forall k :: 0 < k < |Frames(s)[i]| ==> !Terminated(Frames(s)[i][..k]))
      && (i < |Frames(s)| - 1 ==> Terminated(Frames(s)[i]))
    decreases |s|
  {
    if s != "" {
      var n := CutFrom(s, 0);
      CutPositive(s);
      FirstMatch(s, 0);
      FramesSplitLosslessly(s[n..]);
      assert s == s[..n] + s[n..];
      assert forall k :: 0 < k < n ==> s[..n][..k] == s[..k];
      if n == |s| {
        assert s[n..] == "";
      }
    }
  }

  lemma {:induction false} CutIs(s: string, n: nat, m: nat)
    requires n < m <= |s| && Terminated(s[..m])
    requires forall k :: n < k < m ==> !Terminated(s[..k])
    ensures CutFrom(s, n) == m
    decreases m - n
  {
    hide Terminated;
    if n + 1 < m {
      assert !Terminated(s[..n + 1]);
      CutIs(s, n + 1, m);
    }
  }

  // ---- Line endings ----

  /** Every LF becomes CR LF. */
  function ToCrlf(s: string): string {
    if s == "" then ""
    else ToCrlf(s[..|s| - 1]) + (if s[|s| - 1] == '\n' then "\r\n" else [s[|s| - 1]])
  }

  predicate NoCr(s: string) {
    '\r' !in s
  }

  lemma {:induction false} CrlfConcat(a: string, b: string)
    ensures ToCrlf(a + b) == ToCrlf(a) + ToCrlf(b)
  {
    if b == "" {
      assert a + b == a;
    } else {
      CrlfConcat(a, b[..|b| - 1]);
      assert (a + b)[..|a + b| - 1] == a + b[..|b| - 1];
    }
  }

  lemma CrlfSnoc(p: string, c: char)
    ensures ToCrlf(p + [c]) == ToCrlf(p) + (if c == '\n' then "\r\n" else [c])
  {
    assert (p + [c])[..|p|] == p;
  }

  lemma EndsWithChars(b: string, suffix: string)
    ensures EndsWith(b, suffix) <==>
      |b| >= |suffix| && forall k :: 0 <= k < |suffix| ==> b[|b| - |suffix| + k] == suffix[k]
  {
    if |b| >= |suffix| {
      var tail := b[|b| - |suffix|..];
      assert forall k :: 0 <= k < |suffix| ==> tail[k] == b[|b| - |suffix| + k];
    }
  }

  predicate TwoNewlines(b: string) {
    |b| >= 2 && b[|b| - 1] == '\n' && b[|b| - 2] == '\n'
  }

  predicate TwoCrlfs(b: string) {
    |b| >= 4 && b[|b| - 1] == '\n' && b[|b| - 2] == '\r' && b[|b| - 3] == '\n' && b[|b| - 4] == '\r'
  }

  /** A terminator, character by character from the end. */
  lemma TerminatedChars(b: string)
    ensures Terminated(b) <==> TwoNewlines(b) || TwoCrlfs(b)
  {
    hide EndsWith;
    var two, four := "\n\n", "\r\n\r\n";
    EndsWithChars(b, two);
    EndsWithChars(b, four);
    assert two[0] == two[1] == '\n' && |two| == 2;
    assert four[0] == four[2] == '\r' && four[1] == four[3] == '\n' && |four| == 4;
  }

  /** The last characters of a converted text. */
  lemma CrlfLast(p: string)
    requires NoCr(p)
    ensures var t := ToCrlf(p); if p == "" then t == "" else
      && |t| >= |p|
      && t[|t| - 1] == p[|p| - 1]
      && (p[|p| - 1] == '\n' ==> |t| >= 2 && t[|t| - 2] == '\r' && t[..|t| - 2] == ToCrlf(p[..|p| - 1]))
      && (p[|p| - 1] != '\n' ==> t[..|t| - 1] == ToCrlf(p[..|p| - 1]))
  {
    if p != "" {
      CrlfLonger(p);
    }
  }

  lemma {:induction false} CrlfLonger(p: string)
    ensures |ToCrlf(p)| >= |p|
  {
    if p != "" {
      CrlfLonger(p[..|p| - 1]);
    }
  }

  /** The terminator is recognised in the one text exactly where it is in the other. */
  lemma CrlfTerminated(p: string)
    requires NoCr(p)
    ensures Terminated(ToCrlf(p)) <==> Terminated(p)
    ensures !Terminated(ToCrlf(p) + "\r")
  {
    hide Terminated, ToCrlf;
    var t := ToCrlf(p);
    TerminatedChars(t);
    TerminatedChars(p);
    TerminatedChars(t + "\r");
    CrlfLast(p);
    if p != "" {
      assert p[|p| - 1] in p;
      var q := p[..|p| - 1];
      CrlfLast(q);
      if p[|p| - 1] == '\n' && q != "" {
        assert t == ToCrlf(q) + "\r\n";
        assert q[|q| - 1] == p[|p| - 2];
        if |p| >= 4 { assert p[|p| - 2] in p; }
      }
    }
  }

  lemma {:induction false} CrlfCut(s: string, n: nat)
    requires NoCr(s) && n <= |s|
    ensures |ToCrlf(s[..n])| <= |ToCrlf(s)|
    ensures CutFrom(ToCrlf(s), |ToCrlf(s[..n])|) == |ToCrlf(s[..CutFrom(s, n)])|
    decreases |s| - n
  {
    hide Terminated, ToCrlf;
    CrlfPieces(s, n);
    if n == |s| {
      assert s[..n] == s;
    } else {
      var t := ToCrlf(s);
      var p, p' := s[..n], s[..n + 1];
      assert p' == p + [s[n]];
      CrlfPieces(s, n + 1);
      CrlfSnoc(p, s[n]);
      CrlfTerminated(p);
      CrlfTerminated(p');
      CrlfCut(s, n + 1);
      var u, u' := ToCrlf(p), ToCrlf(p');
      assert t[..|u'|] == u';
      if s[n] == '\n' {
        assert t[..|u| + 1] == u'[..|u| + 1] == u + "\r";
      }
    }
  }

  lemma CrlfPieces(s: string, n: nat)
    requires n <= |s|
    ensures var t, k := ToCrlf(s), |ToCrlf(s[..n])|; k <= |t| && t[..k] == ToCrlf(s[..n]) && t[k..] == ToCrlf(s[n..])
  {
    assert s == s[..n] + s[n..];
    CrlfConcat(s[..n], s[n..]);
  }

  /** Replacing every LF by CR LF in a CR-free input yields the same frames, line endings aside. */
  lemma {:induction false} CrlfFrames(s: string)
    requires NoCr(s)
    ensures |Frames(ToCrlf(s))| == |Frames(s)|
    ensures forall i :: 0 <= i < |Frames(s)| ==> NoCr(Frames(s)[i]) && Frames(ToCrlf(s))[i] == ToCrlf(Frames(s)[i])
    decreases |s|
  {
    if s != "" {
      var n := CutFrom(s, 0);
      CutPositive(s);
      CrlfCut(s, 0);
      CrlfPieces(s, n);
      CrlfFrames(s[n..]);
    }
  }

  lemma {:induction false} NormalizeConcatCrlf(p: string, rest: string)
    requires NoCr(p)
    ensures Normalize(ToCrlf(p) + rest) == p + Normalize(rest)
    decreases |p|
  {
    if p == "" {
      assert ToCrlf(p) + rest == rest && p + Normalize(rest) == Normalize(rest);
    } else {
      var q, c := p[..|p| - 1], p[|p| - 1];
      var tail := (if c == '\n' then "\r\n" else [c]) + rest;
      assert ToCrlf(p) + rest == ToCrlf(q) + tail;
      NormalizeConcatCrlf(q, tail);
      if c == '\n' {
        assert tail[2..] == rest;
        assert Normalize(tail) == "\n" + Normalize(rest);
      } else {
        assert tail[1..] == rest && tail[0] == c && c in p;
        assert Normalize(tail) == [c] + Normalize(rest);
      }
      assert p == q + [c];
    }
  }

  lemma {:induction false} NormalizePlain(s: string)
    requires NoCr(s)
    ensures Normalize(s) == s
    decreases |s|
  {
    if s != "" {
      NormalizePlain(s[1..]);
      assert s[0] in s;
    }
  }

  /** Same number of frames, and the same parse of each. */
  lemma LineEndingsDoNotMatter(c: Codec, s: string, format: Format)
    requires NoCr(s)
    ensures |Frames(ToCrlf(s))| == |Frames(s)|
    ensures forall i :: 0 <= i < |Frames(s)| ==> Parse(c, Frames(ToCrlf(s))[i], format) == Parse(c, Frames(s)[i], format)
  {
    CrlfFrames(s);
    forall i | 0 <= i < |Frames(s)|
      ensures Parse(c, Frames(ToCrlf(s))[i], format) == Parse(c, Frames(s)[i], format)
    {
      var f := Frames(s)[i];
      NormalizeConcatCrlf(f, "");
      assert ToCrlf(f) + "" == ToCrlf(f) && f + "" == f;
      NormalizePlain(f);
    }
  }

  // ---- Parsing undoes printing ----

  /** The events a stream can emit: the status names its provider and failovers count from one. */
  predicate Emittable(e: Event) {
    (e.Status? ==> e.provider != "") && (e.Failover? ==> e.attempt >= 1)
  }

  function Json(c: Codec, e: Event): string {
    c.encode(PayloadOf(e))
  }

  /** The lines of a printed event. */
  function Lines(c: Codec, e: Event): seq<string> {
    if e.Content? then ["data: " + Json(c, e)]
    else ["event: " + EventName(e), "data: " + Json(c, e)]
  }

  /** Lines, each ended by LF, and a blank line. */
  function Block(lines: seq<string>): string {
    if lines == [] then "\n" else lines[0] + ("\n" + Block(lines[1..]))
  }

  predicate Solid(line: string) {
    line != "" && OneLine(line)
  }

  lemma NameIsSolid(e: Event)
    ensures OneLine(EventName(e))
    ensures !e.Content? ==> var n := EventName(e); n != "" && !IsSpace(n[0]) && !IsSpace(n[|n| - 1])
  {
  }

  lemma PrintIsBlock(c: Codec, e: Event)
    requires c.Valid()
    ensures Print(c, e) == Block(Lines(c, e))
    ensures forall i :: 0 <= i < |Lines(c, e)| ==> Solid(Lines(c, e)[i])
  {
    var json := Json(c, e);
    assert JsonText(json);
    NameIsSolid(e);
    var last := "data: " + json;
    assert Block([]) == "\n";
    assert Block([last]) == last + ("\n" + "\n");
    assert last + "\n" + "\n" == last + ("\n" + "\n");
    if !e.Content? {
      var first := "event: " + EventName(e);
      assert [first, last][1..] == [last];
      assert Block([first, last]) == first + ("\n" + Block([last]));
      assert first + "\n" + Block([last]) == first + ("\n" + Block([last]));
    }
  }

  /** Framing a block: its end is the first blank line, whatever follows and whatever solid line
      came before. */
  lemma {:induction false} CutBlock(before: string, lines: seq<string>, rest: string)
    requires forall i :: 0 <= i < |lines| ==> Solid(lines[i])
    requires '\r' !in before && before != "" && before[|before| - 1] == '\n'
    requires forall k :: 0 < k <= |before| ==> !TwoNewlines(before[..k])
    ensures CutFrom(before + Block(lines) + rest, |before|) == |before + Block(lines)|
    decreases |lines|
  {
    hide Terminated;
    var s := before + Block(lines) + rest;
    if lines == [] {
      assert s[..|before| + 1] == before + "\n";
      TerminatedChars(before + "\n");
      CutIs(s, |before|, |before| + 1);
    } else {
      var line := lines[0];
      var next := before + line + "\n";
      assert s == next + Block(lines[1..]) + rest;
      assert before + Block(lines) == next + Block(lines[1..]);
      forall k | 0 < k <= |next|
        ensures !TwoNewlines(next[..k])
      {
        if k <= |before| {
          assert next[..k] == before[..k];
        } else if k < |next| {
          assert next[k - 1] == line[k - 1 - |before|];
          assert line[k - 1 - |before|] in line;
        } else {
          assert next[k - 2] == line[|line| - 1] && line[|line| - 1] in line;
        }
      }
      CutBlock(next, lines[1..], rest);
      SkipTo(s, |before|, |next|, next);
    }
  }

  /** No terminator before `m`: the cut may as well be looked for from there. */
  lemma {:induction false} SkipTo(s: string, n: nat, m: nat, p: string)
    requires n <= m == |p| <= |s| && s[..m] == p && '\r' !in p
    requires forall k :: 0 < k <= m ==> !TwoNewlines(p[..k])
    ensures CutFrom(s, n) == CutFrom(s, m)
    decreases m - n
  {
    if n < m {
      assert s[..n + 1] == p[..n + 1];
      TerminatedChars(p[..n + 1]);
      if n >= 1 { assert p[n - 1] in p; }
      SkipTo(s, n + 1, m, p);
    }
  }

  lemma CutFirst(lines: seq<string>, rest: string)
    requires lines != [] && forall i :: 0 <= i < |lines| ==> Solid(lines[i])
    ensures CutFrom(Block(lines) + rest, 0) == |Block(lines)|
  {
    hide Terminated;
    var line := lines[0];
    var next := line + "\n";
    var s := Block(lines) + rest;
    assert s == next + Block(lines[1..]) + rest && Block(lines) == next + Block(lines[1..]);
    forall k | 0 < k <= |next|
      ensures !TwoNewlines(next[..k])
    {
      if 2 <= k {
        assert next[k - 2] == line[k - 2] && line[k - 2] in line;
      }
    }
    CutBlock(next, lines[1..], rest);
    SkipTo(s, 0, |next|, next);
  }

  lemma {:induction false} SplitLine(line: string, rest: string)
    requires '\n' !in line
    ensures Split(line + ("\n" + rest)) == [line] + Split(rest)
    decreases |line|
  {
    var s := line + ("\n" + rest);
    if line == "" {
      assert s[1..] == rest;
    } else {
      assert line[0] in line;
      SplitLine(line[1..], rest);
      assert s[1..] == line[1..] + ("\n" + rest);
      assert [line[0]] + line[1..] == line;
    }
  }

  lemma {:induction false} SplitBlock(lines: seq<string>)
    requires forall i :: 0 <= i < |lines| ==> Solid(lines[i])
    ensures Split(Block(lines)) == lines + ["", ""]
    ensures NoCr(Block(lines))
    decreases |lines|
  {
    if lines == [] {
      var s := "\n";
      assert s[1..] == "";
      assert Split("") == [""];
      assert Block(lines) == s && Split(s) == [""] + Split(s[1..]);
      assert [""] + [""] == lines + ["", ""];
    } else {
      SplitLine(lines[0], Block(lines[1..]));
      SplitBlock(lines[1..]);
      assert [lines[0]] + (lines[1..] + ["", ""]) == lines + ["", ""];
    }
  }

  lemma TrimSpaced(x: string)
    requires x != "" && !IsSpace(x[0]) && !IsSpace(x[|x| - 1])
    ensures Trim(" " + x) == x && Trim(x) == x
  {
    var s := " " + x;
    assert s[1..] == x;
    assert TrimLeft(s) == TrimLeft(x) == x;
  }

  lemma FieldLine(name: string, x: string)
    requires (name == "event:" || name == "data:") && x != "" && !IsSpace(x[0]) && !IsSpace(x[|x| - 1])
    ensures var line := name + " " + x;
      && HasPrefix(line, name) && Trim(line[|name|..]) == x
      && !HasPrefix(line, if name == "event:" then "data:" else "event:")
  {
    var line := name + " " + x;
    assert line[..|name|] == name && line[|name|..] == " " + x;
    TrimSpaced(x);
    var other := if name == "event:" then "data:" else "event:";
    assert line[0] == name[0] != other[0];
    assert |line| >= |other| ==> line[..|other|][0] == line[0];
  }

  lemma ScanSnoc(lines: seq<string>, line: string)
    ensures Scan(lines + [line]) ==
      Fields(if HasPrefix(line, "event:") then Trim(line[6..]) else Scan(lines).event,
             if HasPrefix(line, "data:") then Scan(lines).data + [Trim(line[5..])] else Scan(lines).data)
    ensures ClientScan(lines + [line]) ==
      ClientFrame(if HasPrefix(line, "event:") then Trim(line[6..]) else ClientScan(lines).event,
                  if HasPrefix(line, "data:") then Trim(line[5..]) else ClientScan(lines).data)
  {
    assert (lines + [line])[..|lines|] == lines;
  }

  predicate Bare(x: string) {
    x != "" && !IsSpace(x[0]) && !IsSpace(x[|x| - 1])
  }

  /** A data line, after anything. */
  lemma ScanData(before: seq<string>, json: string)
    requires Bare(json)
    ensures var line := "data: " + json;
      && Scan(before + [line]) == Fields(Scan(before).event, Scan(before).data + [json])
      && ClientScan(before + [line]) == ClientFrame(ClientScan(before).event, json)
  {
    hide Trim, HasPrefix, IsSpace, Scan, ClientScan;
    var line := "data: " + json;
    assert line == "data:" + " " + json;
    FieldLine("data:", json);
    ScanSnoc(before, line);
  }

  lemma ScanEvent(name: string)
    requires Bare(name)
    ensures Scan(["event: " + name]) == Fields(name, []) && ClientScan(["event: " + name]) == ClientFrame(name, "")
  {
    hide Trim, HasPrefix, IsSpace;
    var line := "event: " + name;
    assert line == "event:" + " " + name;
    FieldLine("event:", name);
    ScanSnoc([], line);
    assert [] + [line] == [line];
  }

  lemma ScanBlank(lines: seq<string>)
    ensures Scan(lines + ["", ""]) == Scan(lines)
  {
    hide Trim, HasPrefix;
    EmptyLine();
    ScanSnoc(lines, "");
    ScanSnoc(lines + [""], "");
    assert lines + ["", ""] == lines + [""] + [""];
  }

  /** Both scanners recover the event name and the data. */
  lemma ScanPrinted(c: Codec, e: Event)
    requires c.Valid()
    ensures Scan(Lines(c, e) + ["", ""]) == Fields(EventName(e), [Json(c, e)])
    ensures ClientScan(Lines(c, e)) == ClientFrame(EventName(e), Json(c, e))
  {
    var json := Json(c, e);
    assert JsonText(json);
    BracesAreNotSpace();
    NameIsSolid(e);
    ScanBlank(Lines(c, e));
    hide IsSpace, JsonText, Trim, HasPrefix;
    if e.Content? {
      ScanData([], json);
      assert [] + ["data: " + json] == Lines(c, e) && [] + [json] == [json];
    } else {
      ScanEvent(EventName(e));
      var event := "event: " + EventName(e);
      ScanData([event], json);
      assert [event] + ["data: " + json] == Lines(c, e) && [] + [json] == [json];
    }
  }

  lemma BracesAreNotSpace()
    ensures !IsSpace('{') && !IsSpace('}')
  {
  }

  lemma EmptyLine()
    ensures !HasPrefix("", "event:") && !HasPrefix("", "data:")
  {
  }

  // ---- The round trip ----

  function ReasonOf(name: string): FailoverReason {
    if name == "dead_socket" then DeadSocket else if name == "silent_hang" then SilentHang else Malformed
  }

  function WhyOf(name: string): TruncatedReason {
    if name == "budget_exceeded" then BudgetExceeded else AllProvidersExhausted
  }

  /** The event a parsed frame stands for. */
  function Decoded(c: Codec, f: Frame): Option<Event> {
    if f.event == "" then Some(Content(f.text))
    else
      var kind := if f.event == STATUS then KStatus else if f.event == FAILOVER then KFailover
                  else if f.event == REGENERATING then KRegenerating else KTruncated;
      match c.decode(kind, f.data)
      case Some(StatusData(_, p)) => Some(Status(p))
      case Some(FailoverData(r, n, from, to, k)) => Some(Failover(ReasonOf(r), n, from, to, k))
      case Some(RegeneratingData(_)) => Some(Regenerating)
      case Some(TruncatedData(w, n, _)) => Some(Truncated(WhyOf(w), n))
      case _ => None
  }

  lemma NamesDiffer()
    ensures STATUS != FAILOVER && STATUS != REGENERATING && STATUS != TRUNCATED
    ensures FAILOVER != REGENERATING && FAILOVER != TRUNCATED && REGENERATING != TRUNCATED
    ensures STATUS != "" && FAILOVER != "" && REGENERATING != "" && TRUNCATED != ""
  {
    assert |STATUS| == 14 && |FAILOVER| == 16 && |REGENERATING| == 20 && |TRUNCATED| == 17;
  }

  lemma ReasonsRoundTrip(r: FailoverReason, w: TruncatedReason)
    ensures ReasonOf(ReasonName(r)) == r && WhyOf(WhyName(w)) == w
  {
    assert "dead_socket"[0] == 'd' && "silent_hang"[0] == 's' && "malformed"[0] == 'm';
    assert "budget_exceeded"[0] == 'b' && "all_providers_exhausted"[0] == 'a';
  }

  lemma NotDone(json: string)
    requires JsonText(json)
    ensures Trim(json) != "[DONE]" && Bare(json)
  {
    BracesAreNotSpace();
    TrimSpaced(json);
    assert "[DONE]"[0] == '[';
  }

  /** The fields of a printed event are valid for the parser and stand for the event. */
  lemma InterpretPrinted(c: Codec, e: Event)
    requires c.Valid() && Emittable(e)
    ensures var r := Interpret(c, Fields(EventName(e), [Json(c, e)]), OpenAI);
      && r.Some? && Decoded(c, r.value) == Some(e)
      && r.value.event == EventName(e) && r.value.data == Json(c, e)
      && (!e.Content? ==> ValidGatewayEvent(c, EventName(e), Json(c, e)))
  {
    var json := Json(c, e);
    assert JsonText(json);
    NotDone(json);
    NamesDiffer();
    hide Trim, JsonText, IsSpace;
    var p := PayloadOf(e);
    assert c.decode(p.Kind(), json) == Some(p);
    match e
    case Failover(r, _, _, _, _) => ReasonsRoundTrip(r, BudgetExceeded);
    case Truncated(w, _) => ReasonsRoundTrip(DeadSocket, w);
    case _ =>
  }

  /** One printed event followed by anything: the framing loop finds exactly it, and parsing it gives
      the event back. */
  lemma PrintedFrame(c: Codec, e: Event, rest: string)
    requires c.Valid() && Emittable(e)
    ensures Frames(Print(c, e) + rest) == [Print(c, e)] + Frames(rest)
    ensures var r := Parse(c, Print(c, e), OpenAI);
      && r.Some? && Decoded(c, r.value) == Some(e)
      && r.value.event == EventName(e) && r.value.data == Json(c, e)
      && (!e.Content? ==> ValidGatewayEvent(c, r.value.event, r.value.data))
  {
    hide Interpret, Decoded, ValidGatewayEvent, Emittable, Print, Lines, EventName, Json, Scan, ClientScan;
    PrintIsBlock(c, e);
    var lines := Lines(c, e);
    NotEmpty(c, e);
    CutFirst(lines, rest);
    var s := Print(c, e) + rest;
    assert s[..|Print(c, e)|] == Print(c, e) && s[|Print(c, e)|..] == rest;
    SplitBlock(lines);
    NormalizePlain(Print(c, e));
    ScanPrinted(c, e);
    InterpretPrinted(c, e);
  }

  lemma NotEmpty(c: Codec, e: Event)
    ensures Lines(c, e) != [] && Print(c, e) != ""
  {
  }

  /** Framing and parsing a printed stream returns the stream. */
  lemma {:induction false} ParseUndoesPrint(c: Codec, es: seq<Event>)
    requires c.Valid() && forall i :: 0 <= i < |es| ==> Emittable(es[i])
    ensures var fs := Frames(PrintAll(c, es));
      && |fs| == |es|
      && forall i :: 0 <= i < |es| ==>
        var r := Parse(c, fs[i], OpenAI);
        && r.Some? && Decoded(c, r.value) == Some(es[i])
        && (!es[i].Content? ==> ValidGatewayEvent(c, r.value.event, r.value.data))
  {
    hide Parse, Decoded, ValidGatewayEvent, Frames, Print;
    if es != [] {
      PrintedFrame(c, es[0], PrintAll(c, es[1..]));
      ParseUndoesPrint(c, es[1..]);
    } else {
      NoFrames();
    }
  }

  lemma NoFrames()
    ensures Frames("") == []
  {
  }

  // ---- The client reads the same ----

  lemma {:induction false} FirstLineOf(line: string, rest: string)
    requires '\n' !in line
    ensures FirstLine(line + ("\n" + rest)) == Some((line, rest))
    decreases |line|
  {
    var s := line + ("\n" + rest);
    if line == "" {
      assert s[1..] == rest;
    } else {
      assert line[0] in line;
      FirstLineOf(line[1..], rest);
      assert s[1..] == line[1..] + ("\n" + rest);
      assert [line[0]] + line[1..] == line;
    }
  }

  lemma {:induction false} ClientLinesOf(lines: seq<string>, rest: string)
    requires forall i :: 0 <= i < |lines| ==> Solid(lines[i])
    ensures ClientLines(Block(lines) + rest) == Some((lines, rest))
    decreases |lines|
  {
    if lines == [] {
      FirstLineOf("", rest);
      assert Block(lines) + rest == "" + ("\n" + rest);
    } else {
      var line := lines[0];
      assert Block(lines) + rest == line + ("\n" + (Block(lines[1..]) + rest));
      FirstLineOf(line, Block(lines[1..]) + rest);
      ClientLinesOf(lines[1..], rest);
      assert line[|line| - 1] in line;
      assert TrimLineEnd(line) == line;
      assert [line] + lines[1..] == lines;
    }
  }

  /** The reference client reads, from any printed stream, the same event name and data as the
      parser, one frame per event. */
  lemma ClientAgrees(c: Codec, e: Event, rest: string)
    requires c.Valid() && Emittable(e)
    ensures var r := Parse(c, Print(c, e), OpenAI);
      r.Some? && ClientRead(Print(c, e) + rest) == Some((ClientFrame(r.value.event, r.value.data), rest))
  {
    hide Parse, Lines, Print, Scan, ClientScan, Decoded, ValidGatewayEvent;
    PrintedFrame(c, e, rest);
    PrintIsBlock(c, e);
    ScanPrinted(c, e);
    ClientLinesOf(Lines(c, e), rest);
  }

  lemma {:induction false} ClientLinesShorter(s: string)
    ensures ClientLines(s).Some? ==> |ClientLines(s).value.1| < |s|
    decreases |s|
  {
    FirstLineShorter(s);
    match FirstLine(s)
    case None =>
    case Some((line, rest)) => ClientLinesShorter(rest);
  }

  /** All the frames the client reads before the stream ends. */
  function ClientFrames(s: string): seq<ClientFrame>
    decreases |s|
  {
    ClientLinesShorter(s);
    match ClientRead(s)
    case None => []
    case Some((f, rest)) => [f] + ClientFrames(rest)
  }

  /** Over a whole printed stream the client reads as many frames as the parser, each with the parser's
      event name and data. */
  lemma {:induction false} ClientReadsPrinted(c: Codec, es: seq<Event>)
    requires c.Valid() && forall i :: 0 <= i < |es| ==> Emittable(es[i])
    ensures var s := PrintAll(c, es); var fs, cs := Frames(s), ClientFrames(s);
      && |fs| == |cs| == |es|
      && forall i :: 0 <= i < |es| ==>
        var r := Parse(c, fs[i], OpenAI); r.Some? && cs[i] == ClientFrame(r.value.event, r.value.data)
  {
    hide Parse, Frames, Print, ClientRead;
    if es == [] {
      NoFrames();
      NoClientFrames();
    } else {
      var rest := PrintAll(c, es[1..]);
      PrintedFrame(c, es[0], rest);
      ClientAgrees(c, es[0], rest);
      ClientReadsPrinted(c, es[1..]);
    }
  }

  lemma NoClientFrames()
    ensures ClientFrames("") == []
  {
  }

  // ---- Provider streams ----

  /** A frame that carries usage reports a positive count, and is not itself text or the end. */
  lemma UsageIsPositive(c: Codec, raw: string, format: Format)
    ensures var r := Parse(c, raw, format);
      r.Some? && r.value.hasUsage ==>
        format.Anthropic? && r.value.usageTokens > 0 && r.value.event == "message_delta" && r.value.text == ""
  {
  }
}
