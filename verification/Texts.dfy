/** What the string functions of the parser and the client mean: each law determines its function. */
module Texts {
  import opened Options
  import opened Sse
  import opened SseProofs

  // ---- Trimming ----

  /** White space only. */
  predicate Blank(s: string) {
    forall i :: 0 <= i < |s| ==> IsSpace(s[i])
  }

  /** Empty, or without white space at either end. */
  predicate Trimmed(s: string) {
    s == "" || Bare(s)
  }

  lemma {:induction false} TrimLeftAll(a: string, s: string)
    requires Blank(a)
    ensures TrimLeft(a + s) == TrimLeft(s)
    decreases |a|
  {
    hide IsSpace;
    if a == "" {
      assert a + s == s;
    } else {
      assert (a + s)[1..] == a[1..] + s;
      TrimLeftAll(a[1..], s);
    }
  }

  lemma {:induction false} TrimRightAll(s: string, b: string)
    requires Blank(b)
    ensures TrimRight(s + b) == TrimRight(s)
    decreases |b|
  {
    hide IsSpace;
    if b == "" {
      assert s + b == s;
    } else {
      var n := |b| - 1;
      assert (s + b)[..|s + b| - 1] == s + b[..n];
      TrimRightAll(s, b[..n]);
    }
  }

  /** Trimming takes the white space off both ends, and nothing else. */
  lemma TrimExactly(a: string, x: string, b: string)
    requires Blank(a) && Trimmed(x) && Blank(b)
    ensures Trim(a + x + b) == x
  {
    hide IsSpace;
    if x == "" {
      assert a + x + b == (a + b) + "";
      TrimLeftAll(a + b, "");
    } else {
      assert a + x + b == a + (x + b);
      TrimLeftAll(a, x + b);
      TrimRightAll(x, b);
    }
  }

  lemma {:induction false} LeftPart(s: string) returns (a: string)
    ensures s == a + TrimLeft(s) && Blank(a)
    ensures TrimLeft(s) != "" ==> !IsSpace(TrimLeft(s)[0])
    decreases |s|
  {
    hide IsSpace;
    a := "";
    if s != "" && IsSpace(s[0]) {
      var rest := LeftPart(s[1..]);
      a := [s[0]] + rest;
      assert s == [s[0]] + s[1..];
    }
  }

  lemma {:induction false} RightPart(s: string) returns (b: string)
    ensures s == TrimRight(s) + b && Blank(b)
    ensures TrimRight(s) != "" ==> !IsSpace(TrimRight(s)[|TrimRight(s)| - 1])
    decreases |s|
  {
    hide IsSpace;
    b := "";
    if s != "" && IsSpace(s[|s| - 1]) {
      var rest := RightPart(s[..|s| - 1]);
      b := rest + [s[|s| - 1]];
      assert s == s[..|s| - 1] + [s[|s| - 1]];
    }
  }

  /** Every text is its trimmed form between white space. */
  lemma TrimSplits(s: string) returns (a: string, b: string)
    ensures s == a + Trim(s) + b && Blank(a) && Blank(b) && Trimmed(Trim(s))
  {
    hide IsSpace;
    a := LeftPart(s);
    b := RightPart(TrimLeft(s));
    assert s == a + (Trim(s) + b);
  }

  // ---- Lines ----

  /** `"\r\n"` occurs nowhere. */
  predicate NoCrlf(s: string) {
    forall i :: 0 <= i < |s| - 1 ==> !(s[i] == '\r' && s[i + 1] == '\n')
  }

  lemma {:induction false} NormalizeKeeps(s: string)
    requires NoCrlf(s)
    ensures Normalize(s) == s
    decreases |s|
  {
    if s != "" {
      forall i | 0 <= i < |s[1..]| - 1
        ensures !(s[1..][i] == '\r' && s[1..][i + 1] == '\n')
      {
        assert s[1..][i] == s[i + 1] && s[1..][i + 1] == s[i + 2];
      }
      NormalizeKeeps(s[1..]);
      assert [s[0]] + s[1..] == s;
    }
  }

  lemma {:induction false} NormalizeReplaces(a: string, b: string)
    ensures Normalize(a + "\r\n" + b) == Normalize(a) + "\n" + Normalize(b)
    decreases |a|
  {
    var s := a + "\r\n" + b;
    if a == "" {
      assert s[2..] == b;
    } else if |a| >= 2 && a[0] == '\r' && a[1] == '\n' {
      assert s[2..] == a[2..] + "\r\n" + b;
      NormalizeReplaces(a[2..], b);
    } else {
      assert s[1..] == a[1..] + "\r\n" + b;
      assert s[0] == a[0] && (|a| == 1 ==> s[1] == '\r') && (|a| > 1 ==> s[1] == a[1]);
      NormalizeReplaces(a[1..], b);
    }
  }

  lemma {:induction false} JoinCons(line: string, data: seq<string>)
    requires data != []
    ensures Join([line] + data) == line + ("\n" + Join(data))
    decreases |data|
  {
    var all := [line] + data;
    assert all[..|all| - 1] == [line] + data[..|data| - 1];
    if |data| == 1 {
      assert all[..|all| - 1] == [line];
    } else {
      JoinCons(line, data[..|data| - 1]);
    }
  }

  lemma JoinHead(c: char, r: seq<string>)
    requires r != []
    ensures Join([[c] + r[0]] + r[1..]) == [c] + Join(r)
  {
    hide Join;
    if |r| == 1 {
      assert [[c] + r[0]] + r[1..] == [[c] + r[0]] && r == [r[0]];
      JoinOne(r[0]);
      JoinOne([c] + r[0]);
    } else {
      var rest := "\n" + Join(r[1..]);
      assert r == [r[0]] + r[1..];
      JoinCons(r[0], r[1..]);
      JoinCons([c] + r[0], r[1..]);
      assert [c] + (r[0] + rest) == [c] + r[0] + rest;
    }
  }

  /** Splitting cuts at every newline: the pieces have none, and joined by newlines are the text. */
  lemma {:induction false} SplitCuts(s: string)
    ensures Join(Split(s)) == s
    ensures forall i :: 0 <= i < |Split(s)| ==> '\n' !in Split(s)[i]
    decreases |s|
  {
    hide Join;
    if s != "" {
      var r := Split(s[1..]);
      SplitCuts(s[1..]);
      assert s == [s[0]] + s[1..];
      if s[0] == '\n' {
        JoinCons("", r);
        assert "" + ("\n" + Join(r)) == s;
      } else {
        JoinHead(s[0], r);
      }
    } else {
      JoinOne(s);
    }
  }

  lemma JoinOne(s: string)
    ensures Join([s]) == s
  {
  }

  /** And joining is undone by splitting. */
  lemma {:induction false} JoinedSplits(data: seq<string>)
    requires data != [] && forall i :: 0 <= i < |data| ==> '\n' !in data[i]
    ensures Split(Join(data)) == data
    decreases |data|
  {
    if |data| == 1 {
      SplitWhole(data[0]);
    } else {
      assert data == [data[0]] + data[1..];
      JoinCons(data[0], data[1..]);
      SplitLine(data[0], Join(data[1..]));
      JoinedSplits(data[1..]);
    }
  }

  lemma {:induction false} SplitWhole(s: string)
    requires '\n' !in s
    ensures Split(s) == [s]
    decreases |s|
  {
    if s != "" {
      assert s[0] in s;
      SplitWhole(s[1..]);
      assert [s[0]] + s[1..] == s;
    }
  }

  /** The client's line: what comes before the first newline, if there is one. */
  lemma {:induction false} FirstLineExactly(s: string, line: string, rest: string)
    ensures FirstLine(s) == Some((line, rest)) <==> '\n' !in line && s == line + ("\n" + rest)
    ensures FirstLine(s).None? <==> '\n' !in s
    decreases |s|
  {
    if '\n' !in line {
      FirstLineOf(line, rest);
    }
    if s != "" {
      assert s == [s[0]] + s[1..];
      if s[0] == '\n' {
        assert s == "" + ("\n" + s[1..]);
      } else {
        match FirstLine(s[1..])
        case None => FirstLineExactly(s[1..], "", "");
        case Some((l, r)) =>
          FirstLineExactly(s[1..], l, r);
          assert s == [s[0]] + l + ("\n" + r);
      }
    }
  }

  predicate LineEnd(s: string) {
    forall i :: 0 <= i < |s| ==> s[i] == '\r' || s[i] == '\n'
  }

  lemma {:induction false} TrimLineEndExactly(s: string, e: string)
    requires LineEnd(e) && (s == "" || !LineEnd([s[|s| - 1]]))
    ensures TrimLineEnd(s + e) == s
    decreases |e|
  {
    if e == "" {
      assert s + e == s;
      if s != "" { assert [s[|s| - 1]][0] == s[|s| - 1]; }
    } else {
      var n := |e| - 1;
      assert (s + e)[..|s + e| - 1] == s + e[..n];
      TrimLineEndExactly(s, e[..n]);
    }
  }

  // ---- The end of the input ----

  /** Lines, each ended by LF, and then a piece of one. */
  function Piece(lines: seq<string>, last: string): string {
    if lines == [] then last else lines[0] + ("\n" + Piece(lines[1..], last))
  }

  lemma {:induction false} PieceLines(lines: seq<string>, last: string)
    requires (forall i :: 0 <= i < |lines| ==> Solid(lines[i])) && OneLine(last)
    ensures Split(Piece(lines, last)) == lines + [last] && NoCr(Piece(lines, last))
    ensures ClientLines(Piece(lines, last)).None?
    decreases |lines|
  {
    if lines == [] {
      SplitWhole(last);
      FirstLineExactly(last, "", "");
    } else {
      var line, more := lines[0], Piece(lines[1..], last);
      PieceLines(lines[1..], last);
      SplitLine(line, more);
      FirstLineOf(line, more);
      assert line[|line| - 1] in line;
      assert TrimLineEnd(line) == line;
      assert [line] + (lines[1..] + [last]) == lines + [last];
    }
  }

  /** No blank line is in it. */
  lemma {:induction false} NoBlankLine(before: string, lines: seq<string>, last: string)
    requires (forall i :: 0 <= i < |lines| ==> Solid(lines[i])) && OneLine(last)
    requires forall k :: 0 < k <= |before| ==> !TwoNewlines(before[..k])
    ensures forall k :: 0 < k <= |before + Piece(lines, last)| ==> !TwoNewlines((before + Piece(lines, last))[..k])
    decreases |lines|
  {
    var line := if lines == [] then last else lines[0];
    var next := before + line + (if lines == [] then "" else "\n");
    forall k | 0 < k <= |next|
      ensures !TwoNewlines(next[..k])
    {
      if k <= |before| {
        assert next[..k] == before[..k];
      } else if k <= |before + line| {
        assert next[k - 1] == line[k - 1 - |before|] && line[k - 1 - |before|] in line;
      } else {
        assert next[k - 2] == line[|line| - 1] && line[|line| - 1] in line;
      }
    }
    if lines == [] {
      assert next == before + Piece(lines, last);
    } else {
      assert before + Piece(lines, last) == next + Piece(lines[1..], last);
      NoBlankLine(next, lines[1..], last);
    }
  }

  /** A stream that ends inside an event: the parser takes what there is as a frame of these lines,
      while the client waits for the blank line and reports the end. */
  lemma CutOff(lines: seq<string>, last: string)
    requires (forall i :: 0 <= i < |lines| ==> Solid(lines[i])) && OneLine(last) && (lines != [] || last != "")
    ensures var s := Piece(lines, last);
      Frames(s) == [s] && Split(Normalize(s)) == lines + [last] && ClientRead(s).None?
  {
    hide ClientScan;
    var s := Piece(lines, last);
    PieceLines(lines, last);
    NormalizePlain(s);
    NoBlankLine("", lines, last);
    assert "" + s == s;
    assert s != "";
    SkipTo(s, 0, |s|, s);
    CutStep(s, |s|);
    FramesStep(s);
    NoFrames();
    assert s[|s|..] == "" && s[..|s|] == s;
  }

  /** A prefix is what a text begins with. */
  lemma PrefixExactly(s: string, p: string)
    ensures HasPrefix(s, p) <==> exists t :: s == p + t
  {
    if HasPrefix(s, p) {
      assert s == p + s[|p|..];
    }
  }

  // ---- Fields ----

  /** The lines of an event as the two scanners understand them: a field between white space, or
      anything else. */
  datatype Line = EventLine(a: string, name: string, b: string) | DataLine(a: string, data: string, b: string) | Other(text: string)
  {
    function Text(): string {
      match this
      case EventLine(a, name, b) => "event:" + (a + name + b)
      case DataLine(a, data, b) => "data:" + (a + data + b)
      case Other(text) => text
    }

    predicate Ok() {
      && Solid(Text())
      && match this
         case EventLine(a, name, b) => Blank(a) && Trimmed(name) && Blank(b)
         case DataLine(a, data, b) => Blank(a) && Trimmed(data) && Blank(b)
         case Other(text) => !HasPrefix(text, "event:") && !HasPrefix(text, "data:")
    }
  }

  function LinesOf(ls: seq<Line>): seq<string> {
    seq(|ls|, i requires 0 <= i < |ls| => ls[i].Text())
  }

  predicate Fine(ls: seq<Line>) {
    forall i :: 0 <= i < |ls| ==> ls[i].Ok()
  }

  /** Every line without line ends in it can be understood so. */
  lemma LineIsFine(text: string) returns (l: Line)
    requires Solid(text)
    ensures l.Text() == text && l.Ok()
  {
    hide IsSpace, Trim;
    if HasPrefix(text, "event:") {
      var a, b := TrimSplits(text[6..]);
      l := EventLine(a, Trim(text[6..]), b);
      assert text == text[..6] + text[6..];
    } else if HasPrefix(text, "data:") {
      var a, b := TrimSplits(text[5..]);
      l := DataLine(a, Trim(text[5..]), b);
      assert text == text[..5] + text[5..];
    } else {
      l := Other(text);
    }
  }

  /** The name on the last event line. */
  function NameOf(ls: seq<Line>): string {
    if ls == [] then ""
    else if ls[|ls| - 1].EventLine? then ls[|ls| - 1].name
    else NameOf(ls[..|ls| - 1])
  }

  /** The data of all data lines. */
  function DataOf(ls: seq<Line>): seq<string> {
    if ls == [] then []
    else DataOf(ls[..|ls| - 1]) + (if ls[|ls| - 1].DataLine? then [ls[|ls| - 1].data] else [])
  }

  function LastOf(data: seq<string>): string {
    if data == [] then "" else data[|data| - 1]
  }

  lemma PrefixOf(p: string, s: string)
    ensures HasPrefix(p + s, p) && (p + s)[|p|..] == s
  {
  }

  lemma FirstLetter(s: string)
    ensures HasPrefix(s, "event:") ==> s[0] == 'e'
    ensures HasPrefix(s, "data:") ==> s[0] == 'd'
  {
    if HasPrefix(s, "event:") {
      assert s[..6][0] == s[0] && "event:"[0] == 'e';
    } else if HasPrefix(s, "data:") {
      assert s[..5][0] == s[0] && "data:"[0] == 'd';
    }
  }

  /** The parser takes the last name and all data, the client the last name and the last data. */
  lemma {:induction false} ScanReads(ls: seq<Line>)
    requires Fine(ls)
    ensures Scan(LinesOf(ls)) == Fields(NameOf(ls), DataOf(ls))
    ensures ClientScan(LinesOf(ls)) == ClientFrame(NameOf(ls), LastOf(DataOf(ls)))
  {
    hide IsSpace, Trim, HasPrefix, Blank, Trimmed, Solid;
    if ls != [] {
      var n := |ls| - 1;
      ScanReads(ls[..n]);
      var l := ls[n];
      var text := l.Text();
      assert LinesOf(ls) == LinesOf(ls[..n]) + [text];
      ScanSnoc(LinesOf(ls[..n]), text);
      FirstLetter(text);
      match l
      case EventLine(a, name, b) => PrefixOf("event:", a + name + b); TrimExactly(a, name, b);
      case DataLine(a, data, b) => PrefixOf("data:", a + data + b); TrimExactly(a, data, b);
      case Other(_) =>
    }
  }
}
