/** The objects the gateway writes, character by character as Go's encoder writes them, and a reader
    of that form: the abstract codec of the wire has an instance. */
module Json {
  import opened Options
  import opened Protocol
  import opened Sse

  // ---- Strings ----

  function Hex(d: int): char
    requires 0 <= d < 16
  {
    if d < 10 then ('0' as int + d) as char else ('a' as int + d - 10) as char
  }

  function Unhex(c: char): Option<int> {
    if '0' <= c <= '9' then Some(c as int - '0' as int)
    else if 'a' <= c <= 'f' then Some(c as int - 'a' as int + 10)
    else None
  }

  /** Backslash, `u` and four hexadecimal digits. */
  function Coded(c: char): string {
    var n := c as int % 0x10000;
    ['\\', 'u', Hex(n / 0x10 / 0x10 / 0x10), Hex(n / 0x10 / 0x10 % 0x10), Hex(n / 0x10 % 0x10), Hex(n % 0x10)]
  }

  function Escape(c: char): string {
    if c == '"' then ['\\', '"']
    else if c == '\\' then ['\\', '\\']
    else if c == '\U{8}' then ['\\', 'b']
    else if c == '\U{c}' then ['\\', 'f']
    else if c == '\n' then ['\\', 'n']
    else if c == '\r' then ['\\', 'r']
    else if c == '\t' then ['\\', 't']
    else if c < ' ' || c == '<' || c == '>' || c == '&' || c == '\U{2028}' || c == '\U{2029}' then Coded(c)
    else [c]
  }

  function Escaped(s: string): string {
    if s == "" then "" else Escape(s[0]) + Escaped(s[1..])
  }

  /** The next character of a string, and what follows it. */
  function ReadChar(s: string): (r: Option<(char, string)>)
    ensures r.Some? ==> |r.value.1| < |s|
  {
    if s == "" || s[0] == '"' then None
    else if s[0] != '\\' then Some((s[0], s[1..]))
    else if |s| < 2 then None
    else if s[1] == '"' || s[1] == '\\' then Some((s[1], s[2..]))
    else if s[1] == 'b' then Some(('\U{8}', s[2..]))
    else if s[1] == 'f' then Some(('\U{c}', s[2..]))
    else if s[1] == 'n' then Some(('\n', s[2..]))
    else if s[1] == 'r' then Some(('\r', s[2..]))
    else if s[1] == 't' then Some(('\t', s[2..]))
    else if s[1] == 'u' && |s| >= 6 then
      (match (Unhex(s[2]), Unhex(s[3]), Unhex(s[4]), Unhex(s[5]))
       case (Some(a), Some(b), Some(c), Some(d)) =>
         var n := a * 0x1000 + b * 0x100 + c * 0x10 + d;
         if n < 0xD800 then Some((n as char, s[6..])) else None
       case _ => None)
    else None
  }

  /** The characters up to the closing quote, and what follows it. */
  function ReadText(s: string): Option<(string, string)>
    decreases |s|
  {
    if s != "" && s[0] == '"' then Some(("", s[1..]))
    else
      match ReadChar(s)
      case None => None
      case Some((c, rest)) =>
        match ReadText(rest)
        case None => None
        case Some((t, after)) => Some(([c] + t, after))
  }

  lemma HexRoundTrip(d: int)
    requires 0 <= d < 16
    ensures Unhex(Hex(d)) == Some(d) && Hex(d) != '\n' && Hex(d) != '\r'
  {
  }

  lemma CodedRoundTrip(c: char, rest: string)
    requires c as int < 0xD800
    ensures ReadChar(Coded(c) + rest) == Some((c, rest))
    ensures |Coded(c)| == 6 && Coded(c)[0] == '\\' && OneLine(Coded(c))
  {
    var n := c as int;
    var w, x, y, z := n / 0x10 / 0x10 / 0x10, n / 0x10 / 0x10 % 0x10, n / 0x10 % 0x10, n % 0x10;
    HexRoundTrip(w);
    HexRoundTrip(x);
    HexRoundTrip(y);
    HexRoundTrip(z);
    hide Hex, Unhex, Coded;
    var s := ['\\', 'u', Hex(w), Hex(x), Hex(y), Hex(z)] + rest;
    assert Coded(c) + rest == s by { CodedIs(c); }
    CodedIs(c);
    assert s[6..] == rest;
    assert w * 0x1000 + x * 0x100 + y * 0x10 + z == n;
  }

  lemma CodedIs(c: char)
    requires c as int < 0x10000
    ensures var n := c as int;
      Coded(c) == ['\\', 'u', Hex(n / 0x10 / 0x10 / 0x10), Hex(n / 0x10 / 0x10 % 0x10), Hex(n / 0x10 % 0x10), Hex(n % 0x10)]
  {
    hide Hex;
    assert c as int % 0x10000 == c as int;
  }

  /** Escaped with a letter. */
  lemma ShortRoundTrip(c: char, rest: string)
    requires c in {'"', '\\', '\U{8}', '\U{c}', '\n', '\r', '\t'}
    ensures ReadChar(Escape(c) + rest) == Some((c, rest))
    ensures |Escape(c)| == 2 && Escape(c)[0] == '\\' && OneLine(Escape(c))
  {
    hide Coded;
    assert (Escape(c) + rest)[2..] == rest;
  }

  lemma EscapeRoundTrip(c: char, rest: string)
    ensures ReadChar(Escape(c) + rest) == Some((c, rest))
    ensures Escape(c) != "" && Escape(c)[0] != '"' && OneLine(Escape(c))
  {
    if c in {'"', '\\', '\U{8}', '\U{c}', '\n', '\r', '\t'} {
      ShortRoundTrip(c, rest);
    } else if c < ' ' || c in {'<', '>', '&', '\U{2028}', '\U{2029}'} {
      CodedRoundTrip(c, rest);
      hide ReadChar, Coded;
      assert Escape(c) == Coded(c);
    } else {
      hide Coded;
      assert ([c] + rest)[1..] == rest;
    }
  }

  lemma {:induction false} TextRoundTrip(t: string, rest: string)
    ensures ReadText(Escaped(t) + (['"'] + rest)) == Some((t, rest))
    ensures OneLine(Escaped(t))
  {
    hide ReadChar, Escape;
    var s := Escaped(t) + (['"'] + rest);
    if t == "" {
      assert s[1..] == rest;
    } else {
      var after := Escaped(t[1..]) + (['"'] + rest);
      EscapeRoundTrip(t[0], after);
      TextRoundTrip(t[1..], rest);
      assert s == Escape(t[0]) + after && s[0] == Escape(t[0])[0];
      assert [t[0]] + t[1..] == t;
    }
  }

  // ---- Numbers ----

  predicate IsDigit(c: char) {
    '0' <= c <= '9'
  }

  function Decimal(n: nat): string {
    if n < 10 then [Hex(n)] else Decimal(n / 10) + [Hex(n % 10)]
  }

  function ReadDigits(s: string, acc: nat): (nat, string)
    decreases |s|
  {
    if s != "" && IsDigit(s[0]) then ReadDigits(s[1..], acc * 10 + (s[0] as int - '0' as int)) else (acc, s)
  }

  lemma {:induction false} DecimalRoundTrip(n: nat, rest: string)
    ensures ReadDigits(Decimal(n) + rest, 0) == ReadDigits(rest, n)
    ensures Decimal(n) != "" && Decimal(n)[0] != '-' && OneLine(Decimal(n))
  {
    var d := Hex(n % 10);
    var s := [d] + rest;
    assert s[1..] == rest;
    if n >= 10 {
      DecimalRoundTrip(n / 10, s);
      assert Decimal(n) + rest == Decimal(n / 10) + s;
    }
  }

  // ---- Objects ----

  /** The values of the fields; `Choices` is the list of one choice whose delta has this content. */
  datatype Value = Str(s: string) | Num(n: int) | Flag(b: bool) | Choices(text: string)

  datatype Field = Field(name: string, value: Value)

  const OPENING: string := "[{\"delta\":{\"content\":\""
  const CLOSING: string := "}}]"

  function Quoted(s: string): string {
    ['"'] + (Escaped(s) + ['"'])
  }

  function PrintValue(v: Value): string {
    match v
    case Str(s) => Quoted(s)
    case Num(n) => if n < 0 then ['-'] + Decimal(-n) else Decimal(n)
    case Flag(b) => if b then "true" else "false"
    case Choices(text) => OPENING + (Escaped(text) + (['"'] + CLOSING))
  }

  function PrintField(f: Field): string {
    Quoted(f.name) + ([':'] + PrintValue(f.value))
  }

  /** The fields, separated by commas and closed by a brace. */
  function PrintFields(fs: seq<Field>): string {
    if fs == [] then ['}']
    else PrintField(fs[0]) + ((if |fs| == 1 then [] else [',']) + PrintFields(fs[1..]))
  }

  function Drop(s: string, prefix: string): Option<string> {
    if HasPrefix(s, prefix) then Some(s[|prefix|..]) else None
  }

  /** Reads a value of the kind of `like`. */
  function ReadValue(like: Value, s: string): Option<(Value, string)> {
    match like
    case Str(_) =>
      if s == "" || s[0] != '"' then None
      else
        (match ReadText(s[1..])
         case None => None
         case Some((t, rest)) => Some((Str(t), rest)))
    case Num(_) =>
      var negative := s != "" && s[0] == '-';
      var r := ReadDigits(if negative then s[1..] else s, 0);
      var n: int := r.0;
      Some((Num(if negative then -n else n), r.1))
    case Flag(_) =>
      (match (Drop(s, "true"), Drop(s, "false"))
       case (Some(rest), _) => Some((Flag(true), rest))
       case (_, Some(rest)) => Some((Flag(false), rest))
       case _ => None)
    case Choices(_) =>
      (match Drop(s, OPENING)
       case None => None
       case Some(inner) =>
         match ReadText(inner)
         case None => None
         case Some((t, after)) =>
           match Drop(after, CLOSING)
           case None => None
           case Some(rest) => Some((Choices(t), rest)))
  }

  /** Reads the field `like.name` with a value of the kind of `like.value`. */
  function ReadField(like: Field, s: string): Option<(Field, string)> {
    match ReadValue(Str(""), s)
    case None => None
    case Some((name, r)) =>
      if name != Str(like.name) || r == "" || r[0] != ':' then None
      else
        match ReadValue(like.value, r[1..])
        case None => None
        case Some((v, rest)) => Some((Field(like.name, v), rest))
  }

  function ReadFields(like: seq<Field>, s: string): Option<(seq<Field>, string)> {
    if like == [] then (if s != "" && s[0] == '}' then Some(([], s[1..])) else None)
    else
      match ReadField(like[0], s)
      case None => None
      case Some((f, r)) =>
        if |like| > 1 && (r == "" || r[0] != ',') then None
        else
          match ReadFields(like[1..], if |like| > 1 then r[1..] else r)
          case None => None
          case Some((fs, rest)) => Some(([f] + fs, rest))
  }

  predicate SameKind(v: Value, w: Value) {
    match v
    case Str(_) => w.Str?
    case Num(_) => w.Num?
    case Flag(_) => w.Flag?
    case Choices(_) => w.Choices?
  }

  lemma Dropped(prefix: string, rest: string)
    ensures Drop(prefix + rest, prefix) == Some(rest)
  {
  }

  lemma PrefixFirst(s: string, p: string)
    requires p != "" && s != ""
    ensures HasPrefix(s, p) ==> s[0] == p[0]
  {
    if HasPrefix(s, p) {
      assert s[..|p|][0] == s[0];
    }
  }

  lemma NumRoundTrip(n: int, rest: string)
    requires rest != "" && !IsDigit(rest[0])
    ensures ReadValue(Num(0), PrintValue(Num(n)) + rest) == Some((Num(n), rest)) && OneLine(PrintValue(Num(n)))
  {
    DecimalRoundTrip(if n < 0 then -n else n, rest);
    if n < 0 {
      assert (PrintValue(Num(n)) + rest)[1..] == Decimal(-n) + rest;
    }
  }

  lemma FlagRoundTrip(b: bool, rest: string)
    ensures ReadValue(Flag(false), PrintValue(Flag(b)) + rest) == Some((Flag(b), rest)) && OneLine(PrintValue(Flag(b)))
  {
    Dropped(if b then "true" else "false", rest);
    assert "true"[0] == 't' && "false"[0] == 'f';
    if !b {
      PrefixFirst("false" + rest, "true");
    }
  }

  lemma StrRoundTrip(t: string, rest: string)
    ensures ReadValue(Str(""), Quoted(t) + rest) == Some((Str(t), rest)) && OneLine(Quoted(t))
  {
    hide Escaped, ReadText;
    TextRoundTrip(t, rest);
    assert (Quoted(t) + rest)[1..] == Escaped(t) + (['"'] + rest);
  }

  lemma ChoicesRoundTrip(t: string, rest: string)
    ensures ReadValue(Choices(""), PrintValue(Choices(t)) + rest) == Some((Choices(t), rest)) && OneLine(PrintValue(Choices(t)))
  {
    hide HasPrefix, Drop, ReadText;
    var after := ['"'] + (CLOSING + rest);
    TextRoundTrip(t, CLOSING + rest);
    Dropped(CLOSING, rest);
    Dropped(OPENING, Escaped(t) + after);
    assert PrintValue(Choices(t)) + rest == OPENING + (Escaped(t) + after);
    LiteralsAreOneLine();
  }

  lemma LiteralsAreOneLine()
    ensures OneLine(OPENING) && OneLine(CLOSING)
  {
  }

  lemma ValueRoundTrip(like: Value, v: Value, rest: string)
    requires SameKind(like, v) && rest != "" && !IsDigit(rest[0])
    ensures ReadValue(like, PrintValue(v) + rest) == Some((v, rest)) && OneLine(PrintValue(v))
  {
    match v
    case Str(t) => StrRoundTrip(t, rest);
    case Num(n) => NumRoundTrip(n, rest);
    case Flag(b) => FlagRoundTrip(b, rest);
    case Choices(t) => ChoicesRoundTrip(t, rest);
  }

  lemma FieldRoundTrip(like: Field, f: Field, rest: string)
    requires SameKind(like.value, f.value) && like.name == f.name && rest != "" && !IsDigit(rest[0])
    ensures ReadField(like, PrintField(f) + rest) == Some((f, rest)) && OneLine(PrintField(f))
  {
    hide ReadValue, PrintValue, Quoted;
    var s := PrintField(f) + rest;
    var r := [':'] + (PrintValue(f.value) + rest);
    assert s == Quoted(f.name) + r && r[1..] == PrintValue(f.value) + rest;
    StrRoundTrip(f.name, r);
    ValueRoundTrip(like.value, f.value, rest);
  }

  lemma {:induction false} FieldsRoundTrip(like: seq<Field>, fs: seq<Field>)
    requires |like| == |fs|
    requires forall i :: 0 <= i < |fs| ==> SameKind(like[i].value, fs[i].value) && like[i].name == fs[i].name
    ensures ReadFields(like, PrintFields(fs)) == Some((fs, ""))
    ensures var s := PrintFields(fs); s != "" && s[|s| - 1] == '}' && OneLine(s)
  {
    hide ReadField, PrintField, SameKind;
    if fs != [] {
      var more := PrintFields(fs[1..]);
      var rest := (if |fs| == 1 then [] else [',']) + more;
      FieldsRoundTrip(like[1..], fs[1..]);
      FieldRoundTrip(like[0], fs[0], rest);
      assert rest[|rest| - 1] == more[|more| - 1];
      assert [fs[0]] + fs[1..] == fs;
      if |fs| == 1 { assert rest == more; } else { assert rest[1..] == more; }
      assert ReadFields(like[1..], more) == Some((fs[1..], ""));
      assert ReadField(like[0], PrintFields(fs)) == Some((fs[0], rest));
    } else {
      assert PrintFields(fs)[1..] == "";
    }
  }

  // ---- The five payloads ----

  function Fields(p: Payload): seq<Field> {
    match p
    case StatusData(state, provider) => [Field("state", Str(state)), Field("provider", Str(provider))]
    case FailoverData(reason, tokens, from, to, attempt) =>
      [Field("reason", Str(reason)), Field("tokens_delivered_before_failure", Num(tokens)),
       Field("provider_from", Str(from)), Field("provider_to", Str(to)), Field("attempt", Num(attempt))]
    case RegeneratingData(keep) => [Field("keep_partial_visible", Flag(keep))]
    case TruncatedData(why, delivered, final) =>
      [Field("reason", Str(why)), Field("tokens_delivered", Num(delivered)), Field("final", Flag(final))]
    case ContentData(choices) => [Field("choices", Choices(if choices == [] then "" else choices[0]))]
  }

  function Model(k: Kind): Payload {
    match k
    case KStatus => StatusData("", "")
    case KFailover => FailoverData("", 0, "", "", 0)
    case KRegenerating => RegeneratingData(false)
    case KTruncated => TruncatedData("", 0, false)
    case KContent => ContentData([""])
  }

  /** The payload with these field values. */
  function Rebuild(k: Kind, vs: seq<Value>): Option<Payload> {
    match k
    case KStatus => if |vs| == 2 && vs[0].Str? && vs[1].Str? then Some(StatusData(vs[0].s, vs[1].s)) else None
    case KFailover =>
      if |vs| == 5 && vs[0].Str? && vs[1].Num? && vs[2].Str? && vs[3].Str? && vs[4].Num?
      then Some(FailoverData(vs[0].s, vs[1].n, vs[2].s, vs[3].s, vs[4].n)) else None
    case KRegenerating => if |vs| == 1 && vs[0].Flag? then Some(RegeneratingData(vs[0].b)) else None
    case KTruncated =>
      if |vs| == 3 && vs[0].Str? && vs[1].Num? && vs[2].Flag? then Some(TruncatedData(vs[0].s, vs[1].n, vs[2].b)) else None
    case KContent => if |vs| == 1 && vs[0].Choices? then Some(ContentData([vs[0].text])) else None
  }

  function Values(fs: seq<Field>): seq<Value> {
    seq(|fs|, i requires 0 <= i < |fs| => fs[i].value)
  }

  function Marshal(p: Payload): string {
    ['{'] + PrintFields(Fields(p))
  }

  /** Reads an object of kind `k` in the form `Marshal` writes. */
  function Unmarshal(k: Kind, s: string): Option<Payload> {
    if s == "" || s[0] != '{' then None
    else
      match ReadFields(Fields(Model(k)), s[1..])
      case Some((fs, "")) => Rebuild(k, Values(fs))
      case _ => None
  }

  lemma FieldsFit(p: Payload)
    requires p.ContentData? ==> |p.choices| == 1
    ensures var like, fs := Fields(Model(p.Kind())), Fields(p);
      && |like| == |fs| && Rebuild(p.Kind(), Values(fs)) == Some(p)
      && forall i :: 0 <= i < |fs| ==> SameKind(like[i].value, fs[i].value) && like[i].name == fs[i].name
  {
    if p.ContentData? {
      assert p.choices == [p.choices[0]];
    }
  }

  /** What is written is one line in braces, and reading it gives the payload back. */
  lemma MarshalRoundTrip(p: Payload)
    requires p.ContentData? ==> |p.choices| == 1
    ensures JsonText(Marshal(p)) && Unmarshal(p.Kind(), Marshal(p)) == Some(p)
  {
    hide SameKind, Fields, Rebuild, Values;
    FieldsFit(p);
    FieldsRoundTrip(Fields(Model(p.Kind())), Fields(p));
    var s := PrintFields(Fields(p));
    assert Marshal(p)[1..] == s && Marshal(p)[|s|] == s[|s| - 1];
  }

  /** The codec of this module, with any reading of the Anthropic payloads. */
  function GoCodec(delta: string -> Option<(string, string)>, outputTokens: string -> Option<int>): Codec {
    Codec(p => Marshal(p), (k, s) => Unmarshal(k, s), delta, outputTokens)
  }

  lemma GoCodecIsValid(delta: string -> Option<(string, string)>, outputTokens: string -> Option<int>)
    ensures GoCodec(delta, outputTokens).Valid()
  {
    hide Marshal, Unmarshal;
    forall e: Event
      ensures var p := PayloadOf(e); JsonText(Marshal(p)) && Unmarshal(p.Kind(), Marshal(p)) == Some(p)
    {
      MarshalRoundTrip(PayloadOf(e));
    }
  }
}
