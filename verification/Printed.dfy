/** The bytes of the gateway's events, letter by letter. */
module Printed {
  import opened Options
  import opened Protocol
  import opened Sse
  import opened SseProofs
  import opened Json

  /** Every event is the line of its name, if it has one, a line with its object, and a blank line. */
  lemma PrintedBytes(c: Codec, e: Event)
    ensures Print(c, e) ==
      (if e.Content? then "" else "event: " + EventName(e) + "\n") + "data: " + c.encode(PayloadOf(e)) + "\n\n"
  {
    hide PayloadOf, EventName;
    var name, json := EventName(e), c.encode(PayloadOf(e));
    assert "event: " + name + "\n" + ("data: " + json + "\n" + "\n") == "event: " + name + "\n" + "data: " + json + "\n\n";
    assert "data: " + json + "\n" + "\n" == "" + "data: " + json + "\n\n";
  }

  /** The keys and values of its object. */
  lemma ObjectFields(e: Event)
    ensures e.Status? ==> Json.Fields(PayloadOf(e)) == [Field("state", Str("healthy")), Field("provider", Str(e.provider))]
    ensures e.Content? ==> Json.Fields(PayloadOf(e)) == [Field("choices", Choices(e.text))]
    ensures e.Failover? ==>
      Json.Fields(PayloadOf(e)) ==
      [Field("reason", Str(ReasonName(e.reason))), Field("tokens_delivered_before_failure", Num(e.tokens)),
       Field("provider_from", Str(e.from)), Field("provider_to", Str(e.to)), Field("attempt", Num(e.attempt))]
    ensures e.Regenerating? ==> Json.Fields(PayloadOf(e)) == [Field("keep_partial_visible", Flag(true))]
    ensures e.Truncated? ==>
      Json.Fields(PayloadOf(e)) ==
      [Field("reason", Str(WhyName(e.why))), Field("tokens_delivered", Num(e.delivered)), Field("final", Flag(true))]
  {
  }

  // ---- The objects ----

  /** Written as it is. */
  predicate PlainChar(c: char) {
    c >= ' ' && c !in {'"', '\\', '<', '>', '&', '\U{2028}', '\U{2029}'}
  }

  predicate Plain(s: string) {
    forall i :: 0 <= i < |s| ==> PlainChar(s[i])
  }

  lemma Escapes(c: char)
    ensures PlainChar(c) ==> Escape(c) == [c]
    ensures Escape('"') == ['\\', '"'] && Escape('\\') == ['\\', '\\']
    ensures Escape('\n') == ['\\', 'n'] && Escape('\r') == ['\\', 'r'] && Escape('\t') == ['\\', 't']
    ensures Escape('\U{8}') == ['\\', 'b'] && Escape('\U{c}') == ['\\', 'f']
  {
    hide Coded;
  }

  /** The others are written as four hexadecimal digits. */
  lemma CodedEscapes(c: char)
    requires c < ' ' || c in {'<', '>', '&', '\U{2028}', '\U{2029}'}
    requires c !in {'\n', '\r', '\t', '\U{8}', '\U{c}'}
    ensures var n := c as int;
      && Escape(c) == ['\\', 'u', Hex(n / 0x10 / 0x10 / 0x10), Hex(n / 0x10 / 0x10 % 0x10), Hex(n / 0x10 % 0x10), Hex(n % 0x10)]
  {
    hide Hex, Coded;
    CodedIs(c);
  }

  lemma HexDigits(d: int)
    requires 0 <= d < 16
    ensures Hex(d) == "0123456789abcdef"[d]
  {
  }

  /** Texts are written character by character. */
  lemma {:induction false} EscapedConcat(s: string, t: string)
    ensures Escaped(s + t) == Escaped(s) + Escaped(t)
    ensures forall c: char :: Escaped([c]) == Escape(c)
    decreases |s|
  {
    hide Escape;
    forall c: char
      ensures Escaped([c]) == Escape(c)
    {
      assert [c][1..] == "";
    }
    if s == "" {
      assert s + t == t;
    } else {
      assert (s + t)[1..] == s[1..] + t;
      EscapedConcat(s[1..], t);
    }
  }

  lemma {:induction false} EscapedPlain(s: string)
    requires Plain(s)
    ensures Escaped(s) == s
    decreases |s|
  {
    hide Escape;
    if s != "" {
      Escapes(s[0]);
      EscapedPlain(s[1..]);
      assert [s[0]] + s[1..] == s;
    }
  }

  /** Numbers are written in decimal. */
  lemma Decimals(n: int)
    requires n >= 0
    ensures n < 10 ==> Decimal(n) == [Hex(n)]
    ensures n >= 10 ==> Decimal(n) == Decimal(n / 10) + [Hex(n % 10)]
    ensures PrintValue(Num(n)) == Decimal(n) && (n > 0 ==> PrintValue(Num(-n)) == ['-'] + Decimal(n))
  {
    hide Hex;
  }

  /** The keys in quotes, each before its value, between commas and in braces. */
  lemma ObjectBytes(f: Field, fs: seq<Field>)
    requires Plain(f.name)
    ensures PrintField(f) == ['"'] + f.name + ['"', ':'] + PrintValue(f.value)
    ensures PrintFields([f]) == PrintField(f) + ['}']
    ensures fs != [] ==> PrintFields([f] + fs) == PrintField(f) + [','] + PrintFields(fs)
    ensures forall p: Payload :: Marshal(p) == ['{'] + PrintFields(Json.Fields(p))
  {
    hide PrintValue, Escaped;
    assert Escaped(f.name) == f.name by { EscapedPlain(f.name); }
    assert PrintField(f) == ['"'] + f.name + ['"', ':'] + PrintValue(f.value);
    assert [f][1..] == [];
    assert ([f] + fs)[1..] == fs;
  }

  lemma ValueBytes(s: string)
    ensures PrintValue(Str(s)) == ['"'] + Escaped(s) + ['"']
    ensures PrintValue(Flag(true)) == "true" && PrintValue(Flag(false)) == "false"
    ensures PrintValue(Choices(s)) == "[{\"delta\":{\"content\":\"" + Escaped(s) + "\"}}]"
  {
    hide Escaped;
    assert ['"'] + "}}]" == "\"}}]";
  }
}
