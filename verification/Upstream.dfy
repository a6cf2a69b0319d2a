/** From the bytes of a provider to what an attempt counts and how it ends. */
module Upstream {
  import opened Options
  import opened Protocol
  import opened Sse
  import opened SseProofs
  import opened Feed
  import Gateway
  import Accounting
  import Handler

  /** The frames received before the stream ends. */
  function Received(xs: seq<Gateway.Input>): seq<Gateway.Frame> {
    if xs == [] || !xs[0].Receive? then [] else [xs[0].frame] + Received(xs[1..])
  }

  /** How the stream ends: as the first input that is no frame says; else the connection just ends. */
  function EndOf(xs: seq<Gateway.Input>): Gateway.Input {
    if xs == [] then Gateway.ReceiveError(Gateway.Failed(DeadSocket))
    else if xs[0].Receive? then EndOf(xs[1..])
    else xs[0]
  }

  /** The attempt on a provider that sends the bytes `s`; `cut` is the write to the client that fails. */
  function PlayOf(c: Codec, format: Format, s: string, count: string -> nat, cut: Option<(nat, Gateway.Outcome)>): Handler.Play {
    var xs := Heard(c, format, s, count);
    Handler.Play(Received(xs), EndOf(xs), cut)
  }

  /** The message ends the stream. */
  predicate Ends(m: Message) {
    m.Done? || m.Stop? || m.Error? || m.Garbled? || m == Note("done")
  }

  /** The messages before the one that ends the stream. */
  function Before(ms: seq<Message>): seq<Message> {
    if ms == [] || Ends(ms[0]) then [] else [ms[0]] + Before(ms[1..])
  }

  /** How the stream ends. */
  function Verdict(ms: seq<Message>): Gateway.Outcome {
    var n := |Before(ms)|;
    if n >= |ms| then Gateway.Failed(DeadSocket)
    else if ms[n].Error? || ms[n].Garbled? then Gateway.Failed(Malformed)
    else Gateway.Success
  }

  /** What the messages before the end amount to: texts add their count, at least one each; a usage
      report replaces what was counted. */
  function Tally(ms: seq<Message>, count: string -> nat): nat {
    if ms == [] then 0
    else
      var t := Tally(ms[..|ms| - 1], count);
      match ms[|ms| - 1]
      case TextDelta(text) => t + AtLeastOne(count(text))
      case Chunk(choices) => t + AtLeastOne(count(if choices == [] then "" else choices[0]))
      case Note(name) => if name == "" then t + AtLeastOne(count("")) else t
      case UsageReport(n) => if n > 0 then n else t
      case _ => t
  }

  function AtLeastOne(n: nat): (r: nat)
    ensures r >= 1 && r >= n && (n > 0 ==> r == n) && (n == 0 ==> r == 1)
  {
    if n > 0 then n else 1
  }

  function Said(es: seq<Sent>): seq<Message> {
    seq(|es|, i requires 0 <= i < |es| => es[i].message)
  }

  function Inputs(ms: seq<Message>, count: string -> nat): seq<Gateway.Input> {
    seq(|ms|, i requires 0 <= i < |ms| => Expected(ms[i], count))
  }

  /** The frame a message is received as, if it does not end the stream. */
  function FrameFor(m: Message, count: string -> nat): Gateway.Frame {
    match Expected(m, count)
    case Receive(frame) => frame
    case _ => Gateway.Control
  }

  function FramesFor(ms: seq<Message>, count: string -> nat): seq<Gateway.Frame> {
    seq(|ms|, i requires 0 <= i < |ms| => FrameFor(ms[i], count))
  }

  lemma {:induction false} ReceivedAre(ms: seq<Message>, count: string -> nat)
    ensures var xs := Inputs(ms, count);
      && Received(xs) == FramesFor(Before(ms), count) && |Before(ms)| <= |ms|
      && EndOf(xs) == (match Verdict(ms) case Success => Gateway.ReceiveDone case o => Gateway.ReceiveError(o))
  {
    if ms != [] {
      ReceivedAre(ms[1..], count);
      assert Inputs(ms, count)[1..] == Inputs(ms[1..], count);
      assert Inputs(ms, count)[0] == Expected(ms[0], count);
      if !Ends(ms[0]) {
        assert Before(ms)[1..] == Before(ms[1..]);
      }
    }
  }

  lemma {:induction false} TallyIsCount(ms: seq<Message>, count: string -> nat)
    ensures Accounting.Count(Handler.Taken(FramesFor(ms, count))) == Tally(ms, count)
  {
    if ms != [] {
      var n := |ms| - 1;
      TallyIsCount(ms[..n], count);
      var fs := FramesFor(ms, count);
      assert fs[..n] == FramesFor(ms[..n], count);
      Handler.TakenSnoc(fs, n);
      assert fs[..n + 1] == fs;
      assert Handler.Taken(fs)[..n] == Handler.Taken(fs[..n]);
    }
  }

  lemma {:induction false} LastUsage(fs: seq<Gateway.Frame>) returns (u: nat)
    ensures Handler.AfterLastUsage(fs, u)
  {
    if fs == [] {
      u := 0;
    } else if fs[|fs| - 1].Usage? {
      u := |fs|;
    } else {
      u := LastUsage(fs[..|fs| - 1]);
    }
  }

  /** The count an attempt must report is the tally of the messages it took. */
  lemma CountsTally(ms: seq<Message>, count: string -> nat, tokens: int)
    requires Handler.CountsTaken(FramesFor(ms, count), tokens)
    ensures tokens == Tally(ms, count)
  {
    hide Handler.Tokenized, Handler.Uncounted, Handler.AfterLastUsage, Tally, FramesFor;
    var fs := FramesFor(ms, count);
    var u := LastUsage(fs);
    InRange(fs, u);
    Handler.TakenCount(fs, u);
    TallyIsCount(ms, count);
  }

  lemma InRange(fs: seq<Gateway.Frame>, u: nat)
    requires Handler.AfterLastUsage(fs, u)
    ensures u <= |fs| && (u > 0 ==> fs[u - 1].Usage?)
  {
  }

  /** End to end: whatever attempt is made on a provider that sends these events, in bytes with either
      line ending, it reports exactly what the messages it took say, and ends as the first one that
      ends the stream says, unless the budget or the client's connection ended it before. */
  lemma AttemptOnBytes(c: Codec, format: Format, es: seq<Sent>, count: string -> nat, crlf: bool,
                       cut: Option<(nat, Gateway.Outcome)>, a: Gateway.Attempt)
    requires forall i :: 0 <= i < |es| ==> es[i].Ok(c, format)
    requires cut.Some? ==> cut.value.1.Cancelled? || cut.value.1.Failed?
    ensures var play := PlayOf(c, format, if crlf then ToCrlf(AllBytes(es)) else AllBytes(es), count, cut);
      var ms, k := Before(Said(es)), |a.frames|;
      && play.Ok()
      && (Handler.Played(play, a) ==>
          && k <= |ms| && a.tokens == Tally(ms[..k], count)
          && (k == |ms| ==> a.outcome == Verdict(Said(es)))
          && (k < |ms| ==> a.outcome.OverBudget? || (cut.Some? && cut.value == (k, a.outcome))))
  {
    hide Sent.Ok, AllBytes, ToCrlf, Heard, Tally, Expected, Handler.CountsTaken, Handler.Taken;
    var s := if crlf then ToCrlf(AllBytes(es)) else AllBytes(es);
    var play := PlayOf(c, format, s, count, cut);
    var said := Said(es);
    FeedReadBack(c, format, es, count, crlf);
    assert Heard(c, format, s, count) == Inputs(said, count);
    ReceivedAre(said, count);
    var ms := Before(said);
    forall i | 0 <= i < |play.frames| && play.frames[i].Usage?
      ensures play.frames[i].k > 0
    {
      ExpectedOk(ms[i], count);
    }
    if Handler.Played(play, a) {
      var k := |a.frames|;
      assert play.frames[..k] == FramesFor(ms[..k], count);
      CountsTally(ms[..k], count, a.tokens);
    }
  }
}
