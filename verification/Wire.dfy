/** The streams of the running system, as bytes: what any of them has sent can be framed and parsed
    back, by the gateway's own parser and by the client. */
module Wire {
  import opened Options
  import opened Protocol
  import opened Gateway
  import opened Accounting
  import opened System
  import Transcript
  import Sse
  import SseProofs

  lemma PositionalEmits(w: seq<Event>, body: seq<Event>, k: nat)
    requires k < |w| && (body == [] || Positional(body))
    requires body == w || (body == w[..|w| - 1] && w[|w| - 1].Truncated?)
    requires w[0].Status? ==> w[0].provider != ""
    ensures SseProofs.Emittable(w[k])
  {
    if k < |body| {
      assert body[k] == w[k] && PositionOk(body, k);
    }
  }

  /** A wire whose told part follows the grammar and tells a story. */
  lemma StoryEmits(cfg: Config, s: Stream, k: nat)
    requires cfg.Valid() && k < |s.wire|
    requires var told := Transcript.Told(s.wire);
      (told == [] || Positional(told)) && Transcript.Retells(cfg, told, s.past, s.cur)
    ensures SseProofs.Emittable(s.wire[k])
  {
    hide Positional, Transcript.Retells, SseProofs.Emittable;
    var told := Transcript.Told(s.wire);
    if told != [] {
      if s.Started() {
        Transcript.StatusNamesFirst(cfg, told, s.past, s.cur);
      } else {
        Transcript.NoStory(cfg, told);
      }
    }
    PositionalEmits(s.wire, told, k);
  }

  /** Every event on a reachable wire can be printed and parsed. */
  lemma WireIsEmittable(cfg: Config, t0: int, ls: seq<Label>, i: nat, k: nat)
    requires cfg.Valid() && i < |Exec(cfg, t0, ls).streams| && k < |Exec(cfg, t0, ls).streams[i].wire|
    ensures SseProofs.Emittable(Exec(cfg, t0, ls).streams[i].wire[k])
  {
    hide Inv, Log, Positional, Exec, Transcript.Retells, SseProofs.Emittable;
    WireAlwaysInGrammar(cfg, t0, ls, i);
    Transcript.WireRetellsAttempts(cfg, t0, ls, i);
    StoryEmits(cfg, Exec(cfg, t0, ls).streams[i], k);
  }

  /** End to end: the bytes of any stream at any moment of any run frame and parse back to exactly the
      events the stream emitted, every gateway event passing the parser's validation. */
  lemma ReachableWiresRoundTrip(cfg: Config, t0: int, ls: seq<Label>, i: nat, c: Sse.Codec)
    requires cfg.Valid() && i < |Exec(cfg, t0, ls).streams| && c.Valid()
    ensures var w := Exec(cfg, t0, ls).streams[i].wire;
      var fs := Sse.Frames(Sse.PrintAll(c, w));
      && |fs| == |w|
      && forall k :: 0 <= k < |w| ==>
        var r := Sse.Parse(c, fs[k], Sse.OpenAI);
        && r.Some? && SseProofs.Decoded(c, r.value) == Some(w[k])
        && (!w[k].Content? ==> Sse.ValidGatewayEvent(c, r.value.event, r.value.data))
  {
    hide Inv;
    var w := Exec(cfg, t0, ls).streams[i].wire;
    forall k | 0 <= k < |w| ensures SseProofs.Emittable(w[k]) {
      WireIsEmittable(cfg, t0, ls, i, k);
    }
    SseProofs.ParseUndoesPrint(c, w);
  }

  /** And the reference client reads from those bytes, frame by frame, the event names and data that
      the parser reads. */
  lemma ClientReadsReachableWires(cfg: Config, t0: int, ls: seq<Label>, i: nat, c: Sse.Codec)
    requires cfg.Valid() && i < |Exec(cfg, t0, ls).streams| && c.Valid()
    ensures var w := Exec(cfg, t0, ls).streams[i].wire;
      var fs, cs := Sse.Frames(Sse.PrintAll(c, w)), SseProofs.ClientFrames(Sse.PrintAll(c, w));
      && |fs| == |cs| == |w|
      && forall k :: 0 <= k < |w| ==>
        var r := Sse.Parse(c, fs[k], Sse.OpenAI);
        r.Some? && cs[k] == Sse.ClientFrame(r.value.event, r.value.data)
  {
    hide Inv;
    var w := Exec(cfg, t0, ls).streams[i].wire;
    forall k | 0 <= k < |w| ensures SseProofs.Emittable(w[k]) {
      WireIsEmittable(cfg, t0, ls, i, k);
    }
    SseProofs.ClientReadsPrinted(c, w);
  }
}
