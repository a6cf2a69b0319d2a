/** What the client is told: at every moment the wire retells the attempts of the stream, text for
    text and failure for failure. */
module Transcript {
  import opened Options
  import opened Protocol
  import opened Gateway
  import opened Accounting
  import opened System

  /** The content events of an attempt: one per text frame, in order. */
  function Contents(f: seq<Frame>): seq<Event> {
    if f == [] then []
    else Contents(f[..|f| - 1]) + (if f[|f| - 1].Text? then [Content(f[|f| - 1].text)] else [])
  }

  function Said(cur: Option<Attempt>): seq<Event> {
    if cur.Some? then Contents(cur.value.frames) else []
  }

  /** `to` is a provider the key may use, of lower priority than provider `p`. */
  ghost predicate Later(cfg: Config, to: string, p: nat) {
    exists k :: p < k < |cfg.names| && to == cfg.names[k]
  }

  /** The whole story: the status names the provider attempted first, each superseded attempt is told
      by its texts, the failover event that replaced it and a regenerating event, and the attempt
      that is not superseded by its texts so far. */
  ghost predicate Retells(cfg: Config, w: seq<Event>, past: seq<Attempt>, cur: Option<Attempt>)
    decreases |past|
  {
    var said := Said(cur);
    if past == [] then
      if cur.None? then w == []
      else cur.value.provider < |cfg.names| && w == [Status(cfg.names[cur.value.provider])] + said
    else
      var n := |w| - |said| - 2;
      var a := past[|past| - 1];
      && n >= 0 && w[n + 1..] == [Regenerating] + said
      && Announces(cfg, w[n], a, |past|) && Later(cfg, w[n].to, a.provider)
      && Retells(cfg, w[..n], past[..|past| - 1], Some(a))
  }

  /** The wire without the truncation that may end it. */
  function Told(w: seq<Event>): seq<Event> {
    if w != [] && w[|w| - 1].Truncated? then w[..|w| - 1] else w
  }

  ghost predicate Story(cfg: Config, s: Stream) {
    && Retells(cfg, Told(s.wire), s.past, s.cur)
    && (!s.pc.Finished? ==> Told(s.wire) == s.wire)
  }

  // ---- Each step keeps the story ----

  lemma RetellsSame(cfg: Config, w: seq<Event>, past: seq<Attempt>, a: Attempt, b: Attempt)
    requires Retells(cfg, w, past, Some(a)) && b.provider == a.provider && Contents(b.frames) == Contents(a.frames)
    ensures Retells(cfg, w, past, Some(b))
  {
  }

  lemma ContentsAppend(f: seq<Frame>, x: Frame)
    ensures Contents(f + [x]) == Contents(f) + (if x.Text? then [Content(x.text)] else [])
  {
    assert (f + [x])[..|f|] == f;
  }

  lemma TailGrows(w: seq<Event>, n: nat, a: seq<Event>, b: seq<Event>, e: Event)
    requires n <= |w| && w[n..] == a + b
    ensures (w + [e])[n..] == a + (b + [e])
    ensures forall k :: 0 <= k <= n ==> (w + [e])[..k] == w[..k]
  {
    assert (w + [e])[n..] == w[n..] + [e];
  }

  lemma RetellsUnfold(cfg: Config, w: seq<Event>, past: seq<Attempt>, cur: Option<Attempt>, n: nat)
    requires past != [] && n == |w| - |Said(cur)| - 2
    ensures Retells(cfg, w, past, cur) <==>
      var a := past[|past| - 1];
      && w[n + 1..] == [Regenerating] + Said(cur)
      && Announces(cfg, w[n], a, |past|) && Later(cfg, w[n].to, a.provider)
      && Retells(cfg, w[..n], past[..|past| - 1], Some(a))
  {
  }

  lemma RetellsText(cfg: Config, w: seq<Event>, past: seq<Attempt>, a: Attempt, b: Attempt, text: string)
    requires Retells(cfg, w, past, Some(a)) && b.provider == a.provider
    requires Contents(b.frames) == Contents(a.frames) + [Content(text)]
    ensures Retells(cfg, w + [Content(text)], past, Some(b))
  {
    hide Contents, Announces, Later;
    var v := w + [Content(text)];
    var said, more := Said(Some(a)), Said(Some(b));
    if past == [] {
      assert v == [Status(cfg.names[a.provider])] + more;
    } else {
      var n := |w| - |said| - 2;
      assert n >= 0;
      hide Retells;
      RetellsUnfold(cfg, w, past, Some(a), n);
      TailGrows(w, n + 1, [Regenerating], said, Content(text));
      RetellsUnfold(cfg, v, past, Some(b), n);
    }
  }

  lemma RetellsStart(cfg: Config, s: Stream, i: nat)
    requires i < |cfg.names| && s.cur.None? && Retells(cfg, s.wire, s.past, None)
    ensures var s' := StartAttempt(cfg, s, i); Retells(cfg, s'.wire, s'.past, s'.cur)
  {
    assert Contents([]) == [];
    var s' := StartAttempt(cfg, s, i);
    if s.past == [] {
      assert s'.wire == [Status(cfg.names[i])] + [];
    }
  }

  lemma RetellsFailover(cfg: Config, w: seq<Event>, past: seq<Attempt>, a: Attempt, e: Event)
    requires Retells(cfg, w, past, Some(a)) && Announces(cfg, e, a, |past| + 1) && Later(cfg, e.to, a.provider)
    ensures Retells(cfg, w + [e] + [Regenerating], past + [a], None)
  {
    hide Announces, Later, Retells;
    var v, more := w + [e] + [Regenerating], past + [a];
    assert v[..|w|] == w && v[|w| + 1..] == [Regenerating] + Said(None);
    assert more[..|past|] == past;
    RetellsUnfold(cfg, v, more, None, |w|);
  }

  lemma AnnounceKeepsStory(cfg: Config, s: Stream, to: nat)
    requires Inv(cfg, s) && Story(cfg, s) && s.pc.Releasing? && s.pc.to == to
    requires Replaceable(cfg, s, to)
    ensures Story(cfg, Announce(cfg, s, to))
  {
    hide OpenWire, Log, Failovers, FailoverTokens, Money, Retells, Count;
    var a := s.cur.value;
    var e := Failover(a.outcome.reason, a.tokens, cfg.names[a.provider], cfg.names[to], s.failovers + 1);
    assert Later(cfg, e.to, a.provider);
    RetellsFailover(cfg, s.wire, s.past, a, e);
  }

  lemma ReleaseKeepsStory(cfg: Config, sh: Shared, s: Stream)
    requires Inv(cfg, s) && Story(cfg, s) && s.pc.Releasing?
    ensures Story(cfg, OnRelease(cfg, sh, s, s.pc.to, s.pc.c).1)
  {
    hide OpenWire, Log, Failovers, FailoverTokens, Money, Retells, Count, Announce;
    AnnounceKeepsStory(cfg, s, s.pc.to);
    AnnounceIgnoresReleased(cfg, s, s.pc.to);
  }

  lemma AnnounceIgnoresReleased(cfg: Config, s: Stream, to: nat)
    requires Replaceable(cfg, s, to)
    ensures var s' := Announce(cfg, s.(released := s.released + s.Tokens()), to);
      var s'' := Announce(cfg, s, to);
      s'.wire == s''.wire && s'.past == s''.past && s'.cur == s''.cur && s'.pc == s''.pc
  {
  }

  lemma ReadKeepsStory(cfg: Config, s: Stream, x: Input)
    requires Shape(cfg, s) && Story(cfg, s) && s.pc.Reading?
    ensures Story(cfg, OnInput(s, x))
  {
    hide Retells, Contents;
    if x.Receive? {
      ContentsAppend(s.cur.value.frames, x.frame);
    }
    var s' := OnInput(s, x);
    RetellsSame(cfg, s.wire, s.past, s.cur.value, s'.cur.value);
  }

  lemma ReserveKeepsStory(cfg: Config, sh: Shared, s: Stream)
    requires Shape(cfg, s) && Story(cfg, s) && s.pc.Reserving?
    ensures Story(cfg, OnReserve(cfg, sh, s, s.pc.want, s.pc.c).1)
  {
    hide Retells, Contents;
    if s.pc.want.Correct? {
      ContentsAppend(s.cur.value.frames, Usage(s.pc.want.k));
    }
    var s' := OnReserve(cfg, sh, s, s.pc.want, s.pc.c).1;
    RetellsSame(cfg, s.wire, s.past, s.cur.value, s'.cur.value);
  }

  lemma WriteKeepsStory(cfg: Config, s: Stream, x: Input)
    requires Shape(cfg, s) && Story(cfg, s) && s.pc.Writing?
    ensures Story(cfg, OnWrite(s, s.pc.text, s.pc.n, x))
  {
    hide Retells, Contents;
    var s' := OnWrite(s, s.pc.text, s.pc.n, x);
    if x.WriteOk? {
      ContentsAppend(s.cur.value.frames, Text(s.pc.text, s.pc.n));
      RetellsText(cfg, s.wire, s.past, s.cur.value, s'.cur.value, s.pc.text);
    } else {
      RetellsSame(cfg, s.wire, s.past, s.cur.value, s'.cur.value);
    }
  }

  lemma ChooseKeepsStory(cfg: Config, sh: Shared, s: Stream)
    requires Matches(cfg, sh) && Shape(cfg, s) && Story(cfg, s) && s.pc.Choosing?
    ensures Story(cfg, OnChoose(cfg, sh, s, s.pc.i, s.pc.hop).1)
  {
    hide Retells;
    if s.pc.i < |cfg.names| {
      RetellsStart(cfg, s, s.pc.i);
    }
  }

  lemma SettleKeepsStory(cfg: Config, sh: Shared, s: Stream)
    requires Shape(cfg, s) && Story(cfg, s) && s.pc.Settling?
    ensures Story(cfg, OnSettle(cfg, sh, s, s.pc.how).1)
  {
    hide Retells;
    var s' := OnSettle(cfg, sh, s, s.pc.how).1;
    assert Told(s'.wire) == s.wire;
  }

  lemma QuietKeepsStory(cfg: Config, sh: Shared, s: Stream, x: Input)
    requires Matches(cfg, sh) && Shape(cfg, s) && Story(cfg, s)
    requires s.pc.Recording? || s.pc.Searching? || s.pc.Claiming? || s.pc.Finished?
    ensures Story(cfg, Next(cfg, sh, s, x).1)
  {
    hide Retells;
  }

  lemma NextKeepsStory(cfg: Config, sh: Shared, s: Stream, x: Input)
    requires Matches(cfg, sh) && Inv(cfg, s) && Story(cfg, s)
    ensures Shape(cfg, s) && Story(cfg, Next(cfg, sh, s, x).1)
  {
    hide Inv, Story, OnRelease, OnSettle, OnChoose, OnWrite, OnReserve, OnInput;
    InvShape(cfg, s);
    match s.pc
    case Choosing(_, _) => ChooseKeepsStory(cfg, sh, s);
    case Reading => ReadKeepsStory(cfg, s, x);
    case Reserving(_, _) => ReserveKeepsStory(cfg, sh, s);
    case Writing(_, _) => WriteKeepsStory(cfg, s, x);
    case Releasing(_, _) => ReleaseKeepsStory(cfg, sh, s);
    case Settling(_) => SettleKeepsStory(cfg, sh, s);
    case _ => QuietKeepsStory(cfg, sh, s, x);
  }

  // ---- Whole runs ----

  ghost predicate AllStories(cfg: Config, y: Sys) {
    forall i :: 0 <= i < |y.streams| ==> Story(cfg, y.streams[i])
  }

  lemma NewStory(cfg: Config, s: Stream)
    requires s == NewStream()
    ensures Story(cfg, s)
  {
  }

  lemma StepKeepsStories(cfg: Config, y: Sys, l: Label)
    requires WF(cfg, y) && AllStories(cfg, y)
    ensures AllStories(cfg, Step(cfg, y, l))
  {
    hide Inv, Next, Story;
    NewStory(cfg, NewStream());
    if l.Run? && l.id < |y.streams| && StepOk(y.sh, y.streams[l.id], l.x) {
      NextKeepsStory(cfg, y.sh, y.streams[l.id], l.x);
    }
  }

  lemma {:induction false} StoriesHold(cfg: Config, t0: int, ls: seq<Label>)
    requires cfg.Valid()
    ensures AllStories(cfg, Exec(cfg, t0, ls))
  {
    hide Inv, Step, Story;
    if ls != [] {
      StoriesHold(cfg, t0, ls[..|ls| - 1]);
      StepKeepsStories(cfg, Exec(cfg, t0, ls[..|ls| - 1]), ls[|ls| - 1]);
    }
  }

  /** Under any interference the wire of every stream is exactly the story of its attempts, with at
      most a truncation after it, and that only at the end. */
  lemma WireRetellsAttempts(cfg: Config, t0: int, ls: seq<Label>, i: nat)
    requires cfg.Valid() && i < |Exec(cfg, t0, ls).streams|
    ensures var s := Exec(cfg, t0, ls).streams[i];
      && Retells(cfg, Told(s.wire), s.past, s.cur)
      && (!s.pc.Finished? ==> Told(s.wire) == s.wire)
  {
    hide Inv, Exec, Retells;
    StoriesHold(cfg, t0, ls);
  }

  /** Without an attempt there is nothing to tell. */
  lemma NoStory(cfg: Config, w: seq<Event>)
    requires Retells(cfg, w, [], None)
    ensures w == []
  {
  }

  /** A story starts with the status naming the provider of the first attempt. */
  lemma {:induction false} StatusNamesFirst(cfg: Config, w: seq<Event>, past: seq<Attempt>, cur: Option<Attempt>)
    requires Retells(cfg, w, past, cur) && (past != [] || cur.Some?)
    ensures w != []
    ensures var first := if past == [] then cur.value else past[0];
      first.provider < |cfg.names| && w[0] == Status(cfg.names[first.provider])
    decreases |past|
  {
    if past != [] {
      var n := |w| - |Said(cur)| - 2;
      StatusNamesFirst(cfg, w[..n], past[..|past| - 1], Some(past[|past| - 1]));
    }
  }
}
