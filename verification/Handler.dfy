/** The request handler as the loops it is: one request, undisturbed, from its first provider to its
    settlement.  Every run of the loops is a run of the step system, so all that holds of the
    streams of the system holds of the handler. */
module Handler {
  import opened Options
  import opened Protocol
  import opened Gateway
  import opened Accounting
  import opened System
  import Hop
  import Breaker
  import Budget
  import Ledger
  import RateLimit
  import Cascade
  import Sse

  // ---- A request as a run of the step system ----

  /** A state of the step system whose only active stream is `s`. */
  ghost predicate Sound(cfg: Config, sh: Shared, s: Stream) {
    && cfg.Valid() && Matches(cfg, sh) && Inv(cfg, s) && Budget.InBounds(cfg.budget, sh.used)
    && Hop.HopInv(cfg, sh, s)
  }

  lemma NextKeepsSound(cfg: Config, sh: Shared, s: Stream, x: Input)
    requires Sound(cfg, sh, s) && StepOk(sh, s, x)
    ensures Matches(cfg, sh) && Shape(cfg, s)
    ensures var n := Next(cfg, sh, s, x); Sound(cfg, n.0, n.1)
  {
    hide Inv, Next, Hop.HopInv;
    InvShape(cfg, s);
    NextKeepsInv(cfg, sh, s, x);
    Hop.NextKeepsHop(cfg, sh, s, x);
  }

  /** The steps of one stream on the inputs `tr`, nobody else acting. */
  ghost function Follow(cfg: Config, sh: Shared, s: Stream, tr: seq<Input>): (r: (Shared, Stream))
    requires Sound(cfg, sh, s)
    ensures Sound(cfg, r.0, r.1)
  {
    if tr == [] then (sh, s)
    else
      var m := Follow(cfg, sh, s, tr[..|tr| - 1]);
      var x := tr[|tr| - 1];
      if StepOk(m.0, m.1, x) then
        NextKeepsSound(cfg, m.0, m.1, x);
        Next(cfg, m.0, m.1, x)
      else m
  }

  lemma FollowSnoc(cfg: Config, sh: Shared, s: Stream, tr: seq<Input>, x: Input)
    requires Sound(cfg, sh, s)
    ensures var m := Follow(cfg, sh, s, tr);
      && Matches(cfg, m.0) && Shape(cfg, m.1)
      && Follow(cfg, sh, s, tr + [x]) == if StepOk(m.0, m.1, x) then Next(cfg, m.0, m.1, x) else m
  {
    hide Inv, Next, Hop.HopInv;
    assert (tr + [x])[..|tr|] == tr;
    InvShape(cfg, Follow(cfg, sh, s, tr).1);
  }

  lemma FollowNothing(cfg: Config, sh: Shared, s: Stream)
    requires cfg.Valid() && Matches(cfg, sh) && Budget.InBounds(cfg.budget, sh.used) && s == NewStream()
    ensures Shape(cfg, s) && Sound(cfg, sh, s) && Follow(cfg, sh, s, []) == (sh, s)
  {
    hide Inv;
    NewStreamInv(cfg, s);
    InvShape(cfg, s);
  }

  function Runs(id: nat, tr: seq<Input>): seq<Label> {
    seq(|tr|, i requires 0 <= i < |tr| => Run(id, tr[i]))
  }

  /** Following a stream of a reachable state reaches a reachable state. */
  lemma {:induction false} FollowIsExec(cfg: Config, t0: int, ls: seq<Label>, id: nat, tr: seq<Input>)
    requires cfg.Valid() && id < |Exec(cfg, t0, ls).streams|
    requires var y := Exec(cfg, t0, ls); Sound(cfg, y.sh, y.streams[id])
    ensures var y := Exec(cfg, t0, ls); var m := Follow(cfg, y.sh, y.streams[id], tr);
      Exec(cfg, t0, ls + Runs(id, tr)) == y.(sh := m.0, streams := y.streams[id := m.1])
  {
    hide Inv, Next, Hop.HopInv, Sound, Exec, Follow;
    var y := Exec(cfg, t0, ls);
    if tr == [] {
      FollowEmpty(cfg, y.sh, y.streams[id]);
      assert ls + Runs(id, tr) == ls && y.streams[id := y.streams[id]] == y.streams;
    } else {
      var init, x := tr[..|tr| - 1], tr[|tr| - 1];
      FollowIsExec(cfg, t0, ls, id, init);
      assert tr == init + [x];
      FollowSnoc(cfg, y.sh, y.streams[id], init, x);
      assert ls + Runs(id, tr) == ls + Runs(id, init) + [Run(id, x)];
      RunOne(cfg, t0, ls + Runs(id, init), id, x);
    }
  }

  lemma FollowEmpty(cfg: Config, sh: Shared, s: Stream)
    requires Sound(cfg, sh, s)
    ensures Follow(cfg, sh, s, []) == (sh, s)
  {
  }

  /** A request handled alone, starting in any reachable state whose budget is not exhausted and whose
      limiter admits it, leads to a reachable state with its stream added: all that is proved of the
      system's streams holds of the handler's. */
  lemma HandledRequestIsARun(cfg: Config, t0: int, ls: seq<Label>, s: Stream, tr: seq<Input>)
    requires cfg.Valid() && s == NewStream()
    requires var sh := Exec(cfg, t0, ls).sh; sh.used < cfg.budget && Admits(cfg, sh)
    ensures var y := Exec(cfg, t0, ls); Sound(cfg, Admitted(cfg, y.sh), s)
    ensures var y := Exec(cfg, t0, ls); var m := Follow(cfg, Admitted(cfg, y.sh), s, tr);
      Exec(cfg, t0, ls + [Enter] + [Spawn] + Runs(|y.streams|, tr)) == y.(sh := m.0, streams := y.streams + [m.1])
  {
    hide Inv, Next, Hop.HopInv, Sound, Exec, Admits;
    var y := Exec(cfg, t0, ls);
    FollowNothing(cfg, Admitted(cfg, y.sh), s);
    ExecSnoc(cfg, t0, ls, Enter);
    ExecSnoc(cfg, t0, ls + [Enter], Spawn);
    var z := Exec(cfg, t0, ls + [Enter] + [Spawn]);
    assert z == y.(sh := Admitted(cfg, y.sh), streams := y.streams + [s]);
    FollowIsExec(cfg, t0, ls + [Enter] + [Spawn], |y.streams|, tr);
    var m := Follow(cfg, Admitted(cfg, y.sh), s, tr);
    assert z.streams[|y.streams| := m.1] == y.streams + [m.1];
  }

  // ---- What the providers and the client will do ----

  /** One attempt as the outside world plays it: the frames the provider sends, how it ends if all are
      taken, and the frame whose write to the client fails, if one does. */
  datatype Play = Play(frames: seq<Frame>, end: Input, cut: Option<(nat, Outcome)>)
  {
    ghost predicate Ok() {
      && (forall i :: 0 <= i < |frames| && frames[i].Usage? ==> frames[i].k > 0)
      && (end.ReceiveDone? || (end.ReceiveError? && (end.how.Cancelled? || end.how.Shutdown? || end.how.Failed?)))
      && (cut.Some? ==> cut.value.1.Cancelled? || cut.value.1.Failed?)
    }

    /** Every single amount fits beside a full budget. */
    ghost predicate Small(budget: int) {
      forall i :: 0 <= i < |frames| ==> Size(frames[i]) <= Budget.MAX_INT64 - budget
    }

    /** The error of writing frame `i` to the client. */
    function Cut(i: nat): Option<Outcome> {
      if cut.Some? && cut.value.0 == i then Some(cut.value.1) else None
    }

    /** How the attempt ends when every frame is taken. */
    function Ending(): Outcome {
      if end.ReceiveError? then end.how else Success
    }
  }

  /** The most a frame can add to usage. */
  function Size(f: Frame): nat {
    match f
    case Text(_, n) => Charge(n)
    case Usage(k) => k
    case Control => 0
  }

  function Weight(fs: seq<Frame>, i: nat): nat
    decreases |fs| - i
  {
    if i >= |fs| then 0 else Size(fs[i]) + Weight(fs, i + 1)
  }

  lemma WeightStep(fs: seq<Frame>, i: nat)
    requires i < |fs|
    ensures Weight(fs, i) == Size(fs[i]) + Weight(fs, i + 1)
  {
  }

  function PlaysWeight(plays: seq<Play>, i: nat): nat
    decreases |plays| - i
  {
    if i >= |plays| then 0 else Weight(plays[i].frames, 0) + PlaysWeight(plays, i + 1)
  }

  /** The amounts of the plays from `i` on fit 64 bits: each beside a full budget, or all of them beside
      the usage so far. */
  ghost predicate Roomy(budget: int, used: int, plays: seq<Play>, i: nat) {
    || (forall j :: i <= j < |plays| ==> plays[j].Small(budget))
    || used + PlaysWeight(plays, i) <= Budget.MAX_INT64
  }

  /** Room for the play at `i`, and for those after it once no more than its weight is used. */
  lemma RoomyNext(budget: int, used: int, used': int, plays: seq<Play>, i: nat)
    requires i < |plays| && Roomy(budget, used, plays, i) && used' <= used + Weight(plays[i].frames, 0)
    ensures plays[i].Small(budget) || used + Weight(plays[i].frames, 0) <= Budget.MAX_INT64
    ensures Roomy(budget, used', plays, i + 1)
  {
    hide Weight;
  }

  /** The attempt took the frames of `play` in order, counted them, and ended early only because the budget or the
      client's connection ended it. */
  ghost predicate Played(play: Play, a: Attempt) {
    var k := |a.frames|;
    && k <= |play.frames| && a.frames == Taken(play.frames[..k]) && CountsTaken(play.frames[..k], a.tokens)
    && if k == |play.frames| then a.outcome == play.Ending()
       else a.outcome.OverBudget? || (play.frames[k].Text? && play.Cut(k) == Some(a.outcome))
  }

  function Taken(fs: seq<Frame>): seq<Frame> {
    seq(|fs|, i requires 0 <= i < |fs| => if fs[i].Text? then Text(fs[i].text, Charge(fs[i].n)) else fs[i])
  }

  lemma TakenSnoc(fs: seq<Frame>, i: nat)
    requires i < |fs|
    ensures Taken(fs[..i + 1]) == Taken(fs[..i]) + [if fs[i].Text? then Text(fs[i].text, Charge(fs[i].n)) else fs[i]]
  {
  }

  lemma TakenNone()
    ensures forall fs: seq<Frame> :: Taken(fs[..0]) == []
  {
  }

  /** The attempt ended after `k` frames of its play. */
  lemma PlayedAt(play: Play, a: Attempt, k: nat)
    requires k <= |play.frames| && a.frames == Taken(play.frames[..k]) && CountsTaken(play.frames[..k], a.tokens)
    requires
      if k == |play.frames| then a.outcome == play.Ending()
      else a.outcome.OverBudget? || (play.frames[k].Text? && play.Cut(k) == Some(a.outcome))
    ensures Played(play, a) && |a.frames| == k
  {
  }

  /** The tokens a frame needs on top of the `tokens` counted so far. */
  function Needs(f: Frame, tokens: nat): int {
    match f
    case Text(_, n) => Charge(n)
    case Usage(k) => k - tokens
    case Control => 0
  }

  // ---- What an attempt counts, from the tokenizer's own counts ----

  /** The tokenizer's counts of the texts. */
  function Tokenized(fs: seq<Frame>): nat {
    if fs == [] then 0 else Tokenized(fs[..|fs| - 1]) + (if fs[|fs| - 1].Text? then fs[|fs| - 1].n else 0)
  }

  /** The texts that the tokenizer counts as empty. */
  function Uncounted(fs: seq<Frame>): nat {
    if fs == [] then 0
    else Uncounted(fs[..|fs| - 1]) + (if fs[|fs| - 1].Text? && fs[|fs| - 1].n == 0 then 1 else 0)
  }

  /** `u` is one past the last usage report, or zero if there is none. */
  ghost predicate AfterLastUsage(fs: seq<Frame>, u: int) {
    0 <= u <= |fs| && (u > 0 ==> fs[u - 1].Usage?) && forall j :: u <= j < |fs| ==> !fs[j].Usage?
  }

  lemma {:induction false} TakenText(fs: seq<Frame>)
    ensures TextSum(Taken(fs)) == Tokenized(fs) + Uncounted(fs)
  {
    if fs != [] {
      TakenText(fs[..|fs| - 1]);
      assert Taken(fs)[..|fs| - 1] == Taken(fs[..|fs| - 1]);
    }
  }

  lemma TakenCount(fs: seq<Frame>, u: nat)
    requires AfterLastUsage(fs, u)
    ensures Count(Taken(fs)) == (if u == 0 then 0 else fs[u - 1].k) + Tokenized(fs[u..]) + Uncounted(fs[u..])
  {
    CountIsLastUsagePlusText(Taken(fs), u);
    TakenText(fs[u..]);
    assert Taken(fs)[u..] == Taken(fs[u..]);
  }

  /** The count an attempt must report for the frames it took. */
  ghost predicate CountsTaken(fs: seq<Frame>, tokens: int) {
    forall u :: AfterLastUsage(fs, u) ==>
      tokens == (if u == 0 then 0 else fs[u - 1].k) + Tokenized(fs[u..]) + Uncounted(fs[u..])
  }

  lemma SoundCount(cfg: Config, sh: Shared, s: Stream, fs: seq<Frame>)
    requires Sound(cfg, sh, s) && s.cur.Some? && s.cur.value.frames == Taken(fs)
    ensures CountsTaken(fs, s.cur.value.tokens)
  {
    hide Log, OpenWire, Failovers, FailoverTokens, Money, Taken, Tokenized, Uncounted;
    forall u | AfterLastUsage(fs, u)
      ensures s.cur.value.tokens == (if u == 0 then 0 else fs[u - 1].k) + Tokenized(fs[u..]) + Uncounted(fs[u..])
    {
      TakenCount(fs, u);
    }
  }

  lemma EndsAt(cfg: Config, sh: Shared, s: Stream, play: Play, k: nat)
    requires Sound(cfg, sh, s) && s.cur.Some? && k <= |play.frames| && s.cur.value.frames == Taken(play.frames[..k])
    requires
      if k == |play.frames| then s.cur.value.outcome == play.Ending()
      else s.cur.value.outcome.OverBudget? || (play.frames[k].Text? && play.Cut(k) == Some(s.cur.value.outcome))
    ensures Played(play, s.cur.value) && |s.cur.value.frames| == k && CountsTaken(play.frames[..k], s.cur.value.tokens)
  {
    hide Sound, CountsTaken;
    SoundCount(cfg, sh, s, play.frames[..k]);
    PlayedAt(play, s.cur.value, k);
  }

  // ---- The session log ----

  /** How the session names an outcome. */
  function OutcomeName(o: Outcome): (name: string)
    ensures o.Success? ==> name == "success"
    ensures o.OverBudget? ==> name == "budget_exceeded"
    ensures o.Cancelled? ==> name == "client_cancelled"
    ensures o.Shutdown? ==> name == "shutdown"
    ensures o.Failed? ==> name == (if o.reason.Malformed? then "malformed" else if o.reason.SilentHang? then "silent_hang" else "dead_socket")
  {
    match o
    case Running => ""
    case Success => "success"
    case OverBudget => "budget_exceeded"
    case Cancelled => "client_cancelled"
    case Shutdown => "shutdown"
    case Failed(reason) => Sse.ReasonName(reason)
  }

  /** The log has one finished entry for each attempt, in order. */
  ghost predicate Logs(cfg: Config, es: seq<Cascade.ProviderAttempt>, attempts: seq<Attempt>) {
    && |es| == |attempts|
    && forall i :: 0 <= i < |es| ==> LogsOne(cfg, es[i], attempts[i])
  }

  ghost predicate LogsOne(cfg: Config, e: Cascade.ProviderAttempt, a: Attempt) {
    && a.provider < |cfg.names| && e.provider == cfg.names[a.provider]
    && e.outcome == OutcomeName(a.outcome) && e.endedAt.Some?
    && e.tokensDeliveredBeforeFailure == if a.outcome.Success? then 0 else a.tokens
  }

  /** One more attempt, on `provider`, is logged but not finished. */
  ghost predicate Opened(cfg: Config, es: seq<Cascade.ProviderAttempt>, past: seq<Attempt>, provider: string) {
    |es| == |past| + 1 && Logs(cfg, es[..|past|], past) && es[|past|].provider == provider
  }

  lemma LastLogged(cfg: Config, e: Cascade.ProviderAttempt, a: Attempt)
    requires a.provider < |cfg.names| && e.provider == cfg.names[a.provider] && e.endedAt.Some?
    requires e.outcome == OutcomeName(a.outcome)
    requires e.tokensDeliveredBeforeFailure == if a.outcome.Success? then 0 else a.tokens
    ensures LogsOne(cfg, e, a)
  {
  }

  lemma NothingLogged(cfg: Config, plays: seq<Play>)
    ensures Logs(cfg, [], []) && AllPlayed(plays, [])
  {
  }

  /** Every attempt took its provider's play. */
  ghost predicate AllPlayed(plays: seq<Play>, attempts: seq<Attempt>) {
    forall i :: 0 <= i < |attempts| ==> attempts[i].provider < |plays| && Played(plays[attempts[i].provider], attempts[i])
  }

  lemma PlayedOneMore(plays: seq<Play>, past: seq<Attempt>, a: Attempt)
    requires AllPlayed(plays, past) && a.provider < |plays| && Played(plays[a.provider], a)
    ensures AllPlayed(plays, past + [a])
  {
    hide Played;
  }

  /** The session's status at the end of a request. */
  function StatusOf(s: Stream): (r: Cascade.Status)
    ensures r.Complete? <==> s.cur.Some? && s.cur.value.outcome.Success?
    ensures r.ShutDown? <==> s.cur.Some? && s.cur.value.outcome.Shutdown?
    ensures r.Truncated? <==> (s.cur.Some? ==>
              !s.cur.value.outcome.Success? && !s.cur.value.outcome.Shutdown? && !s.cur.value.outcome.Cancelled?)
    ensures r.Streaming? ==> s.past == []
  {
    if s.cur.None? then Cascade.Truncated
    else
      match s.cur.value.outcome
      case Success => Cascade.Complete
      case Shutdown => Cascade.ShutDown
      case Cancelled => if s.past == [] then Cascade.Streaming else Cascade.FailingOver
      case _ => Cascade.Truncated
  }

  /** Nothing has happened on the stream. */
  predicate Untouched(s: Stream) {
    && s.pc == Choosing(0, None) && s.past == [] && s.cur.None? && s.wire == [] && s.total == 0
    && s.failovers == 0 && s.claimed == {} && s.settled == []
  }

  lemma SoundTokens(cfg: Config, sh: Shared, s: Stream)
    requires Sound(cfg, sh, s)
    ensures s.Tokens() <= Budget.MAX_INT64
  {
    hide OpenWire, Log, Failovers, FailoverTokens;
  }

  /** After the last provider no hop is under way: what was announced was attempted. */
  lemma NoHopLeft(cfg: Config, sh: Shared, s: Stream)
    requires Sound(cfg, sh, s) && s.pc.Choosing? && s.pc.i >= |cfg.names|
    ensures s.past == []
  {
    hide OpenWire, Log, Failovers, FailoverTokens, Money;
  }

  // ---- The handler ----

  /** One request: the writer, the session, and what it shares with others. */
  class Request {
    const cfg: Config
    const session: Cascade.Session
    var sh: Shared
    var wire: seq<Event>
    var total: int
    ghost const start: Shared
    ghost const origin: Stream
    ghost var g: Stream
    ghost var trace: seq<Input>

    /** With the shared state `was`, the steps `trace` lead here. */
    ghost predicate TracksAt(was: Shared)
      reads this`g, this`trace
    {
      && Matches(cfg, was) && Shape(cfg, g) && Budget.InBounds(cfg.budget, was.used)
      && Sound(cfg, start, origin) && Sound(cfg, was, g)
      && Follow(cfg, start, origin, trace) == (was, g)
    }

    ghost predicate Tracks()
      reads this`sh, this`g, this`trace
    {
      TracksAt(sh)
    }

    ghost predicate Mirrors()
      reads this`wire, this`total, this`g
    {
      wire == g.wire && total == g.total
    }

    constructor (cfg: Config, sh: Shared)
      requires cfg.Valid() && Matches(cfg, sh) && Budget.InBounds(cfg.budget, sh.used)
      ensures this.cfg == cfg && this.sh == this.start == sh && fresh(session)
      ensures Tracks() && Mirrors() && g == origin == NewStream() && Untouched(g) && trace == []
      ensures session.providerAttempts == [] && session.finalProvider == "" && session.finalAttemptTokens == 0
    {
      hide Sound, Follow, Shape;
      this.cfg, this.sh, this.start, this.origin := cfg, sh, sh, NewStream();
      session := new Cascade.Session();
      wire, total := [], 0;
      g, trace := NewStream(), [];
      new;
      FollowNothing(cfg, sh, g);
    }

    /** The code has done what the step on `x` does to the shared state. */
    ghost method Sync(was: Shared, x: Input)
      requires TracksAt(was) && StepOk(was, g, x) && sh == Next(cfg, was, g, x).0
      modifies this`g, this`trace
      ensures Tracks() && g == Next(cfg, was, old(g), x).1 && trace == old(trace) + [x]
    {
      hide Inv, Next, Hop.HopInv;
      NextKeepsSound(cfg, was, g, x);
      InvShape(cfg, Next(cfg, was, g, x).1);
      FollowSnoc(cfg, start, origin, trace, x);
      g, trace := Next(cfg, was, g, x).1, trace + [x];
    }

    /** The stream reads `x`. */
    ghost method Hear(x: Input)
      requires Tracks() && g.pc.Reading? && g.cur.Some? && InputOk(x)
      modifies this`g, this`trace
      ensures Tracks() && g == OnInput(old(g), x)
    {
      hide Sound, Follow, Inv, OnChoose, OnRecord, OnSearch, OnClaim, OnRelease, OnReserve, OnSettle, OnInput, OnWrite;
      Sync(sh, x);
    }

    /** The client's connection answers the write under way. */
    ghost method Hand(x: Input)
      requires Tracks() && g.pc.Writing? && g.cur.Some? && InputOk(x)
      modifies this`g, this`trace
      ensures Tracks() && g == OnWrite(old(g), old(g).pc.text, old(g).pc.n, x)
    {
      hide Sound, Follow, Inv, OnChoose, OnRecord, OnSearch, OnClaim, OnRelease, OnReserve, OnSettle, OnInput, OnWrite;
      Sync(sh, x);
    }

    /** `TryReserve` with nobody else at the cell: one load, one compare-and-swap. */
    method TryReserve(n: int) returns (ok: bool)
      requires Tracks() && g.pc.Reserving? && g.pc.c == Budget.Start
      requires 0 < n == Amount(g, g.pc.want) && sh.used + n <= Budget.MAX_INT64 && g.Tokens() + n <= Budget.MAX_INT64
      modifies this`sh, this`g, this`trace
      ensures Tracks()
      ensures ok <==> old(sh.used) + n <= cfg.budget
      ensures sh == old(sh).(used := old(sh.used) + if ok then n else 0)
      ensures !ok ==> g == End(old(g), OverBudget)
      ensures ok ==> g == old(g).(pc := Reserving(old(g).pc.want, Budget.Granted), reserved := old(g).reserved + n)
    {
      hide Sound, Follow, Inv;
      var used := sh.used;
      if Budget.Wrap64(used + n) > cfg.budget {
        Sync(sh, Quiet);
        return false;
      }
      Sync(sh, Quiet);
      ghost var was := sh;
      sh := sh.(used := Budget.Wrap64(used + n));
      Sync(was, Quiet);
      return true;
    }

    /** `Limiter.Add`, after a reservation was granted. */
    method Meter(n: int)
      requires Tracks() && g.pc.Reserving? && g.pc.c == Budget.Granted && g.cur.Some? && n == Amount(g, g.pc.want)
      modifies this`sh, this`g, this`trace
      ensures Tracks() && sh == old(sh).(meter := old(sh).meter + [RateLimit.AddCall(cfg.hash, n, old(sh).now)])
      ensures g == match old(g).pc.want case Deliver(text, m) => old(g).(pc := Writing(text, m)) case Correct(k) => CountUsage(old(g), k)
    {
      hide Sound, Follow, Inv;
      ghost var was := sh;
      sh := sh.(meter := sh.meter + [RateLimit.AddCall(cfg.hash, n, sh.now)]);
      Sync(was, Quiet);
    }

    /** The parts of the stream an attempt leaves alone. */
    ghost predicate SameElsewhere(s: Stream)
      reads this`g
    {
      g.past == s.past && g.failovers == s.failovers && g.claimed == s.claimed && g.settled == s.settled
    }

    /** A text frame: reserve, then write and count; `broken` is the error of the write. */
    method TakeText(text: string, count: nat, broken: Option<Outcome>) returns (err: Option<Outcome>)
      requires Tracks() && Mirrors() && g.pc.Reading? && g.cur.Some?
      requires sh.used + Charge(count) <= Budget.MAX_INT64 && g.cur.value.tokens <= sh.used
      requires broken.Some? ==> broken.value.Cancelled? || broken.value.Failed?
      modifies this`sh, this`g, this`trace, this`wire, this`total
      ensures Tracks() && Mirrors() && SameElsewhere(old(g)) && g.cur.Some?
      ensures sh == old(sh).(used := sh.used, meter := sh.meter)
      ensures var n := if count == 0 then 1 else count; sh.used <= old(sh.used) + n
      ensures var a := old(g).cur.value; var n := if count == 0 then 1 else count;
        match err
        case None =>
          && g.pc.Reading? && sh.used == old(sh.used) + n
          && g.cur.value == a.(frames := a.frames + [Text(text, n)], tokens := a.tokens + n)
        case Some(o) =>
          && g.pc.Recording? && g.cur.value == a.(outcome := o, lost := g.cur.value.lost)
          && ((o == OverBudget && old(sh.used) + n > cfg.budget && sh == old(sh)) || broken == err)
    {
      hide Sound, Follow, Next, Shape;
      var n := count;
      if n == 0 {
        n := 1;
      }
      Hear(Receive(Text(text, count)));
      var ok := TryReserve(n);
      if !ok {
        return Some(OverBudget);
      }
      Meter(n);
      if broken.Some? {
        Hand(WriteError(broken.value));
        return broken;
      }
      wire := wire + [Content(text)];
      Hand(WriteOk);
      total := total + n;
      return None;
    }

    /** A usage frame: reserve what it adds, then count it. */
    method TakeUsage(usage: nat, tokens: nat) returns (ok: bool)
      requires Tracks() && Mirrors() && g.pc.Reading? && g.cur.Some? && g.cur.value.tokens == tokens
      requires 0 < usage && sh.used + usage <= Budget.MAX_INT64 && g.cur.value.tokens <= sh.used
      modifies this`sh, this`g, this`trace, this`total
      ensures Tracks() && Mirrors() && SameElsewhere(old(g)) && g.cur.Some?
      ensures sh == old(sh).(used := sh.used, meter := sh.meter)
      ensures var a := old(g).cur.value; var delta := usage - a.tokens;
        if ok then
          && g.pc.Reading? && sh.used == old(sh.used) + (if delta > 0 then delta else 0)
          && g.cur.value == a.(frames := a.frames + [Usage(usage)], tokens := usage)
        else
          && g.pc.Recording? && g.cur.value == a.(outcome := OverBudget)
          && old(sh.used) + delta > cfg.budget && sh == old(sh)
    {
      hide Sound, Follow, Next, Shape;
      var delta := usage - tokens;
      Hear(Receive(Usage(usage)));
      if delta > 0 {
        ok := TryReserve(delta);
        if !ok {
          return;
        }
        Meter(delta);
      }
      total := total + delta;
      return true;
    }

    /** The attempt loop: takes frames until the provider ends, a reservation is refused or a write
        fails. */
    method RunAttempt(p: nat, play: Play) returns (tokens: int, err: Outcome)
      requires Tracks() && Mirrors() && play.Ok()
      requires play.Small(cfg.budget) || sh.used + Weight(play.frames, 0) <= Budget.MAX_INT64
      requires g.pc.Reading? && g.cur == Some(Attempt(p, [], 0, Running, 0))
      modifies this`sh, this`g, this`trace, this`wire, this`total
      ensures Tracks() && Mirrors() && SameElsewhere(old(g))
      ensures g.pc.Recording? && g.cur.Some? && g.cur.value.provider == p
      ensures tokens == g.cur.value.tokens && err == g.cur.value.outcome && !err.Running?
      ensures sh == old(sh).(used := sh.used, meter := sh.meter)
      ensures sh.used <= old(sh.used) + Weight(play.frames, 0)
      ensures Played(play, g.cur.value)
      ensures |g.cur.value.frames| <= |play.frames| && CountsTaken(play.frames[..|g.cur.value.frames|], tokens)
      ensures err == OverBudget ==> var k := |g.cur.value.frames|;
        k < |play.frames| && sh.used + Needs(play.frames[k], tokens) > cfg.budget
    {
      hide Sound, Follow, Next, Shape, Taken, Played, Weight, CountsTaken;
      TakenNone();
      tokens := 0;
      for i := 0 to |play.frames|
        invariant Tracks() && Mirrors() && SameElsewhere(old(g))
        invariant 0 <= tokens <= sh.used && sh == old(sh).(used := sh.used, meter := sh.meter)
        invariant sh.used + Weight(play.frames, i) <= old(sh.used) + Weight(play.frames, 0)
        invariant g.pc.Reading? && g.cur == Some(Attempt(p, Taken(play.frames[..i]), tokens, Running, 0))
      {
        TakenSnoc(play.frames, i);
        WeightStep(play.frames, i);
        match play.frames[i] {
          case Usage(usage) =>
            var ok := TakeUsage(usage, tokens);
            if !ok {
              EndsAt(cfg, sh, g, play, i);
              return tokens, OverBudget;
            }
            tokens := usage;
          case Control =>
            Hear(Receive(Control));
          case Text(text, count) =>
            var failed := TakeText(text, count, play.Cut(i));
            if failed.Some? {
              EndsAt(cfg, sh, g, play, i);
              return tokens, failed.value;
            }
            tokens := tokens + Charge(count);
        }
      }
      Hear(play.end);
      err := play.Ending();
      EndsAt(cfg, sh, g, play, |play.frames|);
    }

    /** Calls breaker `p`; the step of the stream must make the same call. */
    method CallOn(p: nat, call: Breaker.Call) returns (granted: bool)
      requires Matches(cfg, sh) && p < |cfg.names|
      modifies this`sh
      ensures (sh, granted) == CallBreaker(cfg, old(sh), p, call)
    {
      var r := CallBreaker(cfg, sh, p, call);
      sh := r.0;
      granted := r.1;
    }

    /** The search for the provider to announce. */
    method NextAttemptableProvider(start: nat, claimedProbes: set<nat>) returns (next: Option<nat>, claimed: set<nat>)
      requires Tracks() && g.pc == Searching(start) && start <= |cfg.names| && g.claimed == claimedProbes
      modifies this`sh, this`g, this`trace
      ensures Tracks() && g.claimed == claimed && g == old(g).(pc := g.pc, claimed := claimed)
      ensures next.None? ==> g.pc == Settling(Announced(AllProvidersExhausted))
      ensures next.Some? ==> start <= next.value < |cfg.names| && g.pc == Releasing(next.value, Budget.Start)
      ensures sh == old(sh).(breakers := sh.breakers, calls := sh.calls)
    {
      hide Sound, Follow, Shape, Inv;
      claimed := claimedProbes;
      for i := start to |cfg.names|
        invariant Tracks() && g.claimed == claimed && g == old(g).(pc := Searching(i), claimed := claimed)
        invariant sh == old(sh).(breakers := sh.breakers, calls := sh.calls)
      {
        ghost var was := sh;
        var _ := CallOn(i, Breaker.GetState);
        Sync(was, Quiet);
        match sh.breakers[i].state {
          case Closed =>
            return Some(i), claimed;
          case HalfOpen =>
            was := sh;
            var granted := CallOn(i, Breaker.TryClaimProbe);
            Sync(was, Quiet);
            if granted {
              claimed := claimed + {i};
              return Some(i), claimed;
            }
          case Open =>
        }
      }
      Sync(sh, Quiet);
      return None, claimed;
    }

    /** `Release` with nobody else at the cell. */
    method Release(n: int)
      requires Tracks() && g.pc.Releasing? && g.pc.c == Budget.Start && n == g.Tokens()
      requires Replaceable(cfg, g, g.pc.to)
      modifies this`sh, this`g, this`trace
      ensures Tracks() && sh == old(sh).(used := sh.used) && sh.used <= old(sh.used)
      ensures var a := old(g).cur.value; var to := old(g).pc.to;
        && g.pc == Choosing(a.provider + 1, Some(to)) && g.cur == None && g.past == old(g).past + [a]
        && g.claimed == old(g).claimed && g.failovers == old(g).failovers + 1 && g.total == old(g).total
        && g.wire == old(g).wire + [Failover(a.outcome.reason, n, cfg.names[a.provider], cfg.names[to], g.failovers)] + [Regenerating]
    {
      hide Sound, Follow, Shape, Inv;
      SoundTokens(cfg, sh, g);
      if n <= 0 {
        Sync(sh, Quiet);
        return;
      }
      var used := sh.used;
      Sync(sh, Quiet);
      var next := Budget.Wrap64(used - n);
      if next < 0 {
        next := 0;
      }
      ghost var was := sh;
      sh := sh.(used := next);
      Sync(was, Quiet);
    }

    /** Writes the ledger record that ends the stream. */
    method RecordTerminal(provider: string, tokens: int, truncated: bool)
      requires Tracks() && g.pc.Settling? && (g.cur.Some? ==> g.cur.value.provider < |cfg.names|)
      requires provider == FinalProvider(cfg, g) && tokens == g.Tokens()
      requires truncated == (g.pc.how.Announced? || g.pc.how.truncated)
      modifies this`sh, this`g, this`trace
      ensures Tracks() && g.pc.Finished? && g.past == old(g).past && g.cur == old(g).cur && g.total == old(g).total
      ensures g.wire == old(g).wire + (if old(g).pc.how.Announced? then [Truncated(old(g).pc.how.why, g.total)] else [])
    {
      hide Sound, Follow, Shape, Inv;
      ghost var was := sh;
      sh := sh.(ledger := sh.ledger + [Ledger.Terminal(cfg.hash, provider, sh.now, tokens, truncated)]);
      Sync(was, Quiet);
    }

    /** Where the handler goes once the result of an attempt on `p` was handed on. */
    ghost predicate Reported(p: nat, err: Outcome)
      reads this`g
    {
      match err
      case Success => g.pc == Settling(Plain(false))
      case Shutdown => g.pc == Settling(Plain(true))
      case Cancelled => g.pc == Finished
      case OverBudget => g.pc == Settling(Announced(BudgetExceeded))
      case Failed(_) => g.pc == Searching(p + 1)
      case Running => false
    }

    /** Hands the result of the attempt to its breaker, if the breaker is told of such a result. */
    method Report(p: nat, err: Outcome)
      requires Tracks() && g.pc.Recording? && g.cur.Some? && g.cur.value.provider == p && g.cur.value.outcome == err
      requires p < |cfg.names| && !err.Running?
      modifies this`sh, this`g, this`trace
      ensures Tracks() && g == old(g).(pc := g.pc) && sh.used == old(sh.used)
      ensures Reported(p, err)
    {
      hide Sound, Follow, Shape, Inv;
      ghost var was := sh;
      if err.Success? || err.OverBudget? {
        var _ := CallOn(p, Breaker.RecordSuccess);
      } else if err.Failed? {
        var _ := CallOn(p, Breaker.RecordFailure);
      }
      Sync(was, Quiet);
    }

    /** Asks for admission to provider `i`. */
    method Admit(i: nat, claimedProbes: set<nat>) returns (allowed: bool, claimed: set<nat>)
      requires Tracks() && g.pc.Choosing? && g.pc.i == i < |cfg.names| && g.claimed == claimedProbes
      modifies this`sh, this`g, this`trace
      ensures Tracks() && g.claimed == claimed && sh.used == old(sh.used)
      ensures g.past == old(g).past && g.failovers == old(g).failovers && g.total == old(g).total
      ensures !allowed ==> g.pc == Choosing(i + 1, old(g).pc.hop) && g.cur == old(g).cur && g.wire == old(g).wire
      ensures allowed ==>
        && g.pc.Reading? && g.cur == Some(Attempt(i, [], 0, Running, 0))
        && g.wire == if old(g).Started() then old(g).wire else old(g).wire + [Status(cfg.names[i])]
    {
      hide Sound, Follow, Shape, Inv;
      ghost var was := sh;
      allowed, claimed := i in claimedProbes, claimedProbes;
      if allowed {
        claimed := claimed - {i};
      } else {
        allowed := CallOn(i, Breaker.AllowAttempt);
      }
      Sync(was, Quiet);
    }

    /** The step past the last provider. */
    ghost method NothingLeft()
      requires Tracks() && g.pc.Choosing? && g.cur.None? && g.pc.i >= |cfg.names|
      modifies this`g, this`trace
      ensures Tracks() && old(g).past == []
      ensures g == old(g).(pc := Settling(Announced(AllProvidersExhausted)))
    {
      hide Sound, Follow, Shape, Inv;
      NoHopLeft(cfg, sh, g);
      Sync(sh, Quiet);
    }

    /** Opens the log entry of an attempt on provider `i`. */
    method Open(i: nat) returns (index: int)
      requires i < |cfg.names| && Logs(cfg, session.providerAttempts, g.past)
      modifies session
      ensures Opened(cfg, session.providerAttempts, g.past, cfg.names[i]) && index == |g.past|
      ensures session.finalProvider == cfg.names[i] && session.status == old(session.status)
    {
      hide LogsOne;
      ghost var es := session.providerAttempts;
      index := session.StartAttempt(cfg.names[i], sh.now);
      session.finalProvider := cfg.names[i];
      assert session.providerAttempts[..|es|] == es;
    }

    /** Finishes it, as the attempt `a`. */
    method Finish(index: int, outcome: string, tokens: int, ghost a: Attempt)
      requires index == |g.past| && a.provider < |cfg.names| && outcome == OutcomeName(a.outcome)
      requires Opened(cfg, session.providerAttempts, g.past, cfg.names[a.provider])
      requires tokens == if a.outcome.Success? then 0 else a.tokens
      modifies session`providerAttempts
      ensures Logs(cfg, session.providerAttempts, g.past + [a])
    {
      hide LogsOne;
      ghost var es := session.providerAttempts;
      session.FinishAttempt(index, outcome, tokens, sh.now);
      assert forall i :: 0 <= i < |g.past| ==> es[i] == es[..|g.past|][i];
      LastLogged(cfg, session.providerAttempts[index], a);
    }

    /** An admitted attempt: log it, tell the client of the first one, run it and report it. */
    method RunOn(i: nat, play: Play, statusSent: bool) returns (index: int, tokens: int, err: Outcome)
      requires Tracks() && total == g.total && play.Ok()
      requires play.Small(cfg.budget) || sh.used + Weight(play.frames, 0) <= Budget.MAX_INT64
      requires i < |cfg.names| && g.pc.Reading? && g.cur == Some(Attempt(i, [], 0, Running, 0))
      requires g.wire == if statusSent then wire else wire + [Status(cfg.names[i])]
      requires Logs(cfg, session.providerAttempts, g.past)
      modifies this`sh, this`g, this`trace, this`wire, this`total, session
      ensures Tracks() && Mirrors() && SameElsewhere(old(g))
      ensures sh.used <= old(sh.used) + Weight(play.frames, 0)
      ensures g.cur.Some? && g.cur.value.provider == i && Played(play, g.cur.value)
      ensures tokens == g.cur.value.tokens && err == g.cur.value.outcome && Reported(i, err)
      ensures Opened(cfg, session.providerAttempts, g.past, cfg.names[i]) && index == |g.past|
      ensures session.finalProvider == cfg.names[i] && session.status == old(session.status)
      ensures session.finalAttemptTokens == tokens
    {
      hide Sound, Follow, Shape, Next, Played, Logs, Opened;
      index := Open(i);
      if !statusSent {
        wire := wire + [Status(cfg.names[i])];
      }
      tokens, err := RunAttempt(i, play);
      session.finalAttemptTokens := tokens;
      Report(i, err);
    }

    /** A failed attempt on provider `i`: it is replaced if another provider can be attempted. */
    method FailOver(i: nat, index: int, reason: FailoverReason, tokens: int, failovers: nat, claimedProbes: set<nat>)
      returns (replaced: bool, failovers': nat, claimed: set<nat>)
      requires Tracks() && Mirrors() && i < |cfg.names| && g.pc == Searching(i + 1)
      requires g.cur.Some? && g.cur.value.provider == i && g.cur.value.outcome == Failed(reason)
      requires tokens == g.cur.value.tokens && failovers == g.failovers && claimedProbes == g.claimed
      requires Opened(cfg, session.providerAttempts, g.past, cfg.names[i]) && index == |g.past|
      modifies this`sh, this`g, this`trace, this`wire, session`status, session`providerAttempts
      ensures sh.used <= old(sh.used)
      ensures Tracks() && Mirrors() && claimed == g.claimed && failovers' == g.failovers
      ensures session.status == Cascade.FailingOver && Logs(cfg, session.providerAttempts, old(g).Attempts())
      ensures replaced ==> g.pc.Choosing? && g.pc.i == i + 1 && g.cur == None && g.past == old(g).Attempts()
      ensures !replaced ==> g == old(g).(pc := Settling(Announced(AllProvidersExhausted)), claimed := claimed)
    {
      hide Sound, Follow, Shape, Next, Logs, Opened;
      session.status := Cascade.FailingOver;
      Finish(index, Sse.ReasonName(reason), tokens, g.cur.value);
      failovers' := failovers;
      var next;
      next, claimed := NextAttemptableProvider(i + 1, claimedProbes);
      if next.None? {
        return false, failovers', claimed;
      }
      failovers' := failovers' + 1;
      Release(tokens);
      wire := wire + [Failover(reason, tokens, cfg.names[i], cfg.names[next.value], failovers')];
      wire := wire + [Regenerating];
      replaced := true;
    }

    /** A result that ends the request without a truncation: success, shutdown, cancellation. */
    method Close(i: nat, index: int, tokens: int, err: Outcome) returns (closed: bool)
      requires Tracks() && Mirrors() && i < |cfg.names| && Reported(i, err) && session.finalProvider == cfg.names[i]
      requires g.cur.Some? && g.cur.value.provider == i && g.cur.value.outcome == err && tokens == g.cur.value.tokens
      requires Opened(cfg, session.providerAttempts, g.past, cfg.names[i]) && index == |g.past|
      requires session.status == if g.past == [] then Cascade.Streaming else Cascade.FailingOver
      modifies this`sh, this`g, this`trace, session`status, session`providerAttempts
      ensures closed <==> err.Success? || err.Shutdown? || err.Cancelled?
      ensures closed ==>
        && Tracks() && Mirrors() && g.pc.Finished? && g.Attempts() == old(g).Attempts() && g.Tokens() == old(g).Tokens()
        && Logs(cfg, session.providerAttempts, g.Attempts())
        && session.status == StatusOf(g) && session.finalProvider == FinalProvider(cfg, g)
      ensures !closed ==> unchanged(this) && unchanged(session)
    {
      hide Sound, Follow, Shape, Next, Logs, Opened;
      if err.Success? {
        session.status := Cascade.Complete;
        Finish(index, "success", 0, g.cur.value);
        RecordTerminal(cfg.names[i], tokens, false);
        return true;
      }
      if err.Shutdown? {
        session.status := Cascade.ShutDown;
        Finish(index, "shutdown", tokens, g.cur.value);
        RecordTerminal(cfg.names[i], tokens, true);
        return true;
      }
      if err.Cancelled? {
        Finish(index, "client_cancelled", tokens, g.cur.value);
        return true;
      }
      return false;
    }

    /** The budget ended the attempt: the request will be truncated. */
    method StopOverBudget(i: nat, index: int, tokens: int)
      requires i < |cfg.names| && g.cur.Some? && g.cur.value.provider == i && g.cur.value.outcome.OverBudget?
      requires tokens == g.cur.value.tokens
      requires Opened(cfg, session.providerAttempts, g.past, cfg.names[i]) && index == |g.past|
      modifies session`status, session`providerAttempts
      ensures session.status == Cascade.Truncated && Logs(cfg, session.providerAttempts, g.Attempts())
    {
      hide Logs, Opened;
      session.status := Cascade.Truncated;
      Finish(index, "budget_exceeded", tokens, g.cur.value);
    }

    /** After the loop: a request that gave up, or found no provider at all, is truncated. */
    method Conclude(attempted: int, truncated: bool, truncatedReason: TruncatedReason, finalAttemptTokens: int)
      requires Tracks() && Mirrors() && attempted == |g.Attempts()|
      requires truncated ==>
        && g.pc == Settling(Announced(truncatedReason)) && GaveUp(g) && g.cur.Some? && g.cur.value.provider < |cfg.names|
        && finalAttemptTokens == g.Tokens() && session.finalProvider == FinalProvider(cfg, g)
      requires !truncated ==>
        && g.pc.Choosing? && g.pc.i >= |cfg.names| && g.cur.None? && truncatedReason == AllProvidersExhausted
        && (g.past == [] ==> session.finalProvider == "" && finalAttemptTokens == 0)
      modifies this`sh, this`g, this`trace, this`wire, session`status
      ensures Tracks() && Mirrors() && g.pc.Finished? && g.Attempts() == old(g).Attempts() && g.Tokens() == old(g).Tokens()
      ensures session.status == StatusOf(g) && session.finalProvider == FinalProvider(cfg, g)
      ensures !truncated ==> old(g).past == []
    {
      hide Sound, Follow, Shape, Next;
      if !truncated {
        NothingLeft();
      }
      if attempted == 0 || truncated {
        session.status := Cascade.Truncated;
        wire := wire + [Truncated(truncatedReason, total)];
        RecordTerminal(session.finalProvider, finalAttemptTokens, true);
      }
    }

    /** The provider loop.  Whatever the providers and the client do and whatever state the breakers
        and the budget are in: the steps taken are those of the step system, from a new stream to a
        finished one; the client was sent the stream's wire; the session logs the stream's attempts;
        and each attempt took its provider's frames. */
    method HandleStream(plays: seq<Play>)
      requires Tracks() && Mirrors() && g == origin && Untouched(g)
      requires session.providerAttempts == [] && session.finalProvider == "" && session.finalAttemptTokens == 0
      requires |plays| == |cfg.names| && forall i :: 0 <= i < |plays| ==> plays[i].Ok()
      requires Roomy(cfg.budget, sh.used, plays, 0)
      modifies this, session
      ensures Tracks() && Mirrors() && g.pc.Finished?
      ensures Logs(cfg, session.providerAttempts, g.Attempts()) && AllPlayed(plays, g.Attempts())
      ensures session.status == StatusOf(g) && session.finalProvider == FinalProvider(cfg, g)
      ensures session.finalAttemptTokens == g.Tokens()
    {
      hide Tracks, Played, Logs, Opened, AllPlayed, StatusOf, Play.Ok, Play.Small, Weight, Roomy, PlaysWeight,
        OutcomeName;
      NothingLogged(cfg, plays);
      var finalAttemptTokens, attempted := 0, 0;
      var failovers: nat := 0;
      var statusSent, truncated := false, false;
      var truncatedReason := AllProvidersExhausted;
      var claimedProbes: set<nat> := {};
      session.status := Cascade.Streaming;
      var i := 0;
      while i < |cfg.names|
        invariant i <= |cfg.names| && Tracks() && Mirrors() && Roomy(cfg.budget, sh.used, plays, i)
        invariant g.pc.Choosing? && g.pc.i == i && g.cur == None && g.claimed == claimedProbes
        invariant failovers == g.failovers && attempted == |g.past| && (statusSent <==> g.past != [])
        invariant Logs(cfg, session.providerAttempts, g.past) && AllPlayed(plays, g.past)
        invariant !truncated && truncatedReason == AllProvidersExhausted
        invariant g.past == [] ==> session.finalAttemptTokens == 0
        invariant g.past == [] ==> session.status == Cascade.Streaming && session.finalProvider == "" && finalAttemptTokens == 0
        invariant g.past != [] ==> session.status == Cascade.FailingOver
        decreases |cfg.names| - i
      {
        ghost var used := sh.used;
        RoomyNext(cfg.budget, used, used, plays, i);
        var allowed;
        allowed, claimedProbes := Admit(i, claimedProbes);
        if !allowed {
          i := i + 1;
          continue;
        }
        attempted := attempted + 1;
        var index, tokens, err := RunOn(i, plays[i], statusSent);
        statusSent := true;
        finalAttemptTokens := tokens;
        PlayedOneMore(plays, g.past, g.cur.value);
        var closed := Close(i, index, tokens, err);
        if closed {
          return;
        }
        if err.OverBudget? {
          truncated := true;
          truncatedReason := BudgetExceeded;
          StopOverBudget(i, index, tokens);
          break;
        }
        var replaced;
        replaced, failovers, claimedProbes := FailOver(i, index, err.reason, tokens, failovers, claimedProbes);
        RoomyNext(cfg.budget, used, sh.used, plays, i);
        if replaced {
          i := i + 1;
          continue;
        }
        truncated := true;
        truncatedReason := AllProvidersExhausted;
        break;
      }
      Conclude(attempted, truncated, truncatedReason, finalAttemptTokens);
    }
  }

  /** What the handler did, seen from the system: a request that has been handled, whose start was a
      state in which a reachable system admits it, has taken the system to a reachable state in which
      its stream is the newest and the shared state is the one the handler left. */
  lemma HandlingIsARun(r: Request, t0: int, ls: seq<Label>)
    requires r.Tracks() && r.cfg.Valid() && r.origin == NewStream()
    requires var sh := Exec(r.cfg, t0, ls).sh; sh.used < r.cfg.budget && Admits(r.cfg, sh) && r.start == Admitted(r.cfg, sh)
    ensures var y := Exec(r.cfg, t0, ls);
      Exec(r.cfg, t0, ls + [Enter] + [Spawn] + Runs(|y.streams|, r.trace)) == y.(sh := r.sh, streams := y.streams + [r.g])
  {
    hide Inv, Exec, Sound, Follow, Shape;
    HandledRequestIsARun(r.cfg, t0, ls, r.origin, r.trace);
  }
}
