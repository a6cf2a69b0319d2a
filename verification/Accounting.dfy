/** What one stream keeps, whatever the rest of the system does: its wire grammar, its token counts
    and its books. */
module Accounting {
  import opened Options
  import opened Protocol
  import opened Gateway
  import Budget
  import Ledger

  // ---- Reference definitions ----

  /** The running token count of an attempt. */
  function Count(f: seq<Frame>): nat {
    if f == [] then 0
    else
      match f[|f| - 1]
      case Usage(k) => k
      case Text(_, n) => Count(f[..|f| - 1]) + n
      case Control => Count(f[..|f| - 1])
  }

  function TextSum(f: seq<Frame>): nat {
    if f == [] then 0
    else TextSum(f[..|f| - 1]) + (if f[|f| - 1].Text? then f[|f| - 1].n else 0)
  }

  /** The count is the last usage report plus the text after it, or all the text if there was no
      report: `u` is one past the last report. */
  lemma {:induction false} CountIsLastUsagePlusText(f: seq<Frame>, u: nat)
    requires u <= |f| && (u > 0 ==> f[u - 1].Usage?)
    requires forall j :: u <= j < |f| ==> !f[j].Usage?
    ensures Count(f) == (if u == 0 then 0 else f[u - 1].k) + TextSum(f[u..])
  {
    if |f| > u {
      CountIsLastUsagePlusText(f[..|f| - 1], u);
      assert f[u..][..|f| - 1 - u] == f[..|f| - 1][u..];
    }
  }

  /** By how much usage reports lowered the count below what had been reserved. */
  function Corrections(f: seq<Frame>): nat {
    if f == [] then 0
    else
      var before := Count(f[..|f| - 1]);
      var last := f[|f| - 1];
      Corrections(f[..|f| - 1]) + (if last.Usage? && last.k < before then before - last.k else 0)
  }

  /** Reservations of one attempt that are neither billed nor given back. */
  function Stranded(a: Attempt): nat {
    Corrections(a.frames) + a.lost + (if a.outcome.Cancelled? then Count(a.frames) else 0)
  }

  function Gap(attempts: seq<Attempt>): nat {
    if attempts == [] then 0
    else Gap(attempts[..|attempts| - 1]) + Stranded(attempts[|attempts| - 1])
  }

  function Failovers(w: seq<Event>): nat {
    if w == [] then 0
    else Failovers(w[..|w| - 1]) + (if w[|w| - 1].Failover? then 1 else 0)
  }

  function FailoverTokens(w: seq<Event>): int {
    if w == [] then 0
    else FailoverTokens(w[..|w| - 1]) + (if w[|w| - 1].Failover? then w[|w| - 1].tokens else 0)
  }

  function Billed(ts: seq<Ledger.Terminal>): int {
    if ts == [] then 0 else Billed(ts[..|ts| - 1]) + ts[|ts| - 1].tokens
  }

  function Net(s: Stream): int {
    s.reserved - s.released
  }

  function StreamBilled(s: Stream): int {
    Billed(s.settled)
  }

  /** Status Content* (Failover Regenerating Content*)*, failovers numbered 1, 2, 3, ... */
  predicate OpenWire(w: seq<Event>) {
    && w != []
    && var last := w[|w| - 1];
       match last
       case Status(_) => |w| == 1
       case Content(_) => OpenWire(w[..|w| - 1])
       case Regenerating =>
         && |w| >= 2
         && w[|w| - 2].Failover?
         && OpenWire(w[..|w| - 2])
         && w[|w| - 2].attempt == Failovers(w[..|w| - 2]) + 1
       case _ => false
  }

  /** What a client may have received at any moment of a stream. */
  predicate WireGrammar(w: seq<Event>) {
    || w == []
    || OpenWire(w)
    || (w[|w| - 1].Truncated? && (|w| == 1 || OpenWire(w[..|w| - 1])))
  }

  /** The same grammar, read off position by position. */
  ghost predicate Positional(w: seq<Event>) {
    && w != []
    && forall k :: 0 <= k < |w| ==> PositionOk(w, k)
  }

  ghost predicate PositionOk(w: seq<Event>, k: nat)
    requires k < |w|
  {
    match w[k]
    case Status(_) => k == 0
    case Content(_) => k > 0
    case Failover(_, _, _, _, attempt) =>
      k > 0 && k + 1 < |w| && w[k + 1].Regenerating? && attempt == Failovers(w[..k]) + 1
    case Regenerating => k > 0 && w[k - 1].Failover?
    case Truncated(_, _) => false
  }

  lemma {:induction false} OpenWireThenPositional(w: seq<Event>)
    requires OpenWire(w)
    ensures Positional(w)
  {
    var n := |w| - 1;
    var cut := if w[n].Regenerating? then n - 1 else n;
    if cut > 0 {
      OpenWireThenPositional(w[..cut]);
      PrefixOfPrefix(w, cut);
      forall k | 0 <= k < |w|
        ensures PositionOk(w, k)
      {
        if k < cut {
          assert PositionOk(w[..cut], k);
        }
      }
    }
  }

  lemma {:induction false} PositionalThenOpenWire(w: seq<Event>)
    requires Positional(w)
    ensures OpenWire(w)
  {
    var n := |w| - 1;
    assert PositionOk(w, n);
    if n > 0 {
      var cut := if w[n].Regenerating? then n - 1 else n;
      assert PositionOk(w, cut);
      PrefixOfPrefix(w, cut);
      forall k | 0 <= k < cut
        ensures PositionOk(w[..cut], k)
      {
        assert PositionOk(w, k);
      }
      PositionalThenOpenWire(w[..cut]);
    }
  }

  lemma PrefixOfPrefix(w: seq<Event>, cut: nat)
    requires cut <= |w|
    ensures forall k :: 0 <= k <= cut ==> w[..cut][..k] == w[..k]
  {
  }

  /** A stream that was not truncated: status exactly once and first, every failover preceded by
      output, numbered by its rank and immediately followed by its regenerating event. */
  lemma OpenWireIsPositional(w: seq<Event>)
    ensures OpenWire(w) <==> Positional(w)
  {
    if OpenWire(w) {
      OpenWireThenPositional(w);
    }
    if Positional(w) {
      PositionalThenOpenWire(w);
    }
  }

  // ---- Append laws ----

  lemma CountAppend(f: seq<Frame>, x: Frame)
    ensures Count(f + [x]) ==
            match x
            case Usage(k) => k
            case Text(_, n) => Count(f) + n
            case Control => Count(f)
  {
    assert (f + [x])[..|f|] == f;
  }

  lemma CorrectionsAppend(f: seq<Frame>, x: Frame)
    ensures Corrections(f + [x]) ==
            Corrections(f) + (if x.Usage? && x.k < Count(f) then Count(f) - x.k else 0)
  {
    assert (f + [x])[..|f|] == f;
  }

  lemma GapAppend(attempts: seq<Attempt>, a: Attempt)
    ensures Gap(attempts + [a]) == Gap(attempts) + Stranded(a)
  {
    assert (attempts + [a])[..|attempts|] == attempts;
  }

  lemma WireAppend(w: seq<Event>, e: Event)
    requires !e.Failover?
    ensures FailoverTokens(w + [e]) == FailoverTokens(w)
    ensures Failovers(w + [e]) == Failovers(w)
    ensures forall cfg, past :: Log(cfg, past, w) ==> Log(cfg, past, w + [e])
    ensures e.Content? && OpenWire(w) ==> OpenWire(w + [e])
    ensures e.Truncated? && (w == [] || OpenWire(w)) ==> WireGrammar(w + [e])
  {
    assert (w + [e])[..|w|] == w;
  }

  lemma WireAppendFailover(cfg: Config, past: seq<Attempt>, a: Attempt, w: seq<Event>, e: Event)
    requires OpenWire(w) && Log(cfg, past, w) && Announces(cfg, e, a, |past| + 1) && |past| == Failovers(w)
    ensures var w' := w + [e] + [Regenerating];
      && OpenWire(w') && Log(cfg, past + [a], w')
      && FailoverTokens(w') == FailoverTokens(w) + e.tokens
      && Failovers(w') == Failovers(w) + 1
  {
    var w' := w + [e];
    assert w'[..|w|] == w && (past + [a])[..|past|] == past;
    assert Log(cfg, past + [a], w');
    WireAppend(w', Regenerating);
    assert (w' + [Regenerating])[..|w|] == w;
  }

  lemma BilledAppend(ts: seq<Ledger.Terminal>, t: Ledger.Terminal)
    ensures Billed(ts + [t]) == Billed(ts) + t.tokens
  {
    assert (ts + [t])[..|ts|] == ts;
  }

  // ---- Invariants of one stream ----

  /** A superseded attempt and the failover event that announced it. */
  predicate Announces(cfg: Config, e: Event, a: Attempt, number: int) {
    && a.provider < |cfg.names| && e.Failover?
    && a.outcome == Failed(e.reason) && e.tokens == a.tokens == Count(a.frames)
    && e.from == cfg.names[a.provider] && e.attempt == number
  }

  /** The failover events on the wire announce the superseded attempts, one each and in order. */
  predicate Log(cfg: Config, past: seq<Attempt>, w: seq<Event>) {
    if w == [] then past == []
    else if !w[|w| - 1].Failover? then Log(cfg, past, w[..|w| - 1])
    else
      && past != []
      && Announces(cfg, w[|w| - 1], past[|past| - 1], |past|)
      && Log(cfg, past[..|past| - 1], w[..|w| - 1])
  }

  /** What the stream holds of the budget outside the gap: the tokens of its current attempt, and
      a reservation granted but not yet counted. */
  function Held(s: Stream): int {
    if s.cur.None? || s.pc.Finished? || s.cur.value.outcome.Cancelled? then 0
    else
      s.cur.value.tokens
      + (if s.pc.Writing? then s.pc.n else if s.pc.Reserving? && s.pc.c.Granted? then Amount(s, s.pc.want) else 0)
  }

  function StreamGap(s: Stream): int {
    Gap(s.past) + (if s.cur.Some? then Stranded(s.cur.value) else 0)
  }

  ghost predicate Money(cfg: Config, s: Stream) {
    && Net(s) == StreamGap(s) + Held(s) + Billed(s.settled)
    && (s.cur.Some? && s.cur.value.outcome.Running? ==> s.cur.value.lost == 0)
    && s.Tokens() <= Budget.MAX_INT64 && 0 <= cfg.budget
    && match s.pc
       case Writing(_, n) => s.Tokens() + n <= Budget.MAX_INT64
       case Reserving(want, c) =>
         && Amount(s, want) > 0 && Budget.Checked(cfg.budget, Amount(s, want), c)
         && (!c.Start? ==> s.Tokens() + Amount(s, want) <= Budget.MAX_INT64)
       case Releasing(_, c) => c.Loaded? ==> s.Tokens() > 0
       case _ => true
  }

  /** Streams that never reach the ledger: the client cancelled, or the provider announced as the
      replacement was not admitted after all. */
  predicate Unbilled(s: Stream) {
    if s.cur.None? then s.past != [] else s.cur.value.outcome.Cancelled?
  }

  /** The provider of the attempt that is not superseded; empty if none was attempted. */
  function FinalProvider(cfg: Config, s: Stream): string {
    if s.cur.Some? && s.cur.value.provider < |cfg.names| then cfg.names[s.cur.value.provider] else ""
  }

  /** The run ended because the budget ran out or no provider was left. */
  predicate GaveUp(s: Stream) {
    if s.cur.None? then s.past == [] else s.cur.value.outcome.OverBudget? || s.cur.value.outcome.Failed?
  }

  /** How a finished stream stands with the ledger and the client: what it was billed, to which
      provider, and whether and why the client was told of a truncation. */
  ghost predicate Closed(cfg: Config, s: Stream) {
    && s.wire != [] && WireGrammar(s.wire)
    && |s.settled| == (if Unbilled(s) then 0 else 1)
    && (s.settled != [] ==>
        && s.settled[0].hash == cfg.hash && s.settled[0].tokens == s.Tokens()
        && s.settled[0].provider == FinalProvider(cfg, s)
        && (s.settled[0].truncated <==> !(s.cur.Some? && s.cur.value.outcome.Success?)))
    && (s.cur.Some? ==> !s.cur.value.outcome.Running?)
    && (s.wire[|s.wire| - 1].Truncated? <==> GaveUp(s))
    && (GaveUp(s) ==>
        && s.wire[|s.wire| - 1].delivered == FailoverTokens(s.wire) + s.Tokens()
        && (s.wire[|s.wire| - 1].why.BudgetExceeded? <==> s.cur.Some? && s.cur.value.outcome.OverBudget?))
  }

  ghost predicate Inv(cfg: Config, s: Stream) {
    && Shape(cfg, s)
    && s.failovers == |s.past| == Failovers(s.wire) && Log(cfg, s.past, s.wire)
    && (s.cur.Some? ==> s.cur.value.tokens == Count(s.cur.value.frames))
    && s.total == FailoverTokens(s.wire) + s.Tokens()
    && Money(cfg, s)
    && if s.pc.Finished? then Closed(cfg, s)
       else s.settled == [] && if s.Started() then OpenWire(s.wire) else s.wire == []
  }

  lemma NewStreamInv(cfg: Config, s: Stream)
    requires s == NewStream() && 0 <= cfg.budget
    ensures Inv(cfg, s)
  {
    hide Inv;
    UntouchedInv(cfg, s, s.wire, s.past, s.settled);
  }

  lemma UntouchedInv(cfg: Config, s: Stream, w: seq<Event>, past: seq<Attempt>, settled: seq<Ledger.Terminal>)
    requires |w| == |past| == |settled| == 0 && 0 <= cfg.budget
    requires s == Stream(Choosing(0, None), past, None, w, 0, 0, {}, 0, 0, settled)
    ensures Inv(cfg, s)
  {
  }

  // ---- Each action keeps them ----

  lemma CountUsageKeepsInv(cfg: Config, s: Stream, k: nat)
    requires Inv(cfg, s) && k <= Budget.MAX_INT64
    requires (s.pc.Reading? && k <= s.Tokens()) || (s.pc.Reserving? && s.pc.want == Correct(k) && s.pc.c.Granted?)
    ensures Inv(cfg, CountUsage(s, k)) && Net(CountUsage(s, k)) == Net(s)
  {
    hide OpenWire, WireGrammar, Log, Failovers, FailoverTokens, Gap, Billed, Count, Corrections;
    CountAppend(s.cur.value.frames, Usage(k));
    CorrectionsAppend(s.cur.value.frames, Usage(k));
  }

  lemma InputKeepsInv(cfg: Config, s: Stream, x: Input)
    requires Inv(cfg, s) && s.pc.Reading? && InputOk(x)
    ensures var s' := OnInput(s, x); Inv(cfg, s') && Net(s') == Net(s) && s'.settled == s.settled
  {
    hide OpenWire, Log, Failovers, FailoverTokens, Count, Corrections, Gap, Billed;
    match x
    case Receive(Usage(k)) => if k <= s.Tokens() { CountUsageKeepsInv(cfg, s, k); }
    case Receive(Control) =>
      CountAppend(s.cur.value.frames, Control);
      CorrectionsAppend(s.cur.value.frames, Control);
    case _ =>
  }

  /** How one step moves the shared usage and the ledger: by exactly what the stream's own books
      say, except that a release stops at zero. */
  ghost predicate Posts(cfg: Config, sh: Shared, s: Stream, sh': Shared, s': Stream) {
    && Budget.InBounds(cfg.budget, sh'.used)
    && sh'.used == (if sh.used + Net(s') - Net(s) >= 0 then sh.used + Net(s') - Net(s) else 0)
    && s.settled <= s'.settled && sh'.ledger == sh.ledger + s'.settled[|s.settled|..]
  }

  lemma ReserveKeepsInv(cfg: Config, sh: Shared, s: Stream)
    requires Inv(cfg, s) && s.pc.Reserving? && LoadOk(sh, s) && Budget.InBounds(cfg.budget, sh.used)
    ensures var (sh', s') := OnReserve(cfg, sh, s, s.pc.want, s.pc.c);
      Inv(cfg, s') && Posts(cfg, sh, s, sh', s')
  {
    hide OpenWire, Log, Failovers, FailoverTokens, Count, Corrections, Gap, Billed;
    var n := Amount(s, s.pc.want);
    Budget.ReserveStepSound(cfg.budget, sh.used, n, s.pc.c);
    if s.pc.want.Correct? && s.pc.c.Granted? {
      CountUsageKeepsInv(cfg, s, s.pc.want.k);
    }
  }

  lemma WriteKeepsInv(cfg: Config, s: Stream, x: Input)
    requires Inv(cfg, s) && s.pc.Writing? && InputOk(x)
    ensures var s' := OnWrite(s, s.pc.text, s.pc.n, x); Inv(cfg, s') && Net(s') == Net(s) && s'.settled == s.settled
  {
    var f := Text(s.pc.text, s.pc.n);
    CountAppend(s.cur.value.frames, f);
    CorrectionsAppend(s.cur.value.frames, f);
    WireAppend(s.wire, Content(s.pc.text));
  }

  lemma StartKeepsInv(cfg: Config, s: Stream, s': Stream)
    requires Inv(cfg, s) && s.pc.Choosing? && s.pc.i < |cfg.names| && s' == StartAttempt(cfg, s, s.pc.i)
    ensures Inv(cfg, s') && Net(s') == Net(s) && s'.settled == s.settled
  {
    hide Log, Gap, Billed;
    assert s.cur.None?;
    if !s.Started() {
      WireAppend([], Status(cfg.names[s.pc.i]));
      assert s'.wire == [] + [Status(cfg.names[s.pc.i])];
    }
    assert Count([]) == 0 && Corrections([]) == 0;
    assert s'.cur == Some(Attempt(s.pc.i, [], 0, Running, 0));
    assert Stranded(s'.cur.value) == 0;
  }

  lemma ChooseKeepsInv(cfg: Config, sh: Shared, s: Stream)
    requires Inv(cfg, s) && s.pc.Choosing? && Matches(cfg, sh)
    ensures var (sh', s') := OnChoose(cfg, sh, s, s.pc.i, s.pc.hop);
      Inv(cfg, s') && sh'.used == sh.used && sh'.ledger == sh.ledger && Net(s') == Net(s) && s'.settled == s.settled
  {
    hide Log, Failovers, FailoverTokens, Count, Corrections, Gap, Billed, StartAttempt;
    ChooseKeepsShape(cfg, sh, s);
    if s.pc.i < |cfg.names| {
      StartKeepsInv(cfg, s, StartAttempt(cfg, s, s.pc.i));
    }
  }

  lemma RecordKeepsInv(cfg: Config, sh: Shared, s: Stream)
    requires Inv(cfg, s) && s.pc.Recording? && Matches(cfg, sh)
    ensures var (sh', s') := OnRecord(cfg, sh, s);
      Inv(cfg, s') && sh'.used == sh.used && sh'.ledger == sh.ledger && Net(s') == Net(s) && s'.settled == s.settled
  {
    hide Log, Failovers, FailoverTokens, Count, Corrections, Gap, Billed;
  }

  lemma HopKeepsInv(cfg: Config, sh: Shared, s: Stream)
    requires Inv(cfg, s) && (s.pc.Searching? || s.pc.Claiming?) && Matches(cfg, sh)
    ensures var (sh', s') := Next(cfg, sh, s, Quiet);
      Inv(cfg, s') && sh'.used == sh.used && sh'.ledger == sh.ledger && Net(s') == Net(s) && s'.settled == s.settled
  {
    hide OpenWire, Log, Failovers, FailoverTokens, Count, Corrections, Gap, Billed;
    HopKeepsShape(cfg, sh, s);
  }

  lemma AnnounceKeepsInv(cfg: Config, s: Stream, to: nat, s': Stream)
    requires Inv(cfg, s) && s.pc.Releasing? && s.pc.to == to
    requires s' == Announce(cfg, s.(released := s.released + s.Tokens()), to)
    ensures Inv(cfg, s') && Net(s') == Net(s) - s.Tokens() && s'.settled == s.settled
  {
    hide Count, Corrections, Billed;
    var a := s.cur.value;
    GapAppend(s.past, a);
    WireAppendFailover(cfg, s.past, a, s.wire,
      Failover(a.outcome.reason, a.tokens, cfg.names[a.provider], cfg.names[to], s.failovers + 1));
  }

  lemma ReleaseKeepsInv(cfg: Config, sh: Shared, s: Stream)
    requires Inv(cfg, s) && s.pc.Releasing? && Budget.InBounds(cfg.budget, sh.used)
    ensures var (sh', s') := OnRelease(cfg, sh, s, s.pc.to, s.pc.c); Inv(cfg, s') && Posts(cfg, sh, s, sh', s')
  {
    hide OpenWire, Log, Failovers, FailoverTokens, Count, Corrections, Gap, Billed, Announce;
    Budget.ReleaseStepSound(cfg.budget, sh.used, s.Tokens(), s.pc.c);
    AnnounceKeepsInv(cfg, s, s.pc.to, Announce(cfg, s.(released := s.released + s.Tokens()), s.pc.to));
  }

  lemma SettleClosesPlain(cfg: Config, sh: Shared, s: Stream)
    requires Inv(cfg, s) && s.pc.Settling? && s.pc.how.Plain?
    ensures Closed(cfg, OnSettle(cfg, sh, s, s.pc.how).1)
  {
    hide Log, Money, Failovers, FailoverTokens;
  }

  lemma SettleClosesAnnounced(cfg: Config, sh: Shared, s: Stream)
    requires Inv(cfg, s) && s.pc.Settling? && s.pc.how.Announced?
    ensures Closed(cfg, OnSettle(cfg, sh, s, s.pc.how).1)
  {
    hide Log, Money, Failovers, FailoverTokens, OpenWire, WireGrammar;
    WireAppend(s.wire, Truncated(s.pc.how.why, s.total));
  }

  lemma SettleKeepsInv(cfg: Config, sh: Shared, s: Stream)
    requires Inv(cfg, s) && s.pc.Settling? && Budget.InBounds(cfg.budget, sh.used) && cfg.Valid()
    ensures var (sh', s') := OnSettle(cfg, sh, s, s.pc.how); Inv(cfg, s') && Posts(cfg, sh, s, sh', s')
  {
    hide Log, Failovers, FailoverTokens, Gap, Billed, Count, Corrections, OpenWire, Closed;
    var (sh', s') := OnSettle(cfg, sh, s, s.pc.how);
    BilledAppend(s.settled, s'.settled[0]);
    if s.pc.how.Announced? {
      SettleClosesAnnounced(cfg, sh, s);
      WireAppend(s.wire, Truncated(s.pc.how.why, s.total));
    } else {
      SettleClosesPlain(cfg, sh, s);
    }
  }

  lemma InvShape(cfg: Config, s: Stream)
    requires Inv(cfg, s)
    ensures Shape(cfg, s)
  {
  }

  /** Every step of a stream keeps its invariant and posts to the shared state what its books say. */
  lemma NextKeepsInv(cfg: Config, sh: Shared, s: Stream, x: Input)
    requires cfg.Valid() && Matches(cfg, sh) && Inv(cfg, s) && StepOk(sh, s, x) && Budget.InBounds(cfg.budget, sh.used)
    ensures Shape(cfg, s)
    ensures var (sh', s') := Next(cfg, sh, s, x);
      Matches(cfg, sh') && Inv(cfg, s') && Posts(cfg, sh, s, sh', s')
  {
    hide Inv;
    InvShape(cfg, s);
    NextKeepsShape(cfg, sh, s, x);
    match s.pc
    case Choosing(_, _) => ChooseKeepsInv(cfg, sh, s);
    case Reading => InputKeepsInv(cfg, s, x);
    case Reserving(_, _) => ReserveKeepsInv(cfg, sh, s);
    case Writing(_, _) => WriteKeepsInv(cfg, s, x);
    case Recording => RecordKeepsInv(cfg, sh, s);
    case Searching(_) => HopKeepsInv(cfg, sh, s);
    case Claiming(_) => HopKeepsInv(cfg, sh, s);
    case Releasing(_, _) => ReleaseKeepsInv(cfg, sh, s);
    case Settling(_) => SettleKeepsInv(cfg, sh, s);
    case Finished =>
  }

  // ---- Consequences for one stream ----

  /** The stream's net reservation covers its bill and its gap, exactly so once it has finished; and
      a release under way is covered too. */
  lemma NetCovers(cfg: Config, s: Stream)
    requires Inv(cfg, s)
    ensures 0 <= StreamBilled(s) && StreamBilled(s) + StreamGap(s) <= Net(s)
    ensures s.pc.Finished? ==> StreamBilled(s) + StreamGap(s) == Net(s)
    ensures s.pc.Releasing? ==> s.Tokens() <= Net(s)
  {
    if s.settled != [] {
      assert s.settled == [s.settled[0]];
      BilledAppend([], s.settled[0]);
      assert [] + [s.settled[0]] == s.settled;
    }
  }

  /** An attempt that strands nothing. */
  predicate Clean(a: Attempt) {
    Corrections(a.frames) == 0 && a.lost == 0 && (a.outcome.Cancelled? ==> Count(a.frames) == 0)
  }

  lemma {:induction false} GapZero(attempts: seq<Attempt>)
    ensures Gap(attempts) == 0 <==> forall j :: 0 <= j < |attempts| ==> Clean(attempts[j])
  {
    if attempts != [] {
      GapZero(attempts[..|attempts| - 1]);
    }
  }

  lemma StreamGapZero(s: Stream)
    ensures StreamGap(s) == 0 <==> forall j :: 0 <= j < |s.Attempts()| ==> Clean(s.Attempts()[j])
  {
    GapZero(s.past);
    var all := s.Attempts();
    assert forall j :: 0 <= j < |s.past| ==> all[j] == s.past[j];
    if s.cur.Some? {
      assert all[|s.past|] == s.cur.value;
      assert StreamGap(s) == 0 <==> Gap(s.past) == 0 && Clean(s.cur.value);
    }
  }

  function Delivered(attempts: seq<Attempt>): nat {
    if attempts == [] then 0
    else Delivered(attempts[..|attempts| - 1]) + Count(attempts[|attempts| - 1].frames)
  }

  /** The tokens the failover events report are the counts of the superseded attempts. */
  lemma {:induction false} LogTokens(cfg: Config, past: seq<Attempt>, w: seq<Event>)
    requires Log(cfg, past, w)
    ensures FailoverTokens(w) == Delivered(past)
  {
    if w != [] {
      if w[|w| - 1].Failover? {
        LogTokens(cfg, past[..|past| - 1], w[..|w| - 1]);
      } else {
        LogTokens(cfg, past, w[..|w| - 1]);
      }
    }
  }
}
