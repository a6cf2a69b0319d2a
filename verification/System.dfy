/** Any number of streams of one key, interleaved one action at a time with each other, with the
    clock, with the breaker calls of other keys and with budget resets. */
module System {
  import opened Gateway
  import opened Accounting
  import Breaker
  import Budget
  import Ledger
  import RateLimit

  /** `entering` counts the requests between the budget check and the limiter's answer. */
  datatype Sys = Sys(sh: Shared, entering: nat, streams: seq<Stream>)

  datatype Label =
    | Enter                                    // a request passes the Exhausted check
    | Spawn                                    // the limiter answers a request that entered
    | Run(id: nat, x: Input)                   // one step of one stream
    | Tick(d: nat)                             // the clock moves on
    | Foreign(p: nat, call: Breaker.Call)      // another key's stream uses a breaker
    | Reset                                    // the budget period of the key expired

  ghost predicate WF(cfg: Config, y: Sys) {
    && cfg.Valid() && Matches(cfg, y.sh) && Budget.InBounds(cfg.budget, y.sh.used)
    && forall i :: 0 <= i < |y.streams| ==> Inv(cfg, y.streams[i])
  }

  function Init(cfg: Config, t0: int): Sys {
    Sys(Shared(0, seq(|cfg.names|, _ => Breaker.Fresh(t0)), seq(|cfg.names|, _ => []), t0, [], []), 0, [])
  }

  /** The limiter's answer, computed from what its calls left for the key. */
  predicate Admits(cfg: Config, sh: Shared) {
    RateLimit.Tokens(RateLimit.Survivors(RateLimit.Cached(cfg.window, sh.meter, cfg.hash), sh.now - cfg.window)) < cfg.limit
  }

  function Admitted(cfg: Config, sh: Shared): Shared {
    sh.(meter := sh.meter + [RateLimit.AdmitCall(cfg.hash, sh.now)])
  }

  /** One step; a step that breaks `StepOk` is not an execution and leaves
      the system alone. */
  ghost function Step(cfg: Config, y: Sys, l: Label): Sys
    requires WF(cfg, y)
  {
    match l
    case Enter => if y.sh.used >= cfg.budget then y else y.(entering := y.entering + 1)
    case Spawn =>
      if y.entering == 0 then y
      else Sys(Admitted(cfg, y.sh), y.entering - 1, if Admits(cfg, y.sh) then y.streams + [NewStream()] else y.streams)
    case Run(id, x) =>
      if id < |y.streams| && StepOk(y.sh, y.streams[id], x) then
        InvShape(cfg, y.streams[id]);
        var (sh, s) := Next(cfg, y.sh, y.streams[id], x);
        y.(sh := sh, streams := y.streams[id := s])
      else y
    case Tick(d) => y.(sh := y.sh.(now := y.sh.now + d))
    case Foreign(p, call) =>
      if p < |cfg.names| then y.(sh := CallBreaker(cfg, y.sh, p, call).0) else y
    case Reset => y.(sh := y.sh.(used := 0))
  }

  lemma StepKeepsWF(cfg: Config, y: Sys, l: Label)
    requires WF(cfg, y)
    ensures WF(cfg, Step(cfg, y, l))
  {
    hide Inv, Posts, Next;
    match l
    case Spawn => var s := NewStream(); NewStreamInv(cfg, s);
    case Run(id, x) =>
      if id < |y.streams| && StepOk(y.sh, y.streams[id], x) {
        StepPosts(cfg, y, id, x);
      }
    case _ =>
  }

  lemma StepPosts(cfg: Config, y: Sys, id: nat, x: Input)
    requires WF(cfg, y) && id < |y.streams| && StepOk(y.sh, y.streams[id], x)
    ensures var z := Step(cfg, y, Run(id, x));
      && |z.streams| == |y.streams| && z.streams == y.streams[id := z.streams[id]]
      && Matches(cfg, z.sh) && Budget.InBounds(cfg.budget, z.sh.used) && Inv(cfg, z.streams[id])
      && Posts(cfg, y.sh, y.streams[id], z.sh, z.streams[id])
  {
    hide Inv;
    NextKeepsInv(cfg, y.sh, y.streams[id], x);
  }

  /** The state after any sequence of labels. */
  ghost function Exec(cfg: Config, t0: int, ls: seq<Label>): (y: Sys)
    requires cfg.Valid()
    ensures WF(cfg, y)
  {
    if ls == [] then Init(cfg, t0)
    else
      var y := Exec(cfg, t0, ls[..|ls| - 1]);
      StepKeepsWF(cfg, y, ls[|ls| - 1]);
      Step(cfg, y, ls[|ls| - 1])
  }

  lemma ExecSnoc(cfg: Config, t0: int, ls: seq<Label>, l: Label)
    requires cfg.Valid()
    ensures Exec(cfg, t0, ls + [l]) == Step(cfg, Exec(cfg, t0, ls), l)
    ensures Exec(cfg, t0, []) == Init(cfg, t0)
  {
    assert (ls + [l])[..|ls|] == ls;
  }

  /** One label of one stream. */
  lemma RunOne(cfg: Config, t0: int, ls: seq<Label>, id: nat, x: Input)
    requires cfg.Valid() && id < |Exec(cfg, t0, ls).streams|
    ensures var y := Exec(cfg, t0, ls); var s := y.streams[id];
      && Shape(cfg, s)
      && Exec(cfg, t0, ls + [Run(id, x)]) ==
         if StepOk(y.sh, s, x)
         then var n := Next(cfg, y.sh, s, x); y.(sh := n.0, streams := y.streams[id := n.1]) else y
  {
    hide Inv, Next, Exec, StepOk;
    ExecSnoc(cfg, t0, ls, Run(id, x));
    InvShape(cfg, Exec(cfg, t0, ls).streams[id]);
  }

  // ---- Sums over streams ----

  ghost function Sum(ss: seq<Stream>, f: Stream -> int): int {
    if ss == [] then 0 else Sum(ss[..|ss| - 1], f) + f(ss[|ss| - 1])
  }

  lemma {:induction false} SumUpdate(ss: seq<Stream>, i: nat, s: Stream, f: Stream -> int)
    requires i < |ss|
    ensures Sum(ss[i := s], f) == Sum(ss, f) - f(ss[i]) + f(s)
  {
    var n := |ss| - 1;
    if i == n {
      assert ss[i := s][..n] == ss[..n];
    } else {
      SumUpdate(ss[..n], i, s, f);
      assert ss[i := s][..n] == ss[..n][i := s];
    }
  }

  lemma SumAppend(ss: seq<Stream>, s: Stream, f: Stream -> int)
    ensures Sum(ss + [s], f) == Sum(ss, f) + f(s)
  {
    assert (ss + [s])[..|ss|] == ss;
  }

  lemma {:induction false} SumMonotone(ss: seq<Stream>, f: Stream -> int, g: Stream -> int)
    requires forall i :: 0 <= i < |ss| ==> f(ss[i]) <= g(ss[i])
    ensures Sum(ss, f) <= Sum(ss, g)
    ensures Sum(ss, f) == Sum(ss, g) <==> forall i :: 0 <= i < |ss| ==> f(ss[i]) == g(ss[i])
  {
    if ss != [] {
      SumMonotone(ss[..|ss| - 1], f, g);
    }
  }

  ghost function Nets(y: Sys): int { Sum(y.streams, Net) }
  ghost function Bills(y: Sys): int { Sum(y.streams, StreamBilled) }
  ghost function Gaps(y: Sys): int { Sum(y.streams, StreamGap) }

  // ---- Conservation ----

  ghost predicate NoReset(ls: seq<Label>) {
    forall i :: 0 <= i < |ls| ==> !ls[i].Reset?
  }

  lemma BilledConcat(a: seq<Ledger.Terminal>, b: seq<Ledger.Terminal>)
    ensures Billed(a + b) == Billed(a) + Billed(b)
  {
    if b == [] {
      assert a + b == a;
    } else {
      BilledConcat(a, b[..|b| - 1]);
      assert (a + b)[..|a + b| - 1] == a + b[..|b| - 1];
    }
  }

  lemma RunMovesBooks(cfg: Config, y: Sys, id: nat, x: Input)
    requires WF(cfg, y) && id < |y.streams| && StepOk(y.sh, y.streams[id], x)
    ensures var z := Step(cfg, y, Run(id, x));
      && z.sh.used == (if y.sh.used + Nets(z) - Nets(y) >= 0 then y.sh.used + Nets(z) - Nets(y) else 0)
      && Billed(z.sh.ledger) - Billed(y.sh.ledger) == Bills(z) - Bills(y)
  {
    hide Inv, Step;
    StepPosts(cfg, y, id, x);
    var z := Step(cfg, y, Run(id, x));
    var s, s' := y.streams[id], z.streams[id];
    SumUpdate(y.streams, id, s', Net);
    SumUpdate(y.streams, id, s', StreamBilled);
    var added := s'.settled[|s.settled|..];
    assert s'.settled == s.settled + added;
    BilledConcat(s.settled, added);
    BilledConcat(y.sh.ledger, added);
  }

  lemma {:induction false} SumNonnegative(ss: seq<Stream>, f: Stream -> int, i: nat)
    requires forall j :: 0 <= j < |ss| ==> f(ss[j]) >= 0
    ensures Sum(ss, f) >= 0
    ensures i < |ss| ==> Sum(ss, f) >= f(ss[i])
  {
    if ss != [] {
      SumNonnegative(ss[..|ss| - 1], f, i);
    }
  }

  lemma NetsCover(cfg: Config, y: Sys, i: nat)
    requires WF(cfg, y)
    ensures Nets(y) >= 0 && (i < |y.streams| ==> Nets(y) >= Net(y.streams[i]))
  {
    forall j | 0 <= j < |y.streams| ensures Net(y.streams[j]) >= 0 {
      NetCovers(cfg, y.streams[j]);
    }
    SumNonnegative(y.streams, Net, i);
  }

  /** How any step moves the shared usage and the ledger. */
  lemma StepMovesBooks(cfg: Config, y: Sys, l: Label)
    requires WF(cfg, y)
    ensures var z := Step(cfg, y, l); var sum := y.sh.used + Nets(z) - Nets(y);
      && z.sh.used == (if l.Reset? then 0 else if sum >= 0 then sum else 0)
      && Billed(z.sh.ledger) - Billed(y.sh.ledger) == Bills(z) - Bills(y)
  {
    hide Inv, Next, Posts, Admits, Billed;
    match l
    case Spawn =>
      SumAppend(y.streams, NewStream(), Net);
      SumAppend(y.streams, NewStream(), StreamBilled);
      NewBooks(NewStream());
    case Run(id, x) =>
      if id < |y.streams| && StepOk(y.sh, y.streams[id], x) {
        RunMovesBooks(cfg, y, id, x);
      }
    case _ =>
  }

  lemma NewBooks(s: Stream)
    requires s == NewStream()
    ensures Net(s) == 0 && StreamBilled(s) == 0
  {
  }

  /** `TokensUsed` is the sum over all streams of what they reserved minus what they released, as
      long as no period reset intervenes; with resets it never exceeds that sum.  The ledger holds
      exactly what the streams billed. */
  lemma {:induction false} Conservation(cfg: Config, t0: int, ls: seq<Label>)
    requires cfg.Valid()
    ensures var y := Exec(cfg, t0, ls);
      && y.sh.used <= Nets(y)
      && (NoReset(ls) ==> y.sh.used == Nets(y))
      && Billed(y.sh.ledger) == Bills(y)
  {
    hide Inv, Step;
    if ls != [] {
      var n := |ls| - 1;
      Conservation(cfg, t0, ls[..n]);
      var y := Exec(cfg, t0, ls[..n]);
      StepMovesBooks(cfg, y, ls[n]);
      StepKeepsWF(cfg, y, ls[n]);
      NetsCover(cfg, Step(cfg, y, ls[n]), 0);
    }
  }

  /** At every moment without a reset, what has been billed is covered by usage, and usage by the
      budget; and a release in progress finds at least the tokens it gives back, so its floor at
      zero is never reached. */
  lemma BilledWithinUsage(cfg: Config, t0: int, ls: seq<Label>, i: nat)
    requires cfg.Valid() && NoReset(ls)
    ensures var y := Exec(cfg, t0, ls);
      && 0 <= Billed(y.sh.ledger) <= y.sh.used <= cfg.budget
      && (i < |y.streams| && y.streams[i].pc.Releasing? ==> y.streams[i].Tokens() <= y.sh.used)
  {
    Conservation(cfg, t0, ls);
    var y := Exec(cfg, t0, ls);
    forall j | 0 <= j < |y.streams|
      ensures 0 <= StreamBilled(y.streams[j]) <= Net(y.streams[j])
      ensures y.streams[j].pc.Releasing? ==> y.streams[j].Tokens() <= Net(y.streams[j])
    {
      NetCovers(cfg, y.streams[j]);
    }
    SumNonnegative(y.streams, StreamBilled, 0);
    SumMonotone(y.streams, StreamBilled, Net);
    NetsCover(cfg, y, i);
  }

  /** Without a reset a reservation can only fail to fit through the usage it loads: the running count
      of an attempt is covered by usage, so the second bound of `LoadOk` follows from the first; and
      amounts up to `MaxInt64` minus the budget always fit. */
  lemma LoadFitsWithoutReset(cfg: Config, t0: int, ls: seq<Label>, i: nat)
    requires cfg.Valid() && NoReset(ls) && i < |Exec(cfg, t0, ls).streams|
    ensures var y := Exec(cfg, t0, ls); var s := y.streams[i];
      s.pc.Reserving? && s.pc.c.Start? ==>
        && (LoadOk(y.sh, s) <==> y.sh.used + Amount(s, s.pc.want) <= Budget.MAX_INT64)
        && (Amount(s, s.pc.want) <= Budget.MAX_INT64 - cfg.budget ==> LoadOk(y.sh, s))
  {
    hide OpenWire, Log, Failovers, FailoverTokens, Gap, Count, Corrections, Closed;
    Conservation(cfg, t0, ls);
    var y := Exec(cfg, t0, ls);
    NetsCover(cfg, y, i);
    if y.streams[i].pc.Reserving? {
      CountCovered(cfg, y.streams[i]);
    }
  }

  lemma CountCovered(cfg: Config, s: Stream)
    requires Inv(cfg, s) && s.pc.Reserving?
    ensures s.Tokens() <= Net(s)
  {
    NetCovers(cfg, s);
  }

  ghost predicate AtRest(y: Sys) {
    forall i :: 0 <= i < |y.streams| ==> y.streams[i].pc.Finished?
  }

  lemma {:induction false} SumAdds(ss: seq<Stream>, f: Stream -> int, g: Stream -> int, h: Stream -> int)
    requires forall i :: 0 <= i < |ss| ==> f(ss[i]) + g(ss[i]) == h(ss[i])
    ensures Sum(ss, f) + Sum(ss, g) == Sum(ss, h)
  {
    if ss != [] {
      SumAdds(ss[..|ss| - 1], f, g, h);
    }
  }

  /** The exact accounting gap: once all streams are done, usage exceeds the ledger total by the
      tokens of client-cancelled attempts, the downward usage corrections and the reservations of
      failed writes; so the two agree if and only if no attempt of any stream had any of these, no
      matter how many attempts were superseded. */
  lemma AccountingGap(cfg: Config, t0: int, ls: seq<Label>)
    requires cfg.Valid() && NoReset(ls) && AtRest(Exec(cfg, t0, ls))
    ensures var y := Exec(cfg, t0, ls);
      && y.sh.used == Billed(y.sh.ledger) + Gaps(y)
      && (y.sh.used == Billed(y.sh.ledger) <==>
          forall i, j :: 0 <= i < |y.streams| && 0 <= j < |y.streams[i].Attempts()| ==> Clean(y.streams[i].Attempts()[j]))
  {
    Conservation(cfg, t0, ls);
    var y := Exec(cfg, t0, ls);
    forall i | 0 <= i < |y.streams|
      ensures StreamBilled(y.streams[i]) + StreamGap(y.streams[i]) == Net(y.streams[i])
      ensures StreamGap(y.streams[i]) == 0 <==>
              forall j :: 0 <= j < |y.streams[i].Attempts()| ==> Clean(y.streams[i].Attempts()[j])
    {
      NetCovers(cfg, y.streams[i]);
      StreamGapZero(y.streams[i]);
    }
    SumAdds(y.streams, StreamBilled, StreamGap, Net);
    SumMonotone(y.streams, StreamBilled, Net);
  }

  // ---- What every stream guarantees under any interference ----

  /** The wire of every stream, at every moment and under any interference, is empty, or a lone
      truncation, or an open wire with at most a truncation after it; its failovers report, in
      order, the provider and the count of the attempts they supersede. */
  lemma WireAlwaysInGrammar(cfg: Config, t0: int, ls: seq<Label>, i: nat)
    requires cfg.Valid() && i < |Exec(cfg, t0, ls).streams|
    ensures var s := Exec(cfg, t0, ls).streams[i];
      var body := if s.wire != [] && s.wire[|s.wire| - 1].Truncated? then s.wire[..|s.wire| - 1] else s.wire;
      && (body == [] || Positional(body))
      && Log(cfg, s.past, s.wire)
      && (s.pc.Finished? ==> s.wire != [])
  {
    var s := Exec(cfg, t0, ls).streams[i];
    if s.wire != [] {
      OpenWireIsPositional(s.wire);
      OpenWireIsPositional(s.wire[..|s.wire| - 1]);
    }
  }

  /** Cumulative delivery: the running total is the counts of all attempts, superseded or not; a
      truncation reports it, as what the failovers reported plus what the request was billed. */
  lemma DeliveredTotals(cfg: Config, t0: int, ls: seq<Label>, i: nat)
    requires cfg.Valid() && i < |Exec(cfg, t0, ls).streams|
    ensures var s := Exec(cfg, t0, ls).streams[i];
      && s.total == Delivered(s.Attempts())
      && (s.cur.Some? ==> s.cur.value.tokens == Count(s.cur.value.frames))
      && (s.wire != [] && s.wire[|s.wire| - 1].Truncated? ==>
          && |s.settled| == 1
          && s.wire[|s.wire| - 1].delivered == FailoverTokens(s.wire) + s.settled[0].tokens == s.total)
  {
    var s := Exec(cfg, t0, ls).streams[i];
    LogTokens(cfg, s.past, s.wire);
    if s.cur.Some? {
      assert s.Attempts()[..|s.past|] == s.past;
    }
  }

  /** A finished stream is settled once, and all others never, except that a client's cancellation
      and an announced replacement that was not admitted leave no ledger record: those two
      conditions are exact.  The record carries the last attempt's tokens and provider, and is marked
      truncated unless the attempt succeeded; the client sees a truncation exactly when the stream
      gave up, with the reason. */
  lemma SettledExactlyOnce(cfg: Config, t0: int, ls: seq<Label>, i: nat)
    requires cfg.Valid() && i < |Exec(cfg, t0, ls).streams|
    ensures var s := Exec(cfg, t0, ls).streams[i];
      && (|s.settled| == 1 <==> s.pc.Finished? && !Unbilled(s))
      && |s.settled| <= 1
      && (|s.settled| == 1 ==>
          && s.settled[0] == Ledger.Terminal(cfg.hash, FinalProvider(cfg, s), s.settled[0].at, s.Tokens(),
                                             !(s.cur.Some? && s.cur.value.outcome.Success?)))
      && (s.pc.Finished? ==>
          && (GaveUp(s) <==> s.wire[|s.wire| - 1].Truncated?)
          && (GaveUp(s) ==> (s.wire[|s.wire| - 1].why.BudgetExceeded? <==> s.cur.Some? && s.cur.value.outcome.OverBudget?)))
  {
  }

  // ---- The ledger the streams write ----

  ghost predicate Proper(cfg: Config, t: Ledger.Terminal) {
    t.hash == cfg.hash && t.tokens >= 0 && (t.tokens > 0 ==> t.provider != "")
  }

  ghost predicate AllProper(cfg: Config, h: seq<Ledger.Terminal>) {
    forall i :: 0 <= i < |h| ==> Proper(cfg, h[i])
  }

  lemma StepAddsProperRecords(cfg: Config, y: Sys, l: Label)
    requires WF(cfg, y) && AllProper(cfg, y.sh.ledger)
    ensures AllProper(cfg, Step(cfg, y, l).sh.ledger)
  {
    hide Inv, Next;
    if l.Run? && l.id < |y.streams| && StepOk(y.sh, y.streams[l.id], l.x) {
      StepPosts(cfg, y, l.id, l.x);
      SettledProper(cfg, Step(cfg, y, l).streams[l.id]);
    }
  }

  lemma SettledProper(cfg: Config, s: Stream)
    requires cfg.Valid() && Inv(cfg, s)
    ensures AllProper(cfg, s.settled)
  {
    hide Log, OpenWire, Failovers, FailoverTokens, Money;
  }

  lemma {:induction false} LedgerIsProper(cfg: Config, t0: int, ls: seq<Label>)
    requires cfg.Valid()
    ensures AllProper(cfg, Exec(cfg, t0, ls).sh.ledger)
  {
    hide Inv, Step;
    if ls != [] {
      LedgerIsProper(cfg, t0, ls[..|ls| - 1]);
      StepAddsProperRecords(cfg, Exec(cfg, t0, ls[..|ls| - 1]), ls[|ls| - 1]);
    }
  }

  lemma {:induction false} BilledIsTotal(cfg: Config, h: seq<Ledger.Terminal>)
    requires AllProper(cfg, h)
    ensures Billed(h) == Ledger.Total(h, cfg.hash, Ledger.Billing)
  {
    if h != [] {
      BilledIsTotal(cfg, h[..|h| - 1]);
    }
  }

  /** End to end: when all streams are done, no reset intervened and no attempt stranded anything,
      the budget's usage is the token total that the ledger reports for the key. */
  lemma UsageEqualsLedgerSummary(cfg: Config, t0: int, ls: seq<Label>)
    requires cfg.Valid() && NoReset(ls) && AtRest(Exec(cfg, t0, ls))
    requires var y := Exec(cfg, t0, ls);
      forall i, j :: 0 <= i < |y.streams| && 0 <= j < |y.streams[i].Attempts()| ==> Clean(y.streams[i].Attempts()[j])
    ensures var y := Exec(cfg, t0, ls); y.sh.used == Ledger.Total(y.sh.ledger, cfg.hash, Ledger.Billing)
  {
    hide Inv;
    AccountingGap(cfg, t0, ls);
    LedgerIsProper(cfg, t0, ls);
    BilledIsTotal(cfg, Exec(cfg, t0, ls).sh.ledger);
  }

  /** At every moment of every run: in any ledger that holds the records the streams wrote, the provider
      tokens of every entry, summed in any order, are exactly what the entry billed. */
  lemma EntriesAreAttributed(cfg: Config, t0: int, ls: seq<Label>, f: int -> string, m: map<string, Ledger.Entry>,
                             k: string, ps: seq<string>)
    requires cfg.Valid() && Ledger.Consistent(f, Exec(cfg, t0, ls).sh.ledger, m)
    requires k in m && Ledger.Enumerates(ps, m[k].providerTokens.Keys)
    ensures Ledger.Attributed(f, Exec(cfg, t0, ls).sh.ledger, m[k].hash, k)
    ensures forall i :: 0 <= i < |ps| ==> ps[i] in m[k].providerTokens
    ensures Ledger.SumOf(m[k].providerTokens, ps) == m[k].tokensBilled
  {
    hide Inv, Exec, Ledger.Consistent;
    LedgerIsProper(cfg, t0, ls);
    Ledger.ProviderTokensWithinBilled(f, Exec(cfg, t0, ls).sh.ledger, m, k, ps);
  }
}
