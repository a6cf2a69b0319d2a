/** Time in the running system: whatever a step writes carries the clock of that step, and the budget
    check lets exactly the keys with tokens left in. */
module Clock {
  import opened Gateway
  import opened Accounting
  import opened System
  import Breaker
  import Budget
  import Ledger
  import RateLimit

  /** The time that has passed. */
  function Elapsed(ls: seq<Label>): nat {
    if ls == [] then 0 else Elapsed(ls[..|ls| - 1]) + (if ls[|ls| - 1].Tick? then ls[|ls| - 1].d else 0)
  }

  /** At most one ledger record was added, at the time `now`. */
  predicate RecordAdded(h: seq<Ledger.Terminal>, h': seq<Ledger.Terminal>, now: int) {
    h' == h || (|h'| == |h| + 1 && h'[..|h|] == h && h'[|h|].at == now)
  }

  predicate MeterAdded(h: seq<RateLimit.Call>, h': seq<RateLimit.Call>, now: int) {
    h' == h || (|h'| == |h| + 1 && h'[..|h|] == h && h'[|h|].now == now)
  }

  predicate CallAdded(h: seq<Breaker.Stamped>, h': seq<Breaker.Stamped>, now: int) {
    h' == h || (|h'| == |h| + 1 && h'[..|h|] == h && h'[|h|].now == now)
  }

  predicate Stamps(sh: Shared, sh': Shared) {
    && RecordAdded(sh.ledger, sh'.ledger, sh.now) && MeterAdded(sh.meter, sh'.meter, sh.now)
    && |sh'.calls| == |sh.calls| && forall p :: 0 <= p < |sh.calls| ==> CallAdded(sh.calls[p], sh'.calls[p], sh.now)
  }

  lemma NextStamps(cfg: Config, sh: Shared, s: Stream, x: Input)
    requires Matches(cfg, sh) && Shape(cfg, s)
    ensures Stamps(sh, Next(cfg, sh, s, x).0) && Next(cfg, sh, s, x).0.now == sh.now
  {
    hide Breaker.Apply, Ascending;
  }

  /** What one step adds to the ledger, the limiter's calls and the breakers' calls has the time of the
      clock; only `Tick` moves it. */
  lemma StepStamps(cfg: Config, y: Sys, l: Label)
    requires WF(cfg, y)
    ensures Stamps(y.sh, Step(cfg, y, l).sh)
    ensures Step(cfg, y, l).sh.now == y.sh.now + (if l.Tick? then l.d else 0)
  {
    hide Inv, Next, Admits;
    match l
    case Run(id, x) =>
      if id < |y.streams| {
        InvShape(cfg, y.streams[id]);
        NextStamps(cfg, y.sh, y.streams[id], x);
      }
    case _ =>
  }

  lemma {:induction false} ClockShows(cfg: Config, t0: int, ls: seq<Label>)
    requires cfg.Valid()
    ensures Exec(cfg, t0, ls).sh.now == t0 + Elapsed(ls)
  {
    hide Inv, Step;
    if ls != [] {
      ClockShows(cfg, t0, ls[..|ls| - 1]);
      StepStamps(cfg, Exec(cfg, t0, ls[..|ls| - 1]), ls[|ls| - 1]);
    }
  }

  /** Step `n` of the run wrote ledger record `k`. */
  ghost predicate WroteRecord(cfg: Config, t0: int, ls: seq<Label>, k: nat, n: int)
    requires cfg.Valid()
  {
    && 0 <= n < |ls|
    && |Exec(cfg, t0, ls[..n]).sh.ledger| == k && |Exec(cfg, t0, ls[..n + 1]).sh.ledger| == k + 1
  }

  /** Every ledger record, which its time assigns to a billing period, was written by one step of the
      run and carries the time that had passed then. */
  lemma {:induction false} RecordsAreStamped(cfg: Config, t0: int, ls: seq<Label>, k: nat)
    requires cfg.Valid() && k < |Exec(cfg, t0, ls).sh.ledger|
    ensures exists n :: WroteRecord(cfg, t0, ls, k, n)
                        && Exec(cfg, t0, ls).sh.ledger[k].at == t0 + Elapsed(ls[..n])
    decreases |ls|
  {
    hide Inv, Step, Elapsed, MeterAdded, CallAdded;
    if ls != [] {
      var n := |ls| - 1;
      var init := ls[..n];
      assert ls[..n + 1] == ls;
      ClockShows(cfg, t0, init);
      StepStamps(cfg, Exec(cfg, t0, init), ls[n]);
      assert Exec(cfg, t0, ls) == Step(cfg, Exec(cfg, t0, init), ls[n]);
      if k < |Exec(cfg, t0, init).sh.ledger| {
        RecordsAreStamped(cfg, t0, init, k);
        var i :| WroteRecord(cfg, t0, init, k, i) && Exec(cfg, t0, init).sh.ledger[k].at == t0 + Elapsed(init[..i]);
        assert ls[..i] == init[..i] && ls[..i + 1] == init[..i + 1];
        assert WroteRecord(cfg, t0, ls, k, i);
      } else {
        assert WroteRecord(cfg, t0, ls, k, n);
      }
    }
  }

  /** Step `n` of the run made call `k` on breaker `p`. */
  ghost predicate MadeCall(cfg: Config, t0: int, ls: seq<Label>, p: nat, k: nat, n: int)
    requires cfg.Valid() && p < |cfg.names|
  {
    && 0 <= n < |ls|
    && |Exec(cfg, t0, ls[..n]).sh.calls[p]| == k && |Exec(cfg, t0, ls[..n + 1]).sh.calls[p]| == k + 1
  }

  /** So does every breaker call, so that the laws of the breaker speak of the system's own clock. */
  lemma {:induction false} BreakerCallsAreStamped(cfg: Config, t0: int, ls: seq<Label>, p: nat, k: nat)
    requires cfg.Valid() && p < |cfg.names| && k < |Exec(cfg, t0, ls).sh.calls[p]|
    ensures exists n :: MadeCall(cfg, t0, ls, p, k, n)
                        && Exec(cfg, t0, ls).sh.calls[p][k].now == t0 + Elapsed(ls[..n])
    decreases |ls|
  {
    hide Inv, Step, Elapsed, MeterAdded, RecordAdded;
    if ls != [] {
      var n := |ls| - 1;
      var init := ls[..n];
      assert ls[..n + 1] == ls;
      ClockShows(cfg, t0, init);
      StepStamps(cfg, Exec(cfg, t0, init), ls[n]);
      assert Exec(cfg, t0, ls) == Step(cfg, Exec(cfg, t0, init), ls[n]);
      if k < |Exec(cfg, t0, init).sh.calls[p]| {
        BreakerCallsAreStamped(cfg, t0, init, p, k);
        var i :| MadeCall(cfg, t0, init, p, k, i) && Exec(cfg, t0, init).sh.calls[p][k].now == t0 + Elapsed(init[..i]);
        assert ls[..i] == init[..i] && ls[..i + 1] == init[..i + 1];
        assert MadeCall(cfg, t0, ls, p, k, i);
      } else {
        assert MadeCall(cfg, t0, ls, p, k, n);
      }
    }
  }

  /** A request gets past the budget check if and only if the key's usage is below its budget, and
      changes nothing else; a second answer of the limiter needs a second request. */
  lemma EntersExactly(cfg: Config, t0: int, ls: seq<Label>)
    requires cfg.Valid()
    ensures var y, z := Exec(cfg, t0, ls), Exec(cfg, t0, ls + [Enter]);
      && (z.entering == y.entering + 1 <==> y.sh.used < cfg.budget)
      && (z.entering == y.entering || z.entering == y.entering + 1)
      && z.sh == y.sh && z.streams == y.streams
    ensures var y, z := Exec(cfg, t0, ls), Exec(cfg, t0, ls + [Spawn]);
      && z.entering == (if y.entering == 0 then 0 else y.entering - 1)
      && (y.entering == 0 ==> z == y) && z.sh.used == y.sh.used
      && (z.streams == y.streams || z.streams == y.streams + [NewStream()])
  {
    hide Inv, Exec, Admits;
    ExecSnoc(cfg, t0, ls, Enter);
    ExecSnoc(cfg, t0, ls, Spawn);
  }

  lemma StepRefuses(cfg: Config, sh: Shared, s: Stream, x: Input)
    requires Matches(cfg, sh) && Inv(cfg, s) && Shape(cfg, s) && StepOk(sh, s, x) && !s.pc.Recording?
    requires Budget.InBounds(cfg.budget, sh.used)
    ensures var s' := Next(cfg, sh, s, x).1;
      s'.pc.Recording? && s'.cur.Some? && s'.cur.value.outcome.OverBudget? <==>
      s.pc.Reserving? && s.pc.c.Start? && sh.used + Amount(s, s.pc.want) > cfg.budget
  {
    hide OpenWire, Log, Failovers, FailoverTokens, Gap, Count, Corrections, Closed, Breaker.Apply, Ascending;
    if s.pc.Reserving? {
      Budget.ReserveStepSound(cfg.budget, sh.used, Amount(s, s.pc.want), s.pc.c);
      hide Budget.ReserveStep;
    }
  }

  /** A stream is refused for its budget if and only if, at the load of the reservation it is about to
      make, usage and amount exceed the budget; a lost race only makes it load again. */
  lemma OverBudgetExactly(cfg: Config, t0: int, ls: seq<Label>, id: nat, x: Input)
    requires cfg.Valid() && id < |Exec(cfg, t0, ls).streams|
    requires var y := Exec(cfg, t0, ls); StepOk(y.sh, y.streams[id], x) && !y.streams[id].pc.Recording?
    ensures var y, z := Exec(cfg, t0, ls), Exec(cfg, t0, ls + [Run(id, x)]);
      var s := y.streams[id];
      && id < |z.streams|
      && (z.streams[id].pc.Recording? && z.streams[id].cur.Some? && z.streams[id].cur.value.outcome.OverBudget? <==>
          s.pc.Reserving? && s.pc.c.Start? && y.sh.used + Amount(s, s.pc.want) > cfg.budget)
  {
    hide Exec, OpenWire, Log, Failovers, FailoverTokens, Gap, Count, Corrections, Closed;
    var y := Exec(cfg, t0, ls);
    RunOne(cfg, t0, ls, id, x);
    StepRefuses(cfg, y.sh, y.streams[id], x);
  }
}
