/** Runs that show how the system can fall short of its documentation.  Each exists for every
    configuration of the kind it names. */
module Scenarios {
  import opened Options
  import opened Protocol
  import opened Gateway
  import opened Accounting
  import opened System
  import opened Walk
  import Breaker
  import Budget
  import RateLimit

  ghost predicate Usable(cfg: Config) {
    && cfg.Valid() && cfg.budget > 0
    && forall p :: 0 <= p < |cfg.breakers| ==> cfg.breakers[p].Valid()
  }

  // ---- Building blocks ----

  /** Other keys' failures open breaker `p`; nothing else changes. */
  lemma {:induction false} OpenBreaker(cfg: Config, t0: int, ls: seq<Label>, p: nat) returns (more: seq<Label>)
    requires Usable(cfg) && p < |cfg.names|
    requires var b := Exec(cfg, t0, ls).sh.breakers[p]; b.state.Closed? && b.failures < cfg.breakers[p].failureThreshold
    ensures var y, z := Exec(cfg, t0, ls), Exec(cfg, t0, more);
      && ls <= more && z == y.(sh := z.sh)
      && z.sh == y.sh.(breakers := y.sh.breakers[p := z.sh.breakers[p]], calls := z.sh.calls)
      && z.sh.breakers[p].state.Open? && z.sh.breakers[p].since == y.sh.now
    decreases cfg.breakers[p].failureThreshold - Exec(cfg, t0, ls).sh.breakers[p].failures
  {
    hide Inv, Exec;
    var y := Exec(cfg, t0, ls);
    more := ls + [Foreign(p, Breaker.RecordFailure)];
    ExecSnoc(cfg, t0, ls, Foreign(p, Breaker.RecordFailure));
    var z := Exec(cfg, t0, more);
    if z.sh.breakers[p].state.Closed? {
      more := OpenBreaker(cfg, t0, more, p);
      assert y.sh.breakers[p := z.sh.breakers[p]][p := Exec(cfg, t0, more).sh.breakers[p]]
          == y.sh.breakers[p := Exec(cfg, t0, more).sh.breakers[p]];
    }
  }

  /** Nothing was metered. */
  predicate Idle(sh: Shared) {
    sh.used == 0 && forall i :: 0 <= i < |sh.meter| ==> sh.meter[i].AdmitCall?
  }

  lemma {:induction false} NothingCached(window: int, h: seq<RateLimit.Call>, key: string)
    requires forall i :: 0 <= i < |h| ==> h[i].AdmitCall?
    ensures RateLimit.Cached(window, h, key) == []
  {
    if h != [] {
      NothingCached(window, h[..|h| - 1], key);
    }
  }

  lemma IdleAdmits(cfg: Config, sh: Shared)
    requires cfg.Valid() && Idle(sh)
    ensures Admits(cfg, sh)
  {
    NothingCached(cfg.window, sh.meter, cfg.hash);
  }

  /** A request comes in and becomes a stream. */
  lemma Arrive(cfg: Config, t0: int, ls: seq<Label>) returns (more: seq<Label>)
    requires Usable(cfg) && Idle(Exec(cfg, t0, ls).sh)
    ensures var y, z := Exec(cfg, t0, ls), Exec(cfg, t0, more);
      && ls <= more && (NoReset(ls) ==> NoReset(more))
      && Idle(z.sh) && z.sh == y.sh.(meter := z.sh.meter) && z.streams == y.streams + [NewStream()]
  {
    hide Inv, Exec, Admits;
    IdleAdmits(cfg, Exec(cfg, t0, ls).sh);
    ExecSnoc(cfg, t0, ls, Enter);
    ExecSnoc(cfg, t0, ls + [Enter], Spawn);
    more := ls + [Enter] + [Spawn];
  }

  // ---- No provider, no status ----

  lemma {:induction false} OpenBreakers(cfg: Config, t0: int, n: nat) returns (ls: seq<Label>)
    requires Usable(cfg) && n <= |cfg.names|
    ensures var y := Exec(cfg, t0, ls);
      && Idle(y.sh) && y.streams == [] && y.sh.now == t0
      && (forall p :: 0 <= p < n ==> y.sh.breakers[p].state.Open? && y.sh.breakers[p].since == t0)
      && (forall p :: n <= p < |cfg.names| ==> y.sh.breakers[p] == Breaker.Fresh(t0))
  {
    hide Inv, Exec;
    if n == 0 {
      ls := [];
      ExecSnoc(cfg, t0, [], Reset);
    } else {
      ls := OpenBreakers(cfg, t0, n - 1);
      ls := OpenBreaker(cfg, t0, ls, n - 1);
    }
  }

  /** With every breaker open a request becomes a stream, is told of no provider, and receives nothing
      but a truncation. */
  lemma NoProviderNoStatus(cfg: Config, t0: int) returns (ls: seq<Label>)
    requires Usable(cfg)
    ensures var y := Exec(cfg, t0, ls);
      && |y.streams| == 1 && y.streams[0].pc.Finished?
      && y.streams[0].wire == [Truncated(AllProvidersExhausted, 0)]
  {
    hide Inv, Exec;
    ls := OpenBreakers(cfg, t0, |cfg.names|);
    ls := Arrive(cfg, t0, ls);
    var y := Exec(cfg, t0, ls);
    forall p | 0 <= p < |cfg.names|
      ensures Refused(cfg, y.sh, y.streams[0], p)
    {
    }
    var k := |cfg.names| + 2;
    StatusMissingExactly(cfg, t0, ls, 0, k);
    OneStream(cfg, t0, ls, k);
    ls := ls + Alone(0, k);
  }

  lemma {:induction false} OneStream(cfg: Config, t0: int, ls: seq<Label>, k: nat)
    requires cfg.Valid()
    ensures |Exec(cfg, t0, ls + Alone(0, k)).streams| == |Exec(cfg, t0, ls).streams|
  {
    hide Inv, Exec, Next;
    if k == 0 {
      AloneMore(ls, 0, 0);
    } else {
      OneStream(cfg, t0, ls, k - 1);
      assert ls + Alone(0, k) == ls + Alone(0, k - 1) + [Run(0, Quiet)];
      ExecSnoc(cfg, t0, ls + Alone(0, k - 1), Run(0, Quiet));
    }
  }

  // ---- Usage that is never billed ----

  /** One stream waits for the first frame of the first provider. */
  lemma OneReads(cfg: Config, t0: int) returns (ls: seq<Label>)
    requires Usable(cfg) && |cfg.names| > 0
    ensures var y := Exec(cfg, t0, ls);
      && |y.streams| == 1 && NoReset(ls) && y.streams[0].pc.Reading? && y.sh.used == 0 && y.sh.ledger == []
      && y.streams[0].cur == Some(Attempt(0, [], 0, Running, 0)) && y.streams[0].settled == []
      && y.streams[0].past == [] && y.streams[0].claimed == {} && y.streams[0].failovers == 0
      && y.sh.now == t0 && forall p :: 0 <= p < |cfg.names| ==> y.sh.breakers[p] == Breaker.Fresh(t0)
  {
    hide Inv, Exec;
    ExecSnoc(cfg, t0, [], Reset);
    ls := Arrive(cfg, t0, []);
    RunOne(cfg, t0, ls, 0, Quiet);
    ls := ls + [Run(0, Quiet)];
  }

  /** It has reserved one token for a text and told the limiter. */
  lemma OneWrites(cfg: Config, t0: int) returns (ls: seq<Label>)
    requires Usable(cfg) && |cfg.names| > 0
    ensures var y := Exec(cfg, t0, ls);
      && |y.streams| == 1 && NoReset(ls) && y.streams[0].pc == Writing("a", 1) && y.sh.used == 1 && y.sh.ledger == []
      && y.streams[0].cur == Some(Attempt(0, [], 0, Running, 0)) && y.streams[0].settled == []
  {
    hide Inv, Exec;
    ls := OneReads(cfg, t0);
    var x := Receive(Text("a", 1));
    RunOne(cfg, t0, ls, 0, x);
    ls := ls + [Run(0, x)];
    RunOne(cfg, t0, ls, 0, Quiet);
    ls := ls + [Run(0, Quiet)];
    RunOne(cfg, t0, ls, 0, Quiet);
    ls := ls + [Run(0, Quiet)];
    RunOne(cfg, t0, ls, 0, Quiet);
    ls := ls + [Run(0, Quiet)];
  }

  /** The text is delivered and the client cancels: everything is at rest, one token is used and none
      is billed. */
  lemma CancelledUsageStays(cfg: Config, t0: int) returns (ls: seq<Label>)
    requires Usable(cfg) && |cfg.names| > 0
    ensures var y := Exec(cfg, t0, ls);
      NoReset(ls) && AtRest(y) && y.sh.used == 1 && Billed(y.sh.ledger) == 0
  {
    hide Inv, Exec;
    ls := OneWrites(cfg, t0);
    RunOne(cfg, t0, ls, 0, WriteOk);
    ls := ls + [Run(0, WriteOk)];
    RunOne(cfg, t0, ls, 0, ReceiveError(Cancelled));
    ls := ls + [Run(0, ReceiveError(Cancelled))];
    RunOne(cfg, t0, ls, 0, Quiet);
    ls := ls + [Run(0, Quiet)];
  }

  // ---- A provider announced in vain ----

  /** The first attempt fails and the hop, finding the second provider closed, announces it. */
  lemma SecondAnnounced(cfg: Config, t0: int) returns (ls: seq<Label>)
    requires Usable(cfg) && |cfg.names| >= 2
    ensures var y := Exec(cfg, t0, ls);
      && |y.streams| == 1 && y.streams[0].pc == Choosing(1, Some(1)) && |y.streams[0].past| == 1
      && y.streams[0].claimed == {} && y.streams[0].failovers == 1
      && y.sh.now == t0 && forall p :: 1 <= p < |cfg.names| ==> y.sh.breakers[p] == Breaker.Fresh(t0)
  {
    hide Inv, Exec;
    ls := OneReads(cfg, t0);
    var x := ReceiveError(Failed(DeadSocket));
    RunOne(cfg, t0, ls, 0, x);
    ls := ls + [Run(0, x)];
    RunOne(cfg, t0, ls, 0, Quiet);
    ls := ls + [Run(0, Quiet)];
    assert Exec(cfg, t0, ls).streams[0].pc == Searching(1);
    RunOne(cfg, t0, ls, 0, Quiet);
    ls := ls + [Run(0, Quiet)];
    assert Exec(cfg, t0, ls).streams[0].pc == Releasing(1, Budget.Start);
    RunOne(cfg, t0, ls, 0, Quiet);
    ls := ls + [Run(0, Quiet)];
  }

  /** Other keys' failures open every breaker from the second on. */
  lemma {:induction false} OpenRest(cfg: Config, t0: int, ls: seq<Label>, n: nat) returns (more: seq<Label>)
    requires Usable(cfg) && 1 <= n <= |cfg.names|
    requires var y := Exec(cfg, t0, ls);
      y.sh.now == t0 && forall p :: 1 <= p < |cfg.names| ==> y.sh.breakers[p] == Breaker.Fresh(t0)
    ensures var y, z := Exec(cfg, t0, ls), Exec(cfg, t0, more);
      && ls <= more && z.streams == y.streams && z.sh.now == t0
      && (forall p :: 1 <= p < n ==> z.sh.breakers[p].state.Open? && z.sh.breakers[p].since == t0)
      && (forall p :: n <= p < |cfg.names| ==> z.sh.breakers[p] == Breaker.Fresh(t0))
  {
    hide Inv, Exec;
    more := ls;
    if n > 1 {
      more := OpenRest(cfg, t0, ls, n - 1);
      more := OpenBreaker(cfg, t0, more, n - 1);
    }
  }

  /** Atomicity of the hop is needed in every configuration with two providers: after the second was
      announced other keys' failures open the breakers; the stream ends with one attempt, one
      failover, no truncation and no ledger record. */
  lemma InterferenceStrandsAnnouncement(cfg: Config, t0: int) returns (ls: seq<Label>)
    requires Usable(cfg) && |cfg.names| >= 2
    ensures |Exec(cfg, t0, ls).streams| == 1
    ensures var s := Exec(cfg, t0, ls).streams[0];
      && s.pc.Finished? && s.settled == [] && s.failovers == |s.Attempts()| == 1
      && s.wire != [] && !s.wire[|s.wire| - 1].Truncated?
  {
    hide Inv, Exec;
    ls := SecondAnnounced(cfg, t0);
    ls := OpenRest(cfg, t0, ls, |cfg.names|);
    var y := Exec(cfg, t0, ls);
    forall p | 1 <= p < |cfg.names|
      ensures Refused(cfg, y.sh, y.streams[0], p)
    {
    }
    var k := |cfg.names| + 2;
    StrandedExactly(cfg, t0, ls, 0, k);
    WalkEnds(cfg, t0, ls, 0, k);
    OneStream(cfg, t0, ls, k);
    ls := ls + Alone(0, k);
    OneAttempt(cfg, Exec(cfg, t0, ls).streams[0]);
  }

  lemma OneAttempt(cfg: Config, s: Stream)
    requires Inv(cfg, s) && s.cur.None? && s.pc.Finished? && s.past != []
    ensures s.failovers == |s.past| == |s.Attempts()| && s.wire != []
  {
  }

  // ---- Two probes at once ----

  /** Stream `id` starts an attempt on provider 0 as the probe of its half-open breaker. */
  ghost predicate ProbesFirst(cfg: Config, t0: int, ls: seq<Label>, n: nat, id: nat)
    requires cfg.Valid() && |cfg.names| > 0 && n < |ls|
  {
    var y, z := Exec(cfg, t0, ls[..n]), Exec(cfg, t0, ls[..n + 1]);
    && ls[n] == Run(id, Quiet) && id < |y.streams| && id < |z.streams|
    && y.streams[id].pc.Choosing? && z.streams[id].pc.Reading?
    && z.streams[id].cur == Some(Attempt(0, [], 0, Running, 0))
    && z.sh.breakers[0].state.HalfOpen? && z.sh.breakers[0].probing
  }

  lemma StillProbes(cfg: Config, t0: int, ls: seq<Label>, more: seq<Label>, n: nat, id: nat)
    requires cfg.Valid() && |cfg.names| > 0 && n < |ls| && ls <= more && ProbesFirst(cfg, t0, ls, n, id)
    ensures ProbesFirst(cfg, t0, more, n, id)
  {
    assert more[..n] == ls[..n] && more[..n + 1] == ls[..n + 1];
  }

  /** Stream `id` has not chosen a provider yet. */
  predicate Waits(s: Stream) {
    s.pc == Choosing(0, None) && s.past == [] && s.cur.None? && s.claimed == {}
  }

  /** Once the time-out of the open first breaker has passed, a waiting stream becomes its probe. */
  lemma BecomeProbe(cfg: Config, t0: int, ls: seq<Label>, id: nat) returns (more: seq<Label>, n: nat)
    requires Usable(cfg) && |cfg.names| > 0 && id < |Exec(cfg, t0, ls).streams|
    requires var y := Exec(cfg, t0, ls); Waits(y.streams[id]) && y.sh.breakers[0].state.Open? && y.sh.breakers[0].since == y.sh.now
    ensures ls <= more && |ls| <= n < |more| && ProbesFirst(cfg, t0, more, n, id)
    ensures var y, z := Exec(cfg, t0, ls), Exec(cfg, t0, more);
      && |z.streams| == |y.streams| && (forall i :: 0 <= i < |y.streams| && i != id ==> z.streams[i] == y.streams[i])
      && z.streams[id].pc.Reading? && z.streams[id].cur == Some(Attempt(0, [], 0, Running, 0))
      && z.sh.breakers[0].state.HalfOpen? && z.sh.breakers[0].probing
  {
    hide Inv, Exec;
    var tick := Tick(cfg.breakers[0].openTimeout);
    ExecSnoc(cfg, t0, ls, tick);
    var late := ls + [tick];
    RunOne(cfg, t0, late, id, Quiet);
    more, n := late + [Run(id, Quiet)], |late|;
    assert more[..n] == late && more[..n + 1] == more;
  }

  /** One stream, the probe of the first provider. */
  lemma OneProbes(cfg: Config, t0: int) returns (ls: seq<Label>)
    requires Usable(cfg) && |cfg.names| > 0
    ensures var y := Exec(cfg, t0, ls);
      && |y.streams| == 1 && y.streams[0].pc.Reading? && y.streams[0].cur == Some(Attempt(0, [], 0, Running, 0))
      && y.sh.breakers[0].state.HalfOpen? && y.sh.breakers[0].probing
  {
    hide Inv, Exec;
    ExecSnoc(cfg, t0, [], Reset);
    ls := Arrive(cfg, t0, []);
    ls := OpenBreaker(cfg, t0, ls, 0);
    var n;
    ls, n := BecomeProbe(cfg, t0, ls, 0);
  }

  /** Three streams; the first is admitted while the breaker is closed, then others' failures open it. */
  lemma FirstReadsThenOpen(cfg: Config, t0: int) returns (ls: seq<Label>)
    requires Usable(cfg) && |cfg.names| > 0
    ensures var y := Exec(cfg, t0, ls);
      && |y.streams| == 3 && Waits(y.streams[1]) && Waits(y.streams[2])
      && y.streams[0].pc.Reading? && y.streams[0].cur == Some(Attempt(0, [], 0, Running, 0))
      && y.sh.breakers[0].state.Open? && y.sh.breakers[0].since == y.sh.now
  {
    hide Inv, Exec;
    ExecSnoc(cfg, t0, [], Reset);
    ls := Arrive(cfg, t0, []);
    ls := Arrive(cfg, t0, ls);
    ls := Arrive(cfg, t0, ls);
    RunOne(cfg, t0, ls, 0, Quiet);
    ls := ls + [Run(0, Quiet)];
    ls := OpenBreaker(cfg, t0, ls, 0);
  }

  /** The first stream, still under way, fails late: the half-open breaker opens again under its probe. */
  lemma LateFailure(cfg: Config, t0: int, ls: seq<Label>) returns (more: seq<Label>)
    requires Usable(cfg) && |cfg.names| > 0 && |Exec(cfg, t0, ls).streams| == 3
    requires var y := Exec(cfg, t0, ls);
      && y.streams[0].pc.Reading? && y.streams[0].cur == Some(Attempt(0, [], 0, Running, 0))
      && y.sh.breakers[0].state.HalfOpen?
    ensures var y, z := Exec(cfg, t0, ls), Exec(cfg, t0, more);
      && ls <= more && |z.streams| == 3 && z.streams[1] == y.streams[1] && z.streams[2] == y.streams[2]
      && z.sh.breakers[0].state.Open? && z.sh.breakers[0].since == z.sh.now
  {
    hide Inv, Exec;
    var x := ReceiveError(Failed(DeadSocket));
    RunOne(cfg, t0, ls, 0, x);
    RunOne(cfg, t0, ls + [Run(0, x)], 0, Quiet);
    more := ls + [Run(0, x)] + [Run(0, Quiet)];
  }

  /** In every configuration there is a run after which two streams are attempting the same provider,
      each admitted as the probe of its half-open breaker: an attempt admitted earlier, while the
      breaker was closed, reported its failure after the first probe had started. */
  lemma TwoProbesAtOnce(cfg: Config, t0: int) returns (ls: seq<Label>, n1: nat, n2: nat)
    requires Usable(cfg) && |cfg.names| > 0
    ensures n1 < n2 < |ls| && ProbesFirst(cfg, t0, ls, n1, 1) && ProbesFirst(cfg, t0, ls, n2, 2)
    ensures var y := Exec(cfg, t0, ls);
      && |y.streams| == 3 && y.streams[1].pc.Reading? && y.streams[2].pc.Reading?
      && y.streams[1].cur == y.streams[2].cur == Some(Attempt(0, [], 0, Running, 0))
  {
    hide Inv, Exec, ProbesFirst;
    var a := FirstReadsThenOpen(cfg, t0);
    var b, n := BecomeProbe(cfg, t0, a, 1);
    var c := LateFailure(cfg, t0, b);
    ls, n2 := BecomeProbe(cfg, t0, c, 2);
    n1 := n;
    StillProbes(cfg, t0, b, ls, n1, 1);
  }
}
