/** Probes that are never answered: exactly when a half-open breaker stays claimed, whatever the
    streams of the key do, so that no stream attempts its provider again. */
module Probes {
  import opened Protocol
  import opened Gateway
  import opened Accounting
  import opened System
  import opened Periods
  import Breaker
  import Budget
  import Reports
  import Scenarios

  /** Breaker `p` is half open and its probe claimed. */
  ghost predicate ProbeOut(cfg: Config, sh: Shared, p: nat)
    requires Matches(cfg, sh) && p < |cfg.names|
  {
    sh.breakers[p].state.HalfOpen? && sh.breakers[p].probing
  }

  // ---- Who can still answer ----

  /** A provider other than `p`, from `k` on. */
  predicate Another(cfg: Config, k: nat, p: nat) {
    k < |cfg.names| && (k != p || k + 1 < |cfg.names|)
  }

  /** The stream has an attempt on `p` whose result it can still hand to the breaker. */
  predicate Owes(s: Stream, p: nat) {
    && s.cur.Some? && s.cur.value.provider == p
    && match s.pc
       case Reading => true
       case Writing(_, _) => true
       case Reserving(_, _) => Fits(s)
       case Recording => !s.cur.value.outcome.Cancelled? && !s.cur.value.outcome.Shutdown?
       case _ => false
  }

  /** The providers from `from` on that the stream has claimed before `p` are attempted first; after
      each of them another than `p` must be left to announce. */
  ghost predicate Clear(cfg: Config, s: Stream, from: nat, p: nat) {
    forall q :: from <= q < p && q in s.claimed ==> Another(cfg, q + 1, p)
  }

  /** The current attempt, on a provider before `p`, can still fail and be replaced. */
  ghost predicate ComesBack(cfg: Config, s: Stream, p: nat)
    requires s.cur.Some?
  {
    s.cur.value.provider < p && Clear(cfg, s, s.cur.value.provider + 1, p)
  }

  /** The stream holds a claim on `p` and can still come to it. */
  ghost predicate Reaches(cfg: Config, s: Stream, p: nat) {
    && p in s.claimed && p < |cfg.names|
    && match s.pc
       case Choosing(x, _) => x <= p && Clear(cfg, s, x, p)
       case Reading => s.cur.Some? && ComesBack(cfg, s, p) && Another(cfg, s.cur.value.provider + 1, p)
       case Writing(_, _) => s.cur.Some? && ComesBack(cfg, s, p) && Another(cfg, s.cur.value.provider + 1, p)
       case Reserving(want, c) =>
         && s.cur.Some? && ComesBack(cfg, s, p) && Another(cfg, s.cur.value.provider + 1, p)
         && Fits(s) && (!c.Granted? ==> Amount(s, want) <= cfg.budget)
       case Recording =>
         && s.cur.Some? && ComesBack(cfg, s, p) && Another(cfg, s.cur.value.provider + 1, p)
         && s.cur.value.outcome.Failed?
       case Searching(k) => s.cur.Some? && ComesBack(cfg, s, p) && Another(cfg, k, p)
       case Claiming(k) => s.cur.Some? && ComesBack(cfg, s, p) && (k > p || Another(cfg, k + 1, p))
       case Releasing(_, _) => s.cur.Some? && ComesBack(cfg, s, p)
       case _ => false
  }

  ghost predicate CanAnswer(cfg: Config, s: Stream, p: nat) {
    Owes(s, p) || Reaches(cfg, s, p)
  }

  // ---- Nobody can: the probe is lost for good ----

  lemma CallKeepsProbeOut(cfg: Config, sh: Shared, p: nat, q: nat, call: Breaker.Call)
    requires Matches(cfg, sh) && p < |cfg.names| && q < |cfg.names| && ProbeOut(cfg, sh, p)
    requires q == p ==> !call.Releases()
    ensures var (sh', granted) := CallBreaker(cfg, sh, q, call);
      Matches(cfg, sh') && ProbeOut(cfg, sh', p) && (q == p ==> !granted)
  {
  }

  ghost predicate Lost(cfg: Config, sh: Shared, s: Stream, p: nat)
    requires Matches(cfg, sh) && p < |cfg.names|
  {
    ProbeOut(cfg, sh, p) && !CanAnswer(cfg, s, p)
  }

  lemma ChooseStaysLost(cfg: Config, sh: Shared, s: Stream, p: nat)
    requires Matches(cfg, sh) && Shape(cfg, s) && s.pc.Choosing? && p < |cfg.names| && Lost(cfg, sh, s, p)
    ensures var (sh', s') := OnChoose(cfg, sh, s, s.pc.i, s.pc.hop); Matches(cfg, sh') && Lost(cfg, sh', s', p)
  {
    hide CallBreaker;
    var i := s.pc.i;
    if i < |cfg.names| {
      CallKeepsProbeOut(cfg, sh, p, i, Breaker.AllowAttempt);
      if i <= p && !Clear(cfg, s, i, p) {
        var q :| i <= q < p && q in s.claimed && !Another(cfg, q + 1, p);
        var s' := OnChoose(cfg, sh, s, i, s.pc.hop).1;
        assert q > i ==> q in s'.claimed && !Clear(cfg, s', i + 1, p);
      }
    }
  }

  lemma ReserveStaysLost(cfg: Config, sh: Shared, s: Stream, p: nat)
    requires Matches(cfg, sh) && Inv(cfg, s) && s.pc.Reserving? && p < |cfg.names| && Lost(cfg, sh, s, p)
    requires Budget.InBounds(cfg.budget, sh.used)
    ensures LoadOk(sh, s) ==>
      var (sh', s') := OnReserve(cfg, sh, s, s.pc.want, s.pc.c); Matches(cfg, sh') && Lost(cfg, sh', s', p)
  {
    hide OpenWire, WireGrammar, Log, Failovers, FailoverTokens, Gap, Billed, Count, Corrections, Closed;
  }

  lemma RecordStaysLost(cfg: Config, sh: Shared, s: Stream, p: nat)
    requires Matches(cfg, sh) && Shape(cfg, s) && s.pc.Recording? && p < |cfg.names| && Lost(cfg, sh, s, p)
    ensures var (sh', s') := OnRecord(cfg, sh, s); Matches(cfg, sh') && Lost(cfg, sh', s', p)
  {
    hide CallBreaker;
    var q := s.cur.value.provider;
    if q != p {
      CallKeepsProbeOut(cfg, sh, p, q, Breaker.RecordSuccess);
      CallKeepsProbeOut(cfg, sh, p, q, Breaker.RecordFailure);
    }
  }

  lemma HopStaysLost(cfg: Config, sh: Shared, s: Stream, p: nat)
    requires Matches(cfg, sh) && Shape(cfg, s) && (s.pc.Searching? || s.pc.Claiming?) && p < |cfg.names| && Lost(cfg, sh, s, p)
    ensures var (sh', s') := Next(cfg, sh, s, Quiet); Matches(cfg, sh') && Lost(cfg, sh', s', p)
  {
    hide CallBreaker;
    if s.pc.k < |cfg.names| {
      CallKeepsProbeOut(cfg, sh, p, s.pc.k, Breaker.GetState);
      CallKeepsProbeOut(cfg, sh, p, s.pc.k, Breaker.TryClaimProbe);
    }
  }

  lemma QuietStaysLost(cfg: Config, sh: Shared, s: Stream, x: Input, p: nat)
    requires Matches(cfg, sh) && Shape(cfg, s) && InputOk(x) && p < |cfg.names| && Lost(cfg, sh, s, p)
    requires s.pc.Reading? || s.pc.Writing? || s.pc.Settling? || s.pc.Finished?
    ensures var (sh', s') := Next(cfg, sh, s, x); Matches(cfg, sh') && Lost(cfg, sh', s', p)
  {
  }

  lemma ReleaseStaysLost(cfg: Config, sh: Shared, s: Stream, p: nat)
    requires Matches(cfg, sh) && Shape(cfg, s) && s.pc.Releasing? && p < |cfg.names| && Lost(cfg, sh, s, p)
    ensures var (sh', s') := OnRelease(cfg, sh, s, s.pc.to, s.pc.c); Matches(cfg, sh') && Lost(cfg, sh', s', p)
  {
  }

  lemma NextStaysLost(cfg: Config, sh: Shared, s: Stream, x: Input, p: nat)
    requires Matches(cfg, sh) && Inv(cfg, s) && StepOk(sh, s, x) && Budget.InBounds(cfg.budget, sh.used)
    requires p < |cfg.names| && Lost(cfg, sh, s, p)
    ensures Shape(cfg, s)
    ensures var (sh', s') := Next(cfg, sh, s, x); Matches(cfg, sh') && Lost(cfg, sh', s', p)
  {
    hide Inv, Lost, OnChoose, OnReserve, OnRecord, OnSearch, OnClaim, OnRelease, OnInput, OnWrite, OnSettle;
    InvShape(cfg, s);
    match s.pc
    case Choosing(_, _) => ChooseStaysLost(cfg, sh, s, p);
    case Reserving(_, _) => ReserveStaysLost(cfg, sh, s, p);
    case Recording => RecordStaysLost(cfg, sh, s, p);
    case Searching(_) => HopStaysLost(cfg, sh, s, p);
    case Claiming(_) => HopStaysLost(cfg, sh, s, p);
    case Releasing(_, _) => ReleaseStaysLost(cfg, sh, s, p);
    case _ => QuietStaysLost(cfg, sh, s, x, p);
  }

  /** Breaker `p` is claimed, and no stream of the key can answer for it. */
  ghost predicate AllLost(cfg: Config, y: Sys, p: nat)
    requires Matches(cfg, y.sh) && p < |cfg.names|
  {
    ProbeOut(cfg, y.sh, p) && forall i :: 0 <= i < |y.streams| ==> !CanAnswer(cfg, y.streams[i], p)
  }

  /** The step is not a result or forced state recorded on `p` for another key. */
  predicate Spares(l: Label, p: nat) {
    l.Foreign? && l.p == p ==> !l.call.Releases()
  }

  ghost predicate AllSpare(ls: seq<Label>, p: nat) {
    forall i :: 0 <= i < |ls| ==> Spares(ls[i], p)
  }

  lemma NewcomerOwesNothing(cfg: Config, s: Stream, p: nat)
    requires s == NewStream()
    ensures !CanAnswer(cfg, s, p)
  {
  }

  lemma StepStaysLost(cfg: Config, y: Sys, l: Label, p: nat)
    requires WF(cfg, y) && p < |cfg.names| && AllLost(cfg, y, p) && Spares(l, p)
    ensures var z := Step(cfg, y, l); Matches(cfg, z.sh) && AllLost(cfg, z, p)
  {
    hide Inv, Next, CanAnswer, CallBreaker, Admits;
    match l
    case Spawn => NewcomerOwesNothing(cfg, NewStream(), p);
    case Run(id, x) =>
      if id < |y.streams| && StepOk(y.sh, y.streams[id], x) {
        NextStaysLost(cfg, y.sh, y.streams[id], x, p);
      }
    case Foreign(q, call) => if q < |cfg.names| { CallKeepsProbeOut(cfg, y.sh, p, q, call); }
    case _ =>
  }

  lemma {:induction false} StaysLost(cfg: Config, t0: int, ls: seq<Label>, more: seq<Label>, p: nat)
    requires cfg.Valid() && p < |cfg.names| && AllSpare(more, p) && AllLost(cfg, Exec(cfg, t0, ls), p)
    ensures AllLost(cfg, Exec(cfg, t0, ls + more), p)
  {
    hide Inv, Exec, Step, AllLost;
    ExecMore(cfg, t0, ls, more);
    if more != [] {
      var n := |more| - 1;
      StaysLost(cfg, t0, ls, more[..n], p);
      StepStaysLost(cfg, Exec(cfg, t0, ls + more[..n]), more[n], p);
    }
  }

  // ---- Somebody can: a run in which the result is recorded ----

  /** The run `more` goes on from `ls` and other keys record nothing on `p`. */
  ghost predicate Sparing(ls: seq<Label>, more: seq<Label>, p: nat) {
    ls <= more && forall i :: |ls| <= i < |more| ==> Spares(more[i], p)
  }

  /** Only breaker `q` and the clock were touched. */
  ghost predicate Touched(cfg: Config, y: Sys, z: Sys, q: nat) {
    && Matches(cfg, y.sh) && Matches(cfg, z.sh) && z.streams == y.streams
    && forall r :: 0 <= r < |cfg.names| && r != q ==> z.sh.breakers[r] == y.sh.breakers[r]
  }

  /** After `k` failures in a row at one moment. */
  ghost predicate Failing(b: Breaker.Config, c: Breaker.Circuit, now: int, k: nat) {
    || (c.state.Open? && c.since == now)
    || (!c.state.HalfOpen? && k <= c.failures < b.failureThreshold)
    || k == 0
  }

  lemma FailStep(b: Breaker.Config, c: Breaker.Circuit, now: int, k: nat)
    requires b.Valid() && Failing(b, c, now, k)
    ensures Failing(b, Breaker.Apply(b, c, Breaker.RecordFailure, now).circuit, now, k + 1)
  {
  }

  lemma {:induction false} Failures(cfg: Config, t0: int, ls: seq<Label>, q: nat, p: nat, k: nat) returns (more: seq<Label>)
    requires Scenarios.Usable(cfg) && q < |cfg.names| && q != p
    ensures Sparing(ls, more, p)
    ensures var y, z := Exec(cfg, t0, ls), Exec(cfg, t0, more);
      Touched(cfg, y, z, q) && z.sh.now == y.sh.now && Failing(cfg.breakers[q], z.sh.breakers[q], y.sh.now, k)
  {
    hide Inv, Exec, Failing, Breaker.Apply;
    more := ls;
    if k == 0 {
      NoFailures(cfg.breakers[q], Exec(cfg, t0, ls).sh.breakers[q], Exec(cfg, t0, ls).sh.now);
    } else {
      more := Failures(cfg, t0, ls, q, p, k - 1);
      var z := Exec(cfg, t0, more);
      FailStep(cfg.breakers[q], z.sh.breakers[q], z.sh.now, k - 1);
      ExecSnoc(cfg, t0, more, Foreign(q, Breaker.RecordFailure));
      more := more + [Foreign(q, Breaker.RecordFailure)];
    }
  }

  lemma NoFailures(b: Breaker.Config, c: Breaker.Circuit, now: int)
    ensures Failing(b, c, now, 0)
  {
  }

  /** Other keys' failures open breaker `q` now. */
  lemma OpenNow(cfg: Config, t0: int, ls: seq<Label>, q: nat, p: nat) returns (more: seq<Label>)
    requires Scenarios.Usable(cfg) && q < |cfg.names| && q != p
    ensures Sparing(ls, more, p)
    ensures var y, z := Exec(cfg, t0, ls), Exec(cfg, t0, more);
      Touched(cfg, y, z, q) && z.sh.breakers[q].state.Open? && z.sh.breakers[q].since == z.sh.now
  {
    hide Inv, Exec;
    more := Failures(cfg, t0, ls, q, p, cfg.breakers[q].failureThreshold);
  }

  /** Half open with `k` successes to go, or closed already. */
  ghost predicate Healing(b: Breaker.Config, c: Breaker.Circuit, k: int) {
    c.state.Closed? || (c.state.HalfOpen? && c.successes + k >= b.halfOpenSuccessThreshold)
  }

  lemma HealStep(b: Breaker.Config, c: Breaker.Circuit, now: int, k: int)
    requires b.Valid() && Healing(b, c, k) && k >= 1
    ensures Healing(b, Breaker.Apply(b, c, Breaker.RecordSuccess, now).circuit, k - 1)
    ensures k == 1 ==> Breaker.Apply(b, c, Breaker.RecordSuccess, now).circuit.state.Closed?
  {
  }

  lemma {:induction false} Successes(cfg: Config, t0: int, ls: seq<Label>, q: nat, p: nat, k: nat) returns (more: seq<Label>)
    requires Scenarios.Usable(cfg) && q < |cfg.names| && q != p && k >= 1
    requires Healing(cfg.breakers[q], Exec(cfg, t0, ls).sh.breakers[q], k)
    ensures Sparing(ls, more, p)
    ensures var y, z := Exec(cfg, t0, ls), Exec(cfg, t0, more);
      Touched(cfg, y, z, q) && z.sh.breakers[q].state.Closed?
    decreases k
  {
    hide Inv, Exec, Healing, Breaker.Apply;
    var y := Exec(cfg, t0, ls);
    HealStep(cfg.breakers[q], y.sh.breakers[q], y.sh.now, k);
    ExecSnoc(cfg, t0, ls, Foreign(q, Breaker.RecordSuccess));
    more := ls + [Foreign(q, Breaker.RecordSuccess)];
    if k > 1 {
      more := Successes(cfg, t0, more, q, p, k - 1);
    }
  }

  lemma RefreshHeals(b: Breaker.Config, c: Breaker.Circuit, now: int)
    requires b.Valid() && now - c.since >= b.openTimeout
    ensures Healing(b, Breaker.Apply(b, c, Breaker.GetState, now).circuit, b.halfOpenSuccessThreshold)
  {
  }

  /** Time and other keys' successes close breaker `q`. */
  lemma CloseNow(cfg: Config, t0: int, ls: seq<Label>, q: nat, p: nat) returns (more: seq<Label>)
    requires Scenarios.Usable(cfg) && q < |cfg.names| && q != p
    ensures Sparing(ls, more, p)
    ensures var y, z := Exec(cfg, t0, ls), Exec(cfg, t0, more);
      Touched(cfg, y, z, q) && z.sh.breakers[q].state.Closed?
  {
    hide Inv, Exec, Breaker.Apply, Healing;
    var y := Exec(cfg, t0, ls);
    var b := cfg.breakers[q];
    Reports.AlwaysPast(cfg, t0, ls);
    var tick, look := Tick(b.openTimeout), Foreign(q, Breaker.GetState);
    ExecSnoc(cfg, t0, ls, tick);
    ExecSnoc(cfg, t0, ls + [tick], look);
    RefreshHeals(b, y.sh.breakers[q], y.sh.now + b.openTimeout);
    more := Successes(cfg, t0, ls + [tick] + [look], q, p, b.halfOpenSuccessThreshold);
  }

  // ---- The stream comes to the provider and answers ----

  /** In the state after `ls` stream `id` exists and breaker `p` is claimed. */
  ghost predicate At(cfg: Config, t0: int, ls: seq<Label>, id: nat, p: nat)
    requires cfg.Valid() && p < |cfg.names|
  {
    var y := Exec(cfg, t0, ls); id < |y.streams| && ProbeOut(cfg, y.sh, p)
  }

  /** With no usage, a reservation that fits goes through, or is refused if it exceeds the budget. */
  lemma ReserveMove(cfg: Config, sh: Shared, s: Stream)
    requires Inv(cfg, s) && Matches(cfg, sh) && s.pc.Reserving? && Fits(s) && sh.used == 0
    ensures LoadOk(sh, s)
    ensures var n := Amount(s, s.pc.want); var (sh', s') := OnReserve(cfg, sh, s, s.pc.want, s.pc.c);
      && sh'.breakers == sh.breakers && s'.claimed == s.claimed
      && s'.cur.Some? && s'.cur.value.provider == s.cur.value.provider
      && match s.pc.c
         case Granted => s'.pc.Writing? || s'.pc.Reading?
         case Loaded(v) =>
           if v == 0 then s'.pc == Reserving(s.pc.want, Budget.Granted) && n <= cfg.budget && Fits(s')
           else s' == s.(pc := Reserving(s.pc.want, Budget.Start))
         case _ =>
           if n <= cfg.budget then s' == s.(pc := Reserving(s.pc.want, Budget.Loaded(0)))
           else s'.pc.Recording? && s'.cur.value.outcome.OverBudget?
  {
    hide OpenWire, WireGrammar, Log, Failovers, FailoverTokens, Gap, Billed, Count, Corrections, Closed;
  }

  function Distance(s: Stream): nat {
    match s.pc
    case Reserving(_, Granted) => 1
    case Reserving(_, Loaded(v)) => if v == 0 then 2 else 4
    case Reserving(_, _) => 3
    case _ => 0
  }

  /** The attempt under way is made to fail; only a reservation above the budget ends it otherwise. */
  lemma {:induction false} EndFailed(cfg: Config, t0: int, ls: seq<Label>, id: nat, p: nat) returns (more: seq<Label>)
    requires cfg.Valid() && p < |cfg.names| && At(cfg, t0, ls, id, p)
    requires var s := Exec(cfg, t0, ls).streams[id];
      s.cur.Some? && (s.pc.Reading? || s.pc.Writing? || s.pc.Reserving?) && Fits(s)
    ensures Sparing(ls, more, p) && At(cfg, t0, more, id, p)
    ensures var s, s' := Exec(cfg, t0, ls).streams[id], Exec(cfg, t0, more).streams[id];
      && s'.pc.Recording? && s'.claimed == s.claimed
      && s'.cur.Some? && s'.cur.value.provider == s.cur.value.provider
      && (s'.cur.value.outcome.Failed? || s'.cur.value.outcome.OverBudget?)
      && (s'.cur.value.outcome.OverBudget? ==> s.pc.Reserving? && !s.pc.c.Granted? && Amount(s, s.pc.want) > cfg.budget)
    decreases Distance(Exec(cfg, t0, ls).streams[id])
  {
    hide Inv, Exec, OnReserve;
    var s := Exec(cfg, t0, ls).streams[id];
    if s.pc.Reading? {
      RunOne(cfg, t0, ls, id, ReceiveError(Failed(DeadSocket)));
      more := ls + [Run(id, ReceiveError(Failed(DeadSocket)))];
    } else if s.pc.Writing? {
      RunOne(cfg, t0, ls, id, WriteError(Failed(DeadSocket)));
      more := ls + [Run(id, WriteError(Failed(DeadSocket)))];
    } else {
      ExecSnoc(cfg, t0, ls, Reset);
      var renewed := ls + [Reset];
      ReserveMove(cfg, Exec(cfg, t0, renewed).sh, s);
      RunOne(cfg, t0, renewed, id, Quiet);
      more := renewed + [Run(id, Quiet)];
      if !Exec(cfg, t0, more).streams[id].pc.Recording? {
        more := EndFailed(cfg, t0, more, id, p);
      }
    }
  }

  /** A result recorded on the half-open breaker ends its probe. */
  lemma RecordAnswer(cfg: Config, t0: int, ls: seq<Label>, id: nat, p: nat) returns (more: seq<Label>)
    requires cfg.Valid() && p < |cfg.names| && At(cfg, t0, ls, id, p)
    requires var s := Exec(cfg, t0, ls).streams[id]; s.pc.Recording? && Owes(s, p)
    ensures Sparing(ls, more, p) && !ProbeOut(cfg, Exec(cfg, t0, more).sh, p)
  {
    hide Inv, Exec;
    RunOne(cfg, t0, ls, id, Quiet);
    more := ls + [Run(id, Quiet)];
  }

  lemma Answer(cfg: Config, t0: int, ls: seq<Label>, id: nat, p: nat) returns (more: seq<Label>)
    requires cfg.Valid() && p < |cfg.names| && At(cfg, t0, ls, id, p) && Owes(Exec(cfg, t0, ls).streams[id], p)
    ensures Sparing(ls, more, p) && !ProbeOut(cfg, Exec(cfg, t0, more).sh, p)
  {
    hide Inv, Exec, At, ProbeOut;
    more := ls;
    AtStream(cfg, t0, ls, id, p);
    if !Exec(cfg, t0, ls).streams[id].pc.Recording? {
      more := EndFailed(cfg, t0, ls, id, p);
    }
    AtStream(cfg, t0, more, id, p);
    more := RecordAnswer(cfg, t0, more, id, p);
  }

  lemma AtStream(cfg: Config, t0: int, ls: seq<Label>, id: nat, p: nat)
    requires cfg.Valid() && p < |cfg.names| && At(cfg, t0, ls, id, p)
    ensures id < |Exec(cfg, t0, ls).streams|
  {
  }

  /** A hop under way is left for the loop head; the claims stay. */
  lemma {:induction false} LeaveRelease(cfg: Config, t0: int, ls: seq<Label>, id: nat, p: nat) returns (more: seq<Label>)
    requires cfg.Valid() && p < |cfg.names| && At(cfg, t0, ls, id, p)
    requires var s := Exec(cfg, t0, ls).streams[id]; s.pc.Releasing? && s.cur.Some?
    ensures Sparing(ls, more, p) && At(cfg, t0, more, id, p)
    ensures var s, s' := Exec(cfg, t0, ls).streams[id], Exec(cfg, t0, more).streams[id];
      s'.pc.Choosing? && s'.pc.i == s.cur.value.provider + 1 && s'.claimed == s.claimed
    decreases var y := Exec(cfg, t0, ls);
      match y.streams[id].pc case Releasing(_, Loaded(v)) => if v == y.sh.used then 0 else 2 case _ => 1
  {
    hide Inv, Exec;
    RunOne(cfg, t0, ls, id, Quiet);
    more := ls + [Run(id, Quiet)];
    if Exec(cfg, t0, more).streams[id].pc.Releasing? {
      more := LeaveRelease(cfg, t0, more, id, p);
    }
  }

  /** The search finds another provider: if it stands at `p`, the one after it. */
  lemma FindAnother(cfg: Config, t0: int, ls: seq<Label>, id: nat, p: nat) returns (more: seq<Label>)
    requires Scenarios.Usable(cfg) && p < |cfg.names| && At(cfg, t0, ls, id, p)
    requires var s := Exec(cfg, t0, ls).streams[id]; s.pc.Searching? && s.cur.Some? && s.pc.k != p && s.pc.k < |cfg.names|
    ensures Sparing(ls, more, p) && At(cfg, t0, more, id, p)
    ensures var s, s' := Exec(cfg, t0, ls).streams[id], Exec(cfg, t0, more).streams[id];
      s'.pc.Choosing? && s'.pc.i == s.cur.value.provider + 1 && s'.claimed == s.claimed
  {
    hide Inv, Exec;
    var s := Exec(cfg, t0, ls).streams[id];
    more := CloseNow(cfg, t0, ls, s.pc.k, p);
    RunOne(cfg, t0, more, id, Quiet);
    more := more + [Run(id, Quiet)];
    more := LeaveRelease(cfg, t0, more, id, p);
  }

  /** The search passes `p` itself, whose probe is out. */
  lemma PassBy(cfg: Config, t0: int, ls: seq<Label>, id: nat, p: nat) returns (more: seq<Label>)
    requires cfg.Valid() && p < |cfg.names| && At(cfg, t0, ls, id, p)
    requires var s := Exec(cfg, t0, ls).streams[id]; s.pc == Searching(p) || s.pc == Claiming(p)
    ensures Sparing(ls, more, p) && At(cfg, t0, more, id, p)
    ensures var s, s' := Exec(cfg, t0, ls).streams[id], Exec(cfg, t0, more).streams[id]; s' == s.(pc := Searching(p + 1))
  {
    hide Inv, Exec;
    more := ls;
    if Exec(cfg, t0, ls).streams[id].pc.Searching? {
      RunOne(cfg, t0, ls, id, Quiet);
      more := ls + [Run(id, Quiet)];
    }
    RunOne(cfg, t0, more, id, Quiet);
    more := more + [Run(id, Quiet)];
  }

  lemma SearchOn(cfg: Config, t0: int, ls: seq<Label>, id: nat, p: nat) returns (more: seq<Label>)
    requires Scenarios.Usable(cfg) && p < |cfg.names| && At(cfg, t0, ls, id, p)
    requires var s := Exec(cfg, t0, ls).streams[id]; s.pc.Searching? && s.cur.Some? && Another(cfg, s.pc.k, p)
    ensures Sparing(ls, more, p) && At(cfg, t0, more, id, p)
    ensures var s, s' := Exec(cfg, t0, ls).streams[id], Exec(cfg, t0, more).streams[id];
      s'.pc.Choosing? && s'.pc.i == s.cur.value.provider + 1 && s'.claimed == s.claimed
  {
    hide Inv, Exec, ProbeOut;
    more := ls;
    if Exec(cfg, t0, ls).streams[id].pc.k == p {
      more := PassBy(cfg, t0, ls, id, p);
    }
    more := FindAnother(cfg, t0, more, id, p);
  }

  /** A claim on a provider beyond `p` is granted, in the end. */
  lemma ClaimBeyond(cfg: Config, t0: int, ls: seq<Label>, id: nat, p: nat) returns (more: seq<Label>)
    requires Scenarios.Usable(cfg) && p < |cfg.names| && At(cfg, t0, ls, id, p)
    requires var s := Exec(cfg, t0, ls).streams[id]; s.pc.Claiming? && s.cur.Some? && p < s.pc.k < |cfg.names|
    ensures Sparing(ls, more, p) && At(cfg, t0, more, id, p)
    ensures var s, s' := Exec(cfg, t0, ls).streams[id], Exec(cfg, t0, more).streams[id];
      s'.pc.Choosing? && s'.pc.i == s.cur.value.provider + 1 && s'.claimed == s.claimed + {s.pc.k}
  {
    hide Inv, Exec;
    var s := Exec(cfg, t0, ls).streams[id];
    more := OpenNow(cfg, t0, ls, s.pc.k, p);
    var tick := Tick(cfg.breakers[s.pc.k].openTimeout);
    ExecSnoc(cfg, t0, more, tick);
    more := more + [tick];
    RunOne(cfg, t0, more, id, Quiet);
    more := more + [Run(id, Quiet)];
    more := LeaveRelease(cfg, t0, more, id, p);
  }

  /** A claim on a provider before `p` is refused. */
  lemma ClaimBefore(cfg: Config, t0: int, ls: seq<Label>, id: nat, p: nat) returns (more: seq<Label>)
    requires Scenarios.Usable(cfg) && p < |cfg.names| && At(cfg, t0, ls, id, p)
    requires var s := Exec(cfg, t0, ls).streams[id]; s.pc.Claiming? && s.cur.Some? && s.pc.k < p
    ensures Sparing(ls, more, p) && At(cfg, t0, more, id, p)
    ensures var s, s' := Exec(cfg, t0, ls).streams[id], Exec(cfg, t0, more).streams[id];
      s' == s.(pc := Searching(s.pc.k + 1))
  {
    hide Inv, Exec;
    var s := Exec(cfg, t0, ls).streams[id];
    more := OpenNow(cfg, t0, ls, s.pc.k, p);
    RunOne(cfg, t0, more, id, Quiet);
    more := more + [Run(id, Quiet)];
  }

  /** A failed attempt before `p` is recorded and searched on from. */
  lemma RecordFailed(cfg: Config, t0: int, ls: seq<Label>, id: nat, p: nat) returns (more: seq<Label>)
    requires cfg.Valid() && p < |cfg.names| && At(cfg, t0, ls, id, p)
    requires var s := Exec(cfg, t0, ls).streams[id];
      s.pc.Recording? && s.cur.Some? && s.cur.value.outcome.Failed? && s.cur.value.provider < p
    ensures Sparing(ls, more, p) && At(cfg, t0, more, id, p)
    ensures var s, s' := Exec(cfg, t0, ls).streams[id], Exec(cfg, t0, more).streams[id];
      s' == s.(pc := Searching(s.cur.value.provider + 1))
  {
    hide Inv, Exec;
    RunOne(cfg, t0, ls, id, Quiet);
    more := ls + [Run(id, Quiet)];
  }

  /** Where a stream that holds a claim on `p` stands. */
  function Place(s: Stream): int {
    if s.pc.Choosing? then s.pc.i else if s.cur.Some? then s.cur.value.provider + 1 else 0
  }

  /** Back at the loop head, after the attempt under way, the claims being those it had but for claims
      beyond `p`. */
  ghost predicate Returned(s: Stream, s': Stream, p: nat) {
    && s'.pc.Choosing? && s'.pc.i == Place(s)
    && forall q :: q <= p ==> (q in s'.claimed <==> q in s.claimed)
  }

  lemma ComeBackFromSearch(cfg: Config, t0: int, ls: seq<Label>, id: nat, p: nat) returns (more: seq<Label>)
    requires Scenarios.Usable(cfg) && p < |cfg.names| && At(cfg, t0, ls, id, p)
    requires var s := Exec(cfg, t0, ls).streams[id];
      (s.pc.Searching? || s.pc.Claiming? || s.pc.Releasing?) && Reaches(cfg, s, p)
    ensures Sparing(ls, more, p) && At(cfg, t0, more, id, p)
    ensures Returned(Exec(cfg, t0, ls).streams[id], Exec(cfg, t0, more).streams[id], p)
  {
    hide Exec, ProbeOut, Clear, Inv;
    var s := Exec(cfg, t0, ls).streams[id];
    InvShape(cfg, s);
    if s.pc.Releasing? {
      more := LeaveRelease(cfg, t0, ls, id, p);
    } else if s.pc.Searching? {
      more := SearchOn(cfg, t0, ls, id, p);
    } else if s.pc.k > p {
      more := ClaimBeyond(cfg, t0, ls, id, p);
    } else {
      if s.pc.k == p {
        more := PassBy(cfg, t0, ls, id, p);
      } else {
        more := ClaimBefore(cfg, t0, ls, id, p);
      }
      more := SearchOn(cfg, t0, more, id, p);
    }
  }

  lemma ComeBack(cfg: Config, t0: int, ls: seq<Label>, id: nat, p: nat) returns (more: seq<Label>)
    requires Scenarios.Usable(cfg) && p < |cfg.names| && At(cfg, t0, ls, id, p)
    requires var s := Exec(cfg, t0, ls).streams[id]; Reaches(cfg, s, p) && !s.pc.Choosing?
    ensures Sparing(ls, more, p) && At(cfg, t0, more, id, p)
    ensures Returned(Exec(cfg, t0, ls).streams[id], Exec(cfg, t0, more).streams[id], p)
    ensures Reaches(cfg, Exec(cfg, t0, more).streams[id], p)
  {
    hide Exec, ProbeOut, Inv;
    var s := Exec(cfg, t0, ls).streams[id];
    more := ls;
    if s.pc.Reading? || s.pc.Writing? || s.pc.Reserving? {
      AttemptFits(cfg, s);
      more := EndFailed(cfg, t0, more, id, p);
    }
    if Exec(cfg, t0, more).streams[id].pc.Recording? {
      more := RecordFailed(cfg, t0, more, id, p);
    }
    more := ComeBackFromSearch(cfg, t0, more, id, p);
  }

  lemma AttemptFits(cfg: Config, s: Stream)
    requires s.pc.Reading? || s.pc.Writing? || (s.pc.Reserving? && Fits(s))
    ensures Fits(s)
  {
  }

  /** At the loop head before `p`: turned away, or by a claim into another attempt; either way closer. */
  lemma MoveOn(cfg: Config, t0: int, ls: seq<Label>, id: nat, p: nat) returns (more: seq<Label>)
    requires Scenarios.Usable(cfg) && p < |cfg.names| && At(cfg, t0, ls, id, p)
    requires var s := Exec(cfg, t0, ls).streams[id]; s.pc.Choosing? && s.pc.i < p && Reaches(cfg, s, p)
    ensures Sparing(ls, more, p) && At(cfg, t0, more, id, p)
    ensures var s, s' := Exec(cfg, t0, ls).streams[id], Exec(cfg, t0, more).streams[id];
      Reaches(cfg, s', p) && (s'.pc.Reading? || s'.pc.Choosing?) && Place(s') == s.pc.i + 1
  {
    hide Inv, Exec;
    var s := Exec(cfg, t0, ls).streams[id];
    more := ls;
    if s.pc.i !in s.claimed {
      more := OpenNow(cfg, t0, ls, s.pc.i, p);
    }
    RunOne(cfg, t0, more, id, Quiet);
    more := more + [Run(id, Quiet)];
  }

  /** The claim on `p` is used. */
  lemma UseClaim(cfg: Config, t0: int, ls: seq<Label>, id: nat, p: nat) returns (more: seq<Label>)
    requires cfg.Valid() && p < |cfg.names| && At(cfg, t0, ls, id, p)
    requires var s := Exec(cfg, t0, ls).streams[id]; s.pc.Choosing? && s.pc.i == p && p in s.claimed
    ensures Sparing(ls, more, p) && At(cfg, t0, more, id, p) && Owes(Exec(cfg, t0, more).streams[id], p)
  {
    hide Inv, Exec;
    RunOne(cfg, t0, ls, id, Quiet);
    more := ls + [Run(id, Quiet)];
  }

  /** A claim that can still be used is used, and answered for. */
  lemma {:induction false} ClaimAnswered(cfg: Config, t0: int, ls: seq<Label>, id: nat, p: nat) returns (more: seq<Label>)
    requires Scenarios.Usable(cfg) && p < |cfg.names| && At(cfg, t0, ls, id, p)
    requires Reaches(cfg, Exec(cfg, t0, ls).streams[id], p)
    ensures Sparing(ls, more, p) && !ProbeOut(cfg, Exec(cfg, t0, more).sh, p)
    decreases p + 1 - Place(Exec(cfg, t0, ls).streams[id]), if Exec(cfg, t0, ls).streams[id].pc.Choosing? then 0 else 1
  {
    hide Inv, Exec, ProbeOut, Clear, Owes;
    var s := Exec(cfg, t0, ls).streams[id];
    if !s.pc.Choosing? {
      more := ComeBack(cfg, t0, ls, id, p);
      more := ClaimAnswered(cfg, t0, more, id, p);
    } else if s.pc.i < p {
      more := MoveOn(cfg, t0, ls, id, p);
      more := ClaimAnswered(cfg, t0, more, id, p);
    } else {
      more := UseClaim(cfg, t0, ls, id, p);
      more := Answer(cfg, t0, more, id, p);
    }
  }

  // ---- The exact condition ----

  /** When breaker `p` is half open and its probe claimed, in any state of any run: it stays so in every
      continuation, however far the clock moves, in which other keys record nothing on it, if and only
      if no stream of the key has an attempt on `p` whose result it can still hand on, or a claim on
      `p` it can still use. */
  lemma ProbeLostExactly(cfg: Config, t0: int, ls: seq<Label>, p: nat)
    requires Scenarios.Usable(cfg) && p < |cfg.names| && ProbeOut(cfg, Exec(cfg, t0, ls).sh, p)
    ensures (forall more :: AllSpare(more, p) ==> ProbeOut(cfg, Exec(cfg, t0, ls + more).sh, p))
            <==> var y := Exec(cfg, t0, ls); forall i :: 0 <= i < |y.streams| ==> !CanAnswer(cfg, y.streams[i], p)
  {
    hide Inv, Exec, ProbeOut, CanAnswer;
    var y := Exec(cfg, t0, ls);
    if forall i :: 0 <= i < |y.streams| ==> !CanAnswer(cfg, y.streams[i], p) {
      forall more | AllSpare(more, p)
        ensures ProbeOut(cfg, Exec(cfg, t0, ls + more).sh, p)
      {
        StaysLost(cfg, t0, ls, more, p);
      }
    } else {
      var i :| 0 <= i < |y.streams| && CanAnswer(cfg, y.streams[i], p);
      var all := SomebodyAnswers(cfg, t0, ls, i, p);
      var more := all[|ls|..];
      assert ls + more == all && AllSpare(more, p);
    }
  }

  lemma SomebodyAnswers(cfg: Config, t0: int, ls: seq<Label>, i: nat, p: nat) returns (more: seq<Label>)
    requires Scenarios.Usable(cfg) && p < |cfg.names| && At(cfg, t0, ls, i, p)
    requires CanAnswer(cfg, Exec(cfg, t0, ls).streams[i], p)
    ensures Sparing(ls, more, p) && !ProbeOut(cfg, Exec(cfg, t0, more).sh, p)
  {
    hide Inv, Exec, ProbeOut, Owes, Reaches;
    if Owes(Exec(cfg, t0, ls).streams[i], p) {
      more := Answer(cfg, t0, ls, i, p);
    } else {
      more := ClaimAnswered(cfg, t0, ls, i, p);
    }
  }

  /** And then no stream ever attempts `p` again: none has an attempt on it under way, nor starts one. */
  lemma LostForEveryone(cfg: Config, t0: int, ls: seq<Label>, more: seq<Label>, p: nat, i: nat)
    requires Scenarios.Usable(cfg) && p < |cfg.names| && ProbeOut(cfg, Exec(cfg, t0, ls).sh, p) && AllSpare(more, p)
    requires var y := Exec(cfg, t0, ls); forall j :: 0 <= j < |y.streams| ==> !CanAnswer(cfg, y.streams[j], p)
    requires i < |Exec(cfg, t0, ls + more).streams|
    ensures var s := Exec(cfg, t0, ls + more).streams[i];
      s.cur.Some? && s.cur.value.provider == p ==> !s.pc.Reading? && !s.pc.Writing?
  {
    hide Inv, Exec, ProbeOut;
    StaysLost(cfg, t0, ls, more, p);
    assert !CanAnswer(cfg, Exec(cfg, t0, ls + more).streams[i], p);
  }

  /** In every configuration there is a run that loses the probe of its first provider: other keys'
      failures open the breaker, time passes, a stream becomes its probe, and its client cancels. */
  lemma CancelledProbeIsLost(cfg: Config, t0: int) returns (ls: seq<Label>)
    requires Scenarios.Usable(cfg) && |cfg.names| > 0
    ensures var y := Exec(cfg, t0, ls);
      && |y.streams| == 1 && y.streams[0].pc.Finished? && y.sh.breakers[0].state.HalfOpen?
      && forall more :: AllSpare(more, 0) ==> ProbeOut(cfg, Exec(cfg, t0, ls + more).sh, 0)
  {
    hide Inv, Exec, ProbeOut, CanAnswer, AllSpare;
    ls := Scenarios.OneProbes(cfg, t0);
    RunOne(cfg, t0, ls, 0, ReceiveError(Cancelled));
    ls := ls + [Run(0, ReceiveError(Cancelled))];
    RunOne(cfg, t0, ls, 0, Quiet);
    ls := ls + [Run(0, Quiet)];
    var y := Exec(cfg, t0, ls);
    FinishedCannot(cfg, y.streams[0]);
    IsOut(cfg, y.sh);
    ProbeLostExactly(cfg, t0, ls, 0);
  }

  lemma FinishedCannot(cfg: Config, s: Stream)
    requires s.pc.Finished?
    ensures forall p: nat :: !CanAnswer(cfg, s, p)
  {
  }

  lemma IsOut(cfg: Config, sh: Shared)
    requires Matches(cfg, sh) && |cfg.names| > 0 && sh.breakers[0].state.HalfOpen? && sh.breakers[0].probing
    ensures ProbeOut(cfg, sh, 0)
  {
  }
}
