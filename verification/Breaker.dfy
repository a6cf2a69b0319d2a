/** The per-provider circuit breaker: a three-state machine with counters, a clock and an exclusive
    probe flag.  `Apply` gives one locked call as a function of the state; `ProviderCircuitState` is
    the object with the fields updated in place; the theorems range over whole call sequences. */
module Breaker {

  datatype State = Closed | Open | HalfOpen

  datatype Config = Config(failureThreshold: int, openTimeout: int, halfOpenSuccessThreshold: int)
  {
    predicate Valid() {
      failureThreshold >= 1 && openTimeout > 0 && halfOpenSuccessThreshold >= 1
    }
  }

  const SECOND: int := 1_000_000_000

  /** The defaults `New` puts in place of unusable settings. */
  function Normalize(cfg: Config): (r: Config)
    ensures r.Valid() && (r == cfg <==> cfg.Valid())
    ensures r.failureThreshold == cfg.failureThreshold || (cfg.failureThreshold < 1 && r.failureThreshold == 3)
    ensures r.openTimeout == cfg.openTimeout || (cfg.openTimeout <= 0 && r.openTimeout == 30 * SECOND)
    ensures r.halfOpenSuccessThreshold == cfg.halfOpenSuccessThreshold
            || (cfg.halfOpenSuccessThreshold < 1 && r.halfOpenSuccessThreshold == 1)
  {
    Config(
      if cfg.failureThreshold < 1 then 3 else cfg.failureThreshold,
      if cfg.openTimeout <= 0 then 30 * SECOND else cfg.openTimeout,
      if cfg.halfOpenSuccessThreshold < 1 then 1 else cfg.halfOpenSuccessThreshold)
  }

  datatype Circuit = Circuit(state: State, failures: nat, successes: nat, since: int, probing: bool)

  function Fresh(now: int): Circuit {
    Circuit(Closed, 0, 0, now, false)
  }

  function Transition(b: Circuit, state: State, now: int): Circuit {
    Circuit(state, if state.Closed? then 0 else b.failures, 0, now, false)
  }

  function Refresh(cfg: Config, b: Circuit, now: int): Circuit {
    if b.state.Open? && now - b.since >= cfg.openTimeout then Transition(b, HalfOpen, now) else b
  }

  datatype Call =
    | GetState
    | AllowAttempt
    | TryClaimProbe
    | RecordSuccess
    | RecordFailure
    | ForceState(target: State)
  {
    /** The calls that end a probe. */
    predicate Releases() {
      RecordSuccess? || RecordFailure? || ForceState?
    }
  }

  datatype Reply = Reply(circuit: Circuit, granted: bool)

  function Claim(b: Circuit): Reply {
    if b.state.HalfOpen? && !b.probing then Reply(b.(probing := true), true) else Reply(b, false)
  }

  function Succeed(cfg: Config, b: Circuit, now: int): Circuit {
    if b.state.HalfOpen? then
      if b.successes + 1 >= cfg.halfOpenSuccessThreshold
      then Transition(b.(failures := 0), Closed, now)
      else b.(failures := 0, successes := b.successes + 1, probing := false)
    else b.(failures := 0, probing := false)
  }

  function Fail(cfg: Config, b: Circuit, now: int): Circuit {
    if b.state.HalfOpen? then Transition(b, Open, now)
    else if b.failures + 1 >= cfg.failureThreshold then Transition(b.(failures := b.failures + 1), Open, now)
    else b.(failures := b.failures + 1, successes := 0, probing := false)
  }

  /** One call made at time `now`, with the lock held. */
  function Apply(cfg: Config, b: Circuit, call: Call, now: int): Reply {
    match call
    case GetState => Reply(Refresh(cfg, b, now), false)
    case AllowAttempt =>
      var r := Refresh(cfg, b, now);
      if r.state.Closed? then Reply(r, true) else Claim(r)
    case TryClaimProbe => Claim(Refresh(cfg, b, now))
    case RecordSuccess => Reply(Succeed(cfg, b, now), false)
    case RecordFailure => Reply(Fail(cfg, b, now), false)
    case ForceState(s) => Reply(Circuit(s, 0, 0, now, false), false)
  }

  /** The object itself.  The time of each call is the value its clock returned. */
  class ProviderCircuitState {
    var state: State
    var consecutiveFailures: nat
    var consecutiveSuccess: nat
    var lastStateChange: int
    var probing: bool
    const cfg: Config

    function View(): Circuit
      reads this
    {
      Circuit(state, consecutiveFailures, consecutiveSuccess, lastStateChange, probing)
    }

    constructor (cfg: Config, now: int)
      ensures this.cfg == Normalize(cfg)
      ensures View() == Fresh(now)
    {
      var c := cfg;
      if c.failureThreshold < 1 { c := c.(failureThreshold := 3); }
      if c.openTimeout <= 0 { c := c.(openTimeout := 30 * SECOND); }
      if c.halfOpenSuccessThreshold < 1 { c := c.(halfOpenSuccessThreshold := 1); }
      this.cfg := c;
      state, consecutiveFailures, consecutiveSuccess := Closed, 0, 0;
      lastStateChange, probing := now, false;
    }

    method TransitionLocked(target: State, now: int)
      modifies this
      ensures View() == Transition(old(View()), target, now)
    {
      state := target;
      probing := false;
      consecutiveSuccess := 0;
      if target == Closed {
        consecutiveFailures := 0;
      }
      lastStateChange := now;
    }

    method RefreshLocked(now: int)
      modifies this
      ensures View() == Refresh(cfg, old(View()), now)
    {
      if state == Open && now - lastStateChange >= cfg.openTimeout {
        TransitionLocked(HalfOpen, now);
      }
    }

    method GetState(now: int) returns (s: State)
      modifies this
      ensures View() == Apply(cfg, old(View()), Call.GetState, now).circuit
      ensures s == View().state
    {
      RefreshLocked(now);
      s := state;
    }

    method ForceState(target: State, now: int)
      modifies this
      ensures View() == Apply(cfg, old(View()), Call.ForceState(target), now).circuit
    {
      state := target;
      probing := false;
      consecutiveFailures := 0;
      consecutiveSuccess := 0;
      lastStateChange := now;
    }

    method TryClaimProbe(now: int) returns (granted: bool)
      modifies this
      ensures Reply(View(), granted) == Apply(cfg, old(View()), Call.TryClaimProbe, now)
    {
      RefreshLocked(now);
      if state != HalfOpen || probing {
        return false;
      }
      probing := true;
      return true;
    }

    method AllowAttempt(now: int) returns (granted: bool)
      modifies this
      ensures Reply(View(), granted) == Apply(cfg, old(View()), Call.AllowAttempt, now)
    {
      RefreshLocked(now);
      match state {
        case Closed => return true;
        case Open => return false;
        case HalfOpen =>
          if probing {
            return false;
          }
          probing := true;
          return true;
      }
    }

    method RecordSuccess(now: int)
      modifies this
      ensures View() == Apply(cfg, old(View()), Call.RecordSuccess, now).circuit
    {
      consecutiveFailures := 0;
      if state == HalfOpen {
        consecutiveSuccess := consecutiveSuccess + 1;
        probing := false;
        if consecutiveSuccess >= cfg.halfOpenSuccessThreshold {
          TransitionLocked(Closed, now);
        }
        return;
      }
      probing := false;
    }

    method RecordFailure(now: int)
      modifies this
      ensures View() == Apply(cfg, old(View()), Call.RecordFailure, now).circuit
    {
      probing := false;
      consecutiveSuccess := 0;
      if state == HalfOpen {
        TransitionLocked(Open, now);
        return;
      }
      consecutiveFailures := consecutiveFailures + 1;
      if consecutiveFailures >= cfg.failureThreshold {
        TransitionLocked(Open, now);
      }
    }
  }

  // ---- Whole call sequences ----

  datatype Stamped = At(call: Call, now: int)

  /** The circuit after the calls of `h`, made in order by any number of callers. */
  function After(cfg: Config, b: Circuit, h: seq<Stamped>): Circuit
  {
    if h == [] then b
    else
      var last := h[|h| - 1];
      Apply(cfg, After(cfg, b, h[..|h| - 1]), last.call, last.now).circuit
  }

  predicate Granted(cfg: Config, b: Circuit, h: seq<Stamped>, i: nat)
    requires i < |h|
  {
    Apply(cfg, After(cfg, b, h[..i]), h[i].call, h[i].now).granted
  }

  ghost predicate Monotone(h: seq<Stamped>) {
    forall i, j :: 0 <= i < j < |h| ==> h[i].now <= h[j].now
  }

  lemma AfterStep(cfg: Config, b: Circuit, h: seq<Stamped>, i: nat)
    requires i < |h|
    ensures After(cfg, b, h[..i + 1]) == Apply(cfg, After(cfg, b, h[..i]), h[i].call, h[i].now).circuit
  {
    assert h[..i + 1][..i] == h[..i];
  }

  // ---- Cool-down ----

  /** Call `i` left the circuit open with the time-out starting at its own time: it moved to Open, or
      restarted the time-out of an open circuit. */
  ghost predicate Opens(cfg: Config, b: Circuit, h: seq<Stamped>, i: nat)
    requires i < |h|
  {
    After(cfg, b, h[..i + 1]).state.Open? && After(cfg, b, h[..i + 1]).since == h[i].now
  }

  /** Every move to Open starts the time-out.  In an open circuit a recorded failure that brings the
      failure counter to its threshold, or finds it there, starts the time-out anew; no other unforced
      call that leaves the circuit open does. */
  lemma OpensExactly(cfg: Config, b: Circuit, h: seq<Stamped>, i: nat)
    requires i < |h| && !h[i].call.ForceState?
    ensures var was := After(cfg, b, h[..i]); var now := After(cfg, b, h[..i + 1]);
      && (!was.state.Open? && now.state.Open? ==> Opens(cfg, b, h, i))
      && (was.state.Open? && now.state.Open? ==>
          now.since == if h[i].call.RecordFailure? && was.failures + 1 >= cfg.failureThreshold then h[i].now else was.since)
  {
    AfterStep(cfg, b, h, i);
  }

  lemma OpenPersists(cfg: Config, b: Circuit, call: Call, now: int)
    requires b.state.Open? && !call.ForceState? && now < b.since + cfg.openTimeout
    ensures var b' := Apply(cfg, b, call, now).circuit;
      b'.state.Open? && (b'.since == now || b'.since == b.since)
      && (!call.Releases() ==> b' == b)
  {
  }

  lemma {:induction false} StaysOpen(cfg: Config, b: Circuit, h: seq<Stamped>, i: nat, j: nat)
    requires i < j <= |h| && Opens(cfg, b, h, i)
    requires forall k :: i < k < j ==> !h[k].call.ForceState?
    requires forall k :: i < k < j ==> h[i].now <= h[k].now < h[i].now + cfg.openTimeout
    ensures After(cfg, b, h[..j]).state.Open?
    ensures After(cfg, b, h[..j]).since >= h[i].now
  {
    hide Apply;
    if j > i + 1 {
      AfterStep(cfg, b, h, j - 1);
      StaysOpen(cfg, b, h, i, j - 1);
      OpenPersists(cfg, After(cfg, b, h[..j - 1]), h[j - 1].call, h[j - 1].now);
    }
  }

  /** After the time-out started, no call is granted before it has passed; a late failure that starts
      it anew extends the cool-down, since the theorem then holds from that call. */
  lemma CoolDown(cfg: Config, b: Circuit, h: seq<Stamped>, i: nat, j: nat)
    requires Monotone(h) && i < j < |h| && Opens(cfg, b, h, i)
    requires forall k :: i < k < j ==> !h[k].call.ForceState?
    requires h[j].now < h[i].now + cfg.openTimeout
    ensures !Granted(cfg, b, h, j)
  {
    StaysOpen(cfg, b, h, i, j);
  }

  /** The bound is sharp: if only read or admission calls follow, the first admission call made once
      the time-out has passed is granted, and every earlier one refused. */
  lemma CoolDownIsExact(cfg: Config, b: Circuit, h: seq<Stamped>, i: nat, j: nat)
    requires Monotone(h) && i < j < |h| && Opens(cfg, b, h, i)
    requires h[j].call.AllowAttempt? || h[j].call.TryClaimProbe?
    requires forall k :: i < k < j ==> !h[k].call.Releases()
    requires forall k :: i < k < j ==> h[k].now < h[i].now + cfg.openTimeout
    ensures Granted(cfg, b, h, j) <==> h[j].now >= h[i].now + cfg.openTimeout
  {
    SinceUnchanged(cfg, b, h, i, j);
  }

  lemma {:induction false} SinceUnchanged(cfg: Config, b: Circuit, h: seq<Stamped>, i: nat, j: nat)
    requires i < j <= |h| && Opens(cfg, b, h, i)
    requires forall k :: i < k < j ==> !h[k].call.Releases()
    requires forall k :: i < k < j ==> h[k].now < h[i].now + cfg.openTimeout
    ensures After(cfg, b, h[..j]).state.Open? && After(cfg, b, h[..j]).since == h[i].now
  {
    hide Apply;
    if j > i + 1 {
      AfterStep(cfg, b, h, j - 1);
      SinceUnchanged(cfg, b, h, i, j - 1);
      OpenPersists(cfg, After(cfg, b, h[..j - 1]), h[j - 1].call, h[j - 1].now);
    }
  }

  // ---- Probe exclusivity ----

  ghost predicate ProbeInv(b: Circuit) {
    b.probing ==> b.state.HalfOpen?
  }

  /** In every reachable state a held probe means the circuit is half open. */
  lemma {:induction false} ProbingImpliesHalfOpen(cfg: Config, b: Circuit, h: seq<Stamped>)
    requires ProbeInv(b)
    ensures ProbeInv(After(cfg, b, h))
  {
    if h != [] {
      ProbingImpliesHalfOpen(cfg, b, h[..|h| - 1]);
    }
  }

  lemma {:induction false} ProbeHeld(cfg: Config, b: Circuit, h: seq<Stamped>, i: nat, j: nat)
    requires i < j <= |h|
    requires Granted(cfg, b, h, i) && After(cfg, b, h[..i + 1]).state.HalfOpen?
    requires forall k :: i < k < j ==> !h[k].call.Releases()
    ensures After(cfg, b, h[..j]).state.HalfOpen? && After(cfg, b, h[..j]).probing
  {
    AfterStep(cfg, b, h, j - 1);
    if j > i + 1 {
      ProbeHeld(cfg, b, h, i, j - 1);
    }
  }

  /** Between a granted half-open claim and any later grant, someone recorded a result or forced
      the state. */
  lemma ProbeExclusive(cfg: Config, b: Circuit, h: seq<Stamped>, i: nat, j: nat)
    requires i < j < |h|
    requires Granted(cfg, b, h, i) && After(cfg, b, h[..i + 1]).state.HalfOpen?
    requires Granted(cfg, b, h, j)
    ensures exists k :: i < k < j && h[k].call.Releases()
  {
    if forall k :: i < k < j ==> !h[k].call.Releases() {
      ProbeHeld(cfg, b, h, i, j);
      assert false;
    }
  }

  /** Call `i` is a granted half-open claim and nobody has recorded a result or forced the state since. */
  ghost predicate Outstanding(cfg: Config, b: Circuit, h: seq<Stamped>, i: nat)
    requires i < |h|
  {
    && Granted(cfg, b, h, i) && After(cfg, b, h[..i + 1]).state.HalfOpen?
    && forall k :: i < k < |h| ==> !h[k].call.Releases()
  }

  lemma OutstandingStep(cfg: Config, b: Circuit, h: seq<Stamped>, i: nat)
    requires i < |h| - 1
    ensures Outstanding(cfg, b, h, i) <==> Outstanding(cfg, b, h[..|h| - 1], i) && !h[|h| - 1].call.Releases()
  {
    var g := h[..|h| - 1];
    assert g[..i] == h[..i] && g[..i + 1] == h[..i + 1] && g[i] == h[i];
    assert forall k :: i < k < |g| ==> g[k] == h[k];
  }

  /** The probe flag is exactly an outstanding claim. */
  lemma {:induction false} ProbingIsOutstandingClaim(cfg: Config, b: Circuit, h: seq<Stamped>)
    requires !b.probing
    ensures After(cfg, b, h).probing <==> exists i :: 0 <= i < |h| && Outstanding(cfg, b, h, i)
  {
    if h != [] {
      var n := |h| - 1;
      var g := h[..n];
      ProbingIsOutstandingClaim(cfg, b, g);
      ProbingImpliesHalfOpen(cfg, b, g);
      assert h[..n + 1] == h;
      forall i | 0 <= i < n
        ensures Outstanding(cfg, b, h, i) <==> Outstanding(cfg, b, g, i) && !h[n].call.Releases()
      {
        OutstandingStep(cfg, b, h, i);
      }
      var was := After(cfg, b, g);
      ProbeStep(cfg, was, h[n].call, h[n].now);
      assert Outstanding(cfg, b, h, n) <==> Granted(cfg, b, h, n) && After(cfg, b, h).state.HalfOpen?;
      if After(cfg, b, h).probing && !Outstanding(cfg, b, h, n) {
        var i :| 0 <= i < n && Outstanding(cfg, b, g, i);
        assert Outstanding(cfg, b, h, i);
      }
    }
  }

  /** One call: the flag is set afterwards if the call was granted half open, or if it was set before
      and the call does not end probes. */
  lemma ProbeStep(cfg: Config, b: Circuit, call: Call, now: int)
    requires ProbeInv(b)
    ensures var r := Apply(cfg, b, call, now);
      r.circuit.probing <==> (r.granted && r.circuit.state.HalfOpen?) || (b.probing && !call.Releases())
  {
  }

  /** The exact condition for a half-open claim: on a breaker that is half open when asked, a claim is
      refused if and only if an earlier claim has had no result recorded since, by anyone. */
  lemma ClaimRefusedExactly(cfg: Config, b: Circuit, h: seq<Stamped>, c: Stamped)
    requires !b.probing && (c.call.AllowAttempt? || c.call.TryClaimProbe?)
    requires Refresh(cfg, After(cfg, b, h), c.now).state.HalfOpen?
    ensures !Apply(cfg, After(cfg, b, h), c.call, c.now).granted
            <==> exists i :: 0 <= i < |h| && Outstanding(cfg, b, h, i)
  {
    ProbingIsOutstandingClaim(cfg, b, h);
    ProbingImpliesHalfOpen(cfg, b, h);
  }

  /** A success recorded while a probe is out that does not close the breaker lets the very next call
      claim another probe, whoever recorded it. */
  lemma LateResultFreesProbe(cfg: Config, b: Circuit, h: seq<Stamped>, i: nat, k: nat)
    requires i < k && k + 1 < |h|
    requires Granted(cfg, b, h, i) && After(cfg, b, h[..i + 1]).state.HalfOpen?
    requires forall m :: i < m < k ==> !h[m].call.Releases()
    requires h[k].call.RecordSuccess? && After(cfg, b, h[..k]).successes + 1 < cfg.halfOpenSuccessThreshold
    requires h[k + 1].call.AllowAttempt? || h[k + 1].call.TryClaimProbe?
    ensures Granted(cfg, b, h, k + 1) && After(cfg, b, h[..k + 2]).state.HalfOpen?
  {
    ProbeHeld(cfg, b, h, i, k);
    AfterStep(cfg, b, h, k);
    AfterStep(cfg, b, h, k + 1);
  }

  // ---- The counters refine the call history ----

  ghost predicate Enters(cfg: Config, b: Circuit, h: seq<Stamped>, s: State)
    requires h != []
  {
    After(cfg, b, h).state == s && After(cfg, b, h[..|h| - 1]).state != s
  }

  /** Failures recorded since the last success, forced state or entry to Closed. */
  ghost function FailureRun(cfg: Config, b: Circuit, h: seq<Stamped>): nat
  {
    if h == [] then 0
    else
      var call := h[|h| - 1].call;
      if call.RecordSuccess? || call.ForceState? || Enters(cfg, b, h, Closed) then 0
      else FailureRun(cfg, b, h[..|h| - 1]) + (if call.RecordFailure? then 1 else 0)
  }

  /** Successes recorded since HalfOpen was entered (or forced). */
  ghost function SuccessRun(cfg: Config, b: Circuit, h: seq<Stamped>): nat
  {
    if h == [] then 0
    else
      var call := h[|h| - 1].call;
      if call.ForceState? || Enters(cfg, b, h, HalfOpen) then 0
      else SuccessRun(cfg, b, h[..|h| - 1]) + (if call.RecordSuccess? then 1 else 0)
  }

  /** Failures recorded outside HalfOpen since the last success or forced state. */
  ghost function FailuresSince(cfg: Config, t0: int, h: seq<Stamped>): nat
  {
    if h == [] then 0
    else
      var init, call := h[..|h| - 1], h[|h| - 1].call;
      if call.RecordSuccess? || call.ForceState? then 0
      else FailuresSince(cfg, t0, init)
           + (if call.RecordFailure? && !After(cfg, Fresh(t0), init).state.HalfOpen? then 1 else 0)
  }

  /** In every state the failure counter is that count, and outside HalfOpen there are no successes. */
  lemma {:induction false} FailuresFollowHistory(cfg: Config, t0: int, h: seq<Stamped>)
    ensures var b := After(cfg, Fresh(t0), h);
      b.failures == FailuresSince(cfg, t0, h) && (!b.state.HalfOpen? ==> b.successes == 0)
  {
    if h != [] {
      FailuresFollowHistory(cfg, t0, h[..|h| - 1]);
    }
  }

  /** When the circuit last changed its state, was forced, or restarted its time-out: `t0` at first. */
  ghost function LastChange(cfg: Config, t0: int, h: seq<Stamped>): int
  {
    if h == [] then t0
    else
      var init, last := h[..|h| - 1], h[|h| - 1];
      var was, now := After(cfg, Fresh(t0), init).state, After(cfg, Fresh(t0), h).state;
      if was != now || last.call.ForceState?
         || (was.Open? && last.call.RecordFailure? && FailuresSince(cfg, t0, h) >= cfg.failureThreshold)
      then last.now
      else LastChange(cfg, t0, init)
  }

  lemma {:induction false} SinceFollowsHistory(cfg: Config, t0: int, h: seq<Stamped>)
    requires cfg.Valid()
    ensures After(cfg, Fresh(t0), h).since == LastChange(cfg, t0, h)
  {
    if h != [] {
      SinceFollowsHistory(cfg, t0, h[..|h| - 1]);
      FailuresFollowHistory(cfg, t0, h[..|h| - 1]);
      FailuresFollowHistory(cfg, t0, h);
      CountersFollowHistory(cfg, t0, h[..|h| - 1]);
    }
  }

  /** In an open circuit a recorded failure restarts the time-out exactly if the failures recorded
      outside HalfOpen since the last success or forced state, with this one, reach the threshold. */
  lemma RestartsExactly(cfg: Config, t0: int, h: seq<Stamped>, now: int)
    requires cfg.Valid() && After(cfg, Fresh(t0), h).state.Open?
    ensures var b := After(cfg, Fresh(t0), h + [At(RecordFailure, now)]);
      && b.state.Open?
      && b.since == if FailuresSince(cfg, t0, h) + 1 >= cfg.failureThreshold then now else LastChange(cfg, t0, h)
  {
    FailuresFollowHistory(cfg, t0, h);
    SinceFollowsHistory(cfg, t0, h);
    assert (h + [At(RecordFailure, now)])[..|h|] == h;
  }

  /** Unless forced, Open is left exactly by a read or an admission call once the time-out has passed
      since the last change, and then for HalfOpen; forcing leads to the forced state at once. */
  lemma LeavesOpenExactly(cfg: Config, t0: int, h: seq<Stamped>, c: Stamped)
    requires cfg.Valid()
    ensures var was, next := After(cfg, Fresh(t0), h).state, After(cfg, Fresh(t0), h + [c]).state;
      && (c.call.ForceState? ==> next == c.call.target)
      && (was.Open? && !c.call.ForceState? ==>
          && (next.HalfOpen? <==> !c.call.Releases() && c.now >= LastChange(cfg, t0, h) + cfg.openTimeout)
          && (next.HalfOpen? || next.Open?))
  {
    SinceFollowsHistory(cfg, t0, h);
    assert (h + [c])[..|h|] == h;
  }

  /** Exactly which calls are granted: an attempt on a closed circuit; a claim, by either call, on one
      that is half open, or open past its time-out, with no earlier claim outstanding; nothing else. */
  lemma GrantedExactly(cfg: Config, t0: int, h: seq<Stamped>, c: Stamped)
    requires cfg.Valid()
    ensures var was := After(cfg, Fresh(t0), h).state;
      Granted(cfg, Fresh(t0), h + [c], |h|) <==>
        || (was.Closed? && c.call.AllowAttempt?)
        || (&& (c.call.AllowAttempt? || c.call.TryClaimProbe?)
            && (was.HalfOpen? || (was.Open? && c.now >= LastChange(cfg, t0, h) + cfg.openTimeout))
            && !exists i :: 0 <= i < |h| && Outstanding(cfg, Fresh(t0), h, i))
  {
    SinceFollowsHistory(cfg, t0, h);
    ProbingIsOutstandingClaim(cfg, Fresh(t0), h);
    ProbingImpliesHalfOpen(cfg, Fresh(t0), h);
    assert (h + [c])[..|h|] == h;
  }

  lemma {:induction false} CountersFollowHistory(cfg: Config, t0: int, h: seq<Stamped>)
    requires cfg.Valid()
    ensures var b := After(cfg, Fresh(t0), h);
      && (b.state.Closed? ==> b.failures == FailureRun(cfg, Fresh(t0), h) < cfg.failureThreshold)
      && (b.state.HalfOpen? ==> b.successes == SuccessRun(cfg, Fresh(t0), h) < cfg.halfOpenSuccessThreshold)
  {
    if h != [] {
      CountersFollowHistory(cfg, t0, h[..|h| - 1]);
    }
  }

  /** Unless forced, a new breaker leaves Closed exactly at the threshold-th failure in a row, and
      then it opens. */
  lemma LeavesClosedExactlyAtThreshold(cfg: Config, t0: int, h: seq<Stamped>, c: Stamped)
    requires cfg.Valid() && !c.call.ForceState?
    requires After(cfg, Fresh(t0), h).state.Closed?
    ensures var next := After(cfg, Fresh(t0), h + [c]).state;
      && (next != Closed <==>
          c.call.RecordFailure? && FailureRun(cfg, Fresh(t0), h) + 1 == cfg.failureThreshold)
      && (next != Closed ==> next == Open)
  {
    CountersFollowHistory(cfg, t0, h);
    assert (h + [c])[..|h|] == h;
  }

  /** Unless forced, a half-open breaker closes exactly at the threshold-th success since it became
      half open, reopens exactly at a failure, and otherwise stays half open. */
  lemma LeavesHalfOpenExactly(cfg: Config, t0: int, h: seq<Stamped>, c: Stamped)
    requires cfg.Valid() && !c.call.ForceState?
    requires After(cfg, Fresh(t0), h).state.HalfOpen?
    ensures var next := After(cfg, Fresh(t0), h + [c]).state;
      && (next == Closed <==>
          c.call.RecordSuccess? && SuccessRun(cfg, Fresh(t0), h) + 1 == cfg.halfOpenSuccessThreshold)
      && (next == Open <==> c.call.RecordFailure?)
  {
    CountersFollowHistory(cfg, t0, h);
    assert (h + [c])[..|h|] == h;
  }
}
