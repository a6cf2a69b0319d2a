/** The streams and the breakers together: every breaker is explained by the calls made on it, every
    attempt used a grant of its own, and every outcome was reported exactly once. */
module Reports {
  import opened Gateway
  import opened Accounting
  import opened System
  import opened Hop
  import Breaker

  // ---- Breakers are explained by their calls ----

  /** The state of breaker `p` is that of a new breaker after the recorded calls, made in clock order. */
  ghost predicate Explained(cfg: Config, t0: int, sh: Shared, p: nat)
    requires Matches(cfg, sh) && p < |cfg.names|
  {
    && sh.breakers[p] == Breaker.After(cfg.breakers[p], Breaker.Fresh(t0), sh.calls[p])
    && Breaker.Monotone(sh.calls[p])
    && forall i :: 0 <= i < |sh.calls[p]| ==> sh.calls[p][i].now <= sh.now
  }

  ghost predicate AllExplained(cfg: Config, t0: int, sh: Shared)
    requires Matches(cfg, sh)
  {
    forall p :: 0 <= p < |cfg.names| ==> Explained(cfg, t0, sh, p)
  }

  datatype Tally = Grants | Failures | Successes

  function Weight(k: Tally, call: Breaker.Call, granted: bool): int {
    match k
    case Grants => if granted then 1 else 0
    case Failures => if call.RecordFailure? then 1 else 0
    case Successes => if call.RecordSuccess? then 1 else 0
  }

  /** How many of the calls `h` on a new breaker were grants, failures or successes. */
  function Weigh(k: Tally, b: Breaker.Config, t0: int, h: seq<Breaker.Stamped>): int {
    if h == [] then 0
    else
      var init, last := h[..|h| - 1], h[|h| - 1];
      Weigh(k, b, t0, init)
      + Weight(k, last.call, Breaker.Apply(b, Breaker.After(b, Breaker.Fresh(t0), init), last.call, last.now).granted)
  }

  lemma HistorySnoc(k: Tally, b: Breaker.Config, t0: int, h: seq<Breaker.Stamped>, c: Breaker.Stamped)
    ensures var r := Breaker.Apply(b, Breaker.After(b, Breaker.Fresh(t0), h), c.call, c.now);
      && Breaker.After(b, Breaker.Fresh(t0), h + [c]) == r.circuit
      && Weigh(k, b, t0, h + [c]) == Weigh(k, b, t0, h) + Weight(k, c.call, r.granted)
  {
    assert (h + [c])[..|h|] == h;
  }

  lemma CallKeepsExplained(cfg: Config, t0: int, sh: Shared, p: nat, call: Breaker.Call, k: Tally)
    requires Matches(cfg, sh) && p < |cfg.names| && AllExplained(cfg, t0, sh)
    ensures var (sh', granted) := CallBreaker(cfg, sh, p, call);
      && Matches(cfg, sh') && AllExplained(cfg, t0, sh')
      && Weigh(k, cfg.breakers[p], t0, sh'.calls[p])
         == Weigh(k, cfg.breakers[p], t0, sh.calls[p]) + Weight(k, call, granted)
      && forall q :: 0 <= q < |cfg.names| && q != p ==> sh'.calls[q] == sh.calls[q]
  {
    hide Breaker.Apply, Breaker.After, Weigh, Weight;
    var (sh', granted) := CallBreaker(cfg, sh, p, call);
    assert Explained(cfg, t0, sh, p);
    HistorySnoc(k, cfg.breakers[p], t0, sh.calls[p], Breaker.At(call, sh.now));
    forall q | 0 <= q < |cfg.names|
      ensures Explained(cfg, t0, sh', q)
    {
      assert Explained(cfg, t0, sh, q);
    }
  }

  // ---- What a stream owes each breaker ----

  /** What an attempt contributes once its result has been handed on. */
  function Share(k: Tally, a: Attempt): int {
    match k
    case Grants => 1
    case Failures => if a.outcome.Failed? then 1 else 0
    case Successes => if a.outcome.Success? || a.outcome.OverBudget? then 1 else 0
  }

  function PastShares(k: Tally, past: seq<Attempt>, p: nat): int {
    if past == [] then 0
    else PastShares(k, past[..|past| - 1], p) + (if past[|past| - 1].provider == p then Share(k, past[|past| - 1]) else 0)
  }

  /** The attempts of the stream on provider `p`, and the unused claim on it; of those that failed or
      succeeded, the ones already reported. */
  function Account(k: Tally, p: nat, s: Stream): int {
    PastShares(k, s.past, p)
    + (if s.cur.Some? && s.cur.value.provider == p && (k.Grants? || !s.pc.Recording?) then Share(k, s.cur.value) else 0)
    + (if k.Grants? && p in s.claimed then 1 else 0)
  }

  function AccountOf(k: Tally, p: nat): Stream -> int {
    s => Account(k, p, s)
  }

  lemma PastSharesSnoc(k: Tally, past: seq<Attempt>, a: Attempt, p: nat)
    ensures PastShares(k, past + [a], p) == PastShares(k, past, p) + (if a.provider == p then Share(k, a) else 0)
  {
    assert (past + [a])[..|past|] == past;
  }

  /** A claim granted for a provider already claimed replaces the old claim: one grant is lost. */
  ghost function Waste(cfg: Config, sh: Shared, s: Stream, k: Tally, p: nat): int
    requires Matches(cfg, sh) && p < |cfg.names|
  {
    if k.Grants? && s.pc == Claiming(p) && p in s.claimed && CallBreaker(cfg, sh, p, Breaker.TryClaimProbe).1 then 1 else 0
  }

  lemma ReleaseReports(cfg: Config, sh: Shared, s: Stream, k: Tally, p: nat)
    requires Shape(cfg, s) && s.pc.Releasing?
    ensures Account(k, p, OnRelease(cfg, sh, s, s.pc.to, s.pc.c).1) == Account(k, p, s)
    ensures OnRelease(cfg, sh, s, s.pc.to, s.pc.c).0 == sh.(used := OnRelease(cfg, sh, s, s.pc.to, s.pc.c).0.used)
  {
    PastSharesSnoc(k, s.past, s.cur.value, p);
  }

  /** Steps that make no breaker call and end no attempt's report. */
  lemma SilentReports(cfg: Config, sh: Shared, s: Stream, x: Input, k: Tally, p: nat)
    requires Matches(cfg, sh) && Shape(cfg, s)
    requires s.pc.Reading? || s.pc.Reserving? || s.pc.Writing? || s.pc.Settling? || s.pc.Finished?
    ensures var (sh', s') := Next(cfg, sh, s, x);
      Account(k, p, s') == Account(k, p, s) && sh'.breakers == sh.breakers && sh'.calls == sh.calls && sh'.now == sh.now
  {
    hide PastShares;
  }

  lemma OnlyAdmissionsGrant(cfg: Config, sh: Shared, i: nat)
    requires Matches(cfg, sh) && i < |cfg.names|
    ensures !CallBreaker(cfg, sh, i, Breaker.GetState).1
    ensures !CallBreaker(cfg, sh, i, Breaker.RecordSuccess).1 && !CallBreaker(cfg, sh, i, Breaker.RecordFailure).1
  {
  }

  lemma SameExplained(cfg: Config, t0: int, sh: Shared, sh': Shared)
    requires Matches(cfg, sh) && AllExplained(cfg, t0, sh)
    requires sh'.breakers == sh.breakers && sh'.calls == sh.calls && sh'.now >= sh.now
    ensures Matches(cfg, sh') && AllExplained(cfg, t0, sh')
  {
    forall p | 0 <= p < |cfg.names|
      ensures Explained(cfg, t0, sh', p)
    {
      assert Explained(cfg, t0, sh, p);
    }
  }

  /** Reporting the result of an attempt. */
  lemma RecordReports(cfg: Config, t0: int, sh: Shared, s: Stream, k: Tally, p: nat)
    requires Matches(cfg, sh) && Shape(cfg, s) && AllExplained(cfg, t0, sh) && p < |cfg.names| && s.pc.Recording?
    ensures var (sh', s') := OnRecord(cfg, sh, s);
      && Matches(cfg, sh') && AllExplained(cfg, t0, sh')
      && Weigh(k, cfg.breakers[p], t0, sh'.calls[p]) - Weigh(k, cfg.breakers[p], t0, sh.calls[p])
         == Account(k, p, s') - Account(k, p, s)
  {
    hide Breaker.Apply, Breaker.After, Breaker.Monotone, Weigh, PastShares, AllExplained, CallBreaker;
    var q := s.cur.value.provider;
    OnlyAdmissionsGrant(cfg, sh, q);
    CallKeepsExplained(cfg, t0, sh, q, Breaker.RecordSuccess, k);
    CallKeepsExplained(cfg, t0, sh, q, Breaker.RecordFailure, k);
  }

  lemma ChooseReports(cfg: Config, t0: int, sh: Shared, s: Stream, k: Tally, p: nat)
    requires Matches(cfg, sh) && Shape(cfg, s) && AllExplained(cfg, t0, sh) && p < |cfg.names| && s.pc.Choosing?
    ensures var (sh', s') := OnChoose(cfg, sh, s, s.pc.i, s.pc.hop);
      && Matches(cfg, sh') && AllExplained(cfg, t0, sh')
      && Weigh(k, cfg.breakers[p], t0, sh'.calls[p]) - Weigh(k, cfg.breakers[p], t0, sh.calls[p])
         == Account(k, p, s') - Account(k, p, s)
  {
    hide Breaker.Apply, Breaker.After, Breaker.Monotone, Weigh, PastShares, AllExplained, CallBreaker;
    if s.pc.i < |cfg.names| {
      CallKeepsExplained(cfg, t0, sh, s.pc.i, Breaker.AllowAttempt, k);
    }
  }

  lemma ClaimReports(cfg: Config, t0: int, sh: Shared, s: Stream, k: Tally, p: nat)
    requires Matches(cfg, sh) && Shape(cfg, s) && AllExplained(cfg, t0, sh) && p < |cfg.names| && s.pc.Claiming?
    ensures var (sh', s') := OnClaim(cfg, sh, s, s.pc.k);
      && Matches(cfg, sh') && AllExplained(cfg, t0, sh')
      && Weigh(k, cfg.breakers[p], t0, sh'.calls[p]) - Weigh(k, cfg.breakers[p], t0, sh.calls[p])
         == Account(k, p, s') - Account(k, p, s) + Waste(cfg, sh, s, k, p)
  {
    hide Breaker.Apply, Breaker.After, Breaker.Monotone, Weigh, PastShares, AllExplained, CallBreaker;
    CallKeepsExplained(cfg, t0, sh, s.pc.k, Breaker.TryClaimProbe, k);
  }

  lemma SearchReports(cfg: Config, t0: int, sh: Shared, s: Stream, k: Tally, p: nat)
    requires Matches(cfg, sh) && Shape(cfg, s) && AllExplained(cfg, t0, sh) && p < |cfg.names| && s.pc.Searching?
    ensures var (sh', s') := OnSearch(cfg, sh, s, s.pc.k);
      && Matches(cfg, sh') && AllExplained(cfg, t0, sh')
      && Weigh(k, cfg.breakers[p], t0, sh'.calls[p]) == Weigh(k, cfg.breakers[p], t0, sh.calls[p])
      && Account(k, p, s') == Account(k, p, s)
  {
    hide Breaker.Apply, Breaker.After, Breaker.Monotone, Weigh, PastShares, AllExplained, CallBreaker;
    if s.pc.k < |cfg.names| {
      OnlyAdmissionsGrant(cfg, sh, s.pc.k);
      CallKeepsExplained(cfg, t0, sh, s.pc.k, Breaker.GetState, k);
    }
  }

  /** Every step of a stream makes on breaker `p` exactly the calls its account says. */
  lemma NextReports(cfg: Config, t0: int, sh: Shared, s: Stream, x: Input, k: Tally, p: nat)
    requires Matches(cfg, sh) && Shape(cfg, s) && AllExplained(cfg, t0, sh) && p < |cfg.names|
    ensures var (sh', s') := Next(cfg, sh, s, x);
      && Matches(cfg, sh') && AllExplained(cfg, t0, sh')
      && Weigh(k, cfg.breakers[p], t0, sh'.calls[p]) - Weigh(k, cfg.breakers[p], t0, sh.calls[p])
         == Account(k, p, s') - Account(k, p, s) + Waste(cfg, sh, s, k, p)
  {
    hide Breaker.Apply, Breaker.After, Breaker.Monotone, Weigh, Account, AllExplained, CallBreaker;
    hide OnChoose, OnRecord, OnSearch, OnClaim, OnRelease, OnReserve, OnSettle;
    match s.pc
    case Choosing(_, _) => ChooseReports(cfg, t0, sh, s, k, p);
    case Recording => RecordReports(cfg, t0, sh, s, k, p);
    case Searching(_) => SearchReports(cfg, t0, sh, s, k, p);
    case Claiming(_) => ClaimReports(cfg, t0, sh, s, k, p);
    case Releasing(to, c) =>
      ReleaseReports(cfg, sh, s, k, p);
      SameExplained(cfg, t0, sh, OnRelease(cfg, sh, s, to, c).0);
    case _ =>
      SilentReports(cfg, sh, s, x, k, p);
      SameExplained(cfg, t0, sh, Next(cfg, sh, s, x).0);
  }

  // ---- Whole runs ----

  /** Over a run: the calls of other keys' streams, weighed at the state they found. */
  ghost function Outside(cfg: Config, t0: int, ls: seq<Label>, k: Tally, p: nat): int
    requires cfg.Valid() && p < |cfg.names|
  {
    if ls == [] then 0
    else
      var init, l := ls[..|ls| - 1], ls[|ls| - 1];
      Outside(cfg, t0, init, k, p) + Visit(cfg, Exec(cfg, t0, init), l, k, p)
  }

  ghost function Visit(cfg: Config, y: Sys, l: Label, k: Tally, p: nat): int
    requires WF(cfg, y) && p < |cfg.names|
  {
    if l.Foreign? && l.p == p then Weight(k, l.call, CallBreaker(cfg, y.sh, p, l.call).1) else 0
  }

  /** Over a run: the grants lost by claiming a provider twice. */
  ghost function Lost(cfg: Config, t0: int, ls: seq<Label>, k: Tally, p: nat): int
    requires cfg.Valid() && p < |cfg.names|
  {
    if ls == [] then 0
    else
      var init, l := ls[..|ls| - 1], ls[|ls| - 1];
      Lost(cfg, t0, init, k, p) + LostNow(cfg, Exec(cfg, t0, init), l, k, p)
  }

  ghost function LostNow(cfg: Config, y: Sys, l: Label, k: Tally, p: nat): int
    requires WF(cfg, y) && p < |cfg.names|
  {
    if l.Run? && l.id < |y.streams| && StepOk(y.sh, y.streams[l.id], l.x) then Waste(cfg, y.sh, y.streams[l.id], k, p) else 0
  }

  ghost function Booked(cfg: Config, t0: int, y: Sys, k: Tally, p: nat): int
    requires Matches(cfg, y.sh) && p < |cfg.names|
  {
    Weigh(k, cfg.breakers[p], t0, y.sh.calls[p]) - Sum(y.streams, AccountOf(k, p))
  }

  lemma StepReports(cfg: Config, t0: int, y: Sys, l: Label, k: Tally, p: nat)
    requires WF(cfg, y) && AllExplained(cfg, t0, y.sh) && p < |cfg.names|
    ensures var z := Step(cfg, y, l);
      && Matches(cfg, z.sh) && AllExplained(cfg, t0, z.sh)
      && Booked(cfg, t0, z, k, p) == Booked(cfg, t0, y, k, p) + Visit(cfg, y, l, k, p) + LostNow(cfg, y, l, k, p)
  {
    hide Inv, Next, AllExplained, Weigh, Account, Weight, CallBreaker, Waste;
    match l
    case Spawn =>
      var s := NewStream();
      SumAppend(y.streams, s, AccountOf(k, p));
      NewAccount(k, p, s);
      SameExplained(cfg, t0, y.sh, Admitted(cfg, y.sh));
    case Run(id, x) =>
      if id < |y.streams| && StepOk(y.sh, y.streams[id], x) {
        var s := y.streams[id];
        InvShape(cfg, s);
        NextReports(cfg, t0, y.sh, s, x, k, p);
        SumUpdate(y.streams, id, Next(cfg, y.sh, s, x).1, AccountOf(k, p));
      }
    case Foreign(q, call) =>
      if q < |cfg.names| { CallKeepsExplained(cfg, t0, y.sh, q, call, k); }
    case _ => SameExplained(cfg, t0, y.sh, Step(cfg, y, l).sh);
  }

  lemma NewAccount(k: Tally, p: nat, s: Stream)
    requires s == NewStream()
    ensures Account(k, p, s) == 0
  {
  }

  lemma InitExplained(cfg: Config, t0: int)
    requires cfg.Valid()
    ensures var y := Init(cfg, t0); AllExplained(cfg, t0, y.sh)
    ensures forall k, p :: 0 <= p < |cfg.names| ==> Booked(cfg, t0, Init(cfg, t0), k, p) == 0
  {
  }

  lemma {:induction false} BooksHold(cfg: Config, t0: int, ls: seq<Label>, k: Tally, p: nat)
    requires cfg.Valid() && p < |cfg.names|
    ensures var y := Exec(cfg, t0, ls);
      && AllExplained(cfg, t0, y.sh)
      && Booked(cfg, t0, y, k, p) == Outside(cfg, t0, ls, k, p) + Lost(cfg, t0, ls, k, p)
  {
    hide Inv, Step, Weigh, Sum, Explained, Booked, Visit, LostNow;
    InitExplained(cfg, t0);
    if ls != [] {
      var init, l := ls[..|ls| - 1], ls[|ls| - 1];
      BooksHold(cfg, t0, init, k, p);
      StepReports(cfg, t0, Exec(cfg, t0, init), l, k, p);
    }
  }

  lemma {:induction false} LostNothing(cfg: Config, t0: int, ls: seq<Label>, k: Tally, p: nat)
    requires cfg.Valid() && p < |cfg.names|
    ensures Lost(cfg, t0, ls, k, p) >= 0
    ensures !k.Grants? || Atomic(cfg, t0, ls) ==> Lost(cfg, t0, ls, k, p) == 0
  {
    hide Inv, Step, HopOk;
    if ls != [] {
      var init, l := ls[..|ls| - 1], ls[|ls| - 1];
      LostNothing(cfg, t0, init, k, p);
      if Atomic(cfg, t0, ls) {
        AtomicRunsKeepHopOk(cfg, t0, init);
        NothingWasted(cfg, Exec(cfg, t0, init), l, k, p);
      }
    }
  }

  lemma NothingWasted(cfg: Config, y: Sys, l: Label, k: Tally, p: nat)
    requires WF(cfg, y) && AllHopOk(cfg, y) && p < |cfg.names|
    ensures LostNow(cfg, y, l, k, p) == 0
  {
    hide Inv, Hop.Announced, Order;
    if l.Run? && l.id < |y.streams| {
      assert HopOk(cfg, y.sh, y.streams[l.id]);
    }
  }

  /** Any number of streams, at any moment: each breaker is where the calls made on it lead; and of
      the failures and successes recorded on it, those not made for other keys are one for each
      attempt that failed, or that succeeded or ran out of budget, and whose result was handed on:
      cancelled and shut-down attempts report nothing.  The grants are the attempts, the unused
      claims and the claims lost by claiming twice, of which there are none if hops are atomic. */
  lemma ReportsConserved(cfg: Config, t0: int, ls: seq<Label>, k: Tally, p: nat)
    requires cfg.Valid() && p < |cfg.names|
    ensures var y := Exec(cfg, t0, ls);
      && Explained(cfg, t0, y.sh, p)
      && Weigh(k, cfg.breakers[p], t0, y.sh.calls[p])
         == Outside(cfg, t0, ls, k, p) + Sum(y.streams, AccountOf(k, p)) + Lost(cfg, t0, ls, k, p)
      && Lost(cfg, t0, ls, k, p) >= 0
      && (!k.Grants? || Atomic(cfg, t0, ls) ==> Lost(cfg, t0, ls, k, p) == 0)
  {
    hide Inv, Step, Weigh, Sum, Explained, Exec;
    BooksHold(cfg, t0, ls, k, p);
    LostNothing(cfg, t0, ls, k, p);
  }

  // ---- Time ----

  /** No breaker changed its state in the future. */
  ghost predicate Past(cfg: Config, sh: Shared)
    requires Matches(cfg, sh)
  {
    forall p :: 0 <= p < |cfg.names| ==> sh.breakers[p].since <= sh.now
  }

  lemma CallKeepsPast(cfg: Config, sh: Shared, p: nat, call: Breaker.Call)
    requires Matches(cfg, sh) && p < |cfg.names| && Past(cfg, sh)
    ensures var sh' := CallBreaker(cfg, sh, p, call).0; Matches(cfg, sh') && Past(cfg, sh')
  {
  }

  lemma NextKeepsPast(cfg: Config, sh: Shared, s: Stream, x: Input)
    requires Matches(cfg, sh) && Shape(cfg, s) && Past(cfg, sh)
    ensures var sh' := Next(cfg, sh, s, x).0; Matches(cfg, sh') && Past(cfg, sh')
  {
    hide CallBreaker, Past;
    match s.pc
    case Choosing(i, _) => if i < |cfg.names| { CallKeepsPast(cfg, sh, i, Breaker.AllowAttempt); }
    case Recording =>
      CallKeepsPast(cfg, sh, s.cur.value.provider, Breaker.RecordSuccess);
      CallKeepsPast(cfg, sh, s.cur.value.provider, Breaker.RecordFailure);
    case Searching(i) => if i < |cfg.names| { CallKeepsPast(cfg, sh, i, Breaker.GetState); }
    case Claiming(i) => CallKeepsPast(cfg, sh, i, Breaker.TryClaimProbe);
    case _ => SamePast(cfg, sh, Next(cfg, sh, s, x).0);
  }

  lemma SamePast(cfg: Config, sh: Shared, sh': Shared)
    requires Matches(cfg, sh) && Past(cfg, sh) && sh'.breakers == sh.breakers && sh'.calls == sh.calls && sh'.now >= sh.now
    ensures Matches(cfg, sh') && Past(cfg, sh')
  {
  }

  lemma StepKeepsPast(cfg: Config, y: Sys, l: Label)
    requires WF(cfg, y) && Past(cfg, y.sh)
    ensures var z := Step(cfg, y, l); Matches(cfg, z.sh) && Past(cfg, z.sh)
  {
    hide Inv, Next, CallBreaker, Past, Admits;
    match l
    case Run(id, x) =>
      if id < |y.streams| && StepOk(y.sh, y.streams[id], x) {
        InvShape(cfg, y.streams[id]);
        NextKeepsPast(cfg, y.sh, y.streams[id], x);
      }
    case Foreign(p, call) => if p < |cfg.names| { CallKeepsPast(cfg, y.sh, p, call); }
    case _ => SamePast(cfg, y.sh, Step(cfg, y, l).sh);
  }

  lemma {:induction false} AlwaysPast(cfg: Config, t0: int, ls: seq<Label>)
    requires cfg.Valid()
    ensures Past(cfg, Exec(cfg, t0, ls).sh)
  {
    hide Inv, Step;
    if ls != [] {
      AlwaysPast(cfg, t0, ls[..|ls| - 1]);
      StepKeepsPast(cfg, Exec(cfg, t0, ls[..|ls| - 1]), ls[|ls| - 1]);
    }
  }

  // ---- The cool-down, seen from the streams ----

  /** After breaker `p` opened or restarted its time-out, until that has passed and unless it was
      forced, a stream whose turn it is to try `p` starts an attempt on it if and only if it holds a
      claim granted before. */
  lemma NoUnclaimedAttemptInCoolDown(cfg: Config, t0: int, ls: seq<Label>, id: nat, x: Input, i: nat)
    requires cfg.Valid() && id < |Exec(cfg, t0, ls).streams|
    requires var s := Exec(cfg, t0, ls).streams[id];
      InputOk(x) && s.pc.Choosing? && s.pc.i < |cfg.names|
    requires var y := Exec(cfg, t0, ls); var p := y.streams[id].pc.i; var h := y.sh.calls[p];
      && i < |h| && Breaker.Opens(cfg.breakers[p], Breaker.Fresh(t0), h, i)
      && (forall k :: i < k < |h| ==> !h[k].call.ForceState?)
      && y.sh.now < h[i].now + cfg.breakers[p].openTimeout
    ensures var y := Exec(cfg, t0, ls); var s := y.streams[id];
      Step(cfg, y, Run(id, x)).streams[id].cur.Some? <==> s.pc.i in s.claimed
  {
    hide Inv, Breaker.Opens, Breaker.After, Breaker.Apply, Exec;
    var y := Exec(cfg, t0, ls);
    var s := y.streams[id];
    var p := s.pc.i;
    InvShape(cfg, s);
    BooksHold(cfg, t0, ls, Grants, p);
    assert Explained(cfg, t0, y.sh, p);
    RefusedInCoolDown(cfg.breakers[p], Breaker.Fresh(t0), y.sh.calls[p], i, y.sh.now);
  }

  lemma RefusedInCoolDown(b: Breaker.Config, c: Breaker.Circuit, h: seq<Breaker.Stamped>, i: nat, now: int)
    requires Breaker.Monotone(h) && i < |h| && Breaker.Opens(b, c, h, i)
    requires forall k :: 0 <= k < |h| ==> h[k].now <= now
    requires forall k :: i < k < |h| ==> !h[k].call.ForceState?
    requires now < h[i].now + b.openTimeout
    ensures !Breaker.Apply(b, Breaker.After(b, c, h), Breaker.AllowAttempt, now).granted
  {
    hide Breaker.Apply, Breaker.After;
    var g := h + [Breaker.At(Breaker.AllowAttempt, now)];
    assert g[..i] == h[..i] && g[..i + 1] == h[..i + 1] && g[..|h|] == h;
    Breaker.CoolDown(b, c, g, i, |h|);
  }
}
