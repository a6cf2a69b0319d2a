/** The money across budget periods: how much can be billed between two resets. */
module Periods {
  import opened Options
  import opened Gateway
  import opened Accounting
  import opened System
  import Breaker
  import Budget
  import Metering
  import RateLimit
  import Reports
  import Scenarios

  ghost function Helds(y: Sys): int { Sum(y.streams, Held) }

  function Charged(s: Stream): int {
    StreamBilled(s) + StreamGap(s)
  }

  /** At every moment what the streams reserved and did not release is billed, stranded or held. */
  lemma Balance(cfg: Config, y: Sys)
    requires WF(cfg, y)
    ensures Nets(y) == Bills(y) + Gaps(y) + Helds(y)
  {
    forall i | 0 <= i < |y.streams|
      ensures Charged(y.streams[i]) + Held(y.streams[i]) == Net(y.streams[i])
    {
      assert Inv(cfg, y.streams[i]);
    }
    SumAdds(y.streams, StreamBilled, StreamGap, Charged);
    SumAdds(y.streams, Charged, Held, Net);
  }

  lemma ExecMore(cfg: Config, t0: int, ls: seq<Label>, more: seq<Label>)
    requires cfg.Valid()
    ensures if more == [] then ls + more == ls
            else Exec(cfg, t0, ls + more) == Step(cfg, Exec(cfg, t0, ls + more[..|more| - 1]), more[|more| - 1])
  {
    hide Inv, Exec, Step;
    if more == [] {
      assert ls + more == ls;
    } else {
      var n := |more| - 1;
      ExecSnoc(cfg, t0, ls + more[..n], more[n]);
      assert ls + more == ls + more[..n] + [more[n]];
    }
  }

  /** Without a reset usage grows at least as the net reservations do: a release may stop at zero. */
  lemma {:induction false} UsageFollowsNets(cfg: Config, t0: int, ls: seq<Label>, more: seq<Label>)
    requires cfg.Valid() && NoReset(more)
    ensures var y, z := Exec(cfg, t0, ls), Exec(cfg, t0, ls + more);
      && z.sh.used - y.sh.used >= Nets(z) - Nets(y)
      && Billed(z.sh.ledger) - Billed(y.sh.ledger) == Bills(z) - Bills(y)
  {
    hide Inv, Exec, Step, Nets, Bills, Billed;
    ExecMore(cfg, t0, ls, more);
    if more != [] {
      var n := |more| - 1;
      UsageFollowsNets(cfg, t0, ls, more[..n]);
      StepMovesBooks(cfg, Exec(cfg, t0, ls + more[..n]), more[n]);
    }
  }

  // ---- What is stranded stays stranded ----

  /** Answers that strand nothing. */
  predicate Benign(s: Stream, x: Input) {
    && x != ReceiveError(Cancelled) && !x.WriteError?
    && (x.Receive? && x.frame.Usage? ==> x.frame.k >= s.Tokens())
  }

  lemma CountGap(s: Stream, k: nat)
    requires s.cur.Some?
    ensures StreamGap(CountUsage(s, k)) ==
      StreamGap(s) + (if s.cur.value.outcome.Cancelled? then k - Count(s.cur.value.frames) else 0)
                   + (if k < Count(s.cur.value.frames) then Count(s.cur.value.frames) - k else 0)
  {
    hide Count, Corrections, Gap;
    CountAppend(s.cur.value.frames, Usage(k));
    CorrectionsAppend(s.cur.value.frames, Usage(k));
  }

  lemma ReadGap(cfg: Config, s: Stream, x: Input)
    requires Inv(cfg, s) && s.pc.Reading? && InputOk(x)
    ensures StreamGap(OnInput(s, x)) >= StreamGap(s)
    ensures Benign(s, x) ==> StreamGap(OnInput(s, x)) == StreamGap(s)
  {
    hide Count, Corrections, Gap, OpenWire, Log, Failovers, FailoverTokens, Billed, Closed;
    match x
    case Receive(Usage(k)) => CountGap(s, k);
    case Receive(Control) =>
      CountAppend(s.cur.value.frames, Control);
      CorrectionsAppend(s.cur.value.frames, Control);
    case _ =>
  }

  lemma ReserveGap(cfg: Config, sh: Shared, s: Stream)
    requires Inv(cfg, s) && s.pc.Reserving?
    ensures StreamGap(OnReserve(cfg, sh, s, s.pc.want, s.pc.c).1) == StreamGap(s)
  {
    hide Count, Corrections, Gap, OpenWire, Log, Failovers, FailoverTokens, Billed, Closed;
    if s.pc.want.Correct? {
      CountGap(s, s.pc.want.k);
    }
  }

  lemma WriteGap(cfg: Config, s: Stream, x: Input)
    requires Inv(cfg, s) && s.pc.Writing? && InputOk(x)
    ensures var s' := OnWrite(s, s.pc.text, s.pc.n, x);
      StreamGap(s') >= StreamGap(s) && (Benign(s, x) ==> StreamGap(s') == StreamGap(s))
  {
    hide Count, Corrections, Gap, OpenWire, Log, Failovers, FailoverTokens, Billed, Closed;
    CountAppend(s.cur.value.frames, Text(s.pc.text, s.pc.n));
    CorrectionsAppend(s.cur.value.frames, Text(s.pc.text, s.pc.n));
  }

  lemma ReleaseGap(cfg: Config, sh: Shared, s: Stream)
    requires Inv(cfg, s) && s.pc.Releasing?
    ensures StreamGap(OnRelease(cfg, sh, s, s.pc.to, s.pc.c).1) == StreamGap(s)
  {
    hide Count, Corrections, OpenWire, Log, Failovers, FailoverTokens, Billed, Closed;
    GapAppend(s.past, s.cur.value);
  }

  lemma StartGap(s: Stream, a: Attempt)
    requires s.cur.None? && a.frames == [] && a.lost == 0 && a.outcome.Running?
    ensures StreamGap(s.(cur := Some(a))) == StreamGap(s)
  {
  }

  lemma ChooseGap(cfg: Config, sh: Shared, s: Stream)
    requires Matches(cfg, sh) && Shape(cfg, s) && s.pc.Choosing?
    ensures StreamGap(OnChoose(cfg, sh, s, s.pc.i, s.pc.hop).1) == StreamGap(s)
  {
    hide Gap;
    StartGap(s, Attempt(s.pc.i, [], 0, Running, 0));
  }

  lemma QuietGap(cfg: Config, sh: Shared, s: Stream, x: Input)
    requires Matches(cfg, sh) && Shape(cfg, s)
    requires s.pc.Recording? || s.pc.Searching? || s.pc.Claiming? || s.pc.Settling? || s.pc.Finished?
    ensures StreamGap(Next(cfg, sh, s, x).1) == StreamGap(s)
  {
    hide Gap, Count, Corrections;
  }

  lemma NextGap(cfg: Config, sh: Shared, s: Stream, x: Input)
    requires Matches(cfg, sh) && Inv(cfg, s) && InputOk(x)
    ensures Shape(cfg, s) && StreamGap(Next(cfg, sh, s, x).1) >= StreamGap(s)
    ensures Benign(s, x) ==> StreamGap(Next(cfg, sh, s, x).1) == StreamGap(s)
  {
    hide Inv, StreamGap, OnRelease, OnSettle, OnChoose, OnWrite, OnReserve, OnInput;
    InvShape(cfg, s);
    match s.pc
    case Choosing(_, _) => ChooseGap(cfg, sh, s);
    case Reading => ReadGap(cfg, s, x);
    case Reserving(_, _) => ReserveGap(cfg, sh, s);
    case Writing(_, _) => WriteGap(cfg, s, x);
    case Releasing(_, _) => ReleaseGap(cfg, sh, s);
    case _ => QuietGap(cfg, sh, s, x);
  }

  lemma StepGap(cfg: Config, y: Sys, l: Label)
    requires WF(cfg, y)
    ensures Gaps(Step(cfg, y, l)) >= Gaps(y)
    ensures (l.Run? && l.id < |y.streams| ==> Benign(y.streams[l.id], l.x)) ==> Gaps(Step(cfg, y, l)) == Gaps(y)
  {
    hide Inv, Next, StreamGap, Admits;
    match l
    case Spawn =>
      SumAppend(y.streams, NewStream(), StreamGap);
      NewGap(NewStream());
    case Run(id, x) =>
      if id < |y.streams| && StepOk(y.sh, y.streams[id], x) {
        NextGap(cfg, y.sh, y.streams[id], x);
        SumUpdate(y.streams, id, Next(cfg, y.sh, y.streams[id], x).1, StreamGap);
      }
    case _ =>
  }

  lemma NewGap(s: Stream)
    requires s == NewStream()
    ensures StreamGap(s) == 0 && Held(s) == 0
  {
  }

  lemma {:induction false} GapsGrow(cfg: Config, t0: int, ls: seq<Label>, more: seq<Label>)
    requires cfg.Valid()
    ensures Gaps(Exec(cfg, t0, ls + more)) >= Gaps(Exec(cfg, t0, ls))
  {
    hide Inv, Exec, Step, Gaps;
    ExecMore(cfg, t0, ls, more);
    if more != [] {
      var n := |more| - 1;
      GapsGrow(cfg, t0, ls, more[..n]);
      StepGap(cfg, Exec(cfg, t0, ls + more[..n]), more[n]);
    }
  }

  /** Over any stretch of any run without a reset in it, whatever resets came before: what is billed or
      stranded in it is at most the growth of usage and what the streams held at its start and no longer
      hold at its end.  So a budget period bills at most its budget and what was held when it began. */
  lemma PeriodBillBounded(cfg: Config, t0: int, ls: seq<Label>, more: seq<Label>)
    requires cfg.Valid() && NoReset(more)
    ensures var y, z := Exec(cfg, t0, ls), Exec(cfg, t0, ls + more);
      && Billed(z.sh.ledger) - Billed(y.sh.ledger)
         <= (Billed(z.sh.ledger) + Gaps(z)) - (Billed(y.sh.ledger) + Gaps(y))
         <= (z.sh.used - y.sh.used) + (Helds(y) - Helds(z))
      && Helds(z) >= 0 && z.sh.used <= cfg.budget
  {
    var y, z := Exec(cfg, t0, ls), Exec(cfg, t0, ls + more);
    UsageFollowsNets(cfg, t0, ls, more);
    GapsGrow(cfg, t0, ls, more);
    Balance(cfg, y);
    Balance(cfg, z);
    forall i | 0 <= i < |z.streams| ensures Held(z.streams[i]) >= 0 {
      assert Inv(cfg, z.streams[i]);
    }
    SumNonnegative(z.streams, Held, 0);
  }

  // ---- Winding a stream down ----

  /** The run `more` goes on from `ls` without a reset. */
  ghost predicate GoesOn(ls: seq<Label>, more: seq<Label>) {
    ls <= more && forall i :: |ls| <= i < |more| ==> !more[i].Reset?
  }

  /** A reservation about to be made fits beside the running count. */
  predicate Fits(s: Stream) {
    s.pc.Reserving? ==> s.Tokens() + Amount(s, s.pc.want) <= Budget.MAX_INT64
  }

  /** The stream has an attempt the client did not cancel, and no other stream disturbs a reservation. */
  predicate Winding(sh: Shared, s: Stream) {
    && s.cur.Some? && !s.cur.value.outcome.Cancelled? && Fits(s)
    && (s.pc.Reserving? && !s.pc.c.Granted? ==> sh.used == 0)
  }

  /** The answers that end an attempt soonest, and well. */
  function Closing(s: Stream): Input {
    if s.pc.Reading? then ReceiveDone else if s.pc.Writing? then WriteOk else Quiet
  }

  /** Steps at most to go before the stream has finished or releases its tokens. */
  function Rank(cfg: Config, sh: Shared, s: Stream): nat {
    var base := 2 * |cfg.names| + 3;
    match s.pc
    case Reserving(_, Loaded(v)) => if v == sh.used then base + 4 else base + 6
    case Reserving(_, Granted) => base + 3
    case Reserving(_, _) => base + 5
    case Writing(_, _) => base + 2
    case Reading => base + 1
    case Recording => base
    case Searching(k) => if k < |cfg.names| then 2 * (|cfg.names| - k) + 2 else 2
    case Claiming(k) => if k < |cfg.names| then 2 * (|cfg.names| - k) + 1 else 2
    case Settling(_) => 1
    case _ => 0
  }

  /** One step of winding down: nothing is released, and only a reservation changes usage. */
  ghost predicate Winds(cfg: Config, sh: Shared, s: Stream, sh': Shared, s': Stream) {
    && s.cur.Some? && Winding(sh', s') && !s'.pc.Choosing? && Rank(cfg, sh', s') < Rank(cfg, sh, s)
    && s'.released == s.released && s'.reserved >= s.reserved
    && (!s.pc.Reserving? ==> !s'.pc.Reserving? && sh'.used == sh.used)
    && (s.cur.value.outcome.Failed? ==> s'.cur == s.cur)
    && (!s.cur.value.outcome.Failed? ==> !s'.cur.value.outcome.Failed?)
  }

  lemma ReserveWinds(cfg: Config, sh: Shared, s: Stream)
    requires Inv(cfg, s) && s.pc.Reserving? && Winding(sh, s)
    ensures var (sh', s') := OnReserve(cfg, sh, s, s.pc.want, s.pc.c); Winds(cfg, sh, s, sh', s')
  {
    hide OpenWire, WireGrammar, Log, Failovers, FailoverTokens, Gap, Billed, Count, Corrections, Closed;
  }

  lemma HopWinds(cfg: Config, sh: Shared, s: Stream)
    requires Matches(cfg, sh) && Shape(cfg, s) && Winding(sh, s) && (s.pc.Searching? || s.pc.Claiming?)
    ensures var (sh', s') := Next(cfg, sh, s, Quiet); Winds(cfg, sh, s, sh', s')
  {
  }

  lemma QuietWinds(cfg: Config, sh: Shared, s: Stream)
    requires Matches(cfg, sh) && Shape(cfg, s) && Winding(sh, s)
    requires s.pc.Reading? || s.pc.Writing? || s.pc.Recording? || s.pc.Settling?
    ensures var (sh', s') := Next(cfg, sh, s, Closing(s)); Winds(cfg, sh, s, sh', s')
  {
  }

  lemma NextWinds(cfg: Config, sh: Shared, s: Stream)
    requires Matches(cfg, sh) && Inv(cfg, s) && Winding(sh, s) && !s.pc.Choosing? && !s.pc.Releasing? && !s.pc.Finished?
    ensures Shape(cfg, s)
    ensures var (sh', s') := Next(cfg, sh, s, Closing(s)); Winds(cfg, sh, s, sh', s')
  {
    hide Inv, Winds, OnReserve, OnInput, OnWrite, OnRecord, OnSearch, OnClaim, OnSettle;
    InvShape(cfg, s);
    if s.pc.Reserving? {
      ReserveWinds(cfg, sh, s);
    } else if s.pc.Searching? || s.pc.Claiming? {
      HopWinds(cfg, sh, s);
    } else {
      QuietWinds(cfg, sh, s);
    }
  }

  /** `z` is `y` but for stream `id`; nothing was lost at the floor of a release, and nothing stranded. */
  ghost predicate Only(y: Sys, z: Sys, id: nat) {
    && |z.streams| == |y.streams| && id < |y.streams| && z.streams == y.streams[id := z.streams[id]]
    && z.sh.used - Nets(z) == y.sh.used - Nets(y) && Gaps(z) == Gaps(y)
  }

  lemma WindStep(cfg: Config, t0: int, ls: seq<Label>, id: nat)
    requires cfg.Valid() && id < |Exec(cfg, t0, ls).streams|
    requires var y := Exec(cfg, t0, ls); var s := y.streams[id];
      Winding(y.sh, s) && !s.pc.Choosing? && !s.pc.Releasing? && !s.pc.Finished?
    ensures var y := Exec(cfg, t0, ls); var s := y.streams[id]; var z := Exec(cfg, t0, ls + [Run(id, Closing(s))]);
      Only(y, z, id) && Winds(cfg, y.sh, s, z.sh, z.streams[id])
  {
    hide Inv, Exec, Next, Rank, Winding, StreamGap;
    var y := Exec(cfg, t0, ls);
    var s := y.streams[id];
    var x := Closing(s);
    FitsLoads(y.sh, s);
    NextWinds(cfg, y.sh, s);
    RunOne(cfg, t0, ls, id, x);
    ExecSnoc(cfg, t0, ls, Run(id, x));
    StepMovesBooks(cfg, y, Run(id, x));
    StepGap(cfg, y, Run(id, x));
    SumUpdate(y.streams, id, Exec(cfg, t0, ls + [Run(id, x)]).streams[id], Net);
  }

  lemma FitsLoads(sh: Shared, s: Stream)
    requires Winding(sh, s)
    ensures StepOk(sh, s, Closing(s)) && Benign(s, Closing(s))
  {
  }

  /** The stream alone, until it has finished or releases the tokens of a failed attempt. */
  lemma {:induction false} WindDown(cfg: Config, t0: int, ls: seq<Label>, id: nat) returns (more: seq<Label>)
    requires cfg.Valid() && id < |Exec(cfg, t0, ls).streams|
    requires var y := Exec(cfg, t0, ls); Winding(y.sh, y.streams[id]) && !y.streams[id].pc.Choosing?
    ensures GoesOn(ls, more)
    ensures var y, z := Exec(cfg, t0, ls), Exec(cfg, t0, more);
      && Only(y, z, id)
      && var s, s' := y.streams[id], z.streams[id];
      && (s'.pc.Finished? || s'.pc.Releasing?) && s'.cur.Some?
      && (!s.pc.Reserving? ==> z.sh.used == y.sh.used)
      && (if s.cur.value.outcome.Failed? then s'.cur == s.cur else s'.pc.Finished?)
    decreases Rank(cfg, Exec(cfg, t0, ls).sh, Exec(cfg, t0, ls).streams[id])
  {
    hide Inv, Exec, Winding, Nets, Gaps, Rank, Shape, Closing;
    var y := Exec(cfg, t0, ls);
    var s := y.streams[id];
    if s.pc.Finished? || s.pc.Releasing? {
      more := ls;
      assert y.streams == y.streams[id := s];
      ReleasingFailed(cfg, s);
      WindingAttempt(y.sh, s);
    } else {
      var next := ls + [Run(id, Closing(s))];
      WindStep(cfg, t0, ls, id);
      WindingAttempt(y.sh, s);
      more := WindDown(cfg, t0, next, id);
      var z := Exec(cfg, t0, more);
      assert z.streams == y.streams[id := z.streams[id]];
    }
  }

  lemma ReleasingFailed(cfg: Config, s: Stream)
    requires Inv(cfg, s)
    ensures s.pc.Releasing? ==> s.cur.Some? && s.cur.value.outcome.Failed?
  {
  }

  lemma WindingAttempt(sh: Shared, s: Stream)
    requires Winding(sh, s)
    ensures s.cur.Some?
  {
  }

  // ---- A new stream uses up the budget ----

  /** The first provider is open to a new request once enough time has passed and a result was
      recorded on it. */
  lemma FirstAdmits(cfg: Config, b: Breaker.Circuit, d: nat, now: int)
    requires Scenarios.Usable(cfg) && |cfg.names| > 0 && d >= cfg.breakers[0].openTimeout && b.since <= now
    ensures var c := Breaker.Apply(cfg.breakers[0], b, Breaker.RecordSuccess, now + d).circuit;
      Breaker.Apply(cfg.breakers[0], c, Breaker.AllowAttempt, now + d).granted
  {
  }

  lemma {:induction false} NothingInWindow(h: seq<RateLimit.Call>, key: string, lo: int)
    requires forall i :: 0 <= i < |h| ==> h[i].now <= lo
    ensures RateLimit.NaiveSum(h, key, lo) == 0
  {
    if h != [] {
      NothingInWindow(h[..|h| - 1], key, lo);
    }
  }

  /** A key whose budget is not used up gets a new stream, which waits for the first provider's first
      frame: time passes, another key records a success on that provider, a request arrives. */
  lemma NewReader(cfg: Config, t0: int, ls: seq<Label>) returns (more: seq<Label>)
    requires Scenarios.Usable(cfg) && |cfg.names| > 0 && Exec(cfg, t0, ls).sh.used < cfg.budget
    ensures GoesOn(ls, more)
    ensures var y, z := Exec(cfg, t0, ls), Exec(cfg, t0, more);
      && |z.streams| == |y.streams| + 1 && z.streams[..|y.streams|] == y.streams && z.sh.used == y.sh.used
      && var s := z.streams[|y.streams|];
      && s.pc.Reading? && s.cur == Some(Attempt(0, [], 0, Running, 0)) && s.past == [] && s.settled == []
      && s.reserved == s.released == 0
  {
    hide Inv, Exec, Breaker.Apply, Admits;
    var y := Exec(cfg, t0, ls);
    var d := cfg.window + cfg.breakers[0].openTimeout;
    Reports.AlwaysPast(cfg, t0, ls);
    FirstAdmits(cfg, y.sh.breakers[0], d, y.sh.now);
    Metering.EveryReservationIsMetered(cfg, t0, ls);
    var tick, heal := Tick(d), Foreign(0, Breaker.RecordSuccess);
    ExecSnoc(cfg, t0, ls, tick);
    ExecSnoc(cfg, t0, ls + [tick], heal);
    ExecSnoc(cfg, t0, ls + [tick] + [heal], Enter);
    var ready := ls + [tick] + [heal] + [Enter];
    var r := Exec(cfg, t0, ready);
    NothingInWindow(y.sh.meter, cfg.hash, r.sh.now - cfg.window);
    Metering.AdmissionSeesTheWindow(cfg, t0, ready);
    ExecSnoc(cfg, t0, ready, Spawn);
    var id := |y.streams|;
    assert Exec(cfg, t0, ready + [Spawn]).streams[id] == NewStream();
    RunOne(cfg, t0, ready + [Spawn], id, Quiet);
    more := ready + [Spawn] + [Run(id, Quiet)];
  }

  /** A stream whose reservation of `n` tokens for its first text was just granted. */
  ghost predicate Granted(s: Stream, n: nat) {
    && s.pc == Reserving(Deliver("a", n), Budget.Granted) && s.cur == Some(Attempt(0, [], 0, Running, 0))
    && s.past == [] && s.settled == [] && s.reserved == n && s.released == 0
  }

  lemma ReserveRest(cfg: Config, t0: int, ls: seq<Label>) returns (more: seq<Label>)
    requires Scenarios.Usable(cfg) && |cfg.names| > 0 && Exec(cfg, t0, ls).sh.used < cfg.budget
    ensures GoesOn(ls, more)
    ensures var y, z := Exec(cfg, t0, ls), Exec(cfg, t0, more);
      && |z.streams| == |y.streams| + 1 && z.streams[..|y.streams|] == y.streams && z.sh.used == cfg.budget
      && Granted(z.streams[|y.streams|], cfg.budget - y.sh.used)
  {
    hide Inv, Exec;
    var y := Exec(cfg, t0, ls);
    var n: nat := cfg.budget - y.sh.used;
    var id := |y.streams|;
    var x := Receive(Text("a", n));
    more := NewReader(cfg, t0, ls);
    RunOne(cfg, t0, more, id, x);
    more := more + [Run(id, x)];
    RunOne(cfg, t0, more, id, Quiet);
    more := more + [Run(id, Quiet)];
    RunOne(cfg, t0, more, id, Quiet);
    more := more + [Run(id, Quiet)];
  }

  /** The new stream is sent one text of all the tokens that are left. */
  lemma Fill(cfg: Config, t0: int, ls: seq<Label>) returns (more: seq<Label>)
    requires Scenarios.Usable(cfg) && |cfg.names| > 0 && Exec(cfg, t0, ls).sh.used < cfg.budget
    ensures GoesOn(ls, more)
    ensures var y, z := Exec(cfg, t0, ls), Exec(cfg, t0, more);
      && |z.streams| == |y.streams| + 1 && z.streams[..|y.streams|] == y.streams && z.sh.used == cfg.budget
      && Filled(z.streams[|y.streams|], cfg.budget - y.sh.used)
  {
    hide Inv, Exec;
    var y := Exec(cfg, t0, ls);
    var n: nat := cfg.budget - y.sh.used;
    var id := |y.streams|;
    more := ReserveRest(cfg, t0, ls);
    RunOne(cfg, t0, more, id, Quiet);
    more := more + [Run(id, Quiet)];
    assert Exec(cfg, t0, more).streams[id].pc == Writing("a", n);
    RunOne(cfg, t0, more, id, WriteOk);
    more := more + [Run(id, WriteOk)];
    assert [] + [Text("a", n)] == [Text("a", n)];
  }

  /** A stream that has taken one text of `n` tokens. */
  ghost predicate Filled(s: Stream, n: nat) {
    && s.pc.Reading? && s.cur == Some(Attempt(0, [Text("a", n)], n, Running, 0)) && s.past == [] && s.settled == []
    && s.reserved == n && s.released == 0
  }

  lemma FilledBooks(s: Stream, n: nat)
    requires Filled(s, n)
    ensures Net(s) == Held(s) == n && StreamGap(s) == 0
  {
    var f := [Text("a", n)];
    assert f[..0] == [];
    assert Corrections(f) == 0;
  }

  /** Seen as a whole: usage is used up, and all that was added is held. */
  lemma FillBooks(cfg: Config, t0: int, ls: seq<Label>) returns (more: seq<Label>)
    requires Scenarios.Usable(cfg) && |cfg.names| > 0 && Exec(cfg, t0, ls).sh.used < cfg.budget
    ensures GoesOn(ls, more)
    ensures var y, z := Exec(cfg, t0, ls), Exec(cfg, t0, more);
      && |z.streams| == |y.streams| + 1 && z.streams[..|y.streams|] == y.streams && z.sh.used == cfg.budget
      && Winding(z.sh, z.streams[|y.streams|]) && z.streams[|y.streams|].pc.Reading?
      && z.streams[|y.streams|].cur.value.outcome.Running?
      && Nets(z) == Nets(y) + cfg.budget - y.sh.used && Gaps(z) == Gaps(y)
      && Helds(z) == Helds(y) + Held(z.streams[|y.streams|])
  {
    hide Inv, Exec, StreamGap;
    more := Fill(cfg, t0, ls);
    var y, z := Exec(cfg, t0, ls), Exec(cfg, t0, more);
    var s := z.streams[|y.streams|];
    FilledBooks(s, cfg.budget - y.sh.used);
    assert z.streams == y.streams + [s];
    SumAppend(y.streams, s, Net);
    SumAppend(y.streams, s, StreamGap);
    SumAppend(y.streams, s, Held);
  }

  // ---- A release under way ----

  /** The release of a failed attempt's tokens, alone: usage falls by them, or to zero. */
  lemma {:induction false} FinishRelease(cfg: Config, t0: int, ls: seq<Label>, id: nat) returns (more: seq<Label>)
    requires cfg.Valid() && id < |Exec(cfg, t0, ls).streams|
    requires var s := Exec(cfg, t0, ls).streams[id]; s.pc.Releasing? && s.Tokens() > 0
    ensures GoesOn(ls, more)
    ensures var y, z := Exec(cfg, t0, ls), Exec(cfg, t0, more); var h := y.streams[id].Tokens();
      && |z.streams| == |y.streams| && z.streams == y.streams[id := z.streams[id]] && z.streams[id].cur.None?
      && z.sh.used == (if h <= y.sh.used then y.sh.used - h else 0)
      && Nets(z) == Nets(y) - h && Gaps(z) == Gaps(y)
    decreases var y := Exec(cfg, t0, ls);
      match y.streams[id].pc case Releasing(_, Loaded(v)) => if v == y.sh.used then 0 else 2 case _ => 1
  {
    hide Inv, Exec, Nets, Gaps;
    var y := Exec(cfg, t0, ls);
    var s := y.streams[id];
    RunOne(cfg, t0, ls, id, Quiet);
    ExecSnoc(cfg, t0, ls, Run(id, Quiet));
    StepGap(cfg, y, Run(id, Quiet));
    ReleaseStep(cfg, y.sh, s);
    more := ls + [Run(id, Quiet)];
    var z := Exec(cfg, t0, more);
    NetsUpdate(y, z, id);
    if z.streams[id].pc.Releasing? {
      more := FinishRelease(cfg, t0, more, id);
    }
  }

  lemma NetsUpdate(y: Sys, z: Sys, id: nat)
    requires |z.streams| == |y.streams| && id < |y.streams| && z.streams == y.streams[id := z.streams[id]]
    ensures Nets(z) == Nets(y) - Net(y.streams[id]) + Net(z.streams[id])
    ensures Helds(z) == Helds(y) - Held(y.streams[id]) + Held(z.streams[id])
  {
    SumUpdate(y.streams, id, z.streams[id], Net);
    SumUpdate(y.streams, id, z.streams[id], Held);
  }

  lemma ReleaseStep(cfg: Config, sh: Shared, s: Stream)
    requires Inv(cfg, s) && Matches(cfg, sh) && s.pc.Releasing? && s.Tokens() > 0 && Budget.InBounds(cfg.budget, sh.used)
    ensures var (sh', s') := OnRelease(cfg, sh, s, s.pc.to, s.pc.c); var h := s.Tokens();
      match s.pc.c
      case Loaded(v) =>
        if v == sh.used then s'.cur.None? && Net(s') == Net(s) - h && sh'.used == (if h <= sh.used then sh.used - h else 0)
        else s' == s.(pc := Releasing(s.pc.to, Budget.Start)) && sh' == sh
      case _ => s' == s.(pc := Releasing(s.pc.to, Budget.Loaded(sh.used))) && sh' == sh
  {
    hide OpenWire, WireGrammar, Log, Failovers, FailoverTokens, Gap, Billed, Count, Corrections, Closed;
  }

  // ---- A period that bills more than its budget ----

  lemma BilledIs(cfg: Config, t0: int, ls: seq<Label>)
    requires cfg.Valid()
    ensures var y := Exec(cfg, t0, ls); Billed(y.sh.ledger) == Nets(y) - Gaps(y) - Helds(y)
  {
    hide Inv, Exec;
    Conservation(cfg, t0, ls);
    Balance(cfg, Exec(cfg, t0, ls));
  }

  /** Between the two states nothing was lost or stranded, and the new streams hold nothing. */
  ghost predicate SpentOn(y: Sys, z: Sys) {
    && z.sh.used - Nets(z) == y.sh.used - Nets(y) && Gaps(z) == Gaps(y) && Helds(z) == Helds(y)
    && |y.streams| <= |z.streams| && z.streams[..|y.streams|] == y.streams
  }

  /** What is left of the budget is used up and billed, to a new stream. */
  lemma TopUp(cfg: Config, t0: int, ls: seq<Label>) returns (more: seq<Label>)
    requires Scenarios.Usable(cfg) && |cfg.names| > 0
    ensures GoesOn(ls, more)
    ensures var y, z := Exec(cfg, t0, ls), Exec(cfg, t0, more); z.sh.used == cfg.budget && SpentOn(y, z)
  {
    hide Inv, Exec, Winding, Nets, Gaps, Helds;
    var y := Exec(cfg, t0, ls);
    more := ls;
    if y.sh.used < cfg.budget {
      var full := FillBooks(cfg, t0, ls);
      var w := Exec(cfg, t0, full);
      more := WindDown(cfg, t0, full, |y.streams|);
      var z := Exec(cfg, t0, more);
      NetsUpdate(w, z, |y.streams|);
    } else {
      assert y.streams[..|y.streams|] == y.streams;
    }
  }

  lemma HoldsTokens(cfg: Config, sh: Shared, s: Stream)
    requires Inv(cfg, s) && Held(s) > 0 && Fits(s) && sh.used == 0
    ensures Winding(sh, s) && !s.pc.Choosing? && !s.pc.Finished?
    ensures s.pc.Releasing? ==> s.Tokens() == Held(s)
  {
    hide OpenWire, WireGrammar, Log, Failovers, FailoverTokens, Money, Count;
  }

  lemma HoldsNothing(s: Stream)
    requires s.pc.Finished? || s.cur.None?
    ensures Held(s) == 0
  {
  }

  lemma SameAttemptHolds(cfg: Config, s: Stream, s': Stream)
    requires Inv(cfg, s) && s.cur.Some? && s.cur.value.outcome.Failed? && s'.cur == s.cur && s'.pc.Releasing? && !s.pc.Finished?
    ensures s'.Tokens() == Held(s') == Held(s)
  {
    hide OpenWire, WireGrammar, Log, Failovers, FailoverTokens, Money, Count, Closed;
  }

  /** The release of stream `i`, when usage is zero, while a new stream has used up the budget: what it
      gives back is used again. */
  lemma ReleaseAndSpend(cfg: Config, t0: int, ls: seq<Label>, i: nat) returns (more: seq<Label>)
    requires Scenarios.Usable(cfg) && |cfg.names| > 0 && i < |Exec(cfg, t0, ls).streams|
    requires var y := Exec(cfg, t0, ls); var s := y.streams[i];
      y.sh.used == 0 && s.pc.Releasing? && s.Tokens() == Held(s) > 0
    ensures GoesOn(ls, more)
    ensures var y, z := Exec(cfg, t0, ls), Exec(cfg, t0, more);
      && z.sh.used == cfg.budget && Gaps(z) == Gaps(y) && Helds(z) == Helds(y) - Held(y.streams[i])
      && z.sh.used - Nets(z) < y.sh.used - Nets(y) + Held(y.streams[i])
  {
    hide Inv, Exec, Winding, Nets, Gaps, Helds, Held;
    var y := Exec(cfg, t0, ls);
    var j := |y.streams|;
    var a := FillBooks(cfg, t0, ls);
    var w := Exec(cfg, t0, a);
    assert w.streams[i] == w.streams[..j][i] == y.streams[i];
    var b := FinishRelease(cfg, t0, a, i);
    var v := Exec(cfg, t0, b);
    NetsUpdate(w, v, i);
    HoldsNothing(v.streams[i]);
    var c := TopUp(cfg, t0, b);
    var u := Exec(cfg, t0, c);
    assert u.streams[j] == u.streams[..|v.streams|][j] == w.streams[j];
    StillWinding(w.sh, u.sh, w.streams[j]);
    more := WindDown(cfg, t0, c, j);
    var z := Exec(cfg, t0, more);
    NetsUpdate(u, z, j);
    HoldsNothing(z.streams[j]);
  }

  lemma StillWinding(sh: Shared, sh': Shared, s: Stream)
    requires Winding(sh, s) && s.pc.Reading?
    ensures Winding(sh', s)
  {
  }

  /** From any state with no usage in which some stream holds tokens, a run without a reset bills more
      than the budget. */
  lemma Overbill(cfg: Config, t0: int, ls: seq<Label>, i: nat) returns (more: seq<Label>)
    requires Scenarios.Usable(cfg) && |cfg.names| > 0 && i < |Exec(cfg, t0, ls).streams|
    requires var y := Exec(cfg, t0, ls); y.sh.used == 0 && Held(y.streams[i]) > 0 && Fits(y.streams[i])
    ensures GoesOn(ls, more)
    ensures var y, z := Exec(cfg, t0, ls), Exec(cfg, t0, more);
      Billed(z.sh.ledger) - Billed(y.sh.ledger) > cfg.budget
  {
    hide Inv, Exec, Winding, Nets, Gaps, Helds, Held, Billed;
    var y := Exec(cfg, t0, ls);
    HoldsTokens(cfg, y.sh, y.streams[i]);
    var a := WindDown(cfg, t0, ls, i);
    var w := Exec(cfg, t0, a);
    NetsUpdate(y, w, i);
    if w.streams[i].pc.Finished? {
      HoldsNothing(w.streams[i]);
      more := TopUp(cfg, t0, a);
    } else {
      SameAttemptHolds(cfg, y.streams[i], w.streams[i]);
      NotReserving(cfg, y.streams[i]);
      more := ReleaseAndSpend(cfg, t0, a, i);
    }
    BilledIs(cfg, t0, ls);
    BilledIs(cfg, t0, more);
  }

  lemma NotReserving(cfg: Config, s: Stream)
    requires Inv(cfg, s) && s.cur.Some? && s.cur.value.outcome.Failed?
    ensures !s.pc.Reserving?
  {
  }

  lemma {:induction false} SomeHolds(ss: seq<Stream>) returns (i: nat)
    requires Sum(ss, Held) > 0
    ensures i < |ss| && Held(ss[i]) > 0
  {
    if Held(ss[|ss| - 1]) > 0 {
      i := |ss| - 1;
    } else {
      i := SomeHolds(ss[..|ss| - 1]);
    }
  }

  lemma HolderHasProvider(cfg: Config, s: Stream)
    requires Inv(cfg, s) && Held(s) > 0
    ensures |cfg.names| > 0
  {
  }

  /** Exactly when a budget period can bill more than its budget: the new period begins, and then, with
      no reset before its end, more than the budget is billed, if and only if some stream held tokens
      when it began, that is, tokens reserved in an earlier period and not yet billed, released or
      stranded.  (Reservations under way must fit 64 bits.) */
  lemma OverbillsExactly(cfg: Config, t0: int, ls: seq<Label>)
    requires Scenarios.Usable(cfg)
    requires var y := Exec(cfg, t0, ls + [Reset]); forall i :: 0 <= i < |y.streams| ==> Fits(y.streams[i])
    ensures var y := Exec(cfg, t0, ls + [Reset]);
      Helds(y) > 0 <==>
      exists more :: NoReset(more) && Billed(Exec(cfg, t0, ls + [Reset] + more).sh.ledger) - Billed(y.sh.ledger) > cfg.budget
  {
    hide Inv, Exec, Billed, Held;
    var begun := ls + [Reset];
    ExecSnoc(cfg, t0, ls, Reset);
    var y := Exec(cfg, t0, begun);
    if Helds(y) > 0 {
      var i := SomeHolds(y.streams);
      HolderHasProvider(cfg, y.streams[i]);
      var all := Overbill(cfg, t0, begun, i);
      var more := all[|begun|..];
      assert begun + more == all && NoReset(more);
    }
    forall more | NoReset(more) && Billed(Exec(cfg, t0, begun + more).sh.ledger) - Billed(y.sh.ledger) > cfg.budget
      ensures Helds(y) > 0
    {
      PeriodBillBounded(cfg, t0, begun, more);
    }
  }

  /** In every configuration there is a run whose second period bills more than the budget: a stream has
      taken one text when the first ends. */
  lemma SecondPeriodOverbills(cfg: Config, t0: int) returns (ls: seq<Label>, more: seq<Label>)
    requires Scenarios.Usable(cfg) && |cfg.names| > 0
    ensures NoReset(ls) && NoReset(more)
    ensures var y, z := Exec(cfg, t0, ls + [Reset]), Exec(cfg, t0, ls + [Reset] + more);
      Billed(z.sh.ledger) - Billed(y.sh.ledger) > cfg.budget
  {
    hide Inv, Exec, Billed;
    ls := Scenarios.OneWrites(cfg, t0);
    ExecSnoc(cfg, t0, ls, Reset);
    var begun := ls + [Reset];
    var all := Overbill(cfg, t0, begun, 0);
    more := all[|begun|..];
    assert begun + more == all;
  }
}
