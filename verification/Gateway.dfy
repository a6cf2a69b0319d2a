/** The failover cascade as a step system.  Each stream is a program counter with the local
    variables of the request handler; one step is one action on shared state (a breaker call, a load
    or compare-and-swap on the key's budget, a ledger write) or one answer of the outside world (a
    frame from the provider, the result of a write to the client).  Any number of streams interleave
    with each other, with the clock, with calls other keys make on the breakers, and with budget
    resets. */
module Gateway {
  import opened Options
  import opened Protocol
  import Breaker
  import Budget
  import Ledger
  import RateLimit

  /** The allowed providers of one key, in priority order, its budget and its rate limit. */
  datatype Config = Config(
    hash: string, budget: int, names: seq<string>, breakers: seq<Breaker.Config>, window: int, limit: int)
  {
    ghost predicate Valid() {
      && 0 <= budget <= Budget.MAX_INT64 && window > 0 && limit > 0
      && |breakers| == |names|
      && (forall i :: 0 <= i < |names| ==> names[i] != "")
    }
  }

  /** What the provider sends: text with its token count, a usage report, or a frame that only
      carries control information. */
  datatype Frame = Text(text: string, n: nat) | Usage(k: nat) | Control

  datatype Outcome =
    | Running
    | Success
    | OverBudget
    | Cancelled
    | Shutdown
    | Failed(reason: FailoverReason)

  /** One entry of the session's attempt log: the frames taken and their running token count, how it
      ended, and the reservation of a content write that failed. */
  datatype Attempt = Attempt(provider: nat, frames: seq<Frame>, tokens: nat, outcome: Outcome, lost: nat)

  /** A reservation in progress: for text about to be written, or for a usage report. */
  datatype Want = Deliver(text: string, n: nat) | Correct(k: nat)

  datatype Ending = Plain(truncated: bool) | Announced(why: TruncatedReason)

  datatype Pc =
    | Choosing(i: nat, hop: Option<nat>)   // loop head at provider i; hop is the provider last announced
    | Reading                              // waiting for the provider's next frame
    | Reserving(want: Want, c: Budget.Cas)
    | Writing(text: string, n: nat)
    | Recording                            // attempt over, result not yet given to the breaker
    | Searching(k: nat)                    // nextAttemptableProvider at provider k
    | Claiming(k: nat)                     // k was seen half open
    | Releasing(to: nat, c: Budget.Cas)
    | Settling(how: Ending)
    | Finished

  /** `past` are the attempts announced to the client as replaced, `cur` the one that is not; `total`
      is the running delivery count; `reserved`, `released` and `settled` record what the stream did
      to the budget and the ledger. */
  datatype Stream = Stream(
    pc: Pc, past: seq<Attempt>, cur: Option<Attempt>, wire: seq<Event>, total: int, failovers: nat,
    claimed: set<nat>, reserved: nat, released: nat, settled: seq<Ledger.Terminal>)
  {
    /** Some provider was attempted. */
    predicate Started() { past != [] || cur.Some? }

    function Attempts(): seq<Attempt> {
      if cur.Some? then past + [cur.value] else past
    }

    function Tokens(): nat {
      if cur.Some? then cur.value.tokens else 0
    }
  }

  function NewStream(): Stream {
    Stream(Choosing(0, None), [], None, [], 0, 0, {}, 0, 0, [])
  }

  /** What the streams share; `calls` records the calls made on each breaker so far, `meter` those made
      on the limiter for the key, which determine what it holds. */
  datatype Shared = Shared(
    used: int, breakers: seq<Breaker.Circuit>, calls: seq<seq<Breaker.Stamped>>, now: int,
    ledger: seq<Ledger.Terminal>, meter: seq<RateLimit.Call>)

  predicate Matches(cfg: Config, sh: Shared) {
    |sh.breakers| == |sh.calls| == |cfg.breakers| == |cfg.names|
  }

  /** The outside world's answer to a stream that is reading or writing. */
  datatype Input =
    | Receive(frame: Frame)
    | ReceiveDone
    | ReceiveError(how: Outcome)
    | WriteOk
    | WriteError(err: Outcome)
    | Quiet

  /** Answers the outside world can give: a usage report counts only when positive. */
  predicate InputOk(x: Input) {
    match x
    case Receive(Usage(k)) => k > 0
    case ReceiveError(o) => o.Cancelled? || o.Shutdown? || o.Failed?
    case WriteError(o) => o.Cancelled? || o.Failed?
    case _ => true
  }

  /** The sums a reservation is about to form fit 64 bits: with the usage it loads, and with the
      running count of its attempt. */
  predicate LoadOk(sh: Shared, s: Stream) {
    s.pc.Reserving? && s.pc.c.Start? ==>
      && sh.used + Amount(s, s.pc.want) <= Budget.MAX_INT64
      && s.Tokens() + Amount(s, s.pc.want) <= Budget.MAX_INT64
  }

  predicate StepOk(sh: Shared, s: Stream, x: Input) {
    InputOk(x) && LoadOk(sh, s)
  }

  /** A chunk the tokenizer counts as empty is charged as one token. */
  function Charge(n: nat): (c: nat)
    ensures n > 0 ==> c == n
    ensures n == 0 ==> c == 1
  {
    if n == 0 then 1 else n
  }

  // ---- runAttempt ----

  function End(s: Stream, o: Outcome): Stream
    requires s.cur.Some?
  {
    s.(pc := Recording, cur := Some(s.cur.value.(outcome := o)))
  }

  function CountUsage(s: Stream, k: nat): Stream
    requires s.cur.Some?
  {
    var a := s.cur.value;
    s.(pc := Reading, total := s.total + (k - a.tokens),
       cur := Some(a.(frames := a.frames + [Usage(k)], tokens := k)))
  }

  function OnInput(s: Stream, x: Input): Stream
    requires s.cur.Some?
  {
    match x
    case Receive(Usage(k)) =>
      if k > s.Tokens() then s.(pc := Reserving(Correct(k), Budget.Start)) else CountUsage(s, k)
    case Receive(Control) =>
      s.(cur := Some(s.cur.value.(frames := s.cur.value.frames + [Control])))
    case Receive(Text(text, n)) =>
      s.(pc := Reserving(Deliver(text, Charge(n)), Budget.Start))
    case ReceiveDone => End(s, Success)
    case ReceiveError(o) => End(s, o)
    case _ => s
  }

  function Amount(s: Stream, want: Want): int {
    match want
    case Deliver(_, n) => n
    case Correct(k) => k - s.Tokens()
  }

  /** Reserves, then tells the limiter, then goes on with what the tokens were for. */
  function OnReserve(cfg: Config, sh: Shared, s: Stream, want: Want, c: Budget.Cas): (Shared, Stream)
    requires s.cur.Some?
  {
    var n := Amount(s, want);
    if c.Granted? then
      (sh.(meter := sh.meter + [RateLimit.AddCall(cfg.hash, n, sh.now)]),
       match want
       case Deliver(text, m) => s.(pc := Writing(text, m))
       case Correct(k) => CountUsage(s, k))
    else
      var (used, c') := Budget.ReserveStep(cfg.budget, sh.used, n, c);
      (sh.(used := used),
       if c'.Refused? then End(s, OverBudget)
       else s.(pc := Reserving(want, c'), reserved := s.reserved + (if c'.Granted? && n > 0 then n else 0)))
  }

  function OnWrite(s: Stream, text: string, n: nat, x: Input): Stream
    requires s.cur.Some?
  {
    var a := s.cur.value;
    match x
    case WriteOk =>
      s.(pc := Reading, wire := s.wire + [Content(text)], total := s.total + n,
         cur := Some(a.(frames := a.frames + [Text(text, n)], tokens := a.tokens + n)))
    case WriteError(o) => End(s.(cur := Some(a.(lost := n))), o)
    case _ => s
  }

  // ---- handleStream ----

  function CallBreaker(cfg: Config, sh: Shared, p: nat, call: Breaker.Call): (Shared, bool)
    requires Matches(cfg, sh) && p < |cfg.names|
  {
    var r := Breaker.Apply(cfg.breakers[p], sh.breakers[p], call, sh.now);
    (sh.(breakers := sh.breakers[p := r.circuit],
         calls := sh.calls[p := sh.calls[p] + [Breaker.At(call, sh.now)]]), r.granted)
  }

  function StartAttempt(cfg: Config, s: Stream, i: nat): Stream
    requires i < |cfg.names|
  {
    s.(pc := Reading, cur := Some(Attempt(i, [], 0, Running, 0)),
       wire := if s.Started() then s.wire else s.wire + [Status(cfg.names[i])],
       claimed := s.claimed - {i})
  }

  function OnChoose(cfg: Config, sh: Shared, s: Stream, i: nat, hop: Option<nat>): (Shared, Stream)
    requires Matches(cfg, sh)
  {
    if i >= |cfg.names| then
      (sh, s.(pc := if s.Started() then Finished else Settling(Announced(AllProvidersExhausted))))
    else if i in s.claimed then (sh, StartAttempt(cfg, s, i))
    else
      var (sh', allowed) := CallBreaker(cfg, sh, i, Breaker.AllowAttempt);
      (sh', if allowed then StartAttempt(cfg, s, i) else s.(pc := Choosing(i + 1, hop)))
  }

  function OnRecord(cfg: Config, sh: Shared, s: Stream): (Shared, Stream)
    requires Matches(cfg, sh)
    requires s.cur.Some? && s.cur.value.provider < |cfg.names|
  {
    var p := s.cur.value.provider;
    match s.cur.value.outcome
    case Success =>
      (CallBreaker(cfg, sh, p, Breaker.RecordSuccess).0, s.(pc := Settling(Plain(false))))
    case Shutdown => (sh, s.(pc := Settling(Plain(true))))
    case Cancelled => (sh, s.(pc := Finished))
    case OverBudget =>
      (CallBreaker(cfg, sh, p, Breaker.RecordSuccess).0, s.(pc := Settling(Announced(BudgetExceeded))))
    case Failed(_) =>
      (CallBreaker(cfg, sh, p, Breaker.RecordFailure).0, s.(pc := Searching(p + 1)))
    case Running => (sh, s)
  }

  function OnSearch(cfg: Config, sh: Shared, s: Stream, k: nat): (Shared, Stream)
    requires Matches(cfg, sh)
  {
    if k >= |cfg.names| then (sh, s.(pc := Settling(Announced(AllProvidersExhausted))))
    else
      var (sh', _) := CallBreaker(cfg, sh, k, Breaker.GetState);
      (sh', match sh'.breakers[k].state
            case Closed => s.(pc := Releasing(k, Budget.Start))
            case HalfOpen => s.(pc := Claiming(k))
            case Open => s.(pc := Searching(k + 1)))
  }

  function OnClaim(cfg: Config, sh: Shared, s: Stream, k: nat): (Shared, Stream)
    requires Matches(cfg, sh) && k < |cfg.names|
  {
    var (sh', granted) := CallBreaker(cfg, sh, k, Breaker.TryClaimProbe);
    (sh', if granted then s.(pc := Releasing(k, Budget.Start), claimed := s.claimed + {k})
          else s.(pc := Searching(k + 1)))
  }

  ghost predicate Replaceable(cfg: Config, s: Stream, to: nat) {
    && to < |cfg.names|
    && s.cur.Some? && s.cur.value.provider < |cfg.names| && s.cur.value.outcome.Failed?
  }

  /** The failover and regenerating events; the attempt is now superseded. */
  ghost function Announce(cfg: Config, s: Stream, to: nat): Stream
    requires Replaceable(cfg, s, to)
  {
    var a := s.cur.value;
    s.(pc := Choosing(a.provider + 1, Some(to)), past := s.past + [a], cur := None, failovers := s.failovers + 1,
       wire := s.wire + [Failover(a.outcome.reason, a.tokens, cfg.names[a.provider], cfg.names[to], s.failovers + 1)]
                      + [Regenerating])
  }

  ghost function OnRelease(cfg: Config, sh: Shared, s: Stream, to: nat, c: Budget.Cas): (Shared, Stream)
    requires Replaceable(cfg, s, to)
  {
    var (used, c') := Budget.ReleaseStep(sh.used, s.Tokens(), c);
    (sh.(used := used),
     if c'.Granted? then Announce(cfg, s.(released := s.released + s.Tokens()), to)
     else s.(pc := Releasing(to, c')))
  }

  function OnSettle(cfg: Config, sh: Shared, s: Stream, how: Ending): (Shared, Stream)
    requires s.cur.Some? ==> s.cur.value.provider < |cfg.names|
  {
    var provider := if s.cur.Some? then cfg.names[s.cur.value.provider] else "";
    var bill := Ledger.Terminal(cfg.hash, provider, sh.now, s.Tokens(), how.Announced? || how.truncated);
    (sh.(ledger := sh.ledger + [bill]),
     s.(pc := Finished, settled := s.settled + [bill],
        wire := if how.Announced? then s.wire + [Truncated(how.why, s.total)] else s.wire))
  }

  /** Superseded attempts failed, each on a provider of lower priority than the one before. */
  ghost predicate Ascending(cfg: Config, past: seq<Attempt>, below: nat) {
    && (forall j :: 0 <= j < |past| ==> past[j].provider < below && past[j].provider < |cfg.names|)
    && (forall j, k :: 0 <= j < k < |past| ==> past[j].provider < past[k].provider)
  }

  /** What the program counter says about the current attempt. */
  ghost predicate Shape(cfg: Config, s: Stream) {
    && (s.cur.Some? ==> s.cur.value.provider < |cfg.names| && Ascending(cfg, s.past, s.cur.value.provider))
    && match s.pc
       case Choosing(i, hop) => s.cur.None? && Ascending(cfg, s.past, i) && (hop.None? <==> s.past == [])
       case Reading => s.cur.Some? && s.cur.value.outcome.Running?
       case Reserving(_, c) => s.cur.Some? && s.cur.value.outcome.Running? && !c.Refused?
       case Writing(_, _) => s.cur.Some? && s.cur.value.outcome.Running?
       case Recording => s.cur.Some? && !s.cur.value.outcome.Running?
       case Searching(k) => s.cur.Some? && s.cur.value.outcome.Failed? && s.cur.value.provider < k
       case Claiming(k) => Replaceable(cfg, s, k) && s.cur.value.provider < k
       case Releasing(k, c) => Replaceable(cfg, s, k) && s.cur.value.provider < k && (c.Start? || c.Loaded?)
       case Settling(how) =>
         if s.cur.None? then s.past == [] && how == Announced(AllProvidersExhausted)
         else if how.Announced? then
           (s.cur.value.outcome.OverBudget? && how.why.BudgetExceeded?) || (s.cur.value.outcome.Failed? && how.why.AllProvidersExhausted?)
         else s.cur.value.outcome == if how.truncated then Shutdown else Success
       case Finished => s.cur.None? ==> Ascending(cfg, s.past, |cfg.names|)
  }

  /** One step of a stream. */
  ghost function Next(cfg: Config, sh: Shared, s: Stream, x: Input): (Shared, Stream)
    requires Matches(cfg, sh) && Shape(cfg, s)
  {
    match s.pc
    case Choosing(i, hop) => OnChoose(cfg, sh, s, i, hop)
    case Reading => (sh, OnInput(s, x))
    case Reserving(want, c) => OnReserve(cfg, sh, s, want, c)
    case Writing(text, n) => (sh, OnWrite(s, text, n, x))
    case Recording => OnRecord(cfg, sh, s)
    case Searching(k) => OnSearch(cfg, sh, s, k)
    case Claiming(k) => OnClaim(cfg, sh, s, k)
    case Releasing(to, c) => OnRelease(cfg, sh, s, to, c)
    case Settling(how) => OnSettle(cfg, sh, s, how)
    case Finished => (sh, s)
  }

  lemma InputKeepsShape(cfg: Config, s: Stream, x: Input)
    requires Shape(cfg, s) && s.pc.Reading? && InputOk(x)
    ensures Shape(cfg, OnInput(s, x))
  {
  }

  lemma ReserveKeepsShape(cfg: Config, sh: Shared, s: Stream)
    requires Matches(cfg, sh) && Shape(cfg, s) && s.pc.Reserving?
    ensures var (sh', s') := OnReserve(cfg, sh, s, s.pc.want, s.pc.c); Matches(cfg, sh') && Shape(cfg, s')
  {
  }

  lemma WriteKeepsShape(cfg: Config, s: Stream, x: Input)
    requires Shape(cfg, s) && s.pc.Writing? && InputOk(x)
    ensures Shape(cfg, OnWrite(s, s.pc.text, s.pc.n, x))
  {
  }

  lemma ChooseKeepsShape(cfg: Config, sh: Shared, s: Stream)
    requires Matches(cfg, sh) && Shape(cfg, s) && s.pc.Choosing?
    ensures var (sh', s') := OnChoose(cfg, sh, s, s.pc.i, s.pc.hop); Matches(cfg, sh') && Shape(cfg, s')
  {
  }

  lemma RecordKeepsShape(cfg: Config, sh: Shared, s: Stream)
    requires Matches(cfg, sh) && Shape(cfg, s) && s.pc.Recording?
    ensures var (sh', s') := OnRecord(cfg, sh, s); Matches(cfg, sh') && Shape(cfg, s')
  {
  }

  lemma HopKeepsShape(cfg: Config, sh: Shared, s: Stream)
    requires Matches(cfg, sh) && Shape(cfg, s) && (s.pc.Searching? || s.pc.Claiming?)
    ensures var (sh', s') := Next(cfg, sh, s, Quiet); Matches(cfg, sh') && Shape(cfg, s')
  {
  }

  lemma ReleaseKeepsShape(cfg: Config, sh: Shared, s: Stream)
    requires Matches(cfg, sh) && Shape(cfg, s) && s.pc.Releasing?
    ensures var (sh', s') := OnRelease(cfg, sh, s, s.pc.to, s.pc.c); Matches(cfg, sh') && Shape(cfg, s')
  {
  }

  lemma NextKeepsShape(cfg: Config, sh: Shared, s: Stream, x: Input)
    requires Matches(cfg, sh) && Shape(cfg, s) && InputOk(x)
    ensures var (sh', s') := Next(cfg, sh, s, x); Matches(cfg, sh') && Shape(cfg, s')
  {
    match s.pc
    case Choosing(_, _) => ChooseKeepsShape(cfg, sh, s);
    case Reading => InputKeepsShape(cfg, s, x);
    case Reserving(_, _) => ReserveKeepsShape(cfg, sh, s);
    case Writing(_, _) => WriteKeepsShape(cfg, s, x);
    case Recording => RecordKeepsShape(cfg, sh, s);
    case Searching(_) => HopKeepsShape(cfg, sh, s);
    case Claiming(_) => HopKeepsShape(cfg, sh, s);
    case Releasing(_, _) => ReleaseKeepsShape(cfg, sh, s);
    case _ =>
  }
}
