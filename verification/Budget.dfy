/** The token budget of one API key: `TokensUsed` is a 64-bit cell that every request changes with
    load / compare-and-swap loops, while a resetter may store zero at any moment. */
module Budget {

  const MAX_INT64: int := 0x7fff_ffff_ffff_ffff
  const TWO_63: int := 0x8000_0000_0000_0000
  const TWO_64: int := 0x1_0000_0000_0000_0000

  /** 64-bit two's-complement wrap-around. */
  function Wrap64(x: int): (r: int)
    ensures -TWO_63 <= r <= MAX_INT64
    ensures -TWO_63 <= x <= MAX_INT64 ==> r == x
    ensures MAX_INT64 < x <= 2 * MAX_INT64 ==> r < 0
    ensures (x - r) % TWO_64 == 0
  {
    (x + TWO_63) % TWO_64 - TWO_63
  }

  /** Progress of one `TryReserve` or `Release` call: before its next load, between a load and its
      compare-and-swap, or returned. */
  datatype Cas = Start | Loaded(seen: int) | Granted | Refused

  /** One atomic micro-step of `TryReserve(n)`. */
  function ReserveStep(budget: int, used: int, n: int, c: Cas): (int, Cas)
  {
    match c
    case Start =>
      if n < 0 || Wrap64(used + n) > budget then (used, Refused) else (used, Loaded(used))
    case Loaded(v) =>
      if used == v then (Wrap64(v + n), Granted) else (used, Start)
    case _ => (used, c)
  }

  /** One atomic micro-step of `Release(n)`. */
  function ReleaseStep(used: int, n: int, c: Cas): (int, Cas)
  {
    match c
    case Start =>
      if n <= 0 then (used, Granted) else (used, Loaded(used))
    case Loaded(v) =>
      if used == v then (if Wrap64(v - n) < 0 then 0 else Wrap64(v - n), Granted) else (used, Start)
    case _ => (used, c)
  }

  ghost predicate InBounds(budget: int, used: int) {
    0 <= used <= budget <= MAX_INT64
  }

  /** Amounts that cannot overflow the cell, whatever it holds. */
  ghost predicate Sound(budget: int, n: int) {
    n <= MAX_INT64 - budget
  }

  /** What a loaded reservation has checked. */
  ghost predicate Checked(budget: int, n: int, c: Cas) {
    c.Loaded? && InBounds(budget, c.seen) ==> 0 <= n <= budget - c.seen
  }

  lemma ReserveStepSound(budget: int, used: int, n: int, c: Cas)
    requires InBounds(budget, used) && Checked(budget, n, c) && (c.Start? ==> used + n <= MAX_INT64)
    ensures var (used', c') := ReserveStep(budget, used, n, c);
      && InBounds(budget, used') && Checked(budget, n, c')
      && used' == (if c'.Granted? && !c.Granted? then used + n else used)
      && (c'.Granted? ==> c.Granted? || n >= 0)
      && (c'.Refused? <==> c.Refused? || (c.Start? && (n < 0 || used + n > budget)))
      && (c'.Granted? <==> c.Granted? || c == Loaded(used))
  {
  }

  lemma ReleaseStepSound(budget: int, used: int, n: int, c: Cas)
    requires InBounds(budget, used) && n <= MAX_INT64 && (c.Loaded? ==> n > 0)
    ensures var (used', c') := ReleaseStep(used, n, c);
      && InBounds(budget, used') && (c'.Loaded? ==> n > 0)
      && used' == (if c'.Granted? && c.Loaded? then (if n <= used then used - n else 0) else used)
      && (c'.Granted? && c.Start? ==> n <= 0)
      && (c'.Granted? <==> c.Granted? || c == Loaded(used) || (c.Start? && n <= 0))
      && (c'.Refused? <==> c.Refused?)
  {
  }

  // ---- Any number of callers on one key, with period resets ----

  datatype Op =
    | Idle
    | Reserving(n: int, c: Cas)
    | Releasing(n: int, c: Cas)

  datatype Key = Key(used: int, ops: seq<Op>)

  datatype Move =
    | Call(id: nat, op: Op)
    | Step(who: nat)
    | Reset

  /** A new call may start whenever the caller's previous one has returned. */
  predicate Fresh(op: Op) {
    !op.Idle? && op.c.Start?
  }

  predicate Returned(op: Op) {
    op.Idle? || op.c.Granted? || op.c.Refused?
  }

  function Act(budget: int, k: Key, m: Move): Key
  {
    match m
    case Reset => k.(used := 0)
    case Call(id, op) =>
      if id < |k.ops| && Returned(k.ops[id]) && Fresh(op) then k.(ops := k.ops[id := op]) else k
    case Step(id) =>
      if id >= |k.ops| then k
      else
        match k.ops[id]
        case Idle => k
        case Reserving(n, c) =>
          var (used, c') := ReserveStep(budget, k.used, n, c);
          Key(used, k.ops[id := Reserving(n, c')])
        case Releasing(n, c) =>
          var (used, c') := ReleaseStep(k.used, n, c);
          Key(used, k.ops[id := Releasing(n, c')])
  }

  function Play(budget: int, k: Key, ms: seq<Move>): Key
  {
    if ms == [] then k else Act(budget, Play(budget, k, ms[..|ms| - 1]), ms[|ms| - 1])
  }

  ghost predicate OpInv(budget: int, op: Op) {
    match op
    case Idle => true
    case Reserving(n, c) => Sound(budget, n) && Checked(budget, n, c)
    case Releasing(n, c) => n <= MAX_INT64 && (c.Loaded? ==> n > 0)
  }

  ghost predicate KeyInv(budget: int, k: Key) {
    InBounds(budget, k.used) && forall i :: 0 <= i < |k.ops| ==> OpInv(budget, k.ops[i])
  }

  lemma ActKeepsKeyInv(budget: int, k: Key, m: Move)
    requires KeyInv(budget, k) && (m.Call? ==> OpInv(budget, m.op))
    ensures KeyInv(budget, Act(budget, k, m))
  {
    if m.Step? && m.who < |k.ops| {
      match k.ops[m.who]
      case Idle =>
      case Reserving(n, c) => ReserveStepSound(budget, k.used, n, c);
      case Releasing(n, c) => ReleaseStepSound(budget, k.used, n, c);
    }
  }

  /** Under every interleaving of the micro-steps of `TryReserve` and `Release` with resets, even
      one that lands between a load and its compare-and-swap, usage stays within the budget. */
  lemma {:induction false} UsageStaysInBounds(budget: int, callers: nat, ms: seq<Move>)
    requires 0 <= budget <= MAX_INT64
    requires forall i :: 0 <= i < |ms| && ms[i].Call? && ms[i].op.Reserving? ==> Sound(budget, ms[i].op.n)
    requires forall i :: 0 <= i < |ms| && ms[i].Call? && ms[i].op.Releasing? ==> ms[i].op.n <= MAX_INT64
    ensures KeyInv(budget, Play(budget, Key(0, seq(callers, _ => Idle)), ms))
  {
    if ms != [] {
      var k := Play(budget, Key(0, seq(callers, _ => Idle)), ms[..|ms| - 1]);
      var m := ms[|ms| - 1];
      UsageStaysInBounds(budget, callers, ms[..|ms| - 1]);
      if m.Call? && !Fresh(m.op) {
      } else {
        ActKeepsKeyInv(budget, k, m);
      }
    }
  }

  /** Grants `n` in one undisturbed `TryReserve` call. */
  function ReserveAlone(budget: int, used: int, n: int): (int, Cas) {
    var (u, c) := ReserveStep(budget, used, n, Start);
    ReserveStep(budget, u, n, c)
  }

  /** `Sound` is the exact condition: a 64-bit amount is harmless at every usage level if and only
      if it is at most `MAX_INT64 - budget`; above it, a full key grants the request and its usage
      turns negative. */
  lemma SoundIsExact(budget: int, n: int)
    requires 0 <= budget <= MAX_INT64 && 0 <= n <= MAX_INT64
    ensures Sound(budget, n) <==>
      forall used :: InBounds(budget, used) ==> InBounds(budget, ReserveAlone(budget, used, n).0)
    ensures !Sound(budget, n) ==> ReserveAlone(budget, budget, n).1.Granted? && ReserveAlone(budget, budget, n).0 < 0
  {
    if !Sound(budget, n) {
      assert InBounds(budget, budget) && !InBounds(budget, ReserveAlone(budget, budget, n).0);
    }
  }
}
