/** The failover hop.  Between the search for the next provider and its admission the handler only
    looks at the breakers; if nothing else runs in that window and the clock stands still, what was
    announced is what happens. */
module Hop {
  import opened Protocol
  import opened Gateway
  import opened Accounting
  import opened System
  import Breaker
  import Providers

  /** The stream is between the failure of one attempt and the admission of the next. */
  predicate MidHop(s: Stream) {
    s.pc.Searching? || s.pc.Claiming? || s.pc.Releasing? || (s.pc.Choosing? && s.pc.hop.Some?)
  }

  /** No other stream, other key, clock tick or reset acts while a stream is in its hop. */
  ghost predicate Atomic(cfg: Config, t0: int, ls: seq<Label>)
    requires cfg.Valid()
  {
    ls == [] || (Atomic(cfg, t0, ls[..|ls| - 1]) && Respects(Exec(cfg, t0, ls[..|ls| - 1]), ls[|ls| - 1]))
  }

  ghost predicate Respects(y: Sys, l: Label) {
    forall i :: 0 <= i < |y.streams| && MidHop(y.streams[i]) ==> l.Run? && l.id == i
  }

  // ---- What the breakers will answer during the hop ----

  ghost predicate Denies(cfg: Config, sh: Shared, p: nat)
    requires Matches(cfg, sh) && p < |cfg.names|
  {
    !Breaker.Apply(cfg.breakers[p], sh.breakers[p], Breaker.AllowAttempt, sh.now).granted
  }

  ghost predicate AllDeny(cfg: Config, sh: Shared, lo: int, hi: int)
    requires Matches(cfg, sh) && 0 <= lo && hi <= |cfg.names|
  {
    forall p :: lo <= p < hi ==> Denies(cfg, sh, p)
  }

  ghost predicate Ready(cfg: Config, sh: Shared, s: Stream, j: nat)
    requires Matches(cfg, sh) && j < |cfg.names|
  {
    s.claimed == {j} || (s.claimed == {} && sh.breakers[j].state.Closed?)
  }

  ghost predicate HopInv(cfg: Config, sh: Shared, s: Stream)
    requires Matches(cfg, sh) && Shape(cfg, s)
  {
    match s.pc
    case Searching(k) =>
      s.claimed == {} && k <= |cfg.names| && AllDeny(cfg, sh, s.cur.value.provider + 1, k)
    case Claiming(k) =>
      s.claimed == {} && AllDeny(cfg, sh, s.cur.value.provider + 1, k) && sh.breakers[k].state.HalfOpen?
    case Releasing(j, _) =>
      AllDeny(cfg, sh, s.cur.value.provider + 1, j) && Ready(cfg, sh, s, j)
    case Choosing(x, Some(j)) =>
      x <= j < |cfg.names| && AllDeny(cfg, sh, x, j) && Ready(cfg, sh, s, j)
    case _ => s.claimed == {} && (s.pc.Finished? ==> s.cur.Some? || s.past == [])
  }

  lemma SearchKeepsHop(cfg: Config, sh: Shared, s: Stream)
    requires Matches(cfg, sh) && Shape(cfg, s) && HopInv(cfg, sh, s) && (s.pc.Searching? || s.pc.Claiming?)
    ensures var (sh', s') := Next(cfg, sh, s, Quiet);
      Matches(cfg, sh') && Shape(cfg, s') && HopInv(cfg, sh', s')
  {
    HopKeepsShape(cfg, sh, s);
    var (sh', s') := Next(cfg, sh, s, Quiet);
    var k := s.pc.k;
    var lo := s.cur.value.provider + 1;
    if k < |cfg.names| {
      forall p | lo <= p < k
        ensures Denies(cfg, sh', p)
      {
        assert Denies(cfg, sh, p) && sh'.breakers[p] == sh.breakers[p];
      }
      if s'.pc.Searching? {
        assert Denies(cfg, sh', k);
      }
    }
  }

  lemma ReleaseKeepsHop(cfg: Config, sh: Shared, s: Stream)
    requires Matches(cfg, sh) && Shape(cfg, s) && HopInv(cfg, sh, s) && s.pc.Releasing?
    ensures var (sh', s') := OnRelease(cfg, sh, s, s.pc.to, s.pc.c);
      Matches(cfg, sh') && Shape(cfg, s') && HopInv(cfg, sh', s')
  {
    ReleaseKeepsShape(cfg, sh, s);
    var (sh', s') := OnRelease(cfg, sh, s, s.pc.to, s.pc.c);
    forall p | s.cur.value.provider + 1 <= p < s.pc.to
      ensures Denies(cfg, sh', p)
    {
      assert Denies(cfg, sh, p);
    }
  }

  lemma ChooseKeepsHop(cfg: Config, sh: Shared, s: Stream)
    requires Matches(cfg, sh) && Shape(cfg, s) && HopInv(cfg, sh, s) && s.pc.Choosing?
    ensures var (sh', s') := OnChoose(cfg, sh, s, s.pc.i, s.pc.hop);
      Matches(cfg, sh') && Shape(cfg, s') && HopInv(cfg, sh', s')
      && (s.pc.hop.Some? && s'.cur.Some? ==> s'.cur.value.provider == s.pc.hop.value)
  {
    ChooseKeepsShape(cfg, sh, s);
    var (sh', s') := OnChoose(cfg, sh, s, s.pc.i, s.pc.hop);
    if s.pc.hop.Some? {
      var x, j := s.pc.i, s.pc.hop.value;
      if x < j {
        assert Denies(cfg, sh, x);
        forall p | x + 1 <= p < j
          ensures Denies(cfg, sh', p)
        {
          assert Denies(cfg, sh, p);
        }
      }
    }
  }

  lemma NextKeepsHop(cfg: Config, sh: Shared, s: Stream, x: Input)
    requires Matches(cfg, sh) && Shape(cfg, s) && HopInv(cfg, sh, s) && InputOk(x)
    ensures var (sh', s') := Next(cfg, sh, s, x);
      Matches(cfg, sh') && Shape(cfg, s') && HopInv(cfg, sh', s')
  {
    NextKeepsShape(cfg, sh, s, x);
    match s.pc
    case Choosing(_, _) => ChooseKeepsHop(cfg, sh, s);
    case Searching(_) => SearchKeepsHop(cfg, sh, s);
    case Claiming(_) => SearchKeepsHop(cfg, sh, s);
    case Releasing(_, _) => ReleaseKeepsHop(cfg, sh, s);
    case _ =>
  }

  // ---- Each announcement names the provider attempted next ----

  function Ids(attempts: seq<Attempt>): seq<nat> {
    seq(|attempts|, i requires 0 <= i < |attempts| => attempts[i].provider)
  }

  /** The providers attempted so far, and the one announced if a hop is under way. */
  function Order(s: Stream): seq<nat> {
    Ids(s.Attempts()) + (if s.pc.Choosing? && s.pc.hop.Some? then [s.pc.hop.value] else [])
  }

  /** The failover events of `w` are exactly the moves along `ps`, one for each. */
  predicate Announced(cfg: Config, w: seq<Event>, ps: seq<nat>) {
    if w == [] then |ps| <= 1
    else
      var last := w[|w| - 1];
      if !last.Failover? then Announced(cfg, w[..|w| - 1], ps)
      else
        && |ps| >= 2 && ps[|ps| - 1] < |cfg.names| && ps[|ps| - 2] < |cfg.names|
        && last.from == cfg.names[ps[|ps| - 2]] && last.to == cfg.names[ps[|ps| - 1]]
        && Announced(cfg, w[..|w| - 1], ps[..|ps| - 1])
  }

  lemma AnnouncedAppend(cfg: Config, w: seq<Event>, ps: seq<nat>, e: Event)
    requires Announced(cfg, w, ps) && !e.Failover?
    ensures Announced(cfg, w + [e], ps)
  {
    assert (w + [e])[..|w|] == w;
  }

  lemma ChooseKeepsAnnounced(cfg: Config, sh: Shared, s: Stream)
    requires Matches(cfg, sh) && Inv(cfg, s) && HopInv(cfg, sh, s) && s.pc.Choosing?
    requires Announced(cfg, s.wire, Order(s))
    ensures var s' := OnChoose(cfg, sh, s, s.pc.i, s.pc.hop).1; Announced(cfg, s'.wire, Order(s'))
  {
    hide Log, Money, Failovers, FailoverTokens, OpenWire, Announced, Closed;
    ChooseKeepsHop(cfg, sh, s);
    var s' := OnChoose(cfg, sh, s, s.pc.i, s.pc.hop).1;
    if s'.pc.Reading? {
      if s.pc.hop.Some? {
        assert Order(s') == Order(s);
      } else {
        assert s'.wire == [] + [Status(cfg.names[s.pc.i])] && |Order(s')| == 1;
        AnnouncedAppend(cfg, [], Order(s'), Status(cfg.names[s.pc.i]));
      }
    } else {
      assert Order(s') == Order(s);
    }
  }

  lemma AnnounceKeepsAnnounced(cfg: Config, s: Stream, to: nat, s': Stream)
    requires Replaceable(cfg, s, to) && s.pc.Releasing? && s' == Announce(cfg, s, to)
    requires Announced(cfg, s.wire, Order(s))
    ensures Announced(cfg, s'.wire, Order(s'))
  {
    assert Order(s') == Order(s) + [to];
    var w := s'.wire[..|s'.wire| - 1];
    assert w[..|w| - 1] == s.wire && Order(s')[..|Order(s)|] == Order(s);
    assert Order(s)[|Order(s)| - 1] == s.cur.value.provider;
    AnnouncedAppend(cfg, w, Order(s'), Regenerating);
    assert s'.wire == w + [Regenerating];
  }

  lemma ReleaseKeepsAnnounced(cfg: Config, sh: Shared, s: Stream)
    requires Shape(cfg, s) && s.pc.Releasing? && Announced(cfg, s.wire, Order(s))
    ensures var s' := OnRelease(cfg, sh, s, s.pc.to, s.pc.c).1; Announced(cfg, s'.wire, Order(s'))
  {
    hide Announced;
    var s' := OnRelease(cfg, sh, s, s.pc.to, s.pc.c).1;
    var r := s.(released := s.released + s.Tokens());
    assert Order(r) == Order(s);
    AnnounceKeepsAnnounced(cfg, r, s.pc.to, Announce(cfg, r, s.pc.to));
    if s'.pc.Releasing? { assert Order(s') == Order(s); }
  }

  /** Steps that neither write to the client nor change the order of providers. */
  lemma QuietKeepsOrder(cfg: Config, sh: Shared, s: Stream, x: Input)
    requires Matches(cfg, sh) && Shape(cfg, s)
    requires s.pc.Reading? || s.pc.Reserving? || s.pc.Recording? || s.pc.Searching? || s.pc.Claiming? || s.pc.Finished?
    ensures var s' := Next(cfg, sh, s, x).1; s'.wire == s.wire && Order(s') == Order(s)
  {
    var s' := Next(cfg, sh, s, x).1;
    assert s'.past == s.past && (s.cur.Some? <==> s'.cur.Some?) && !s'.pc.Choosing?;
    assert s.cur.Some? ==> s'.cur.value.provider == s.cur.value.provider;
  }

  lemma WriteKeepsAnnounced(cfg: Config, s: Stream, x: Input)
    requires Shape(cfg, s) && s.pc.Writing? && Announced(cfg, s.wire, Order(s))
    ensures var s' := OnWrite(s, s.pc.text, s.pc.n, x); Announced(cfg, s'.wire, Order(s'))
  {
    hide Announced;
    AnnouncedAppend(cfg, s.wire, Order(s), Content(s.pc.text));
    assert Order(OnWrite(s, s.pc.text, s.pc.n, x)) == Order(s);
  }

  lemma SettleKeepsAnnounced(cfg: Config, sh: Shared, s: Stream)
    requires Shape(cfg, s) && s.pc.Settling? && Announced(cfg, s.wire, Order(s))
    ensures var s' := OnSettle(cfg, sh, s, s.pc.how).1; Announced(cfg, s'.wire, Order(s'))
  {
    hide Announced;
    if s.pc.how.Announced? {
      AnnouncedAppend(cfg, s.wire, Order(s), Truncated(s.pc.how.why, s.total));
    }
    assert Order(OnSettle(cfg, sh, s, s.pc.how).1) == Order(s);
  }

  lemma NextKeepsAnnounced(cfg: Config, sh: Shared, s: Stream, x: Input)
    requires Matches(cfg, sh) && Inv(cfg, s) && HopInv(cfg, sh, s)
    requires Announced(cfg, s.wire, Order(s))
    ensures var s' := Next(cfg, sh, s, x).1; Announced(cfg, s'.wire, Order(s'))
  {
    hide Inv, Announced, Order, OnRelease, OnSettle, OnChoose, OnWrite, HopInv;
    InvShape(cfg, s);
    match s.pc
    case Choosing(_, _) => ChooseKeepsAnnounced(cfg, sh, s);
    case Writing(_, _) => WriteKeepsAnnounced(cfg, s, x);
    case Releasing(_, _) => ReleaseKeepsAnnounced(cfg, sh, s);
    case Settling(_) => SettleKeepsAnnounced(cfg, sh, s);
    case _ => QuietKeepsOrder(cfg, sh, s, x);
  }

  // ---- Whole runs ----

  ghost predicate HopOk(cfg: Config, sh: Shared, s: Stream)
    requires Matches(cfg, sh) && Inv(cfg, s)
  {
    HopInv(cfg, sh, s) && Announced(cfg, s.wire, Order(s))
  }

  ghost predicate AllHopOk(cfg: Config, y: Sys)
    requires WF(cfg, y)
  {
    && (forall i :: 0 <= i < |y.streams| ==> HopOk(cfg, y.sh, y.streams[i]))
    && (forall i, j :: 0 <= i < |y.streams| && 0 <= j < |y.streams| && MidHop(y.streams[i]) && MidHop(y.streams[j]) ==> i == j)
  }

  /** Outside its hop a stream's invariant does not look at the shared state. */
  lemma HopOkElsewhere(cfg: Config, sh: Shared, sh': Shared, s: Stream)
    requires Matches(cfg, sh) && Matches(cfg, sh') && Inv(cfg, s) && HopOk(cfg, sh, s) && !MidHop(s)
    ensures HopOk(cfg, sh', s)
  {
  }

  lemma RunKeepsHopOk(cfg: Config, y: Sys, id: nat, x: Input)
    requires WF(cfg, y) && AllHopOk(cfg, y) && Respects(y, Run(id, x))
    requires id < |y.streams| && StepOk(y.sh, y.streams[id], x)
    ensures var z := Step(cfg, y, Run(id, x)); WF(cfg, z) && AllHopOk(cfg, z)
  {
    hide HopInv, Inv, Announced, Order, Next;
    StepKeepsWF(cfg, y, Run(id, x));
    StepPosts(cfg, y, id, x);
    var z := Step(cfg, y, Run(id, x));
    var s := y.streams[id];
    InvShape(cfg, s);
    NextKeepsHop(cfg, y.sh, s, x);
    NextKeepsAnnounced(cfg, y.sh, s, x);
    forall i | 0 <= i < |z.streams|
      ensures HopOk(cfg, z.sh, z.streams[i])
    {
      if i != id {
        HopOkElsewhere(cfg, y.sh, z.sh, y.streams[i]);
      }
    }
  }

  lemma StepKeepsHopOk(cfg: Config, y: Sys, l: Label)
    requires WF(cfg, y) && AllHopOk(cfg, y) && Respects(y, l)
    ensures var z := Step(cfg, y, l); WF(cfg, z) && AllHopOk(cfg, z)
  {
    hide Inv, Next;
    if l.Run? {
      if l.id < |y.streams| && StepOk(y.sh, y.streams[l.id], l.x) {
        RunKeepsHopOk(cfg, y, l.id, l.x);
      }
    } else {
      StepKeepsWF(cfg, y, l);
      var z := Step(cfg, y, l);
      forall i | 0 <= i < |y.streams|
        ensures HopOk(cfg, z.sh, y.streams[i])
      {
        HopOkElsewhere(cfg, y.sh, z.sh, y.streams[i]);
      }
    }
  }

  lemma {:induction false} AtomicRunsKeepHopOk(cfg: Config, t0: int, ls: seq<Label>)
    requires cfg.Valid() && Atomic(cfg, t0, ls)
    ensures AllHopOk(cfg, Exec(cfg, t0, ls))
  {
    hide HopOk, Inv, Step;
    if ls != [] {
      var n := |ls| - 1;
      AtomicRunsKeepHopOk(cfg, t0, ls[..n]);
      StepKeepsHopOk(cfg, Exec(cfg, t0, ls[..n]), ls[n]);
    }
  }

  /** With atomic hops the search settles on the first provider that can be attempted, and gives up
      only when the breaker of every remaining provider would refuse. */
  lemma HopPicksFirst(cfg: Config, t0: int, ls: seq<Label>, id: nat, x: Input)
    requires cfg.Valid() && Atomic(cfg, t0, ls) && id < |Exec(cfg, t0, ls).streams|
    requires var s := Exec(cfg, t0, ls).streams[id]; InputOk(x) && (s.pc.Searching? || s.pc.Claiming?)
    ensures var y := Exec(cfg, t0, ls); var z := Step(cfg, y, Run(id, x)); var s := z.streams[id];
      && s.cur.Some? && Matches(cfg, z.sh) && s.cur == y.streams[id].cur
      && (s.pc.Releasing? ==>
          && s.pc.to < |cfg.names|
          && AllDeny(cfg, z.sh, s.cur.value.provider + 1, s.pc.to)
          && Ready(cfg, z.sh, s, s.pc.to))
      && (s.pc.Settling? ==> AllDeny(cfg, z.sh, s.cur.value.provider + 1, |cfg.names|))
  {
    hide Inv, Announced, Order, Exec;
    AtomicRunsKeepHopOk(cfg, t0, ls);
    var y := Exec(cfg, t0, ls);
    assert HopOk(cfg, y.sh, y.streams[id]);
    InvShape(cfg, y.streams[id]);
    SearchKeepsHop(cfg, y.sh, y.streams[id]);
  }

  /** With atomic hops every failover event names exactly the provider attempted before and after
      it; at most one claimed probe is ever held, for the provider announced, and none outside the
      hop; failovers are the attempts minus one; the attempted providers strictly descend in
      priority; and every run settles exactly once unless the client cancelled it. */
  lemma AnnouncedProviderIsAttempted(cfg: Config, t0: int, ls: seq<Label>, i: nat)
    requires cfg.Valid() && Atomic(cfg, t0, ls) && i < |Exec(cfg, t0, ls).streams|
    ensures var s := Exec(cfg, t0, ls).streams[i];
      && Announced(cfg, s.wire, Order(s))
      && (s.claimed == {} || (s.pc.Releasing? && s.claimed == {s.pc.to})
                          || (s.pc.Choosing? && s.pc.hop.Some? && s.claimed == {s.pc.hop.value}))
      && (forall j, k :: 0 <= j < k < |s.Attempts()| ==> s.Attempts()[j].provider < s.Attempts()[k].provider)
      && (s.pc.Finished? ==>
          && s.claimed == {}
          && s.failovers == (if s.Attempts() == [] then 0 else |s.Attempts()| - 1)
          && |s.settled| == (if s.cur.Some? && s.cur.value.outcome.Cancelled? then 0 else 1))
  {
    hide Log, Money, Failovers, FailoverTokens, OpenWire, Announced;
    AtomicRunsKeepHopOk(cfg, t0, ls);
    var y := Exec(cfg, t0, ls);
    assert HopOk(cfg, y.sh, y.streams[i]) && Inv(cfg, y.streams[i]);
  }

  /** With the configuration's selection as the provider list, the cascade goes strictly down the
      configured priorities. */
  lemma AttemptsFollowPriority(cfg: Config, t0: int, ls: seq<Label>, i: nat,
                               configured: seq<Providers.Provider>, allow: seq<string>)
    requires cfg.Valid() && i < |Exec(cfg, t0, ls).streams|
    requires Providers.ByPriority(configured) && Providers.Distinct(configured)
    requires forall j :: 0 <= j < |configured| ==> configured[j].name != ""
    requires var out := Providers.Selected(configured, allow);
      |cfg.names| == |out| && forall j :: 0 <= j < |out| ==> cfg.names[j] == out[j].name
    ensures var out := Providers.Selected(configured, allow);
      var attempts := Exec(cfg, t0, ls).streams[i].Attempts();
      forall j, k :: 0 <= j < k < |attempts| ==>
        && attempts[j].provider < |out| && attempts[k].provider < |out|
        && out[attempts[j].provider].priority < out[attempts[k].provider].priority
        && cfg.names[attempts[j].provider] != cfg.names[attempts[k].provider]
  {
    Providers.SelectionIsOrdered(configured, allow);
    var s := Exec(cfg, t0, ls).streams[i];
    InvShape(cfg, s);
    hide Inv;
    assert s.cur.Some? ==> s.Attempts()[|s.past|] == s.cur.value;
    assert forall j :: 0 <= j < |s.past| ==> s.Attempts()[j] == s.past[j];
  }
}
