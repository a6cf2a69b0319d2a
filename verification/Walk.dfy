/** What becomes of a stream between two attempts, however disturbed the run was before: which provider
    it attempts next, and exactly when it finds none. */
module Walk {
  import opened Options
  import opened Protocol
  import opened Gateway
  import opened Accounting
  import opened System
  import Hop

  /** Provider `p` would turn the stream away: it holds no claim on it and the breaker would refuse. */
  ghost predicate Refused(cfg: Config, sh: Shared, s: Stream, p: nat)
    requires Matches(cfg, sh) && p < |cfg.names|
  {
    p !in s.claimed && Hop.Denies(cfg, sh, p)
  }

  ghost predicate AllRefused(cfg: Config, sh: Shared, s: Stream, x: nat)
    requires Matches(cfg, sh)
  {
    forall p :: x <= p < |cfg.names| ==> Refused(cfg, sh, s, p)
  }

  /** `p` is the first provider from `x` on that would not. */
  ghost predicate FirstAdmitting(cfg: Config, sh: Shared, s: Stream, x: nat, p: int)
    requires Matches(cfg, sh)
  {
    && x <= p < |cfg.names| && !Refused(cfg, sh, s, p)
    && forall q :: x <= q < p ==> Refused(cfg, sh, s, q)
  }

  lemma {:induction false} FirstOrNone(cfg: Config, sh: Shared, s: Stream, x: nat)
    requires Matches(cfg, sh)
    ensures AllRefused(cfg, sh, s, x) <==> !exists p :: FirstAdmitting(cfg, sh, s, x, p)
    decreases |cfg.names| - x
  {
    hide Refused;
    if x < |cfg.names| {
      if !Refused(cfg, sh, s, x) {
        assert FirstAdmitting(cfg, sh, s, x, x);
      } else {
        FirstOrNone(cfg, sh, s, x + 1);
        if !AllRefused(cfg, sh, s, x + 1) {
          var p :| FirstAdmitting(cfg, sh, s, x + 1, p);
          assert FirstAdmitting(cfg, sh, s, x, p);
        }
      }
    }
  }

  // ---- The walk ----

  /** `k` steps of one stream, nobody else acting. */
  function Alone(id: nat, k: nat): seq<Label> {
    seq(k, _ => Run(id, Quiet))
  }

  lemma AloneMore(ls: seq<Label>, id: nat, k: nat)
    ensures ls + Alone(id, k + 1) == ls + [Run(id, Quiet)] + Alone(id, k)
    ensures ls + Alone(id, 0) == ls
  {
  }

  /** A stream that has finished, or waits for its provider, stays where it is. */
  lemma {:induction false} StandsStill(cfg: Config, t0: int, ls: seq<Label>, id: nat, k: nat)
    requires cfg.Valid() && id < |Exec(cfg, t0, ls).streams|
    requires var s := Exec(cfg, t0, ls).streams[id]; s.pc.Finished? || s.pc.Reading?
    ensures var z := Exec(cfg, t0, ls + Alone(id, k));
      id < |z.streams| && z.streams[id] == Exec(cfg, t0, ls).streams[id]
    decreases k
  {
    hide Inv, Exec;
    if k == 0 {
      AloneMore(ls, id, 0);
    } else {
      AloneMore(ls, id, k - 1);
      RunOne(cfg, t0, ls, id, Quiet);
      StandsStill(cfg, t0, ls + [Run(id, Quiet)], id, k - 1);
    }
  }

  /** How the walk of `s` ends, given the shared state it starts in. */
  ghost predicate Ends(cfg: Config, sh: Shared, s: Stream, z: Stream)
    requires Matches(cfg, sh) && s.pc.Choosing?
  {
    && z.past == s.past
    && (AllRefused(cfg, sh, s, s.pc.i) ==>
        && z.pc.Finished? && z.cur.None?
        && if s.Started() then z.wire == s.wire && z.settled == s.settled
           else z.wire == s.wire + [Truncated(AllProvidersExhausted, s.total)] && |z.settled| == |s.settled| + 1)
    && forall p :: FirstAdmitting(cfg, sh, s, s.pc.i, p) ==>
       && z.pc.Reading? && z.cur == Some(Attempt(p, [], 0, Running, 0)) && z.settled == s.settled
       && z.wire == if s.Started() then s.wire else s.wire + [Status(cfg.names[p])]
  }

  lemma OnlyFirst(cfg: Config, sh: Shared, s: Stream, x: nat)
    requires Matches(cfg, sh) && x < |cfg.names| && !Refused(cfg, sh, s, x)
    ensures forall p :: FirstAdmitting(cfg, sh, s, x, p) ==> p == x
  {
  }

  lemma EndsAfterAdmission(cfg: Config, sh: Shared, s: Stream)
    requires Matches(cfg, sh) && Shape(cfg, s) && s.pc.Choosing? && s.pc.i < |cfg.names|
    requires !Refused(cfg, sh, s, s.pc.i)
    ensures var z := OnChoose(cfg, sh, s, s.pc.i, s.pc.hop).1; z.pc.Reading? && Ends(cfg, sh, s, z)
  {
    OnlyFirst(cfg, sh, s, s.pc.i);
  }

  /** Being turned away changes nothing for the providers after it. */
  lemma EndsAfterRefusal(cfg: Config, sh: Shared, s: Stream, z: Stream)
    requires Matches(cfg, sh) && Shape(cfg, s) && s.pc.Choosing? && s.pc.i < |cfg.names|
    requires Refused(cfg, sh, s, s.pc.i)
    ensures var n := OnChoose(cfg, sh, s, s.pc.i, s.pc.hop);
      && Matches(cfg, n.0) && n.1 == s.(pc := Choosing(s.pc.i + 1, s.pc.hop))
      && (Ends(cfg, n.0, n.1, z) ==> Ends(cfg, sh, s, z))
  {
    var n := OnChoose(cfg, sh, s, s.pc.i, s.pc.hop);
    forall p | s.pc.i < p < |cfg.names|
      ensures Refused(cfg, n.0, n.1, p) <==> Refused(cfg, sh, s, p)
    {
      assert n.0.breakers[p] == sh.breakers[p];
    }
    hide Refused, CallBreaker;
    forall p | FirstAdmitting(cfg, sh, s, s.pc.i, p)
      ensures FirstAdmitting(cfg, n.0, n.1, s.pc.i + 1, p)
    {
    }
  }

  /** The walk, in any run: enough steps of the stream alone take it to its next attempt, or to its end. */
  lemma {:induction false} WalkEnds(cfg: Config, t0: int, ls: seq<Label>, id: nat, k: nat)
    requires cfg.Valid() && id < |Exec(cfg, t0, ls).streams| && k >= 2
    requires var s := Exec(cfg, t0, ls).streams[id]; s.pc.Choosing? && s.pc.i + k >= |cfg.names| + 2
    ensures var y := Exec(cfg, t0, ls); var z := Exec(cfg, t0, ls + Alone(id, k));
      id < |z.streams| && Ends(cfg, y.sh, y.streams[id], z.streams[id])
    decreases k
  {
    hide Inv, Exec, Ends, Refused, OnChoose;
    var y := Exec(cfg, t0, ls);
    var s := y.streams[id];
    var next := ls + [Run(id, Quiet)];
    AloneMore(ls, id, k - 1);
    RunOne(cfg, t0, ls, id, Quiet);
    if s.pc.i >= |cfg.names| {
      WalkOver(cfg, t0, ls, id, k);
    } else if Refused(cfg, y.sh, s, s.pc.i) {
      EndsAfterRefusal(cfg, y.sh, s, s);
      WalkEnds(cfg, t0, next, id, k - 1);
      EndsAfterRefusal(cfg, y.sh, s, Exec(cfg, t0, next + Alone(id, k - 1)).streams[id]);
    } else {
      EndsAfterAdmission(cfg, y.sh, s);
      StandsStill(cfg, t0, next, id, k - 1);
    }
  }

  /** Past the last provider. */
  lemma WalkOver(cfg: Config, t0: int, ls: seq<Label>, id: nat, k: nat)
    requires cfg.Valid() && id < |Exec(cfg, t0, ls).streams| && k >= 2
    requires var s := Exec(cfg, t0, ls).streams[id]; s.pc.Choosing? && s.pc.i >= |cfg.names|
    ensures var y := Exec(cfg, t0, ls); var z := Exec(cfg, t0, ls + Alone(id, k));
      id < |z.streams| && Ends(cfg, y.sh, y.streams[id], z.streams[id])
  {
    hide Inv, Exec;
    var next := ls + [Run(id, Quiet)];
    AloneMore(ls, id, k - 1);
    RunOne(cfg, t0, ls, id, Quiet);
    if Exec(cfg, t0, next).streams[id].pc.Finished? {
      StandsStill(cfg, t0, next, id, k - 1);
    } else {
      AloneMore(next, id, k - 2);
      RunOne(cfg, t0, next, id, Quiet);
      StandsStill(cfg, t0, next + [Run(id, Quiet)], id, k - 2);
    }
  }

  // ---- What it means ----

  lemma UntilNow(cfg: Config, s: Stream)
    requires Inv(cfg, s) && s.pc.Choosing?
    ensures s.cur.None? && s.settled == [] && (s.past == [] ==> s.wire == [] && s.total == 0)
    ensures s.past != [] ==> s.wire != [] && !s.wire[|s.wire| - 1].Truncated?
  {
  }

  /** A stream whose attempt was announced as replaced, in any state that any run leads to, ends without
      a ledger record and without a truncation if and only if every provider left would refuse it and
      it holds no claim; otherwise it attempts the first provider of which this is not so.  The
      provider that was announced is the one attempted if and only if it is that provider. */
  lemma StrandedExactly(cfg: Config, t0: int, ls: seq<Label>, id: nat, k: nat)
    requires cfg.Valid() && id < |Exec(cfg, t0, ls).streams| && k >= 2
    requires var s := Exec(cfg, t0, ls).streams[id];
      s.pc.Choosing? && s.past != [] && s.pc.i + k >= |cfg.names| + 2
    ensures id < |Exec(cfg, t0, ls + Alone(id, k)).streams|
    ensures var y := Exec(cfg, t0, ls); var s := y.streams[id]; var x := s.pc.i;
      var z := Exec(cfg, t0, ls + Alone(id, k)).streams[id];
      && (z.pc.Finished? <==> AllRefused(cfg, y.sh, s, x))
      && (z.pc.Finished? ==> z.settled == [] && z.wire == s.wire && !z.wire[|z.wire| - 1].Truncated?)
      && (forall p :: z.cur.Some? && z.cur.value.provider == p <==> FirstAdmitting(cfg, y.sh, s, x, p))
      && (forall j :: s.pc.hop == Some(j) ==>
          (z.cur.Some? && z.cur.value.provider == j <==> FirstAdmitting(cfg, y.sh, s, x, j)))
  {
    hide Exec, Inv, Refused;
    var y := Exec(cfg, t0, ls);
    var s := y.streams[id];
    UntilNow(cfg, s);
    WalkEnds(cfg, t0, ls, id, k);
    FirstOrNone(cfg, y.sh, s, s.pc.i);
  }

  /** A stream that has attempted nothing yet is told of no provider, and is truncated at once, if and
      only if every provider left would refuse it; otherwise its status names the first that would
      not. */
  lemma StatusMissingExactly(cfg: Config, t0: int, ls: seq<Label>, id: nat, k: nat)
    requires cfg.Valid() && id < |Exec(cfg, t0, ls).streams| && k >= 2
    requires var s := Exec(cfg, t0, ls).streams[id];
      s.pc.Choosing? && s.past == [] && s.pc.i + k >= |cfg.names| + 2
    ensures id < |Exec(cfg, t0, ls + Alone(id, k)).streams|
    ensures var y := Exec(cfg, t0, ls); var s := y.streams[id]; var x := s.pc.i;
      var z := Exec(cfg, t0, ls + Alone(id, k)).streams[id];
      && (z.wire == [Truncated(AllProvidersExhausted, 0)] <==> AllRefused(cfg, y.sh, s, x))
      && (forall p :: FirstAdmitting(cfg, y.sh, s, x, p) ==> z.wire == [Status(cfg.names[p])])
      && (AllRefused(cfg, y.sh, s, x) ==> z.pc.Finished?)
  {
    hide Exec, Inv, Refused;
    var y := Exec(cfg, t0, ls);
    var s := y.streams[id];
    UntilNow(cfg, s);
    WalkEnds(cfg, t0, ls, id, k);
    FirstOrNone(cfg, y.sh, s, s.pc.i);
    var z := Exec(cfg, t0, ls + Alone(id, k)).streams[id];
    if AllRefused(cfg, y.sh, s, s.pc.i) {
      assert z.wire == [] + [Truncated(AllProvidersExhausted, 0)];
    } else {
      var p :| FirstAdmitting(cfg, y.sh, s, s.pc.i, p);
      assert z.wire[0] == Status(cfg.names[p]);
    }
  }
}
