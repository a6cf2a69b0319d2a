/** Shutdown: draining refuses new streams, and a timer force-closes those still active when the
    drain time is over.  The check of the draining flag, the registration of a stream, the two halves
    of `BeginShutdown`, the timer and each cancellation are separate steps of any number of
    requests. */
module Drain {

  /** Why a session's context is cancelled, if it is; the first cancellation wins. */
  datatype Cause = Live | ClientGone | Forced

  datatype Timer =
    | Idle
    | Ticking
    | Stopped
    | Firing                     // the callback runs but has not taken the lock
    | Closing(rest: set<nat>)    // sessions of its snapshot still to cancel
    | Closed

  datatype Shutdown = NotBegun | Claimed | Begun

  /** `covered` records the sessions that were active when the timer was armed or registered while it
      was armed, `snapshot` those active when its callback took the lock; `arms` counts the armings. */
  datatype Server = Server(
    shutdown: Shutdown, entering: nat, causes: seq<Cause>, active: set<nat>,
    forceAt: bool, timer: Timer, arms: nat, covered: set<nat>, snapshot: set<nat>)

  function Start(): Server {
    Server(NotBegun, 0, [], {}, false, Idle, 0, {}, {})
  }

  datatype Label =
    | Enter               // a request finds the server not draining
    | Register
    | Leave(id: nat)      // the client goes away
    | Release(id: nat)
    | BeginClaim          // the compare-and-swap of BeginShutdown
    | BeginArm
    | Fire
    | Snapshot
    | Cancel(id: nat)
    | Done

  function Cancelled(causes: seq<Cause>, id: nat, why: Cause): seq<Cause> {
    if id < |causes| && causes[id] == Live then causes[id := why] else causes
  }

  function StopTimer(t: Timer): Timer {
    if t.Ticking? then Stopped else t
  }

  /** The timer runs, or its callback has not looked at the sessions yet. */
  predicate Armed(t: Timer) {
    t.Ticking? || t.Firing?
  }

  function Step(s: Server, l: Label): Server {
    match l
    case Enter => if s.shutdown.NotBegun? then s.(entering := s.entering + 1) else s
    case Register =>
      if s.entering == 0 then s
      else
        s.(entering := s.entering - 1, causes := s.causes + [Live], active := s.active + {|s.causes|},
           covered := if Armed(s.timer) then s.covered + {|s.causes|} else s.covered)
    case Leave(id) => s.(causes := Cancelled(s.causes, id, ClientGone))
    case Release(id) =>
      if id !in s.active then s
      else
        var s' := s.(active := s.active - {id});
        if s'.active == {} && s'.forceAt then s'.(forceAt := false, timer := StopTimer(s'.timer)) else s'
    case BeginClaim => if s.shutdown.NotBegun? then s.(shutdown := Claimed) else s
    case BeginArm =>
      if !s.shutdown.Claimed? then s
      else
        var s' := if s.forceAt then s.(timer := StopTimer(s.timer)) else s;
        s'.(shutdown := Begun, forceAt := true, timer := Ticking, arms := s.arms + 1, covered := s.active)
    case Fire => if s.timer.Ticking? then s.(timer := Firing) else s
    case Snapshot => if s.timer.Firing? then s.(timer := Closing(s.active), snapshot := s.active) else s
    case Cancel(id) =>
      if s.timer.Closing? && id in s.timer.rest
      then s.(causes := Cancelled(s.causes, id, Forced), timer := Closing(s.timer.rest - {id}))
      else s
    case Done => if s.timer == Closing({}) then s.(timer := Closed) else s
  }

  function Run(ls: seq<Label>): Server {
    if ls == [] then Start() else Step(Run(ls[..|ls| - 1]), ls[|ls| - 1])
  }

  ghost predicate Inv(s: Server) {
    && (forall id :: id in s.active + s.covered + s.snapshot ==> id < |s.causes|)
    && s.arms == (if s.shutdown.Begun? then 1 else 0)
    && (!s.shutdown.Begun? ==> s.timer.Idle? && !s.forceAt && s.covered == {})
    && (s.shutdown.Begun? ==> !s.timer.Idle?)
    && (s.timer.Ticking? ==> s.forceAt)
    && (s.timer.Stopped? ==> s.covered !! s.active)
    && (Armed(s.timer) ==> s.active <= s.covered)
    && (s.timer.Idle? || s.timer.Ticking? || s.timer.Stopped? || s.timer.Firing? ==> s.snapshot == {})
    && (s.timer.Closing? || s.timer.Closed? ==> s.covered * s.active <= s.snapshot)
    && (s.timer.Closing? ==> s.timer.rest <= s.snapshot)
    && (forall id :: id in s.snapshot && !(s.timer.Closing? && id in s.timer.rest) ==> s.causes[id] != Live)
    && (forall id :: 0 <= id < |s.causes| && s.causes[id] == Forced ==> id in s.snapshot)
  }

  lemma StepKeepsInv(s: Server, l: Label)
    requires Inv(s)
    ensures Inv(Step(s, l))
  {
  }

  lemma {:induction false} RunKeepsInv(ls: seq<Label>)
    ensures Inv(Run(ls))
  {
    if ls != [] {
      RunKeepsInv(ls[..|ls| - 1]);
      StepKeepsInv(Run(ls[..|ls| - 1]), ls[|ls| - 1]);
    }
  }

  /** The drain guarantee, for every interleaving: the timer is armed at most once; a stream that was
      active when it was armed, or registered while it was armed, and is not released keeps it from
      being disarmed, so it is in the snapshot the callback takes, and once the callback is done its
      context has been cancelled; only streams of that snapshot are ever force-closed. */
  lemma DrainGuarantee(ls: seq<Label>, id: nat)
    ensures var s := Run(ls);
      && s.arms <= 1
      && (id in s.covered && id in s.active ==>
          && !s.timer.Idle? && !s.timer.Stopped?
          && (s.timer.Closing? || s.timer.Closed? ==> id in s.snapshot))
      && (id in s.snapshot ==> id < |s.causes|)
      && (id in s.snapshot && s.timer.Closed? ==> s.causes[id] != Live)
      && (id < |s.causes| && s.causes[id] == Forced ==> id in s.snapshot)
  {
    RunKeepsInv(ls);
  }

  /** The ticking timer is disarmed exactly by the release of the last active stream. */
  lemma DisarmedOnlyWhenIdle(ls: seq<Label>, l: Label)
    requires Run(ls).timer.Ticking?
    ensures Run(ls + [l]).timer.Stopped? <==> l.Release? && Run(ls).active == {l.id}
    ensures Run(ls + [l]).timer.Stopped? ==> Run(ls + [l]).active == {}
  {
    assert (ls + [l])[..|ls|] == ls;
    RunKeepsInv(ls);
  }

  /** Draining refuses: once shutdown was claimed no further request enters; before, every one does. */
  lemma EntersExactlyBefore(ls: seq<Label>)
    ensures var s, s' := Run(ls), Run(ls + [Enter]);
      s' == if s.shutdown.NotBegun? then s.(entering := s.entering + 1) else s
  {
    assert (ls + [Enter])[..|ls|] == ls;
  }

  lemma {:induction false} NoneEnterAfter(ls: seq<Label>, more: seq<Label>)
    requires !Run(ls).shutdown.NotBegun?
    ensures !Run(ls + more).shutdown.NotBegun? && Run(ls + more).entering <= Run(ls).entering
  {
    hide Run;
    RunMore(ls, more);
    if more != [] {
      NoneEnterAfter(ls, more[..|more| - 1]);
    }
  }

  /** A registered stream is active until it is released, and only then not. */
  lemma ActiveExactly(ls: seq<Label>, l: Label)
    ensures var s, s' := Run(ls), Run(ls + [l]);
      s'.active ==
        if l.Register? && s.entering > 0 then s.active + {|s.causes|}
        else if l.Release? then s.active - {l.id}
        else s.active
    ensures var s, s' := Run(ls), Run(ls + [l]);
      |s'.causes| == |s.causes| + (if l.Register? && s.entering > 0 then 1 else 0)
  {
    assert (ls + [l])[..|ls|] == ls;
  }

  /** What one step does to a stream's cause. */
  lemma StepCause(s: Server, l: Label, id: nat)
    requires id < |s.causes|
    ensures id < |Step(s, l).causes|
    ensures Step(s, l).causes[id] ==
      if s.causes[id] != Live then s.causes[id]
      else if l == Leave(id) then ClientGone
      else if l == Cancel(id) && Pending(s, id) then Forced
      else Live
  {
  }

  /** The first cancellation decides: a client that leaves first is gone, a stream forced first stays
      forced, and no other step cancels anything. */
  lemma {:induction false} FirstCauseStays(ls: seq<Label>, more: seq<Label>, id: nat)
    requires id < |Run(ls).causes|
    ensures var s := Run(ls + more);
      && id < |s.causes|
      && (Run(ls).causes[id] != Live ==> s.causes[id] == Run(ls).causes[id])
      && (s.causes[id] == ClientGone ==> Run(ls).causes[id] == ClientGone || Leave(id) in more)
      && (s.causes[id] == Forced ==> Run(ls).causes[id] == Forced || Cancel(id) in more)
      && (s.causes[id] == Live ==> Leave(id) !in more)
  {
    hide Run, Step;
    RunMore(ls, more);
    if more != [] {
      var n := |more| - 1;
      FirstCauseStays(ls, more[..n], id);
      StepCause(Run(ls + more[..n]), more[n], id);
      assert more == more[..n] + [more[n]];
    }
  }

  ghost predicate Pending(s: Server, id: nat) {
    s.timer.Closing? && id in s.timer.rest
  }

  /** The session's cause, given what it was when it was pending. */
  ghost predicate CancelledFrom(s: Server, id: nat, was: Cause) {
    && id < |s.causes| && (s.timer.Closing? || s.timer.Closed?)
    && s.causes[id] == (if Pending(s, id) || was != Live then was else Forced)
  }

  lemma StepCancels(s: Server, l: Label, id: nat, was: Cause)
    requires Inv(s) && CancelledFrom(s, id, was) && l != Leave(id)
    ensures CancelledFrom(Step(s, l), id, was)
  {
  }

  /** A stream of the snapshot whose client has not gone away gets the forced-shutdown cause when its
      turn comes, and nothing changes it after that. */
  lemma {:induction false} ForcedUnlessClientLeft(ls: seq<Label>, more: seq<Label>, id: nat)
    requires Pending(Run(ls), id) && id < |Run(ls).causes|
    requires forall i :: 0 <= i < |more| ==> more[i] != Leave(id)
    ensures CancelledFrom(Run(ls + more), id, Run(ls).causes[id])
  {
    if more == [] {
      assert ls + more == ls;
    } else {
      var n := |more| - 1;
      ForcedUnlessClientLeft(ls, more[..n], id);
      assert (ls + more)[..|ls + more| - 1] == ls + more[..n];
      RunKeepsInv(ls + more[..n]);
      StepCancels(Run(ls + more[..n]), more[n], id, Run(ls).causes[id]);
    }
  }

  // ---- Which streams the guarantee covers ----

  predicate NotReleased(ls: seq<Label>, id: nat) {
    Release(id) !in ls
  }

  /** The callback has taken its snapshot. */
  predicate Taken(t: Timer) {
    t.Closing? || t.Closed?
  }

  lemma RunMore(ls: seq<Label>, more: seq<Label>)
    ensures if more == [] then ls + more == ls
            else Run(ls + more) == Step(Run(ls + more[..|more| - 1]), more[|more| - 1])
  {
    hide Step, Run;
    if more == [] {
      assert ls + more == ls;
    } else {
      var n := |more| - 1;
      RunSnoc(ls + more[..n], more[n]);
      assert ls + more == ls + more[..n] + [more[n]];
    }
  }

  ghost predicate Held(s: Server, id: nat) {
    id in s.active && if Taken(s.timer) then id in s.snapshot else Armed(s.timer)
  }

  lemma StepHolds(s: Server, l: Label, id: nat)
    requires Inv(s) && Held(s, id) && l != Release(id)
    ensures Held(Step(s, l), id)
  {
  }

  lemma {:induction false} ArmedUntilSnapshot(ls: seq<Label>, more: seq<Label>, id: nat)
    requires id in Run(ls).active && Armed(Run(ls).timer) && NotReleased(more, id)
    ensures Held(Run(ls + more), id)
  {
    hide Step, Inv, Run;
    RunMore(ls, more);
    if more != [] {
      var n := |more| - 1;
      ArmedUntilSnapshot(ls, more[..n], id);
      assert more[n] in more;
      RunKeepsInv(ls + more[..n]);
      StepHolds(Run(ls + more[..n]), more[n], id);
    }
  }

  /** Exactly which streams are covered, readable at any moment after shutdown began and before the
      snapshot: for an active stream that is not released, if the timer is not stopped, it stays so
      until the snapshot, which then holds the stream and is always within reach; if it is stopped, it
      stays stopped and no snapshot is ever taken. */
  lemma CoveredExactly(ls: seq<Label>, id: nat)
    requires var s := Run(ls); s.shutdown.Begun? && id in s.active && !Taken(s.timer)
    ensures !Run(ls).timer.Stopped? <==>
      exists more :: NotReleased(more, id) && id in Run(ls + more).snapshot
    ensures !Run(ls).timer.Stopped? <==>
      forall more :: NotReleased(more, id) ==> Held(Run(ls + more), id)
  {
    hide Step, Run;
    RunKeepsInv(ls);
    if Run(ls).timer.Stopped? {
      forall more ensures Run(ls + more).snapshot == {} && !Armed(Run(ls + more).timer) {
        StoppedForever(ls, more);
        RunKeepsInv(ls + more);
      }
      assert NotReleased([], id) && !Held(Run(ls + []), id) by { RunMore(ls, []); }
    } else {
      forall more | NotReleased(more, id)
        ensures Held(Run(ls + more), id)
      {
        ArmedUntilSnapshot(ls, more, id);
      }
      var more := [Fire, Snapshot];
      ReachesSnapshot(ls);
      assert NotReleased(more, id) && id in Run(ls + more).snapshot;
    }
  }

  /** From an armed timer the callback can take its snapshot. */
  lemma ReachesSnapshot(ls: seq<Label>)
    requires Armed(Run(ls).timer)
    ensures var z := Run(ls + [Fire, Snapshot]);
      z.snapshot == Run(ls).active && z.timer == Closing(z.snapshot) && z.causes == Run(ls).causes
  {
    RunSnoc(ls, Fire);
    RunSnoc(ls + [Fire], Snapshot);
    assert ls + [Fire, Snapshot] == ls + [Fire] + [Snapshot];
  }

  lemma StepKeepsSnapshot(s: Server, l: Label)
    requires Inv(s) && Taken(s.timer)
    ensures Taken(Step(s, l).timer) && Step(s, l).snapshot == s.snapshot
  {
  }

  lemma {:induction false} SnapshotIsFinal(ls: seq<Label>, more: seq<Label>)
    requires Taken(Run(ls).timer)
    ensures Taken(Run(ls + more).timer) && Run(ls + more).snapshot == Run(ls).snapshot
  {
    hide Step, Inv, Run;
    RunMore(ls, more);
    if more != [] {
      var n := |more| - 1;
      SnapshotIsFinal(ls, more[..n]);
      RunKeepsInv(ls + more[..n]);
      StepKeepsSnapshot(Run(ls + more[..n]), more[n]);
    }
  }

  /** A request that passed the draining check and registers once shutdown has begun can be
      force-closed if and only if the timer is armed when it registers: neither stopped for want of
      active streams nor past its snapshot. */
  lemma LateRegistrationExactly(ls: seq<Label>)
    requires Run(ls).shutdown.Begun? && Run(ls).entering > 0
    ensures var id := |Run(ls).causes|;
      && id in Run(ls + [Register]).active
      && (Armed(Run(ls).timer) <==>
          exists more :: var z := Run(ls + [Register] + more); id < |z.causes| && z.causes[id] == Forced)
  {
    hide Run;
    var id := |Run(ls).causes|;
    var g := ls + [Register];
    RunSnoc(ls, Register);
    RunKeepsInv(ls);
    RunKeepsInv(g);
    if Armed(Run(ls).timer) {
      ReachesSnapshot(g);
      var more := [Fire, Snapshot] + [Cancel(id)];
      assert g + more == g + [Fire, Snapshot] + [Cancel(id)];
      RunSnoc(g + [Fire, Snapshot], Cancel(id));
      var z := Run(g + more);
      assert id < |z.causes| && z.causes[id] == Forced;
    } else {
      forall more
        ensures var z := Run(g + more); id < |z.causes| ==> z.causes[id] != Forced
      {
        RunKeepsInv(g + more);
        if Run(g).timer.Stopped? {
          StoppedForever(g, more);
        } else {
          SnapshotIsFinal(g, more);
        }
      }
    }
  }

  // ---- The streams it does not cover ----

  lemma {:induction false} StoppedForever(ls: seq<Label>, more: seq<Label>)
    requires Run(ls).timer.Stopped?
    ensures Run(ls + more).timer.Stopped?
  {
    if more == [] {
      assert ls + more == ls;
    } else {
      var n := |more| - 1;
      StoppedForever(ls, more[..n]);
      assert (ls + more)[..|ls + more| - 1] == ls + more[..n];
      RunKeepsInv(ls + more[..n]);
    }
  }

  lemma RunSnoc(ls: seq<Label>, l: Label)
    ensures Run(ls + [l]) == Step(Run(ls), l)
    ensures Run([]) == Start()
  {
    assert (ls + [l])[..|ls|] == ls;
  }

  /** Two requests pass the draining check; one registers, shutdown begins, it is released. */
  lemma DisarmedWhileEntering() returns (ls: seq<Label>)
    ensures var s := Run(ls); s.timer.Stopped? && s.entering == 1 && |s.causes| == 1
  {
    hide Run;
    RunSnoc([], Enter);
    ls := [] + [Enter];
    RunSnoc(ls, Enter);
    ls := ls + [Enter];
    assert Run(ls).entering == 2 && Run(ls).causes == [] && Run(ls).active == {};
    RunSnoc(ls, Register);
    ls := ls + [Register];
    assert Run(ls).entering == 1 && |Run(ls).causes| == 1 && Run(ls).active == {0};
    RunSnoc(ls, BeginClaim);
    ls := ls + [BeginClaim];
    RunSnoc(ls, BeginArm);
    ls := ls + [BeginArm];
    assert Run(ls).timer.Ticking? && Run(ls).forceAt && Run(ls).active == {0};
    RunSnoc(ls, Release(0));
    ls := ls + [Release(0)];
    assert Run(ls).active == {};
  }

  /** Some requests do escape: there is a run in which a request that passed the draining check early
      registers after the timer was disarmed; it is active, and no continuation ever force-closes it. */
  lemma LateRegistrationEscapes() returns (ls: seq<Label>)
    ensures 1 in Run(ls).active
    ensures forall more :: NoneForced(Run(ls + more))
  {
    ls := DisarmedWhileEntering();
    RunSnoc(ls, Register);
    ls := ls + [Register];
    forall more ensures NoneForced(Run(ls + more)) {
      StoppedForever(ls, more);
      RunKeepsInv(ls + more);
    }
  }

  ghost predicate NoneForced(s: Server) {
    forall id :: 0 <= id < |s.causes| ==> s.causes[id] != Forced
  }
}
