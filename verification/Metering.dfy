/** The rate limit of a key in the running system: every reservation is metered exactly once, and
    admission looks at everything metered in the last window. */
module Metering {
  import opened Gateway
  import opened Accounting
  import opened System
  import RateLimit

  /** Tokens told to the limiter. */
  function Metered(h: seq<RateLimit.Call>): int {
    if h == [] then 0 else Metered(h[..|h| - 1]) + (if h[|h| - 1].AddCall? then h[|h| - 1].tokens else 0)
  }

  /** What a stream has reserved and told the limiter of: all but a reservation granted just now. */
  function Told(s: Stream): int {
    s.reserved - (if s.pc.Reserving? && s.pc.c.Granted? && s.cur.Some? then Amount(s, s.pc.want) else 0)
  }

  /** Calls come in clock order, are for the key, and add tokens when they add. */
  ghost predicate MeterOk(cfg: Config, sh: Shared) {
    && RateLimit.Monotone(sh.meter)
    && forall i :: 0 <= i < |sh.meter| ==>
         sh.meter[i].now <= sh.now && sh.meter[i].key == cfg.hash && (sh.meter[i].AddCall? ==> sh.meter[i].tokens > 0)
  }

  lemma MeterSnoc(cfg: Config, sh: Shared, sh': Shared, c: RateLimit.Call)
    requires MeterOk(cfg, sh) && sh'.meter == sh.meter + [c] && sh'.now == sh.now
    requires c.now == sh.now && c.key == cfg.hash && (c.AddCall? ==> c.tokens > 0)
    ensures MeterOk(cfg, sh') && Metered(sh'.meter) == Metered(sh.meter) + (if c.AddCall? then c.tokens else 0)
  {
    assert sh'.meter[..|sh.meter|] == sh.meter;
  }

  lemma ReserveMeters(cfg: Config, sh: Shared, s: Stream)
    requires Inv(cfg, s) && s.pc.Reserving? && MeterOk(cfg, sh)
    ensures var (sh', s') := OnReserve(cfg, sh, s, s.pc.want, s.pc.c);
      MeterOk(cfg, sh') && sh'.now == sh.now && Metered(sh'.meter) - Metered(sh.meter) == Told(s') - Told(s)
  {
    hide OpenWire, Log, Failovers, FailoverTokens, Count, Corrections, Gap, Billed, Metered, RateLimit.Monotone;
    var (sh', s') := OnReserve(cfg, sh, s, s.pc.want, s.pc.c);
    var n := Amount(s, s.pc.want);
    if s.pc.c.Granted? {
      MeterSnoc(cfg, sh, sh', RateLimit.AddCall(cfg.hash, n, sh.now));
    }
  }

  lemma QuietMeters(cfg: Config, sh: Shared, s: Stream, x: Input)
    requires Matches(cfg, sh) && Shape(cfg, s) && !s.pc.Reserving?
    ensures var (sh', s') := Next(cfg, sh, s, x); sh'.meter == sh.meter && sh'.now == sh.now && Told(s') == Told(s)
  {
  }

  lemma StepMeters(cfg: Config, y: Sys, l: Label)
    requires WF(cfg, y) && MeterOk(cfg, y.sh)
    ensures var z := Step(cfg, y, l);
      && MeterOk(cfg, z.sh)
      && Metered(z.sh.meter) - Metered(y.sh.meter) == Sum(z.streams, Told) - Sum(y.streams, Told)
  {
    hide Inv, Next, Metered, OnReserve, Told, RateLimit.Monotone, Admits;
    match l
    case Spawn =>
      MeterSnoc(cfg, y.sh, Admitted(cfg, y.sh), RateLimit.AdmitCall(cfg.hash, y.sh.now));
      SumAppend(y.streams, NewStream(), Told);
      NewTold(NewStream());
    case Run(id, x) =>
      if id < |y.streams| && StepOk(y.sh, y.streams[id], x) {
        var s := y.streams[id];
        InvShape(cfg, s);
        SumUpdate(y.streams, id, Next(cfg, y.sh, s, x).1, Told);
        if s.pc.Reserving? {
          ReserveMeters(cfg, y.sh, s);
          ReserveStep(cfg, y.sh, s, x);
        } else {
          QuietMeters(cfg, y.sh, s, x);
        }
      }
    case _ =>
  }

  lemma NewTold(s: Stream)
    requires s == NewStream()
    ensures Told(s) == 0
  {
  }

  lemma ReserveStep(cfg: Config, sh: Shared, s: Stream, x: Input)
    requires Matches(cfg, sh) && Shape(cfg, s) && s.pc.Reserving?
    ensures Next(cfg, sh, s, x) == OnReserve(cfg, sh, s, s.pc.want, s.pc.c)
  {
  }

  /** At every moment of every run the limiter has been told of exactly the tokens the streams
      reserved, each reservation once, but for those whose compare-and-swap has just succeeded. */
  lemma {:induction false} EveryReservationIsMetered(cfg: Config, t0: int, ls: seq<Label>)
    requires cfg.Valid()
    ensures var y := Exec(cfg, t0, ls); MeterOk(cfg, y.sh) && Metered(y.sh.meter) == Sum(y.streams, Told)
  {
    hide Inv, Step, Told;
    if ls != [] {
      EveryReservationIsMetered(cfg, t0, ls[..|ls| - 1]);
      StepMeters(cfg, Exec(cfg, t0, ls[..|ls| - 1]), ls[|ls| - 1]);
    }
  }

  /** Whatever the streams did, a request that passed the budget check becomes a stream if and only if
      the tokens metered for the key in the last window, straight from the history, are below the
      limit. */
  lemma AdmissionSeesTheWindow(cfg: Config, t0: int, ls: seq<Label>)
    requires cfg.Valid() && Exec(cfg, t0, ls).entering > 0
    ensures var y := Exec(cfg, t0, ls);
      |Step(cfg, y, Spawn).streams| == |y.streams| + 1
      <==> RateLimit.NaiveSum(y.sh.meter, cfg.hash, y.sh.now - cfg.window) < cfg.limit
  {
    hide Inv, Exec, Metered, RateLimit.Cached, RateLimit.Survivors, RateLimit.Tokens, RateLimit.NaiveSum;
    EveryReservationIsMetered(cfg, t0, ls);
    var y := Exec(cfg, t0, ls);
    MeterSnoc(cfg, y.sh, Admitted(cfg, y.sh), RateLimit.AdmitCall(cfg.hash, y.sh.now));
    RateLimit.AdmitSeesNaiveWindow(cfg.window, y.sh.meter, cfg.hash, y.sh.now);
  }
}
