/** The key store: records are added once checked, and a sweep starts a new budget period for every
    key whose period has run out. */
module Auth {
  import opened Options

  datatype Record = Record(allow: seq<string>, budget: int, used: int, period: int, periodStart: int)

  datatype Error = EmptyKey | EmptyAllowlist | NegativeBudget

  predicate Expired(r: Record, now: int) {
    r.period > 0 && now >= r.periodStart + r.period
  }

  function Swept(r: Record, now: int): Record {
    if Expired(r, now) then r.(used := 0, periodStart := now) else r
  }

  class Store {
    const hash: string -> string
    const defaultPeriod: int
    var byHash: map<string, Record>

    constructor (hash: string -> string, defaultPeriod: int)
      ensures this.hash == hash && this.defaultPeriod == defaultPeriod && byHash == map[]
    {
      this.hash, this.defaultPeriod, byHash := hash, defaultPeriod, map[];
    }

    /** A key is stored unused, and only if its budget can be accounted for. */
    method Add(raw: string, allow: seq<string>, tokenBudget: int, period: int, now: int) returns (err: Option<Error>)
      modifies this
      ensures err.None? <==> raw != "" && allow != [] && tokenBudget >= 0
      ensures err.None? ==>
        byHash == old(byHash)[hash(raw) := Record(allow, tokenBudget, 0, if period <= 0 then defaultPeriod else period, now)]
      ensures err.Some? ==> byHash == old(byHash)
    {
      if raw == "" {
        return Some(EmptyKey);
      }
      if |allow| == 0 {
        return Some(EmptyAllowlist);
      }
      if tokenBudget < 0 {
        return Some(NegativeBudget);
      }
      var p := period;
      if p <= 0 {
        p := defaultPeriod;
      }
      byHash := byHash[hash(raw) := Record(allow, tokenBudget, 0, p, now)];
      return None;
    }

    /** The sweep: exactly the expired records start anew, and their number is returned. */
    method ResetExpired(now: int) returns (reset: nat)
      modifies this
      ensures byHash.Keys == old(byHash).Keys
      ensures forall h :: h in byHash ==> byHash[h] == Swept(old(byHash)[h], now)
      ensures forall h :: h in byHash ==>
        var r, r' := old(byHash)[h], byHash[h];
        if r.period > 0 && now >= r.periodStart + r.period
        then r'.used == 0 && r'.periodStart == now && r'.budget == r.budget && r'.period == r.period && r'.allow == r.allow
        else r' == r
      ensures reset == |set h | h in old(byHash) && old(byHash)[h].period > 0
                          && now >= old(byHash)[h].periodStart + old(byHash)[h].period|
    {
      ghost var was := byHash;
      var rest := byHash.Keys;
      ghost var renewed: set<string> := {};
      reset := 0;
      while rest != {}
        invariant rest <= was.Keys == byHash.Keys
        invariant forall h :: h in was ==> byHash[h] == if h in rest then was[h] else Swept(was[h], now)
        invariant renewed == set h | h in was && h !in rest && Expired(was[h], now)
        invariant reset == |renewed|
        decreases rest
      {
        var h :| h in rest;
        var r := byHash[h];
        rest := rest - {h};
        if r.period <= 0 || now < r.periodStart + r.period {
          continue;
        }
        byHash := byHash[h := r.(used := 0, periodStart := now)];
        renewed := renewed + {h};
        reset := reset + 1;
      }
      assert renewed == set h | h in was && was[h].period > 0 && now >= was[h].periodStart + was[h].period;
    }
  }

  // ---- A key over many sweeps ----

  function SweptBy(r: Record, sweeps: seq<int>): Record {
    if sweeps == [] then r else Swept(SweptBy(r, sweeps[..|sweeps| - 1]), sweeps[|sweeps| - 1])
  }

  /** Sweep `i` starts a new period of the key. */
  predicate Renews(r: Record, sweeps: seq<int>, i: nat)
    requires i < |sweeps|
  {
    Expired(SweptBy(r, sweeps[..i]), sweeps[i])
  }

  lemma {:induction false} PeriodStart(r: Record, sweeps: seq<int>, i: nat, n: nat)
    requires i < n <= |sweeps| && Renews(r, sweeps, i)
    requires forall j, k :: 0 <= j < k < |sweeps| ==> sweeps[j] <= sweeps[k]
    ensures SweptBy(r, sweeps[..n]).periodStart >= sweeps[i] && SweptBy(r, sweeps[..n]).period == r.period
  {
    assert sweeps[..n][..n - 1] == sweeps[..n - 1];
    SamePeriod(r, sweeps[..n - 1]);
    if n > i + 1 {
      PeriodStart(r, sweeps, i, n - 1);
    }
  }

  lemma {:induction false} SamePeriod(r: Record, sweeps: seq<int>)
    ensures SweptBy(r, sweeps).period == r.period
  {
    if sweeps != [] {
      SamePeriod(r, sweeps[..|sweeps| - 1]);
    }
  }

  /** However often the resetter runs, two resets of a key lie at least a period apart. */
  lemma RenewalsArePeriodApart(r: Record, sweeps: seq<int>, i: nat, j: nat)
    requires i < j < |sweeps| && Renews(r, sweeps, i) && Renews(r, sweeps, j)
    requires forall m, k :: 0 <= m < k < |sweeps| ==> sweeps[m] <= sweeps[k]
    ensures sweeps[j] - sweeps[i] >= r.period > 0
  {
    PeriodStart(r, sweeps, i, j);
  }
}
