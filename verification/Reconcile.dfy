/** Batch reconciliation of the ledger against the providers' own usage counts.  `Apply` writes a
    provisional flag per provider; after a run each entry must carry the OR over its providers. */
module Reconcile {
  import opened Options
  import Ledger

  datatype Result = Result(
    hash: string, period: string, provider: string, localTokens: int, providerTokens: int,
    driftPct: real, driftFlag: bool, at: int)

  /** The providers' usage API: configured provider, key hash and billing period to a token count;
      `None` is an error. */
  type Fetcher = (string, string, string) -> Option<int>

  /** Drift in percent of the provider's count, in exact arithmetic. */
  function Drift(localTokens: int, providerTokens: int): (d: real)
    ensures d >= 0.0
    ensures d == 0.0 <==> providerTokens <= 0 || localTokens == providerTokens
    ensures providerTokens > 0 ==>
      d * providerTokens as real ==
      100.0 * (if localTokens >= providerTokens then localTokens - providerTokens else providerTokens - localTokens) as real
  {
    if providerTokens > 0 then
      (if localTokens >= providerTokens then localTokens - providerTokens else providerTokens - localTokens) as real
      / providerTokens as real * 100.0
    else 0.0
  }

  /** The difference, in percent of a count that is reported, is above the threshold. */
  predicate Exceeds(localTokens: int, providerTokens: int, threshold: real) {
    if providerTokens <= 0 then threshold < 0.0
    else
      var gap := if localTokens >= providerTokens then localTokens - providerTokens else providerTokens - localTokens;
      100.0 * gap as real > threshold * providerTokens as real
  }

  lemma ExceedsExactly(localTokens: int, providerTokens: int, threshold: real)
    ensures Drift(localTokens, providerTokens) > threshold <==> Exceeds(localTokens, providerTokens, threshold)
  {
    hide Drift;
    if providerTokens > 0 {
      Cancel(Drift(localTokens, providerTokens), threshold, providerTokens as real);
    }
  }

  lemma Cancel(d: real, t: real, n: real)
    requires n > 0.0
    ensures d > t <==> d * n > t * n
  {
    if d > t { assert (d - t) * n > 0.0; } else { assert (t - d) * n >= 0.0; }
  }

  function LowerChar(c: char): (r: char)
    ensures 'A' <= c <= 'Z' ==> 'a' <= r <= 'z' && r as int - 'a' as int == c as int - 'A' as int
    ensures !('A' <= c <= 'Z') ==> r == c
  {
    if 'A' <= c <= 'Z' then (c as int + 32) as char else c
  }

  function Lower(s: string): string {
    seq(|s|, i requires 0 <= i < |s| => LowerChar(s[i]))
  }

  lemma SameLower(s: string, t: string)
    ensures Lower(s) == Lower(t) <==> |s| == |t| && forall i :: 0 <= i < |s| ==> LowerChar(s[i]) == LowerChar(t[i])
  {
    if Lower(s) == Lower(t) {
      forall i | 0 <= i < |s| && i < |t|
        ensures LowerChar(s[i]) == LowerChar(t[i])
      {
        assert Lower(s)[i] == Lower(t)[i];
      }
      assert |Lower(s)| == |s| && |Lower(t)| == |t|;
    }
  }

  /** Which configured provider answers for a provider name: matched ignoring case, the last one
      configured wins. */
  function Lookup(providers: seq<string>, name: string): Option<string> {
    if providers == [] then None
    else if Lower(providers[|providers| - 1]) == Lower(name) then Some(providers[|providers| - 1])
    else Lookup(providers[..|providers| - 1], name)
  }

  /** `i` is the last configured provider of this name, letter case aside. */
  ghost predicate LastMatch(providers: seq<string>, name: string, i: int) {
    && 0 <= i < |providers| && Lower(providers[i]) == Lower(name)
    && forall j :: i < j < |providers| ==> Lower(providers[j]) != Lower(name)
  }

  lemma {:induction false} LookupIsLastMatch(providers: seq<string>, name: string)
    ensures Lookup(providers, name).Some? <==> exists i :: LastMatch(providers, name, i)
    ensures forall i :: LastMatch(providers, name, i) ==> Lookup(providers, name) == Some(providers[i])
    ensures Lookup(providers, name).None? <==> forall i :: 0 <= i < |providers| ==> Lower(providers[i]) != Lower(name)
  {
    hide Lower;
    if providers != [] {
      var n := |providers| - 1;
      LookupIsLastMatch(providers[..n], name);
      if Lower(providers[n]) == Lower(name) {
        assert LastMatch(providers, name, n);
      } else {
        forall i | 0 <= i < n
          ensures LastMatch(providers, name, i) <==> LastMatch(providers[..n], name, i)
        {
        }
      }
    }
  }

  /** `byName` answers for every name as the list does. */
  ghost predicate Indexes(byName: map<string, string>, providers: seq<string>) {
    forall name: string :: (if Lower(name) in byName then Some(byName[Lower(name)]) else None) == Lookup(providers, name)
  }

  /** The map from lower-case names to providers. */
  method Index(providers: seq<string>) returns (byName: map<string, string>)
    ensures Indexes(byName, providers)
  {
    hide Lower;
    byName := map[];
    for i := 0 to |providers|
      invariant Indexes(byName, providers[..i])
    {
      assert providers[..i + 1][..i] == providers[..i];
      byName := byName[Lower(providers[i]) := providers[i]];
    }
    assert providers[..|providers|] == providers;
  }

  class Job {
    const ledger: Ledger.Store
    const threshold: real
    const fetch: Fetcher

    constructor (ledger: Ledger.Store, threshold: real, fetch: Fetcher)
      ensures this.ledger == ledger && this.threshold == threshold && this.fetch == fetch
    {
      this.ledger, this.threshold, this.fetch := ledger, threshold, fetch;
    }

    /** Provider `name` of entry `e` is configured. */
    function Asks(providers: seq<string>, e: Ledger.Entry, name: string): bool {
      name in e.providerTokens && Lookup(providers, name).Some?
    }

    function Answer(providers: seq<string>, e: Ledger.Entry, name: string): Option<int>
      requires Asks(providers, e, name)
    {
      fetch(Lookup(providers, name).value, e.hash, e.period)
    }

    predicate Drifts(providers: seq<string>, e: Ledger.Entry, name: string) {
      && Asks(providers, e, name) && Answer(providers, e, name).Some?
      && Drift(e.providerTokens[name], Answer(providers, e, name).value) > threshold
    }

    function Report(providers: seq<string>, e: Ledger.Entry, name: string, now: int): Result
      requires Asks(providers, e, name) && Answer(providers, e, name).Some?
    {
      var theirs := Answer(providers, e, name).value;
      var d := Drift(e.providerTokens[name], theirs);
      Result(e.hash, e.period, name, e.providerTokens[name], theirs, d, d > threshold, now)
    }

    /** The result of one provider, field by field. */
    lemma ReportFields(providers: seq<string>, e: Ledger.Entry, name: string, now: int)
      requires Asks(providers, e, name) && Answer(providers, e, name).Some?
      ensures var r := Report(providers, e, name, now);
        && r.hash == e.hash && r.period == e.period && r.provider == name && r.at == now
        && r.localTokens == e.providerTokens[name] && Answer(providers, e, name) == Some(r.providerTokens)
        && r.driftPct == Drift(r.localTokens, r.providerTokens) && (r.driftFlag <==> Drifts(providers, e, name))
    {
    }

    ghost predicate Flagged(providers: seq<string>, e: Ledger.Entry) {
      exists name :: Drifts(providers, e, name)
    }

    /** What a drift is, in the provider's own count and without division. */
    lemma DriftsExactly(providers: seq<string>, e: Ledger.Entry, name: string, i: nat, theirs: int)
      requires name in e.providerTokens && LastMatch(providers, name, i)
      requires fetch(providers[i], e.hash, e.period) == Some(theirs)
      ensures Asks(providers, e, name) && Answer(providers, e, name) == Some(theirs)
      ensures Drifts(providers, e, name) <==> Exceeds(e.providerTokens[name], theirs, threshold)
    {
      hide Drift, Exceeds, Lookup, Lower;
      LookupIsLastMatch(providers, name);
      ExceedsExactly(e.providerTokens[name], theirs, threshold);
    }

    /** An entry's run succeeds if and only if the provider configured for each of its names, if any,
        reports on the entry's own hash and period. */
    lemma CompleteExactly(providers: seq<string>, e: Ledger.Entry)
      ensures Complete(providers, e) <==>
        forall name, i :: name in e.providerTokens && LastMatch(providers, name, i) ==> fetch(providers[i], e.hash, e.period).Some?
    {
      hide Lower, Lookup;
      forall name
        ensures Lookup(providers, name).Some? <==> exists i :: LastMatch(providers, name, i)
        ensures forall i :: LastMatch(providers, name, i) ==> Lookup(providers, name) == Some(providers[i])
      {
        LookupIsLastMatch(providers, name);
      }
      if Complete(providers, e) {
        forall name, i | name in e.providerTokens && LastMatch(providers, name, i)
          ensures fetch(providers[i], e.hash, e.period).Some?
        {
          assert Asks(providers, e, name);
        }
      }
    }

    /** The ledger after the entries `es` have been reconciled. */
    ghost function Settle(providers: seq<string>, m: map<string, Ledger.Entry>, es: seq<Ledger.Entry>, now: int): map<string, Ledger.Entry> {
      if es == [] then m
      else
        var e := es[|es| - 1];
        var m' := Settle(providers, m, es[..|es| - 1], now);
        if e.providerTokens == map[] then m'
        else Flag(m', e, now, Flagged(providers, e))
    }

    /** At most the reconciliation fields of the entry of `e` were written. */
    ghost predicate Touched(m: map<string, Ledger.Entry>, m': map<string, Ledger.Entry>, e: Ledger.Entry, now: int) {
      m' == m || m' == Flag(m, e, now, true) || m' == Flag(m, e, now, false)
    }

    ghost function Flag(m: map<string, Ledger.Entry>, e: Ledger.Entry, now: int, flag: bool): map<string, Ledger.Entry> {
      m[Ledger.Key(e.hash, e.period) := Ledger.Reconciled(Ledger.Get(m, e.hash, e.period), now, flag)]
    }

    lemma FlagAgain(m: map<string, Ledger.Entry>, m': map<string, Ledger.Entry>, e: Ledger.Entry, now: int, flag: bool)
      requires Touched(m, m', e, now)
      ensures Flag(m', e, now, flag) == Flag(m, e, now, flag)
    {
    }

    method Apply(hash: string, period: string, localTokens: int, providerTokens: int, now: int) returns (drift: real)
      requires ledger.Valid() && Ledger.Plain(period)
      modifies ledger`entries
      ensures ledger.Valid()
      ensures drift == Drift(localTokens, providerTokens)
      ensures ledger.entries == old(ledger.entries)[Ledger.Key(hash, period) :=
                Ledger.Reconciled(Ledger.Get(old(ledger.entries), hash, period), now, drift > threshold)]
      ensures Ledger.ReconciledIn(old(ledger.entries), ledger.entries, Ledger.Key(hash, period), hash, period,
                now, drift > threshold)
    {
      drift := 0.0;
      if providerTokens > 0 {
        var gap := if localTokens >= providerTokens then localTokens - providerTokens else providerTokens - localTokens;
        drift := gap as real / providerTokens as real * 100.0;
      }
      ledger.UpsertReconciliation(hash, period, now, drift > threshold);
    }

    /** The inner loop: one entry, its providers in any order. */
    method RunEntry(providers: seq<string>, byName: map<string, string>, e: Ledger.Entry, now: int)
      returns (ok: bool, results: seq<Result>)
      requires ledger.Valid() && Ledger.Plain(e.period) && e.providerTokens != map[]
      requires Indexes(byName, providers)
      modifies ledger`entries
      ensures ledger.Valid()
      ensures ok <==> forall name :: Asks(providers, e, name) ==> Answer(providers, e, name).Some?
      ensures ok ==> ledger.entries == Flag(old(ledger.entries), e, now, Flagged(providers, e))
      ensures ok ==> forall r :: r in results <==> exists name :: Asks(providers, e, name) && r == Report(providers, e, name, now)
      ensures ok ==> Different(results)
      ensures !ok ==> Touched(old(ledger.entries), ledger.entries, e, now)
    {
      hide Ledger.Consistent, Ledger.EntryOk, Lower, Lookup, Drift;
      ghost var m := ledger.entries;
      var flag := false;
      results := [];
      var rest := e.providerTokens.Keys;
      ghost var done: set<string> := {};
      while rest != {}
        invariant rest + done == e.providerTokens.Keys && rest !! done
        invariant ledger.Valid()
        invariant Touched(m, ledger.entries, e, now)
        invariant forall name :: name in done && Asks(providers, e, name) ==> Answer(providers, e, name).Some?
        invariant flag <==> exists name :: name in done && Drifts(providers, e, name)
        invariant forall r :: r in results <==>
                    exists name :: name in done && Asks(providers, e, name) && r == Report(providers, e, name, now)
        invariant Different(results) && forall j :: 0 <= j < |results| ==> results[j].provider in done
        decreases rest
      {
        var name :| name in rest;
        rest, done := rest - {name}, done + {name};
        if Lower(name) in byName {
          var theirs := fetch(byName[Lower(name)], e.hash, e.period);
          assert Lookup(providers, name) == Some(byName[Lower(name)]);
          if theirs.None? {
            assert Asks(providers, e, name) && Answer(providers, e, name).None?;
            return false, [];
          }
          assert name !in done - {name} && forall j :: 0 <= j < |results| ==> results[j].provider in done - {name};
          FlagAgain(m, ledger.entries, e, now, Drifts(providers, e, name));
          var drift := Apply(e.hash, e.period, e.providerTokens[name], theirs.value, now);
          flag := flag || drift > threshold;
          results := results + [Result(e.hash, e.period, name, e.providerTokens[name], theirs.value, drift, drift > threshold, now)];
          assert Asks(providers, e, name) && results[|results| - 1] == Report(providers, e, name, now);
        }
      }
      assert done == e.providerTokens.Keys;
      assert flag <==> Flagged(providers, e);
      FlagAgain(m, ledger.entries, e, now, flag);
      ledger.UpsertReconciliation(e.hash, e.period, now, flag);
      ok := true;
    }

    ghost predicate Different(results: seq<Result>) {
      forall i, j :: 0 <= i < j < |results| ==> results[i] != results[j]
    }

    /** No two entries of the same hash and period. */
    ghost predicate Unlike(es: seq<Ledger.Entry>) {
      forall i, j :: 0 <= i < j < |es| ==> es[i].hash != es[j].hash || es[i].period != es[j].period
    }

    lemma FromEntry(providers: seq<string>, es: seq<Ledger.Entry>, i: nat, r: Result, r': Result, now: int)
      requires i < |es| && Unlike(es) && Reports(providers, es[..i], r, now)
      requires exists name :: Asks(providers, es[i], name) && Answer(providers, es[i], name).Some?
                              && r' == Report(providers, es[i], name, now)
      ensures r != r'
    {
    }

    ghost predicate Complete(providers: seq<string>, e: Ledger.Entry) {
      forall name :: Asks(providers, e, name) ==> Answer(providers, e, name).Some?
    }

    /** A reconciliation run over a snapshot. */
    method Run(providers: seq<string>, snapshot: seq<Ledger.Entry>, now: int) returns (ok: bool, results: seq<Result>)
      requires ledger.Valid() && forall i :: 0 <= i < |snapshot| ==> Ledger.Plain(snapshot[i].period)
      modifies ledger`entries
      ensures ledger.Valid()
      ensures ok <==> forall i :: 0 <= i < |snapshot| && snapshot[i].providerTokens != map[] ==> Complete(providers, snapshot[i])
      ensures ok ==> ledger.entries == Settle(providers, old(ledger.entries), snapshot, now)
      ensures ok ==> forall r :: r in results <==> Reports(providers, snapshot, r, now)
      ensures ok && Unlike(snapshot) ==> Different(results)
    {
      hide Ledger.Consistent, Flagged, Flag, Report, Lookup, Lower, Touched, Indexes;
      ghost var m := ledger.entries;
      var byName := Index(providers);
      results := [];
      for i := 0 to |snapshot|
        invariant ledger.Valid()
        invariant ledger.entries == Settle(providers, m, snapshot[..i], now)
        invariant forall j :: 0 <= j < i && snapshot[j].providerTokens != map[] ==> Complete(providers, snapshot[j])
        invariant forall r :: r in results <==>
                    exists j, name :: 0 <= j < i && Asks(providers, snapshot[j], name)
                      && Answer(providers, snapshot[j], name).Some? && r == Report(providers, snapshot[j], name, now)
        invariant Unlike(snapshot) ==> Different(results)
      {
        var e := snapshot[i];
        assert snapshot[..i + 1][..i] == snapshot[..i];
        if e.providerTokens != map[] {
          var good, rs := RunEntry(providers, byName, e, now);
          if !good {
            assert !Complete(providers, e);
            return false, [];
          }
          if Unlike(snapshot) {
            forall a, b | 0 <= a < |results| && 0 <= b < |rs|
              ensures results[a] != rs[b]
            {
              assert results[a] in results && rs[b] in rs;
              FromEntry(providers, snapshot, i, results[a], rs[b], now);
            }
          }
          results := results + rs;
        }
      }
      assert snapshot[..|snapshot|] == snapshot;
      ok := true;
    }

    /** `es` lists entries of `m`, each at most once. */
    ghost predicate Snapshot(m: map<string, Ledger.Entry>, es: seq<Ledger.Entry>) {
      && (forall i :: 0 <= i < |es| ==>
          Ledger.Key(es[i].hash, es[i].period) in m && m[Ledger.Key(es[i].hash, es[i].period)] == es[i])
      && (forall i, j :: 0 <= i < j < |es| ==>
          Ledger.Key(es[i].hash, es[i].period) != Ledger.Key(es[j].hash, es[j].period))
    }

    /** What a successful run leaves in the entry `k`: entries with provider tokens carry the OR over
        their configured providers and the time of the run; the others, and everything billed, are
        as before. */
    ghost predicate Final(providers: seq<string>, m: map<string, Ledger.Entry>, m': map<string, Ledger.Entry>,
                          es: seq<Ledger.Entry>, k: string, now: int)
      requires k in m && k in m'
    {
      if m[k] in es && m[k].providerTokens != map[]
      then m'[k] == Ledger.Reconciled(m[k], now, Flagged(providers, m[k]))
      else m'[k] == m[k]
    }

    lemma {:induction false} SettleIsFinal(providers: seq<string>, m: map<string, Ledger.Entry>, es: seq<Ledger.Entry>, now: int)
      requires Snapshot(m, es) && forall k :: k in m ==> k == Ledger.Key(m[k].hash, m[k].period)
      ensures Settle(providers, m, es, now).Keys == m.Keys
      ensures forall k :: k in m ==> Final(providers, m, Settle(providers, m, es, now), es, k, now)
    {
      hide Flagged;
      if es != [] {
        var n := |es| - 1;
        var e := es[n];
        var key := Ledger.Key(e.hash, e.period);
        SettleIsFinal(providers, m, es[..n], now);
        var m' := Settle(providers, m, es[..n], now);
        assert e !in es[..n];
        assert m'[key] == m[key] == e;
        forall k | k in m
          ensures Final(providers, m, Settle(providers, m, es, now), es, k, now)
        {
          assert Final(providers, m, m', es[..n], k, now);
          assert m[k] in es <==> m[k] in es[..n] || m[k] == e;
        }
      }
    }

    /** Field by field: an entry with provider tokens has the time of the run and is flagged if and only
        if one of its configured providers drifts; all else is as before. */
    ghost predicate Settled(providers: seq<string>, e: Ledger.Entry, e': Ledger.Entry, now: int) {
      && e'.hash == e.hash && e'.period == e.period && e'.tokensBilled == e.tokensBilled
      && e'.truncatedRequests == e.truncatedRequests && e'.providerTokens == e.providerTokens
      && if e.providerTokens == map[] then e'.lastReconciledAt == e.lastReconciledAt && e'.driftFlag == e.driftFlag
         else e'.lastReconciledAt == Some(now) && (e'.driftFlag <==> exists name :: Drifts(providers, e, name))
    }

    lemma FinalIsSettled(providers: seq<string>, m: map<string, Ledger.Entry>, m': map<string, Ledger.Entry>,
                         es: seq<Ledger.Entry>, k: string, now: int)
      requires k in m && k in m' && m[k] in es && Final(providers, m, m', es, k, now)
      ensures Settled(providers, m[k], m'[k], now)
    {
      hide Drifts;
    }

    /** `r` reports on a provider of one of the entries. */
    ghost predicate Reports(providers: seq<string>, es: seq<Ledger.Entry>, r: Result, now: int) {
      exists i, name :: 0 <= i < |es| && Asks(providers, es[i], name)
        && Answer(providers, es[i], name).Some? && r == Report(providers, es[i], name, now)
    }

    /** One scheduled run over a fresh snapshot of the ledger. */
    method RunOnce(providers: seq<string>, now: int) returns (ok: bool, results: seq<Result>, ghost snapshot: seq<Ledger.Entry>)
      requires ledger.Valid()
      modifies ledger`entries
      ensures ledger.Valid()
      ensures forall e :: e in snapshot <==> exists k :: k in old(ledger.entries) && old(ledger.entries)[k] == e
      ensures ok <==> forall k :: k in old(ledger.entries) ==> Complete(providers, old(ledger.entries)[k])
      ensures ok ==> ledger.entries.Keys == old(ledger.entries).Keys
      ensures ok ==> forall k :: k in old(ledger.entries) ==>
        Settled(providers, old(ledger.entries)[k], ledger.entries[k], now)
      ensures ok ==> forall r :: r in results <==> Reports(providers, snapshot, r, now)
      ensures ok ==> Different(results)
    {
      hide Ledger.Part, Ledger.ProviderPart, Flagged, Settle, Reports, Settled, Report;
      ghost var m := ledger.entries;
      var taken := ledger.Entries();
      snapshot := taken;
      assert forall k :: k in m ==> Ledger.EntryOk(ledger.period, ledger.history, k, m[k]);
      assert Snapshot(m, snapshot);
      ok, results := Run(providers, taken, now);
      SettleIsFinal(providers, m, snapshot, now);
      if ok {
        forall k | k in m
          ensures Complete(providers, m[k])
        {
          assert m[k] in snapshot;
        }
        forall k | k in m
          ensures k in ledger.entries && Settled(providers, m[k], ledger.entries[k], now)
        {
          FinalIsSettled(providers, m, ledger.entries, snapshot, k, now);
        }
      } else {
        ghost var i :| 0 <= i < |snapshot| && snapshot[i].providerTokens != map[] && !Complete(providers, snapshot[i]);
        assert Ledger.Key(snapshot[i].hash, snapshot[i].period) in m;
      }
    }
  }
}
