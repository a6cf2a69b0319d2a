/** Provider configuration: the uniqueness checks, the priority sort and the per-key selection. */
module Providers {
  import opened Options
  import Breaker

  datatype Override = Override(failureThreshold: int, openTimeoutSeconds: int, halfOpenSuccessThreshold: int)

  datatype Provider = Provider(name: string, kind: string, priority: int, breaker: Option<Override>)

  datatype Error =
    | NoProviders
    | EmptyName
    | DuplicateName(name: string)
    | BadType(provider: string)
    | NegativePriority(p: string)
    | DuplicatePriority(priority: int)
    | BadBreaker(who: string)
    | BadSharedBreaker

  /** The per-provider settings override the shared ones field by field where they are not zero. */
  function BreakerConfigFor(base: Override, p: Provider): (c: Breaker.Config)
    ensures p.breaker.None? ==>
      c == Breaker.Config(base.failureThreshold, base.openTimeoutSeconds * 1_000_000_000, base.halfOpenSuccessThreshold)
    ensures p.breaker.Some? ==> var o := p.breaker.value;
      && c.failureThreshold == (if o.failureThreshold != 0 then o.failureThreshold else base.failureThreshold)
      && c.openTimeout == (if o.openTimeoutSeconds != 0 then o.openTimeoutSeconds else base.openTimeoutSeconds) * 1_000_000_000
      && c.halfOpenSuccessThreshold
         == (if o.halfOpenSuccessThreshold != 0 then o.halfOpenSuccessThreshold else base.halfOpenSuccessThreshold)
  {
    var b := match p.breaker
      case None => base
      case Some(o) => Override(
        if o.failureThreshold != 0 then o.failureThreshold else base.failureThreshold,
        if o.openTimeoutSeconds != 0 then o.openTimeoutSeconds else base.openTimeoutSeconds,
        if o.halfOpenSuccessThreshold != 0 then o.halfOpenSuccessThreshold else base.halfOpenSuccessThreshold);
    Breaker.Config(b.failureThreshold, b.openTimeoutSeconds * Breaker.SECOND, b.halfOpenSuccessThreshold)
  }

  predicate BreakerOk(c: Breaker.Config): (ok: bool)
    ensures ok <==> c.failureThreshold > 0 && c.openTimeout >= 1_000_000_000 && c.halfOpenSuccessThreshold > 0
  {
    c.failureThreshold >= 1 && c.openTimeout >= Breaker.SECOND && c.halfOpenSuccessThreshold >= 1
  }

  const NO_PROVIDER: Provider := Provider("", "", 0, None)

  /** A provider that is acceptable by itself; `kind` is its normalised type. */
  predicate ProviderOk(base: Override, p: Provider) {
    && p.name != "" && p.kind in {"mock", "openai", "anthropic"} && p.priority >= 0
    && BreakerOk(BreakerConfigFor(base, p))
  }

  ghost predicate Distinct(ps: seq<Provider>) {
    forall i, j :: 0 <= i < j < |ps| ==> ps[i].name != ps[j].name && ps[i].priority != ps[j].priority
  }

  /** The validation accepts exactly the lists of acceptable providers whose names and priorities are
      pairwise different, with acceptable shared breaker settings. */
  method Validate(base: Override, ps: seq<Provider>) returns (err: Option<Error>)
    ensures err.None? <==>
      && ps != [] && Distinct(ps) && BreakerOk(BreakerConfigFor(base, NO_PROVIDER))
      && forall i :: 0 <= i < |ps| ==>
        && ps[i].name != "" && (ps[i].kind == "mock" || ps[i].kind == "openai" || ps[i].kind == "anthropic")
        && ps[i].priority >= 0 && BreakerOk(BreakerConfigFor(base, ps[i]))
    ensures err == Some(NoProviders) <==> ps == []
    ensures err == Some(EmptyName) ==> exists i :: 0 <= i < |ps| && ps[i].name == ""
    ensures err.Some? && err.value.BadType? ==>
      exists i :: 0 <= i < |ps| && ps[i].name == err.value.provider && ps[i].kind !in {"mock", "openai", "anthropic"}
    ensures err.Some? && err.value.NegativePriority? ==> exists i :: 0 <= i < |ps| && ps[i].name == err.value.p && ps[i].priority < 0
    ensures err.Some? && err.value.BadBreaker? ==>
      exists i :: 0 <= i < |ps| && ps[i].name == err.value.who && !BreakerOk(BreakerConfigFor(base, ps[i]))
    ensures err == Some(BadSharedBreaker) ==> !BreakerOk(BreakerConfigFor(base, NO_PROVIDER))
    ensures err.Some? && err.value.DuplicateName? ==>
      exists i, j :: 0 <= i < j < |ps| && ps[i].name == ps[j].name == err.value.name
    ensures err.Some? && err.value.DuplicatePriority? ==>
      exists i, j :: 0 <= i < j < |ps| && ps[i].priority == ps[j].priority == err.value.priority
  {
    if |ps| == 0 {
      return Some(NoProviders);
    }
    var names: set<string> := {};
    var priorities: set<int> := {};
    for n := 0 to |ps|
      invariant Distinct(ps[..n])
      invariant forall i :: 0 <= i < n ==> ProviderOk(base, ps[i])
      invariant forall s :: s in names <==> exists i :: 0 <= i < n && ps[i].name == s
      invariant forall k :: k in priorities <==> exists i :: 0 <= i < n && ps[i].priority == k
    {
      var p := ps[n];
      if p.name == "" {
        return Some(EmptyName);
      }
      if p.name in names {
        return Some(DuplicateName(p.name));
      }
      names := names + {p.name};
      if p.kind !in {"mock", "openai", "anthropic"} {
        return Some(BadType(p.name));
      }
      if p.priority < 0 {
        return Some(NegativePriority(p.name));
      }
      if p.priority in priorities {
        return Some(DuplicatePriority(p.priority));
      }
      priorities := priorities + {p.priority};
      if !BreakerOk(BreakerConfigFor(base, p)) {
        return Some(BadBreaker(p.name));
      }
    }
    assert ps[..|ps|] == ps;
    if !BreakerOk(BreakerConfigFor(base, NO_PROVIDER)) {
      return Some(BadSharedBreaker);
    }
    return None;
  }

  ghost predicate ByPriority(ps: seq<Provider>) {
    forall i, j :: 0 <= i < j < |ps| ==> ps[i].priority < ps[j].priority
  }

  function InsertByPriority(p: Provider, ps: seq<Provider>): seq<Provider> {
    if ps == [] then [p]
    else if ps[|ps| - 1].priority <= p.priority then ps + [p]
    else InsertByPriority(p, ps[..|ps| - 1]) + [ps[|ps| - 1]]
  }

  /** The configured order. */
  function SortByPriority(ps: seq<Provider>): seq<Provider> {
    if ps == [] then [] else InsertByPriority(ps[|ps| - 1], SortByPriority(ps[..|ps| - 1]))
  }

  lemma {:induction false} InsertKeepsAll(p: Provider, ps: seq<Provider>)
    ensures multiset(InsertByPriority(p, ps)) == multiset(ps) + multiset{p}
    ensures forall q :: q in InsertByPriority(p, ps) <==> q == p || q in ps
  {
    if ps != [] && ps[|ps| - 1].priority > p.priority {
      InsertKeepsAll(p, ps[..|ps| - 1]);
    }
    assert ps != [] ==> ps == ps[..|ps| - 1] + [ps[|ps| - 1]];
  }

  lemma {:induction false} InsertSorts(p: Provider, ps: seq<Provider>)
    requires ByPriority(ps) && forall i :: 0 <= i < |ps| ==> ps[i].priority != p.priority
    ensures ByPriority(InsertByPriority(p, ps))
  {
    if ps != [] && ps[|ps| - 1].priority > p.priority {
      var init, last := ps[..|ps| - 1], ps[|ps| - 1];
      InsertSorts(p, init);
      InsertKeepsAll(p, init);
      var r := InsertByPriority(p, init);
      forall i | 0 <= i < |r| ensures r[i].priority < last.priority {
        assert r[i] in r;
      }
    }
  }

  /** Loading a validated configuration yields the same providers in strictly ascending priority. */
  lemma {:induction false} SortOrders(ps: seq<Provider>)
    requires Distinct(ps)
    ensures ByPriority(SortByPriority(ps))
    ensures multiset(SortByPriority(ps)) == multiset(ps)
    ensures forall p :: p in SortByPriority(ps) <==> p in ps
  {
    if ps != [] {
      var init, last := ps[..|ps| - 1], ps[|ps| - 1];
      assert ps == init + [last];
      SortOrders(init);
      var s := SortByPriority(init);
      forall i | 0 <= i < |s| ensures s[i].priority != last.priority {
        assert s[i] in s;
      }
      InsertSorts(last, s);
      InsertKeepsAll(last, s);
    }
  }

  /** The last of two strictly ordered lists of the same providers is the same. */
  lemma LastIsUnique(a: seq<Provider>, b: seq<Provider>)
    requires ByPriority(a) && ByPriority(b) && a != [] && b != []
    requires forall p :: p in a <==> p in b
    ensures a[|a| - 1] == b[|b| - 1]
  {
    var x, y := a[|a| - 1], b[|b| - 1];
    assert x in b && y in a;
    var i :| 0 <= i < |b| && b[i] == x;
    var j :| 0 <= j < |a| && a[j] == y;
  }

  /** The order is unique, so an unstable sort gives the same list. */
  lemma {:induction false} OrderIsUnique(a: seq<Provider>, b: seq<Provider>)
    requires ByPriority(a) && ByPriority(b) && forall p :: p in a <==> p in b
    ensures a == b
  {
    assert a != [] ==> a[0] in a;
    assert b != [] ==> b[0] in b;
    if a != [] && b != [] {
      LastIsUnique(a, b);
      var x := a[|a| - 1];
      var a', b' := a[..|a| - 1], b[..|b| - 1];
      assert a == a' + [x] && b == b' + [x];
      assert x !in a' && x !in b';
      forall p
        ensures p in a' <==> p in b'
      {
        assert p in a <==> p in a' || p == x;
        assert p in b <==> p in b' || p == x;
      }
      OrderIsUnique(a', b');
    }
  }

  /** The selection loop: the configured providers on the key's allowlist, in configured order. */
  method AllowedProviders(configured: seq<Provider>, allow: seq<string>) returns (out: seq<Provider>)
    ensures out == Selected(configured, allow)
  {
    out := [];
    for i := 0 to |configured|
      invariant out == Selected(configured[..i], allow)
    {
      var p := configured[i];
      assert configured[..i + 1][..i] == configured[..i];
      var hit := false;
      for k := 0 to |allow|
        invariant hit <==> p.name in allow[..k]
      {
        if allow[k] == p.name {
          hit := true;
          assert p.name in allow;
          break;
        }
      }
      if hit {
        out := out + [p];
      }
    }
    assert configured[..|configured|] == configured;
  }

  function Selected(configured: seq<Provider>, allow: seq<string>): seq<Provider> {
    if configured == [] then []
    else
      Selected(configured[..|configured| - 1], allow)
      + (if configured[|configured| - 1].name in allow then [configured[|configured| - 1]] else [])
  }

  lemma {:induction false} SelectedMembers(configured: seq<Provider>, allow: seq<string>)
    ensures forall p :: p in Selected(configured, allow) <==> p in configured && p.name in allow
  {
    if configured != [] {
      var init, last := configured[..|configured| - 1], configured[|configured| - 1];
      SelectedMembers(init, allow);
      assert configured == init + [last];
    }
  }

  lemma {:induction false} SelectedOrder(configured: seq<Provider>, allow: seq<string>)
    requires ByPriority(configured) && Distinct(configured)
    ensures ByPriority(Selected(configured, allow)) && Distinct(Selected(configured, allow))
  {
    if configured != [] {
      var init, last := configured[..|configured| - 1], configured[|configured| - 1];
      SelectedOrder(init, allow);
      SelectedMembers(init, allow);
      var out := Selected(init, allow);
      assert Selected(configured, allow) == out + (if last.name in allow then [last] else []);
      hide Selected;
      forall i | 0 <= i < |out|
        ensures out[i].priority < last.priority && out[i].name != last.name
      {
        assert out[i] in out;
        var k :| 0 <= k < |init| && init[k] == out[i];
        assert configured[k] == out[i];
      }
    }
  }

  /** The providers a stream may use: exactly the allowed ones, in strictly ascending priority, with
      distinct non-empty names: the order in which the cascade tries them. */
  lemma SelectionIsOrdered(configured: seq<Provider>, allow: seq<string>)
    requires ByPriority(configured) && Distinct(configured)
    requires forall i :: 0 <= i < |configured| ==> configured[i].name != ""
    ensures var out := Selected(configured, allow);
      && (forall p :: p in out <==> p in configured && p.name in allow)
      && ByPriority(out) && Distinct(out)
      && (forall i :: 0 <= i < |out| ==> out[i].name != "")
  {
    hide ByPriority, Distinct, Selected;
    SelectedOrder(configured, allow);
    SelectedMembers(configured, allow);
    var out := Selected(configured, allow);
    forall i | 0 <= i < |out| ensures out[i].name != "" {
      assert out[i] in out;
    }
  }
}
