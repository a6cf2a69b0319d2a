/** The sliding-window limiter.  Each key's events live in a slice over a backing array that is
    compacted in place by every call and appended to by `Add`; it must agree with the whole history
    of calls. */
module RateLimit {

  datatype Event = Event(at: int, tokens: int)

  /** A Go slice header: the first `len` elements of a backing array. */
  datatype Slice = Slice(data: array<Event>, len: nat)

  datatype Call = AdmitCall(key: string, now: int) | AddCall(key: string, tokens: int, now: int)

  // ---- Reference definitions ----

  function Survivors(es: seq<Event>, cutoff: int): seq<Event> {
    if es == [] then []
    else Survivors(es[..|es| - 1], cutoff) + (if es[|es| - 1].at > cutoff then [es[|es| - 1]] else [])
  }

  function Tokens(es: seq<Event>): int {
    if es == [] then 0 else Tokens(es[..|es| - 1]) + es[|es| - 1].tokens
  }

  /** Calls that reach the cache of a key: an `Add` of no tokens returns at once. */
  predicate Touches(c: Call, key: string) {
    c.key == key && (c.AddCall? ==> c.tokens > 0)
  }

  /** What one call does to the cache of a key. */
  function Absorb(window: int, es: seq<Event>, c: Call, key: string): seq<Event> {
    if !Touches(c, key) then es
    else Survivors(es, c.now - window) + (if c.AddCall? then [Event(c.now, c.tokens)] else [])
  }

  /** The cache of a key after the calls `h`. */
  function Cached(window: int, h: seq<Call>, key: string): seq<Event> {
    if h == [] then []
    else
      Absorb(window, Cached(window, h[..|h| - 1], key), h[|h| - 1], key)
  }

  lemma SurvivorsStep(es: seq<Event>, i: nat, cutoff: int)
    requires i < |es|
    ensures Survivors(es[..i + 1], cutoff) == Survivors(es[..i], cutoff) + (if es[i].at > cutoff then [es[i]] else [])
  {
    assert es[..i + 1][..i] == es[..i];
  }

  lemma TokensSnoc(es: seq<Event>, e: Event)
    ensures Tokens(es + [e]) == Tokens(es) + e.tokens
  {
    assert (es + [e])[..|es|] == es;
  }

  /** The pruning loop: the survivors move to the front of the same array. */
  method Compact(data: array<Event>, n: nat, cutoff: int) returns (m: nat, total: int)
    requires n <= data.Length
    modifies data
    ensures m <= n && data[..m] == Survivors(old(data[..n]), cutoff)
    ensures total == Tokens(data[..m])
  {
    hide Survivors, Tokens;
    ghost var es := data[..n];
    m, total := 0, 0;
    EmptyFacts(cutoff);
    for i := 0 to n
      invariant m <= i
      invariant forall j :: i <= j < n ==> data[j] == es[j]
      invariant data[..m] == Survivors(es[..i], cutoff)
      invariant total == Tokens(data[..m])
    {
      SurvivorsStep(es, i, cutoff);
      var e := data[i];
      if e.at > cutoff {
        ghost var kept := data[..m];
        data[m] := e;
        m := m + 1;
        total := total + e.tokens;
        assert data[..m] == kept + [e];
        TokensSnoc(kept, e);
      }
    }
    assert es[..n] == es;
  }

  // ---- The object ----

  class Limiter {
    const window: int
    const limit: int
    var byKey: map<string, Slice>
    ghost var calls: seq<Call>

    ghost function Repr(): set<object>
      reads this
    {
      set k | k in byKey :: byKey[k].data
    }

    /** The events a key's slice holds. */
    ghost function Held(key: string): seq<Event>
      reads this, Repr()
      requires key in byKey ==> byKey[key].len <= byKey[key].data.Length
    {
      if key in byKey then byKey[key].data[..byKey[key].len] else []
    }

    /** Slices are within their arrays and no two keys share one. */
    ghost predicate Separate()
      reads this
    {
      && (forall k :: k in byKey ==> byKey[k].len <= byKey[k].data.Length)
      && (forall k, l :: k in byKey && l in byKey && k != l ==> byKey[k].data != byKey[l].data)
    }

    ghost predicate Valid()
      reads this, Repr()
    {
      && Separate()
      && forall key :: Held(key) == Cached(window, calls, key)
    }

    constructor (window: int, limit: int)
      ensures Valid() && calls == [] && fresh(Repr())
      ensures this.window == (if window <= 0 then 60_000_000_000 else window)
      ensures this.limit == (if limit <= 0 then 0x1000_0000_0000_0000 else limit)
    {
      this.window := if window <= 0 then 60_000_000_000 else window;
      this.limit := if limit <= 0 then 0x1000_0000_0000_0000 else limit;
      byKey, calls := map[], [];
    }

    /** Compacts a key's slice in place. */
    method PruneLocked(key: string, now: int) returns (out: Slice, total: int)
      requires Separate()
      modifies if key in byKey then {byKey[key].data} else {}
      ensures key in byKey ==> out.data == byKey[key].data
      ensures key !in byKey ==> fresh(out.data)
      ensures out.len <= out.data.Length
      ensures out.data[..out.len] == Survivors(old(Held(key)), now - window)
      ensures total == Tokens(out.data[..out.len])
    {
      if key !in byKey {
        var empty := new Event[0];
        return Slice(empty, 0), 0;
      }
      var data := byKey[key].data;
      var m: nat;
      m, total := Compact(data, byKey[key].len, now - window);
      out := Slice(data, m);
    }

    /** Every key but `key` is as the history says, and `out` shares no array with them. */
    ghost predicate ReadyFor(key: string, out: Slice)
      reads this, Repr()
    {
      && Separate() && out.len <= out.data.Length
      && (forall k :: k in byKey && k != key ==> byKey[k].data != out.data)
      && (forall k :: k != key ==> Held(k) == Cached(window, calls, k))
    }

    /** Writes a key's slice back at the end of the call `c`. */
    method Install(key: string, out: Slice, ghost c: Call)
      requires ReadyFor(key, out) && c.key == key && Touches(c, key)
      requires out.data[..out.len] == Absorb(window, Cached(window, calls, key), c, key)
      modifies this
      ensures Valid() && calls == old(calls) + [c] && byKey == old(byKey)[key := out]
    {
      hide Cached, Absorb;
      CachedSnoc(window, calls, c);
      forall k | k != key
        ensures Cached(window, calls + [c], k) == Cached(window, calls, k)
      {
        AbsorbElsewhere(window, Cached(window, calls, k), c, k);
      }
      byKey := byKey[key := out];
      calls := calls + [c];
    }

    method Admit(key: string, now: int) returns (admitted: bool)
      requires Valid()
      modifies this, Repr()
      ensures Valid() && calls == old(calls) + [AdmitCall(key, now)]
      ensures admitted <==> Tokens(Survivors(old(Held(key)), now - window)) < limit
      ensures forall k :: k != key ==> (k in byKey <==> k in old(byKey)) && (k in byKey ==> byKey[k] == old(byKey)[k])
      ensures key in byKey && (byKey[key].data in old(Repr()) || fresh(byKey[key].data))
    {
      hide Cached, Survivors, Tokens;
      var out, total := PruneLocked(key, now);
      assert ReadyFor(key, out);
      assert out.data[..out.len] + [] == out.data[..out.len];
      Install(key, out, AdmitCall(key, now));
      admitted := total < limit;
    }

    method Add(key: string, tokens: int, now: int)
      requires Valid()
      modifies this, Repr()
      ensures Valid() && calls == old(calls) + [AddCall(key, tokens, now)]
      ensures forall k :: k != key ==> (k in byKey <==> k in old(byKey)) && (k in byKey ==> byKey[k] == old(byKey)[k])
      ensures key in byKey ==> byKey[key].data in old(Repr()) || fresh(byKey[key].data)
    {
      hide Cached, Survivors, Tokens;
      if tokens <= 0 {
        CachedSnoc(window, calls, AddCall(key, tokens, now));
        calls := calls + [AddCall(key, tokens, now)];
        return;
      }
      var out, _ := PruneLocked(key, now);
      assert ReadyFor(key, out);
      out := Append(out, Event(now, tokens));
      assert ReadyFor(key, out);
      Install(key, out, AddCall(key, tokens, now));
    }
  }

  lemma AbsorbElsewhere(window: int, es: seq<Event>, c: Call, k: string)
    requires c.key != k
    ensures Absorb(window, es, c, k) == es
  {
  }

  /** Go's `append`: in place when the array has room, into a copy when not. */
  method Append(s: Slice, e: Event) returns (r: Slice)
    requires s.len <= s.data.Length
    modifies s.data
    ensures r.len == s.len + 1 <= r.data.Length && (r.data == s.data || fresh(r.data))
    ensures r.data[..r.len] == old(s.data[..s.len]) + [e]
  {
    if s.len < s.data.Length {
      s.data[s.len] := e;
      r := Slice(s.data, s.len + 1);
    } else {
      var bigger := new Event[2 * s.len + 1](_ => e);
      for i := 0 to s.len
        invariant forall j :: 0 <= j < i ==> bigger[j] == s.data[j]
        invariant bigger[s.len] == e
        modifies bigger
      {
        bigger[i] := s.data[i];
      }
      r := Slice(bigger, s.len + 1);
    }
  }

  lemma CachedSnoc(window: int, h: seq<Call>, c: Call)
    ensures forall key :: Cached(window, h + [c], key) == Absorb(window, Cached(window, h, key), c, key)
  {
    assert (h + [c])[..|h|] == h;
  }

  // ---- Agreement with the full history ----

  /** Call `i` added an event to the key that no later call on the key found expired. */
  predicate Live(window: int, h: seq<Call>, key: string, i: nat)
    requires i < |h|
  {
    && h[i].AddCall? && h[i].key == key && h[i].tokens > 0
    && forall j :: i < j < |h| && h[j].key == key && (h[j].AddCall? ==> h[j].tokens > 0) ==>
         h[i].now > h[j].now - window
  }

  /** The live events among the first `n` calls, in call order. */
  function LiveEvents(window: int, h: seq<Call>, key: string, n: nat): seq<Event>
    requires n <= |h|
  {
    if n == 0 then []
    else
      LiveEvents(window, h, key, n - 1)
      + (if Live(window, h, key, n - 1) then [Event(h[n - 1].now, h[n - 1].tokens)] else [])
  }

  lemma LiveSnoc(window: int, h: seq<Call>, c: Call, key: string, i: nat)
    requires i < |h|
    ensures Live(window, h + [c], key, i) <==> Live(window, h, key, i) && (Touches(c, key) ==> h[i].now > c.now - window)
  {
    var g := h + [c];
    assert g[i] == h[i] && g[|h|] == c;
    assert forall j :: i < j < |h| ==> g[j] == h[j];
  }

  lemma {:induction false} LiveEventsStep(window: int, h: seq<Call>, c: Call, key: string, n: nat)
    requires n <= |h|
    ensures LiveEvents(window, h + [c], key, n) ==
            if Touches(c, key) then Survivors(LiveEvents(window, h, key, n), c.now - window)
            else LiveEvents(window, h, key, n)
  {
    hide Survivors, Touches, Live;
    if n == 0 {
      EmptyFacts(c.now - window);
    } else {
      LiveEventsStep(window, h, c, key, n - 1);
      LiveSnoc(window, h, c, key, n - 1);
      assert (h + [c])[n - 1] == h[n - 1];
      var before := LiveEvents(window, h, key, n - 1);
      if Live(window, h, key, n - 1) {
        LiveIsAdd(window, h, key, n - 1);
        SurvivorsSnoc(before, Event(h[n - 1].now, h[n - 1].tokens), c.now - window);
      } else {
        assert before + [] == before;
      }
    }
  }

  lemma LiveIsAdd(window: int, h: seq<Call>, key: string, i: nat)
    requires i < |h| && Live(window, h, key, i)
    ensures h[i].AddCall?
  {
  }

  /** For any calls in any clock order: what a key's slice holds is exactly the events added for it
      whose time lies after `now - window` of every later call on that key. */
  lemma {:induction false} CacheIsLiveEvents(window: int, h: seq<Call>, key: string)
    ensures Cached(window, h, key) == LiveEvents(window, h, key, |h|)
  {
    if h != [] {
      var n := |h| - 1;
      var p, c := h[..n], h[n];
      assert h == p + [c];
      CacheIsLiveEvents(window, p, key);
      LiveEventsStep(window, p, c, key, n);
      assert Live(window, h, key, n) <==> Touches(c, key) && c.AddCall?;
    }
  }

  /** Tokens added for the key after time `lo`, straight from the history. */
  function NaiveSum(h: seq<Call>, key: string, lo: int): int {
    if h == [] then 0
    else
      var c := h[|h| - 1];
      NaiveSum(h[..|h| - 1], key, lo) + (if c.AddCall? && c.key == key && c.tokens > 0 && c.now > lo then c.tokens else 0)
  }

  lemma {:induction false} SurvivorsTwice(es: seq<Event>, a: int, b: int)
    requires a <= b
    ensures Survivors(Survivors(es, a), b) == Survivors(es, b)
  {
    if es != [] {
      var p, e := es[..|es| - 1], es[|es| - 1];
      SurvivorsTwice(p, a, b);
      if e.at > a {
        SurvivorsSnoc(Survivors(p, a), e, b);
      } else {
        assert Survivors(p, a) + [] == Survivors(p, a) && Survivors(p, b) + [] == Survivors(p, b);
      }
    }
  }

  lemma SurvivorsSnoc(es: seq<Event>, e: Event, cutoff: int)
    ensures Survivors(es + [e], cutoff) == Survivors(es, cutoff) + (if e.at > cutoff then [e] else [])
  {
    assert (es + [e])[..|es|] == es;
  }

  /** What one call adds to the sum above a cutoff that is not earlier than its own. */
  lemma AbsorbSum(window: int, es: seq<Event>, c: Call, key: string, cutoff: int)
    requires c.now - window <= cutoff
    ensures Tokens(Survivors(Absorb(window, es, c, key), cutoff)) ==
      Tokens(Survivors(es, cutoff)) + (if c.AddCall? && Touches(c, key) && c.now > cutoff then c.tokens else 0)
  {
    hide Survivors, Tokens;
    if Touches(c, key) {
      var kept := Survivors(es, c.now - window);
      SurvivorsTwice(es, c.now - window, cutoff);
      if c.AddCall? {
        var e := Event(c.now, c.tokens);
        SurvivorsSnoc(kept, e, cutoff);
        TokensSnoc(Survivors(es, cutoff), e);
        assert Survivors(es, cutoff) + [] == Survivors(es, cutoff);
      } else {
        assert kept + [] == kept;
      }
    }
  }

  lemma EmptyFacts(cutoff: int)
    ensures Survivors([], cutoff) == [] && Tokens([]) == 0
  {
  }

  lemma {:induction false} CacheSum(window: int, h: seq<Call>, key: string, cutoff: int)
    requires forall i :: 0 <= i < |h| ==> h[i].now - window <= cutoff
    ensures Tokens(Survivors(Cached(window, h, key), cutoff)) == NaiveSum(h, key, cutoff)
  {
    hide Survivors, Tokens, Absorb;
    if h == [] {
      EmptyFacts(cutoff);
    } else {
      CacheSum(window, h[..|h| - 1], key, cutoff);
      AbsorbSum(window, Cached(window, h[..|h| - 1], key), h[|h| - 1], key, cutoff);
    }
  }

  ghost predicate Monotone(h: seq<Call>) {
    forall i, j :: 0 <= i < j < |h| ==> h[i].now <= h[j].now
  }

  /** The decision `Admit` takes (the sum its `ensures` compares with the limit): with a clock that
      never goes back it is the naive sum of the key's tokens over the last window. */
  lemma AdmitSeesNaiveWindow(window: int, h: seq<Call>, key: string, now: int)
    requires Monotone(h + [AdmitCall(key, now)])
    ensures Tokens(Survivors(Cached(window, h, key), now - window)) == NaiveSum(h, key, now - window)
    ensures forall i :: 0 <= i < |h| ==> h[i].now <= now
  {
    var g := h + [AdmitCall(key, now)];
    forall i | 0 <= i < |h|
      ensures h[i].now <= now
    {
      assert g[i] == h[i] && g[|h|].now == now;
    }
    CacheSum(window, h, key, now - window);
  }
}
