/** Calibration samples and the nearest-rank percentiles derived from them, in exact arithmetic. */
module Calibration {
  import opened Options

  // ---- Sorting ----

  function Insert(x: real, s: seq<real>): seq<real> {
    if s == [] then [x]
    else if s[|s| - 1] <= x then s + [x]
    else Insert(x, s[..|s| - 1]) + [s[|s| - 1]]
  }

  /** The sorted copy. */
  function Sorted(s: seq<real>): seq<real> {
    if s == [] then [] else Insert(s[|s| - 1], Sorted(s[..|s| - 1]))
  }

  ghost predicate Ascending(s: seq<real>) {
    forall i, j :: 0 <= i < j < |s| ==> s[i] <= s[j]
  }

  function AtMost(s: seq<real>, v: real): nat {
    if s == [] then 0 else AtMost(s[..|s| - 1], v) + (if s[|s| - 1] <= v then 1 else 0)
  }

  function Below(s: seq<real>, v: real): nat {
    if s == [] then 0 else Below(s[..|s| - 1], v) + (if s[|s| - 1] < v then 1 else 0)
  }

  lemma {:induction false} InsertAscends(x: real, s: seq<real>)
    requires Ascending(s)
    ensures Ascending(Insert(x, s)) && |Insert(x, s)| == |s| + 1
    ensures forall y :: y in Insert(x, s) <==> y == x || y in s
  {
    if s != [] {
      var init, last := s[..|s| - 1], s[|s| - 1];
      assert s == init + [last];
      if last > x {
        InsertAscends(x, init);
        var r := Insert(x, init);
        forall i | 0 <= i < |r| ensures r[i] <= last {
          assert r[i] in r;
        }
      }
    }
  }

  lemma {:induction false} InsertCounts(x: real, s: seq<real>, v: real)
    ensures AtMost(Insert(x, s), v) == AtMost(s, v) + (if x <= v then 1 else 0)
    ensures Below(Insert(x, s), v) == Below(s, v) + (if x < v then 1 else 0)
  {
    var r := Insert(x, s);
    assert r[..|r| - 1] == if s == [] then [] else if s[|s| - 1] <= x then s else Insert(x, s[..|s| - 1]);
    if s != [] && s[|s| - 1] > x {
      InsertCounts(x, s[..|s| - 1], v);
    }
  }

  lemma {:induction false} SortedAscends(s: seq<real>)
    ensures Ascending(Sorted(s)) && |Sorted(s)| == |s|
    ensures forall y :: y in Sorted(s) <==> y in s
  {
    if s != [] {
      SortedAscends(s[..|s| - 1]);
      InsertAscends(s[|s| - 1], Sorted(s[..|s| - 1]));
      assert s == s[..|s| - 1] + [s[|s| - 1]];
    }
  }

  lemma {:induction false} SortedCounts(s: seq<real>, v: real)
    ensures AtMost(Sorted(s), v) == AtMost(s, v) && Below(Sorted(s), v) == Below(s, v)
  {
    if s != [] {
      SortedCounts(s[..|s| - 1], v);
      InsertCounts(s[|s| - 1], Sorted(s[..|s| - 1]), v);
    }
  }

  lemma {:induction false} RankInSorted(s: seq<real>, n: nat, i: nat)
    requires Ascending(s) && n <= |s| && i < |s|
    ensures AtMost(s[..n], s[i]) >= (if n <= i + 1 then n else i + 1)
    ensures Below(s[..n], s[i]) <= (if n <= i then n else i)
  {
    if n > 0 {
      RankInSorted(s, n - 1, i);
      assert s[..n][..n - 1] == s[..n - 1];
    }
  }

  // ---- Nearest rank ----

  function Ceil(x: real): (r: int)
    ensures r as real - 1.0 < x <= r as real
  {
    -(-x).Floor
  }

  /** The rank of the percentile among `n` samples. */
  function Rank(pct: real, n: nat): int {
    Ceil(pct / 100.0 * n as real)
  }

  lemma RankInRange(pct: real, n: nat)
    requires 0.0 < pct < 100.0 && n > 0
    ensures 1 <= Rank(pct, n) <= n
  {
    assert 0.0 < pct / 100.0 < 1.0;
    assert 0.0 < pct / 100.0 * n as real < n as real;
  }

  lemma RankIsCeiling(pct: real, n: nat)
    ensures Rank(pct, n) as real - 1.0 < pct / 100.0 * n as real <= Rank(pct, n) as real
  {
  }

  lemma RankMonotone(p: real, q: real, n: nat)
    requires p <= q
    ensures Rank(p, n) <= Rank(q, n)
  {
    assert p / 100.0 <= q / 100.0;
    assert p / 100.0 * n as real <= q / 100.0 * n as real;
  }

  function PercentileOf(samples: seq<real>, pct: real): Option<real> {
    var values := Sorted(samples);
    if |values| == 0 then None
    else if pct <= 0.0 then Some(values[0])
    else if pct >= 100.0 then Some(values[|values| - 1])
    else
      var idx := Rank(pct, |values|) - 1;
      Some(values[if idx < 0 then 0 else if idx >= |values| then |values| - 1 else idx])
  }

  /** The nearest-rank property: the result is a sample, at least the rank's number of samples are
      at or below it and fewer are strictly below. */
  lemma PercentileIsNearestRank(samples: seq<real>, pct: real)
    requires 0.0 < pct < 100.0 && samples != []
    ensures var r := PercentileOf(samples, pct);
      && r.Some? && r.value in samples
      && AtMost(samples, r.value) >= Rank(pct, |samples|) > Below(samples, r.value)
      && AtMost(samples, r.value) as real >= pct / 100.0 * |samples| as real > Below(samples, r.value) as real
  {
    hide Sorted, Rank, AtMost, Below;
    SortedAscends(samples);
    RankInRange(pct, |samples|);
    RankIsCeiling(pct, |samples|);
    var v := Sorted(samples);
    var i := Rank(pct, |samples|) - 1;
    assert PercentileOf(samples, pct) == Some(v[i]) && v[i] in v;
    SortedCounts(samples, v[i]);
    RankInSorted(v, |v|, i);
    assert v[..|v|] == v;
  }

  /** Outside that range it is the least or the greatest sample. */
  lemma PercentileExtremes(samples: seq<real>, pct: real)
    requires samples != [] && (pct <= 0.0 || pct >= 100.0)
    ensures var r := PercentileOf(samples, pct);
      && r.Some? && r.value in samples
      && forall y :: y in samples ==> if pct <= 0.0 then r.value <= y else y <= r.value
  {
    SortedAscends(samples);
    var v := Sorted(samples);
    assert forall y :: y in samples ==> y in v;
    assert v[0] in v && v[|v| - 1] in v;
  }

  /** A higher percentile never gives a smaller value. */
  lemma PercentileMonotone(samples: seq<real>, p: real, q: real)
    requires p <= q && samples != []
    ensures PercentileOf(samples, p).Some? && PercentileOf(samples, q).Some?
    ensures PercentileOf(samples, p).value <= PercentileOf(samples, q).value
  {
    SortedAscends(samples);
    RankMonotone(p, q, |samples|);
  }

  lemma PercentileExists(samples: seq<real>, pct: real)
    ensures PercentileOf(samples, pct).Some? <==> samples != []
  {
    SortedAscends(samples);
  }

  // ---- The logger ----

  function Clamp(v: real, min: real, max: real): (r: real)
    ensures min <= max ==> min <= r <= max
    ensures min <= v <= max ==> r == v
    ensures min <= max ==> (v < min ==> r == min) && (v > max ==> r == max)
  {
    if v < min then min else if v > max then max else v
  }

  datatype Derived = Derived(raw: real, final: real, clamped: bool, sampleCount: nat)

  class Logger {
    var samples: map<string, seq<real>>

    constructor ()
      ensures samples == map[]
    {
      samples := map[];
    }

    function Of(kind: string): seq<real>
      reads this
    {
      if kind in samples then samples[kind] else []
    }

    method Sample(kind: string, value: real)
      modifies this
      ensures Of(kind) == old(Of(kind)) + (if value < 0.0 then [] else [value])
      ensures forall k :: k != kind ==> Of(k) == old(Of(k))
    {
      if value < 0.0 {
        return;
      }
      samples := samples[kind := Of(kind) + [value]];
    }

    method Percentile(kind: string, pct: real) returns (r: Option<real>)
      ensures r == PercentileOf(Of(kind), pct)
    {
      var values := Sorted(Of(kind));
      if |values| == 0 {
        return None;
      }
      if pct <= 0.0 {
        return Some(values[0]);
      }
      if pct >= 100.0 {
        return Some(values[|values| - 1]);
      }
      var idx := Ceil(pct / 100.0 * |values| as real) - 1;
      if idx < 0 {
        idx := 0;
      }
      if idx >= |values| {
        idx := |values| - 1;
      }
      return Some(values[idx]);
    }

    /** The derived deadline exists once there is a sample and stays within [1000, 15000] ms; it is
        the scaled 99th percentile whenever that is in range. */
    method SilentHangDeadline(multiplier: real) returns (d: Option<Derived>)
      ensures d.Some? <==> Of("inter_token_gap") != []
      ensures d.Some? ==>
        && 1000.0 <= d.value.final <= 15000.0
        && d.value.raw == PercentileOf(Of("inter_token_gap"), 99.0).value * (if multiplier <= 0.0 then 5.0 else multiplier)
        && (d.value.clamped <==> !(1000.0 <= d.value.raw <= 15000.0))
        && (!d.value.clamped ==> d.value.final == d.value.raw)
        && (d.value.raw < 1000.0 ==> d.value.final == 1000.0) && (d.value.raw > 15000.0 ==> d.value.final == 15000.0)
        && d.value.sampleCount == |Of("inter_token_gap")|
    {
      var m := if multiplier <= 0.0 then 5.0 else multiplier;
      hide PercentileOf;
      PercentileExists(Of("inter_token_gap"), 99.0);
      var p99 := Percentile("inter_token_gap", 99.0);
      if p99.None? {
        return None;
      }
      var raw := p99.value * m;
      var final := Clamp(raw, 1000.0, 15000.0);
      return Some(Derived(raw, final, raw != final, |Of("inter_token_gap")|));
    }

    /** The derived drift threshold stays within [1, 25] percent. */
    method DriftThreshold() returns (d: Option<Derived>)
      ensures d.Some? <==> Of("drift") != []
      ensures d.Some? ==>
        && 1.0 <= d.value.final <= 25.0
        && d.value.raw == PercentileOf(Of("drift"), 95.0).value
        && (d.value.clamped <==> !(1.0 <= d.value.raw <= 25.0))
        && (!d.value.clamped ==> d.value.final == d.value.raw)
        && (d.value.raw < 1.0 ==> d.value.final == 1.0) && (d.value.raw > 25.0 ==> d.value.final == 25.0)
        && d.value.sampleCount == |Of("drift")|
    {
      hide PercentileOf;
      PercentileExists(Of("drift"), 95.0);
      var p95 := Percentile("drift", 95.0);
      if p95.None? {
        return None;
      }
      var final := Clamp(p95.value, 1.0, 25.0);
      return Some(Derived(p95.value, final, p95.value != final, |Of("drift")|));
    }
  }
}
