/** The billing ledger: one entry per key hash and billing period, updated in place; summaries must
    agree with the whole history of terminal records. */
module Ledger {
  import opened Options

  /** The arguments of one `RecordTerminal` call. */
  datatype Terminal = Terminal(hash: string, provider: string, at: int, tokens: int, truncated: bool)

  datatype Entry = Entry(
    hash: string, period: string, tokensBilled: int, truncatedRequests: int,
    lastReconciledAt: Option<int>, driftFlag: bool, providerTokens: map<string, int>)

  datatype Summary = Summary(
    apiKey: string, tokensBilled: int, truncatedRequests: int, lastReconciledAt: Option<int>, driftFlag: bool)

  function Key(hash: string, period: string): string {
    hash + "|" + period
  }

  /** Free of the separator, as a billing period is: a time, a slash and a duration. */
  predicate Plain(period: string) {
    '|' !in period
  }

  /** The period follows the last separator, so a key determines its hash and its period, whatever
      the hash. */
  lemma KeyInjective(h1: string, p1: string, h2: string, p2: string)
    requires Plain(p1) && Plain(p2)
    ensures Key(h1, p1) == Key(h2, p2) <==> h1 == h2 && p1 == p2
  {
    var k1, k2 := Key(h1, p1), Key(h2, p2);
    if k1 == k2 {
      assert k1[|h1|] == '|' && k2[|h2|] == '|';
      assert k1[|h1| + 1..] == p1 && k2[|h2| + 1..] == p2;
      assert forall i :: |h1| < i < |k1| ==> k1[i] == p1[i - |h1| - 1];
      assert forall i :: |h2| < i < |k2| ==> k2[i] == p2[i - |h2| - 1];
      assert |h1| == |h2|;
      assert k1[..|h1|] == h1 && k2[..|h2|] == h2;
    }
  }

  // ---- The history ----

  function Billing(t: Terminal): (n: int)
    ensures t.tokens >= 0 ==> n == t.tokens
    ensures t.tokens < 0 ==> n == 0
  {
    if t.tokens < 0 then 0 else t.tokens
  }

  function Truncation(t: Terminal): (n: int)
    ensures n == 0 || n == 1
    ensures n == 1 <==> t.truncated
  {
    if t.truncated then 1 else 0
  }

  /** Sum of `w` over all records of a key hash. */
  function Total(h: seq<Terminal>, hash: string, w: Terminal -> int): int {
    if h == [] then 0
    else
      var t := h[|h| - 1];
      Total(h[..|h| - 1], hash, w) + (if t.hash == hash then w(t) else 0)
  }

  /** The part of it that went into the entries `keys`; `f` gives the billing period of a time. */
  function Part(f: int -> string, h: seq<Terminal>, hash: string, keys: set<string>, w: Terminal -> int): int {
    if h == [] then 0
    else
      var t := h[|h| - 1];
      Part(f, h[..|h| - 1], hash, keys, w) + (if t.hash == hash && Key(hash, f(t.at)) in keys then w(t) else 0)
  }

  /** The tokens of one entry that belong to one of the providers `ps`. */
  function ProviderPart(f: int -> string, h: seq<Terminal>, hash: string, k: string, ps: seq<string>): int {
    if h == [] then 0
    else
      var t := h[|h| - 1];
      ProviderPart(f, h[..|h| - 1], hash, k, ps)
      + (if t.hash == hash && Key(hash, f(t.at)) == k && t.provider != "" && t.provider in ps then Billing(t) else 0)
  }

  // ---- Consistency of the entries with the history ----

  ghost predicate EntryOk(f: int -> string, h: seq<Terminal>, k: string, e: Entry) {
    && Plain(e.period) && k == Key(e.hash, e.period)
    && e.tokensBilled == Part(f, h, e.hash, {k}, Billing)
    && e.truncatedRequests == Part(f, h, e.hash, {k}, Truncation)
    && (forall p :: p in e.providerTokens ==> e.providerTokens[p] > 0)
    && (forall p :: (if p in e.providerTokens then e.providerTokens[p] else 0) == ProviderPart(f, h, e.hash, k, [p]))
  }

  ghost predicate PlainPeriods(f: int -> string) {
    forall t :: Plain(f(t))
  }

  ghost predicate Consistent(f: int -> string, h: seq<Terminal>, m: map<string, Entry>) {
    && PlainPeriods(f)
    && (forall k :: k in m ==> EntryOk(f, h, k, m[k]))
    && (forall i :: 0 <= i < |h| ==> Key(h[i].hash, f(h[i].at)) in m)
  }

  lemma PeriodIsPlain(f: int -> string, h: seq<Terminal>, m: map<string, Entry>, at: int)
    requires Consistent(f, h, m)
    ensures Plain(f(at))
  {
  }

  function NewEntry(hash: string, period: string): Entry {
    Entry(hash, period, 0, 0, None, false, map[])
  }

  function Get(m: map<string, Entry>, hash: string, period: string): Entry {
    if Key(hash, period) in m then m[Key(hash, period)] else NewEntry(hash, period)
  }

  /** One record applied to an entry. */
  function Charged(e: Entry, t: Terminal): Entry {
    var n := Billing(t);
    e.(tokensBilled := e.tokensBilled + n,
       providerTokens :=
         if t.provider != "" && n > 0
         then e.providerTokens[t.provider := n + if t.provider in e.providerTokens then e.providerTokens[t.provider] else 0]
         else e.providerTokens,
       truncatedRequests := e.truncatedRequests + (if t.truncated then 1 else 0))
  }

  lemma {:induction false} PartOther(f: int -> string, h: seq<Terminal>, hash: string, k: string, w: Terminal -> int, p: string)
    requires forall i :: 0 <= i < |h| && h[i].hash == hash ==> Key(hash, f(h[i].at)) != k
    ensures Part(f, h, hash, {k}, w) == 0 && ProviderPart(f, h, hash, k, [p]) == 0
  {
    if h != [] {
      PartOther(f, h[..|h| - 1], hash, k, w, p);
    }
  }

  /** An entry that does not exist yet would be consistent. */
  lemma NewEntryOk(f: int -> string, h: seq<Terminal>, m: map<string, Entry>, hash: string, period: string)
    requires Consistent(f, h, m) && Plain(period) && Key(hash, period) !in m
    ensures EntryOk(f, h, Key(hash, period), NewEntry(hash, period))
  {
    var k := Key(hash, period);
    PartOther(f, h, hash, k, Billing, "");
    PartOther(f, h, hash, k, Truncation, "");
    forall p ensures ProviderPart(f, h, hash, k, [p]) == 0 {
      PartOther(f, h, hash, k, Billing, p);
    }
  }

  lemma PartSnoc(f: int -> string, h: seq<Terminal>, t: Terminal, hash: string, k: string, p: string)
    ensures var here := t.hash == hash && Key(hash, f(t.at)) == k;
      && Part(f, h + [t], hash, {k}, Billing) == Part(f, h, hash, {k}, Billing) + (if here then Billing(t) else 0)
      && Part(f, h + [t], hash, {k}, Truncation) == Part(f, h, hash, {k}, Truncation) + (if here then Truncation(t) else 0)
      && ProviderPart(f, h + [t], hash, k, [p])
         == ProviderPart(f, h, hash, k, [p]) + (if here && t.provider == p != "" then Billing(t) else 0)
  {
    assert (h + [t])[..|h|] == h;
  }

  lemma ChargeKeepsEntryOk(f: int -> string, h: seq<Terminal>, k: string, e: Entry, t: Terminal)
    requires EntryOk(f, h, k, e)
    ensures t.hash == e.hash && Key(e.hash, f(t.at)) == k ==> EntryOk(f, h + [t], k, Charged(e, t))
    ensures !(t.hash == e.hash && Key(e.hash, f(t.at)) == k) ==> EntryOk(f, h + [t], k, e)
  {
    forall p
      ensures ProviderPart(f, h + [t], e.hash, k, [p]) == ProviderPart(f, h, e.hash, k, [p])
              + (if t.hash == e.hash && Key(e.hash, f(t.at)) == k && t.provider == p != "" then Billing(t) else 0)
    {
      PartSnoc(f, h, t, e.hash, k, p);
    }
    PartSnoc(f, h, t, e.hash, k, "");
  }

  lemma ChargeKeepsConsistent(f: int -> string, h: seq<Terminal>, m: map<string, Entry>, t: Terminal)
    requires Consistent(f, h, m)
    ensures var e := Get(m, t.hash, f(t.at));
      Consistent(f, h + [t], m[Key(t.hash, f(t.at)) := Charged(e, t)])
  {
    var key := Key(t.hash, f(t.at));
    var e := Get(m, t.hash, f(t.at));
    if key in m {
      KeyInjective(t.hash, f(t.at), m[key].hash, m[key].period);
    } else {
      NewEntryOk(f, h, m, t.hash, f(t.at));
    }
    ChargeKeepsEntryOk(f, h, key, e, t);
    forall k | k in m && k != key
      ensures EntryOk(f, h + [t], k, m[k])
    {
      ChargeKeepsEntryOk(f, h, k, m[k], t);
    }
  }

  /** The tokens an entry holds of a provider. */
  function Tokens(e: Entry, p: string): int {
    if p in e.providerTokens then e.providerTokens[p] else 0
  }

  /** Field by field: one entry, new or as it was, has more tokens, in total and of its provider, and
      counts the truncation; its other fields and the other entries are as before. */
  ghost predicate RecordedIn(m: map<string, Entry>, m': map<string, Entry>, key: string, hash: string, period: string,
                             provider: string, tokens: int, truncated: bool)
  {
    && m'.Keys == m.Keys + {key}
    && (forall k :: k in m && k != key ==> m'[k] == m[k])
    && var was := if key in m then m[key] else Entry(hash, period, 0, 0, None, false, map[]);
    && var now := m'[key];
    && var n := if tokens < 0 then 0 else tokens;
    && now.hash == was.hash && now.period == was.period
    && now.lastReconciledAt == was.lastReconciledAt && now.driftFlag == was.driftFlag
    && now.tokensBilled == was.tokensBilled + n
    && now.truncatedRequests == was.truncatedRequests + (if truncated then 1 else 0)
    && (forall p :: Tokens(now, p) == Tokens(was, p) + (if p == provider && p != "" then n else 0))
    && now.providerTokens.Keys == was.providerTokens.Keys + (if provider != "" && n > 0 then {provider} else {})
  }

  lemma ChargedIsRecorded(m: map<string, Entry>, hash: string, period: string, t: Terminal)
    ensures RecordedIn(m, m[Key(hash, period) := Charged(Get(m, hash, period), t)], Key(hash, period), hash, period,
                       t.provider, t.tokens, t.truncated)
  {
  }

  /** Field by field: one entry, new or as it was, has the time and the flag; all else is as before. */
  ghost predicate ReconciledIn(m: map<string, Entry>, m': map<string, Entry>, key: string, hash: string, period: string,
                               at: int, driftFlag: bool)
  {
    && m'.Keys == m.Keys + {key}
    && (forall k :: k in m && k != key ==> m'[k] == m[k])
    && var was := if key in m then m[key] else Entry(hash, period, 0, 0, None, false, map[]);
    && var now := m'[key];
    && now.lastReconciledAt == Some(at) && now.driftFlag == driftFlag
    && now.hash == was.hash && now.period == was.period && now.tokensBilled == was.tokensBilled
    && now.truncatedRequests == was.truncatedRequests && now.providerTokens == was.providerTokens
  }

  lemma ReconciledIsReconciledIn(m: map<string, Entry>, hash: string, period: string, at: int, driftFlag: bool)
    ensures ReconciledIn(m, m[Key(hash, period) := Reconciled(Get(m, hash, period), at, driftFlag)], Key(hash, period),
                         hash, period, at, driftFlag)
  {
  }

  function Reconciled(e: Entry, at: int, driftFlag: bool): Entry {
    e.(lastReconciledAt := Some(at), driftFlag := driftFlag)
  }

  lemma ReconcileKeepsConsistent(
    f: int -> string, h: seq<Terminal>, m: map<string, Entry>, hash: string, period: string, at: int, driftFlag: bool)
    requires Consistent(f, h, m) && Plain(period)
    ensures Consistent(f, h, m[Key(hash, period) := Reconciled(Get(m, hash, period), at, driftFlag)])
  {
    var key := Key(hash, period);
    if key !in m {
      NewEntryOk(f, h, m, hash, period);
    }
    assert EntryOk(f, h, key, Get(m, hash, period));
    hide Part, ProviderPart;
    assert EntryOk(f, h, key, Reconciled(Get(m, hash, period), at, driftFlag));
  }

  // ---- Summing entries in any order ----

  lemma {:induction false} PartGrows(f: int -> string, h: seq<Terminal>, hash: string, keys: set<string>, k: string, w: Terminal -> int)
    requires k !in keys
    ensures Part(f, h, hash, keys + {k}, w) == Part(f, h, hash, keys, w) + Part(f, h, hash, {k}, w)
  {
    if h != [] {
      PartGrows(f, h[..|h| - 1], hash, keys, k, w);
    }
  }

  lemma {:induction false} PartIsTotal(f: int -> string, h: seq<Terminal>, hash: string, keys: set<string>, w: Terminal -> int)
    requires forall i :: 0 <= i < |h| ==> Key(h[i].hash, f(h[i].at)) in keys
    ensures Part(f, h, hash, keys, w) == Total(h, hash, w)
  {
    if h != [] {
      PartIsTotal(f, h[..|h| - 1], hash, keys, w);
    }
  }

  /** No record of `hash` lies in another hash's entry. */
  lemma ForeignEntry(f: int -> string, h: seq<Terminal>, m: map<string, Entry>, hash: string, k: string, w: Terminal -> int)
    requires Consistent(f, h, m) && k in m && m[k].hash != hash
    ensures Part(f, h, hash, {k}, w) == 0
  {
    forall i | 0 <= i < |h| && h[i].hash == hash
      ensures Key(hash, f(h[i].at)) != k
    {
      if Key(hash, f(h[i].at)) == k {
        KeyInjective(hash, f(h[i].at), m[k].hash, m[k].period);
      }
    }
    PartOther(f, h, hash, k, w, "");
  }

  /** Later of two reconciliation times. */
  function Later(a: Option<int>, b: Option<int>): Option<int> {
    if b.Some? && (a.None? || b.value > a.value) then b else a
  }

  /** `t` is the latest reconciliation among the entries `keys` of a hash. */
  ghost predicate Latest(m: map<string, Entry>, keys: set<string>, hash: string, t: Option<int>)
    requires keys <= m.Keys
  {
    && (forall k :: k in keys && m[k].hash == hash && m[k].lastReconciledAt.Some? ==>
        t.Some? && m[k].lastReconciledAt.value <= t.value)
    && (t.Some? ==> exists k :: k in keys && m[k].hash == hash && m[k].lastReconciledAt == t)
  }

  /** `out` summarises the entries `keys` of a hash. */
  ghost predicate Sums(f: int -> string, h: seq<Terminal>, m: map<string, Entry>, hash: string, keys: set<string>, out: Summary) {
    && keys <= m.Keys
    && out.tokensBilled == Part(f, h, hash, keys, Billing)
    && out.truncatedRequests == Part(f, h, hash, keys, Truncation)
    && (out.driftFlag <==> exists k :: k in keys && m[k].hash == hash && m[k].driftFlag)
    && Latest(m, keys, hash, out.lastReconciledAt)
  }

  /** One more entry in the summary. */
  function Add(out: Summary, e: Entry, hash: string): Summary {
    if e.hash != hash then out
    else Summary(out.apiKey, out.tokensBilled + e.tokensBilled, out.truncatedRequests + e.truncatedRequests,
                 Later(out.lastReconciledAt, e.lastReconciledAt), out.driftFlag || e.driftFlag)
  }

  lemma SumsNothing(f: int -> string, h: seq<Terminal>, m: map<string, Entry>, hash: string, out: Summary)
    requires out.tokensBilled == 0 && out.truncatedRequests == 0 && out.lastReconciledAt.None? && !out.driftFlag
    ensures Sums(f, h, m, hash, {}, out)
  {
    PartEmpty(f, h, hash);
  }

  lemma SumsOneMore(f: int -> string, h: seq<Terminal>, m: map<string, Entry>, hash: string, keys: set<string>, out: Summary, k: string)
    requires Consistent(f, h, m) && Sums(f, h, m, hash, keys, out) && k in m && k !in keys
    ensures Sums(f, h, m, hash, keys + {k}, Add(out, m[k], hash))
  {
    PartGrows(f, h, hash, keys, k, Billing);
    PartGrows(f, h, hash, keys, k, Truncation);
    assert EntryOk(f, h, k, m[k]);
    if m[k].hash != hash {
      ForeignEntry(f, h, m, hash, k, Billing);
      ForeignEntry(f, h, m, hash, k, Truncation);
    }
    hide Part, ProviderPart, Consistent;
    var out' := Add(out, m[k], hash);
    assert Latest(m, keys + {k}, hash, out'.lastReconciledAt) by {
      LatestOneMore(m, keys, hash, out.lastReconciledAt, k);
    }
  }

  lemma LatestOneMore(m: map<string, Entry>, keys: set<string>, hash: string, t: Option<int>, k: string)
    requires keys <= m.Keys && k in m && Latest(m, keys, hash, t)
    ensures Latest(m, keys + {k}, hash, if m[k].hash == hash then Later(t, m[k].lastReconciledAt) else t)
  {
  }

  lemma SumsEverything(f: int -> string, h: seq<Terminal>, m: map<string, Entry>, hash: string, out: Summary)
    requires Consistent(f, h, m) && Sums(f, h, m, hash, m.Keys, out)
    ensures out.tokensBilled == Total(h, hash, Billing) && out.truncatedRequests == Total(h, hash, Truncation)
    ensures out.driftFlag <==> exists k :: k in m && m[k].hash == hash && m[k].driftFlag
    ensures Latest(m, m.Keys, hash, out.lastReconciledAt)
  {
    PartIsTotal(f, h, hash, m.Keys, Billing);
    PartIsTotal(f, h, hash, m.Keys, Truncation);
  }

  class Store {
    var entries: map<string, Entry>
    const period: int -> string
    ghost var history: seq<Terminal>

    ghost predicate Valid()
      reads this
    {
      Consistent(period, history, entries)
    }

    constructor (period: int -> string)
      requires PlainPeriods(period)
      ensures Valid() && this.period == period && history == [] && entries == map[]
    {
      entries, history := map[], [];
      this.period := period;
    }

    method GetLocked(hash: string, period: string) returns (key: string)
      requires Valid() && Plain(period)
      modifies this`entries
      ensures Valid() && key == Key(hash, period)
      ensures entries == old(entries)[key := Get(old(entries), hash, period)]
      ensures key in old(entries) ==> entries == old(entries)
      ensures key !in old(entries) ==> entries == old(entries)[key := Entry(hash, period, 0, 0, None, false, map[])]
    {
      key := Key(hash, period);
      if key !in entries {
        NewEntryOk(this.period, history, entries, hash, period);
        entries := entries[key := NewEntry(hash, period)];
      }
    }

    method RecordTerminal(hash: string, provider: string, at: int, tokensBilled: int, truncated: bool)
      requires Valid()
      modifies this
      ensures Valid()
      ensures history == old(history) + [Terminal(hash, provider, at, tokensBilled, truncated)]
      ensures entries == old(entries)[Key(hash, period(at)) :=
                Charged(Get(old(entries), hash, period(at)), Terminal(hash, provider, at, tokensBilled, truncated))]
      ensures RecordedIn(old(entries), entries, Key(hash, period(at)), hash, period(at), provider, tokensBilled, truncated)
    {
      hide EntryOk, Consistent, PlainPeriods, Plain, RecordedIn;
      PeriodIsPlain(period, history, entries, at);
      ghost var t := Terminal(hash, provider, at, tokensBilled, truncated);
      ChargeKeepsConsistent(period, history, entries, t);
      var billed := tokensBilled;
      if billed < 0 {
        billed := 0;
      }
      var key := GetLocked(hash, period(at));
      var e := entries[key];
      e := e.(tokensBilled := e.tokensBilled + billed);
      if provider != "" && billed > 0 {
        var was := if provider in e.providerTokens then e.providerTokens[provider] else 0;
        e := e.(providerTokens := e.providerTokens[provider := was + billed]);
      }
      if truncated {
        e := e.(truncatedRequests := e.truncatedRequests + 1);
      }
      entries := entries[key := e];
      assert entries == old(entries)[key := Charged(Get(old(entries), hash, period(at)), t)];
      ChargedIsRecorded(old(entries), hash, period(at), t);
      history := history + [t];
    }

    method UpsertReconciliation(hash: string, period: string, at: int, driftFlag: bool)
      requires Valid() && Plain(period)
      modifies this`entries
      ensures Valid()
      ensures entries == old(entries)[Key(hash, period) :=
                Reconciled(Get(old(entries), hash, period), at, driftFlag)]
      ensures ReconciledIn(old(entries), entries, Key(hash, period), hash, period, at, driftFlag)
    {
      hide EntryOk, Consistent, ReconciledIn;
      ReconcileKeepsConsistent(this.period, history, entries, hash, period, at, driftFlag);
      var key := GetLocked(hash, period);
      var e := entries[key];
      e := e.(lastReconciledAt := Some(at));
      e := e.(driftFlag := driftFlag);
      entries := entries[key := e];
      assert entries == old(entries)[key := Reconciled(Get(old(entries), hash, period), at, driftFlag)];
      ReconciledIsReconciledIn(old(entries), hash, period, at, driftFlag);
    }

    /** The summary of a key equals a fold over every terminal record ever made for it, whatever
        order the entries are visited in. */
    method Summarize(hash: string, redacted: string) returns (out: Summary)
      requires Valid()
      ensures out.apiKey == redacted
      ensures out.tokensBilled == Total(history, hash, Billing)
      ensures out.truncatedRequests == Total(history, hash, Truncation)
      ensures out.driftFlag <==> exists k :: k in entries && entries[k].hash == hash && entries[k].driftFlag
      ensures Latest(entries, entries.Keys, hash, out.lastReconciledAt)
    {
      hide Part, Consistent, Sums;
      out := Summary(redacted, 0, 0, None, false);
      var rest := entries.Keys;
      ghost var done: set<string> := {};
      SumsNothing(period, history, entries, hash, out);
      while rest != {}
        invariant rest + done == entries.Keys && rest !! done
        invariant out.apiKey == redacted && Sums(period, history, entries, hash, done, out)
        decreases rest
      {
        var k :| k in rest;
        var e := entries[k];
        ghost var before := out;
        if e.hash == hash {
          out := out.(tokensBilled := out.tokensBilled + e.tokensBilled);
          out := out.(truncatedRequests := out.truncatedRequests + e.truncatedRequests);
          out := out.(driftFlag := out.driftFlag || e.driftFlag);
          if e.lastReconciledAt.Some? && (out.lastReconciledAt.None? || e.lastReconciledAt.value > out.lastReconciledAt.value) {
            out := out.(lastReconciledAt := e.lastReconciledAt);
          }
        }
        SumsOneMore(period, history, entries, hash, done, before, k);
        rest, done := rest - {k}, done + {k};
      }
      assert done == entries.Keys;
      SumsEverything(period, history, entries, hash, out);
    }

    /** A snapshot: every entry once, in some order. */
    method Entries() returns (out: seq<Entry>)
      requires Valid()
      ensures forall i :: 0 <= i < |out| ==>
                Key(out[i].hash, out[i].period) in entries && entries[Key(out[i].hash, out[i].period)] == out[i]
      ensures forall i, j :: 0 <= i < j < |out| ==> Key(out[i].hash, out[i].period) != Key(out[j].hash, out[j].period)
      ensures forall k :: k in entries ==> entries[k] in out
    {
      hide Consistent;
      out := [];
      var rest := entries.Keys;
      while rest != {}
        invariant rest <= entries.Keys
        invariant forall i :: 0 <= i < |out| ==>
                    Key(out[i].hash, out[i].period) in entries.Keys - rest && entries[Key(out[i].hash, out[i].period)] == out[i]
        invariant forall i, j :: 0 <= i < j < |out| ==> Key(out[i].hash, out[i].period) != Key(out[j].hash, out[j].period)
        invariant forall k :: k in entries.Keys - rest ==> entries[k] in out
        decreases rest
      {
        var k :| k in rest;
        KeyOfEntry(period, history, entries, k);
        out := out + [entries[k]];
        rest := rest - {k};
      }
    }
  }

  lemma KeyOfEntry(f: int -> string, h: seq<Terminal>, m: map<string, Entry>, k: string)
    requires Consistent(f, h, m) && k in m
    ensures k == Key(m[k].hash, m[k].period) && Plain(m[k].period)
  {
    assert EntryOk(f, h, k, m[k]);
  }

  lemma {:induction false} PartEmpty(f: int -> string, h: seq<Terminal>, hash: string)
    ensures Part(f, h, hash, {}, Billing) == 0 && Part(f, h, hash, {}, Truncation) == 0
  {
    if h != [] {
      PartEmpty(f, h[..|h| - 1], hash);
    }
  }

  // ---- Per-provider tokens ----

  function SumOf(m: map<string, int>, ps: seq<string>): int
    requires forall i :: 0 <= i < |ps| ==> ps[i] in m
  {
    if ps == [] then 0 else SumOf(m, ps[..|ps| - 1]) + m[ps[|ps| - 1]]
  }

  ghost predicate Enumerates(ps: seq<string>, keys: set<string>) {
    && (forall i, j :: 0 <= i < j < |ps| ==> ps[i] != ps[j])
    && (forall p :: p in ps <==> p in keys)
  }

  lemma {:induction false} ProviderPartSplits(f: int -> string, h: seq<Terminal>, hash: string, k: string, ps: seq<string>, p: string)
    requires p !in ps
    ensures ProviderPart(f, h, hash, k, ps + [p]) == ProviderPart(f, h, hash, k, ps) + ProviderPart(f, h, hash, k, [p])
  {
    if h != [] {
      ProviderPartSplits(f, h[..|h| - 1], hash, k, ps, p);
    }
  }

  lemma {:induction false} NoProviders(f: int -> string, h: seq<Terminal>, hash: string, k: string)
    ensures ProviderPart(f, h, hash, k, []) == 0
  {
    if h != [] {
      NoProviders(f, h[..|h| - 1], hash, k);
    }
  }

  lemma {:induction false} SumIsProviderPart(f: int -> string, h: seq<Terminal>, k: string, e: Entry, ps: seq<string>)
    requires EntryOk(f, h, k, e)
    requires forall i, j :: 0 <= i < j < |ps| ==> ps[i] != ps[j]
    requires forall i :: 0 <= i < |ps| ==> ps[i] in e.providerTokens
    ensures SumOf(e.providerTokens, ps) == ProviderPart(f, h, e.hash, k, ps)
  {
    if ps == [] {
      NoProviders(f, h, e.hash, k);
    } else {
      var init, p := ps[..|ps| - 1], ps[|ps| - 1];
      SumIsProviderPart(f, h, k, e, init);
      ProviderPartSplits(f, h, e.hash, k, init, p);
      assert ps == init + [p];
    }
  }

  /** Every positive record of the entry names a provider. */
  ghost predicate Attributed(f: int -> string, h: seq<Terminal>, hash: string, k: string) {
    forall i :: 0 <= i < |h| && h[i].hash == hash && Key(hash, f(h[i].at)) == k && h[i].tokens > 0 ==> h[i].provider != ""
  }

  lemma {:induction false} ProviderPartBelow(f: int -> string, h: seq<Terminal>, hash: string, k: string, ps: seq<string>)
    ensures ProviderPart(f, h, hash, k, ps) <= Part(f, h, hash, {k}, Billing)
    ensures (ProviderPart(f, h, hash, k, ps) == Part(f, h, hash, {k}, Billing)) <==>
            forall i :: 0 <= i < |h| && h[i].hash == hash && Key(hash, f(h[i].at)) == k && h[i].tokens > 0 ==>
              h[i].provider != "" && h[i].provider in ps
  {
    if h != [] {
      var g := h[..|h| - 1];
      ProviderPartBelow(f, g, hash, k, ps);
      assert forall i :: 0 <= i < |g| ==> g[i] == h[i];
      assert forall i :: 0 <= i < |h| ==> i == |g| || h[i] == g[i];
    }
  }

  lemma {:induction false} PositiveProviderIsKey(f: int -> string, h: seq<Terminal>, hash: string, k: string, i: nat)
    requires i < |h| && h[i].hash == hash && Key(hash, f(h[i].at)) == k && h[i].tokens > 0 && h[i].provider != ""
    ensures ProviderPart(f, h, hash, k, [h[i].provider]) > 0
  {
    var g := h[..|h| - 1];
    ProviderPartNonnegative(f, g, hash, k, [h[i].provider]);
    if i < |g| {
      PositiveProviderIsKey(f, g, hash, k, i);
    }
  }

  lemma {:induction false} ProviderPartNonnegative(f: int -> string, h: seq<Terminal>, hash: string, k: string, ps: seq<string>)
    ensures ProviderPart(f, h, hash, k, ps) >= 0
  {
    if h != [] {
      ProviderPartNonnegative(f, h[..|h| - 1], hash, k, ps);
    }
  }

  /** An entry's provider tokens, summed in any order, never exceed what it billed, and equal it
      exactly when every positive record of the entry named its provider. */
  lemma ProviderTokensWithinBilled(f: int -> string, h: seq<Terminal>, m: map<string, Entry>, k: string, ps: seq<string>)
    requires Consistent(f, h, m) && k in m && Enumerates(ps, m[k].providerTokens.Keys)
    ensures forall i :: 0 <= i < |ps| ==> ps[i] in m[k].providerTokens
    ensures SumOf(m[k].providerTokens, ps) <= m[k].tokensBilled
    ensures SumOf(m[k].providerTokens, ps) == m[k].tokensBilled <==> Attributed(f, h, m[k].hash, k)
  {
    var e := m[k];
    assert EntryOk(f, h, k, e);
    assert forall i :: 0 <= i < |ps| ==> ps[i] in ps;
    SumIsProviderPart(f, h, k, e, ps);
    ProviderPartBelow(f, h, e.hash, k, ps);
    forall i | 0 <= i < |h| && h[i].hash == e.hash && Key(e.hash, f(h[i].at)) == k && h[i].tokens > 0 && h[i].provider != ""
      ensures h[i].provider in ps
    {
      PositiveProviderIsKey(f, h, e.hash, k, i);
    }
  }
}
