/** Collapsing a flight list by `icao24`, as both clients do with
    `Array.from(new Map(flights.map((f) => [f.icao24, f])).values())`
    (src/lib/opensky.ts, src/lib/aviationEdge.ts). A JavaScript Map keeps its
    keys in first-insertion order and `set` on an existing key replaces the
    value in place. */
module Dedup {
  import opened Types

  function Keys(fs: seq<FlightState>): (ks: seq<string>)
    ensures |ks| == |fs|
    ensures forall i :: 0 <= i < |fs| ==> ks[i] == fs[i].icao24
  {
    seq(|fs|, i requires 0 <= i < |fs| => fs[i].icao24)
  }

  predicate Distinct(ks: seq<string>) {
    forall i, j :: 0 <= i < j < |ks| ==> ks[i] != ks[j]
  }

  /** `map.set(f.icao24, f)` on the map's entries in insertion order. */
  function Upsert(es: seq<FlightState>, f: FlightState): seq<FlightState> {
    if es == [] then [f]
    else if es[0].icao24 == f.icao24 then [f] + es[1..]
    else [es[0]] + Upsert(es[1..], f)
  }

  /** The values of the Map built by setting every flight in turn. */
  function ByIcao24(fs: seq<FlightState>): seq<FlightState>
    decreases |fs|
  {
    if fs == [] then [] else Upsert(ByIcao24(fs[..|fs| - 1]), fs[|fs| - 1])
  }

  // ---- An independent description of the result ----

  /** The distinct keys of `fs` in the order they first occur. */
  function FirstKeys(fs: seq<FlightState>): seq<string>
    decreases |fs|
  {
    if fs == [] then []
    else
      var p := FirstKeys(fs[..|fs| - 1]);
      if fs[|fs| - 1].icao24 in p then p else p + [fs[|fs| - 1].icao24]
  }

  /** The last flight in `fs` with key `k`. */
  function LastWith(fs: seq<FlightState>, k: string): (f: FlightState)
    requires k in Keys(fs)
    ensures f in fs && f.icao24 == k
    decreases |fs|
  {
    if fs[|fs| - 1].icao24 == k then fs[|fs| - 1]
    else
      assert Keys(fs) == Keys(fs[..|fs| - 1]) + [fs[|fs| - 1].icao24];
      LastWith(fs[..|fs| - 1], k)
  }

  /** The position of the first flight in `fs` with key `k`. */
  function FirstIndex(fs: seq<FlightState>, k: string): (i: nat)
    requires k in Keys(fs)
    ensures i < |fs| && fs[i].icao24 == k
    ensures forall j :: 0 <= j < i ==> fs[j].icao24 != k
  {
    if fs[0].icao24 == k then 0
    else
      assert Keys(fs[1..]) == Keys(fs)[1..];
      1 + FirstIndex(fs[1..], k)
  }

  // ---- Facts about one insertion ----

  lemma KeysAppend(es: seq<FlightState>, f: FlightState)
    ensures Keys(es + [f]) == Keys(es) + [f.icao24]
  {
  }

  lemma {:induction false} UpsertKeys(es: seq<FlightState>, f: FlightState)
    ensures Keys(Upsert(es, f)) == if f.icao24 in Keys(es) then Keys(es) else Keys(es) + [f.icao24]
  {
    if es != [] {
      assert Keys(es) == [es[0].icao24] + Keys(es[1..]);
      if es[0].icao24 != f.icao24 {
        UpsertKeys(es[1..], f);
        assert Keys(Upsert(es, f)) == [es[0].icao24] + Keys(Upsert(es[1..], f));
      } else {
        assert Keys(Upsert(es, f)) == [f.icao24] + Keys(es[1..]);
      }
    }
  }

  /** With distinct keys, an insertion replaces the entry with the same key, or
      appends when there is none. */
  lemma {:induction false} UpsertAt(es: seq<FlightState>, f: FlightState, j: nat)
    requires Distinct(Keys(es))
    requires j < |Upsert(es, f)|
    ensures Upsert(es, f)[j] == if j < |es| then (if es[j].icao24 == f.icao24 then f else es[j]) else f
  {
    if es != [] {
      if es[0].icao24 == f.icao24 {
        if 0 < j < |es| { assert Keys(es)[0] != Keys(es)[j]; }
      } else if j > 0 {
        assert Distinct(Keys(es[1..])) by {
          forall a, b | 0 <= a < b < |es| - 1 ensures Keys(es[1..])[a] != Keys(es[1..])[b] {
            assert Keys(es)[a + 1] != Keys(es)[b + 1];
          }
        }
        UpsertAt(es[1..], f, j - 1);
      }
    }
  }

  // ---- The reference description is what it claims to be ----

  lemma {:induction false} FirstKeysSpec(fs: seq<FlightState>)
    ensures |FirstKeys(fs)| <= |fs|
    ensures Distinct(FirstKeys(fs))
    ensures forall k :: k in FirstKeys(fs) <==> k in Keys(fs)
    ensures forall i, j :: 0 <= i < j < |FirstKeys(fs)| ==>
      FirstIndex(fs, FirstKeys(fs)[i]) < FirstIndex(fs, FirstKeys(fs)[j])
  {
    if fs != [] {
      var p, f := fs[..|fs| - 1], fs[|fs| - 1];
      assert fs == p + [f];
      KeysAppend(p, f);
      FirstKeysSpec(p);
      var ks := FirstKeys(fs);
      forall i | 0 <= i < |ks| && ks[i] in Keys(p) ensures FirstIndex(fs, ks[i]) == FirstIndex(p, ks[i]) {
        FirstIndexExtend(p, f, ks[i]);
      }
      if f.icao24 !in FirstKeys(p) {
        assert FirstIndex(fs, f.icao24) == |p|;
      }
    }
  }

  lemma FirstIndexExtend(p: seq<FlightState>, f: FlightState, k: string)
    requires k in Keys(p)
    ensures k in Keys(p + [f]) && FirstIndex(p + [f], k) == FirstIndex(p, k)
  {
    KeysAppend(p, f);
    var i, i' := FirstIndex(p, k), FirstIndex(p + [f], k);
    assert forall j :: 0 <= j < |p| ==> (p + [f])[j] == p[j];
  }

  /** Setting each flight in turn yields one entry per key, in first-occurrence
      order, each holding the last flight with that key. */
  lemma {:induction false} ByIcao24Matches(fs: seq<FlightState>)
    ensures Keys(ByIcao24(fs)) == FirstKeys(fs)
    ensures forall j :: 0 <= j < |ByIcao24(fs)| ==>
      ByIcao24(fs)[j].icao24 in Keys(fs) && ByIcao24(fs)[j] == LastWith(fs, ByIcao24(fs)[j].icao24)
  {
    if fs != [] {
      var p, f := fs[..|fs| - 1], fs[|fs| - 1];
      assert fs == p + [f];
      KeysAppend(p, f);
      ByIcao24Matches(p);
      FirstKeysSpec(p);
      var r := ByIcao24(p);
      UpsertKeys(r, f);
      var r' := ByIcao24(fs);
      assert r' == Upsert(r, f);
      forall j | 0 <= j < |r'|
        ensures r'[j].icao24 in Keys(fs) && r'[j] == LastWith(fs, r'[j].icao24)
      {
        UpsertAt(r, f, j);
        if j < |r| && r[j].icao24 != f.icao24 {
          assert r[j].icao24 == Keys(r)[j];
        }
      }
    }
  }

  /** What the deduplicated list is: no longer than the input, one entry per
      distinct key of the input, the last occurrence's record for each key,
      and the keys in the order of their first occurrence. */
  lemma DedupSpec(fs: seq<FlightState>)
    ensures |ByIcao24(fs)| <= |fs|
    ensures Distinct(Keys(ByIcao24(fs)))
    ensures forall k :: k in Keys(ByIcao24(fs)) <==> k in Keys(fs)
    ensures forall j :: 0 <= j < |ByIcao24(fs)| ==>
      ByIcao24(fs)[j].icao24 in Keys(fs) && ByIcao24(fs)[j] == LastWith(fs, ByIcao24(fs)[j].icao24)
    ensures forall i, j :: 0 <= i < j < |ByIcao24(fs)| ==>
      FirstIndex(fs, ByIcao24(fs)[i].icao24) < FirstIndex(fs, ByIcao24(fs)[j].icao24)
  {
    ByIcao24Matches(fs);
    FirstKeysSpec(fs);
    var r := ByIcao24(fs);
    forall i | 0 <= i < |r| ensures r[i].icao24 == FirstKeys(fs)[i] {
      assert Keys(r)[i] == r[i].icao24;
    }
  }

  /** Two records with the same key collapse to the later one. */
  lemma SameKeyCollapses(a: FlightState, b: FlightState)
    requires a.icao24 == b.icao24
    ensures ByIcao24([a, b]) == [b]
  {
    assert [a, b][..1] == [a];
    assert [a][..0] == [];
    assert ByIcao24([a]) == Upsert([], a) == [a];
    assert Upsert([a], b) == [b] + [a][1..] == [b];
  }

  /** The same, for any two-element list. */
  lemma SameKeyPairCollapses(fs: seq<FlightState>)
    requires |fs| == 2 && fs[0].icao24 == fs[1].icao24
    ensures ByIcao24(fs) == [fs[1]]
  {
    assert fs == [fs[0], fs[1]];
    SameKeyCollapses(fs[0], fs[1]);
  }
}
