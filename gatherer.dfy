/** The fan-in table results_gatherer: a set of keys still expected and a
    map of the values already reported. Every gather removes one pending
    key and records its value; the gather that empties the pending set
    hands the whole map to the completion handler. The mutex only makes
    each gather atomic, so gathers are modelled as sequential steps, and
    the handler call is returned to the caller instead of being made. */
module Gatherer {
  import opened Types

  datatype Table<K, V> = Table(pending: set<K>, results: map<K, V>)

  /** Every expected key is either still pending or has reported, not both. */
  predicate Consistent<K, V>(t: Table<K, V>, expected: set<K>)
  {
    t.pending !! t.results.Keys && t.pending + t.results.Keys == expected
  }

  /** One gather(key, value) on table `t`: the new table, and the map the
      handler is called with when this gather completes the table. */
  function Step<K, V>(t: Table<K, V>, key: K, value: V): (r: (Table<K, V>, Option<map<K, V>>))
    requires key in t.pending
    ensures r.0.pending == t.pending - {key}
    ensures key in r.0.results && r.0.results[key] == value
    ensures r.0.results.Keys == t.results.Keys + {key}
    ensures forall k :: k in t.results && k != key ==> r.0.results[k] == t.results[k]
    ensures r.1.Some? <==> r.0.pending == {}
    ensures r.1.Some? ==> r.1.value == r.0.results
  {
    var next := Table(t.pending - {key}, t.results[key := value]);
    (next, if next.pending == {} then Some(next.results) else None)
  }

  /** Each report's key is still pending when it arrives. */
  predicate Fits<K, V>(pending: set<K>, reports: seq<(K, V)>)
    decreases |reports|
  {
    reports == [] || (reports[0].0 in pending && Fits(pending - {reports[0].0}, reports[1..]))
  }

  /** No key is reported twice. */
  predicate DistinctKeys<K(==), V>(reports: seq<(K, V)>)
  {
    forall i, j :: 0 <= i < j < |reports| ==> reports[i].0 != reports[j].0
  }

  function KeysOf<K, V>(reports: seq<(K, V)>): set<K>
  {
    set i | 0 <= i < |reports| :: reports[i].0
  }

  /** The gathers of `reports`, in order, starting from `t`: the final table
      and, per gather, the handler call it makes (if any). */
  function Replay<K, V>(t: Table<K, V>, reports: seq<(K, V)>): (r: (Table<K, V>, seq<Option<map<K, V>>>))
    requires Fits(t.pending, reports)
    ensures |r.1| == |reports|
    decreases |reports|
  {
    if reports == [] then (t, [])
    else
      var (next, call) := Step(t, reports[0].0, reports[0].1);
      var (last, calls) := Replay(next, reports[1..]);
      (last, [call] + calls)
  }

  lemma KeysOfTail<K, V>(reports: seq<(K, V)>)
    requires reports != []
    ensures KeysOf(reports) == {reports[0].0} + KeysOf(reports[1..])
  {
    var tail := reports[1..];
    forall k | k in KeysOf(reports) ensures k == reports[0].0 || k in KeysOf(tail) {
      var i :| 0 <= i < |reports| && reports[i].0 == k;
      if i > 0 { assert tail[i - 1].0 == k; }
    }
    forall k | k in KeysOf(tail) ensures k in KeysOf(reports) {
      var i :| 0 <= i < |tail| && tail[i].0 == k;
      assert reports[i + 1].0 == k;
    }
  }

  /** A report sequence is acceptable to gather exactly when its keys are
      all expected and no key appears twice. */
  lemma {:induction false} FitsIff<K, V>(pending: set<K>, reports: seq<(K, V)>)
    ensures Fits(pending, reports) <==> KeysOf(reports) <= pending && DistinctKeys(reports)
    decreases |reports|
  {
    if reports != [] {
      var k := reports[0].0;
      var tail := reports[1..];
      KeysOfTail(reports);
      FitsIff(pending - {k}, tail);
      if KeysOf(reports) <= pending && DistinctKeys(reports) {
        forall i | 0 <= i < |tail| ensures tail[i].0 != k {
          assert reports[0].0 != reports[i + 1].0;
        }
        assert k !in KeysOf(tail);
        assert DistinctKeys(tail) by {
          forall i, j | 0 <= i < j < |tail| ensures tail[i].0 != tail[j].0 {
            assert reports[i + 1].0 != reports[j + 1].0;
          }
        }
      }
      if Fits(pending, reports) {
        assert k !in KeysOf(tail);
        forall i, j | 0 <= i < j < |reports| ensures reports[i].0 != reports[j].0 {
          if i == 0 {
            assert reports[j].0 == tail[j - 1].0;
          } else {
            assert reports[i].0 == tail[i - 1].0 && reports[j].0 == tail[j - 1].0;
          }
        }
      }
    }
  }

  /** Gathering keeps the table consistent; the keys that reported leave
      the pending set, each with its own value recorded, and the entries
      of keys that did not report are left as they were. */
  lemma {:induction false} ReplayRecords<K, V>(t: Table<K, V>, reports: seq<(K, V)>, expected: set<K>)
    requires Consistent(t, expected) && Fits(t.pending, reports)
    ensures Consistent(Replay(t, reports).0, expected)
    ensures Replay(t, reports).0.pending == t.pending - KeysOf(reports)
    ensures forall i :: 0 <= i < |reports| ==>
      reports[i].0 in Replay(t, reports).0.results && Replay(t, reports).0.results[reports[i].0] == reports[i].1
    ensures forall k :: k in t.results ==> k in Replay(t, reports).0.results && Replay(t, reports).0.results[k] == t.results[k]
    decreases |reports|
  {
    if reports != [] {
      var (next, _) := Step(t, reports[0].0, reports[0].1);
      var tail := reports[1..];
      ReplayRecords(next, tail, expected);
      KeysOfTail(reports);
      FitsIff(next.pending, tail);
      var last := Replay(t, reports).0;
      assert last == Replay(next, tail).0;
      forall i | 0 <= i < |reports|
        ensures reports[i].0 in last.results && last.results[reports[i].0] == reports[i].1
      {
        if i > 0 { assert reports[i] == tail[i - 1]; }
      }
    }
  }

  /** Exactly-once firing: when every pending key reports exactly once, the
      handler is called on the last gather and on no other, with a map whose
      domain is every expected key; afterwards no key is pending, so any
      further gather breaks its precondition. */
  lemma {:induction false} FiresOnceOnLast<K, V>(t: Table<K, V>, reports: seq<(K, V)>)
    requires t.pending != {} && Fits(t.pending, reports) && KeysOf(reports) == t.pending
    ensures |reports| > 0
    ensures Replay(t, reports).0.pending == {}
    ensures Replay(t, reports).1[|reports| - 1] == Some(Replay(t, reports).0.results)
    ensures Replay(t, reports).0.results.Keys == t.pending + t.results.Keys
    ensures forall i :: 0 <= i < |reports| - 1 ==> Replay(t, reports).1[i].None?
    decreases |reports|
  {
    var (next, call) := Step(t, reports[0].0, reports[0].1);
    var tail := reports[1..];
    KeysOfTail(reports);
    FitsIff(next.pending, tail);
    assert KeysOf(tail) == next.pending;
    if next.pending == {} {
      assert tail == [];
    } else {
      FiresOnceOnLast(next, tail);
    }
  }

  /** While some expected key has not reported, the handler is never called. */
  lemma {:induction false} SilentWhileIncomplete<K, V>(t: Table<K, V>, reports: seq<(K, V)>)
    requires Fits(t.pending, reports) && KeysOf(reports) < t.pending
    ensures Replay(t, reports).0.pending != {}
    ensures forall i :: 0 <= i < |reports| ==> Replay(t, reports).1[i].None?
    decreases |reports|
  {
    if reports != [] {
      var (next, call) := Step(t, reports[0].0, reports[0].1);
      var tail := reports[1..];
      KeysOfTail(reports);
      FitsIff(next.pending, tail);
      SilentWhileIncomplete(next, tail);
    }
  }

  /** results_gatherer: the pending key set and the result map, updated in
      place. `expected` is the key set it was built with; `fired` counts the
      handler calls made so far. */
  class ResultsGatherer<K(==), V> {
    var pending: set<K>
    var results: map<K, V>
    ghost var expected: set<K>
    ghost var fired: nat

    function Snapshot(): Table<K, V>
      reads this
    {
      Table(pending, results)
    }

    /** The handler has been called once exactly when a gather emptied the
        pending set, and never otherwise. */
    ghost predicate Valid()
      reads this
    {
      Consistent(Snapshot(), expected) &&
      fired == (if pending == {} && expected != {} then 1 else 0)
    }

    constructor (keys: set<K>)
      ensures Valid()
      ensures pending == keys && results == map[] && expected == keys && fired == 0
    {
      pending := keys;
      results := map[];
      expected := keys;
      fired := 0;
    }

    /** gather(key, value). `key` must still be pending; the handler call is
        the returned map. */
    method Gather(key: K, value: V) returns (call: Option<map<K, V>>)
      requires Valid() && key in pending
      modifies this
      ensures Valid() && expected == old(expected)
      ensures (Snapshot(), call) == Step(old(Snapshot()), key, value)
      ensures fired == old(fired) + (if call.Some? then 1 else 0)
      ensures fired <= 1
    {
      pending := pending - {key};
      results := results[key := value];
      if pending == {} {
        call := Some(results);
        fired := fired + 1;
      } else {
        call := None;
      }
    }
  }

  /** A sequence of gathers on one gatherer, made one after the other. */
  method GatherEach<K(==), V>(g: ResultsGatherer<K, V>, reports: seq<(K, V)>)
    returns (calls: seq<Option<map<K, V>>>)
    requires g.Valid() && Fits(g.pending, reports)
    modifies g
    ensures g.Valid() && g.expected == old(g.expected)
    ensures (g.Snapshot(), calls) == Replay(old(g.Snapshot()), reports)
  {
    calls := [];
    var i := 0;
    assert reports[i..] == reports;
    assert calls + Replay(g.Snapshot(), reports).1 == Replay(g.Snapshot(), reports).1;
    while i < |reports|
      invariant 0 <= i <= |reports|
      invariant g.Valid() && g.expected == old(g.expected)
      invariant Fits(g.pending, reports[i..])
      invariant Replay(old(g.Snapshot()), reports)
        == (Replay(g.Snapshot(), reports[i..]).0, calls + Replay(g.Snapshot(), reports[i..]).1)
    {
      ghost var before := g.Snapshot();
      assert reports[i..][1..] == reports[i + 1..];
      var call := g.Gather(reports[i].0, reports[i].1);
      ghost var rest := Replay(g.Snapshot(), reports[i + 1..]);
      assert Replay(before, reports[i..]) == (rest.0, [call] + rest.1);
      assert (calls + [call]) + rest.1 == calls + ([call] + rest.1);
      calls := calls + [call];
      i := i + 1;
    }
    assert reports[i..] == [];
    assert calls + [] == calls;
  }
}
