/** Vectors of int64 values summed under keys, with every addition checked: the aggregation that
    `difference` of `src/heap/compare.rs` runs over two lists of samples. */
module KeyedSums {
  import opened Prelude

  type Entry<K> = (K, seq<i64>)

  predicate Widths<K>(entries: seq<Entry<K>>, n: nat) {
    forall j :: 0 <= j < |entries| ==> |entries[j].1| == n
  }

  predicate Uniform<K>(totals: map<K, seq<i64>>, n: nat) {
    forall k :: k in totals ==> |totals[k]| == n
  }

  function Step(adds: bool, a: int, b: int): int {
    if adds then a + b else a - b
  }

  predicate Fits(a: seq<i64>, b: seq<i64>, adds: bool)
    requires |a| == |b|
  {
    forall i :: 0 <= i < |a| ==> InI64(Step(adds, a[i], b[i]))
  }

  /** `target` plus or minus `source`, or nothing if a value leaves int64. */
  function Combine(a: seq<i64>, b: seq<i64>, adds: bool): Option<seq<i64>>
    requires |a| == |b|
  {
    if Fits(a, b, adds) then Some(seq(|a|, i requires 0 <= i < |a| && Fits(a, b, adds) => Step(adds, a[i], b[i])))
      else None
  }

  // `add`: one checked operation per value.
  method Add(target: seq<i64>, source: seq<i64>, adds: bool) returns (sum: Option<seq<i64>>)
    requires |target| == |source|
    ensures sum == Combine(target, source, adds)
  {
    var values := target;
    for i := 0 to |values|
      invariant |values| == |target|
      invariant forall j :: 0 <= j < i ==>
        InI64(Step(adds, target[j], source[j])) && values[j] == Step(adds, target[j], source[j])
      invariant forall j :: i <= j < |target| ==> values[j] == target[j]
    {
      var v: int := if adds then values[i] + source[i] else values[i] - source[i];
      if !InI64(v) {
        assert !InI64(Step(adds, target[i], source[i]));
        return None;
      }
      values := values[i := v];
    }
    sum := Some(values);
    assert values == Combine(target, source, adds).value;
  }

  function Zeros(n: nat): (z: seq<i64>)
    ensures |z| == n
  {
    seq(n, _ => 0)
  }

  function At<K>(totals: map<K, seq<i64>>, key: K, n: nat): (v: seq<i64>)
    requires Uniform(totals, n)
    ensures |v| == n
  {
    if key in totals then totals[key] else Zeros(n)
  }

  /** The totals after the entries in order; a key seen for the first time starts at zero. */
  function Fold<K>(totals: map<K, seq<i64>>, entries: seq<Entry<K>>, adds: bool, n: nat): (r: Option<map<K, seq<i64>>>)
    requires Uniform(totals, n) && Widths(entries, n)
    ensures r.Some? ==> Uniform(r.value, n)
    decreases |entries|
  {
    if entries == [] then Some(totals)
    else
      var last := |entries| - 1;
      assert entries == entries[..last] + [entries[last]];
      match Fold(totals, entries[..last], adds, n)
      case None => None
      case Some(t) =>
        match Combine(At(t, entries[last].0, n), entries[last].1, adds)
        case None => None
        case Some(v) => Some(t[entries[last].0 := v])
  }

  /** The plain sum of one key's `i`-th values. */
  function SumOf<K(==)>(entries: seq<Entry<K>>, key: K, i: nat, n: nat): int
    requires Widths(entries, n) && i < n
    decreases |entries|
  {
    if entries == [] then 0
    else
      var last := |entries| - 1;
      SumOf(entries[..last], key, i, n) + if entries[last].0 == key then entries[last].1[i] else 0
  }

  /** Each total moves by exactly the added sum. */
  lemma {:induction false} FoldSums<K>(totals: map<K, seq<i64>>, entries: seq<Entry<K>>, adds: bool, n: nat, key: K,
                                       i: nat)
    requires Uniform(totals, n) && Widths(entries, n) && i < n
    requires Fold(totals, entries, adds, n).Some?
    ensures At(Fold(totals, entries, adds, n).value, key, n)[i]
      == Step(adds, At(totals, key, n)[i], SumOf(entries, key, i, n))
    decreases |entries|
  {
    if entries != [] {
      var before, e := entries[..|entries| - 1], entries[|entries| - 1];
      FoldSums(totals, before, adds, n, key, i);
    }
  }

  // Adding the first `m` entries takes some total out of int64.
  ghost predicate Leaves<K>(totals: map<K, seq<i64>>, entries: seq<Entry<K>>, adds: bool, n: nat, m: int, i: int)
    requires Uniform(totals, n) && Widths(entries, n)
  {
    && 0 < m <= |entries| && 0 <= i < n
    && Widths(entries[..m], n)
    && !InI64(Step(adds, At(totals, entries[m - 1].0, n)[i], SumOf(entries[..m], entries[m - 1].0, i, n)))
  }

  /** It fails exactly when some running total leaves int64. */
  lemma {:induction false} FoldOverflows<K>(totals: map<K, seq<i64>>, entries: seq<Entry<K>>, adds: bool, n: nat)
    requires Uniform(totals, n) && Widths(entries, n)
    ensures Fold(totals, entries, adds, n).None? <==> exists m, i :: Leaves(totals, entries, adds, n, m, i)
    decreases |entries|
  {
    if entries != [] {
      var last := |entries| - 1;
      var before := entries[..last];
      FoldOverflows(totals, before, adds, n);
      hide Fold, SumOf, At;
      forall m: int, i | 0 < m <= last
        ensures Leaves(totals, before, adds, n, m, i) <==> Leaves(totals, entries, adds, n, m, i)
      {
        assert before[..m] == entries[..m];
      }
      LastLeaves(totals, entries, adds, n);
      if Fold(totals, before, adds, n).None? {
        var m, i :| Leaves(totals, before, adds, n, m, i);
        assert Leaves(totals, entries, adds, n, m, i);
      }
    }
  }

  lemma LastValue<K>(totals: map<K, seq<i64>>, entries: seq<Entry<K>>, adds: bool, n: nat, i: nat)
    requires Uniform(totals, n) && Widths(entries, n) && entries != [] && i < n
    requires Fold(totals, entries[..|entries| - 1], adds, n).Some?
    ensures var t, e := Fold(totals, entries[..|entries| - 1], adds, n).value, entries[|entries| - 1];
      InI64(Step(adds, At(t, e.0, n)[i], e.1[i])) <==> !Leaves(totals, entries, adds, n, |entries|, i)
  {
    FoldSums(totals, entries[..|entries| - 1], adds, n, entries[|entries| - 1].0, i);
    hide Fold, At;
    assert entries[..|entries|] == entries;
  }

  lemma LastLeaves<K>(totals: map<K, seq<i64>>, entries: seq<Entry<K>>, adds: bool, n: nat)
    requires Uniform(totals, n) && Widths(entries, n) && entries != []
    ensures Fold(totals, entries[..|entries| - 1], adds, n).None? ==> Fold(totals, entries, adds, n).None?
    ensures Fold(totals, entries[..|entries| - 1], adds, n).Some? ==>
      (Fold(totals, entries, adds, n).None? <==> exists i :: Leaves(totals, entries, adds, n, |entries|, i))
  {
    hide SumOf, At;
    if Fold(totals, entries[..|entries| - 1], adds, n).Some? {
      var t, e := Fold(totals, entries[..|entries| - 1], adds, n).value, entries[|entries| - 1];
      var a := At(t, e.0, n);
      forall i | 0 <= i < n
        ensures InI64(Step(adds, a[i], e.1[i])) <==> !Leaves(totals, entries, adds, n, |entries|, i)
      {
        LastValue(totals, entries, adds, n, i);
      }
      if !Fits(a, e.1, adds) {
        var i :| 0 <= i < |a| && !InI64(Step(adds, a[i], e.1[i]));
        assert Leaves(totals, entries, adds, n, |entries|, i);
      } else {
        forall i ensures !Leaves(totals, entries, adds, n, |entries|, i) {
          if 0 <= i < n {
            assert InI64(Step(adds, a[i], e.1[i]));
          }
        }
      }
    }
  }

  // ----- Facts about sums -----

  lemma {:induction false} SumOfMissing<K>(entries: seq<Entry<K>>, key: K, i: nat, n: nat)
    requires Widths(entries, n) && i < n
    requires forall j :: 0 <= j < |entries| ==> entries[j].0 != key
    ensures SumOf(entries, key, i, n) == 0
    decreases |entries|
  {
    if entries != [] {
      SumOfMissing(entries[..|entries| - 1], key, i, n);
    }
  }

  /** When keys do not repeat, the sum of a key is the value it has. */
  lemma {:induction false} SumOfDistinct<K>(entries: seq<Entry<K>>, j: nat, i: nat, n: nat)
    requires Widths(entries, n) && i < n && j < |entries|
    requires forall a, b :: 0 <= a < b < |entries| ==> entries[a].0 != entries[b].0
    ensures SumOf(entries, entries[j].0, i, n) == entries[j].1[i]
    decreases |entries|
  {
    var last := |entries| - 1;
    if j == last {
      SumOfMissing(entries[..last], entries[j].0, i, n);
    } else {
      SumOfDistinct(entries[..last], j, i, n);
    }
  }
}
