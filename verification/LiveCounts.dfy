/** What accumulated samples say of a thread and a stack of addresses.  The accumulator keeps its totals by
    the full meaning of a sample, symbols, images, thread names and timestamps included; a key of the
    profiler is spread over many meanings. */
module LiveCounts {
  import opened Prelude
  import opened LiveAccumulator
  import Live = LiveSession

  const THREAD_ID: Text := Ascii("thread_id")

  /** The i-th values of the samples that `pick` selects, added up. */
  function Selected(entries: seq<Entry>, pick: SampleMeaning -> bool, i: nat): int {
    if entries == [] then 0
    else
      var last := entries[|entries| - 1];
      Selected(entries[..|entries| - 1], pick, i) + if pick(last.0) then ValueAt(last.1, i) else 0
  }

  function Addresses(stack: seq<LocationMeaning>): (a: seq<u64>)
    ensures |a| == |stack|
  {
    seq(|stack|, i requires 0 <= i < |stack| => stack[i].address)
  }

  /** The profiler's key of a sample: the number of its thread label, and its addresses. */
  function KeyOf(m: SampleMeaning): Option<Live.Key> {
    if m.labels == [] || m.labels[0].key != THREAD_ID then None
    else Some((AsU64(m.labels[0].num), Addresses(m.stack)))
  }

  function OfKey(k: Live.Key): SampleMeaning -> bool {
    m => KeyOf(m) == Some(k)
  }

  // ----- Sums by meaning determine all other sums -----

  // The entries with other meanings.
  function Without(entries: seq<Entry>, m: SampleMeaning): (rest: seq<Entry>)
    ensures |rest| <= |entries|
  {
    if entries == [] then []
    else
      var last := entries[|entries| - 1];
      Without(entries[..|entries| - 1], m) + if last.0 == m then [] else [last]
  }

  lemma {:induction false} SelectedConcat(a: seq<Entry>, b: seq<Entry>, pick: SampleMeaning -> bool, i: nat)
    ensures Selected(a + b, pick, i) == Selected(a, pick, i) + Selected(b, pick, i)
  {
    if b == [] {
      assert a + b == a;
    } else {
      SelectedConcat(a, b[..|b| - 1], pick, i);
      assert (a + b)[..|a + b| - 1] == a + b[..|b| - 1];
    }
  }

  lemma WithoutNext(before: seq<Entry>, last: Entry, m: SampleMeaning)
    ensures Without(before + [last], m) == Without(before, m) + if last.0 == m then [] else [last]
  {
    assert (before + [last])[..|before|] == before;
  }

  lemma {:induction false} WithoutSum(entries: seq<Entry>, m: SampleMeaning, other: SampleMeaning, i: nat)
    ensures SumOf(Without(entries, m), other, i) == if other == m then 0 else SumOf(entries, other, i)
  {
    if entries != [] {
      var before, last := entries[..|entries| - 1], entries[|entries| - 1];
      assert entries == before + [last];
      WithoutNext(before, last, m);
      WithoutSum(before, m, other, i);
      hide Without, SumOf;
      SumAppend(before, last, other, i);
      SumAppend(Without(before, m), last, other, i);
      assert Without(before, m) + [] == Without(before, m);
    }
  }

  // A meaning's part of a selection is its sum.
  lemma {:induction false} WithoutSelected(entries: seq<Entry>, m: SampleMeaning, pick: SampleMeaning -> bool, i: nat)
    ensures Selected(entries, pick, i) == Selected(Without(entries, m), pick, i)
      + if pick(m) then SumOf(entries, m, i) else 0
  {
    if entries != [] {
      var before, last := entries[..|entries| - 1], entries[|entries| - 1];
      WithoutSelected(before, m, pick, i);
      SelectedConcat(Without(before, m), [last], pick, i);
      assert Selected([last], pick, i) == if pick(last.0) then ValueAt(last.1, i) else 0;
      assert Without(before, m) + [] == Without(before, m);
    }
  }

  lemma {:induction false} WithoutFewer(entries: seq<Entry>, j: nat)
    requires j < |entries|
    ensures |Without(entries, entries[j].0)| < |entries|
  {
    var n := |entries| - 1;
    if j < n {
      WithoutFewer(entries[..n], j);
    }
  }

  ghost predicate SameSums(a: seq<Entry>, b: seq<Entry>) {
    forall m, i: nat :: SumOf(a, m, i) == SumOf(b, m, i)
  }

  lemma WithoutSame(a: seq<Entry>, b: seq<Entry>, m: SampleMeaning)
    requires SameSums(a, b)
    ensures SameSums(Without(a, m), Without(b, m))
  {
    forall other, i: nat ensures SumOf(Without(a, m), other, i) == SumOf(Without(b, m), other, i) {
      WithoutSum(a, m, other, i);
      WithoutSum(b, m, other, i);
    }
  }

  /** Lists of samples with equal sums for every meaning have equal sums however one selects meanings. */
  lemma {:induction false} SameSelected(a: seq<Entry>, b: seq<Entry>, pick: SampleMeaning -> bool, i: nat)
    requires SameSums(a, b)
    ensures Selected(a, pick, i) == Selected(b, pick, i)
    decreases |a| + |b|
  {
    hide Without, SumOf;
    if a != [] || b != [] {
      var m := if a != [] then a[0].0 else b[0].0;
      if a != [] {
        WithoutFewer(a, 0);
      } else {
        WithoutFewer(b, 0);
      }
      WithoutSame(a, b, m);
      SameSelected(Without(a, m), Without(b, m), pick, i);
      WithoutSelected(a, m, pick, i);
      WithoutSelected(b, m, pick, i);
    }
  }

  /** A merge adds what came in to every selection of meanings, a thread and stack among them. */
  lemma MergeAddsSelected(before: seq<Entry>, after: seq<Entry>, entries: seq<Entry>, pick: SampleMeaning -> bool,
                          i: nat)
    requires AddsAll(before, after, entries)
    ensures Selected(after, pick, i) == Selected(before, pick, i) + Selected(entries, pick, i)
  {
    hide Selected, SumOf;
    forall m, i: nat ensures SumOf(after, m, i) == SumOf(before + entries, m, i) {
      SumConcat(before, entries, m, i);
    }
    SameSelected(after, before + entries, pick, i);
    SelectedConcat(before, entries, pick, i);
  }
}
