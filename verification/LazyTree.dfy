/** The lazy call tree of `src/symbolicated.rs`: nothing is built; each node is a prefix of call paths, and
    asks all samples again for its counts and for the frames one level down. */
module LazyTree {
  import opened Prelude
  import CallTree

  /** A stack, leaf first, and how often it was seen. */
  datatype Sample = Sample(stack: seq<u64>, count: u64)

  function Reversed(stack: seq<u64>): (r: seq<u64>)
    ensures |r| == |stack| && forall i :: 0 <= i < |stack| ==> r[i] == stack[|stack| - 1 - i]
  {
    if stack == [] then [] else Reversed(stack[1..]) + [stack[0]]
  }

  /** `self_count`: the samples whose call path is exactly this one. */
  function SelfCount(samples: seq<Sample>, prefix: seq<u64>): nat {
    if samples == [] then 0
    else
      var last := samples[|samples| - 1];
      SelfCount(samples[..|samples| - 1], prefix) + if Reversed(last.stack) == prefix then last.count else 0
  }

  /** `total_count`: the samples whose call path starts so. */
  function TotalCount(samples: seq<Sample>, prefix: seq<u64>): nat {
    if samples == [] then 0
    else
      var last := samples[|samples| - 1];
      TotalCount(samples[..|samples| - 1], prefix) + if prefix <= Reversed(last.stack) then last.count else 0
  }

  // The sample's call path goes on below the prefix.
  predicate GoesOn(s: Sample, prefix: seq<u64>) {
    |Reversed(s.stack)| > |prefix| && prefix <= Reversed(s.stack)
  }

  /** The frames one level below a prefix, each once, as the samples come. */
  function NextFrames(samples: seq<Sample>, prefix: seq<u64>): seq<u64> {
    if samples == [] then []
    else
      var before, last := NextFrames(samples[..|samples| - 1], prefix), samples[|samples| - 1];
      if GoesOn(last, prefix) && Reversed(last.stack)[|prefix|] !in before
      then before + [Reversed(last.stack)[|prefix|]]
      else before
  }

  /** `children`. */
  method Children(samples: seq<Sample>, prefix: seq<u64>) returns (addresses: seq<u64>)
    ensures addresses == NextFrames(samples, prefix)
  {
    addresses := [];
    for i := 0 to |samples|
      invariant addresses == NextFrames(samples[..i], prefix)
    {
      assert samples[..i + 1][..i] == samples[..i];
      var path := Reversed(samples[i].stack);
      if |path| > |prefix| && prefix <= path {
        var next := path[|prefix|];
        if next !in addresses {
          addresses := addresses + [next];
        }
      }
    }
    assert samples[..|samples|] == samples;
  }

  lemma {:induction false} OutermostIsLast(stack: seq<u64>)
    requires stack != []
    ensures Reversed(stack)[0] == stack[|stack| - 1]
    decreases |stack|
  {
    if |stack| > 1 {
      OutermostIsLast(stack[1..]);
    }
  }

  /** `roots`: the last frames of the stacks are the frames below the empty prefix. */
  method Roots(samples: seq<Sample>) returns (addresses: seq<u64>)
    ensures addresses == NextFrames(samples, [])
  {
    addresses := [];
    for i := 0 to |samples|
      invariant addresses == NextFrames(samples[..i], [])
    {
      assert samples[..i + 1][..i] == samples[..i];
      var stack := samples[i].stack;
      if stack != [] {
        OutermostIsLast(stack);
        if stack[|stack| - 1] !in addresses {
          addresses := addresses + [stack[|stack| - 1]];
        }
      }
    }
    assert samples[..|samples|] == samples;
  }

  // ----- What the lists hold -----

  ghost predicate Distinct(addresses: seq<u64>) {
    forall i, j :: 0 <= i < j < |addresses| ==> addresses[i] != addresses[j]
  }

  lemma ExtendsBy(path: seq<u64>, prefix: seq<u64>, address: u64)
    ensures prefix + [address] <= path <==> |path| > |prefix| && prefix <= path && path[|prefix|] == address
  {
    if |path| > |prefix| && prefix <= path && path[|prefix|] == address {
      assert path[..|prefix| + 1] == prefix + [address];
    }
    if prefix + [address] <= path {
      assert path[|prefix|] == (prefix + [address])[|prefix|];
      assert prefix <= prefix + [address];
    }
  }

  /** A frame is among the children exactly if some sample runs through it there, and it is there once. */
  lemma {:induction false} NextFramesAre(samples: seq<Sample>, prefix: seq<u64>, address: u64)
    ensures Distinct(NextFrames(samples, prefix))
    ensures address in NextFrames(samples, prefix)
      <==> exists i :: 0 <= i < |samples| && prefix + [address] <= Reversed(samples[i].stack)
    decreases |samples|
  {
    hide Reversed;
    if samples != [] {
      var n := |samples| - 1;
      NextFramesAre(samples[..n], prefix, address);
      ExtendsBy(Reversed(samples[n].stack), prefix, address);
      if i :| 0 <= i < |samples| && prefix + [address] <= Reversed(samples[i].stack) {
        assert i == n || samples[..n][i] == samples[i];
      }
    }
  }

  // ----- Conservation -----

  /** What the children cost together. */
  function ChildTotals(samples: seq<Sample>, prefix: seq<u64>, addresses: seq<u64>): nat {
    if addresses == [] then 0
    else TotalCount(samples, prefix + [addresses[0]]) + ChildTotals(samples, prefix, addresses[1..])
  }

  // What a sample adds to some children: its count, on the one it runs through.
  function Adds(s: Sample, prefix: seq<u64>, addresses: seq<u64>): nat {
    if GoesOn(s, prefix) && Reversed(s.stack)[|prefix|] in addresses then s.count else 0
  }

  lemma {:induction false} ChildTotalsStep(samples: seq<Sample>, prefix: seq<u64>, addresses: seq<u64>)
    requires samples != [] && Distinct(addresses)
    ensures var n := |samples| - 1;
      ChildTotals(samples, prefix, addresses)
        == ChildTotals(samples[..n], prefix, addresses) + Adds(samples[n], prefix, addresses)
    decreases |addresses|
  {
    hide Reversed;
    if addresses != [] {
      var path := Reversed(samples[|samples| - 1].stack);
      ChildTotalsStep(samples, prefix, addresses[1..]);
      ExtendsBy(path, prefix, addresses[0]);
      assert addresses == [addresses[0]] + addresses[1..];
      assert addresses[0] !in addresses[1..];
    }
  }

  lemma {:induction false} ChildTotalsAppend(samples: seq<Sample>, prefix: seq<u64>, addresses: seq<u64>, more: u64)
    ensures ChildTotals(samples, prefix, addresses + [more])
         == ChildTotals(samples, prefix, addresses) + TotalCount(samples, prefix + [more])
    decreases |addresses|
  {
    hide TotalCount;
    if addresses == [] {
      assert [] + [more] == [more] && [more][1..] == [];
    } else {
      ChildTotalsAppend(samples, prefix, addresses[1..], more);
      assert (addresses + [more])[1..] == addresses[1..] + [more];
    }
  }

  lemma {:induction false} NobodyThere(samples: seq<Sample>, prefix: seq<u64>, address: u64)
    requires address !in NextFrames(samples, prefix)
    ensures TotalCount(samples, prefix + [address]) == 0
    decreases |samples|
  {
    hide Reversed;
    if samples != [] {
      NobodyThere(samples[..|samples| - 1], prefix, address);
      ExtendsBy(Reversed(samples[|samples| - 1].stack), prefix, address);
    }
  }

  /** A node's total is its own count and the totals of its children. */
  lemma {:induction false} TotalIsSelfAndChildren(samples: seq<Sample>, prefix: seq<u64>)
    ensures TotalCount(samples, prefix)
         == SelfCount(samples, prefix) + ChildTotals(samples, prefix, NextFrames(samples, prefix))
    decreases |samples|
  {
    hide Reversed, ChildTotals;
    NoChildren(samples, prefix);
    if samples != [] {
      var n := |samples| - 1;
      var before, path := NextFrames(samples[..n], prefix), Reversed(samples[n].stack);
      TotalIsSelfAndChildren(samples[..n], prefix);
      NextFramesAre(samples, prefix, 0);
      ChildTotalsStep(samples, prefix, NextFrames(samples, prefix));
      if GoesOn(samples[n], prefix) && path[|prefix|] !in before {
        NobodyThere(samples[..n], prefix, path[|prefix|]);
        ChildTotalsAppend(samples[..n], prefix, before, path[|prefix|]);
      }
      assert prefix <= path && !GoesOn(samples[n], prefix) ==> path == prefix;
    }
  }

  lemma NoChildren(samples: seq<Sample>, prefix: seq<u64>)
    ensures ChildTotals(samples, prefix, []) == 0
  {
  }

  /** The counts of all samples, or of those with a stack. */
  function AllCounts(samples: seq<Sample>, stacked: bool): nat {
    if samples == [] then 0
    else
      var last := samples[|samples| - 1];
      AllCounts(samples[..|samples| - 1], stacked) + if stacked && last.stack == [] then 0 else last.count
  }

  lemma {:induction false} EmptyPrefix(samples: seq<Sample>)
    ensures TotalCount(samples, []) == AllCounts(samples, false)
    ensures AllCounts(samples, false) == AllCounts(samples, true) + SelfCount(samples, [])
    decreases |samples|
  {
    if samples != [] {
      EmptyPrefix(samples[..|samples| - 1]);
    }
  }

  /** The roots account for every sample that has a stack. */
  lemma RootsCoverAll(samples: seq<Sample>)
    ensures ChildTotals(samples, [], NextFrames(samples, [])) == AllCounts(samples, true)
  {
    EmptyPrefix(samples);
    TotalIsSelfAndChildren(samples, []);
  }

  /** While all counts together fit 64 bits, so does every count of every node. */
  lemma {:induction false} CountsFit(samples: seq<Sample>, prefix: seq<u64>)
    ensures SelfCount(samples, prefix) <= TotalCount(samples, prefix) <= AllCounts(samples, false)
    ensures prefix != [] ==> TotalCount(samples, prefix) <= AllCounts(samples, true)
    decreases |samples|
  {
    if samples != [] {
      CountsFit(samples[..|samples| - 1], prefix);
    }
  }

  // ----- Against the tree that is built -----

  function Stacks(samples: seq<Sample>): (stacks: seq<CallTree.Stack<u64>>)
    ensures |stacks| == |samples|
  {
    seq(|samples|, i requires 0 <= i < |samples| => CallTree.Stack(Reversed(samples[i].stack), samples[i].count))
  }

  lemma {:induction false} SameSums(samples: seq<Sample>, prefix: seq<u64>)
    ensures CallTree.SumUnder(Stacks(samples), prefix, false) == TotalCount(samples, prefix)
    ensures CallTree.SumOf(Stacks(samples), prefix, false) == SelfCount(samples, prefix)
    decreases |samples|
  {
    if samples != [] {
      var n := |samples| - 1;
      assert Stacks(samples)[..n] == Stacks(samples[..n]);
      SameSums(samples[..n], prefix);
    }
  }

  /** The frames come in the order of the first sample of each. */
  lemma {:induction false} NextFramesAppear(samples: seq<Sample>, prefix: seq<u64>) returns (first: seq<nat>)
    ensures CallTree.AppearAt(Stacks(samples), prefix, NextFrames(samples, prefix), first)
    decreases |samples|
  {
    hide Reversed, CallTree.AppearAt;
    if samples == [] {
      first := [];
      CallTree.NothingAppears<u64>(prefix, false);
      assert Stacks(samples) == [];
    } else {
      var n := |samples| - 1;
      var before := NextFramesAppear(samples[..n], prefix);
      assert Stacks(samples)[..n] == Stacks(samples[..n]);
      CallTree.AppearNext(Stacks(samples), prefix, NextFrames(samples[..n], prefix), before);
      var path := Reversed(samples[n].stack);
      first := if GoesOn(samples[n], prefix) && path[|prefix|] !in NextFrames(samples[..n], prefix) then before + [n]
               else before;
    }
  }

  /** At every call path the lazy tree answers what the tree built from the same samples holds there; and
      the built tree has a node there exactly if the lazy one lists the frame among its parent's children. */
  lemma LazyIsBuilt(samples: seq<Sample>, prefix: seq<u64>, address: u64)
    ensures var built, path := CallTree.Built(Stacks(samples), false), prefix + [address];
      && CallTree.ValueAt(built, path) == TotalCount(samples, path)
      && CallTree.SelfAt(built, path) == SelfCount(samples, path)
      && (CallTree.NodeAt(built, path).Some? <==> address in NextFrames(samples, prefix))
  {
    var path := prefix + [address];
    SameSums(samples, path);
    CallTree.NodeValues(Stacks(samples), false, path);
    NextFramesAre(samples, prefix, address);
    if i :| 0 <= i < |samples| && path <= Reversed(samples[i].stack) {
      assert path <= Stacks(samples)[i].frames;
    }
  }
}
