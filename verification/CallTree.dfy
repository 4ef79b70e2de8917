/** Call trees built by mutation: `CallTree` of `src/report.rs`, whose sums saturate, and the trie of
    `ProfileConverter.swift`, whose sums do not.  A node stands for a call path; its value must be what all
    stacks below that path add up to. */
module CallTree {
  import opened Prelude

  /** A node: its cost with everything it calls, its own cost, and the nodes it calls, each under its frame. */
  datatype Tree<K> = Tree(value: int, selfValue: int, children: seq<Child<K>>)

  datatype Child<K> = Child(frame: K, tree: Tree<K>)

  // The values of a profile are `i64`, and counts `u64`; whether sums fit is said where it matters.
  datatype Stack<K> = Stack(frames: seq<K>, value: int)

  // `saturating_add`, or plain addition.
  function Plus(saturating: bool, a: int, b: int): int {
    if !saturating then a + b else Max(I64_MIN, Min(a + b, I64_MAX))
  }

  /** Exact within int64, and its nearest end beyond it. */
  lemma SaturatesAtTheEnds(a: int, b: int)
    ensures Plus(false, a, b) == a + b
    ensures -0x8000_0000_0000_0000 <= a + b <= 0x7FFF_FFFF_FFFF_FFFF ==> Plus(true, a, b) == a + b
    ensures a + b > 0x7FFF_FFFF_FFFF_FFFF ==> Plus(true, a, b) == 0x7FFF_FFFF_FFFF_FFFF
    ensures a + b < -0x8000_0000_0000_0000 ==> Plus(true, a, b) == -0x8000_0000_0000_0000
  {
  }

  // ----- Building -----

  function Find<K(==)>(children: seq<Child<K>>, frame: K): (i: nat)
    ensures i <= |children|
    ensures i < |children| ==> children[i].frame == frame
    ensures forall j :: 0 <= j < i ==> children[j].frame != frame
  {
    if children == [] || children[0].frame == frame then 0 else 1 + Find(children[1..], frame)
  }

  /** One stack more: its value on every node along its path, and on the last one as its own. */
  function Insert<K(==)>(t: Tree<K>, frames: seq<K>, v: int, saturating: bool): Tree<K>
    decreases |frames|
  {
    var grown := t.(value := Plus(saturating, t.value, v));
    if frames == [] then grown.(selfValue := Plus(saturating, t.selfValue, v))
    else
      var i := Find(t.children, frames[0]);
      var child := if i < |t.children| then t.children[i].tree else Tree(0, 0, []);
      var next := Child(frames[0], Insert(child, frames[1..], v, saturating));
      grown.(children := if i < |t.children| then t.children[i := next] else t.children + [next])
  }

  function Built<K(==)>(stacks: seq<Stack<K>>, saturating: bool): Tree<K> {
    if stacks == [] then Tree(0, 0, [])
    else
      var last := stacks[|stacks| - 1];
      Insert(Built(stacks[..|stacks| - 1], saturating), last.frames, last.value, saturating)
  }

  /** `from_stacks`. */
  method FromStacks<K(==)>(stacks: seq<Stack<K>>, saturating: bool) returns (root: Tree<K>)
    ensures root == Built(stacks, saturating)
  {
    root := Tree(0, 0, []);
    for i := 0 to |stacks|
      invariant root == Built(stacks[..i], saturating)
    {
      assert stacks[..i + 1][..i] == stacks[..i];
      root := Insert(root, stacks[i].frames, stacks[i].value, saturating);
    }
    assert stacks[..|stacks|] == stacks;
  }

  // ----- What a node holds -----

  function NodeAt<K(==)>(t: Tree<K>, path: seq<K>): Option<Tree<K>>
    decreases |path|
  {
    if path == [] then Some(t)
    else
      var i := Find(t.children, path[0]);
      if i < |t.children| then NodeAt(t.children[i].tree, path[1..]) else None
  }

  function ValueAt<K(==)>(t: Tree<K>, path: seq<K>): int {
    match NodeAt(t, path) case Some(n) => n.value case None => 0
  }

  function SelfAt<K(==)>(t: Tree<K>, path: seq<K>): int {
    match NodeAt(t, path) case Some(n) => n.selfValue case None => 0
  }

  /** What the stacks below a path add up to, in their order. */
  function SumUnder<K(==)>(stacks: seq<Stack<K>>, path: seq<K>, saturating: bool): int {
    if stacks == [] then 0
    else
      var last := stacks[|stacks| - 1];
      var before := SumUnder(stacks[..|stacks| - 1], path, saturating);
      if path <= last.frames then Plus(saturating, before, last.value) else before
  }

  function SumOf<K(==)>(stacks: seq<Stack<K>>, path: seq<K>, saturating: bool): int {
    if stacks == [] then 0
    else
      var last := stacks[|stacks| - 1];
      var before := SumOf(stacks[..|stacks| - 1], path, saturating);
      if path == last.frames then Plus(saturating, before, last.value) else before
  }

  lemma FindUpdated<K>(children: seq<Child<K>>, i: nat, next: Child<K>, frame: K)
    requires i == Find(children, next.frame)
    ensures var updated := if i < |children| then children[i := next] else children + [next];
      var j := Find(updated, frame);
      && (frame == next.frame ==> j == i && i < |updated| && updated[i] == next)
      && (frame != next.frame ==>
            && (j < |updated| <==> Find(children, frame) < |children|)
            && (j < |updated| ==> j == Find(children, frame) && updated[j] == children[j]))
  {
    var updated := if i < |children| then children[i := next] else children + [next];
    FindIsFirst(updated, frame);
    FindIsFirst(children, frame);
    if frame == next.frame {
      assert updated[i].frame == frame;
    } else if Find(children, frame) < |children| {
      assert updated[Find(children, frame)].frame == frame;
    }
  }

  lemma FindIsFirst<K>(children: seq<Child<K>>, frame: K)
    ensures forall k :: 0 <= k < |children| && children[k].frame == frame ==> Find(children, frame) <= k
  {
    var i := Find(children, frame);
    assert forall k :: 0 <= k < i ==> children[k].frame != frame;
  }

  lemma {:induction false} InsertAt<K>(t: Tree<K>, frames: seq<K>, v: int, saturating: bool, path: seq<K>)
    ensures var u := Insert(t, frames, v, saturating);
      && (NodeAt(u, path).Some? <==> NodeAt(t, path).Some? || path <= frames)
      && ValueAt(u, path) == (if path <= frames then Plus(saturating, ValueAt(t, path), v) else ValueAt(t, path))
      && SelfAt(u, path) == (if path == frames then Plus(saturating, SelfAt(t, path), v) else SelfAt(t, path))
    decreases |path|
  {
    hide Insert, Find;
    InsertNode(t, frames, v, saturating);
    if path != [] && frames != [] {
      var i := Find(t.children, frames[0]);
      var child := if i < |t.children| then t.children[i].tree else Tree(0, 0, []);
      FindUpdated(t.children, i, Child(frames[0], Insert(child, frames[1..], v, saturating)), path[0]);
      if path[0] == frames[0] {
        InsertAt(child, frames[1..], v, saturating, path[1..]);
        NothingBelow<K>(path[1..]);
      }
      PathSplit(path, frames);
    }
  }

  lemma InsertNode<K>(t: Tree<K>, frames: seq<K>, v: int, saturating: bool)
    ensures var u := Insert(t, frames, v, saturating);
      && u.value == Plus(saturating, t.value, v)
      && (frames == [] ==> u.selfValue == Plus(saturating, t.selfValue, v) && u.children == t.children)
      && (frames != [] ==>
            var i := Find(t.children, frames[0]);
            var child := if i < |t.children| then t.children[i].tree else Tree(0, 0, []);
            var next := Child(frames[0], Insert(child, frames[1..], v, saturating));
            u.selfValue == t.selfValue && u.children ==
              if i < |t.children| then t.children[i := next] else t.children + [next])
  {
  }

  lemma PathSplit<K>(path: seq<K>, frames: seq<K>)
    requires path != [] && frames != []
    ensures path <= frames <==> path[0] == frames[0] && path[1..] <= frames[1..]
    ensures path == frames <==> path[0] == frames[0] && path[1..] == frames[1..]
  {
    assert path == [path[0]] + path[1..] && frames == [frames[0]] + frames[1..];
  }

  lemma NothingBelow<K>(path: seq<K>)
    ensures path != [] ==> NodeAt<K>(Tree(0, 0, []), path).None?
  {
  }

  /** Each node holds exactly the stacks below its path, summed as they came; there is a node for every
      path that some stack runs through, and no other. */
  lemma {:induction false} NodeValues<K>(stacks: seq<Stack<K>>, saturating: bool, path: seq<K>)
    ensures var t := Built(stacks, saturating);
      && ValueAt(t, path) == SumUnder(stacks, path, saturating)
      && SelfAt(t, path) == SumOf(stacks, path, saturating)
      && (NodeAt(t, path).Some? <==> path == [] || exists i :: 0 <= i < |stacks| && path <= stacks[i].frames)
  {
    if stacks == [] {
      NothingBelow(path);
    } else {
      var n := |stacks| - 1;
      NodeValues(stacks[..n], saturating, path);
      InsertAt(Built(stacks[..n], saturating), stacks[n].frames, stacks[n].value, saturating, path);
      if i :| 0 <= i < n && path <= stacks[i].frames {
        assert path <= stacks[..n][i].frames;
      }
    }
  }

  // ----- In what order -----

  // The frames below a path, in the order in which the node has them.
  function FramesAt<K(==)>(t: Tree<K>, path: seq<K>): seq<K> {
    match NodeAt(t, path) case Some(n) => FramesOf(n.children) case None => []
  }

  function FramesOf<K>(children: seq<Child<K>>): (frames: seq<K>)
    ensures |frames| == |children|
  {
    seq(|children|, i requires 0 <= i < |children| => children[i].frame)
  }

  // The stack goes on below the path.
  predicate GoesBelow<K(==)>(path: seq<K>, frames: seq<K>) {
    path <= frames && |path| < |frames|
  }

  lemma {:induction false} InsertFrames<K>(t: Tree<K>, frames: seq<K>, v: int, saturating: bool, path: seq<K>)
    ensures FramesAt(Insert(t, frames, v, saturating), path)
      == if GoesBelow(path, frames) && frames[|path|] !in FramesAt(t, path) then FramesAt(t, path) + [frames[|path|]]
         else FramesAt(t, path)
    decreases |path|
  {
    hide Insert, Find;
    InsertNode(t, frames, v, saturating);
    if path == [] {
      if frames != [] {
        FrameKnown(t.children, frames[0]);
        var i := Find(t.children, frames[0]);
        var child := if i < |t.children| then t.children[i].tree else Tree(0, 0, []);
        var next := Child(frames[0], Insert(child, frames[1..], v, saturating));
        assert FramesOf(if i < |t.children| then t.children[i := next] else t.children + [next])
            == if i < |t.children| then FramesOf(t.children) else FramesOf(t.children) + [frames[0]];
      }
    } else if frames != [] {
      var i := Find(t.children, frames[0]);
      var child := if i < |t.children| then t.children[i].tree else Tree(0, 0, []);
      FindUpdated(t.children, i, Child(frames[0], Insert(child, frames[1..], v, saturating)), path[0]);
      PathSplit(path, frames);
      if path[0] == frames[0] {
        InsertFrames(child, frames[1..], v, saturating, path[1..]);
        NothingBelow<K>(path[1..]);
        assert path <= frames && |path| < |frames| ==> frames[1..][|path[1..]|] == frames[|path|];
      }
    }
  }

  lemma FrameKnown<K>(children: seq<Child<K>>, frame: K)
    ensures frame in FramesOf(children) <==> Find(children, frame) < |children|
  {
    FindIsFirst(children, frame);
    if Find(children, frame) < |children| {
      assert FramesOf(children)[Find(children, frame)] == frame;
    }
    if frame in FramesOf(children) {
      var i :| 0 <= i < |children| && FramesOf(children)[i] == frame;
      assert children[i].frame == frame;
    }
  }

  /** The frames that stacks have below a path, in the order of the first stack of each. */
  ghost predicate AppearAt<K(!new)>(stacks: seq<Stack<K>>, path: seq<K>, frames: seq<K>, first: seq<nat>) {
    && |first| == |frames| && (forall k, m :: 0 <= k < m < |first| ==> first[k] < first[m])
    && (forall k :: 0 <= k < |first| ==> FirstBelow(stacks, path, frames[k], first[k]))
    && (forall i, f :: 0 <= i < |stacks| && path + [f] <= stacks[i].frames ==> f in frames)
  }

  ghost predicate FirstBelow<K>(stacks: seq<Stack<K>>, path: seq<K>, f: K, i: nat) {
    && i < |stacks| && path + [f] <= stacks[i].frames
    && forall j :: 0 <= j < i ==> !(path + [f] <= stacks[j].frames)
  }

  ghost predicate Appear<K(!new)>(stacks: seq<Stack<K>>, path: seq<K>, frames: seq<K>) {
    exists first :: AppearAt(stacks, path, frames, first)
  }

  lemma FrameBelow<K>(path: seq<K>, frames: seq<K>, f: K)
    ensures path + [f] <= frames <==> GoesBelow(path, frames) && frames[|path|] == f
  {
    if GoesBelow(path, frames) && frames[|path|] == f {
      assert frames[..|path| + 1] == path + [f];
    }
    if path + [f] <= frames {
      assert frames[|path|] == (path + [f])[|path|];
      assert path <= path + [f];
    }
  }

  // One stack more: its frame below the path is a new one, or nothing changes.
  lemma AppearNext<K(!new)>(stacks: seq<Stack<K>>, path: seq<K>, frames: seq<K>, first: seq<nat>)
    requires stacks != [] && AppearAt(stacks[..|stacks| - 1], path, frames, first)
    ensures var last := stacks[|stacks| - 1].frames;
      if GoesBelow(path, last) && last[|path|] !in frames
        then AppearAt(stacks, path, frames + [last[|path|]], first + [|stacks| - 1])
      else AppearAt(stacks, path, frames, first)
  {
    var n := |stacks| - 1;
    var last := stacks[n].frames;
    forall k | 0 <= k < |first| ensures FirstBelow(stacks, path, frames[k], first[k]) {
      assert FirstBelow(stacks[..n], path, frames[k], first[k]);
    }
    forall f ensures path + [f] <= last <==> GoesBelow(path, last) && last[|path|] == f {
      FrameBelow(path, last, f);
    }
    forall i, f | 0 <= i < n && path + [f] <= stacks[i].frames ensures f in frames {
      assert path + [f] <= stacks[..n][i].frames;
    }
    if GoesBelow(path, last) && last[|path|] !in frames {
      assert FirstBelow(stacks, path, last[|path|], n);
    }
  }

  lemma NothingAppears<K(!new)>(path: seq<K>, saturating: bool)
    ensures FramesAt(Built<K>([], saturating), path) == [] && AppearAt([], path, [], [])
  {
    NothingBelow<K>(path);
  }

  /** A node has its children in the order in which their first stacks came. */
  lemma {:induction false} ChildrenAppear<K(!new)>(stacks: seq<Stack<K>>, saturating: bool, path: seq<K>)
      returns (first: seq<nat>)
    ensures AppearAt(stacks, path, FramesAt(Built(stacks, saturating), path), first)
    decreases |stacks|
  {
    hide Insert, FramesAt, AppearAt;
    if stacks == [] {
      first := [];
      NothingAppears<K>(path, saturating);
    } else {
      var n := |stacks| - 1;
      var before := ChildrenAppear(stacks[..n], saturating, path);
      var frames := FramesAt(Built(stacks[..n], saturating), path);
      InsertFrames(Built(stacks[..n], saturating), stacks[n].frames, stacks[n].value, saturating, path);
      AppearNext(stacks, path, frames, before);
      first := before;
      if GoesBelow(path, stacks[n].frames) && stacks[n].frames[|path|] !in frames {
        first := before + [n];
      }
    }
  }

  // ----- Conservation -----

  function ChildSum<K>(children: seq<Child<K>>): int {
    if children == [] then 0 else ChildSum(children[..|children| - 1]) + children[|children| - 1].tree.value
  }

  /** Everywhere in the tree: cost is own cost plus what the children cost; and no frame stands twice
      among the children of a node. */
  ghost predicate Balanced<K>(t: Tree<K>) {
    && t.value == t.selfValue + ChildSum(t.children)
    && DistinctFrames(t.children)
    && (forall i :: 0 <= i < |t.children| ==> Balanced(t.children[i].tree))
  }

  lemma {:induction false} ChildSumUpdate<K>(children: seq<Child<K>>, i: nat, next: Child<K>)
    requires i < |children|
    ensures ChildSum(children[i := next]) == ChildSum(children) - children[i].tree.value + next.tree.value
  {
    var n := |children| - 1;
    if i == n {
      assert children[i := next][..n] == children[..n];
    } else {
      ChildSumUpdate(children[..n], i, next);
      assert children[i := next][..n] == children[..n][i := next];
    }
  }

  ghost predicate DistinctFrames<K>(children: seq<Child<K>>) {
    forall i, j :: 0 <= i < j < |children| ==> children[i].frame != children[j].frame
  }

  ghost predicate AllBalanced<K>(children: seq<Child<K>>) {
    forall i :: 0 <= i < |children| ==> Balanced(children[i].tree)
  }

  // One child more, or one replaced.
  lemma ChildrenBalanced<K>(children: seq<Child<K>>, next: Child<K>)
    requires DistinctFrames(children) && AllBalanced(children) && Balanced(next.tree)
    ensures var i := Find(children, next.frame);
      var updated := if i < |children| then children[i := next] else children + [next];
      && DistinctFrames(updated) && AllBalanced(updated)
      && ChildSum(updated) == ChildSum(children) + next.tree.value - if i < |children| then children[i].tree.value
        else 0
  {
    hide Balanced;
    var i := Find(children, next.frame);
    if i < |children| {
      ChildSumUpdate(children, i, next);
    } else {
      assert (children + [next])[..|children|] == children;
    }
  }

  /** Plain sums keep the balance. */
  lemma {:induction false} InsertBalances<K>(t: Tree<K>, frames: seq<K>, v: int)
    requires Balanced(t)
    ensures Balanced(Insert(t, frames, v, false))
    decreases |frames|
  {
    hide Balanced, DistinctFrames, AllBalanced, ChildSum;
    BalancedParts(t);
    if frames != [] {
      var i := Find(t.children, frames[0]);
      var child := if i < |t.children| then t.children[i].tree else Tree(0, 0, []);
      EmptyBalanced<K>();
      InsertBalances(child, frames[1..], v);
      ChildrenBalanced(t.children, Child(frames[0], Insert(child, frames[1..], v, false)));
      InsertedValue(child, frames[1..], v);
    }
    BalancedWhole(Insert(t, frames, v, false));
  }

  lemma BalancedParts<K>(t: Tree<K>)
    requires Balanced(t)
    ensures t.value == t.selfValue + ChildSum(t.children) && DistinctFrames(t.children) && AllBalanced(t.children)
    ensures forall i :: 0 <= i < |t.children| ==> Balanced(t.children[i].tree)
  {
  }

  lemma BalancedWhole<K>(t: Tree<K>)
    requires t.value == t.selfValue + ChildSum(t.children) && DistinctFrames(t.children) && AllBalanced(t.children)
    ensures Balanced(t)
  {
  }

  lemma EmptyBalanced<K>()
    ensures Balanced<K>(Tree(0, 0, []))
  {
  }

  lemma InsertedValue<K>(t: Tree<K>, frames: seq<K>, v: int)
    ensures Insert(t, frames, v, false).value == t.value + v
  {
  }

  lemma {:induction false} BuiltBalances<K>(stacks: seq<Stack<K>>)
    ensures Balanced(Built(stacks, false))
  {
    if stacks != [] {
      var n := |stacks| - 1;
      BuiltBalances(stacks[..n]);
      InsertBalances(Built(stacks[..n], false), stacks[n].frames, stacks[n].value);
    }
  }

  function Abs(v: int): nat {
    if v < 0 then -v else v
  }

  function AbsSum<K>(stacks: seq<Stack<K>>): nat {
    if stacks == [] then 0 else AbsSum(stacks[..|stacks| - 1]) + Abs(stacks[|stacks| - 1].value)
  }

  // No node can hold more than all stacks together.
  ghost predicate Within<K>(t: Tree<K>, bound: nat) {
    && Abs(t.value) <= bound && Abs(t.selfValue) <= bound
    && forall i :: 0 <= i < |t.children| ==> Within(t.children[i].tree, bound)
  }

  lemma {:induction false} WithinMore<K>(t: Tree<K>, bound: nat, more: nat)
    requires Within(t, bound) && bound <= more
    ensures Within(t, more)
  {
    forall i | 0 <= i < |t.children| ensures Within(t.children[i].tree, more) {
      WithinMore(t.children[i].tree, bound, more);
    }
  }

  lemma {:induction false} InsertWithin<K>(t: Tree<K>, frames: seq<K>, v: int, bound: nat)
    requires Within(t, bound)
    ensures Within(Insert(t, frames, v, false), bound + Abs(v))
    ensures bound + Abs(v) <= I64_MAX ==> Insert(t, frames, v, true) == Insert(t, frames, v, false)
    decreases |frames|
  {
    hide Insert, Find;
    InsertNode(t, frames, v, true);
    InsertNode(t, frames, v, false);
    var more := bound + Abs(v);
    forall i | 0 <= i < |t.children| ensures Within(t.children[i].tree, more) {
      WithinMore(t.children[i].tree, bound, more);
    }
    if frames != [] {
      var i := Find(t.children, frames[0]);
      var child := if i < |t.children| then t.children[i].tree else Tree(0, 0, []);
      InsertWithin(child, frames[1..], v, bound);
    }
  }

  /** While the absolute values of all stacks together fit an int64, nothing saturates anywhere. */
  lemma {:induction false} NothingSaturates<K>(stacks: seq<Stack<K>>)
    requires AbsSum(stacks) <= I64_MAX
    ensures Built(stacks, true) == Built(stacks, false) && Within(Built(stacks, false), AbsSum(stacks))
  {
    if stacks != [] {
      var n := |stacks| - 1;
      NothingSaturates(stacks[..n]);
      InsertWithin(Built(stacks[..n], false), stacks[n].frames, stacks[n].value, AbsSum(stacks[..n]));
    }
  }

  // Every sum of the tree, without saturation.
  ghost predicate SumsFit<K(!new)>(stacks: seq<Stack<K>>) {
    forall path: seq<K> :: InI64(SumUnder(stacks, path, false)) && InI64(SumOf(stacks, path, false))
  }

  /** After each stack, every sum is an int64. */
  ghost predicate RunningSumsFit<K(!new)>(stacks: seq<Stack<K>>) {
    stacks == [] || (RunningSumsFit(stacks[..|stacks| - 1]) && SumsFit(stacks))
  }

  // The tree with saturating sums holds the plain sums, at every path.
  ghost predicate HoldsPlainSums<K(!new)>(stacks: seq<Stack<K>>) {
    forall path: seq<K> ::
      && ValueAt(Built(stacks, true), path) == SumUnder(stacks, path, false)
      && SelfAt(Built(stacks, true), path) == SumOf(stacks, path, false)
  }

  /** It does so after each stack. */
  ghost predicate AlwaysHoldsPlainSums<K(!new)>(stacks: seq<Stack<K>>) {
    stacks == [] || (AlwaysHoldsPlainSums(stacks[..|stacks| - 1]) && HoldsPlainSums(stacks))
  }

  // An insertion saturates nothing if the sums along its path stay in range.
  lemma {:induction false} InsertExact<K(!new)>(t: Tree<K>, frames: seq<K>, v: int)
    requires forall path: seq<K> :: path <= frames ==> InI64(ValueAt(t, path) + v)
    requires InI64(SelfAt(t, frames) + v)
    ensures Insert(t, frames, v, true) == Insert(t, frames, v, false)
    decreases |frames|
  {
    hide Insert, Find;
    InsertNode(t, frames, v, true);
    InsertNode(t, frames, v, false);
    var here: seq<K> := [];
    assert here <= frames && InI64(ValueAt(t, here) + v);
    if frames != [] {
      var i := Find(t.children, frames[0]);
      var child := if i < |t.children| then t.children[i].tree else Tree(0, 0, []);
      forall path: seq<K> | path <= frames[1..] ensures InI64(ValueAt(child, path) + v) {
        Below(t, frames[0], path);
        PathSplit([frames[0]] + path, frames);
        assert ([frames[0]] + path)[1..] == path;
        assert InI64(ValueAt(t, [frames[0]] + path) + v);
        NothingBelow(path);
      }
      Below(t, frames[0], frames[1..]);
      assert [frames[0]] + frames[1..] == frames;
      NothingBelow(frames[1..]);
      InsertExact(child, frames[1..], v);
    }
  }

  lemma Below<K>(t: Tree<K>, frame: K, path: seq<K>)
    ensures var i := Find(t.children, frame);
      NodeAt(t, [frame] + path) == if i < |t.children| then NodeAt(t.children[i].tree, path) else None
  {
    hide Find;
    assert ([frame] + path)[1..] == path;
  }

  // A sum that saturates is an int64.
  lemma {:induction false} SaturatedInRange<K>(stacks: seq<Stack<K>>, path: seq<K>)
    ensures InI64(SumUnder(stacks, path, true)) && InI64(SumOf(stacks, path, true))
  {
    if stacks != [] {
      SaturatedInRange(stacks[..|stacks| - 1], path);
    }
  }

  lemma {:induction false} FittingIsPlain<K(!new)>(stacks: seq<Stack<K>>)
    requires RunningSumsFit(stacks)
    ensures Built(stacks, true) == Built(stacks, false) && HoldsPlainSums(stacks)
  {
    hide Insert, ValueAt, SelfAt, HoldsPlainSums;
    if stacks != [] {
      var n := |stacks| - 1;
      var t, last := Built(stacks[..n], false), stacks[n];
      FittingIsPlain(stacks[..n]);
      forall path: seq<K>
        ensures path <= last.frames ==> InI64(ValueAt(t, path) + last.value)
        ensures path == last.frames ==> InI64(SelfAt(t, path) + last.value)
      {
        NodeValues(stacks[..n], false, path);
        assert InI64(SumUnder(stacks, path, false)) && InI64(SumOf(stacks, path, false));
      }
      InsertExact(t, last.frames, last.value);
    }
    PlainHolds(stacks);
  }

  lemma PlainHolds<K(!new)>(stacks: seq<Stack<K>>)
    requires Built(stacks, true) == Built(stacks, false)
    ensures HoldsPlainSums(stacks)
  {
    hide Built, ValueAt, SelfAt, SumUnder, SumOf;
    forall path: seq<K>
      ensures ValueAt(Built(stacks, true), path) == SumUnder(stacks, path, false)
      ensures SelfAt(Built(stacks, true), path) == SumOf(stacks, path, false)
    {
      NodeValues(stacks, false, path);
    }
  }

  lemma PlainFits<K(!new)>(stacks: seq<Stack<K>>)
    requires HoldsPlainSums(stacks)
    ensures SumsFit(stacks)
  {
    hide Built, ValueAt, SelfAt, SumUnder, SumOf, NodeAt;
    forall path: seq<K> ensures InI64(SumUnder(stacks, path, false)) && InI64(SumOf(stacks, path, false)) {
      NodeValues(stacks, true, path);
      SaturatedInRange(stacks, path);
    }
  }

  /** The exact condition, whatever the signs: the saturating tree holds the plain sums all along exactly if
      every running sum, of a path's stacks and of those that end there, is an int64. */
  lemma {:induction false} SaturatesExactly<K(!new)>(stacks: seq<Stack<K>>)
    ensures AlwaysHoldsPlainSums(stacks) <==> RunningSumsFit(stacks)
  {
    hide HoldsPlainSums, SumsFit;
    if stacks != [] {
      SaturatesExactly(stacks[..|stacks| - 1]);
      if AlwaysHoldsPlainSums(stacks) {
        PlainFits(stacks);
      }
      if RunningSumsFit(stacks) {
        FittingIsPlain(stacks);
      }
    }
  }

  lemma {:induction false} RootIsAll<K>(stacks: seq<Stack<K>>)
    requires forall i :: 0 <= i < |stacks| ==> stacks[i].value >= 0
    ensures SumUnder(stacks, [], false) == AbsSum(stacks)
  {
    if stacks != [] {
      RootIsAll(stacks[..|stacks| - 1]);
    }
  }

  /** Without negative stacks: the finished tree holds the plain sums exactly if all values together are an
      int64. */
  lemma NonNegativeFitsExactly<K(!new)>(stacks: seq<Stack<K>>)
    requires forall i :: 0 <= i < |stacks| ==> stacks[i].value >= 0
    ensures HoldsPlainSums(stacks) <==> AbsSum(stacks) <= I64_MAX
  {
    hide Built, HoldsPlainSums;
    RootIsAll(stacks);
    if HoldsPlainSums(stacks) {
      PlainFits(stacks);
      assert InI64(SumUnder(stacks, [], false));
    }
    if AbsSum(stacks) <= I64_MAX {
      NothingSaturates(stacks);
      PlainHolds(stacks);
    }
  }

  /** While every running sum is an int64, a node costs what it costs itself plus what its children cost. */
  lemma TreeConserves<K(!new)>(stacks: seq<Stack<K>>)
    requires RunningSumsFit(stacks)
    ensures Balanced(Built(stacks, true))
  {
    FittingIsPlain(stacks);
    BuiltBalances(stacks);
  }

  /** With saturation it need not: here a function and its callee together exceed an int64. */
  lemma SaturationUnbalances<K>(caller: K, callee: K)
    ensures var stacks := [Stack([caller], I64_MAX), Stack([caller, callee], 1)];
      !Balanced(Built(stacks, true)) && AbsSum(stacks) == I64_MAX + 1
  {
    var stacks := [Stack([caller], I64_MAX), Stack([caller, callee], 1)];
    var first := [Stack([caller], I64_MAX)];
    assert stacks[..1] == first && first[..0] == [];
    var leaf: Tree<K> := Tree(I64_MAX, I64_MAX, []);
    var one := Tree(I64_MAX, 0, [Child(caller, leaf)]);
    assert [caller][1..] == [] && [caller, callee][1..] == [callee] && [callee][1..] == [];
    var empty: Tree<K> := Tree(0, 0, []);
    assert Insert(empty, [], I64_MAX, true) == leaf;
    assert Built(first, true) == one;
    var below: Tree<K> := Tree(1, 1, []);
    assert Insert(leaf, [callee], 1, true) == Tree(I64_MAX, I64_MAX, [Child(callee, below)]);
    var two := Tree(I64_MAX, 0, [Child(caller, Tree(I64_MAX, I64_MAX, [Child(callee, below)]))]);
    assert Built(stacks, true) == two;
    assert two.children[0].tree.children[..0] == [];
    assert !Balanced(two.children[0].tree);
    assert AbsSum(first) == I64_MAX;
  }
}
