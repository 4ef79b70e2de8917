/** What is made of a call tree: the limited rendering of `src/report.rs`, and the flat list that
    `ProfileConverter.swift` makes of its trie. */
module TreeViews {
  import opened Prelude
  import opened CallTree

  // ----- Rendering -----

  /** Which nodes are shown, and in what order.  The order must only be an order: it loses and adds nothing. */
  datatype View<!K> = View(eligible: int -> bool, arrange: seq<Child<K>> -> seq<Child<K>>)

  ghost predicate Orders<K(!new)>(view: View<K>) {
    forall children :: multiset(view.arrange(children)) == multiset(children)
  }

  function Eligible<K>(children: seq<Child<K>>, eligible: int -> bool): (r: seq<Child<K>>)
    ensures |r| <= |children|
    ensures forall i :: 0 <= i < |r| ==>
      eligible(r[i].tree.value) && exists j :: 0 <= j < |children| && children[j] == r[i]
  {
    if children == [] then []
    else
      var rest := Eligible(children[..|children| - 1], eligible);
      var last := children[|children| - 1];
      if eligible(last.tree.value) then rest + [last] else rest
  }

  ghost function Shown<K(!new)>(t: Tree<K>, view: View<K>): (r: seq<Child<K>>)
    requires Orders(view)
    ensures |r| <= |t.children| && forall i :: 0 <= i < |r| ==> r[i] in t.children && r[i].tree < t
  {
    var some := Eligible(t.children, view.eligible);
    var r := view.arrange(some);
    assert multiset(r) == multiset(some);
    assert |r| == |multiset(r)| == |multiset(some)| == |some|;
    assert forall i :: 0 <= i < |r| ==> r[i] in t.children by {
      forall i | 0 <= i < |r| ensures r[i] in t.children {
        assert r[i] in multiset(r);
        assert r[i] in some;
      }
    }
    r
  }

  // A line of the rendering: for each ancestor and itself, whether it is the last of its siblings; and the node.
  datatype Line<K> = Line(branches: seq<bool>, frame: K, value: int, selfValue: int)

  /** All lines below a node, depth first. */
  ghost function Lines<K(!new)>(t: Tree<K>, view: View<K>, branches: seq<bool>): seq<Line<K>>
    requires Orders(view)
    decreases t, |t.children| + 1
  {
    LinesFrom(t, Shown(t, view), 0, view, branches)
  }

  ghost function LinesFrom<K(!new)>(t: Tree<K>, shown: seq<Child<K>>, i: nat, view: View<K>,
                                    branches: seq<bool>): seq<Line<K>>
    requires Orders(view) && i <= |shown| <= |t.children|
    requires forall j :: 0 <= j < |shown| ==> shown[j].tree < t
    decreases t, |shown| - i
  {
    if i == |shown| then []
    else
      var c := shown[i];
      var here := branches + [i + 1 == |shown|];
      [Line(here, c.frame, c.tree.value, c.tree.selfValue)] + Lines(c.tree, view, here)
        + LinesFrom(t, shown, i + 1, view, branches)
  }

  /** The first lines of a list, as many as a limit still allows. */
  function UpTo<T>(items: seq<T>, limit: nat, emitted: nat): seq<T> {
    if emitted >= limit then [] else items[..Min(limit - emitted, |items|)]
  }

  lemma UpToAppend<T>(a: seq<T>, b: seq<T>, limit: nat, emitted: nat)
    ensures UpTo(a + b, limit, emitted) == UpTo(a, limit, emitted) + UpTo(b, limit, emitted + |UpTo(a, limit, emitted)|)
  {
  }

  /** `render_children` under a limit gives exactly the first lines of the whole rendering. */
  method RenderChildren<K(!new)>(t: Tree<K>, view: View<K>, branches: seq<bool>, limit: nat, lines: seq<Line<K>>,
                                 emitted: nat)
      returns (all: seq<Line<K>>, count: nat)
    requires Orders(view)
    ensures all == lines + UpTo(Lines(t, view, branches), limit, emitted)
    ensures count == emitted + |UpTo(Lines(t, view, branches), limit, emitted)|
    decreases t
  {
    hide Lines, LinesFrom, UpTo;
    var children := view.arrange(Eligible(t.children, view.eligible));
    assert children == Shown(t, view);
    LinesStart(t, view, branches);
    UpToNone<Line<K>>(limit, emitted);
    all, count := lines, emitted;
    ghost var done: seq<Line<K>> := [];
    for i := 0 to |children|
      invariant Lines(t, view, branches) == done + LinesFrom(t, children, i, view, branches)
      invariant all == lines + UpTo(done, limit, emitted) && count == emitted + |UpTo(done, limit, emitted)|
    {
      if count >= limit {
        UpToFull(done, LinesFrom(t, children, i, view, branches), limit, emitted);
        return;
      }
      var child := children[i];
      var here := branches + [i + 1 == |children|];
      var line := Line(here, child.frame, child.tree.value, child.tree.selfValue);
      LinesNext(t, children, i, view, branches, done);
      UpToOne(line, limit, count);
      UpToExtend(lines, done, [line], limit, emitted);
      all := all + [line];
      count := count + 1;
      done := done + [line];
      UpToExtend(lines, done, Lines(child.tree, view, here), limit, emitted);
      all, count := RenderChildren(child.tree, view, here, limit, all, count);
      done := done + Lines(child.tree, view, here);
    }
    LinesEnd(t, children, view, branches);
    assert done + [] == done;
  }

  lemma LinesStart<K(!new)>(t: Tree<K>, view: View<K>, branches: seq<bool>)
    requires Orders(view)
    ensures Lines(t, view, branches) == [] + LinesFrom(t, Shown(t, view), 0, view, branches)
  {
  }

  lemma LinesNext<K(!new)>(t: Tree<K>, shown: seq<Child<K>>, i: nat, view: View<K>, branches: seq<bool>,
                           done: seq<Line<K>>)
    requires Orders(view) && i < |shown| <= |t.children| && forall j :: 0 <= j < |shown| ==> shown[j].tree < t
    ensures var c, here := shown[i], branches + [i + 1 == |shown|];
      done + LinesFrom(t, shown, i, view, branches)
      == done + [Line(here, c.frame, c.tree.value, c.tree.selfValue)] + Lines(c.tree, view, here)
        + LinesFrom(t, shown, i + 1, view, branches)
  {
    hide Lines;
  }

  lemma LinesEnd<K(!new)>(t: Tree<K>, shown: seq<Child<K>>, view: View<K>, branches: seq<bool>)
    requires Orders(view) && |shown| <= |t.children| && forall j :: 0 <= j < |shown| ==> shown[j].tree < t
    ensures LinesFrom(t, shown, |shown|, view, branches) == []
  {
  }

  lemma UpToNone<T>(limit: nat, emitted: nat)
    ensures UpTo<T>([], limit, emitted) == []
  {
  }

  lemma UpToOne<T>(item: T, limit: nat, emitted: nat)
    requires emitted < limit
    ensures UpTo([item], limit, emitted) == [item]
  {
  }

  lemma UpToFull<T>(done: seq<T>, more: seq<T>, limit: nat, emitted: nat)
    requires emitted + |UpTo(done, limit, emitted)| >= limit
    ensures UpTo(done + more, limit, emitted) == UpTo(done, limit, emitted)
  {
  }

  lemma UpToExtend<T>(lines: seq<T>, done: seq<T>, more: seq<T>, limit: nat, emitted: nat)
    ensures var count := emitted + |UpTo(done, limit, emitted)|;
      && lines + UpTo(done + more, limit, emitted) == lines + UpTo(done, limit, emitted) + UpTo(more, limit, count)
      && emitted + |UpTo(done + more, limit, emitted)| == count + |UpTo(more, limit, count)|
  {
    UpToAppend(done, more, limit, emitted);
    hide UpTo;
  }

  // ----- The lines by position -----

  /** The line of the node that these choices of a child lead to: its frame and costs, and for each step whether it
      took the last of the shown children. */
  ghost predicate LineAt<K(!new)>(t: Tree<K>, view: View<K>, branches: seq<bool>, path: seq<nat>, line: Line<K>)
    requires Orders(view)
    decreases |path|
  {
    && path != [] && path[0] < |Shown(t, view)|
    && var c, here := Shown(t, view)[path[0]], branches + [path[0] + 1 == |Shown(t, view)|];
      if |path| == 1 then line == Line(here, c.frame, c.tree.value, c.tree.selfValue)
      else LineAt(c.tree, view, here, path[1..], line)
  }

  // Above, or further up on the same level: a node comes before what is below it.
  predicate Earlier(a: seq<nat>, b: seq<nat>)
    decreases |a|
  {
    b != [] && (a == [] || a[0] < b[0] || (a[0] == b[0] && Earlier(a[1..], b[1..])))
  }

  // The lines of the shown children from the `i`-th on.
  ghost predicate LinesAt<K(!new)>(t: Tree<K>, view: View<K>, branches: seq<bool>, i: nat, lines: seq<Line<K>>,
                                   paths: seq<seq<nat>>)
    requires Orders(view)
  {
    && |paths| == |lines|
    && (forall k, m :: 0 <= k < m < |paths| ==> Earlier(paths[k], paths[m]))
    && (forall k :: 0 <= k < |paths| ==>
          paths[k] != [] && paths[k][0] >= i && LineAt(t, view, branches, paths[k], lines[k]))
    && (forall path, line :: LineAt(t, view, branches, path, line) && path[0] >= i ==> path in paths)
  }

  function Prefixed(i: nat, paths: seq<seq<nat>>): (r: seq<seq<nat>>)
    ensures |r| == |paths| && forall k :: 0 <= k < |r| ==> r[k] == [i] + paths[k]
  {
    seq(|paths|, k requires 0 <= k < |paths| => [i] + paths[k])
  }

  lemma LineBelow<K(!new)>(t: Tree<K>, view: View<K>, branches: seq<bool>, i: nat, path: seq<nat>, line: Line<K>)
    requires Orders(view) && i < |Shown(t, view)| && path != []
    ensures LineAt(t, view, branches, [i] + path, line) <==>
      LineAt(Shown(t, view)[i].tree, view, branches + [i + 1 == |Shown(t, view)|], path, line)
  {
    hide Shown;
    assert ([i] + path)[1..] == path;
  }

  lemma OwnLine<K(!new)>(t: Tree<K>, view: View<K>, branches: seq<bool>, i: nat)
    requires Orders(view) && i < |Shown(t, view)|
    ensures var c := Shown(t, view)[i];
      LineAt(t, view, branches, [i],
             Line(branches + [i + 1 == |Shown(t, view)|], c.frame, c.tree.value, c.tree.selfValue))
  {
    hide Shown;
  }

  lemma LineHasPath<K(!new)>(t: Tree<K>, view: View<K>, branches: seq<bool>, path: seq<nat>, line: Line<K>)
    requires Orders(view) && LineAt(t, view, branches, path, line)
    ensures path != [] && path[0] < |Shown(t, view)|
  {
    hide Shown;
  }

  lemma ShownBelow<K(!new)>(t: Tree<K>, view: View<K>, i: nat)
    requires Orders(view) && i < |Shown(t, view)|
    ensures Shown(t, view)[i].tree < t
  {
  }

  // A child's own line, the lines below it, and those of the children after it.
  lemma LinesJoin<K(!new)>(t: Tree<K>, view: View<K>, branches: seq<bool>, i: nat, below: seq<Line<K>>,
                           inner: seq<seq<nat>>, after: seq<Line<K>>, outer: seq<seq<nat>>)
    requires Orders(view) && i < |Shown(t, view)|
    requires var c := Shown(t, view)[i];
      LinesAt(c.tree, view, branches + [i + 1 == |Shown(t, view)|], 0, below, inner)
    requires LinesAt(t, view, branches, i + 1, after, outer)
    ensures var c, here := Shown(t, view)[i], branches + [i + 1 == |Shown(t, view)|];
      LinesAt(t, view, branches, i, [Line(here, c.frame, c.tree.value, c.tree.selfValue)] + below + after,
              [[i]] + Prefixed(i, inner) + outer)
  {
    hide Shown, LineAt, Earlier;
    var c, here := Shown(t, view)[i], branches + [i + 1 == |Shown(t, view)|];
    var own := Line(here, c.frame, c.tree.value, c.tree.selfValue);
    var lines, paths := [own] + below + after, [[i]] + Prefixed(i, inner) + outer;
    var n := |inner|;
    OwnLine(t, view, branches, i);
    forall k | 0 <= k < |paths|
      ensures paths[k] != [] && paths[k][0] >= i && LineAt(t, view, branches, paths[k], lines[k])
    {
      if 1 <= k <= n {
        LineBelow(t, view, branches, i, inner[k - 1], below[k - 1]);
        assert paths[k] == [i] + inner[k - 1] && lines[k] == below[k - 1];
      } else if k > n {
        assert paths[k] == outer[k - 1 - n] && lines[k] == after[k - 1 - n];
      }
    }
    forall k, m | 0 <= k < m < |paths| ensures Earlier(paths[k], paths[m]) {
      PathsAscend(i, inner, outer, k, m);
    }
    forall path, line | LineAt(t, view, branches, path, line) ensures path != [] {
      LineHasPath(t, view, branches, path, line);
    }
    forall path, line | LineAt(t, view, branches, path, line) && path[0] >= i ensures path in paths {
      LineInPaths(t, view, branches, i, below, inner, after, outer, path, line);
    }
  }

  lemma PathsAscend(i: nat, inner: seq<seq<nat>>, outer: seq<seq<nat>>, k: nat, m: nat)
    requires forall a, b :: 0 <= a < b < |inner| ==> Earlier(inner[a], inner[b])
    requires forall a, b :: 0 <= a < b < |outer| ==> Earlier(outer[a], outer[b])
    requires forall a :: 0 <= a < |inner| ==> inner[a] != []
    requires forall a :: 0 <= a < |outer| ==> outer[a] != [] && outer[a][0] >= i + 1
    requires k < m < 1 + |inner| + |outer|
    ensures var paths := [[i]] + Prefixed(i, inner) + outer; Earlier(paths[k], paths[m])
  {
    var n := |inner|;
    var paths := [[i]] + Prefixed(i, inner) + outer;
    if m <= n {
      assert paths[m] == [i] + inner[m - 1] && paths[m][1..] == inner[m - 1];
      if k == 0 {
        assert paths[0][1..] == [];
      } else {
        assert paths[k] == [i] + inner[k - 1] && paths[k][1..] == inner[k - 1];
      }
    } else {
      assert paths[m] == outer[m - 1 - n];
      if k > n {
        assert paths[k] == outer[k - 1 - n];
      } else {
        assert paths[k][0] == i;
      }
    }
  }

  lemma LineInPaths<K(!new)>(t: Tree<K>, view: View<K>, branches: seq<bool>, i: nat, below: seq<Line<K>>,
                             inner: seq<seq<nat>>, after: seq<Line<K>>, outer: seq<seq<nat>>, path: seq<nat>,
                             line: Line<K>)
    requires Orders(view) && i < |Shown(t, view)|
    requires var c := Shown(t, view)[i];
      LinesAt(c.tree, view, branches + [i + 1 == |Shown(t, view)|], 0, below, inner)
    requires LinesAt(t, view, branches, i + 1, after, outer)
    requires LineAt(t, view, branches, path, line) && path[0] >= i
    ensures path in [[i]] + Prefixed(i, inner) + outer
  {
    hide Shown, LineAt, Earlier;
    var paths := [[i]] + Prefixed(i, inner) + outer;
    LineHasPath(t, view, branches, path, line);
    if path[0] > i {
      assert path in outer;
    } else if |path| == 1 {
      assert path == [i] && paths[0] == [i];
    } else {
      assert path == [i] + path[1..];
      LineBelow(t, view, branches, i, path[1..], line);
      assert path[1..] in inner;
      var k :| 0 <= k < |inner| && inner[k] == path[1..];
      assert paths[k + 1] == path;
    }
  }

  lemma NoLinesAt<K(!new)>(t: Tree<K>, view: View<K>, branches: seq<bool>)
    requires Orders(view)
    ensures LinesAt(t, view, branches, |Shown(t, view)|, [], [])
  {
    hide Shown;
  }

  lemma {:induction false} LinesPlaced<K(!new)>(t: Tree<K>, shown: seq<Child<K>>, i: nat, view: View<K>,
                                                branches: seq<bool>) returns (paths: seq<seq<nat>>)
    requires Orders(view) && shown == Shown(t, view) && i <= |shown|
    ensures LinesAt(t, view, branches, i, LinesFrom(t, shown, i, view, branches), paths)
    decreases t, |shown| - i
  {
    hide LinesAt, LineAt, Shown, Lines;
    if i == |shown| {
      paths := [];
      NoLinesAt(t, view, branches);
    } else {
      var c, here := shown[i], branches + [i + 1 == |shown|];
      ShownBelow(t, view, i);
      var inner := LinesPlaced(c.tree, Shown(c.tree, view), 0, view, here);
      var outer := LinesPlaced(t, shown, i + 1, view, branches);
      paths := [[i]] + Prefixed(i, inner) + outer;
      LinesStart(c.tree, view, here);
      NoLineBefore(LinesFrom(c.tree, Shown(c.tree, view), 0, view, here));
      LinesJoin(t, view, branches, i, Lines(c.tree, view, here), inner, LinesFrom(t, shown, i + 1, view, branches),
                outer);
    }
  }

  lemma NoLineBefore<T>(lines: seq<T>)
    ensures [] + lines == lines
  {
  }

  /** The rendering line by line: one for every choice of shown children, each before what is below it, siblings in
      the order of the view. */
  lemma LinesInOrder<K(!new)>(t: Tree<K>, view: View<K>, branches: seq<bool>) returns (paths: seq<seq<nat>>)
    requires Orders(view)
    ensures LinesAt(t, view, branches, 0, Lines(t, view, branches), paths)
  {
    hide LinesAt, LineAt, Shown;
    paths := LinesPlaced(t, Shown(t, view), 0, view, branches);
    LinesStart(t, view, branches);
    NoLineBefore(LinesFrom(t, Shown(t, view), 0, view, branches));
  }

  // ----- Counting -----

  /** `eligible_node_count`. */
  function EligibleCount<K>(t: Tree<K>, eligible: int -> bool): nat
    decreases t, |t.children| + 1
  {
    CountOf(t, t.children, eligible)
  }

  function CountOf<K>(t: Tree<K>, children: seq<Child<K>>, eligible: int -> bool): nat
    requires |children| <= |t.children| && forall j :: 0 <= j < |children| ==> children[j].tree < t
    decreases t, |children|
  {
    if children == [] then 0
    else
      var last := children[|children| - 1].tree;
      CountOf(t, children[..|children| - 1], eligible)
        + if eligible(last.value) then 1 + EligibleCount(last, eligible) else 0
  }

  // The order of the children does not change the count.
  lemma {:induction false} CountPermutes<K>(t: Tree<K>, a: seq<Child<K>>, b: seq<Child<K>>, eligible: int -> bool)
    requires |a| <= |t.children| && (forall j :: 0 <= j < |a| ==> a[j].tree < t)
    requires |b| <= |t.children| && (forall j :: 0 <= j < |b| ==> b[j].tree < t)
    requires multiset(a) == multiset(b)
    ensures CountOf(t, a, eligible) == CountOf(t, b, eligible)
    decreases |a|
  {
    hide EligibleCount;
    assert |a| == |multiset(a)| == |multiset(b)| == |b|;
    if a != [] {
      var i := WithoutLast(a, b);
      CountPermutes(t, a[..|a| - 1], b[..i] + b[i + 1..], eligible);
      CountRemove(t, b, i, eligible);
    }
  }

  // Where `b` has the last element of `a`, and that the others are the same too.
  lemma WithoutLast<T>(a: seq<T>, b: seq<T>) returns (i: nat)
    requires multiset(a) == multiset(b) && a != []
    ensures i < |b| && b[i] == a[|a| - 1]
    ensures multiset(a[..|a| - 1]) == multiset(b[..i] + b[i + 1..])
  {
    var n := |a| - 1;
    SplitOff(a, n);
    assert a[..n] + a[n + 1..] == a[..n];
    assert a[n] in multiset(b);
    i :| 0 <= i < |b| && b[i] == a[n];
    SplitOff(b, i);
    assert multiset(a[..n]) == multiset(a) - multiset{a[n]};
    assert multiset(b[..i] + b[i + 1..]) == multiset(b) - multiset{b[i]};
  }

  lemma SplitOff<T>(s: seq<T>, i: nat)
    requires i < |s|
    ensures multiset(s) == multiset(s[..i] + s[i + 1..]) + multiset{s[i]}
  {
    assert s == s[..i] + [s[i]] + s[i + 1..];
  }

  lemma {:induction false} CountRemove<K>(t: Tree<K>, b: seq<Child<K>>, i: nat, eligible: int -> bool)
    requires |b| <= |t.children| && (forall j :: 0 <= j < |b| ==> b[j].tree < t) && i < |b|
    ensures CountOf(t, b, eligible)
         == CountOf(t, b[..i] + b[i + 1..], eligible)
           + if eligible(b[i].tree.value) then 1 + EligibleCount(b[i].tree, eligible) else 0
    decreases |b|
  {
    hide EligibleCount, CountOf;
    var n := |b| - 1;
    CountLast(t, b, eligible);
    if i == n {
      assert b[..i] + b[i + 1..] == b[..n];
    } else {
      var others := b[..i] + b[i + 1..];
      assert |others| == n && others[n - 1] == b[n];
      assert forall j :: 0 <= j < n ==> others[j] == if j < i then b[j] else b[j + 1];
      assert others[..n - 1] == b[..n][..i] + b[..n][i + 1..];
      CountRemove(t, b[..n], i, eligible);
      CountLast(t, others, eligible);
    }
  }

  lemma CountLast<K>(t: Tree<K>, b: seq<Child<K>>, eligible: int -> bool)
    requires b != [] && |b| <= |t.children| && (forall j :: 0 <= j < |b| ==> b[j].tree < t)
    ensures var last := b[|b| - 1].tree;
      CountOf(t, b, eligible) == CountOf(t, b[..|b| - 1], eligible)
        + if eligible(last.value) then 1 + EligibleCount(last, eligible) else 0
  {
  }

  lemma {:induction false} CountEligible<K>(t: Tree<K>, children: seq<Child<K>>, eligible: int -> bool)
    requires |children| <= |t.children| && forall j :: 0 <= j < |children| ==> children[j].tree < t
    ensures forall j :: 0 <= j < |Eligible(children, eligible)| ==> Eligible(children, eligible)[j].tree < t
    ensures CountOf(t, Eligible(children, eligible), eligible) == CountOf(t, children, eligible)
    decreases |children|
  {
    hide EligibleCount;
    if children != [] {
      var before := children[..|children| - 1];
      CountEligible(t, before, eligible);
      var rest, last := Eligible(before, eligible), children[|children| - 1];
      if eligible(last.tree.value) {
        assert (rest + [last])[..|rest|] == rest;
      }
    }
  }

  lemma {:induction false} CountLines<K(!new)>(t: Tree<K>, shown: seq<Child<K>>, i: nat, view: View<K>,
                                               branches: seq<bool>)
    requires Orders(view) && i <= |shown| <= |t.children|
    requires forall j :: 0 <= j < |shown| ==> shown[j].tree < t && view.eligible(shown[j].tree.value)
    ensures |LinesFrom(t, shown, i, view, branches)| == CountOf(t, shown[i..], view.eligible)
    decreases t, |shown| - i
  {
    hide Lines, EligibleCount;
    if i < |shown| {
      CountLines(t, shown, i + 1, view, branches);
      EligibleIsLines(shown[i].tree, view, branches + [i + 1 == |shown|]);
      CountRemove(t, shown[i..], 0, view.eligible);
      assert shown[i..][..0] + shown[i..][1..] == shown[i + 1..];
    }
  }

  /** The number of eligible nodes is the number of lines of the whole rendering, so what is emitted under a
      limit is the smaller of the two, and what is reported as omitted is exact. */
  lemma {:induction false} EligibleIsLines<K(!new)>(t: Tree<K>, view: View<K>, branches: seq<bool>)
    requires Orders(view)
    ensures EligibleCount(t, view.eligible) == |Lines(t, view, branches)|
    decreases t, |t.children| + 1
  {
    hide LinesFrom;
    var some, shown := Eligible(t.children, view.eligible), Shown(t, view);
    ShownEligible(t, view);
    CountEligible(t, t.children, view.eligible);
    CountPermutes(t, some, shown, view.eligible);
    CountLines(t, shown, 0, view, branches);
    assert shown[0..] == shown;
  }

  lemma ShownEligible<K(!new)>(t: Tree<K>, view: View<K>)
    requires Orders(view)
    ensures multiset(Shown(t, view)) == multiset(Eligible(t.children, view.eligible))
    ensures forall j :: 0 <= j < |Shown(t, view)| ==> view.eligible(Shown(t, view)[j].tree.value)
  {
    var some, shown := Eligible(t.children, view.eligible), Shown(t, view);
    forall j | 0 <= j < |shown| ensures view.eligible(shown[j].tree.value) {
      assert shown[j] in multiset(shown);
      assert shown[j] in some;
    }
  }

  /** `render_tree`'s account: what was emitted and what was omitted make up all eligible nodes. */
  lemma OmittedIsExact<K(!new)>(t: Tree<K>, view: View<K>, limit: nat)
    requires Orders(view)
    ensures var emitted := |UpTo(Lines(t, view, []), limit, 0)|;
      && emitted == Min(limit, EligibleCount(t, view.eligible))
      && UpTo(Lines(t, view, []), limit, 0) <= Lines(t, view, [])
  {
    EligibleIsLines(t, view, []);
    hide Lines;
  }

  // ----- The flat list of the flamegraph -----

  /** A node of the flat list.  Its id is the path to it, as text. */
  datatype FlatNode = FlatNode(id: Text, name: Text, depth: nat, selfValue: int, totalValue: int,
                               parentId: Option<Text>, childIds: seq<Text>)

  const ROOT: Text := Ascii("root")
  const SLASH: u8 := 47

  function ChildId(id: Text, name: Text): Text {
    id + [SLASH] + name
  }

  /** The id of a node by its path. */
  function PathId(path: seq<Text>): Text {
    if path == [] then ROOT else ChildId(PathId(path[..|path| - 1]), path[|path| - 1])
  }

  /** The names behind `root`, each behind a slash. */
  lemma PathIdIs(path: seq<Text>, name: Text)
    ensures PathId([]) == [114, 111, 111, 116]
    ensures PathId(path + [name]) == PathId(path) + [47] + name
  {
    assert (path + [name])[..|path|] == path;
  }

  function ChildIds(id: Text, children: seq<Child<Text>>): (ids: seq<Text>)
    ensures |ids| == |children|
  {
    seq(|children|, i requires 0 <= i < |children| => ChildId(id, children[i].frame))
  }

  /** The flat node of a path. */
  function NodeOf(root: Tree<Text>, path: seq<Text>): FlatNode
    requires NodeAt(root, path).Some?
  {
    var t := NodeAt(root, path).value;
    FlatNode(PathId(path), if path == [] then ROOT else path[|path| - 1], |path|, t.selfValue, t.value,
             if path == [] then None else Some(PathId(path[..|path| - 1])), ChildIds(PathId(path), t.children))
  }

  function Size(t: Tree<Text>): nat {
    1 + SizeOf(t, t.children)
  }

  function SizeOf(t: Tree<Text>, children: seq<Child<Text>>): nat
    requires forall j :: 0 <= j < |children| ==> children[j].tree < t
    decreases t, |children|
  {
    if children == [] then 0 else Size(children[0].tree) + SizeOf(t, children[1..])
  }

  // No frame twice among siblings, anywhere.
  ghost predicate Proper(t: Tree<Text>) {
    && DistinctFrames(t.children)
    && forall i :: 0 <= i < |t.children| ==> Proper(t.children[i].tree)
  }

  lemma {:induction false} BalancedIsProper(t: Tree<Text>)
    requires Balanced(t)
    ensures Proper(t)
  {
    forall i | 0 <= i < |t.children| ensures Proper(t.children[i].tree) {
      BalancedIsProper(t.children[i].tree);
    }
  }

  lemma {:induction false} ProperBelow(t: Tree<Text>, path: seq<Text>)
    requires Proper(t) && NodeAt(t, path).Some?
    ensures Proper(NodeAt(t, path).value)
    decreases |path|
  {
    if path != [] {
      ProperBelow(t.children[Find(t.children, path[0])].tree, path[1..]);
    }
  }

  lemma FindChild(children: seq<Child<Text>>, i: nat)
    requires DistinctFrames(children) && i < |children|
    ensures Find(children, children[i].frame) == i
  {
    FindIsFirst(children, children[i].frame);
  }

  lemma {:induction false} NodeBelow(t: Tree<Text>, path: seq<Text>, frame: Text)
    requires NodeAt(t, path).Some?
    ensures var n := NodeAt(t, path).value;
      var i := Find(n.children, frame);
      NodeAt(t, path + [frame]) == if i < |n.children| then Some(n.children[i].tree) else None
    decreases |path|
  {
    if path == [] {
      assert [frame][1..] == [];
      assert [] + [frame] == [frame];
    } else {
      NodeBelow(t.children[Find(t.children, path[0])].tree, path[1..], frame);
      assert (path + [frame])[1..] == path[1..] + [frame];
    }
  }

  lemma {:induction false} PrefixNode(t: Tree<Text>, path: seq<Text>)
    requires NodeAt(t, path).Some? && path != []
    ensures NodeAt(t, path[..|path| - 1]).Some?
    decreases |path|
  {
    if |path| > 1 {
      PrefixNode(t.children[Find(t.children, path[0])].tree, path[1..]);
      assert path[1..][..|path| - 2] == path[..|path| - 1][1..];
    }
  }

  // ----- The traversal -----

  // A node waiting in the queue.
  datatype Waiting = Waiting(id: Text, name: Text, depth: nat, parentId: Option<Text>, tree: Tree<Text>)

  function WaitingFor(root: Tree<Text>, path: seq<Text>): Waiting
    requires NodeAt(root, path).Some?
  {
    Waiting(PathId(path), if path == [] then ROOT else path[|path| - 1], |path|,
            if path == [] then None else Some(PathId(path[..|path| - 1])), NodeAt(root, path).value)
  }

  ghost predicate Distinct(paths: seq<seq<Text>>) {
    forall i, j :: 0 <= i < j < |paths| ==> paths[i] != paths[j]
  }

  // `done` was listed, `queue` waits: no path twice, and every path but the root's comes after its parent's.
  ghost predicate Ordered(root: Tree<Text>, done: seq<seq<Text>>, queue: seq<seq<Text>>) {
    var all := done + queue;
    && Distinct(all)
    && AllNodes(root, all)
    && AfterParents(|done|, all)
  }

  // The children of what was listed are listed or wait.
  ghost predicate Covered(root: Tree<Text>, done: seq<seq<Text>>, queue: seq<seq<Text>>) {
    && [] in done + queue
    && forall path, frame: Text :: path in done && NodeAt(root, path + [frame]).Some? ==> path + [frame] in done + queue
  }

  function ChildPaths(path: seq<Text>, children: seq<Child<Text>>): (paths: seq<seq<Text>>)
    ensures |paths| == |children|
  {
    seq(|children|, i requires 0 <= i < |children| => path + [children[i].frame])
  }

  function QueueSize(queue: seq<Waiting>): nat {
    if queue == [] then 0 else Size(queue[0].tree) + QueueSize(queue[1..])
  }

  lemma {:induction false} QueueAppend(a: seq<Waiting>, b: seq<Waiting>)
    ensures QueueSize(a + b) == QueueSize(a) + QueueSize(b)
    decreases |a|
  {
    hide Size;
    if a == [] {
      assert a + b == b;
    } else {
      QueueAppend(a[1..], b);
      assert (a + b)[1..] == a[1..] + b;
    }
  }

  lemma {:induction false} QueueOfChildren(t: Tree<Text>, children: seq<Child<Text>>, queue: seq<Waiting>)
    requires forall j :: 0 <= j < |children| ==> children[j].tree < t
    requires |queue| == |children| && forall j :: 0 <= j < |queue| ==> queue[j].tree == children[j].tree
    ensures QueueSize(queue) == SizeOf(t, children)
    decreases |children|
  {
    hide Size;
    if children != [] {
      QueueOfChildren(t, children[1..], queue[1..]);
    }
  }

  lemma OrderedParts(root: Tree<Text>, done: seq<seq<Text>>, p: seq<Text>, rest: seq<seq<Text>>)
    requires Ordered(root, done, [p] + rest)
    ensures Distinct(done + ([p] + rest)) && p !in done
  {
    var all := done + ([p] + rest);
    assert all[|done|] == p;
    assert forall j :: 0 <= j < |done| ==> all[j] == done[j];
  }

  lemma ParentListed(root: Tree<Text>, done: seq<seq<Text>>, queue: seq<seq<Text>>, k: nat)
    requires Ordered(root, done, queue) && k < |done + queue| && (done + queue)[k] != []
    ensures (done + queue)[k][..|(done + queue)[k]| - 1] in done
  {
    var all := done + queue;
    var j :| 0 <= j < k && j < |done| && all[j] == all[k][..|all[k]| - 1];
    assert done[j] == all[j];
  }

  lemma NewChildren(root: Tree<Text>, done: seq<seq<Text>>, p: seq<Text>, rest: seq<seq<Text>>,
                    children: seq<Child<Text>>)
    requires Ordered(root, done, [p] + rest) && Proper(root)
    requires NodeAt(root, p).Some? && children == NodeAt(root, p).value.children
    ensures var paths := ChildPaths(p, children);
      && Distinct(paths)
      && (forall i :: 0 <= i < |paths| ==> paths[i] !in done + ([p] + rest))
      && (forall i :: 0 <= i < |paths| ==> NodeAt(root, paths[i]) == Some(children[i].tree))
  {
    var all, paths := done + ([p] + rest), ChildPaths(p, children);
    ProperBelow(root, p);
    assert DistinctFrames(children);
    OrderedParts(root, done, p, rest);
    hide Ordered, Proper, NodeAt, Distinct;
    forall i | 0 <= i < |paths|
      ensures NodeAt(root, paths[i]) == Some(children[i].tree) && paths[i] !in all
    {
      FindChild(children, i);
      NodeBelow(root, p, children[i].frame);
      assert paths[i][..|paths[i]| - 1] == p;
      if k :| 0 <= k < |all| && all[k] == paths[i] {
        ParentListed(root, done, [p] + rest, k);
        assert false;
      }
    }
    DistinctPaths(p, children);
  }

  lemma DistinctPaths(p: seq<Text>, children: seq<Child<Text>>)
    requires DistinctFrames(children)
    ensures Distinct(ChildPaths(p, children))
  {
    var paths := ChildPaths(p, children);
    assert forall i :: 0 <= i < |paths| ==> paths[i][|p|] == children[i].frame;
  }

  lemma DistinctAppend(a: seq<seq<Text>>, b: seq<seq<Text>>)
    requires Distinct(a) && Distinct(b) && forall i :: 0 <= i < |b| ==> b[i] !in a
    ensures Distinct(a + b)
  {
    var all := a + b;
    forall i, j | 0 <= i < j < |all| ensures all[i] != all[j] {
      if j >= |a| && i < |a| {
        assert b[j - |a|] !in a;
      }
    }
  }

  ghost predicate AllNodes(root: Tree<Text>, paths: seq<seq<Text>>) {
    forall i :: 0 <= i < |paths| ==> NodeAt(root, paths[i]).Some?
  }

  lemma AllNodesAppend(root: Tree<Text>, a: seq<seq<Text>>, b: seq<seq<Text>>)
    requires AllNodes(root, a) && AllNodes(root, b)
    ensures AllNodes(root, a + b)
  {
    hide NodeAt;
  }

  // Each path but the root's stands behind its parent's, which was listed.
  ghost predicate AfterParents(done: nat, all: seq<seq<Text>>) {
    forall i :: 0 <= i < |all| && all[i] != [] ==>
      exists j :: 0 <= j < i && j < done && all[j] == all[i][..|all[i]| - 1]
  }

  lemma AfterParentsNext(done: nat, before: seq<seq<Text>>, p: seq<Text>, paths: seq<seq<Text>>)
    requires AfterParents(done, before) && done < |before| && before[done] == p
    requires forall i :: 0 <= i < |paths| ==> paths[i] != [] && paths[i][..|paths[i]| - 1] == p
    ensures AfterParents(done + 1, before + paths)
  {
    var all := before + paths;
    forall i | 0 <= i < |all| && all[i] != []
      ensures exists j :: 0 <= j < i && j < done + 1 && all[j] == all[i][..|all[i]| - 1]
    {
      if i < |before| {
        var j :| 0 <= j < i && j < done && before[j] == before[i][..|before[i]| - 1];
        assert all[j] == before[j];
      } else {
        assert all[done] == p && all[i] == paths[i - |before|];
      }
    }
  }

  // Listing the first of the queue, and letting its children wait.
  lemma VisitOrdered(root: Tree<Text>, done: seq<seq<Text>>, p: seq<Text>, rest: seq<seq<Text>>,
                     children: seq<Child<Text>>)
    requires Ordered(root, done, [p] + rest) && Proper(root)
    requires NodeAt(root, p).Some? && children == NodeAt(root, p).value.children
    ensures Ordered(root, done + [p], rest + ChildPaths(p, children))
  {
    hide NodeAt, Proper, Distinct, AfterParents, ChildPaths, AllNodes;
    var before, paths := done + ([p] + rest), ChildPaths(p, children);
    NewChildren(root, done, p, rest, children);
    DistinctAppend(before, paths);
    AllChildNodes(root, paths, children);
    AllNodesAppend(root, before, paths);
    ParentsOf(p, children);
    Regroup(done, p, rest, paths);
    AfterParentsNext(|done|, before, p, paths);
  }

  lemma AllChildNodes(root: Tree<Text>, paths: seq<seq<Text>>, children: seq<Child<Text>>)
    requires |paths| == |children| && forall i :: 0 <= i < |paths| ==> NodeAt(root, paths[i]) == Some(children[i].tree)
    ensures AllNodes(root, paths)
  {
    hide NodeAt;
  }

  lemma ParentsOf(p: seq<Text>, children: seq<Child<Text>>)
    ensures var paths := ChildPaths(p, children);
      forall i :: 0 <= i < |paths| ==> paths[i] != [] && paths[i][..|paths[i]| - 1] == p
  {
  }

  lemma Regroup<T>(done: seq<T>, p: T, rest: seq<T>, more: seq<T>)
    ensures (done + [p]) + (rest + more) == (done + ([p] + rest)) + more
    ensures (done + ([p] + rest))[|done|] == p && |done + [p]| == |done| + 1
  {
  }

  lemma ChildListed(root: Tree<Text>, p: seq<Text>, children: seq<Child<Text>>, frame: Text)
    requires NodeAt(root, p).Some? && children == NodeAt(root, p).value.children && NodeAt(root, p + [frame]).Some?
    ensures p + [frame] in ChildPaths(p, children)
  {
    NodeBelow(root, p, frame);
    var i := Find(children, frame);
    assert ChildPaths(p, children)[i] == p + [frame];
  }

  lemma VisitCovered(root: Tree<Text>, done: seq<seq<Text>>, p: seq<Text>, rest: seq<seq<Text>>,
                     children: seq<Child<Text>>)
    requires Covered(root, done, [p] + rest)
    requires NodeAt(root, p).Some? && children == NodeAt(root, p).value.children
    ensures Covered(root, done + [p], rest + ChildPaths(p, children))
  {
    hide NodeAt, ChildPaths;
    var paths := ChildPaths(p, children);
    forall path | path in done + ([p] + rest) ensures path in (done + [p]) + (rest + paths) {
      InRegrouped(done, p, rest, paths, path);
    }
    forall path, frame: Text | path in done + [p] && NodeAt(root, path + [frame]).Some?
      ensures path + [frame] in (done + [p]) + (rest + paths)
    {
      if path in done {
        assert path + [frame] in done + ([p] + rest);
      } else {
        ChildListed(root, p, children, frame);
      }
    }
  }

  lemma InRegrouped<T>(done: seq<T>, p: T, rest: seq<T>, more: seq<T>, x: T)
    requires x in done + ([p] + rest)
    ensures x in (done + [p]) + (rest + more)
  {
  }

  // An empty queue: nothing was left out.
  lemma {:induction false} AllListed(root: Tree<Text>, done: seq<seq<Text>>, path: seq<Text>)
    requires Covered(root, done, []) && NodeAt(root, path).Some?
    ensures path in done
    decreases |path|
  {
    assert done + [] == done;
    if path != [] {
      PrefixNode(root, path);
      AllListed(root, done, path[..|path| - 1]);
      assert path == path[..|path| - 1] + [path[|path| - 1]];
    }
  }

  /** `index` leads from each id to the last node that has it. */
  ghost predicate Indexes(index: map<Text, nat>, nodes: seq<FlatNode>) {
    && (forall i :: 0 <= i < |nodes| ==> nodes[i].id in index && i <= index[nodes[i].id])
    && (forall id :: id in index ==> index[id] < |nodes| && nodes[index[id]].id == id)
  }

  // Where a path comes from: the path of its parent, by its index, and which of its children it is.
  datatype Place = Place(parent: nat, child: nat)

  predicate Sooner(a: Place, b: Place) {
    a.parent < b.parent || (a.parent == b.parent && a.child < b.child)
  }

  ghost predicate ComesFrom(root: Tree<Text>, all: seq<seq<Text>>, place: Place, done: nat, path: seq<Text>) {
    && place.parent < done <= |all| && NodeAt(root, all[place.parent]).Some?
    && var children := NodeAt(root, all[place.parent]).value.children;
      place.child < |children| && path == all[place.parent] + [children[place.child].frame]
  }

  /** Breadth first: after the root, the children of each path in their order, parent by parent. */
  ghost predicate BreadthFirst(root: Tree<Text>, all: seq<seq<Text>>, done: nat, places: seq<Place>) {
    && |places| == |all| && all != [] && all[0] == []
    && (forall k :: 1 <= k < |all| ==> ComesFrom(root, all, places[k], done, all[k]))
    && (forall k, m :: 1 <= k < m < |all| ==> Sooner(places[k], places[m]))
  }

  function PlacesBelow(parent: nat, n: nat): (places: seq<Place>)
    ensures |places| == n
  {
    seq(n, i requires 0 <= i < n => Place(parent, i))
  }

  lemma BreadthNext(root: Tree<Text>, all: seq<seq<Text>>, done: nat, places: seq<Place>, children: seq<Child<Text>>)
    requires BreadthFirst(root, all, done, places) && done < |all|
    requires NodeAt(root, all[done]).Some? && children == NodeAt(root, all[done]).value.children
    ensures BreadthFirst(root, all + ChildPaths(all[done], children), done + 1,
                         places + PlacesBelow(done, |children|))
  {
    hide NodeAt;
    var paths := ChildPaths(all[done], children);
    var more := PlacesBelow(done, |children|);
    forall k | 1 <= k < |all + paths|
      ensures ComesFrom(root, all + paths, (places + more)[k], done + 1, (all + paths)[k])
    {
      if k < |all| {
        assert ComesFrom(root, all, places[k], done, all[k]);
      } else {
        assert (places + more)[k] == Place(done, k - |all|) && (all + paths)[k] == paths[k - |all|];
        assert (all + paths)[done] == all[done];
      }
    }
    forall k | 1 <= k < |all| ensures places[k].parent < done {
      assert ComesFrom(root, all, places[k], done, all[k]);
    }
    hide ComesFrom;
  }

  // What waits in the queue, path by path.
  ghost predicate Queued(root: Tree<Text>, queue: seq<Waiting>, waiting: seq<seq<Text>>) {
    && |queue| == |waiting|
    && forall i :: 0 <= i < |waiting| ==> NodeAt(root, waiting[i]).Some? && queue[i] == WaitingFor(root, waiting[i])
  }

  // What has been listed, path by path.
  ghost predicate Listed(root: Tree<Text>, nodes: seq<FlatNode>, paths: seq<seq<Text>>) {
    && |nodes| == |paths|
    && forall i :: 0 <= i < |paths| ==> NodeAt(root, paths[i]).Some? && nodes[i] == NodeOf(root, paths[i])
  }

  lemma NothingListed(root: Tree<Text>)
    ensures Listed(root, [], []) && Queued(root, [Waiting(ROOT, ROOT, 0, None, root)], [[]])
  {
    StartWaiting(root);
  }

  lemma QueuedNext(root: Tree<Text>, queue: seq<Waiting>, waiting: seq<seq<Text>>)
    requires Queued(root, queue, waiting) && queue != []
    ensures |queue| == |waiting| && NodeAt(root, waiting[0]).Some? && queue[0] == WaitingFor(root, waiting[0])
    ensures Queued(root, queue[1..], waiting[1..])
    ensures waiting == [waiting[0]] + waiting[1..] && queue == [queue[0]] + queue[1..]
  {
    hide NodeAt, WaitingFor;
  }

  lemma QueuedAppend(root: Tree<Text>, queue: seq<Waiting>, waiting: seq<seq<Text>>, more: seq<Waiting>,
                     paths: seq<seq<Text>>)
    requires Queued(root, queue, waiting) && Queued(root, more, paths)
    ensures Queued(root, queue + more, waiting + paths)
  {
    hide NodeAt, WaitingFor;
  }

  lemma ListedNext(root: Tree<Text>, nodes: seq<FlatNode>, paths: seq<seq<Text>>, p: seq<Text>, node: FlatNode)
    requires Listed(root, nodes, paths) && NodeAt(root, p).Some? && node == NodeOf(root, p)
    ensures Listed(root, nodes + [node], paths + [p])
  {
    hide NodeAt, NodeOf;
  }

  /** The flattening: breadth first, every node once, parents before their children. */
  method Flatten(root: Tree<Text>) returns (nodes: seq<FlatNode>, index: map<Text, nat>, ghost paths: seq<seq<Text>>)
    requires Proper(root)
    ensures |nodes| == |paths| && Distinct(paths) && forall path :: NodeAt(root, path).Some? <==> path in paths
    ensures forall i :: 0 <= i < |nodes| ==> nodes[i] == NodeOf(root, paths[i])
    ensures forall i :: 0 <= i < |paths| && paths[i] != [] ==>
      exists j :: 0 <= j < i && paths[j] == paths[i][..|paths[i]| - 1]
    ensures Indexes(index, nodes)
    ensures exists places :: BreadthFirst(root, paths, |paths|, places)
  {
    hide BreadthFirst;
    hide Size, SizeOf, Proper, Ordered, Covered, NodeAt, Indexes, NodeOf, WaitingFor, PathId, QueueSize, Distinct,
         ChildIds, ChildPaths, Queued, Listed;
    nodes, index, paths := [], map[], [];
    var queue: seq<Waiting> := [Waiting(ROOT, ROOT, 0, None, root)];
    ghost var waiting: seq<seq<Text>> := [[]];
    StartOrdered(root);
    NothingListed(root);
    NoIndex();
    ghost var places := [Place(0, 0)];
    StartBreadth(root);
    while queue != []
      invariant Ordered(root, paths, waiting) && Covered(root, paths, waiting)
      invariant Queued(root, queue, waiting) && Listed(root, nodes, paths) && Indexes(index, nodes)
      invariant BreadthFirst(root, paths + waiting, |paths|, places)
      decreases QueueSize(queue)
    {
      QueuedNext(root, queue, waiting);
      var node := queue[0];
      ghost var p, rest := waiting[0], waiting[1..];
      queue := queue[1..];
      var childIds := ChildIds(node.id, node.tree.children);
      var listed := FlatNode(node.id, node.name, node.depth, node.tree.selfValue, node.tree.value, node.parentId,
                             childIds);
      ListedNode(root, p, node, listed);
      ListedNext(root, nodes, paths, p, listed);
      IndexNext(index, nodes, listed);
      index := index[node.id := |nodes|];
      nodes := nodes + [listed];
      var children := seq(|node.tree.children|, i requires 0 <= i < |node.tree.children| =>
        Waiting(childIds[i], node.tree.children[i].frame, node.depth + 1, Some(node.id), node.tree.children[i].tree));
      QueueShrinks(node, queue, children);
      WaitingTree(root, p);
      NewChildren(root, paths, p, rest, node.tree.children);
      ChildrenWait(root, p, node, children);
      QueuedAppend(root, queue, rest, children, ChildPaths(p, node.tree.children));
      VisitOrdered(root, paths, p, rest, node.tree.children);
      VisitCovered(root, paths, p, rest, node.tree.children);
      BreadthNext(root, paths + waiting, |paths|, places, node.tree.children);
      places := places + PlacesBelow(|paths|, |node.tree.children|);
      Regroup(paths, p, rest, ChildPaths(p, node.tree.children));
      queue := queue + children;
      waiting := rest + ChildPaths(p, node.tree.children);
      paths := paths + [p];
    }
    AllOfThem(root, nodes, paths, waiting);
    NothingWaits(root, queue, waiting);
    assert paths + [] == paths;
  }

  lemma StartBreadth(root: Tree<Text>)
    ensures BreadthFirst(root, [] + [[]], 0, [Place(0, 0)])
  {
  }

  lemma NothingWaits(root: Tree<Text>, queue: seq<Waiting>, waiting: seq<seq<Text>>)
    requires Queued(root, queue, waiting) && queue == []
    ensures waiting == []
  {
  }

  // With nothing waiting, every node has been listed.
  lemma AllOfThem(root: Tree<Text>, nodes: seq<FlatNode>, paths: seq<seq<Text>>, none: seq<seq<Text>>)
    requires Listed(root, nodes, paths) && Ordered(root, paths, none) && Covered(root, paths, none)
    requires Queued(root, [], none)
    ensures |nodes| == |paths| && Distinct(paths) && forall path :: NodeAt(root, path).Some? <==> path in paths
    ensures forall i :: 0 <= i < |nodes| ==> nodes[i] == NodeOf(root, paths[i])
    ensures forall i :: 0 <= i < |paths| && paths[i] != [] ==>
      exists j :: 0 <= j < i && paths[j] == paths[i][..|paths[i]| - 1]
  {
    hide Ordered, Covered, NodeAt, NodeOf, Distinct;
    EndOrdered(root, paths, none);
    forall path | NodeAt(root, path).Some? ensures path in paths {
      AllListed(root, paths, path);
    }
  }

  lemma WaitingTree(root: Tree<Text>, p: seq<Text>)
    requires NodeAt(root, p).Some?
    ensures WaitingFor(root, p).tree == NodeAt(root, p).value
  {
  }

  lemma StartWaiting(root: Tree<Text>)
    ensures NodeAt(root, []).Some? && WaitingFor(root, []) == Waiting(ROOT, ROOT, 0, None, root)
  {
  }

  lemma NoIndex()
    ensures Indexes(map[], [])
  {
  }

  lemma IndexNext(index: map<Text, nat>, nodes: seq<FlatNode>, node: FlatNode)
    requires Indexes(index, nodes)
    ensures Indexes(index[node.id := |nodes|], nodes + [node])
  {
  }

  lemma QueueShrinks(node: Waiting, rest: seq<Waiting>, children: seq<Waiting>)
    requires |children| == |node.tree.children|
    requires forall i :: 0 <= i < |children| ==> children[i].tree == node.tree.children[i].tree
    ensures QueueSize(rest + children) < QueueSize([node] + rest)
  {
    SizeUnfolds(node.tree);
    hide Size, SizeOf;
    QueueOfChildren(node.tree, node.tree.children, children);
    QueueAppend(rest, children);
    assert ([node] + rest)[1..] == rest;
  }

  lemma ListedNode(root: Tree<Text>, p: seq<Text>, node: Waiting, listed: FlatNode)
    requires NodeAt(root, p).Some? && node == WaitingFor(root, p)
    requires listed == FlatNode(node.id, node.name, node.depth, node.tree.selfValue, node.tree.value, node.parentId,
                                ChildIds(node.id, node.tree.children))
    ensures listed == NodeOf(root, p)
  {
  }

  lemma ChildrenWait(root: Tree<Text>, p: seq<Text>, node: Waiting, children: seq<Waiting>)
    requires NodeAt(root, p).Some? && node == WaitingFor(root, p)
    requires var paths := ChildPaths(p, node.tree.children);
      forall i :: 0 <= i < |paths| ==> NodeAt(root, paths[i]) == Some(node.tree.children[i].tree)
    requires |children| == |node.tree.children|
    requires forall i :: 0 <= i < |children| ==>
      children[i] == Waiting(ChildIds(node.id, node.tree.children)[i], node.tree.children[i].frame,
                             node.depth + 1, Some(node.id), node.tree.children[i].tree)
    ensures Queued(root, children, ChildPaths(p, node.tree.children))
  {
    hide NodeAt;
    var paths := ChildPaths(p, node.tree.children);
    forall i | 0 <= i < |children| ensures NodeAt(root, paths[i]).Some? && children[i] == WaitingFor(root, paths[i]) {
      assert paths[i][..|paths[i]| - 1] == p && |paths[i]| == |p| + 1;
    }
  }

  lemma SizeUnfolds(t: Tree<Text>)
    ensures Size(t) == 1 + SizeOf(t, t.children)
  {
  }

  lemma StartOrdered(root: Tree<Text>)
    ensures Ordered(root, [], [[]]) && Covered(root, [], [[]])
    ensures NodeAt(root, []) == Some(root)
  {
    var start: seq<seq<Text>> := [[]];
    assert [] + start == start;
  }

  lemma EndOrdered(root: Tree<Text>, paths: seq<seq<Text>>, none: seq<seq<Text>>)
    requires Ordered(root, paths, none) && none == []
    ensures Distinct(paths) && forall i :: 0 <= i < |paths| ==> NodeAt(root, paths[i]).Some?
    ensures forall i :: 0 <= i < |paths| && paths[i] != [] ==>
      exists j :: 0 <= j < i && paths[j] == paths[i][..|paths[i]| - 1]
  {
    assert paths + none == paths;
  }

  // ----- Ids -----

  // No name has a slash.
  predicate Plain(path: seq<Text>) {
    forall i :: 0 <= i < |path| ==> SLASH !in path[i]
  }

  // The last slash of a text stands before a name without one.
  lemma LastSlash(a: Text, x: Text)
    requires SLASH !in x
    ensures var t := a + [SLASH] + x; t[|a|] == SLASH && forall k :: |a| < k < |t| ==> t[k] != SLASH
  {
    var t := a + [SLASH] + x;
    forall k | |a| < k < |t| ensures t[k] != SLASH {
      assert t[k] == x[k - |a| - 1] && x[k - |a| - 1] in x;
    }
  }

  lemma SameSplit(a: Text, b: Text, x: Text, y: Text)
    requires SLASH !in x && SLASH !in y && a + [SLASH] + x == b + [SLASH] + y
    ensures a == b && x == y
  {
    var s, t := a + [SLASH] + x, b + [SLASH] + y;
    LastSlash(a, x);
    LastSlash(b, y);
    assert |a| == |b|;
    assert s[..|a|] == a && t[..|b|] == b;
    assert s[|a| + 1..] == x && t[|b| + 1..] == y;
  }

  lemma {:induction false} PathIdLength(path: seq<Text>)
    ensures |PathId(path)| >= 4 && (path == [] ==> SLASH !in PathId(path)) && (path != [] ==> SLASH in PathId(path))
  {
    if path == [] {
      assert ROOT == [114, 111, 111, 116];
    } else {
      PathIdLength(path[..|path| - 1]);
      var id, name := PathId(path[..|path| - 1]), path[|path| - 1];
      assert PathId(path)[|id|] == SLASH;
    }
  }

  /** Paths whose names have no slash have ids of their own. */
  lemma {:induction false} PlainIdsDiffer(a: seq<Text>, b: seq<Text>)
    requires Plain(a) && Plain(b) && PathId(a) == PathId(b)
    ensures a == b
    decreases |a|
  {
    PathIdLength(a);
    PathIdLength(b);
    if a != [] && b != [] {
      SameSplit(PathId(a[..|a| - 1]), PathId(b[..|b| - 1]), a[|a| - 1], b[|b| - 1]);
      PlainIdsDiffer(a[..|a| - 1], b[..|b| - 1]);
      assert a == a[..|a| - 1] + [a[|a| - 1]] && b == b[..|b| - 1] + [b[|b| - 1]];
    }
  }

  /** The index leads back to every node exactly when no two nodes have the same id. */
  lemma IndexInverts(index: map<Text, nat>, nodes: seq<FlatNode>)
    requires Indexes(index, nodes)
    ensures (forall i :: 0 <= i < |nodes| ==> index[nodes[i].id] == i)
       <==> (forall i, j :: 0 <= i < j < |nodes| ==> nodes[i].id != nodes[j].id)
  {
    if forall i, j :: 0 <= i < j < |nodes| ==> nodes[i].id != nodes[j].id {
      forall i | 0 <= i < |nodes| ensures index[nodes[i].id] == i {
        assert nodes[index[nodes[i].id]].id == nodes[i].id;
      }
    }
  }

  /** So it does when no name has a slash. */
  lemma PlainNamesIndex(root: Tree<Text>, nodes: seq<FlatNode>, index: map<Text, nat>, paths: seq<seq<Text>>)
    requires |nodes| == |paths| && Distinct(paths) && Indexes(index, nodes)
    requires forall i :: 0 <= i < |paths| ==>
      NodeAt(root, paths[i]).Some? && nodes[i] == NodeOf(root, paths[i]) && Plain(paths[i])
    ensures forall i :: 0 <= i < |nodes| ==> index[nodes[i].id] == i
  {
    hide NodeAt, Plain;
    forall i, j | 0 <= i < j < |nodes| ensures nodes[i].id != nodes[j].id {
      if nodes[i].id == nodes[j].id {
        PlainIdsDiffer(paths[i], paths[j]);
        assert false;
      }
    }
    IndexInverts(index, nodes);
  }

  /** A slash in a name can give two nodes one id: a function `a/b`, and a function `b` called by `a`. */
  lemma SlashCollides(a: Text, b: Text)
    ensures [a + [SLASH] + b] != [a, b] && PathId([a + [SLASH] + b]) == PathId([a, b])
  {
    var one, two: seq<Text> := [a + [SLASH] + b], [a, b];
    assert one[..0] == [] && two[..1] == [a] && two[..1][..0] == [];
    assert PathId(two[..1]) == ChildId(ROOT, a);
    assert ChildId(ROOT, a + [SLASH] + b) == ChildId(ChildId(ROOT, a), b);
    assert |one| != |two|;
  }
}
