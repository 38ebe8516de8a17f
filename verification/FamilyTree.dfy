/** The tree of candidate folders: its nodes, what it shows, and what it leaves out. */
module FamilyTree {
  import opened Common
  import opened Sorting
  import opened Matcher

  function DirectChildren(ms: seq<Match>, p: Path): seq<Match> {
    if ms == [] then []
    else DirectChildren(ms[..|ms| - 1], p) + (if Parent(Last(ms).path) == p then [Last(ms)] else [])
  }

  /** The candidates right below `p`, best first. */
  function Children(ms: seq<Match>, p: Path): seq<Match> {
    ByScore(DirectChildren(ms, p))
  }

  predicate IsRoot(ms: seq<Match>, p: Path) {
    forall i :: 0 <= i < |ms| ==> !(ms[i].path < p)
  }

  function MaxDepth(ms: seq<Match>): nat {
    if ms == [] then 0
    else if |Last(ms).path| > MaxDepth(ms[..|ms| - 1]) then |Last(ms).path|
    else MaxDepth(ms[..|ms| - 1])
  }

  function Room(ms: seq<Match>, p: Path): nat {
    if |p| <= MaxDepth(ms) then MaxDepth(ms) - |p| else 0
  }

  lemma {:induction false} DepthBounds(ms: seq<Match>, i: nat)
    requires i < |ms|
    ensures |ms[i].path| <= MaxDepth(ms)
  {
    if i < |ms| - 1 { DepthBounds(ms[..|ms| - 1], i); }
  }

  lemma {:induction false} DirectChildrenExactly(ms: seq<Match>, p: Path)
    ensures forall m :: m in DirectChildren(ms, p) <==> m in ms && Parent(m.path) == p
  {
    if ms != [] {
      DirectChildrenExactly(ms[..|ms| - 1], p);
      assert ms == ms[..|ms| - 1] + [Last(ms)];
    }
  }

  lemma ChildrenExactly(ms: seq<Match>, p: Path)
    ensures forall m :: m in Children(ms, p) <==> m in ms && Parent(m.path) == p
  {
    DirectChildrenExactly(ms, p);
    forall m ensures m in Children(ms, p) <==> m in ms && Parent(m.path) == p {
      SamePaths(DirectChildren(ms, p), m);
    }
  }

  lemma ChildIsDeeper(ms: seq<Match>, p: Path, c: Path)
    requires NoRoots(ms) && c != [] && Parent(c) == p && Children(ms, c) != []
    ensures Room(ms, c) < Room(ms, p)
  {
    ChildrenExactly(ms, c);
    var m := Children(ms, c)[0];
    assert m in Children(ms, c);
    var i :| 0 <= i < |ms| && ms[i] == m;
    DepthBounds(ms, i);
  }

  /** A root directory among the candidates is its own child: the tree below it would not end. */
  lemma RootIsItsOwnChild(ms: seq<Match>, m: Match)
    requires m in ms && m.path == []
    ensures m in Children(ms, m.path)
  {
    ChildrenExactly(ms, []);
  }

  /**
    Calls of the tree's recursion, each made by the one before: the first for a root of the forest,
    each next for a child that has children itself.
   */
  predicate NestedCalls(ms: seq<Match>, calls: seq<Path>) {
    && (calls != [] ==> calls[0] in RootsOf(ms, ms))
    && forall i :: 0 < i < |calls| ==>
         HasPath(Children(ms, calls[i - 1]), calls[i]) && Children(ms, calls[i]) != []
  }

  /** The recursion gets `n` calls deep. */
  ghost predicate RecursesTo(ms: seq<Match>, n: nat) {
    exists calls :: |calls| == n && NestedCalls(ms, calls)
  }

  /** Without a root directory each call is for a deeper path, so the depth is bounded. */
  lemma {:induction false} CallsGoDeeper(ms: seq<Match>, calls: seq<Path>, i: nat)
    requires NoRoots(ms) && NestedCalls(ms, calls) && i < |calls|
    ensures |calls[i]| >= i && (i > 0 ==> |calls[i]| < MaxDepth(ms))
  {
    hide Children, NoRoots, RootsOf;
    if i > 0 {
      CallsGoDeeper(ms, calls, i - 1);
      ChildPaths(ms, calls[i - 1], calls[i]);
      PathIsNoRoot(ms, calls[i]);
      ParentIsAbove(ms, calls[i]);
    }
  }

  lemma ParentIsAbove(ms: seq<Match>, p: Path)
    requires NoRoots(ms) && Children(ms, p) != []
    ensures |p| < MaxDepth(ms)
  {
    ChildrenExactly(ms, p);
    var m := Children(ms, p)[0];
    assert m in Children(ms, p);
    var i :| 0 <= i < |ms| && ms[i] == m;
    DepthBounds(ms, i);
  }

  lemma PathIsNoRoot(ms: seq<Match>, p: Path)
    requires NoRoots(ms) && HasPath(ms, p)
    ensures p != []
  {
  }

  /** The recursion from some root of the forest has no end exactly if a candidate is a root directory. */
  lemma RecursionEndsExactly(ms: seq<Match>)
    ensures (forall n: nat :: RecursesTo(ms, n)) <==> !NoRoots(ms)
  {
    hide Children, RootsOf, MaxDepth;
    if NoRoots(ms) {
      var n := MaxDepth(ms) + 2;
      if RecursesTo(ms, n) {
        var calls :| |calls| == n && NestedCalls(ms, calls);
        CallsGoDeeper(ms, calls, n - 1);
      }
      assert !RecursesTo(ms, n);
    } else {
      var i :| 0 <= i < |ms| && ms[i].path == [];
      RootsExactly(ms, ms);
      RootIsItsOwnChild(ms, ms[i]);
      ChildPaths(ms, [], []);
      forall n: nat ensures RecursesTo(ms, n) {
        var calls: seq<Path> := seq(n, k requires 0 <= k < n => []);
        assert NestedCalls(ms, calls);
      }
    }
  }

  lemma SomeChild(ms: seq<Match>, p: Path, some: seq<Match>)
    requires NoRoots(ms) && some != [] && some <= Children(ms, p)
    ensures Last(some) in ms && Last(some).path != [] && Parent(Last(some).path) == p
  {
    ChildrenExactly(ms, p);
    assert Last(some) == Children(ms, p)[|some| - 1];
  }

  /** A node with its children, then the nodes of those children that have children themselves. */
  function Descendants(ms: seq<Match>, p: Path): seq<Node>
    requires NoRoots(ms)
    decreases Room(ms, p), |Children(ms, p)| + 1
  {
    [Node(p, Children(ms, p))] + Below(ms, p, Children(ms, p))
  }

  function Below(ms: seq<Match>, p: Path, some: seq<Match>): seq<Node>
    requires NoRoots(ms) && some <= Children(ms, p)
    decreases Room(ms, p), |some|
  {
    if some == [] then []
    else
      var c := Last(some).path;
      SomeChild(ms, p, some);
      Below(ms, p, some[..|some| - 1])
      + (if Children(ms, c) == [] then [] else ChildIsDeeper(ms, p, c); Descendants(ms, c))
  }

  function RootsOf(ms: seq<Match>, some: seq<Match>): seq<Path> {
    if some == [] then []
    else RootsOf(ms, some[..|some| - 1]) + (if IsRoot(ms, Last(some).path) then [Last(some).path] else [])
  }

  function Trees(ms: seq<Match>, roots: seq<Path>): seq<Node>
    requires NoRoots(ms)
  {
    if roots == [] then [] else Trees(ms, roots[..|roots| - 1]) + Descendants(ms, Last(roots))
  }

  function BuildTree(ms: seq<Match>): seq<Node>
    requires NoRoots(ms)
  {
    Trees(ms, RootsOf(ms, ms))
  }

  method BuildChildren(ms: seq<Match>, p: Path) returns (children: seq<Match>)
    ensures children == Children(ms, p)
  {
    var result: seq<Match> := [];
    for i := 0 to |ms|
      invariant result == DirectChildren(ms[..i], p)
    {
      assert ms[..i + 1][..i] == ms[..i];
      if Parent(ms[i].path) == p { result := result + [ms[i]]; }
    }
    assert ms[..|ms|] == ms;
    children := ByScore(result);
  }

  method AddDescendants(ms: seq<Match>, p: Path, children: seq<Match>) returns (result: seq<Node>)
    requires NoRoots(ms) && children == Children(ms, p)
    ensures result == Descendants(ms, p)
    decreases Room(ms, p)
  {
    hide Below, Children, Room, NoRoots;
    result := [Node(p, children)];
    NothingBelow(ms, p);
    for i := 0 to |children|
      invariant result == [Node(p, children)] + Below(ms, p, children[..i])
    {
      BelowNext(ms, p, i);
      var grandChildren := BuildChildren(ms, children[i].path);
      if grandChildren != [] {
        var more := AddDescendants(ms, children[i].path, grandChildren);
        result := result + more;
      }
    }
    assert children[..|children|] == children;
  }

  lemma NothingBelow(ms: seq<Match>, p: Path)
    requires NoRoots(ms)
    ensures Below(ms, p, []) == []
  {
  }

  lemma BelowNext(ms: seq<Match>, p: Path, i: nat)
    requires NoRoots(ms) && i < |Children(ms, p)|
    ensures var cs := Children(ms, p);
            && Below(ms, p, cs[..i + 1])
               == Below(ms, p, cs[..i])
                  + (if Children(ms, cs[i].path) == [] then [] else Descendants(ms, cs[i].path))
            && (Children(ms, cs[i].path) != [] ==> Room(ms, cs[i].path) < Room(ms, p))
  {
    hide *;
    var cs := Children(ms, p);
    assert cs[..i + 1][..i] == cs[..i];
    assert cs[..i + 1] <= cs;
    BelowUnfolds(ms, p, cs[..i + 1]);
    LastOfPrefix(cs, i);
  }

  lemma LastOfPrefix(ms: seq<Match>, i: nat)
    requires i < |ms|
    ensures Last(ms[..i + 1]) == ms[i]
  {
  }

  /**
    The recursion ends because a child lies deeper than its parent; it would not for a candidate
    that is a root directory, so there must be none.
   */
  method BuildFamilyTree(ms: seq<Match>) returns (tree: seq<Node>)
    requires NoRoots(ms)
    ensures tree == BuildTree(ms)
  {
    hide Descendants, NoRoots;
    var roots: seq<Path> := [];
    for i := 0 to |ms|
      invariant roots == RootsOf(ms, ms[..i])
    {
      assert ms[..i + 1][..i] == ms[..i];
      var k := 0;
      while k < |ms| && !(ms[k].path < ms[i].path)
        invariant k <= |ms| && forall j :: 0 <= j < k ==> !(ms[j].path < ms[i].path)
      {
        k := k + 1;
      }
      if k == |ms| { roots := roots + [ms[i].path]; }
    }
    assert ms[..|ms|] == ms;
    tree := [];
    for i := 0 to |roots|
      invariant tree == Trees(ms, roots[..i])
    {
      assert roots[..i + 1][..i] == roots[..i];
      var children := BuildChildren(ms, roots[i]);
      var more := AddDescendants(ms, roots[i], children);
      tree := tree + more;
    }
    assert roots[..|roots|] == roots;
  }

  // ---- what the tree shows ----

  /** `p` is a node of the tree or listed as a child of one. */
  ghost predicate Listed(tree: seq<Node>, p: Path) {
    exists i :: 0 <= i < |tree| && (tree[i].path == p || HasPath(tree[i].children, p))
  }

  /** Every folder from just below `from` down to `p` is a candidate. */
  ghost predicate Linked(ms: seq<Match>, from: Path, p: Path) {
    from <= p && forall k :: |from| < k <= |p| ==> HasPath(ms, p[..k])
  }

  lemma ListedSplits(a: seq<Node>, b: seq<Node>, p: Path)
    ensures Listed(a + b, p) <==> Listed(a, p) || Listed(b, p)
  {
    if Listed(a, p) {
      var i :| 0 <= i < |a| && (a[i].path == p || HasPath(a[i].children, p));
      assert (a + b)[i] == a[i];
    }
    if Listed(b, p) {
      var i :| 0 <= i < |b| && (b[i].path == p || HasPath(b[i].children, p));
      assert (a + b)[|a| + i] == b[i];
    }
  }

  lemma ChildPaths(ms: seq<Match>, p: Path, q: Path)
    ensures HasPath(Children(ms, p), q) <==> HasPath(ms, q) && Parent(q) == p
  {
    ChildrenExactly(ms, p);
    hide Children;
    if HasPath(Children(ms, p), q) {
      var i :| 0 <= i < |Children(ms, p)| && Children(ms, p)[i].path == q;
      assert Children(ms, p)[i] in Children(ms, p);
      var k :| 0 <= k < |ms| && ms[k] == Children(ms, p)[i];
    }
    if HasPath(ms, q) && Parent(q) == p {
      var k :| 0 <= k < |ms| && ms[k].path == q;
      assert ms[k] in Children(ms, p);
      var i :| 0 <= i < |Children(ms, p)| && Children(ms, p)[i] == ms[k];
    }
  }

  /** Below a node the tree shows exactly what is linked to it. */
  lemma {:induction false} DescendantsShow(ms: seq<Match>, p: Path, q: Path)
    requires NoRoots(ms)
    ensures Listed(Descendants(ms, p), q) <==> Linked(ms, p, q)
    decreases Room(ms, p), |Children(ms, p)| + 1
  {
    hide Children, Room, DirectChildren;
    var cs := Children(ms, p);
    var node := [Node(p, cs)];
    ListedSplits(node, Below(ms, p, cs), q);
    NodeLists(p, cs, q);
    ChildPaths(ms, p, q);
    BelowShows(ms, p, cs, q);
    LinkedByStep(ms, p, q);
  }

  lemma NodeLists(p: Path, cs: seq<Match>, q: Path)
    ensures Listed([Node(p, cs)], q) <==> q == p || HasPath(cs, q)
  {
    var tree := [Node(p, cs)];
    assert tree[0].path == p && tree[0].children == cs;
  }

  /** `q` is linked below a child among `some` that has children of its own. */
  ghost predicate LinkedBelow(ms: seq<Match>, some: seq<Match>, q: Path) {
    exists i :: 0 <= i < |some| && Children(ms, some[i].path) != [] && Linked(ms, some[i].path, q)
  }

  lemma {:induction false} BelowShows(ms: seq<Match>, p: Path, some: seq<Match>, q: Path)
    requires NoRoots(ms) && some <= Children(ms, p)
    ensures Listed(Below(ms, p, some), q) <==> LinkedBelow(ms, some, q)
    decreases Room(ms, p), |some|
  {
    if some != [] {
      SomeChild(ms, p, some);
      var rest := some[..|some| - 1];
      var c := Last(some).path;
      BelowShows(ms, p, rest, q);
      if Children(ms, c) != [] {
        ChildIsDeeper(ms, p, c);
        DescendantsShow(ms, c, q);
      }
      BelowLists(ms, p, some, q);
      LinkedBelowSplits(ms, some, q);
    }
  }

  lemma BelowLists(ms: seq<Match>, p: Path, some: seq<Match>, q: Path)
    requires NoRoots(ms) && some != [] && some <= Children(ms, p)
    ensures var c := Last(some).path;
            Listed(Below(ms, p, some), q)
            <==> Listed(Below(ms, p, some[..|some| - 1]), q)
                 || (Children(ms, c) != [] && Listed(Descendants(ms, c), q))
  {
    hide Descendants, Children, Listed;
    var c := Last(some).path;
    var rest := Below(ms, p, some[..|some| - 1]);
    if Children(ms, c) == [] {
      assert Below(ms, p, some) == rest;
    } else {
      ListedSplits(rest, Descendants(ms, c), q);
    }
  }

  lemma LinkedBelowSplits(ms: seq<Match>, some: seq<Match>, q: Path)
    requires some != []
    ensures LinkedBelow(ms, some, q)
            <==> LinkedBelow(ms, some[..|some| - 1], q)
                 || (Children(ms, Last(some).path) != [] && Linked(ms, Last(some).path, q))
  {
    hide Children, Linked;
    var rest := some[..|some| - 1];
    assert forall i :: 0 <= i < |rest| ==> rest[i] == some[i];
  }

  /** Linked to `p`: it is `p`, a child of it, or linked below a child that has children. */
  lemma LinkedByStep(ms: seq<Match>, p: Path, q: Path)
    requires NoRoots(ms)
    ensures Linked(ms, p, q)
            <==> q == p || (HasPath(ms, q) && Parent(q) == p) || LinkedBelow(ms, Children(ms, p), q)
  {
    hide Children, NoRoots;
    if LinkedBelow(ms, Children(ms, p), q) { BelowIsLinked(ms, p, q); }
    if HasPath(ms, q) && Parent(q) == p { ChildIsLinked(ms, p, q); }
    if Linked(ms, p, q) && q != p && Parent(q) != p { LinkedGoesBelow(ms, p, q); }
    if Linked(ms, p, q) && q != p { assert q[..|q|] == q; }
  }

  lemma ChildIsLinked(ms: seq<Match>, p: Path, q: Path)
    requires NoRoots(ms) && HasPath(ms, q) && Parent(q) == p
    ensures Linked(ms, p, q)
  {
    var i :| 0 <= i < |ms| && ms[i].path == q;
    assert q[..|q|] == q;
  }

  lemma BelowIsLinked(ms: seq<Match>, p: Path, q: Path)
    requires NoRoots(ms) && LinkedBelow(ms, Children(ms, p), q)
    ensures Linked(ms, p, q)
  {
    hide Children, Linked, NoRoots, HasPath;
    var i :| 0 <= i < |Children(ms, p)| && Children(ms, p)[i] == Children(ms, p)[i]
             && Linked(ms, Children(ms, p)[i].path, q);
    var c := Children(ms, p)[i].path;
    SomeChild(ms, p, Children(ms, p)[..i + 1]);
    assert HasPath(ms, c) by { InIsPath(ms, Children(ms, p)[i]); }
    LinkedVia(ms, p, c, q);
  }

  lemma InIsPath(ms: seq<Match>, m: Match)
    requires m in ms
    ensures HasPath(ms, m.path)
  {
  }

  lemma LinkedVia(ms: seq<Match>, p: Path, c: Path, q: Path)
    requires HasPath(ms, c) && c != [] && Parent(c) == p && Linked(ms, c, q)
    ensures Linked(ms, p, q)
  {
    assert q[..|c|] == c;
  }

  lemma LinkedGoesBelow(ms: seq<Match>, p: Path, q: Path)
    requires NoRoots(ms) && Linked(ms, p, q) && q != p && Parent(q) != p
    ensures LinkedBelow(ms, Children(ms, p), q)
  {
    var c, g := q[..|p| + 1], q[..|p| + 2];
    assert c[..|p|] == p && g[..|p| + 1] == c;
    ChildPaths(ms, p, c);
    ChildPaths(ms, c, g);
    var i :| 0 <= i < |Children(ms, p)| && Children(ms, p)[i].path == c;
    assert Linked(ms, c, q);
  }

  /** The topmost candidate above `p`, or `p` itself. */
  ghost predicate IsTopmost(ms: seq<Match>, top: Path, p: Path) {
    HasPath(ms, top) && top <= p && IsRoot(ms, top)
  }

  lemma {:induction false} RootsExactly(ms: seq<Match>, some: seq<Match>)
    ensures forall p :: p in RootsOf(ms, some) <==> HasPath(some, p) && IsRoot(ms, p)
  {
    if some != [] {
      var rest := some[..|some| - 1];
      RootsExactly(ms, rest);
      forall p ensures HasPath(some, p) <==> HasPath(rest, p) || Last(some).path == p {
        if HasPath(rest, p) {
          var i :| 0 <= i < |rest| && rest[i].path == p;
          assert some[i].path == p;
        }
        if HasPath(some, p) {
          var i :| 0 <= i < |some| && some[i].path == p;
          if i < |rest| { assert rest[i].path == p; }
        }
        assert some[|rest|].path == Last(some).path;
      }
    }
  }

  lemma {:induction false} TreesShow(ms: seq<Match>, roots: seq<Path>, q: Path)
    requires NoRoots(ms)
    ensures Listed(Trees(ms, roots), q) <==> exists i :: 0 <= i < |roots| && Linked(ms, roots[i], q)
  {
    hide Linked, Listed, Descendants, NoRoots;
    if roots == [] {
      NothingListed(q);
    } else {
      var rest := roots[..|roots| - 1];
      TreesShow(ms, rest, q);
      DescendantsShow(ms, Last(roots), q);
      ListedSplits(Trees(ms, rest), Descendants(ms, Last(roots)), q);
      assert forall i :: 0 <= i < |rest| ==> rest[i] == roots[i];
      assert Last(roots) == roots[|rest|];
    }
  }

  lemma NothingListed(q: Path)
    ensures !Listed([], q)
  {
  }

  /**
    The tree shows a candidate exactly when every folder between it and its topmost candidate
    ancestor is a candidate as well: one that skips a level is left out.
   */
  lemma TreeShowsExactly(ms: seq<Match>, q: Path)
    requires NoRoots(ms) && HasPath(ms, q)
    ensures Listed(BuildTree(ms), q) <==> exists top :: IsTopmost(ms, top, q) && Linked(ms, top, q)
  {
    hide Linked, Listed, NoRoots, Trees;
    var roots := RootsOf(ms, ms);
    RootsExactly(ms, ms);
    TreesShow(ms, roots, q);
    if Listed(BuildTree(ms), q) {
      var i :| 0 <= i < |roots| && Linked(ms, roots[i], q);
      assert roots[i] in roots;
      assert roots[i] <= q by { LinkedIsPrefix(ms, roots[i], q); }
      assert IsTopmost(ms, roots[i], q);
    }
    if exists top :: IsTopmost(ms, top, q) && Linked(ms, top, q) {
      var top :| IsTopmost(ms, top, q) && Linked(ms, top, q);
      assert top in roots;
      var i :| 0 <= i < |roots| && roots[i] == top;
    }
  }

  lemma LinkedIsPrefix(ms: seq<Match>, from: Path, p: Path)
    requires Linked(ms, from, p)
    ensures from <= p
  {
  }

  /** Every candidate has one topmost candidate above it. */
  lemma {:induction false} TopmostExists(ms: seq<Match>, p: Path) returns (top: Path)
    requires HasPath(ms, p)
    ensures IsTopmost(ms, top, p)
    ensures forall other :: IsTopmost(ms, other, p) ==> other == top
    decreases |p|
  {
    if IsRoot(ms, p) {
      top := p;
    } else {
      var i :| 0 <= i < |ms| && ms[i].path < p;
      top := TopmostExists(ms, ms[i].path);
    }
    forall other | IsTopmost(ms, other, p) ensures other == top {
      PrefixesCompare(other, top, p);
      var a :| 0 <= a < |ms| && ms[a].path == other;
      var b :| 0 <= b < |ms| && ms[b].path == top;
    }
  }

  lemma PrefixesCompare(a: Path, b: Path, p: Path)
    requires a <= p && b <= p
    ensures a == b || a < b || b < a
  {
    if |a| <= |b| { assert a == b[..|a|]; } else { assert b == a[..|b|]; }
  }

  // ---- no node twice ----

  predicate NodesDiffer(tree: seq<Node>) {
    forall i, k :: 0 <= i < k < |tree| ==> tree[i].path != tree[k].path
  }

  predicate AllUnder(tree: seq<Node>, p: Path) {
    forall i :: 0 <= i < |tree| ==> p <= tree[i].path
  }

  lemma {:induction false} DescendantsDiffer(ms: seq<Match>, p: Path)
    requires NoRoots(ms) && Distinct(ms)
    ensures NodesDiffer(Descendants(ms, p)) && AllUnder(Descendants(ms, p), p)
    decreases Room(ms, p), |Children(ms, p)| + 1
  {
    hide Children, NoRoots, Distinct;
    BelowDiffers(ms, p, Children(ms, p));
  }

  /** Every node lies under one of the children, so under a path one part longer than `p`. */
  ghost predicate UnderSome(tree: seq<Node>, p: Path, some: seq<Match>) {
    forall i :: 0 <= i < |tree| ==>
      p < tree[i].path && exists k :: 0 <= k < |some| && some[k].path <= tree[i].path
  }

  lemma {:induction false} BelowDiffers(ms: seq<Match>, p: Path, some: seq<Match>)
    requires NoRoots(ms) && Distinct(ms) && some <= Children(ms, p)
    ensures NodesDiffer(Below(ms, p, some)) && UnderSome(Below(ms, p, some), p, some)
    decreases Room(ms, p), |some|
  {
    if some != [] {
      SomeChild(ms, p, some);
      var rest, c := some[..|some| - 1], Last(some).path;
      BelowDiffers(ms, p, rest);
      ChildrenApart(ms, p, some);
      if Children(ms, c) != [] {
        ChildIsDeeper(ms, p, c);
        DescendantsDiffer(ms, c);
        JoinDiffers(Below(ms, p, rest), Descendants(ms, c), p, some);
      } else {
        MoreChildren(Below(ms, p, rest), p, some);
      }
    }
  }

  lemma MoreChildren(tree: seq<Node>, p: Path, some: seq<Match>)
    requires some != [] && UnderSome(tree, p, some[..|some| - 1])
    ensures UnderSome(tree, p, some)
  {
    forall i | 0 <= i < |tree|
      ensures p < tree[i].path && exists k :: 0 <= k < |some| && some[k].path <= tree[i].path
    {
      var k :| 0 <= k < |some| - 1 && some[..|some| - 1][k].path <= tree[i].path;
      assert some[k].path <= tree[i].path;
    }
  }

  /** Children of one folder, all different. */
  predicate Siblings(some: seq<Match>, p: Path) {
    && (forall k :: 0 <= k < |some| ==> some[k].path != [] && Parent(some[k].path) == p)
    && Distinct(some)
  }

  lemma JoinDiffers(a: seq<Node>, b: seq<Node>, p: Path, some: seq<Match>)
    requires some != [] && Siblings(some, p)
    requires NodesDiffer(a) && UnderSome(a, p, some[..|some| - 1])
    requires NodesDiffer(b) && AllUnder(b, Last(some).path)
    ensures NodesDiffer(a + b) && UnderSome(a + b, p, some)
  {
    MoreChildren(a, p, some);
    forall i, j | 0 <= i < |a| && 0 <= j < |b| ensures a[i].path != b[j].path {
      assert UnderSome([a[i]], p, some[..|some| - 1]);
      AcrossDiffers(a[i], b[j], p, some);
    }
    LastChildCovers(b, p, some);
    hide Siblings, AllUnder;
  }

  lemma AcrossDiffers(one: Node, other: Node, p: Path, some: seq<Match>)
    requires some != [] && Siblings(some, p)
    requires UnderSome([one], p, some[..|some| - 1])
    requires Last(some).path <= other.path
    ensures one.path != other.path
  {
    var rest := some[..|some| - 1];
    assert [one][0] == one;
    var k :| 0 <= k < |rest| && rest[k].path <= one.path;
    assert some[|some| - 1] == Last(some);
    SiblingsSplit(some[k].path, Last(some).path, p, one.path, other.path);
  }

  lemma LastChildCovers(b: seq<Node>, p: Path, some: seq<Match>)
    requires some != [] && Siblings(some, p) && AllUnder(b, Last(some).path)
    ensures UnderSome(b, p, some)
  {
    var c := Last(some).path;
    assert p == c[..|p|];
    forall j | 0 <= j < |b|
      ensures p < b[j].path && exists k :: 0 <= k < |some| && some[k].path <= b[j].path
    {
      assert some[|some| - 1].path <= b[j].path;
    }
  }

  /** Paths under two different folders of one directory are different. */
  lemma SiblingsSplit(c: Path, c': Path, p: Path, q: Path, q': Path)
    requires c != [] && c' != [] && Parent(c) == p == Parent(c') && c != c'
    requires c <= q && c' <= q'
    ensures q != q'
  {
    if q == q' { PrefixesCompare(c, c', q); }
  }

  lemma {:induction false} ChildrenApart(ms: seq<Match>, p: Path, some: seq<Match>)
    requires NoRoots(ms) && Distinct(ms) && some <= Children(ms, p)
    ensures Siblings(some, p)
  {
    var cs := Children(ms, p);
    DirectDistinct(ms, p);
    SortedDistinct(DirectChildren(ms, p));
    ChildrenExactly(ms, p);
    forall k | 0 <= k < |some| ensures some[k].path != [] && Parent(some[k].path) == p {
      assert some[k] == cs[k] && cs[k] in cs;
    }
    forall i, k | 0 <= i < k < |some| ensures some[i].path != some[k].path {
      assert some[i] == cs[i] && some[k] == cs[k];
    }
  }

  lemma {:induction false} DirectDistinct(ms: seq<Match>, p: Path)
    requires Distinct(ms)
    ensures Distinct(DirectChildren(ms, p))
  {
    if ms != [] {
      var rest := ms[..|ms| - 1];
      DirectDistinct(rest, p);
      DirectChildrenExactly(rest, p);
      LastDiffers(ms, DirectChildren(rest, p));
    }
  }

  /** The last match differs from all that come from the ones before. */
  lemma LastDiffers(ms: seq<Match>, some: seq<Match>)
    requires ms != [] && Distinct(ms) && Distinct(some)
    requires forall m :: m in some ==> m in ms[..|ms| - 1]
    ensures forall i :: 0 <= i < |some| ==> some[i].path != Last(ms).path
    ensures Distinct(some + [Last(ms)])
  {
    forall i | 0 <= i < |some| ensures some[i].path != Last(ms).path {
      assert some[i] in some;
      var k :| 0 <= k < |ms| - 1 && ms[..|ms| - 1][k] == some[i];
      assert ms[k] == some[i];
    }
  }

  /** Sorting keeps different paths different: it only moves the matches. */
  lemma {:induction false} SortedDistinct(ms: seq<Match>)
    requires Distinct(ms)
    ensures Distinct(ByScore(ms))
  {
    if ms != [] {
      var rest := ms[..|ms| - 1];
      SortedDistinct(rest);
      forall i | 0 <= i < |ByScore(rest)| ensures ByScore(rest)[i].path != Last(ms).path {
        assert ByScore(rest)[i] in ByScore(rest);
        SamePaths(rest, ByScore(rest)[i]);
        var k :| 0 <= k < |rest| && rest[k] == ByScore(rest)[i];
        assert ms[k] == rest[k];
      }
      InsertDistinct(ByScore(rest), Last(ms));
    }
  }

  lemma {:induction false} InsertDistinct(ms: seq<Match>, m: Match)
    requires Distinct(ms) && forall i :: 0 <= i < |ms| ==> ms[i].path != m.path
    ensures Distinct(InsertBy(Behind, ms, m))
  {
    if ms != [] && Last(ms).score < m.score {
      var rest := ms[..|ms| - 1];
      InsertDistinct(rest, m);
      InsertMembers(Behind, rest, m);
      forall i | 0 <= i < |InsertBy(Behind, rest, m)|
        ensures InsertBy(Behind, rest, m)[i].path != Last(ms).path
      {
        if InsertBy(Behind, rest, m)[i] != m {
          var k :| 0 <= k < |rest| && rest[k] == InsertBy(Behind, rest, m)[i];
          assert ms[k] == rest[k];
        }
      }
    }
  }

  /** Roots in candidate order: different, and none inside another. */
  lemma {:induction false} RootsApart(ms: seq<Match>, some: seq<Match>)
    requires Distinct(ms) && some <= ms
    ensures forall i, k :: 0 <= i < k < |RootsOf(ms, some)| ==>
              !(RootsOf(ms, some)[i] <= RootsOf(ms, some)[k]) && !(RootsOf(ms, some)[k] <= RootsOf(ms, some)[i])
  {
    if some != [] {
      var rest := some[..|some| - 1];
      RootsApart(ms, rest);
      RootsExactly(ms, rest);
      var roots, last := RootsOf(ms, rest), Last(some).path;
      assert ms[|rest|] == Last(some);
      if IsRoot(ms, last) {
        forall i | 0 <= i < |roots| ensures !(roots[i] <= last) && !(last <= roots[i]) {
          assert roots[i] in roots;
          var k :| 0 <= k < |rest| && rest[k].path == roots[i];
          assert ms[k] == rest[k];
        }
      }
    }
  }

  /** However the candidates lie, no folder has two node entries. */
  lemma {:induction false} NoNodeTwice(ms: seq<Match>)
    requires NoRoots(ms) && Distinct(ms)
    ensures NodesDiffer(BuildTree(ms))
  {
    RootsApart(ms, ms);
    TreesDiffer(ms, RootsOf(ms, ms));
  }

  predicate UnderOne(p: Path, roots: seq<Path>) {
    exists k :: 0 <= k < |roots| && roots[k] <= p
  }

  predicate UnderRoots(tree: seq<Node>, roots: seq<Path>) {
    forall i :: 0 <= i < |tree| ==> UnderOne(tree[i].path, roots)
  }

  predicate Apart(roots: seq<Path>) {
    forall i, k :: 0 <= i < k < |roots| ==> !(roots[i] <= roots[k]) && !(roots[k] <= roots[i])
  }

  lemma {:induction false} TreesDiffer(ms: seq<Match>, roots: seq<Path>)
    requires NoRoots(ms) && Distinct(ms) && Apart(roots)
    ensures NodesDiffer(Trees(ms, roots)) && UnderRoots(Trees(ms, roots), roots)
  {
    hide Descendants, NoRoots, Distinct;
    if roots != [] {
      var rest := roots[..|roots| - 1];
      TreesDiffer(ms, rest);
      DescendantsDiffer(ms, Last(roots));
      RootsJoin(Trees(ms, rest), Descendants(ms, Last(roots)), roots);
    }
  }

  lemma RootsJoin(a: seq<Node>, b: seq<Node>, roots: seq<Path>)
    requires roots != [] && Apart(roots)
    requires NodesDiffer(a) && UnderRoots(a, roots[..|roots| - 1])
    requires NodesDiffer(b) && AllUnder(b, Last(roots))
    ensures NodesDiffer(a + b) && UnderRoots(a + b, roots)
  {
    hide Apart, UnderOne;
    forall i | 0 <= i < |a| ensures UnderOne(a[i].path, roots) {
      UnderMore(a[i].path, roots);
    }
    forall j | 0 <= j < |b| ensures UnderOne(b[j].path, roots) {
      UnderLast(b[j].path, roots);
    }
    forall i, j | 0 <= i < |a| && 0 <= j < |b| ensures a[i].path != b[j].path {
      UnderApart(a[i].path, b[j].path, roots);
    }
  }

  lemma UnderMore(p: Path, roots: seq<Path>)
    requires roots != [] && UnderOne(p, roots[..|roots| - 1])
    ensures UnderOne(p, roots)
  {
    var rest := roots[..|roots| - 1];
    var k :| 0 <= k < |rest| && rest[k] <= p;
    assert roots[k] == rest[k];
  }

  lemma UnderLast(p: Path, roots: seq<Path>)
    requires roots != [] && Last(roots) <= p
    ensures UnderOne(p, roots)
  {
    assert roots[|roots| - 1] <= p;
  }

  /** What lies under a root is not what lies under another. */
  lemma UnderApart(p: Path, q: Path, roots: seq<Path>)
    requires roots != [] && Apart(roots) && UnderOne(p, roots[..|roots| - 1]) && Last(roots) <= q
    ensures p != q
  {
    var rest := roots[..|roots| - 1];
    var k :| 0 <= k < |rest| && rest[k] <= p;
    assert roots[k] == rest[k] && roots[|rest|] == Last(roots);
    if p == q { PrefixesCompare(roots[k], Last(roots), p); }
  }

  // ---- what the nodes show, and in which order ----

  /** Every node lists exactly the candidates right below it, best first. */
  predicate ShowsChildren(ms: seq<Match>, tree: seq<Node>) {
    forall i :: 0 <= i < |tree| ==> tree[i].children == Children(ms, tree[i].path)
  }

  /** A node other than a first one comes after a node that lists it. */
  ghost predicate AfterParent(tree: seq<Node>, firsts: set<Path>) {
    forall i :: 0 <= i < |tree| && tree[i].path !in firsts ==>
      exists k :: 0 <= k < i && HasPath(tree[k].children, tree[i].path)
  }

  lemma {:induction false} DescendantsInOrder(ms: seq<Match>, p: Path)
    requires NoRoots(ms)
    ensures AfterParent(Descendants(ms, p), {p})
    decreases Room(ms, p), |Children(ms, p)| + 1
  {
    hide Children, Room, NoRoots, AfterParent, Below;
    BelowInOrder(ms, p, Children(ms, p));
    HeadInOrder(p, Children(ms, p), Below(ms, p, Children(ms, p)));
  }

  lemma HeadInOrder(p: Path, cs: seq<Match>, below: seq<Node>)
    requires AfterParent(below, PathsOf(cs))
    ensures AfterParent([Node(p, cs)] + below, {p})
  {
    hide HasPath, PathsOf;
    var tree := [Node(p, cs)] + below;
    forall i | 0 <= i < |tree| && tree[i].path !in {p}
      ensures exists k :: 0 <= k < i && HasPath(tree[k].children, tree[i].path)
    {
      assert tree[i] == below[i - 1];
      if tree[i].path in PathsOf(cs) {
        ListedPath(cs, tree[i].path);
        assert HasPath(tree[0].children, tree[i].path);
      } else {
        var k :| 0 <= k < i - 1 && HasPath(below[k].children, below[i - 1].path);
        assert tree[k + 1] == below[k];
      }
    }
  }

  lemma ListedPath(cs: seq<Match>, p: Path)
    requires p in PathsOf(cs)
    ensures HasPath(cs, p)
  {
  }

  lemma {:induction false} DescendantsShowChildren(ms: seq<Match>, p: Path)
    requires NoRoots(ms)
    ensures ShowsChildren(ms, Descendants(ms, p))
    decreases Room(ms, p), |Children(ms, p)| + 1
  {
    hide Children, Room, NoRoots, Below;
    BelowShowsChildren(ms, p, Children(ms, p));
  }

  lemma {:induction false} BelowShowsChildren(ms: seq<Match>, p: Path, some: seq<Match>)
    requires NoRoots(ms) && some <= Children(ms, p)
    ensures ShowsChildren(ms, Below(ms, p, some))
    decreases Room(ms, p), |some|
  {
    hide Children, Room, NoRoots, Descendants, Below;
    BelowUnfolds(ms, p, some);
    if some != [] {
      BelowShowsChildren(ms, p, some[..|some| - 1]);
      if Children(ms, Last(some).path) != [] {
        DescendantsShowChildren(ms, Last(some).path);
      }
    }
  }

  function PathsOf(ms: seq<Match>): set<Path> { set i | 0 <= i < |ms| :: ms[i].path }

  lemma BelowUnfolds(ms: seq<Match>, p: Path, some: seq<Match>)
    requires NoRoots(ms) && some <= Children(ms, p)
    ensures some == [] ==> Below(ms, p, some) == []
    ensures some != [] ==>
              var c := Last(some).path;
              && Below(ms, p, some)
                 == Below(ms, p, some[..|some| - 1])
                    + (if Children(ms, c) == [] then [] else Descendants(ms, c))
              && (Children(ms, c) != [] ==> Room(ms, c) < Room(ms, p))
  {
    hide Children, Room, Descendants, NoRoots;
    if some != [] {
      SomeChild(ms, p, some);
      if Children(ms, Last(some).path) != [] { ChildIsDeeper(ms, p, Last(some).path); }
    }
  }

  lemma {:induction false} BelowInOrder(ms: seq<Match>, p: Path, some: seq<Match>)
    requires NoRoots(ms) && some <= Children(ms, p)
    ensures AfterParent(Below(ms, p, some), PathsOf(some))
    decreases Room(ms, p), |some|
  {
    hide *;
    BelowUnfolds(ms, p, some);
    if some == [] {
      NothingInOrder(PathsOf(some));
    } else {
      var rest, c := some[..|some| - 1], Last(some).path;
      var before := Below(ms, p, rest);
      BelowInOrder(ms, p, rest);
      MoreFirsts(before, rest, some);
      if Children(ms, c) != [] {
        DescendantsInOrder(ms, c);
        OrderJoins(before, Descendants(ms, c), PathsOf(some), c);
      } else {
        assert Below(ms, p, some) == before;
      }
    }
  }

  lemma NothingInOrder(firsts: set<Path>)
    ensures AfterParent([], firsts)
  {
  }

  lemma MoreFirsts(tree: seq<Node>, rest: seq<Match>, some: seq<Match>)
    requires some != [] && rest == some[..|some| - 1] && AfterParent(tree, PathsOf(rest))
    ensures AfterParent(tree, PathsOf(some)) && Last(some).path in PathsOf(some)
  {
    assert some[|some| - 1].path in PathsOf(some);
    forall p | p in PathsOf(rest) ensures p in PathsOf(some) {
      var i :| 0 <= i < |rest| && rest[i].path == p;
      assert some[i].path == p;
    }
  }

  lemma OrderJoins(a: seq<Node>, b: seq<Node>, firsts: set<Path>, c: Path)
    requires AfterParent(a, firsts) && AfterParent(b, {c}) && c in firsts
    ensures AfterParent(a + b, firsts)
  {
    var tree := a + b;
    forall i | 0 <= i < |tree| && tree[i].path !in firsts
      ensures exists k :: 0 <= k < i && HasPath(tree[k].children, tree[i].path)
    {
      if i < |a| {
        var k :| 0 <= k < i && HasPath(a[k].children, a[i].path);
        assert tree[k] == a[k];
      } else {
        var k :| 0 <= k < i - |a| && HasPath(b[k].children, b[i - |a|].path);
        assert tree[|a| + k] == b[k];
      }
    }
  }

  lemma {:induction false} TreesInOrder(ms: seq<Match>, roots: seq<Path>)
    requires NoRoots(ms)
    ensures ShowsChildren(ms, Trees(ms, roots)) && AfterParent(Trees(ms, roots), set r | r in roots)
  {
    hide Descendants, NoRoots, Children;
    if roots != [] {
      var rest := roots[..|roots| - 1];
      TreesInOrder(ms, rest);
      DescendantsShowChildren(ms, Last(roots));
      DescendantsInOrder(ms, Last(roots));
      assert (set r | r in rest) <= (set r | r in roots);
      OrderJoins(Trees(ms, rest), Descendants(ms, Last(roots)), (set r | r in roots), Last(roots));
    }
  }

  /** Roots head their trees; every other node follows the one that lists it; all list best first. */
  lemma TreeInOrder(ms: seq<Match>)
    requires NoRoots(ms)
    ensures var tree := BuildTree(ms);
            && AfterParent(tree, set r | r in RootsOf(ms, ms))
            && forall i :: 0 <= i < |tree| ==>
                 && Descending(tree[i].children)
                 && forall m :: m in tree[i].children <==> m in ms && Parent(m.path) == tree[i].path
  {
    TreesInOrder(ms, RootsOf(ms, ms));
    var tree := BuildTree(ms);
    hide Trees, RootsOf, Children;
    forall i | 0 <= i < |tree|
      ensures Descending(tree[i].children)
      ensures forall m :: m in tree[i].children <==> m in ms && Parent(m.path) == tree[i].path
    {
      ChildrenExactly(ms, tree[i].path);
      ChildrenDescend(ms, tree[i].path);
    }
  }

  lemma ChildrenDescend(ms: seq<Match>, p: Path)
    ensures Descending(Children(ms, p))
  {
    ByScoreSorts(DirectChildren(ms, p), 0);
  }
}
