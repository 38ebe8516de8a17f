/**
  Candidate folders that contain one another: finding them, deciding for one of them, and the tree
  in which the rest is offered. A path is its parts; its parents are its proper prefixes.
 */
module Matcher {
  import opened Common
  import opened Sorting

  type Path = seq<string>

  datatype Match = Match(path: Path, score: int)

  datatype Node = Node(path: Path, children: seq<Match>)

  predicate HasPath(ms: seq<Match>, p: Path) {
    exists i :: 0 <= i < |ms| && ms[i].path == p
  }

  /** The directory a path lies in; a root lies in itself. */
  function Parent(p: Path): Path {
    if p == [] then p else p[..|p| - 1]
  }

  predicate Distinct(ms: seq<Match>) {
    forall i, k :: 0 <= i < k < |ms| ==> ms[i].path != ms[k].path
  }

  /** No candidate is a root directory, which would be its own parent. */
  predicate NoRoots(ms: seq<Match>) {
    forall i :: 0 <= i < |ms| ==> ms[i].path != []
  }

  // ---- sorting by score ----

  predicate Descending(ms: seq<Match>) {
    forall i, k :: 0 <= i < k < |ms| ==> ms[i].score >= ms[k].score
  }

  /** What the sort counts up: the score, counted down. */
  function Behind(m: Match): int { -m.score }

  /** The stable sort, best score first. */
  function ByScore(ms: seq<Match>): seq<Match> {
    SortBy(Behind, ms)
  }

  function WithScore(ms: seq<Match>, score: int): seq<Match> {
    WithKey(Behind, ms, -score)
  }

  /** Sorted best first, nothing lost, equals in their old order. */
  lemma ByScoreSorts(ms: seq<Match>, score: int)
    ensures Descending(ByScore(ms)) && multiset(ByScore(ms)) == multiset(ms)
    ensures WithScore(ByScore(ms), score) == WithScore(ms, score)
  {
    hide SortBy, InsertBy, WithKey, Ascending, Descending;
    SortBySorts(Behind, ms, -score);
    AscendingDescends(ByScore(ms));
  }

  lemma AscendingDescends(ms: seq<Match>)
    requires Ascending(Behind, ms)
    ensures Descending(ms)
  {
    assert forall i :: 0 <= i < |ms| ==> Behind(ms[i]) == -ms[i].score;
  }

  lemma SamePaths(ms: seq<Match>, m: Match)
    ensures m in ByScore(ms) <==> m in ms
  {
    ByScoreSorts(ms, 0);
    hide ByScore;
    assert m in ByScore(ms) <==> m in multiset(ByScore(ms));
    assert m in ms <==> m in multiset(ms);
  }

  // ---- families ----

  /** A candidate contains, or is contained in, another candidate. */
  predicate InFamily(ms: seq<Match>, p: Path) {
    exists i :: 0 <= i < |ms| && (ms[i].path < p || p < ms[i].path)
  }

  ghost predicate Overlap(ms: seq<Match>) {
    exists i, k :: 0 <= i < |ms| && 0 <= k < |ms| && ms[i].path < ms[k].path
  }

  method HasFamilyOverlap(ms: seq<Match>) returns (r: bool)
    ensures r <==> Overlap(ms)
  {
    for i := 0 to |ms|
      invariant forall a, b :: 0 <= a < i && 0 <= b < |ms| ==> !(ms[a].path < ms[b].path)
    {
      for k := 0 to |ms|
        invariant forall b :: 0 <= b < k ==> !(ms[i].path < ms[b].path)
      {
        if ms[i].path < ms[k].path { return true; }
      }
    }
    return false;
  }

  /** Those of `ms` that belong to a family among `all`, or those that do not. */
  function FamilyPart(ms: seq<Match>, all: seq<Match>, within: bool): seq<Match> {
    if ms == [] then []
    else
      FamilyPart(ms[..|ms| - 1], all, within)
      + (if InFamily(all, Last(ms).path) == within then [Last(ms)] else [])
  }

  /** The paths of all candidates above or below another. */
  method FamilyPaths(ms: seq<Match>) returns (paths: set<Path>)
    ensures forall i :: 0 <= i < |ms| ==> (ms[i].path in paths <==> InFamily(ms, ms[i].path))
  {
    hide *;
    paths := {};
    NoPairs(ms);
    for i := 0 to |ms|
      invariant OnlyFamily(ms, paths) && PairsDone(ms, paths, i, 0)
    {
      for k := 0 to |ms|
        invariant OnlyFamily(ms, paths) && PairsDone(ms, paths, i, k)
      {
        PairDone(ms, paths, i, k);
        if ms[i].path < ms[k].path {
          PairIsFamily(ms, paths, i, k);
          paths := paths + {ms[i].path, ms[k].path};
        }
      }
      RowDone(ms, paths, i);
    }
    PairsSettle(ms, paths);
  }

  /** The ordered pairs of candidates up to `(i, k)` that lie in one another have been entered. */
  ghost predicate PairsDone(ms: seq<Match>, paths: set<Path>, i: nat, k: nat) {
    forall a, b :: 0 <= a < |ms| && 0 <= b < |ms| && (a < i || (a == i && b < k)) && ms[a].path < ms[b].path ==>
      ms[a].path in paths && ms[b].path in paths
  }

  lemma NoPairs(ms: seq<Match>)
    ensures OnlyFamily(ms, {}) && PairsDone(ms, {}, 0, 0)
  {
  }

  lemma PairDone(ms: seq<Match>, paths: set<Path>, i: nat, k: nat)
    requires PairsDone(ms, paths, i, k) && i < |ms| && k < |ms|
    ensures ms[i].path < ms[k].path ==> PairsDone(ms, paths + {ms[i].path, ms[k].path}, i, k + 1)
    ensures !(ms[i].path < ms[k].path) ==> PairsDone(ms, paths, i, k + 1)
  {
  }

  lemma RowDone(ms: seq<Match>, paths: set<Path>, i: nat)
    requires PairsDone(ms, paths, i, |ms|)
    ensures PairsDone(ms, paths, i + 1, 0)
  {
  }

  lemma PairsSettle(ms: seq<Match>, paths: set<Path>)
    requires OnlyFamily(ms, paths) && PairsDone(ms, paths, |ms|, 0)
    ensures forall i :: 0 <= i < |ms| ==> (ms[i].path in paths <==> InFamily(ms, ms[i].path))
  {
  }

  ghost predicate OnlyFamily(ms: seq<Match>, paths: set<Path>) {
    forall p :: p in paths ==> InFamily(ms, p)
  }

  lemma PairIsFamily(ms: seq<Match>, paths: set<Path>, i: nat, k: nat)
    requires OnlyFamily(ms, paths) && i < |ms| && k < |ms| && ms[i].path < ms[k].path
    ensures OnlyFamily(ms, paths + {ms[i].path, ms[k].path})
  {
  }

  /** The members and the others, both best first. */
  method ExtractFamilyGroup(ms: seq<Match>) returns (family: seq<Match>, standalone: seq<Match>)
    ensures family == ByScore(FamilyPart(ms, ms, true))
    ensures standalone == ByScore(FamilyPart(ms, ms, false))
  {
    hide ByScore, InFamily;
    var paths := FamilyPaths(ms);
    family, standalone := [], [];
    for i := 0 to |ms|
      invariant family == FamilyPart(ms[..i], ms, true)
      invariant standalone == FamilyPart(ms[..i], ms, false)
    {
      assert ms[..i + 1][..i] == ms[..i];
      if ms[i].path in paths { family := family + [ms[i]]; } else { standalone := standalone + [ms[i]]; }
    }
    assert ms[..|ms|] == ms;
    family, standalone := ByScore(family), ByScore(standalone);
  }

  lemma {:induction false} SplitKeeps(ms: seq<Match>, all: seq<Match>)
    ensures multiset(FamilyPart(ms, all, true)) + multiset(FamilyPart(ms, all, false)) == multiset(ms)
  {
    hide FamilyPart, InFamily;
    if ms == [] {
      EmptyPart(all);
    } else {
      var rest := ms[..|ms| - 1];
      SplitKeeps(rest, all);
      PartNext(ms, all, true);
      PartNext(ms, all, false);
      assert ms == rest + [Last(ms)];
      OneMore(rest, FamilyPart(rest, all, true), FamilyPart(rest, all, false), Last(ms));
    }
  }

  lemma EmptyPart(all: seq<Match>)
    ensures FamilyPart([], all, true) == [] == FamilyPart([], all, false)
  {
  }

  lemma OneMore(ms: seq<Match>, a: seq<Match>, b: seq<Match>, m: Match)
    requires multiset(a) + multiset(b) == multiset(ms)
    ensures multiset(a + [m]) + multiset(b) == multiset(ms + [m])
    ensures multiset(a) + multiset(b + [m]) == multiset(ms + [m])
  {
  }

  lemma PartNext(ms: seq<Match>, all: seq<Match>, within: bool)
    requires ms != []
    ensures var rest := FamilyPart(ms[..|ms| - 1], all, within);
            FamilyPart(ms, all, within)
            == if InFamily(all, Last(ms).path) == within then rest + [Last(ms)] else rest
  {
    hide InFamily;
  }

  lemma {:induction false} SplitMembers(ms: seq<Match>, all: seq<Match>, within: bool)
    ensures forall m :: m in FamilyPart(ms, all, within) <==> m in ms && InFamily(all, m.path) == within
  {
    hide InFamily;
    if ms != [] {
      SplitMembers(ms[..|ms| - 1], all, within);
      assert ms == ms[..|ms| - 1] + [Last(ms)];
    }
  }

  /** The split loses nothing, puts each candidate where it belongs, and has members iff some overlap. */
  lemma FamilySplit(ms: seq<Match>)
    ensures var family, standalone := ByScore(FamilyPart(ms, ms, true)), ByScore(FamilyPart(ms, ms, false));
            && multiset(family) + multiset(standalone) == multiset(ms)
            && Descending(family) && Descending(standalone)
            && (forall m :: m in family <==> m in ms && InFamily(ms, m.path))
            && (family != [] <==> Overlap(ms))
  {
    hide InFamily, FamilyPart, ByScore, Descending, Overlap;
    SplitKeeps(ms, ms);
    SplitMembers(ms, ms, true);
    var inside, outside := FamilyPart(ms, ms, true), FamilyPart(ms, ms, false);
    ByScoreSorts(inside, 0);
    ByScoreSorts(outside, 0);
    forall m ensures m in ByScore(inside) <==> m in ms && InFamily(ms, m.path) {
      SamePaths(inside, m);
    }
    OverlapIffMember(ms);
    if ByScore(inside) == [] {
      assert forall m :: m in ms ==> !InFamily(ms, m.path);
    } else {
      assert ByScore(inside)[0] in ByScore(inside);
    }
  }

  lemma OverlapIffMember(ms: seq<Match>)
    ensures Overlap(ms) <==> exists m :: m in ms && InFamily(ms, m.path)
  {
    if Overlap(ms) {
      var i, k :| 0 <= i < |ms| && 0 <= k < |ms| && ms[i].path < ms[k].path;
      assert ms[k] in ms && InFamily(ms, ms[k].path);
    }
    if exists m :: m in ms && InFamily(ms, m.path) {
      var m :| m in ms && InFamily(ms, m.path);
      var k :| 0 <= k < |ms| && ms[k] == m;
      var i :| 0 <= i < |ms| && (ms[i].path < m.path || m.path < ms[i].path);
    }
  }

  // ---- deciding for a child ----

  predicate IsChild(ms: seq<Match>, m: Match) {
    exists i :: 0 <= i < |ms| && ms[i].path < m.path
  }

  function ChildrenOf(ms: seq<Match>, all: seq<Match>): seq<Match> {
    if ms == [] then []
    else ChildrenOf(ms[..|ms| - 1], all) + (if IsChild(all, Last(ms)) then [Last(ms)] else [])
  }

  /** `best` is the first of the children with the highest score. */
  predicate BestOf(children: seq<Match>, best: Match) {
    exists i :: 0 <= i < |children| && children[i] == best
                && (forall k :: 0 <= k < |children| ==> children[k].score <= best.score)
                && (forall k :: 0 <= k < i ==> children[k].score < best.score)
  }

  /**
    A child is chosen exactly when the best one is good enough, or the only one is fairly good; else
    all candidates are handed back.
   */
  method ResolveFamily(ms: seq<Match>, autoThreshold: int, childThreshold: int)
    returns (selected: Option<Path>, remaining: seq<Match>)
    ensures var children := ChildrenOf(ms, ms);
            && (selected.Some? <==>
                  exists best :: BestOf(children, best)
                    && (best.score >= autoThreshold || (|children| == 1 && best.score >= childThreshold)))
            && (selected.Some? ==>
                  remaining == [] && exists best :: BestOf(children, best) && best.path == selected.value)
            && (selected.None? ==> remaining == ms)
  {
    var children: seq<Match> := [];
    for i := 0 to |ms|
      invariant children == ChildrenOf(ms[..i], ms)
    {
      assert ms[..i + 1][..i] == ms[..i];
      var k := 0;
      while k < |ms| && !(ms[k].path < ms[i].path)
        invariant k <= |ms| && forall j :: 0 <= j < k ==> !(ms[j].path < ms[i].path)
      {
        k := k + 1;
      }
      if k < |ms| { children := children + [ms[i]]; }
    }
    assert ms[..|ms|] == ms;
    if children != [] {
      var sorted := ByScore(children);
      FirstIsBest(children);
      var best := sorted[0];
      forall other | BestOf(children, other) ensures other == best { OneBest(children, best, other); }
      if best.score >= autoThreshold { return Some(best.path), []; }
      if |children| == 1 && best.score >= childThreshold { return Some(best.path), []; }
    }
    return None, ms;
  }

  lemma OneBest(children: seq<Match>, a: Match, b: Match)
    requires BestOf(children, a) && BestOf(children, b)
    ensures a == b
  {
    var i :| 0 <= i < |children| && children[i] == a
             && (forall k :: 0 <= k < |children| ==> children[k].score <= a.score)
             && (forall k :: 0 <= k < i ==> children[k].score < a.score);
    var j :| 0 <= j < |children| && children[j] == b
             && (forall k :: 0 <= k < |children| ==> children[k].score <= b.score)
             && (forall k :: 0 <= k < j ==> children[k].score < b.score);
  }

  lemma {:induction false} FirstIsBest(children: seq<Match>)
    requires children != []
    ensures ByScore(children) != [] && BestOf(children, ByScore(children)[0])
  {
    var rest := children[..|children| - 1];
    var m := Last(children);
    ByScoreSorts(rest, 0);
    if rest == [] {
      assert ByScore(children) == [m];
      assert children[0] == m;
    } else {
      FirstIsBest(rest);
      var b := ByScore(rest)[0];
      InsertFirst(ByScore(rest), m);
      BestExtends(children, b);
    }
  }

  lemma {:induction false} InsertFirst(ms: seq<Match>, m: Match)
    requires ms != [] && Descending(ms)
    ensures InsertBy(Behind, ms, m) != []
    ensures InsertBy(Behind, ms, m)[0] == if ms[0].score >= m.score then ms[0] else m
  {
    if Last(ms).score < m.score && |ms| > 1 {
      InsertFirst(ms[..|ms| - 1], m);
    }
  }

  lemma BestExtends(children: seq<Match>, b: Match)
    requires children != [] && BestOf(children[..|children| - 1], b)
    ensures BestOf(children, if b.score >= Last(children).score then b else Last(children))
  {
    var rest := children[..|children| - 1];
    var i :| 0 <= i < |rest| && rest[i] == b
             && (forall k :: 0 <= k < |rest| ==> rest[k].score <= b.score)
             && (forall k :: 0 <= k < i ==> rest[k].score < b.score);
    assert forall k :: 0 <= k < |rest| ==> children[k] == rest[k];
    if b.score >= Last(children).score {
      assert children[i] == b;
    } else {
      assert children[|rest|] == Last(children);
    }
  }
}
