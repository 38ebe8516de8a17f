/**
  Keyword search: how often a keyword occurs in a document without overlaps, where, and which
  documents come first. Letter case is folded character by character.
 */
module KeywordRetrieval {
  import opened Common

  datatype Doc = Doc(path: string, content: string)

  datatype Source = Source(
    path: string, matched: string, start: nat, end: nat, startLine: nat, endLine: nat)

  datatype SearchResult = SearchResult(document: Doc, score: nat, sources: seq<Source>)

  /** A result with its document's place in the dataset. */
  datatype Ranked = Ranked(order: nat, result: SearchResult)

  datatype SearchError = BlankKeyword

  predicate IsSpace(c: char) { c in {' ', '\t', '\n', '\r'} }

  function Fold(fold: char -> char, s: string): (r: string)
    ensures |r| == |s| && forall i :: 0 <= i < |s| ==> r[i] == fold(s[i])
  {
    seq(|s|, i requires 0 <= i < |s| => fold(s[i]))
  }

  function Strip(s: string): string {
    if s == "" then s
    else if IsSpace(s[0]) then Strip(s[1..])
    else if IsSpace(Last(s)) then Strip(s[..|s| - 1])
    else s
  }

  /** Stripping takes the white space at both ends, and nothing else. */
  lemma {:induction false} StripIs(s: string) returns (before: string, behind: string)
    ensures s == before + Strip(s) + behind
    ensures forall i :: 0 <= i < |before| ==> IsSpace(before[i])
    ensures forall i :: 0 <= i < |behind| ==> IsSpace(behind[i])
    ensures Strip(s) != "" ==> !IsSpace(Strip(s)[0]) && !IsSpace(Last(Strip(s)))
    ensures Strip(s) == "" <==> forall i :: 0 <= i < |s| ==> IsSpace(s[i])
  {
    before, behind := "", "";
    if s != "" {
      if IsSpace(s[0]) {
        before, behind := StripIs(s[1..]);
        before := [s[0]] + before;
        assert s == [s[0]] + s[1..];
      } else if IsSpace(Last(s)) {
        before, behind := StripIs(s[..|s| - 1]);
        behind := behind + [Last(s)];
        assert s == s[..|s| - 1] + [Last(s)];
      }
    }
  }

  function NormalizeKeyword(fold: char -> char, keyword: string): Result<string, SearchError> {
    if Strip(keyword) == "" then Err(BlankKeyword) else Ok(Fold(fold, Strip(keyword)))
  }

  // ---- occurrences ----

  predicate OccursAt(text: string, key: string, i: int) {
    0 <= i && i + |key| <= |text| && text[i..i + |key|] == key
  }

  /** The first occurrence at or after `from`. */
  function FindFrom(text: string, key: string, from: nat): (r: Option<nat>)
    ensures r.Some? ==> from <= r.value && OccursAt(text, key, r.value)
    ensures forall i :: from <= i && OccursAt(text, key, i) ==> r.Some? && r.value <= i
    decreases |text| - from
  {
    if from + |key| > |text| then None
    else if text[from..from + |key|] == key then Some(from)
    else FindFrom(text, key, from + 1)
  }

  /** Occurrences in order, none overlapping the next. */
  predicate Separate(text: string, key: string, starts: seq<nat>) {
    && (forall i :: 0 <= i < |starts| ==> OccursAt(text, key, starts[i]))
    && (forall i :: 0 < i < |starts| ==> starts[i - 1] + |key| <= starts[i])
  }

  /** No occurrence fits in front of, between or behind the matches, up to `end`. */
  predicate Greedy(text: string, key: string, starts: seq<nat>, end: nat) {
    forall p :: 0 <= p < end && OccursAt(text, key, p) ==>
      exists i :: 0 <= i < |starts| && starts[i] <= p < starts[i] + |key|
  }

  /** Where the search goes on after the last match. */
  function SearchStart(key: string, starts: seq<nat>): nat {
    if starts == [] then 0 else Last(starts) + |key|
  }

  function RangesOf(key: string, starts: seq<nat>): seq<(nat, nat)> {
    seq(|starts|, i requires 0 <= i < |starts| => (starts[i], starts[i] + |key|))
  }

  function StartsOf(ranges: seq<(nat, nat)>): seq<nat> {
    seq(|ranges|, i requires 0 <= i < |ranges| => ranges[i].0)
  }

  lemma StartsOfRanges(key: string, starts: seq<nat>)
    ensures StartsOf(RangesOf(key, starts)) == starts
    ensures forall i :: 0 <= i < |RangesOf(key, starts)| ==>
              RangesOf(key, starts)[i].1 == RangesOf(key, starts)[i].0 + |key|
  {
  }

  method FindMatchRanges(content: string, key: string, fold: char -> char)
    returns (ranges: seq<(nat, nat)>)
    requires key != ""
    ensures forall i :: 0 <= i < |ranges| ==> ranges[i].1 == ranges[i].0 + |key|
    ensures Separate(Fold(fold, content), key, StartsOf(ranges))
    ensures Greedy(Fold(fold, content), key, StartsOf(ranges), |content|)
  {
    hide *;
    var text := Fold(fold, content);
    ranges := [];
    ghost var starts: seq<nat> := [];
    NothingYet(text, key);
    assert |text| == |content| by { FoldKeepsLength(fold, content); }
    var searchStart := 0;
    while true
      invariant ranges == RangesOf(key, starts)
      invariant searchStart == SearchStart(key, starts) <= |text|
      invariant Separate(text, key, starts)
      invariant Greedy(text, key, starts, searchStart)
      decreases |text| - searchStart
    {
      var match_ := FindFrom(text, key, searchStart);
      if match_.None? {
        NothingBehind(text, key, starts, searchStart);
        StartsOfRanges(key, starts);
        return;
      }
      MatchExtends(text, key, starts, match_.value);
      var matchEnd := match_.value + |key|;
      ranges := ranges + [(match_.value, matchEnd)];
      starts := starts + [match_.value];
      searchStart := matchEnd;
    }
  }

  lemma NothingYet(text: string, key: string)
    ensures Separate(text, key, []) && Greedy(text, key, [], 0) && SearchStart(key, []) == 0
    ensures RangesOf(key, []) == []
  {
  }

  lemma FoldKeepsLength(fold: char -> char, s: string)
    ensures |Fold(fold, s)| == |s|
  {
  }

  lemma NothingBehind(text: string, key: string, starts: seq<nat>, from: nat)
    requires Greedy(text, key, starts, from) && FindFrom(text, key, from).None?
    ensures Greedy(text, key, starts, |text|)
  {
  }

  lemma MatchExtends(text: string, key: string, starts: seq<nat>, p: nat)
    requires key != "" && Separate(text, key, starts) && Greedy(text, key, starts, SearchStart(key, starts))
    requires FindFrom(text, key, SearchStart(key, starts)) == Some(p)
    ensures Separate(text, key, starts + [p])
    ensures Greedy(text, key, starts + [p], p + |key|)
    ensures SearchStart(key, starts) <= p < p + |key| == SearchStart(key, starts + [p]) <= |text|
    ensures RangesOf(key, starts + [p]) == RangesOf(key, starts) + [(p, p + |key|)]
  {
    hide *;
    OccurrenceFits(text, key, p);
    MatchCovers(text, key, starts, p);
    MatchFollows(text, key, starts, p);
    RangesExtend(key, starts, p);
  }

  lemma MatchFollows(text: string, key: string, starts: seq<nat>, p: nat)
    requires Separate(text, key, starts) && OccursAt(text, key, p) && SearchStart(key, starts) <= p
    ensures Separate(text, key, starts + [p])
    ensures SearchStart(key, starts + [p]) == p + |key|
  {
    hide OccursAt;
  }

  lemma RangesExtend(key: string, starts: seq<nat>, p: nat)
    ensures RangesOf(key, starts + [p]) == RangesOf(key, starts) + [(p, p + |key|)]
  {
  }

  lemma OccurrenceFits(text: string, key: string, p: nat)
    requires OccursAt(text, key, p)
    ensures p + |key| <= |text|
  {
  }

  lemma MatchCovers(text: string, key: string, starts: seq<nat>, p: nat)
    requires Greedy(text, key, starts, SearchStart(key, starts))
    requires FindFrom(text, key, SearchStart(key, starts)) == Some(p)
    ensures Greedy(text, key, starts + [p], p + |key|)
  {
    hide FindFrom, OccursAt;
    var longer := starts + [p];
    forall q | 0 <= q < p + |key| && OccursAt(text, key, q)
      ensures exists i :: 0 <= i < |longer| && longer[i] <= q < longer[i] + |key|
    {
      if q < SearchStart(key, starts) {
        var i :| 0 <= i < |starts| && starts[i] <= q < starts[i] + |key|;
        assert longer[i] == starts[i];
      } else {
        assert longer[|starts|] == p;
      }
    }
  }

  /** Any two of the places are at least a keyword apart. */
  predicate PairwiseDisjoint(key: string, places: set<nat>) {
    forall a, b :: a in places && b in places && a < b ==> a + |key| <= b
  }

  /** Two places a keyword apart do not fit in one match's range. */
  lemma OneInRange(key: string, start: nat, here: set<nat>)
    requires PairwiseDisjoint(key, here)
    requires forall p :: p in here ==> start <= p < start + |key|
    ensures |here| <= 1
  {
    if here != {} {
      var p :| p in here;
      assert forall q :: q in here ==> q == p;
      assert here == {p};
    }
  }

  predicate InRange(key: string, starts: seq<nat>, n: nat, p: nat)
    requires n <= |starts|
  {
    exists i :: 0 <= i < n && starts[i] <= p < starts[i] + |key|
  }

  /** Places that all lie in the first `n` matches' ranges, pairwise apart, are at most `n`. */
  lemma {:induction false} AtMostOneEach(key: string, starts: seq<nat>, n: nat, places: set<nat>)
    requires n <= |starts| && PairwiseDisjoint(key, places)
    requires forall p :: p in places ==> InRange(key, starts, n, p)
    ensures |places| <= n
    decreases n
  {
    if n == 0 {
      assert places == {};
    } else {
      var here := set p | p in places && starts[n - 1] <= p < starts[n - 1] + |key|;
      var rest := places - here;
      forall p | p in rest ensures InRange(key, starts, n - 1, p) {
        assert InRange(key, starts, n, p);
      }
      SubsetIsDisjoint(key, places, here);
      SubsetIsDisjoint(key, places, rest);
      hide PairwiseDisjoint, InRange;
      AtMostOneEach(key, starts, n - 1, rest);
      OneInRange(key, starts[n - 1], here);
      assert places == rest + here;
    }
  }

  lemma SubsetIsDisjoint(key: string, places: set<nat>, some: set<nat>)
    requires PairwiseDisjoint(key, places) && some <= places
    ensures PairwiseDisjoint(key, some)
  {
  }

  /**
    The greedy matches are as many as can be had: no set of occurrences in which no two overlap is
    larger, and the matches are themselves such a set.
   */
  lemma MostMatches(text: string, key: string, starts: seq<nat>, places: set<nat>)
    requires key != "" && Separate(text, key, starts) && Greedy(text, key, starts, |text|)
    requires PairwiseDisjoint(key, places) && forall p :: p in places ==> OccursAt(text, key, p)
    ensures |places| <= |starts|
    ensures PairwiseDisjoint(key, PlaceSet(starts)) && |PlaceSet(starts)| == |starts|
  {
    assert forall p :: p in places ==> InRange(key, starts, |starts|, p);
    AtMostOneEach(key, starts, |starts|, places);
    SeparateIsDisjoint(text, key, starts);
  }

  function PlaceSet(starts: seq<nat>): set<nat> { set i | 0 <= i < |starts| :: starts[i] }

  lemma PlaceSetGrows(starts: seq<nat>)
    requires starts != []
    ensures PlaceSet(starts) == PlaceSet(starts[..|starts| - 1]) + {Last(starts)}
  {
    var rest := starts[..|starts| - 1];
    forall p | p in PlaceSet(starts) ensures p in PlaceSet(rest) + {Last(starts)} {
      var i :| 0 <= i < |starts| && starts[i] == p;
      if i < |rest| { assert rest[i] == p; }
    }
    forall p | p in PlaceSet(rest) ensures p in PlaceSet(starts) {
      var i :| 0 <= i < |rest| && rest[i] == p;
      assert starts[i] == p;
    }
    assert starts[|starts| - 1] in PlaceSet(starts);
  }

  lemma {:induction false} SeparateIsDisjoint(text: string, key: string, starts: seq<nat>)
    requires key != "" && Separate(text, key, starts)
    ensures PairwiseDisjoint(key, PlaceSet(starts)) && |PlaceSet(starts)| == |starts|
    ensures forall p :: p in PlaceSet(starts) ==> p + |key| <= SearchStart(key, starts)
  {
    hide OccursAt;
    if starts != [] {
      var rest := starts[..|starts| - 1];
      SeparateIsDisjoint(text, key, rest);
      PlaceSetGrows(starts);
      hide PlaceSet;
    }
  }

  // ---- sources ----

  function Newlines(s: string): nat {
    if s == "" then 0 else Newlines(s[..|s| - 1]) + (if Last(s) == '\n' then 1 else 0)
  }

  /** The line, from 1, that the character at `p` is on. */
  function LineOf(content: string, p: nat): nat
    requires p <= |content|
  {
    Newlines(content[..p]) + 1
  }

  function BuildSource(d: Doc, start: nat, end: nat): (s: Source)
    requires start < end <= |d.content|
  {
    Source(d.path, d.content[start..end], start, end, LineOf(d.content, start), LineOf(d.content, end - 1))
  }

  /** The characters in front of `p` that end a line. */
  function LineEnds(content: string, p: nat): set<nat>
    requires p <= |content|
  {
    set i: nat | i < p && content[i] == '\n'
  }

  /** A line's number is one more than the line ends in front of it. */
  lemma {:induction false} LineIs(content: string, p: nat)
    requires p <= |content|
    ensures LineOf(content, p) == 1 + |LineEnds(content, p)|
    decreases p
  {
    if p == 0 {
      assert LineEnds(content, 0) == {};
    } else {
      LineIs(content, p - 1);
      assert content[..p][..p - 1] == content[..p - 1];
      assert LineEnds(content, p)
          == LineEnds(content, p - 1) + if content[p - 1] == '\n' then {p - 1} else {};
    }
  }

  lemma {:induction false} LinesRise(content: string, p: nat, q: nat)
    requires p <= q <= |content|
    ensures LineOf(content, p) <= LineOf(content, q)
    decreases q
  {
    if p < q {
      LinesRise(content, p, q - 1);
      assert content[..q][..q - 1] == content[..q - 1];
    }
  }

  /** What a source promises: the matched text, and the lines of its first and last character. */
  predicate ValidSource(s: Source) {
    s.matched != "" && s.start < s.end && 1 <= s.startLine <= s.endLine
  }

  /** A result shows its document with the greedy matches of the keyword. */
  ghost predicate ResultOf(fold: char -> char, key: string, d: Doc, r: SearchResult) {
    && key != "" && r.document == d
    && r.score == |r.sources| >= 1
    && exists starts :: MatchesOf(fold, key, d, r.sources, starts)
  }

  ghost predicate MatchesOf(fold: char -> char, key: string, d: Doc, sources: seq<Source>, starts: seq<nat>)
    requires key != ""
  {
    && Separate(Fold(fold, d.content), key, starts)
    && Greedy(Fold(fold, d.content), key, starts, |d.content|)
    && |sources| == |starts|
    && forall i :: 0 <= i < |starts| ==>
         starts[i] + |key| <= |d.content| && sources[i] == BuildSource(d, starts[i], starts[i] + |key|)
  }

  predicate Contains(fold: char -> char, key: string, d: Doc) {
    exists i | 0 <= i < |d.content| + 1 :: OccursAt(Fold(fold, d.content), key, i)
  }

  /** Higher score first; the same score in dataset order. */
  predicate Before(a: Ranked, b: Ranked) {
    a.result.score > b.result.score || (a.result.score == b.result.score && a.order < b.order)
  }

  predicate SortedByRank(rs: seq<Ranked>) {
    forall i, k :: 0 <= i < k < |rs| ==> Before(rs[i], rs[k])
  }

  /** One ranked result for each matching document among the first `n`. */
  ghost predicate RanksExactly(fold: char -> char, key: string, docs: seq<Doc>, n: nat, rs: seq<Ranked>) {
    && n <= |docs|
    && (forall i :: 0 <= i < |rs| ==>
          rs[i].order < n && ResultOf(fold, key, docs[rs[i].order], rs[i].result))
    && (forall i, k :: 0 <= i < k < |rs| ==> rs[i].order != rs[k].order)
    && (forall o :: 0 <= o < n && Contains(fold, key, docs[o]) ==> exists i :: 0 <= i < |rs| && rs[i].order == o)
  }

  function MatchingDocuments(fold: char -> char, key: string, docs: seq<Doc>): seq<Doc> {
    if docs == [] then []
    else
      MatchingDocuments(fold, key, docs[..|docs| - 1])
      + (if Contains(fold, key, Last(docs)) then [Last(docs)] else [])
  }

  method SearchKeywordDocuments(fold: char -> char, docs: seq<Doc>, keyword: string)
    returns (r: Result<seq<Doc>, SearchError>)
    ensures r.Err? <==> Strip(keyword) == ""
    ensures r.Err? <==> forall i :: 0 <= i < |keyword| ==> keyword[i] in {' ', '\t', '\n', '\r'}
    ensures r.Ok? ==> r.value == MatchingDocuments(fold, Fold(fold, Strip(keyword)), docs)
    ensures r.Ok? ==> exists kept :: Finds(fold, Fold(fold, Strip(keyword)), docs, kept, r.value)
  {
    ghost var before, behind := StripIs(keyword);
    var key := NormalizeKeyword(fold, keyword);
    if key.Err? { return Err(key.error); }
    var found: seq<Doc> := [];
    for i := 0 to |docs|
      invariant found == MatchingDocuments(fold, key.value, docs[..i])
    {
      assert docs[..i + 1][..i] == docs[..i];
      ContainsFound(fold, key.value, docs[i]);
      if FindFrom(Fold(fold, docs[i].content), key.value, 0).Some? { found := found + [docs[i]]; }
    }
    assert docs[..|docs|] == docs;
    r := Ok(found);
    ghost var kept := FoundExactly(fold, key.value, docs);
  }

  /** The keyword stands at `p`, character by character. */
  predicate MatchesAt(fold: char -> char, key: string, content: string, p: int) {
    0 <= p && p + |key| <= |content| && forall j :: 0 <= j < |key| ==> fold(content[p + j]) == key[j]
  }

  lemma OccursIs(fold: char -> char, key: string, content: string, p: int)
    ensures OccursAt(Fold(fold, content), key, p) <==> MatchesAt(fold, key, content, p)
  {
    var text := Fold(fold, content);
    if MatchesAt(fold, key, content, p) {
      assert text[p..p + |key|] == key;
    } else if OccursAt(text, key, p) {
      forall j | 0 <= j < |key| ensures fold(content[p + j]) == key[j] {
        assert text[p..p + |key|][j] == text[p + j];
      }
    }
  }

  /** The documents at the positions `kept`, in order: exactly those in which the keyword stands. */
  ghost predicate Finds(fold: char -> char, key: string, docs: seq<Doc>, kept: seq<nat>, found: seq<Doc>) {
    && |found| == |kept|
    && (forall i :: 0 <= i < |kept| ==> kept[i] < |docs| && found[i] == docs[kept[i]])
    && (forall i, k :: 0 <= i < k < |kept| ==> kept[i] < kept[k])
    && (forall n :: 0 <= n < |docs| ==>
          (n in kept <==> exists p :: MatchesAt(fold, key, docs[n].content, p)))
  }

  lemma ContainsIs(fold: char -> char, key: string, d: Doc)
    ensures Contains(fold, key, d) <==> exists p :: MatchesAt(fold, key, d.content, p)
  {
    if Contains(fold, key, d) {
      var p :| 0 <= p < |d.content| + 1 && OccursAt(Fold(fold, d.content), key, p);
      OccursIs(fold, key, d.content, p);
    }
    if p :| MatchesAt(fold, key, d.content, p) {
      OccursIs(fold, key, d.content, p);
      assert 0 <= p < |d.content| + 1;
    }
  }

  lemma {:induction false} FoundExactly(fold: char -> char, key: string, docs: seq<Doc>)
    returns (kept: seq<nat>)
    ensures Finds(fold, key, docs, kept, MatchingDocuments(fold, key, docs))
  {
    hide Contains, MatchesAt;
    kept := [];
    if docs != [] {
      var n := |docs| - 1;
      kept := FoundExactly(fold, key, docs[..n]);
      ContainsIs(fold, key, docs[n]);
      FindsNext(fold, key, docs, kept, MatchingDocuments(fold, key, docs[..n]));
      if Contains(fold, key, docs[n]) { kept := kept + [n]; }
    }
  }

  lemma FindsNext(fold: char -> char, key: string, docs: seq<Doc>, kept: seq<nat>, found: seq<Doc>)
    requires docs != [] && Finds(fold, key, docs[..|docs| - 1], kept, found)
    ensures var n := |docs| - 1;
            if exists p :: MatchesAt(fold, key, docs[n].content, p)
            then Finds(fold, key, docs, kept + [n], found + [docs[n]])
            else Finds(fold, key, docs, kept, found)
  {
    hide MatchesAt;
    var n, rest := |docs| - 1, docs[..|docs| - 1];
    forall k | 0 <= k < n
      ensures k in kept <==> exists p :: MatchesAt(fold, key, docs[k].content, p)
    {
      assert rest[k] == docs[k];
    }
  }

  lemma ContainsFound(fold: char -> char, key: string, d: Doc)
    ensures Contains(fold, key, d) <==> FindFrom(Fold(fold, d.content), key, 0).Some?
  {
    var r := FindFrom(Fold(fold, d.content), key, 0);
    if r.Some? { assert OccursAt(Fold(fold, d.content), key, r.value) && r.value < |d.content| + 1; }
  }

  /** Puts a result where it belongs among ranked ones. */
  method InsertRanked(rs: seq<Ranked>, r: Ranked) returns (rs': seq<Ranked>, ghost at: nat)
    requires SortedByRank(rs)
    requires forall i :: 0 <= i < |rs| ==> rs[i].order != r.order
    ensures at <= |rs| && rs' == rs[..at] + [r] + rs[at..]
    ensures SortedByRank(rs')
  {
    var i := 0;
    while i < |rs| && Before(rs[i], r)
      invariant i <= |rs|
      invariant forall k :: 0 <= k < i ==> Before(rs[k], r)
    {
      i := i + 1;
    }
    at := i;
    rs' := rs[..i] + [r] + rs[i..];
    forall a, b | 0 <= a < b < |rs'| ensures Before(rs'[a], rs'[b]) {
      if a == i && b > i { assert rs'[b] == rs[b - 1]; }
    }
  }

  /**
    Ranked by how many matches fit, best first, dataset order within a rank; exactly the documents
    that contain the keyword.
   */
  method SearchKeywordResults(fold: char -> char, docs: seq<Doc>, keyword: string)
    returns (r: Result<seq<SearchResult>, SearchError>, ghost ranked: seq<Ranked>)
    ensures r.Err? <==> Strip(keyword) == ""
    ensures r.Err? <==> forall i :: 0 <= i < |keyword| ==> keyword[i] in {' ', '\t', '\n', '\r'}
    ensures r.Ok? ==>
              && |ranked| == |r.value|
              && (forall i :: 0 <= i < |ranked| ==> r.value[i] == ranked[i].result)
              && SortedByRank(ranked)
              && (forall i, k :: 0 <= i < k < |r.value| ==>
                    || r.value[i].score > r.value[k].score
                    || (r.value[i].score == r.value[k].score && ranked[i].order < ranked[k].order))
              && RanksExactly(fold, Fold(fold, Strip(keyword)), docs, |docs|, ranked)
  {
    ghost var before, behind := StripIs(keyword);
    ranked := [];
    var key := NormalizeKeyword(fold, keyword);
    if key.Err? { return Err(key.error), ranked; }
    var rs: seq<Ranked> := [];
    for order := 0 to |docs|
      invariant SortedByRank(rs)
      invariant RanksExactly(fold, key.value, docs, order, rs)
    {
      hide MatchesOf, SortedByRank, RanksExactly, ResultOf, Contains;
      var d := docs[order];
      var result := ResultFor(fold, key.value, d);
      if result.Some? {
        var one := Ranked(order, result.value);
        OrdersBelow(fold, key.value, docs, order, rs);
        var longer, at := InsertRanked(rs, one);
        RankInserted(fold, key.value, docs, order, rs, one, at);
        rs := longer;
      } else {
        RankSkipped(fold, key.value, docs, order, rs);
      }
    }
    ranked := rs;
    r := Ok(seq(|rs|, i requires 0 <= i < |rs| => rs[i].result));
  }

  lemma OrdersBelow(fold: char -> char, key: string, docs: seq<Doc>, n: nat, rs: seq<Ranked>)
    requires RanksExactly(fold, key, docs, n, rs)
    ensures forall i :: 0 <= i < |rs| ==> rs[i].order != n
  {
  }

  lemma RankInserted(fold: char -> char, key: string, docs: seq<Doc>, n: nat, rs: seq<Ranked>, one: Ranked,
                     at: nat)
    requires RanksExactly(fold, key, docs, n, rs) && n < |docs| && at <= |rs|
    requires one.order == n && ResultOf(fold, key, docs[n], one.result)
    ensures RanksExactly(fold, key, docs, n + 1, rs[..at] + [one] + rs[at..])
  {
    hide ResultOf, Contains;
    var longer := rs[..at] + [one] + rs[at..];
    forall o | 0 <= o < n + 1 && Contains(fold, key, docs[o])
      ensures exists i :: 0 <= i < |longer| && longer[i].order == o
    {
      if o == n {
        assert longer[at].order == o;
      } else {
        var i :| 0 <= i < |rs| && rs[i].order == o;
        assert longer[if i < at then i else i + 1] == rs[i];
      }
    }
  }

  lemma RankSkipped(fold: char -> char, key: string, docs: seq<Doc>, n: nat, rs: seq<Ranked>)
    requires RanksExactly(fold, key, docs, n, rs) && n < |docs| && !Contains(fold, key, docs[n])
    ensures RanksExactly(fold, key, docs, n + 1, rs)
  {
    hide ResultOf, Contains;
  }

  /** The result of one document, none when the keyword does not occur in it. */
  method ResultFor(fold: char -> char, key: string, d: Doc) returns (r: Option<SearchResult>)
    requires key != ""
    ensures r.Some? <==> Contains(fold, key, d)
    ensures r.Some? ==> ResultOf(fold, key, d, r.value)
  {
    hide Fold, Separate, Greedy, Contains, BuildSource;
    var ranges := FindMatchRanges(d.content, key, fold);
    ghost var starts := StartsOf(ranges);
    ContainedIffMatched(fold, key, d, starts);
    if ranges == [] { return None; }
    MatchesFit(fold, key, d, starts);
    var sources: seq<Source> := [];
    for i := 0 to |ranges|
      invariant |sources| == i
      invariant forall k :: 0 <= k < i ==>
                  starts[k] + |key| <= |d.content| && sources[k] == BuildSource(d, starts[k], starts[k] + |key|)
    {
      assert starts[i] == ranges[i].0;
      sources := sources + [BuildSource(d, ranges[i].0, ranges[i].1)];
    }
    assert MatchesOf(fold, key, d, sources, starts);
    r := Some(SearchResult(d, |sources|, sources));
  }

  lemma MatchesFit(fold: char -> char, key: string, d: Doc, starts: seq<nat>)
    requires Separate(Fold(fold, d.content), key, starts)
    ensures forall i :: 0 <= i < |starts| ==> starts[i] + |key| <= |d.content|
  {
    forall i | 0 <= i < |starts| ensures starts[i] + |key| <= |d.content| {
      assert OccursAt(Fold(fold, d.content), key, starts[i]);
    }
  }

  lemma ContainedIffMatched(fold: char -> char, key: string, d: Doc, starts: seq<nat>)
    requires key != ""
    requires Separate(Fold(fold, d.content), key, starts)
    requires Greedy(Fold(fold, d.content), key, starts, |d.content|)
    ensures Contains(fold, key, d) <==> starts != []
  {
    var text := Fold(fold, d.content);
    if starts != [] { assert OccursAt(text, key, starts[0]); }
  }

  /** The results' documents are those the plain search finds: both orders apart, the same ones. */
  lemma {:induction false} SameDocuments(fold: char -> char, key: string, docs: seq<Doc>, d: Doc)
    ensures d in MatchingDocuments(fold, key, docs) <==> d in docs && Contains(fold, key, d)
  {
    hide Contains;
    if docs != [] {
      var rest := docs[..|docs| - 1];
      SameDocuments(fold, key, rest, d);
      assert docs == rest + [Last(docs)];
    }
  }

  lemma ResultsAreTheDocuments(fold: char -> char, key: string, docs: seq<Doc>, ranked: seq<Ranked>, d: Doc)
    requires key != "" && RanksExactly(fold, key, docs, |docs|, ranked)
    ensures d in MatchingDocuments(fold, key, docs)
            <==> exists i :: 0 <= i < |ranked| && ranked[i].result.document == d
  {
    hide Contains, MatchesOf;
    SameDocuments(fold, key, docs, d);
    forall i | 0 <= i < |ranked| ensures Contains(fold, key, docs[ranked[i].order]) {
      ResultContains(fold, key, docs[ranked[i].order], ranked[i].result);
    }
    if d in docs && Contains(fold, key, d) {
      var o :| 0 <= o < |docs| && docs[o] == d;
      var i :| 0 <= i < |ranked| && ranked[i].order == o;
      assert ranked[i].result.document == d;
    }
  }

  lemma ResultContains(fold: char -> char, key: string, d: Doc, r: SearchResult)
    requires ResultOf(fold, key, d, r)
    ensures Contains(fold, key, d)
  {
    hide Contains, Separate, Greedy, BuildSource;
    var starts :| MatchesOf(fold, key, d, r.sources, starts);
    ContainedIffMatched(fold, key, d, starts);
  }

  /** Occurrences of which no two overlap. */
  ghost predicate DisjointOccurrences(text: string, key: string, places: set<nat>) {
    PairwiseDisjoint(key, places) && forall p :: p in places ==> OccursAt(text, key, p)
  }

  /** A result's score is the most non-overlapping occurrences its document has: no more, and that many. */
  lemma ScoreIsMost(fold: char -> char, key: string, d: Doc, r: SearchResult) returns (best: set<nat>)
    requires ResultOf(fold, key, d, r)
    ensures DisjointOccurrences(Fold(fold, d.content), key, best) && |best| == r.score
    ensures forall places :: DisjointOccurrences(Fold(fold, d.content), key, places) ==> |places| <= r.score
  {
    hide Separate, Greedy, PairwiseDisjoint, Fold, OccursAt, BuildSource, PlaceSet;
    var text := Fold(fold, d.content);
    var starts :| MatchesOf(fold, key, d, r.sources, starts);
    FoldKeepsLength(fold, d.content);
    forall places | DisjointOccurrences(text, key, places) ensures |places| <= r.score {
      MostMatches(text, key, starts, places);
    }
    best := PlaceSet(starts);
    SeparateIsDisjoint(text, key, starts);
    MatchesOccur(text, key, starts);
  }

  lemma MatchesOccur(text: string, key: string, starts: seq<nat>)
    requires Separate(text, key, starts)
    ensures forall p :: p in PlaceSet(starts) ==> OccursAt(text, key, p)
  {
    hide OccursAt;
  }

  lemma SourceIsReal(fold: char -> char, key: string, d: Doc, start: nat)
    requires key != "" && start + |key| <= |d.content| && OccursAt(Fold(fold, d.content), key, start)
    ensures var s := BuildSource(d, start, start + |key|);
            && ValidSource(s) && Fold(fold, s.matched) == key
            && s.matched == d.content[s.start..s.end] && s.end <= |d.content| && s.path == d.path
            && s.start == start && s.end == start + |key| && MatchesAt(fold, key, d.content, s.start)
            && s.startLine == 1 + |LineEnds(d.content, s.start)|
            && s.endLine == 1 + |LineEnds(d.content, s.end - 1)|
  {
    hide Newlines, LineEnds, MatchesAt;
    LinesRise(d.content, start, start + |key| - 1);
    LineIs(d.content, start);
    LineIs(d.content, start + |key| - 1);
    OccursIs(fold, key, d.content, start);
    var s := BuildSource(d, start, start + |key|);
    assert Fold(fold, s.matched) == Fold(fold, d.content)[s.start..s.end];
  }

  /** Every source shows a real match, on the lines it names. */
  lemma SourcesAreReal(fold: char -> char, key: string, d: Doc, r: SearchResult, i: nat)
    requires ResultOf(fold, key, d, r) && i < |r.sources|
    ensures var s := r.sources[i];
            && ValidSource(s) && Fold(fold, s.matched) == key
            && s.end <= |d.content| && s.matched == d.content[s.start..s.end] && s.path == d.path
            && s.end == s.start + |key| && MatchesAt(fold, key, d.content, s.start)
            && s.startLine == 1 + |LineEnds(d.content, s.start)|
            && s.endLine == 1 + |LineEnds(d.content, s.end - 1)|
  {
    hide Greedy, Fold, LineOf, BuildSource, ValidSource, LineEnds, MatchesAt;
    var starts :| MatchesOf(fold, key, d, r.sources, starts);
    SourceIsReal(fold, key, d, starts[i]);
  }
}
