/** Engine selection (src/engine_router.py): topic tags are checked against a
    fixed vocabulary, then every engine of the weight table is scored by the
    mean of its weights for the matched tags, and the best ones are kept. */
module EngineRouter {
  import opened Prelude
  import opened Sorting

  /** The closed tag vocabulary shared by the router and the prompt analyser. */
  const Tags: seq<string> := [
    "encyclopedia", "maps", "location", "papers", "research", "books",
    "movies", "music", "games", "art", "code", "ai", "aimodels",
    "datasets", "opinion", "community", "pets", "politics", "news",
    "finance", "health", "education", "career", "shopping", "food", "travel",
    "celebrity", "sports", "technology", "science", "history", "economics",
    "climate", "mental health", "relationships",
    "productivity", "fitness", "fashion", "psychology", "medicine"
  ]

  /** Default arguments of `rank_engines`, the ones `_find_engines` relies on. */
  const DefaultTopN: int := 2
  const DefaultMinScore: real := 0.6

  type Weights = map<string, real>

  /** The engine weight table in the order the configuration file lists the
      engines (the insertion order of the loaded mapping). */
  type WeightTable = seq<(string, Weights)>

  predicate DistinctNames(table: WeightTable)
  {
    forall i, j :: 0 <= i < j < |table| ==> table[i].0 != table[j].0
  }

  // ---------------------------------------------------------------------
  // validate_tags

  /** Keeps the tags that occur in `allowed`, in input order, duplicates kept. */
  function ValidateTags(tags: seq<string>, allowed: seq<string>): (r: seq<string>)
    ensures |r| <= |tags|
    ensures forall t :: multiset(r)[t] == if t in allowed then multiset(tags)[t] else 0
  {
    if tags == [] then []
    else
      assert tags == [tags[0]] + tags[1..];
      (if tags[0] in allowed then [tags[0]] else []) + ValidateTags(tags[1..], allowed)
  }

  lemma {:induction false} ValidateTagsKeepsOrder(tags: seq<string>, allowed: seq<string>)
    ensures IsSubsequence(ValidateTags(tags, allowed), tags)
  {
    if tags != [] {
      ValidateTagsKeepsOrder(tags[1..], allowed);
      var rest := ValidateTags(tags[1..], allowed);
      if tags[0] !in allowed && rest != [] {
        assert rest[0] in multiset(rest);
        assert rest[0] != tags[0];
        assert ValidateTags(tags, allowed) == rest;
      }
    }
  }

  lemma {:induction false} ValidateTagsIdempotent(tags: seq<string>, allowed: seq<string>)
    ensures ValidateTags(ValidateTags(tags, allowed), allowed) == ValidateTags(tags, allowed)
  {
    if tags != [] {
      var rest := ValidateTags(tags[1..], allowed);
      ValidateTagsIdempotent(tags[1..], allowed);
      if tags[0] in allowed {
        var once := [tags[0]] + rest;
        assert once[0] == tags[0] && once[1..] == rest;
        assert ValidateTags(tags, allowed) == once;
      } else {
        assert ValidateTags(tags, allowed) == rest;
      }
    }
  }

  // ---------------------------------------------------------------------
  // Scoring

  /** The weights `w` holds for the tags, one per matched tag, in tag order. */
  function Matched(w: Weights, tags: seq<string>): seq<real>
  {
    if tags == [] then []
    else Matched(w, tags[..|tags| - 1])
         + (if tags[|tags| - 1] in w then [w[tags[|tags| - 1]]] else [])
  }

  function Sum(xs: seq<real>): real
  {
    if xs == [] then 0.0 else Sum(xs[..|xs| - 1]) + xs[|xs| - 1]
  }

  /** The mean of the matched weights; `None` when no tag matches. */
  function Score(w: Weights, tags: seq<string>): Option<real>
  {
    var m := Matched(w, tags);
    if |m| == 0 then None else Some(Sum(m) / |m| as real)
  }

  lemma {:induction false} ScoreDefinedIffSomeTagMatches(w: Weights, tags: seq<string>)
    ensures Score(w, tags).Some? <==> exists k :: 0 <= k < |tags| && tags[k] in w
  {
    if tags != [] {
      var init := tags[..|tags| - 1];
      ScoreDefinedIffSomeTagMatches(w, init);
      if exists k :: 0 <= k < |init| && init[k] in w {
        var k :| 0 <= k < |init| && init[k] in w;
        assert tags[k] in w;
      }
      if exists k :: 0 <= k < |tags| && tags[k] in w {
        var k :| 0 <= k < |tags| && tags[k] in w;
        if k < |init| {
          assert init[k] in w;
        }
      }
    }
  }

  /** The engines that pass: a matched tag and a mean score of at least
      `threshold`, with their score, in weight-table order. */
  function Candidates(table: WeightTable, tags: seq<string>, threshold: real): seq<(string, real)>
  {
    if table == [] then []
    else Candidates(table[..|table| - 1], tags, threshold) + Contribution(table[|table| - 1], tags, threshold)
  }

  /** The engine with its mean score when that score exists and reaches
      `threshold`; nothing otherwise. */
  function Contribution(e: (string, Weights), tags: seq<string>, threshold: real): seq<(string, real)>
  {
    var s := Score(e.1, tags);
    if s.Some? && s.value >= threshold then [(e.0, s.value)] else []
  }

  function EngineScore(p: (string, real)): real { p.1 }

  /** Engines with their scores, best first, cut to `topN`. */
  function RankedScored(table: WeightTable, tags: seq<string>, topN: int, threshold: real): seq<(string, real)>
  {
    Take(SortDesc(Candidates(table, tags, threshold), EngineScore), topN)
  }

  function Ranked(table: WeightTable, tags: seq<string>, topN: int, threshold: real): seq<string>
  {
    Firsts(RankedScored(table, tags, topN, threshold))
  }

  // ---------------------------------------------------------------------
  // rank_engines

  /** One more tag adds its weight, if the engine has one, to the matches. */
  lemma MatchStep(w: Weights, tags: seq<string>, j: nat)
    requires j < |tags|
    ensures Sum(Matched(w, tags[..j + 1])) == Sum(Matched(w, tags[..j])) + (if tags[j] in w then w[tags[j]] else 0.0)
    ensures |Matched(w, tags[..j + 1])| == |Matched(w, tags[..j])| + (if tags[j] in w then 1 else 0)
  {
    var before := Matched(w, tags[..j]);
    assert tags[..j + 1][..j] == tags[..j];
    if tags[j] in w {
      var after := before + [w[tags[j]]];
      assert Matched(w, tags[..j + 1]) == after;
      assert after[..|before|] == before;
    } else {
      assert Matched(w, tags[..j + 1]) == before;
    }
  }

  /** The inner loop of `rank_engines`: the sum and the number of the
      weights the engine has for the given tags. */
  method MatchTags(weights: Weights, tags: seq<string>) returns (totalScore: real, relevantTags: nat)
    ensures totalScore == Sum(Matched(weights, tags))
    ensures relevantTags == |Matched(weights, tags)|
  {
    totalScore, relevantTags := 0.0, 0;
    var j := 0;
    while j < |tags|
      invariant 0 <= j <= |tags|
      invariant totalScore == Sum(Matched(weights, tags[..j]))
      invariant relevantTags == |Matched(weights, tags[..j])|
    {
      MatchStep(weights, tags, j);
      if tags[j] in weights {
        totalScore := totalScore + weights[tags[j]];
        relevantTags := relevantTags + 1;
      }
      j := j + 1;
    }
    assert tags[..j] == tags;
  }

  method RankEngines(table: WeightTable, tags: seq<string>, topN: int, threshold: real)
    returns (engines: seq<string>)
    ensures engines == Ranked(table, tags, topN, threshold)
  {
    var engineScores: seq<(string, real)> := [];
    var i := 0;
    while i < |table|
      invariant 0 <= i <= |table|
      invariant engineScores == Candidates(table[..i], tags, threshold)
    {
      var engine := table[i].0;
      var weights := table[i].1;
      var totalScore, relevantTags := MatchTags(weights, tags);
      if relevantTags > 0 {
        var averageScore := totalScore / relevantTags as real;
        if averageScore >= threshold {
          engineScores := engineScores + [(engine, averageScore)];
        }
      }
      assert table[..i + 1][..i] == table[..i];
      i := i + 1;
    }
    assert table[..i] == table;
    var rankedEngines := SortDesc(engineScores, EngineScore);
    engines := Firsts(Take(rankedEngines, topN));
  }

  // ---------------------------------------------------------------------
  // Properties of the ranking

  /** `p` is what the table entry `e` contributes to the candidates. */
  predicate Passes(e: (string, Weights), tags: seq<string>, threshold: real, p: (string, real))
  {
    e.0 == p.0 && Score(e.1, tags) == Some(p.1) && p.1 >= threshold
  }

  lemma ContributionPasses(e: (string, Weights), tags: seq<string>, threshold: real, p: (string, real))
    ensures p in Contribution(e, tags, threshold) <==> Passes(e, tags, threshold, p)
  {
  }

  lemma {:induction false} CandidateMember(table: WeightTable, tags: seq<string>, threshold: real, p: (string, real))
    ensures p in Candidates(table, tags, threshold) <==>
      exists k :: 0 <= k < |table| && Passes(table[k], tags, threshold, p)
  {
    if table != [] {
      var init, last := table[..|table| - 1], table[|table| - 1];
      assert Candidates(table, tags, threshold) == Candidates(init, tags, threshold) + Contribution(last, tags, threshold);
      ContributionPasses(last, tags, threshold, p);
      CandidateMember(init, tags, threshold, p);
      if p in Candidates(table, tags, threshold) {
        if p in Candidates(init, tags, threshold) {
          var k :| 0 <= k < |init| && Passes(init[k], tags, threshold, p);
          assert table[k] == init[k];
        } else {
          assert Passes(table[|table| - 1], tags, threshold, p);
        }
      }
      if exists k :: 0 <= k < |table| && Passes(table[k], tags, threshold, p) {
        var k :| 0 <= k < |table| && Passes(table[k], tags, threshold, p);
        if k < |init| {
          assert Passes(init[k], tags, threshold, p);
        }
      }
    }
  }

  lemma CandidatesMembers(table: WeightTable, tags: seq<string>, threshold: real)
    ensures forall p :: p in Candidates(table, tags, threshold) <==>
      exists k :: 0 <= k < |table| && Passes(table[k], tags, threshold, p)
  {
    forall p ensures p in Candidates(table, tags, threshold) <==>
      exists k :: 0 <= k < |table| && Passes(table[k], tags, threshold, p)
    {
      CandidateMember(table, tags, threshold, p);
    }
  }

  /** Candidates carry at most one entry per engine name. */
  lemma {:induction false} CandidatesDistinct(table: WeightTable, tags: seq<string>, threshold: real)
    requires DistinctNames(table)
    ensures forall i, j :: 0 <= i < j < |Candidates(table, tags, threshold)| ==>
      Candidates(table, tags, threshold)[i].0 != Candidates(table, tags, threshold)[j].0
  {
    if table != [] {
      var init := table[..|table| - 1];
      CandidatesDistinct(init, tags, threshold);
      CandidatesMembers(init, tags, threshold);
      var c := Candidates(init, tags, threshold);
      forall i | 0 <= i < |c| ensures c[i].0 != table[|table| - 1].0 {
        assert c[i] in c;
      }
    }
  }

  /** Every returned engine is an engine of the table with a matched tag and a
      mean score at least `threshold`; the scores never increase along the
      result; at most `topN` engines come back; none comes twice. */
  lemma RankedSound(table: WeightTable, tags: seq<string>, topN: int, threshold: real)
    requires DistinctNames(table)
    ensures var r := RankedScored(table, tags, topN, threshold);
      && (forall p :: p in r ==> exists k :: 0 <= k < |table| && Passes(table[k], tags, threshold, p))
      && SortedDesc(r, EngineScore)
      && (topN >= 0 ==> |r| <= topN)
      && (forall i, j :: 0 <= i < j < |r| ==> r[i].0 != r[j].0)
  {
    var c := Candidates(table, tags, threshold);
    var r := RankedScored(table, tags, topN, threshold);
    SortDescCorrect(c, EngineScore);
    RankedFromCandidates(table, tags, topN, threshold);
    CandidatesMembers(table, tags, threshold);
    RankedDistinct(table, tags, topN, threshold);
  }

  /** The ranked pairs are candidates. */
  lemma RankedFromCandidates(table: WeightTable, tags: seq<string>, topN: int, threshold: real)
    ensures forall p :: p in RankedScored(table, tags, topN, threshold) ==> p in Candidates(table, tags, threshold)
  {
    var c := Candidates(table, tags, threshold);
    var sorted := SortDesc(c, EngineScore);
    SortDescCorrect(c, EngineScore);
    forall p | p in RankedScored(table, tags, topN, threshold) ensures p in c {
      assert p in sorted;
      assert p in multiset(sorted);
    }
  }

  /** No engine is ranked twice. */
  lemma RankedDistinct(table: WeightTable, tags: seq<string>, topN: int, threshold: real)
    requires DistinctNames(table)
    ensures var r := RankedScored(table, tags, topN, threshold);
      forall i, j :: 0 <= i < j < |r| ==> r[i].0 != r[j].0
  {
    var c := Candidates(table, tags, threshold);
    var sorted := SortDesc(c, EngineScore);
    var r := RankedScored(table, tags, topN, threshold);
    CandidatesDistinct(table, tags, threshold);
    SortDescCorrect(c, EngineScore);
    SortDescDistinct(c, EngineScore);
    forall i, j | 0 <= i < j < |r| ensures r[i].0 != r[j].0 {
      assert r[i] == sorted[i] && r[j] == sorted[j];
      assert r[i] in multiset(c) && r[j] in multiset(c);
      var a :| 0 <= a < |c| && c[a] == r[i];
      var b :| 0 <= b < |c| && c[b] == r[j];
    }
  }

  /** An engine none of whose weighted tags is among `tags` is never
      returned, whatever the threshold. */
  lemma UnmatchedEngineNeverRanked(table: WeightTable, tags: seq<string>, topN: int, threshold: real, k: nat)
    requires DistinctNames(table)
    requires k < |table|
    requires forall t :: t in tags ==> t !in table[k].1
    ensures table[k].0 !in Ranked(table, tags, topN, threshold)
  {
    var r := RankedScored(table, tags, topN, threshold);
    RankedSound(table, tags, topN, threshold);
    ScoreDefinedIffSomeTagMatches(table[k].1, tags);
    forall i | 0 <= i < |r| ensures r[i].0 != table[k].0 {
      assert r[i] in r;
    }
  }

  /** Stability: for each score value, the engines with that score come out in
      weight-table order (they form a prefix of the candidates with that
      score, and candidates are listed in table order). */
  lemma RankedStable(table: WeightTable, tags: seq<string>, topN: int, threshold: real, v: real)
    ensures KeyRun(RankedScored(table, tags, topN, threshold), EngineScore, v)
         <= KeyRun(Candidates(table, tags, threshold), EngineScore, v)
  {
    var c := Candidates(table, tags, threshold);
    SortDescCorrect(c, EngineScore);
    KeyRunPrefix(RankedScored(table, tags, topN, threshold), SortDesc(c, EngineScore), EngineScore, v);
  }

  /** Nothing better is cut: a candidate left out of the result only lost to
      a full result of `topN` engines, each scoring at least as much. */
  lemma RankedKeepsBest(table: WeightTable, tags: seq<string>, topN: int, threshold: real, c: (string, real))
    requires topN >= 0
    requires c in Candidates(table, tags, threshold)
    requires c !in RankedScored(table, tags, topN, threshold)
    ensures |RankedScored(table, tags, topN, threshold)| == topN
    ensures forall p :: p in RankedScored(table, tags, topN, threshold) ==> p.1 >= c.1
  {
    var cs := Candidates(table, tags, threshold);
    var sorted := SortDesc(cs, EngineScore);
    var r := RankedScored(table, tags, topN, threshold);
    SortDescCorrect(cs, EngineScore);
    assert c in multiset(sorted);
    var m :| 0 <= m < |sorted| && sorted[m] == c;
    assert |r| <= m;
    forall p | p in r ensures p.1 >= c.1 {
      var i :| 0 <= i < |r| && r[i] == p;
      assert sorted[i] == p;
    }
  }

  lemma {:induction false} CandidatesOfNoTags(table: WeightTable, threshold: real)
    ensures Candidates(table, [], threshold) == []
  {
    if table != [] {
      CandidatesOfNoTags(table[..|table| - 1], threshold);
    }
  }

  /** No tags, no engines. */
  lemma NoTagsNoEngines(table: WeightTable, topN: int, threshold: real)
    ensures Ranked(table, [], topN, threshold) == []
  {
    CandidatesOfNoTags(table, threshold);
  }

  // ---------------------------------------------------------------------
  // Order of the tags does not matter

  lemma {:induction false} MatchedAppend(w: Weights, a: seq<string>, b: seq<string>)
    ensures Matched(w, a + b) == Matched(w, a) + Matched(w, b)
  {
    if b != [] {
      MatchedAppend(w, a, b[..|b| - 1]);
      assert (a + b)[..|a + b| - 1] == a + b[..|b| - 1];
    } else {
      assert a + b == a;
    }
  }

  lemma {:induction false} SumAppend(a: seq<real>, b: seq<real>)
    ensures Sum(a + b) == Sum(a) + Sum(b)
  {
    if b != [] {
      SumAppend(a, b[..|b| - 1]);
      assert (a + b)[..|a + b| - 1] == a + b[..|b| - 1];
    } else {
      assert a + b == a;
    }
  }

  /** Taking one tag out of the middle takes its weight (if any) out of the matches. */
  lemma MatchedWithout(w: Weights, b: seq<string>, k: nat)
    requires k < |b|
    ensures multiset(Matched(w, b)) == multiset(Matched(w, b[..k] + b[k + 1..])) + multiset(Matched(w, [b[k]]))
  {
    assert b == (b[..k] + [b[k]]) + b[k + 1..];
    MatchedAppend(w, b[..k] + [b[k]], b[k + 1..]);
    MatchedAppend(w, b[..k], [b[k]]);
    MatchedAppend(w, b[..k], b[k + 1..]);
  }

  lemma {:induction false} MatchedPermutation(w: Weights, a: seq<string>, b: seq<string>)
    requires multiset(a) == multiset(b)
    ensures multiset(Matched(w, a)) == multiset(Matched(w, b))
    decreases |a|
  {
    if a == [] {
      assert b == [] by { assert |b| == |multiset(b)|; }
    } else {
      var x := a[|a| - 1];
      var a' := a[..|a| - 1];
      assert a == a' + [x];
      assert x in multiset(b);
      var k :| 0 <= k < |b| && b[k] == x;
      var b' := b[..k] + b[k + 1..];
      MultisetRemove(b, k);
      assert multiset(a) == multiset(a') + multiset{x};
      assert multiset(a') == multiset(b');
      MatchedPermutation(w, a', b');
      MatchedWithout(w, b, k);
      MatchedAppend(w, a', [x]);
    }
  }

  lemma {:induction false} SumPermutation(a: seq<real>, b: seq<real>)
    requires multiset(a) == multiset(b)
    ensures Sum(a) == Sum(b)
    decreases |a|
  {
    if a == [] {
      assert b == [] by { assert |b| == |multiset(b)|; }
    } else {
      var x := a[|a| - 1];
      var a' := a[..|a| - 1];
      assert a == a' + [x];
      assert x in multiset(b);
      var k :| 0 <= k < |b| && b[k] == x;
      var b' := b[..k] + b[k + 1..];
      MultisetRemove(b, k);
      assert multiset(a) == multiset(a') + multiset{x};
      assert multiset(a') == multiset(b');
      SumPermutation(a', b');
      SumWithout(b, k);
      SumAppend(a', [x]);
      assert [x][..0] == [];
    }
  }

  /** Taking one weight out of the middle takes it out of the sum. */
  lemma SumWithout(b: seq<real>, k: nat)
    requires k < |b|
    ensures Sum(b) == Sum(b[..k] + b[k + 1..]) + b[k]
  {
    var front, x, back := b[..k], b[k], b[k + 1..];
    assert b[..k + 1] == front + [x];
    assert b == front + [x] + back by {
      assert b == b[..k + 1] + back;
    }
    SumSplit(front, x, back);
  }

  lemma SumSplit(front: seq<real>, x: real, back: seq<real>)
    ensures Sum(front + [x] + back) == Sum(front + back) + x
  {
    SumAppend(front + [x], back);
    SumAppend(front, [x]);
    assert Sum([x]) == x by {
      assert [x][..0] == [];
    }
    SumAppend(front, back);
  }

  lemma ScorePermutation(w: Weights, a: seq<string>, b: seq<string>)
    requires multiset(a) == multiset(b)
    ensures Score(w, a) == Score(w, b)
  {
    MatchedPermutation(w, a, b);
    SumPermutation(Matched(w, a), Matched(w, b));
    assert |Matched(w, a)| == |multiset(Matched(w, a))|;
    assert |Matched(w, b)| == |multiset(Matched(w, b))|;
  }

  lemma {:induction false} CandidatesPermutation(table: WeightTable, a: seq<string>, b: seq<string>, threshold: real)
    requires multiset(a) == multiset(b)
    ensures Candidates(table, a, threshold) == Candidates(table, b, threshold)
  {
    if table != [] {
      CandidatesPermutation(table[..|table| - 1], a, b, threshold);
      ScorePermutation(table[|table| - 1].1, a, b);
    }
  }

  /** Listing the same tags in another order selects the same engines. */
  lemma RankedIgnoresTagOrder(table: WeightTable, a: seq<string>, b: seq<string>, topN: int, threshold: real)
    requires multiset(a) == multiset(b)
    ensures Ranked(table, a, topN, threshold) == Ranked(table, b, topN, threshold)
  {
    CandidatesPermutation(table, a, b, threshold);
  }

  /** The example of the ranking's documentation: "science" and "research"
      select arxiv alone; steam has no matching tag. */
  lemma ScienceResearchExample()
    ensures Ranked([("arxiv", map["science" := 0.9, "research" := 0.8]), ("steam", map["games" := 0.9])],
                   ["science", "research"], 2, 0.6) == ["arxiv"]
  {
    var table := [("arxiv", map["science" := 0.9, "research" := 0.8]), ("steam", map["games" := 0.9])];
    var tags := ["science", "research"];
    assert tags[..1] == ["science"];
    assert ["science"][..0] == [];
    assert Matched(table[0].1, tags) == [0.9, 0.8];
    assert [0.9, 0.8][..1] == [0.9];
    assert [0.9][..0] == [];
    assert Matched(table[1].1, tags) == [];
    assert table[..1] == [table[0]];
    assert table[..0] == [];
    assert Candidates(table, tags, 0.6) == [("arxiv", 0.85)];
  }
}
