/** The request orchestration of `SearchBot` (src/main.py): reading the
    decomposition back, counting entities, choosing engines and top
    entities, dispatching to the search engines and assembling the answer.
    Every external service (the link searches, the no-scrape engines, the
    page scraper and the two image searches) is a function value of `Web`. */
module SearchBot {
  import opened Prelude
  import opened Sorting
  import EngineRouter
  import PromptAnalyser

  // ---------------------------------------------------------------------
  // The engine registry and the three dispatch modes

  /** The names the engine loader maps to a search function. */
  const SearchEngines: set<string> := {
    "jina_search", "google", "reddit", "wikipedia", "goodreads", "arxiv", "steam",
    "imdb", "deviantart", "github", "hackernews", "huggingface", "openstreetmap",
    "astrophysics_data_system"
  }

  const EnginesUseSubquestions: set<string> := {"google", "wikipedia"}
  const EnginesUseEntities: set<string> :=
    {"arxiv", "astrophysics_data_system", "goodreads", "hackernews", "imdb", "reddit"}
  const EnginesUseEntitiesNoScraping: set<string> := {"github", "huggingface", "openstreetmap", "steam"}
  const ImageEngines: set<string> := {"deviantart", "google_images"}

  /** How an engine is queried: once per sub-question, once per top entity
      with the found page scraped, once per top entity with the engine's own
      result kept, or not at all. */
  datatype Mode = BySubquestion | ByEntity | ByEntityNoScraping | Unrouted

  function ModeOf(engine: string): (m: Mode)
    ensures m == BySubquestion <==> engine in SearchEngines && engine in EnginesUseSubquestions
    ensures m == ByEntity <==> engine in SearchEngines && engine in EnginesUseEntities
    ensures m == ByEntityNoScraping <==> engine in SearchEngines && engine in EnginesUseEntitiesNoScraping
  {
    if engine !in SearchEngines then Unrouted
    else if engine in EnginesUseSubquestions then BySubquestion
    else if engine in EnginesUseEntities then ByEntity
    else if engine in EnginesUseEntitiesNoScraping then ByEntityNoScraping
    else Unrouted
  }

  /** The mode sets do not overlap and only name registered engines; the
      image engines are routed by none of them. */
  lemma ModeSetsDisjoint()
    ensures EnginesUseSubquestions !! EnginesUseEntities
    ensures EnginesUseSubquestions !! EnginesUseEntitiesNoScraping
    ensures EnginesUseEntities !! EnginesUseEntitiesNoScraping
    ensures EnginesUseSubquestions + EnginesUseEntities + EnginesUseEntitiesNoScraping <= SearchEngines
    ensures ModeOf("deviantart") == Unrouted && ModeOf("jina_search") == Unrouted
    ensures ModeOf("google_images") == Unrouted
  {
  }

  // ---------------------------------------------------------------------
  // External services

  /** What an item carries as context: a scraped page, or the structured
      result of a no-scrape engine, kept as the engine returned it. */
  datatype Context = Page(text: string) | Direct(result: string)

  /** The services the bot calls, as functions of their arguments:
      `links(engine, q)` is the link list a registered link engine returns,
      `direct(engine, q)` the result of a no-scrape engine, `scrape(url)` the
      page text (or "Error: <status>"), and the two image searches. */
  datatype Web = Web(
    links: (string, string) -> seq<string>,
    direct: (string, string) -> string,
    scrape: string -> string,
    deviantart: string -> seq<string>,
    googleImages: string -> seq<string>)

  /** One `{context, citation, engine}` record. */
  datatype Item = Item(context: Context, citation: string, engine: string)

  const NoLink: string := "TEMPORARY MEASURE NO LINK"

  // ---------------------------------------------------------------------
  // _get_subquestions: reading the decomposition back

  /** The entity counter: a dict in insertion order (`order`) with its
      counts, or the list `[]` the parse-failure path puts in its place. */
  datatype EntityDic = Counts(order: seq<string>, count: map<string, nat>) | ListValue

  /** What `_get_subquestions` returns. */
  datatype Parsed = Parsed(subQueries: seq<string>, entityDic: EntityDic, tags: seq<string>, complexityScore: Option<real>)

  predicate AllRecords(sqs: seq<PromptAnalyser.RawSubQuery>)
  {
    forall k :: 0 <= k < |sqs| ==> sqs[k].Record?
  }

  function SubQueryTexts(sqs: seq<PromptAnalyser.RawSubQuery>): seq<string>
  {
    if sqs == [] then []
    else SubQueryTexts(sqs[..|sqs| - 1]) + (if sqs[|sqs| - 1].Record? then [sqs[|sqs| - 1].subQuery] else [])
  }

  /** The entity lists of all sub-queries, one after the other. */
  function EntitiesOf(sqs: seq<PromptAnalyser.RawSubQuery>): seq<string>
  {
    if sqs == [] then []
    else EntitiesOf(sqs[..|sqs| - 1]) + (if sqs[|sqs| - 1].Record? then sqs[|sqs| - 1].entities else [])
  }

  /** `entity_dic[ent] += 1`, or `entity_dic[ent] = 1` for a new entity. */
  function Bump(d: EntityDic, ent: string): EntityDic
  {
    match d
    case ListValue => ListValue
    case Counts(order, count) =>
      if ent in count then Counts(order, count[ent := count[ent] + 1])
      else Counts(order + [ent], count[ent := 1])
  }

  /** The counter after seeing `ents` one by one. */
  function Tally(ents: seq<string>): EntityDic
  {
    if ents == [] then Counts([], map[])
    else Bump(Tally(ents[..|ents| - 1]), ents[|ents| - 1])
  }

  const EmptyDic: EntityDic := Counts([], map[])

  /** `_get_subquestions` as written: the error object of a failed
      decomposition has no sub-queries; a sub-query element that is not a
      record makes `sq.get` raise, and the handler returns the list `[]` as
      the entity counter. */
  function Subquestions(d: PromptAnalyser.Decomposition): Parsed
  {
    match d
    case Failed => Parsed([], EmptyDic, [], None)
    case Decomposed(sqs, tags, _, complexity) =>
      if AllRecords(sqs) then Parsed(SubQueryTexts(sqs), Tally(EntitiesOf(sqs)), tags, Some(complexity.complexityScore))
      else Parsed([], ListValue, [], None)
  }

  method GetSubquestions(d: PromptAnalyser.Decomposition) returns (p: Parsed)
    ensures p == Subquestions(d)
  {
    match d {
      case Failed =>
        p := Parsed([], EmptyDic, [], None);
      case Decomposed(sqs, tags, _, complexity) =>
        var read := ReadSubQueries(sqs);
        if read.None? {
          p := Parsed([], ListValue, [], None);
        } else {
          p := Parsed(read.value.0, read.value.1, tags, Some(complexity.complexityScore));
        }
    }
  }

  /** The loop of `_get_subquestions` over the sub-queries: their texts and
      the entity counter, or nothing once an element is not a record. */
  method ReadSubQueries(sqs: seq<PromptAnalyser.RawSubQuery>) returns (r: Option<(seq<string>, EntityDic)>)
    ensures AllRecords(sqs) ==> r == Some((SubQueryTexts(sqs), Tally(EntitiesOf(sqs))))
    ensures !AllRecords(sqs) ==> r == None
  {
    var subQueries: seq<string> := [];
    var entityDic := EmptyDic;
    var i := 0;
    while i < |sqs|
      invariant 0 <= i <= |sqs|
      invariant AllRecords(sqs[..i])
      invariant subQueries == SubQueryTexts(sqs[..i])
      invariant entityDic == Tally(EntitiesOf(sqs[..i]))
    {
      if sqs[i].NotRecord? {
        return None;
      }
      ReadStep(sqs, i);
      subQueries := subQueries + [sqs[i].subQuery];
      entityDic := CountEntities(EntitiesOf(sqs[..i]), entityDic, sqs[i].entities);
      i := i + 1;
    }
    assert sqs[..i] == sqs;
    r := Some((subQueries, entityDic));
  }

  /** Reading one more record extends the texts and the entity mentions. */
  lemma ReadStep(sqs: seq<PromptAnalyser.RawSubQuery>, i: nat)
    requires i < |sqs| && sqs[i].Record?
    requires AllRecords(sqs[..i])
    ensures AllRecords(sqs[..i + 1])
    ensures SubQueryTexts(sqs[..i + 1]) == SubQueryTexts(sqs[..i]) + [sqs[i].subQuery]
    ensures EntitiesOf(sqs[..i + 1]) == EntitiesOf(sqs[..i]) + sqs[i].entities
  {
    var next := sqs[..i + 1];
    assert next[|next| - 1] == sqs[i] && next[..|next| - 1] == sqs[..i];
  }

  /** The inner loop of `_get_subquestions`: counts one sub-query's entities. */
  method CountEntities(ghost seen: seq<string>, entityDic: EntityDic, ents: seq<string>) returns (r: EntityDic)
    requires entityDic == Tally(seen)
    ensures r == Tally(seen + ents)
  {
    r := entityDic;
    var j := 0;
    assert seen + ents[..0] == seen;
    while j < |ents|
      invariant 0 <= j <= |ents|
      invariant r == Tally(seen + ents[..j])
    {
      assert (seen + ents[..j + 1])[..|seen| + j] == seen + ents[..j];
      var ent := ents[j];
      match r {
        case Counts(order, count) =>
          if ent in count {
            r := Counts(order, count[ent := count[ent] + 1]);
          } else {
            r := Counts(order + [ent], count[ent := 1]);
          }
        case ListValue =>
      }
      j := j + 1;
    }
    assert ents[..j] == ents;
  }

  /** A counter is well formed when its order lists each key once. */
  ghost predicate WellFormed(d: EntityDic)
  {
    d.Counts? ==>
      (forall i, j :: 0 <= i < j < |d.order| ==> d.order[i] != d.order[j]) &&
      (forall x :: x in d.count <==> x in d.order)
  }

  /** The counter stays a dict whose order lists each key once. */
  lemma {:induction false} TallyWellFormed(ents: seq<string>)
    ensures Tally(ents).Counts? && WellFormed(Tally(ents))
  {
    if ents != [] {
      TallyWellFormed(ents[..|ents| - 1]);
    }
  }

  /** The keys are listed in the order of their first mention. */
  lemma {:induction false} TallyOrder(ents: seq<string>)
    ensures Tally(ents).Counts?
    ensures forall x :: x in Tally(ents).order <==> x in ents
    ensures forall i, j :: 0 <= i < j < |Tally(ents).order| ==>
              Position(ents, Tally(ents).order[i]) < Position(ents, Tally(ents).order[j])
  {
    if ents != [] {
      var init, x := ents[..|ents| - 1], ents[|ents| - 1];
      assert ents == init + [x];
      TallyOrder(init);
      TallyWellFormed(init);
      var order := Tally(init).order;
      if x in Tally(init).count {
        assert Tally(ents).order == order;
        OrderKept(init, x, order);
      } else {
        assert Tally(ents).order == order + [x];
        OrderExtended(init, x, order);
      }
    }
  }

  /** Mentioning a known entity again keeps the first-mention order. */
  lemma OrderKept(init: seq<string>, x: string, order: seq<string>)
    requires forall y :: y in order <==> y in init
    requires x in init
    requires forall i, j :: 0 <= i < j < |order| ==> Position(init, order[i]) < Position(init, order[j])
    ensures forall y :: y in order <==> y in init + [x]
    ensures forall i, j :: 0 <= i < j < |order| ==> Position(init + [x], order[i]) < Position(init + [x], order[j])
  {
    forall y | y in order ensures Position(init + [x], y) == Position(init, y) {
      PositionAppend(init, [x], y);
    }
  }

  /** A new entity goes last and is mentioned after every known one. */
  lemma OrderExtended(init: seq<string>, x: string, order: seq<string>)
    requires forall y :: y in order <==> y in init
    requires x !in init
    requires forall i, j :: 0 <= i < j < |order| ==> Position(init, order[i]) < Position(init, order[j])
    ensures forall y :: y in order + [x] <==> y in init + [x]
    ensures forall i, j :: 0 <= i < j < |order + [x]| ==>
              Position(init + [x], (order + [x])[i]) < Position(init + [x], (order + [x])[j])
  {
    var ents, next := init + [x], order + [x];
    forall y | y in order ensures Position(ents, y) == Position(init, y) < |init| {
      PositionAppend(init, [x], y);
    }
    assert Position(ents, x) == |init| by {
      PositionAppend(init, [x], x);
      assert Position([x], x) == 0;
    }
    forall i, j | 0 <= i < j < |next|
      ensures Position(ents, next[i]) < Position(ents, next[j])
    {
      assert next[i] == order[i] && next[i] in order;
      if j < |order| {
        assert next[j] == order[j];
      }
    }
  }

  /** Every entity seen is a key, counted as often as it occurs; the keys
      are listed once each, in the order of their first mention. */
  lemma {:induction false} TallyCounts(ents: seq<string>)
    ensures Tally(ents).Counts? && WellFormed(Tally(ents))
    ensures forall x :: x in Tally(ents).count <==> x in ents
    ensures forall x :: x in Tally(ents).count ==> Tally(ents).count[x] == multiset(ents)[x] >= 1
    ensures forall i, j :: 0 <= i < j < |Tally(ents).order| ==>
              Position(ents, Tally(ents).order[i]) < Position(ents, Tally(ents).order[j])
  {
    TallyWellFormed(ents);
    TallyOrder(ents);
    if ents != [] {
      var init, x := ents[..|ents| - 1], ents[|ents| - 1];
      assert ents == init + [x];
      TallyCounts(init);
      var d := Tally(init);
      forall y | y in Tally(ents).count ensures Tally(ents).count[y] == multiset(ents)[y] >= 1 {
        if y != x {
          assert y in init;
        }
      }
    }
  }

  /** Sum of the counts, in insertion order. */
  function SumCounts(order: seq<string>, count: map<string, nat>): nat
  {
    if order == [] then 0
    else SumCounts(order[..|order| - 1], count)
         + (if order[|order| - 1] in count then count[order[|order| - 1]] else 0)
  }

  lemma {:induction false} SumCountsOther(order: seq<string>, count: map<string, nat>, x: string, c: nat)
    requires x !in order
    ensures SumCounts(order, count[x := c]) == SumCounts(order, count)
  {
    if order != [] {
      SumCountsOther(order[..|order| - 1], count, x, c);
    }
  }

  lemma {:induction false} SumCountsBump(order: seq<string>, count: map<string, nat>, x: string)
    requires forall i, j :: 0 <= i < j < |order| ==> order[i] != order[j]
    requires x in order && x in count
    ensures SumCounts(order, count[x := count[x] + 1]) == SumCounts(order, count) + 1
  {
    var init, last := order[..|order| - 1], order[|order| - 1];
    if last == x {
      assert x !in init;
      SumCountsOther(init, count, x, count[x] + 1);
    } else {
      assert x in init;
      SumCountsBump(init, count, x);
    }
  }

  /** One more mention adds one to the sum of a well-formed counter. */
  lemma BumpSum(d: EntityDic, x: string)
    requires d.Counts? && WellFormed(d)
    ensures Bump(d, x).Counts?
    ensures SumCounts(Bump(d, x).order, Bump(d, x).count) == SumCounts(d.order, d.count) + 1
  {
    var order, count := d.order, d.count;
    if x in count {
      assert x in order;
      SumCountsBump(order, count, x);
    } else {
      assert x !in order;
      var longer, bumped := order + [x], count[x := 1];
      SumCountsOther(order, count, x, 1);
      assert longer[..|longer| - 1] == order && longer[|longer| - 1] == x;
      assert SumCounts(longer, bumped) == SumCounts(order, bumped) + 1;
    }
  }

  /** The counts add up to the number of entity mentions. */
  lemma {:induction false} TallySum(ents: seq<string>)
    ensures Tally(ents).Counts?
    ensures SumCounts(Tally(ents).order, Tally(ents).count) == |ents|
  {
    if ents == [] {
    } else {
      var init, x := ents[..|ents| - 1], ents[|ents| - 1];
      TallySum(init);
      TallyWellFormed(init);
      BumpSum(Tally(init), x);
    }
  }

  lemma {:induction false} SubQueryTextsLength(sqs: seq<PromptAnalyser.RawSubQuery>)
    requires AllRecords(sqs)
    ensures |SubQueryTexts(sqs)| == |sqs|
    ensures forall k :: 0 <= k < |sqs| ==> SubQueryTexts(sqs)[k] == sqs[k].subQuery
  {
    if sqs != [] {
      SubQueryTextsLength(sqs[..|sqs| - 1]);
    }
  }

  /** For a well-formed decomposition, `sub_queries` has one text per
      sub-query record, in order, and the counter counts every mention. */
  lemma SubquestionsOfRecords(d: PromptAnalyser.Decomposition)
    requires d.Decomposed? && AllRecords(d.subQueries)
    ensures var p := Subquestions(d);
      && |p.subQueries| == |d.subQueries|
      && (forall k :: 0 <= k < |d.subQueries| ==> p.subQueries[k] == d.subQueries[k].subQuery)
      && p.entityDic.Counts? && WellFormed(p.entityDic)
      && (forall x :: x in p.entityDic.count <==> x in EntitiesOf(d.subQueries))
      && (forall x :: x in p.entityDic.count ==> p.entityDic.count[x] == multiset(EntitiesOf(d.subQueries))[x] >= 1)
      && SumCounts(p.entityDic.order, p.entityDic.count) == |EntitiesOf(d.subQueries)|
      && p.tags == d.tags
  {
    SubQueryTextsLength(d.subQueries);
    TallyCounts(EntitiesOf(d.subQueries));
    TallySum(EntitiesOf(d.subQueries));
  }

  /** A sub-query element that is not a record turns the counter into a list. */
  lemma MalformedDecompositionGivesList(d: PromptAnalyser.Decomposition, k: nat)
    requires d.Decomposed? && k < |d.subQueries| && d.subQueries[k].NotRecord?
    ensures Subquestions(d) == Parsed([], ListValue, [], None)
  {
  }

  // ---------------------------------------------------------------------
  // _get_num_results

  /** `3 + int(score // 10) + len(sub_questions)`. */
  function NumResults(score: real, subQuestions: seq<string>): (r: int)
    ensures (r - 3 - |subQuestions|) as real * 10.0 <= score < (r - 2 - |subQuestions|) as real * 10.0
    ensures score >= 0.0 ==> r >= 3 + |subQuestions|
  {
    3 + (score / 10.0).Floor + |subQuestions|
  }

  /** A higher score never asks for fewer results. */
  lemma NumResultsMonotone(a: real, b: real, subQuestions: seq<string>)
    requires a <= b
    ensures NumResults(a, subQuestions) <= NumResults(b, subQuestions)
  {
    var x, y := NumResults(a, subQuestions) - 3 - |subQuestions|, NumResults(b, subQuestions) - 3 - |subQuestions|;
    assert x as real * 10.0 <= a <= b < (y + 1) as real * 10.0;
  }

  // ---------------------------------------------------------------------
  // Top-entity selection (the same rule in _use_additional_engines and _get_images)

  function CountKey(p: (string, nat)): real { p.1 as real }

  function MoreThanOnce(p: (string, nat)): bool { p.1 > 1 }

  /** `entity_dic.items()`, in insertion order. */
  function Items(order: seq<string>, count: map<string, nat>): (r: seq<(string, nat)>)
    ensures |r| == |order|
    ensures forall i :: 0 <= i < |r| ==> r[i].0 == order[i]
  {
    seq(|order|, i requires 0 <= i < |order| => (order[i], if order[i] in count then count[order[i]] else 0))
  }

  /** The chosen (entity, count) pairs: the entities counted more than once,
      by decreasing count, cut at `topN`; if none is left, the first pair of
      the sorted list. */
  function TopPairs(order: seq<string>, count: map<string, nat>, topN: int): seq<(string, nat)>
  {
    var sorted := SortDesc(Items(order, count), CountKey);
    var top := Take(Filter(sorted, MoreThanOnce), topN);
    if top == [] then Take(sorted, 1) else top
  }

  function TopEntities(order: seq<string>, count: map<string, nat>, topN: int): seq<string>
  {
    Firsts(TopPairs(order, count, topN))
  }

  /** The items of a well-formed counter pair each key with its count. */
  lemma ItemsOfCounter(order: seq<string>, count: map<string, nat>)
    requires WellFormed(Counts(order, count))
    ensures forall i :: 0 <= i < |order| ==> Items(order, count)[i] == (order[i], count[order[i]])
  {
  }

  /** Sorting the items keeps them (each key with its count), orders them
      by non-increasing count and keeps insertion order among equal counts. */
  lemma SortedItems(order: seq<string>, count: map<string, nat>)
    requires WellFormed(Counts(order, count))
    ensures var sorted := SortDesc(Items(order, count), CountKey);
      && |sorted| == |order|
      && SortedDesc(sorted, CountKey)
      && (forall i :: 0 <= i < |sorted| ==> sorted[i].0 in count && sorted[i].1 == count[sorted[i].0])
      && (forall v :: KeyRun(sorted, CountKey, v) == KeyRun(Items(order, count), CountKey, v))
  {
    var items := Items(order, count);
    var sorted := SortDesc(items, CountKey);
    SortDescCorrect(items, CountKey);
    ItemsOfCounter(order, count);
    assert |multiset(sorted)| == |multiset(items)|;
    forall i | 0 <= i < |sorted| ensures sorted[i].0 in count && sorted[i].1 == count[sorted[i].0] {
      assert sorted[i] in multiset(items);
    }
  }

  /** Every key of the counter appears, with its count, among the sorted items. */
  lemma SortedItemsComplete(order: seq<string>, count: map<string, nat>, x: string)
    requires WellFormed(Counts(order, count))
    requires x in count
    ensures (x, count[x]) in SortDesc(Items(order, count), CountKey)
  {
    var items := Items(order, count);
    SortDescCorrect(items, CountKey);
    ItemsOfCounter(order, count);
    var k :| 0 <= k < |order| && order[k] == x;
    assert items[k] in multiset(SortDesc(items, CountKey));
  }

  /** The entities counted more than once, sorted: still sorted, and for
      each count their run is the counter's own run or nothing. */
  lemma FilteredItems(order: seq<string>, count: map<string, nat>)
    requires WellFormed(Counts(order, count))
    ensures var filtered := Filter(SortDesc(Items(order, count), CountKey), MoreThanOnce);
      && SortedDesc(filtered, CountKey)
      && (forall v :: KeyRun(filtered, CountKey, v) <= KeyRun(Items(order, count), CountKey, v))
  {
    var sorted := SortDesc(Items(order, count), CountKey);
    SortedItems(order, count);
    FilterIsSubsequence(sorted, MoreThanOnce);
    SubsequenceSorted(Filter(sorted, MoreThanOnce), sorted, CountKey);
    forall v ensures KeyRun(Filter(sorted, MoreThanOnce), CountKey, v) <= KeyRun(Items(order, count), CountKey, v) {
      if v > 1.0 {
        KeyRunFilterAll(sorted, MoreThanOnce, CountKey, v);
      } else {
        KeyRunFilterNone(sorted, MoreThanOnce, CountKey, v);
      }
    }
  }

  /** There are no top entities exactly when the counter is empty, whatever `topN` is. */
  lemma TopEntitiesEmptyIff(order: seq<string>, count: map<string, nat>, topN: int)
    ensures TopEntities(order, count, topN) == [] <==> order == []
  {
    var items := Items(order, count);
    SortDescCorrect(items, CountKey);
    assert |multiset(SortDesc(items, CountKey))| == |multiset(items)|;
  }

  /** The chosen pairs are pairs of the counter, by non-increasing count,
      and entities of equal count keep their insertion order. */
  lemma TopEntitiesOrdered(order: seq<string>, count: map<string, nat>, topN: int)
    requires WellFormed(Counts(order, count))
    ensures var r := TopPairs(order, count, topN);
      && (forall i :: 0 <= i < |r| ==> r[i].0 in count && r[i].1 == count[r[i].0])
      && SortedDesc(r, CountKey)
      && (forall v :: KeyRun(r, CountKey, v) <= KeyRun(Items(order, count), CountKey, v))
  {
    var items := Items(order, count);
    var sorted := SortDesc(items, CountKey);
    var filtered := Filter(sorted, MoreThanOnce);
    SortedItems(order, count);
    FilteredItems(order, count);
    if Take(filtered, topN) == [] {
      CounterPrefix(TopPairs(order, count, topN), sorted, items, count);
    } else {
      forall i | 0 <= i < |filtered| ensures filtered[i].0 in count && filtered[i].1 == count[filtered[i].0] {
        var k :| 0 <= k < |sorted| && sorted[k] == filtered[i];
      }
      CounterPrefix(TopPairs(order, count, topN), filtered, items, count);
    }
  }

  /** A prefix of sorted counter pairs whose runs are runs of the counter
      keeps all three properties. */
  lemma CounterPrefix(r: seq<(string, nat)>, base: seq<(string, nat)>, items: seq<(string, nat)>, count: map<string, nat>)
    requires r <= base
    requires forall i :: 0 <= i < |base| ==> base[i].0 in count && base[i].1 == count[base[i].0]
    requires SortedDesc(base, CountKey)
    requires forall v :: KeyRun(base, CountKey, v) <= KeyRun(items, CountKey, v)
    ensures forall i :: 0 <= i < |r| ==> r[i].0 in count && r[i].1 == count[r[i].0]
    ensures SortedDesc(r, CountKey)
    ensures forall v :: KeyRun(r, CountKey, v) <= KeyRun(items, CountKey, v)
  {
    forall i | 0 <= i < |r| ensures r[i].0 in count && r[i].1 == count[r[i].0] {
      assert r[i] == base[i];
    }
    forall i, j | 0 <= i < j < |r| ensures CountKey(r[i]) >= CountKey(r[j]) {
      assert r[i] == base[i] && r[j] == base[j];
    }
    forall v ensures KeyRun(r, CountKey, v) <= KeyRun(items, CountKey, v) {
      KeyRunPrefix(r, base, CountKey, v);
    }
  }

  /** Either every chosen entity was counted more than once and there are
      at most `topN` of them, or the fallback chose exactly one entity, of
      maximal count. */
  lemma TopEntitiesChoice(order: seq<string>, count: map<string, nat>, topN: int)
    requires WellFormed(Counts(order, count))
    requires order != []
    ensures var r := TopPairs(order, count, topN);
      || ((forall i :: 0 <= i < |r| ==> r[i].1 > 1) && (topN >= 0 ==> |r| <= topN))
      || (|r| == 1 && forall x :: x in count ==> r[0].1 >= count[x])
  {
    var sorted := SortDesc(Items(order, count), CountKey);
    var top := Take(Filter(sorted, MoreThanOnce), topN);
    SortedItems(order, count);
    if top == [] {
      assert TopPairs(order, count, topN) == sorted[..1];
      forall x | x in count ensures sorted[0].1 >= count[x] {
        FallbackIsMaximal(order, count, topN, x);
      }
    } else {
      forall i | 0 <= i < |top| ensures top[i].1 > 1 {
        assert top[i] in Filter(sorted, MoreThanOnce);
      }
    }
  }

  /** A chosen pair is preferred to every entity counted more than once that
      was left out: the cut keeps the best. */
  lemma TopEntitiesKeepBest(order: seq<string>, count: map<string, nat>, topN: int, x: string)
    requires WellFormed(Counts(order, count))
    requires x in count && count[x] > 1
    requires x !in TopEntities(order, count, topN)
    ensures forall i :: 0 <= i < |TopPairs(order, count, topN)| ==> TopPairs(order, count, topN)[i].1 >= count[x]
  {
    var sorted := SortDesc(Items(order, count), CountKey);
    if Take(Filter(sorted, MoreThanOnce), topN) == [] {
      FallbackIsMaximal(order, count, topN, x);
    } else {
      CutKeepsBest(order, count, topN, x);
    }
  }

  lemma FallbackIsMaximal(order: seq<string>, count: map<string, nat>, topN: int, x: string)
    requires WellFormed(Counts(order, count))
    requires x in count
    requires Take(Filter(SortDesc(Items(order, count), CountKey), MoreThanOnce), topN) == []
    ensures forall i :: 0 <= i < |TopPairs(order, count, topN)| ==> TopPairs(order, count, topN)[i].1 >= count[x]
  {
    var sorted := SortDesc(Items(order, count), CountKey);
    SortDescCorrect(Items(order, count), CountKey);
    SortedItemsComplete(order, count, x);
    var k :| 0 <= k < |sorted| && sorted[k] == (x, count[x]);
    assert TopPairs(order, count, topN) == sorted[..1];
    assert CountKey(sorted[0]) >= CountKey(sorted[k]);
  }

  lemma CutKeepsBest(order: seq<string>, count: map<string, nat>, topN: int, x: string)
    requires WellFormed(Counts(order, count))
    requires x in count && count[x] > 1
    requires x !in TopEntities(order, count, topN)
    requires Take(Filter(SortDesc(Items(order, count), CountKey), MoreThanOnce), topN) != []
    ensures forall i :: 0 <= i < |TopPairs(order, count, topN)| ==> TopPairs(order, count, topN)[i].1 >= count[x]
  {
    var sorted := SortDesc(Items(order, count), CountKey);
    var filtered := Filter(sorted, MoreThanOnce);
    var top := Take(filtered, topN);
    SortedItemsComplete(order, count, x);
    FilteredItems(order, count);
    var m :| 0 <= m < |filtered| && filtered[m] == (x, count[x]);
    assert TopPairs(order, count, topN) == top;
    // otherwise x would be the name of the m-th chosen pair
    assert m >= |top|;
    forall i | 0 <= i < |top| ensures top[i].1 >= count[x] {
      assert top[i] == filtered[i];
      assert CountKey(filtered[i]) >= CountKey(filtered[m]);
    }
  }

  /** {"Tesla": 3, "SpaceX": 1, "Mars": 1} with top_n 2 picks "Tesla" alone. */
  lemma TeslaExample()
    ensures TopEntities(["Tesla", "SpaceX", "Mars"], map["Tesla" := 3, "SpaceX" := 1, "Mars" := 1], 2) == ["Tesla"]
  {
    var order := ["Tesla", "SpaceX", "Mars"];
    var count := map["Tesla" := 3, "SpaceX" := 1, "Mars" := 1];
    var items := Items(order, count);
    var t: (string, nat), x: (string, nat), m: (string, nat) := ("Tesla", 3), ("SpaceX", 1), ("Mars", 1);
    var three := [t, x, m];
    assert items == three;
    assert SortDesc(three, CountKey) == three by {
      assert three[1..] == [x, m] && [x, m][1..] == [m] && [m][1..] == [];
      assert SortDesc([m], CountKey) == Insert(m, [], CountKey) == [m];
      assert SortDesc([x, m], CountKey) == Insert(x, [m], CountKey) == [x, m];
    }
    assert Filter(three, MoreThanOnce) == [t] by {
      assert three[1..] == [x, m] && [x, m][1..] == [m] && [m][1..] == [];
      assert Filter([m], MoreThanOnce) == [];
      assert Filter([x, m], MoreThanOnce) == [];
    }
    assert TopPairs(order, count, 2) == [t];
  }

  // ---------------------------------------------------------------------
  // _base_line_queries

  /** One record per link: the scraped page, cited by its link. */
  function Scraped(web: Web, engine: string, links: seq<string>): seq<Item>
  {
    if links == [] then []
    else Scraped(web, engine, links[..|links| - 1])
         + [Item(Page(web.scrape(links[|links| - 1])), links[|links| - 1], engine)]
  }

  /** The first two links of the web search of each sub-question, in order. */
  function BaselineLinks(web: Web, subQuestions: seq<string>): seq<string>
  {
    if subQuestions == [] then []
    else BaselineLinks(web, subQuestions[..|subQuestions| - 1])
         + Take(web.links("google", subQuestions[|subQuestions| - 1]), 2)
  }

  function Baseline(web: Web, subQuestions: seq<string>): seq<Item>
  {
    Scraped(web, "google", BaselineLinks(web, subQuestions))
  }

  method ScrapeEach(web: Web, engine: string, links: seq<string>) returns (items: seq<Item>)
    ensures items == Scraped(web, engine, links)
  {
    items := [];
    var k := 0;
    while k < |links|
      invariant 0 <= k <= |links|
      invariant items == Scraped(web, engine, links[..k])
    {
      assert links[..k + 1][..k] == links[..k];
      items := items + [Item(Page(web.scrape(links[k])), links[k], engine)];
      k := k + 1;
    }
    assert links[..k] == links;
  }

  method BaseLineQueries(web: Web, subQuestions: seq<string>) returns (info: seq<Item>)
    ensures info == Baseline(web, subQuestions)
  {
    var links: seq<string> := [];
    var k := 0;
    while k < |subQuestions|
      invariant 0 <= k <= |subQuestions|
      invariant links == BaselineLinks(web, subQuestions[..k])
    {
      assert subQuestions[..k + 1][..k] == subQuestions[..k];
      links := links + Take(web.links("google", subQuestions[k]), 2);
      k := k + 1;
    }
    assert subQuestions[..k] == subQuestions;
    info := ScrapeEach(web, "google", links);
  }

  lemma {:induction false} ScrapedAppend(web: Web, engine: string, a: seq<string>, b: seq<string>)
    ensures Scraped(web, engine, a + b) == Scraped(web, engine, a) + Scraped(web, engine, b)
    decreases |b|
  {
    if b != [] {
      assert (a + b)[..|a + b| - 1] == a + b[..|b| - 1];
      ScrapedAppend(web, engine, a, b[..|b| - 1]);
    } else {
      assert a + b == a;
    }
  }

  /** Each record cites one link and carries that link's scraped page. */
  lemma {:induction false} ScrapedItems(web: Web, engine: string, links: seq<string>)
    ensures |Scraped(web, engine, links)| == |links|
    ensures forall i :: 0 <= i < |links| ==> Scraped(web, engine, links)[i] == Item(Page(web.scrape(links[i])), links[i], engine)
  {
    if links != [] {
      ScrapedItems(web, engine, links[..|links| - 1]);
    }
  }

  /** At most two records per sub-question, all attributed to the web
      search, each citing one of the first two links found for some
      sub-question and carrying the scraped page of its citation. */
  lemma {:induction false} BaselineShape(web: Web, subQuestions: seq<string>)
    ensures |Baseline(web, subQuestions)| <= 2 * |subQuestions|
    ensures forall i :: 0 <= i < |Baseline(web, subQuestions)| ==>
      var item := Baseline(web, subQuestions)[i];
      && item.engine == "google"
      && item.context == Page(web.scrape(item.citation))
      && exists k :: 0 <= k < |subQuestions| && item.citation in Take(web.links("google", subQuestions[k]), 2)
  {
    var links := BaselineLinks(web, subQuestions);
    ScrapedItems(web, "google", links);
    BaselineLinksFrom(web, subQuestions);
  }

  lemma {:induction false} BaselineLinksFrom(web: Web, subQuestions: seq<string>)
    ensures |BaselineLinks(web, subQuestions)| <= 2 * |subQuestions|
    ensures forall i :: 0 <= i < |BaselineLinks(web, subQuestions)| ==>
      exists k :: 0 <= k < |subQuestions| && BaselineLinks(web, subQuestions)[i] in Take(web.links("google", subQuestions[k]), 2)
  {
    if subQuestions != [] {
      var init, last := subQuestions[..|subQuestions| - 1], subQuestions[|subQuestions| - 1];
      BaselineLinksFrom(web, init);
      var before, found := BaselineLinks(web, init), Take(web.links("google", last), 2);
      forall i | 0 <= i < |before| + |found|
        ensures exists k :: 0 <= k < |subQuestions| && (before + found)[i] in Take(web.links("google", subQuestions[k]), 2)
      {
        if i < |before| {
          var k :| 0 <= k < |init| && before[i] in Take(web.links("google", init[k]), 2);
          assert subQuestions[k] == init[k];
        } else {
          assert (before + found)[i] == found[i - |before|];
          assert subQuestions[|subQuestions| - 1] == last;
        }
      }
    }
  }

  /** The records follow the sub-questions: those of `a` come before those
      of `b`, and one sub-question gives the pages of its first two links. */
  lemma {:induction false} BaselineOrder(web: Web, a: seq<string>, b: seq<string>)
    ensures Baseline(web, a + b) == Baseline(web, a) + Baseline(web, b)
    ensures forall q :: Baseline(web, [q]) == Scraped(web, "google", Take(web.links("google", q), 2))
    decreases |b|
  {
    forall q ensures Baseline(web, [q]) == Scraped(web, "google", Take(web.links("google", q), 2)) {
      assert [q][..0] == [];
      var found := Take(web.links("google", q), 2);
      assert BaselineLinks(web, [q]) == BaselineLinks(web, []) + found;
      assert BaselineLinks(web, [q]) == found;
    }
    BaselineLinksAppend(web, a, b);
    ScrapedAppend(web, "google", BaselineLinks(web, a), BaselineLinks(web, b));
  }

  lemma {:induction false} BaselineLinksAppend(web: Web, a: seq<string>, b: seq<string>)
    ensures BaselineLinks(web, a + b) == BaselineLinks(web, a) + BaselineLinks(web, b)
    decreases |b|
  {
    if b != [] {
      assert (a + b)[..|a + b| - 1] == a + b[..|b| - 1];
      BaselineLinksAppend(web, a, b[..|b| - 1]);
    } else {
      assert a + b == a;
    }
  }

  // ---------------------------------------------------------------------
  // _use_additional_engines

  /** For each query, the page of the first link the engine returns. */
  function PerQuery(web: Web, engine: string, queries: seq<string>): seq<Item>
  {
    if queries == [] then []
    else PerQuery(web, engine, queries[..|queries| - 1])
         + Scraped(web, engine, Take(web.links(engine, queries[|queries| - 1]), 1))
  }

  /** For each entity, the engine's own result, with no link to cite. */
  function Unscraped(web: Web, engine: string, entities: seq<string>): seq<Item>
  {
    if entities == [] then []
    else Unscraped(web, engine, entities[..|entities| - 1])
         + [Item(Direct(web.direct(engine, entities[|entities| - 1])), NoLink, engine)]
  }

  /** The records one selected engine contributes. */
  function EngineItems(web: Web, engine: string, subQuestions: seq<string>, top: seq<string>): seq<Item>
  {
    match ModeOf(engine)
    case BySubquestion => PerQuery(web, engine, subQuestions)
    case ByEntity => PerQuery(web, engine, top)
    case ByEntityNoScraping => Unscraped(web, engine, top)
    case Unrouted => []
  }

  /** The records of all selected engines, engine after engine. */
  function Additional(web: Web, engines: seq<string>, subQuestions: seq<string>, top: seq<string>): seq<Item>
  {
    if engines == [] then []
    else Additional(web, engines[..|engines| - 1], subQuestions, top)
         + EngineItems(web, engines[|engines| - 1], subQuestions, top)
  }

  const ItemsOfList: string := "AttributeError: 'list' object has no attribute 'items'"

  method QueryEach(web: Web, engine: string, queries: seq<string>) returns (items: seq<Item>)
    ensures items == PerQuery(web, engine, queries)
  {
    items := [];
    var k := 0;
    while k < |queries|
      invariant 0 <= k <= |queries|
      invariant items == PerQuery(web, engine, queries[..k])
    {
      assert queries[..k + 1][..k] == queries[..k];
      var links := web.links(engine, queries[k]);
      var found := ScrapeEach(web, engine, Take(links, 1));
      items := items + found;
      k := k + 1;
    }
    assert queries[..k] == queries;
  }

  method DirectEach(web: Web, engine: string, entities: seq<string>) returns (items: seq<Item>)
    ensures items == Unscraped(web, engine, entities)
  {
    items := [];
    var k := 0;
    while k < |entities|
      invariant 0 <= k <= |entities|
      invariant items == Unscraped(web, engine, entities[..k])
    {
      assert entities[..k + 1][..k] == entities[..k];
      items := items + [Item(Direct(web.direct(engine, entities[k])), NoLink, engine)];
      k := k + 1;
    }
    assert entities[..k] == entities;
  }

  /** The body of the engine loop of `_use_additional_engines`: an
      unregistered engine, or one in no mode set, adds nothing. */
  method QueryEngine(web: Web, engine: string, subQuestions: seq<string>, top: seq<string>) returns (items: seq<Item>)
    ensures items == EngineItems(web, engine, subQuestions, top)
  {
    items := [];
    if engine in SearchEngines {
      if engine in EnginesUseSubquestions {
        items := QueryEach(web, engine, subQuestions);
      } else if engine in EnginesUseEntities {
        items := QueryEach(web, engine, top);
      } else if engine in EnginesUseEntitiesNoScraping {
        items := DirectEach(web, engine, top);
      }
    }
  }

  lemma AdditionalStep(web: Web, selected: seq<string>, k: nat, subQuestions: seq<string>, top: seq<string>)
    requires k < |selected|
    ensures Additional(web, selected[..k + 1], subQuestions, top)
         == Additional(web, selected[..k], subQuestions, top) + EngineItems(web, selected[k], subQuestions, top)
  {
    assert selected[..k + 1][..k] == selected[..k];
  }

  /** The loop of `_use_additional_engines` over the selected engines. */
  method QueryEngines(web: Web, selected: seq<string>, subQuestions: seq<string>, top: seq<string>) returns (info: seq<Item>)
    ensures info == Additional(web, selected, subQuestions, top)
  {
    info := [];
    var k := 0;
    while k < |selected|
      invariant 0 <= k <= |selected|
      invariant info == Additional(web, selected[..k], subQuestions, top)
    {
      AdditionalStep(web, selected, k, subQuestions, top);
      var items := QueryEngine(web, selected[k], subQuestions, top);
      info := info + items;
      k := k + 1;
    }
    assert selected[..k] == selected;
  }

  /** `_use_additional_engines`: fails as `.items()` does on the list `[]`,
      otherwise gives the records of the selected engines for the top entities. */
  method UseAdditionalEngines(web: Web, selected: seq<string>, subQuestions: seq<string>, entityDic: EntityDic, topN: int)
    returns (r: Result<seq<Item>, string>)
    ensures entityDic.ListValue? ==> r == Failure(ItemsOfList)
    ensures entityDic.Counts? ==>
      r == Success(Additional(web, selected, subQuestions, TopEntities(entityDic.order, entityDic.count, topN)))
  {
    if entityDic.ListValue? {
      return Failure(ItemsOfList);
    }
    var top := TopEntities(entityDic.order, entityDic.count, topN);
    var info := QueryEngines(web, selected, subQuestions, top);
    r := Success(info);
  }

  /** A record for the first link the engine returned for one of the queries. */
  ghost predicate FirstLinkOf(web: Web, engine: string, queries: seq<string>, item: Item)
  {
    && item.engine == engine
    && item.context == Page(web.scrape(item.citation))
    && exists k :: 0 <= k < |queries| && web.links(engine, queries[k]) != [] && item.citation == web.links(engine, queries[k])[0]
  }

  lemma {:induction false} PerQueryShape(web: Web, engine: string, queries: seq<string>)
    ensures |PerQuery(web, engine, queries)| <= |queries|
    ensures forall i :: 0 <= i < |PerQuery(web, engine, queries)| ==> FirstLinkOf(web, engine, queries, PerQuery(web, engine, queries)[i])
  {
    if queries != [] {
      var init, last := queries[..|queries| - 1], queries[|queries| - 1];
      PerQueryShape(web, engine, init);
      var before: seq<Item> := PerQuery(web, engine, init);
      var found: seq<Item> := Scraped(web, engine, Take(web.links(engine, last), 1));
      ScrapedItems(web, engine, Take(web.links(engine, last), 1));
      forall i | 0 <= i < |before| + |found|
        ensures FirstLinkOf(web, engine, queries, (before + found)[i])
      {
        if i < |before| {
          var k :| 0 <= k < |init| && web.links(engine, init[k]) != [] && before[i].citation == web.links(engine, init[k])[0];
          assert queries[k] == init[k];
        } else {
          assert (before + found)[i] == found[i - |before|];
          assert queries[|queries| - 1] == last;
        }
      }
    }
  }

  /** The records follow the queries: those of `a` come before those of `b`,
      and one query gives at most one record, the page of its first link. */
  lemma PerQueryOrder(web: Web, engine: string, a: seq<string>, b: seq<string>)
    ensures PerQuery(web, engine, a + b) == PerQuery(web, engine, a) + PerQuery(web, engine, b)
    ensures forall q :: PerQuery(web, engine, [q]) == Scraped(web, engine, Take(web.links(engine, q), 1))
    ensures forall q :: |PerQuery(web, engine, [q])| <= 1
  {
    PerQueryAppend(web, engine, a, b);
    forall q
      ensures PerQuery(web, engine, [q]) == Scraped(web, engine, Take(web.links(engine, q), 1))
      ensures |PerQuery(web, engine, [q])| <= 1
    {
      PerQueryOne(web, engine, q);
    }
  }

  lemma {:induction false} PerQueryAppend(web: Web, engine: string, a: seq<string>, b: seq<string>)
    ensures PerQuery(web, engine, a + b) == PerQuery(web, engine, a) + PerQuery(web, engine, b)
    decreases |b|
  {
    if b != [] {
      assert (a + b)[..|a + b| - 1] == a + b[..|b| - 1];
      PerQueryAppend(web, engine, a, b[..|b| - 1]);
    } else {
      assert a + b == a;
    }
  }

  lemma PerQueryOne(web: Web, engine: string, q: string)
    ensures PerQuery(web, engine, [q]) == Scraped(web, engine, Take(web.links(engine, q), 1))
    ensures |PerQuery(web, engine, [q])| <= 1
  {
    assert [q][..0] == [];
    ScrapedItems(web, engine, Take(web.links(engine, q), 1));
  }

  lemma {:induction false} UnscrapedShape(web: Web, engine: string, entities: seq<string>)
    ensures |Unscraped(web, engine, entities)| == |entities|
    ensures forall i :: 0 <= i < |entities| ==>
      Unscraped(web, engine, entities)[i] == Item(Direct(web.direct(engine, entities[i])), NoLink, engine)
  {
    if entities != [] {
      UnscrapedShape(web, engine, entities[..|entities| - 1]);
    }
  }

  /** What one engine contributes, by mode: nothing when it is unregistered
      or in no mode set; at most one scraped record per sub-question or per
      top entity; exactly one unlinked record per top entity for the
      no-scrape engines. Every record names the engine that produced it. */
  lemma EngineItemsShape(web: Web, engine: string, subQuestions: seq<string>, top: seq<string>)
    ensures var r := EngineItems(web, engine, subQuestions, top);
      && (forall i :: 0 <= i < |r| ==> r[i].engine == engine)
      && (ModeOf(engine) == Unrouted ==> r == [])
      && (ModeOf(engine) == BySubquestion ==>
            |r| <= |subQuestions| && forall i :: 0 <= i < |r| ==> FirstLinkOf(web, engine, subQuestions, r[i]))
      && (ModeOf(engine) == ByEntity ==>
            |r| <= |top| && forall i :: 0 <= i < |r| ==> FirstLinkOf(web, engine, top, r[i]))
      && (ModeOf(engine) == ByEntityNoScraping ==>
            |r| == |top| && forall i :: 0 <= i < |r| ==> r[i] == Item(Direct(web.direct(engine, top[i])), NoLink, engine))
  {
    match ModeOf(engine) {
      case BySubquestion => PerQueryShape(web, engine, subQuestions);
      case ByEntity => PerQueryShape(web, engine, top);
      case ByEntityNoScraping => UnscrapedShape(web, engine, top);
      case Unrouted =>
    }
  }

  lemma {:induction false} AdditionalBound(web: Web, engines: seq<string>, subQuestions: seq<string>, top: seq<string>)
    ensures |Additional(web, engines, subQuestions, top)| <= |engines| * (|subQuestions| + |top|)
  {
    if engines != [] {
      var n := |subQuestions| + |top|;
      AdditionalBound(web, engines[..|engines| - 1], subQuestions, top);
      EngineItemsShape(web, engines[|engines| - 1], subQuestions, top);
      assert |EngineItems(web, engines[|engines| - 1], subQuestions, top)| <= n;
      assert (|engines| - 1) * n + n == |engines| * n;
    }
  }

  lemma EngineItemsTagged(web: Web, engine: string, subQuestions: seq<string>, top: seq<string>)
    ensures forall i :: 0 <= i < |EngineItems(web, engine, subQuestions, top)| ==>
      EngineItems(web, engine, subQuestions, top)[i].engine == engine
  {
    EngineItemsShape(web, engine, subQuestions, top);
  }

  /** Every record names one of the selected engines. */
  lemma {:induction false} AdditionalNamed(web: Web, engines: seq<string>, subQuestions: seq<string>, top: seq<string>)
    ensures forall i :: 0 <= i < |Additional(web, engines, subQuestions, top)| ==>
      Additional(web, engines, subQuestions, top)[i].engine in engines
  {
    if engines != [] {
      var init, last := engines[..|engines| - 1], engines[|engines| - 1];
      AdditionalNamed(web, init, subQuestions, top);
      EngineItemsTagged(web, last, subQuestions, top);
      var before: seq<Item>, own: seq<Item> := Additional(web, init, subQuestions, top), EngineItems(web, last, subQuestions, top);
      forall i | 0 <= i < |before + own| ensures (before + own)[i].engine in engines {
        if i < |before| {
          assert (before + own)[i] == before[i];
          var x :| 0 <= x < |init| && init[x] == before[i].engine;
          assert engines[x] == init[x];
        } else {
          assert (before + own)[i] == own[i - |before|];
        }
      }
    }
  }

  /** The index of the first occurrence of `x` in `s`, or `|s|` when absent. */
  function Position(s: seq<string>, x: string): (r: nat)
    ensures r <= |s|
    ensures r < |s| <==> x in s
    ensures r < |s| ==> s[r] == x
  {
    if s == [] then 0 else if s[0] == x then 0 else 1 + Position(s[1..], x)
  }

  lemma {:induction false} PositionAppend(a: seq<string>, b: seq<string>, x: string)
    ensures Position(a + b, x) == if x in a then Position(a, x) else |a| + Position(b, x)
  {
    if a != [] {
      assert (a + b)[1..] == a[1..] + b;
      PositionAppend(a[1..], b, x);
    } else {
      assert a + b == b;
    }
  }

  /** Records listed by non-decreasing rank of their engine in `engines`. */
  predicate GroupedBy(items: seq<Item>, engines: seq<string>)
  {
    forall i, j :: 0 <= i < j < |items| ==> Position(engines, items[i].engine) <= Position(engines, items[j].engine)
  }

  /** Appending the records of a new last engine keeps the grouping. */
  lemma GroupedAppend(before: seq<Item>, own: seq<Item>, init: seq<string>, last: string)
    requires last !in init
    requires GroupedBy(before, init)
    requires forall k :: 0 <= k < |before| ==> before[k].engine in init
    requires forall k :: 0 <= k < |own| ==> own[k].engine == last
    ensures GroupedBy(before + own, init + [last])
  {
    var engines, all := init + [last], before + own;
    PositionAppend(init, [last], last);
    forall k | 0 <= k < |before| ensures Position(engines, before[k].engine) == Position(init, before[k].engine) < |init| {
      PositionAppend(init, [last], before[k].engine);
    }
    forall i, j | 0 <= i < j < |all|
      ensures Position(engines, all[i].engine) <= Position(engines, all[j].engine)
    {
      if j >= |before| {
        // a record of the last engine: its rank is the largest one
        assert all[j] == own[j - |before|];
        if i >= |before| {
          assert all[i] == own[i - |before|];
        } else {
          assert all[i] == before[i];
        }
      } else {
        assert all[i] == before[i] && all[j] == before[j];
      }
    }
  }

  /** With distinct engine names, the records are grouped by engine in the
      order the engines were selected. */
  lemma {:induction false} AdditionalGrouped(web: Web, engines: seq<string>, subQuestions: seq<string>, top: seq<string>)
    requires forall a, b :: 0 <= a < b < |engines| ==> engines[a] != engines[b]
    ensures forall i, j :: 0 <= i < j < |Additional(web, engines, subQuestions, top)| ==>
      Position(engines, Additional(web, engines, subQuestions, top)[i].engine)
        <= Position(engines, Additional(web, engines, subQuestions, top)[j].engine)
  {
    if engines != [] {
      var init, last := engines[..|engines| - 1], engines[|engines| - 1];
      assert engines == init + [last];
      assert last !in init;
      AdditionalGrouped(web, init, subQuestions, top);
      AdditionalNamed(web, init, subQuestions, top);
      EngineItemsTagged(web, last, subQuestions, top);
      GroupedAppend(Additional(web, init, subQuestions, top), EngineItems(web, last, subQuestions, top), init, last);
    }
    assert GroupedBy(Additional(web, engines, subQuestions, top), engines);
  }

  // ---------------------------------------------------------------------
  // _get_images

  /** The images kept for one entity: its first `topImages` art results,
      then its first `topImages` image-search results. */
  function EntityImages(web: Web, e: string, topImages: int): seq<string>
  {
    Take(web.deviantart(e), topImages) + Take(web.googleImages(e), topImages)
  }

  /** The images of `_get_images`, entity after entity. */
  function ImagesOf(web: Web, entities: seq<string>, topImages: int): seq<string>
  {
    if entities == [] then []
    else ImagesOf(web, entities[..|entities| - 1], topImages) + EntityImages(web, entities[|entities| - 1], topImages)
  }

  lemma ImagesStep(web: Web, top: seq<string>, k: nat, topImages: int)
    requires k < |top|
    ensures ImagesOf(web, top[..k + 1], topImages) == ImagesOf(web, top[..k], topImages) + EntityImages(web, top[k], topImages)
  {
    assert top[..k + 1][..k] == top[..k];
  }

  method GetImages(web: Web, entityDic: EntityDic, topN: int, topImages: int) returns (r: Result<seq<string>, string>)
    ensures entityDic.ListValue? ==> r == Failure(ItemsOfList)
    ensures entityDic.Counts? ==> r == Success(ImagesOf(web, TopEntities(entityDic.order, entityDic.count, topN), topImages))
  {
    if entityDic.ListValue? {
      return Failure(ItemsOfList);
    }
    var top := TopEntities(entityDic.order, entityDic.count, topN);
    var outputs := ImagesEach(web, top, topImages);
    r := Success(outputs);
  }

  /** The loop of `_get_images` over the top entities. */
  method ImagesEach(web: Web, top: seq<string>, topImages: int) returns (outputs: seq<string>)
    ensures outputs == ImagesOf(web, top, topImages)
  {
    outputs := [];
    var k := 0;
    while k < |top|
      invariant 0 <= k <= |top|
      invariant outputs == ImagesOf(web, top[..k], topImages)
    {
      var e := top[k];
      ImagesStep(web, top, k, topImages);
      var art := Take(web.deviantart(e), topImages);
      var pictures := Take(web.googleImages(e), topImages);
      ConcatAssoc(outputs, art, pictures);
      outputs := outputs + art;
      outputs := outputs + pictures;
      k := k + 1;
    }
    assert top[..k] == top;
  }

  /** At most `2 * topImages` images per entity. */
  lemma {:induction false} ImagesBound(web: Web, entities: seq<string>, topImages: int)
    requires topImages >= 0
    ensures |ImagesOf(web, entities, topImages)| <= 2 * topImages * |entities|
  {
    if entities != [] {
      ImagesBound(web, entities[..|entities| - 1], topImages);
      assert 2 * topImages * (|entities| - 1) + 2 * topImages == 2 * topImages * |entities|;
    }
  }

  /** For one entity the art results come before the image-search results. */
  lemma ImagesOfOne(web: Web, e: string, topImages: int)
    ensures ImagesOf(web, [e], topImages) == Take(web.deviantart(e), topImages) + Take(web.googleImages(e), topImages)
  {
    assert [e][..0] == [];
  }

  /** The images follow the entity order. */
  lemma {:induction false} ImagesOrder(web: Web, a: seq<string>, b: seq<string>, topImages: int)
    ensures ImagesOf(web, a + b, topImages) == ImagesOf(web, a, topImages) + ImagesOf(web, b, topImages)
    decreases |b|
  {
    if b != [] {
      var init, e := b[..|b| - 1], b[|b| - 1];
      assert (a + b)[..|a + b| - 1] == a + init;
      assert (a + b)[|a + b| - 1] == e;
      ImagesOrder(web, a, init, topImages);
    } else {
      assert a + b == a;
    }
  }

  // ---------------------------------------------------------------------
  // _find_engines and main

  /** `_find_engines`: the router's defaults applied to the checked tags. */
  function SelectedEngines(table: EngineRouter.WeightTable, tags: seq<string>): seq<string>
  {
    EngineRouter.Ranked(table, EngineRouter.ValidateTags(tags, EngineRouter.Tags), EngineRouter.DefaultTopN, EngineRouter.DefaultMinScore)
  }

  method FindEngines(table: EngineRouter.WeightTable, tags: seq<string>) returns (engines: seq<string>)
    ensures engines == SelectedEngines(table, tags)
  {
    var checked := EngineRouter.ValidateTags(tags, EngineRouter.Tags);
    engines := EngineRouter.RankEngines(table, checked, EngineRouter.DefaultTopN, EngineRouter.DefaultMinScore);
  }

  /** The answer of `main` (its token count left out). */
  datatype Response = Response(query: string, info: seq<Item>, images: seq<string>)

  const TopN: int := 2
  const TopImages: int := 3

  /** What `main` returns for a parsed decomposition, or the error it raises. */
  function Respond(web: Web, table: EngineRouter.WeightTable, query: string, p: Parsed): Result<Response, string>
  {
    match p.entityDic
    case ListValue => Failure(ItemsOfList)
    case Counts(order, count) =>
      var top := TopEntities(order, count, TopN);
      Success(Response(query,
        Baseline(web, p.subQueries) + Additional(web, SelectedEngines(table, p.tags), p.subQueries, top),
        ImagesOf(web, top, TopImages)))
  }

  /** `SearchBot.main` for the decomposition the prompt analyser produced. */
  method Answer(web: Web, table: EngineRouter.WeightTable, query: string, d: PromptAnalyser.Decomposition)
    returns (r: Result<Response, string>)
    ensures r == Respond(web, table, query, Subquestions(d))
  {
    var result := GetSubquestions(d);
    var engines := FindEngines(table, result.tags);
    var info1 := BaseLineQueries(web, result.subQueries);
    var info2 := UseAdditionalEngines(web, engines, result.subQueries, result.entityDic, TopN);
    if info2.Failure? {
      return Failure(info2.error);
    }
    var images := GetImages(web, result.entityDic, TopN, TopImages);
    r := Success(Response(query, info1 + info2.value, images.value));
  }

  /** The router is handed tags the classifier already checked, so checking
      them again in `_find_engines` changes nothing. */
  lemma FindEnginesOnClassifiedTags(table: EngineRouter.WeightTable, items: seq<PromptAnalyser.JsonValue>)
    ensures SelectedEngines(table, PromptAnalyser.ClassifyTags(PromptAnalyser.TagList(items)))
         == EngineRouter.Ranked(table, PromptAnalyser.ClassifyTags(PromptAnalyser.TagList(items)),
                                EngineRouter.DefaultTopN, EngineRouter.DefaultMinScore)
  {
    PromptAnalyser.ClassifyTagsValidates(items);
    EngineRouter.ValidateTagsIdempotent(PromptAnalyser.Strings(items), EngineRouter.Tags);
  }

  /** At most `topN` entities are chosen, and at least one when the counter is not empty. */
  lemma TopEntitiesBound(order: seq<string>, count: map<string, nat>, topN: int)
    ensures topN >= 0 ==> |TopEntities(order, count, topN)| <= if topN >= 1 then topN else 1
  {
    var sorted := SortDesc(Items(order, count), CountKey);
    var top := Take(Filter(sorted, MoreThanOnce), topN);
    if top == [] {
      assert |TopPairs(order, count, topN)| == |Take(sorted, 1)| <= 1;
    } else {
      assert TopPairs(order, count, topN) == top;
    }
  }

  /** A successful answer holds at most four records per sub-question plus
      four, and at most twelve images. */
  lemma ResponseBounds(web: Web, table: EngineRouter.WeightTable, query: string, p: Parsed)
    requires p.entityDic.Counts?
    ensures Respond(web, table, query, p).Success?
    ensures |Respond(web, table, query, p).value.info| <= 4 * |p.subQueries| + 4
    ensures |Respond(web, table, query, p).value.images| <= 12
    ensures Respond(web, table, query, p).value.query == query
  {
    var top := TopEntities(p.entityDic.order, p.entityDic.count, TopN);
    var engines := SelectedEngines(table, p.tags);
    TopEntitiesBound(p.entityDic.order, p.entityDic.count, TopN);
    InfoBound(web, engines, p.subQueries, top);
    ImagesBound(web, top, TopImages);
    assert 2 * TopImages * |top| <= 12;
  }

  lemma InfoBound(web: Web, engines: seq<string>, subQuestions: seq<string>, top: seq<string>)
    requires |engines| <= 2 && |top| <= 2
    ensures |Baseline(web, subQuestions) + Additional(web, engines, subQuestions, top)| <= 4 * |subQuestions| + 4
  {
    var n := |subQuestions| + |top|;
    BaselineShape(web, subQuestions);
    AdditionalBound(web, engines, subQuestions, top);
    var e := |engines|;
    assert e * n <= 2 * n by {
      if e == 0 { assert e * n == 0; } else if e == 1 { assert e * n == n; } else { assert e == 2; }
    }
    var b, a := Baseline(web, subQuestions), Additional(web, engines, subQuestions, top);
    assert |b + a| == |b| + |a|;
    assert |a| <= 2 * n <= 2 * |subQuestions| + 4;
  }

  /** A decomposition that failed yields an answer with the query and nothing else. */
  lemma FailedDecompositionDegrades(web: Web, table: EngineRouter.WeightTable, query: string)
    ensures Respond(web, table, query, Subquestions(PromptAnalyser.Failed)) == Success(Response(query, [], []))
  {
    var p := Subquestions(PromptAnalyser.Failed);
    assert p == Parsed([], Counts([], map[]), [], None);
    EngineRouter.NoTagsNoEngines(table, EngineRouter.DefaultTopN, EngineRouter.DefaultMinScore);
    assert EngineRouter.ValidateTags([], EngineRouter.Tags) == [];
    var none: map<string, nat> := map[];
    TopEntitiesEmptyIff([], none, TopN);
    assert TopEntities([], none, TopN) == [];
    var noText: seq<string> := [];
    assert SelectedEngines(table, noText) == [];
    var info := Baseline(web, noText) + Additional(web, SelectedEngines(table, noText), noText, TopEntities([], none, TopN));
    assert info == [];
    assert ImagesOf(web, TopEntities([], none, TopN), TopImages) == [];
    assert Respond(web, table, query, p) == Success(Response(query, info, ImagesOf(web, TopEntities([], none, TopN), TopImages)));
  }

  // ---------------------------------------------------------------------
  // The parse-failure counter

  /** As written: one sub-query element that is not a record makes `main`
      raise at `.items()` instead of answering. */
  lemma MalformedDecompositionCrashes(web: Web, table: EngineRouter.WeightTable, query: string,
                                      d: PromptAnalyser.Decomposition, k: nat)
    requires d.Decomposed? && k < |d.subQueries| && d.subQueries[k].NotRecord?
    ensures Respond(web, table, query, Subquestions(d)) == Failure(ItemsOfList)
  {
    MalformedDecompositionGivesList(d, k);
  }

  /** `_get_subquestions` with the empty dict `{}` on the failure path, as
      the other failure (the error object) already gives. */
  function SubquestionsCorrected(d: PromptAnalyser.Decomposition): Parsed
  {
    match d
    case Failed => Parsed([], EmptyDic, [], None)
    case Decomposed(sqs, tags, _, complexity) =>
      if AllRecords(sqs) then Parsed(SubQueryTexts(sqs), Tally(EntitiesOf(sqs)), tags, Some(complexity.complexityScore))
      else Parsed([], EmptyDic, [], None)
  }

  /** With the correction `main` always answers; a malformed decomposition
      degrades to an empty answer, and every other one is read as before. */
  lemma CorrectedDecompositionNeverCrashes(web: Web, table: EngineRouter.WeightTable, query: string,
                                           d: PromptAnalyser.Decomposition)
    ensures Respond(web, table, query, SubquestionsCorrected(d)).Success?
    ensures d.Failed? || AllRecords(d.subQueries) ==> SubquestionsCorrected(d) == Subquestions(d)
    ensures d.Decomposed? && !AllRecords(d.subQueries) ==>
      Respond(web, table, query, SubquestionsCorrected(d)) == Success(Response(query, [], []))
  {
    if d.Decomposed? {
      TallyCounts(EntitiesOf(d.subQueries));
      if !AllRecords(d.subQueries) {
        FailedDecompositionDegrades(web, table, query);
        assert SubquestionsCorrected(d) == Subquestions(PromptAnalyser.Failed);
      }
    }
  }
}
