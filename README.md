# Multi-engine search bot: routing, prompt analysis and orchestration

This project models, in Dafny, the core of a search assistant. The assistant
takes a user query and returns cited context from several search engines plus
a few images. Three parts are modelled:

- **Engine routing** (`engine_router.dfy`, module `EngineRouter`). Topic tags
  are filtered against a closed 40-tag vocabulary. Each engine of the weight
  table gets the mean of its weights over the matched tags. Engines scoring at
  least the threshold (default 0.6) are sorted by score, with a stable
  descending sort, and the best `top_n` (default 2) are kept.
- **Prompt analysis** (`prompt_analyser.dfy`, module `PromptAnalyser`). This
  covers:
  - removing Markdown code fences from a model reply;
  - keeping only vocabulary tags from the tag classifier's reply;
  - the complexity metrics and the weighted 0–100 complexity score;
  - the three complexity tiers that pick the decomposer's instruction suffix
    and token budget;
  - how the decomposer's reply is shaped into a decomposition.
- **Orchestration** (`search_bot.dfy`, module `SearchBot`). This covers:
  - reading the decomposition back, counting how often each entity is
    mentioned (a dict in insertion order);
  - the result-count formula;
  - engine selection;
  - the baseline Google queries;
  - picking the top entities: counted more than once, by descending count,
    cut at `top_n`, falling back to the single best one;
  - dispatching each selected engine by its mode;
  - the image search;
  - assembling the final answer.

`sorting.dfy` (module `Sorting`) models Python's stable `sorted(...,
reverse=True)` as an insertion sort. It proves the sort is a permutation,
ordered and stable. `prelude.dfy` (module `Prelude`) holds Python slicing
(`s[:n]`, including negative `n`), list-comprehension filters and a
subsequence relation.

Every external service becomes a function value or a parameter:
- the LLM calls;
- spaCy entity recognition;
- the engine adapters;
- the page scraper;
- the image searches.

A reply the LLM sends back is an input datatype (`TagReply`, `Reply`). The
services the bot calls are the fields of `Web`. The recognised entities and
the weight table are parameters. A loop that updates variables in the source
is a method with a loop, proved equal to a specification function. The
properties are proved about that function.

## Model

| member | source | states |
|---|---|---|
| EngineRouter.ValidateTags | src/engine_router.py:19-20 | each tag is kept as often as it occurs if it is in the vocabulary, and dropped otherwise; the result is no longer than the input |
| EngineRouter.ValidateTagsKeepsOrder | src/engine_router.py:19-20 | the kept tags appear in their input order (a subsequence of the input) |
| EngineRouter.ValidateTagsIdempotent | src/engine_router.py:19-20 | checking already-checked tags changes nothing |
| EngineRouter.ScoreDefinedIffSomeTagMatches | src/engine_router.py:46-57 | an engine gets a mean score exactly when at least one tag has a weight for it |
| EngineRouter.RankEngines | src/engine_router.py:25-77 | the nested scoring loops, the sort and the `[:top_n]` cut return exactly the ranking function `Ranked` |
| EngineRouter.CandidateMember | src/engine_router.py:38-61 | a scored pair is a candidate exactly when some table entry has that name, a defined mean equal to the score, and a score at least the threshold |
| EngineRouter.RankedSound | src/engine_router.py:38-74 | every returned engine passed the threshold with a matched tag; scores do not increase along the result; at most `top_n` come back for `top_n >= 0`; none comes twice |
| EngineRouter.UnmatchedEngineNeverRanked | src/engine_router.py:46-66 | an engine with no weight for any given tag is never returned, whatever the threshold |
| EngineRouter.RankedStable | src/engine_router.py:68-74 | engines with equal scores keep their table order (the sort is stable) |
| EngineRouter.RankedKeepsBest | src/engine_router.py:68-74 | if a passing engine is cut, the result is full (`top_n` engines) and each returned engine scores at least as high as it |
| EngineRouter.NoTagsNoEngines | src/engine_router.py:46-66 | with no tags no engine is selected |
| EngineRouter.RankedIgnoresTagOrder | src/engine_router.py:46-57 | reordering the tags (same multiset) does not change the ranking |
| EngineRouter.MatchedPermutation | src/engine_router.py:46-51 | the matched weights of two reorderings of the tags are the same multiset |
| EngineRouter.SumPermutation | src/engine_router.py:49 | a sum of weights does not depend on their order |
| EngineRouter.ScienceResearchExample | src/engine_router.py:38-74 | with arxiv weighted 0.9/0.8 on science/research and steam only on games, tags [science, research] select [arxiv] |
| Sorting.SortDescCorrect | src/engine_router.py:68 | the descending sort is a permutation, in non-increasing key order, and stable per key |
| Sorting.SubsequenceSorted | src/main.py:102 | filtering a sorted list keeps it sorted |
| PromptAnalyser.Strip | src/llm_prompt_analyser.py:44 | `str.strip()`: the result is the input with only whitespace cut from its front and its back, it has no surrounding whitespace left, and an already stripped string is unchanged |
| PromptAnalyser.StripCodeBlock | src/llm_prompt_analyser.py:40-45 | text without a leading fence comes back unchanged; fenced text loses at least the three backticks and comes back stripped |
| PromptAnalyser.StripCodeBlockRoundTrip | src/llm_prompt_analyser.py:40-45 | for any letters-only language tag and any stripped body, removing the fences of "```lang\nbody\n```" gives back the body |
| PromptAnalyser.StripCodeBlockJsonExample | src/llm_prompt_analyser.py:40-45 | "```json\n[1]\n```" becomes "[1]" |
| PromptAnalyser.ClassifyTags | src/llm_prompt_analyser.py:99-106 | a reply that is not a list (or fails to parse) gives no tags; every tag returned is in the vocabulary |
| PromptAnalyser.ClassifyTagsValidates | src/llm_prompt_analyser.py:101-103 | the classifier's filter is the router's `validate_tags` applied to the string items of the list |
| PromptAnalyser.WordsFacts | src/llm_prompt_analyser.py:111 | `str.split()` yields non-empty words free of whitespace, exactly as many as the text has word starts (a non-whitespace character at the front or after whitespace), so `word_count` counts the maximal non-whitespace runs; their total length fits in the text |
| PromptAnalyser.SplitOnFacts | src/llm_prompt_analyser.py:112 | `split('.')` yields one more piece than there are dots, no piece holds a dot, and joining them with dots gives the text back |
| PromptAnalyser.OccurrencesFacts | src/llm_prompt_analyser.py:126 | `str.count` counts non-overlapping occurrences, so count × pattern length fits in the text; the count is positive exactly when the pattern occurs |
| PromptAnalyser.SpecialInstructionsInsideWords | src/llm_prompt_analyser.py:116 | the keyword test is a substring test: "life" counts as special instructions (it contains "if") |
| PromptAnalyser.AverageWordLength | src/llm_prompt_analyser.py:120-123 | the average word length is non-negative, and at least 1 when the prompt has words |
| PromptAnalyser.WeightedScore | src/llm_prompt_analyser.py:130-137 | the weighted score lies in [0, 100], and is at least 5 since the idea count starts at 1 |
| PromptAnalyser.CountIdeas | src/llm_prompt_analyser.py:124-126 | the idea loop gives one plus the space-delimited indicator hits in the lowered prompt |
| PromptAnalyser.AnalyzePromptComplexity | src/llm_prompt_analyser.py:108-139 | the metrics are exactly `Complexity(prompt, entities)` (character count, at least one idea, score in [5, 100], at most one sentence more than dots) |
| PromptAnalyser.TierBudgetMonotone | src/llm_prompt_analyser.py:160-171 | a higher complexity score never gets a smaller completion budget |
| PromptAnalyser.DecomposePrompt | src/llm_prompt_analyser.py:141-224 | the request carries the prompt, the tier's instructions and budget, the classified tags, the entities and the metrics; a list reply is wrapped as the sub-queries, an object reply keeps its sub-queries, and any other reply or failure gives the error object |
| SearchBot.ModeOf | src/main.py:111-141 | an engine is queried per sub-question, per entity (scraped) or per entity (unscraped) exactly when it is registered and in that mode's set |
| SearchBot.ModeSetsDisjoint | src/main.py:18-21 | the three mode sets are disjoint and registered; deviantart, jina_search and google_images are routed by none |
| SearchBot.GetSubquestions | src/main.py:30-65 | the parsing loop returns exactly `Subquestions(d)`: texts and counter for all-record input, the list `[]` as counter once an element is not a record, and empty fields for the error object |
| SearchBot.CountEntities | src/main.py:41-45 | counting one sub-query's entities extends the counter as counting all mentions so far would |
| SearchBot.TallyCounts | src/main.py:41-45 | the counter's keys are exactly the mentioned entities, each listed once, in the order of their first mention, with its number of mentions (at least 1) |
| SearchBot.TallySum | src/main.py:41-45 | the counts add up to the number of entity mentions |
| SearchBot.SubquestionsOfRecords | src/main.py:38-56 | for all-record input: one text per sub-query, in order; the counter counts every mention; the tags are passed through |
| SearchBot.MalformedDecompositionGivesList | src/main.py:57-65 | one non-record sub-query element makes the counter the list `[]` and empties everything else |
| SearchBot.NumResults | src/main.py:67-75 | 3 + floor(score / 10) + number of sub-questions, stated as the floor's defining inequalities; at least 3 + sub-questions for a non-negative score |
| SearchBot.NumResultsMonotone | src/main.py:67-75 | a higher score never asks for fewer results |
| SearchBot.FindEngines | src/main.py:77-81 | the engines are the router's ranking of the checked tags with the default `top_n` and threshold |
| SearchBot.FindEnginesOnClassifiedTags | src/main.py:77-81 | on tags the classifier produced, checking them again changes nothing |
| SearchBot.BaseLineQueries | src/main.py:83-94 | the two loops return exactly `Baseline`: the first two Google links of each sub-question, each scraped |
| SearchBot.BaselineShape | src/main.py:83-94 | at most two records per sub-question; each is a Google record of a scraped page cited by one of the first two links of some sub-question |
| SearchBot.BaselineOrder | src/main.py:86-93 | records follow the sub-question order, and one sub-question yields its first two links scraped in order |
| SearchBot.TopEntitiesEmptyIff | src/main.py:99-109 | no top entity exactly when no entity was counted |
| SearchBot.TopEntitiesOrdered | src/main.py:99-109 | the chosen pairs are pairs of the counter, in non-increasing count, and equal counts keep insertion order |
| SearchBot.TopEntitiesChoice | src/main.py:99-106 | either all chosen entities were counted more than once and there are at most `top_n`, or the fallback chose exactly one entity of maximal count |
| SearchBot.TopEntitiesKeepBest | src/main.py:99-106 | any entity counted more than once that was not chosen is counted no more than every chosen one |
| SearchBot.TopEntitiesBound | src/main.py:102-106 | for `top_n >= 0`, at most `max(top_n, 1)` entities are chosen |
| SearchBot.TeslaExample | src/main.py:99-109 | counts {Tesla: 3, SpaceX: 1, Mars: 1} with `top_n` 2 choose only Tesla |
| SearchBot.QueryEngine | src/main.py:112-141 | one engine contributes exactly `EngineItems` for its mode |
| SearchBot.UseAdditionalEngines | src/main.py:96-142 | the list `[]` counter fails as `.items()` does; otherwise the records are exactly `Additional` of the top entities |
| SearchBot.EngineItemsShape | src/main.py:111-141 | every record names its engine; an unregistered or unrouted engine adds none; a link engine adds at most as many records as queries, each the scraped page of the first link returned for one of its queries; a no-scrape engine adds exactly one unlinked record per entity, in entity order |
| SearchBot.PerQueryOrder | src/main.py:117-134 | a link engine's records follow its queries: those of earlier queries come first, and one query gives at most one record, the page of its first link |
| SearchBot.AdditionalBound | src/main.py:111-141 | at most (sub-questions + top entities) records per selected engine |
| SearchBot.AdditionalNamed | src/main.py:111-141 | every record is tagged with one of the selected engines |
| SearchBot.AdditionalGrouped | src/main.py:111-141 | with distinct engine names, the records are grouped by engine in selection order |
| SearchBot.GetImages | src/main.py:144-163 | the list `[]` counter fails; otherwise the images are exactly `ImagesOf` the top entities |
| SearchBot.ImagesBound | src/main.py:160-162 | at most `2 * top_images` images per entity |
| SearchBot.ImagesOfOne | src/main.py:161-162 | for one entity, its first art results come before its first image-search results |
| SearchBot.ImagesOrder | src/main.py:160-162 | the images follow the entity order (they concatenate over a split of the entities) |
| SearchBot.Answer | src/main.py:182-206 | `main` returns exactly `Respond` of the parsed decomposition: the query, baseline records followed by the engines' records, and the images, or the failure from `.items()` on `[]`, the one failure the model has since its services never raise |
| SearchBot.ResponseBounds | src/main.py:182-204 | for a dict counter the answer succeeds, keeps the query, has at most 4 × sub-questions + 4 records and at most 12 images |
| SearchBot.FailedDecompositionDegrades | src/main.py:182-204 | when decomposition fails, the answer is the query with no records and no images |
| SearchBot.MalformedDecompositionCrashes | src/main.py:57-65 | as written: a decomposition with one non-object sub-query makes `main` fail |
| SearchBot.CorrectedDecompositionNeverCrashes | src/main.py:57-65 | with an empty dict on the failure path, `main` always succeeds; it agrees with the code whenever the code succeeds, and yields an empty answer otherwise |

## Left out

- LLM calls, spaCy entity recognition, the engine adapters, the scraper and the image searches: their results are inputs (`TagReply`, `Reply`, the `entities` parameter, the `Web` function values). The `Web` values are fixed, so repeated queries get the same answer. The deviantart, google_images and jina_search adapter sources are not part of this model.
- Service failures: every service is a total function in the model, so `SearchBot.Answer` fails only at `.items()`. In the source nothing in `main` catches an exception raised by a search adapter, by `jina` or by an image search (src/main.py:87, 119, 128, 138, 161-162); `get_google_urls` raises `ValueError` when its API keys are missing (engines/google.py:44-45). Any such exception aborts `main`, and the model does not represent it.
- The weight table is a parameter. Loading it from YAML is not modelled. Its engine names are distinct as YAML mapping keys; only the properties that need this require `DistinctNames`.
- Floating point: scores are exact reals. `round(score, 2)` in `analyze_prompt_complexity` is not applied. Division and `min` are exact.
- PromptAnalyser.Lower: only ASCII letters are lowered, not full Unicode case mapping.
- `_check_tokens` and the `tokens` field of the answer call a remote token counter, so they are left out.
- The `print` calls and the `debug` output of `rank_engines` are left out.
- The worked example in the decomposer template, the temperatures, the JSON re-encoding with `CustomJSONEncoder`, `token_usage`, and the string `'True'`/`'False'` metrics fields are not modelled. The decomposition keeps the metrics as a `Metrics` value.
- A record without `sub_query` yields `None` in the source; the model needs a text for every record.
- `complexity_score` is read back as a real, or `None` on the failure paths. The parse-failure path gives `[]` in the source.
- `classify_tags` receives the reply after `strip` and `strip_code_block` and `json.loads`. The model takes the parsed JSON value.
- `decompose_prompt` returns the decomposition as a value, not as JSON text; `_get_subquestions` reads that value. Any exception between the two maps to `Failed` or to the `[]` counter, as in the source.
- Concurrency and retries are not modelled. The code has none.
- The api server and the engine adapters beyond their registry names are out of scope.
- SearchBot.TopEntitiesBound: the bound is stated only for `top_n >= 0`. A negative `top_n` slices from the end, and the model's `Take` follows Python there.
- PromptAnalyser.StripCodeBlock: states the unfenced case, the length bound and the stripped result; it does not state which infix of the input is returned. The round trip is stated for fenced input of the usual shape.

## Findings

| source | as written | input that shows it | evidently intended | confidence | as-written member | corrected member |
|---|---|---|---|---|---|---|
| src/main.py:57-65 | the parse-failure path of `_get_subquestions` returns `entity_dic` as the list `[]`; `_use_additional_engines` then calls `entity_dic.items()` (line 99), which raises `AttributeError`, and `main` fails | a decomposition whose `sub_queries` holds one element that is not a JSON object, e.g. `{"sub_queries": ["x"]}` | an empty dict `{}`, giving an answer with no records and no images | not executed | SearchBot.MalformedDecompositionCrashes | SearchBot.CorrectedDecompositionNeverCrashes |
