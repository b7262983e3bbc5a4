/** Prompt pre- and post-processing (src/llm_prompt_analyser.py): removing a
    Markdown code fence from a model reply, keeping the vocabulary tags of the
    tag classifier's reply, the counting metrics and the capped complexity
    score of a prompt, and the token budget and reply shaping of the
    decomposition request. The language-model calls and the spaCy entity
    recogniser are inputs: their parsed replies are parameters. */
module PromptAnalyser {
  import opened Prelude
  import EngineRouter

  // ---------------------------------------------------------------------
  // Characters and strings, as Python's str methods see them

  /** Python's `str.isspace`, which `split()` and `strip()` use. */
  predicate IsSpace(c: char)
  {
    c in {' ', '\t', '\n', '\r', '\U{0B}', '\U{0C}', '\U{1C}', '\U{1D}', '\U{1E}', '\U{1F}',
          '\U{85}', '\U{A0}', '\U{1680}', '\U{2028}', '\U{2029}', '\U{202F}', '\U{205F}', '\U{3000}'}
    || ('\U{2000}' <= c <= '\U{200A}')
  }

  predicate IsAsciiLetter(c: char)
  {
    ('a' <= c <= 'z') || ('A' <= c <= 'Z')
  }

  function LowerChar(c: char): char
  {
    if 'A' <= c <= 'Z' then (c as int + 32) as char else c
  }

  /** `str.lower()` on ASCII letters; other characters are kept. */
  function Lower(s: string): (r: string)
    ensures |r| == |s|
  {
    seq(|s|, i requires 0 <= i < |s| => LowerChar(s[i]))
  }

  /** Number of whitespace characters the text starts with. */
  function LeadingSpaces(s: string): (n: nat)
    ensures n <= |s|
    ensures forall i :: 0 <= i < n ==> IsSpace(s[i])
    ensures n < |s| ==> !IsSpace(s[n])
  {
    if s == [] || !IsSpace(s[0]) then 0 else 1 + LeadingSpaces(s[1..])
  }

  /** Number of whitespace characters the text ends with. */
  function TrailingSpaces(s: string): (n: nat)
    ensures n <= |s|
    ensures n < |s| ==> !IsSpace(s[|s| - 1 - n])
    ensures n > 0 ==> IsSpace(s[|s| - 1])
    ensures forall i :: |s| - n <= i < |s| ==> IsSpace(s[i])
  {
    if s == [] || !IsSpace(s[|s| - 1]) then 0 else 1 + TrailingSpaces(s[..|s| - 1])
  }

  /** A stripped string neither starts nor ends with whitespace. */
  predicate IsStripped(s: string)
  {
    s == [] || (!IsSpace(s[0]) && !IsSpace(s[|s| - 1]))
  }

  /** The whitespace `TrailingSpaces` counts after the leading whitespace
      ends the text itself. */
  lemma StripBounds(s: string, a: nat, b: nat)
    requires a <= |s| && b == TrailingSpaces(s[a..])
    ensures a <= |s| - b
    ensures forall k :: |s| - b <= k < |s| ==> IsSpace(s[k])
    ensures a < |s| - b ==> !IsSpace(s[|s| - b - 1])
  {
    var t := s[a..];
    forall k | |s| - b <= k < |s| ensures IsSpace(s[k]) {
      assert s[k] == t[k - a];
    }
    if a < |s| - b {
      assert s[|s| - b - 1] == t[|t| - 1 - b];
    }
  }

  /** `str.strip()` without arguments: the result is the text with its
      leading and trailing whitespace cut off and nothing else, it has no
      surrounding whitespace left, and a string without any is returned as it
      is. */
  function Strip(s: string): (r: string)
    ensures |r| <= |s|
    ensures exists i, j ::
              && 0 <= i <= j <= |s| && r == s[i..j]
              && (forall k :: 0 <= k < i ==> IsSpace(s[k]))
              && (forall k :: j <= k < |s| ==> IsSpace(s[k]))
    ensures IsStripped(r)
    ensures IsStripped(s) ==> r == s
  {
    var a := LeadingSpaces(s);
    var b := TrailingSpaces(s[a..]);
    StripBounds(s, a, b);
    s[a..|s| - b]
  }

  // ---------------------------------------------------------------------
  // strip_code_block

  const Fence: string := "```"

  /** Three backticks start at index `i`. */
  predicate FenceAt(s: string, i: int)
  {
    0 <= i && i + 3 <= |s| && s[i] == '`' && s[i + 1] == '`' && s[i + 2] == '`'
  }

  predicate StartsWithFence(s: string)
  {
    FenceAt(s, 0)
  }

  function DropLetters(s: string): (r: string)
    ensures r == [] || !IsAsciiLetter(r[0])
    ensures |r| <= |s|
  {
    if s != [] && IsAsciiLetter(s[0]) then DropLetters(s[1..]) else s
  }

  function CutNewline(s: string): (r: string)
    ensures |r| <= |s|
  {
    if s != [] && s[|s| - 1] == '\n' then s[..|s| - 1] else s
  }

  /** `re.sub(r"^```[a-zA-Z]*\n?", "", s)` on an input that starts with the fence. */
  function DropOpeningFence(s: string): (r: string)
    requires StartsWithFence(s)
    ensures |r| <= |s| - 3
  {
    var t := DropLetters(s[3..]);
    if t != [] && t[0] == '\n' then t[1..] else t
  }

  /** `re.sub(r"\n?```$", "", s)`: Python's `$` matches at the very end and
      also just before a final newline, which the substitution then keeps. */
  function DropClosingFence(s: string): (r: string)
    ensures |r| <= |s|
  {
    if FenceAt(s, |s| - 3) then CutNewline(s[..|s| - 3])
    else if |s| >= 4 && s[|s| - 1] == '\n' && FenceAt(s, |s| - 4) then CutNewline(s[..|s| - 4]) + "\n"
    else s
  }

  /** Unfenced text is returned unchanged; fenced text loses its fences and
      its surrounding whitespace, so it never grows. */
  function StripCodeBlock(content: string): (r: string)
    ensures !StartsWithFence(content) ==> r == content
    ensures |r| <= |content|
    ensures StartsWithFence(content) ==> IsStripped(r) && |r| <= |content| - 3
  {
    if StartsWithFence(content) then Strip(DropClosingFence(DropOpeningFence(content)))
    else content
  }

  /** The shape a model reply takes when it wraps `body` in a fence labelled
      `lang` (for instance "```json\n[1]\n```"). */
  function Fenced(lang: string, body: string): string
  {
    Fence + lang + "\n" + body + "\n" + Fence
  }

  lemma {:induction false} DropLettersOver(lang: string, rest: string)
    requires forall i :: 0 <= i < |lang| ==> IsAsciiLetter(lang[i])
    requires rest == [] || !IsAsciiLetter(rest[0])
    ensures DropLetters(lang + rest) == rest
  {
    if lang != [] {
      assert (lang + rest)[1..] == lang[1..] + rest;
      DropLettersOver(lang[1..], rest);
    } else {
      assert lang + rest == rest;
    }
  }

  /** Removing the fence gives back the fenced body, when the label is made of
      letters and the body has no surrounding whitespace. */
  lemma StripCodeBlockRoundTrip(lang: string, body: string)
    requires forall i :: 0 <= i < |lang| ==> IsAsciiLetter(lang[i])
    requires IsStripped(body)
    ensures StripCodeBlock(Fenced(lang, body)) == body
  {
    var s := Fenced(lang, body);
    assert StartsWithFence(s);
    var tail := "\n" + body + "\n" + Fence;
    assert s[3..] == lang + tail;
    DropLettersOver(lang, tail);
    var unfenced := DropOpeningFence(s);
    assert unfenced == body + "\n" + Fence;
    assert FenceAt(unfenced, |unfenced| - 3);
    assert unfenced[..|unfenced| - 3] == body + "\n";
    assert DropClosingFence(unfenced) == body;
  }

  lemma StripCodeBlockJsonExample()
    ensures StripCodeBlock("```json\n[1]\n```") == "[1]"
  {
    assert Fenced("json", "[1]") == "```json\n[1]\n```";
    StripCodeBlockRoundTrip("json", "[1]");
  }

  // ---------------------------------------------------------------------
  // classify_tags: the filter applied to the model's parsed reply

  datatype JsonValue = JString(s: string) | JNonString

  /** The tag classifier's reply after `json.loads`: a list, some other JSON
      value, or nothing usable (the call or the parse raised). */
  datatype TagReply = TagList(items: seq<JsonValue>) | NotAList | Unusable

  function Strings(items: seq<JsonValue>): seq<string>
  {
    if items == [] then []
    else (if items[0].JString? then [items[0].s] else []) + Strings(items[1..])
  }

  function KeepVocabulary(items: seq<JsonValue>): (r: seq<string>)
    ensures forall i :: 0 <= i < |r| ==> r[i] in EngineRouter.Tags
  {
    if items == [] then []
    else (if items[0].JString? && items[0].s in EngineRouter.Tags then [items[0].s] else [])
         + KeepVocabulary(items[1..])
  }

  function ClassifyTags(reply: TagReply): (r: seq<string>)
    ensures !reply.TagList? ==> r == []
    ensures forall i :: 0 <= i < |r| ==> r[i] in EngineRouter.Tags
  {
    match reply
    case TagList(items) => KeepVocabulary(items)
    case _ => []
  }

  /** The classifier's filter is the router's tag validation applied to the
      strings of the reply: vocabulary tags only, in order, duplicates kept. */
  lemma {:induction false} ClassifyTagsValidates(items: seq<JsonValue>)
    ensures ClassifyTags(TagList(items)) == EngineRouter.ValidateTags(Strings(items), EngineRouter.Tags)
  {
    if items != [] {
      ClassifyTagsValidates(items[1..]);
      var rest := Strings(items[1..]);
      if items[0].JString? {
        var ss := [items[0].s] + rest;
        assert Strings(items) == ss;
        assert ss[0] == items[0].s && ss[1..] == rest;
        assert EngineRouter.ValidateTags(ss, EngineRouter.Tags)
            == (if items[0].s in EngineRouter.Tags then [items[0].s] else [])
               + EngineRouter.ValidateTags(rest, EngineRouter.Tags);
      } else {
        assert Strings(items) == rest;
      }
    }
  }

  // ---------------------------------------------------------------------
  // analyze_prompt_complexity

  /** Length of the leading run of non-whitespace characters. */
  function WordLength(s: string): (n: nat)
    ensures n <= |s|
    ensures forall i :: 0 <= i < n ==> !IsSpace(s[i])
    ensures n < |s| ==> IsSpace(s[n])
  {
    if s == [] || IsSpace(s[0]) then 0 else 1 + WordLength(s[1..])
  }

  /** `str.split()` without arguments: the maximal runs of non-whitespace. */
  function Words(s: string): seq<string>
    decreases |s|
  {
    if s == [] then []
    else if IsSpace(s[0]) then Words(s[1..])
    else var n := WordLength(s); [s[..n]] + Words(s[n..])
  }

  function TotalLength(words: seq<string>): nat
  {
    if words == [] then 0 else |words[0]| + TotalLength(words[1..])
  }

  /** A word starts at index `i`: a non-whitespace character that opens the
      text or follows whitespace. */
  predicate IsWordStart(s: string, i: int)
    requires 0 <= i < |s|
  {
    !IsSpace(s[i]) && (i == 0 || IsSpace(s[i - 1]))
  }

  /** Number of word starts at index `i` or later. */
  function WordStartsFrom(s: string, i: nat): nat
    requires i <= |s|
    decreases |s| - i
  {
    if i == |s| then 0 else (if IsWordStart(s, i) then 1 else 0) + WordStartsFrom(s, i + 1)
  }

  /** Word starts past index 0 do not depend on the characters before `d`
      other than the one just before. */
  lemma {:induction false} WordStartsShift(s: string, d: nat, i: nat)
    requires 1 <= i && d + i <= |s|
    ensures WordStartsFrom(s, d + i) == WordStartsFrom(s[d..], i)
    decreases |s| - i
  {
    if d + i < |s| {
      assert IsWordStart(s, d + i) == IsWordStart(s[d..], i) by {
        assert s[d + i] == s[d..][i] && s[d + i - 1] == s[d..][i - 1];
      }
      WordStartsShift(s, d, i + 1);
    }
  }

  /** Inside a word no new word starts. */
  lemma {:induction false} WordStartsInsideWord(s: string, k: nat)
    requires 1 <= k <= WordLength(s)
    ensures WordStartsFrom(s, k) == WordStartsFrom(s, WordLength(s))
    decreases WordLength(s) - k
  {
    if k < WordLength(s) {
      assert !IsWordStart(s, k) by { assert !IsSpace(s[k - 1]); }
      WordStartsInsideWord(s, k + 1);
    }
  }

  /** `str.split()` returns one word per word start: `word_count` is the
      number of maximal runs of non-whitespace characters. */
  lemma {:induction false} WordsCount(s: string)
    ensures |Words(s)| == WordStartsFrom(s, 0)
    decreases |s|
  {
    if s != [] {
      if IsSpace(s[0]) {
        WordsCount(s[1..]);
        if |s| > 1 {
          assert IsWordStart(s, 1) == IsWordStart(s[1..], 0);
          WordStartsShift(s, 1, 1);
        }
      } else {
        var n := WordLength(s);
        WordsCount(s[n..]);
        assert |Words(s)| == 1 + |Words(s[n..])|;
        if n > 1 {
          WordStartsInsideWord(s, 1);
        }
        if n < |s| {
          assert !IsWordStart(s, n);
          assert !IsWordStart(s[n..], 0);
          if n + 1 < |s| {
            WordStartsShift(s, n, 1);
          }
        }
      }
    }
  }

  /** The words are non-empty, hold no whitespace, are as many as the word
      starts of the text, and together are no longer than the text. */
  lemma {:induction false} WordsFacts(s: string)
    ensures forall k :: 0 <= k < |Words(s)| ==> Words(s)[k] != [] && !(exists i :: 0 <= i < |Words(s)[k]| && IsSpace(Words(s)[k][i]))
    ensures |Words(s)| == WordStartsFrom(s, 0)
    ensures |Words(s)| <= TotalLength(Words(s)) <= |s|
    decreases |s|
  {
    WordsCount(s);
    if s != [] {
      if IsSpace(s[0]) {
        WordsFacts(s[1..]);
      } else {
        var n := WordLength(s);
        WordsFacts(s[n..]);
        assert Words(s) == [s[..n]] + Words(s[n..]);
        assert (([s[..n]] + Words(s[n..]))[1..]) == Words(s[n..]);
      }
    }
  }

  /** `str.split(sep)`: the pieces between the separators. */
  function SplitOn(s: string, sep: char): (r: seq<string>)
    ensures |r| >= 1
  {
    if s == [] then [""]
    else
      var rest := SplitOn(s[1..], sep);
      if s[0] == sep then [""] + rest else [[s[0]] + rest[0]] + rest[1..]
  }

  function CountChar(s: string, c: char): nat
  {
    if s == [] then 0 else (if s[0] == c then 1 else 0) + CountChar(s[1..], c)
  }

  function Join(pieces: seq<string>, sep: char): string
    requires |pieces| >= 1
  {
    if |pieces| == 1 then pieces[0] else pieces[0] + [sep] + Join(pieces[1..], sep)
  }

  /** Splitting yields one more piece than there are separators, no piece
      holds a separator, and joining the pieces back gives the text. */
  lemma {:induction false} SplitOnFacts(s: string, sep: char)
    ensures |SplitOn(s, sep)| == CountChar(s, sep) + 1
    ensures forall k :: 0 <= k < |SplitOn(s, sep)| ==> sep !in SplitOn(s, sep)[k]
    ensures Join(SplitOn(s, sep), sep) == s
  {
    if s != [] {
      SplitOnFacts(s[1..], sep);
      var rest := SplitOn(s[1..], sep);
      if s[0] == sep {
        assert ([""] + rest)[1..] == rest;
      } else {
        var r := [[s[0]] + rest[0]] + rest[1..];
        assert r[1..] == rest[1..];
        if |rest| > 1 {
          assert Join(rest, sep) == rest[0] + [sep] + Join(rest[1..], sep);
        }
        forall k | 0 <= k < |r| ensures sep !in r[k] {
          if k > 0 { assert r[k] == rest[k]; }
        }
      }
    }
  }

  function NotBlank(s: string): bool { Strip(s) != [] }

  /** `prompt.split('.')` pieces that are not blank. */
  function Sentences(prompt: string): seq<string>
  {
    Filter(SplitOn(prompt, '.'), NotBlank)
  }

  /** Python's `str.count`: non-overlapping occurrences, scanning left to right. */
  function Occurrences(s: string, pat: string): nat
    requires |pat| > 0
    decreases |s|
  {
    if |s| < |pat| then 0
    else if s[..|pat|] == pat then 1 + Occurrences(s[|pat|..], pat)
    else Occurrences(s[1..], pat)
  }

  /** `pat` occurs in `s` at index `i`. */
  predicate OccursAt(s: string, pat: string, i: int)
  {
    0 <= i && i + |pat| <= |s| && s[i..i + |pat|] == pat
  }

  /** Python's `pat in s`. */
  predicate Contains(s: string, pat: string)
  {
    exists i :: 0 <= i <= |s| - |pat| && OccursAt(s, pat, i)
  }

  /** Occurrences do not overlap, so they fit in the text. */
  lemma {:induction false} OccurrencesFit(s: string, pat: string)
    requires |pat| > 0
    ensures Occurrences(s, pat) * |pat| <= |s|
    decreases |s|
  {
    if |s| >= |pat| {
      if s[..|pat|] == pat {
        var k := Occurrences(s[|pat|..], pat);
        OccurrencesFit(s[|pat|..], pat);
        assert (1 + k) * |pat| == |pat| + k * |pat|;
      } else {
        OccurrencesFit(s[1..], pat);
      }
    }
  }

  /** There is an occurrence exactly when the pattern occurs at all. */
  lemma {:induction false} OccurrencesFacts(s: string, pat: string)
    requires |pat| > 0
    ensures Occurrences(s, pat) * |pat| <= |s|
    ensures Occurrences(s, pat) > 0 <==> Contains(s, pat)
    decreases |s|
  {
    OccurrencesFit(s, pat);
    if |s| >= |pat| {
      if s[..|pat|] == pat {
        assert OccursAt(s, pat, 0);
      } else {
        OccurrencesFacts(s[1..], pat);
        ContainsPastFirst(s, pat);
      }
    }
  }

  /** When the pattern does not start the text, it occurs in the text exactly
      when it occurs after the first character. */
  lemma ContainsPastFirst(s: string, pat: string)
    requires |s| >= |pat| > 0
    requires s[..|pat|] != pat
    ensures Contains(s, pat) <==> Contains(s[1..], pat)
  {
    if Contains(s, pat) {
      var i :| 0 <= i <= |s| - |pat| && OccursAt(s, pat, i);
      assert s[0..0 + |pat|] == s[..|pat|];
      assert i != 0;
      assert s[1..][i - 1..i - 1 + |pat|] == s[i..i + |pat|];
      assert OccursAt(s[1..], pat, i - 1);
    }
    if Contains(s[1..], pat) {
      var i :| 0 <= i <= |s[1..]| - |pat| && OccursAt(s[1..], pat, i);
      assert s[i + 1..i + 1 + |pat|] == s[1..][i..i + |pat|];
      assert OccursAt(s, pat, i + 1);
    }
  }

  const IdeaIndicators: seq<string> :=
    ["and", "or", "but", "while", "whereas", "including", "additionally", "moreover", "furthermore"]

  const SpecialKeywords: seq<string> := ["if", "then", "must", "should", "required", "necessary"]

  /** Occurrences of " indicator " for the given indicators. */
  function IdeaHits(lowered: string, indicators: seq<string>): nat
  {
    if indicators == [] then 0
    else IdeaHits(lowered, indicators[..|indicators| - 1])
         + Occurrences(lowered, " " + indicators[|indicators| - 1] + " ")
  }

  predicate HasCodeBlocks(prompt: string)
  {
    Contains(prompt, Fence) || Contains(prompt, "<code>")
  }

  /** A case-sensitive substring test for each keyword, so "if" is found
      inside "life". */
  predicate HasSpecialInstructions(prompt: string)
  {
    exists k :: 0 <= k < |SpecialKeywords| && Contains(prompt, SpecialKeywords[k])
  }

  lemma SpecialInstructionsInsideWords()
    ensures HasSpecialInstructions("life")
  {
    assert "life"[1..3] == "if";
    assert OccursAt("life", SpecialKeywords[0], 1);
  }

  function MinReal(a: real, b: real): real { if a <= b then a else b }
  function MinInt(a: int, b: int): int { if a <= b then a else b }

  /** The weighted complexity score: seven non-negative components capped at
      10, 15, 15, 30, 15, 10 and 5 points. */
  function WeightedScore(wordCount: nat, averageWordLength: real, sentenceCount: nat, ideaCount: nat,
                         entityCount: nat, hasCode: bool, hasSpecial: bool): (r: real)
    requires averageWordLength >= 0.0
    ensures 0.0 <= r <= 100.0
    ensures ideaCount >= 1 ==> r >= 5.0
  {
    MinReal(wordCount as real / 100.0 * 20.0, 10.0)
    + MinReal(averageWordLength * 8.0, 15.0)
    + MinReal(sentenceCount as real / 10.0 * 15.0, 15.0)
    + MinInt(ideaCount * 5, 30) as real
    + MinInt(entityCount * 3, 15) as real
    + (if hasCode then 10.0 else 0.0)
    + (if hasSpecial then 5.0 else 0.0)
  }

  datatype Metrics = Metrics(
    characterCount: nat,
    wordCount: nat,
    sentenceCount: nat,
    averageWordLength: real,
    complexityScore: real,
    hasCodeBlocks: bool,
    hasSpecialInstructions: bool,
    ideaCount: nat,
    entityCount: nat,
    identifiedEntities: seq<string>)

  function AverageWordLength(prompt: string): (r: real)
    ensures r >= 0.0
    ensures |Words(prompt)| > 0 ==> r >= 1.0
  {
    var words := Words(prompt);
    WordsFacts(prompt);
    if |words| > 0 then
      AtLeastOne(TotalLength(words) as real, |words| as real);
      TotalLength(words) as real / |words| as real
    else 0.0
  }

  lemma AtLeastOne(total: real, count: real)
    requires 0.0 < count <= total
    ensures total / count >= 1.0
  {
    assert total / count * count == total;
  }

  /** The metrics of a prompt, given the entities the recogniser found in it. */
  function Complexity(prompt: string, entities: seq<string>): (m: Metrics)
    ensures m.characterCount == |prompt|
    ensures m.ideaCount >= 1
    ensures 5.0 <= m.complexityScore <= 100.0
    ensures m.sentenceCount <= CountChar(prompt, '.') + 1
    ensures m.identifiedEntities == entities && m.entityCount == |entities|
    ensures m.hasCodeBlocks == HasCodeBlocks(prompt) && m.hasSpecialInstructions == HasSpecialInstructions(prompt)
  {
    SplitOnFacts(prompt, '.');
    var wordCount := |Words(prompt)|;
    var sentenceCount := |Sentences(prompt)|;
    var average := AverageWordLength(prompt);
    var hasCode := HasCodeBlocks(prompt);
    var hasSpecial := HasSpecialInstructions(prompt);
    var ideas := 1 + IdeaHits(Lower(prompt), IdeaIndicators);
    Metrics(|prompt|, wordCount, sentenceCount, average,
            WeightedScore(wordCount, average, sentenceCount, ideas, |entities|, hasCode, hasSpecial),
            hasCode, hasSpecial, ideas, |entities|, entities)
  }

  /** The idea loop of `analyze_prompt_complexity`: one plus the number of
      indicator words found, each surrounded by spaces. */
  method CountIdeas(lowered: string) returns (ideaCount: int)
    ensures ideaCount == 1 + IdeaHits(lowered, IdeaIndicators)
  {
    ideaCount := 1;
    var k := 0;
    while k < |IdeaIndicators|
      invariant 0 <= k <= |IdeaIndicators|
      invariant ideaCount == 1 + IdeaHits(lowered, IdeaIndicators[..k])
    {
      assert IdeaIndicators[..k + 1][..k] == IdeaIndicators[..k];
      ideaCount := ideaCount + Occurrences(lowered, " " + IdeaIndicators[k] + " ");
      k := k + 1;
    }
    assert IdeaIndicators[..k] == IdeaIndicators;
  }

  method AnalyzePromptComplexity(prompt: string, entities: seq<string>) returns (m: Metrics)
    ensures m == Complexity(prompt, entities)
  {
    var wordCount := |Words(prompt)|;
    var hasCode := HasCodeBlocks(prompt);
    var hasSpecial := HasSpecialInstructions(prompt);
    var average := AverageWordLength(prompt);
    var ideaCount := CountIdeas(Lower(prompt));
    var sentenceCount := |Sentences(prompt)|;
    var score: real := 0.0;
    score := score + MinReal(wordCount as real / 100.0 * 20.0, 10.0);
    score := score + MinReal(average * 8.0, 15.0);
    score := score + MinReal(sentenceCount as real / 10.0 * 15.0, 15.0);
    score := score + MinInt(ideaCount * 5, 30) as real;
    score := score + MinInt(|entities| * 3, 15) as real;
    score := score + (if hasCode then 10.0 else 0.0);
    score := score + (if hasSpecial then 5.0 else 0.0);
    m := Metrics(|prompt|, wordCount, sentenceCount, average, score,
                 hasCode, hasSpecial, ideaCount, |entities|, entities);
  }

  // ---------------------------------------------------------------------
  // decompose_prompt

  const BaseInstructions: string :=
    "Decompose the user query into multiple sub-queries if necessary. Each sub-query must include an 'engine' field set to 'all'."

  /** The instruction suffix and the completion token budget for a score. */
  datatype Tier = Tier(suffix: string, maxTokens: nat)

  function TierFor(score: real): (t: Tier)
    ensures t.maxTokens == 2048 || t.maxTokens == 3072 || t.maxTokens == 4096
  {
    if score > 70.0 then Tier(" Break down into focused sub-queries.", 4096)
    else if score > 40.0 then Tier(" Maintain moderate granularity.", 3072)
    else Tier(" Keep it simple and direct.", 2048)
  }

  /** A higher score never gets a smaller budget. */
  lemma TierBudgetMonotone(a: real, b: real)
    requires a <= b
    ensures TierFor(a).maxTokens <= TierFor(b).maxTokens
  {
  }

  /** A sub-query element of the decomposition reply: a record with its text
      and entities (an absent entity list is empty), or some other JSON value. */
  datatype RawSubQuery = Record(subQuery: string, entities: seq<string>) | NotRecord

  /** The decomposer's reply after `json.loads`: a bare list of sub-queries,
      an object (its "sub_queries" list, empty when absent), another JSON
      value, or nothing usable (the call or the parse raised). */
  datatype Reply = ReplyList(items: seq<RawSubQuery>) | ReplyObject(subQueries: seq<RawSubQuery>) | ReplyScalar | ReplyFailed

  /** The request sent to the decomposer (its worked example left out). */
  datatype LlmRequest = LlmRequest(
    instructions: string, maxTokens: nat, query: string, tags: seq<string>,
    entities: seq<string>, score: real, hasCodeBlocks: bool, hasSpecialInstructions: bool)

  /** What `decompose_prompt` returns once read back: the decomposition with
      the generated tags, the recognised entities and the metrics, or the
      error object. */
  datatype Decomposition =
    | Decomposed(subQueries: seq<RawSubQuery>, tags: seq<string>, entities: seq<string>, complexity: Metrics)
    | Failed

  method DecomposePrompt(prompt: string, entities: seq<string>, tagReply: TagReply, reply: Reply)
    returns (request: LlmRequest, d: Decomposition)
    ensures var m := Complexity(prompt, entities);
      && request.query == prompt
      && request.score == m.complexityScore
      && request.instructions == BaseInstructions + TierFor(m.complexityScore).suffix
      && request.maxTokens == TierFor(m.complexityScore).maxTokens
      && request.tags == ClassifyTags(tagReply)
      && request.entities == entities
      && request.hasCodeBlocks == HasCodeBlocks(prompt)
      && request.hasSpecialInstructions == HasSpecialInstructions(prompt)
    ensures reply.ReplyList? ==> d == Decomposed(reply.items, ClassifyTags(tagReply), entities, Complexity(prompt, entities))
    ensures reply.ReplyObject? ==> d == Decomposed(reply.subQueries, ClassifyTags(tagReply), entities, Complexity(prompt, entities))
    ensures reply.ReplyScalar? || reply.ReplyFailed? ==> d == Failed
  {
    var complexity := AnalyzePromptComplexity(prompt, entities);
    var generatedTags := ClassifyTags(tagReply);
    // the three complexity tiers pick the instruction suffix and the budget
    var tier := TierFor(complexity.complexityScore);
    var instructions := BaseInstructions + tier.suffix;
    var maxTokens := tier.maxTokens;
    request := LlmRequest(instructions, maxTokens, prompt, generatedTags, complexity.identifiedEntities,
                          complexity.complexityScore, complexity.hasCodeBlocks, complexity.hasSpecialInstructions);
    match reply {
      case ReplyList(items) =>
        // a bare list is wrapped as {"sub_queries": list}
        d := Decomposed(items, generatedTags, complexity.identifiedEntities, complexity);
      case ReplyObject(subQueries) =>
        d := Decomposed(subQueries, generatedTags, complexity.identifiedEntities, complexity);
      case ReplyScalar =>
        // assigning a key of a non-object raises: the error object is returned
        d := Failed;
      case ReplyFailed =>
        d := Failed;
    }
  }
}
