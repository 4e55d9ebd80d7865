/**
 * The scoring half of Code_TextAnalysis.py. Its stop words are trimmed and
 * lower-cased, and its sentiment dictionaries are tested against them in
 * lower case. Its syllable counter counts vowel letters rather than vowel
 * runs. It cleans the text character by character before tokenizing, and it
 * guards every division, so it always returns its 13-key record.
 */
module CodeTextAnalysis {
  import opened PyStr
  import opened Tokens
  import opened Scores
  import Syllables

  /** A stop word as `load_stop_words` stores it: no whitespace at either end, no upper-case letter. */
  predicate Normalised(w: string)
  {
    Stripped(w) && Lower(w) == w
  }

  lemma NormalisedLine(line: string)
    ensures Normalised(Lower(Strip(line)))
  {
    LowerKeepsStripped(Strip(line));
    LowerIdempotent(Strip(line));
  }

  /** The lines of one stop-word file, trimmed and lower-cased: each is normalised, and each line gives one. */
  function NormalisedLines(lines: seq<string>): (words: set<string>)
    ensures forall w :: w in words ==> Normalised(w)
    ensures forall line :: line in lines ==> Lower(Strip(line)) in words
    ensures forall w :: w in words ==> exists line :: line in lines && w == Lower(Strip(line))
  {
    assert forall line :: line in lines ==> Normalised(Lower(Strip(line))) by {
      forall line | line in lines
        ensures Normalised(Lower(Strip(line)))
      {
        NormalisedLine(line);
      }
    }
    set line | line in lines :: Lower(Strip(line))
  }

  /** `load_stop_words(files)`: the union over the files of their trimmed, lower-cased lines. */
  method LoadStopWords(files: seq<seq<string>>) returns (stopwords: set<string>)
    ensures forall w :: w in stopwords <==> exists i :: 0 <= i < |files| && w in NormalisedLines(files[i])
    ensures forall w :: w in stopwords ==> Normalised(w)
  {
    stopwords := {};
    for i := 0 to |files|
      invariant forall w :: w in stopwords <==> exists k :: 0 <= k < i && w in NormalisedLines(files[k])
      invariant forall w :: w in stopwords ==> Normalised(w)
    {
      var added := NormalisedLines(files[i]);
      stopwords := stopwords + added;
      forall w
        ensures w in stopwords <==> exists k :: 0 <= k < i + 1 && w in NormalisedLines(files[k])
      {
        if w in added {
          assert 0 <= i < i + 1 && w in NormalisedLines(files[i]);
        } else if exists k :: 0 <= k < i + 1 && w in NormalisedLines(files[k]) {
          var k :| 0 <= k < i + 1 && w in NormalisedLines(files[k]);
          assert k < i;
        }
      }
    }
  }

  /** A sub-string cannot occur in a string that lacks its first character. */
  lemma {:induction false} NotContainsWithoutFirst(s: string, sub: string)
    requires sub != [] && sub[0] !in s
    ensures !Contains(s, sub)
  {
    if |sub| <= |s| {
      assert s[0] != sub[0];
      assert s[..|sub|] != sub;
      if s != [] {
        NotContainsWithoutFirst(s[1..], sub);
      }
    }
  }

  /**
   * `load_sentiment_words(file_path, stopwords)`: every trimmed line whose
   * lower-case form is not a stop word, scored 1 when the path contains
   * "positive" and -1 otherwise.
   */
  function LoadSentimentWords(filePath: string, lines: seq<string>, stopwords: set<string>): (dict: map<string, int>)
    ensures forall k :: k in dict ==> Lower(k) !in stopwords
    ensures forall k :: k in dict ==> (dict[k] == 1 <==> Contains(filePath, "positive"))
    ensures forall k :: k in dict ==> dict[k] == 1 || dict[k] == -1
    ensures forall line :: line in lines && Lower(Strip(line)) !in stopwords ==> Strip(line) in dict
    ensures forall k :: k in dict ==> exists line :: line in lines && Strip(line) == k
  {
    var score := if Contains(filePath, "positive") then 1 else -1;
    var keys := set line | line in lines && Lower(Strip(line)) !in stopwords :: Strip(line);
    map k | k in keys :: score
  }

  /** The two file names of the script: only the first one scores +1. */
  lemma LexiconFilesScores(positiveLines: seq<string>, negativeLines: seq<string>, stopwords: set<string>)
    ensures var p := LoadSentimentWords("positive-words.txt", positiveLines, stopwords);
            forall k :: k in p ==> p[k] == 1
    ensures var n := LoadSentimentWords("negative-words.txt", negativeLines, stopwords);
            forall k :: k in n ==> n[k] == -1
  {
    ContainsAt("positive-words.txt", "positive", 0);
    NotContainsWithoutFirst("negative-words.txt", "positive");
  }

  /** `sum(1 for letter in word if letter in vowels)`. */
  function VowelLetters(w: string): (n: nat)
    ensures n <= |w|
  {
    if w == [] then 0 else (if Syllables.IsVowel(w[0]) then 1 else 0) + VowelLetters(w[1..])
  }

  /** A string with a consonant at position `i` has fewer vowel letters than characters. */
  lemma {:induction false} VowelLettersBelowLength(w: string, i: nat)
    requires i < |w| && !Syllables.IsVowel(w[i])
    ensures VowelLetters(w) <= |w| - 1
  {
    if i > 0 {
      VowelLettersBelowLength(w[1..], i - 1);
    }
  }

  /** `sum(1 for ending in ['es', 'ed'] if word.endswith(ending))`. */
  function EsEdEndings(w: string): nat
  {
    (if EndsWith(w, "es") then 1 else 0) + (if EndsWith(w, "ed") then 1 else 0)
  }

  /** The value of `count` before `max(1, count)`. */
  function RawLetterCount(word: string): int
  {
    var w := Lower(word);
    VowelLetters(w) - EsEdEndings(w) + (if EndsWith(w, "le") then 1 else 0)
  }

  /** `count_syllables(word)`: lower-case, count vowel letters, correct for the endings, at least 1. */
  function VowelLetterSyllables(word: string): (n: int)
    ensures n >= 1
  {
    var count := RawLetterCount(word);
    if count < 1 then 1 else count
  }

  /** No word ends in both "es" and "ed", so at most one is taken off. */
  lemma AtMostOneEnding(w: string)
    ensures EsEdEndings(w) <= 1
  {
  }

  /** The count is the clamped vowel-letter count with those corrections. */
  lemma LetterSyllablesFormula(word: string)
    ensures var w := Lower(word);
            var raw := VowelLetters(w) - (if EndsWith(w, "es") || EndsWith(w, "ed") then 1 else 0)
                       + (if EndsWith(w, "le") then 1 else 0);
            VowelLetterSyllables(word) == if raw < 1 then 1 else raw
  {
    AtMostOneEnding(Lower(word));
  }

  /** The empty word has no letters and still counts as one syllable. */
  lemma EmptyWordHasOneSyllable()
    ensures VowelLetterSyllables("") == 1
  {
    assert Lower("") == "";
  }

  /** A non-empty word has at most as many syllables as letters. */
  lemma LetterSyllablesAtMostLength(word: string)
    requires word != []
    ensures VowelLetterSyllables(word) <= |word|
  {
    var w := Lower(word);
    if EndsWith(w, "le") {
      assert w[|w| - 2] == 'l';
      VowelLettersBelowLength(w, |w| - 2);
      assert !EndsWith(w, "es") && !EndsWith(w, "ed");
    }
  }

  /** The count ignores case. */
  lemma LetterSyllablesIgnoreCase(word: string)
    ensures VowelLetterSyllables(Lower(word)) == VowelLetterSyllables(word)
  {
    LowerIdempotent(word);
  }

  /** "apple": two vowel letters, plus one for the final "le". */
  lemma AppleHasThree()
    ensures VowelLetterSyllables("apple") == 3
  {
    LowerOfLowerCase("apple");
    assert VowelLetters("apple") == 2 by {
      assert "apple"[1..] == "pple";
      assert "pple"[1..] == "ple";
      assert "ple"[1..] == "le";
      assert "le"[1..] == "e";
      assert "e"[1..] == "";
    }
  }

  /** "played": three vowel letters ('y' included), minus one for "ed". */
  lemma PlayedHasTwo()
    ensures VowelLetterSyllables("played") == 2
  {
    LowerOfLowerCase("played");
    assert VowelLetters("played") == 3 by {
      assert "played"[1..] == "layed";
      assert "layed"[1..] == "ayed";
      assert "ayed"[1..] == "yed";
      assert "yed"[1..] == "ed";
      assert "ed"[1..] == "d";
      assert "d"[1..] == "";
    }
  }

  /**
   * The two syllable counters of the repository disagree: this one gives
   * "apple" three syllables, the vowel-run counter two.
   */
  lemma CountersDisagreeOnApple()
    ensures VowelLetterSyllables("apple") == 3 && Syllables.VowelRunSyllables("apple") == 2
  {
    AppleHasThree();
    Syllables.AppleHasTwo();
  }

  /** Every whitespace character of `s` is a plain space, as after `re.sub(r'\s+', ' ', ...)`. */
  predicate SpacesArePlain(s: string)
  {
    forall i :: 0 <= i < |s| && IsSpace(s[i]) ==> s[i] == ' '
  }

  /** No two whitespace characters stand next to each other. */
  predicate NoDoubleSpace(s: string)
  {
    forall i :: 0 < i < |s| && IsSpace(s[i - 1]) ==> !IsSpace(s[i])
  }

  /** The characters of `s` that are not whitespace, in order. */
  function NonSpace(s: string): (r: string)
    ensures NoSpace(r)
  {
    if s == [] then []
    else if IsSpace(s[0]) then NonSpace(s[1..])
    else [s[0]] + NonSpace(s[1..])
  }

  /** Dropping leading whitespace changes nothing outside whitespace. */
  lemma {:induction false} NonSpaceAfterSpaces(s: string, n: nat)
    requires n <= |s|
    requires forall i :: 0 <= i < n ==> IsSpace(s[i])
    ensures NonSpace(s[n..]) == NonSpace(s)
  {
    if n > 0 {
      assert s[1..][n - 1..] == s[n..];
      NonSpaceAfterSpaces(s[1..], n - 1);
    }
  }

  /** `re.sub(r'\s+', ' ', text)`: every maximal run of whitespace becomes one space. */
  function CollapseWhitespace(s: string): (r: string)
    ensures SpacesArePlain(r)
    ensures NoDoubleSpace(r)
    ensures NonSpace(r) == NonSpace(s)
    ensures r == [] <==> s == []
    ensures r != [] ==> (IsSpace(r[0]) <==> IsSpace(s[0]))
    decreases |s|
  {
    if s == [] then []
    else if IsSpace(s[0]) then
      var n := LeadingSpaces(s);
      NonSpaceAfterSpaces(s, n);
      [' '] + CollapseWhitespace(s[n..])
    else
      [s[0]] + CollapseWhitespace(s[1..])
  }

  /** A whitespace-free prefix passes through unchanged. */
  lemma {:induction false} CollapseWhitespaceOfWord(w: string, rest: string)
    requires NoSpace(w)
    ensures CollapseWhitespace(w + rest) == w + CollapseWhitespace(rest)
  {
    if w == [] {
      assert w + rest == rest;
    } else {
      calc {
        CollapseWhitespace(w + rest);
        { assert (w + rest)[0] == w[0] && (w + rest)[1..] == w[1..] + rest; }
        [w[0]] + CollapseWhitespace(w[1..] + rest);
        { CollapseWhitespaceOfWord(w[1..], rest); }
        [w[0]] + (w[1..] + CollapseWhitespace(rest));
        { assert w == [w[0]] + w[1..]; }
        w + CollapseWhitespace(rest);
      }
    }
  }

  /** The result ends in whitespace exactly when the input does. */
  lemma {:induction false} CollapseWhitespaceLast(s: string)
    requires s != []
    ensures IsSpace(CollapseWhitespace(s)[|CollapseWhitespace(s)| - 1]) <==> IsSpace(s[|s| - 1])
    decreases |s|
  {
    if IsSpace(s[0]) {
      var n := LeadingSpaces(s);
      if n < |s| {
        CollapseWhitespaceLast(s[n..]);
      }
    } else if |s| > 1 {
      CollapseWhitespaceLast(s[1..]);
    }
  }

  /** A string splits into the same words as its whitespace-free remainder after leading whitespace. */
  lemma SplitAfterSpaces(s: string)
    ensures Split(s) == Split(s[LeadingSpaces(s)..])
  {
    var t := s[LeadingSpaces(s)..];
    assert LeadingSpaces(t) == 0;
    assert t[0..] == t;
  }

  /**
   * Collapsing keeps the words: `split()` of the result is `split()` of the
   * input. With the contract of `CollapseWhitespace` (every whitespace is one
   * plain space, never two together, whitespace at either end kept), this
   * fixes the result: each maximal whitespace run became exactly one space.
   */
  lemma {:induction false} CollapseWhitespaceKeepsWords(s: string)
    ensures Split(CollapseWhitespace(s)) == Split(s)
    decreases |s|
  {
    if s == [] {
    } else if IsSpace(s[0]) {
      var n := LeadingSpaces(s);
      SplitAfterSpace(' ', CollapseWhitespace(s[n..]));
      SplitAfterSpaces(s);
      CollapseWhitespaceKeepsWords(s[n..]);
    } else {
      var w := TakeWord(s);
      var rest := s[|w|..];
      assert s == w + rest;
      TakeWordNoSpace(s);
      CollapseWhitespaceOfWord(w, rest);
      SplitWordThen(w, rest);
      SplitWordThen(w, CollapseWhitespace(rest));
      CollapseWhitespaceKeepsWords(rest);
    }
  }

  /** The characters the pattern `[^a-zA-Z0-9\s.,!?-]` does not remove. */
  predicate Allowed(c: char)
  {
    IsAsciiLetter(c) || IsDigit(c) || IsSpace(c) || c in ".,!?-"
  }

  /** `re.sub(r'[^a-zA-Z0-9\s.,!?-]', '', s)`: keep the allowed characters, in order. */
  function RemoveDisallowed(s: string): (r: string)
    ensures forall c :: multiset(r)[c] == if Allowed(c) then multiset(s)[c] else 0
  {
    if s == [] then []
    else
      assert s == [s[0]] + s[1..];
      (if Allowed(s[0]) then [s[0]] else []) + RemoveDisallowed(s[1..])
  }

  /** The removal works character by character: it distributes over concatenation. */
  lemma {:induction false} RemoveDisallowedConcat(a: string, b: string)
    ensures RemoveDisallowed(a + b) == RemoveDisallowed(a) + RemoveDisallowed(b)
  {
    if a == [] {
      assert a + b == b;
    } else {
      assert (a + b)[1..] == a[1..] + b;
      RemoveDisallowedConcat(a[1..], b);
    }
  }

  /** One character is kept exactly when it is allowed. */
  lemma RemoveDisallowedChar(c: char)
    ensures RemoveDisallowed([c]) == if Allowed(c) then [c] else []
  {
    assert [c][1..] == [];
  }

  /** Applying the removal a second time changes nothing. */
  lemma {:induction false} RemoveDisallowedOfAllowed(s: string)
    requires forall i :: 0 <= i < |s| ==> Allowed(s[i])
    ensures RemoveDisallowed(s) == s
  {
    if s != [] {
      RemoveDisallowedOfAllowed(s[1..]);
      assert s == [s[0]] + s[1..];
    }
  }

  lemma RemoveDisallowedIdempotent(s: string)
    ensures RemoveDisallowed(RemoveDisallowed(s)) == RemoveDisallowed(s)
  {
    var r := RemoveDisallowed(s);
    forall i | 0 <= i < |r|
      ensures Allowed(r[i])
    {
      assert multiset(r)[r[i]] > 0;
    }
    RemoveDisallowedOfAllowed(r);
  }

  /** The only characters left after lines 96 and 97. */
  predicate Clean(c: char)
  {
    IsAsciiLetter(c) || IsDigit(c) || c == ' ' || c in ".,!?-"
  }

  /** Lines 96-97: collapse whitespace, then delete every character outside the allowed set. */
  function Preprocess(text: string): (processed: string)
    ensures forall i :: 0 <= i < |processed| ==> Clean(processed[i])
  {
    var collapsed := CollapseWhitespace(text);
    var processed := RemoveDisallowed(collapsed);
    assert forall i :: 0 <= i < |processed| ==> Clean(processed[i]) by {
      forall i | 0 <= i < |processed|
        ensures Clean(processed[i])
      {
        var c := processed[i];
        assert multiset(processed)[c] > 0;
        assert c in collapsed;
      }
    }
    processed
  }

  /**
   * Line 102: the tokens that are alphabetic and whose lower-case form is
   * not a stop word, in their original order.
   */
  function KeepWords(tokens: seq<string>, stopwords: set<string>): (words: seq<string>)
    ensures forall w :: w in words <==> w in tokens && Lower(w) !in stopwords && IsAlpha(w)
    ensures forall w :: multiset(words)[w] == if Lower(w) !in stopwords && IsAlpha(w) then multiset(tokens)[w] else 0
    ensures |words| <= |tokens|
    ensures IsSubsequence(words, tokens)
    ensures NonEmptyWords(words)
  {
    if tokens == [] then []
    else
      assert tokens == [tokens[0]] + tokens[1..];
      if Lower(tokens[0]) !in stopwords && IsAlpha(tokens[0]) then [tokens[0]] + KeepWords(tokens[1..], stopwords)
    else KeepWords(tokens[1..], stopwords)
  }

  /** `[word for word in words if count_syllables(word) > 2]`. */
  function ComplexWords(words: seq<string>): (complex: seq<string>)
    ensures |complex| <= |words|
    ensures forall w :: w in complex <==> w in words && VowelLetterSyllables(w) > 2
    ensures forall w :: multiset(complex)[w] == if VowelLetterSyllables(w) > 2 then multiset(words)[w] else 0
    ensures IsSubsequence(complex, words)
  {
    if words == [] then []
    else
      assert words == [words[0]] + words[1..];
      if VowelLetterSyllables(words[0]) > 2 then [words[0]] + ComplexWords(words[1..])
    else ComplexWords(words[1..])
  }

  /** `sum(count_syllables(word) for word in words)`: at least one per word. */
  function SyllableSum(words: seq<string>): (n: nat)
    ensures n >= |words|
  {
    if words == [] then 0 else VowelLetterSyllables(words[0]) + SyllableSum(words[1..])
  }

  /** A value of the record: Python `int` or `float`. */
  datatype Value = Int(i: int) | Float(r: real)

  /** One key of the returned dictionary with its value. */
  datatype Entry = Entry(key: string, value: Value)

  /** The record's keys, in insertion order. */
  const MetricKeys: seq<string> := [
    "POSITIVE SCORE", "NEGATIVE SCORE", "POLARITY SCORE", "SUBJECTIVITY SCORE",
    "AVG SENTENCE LENGTH", "PERCENTAGE OF COMPLEX WORDS", "FOG INDEX",
    "AVG NUMBER OF WORDS PER SENTENCE", "COMPLEX WORD COUNT", "WORD COUNT",
    "SYLLABLE PER WORD", "PERSONAL PRONOUNS", "AVG WORD LENGTH"]

  /** The thirteen keys are distinct, so the dictionary has thirteen entries. */
  lemma MetricKeysDistinct()
    ensures |MetricKeys| == 13
    ensures forall i, j :: 0 <= i < j < |MetricKeys| ==> MetricKeys[i] != MetricKeys[j]
  {
  }

  /** The dictionary built from its thirteen values in key order. */
  function Record(values: seq<Value>): (record: seq<Entry>)
    requires |values| == |MetricKeys|
    ensures |record| == |MetricKeys|
    ensures forall i :: 0 <= i < |record| ==> record[i] == Entry(MetricKeys[i], values[i])
  {
    seq(|MetricKeys|, i requires 0 <= i < |MetricKeys| => Entry(MetricKeys[i], values[i]))
  }

  /** A number as Python adds it into the fog index. */
  function AsReal(v: Value): real
  {
    match v
    case Int(i) => i as real
    case Float(r) => r
  }

  /** `a / b if guard else 0`, with the guard `b > 0`. */
  function GuardedRatio(a: nat, b: nat): (v: Value)
    ensures b == 0 ==> v == Int(0)
    ensures b > 0 ==> v.Float? && 0.0 <= v.r && (a <= b ==> v.r <= 1.0)
  {
    if b > 0 then Float(Ratio(a, b)) else Int(0)
  }

  /**
   * Lines 103-130 for the filtered `words`, the `sentences` of the raw text
   * and `pronouns` regex matches, with the two dictionaries' key sets.
   */
  function ScoreWords(words: seq<string>, sentences: seq<string>, pronouns: nat,
                      positiveWords: set<string>, negativeWords: set<string>): (record: seq<Entry>)
    ensures |record| == |MetricKeys|
    ensures forall i :: 0 <= i < |record| ==> record[i].key == MetricKeys[i]
  {
    var positiveScore := CountIn(words, positiveWords);
    var negativeScore := CountIn(words, negativeWords);
    var avgSentenceLength := GuardedRatio(|words|, |sentences|);
    var complexWords := ComplexWords(words);
    var percentageOfComplexWords := GuardedRatio(|complexWords|, |words|);
    Record([
      Int(positiveScore),
      Int(negativeScore),
      Float(Polarity(positiveScore, negativeScore)),
      Float(Subjectivity(positiveScore, negativeScore, |words|)),
      avgSentenceLength,
      percentageOfComplexWords,
      Float(0.4 * (AsReal(avgSentenceLength) + AsReal(percentageOfComplexWords))),
      avgSentenceLength,
      Int(|complexWords|),
      Int(|words|),
      GuardedRatio(SyllableSum(words), |words|),
      Int(pronouns),
      GuardedRatio(TotalLength(words), |words|)])
  }

  /**
   * `calculate_text_metrics(text, stopwords, positive_dict, negative_dict)`:
   * it never raises and always returns the same thirteen keys in the same
   * order, which `main` uses as the column names. The word count is at most
   * the number of tokens of the preprocessed text, and a text without
   * sentences gets the integer 0 for both words-per-sentence fields.
   */
  function CalculateTextMetrics(text: string, stopwords: set<string>, positiveDict: map<string, int>,
                                negativeDict: map<string, int>, ext: External): (record: seq<Entry>)
    ensures |record| == 13 && forall i :: 0 <= i < 13 ==> record[i].key == MetricKeys[i]
    ensures record[9].value.Int? && record[9].value.i <= |ext.wordTokenize(Preprocess(text))|
    ensures ext.sentTokenize(text) == [] ==> record[4].value == Int(0) && record[7].value == Int(0)
  {
    var processed := Preprocess(text);
    var words := KeepWords(ext.wordTokenize(processed), stopwords);
    ScoreWordsFacts(words, ext.sentTokenize(text), ext.pronounCount(text), positiveDict.Keys, negativeDict.Keys);
    ScoreWords(words, ext.sentTokenize(text), ext.pronounCount(text), positiveDict.Keys, negativeDict.Keys)
  }

  /**
   * Facts about the record of any filtered word list: "AVG NUMBER OF WORDS
   * PER SENTENCE" repeats "AVG SENTENCE LENGTH"; each count is at most the
   * word count; an empty word list or sentence list gives the integer 0 for
   * the guarded ratios; the scores are 0 exactly when nothing matched.
   */
  lemma ScoreWordsFacts(words: seq<string>, sentences: seq<string>, pronouns: nat,
                        positiveWords: set<string>, negativeWords: set<string>)
    ensures var record := ScoreWords(words, sentences, pronouns, positiveWords, negativeWords);
            record[7].value == record[4].value
            && record[0].value.Int? && record[0].value.i <= |words|
            && record[1].value.Int? && record[1].value.i <= |words|
            && record[8].value.Int? && record[8].value.i <= record[9].value.i == |words|
            && (sentences == [] ==> record[4].value == Int(0))
            && (words == [] ==> record[5].value == Int(0) && record[10].value == Int(0) && record[12].value == Int(0))
            && (record[3].value == Float(0.0) <==> record[0].value.i == 0 && record[1].value.i == 0)
            && (record[2].value == Float(0.0) <==> record[0].value.i == record[1].value.i)
            && (words != [] ==> record[10].value.Float? && record[10].value.r >= 1.0)
  {
    if words != [] {
      var s := SyllableSum(words);
      assert Ratio(s, |words|) >= 1.0;
    }
  }

  /** The retained words in the record are alphabetic, not stop words in lower case, and in token order. */
  lemma RetainedWords(text: string, stopwords: set<string>, ext: External)
    ensures var tokens := ext.wordTokenize(Preprocess(text));
            var words := KeepWords(tokens, stopwords);
            (forall w :: w in words ==> IsAlpha(w) && Lower(w) !in stopwords)
            && IsSubsequence(words, tokens)
  {
  }
}
