/**
 * The scoring half of New_Try.py: `load_word_lists` over the lines already
 * read from the lexicon files, `count_syllables`, and
 * `calculate_text_metrics`, whose NLTK tokenizers and pronoun regex are
 * passed in. Here the metrics divide by `len(sentences)` and `len(words)`
 * without a guard, so an empty text raises `ZeroDivisionError`.
 */
module NewTry {
  import opened PyStr
  import opened Tokens
  import opened Syllables
  import opened Scores

  /** `count_syllables(word)`: the vowel-run counter loop. */
  method CountSyllables(word: string) returns (count: int)
    requires word != []
    ensures count == VowelRunSyllables(word)
    ensures count >= 1
  {
    var w := Lower(word);
    count := 0;
    if IsVowel(w[0]) {
      count := count + 1;
    }
    for index := 1 to |w|
      invariant count == OnsetsBefore(w, index)
    {
      if IsVowel(w[index]) && !IsVowel(w[index - 1]) {
        count := count + 1;
      }
    }
    if EndsWith(w, "e") {
      count := count - 1;
    }
    if EndsWith(w, "le") {
      count := count + 1;
    }
    RawCountNonNegative(word);
    if count == 0 {
      count := count + 1;
    }
  }

  /**
   * `{word.strip(): score for word in f if word.strip() not in stopwords}`:
   * every trimmed line that is not a stop word (exact case) becomes a key.
   */
  function SentimentDict(lines: seq<string>, stopwords: set<string>, score: int): (dict: map<string, int>)
    ensures forall k :: k in dict ==> k !in stopwords && dict[k] == score
    ensures forall line :: line in lines && Strip(line) !in stopwords ==> Strip(line) in dict
    ensures forall k :: k in dict ==> exists line :: line in lines && Strip(line) == k
  {
    map k | k in (set line | line in lines :: Strip(line)) && k !in stopwords :: score
  }

  /**
   * `load_word_lists`: the stop words are the raw lines of every stop-word
   * file (no trimming, no lower-casing); the two dictionaries score +1 and -1.
   */
  method LoadWordLists(stopwordFiles: seq<seq<string>>, positiveLines: seq<string>, negativeLines: seq<string>)
    returns (stopwords: set<string>, positiveDict: map<string, int>, negativeDict: map<string, int>)
    ensures forall w :: w in stopwords <==> exists i :: 0 <= i < |stopwordFiles| && w in stopwordFiles[i]
    ensures positiveDict == SentimentDict(positiveLines, stopwords, 1)
    ensures negativeDict == SentimentDict(negativeLines, stopwords, -1)
  {
    stopwords := {};
    for i := 0 to |stopwordFiles|
      invariant forall w :: w in stopwords <==> exists k :: 0 <= k < i && w in stopwordFiles[k]
    {
      stopwords := stopwords + set line | line in stopwordFiles[i];
    }
    positiveDict := SentimentDict(positiveLines, stopwords, 1);
    negativeDict := SentimentDict(negativeLines, stopwords, -1);
  }

  /**
   * The thirteen values once the divisions are safe: `sentences` and
   * `words` are what the tokenizers made of `cleanedText`.
   */
  function ScoreTokens(cleanedText: string, sentences: seq<string>, words: seq<string>,
                       positiveWords: set<string>, negativeWords: set<string>, ext: External): (m: Metrics)
    requires sentences != [] && words != [] && NonEmptyWords(words)
    ensures m.complexWordCount <= m.wordCount == |words|
    ensures m.avgNumberOfWordsPerSentence == m.avgSentenceLength
    ensures -1.0 <= m.polarityScore <= 1.0 && m.subjectivityScore >= 0.0
    ensures 0.0 <= m.percentageOfComplexWords <= 1.0
    ensures m.syllablePerWord >= 1.0 && m.avgWordLength >= 1.0
  {
    var cleanedWords := Split(cleanedText);
    var positiveScore := CountIn(cleanedWords, positiveWords);
    var negativeScore := CountIn(cleanedWords, negativeWords);
    var avgSentenceLength := Ratio(TokenTotal(sentences, ext.wordTokenize), |sentences|);
    var complexWords := ComplexWords(words);
    var percentageOfComplexWords := Ratio(|complexWords|, |words|);
    Metrics(
      positiveScore, negativeScore,
      Polarity(positiveScore, negativeScore),
      Subjectivity(positiveScore, negativeScore, |cleanedWords|),
      avgSentenceLength, percentageOfComplexWords,
      Fog(avgSentenceLength, percentageOfComplexWords),
      avgSentenceLength,
      |complexWords|, |words|, Ratio(SyllableSum(words), |words|),
      ext.pronounCount(cleanedText), Ratio(TotalLength(words), |words|))
  }

  /**
   * `calculate_text_metrics(text)`, with the module-level `stopwords`,
   * `positive_dict` and `negative_dict` passed in. The steps run in the
   * source's order, so the first failing division or `word[0]` decides the
   * exception.
   */
  function CalculateTextMetrics(text: string, stopwords: set<string>, positiveDict: map<string, int>,
                                negativeDict: map<string, int>, ext: External): (r: Result<Metrics>)
    ensures var words := ext.wordTokenize(CleanText(text, stopwords));
            r.Ok? <==> ext.sentTokenize(CleanText(text, stopwords)) != [] && words != [] && NonEmptyWords(words)
    ensures r.Ok? ==>
              var kept := RemoveStopWords(Split(text), stopwords);
              r.value.positiveScore <= |kept| && r.value.negativeScore <= |kept|
              && r.value.wordCount == |ext.wordTokenize(CleanText(text, stopwords))|
              && r.value.complexWordCount <= r.value.wordCount
              && r.value.avgNumberOfWordsPerSentence == r.value.avgSentenceLength
  {
    var cleanedText := CleanText(text, stopwords);
    var sentences := ext.sentTokenize(cleanedText);
    var words := ext.wordTokenize(cleanedText);
    if |sentences| == 0 then Err(ZeroDivisionError)
    else if !NonEmptyWords(words) then Err(IndexError)
    else if |words| == 0 then Err(ZeroDivisionError)
    else Ok(ScoreTokens(cleanedText, sentences, words, positiveDict.Keys, negativeDict.Keys, ext))
  }

  /**
   * When the metrics fail: no sentence or no word token is a division by
   * zero; an empty word token, once there is a sentence, is the `word[0]`
   * of `count_syllables`.
   */
  lemma MetricsFailures(text: string, stopwords: set<string>, positiveDict: map<string, int>,
                        negativeDict: map<string, int>, ext: External)
    ensures var cleanedText := CleanText(text, stopwords);
            var r := CalculateTextMetrics(text, stopwords, positiveDict, negativeDict, ext);
            (r.Err? && r.error == ZeroDivisionError <==>
               ext.sentTokenize(cleanedText) == [] || ext.wordTokenize(cleanedText) == [])
            && (r.Err? && r.error == IndexError <==>
               ext.sentTokenize(cleanedText) != [] && !NonEmptyWords(ext.wordTokenize(cleanedText)))
  {
  }

  /** A successful result is the scores of the cleaned text and its tokens. */
  lemma OkIsScoreTokens(text: string, stopwords: set<string>, positiveDict: map<string, int>,
                          negativeDict: map<string, int>, ext: External)
    requires CalculateTextMetrics(text, stopwords, positiveDict, negativeDict, ext).Ok?
    ensures var c := CleanText(text, stopwords);
            CalculateTextMetrics(text, stopwords, positiveDict, negativeDict, ext).value
              == ScoreTokens(c, ext.sentTokenize(c), ext.wordTokenize(c), positiveDict.Keys, negativeDict.Keys, ext)
  {
  }

  lemma ScoresOfCleanedText(text: string, stopwords: set<string>, positiveDict: map<string, int>,
                             negativeDict: map<string, int>, ext: External)
    requires CalculateTextMetrics(text, stopwords, positiveDict, negativeDict, ext).Ok?
    ensures var m := CalculateTextMetrics(text, stopwords, positiveDict, negativeDict, ext).value;
            var cleanedWords := Split(CleanText(text, stopwords));
            m.positiveScore == CountIn(cleanedWords, positiveDict.Keys)
            && m.negativeScore == CountIn(cleanedWords, negativeDict.Keys)
            && m.subjectivityScore == Subjectivity(m.positiveScore, m.negativeScore, |cleanedWords|)
  {
    OkIsScoreTokens(text, stopwords, positiveDict, negativeDict, ext);
  }

  /**
   * The sentiment scores count the words that survive stop-word removal:
   * splitting the cleaned text again gives exactly those words, so neither
   * score exceeds their number, and when no word is in both dictionaries
   * the subjectivity is at most 1.
   */
  lemma SentimentScoresCountKeptWords(text: string, stopwords: set<string>, positiveDict: map<string, int>,
                                      negativeDict: map<string, int>, ext: External)
    requires CalculateTextMetrics(text, stopwords, positiveDict, negativeDict, ext).Ok?
    ensures var m := CalculateTextMetrics(text, stopwords, positiveDict, negativeDict, ext).value;
            var kept := RemoveStopWords(Split(text), stopwords);
            m.positiveScore == CountIn(kept, positiveDict.Keys)
            && m.negativeScore == CountIn(kept, negativeDict.Keys)
            && m.positiveScore <= |kept| && m.negativeScore <= |kept|
            && (positiveDict.Keys !! negativeDict.Keys ==> m.subjectivityScore <= 1.0)
  {
    var m := CalculateTextMetrics(text, stopwords, positiveDict, negativeDict, ext).value;
    var kept := RemoveStopWords(Split(text), stopwords);
    ScoresOfCleanedText(text, stopwords, positiveDict, negativeDict, ext);
    assert Split(CleanText(text, stopwords)) == kept;
    assert m.positiveScore == CountIn(kept, positiveDict.Keys);
    assert m.negativeScore == CountIn(kept, negativeDict.Keys);
    if positiveDict.Keys !! negativeDict.Keys {
      CountInDisjoint(kept, positiveDict.Keys, negativeDict.Keys);
      assert m.subjectivityScore == Subjectivity(m.positiveScore, m.negativeScore, |kept|);
    }
  }
}
