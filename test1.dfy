/**
 * The scoring half of Test1.py, a script whose state lives in module-level
 * globals: the `stop_words` set it fills file by file, the
 * `positive_words` and `negative_words` sets, and the output table it
 * appends one row to per URL. The per-document block (lines 102-122)
 * divides by `len(sentences)` and `len(words)` without a guard, so an
 * empty document raises, and the exception ends the script.
 */
module Test1 {
  import opened PyStr
  import opened Tokens
  import opened Syllables
  import opened Scores

  /** `count_syllables(word)`: Test1.py's own copy of the vowel-run counter loop. */
  method CountSyllables(word: string) returns (count: int)
    requires word != []
    ensures count == VowelRunSyllables(word)
    ensures count >= 1
  {
    var w := Lower(word);
    count := 0;
    if IsVowel(w[0]) {
      count := count + 1;
    }
    for index := 1 to |w|
      invariant count == OnsetsBefore(w, index)
    {
      if IsVowel(w[index]) && !IsVowel(w[index - 1]) {
        count := count + 1;
      }
    }
    if EndsWith(w, "e") {
      count := count - 1;
    }
    if EndsWith(w, "le") {
      count := count + 1;
    }
    RawCountNonNegative(word);
    if count == 0 {
      count := count + 1;
    }
  }

  /** `set(word.strip() for word in f if word.strip() not in stop_words)`: exact-case exclusion. */
  function SentimentWords(lines: seq<string>, stopWords: set<string>): (words: set<string>)
    ensures forall w :: w in words ==> w !in stopWords
    ensures forall line :: line in lines && Strip(line) !in stopWords ==> Strip(line) in words
    ensures forall w :: w in words ==> exists line :: line in lines && Strip(line) == w
  {
    set line | line in lines && Strip(line) !in stopWords :: Strip(line)
  }

  /**
   * The thirteen values once the divisions are safe: `sentences` and
   * `words` are what the tokenizers made of `cleanedText`.
   */
  function ScoreTokens(cleanedText: string, sentences: seq<string>, words: seq<string>,
                       positiveWords: set<string>, negativeWords: set<string>, ext: External): (m: Metrics)
    requires sentences != [] && words != [] && NonEmptyWords(words)
    ensures m.complexWordCount <= m.wordCount == |words|
    ensures -1.0 <= m.polarityScore <= 1.0 && m.subjectivityScore >= 0.0
    ensures 0.0 <= m.percentageOfComplexWords <= 1.0
    ensures m.syllablePerWord >= 1.0 && m.avgWordLength >= 1.0
  {
    var cleanedWords := Split(cleanedText);
    var positiveScore := CountIn(cleanedWords, positiveWords);
    var negativeScore := CountIn(cleanedWords, negativeWords);
    var avgSentenceLength := Ratio(TokenTotal(sentences, ext.wordTokenize), |sentences|);
    var complexWords := ComplexWords(words);
    var percentageOfComplexWords := Ratio(|complexWords|, |words|);
    Metrics(
      positiveScore, negativeScore,
      Polarity(positiveScore, negativeScore),
      Subjectivity(positiveScore, negativeScore, |cleanedWords|),
      avgSentenceLength, percentageOfComplexWords,
      Fog(avgSentenceLength, percentageOfComplexWords),
      Ratio(|words|, |sentences|),
      |complexWords|, |words|, Ratio(SyllableSum(words), |words|),
      ext.pronounCount(cleanedText), Ratio(TotalLength(words), |words|))
  }

  /**
   * Lines 104-122 once stop words are gone: tokenize `cleanedText` and
   * score it. The steps run in the source's order, so the first failing
   * division or `word[0]` decides the exception.
   */
  function ScoreCleanedText(cleanedText: string, positiveWords: set<string>,
                            negativeWords: set<string>, ext: External): (r: Result<Metrics>)
    ensures var words := ext.wordTokenize(cleanedText);
            r.Ok? <==> ext.sentTokenize(cleanedText) != [] && words != [] && NonEmptyWords(words)
    ensures r.Ok? ==>
              r.value.positiveScore <= |Split(cleanedText)| && r.value.negativeScore <= |Split(cleanedText)|
              && r.value.wordCount == |ext.wordTokenize(cleanedText)|
              && r.value.complexWordCount <= r.value.wordCount
  {
    var sentences := ext.sentTokenize(cleanedText);
    var words := ext.wordTokenize(cleanedText);
    if |sentences| == 0 then Err(ZeroDivisionError)
    else if !NonEmptyWords(words) then Err(IndexError)
    else if |words| == 0 then Err(ZeroDivisionError)
    else Ok(ScoreTokens(cleanedText, sentences, words, positiveWords, negativeWords, ext))
  }

  /** Lines 102-122 for one document's text: remove the stop words, then score. */
  function DocumentMetrics(text: string, stopWords: set<string>, positiveWords: set<string>,
                           negativeWords: set<string>, ext: External): (r: Result<Metrics>)
    ensures r.Ok? ==>
              var kept := RemoveStopWords(Split(text), stopWords);
              r.value.positiveScore <= |kept| && r.value.negativeScore <= |kept|
  {
    ScoreCleanedText(CleanText(text, stopWords), positiveWords, negativeWords, ext)
  }

  /**
   * An empty sentence or word list is a division by zero; an empty word
   * token, once there is a sentence, is the `word[0]` of `count_syllables`.
   */
  lemma DocumentFailures(cleanedText: string, positiveWords: set<string>,
                         negativeWords: set<string>, ext: External)
    ensures var r := ScoreCleanedText(cleanedText, positiveWords, negativeWords, ext);
            (r.Err? && r.error == ZeroDivisionError <==>
               ext.sentTokenize(cleanedText) == [] || ext.wordTokenize(cleanedText) == [])
            && (r.Err? && r.error == IndexError <==>
               ext.sentTokenize(cleanedText) != [] && !NonEmptyWords(ext.wordTokenize(cleanedText)))
  {
  }

  /** The sentiment scores count the words of the cleaned text that are in each word set. */
  lemma ScoresOfCleanedText(cleanedText: string, positiveWords: set<string>,
                            negativeWords: set<string>, ext: External)
    requires ScoreCleanedText(cleanedText, positiveWords, negativeWords, ext).Ok?
    ensures var m := ScoreCleanedText(cleanedText, positiveWords, negativeWords, ext).value;
            var cleanedWords := Split(cleanedText);
            m.positiveScore == CountIn(cleanedWords, positiveWords)
            && m.negativeScore == CountIn(cleanedWords, negativeWords)
            && m.subjectivityScore == Subjectivity(m.positiveScore, m.negativeScore, |cleanedWords|)
  {
  }

  /**
   * The sentiment scores count the words that survive stop-word removal,
   * so neither exceeds their number; with disjoint word sets the
   * subjectivity is at most 1.
   */
  lemma SentimentScoresCountKeptWords(text: string, stopWords: set<string>, positiveWords: set<string>,
                                      negativeWords: set<string>, ext: External)
    requires DocumentMetrics(text, stopWords, positiveWords, negativeWords, ext).Ok?
    ensures var m := DocumentMetrics(text, stopWords, positiveWords, negativeWords, ext).value;
            var kept := RemoveStopWords(Split(text), stopWords);
            m.positiveScore == CountIn(kept, positiveWords)
            && m.negativeScore == CountIn(kept, negativeWords)
            && m.positiveScore <= |kept| && m.negativeScore <= |kept|
            && (positiveWords !! negativeWords ==> m.subjectivityScore <= 1.0)
  {
    var m := DocumentMetrics(text, stopWords, positiveWords, negativeWords, ext).value;
    var kept := RemoveStopWords(Split(text), stopWords);
    ScoresOfCleanedText(CleanText(text, stopWords), positiveWords, negativeWords, ext);
    assert Split(CleanText(text, stopWords)) == kept;
    assert m.positiveScore == CountIn(kept, positiveWords);
    assert m.negativeScore == CountIn(kept, negativeWords);
    if positiveWords !! negativeWords {
      CountInDisjoint(kept, positiveWords, negativeWords);
      assert m.subjectivityScore == Subjectivity(m.positiveScore, m.negativeScore, |kept|);
    }
  }

  /** One document as the fetch hands it over: `soup.get_text()` of the page at `url`. */
  datatype Document = Document(urlId: string, url: string, text: string)

  /** One row of the output table. */
  datatype Row = Row(urlId: string, url: string, metrics: Metrics)

  /** How the loop over the URLs ended: at the last URL, or on an uncaught exception. */
  datatype RunOutcome = Finished | Crashed(error: PyError)

  /** `DocumentMetrics` against fixed word lists, as a function of the document. */
  function Scorer(stopWords: set<string>, positiveWords: set<string>, negativeWords: set<string>,
                  ext: External): Document -> Result<Metrics>
  {
    (doc: Document) => DocumentMetrics(doc.text, stopWords, positiveWords, negativeWords, ext)
  }

  /**
   * The rows the loop appends for `docs` when `analyze` scores each one:
   * one per document, in order, up to the first document that raises.
   */
  function Rows(docs: seq<Document>, analyze: Document -> Result<Metrics>): (rows: seq<Row>)
    ensures |rows| <= |docs|
    ensures forall k :: 0 <= k < |rows| ==>
              analyze(docs[k]).Ok? && rows[k] == Row(docs[k].urlId, docs[k].url, analyze(docs[k]).value)
    ensures |rows| < |docs| ==> analyze(docs[|rows|]).Err?
  {
    if docs == [] then []
    else
      var r := analyze(docs[0]);
      if r.Err? then []
      else [Row(docs[0].urlId, docs[0].url, r.value)] + Rows(docs[1..], analyze)
  }

  /**
   * Once the first `n` documents have all scored, document `n` either adds
   * its own row or ends the rows for good.
   */
  lemma {:induction false} RowsStep(docs: seq<Document>, n: nat, analyze: Document -> Result<Metrics>)
    requires n < |docs|
    requires |Rows(docs[..n], analyze)| == n
    ensures analyze(docs[n]).Ok? ==>
              Rows(docs[..n + 1], analyze) == Rows(docs[..n], analyze) + [Row(docs[n].urlId, docs[n].url, analyze(docs[n]).value)]
    ensures analyze(docs[n]).Err? ==> Rows(docs, analyze) == Rows(docs[..n], analyze)
  {
    if n > 0 {
      assert docs[..n][1..] == docs[1..][..n - 1];
      assert docs[..n + 1][1..] == docs[1..][..n];
      RowsStep(docs[1..], n - 1, analyze);
    }
  }

  /** The script's module-level state. */
  class Session {
    var stopWords: set<string>
    var positiveWords: set<string>
    var negativeWords: set<string>
    var output: seq<Row>

    /** `stop_words = set()` and an empty output table (no earlier Output.csv). */
    constructor ()
      ensures stopWords == {} && positiveWords == {} && negativeWords == {} && output == []
    {
      stopWords, positiveWords, negativeWords, output := {}, {}, {}, [];
    }

    /** Lines 26-29: add the raw lines of each stop-word file, untrimmed and in their own case. */
    method LoadStopWords(files: seq<seq<string>>)
      modifies this`stopWords
      ensures forall w :: w in stopWords <==> w in old(stopWords) || exists i :: 0 <= i < |files| && w in files[i]
    {
      for i := 0 to |files|
        invariant forall w :: w in stopWords <==> w in old(stopWords) || exists k :: 0 <= k < i && w in files[k]
      {
        stopWords := stopWords + set line | line in files[i];
      }
    }

    /** Lines 35-39: the two word sets, built against the stop words loaded so far. */
    method LoadSentimentWords(positiveLines: seq<string>, negativeLines: seq<string>)
      modifies this`positiveWords, this`negativeWords
      ensures positiveWords == SentimentWords(positiveLines, stopWords)
      ensures negativeWords == SentimentWords(negativeLines, stopWords)
    {
      positiveWords := SentimentWords(positiveLines, stopWords);
      negativeWords := SentimentWords(negativeLines, stopWords);
    }

    /**
     * The loop of lines 79-146 with the per-document scoring passed in: one
     * row per document, appended in order, until a document's scoring
     * raises; the rows appended before that stay in the table.
     */
    method AppendRows(docs: seq<Document>, analyze: Document -> Result<Metrics>) returns (processed: nat, outcome: RunOutcome)
      modifies this`output
      ensures processed <= |docs|
      ensures outcome.Finished? <==> processed == |docs|
      ensures outcome.Crashed? ==> analyze(docs[processed]).Err? && analyze(docs[processed]).error == outcome.error
      ensures output == old(output) + Rows(docs, analyze)
      ensures |Rows(docs, analyze)| == processed
    {
      processed, outcome := 0, Finished;
      while processed < |docs|
        invariant processed <= |docs|
        invariant output == old(output) + Rows(docs[..processed], analyze)
        invariant |Rows(docs[..processed], analyze)| == processed
      {
        var doc := docs[processed];
        var r := analyze(doc);
        RowsStep(docs, processed, analyze);
        if r.Err? {
          outcome := Crashed(r.error);
          return;
        }
        output := output + [Row(doc.urlId, doc.url, r.value)];
        processed := processed + 1;
      }
      assert docs[..processed] == docs;
    }

    /**
     * Lines 79-146 over documents already fetched, scored against the
     * session's word sets: the loop stops at the first document whose
     * metrics raise and reports that document's exception.
     */
    method ProcessDocuments(docs: seq<Document>, ext: External) returns (processed: nat, outcome: RunOutcome)
      modifies this`output
      ensures processed <= |docs|
      ensures outcome.Finished? <==> processed == |docs|
      ensures outcome.Crashed? ==>
                var r := DocumentMetrics(docs[processed].text, stopWords, positiveWords, negativeWords, ext);
                r.Err? && r.error == outcome.error
      ensures output == old(output) + Rows(docs, Scorer(stopWords, positiveWords, negativeWords, ext))
      ensures |Rows(docs, Scorer(stopWords, positiveWords, negativeWords, ext))| == processed
    {
      processed, outcome := AppendRows(docs, Scorer(stopWords, positiveWords, negativeWords, ext));
    }
  }
}
