/**
 * The arithmetic and the result shapes the three scripts share: the
 * epsilon-guarded polarity and subjectivity scores, true division, the fog
 * index, the 13-value metrics row, the Python exceptions the unguarded
 * divisions raise, and the library calls the metrics depend on.
 */
module Scores {

  /** The `0.000001` added to the polarity and subjectivity denominators. */
  const Epsilon: real := 0.000001

  /** A quotient whose numerator lies strictly between `-d` and `d` lies in [-1, 1] and has its numerator's sign. */
  lemma QuotientBounds(x: real, d: real)
    requires d > 0.0 && -d < x < d
    ensures -1.0 <= x / d <= 1.0
    ensures x / d == 0.0 <==> x == 0.0
    ensures x / d > 0.0 <==> x > 0.0
  {
    var r := x / d;
    assert r * d == x;
    if r > 0.0 {
      PositiveProduct(r, d);
    } else if r < 0.0 {
      PositiveProduct(-r, d);
    }
    if r > 1.0 {
      PositiveProduct(r - 1.0, d);
    } else if r < -1.0 {
      PositiveProduct(-1.0 - r, d);
    }
  }

  /** The sign rule the bounds on quotients rest on. */
  lemma PositiveProduct(a: real, b: real)
    requires a > 0.0 && b > 0.0
    ensures a * b > 0.0
  {
  }

  /** `(positive - negative) / ((positive + negative) + 0.000001)`. */
  function Polarity(positive: nat, negative: nat): (r: real)
    ensures -1.0 <= r <= 1.0
    ensures r == 0.0 <==> positive == negative
    ensures r > 0.0 <==> positive > negative
  {
    var d := (positive + negative) as real + Epsilon;
    QuotientBounds((positive - negative) as real, d);
    (positive - negative) as real / d
  }

  /** `(positive + negative) / (words + 0.000001)`. */
  function Subjectivity(positive: nat, negative: nat, words: nat): (r: real)
    ensures r >= 0.0
    ensures r == 0.0 <==> positive + negative == 0
    ensures positive + negative <= words ==> r <= 1.0
  {
    var d := words as real + Epsilon;
    var r := (positive + negative) as real / d;
    assert r * d == (positive + negative) as real;
    r
  }

  /** Python's true division `a / b` of two counts, for `b` other than 0. */
  function Ratio(a: nat, b: nat): (r: real)
    requires b > 0
    ensures r >= 0.0
    ensures r == 0.0 <==> a == 0
    ensures a <= b ==> r <= 1.0
    ensures b <= a ==> r >= 1.0
  {
    var r := a as real / b as real;
    assert r * b as real == a as real;
    r
  }

  /**
   * `0.4 * (avg_sentence_length + percentage_of_complex_words)`: never
   * negative for non-negative parts, and with a percentage in [0, 1] it lies
   * between 0.4 times the sentence length and 0.4 more than that.
   */
  function Fog(avgSentenceLength: real, percentageOfComplexWords: real): (fog: real)
    ensures avgSentenceLength >= 0.0 && percentageOfComplexWords >= 0.0 ==> fog >= 0.0
    ensures 0.0 <= percentageOfComplexWords <= 1.0 ==>
              0.4 * avgSentenceLength <= fog <= 0.4 * avgSentenceLength + 0.4
  {
    0.4 * (avgSentenceLength + percentageOfComplexWords)
  }

  /** The exceptions the metric code of New_Try.py and Test1.py can raise. */
  datatype PyError =
    | ZeroDivisionError  // a `/ len(...)` of an empty list
    | IndexError         // `word[0]` of an empty token in `count_syllables`

  datatype Result<T> = Ok(value: T) | Err(error: PyError)

  /**
   * The thirteen values New_Try.py returns as a tuple and Test1.py stores as
   * a row, in their column order.
   */
  datatype Metrics = Metrics(
    positiveScore: nat,
    negativeScore: nat,
    polarityScore: real,
    subjectivityScore: real,
    avgSentenceLength: real,
    percentageOfComplexWords: real,
    fogIndex: real,
    avgNumberOfWordsPerSentence: real,
    complexWordCount: nat,
    wordCount: nat,
    syllablePerWord: real,
    personalPronouns: nat,
    avgWordLength: real)

  /**
   * The calls the metrics make into code outside the scripts: NLTK's
   * `sent_tokenize` and `word_tokenize`, and the number of matches of the
   * script's personal-pronoun regular expression.
   */
  datatype External = External(
    sentTokenize: string -> seq<string>,
    wordTokenize: string -> seq<string>,
    pronounCount: string -> nat)
}
