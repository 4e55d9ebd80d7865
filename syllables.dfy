/**
 * The vowel-run syllable heuristic that New_Try.py and Test1.py both define
 * as `count_syllables`: lower-case the word, count the vowels that open a
 * run of vowels, take one off for a final "e", put one back for a final
 * "le", and turn a count of 0 into 1.
 */
module Syllables {
  import opened PyStr
  import opened Tokens

  /** `vowels = "aeiouy"`: 'y' counts as a vowel. */
  predicate IsVowel(c: char)
  {
    c in "aeiouy"
  }

  /** Position `i` of `w` is a vowel that does not follow a vowel. */
  predicate OpensRun(w: string, i: nat)
    requires i < |w|
  {
    IsVowel(w[i]) && (i == 0 || !IsVowel(w[i - 1]))
  }

  /** The number of runs of vowels among the first `n` characters of `w`, counted at the position that opens each. */
  function OnsetsBefore(w: string, n: nat): nat
    requires n <= |w|
  {
    if n == 0 then 0
    else OnsetsBefore(w, n - 1) + (if OpensRun(w, n - 1) then 1 else 0)
  }

  /** The number of runs of vowels in `w`. */
  function Onsets(w: string): nat
  {
    OnsetsBefore(w, |w|)
  }

  /** The value of `count` just before the `if count == 0` fix-up. */
  function RawCount(word: string): int
  {
    var w := Lower(word);
    Onsets(w) - (if EndsWith(w, "e") then 1 else 0) + (if EndsWith(w, "le") then 1 else 0)
  }

  /**
   * `count_syllables(word)`; the scripts index `word[0]`, so `word` is not
   * empty. Every word has at least one syllable, and a counter that is
   * already positive is the result.
   */
  function VowelRunSyllables(word: string): (n: int)
    requires word != []
    ensures n >= 1
    ensures RawCount(word) >= 1 ==> n == RawCount(word)
  {
    var count := RawCount(word);
    RawCountNonNegative(word);
    if count == 0 then 1 else count
  }

  /** `[w for w in words if count_syllables(w) > 2]`: every occurrence of a complex word, in order. */
  function ComplexWords(words: seq<string>): (complex: seq<string>)
    requires NonEmptyWords(words)
    ensures |complex| <= |words|
    ensures forall w :: w in complex <==> w in words && VowelRunSyllables(w) > 2
    ensures IsSubsequence(complex, words)
  {
    if words == [] then []
    else
      assert words[0] in words && forall w :: w in words[1..] ==> w in words;
      var rest := ComplexWords(words[1..]);
      if VowelRunSyllables(words[0]) > 2 then [words[0]] + rest else rest
  }

  /** Every occurrence of a complex word is kept: each word is there as often as in `words`, or not at all. */
  lemma {:induction false} ComplexWordsOccurrences(words: seq<string>)
    requires NonEmptyWords(words)
    ensures forall w :: multiset(ComplexWords(words))[w] ==
              if w in words && VowelRunSyllables(w) > 2 then multiset(words)[w] else 0
  {
    if words != [] {
      assert words[0] in words && forall w :: w in words[1..] ==> w in words;
      assert words == [words[0]] + words[1..];
      ComplexWordsOccurrences(words[1..]);
    }
  }

  /** `sum(count_syllables(w) for w in words)`: at least one per word. */
  function SyllableSum(words: seq<string>): (n: int)
    requires NonEmptyWords(words)
    ensures n >= |words|
  {
    if words == [] then 0
    else
      assert words[0] in words && forall w :: w in words[1..] ==> w in words;
      VowelRunSyllables(words[0]) + SyllableSum(words[1..])
  }

  lemma {:induction false} OnsetsOfVowelAt(w: string, n: nat)
    requires 0 < n <= |w| && IsVowel(w[n - 1])
    ensures OnsetsBefore(w, n) >= 1
  {
    if !OpensRun(w, n - 1) {
      OnsetsOfVowelAt(w, n - 1);
    }
  }

  lemma OnsetsOfVowelEnding(w: string)
    requires w != [] && IsVowel(w[|w| - 1])
    ensures Onsets(w) >= 1
  {
    OnsetsOfVowelAt(w, |w|);
  }

  lemma {:induction false} OnsetsWithoutVowels(w: string, n: nat)
    requires n <= |w|
    requires forall i :: 0 <= i < |w| ==> !IsVowel(w[i])
    ensures OnsetsBefore(w, n) == 0
  {
    if n > 0 {
      OnsetsWithoutVowels(w, n - 1);
    }
  }

  /** The counter never goes below zero: a final "e" is itself a vowel that some run holds. */
  lemma RawCountNonNegative(word: string)
    ensures RawCount(word) >= 0
  {
    var w := Lower(word);
    if EndsWith(w, "e") {
      assert w[|w| - 1] == 'e';
      OnsetsOfVowelEnding(w);
    }
  }

  /** The count ignores case: the word is lower-cased first. */
  lemma SyllablesIgnoreCase(word: string)
    requires word != []
    ensures VowelRunSyllables(Lower(word)) == VowelRunSyllables(word)
  {
    LowerIdempotent(word);
  }

  /** For a final "le" the -1 and the +1 cancel: the result is the number of vowel runs, which is at least 1. */
  lemma LeEndingCancels(word: string)
    requires EndsWith(Lower(word), "le")
    ensures word != [] && Onsets(Lower(word)) >= 1
    ensures VowelRunSyllables(word) == Onsets(Lower(word))
  {
    var w := Lower(word);
    assert w[|w| - 1] == 'e';
    assert EndsWith(w, "e");
    OnsetsOfVowelEnding(w);
  }

  /** A word without any vowel (not even 'y') still counts as one syllable. */
  lemma NoVowelIsOneSyllable(word: string)
    requires word != []
    requires forall i :: 0 <= i < |word| ==> !IsVowel(LowerChar(word[i]))
    ensures VowelRunSyllables(word) == 1
  {
    var w := Lower(word);
    OnsetsWithoutVowels(w, |w|);
    assert !EndsWith(w, "e") by { assert !IsVowel(w[|w| - 1]); }
    assert !EndsWith(w, "le") by { assert !IsVowel(w[|w| - 1]); }
  }

  lemma AppleHasTwo()
    ensures VowelRunSyllables("apple") == 2
  {
    LowerOfLowerCase("apple");
    assert OnsetsBefore("apple", 5) == 2;
  }

  lemma TableHasTwo()
    ensures VowelRunSyllables("table") == 2
  {
    LowerOfLowerCase("table");
    assert OnsetsBefore("table", 5) == 2;
  }

  lemma OneLetterA()
    ensures VowelRunSyllables("a") == 1
  {
    LowerOfLowerCase("a");
    assert OnsetsBefore("a", 1) == 1;
  }

  lemma RhythmHasOne()
    ensures VowelRunSyllables("rhythm") == 1
  {
    LowerOfLowerCase("rhythm");
    assert OnsetsBefore("rhythm", 6) == 1;
  }

  lemma TheHasOne()
    ensures VowelRunSyllables("the") == 1
  {
    LowerOfLowerCase("the");
    assert OnsetsBefore("the", 3) == 1;
  }
}
