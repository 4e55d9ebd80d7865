# Text metrics of three article-scoring scripts

The repository has three near-duplicate Python scripts: `New_Try.py`,
`Code_TextAnalysis.py` and `Test1.py`. Each one fetches articles and scores
their text against fixed lexicons: stop words, a positive word list and a
negative word list. The score has thirteen values:

- positive score and negative score;
- polarity and subjectivity;
- average sentence length;
- percentage of complex words;
- fog index;
- average number of words per sentence;
- complex word count and word count;
- syllables per word;
- personal pronouns;
- average word length.

This project models the scoring half of each script as that script writes
it. The three variants really differ, so each has its own module:

| module | file | what it holds |
|---|---|---|
| `PyStr` | `py_str.dfy` | The Python `str` operations the scripts rely on: `isspace`, `lower`, `strip`, `split()`, `' '.join`, `endswith`, `in`, `isalpha`. It also proves the round trip `split(join(ws)) == ws` for whitespace-free words. |
| `Tokens` | `tokens.dfy` | Stop-word removal and re-joining, the counting sums, and the proof that re-splitting the cleaned text gives exactly the surviving words. |
| `Syllables` | `syllables.dfy` | The vowel-run syllable counter that `New_Try.py` and `Test1.py` share, with its lemmas. |
| `Scores` | `scores.dfy` | The shared pieces: the ε-guarded polarity and subjectivity formulas, true division, the 13-value row, the Python exceptions, and the calls into NLTK and the regex engine, which come in as parameters. |
| `NewTry` | `new_try.dfy` | `load_word_lists`, `count_syllables` (the counter loop) and `calculate_text_metrics`. |
| `Test1` | `test1.dfy` | The module-level word sets, modelled as a `Session` class. It holds `count_syllables`, the per-document block, and the loop that appends one output row per document until a document raises. |
| `CodeTextAnalysis` | `code_text_analysis.dfy` | `load_stop_words` and `load_sentiment_words`, the vowel-letter syllable counter, the character-level preprocessing, the `isalpha`/lower-case filter, and the zero-guarded 13-key record. |

How the model treats the code:

- Lexicon files are given as the sequences of lines already read from them.
- NLTK's `sent_tokenize` and `word_tokenize`, and the number of matches of each script's pronoun regex, are function parameters (the `External` datatype).
- Python floats are modelled as `real`.
- In `New_Try.py` and `Test1.py` the divisions by `len(sentences)` and `len(words)` are unguarded, so their metrics are a `Result`:
  - `ZeroDivisionError` when there are no sentences or no words;
  - `IndexError` when a word token is empty, because `count_syllables` reads `word[0]`.
- The model checks these failures in the order the source evaluates them.

The model follows each script as written; in particular:

- `New_Try.py` and `Test1.py` do not trim or lower-case their stop words. They add the raw lines.
- They test sentiment words against the stop words in exact case.
- They tokenize sentences and count pronouns on the stop-word-filtered text, not on the raw text.
- They do not guard their divisions.
- No script drops empty lexicon lines. An empty stripped line becomes a dictionary key unless the empty string is a stop word.
- `Code_TextAnalysis.py` keeps its own vowel-letter syllable counter, which gives "apple" 3 syllables where the vowel-run counter gives 2.
- `Code_TextAnalysis.py` takes its sentences from the raw text, because line 107 overwrites line 100.
- Subjectivity can exceed 1 when a word is in both lexicons, because it is counted on both sides. The bound of 1 is proved only for disjoint lexicons.

## Model

| member | source | states |
|---|---|---|
| PyStr.SplitJoin | New_Try.py:94-98 | Joining non-empty, whitespace-free words with single spaces and splitting the result again returns exactly those words. |
| Tokens.RemoveStopWords | New_Try.py:94 | A word survives exactly when it is not a stop word (exact case). Every occurrence of a surviving word is kept, as often as in the input, and the survivors keep their original order. |
| Tokens.CleanText | New_Try.py:94 | Splitting the cleaned text again gives exactly the whitespace-split words of the input that are not stop words. So every occurrence is kept, the order is kept, and no stop word remains. `Test1.py` line 102 uses the same expression. |
| Tokens.CountIn | New_Try.py:98-99 | A score is at most the number of words. It is 0 exactly when no word is in the lexicon, and equals the word count exactly when every word is. |
| Tokens.CountInDisjoint | New_Try.py:98-101 | When no word is in both lexicons, the positive and negative scores together are at most the number of words. |
| Tokens.TotalLength | New_Try.py:115 | With no empty token, the summed token lengths are at least the number of tokens. |
| Scores.Polarity | New_Try.py:100 | Polarity lies in [-1, 1]. It is 0 exactly when the two scores are equal, and positive exactly when the positive score is larger. |
| Scores.Subjectivity | New_Try.py:101 | Subjectivity is non-negative and is 0 exactly when nothing matched. It is at most 1 when the matches do not outnumber the words. |
| Scores.Fog | New_Try.py:109 | The fog index is non-negative when both parts are. With a complex-word percentage in [0, 1], it lies between 0.4 times the average sentence length and 0.4 more than that. |
| Scores.Ratio | Test1.py:113-122 | True division of two counts is non-negative and is 0 exactly when the numerator is 0. It is at most 1 when the numerator is not larger than the denominator, and at least 1 when it is not smaller. |
| Syllables.VowelRunSyllables | New_Try.py:72-90 | Every non-empty word has at least one syllable. When the counter before the `count == 0` fix-up is already positive, it is the result. |
| Syllables.ComplexWords | New_Try.py:107 | The complex words are exactly the tokens with more than 2 syllables, in token order, and there are no more of them than tokens. |
| Syllables.ComplexWordsOccurrences | New_Try.py:107 | Every occurrence of a complex token is kept: each complex word appears as often as among the tokens, and no other word appears. |
| Syllables.SyllableSum | New_Try.py:113 | The syllable total is at least the number of tokens. |
| Syllables.RawCountNonNegative | New_Try.py:76-87 | The counter before the `count == 0` fix-up is never negative: a final "e" is a vowel that some run already counted. |
| Syllables.SyllablesIgnoreCase | New_Try.py:75 | Lower-casing the word first does not change the count. |
| Syllables.LeEndingCancels | New_Try.py:84-87 | For a word ending in "le" the -1 and +1 cancel. The result is the number of vowel runs, which is at least 1. |
| Syllables.NoVowelIsOneSyllable | New_Try.py:74-90 | A word with no vowel letter ('y' counts as a vowel) has exactly one syllable. |
| Syllables.AppleHasTwo | New_Try.py:72-90 | "apple" has 2 syllables. |
| Syllables.TableHasTwo | New_Try.py:72-90 | "table" has 2 syllables. |
| Syllables.OneLetterA | New_Try.py:72-90 | "a" has 1 syllable. |
| Syllables.RhythmHasOne | New_Try.py:72-90 | "rhythm" has 1 syllable: its 'y' opens the only vowel run. |
| Syllables.TheHasOne | New_Try.py:72-90 | "the" has 1 syllable: the final "e" cancels its only run, and the clamp restores 1. |
| NewTry.CountSyllables | New_Try.py:72-90 | The counter loop returns the vowel-run count of the word, which is at least 1. The word must be non-empty, because `word[0]` is read unconditionally. |
| NewTry.SentimentDict | New_Try.py:19-22 | No key is a stop word, and every value is the lexicon's score. Every line whose stripped form is not a stop word is a key, and every key is some stripped line. |
| NewTry.LoadWordLists | New_Try.py:12-24 | The stop words are exactly the raw lines of all stop-word files. The dictionaries are the positive lines scored +1 and the negative lines scored -1, excluding stop words. |
| NewTry.ScoreTokens | New_Try.py:98-120 | For non-empty sentence and word lists:<br>• the complex word count is at most the word count, which is the number of tokens;<br>• the two "words per sentence" fields are equal;<br>• polarity is in [-1, 1] and subjectivity is non-negative;<br>• the complex-word percentage is in [0, 1];<br>• syllables per word and average word length are at least 1. |
| NewTry.CalculateTextMetrics | New_Try.py:92-120 | The metrics succeed exactly when the cleaned text has a sentence and word tokens, none of them empty. A successful result:<br>• has sentiment scores no larger than the number of words left after stop-word removal;<br>• has a word count equal to the number of word tokens;<br>• has a complex word count no larger than the word count;<br>• repeats the average sentence length in the words-per-sentence field. |
| NewTry.MetricsFailures | New_Try.py:103-113 | The metrics raise `ZeroDivisionError` exactly when there are no sentences or no word tokens. They raise `IndexError` exactly when there is a sentence and some word token is empty. |
| NewTry.SentimentScoresCountKeptWords | New_Try.py:94-101 | Both sentiment scores count the words that survive stop-word removal, and neither exceeds their number. With disjoint dictionaries, subjectivity is at most 1. |
| Test1.CountSyllables | Test1.py:60-75 | The copy of the counter loop returns the same vowel-run count as `NewTry.CountSyllables`, at least 1, for every non-empty word. |
| Test1.SentimentWords | Test1.py:35-39 | No element is a stop word. Every line whose stripped form is not a stop word contributes it, and every element is some stripped line. |
| Test1.ScoreTokens | Test1.py:106-122 | For non-empty sentence and word lists:<br>• the complex word count is at most the word count, which is the number of tokens;<br>• polarity is in [-1, 1] and subjectivity is non-negative;<br>• the complex-word percentage is in [0, 1];<br>• syllables per word and average word length are at least 1. |
| Test1.ScoreCleanedText | Test1.py:104-122 | Scoring succeeds exactly when the cleaned text has a sentence and word tokens, none of them empty. On success, the sentiment scores are at most the number of words of the cleaned text. The word count is the number of word tokens, and the complex word count is at most the word count. |
| Test1.DocumentMetrics | Test1.py:102-122 | On success, the sentiment scores are at most the number of words left after stop-word removal. |
| Test1.DocumentFailures | Test1.py:111-117 | An empty sentence or word list raises `ZeroDivisionError`. An empty word token, once there is a sentence, raises `IndexError`. |
| Test1.SentimentScoresCountKeptWords | Test1.py:102-109 | Both sentiment scores count the words that survive stop-word removal, and neither exceeds their number. With disjoint word sets, subjectivity is at most 1. |
| Test1.Rows | Test1.py:125-144 | The rows are one per document, in order, each holding that document's identifiers and metrics. They stop at the first document whose metrics raise. |
| Test1.RowsStep | Test1.py:143-146 | Once the first n documents have scored, document n either appends its own row or ends the rows for good. |
| Test1.Session.constructor | Test1.py:11 | The stop words, both word sets and the output table start empty. |
| Test1.Session.LoadStopWords | Test1.py:26-29 | The stop words become the old ones plus every raw line of every file. |
| Test1.Session.LoadSentimentWords | Test1.py:35-39 | The two word sets are the stripped lines of each lexicon that are not stop words. |
| Test1.Session.AppendRows | Test1.py:79-146 | For any per-document scoring, the loop appends the rows of the documents, in order. It finishes when all documents have scored. Otherwise it stops at the first document whose scoring raises, reports that exception, and keeps the rows already appended. |
| Test1.Session.ProcessDocuments | Test1.py:79-146 | The same loop with the session's own word sets: it appends the rows of the documents, in order, and stops at the first document whose metrics raise, reporting that document's exception. |
| CodeTextAnalysis.NormalisedLines | Code_TextAnalysis.py:29 | Every word read from a file is stripped and has no upper-case letter. Every line contributes its stripped, lower-cased form, and every word comes from some line. |
| CodeTextAnalysis.NormalisedLine | Code_TextAnalysis.py:29 | A stripped, lower-cased line has no surrounding whitespace and no upper-case letter. |
| CodeTextAnalysis.LoadStopWords | Code_TextAnalysis.py:24-30 | The stop words are the union over all files of their stripped, lower-cased lines. Every stop word is stripped and lower-case. |
| CodeTextAnalysis.LoadSentimentWords | Code_TextAnalysis.py:32-35 | No key's lower-cased form is a stop word, and every value is 1 or -1. A value is 1 exactly when the path contains "positive". Every line whose lower-cased stripped form is not a stop word is a key (stripped), and every key is some stripped line. |
| CodeTextAnalysis.LexiconFilesScores | Code_TextAnalysis.py:133-135 | With the script's two file names, every positive entry scores 1 and every negative entry scores -1. |
| CodeTextAnalysis.VowelLetters | Code_TextAnalysis.py:87 | There are no more vowel letters than letters. |
| CodeTextAnalysis.VowelLetterSyllables | Code_TextAnalysis.py:83-91 | The count is at least 1 for every word, the empty word included. |
| CodeTextAnalysis.AtMostOneEnding | Code_TextAnalysis.py:88 | At most one of the "es"/"ed" corrections applies. |
| CodeTextAnalysis.LetterSyllablesFormula | Code_TextAnalysis.py:87-90 | The count is max(1, vowel letters − [ends in "es" or "ed"] + [ends in "le"]). |
| CodeTextAnalysis.EmptyWordHasOneSyllable | Code_TextAnalysis.py:83-91 | The empty word counts as one syllable. |
| CodeTextAnalysis.LetterSyllablesAtMostLength | Code_TextAnalysis.py:83-91 | A non-empty word has no more syllables than letters, even with the "le" correction. |
| CodeTextAnalysis.LetterSyllablesIgnoreCase | Code_TextAnalysis.py:85 | Lower-casing the word first does not change the count. |
| CodeTextAnalysis.AppleHasThree | Code_TextAnalysis.py:83-91 | "apple" has 3 syllables: 2 vowel letters plus 1 for the final "le". |
| CodeTextAnalysis.PlayedHasTwo | Code_TextAnalysis.py:83-91 | "played" has 2 syllables: 3 vowel letters, 'y' included, minus 1 for "ed". |
| CodeTextAnalysis.CountersDisagreeOnApple | Code_TextAnalysis.py:83-91 | The script's counter and the vowel-run counter of the other two scripts disagree on "apple" (3 against 2). |
| CodeTextAnalysis.CollapseWhitespace | Code_TextAnalysis.py:96 | After collapsing:<br>• every whitespace character is a plain space;<br>• no two whitespace characters are adjacent;<br>• the non-whitespace characters are exactly those of the input, in order;<br>• the result is empty only for empty input;<br>• it starts with whitespace exactly when the input does. |
| CodeTextAnalysis.CollapseWhitespaceOfWord | Code_TextAnalysis.py:96 | A whitespace-free prefix passes through the substitution unchanged. |
| CodeTextAnalysis.CollapseWhitespaceLast | Code_TextAnalysis.py:96 | The result ends in whitespace exactly when the input does. |
| CodeTextAnalysis.CollapseWhitespaceKeepsWords | Code_TextAnalysis.py:96 | The result splits into exactly the words of the input. With the two rows above, this fixes the result: each maximal whitespace run became exactly one space. |
| CodeTextAnalysis.RemoveDisallowed | Code_TextAnalysis.py:97 | Each allowed character (ASCII letter, digit, whitespace or `.,!?-`) occurs as often as in the input, and every other character is gone. |
| CodeTextAnalysis.RemoveDisallowedConcat | Code_TextAnalysis.py:97 | The removal works character by character and keeps order: it distributes over concatenation. |
| CodeTextAnalysis.RemoveDisallowedChar | Code_TextAnalysis.py:97 | A single character is kept exactly when it is allowed. With the row above, this fixes the result for every string. |
| CodeTextAnalysis.RemoveDisallowedIdempotent | Code_TextAnalysis.py:97 | Applying the removal a second time changes nothing. |
| CodeTextAnalysis.Preprocess | Code_TextAnalysis.py:96-97 | After both substitutions every character is an ASCII letter, a digit, a plain space or one of `.,!?-`. |
| CodeTextAnalysis.KeepWords | Code_TextAnalysis.py:102 | A token is kept exactly when it is alphabetic and its lower-cased form is not a stop word. Every occurrence of a kept token is kept, so there are no more words than tokens. The kept tokens keep their order, and none is empty. |
| CodeTextAnalysis.ComplexWords | Code_TextAnalysis.py:109 | The complex words are exactly the kept words with more than 2 syllables. Every occurrence is kept, in order, and there are no more of them than words. |
| CodeTextAnalysis.SyllableSum | Code_TextAnalysis.py:112 | The syllable total is at least the number of words. |
| CodeTextAnalysis.MetricKeysDistinct | Code_TextAnalysis.py:116-130 | The record has 13 distinct keys. |
| CodeTextAnalysis.GuardedRatio | Code_TextAnalysis.py:110 | A guarded ratio is the integer 0 when the divisor is 0. Otherwise it is a non-negative float, at most 1 when the numerator is not larger. |
| CodeTextAnalysis.ScoreWords | Code_TextAnalysis.py:116-130 | The record holds the 13 keys in insertion order. |
| CodeTextAnalysis.CalculateTextMetrics | Code_TextAnalysis.py:93-130 | The function never raises. Every text gets a record with the same 13 keys in the same order, which `main` uses as the output columns. The word count is at most the number of tokens of the preprocessed text. A text without sentences gets the integer 0 for both words-per-sentence fields. |
| CodeTextAnalysis.ScoreWordsFacts | Code_TextAnalysis.py:103-127 | "AVG NUMBER OF WORDS PER SENTENCE" equals "AVG SENTENCE LENGTH".<br>• The scores and the complex word count are integers no larger than the word count.<br>• No sentences gives an average sentence length of integer 0.<br>• No words gives integer 0 for the percentage, syllables per word and average word length.<br>• Subjectivity is 0 exactly when nothing matched, and polarity is 0 exactly when the two scores are equal.<br>• With words present, syllables per word is at least 1. |
| CodeTextAnalysis.RetainedWords | Code_TextAnalysis.py:100-102 | The words scored are alphabetic, their lower-cased forms are not stop words, and they appear in token order. |

## Left out

- Fetching articles over HTTP and extracting text from the HTML (`extract_article_text`, and the `requests`/BeautifulSoup code in `Test1.py`). A document enters the model as the text it would yield.
  - `Test1.py` also reads the page title with `soup.find('title').string`. That raises when a page has no title, and the model does not capture it.
- File, spreadsheet and CSV I/O: opening the lexicon files, reading `Input.xlsx`, writing `Output.csv`, and `New_Try.py`'s text-file saving. The loaders take the lines already read.
  - The model does not distinguish `splitlines()` from iterating over the file, which keeps the newline until `strip()` removes it.
- Skipping a URL that is already in the output table. `Test1.py` checks each URL against the table, which holds the rows of an earlier run and grows during the current run. So a URL listed twice in the input is scored only once. `Test1.Session.ProcessDocuments` and `Test1.Session.AppendRows` append a row for every document, including one whose URL is already in the table.
- The `main` functions' driver loops in `New_Try.py` and `Code_TextAnalysis.py`. `Test1.Session.ProcessDocuments` models the `Test1.py` loop over documents already fetched.
- NLTK tokenization and the personal-pronoun regular expressions. These are function parameters, because their behaviour belongs to foreign libraries and to Python's `re` word-boundary and IGNORECASE semantics.
- `TextBlob` in `Test1.py`, whose result is never used.
- IEEE-754 floating point. The ratios are exact `real` values, so no float-level bound such as a strict |polarity| < 1 is claimed.
- PyStr.Lower: lower-cases ASCII letters only. Python's `str.lower` also maps non-ASCII letters.
- PyStr.IsAlpha: treats only ASCII letters as alphabetic. Python's `str.isalpha` accepts every Unicode letter.
- Scores.Subjectivity: the bound of 1 is stated only when the matched words do not outnumber the words. With a word in both lexicons the source's value can exceed 1.
