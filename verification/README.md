# CGU statistics core, modelled in Dafny

This project models the document-metrics core of OpenTermsArchive's
stats tool (`lib/cgus.py`). A CGU (a terms-of-service-like policy
document) gets a logical identity from its file path: service, name,
full name, and a version date in historical mode. Its text is then
tokenized, its syllables are estimated with a pronouncing dictionary,
and two Flesch readability scores are computed. The corpus locator
(`CGUsDataset.yield_all_md`) picks the Markdown files of a dataset tree.

Modules, one per component:

- `Wrappers`: `Option` and `Result`. Each exception the Python code raises becomes a `Failure`.
- `Paths`: a path as its `/`-separated segments (`as_posix().split("/")`), `str.endswith`, `str.removesuffix`, the stem.
- `Tokenizer`: the `[a-zA-Z0-9]+` tokenizer with lower-casing, as a function (`Tokenize`) and as a loop (`TokenizeText`).
- `Syllables`: vowel counting, the per-word estimate, and the document sum.
  - The pronouncing dictionary (CMUdict in the system) is a parameter of type `map<string, seq<seq<string>>>`.
- `PathIdentity`: service, name, document type and full name in both path modes.
  - The ISO date parser (`datetime.fromisoformat`) is a parameter `string -> Option<D>`.
  - The date renderer (`str(datetime)`) is a parameter `D -> string`.
- `Corpus`: the two glob patterns as filters over the listing of the tree below the root.
  - The listing is the relative segment sequences of every file and directory, in file-system order.
- `Readability`: Flesch Reading Ease and Flesch–Kincaid Grade Level over `real`.
- `Cgus`: the constructor as one function `NewCgu`, plus `Len` (`__len__`) and `ToDict` (`to_dict`).

The constructor hits its errors in source order:
1. The date parse (historical mode only).
2. The path-segment lookups.
3. The file read.
4. The syllable estimate.
5. The two divisions of the readability formulas.

The Python code leaves the empty document to a `ZeroDivisionError`. The model makes this explicit: `Readability.Compute` fails with `ZeroDivision` exactly when there are zero words or zero sentences, and `Cgus.EmptyTextUndefined` pins that for a text with no letter or digit.

The tokenizer's two lemmas `SeparatorSplits` and `RunIsOneToken`, together with `Tokenize([]) == []`, determine `Tokenize` on every text. Every text is runs of alphanumeric characters separated by other characters.

## Model

| member | source | states |
|---|---|---|
| Tokenizer.Lower | lib/cgus.py:70 | ASCII lower-casing: upper-case letters map to the matching lower-case letter, every other character is unchanged, and letters and digits map to token characters |
| Tokenizer.Scan | lib/cgus.py:49 | every match the scan emits is a non-empty word of lower-case ASCII letters and digits |
| Tokenizer.Tokenize | lib/cgus.py:70 | every token is non-empty and holds only lower-case ASCII letters and digits |
| Tokenizer.TokenizeText | lib/cgus.py:70 | the single-pass loop over the text returns exactly the token list |
| Tokenizer.TokensSpellAlnums | lib/cgus.py:49 | the tokens, concatenated in order, spell exactly the lower-cased alphanumeric characters of the text, in text order |
| Tokenizer.SeparatorSplits | lib/cgus.py:49 | a character outside `[a-zA-Z0-9]` ends a match: the tokens of `a + [c] + b` are those of `a` followed by those of `b` |
| Tokenizer.RunIsOneToken | lib/cgus.py:49 | matches are maximal: a non-empty run of letters and digits is exactly one token, its lower-cased form |
| Tokenizer.NoTokensIffNoAlnum | lib/cgus.py:70 | a text yields no token if and only if it contains no ASCII letter or digit |
| Syllables.VowelCount | lib/cgus.py:108-109 | the vowel count is at most the number of phonemes; it is 0 iff no phoneme ends in a digit, and it equals the length iff every phoneme does |
| Syllables.VowelCountAppend | lib/cgus.py:108-109 | counting vowels is additive over joined transcriptions |
| Syllables.MaxVowels | lib/cgus.py:117-118 | for a non-empty list of transcriptions, the result is at least every transcription's vowel count and equal to one of them |
| Syllables.WordSyllablesSpec | lib/cgus.py:102-118 | `WordSyllables`, the model of `_num_syllables`: a word missing from the dictionary scores 1; a word listed with no transcription fails as `max` of nothing does; a transcription with an empty phoneme code fails as indexing its last character does; otherwise the score is the maximum vowel count over the word's transcriptions |
| Syllables.DocSyllablesSucceeds | lib/cgus.py:73 | `DocSyllables`, the model of the syllable sum: it succeeds iff every token's estimate succeeds, and a failure is the error of the first token whose estimate fails |
| Syllables.ListedWordScoresMax | lib/cgus.py:117-118 | a listed word whose transcriptions all have readable phoneme codes scores the maximum vowel count over them |
| Syllables.DocSyllablesOne | lib/cgus.py:73 | `DocSyllables`: the count of no token is 0 and the count of one token is that token's estimate, so with additivity the count of a token list is the sum of its tokens' estimates |
| Syllables.DocSyllablesAppend | lib/cgus.py:73 | `DocSyllables`: the syllable count of concatenated token lists is the sum of their counts |
| Syllables.UnknownWordsCountOne | lib/cgus.py:111-115 | tokens all missing from the dictionary count exactly one syllable each |
| Syllables.CaramelExample | lib/cgus.py:117-118 | a word with transcriptions of 3 and 2 vowels scores 3, the larger count |
| Paths.RemoveSuffix | lib/cgus.py:64 | `removesuffix(".md")` gives back a stem that, with the suffix appended, is the file name; a name without the suffix is unchanged |
| PathIdentity.ParseIdentity | lib/cgus.py:57-68 | normal mode succeeds iff the path has at least two segments; historical mode succeeds iff the stem parses as a date and the path has at least three segments; a bad date is reported before missing segments, and a path too short for its mode with no bad date fails with the missing-segment error; the document type is the name; a version date is present exactly in historical mode |
| PathIdentity.NormalIdentity | lib/cgus.py:63-66 | normal mode: the name plus `.md` is the file name, the service is the parent directory, and the full name is `service - name` |
| PathIdentity.HistoricalIdentity | lib/cgus.py:58-62 | historical mode: the name is the parent directory, the service the grandparent, the version date is the parsed stem, and the full name is `service - name - <rendered date>` |
| PathIdentity.IdentityIgnoresAncestors | lib/cgus.py:58-66 | the identity depends only on the last two segments (three in historical mode), so any prefix of further directories leaves it unchanged |
| PathIdentity.FullnameDeterminesIdentity | lib/cgus.py:66 | when services contain no `-`, a normal-mode full name determines the service and the name |
| PathIdentity.FullnameCollision | lib/cgus.py:66 | without that condition, two different documents (`A - B/C.md` and `A/B - C.md`) get the same full name |
| PathIdentity.FakeServiceExample | tests/unit/test_cgus.py:24-29 | `FakeService/Community Guidelines.md` gives service `FakeService`, name and document type `Community Guidelines`, and full name `FakeService - Community Guidelines` |
| PathIdentity.InstagramExample | lib/cgus.py:58-62 | `Instagram/Community Guidelines/2020-01-15.md` in historical mode gives service `Instagram`, name `Community Guidelines`, the parsed date, and full name `Instagram - Community Guidelines - 2020-01-15 00:00:00` |
| PathIdentity.UndatedHistoricalFails | lib/cgus.py:59 | a historical file whose stem is not a date fails with the date error |
| Corpus.Glob | lib/cgus.py:35-39 | a path is in the result iff it is in the listing and the pattern matches it; the result is no longer than the listing |
| Corpus.IgnoreRootdirFilters | lib/cgus.py:35-39 | `YieldAllMd`, the model of `yield_all_md`: over one listing of the tree, the `ignore_rootdir=True` result is the `ignore_rootdir=False` result filtered to depth two or more, in the listing's order |
| Corpus.IgnoreRootdirSubset | lib/cgus.py:35-39 | every path found with `ignore_rootdir=True` is also found with `ignore_rootdir=False` |
| Corpus.DifferenceIsTopLevel | lib/cgus.py:35-39 | the full result is, as a multiset, the nested result plus exactly the `.md` paths directly under the root; the counts add up the same way |
| Corpus.GlobAppend | lib/cgus.py:35-39 | globbing two consecutive parts of a listing gives their matches one after the other |
| Corpus.FixtureCounts | tests/unit/test_cgus.py:18-21 | an illustrative tree with the fixture's counts (six nested documents, one top-level Markdown file; only the two `Community Guidelines.md` files are known from the tests) yields 6 paths with `ignore_rootdir` and 7 without it |
| Readability.Compute | lib/cgus.py:76-77 | `ReadingEase` and `GradeLevel`, the two formulas: the scores fail with a division by zero iff there are no words or no sentences; otherwise they are the Flesch Reading Ease and Flesch–Kincaid Grade Level of the counts |
| Readability.ScoresScaleInvariant | lib/cgus.py:76-77 | both scores depend only on words per sentence and syllables per word: scaling all three counts by the same factor leaves them unchanged |
| Readability.MoreSyllablesHarder | lib/cgus.py:76-77 | more syllables over the same words and sentences strictly lower the reading ease and raise the grade level |
| Readability.MoreSentencesEasier | lib/cgus.py:76-77 | the same words split into more sentences strictly raise the reading ease and lower the grade level |
| Readability.TestDocumentScores | tests/unit/test_cgus.py:34-37 | 29 words, 4 sentences and 37 syllables give a reading ease that rounds to 91.5 and a grade level that rounds to 2.3 |
| Cgus.NewCgu | lib/cgus.py:54-77 | the constructor fails in source order: a path error whatever the content, then an unreadable file, then a failed syllable estimate, then the division by zero of zero words or zero sentences; it succeeds exactly when every stage does; the CGU built carries the parsed identity, the mode flag, the content, its tokens, the given sentence count, the syllable sum and the two scores over those counts |
| Cgus.FullnameOfCgu | lib/cgus.py:58-66 | the full name of a constructed CGU, the key of its summary in the report, is `service - name` from the path, with the rendered version date appended in historical mode |
| Cgus.LenIsTokenCount | lib/cgus.py:97-99 | `Len`, the model of `__len__`: the length of a constructed CGU is the number of tokens of its text |
| Cgus.SummaryOfCgu | lib/cgus.py:80-89 | `ToDict`, the model of `to_dict`: the summary's document type is the name from the path, its word count is the number of tokens, and its scores are the Flesch formulas over the counts |
| Cgus.EmptyTextUndefined | lib/cgus.py:70-77 | a readable text with no letter or digit, on a valid path, fails with the division by zero |
| Cgus.UnknownWordsSyllables | lib/cgus.py:111-115 | when no word of the text is in the dictionary, the syllable count equals the word count |
| Cgus.TestDocumentSummary | tests/unit/test_cgus.py:30-37 | a CGU of 29 words, 4 sentences and 37 syllables has a summary with 29 words and scores that round to 91.5 and 2.3 |

## Left out

- NLTK data download, logging setup and the other module-level side effects (lib/cgus.py:6-22): network and I/O.
- The Punkt sentence splitter (lib/cgus.py:72): a foreign statistical model. The sentence count is a natural-number parameter of `NewCgu`.
- Loading CMUdict (lib/cgus.py:52): the dictionary is a map parameter.
- `datetime.fromisoformat` and the rendering of a `datetime` as a string (lib/cgus.py:59, 62): foreign calls, modelled as a partial parser parameter and a renderer parameter.
- Reading the file (lib/cgus.py:69): the content is an `Option<string>` parameter, and `None` stands for a failed read.
- The decoding of the file's bytes into text is not part of this model.
- The root existence and is-directory assertions of `CGUsDataset.__init__` (lib/cgus.py:29-32): file-system queries.
- The file-system walk behind `Path.glob`: the listing of the tree is an input.
  - Symbolic links, hidden-file rules and enumeration order are not modelled. The model keeps the listing's order.
- Floating-point rounding of the scores: the formulas are stated over exact reals. The unit test's one-decimal values are stated as real intervals.
- `__str__` and `__repr__` (lib/cgus.py:91-95): display only.
- The driver scripts `bin/generate_stats.py` and `bin/generate_historical_stats.py`: command-line parsing, JSON serialisation and output-directory creation. The round trip of a summary through JSON belongs to them.
- Syllables.WordSyllablesSpec: a vowel is a phoneme ending in an ASCII digit `0`-`9`. Python's `str.isdigit` also accepts other Unicode digits. CMUdict phoneme codes are ASCII, so the two agree on CMUdict.
- Tokenizer.Lower: lower-casing is stated for ASCII only. Tokens contain only ASCII letters and digits, so this loses nothing for the tokenizer.
- Corpus.IgnoreRootdirFilters: the ordered equation holds for one shared listing of the tree. `Path.glob` walks the tree separately for each pattern, and `**/*/*.md` can yield files in a different order than `**/*.md` does. Across two real traversals only the multiset statement of `Corpus.DifferenceIsTopLevel` is promised.
- Paths: `Path.name` is taken to be the last segment of `as_posix().split("/")`. The two differ only for the path `.`, which names no document.
