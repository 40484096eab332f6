/**
 * A CGU: one policy document, its identity read from its path and its
 * metrics computed from its text.
 */
module Cgus {
  import opened Wrappers
  import opened Paths
  import PathIdentity
  import Tokenizer
  import Syllables
  import Readability

  /** Why constructing a CGU fails, in the order the constructor meets them. */
  datatype CguError =
    | BadPath(pathError: PathIdentity.PathError)
    | Unreadable
    | BadPronunciation(syllableError: Syllables.SyllableError)
    | Undefined(metricError: Readability.MetricError)

  datatype Cgu<D> = Cgu(identity: PathIdentity.Identity<D>, isHistorical: bool, rawContent: string,
                        tokens: seq<string>, sentenceCount: nat, syllableCount: nat,
                        scores: Readability.Scores)

  /** The key/value form of a CGU, keyed by its full name in the report. */
  datatype Summary = Summary(documentType: string, numWords: nat, readability: real,
                             readabilityGradeLevel: real)

  /**
   * Builds the CGU of the file at `path`. `content` is the text read from
   * it (`None` when it cannot be read), `sentenceCount` the number of
   * sentences the sentence splitter finds in that text, `dict` the
   * pronouncing dictionary, `parseDate` and `showDate` the date parser and
   * renderer of historical mode.
   */
  function NewCgu<D>(path: Path, isHistorical: bool, content: Option<string>, sentenceCount: nat,
                     dict: Syllables.PronouncingDict,
                     parseDate: string -> Option<D>, showDate: D -> string)
    : (r: Result<Cgu<D>, CguError>)
    requires |path| > 0
    // The constructor's failures, in the order it meets them.
    ensures var id := PathIdentity.ParseIdentity(path, isHistorical, parseDate, showDate);
      id.Failure? ==> r == Failure(BadPath(id.error))
    ensures PathIdentity.ParseIdentity(path, isHistorical, parseDate, showDate).Success? && content.None? ==>
      r == Failure(Unreadable)
    ensures PathIdentity.ParseIdentity(path, isHistorical, parseDate, showDate).Success? && content.Some? ==>
      var syllables := Syllables.DocSyllables(dict, Tokenizer.Tokenize(content.value));
      syllables.Failure? ==> r == Failure(BadPronunciation(syllables.error))
    ensures PathIdentity.ParseIdentity(path, isHistorical, parseDate, showDate).Success? && content.Some? ==>
      var tokens := Tokenizer.Tokenize(content.value);
      Syllables.DocSyllables(dict, tokens).Success? && (|tokens| == 0 || sentenceCount == 0) ==>
      r == Failure(Undefined(Readability.ZeroDivision))
    // Exactly the inputs that pass every stage give a CGU.
    ensures r.Success? <==>
      && PathIdentity.ParseIdentity(path, isHistorical, parseDate, showDate).Success?
      && content.Some?
      && Syllables.DocSyllables(dict, Tokenizer.Tokenize(content.value)).Success?
      && |Tokenizer.Tokenize(content.value)| > 0 && sentenceCount > 0
    // The fields of the CGU built.
    ensures r.Success? ==>
      && r.value.identity == PathIdentity.ParseIdentity(path, isHistorical, parseDate, showDate).value
      && r.value.isHistorical == isHistorical
      && r.value.rawContent == content.value
      && r.value.tokens == Tokenizer.Tokenize(content.value)
      && r.value.sentenceCount == sentenceCount
      && Syllables.DocSyllables(dict, r.value.tokens) == Success(r.value.syllableCount)
      && Readability.Compute(|r.value.tokens|, sentenceCount, r.value.syllableCount) == Success(r.value.scores)
  {
    match PathIdentity.ParseIdentity(path, isHistorical, parseDate, showDate)
    case Failure(e) => Failure(BadPath(e))
    case Success(id) =>
      match content
      case None => Failure(Unreadable)
      case Some(text) =>
        var tokens := Tokenizer.Tokenize(text);
        match Syllables.DocSyllables(dict, tokens)
        case Failure(e) => Failure(BadPronunciation(e))
        case Success(syllables) =>
          match Readability.Compute(|tokens|, sentenceCount, syllables)
          case Failure(e) => Failure(Undefined(e))
          case Success(scores) =>
            Success(Cgu(id, isHistorical, text, tokens, sentenceCount, syllables, scores))
  }

  /** The length of a CGU: its number of words. */
  function Len<D>(c: Cgu<D>): nat
  {
    |c.tokens|
  }

  function ToDict<D>(c: Cgu<D>): Summary
  {
    Summary(c.identity.documentType, Len(c), c.scores.readingEase, c.scores.gradeLevel)
  }

  /**
   * The full name of a constructed CGU, the key of its summary in the
   * report: `service - name` read from the path, with the rendered version
   * date appended in historical mode.
   */
  lemma FullnameOfCgu<D>(path: Path, isHistorical: bool, content: Option<string>, sentenceCount: nat,
                         dict: Syllables.PronouncingDict,
                         parseDate: string -> Option<D>, showDate: D -> string)
    requires |path| > 0
    requires NewCgu(path, isHistorical, content, sentenceCount, dict, parseDate, showDate).Success?
    ensures var id := NewCgu(path, isHistorical, content, sentenceCount, dict, parseDate, showDate).value.identity;
      && (!isHistorical ==> id.fullname == path[|path| - 2] + PathIdentity.Separator + Stem(path))
      && (isHistorical ==>
            id.fullname == path[|path| - 3] + PathIdentity.Separator + path[|path| - 2]
                           + PathIdentity.Separator + showDate(parseDate(Stem(path)).value))
  {
  }

  /** The length of a constructed CGU is the number of tokens of its text. */
  lemma LenIsTokenCount<D>(path: Path, isHistorical: bool, content: Option<string>, sentenceCount: nat,
                           dict: Syllables.PronouncingDict,
                           parseDate: string -> Option<D>, showDate: D -> string)
    requires |path| > 0
    requires NewCgu(path, isHistorical, content, sentenceCount, dict, parseDate, showDate).Success?
    ensures Len(NewCgu(path, isHistorical, content, sentenceCount, dict, parseDate, showDate).value)
         == |Tokenizer.Tokenize(content.value)|
  {
  }

  /**
   * The summary of a constructed CGU: its document type is the name read
   * from the path, its word count the number of tokens of the text, and its
   * scores the Flesch formulas over those counts.
   */
  lemma SummaryOfCgu<D>(path: Path, isHistorical: bool, content: Option<string>, sentenceCount: nat,
                        dict: Syllables.PronouncingDict,
                        parseDate: string -> Option<D>, showDate: D -> string)
    requires |path| > 0
    requires NewCgu(path, isHistorical, content, sentenceCount, dict, parseDate, showDate).Success?
    ensures var c := NewCgu(path, isHistorical, content, sentenceCount, dict, parseDate, showDate).value;
      var words := |Tokenizer.Tokenize(content.value)|;
      var s := ToDict(c);
      && s.documentType == PathIdentity.ParseIdentity(path, isHistorical, parseDate, showDate).value.name
      && s.numWords == words
      && s.readability == Readability.ReadingEase(words, sentenceCount, c.syllableCount)
      && s.readabilityGradeLevel == Readability.GradeLevel(words, sentenceCount, c.syllableCount)
      && (!isHistorical && EndsWith(Last(path), Extension) ==> s.documentType + Extension == Last(path))
      && (isHistorical ==> s.documentType == path[|path| - 2])
  {
  }

  /**
   * A readable text with no letter or digit has no word: with a valid path
   * its construction fails with the division by zero of the measures.
   */
  lemma EmptyTextUndefined<D>(path: Path, isHistorical: bool, text: string, sentenceCount: nat,
                              dict: Syllables.PronouncingDict,
                              parseDate: string -> Option<D>, showDate: D -> string)
    requires |path| > 0
    requires PathIdentity.ParseIdentity(path, isHistorical, parseDate, showDate).Success?
    requires forall i :: 0 <= i < |text| ==> !Tokenizer.IsAlnum(text[i])
    ensures NewCgu(path, isHistorical, Some(text), sentenceCount, dict, parseDate, showDate)
         == Failure(Undefined(Readability.ZeroDivision))
  {
    Tokenizer.NoTokensIffNoAlnum(text);
  }

  /**
   * A text whose words are all missing from the dictionary counts one
   * syllable per word.
   */
  lemma UnknownWordsSyllables<D>(path: Path, isHistorical: bool, text: string, sentenceCount: nat,
                                 dict: Syllables.PronouncingDict,
                                 parseDate: string -> Option<D>, showDate: D -> string)
    requires |path| > 0
    requires NewCgu(path, isHistorical, Some(text), sentenceCount, dict, parseDate, showDate).Success?
    requires forall w :: w in Tokenizer.Tokenize(text) ==> w !in dict
    ensures var c := NewCgu(path, isHistorical, Some(text), sentenceCount, dict, parseDate, showDate).value;
      c.syllableCount == Len(c)
  {
    Syllables.UnknownWordsCountOne(dict, Tokenizer.Tokenize(text));
  }

  /**
   * The unit-test document, 29 words, 4 sentences and 37 syllables: its
   * summary scores round to 91.5 and 2.3.
   */
  lemma TestDocumentSummary<D>(path: Path, isHistorical: bool, content: Option<string>,
                               dict: Syllables.PronouncingDict,
                               parseDate: string -> Option<D>, showDate: D -> string)
    requires |path| > 0
    requires NewCgu(path, isHistorical, content, 4, dict, parseDate, showDate).Success?
    requires var c := NewCgu(path, isHistorical, content, 4, dict, parseDate, showDate).value;
      Len(c) == 29 && c.syllableCount == 37
    ensures var s := ToDict(NewCgu(path, isHistorical, content, 4, dict, parseDate, showDate).value);
      && s.numWords == 29
      && 91.45 <= s.readability < 91.55
      && 2.25 <= s.readabilityGradeLevel < 2.35
  {
  }
}
