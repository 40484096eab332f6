/**
 * The two Flesch readability measures of a CGU, over exact reals, from its
 * word, sentence and syllable counts.
 */
module Readability {
  import opened Wrappers

  /** The `ZeroDivisionError` of a document with no word or no sentence. */
  datatype MetricError = ZeroDivision

  datatype Scores = Scores(readingEase: real, gradeLevel: real)

  /** Flesch Reading Ease. */
  function ReadingEase(words: nat, sentences: nat, syllables: nat): real
    requires words > 0 && sentences > 0
  {
    206.835 - 1.015 * (words as real / sentences as real) - 84.6 * (syllables as real / words as real)
  }

  /** Flesch-Kincaid Grade Level. */
  function GradeLevel(words: nat, sentences: nat, syllables: nat): real
    requires words > 0 && sentences > 0
  {
    0.39 * (words as real / sentences as real) + 11.8 * (syllables as real / words as real) - 15.59
  }

  /** Both measures, or the division by zero that computing them raises. */
  function Compute(words: nat, sentences: nat, syllables: nat): (r: Result<Scores, MetricError>)
    ensures r.Failure? <==> words == 0 || sentences == 0
    ensures r.Success? ==> r.value == Scores(ReadingEase(words, sentences, syllables),
                                             GradeLevel(words, sentences, syllables))
  {
    if sentences == 0 || words == 0 then Failure(ZeroDivision)
    else Success(Scores(ReadingEase(words, sentences, syllables), GradeLevel(words, sentences, syllables)))
  }

  /**
   * Both measures depend on the ratios words per sentence and syllables per
   * word only: scaling the three counts by the same factor changes neither.
   */
  lemma ScoresScaleInvariant(words: nat, sentences: nat, syllables: nat, k: nat)
    requires words > 0 && sentences > 0 && k > 0
    ensures ReadingEase(k * words, k * sentences, k * syllables) == ReadingEase(words, sentences, syllables)
    ensures GradeLevel(k * words, k * sentences, k * syllables) == GradeLevel(words, sentences, syllables)
  {
  }

  /**
   * More syllables over the same words and sentences make a text strictly
   * harder: lower reading ease, higher grade level.
   */
  lemma MoreSyllablesHarder(words: nat, sentences: nat, s1: nat, s2: nat)
    requires words > 0 && sentences > 0 && s1 < s2
    ensures ReadingEase(words, sentences, s2) < ReadingEase(words, sentences, s1)
    ensures GradeLevel(words, sentences, s1) < GradeLevel(words, sentences, s2)
  {
  }

  /**
   * Splitting the same words into more sentences makes a text strictly
   * easier: higher reading ease, lower grade level.
   */
  lemma MoreSentencesEasier(words: nat, n1: nat, n2: nat, syllables: nat)
    requires words > 0 && 0 < n1 < n2
    ensures ReadingEase(words, n1, syllables) < ReadingEase(words, n2, syllables)
    ensures GradeLevel(words, n2, syllables) < GradeLevel(words, n1, syllables)
  {
    assert words as real / n2 as real < words as real / n1 as real;
  }

  /**
   * The unit-test document, 29 words in 4 sentences with 37 syllables:
   * reading ease rounds to 91.5 and grade level to 2.3.
   */
  lemma TestDocumentScores()
    ensures var r := Compute(29, 4, 37);
      && r.Success?
      && 91.45 <= r.value.readingEase < 91.55
      && 2.25 <= r.value.gradeLevel < 2.35
  {
  }
}
