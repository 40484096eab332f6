/**
 * Syllable estimation of a CGU: each token is looked up in a pronouncing
 * dictionary (CMUdict in the system) whose vowel phonemes carry a trailing
 * stress digit, as in `AH0`.
 */
module Syllables {
  import opened Wrappers
  import Tokenizer

  /** A phoneme code such as `K`, `AH0` or `EH1`. */
  type Phoneme = string

  /** One transcription of a word. */
  type Pronunciation = seq<Phoneme>

  /** Lower-case word to its transcriptions. */
  type PronouncingDict = map<string, seq<Pronunciation>>

  /**
   * What the estimate raises: `EmptyPhoneme` is the `IndexError` of taking
   * the last character of an empty phoneme code, `NoPronunciation` the
   * `ValueError` of `max` over a word listed with no transcription.
   */
  datatype SyllableError = EmptyPhoneme | NoPronunciation

  /** A vowel phoneme: its code ends with a digit. */
  predicate IsVowel(ph: Phoneme)
  {
    |ph| > 0 && Tokenizer.IsDigit(ph[|ph| - 1])
  }

  /** Every phoneme code of the transcription has a last character. */
  predicate Readable(pron: Pronunciation)
  {
    forall j :: 0 <= j < |pron| ==> |pron[j]| > 0
  }

  /** The number of vowel phonemes of one transcription. */
  function VowelCount(pron: Pronunciation): (n: nat)
    ensures n <= |pron|
    ensures n == 0 <==> forall j :: 0 <= j < |pron| ==> !IsVowel(pron[j])
    ensures n == |pron| <==> forall j :: 0 <= j < |pron| ==> IsVowel(pron[j])
  {
    if |pron| == 0 then 0
    else (if IsVowel(pron[0]) then 1 else 0) + VowelCount(pron[1..])
  }

  /** Counting vowels is additive over joined transcriptions. */
  lemma {:induction false} VowelCountAppend(p: Pronunciation, q: Pronunciation)
    ensures VowelCount(p + q) == VowelCount(p) + VowelCount(q)
    decreases |p|
  {
    if |p| == 0 {
      assert p + q == q;
    } else {
      assert (p + q)[0] == p[0];
      assert (p + q)[1..] == p[1..] + q;
      VowelCountAppend(p[1..], q);
    }
  }

  /** The largest vowel count among the transcriptions. */
  function MaxVowels(prons: seq<Pronunciation>): (m: nat)
    requires |prons| > 0
    ensures forall i :: 0 <= i < |prons| ==> VowelCount(prons[i]) <= m
    ensures exists i :: 0 <= i < |prons| && VowelCount(prons[i]) == m
  {
    if |prons| == 1 then VowelCount(prons[0])
    else
      var first := VowelCount(prons[0]);
      var rest := MaxVowels(prons[1..]);
      if first >= rest then first else rest
  }

  /** The syllable estimate of one word. */
  function WordSyllables(dict: PronouncingDict, word: string): Result<nat, SyllableError>
  {
    if word !in dict then Success(1)
    else
      var prons := dict[word];
      if |prons| == 0 then Failure(NoPronunciation)
      else if exists i :: 0 <= i < |prons| && !Readable(prons[i]) then Failure(EmptyPhoneme)
      else Success(MaxVowels(prons))
  }

  /**
   * A word missing from the dictionary scores 1; a listed word fails when
   * it has no transcription or one with an empty phoneme code, and scores
   * the largest vowel count of its transcriptions otherwise.
   */
  lemma WordSyllablesSpec(dict: PronouncingDict, word: string)
    ensures var r := WordSyllables(dict, word);
      && (word !in dict ==> r == Success(1))
      && (r == Failure(NoPronunciation) <==> word in dict && |dict[word]| == 0)
      && (r == Failure(EmptyPhoneme) <==>
            word in dict && exists i :: 0 <= i < |dict[word]| && !Readable(dict[word][i]))
      && (r.Success? && word in dict ==>
            && (forall i :: 0 <= i < |dict[word]| ==> VowelCount(dict[word][i]) <= r.value)
            && (exists i :: 0 <= i < |dict[word]| && VowelCount(dict[word][i]) == r.value))
  {
  }

  /** The syllable count of a token list: the sum of the word estimates. */
  function DocSyllables(dict: PronouncingDict, tokens: seq<string>): Result<nat, SyllableError>
  {
    if |tokens| == 0 then Success(0)
    else
      match WordSyllables(dict, tokens[0])
      case Failure(e) => Failure(e)
      case Success(n) =>
        match DocSyllables(dict, tokens[1..])
        case Failure(e) => Failure(e)
        case Success(m) => Success(n + m)
  }

  /**
   * The sum succeeds exactly when every token's estimate does; a failure
   * is the failure of some token's estimate.
   */
  lemma {:induction false} DocSyllablesSucceeds(dict: PronouncingDict, tokens: seq<string>)
    ensures DocSyllables(dict, tokens).Success? <==>
      forall k :: 0 <= k < |tokens| ==> WordSyllables(dict, tokens[k]).Success?
    ensures DocSyllables(dict, tokens).Failure? ==>
      exists k :: 0 <= k < |tokens|
        && (forall j :: 0 <= j < k ==> WordSyllables(dict, tokens[j]).Success?)
        && WordSyllables(dict, tokens[k]) == Failure(DocSyllables(dict, tokens).error)
    decreases |tokens|
  {
    if |tokens| > 0 {
      DocSyllablesSucceeds(dict, tokens[1..]);
      assert forall k :: 1 <= k < |tokens| ==> tokens[1..][k - 1] == tokens[k];
      if WordSyllables(dict, tokens[0]).Success? && DocSyllables(dict, tokens).Failure? {
        var k :| 0 <= k < |tokens[1..]|
          && (forall j :: 0 <= j < k ==> WordSyllables(dict, tokens[1..][j]).Success?)
          && WordSyllables(dict, tokens[1..][k]) == Failure(DocSyllables(dict, tokens[1..]).error);
        assert forall j :: 0 <= j < k + 1 ==> WordSyllables(dict, tokens[j]).Success? by {
          forall j | 0 <= j < k + 1
            ensures WordSyllables(dict, tokens[j]).Success?
          {
            if j > 0 {
              assert tokens[j] == tokens[1..][j - 1];
            }
          }
        }
      }
    }
  }

  /**
   * The sum of no token is 0, and the sum of one token is that token's
   * estimate; with DocSyllablesAppend this fixes the count of every list
   * as the sum of its tokens' estimates.
   */
  lemma DocSyllablesOne(dict: PronouncingDict, word: string)
    ensures DocSyllables(dict, []) == Success(0)
    ensures DocSyllables(dict, [word]) == WordSyllables(dict, word)
  {
  }

  /** The count is additive over concatenated token lists. */
  lemma {:induction false} DocSyllablesAppend(dict: PronouncingDict, a: seq<string>, b: seq<string>)
    requires DocSyllables(dict, a).Success? && DocSyllables(dict, b).Success?
    ensures DocSyllables(dict, a + b) == Success(DocSyllables(dict, a).value + DocSyllables(dict, b).value)
    decreases |a|
  {
    if |a| == 0 {
      assert a + b == b;
    } else {
      var ab := a + b;
      assert ab[0] == a[0];
      assert ab[1..] == a[1..] + b;
      var n := WordSyllables(dict, a[0]).value;
      assert DocSyllables(dict, a) == Success(n + DocSyllables(dict, a[1..]).value);
      DocSyllablesAppend(dict, a[1..], b);
      assert DocSyllables(dict, ab) == Success(n + DocSyllables(dict, ab[1..]).value);
    }
  }

  /** Words missing from the dictionary count one syllable each. */
  lemma {:induction false} UnknownWordsCountOne(dict: PronouncingDict, tokens: seq<string>)
    requires forall k :: 0 <= k < |tokens| ==> tokens[k] !in dict
    ensures DocSyllables(dict, tokens) == Success(|tokens|)
    decreases |tokens|
  {
    if |tokens| > 0 {
      UnknownWordsCountOne(dict, tokens[1..]);
    }
  }

  /** `K EH1 R AH0 M AH0 L`, one of the CMUdict transcriptions of "caramel". */
  const CaramelLong: Pronunciation := ["K", "EH1", "R", "AH0", "M", "AH0", "L"]

  /** `K AA1 R M AH0 L`, the other one. */
  const CaramelShort: Pronunciation := ["K", "AA1", "R", "M", "AH0", "L"]

  lemma CaramelCounts()
    ensures VowelCount(CaramelLong) == 3 && VowelCount(CaramelShort) == 2
  {
  }

  /** A listed word whose transcriptions all have readable phoneme codes scores their maximum. */
  lemma ListedWordScoresMax(dict: PronouncingDict, word: string)
    requires word in dict && |dict[word]| > 0
    requires forall i :: 0 <= i < |dict[word]| ==> Readable(dict[word][i])
    ensures WordSyllables(dict, word) == Success(MaxVowels(dict[word]))
  {
  }

  lemma MaxVowelsOfTwo(p: Pronunciation, q: Pronunciation)
    ensures MaxVowels([p, q]) == if VowelCount(p) >= VowelCount(q) then VowelCount(p) else VowelCount(q)
  {
  }

  /** A dictionary holding "caramel" with its two transcriptions. */
  const CaramelDict: PronouncingDict := map["caramel" := [CaramelLong, CaramelShort]]

  /**
   * "caramel", with transcriptions of three and two vowels, scores three,
   * the larger count.
   */
  lemma CaramelExample()
    ensures WordSyllables(CaramelDict, "caramel") == Success(3)
  {
    var prons := [CaramelLong, CaramelShort];
    assert CaramelDict["caramel"] == prons;
    assert Readable(CaramelLong) && Readable(CaramelShort);
    assert forall i :: 0 <= i < |prons| ==> Readable(prons[i]);
    assert MaxVowels(prons) == 3 by {
      CaramelCounts();
      MaxVowelsOfTwo(CaramelLong, CaramelShort);
    }
    ListedWordScoresMax(CaramelDict, "caramel");
  }
}
