/**
 * The word tokenizer of a CGU: the regular expression `[a-zA-Z0-9]+`
 * applied left to right, every match lower-cased.
 */
module Tokenizer {

  predicate IsDigit(c: char) { '0' <= c <= '9' }

  predicate IsUpper(c: char) { 'A' <= c <= 'Z' }

  predicate IsLower(c: char) { 'a' <= c <= 'z' }

  /** The character class `[a-zA-Z0-9]` of the token pattern. */
  predicate IsAlnum(c: char) { IsDigit(c) || IsUpper(c) || IsLower(c) }

  /** A character that can appear in a lower-cased token. */
  predicate IsTokenChar(c: char) { IsDigit(c) || IsLower(c) }

  /** A token: a non-empty word of lower-case ASCII letters and digits. */
  predicate IsToken(t: string)
  {
    |t| > 0 && forall i :: 0 <= i < |t| ==> IsTokenChar(t[i])
  }

  /** Python's `str.lower` on one ASCII character. */
  function Lower(c: char): (r: char)
    ensures IsUpper(c) ==> IsLower(r) && r as int - 'a' as int == c as int - 'A' as int
    ensures !IsUpper(c) ==> r == c
    ensures IsAlnum(c) ==> IsTokenChar(r)
  {
    if IsUpper(c) then (c as int - 'A' as int + 'a' as int) as char else c
  }

  function LowerWord(w: string): string
  {
    seq(|w|, i requires 0 <= i < |w| => Lower(w[i]))
  }

  /** The alphanumeric characters of `s`, in order. */
  function Alnums(s: string): string
  {
    if |s| == 0 then []
    else if IsAlnum(s[0]) then [s[0]] + Alnums(s[1..])
    else Alnums(s[1..])
  }

  /** The tokens, concatenated. */
  function Concat(ts: seq<string>): string
  {
    if |ts| == 0 then [] else ts[0] + Concat(ts[1..])
  }

  /**
   * Scans `s` with `run` the lower-cased part of the current match read
   * so far: a separator closes a non-empty run, the end of the text closes
   * the last one.
   */
  function Scan(s: string, run: string): (r: seq<string>)
    requires forall i :: 0 <= i < |run| ==> IsTokenChar(run[i])
    ensures forall k :: 0 <= k < |r| ==> IsToken(r[k])
    decreases |s|
  {
    if |s| == 0 then (if run == [] then [] else [run])
    else if IsAlnum(s[0]) then Scan(s[1..], run + [Lower(s[0])])
    else if run == [] then Scan(s[1..], [])
    else [run] + Scan(s[1..], [])
  }

  /** The token list of a text. */
  function Tokenize(text: string): (tokens: seq<string>)
    ensures forall k :: 0 <= k < |tokens| ==> IsToken(tokens[k])
  {
    Scan(text, [])
  }

  /** The same scan as one loop over the text. */
  method TokenizeText(text: string) returns (tokens: seq<string>)
    ensures tokens == Tokenize(text)
  {
    tokens := [];
    var run: string := [];
    var i := 0;
    while i < |text|
      invariant 0 <= i <= |text|
      invariant forall k :: 0 <= k < |run| ==> IsTokenChar(run[k])
      invariant tokens + Scan(text[i..], run) == Scan(text, [])
    {
      var c := text[i];
      assert text[i..][1..] == text[i + 1..];
      if IsAlnum(c) {
        run := run + [Lower(c)];
      } else if run != [] {
        assert tokens + Scan(text[i..], run) == (tokens + [run]) + Scan(text[i + 1..], []);
        tokens := tokens + [run];
        run := [];
      }
      i := i + 1;
    }
    if run != [] {
      tokens := tokens + [run];
    }
  }

  lemma {:induction false} ConcatPrepend(t: string, ts: seq<string>)
    ensures Concat([t] + ts) == t + Concat(ts)
  {
  }

  lemma {:induction false} ScanSpellsAlnums(s: string, run: string)
    requires forall i :: 0 <= i < |run| ==> IsTokenChar(run[i])
    ensures Concat(Scan(s, run)) == run + LowerWord(Alnums(s))
    decreases |s|
  {
    if |s| == 0 {
      assert run + LowerWord(Alnums(s)) == run;
      if run != [] {
        ConcatPrepend(run, []);
      }
    } else if IsAlnum(s[0]) {
      ScanSpellsAlnums(s[1..], run + [Lower(s[0])]);
      assert LowerWord(Alnums(s)) == [Lower(s[0])] + LowerWord(Alnums(s[1..]));
    } else if run == [] {
      ScanSpellsAlnums(s[1..], []);
    } else {
      ScanSpellsAlnums(s[1..], []);
      ConcatPrepend(run, Scan(s[1..], []));
    }
  }

  /**
   * Contents: the tokens, read one after another, spell exactly the
   * lower-cased alphanumeric characters of the text, in text order.
   */
  lemma TokensSpellAlnums(text: string)
    ensures Concat(Tokenize(text)) == LowerWord(Alnums(text))
  {
    ScanSpellsAlnums(text, []);
  }

  lemma {:induction false} ScanSplits(a: string, c: char, b: string, run: string)
    requires !IsAlnum(c)
    requires forall i :: 0 <= i < |run| ==> IsTokenChar(run[i])
    ensures Scan(a + [c] + b, run) == Scan(a, run) + Scan(b, [])
    decreases |a|
  {
    var s := a + [c] + b;
    if |a| == 0 {
      assert s[1..] == b;
    } else {
      assert s[1..] == a[1..] + [c] + b;
      if IsAlnum(a[0]) {
        ScanSplits(a[1..], c, b, run + [Lower(a[0])]);
      } else if run == [] {
        ScanSplits(a[1..], c, b, []);
      } else {
        ScanSplits(a[1..], c, b, []);
      }
    }
  }

  /**
   * A separator (any character outside `[a-zA-Z0-9]`) ends every match:
   * the tokens of the text around it are those of each side, in order.
   */
  lemma SeparatorSplits(a: string, c: char, b: string)
    requires !IsAlnum(c)
    ensures Tokenize(a + [c] + b) == Tokenize(a) + Tokenize(b)
  {
    ScanSplits(a, c, b, []);
  }

  lemma {:induction false} ScanRun(w: string, run: string)
    requires forall i :: 0 <= i < |w| ==> IsAlnum(w[i])
    requires forall i :: 0 <= i < |run| ==> IsTokenChar(run[i])
    requires |run| + |w| > 0
    ensures Scan(w, run) == [run + LowerWord(w)]
    decreases |w|
  {
    if |w| == 0 {
      assert run + LowerWord(w) == run;
    } else {
      assert IsAlnum(w[0]);
      ScanRun(w[1..], run + [Lower(w[0])]);
      assert LowerWord(w) == [Lower(w[0])] + LowerWord(w[1..]);
      assert (run + [Lower(w[0])]) + LowerWord(w[1..]) == run + LowerWord(w);
    }
  }

  /**
   * Matches are maximal: a run of alphanumeric characters with no
   * separator inside is never split, it is one token.
   */
  lemma RunIsOneToken(w: string)
    requires |w| > 0
    requires forall i :: 0 <= i < |w| ==> IsAlnum(w[i])
    ensures Tokenize(w) == [LowerWord(w)]
  {
    ScanRun(w, []);
    assert [] + LowerWord(w) == LowerWord(w);
  }

  /** A text yields no token exactly when it holds no ASCII letter or digit. */
  lemma {:induction false} NoTokensIffNoAlnum(text: string)
    ensures Tokenize(text) == [] <==> forall i :: 0 <= i < |text| ==> !IsAlnum(text[i])
  {
    TokensSpellAlnums(text);
    var ts := Tokenize(text);
    if ts != [] {
      ConcatPrepend(ts[0], ts[1..]);
      assert [ts[0]] + ts[1..] == ts;
      AlnumsEmptyIff(text);
    } else {
      AlnumsEmptyIff(text);
    }
  }

  lemma {:induction false} AlnumsEmptyIff(s: string)
    ensures Alnums(s) == [] <==> forall i :: 0 <= i < |s| ==> !IsAlnum(s[i])
    decreases |s|
  {
    if |s| > 0 {
      AlnumsEmptyIff(s[1..]);
      assert forall i :: 1 <= i < |s| ==> s[1..][i - 1] == s[i];
    }
  }
}
