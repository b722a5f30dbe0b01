/**
 * Word counting as the bot does it: Python's `str.split()` with no argument,
 * which returns the maximal runs of non-whitespace characters of a string.
 * Strings are sequences of Unicode scalar values, so `|s|` is Python's `len(s)`.
 */
module Words {

  /** Python's `str.isspace()` for one character: the separators of `str.split()`. */
  predicate IsSpace(c: char)
  {
    || ('\t' <= c <= '\r')
    || ('\U{1C}' <= c <= '\U{1F}')
    || c == ' '
    || c == '\U{85}'
    || c == '\U{A0}'
    || c == '\U{1680}'
    || ('\U{2000}' <= c <= '\U{200A}')
    || c == '\U{2028}'
    || c == '\U{2029}'
    || c == '\U{202F}'
    || c == '\U{205F}'
    || c == '\U{3000}'
  }

  predicate NoSpace(w: string)
  {
    forall i :: 0 <= i < |w| ==> !IsSpace(w[i])
  }

  /** The length of the leading run of non-whitespace characters of `s`. */
  function WordLength(s: string): (n: nat)
    ensures n <= |s|
    ensures NoSpace(s[..n])
    ensures n == |s| || IsSpace(s[n])
  {
    if s == [] || IsSpace(s[0]) then 0 else 1 + WordLength(s[1..])
  }

  /** `s.split()`: the words of `s`, in order. Every word is non-empty and holds no whitespace. */
  function Split(s: string): (ws: seq<string>)
    ensures forall i :: 0 <= i < |ws| ==> ws[i] != [] && NoSpace(ws[i])
    decreases |s|
  {
    if s == [] then []
    else if IsSpace(s[0]) then Split(s[1..])
    else
      var n := WordLength(s);
      [s[..n]] + Split(s[n..])
  }

  /** `len(s.split())`, the number the bot compares with its minimum of 25 words. */
  function WordCount(s: string): nat
  {
    |Split(s)|
  }

  // ---------------------------------------------------------------------------
  // An independent reference: a left-to-right scan that counts the characters
  // which start a word (a non-space after a space or at the start).

  function CountRuns(s: string, inWord: bool): nat
  {
    if s == [] then 0
    else if IsSpace(s[0]) then CountRuns(s[1..], false)
    else (if inWord then 0 else 1) + CountRuns(s[1..], true)
  }

  /** Scanning a run of non-space characters while inside a word counts nothing. */
  lemma {:induction false} SkipWord(s: string, n: nat)
    requires n <= |s| && NoSpace(s[..n])
    ensures CountRuns(s, true) == CountRuns(s[n..], true)
  {
    if n > 0 {
      assert !IsSpace(s[0]) by { assert s[..n][0] == s[0]; }
      assert s[1..][..n - 1] == s[..n][1..];
      SkipWord(s[1..], n - 1);
      assert s[1..][n - 1..] == s[n..];
    }
  }

  /** `Split` and the scan agree: the word count is the number of maximal non-space runs. */
  lemma {:induction false} WordCountIsRuns(s: string)
    ensures WordCount(s) == CountRuns(s, false)
    decreases |s|
  {
    if s == [] {
    } else if IsSpace(s[0]) {
      WordCountIsRuns(s[1..]);
    } else {
      var n := WordLength(s);
      assert n > 0;
      SkipWord(s[1..], n - 1) by { assert s[1..][..n - 1] == s[..n][1..]; }
      assert s[1..][n - 1..] == s[n..];
      WordCountIsRuns(s[n..]);
      assert CountRuns(s[n..], true) == CountRuns(s[n..], false);
    }
  }

  // ---------------------------------------------------------------------------
  // The words hold exactly the non-whitespace characters of the input, in order.

  function Strip(s: string): (r: string)
    ensures NoSpace(r)
  {
    if s == [] then []
    else (if IsSpace(s[0]) then [] else [s[0]]) + Strip(s[1..])
  }

  function Flatten(ws: seq<string>): string
  {
    if ws == [] then [] else ws[0] + Flatten(ws[1..])
  }

  lemma {:induction false} StripNoSpace(s: string)
    requires NoSpace(s)
    ensures Strip(s) == s
  {
    if s != [] {
      StripNoSpace(s[1..]);
    }
  }

  lemma {:induction false} StripConcat(a: string, b: string)
    ensures Strip(a + b) == Strip(a) + Strip(b)
  {
    if a != [] {
      assert (a + b)[1..] == a[1..] + b;
      StripConcat(a[1..], b);
    } else {
      assert a + b == b;
    }
  }

  /** Concatenating the words of `s.split()` gives back `s` with its whitespace removed. */
  lemma {:induction false} SplitKeepsCharacters(s: string)
    ensures Flatten(Split(s)) == Strip(s)
    decreases |s|
  {
    if s == [] {
    } else if IsSpace(s[0]) {
      SplitKeepsCharacters(s[1..]);
    } else {
      var n := WordLength(s);
      SplitKeepsCharacters(s[n..]);
      assert s == s[..n] + s[n..];
      StripConcat(s[..n], s[n..]);
      StripNoSpace(s[..n]);
      assert ([s[..n]] + Split(s[n..]))[1..] == Split(s[n..]);
    }
  }

  // ---------------------------------------------------------------------------
  // Splitting distributes over a concatenation cut at whitespace.

  predicate EndsAtSpace(s: string)
  {
    s == [] || IsSpace(s[|s| - 1])
  }

  /** A non-empty string that ends in whitespace has its first word end before its end. */
  lemma WordEndsInside(s: string)
    requires s != [] && EndsAtSpace(s)
    ensures WordLength(s) < |s|
  {
  }

  /** A word that ends before the cut is unaffected by what follows the cut. */
  lemma {:induction false} WordLengthPrefix(s: string, t: string)
    requires WordLength(s) < |s|
    ensures WordLength(s + t) == WordLength(s)
  {
    if !IsSpace(s[0]) {
      assert (s + t)[1..] == s[1..] + t;
      WordLengthPrefix(s[1..], t);
    }
  }

  lemma {:induction false} SplitConcat(s: string, t: string)
    requires EndsAtSpace(s)
    ensures Split(s + t) == Split(s) + Split(t)
    decreases |s|
  {
    if s == [] {
      assert s + t == t;
    } else if IsSpace(s[0]) {
      assert (s + t)[1..] == s[1..] + t;
      SplitConcat(s[1..], t);
    } else {
      var n := WordLength(s);
      WordEndsInside(s);
      WordLengthPrefix(s, t);
      assert (s + t)[..n] == s[..n];
      assert (s + t)[n..] == s[n..] + t;
      SplitConcat(s[n..], t);
    }
  }

  /** Counting words of a concatenation cut at whitespace adds the two counts. */
  lemma WordCountConcat(s: string, t: string)
    requires EndsAtSpace(s)
    ensures WordCount(s + t) == WordCount(s) + WordCount(t)
  {
    SplitConcat(s, t);
  }

  // ---------------------------------------------------------------------------
  // Sample strings whose word counts and lengths are known.

  /** `"a " * n`: n one-letter words, 2 n characters. */
  function SampleWords(n: nat): (s: string)
    ensures |s| == 2 * n && EndsAtSpace(s)
  {
    if n == 0 then [] else "a " + SampleWords(n - 1)
  }

  /** `"x" * n`: a single word of n characters, or nothing. */
  function Filler(n: nat): (s: string)
    ensures |s| == n
  {
    seq(n, _ => 'x')
  }

  lemma OneWord()
    ensures Split("a ") == ["a"]
  {
    assert "a "[1..] == " " && " "[1..] == [];
    assert WordLength("a ") == 1;
    assert "a "[..1] == "a";
  }

  lemma {:induction false} SampleWordsCount(n: nat)
    ensures WordCount(SampleWords(n)) == n
  {
    if n > 0 {
      SplitConcat("a ", SampleWords(n - 1));
      OneWord();
      SampleWordsCount(n - 1);
    }
  }

  lemma FillerWordLength(n: nat)
    ensures WordLength(Filler(n)) == n
  {
  }

  lemma FillerCount(n: nat)
    ensures WordCount(Filler(n)) == if n == 0 then 0 else 1
  {
    if n > 0 {
      FillerWordLength(n);
      assert Filler(n)[0] == 'x';
      assert Filler(n)[n..] == [];
      assert Split(Filler(n)) == [Filler(n)[..n]] + Split([]);
    }
  }

  /** n sample words followed by a filler word: its count and length. */
  lemma PaddedCount(n: nat, pad: nat)
    ensures WordCount(SampleWords(n) + Filler(pad)) == n + (if pad == 0 then 0 else 1)
    ensures |SampleWords(n) + Filler(pad)| == 2 * n + pad
  {
    WordCountConcat(SampleWords(n), Filler(pad));
    SampleWordsCount(n);
    FillerCount(pad);
  }
}
