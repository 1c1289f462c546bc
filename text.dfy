/**
 * The string primitives the agents and the validator rely on: whitespace
 * splitting, ASCII-uppercase counting, code-point sums, UTF-8 byte length and
 * substring search.
 */
module Text {

  /** Rust's `char::is_whitespace`: the characters with the Unicode White_Space property. */
  predicate IsWhitespace(c: char) {
    || ('\U{9}' <= c <= '\U{D}')
    || c == ' ' || c == '\U{85}' || c == '\U{A0}' || c == '\U{1680}'
    || ('\U{2000}' <= c <= '\U{200A}')
    || c == '\U{2028}' || c == '\U{2029}' || c == '\U{202F}' || c == '\U{205F}' || c == '\U{3000}'
  }

  /** Rust's `char::is_ascii_uppercase`. */
  predicate IsAsciiUppercase(c: char) {
    'A' <= c <= 'Z'
  }

  predicate NoWhitespace(s: string) {
    forall i :: 0 <= i < |s| ==> !IsWhitespace(s[i])
  }

  predicate AllWhitespace(s: string) {
    forall i :: 0 <= i < |s| ==> IsWhitespace(s[i])
  }

  // ---------------------------------------------------------------------------
  // Words
  // ---------------------------------------------------------------------------

  /** Length of the leading run of whitespace. */
  function LeadingWhitespace(s: string): (n: nat)
    ensures n <= |s| && AllWhitespace(s[..n])
    ensures n < |s| ==> !IsWhitespace(s[n])
  {
    if s == [] || !IsWhitespace(s[0]) then 0 else 1 + LeadingWhitespace(s[1..])
  }

  /** Length of the leading run of non-whitespace. */
  function LeadingWord(s: string): (n: nat)
    ensures n <= |s| && NoWhitespace(s[..n])
    ensures n < |s| ==> IsWhitespace(s[n])
    ensures s != [] && !IsWhitespace(s[0]) ==> n > 0
  {
    if s == [] || IsWhitespace(s[0]) then 0 else 1 + LeadingWord(s[1..])
  }

  /** `str::split_whitespace`: the maximal runs of non-whitespace characters, in order. */
  function SplitWhitespace(s: string): (words: seq<string>)
    ensures forall i :: 0 <= i < |words| ==> words[i] != [] && NoWhitespace(words[i])
    ensures |words| <= |s|
    ensures words == [] <==> AllWhitespace(s)
    decreases |s|
  {
    var rest := s[LeadingWhitespace(s)..];
    if rest == [] then []
    else
      var n := LeadingWord(rest);
      [rest[..n]] + SplitWhitespace(rest[n..])
  }

  /** `split_whitespace().count()`: no more words than characters, and none exactly in a blank text. */
  function WordCount(s: string): (n: nat)
    ensures n <= |s|
    ensures n == 0 <==> AllWhitespace(s)
  {
    |SplitWhitespace(s)|
  }

  /**
   * An independent count of the same words: the positions where a word
   * begins, that is a non-whitespace character at the start or right after
   * whitespace. `afterWord` says whether the character before `s` was part of a word.
   */
  function WordStarts(s: string, afterWord: bool): nat {
    if s == [] then 0
    else if IsWhitespace(s[0]) then WordStarts(s[1..], false)
    else (if afterWord then 0 else 1) + WordStarts(s[1..], true)
  }

  lemma {:induction false} SkipWhitespace(s: string, m: nat, afterWord: bool)
    requires 0 < m <= |s| && AllWhitespace(s[..m])
    ensures WordStarts(s, afterWord) == WordStarts(s[m..], false)
  {
    assert IsWhitespace(s[..m][0]);
    if m > 1 {
      assert s[1..][..m - 1] == s[..m][1..];
      SkipWhitespace(s[1..], m - 1, false);
      assert s[1..][m - 1..] == s[m..];
    }
  }

  lemma {:induction false} SkipWord(s: string, m: nat)
    requires m <= |s| && NoWhitespace(s[..m])
    ensures WordStarts(s, true) == WordStarts(s[m..], true)
  {
    if m > 0 {
      assert !IsWhitespace(s[..m][0]);
      assert s[1..][..m - 1] == s[..m][1..];
      SkipWord(s[1..], m - 1);
      assert s[1..][m - 1..] == s[m..];
    }
  }

  /** Splitting on whitespace finds exactly the words that `WordStarts` counts. */
  lemma {:induction false} WordCountIsWordStarts(s: string)
    ensures WordCount(s) == WordStarts(s, false)
    decreases |s|
  {
    var k := LeadingWhitespace(s);
    var rest := s[k..];
    if k > 0 {
      SkipWhitespace(s, k, false);
    }
    if rest != [] {
      var n := LeadingWord(rest);
      FirstWordStarts(rest);
      WordCountIsWordStarts(rest[n..]);
    }
  }

  /** A text that opens with a word has one word start there, then those of what follows the word. */
  lemma {:induction false} FirstWordStarts(s: string)
    requires s != [] && !IsWhitespace(s[0])
    ensures WordStarts(s, false) == 1 + WordStarts(s[LeadingWord(s)..], false)
  {
    var n := LeadingWord(s);
    SkipWord(s[1..], n - 1) by {
      assert s[1..][..n - 1] == s[..n][1..];
    }
    assert s[1..][n - 1..] == s[n..];
    // after the word comes whitespace or the end, so the flag no longer matters
    assert WordStarts(s[n..], true) == WordStarts(s[n..], false);
  }

  lemma {:induction false} WordStartsGrowWithSuffix(s: string, t: string, afterWord: bool)
    ensures WordStarts(s, afterWord) <= WordStarts(s + t, afterWord)
  {
    if s != [] {
      assert (s + t)[0] == s[0];
      assert (s + t)[1..] == s[1..] + t;
      WordStartsGrowWithSuffix(s[1..], t, false);
      WordStartsGrowWithSuffix(s[1..], t, true);
    }
  }

  /** Appending text never lowers the word count (a trailing word may merge, but none is lost). */
  lemma WordCountGrowsWithSuffix(s: string, t: string)
    ensures WordCount(s) <= WordCount(s + t)
  {
    WordCountIsWordStarts(s);
    WordCountIsWordStarts(s + t);
    WordStartsGrowWithSuffix(s, t, false);
  }

  // ---------------------------------------------------------------------------
  // Uppercase letters
  // ---------------------------------------------------------------------------

  /** `chars().filter(|c| c.is_ascii_uppercase()).count()`. */
  function UppercaseCount(s: string): (n: nat)
    ensures n <= |s|
  {
    if s == [] then 0
    else (if IsAsciiUppercase(s[0]) then 1 else 0) + UppercaseCount(s[1..])
  }

  lemma {:induction false} UppercaseCountAppend(s: string, t: string)
    ensures UppercaseCount(s + t) == UppercaseCount(s) + UppercaseCount(t)
  {
    if s == [] {
      assert s + t == t;
    } else {
      assert (s + t)[0] == s[0];
      assert (s + t)[1..] == s[1..] + t;
      UppercaseCountAppend(s[1..], t);
    }
  }

  /** Uppercase letters are not whitespace, so a string without words has none. */
  lemma {:induction false} NoWordsNoUppercase(s: string)
    requires WordCount(s) == 0
    ensures UppercaseCount(s) == 0
  {
    WordCountIsWordStarts(s);
    WordlessIsBlank(s);
  }

  lemma {:induction false} WordlessIsBlank(s: string)
    requires WordStarts(s, false) == 0
    ensures UppercaseCount(s) == 0
  {
    if s != [] {
      WordlessIsBlank(s[1..]);
    }
  }

  // ---------------------------------------------------------------------------
  // Code points and bytes
  // ---------------------------------------------------------------------------

  /** The sum of the code points of `s`, `chars().map(|c| c as u32).sum()` without its 32-bit width. */
  /** The exact sum of the code points, at most 0x10FFFF per character. */
  function CodeSum(s: string): (n: nat)
    ensures n <= |s| * 0x10FFFF
  {
    if s == [] then 0 else s[0] as nat + CodeSum(s[1..])
  }

  lemma {:induction false} CodeSumAppend(s: string, t: string)
    ensures CodeSum(s + t) == CodeSum(s) + CodeSum(t)
  {
    if s == [] {
      assert s + t == t;
    } else {
      assert (s + t)[0] == s[0];
      assert (s + t)[1..] == s[1..] + t;
      CodeSumAppend(s[1..], t);
    }
  }

  lemma {:induction false} CodeSumRepeat(c: char, n: nat)
    ensures CodeSum(seq(n, _ => c)) == n * (c as nat)
  {
    if n > 0 {
      var s := seq(n, _ => c);
      assert s == [c] + seq(n - 1, _ => c);
      assert s[1..] == seq(n - 1, _ => c);
      CodeSumRepeat(c, n - 1);
    }
  }

  /** Number of bytes UTF-8 uses for `c`. */
  function Utf8Width(c: char): (w: nat)
    ensures 1 <= w <= 4
  {
    if c < '\U{80}' then 1
    else if c < '\U{800}' then 2
    else if c < '\U{10000}' then 3
    else 4
  }

  /** Rust's `str::len()`: the length in UTF-8 bytes, not in characters. */
  function Utf8Length(s: string): (n: nat)
    ensures |s| <= n <= 4 * |s|
    ensures n == 0 <==> s == []
  {
    if s == [] then 0 else Utf8Width(s[0]) + Utf8Length(s[1..])
  }

  // ---------------------------------------------------------------------------
  // Substrings
  // ---------------------------------------------------------------------------

  /** Python's `p in s` on strings. */
  predicate Contains(s: string, p: string): (b: bool)
    ensures p <= s ==> b
    ensures b ==> |p| <= |s|
    decreases |s|
  {
    p <= s || (s != [] && Contains(s[1..], p))
  }

  predicate OccursAt(s: string, p: string, i: nat) {
    i + |p| <= |s| && s[i..i + |p|] == p
  }

  /** A position where `p` occurs, whenever `Contains` finds it. */
  lemma {:induction false} ContainsAt(s: string, p: string) returns (i: nat)
    requires Contains(s, p)
    ensures OccursAt(s, p, i)
    decreases |s|
  {
    if p <= s {
      i := 0;
      assert s[0..|p|] == p;
    } else {
      var j := ContainsAt(s[1..], p);
      i := j + 1;
      assert s[1..][j..j + |p|] == s[i..i + |p|];
    }
  }

  /** An occurrence at any position is found by `Contains`. */
  lemma {:induction false} OccurrenceContained(s: string, p: string, i: nat)
    requires OccursAt(s, p, i)
    ensures Contains(s, p)
    decreases i
  {
    if i == 0 {
      assert s[..|p|] == p;
    } else {
      assert s[1..][i - 1..i - 1 + |p|] == s[i..i + |p|];
      OccurrenceContained(s[1..], p, i - 1);
    }
  }

  /** `Contains` finds `p` exactly when `p` occurs at some position of `s`. */
  lemma ContainsIffOccurs(s: string, p: string)
    ensures Contains(s, p) <==> exists i: nat :: OccursAt(s, p, i)
  {
    if Contains(s, p) {
      var i := ContainsAt(s, p);
    }
    forall i: nat | OccursAt(s, p, i)
      ensures Contains(s, p)
    {
      OccurrenceContained(s, p, i);
    }
  }
}
