/** Word counting as `len(transcript.split())` does it: `str.split()` with no
    argument cuts a string into its maximal runs of non-whitespace characters,
    where whitespace is exactly what `str.isspace()` accepts. */
module Words {

  /** The characters `str.isspace()` accepts, by code point: the ASCII controls
      TAB to CR, the separators FS, GS, RS, US, SPACE, NEL, NO-BREAK SPACE and the
      Unicode space separators, LINE SEPARATOR and PARAGRAPH SEPARATOR. */
  predicate IsSpace(c: char) {
    var n := c as int;
    || (0x09 <= n <= 0x0D)
    || (0x1C <= n <= 0x20)
    || n == 0x85 || n == 0xA0 || n == 0x1680
    || (0x2000 <= n <= 0x200A)
    || n == 0x2028 || n == 0x2029 || n == 0x202F || n == 0x205F || n == 0x3000
  }

  predicate AllSpace(s: string) {
    forall i :: 0 <= i < |s| ==> IsSpace(s[i])
  }

  predicate NoSpace(s: string) {
    forall i :: 0 <= i < |s| ==> !IsSpace(s[i])
  }

  /** The end of the whitespace run that starts at position i. */
  function SpaceEnd(s: string, i: nat): (k: nat)
    requires i <= |s|
    ensures i <= k <= |s|
    ensures forall m :: i <= m < k ==> IsSpace(s[m])
    ensures k < |s| ==> !IsSpace(s[k])
    decreases |s| - i
  {
    if i == |s| || !IsSpace(s[i]) then i else SpaceEnd(s, i + 1)
  }

  /** The end of the non-whitespace run that starts at position i. */
  function WordEnd(s: string, i: nat): (k: nat)
    requires i <= |s|
    ensures i <= k <= |s|
    ensures forall m :: i <= m < k ==> !IsSpace(s[m])
    ensures k < |s| ==> IsSpace(s[k])
    decreases |s| - i
  {
    if i == |s| || IsSpace(s[i]) then i else WordEnd(s, i + 1)
  }

  /** The words of s[i..]: skip the whitespace, take the maximal run of
      non-whitespace that follows as one word, and go on after it. */
  function SplitFrom(s: string, i: nat): (words: seq<string>)
    requires i <= |s|
    ensures forall k :: 0 <= k < |words| ==> words[k] != [] && NoSpace(words[k])
    ensures words == [] <==> forall m :: i <= m < |s| ==> IsSpace(s[m])
    decreases |s| - i
  {
    var a := SpaceEnd(s, i);
    if a == |s| then []
    else
      var b := WordEnd(s, a);
      [s[a..b]] + SplitFrom(s, b)
  }

  /** `s.split()` with no argument. */
  function Split(s: string): seq<string> {
    SplitFrom(s, 0)
  }

  /** `len(transcript.split())` (app.py line 80). */
  function WordCount(s: string): nat {
    |Split(s)|
  }

  /** Position i begins a word: it holds a non-whitespace character that is
      the first of the string or follows whitespace. */
  predicate StartsWord(s: string, i: int)
    requires 0 <= i < |s|
  {
    !IsSpace(s[i]) && (i == 0 || IsSpace(s[i - 1]))
  }

  /** The number of word beginnings at positions i, i+1, ..., |s|-1: an
      independent, position-by-position definition of the word count. */
  function StartsFrom(s: string, i: nat): nat
    requires i <= |s|
    decreases |s| - i
  {
    if i == |s| then 0 else (if StartsWord(s, i) then 1 else 0) + StartsFrom(s, i + 1)
  }

  /** The non-whitespace characters of s, in order. */
  function Squeeze(s: string): (r: string)
    ensures |r| <= |s|
    ensures NoSpace(r)
  {
    if s == [] then [] else (if IsSpace(s[0]) then [] else [s[0]]) + Squeeze(s[1..])
  }

  /** The words, one after another, with nothing between them. */
  function Concat(words: seq<string>): string {
    if words == [] then [] else words[0] + Concat(words[1..])
  }

  /** No word begins anywhere in s[i..k]. */
  lemma {:induction false} NoStartsBetween(s: string, i: nat, k: nat)
    requires i <= k <= |s|
    requires forall m :: i <= m < k ==> !StartsWord(s, m)
    ensures StartsFrom(s, i) == StartsFrom(s, k)
    decreases k - i
  {
    if i < k {
      NoStartsBetween(s, i + 1, k);
    }
  }

  /** Splitting from a position that does not lie inside a word yields exactly
      as many words as there are word beginnings from there on. */
  lemma {:induction false} SplitCountsStarts(s: string, i: nat)
    requires i <= |s|
    requires i == 0 || i == |s| || IsSpace(s[i - 1]) || IsSpace(s[i])
    ensures |SplitFrom(s, i)| == StartsFrom(s, i)
    decreases |s| - i
  {
    var a := SpaceEnd(s, i);
    NoStartsBetween(s, i, a);
    if a < |s| {
      var b := WordEnd(s, a);
      assert StartsWord(s, a);
      NoStartsBetween(s, a + 1, b);
      SplitCountsStarts(s, b);
    }
  }

  /** The word count is the number of maximal non-whitespace runs, counted as
      the positions where one begins. */
  lemma WordCountIsRunCount(s: string)
    ensures WordCount(s) == StartsFrom(s, 0)
  {
    SplitCountsStarts(s, 0);
  }

  /** A whitespace-only (or empty) transcript has no words, and only such a
      transcript has none. */
  lemma NoWordsIffAllSpace(s: string)
    ensures WordCount(s) == 0 <==> AllSpace(s)
  {
  }

  /** Words are separated by at least one whitespace character, so a string
      of n characters holds at most (n + 1) / 2 words, and never more than n. */
  lemma WordCountBound(s: string)
    ensures 2 * WordCount(s) <= |s| + 1
    ensures WordCount(s) <= |s|
  {
    WordCountBoundFrom(s, 0);
  }

  lemma {:induction false} WordCountBoundFrom(s: string, i: nat)
    requires i <= |s|
    ensures 2 * |SplitFrom(s, i)| + (if i < |s| && IsSpace(s[i]) then 1 else 0) <= |s| - i + 1
    decreases |s| - i
  {
    var a := SpaceEnd(s, i);
    if a < |s| {
      WordCountBoundFrom(s, WordEnd(s, a));
    }
  }

  /** The words, put back together, are exactly the non-whitespace characters
      of the transcript in their original order: splitting loses only the
      whitespace. */
  lemma SplitKeepsEveryCharacter(s: string)
    ensures Concat(Split(s)) == Squeeze(s)
  {
    SplitFromKeepsEveryCharacter(s, 0);
    assert s[0..] == s;
  }

  lemma {:induction false} SplitFromKeepsEveryCharacter(s: string, i: nat)
    requires i <= |s|
    ensures Concat(SplitFrom(s, i)) == Squeeze(s[i..])
    decreases |s| - i
  {
    var a := SpaceEnd(s, i);
    assert s[i..] == s[i..a] + s[a..];
    SqueezeAppend(s[i..a], s[a..]);
    SqueezeDropsSpace(s[i..a]);
    if a < |s| {
      var b := WordEnd(s, a);
      assert s[a..] == s[a..b] + s[b..];
      SqueezeAppend(s[a..b], s[b..]);
      SqueezeKeepsWord(s[a..b]);
      SplitFromKeepsEveryCharacter(s, b);
      var words := SplitFrom(s, i);
      assert words[0] == s[a..b] && words[1..] == SplitFrom(s, b);
    }
  }

  lemma {:induction false} SqueezeDropsSpace(u: string)
    requires AllSpace(u)
    ensures Squeeze(u) == []
    decreases |u|
  {
    if u != [] {
      assert IsSpace(u[0]);
      SqueezeDropsSpace(u[1..]);
    }
  }

  lemma {:induction false} SqueezeKeepsWord(w: string)
    requires NoSpace(w)
    ensures Squeeze(w) == w
    decreases |w|
  {
    if w != [] {
      assert !IsSpace(w[0]);
      SqueezeKeepsWord(w[1..]);
    }
  }

  lemma {:induction false} SqueezeAppend(u: string, v: string)
    ensures Squeeze(u + v) == Squeeze(u) + Squeeze(v)
    decreases |u|
  {
    if u != [] {
      assert (u + v)[0] == u[0] && (u + v)[1..] == u[1..] + v;
      SqueezeAppend(u[1..], v);
    } else {
      assert u + v == v;
    }
  }
}
