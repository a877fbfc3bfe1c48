/**
 * The Kotlin string operations the DeepSeek stream reader relies on:
 * `indexOf`, `split(delimiter)`, `last()`, `trim()` and `replace`, stated
 * as they behave on the JVM, plus the concatenation of a list of strings.
 */
module Text {
  import opened Wrappers

  /** The concatenation of `parts` in order. */
  function Flatten(parts: seq<string>): string {
    if parts == [] then "" else parts[0] + Flatten(parts[1..])
  }

  lemma {:induction false} FlattenAppend(a: seq<string>, b: seq<string>)
    ensures Flatten(a + b) == Flatten(a) + Flatten(b)
  {
    if a == [] {
      assert a + b == b;
    } else {
      assert (a + b)[1..] == a[1..] + b;
      FlattenAppend(a[1..], b);
    }
  }

  /** A prefix of a suffix is a middle slice. */
  lemma PrefixOfSuffix<T>(s: seq<T>, i: nat, m: nat)
    requires i + m <= |s|
    ensures s[i..][..m] == s[i..i + m]
  {
  }

  /** Taking one more element of a sequence appends that element. */
  lemma TakeOneMore<T>(s: seq<T>, i: nat)
    requires i < |s|
    ensures s[..i + 1] == s[..i] + [s[i]]
  {
  }

  // ---------------------------------------------------------------------------
  // Searching for a delimiter

  /** `sep` occurs in `s` starting at index `k`. */
  ghost predicate OccursAt(s: string, sep: string, k: int) {
    0 <= k && k + |sep| <= |s| && s[k..k + |sep|] == sep
  }

  ghost predicate Contains(s: string, sep: string) {
    exists k :: OccursAt(s, sep, k)
  }

  /** `s.indexOf(sep, from)`: the first occurrence of `sep` at or after `from`. */
  function IndexOf(s: string, sep: string, from: nat): (r: Option<nat>)
    requires |sep| > 0 && from <= |s|
    ensures r.Some? ==> from <= r.value && OccursAt(s, sep, r.value)
    ensures r.Some? ==> forall k :: from <= k < r.value ==> !OccursAt(s, sep, k)
    ensures r.None? ==> forall k :: from <= k ==> !OccursAt(s, sep, k)
    decreases |s| - from
  {
    if from + |sep| > |s| then None
    else if s[from..from + |sep|] == sep then Some(from)
    else IndexOf(s, sep, from + 1)
  }

  // ---------------------------------------------------------------------------
  // split / last

  /**
   * Kotlin's `split(sep)` for a non-empty delimiter and no limit, scanning
   * from `from`: the piece up to the next occurrence, then the rest split
   * again after that occurrence; the piece after the last occurrence ends
   * the list.
   */
  function SplitFrom(s: string, sep: string, from: nat): (pieces: seq<string>)
    requires |sep| > 0 && from <= |s|
    ensures |pieces| >= 1
    decreases |s| - from
  {
    match IndexOf(s, sep, from)
    case None => [s[from..]]
    case Some(k) => [s[from..k]] + SplitFrom(s, sep, k + |sep|)
  }

  function Split(s: string, sep: string): (pieces: seq<string>)
    requires |sep| > 0
    ensures |pieces| >= 1
  {
    SplitFrom(s, sep, 0)
  }

  /** Kotlin's `last()` on a non-empty list. */
  function Last(pieces: seq<string>): string
    requires |pieces| > 0
  {
    pieces[|pieces| - 1]
  }

  /** Whatever comes before it, the element put at the end is the last one. */
  lemma LastAppend(front: seq<string>, piece: string)
    ensures Last(front + [piece]) == piece
  {
  }

  /** A first piece in front does not change the last one. */
  lemma LastCons(piece: string, rest: seq<string>)
    requires |rest| > 0
    ensures Last([piece] + rest) == Last(rest)
  {
  }

  /** Past an occurrence, the split goes on after the delimiter. */
  lemma SplitFromStep(s: string, sep: string, from: nat, k: nat)
    requires |sep| > 0 && from <= |s| && IndexOf(s, sep, from) == Some(k)
    ensures from <= k && k + |sep| <= |s| && s[k..k + |sep|] == sep
    ensures SplitFrom(s, sep, from) == [s[from..k]] + SplitFrom(s, sep, k + |sep|)
  {
  }

  /** Without a further occurrence, the split is the rest of the text alone. */
  lemma SplitFromEnd(s: string, sep: string, from: nat)
    requires |sep| > 0 && from <= |s| && IndexOf(s, sep, from).None?
    ensures forall k :: from <= k ==> !OccursAt(s, sep, k)
    ensures SplitFrom(s, sep, from) == [s[from..]]
  {
  }

  /**
   * The last piece is a suffix `s[j..]` with no occurrence of `sep` from `j`
   * on; it is either the whole scanned text or directly preceded by `sep`.
   */
  lemma {:induction false} LastPieceFrom(s: string, sep: string, from: nat) returns (j: nat)
    requires |sep| > 0 && from <= |s|
    ensures from <= j <= |s|
    ensures Last(SplitFrom(s, sep, from)) == s[j..]
    ensures forall k :: j <= k ==> !OccursAt(s, sep, k)
    ensures j == from || (from + |sep| <= j && OccursAt(s, sep, j - |sep|))
    decreases |s| - from
  {
    var found := IndexOf(s, sep, from);
    if found.None? {
      SplitFromEnd(s, sep, from);
      j := from;
    } else {
      var k := found.value;
      var next := k + |sep|;
      var rest := SplitFrom(s, sep, next);
      SplitFromStep(s, sep, from, k);
      j := LastPieceFrom(s, sep, next);
      LastCons(s[from..k], rest);
      assert j == next ==> OccursAt(s, sep, k);
    }
  }

  /** A text without the delimiter splits into itself alone. */
  lemma SplitWithoutDelimiter(s: string, sep: string)
    requires |sep| > 0 && !Contains(s, sep)
    ensures Split(s, sep) == [s]
  {
    assert IndexOf(s, sep, 0).None?;
  }

  // ---------------------------------------------------------------------------
  // trim

  /**
   * Kotlin's `Char.isWhitespace()` on the JVM: Java's `isWhitespace` or
   * `isSpaceChar`.
   */
  predicate IsWhitespace(c: char) {
    || ('\t' <= c <= '\r')
    || ('\U{1C}' <= c <= '\U{1F}')
    || c == ' '
    || c == '\U{A0}'
    || c == '\U{1680}'
    || ('\U{2000}' <= c <= '\U{200A}')
    || c == '\U{2028}'
    || c == '\U{2029}'
    || c == '\U{202F}'
    || c == '\U{205F}'
    || c == '\U{3000}'
  }

  /**
   * The JVM's whitespace: the ASCII controls from tab to carriage return and
   * the four separators U+001C-U+001F, the space, and the Unicode space,
   * line and paragraph separators, the no-break spaces included; not the
   * zero-width space, and not the next-line control character.
   */
  lemma JvmWhitespace()
    ensures forall c: char :: '\t' <= c <= '\r' ==> IsWhitespace(c)
    ensures forall c: char :: '\U{1C}' <= c <= '\U{1F}' ==> IsWhitespace(c)
    ensures forall c: char :: '\U{2000}' <= c <= '\U{200A}' ==> IsWhitespace(c)
    ensures IsWhitespace(' ') && IsWhitespace('\U{A0}') && IsWhitespace('\U{1680}')
    ensures IsWhitespace('\U{2028}') && IsWhitespace('\U{2029}') && IsWhitespace('\U{202F}')
    ensures IsWhitespace('\U{205F}') && IsWhitespace('\U{3000}')
    ensures !IsWhitespace('a') && !IsWhitespace('\U{200B}') && !IsWhitespace('\U{85}')
  {
  }

  /** Neither end of `s` is whitespace. */
  predicate Trimmed(s: string) {
    s == [] || (!IsWhitespace(s[0]) && !IsWhitespace(s[|s| - 1]))
  }

  /** Kotlin's `trimStart()`: drops the leading whitespace. */
  function TrimStart(s: string): string {
    if s != [] && IsWhitespace(s[0]) then TrimStart(s[1..]) else s
  }

  /** Kotlin's `trimEnd()`: drops the trailing whitespace. */
  function TrimEnd(s: string): string {
    if s != [] && IsWhitespace(s[|s| - 1]) then TrimEnd(s[..|s| - 1]) else s
  }

  /** `TrimStart` leaves a suffix that does not start with whitespace, having dropped only whitespace. */
  lemma {:induction false} TrimStartSuffix(s: string)
    ensures |TrimStart(s)| <= |s| && TrimStart(s) == s[|s| - |TrimStart(s)|..]
    ensures forall k :: 0 <= k < |s| - |TrimStart(s)| ==> IsWhitespace(s[k])
    ensures TrimStart(s) != [] ==> !IsWhitespace(TrimStart(s)[0])
  {
    if s != [] && IsWhitespace(s[0]) {
      var t := s[1..];
      TrimStartSuffix(t);
      assert TrimStart(s) == TrimStart(t);
      var d := |t| - |TrimStart(t)|;
      assert t[d..] == s[d + 1..];
      forall k | 0 < k < d + 1
        ensures IsWhitespace(s[k])
      {
        assert s[k] == t[k - 1];
      }
    }
  }

  /** `TrimEnd` leaves a prefix that does not end with whitespace, having dropped only whitespace. */
  lemma {:induction false} TrimEndPrefix(s: string)
    ensures |TrimEnd(s)| <= |s| && TrimEnd(s) == s[..|TrimEnd(s)|]
    ensures forall k :: |TrimEnd(s)| <= k < |s| ==> IsWhitespace(s[k])
    ensures TrimEnd(s) != [] ==> !IsWhitespace(TrimEnd(s)[|TrimEnd(s)| - 1])
  {
    if s != [] && IsWhitespace(s[|s| - 1]) {
      var t := s[..|s| - 1];
      TrimEndPrefix(t);
      assert TrimEnd(s) == TrimEnd(t);
      var m := |TrimEnd(t)|;
      assert t[..m] == s[..m];
      forall k | m <= k < |t|
        ensures IsWhitespace(s[k])
      {
        assert s[k] == t[k];
      }
    }
  }

  /** `r` is `s` from index `i` on, with only whitespace cut off on either side. */
  ghost predicate CutFrom(s: string, r: string, i: int) {
    && 0 <= i <= |s| - |r| && s[i..i + |r|] == r
    && (forall k :: 0 <= k < i ==> IsWhitespace(s[k]))
    && (forall k :: i + |r| <= k < |s| ==> IsWhitespace(s[k]))
  }

  /**
   * Kotlin's `trim()`: the longest middle stretch of `s` whose ends are not
   * whitespace, everything cut off on either side being whitespace.
   */
  function Trim(s: string): (r: string)
    ensures Trimmed(r)
    ensures exists i :: CutFrom(s, r, i)
  {
    TrimCuts(s);
    TrimEnd(TrimStart(s))
  }

  lemma TrimCuts(s: string)
    ensures Trimmed(TrimEnd(TrimStart(s)))
    ensures CutFrom(s, TrimEnd(TrimStart(s)), |s| - |TrimStart(s)|)
  {
    TrimBothEnds(s);
    TrimCutsWhitespace(s);
  }

  /** After trimming the start and then the end, neither end is whitespace. */
  lemma TrimBothEnds(s: string)
    ensures Trimmed(TrimEnd(TrimStart(s)))
  {
    var t := TrimStart(s);
    var r := TrimEnd(t);
    TrimStartSuffix(s);
    TrimEndPrefix(t);
    if r != [] {
      assert r[0] == t[0];
    }
  }

  /** Trimming the start and then the end cuts only whitespace off `s`. */
  lemma TrimCutsWhitespace(s: string)
    ensures CutFrom(s, TrimEnd(TrimStart(s)), |s| - |TrimStart(s)|)
  {
    var t := TrimStart(s);
    var r := TrimEnd(t);
    TrimStartSuffix(s);
    TrimEndPrefix(t);
    var i := |s| - |t|;
    PrefixOfSuffix(s, i, |r|);
    forall k | i + |r| <= k < |s|
      ensures IsWhitespace(s[k])
    {
      assert s[k] == t[k - i];
    }
  }

  /** Trimming a text whose ends are not whitespace gives it back unchanged. */
  lemma TrimOfTrimmed(s: string)
    requires Trimmed(s)
    ensures Trim(s) == s
  {
  }

  // ---------------------------------------------------------------------------
  // replace

  /** `s.replace(" ".toRegex(), "")`: `s` with every space removed. */
  function RemoveSpaces(s: string): (r: string)
    ensures ' ' !in r
    ensures ' ' !in s ==> r == s
    ensures |r| <= |s|
    ensures |s| == 1 ==> r == if s[0] == ' ' then "" else s
  {
    if s == [] then ""
    else if s[0] == ' ' then RemoveSpaces(s[1..])
    else [s[0]] + RemoveSpaces(s[1..])
  }

  /**
   * Removing spaces works character by character: the text of two parts is
   * the two parts' texts in order. With the one-character case above, this
   * says every other character is kept, in order.
   */
  lemma {:induction false} RemoveSpacesConcat(a: string, b: string)
    ensures RemoveSpaces(a + b) == RemoveSpaces(a) + RemoveSpaces(b)
  {
    if a == [] {
      assert a + b == b;
    } else {
      assert (a + b)[1..] == a[1..] + b;
      RemoveSpacesConcat(a[1..], b);
    }
  }
}
