/** The few pieces of the Kotlin standard library that the view-models rely on:
    nullable values, `isBlank`, `trim`, string templates over nullable values and `?:`. */
module KotlinText {

  /** A Kotlin `T?` value. */
  datatype Option<T> = None | Some(value: T)

  /** Kotlin's `Char.isWhitespace()`: Java's `Character.isWhitespace` or `Character.isSpaceChar`,
      that is the ASCII controls TAB..CR and FS..US, and the Unicode space, line and paragraph
      separators (including the non-breaking spaces). */
  predicate IsWhitespace(c: char)
  {
    || ('\t' <= c <= '\r')
    || ('\U{001C}' <= c <= ' ')
    || c == '\U{00A0}' || c == '\U{1680}'
    || ('\U{2000}' <= c <= '\U{200A}')
    || c == '\U{2028}' || c == '\U{2029}' || c == '\U{202F}' || c == '\U{205F}' || c == '\U{3000}'
  }

  /** Kotlin's `CharSequence.isBlank()`: empty, or whitespace only. */
  predicate IsBlank(s: string)
  {
    forall i :: 0 <= i < |s| ==> IsWhitespace(s[i])
  }

  /** Kotlin's `CharSequence.trimStart(predicate)`: drops the leading characters that satisfy
      `p`. What is left is a suffix of `s` that does not start with such a character (what
      was dropped satisfies `p`: `TrimStartByDrops`). */
  function TrimStartBy(s: string, p: char -> bool): (r: string)
    ensures |r| <= |s| && r == s[|s| - |r|..]
    ensures r != [] ==> !p(r[0])
  {
    if s != [] && p(s[0]) then TrimStartBy(s[1..], p) else s
  }

  /** Everything `TrimStartBy` drops satisfies the predicate. */
  lemma {:induction false} TrimStartByDrops(s: string, p: char -> bool)
    ensures forall i :: 0 <= i < |s| - |TrimStartBy(s, p)| ==> p(s[i])
  {
    if s != [] && p(s[0]) {
      TrimStartByDrops(s[1..], p);
      forall i | 1 <= i < |s| - |TrimStartBy(s, p)| ensures p(s[i]) {
        assert s[i] == s[1..][i - 1];
      }
    }
  }

  /** Kotlin's `CharSequence.trimEnd(predicate)`: drops the trailing characters that satisfy
      `p`. What is left is a prefix of `s` that does not end with such a character (what was
      dropped satisfies `p`: `TrimEndByDrops`). */
  function TrimEndBy(s: string, p: char -> bool): (r: string)
    ensures |r| <= |s| && r == s[..|r|]
    ensures r != [] ==> !p(r[|r| - 1])
  {
    if s != [] && p(s[|s| - 1]) then TrimEndBy(s[..|s| - 1], p) else s
  }

  /** Everything `TrimEndBy` drops satisfies the predicate. */
  lemma {:induction false} TrimEndByDrops(s: string, p: char -> bool)
    ensures forall i :: |TrimEndBy(s, p)| <= i < |s| ==> p(s[i])
  {
    if s != [] && p(s[|s| - 1]) {
      TrimEndByDrops(s[..|s| - 1], p);
      forall i | |TrimEndBy(s, p)| <= i < |s| - 1 ensures p(s[i]) {
        assert s[i] == s[..|s| - 1][i];
      }
    }
  }

  /** Kotlin's `CharSequence.trim(predicate)`: both ends at once. */
  function TrimBy(s: string, p: char -> bool): string
  {
    TrimEndBy(TrimStartBy(s, p), p)
  }

  /** Kotlin's `String.trim()`, which is `trim(Char::isWhitespace)`. */
  function Trim(s: string): string
  {
    TrimBy(s, IsWhitespace)
  }

  /** `trim(p)` keeps a slice of `s` that starts after its leading run of `p`-characters:
      its `i`-th character is the `i`-th one after that run. */
  lemma TrimBySlice(s: string, p: char -> bool)
    ensures |s| - |TrimStartBy(s, p)| + |TrimBy(s, p)| <= |s|
    ensures forall i :: 0 <= i < |TrimBy(s, p)| ==> TrimBy(s, p)[i] == s[|s| - |TrimStartBy(s, p)| + i]
  {
  }

  /** Everything after the slice that `trim(p)` keeps satisfies `p`. */
  lemma TrimByDropsTrailing(s: string, p: char -> bool)
    ensures forall i :: |s| - |TrimStartBy(s, p)| + |TrimBy(s, p)| <= i < |s| ==> p(s[i])
  {
    var t := TrimStartBy(s, p);
    var a := |s| - |t|;
    TrimEndByDrops(t, p);
    forall i | a + |TrimEndBy(t, p)| <= i < |s| ensures p(s[i]) {
      assert s[i] == t[i - a];
    }
  }

  /** The result of `trim(p)` is the slice of `s` that starts after its leading run of
      `p`-characters, and everything after that slice satisfies `p` too; the result neither
      starts nor ends with a `p`-character. */
  lemma TrimByIsInnerSlice(s: string, p: char -> bool)
    ensures var a, r := |s| - |TrimStartBy(s, p)|, TrimBy(s, p);
      && a + |r| <= |s| && (forall i :: 0 <= i < |r| ==> r[i] == s[a + i])
      && (forall i :: 0 <= i < a ==> p(s[i]))
      && (forall i :: a + |r| <= i < |s| ==> p(s[i]))
      && (r != [] ==> !p(r[0]) && !p(r[|r| - 1]))
  {
    TrimBySlice(s, p);
    TrimStartByDrops(s, p);
    TrimByDropsTrailing(s, p);
    var t := TrimStartBy(s, p);
    var r := TrimEndBy(t, p);
    if r != [] {
      assert r[0] == t[0];
    }
  }

  /** Trimming twice with the same predicate is trimming once. */
  lemma TrimByIdempotent(s: string, p: char -> bool)
    ensures TrimBy(TrimBy(s, p), p) == TrimBy(s, p)
  {
    var r := TrimBy(s, p);
    TrimByIsInnerSlice(s, p);
    if r != [] {
      assert TrimStartBy(r, p) == r;
      assert TrimEndBy(r, p) == r;
    }
  }

  /** `trim()` keeps the slice of `s` between its leading and its trailing whitespace, and
      that slice neither starts nor ends with whitespace. */
  lemma TrimIsInnerSlice(s: string)
    ensures var a, r := |s| - |TrimStartBy(s, IsWhitespace)|, Trim(s);
      && a + |r| <= |s| && (forall i :: 0 <= i < |r| ==> r[i] == s[a + i])
      && (forall i :: 0 <= i < a ==> IsWhitespace(s[i]))
      && (forall i :: a + |r| <= i < |s| ==> IsWhitespace(s[i]))
      && (r != [] ==> !IsWhitespace(r[0]) && !IsWhitespace(r[|r| - 1]))
  {
    TrimByIsInnerSlice(s, IsWhitespace);
  }

  /** Trimming gives the empty string exactly for blank input. */
  lemma TrimEmptyIffBlank(s: string)
    ensures Trim(s) == [] <==> IsBlank(s)
  {
    TrimIsInnerSlice(s);
  }

  /** Trimming twice is trimming once. */
  lemma TrimIdempotent(s: string)
    ensures Trim(Trim(s)) == Trim(s)
  {
    TrimByIdempotent(s, IsWhitespace);
  }

  /** A Kotlin string template `"${x}"` over a nullable string: `null` is rendered as "null". */
  function Interpolate(x: Option<string>): string
  {
    match x
    case Some(v) => v
    case None => "null"
  }

  /** Kotlin's elvis operator `x ?: fallback`. */
  function Elvis(x: Option<string>, fallback: string): string
  {
    match x
    case Some(v) => v
    case None => fallback
  }
}
