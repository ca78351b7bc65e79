/** Rust's `str::trim`, used on the reply that becomes a conversation title. */
module Text {

  /** `char::is_whitespace`: the characters with the Unicode White_Space property. */
  predicate IsWhitespace(c: char) {
    ('\t' <= c <= '\r') || c == ' ' || c == '\U{85}' || c == '\U{A0}' || c == '\U{1680}'
    || ('\U{2000}' <= c <= '\U{200A}') || c == '\U{2028}' || c == '\U{2029}'
    || c == '\U{202F}' || c == '\U{205F}' || c == '\U{3000}'
  }

  /** Every character of `s` from position `lo` up to (not including) `hi` is whitespace. */
  predicate WhitespaceIn(s: string, lo: nat, hi: nat)
    requires lo <= hi <= |s|
  {
    forall i :: lo <= i < hi ==> IsWhitespace(s[i])
  }

  predicate AllWhitespace(s: string) {
    WhitespaceIn(s, 0, |s|)
  }

  /** Neither the first nor the last character is whitespace. */
  predicate Trimmed(s: string) {
    s == [] || (!IsWhitespace(s[0]) && !IsWhitespace(s[|s| - 1]))
  }

  /** The first position at or after `i` that is not whitespace, `|s|` if there is none. */
  function SkipWhitespace(s: string, i: nat): (k: nat)
    requires i <= |s|
    ensures i <= k <= |s| && WhitespaceIn(s, i, k)
    ensures k < |s| ==> !IsWhitespace(s[k])
    decreases |s| - i
  {
    if i < |s| && IsWhitespace(s[i]) then SkipWhitespace(s, i + 1) else i
  }

  /** The position just after the last non-whitespace character before `j`, `0` if there is none. */
  function SkipWhitespaceBack(s: string, j: nat): (k: nat)
    requires j <= |s|
    ensures k <= j && WhitespaceIn(s, k, j)
    ensures 0 < k ==> !IsWhitespace(s[k - 1])
  {
    if 0 < j && IsWhitespace(s[j - 1]) then SkipWhitespaceBack(s, j - 1) else j
  }

  /** `trim`: the part of `s` from its first to its last non-whitespace character. */
  function Trim(s: string): (r: string)
    ensures |r| <= |s| && Trimmed(r)
  {
    var k := SkipWhitespace(s, 0);
    if k == |s| then []
    else
      var e := SkipWhitespaceBack(s, |s|);
      assert k < e;
      s[k..e]
  }

  /** The title is empty exactly when the reply is all whitespace. */
  lemma TrimEmptyIff(s: string)
    ensures Trim(s) == [] <==> AllWhitespace(s)
  {
    var k := SkipWhitespace(s, 0);
    if k < |s| {
      assert Trim(s)[0] == s[k];
    }
  }

  /** A reply with no whitespace at either end is taken as it is. */
  lemma TrimOfTrimmed(s: string)
    requires Trimmed(s)
    ensures Trim(s) == s
  {
    if s != [] {
      assert SkipWhitespace(s, 0) == 0;
      assert SkipWhitespaceBack(s, |s|) == |s|;
      assert s[0..|s|] == s;
    }
  }

  /**
   * What `trim` removes is whitespace around one slice of `s`: the reply is leading
   * whitespace, the title, and trailing whitespace.
   */
  lemma TrimIsSlice(s: string)
    ensures var k := SkipWhitespace(s, 0);
      k + |Trim(s)| <= |s| && Trim(s) == s[k..k + |Trim(s)|]
      && WhitespaceIn(s, 0, k) && WhitespaceIn(s, k + |Trim(s)|, |s|)
  {
  }

  /** Trimming twice is trimming once. */
  lemma TrimIdempotent(s: string)
    ensures Trim(Trim(s)) == Trim(s)
  {
    TrimOfTrimmed(Trim(s));
  }
}
