/**
 Whitespace trimming as performed by Python's `str.strip()` with no argument:
 every leading and trailing character for which `str.isspace()` holds is removed,
 and nothing else.
 */
module Text {

  /** The characters Python's `str.isspace()` accepts (Unicode white space). */
  predicate IsSpace(c: char) {
    ('\U{0009}' <= c <= '\U{000D}')
    || ('\U{001C}' <= c <= '\U{001F}')
    || c == ' '
    || c == '\U{0085}'
    || c == '\U{00A0}'
    || c == '\U{1680}'
    || ('\U{2000}' <= c <= '\U{200A}')
    || c == '\U{2028}'
    || c == '\U{2029}'
    || c == '\U{202F}'
    || c == '\U{205F}'
    || c == '\U{3000}'
  }

  predicate AllSpace(s: string) {
    forall k :: 0 <= k < |s| ==> IsSpace(s[k])
  }

  /** A string that starts and ends with a non-space character (or is empty). */
  predicate Trimmed(s: string) {
    s == [] || (!IsSpace(s[0]) && !IsSpace(s[|s| - 1]))
  }

  /**
   The independent description of stripping: `s[i..j]` is the stripped text of `s`
   when everything before `i` and from `j` on is white space and `s[i..j]` itself
   neither starts nor ends with white space.
   */
  predicate StrippedAt(s: string, i: int, j: int) {
    && 0 <= i <= j <= |s|
    && (forall k :: 0 <= k < i ==> IsSpace(s[k]))
    && (forall k :: j <= k < |s| ==> IsSpace(s[k]))
    && Trimmed(s[i..j])
  }

  /** Number of white-space characters at the front of `s`. */
  function LeadingSpace(s: string): (n: nat)
    ensures n <= |s|
    ensures forall k :: 0 <= k < n ==> IsSpace(s[k])
    ensures n < |s| ==> !IsSpace(s[n])
  {
    if |s| > 0 && IsSpace(s[0]) then 1 + LeadingSpace(s[1..]) else 0
  }

  /** Number of white-space characters at the back of `s`. */
  function TrailingSpace(s: string): (n: nat)
    ensures n <= |s|
    ensures forall k :: |s| - n <= k < |s| ==> IsSpace(s[k])
    ensures n < |s| ==> !IsSpace(s[|s| - n - 1])
  {
    if |s| > 0 && IsSpace(s[|s| - 1]) then 1 + TrailingSpace(s[..|s| - 1]) else 0
  }

  /** The bounds of the kept part of `s`. */
  function StripBounds(s: string): (b: (nat, nat))
    ensures StrippedAt(s, b.0, b.1)
  {
    var i := LeadingSpace(s);
    var n := TrailingSpace(s[i..]);
    assert forall k :: |s| - n <= k < |s| ==> s[k] == s[i..][k - i];
    (i, |s| - n)
  }

  /** Python's `s.strip()`. */
  function Strip(s: string): (r: string)
    ensures |r| <= |s|
    ensures Trimmed(r)
    ensures r == [] <==> AllSpace(s)
  {
    var b := StripBounds(s);
    assert AllSpace(s) ==> b.0 == b.1;
    s[b.0..b.1]
  }

  /** Stripping is determined by its description: whatever bounds satisfy it cut out `Strip(s)`. */
  lemma StripUnique(s: string, i: int, j: int)
    requires StrippedAt(s, i, j)
    ensures Strip(s) == s[i..j]
  {
  }

  /** White space around a trimmed core is exactly what `strip()` removes. */
  lemma StripPadded(pre: string, core: string, post: string)
    requires AllSpace(pre) && AllSpace(post) && Trimmed(core)
    ensures Strip(pre + core + post) == core
  {
    var s := pre + core + post;
    assert s[|pre|..|pre| + |core|] == core;
    assert forall k :: 0 <= k < |pre| ==> s[k] == pre[k];
    assert forall k :: |pre| + |core| <= k < |s| ==> s[k] == post[k - |pre| - |core|];
    StripUnique(s, |pre|, |pre| + |core|);
  }

  /** Stripping twice is stripping once. */
  lemma StripIdempotent(s: string)
    ensures Strip(Strip(s)) == Strip(s)
  {
  }

  /** A text that starts and ends with a non-space character is left as it is. */
  lemma StripLeavesTrimmed(text: string)
    requires Trimmed(text)
    ensures Strip(text) == text
  {
    StripUnique(text, 0, |text|);
  }
}
