/**
 * Whitespace trimming as done by Python's `str.strip()` with no argument:
 * every leading and every trailing whitespace character is removed, the
 * interior of the string is left as it is.
 */
module Text {

  /** The characters for which Python's `str.isspace()` holds. The blank
      is one of them; no ASCII letter or digit is. */
  predicate IsSpace(c: char): (b: bool)
    ensures c == ' ' ==> b
    ensures b ==> !('0' <= c <= '9' || 'A' <= c <= 'Z' || 'a' <= c <= 'z')
  {
    c == ' ' || ('\t' <= c <= '\r') || ('\U{1C}' <= c <= '\U{1F}')
    || c == '\U{85}' || c == '\U{A0}' || c == '\U{1680}'
    || ('\U{2000}' <= c <= '\U{200A}') || c == '\U{2028}' || c == '\U{2029}'
    || c == '\U{202F}' || c == '\U{205F}' || c == '\U{3000}'
  }

  /** Every character of `s` is whitespace (the empty string included). */
  predicate AllSpace(s: string)
  {
    forall i :: 0 <= i < |s| ==> IsSpace(s[i])
  }

  /** Drops the leading whitespace of `s`: what is left is a suffix of `s`
      that starts with a non-space character, and all that was dropped is
      whitespace. */
  function TrimStart(s: string): (r: string)
    ensures |r| <= |s| && r == s[|s| - |r|..]
    ensures AllSpace(s[..|s| - |r|])
    ensures r != [] ==> !IsSpace(r[0])
  {
    if |s| > 0 && IsSpace(s[0]) then
      var r := TrimStart(s[1..]);
      assert s[..|s| - |r|] == [s[0]] + s[1..][..|s| - 1 - |r|];
      r
    else s
  }

  /** Drops the trailing whitespace of `s`: what is left is a prefix of `s`
      that ends with a non-space character, and all that was dropped is
      whitespace. */
  function TrimEnd(s: string): (r: string)
    ensures |r| <= |s| && r == s[..|r|]
    ensures AllSpace(s[|r|..])
    ensures r != [] ==> !IsSpace(r[|r| - 1])
  {
    if |s| > 0 && IsSpace(s[|s| - 1]) then
      var r := TrimEnd(s[..|s| - 1]);
      assert s[|r|..] == s[..|s| - 1][|r|..] + [s[|s| - 1]];
      r
    else s
  }

  /** Python's `s.strip()`: the result is the contiguous slice of `s` that
      neither starts nor ends with whitespace, and it is empty exactly when
      `s` is made of whitespace only. */
  function Strip(s: string): (r: string)
    ensures |r| <= |s|
    ensures r != [] ==> !IsSpace(r[0]) && !IsSpace(r[|r| - 1])
    ensures r == [] <==> AllSpace(s)
  {
    TrimEnd(TrimStart(s))
  }

  /** The stripped string sits inside `s` at some offset: strip removes
      characters only at the two ends. */
  lemma StripIsSlice(s: string)
    ensures var k := |s| - |TrimStart(s)|;
      k + |Strip(s)| <= |s| && Strip(s) == s[k..k + |Strip(s)|]
  {
  }

  /** Stripping twice is stripping once. */
  lemma StripIdempotent(s: string)
    ensures Strip(Strip(s)) == Strip(s)
  {
  }

  /** Whitespace padding around a name does not change what strip returns. */
  lemma {:induction false} StripIgnoresPadding(pre: string, s: string, post: string)
    requires AllSpace(pre) && AllSpace(post)
    ensures Strip(pre + s + post) == Strip(s)
  {
    calc {
      Strip(pre + s + post);
      { assert pre + s + post == pre + (s + post); }
      TrimEnd(TrimStart(pre + (s + post)));
      { PaddingStart(pre, s + post); }
      TrimEnd(TrimStart(s + post));
      { TrimStartAppend(s, post); }
      TrimEnd(TrimStart(s) + post);
      { PaddingEnd(TrimStart(s), post); }
      TrimEnd(TrimStart(s));
    }
  }

  lemma {:induction false} PaddingStart(pre: string, s: string)
    requires AllSpace(pre)
    ensures TrimStart(pre + s) == TrimStart(s)
    decreases |pre|
  {
    if pre == [] {
      assert pre + s == s;
    } else {
      assert (pre + s)[0] == pre[0];
      assert (pre + s)[1..] == pre[1..] + s;
      PaddingStart(pre[1..], s);
    }
  }

  lemma {:induction false} PaddingEnd(s: string, post: string)
    requires AllSpace(post)
    ensures TrimEnd(s + post) == TrimEnd(s)
    decreases |post|
  {
    if post == [] {
      assert s + post == s;
    } else {
      var n := |post|;
      assert (s + post)[|s + post| - 1] == post[n - 1];
      assert (s + post)[..|s + post| - 1] == s + post[..n - 1];
      PaddingEnd(s, post[..n - 1]);
    }
  }

  /** A blank string trims to nothing from the right. */
  lemma BlankTrimEnd(s: string)
    requires AllSpace(s)
    ensures TrimEnd(s) == []
  {
  }

  /** Trailing whitespace does not disturb the leading trim: once the right
      end is trimmed too, it makes no difference whether it was appended
      before or after trimming the left end. */
  lemma {:induction false} TrimStartAppend(s: string, post: string)
    requires AllSpace(post)
    ensures TrimEnd(TrimStart(s + post)) == TrimEnd(TrimStart(s) + post)
    decreases |s|
  {
    if s == [] {
      assert s + post == post;
      assert TrimStart(s) + post == post;
      BlankTrimEnd(post);
      BlankTrimEnd(TrimStart(post));
    } else if IsSpace(s[0]) {
      assert (s + post)[0] == s[0];
      assert (s + post)[1..] == s[1..] + post;
      TrimStartAppend(s[1..], post);
    } else {
      assert (s + post)[0] == s[0];
    }
  }
}
