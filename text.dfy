/** Python's `str.strip()` with no argument, as `format_prompt` applies it
    to every message of the conversation. */
module Text {

  /** Python's `str.isspace` characters: the ones `strip()` removes when it
      is given no argument. */
  const Whitespace: string :=
    "\t\n\U{B}\U{C}\r\U{1C}\U{1D}\U{1E}\U{1F} \U{85}\U{A0}\U{1680}"
    + "\U{2000}\U{2001}\U{2002}\U{2003}\U{2004}\U{2005}\U{2006}\U{2007}\U{2008}\U{2009}\U{200A}"
    + "\U{2028}\U{2029}\U{202F}\U{205F}\U{3000}"

  /** `c` occurs in `chars`. */
  predicate Listed(c: char, chars: string)
    decreases |chars|
  {
    chars != [] && (chars[0] == c || Listed(c, chars[1..]))
  }

  lemma {:induction false} ListedIsIn(c: char, chars: string)
    ensures Listed(c, chars) <==> c in chars
    decreases |chars|
  {
    if chars != [] {
      ListedIsIn(c, chars[1..]);
      assert chars == [chars[0]] + chars[1..];
    }
  }

  /** `c` is whitespace for Python: the ASCII tab, line feed, vertical tab,
      form feed, carriage return, the four information separators and the
      space, then the Unicode separators Python also counts. */
  predicate IsSpace(c: char): (b: bool)
    ensures b <==> ('\t' <= c <= '\r' || '\U{1C}' <= c <= ' ' || c == '\U{85}' || c == '\U{A0}'
                    || c == '\U{1680}' || '\U{2000}' <= c <= '\U{200A}' || c == '\U{2028}'
                    || c == '\U{2029}' || c == '\U{202F}' || c == '\U{205F}' || c == '\U{3000}')
  {
    ListedIsIn(c, Whitespace);
    Listed(c, Whitespace)
  }

  predicate AllSpace(s: string) {
    forall i :: 0 <= i < |s| ==> IsSpace(s[i])
  }

  /** Neither end of `s` is whitespace. */
  predicate Trimmed(s: string) {
    s == [] || (!IsSpace(s[0]) && !IsSpace(s[|s| - 1]))
  }

  /** The first index at or after `i` that does not hold whitespace, or `|s|`:
      the left scan of `strip`. */
  function SkipLeading(s: string, i: nat): (k: nat)
    requires i <= |s|
    ensures i <= k <= |s|
    ensures forall n :: i <= n < k ==> IsSpace(s[n])
    ensures k == |s| || !IsSpace(s[k])
    decreases |s| - i
  {
    if i < |s| && IsSpace(s[i]) then SkipLeading(s, i + 1) else i
  }

  /** The least `k` with `lo <= k <= j` such that `s[k..j]` is all whitespace:
      the right scan of `strip`, which never moves left of `lo`. */
  function SkipTrailing(s: string, lo: nat, j: nat): (k: nat)
    requires lo <= j <= |s|
    ensures lo <= k <= j
    ensures forall n :: k <= n < j ==> IsSpace(s[n])
    ensures k == lo || !IsSpace(s[k - 1])
    decreases j
  {
    if j > lo && IsSpace(s[j - 1]) then SkipTrailing(s, lo, j - 1) else j
  }

  /** `s.strip()`: what is left of `s` once the whitespace run at each end
      is cut off. */
  function Strip(s: string): (r: string)
    ensures Trimmed(r)
    ensures |r| <= |s|
  {
    var i := SkipLeading(s, 0);
    s[i..SkipTrailing(s, i, |s|)]
  }

  /** `s` is its strip with a whitespace run on each side; `i` is the length
      of the leading run. */
  lemma StripSplits(s: string) returns (i: nat)
    ensures i + |Strip(s)| <= |s|
    ensures s == s[..i] + Strip(s) + s[i + |Strip(s)|..]
    ensures AllSpace(s[..i]) && AllSpace(s[i + |Strip(s)|..])
  {
    i := SkipLeading(s, 0);
    var j := SkipTrailing(s, i, |s|);
    assert Strip(s) == s[i..j];
    assert s == s[..i] + s[i..j] + s[j..];
  }

  lemma {:induction false} SkipLeadingPadded(s: string, i: nat, n: nat)
    requires i <= n <= |s|
    requires forall k :: i <= k < n ==> IsSpace(s[k])
    requires n == |s| || !IsSpace(s[n])
    ensures SkipLeading(s, i) == n
    decreases n - i
  {
    if i < n {
      SkipLeadingPadded(s, i + 1, n);
    }
  }

  lemma {:induction false} SkipTrailingPadded(s: string, lo: nat, j: nat, n: nat)
    requires lo <= n <= j <= |s|
    requires forall k :: n <= k < j ==> IsSpace(s[k])
    requires n == lo || !IsSpace(s[n - 1])
    ensures SkipTrailing(s, lo, j) == n
    decreases j
  {
    if n < j {
      SkipTrailingPadded(s, lo, j - 1, n);
    }
  }

  /** Stripping a trimmed text wrapped in whitespace gives back exactly that
      text: `strip` removes the padding and never touches the inside. */
  lemma StripPadded(a: string, t: string, b: string)
    requires AllSpace(a) && AllSpace(b) && Trimmed(t)
    ensures Strip(a + t + b) == t
  {
    var s := a + t + b;
    if t == [] {
      SkipLeadingPadded(s, 0, |s|);
      SkipTrailingPadded(s, |s|, |s|, |s|);
    } else {
      SkipLeadingPadded(s, 0, |a|);
      SkipTrailingPadded(s, |a|, |s|, |a| + |t|);
      assert s[|a|..|a| + |t|] == t;
    }
  }

  /** `strip` is idempotent. */
  lemma StripIdempotent(s: string)
    ensures Strip(Strip(s)) == Strip(s)
  {
    StripPadded([], Strip(s), []);
    assert [] + Strip(s) + [] == Strip(s);
  }

  /** Extra whitespace at either end of a text does not change its strip. */
  lemma StripIgnoresPadding(a: string, s: string, b: string)
    requires AllSpace(a) && AllSpace(b)
    ensures Strip(a + s + b) == Strip(s)
  {
    var r := Strip(s);
    var i := StripSplits(s);
    var j := i + |r|;
    var a', b' := a + s[..i], s[j..] + b;
    AllSpaceConcat(a, s[..i]);
    AllSpaceConcat(s[j..], b);
    calc {
      a + s + b;
      a + (s[..i] + r + s[j..]) + b;
      a' + r + b';
    }
    StripPadded(a', r, b');
  }

  lemma AllSpaceConcat(x: string, y: string)
    requires AllSpace(x) && AllSpace(y)
    ensures AllSpace(x + y)
  {
    forall k | 0 <= k < |x + y|
      ensures IsSpace((x + y)[k])
    {
      if k >= |x| {
        assert (x + y)[k] == y[k - |x|];
      }
    }
  }

  /** A text with no whitespace at either end is its own strip. */
  lemma StripTrimmed(t: string)
    requires Trimmed(t)
    ensures Strip(t) == t
  {
    StripPadded([], t, []);
    assert [] + t + [] == t;
  }
}
