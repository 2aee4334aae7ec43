/** The Python built-ins on `str` and `list` that the daemon relies on:
    `str.strip`, `str.lower` (ASCII part), and the slices `s[:n]` and `s[-n:]`. */
module PyText {

  /** `c.isspace()` in Python 3: the characters with bidirectional class
      WS, B or S, or general category Zs. */
  predicate IsSpace(c: char) {
    || ('\t' <= c <= '\r')
    || ('\U{1C}' <= c <= ' ')
    || c == '\U{85}' || c == '\U{A0}' || c == '\U{1680}'
    || ('\U{2000}' <= c <= '\U{200A}')
    || c == '\U{2028}' || c == '\U{2029}' || c == '\U{202F}' || c == '\U{205F}'
    || c == '\U{3000}'
  }

  /** Every character of `s` is whitespace (true of the empty string). */
  predicate AllSpace(s: string) {
    forall k :: 0 <= k < |s| ==> IsSpace(s[k])
  }

  /** `s.lstrip()`: the suffix of `s` left after dropping leading whitespace. */
  function LStrip(s: string): (r: string)
    ensures |r| <= |s| && r == s[|s| - |r|..]
    ensures AllSpace(s[..|s| - |r|])
    ensures r != [] ==> !IsSpace(r[0])
    decreases |s|
  {
    if s != [] && IsSpace(s[0]) then
      var r := LStrip(s[1..]);
      assert s[1..][|s| - 1 - |r|..] == s[|s| - |r|..];
      assert forall k :: 1 <= k < |s| - |r| ==> s[k] == s[1..][..|s| - 1 - |r|][k - 1];
      r
    else
      s
  }

  /** `s.rstrip()`: the prefix of `s` left after dropping trailing whitespace. */
  function RStrip(s: string): (r: string)
    ensures |r| <= |s| && r == s[..|r|]
    ensures AllSpace(s[|r|..])
    ensures r != [] ==> !IsSpace(r[|r| - 1])
    decreases |s|
  {
    if s != [] && IsSpace(s[|s| - 1]) then
      var r := RStrip(s[..|s| - 1]);
      assert s[..|s| - 1][..|r|] == s[..|r|];
      assert forall k :: |r| <= k < |s| - 1 ==> s[k] == s[..|s| - 1][|r|..][k - |r|];
      r
    else
      s
  }

  /** `s.strip()`: a slice of `s` with no whitespace at either end, which is
      empty exactly when `s` holds nothing but whitespace. */
  function Strip(s: string): (r: string)
    ensures |r| <= |s|
    ensures r != [] ==> !IsSpace(r[0]) && !IsSpace(r[|r| - 1])
    ensures r == [] <==> AllSpace(s)
  {
    var left := LStrip(s);
    var r := RStrip(left);
    assert r != [] ==> r[0] == left[0];
    assert r == [] ==> AllSpace(left) by {
      if r == [] { assert left[|r|..] == left; }
    }
    assert r == [] ==> AllSpace(s) by {
      if r == [] {
        forall k | 0 <= k < |s| ensures IsSpace(s[k]) {
          assert s[k] == s[..|s| - |left|][k];
        }
      }
    }
    r
  }

  /** What `Strip` drops is whitespace before and after the slice it keeps:
      `LStrip` says so of the part before, this of the part after. */
  lemma {:induction false} StripKeepsMiddle(s: string)
    ensures |s| - |LStrip(s)| + |Strip(s)| <= |s|
    ensures Strip(s) == s[|s| - |LStrip(s)|..|s| - |LStrip(s)| + |Strip(s)|]
    ensures AllSpace(s[|s| - |LStrip(s)| + |Strip(s)|..])
  {
    var left := LStrip(s);
    var r := RStrip(left);
    assert Strip(s) == r;
    SliceOfSuffix(s, left, r);
  }

  lemma {:induction false} SliceOfSuffix(s: string, left: string, r: string)
    requires |r| <= |left| <= |s|
    requires left == s[|s| - |left|..] && r == left[..|r|] && AllSpace(left[|r|..])
    ensures var i := |s| - |left|;
            r == s[i..i + |r|] && AllSpace(s[i + |r|..])
  {
    var i := |s| - |left|;
    forall k | i + |r| <= k < |s|
      ensures IsSpace(s[k])
    {
      assert s[k] == left[|r|..][k - i - |r|];
    }
  }

  /** Stripping a text that starts and ends with a non-space character leaves
      it as it is; in particular `Strip` is idempotent. */
  lemma StripOfTrimmed(s: string)
    requires s == [] || (!IsSpace(s[0]) && !IsSpace(s[|s| - 1]))
    ensures Strip(s) == s
  {
  }

  lemma StripIdempotent(s: string)
    ensures Strip(Strip(s)) == Strip(s)
  {
    StripOfTrimmed(Strip(s));
  }

  /** `c.lower()` for ASCII letters; every other character is kept. */
  function LowerChar(c: char): char {
    if 'A' <= c <= 'Z' then (c as int + 32) as char else c
  }

  /** `s.lower()`, lowering the ASCII letters of `s`. */
  function Lower(s: string): (r: string)
    ensures |r| == |s|
  {
    seq(|s|, i requires 0 <= i < |s| => LowerChar(s[i]))
  }

  /** The slice `s[:n]` for a non-negative `n`. */
  function Head<T>(s: seq<T>, n: nat): (r: seq<T>)
    ensures |r| == if |s| < n then |s| else n
    ensures r == s[..|r|]
  {
    if |s| <= n then s else s[..n]
  }

  /** The slice `s[-n:]` for a positive `n`: the last `n` elements, or all of `s`. */
  function Last<T>(s: seq<T>, n: nat): (r: seq<T>)
    requires n > 0
    ensures |r| == if |s| < n then |s| else n
    ensures r == s[|s| - |r|..]
  {
    if |s| <= n then s else s[|s| - n..]
  }

  /** Case-insensitive test against "none" holds only for four-letter words
      spelled n, o, n, e in upper or lower case. */
  lemma NoneSpellings(s: string)
    ensures Lower(s) == "none" <==>
              |s| == 4 && s[0] in {'n', 'N'} && s[1] in {'o', 'O'} && s[2] in {'n', 'N'} && s[3] in {'e', 'E'}
  {
    if Lower(s) == "none" {
      assert Lower(s)[0] == LowerChar(s[0]);
      assert Lower(s)[1] == LowerChar(s[1]);
      assert Lower(s)[2] == LowerChar(s[2]);
      assert Lower(s)[3] == LowerChar(s[3]);
    }
    if |s| == 4 {
      assert Lower(s) == [LowerChar(s[0]), LowerChar(s[1]), LowerChar(s[2]), LowerChar(s[3])];
    }
  }
}
