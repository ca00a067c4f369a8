/** Python's `str.strip`, with and without a character argument, over
    strings as sequences of Unicode scalar values. */
module PyText {

  /** `str.isspace()`: the characters `str.strip()` with no argument removes
      (tab to carriage return, the four ASCII separators, space, and the
      Unicode whitespace characters). */
  predicate IsSpace(c: char) {
    || '\U{9}' <= c <= '\U{D}'
    || '\U{1C}' <= c <= '\U{20}'
    || c == '\U{85}' || c == '\U{A0}' || c == '\U{1680}'
    || '\U{2000}' <= c <= '\U{200A}'
    || c == '\U{2028}' || c == '\U{2029}' || c == '\U{202F}'
    || c == '\U{205F}' || c == '\U{3000}'
  }

  /** Every character of `s` satisfies `p`. */
  predicate All(s: string, p: char -> bool) {
    forall k :: 0 <= k < |s| ==> p(s[k])
  }

  /** `s.lstrip(chars)` where `p` tests membership in `chars`. */
  function LStrip(s: string, p: char -> bool): (r: string)
    ensures r == [] || !p(r[0])
  {
    if |s| > 0 && p(s[0]) then LStrip(s[1..], p) else s
  }

  /** `s.rstrip(chars)` where `p` tests membership in `chars`. */
  function RStrip(s: string, p: char -> bool): (r: string)
    ensures r == [] || !p(r[|r| - 1])
  {
    if |s| > 0 && p(s[|s| - 1]) then RStrip(s[..|s| - 1], p) else s
  }

  /** `s.strip(chars)`: the infix of `s` left after removing the longest
      prefix and the longest suffix made of characters satisfying `p`. */
  function Strip(s: string, p: char -> bool): (r: string)
    ensures r == [] || (!p(r[0]) && !p(r[|r| - 1]))
  {
    var l := LStrip(s, p);
    var r := RStrip(l, p);
    RStripRemovesSuffix(l, p);
    assert r != [] ==> r[0] == l[0];
    r
  }

  /** `s` is `t` with a prefix and a suffix of characters in `p` added. */
  ghost predicate PaddedBy(s: string, t: string, p: char -> bool) {
    exists i, j :: 0 <= i <= j <= |s| && t == s[i..j] && PadAt(s, i, j, p)
  }

  /** The characters of `s` before `i` and from `j` on satisfy `p`. */
  predicate PadAt(s: string, i: int, j: int, p: char -> bool)
    requires 0 <= i <= j <= |s|
  {
    && (forall k :: 0 <= k < i ==> p(s[k]))
    && (forall k :: j <= k < |s| ==> p(s[k]))
  }

  /** `LStrip` removes a prefix made of characters in `p`. */
  lemma {:induction false} LStripRemovesPrefix(s: string, p: char -> bool)
    ensures var r := LStrip(s, p);
      |r| <= |s| && r == s[|s| - |r|..] && forall k :: 0 <= k < |s| - |r| ==> p(s[k])
  {
    if |s| > 0 && p(s[0]) {
      var t := s[1..];
      LStripRemovesPrefix(t, p);
      var r := LStrip(t, p);
      assert r == s[|s| - |r|..];
      forall k | 0 <= k < |s| - |r|
        ensures p(s[k])
      {
        if k > 0 {
          assert s[k] == t[k - 1];
        }
      }
    }
  }

  /** `RStrip` removes a suffix made of characters in `p`. */
  lemma {:induction false} RStripRemovesSuffix(s: string, p: char -> bool)
    ensures var r := RStrip(s, p);
      |r| <= |s| && r == s[..|r|] && forall k :: |r| <= k < |s| ==> p(s[k])
  {
    if |s| > 0 && p(s[|s| - 1]) {
      var t := s[..|s| - 1];
      RStripRemovesSuffix(t, p);
      var r := RStrip(t, p);
      assert r == s[..|r|];
      forall k | |r| <= k < |s|
        ensures p(s[k])
      {
        if k < |s| - 1 {
          assert s[k] == t[k];
        }
      }
    }
  }

  /** What `Strip` removes is padding of characters in `p`. */
  lemma StripRemovesPadding(s: string, p: char -> bool)
    ensures PaddedBy(s, Strip(s, p), p)
  {
    var l := LStrip(s, p);
    var r := RStrip(l, p);
    assert Strip(s, p) == r;
    LStripRemovesPrefix(s, p);
    RStripRemovesSuffix(l, p);
    var i := |s| - |l|;
    var j := i + |r|;
    assert r == s[i..j];
    forall k | j <= k < |s|
      ensures p(s[k])
    {
      assert s[k] == l[k - i];
    }
    assert PadAt(s, i, j, p);
  }

  /** Removing characters in `p` from the front stops exactly where `x` begins. */
  lemma {:induction false} LStripSkips(a: string, x: string, p: char -> bool)
    requires All(a, p)
    requires x == [] || !p(x[0])
    ensures LStrip(a + x, p) == x
  {
    if |a| > 0 {
      assert (a + x)[1..] == a[1..] + x;
      LStripSkips(a[1..], x, p);
    }
  }

  /** Removing characters in `p` from the back stops exactly where `x` ends. */
  lemma {:induction false} RStripSkips(x: string, b: string, p: char -> bool)
    requires All(b, p)
    requires x != [] && !p(x[|x| - 1])
    ensures RStrip(x + b, p) == x
  {
    if |b| > 0 {
      assert (x + b)[..|x + b| - 1] == x + b[..|b| - 1];
      RStripSkips(x, b[..|b| - 1], p);
    } else {
      assert x + b == x;
    }
  }

  /** `Strip` is determined by its contract: whatever padding of characters in
      `p` surrounds a core that neither starts nor ends with one, stripping
      returns exactly that core. */
  lemma StripUnique(a: string, r: string, b: string, p: char -> bool)
    requires All(a, p) && All(b, p)
    requires r == [] || (!p(r[0]) && !p(r[|r| - 1]))
    ensures Strip(a + r + b, p) == r
  {
    if r == [] {
      assert a + r + b == a + b;
      assert All(a + b, p);
      assert a + b + [] == a + b;
      LStripSkips(a + b, [], p);
    } else {
      assert a + r + b == a + (r + b);
      LStripSkips(a, r + b, p);
      RStripSkips(r, b, p);
    }
  }

  /** Padding by characters in `p` is padding by any wider class `q`. */
  lemma PaddingWidens(s: string, t: string, p: char -> bool, q: char -> bool)
    requires PaddedBy(s, t, p)
    requires forall c :: p(c) ==> q(c)
    ensures PaddedBy(s, t, q)
  {
    var i, j :| 0 <= i <= j <= |s| && t == s[i..j] && PadAt(s, i, j, p);
    assert PadAt(s, i, j, q);
  }

  /** Padding a padded string again is padding. */
  lemma PaddingComposes(s: string, t: string, u: string, q: char -> bool)
    requires PaddedBy(s, t, q) && PaddedBy(t, u, q)
    ensures PaddedBy(s, u, q)
  {
    var i, j :| 0 <= i <= j <= |s| && t == s[i..j] && PadAt(s, i, j, q);
    var i', j' :| 0 <= i' <= j' <= |t| && u == t[i'..j'] && PadAt(t, i', j', q);
    PadAtComposes(s, i, j, i', j', q);
  }

  /** The padding positions of an infix, shifted into the whole string. */
  lemma PadAtComposes(s: string, i: int, j: int, i': int, j': int, q: char -> bool)
    requires 0 <= i <= j <= |s| && PadAt(s, i, j, q)
    requires 0 <= i' <= j' <= j - i && PadAt(s[i..j], i', j', q)
    ensures s[i..j][i'..j'] == s[i + i'..i + j']
    ensures PadAt(s, i + i', i + j', q)
  {
    var t := s[i..j];
    forall k | 0 <= k < j' - i'
      ensures t[i'..j'][k] == s[i + i' + k]
    {
      assert t[i' + k] == s[i + i' + k];
    }
    forall k | i <= k < i + i'
      ensures q(s[k])
    {
      assert t[k - i] == s[k];
    }
    forall k | i + j' <= k < j
      ensures q(s[k])
    {
      assert t[k - i] == s[k];
    }
  }

  /** A string that neither starts nor ends with a character in `p` is kept. */
  lemma StripKeeps(s: string, p: char -> bool)
    requires s == [] || (!p(s[0]) && !p(s[|s| - 1]))
    ensures Strip(s, p) == s
  {
    assert s == [] + s + [];
    StripUnique([], s, [], p);
  }

  /** Stripping twice with the same characters changes nothing more. */
  lemma StripIdempotent(s: string, p: char -> bool)
    ensures Strip(Strip(s, p), p) == Strip(s, p)
  {
    var r := Strip(s, p);
    assert [] + r + [] == r;
    StripUnique([], r, [], p);
  }
}
