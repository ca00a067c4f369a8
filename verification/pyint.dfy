/** Python's `int(s)` on a string (base 10) and `str(n)` on an integer. */
module PyInt {
  import opened Py
  import opened PyText

  predicate IsDigit(c: char) {
    '0' <= c <= '9'
  }

  function DigitValue(c: char): nat
    requires IsDigit(c)
  {
    c as int - '0' as int
  }

  /** The whitespace `int()` skips around its argument. CPython hands ASCII
      text unchanged to a parser that skips only tab to carriage return and
      space, and maps every non-ASCII `str.isspace()` character to a space
      first: so the four ASCII separators U+001C to U+001F are not skipped. */
  predicate IsIntSpace(c: char) {
    IsSpace(c) && !('\U{1C}' <= c <= '\U{1F}')
  }

  /** The value of a run of decimal digits, most significant first. */
  function ValueOf(ds: string): nat
    requires All(ds, IsDigit)
  {
    if ds == [] then 0 else ValueOf(ds[..|ds| - 1]) * 10 + DigitValue(ds[|ds| - 1])
  }

  /** Digits in which single underscores may separate two digits
      (`1_000`), as `int()` accepts. */
  predicate IsGroupedDigits(s: string) {
    && |s| > 0 && IsDigit(s[0]) && IsDigit(s[|s| - 1])
    && (forall k :: 0 <= k < |s| ==> IsDigit(s[k]) || s[k] == '_')
    && (forall k :: 0 <= k < |s| - 1 ==> s[k] == '_' ==> s[k + 1] != '_')
  }

  /** The digits of `s` with the separating underscores dropped. */
  function Ungrouped(s: string): (ds: string)
    requires forall k :: 0 <= k < |s| ==> IsDigit(s[k]) || s[k] == '_'
    ensures All(ds, IsDigit) && |ds| <= |s|
    ensures All(s, IsDigit) ==> ds == s
  {
    if s == [] then []
    else if s[0] == '_' then Ungrouped(s[1..])
    else [s[0]] + Ungrouped(s[1..])
  }

  /** The characters a numeral is written with: digits, the underscores
      that group them, and a sign. */
  predicate IsNumeralChar(c: char) {
    IsDigit(c) || c == '_' || c == '+' || c == '-'
  }

  /** `int(s)` for a string `s`: surrounding whitespace, an optional sign,
      then grouped decimal digits; `None` where Python raises `ValueError`.
      A string holding any other character (a letter, a point, an exponent)
      is rejected. */
  function ParseInt(s: string): (r: Option<int>)
    ensures r.Some? ==> exists k :: 0 <= k < |s| && IsDigit(s[k])
    ensures r.Some? ==> forall k :: 0 <= k < |s| ==> IsNumeralChar(s[k]) || IsIntSpace(s[k])
    ensures |s| > 0 && All(s, IsDigit) ==> r == Some(ValueOf(s))
  {
    var t := Strip(s, IsIntSpace);
    StrippedInfix(s, t);
    DigitsUnstripped(s);
    ParseNumeral(t)
  }

  /** A signed numeral with the surrounding whitespace already removed: a
      sign may only lead it. */
  function ParseNumeral(t: string): (r: Option<int>)
    ensures r.Some? ==> exists k :: 0 <= k < |t| && IsDigit(t[k])
    ensures r.Some? ==> |t| > 0 && IsNumeralChar(t[0])
    ensures r.Some? ==> forall k :: 1 <= k < |t| ==> IsDigit(t[k]) || t[k] == '_'
    ensures r.Some? ==> t[0] != '_' && IsDigit(t[|t| - 1])
    ensures r.Some? && (t[0] == '+' || t[0] == '-') ==> |t| > 1 && IsDigit(t[1])
    ensures r.Some? ==> forall k :: 0 <= k < |t| - 1 ==> t[k] == '_' ==> IsDigit(t[k + 1])
    ensures |t| > 0 && All(t, IsDigit) ==> r == Some(ValueOf(t))
  {
    var signed := |t| > 0 && (t[0] == '+' || t[0] == '-');
    var body := if signed then t[1..] else t;
    if !IsGroupedDigits(body) then None
    else
      var n: int := ValueOf(Ungrouped(body));
      assert signed ==> IsDigit(t[1]);
      assert !signed ==> IsDigit(t[0]);
      Some(if signed && t[0] == '-' then -n else n)
  }

  /** The shape `int()` accepts, located in `s`: whitespace before `i`, an
      optional sign from `i` to `j`, grouped digits from `j` to `k`, and
      whitespace from `k` on. */
  predicate NumeralAt(s: string, i: int, j: int, k: int) {
    && 0 <= i <= j <= k <= |s|
    && All(s[..i], IsIntSpace) && All(s[k..], IsIntSpace)
    && (j == i || (j == i + 1 && (s[i] == '+' || s[i] == '-')))
    && IsGroupedDigits(s[j..k])
  }

  /** The number a numeral located by `NumeralAt` denotes. */
  function SignedValue(s: string, i: int, j: int, k: int): int
    requires NumeralAt(s, i, j, k)
  {
    Signed(j > i && s[i] == '-', s[j..k])
  }

  /** Grouped digits read as a number, negated after a minus sign. */
  function Signed(negative: bool, g: string): int
    requires IsGroupedDigits(g)
  {
    var n: int := ValueOf(Ungrouped(g));
    if negative then -n else n
  }

  /** A stripped numeral split at `j`: a sign or nothing before it, grouped
      digits after it. */
  predicate SplitNumeral(t: string, j: int) {
    && 0 <= j <= |t|
    && (j == 0 || (j == 1 && (t[0] == '+' || t[0] == '-')))
    && IsGroupedDigits(t[j..])
  }

  /** `int(s)` succeeds exactly on whitespace, an optional sign, grouped
      digits and whitespace, in that order, and gives the number they
      denote: `int("+7") == 7`, `int("007") == 7`, `int("1_000") == 1000`,
      while `"_1"`, `"1__0"`, `"1_"`, `"5-"` and `"1 2"` raise. */
  lemma ParseIntExactly(s: string)
    ensures ParseInt(s).Some? <==> exists i, j, k :: NumeralAt(s, i, j, k)
    ensures forall i, j, k :: NumeralAt(s, i, j, k) ==> ParseInt(s) == Some(SignedValue(s, i, j, k))
  {
    forall i, j, k | NumeralAt(s, i, j, k)
      ensures ParseInt(s) == Some(SignedValue(s, i, j, k))
    {
      NumeralParses(s, i, j, k);
    }
    if ParseInt(s).Some? {
      ParsedIsNumeral(s);
    }
  }

  /** A located numeral parses to the number it denotes. */
  lemma NumeralParses(s: string, i: int, j: int, k: int)
    requires NumeralAt(s, i, j, k)
    ensures ParseInt(s) == Some(SignedValue(s, i, j, k))
  {
    var t := s[i..k];
    assert s == s[..i] + t + s[k..];
    assert t[j - i..] == s[j..k];
    assert i < j ==> t[0] == s[i];
    SplitParses(t, j - i);
    StripUnique(s[..i], t, s[k..], IsIntSpace);
  }

  /** A split numeral neither starts nor ends with whitespace and parses to
      its signed value. */
  lemma SplitParses(t: string, j: int)
    requires SplitNumeral(t, j)
    ensures !IsIntSpace(t[0]) && !IsIntSpace(t[|t| - 1])
    ensures ParseNumeral(t) == Some(Signed(j == 1 && t[0] == '-', t[j..]))
  {
    assert t[j..][0] == t[j];
    assert t[j..][|t| - j - 1] == t[|t| - 1];
    if j == 0 {
      assert t[j..] == t;
    }
  }

  /** Whatever `int()` accepts is a located numeral. */
  lemma ParsedIsNumeral(s: string)
    requires ParseInt(s).Some?
    ensures exists i, j, k :: NumeralAt(s, i, j, k)
  {
    var t := Strip(s, IsIntSpace);
    StripRemovesPadding(s, IsIntSpace);
    var i, k :| 0 <= i <= k <= |s| && t == s[i..k] && PadAt(s, i, k, IsIntSpace);
    assert ParseNumeral(t).Some?;
    var j := ParsedSplits(t);
    Located(s, i, j, k);
  }

  /** A split numeral padded with whitespace is a located numeral. */
  lemma Located(s: string, i: int, j: int, k: int)
    requires 0 <= i <= k <= |s| && PadAt(s, i, k, IsIntSpace)
    requires SplitNumeral(s[i..k], j)
    ensures NumeralAt(s, i, i + j, k)
  {
    var t := s[i..k];
    assert s[i + j..k] == t[j..];
    assert j == 1 ==> s[i] == t[0];
    PaddingAll(s, i, k);
  }

  /** The padding around `s[i..k]`, as whole strings of whitespace. */
  lemma PaddingAll(s: string, i: int, k: int)
    requires 0 <= i <= k <= |s| && PadAt(s, i, k, IsIntSpace)
    ensures All(s[..i], IsIntSpace) && All(s[k..], IsIntSpace)
  {
    assert forall m :: 0 <= m < i ==> s[..i][m] == s[m];
    assert forall m :: 0 <= m < |s| - k ==> s[k..][m] == s[k + m];
  }

  /** A numeral `ParseNumeral` accepts splits into a sign and grouped digits. */
  lemma ParsedSplits(t: string) returns (j: int)
    requires ParseNumeral(t).Some?
    ensures SplitNumeral(t, j)
  {
    j := if t[0] == '+' || t[0] == '-' then 1 else 0;
    if j == 0 {
      assert t[j..] == t;
    }
  }

  /** Anything found in the stripped text is found in the text, and a
      character of the text is either whitespace or found in the stripped
      text. */
  lemma StrippedInfix(s: string, t: string)
    requires t == Strip(s, IsIntSpace)
    ensures (exists k :: 0 <= k < |t| && IsDigit(t[k])) ==> exists k :: 0 <= k < |s| && IsDigit(s[k])
    ensures (forall k :: 0 <= k < |t| ==> IsNumeralChar(t[k])) ==>
              forall k :: 0 <= k < |s| ==> IsNumeralChar(s[k]) || IsIntSpace(s[k])
  {
    StripRemovesPadding(s, IsIntSpace);
    var i, j :| 0 <= i <= j <= |s| && t == s[i..j] && PadAt(s, i, j, IsIntSpace);
    if k :| 0 <= k < |t| && IsDigit(t[k]) {
      assert IsDigit(s[i + k]);
    }
    if forall k :: 0 <= k < |t| ==> IsNumeralChar(t[k]) {
      forall k | 0 <= k < |s|
        ensures IsNumeralChar(s[k]) || IsIntSpace(s[k])
      {
        if i <= k < j {
          assert s[k] == t[k - i];
        }
      }
    }
  }

  /** A plain run of digits has no whitespace to strip. */
  lemma DigitsUnstripped(s: string)
    ensures |s| > 0 && All(s, IsDigit) ==> Strip(s, IsIntSpace) == s
  {
    if |s| > 0 && All(s, IsDigit) {
      assert [] + s + [] == s;
      StripUnique([], s, [], IsIntSpace);
    }
  }

  /** The digit character for a value below ten. */
  function DigitChar(d: nat): (c: char)
    requires d < 10
    ensures IsDigit(c) && DigitValue(c) == d
  {
    ('0' as int + d) as char
  }

  /** `str(n)` for a non-negative `n`: decimal digits without leading zeros. */
  function Decimal(n: nat): (s: string)
    ensures |s| > 0 && All(s, IsDigit)
    ensures |s| > 1 ==> s[0] != '0'
    decreases n
  {
    if n < 10 then [DigitChar(n)] else Decimal(n / 10) + [DigitChar(n % 10)]
  }

  /** `str(n)` for any integer `n`. */
  function Str(n: int): (s: string)
    ensures |s| > 0
  {
    if n < 0 then "-" + Decimal(-n) else Decimal(n)
  }

  /** Decimal digits read back give the number they were written from. */
  lemma {:induction false} ValueOfDecimal(n: nat)
    ensures ValueOf(Decimal(n)) == n
    decreases n
  {
    if n >= 10 {
      var s := Decimal(n);
      assert s[..|s| - 1] == Decimal(n / 10);
      ValueOfDecimal(n / 10);
    }
  }

  /** `int(str(n)) == n` for every integer `n`. */
  lemma ParseStr(n: int)
    ensures ParseInt(Str(n)) == Some(n)
  {
    var s := Str(n);
    assert !IsIntSpace(s[0]) && !IsIntSpace(s[|s| - 1]);
    assert [] + s + [] == s;
    StripUnique([], s, [], IsIntSpace);
    NumeralStr(n);
  }

  /** The numeral `str(n)` reads back as `n`. */
  lemma NumeralStr(n: int)
    ensures ParseNumeral(Str(n)) == Some(n)
  {
    if n < 0 {
      NumeralNegative(-n);
    } else {
      NumeralDecimal(n);
    }
  }

  /** Plain digits are grouped digits with nothing to drop. */
  lemma PlainDigitsGrouped(d: string)
    requires |d| > 0 && All(d, IsDigit)
    ensures IsGroupedDigits(d) && Ungrouped(d) == d
  {
  }

  /** The digits of `str(m)`, without and with a minus sign. */
  lemma NumeralDecimal(m: nat)
    ensures ParseNumeral(Decimal(m)) == Some(m)
  {
    var d := Decimal(m);
    ValueOfDecimal(m);
    PlainDigitsGrouped(d);
    assert d[0..] == d;
    SplitParses(d, 0);
  }

  lemma NumeralNegative(m: nat)
    requires m > 0
    ensures ParseNumeral("-" + Decimal(m)) == Some(0 - m)
  {
    var d := Decimal(m);
    ValueOfDecimal(m);
    var t := "-" + d;
    assert t[1..] == d;
    NegatedDigits(t, d, m);
  }

  /** A minus sign before plain digits negates their value. */
  lemma NegatedDigits(t: string, d: string, v: nat)
    requires |d| > 0 && All(d, IsDigit) && ValueOf(d) == v
    requires |t| == |d| + 1 && t[0] == '-' && t[1..] == d
    ensures ParseNumeral(t) == Some(0 - v)
  {
    PlainDigitsGrouped(d);
    SplitParses(t, 1);
  }

  /** Whitespace around a numeral is ignored: `int(" 42\n") == 42`. */
  lemma ParsePadded(a: string, n: int, b: string)
    requires All(a, IsIntSpace) && All(b, IsIntSpace)
    ensures ParseInt(a + Str(n) + b) == Some(n)
  {
    var s := Str(n);
    assert !IsIntSpace(s[0]) && !IsIntSpace(s[|s| - 1]);
    StripUnique(a, s, b, IsIntSpace);
    StripUnique([], s, [], IsIntSpace);
    assert [] + s + [] == s;
    ParseStr(n);
  }
}
