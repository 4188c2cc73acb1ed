/**
 * The JavaScript string operations the application relies on, over `string` (a sequence of
 * Unicode scalar values): `trim`, `length` in UTF-16 code units, `toLowerCase` on the ASCII
 * letters, `includes`, decimal rendering of numbers, `parseInt` on a run of digits,
 * `padStart(2, '0')`, `join` and `split` on a set of delimiters.
 */
module Text {

  /** JavaScript's WhiteSpace and LineTerminator code points, the set `trim` and `\s` use. */
  predicate IsSpace(c: char) {
    || c == ' ' || c == '\t' || c == '\n' || c == '\r'
    || c == '\U{000B}' || c == '\U{000C}' || c == '\U{00A0}' || c == '\U{1680}'
    || ('\U{2000}' <= c <= '\U{200A}')
    || c == '\U{2028}' || c == '\U{2029}' || c == '\U{202F}' || c == '\U{205F}'
    || c == '\U{3000}' || c == '\U{FEFF}'
  }

  /** Drops the leading white space. */
  function TrimStart(s: string): (r: string)
    ensures |r| <= |s| && r == s[|s| - |r|..]
    ensures |r| == 0 || !IsSpace(r[0])
    ensures forall i :: 0 <= i < |s| - |r| ==> IsSpace(s[i])
    decreases |s|
  {
    if |s| > 0 && IsSpace(s[0]) then TrimStart(s[1..]) else s
  }

  /** Drops the trailing white space. */
  function TrimEnd(s: string): (r: string)
    ensures |r| <= |s| && r == s[..|r|]
    ensures |r| == 0 || !IsSpace(r[|r| - 1])
    ensures forall i :: |r| <= i < |s| ==> IsSpace(s[i])
    decreases |s|
  {
    if |s| > 0 && IsSpace(s[|s| - 1]) then TrimEnd(s[..|s| - 1]) else s
  }

  /** `s.trim()`. */
  function Trim(s: string): string {
    TrimEnd(TrimStart(s))
  }

  /** A string whose `trim()` is empty, i.e. one JavaScript treats as falsy after trimming. */
  predicate IsBlank(s: string) {
    Trim(s) == []
  }

  /** A trimmed string neither starts nor ends with white space and is a slice of its input. */
  lemma TrimShape(s: string)
    ensures var r := Trim(s);
      && (|r| == 0 || (!IsSpace(r[0]) && !IsSpace(r[|r| - 1])))
      && Includes(s, r)
  {
    var t := TrimStart(s);
    var r := TrimEnd(t);
    var a := |s| - |t|;
    assert r == t[..|r|];
    assert s[a..a + |r|] == t[..|r|];
    assert SliceAt(s, r, a);
    if |r| > 0 {
      assert r[0] == t[0];
    }
  }

  /** Trimming is blank exactly when every character is white space. */
  lemma BlankIffAllSpace(s: string)
    ensures IsBlank(s) <==> forall i :: 0 <= i < |s| ==> IsSpace(s[i])
  {
    var t := TrimStart(s);
    if forall i :: 0 <= i < |s| ==> IsSpace(s[i]) {
      if |t| > 0 {
        assert t[0] == s[|s| - |t|];
      }
    } else {
      var k :| 0 <= k < |s| && !IsSpace(s[k]);
      assert |s| - |t| <= k;
      assert t[k - (|s| - |t|)] == s[k];
      assert |TrimEnd(t)| > k - (|s| - |t|);
    }
  }

  /** Trimming twice is trimming once. */
  lemma TrimIdempotent(s: string)
    ensures Trim(Trim(s)) == Trim(s)
  {
    var r := Trim(s);
    TrimShape(s);
    assert TrimStart(r) == r;
    assert TrimEnd(r) == r;
  }

  // ---------------------------------------------------------------------------------------
  // Length

  /** The UTF-16 code units that encode `c`: two for a character beyond U+FFFF. */
  function CodeUnits(c: char): (n: nat)
    ensures n == 1 || n == 2
    ensures n == 2 <==> c as int > 0xFFFF
  {
    if c as int > 0xFFFF then 2 else 1
  }

  /** `s.length`: JavaScript counts UTF-16 code units, not characters. */
  function JsLength(s: string): (n: nat)
    ensures |s| <= n <= 2 * |s|
    decreases |s|
  {
    if |s| == 0 then 0 else JsLength(s[..|s| - 1]) + CodeUnits(s[|s| - 1])
  }

  /** The length of a concatenation is the sum of the lengths. */
  lemma {:induction false} JsLengthAppend(a: string, b: string)
    ensures JsLength(a + b) == JsLength(a) + JsLength(b)
    decreases |b|
  {
    if |b| == 0 {
      assert a + b == a;
    } else {
      assert (a + b)[..|a + b| - 1] == a + b[..|b| - 1];
      JsLengthAppend(a, b[..|b| - 1]);
    }
  }

  /**
   * The length counts characters exactly when every character lies in the Basic
   * Multilingual Plane, and counts two per character when none does.
   */
  lemma {:induction false} JsLengthPlanes(s: string)
    ensures JsLength(s) == |s| <==> forall i :: 0 <= i < |s| ==> CodeUnits(s[i]) == 1
    ensures (forall i :: 0 <= i < |s| ==> CodeUnits(s[i]) == 2) ==> JsLength(s) == 2 * |s|
    decreases |s|
  {
    if |s| > 0 {
      var init := s[..|s| - 1];
      JsLengthPlanes(init);
      assert forall i :: 0 <= i < |init| ==> init[i] == s[i];
    }
  }

  // ---------------------------------------------------------------------------------------
  // Case

  function LowerChar(c: char): char {
    if 'A' <= c <= 'Z' then (c as int + 32) as char else c
  }

  /** `s.toLowerCase()` on the ASCII letters; every other character is kept. */
  function Lower(s: string): (r: string)
    ensures |r| == |s|
    ensures forall i :: 0 <= i < |s| ==> r[i] == LowerChar(s[i])
  {
    seq(|s|, i requires 0 <= i < |s| => LowerChar(s[i]))
  }

  lemma LowerAppend(a: string, b: string)
    ensures Lower(a + b) == Lower(a) + Lower(b)
  {
  }

  // ---------------------------------------------------------------------------------------
  // Substring search

  /** `needle` is the slice of `hay` that starts at `k`. */
  predicate SliceAt(hay: string, needle: string, k: int) {
    0 <= k && k + |needle| <= |hay| && hay[k..k + |needle|] == needle
  }

  /** `hay.includes(needle)`: some slice of `hay` equals `needle`. */
  predicate Includes(hay: string, needle: string) {
    exists k :: 0 <= k <= |hay| && SliceAt(hay, needle, k)
  }

  /** `needle` occurs in `hay` starting at position `i`, compared from offset `j` on. */
  predicate MatchFrom(hay: string, needle: string, i: nat, j: nat)
    decreases |needle| - j
  {
    j >= |needle| || (i + j < |hay| && hay[i + j] == needle[j] && MatchFrom(hay, needle, i, j + 1))
  }

  /** The left-to-right search the JavaScript builtin performs, from position `i` on. */
  predicate OccursFrom(hay: string, needle: string, i: nat)
    decreases |hay| - i
  {
    i + |needle| <= |hay| && (MatchFrom(hay, needle, i, 0) || OccursFrom(hay, needle, i + 1))
  }

  lemma {:induction false} MatchFromSlice(hay: string, needle: string, i: nat, j: nat)
    requires i + |needle| <= |hay| && j <= |needle|
    ensures MatchFrom(hay, needle, i, j) <==> hay[i + j..i + |needle|] == needle[j..]
    decreases |needle| - j
  {
    if j < |needle| {
      MatchFromSlice(hay, needle, i, j + 1);
      assert hay[i + j..i + |needle|] == [hay[i + j]] + hay[i + j + 1..i + |needle|];
      assert needle[j..] == [needle[j]] + needle[j + 1..];
    }
  }

  lemma {:induction false} OccursFromAt(hay: string, needle: string, i: nat)
    ensures OccursFrom(hay, needle, i) <==>
      exists k :: i <= k && SliceAt(hay, needle, k)
    decreases |hay| - i
  {
    if i + |needle| <= |hay| {
      MatchFromSlice(hay, needle, i, 0);
      OccursFromAt(hay, needle, i + 1);
      if MatchFrom(hay, needle, i, 0) {
        assert SliceAt(hay, needle, i);
      }
      if exists k :: i <= k && SliceAt(hay, needle, k) {
        var k :| i <= k && SliceAt(hay, needle, k);
        if k > i {
          assert i + 1 <= k;
        }
      }
    }
  }

  /** The search finds `needle` exactly when it is a substring of `hay`. */
  lemma IncludesIffScan(hay: string, needle: string)
    ensures Includes(hay, needle) <==> OccursFrom(hay, needle, 0)
  {
    OccursFromAt(hay, needle, 0);
  }

  /**
   * A needle holding a character `hay` lacks is not a substring of `hay`: the cheap way to
   * rule an occurrence out.
   */
  lemma MissingChar(hay: string, needle: string, j: nat)
    requires j < |needle| && needle[j] !in hay
    ensures !Includes(hay, needle)
  {
  }

  /** `m` is `head`, then `middle`, then `tail`, each recoverable by slicing. */
  predicate Framed(m: string, head: string, middle: string, tail: string) {
    && |m| == |head| + |middle| + |tail|
    && m[..|head|] == head && m[|m| - |tail|..] == tail && m[|head|..|m| - |tail|] == middle
  }

  /** A string made of three parts gives each part back by slicing. */
  lemma ThreeParts(a: string, b: string, c: string)
    ensures Framed(a + b + c, a, b, c)
  {
  }

  /** A substring found in part of a string is found in the whole. */
  lemma IncludesWithin(a: string, b: string, c: string, needle: string)
    requires Includes(b, needle)
    ensures Includes(a + b + c, needle)
  {
    var k :| 0 <= k <= |b| && SliceAt(b, needle, k);
    forall j | 0 <= j < |needle| ensures (a + b + c)[|a| + k + j] == needle[j] {
      assert b[k..k + |needle|][j] == needle[j];
    }
    assert SliceAt(a + b + c, needle, |a| + k);
  }

  /** A substring of `a` is a substring of `a + b`. */
  lemma IncludesPrefix(a: string, b: string, needle: string)
    requires Includes(a, needle)
    ensures Includes(a + b, needle)
  {
    var k :| 0 <= k <= |a| && SliceAt(a, needle, k);
    assert (a + b)[k..k + |needle|] == a[k..k + |needle|];
    assert SliceAt(a + b, needle, k);
  }

  /** A substring of `b` is a substring of `a + b`. */
  lemma IncludesSuffix(a: string, b: string, needle: string)
    requires Includes(b, needle)
    ensures Includes(a + b, needle)
  {
    var k :| 0 <= k <= |b| && SliceAt(b, needle, k);
    assert (a + b)[|a| + k..|a| + k + |needle|] == b[k..k + |needle|];
    assert SliceAt(a + b, needle, |a| + k);
  }

  /** Substring occurrence is transitive: if `inner` is part of `needle`, it is part of `hay`. */
  lemma IncludesTransitive(hay: string, needle: string, inner: string)
    requires Includes(needle, inner) && Includes(hay, needle)
    ensures Includes(hay, inner)
  {
    var k :| 0 <= k <= |hay| && SliceAt(hay, needle, k);
    var m :| 0 <= m <= |needle| && SliceAt(needle, inner, m);
    forall j | 0 <= j < |inner|
      ensures hay[k + m + j] == inner[j]
    {
      assert hay[k..k + |needle|][m + j] == needle[m + j];
      assert needle[m..m + |inner|][j] == inner[j];
    }
    assert hay[k + m..k + m + |inner|] == inner;
    assert SliceAt(hay, inner, k + m);
  }

  /**
   * An occurrence cannot run across a character the needle does not contain: when `a` ends
   * with such a character, an occurrence in `a + b` lies wholly in `a` or wholly in `b`.
   */
  lemma IncludesAcrossSeparator(a: string, b: string, needle: string)
    requires |a| > 0 && a[|a| - 1] !in needle
    requires !Includes(a, needle) && !Includes(b, needle)
    ensures !Includes(a + b, needle)
  {
    forall k | 0 <= k && k + |needle| <= |a + b|
      ensures !SliceAt(a + b, needle, k)
    {
      if k + |needle| <= |a| {
        assert a[k..k + |needle|] == (a + b)[k..k + |needle|];
        assert !SliceAt(a, needle, k);
      } else if k >= |a| {
        assert b[k - |a|..k - |a| + |needle|] == (a + b)[k..k + |needle|];
        assert !SliceAt(b, needle, k - |a|);
      } else {
        assert (a + b)[|a| - 1] == a[|a| - 1];
        assert (a + b)[k..k + |needle|][|a| - 1 - k] == a[|a| - 1];
      }
    }
  }

  // ---------------------------------------------------------------------------------------
  // Numbers

  predicate IsDigit(c: char) {
    '0' <= c <= '9'
  }

  function DigitChar(d: nat): (c: char)
    requires d < 10
    ensures IsDigit(c)
  {
    ('0' as int + d) as char
  }

  function DigitValue(c: char): (d: nat)
    requires IsDigit(c)
    ensures d < 10 && DigitChar(d) == c
  {
    c as int - '0' as int
  }

  predicate AllDigits(s: string) {
    forall i :: 0 <= i < |s| ==> IsDigit(s[i])
  }

  /** `n.toString()` for a non-negative integer: its decimal digits, most significant first. */
  function NatToString(n: nat): (r: string)
    ensures |r| > 0 && AllDigits(r)
    ensures |r| > 1 ==> r[0] != '0'
    ensures n < 10 <==> |r| == 1
    decreases n
  {
    if n < 10 then [DigitChar(n)] else NatToString(n / 10) + [DigitChar(n % 10)]
  }

  /** `String(i)` for any integer: a minus sign before the digits of a negative number. */
  function IntToString(i: int): string {
    if i < 0 then "-" + NatToString(-i) else NatToString(i)
  }

  /** `parseInt` of a run of decimal digits. */
  function DigitsValue(s: string): nat
    requires AllDigits(s)
    decreases |s|
  {
    if |s| == 0 then 0 else DigitsValue(s[..|s| - 1]) * 10 + DigitValue(s[|s| - 1])
  }

  /** Rendering a number in decimal and parsing it back yields the number. */
  lemma {:induction false} DigitsRoundTrip(n: nat)
    ensures DigitsValue(NatToString(n)) == n
    decreases n
  {
    if n >= 10 {
      var s := NatToString(n);
      assert s[..|s| - 1] == NatToString(n / 10);
      DigitsRoundTrip(n / 10);
    }
  }

  /** Decimal rendering is injective: distinct numbers have distinct renderings. */
  lemma NatToStringInjective(m: nat, n: nat)
    requires NatToString(m) == NatToString(n)
    ensures m == n
  {
    DigitsRoundTrip(m);
    DigitsRoundTrip(n);
  }

  /** `s.padStart(2, '0')`. */
  function PadStart2(s: string): (r: string)
    ensures |s| >= 2 ==> r == s
    ensures |s| < 2 ==> |r| == 2 && r[2 - |s|..] == s && forall i :: 0 <= i < 2 - |s| ==> r[i] == '0'
  {
    if |s| >= 2 then s else if |s| == 1 then "0" + s else "00"
  }

  // ---------------------------------------------------------------------------------------
  // Lists of strings

  /** `xs.join(sep)`. */
  function Join(xs: seq<string>, sep: string): string
    decreases |xs|
  {
    if |xs| == 0 then "" else if |xs| == 1 then xs[0] else xs[0] + sep + Join(xs[1..], sep)
  }

  /** Every item of a list is a substring of the list joined. */
  lemma {:induction false} JoinIncludes(xs: seq<string>, sep: string, i: nat)
    requires i < |xs|
    ensures Includes(Join(xs, sep), xs[i])
    decreases |xs|
  {
    if |xs| == 1 || i == 0 {
      assert SliceAt(xs[i], xs[i], 0);
      if |xs| > 1 {
        IncludesPrefix(xs[0], sep + Join(xs[1..], sep), xs[0]);
        assert xs[0] + (sep + Join(xs[1..], sep)) == Join(xs, sep);
      }
    } else {
      JoinIncludes(xs[1..], sep, i - 1);
      IncludesSuffix(xs[0] + sep, Join(xs[1..], sep), xs[i]);
    }
  }

  /** `s.split(re)` where `re` is a character class: the pieces between delimiter characters. */
  function Split(s: string, delims: set<char>): (pieces: seq<string>)
    ensures |pieces| > 0
    ensures forall p, i :: p in pieces && 0 <= i < |p| ==> p[i] !in delims
    decreases |s|
  {
    if |s| == 0 then [""]
    else
      var rest := Split(s[1..], delims);
      if s[0] in delims then [""] + rest else [[s[0]] + rest[0]] + rest[1..]
  }

  function CountIn(s: string, delims: set<char>): nat
    decreases |s|
  {
    if |s| == 0 then 0 else (if s[0] in delims then 1 else 0) + CountIn(s[1..], delims)
  }

  /** Splitting yields one more piece than there are delimiters. */
  lemma {:induction false} SplitCounts(s: string, delims: set<char>)
    ensures |Split(s, delims)| == CountIn(s, delims) + 1
    decreases |s|
  {
    if |s| > 0 {
      SplitCounts(s[1..], delims);
    }
  }
}
