/** Character and string helpers: decimal digits, integer <-> string conversion as Python's
    `str()`, `int()` and `float()` do it on plain decimal text, `str.replace`, `str.split`,
    and Python's lexicographic ordering of strings. */
module Text {
  import opened Wrappers

  predicate IsDigit(c: char) { '0' <= c <= '9' }

  predicate AllDigits(s: string) { forall i :: 0 <= i < |s| ==> IsDigit(s[i]) }

  /** The characters `str.split()` with no argument treats as separators: the ASCII
      whitespace and separator controls, NEL, no-break space, and the Unicode space and
      line/paragraph separators. */
  predicate IsSpace(c: char)
  {
    var n := c as int;
    || n == 32 || 9 <= n <= 13 || 28 <= n <= 31
    || n == 0x85 || n == 0xA0 || n == 0x1680 || 0x2000 <= n <= 0x200A
    || n == 0x2028 || n == 0x2029 || n == 0x202F || n == 0x205F || n == 0x3000
  }

  function DigitChar(d: nat): (c: char)
    requires d < 10
    ensures IsDigit(c) && c as int - '0' as int == d
  {
    ('0' as int + d) as char
  }

  function DigitValue(c: char): (d: nat)
    requires IsDigit(c)
    ensures d < 10
  {
    c as int - '0' as int
  }

  // ---------------------------------------------------------------
  // str(n) for integers, and int(s) on decimal text
  // ---------------------------------------------------------------

  /** Python's `str(n)` for n >= 0: the shortest decimal numeral. */
  function NatToString(n: nat): (s: string)
    ensures |s| > 0 && AllDigits(s)
    ensures s[0] == '0' ==> n == 0
  {
    if n < 10 then [DigitChar(n)] else NatToString(n / 10) + [DigitChar(n % 10)]
  }

  /** Python's `str(i)` for any integer. */
  function IntToString(i: int): (s: string)
    ensures |s| > 0
    ensures forall k :: 0 < k < |s| ==> IsDigit(s[k])
    ensures s[0] == '-' <==> i < 0
  {
    if i < 0 then "-" + NatToString(-i) else NatToString(i)
  }

  /** The value of a string of decimal digits (leading zeros allowed, empty is 0). */
  function DigitsValue(s: string): nat
    requires AllDigits(s)
  {
    if |s| == 0 then 0 else DigitsValue(s[..|s| - 1]) * 10 + DigitValue(s[|s| - 1])
  }

  /** A numeral `int()` accepts here: ASCII digits, optionally after one sign. */
  predicate IntNumeral(s: string)
  {
    (|s| > 0 && AllDigits(s)) || (|s| > 1 && (s[0] == '-' || s[0] == '+') && AllDigits(s[1..]))
  }

  /** Python's `int(s)` restricted to an optional sign followed by ASCII digits: it fails
      (`None`, where Python raises) on every other text. */
  function ParseInt(s: string): (r: Option<int>)
    ensures r.Some? <==> IntNumeral(s)
    ensures |s| > 0 && AllDigits(s) ==> r == Some(DigitsValue(s))
    ensures |s| > 1 && s[0] == '-' && AllDigits(s[1..]) ==> r == Some(-(DigitsValue(s[1..]) as int))
    ensures |s| > 1 && s[0] == '+' && AllDigits(s[1..]) ==> r == Some(DigitsValue(s[1..]))
  {
    if |s| > 0 && (s[0] == '-' || s[0] == '+') then
      var d := s[1..];
      var v: int := if |d| > 0 && AllDigits(d) then DigitsValue(d) else 0;
      if |d| > 0 && AllDigits(d) then Some(if s[0] == '-' then -v else v)
      else None
    else if |s| > 0 && AllDigits(s) then Some(DigitsValue(s))
    else None
  }

  lemma {:induction false} DigitsValueOfNatToString(n: nat)
    ensures DigitsValue(NatToString(n)) == n
  {
    if n >= 10 {
      var s := NatToString(n);
      assert s[..|s| - 1] == NatToString(n / 10);
      DigitsValueOfNatToString(n / 10);
    }
  }

  /** `int(str(i)) == i`: the decimal rendering of an integer reads back as that integer. */
  lemma ParseIntOfIntToString(i: int)
    ensures ParseInt(IntToString(i)) == Some(i)
  {
    if i < 0 {
      DigitsValueOfNatToString(-i);
      assert IntToString(i)[1..] == NatToString(-i);
    } else {
      DigitsValueOfNatToString(i);
    }
  }

  /** A minus sign before a run of digits reads as the negated value of the digits. */
  lemma ParseIntOfNegative(d: string)
    requires |d| > 0 && AllDigits(d)
    ensures ParseInt("-" + d) == Some(-(DigitsValue(d) as int))
  {
    assert ("-" + d)[1..] == d;
  }

  /** Distinct integers have distinct decimal renderings. */
  lemma IntToStringInjective(i: int, j: int)
    requires IntToString(i) == IntToString(j)
    ensures i == j
  {
    ParseIntOfIntToString(i);
    ParseIntOfIntToString(j);
  }

  // ---------------------------------------------------------------
  // zero padding, as in the format specification `04d`
  // ---------------------------------------------------------------

  function Zeros(k: nat): (z: string)
    ensures |z| == k && AllDigits(z)
    ensures forall i :: 0 <= i < k ==> z[i] == '0'
  {
    seq(k, _ => '0')
  }

  /** Left-pads a numeral with zeros to at least `width` characters. */
  function PadZeros(s: string, width: nat): (r: string)
    ensures |r| == if |s| < width then width else |s|
    ensures r[|r| - |s|..] == s
  {
    if |s| < width then Zeros(width - |s|) + s else s
  }

  lemma {:induction false} LeadingZerosIgnored(k: nat, s: string)
    requires AllDigits(s)
    ensures AllDigits(Zeros(k) + s) && DigitsValue(Zeros(k) + s) == DigitsValue(s)
    decreases |s|
  {
    var t := Zeros(k) + s;
    if |s| == 0 {
      assert t == Zeros(k);
      ZerosValue(k);
    } else {
      assert t[..|t| - 1] == Zeros(k) + s[..|s| - 1];
      LeadingZerosIgnored(k, s[..|s| - 1]);
    }
  }

  lemma {:induction false} ZerosValue(k: nat)
    ensures DigitsValue(Zeros(k)) == 0
  {
    if k > 0 {
      assert Zeros(k)[..k - 1] == Zeros(k - 1);
      ZerosValue(k - 1);
    }
  }

  // ---------------------------------------------------------------
  // float(s) on plain decimal text
  // ---------------------------------------------------------------

  function Pow10(k: nat): (p: nat)
    ensures p >= 1
  {
    if k == 0 then 1 else 10 * Pow10(k - 1)
  }

  /** `float(s)` for text of the form digits[.digits] (at least one digit overall). */
  function ParseUnsignedDecimal(s: string): Option<real>
  {
    var dot := FirstIndex(s, (c: char) => c == '.');
    var intPart := if dot.Some? then s[..dot.value] else s;
    var fracPart := if dot.Some? then s[dot.value + 1..] else "";
    if AllDigits(intPart) && AllDigits(fracPart) && |intPart| + |fracPart| > 0 then
      Some(DigitsValue(intPart) as real + DigitsValue(fracPart) as real / Pow10(|fracPart|) as real)
    else None
  }

  /** Python's `float(s)` restricted to an optional sign and a plain decimal numeral. */
  function ParseDecimal(s: string): (r: Option<real>)
    ensures r.Some? ==> |s| > 0
  {
    if |s| > 0 && (s[0] == '-' || s[0] == '+') then
      match ParseUnsignedDecimal(s[1..])
      case None => None
      case Some(v) => Some(if s[0] == '-' then -v else v)
    else ParseUnsignedDecimal(s)
  }

  /** A plain run of digits reads as its value. */
  lemma ParseDecimalOfDigits(s: string)
    requires |s| > 0 && AllDigits(s)
    ensures ParseDecimal(s) == Some(DigitsValue(s) as real)
  {
    assert FirstIndex(s, (c: char) => c == '.') == None;
    assert DigitsValue("") == 0 && Pow10(0) == 1;
    assert ParseUnsignedDecimal(s) == Some(DigitsValue(s) as real);
  }

  /** `float(str(n)) == n` for a natural number. */
  lemma ParseDecimalOfNatToString(n: nat)
    ensures ParseDecimal(NatToString(n)) == Some(n as real)
  {
    ParseDecimalOfDigits(NatToString(n));
    DigitsValueOfNatToString(n);
  }

  // ---------------------------------------------------------------
  // str.replace(pat, ""), endswith, split()
  // ---------------------------------------------------------------

  /** `s.replace(pat, "")`: every non-overlapping occurrence of `pat`, scanned left to right,
      is removed. */
  function RemoveAll(s: string, pat: string): (r: string)
    requires |pat| > 0
    ensures |r| <= |s|
    decreases |s|
  {
    if |s| >= |pat| && s[..|pat|] == pat then RemoveAll(s[|pat|..], pat)
    else if |s| == 0 then []
    else [s[0]] + RemoveAll(s[1..], pat)
  }

  /** Removing a pattern whose first character never occurs leaves the string unchanged. */
  lemma {:induction false} RemoveAllAbsent(s: string, pat: string)
    requires |pat| > 0
    requires forall i :: 0 <= i < |s| ==> s[i] != pat[0]
    ensures RemoveAll(s, pat) == s
    decreases |s|
  {
    if |s| > 0 {
      if |s| >= |pat| {
        assert s[..|pat|][0] != pat[0];
      }
      RemoveAllAbsent(s[1..], pat);
    }
  }

  predicate EndsWith(s: string, suffix: string)
  {
    |suffix| <= |s| && s[|s| - |suffix|..] == suffix
  }

  predicate StartsWith(s: string, prefix: string)
  {
    |prefix| <= |s| && s[..|prefix|] == prefix
  }

  /** Length of the leading run of non-separator characters. */
  function WordLength(s: string): (n: nat)
    ensures n <= |s|
    ensures forall i :: 0 <= i < n ==> !IsSpace(s[i])
    ensures n < |s| ==> IsSpace(s[n])
  {
    if |s| == 0 || IsSpace(s[0]) then 0 else 1 + WordLength(s[1..])
  }

  /** Python's `s.split()`: the maximal runs of non-whitespace characters, in order. */
  function Words(s: string): (ws: seq<string>)
    ensures forall k :: 0 <= k < |ws| ==> |ws[k]| > 0
    ensures forall k, i :: 0 <= k < |ws| && 0 <= i < |ws[k]| ==> !IsSpace(ws[k][i])
    decreases |s|
  {
    if |s| == 0 then []
    else if IsSpace(s[0]) then Words(s[1..])
    else
      var n := WordLength(s);
      [s[..n]] + Words(s[n..])
  }

  // ---------------------------------------------------------------
  // the regular expression `\d+<sep>\d+`, searched leftmost-first
  // ---------------------------------------------------------------

  /** Length of the run of digits at the start of `s`. */
  function LeadingDigits(s: string): (n: nat)
    ensures n <= |s|
    ensures forall i :: 0 <= i < n ==> IsDigit(s[i])
    ensures n < |s| ==> !IsDigit(s[n])
  {
    if |s| == 0 || !IsDigit(s[0]) then 0 else 1 + LeadingDigits(s[1..])
  }

  /** Length of the run of digits at the end of `s`. */
  function TrailingDigits(s: string): (n: nat)
    ensures n <= |s|
    ensures forall i :: |s| - n <= i < |s| ==> IsDigit(s[i])
    ensures n < |s| ==> !IsDigit(s[|s| - n - 1])
  {
    if |s| == 0 || !IsDigit(s[|s| - 1]) then 0 else 1 + TrailingDigits(s[..|s| - 1])
  }

  /** Position `j` of `s` holds a separator with a digit immediately on each side: the
      separator of a match of `\d+<sep>\d+`. */
  predicate PairAt(s: string, j: int, seps: set<char>)
  {
    0 < j < |s| - 1 && s[j] in seps && IsDigit(s[j - 1]) && IsDigit(s[j + 1])
  }

  /** The separator of the leftmost match of `\d+<sep>\d+` in `s`, searching from `from`.
      Leftmost matches start earlier exactly when their separator comes earlier, so the first
      separator flanked by digits identifies the match `re.search` returns. */
  function FirstPairFrom(s: string, seps: set<char>, from: nat): (r: Option<nat>)
    ensures r.Some? ==> from <= r.value && PairAt(s, r.value, seps)
    ensures r.Some? ==> forall j :: from <= j < r.value ==> !PairAt(s, j, seps)
    ensures r.None? ==> forall j :: from <= j < |s| ==> !PairAt(s, j, seps)
    decreases |s| - from
  {
    if from >= |s| then None
    else if PairAt(s, from, seps) then Some(from)
    else FirstPairFrom(s, seps, from + 1)
  }

  function FirstPair(s: string, seps: set<char>): (r: Option<nat>)
    ensures r.Some? ==> PairAt(s, r.value, seps)
    ensures r.Some? ==> forall j :: 0 <= j < r.value ==> !PairAt(s, j, seps)
    ensures r.None? ==> forall j :: 0 <= j < |s| ==> !PairAt(s, j, seps)
  {
    FirstPairFrom(s, seps, 0)
  }

  /** The leftmost match is determined by its separator position. */
  lemma FirstPairIs(s: string, seps: set<char>, j: nat)
    requires PairAt(s, j, seps)
    requires forall k :: 0 <= k < j ==> !PairAt(s, k, seps)
    ensures FirstPair(s, seps) == Some(j)
  {
    var r := FirstPair(s, seps);
    if r.Some? {
      assert !(r.value < j);
      assert !(j < r.value);
    }
  }

  /** First capture group of the match whose separator is at `j`: the whole digit run before it. */
  function GroupBefore(s: string, j: nat): (g: string)
    requires j <= |s|
    ensures AllDigits(g) && |g| <= j && g == s[j - |g|..j]
    ensures |g| < j ==> !IsDigit(s[j - |g| - 1])
    ensures j > 0 && IsDigit(s[j - 1]) ==> |g| > 0
  {
    var n := TrailingDigits(s[..j]);
    s[j - n..j]
  }

  /** Second capture group of the match whose separator is at `j`: the greedy digit run after it. */
  function GroupAfter(s: string, j: nat): (g: string)
    requires j < |s|
    ensures AllDigits(g) && j + 1 + |g| <= |s| && g == s[j + 1..j + 1 + |g|]
    ensures j + 1 + |g| < |s| ==> !IsDigit(s[j + 1 + |g|])
    ensures j + 1 < |s| && IsDigit(s[j + 1]) ==> |g| > 0
  {
    var n := LeadingDigits(s[j + 1..]);
    s[j + 1..j + 1 + n]
  }

  // ---------------------------------------------------------------
  // Python's ordering of str values: lexicographic by code point
  // ---------------------------------------------------------------

  predicate StrLess(a: string, b: string)
  {
    if |a| == 0 then |b| > 0
    else if |b| == 0 then false
    else if a[0] != b[0] then a[0] < b[0]
    else StrLess(a[1..], b[1..])
  }

  lemma {:induction false} StrLessAsymmetric(a: string, b: string)
    ensures StrLess(a, b) ==> !StrLess(b, a)
  {
    if |a| > 0 && |b| > 0 && a[0] == b[0] {
      StrLessAsymmetric(a[1..], b[1..]);
    }
  }

  lemma {:induction false} StrLessTotal(a: string, b: string)
    requires a != b
    ensures StrLess(a, b) || StrLess(b, a)
  {
    if |a| > 0 && |b| > 0 && a[0] == b[0] {
      assert a == [a[0]] + a[1..] && b == [b[0]] + b[1..];
      StrLessTotal(a[1..], b[1..]);
    }
  }

  lemma {:induction false} StrLessTransitive(a: string, b: string, c: string)
    requires StrLess(a, b) && StrLess(b, c)
    ensures StrLess(a, c)
  {
    if |a| > 0 && a[0] == b[0] && b[0] == c[0] {
      StrLessTransitive(a[1..], b[1..], c[1..]);
    }
  }

  /** Each string is <= the next one. */
  predicate SortedStrings(s: seq<string>)
  {
    forall i :: 0 < i < |s| ==> !StrLess(s[i], s[i - 1])
  }

  function InsertString(x: string, s: seq<string>): (r: seq<string>)
    requires SortedStrings(s)
    ensures SortedStrings(r)
    ensures multiset(r) == multiset(s) + multiset{x}
    ensures |r| > 0 && (r[0] == x || (|s| > 0 && r[0] == s[0]))
  {
    if |s| == 0 then [x]
    else if !StrLess(s[0], x) then [x] + s
    else
      StrLessAsymmetric(s[0], x);
      var t := InsertString(x, s[1..]);
      assert s == [s[0]] + s[1..];
      [s[0]] + t
  }

  /** Python's `sorted()` on a list of strings. */
  function SortStrings(s: seq<string>): (r: seq<string>)
    ensures SortedStrings(r)
    ensures multiset(r) == multiset(s)
  {
    if |s| == 0 then []
    else
      assert s == s[..|s| - 1] + [s[|s| - 1]];
      InsertString(s[|s| - 1], SortStrings(s[..|s| - 1]))
  }

  /** A sorted list is ordered pairwise, not just between neighbours. */
  lemma {:induction false} SortedStringsPairwise(s: seq<string>, i: nat, j: nat)
    requires SortedStrings(s) && i < j < |s|
    ensures !StrLess(s[j], s[i])
    decreases j - i
  {
    if j > i + 1 {
      SortedStringsPairwise(s, i, j - 1);
      var a, b, c := s[i], s[j - 1], s[j];
      if a != b && b != c {
        StrLessTotal(a, b);
        StrLessTotal(b, c);
        StrLessTransitive(a, b, c);
        StrLessAsymmetric(a, c);
      }
    }
  }
}
