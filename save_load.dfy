/** Quote numbering (core/save_load.py): the saved quotes are the `.json` files of the quotes
    directory, named after their quote number, and the next quote number suggested is one
    more than the largest number among them, written `Q` and at least four digits. The
    directory listing is a parameter. */
module SaveLoad {
  import opened Wrappers
  import opened Text

  const JsonSuffix: string := ".json"

  /** The suggestion when no saved quote carries a number. */
  const FirstSuggestion: string := "Q0001"

  // ---------------------------------------------------------------
  // get_existing_q_numbers
  // ---------------------------------------------------------------

  /** The quote names in a directory listing: every name ending in `.json`, with each
      occurrence of `.json` removed, in listing order. */
  function Stems(files: seq<string>): seq<string>
  {
    if |files| == 0 then []
    else
      var f := files[|files| - 1];
      Stems(files[..|files| - 1]) + (if EndsWith(f, JsonSuffix) then [RemoveAll(f, JsonSuffix)] else [])
  }

  /** A name is a quote name exactly when some `.json` file of the listing carries it. */
  lemma {:induction false} StemsMembership(files: seq<string>, x: string)
    ensures x in Stems(files) <==>
            exists i :: 0 <= i < |files| && EndsWith(files[i], JsonSuffix) && RemoveAll(files[i], JsonSuffix) == x
  {
    if |files| > 0 {
      var n := |files| - 1;
      StemsMembership(files[..n], x);
      if x in Stems(files[..n]) {
        var i :| 0 <= i < n && EndsWith(files[..n][i], JsonSuffix) && RemoveAll(files[..n][i], JsonSuffix) == x;
        assert files[i] == files[..n][i];
      }
      if exists i :: 0 <= i < |files| && EndsWith(files[i], JsonSuffix) && RemoveAll(files[i], JsonSuffix) == x {
        var i :| 0 <= i < |files| && EndsWith(files[i], JsonSuffix) && RemoveAll(files[i], JsonSuffix) == x;
        if i < n {
          assert files[..n][i] == files[i];
        }
      }
    }
  }

  /** The quote numbers on disk: the quote names, sorted. */
  function ExistingQNumbers(files: seq<string>): (qs: seq<string>)
    ensures SortedStrings(qs)
    ensures multiset(qs) == multiset(Stems(files))
  {
    SortStrings(Stems(files))
  }

  // ---------------------------------------------------------------
  // suggest_next_q
  // ---------------------------------------------------------------

  /** `int(q.replace("Q", ""))`, or None where `int` raises. */
  function QNumberValue(q: string): Option<int>
  {
    ParseInt(RemoveAll(q, "Q"))
  }

  /** The numbers of the quote names that parse, in order; the others are skipped. */
  function ParsedNumbers(qs: seq<string>): seq<int>
  {
    if |qs| == 0 then []
    else
      var v := QNumberValue(qs[|qs| - 1]);
      ParsedNumbers(qs[..|qs| - 1]) + (if v.Some? then [v.value] else [])
  }

  /** Parsing one more quote name adds its number, if it has one. */
  lemma ParsedNumbersStep(qs: seq<string>, i: nat)
    requires i < |qs|
    ensures QNumberValue(qs[i]).Some? ==>
              ParsedNumbers(qs[..i + 1]) == ParsedNumbers(qs[..i]) + [QNumberValue(qs[i]).value]
    ensures QNumberValue(qs[i]).None? ==> ParsedNumbers(qs[..i + 1]) == ParsedNumbers(qs[..i])
  {
    assert qs[..i + 1][..i] == qs[..i];
    if QNumberValue(qs[i]).None? {
      assert ParsedNumbers(qs[..i + 1]) == ParsedNumbers(qs[..i]) + [];
    }
  }

  /** A number is parsed exactly when some quote name yields it. */
  lemma ParsedNumbersMembership(qs: seq<string>, v: int)
    ensures v in ParsedNumbers(qs) <==> exists i :: 0 <= i < |qs| && QNumberValue(qs[i]) == Some(v)
  {
    if v in ParsedNumbers(qs) {
      ParsedNumberHasName(qs, v);
    }
    if exists i :: 0 <= i < |qs| && QNumberValue(qs[i]) == Some(v) {
      var i :| 0 <= i < |qs| && QNumberValue(qs[i]) == Some(v);
      NameNumberIsParsed(qs, i);
    }
  }

  lemma {:induction false} ParsedNumberHasName(qs: seq<string>, v: int)
    requires v in ParsedNumbers(qs)
    ensures exists i :: 0 <= i < |qs| && QNumberValue(qs[i]) == Some(v)
  {
    var n := |qs| - 1;
    ParsedNumbersStep(qs, n);
    assert qs[..n + 1] == qs;
    if v in ParsedNumbers(qs[..n]) {
      ParsedNumberHasName(qs[..n], v);
      var i :| 0 <= i < n && QNumberValue(qs[..n][i]) == Some(v);
      assert qs[i] == qs[..n][i];
    } else {
      assert QNumberValue(qs[n]) == Some(v);
    }
  }

  lemma {:induction false} NameNumberIsParsed(qs: seq<string>, i: nat)
    requires i < |qs| && QNumberValue(qs[i]).Some?
    ensures QNumberValue(qs[i]).value in ParsedNumbers(qs)
  {
    var n := |qs| - 1;
    ParsedNumbersStep(qs, n);
    assert qs[..n + 1] == qs;
    if i < n {
      NameNumberIsParsed(qs[..n], i);
      assert qs[..n][i] == qs[i];
    }
  }

  /** `max(nums)`. */
  function MaxInt(s: seq<int>): (m: int)
    requires |s| > 0
    ensures (exists i :: 0 <= i < |s| && s[i] == m) && forall i :: 0 <= i < |s| ==> s[i] <= m
  {
    if |s| == 1 then s[0]
    else
      var rest := MaxInt(s[1..]);
      if s[0] >= rest then s[0] else rest
  }

  /** The text after the `Q` of a quote number. */
  function QDigits(n: int): string
  {
    if n >= 0 then PadZeros(NatToString(n), 4) else "-" + PadZeros(NatToString(-n), 3)
  }

  /** `f"Q{n:04d}"`: `Q`, then the number zero-padded to four characters, a minus sign
      counting as one of them. */
  function FormatQ(n: int): (q: string)
    ensures |q| >= 5 && q[0] == 'Q'
  {
    "Q" + QDigits(n)
  }

  /** The suggested quote number for a directory listing. */
  function NextQ(files: seq<string>): string
  {
    var qs := ExistingQNumbers(files);
    if |qs| == 0 then FirstSuggestion
    else
      var nums := ParsedNumbers(qs);
      if |nums| == 0 then FirstSuggestion else FormatQ(MaxInt(nums) + 1)
  }

  /** Collects the numbers of the existing quotes and suggests the one after the largest. */
  method SuggestNextQ(files: seq<string>) returns (q: string)
    ensures q == NextQ(files)
  {
    var qnums := ExistingQNumbers(files);
    if |qnums| == 0 {
      return FirstSuggestion;
    }
    var nums := CollectNumbers(qnums);
    if |nums| == 0 {
      return FirstSuggestion;
    }
    q := FormatQ(MaxInt(nums) + 1);
  }

  /** The loop of `suggest_next_q`: the number of each quote name that parses, in order. */
  method CollectNumbers(qnums: seq<string>) returns (nums: seq<int>)
    ensures nums == ParsedNumbers(qnums)
  {
    nums := [];
    var i := 0;
    while i < |qnums|
      invariant 0 <= i <= |qnums|
      invariant nums == ParsedNumbers(qnums[..i])
    {
      ParsedNumbersStep(qnums, i);
      match QNumberValue(qnums[i]) {
        case Some(v) => nums := nums + [v];
        case None =>
      }
      i := i + 1;
    }
    assert qnums[..|qnums|] == qnums;
  }

  // ---------------------------------------------------------------
  // What the numbering guarantees
  // ---------------------------------------------------------------

  /** Text made of digits and minus signs contains no `Q` and no `.`. */
  predicate NumeralChars(s: string)
  {
    forall i :: 0 <= i < |s| ==> IsDigit(s[i]) || s[i] == '-'
  }

  /** A zero-padded numeral is digits and has the value of the number it pads. */
  lemma PaddedValue(m: nat, width: nat)
    ensures AllDigits(PadZeros(NatToString(m), width))
    ensures DigitsValue(PadZeros(NatToString(m), width)) == m
  {
    var digits := NatToString(m);
    if |digits| < width {
      LeadingZerosIgnored(width - |digits|, digits);
    }
    DigitsValueOfNatToString(m);
  }

  lemma FormatQShape(n: int)
    ensures FormatQ(n) == "Q" + QDigits(n) && FormatQ(n)[1..] == QDigits(n)
    ensures NumeralChars(QDigits(n))
  {
    var t := QDigits(n);
    assert ("Q" + t)[1..] == t;
    if n >= 0 {
      PaddedValue(n, 4);
    } else {
      NegativeNumeralChars(-n);
      assert t == "-" + PadZeros(NatToString(-n), 3);
    }
  }

  /** A minus sign before a padded numeral is made of numeral characters. */
  lemma NegativeNumeralChars(m: nat)
    ensures NumeralChars("-" + PadZeros(NatToString(m), 3))
  {
    var p := PadZeros(NatToString(m), 3);
    var t := "-" + p;
    PaddedValue(m, 3);
    forall i | 0 <= i < |t|
      ensures IsDigit(t[i]) || t[i] == '-'
    {
      if i > 0 {
        assert t[i] == p[i - 1];
      }
    }
  }

  /** Reading the text after the `Q` back gives the number. */
  lemma QDigitsValue(n: int)
    ensures ParseInt(QDigits(n)) == Some(n)
  {
    if n >= 0 {
      PaddedValue(n, 4);
    } else {
      NegativeNumeralValue(-n);
      assert QDigits(n) == "-" + PadZeros(NatToString(-n), 3);
    }
  }

  /** A minus sign before a padded numeral reads as the negated number. */
  lemma NegativeNumeralValue(m: nat)
    ensures ParseInt("-" + PadZeros(NatToString(m), 3)) == Some(-(m as int))
  {
    var p := PadZeros(NatToString(m), 3);
    PaddedValue(m, 3);
    ParseIntOfNegative(p);
  }

  /** A quote number reads back as the number it was formatted from. */
  lemma FormatQRoundTrip(n: int)
    ensures QNumberValue(FormatQ(n)) == Some(n)
  {
    var q := FormatQ(n);
    var t := QDigits(n);
    FormatQShape(n);
    assert q[..1] == "Q" && q[1..] == t;
    assert RemoveAll(q, "Q") == RemoveAll(t, "Q");
    RemoveAllAbsent(t, "Q");
    QDigitsValue(n);
  }

  /** Distinct numbers get distinct quote numbers. */
  lemma FormatQInjective(m: int, n: int)
    requires FormatQ(m) == FormatQ(n)
    ensures m == n
  {
    FormatQRoundTrip(m);
    FormatQRoundTrip(n);
  }

  /** The first suggestion is the quote number of 1. */
  lemma FormatQOne()
    ensures FormatQ(1) == FirstSuggestion
  {
    assert Zeros(3) == "000";
    assert NatToString(1) == "1";
    assert PadZeros("1", 4) == "000" + "1";
  }

  /** Padding stops at four characters: 10 is written "Q0010". */
  lemma FormatQTen()
    ensures FormatQ(10) == "Q0010"
  {
    assert Zeros(2) == "00";
    assert NatToString(10) == "10" by {
      assert NatToString(10) == NatToString(1) + [DigitChar(0)];
    }
    assert PadZeros("10", 4) == "00" + "10";
  }

  /** A minus sign takes one of the four characters: -4 is written "Q-004". */
  lemma FormatQMinusFour()
    ensures FormatQ(-4) == "Q-004"
  {
    assert Zeros(2) == "00";
    assert NatToString(4) == "4";
    assert PadZeros("4", 3) == "00" + "4";
    assert QDigits(-4) == "-" + PadZeros(NatToString(4), 3);
  }

  /** The number the suggestion carries: one more than the largest parsed number, or 1. */
  function SuggestedNumber(files: seq<string>): int
  {
    var nums := ParsedNumbers(ExistingQNumbers(files));
    if |nums| == 0 then 1 else MaxInt(nums) + 1
  }

  /** Every suggestion, the first one included, is the quote number of `SuggestedNumber`. */
  lemma NextQIsFormatted(files: seq<string>)
    ensures NextQ(files) == FormatQ(SuggestedNumber(files))
  {
    FormatQOne();
  }

  /** The suggestion reads back as a number larger than the number of every existing quote
      whose name yields one. */
  lemma NextQExceedsExisting(files: seq<string>)
    ensures QNumberValue(NextQ(files)) == Some(SuggestedNumber(files))
    ensures forall i :: 0 <= i < |ExistingQNumbers(files)| && QNumberValue(ExistingQNumbers(files)[i]).Some? ==>
              QNumberValue(ExistingQNumbers(files)[i]).value < SuggestedNumber(files)
  {
    var qs := ExistingQNumbers(files);
    NextQIsFormatted(files);
    FormatQRoundTrip(SuggestedNumber(files));
    forall i | 0 <= i < |qs| && QNumberValue(qs[i]).Some?
      ensures QNumberValue(qs[i]).value < SuggestedNumber(files)
    {
      ParsedNumbersMembership(qs, QNumberValue(qs[i]).value);
    }
  }

  /** The suggestion is not the number of an existing quote. */
  lemma NextQFresh(files: seq<string>)
    ensures NextQ(files) !in ExistingQNumbers(files)
  {
    NextQExceedsExisting(files);
  }

  /** Removing a suffix from text that does not contain its first character. */
  lemma {:induction false} RemoveAllOfSuffix(a: string, pat: string)
    requires |pat| > 0 && forall i :: 0 <= i < |a| ==> a[i] != pat[0]
    ensures RemoveAll(a + pat, pat) == a
    decreases |a|
  {
    if |a| == 0 {
      assert a + pat == pat;
      assert pat[|pat|..] == [];
    } else {
      assert (a + pat)[..|pat|][0] == a[0];
      assert (a + pat)[1..] == a[1..] + pat;
      RemoveAllOfSuffix(a[1..], pat);
    }
  }

  /** Saving the suggested quote does not overwrite a saved one: no file of the listing is
      named after it. */
  lemma NextQFileIsNew(files: seq<string>)
    ensures NextQ(files) + JsonSuffix !in files
  {
    var q := NextQ(files);
    NextQFresh(files);
    NextQIsFormatted(files);
    StemOfQuoteFile(SuggestedNumber(files));
    assert q !in multiset(Stems(files));
    StemsMembership(files, q);
  }

  /** With no saved quotes the first quote number is suggested. */
  lemma NextQEmpty()
    ensures NextQ([]) == FirstSuggestion
  {
  }

  /** The largest parsed number is the largest number any quote name yields. */
  lemma MaxOfParsed(qs: seq<string>, m: int)
    requires exists i :: 0 <= i < |qs| && QNumberValue(qs[i]) == Some(m)
    requires forall i :: 0 <= i < |qs| && QNumberValue(qs[i]).Some? ==> QNumberValue(qs[i]).value <= m
    ensures |ParsedNumbers(qs)| > 0 && MaxInt(ParsedNumbers(qs)) == m
  {
    var nums := ParsedNumbers(qs);
    ParsedNumbersMembership(qs, m);
    var top := MaxInt(nums);
    ParsedNumbersMembership(qs, top);
  }

  /** The suggestion is one more than the largest existing number: it depends only on which
      numbers are taken, not on the order of the listing. */
  lemma NextQOfLargest(files: seq<string>, m: int)
    requires exists i :: 0 <= i < |ExistingQNumbers(files)| && QNumberValue(ExistingQNumbers(files)[i]) == Some(m)
    requires forall i :: 0 <= i < |ExistingQNumbers(files)| && QNumberValue(ExistingQNumbers(files)[i]).Some? ==>
               QNumberValue(ExistingQNumbers(files)[i]).value <= m
    ensures NextQ(files) == FormatQ(m + 1)
  {
    MaxOfParsed(ExistingQNumbers(files), m);
    NextQIsFormatted(files);
  }

  /** The `.json` file of a quote number carries that quote number. */
  lemma StemOfQuoteFile(n: int)
    ensures EndsWith(FormatQ(n) + JsonSuffix, JsonSuffix)
    ensures RemoveAll(FormatQ(n) + JsonSuffix, JsonSuffix) == FormatQ(n)
  {
    var q := FormatQ(n);
    FormatQShape(n);
    forall i | 0 <= i < |q|
      ensures q[i] != '.'
    {
      if i > 0 {
        assert q[i] == q[1..][i - 1];
      }
    }
    RemoveAllOfSuffix(q, JsonSuffix);
  }

  lemma StemsOfThree(a: string, b: string, c: string)
    requires EndsWith(a, JsonSuffix) && !EndsWith(b, JsonSuffix) && EndsWith(c, JsonSuffix)
    ensures Stems([a, b, c]) == [RemoveAll(a, JsonSuffix), RemoveAll(c, JsonSuffix)]
  {
    assert [a][..0] == [];
    assert Stems([a]) == [RemoveAll(a, JsonSuffix)];
    assert [a, b][..1] == [a];
    assert Stems([a, b]) == Stems([a]);
    assert [a, b, c][..2] == [a, b];
  }

  lemma StemsOfTwoQuotes(m: int, n: int, other: string)
    requires !EndsWith(other, JsonSuffix)
    ensures Stems([FormatQ(m) + JsonSuffix, other, FormatQ(n) + JsonSuffix]) == [FormatQ(m), FormatQ(n)]
  {
    StemOfQuoteFile(m);
    StemOfQuoteFile(n);
    StemsOfThree(FormatQ(m) + JsonSuffix, other, FormatQ(n) + JsonSuffix);
  }

  /** Among the quote numbers of m and n, in any order, n is the largest number. */
  lemma LargestOfTwo(qs: seq<string>, m: int, n: int)
    requires m <= n && multiset(qs) == multiset{FormatQ(m), FormatQ(n)}
    ensures exists i :: 0 <= i < |qs| && QNumberValue(qs[i]) == Some(n)
    ensures forall i :: 0 <= i < |qs| && QNumberValue(qs[i]).Some? ==> QNumberValue(qs[i]).value <= n
  {
    FormatQRoundTrip(m);
    FormatQRoundTrip(n);
    assert FormatQ(n) in multiset(qs);
    var k :| 0 <= k < |qs| && qs[k] == FormatQ(n);
    forall i | 0 <= i < |qs| && QNumberValue(qs[i]).Some?
      ensures QNumberValue(qs[i]).value <= n
    {
      assert qs[i] in multiset(qs);
    }
  }

  /** Two saved quotes, numbered m and n with m <= n, and a file that is not a quote: the
      suggestion is the number after n. */
  lemma NextQAfterTwoQuotes(m: int, n: int, other: string)
    requires m <= n && !EndsWith(other, JsonSuffix)
    ensures NextQ([FormatQ(m) + JsonSuffix, other, FormatQ(n) + JsonSuffix]) == FormatQ(n + 1)
  {
    var files := [FormatQ(m) + JsonSuffix, other, FormatQ(n) + JsonSuffix];
    StemsOfTwoQuotes(m, n, other);
    LargestOfTwo(ExistingQNumbers(files), m, n);
    NextQOfLargest(files, n);
  }
}
