/** The production tab (ui/production.py): expanding quote lines into one editable row per
    door set, the per-door calculation rows, the door-blank counts, the piece lists for jambs
    and stops, and the first-fit cut-list builder that packs pieces into stock lengths. */
module Production {
  import opened Wrappers
  import opened Text
  import opened ProductionHelpers
  import Estimator
  import Pricing

  // ---------------------------------------------------------------
  // expand_quote_rows
  // ---------------------------------------------------------------

  /** One door set awaiting measurement. */
  datatype DoorRow = DoorRow(doorNo: string, quoteLine: nat, sku: string, leafType: string, height: int,
                             width: int, jambType: string, form: string, undercut: int,
                             finishedFloorHeight: int, measured: bool)

  const DefaultUndercut: int := 20
  const DefaultFinishedFloorHeight: int := 0

  /** Number of door sets a quote line expands into: `range(qty)` is empty for a negative qty. */
  function Sets(qty: int): nat
  {
    if qty < 0 then 0 else qty
  }

  /** Door number `n` of quote line `idx`, with the default measurements and not yet measured. */
  function DoorOf(line: Estimator.QuoteLine, idx: nat, n: int): DoorRow
  {
    DoorRow(IntToString(n), idx, line.sku, line.leaf, line.height, line.width, line.jambType, line.form,
            DefaultUndercut, DefaultFinishedFloorHeight, false)
  }

  /** The `count` doors of quote line `idx`, numbered on from `before`. */
  function LineDoors(line: Estimator.QuoteLine, idx: nat, before: nat, count: nat): (ds: seq<DoorRow>)
    ensures |ds| == count
    ensures forall j :: 0 <= j < count ==> ds[j] == DoorOf(line, idx, before + j + 1)
  {
    if count == 0 then [] else LineDoors(line, idx, before, count - 1) + [DoorOf(line, idx, before + count)]
  }

  /** The expansion of a quote: each line's door sets in line order, numbered consecutively. */
  function Expanded(lines: seq<Estimator.QuoteLine>): seq<DoorRow>
  {
    if |lines| == 0 then []
    else
      var prev := Expanded(lines[..|lines| - 1]);
      prev + LineDoors(lines[|lines| - 1], |lines| - 1, |prev|, Sets(lines[|lines| - 1].qty))
  }

  function TotalSets(lines: seq<Estimator.QuoteLine>): nat
  {
    if |lines| == 0 then 0 else TotalSets(lines[..|lines| - 1]) + Sets(lines[|lines| - 1].qty)
  }

  /** The expansion has one row per door set; row k is door number k+1, belongs to an earlier
      or the same quote line as every later row, copies that line's configuration and carries
      the default measurements. */
  lemma {:induction false} ExpandedShape(lines: seq<Estimator.QuoteLine>)
    ensures |Expanded(lines)| == TotalSets(lines)
    ensures forall k :: 0 <= k < |Expanded(lines)| ==>
              Expanded(lines)[k].quoteLine < |lines| &&
              Expanded(lines)[k] == DoorOf(lines[Expanded(lines)[k].quoteLine], Expanded(lines)[k].quoteLine, k + 1)
    ensures forall k1, k2 :: 0 <= k1 <= k2 < |Expanded(lines)| ==>
              Expanded(lines)[k1].quoteLine <= Expanded(lines)[k2].quoteLine
  {
    ExpandedLength(lines);
    ExpandedRows(lines);
    ExpandedOrdered(lines);
  }

  lemma {:induction false} ExpandedLength(lines: seq<Estimator.QuoteLine>)
    ensures |Expanded(lines)| == TotalSets(lines)
  {
    if |lines| > 0 {
      ExpandedLength(lines[..|lines| - 1]);
    }
  }

  lemma {:induction false} ExpandedRows(lines: seq<Estimator.QuoteLine>)
    ensures forall k :: 0 <= k < |Expanded(lines)| ==>
              Expanded(lines)[k].quoteLine < |lines| &&
              Expanded(lines)[k] == DoorOf(lines[Expanded(lines)[k].quoteLine], Expanded(lines)[k].quoteLine, k + 1)
  {
    if |lines| > 0 {
      var n := |lines|;
      var init := lines[..n - 1];
      ExpandedRows(init);
      var prev := Expanded(init);
      var block := LineDoors(lines[n - 1], n - 1, |prev|, Sets(lines[n - 1].qty));
      var e := Expanded(lines);
      assert e == prev + block;
      forall k | 0 <= k < |e|
        ensures e[k].quoteLine < n && e[k] == DoorOf(lines[e[k].quoteLine], e[k].quoteLine, k + 1)
      {
        if k < |prev| {
          assert e[k] == prev[k];
          assert init[prev[k].quoteLine] == lines[prev[k].quoteLine];
        } else {
          assert e[k] == block[k - |prev|];
        }
      }
    }
  }

  lemma {:induction false} ExpandedOrdered(lines: seq<Estimator.QuoteLine>)
    ensures forall k1, k2 :: 0 <= k1 <= k2 < |Expanded(lines)| ==>
              Expanded(lines)[k1].quoteLine <= Expanded(lines)[k2].quoteLine
  {
    if |lines| > 0 {
      var n := |lines|;
      var init := lines[..n - 1];
      ExpandedOrdered(init);
      ExpandedRows(init);
      var prev := Expanded(init);
      var block := LineDoors(lines[n - 1], n - 1, |prev|, Sets(lines[n - 1].qty));
      var e := Expanded(lines);
      assert e == prev + block;
      forall k1, k2 | 0 <= k1 <= k2 < |e|
        ensures e[k1].quoteLine <= e[k2].quoteLine
      {
        if k2 < |prev| {
          assert e[k1] == prev[k1] && e[k2] == prev[k2];
        } else if k1 < |prev| {
          assert e[k1] == prev[k1] && e[k2] == block[k2 - |prev|];
        } else {
          assert e[k1] == block[k1 - |prev|] && e[k2] == block[k2 - |prev|];
        }
      }
    }
  }

  /** Door numbers are distinct. */
  lemma DoorNumbersDistinct(lines: seq<Estimator.QuoteLine>, k1: nat, k2: nat)
    requires k1 < |Expanded(lines)| && k2 < |Expanded(lines)| && k1 != k2
    ensures Expanded(lines)[k1].doorNo != Expanded(lines)[k2].doorNo
  {
    ExpandedShape(lines);
    if Expanded(lines)[k1].doorNo == Expanded(lines)[k2].doorNo {
      IntToStringInjective(k1 + 1, k2 + 1);
    }
  }

  /** Number of rows that belong to quote line `i`. */
  function CountLine(doors: seq<DoorRow>, i: nat): nat
  {
    if |doors| == 0 then 0
    else CountLine(doors[..|doors| - 1], i) + (if doors[|doors| - 1].quoteLine == i then 1 else 0)
  }

  lemma {:induction false} CountLineAppend(a: seq<DoorRow>, b: seq<DoorRow>, i: nat)
    ensures CountLine(a + b, i) == CountLine(a, i) + CountLine(b, i)
  {
    if |b| > 0 {
      assert (a + b)[..|a + b| - 1] == a + b[..|b| - 1];
      assert (a + b)[|a + b| - 1] == b[|b| - 1];
      CountLineAppend(a, b[..|b| - 1], i);
    } else {
      assert a + b == a;
    }
  }

  lemma {:induction false} CountLineUniform(doors: seq<DoorRow>, i: nat, q: nat)
    requires forall k :: 0 <= k < |doors| ==> doors[k].quoteLine == q
    ensures CountLine(doors, i) == if i == q then |doors| else 0
  {
    if |doors| > 0 {
      CountLineUniform(doors[..|doors| - 1], i, q);
    }
  }

  lemma {:induction false} CountLineBelow(doors: seq<DoorRow>, i: nat)
    requires forall k :: 0 <= k < |doors| ==> doors[k].quoteLine < i
    ensures CountLine(doors, i) == 0
  {
    if |doors| > 0 {
      CountLineBelow(doors[..|doors| - 1], i);
    }
  }

  /** Every row of the expansion points at one of the quote lines. */
  lemma {:induction false} ExpandedLinesBelow(lines: seq<Estimator.QuoteLine>)
    ensures forall k :: 0 <= k < |Expanded(lines)| ==> Expanded(lines)[k].quoteLine < |lines|
  {
    if |lines| > 0 {
      var init := lines[..|lines| - 1];
      ExpandedLinesBelow(init);
      var prev := Expanded(init);
      var block := LineDoors(lines[|lines| - 1], |lines| - 1, |prev|, Sets(lines[|lines| - 1].qty));
      assert Expanded(lines) == prev + block;
      forall k | 0 <= k < |Expanded(lines)| ensures Expanded(lines)[k].quoteLine < |lines| {
        if k < |prev| {
          assert Expanded(lines)[k] == prev[k];
        } else {
          assert Expanded(lines)[k] == block[k - |prev|];
        }
      }
    }
  }

  /** Each quote line contributes exactly its number of door sets. */
  lemma {:induction false} DoorsPerLine(lines: seq<Estimator.QuoteLine>, i: nat)
    requires i < |lines|
    ensures CountLine(Expanded(lines), i) == Sets(lines[i].qty)
  {
    var n := |lines|;
    var init := lines[..n - 1];
    var prev := Expanded(init);
    var block := LineDoors(lines[n - 1], n - 1, |prev|, Sets(lines[n - 1].qty));
    assert Expanded(lines) == prev + block;
    CountLineAppend(prev, block, i);
    CountLineUniform(block, i, n - 1);
    if i == n - 1 {
      ExpandedLinesBelow(init);
      CountLineBelow(prev, i);
    } else {
      DoorsPerLine(init, i);
      assert init[i] == lines[i];
    }
  }

  /** The inner loop of the expansion: quote line `idx`'s door sets, numbered on from `counter`. */
  method ExpandLine(line: Estimator.QuoteLine, idx: nat, counter: nat) returns (ds: seq<DoorRow>, next: nat)
    requires counter >= 1
    ensures ds == LineDoors(line, idx, counter - 1, Sets(line.qty))
    ensures next == counter + |ds|
  {
    ds := [];
    next := counter;
    var k := 0;
    while k < line.qty
      invariant 0 <= k <= Sets(line.qty)
      invariant ds == LineDoors(line, idx, counter - 1, k)
      invariant next == counter + k
    {
      ds := ds + [DoorOf(line, idx, next)];
      next := next + 1;
      k := k + 1;
    }
  }

  /** One row per door set, numbered from 1, with default measurements. */
  method ExpandQuoteRows(lines: seq<Estimator.QuoteLine>) returns (doors: seq<DoorRow>)
    ensures doors == Expanded(lines)
    ensures |doors| == TotalSets(lines)
    ensures forall k :: 0 <= k < |doors| ==> doors[k].doorNo == IntToString(k + 1) && !doors[k].measured
  {
    doors := [];
    var counter := 1;
    var idx := 0;
    while idx < |lines|
      invariant 0 <= idx <= |lines|
      invariant doors == Expanded(lines[..idx])
      invariant counter == |doors| + 1
    {
      var lineDoors;
      lineDoors, counter := ExpandLine(lines[idx], idx, counter);
      assert lines[..idx + 1][..idx] == lines[..idx];
      doors := doors + lineDoors;
      idx := idx + 1;
    }
    assert lines[..|lines|] == lines;
    ExpandedShape(lines);
  }

  // ---------------------------------------------------------------
  // The leaf-type column the production tab reads
  // ---------------------------------------------------------------

  /** The column the production tab reads the leaf type from. */
  const LeafColumnAsWritten: string := "Leaf Type"

  /** The column the estimator stores the leaf type under. */
  const LeafColumn: string := "Leaf"

  /** `expand_quote_rows` over rows carrying `columns`, reading the leaf type from
      `leafColumn` (the other columns it reads are among the estimator's): the first line
      with at least one door set raises KeyError (None) when that column is missing;
      otherwise the result is the expansion. */
  function ExpandReading(lines: seq<Estimator.QuoteLine>, columns: set<string>, leafColumn: string): (r: Option<seq<DoorRow>>)
    ensures r.Some? ==> r.value == Expanded(lines)
  {
    if |lines| == 0 then Some([])
    else
      match ExpandReading(lines[..|lines| - 1], columns, leafColumn)
      case None => None
      case Some(prev) =>
        var last := lines[|lines| - 1];
        if Sets(last.qty) > 0 && leafColumn !in columns then None
        else Some(prev + LineDoors(last, |lines| - 1, |prev|, Sets(last.qty)))
  }

  /** The expansion fails exactly when the leaf column is missing and some door set is due. */
  lemma {:induction false} ExpandReadingFailsIff(lines: seq<Estimator.QuoteLine>, columns: set<string>, leafColumn: string)
    ensures ExpandReading(lines, columns, leafColumn).None? <==> leafColumn !in columns && TotalSets(lines) > 0
  {
    if |lines| > 0 {
      ExpandReadingFailsIff(lines[..|lines| - 1], columns, leafColumn);
    }
  }

  /** There are door sets to expand exactly when some line has a quantity of at least one. */
  lemma {:induction false} TotalSetsPositiveIff(lines: seq<Estimator.QuoteLine>)
    ensures TotalSets(lines) > 0 <==> exists i :: 0 <= i < |lines| && lines[i].qty >= 1
  {
    if |lines| > 0 {
      var init := lines[..|lines| - 1];
      TotalSetsPositiveIff(init);
      if exists i :: 0 <= i < |init| && init[i].qty >= 1 {
        var i :| 0 <= i < |init| && init[i].qty >= 1;
        assert lines[i].qty >= 1;
      }
      if exists i :: 0 <= i < |lines| && lines[i].qty >= 1 {
        var i :| 0 <= i < |lines| && lines[i].qty >= 1;
        if i < |init| {
          assert init[i].qty >= 1;
        }
      }
    }
  }

  /** As written, expanding a quote built by the estimator fails (KeyError "Leaf Type") for
      every quote with a line of quantity one or more. */
  lemma ExpandAsWrittenFails(lines: seq<Estimator.QuoteLine>)
    ensures ExpandReading(lines, Estimator.QuoteRowColumns, LeafColumnAsWritten).None? <==>
            exists i :: 0 <= i < |lines| && lines[i].qty >= 1
  {
    LeafTypeIsNoQuoteColumn();
    ExpandReadingFailsIff(lines, Estimator.QuoteRowColumns, LeafColumnAsWritten);
    TotalSetsPositiveIff(lines);
  }

  lemma LeafTypeIsNoQuoteColumn()
    ensures LeafColumnAsWritten !in Estimator.QuoteRowColumns
  {
  }

  /** A one-door quote already fails as written. */
  lemma ExpandAsWrittenFailsOnOneDoor(line: Estimator.QuoteLine)
    requires line.qty == 1
    ensures ExpandReading([line], Estimator.QuoteRowColumns, LeafColumnAsWritten).None?
  {
    ExpandAsWrittenFails([line]);
    assert [line][0].qty >= 1;
  }

  /** Reading the estimator's leaf column, the expansion always succeeds and is `Expanded`. */
  lemma ExpandAsIntended(lines: seq<Estimator.QuoteLine>)
    ensures ExpandReading(lines, Estimator.QuoteRowColumns, LeafColumn) == Some(Expanded(lines))
  {
    ExpandReadingFailsIff(lines, Estimator.QuoteRowColumns, LeafColumn);
  }

  /** `df[wanted]`: the wanted columns in order, or KeyError (None) when one is missing. */
  function SelectColumns(available: set<string>, wanted: seq<string>): (r: Option<seq<string>>)
    ensures r.Some? <==> forall i :: 0 <= i < |wanted| ==> wanted[i] in available
    ensures r.Some? ==> r.value == wanted
  {
    if |wanted| == 0 then Some([])
    else
      match SelectColumns(available, wanted[..|wanted| - 1])
      case None => None
      case Some(prev) =>
        if wanted[|wanted| - 1] in available then Some(prev + [wanted[|wanted| - 1]]) else None
  }

  /** The columns of the door-blank table: the quote rows with "Leaves" and "Total" added. */
  const BlankTableColumns: set<string> := Estimator.QuoteRowColumns + {"Leaves", "Total"}

  /** The door-blank columns as written, and with the estimator's leaf column. */
  const BlankColumnsAsWritten: seq<string> := ["SKU", LeafColumnAsWritten, "Height", "Width", "Thickness", "Total"]
  const BlankColumns: seq<string> := ["SKU", LeafColumn, "Height", "Width", "Thickness", "Total"]

  /** As written, selecting the door-blank columns fails: there is no "Leaf Type" column. */
  lemma BlankSelectionAsWrittenFails()
    ensures SelectColumns(BlankTableColumns, BlankColumnsAsWritten).None?
  {
    assert BlankColumnsAsWritten[1] !in BlankTableColumns;
  }

  /** With the estimator's leaf column every door-blank column is present. */
  lemma BlankSelection()
    ensures SelectColumns(BlankTableColumns, BlankColumns) == Some(BlankColumns)
  {
    forall i | 0 <= i < |BlankColumns| ensures BlankColumns[i] in BlankTableColumns {
      assert i == 0 || i == 1 || i == 2 || i == 3 || i == 4 || i == 5;
    }
  }

  // ---------------------------------------------------------------
  // _extract_jamb_thickness
  // ---------------------------------------------------------------

  /** `t.split(sep)[-1]`: the text after the last `sep`, or all of `t` when there is none. */
  function LastSegment(t: string, sep: char): (r: string)
    ensures |r| <= |t| && r == t[|t| - |r|..]
    ensures forall i :: 0 <= i < |r| ==> r[i] != sep
    ensures |r| < |t| ==> t[|t| - |r| - 1] == sep
  {
    if |t| == 0 then ""
    else if t[|t| - 1] == sep then ""
    else LastSegment(t[..|t| - 1], sep) + [t[|t| - 1]]
  }

  /** `float(t.split("x")[-1])` for a word `t`, with 18 when that text is not a number. */
  function WordThickness(t: string): real
  {
    match ParseDecimal(LastSegment(t, 'x'))
    case Some(v) => v
    case None => 18.0
  }

  predicate HasX(w: string) { 'x' in w }

  /** The jamb thickness of a jamb profile name at the production stage. */
  function ExtractJambThickness(text: string): (thk: real)
  {
    var ws := Words(text);
    match FirstIndex(ws, HasX)
    case None => 18.0
    case Some(k) => WordThickness(ws[k])
  }

  /** When some word contains an `x`, the thickness is the number after the last `x` of the
      first such word (18 when that text is not a number). */
  lemma ExtractJambThicknessFirstXWord(text: string, k: nat)
    requires k < |Words(text)| && HasX(Words(text)[k])
    requires forall j :: 0 <= j < k ==> !HasX(Words(text)[j])
    ensures ExtractJambThickness(text) == WordThickness(Words(text)[k])
  {
    FirstIndexIsFirstHit(Words(text), HasX, k);
  }

  /** Without a word containing an `x` the thickness defaults to 18. */
  lemma ExtractJambThicknessNoXWord(text: string)
    requires forall j :: 0 <= j < |Words(text)| ==> !HasX(Words(text)[j])
    ensures ExtractJambThickness(text) == 18.0
  {
  }

  lemma {:induction false} WordLengthOfWord(w: string, rest: string)
    requires forall i :: 0 <= i < |w| ==> !IsSpace(w[i])
    requires |rest| == 0 || IsSpace(rest[0])
    ensures WordLength(w + rest) == |w|
  {
    if |w| > 0 {
      assert (w + rest)[1..] == w[1..] + rest;
      WordLengthOfWord(w[1..], rest);
    } else {
      assert w + rest == rest;
    }
  }

  /** A word followed by whitespace or the end splits off as the first word. */
  lemma WordsOfWordThenRest(w: string, rest: string)
    requires |w| > 0 && forall i :: 0 <= i < |w| ==> !IsSpace(w[i])
    requires |rest| == 0 || IsSpace(rest[0])
    ensures Words(w + rest) == [w] + Words(rest)
  {
    WordLengthOfWord(w, rest);
    assert (w + rest)[..|w|] == w;
    assert (w + rest)[|w|..] == rest;
  }

  lemma {:induction false} LastSegmentAfterSep(t: string, sep: char, b: string)
    requires forall i :: 0 <= i < |b| ==> b[i] != sep
    ensures LastSegment(t + [sep] + b, sep) == b
  {
    if |b| > 0 {
      assert (t + [sep] + b)[..|t + [sep] + b| - 1] == t + [sep] + b[..|b| - 1];
      LastSegmentAfterSep(t, sep, b[..|b| - 1]);
    } else {
      assert t + [sep] + b == t + [sep];
    }
  }

  lemma NoSpaceInDims(a: string, b: string)
    requires AllDigits(a) && AllDigits(b)
    ensures forall i :: 0 <= i < |a + "x" + b| ==> !IsSpace((a + "x" + b)[i])
  {
    var dims := a + "x" + b;
    forall i | 0 <= i < |dims| ensures !IsSpace(dims[i]) {
      if i < |a| { assert dims[i] == a[i]; }
      else if i > |a| { assert dims[i] == b[i - |a| - 1]; }
    }
  }

  /** The words of "<code> <dims>" are the code and the dimensions. */
  lemma WordsOfProfileName(code: string, dims: string)
    requires |code| > 0 && forall i :: 0 <= i < |code| ==> !IsSpace(code[i])
    requires |dims| > 0 && forall i :: 0 <= i < |dims| ==> !IsSpace(dims[i])
    ensures Words(code + " " + dims) == [code, dims]
  {
    assert code + " " + dims == code + (" " + dims);
    WordsOfWordThenRest(code, " " + dims);
    assert (" " + dims)[1..] == dims;
    WordsOfWordThenRest(dims, "");
    assert dims + "" == dims;
  }

  /** Where the parts of "<code> <a>x<b>" sit. */
  lemma ProfileNameChars(code: string, a: string, b: string)
    ensures var s := code + " " + (a + "x" + b);
            && |s| == |code| + |a| + |b| + 2
            && (forall i :: 0 <= i < |code| ==> s[i] == code[i])
            && s[|code|] == ' '
            && (forall i :: 0 <= i < |a| ==> s[|code| + 1 + i] == a[i])
            && s[|code| + 1 + |a|] == 'x'
            && s[|code| + 2 + |a|..] == b
  {
    var dims := a + "x" + b;
    var rest := " " + dims;
    var s := code + rest;
    assert s == code + " " + dims;
    forall i | 0 <= i < |a| ensures s[|code| + 1 + i] == a[i] {
      assert s[|code| + 1 + i] == rest[1 + i] == dims[i];
    }
    assert s[|code| + 1 + |a|] == rest[1 + |a|] == dims[|a|];
    assert s[|code| + 2 + |a|..] == rest[2 + |a|..] == dims[|a| + 1..];
  }

  /** The quoting parser reads the digits after the `x` of "<code> <digits>x<digits>" when the
      code has no `x` between two digits. */
  lemma ParseJambThicknessOfProfileName(code: string, a: string, b: string)
    requires forall i :: 0 <= i < |code| ==> !PairAt(code, i, {'x'})
    requires |a| > 0 && AllDigits(a) && |b| > 0 && AllDigits(b)
    ensures Pricing.ParseJambThickness(code + " " + (a + "x" + b)) == DigitsValue(b)
  {
    NoPairBeforeDims(code, a, b);
    ThicknessOfFirstPair(code + " " + (a + "x" + b), |code| + 1 + |a|);
  }

  /** When the first `x` between two digits is followed by digits only, the quoting parser
      reads those digits. */
  lemma ThicknessOfFirstPair(s: string, j: nat)
    requires PairAt(s, j, {'x'}) && forall k :: 0 <= k < j ==> !PairAt(s, k, {'x'})
    requires AllDigits(s[j + 1..])
    ensures Pricing.ParseJambThickness(s) == DigitsValue(s[j + 1..])
  {
    FirstPairIs(s, {'x'}, j);
    GroupAfterOfDigitTail(s, j);
  }

  /** In "<code> <a>x<b>" the `x` of the dimensions is the first `x` between two digits. */
  lemma NoPairBeforeDims(code: string, a: string, b: string)
    requires forall i :: 0 <= i < |code| ==> !PairAt(code, i, {'x'})
    requires |a| > 0 && AllDigits(a) && |b| > 0 && AllDigits(b)
    ensures var s := code + " " + (a + "x" + b);
            && PairAt(s, |code| + 1 + |a|, {'x'})
            && (forall k :: 0 <= k < |code| + 1 + |a| ==> !PairAt(s, k, {'x'}))
            && s[|code| + 1 + |a| + 1..] == b
  {
    var s := code + " " + (a + "x" + b);
    ProfileNameChars(code, a, b);
    var j := |code| + 1 + |a|;
    assert s[j - 1] == a[|a| - 1];
    assert s[j + 1] == b[0];
    forall k | 0 <= k < j ensures !PairAt(s, k, {'x'}) {
      if 0 < k < |code| - 1 {
        assert s[k - 1] == code[k - 1] && s[k] == code[k] && s[k + 1] == code[k + 1];
        assert !PairAt(code, k, {'x'});
      } else if k > |code| {
        assert s[k] == a[k - |code| - 1];
      }
    }
  }

  /** When everything after position `j` is digits, the group after `j` is all of it. */
  lemma GroupAfterOfDigitTail(s: string, j: nat)
    requires j < |s| && AllDigits(s[j + 1..])
    ensures GroupAfter(s, j) == s[j + 1..]
  {
    var g := GroupAfter(s, j);
  }

  /** The number after the last `x` of "<a>x<b>" is b. */
  lemma WordThicknessOfDims(a: string, b: string)
    requires |b| > 0 && AllDigits(b)
    ensures WordThickness(a + "x" + b) == DigitsValue(b) as real
  {
    assert forall i :: 0 <= i < |b| ==> b[i] != 'x';
    LastSegmentAfterSep(a, 'x', b);
    ParseDecimalOfDigits(b);
  }

  /** In "<code> <a>x<b>" with no `x` in the code, the first word with an `x` is the second. */
  lemma FirstXWordOfProfileName(code: string, a: string, b: string)
    requires |code| > 0 && forall i :: 0 <= i < |code| ==> !IsSpace(code[i]) && code[i] != 'x'
    requires AllDigits(a) && AllDigits(b)
    ensures ExtractJambThickness(code + " " + (a + "x" + b)) == WordThickness(a + "x" + b)
  {
    var dims := a + "x" + b;
    NoSpaceInDims(a, b);
    WordsOfProfileName(code, dims);
    var ws := Words(code + " " + dims);
    assert ws[0] == code && ws[1] == dims;
    assert !HasX(code) by {
      forall i | 0 <= i < |code| ensures code[i] != 'x' { }
    }
    assert HasX(dims) by {
      assert dims[|a|] == 'x';
    }
    ExtractJambThicknessFirstXWord(code + " " + dims, 1);
  }

  /** The production parser reads the digits after the `x` of "<code> <digits>x<digits>"
      when the code has no `x`. */
  lemma ExtractJambThicknessOfProfileName(code: string, a: string, b: string)
    requires |code| > 0 && forall i :: 0 <= i < |code| ==> !IsSpace(code[i]) && code[i] != 'x'
    requires |a| > 0 && AllDigits(a) && |b| > 0 && AllDigits(b)
    ensures ExtractJambThickness(code + " " + (a + "x" + b)) == DigitsValue(b) as real
  {
    FirstXWordOfProfileName(code, a, b);
    WordThicknessOfDims(a, b);
  }

  /** For a profile name "<code> <digits>x<digits>" whose code has no `x`, the production
      parser and the quoting parser (Pricing.ParseJambThickness) read the same thickness: the
      digits after the `x`. */
  lemma ThicknessParsersAgree(code: string, a: string, b: string)
    requires |code| > 0 && forall i :: 0 <= i < |code| ==> !IsSpace(code[i]) && code[i] != 'x'
    requires |a| > 0 && AllDigits(a) && |b| > 0 && AllDigits(b)
    ensures ExtractJambThickness(code + " " + (a + "x" + b)) == Pricing.ParseJambThickness(code + " " + (a + "x" + b)) as real
  {
    ExtractJambThicknessOfProfileName(code, a, b);
    forall i | 0 <= i < |code| ensures !PairAt(code, i, {'x'}) {
      assert code[i] != 'x';
    }
    ParseJambThicknessOfProfileName(code, a, b);
  }

  /** The two parsers differ when a word before the dimensions contains an `x` but no number
      after its last `x`: production gives up on that first word and uses 18, quoting skips it
      and reads the dimensions. */
  lemma ThicknessParsersDiverge(code: string, a: string, b: string)
    requires |code| > 0 && forall i :: 0 <= i < |code| ==> !IsSpace(code[i])
    requires HasX(code) && ParseDecimal(LastSegment(code, 'x')).None?
    requires forall i :: 0 <= i < |code| ==> !PairAt(code, i, {'x'})
    requires |a| > 0 && AllDigits(a) && |b| > 0 && AllDigits(b)
    ensures ExtractJambThickness(code + " " + (a + "x" + b)) == 18.0
    ensures Pricing.ParseJambThickness(code + " " + (a + "x" + b)) == DigitsValue(b)
  {
    var dims := a + "x" + b;
    NoSpaceInDims(a, b);
    WordsOfProfileName(code, dims);
    ExtractJambThicknessFirstXWord(code + " " + dims, 0);
    ParseJambThicknessOfProfileName(code, a, b);
  }

  /** "Box 92x30": production reads 18, quoting reads 30. */
  lemma ThicknessParsersDivergeExample()
    ensures ExtractJambThickness("Box" + " " + ("92" + "x" + "30")) == 18.0
    ensures Pricing.ParseJambThickness("Box" + " " + ("92" + "x" + "30")) == 30
  {
    assert "Box"[2] == 'x';
    assert LastSegment("Box", 'x') == "";
    ThicknessParsersDiverge("Box", "92", "30");
  }

  // ---------------------------------------------------------------
  // production calculation rows (lines 210-250)
  // ---------------------------------------------------------------

  /** The calculated frame of one door set. */
  datatype CalcRow = CalcRow(doorNo: string, quoteLine: nat, leafType: string, leafHeight: int, finalHeight: int,
                             width: int, jambType: string, form: string, legMm: int, headMm: real,
                             totalFrameM: real, totalStopM: real, measured: bool)

  /** Final height of a measured door, written out in place: it agrees with calc_final_height. */
  function FinalHeightOf(d: DoorRow): (h: int)
    ensures h == CalcFinalHeight(d.height, d.undercut, d.finishedFloorHeight)
  {
    d.height + 3 + d.undercut + d.finishedFloorHeight
  }

  /** A door's calculation row: legs as long as the final height, the production head, and
      frame and stop metres for one set. */
  function CalcRowOf(d: DoorRow): (c: CalcRow)
    ensures c.finalHeight == c.legMm == CalcFinalHeight(d.height, d.undercut, d.finishedFloorHeight)
    ensures c.headMm == CalcHeadLength(d.width as real, ExtractJambThickness(d.jambType), d.form)
    ensures c.totalFrameM * 1000.0 == 2.0 * c.legMm as real + c.headMm && c.totalStopM == c.totalFrameM
    ensures c.doorNo == d.doorNo && c.jambType == d.jambType && c.form == d.form && c.width == d.width
  {
    var finalH := FinalHeightOf(d);
    var head := CalcHeadLength(d.width as real, ExtractJambThickness(d.jambType), d.form);
    var lengths := CalcFrameLengths(finalH as real, head, 1);
    CalcRow(d.doorNo, d.quoteLine, d.leafType, d.height, finalH, d.width, d.jambType, d.form, finalH, head,
            lengths.totalFrameM, lengths.totalStopM, d.measured)
  }

  /** With the default measurements (20 mm undercut, no floor build-up) the production leg is
      the leg the quote priced: leaf height plus 23 mm. */
  lemma DefaultLegIsQuotedLeg(lines: seq<Estimator.QuoteLine>, k: nat)
    requires k < |Expanded(lines)|
    ensures CalcRowOf(Expanded(lines)[k]).legMm == Expanded(lines)[k].height + Pricing.LegAllowanceMm
  {
    ExpandedShape(lines);
  }

  /** One calculation row per door row, in order. */
  method CalcRows(doors: seq<DoorRow>) returns (rows: seq<CalcRow>)
    ensures |rows| == |doors|
    ensures forall k :: 0 <= k < |doors| ==> rows[k] == CalcRowOf(doors[k])
  {
    rows := [];
    var k := 0;
    while k < |doors|
      invariant 0 <= k <= |doors|
      invariant |rows| == k
      invariant forall i :: 0 <= i < k ==> rows[i] == CalcRowOf(doors[i])
    {
      rows := rows + [CalcRowOf(doors[k])];
      k := k + 1;
    }
  }

  // ---------------------------------------------------------------
  // door blanks (lines 273-279)
  // ---------------------------------------------------------------

  /** Door blanks a quote line needs: its quantity times one leaf for a single, two otherwise. */
  function BlankCount(line: Estimator.QuoteLine): (n: int)
    ensures n == line.qty * Estimator.LeafMultiplier(line.form)
  {
    line.qty * (if line.form == "Single" then 1 else 2)
  }

  /** The blanks are exactly the leaves the quote charged for: a costed line's leaf cost over
      all its sets is the per-leaf price times its blank count. */
  lemma BlanksAreChargedLeaves(s: Estimator.Settings, d: Estimator.DoorInput, leafCost: real,
                               counts: Estimator.HingeCounts, sku: string, desc: string, cust: string, proj: string)
    requires d.jamb in s.framePrices && Estimator.StopProfile in s.framePrices
    ensures var line := Estimator.CostLine(s, d, leafCost, counts, sku, desc, cust, proj);
            line.leafCost * line.qty as real == leafCost * BlankCount(line) as real
  {
    var line := Estimator.CostLine(s, d, leafCost, counts, sku, desc, cust, proj);
    var m := Estimator.LeafMultiplier(d.form) as real;
    assert line.leafCost * line.qty as real == leafCost * (m * d.qty as real);
  }

  // ---------------------------------------------------------------
  // piece lists (lines 291, 352-359, 368-373)
  // ---------------------------------------------------------------

  /** Python's `int()` of a float: truncation toward zero. */
  function Trunc(x: real): (n: int)
    ensures x >= 0.0 ==> n as real <= x < n as real + 1.0
    ensures x < 0.0 ==> n as real - 1.0 < x <= n as real
  {
    if x >= 0.0 then x.Floor else -((-x).Floor)
  }

  /** The pieces of a set of calculation rows: per row, the leg twice and then the head
      truncated to whole millimetres. */
  function PieceList(rows: seq<CalcRow>): (ps: seq<int>)
    ensures |ps| == 3 * |rows|
  {
    if |rows| == 0 then []
    else
      var r := rows[|rows| - 1];
      PieceList(rows[..|rows| - 1]) + [r.legMm, r.legMm, Trunc(r.headMm)]
  }

  /** Row i owns pieces 3i, 3i+1 (its legs) and 3i+2 (its head). */
  lemma {:induction false} PieceLayout(rows: seq<CalcRow>, i: nat)
    requires i < |rows|
    ensures PieceList(rows)[3 * i] == rows[i].legMm && PieceList(rows)[3 * i + 1] == rows[i].legMm
    ensures PieceList(rows)[3 * i + 2] == Trunc(rows[i].headMm)
  {
    if i < |rows| - 1 {
      PieceLayout(rows[..|rows| - 1], i);
    }
  }

  method BuildPieces(rows: seq<CalcRow>) returns (pieces: seq<int>)
    ensures pieces == PieceList(rows)
  {
    pieces := [];
    var k := 0;
    while k < |rows|
      invariant 0 <= k <= |rows|
      invariant pieces == PieceList(rows[..k])
    {
      var leg := rows[k].legMm;
      var head := Trunc(rows[k].headMm);
      pieces := pieces + [leg, leg];
      pieces := pieces + [head];
      assert rows[..k + 1][..k] == rows[..k];
      k := k + 1;
    }
    assert rows[..|rows|] == rows;
  }

  /** Number of whitespace characters before the first word. */
  function LeadingSpaces(s: string): (k: nat)
    ensures k <= |s| && (forall i :: 0 <= i < k ==> IsSpace(s[i])) && (k < |s| ==> !IsSpace(s[k]))
  {
    if |s| == 0 || !IsSpace(s[0]) then 0 else 1 + LeadingSpaces(s[1..])
  }

  /** The profile of a jamb type: its first word. */
  function JambProfile(jambType: string): (p: string)
    requires |Words(jambType)| > 0
    ensures |p| > 0
  {
    Words(jambType)[0]
  }

  /** The profile is the text right after the leading whitespace, up to the next whitespace
      or the end, and contains no whitespace itself. */
  lemma JambProfileShape(jambType: string)
    requires |Words(jambType)| > 0
    ensures var p, lead := JambProfile(jambType), LeadingSpaces(jambType);
            && (forall i :: 0 <= i < |p| ==> !IsSpace(p[i]))
            && lead + |p| <= |jambType|
            && p == jambType[lead..lead + |p|]
            && (lead + |p| == |jambType| || IsSpace(jambType[lead + |p|]))
  {
    FirstWordPosition(jambType);
  }

  /** The first word starts after the leading whitespace and runs to the next whitespace or
      the end. */
  lemma FirstWordPosition(s: string)
    requires |Words(s)| > 0
    ensures var w, lead := Words(s)[0], LeadingSpaces(s);
            && lead + |w| <= |s|
            && w == s[lead..lead + |w|]
            && (lead + |w| == |s| || IsSpace(s[lead + |w|]))
  {
    var lead := LeadingSpaces(s);
    WordsSkipLeadingSpaces(s);
    var t := s[lead..];
    assert lead < |s| && t[0] == s[lead];
    FirstWordOf(t);
    var n := WordLength(t);
    SliceOfSuffix(s, lead, n);
    assert Words(s)[0] == s[lead..lead + n] && |Words(s)[0]| == n;
    if lead + n < |s| {
      assert t[n] == s[lead + n];
    }
  }

  lemma SliceOfSuffix(s: string, start: nat, n: nat)
    requires start + n <= |s|
    ensures s[start..][..n] == s[start..start + n]
  {
  }

  /** A text that starts with a non-space character starts with its first word. */
  lemma FirstWordOf(t: string)
    requires |t| > 0 && !IsSpace(t[0])
    ensures Words(t)[0] == t[..WordLength(t)]
  {
  }

  /** Leading whitespace does not change the words. */
  lemma {:induction false} WordsSkipLeadingSpaces(s: string)
    ensures Words(s) == Words(s[LeadingSpaces(s)..])
    ensures LeadingSpaces(s) == |s| ==> Words(s) == []
    decreases |s|
  {
    if |s| > 0 && IsSpace(s[0]) {
      WordsSkipLeadingSpaces(s[1..]);
      assert s[1..][LeadingSpaces(s[1..])..] == s[LeadingSpaces(s)..];
    }
  }

  predicate Profiled(rows: seq<CalcRow>)
  {
    forall i :: 0 <= i < |rows| ==> |Words(rows[i].jambType)| > 0
  }

  /** The profile column added to the calculation rows (line 291). */
  function ProfileColumn(rows: seq<CalcRow>): (col: seq<string>)
    requires Profiled(rows)
    ensures |col| == |rows| && forall i :: 0 <= i < |rows| ==> col[i] == JambProfile(rows[i].jambType)
  {
    seq(|rows|, i requires 0 <= i < |rows| => JambProfile(rows[i].jambType))
  }

  /** The rows whose profile (column `col`) is `prof`, in order: one group of the group-by. */
  function ProfileRows(rows: seq<CalcRow>, col: seq<string>, prof: string): seq<CalcRow>
    requires |col| == |rows|
  {
    if |rows| == 0 then []
    else
      var n := |rows| - 1;
      ProfileRows(rows[..n], col[..n], prof) + (if col[n] == prof then [rows[n]] else [])
  }

  /** The rows of every other profile, in order. */
  function OtherRows(rows: seq<CalcRow>, col: seq<string>, prof: string): seq<CalcRow>
    requires |col| == |rows|
  {
    if |rows| == 0 then []
    else
      var n := |rows| - 1;
      OtherRows(rows[..n], col[..n], prof) + (if col[n] != prof then [rows[n]] else [])
  }

  lemma {:induction false} PieceListAppend(a: seq<CalcRow>, b: seq<CalcRow>)
    ensures PieceList(a + b) == PieceList(a) + PieceList(b)
  {
    if |b| > 0 {
      assert (a + b)[..|a + b| - 1] == a + b[..|b| - 1];
      PieceListAppend(a, b[..|b| - 1]);
    } else {
      assert a + b == a;
    }
  }

  lemma PartitionStep(whole: seq<int>, mine: seq<int>, others: seq<int>,
                       whole': seq<int>, mine': seq<int>, others': seq<int>, t: seq<int>)
    requires multiset(whole) == multiset(mine) + multiset(others)
    requires whole' == whole + t
    requires (mine' == mine + t && others' == others) || (mine' == mine && others' == others + t)
    ensures multiset(whole') == multiset(mine') + multiset(others')
  {
  }

  lemma PieceListSnoc(a: seq<CalcRow>, r: CalcRow)
    ensures PieceList(a + [r]) == PieceList(a) + [r.legMm, r.legMm, Trunc(r.headMm)]
  {
    assert (a + [r])[..|a|] == a;
  }

  /** The piece lists after adding a last row of profile `prof`: it joins that group. */
  lemma LastRowInProfile(rows: seq<CalcRow>, col: seq<string>, prof: string)
    requires |col| == |rows| > 0 && col[|rows| - 1] == prof
    ensures var n := |rows| - 1;
            var t := [rows[n].legMm, rows[n].legMm, Trunc(rows[n].headMm)];
            && PieceList(ProfileRows(rows, col, prof)) == PieceList(ProfileRows(rows[..n], col[..n], prof)) + t
            && PieceList(OtherRows(rows, col, prof)) == PieceList(OtherRows(rows[..n], col[..n], prof))
  {
    var n := |rows| - 1;
    var mine := ProfileRows(rows[..n], col[..n], prof);
    assert ProfileRows(rows, col, prof) == mine + [rows[n]];
    assert OtherRows(rows, col, prof) == OtherRows(rows[..n], col[..n], prof) + [];
    assert OtherRows(rows, col, prof) == OtherRows(rows[..n], col[..n], prof);
    PieceListSnoc(mine, rows[n]);
  }

  /** The piece lists after adding a last row of another profile: it joins the others. */
  lemma LastRowElsewhere(rows: seq<CalcRow>, col: seq<string>, prof: string)
    requires |col| == |rows| > 0 && col[|rows| - 1] != prof
    ensures var n := |rows| - 1;
            var t := [rows[n].legMm, rows[n].legMm, Trunc(rows[n].headMm)];
            && PieceList(ProfileRows(rows, col, prof)) == PieceList(ProfileRows(rows[..n], col[..n], prof))
            && PieceList(OtherRows(rows, col, prof)) == PieceList(OtherRows(rows[..n], col[..n], prof)) + t
  {
    var n := |rows| - 1;
    var others := OtherRows(rows[..n], col[..n], prof);
    assert ProfileRows(rows, col, prof) == ProfileRows(rows[..n], col[..n], prof) + [];
    assert ProfileRows(rows, col, prof) == ProfileRows(rows[..n], col[..n], prof);
    assert OtherRows(rows, col, prof) == others + [rows[n]];
    PieceListSnoc(others, rows[n]);
  }

  /** The stop pieces (every row) are the pieces of one jamb profile together with those of
      all the others: no piece is lost or duplicated by splitting into profiles. */
  lemma {:induction false} ProfilesPartitionPieces(rows: seq<CalcRow>, col: seq<string>, prof: string)
    requires |col| == |rows|
    ensures multiset(PieceList(rows)) ==
            multiset(PieceList(ProfileRows(rows, col, prof))) + multiset(PieceList(OtherRows(rows, col, prof)))
  {
    if |rows| > 0 {
      var n := |rows| - 1;
      var t := [rows[n].legMm, rows[n].legMm, Trunc(rows[n].headMm)];
      ProfilesPartitionPieces(rows[..n], col[..n], prof);
      assert PieceList(rows) == PieceList(rows[..n]) + t;
      if col[n] == prof {
        LastRowInProfile(rows, col, prof);
      } else {
        LastRowElsewhere(rows, col, prof);
      }
      PartitionStep(PieceList(rows[..n]), PieceList(ProfileRows(rows[..n], col[..n], prof)),
                    PieceList(OtherRows(rows[..n], col[..n], prof)),
                    PieceList(rows), PieceList(ProfileRows(rows, col, prof)), PieceList(OtherRows(rows, col, prof)), t);
    }
  }

  // ---------------------------------------------------------------
  // jamb and stop metres (lines 291-307), stock summary (lines 327-337)
  // ---------------------------------------------------------------

  /** Total frame metres of some calculation rows. */
  function FrameMetres(rows: seq<CalcRow>): real
  {
    if |rows| == 0 then 0.0 else FrameMetres(rows[..|rows| - 1]) + rows[|rows| - 1].totalFrameM
  }

  /** Total stop metres of some calculation rows. */
  function StopMetres(rows: seq<CalcRow>): real
  {
    if |rows| == 0 then 0.0 else StopMetres(rows[..|rows| - 1]) + rows[|rows| - 1].totalStopM
  }

  lemma {:induction false} FrameMetresAppend(a: seq<CalcRow>, b: seq<CalcRow>)
    ensures FrameMetres(a + b) == FrameMetres(a) + FrameMetres(b)
  {
    if |b| > 0 {
      var n := |b| - 1;
      assert (a + b)[..|a| + n] == a + b[..n];
      FrameMetresAppend(a, b[..n]);
    } else {
      assert a + b == a;
    }
  }

  /** The per-profile jamb metres add up to the metres of all rows: grouping by profile loses
      and double-counts nothing. */
  lemma {:induction false} ProfileMetresPartition(rows: seq<CalcRow>, col: seq<string>, prof: string)
    requires |col| == |rows|
    ensures FrameMetres(rows) == FrameMetres(ProfileRows(rows, col, prof)) + FrameMetres(OtherRows(rows, col, prof))
  {
    if |rows| > 0 {
      var n := |rows| - 1;
      var r := rows[n];
      ProfileMetresPartition(rows[..n], col[..n], prof);
      assert [r][..0] == [];
      FrameMetresAppend(ProfileRows(rows[..n], col[..n], prof), if col[n] == prof then [r] else []);
      FrameMetresAppend(OtherRows(rows[..n], col[..n], prof), if col[n] != prof then [r] else []);
    }
  }

  /** Stops run wherever jambs do: the stop metres equal the frame metres of every set of
      calculation rows. */
  lemma {:induction false} StopMetresAreFrameMetres(doors: seq<DoorRow>, rows: seq<CalcRow>)
    requires |rows| == |doors| && forall k :: 0 <= k < |doors| ==> rows[k] == CalcRowOf(doors[k])
    ensures StopMetres(rows) == FrameMetres(rows)
  {
    if |rows| > 0 {
      var n := |rows| - 1;
      StopMetresAreFrameMetres(doors[..n], rows[..n]);
    }
  }

  /** One row of the stock summary: the metres of one jamb profile and the stock bought for
      them under the jamb strategy. */
  method ProfileStockSummary(rows: seq<CalcRow>, col: seq<string>, prof: string, mode: string)
    returns (meters: real, s: StockCount)
    requires |col| == |rows|
    ensures meters == FrameMetres(ProfileRows(rows, col, prof))
    ensures mode == "Only 5.4" ==> s == Only54(meters)
    ensures mode == "Only 2.1" ==> s == Only21(meters)
    ensures mode != "Only 5.4" && mode != "Only 2.1" ==> s == MixSpec(meters)
    ensures s.waste == Bought(s) - meters
  {
    meters := FrameMetres(ProfileRows(rows, col, prof));
    s := ApplyStockStrategy(meters, mode);
  }

  /** Stock lengths (mm) a cut list may use under a stock strategy. */
  function StockSet(mode: string): (stocks: seq<int>)
    ensures |stocks| > 0
    ensures forall i :: 0 <= i < |stocks| ==> stocks[i] as real == 1000.0 * LongStockM || stocks[i] as real == 1000.0 * ShortStockM
    ensures mode == "Only 5.4" ==> forall i :: 0 <= i < |stocks| ==> stocks[i] as real == 1000.0 * LongStockM
    ensures mode == "Only 2.1" ==> forall i :: 0 <= i < |stocks| ==> stocks[i] as real == 1000.0 * ShortStockM
    ensures mode != "Only 5.4" && mode != "Only 2.1" ==> 2100 in stocks && 5400 in stocks
  {
    if mode == "Only 5.4" then [5400] else if mode == "Only 2.1" then [2100] else [2100, 5400]
  }

  // ---------------------------------------------------------------
  // build_cut_list: first-fit decreasing
  // ---------------------------------------------------------------

  /** An open stock length: its length, the cuts taken from it in order, and their total. */
  datatype Bin = Bin(stock: int, cuts: seq<int>, used: int)

  /** A row of the cut list. */
  datatype CutRow = CutRow(stock: int, cuts: seq<int>, used: int, waste: int)

  predicate NonIncreasing(s: seq<int>)
  {
    forall i, j :: 0 <= i < j < |s| ==> s[i] >= s[j]
  }

  function InsertDesc(x: int, s: seq<int>): (r: seq<int>)
    ensures multiset(r) == multiset(s) + multiset{x} && |r| == |s| + 1
  {
    if |s| == 0 then [x]
    else if x >= s[0] then [x] + s
    else
      assert s == [s[0]] + s[1..];
      [s[0]] + InsertDesc(x, s[1..])
  }

  /** Inserting a value no larger than a bound into values no larger than it keeps them so. */
  lemma {:induction false} InsertDescBounded(x: int, s: seq<int>, m: int)
    requires x <= m && forall i :: 0 <= i < |s| ==> s[i] <= m
    ensures forall i :: 0 <= i < |s| + 1 ==> InsertDesc(x, s)[i] <= m
  {
    if |s| > 0 && x < s[0] {
      InsertDescBounded(x, s[1..], m);
    }
  }

  /** Insertion keeps a non-increasing sequence non-increasing. */
  lemma {:induction false} InsertDescSorted(x: int, s: seq<int>)
    requires NonIncreasing(s)
    ensures NonIncreasing(InsertDesc(x, s))
  {
    if |s| > 0 && x < s[0] {
      InsertDescSorted(x, s[1..]);
      InsertDescBounded(x, s[1..], s[0]);
    }
  }

  /** `sorted(pieces, reverse=True)`. */
  function SortDesc(s: seq<int>): (r: seq<int>)
    ensures NonIncreasing(r) && multiset(r) == multiset(s) && |r| == |s|
  {
    if |s| == 0 then []
    else
      assert s == [s[0]] + s[1..];
      InsertDescSorted(s[0], SortDesc(s[1..]));
      InsertDesc(s[0], SortDesc(s[1..]))
  }

  function SmallestFitting(stocks: seq<int>, p: int): (r: Option<int>)
    ensures r.Some? ==> r.value in stocks && p <= r.value && forall s :: s in stocks && p <= s ==> r.value <= s
    ensures r.None? ==> forall s :: s in stocks ==> s < p
  {
    if |stocks| == 0 then None
    else
      assert stocks == [stocks[0]] + stocks[1..];
      match SmallestFitting(stocks[1..], p)
      case None => if p <= stocks[0] then Some(stocks[0]) else None
      case Some(v) => if p <= stocks[0] && stocks[0] < v then Some(stocks[0]) else Some(v)
  }

  function MaxOf(stocks: seq<int>): (m: int)
    requires |stocks| > 0
    ensures m in stocks && forall s :: s in stocks ==> s <= m
  {
    if |stocks| == 1 then stocks[0]
    else
      assert stocks == [stocks[0]] + stocks[1..];
      var rest := MaxOf(stocks[1..]);
      if stocks[0] >= rest then stocks[0] else rest
  }

  /** The stock length a new bin for piece `p` is cut from: the shortest one that holds it,
      else the longest one. */
  function ChooseStock(stocks: seq<int>, p: int): (c: int)
    requires |stocks| > 0
    ensures c in stocks
    ensures (exists s :: s in stocks && p <= s) ==> p <= c && forall s :: s in stocks && p <= s ==> c <= s
    ensures (forall s :: s in stocks ==> s < p) ==> forall s :: s in stocks ==> s <= c
  {
    match SmallestFitting(stocks, p)
    case Some(v) => v
    case None => MaxOf(stocks)
  }

  predicate Fits(b: Bin, p: int)
  {
    p <= b.stock - b.used
  }

  /** First fit: the piece goes into the first open bin with room for it, otherwise into a new
      bin at the end. */
  function Place(bins: seq<Bin>, p: int, stocks: seq<int>): seq<Bin>
    requires |stocks| > 0
  {
    match FirstIndex(bins, (b: Bin) => Fits(b, p))
    case Some(i) => bins[i := Bin(bins[i].stock, bins[i].cuts + [p], bins[i].used + p)]
    case None => bins + [Bin(ChooseStock(stocks, p), [p], p)]
  }

  /** Placing extends the first bin with room, and only when no bin has room opens a new one,
      cut from the chosen stock length. */
  lemma PlaceFirstFit(bins: seq<Bin>, p: int, stocks: seq<int>, i: nat)
    requires |stocks| > 0
    ensures i < |bins| && Fits(bins[i], p) && (forall j :: 0 <= j < i ==> !Fits(bins[j], p)) ==>
              Place(bins, p, stocks) == bins[i := Bin(bins[i].stock, bins[i].cuts + [p], bins[i].used + p)]
    ensures (forall j :: 0 <= j < |bins| ==> !Fits(bins[j], p)) ==>
              Place(bins, p, stocks) == bins + [Bin(ChooseStock(stocks, p), [p], p)]
  {
    if i < |bins| && Fits(bins[i], p) && (forall j :: 0 <= j < i ==> !Fits(bins[j], p)) {
      FirstIndexIsFirstHit(bins, (b: Bin) => Fits(b, p), i);
    }
  }

  /** The bins after placing the pieces one by one in the given order. */
  function PackAll(pieces: seq<int>, stocks: seq<int>): seq<Bin>
    requires |stocks| > 0 || |pieces| == 0
  {
    if |pieces| == 0 then []
    else Place(PackAll(pieces[..|pieces| - 1], stocks), pieces[|pieces| - 1], stocks)
  }

  function ToRow(b: Bin): CutRow
  {
    CutRow(b.stock, b.cuts, b.used, b.stock - b.used)
  }

  function Rows(bins: seq<Bin>): (rows: seq<CutRow>)
    ensures |rows| == |bins|
    ensures forall i :: 0 <= i < |bins| ==> rows[i] == ToRow(bins[i])
  {
    if |bins| == 0 then [] else Rows(bins[..|bins| - 1]) + [ToRow(bins[|bins| - 1])]
  }

  /** The cut list: first-fit decreasing over the given stock lengths. */
  function CutList(pieces: seq<int>, stocks: seq<int>): seq<CutRow>
    requires |stocks| > 0 || |pieces| == 0
  {
    Rows(PackAll(SortDesc(pieces), stocks))
  }

  /** One step of the builder: the first bin with room takes the piece, otherwise a new bin
      is opened for it from the chosen stock length. */
  method PlacePiece(bundles: seq<Bin>, p: int, stockLengths: seq<int>) returns (r: seq<Bin>)
    requires |stockLengths| > 0
    ensures r == Place(bundles, p, stockLengths)
  {
    var i := 0;
    while i < |bundles|
      invariant 0 <= i <= |bundles|
      invariant forall j :: 0 <= j < i ==> !Fits(bundles[j], p)
    {
      if p <= bundles[i].stock - bundles[i].used {
        PlaceFirstFit(bundles, p, stockLengths, i);
        return bundles[i := Bin(bundles[i].stock, bundles[i].cuts + [p], bundles[i].used + p)];
      }
      i := i + 1;
    }
    var chosen := ChooseStock(stockLengths, p);
    r := bundles + [Bin(chosen, [p], p)];
    PlaceFirstFit(bundles, p, stockLengths, 0);
  }

  /** Packing one more piece of a list places it into the bins of the pieces before it. */
  lemma PackAllStep(ps: seq<int>, k: nat, stocks: seq<int>)
    requires |stocks| > 0 && k < |ps|
    ensures PackAll(ps[..k + 1], stocks) == Place(PackAll(ps[..k], stocks), ps[k], stocks)
  {
    assert ps[..k + 1][..k] == ps[..k];
  }

  /** Builds the cut list for a set of pieces. `max(stocks)` is evaluated whenever a piece is
      placed, so stock lengths are needed unless there are no pieces. */
  method BuildCutList(pieceLengths: seq<int>, stockLengths: seq<int>) returns (rows: seq<CutRow>)
    requires |stockLengths| > 0 || |pieceLengths| == 0
    ensures rows == CutList(pieceLengths, stockLengths)
  {
    var pieces := SortDesc(pieceLengths);
    var bundles: seq<Bin> := [];
    var k := 0;
    while k < |pieces|
      invariant 0 <= k <= |pieces|
      invariant bundles == PackAll(pieces[..k], stockLengths)
    {
      PackAllStep(pieces, k, stockLengths);
      bundles := PlacePiece(bundles, pieces[k], stockLengths);
      k := k + 1;
    }
    assert pieces[..|pieces|] == pieces;
    rows := CutRows(bundles);
  }

  /** The output rows, one per bin in opening order, with the waste left on each. */
  method CutRows(bundles: seq<Bin>) returns (rows: seq<CutRow>)
    ensures rows == Rows(bundles)
  {
    rows := [];
    var j := 0;
    while j < |bundles|
      invariant 0 <= j <= |bundles|
      invariant rows == Rows(bundles[..j])
    {
      rows := rows + [ToRow(bundles[j])];
      assert bundles[..j + 1][..j] == bundles[..j];
      j := j + 1;
    }
    assert bundles[..|bundles|] == bundles;
  }

  // ---------------------------------------------------------------
  // What the cut list guarantees
  // ---------------------------------------------------------------

  /** Total length of a list of cuts. */
  function SumCuts(cuts: seq<int>): int
  {
    if |cuts| == 0 then 0 else SumCuts(cuts[..|cuts| - 1]) + cuts[|cuts| - 1]
  }

  /** A bin as the builder leaves it: cut from the stock length chosen for its first piece,
      `used` the total of its cuts, and within its stock unless it holds a single piece longer
      than every stock length. */
  predicate GoodBin(b: Bin, stocks: seq<int>)
    requires |stocks| > 0
  {
    && |b.cuts| > 0
    && b.stock == ChooseStock(stocks, b.cuts[0])
    && b.used == SumCuts(b.cuts)
    && (b.used <= b.stock || (|b.cuts| == 1 && forall s :: s in stocks ==> s < b.cuts[0]))
  }

  predicate GoodBins(bins: seq<Bin>, stocks: seq<int>)
    requires |stocks| > 0
  {
    forall i :: 0 <= i < |bins| ==> GoodBin(bins[i], stocks)
  }

  lemma PlaceKeepsGoodBins(bins: seq<Bin>, p: int, stocks: seq<int>)
    requires |stocks| > 0 && GoodBins(bins, stocks)
    ensures GoodBins(Place(bins, p, stocks), stocks)
  {
    match FirstIndex(bins, (b: Bin) => Fits(b, p))
    case Some(i) =>
      var b := bins[i];
      var b' := Bin(b.stock, b.cuts + [p], b.used + p);
      assert (b.cuts + [p])[..|b.cuts|] == b.cuts;
      assert (b.cuts + [p])[0] == b.cuts[0];
      assert GoodBin(b', stocks);
    case None =>
      var c := ChooseStock(stocks, p);
      assert [p][..0] == [];
      assert p <= c || forall s :: s in stocks ==> s < p;
      assert GoodBin(Bin(c, [p], p), stocks);
  }

  lemma {:induction false} PackAllGoodBins(pieces: seq<int>, stocks: seq<int>)
    requires |stocks| > 0
    ensures GoodBins(PackAll(pieces, stocks), stocks)
  {
    if |pieces| > 0 {
      PackAllGoodBins(pieces[..|pieces| - 1], stocks);
      PlaceKeepsGoodBins(PackAll(pieces[..|pieces| - 1], stocks), pieces[|pieces| - 1], stocks);
    }
  }

  /** Every cut in the bins is at least `m`. */
  predicate CutsAtLeast(bins: seq<Bin>, m: int)
  {
    forall i, j :: 0 <= i < |bins| && 0 <= j < |bins[i].cuts| ==> bins[i].cuts[j] >= m
  }

  predicate CutsOrdered(bins: seq<Bin>)
  {
    forall i :: 0 <= i < |bins| ==> NonIncreasing(bins[i].cuts)
  }

  lemma PlaceKeepsOrder(bins: seq<Bin>, p: int, stocks: seq<int>)
    requires |stocks| > 0 && CutsOrdered(bins) && CutsAtLeast(bins, p)
    ensures CutsOrdered(Place(bins, p, stocks)) && CutsAtLeast(Place(bins, p, stocks), p)
  {
    match FirstIndex(bins, (b: Bin) => Fits(b, p))
    case Some(i) =>
      var cuts := bins[i].cuts + [p];
      assert NonIncreasing(cuts);
    case None =>
  }

  /** Placing pieces longest first leaves every bin's cuts longest first. */
  lemma {:induction false} PackAllOrdered(pieces: seq<int>, stocks: seq<int>)
    requires |stocks| > 0 && NonIncreasing(pieces) && |pieces| > 0
    ensures CutsOrdered(PackAll(pieces, stocks)) && CutsAtLeast(PackAll(pieces, stocks), pieces[|pieces| - 1])
  {
    var n := |pieces| - 1;
    var prev := PackAll(pieces[..n], stocks);
    if n > 0 {
      PackAllOrdered(pieces[..n], stocks);
      assert CutsAtLeast(prev, pieces[n]);
    }
    PlaceKeepsOrder(prev, pieces[n], stocks);
  }

  /** All the cuts in the bins, as a bag. */
  function Bag(bins: seq<Bin>): multiset<int>
  {
    if |bins| == 0 then multiset{} else Bag(bins[..|bins| - 1]) + multiset(bins[|bins| - 1].cuts)
  }

  /** Replacing one bin by one holding `extra` more cuts adds `extra` to the bag. */
  lemma {:induction false} BagGrow(bins: seq<Bin>, i: nat, b: Bin, extra: multiset<int>)
    requires i < |bins| && multiset(b.cuts) == multiset(bins[i].cuts) + extra
    ensures Bag(bins[i := b]) == Bag(bins) + extra
  {
    var n := |bins| - 1;
    var upd := bins[i := b];
    BagOfLast(upd);
    BagOfLast(bins);
    if i < n {
      assert upd[..n] == bins[..n][i := b] && upd[n] == bins[n];
      BagGrow(bins[..n], i, b, extra);
      MultisetSwap(Bag(bins[..n]), extra, multiset(bins[n].cuts));
    } else {
      assert upd[..n] == bins[..n] && upd[n] == b;
      MultisetRegroup(Bag(bins[..n]), multiset(bins[n].cuts), extra);
    }
  }

  lemma BagOfLast(bins: seq<Bin>)
    requires |bins| > 0
    ensures Bag(bins) == Bag(bins[..|bins| - 1]) + multiset(bins[|bins| - 1].cuts)
  {
  }

  lemma MultisetSwap(a: multiset<int>, b: multiset<int>, c: multiset<int>)
    ensures a + b + c == a + c + b
  {
  }

  lemma MultisetRegroup(a: multiset<int>, b: multiset<int>, c: multiset<int>)
    ensures a + (b + c) == a + b + c
  {
  }

  lemma PlaceAddsToBag(bins: seq<Bin>, p: int, stocks: seq<int>)
    requires |stocks| > 0
    ensures Bag(Place(bins, p, stocks)) == Bag(bins) + multiset{p}
  {
    var after := Place(bins, p, stocks);
    match FirstIndex(bins, (b: Bin) => Fits(b, p))
    case Some(i) =>
      var b := bins[i];
      var b' := Bin(b.stock, b.cuts + [p], b.used + p);
      assert after == bins[i := b'];
      BagGrow(bins, i, b', multiset{p});
    case None =>
      var nb := Bin(ChooseStock(stocks, p), [p], p);
      assert after == bins + [nb];
      assert after[..|bins|] == bins;
      assert multiset(nb.cuts) == multiset{p};
  }

  /** No piece is lost or duplicated: the bins hold exactly the pieces placed. */
  lemma {:induction false} PackAllConservesPieces(pieces: seq<int>, stocks: seq<int>)
    requires |stocks| > 0 || |pieces| == 0
    ensures Bag(PackAll(pieces, stocks)) == multiset(pieces)
  {
    if |pieces| > 0 {
      var n := |pieces| - 1;
      assert pieces == pieces[..n] + [pieces[n]];
      assert multiset(pieces) == multiset(pieces[..n]) + multiset{pieces[n]};
      PackAllConservesPieces(pieces[..n], stocks);
      PlaceAddsToBag(PackAll(pieces[..n], stocks), pieces[n], stocks);
    }
  }

  /** All the cuts listed in the rows, as a bag. */
  function RowsBag(rows: seq<CutRow>): multiset<int>
  {
    if |rows| == 0 then multiset{} else RowsBag(rows[..|rows| - 1]) + multiset(rows[|rows| - 1].cuts)
  }

  lemma {:induction false} RowsBagOfBins(bins: seq<Bin>)
    ensures RowsBag(Rows(bins)) == Bag(bins)
  {
    if |bins| > 0 {
      var n := |bins| - 1;
      RowsBagOfBins(bins[..n]);
      assert Rows(bins)[..n] == Rows(bins[..n]);
    }
  }

  /** The cut list of a set of pieces: every piece appears exactly once; each row is cut from
      one of the stock lengths, the shortest that holds its first (longest) cut, else the
      longest stock; its cuts are longest first and add up to its used length; its waste is
      what is left of the stock; and it is over-used only when it holds a single piece longer
      than every stock length. */
  lemma CutListProperties(pieces: seq<int>, stocks: seq<int>)
    requires |stocks| > 0
    ensures RowsBag(CutList(pieces, stocks)) == multiset(pieces)
    ensures forall k :: 0 <= k < |CutList(pieces, stocks)| ==>
      var r := CutList(pieces, stocks)[k];
      && |r.cuts| > 0
      && r.stock in stocks
      && r.stock == ChooseStock(stocks, r.cuts[0])
      && NonIncreasing(r.cuts)
      && r.used == SumCuts(r.cuts)
      && r.waste == r.stock - r.used
      && (r.waste >= 0 || (|r.cuts| == 1 && forall s :: s in stocks ==> s < r.cuts[0]))
  {
    var sorted := SortDesc(pieces);
    var bins := PackAll(sorted, stocks);
    PackAllConservesPieces(sorted, stocks);
    RowsBagOfBins(bins);
    PackAllGoodBins(sorted, stocks);
    if |sorted| > 0 {
      PackAllOrdered(sorted, stocks);
    }
  }

  /** Sorting pieces that are already longest first leaves them as they are. */
  lemma {:induction false} SortDescOfSorted(s: seq<int>)
    requires NonIncreasing(s)
    ensures SortDesc(s) == s
  {
    if |s| > 0 {
      SortDescOfSorted(s[1..]);
      assert s == [s[0]] + s[1..];
    }
  }

  lemma PackAllSnoc(ps: seq<int>, p: int, stocks: seq<int>)
    requires |stocks| > 0
    ensures PackAll(ps + [p], stocks) == Place(PackAll(ps, stocks), p, stocks)
  {
    assert (ps + [p])[..|ps|] == ps;
  }

  /** With both stock lengths, a piece no longer than 2.1 m is cut from a 2.1 m length. */
  lemma ChooseShortStock(p: int)
    requires p <= 2100
    ensures ChooseStock([2100, 5400], p) == 2100
  {
    assert 2100 in [2100, 5400];
  }

  lemma MixDoorBins(leg: int, head: int)
    requires 0 < head <= leg <= 2100 < leg + head
    ensures PackAll([leg, leg, head], [2100, 5400])
         == [Bin(2100, [leg], leg), Bin(2100, [leg], leg), Bin(2100, [head], head)]
  {
    var mix := [2100, 5400];
    var b2 := [Bin(2100, [leg], leg), Bin(2100, [leg], leg)];
    MixDoorLegBins(leg);
    ChooseShortStock(head);
    PackAllSnoc([leg, leg], head, mix);
    assert [leg, leg] + [head] == [leg, leg, head];
    assert !Fits(b2[0], head) && !Fits(b2[1], head);
    PlaceFirstFit(b2, head, mix, 0);
  }

  /** Two legs longer than half of 2100 get a 2100 length each. */
  lemma MixDoorLegBins(leg: int)
    requires 1050 < leg <= 2100
    ensures PackAll([leg, leg], [2100, 5400]) == [Bin(2100, [leg], leg), Bin(2100, [leg], leg)]
  {
    var mix := [2100, 5400];
    ChooseShortStock(leg);
    var b1 := [Bin(2100, [leg], leg)];
    PackAllSnoc([], leg, mix);
    PlaceFirstFit([], leg, mix, 0);
    assert PackAll([leg], mix) == b1;
    PackAllSnoc([leg], leg, mix);
    assert [leg] + [leg] == [leg, leg];
    assert !Fits(b1[0], leg);
    PlaceFirstFit(b1, leg, mix, 0);
  }

  /** Pieces already longest first are packed in the order given. */
  lemma CutListOfSorted(ps: seq<int>, stocks: seq<int>)
    requires |stocks| > 0 && NonIncreasing(ps)
    ensures CutList(ps, stocks) == Rows(PackAll(ps, stocks))
  {
    SortDescOfSorted(ps);
  }

  lemma MixDoorRows(leg: int, head: int)
    ensures Rows([Bin(2100, [leg], leg), Bin(2100, [leg], leg), Bin(2100, [head], head)])
         == [CutRow(2100, [leg], leg, 2100 - leg), CutRow(2100, [leg], leg, 2100 - leg),
             CutRow(2100, [head], head, 2100 - head)]
  {
    var bins := [Bin(2100, [leg], leg), Bin(2100, [leg], leg), Bin(2100, [head], head)];
    assert bins[..2][..1] == bins[..1];
  }

  /** One door whose leg and head do not fit together in a 2.1 m length: with both stock
      lengths each of its three pieces gets a 2.1 m length of its own. */
  lemma CutListMixDoor(leg: int, head: int)
    requires 0 < head <= leg <= 2100 < leg + head
    ensures CutList([leg, leg, head], [2100, 5400])
         == [CutRow(2100, [leg], leg, 2100 - leg), CutRow(2100, [leg], leg, 2100 - leg),
             CutRow(2100, [head], head, 2100 - head)]
  {
    CutListOfSorted([leg, leg, head], [2100, 5400]);
    MixDoorBins(leg, head);
    MixDoorRows(leg, head);
  }

  lemma LongDoorBins(leg: int, head: int)
    requires 0 < head <= leg && 2 * leg + head <= 5400
    ensures PackAll([leg, leg, head], [5400]) == [Bin(5400, [leg, leg, head], 2 * leg + head)]
  {
    var long := [5400];
    assert 5400 in long;
    var b1 := [Bin(5400, [leg], leg)];
    PackAllSnoc([], leg, long);
    PlaceFirstFit([], leg, long, 0);
    assert PackAll([leg], long) == b1;
    var b2 := [Bin(5400, [leg] + [leg], leg + leg)];
    PackAllSnoc([leg], leg, long);
    PlaceFirstFit(b1, leg, long, 0);
    assert PackAll([leg, leg], long) == b2;
    PackAllSnoc([leg, leg], head, long);
    PlaceFirstFit(b2, head, long, 0);
    assert [leg] + [leg] + [head] == [leg, leg, head];
  }

  lemma LongDoorRows(leg: int, head: int)
    ensures Rows([Bin(5400, [leg, leg, head], 2 * leg + head)])
         == [CutRow(5400, [leg, leg, head], 2 * leg + head, 5400 - 2 * leg - head)]
  {
    assert [Bin(5400, [leg, leg, head], 2 * leg + head)][..0] == [];
  }

  /** The same door with only 5.4 m lengths: all three pieces share one length when they fit
      in it together. */
  lemma CutListLongDoor(leg: int, head: int)
    requires 0 < head <= leg && 2 * leg + head <= 5400
    ensures CutList([leg, leg, head], [5400]) == [CutRow(5400, [leg, leg, head], 2 * leg + head, 5400 - 2 * leg - head)]
  {
    CutListOfSorted([leg, leg, head], [5400]);
    LongDoorBins(leg, head);
    LongDoorRows(leg, head);
  }

  // ---------------------------------------------------------------
  // the cut lists (lines 352-381)
  // ---------------------------------------------------------------

  /** The jamb cut list of one profile: legs twice and the truncated head of each of its rows,
      over the stock lengths of the jamb strategy. */
  method ProfileCutList(rows: seq<CalcRow>, col: seq<string>, prof: string, mode: string)
    returns (cut: seq<CutRow>)
    requires |col| == |rows|
    ensures cut == CutList(PieceList(ProfileRows(rows, col, prof)), StockSet(mode))
  {
    var pieces := BuildPieces(ProfileRows(rows, col, prof));
    cut := BuildCutList(pieces, StockSet(mode));
  }

  /** The stop cut list: the same pieces for every row, over the stock lengths of the stop
      strategy. */
  method StopCutList(rows: seq<CalcRow>, mode: string) returns (cut: seq<CutRow>)
    ensures cut == CutList(PieceList(rows), StockSet(mode))
  {
    var pieces := BuildPieces(rows);
    cut := BuildCutList(pieces, StockSet(mode));
  }
}
