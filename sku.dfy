/** The product code of core/sku.py: leaf prefix, nominal thickness, height, width, a
    `PH<stop>-<face>` jamb code and a `-PR` suffix for pairs of leaves. */
module Sku {
  import opened Wrappers
  import opened Text
  import Pricing

  /** Separators accepted between the face and stop numbers of a jamb name (`[xX]`). */
  const FaceStopSeparators: set<char> := {'x', 'X'}

  /** Suffix marking a double (pair) door set. */
  const PairSuffix: string := "-PR"

  /** First number of the first `<digits>[xX]<digits>` in the jamb name, else "0". */
  function Face(jamb: string): (face: string)
    ensures |face| > 0 && AllDigits(face)
    ensures FirstPair(jamb, FaceStopSeparators).None? ==> face == "0"
  {
    match FirstPair(jamb, FaceStopSeparators)
    case None => "0"
    case Some(j) => GroupBefore(jamb, j)
  }

  /** Second number of the first `<digits>[xX]<digits>` in the jamb name, else "0". */
  function Stop(jamb: string): (stop: string)
    ensures |stop| > 0 && AllDigits(stop)
    ensures FirstPair(jamb, FaceStopSeparators).None? ==> stop == "0"
  {
    match FirstPair(jamb, FaceStopSeparators)
    case None => "0"
    case Some(j) => GroupAfter(jamb, j)
  }

  function PhCode(jamb: string): string
  {
    "PH" + Stop(jamb) + "-" + Face(jamb)
  }

  /** The code before any pair suffix; `"mm"` is dropped from the thickness wherever it occurs. */
  function SkuBase(prefix: string, thickness: string, height: int, width: int, jamb: string): string
  {
    prefix + RemoveAll(thickness, "mm") + IntToString(height) + IntToString(width) + PhCode(jamb)
  }

  /** The product code of a door configuration: total (every input gives a code) and
      determined by its six inputs. */
  function CreateSku(prefix: string, thickness: string, height: int, width: int, jamb: string, form: string): (sku: string)
    ensures StartsWith(sku, prefix)
    ensures StartsWith(sku, SkuBase(prefix, thickness, height, width, jamb))
    ensures |sku| == |SkuBase(prefix, thickness, height, width, jamb)| + (if form == "Double" then |PairSuffix| else 0)
  {
    var base := SkuBase(prefix, thickness, height, width, jamb);
    assert base[..|prefix|] == prefix;
    if form == "Double" then base + PairSuffix else base
  }

  /** The code ends in `-PR` exactly for a double door set: a single code ends with the face
      digits, which `-PR` cannot end with. */
  lemma PairSuffixIff(prefix: string, thickness: string, height: int, width: int, jamb: string, form: string)
    ensures EndsWith(CreateSku(prefix, thickness, height, width, jamb, form), PairSuffix) <==> form == "Double"
  {
    var base := SkuBase(prefix, thickness, height, width, jamb);
    var sku := CreateSku(prefix, thickness, height, width, jamb, form);
    if form == "Double" {
      assert sku == base + PairSuffix;
      assert sku[|sku| - 3..] == PairSuffix;
    } else {
      assert sku == base;
      var face := Face(jamb);
      assert base[|base| - 1] == face[|face| - 1];
      assert IsDigit(base[|base| - 1]);
      if |base| >= 3 {
        assert base[|base| - 3..][2] == base[|base| - 1];
      }
    }
  }

  /** The jamb code sits at the end of the base code, with the stop number before the face
      number. */
  lemma PhCodeAtEnd(prefix: string, thickness: string, height: int, width: int, jamb: string)
    ensures EndsWith(SkuBase(prefix, thickness, height, width, jamb), "PH" + Stop(jamb) + "-" + Face(jamb))
  {
    var base := SkuBase(prefix, thickness, height, width, jamb);
    var ph := PhCode(jamb);
    assert base == (prefix + RemoveAll(thickness, "mm") + IntToString(height) + IntToString(width)) + ph;
  }

  /** A jamb name without a face/stop pair codes as `PH0-0`. */
  lemma NoPairCodesZero(jamb: string)
    requires forall j :: 0 <= j < |jamb| ==> !PairAt(jamb, j, FaceStopSeparators)
    ensures PhCode(jamb) == "PH0-0"
  {
    assert FirstPair(jamb, FaceStopSeparators).None?;
  }

  /** For a jamb name with no upper-case `X`, the stop number in the code is the jamb thickness
      the pricing engine reads, whenever the name holds a pair. */
  lemma StopMatchesJambThickness(jamb: string)
    requires forall i :: 0 <= i < |jamb| ==> jamb[i] != 'X'
    requires FirstPair(jamb, {'x'}).Some?
    ensures DigitsValue(Stop(jamb)) == Pricing.ParseJambThickness(jamb)
  {
    forall j | 0 <= j < |jamb| ensures PairAt(jamb, j, FaceStopSeparators) <==> PairAt(jamb, j, {'x'}) {
    }
    var k := FirstPair(jamb, {'x'}).value;
    FirstPairIs(jamb, FaceStopSeparators, k);
  }

  /** For a jamb name `<c><a><sep><b><rest>` whose first face-and-stop pair is `<a><sep><b>`
      (the text before it has no pair, does not end in a digit and does not end in a digit
      followed by a separator; the text after it does not start with a digit), the face
      number is a and the stop number is b. */
  lemma FaceStopOfPair(c: string, a: string, sep: char, b: string, rest: string)
    requires sep in FaceStopSeparators
    requires |a| > 0 && AllDigits(a) && |b| > 0 && AllDigits(b)
    requires forall i :: 0 <= i < |c| ==> !PairAt(c, i, FaceStopSeparators)
    requires |c| == 0 || !IsDigit(c[|c| - 1])
    requires !(|c| >= 2 && IsDigit(c[|c| - 2]) && c[|c| - 1] in FaceStopSeparators)
    requires |rest| == 0 || !IsDigit(rest[0])
    ensures Face(c + a + [sep] + b + rest) == a
    ensures Stop(c + a + [sep] + b + rest) == b
  {
    var s := c + a + [sep] + b + rest;
    FirstPairOfJamb(c, a, sep, b, rest);
    JambLayout(s, c, a, sep, b, rest);
    FaceStopAt(s, |c| + |a|, a, b);
  }

  /** Where a and b sit in `<c><a><sep><b><rest>`, and that non-digits border them. */
  lemma JambLayout(s: string, c: string, a: string, sep: char, b: string, rest: string)
    requires s == c + a + [sep] + b + rest
    requires |c| == 0 || !IsDigit(c[|c| - 1])
    requires |rest| == 0 || !IsDigit(rest[0])
    ensures |a| <= |c| + |a| && |c| + |a| + 1 + |b| <= |s|
    ensures s[|c|..|c| + |a|] == a && (0 < |c| ==> !IsDigit(s[|c| - 1]))
    ensures s[|c| + |a| + 1..|c| + |a| + 1 + |b|] == b
    ensures |c| + |a| + 1 + |b| < |s| ==> !IsDigit(s[|c| + |a| + 1 + |b|])
  {
    assert s == (c + a) + ([sep] + b + rest);
    assert s == ((c + a) + [sep]) + (b + rest);
    if |c| > 0 {
      assert s[|c| - 1] == c[|c| - 1];
    }
    if |rest| > 0 {
      assert s[|c| + |a| + 1 + |b|] == rest[0];
    }
  }

  /** With the first pair at `j`, digit runs bordered by non-digits on each side of it are
      the face and the stop. */
  lemma FaceStopAt(s: string, j: nat, a: string, b: string)
    requires FirstPair(s, FaceStopSeparators) == Some(j)
    requires |a| <= j && j + 1 + |b| <= |s| && AllDigits(a) && AllDigits(b)
    requires s[j - |a|..j] == a && (|a| < j ==> !IsDigit(s[j - |a| - 1]))
    requires s[j + 1..j + 1 + |b|] == b && (j + 1 + |b| < |s| ==> !IsDigit(s[j + 1 + |b|]))
    ensures Face(s) == a && Stop(s) == b
  {
    GroupBeforeIs(s, j, a);
    GroupAfterIs(s, j, b);
  }

  /** A separator that no digit precedes starts no pair: "Ax12x3" has face 12 and stop 3. */
  lemma ExampleLetterBeforePair()
    ensures Face("Ax12x3") == "12" && Stop("Ax12x3") == "3"
  {
    FaceStopOfPair("Ax", "12", 'x', "3", "");
    assert "Ax" + "12" + ['x'] + "3" + "" == "Ax12x3";
  }

  /** The separator between a and b is the first pair of `<c><a><sep><b><rest>`. */
  lemma FirstPairOfJamb(c: string, a: string, sep: char, b: string, rest: string)
    requires sep in FaceStopSeparators
    requires |a| > 0 && AllDigits(a) && |b| > 0 && AllDigits(b)
    requires forall i :: 0 <= i < |c| ==> !PairAt(c, i, FaceStopSeparators)
    requires !(|c| >= 2 && IsDigit(c[|c| - 2]) && c[|c| - 1] in FaceStopSeparators)
    ensures FirstPair(c + a + [sep] + b + rest, FaceStopSeparators) == Some(|c| + |a|)
  {
    var s := c + a + [sep] + b + rest;
    var j := |c| + |a|;
    assert s[j] == sep && s[j - 1] == a[|a| - 1] && s[j + 1] == b[0];
    forall k | 0 <= k < j ensures !PairAt(s, k, FaceStopSeparators) {
      if k < |c| - 1 {
        assert s[k] == c[k] && s[k + 1] == c[k + 1];
        if k > 0 {
          assert s[k - 1] == c[k - 1];
          assert !PairAt(c, k, FaceStopSeparators);
        }
      } else if k == |c| - 1 {
        assert s[k] == c[k];
        if k > 0 {
          assert s[k - 1] == c[k - 1];
        }
      } else {
        assert s[k] == a[k - |c|];
      }
    }
    FirstPairIs(s, FaceStopSeparators, j);
  }

  /** A digit run ending at `j` with no digit before it is the group before `j`. */
  lemma GroupBeforeIs(s: string, j: nat, a: string)
    requires |a| <= j <= |s| && AllDigits(a) && s[j - |a|..j] == a
    requires |a| < j ==> !IsDigit(s[j - |a| - 1])
    ensures GroupBefore(s, j) == a
  {
    var g := GroupBefore(s, j);
  }

  /** A digit run starting after `j` with no digit after it is the group after `j`. */
  lemma GroupAfterIs(s: string, j: nat, b: string)
    requires j + 1 + |b| <= |s| && AllDigits(b) && s[j + 1..j + 1 + |b|] == b
    requires j + 1 + |b| < |s| ==> !IsDigit(s[j + 1 + |b|])
    ensures GroupAfter(s, j) == b
  {
    var h := GroupAfter(s, j);
  }

  /** The jamb "US14 92x18" codes as `PH18-92`. */
  lemma ExamplePhCode()
    ensures PhCode("US14 92x18") == "PH" + "18" + "-" + "92"
  {
    var jamb := "US14 92x18";
    assert PairAt(jamb, 7, FaceStopSeparators);
    forall j | 0 <= j < 7 ensures !PairAt(jamb, j, FaceStopSeparators) {
      assert jamb[j] != 'x' && jamb[j] != 'X';
    }
    FirstPairIs(jamb, FaceStopSeparators, 7);
    assert GroupAfter(jamb, 7) == "18";
    assert jamb[..7] == "US14 92";
    assert GroupBefore(jamb, 7) == "92";
  }

  lemma ExampleNumbers()
    ensures RemoveAll("35mm", "mm") == "35"
    ensures IntToString(1980) == "1980" && IntToString(810) == "810"
  {
    assert RemoveAll("35mm", "mm") == "35";
    assert IntToString(1980) == "1980";
    assert IntToString(810) == "810";
  }

  /** `("P", "35mm", 1980, 810, "US14 92x18", form)` codes as `P351980810PH18-92`, with `-PR`
      appended for a double set. */
  lemma ExampleCodes()
    ensures CreateSku("P", "35mm", 1980, 810, "US14 92x18", "Single") == "P" + "35" + "1980" + "810" + PhCode("US14 92x18")
    ensures CreateSku("P", "35mm", 1980, 810, "US14 92x18", "Double") == "P" + "35" + "1980" + "810" + PhCode("US14 92x18") + "-PR"
    ensures PhCode("US14 92x18") == "PH" + "18" + "-" + "92"
  {
    ExamplePhCode();
    ExampleNumbers();
  }
}
