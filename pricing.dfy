/** The pricing engine of core/pricing.py: width banding, the leaf price lookup with its
    "price on application" outcome, the jamb thickness read from a profile name, and the
    frame and stop costs of one door set. */
module Pricing {
  import opened Wrappers
  import opened Text

  /** One row of a leaf price table: the Height and Width key columns (text) and one price
      cell per thickness column; an empty (NaN) cell is `None`. */
  datatype LeafRow = LeafRow(height: string, width: string, cells: map<string, Option<real>>)

  /** What `frame_cost_and_pieces` returns for one door set. */
  datatype FramePieces = FramePieces(cost: real, frameM: real, legMm: int, headMm: int)

  /** Widths from 410 to 810 share one price band; wider leaves are priced one by one. */
  const NarrowBand: string := "410-810"

  /** Length added to the leaf height for each frame leg at the quoting stage. */
  const LegAllowanceMm: int := 23

  /** Jamb thickness assumed when the profile name holds no `<face>x<stop>` pair. */
  const DefaultJambThickness: nat := 18

  // ---------------------------------------------------------------
  // width_band
  // ---------------------------------------------------------------

  function WidthBand(width: int): (band: string)
    ensures 410 <= width <= 810 ==> band == NarrowBand
    ensures !(410 <= width <= 810) ==> band == IntToString(width)
  {
    if 410 <= width <= 810 then NarrowBand else IntToString(width)
  }

  /** The band is the shared label exactly for widths 410..810: no decimal numeral can be
      mistaken for it. */
  lemma WidthBandIsNarrowIff(width: int)
    ensures WidthBand(width) == NarrowBand <==> 410 <= width <= 810
  {
    if !(410 <= width <= 810) {
      var s := IntToString(width);
      if |s| == |NarrowBand| {
        assert IsDigit(s[3]) && !IsDigit(NarrowBand[3]);
      }
    }
  }

  /** Two widths share a price band exactly when both are narrow or they are equal. */
  lemma WidthBandSharedIff(w1: int, w2: int)
    ensures WidthBand(w1) == WidthBand(w2) <==> (410 <= w1 <= 810 && 410 <= w2 <= 810) || w1 == w2
  {
    WidthBandIsNarrowIff(w1);
    WidthBandIsNarrowIff(w2);
    if WidthBand(w1) == WidthBand(w2) && !(410 <= w1 <= 810) && !(410 <= w2 <= 810) {
      IntToStringInjective(w1, w2);
    }
  }

  // ---------------------------------------------------------------
  // leaf_price
  // ---------------------------------------------------------------

  predicate RowMatches(row: LeafRow, height: int, band: string)
  {
    row.height == IntToString(height) && row.width == band
  }

  /** A present cell is its price; an empty cell reads as 0.0. */
  function CellPrice(cell: Option<real>): real
  {
    if cell.Some? then cell.value else 0.0
  }

  /** Every row of the height and width band has the thickness column: the price cell that
      is read exists. Rows of other sizes need not have it. */
  predicate HasColumn(table: seq<LeafRow>, height: int, width: int, thickness: string)
  {
    forall i :: 0 <= i < |table| && RowMatches(table[i], height, WidthBand(width)) ==> thickness in table[i].cells
  }

  /** The leaf price for a height, width and thickness column, or `None` (price on
      application) when no row has that height and width band. */
  function LeafPrice(table: seq<LeafRow>, height: int, width: int, thickness: string): (price: Option<real>)
    requires HasColumn(table, height, width, thickness)
    ensures price.None? <==> forall i :: 0 <= i < |table| ==> !RowMatches(table[i], height, WidthBand(width))
    ensures forall i :: 0 <= i < |table| && RowMatches(table[i], height, WidthBand(width)) &&
                        (forall j :: 0 <= j < i ==> !RowMatches(table[j], height, WidthBand(width))) ==>
                        price == Some(CellPrice(table[i].cells[thickness]))
  {
    var band := WidthBand(width);
    var hit := FirstIndex(table, (r: LeafRow) => RowMatches(r, height, band));
    if hit.None? then None
    else
      forall i | 0 <= i < |table| && RowMatches(table[i], height, band) &&
                 (forall j :: 0 <= j < i ==> !RowMatches(table[j], height, band))
        ensures i == hit.value
      {
        FirstIndexIsFirstHit(table, (r: LeafRow) => RowMatches(r, height, band), i);
      }
      Some(CellPrice(table[hit.value].cells[thickness]))
  }

  /** A table whose cells hold no negative price never yields a negative leaf price; an empty
      cell yields 0.0, never `None`. */
  lemma LeafPriceNonNegative(table: seq<LeafRow>, height: int, width: int, thickness: string)
    requires HasColumn(table, height, width, thickness)
    requires forall i :: 0 <= i < |table| && thickness in table[i].cells && table[i].cells[thickness].Some? ==>
               table[i].cells[thickness].value >= 0.0
    ensures LeafPrice(table, height, width, thickness).Some? ==> LeafPrice(table, height, width, thickness).value >= 0.0
  {
    var band := WidthBand(width);
    var hit := FirstIndex(table, (r: LeafRow) => RowMatches(r, height, band));
    if hit.Some? {
      FirstIndexIsFirstHit(table, (r: LeafRow) => RowMatches(r, height, band), hit.value);
    }
  }

  // ---------------------------------------------------------------
  // parse_jamb_thickness
  // ---------------------------------------------------------------

  /** The number after `x` in the first `<digits>x<digits>` of a jamb profile name (lower-case
      `x` only), or 18 when there is none. */
  function ParseJambThickness(jamb: string): (thk: nat)
    ensures FirstPair(jamb, {'x'}).None? ==> thk == DefaultJambThickness
    ensures FirstPair(jamb, {'x'}).Some? ==>
              var j := FirstPair(jamb, {'x'}).value;
              thk == DigitsValue(GroupAfter(jamb, j)) && |GroupAfter(jamb, j)| > 0
  {
    match FirstPair(jamb, {'x'})
    case None => DefaultJambThickness
    case Some(j) => DigitsValue(GroupAfter(jamb, j))
  }

  // ---------------------------------------------------------------
  // frame_cost_and_pieces and stop_cost
  // ---------------------------------------------------------------

  /** Head length at the quoting stage: a double frame spans two leaves plus a 9 mm gap, any
      other form one leaf plus 6 mm, each plus two jamb thicknesses. */
  function QuoteHeadMm(width: int, jambThickness: int, form: string): int
  {
    if form == "Double" then width * 2 + 9 + jambThickness * 2 else width + 6 + jambThickness * 2
  }

  /** Cost, length in metres, leg and head of the frame of one door set. Looking up a jamb
      that has no frame price is a configuration error, hence the precondition. */
  function FrameCostAndPieces(height: int, width: int, jamb: string, form: string,
                              prices: map<string, real>, minCharge: real): (f: FramePieces)
    requires jamb in prices
    ensures f.legMm == height + LegAllowanceMm
    ensures f.headMm == QuoteHeadMm(width, ParseJambThickness(jamb), form)
    ensures f.frameM * 1000.0 == (2 * f.legMm + f.headMm) as real
    ensures f.cost == FrameCharge(f.frameM, prices[jamb], minCharge)
  {
    var thk := ParseJambThickness(jamb);
    var leg := height + LegAllowanceMm;
    var head := QuoteHeadMm(width, thk, form);
    var frameM := ((leg * 2) + head) as real / 1000.0;
    FramePieces(FrameCharge(frameM, prices[jamb], minCharge), frameM, leg, head)
  }

  /** The charge for `metres` of profile at `rate` per metre, raised to the minimum charge
      when it falls below it. */
  function FrameCharge(metres: real, rate: real, minimum: real): (c: real)
    ensures c >= minimum && c >= metres * rate
    ensures c == minimum || c == metres * rate
  {
    var raw := metres * rate;
    if raw >= minimum then raw else minimum
  }

  /** With a non-negative price per metre, a taller or wider door never costs less to frame. */
  lemma FrameCostMonotone(h1: int, w1: int, h2: int, w2: int, jamb: string, form: string,
                          prices: map<string, real>, minCharge: real)
    requires jamb in prices && prices[jamb] >= 0.0
    requires h1 <= h2 && w1 <= w2
    ensures FrameCostAndPieces(h1, w1, jamb, form, prices, minCharge).cost
            <= FrameCostAndPieces(h2, w2, jamb, form, prices, minCharge).cost
  {
    var p := prices[jamb];
    var f1 := FrameCostAndPieces(h1, w1, jamb, form, prices, minCharge);
    var f2 := FrameCostAndPieces(h2, w2, jamb, form, prices, minCharge);
    FrameLengthMonotone(h1, w1, h2, w2, jamb, form, prices, minCharge);
    CostFollowsLength(f1, f2, p, minCharge);
  }

  /** Of two frames charged at the same non-negative rate, the longer never costs less. */
  lemma CostFollowsLength(f1: FramePieces, f2: FramePieces, rate: real, minimum: real)
    requires f1.frameM <= f2.frameM && rate >= 0.0
    requires f1.cost == FrameCharge(f1.frameM, rate, minimum)
    requires f2.cost == FrameCharge(f2.frameM, rate, minimum)
    ensures f1.cost <= f2.cost
  {
    ChargeMonotone(f1.frameM, f2.frameM, rate, minimum);
  }

  /** The charge for more metres at the same non-negative rate is never less. */
  lemma ChargeMonotone(m1: real, m2: real, rate: real, minimum: real)
    requires m1 <= m2 && rate >= 0.0
    ensures FrameCharge(m1, rate, minimum) <= FrameCharge(m2, rate, minimum)
  {
    assert m1 * rate <= m2 * rate by { assert m2 * rate - m1 * rate == (m2 - m1) * rate; }
  }

  /** A taller or wider door needs at least as many metres of frame. */
  lemma FrameLengthMonotone(h1: int, w1: int, h2: int, w2: int, jamb: string, form: string,
                            prices: map<string, real>, minCharge: real)
    requires jamb in prices && h1 <= h2 && w1 <= w2
    ensures FrameCostAndPieces(h1, w1, jamb, form, prices, minCharge).frameM
            <= FrameCostAndPieces(h2, w2, jamb, form, prices, minCharge).frameM
  {
    var f1 := FrameCostAndPieces(h1, w1, jamb, form, prices, minCharge);
    var f2 := FrameCostAndPieces(h2, w2, jamb, form, prices, minCharge);
    assert f1.headMm <= f2.headMm;
  }

  /** Cost of the door stop, which runs the same length as the frame, with a minimum charge. */
  function StopCost(frameM: real, stopRate: real, minimum: real): (cost: real)
    ensures cost >= minimum && cost >= frameM * stopRate
    ensures cost == minimum || cost == frameM * stopRate
  {
    FrameCharge(frameM, stopRate, minimum)
  }
}
