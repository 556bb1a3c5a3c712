/** The costing logic of the estimator tab (ui/estimator.py): hinge and description lookup,
    the "price on application" gate, costing of one quote line, the quote session that
    accumulates lines, and the sell/margin summary. Widgets and page flow are not modelled;
    what the user picks arrives as a `DoorInput`. */
module Estimator {
  import opened Wrappers
  import opened Text
  import opened Pricing
  import opened Sku

  /** A row of the loaded hinge sheet: size key, hinge and screw counts, product code and
      description. */
  datatype HingeRow = HingeRow(height: int, width: int, hinges: int, screws: int, code: string, description: string)

  /** The price settings the estimator reads. */
  datatype Settings = Settings(
    doorLeafPrices: map<string, seq<LeafRow>>,
    prefixMap: map<string, string>,
    framePrices: map<string, real>,
    minimumFrameCharge: real,
    labourSingle: real,
    labourDouble: real,
    hingePrice: real,
    screwCost: real,
    hingesPerDoor: int,
    hingeScrews: int)

  /** The door configuration chosen on the form. */
  datatype DoorInput = DoorInput(leafType: string, thickness: string, jamb: string, height: int, width: int,
                                 form: string, qty: int)

  /** One priced quote line, every cost component stored. */
  datatype QuoteLine = QuoteLine(
    customer: string, project: string, sku: string, description: string,
    leaf: string, thickness: string, height: int, width: int, form: string, qty: int, jambType: string,
    unitCost: real, totalCost: real,
    leafCost: real, frameCost: real, stopCost: real, labour: real,
    hinges: int, hingeCost: real, screws: int, screwCost: real,
    frameLengthM: real, legLengthMm: int, headLengthMm: int)

  datatype HingeCounts = HingeCounts(hinges: int, screws: int)

  /** The frame price row whose rate is used for the door stop. */
  const StopProfile: string := "26A 30x10 Door Stop"

  /** The columns of a quote row as "Add Line" builds it; the leaf type is under "Leaf". */
  const QuoteRowColumns: set<string> := {
    "Customer", "Project", "SKU", "Description", "Leaf", "Thickness", "Height", "Width", "Form", "Qty",
    "Jamb Type", "Unit Cost", "Total Cost", "Leaf Cost", "Frame Cost", "Stop Cost", "Labour", "Hinges",
    "Hinge Cost", "Screws", "Screw Cost", "Frame Length (m)", "Leg Length (mm)", "Head Length (mm)"}

  const DescriptionNotFound: string := "DESCRIPTION NOT FOUND"

  // ---------------------------------------------------------------
  // hinge and description lookup (lines 51-63)
  // ---------------------------------------------------------------

  predicate SizeMatches(r: HingeRow, height: int, width: int) { r.height == height && r.width == width }

  /** Hinge and screw counts of the first sheet row with exactly this height and width, else
      the configured hinges per door and hinges per door times screws per hinge. */
  function HingeLookup(table: seq<HingeRow>, height: int, width: int, hingesPerDoor: int, hingeScrews: int): (c: HingeCounts)
    ensures (forall i :: 0 <= i < |table| ==> !SizeMatches(table[i], height, width)) ==>
              c == HingeCounts(hingesPerDoor, hingesPerDoor * hingeScrews)
    ensures forall i :: 0 <= i < |table| && SizeMatches(table[i], height, width) &&
                        (forall j :: 0 <= j < i ==> !SizeMatches(table[j], height, width)) ==>
                        c == HingeCounts(table[i].hinges, table[i].screws)
  {
    var hit := FirstIndex(table, (r: HingeRow) => SizeMatches(r, height, width));
    if hit.None? then HingeCounts(hingesPerDoor, hingesPerDoor * hingeScrews)
    else
      forall i | 0 <= i < |table| && SizeMatches(table[i], height, width) &&
                 (forall j :: 0 <= j < i ==> !SizeMatches(table[j], height, width))
        ensures i == hit.value
      {
        FirstIndexIsFirstHit(table, (r: HingeRow) => SizeMatches(r, height, width), i);
      }
      HingeCounts(table[hit.value].hinges, table[hit.value].screws)
  }

  /** Description of the first sheet row whose code is the SKU, else a fixed marker. */
  function Description(table: seq<HingeRow>, sku: string): (d: string)
    ensures (forall i :: 0 <= i < |table| ==> table[i].code != sku) ==> d == DescriptionNotFound
    ensures forall i :: 0 <= i < |table| && table[i].code == sku && (forall j :: 0 <= j < i ==> table[j].code != sku)
                        ==> d == table[i].description
  {
    var hit := FirstIndex(table, (r: HingeRow) => r.code == sku);
    if hit.None? then DescriptionNotFound
    else
      forall i | 0 <= i < |table| && table[i].code == sku && (forall j :: 0 <= j < i ==> table[j].code != sku)
        ensures i == hit.value
      {
        FirstIndexIsFirstHit(table, (r: HingeRow) => r.code == sku, i);
      }
      table[hit.value].description
  }

  // ---------------------------------------------------------------
  // the POA gate (lines 68-97)
  // ---------------------------------------------------------------

  /** Outcome of pressing "Add Line": go on with this leaf cost, or stop; either way the
      pending POA entries (keyed text -> entered price) as they are afterwards. */
  datatype Gate = Proceed(leafCost: real, poa: map<string, real>) | Halt(poa: map<string, real>)

  function PoaKey(d: DoorInput): string
  {
    "poa_" + d.leafType + "_" + IntToString(d.height) + "_" + IntToString(d.width) + "_" + d.thickness
  }

  /** A listed price goes through. Without one, the first press records a 0.0 entry and stops;
      later presses stop while the entry is 0 and otherwise use the entry and clear it. */
  function PoaGate(price: Option<real>, key: string, poa: map<string, real>): (g: Gate)
    ensures price.Some? ==> g == Proceed(price.value, poa)
    ensures price.None? && key !in poa ==> g == Halt(poa[key := 0.0])
    ensures price.None? && key in poa ==>
              if poa[key] == 0.0 then g == Halt(poa) else g == Proceed(poa[key], poa - {key})
  {
    if price.Some? then Proceed(price.value, poa)
    else if key !in poa then Halt(poa[key := 0.0])
    else if poa[key] == 0.0 then Halt(poa)
    else Proceed(poa[key], poa - {key})
  }

  /** A line is never costed on a missing price: going on needs a listed price or a non-zero
      entered one, and an entered one is what is used. */
  lemma NoLineWithoutPrice(price: Option<real>, key: string, poa: map<string, real>)
    ensures PoaGate(price, key, poa).Proceed? ==> price.Some? || (key in poa && poa[key] != 0.0)
    ensures PoaGate(price, key, poa).Proceed? && price.None? ==>
              PoaGate(price, key, poa).leafCost == poa[key] && key !in PoaGate(price, key, poa).poa
  {
  }

  /** The override is a two-step interaction: the first press on an unpriced door only asks
      for a price; once a non-zero price is entered the next press uses it. */
  lemma {:induction false} PoaTwoStep(key: string, entered: real)
    requires entered != 0.0
    ensures PoaGate(None, key, map[]) == Halt(map[key := 0.0])
    ensures PoaGate(None, key, map[key := 0.0]) == Halt(map[key := 0.0])
    ensures PoaGate(None, key, map[key := entered]) == Proceed(entered, map[])
  {
    assert map[key := entered] - {key} == map[];
  }

  // ---------------------------------------------------------------
  // line costing (lines 102-167)
  // ---------------------------------------------------------------

  /** A per-leaf count scaled to the leaves of a door set. */
  function PerSet(perLeaf: int, form: string): int
  {
    perLeaf * LeafMultiplier(form)
  }

  /** The price of `count` items at `price` each. */
  function Extended(count: int, price: real): real
  {
    count as real * price
  }

  /** Leaves per door set: one for a single, two for any other form. */
  function LeafMultiplier(form: string): (n: int)
    ensures n == 1 || n == 2
    ensures n == 1 <==> form == "Single"
  {
    if form == "Single" then 1 else 2
  }

  /** The quote line for a door: every cost component stored, the unit cost their exact sum
      and the total cost the unit cost times the quantity. */
  function CostLine(s: Settings, d: DoorInput, leafCost: real, counts: HingeCounts,
                    sku: string, desc: string, cust: string, proj: string): (line: QuoteLine)
    requires d.jamb in s.framePrices && StopProfile in s.framePrices
    ensures line.unitCost == line.leafCost + line.frameCost + line.stopCost + line.labour + line.hingeCost + line.screwCost
    ensures line.totalCost == Extended(d.qty, line.unitCost)
    ensures line.leafCost == Extended(LeafMultiplier(d.form), leafCost)
    ensures line.hinges == PerSet(counts.hinges, d.form) && line.screws == PerSet(counts.screws, d.form)
    ensures line.hingeCost == Extended(line.hinges, s.hingePrice) && line.screwCost == Extended(line.screws, s.screwCost)
    ensures line.labour == if d.form == "Single" then s.labourSingle else s.labourDouble
    ensures var f := FrameCostAndPieces(d.height, d.width, d.jamb, d.form, s.framePrices, s.minimumFrameCharge);
            line.frameCost == f.cost && line.frameLengthM == f.frameM && line.legLengthMm == f.legMm && line.headLengthMm == f.headMm
    ensures line.stopCost == StopCost(line.frameLengthM, s.framePrices[StopProfile], s.minimumFrameCharge)
    ensures line.frameCost >= s.minimumFrameCharge && line.stopCost >= s.minimumFrameCharge
    ensures line.sku == sku && line.description == desc && line.customer == cust && line.project == proj
    ensures line.leaf == d.leafType && line.thickness == d.thickness && line.height == d.height
    ensures line.width == d.width && line.form == d.form && line.qty == d.qty && line.jambType == d.jamb
  {
    var mult := LeafMultiplier(d.form);
    var frame := FrameCostAndPieces(d.height, d.width, d.jamb, d.form, s.framePrices, s.minimumFrameCharge);
    var stop := StopCost(frame.frameM, s.framePrices[StopProfile], s.minimumFrameCharge);
    var labour := if d.form == "Single" then s.labourSingle else s.labourDouble;
    var hingeCount := PerSet(counts.hinges, d.form);
    var screwCount := PerSet(counts.screws, d.form);
    var hingeCost := Extended(hingeCount, s.hingePrice);
    var screwCost := Extended(screwCount, s.screwCost);
    var leaves := Extended(mult, leafCost);
    var unit := leaves + frame.cost + stop + labour + hingeCost + screwCost;
    QuoteLine(cust, proj, sku, desc, d.leafType, d.thickness, d.height, d.width, d.form, d.qty, d.jamb,
              unit, Extended(d.qty, unit),
              leaves, frame.cost, stop, labour,
              hingeCount, hingeCost, screwCount, screwCost,
              frame.frameM, frame.legMm, frame.headMm)
  }

  /** What the form and the leaf price lookup need: the leaf type has a price table and a
      code prefix, and the rows of the chosen size have the chosen thickness column. */
  predicate Addable(s: Settings, d: DoorInput)
  {
    && d.leafType in s.doorLeafPrices && d.leafType in s.prefixMap
    && HasColumn(s.doorLeafPrices[d.leafType], d.height, d.width, d.thickness)
  }

  /** What costing needs once the leaf cost is settled: frame prices for the jamb and for
      the door stop. */
  predicate Framed(s: Settings, d: DoorInput)
  {
    d.jamb in s.framePrices && StopProfile in s.framePrices
  }

  function DoorSku(s: Settings, d: DoorInput): string
    requires d.leafType in s.prefixMap
  {
    CreateSku(s.prefixMap[d.leafType], d.thickness, d.height, d.width, d.jamb, d.form)
  }

  function DoorLeafPrice(s: Settings, d: DoorInput): Option<real>
    requires Addable(s, d)
  {
    LeafPrice(s.doorLeafPrices[d.leafType], d.height, d.width, d.thickness)
  }

  /** The quote line for a door whose leaf cost is settled. */
  function PricedLine(s: Settings, hingeTable: seq<HingeRow>, d: DoorInput, leafCost: real, cust: string, proj: string): QuoteLine
    requires d.leafType in s.prefixMap && Framed(s, d)
  {
    var sku := DoorSku(s, d);
    CostLine(s, d, leafCost, HingeLookup(hingeTable, d.height, d.width, s.hingesPerDoor, s.hingeScrews),
             sku, Description(hingeTable, sku), cust, proj)
  }

  // ---------------------------------------------------------------
  // the quote being built (lines 169, 236-239)
  // ---------------------------------------------------------------

  /** The in-progress quote held by the session: its lines, customer and project, and any
      pending POA entries. */
  class QuoteSession {
    var rows: seq<QuoteLine>
    var cust: string
    var proj: string
    var poa: map<string, real>

    constructor ()
      ensures rows == [] && cust == "" && proj == "" && poa == map[]
    {
      rows := [];
      cust := "";
      proj := "";
      poa := map[];
    }

    /** "Add Line": appends exactly one priced line at the end when the POA gate lets the
        door through, and nothing otherwise; earlier lines, customer and project are kept.
        The frame prices are looked up only for a door the gate lets through. */
    method AddLine(s: Settings, hingeTable: seq<HingeRow>, d: DoorInput) returns (added: bool)
      requires Addable(s, d)
      requires PoaGate(DoorLeafPrice(s, d), PoaKey(d), poa).Proceed? ==> Framed(s, d)
      modifies this
      ensures cust == old(cust) && proj == old(proj)
      ensures var g := PoaGate(DoorLeafPrice(s, d), PoaKey(d), old(poa));
              && added == g.Proceed?
              && poa == g.poa
              && rows == if added then old(rows) + [PricedLine(s, hingeTable, d, g.leafCost, cust, proj)] else old(rows)
    {
      var gate := PoaGate(DoorLeafPrice(s, d), PoaKey(d), poa);
      poa := gate.poa;
      added := gate.Proceed?;
      if added {
        rows := rows + [PricedLine(s, hingeTable, d, gate.leafCost, cust, proj)];
      }
    }

    /** "Reset All": no lines, no customer, no project. */
    method Reset()
      modifies this
      ensures rows == [] && cust == "" && proj == ""
      ensures poa == old(poa)
    {
      rows := [];
      cust := "";
      proj := "";
    }
  }

  // ---------------------------------------------------------------
  // summary and margin (lines 181-188)
  // ---------------------------------------------------------------

  /** Sell price of a cost under a markup percentage. */
  function Sell(cost: real, markup: real): real
  {
    cost * (1.0 + markup / 100.0)
  }

  /** The per-line margin column; the division is unguarded there, so a zero sell price has
      no margin (`None`, where the table shows NaN or infinity). */
  function LineMargin(cost: real, markup: real): (m: Option<real>)
    ensures m.None? <==> Sell(cost, markup) == 0.0
    ensures m.Some? ==> m.value * Sell(cost, markup) == (Sell(cost, markup) - cost) * 100.0
  {
    var sell := Sell(cost, markup);
    if sell == 0.0 then None else Some((sell - cost) / sell * 100.0)
  }

  datatype Summary = Summary(lines: nat, totalQty: int, totalCost: real, totalSell: real, marginPct: real)

  function SumTotalCost(rows: seq<QuoteLine>): real
  {
    if |rows| == 0 then 0.0 else SumTotalCost(rows[..|rows| - 1]) + rows[|rows| - 1].totalCost
  }

  function SumSell(rows: seq<QuoteLine>, markup: real): real
  {
    if |rows| == 0 then 0.0 else SumSell(rows[..|rows| - 1], markup) + Sell(rows[|rows| - 1].totalCost, markup)
  }

  function SumQty(rows: seq<QuoteLine>): int
  {
    if |rows| == 0 then 0 else SumQty(rows[..|rows| - 1]) + rows[|rows| - 1].qty
  }

  /** Summing each line's sell price is selling the summed cost. */
  lemma {:induction false} SumSellIsSellOfSum(rows: seq<QuoteLine>, markup: real)
    ensures SumSell(rows, markup) == Sell(SumTotalCost(rows), markup)
  {
    if |rows| > 0 {
      SumSellIsSellOfSum(rows[..|rows| - 1], markup);
    }
  }

  /** The quote totals; the overall margin is guarded: 0 unless the total sell is positive. */
  function QuoteSummary(rows: seq<QuoteLine>, markup: real): (s: Summary)
    ensures s.lines == |rows| && s.totalQty == SumQty(rows) && s.totalCost == SumTotalCost(rows)
    ensures s.totalSell == Sell(s.totalCost, markup)
    ensures s.totalSell > 0.0 ==> s.marginPct * s.totalSell == (s.totalSell - s.totalCost) * 100.0
    ensures s.totalSell <= 0.0 ==> s.marginPct == 0.0
  {
    var cost := SumTotalCost(rows);
    var sell := SumSell(rows, markup);
    SumSellIsSellOfSum(rows, markup);
    Summary(|rows|, SumQty(rows), cost, sell, if sell > 0.0 then (sell - cost) / sell * 100.0 else 0.0)
  }

  /** With a positive total sell price the overall margin depends on the markup alone:
      markup / (100 + markup) * 100. */
  lemma MarginFromMarkup(rows: seq<QuoteLine>, markup: real)
    requires QuoteSummary(rows, markup).totalSell > 0.0
    ensures (100.0 + markup) != 0.0
    ensures QuoteSummary(rows, markup).marginPct == markup / (100.0 + markup) * 100.0
  {
    var s := QuoteSummary(rows, markup);
    var c := s.totalCost;
    var k := 1.0 + markup / 100.0;
    assert s.totalSell == c * k;
    assert c != 0.0 && k != 0.0;
    assert s.totalSell - c == c * (markup / 100.0);
    assert (s.totalSell - c) / s.totalSell == (markup / 100.0) / k;
    assert (markup / 100.0) / k == markup / (100.0 + markup);
  }
}
