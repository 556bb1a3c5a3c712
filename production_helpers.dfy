/** Production-stage geometry and stock planning of core/production_helpers.py: the final
    (cut) height of a measured door, the production head length, frame and stop metres,
    grouping of measured doors by (final height, leaf type), and the aggregate stock
    strategies that turn a total length into 5.4 m and 2.1 m stock counts. */
module ProductionHelpers {
  import opened Wrappers
  import opened Text
  import Pricing

  // ---------------------------------------------------------------
  // calc_final_height, calc_head_length, calc_frame_lengths
  // ---------------------------------------------------------------

  /** Clearance added above the leaf at the production stage (mm). */
  const ClearanceMm: int := 3

  /** Production height: the leaf height plus clearance, undercut and finished floor height. */
  function CalcFinalHeight(leafHeight: int, undercut: int, finishedFloorHeight: int): (h: int)
    ensures h - leafHeight == ClearanceMm + undercut + finishedFloorHeight
  {
    leafHeight + 3 + undercut + finishedFloorHeight
  }

  /** Production head length: width plus a 6 mm gap for a single frame, 3 mm for any other
      form, plus two jamb thicknesses. */
  function CalcHeadLength(width: real, jambThickness: real, form: string): (head: real)
    ensures head - width - 2.0 * jambThickness == (if form == "Single" then 6.0 else 3.0)
  {
    if form == "Single" then width + 6.0 + jambThickness * 2.0 else width + 3.0 + jambThickness * 2.0
  }

  /** A single head is exactly 3 mm longer than the head of any other form with the same
      width and jamb thickness. */
  lemma SingleHeadThreeLonger(width: real, jambThickness: real, form: string)
    requires form != "Single"
    ensures CalcHeadLength(width, jambThickness, "Single") == CalcHeadLength(width, jambThickness, form) + 3.0
  {
  }

  /** The quoting-stage head (Pricing) and the production head differ: equal for a single
      frame, a whole leaf width plus 6 mm longer at quoting for a double frame, and 3 mm
      longer at quoting for any other form. */
  lemma QuoteHeadVersusProductionHead(width: int, jambThickness: nat, form: string)
    ensures form == "Single" ==>
      Pricing.QuoteHeadMm(width, jambThickness, form) as real == CalcHeadLength(width as real, jambThickness as real, form)
    ensures form == "Double" ==>
      Pricing.QuoteHeadMm(width, jambThickness, form) as real == CalcHeadLength(width as real, jambThickness as real, form) + width as real + 6.0
    ensures form != "Single" && form != "Double" ==>
      Pricing.QuoteHeadMm(width, jambThickness, form) as real == CalcHeadLength(width as real, jambThickness as real, form) + 3.0
  {
  }

  datatype FrameLengths = FrameLengths(perDoorM: real, totalFrameM: real, totalStopM: real)

  /** Frame metres for one door (two legs and a head), for `qty` doors, and the stop metres,
      which always equal the frame metres. */
  function CalcFrameLengths(legMm: real, headMm: real, qty: int): (f: FrameLengths)
    ensures f.perDoorM * 1000.0 == 2.0 * legMm + headMm
    ensures f.totalFrameM == f.perDoorM * qty as real
    ensures f.totalStopM == f.totalFrameM
  {
    var perDoor := (legMm * 2.0 + headMm) / 1000.0;
    var total := perDoor * qty as real;
    FrameLengths(perDoor, total, total)
  }

  // ---------------------------------------------------------------
  // group_production_rows
  // ---------------------------------------------------------------

  /** One measured production entry. */
  datatype MeasurementRow = MeasurementRow(quoteLine: int, leafType: string, leafHeight: int, width: int,
                                           jambThickness: real, form: string, undercut: int,
                                           finishedFloorHeight: int, qty: int)

  datatype GroupKey = GroupKey(finalHeight: int, leafType: string)

  /** One production group: the key, the descriptive fields of its first member in input
      order, and the summed quantity. */
  datatype GroupRow = GroupRow(finalHeight: int, leafType: string, quoteLine: int, leafHeight: int,
                               width: int, jambThickness: real, form: string, qty: int)

  function KeyOf(r: MeasurementRow): GroupKey
  {
    GroupKey(CalcFinalHeight(r.leafHeight, r.undercut, r.finishedFloorHeight), r.leafType)
  }

  /** The order of the group index: by final height, then by leaf type as text. */
  predicate KeyLess(a: GroupKey, b: GroupKey)
  {
    a.finalHeight < b.finalHeight || (a.finalHeight == b.finalHeight && StrLess(a.leafType, b.leafType))
  }

  lemma KeyLessIrreflexive(a: GroupKey)
    ensures !KeyLess(a, a)
  {
    StrLessAsymmetric(a.leafType, a.leafType);
  }

  lemma KeyLessTotal(a: GroupKey, b: GroupKey)
    requires a != b
    ensures KeyLess(a, b) || KeyLess(b, a)
  {
    if a.finalHeight == b.finalHeight {
      StrLessTotal(a.leafType, b.leafType);
    }
  }

  lemma KeyLessTransitive(a: GroupKey, b: GroupKey, c: GroupKey)
    requires KeyLess(a, b) && KeyLess(b, c)
    ensures KeyLess(a, c)
  {
    if a.finalHeight == b.finalHeight == c.finalHeight {
      StrLessTransitive(a.leafType, b.leafType, c.leafType);
    }
  }

  predicate Ascending(keys: seq<GroupKey>)
  {
    forall i :: 0 < i < |keys| ==> KeyLess(keys[i - 1], keys[i])
  }

  lemma {:induction false} AscendingPairwise(keys: seq<GroupKey>, i: nat, j: nat)
    requires Ascending(keys) && i < j < |keys|
    ensures KeyLess(keys[i], keys[j])
    decreases j - i
  {
    if j > i + 1 {
      AscendingPairwise(keys, i, j - 1);
      KeyLessTransitive(keys[i], keys[j - 1], keys[j]);
    }
  }

  lemma AscendingDistinct(keys: seq<GroupKey>, i: nat, j: nat)
    requires Ascending(keys) && i < j < |keys|
    ensures keys[i] != keys[j]
  {
    AscendingPairwise(keys, i, j);
    KeyLessIrreflexive(keys[i]);
  }

  function InsertKey(k: GroupKey, keys: seq<GroupKey>): (r: seq<GroupKey>)
    requires Ascending(keys) && k !in keys
    ensures Ascending(r)
    ensures forall x :: x in r <==> x in keys || x == k
    ensures |r| == |keys| + 1
    ensures r[0] == k || (|keys| > 0 && r[0] == keys[0])
  {
    if |keys| == 0 then [k]
    else if KeyLess(k, keys[0]) then [k] + keys
    else
      KeyLessTotal(k, keys[0]);
      [keys[0]] + InsertKey(k, keys[1..])
  }

  predicate HasMember(rows: seq<MeasurementRow>, k: GroupKey)
  {
    exists i :: 0 <= i < |rows| && KeyOf(rows[i]) == k
  }

  /** Keys of the rows but the last, and the key of the last row, are keys of the rows. */
  lemma KeysOfGrownRows(rows: seq<MeasurementRow>, ks: seq<GroupKey>, r: seq<GroupKey>)
    requires |rows| > 0
    requires forall g :: 0 <= g < |ks| ==> HasMember(rows[..|rows| - 1], ks[g])
    requires forall x :: x in r ==> x in ks || x == KeyOf(rows[|rows| - 1])
    ensures forall g :: 0 <= g < |r| ==> HasMember(rows, r[g])
  {
    var init := rows[..|rows| - 1];
    forall g | 0 <= g < |r| ensures HasMember(rows, r[g]) {
      if r[g] == KeyOf(rows[|rows| - 1]) {
        assert KeyOf(rows[|rows| - 1]) == r[g];
      } else {
        assert r[g] in ks;
        var h :| 0 <= h < |ks| && ks[h] == r[g];
        var i :| 0 <= i < |init| && KeyOf(init[i]) == ks[h];
        assert KeyOf(rows[i]) == r[g];
      }
    }
  }

  /** The distinct keys of the rows in ascending order, as `groupby` lists its groups. */
  function DistinctKeys(rows: seq<MeasurementRow>): (keys: seq<GroupKey>)
    ensures Ascending(keys)
    ensures forall i :: 0 <= i < |rows| ==> KeyOf(rows[i]) in keys
    ensures forall g :: 0 <= g < |keys| ==> HasMember(rows, keys[g])
  {
    if |rows| == 0 then []
    else
      var init := rows[..|rows| - 1];
      var ks := DistinctKeys(init);
      var k := KeyOf(rows[|rows| - 1]);
      var r := if k in ks then ks else InsertKey(k, ks);
      assert forall i :: 0 <= i < |init| ==> init[i] == rows[i];
      KeysOfGrownRows(rows, ks, r);
      r
  }

  /** Sum of the quantities of the rows with key `k`. */
  function QtyOfKey(rows: seq<MeasurementRow>, k: GroupKey): int
  {
    if |rows| == 0 then 0
    else QtyOfKey(rows[..|rows| - 1], k) + (if KeyOf(rows[|rows| - 1]) == k then rows[|rows| - 1].qty else 0)
  }

  function MemberOf(k: GroupKey): MeasurementRow -> bool
  {
    (r: MeasurementRow) => KeyOf(r) == k
  }

  /** The group of key `k`: first member's fields, summed quantity. */
  function MakeGroup(rows: seq<MeasurementRow>, k: GroupKey): GroupRow
    requires HasMember(rows, k)
  {
    var hit := FirstIndex(rows, MemberOf(k));
    assert hit.Some? by {
      var i :| 0 <= i < |rows| && KeyOf(rows[i]) == k;
      assert MemberOf(k)(rows[i]);
    }
    var first := rows[hit.value];
    GroupRow(k.finalHeight, k.leafType, first.quoteLine, first.leafHeight, first.width,
             first.jambThickness, first.form, QtyOfKey(rows, k))
  }

  function KeyOfGroup(g: GroupRow): GroupKey
  {
    GroupKey(g.finalHeight, g.leafType)
  }

  function GroupKeys(groups: seq<GroupRow>): (keys: seq<GroupKey>)
    ensures |keys| == |groups| && forall g :: 0 <= g < |groups| ==> keys[g] == KeyOfGroup(groups[g])
  {
    if |groups| == 0 then [] else GroupKeys(groups[..|groups| - 1]) + [KeyOfGroup(groups[|groups| - 1])]
  }

  /** The groups of the listed keys, in the listed order. */
  function GroupsFor(rows: seq<MeasurementRow>, keys: seq<GroupKey>): (groups: seq<GroupRow>)
    requires forall g :: 0 <= g < |keys| ==> HasMember(rows, keys[g])
    ensures |groups| == |keys|
    ensures forall g :: 0 <= g < |keys| ==> groups[g] == MakeGroup(rows, keys[g])
  {
    if |keys| == 0 then []
    else
      assert forall g :: 0 <= g < |keys| - 1 ==> keys[..|keys| - 1][g] == keys[g];
      GroupsFor(rows, keys[..|keys| - 1]) + [MakeGroup(rows, keys[|keys| - 1])]
  }

  /** `group_production_rows`: the group of every distinct (final height, leaf type), in
      ascending key order. The input is a value and is left as it was. */
  function GroupProductionRows(rows: seq<MeasurementRow>): (groups: seq<GroupRow>)
    ensures GroupKeys(groups) == DistinctKeys(rows)
    ensures forall g :: 0 <= g < |groups| ==> groups[g].qty == QtyOfKey(rows, KeyOfGroup(groups[g]))
  {
    GroupsFor(rows, DistinctKeys(rows))
  }

  /** One group per distinct key: the group keys ascend strictly (so none repeats), every
      row's key has a group, and every group's key is some row's key. */
  lemma GroupKeysExact(rows: seq<MeasurementRow>)
    ensures Ascending(GroupKeys(GroupProductionRows(rows)))
    ensures forall i :: 0 <= i < |rows| ==> KeyOf(rows[i]) in GroupKeys(GroupProductionRows(rows))
    ensures forall k :: k in GroupKeys(GroupProductionRows(rows)) ==> exists i :: 0 <= i < |rows| && KeyOf(rows[i]) == k
  {
    var keys := DistinctKeys(rows);
    forall k | k in keys ensures exists i :: 0 <= i < |rows| && KeyOf(rows[i]) == k {
      var g :| 0 <= g < |keys| && keys[g] == k;
    }
  }

  /** A group's descriptive fields are those of its first member in input order. */
  lemma GroupFieldsFromFirstMember(rows: seq<MeasurementRow>, g: nat, f: nat)
    requires g < |GroupProductionRows(rows)| && f < |rows|
    requires KeyOf(rows[f]) == KeyOfGroup(GroupProductionRows(rows)[g])
    requires forall j :: 0 <= j < f ==> KeyOf(rows[j]) != KeyOfGroup(GroupProductionRows(rows)[g])
    ensures var grp := GroupProductionRows(rows)[g];
            && grp.quoteLine == rows[f].quoteLine && grp.leafHeight == rows[f].leafHeight
            && grp.width == rows[f].width && grp.jambThickness == rows[f].jambThickness
            && grp.form == rows[f].form
  {
    var keys := DistinctKeys(rows);
    assert GroupKeys(GroupProductionRows(rows))[g] == keys[g];
    FirstIndexIsFirstHit(rows, MemberOf(keys[g]), f);
  }

  /** No key is grouped twice. */
  lemma GroupsDistinct(rows: seq<MeasurementRow>, g1: nat, g2: nat)
    requires g1 < g2 < |GroupProductionRows(rows)|
    ensures KeyOfGroup(GroupProductionRows(rows)[g1]) != KeyOfGroup(GroupProductionRows(rows)[g2])
  {
    var keys := GroupKeys(GroupProductionRows(rows));
    AscendingDistinct(keys, g1, g2);
  }

  function TotalQty(rows: seq<MeasurementRow>): int
  {
    if |rows| == 0 then 0 else TotalQty(rows[..|rows| - 1]) + rows[|rows| - 1].qty
  }

  function TotalGroupQty(groups: seq<GroupRow>): int
  {
    if |groups| == 0 then 0 else TotalGroupQty(groups[..|groups| - 1]) + groups[|groups| - 1].qty
  }

  /** Sum over the listed keys of each key's summed quantity. */
  function QtyOverKeys(keys: seq<GroupKey>, rows: seq<MeasurementRow>): int
  {
    if |keys| == 0 then 0 else QtyOverKeys(keys[..|keys| - 1], rows) + QtyOfKey(rows, keys[|keys| - 1])
  }

  predicate DistinctSeq(keys: seq<GroupKey>)
  {
    forall i, j :: 0 <= i < j < |keys| ==> keys[i] != keys[j]
  }

  lemma {:induction false} QtyOverKeysAppendRow(keys: seq<GroupKey>, rows: seq<MeasurementRow>, r: MeasurementRow)
    requires DistinctSeq(keys)
    ensures QtyOverKeys(keys, rows + [r]) == QtyOverKeys(keys, rows) + (if KeyOf(r) in keys then r.qty else 0)
  {
    if |keys| > 0 {
      var init := keys[..|keys| - 1];
      assert (rows + [r])[..|rows|] == rows;
      QtyOverKeysAppendRow(init, rows, r);
      assert KeyOf(r) in keys <==> KeyOf(r) in init || KeyOf(r) == keys[|keys| - 1];
    }
  }

  lemma {:induction false} QtyOverCoveringKeys(keys: seq<GroupKey>, rows: seq<MeasurementRow>)
    requires DistinctSeq(keys)
    requires forall i :: 0 <= i < |rows| ==> KeyOf(rows[i]) in keys
    ensures QtyOverKeys(keys, rows) == TotalQty(rows)
  {
    if |rows| == 0 {
      QtyOverKeysNoRows(keys);
    } else {
      var init := rows[..|rows| - 1];
      var r := rows[|rows| - 1];
      assert rows == init + [r];
      QtyOverCoveringKeys(keys, init);
      QtyOverKeysAppendRow(keys, init, r);
    }
  }

  lemma {:induction false} QtyOverKeysNoRows(keys: seq<GroupKey>)
    ensures QtyOverKeys(keys, []) == 0
  {
    if |keys| > 0 {
      QtyOverKeysNoRows(keys[..|keys| - 1]);
    }
  }

  lemma {:induction false} TotalGroupQtyIsQtyOverKeys(groups: seq<GroupRow>, rows: seq<MeasurementRow>)
    requires forall g :: 0 <= g < |groups| ==> groups[g].qty == QtyOfKey(rows, KeyOfGroup(groups[g]))
    ensures TotalGroupQty(groups) == QtyOverKeys(GroupKeys(groups), rows)
  {
    if |groups| > 0 {
      var init := groups[..|groups| - 1];
      TotalGroupQtyIsQtyOverKeys(init, rows);
      assert GroupKeys(groups)[..|groups| - 1] == GroupKeys(init);
    }
  }

  /** Grouping preserves the total quantity: every door is counted in exactly one group. */
  lemma GroupingPreservesTotalQty(rows: seq<MeasurementRow>)
    ensures TotalGroupQty(GroupProductionRows(rows)) == TotalQty(rows)
  {
    var groups := GroupProductionRows(rows);
    var keys := GroupKeys(groups);
    forall i, j | 0 <= i < j < |keys| ensures keys[i] != keys[j] {
      AscendingDistinct(keys, i, j);
    }
    TotalGroupQtyIsQtyOverKeys(groups, rows);
    QtyOverCoveringKeys(keys, rows);
  }

  // ---------------------------------------------------------------
  // apply_stock_strategy
  // ---------------------------------------------------------------

  /** Purchasable stock lengths, in metres. */
  const LongStockM: real := 5.4
  const ShortStockM: real := 2.1

  /** Counts of 5.4 m and 2.1 m lengths and the resulting waste (metres). */
  datatype StockCount = StockCount(count54: int, count21: int, waste: real)

  /** Python's `math.ceil` on a real. */
  function Ceil(x: real): (c: int)
    ensures (c - 1) as real < x <= c as real
  {
    -((-x).Floor)
  }

  lemma CeilUnique(x: real, n: int)
    requires (n - 1) as real < x <= n as real
    ensures Ceil(x) == n
  {
  }

  /** The total length bought under a stock count. */
  function Bought(s: StockCount): real
  {
    s.count54 as real * LongStockM + s.count21 as real * ShortStockM
  }

  /** "Only 5.4": as many 5.4 m lengths as cover the total; the waste is the offcut. */
  function Only54(m: real): (s: StockCount)
    ensures s.count21 == 0 && s.count54 == Ceil(m / LongStockM)
    ensures s.waste == Bought(s) - m
    ensures 0.0 <= s.waste < LongStockM
    ensures m > 0.0 ==> s.count54 >= 1
  {
    var c := Ceil(m / 5.4);
    StockCount(c, 0, c as real * 5.4 - m)
  }

  /** "Only 2.1": as many 2.1 m lengths as cover the total; the waste is the offcut. */
  function Only21(m: real): (s: StockCount)
    ensures s.count54 == 0 && s.count21 == Ceil(m / ShortStockM)
    ensures s.waste == Bought(s) - m
    ensures 0.0 <= s.waste < ShortStockM
    ensures m > 0.0 ==> s.count21 >= 1
  {
    var c := Ceil(m / 2.1);
    StockCount(0, c, c as real * 2.1 - m)
  }

  function Abs(x: real): real { if x < 0.0 then -x else x }

  /** Closed form of the greedy mix: 5.4 m lengths while more than 5.4 m remain, then 2.1 m
      lengths until nothing remains. */
  function MixSpec(m: real): (s: StockCount)
    ensures s.count54 >= 0 && s.count21 >= 0
    ensures s.waste == Bought(s) - m
    ensures m > 0.0 ==> 0.0 <= s.waste < ShortStockM && s.count21 >= 1 && s.count21 <= 3
    ensures m <= 0.0 ==> s.count54 == 0 && s.count21 == 0
  {
    var c54 := if m > 5.4 then Ceil(m / 5.4) - 1 else 0;
    var rem := m - c54 as real * 5.4;
    assert m > 0.0 ==> 0.0 < rem <= 5.4;
    var c21 := if rem > 0.0 then Ceil(rem / 2.1) else 0;
    StockCount(c54, c21, Abs(rem - c21 as real * 2.1))
  }

  /** `mix_lengths`: the two greedy loops. */
  method MixLengths(m: real) returns (s: StockCount)
    ensures s == MixSpec(m)
  {
    var remaining := m;
    var count54 := 0;
    var count21 := 0;
    while remaining > 5.4
      invariant count54 >= 0
      invariant remaining == m - count54 as real * 5.4
      invariant count54 > 0 ==> remaining > 0.0
      decreases remaining.Floor
    {
      count54 := count54 + 1;
      remaining := remaining - 5.4;
    }
    if m > 5.4 {
      CeilUnique(m / 5.4, count54 + 1);
    }
    ghost var rem := remaining;
    while remaining > 0.0
      invariant count21 >= 0
      invariant remaining == rem - count21 as real * 2.1
      invariant count21 > 0 ==> remaining > -2.1 && rem > 0.0
      decreases remaining.Floor
    {
      count21 := count21 + 1;
      remaining := remaining - 2.1;
    }
    if rem > 0.0 {
      CeilUnique(rem / 2.1, count21);
    }
    s := StockCount(count54, count21, Abs(remaining));
  }

  /** `apply_stock_strategy`: "Only 5.4", "Only 2.1", and the greedy mix for any other
      strategy name. Whatever the strategy, the waste is what is bought beyond the total. */
  method ApplyStockStrategy(m: real, strategy: string) returns (s: StockCount)
    ensures strategy == "Only 5.4" ==> s == Only54(m)
    ensures strategy == "Only 2.1" ==> s == Only21(m)
    ensures strategy != "Only 5.4" && strategy != "Only 2.1" ==> s == MixSpec(m)
    ensures s.waste == Bought(s) - m
    ensures m > 0.0 ==> 0.0 <= s.waste < (if strategy == "Only 5.4" then LongStockM else ShortStockM)
  {
    if strategy == "Only 5.4" {
      s := Only54(m);
    } else if strategy == "Only 2.1" {
      s := Only21(m);
    } else {
      s := MixLengths(m);
    }
  }

  /** Because the 5.4 m test is strict, exactly 5.4 m is bought as three 2.1 m lengths. */
  lemma MixExactlyOneLongLength()
    ensures MixSpec(5.4) == StockCount(0, 3, 0.9)
  {
    CeilUnique(5.4 / 2.1, 3);
  }

  /** 7 m is one 5.4 m and one 2.1 m length with 0.5 m waste; nothing needs nothing. */
  lemma MixExamples()
    ensures MixSpec(7.0) == StockCount(1, 1, 0.5)
    ensures MixSpec(0.0) == StockCount(0, 0, 0.0)
  {
    CeilUnique(7.0 / 5.4, 2);
    CeilUnique(1.6 / 2.1, 1);
  }
}
