/** The floor-division stock split of core/stock.py. Unlike the aggregate strategies of
    ProductionHelpers, it never buys more than the total: its "waste" is the part of the
    total that the bought lengths leave uncovered. */
module Stock {
  import opened ProductionHelpers

  /** Whole 5.4 m lengths that fit in the total, then whole 2.1 m lengths that fit in the
      rest; a non-positive total needs nothing. */
  function GreedyStock(total: real): (s: StockCount)
    ensures total <= 0.0 ==> s == StockCount(0, 0, 0.0)
    ensures s.count54 >= 0 && s.count21 >= 0 && s.count21 <= 2
    ensures total > 0.0 ==> Bought(s) + s.waste == total
    ensures 0.0 <= s.waste < ShortStockM
    ensures s.count54 as real * LongStockM <= total || total <= 0.0
    ensures total > 0.0 ==> total < (s.count54 + 1) as real * LongStockM
    ensures total > 0.0 ==> s.waste + s.count21 as real * ShortStockM < LongStockM
  {
    if total <= 0.0 then StockCount(0, 0, 0.0)
    else
      var n54 := (total / 5.4).Floor;
      var rem := total - n54 as real * 5.4;
      var n21 := (rem / 2.1).Floor;
      StockCount(n54, n21, rem - n21 as real * 2.1)
  }

  /** For a positive total the floor split buys at most the total and the greedy mix at least
      the total: the first reports the shortfall, the second the offcut. */
  lemma SplitUnderbuysMixOverbuys(total: real)
    requires total > 0.0
    ensures Bought(GreedyStock(total)) <= total <= Bought(MixSpec(total))
    ensures GreedyStock(total).waste == total - Bought(GreedyStock(total))
    ensures MixSpec(total).waste == Bought(MixSpec(total)) - total
  {
  }

  /** The floor split buys no more 5.4 m lengths than the greedy mix does, plus one. */
  lemma SplitLongCountAgainstMix(total: real)
    requires total > 0.0
    ensures MixSpec(total).count54 <= GreedyStock(total).count54 <= MixSpec(total).count54 + 1
  {
  }

  /** 7 m splits into one 5.4 m length and no 2.1 m length, leaving 1.6 m uncovered. */
  lemma SplitExample()
    ensures GreedyStock(7.0) == StockCount(1, 0, 1.6)
  {
  }
}
