/** Benchmark sizing: the largest lot count whose slipped, fee-laden cost fits the fixed budget,
    found by binary search, with a separate verdict when the known depth ends before the money. */
module Sizing {
  import opened Basics
  import opened Depth

  const BUDGET := 10_000.0
  const SLIPPAGE := 0.0002
  const FEE := 0.006

  datatype Sizing =
    | Sized(quantity: real, units: nat, vwap: real, cost: real)
    | Unsized(reason: string)

  function Pow10(n: nat): (r: nat)
    ensures r >= 1
  {
    if n == 0 then 1 else 10 * Pow10(n - 1)
  }

  /** The quantity of a number of lots. */
  function Lots(units: nat, scale: nat): real
    requires scale >= 1
  {
    units as real / scale as real
  }

  function FeeLaden(notional: real): real {
    notional * (1.0 + SLIPPAGE) * (1.0 + FEE)
  }

  function LotCost(asks: seq<Level>, scale: nat, units: nat): real
    requires scale >= 1
  {
    FeeLaden(Cost(asks, Lots(units, scale)))
  }

  /** The lots lie within the depth and their cost within the budget. */
  predicate Affordable(asks: seq<Level>, scale: nat, units: nat)
    requires scale >= 1
  {
    Lots(units, scale) <= Capacity(asks) && LotCost(asks, scale, units) <= BUDGET
  }

  /** Deeper asks nobody has seen yet: each priced at or above the last known one. */
  ghost predicate Extends(asks: seq<Level>, more: seq<Level>)
    requires asks != []
  {
    Positive(more) && forall i :: 0 <= i < |more| ==> more[i].price >= asks[|asks| - 1].price
  }

  /** Some deeper book would afford a lot count that the known book does not. */
  ghost predicate DepthBinds(asks: seq<Level>, scale: nat)
    requires asks != [] && scale >= 1
  {
    exists more, units: nat :: Extends(asks, more) && Affordable(asks + more, scale, units) && !Affordable(asks, scale, units)
  }

  function Best(asks: seq<Level>, scale: nat, limit: int): nat
    requires scale >= 1
    decreases limit
  {
    if limit <= 0 then 0 else if Affordable(asks, scale, limit) then limit else Best(asks, scale, limit - 1)
  }

  function LotCapacity(asks: seq<Level>, scale: nat): int
    requires scale >= 1
  {
    (Capacity(asks) * scale as real).Floor
  }

  /** The cheapest conceivable cost of the first lot that leaves the known depth. */
  function MinimalCost(asks: seq<Level>, scale: nat, units: nat): real
    requires asks != [] && scale >= 1
  {
    FeeLaden(Cost(asks, Capacity(asks)) + Value(Lots(units, scale) - Capacity(asks), asks[|asks| - 1].price))
  }

  /** What the search must answer: a plain downward scan instead of the binary search. */
  function SizingOf(book: Book, quantityDecimals: int): Sizing {
    if !(0 <= quantityDecimals <= 12) then Unsized("INVALID_PRECISION")
    else if !DepthBook(book) then Unsized("BOOK_INVALID")
    else
      var scale := Pow10(quantityDecimals);
      var capacity := LotCapacity(book.asks, scale);
      if !(0 <= capacity <= MAX_SAFE) then Unsized("NUMERIC_RANGE")
      else
        var units := Best(book.asks, scale, capacity);
        if units == MAX_SAFE then Unsized("NUMERIC_RANGE")
        else if Lots(units + 1, scale) > Capacity(book.asks) && MinimalCost(book.asks, scale, units + 1) <= BUDGET
        then Unsized("INSUFFICIENT_DEPTH")
        else if units == 0 then Unsized("ZERO_FUNDED_LOTS")
        else
          LotsOrder(0, units, scale);
          var quantity := Lots(units, scale);
          Sized(quantity, units, Average(Cost(book.asks, quantity), quantity), LotCost(book.asks, scale, units))
  }

  // ---- Lots

  lemma LotsOrder(u: nat, v: nat, scale: nat)
    requires scale >= 1
    ensures u < v ==> Lots(u, scale) < Lots(v, scale)
    ensures Lots(0, scale) == 0.0
    ensures u > 0 ==> Lots(u, scale) > 0.0
    ensures Lots(u, scale) * scale as real == u as real
  {
  }

  lemma LotsWithin(u: nat, scale: nat, total: real)
    requires scale >= 1 && total >= 0.0
    ensures Lots(u, scale) <= total <==> u <= (total * scale as real).Floor
    ensures (total * scale as real).Floor >= 0
  {
    LotsOrder(u, u, scale);
    var s, q := scale as real, Lots(u, scale);
    assert q <= total ==> q * s <= total * s;
    assert q > total ==> q * s > total * s;
  }

  // ---- Cost over growing quantities and growing books

  lemma {:induction false} CostMonotone(levels: seq<Level>, q1: real, q2: real)
    requires Positive(levels) && 0.0 <= q1 <= q2
    ensures Cost(levels, q1) <= Cost(levels, q2)
  {
    hide Value;
    if levels != [] {
      var l := levels[0];
      var t1, t2 := Min(q1, l.quantity), Min(q2, l.quantity);
      CostMonotone(levels[1..], q1 - t1, q2 - t2);
      ValueGrows(t1, t2, l.price);
    }
  }

  lemma ValueGrows(q1: real, q2: real, price: real)
    requires q1 <= q2 && price >= 0.0
    ensures Value(q1, price) <= Value(q2, price)
  {
  }

  lemma {:induction false} CostAtLeastPrice(levels: seq<Level>, q: real, p: real)
    requires Positive(levels) && forall i :: 0 <= i < |levels| ==> levels[i].price >= p
    requires 0.0 <= q <= Capacity(levels)
    ensures Cost(levels, q) >= Value(q, p)
  {
    hide Value;
    if levels != [] {
      var l := levels[0];
      var t := Min(q, l.quantity);
      CostAtLeastPrice(levels[1..], q - t, p);
      Split(q, t, p);
      ValueMonotone(t, p, l.price);
    } else {
      Nothing(p);
    }
  }

  /** Consumption of a deeper book: the known depth first, then the rest. */
  lemma {:induction false} CostOfExtension(asks: seq<Level>, more: seq<Level>, q: real)
    requires Positive(asks) && Positive(more) && q >= 0.0
    ensures Capacity(asks + more) == Capacity(asks) + Capacity(more)
    ensures Cost(asks + more, q) ==
            if q <= Capacity(asks) then Cost(asks, q)
            else Cost(asks, Capacity(asks)) + Cost(more, q - Capacity(asks))
  {
    hide Value;
    if asks == [] {
      assert asks + more == more;
      if q == 0.0 { CostOfNothing(more); }
    } else {
      var t := Min(q, asks[0].quantity);
      CostOfExtension(asks[1..], more, q - t);
      assert (asks + more)[1..] == asks[1..] + more;
      assert Capacity(asks) - asks[0].quantity == Capacity(asks[1..]);
    }
  }

  lemma ZeroLotsAffordable(asks: seq<Level>, scale: nat)
    requires Positive(asks) && scale >= 1
    ensures Affordable(asks, scale, 0)
  {
    LotsOrder(0, 0, scale);
    CostOfNothing(asks);
  }

  lemma AffordableDownwards(asks: seq<Level>, scale: nat, u: nat, v: nat)
    requires Positive(asks) && scale >= 1 && u <= v && Affordable(asks, scale, v)
    ensures Affordable(asks, scale, u)
  {
    hide Lots;
    LotsOrder(u, v, scale);
    LotsOrder(0, u, scale);
    CostMonotone(asks, Lots(u, scale), Lots(v, scale));
  }

  lemma {:induction false} BestIsGreatest(asks: seq<Level>, scale: nat, limit: nat)
    requires Positive(asks) && scale >= 1
    ensures Best(asks, scale, limit) <= limit
    ensures Affordable(asks, scale, Best(asks, scale, limit))
    ensures forall u: nat :: Best(asks, scale, limit) < u <= limit ==> !Affordable(asks, scale, u)
  {
    hide LotCost;
    if limit == 0 {
      ZeroLotsAffordable(asks, scale);
    } else if !Affordable(asks, scale, limit) {
      BestIsGreatest(asks, scale, limit - 1);
    }
  }

  /** Any deeper book charges at least the last known price beyond the known depth. */
  lemma BeyondDepth(asks: seq<Level>, more: seq<Level>, scale: nat, u: nat, last: real)
    requires asks != [] && Positive(asks) && Extends(asks, more) && scale >= 1
    requires last == asks[|asks| - 1].price
    requires Capacity(asks) < Lots(u, scale) <= Capacity(asks + more)
    ensures LotCost(asks + more, scale, u) >=
            FeeLaden(Cost(asks, Capacity(asks)) + Value(Lots(u, scale) - Capacity(asks), last))
  {
    hide Value;
    hide Lots;
    CostOfExtension(asks, more, Lots(u, scale));
    CostAtLeastPrice(more, Lots(u, scale) - Capacity(asks), last);
  }

  lemma {:induction false} ScaledUp(levels: seq<Level>, extra: Level, q: real)
    requires levels == [extra] && 0.0 <= q <= extra.quantity
    ensures Cost(levels, q) == Value(q, extra.price)
  {
    hide Value;
    assert levels[1..] == [];
  }

  /** A book that one level at the last price would let buy one lot more. */
  lemma OneMoreLevelAffords(asks: seq<Level>, scale: nat, units: nat, last: real)
    requires asks != [] && Positive(asks) && scale >= 1 && last == asks[|asks| - 1].price
    requires Lots(units + 1, scale) > Capacity(asks)
    requires FeeLaden(Cost(asks, Capacity(asks)) + Value(Lots(units + 1, scale) - Capacity(asks), last)) <= BUDGET
    ensures DepthBinds(asks, scale)
  {
    hide Value;
    hide Lots;
    hide FeeLaden;
    var next := Lots(units + 1, scale);
    var extra := Level(last, next - Capacity(asks));
    CostOfExtension(asks, [extra], next);
    ScaledUp([extra], extra, next - Capacity(asks));
    assert [extra][1..] == [];
    assert Affordable(asks + [extra], scale, units + 1) && !Affordable(asks, scale, units + 1);
  }

  /** A deeper book affording more affords, in particular, one lot beyond the best known count. */
  lemma DepthBindsAtNext(asks: seq<Level>, scale: nat, units: nat) returns (more: seq<Level>)
    requires asks != [] && Positive(asks) && scale >= 1
    requires Affordable(asks, scale, units) && DepthBinds(asks, scale)
    ensures Extends(asks, more) && Positive(asks + more) && Affordable(asks + more, scale, units + 1)
  {
    hide Lots;
    hide LotCost;
    var u: nat;
    more, u :| Extends(asks, more) && Affordable(asks + more, scale, u) && !Affordable(asks, scale, u);
    if u <= units {
      AffordableDownwards(asks, scale, u, units);
      assert false;
    }
    AffordableDownwards(asks + more, scale, units + 1, u);
  }

  /** The check past the end of the book decides exactly whether depth binds.  `units` is affordable
      within the book; the next lot does not fit the known depth. */
  lemma DepthCheck(asks: seq<Level>, scale: nat, units: nat)
    requires asks != [] && Positive(asks) && scale >= 1
    requires Affordable(asks, scale, units) && Lots(units + 1, scale) > Capacity(asks)
    ensures DepthBinds(asks, scale) <==> MinimalCost(asks, scale, units + 1) <= BUDGET
  {
    hide Value;
    hide Lots;
    hide Cost;
    hide FeeLaden;
    hide DepthBinds;
    var last := asks[|asks| - 1].price;
    if DepthBinds(asks, scale) {
      var more := DepthBindsAtNext(asks, scale, units);
      BeyondDepth(asks, more, scale, units + 1, last);
    } else if MinimalCost(asks, scale, units + 1) <= BUDGET {
      OneMoreLevelAffords(asks, scale, units, last);
    }
  }

  /** When the next lot fits the known depth but not the budget, no deeper book helps. */
  lemma BudgetBinds(asks: seq<Level>, scale: nat, units: nat)
    requires asks != [] && Positive(asks) && scale >= 1
    requires Affordable(asks, scale, units) && Lots(units + 1, scale) <= Capacity(asks)
    requires !Affordable(asks, scale, units + 1)
    ensures !DepthBinds(asks, scale)
  {
    hide Value;
    hide Lots;
    hide Cost;
    hide DepthBinds;
    if DepthBinds(asks, scale) {
      var more := DepthBindsAtNext(asks, scale, units);
      LotsOrder(0, units + 1, scale);
      CostOfExtension(asks, more, Lots(units + 1, scale));
      assert false;
    }
  }

  // ---- The meaning of each verdict

  /** For the best lot count of the book, depth binds exactly when the code's two tests say so. */
  lemma DepthVerdict(asks: seq<Level>, scale: nat)
    requires asks != [] && Positive(asks) && scale >= 1
    ensures var best := Best(asks, scale, LotCapacity(asks, scale));
            DepthBinds(asks, scale) <==>
            Lots(best + 1, scale) > Capacity(asks) && MinimalCost(asks, scale, best + 1) <= BUDGET
  {
    hide Lots;
    hide DepthBinds;
    hide LotCost;
    var capacity := LotCapacity(asks, scale);
    CapacityNonNegative(asks, scale);
    BestIsGreatest(asks, scale, capacity);
    var best := Best(asks, scale, capacity);
    assert !Affordable(asks, scale, best + 1);
    if Lots(best + 1, scale) > Capacity(asks) {
      DepthCheck(asks, scale, best);
    } else {
      BudgetBinds(asks, scale, best);
    }
  }

  lemma CapacityNonNegative(asks: seq<Level>, scale: nat)
    requires Positive(asks) && scale >= 1
    ensures LotCapacity(asks, scale) >= 0
    ensures forall u: nat :: Affordable(asks, scale, u) ==> u <= LotCapacity(asks, scale)
  {
    forall u: nat | Affordable(asks, scale, u) ensures u <= LotCapacity(asks, scale) {
      LotsWithin(u, scale, Capacity(asks));
    }
    LotsWithin(0, scale, Capacity(asks));
  }

  /** A size is the greatest affordable one, in the known book and in every deeper book. */
  lemma SizedIsGreatestEverywhere(book: Book, decimals: int)
    requires SizingOf(book, decimals).Sized?
    ensures var r, scale := SizingOf(book, decimals), Pow10(decimals);
            && r.units >= 1 && r.quantity == Lots(r.units, scale)
            && r.cost == LotCost(book.asks, scale, r.units) <= BUDGET
            && Affordable(book.asks, scale, r.units)
            && (forall more, v: nat :: Extends(book.asks, more) && v > r.units ==> !Affordable(book.asks + more, scale, v))
  {
    hide Lots;
    hide LotCost;
    hide MinimalCost;
    var r, scale := SizingOf(book, decimals), Pow10(decimals);
    BestIsGreatest(book.asks, scale, LotCapacity(book.asks, scale));
    DepthVerdict(book.asks, scale);
    LotsOrder(0, r.units, scale);
    CapacityNonNegative(book.asks, scale);
    forall more, v: nat | Extends(book.asks, more) && v > r.units
      ensures !Affordable(book.asks + more, scale, v)
    {
      assert !Affordable(book.asks, scale, v);
    }
  }

  /** For a valid book: the range refusal is given exactly when the lot counts leave the safe integers;
      otherwise no lot is funded exactly when no deeper book funds one, and the depth verdict is given
      exactly when a deeper book would afford a lot count that this one does not. */
  lemma UnsizedVerdicts(book: Book, decimals: int)
    requires 0 <= decimals <= 12 && DepthBook(book)
    ensures var r, asks, scale := SizingOf(book, decimals), book.asks, Pow10(decimals);
            && (r == Unsized("NUMERIC_RANGE") <==>
                LotCapacity(asks, scale) > MAX_SAFE || Affordable(asks, scale, MAX_SAFE))
            && (r != Unsized("NUMERIC_RANGE") ==>
                && (r == Unsized("INSUFFICIENT_DEPTH") <==> DepthBinds(asks, scale))
                && (r == Unsized("ZERO_FUNDED_LOTS") <==>
                    forall more, v: nat :: Extends(asks, more) && v >= 1 ==> !Affordable(asks + more, scale, v))
                && (r.Sized? || r == Unsized("INSUFFICIENT_DEPTH") || r == Unsized("ZERO_FUNDED_LOTS")))
  {
    hide Lots;
    hide LotCost;
    hide MinimalCost;
    var r, asks, scale := SizingOf(book, decimals), book.asks, Pow10(decimals);
    DepthVerdict(asks, scale);
    CapacityNonNegative(asks, scale);
    var capacity := LotCapacity(asks, scale);
    if capacity <= MAX_SAFE {
      BestIsGreatest(asks, scale, capacity);
      NoneFunded(asks, scale, Best(asks, scale, capacity));
    }
  }

  /** No lot is affordable in any deeper book exactly when none is in this one and depth does not bind. */
  lemma NoneFunded(asks: seq<Level>, scale: nat, best: nat)
    requires asks != [] && Positive(asks) && scale >= 1
    requires Affordable(asks, scale, best) && forall u: nat :: u > best ==> !Affordable(asks, scale, u)
    ensures best == 0 && !DepthBinds(asks, scale) <==>
            forall more, v: nat :: Extends(asks, more) && v >= 1 ==> !Affordable(asks + more, scale, v)
  {
    hide Lots;
    hide LotCost;
    if best == 0 && !DepthBinds(asks, scale) {
      forall more, v: nat | Extends(asks, more) && v >= 1
        ensures !Affordable(asks + more, scale, v)
      {
        assert !Affordable(asks, scale, v);
      }
    } else if best > 0 {
      assert Extends(asks, []) && asks + [] == asks;
      assert Affordable(asks + [], scale, best);
    } else {
      var more := DepthBindsAtNext(asks, scale, 0);
    }
  }

  // ---- The search

  lemma SlippedCost(vwap: real, quantity: real, notional: real)
    requires Value(vwap, quantity) == notional
    ensures var n := vwap * (1.0 + SLIPPAGE) * quantity; n + n * FEE == FeeLaden(notional)
  {
    var p, q := vwap, quantity;
    assert p * (1.0 + SLIPPAGE) * q == (p * q) * (1.0 + SLIPPAGE);
  }

  /** Cost of a candidate lot count, in the operation order of the paper broker. */
  method Funded(book: Book, scale: nat, units: nat) returns (r: Sizing)
    requires DepthBook(book) && scale >= 1 && units >= 1
    ensures Lots(units, scale) > 0.0
    ensures Lots(units, scale) > Capacity(book.asks) ==> r == Unsized("INSUFFICIENT_DEPTH")
    ensures Lots(units, scale) <= Capacity(book.asks) ==>
              r == Sized(Lots(units, scale), units, Average(Cost(book.asks, Lots(units, scale)), Lots(units, scale)),
                         LotCost(book.asks, scale, units))
  {
    hide Value;
    hide Average;
    hide FeeLaden;
    hide Lots;
    hide DepthBook;
    LotsOrder(0, units, scale);
    var quantity := Lots(units, scale);
    var price := ConsumeDepth(book, Buy, quantity);
    if price.Rejected? {
      return Unsized(price.reason);
    }
    LevelsPositive(book, Buy);
    CostPositive(book.asks, quantity);
    AverageUnique(price.vwap, quantity, price.notional);
    SlippedCost(price.vwap, quantity, price.notional);
    var cost := SlipAndFee(price.vwap, quantity);
    FeePositive(price.notional);
    if cost <= 0.0 {
      return Unsized("NUMERIC_RANGE");
    }
    return Sized(quantity, units, price.vwap, cost);
  }

  function SlipAndFee(vwap: real, quantity: real): real {
    var notional := vwap * (1.0 + SLIPPAGE) * quantity;
    notional + notional * FEE
  }

  lemma AverageUnique(vwap: real, quantity: real, notional: real)
    requires quantity > 0.0 && Value(vwap, quantity) == notional
    ensures vwap == Average(notional, quantity)
  {
  }

  lemma FeePositive(notional: real)
    requires notional > 0.0
    ensures FeeLaden(notional) > 0.0
  {
  }

  /** Totals of the whole ask side, as the pre-check loop computes them. */
  method Totals(asks: seq<Level>) returns (ok: bool, quantity: real, notional: real)
    requires Positive(asks)
    ensures ok && quantity == Capacity(asks) && notional == Cost(asks, Capacity(asks))
    ensures asks != [] ==> notional > 0.0
  {
    hide Value;
    ok, quantity, notional := true, 0.0, 0.0;
    for n := 0 to |asks|
      invariant quantity + Capacity(asks[n..]) == Capacity(asks)
      invariant notional + Cost(asks[n..], Capacity(asks[n..])) == Cost(asks, Capacity(asks))
      invariant quantity >= 0.0 && notional >= 0.0
      invariant ok
    {
      var level := asks[n];
      var value := Value(level.quantity, level.price);
      WholeLevel(asks, n);
      if value <= 0.0 || quantity + level.quantity == quantity || notional + value == notional {
        return false, quantity, notional;
      }
      quantity := quantity + level.quantity;
      notional := notional + value;
    }
    if asks != [] {
      CostPositive(asks, Capacity(asks));
      FirstLevelPositive(asks);
    }
  }

  lemma FirstLevelPositive(asks: seq<Level>)
    requires Positive(asks) && asks != []
    ensures Capacity(asks) > 0.0
  {
  }

  lemma WholeLevel(asks: seq<Level>, n: nat)
    requires Positive(asks) && n < |asks|
    ensures Value(asks[n].quantity, asks[n].price) > 0.0
    ensures Capacity(asks[n..]) == asks[n].quantity + Capacity(asks[n + 1..])
    ensures Cost(asks[n..], Capacity(asks[n..])) ==
            Value(asks[n].quantity, asks[n].price) + Cost(asks[n + 1..], Capacity(asks[n + 1..]))
  {
    assert asks[n..][1..] == asks[n + 1..];
  }

  /** The binary search answers the specification: every numeric-range guard except the two
      safe-integer ones is dead. */
  method SizeBenchmarkBuy(book: Book, quantityDecimals: int) returns (r: Sizing)
    ensures r == SizingOf(book, quantityDecimals)
  {
    hide Value;
    hide Average;
    hide FeeLaden;
    hide Lots;
    hide DepthBook;
    hide DepthBinds;
    hide LotCost;
    hide Cost;
    hide Capacity;
    if !(0 <= quantityDecimals <= 12) {
      return Unsized("INVALID_PRECISION");
    }
    var valid := IsDepthBook(book);
    if !valid {
      return Unsized("BOOK_INVALID");
    }
    LevelsPositive(book, Buy);
    var asks := book.asks;
    var scale := Pow10(quantityDecimals);
    var ok, totalQuantity, totalNotional := Totals(asks);
    CapacityNonNegative(asks, scale);
    var capacity := (totalQuantity * scale as real).Floor;
    assert capacity == LotCapacity(asks, scale);
    if !ok || !(0 <= capacity <= MAX_SAFE) || totalNotional <= 0.0 {
      return Unsized("NUMERIC_RANGE");
    }
    ZeroLotsAffordable(asks, scale);
    var low, high := 0, capacity;
    while low < high
      invariant 0 <= low <= high <= capacity
      invariant Affordable(asks, scale, low)
      invariant forall u: nat :: high < u <= capacity ==> !Affordable(asks, scale, u)
    {
      var middle := low + (high - low + 1) / 2;
      var candidate := Funded(book, scale, middle);
      LotsWithin(middle, scale, totalQuantity);
      if match candidate
         case Unsized(reason) => reason != "INSUFFICIENT_DEPTH"
         case Sized(_, _, _, _) => false
      {
        return candidate;
      }
      if candidate.Sized? && candidate.cost <= BUDGET {
        low := middle;
      } else {
        forall u: nat | middle <= u <= capacity ensures !Affordable(asks, scale, u) {
          if Affordable(asks, scale, u) { AffordableDownwards(asks, scale, middle, u); }
        }
        high := middle - 1;
      }
    }
    BestIsGreatest(asks, scale, capacity);
    assert low == Best(asks, scale, capacity);
    LotsOrder(low, low + 1, scale);
    LotsOrder(0, low, scale);
    if low + 1 > MAX_SAFE || Lots(low + 1, scale) <= Lots(low, scale) {
      return Unsized("NUMERIC_RANGE");
    }
    var nextQuantity := Lots(low + 1, scale);
    if nextQuantity > totalQuantity {
      var lastAsk := asks[|asks| - 1].price;
      var minimalNotional := totalNotional + Value(nextQuantity - totalQuantity, lastAsk);
      var minimalCost := FeeLaden(minimalNotional);
      if minimalCost <= BUDGET {
        return Unsized("INSUFFICIENT_DEPTH");
      }
    } else {
      var next := Funded(book, scale, low + 1);
      LotsWithin(low + 1, scale, totalQuantity);
      assert !Affordable(asks, scale, low + 1);
      if next.Unsized? || next.cost <= BUDGET {
        return Unsized("NUMERIC_RANGE");
      }
    }
    if low == 0 {
      return Unsized("ZERO_FUNDED_LOTS");
    }
    var result := Funded(book, scale, low);
    if result.Sized? && result.cost > BUDGET {
      return Unsized("NUMERIC_RANGE");
    }
    return result;
  }
}
