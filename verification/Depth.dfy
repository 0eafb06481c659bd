/** Order-book depth: the structural check, the level-by-level consumer, and what the consumer
    optimises.  Prices and quantities are exact reals. */
module Depth {
  import opened Basics

  datatype Level = Level(price: real, quantity: real)

  datatype Side = Buy | Sell

  datatype Book = Book(bids: seq<Level>, asks: seq<Level>)

  datatype DepthPrice =
    | Priced(vwap: real, notional: real, quantity: real)
    | Rejected(reason: string)

  const MAX_LEVELS := 5_000

  predicate Positive(levels: seq<Level>) {
    forall i :: 0 <= i < |levels| ==> levels[i].price > 0.0 && levels[i].quantity > 0.0
  }

  /** Prices strictly ascend; quantities are not negative. */
  ghost predicate Ascending(levels: seq<Level>) {
    && (forall i :: 0 <= i < |levels| ==> levels[i].quantity >= 0.0)
    && (forall i, j :: 0 <= i < j < |levels| ==> levels[i].price < levels[j].price)
  }

  /** A valid side, stated over all pairs of levels rather than over neighbours. */
  predicate ValidSideSpec(levels: seq<Level>, side: Side) {
    && 1 <= |levels| <= MAX_LEVELS
    && Positive(levels)
    && match side
       case Sell => forall i, j :: 0 <= i < j < |levels| ==> levels[i].price > levels[j].price
       case Buy => forall i, j :: 0 <= i < j < |levels| ==> levels[i].price < levels[j].price
  }

  predicate DepthBook(book: Book) {
    && ValidSideSpec(book.bids, Sell)
    && ValidSideSpec(book.asks, Buy)
    && book.bids[0].price <= book.asks[0].price
  }

  /** One pass remembering only the previous price decides the all-pairs order. */
  method ValidSide(levels: seq<Level>, side: Side) returns (ok: bool)
    ensures ok <==> ValidSideSpec(levels, side)
  {
    if |levels| == 0 || |levels| > MAX_LEVELS {
      return false;
    }
    var previous: Option<real> := None;
    for n := 0 to |levels|
      invariant previous == if n == 0 then None else Some(levels[n - 1].price)
      invariant Positive(levels[..n])
      invariant side == Sell ==> forall i, j :: 0 <= i < j < n ==> levels[i].price > levels[j].price
      invariant side == Buy ==> forall i, j :: 0 <= i < j < n ==> levels[i].price < levels[j].price
    {
      var level := levels[n];
      if level.price <= 0.0 || level.quantity <= 0.0 {
        return false;
      }
      if previous.Some? && (if side == Sell then level.price >= previous.value else level.price <= previous.value) {
        return false;
      }
      previous := Some(level.price);
      assert levels[..n + 1] == levels[..n] + [level];
    }
    assert levels[..|levels|] == levels;
    return true;
  }

  method IsDepthBook(book: Book) returns (ok: bool)
    ensures ok <==> DepthBook(book)
  {
    var bids := ValidSide(book.bids, Sell);
    var asks := ValidSide(book.asks, Buy);
    return bids && asks && book.bids[0].price <= book.asks[0].price;
  }

  function Levels(book: Book, side: Side): seq<Level> {
    if side == Buy then book.asks else book.bids
  }

  function Capacity(levels: seq<Level>): (r: real)
    ensures (forall i :: 0 <= i < |levels| ==> levels[i].quantity >= 0.0) ==> r >= 0.0
  {
    if levels == [] then 0.0 else levels[0].quantity + Capacity(levels[1..])
  }

  function Value(quantity: real, price: real): real {
    quantity * price
  }

  /** Notional of taking q front to back. */
  function Cost(levels: seq<Level>, q: real): real {
    if levels == [] then 0.0
    else
      var take := Min(q, levels[0].quantity);
      Value(take, levels[0].price) + Cost(levels[1..], q - take)
  }

  // ---- Any way of taking a quantity from the levels

  ghost predicate Allocation(levels: seq<Level>, a: seq<real>) {
    |a| == |levels| && forall i :: 0 <= i < |a| ==> 0.0 <= a[i] <= levels[i].quantity
  }

  function Sum(a: seq<real>): real {
    if a == [] then 0.0 else a[0] + Sum(a[1..])
  }

  function Notional(levels: seq<Level>, a: seq<real>): real
    requires |a| == |levels|
  {
    if a == [] then 0.0 else Value(a[0], levels[0].price) + Notional(levels[1..], a[1..])
  }

  function Greedy(levels: seq<Level>, q: real): seq<real> {
    if levels == [] then []
    else var take := Min(q, levels[0].quantity); [take] + Greedy(levels[1..], q - take)
  }

  lemma {:induction false} GreedyIsAllocation(levels: seq<Level>, q: real)
    requires forall i :: 0 <= i < |levels| ==> levels[i].quantity >= 0.0
    requires 0.0 <= q <= Capacity(levels)
    ensures Allocation(levels, Greedy(levels, q))
    ensures Sum(Greedy(levels, q)) == q
    ensures Notional(levels, Greedy(levels, q)) == Cost(levels, q)
  {
    if levels != [] {
      var take := Min(q, levels[0].quantity);
      GreedyIsAllocation(levels[1..], q - take);
      assert Greedy(levels, q)[1..] == Greedy(levels[1..], q - take);
    }
  }

  lemma CostOfNothing(levels: seq<Level>)
    requires forall i :: 0 <= i < |levels| ==> levels[i].quantity >= 0.0
    ensures Cost(levels, 0.0) == 0.0
  {
    if levels != [] { CostOfNothing(levels[1..]); }
  }

  lemma StepUp(t1: real, t2: real, price: real, p: real, d: real, c1: real, c2: real)
    requires t1 <= t2 && p <= price && c2 >= c1 + Value(d - (t2 - t1), p)
    ensures Value(t2, price) + c2 >= (Value(t1, price) + c1) + Value(d, p)
  {
    var more := t2 - t1;
    assert more * price >= more * p;
    assert t2 * price == t1 * price + more * price;
    assert (d - more) * p == d * p - more * p;
  }

  lemma Nothing(price: real)
    ensures Value(0.0, price) == 0.0
  {
  }

  lemma Split(t: real, t1: real, price: real)
    ensures Value(t, price) == Value(t1, price) + Value(t - t1, price)
  {
  }

  /** Every further unit costs at least the lowest price p. */
  lemma {:induction false} MarginalAtLeast(levels: seq<Level>, q: real, d: real, p: real)
    requires Ascending(levels)
    requires forall i :: 0 <= i < |levels| ==> p <= levels[i].price
    requires 0.0 <= q && 0.0 <= d && q + d <= Capacity(levels)
    ensures Cost(levels, q + d) >= Cost(levels, q) + Value(d, p)
  {
    hide Value;
    if levels != [] {
      var l := levels[0];
      var t1, t2 := Min(q, l.quantity), Min(q + d, l.quantity);
      var tail := levels[1..];
      MarginalAtLeast(tail, q - t1, d - (t2 - t1), p);
      assert (q - t1) + (d - (t2 - t1)) == q + d - t2;
      StepUp(t1, t2, l.price, p, d, Cost(tail, q - t1), Cost(tail, q + d - t2));
    } else {
      Nothing(p);
    }
  }

  /** Front-to-back consumption of ascending prices is the cheapest of all allocations. */
  lemma {:induction false} CheapestAllocation(levels: seq<Level>, a: seq<real>)
    requires Ascending(levels) && Allocation(levels, a)
    ensures 0.0 <= Sum(a) <= Capacity(levels)
    ensures Cost(levels, Sum(a)) <= Notional(levels, a)
  {
    hide Value;
    if levels != [] {
      var l, q := levels[0], Sum(a);
      CheapestAllocation(levels[1..], a[1..]);
      var t := Min(q, l.quantity);
      MarginalAtLeast(levels[1..], q - t, t - a[0], l.price);
      assert (q - t) + (t - a[0]) == Sum(a[1..]);
      Split(t, a[0], l.price);
    }
  }

  function Negated(levels: seq<Level>): (r: seq<Level>)
    ensures |r| == |levels|
    ensures forall i :: 0 <= i < |r| ==> r[i] == Level(-levels[i].price, levels[i].quantity)
  {
    if levels == [] then [] else [Level(-levels[0].price, levels[0].quantity)] + Negated(levels[1..])
  }

  lemma {:induction false} NegatedCost(levels: seq<Level>, q: real)
    ensures Cost(Negated(levels), q) == -Cost(levels, q)
    ensures Capacity(Negated(levels)) == Capacity(levels)
  {
    hide Value;
    if levels != [] {
      var take := Min(q, levels[0].quantity);
      NegatedCost(levels[1..], q - take);
      assert Negated(levels)[1..] == Negated(levels[1..]);
      NegatedValue(take, levels[0].price);
    }
  }

  lemma NegatedValue(quantity: real, price: real)
    ensures Value(quantity, -price) == -Value(quantity, price)
  {
  }

  lemma {:induction false} NegatedNotional(levels: seq<Level>, a: seq<real>)
    requires |a| == |levels|
    ensures Notional(Negated(levels), a) == -Notional(levels, a)
  {
    if a != [] {
      NegatedNotional(levels[1..], a[1..]);
      assert Negated(levels)[1..] == Negated(levels[1..]);
      NegatedValue(a[0], levels[0].price);
    }
  }

  /** The consumer is optimal on a valid book: least BUY notional, greatest SELL notional, over every
      way of taking the quantity; and that optimum is attained by a real allocation. */
  lemma ConsumptionIsOptimal(book: Book, a: seq<real>, side: Side)
    requires DepthBook(book) && Allocation(Levels(book, side), a)
    ensures Sum(a) <= Capacity(Levels(book, side))
    ensures side == Buy ==> Cost(book.asks, Sum(a)) <= Notional(book.asks, a)
    ensures side == Sell ==> Cost(book.bids, Sum(a)) >= Notional(book.bids, a)
  {
    if side == Buy {
      CheapestAllocation(book.asks, a);
    } else {
      CheapestAllocation(Negated(book.bids), a);
      NegatedCost(book.bids, Sum(a));
      NegatedNotional(book.bids, a);
    }
  }

  // ---- Superadditivity

  lemma DroppingCheapest(levels: seq<Level>, q: real)
    requires Ascending(levels) && levels != []
    requires 0.0 <= q <= Capacity(levels[1..])
    ensures Cost(levels, q) <= Cost(levels[1..], q)
  {
    var g := Greedy(levels[1..], q);
    GreedyIsAllocation(levels[1..], q);
    assert ([0.0] + g)[1..] == g;
    CheapestAllocation(levels, [0.0] + g);
  }

  lemma {:induction false} SuperadditiveWlog(levels: seq<Level>, x: real, y: real)
    requires Ascending(levels) && levels != []
    requires 0.0 <= x && 0.0 <= y && x + y <= Capacity(levels) && levels[0].quantity <= x
    ensures Cost(levels, x + y) >= Cost(levels, x) + Cost(levels, y)
    decreases |levels|, 0
  {
    hide Value;
    var first, tail := levels[0].quantity, levels[1..];
    BuyCostSuperadditive(tail, x - first, y);
    assert (x - first) + y == (x + y) - first;
    DroppingCheapest(levels, y);
    assert Min(x, first) == first && Min(x + y, first) == first;
  }

  /** Buying in one go never costs less than two separate purchases each priced on the full book. */
  lemma {:induction false} BuyCostSuperadditive(levels: seq<Level>, x: real, y: real)
    requires Ascending(levels)
    requires 0.0 <= x && 0.0 <= y && x + y <= Capacity(levels)
    ensures Cost(levels, x + y) >= Cost(levels, x) + Cost(levels, y)
    decreases |levels|, 1
  {
    hide Value;
    if levels != [] {
      var l := levels[0];
      if l.quantity <= x {
        SuperadditiveWlog(levels, x, y);
      } else if l.quantity <= y {
        SuperadditiveWlog(levels, y, x);
        assert y + x == x + y;
      } else {
        CostOfNothing(levels[1..]);
        var t := Min(x + y, l.quantity);
        MarginalAtLeast(levels[1..], 0.0, x + y - t, l.price);
        Split(x + y, t, l.price);
        Split(x + y, x, l.price);
      }
    }
  }

  // ---- Round trip

  lemma CostBoundedByTop(levels: seq<Level>, q: real)
    requires Ascending(levels) && levels != [] && 0.0 <= q <= Capacity(levels)
    ensures Cost(levels, q) >= Value(q, levels[0].price)
  {
    hide Value;
    CostOfNothing(levels);
    MarginalAtLeast(levels, 0.0, q, levels[0].price);
  }

  lemma ValueMonotone(q: real, low: real, high: real)
    requires q >= 0.0 && low <= high
    ensures Value(q, low) <= Value(q, high)
    ensures Value(q, -low) == -Value(q, low)
  {
  }

  /** Selling back a bought quantity on the same book never returns more than was paid. */
  lemma RoundTripNeverGains(book: Book, q: real)
    requires DepthBook(book) && 0.0 <= q <= Capacity(book.asks) && q <= Capacity(book.bids)
    ensures Cost(book.bids, q) <= Value(q, book.bids[0].price) <= Value(q, book.asks[0].price) <= Cost(book.asks, q)
  {
    hide Value;
    hide Cost;
    CostBoundedByTop(book.asks, q);
    NegatedCost(book.bids, q);
    CostBoundedByTop(Negated(book.bids), q);
    ValueMonotone(q, book.bids[0].price, book.asks[0].price);
  }

  // ---- The consumer loop

  lemma LevelsPositive(book: Book, side: Side)
    requires DepthBook(book)
    ensures Positive(Levels(book, side)) && Levels(book, side) != []
  {
  }

  function Average(notional: real, quantity: real): real
    requires quantity > 0.0
  {
    notional / quantity
  }

  lemma AverageRestores(notional: real, quantity: real)
    requires notional > 0.0 && quantity > 0.0
    ensures Average(notional, quantity) > 0.0
    ensures Value(Average(notional, quantity), quantity) == notional
  {
  }

  lemma {:induction false} CostPositive(levels: seq<Level>, q: real)
    requires Positive(levels) && q >= 0.0
    ensures Cost(levels, q) >= 0.0
    ensures levels != [] && q > 0.0 ==> Cost(levels, q) > 0.0
  {
    if levels != [] {
      var take := Min(q, levels[0].quantity);
      CostPositive(levels[1..], q - take);
      assert take * levels[0].price >= 0.0;
      assert q > 0.0 ==> take * levels[0].price > 0.0;
    }
  }

  /** One turn of the consumer loop leaves "spent so far plus cost of the rest" unchanged. */
  lemma ConsumeOne(levels: seq<Level>, n: nat, remaining: real, take: real)
    requires Positive(levels) && n < |levels| && remaining > 0.0
    requires take == Min(remaining, levels[n].quantity)
    ensures 0.0 < take <= remaining && Value(take, levels[n].price) > 0.0
    ensures Cost(levels[n..], remaining) == Value(take, levels[n].price) + Cost(levels[n + 1..], remaining - take)
    ensures Capacity(levels[n..]) == levels[n].quantity + Capacity(levels[n + 1..])
    ensures Capacity(levels[n + 1..]) >= 0.0
    ensures remaining - take == 0.0 ==> Cost(levels[n + 1..], 0.0) == 0.0
  {
    assert levels[n..][1..] == levels[n + 1..];
    CostOfNothing(levels[n + 1..]);
  }

  /** What the consumer must answer: the whole quantity or a refusal, never a partial fill. */
  function Consumed(book: Book, side: Side, quantity: real): DepthPrice {
    if quantity <= 0.0 then Rejected("INVALID_QUANTITY_OR_SIDE")
    else if !DepthBook(book) then Rejected("BOOK_INVALID")
    else if quantity > Capacity(Levels(book, side)) then Rejected("INSUFFICIENT_DEPTH")
    else var notional := Cost(Levels(book, side), quantity); Priced(Average(notional, quantity), notional, quantity)
  }

  /** The level loop answers exactly the specification; its floating-point range refusal is dead. */
  method ConsumeDepth(book: Book, side: Side, quantity: real) returns (r: DepthPrice)
    ensures r == Consumed(book, side, quantity)
    ensures r.Priced? ==> r.vwap > 0.0 && r.notional > 0.0 && Value(r.vwap, quantity) == r.notional
  {
    hide Value;
    hide Average;
    hide ValidSideSpec;
    if quantity <= 0.0 {
      return Rejected("INVALID_QUANTITY_OR_SIDE");
    }
    var valid := IsDepthBook(book);
    if !valid {
      return Rejected("BOOK_INVALID");
    }
    var levels := Levels(book, side);
    LevelsPositive(book, side);
    var remaining, notional := quantity, 0.0;
    var n := 0;
    while n < |levels|
      invariant 0 <= n <= |levels|
      invariant remaining > 0.0 && notional >= 0.0
      invariant notional + Cost(levels[n..], remaining) == Cost(levels, quantity)
      invariant remaining - Capacity(levels[n..]) == quantity - Capacity(levels)
    {
      var level := levels[n];
      var take := Min(remaining, level.quantity);
      var value := Value(take, level.price);
      ConsumeOne(levels, n, remaining, take);
      if value <= 0.0 || notional + value <= 0.0 || notional + value == notional || remaining - take == remaining {
        return Rejected("NUMERIC_RANGE");
      }
      notional := notional + value;
      remaining := remaining - take;
      n := n + 1;
      if remaining == 0.0 {
        break;
      }
    }
    if remaining != 0.0 {
      return Rejected("INSUFFICIENT_DEPTH");
    }
    CostPositive(levels, quantity);
    var vwap := Average(notional, quantity);
    AverageRestores(notional, quantity);
    if vwap <= 0.0 {
      return Rejected("NUMERIC_RANGE");
    }
    return Priced(vwap, notional, quantity);
  }

  // ---- The price of a quantity

  /** The average price of a priced quantity is no better than the top of its side. */
  lemma NeverBetterThanTheTop(book: Book, side: Side, quantity: real)
    requires Consumed(book, side, quantity).Priced?
    ensures var vwap := Consumed(book, side, quantity).vwap;
            && vwap > 0.0 && Levels(book, side) != []
            && (if side == Buy then vwap >= book.asks[0].price else vwap <= book.bids[0].price)
  {
    hide Value;
    hide Cost;
    hide Average;
    hide ValidSideSpec;
    var notional, levels := Cost(Levels(book, side), quantity), Levels(book, side);
    LevelsPositive(book, side);
    CostPositive(levels, quantity);
    AverageRestores(notional, quantity);
    SidesAscend(book);
    if side == Buy {
      CostBoundedByTop(book.asks, quantity);
      CancelQuantity(quantity, book.asks[0].price, Average(notional, quantity));
    } else {
      NegatedCost(book.bids, quantity);
      CostBoundedByTop(Negated(book.bids), quantity);
      ValueMonotone(quantity, book.bids[0].price, book.bids[0].price);
      CancelQuantity(quantity, Average(notional, quantity), book.bids[0].price);
    }
  }

  lemma SidesAscend(book: Book)
    requires DepthBook(book)
    ensures Ascending(book.asks) && Ascending(Negated(book.bids)) && Capacity(Negated(book.bids)) == Capacity(book.bids)
    ensures book.bids != [] && Negated(book.bids) != [] && Negated(book.bids)[0].price == -book.bids[0].price
  {
    NegatedCost(book.bids, 0.0);
  }

  /** Paying at most as much for the same quantity means at most the same price. */
  lemma CancelQuantity(quantity: real, low: real, high: real)
    requires quantity > 0.0
    requires Value(quantity, low) <= Value(high, quantity) || Value(low, quantity) <= Value(quantity, high)
    ensures low <= high
  {
    if low > high {
      MoreForMore(quantity, low, high);
    }
  }

  lemma MoreForMore(quantity: real, more: real, less: real)
    requires quantity > 0.0 && more > less
    ensures more * quantity > less * quantity
  {
    assert (more - less) * quantity > 0.0;
  }
}
