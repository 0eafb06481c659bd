/** The perp order store: one row per client order id, its intent written once and its outcome written once. */
module PerpStore {
  import opened Basics

  datatype Side = Buy | Sell

  datatype Intent = Intent(productId: string, side: Side, quantity: real, markPrice: real, leverage: int)

  datatype Outcome = Accepted | Rejected

  /** A row of the order table; its key is the client order id. */
  datatype Row = Row(intent: Intent, outcome: Option<Outcome>, createdAt: int, settledAt: Option<int>)

  datatype Pending = Pending(id: string, intent: Intent)

  datatype Fill = Fill(fillId: string, side: Side, price: real, quantity: real, fee: real, closedPnl: real, fillTime: int)

  datatype FillRow = FillRow(fill: Fill, createdAt: int)

  predicate WellFormedFill(f: Fill) {
    NonBlank(f.fillId) && f.price > 0.0 && f.quantity > 0.0 && f.fee >= 0.0 && Timestamp(f.fillTime)
  }

  // ---- What the statements do to the tables

  /** INSERT OR IGNORE: a row already there is left as it is. */
  function Insert(orders: map<string, Row>, id: string, intent: Intent, at: int): map<string, Row> {
    if id in orders then orders else orders[id := Row(intent, None, at, None)]
  }

  /** UPDATE ... WHERE outcome IS NULL. */
  function Settle(orders: map<string, Row>, id: string, outcome: Outcome, at: int): map<string, Row> {
    if id in orders && orders[id].outcome.None? then orders[id := orders[id].(outcome := Some(outcome), settledAt := Some(at))]
    else orders
  }

  function InsertFills(fills: map<(string, string), FillRow>, id: string, batch: seq<Fill>, at: int): map<(string, string), FillRow> {
    if batch == [] then fills
    else
      var before := InsertFills(fills, id, batch[..|batch| - 1], at);
      var f := batch[|batch| - 1];
      if (id, f.fillId) in before then before else before[(id, f.fillId) := FillRow(f, at)]
  }

  /** A later table: rows are never removed, an intent never changes, an outcome never changes once set. */
  ghost predicate Extends(later: map<string, Row>, orders: map<string, Row>) {
    forall id :: id in orders ==>
      && id in later && later[id].intent == orders[id].intent && later[id].createdAt == orders[id].createdAt
      && (orders[id].outcome.Some? ==> later[id] == orders[id])
  }

  /** Writing a batch of fills keeps every earlier row, stores each fill, and writing it again adds nothing. */
  lemma {:induction false} FillsAreIdempotent(fills: map<(string, string), FillRow>, id: string, batch: seq<Fill>, at: int, again: int)
    ensures forall key :: key in fills ==> key in InsertFills(fills, id, batch, at) && InsertFills(fills, id, batch, at)[key] == fills[key]
    ensures forall k :: 0 <= k < |batch| ==> (id, batch[k].fillId) in InsertFills(fills, id, batch, at)
    ensures forall key :: key in InsertFills(fills, id, batch, at) && key !in fills ==> key.0 == id
    ensures InsertFills(InsertFills(fills, id, batch, at), id, batch, again) == InsertFills(fills, id, batch, at)
  {
    FillsAreStored(fills, id, batch, at);
    NothingToAdd(InsertFills(fills, id, batch, at), id, batch, again);
  }

  lemma {:induction false} FillsAreStored(fills: map<(string, string), FillRow>, id: string, batch: seq<Fill>, at: int)
    ensures forall key :: key in fills ==> key in InsertFills(fills, id, batch, at) && InsertFills(fills, id, batch, at)[key] == fills[key]
    ensures forall k :: 0 <= k < |batch| ==> (id, batch[k].fillId) in InsertFills(fills, id, batch, at)
    ensures forall key :: key in InsertFills(fills, id, batch, at) && key !in fills ==> key.0 == id
  {
    if batch != [] {
      var rest := batch[..|batch| - 1];
      FillsAreStored(fills, id, rest, at);
      assert forall k :: 0 <= k < |rest| ==> rest[k] == batch[k];
    }
  }

  lemma {:induction false} NothingToAdd(fills: map<(string, string), FillRow>, id: string, batch: seq<Fill>, at: int)
    requires forall k :: 0 <= k < |batch| ==> (id, batch[k].fillId) in fills
    ensures InsertFills(fills, id, batch, at) == fills
  {
    if batch != [] {
      var rest := batch[..|batch| - 1];
      assert forall k :: 0 <= k < |rest| ==> rest[k] == batch[k];
      NothingToAdd(fills, id, rest, at);
    }
  }

  // ---- The store

  /** The store over its two tables. */
  class Store {
    var orders: map<string, Row>
    var fills: map<(string, string), FillRow>

    constructor ()
      ensures orders == map[] && fills == map[]
    {
      orders, fills := map[], map[];
    }

    method PersistOrderIntent(id: string, intent: Intent, createdAt: int)
      modifies this`orders
      ensures orders == Insert(old(orders), id, intent, createdAt)
      ensures id in orders && Extends(orders, old(orders))
    {
      if id !in orders {
        orders := orders[id := Row(intent, None, createdAt, None)];
      }
    }

    method PersistOutcome(id: string, outcome: Outcome, at: int)
      modifies this`orders
      ensures orders == Settle(old(orders), id, outcome, at)
      ensures Extends(orders, old(orders)) && (id in orders ==> orders[id].outcome.Some?)
    {
      if id in orders && orders[id].outcome.None? {
        orders := orders[id := orders[id].(outcome := Some(outcome), settledAt := Some(at))];
      }
    }

    /** Exactly the orders without an outcome, each once, newest first. */
    method LoadUnresolved() returns (r: seq<Pending>)
      ensures IsQueue(r, orders)
      ensures NewestFirst(r, orders)
    {
      r := [];
      var left := orders.Keys;
      while left != {}
        invariant left <= orders.Keys
        invariant forall p :: p in r ==> p.id !in left && Unresolved(p, orders)
        invariant forall id :: id in orders && id !in left && orders[id].outcome.None? ==> Pending(id, orders[id].intent) in r
        invariant Distinct(r) && NewestFirst(r, orders)
        decreases left
      {
        var id :| id in left;
        left := left - {id};
        if orders[id].outcome.None? {
          PlaceKeepsOrder(r, Pending(id, orders[id].intent), orders);
          r := Place(r, Pending(id, orders[id].intent), orders);
        }
      }
    }

    /** Every fill is checked before any is written: a bad one leaves the table alone. */
    method PersistFills(id: string, batch: seq<Fill>, at: int) returns (ok: bool)
      modifies this`fills
      ensures ok <==> forall k :: 0 <= k < |batch| ==> WellFormedFill(batch[k])
      ensures fills == if ok then InsertFills(old(fills), id, batch, at) else old(fills)
    {
      hide WellFormedFill;
      for k := 0 to |batch|
        invariant forall i :: 0 <= i < k ==> WellFormedFill(batch[i])
      {
        if !WellFormedFill(batch[k]) {
          return false;
        }
      }
      ok := true;
      for k := 0 to |batch|
        invariant fills == InsertFills(old(fills), id, batch[..k], at)
      {
        assert batch[..k + 1][..k] == batch[..k];
        if (id, batch[k].fillId) !in fills {
          fills := fills[(id, batch[k].fillId) := FillRow(batch[k], at)];
        }
      }
      assert batch[..|batch|] == batch;
    }
  }

  predicate Unresolved(p: Pending, orders: map<string, Row>) {
    p.id in orders && orders[p.id].outcome.None? && p.intent == orders[p.id].intent
  }

  /** A list of exactly the unresolved orders. */
  ghost predicate IsQueue(r: seq<Pending>, orders: map<string, Row>) {
    && (forall k :: 0 <= k < |r| ==> Unresolved(r[k], orders))
    && (forall id :: id in orders && orders[id].outcome.None? ==> Pending(id, orders[id].intent) in r)
    && Distinct(r)
  }

  function Age(p: Pending, orders: map<string, Row>): int {
    if p.id in orders then orders[p.id].createdAt else 0
  }

  ghost predicate Distinct(r: seq<Pending>) {
    forall i, j :: 0 <= i < j < |r| ==> r[i].id != r[j].id
  }

  ghost predicate NewestFirst(r: seq<Pending>, orders: map<string, Row>) {
    forall i, j :: 0 <= i < j < |r| ==> Age(r[i], orders) >= Age(r[j], orders)
  }

  /** The order put before the first one older than it. */
  function Place(r: seq<Pending>, p: Pending, orders: map<string, Row>): (placed: seq<Pending>)
    ensures forall x :: x in placed <==> x in r || x == p
  {
    if r == [] || Age(p, orders) > Age(r[0], orders) then [p] + r else [r[0]] + Place(r[1..], p, orders)
  }

  lemma {:induction false} PlaceKeepsOrder(r: seq<Pending>, p: Pending, orders: map<string, Row>)
    requires NewestFirst(r, orders) && Distinct(r) && forall x :: x in r ==> x.id != p.id
    ensures NewestFirst(Place(r, p, orders), orders) && Distinct(Place(r, p, orders))
  {
    hide Age;
    hide NewestFirst;
    hide Distinct;
    if r == [] || Age(p, orders) > Age(r[0], orders) {
      if r != [] {
        Split(r, orders);
      }
      Front(p, r, orders);
    } else {
      Split(r, orders);
      PlaceKeepsOrder(r[1..], p, orders);
      Front(r[0], Place(r[1..], p, orders), orders);
    }
  }

  lemma Front(first: Pending, rest: seq<Pending>, orders: map<string, Row>)
    requires NewestFirst(rest, orders) && Distinct(rest)
    requires forall x :: x in rest ==> Age(first, orders) >= Age(x, orders) && x.id != first.id
    ensures NewestFirst([first] + rest, orders) && Distinct([first] + rest)
  {
    hide Age;
  }

  lemma Split(r: seq<Pending>, orders: map<string, Row>)
    requires r != [] && NewestFirst(r, orders) && Distinct(r)
    ensures NewestFirst(r[1..], orders) && Distinct(r[1..])
    ensures forall x :: x in r[1..] ==> Age(r[0], orders) >= Age(x, orders) && x.id != r[0].id
    ensures forall x :: x in r ==> Age(r[0], orders) >= Age(x, orders)
  {
    hide Age;
  }
}
