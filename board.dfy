/**
  * The live order board: a registry of live orders by id, an id counter,
  * and the buy and sell price levels kept consistent with the registry.
  */
module Board {
  import opened Values
  import opened PriceLevels

  /** The board's four fields taken together as one value. */
  datatype BoardState = BoardState(nextId: int, orders: map<int, Order>, buyPrices: Levels, sellPrices: Levels)
  {
    /** The price levels of one side. */
    function LevelsOf(side: OrderType): Levels
    {
      if side == Buy then buyPrices else sellPrices
    }
  }

  /** What one order adds to the level of `side` at `price`. */
  function Contribution(o: Order, side: OrderType, price: real): (r: real)
    ensures r >= 0.0
    ensures r > 0.0 <==> o.orderType == side && o.price == price
  {
    if o.orderType == side && o.price == price then o.quantity else 0.0
  }

  /** Some id of a non-empty set of ids. */
  ghost function SomeId(ids: set<int>): (id: int)
    requires ids != {}
    ensures id in ids
  {
    assert (forall x :: x !in ids) ==> ids == {};
    var id :| id in ids; id
  }

  /** The sum of the quantities of the registered orders of `side` at `price`. */
  ghost function Total(orders: map<int, Order>, side: OrderType, price: real): real
    decreases |orders|
  {
    if orders.Keys == {} then 0.0
    else
      var id := SomeId(orders.Keys);
      var rest := orders - {id};
      assert rest.Keys == orders.Keys - {id};
      Contribution(orders[id], side, price) + Total(rest, side, price)
  }

  /** The sum does not depend on which order it takes first: any one order can be split off. */
  lemma {:induction false} TotalRemove(orders: map<int, Order>, id: int, side: OrderType, price: real)
    requires id in orders
    ensures Total(orders, side, price) == Contribution(orders[id], side, price) + Total(orders - {id}, side, price)
    decreases |orders|
  {
    var j := SomeId(orders.Keys);
    if j != id {
      var withoutJ := orders - {j};
      var withoutId := orders - {id};
      assert withoutJ.Keys == orders.Keys - {j};
      assert withoutId.Keys == orders.Keys - {id};
      assert withoutJ - {id} == withoutId - {j};
      calc {
        Total(orders, side, price);
        Contribution(orders[j], side, price) + Total(withoutJ, side, price);
        { TotalRemove(withoutJ, id, side, price); }
        Contribution(orders[j], side, price) + Contribution(orders[id], side, price) + Total(withoutJ - {id}, side, price);
        { TotalRemove(withoutId, j, side, price); }
        Contribution(orders[id], side, price) + Total(withoutId, side, price);
      }
    }
  }

  /** Registering an order under a fresh id adds exactly its contribution. */
  lemma TotalInsert(orders: map<int, Order>, id: int, o: Order, side: OrderType, price: real)
    requires id !in orders
    ensures Total(orders[id := o], side, price) == Contribution(o, side, price) + Total(orders, side, price)
  {
    TotalRemove(orders[id := o], id, side, price);
    assert orders[id := o] - {id} == orders;
  }

  /** Quantities are positive, so no sum is negative. */
  lemma {:induction false} TotalNonNegative(orders: map<int, Order>, side: OrderType, price: real)
    ensures Total(orders, side, price) >= 0.0
    decreases |orders|
  {
    if orders.Keys != {} {
      var id := SomeId(orders.Keys);
      var rest := orders - {id};
      assert rest.Keys == orders.Keys - {id};
      TotalNonNegative(rest, side, price);
    }
  }

  /** A registered order's level is at least that order's quantity. */
  lemma TotalCoversOrder(orders: map<int, Order>, id: int)
    requires id in orders
    ensures Total(orders, orders[id].orderType, orders[id].price) >= orders[id].quantity
  {
    var o := orders[id];
    TotalRemove(orders, id, o.orderType, o.price);
    TotalNonNegative(orders - {id}, o.orderType, o.price);
  }

  /** Some registered order has this side and price. */
  ghost predicate HasLiveOrder(orders: map<int, Order>, side: OrderType, price: real)
  {
    exists id :: id in orders && orders[id].orderType == side && orders[id].price == price
  }

  /** The sum at a price is positive exactly when some registered order sits there. */
  lemma {:induction false} TotalPositiveIffLive(orders: map<int, Order>, side: OrderType, price: real)
    ensures Total(orders, side, price) > 0.0 <==> HasLiveOrder(orders, side, price)
    decreases |orders|
  {
    if HasLiveOrder(orders, side, price) {
      var id :| id in orders && orders[id].orderType == side && orders[id].price == price;
      TotalCoversOrder(orders, id);
    }
    if orders.Keys != {} {
      var j := SomeId(orders.Keys);
      var rest := orders - {j};
      assert rest.Keys == orders.Keys - {j};
      TotalPositiveIffLive(rest, side, price);
      if HasLiveOrder(rest, side, price) {
        var id :| id in rest && rest[id].orderType == side && rest[id].price == price;
        assert id in orders && orders[id] == rest[id];
      }
    }
  }

  /**
    * One side's levels agree with the registry: each level holds the sum of
    * that side's registered quantities at its price, and a price has a level
    * exactly when that sum is positive (so no level is ever zero).
    */
  ghost predicate Agrees(orders: map<int, Order>, side: OrderType, levels: Levels)
  {
    forall p ::
      && (p in levels <==> Total(orders, side, p) > 0.0)
      && (p in levels ==> levels[p] == Total(orders, side, p))
  }

  /** The board invariant: every registered id was handed out already, and both sides agree with the registry. */
  ghost predicate Inv(s: BoardState)
  {
    && 0 <= s.nextId
    && (forall id :: id in s.orders ==> 0 <= id < s.nextId)
    && Agrees(s.orders, Buy, s.buyPrices)
    && Agrees(s.orders, Sell, s.sellPrices)
  }

  /** The registry holds exactly `o` under `id`: the guard of the compare-and-remove. */
  predicate Matches(orders: map<int, Order>, id: int, o: Order)
  {
    id in orders && orders[id] == o
  }

  /** The board after registering `o`; the id handed out is `s.nextId`. */
  function Register(s: BoardState, o: Order): BoardState
  {
    var orders := s.orders[s.nextId := o];
    if o.orderType == Buy then
      BoardState(s.nextId + 1, orders, Increase(s.buyPrices, o.price, o.quantity), s.sellPrices)
    else
      BoardState(s.nextId + 1, orders, s.buyPrices, Increase(s.sellPrices, o.price, o.quantity))
  }

  /** The board after cancelling `o` under `id`: nothing happens unless the registry holds exactly `o` there. */
  function Cancel(s: BoardState, id: int, o: Order): BoardState
  {
    if !Matches(s.orders, id, o) then s
    else if o.orderType == Buy then
      s.(orders := s.orders - {id}, buyPrices := Decrease(s.buyPrices, o.price, o.quantity))
    else
      s.(orders := s.orders - {id}, sellPrices := Decrease(s.sellPrices, o.price, o.quantity))
  }

  /** Adding an order under a fresh id keeps one side in agreement when that side's level grows by its quantity. */
  lemma IncreaseAgrees(orders: map<int, Order>, side: OrderType, levels: Levels, id: int, o: Order)
    requires id !in orders && Agrees(orders, side, levels)
    ensures Agrees(orders[id := o], side, if o.orderType == side then Increase(levels, o.price, o.quantity) else levels)
  {
    var r := if o.orderType == side then Increase(levels, o.price, o.quantity) else levels;
    forall p
      ensures && (p in r <==> Total(orders[id := o], side, p) > 0.0)
              && (p in r ==> r[p] == Total(orders[id := o], side, p))
    {
      TotalInsert(orders, id, o, side, p);
      TotalNonNegative(orders, side, p);
    }
  }

  /** Removing a registered order keeps one side in agreement when that side's level shrinks by its quantity. */
  lemma DecreaseAgrees(orders: map<int, Order>, side: OrderType, levels: Levels, id: int)
    requires id in orders && Agrees(orders, side, levels)
    ensures var o := orders[id];
      Agrees(orders - {id}, side, if o.orderType == side then Decrease(levels, o.price, o.quantity) else levels)
  {
    var o := orders[id];
    var r := if o.orderType == side then Decrease(levels, o.price, o.quantity) else levels;
    forall p
      ensures && (p in r <==> Total(orders - {id}, side, p) > 0.0)
              && (p in r ==> r[p] == Total(orders - {id}, side, p))
    {
      TotalRemove(orders, id, side, p);
      TotalNonNegative(orders - {id}, side, p);
    }
  }

  /** Registration keeps the invariant, and the id it hands out is not in use. */
  lemma RegisterPreservesInv(s: BoardState, o: Order)
    requires Inv(s)
    ensures s.nextId !in s.orders
    ensures Inv(Register(s, o))
  {
    IncreaseAgrees(s.orders, Buy, s.buyPrices, s.nextId, o);
    IncreaseAgrees(s.orders, Sell, s.sellPrices, s.nextId, o);
  }

  /** Cancellation keeps the invariant, whether or not it matches. */
  lemma CancelPreservesInv(s: BoardState, id: int, o: Order)
    requires Inv(s)
    ensures Inv(Cancel(s, id, o))
  {
    if Matches(s.orders, id, o) {
      DecreaseAgrees(s.orders, Buy, s.buyPrices, id);
      DecreaseAgrees(s.orders, Sell, s.sellPrices, id);
    }
  }

  /** Under the invariant each side's levels are positive. */
  lemma InvLevelsPositive(s: BoardState)
    requires Inv(s)
    ensures Positive(s.buyPrices) && Positive(s.sellPrices)
  {
  }

  /**
    * Registering an order and then cancelling it under the returned id
    * restores the registry and both sides; only the counter has moved on.
    */
  lemma RegisterThenCancel(s: BoardState, o: Order)
    requires Inv(s)
    ensures Cancel(Register(s, o), s.nextId, o) == s.(nextId := s.nextId + 1)
  {
    var t := Register(s, o);
    assert Matches(t.orders, s.nextId, o);
    assert t.orders - {s.nextId} == s.orders;
    InvLevelsPositive(s);
    IncreaseThenDecrease(s.LevelsOf(o.orderType), o.price, o.quantity);
  }

  /** A second identical cancellation finds nothing to remove. */
  lemma CancelIdempotent(s: BoardState, id: int, o: Order)
    ensures Cancel(Cancel(s, id, o), id, o) == Cancel(s, id, o)
  {
  }

  /** Under the invariant a side has a level at a price exactly when a registered order of that side sits there. */
  lemma LevelIffLiveOrder(s: BoardState, side: OrderType, price: real)
    requires Inv(s)
    ensures price in s.LevelsOf(side) <==> HasLiveOrder(s.orders, side, price)
    ensures price in s.LevelsOf(side) ==> s.LevelsOf(side)[price] == Total(s.orders, side, price)
  {
    TotalPositiveIffLive(s.orders, side, price);
  }

  /** The live order board, updated in place by registration and cancellation. */
  class LiveOrderBoard {
    var currentOrderId: int
    var orders: map<int, Order>
    var buyPrices: Levels
    var sellPrices: Levels

    /** The fields as one value. */
    ghost function State(): BoardState
      reads this
    {
      BoardState(currentOrderId, orders, buyPrices, sellPrices)
    }

    ghost predicate Valid()
      reads this
    {
      Inv(State())
    }

    /** An empty board whose first id is 0. */
    constructor ()
      ensures Valid()
      ensures State() == BoardState(0, map[], map[], map[])
    {
      currentOrderId := 0;
      orders := map[];
      buyPrices := map[];
      sellPrices := map[];
    }

    /**
      * Hands out the next id, stores the order under it and adds its quantity
      * to the level at its price on its side.
      */
    method RegisterOrder(order: Order) returns (orderId: int)
      requires Valid()
      modifies this
      ensures Valid()
      ensures orderId == old(currentOrderId) && currentOrderId == orderId + 1
      ensures orderId !in old(orders)
      ensures State() == Register(old(State()), order)
    {
      RegisterPreservesInv(State(), order);
      orderId := currentOrderId;
      currentOrderId := currentOrderId + 1;
      orders := orders[orderId := order];
      if order.orderType == Buy {
        buyPrices := Increase(buyPrices, order.price, order.quantity);
      } else {
        sellPrices := Increase(sellPrices, order.price, order.quantity);
      }
    }

    /**
      * Removes the order registered under `orderId` only if it is exactly
      * `order`, and then takes its quantity off the level at its price.
      */
    method CancelOrder(orderId: int, order: Order)
      requires Valid()
      modifies this
      ensures Valid()
      ensures !Matches(old(orders), orderId, order) ==> unchanged(this)
      ensures State() == Cancel(old(State()), orderId, order)
    {
      CancelPreservesInv(State(), orderId, order);
      if orderId in orders && orders[orderId] == order {
        orders := orders - {orderId};
        if order.orderType == Buy {
          buyPrices := Decrease(buyPrices, order.price, order.quantity);
        } else {
          sellPrices := Decrease(sellPrices, order.price, order.quantity);
        }
      }
    }

    /**
      * The buy levels from the highest price down and the sell levels from
      * the lowest price up, each level as a (quantity, price) entry.
      */
    function GetSummary(): (s: Summary)
      reads this
      ensures Lists(s.buyOrders, buyPrices) && Ordered(s.buyOrders, true)
      ensures Lists(s.sellOrders, sellPrices) && Ordered(s.sellOrders, false)
    {
      Summary(PricesInOrder(buyPrices, true), PricesInOrder(sellPrices, false))
    }
  }

  /**
    * Each summary entry reports the sum of the registered quantities at its
    * price on its side, and every registered order's price appears there.
    */
  lemma SummaryReportsTotals(b: LiveOrderBoard)
    requires b.Valid()
    ensures forall e :: e in b.GetSummary().buyOrders ==> e.quantity == Total(b.orders, Buy, e.price) > 0.0
    ensures forall e :: e in b.GetSummary().sellOrders ==> e.quantity == Total(b.orders, Sell, e.price) > 0.0
    ensures forall id :: id in b.orders && b.orders[id].orderType == Buy ==>
      SummaryEntry(Total(b.orders, Buy, b.orders[id].price), b.orders[id].price) in b.GetSummary().buyOrders
    ensures forall id :: id in b.orders && b.orders[id].orderType == Sell ==>
      SummaryEntry(Total(b.orders, Sell, b.orders[id].price), b.orders[id].price) in b.GetSummary().sellOrders
  {
    var s := b.State();
    forall id | id in s.orders
      ensures s.orders[id].price in s.LevelsOf(s.orders[id].orderType)
    {
      TotalCoversOrder(s.orders, id);
    }
  }
}
