/**
  * The board's documented usage: each method runs one sequence of calls on a
  * fresh board and states the summary that results.
  */
module Scenarios {
  import opened Values
  import opened PriceLevels
  import opened Board

  /** A single level is listed as one entry, in either direction. */
  lemma ListingOfOne(levels: Levels, p: real, q: real, descending: bool)
    requires levels == map[p := q]
    ensures PricesInOrder(levels, descending) == [SummaryEntry(q, p)]
  {
    ListingUnique(PricesInOrder(levels, descending), [SummaryEntry(q, p)], levels, descending);
  }

  /** Two levels are listed with the one met first in the walking direction first. */
  lemma ListingOfTwo(levels: Levels, p1: real, q1: real, p2: real, q2: real, descending: bool)
    requires levels == map[p1 := q1, p2 := q2] && Before(p1, p2, descending)
    ensures PricesInOrder(levels, descending) == [SummaryEntry(q1, p1), SummaryEntry(q2, p2)]
  {
    var expected := [SummaryEntry(q1, p1), SummaryEntry(q2, p2)];
    assert Ordered(expected, descending);
    assert Lists(expected, levels);
    ListingUnique(PricesInOrder(levels, descending), expected, levels, descending);
  }

  /** No levels, no entries. */
  lemma ListingOfNone(levels: Levels, descending: bool)
    requires levels == map[]
    ensures PricesInOrder(levels, descending) == []
  {
  }

  /** A buy and a sell at the same price each show up on their own side. */
  method RegisterABuyAndASell() returns (s: Summary)
    ensures s.buyOrders == [SummaryEntry(100.0, 310.0)]
    ensures s.sellOrders == [SummaryEntry(100.0, 310.0)]
  {
    var board := new LiveOrderBoard();
    var _ := board.RegisterOrder(Order("test", 100.0, 310.0, Buy));
    var _ := board.RegisterOrder(Order("test", 100.0, 310.0, Sell));
    s := board.GetSummary();
    ListingOfOne(board.buyPrices, 310.0, 100.0, true);
    ListingOfOne(board.sellPrices, 310.0, 100.0, false);
  }

  /** Two buys at one price merge into one level; the higher-priced buy comes first. */
  method RegisterThreeBuys() returns (s: Summary)
    ensures s.buyOrders == [SummaryEntry(100.0, 320.0), SummaryEntry(200.0, 310.0)]
    ensures s.sellOrders == []
  {
    var board := new LiveOrderBoard();
    var _ := board.RegisterOrder(Order("test1", 100.0, 310.0, Buy));
    var _ := board.RegisterOrder(Order("test2", 100.0, 310.0, Buy));
    assert board.buyPrices == map[310.0 := 200.0];
    var _ := board.RegisterOrder(Order("test3", 100.0, 320.0, Buy));
    s := board.GetSummary();
    ListingOfTwo(board.buyPrices, 320.0, 100.0, 310.0, 200.0, true);
    ListingOfNone(board.sellPrices, false);
  }

  /** Two sells at one price merge into one level; the lower-priced sell comes first. */
  method RegisterThreeSells() returns (s: Summary)
    ensures s.sellOrders == [SummaryEntry(200.0, 310.0), SummaryEntry(100.0, 320.0)]
    ensures s.buyOrders == []
  {
    var board := new LiveOrderBoard();
    var _ := board.RegisterOrder(Order("test1", 100.0, 310.0, Sell));
    var _ := board.RegisterOrder(Order("test2", 100.0, 310.0, Sell));
    assert board.sellPrices == map[310.0 := 200.0];
    var _ := board.RegisterOrder(Order("test3", 100.0, 320.0, Sell));
    s := board.GetSummary();
    ListingOfTwo(board.sellPrices, 310.0, 200.0, 320.0, 100.0, false);
    ListingOfNone(board.buyPrices, true);
  }

  /** Cancelling the only order at a price removes the level altogether. */
  method CancelOneExistingOrder() returns (s: Summary)
    ensures s.buyOrders == [] && s.sellOrders == []
  {
    var order := Order("test", 100.0, 310.0, Buy);
    var board := new LiveOrderBoard();
    var orderId := board.RegisterOrder(order);
    board.CancelOrder(orderId, order);
    s := board.GetSummary();
    ListingOfNone(board.buyPrices, true);
    ListingOfNone(board.sellPrices, false);
  }

  /** Cancelling under an id that was never handed out changes nothing. */
  method CancelAnOrderNotExist() returns (s: Summary)
    ensures s.buyOrders == [SummaryEntry(100.0, 310.0)] && s.sellOrders == []
  {
    var order := Order("test", 100.0, 310.0, Buy);
    var board := new LiveOrderBoard();
    var orderId := board.RegisterOrder(order);
    board.CancelOrder(orderId + 1, order);
    s := board.GetSummary();
    ListingOfOne(board.buyPrices, 310.0, 100.0, true);
    ListingOfNone(board.sellPrices, false);
  }

  /** Cancelling with an order that differs from the registered one (here the owner) changes nothing. */
  method CancelAnOrderWithWrongAttributes() returns (s: Summary)
    ensures s.buyOrders == [SummaryEntry(100.0, 310.0)] && s.sellOrders == []
  {
    var registered := Order("test", 100.0, 310.0, Buy);
    var other := Order("test1", 100.0, 310.0, Buy);
    var board := new LiveOrderBoard();
    var orderId := board.RegisterOrder(registered);
    board.CancelOrder(orderId, other);
    s := board.GetSummary();
    ListingOfOne(board.buyPrices, 310.0, 100.0, true);
    ListingOfNone(board.sellPrices, false);
  }
}
