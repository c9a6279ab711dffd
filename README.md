# Live order board

A Dafny model of the live order board of a trading venue. Clients register and
cancel buy and sell orders. On demand, the board produces a summary with the
total quantity outstanding at each price: buy levels from the highest price
down, sell levels from the lowest price up.

The board (`LiveOrderBoard.java`) keeps four pieces of state:

- an id counter that starts at 0;
- a registry from id to order;
- one price-level map per side, from price to aggregate quantity.

The model has four modules:

- `Values` (`values.dfy`): the value types `Order`, `SummaryEntry`, `Summary` and the side `OrderType`.
  An order is a plain datatype, so two orders are equal exactly when all four fields agree.
  That is the value equality that cancellation compares.
- `PriceLevels` (`price_levels.dfy`): the two level updates (the `compute` done on registration and the
  `computeIfPresent` done on cancellation) and the listing of one side in price order.
  The listing is proved to contain exactly the levels, strictly ordered, and to be the only sequence that does.
- `Board` (`board.dfy`): the class `LiveOrderBoard`, whose methods update its fields in place.
  It also holds the specification the methods are proved against:
  - `BoardState`, the four fields taken as one value;
  - `Register` and `Cancel`, the new state as a function of the old;
  - `Total`, the sum of the registered quantities of one side at one price;
  - the invariant `Inv`: each level equals that sum, and a price has a level exactly when the sum is positive.
- `Scenarios` (`scenarios.dfy`): the repository's unit tests, each a method that runs the calls on a new board
  and states the resulting summary exactly.

Quantities and prices are exact `real`s. An order's quantity has the subset type `Quantity` (greater than 0),
which stands for the validation the caller does before registering.

## Model

| member | source | states |
|---|---|---|
| `PriceLevels.Increase` | src/main/java/com/enirvana/interview/LiveOrderBoard.java:34 | the level at the order's price becomes the old level plus the quantity, or the quantity if the price had no level; every other price is untouched; positive levels stay positive |
| `PriceLevels.Decrease` | src/main/java/com/enirvana/interview/LiveOrderBoard.java:42 | a level equal to the quantity is removed rather than set to zero; any other level shrinks by the quantity; a missing level stays missing; every other price is untouched |
| `PriceLevels.IncreaseThenDecrease` | src/main/java/com/enirvana/interview/LiveOrderBoard.java:34-42 | on positive levels, taking back a quantity just added restores the map exactly, with no zero level left behind |
| `PriceLevels.PricesInOrder` | src/main/java/com/enirvana/interview/LiveOrderBoard.java:53-55 | the result lists exactly the levels as (quantity, price) entries, one per price, strictly ascending or strictly descending by price |
| `PriceLevels.ListingUnique` | src/main/java/com/enirvana/interview/LiveOrderBoard.java:46-55 | any two strictly ordered sequences that list the same levels are equal, so the summary order is fully determined |
| `Board.TotalRemove` | src/main/java/com/enirvana/interview/LiveOrderBoard.java:40-42 | the sum of registered quantities at a price splits into any one registered order's share plus the sum over the rest |
| `Board.TotalInsert` | src/main/java/com/enirvana/interview/LiveOrderBoard.java:32-34 | registering an order under an unused id adds exactly its quantity to the sum at its own side and price and nothing anywhere else |
| `Board.TotalPositiveIffLive` | src/main/java/com/enirvana/interview/LiveOrderBoard.java:40-42 | the sum at a side and price is positive if and only if some registered order has that side and price |
| `Board.RegisterPreservesInv` | src/main/java/com/enirvana/interview/LiveOrderBoard.java:30-37 | registration keeps every level equal to the sum of its side's registered quantities at that price, with no zero levels; the id it hands out is not in the registry |
| `Board.CancelPreservesInv` | src/main/java/com/enirvana/interview/LiveOrderBoard.java:39-44 | cancellation, matched or not, keeps every level equal to the sum of its side's registered quantities at that price, with no zero levels |
| `Board.InvLevelsPositive` | src/main/java/com/enirvana/interview/LiveOrderBoard.java:42 | under the invariant no level on either side is zero or negative |
| `Board.RegisterThenCancel` | src/main/java/com/enirvana/interview/LiveOrderBoard.java:30-44 | registering an order and cancelling it under the returned id restores the registry and both level maps; only the counter has advanced |
| `Board.CancelIdempotent` | src/main/java/com/enirvana/interview/LiveOrderBoard.java:40 | cancelling the same id and order twice has the same effect as cancelling once |
| `Board.LevelIffLiveOrder` | src/main/java/com/enirvana/interview/LiveOrderBoard.java:27-28 | under the invariant a side has a level at a price if and only if a registered order of that side sits there, and the level is the sum of their quantities |
| `Board.LiveOrderBoard.constructor` | src/main/java/com/enirvana/interview/LiveOrderBoard.java:25-28 | a new board has counter 0, an empty registry and no levels, and satisfies the invariant |
| `Board.LiveOrderBoard.RegisterOrder` | src/main/java/com/enirvana/interview/LiveOrderBoard.java:30-37 | returns the counter's old value, which was not in the registry, and advances the counter by one; the new state is `Register` of the old: the registry maps the id to the order, the order's side gets `Increase` at its price, the other side is unchanged; the invariant is kept |
| `Board.LiveOrderBoard.CancelOrder` | src/main/java/com/enirvana/interview/LiveOrderBoard.java:39-44 | if the registry does not hold exactly this order under this id, nothing changes; otherwise the entry is removed and the order's side gets `Decrease` at its price; the counter and the other side are unchanged; the invariant is kept |
| `Board.LiveOrderBoard.GetSummary` | src/main/java/com/enirvana/interview/LiveOrderBoard.java:46-51 | reads the board only; the buy entries are exactly the buy levels in strictly descending price order, the sell entries exactly the sell levels in strictly ascending price order |
| `Board.SummaryReportsTotals` | src/main/java/com/enirvana/interview/LiveOrderBoard.java:46-55 | every summary entry's quantity is the positive sum of the registered quantities at its side and price, and every registered order's price appears on its side with that sum |
| `Scenarios.RegisterABuyAndASell` | src/test/java/com/enirvana/interview/client/LiveOrderBoardTest.java:10-22 | a buy and a sell of 100 at 310 give one entry (100, 310) on each side |
| `Scenarios.RegisterThreeBuys` | src/test/java/com/enirvana/interview/client/LiveOrderBoardTest.java:24-38 | buys of 100 at 310, 310 and 320 give buy entries (100, 320) then (200, 310), and no sell entries |
| `Scenarios.RegisterThreeSells` | src/test/java/com/enirvana/interview/client/LiveOrderBoardTest.java:40-54 | sells of 100 at 310, 310 and 320 give sell entries (200, 310) then (100, 320), and no buy entries |
| `Scenarios.CancelOneExistingOrder` | src/test/java/com/enirvana/interview/client/LiveOrderBoardTest.java:56-67 | cancelling the only order at a price leaves both sides empty, with no zero entry |
| `Scenarios.CancelAnOrderNotExist` | src/test/java/com/enirvana/interview/client/LiveOrderBoardTest.java:69-80 | cancelling under an id that was never handed out leaves the entry (100, 310) in place |
| `Scenarios.CancelAnOrderWithWrongAttributes` | src/test/java/com/enirvana/interview/client/LiveOrderBoardTest.java:82-94 | cancelling with an order whose owner differs from the registered one leaves the entry (100, 310) in place |

## Left out

- Concurrency: the source uses a concurrent hash map, concurrent skip-list maps and an atomic counter. It leaves register, cancel and summary unsynchronised and only promises an eventually up-to-date summary (`LiveOrderBoard.java:12-22`). Each operation here is one sequential, atomic method. Interleavings are not modelled, including a summary that sees a registry update before the matching level update.
- Floating point: quantities and prices are Java `Double`s, and the test at `LiveOrderBoard.java:42` compares the level with the order's quantity exactly. Here they are exact reals. Rounding could leave a tiny non-zero level, or a negative one, after a cancellation; that is not modelled.
- Board.LiveOrderBoard.RegisterOrder: the counter is an unbounded integer, but the source's `AtomicInteger` (`LiveOrderBoard.java:25,31`) is 32-bit. Registrations 1 to 2^31 get ids 0 to 2^31 - 1. After that the counter wraps to -2^31, so two promises stop holding in the source: `currentOrderId == orderId + 1` (ids strictly increasing) and the `0 <= id` part of `Board.Inv`. The wrapped ids -2^31 to -1 are still fresh. An id can be handed out twice only after 2^32 registrations, and then only while the earlier order with that id is still registered; the `put` at line 32 would then overwrite it. The model does not capture any of this.
- Quantity validation: the board does not check quantities. A zero or negative quantity would break the "no zero level" invariant in the source. Here the `Quantity` type admits only positive quantities, which stands for the caller's validation.
- Generated value classes: the Immutables-generated `ImmutableOrder`, `ImmutableSummary` and `ImmutableSummaryEntry`, their builders and their `equals` are not part of this model. Dafny datatypes with structural equality take their place.
- Stream plumbing: the stream and collector pipeline at `LiveOrderBoard.java:54` and the `descendingMap()` view at line 48 are modelled by their result only, a sequence of entries in price order.
- `OrderType.java` is not part of this model. The model assumes the order type has exactly two values, `BUY` and `SELL`, the only ones used at `LiveOrderBoard.java:10` and in the tests; these become the datatype `Values.OrderType`. `LiveOrderBoard.java:33` sends every order whose type is not `BUY` to `sellPrices`, and `Board.Register` and `Board.Cancel` do the same with their `else` branch.
