# vanilla-orderbook in Dafny

A model of the matching engine of `vanilla-orderbook`. The engine is a
single-writer limit-order book with price-time priority. An `OrderBook` keeps
one ordered map per side, keyed by `PriceLevel`; each key holds a FIFO queue of
resting orders. `place_order` matches an incoming order against the opposite
side:

- It takes the opposite side's best level while the taker has quantity left
  and the level's price crosses the taker's limit.
- It drains that level oldest maker first and emits one `Trade` per fill, at
  the maker level's price.
- It removes filled makers and emptied levels.
- Any remainder rests at the back of the queue for its own `(price, side)`.

The model has five modules:

- `Wrappers` (`wrappers.dfy`): the `Option` type that lookups and queries
  return.
- `PriceLevels` (`price_level.dfy`): the value types of `src/lib.rs`, plus the
  `PriceLevel` comparison. On the buy side a higher price compares `Less`, so
  it comes first. On the sell side a lower price does. Proved: within one
  side, `cmp` is a total order that agrees with equality.
- `BookSpec` (`book_spec.dfy`): one side of the book as a sequence of
  `Level(key, orders)`, strictly increasing under `Cmp`. Index 0 is the map's
  first key, which is the side's best price. Three functions specify the
  engine:
  - `FillLevel`: the inner loop of `match_at_price_level`.
  - `MatchSide`: the outer loop of `place_order`.
  - `PushBackAt`: `entry(key).or_default().push_back(order)`.

  The lemmas prove what the book promises: quantity is conserved, there are no
  dangling levels and no dead orders, makers fill FIFO, trades happen at the
  maker's price, trade prices are monotone, and levels are consumed in
  priority order.
- `OrderBooks` (`orderbook.dfy`): the `OrderBook` class.
  - Its two sides are fields that the methods reassign.
  - The methods are proved equal to the `BookSpec` functions, with loop
    invariants.
  - `Valid()` says no level is empty, every resting order is live and at its
    level's price, and the keys are sorted. `PlaceOrder` requires and
    preserves it. `MatchAtPriceLevel` preserves it. `AddToBook` preserves it
    for a live order, which is the only kind `place_order` passes.
  - The read-only queries are functions over the fields.
- `Scenarios` (`scenarios.dfy`): four integration tests of
  `tests/integration_test.rs`, evaluated on the specification functions.

In `place_order`, the key passed to `match_at_price_level` comes from
`first_key_value`. Because of that, the `get_mut` miss branch of
`match_at_price_level` cannot be reached from `place_order`. `MatchStep`
proves this by showing the lookup lands on index 0. `MatchAtPriceLevel` still
models the miss branch.

The test named `test_market_cross` (tests/integration_test.rs:247-261) does
not build a crossed book:

1. The buy of 11 at 100 first trades 10 against the resting ask at 99.
2. It then rests 1 at 100.
3. The later sell of 10 at 98 therefore trades 1, not 10, with maker 102, at
   price 100.
4. It rests the other 9.

The model follows the code; `Scenarios.MarketCross` states this outcome.

## Model

| member | source | states |
|---|---|---|
| PriceLevels.CompareNat | src/lib.rs:54-58 | `u64::cmp`: Less, Equal or Greater exactly when the first price is below, equal to or above the second |
| PriceLevels.New | src/lib.rs:35-40 | the key has exactly the given price and side |
| PriceLevels.Cmp | src/lib.rs:50-61 | for a buy receiver the higher price is Less and the lower Greater; for a sell receiver the lower price is Less and the higher Greater; Equal exactly when the prices are equal |
| PriceLevels.PartialCmp | src/lib.rs:44-46 | always defined, and always equal to `cmp` |
| PriceLevels.CmpEqualIsEquality | src/lib.rs:28-61 | within one side, `cmp` answers Equal exactly when the derived equality holds |
| PriceLevels.CmpAntisymmetric | src/lib.rs:50-61 | within one side, swapping the arguments reverses the answer |
| PriceLevels.CmpTransitive | src/lib.rs:50-61 | within one side, Less and Equal compose transitively, so `cmp` is a total order on each side's keys |
| PriceLevels.CrossSideNotAntisymmetric | src/lib.rs:51-59 | `cmp` looks only at the receiver's side: a buy key at 1 and a sell key at 2 each compare Greater than the other |
| BookSpec.Min | src/orderbook.rs:125 | `u64::min`: no larger than either argument and equal to one of them |
| BookSpec.FirstLevelIsBest | src/orderbook.rs:44-45 | on a valid side the first key has a strictly better price than every other level: highest bid, lowest ask |
| BookSpec.Crosses | src/orderbook.rs:48-73 | the crossing test of both loops (buyer `price >= best`, seller `price <= best`) holds exactly when the level's key does not come after the taker's limit in the order of the side being matched |
| BookSpec.TotalQuantity | src/orderbook.rs:182 | the summed quantity of a queue is zero exactly when every order in it is empty, and is at least the front order's quantity |
| BookSpec.IndexOf | src/orderbook.rs:121 | map lookup by `cmp`: a found position's key compares Equal and no earlier key does; absent exactly when no key compares Equal |
| BookSpec.Lookup | src/orderbook.rs:201-206 | `BTreeMap::get`: absent exactly when no stored key compares Equal to the searched key; when present, the queue is the queue of a level whose key compares Equal |
| BookSpec.LookupFindsKey | src/orderbook.rs:201-206 | on a valid side, a key of that side is found exactly when some level has that key; the queue found is that level's own queue, non-empty, live and at that price |
| BookSpec.EmptyIffNoLevel | src/orderbook.rs:208-214 | a side is empty exactly when no price of that side is found on it |
| BookSpec.SetQueue | src/orderbook.rs:146-148 | writing back an emptied queue removes its level (one level fewer); otherwise the side keeps its length |
| BookSpec.FillLevel | src/orderbook.rs:122-143 | the inner loop stops only with the taker filled or the queue empty, and never increases the taker's quantity |
| BookSpec.FillConserves | src/orderbook.rs:125-137 | traded plus remaining quantity is the taker's quantity, and the queue loses exactly the traded quantity |
| BookSpec.FillTrades | src/orderbook.rs:128-133 | every trade of a level is at that level's price and names the taker |
| BookSpec.FillTradesPositive | src/orderbook.rs:125-133 | against live makers every trade quantity is positive |
| BookSpec.FillKeepsQueueValid | src/orderbook.rs:136-142 | draining keeps every order of the queue live and at the level's price: filled makers are popped |
| BookSpec.FillIsFifo | src/orderbook.rs:122-142 | the j-th trade fills the j-th maker; every trade but the last fills its maker completely; the remaining queue is the untouched tail, headed by the last maker reduced by its trade when that one was only partly filled |
| BookSpec.FillAtMakerPrices | src/orderbook.rs:125-133 | on a valid level the j-th trade is at the price of the j-th maker |
| BookSpec.MatchSide | src/orderbook.rs:42-88 | the outer loop (the buy loop and the sell loop alike) never increases the taker's quantity and stops only with the taker filled, the opposite side empty, or its best level not crossing |
| BookSpec.MatchStep | src/orderbook.rs:44-56 | on a valid side the best level's key is found at index 0, so the lookup in `match_at_price_level` cannot miss; the drained side stays valid and the rest of the matching is unchanged |
| BookSpec.MatchStops | src/orderbook.rs:57-62 | when the loop breaks (taker filled, no level, or no cross) nothing is left to match and the loop's result is the full matching |
| BookSpec.SetQueueKeepsValid | src/orderbook.rs:140-148 | writing a live queue back to any level, or removing that level when the queue is empty, keeps the side valid |
| BookSpec.MatchConserves | src/orderbook.rs:42-88 | across levels, traded plus remaining quantity is the submitted quantity, and the opposite side loses exactly the traded quantity |
| BookSpec.MatchKeepsValid | src/orderbook.rs:140-148 | matching leaves no empty level and no dead order, and the side stays sorted |
| BookSpec.MatchTrades | src/orderbook.rs:42-88 | every trade names the taker, has a positive quantity, and is at a price that crosses the taker's limit |
| BookSpec.MatchIsFifo | src/orderbook.rs:42-143 | the trades consume a prefix of the opposite side in priority order (best level first, FIFO within a level); only the last maker touched can be partly filled, and what is left is the rest of the side |
| BookSpec.MatchAtMakerPrices | src/orderbook.rs:47-56 | on a valid side each trade is at the price of the maker it filled, which is the level's price and is not taken from the taker's limit |
| BookSpec.FlattenInPriority | src/orderbook.rs:8-11 | a valid side lists its orders from the best price to the worst: descending bids, ascending asks |
| BookSpec.MatchPricesMonotone | src/orderbook.rs:42-88 | a buyer's trade prices never decrease and a seller's never increase |
| BookSpec.MatchLeavesSuffix | src/orderbook.rs:42-88 | each level is drained completely before the next one is touched: what is left is an untouched suffix of the side, possibly headed by the one level the taker stopped in, whose queue is what a FIFO fill leaves of that level's queue |
| BookSpec.PushBackAt | src/orderbook.rs:161-164 | the insertion adds at most one level |
| BookSpec.PushBackKeepsValid | src/orderbook.rs:156-173 | adding a live order at its own price keeps the side valid and sorted |
| BookSpec.PushBackAppends | src/orderbook.rs:161-164 | afterwards the queue at the key is the old queue, or an empty one, with the order at its back |
| BookSpec.PushBackKeepsOthers | src/orderbook.rs:156-173 | the queue at every other price is unchanged |
| BookSpec.PushBackQuantity | src/orderbook.rs:156-173 | the side gains exactly the order's quantity |
| BookSpec.TotalQuantityPositive | src/orderbook.rs:182 | a non-empty queue of live orders has a positive total |
| BookSpec.BestOf | src/orderbook.rs:180-195 | `first_key_value` with the queue summed: absent exactly when the side is empty; otherwise the reported quantity is the total of the queue that a lookup of the reported price finds on that side |
| BookSpec.BestOfIsBest | src/orderbook.rs:180-196 | absent exactly when the side is empty; on a valid side the reported price is at least as good as every level, the queue at that price exists, and the reported quantity is its positive total |
| OrderBooks.OrderBook.constructor | src/orderbook.rs:6-12 | the default book has both sides empty and is valid |
| OrderBooks.OrderBook.PlaceOrder | src/orderbook.rs:22-98 | keeps the book valid; the opposite side and trades are `MatchSide`'s; a remainder > 0 is pushed at the back of its own level and nothing else changes; a zero quantity changes nothing and trades nothing; quantity is conserved on both sides; with a remainder, the opposite side is empty or its best level does not cross |
| OrderBooks.OrderBook.MatchIncoming | src/orderbook.rs:38-90 | the matching loop leaves the own side unchanged, keeps the book valid, and ends exactly where `MatchSide` does |
| OrderBooks.OrderBook.MatchAtPriceLevel | src/orderbook.rs:107-152 | a missing key changes nothing and returns the quantity; otherwise the queue at the key is drained as `FillLevel` says and written back (removed when empty), the trades are appended, and the other side is unchanged; a valid book stays valid |
| OrderBooks.OrderBook.AddToBook | src/orderbook.rs:156-173 | the own side becomes `PushBackAt` at the key `PriceLevel::new` builds; the other side is unchanged; a valid book stays valid when the order is live |
| OrderBooks.OrderBook.BestBuy | src/orderbook.rs:180-185 | absent exactly when there are no bids; on a valid book the highest bid price, with the positive total of the queue `get_orders` returns for it |
| OrderBooks.OrderBook.BestSell | src/orderbook.rs:191-196 | absent exactly when there are no asks; on a valid book the lowest ask price, with the positive total of the queue `get_orders` returns for it |
| OrderBooks.OrderBook.GetOrders | src/orderbook.rs:201-206 | on a valid book, present exactly when the key's own side has a level with that key; then it is exactly that level's queue, non-empty, live and at the key's price |
| OrderBooks.OrderBook.IsBuySideEmpty | src/orderbook.rs:208-210 | true exactly when `best_buy` is absent, and exactly when `get_orders` finds no buy price |
| OrderBooks.OrderBook.IsSellSideEmpty | src/orderbook.rs:212-214 | true exactly when `best_sell` is absent, and exactly when `get_orders` finds no sell price |
| Scenarios.BuyPricePriority | tests/integration_test.rs:136-159 | asks of 5 at 99 and 5 at 100 and a buy of 10 at 100: it trades at 99 with maker 101, then at 100 with maker 102, and the sell side is left empty |
| Scenarios.TimePriorityAtSamePrice | tests/integration_test.rs:189-208 | two asks at 100 and a buy of 5: it fills the older maker 101, and only the newer order 102 remains queued |
| Scenarios.MakerPartlyFilled | tests/integration_test.rs:76-91 | an ask of 15 and a buy of 10: one trade of 10, and the maker keeps 5 at the front of its level |
| Scenarios.MarketCross | tests/integration_test.rs:247-261 | the buy of 11 at 100 takes the ask at 99 and rests 1; the sell of 10 at 98 then trades 1 at 100 with maker 102 and keeps 9 |

## Left out

- The wall-clock timestamp (src/orderbook.rs:26-29) is not read from a clock. It is the `now` parameter of `PlaceOrder`, stored in the order and never read. The `expect` panic when the system clock reads before the Unix epoch is not modelled.
- Machine integers: `u64` prices, quantities and ids, and the `u128` timestamp, are unbounded `nat`s.
  - The `u64` sum in `best_buy`/`best_sell` (src/orderbook.rs:182,193) can overflow; that overflow is not modelled.
  - The subtractions at src/orderbook.rs:136-137 cannot underflow, because the traded quantity is a minimum.
- `BTreeMap` and `VecDeque` are library code.
  - A side is a sequence of levels kept sorted by `cmp`, with lookup by a linear search for the key that compares Equal.
  - A queue is a sequence of orders.
  - The tree's balancing and the deque's ring buffer are not modelled.
- Aliasing: the engine updates the front maker through a mutable reference, and `get_orders` returns a reference. The model rebuilds the queue as a value and returns it as a value.
- The two symmetric `while` loops of `place_order` (src/orderbook.rs:42-63 and 67-88) are one loop, `MatchIncoming`, over the opposite side. `Crosses` holds the side-dependent comparison.
- OrderBooks.OrderBook.PlaceOrder: requires `Valid()`, the class invariant. The constructor establishes it and `PlaceOrder` preserves it; the Rust fields are private, so no caller can break it.
- BookSpec.FillIsFifo: states each trade's quantity through its maker's quantity and conservation, not as `min` of the taker's running quantity and the maker's. A complete fill equals the maker's quantity; the last trade is smaller when that maker is only partly filled.
- Derived `Debug`/`Clone`, and the `prelude` re-export (src/lib.rs:65-67), are not modelled.
- The integration tests are not modelled as code. Four of them are restated as `Scenarios` lemmas on the specification functions, not on a live `OrderBook` object.
