/**
  Scenarios of tests/integration_test.rs, evaluated on the specification
  functions that `OrderBook.PlaceOrder` is proved equal to: the resting side is
  built with `PushBackAt`, the incoming order is matched with `MatchSide`.
 */
module Scenarios {
  import opened Wrappers
  import opened PriceLevels
  import opened BookSpec

  /** Two asks at 99 and 100; a buy of 10 at 100 takes the better price first and empties the sell side. */
  lemma BuyPricePriority()
    ensures var asks := PushBackAt(PushBackAt([], PriceLevel(99, Sell), Order(101, 99, 5, 0)),
                                   PriceLevel(100, Sell), Order(102, 100, 5, 0));
      MatchSide(asks, Buy, 100, 10, 2) == Match([], 0, [Trade(99, 5, 101, 2), Trade(100, 5, 102, 2)])
  {
    var ask99 := Level(PriceLevel(99, Sell), [Order(101, 99, 5, 0)]);
    var ask100 := Level(PriceLevel(100, Sell), [Order(102, 100, 5, 0)]);
    assert PushBackAt([ask99], PriceLevel(100, Sell), Order(102, 100, 5, 0)) == [ask99, ask100];
    assert FillLevel(ask99.orders, 99, 10, 2) == Fill([], 5, [Trade(99, 5, 101, 2)]);
    assert SetQueue([ask99, ask100], 0, []) == [ask100];
    assert FillLevel(ask100.orders, 100, 5, 2) == Fill([], 0, [Trade(100, 5, 102, 2)]);
    assert SetQueue([ask100], 0, []) == [];
  }

  /** Two asks at the same price; a buy of 5 fills the older one (101) and leaves the newer one queued. */
  lemma TimePriorityAtSamePrice()
    ensures var asks := PushBackAt(PushBackAt([], PriceLevel(100, Sell), Order(101, 100, 5, 0)),
                                   PriceLevel(100, Sell), Order(102, 100, 5, 0));
      MatchSide(asks, Buy, 100, 5, 2) ==
        Match([Level(PriceLevel(100, Sell), [Order(102, 100, 5, 0)])], 0, [Trade(100, 5, 101, 2)])
  {
    var key := PriceLevel(100, Sell);
    var both := Level(key, [Order(101, 100, 5, 0), Order(102, 100, 5, 0)]);
    var one := [Level(key, [Order(101, 100, 5, 0)])];
    assert one[0].orders + [Order(102, 100, 5, 0)] == both.orders;
    assert [both] + one[1..] == [both];
    assert PushBackAt(one, key, Order(102, 100, 5, 0)) == [both];
    assert both.orders[1..] == [Order(102, 100, 5, 0)];
    assert FillLevel(both.orders, 100, 5, 2) == Fill([Order(102, 100, 5, 0)], 0, [Trade(100, 5, 101, 2)]);
  }

  /** An ask of 15 and a buy of 10 at its price: the maker is partly filled and keeps 5 on the book. */
  lemma MakerPartlyFilled()
    ensures var asks := PushBackAt([], PriceLevel(100, Sell), Order(101, 100, 15, 0));
      MatchSide(asks, Buy, 100, 10, 2) ==
        Match([Level(PriceLevel(100, Sell), [Order(101, 100, 5, 0)])], 0, [Trade(100, 10, 101, 2)])
  {
    var queue := [Order(101, 100, 15, 0)];
    assert [queue[0].(quantity := 5)] + queue[1..] == [Order(101, 100, 5, 0)];
    assert FillLevel(queue, 100, 10, 2) == Fill([Order(101, 100, 5, 0)], 0, [Trade(100, 10, 101, 2)]);
  }

  /**
    An ask of 10 at 99, then a buy of 11 at 100: it takes the ask at the
    maker's price 99 and rests 1 at 100.  A sell of 10 at 98 then takes that
    bid at 100, the maker's price, and keeps 9 to rest.
   */
  lemma MarketCross()
    ensures var asks := PushBackAt([], PriceLevel(99, Sell), Order(101, 99, 10, 0));
      var m := MatchSide(asks, Buy, 100, 11, 102);
      var bids := PushBackAt([], PriceLevel(100, Buy), Order(102, 100, m.rest, 0));
      m == Match([], 1, [Trade(99, 10, 101, 102)]) &&
      MatchSide(bids, Sell, 98, 10, 2) == Match([], 9, [Trade(100, 1, 102, 2)])
  {
    assert FillLevel([Order(101, 99, 10, 0)], 99, 11, 102) == Fill([], 1, [Trade(99, 10, 101, 102)]);
    assert FillLevel([Order(102, 100, 1, 0)], 100, 10, 2) == Fill([], 9, [Trade(100, 1, 102, 2)]);
  }
}
