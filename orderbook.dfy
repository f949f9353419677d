/**
  The book engine of src/orderbook.rs: an `OrderBook` object whose two sides
  change in place as orders are placed.  Each side is a sequence of levels
  sorted by `Cmp` (the ordered map), each level a FIFO queue.  Every method is
  proved equal to the specification functions of `BookSpec`.  `Valid()` (no
  empty level, no dead order, orders at their level's price, sorted keys) is
  established by the constructor and preserved by `PlaceOrder`, by
  `MatchAtPriceLevel`, and by `AddToBook` for a live order.
 */
module OrderBooks {
  import opened Wrappers
  import opened PriceLevels
  import opened BookSpec

  class OrderBook {
    /** Buy side levels, highest price first. */
    var buySide: seq<Level>
    /** Sell side levels, lowest price first. */
    var sellSide: seq<Level>

    ghost predicate Valid()
      reads this
    {
      SideValid(buySide, Buy) && SideValid(sellSide, Sell)
    }

    /** `OrderBook::default()`: both sides empty. */
    constructor ()
      ensures Valid() && buySide == [] && sellSide == []
    {
      buySide, sellSide := [], [];
    }

    /** The map a side's orders rest in. */
    function Levels(s: Side): seq<Level>
      reads this
    {
      match s
      case Buy => buySide
      case Sell => sellSide
    }

    /**
      `place_order`: matches the incoming order against the opposite side while
      it has quantity left and that side's best level crosses its limit, then
      rests any remainder at the back of its own price level.  `now` is the
      wall-clock timestamp the order is stamped with.
     */
    method PlaceOrder(side: Side, price: nat, quantity: nat, id: nat, now: nat) returns (trades: seq<Trade>)
      requires Valid()
      modifies this
      ensures Valid()
      ensures var m := MatchSide(old(Levels(Opposite(side))), side, price, quantity, id);
        Levels(Opposite(side)) == m.levels && trades == m.trades &&
        Levels(side) == if m.rest > 0
          then PushBackAt(old(Levels(side)), New(price, side), Order(id, price, m.rest, now))
          else old(Levels(side))
      ensures quantity == 0 ==> trades == [] && buySide == old(buySide) && sellSide == old(sellSide)
      ensures SideQuantity(Levels(Opposite(side))) + TradedQuantity(trades) == old(SideQuantity(Levels(Opposite(side))))
      ensures TradedQuantity(trades) <= quantity
      ensures TradedQuantity(trades) < quantity ==>
        Levels(Opposite(side)) == [] || !Crosses(side, price, Levels(Opposite(side))[0].key.price)
      ensures SideQuantity(Levels(side)) == old(SideQuantity(Levels(side))) + (quantity - TradedQuantity(trades))
    {
      var rest;
      rest, trades := MatchIncoming(side, price, quantity, id);
      MatchConserves(old(Levels(Opposite(side))), side, price, quantity, id);
      if rest > 0 {
        var incoming := Order(id, price, rest, now);
        PushBackKeepsValid(Levels(side), side, New(price, side), incoming);
        PushBackQuantity(Levels(side), New(price, side), incoming);
        AddToBook(side, incoming);
      }
    }

    /**
      The matching loop of `place_order` (one loop per side in the source, one
      loop over the opposite side here): while the taker has quantity left and
      the opposite side's best level crosses its limit, that level is drained.
      The taker's own side is not touched.
     */
    method MatchIncoming(side: Side, price: nat, quantity: nat, id: nat) returns (rest: nat, trades: seq<Trade>)
      requires Valid()
      modifies this
      ensures Valid()
      ensures Levels(side) == old(Levels(side))
      ensures var m := MatchSide(old(Levels(Opposite(side))), side, price, quantity, id);
        Levels(Opposite(side)) == m.levels && rest == m.rest && trades == m.trades
    {
      trades, rest := [], quantity;
      var opposite := Opposite(side);
      ghost var target := MatchSide(Levels(opposite), side, price, quantity, id);
      while rest > 0
        invariant Valid()
        invariant Levels(side) == old(Levels(side))
        invariant MatchRemains(Levels(opposite), side, price, rest, id, trades, target)
        decreases |Levels(opposite)|, rest
      {
        var book := Levels(opposite);
        if book == [] || !Crosses(side, price, book[0].key.price) {
          break;
        }
        var bestPrice := book[0].key.price;
        // The key comes from the first level, so the lookup inside cannot miss.
        MatchStep(book, side, price, rest, id, trades, target);
        rest, trades := MatchAtPriceLevel(opposite, bestPrice, rest, id, trades);
      }
      MatchStops(Levels(opposite), side, price, rest, id, trades, target);
    }

    /**
      `match_at_price_level`: drains the queue at `(price, bookSide)` front first
      against a taker of quantity `qty`, appending the trades to `trades`; an
      emptied level is removed.  When the key is absent nothing changes.
     */
    method MatchAtPriceLevel(bookSide: Side, price: nat, qty: nat, takerId: nat, trades: seq<Trade>)
      returns (rest: nat, tradesOut: seq<Trade>)
      modifies this
      ensures Levels(Opposite(bookSide)) == old(Levels(Opposite(bookSide)))
      ensures old(Valid()) ==> Valid()
      ensures match IndexOf(old(Levels(bookSide)), PriceLevel(price, bookSide))
        case None =>
          Levels(bookSide) == old(Levels(bookSide)) && rest == qty && tradesOut == trades
        case Some(i) =>
          var f := FillLevel(old(Levels(bookSide))[i].orders, price, qty, takerId);
          Levels(bookSide) == SetQueue(old(Levels(bookSide)), i, f.queue) &&
          rest == f.rest && tradesOut == trades + f.trades
    {
      var priceKey := PriceLevel(price, bookSide);
      var book := Levels(bookSide);
      rest, tradesOut := qty, trades;
      var found := IndexOf(book, priceKey);
      if found.Some? {
        var i := found.value;
        var orders := book[i].orders;
        ghost var target := FillLevel(orders, price, qty, takerId);
        while rest > 0 && orders != []
          invariant FillLevel(orders, price, rest, takerId).queue == target.queue
          invariant FillLevel(orders, price, rest, takerId).rest == target.rest
          invariant tradesOut + FillLevel(orders, price, rest, takerId).trades == trades + target.trades
          decreases |orders|, rest
        {
          var front := orders[0];
          var tradeQty := Min(rest, front.quantity);
          tradesOut := tradesOut + [Trade(price, tradeQty, front.id, takerId)];
          rest := rest - tradeQty;
          front := front.(quantity := front.quantity - tradeQty);
          if front.quantity == 0 {
            orders := orders[1..];
          } else {
            orders := [front] + orders[1..];
          }
        }
        ghost var wasValid := SideValid(book, bookSide);
        if wasValid {
          assert LevelValid(book[i], bookSide);
          FillKeepsQueueValid(book[i].orders, price, qty, takerId, book[i].key.price);
          SetQueueKeepsValid(book, bookSide, i, orders);
        }
        if orders == [] {
          book := book[..i] + book[i + 1..];
        } else {
          book := book[i := Level(book[i].key, orders)];
        }
        match bookSide
        case Buy => buySide := book;
        case Sell => sellSide := book;
      }
    }

    /** `add_to_book`: appends the order at the back of its `(price, side)` queue, creating it if absent. */
    method AddToBook(side: Side, order: Order)
      modifies this
      ensures Levels(side) == PushBackAt(old(Levels(side)), New(order.price, side), order)
      ensures Levels(Opposite(side)) == old(Levels(Opposite(side)))
      ensures old(Valid()) && order.quantity > 0 ==> Valid()
    {
      var priceKey := PriceLevel(order.price, side);
      ghost var wasValid := Valid();
      if wasValid && order.quantity > 0 {
        PushBackKeepsValid(Levels(side), side, priceKey, order);
      }
      match side
      case Buy => buySide := PushBackAt(buySide, priceKey, order);
      case Sell => sellSide := PushBackAt(sellSide, priceKey, order);
    }

    /** `best_buy`: the highest bid and the total quantity resting at it. */
    function BestBuy(): (r: Option<(nat, nat)>)
      reads this
      ensures r.None? <==> buySide == []
      ensures Valid() && r.Some? ==>
        (forall i :: 0 <= i < |buySide| ==> buySide[i].key.price <= r.value.0) &&
        GetOrders(PriceLevel(r.value.0, Buy)).Some? &&
        r.value.1 == TotalQuantity(GetOrders(PriceLevel(r.value.0, Buy)).value) && r.value.1 > 0
    {
      BestOfIsBest(buySide, Buy);
      BestOf(buySide)
    }

    /** `best_sell`: the lowest ask and the total quantity resting at it. */
    function BestSell(): (r: Option<(nat, nat)>)
      reads this
      ensures r.None? <==> sellSide == []
      ensures Valid() && r.Some? ==>
        (forall i :: 0 <= i < |sellSide| ==> sellSide[i].key.price >= r.value.0) &&
        GetOrders(PriceLevel(r.value.0, Sell)).Some? &&
        r.value.1 == TotalQuantity(GetOrders(PriceLevel(r.value.0, Sell)).value) && r.value.1 > 0
    {
      BestOfIsBest(sellSide, Sell);
      BestOf(sellSide)
    }

    /** `get_orders`: the FIFO queue at exactly this key, looked up in the key's own side. */
    function GetOrders(priceKey: PriceLevel): (r: Option<seq<Order>>)
      reads this
      ensures Valid() ==>
        (r.Some? <==> exists i :: 0 <= i < |Levels(priceKey.side)| && Levels(priceKey.side)[i].key == priceKey)
      ensures Valid() ==> forall i :: 0 <= i < |Levels(priceKey.side)| && Levels(priceKey.side)[i].key == priceKey ==>
        r == Some(Levels(priceKey.side)[i].orders)
      ensures Valid() && r.Some? ==> LevelValid(Level(priceKey, r.value), priceKey.side)
    {
      LookupFindsKey(Levels(priceKey.side), priceKey.side, priceKey);
      match priceKey.side
      case Buy => Lookup(buySide, priceKey)
      case Sell => Lookup(sellSide, priceKey)
    }

    /** `is_buy_side_empty`: no price level is found on the buy side. */
    function IsBuySideEmpty(): (r: bool)
      reads this
      ensures r <==> BestBuy().None?
      ensures r <==> forall p: nat :: GetOrders(PriceLevel(p, Buy)).None?
    {
      EmptyIffNoLevel(buySide, Buy);
      buySide == []
    }

    /** `is_sell_side_empty`: no price level is found on the sell side. */
    function IsSellSideEmpty(): (r: bool)
      reads this
      ensures r <==> BestSell().None?
      ensures r <==> forall p: nat :: GetOrders(PriceLevel(p, Sell)).None?
    {
      EmptyIffNoLevel(sellSide, Sell);
      sellSide == []
    }
  }
}
