/**
  The value types of the order book (src/lib.rs): sides, orders, trades and the
  `PriceLevel` map key whose side-dependent ordering puts each side's best price
  first.  Rust's `u64` fields are modelled as `nat`.
 */
module PriceLevels {
  import opened Wrappers

  datatype Side = Buy | Sell

  /** A resting or incoming limit order.  The timestamp is stored but never read. */
  datatype Order = Order(id: nat, price: nat, quantity: nat, timestamp: nat)

  /** One match between a resting maker and the incoming taker. */
  datatype Trade = Trade(price: nat, quantity: nat, makerId: nat, takerId: nat)

  /** The key of both sides' ordered maps; equality is the derived field-wise one. */
  datatype PriceLevel = PriceLevel(price: nat, side: Side)

  /** Rust's `std::cmp::Ordering`. */
  datatype Ordering = Less | Equal | Greater

  function Reverse(o: Ordering): Ordering
  {
    match o
    case Less => Greater
    case Equal => Equal
    case Greater => Less
  }

  /** `u64::cmp`: natural comparison of two numbers. */
  function CompareNat(a: nat, b: nat): (r: Ordering)
    ensures r == Less <==> a < b
    ensures r == Equal <==> a == b
    ensures r == Greater <==> a > b
  {
    if a < b then Less else if a == b then Equal else Greater
  }

  /** `PriceLevel::new`. */
  function New(price: nat, side: Side): (k: PriceLevel)
    ensures k.price == price && k.side == side
  {
    PriceLevel(price, side)
  }

  /**
    `Ord::cmp` for `PriceLevel`.  It looks only at the receiver's side: on the buy
    side the higher price compares Less (comes first), on the sell side the lower
    price does.
   */
  function Cmp(a: PriceLevel, b: PriceLevel): (r: Ordering)
    ensures a.side == Buy ==> (r == Less <==> a.price > b.price) && (r == Greater <==> a.price < b.price)
    ensures a.side == Sell ==> (r == Less <==> a.price < b.price) && (r == Greater <==> a.price > b.price)
    ensures r == Equal <==> a.price == b.price
  {
    match a.side
    case Buy => CompareNat(b.price, a.price)
    case Sell => CompareNat(a.price, b.price)
  }

  /** `PartialOrd::partial_cmp`: always defined, and always the total order's answer. */
  function PartialCmp(a: PriceLevel, b: PriceLevel): (r: Option<Ordering>)
    ensures r.Some? && r.value == Cmp(a, b)
  {
    Some(Cmp(a, b))
  }

  /** Within one side, `cmp` answers Equal exactly when the derived equality holds. */
  lemma CmpEqualIsEquality(a: PriceLevel, b: PriceLevel)
    requires a.side == b.side
    ensures Cmp(a, b) == Equal <==> a == b
  {
  }

  /** Within one side, swapping the arguments reverses the answer. */
  lemma CmpAntisymmetric(a: PriceLevel, b: PriceLevel)
    requires a.side == b.side
    ensures Cmp(a, b) == Reverse(Cmp(b, a))
  {
  }

  /** Within one side, Less and Equal answers compose. */
  lemma CmpTransitive(a: PriceLevel, b: PriceLevel, c: PriceLevel)
    requires a.side == b.side == c.side
    ensures Cmp(a, b) == Less && Cmp(b, c) != Greater ==> Cmp(a, c) == Less
    ensures Cmp(a, b) != Greater && Cmp(b, c) == Less ==> Cmp(a, c) == Less
    ensures Cmp(a, b) == Equal && Cmp(b, c) == Equal ==> Cmp(a, c) == Equal
  {
  }

  /**
    Across sides the comparison is not antisymmetric: a buy key at 1 and a sell
    key at 2 each compare Greater than the other.
   */
  lemma CrossSideNotAntisymmetric()
    ensures exists a: PriceLevel, b: PriceLevel ::
      a.side != b.side && Cmp(a, b) == Greater && Cmp(b, a) == Greater
  {
    var a, b := PriceLevel(1, Buy), PriceLevel(2, Sell);
    assert Cmp(a, b) == Greater && Cmp(b, a) == Greater;
  }
}
