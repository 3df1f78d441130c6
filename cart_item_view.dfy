/**
 * One row of the cart page (joanie-store/src/components/cart/CartItem.tsx):
 * the unit price it shows, the line total, and the quantity the minus and plus
 * buttons ask for. Amounts are integer cents.
 */
module CartItemView {
  import opened Store
  import opened Pricing
  import CartRoute

  /** `onUpdateQuantity(item.id, quantity)`: the cart row's id and the quantity asked for. */
  datatype QuantityRequest = QuantityRequest(itemId: string, quantity: int)

  /** What the row shows: unit price, line total, whether the list price is struck through, whether minus is disabled. */
  datatype Row = Row(displayPrice: int, lineTotal: int, showsStrikethrough: bool, decrementDisabled: bool)

  function Render(item: CartItem): (row: Row)
    ensures row.displayPrice == NullishPrice(item.product)
    ensures row.lineTotal == row.displayPrice * item.quantity
    ensures row.showsStrikethrough <==> item.product.isOnSale && TruthyNumber(item.product.salePrice)
    ensures row.decrementDisabled <==> item.quantity <= 1
  {
    var price := NullishPrice(item.product);
    Row(price, price * item.quantity, item.product.isOnSale && TruthyNumber(item.product.salePrice), item.quantity <= 1)
  }

  /** The minus button: `Math.max(1, item.quantity - 1)`. */
  function Decrement(item: CartItem): (req: QuantityRequest)
    ensures req.itemId == item.id
    ensures req.quantity >= 1
    ensures item.quantity > 1 ==> req.quantity == item.quantity - 1
    ensures item.quantity <= 1 ==> req.quantity == 1
  {
    QuantityRequest(item.id, if item.quantity - 1 > 1 then item.quantity - 1 else 1)
  }

  /** The plus button: one more, with no upper bound. */
  function Increment(item: CartItem): (req: QuantityRequest)
    ensures req.itemId == item.id && req.quantity == item.quantity + 1
  {
    QuantityRequest(item.id, item.quantity + 1)
  }

  /**
   * Whenever the minus button is enabled it asks for exactly one fewer, which
   * is at least 1; the clamp only matters for a row the button cannot be
   * pressed on.
   */
  lemma EnabledDecrementLowersByOne(item: CartItem)
    ensures !Render(item).decrementDisabled ==> Decrement(item).quantity == item.quantity - 1 >= 1
    ensures Render(item).decrementDisabled ==> Decrement(item).quantity == 1
  {
  }

  /** Minus then plus on the resulting quantity returns to the starting quantity whenever minus was enabled. */
  lemma DecrementThenIncrement(item: CartItem)
    requires !Render(item).decrementDisabled
    ensures Increment(item.(quantity := Decrement(item).quantity)).quantity == item.quantity
  {
  }

  /** The sum of the line totals of `items`, left to right. */
  function LineTotalSum(items: seq<CartItem>): int {
    if items == [] then 0 else LineTotalSum(items[..|items| - 1]) + Render(items[|items| - 1]).lineTotal
  }

  /**
   * The rows' line totals add up to the server's `totalPrice` as long as no
   * product has a sale price of exactly zero: the row's `??` and the server's
   * `||` only part ways there.
   */
  lemma {:induction false} LineTotalsMatchServerTotal(items: seq<CartItem>)
    requires forall i :: 0 <= i < |items| ==> items[i].product.salePrice != Some(0)
    ensures LineTotalSum(items) == CartRoute.Fold(items).totalPrice
    decreases |items|
  {
    if items != [] {
      var last := items[|items| - 1];
      LineTotalsMatchServerTotal(items[..|items| - 1]);
      ServerAndNullishAgree(last.product);
    }
  }

  /** A product with a zero sale price and a non-zero list price: the row charges 0, the server the list price. */
  lemma ZeroSalePriceRowDisagrees(item: CartItem)
    requires item.product.salePrice == Some(0) && item.product.price != 0 && item.quantity != 0
    ensures Render(item).lineTotal == 0
    ensures CartRoute.Fold([item]).totalPrice == item.product.price * item.quantity != 0
  {
    assert [item][..0] == [];
  }
}
