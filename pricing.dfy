/**
 * The three "display price" rules of the storefront, the rounded discount
 * that the product card and the wishlist item show, and how the rules relate.
 * Prices are integer cents.
 */
module Pricing {
  import opened Store

  /** `product.salePrice || product.price`: a missing or zero sale price falls back to the list price. */
  function ServerUnitPrice(p: Product): (r: int)
    ensures r == p.price || Some(r) == p.salePrice
    ensures r == 0 ==> p.price == 0
  {
    if TruthyNumber(p.salePrice) then p.salePrice.value else p.price
  }

  /** `product.salePrice ?? product.price`: only a missing sale price falls back; zero is kept. */
  function NullishPrice(p: Product): (r: int)
    ensures r == p.price || Some(r) == p.salePrice
    ensures p.salePrice == Some(0) ==> r == 0
  {
    if p.salePrice.Some? then p.salePrice.value else p.price
  }

  /** `product.isOnSale && product.salePrice ? product.salePrice : product.price` */
  function CardPrice(p: Product): (r: int)
    ensures r == p.price || Some(r) == p.salePrice
    ensures !p.isOnSale ==> r == p.price
    ensures r == 0 ==> p.price == 0
  {
    if p.isOnSale && TruthyNumber(p.salePrice) then p.salePrice.value else p.price
  }

  /**
   * `Math.round(((price - sale) / price) * 100)` for a non-zero list price.
   * `Math.round(x)` is the integer r with r - 1/2 <= x < r + 1/2; multiplying
   * through by 2 * price gives the postcondition (the inequalities turn round
   * when the price is negative). The cents scale cancels in the ratio.
   */
  function PercentOff(price: int, sale: int): (r: int)
    requires price != 0
    ensures price > 0 ==> 2 * price * r <= 200 * (price - sale) + price < 2 * price * r + 2 * price
    ensures price < 0 ==> 2 * price * r >= 200 * (price - sale) + price > 2 * price * r + 2 * price
  {
    var n := 200 * (price - sale) + price;
    if price > 0 then n / (2 * price) else (-n) / (-2 * price)
  }

  /** The JavaScript numbers the discount formula can produce. */
  datatype Percent = Rounded(value: int) | PlusInfinity | MinusInfinity | NotANumber

  /**
   * The discount formula as a JavaScript number: a zero list price divides by
   * zero, giving an infinity of the opposite sign to the sale price, or NaN
   * when the sale price is zero too.
   */
  function Discount(price: int, sale: int): (d: Percent)
    ensures d.Rounded? <==> price != 0
    ensures d.NotANumber? <==> price == 0 && sale == 0
    ensures d.MinusInfinity? <==> price == 0 && sale > 0
    ensures d.PlusInfinity? <==> price == 0 && sale < 0
  {
    if price != 0 then Rounded(PercentOff(price, sale))
    else if sale > 0 then MinusInfinity
    else if sale < 0 then PlusInfinity
    else NotANumber
  }

  /** `discountPercent > 0` */
  predicate Positive(d: Percent) {
    d.PlusInfinity? || (d.Rounded? && d.value > 0)
  }

  /**
   * A sale price above zero and at most the list price gives a discount
   * between 0 and 100 percent, and no markdown at all shows 0 percent.
   */
  lemma PercentOffBounds(price: int, sale: int)
    requires 0 < sale <= price
    ensures 0 <= PercentOff(price, sale) <= 100
    ensures sale == price ==> PercentOff(price, sale) == 0
  {
    var r, k := PercentOff(price, sale), 2 * price;
    assert k * r <= 200 * (price - sale) + price < k * r + k;
    ScaledLess(k, r, 101);
    ScaledLess(k, -1, r);
    if sale == price {
      ScaledLess(k, r, 1);
    }
  }

  /** Dividing both sides of `k * a < k * b` by a positive `k`. */
  lemma ScaledLess(k: int, a: int, b: int)
    requires k > 0
    ensures k * a < k * b <==> a < b
  {
    if a < b {
      ProductGrows(k, b - a - 1);
      assert k * b - k * a == k * (b - a - 1) + k;
    } else {
      ProductGrows(k, a - b);
      assert k * a - k * b == k * (a - b);
    }
  }

  /** A product of naturals is a natural. */
  lemma {:induction false} ProductGrows(k: nat, d: nat)
    ensures k * d >= 0
    decreases d
  {
    if d > 0 {
      ProductGrows(k, d - 1);
      assert k * d == k * (d - 1) + k;
    }
  }

  /** The seeded sale product: 1160 dollars marked down to 960 shows "-17%". */
  lemma SeedSaleDiscount()
    ensures PercentOff(116000, 96000) == 17
  {
  }

  /**
   * The server's `||` rule and the cart item's `??` rule differ exactly when the
   * sale price is zero (and the list price is not): with a missing or non-zero
   * sale price they agree.
   */
  lemma ServerAndNullishAgree(p: Product)
    ensures ServerUnitPrice(p) != NullishPrice(p) <==> p.salePrice == Some(0) && p.price != 0
  {
  }

  /**
   * The card's rule is the server's rule gated by `isOnSale`: a product that has
   * a sale price but is not on sale shows the list price on the card and the sale
   * price in the cart.
   */
  lemma CardIsGatedServerRule(p: Product)
    ensures CardPrice(p) == if p.isOnSale then ServerUnitPrice(p) else p.price
    ensures (!p.isOnSale && TruthyNumber(p.salePrice) && p.salePrice.value != p.price)
      ==> CardPrice(p) != NullishPrice(p) && CardPrice(p) != ServerUnitPrice(p)
  {
  }
}
