/**
 * The product tile of the home page grid
 * (joanie-store/src/components/home/ProductCard.tsx): the price it shows, the
 * discount on its sale badge, when the badge and the struck-through list
 * price appear, and what its heart and buttons do.
 */
module ProductCard {
  import opened Store
  import opened Pricing

  /** On sale and carrying a truthy sale price: the card's condition for the sale price and the discount. */
  predicate MarkedDown(p: Product) {
    p.isOnSale && TruthyNumber(p.salePrice)
  }

  /**
   * What the card shows. `discountPercent` is the number on the badge;
   * `clickArgument` is what both the heart and "Add To Cart" pass to their
   * callbacks.
   */
  datatype Card = Card(
    displayPrice: int,
    discountPercent: Percent,
    showsBadge: bool,
    showsStrikethrough: bool,
    heartFilled: bool,
    clickArgument: ProductId)

  /** `isWishlisted` is an optional prop that defaults to false. */
  function Render(p: Product, isWishlisted: Option<bool>): (c: Card)
    ensures c.displayPrice == CardPrice(p)
    ensures MarkedDown(p) ==> c.discountPercent == Discount(p.price, p.salePrice.value)
    ensures !MarkedDown(p) ==> c.discountPercent == Rounded(0)
    ensures c.showsBadge <==> p.isOnSale
    ensures c.showsStrikethrough <==> MarkedDown(p)
    ensures c.heartFilled <==> isWishlisted == Some(true)
    ensures c.clickArgument == p.id
  {
    var discount := if MarkedDown(p) then Discount(p.price, p.salePrice.value) else Rounded(0);
    Card(CardPrice(p), discount, p.isOnSale, MarkedDown(p), isWishlisted == Some(true), p.id)
  }

  /** A sale price above zero and at most the list price puts a whole percentage between 0 and 100 on the badge. */
  lemma DiscountWithinBounds(p: Product, isWishlisted: Option<bool>)
    requires MarkedDown(p) && 0 < p.salePrice.value <= p.price
    ensures Render(p, isWishlisted).discountPercent.Rounded?
    ensures 0 <= Render(p, isWishlisted).discountPercent.value <= 100
  {
    PercentOffBounds(p.price, p.salePrice.value);
  }

  /** A product on sale with no sale price still gets the badge, reading "-0%", and shows its list price. */
  lemma BadgeWithoutSalePrice(p: Product, isWishlisted: Option<bool>)
    requires p.isOnSale && p.salePrice == None
    ensures var c := Render(p, isWishlisted);
            c.showsBadge && c.discountPercent == Rounded(0) && c.displayPrice == p.price && !c.showsStrikethrough
  {
  }

  /** The seeded sale product: 1160 dollars on sale for 960 shows 960, "-17%" and the struck-through 1160. */
  lemma SeedSaleCard(p: Product)
    requires p.price == 116000 && p.salePrice == Some(96000) && p.isOnSale
    ensures var c := Render(p, None);
            && c.displayPrice == 96000
            && c.discountPercent == Rounded(17)
            && c.showsBadge && c.showsStrikethrough && !c.heartFilled
  {
    SeedSaleDiscount();
  }
}
