/**
 * One tile of the wishlist page
 * (joanie-store/src/components/wishlist/WishlistItem.tsx): its price and
 * discount rules, which differ from the product card's, and its "Add to Cart"
 * button, whose flags change around an awaited callback.
 */
module WishlistItemView {
  import opened Store
  import opened Pricing
  import ProductCard

  /** What the tile shows; `removeArgument` is what the heart passes to `onRemove`. */
  datatype Tile = Tile(
    displayPrice: int,
    discountPercent: Percent,
    showsBadge: bool,
    showsStrikethrough: bool,
    removeArgument: ProductId)

  function Render(item: WishlistItem): (t: Tile)
    ensures t.displayPrice == NullishPrice(item.product)
    ensures TruthyNumber(item.product.salePrice) ==> t.discountPercent == Discount(item.product.price, item.product.salePrice.value)
    ensures !TruthyNumber(item.product.salePrice) ==> t.discountPercent == Rounded(0)
    ensures t.showsBadge <==> item.product.isOnSale && Positive(t.discountPercent)
    ensures t.showsStrikethrough <==> item.product.isOnSale && TruthyNumber(item.product.salePrice)
    ensures t.removeArgument == item.product.id
  {
    var p := item.product;
    var discount := if TruthyNumber(p.salePrice) then Discount(p.price, p.salePrice.value) else Rounded(0);
    Tile(NullishPrice(p), discount, p.isOnSale && Positive(discount), p.isOnSale && TruthyNumber(p.salePrice), p.id)
  }

  /**
   * A product that carries a sale price but is not on sale: the tile shows the
   * sale price (and computes a discount it never displays), the card shows the
   * list price and a discount of 0.
   */
  lemma TileAndCardDisagreeOffSale(item: WishlistItem)
    requires !item.product.isOnSale && TruthyNumber(item.product.salePrice) && item.product.salePrice.value != item.product.price
    ensures Render(item).displayPrice == item.product.salePrice.value
    ensures ProductCard.Render(item.product, None).displayPrice == item.product.price
    ensures !Render(item).showsBadge && !ProductCard.Render(item.product, None).showsBadge
  {
  }

  /**
   * A product on sale at its full list price: the card shows a "-0%" badge,
   * the tile hides its badge because the discount is not positive.
   */
  lemma NoBadgeForZeroDiscount(item: WishlistItem)
    requires item.product.isOnSale && item.product.salePrice == Some(item.product.price) && item.product.price > 0
    ensures !Render(item).showsBadge
    ensures ProductCard.Render(item.product, None).showsBadge
    ensures ProductCard.Render(item.product, None).discountPercent == Rounded(0)
  {
    PercentOffBounds(item.product.price, item.product.price);
  }

  /** The tile's badge always shows the card's number whenever both show a badge. */
  lemma BadgesAgreeWhenBothShown(item: WishlistItem, isWishlisted: Option<bool>)
    requires Render(item).showsBadge
    ensures ProductCard.Render(item.product, isWishlisted).showsBadge
    ensures ProductCard.Render(item.product, isWishlisted).discountPercent == Render(item).discountPercent
  {
  }

  /** The label of the add button. */
  datatype Label = AddToCart | Adding | Added

  /** The add-to-cart button's two flags. */
  class AddButton {
    var isAddingToCart: bool
    var addedToCart: bool

    constructor ()
      ensures !isAddingToCart && !addedToCart
    {
      isAddingToCart, addedToCart := false, false;
    }

    /** "Added" wins over "Adding", which wins over the resting label. */
    function Label(): (l: Label)
      reads this
      ensures l == Added <==> addedToCart
      ensures l == Adding <==> isAddingToCart && !addedToCart
    {
      if addedToCart then Added else if isAddingToCart then Adding else AddToCart
    }

    /**
     * `handleAddToCart`: raise `isAddingToCart`, await `onAddToCart` with the
     * product id, then lower it and raise `addedToCart`, whatever the add
     * reported. `resolves` says whether the awaited callback settles normally;
     * if it rejects, the rest of the handler never runs and the button stays
     * disabled. A disabled button takes no click.
     */
    method Press(item: WishlistItem, resolves: bool) returns (calls: seq<ProductId>)
      modifies this
      ensures old(isAddingToCart) ==>
                calls == [] && isAddingToCart == old(isAddingToCart) && addedToCart == old(addedToCart)
      ensures !old(isAddingToCart) ==> calls == [item.product.id]
      ensures !old(isAddingToCart) && resolves ==> !isAddingToCart && addedToCart && Label() == Added
      ensures !old(isAddingToCart) && !resolves ==> isAddingToCart && addedToCart == old(addedToCart)
    {
      if isAddingToCart {
        return [];
      }
      isAddingToCart := true;
      calls := [item.product.id];
      if resolves {
        isAddingToCart := false;
        addedToCart := true;
      }
    }

    /** The two-second timer that clears "Added". */
    method TimerFires()
      modifies this
      ensures !addedToCart && isAddingToCart == old(isAddingToCart)
    {
      addedToCart := false;
    }
  }
}
