/**
 * The order summary beside the cart
 * (joanie-store/src/components/cart/CartSummary.tsx): a flat shipping fee
 * below a free-shipping threshold, the order total, and a hint saying how much
 * more to spend. Amounts are integer cents.
 */
module CartSummary {
  import opened Store

  /** Shipping is free from 100 dollars of subtotal. */
  const FreeShippingThreshold: int := 10000

  /** Below the threshold shipping costs 9.99 dollars. */
  const ShippingFee: int := 999

  /** What the summary shows: shipping, total, the "Free" label, and the hint's amount if the hint is shown. */
  datatype Summary = Summary(shipping: int, total: int, showsFree: bool, hint: Option<int>)

  function Summarize(subtotal: int): (s: Summary)
    ensures s.shipping == 0 <==> subtotal >= FreeShippingThreshold
    ensures s.shipping == 0 || s.shipping == ShippingFee
    ensures s.total == subtotal + s.shipping
    ensures subtotal <= s.total <= subtotal + ShippingFee
    ensures s.showsFree <==> s.shipping == 0
    ensures s.hint.Some? <==> 0 < subtotal < FreeShippingThreshold
    ensures s.hint.Some? ==> 0 < s.hint.value < FreeShippingThreshold
  {
    var shipping := if subtotal >= FreeShippingThreshold then 0 else ShippingFee;
    Summary(
      shipping,
      subtotal + shipping,
      shipping == 0,
      if subtotal < FreeShippingThreshold && subtotal > 0 then Some(FreeShippingThreshold - subtotal) else None)
  }

  /**
   * The hint names the least top-up that earns free shipping: adding exactly
   * that amount makes shipping free, and every subtotal short of it is charged.
   */
  lemma HintIsLeastTopUp(subtotal: int)
    requires Summarize(subtotal).hint.Some?
    ensures var h := Summarize(subtotal).hint.value;
            && Summarize(subtotal + h).shipping == 0
            && forall t :: subtotal <= t < subtotal + h ==> Summarize(t).shipping == ShippingFee
  {
    var h := Summarize(subtotal).hint.value;
    forall t | subtotal <= t < subtotal + h ensures Summarize(t).shipping == ShippingFee {
      assert t < FreeShippingThreshold;
    }
  }

  /** The hint is only ever shown while shipping is charged. */
  lemma HintOnlyWhileCharged(subtotal: int)
    ensures Summarize(subtotal).hint.Some? ==> !Summarize(subtotal).showsFree
  {
  }

  /** An empty subtotal is still charged shipping, and gets no hint. */
  lemma EmptySubtotalIsCharged()
    ensures Summarize(0) == Summary(ShippingFee, ShippingFee, false, None)
  {
  }
}
