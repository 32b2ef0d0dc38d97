/** The order summary the cart and checkout pages both compute: shipping is
    free strictly above 1500 TL and 135 TL otherwise, gift wrap adds 50 TL,
    and the total is the sum. Amounts are exact reals. */
module Pricing {

  const FreeShippingAbove: real := 1500.0
  const ShippingFee: real := 135.0
  const GiftWrapFee: real := 50.0

  /** `totalPrice > 1500 ? 0 : 135` */
  function ShippingCost(subtotal: real): (r: real)
    ensures r == 0.0 || r == ShippingFee
    ensures r == 0.0 <==> subtotal > FreeShippingAbove
  {
    if subtotal > FreeShippingAbove then 0.0 else ShippingFee
  }

  /** `isGiftWrap ? 50 : 0` */
  function GiftWrapCost(isGiftWrap: bool): (r: real)
    ensures r == 0.0 || r == GiftWrapFee
    ensures r != 0.0 <==> isGiftWrap
  {
    if isGiftWrap then GiftWrapFee else 0.0
  }

  /** `totalPrice + shippingCost + giftWrapCost` */
  function FinalTotal(subtotal: real, isGiftWrap: bool): (r: real)
    ensures subtotal <= r <= subtotal + ShippingFee + GiftWrapFee
  {
    subtotal + ShippingCost(subtotal) + GiftWrapCost(isGiftWrap)
  }

  /** A subtotal of exactly 1500 still pays shipping, although the page's
      notice promises free shipping from 1500 TL upwards. */
  lemma ShippingAtThreshold()
    ensures ShippingCost(1500.0) == 135.0
    ensures forall s: real :: s > 1500.0 ==> ShippingCost(s) == 0.0
  {
  }

  /** The rule the cart page's notice announces: free shipping from 1500 TL
      upwards, 135 TL below. */
  function ShippingCostIntended(subtotal: real): (r: real)
    ensures r == 0.0 || r == ShippingFee
    ensures r == 0.0 <==> subtotal >= FreeShippingAbove
  {
    if subtotal >= FreeShippingAbove then 0.0 else ShippingFee
  }

  /** The announced rule and the computed one disagree on exactly one
      subtotal, 1500 itself, where only the announced rule ships free. */
  lemma ShippingRulesDifferOnlyAtThreshold(subtotal: real)
    ensures ShippingCostIntended(subtotal) != ShippingCost(subtotal) <==> subtotal == FreeShippingAbove
    ensures subtotal == FreeShippingAbove ==> ShippingCostIntended(subtotal) == 0.0 && ShippingCost(subtotal) == ShippingFee
  {
  }

  /** Gift wrap raises the total by exactly 50 and nothing else. */
  lemma GiftWrapAddsFee(subtotal: real)
    ensures FinalTotal(subtotal, true) == FinalTotal(subtotal, false) + GiftWrapFee
  {
  }

  /** On either side of the threshold the total grows with the subtotal. */
  lemma TotalMonotoneOnEachSide(s1: real, s2: real, isGiftWrap: bool)
    requires s1 <= s2
    requires (s1 > FreeShippingAbove) == (s2 > FreeShippingAbove)
    ensures FinalTotal(s1, isGiftWrap) <= FinalTotal(s2, isGiftWrap)
  {
  }

  /** Across the threshold it does not: a cart just above 1500 costs less in
      total than one at exactly 1500. */
  lemma TotalDropsAcrossThreshold(isGiftWrap: bool)
    ensures FinalTotal(1500.5, isGiftWrap) < FinalTotal(1500.0, isGiftWrap)
  {
  }
}
