/** The cart page's handlers. Each one returns what it does, in order: the
    actions it dispatches, the notices it shows and where it navigates. */
module CartPage {
  import opened Js
  import opened CartModel
  import CartSlice

  /** The toasts the handlers raise, by meaning rather than by text. */
  datatype Notice = StockLimit(stock: int) | ItemRemoved | CartEmpty

  datatype Effect =
    | Dispatch(action: CartAction)
    | Notify(notice: Notice)
    | Navigate(path: string)

  /** `product.stock` as the quantity buttons pass it: a bare-id product has
      no `stock`, and a comparison with `undefined` is false. */
  function StockOf(p: Product): Option<int> {
    if p.Snapshot? then Some(p.stock) else None
  }

  /** The quantities `handleQuantityChange` lets through. */
  predicate Accepted(newQuantity: int, stock: Option<int>) {
    1 <= newQuantity && (stock.None? || newQuantity <= stock.value)
  }

  /** `handleQuantityChange`: below 1 nothing happens, above the stock only a
      notice; otherwise exactly one update, to the server when logged in and
      to the guest cart otherwise. */
  method HandleQuantityChange(itemId: string, newQuantity: int, stock: Option<int>, isLoggedIn: bool)
    returns (effects: seq<Effect>)
    ensures |effects| <= 1
    ensures (|effects| == 1 && effects[0].Dispatch?) <==> Accepted(newQuantity, stock)
    ensures newQuantity < 1 ==> effects == []
    ensures 1 <= newQuantity && stock.Some? && newQuantity > stock.value ==> effects == [Notify(StockLimit(stock.value))]
    ensures forall e :: e in effects && e.Dispatch? ==>
              if isLoggedIn then e.action == UpdateCartItem(itemId, newQuantity)
              else e.action == UpdateCartItemLocal(itemId, newQuantity)
  {
    if newQuantity < 1 {
      return [];
    }
    if stock.Some? && newQuantity > stock.value {
      return [Notify(StockLimit(stock.value))];
    }
    if isLoggedIn {
      effects := [Dispatch(UpdateCartItem(itemId, newQuantity))];
    } else {
      effects := [Dispatch(UpdateCartItemLocal(itemId, newQuantity))];
    }
  }

  /** Every snapshot line holds between 1 and its product's stock. */
  predicate WithinStock(items: seq<LineItem>) {
    forall i :: 0 <= i < |items| && items[i].product.Snapshot? ==>
      1 <= items[i].quantity <= items[i].product.stock
  }

  /** A guest quantity change the handler accepts, made from a line's own
      buttons, keeps every line within its stock. */
  lemma GuestQuantityChangeWithinStock(items: seq<LineItem>, k: int, newQuantity: int)
    requires 0 <= k < |items| && WithinStock(items)
    requires CartSlice.LineIndex(items, items[k].id) == k
    requires Accepted(newQuantity, StockOf(items[k].product))
    ensures WithinStock(CartSlice.SetQuantity(items, items[k].id, newQuantity))
  {
    CartSlice.SetQuantitySpec(items, items[k].id, newQuantity);
  }

  /** The guest add does not look at the stock: two adds of the whole stock
      leave a line holding twice the stock. */
  lemma GuestAddIgnoresStock(p: Product, attrs: Attrs, id1: string, id2: string)
    requires p.Snapshot? && p.stock > 0
    ensures var once := CartSlice.AddLine([], p, p.stock, attrs, id1);
            var twice := CartSlice.AddLine(once, p, p.stock, attrs, id2);
            WithinStock(once) && !WithinStock(twice) && twice[0].quantity == 2 * p.stock
  {
    var once := CartSlice.AddLine([], p, p.stock, attrs, id1);
    CartSlice.AddLineAppends([], p, p.stock, attrs, id1);
    assert once == [LineItem(id1, p, p.stock, attrs)];
    CartSlice.AddLineCoalesces(once, p, p.stock, attrs, id2, 0);
  }

  /** `handleRemoveItem`: one removal, to the server when logged in and to
      the guest cart otherwise, then the notice. */
  method HandleRemoveItem(itemId: string, isLoggedIn: bool) returns (effects: seq<Effect>)
    ensures |effects| == 2 && effects[0].Dispatch? && effects[1] == Notify(ItemRemoved)
    ensures effects[0].action.RemoveCartItem? <==> isLoggedIn
    ensures effects[0].action.RemoveFromCartLocal? <==> !isLoggedIn
    ensures effects[0].action.itemId == itemId
  {
    if isLoggedIn {
      effects := [Dispatch(RemoveCartItem(itemId))];
    } else {
      effects := [Dispatch(RemoveFromCartLocal(itemId))];
    }
    effects := effects + [Notify(ItemRemoved)];
  }

  /** `handleGiftWrapToggle`: one update carrying the negation of the current
      flag, to the server when logged in and to the guest cart otherwise. */
  method HandleGiftWrapToggle(isGiftWrap: bool, isLoggedIn: bool) returns (effects: seq<Effect>)
    ensures |effects| == 1 && effects[0].Dispatch?
    ensures effects[0].action.UpdateGiftWrap? <==> isLoggedIn
    ensures effects[0].action.UpdateGiftWrapLocal? <==> !isLoggedIn
    ensures effects[0].action.isGiftWrap != isGiftWrap
  {
    if isLoggedIn {
      effects := [Dispatch(UpdateGiftWrap(!isGiftWrap))];
    } else {
      effects := [Dispatch(UpdateGiftWrapLocal(!isGiftWrap))];
    }
  }

  /** `handleCheckout`: an empty cart only gets a notice; any other cart goes
      to the checkout page. */
  method HandleCheckout(itemCount: nat) returns (effects: seq<Effect>)
    ensures |effects| == 1
    ensures effects[0].Navigate? <==> itemCount > 0
    ensures effects[0].Navigate? ==> effects[0].path == "/checkout"
    ensures !effects[0].Navigate? ==> effects[0] == Notify(CartEmpty)
  {
    if itemCount == 0 {
      return [Notify(CartEmpty)];
    }
    effects := [Navigate("/checkout")];
  }

  datatype View = Loading | EmptyCart | Summary

  /** Which of the page's three renderings appears. */
  function CartView(isLoading: bool, itemCount: nat): (v: View)
    ensures v == Summary <==> itemCount > 0
    ensures v == Loading <==> isLoading && itemCount == 0
  {
    if isLoading && itemCount == 0 then Loading
    else if itemCount == 0 then EmptyCart
    else Summary
  }
}
