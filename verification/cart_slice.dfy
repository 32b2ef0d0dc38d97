/** The cart slice: the guest cart's local reducers, which write every change
    through to local storage, the loaders that read it back at start-up, and
    the cases that take the server's cart after a request settles. */
module CartSlice {
  import opened Js
  import opened CartModel
  import Lists
  import CartSelectors

  /** `getLocalCart`: the stored list, or `[]` when the key is missing, empty
      or does not parse. */
  function LoadCart(s: Storage): seq<LineItem> {
    match s.cart
    case Some(Valid(items)) => items
    case _ => []
  }

  /** `getLocalGiftWrap`: the stored flag, or `false` when the key is missing,
      empty or does not parse. */
  function LoadGiftWrap(s: Storage): bool {
    match s.giftWrap
    case Some(Valid(b)) => b
    case _ => false
  }

  /** Loading never fails: whatever does not hold a stored value reads as an
      empty cart without gift wrap. */
  lemma LoadFallsBack(s: Storage)
    ensures !(s.cart.Some? && s.cart.value.Valid?) ==> LoadCart(s) == []
    ensures !(s.giftWrap.Some? && s.giftWrap.value.Valid?) ==> !LoadGiftWrap(s)
    ensures LoadCart(EmptyStorage) == [] && !LoadGiftWrap(EmptyStorage)
  {
  }

  /** The position of the line an add coalesces into, or -1. */
  function MatchIndex(items: seq<LineItem>, product: Product, attrs: Attrs): int {
    Lists.FindIndex(items, (l: LineItem) => Matches(l, product, attrs))
  }

  /** The `findIndex` of `addToCartLocal` as written. */
  function MatchIndexAsWritten(items: seq<LineItem>, product: Product, attrs: Attrs): int {
    Lists.FindIndex(items, (l: LineItem) => SameProductAsWritten(l.product, product) && l.attrs == attrs)
  }

  /** For the full product object the reducer is meant to receive, the
      written search finds the same line as the corrected one. */
  lemma MatchIndexAgreesOnSnapshots(items: seq<LineItem>, product: Product, attrs: Attrs)
    requires product.Snapshot?
    ensures MatchIndexAsWritten(items, product, attrs) == MatchIndex(items, product, attrs)
  {
    forall i | 0 <= i < |items|
      ensures SameProductAsWritten(items[i].product, product) == SameProduct(items[i].product, product)
    {
      AsWrittenAgreesOnSnapshots(items[i].product, product);
    }
    Lists.FindIndexAgrees(items,
      (l: LineItem) => SameProductAsWritten(l.product, product) && l.attrs == attrs,
      (l: LineItem) => Matches(l, product, attrs));
  }

  /** The position of the first line with the given `_id`, or -1. */
  function LineIndex(items: seq<LineItem>, itemId: string): int {
    Lists.FindIndex(items, (l: LineItem) => l.id == itemId)
  }

  /** The items after `addToCartLocal`. */
  function AddLine(items: seq<LineItem>, product: Product, quantity: int, attrs: Attrs, freshId: string): seq<LineItem> {
    var k := MatchIndex(items, product, attrs);
    if k >= 0 then items[k := items[k].(quantity := items[k].quantity + quantity)]
    else items + [LineItem(freshId, product, quantity, attrs)]
  }

  /** The items after `removeFromCartLocal`. */
  function RemoveLines(items: seq<LineItem>, itemId: string): seq<LineItem> {
    Lists.Filter(items, (l: LineItem) => l.id != itemId)
  }

  /** The items after `updateCartItemLocal`. */
  function SetQuantity(items: seq<LineItem>, itemId: string, quantity: int): seq<LineItem> {
    var k := LineIndex(items, itemId);
    if k >= 0 then items[k := items[k].(quantity := quantity)] else items
  }

  /** Adding a product already in the cart with the same attribute selection
      adds the quantity to the first such line; every other line, and the
      length, stay as they were. */
  lemma AddLineCoalesces(items: seq<LineItem>, product: Product, quantity: int, attrs: Attrs, freshId: string, k: int)
    requires 0 <= k < |items| && Matches(items[k], product, attrs)
    requires forall i :: 0 <= i < k ==> !Matches(items[i], product, attrs)
    ensures var r := AddLine(items, product, quantity, attrs, freshId);
            && |r| == |items|
            && r[k] == items[k].(quantity := items[k].quantity + quantity)
            && forall i :: 0 <= i < |items| && i != k ==> r[i] == items[i]
  {
  }

  /** Adding a product with no matching line appends exactly one new line
      carrying the fresh id, the product, the quantity and the attributes. */
  lemma AddLineAppends(items: seq<LineItem>, product: Product, quantity: int, attrs: Attrs, freshId: string)
    requires forall i :: 0 <= i < |items| ==> !Matches(items[i], product, attrs)
    ensures AddLine(items, product, quantity, attrs, freshId) == items + [LineItem(freshId, product, quantity, attrs)]
  {
  }

  /** With the corrected product test an add only ever coalesces into a line
      for the same product id, so a bare id never lands on another bare id's
      line. */
  lemma AddLineKeepsDistinctProducts(items: seq<LineItem>, product: Product, quantity: int, attrs: Attrs, freshId: string)
    ensures var k := MatchIndex(items, product, attrs);
            k >= 0 ==> ProductKey(items[k].product) == ProductKey(product)
    ensures (forall i :: 0 <= i < |items| ==> ProductKey(items[i].product) != ProductKey(product))
            ==> AddLine(items, product, quantity, attrs, freshId) == items + [LineItem(freshId, product, quantity, attrs)]
  {
  }

  /** Either way, the cart's unit count grows by exactly the added quantity. */
  lemma AddLineCount(items: seq<LineItem>, product: Product, quantity: int, attrs: Attrs, freshId: string)
    ensures CartSelectors.TotalCount(AddLine(items, product, quantity, attrs, freshId))
         == CartSelectors.TotalCount(items) + quantity
  {
    var k := MatchIndex(items, product, attrs);
    if k >= 0 {
      CartSelectors.TotalCountUpdate(items, k, items[k].quantity + quantity);
    } else {
      CartSelectors.TotalCountAppend(items, LineItem(freshId, product, quantity, attrs));
    }
  }

  /** The total of the quantities of a run of adds. */
  function Sum(adds: seq<(int, string)>): int {
    if |adds| == 0 then 0 else adds[0].0 + Sum(adds[1..])
  }

  /** A run of `addToCartLocal` calls for one product and attribute selection,
      each given as its quantity and the fresh id it would mint. */
  function AddAll(items: seq<LineItem>, product: Product, attrs: Attrs, adds: seq<(int, string)>): seq<LineItem>
    decreases |adds|
  {
    if |adds| == 0 then items
    else AddAll(AddLine(items, product, adds[0].0, attrs, adds[0].1), product, attrs, adds[1..])
  }

  /** Repeated adds of one product and selection to a cart that does not hold
      it yet end with exactly one new line, last, whose quantity is the sum of
      the added quantities and whose id is the first fresh id. */
  lemma AddAllCoalesces(items: seq<LineItem>, product: Product, attrs: Attrs, adds: seq<(int, string)>)
    requires |adds| >= 1
    requires forall i :: 0 <= i < |items| ==> !Matches(items[i], product, attrs)
    ensures AddAll(items, product, attrs, adds) == items + [LineItem(adds[0].1, product, Sum(adds), attrs)]
  {
    var line := LineItem(adds[0].1, product, adds[0].0, attrs);
    AddAllFirst(items, product, attrs, adds);
    AddLineAppends(items, product, adds[0].0, attrs, adds[0].1);
    LastLineMatches(items, line, product, attrs);
    AddAllOntoLast(items, line, product, attrs, adds[1..]);
    assert line.(quantity := line.quantity + Sum(adds[1..])) == LineItem(adds[0].1, product, Sum(adds), attrs);
  }

  /** Adds onto a cart whose first matching line is its last one grow that
      line by their total. */
  lemma AddAllOntoLast(prefix: seq<LineItem>, line: LineItem, product: Product, attrs: Attrs, adds: seq<(int, string)>)
    requires MatchIndex(prefix + [line], product, attrs) == |prefix|
    ensures AddAll(prefix + [line], product, attrs, adds) == prefix + [line.(quantity := line.quantity + Sum(adds))]
  {
    var items := prefix + [line];
    AddAllAccumulates(items, product, attrs, adds, |prefix|);
    assert items[|prefix|] == line;
    UpdateLast(prefix, line, line.(quantity := line.quantity + Sum(adds)));
  }

  /** Repeated adds to a cart that already holds a matching line, the first
      at `k`, leave every other line alone and add the quantities up on
      that one. */
  lemma {:induction false} AddAllAccumulates(items: seq<LineItem>, product: Product, attrs: Attrs, adds: seq<(int, string)>, k: int)
    requires 0 <= k < |items| && MatchIndex(items, product, attrs) == k
    decreases |adds|
    ensures AddAll(items, product, attrs, adds) == items[k := items[k].(quantity := items[k].quantity + Sum(adds))]
  {
    if |adds| == 0 {
      assert items[k := items[k].(quantity := items[k].quantity + 0)] == items;
    } else {
      var next := AddLine(items, product, adds[0].0, attrs, adds[0].1);
      GrowKeepsMatchIndex(items, product, adds[0].0, attrs, adds[0].1);
      AddAllAccumulates(next, product, attrs, adds[1..], k);
      assert next[k := next[k].(quantity := next[k].quantity + Sum(adds[1..]))]
          == items[k := items[k].(quantity := items[k].quantity + Sum(adds))];
    }
  }

  /** A run of adds starts with its first add. */
  lemma AddAllFirst(items: seq<LineItem>, product: Product, attrs: Attrs, adds: seq<(int, string)>)
    requires |adds| >= 1
    ensures AddAll(items, product, attrs, adds)
         == AddAll(AddLine(items, product, adds[0].0, attrs, adds[0].1), product, attrs, adds[1..])
  {
  }

  /** Overwriting the last element of `s + [x]` with `y` gives `s + [y]`. */
  lemma UpdateLast<T>(s: seq<T>, x: T, y: T)
    ensures (s + [x])[|s| := y] == s + [y]
  {
    assert forall i :: 0 <= i < |s| ==> (s + [x])[|s| := y][i] == s[i];
  }

  /** Growing the matching line keeps it the first matching line. */
  lemma GrowKeepsMatchIndex(items: seq<LineItem>, product: Product, quantity: int, attrs: Attrs, freshId: string)
    requires MatchIndex(items, product, attrs) >= 0
    ensures var k := MatchIndex(items, product, attrs);
            var next := AddLine(items, product, quantity, attrs, freshId);
            && next == items[k := items[k].(quantity := items[k].quantity + quantity)]
            && MatchIndex(next, product, attrs) == k
  {
    var k := MatchIndex(items, product, attrs);
    var next := AddLine(items, product, quantity, attrs, freshId);
    assert Matches(next[k], product, attrs);
    forall i | 0 <= i < k ensures !Matches(next[i], product, attrs) {
      assert next[i] == items[i];
    }
  }

  /** A line appended after lines that do not match is the first match. */
  lemma LastLineMatches(prefix: seq<LineItem>, line: LineItem, product: Product, attrs: Attrs)
    requires forall i :: 0 <= i < |prefix| ==> !Matches(prefix[i], product, attrs)
    requires Matches(line, product, attrs)
    ensures MatchIndex(prefix + [line], product, attrs) == |prefix|
  {
    var items := prefix + [line];
    assert items[|prefix|] == line;
    forall i | 0 <= i < |prefix| ensures !Matches(items[i], product, attrs) {
      assert items[i] == prefix[i];
    }
  }

  /** Removing by id drops every line with that id, keeps the others in order,
      and is a no-op for an id that is not in the cart. */
  lemma RemoveLinesSpec(items: seq<LineItem>, itemId: string, more: seq<LineItem>)
    ensures forall i :: 0 <= i < |RemoveLines(items, itemId)| ==> RemoveLines(items, itemId)[i].id != itemId
    ensures forall i :: 0 <= i < |items| && items[i].id != itemId ==> items[i] in RemoveLines(items, itemId)
    ensures RemoveLines(items + more, itemId) == RemoveLines(items, itemId) + RemoveLines(more, itemId)
    ensures (forall i :: 0 <= i < |items| ==> items[i].id != itemId) ==> RemoveLines(items, itemId) == items
  {
    Lists.FilterConcat(items, more, (l: LineItem) => l.id != itemId);
    if forall i :: 0 <= i < |items| ==> items[i].id != itemId {
      Lists.FilterKeepsAll(items, (l: LineItem) => l.id != itemId);
    }
  }

  /** Setting a quantity overwrites the first line with that id and nothing
      else; an unknown id changes nothing. */
  lemma SetQuantitySpec(items: seq<LineItem>, itemId: string, quantity: int)
    ensures var r := SetQuantity(items, itemId, quantity);
            var k := LineIndex(items, itemId);
            && |r| == |items|
            && (k == -1 <==> forall i :: 0 <= i < |items| ==> items[i].id != itemId)
            && (k == -1 ==> r == items)
            && (k >= 0 ==> items[k].id == itemId && r[k] == items[k].(quantity := quantity))
            && forall i :: 0 <= i < |items| && i != k ==> r[i] == items[i]
  {
  }

  /** Of two quantity updates of the same line the last one wins: nothing
      accumulates. */
  lemma SetQuantityLastWins(items: seq<LineItem>, itemId: string, q1: int, q2: int)
    ensures SetQuantity(SetQuantity(items, itemId, q1), itemId, q2) == SetQuantity(items, itemId, q2)
  {
    var k := LineIndex(items, itemId);
    if k >= 0 {
      var u := SetQuantity(items, itemId, q1);
      assert LineIndex(u, itemId) == k by {
        assert u[k].id == itemId;
        forall i | 0 <= i < k ensures u[i].id != itemId {
          assert u[i] == items[i];
        }
      }
    }
  }

  /** The slice's state. `storage` is the browser's local storage, injected. */
  class CartStore {
    var items: seq<LineItem>
    var isGiftWrap: bool
    var isLoading: bool
    var error: Val
    var storage: Storage

    /** Reloading from storage would give back the current cart. */
    ghost predicate Persisted()
      reads this
    {
      LoadCart(storage) == items && LoadGiftWrap(storage) == isGiftWrap
    }

    /** The initial state: both values read from storage, not loading, no error. */
    constructor (stored: Storage)
      ensures items == LoadCart(stored) && isGiftWrap == LoadGiftWrap(stored)
      ensures !isLoading && error == Null && storage == stored
      ensures Persisted()
    {
      items := LoadCart(stored);
      isGiftWrap := LoadGiftWrap(stored);
      isLoading := false;
      error := Null;
      storage := stored;
    }

    /** `addToCartLocal`, with the `Date.now()` id supplied as `freshId`. The
        payload must be the full product object; the search is the written
        one, which for such a payload agrees with the corrected one. */
    method AddToCartLocal(product: Product, quantity: int, attrs: Attrs, freshId: string)
      requires product.Snapshot?
      modifies this
      ensures items == AddLine(old(items), product, quantity, attrs, freshId)
      ensures storage == old(storage).(cart := Some(Valid(items)))
      ensures LoadCart(storage) == items
      ensures isGiftWrap == old(isGiftWrap) && isLoading == old(isLoading) && error == old(error)
      ensures old(Persisted()) ==> Persisted()
    {
      var k := MatchIndexAsWritten(items, product, attrs);
      MatchIndexAgreesOnSnapshots(items, product, attrs);
      if k >= 0 {
        items := items[k := items[k].(quantity := items[k].quantity + quantity)];
      } else {
        items := items + [LineItem(freshId, product, quantity, attrs)];
      }
      storage := storage.(cart := Some(Valid(items)));
    }

    /** `removeFromCartLocal` */
    method RemoveFromCartLocal(itemId: string)
      modifies this
      ensures items == RemoveLines(old(items), itemId)
      ensures storage == old(storage).(cart := Some(Valid(items)))
      ensures LoadCart(storage) == items
      ensures isGiftWrap == old(isGiftWrap) && isLoading == old(isLoading) && error == old(error)
      ensures old(Persisted()) ==> Persisted()
    {
      items := RemoveLines(items, itemId);
      storage := storage.(cart := Some(Valid(items)));
    }

    /** `updateCartItemLocal`: only a found line is changed and only then is
        the cart written back. */
    method UpdateCartItemLocal(itemId: string, quantity: int)
      modifies this
      ensures items == SetQuantity(old(items), itemId, quantity)
      ensures storage == if LineIndex(old(items), itemId) >= 0
                         then old(storage).(cart := Some(Valid(items)))
                         else old(storage)
      ensures isGiftWrap == old(isGiftWrap) && isLoading == old(isLoading) && error == old(error)
      ensures old(Persisted()) ==> Persisted()
    {
      var k := LineIndex(items, itemId);
      if k >= 0 {
        items := items[k := items[k].(quantity := quantity)];
        storage := storage.(cart := Some(Valid(items)));
      }
    }

    /** `updateGiftWrapLocal` */
    method UpdateGiftWrapLocal(flag: bool)
      modifies this
      ensures isGiftWrap == flag
      ensures storage == old(storage).(giftWrap := Some(Valid(flag)))
      ensures LoadGiftWrap(storage) == flag
      ensures items == old(items) && isLoading == old(isLoading) && error == old(error)
      ensures old(Persisted()) ==> Persisted()
    {
      isGiftWrap := flag;
      storage := storage.(giftWrap := Some(Valid(flag)));
    }

    /** `clearCartLocal`: both keys are removed, not overwritten with empty
        values. */
    method ClearCartLocal()
      modifies this
      ensures items == [] && !isGiftWrap
      ensures storage == EmptyStorage
      ensures isLoading == old(isLoading) && error == old(error)
      ensures Persisted()
    {
      items := [];
      isGiftWrap := false;
      storage := EmptyStorage;
    }

    /** `setCartLocal` */
    method SetCartLocal(payload: seq<LineItem>)
      modifies this
      ensures items == payload
      ensures storage == old(storage).(cart := Some(Valid(payload)))
      ensures isGiftWrap == old(isGiftWrap) && isLoading == old(isLoading) && error == old(error)
      ensures old(Persisted()) ==> Persisted()
    {
      items := payload;
      storage := storage.(cart := Some(Valid(items)));
    }

    /** `fetchCart.pending` and `mergeLocalCart.pending` */
    method SyncPending()
      modifies this
      ensures isLoading && error == Null
      ensures items == old(items) && isGiftWrap == old(isGiftWrap) && storage == old(storage)
    {
      isLoading := true;
      error := Null;
    }

    /** `fetchCart.fulfilled` and `mergeLocalCart.fulfilled`: the server's
        cart replaces items and flag wholesale; storage is not written. */
    method SyncFulfilled(payload: ServerCart)
      modifies this
      ensures !isLoading && items == payload.items && isGiftWrap == payload.isGiftWrap
      ensures error == old(error) && storage == old(storage)
    {
      isLoading := false;
      items := payload.items;
      isGiftWrap := payload.isGiftWrap;
    }

    /** `fetchCart.rejected` and `mergeLocalCart.rejected` */
    method SyncRejected(payload: Val)
      modifies this
      ensures !isLoading && error == payload
      ensures items == old(items) && isGiftWrap == old(isGiftWrap) && storage == old(storage)
    {
      isLoading := false;
      error := payload;
    }

    /** `updateGiftWrap.fulfilled` */
    method GiftWrapFulfilled(payload: ServerCart)
      modifies this
      ensures items == payload.items && isGiftWrap == payload.isGiftWrap
      ensures isLoading == old(isLoading) && error == old(error) && storage == old(storage)
    {
      items := payload.items;
      isGiftWrap := payload.isGiftWrap;
    }

    /** `addToCart.fulfilled`, `updateCartItem.fulfilled` and
        `removeCartItem.fulfilled`: only the items are taken from the server. */
    method ItemsFulfilled(payload: ServerCart)
      modifies this
      ensures items == payload.items
      ensures isGiftWrap == old(isGiftWrap) && isLoading == old(isLoading)
      ensures error == old(error) && storage == old(storage)
    {
      items := payload.items;
    }

    /** `clearCart.fulfilled`: the items go, the gift-wrap flag stays. */
    method ClearCartFulfilled()
      modifies this
      ensures items == []
      ensures isGiftWrap == old(isGiftWrap) && isLoading == old(isLoading)
      ensures error == old(error) && storage == old(storage)
    {
      items := [];
    }
  }
}
