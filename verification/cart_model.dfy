/** The cart's data: products as the guest cart holds them, line items,
    attribute selections, the server's cart payload, and what the browser's
    local storage holds under the keys 'cart' and 'isGiftWrap'. */
module CartModel {
  import opened Js
  import Lists

  /** A line's `productId`: the full product object captured when a guest
      adds it, or the bare id string the server cart and logged-in pages use. */
  datatype Product =
    | Snapshot(id: string, price: real, stock: int)
    | IdOnly(ref: string)

  /** Selected attributes in insertion order. `JSON.stringify` writes the keys
      of a plain object in that order, so two selections with the same entries
      in a different order serialise differently. */
  type Attrs = seq<(string, string)>

  /** A cart entry; `id` is the line's own `_id`, not the product's. */
  datatype LineItem = LineItem(id: string, product: Product, quantity: int, attrs: Attrs)

  /** `response.data.data` of the cart endpoints. */
  datatype ServerCart = ServerCart(items: seq<LineItem>, isGiftWrap: bool)

  /** The product identifier, whichever shape the product has. */
  function ProductKey(p: Product): string {
    match p
    case Snapshot(id, _, _) => id
    case IdOnly(ref) => ref
  }

  /** `p._id` in JavaScript: a snapshot's id, `undefined` for a bare id string. */
  function IdField(p: Product): Option<string> {
    if p.Snapshot? then Some(p.id) else None
  }

  /** The product test of `addToCartLocal` as written:
      `item.productId._id === productId._id || item.productId === productId._id`. */
  predicate SameProductAsWritten(item: Product, payload: Product) {
    IdField(item) == IdField(payload) || (item.IdOnly? && Some(item.ref) == IdField(payload))
  }

  /** The product test as intended: both sides name the same product id. */
  predicate SameProduct(item: Product, payload: Product) {
    ProductKey(item) == ProductKey(payload)
  }

  /** As written, any two bare-id products count as the same product, because
      both sides of `item.productId._id === productId._id` are `undefined`;
      and a bare-id payload never matches a snapshot of that very product. */
  lemma BareIdsAlwaysMatchAsWritten(a: string, b: string, price: real, stock: int)
    ensures SameProductAsWritten(IdOnly(a), IdOnly(b))
    ensures a != b ==> !SameProduct(IdOnly(a), IdOnly(b))
    ensures !SameProductAsWritten(Snapshot(a, price, stock), IdOnly(a))
    ensures SameProduct(Snapshot(a, price, stock), IdOnly(a))
  {
  }

  /** When the payload is a full snapshot (what the guest product page sends)
      the written test and the intended one agree; they differ only for a
      bare-id payload. */
  lemma AsWrittenAgreesOnSnapshots(item: Product, payload: Product)
    requires payload.Snapshot?
    ensures SameProductAsWritten(item, payload) <==> SameProduct(item, payload)
  {
  }

  /** The coalescing key of a cart line: same product and the same serialised
      attribute selection. */
  predicate Matches(line: LineItem, product: Product, attrs: Attrs) {
    SameProduct(line.product, product) && line.attrs == attrs
  }

  /** `obj[key] = value` / `{ ...obj, [key]: value }` on an ordered object: an
      existing key keeps its position and takes the new value, a new key goes
      last. */
  function Put(attrs: Attrs, key: string, value: string): (r: Attrs)
    ensures var k := Lists.FindIndex(attrs, (e: (string, string)) => e.0 == key);
            if k == -1 then r == attrs + [(key, value)] else r == attrs[k := (key, value)]
  {
    if |attrs| == 0 then [(key, value)]
    else if attrs[0].0 == key then [(key, value)] + attrs[1..]
    else [attrs[0]] + Put(attrs[1..], key, value)
  }

  /** `obj[key]`, `None` when the key is absent. */
  function Get(attrs: Attrs, key: string): Option<string> {
    if |attrs| == 0 then None
    else if attrs[0].0 == key then Some(attrs[0].1)
    else Get(attrs[1..], key)
  }

  predicate UniqueKeys(attrs: Attrs) {
    forall i, j :: 0 <= i < j < |attrs| ==> attrs[i].0 != attrs[j].0
  }

  /** Reading a key back after setting it gives the new value, every other key
      reads as before, and the keys stay distinct. */
  lemma {:induction false} PutGet(attrs: Attrs, key: string, value: string, other: string)
    requires UniqueKeys(attrs)
    ensures Get(Put(attrs, key, value), key) == Some(value)
    ensures other != key ==> Get(Put(attrs, key, value), other) == Get(attrs, other)
    ensures UniqueKeys(Put(attrs, key, value))
  {
    if |attrs| > 0 && attrs[0].0 != key {
      PutGet(attrs[1..], key, value, other);
      var r := Put(attrs, key, value);
      assert r[1..] == Put(attrs[1..], key, value);
      forall j | 0 < j < |r| ensures r[0].0 != r[j].0 {
        PutKeyIn(attrs[1..], key, value, j - 1);
      }
    }
  }

  /** Every key of the result of `Put` is `key` or a key already present. */
  lemma {:induction false} PutKeyIn(attrs: Attrs, key: string, value: string, j: int)
    requires 0 <= j < |Put(attrs, key, value)|
    ensures Put(attrs, key, value)[j].0 == key
         || exists i :: 0 <= i < |attrs| && attrs[i].0 == Put(attrs, key, value)[j].0
  {
    if |attrs| > 0 && attrs[0].0 != key && j > 0 {
      PutKeyIn(attrs[1..], key, value, j - 1);
      var r := Put(attrs, key, value);
      assert r[j] == Put(attrs[1..], key, value)[j - 1];
      if r[j].0 != key {
        var i :| 0 <= i < |attrs[1..]| && attrs[1..][i].0 == r[j].0;
        assert attrs[i + 1].0 == r[j].0;
      }
    }
  }

  /** What `JSON.parse(localStorage.getItem(key))` can meet: the value the app
      wrote, an empty string (falsy, so read as absent), or text that does not
      parse. A missing key is `None` in `Storage`. */
  datatype Stored<T> = Valid(v: T) | Blank | Corrupt

  /** The two local-storage keys the guest cart uses. */
  datatype Storage = Storage(cart: Option<Stored<seq<LineItem>>>, giftWrap: Option<Stored<bool>>)

  const EmptyStorage := Storage(None, None)

  /** The cart actions pages dispatch. */
  datatype CartAction =
    | AddToCart(productId: string, quantity: int, attrs: Attrs)
    | AddToCartLocal(product: Product, quantity: int, attrs: Attrs)
    | UpdateCartItem(itemId: string, quantity: int)
    | UpdateCartItemLocal(itemId: string, quantity: int)
    | RemoveCartItem(itemId: string)
    | RemoveFromCartLocal(itemId: string)
    | UpdateGiftWrap(isGiftWrap: bool)
    | UpdateGiftWrapLocal(isGiftWrap: bool)
    | ClearCart
}
