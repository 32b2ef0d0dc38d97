/** The product page: the quantity stepper, the attribute options a product
    offers and the default selection among them, and the add-to-cart
    handler. Attribute values are strings. */
module ProductDetails {
  import opened Js
  import Lists
  import opened CartModel
  import opened JsStrings

  /** `useState(1)` */
  const InitialQuantity: int := 1

  /** The "−" button: `Math.max(1, prev - 1)`. */
  function Decrement(q: int): (r: int)
    ensures r >= 1
    ensures q > 1 ==> r == q - 1
    ensures q <= 1 ==> r == 1
  {
    if q - 1 > 1 then q - 1 else 1
  }

  /** The "+" button: `Math.min(stock, prev + 1)`. */
  function Increment(q: int, stock: int): (r: int)
    ensures r <= stock && r <= q + 1
    ensures q < stock ==> r == q + 1
    ensures q >= stock ==> r == stock
  {
    if stock < q + 1 then stock else q + 1
  }

  datatype Step = Minus | Plus

  /** The quantity after a run of button presses. */
  function Press(q: int, stock: int, steps: seq<Step>): int
    decreases |steps|
  {
    if |steps| == 0 then q
    else Press(if steps[0] == Minus then Decrement(q) else Increment(q, stock), stock, steps[1..])
  }

  /** From any quantity between 1 and the stock, no sequence of presses
      leaves that range. */
  lemma {:induction false} PressStaysInRange(q: int, stock: int, steps: seq<Step>)
    requires 1 <= q <= stock
    ensures 1 <= Press(q, stock, steps) <= stock
    decreases |steps|
  {
    if |steps| > 0 {
      PressStaysInRange(if steps[0] == Minus then Decrement(q) else Increment(q, stock), stock, steps[1..]);
    }
  }

  /** With the stock at 0 the initial quantity of 1 can be pressed down to 0
      by "+", and "−" brings it back to 1; the add button is disabled then. */
  lemma ZeroStockStepper()
    ensures Increment(InitialQuantity, 0) == 0
    ensures Decrement(Increment(InitialQuantity, 0)) == 1
    ensures AddDisabled(0)
  {
  }

  /** `disabled={stock === 0}`: a negative stock leaves the button enabled. */
  predicate AddDisabled(stock: int) {
    stock == 0
  }

  /** Whether `typeof value === 'string' && value.includes(',')`. */
  predicate HasOptions(value: string) {
    Includes(value, ',')
  }

  /** The option buttons of one attribute: the comma-separated pieces, each
      trimmed, or the value itself as the only option. */
  function Options(value: string): (r: seq<string>)
    ensures |r| >= 1
    ensures HasOptions(value) ==> |r| == |Split(value, ',')| && forall i :: 0 <= i < |r| ==> r[i] == Trim(Split(value, ',')[i])
    ensures !HasOptions(value) ==> r == [value]
  {
    if HasOptions(value) then
      var parts := Split(value, ',');
      seq(|parts|, i requires 0 <= i < |parts| => Trim(parts[i]))
    else [value]
  }

  /** The value selected for an attribute when the product loads: the first
      piece trimmed, or the whole value untrimmed when it has no comma. */
  function DefaultSelection(value: string): string {
    if HasOptions(value) then Trim(Split(value, ',')[0]) else value
  }

  /** The default is always the first option shown, and a value with a comma
      offers at least two options, none holding a comma. */
  lemma DefaultIsFirstOption(value: string)
    ensures DefaultSelection(value) == Options(value)[0]
    ensures HasOptions(value) ==> |Options(value)| >= 2
    ensures HasOptions(value) ==> forall i :: 0 <= i < |Options(value)| ==> !Includes(Options(value)[i], ',')
  {
    if HasOptions(value) {
      SplitWithSeparator(value, ',');
      var o := Options(value);
      forall i | 0 <= i < |o| ensures !Includes(o[i], ',') {
        var p := Split(value, ',')[i];
        assert !Includes(p, ',');
      }
    }
  }

  /** The selection map the product's attributes start from. */
  function Defaults(attributes: Attrs): (r: Attrs)
    ensures |r| == |attributes|
    ensures forall i :: 0 <= i < |r| ==> r[i].0 == attributes[i].0 && r[i].1 == DefaultSelection(attributes[i].1)
  {
    seq(|attributes|, i requires 0 <= i < |attributes| => (attributes[i].0, DefaultSelection(attributes[i].1)))
  }

  /** The effect that builds `initial` entry by entry with
      `initial[key] = ...`. Object keys are distinct, so each assignment adds
      a new key at the end. */
  method InitialSelections(attributes: Attrs) returns (initial: Attrs)
    requires UniqueKeys(attributes)
    ensures initial == Defaults(attributes)
    ensures UniqueKeys(initial)
  {
    initial := [];
    var i := 0;
    while i < |attributes|
      invariant 0 <= i <= |attributes|
      invariant initial == Defaults(attributes[..i])
    {
      var (key, value) := attributes[i];
      assert Lists.FindIndex(initial, (e: (string, string)) => e.0 == key) == -1 by {
        forall j | 0 <= j < |initial| ensures initial[j].0 != key {
          assert initial[j].0 == attributes[j].0;
        }
      }
      initial := Put(initial, key, DefaultSelection(value));
      i := i + 1;
      assert initial == Defaults(attributes[..i]);
    }
    assert attributes[..i] == attributes;
  }

  /** Every attribute starts selected on one of its own options. */
  lemma DefaultsAreOptions(attributes: Attrs)
    ensures forall i :: 0 <= i < |attributes| ==>
              Defaults(attributes)[i].1 in Options(attributes[i].1)
  {
    forall i | 0 <= i < |attributes| ensures Defaults(attributes)[i].1 in Options(attributes[i].1) {
      DefaultIsFirstOption(attributes[i].1);
    }
  }

  /** `handleAttributeChange` sets one key of the selection: reading it back
      gives the new value, every other key reads as before, and the keys stay
      distinct. */
  lemma AttributeChangeOverwritesOnlyKey(selected: Attrs, key: string, value: string)
    requires UniqueKeys(selected)
    ensures UniqueKeys(Put(selected, key, value)) && Get(Put(selected, key, value), key) == Some(value)
    ensures forall other :: other != key ==> Get(Put(selected, key, value), other) == Get(selected, other)
  {
    PutGet(selected, key, value, key);
    forall other | other != key ensures Get(Put(selected, key, value), other) == Get(selected, other) {
      PutGet(selected, key, value, other);
    }
  }

  /** `handleAddToCart`: logged in, the route's product id goes to the
      server; a guest adds the full product object to the local cart. Both
      carry the current quantity and selection. */
  method HandleAddToCart(routeId: string, product: Product, quantity: int, selected: Attrs, isLoggedIn: bool)
    returns (action: CartAction)
    ensures action.AddToCart? <==> isLoggedIn
    ensures action.AddToCartLocal? <==> !isLoggedIn
    ensures action.AddToCart? ==> action.productId == routeId
    ensures action.AddToCartLocal? ==> action.product == product
    ensures action.quantity == quantity && action.attrs == selected
  {
    if isLoggedIn {
      action := AddToCart(routeId, quantity, selected);
    } else {
      action := AddToCartLocal(product, quantity, selected);
    }
  }
}
