/** The cart selectors: the total number of units and the subtotal the
    pricing pages display. */
module CartSelectors {
  import opened CartModel

  /** `items.reduce((acc, item) => acc + item.quantity, 0)`, folded from the left. */
  function TotalCount(items: seq<LineItem>): int {
    if |items| == 0 then 0
    else TotalCount(items[..|items| - 1]) + items[|items| - 1].quantity
  }

  /** The count of a concatenation is the sum of the counts. */
  lemma {:induction false} TotalCountConcat(a: seq<LineItem>, b: seq<LineItem>)
    ensures TotalCount(a + b) == TotalCount(a) + TotalCount(b)
  {
    if |b| == 0 {
      assert a + b == a;
    } else {
      assert (a + b)[..|a + b| - 1] == a + b[..|b| - 1];
      TotalCountConcat(a, b[..|b| - 1]);
    }
  }

  /** An empty cart counts 0 and appending a line of quantity q adds q. */
  lemma TotalCountAppend(items: seq<LineItem>, line: LineItem)
    ensures TotalCount([]) == 0
    ensures TotalCount(items + [line]) == TotalCount(items) + line.quantity
  {
    assert (items + [line])[..|items|] == items;
  }

  /** Overwriting the quantity of one line changes the count by the difference. */
  lemma {:induction false} TotalCountUpdate(items: seq<LineItem>, k: int, q: int)
    requires 0 <= k < |items|
    ensures TotalCount(items[k := items[k].(quantity := q)]) == TotalCount(items) - items[k].quantity + q
  {
    var u := items[k := items[k].(quantity := q)];
    assert items == items[..k] + [items[k]] + items[k + 1..];
    assert u == items[..k] + [u[k]] + items[k + 1..];
    TotalCountConcat(items[..k] + [items[k]], items[k + 1..]);
    TotalCountConcat(items[..k] + [u[k]], items[k + 1..]);
    TotalCountAppend(items[..k], items[k]);
    TotalCountAppend(items[..k], u[k]);
  }

  /** The count does not depend on the order of the lines. */
  lemma {:induction false} TotalCountPermutation(a: seq<LineItem>, b: seq<LineItem>)
    requires multiset(a) == multiset(b)
    ensures TotalCount(a) == TotalCount(b)
  {
    if |a| > 0 {
      var x := a[|a| - 1];
      var a' := a[..|a| - 1];
      assert a == a' + [x];
      assert x in multiset(b);
      var j :| 0 <= j < |b| && b[j] == x;
      var b' := b[..j] + b[j + 1..];
      assert b == b[..j] + [x] + b[j + 1..];
      assert multiset(b) == multiset(b[..j]) + multiset{x} + multiset(b[j + 1..]);
      assert multiset(b') == multiset(b[..j]) + multiset(b[j + 1..]);
      assert multiset(a) == multiset(a') + multiset{x};
      assert multiset(a') == multiset(a) - multiset{x};
      assert multiset(b') == multiset(b) - multiset{x};
      TotalCountPermutation(a', b');
      TotalCountAppend(a', x);
      TotalCountConcat(b[..j] + [x], b[j + 1..]);
      TotalCountConcat(b[..j], b[j + 1..]);
      TotalCountAppend(b[..j], x);
    } else {
      assert |b| == |multiset(b)| == 0;
    }
  }

  /** The unit price a line is charged at. A bare-id product carries no
      price; the subtotal counts it as 0. */
  function UnitPrice(p: Product): real {
    if p.Snapshot? then p.price else 0.0
  }

  /** `product.price * item.quantity`, the line total shown per row. */
  function LineTotal(line: LineItem): real {
    UnitPrice(line.product) * line.quantity as real
  }

  /** The subtotal behind `selectCartTotalPrice`, assumed to be the sum of the
      line totals (the selector itself is not part of the source). */
  function Subtotal(items: seq<LineItem>): real {
    if |items| == 0 then 0.0
    else Subtotal(items[..|items| - 1]) + LineTotal(items[|items| - 1])
  }

  predicate WellPriced(items: seq<LineItem>) {
    forall i :: 0 <= i < |items| ==> UnitPrice(items[i].product) >= 0.0 && items[i].quantity >= 0
  }

  /** With non-negative prices and quantities the subtotal is non-negative and
      each line total is at most the subtotal. */
  lemma {:induction false} SubtotalBounds(items: seq<LineItem>)
    requires WellPriced(items)
    ensures Subtotal(items) >= 0.0
    ensures forall i :: 0 <= i < |items| ==> 0.0 <= LineTotal(items[i]) <= Subtotal(items)
  {
    if |items| > 0 {
      var init := items[..|items| - 1];
      assert WellPriced(init) by {
        forall i | 0 <= i < |init| ensures UnitPrice(init[i].product) >= 0.0 && init[i].quantity >= 0 {
          assert init[i] == items[i];
        }
      }
      SubtotalBounds(init);
      var last := items[|items| - 1];
      assert LineTotal(last) >= 0.0 by {
        NonNegativeProduct(UnitPrice(last.product), last.quantity as real);
      }
      forall i | 0 <= i < |items| ensures 0.0 <= LineTotal(items[i]) <= Subtotal(items) {
        if i < |items| - 1 {
          assert items[i] == init[i];
        }
      }
    }
  }

  lemma NonNegativeProduct(x: real, y: real)
    requires x >= 0.0 && y >= 0.0
    ensures x * y >= 0.0
  {
  }
}
