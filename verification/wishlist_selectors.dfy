/** The wishlist selectors. */
module WishlistSelectors {
  import opened Entities

  /** `items.some(item => item._id === productId)` */
  function IsInWishlist(items: seq<Entity>, productId: string): (r: bool)
    ensures r <==> exists i :: 0 <= i < |items| && items[i].id == productId
  {
    if |items| == 0 then false
    else if items[0].id == productId then true
    else
      var r := IsInWishlist(items[1..], productId);
      assert r ==> exists i :: 0 <= i < |items| && items[i].id == productId by {
        if r {
          var i :| 0 <= i < |items[1..]| && items[1..][i].id == productId;
          assert items[i + 1].id == productId;
        }
      }
      r
  }

  /** An empty wishlist holds nothing, and the answer does not depend on the
      order of the items. */
  lemma IsInWishlistOrderFree(a: seq<Entity>, b: seq<Entity>, productId: string)
    requires multiset(a) == multiset(b)
    ensures !IsInWishlist([], productId)
    ensures IsInWishlist(a, productId) == IsInWishlist(b, productId)
  {
    if IsInWishlist(a, productId) {
      var i :| 0 <= i < |a| && a[i].id == productId;
      assert a[i] in multiset(b);
      var j :| 0 <= j < |b| && b[j] == a[i];
    }
    if IsInWishlist(b, productId) {
      var j :| 0 <= j < |b| && b[j].id == productId;
      assert b[j] in multiset(a);
      var i :| 0 <= i < |a| && a[i] == b[j];
    }
  }
}
