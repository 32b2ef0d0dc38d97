/** The wishlist slice: the wished-for products and the fetch flags. */
module WishlistSlice {
  import opened Js
  import opened Entities

  /** `action.payload.products || []`, with a missing list as `None`. */
  function ProductsOrEmpty(products: Option<seq<Entity>>): seq<Entity> {
    if products.Some? then products.value else []
  }

  class WishlistState {
    var items: seq<Entity>
    var isLoading: bool
    var error: Val

    /** `initialState` */
    constructor ()
      ensures items == [] && !isLoading && error == Null
    {
      items := [];
      isLoading := false;
      error := Null;
    }

    /** `fetchWishlist.pending` */
    method FetchPending()
      modifies this
      ensures isLoading && error == Null && items == old(items)
    {
      isLoading := true;
      error := Null;
    }

    /** `fetchWishlist.fulfilled` */
    method FetchFulfilled(products: Option<seq<Entity>>)
      modifies this
      ensures items == ProductsOrEmpty(products)
      ensures !isLoading && error == old(error)
    {
      isLoading := false;
      items := ProductsOrEmpty(products);
    }

    /** `fetchWishlist.rejected`: the list is kept. */
    method FetchRejected(payload: Val)
      modifies this
      ensures !isLoading && error == payload && items == old(items)
    {
      isLoading := false;
      error := payload;
    }

    /** `addToWishlist.fulfilled` and `removeFromWishlist.fulfilled`: the
        server's list replaces the local one; the flags are not touched. */
    method ListFulfilled(products: Option<seq<Entity>>)
      modifies this
      ensures items == ProductsOrEmpty(products)
      ensures isLoading == old(isLoading) && error == old(error)
    {
      items := ProductsOrEmpty(products);
    }
  }
}
