/** The products slice: the current catalogue page with its pagination
    fields, the product open on the details page, and the request flags. */
module ProductsSlice {
  import opened Js
  import opened Entities

  /** `response.data` of the product list endpoint. */
  datatype ProductPage = ProductPage(
    data: seq<Entity>, page: int, perPage: int, totalItems: int, totalPages: int,
    hasPreviousPage: bool, hasNextPage: bool)

  class ProductsState {
    var items: seq<Entity>
    var page: int
    var perPage: int
    var totalItems: int
    var totalPages: int
    var hasPreviousPage: bool
    var hasNextPage: bool
    var currentProduct: Option<Entity>
    var isLoading: bool
    var error: Val

    /** `initialState` */
    constructor ()
      ensures items == [] && page == 1 && perPage == 10 && totalItems == 0 && totalPages == 0
      ensures !hasPreviousPage && !hasNextPage && currentProduct == None
      ensures !isLoading && error == Null
    {
      items := [];
      page := 1;
      perPage := 10;
      totalItems := 0;
      totalPages := 0;
      hasPreviousPage := false;
      hasNextPage := false;
      currentProduct := None;
      isLoading := false;
      error := Null;
    }

    /** The pagination fields, as one value. */
    function PageInfo(): ProductPage
      reads this
    {
      ProductPage(items, page, perPage, totalItems, totalPages, hasPreviousPage, hasNextPage)
    }

    /** Every pending case: loading, no error, nothing else touched. */
    method Pending()
      modifies this
      ensures isLoading && error == Null
      ensures PageInfo() == old(PageInfo()) && currentProduct == old(currentProduct)
    {
      isLoading := true;
      error := Null;
    }

    /** Every rejected case: the error is stored and the data kept. */
    method Rejected(payload: Val)
      modifies this
      ensures !isLoading && error == payload
      ensures PageInfo() == old(PageInfo()) && currentProduct == old(currentProduct)
    {
      isLoading := false;
      error := payload;
    }

    /** `fetchProducts.fulfilled`: the list and all six pagination fields
        come from the payload. */
    method FetchFulfilled(payload: ProductPage)
      modifies this
      ensures PageInfo() == payload
      ensures !isLoading && error == old(error) && currentProduct == old(currentProduct)
    {
      isLoading := false;
      items := payload.data;
      page := payload.page;
      perPage := payload.perPage;
      totalItems := payload.totalItems;
      totalPages := payload.totalPages;
      hasPreviousPage := payload.hasPreviousPage;
      hasNextPage := payload.hasNextPage;
    }

    /** `getProductById.fulfilled`: only the open product changes. */
    method GetByIdFulfilled(payload: Entity)
      modifies this
      ensures currentProduct == Some(payload)
      ensures !isLoading && error == old(error) && PageInfo() == old(PageInfo())
    {
      isLoading := false;
      currentProduct := Some(payload);
    }

    /** `addProduct.fulfilled`: one record appended. */
    method AddFulfilled(payload: Entity)
      modifies this
      ensures items == old(items) + [payload]
      ensures !isLoading && error == old(error) && currentProduct == old(currentProduct)
      ensures page == old(page) && perPage == old(perPage) && totalItems == old(totalItems) && totalPages == old(totalPages)
      ensures hasPreviousPage == old(hasPreviousPage) && hasNextPage == old(hasNextPage)
    {
      isLoading := false;
      items := items + [payload];
    }

    /** `updateProduct.fulfilled`: the first record with the payload's id is
        replaced in place, and the open product too when it has that id. */
    method UpdateFulfilled(payload: Entity)
      modifies this
      ensures items == ReplaceFirstById(old(items), payload)
      ensures currentProduct == if old(currentProduct).Some? && old(currentProduct).value.id == payload.id
                                then Some(payload) else old(currentProduct)
      ensures !isLoading && error == old(error)
      ensures page == old(page) && perPage == old(perPage) && totalItems == old(totalItems) && totalPages == old(totalPages)
      ensures hasPreviousPage == old(hasPreviousPage) && hasNextPage == old(hasNextPage)
    {
      isLoading := false;
      var index := IndexOfId(items, payload.id);
      if index != -1 {
        items := items[index := payload];
      }
      if currentProduct.Some? && currentProduct.value.id == payload.id {
        currentProduct := Some(payload);
      }
    }

    /** `deleteProduct.fulfilled`: every record with the id goes. The open
        product is left as it was. */
    method DeleteFulfilled(id: string)
      modifies this
      ensures items == RemoveById(old(items), id)
      ensures !isLoading && error == old(error) && currentProduct == old(currentProduct)
      ensures page == old(page) && perPage == old(perPage) && totalItems == old(totalItems) && totalPages == old(totalPages)
      ensures hasPreviousPage == old(hasPreviousPage) && hasNextPage == old(hasNextPage)
    {
      isLoading := false;
      items := RemoveById(items, id);
    }
  }
}
