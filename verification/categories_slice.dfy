/** The categories slice: the category list and the request flags. */
module CategoriesSlice {
  import opened Js
  import opened Entities

  class CategoriesState {
    var items: seq<Entity>
    var isLoading: bool
    var error: Val

    /** `initialState` */
    constructor ()
      ensures items == [] && !isLoading && error == Null
    {
      items := [];
      isLoading := false;
      error := Null;
    }

    /** Every pending case. */
    method Pending()
      modifies this
      ensures isLoading && error == Null && items == old(items)
    {
      isLoading := true;
      error := Null;
    }

    /** Every rejected case: the list is kept. */
    method Rejected(payload: Val)
      modifies this
      ensures !isLoading && error == payload && items == old(items)
    {
      isLoading := false;
      error := payload;
    }

    /** `fetchCategories.fulfilled`: `action.payload || []`, with a missing
        payload as `None`. */
    method FetchFulfilled(payload: Option<seq<Entity>>)
      modifies this
      ensures items == (if payload.Some? then payload.value else [])
      ensures !isLoading && error == old(error)
    {
      isLoading := false;
      items := if payload.Some? then payload.value else [];
    }

    /** `addCategory.fulfilled` */
    method AddFulfilled(payload: Entity)
      modifies this
      ensures items == old(items) + [payload]
      ensures !isLoading && error == old(error)
    {
      isLoading := false;
      items := items + [payload];
    }

    /** `updateCategory.fulfilled` */
    method UpdateFulfilled(payload: Entity)
      modifies this
      ensures items == ReplaceFirstById(old(items), payload)
      ensures !isLoading && error == old(error)
    {
      isLoading := false;
      var index := IndexOfId(items, payload.id);
      if index != -1 {
        items := items[index := payload];
      }
    }

    /** `deleteCategory.fulfilled` */
    method DeleteFulfilled(id: string)
      modifies this
      ensures items == RemoveById(old(items), id)
      ensures !isLoading && error == old(error)
    {
      isLoading := false;
      items := RemoveById(items, id);
    }
  }
}
