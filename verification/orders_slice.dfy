/** The orders slice: the user's orders, the order open on screen, and the
    request flags. */
module OrdersSlice {
  import opened Js
  import opened Entities

  class OrdersState {
    var items: seq<Entity>
    var currentOrder: Option<Entity>
    var isLoading: bool
    var error: Val

    /** `initialState` */
    constructor ()
      ensures items == [] && currentOrder == None && !isLoading && error == Null
    {
      items := [];
      currentOrder := None;
      isLoading := false;
      error := Null;
    }

    /** Every pending case. */
    method Pending()
      modifies this
      ensures isLoading && error == Null
      ensures items == old(items) && currentOrder == old(currentOrder)
    {
      isLoading := true;
      error := Null;
    }

    /** Every rejected case. */
    method Rejected(payload: Val)
      modifies this
      ensures !isLoading && error == payload
      ensures items == old(items) && currentOrder == old(currentOrder)
    {
      isLoading := false;
      error := payload;
    }

    /** `fetchOrders.fulfilled`: the list is the payload. */
    method FetchFulfilled(payload: seq<Entity>)
      modifies this
      ensures items == payload
      ensures !isLoading && error == old(error) && currentOrder == old(currentOrder)
    {
      isLoading := false;
      items := payload;
    }

    /** `getOrderById.fulfilled`: only the open order changes. */
    method GetByIdFulfilled(payload: Entity)
      modifies this
      ensures currentOrder == Some(payload)
      ensures !isLoading && error == old(error) && items == old(items)
    {
      isLoading := false;
      currentOrder := Some(payload);
    }

    /** `createOrder.fulfilled`: the new order is appended and opened; the
        earlier orders are untouched. */
    method CreateFulfilled(payload: Entity)
      modifies this
      ensures items == old(items) + [payload]
      ensures currentOrder == Some(payload) && currentOrder.value == items[|items| - 1]
      ensures !isLoading && error == old(error)
    {
      isLoading := false;
      items := items + [payload];
      currentOrder := Some(payload);
    }
  }
}
