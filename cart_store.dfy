/** The boundary to the shared cart store. The store's reducer lives in a
    module that is not part of this model, so `Cart` does not say what its
    operations do to the items: it records every request the pages make,
    in order, and holds the item list the store last published. */
module CartStore {
  import opened Optional

  /** A cart line as the pages read it. */
  datatype CartItem = CartItem(id: string, name: string, price: real, farmName: Option<string>, quantity: int)

  /** The payload of `addItem`. */
  datatype NewItem = NewItem(id: string, name: string, price: real, farmName: string)

  /** One request made to the store. */
  datatype CartCall =
    | AddItem(item: NewItem)
    | UpdateQuantity(id: string, quantity: int)
    | RemoveItem(id: string)
    | ClearCart

  class Cart {
    /** The item list the store currently publishes (`state.items`). */
    var items: seq<CartItem>
    /** Every request made to the store so far, oldest first. */
    var calls: seq<CartCall>

    constructor (published: seq<CartItem>)
      ensures items == published && calls == []
    {
      items := published;
      calls := [];
    }

    /** `addItem`: the request is recorded; its effect on `items` is the
        store's and is left unspecified. */
    method AddItem(item: NewItem)
      modifies this
      ensures calls == old(calls) + [CartCall.AddItem(item)]
    {
      calls := calls + [CartCall.AddItem(item)];
    }

    /** `updateQuantity`: recorded, effect unspecified. */
    method UpdateQuantity(id: string, quantity: int)
      modifies this
      ensures calls == old(calls) + [CartCall.UpdateQuantity(id, quantity)]
    {
      calls := calls + [CartCall.UpdateQuantity(id, quantity)];
    }

    /** `removeItem`: recorded, effect unspecified. */
    method RemoveItem(id: string)
      modifies this
      ensures calls == old(calls) + [CartCall.RemoveItem(id)]
    {
      calls := calls + [CartCall.RemoveItem(id)];
    }

    /** `clearCart`: recorded, effect unspecified. */
    method ClearCart()
      modifies this
      ensures calls == old(calls) + [CartCall.ClearCart]
    {
      calls := calls + [CartCall.ClearCart];
    }
  }
}
