/** The cart page: which quantity requests reach the cart store, the
    remove and clear buttons, and checkout. */
module Cart {
  import opened Optional
  import opened Text
  import opened CartStore

  /** The quantity box's mapping `parseInt(text) || 1`: NaN and 0 are both
      falsy and become 1. */
  function QuantityFromInput(text: string): (q: int)
    ensures q != 0
    ensures ParseInt(text).None? ==> q == 1
    ensures ParseInt(text).Some? && ParseInt(text).value != 0 ==> q == ParseInt(text).value
  {
    match ParseInt(text)
    case None => 1
    case Some(n) => if n == 0 then 1 else n
  }

  /** Typing a positive count into the box requests exactly that count. */
  lemma TypedCountIsRequested(n: int)
    requires n >= 1
    ensures QuantityFromInput(IntToString(n)) == n
  {
    ParseIntOfIntToString(n);
  }

  /** What the minus button requests: nothing while it is disabled
      (quantity at most 1), otherwise one less. */
  function MinusRequest(quantity: int): (r: Option<int>)
    ensures r.Some? <==> quantity > 1
    ensures r.Some? ==> r.value >= 1 && r.value == quantity - 1
  {
    if quantity <= 1 then None else Some(quantity - 1)
  }

  class CartPage {
    var isCheckingOut: bool
    var checkoutSuccess: bool
    const cart: Cart

    constructor (cart: Cart)
      ensures this.cart == cart && !isCheckingOut && !checkoutSuccess
    {
      this.cart := cart;
      isCheckingOut, checkoutSuccess := false, false;
    }

    /** `handleQuantityChange`: a negative quantity is dropped; every other
        quantity, 0 included, goes to `updateQuantity` unchanged. */
    method HandleQuantityChange(id: string, quantity: int)
      modifies cart
      ensures quantity < 0 ==> unchanged(cart)
      ensures quantity >= 0 ==> cart.calls == old(cart.calls) + [CartCall.UpdateQuantity(id, quantity)]
    {
      if quantity < 0 {
        return;
      }
      cart.UpdateQuantity(id, quantity);
    }

    /** The quantity box's `onChange`: what reaches the store is never 0,
        so typing cannot remove a line. */
    method QuantityTyped(item: CartItem, text: string)
      modifies cart
      ensures QuantityFromInput(text) < 0 ==> unchanged(cart)
      ensures QuantityFromInput(text) > 0 ==>
                cart.calls == old(cart.calls) + [CartCall.UpdateQuantity(item.id, QuantityFromInput(text))]
    {
      HandleQuantityChange(item.id, QuantityFromInput(text));
    }

    /** The minus button: disabled at quantity 1 or less, so it never
        requests less than 1. */
    method MinusPressed(item: CartItem)
      modifies cart
      ensures MinusRequest(item.quantity).None? ==> unchanged(cart)
      ensures MinusRequest(item.quantity).Some? ==>
                cart.calls == old(cart.calls) + [CartCall.UpdateQuantity(item.id, item.quantity - 1)]
    {
      var r := MinusRequest(item.quantity);
      if r.Some? {
        HandleQuantityChange(item.id, r.value);
      }
    }

    /** The plus button: requests one more. */
    method PlusPressed(item: CartItem)
      modifies cart
      ensures item.quantity + 1 < 0 ==> unchanged(cart)
      ensures item.quantity + 1 >= 0 ==>
                cart.calls == old(cart.calls) + [CartCall.UpdateQuantity(item.id, item.quantity + 1)]
    {
      HandleQuantityChange(item.id, item.quantity + 1);
    }

    /** A line's Remove button. */
    method RemovePressed(item: CartItem)
      modifies cart
      ensures cart.calls == old(cart.calls) + [CartCall.RemoveItem(item.id)]
    {
      cart.RemoveItem(item.id);
    }

    /** The Clear Cart button. */
    method ClearPressed()
      modifies cart
      ensures cart.calls == old(cart.calls) + [CartCall.ClearCart]
    {
      cart.ClearCart();
    }

    /** `handleCheckout`, the wait taken as one step; `fails` selects the
        `catch` branch, kept as written although that timer never rejects.
        An empty cart changes nothing; a failed checkout leaves the cart
        alone; a completed one clears it. */
    method HandleCheckout(fails: bool)
      modifies this, cart
      ensures old(cart.items) == [] ==>
                unchanged(cart) && isCheckingOut == old(isCheckingOut) && checkoutSuccess == old(checkoutSuccess)
      ensures old(cart.items) != [] ==> !isCheckingOut
      ensures old(cart.items) != [] && fails ==> unchanged(cart) && checkoutSuccess == old(checkoutSuccess)
      ensures old(cart.items) != [] && !fails ==>
                checkoutSuccess && cart.calls == old(cart.calls) + [CartCall.ClearCart]
    {
      if |cart.items| == 0 {
        return;
      }
      isCheckingOut := true;
      if !fails {
        checkoutSuccess := true;
        cart.ClearCart();
      }
      isCheckingOut := false;
    }
  }
}
