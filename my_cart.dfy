/** The customer's cart page (src/app/my-cart/page.tsx): the saved
    customer details, the place-order guard, the payload and what happens
    to the cart once the order is placed. */
module MyCart {
  import opened Types
  import opened Text
  import opened Cart
  import opened OrderPayload

  /** A field's starting value: the saved value when it is truthy. */
  function SavedOrEmpty(saved: Option<string>): (r: string)
    ensures Truthy(saved) ==> r == saved.value
    ensures !Truthy(saved) ==> r == []
  {
    if saved.Some? && saved.value != [] then saved.value else []
  }

  /** `isPlaceOrderDisabled`. */
  predicate PlaceOrderDisabled(cart: seq<CartItem>, name: string, phone: string, placing: bool)
  {
    |cart| == 0 || CustomerIncomplete(name, phone) || placing
  }

  /** The body posted by `handlePlaceOrder`: no payment method. */
  function PlaceOrderPayload(cart: seq<CartItem>, name: string, phone: string): Payload
  {
    NewOrderPayload(cart, name, phone, None)
  }

  /** An order the button lets through has at least one line, a name with
      a non-whitespace character and a 13-character "+91" number; its lines
      sum to the cart total. */
  lemma PlaceOrderEnabledPayload(cart: seq<CartItem>, name: string, phone: string, placing: bool)
    requires !PlaceOrderDisabled(cart, name, phone, placing)
    ensures |PlaceOrderPayload(cart, name, phone).items| == |cart| > 0
    ensures exists i :: 0 <= i < |name| && !IsJsWhitespace(name[i])
    ensures |PlaceOrderPayload(cart, name, phone).customer.phone| == 13
    ensures TakeLast(PlaceOrderPayload(cart, name, phone).customer.phone, 10) == phone
    ensures PlaceOrderPayload(cart, name, phone).paymentMethod == None
    ensures LinesTotal(PlaceOrderPayload(cart, name, phone).items) == Total(cart)
  {
    CustomerIncompleteSpec(name, phone);
    CartLinesSpec(cart);
    NewOrderPhoneRoundTrip(cart, name, phone, None);
  }

  /** The result of the post: a response whose body may carry a checkout
      URL, or a failure. */
  datatype PlaceOrderResult = Placed(checkoutPageUrl: Option<string>) | PlaceFailed

  /** The cart after `handlePlaceOrder`: cleared only on a response with a
      truthy checkout URL. */
  function CartAfterPlaceOrder(cart: seq<CartItem>, result: PlaceOrderResult): (r: seq<CartItem>)
    ensures r == [] || r == cart
    ensures r == [] <==> cart == [] || (result.Placed? && Truthy(result.checkoutPageUrl))
  {
    match result
    case Placed(url) => if url.Some? && url.value != [] then [] else cart
    case PlaceFailed => cart
  }
}
