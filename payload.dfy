/** The order payload the three order-entry screens post
    (src/app/kitchen/create/page.tsx:108-119, src/app/my-cart/page.tsx:52-62,
    src/components/CreateOrderForm.tsx:81-93), and the customer fields they
    all require before submitting. */
module OrderPayload {
  import opened Types
  import opened Text
  import opened Cart

  /** One entry of `items`: `{ sku: item.name, qty: item.quantity, price: item.price }`. */
  datatype SkuLine = SkuLine(sku: string, qty: int, price: int)

  datatype Customer = Customer(name: string, phone: string)

  /** The body posted; `paymentMethod` is absent from the customer cart's body. */
  datatype Payload = Payload(items: seq<SkuLine>, customer: Customer, paymentMethod: Option<string>)

  const PayLater: string := "pay-later"

  function CartLines(cart: seq<CartItem>): seq<SkuLine>
  {
    seq(|cart|, i requires 0 <= i < |cart| => SkuLine(cart[i].item.name, cart[i].quantity, cart[i].item.price))
  }

  function LinesTotal(lines: seq<SkuLine>): int
  {
    if lines == [] then 0 else lines[0].price * lines[0].qty + LinesTotal(lines[1..])
  }

  /** One payload entry per cart line, in order, naming the item by its
      display name; the entries sum to the cart total the screen shows. */
  lemma {:induction false} CartLinesSpec(cart: seq<CartItem>)
    ensures |CartLines(cart)| == |cart|
    ensures forall i :: 0 <= i < |cart| ==>
      CartLines(cart)[i].sku == cart[i].item.name && CartLines(cart)[i].qty == cart[i].quantity
      && CartLines(cart)[i].price == cart[i].item.price
    ensures LinesTotal(CartLines(cart)) == Total(cart)
  {
    if cart != [] {
      CartLinesSpec(cart[1..]);
      assert CartLines(cart)[1..] == CartLines(cart[1..]);
    }
  }

  /** A new order from a form: the lines, the name as typed and the number
      with the country code in front. */
  function NewOrderPayload(cart: seq<CartItem>, name: string, phone: string, paymentMethod: Option<string>): Payload
  {
    Payload(CartLines(cart), Customer(name, WithCountryCode(phone)), paymentMethod)
  }

  /** The stored number of a new order gives back the typed 10 digits when
      the order card takes its last 10 characters. */
  lemma NewOrderPhoneRoundTrip(cart: seq<CartItem>, name: string, phone: string, paymentMethod: Option<string>)
    requires |phone| == 10
    ensures NewOrderPayload(cart, name, phone, paymentMethod).customer.phone[..3] == CountryCode
    ensures TakeLast(NewOrderPayload(cart, name, phone, paymentMethod).customer.phone, 10) == phone
  {
    TakeLastUndoesCountryCode(phone);
  }

  /** `!customerName.trim() || customerPhone.length !== 10`. */
  predicate CustomerIncomplete(name: string, phone: string)
  {
    Trim(name) == [] || |phone| != 10
  }

  /** The customer fields are incomplete exactly when the name is all
      whitespace (or empty) or the phone does not have 10 characters. */
  lemma CustomerIncompleteSpec(name: string, phone: string)
    ensures CustomerIncomplete(name, phone) <==>
      (forall i :: 0 <= i < |name| ==> IsJsWhitespace(name[i])) || |phone| != 10
  {
    TrimEmptyIffBlank(name);
  }
}
