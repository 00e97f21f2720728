/** The records the front end passes around (src/lib/types.ts), with the
    optional fields that other files read but the declarations omit. */
module Types {

  datatype Option<T> = None | Some(value: T)

  /** A catalogue entry. The declared category union is not checked at run
      time (values are copied from the backend), so it is a string here. */
  datatype MenuItem = MenuItem(
    id: string,
    name: string,
    description: string,
    price: int,
    image: string,
    category: string)

  /** A menu item with a quantity: `{ ...item, quantity }`. */
  datatype CartItem = CartItem(item: MenuItem, quantity: int)

  /** A line of an order. `served`, `active` and `servedQty` are read by the
      order-edit dialog although the interface does not declare them. */
  datatype OrderItem = OrderItem(
    id: string,
    name: string,
    quantity: int,
    price: int,
    served: Option<bool>,
    active: Option<int>,
    servedQty: Option<int>)

  /** An order as the client holds it. `status` is whatever string the
      backend sent; `served` is read by the order card but not declared. */
  datatype Order = Order(
    id: string,
    token: string,
    items: seq<OrderItem>,
    customerName: string,
    customerPhone: string,
    total: int,
    amountDue: Option<int>,
    timestamp: int,
    status: string,
    served: Option<bool>)

  const StatusNew: string := "new"
  const StatusPaid: string := "paid"
  const StatusDone: string := "done"
  const StatusCreated: string := "created"
  const StatusServed: string := "served"

  /** The declared status union `'new' | 'paid' | 'done' | 'created' | 'served'`. */
  predicate InStatusUnion(status: string)
  {
    status == StatusNew || status == StatusPaid || status == StatusDone
    || status == StatusCreated || status == StatusServed
  }

  /** A menu entry as the backend sends it (`_id`, `imageUrl`). */
  datatype WireMenuItem = WireMenuItem(
    wireId: string,
    name: string,
    description: string,
    price: int,
    imageUrl: string,
    category: string)

  /** The outcome of a read request: the response body, or a failure
      (transport error or non-2xx status). */
  datatype FetchResult<T> = Fetched(body: T) | FetchFailed

  /** JavaScript truthiness of an optional string: present and non-empty. */
  predicate Truthy(s: Option<string>)
  {
    s.Some? && s.value != ""
  }
}
