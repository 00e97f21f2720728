/** The order store of src/context/OrderContext.tsx: the state it keeps
    (lines 33-38) and the handlers that replace that state. Each request is
    given as its outcome; the handlers that read a response do not await
    anything else, so running them one after another is their effect. */
module OrderStore {
  import opened Types
  import opened Seqs
  import opened Cart
  import opened OrderMapping

  const KitchenFetchError: string := "Could not fetch kitchen orders. Please try again later."

  /** The outcome of the status PATCH: a response with its status code, or
      a request that threw (network failure or a non-2xx status). */
  datatype PatchOutcome = Responded(code: int) | RequestFailed

  /** The early-return guard of `fetchMyOrders`: `!phone || phone.length !== 10`
      negated. The phone is not checked for digits. */
  predicate MyOrdersRequested(phone: string)
  {
    phone != [] && |phone| == 10
  }

  /** `completeOrder` reports success only for a response with status 200. */
  predicate CompletionSucceeded(outcome: PatchOutcome)
  {
    outcome.Responded? && outcome.code == 200
  }

  function IsDone(): Order -> bool
  {
    (o: Order) => o.status == StatusDone
  }

  function IsNotDone(): Order -> bool
  {
    (o: Order) => o.status != StatusDone
  }

  /** `myOrders.filter(order => order.status !== 'done').length`. */
  function InProgressCount(orders: seq<Order>): (n: nat)
    ensures n <= |orders|
    ensures n + |Filter(IsDone(), orders)| == |orders|
  {
    FilterPartition(IsNotDone(), IsDone(), orders);
    |Filter(IsNotDone(), orders)|
  }

  class Store {
    var cart: seq<CartItem>
    var myOrders: seq<Order>
    var kitchenOrders: seq<Order>
    var loading: bool
    var error: Option<string>
    var myOrdersLoading: bool

    /** The cart handlers never create a second line for one id. */
    predicate Valid()
      reads this
    {
      DistinctIds(cart)
    }

    /** The initial `useState` values: kitchen orders start as loading. */
    constructor()
      ensures cart == [] && myOrders == [] && kitchenOrders == []
      ensures loading && error == None && !myOrdersLoading
      ensures Valid()
    {
      cart := [];
      myOrders := [];
      kitchenOrders := [];
      loading := true;
      error := None;
      myOrdersLoading := false;
    }

    /** `cartTotal`: Σ price × quantity. */
    function CartTotal(): int
      reads this
    {
      Total(cart)
    }

    /** `cartCount`: Σ quantity. */
    function CartCount(): int
      reads this
    {
      Count(cart)
    }

    function InProgressOrderCount(): nat
      reads this
    {
      InProgressCount(myOrders)
    }

    /** `addToCart`: one more of an item already in the cart, or a new line
        with quantity 1 at the end; the count grows by exactly one. */
    method AddToCart(item: MenuItem)
      requires Valid()
      modifies this`cart
      ensures cart == AddItem(old(cart), item)
      ensures Valid()
      ensures CartCount() == old(CartCount()) + 1
    {
      AddItemDistinct(cart, item);
      AddItemTotals(cart, item);
      cart := AddItem(cart, item);
    }

    /** `removeFromCart`: the line with that id goes, the others stay in order. */
    method RemoveFromCart(id: string)
      requires Valid()
      modifies this`cart
      ensures cart == RemoveId(old(cart), id)
      ensures Valid()
      ensures !HasId(cart, id)
    {
      FilterDistinct(OtherId(id), cart);
      cart := RemoveId(cart, id);
    }

    /** `updateQuantity`: a quantity of 0 or less is a removal. */
    method UpdateQuantity(id: string, quantity: int)
      requires Valid()
      modifies this`cart
      ensures cart == Cart.UpdateQuantity(old(cart), id, quantity)
      ensures Valid()
    {
      UpdateDistinct(cart, id, quantity);
      cart := Cart.UpdateQuantity(cart, id, quantity);
    }

    /** `clearCart`: an empty cart, so total and count are 0. */
    method ClearCart()
      modifies this`cart
      ensures cart == [] && CartTotal() == 0 && CartCount() == 0
      ensures Valid()
    {
      cart := [];
    }

    /** `fetchKitchenOrders`: on success the mapped orders, newest first,
        replace the kitchen list and the error is cleared; on failure the
        list is kept and the error message is set. Loading ends either way. */
    method FetchKitchenOrders(response: FetchResult<Option<seq<WireOrder>>>)
      modifies this`kitchenOrders, this`loading, this`error
      ensures !loading
      ensures response.Fetched? ==>
        kitchenOrders == FetchedOrders(OrdersOrEmpty(response.body)) && error == None
      ensures response.FetchFailed? ==>
        kitchenOrders == old(kitchenOrders) && error == Some(KitchenFetchError)
      ensures SortedDesc(kitchenOrders) || kitchenOrders == old(kitchenOrders)
    {
      loading := true;
      error := None;
      match response {
        case Fetched(body) =>
          kitchenOrders := FetchedOrders(OrdersOrEmpty(body));
        case FetchFailed =>
          error := Some(KitchenFetchError);
      }
      loading := false;
    }

    /** `fetchMyOrders`: a phone that fails the guard changes nothing and
        sends nothing. Otherwise the mapped orders, newest first, replace
        the list on success; a failure keeps the list and sets no error. */
    method FetchMyOrders(phone: string, response: FetchResult<Option<seq<WireOrder>>>)
      returns (requested: bool)
      modifies this`myOrders, this`myOrdersLoading
      ensures requested <==> MyOrdersRequested(phone)
      ensures !requested ==> myOrders == old(myOrders) && myOrdersLoading == old(myOrdersLoading)
      ensures requested ==> !myOrdersLoading
      ensures requested && response.Fetched? ==> myOrders == FetchedOrders(OrdersOrEmpty(response.body))
      ensures requested && response.FetchFailed? ==> myOrders == old(myOrders)
    {
      if phone == [] || |phone| != 10 {
        return false;
      }
      myOrdersLoading := true;
      if response.Fetched? {
        myOrders := FetchedOrders(OrdersOrEmpty(response.body));
      }
      myOrdersLoading := false;
      return true;
    }

    /** `completeOrder`: on a 200 response both lists mark the order done
        (the kitchen list re-sorted, the customer list in place) and the
        result is true; otherwise nothing changes and the result is false. */
    method CompleteOrder(id: string, outcome: PatchOutcome) returns (ok: bool)
      modifies this`kitchenOrders, this`myOrders
      ensures ok <==> CompletionSucceeded(outcome)
      ensures ok ==> kitchenOrders == SortDesc(MarkDone(old(kitchenOrders), id))
      ensures ok ==> myOrders == MarkDone(old(myOrders), id)
      ensures ok && SortedDesc(old(kitchenOrders)) ==> kitchenOrders == MarkDone(old(kitchenOrders), id)
      ensures !ok ==> kitchenOrders == old(kitchenOrders) && myOrders == old(myOrders)
    {
      if outcome.Responded? && outcome.code == 200 {
        MarkDoneSpec(kitchenOrders, id);
        kitchenOrders := SortDesc(MarkDone(kitchenOrders, id));
        myOrders := MarkDone(myOrders, id);
        return true;
      }
      return false;
    }

    /** The mount effect: the kitchen fetch always runs; the customer fetch
        runs with the cached phone when one is stored and non-empty. The two
        touch disjoint fields, so the order their responses arrive in does
        not matter. */
    method Mount(kitchenResponse: FetchResult<Option<seq<WireOrder>>>,
                 cachedPhone: Option<string>,
                 myResponse: FetchResult<Option<seq<WireOrder>>>)
      modifies this`kitchenOrders, this`loading, this`error, this`myOrders, this`myOrdersLoading
      ensures !loading
      ensures kitchenResponse.Fetched? ==>
        kitchenOrders == FetchedOrders(OrdersOrEmpty(kitchenResponse.body)) && error == None
      ensures kitchenResponse.FetchFailed? ==>
        kitchenOrders == old(kitchenOrders) && error == Some(KitchenFetchError)
      ensures !(Truthy(cachedPhone) && MyOrdersRequested(cachedPhone.value)) ==>
        myOrders == old(myOrders) && myOrdersLoading == old(myOrdersLoading)
      ensures Truthy(cachedPhone) && MyOrdersRequested(cachedPhone.value) ==> !myOrdersLoading
      ensures Truthy(cachedPhone) && MyOrdersRequested(cachedPhone.value) && myResponse.Fetched? ==>
        myOrders == FetchedOrders(OrdersOrEmpty(myResponse.body))
      ensures Truthy(cachedPhone) && MyOrdersRequested(cachedPhone.value) && myResponse.FetchFailed? ==>
        myOrders == old(myOrders)
    {
      FetchKitchenOrders(kitchenResponse);
      if Truthy(cachedPhone) {
        var _ := FetchMyOrders(cachedPhone.value, myResponse);
      }
    }
  }
}
