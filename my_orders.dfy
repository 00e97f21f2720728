/** The customer's order-history page (src/app/my-orders/page.tsx): the
    phone search with its own request, the saved number, and the card's
    completion badge. */
module MyOrders {
  import opened Types
  import opened Text
  import opened OrderMapping

  const InvalidPhoneMessage: string := "Please enter a valid 10-digit phone number."
  const FetchFailedMessage: string := "Could not fetch orders. Please check the phone number or try again later."

  /** `phoneFromUrl || savedPhone || ''`: the first truthy candidate. */
  function InitialPhone(url: Option<string>, saved: Option<string>): (r: string)
    ensures Truthy(url) ==> r == url.value
    ensures !Truthy(url) && Truthy(saved) ==> r == saved.value
    ensures r == [] <==> !Truthy(url) && !Truthy(saved)
  {
    if Truthy(url) then url.value else if Truthy(saved) then saved.value else []
  }

  /** The guard of `handleFindOrders`: `!phoneNumber || phoneNumber.length !== 10`. */
  predicate PhoneRejected(phone: string)
  {
    phone == [] || |phone| != 10
  }

  /** `MyOrderCard`'s `isCompleted`: the status `'completed'`. */
  predicate IsMyOrderCompleted(o: Order)
  {
    o.status == "completed"
  }

  /** `'completed'` is not one of the declared statuses, so no order whose
      status lies in the union ever shows as completed on this page. */
  lemma NoTypedOrderCompleted(o: Order)
    requires InStatusUnion(o.status)
    ensures !IsMyOrderCompleted(o)
  {
    assert |"completed"| == 9;
  }

  class MyOrdersPage {
    var phone: string
    var orders: seq<Order>
    var loading: bool
    var error: Option<string>
    var searched: bool
    /** The number kept in browser storage under `customerPhoneNumber`. */
    var savedPhone: Option<string>

    constructor(savedPhone: Option<string>)
      ensures phone == [] && orders == [] && !loading && error == None && !searched
      ensures this.savedPhone == savedPhone
    {
      phone := [];
      orders := [];
      loading := false;
      error := None;
      searched := false;
      this.savedPhone := savedPhone;
    }

    method EditPhone(typed: string)
      modifies this`phone
      ensures phone == Text.EditPhone(old(phone), typed)
      ensures PhoneEditAccepted(old(phone)) ==> PhoneEditAccepted(phone)
    {
      phone := Text.EditPhone(phone, typed);
    }

    /** `handleFindOrders(phoneNumber)`. A rejected number sets the
        message and sends nothing. Otherwise the list is emptied and the
        request sent: its orders, mapped and newest first, fill the list and
        the number is saved; a failure leaves the list empty with the
        failure message. Loading ends either way. */
    method FindOrders(phoneNumber: string, response: FetchResult<Option<seq<WireOrder>>>)
      returns (requested: bool)
      modifies this`orders, this`loading, this`error, this`searched, this`savedPhone
      ensures requested <==> !PhoneRejected(phoneNumber)
      ensures !loading
      ensures !requested ==>
        error == Some(InvalidPhoneMessage) && orders == old(orders)
        && searched == old(searched) && savedPhone == old(savedPhone)
      ensures requested ==> searched && SortedDesc(orders)
      ensures requested && response.Fetched? ==>
        orders == FetchedOrders(OrdersOrEmpty(response.body))
        && error == None && savedPhone == Some(phoneNumber)
      ensures requested && response.FetchFailed? ==>
        orders == [] && error == Some(FetchFailedMessage) && savedPhone == old(savedPhone)
    {
      if phoneNumber == [] || |phoneNumber| != 10 {
        error := Some(InvalidPhoneMessage);
        loading := false;
        return false;
      }
      loading := true;
      error := None;
      searched := true;
      orders := [];
      match response {
        case Fetched(body) =>
          FetchedOrdersSpec(OrdersOrEmpty(body));
          orders := FetchedOrders(OrdersOrEmpty(body));
          savedPhone := Some(phoneNumber);
        case FetchFailed =>
          error := Some(FetchFailedMessage);
          orders := [];
      }
      loading := false;
      return true;
    }

    /** The mount effect: the URL number, else the saved one; when there is
        one it fills the field and is searched. */
    method Mount(url: Option<string>, response: FetchResult<Option<seq<WireOrder>>>)
      modifies this`phone, this`orders, this`loading, this`error, this`searched, this`savedPhone
      ensures InitialPhone(url, old(savedPhone)) == [] ==>
        phone == old(phone) && orders == old(orders) && loading == old(loading)
        && error == old(error) && searched == old(searched) && savedPhone == old(savedPhone)
      ensures InitialPhone(url, old(savedPhone)) != [] ==>
        phone == InitialPhone(url, old(savedPhone)) && !loading
      ensures InitialPhone(url, old(savedPhone)) != [] && PhoneRejected(phone) ==>
        error == Some(InvalidPhoneMessage) && orders == old(orders)
        && searched == old(searched) && savedPhone == old(savedPhone)
      ensures InitialPhone(url, old(savedPhone)) != [] && !PhoneRejected(phone) ==>
        searched && SortedDesc(orders)
      ensures InitialPhone(url, old(savedPhone)) != [] && !PhoneRejected(phone) && response.Fetched? ==>
        orders == FetchedOrders(OrdersOrEmpty(response.body)) && error == None && savedPhone == Some(phone)
      ensures InitialPhone(url, old(savedPhone)) != [] && !PhoneRejected(phone) && response.FetchFailed? ==>
        orders == [] && error == Some(FetchFailedMessage) && savedPhone == old(savedPhone)
    {
      var initial := InitialPhone(url, savedPhone);
      if initial != [] {
        phone := initial;
        loading := true;
        var _ := FindOrders(initial, response);
      }
    }
  }
}
