/** The store-backed order-history view (src/components/MyOrdersPageContent.tsx):
    the phone field and search button drive the store's `fetchMyOrders`. */
module MyOrdersContent {
  import opened Types
  import opened Text
  import opened OrderMapping
  import opened OrderStore
  import opened MyOrders

  /** `disabled={phoneNumber.length !== 10 || myOrdersLoading}`. */
  predicate SearchDisabled(phone: string, loading: bool)
  {
    |phone| != 10 || loading
  }

  /** An enabled button always passes the store's guard, so a click
      always reaches the request. */
  lemma SearchEnabledRequests(phone: string, loading: bool)
    requires !SearchDisabled(phone, loading)
    ensures MyOrdersRequested(phone) && !PhoneRejected(phone)
  {
  }

  class MyOrdersView {
    const store: Store
    var phoneNumber: string
    /** The number kept in browser storage under `customerPhoneNumber`. */
    var savedPhone: Option<string>

    constructor(store: Store, savedPhone: Option<string>)
      ensures this.store == store && phoneNumber == [] && this.savedPhone == savedPhone
    {
      this.store := store;
      phoneNumber := [];
      this.savedPhone := savedPhone;
    }

    /** The mount effect: the field takes the URL number, else the saved
        one, else ''; a non-empty value is fetched through the store. */
    method Mount(url: Option<string>, response: FetchResult<Option<seq<WireOrder>>>)
      modifies this`phoneNumber, store`myOrders, store`myOrdersLoading
      ensures phoneNumber == InitialPhone(url, savedPhone)
      ensures !MyOrdersRequested(phoneNumber) ==>
        store.myOrders == old(store.myOrders) && store.myOrdersLoading == old(store.myOrdersLoading)
      ensures MyOrdersRequested(phoneNumber) ==> !store.myOrdersLoading
      ensures MyOrdersRequested(phoneNumber) && response.Fetched? ==>
        store.myOrders == FetchedOrders(OrdersOrEmpty(response.body))
      ensures MyOrdersRequested(phoneNumber) && response.FetchFailed? ==>
        store.myOrders == old(store.myOrders)
    {
      phoneNumber := InitialPhone(url, savedPhone);
      if phoneNumber != [] {
        var _ := store.FetchMyOrders(phoneNumber, response);
      }
    }

    /** `handleSearch`: only a 10-character number is saved and fetched. */
    method Search(response: FetchResult<Option<seq<WireOrder>>>) returns (searched: bool)
      modifies this`savedPhone, store`myOrders, store`myOrdersLoading
      ensures searched <==> |phoneNumber| == 10
      ensures !searched ==>
        savedPhone == old(savedPhone) && store.myOrders == old(store.myOrders)
        && store.myOrdersLoading == old(store.myOrdersLoading)
      ensures searched ==> savedPhone == Some(phoneNumber) && !store.myOrdersLoading
      ensures searched && response.Fetched? ==>
        store.myOrders == FetchedOrders(OrdersOrEmpty(response.body))
      ensures searched && response.FetchFailed? ==> store.myOrders == old(store.myOrders)
    {
      if |phoneNumber| == 10 {
        savedPhone := Some(phoneNumber);
        var requested := store.FetchMyOrders(phoneNumber, response);
        assert requested;
        return true;
      }
      return false;
    }

    method EditPhone(typed: string)
      modifies this`phoneNumber
      ensures phoneNumber == Text.EditPhone(old(phoneNumber), typed)
      ensures PhoneEditAccepted(old(phoneNumber)) ==> PhoneEditAccepted(phoneNumber)
    {
      phoneNumber := Text.EditPhone(phoneNumber, typed);
    }
  }
}
