/** The kitchen's order page (src/app/kitchen/create/page.tsx): a new order
    for a walk-in customer, or more items for an existing order when the
    store names one to update. The item list follows the cart rules. */
module KitchenCreate {
  import opened Types
  import opened Text
  import opened Cart
  import opened OrderPayload

  /** What submitting sends: a new order, or the replacement lines of the
      order being updated. */
  datatype Request =
    | CreateOrder(payload: Payload)
    | UpdateOrder(orderId: string, payload: Payload)

  /** `isSubmitDisabled`: the customer fields only matter in create mode. */
  predicate SubmitDisabled(items: seq<CartItem>, updateMode: bool, name: string, phone: string, submitting: bool)
  {
    |items| == 0 || (!updateMode && CustomerIncomplete(name, phone)) || submitting
  }

  /** In update mode only the items and the running flag matter. In create
      mode an enabled submit has items, a name with a non-whitespace
      character and a 10-character phone. */
  lemma SubmitDisabledSpec(items: seq<CartItem>, updateMode: bool, name: string, phone: string, submitting: bool)
    ensures updateMode ==> (SubmitDisabled(items, updateMode, name, phone, submitting) <==> |items| == 0 || submitting)
    ensures !updateMode ==>
      (SubmitDisabled(items, updateMode, name, phone, submitting) <==>
       |items| == 0 || submitting || |phone| != 10 || forall i :: 0 <= i < |name| ==> IsJsWhitespace(name[i]))
  {
    CustomerIncompleteSpec(name, phone);
  }

  class CreatePage {
    const activeOrderId: Option<string>
    const orderToUpdate: Option<Order>
    var customerName: string
    var customerPhone: string
    var items: seq<CartItem>
    var isSubmitting: bool

    /** `isUpdateMode = !!activeOrderIdForUpdate`. */
    predicate IsUpdateMode()
    {
      Truthy(activeOrderId)
    }

    predicate Valid()
      reads this
    {
      DistinctIds(items)
    }

    constructor(activeOrderId: Option<string>, orderToUpdate: Option<Order>)
      ensures this.activeOrderId == activeOrderId && this.orderToUpdate == orderToUpdate
      ensures customerName == [] && customerPhone == [] && items == [] && !isSubmitting
      ensures Valid()
    {
      this.activeOrderId := activeOrderId;
      this.orderToUpdate := orderToUpdate;
      customerName := [];
      customerPhone := [];
      items := [];
      isSubmitting := false;
    }

    /** The prefill effect: in update mode with an order at hand, its name
        and the last 10 characters of its stored phone fill the fields. */
    method Prefill()
      modifies this`customerName, this`customerPhone
      ensures IsUpdateMode() && orderToUpdate.Some? ==>
        customerName == orderToUpdate.value.customerName
        && customerPhone == TakeLast(orderToUpdate.value.customerPhone, 10)
        && |customerPhone| <= 10
      ensures !(IsUpdateMode() && orderToUpdate.Some?) ==>
        customerName == old(customerName) && customerPhone == old(customerPhone)
    {
      if IsUpdateMode() && orderToUpdate.Some? {
        customerName := orderToUpdate.value.customerName;
        customerPhone := TakeLast(orderToUpdate.value.customerPhone, 10);
      }
    }

    /** `addItem`. */
    method AddItem(m: MenuItem)
      requires Valid()
      modifies this`items
      ensures items == Cart.AddItem(old(items), m)
      ensures Count(items) == Count(old(items)) + 1
      ensures Valid()
    {
      AddItemDistinct(items, m);
      AddItemTotals(items, m);
      items := Cart.AddItem(items, m);
    }

    /** `updateQuantity`: 0 or less removes the line. */
    method UpdateQuantity(id: string, quantity: int)
      requires Valid()
      modifies this`items
      ensures items == Cart.UpdateQuantity(old(items), id, quantity)
      ensures quantity <= 0 ==> !HasId(items, id)
      ensures Valid()
    {
      UpdateDistinct(items, id, quantity);
      RemoveKeepsOthers(items, id);
      items := Cart.UpdateQuantity(items, id, quantity);
    }

    /** The name field has no guard. */
    method EditName(typed: string)
      modifies this`customerName
      ensures customerName == typed
    {
      customerName := typed;
    }

    /** The phone field keeps its value unless the new text is at most 10 digits. */
    method EditPhone(typed: string)
      modifies this`customerPhone
      ensures customerPhone == Text.EditPhone(old(customerPhone), typed)
      ensures PhoneEditAccepted(old(customerPhone)) ==> PhoneEditAccepted(customerPhone)
    {
      customerPhone := Text.EditPhone(customerPhone, typed);
    }

    /** `handleSubmit`: update mode sends the lines with the stored customer
        to the order being updated (nothing at all when that order is not
        at hand); create mode sends a new pay-later order with the typed
        customer. The running flag is cleared once the request is settled. */
    method Submit() returns (request: Option<Request>)
      modifies this`isSubmitting
      ensures IsUpdateMode() && orderToUpdate.None? ==> request == None && isSubmitting == old(isSubmitting)
      ensures IsUpdateMode() && orderToUpdate.Some? ==>
        request == Some(UpdateOrder(activeOrderId.value,
          Payload(CartLines(items), Customer(orderToUpdate.value.customerName, orderToUpdate.value.customerPhone), None)))
      ensures !IsUpdateMode() ==>
        request == Some(CreateOrder(NewOrderPayload(items, customerName, customerPhone, Some(PayLater))))
      ensures request.Some? ==> !isSubmitting && LinesTotal(request.value.payload.items) == Total(items)
    {
      CartLinesSpec(items);
      if IsUpdateMode() {
        if orderToUpdate.None? {
          return None;
        }
        isSubmitting := true;
        var o := orderToUpdate.value;
        request := Some(UpdateOrder(activeOrderId.value,
          Payload(CartLines(items), Customer(o.customerName, o.customerPhone), None)));
      } else {
        isSubmitting := true;
        request := Some(CreateOrder(NewOrderPayload(items, customerName, customerPhone, Some(PayLater))));
      }
      isSubmitting := false;
    }
  }
}
