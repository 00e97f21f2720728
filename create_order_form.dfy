/** The kitchen's create-order dialog (src/components/CreateOrderForm.tsx):
    items are picked by id from the bundled menu data and follow the cart
    rules. */
module CreateOrderForm {
  import opened Types
  import opened Seqs
  import opened Text
  import opened Cart
  import opened OrderPayload

  /** `addItem(itemId)`: nothing for an id the menu data lacks, otherwise
      the cart rule with the menu entry. */
  function AddFromMenu(menu: seq<MenuItem>, items: seq<CartItem>, id: string): seq<CartItem>
  {
    var found := LookupMenu(menu, id);
    if found.None? then items else AddItem(items, found.value)
  }

  /** An unknown id changes nothing; a known one adds exactly one unit,
      under that id, and keeps line ids distinct. */
  lemma AddFromMenuSpec(menu: seq<MenuItem>, items: seq<CartItem>, id: string)
    requires DistinctIds(items)
    ensures (forall i :: 0 <= i < |menu| ==> menu[i].id != id) ==> AddFromMenu(menu, items, id) == items
    ensures (exists i :: 0 <= i < |menu| && menu[i].id == id) ==>
      Count(AddFromMenu(menu, items, id)) == Count(items) + 1 && HasId(AddFromMenu(menu, items, id), id)
    ensures DistinctIds(AddFromMenu(menu, items, id))
  {
    var found := LookupMenu(menu, id);
    if found.Some? {
      AddItemTotals(items, found.value);
      AddItemDistinct(items, found.value);
      var r := AddItem(items, found.value);
      if HasId(items, id) {
        var k := FirstIndex(items, id);
        assert r[k].item.id == id;
      } else {
        assert r[|items|].item.id == id;
      }
    }
  }

  /** `isSubmitDisabled`. */
  predicate SubmitDisabled(items: seq<CartItem>, name: string, phone: string, submitting: bool)
  {
    |items| == 0 || CustomerIncomplete(name, phone) || submitting
  }

  class Form {
    const menuData: seq<MenuItem>
    var open: bool
    var customerName: string
    var customerPhone: string
    var items: seq<CartItem>
    var isSubmitting: bool

    predicate Valid()
      reads this
    {
      DistinctIds(items)
    }

    constructor(menuData: seq<MenuItem>)
      ensures this.menuData == menuData && !open
      ensures customerName == [] && customerPhone == [] && items == [] && !isSubmitting
      ensures Valid()
    {
      this.menuData := menuData;
      open := false;
      customerName := [];
      customerPhone := [];
      items := [];
      isSubmitting := false;
    }

    method AddItem(id: string)
      requires Valid()
      modifies this`items
      ensures items == AddFromMenu(menuData, old(items), id)
      ensures LookupMenu(menuData, id).None? ==> items == old(items)
      ensures Valid()
    {
      AddFromMenuSpec(menuData, items, id);
      items := AddFromMenu(menuData, items, id);
    }

    method UpdateQuantity(id: string, quantity: int)
      requires Valid()
      modifies this`items
      ensures items == Cart.UpdateQuantity(old(items), id, quantity)
      ensures Valid()
    {
      UpdateDistinct(items, id, quantity);
      items := Cart.UpdateQuantity(items, id, quantity);
    }

    /** The name field has no guard. */
    method EditName(typed: string)
      modifies this`customerName
      ensures customerName == typed
    {
      customerName := typed;
    }

    method EditPhone(typed: string)
      modifies this`customerPhone
      ensures customerPhone == Text.EditPhone(old(customerPhone), typed)
    {
      customerPhone := Text.EditPhone(customerPhone, typed);
    }

    /** `resetForm`: empty fields, no items, not submitting. */
    method ResetForm()
      modifies this`customerName, this`customerPhone, this`items, this`isSubmitting
      ensures customerName == [] && customerPhone == [] && items == [] && !isSubmitting
      ensures Valid() && Total(items) == 0 && Count(items) == 0
    {
      customerName := [];
      customerPhone := [];
      items := [];
      isSubmitting := false;
    }

    /** `handleSubmit`: posts a pay-later order; on success the form is
        reset and closed, on failure everything is kept. */
    method Submit(success: bool) returns (payload: Payload)
      modifies this`customerName, this`customerPhone, this`items, this`isSubmitting, this`open
      ensures payload == NewOrderPayload(old(items), old(customerName), old(customerPhone), Some(PayLater))
      ensures LinesTotal(payload.items) == Total(old(items))
      ensures success ==> customerName == [] && customerPhone == [] && items == [] && !open
      ensures !success ==>
        customerName == old(customerName) && customerPhone == old(customerPhone)
        && items == old(items) && open == old(open)
      ensures !isSubmitting
    {
      isSubmitting := true;
      payload := NewOrderPayload(items, customerName, customerPhone, Some(PayLater));
      CartLinesSpec(items);
      if success {
        ResetForm();
        open := false;
      }
      isSubmitting := false;
    }
  }
}
