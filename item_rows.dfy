/** The row-based item editors of the create-order dialog
    (src/components/CreateOrderDialog.tsx) and the add-items dialog
    (src/components/AddItemsToOrderDialog.tsx). Both keep a list of rows
    numbered by a counter and write the same handlers; the rules are
    defined once here and the two dialogs are classes below. */
module ItemRows {
  import opened Types
  import opened Seqs
  import opened Text
  import opened Cart
  import opened OrderPayload

  /** One row of the form. `name` is the slug sent as the payload's `sku`. */
  datatype FormRow = FormRow(id: int, sku: string, name: string, price: int, quantity: int)

  /** The two fields the form edits: the selected menu id, or the quantity
      (already parsed, `parseInt(value) || 1`). */
  datatype FieldEdit = SkuEdit(sku: string) | QuantityEdit(quantity: int)

  /** The row `handleAddItem` appends. */
  function BlankRow(id: int): FormRow
  {
    FormRow(id, "", "", 0, 1)
  }

  /** `name.toLowerCase().replace(/ /g, '-')`. */
  function Slug(name: string): string
  {
    ReplaceAll(LowerAscii(name), " ", "-")
  }

  /** A slug has the name's length, no spaces and no upper-case ASCII
      letters: each space became a dash and each letter its lower case. */
  lemma SlugSpec(name: string)
    ensures |Slug(name)| == |name|
    ensures forall i :: 0 <= i < |name| ==>
      Slug(name)[i] == (if name[i] == ' ' then '-' else LowerChar(name[i]))
    ensures forall i :: 0 <= i < |name| ==> Slug(name)[i] != ' ' && !('A' <= Slug(name)[i] <= 'Z')
  {
    ReplaceSpaces(LowerAscii(name));
  }

  /** The edit applied to the row it targets. Choosing a menu id found in
      the menu data also copies its price and its slugged name. */
  function EditRow(row: FormRow, edit: FieldEdit, menu: seq<MenuItem>): FormRow
  {
    match edit
    case QuantityEdit(q) => row.(quantity := q)
    case SkuEdit(v) =>
      var found := LookupMenu(menu, v);
      if found.Some? then row.(sku := v, price := found.value.price, name := Slug(found.value.name))
      else row.(sku := v)
  }

  /** `handleItemChange(id, field, value)`. */
  function ChangeRow(rows: seq<FormRow>, id: int, edit: FieldEdit, menu: seq<MenuItem>): seq<FormRow>
  {
    seq(|rows|, i requires 0 <= i < |rows| => if rows[i].id == id then EditRow(rows[i], edit, menu) else rows[i])
  }

  function OtherRow(id: int): FormRow -> bool
  {
    (r: FormRow) => r.id != id
  }

  /** `handleRemoveItem(id)`. */
  function RemoveRow(rows: seq<FormRow>, id: int): seq<FormRow>
  {
    Filter(OtherRow(id), rows)
  }

  /** `total`: Σ price × quantity over the rows. */
  function RowsTotal(rows: seq<FormRow>): int
  {
    if rows == [] then 0 else rows[0].price * rows[0].quantity + RowsTotal(rows[1..])
  }

  /** `!item.sku || item.quantity <= 0`. */
  predicate RowIncomplete(r: FormRow)
  {
    r.sku == [] || r.quantity <= 0
  }

  /** `items.some(item => !item.sku || item.quantity <= 0)`. */
  function AnyIncomplete(rows: seq<FormRow>): (b: bool)
    ensures b <==> exists i :: 0 <= i < |rows| && RowIncomplete(rows[i])
  {
    if rows == [] then false else RowIncomplete(rows[0]) || AnyIncomplete(rows[1..])
  }

  /** The rows as posted: `{ sku: item.name, qty: item.quantity, price: item.price }`. */
  function RowsPayload(rows: seq<FormRow>): seq<SkuLine>
  {
    seq(|rows|, i requires 0 <= i < |rows| => SkuLine(rows[i].name, rows[i].quantity, rows[i].price))
  }

  /** Row ids come from the counter: each lies in [1, next) and they
      increase along the list, so no two rows share one. */
  predicate RowIdsValid(rows: seq<FormRow>, next: int)
  {
    1 <= next
    && (forall i :: 0 <= i < |rows| ==> 1 <= rows[i].id < next)
    && (forall i, j :: 0 <= i < j < |rows| ==> rows[i].id < rows[j].id)
  }

  /** Appending a blank row under the counter and then bumping the counter
      keeps the ids valid; the new row is the only one with that id. */
  lemma AddRowSpec(rows: seq<FormRow>, next: int)
    requires RowIdsValid(rows, next)
    ensures RowIdsValid(rows + [BlankRow(next)], next + 1)
    ensures forall i :: 0 <= i < |rows| ==> rows[i].id != next
    ensures (rows + [BlankRow(next)])[|rows|] == FormRow(next, "", "", 0, 1)
  {
  }

  /** A change touches only the row with that id and no row's id, so the
      ids stay valid. A known menu id copies the menu price and slugged
      name; an unknown one changes the selection only. */
  lemma ChangeRowSpec(rows: seq<FormRow>, id: int, edit: FieldEdit, menu: seq<MenuItem>)
    ensures |ChangeRow(rows, id, edit, menu)| == |rows|
    ensures forall i :: 0 <= i < |rows| ==>
      ChangeRow(rows, id, edit, menu)[i].id == rows[i].id
      && (rows[i].id != id ==> ChangeRow(rows, id, edit, menu)[i] == rows[i])
    ensures forall next :: RowIdsValid(rows, next) ==> RowIdsValid(ChangeRow(rows, id, edit, menu), next)
    ensures edit.SkuEdit? ==> forall i :: 0 <= i < |rows| && rows[i].id == id ==>
      var r := ChangeRow(rows, id, edit, menu)[i];
      r.sku == edit.sku && r.quantity == rows[i].quantity
      && (forall m :: m in menu && m.id == edit.sku && LookupMenu(menu, edit.sku) == Some(m) ==>
            r.price == m.price && r.name == Slug(m.name))
      && ((forall j :: 0 <= j < |menu| ==> menu[j].id != edit.sku) ==>
            r.name == rows[i].name && r.price == rows[i].price)
    ensures edit.QuantityEdit? ==> forall i :: 0 <= i < |rows| && rows[i].id == id ==>
      ChangeRow(rows, id, edit, menu)[i] == rows[i].(quantity := edit.quantity)
  {
  }

  /** Some row carries this id. */
  predicate HasRow(rows: seq<FormRow>, id: int)
  {
    exists i :: 0 <= i < |rows| && rows[i].id == id
  }

  lemma TailIdsValid(rows: seq<FormRow>, next: int)
    requires rows != [] && RowIdsValid(rows, next)
    ensures RowIdsValid(rows[1..], next)
    ensures forall k :: 0 <= k < |rows[1..]| ==> rows[0].id < rows[1..][k].id
  {
    var tail := rows[1..];
    forall i | 0 <= i < |tail| ensures 1 <= tail[i].id < next && rows[0].id < tail[i].id {
      assert tail[i] == rows[i + 1];
    }
    forall i, j | 0 <= i < j < |tail| ensures tail[i].id < tail[j].id {
      assert tail[i] == rows[i + 1] && tail[j] == rows[j + 1];
    }
  }

  /** Removal keeps the remaining ids valid. */
  lemma {:induction false} RemoveRowValid(rows: seq<FormRow>, id: int, next: int)
    requires RowIdsValid(rows, next)
    ensures RowIdsValid(RemoveRow(rows, id), next)
  {
    if rows != [] {
      var tail := rows[1..];
      TailIdsValid(rows, next);
      RemoveRowValid(tail, id, next);
      var rest := RemoveRow(tail, id);
      if rows[0].id != id {
        forall k | 0 <= k < |rest| ensures rows[0].id < rest[k].id {
          var j :| 0 <= j < |tail| && tail[j] == rest[k];
        }
        ConsIdsValid(rows[0], rest, next);
        assert RemoveRow(rows, id) == [rows[0]] + rest;
      } else {
        assert RemoveRow(rows, id) == rest;
      }
    }
  }

  lemma ConsIdsValid(row: FormRow, rest: seq<FormRow>, next: int)
    requires RowIdsValid(rest, next) && 1 <= row.id < next
    requires forall k :: 0 <= k < |rest| ==> row.id < rest[k].id
    ensures RowIdsValid([row] + rest, next)
  {
    var r := [row] + rest;
    forall i, j | 0 <= i < j < |r| ensures r[i].id < r[j].id {
      assert r[j] == rest[j - 1];
      if i > 0 {
        assert r[i] == rest[i - 1];
      }
    }
  }

  /** Removal drops exactly the row with that id, keeping the other rows in
      their order, and an id no row carries changes nothing. */
  lemma {:induction false} RemoveRowSpec(rows: seq<FormRow>, id: int, next: int)
    requires RowIdsValid(rows, next)
    ensures forall r :: r in RemoveRow(rows, id) <==> r in rows && r.id != id
    ensures HasRow(rows, id) ==> |RemoveRow(rows, id)| == |rows| - 1
    ensures !HasRow(rows, id) ==> RemoveRow(rows, id) == rows
  {
    if !HasRow(rows, id) {
      FilterAllPass(OtherRow(id), rows);
    } else {
      var tail := rows[1..];
      TailIdsValid(rows, next);
      if rows[0].id == id {
        assert !HasRow(tail, id);
        FilterAllPass(OtherRow(id), tail);
      } else {
        var i :| 0 <= i < |rows| && rows[i].id == id;
        assert tail[i - 1].id == id;
        RemoveRowSpec(tail, id, next);
      }
      assert RemoveRow(rows, id) == (if rows[0].id != id then [rows[0]] else []) + RemoveRow(tail, id);
    }
  }

  /** One payload entry per row, in row order, and the entries sum to the
      dialog's total. */
  lemma {:induction false} RowsPayloadSpec(rows: seq<FormRow>)
    ensures |RowsPayload(rows)| == |rows|
    ensures forall i :: 0 <= i < |rows| ==>
      RowsPayload(rows)[i] == SkuLine(rows[i].name, rows[i].quantity, rows[i].price)
    ensures LinesTotal(RowsPayload(rows)) == RowsTotal(rows)
  {
    if rows != [] {
      RowsPayloadSpec(rows[1..]);
      assert RowsPayload(rows)[1..] == RowsPayload(rows[1..]);
    }
  }

  /** The create dialog's `isSubmitDisabled`. */
  predicate CreateSubmitDisabled(name: string, phone: string, rows: seq<FormRow>, submitting: bool)
  {
    CustomerIncomplete(name, phone) || |rows| == 0 || AnyIncomplete(rows) || submitting
  }

  /** The add-items dialog's `isSubmitDisabled`. */
  predicate AddItemsSubmitDisabled(rows: seq<FormRow>, submitting: bool)
  {
    |rows| == 0 || AnyIncomplete(rows) || submitting
  }

  /** An enabled submit in either dialog posts at least one line, every
      line with a positive quantity and a selected menu id; the create
      dialog's also needs the add-items conditions and a complete customer. */
  lemma SubmitEnabledSpec(name: string, phone: string, rows: seq<FormRow>, submitting: bool)
    ensures !AddItemsSubmitDisabled(rows, submitting) ==>
      |RowsPayload(rows)| > 0 && forall i :: 0 <= i < |rows| ==> rows[i].sku != [] && RowsPayload(rows)[i].qty > 0
    ensures !CreateSubmitDisabled(name, phone, rows, submitting) <==>
      !AddItemsSubmitDisabled(rows, submitting) && !CustomerIncomplete(name, phone)
  {
  }

  /** The create dialog's post succeeded: status 200 and a truthy token. */
  predicate CreateAccepted(status: int, token: Option<string>)
  {
    status == 200 && Truthy(token)
  }

  class CreateDialog {
    const menuData: seq<MenuItem>
    var isOpen: bool
    var customerName: string
    var customerPhone: string
    var items: seq<FormRow>
    var nextItemId: int
    var isSubmitting: bool

    predicate Valid()
      reads this
    {
      RowIdsValid(items, nextItemId)
    }

    constructor(menuData: seq<MenuItem>, isOpen: bool)
      ensures this.menuData == menuData && this.isOpen == isOpen
      ensures customerName == [] && customerPhone == [] && items == [] && nextItemId == 1 && !isSubmitting
      ensures Valid()
    {
      this.menuData := menuData;
      this.isOpen := isOpen;
      customerName := [];
      customerPhone := [];
      items := [];
      nextItemId := 1;
      isSubmitting := false;
    }

    /** `setIsOpen` with the effect that resets the form when `isOpen`
        changes to true; setting the same value again runs no effect. */
    method SetOpen(open: bool)
      modifies this`isOpen, this`customerName, this`customerPhone, this`items, this`nextItemId
      requires Valid()
      ensures isOpen == open && Valid()
      ensures open && !old(isOpen) ==> customerName == [] && customerPhone == [] && items == [] && nextItemId == 1
      ensures !(open && !old(isOpen)) ==>
        customerName == old(customerName) && customerPhone == old(customerPhone)
        && items == old(items) && nextItemId == old(nextItemId)
    {
      var opening := open && !isOpen;
      isOpen := open;
      if opening {
        customerName := [];
        customerPhone := [];
        items := [];
        nextItemId := 1;
      }
    }

    method AddRow()
      requires Valid()
      modifies this`items, this`nextItemId
      ensures items == old(items) + [BlankRow(old(nextItemId))] && nextItemId == old(nextItemId) + 1
      ensures Valid()
    {
      AddRowSpec(items, nextItemId);
      items := items + [BlankRow(nextItemId)];
      nextItemId := nextItemId + 1;
    }

    method ChangeItem(id: int, edit: FieldEdit)
      requires Valid()
      modifies this`items
      ensures items == ChangeRow(old(items), id, edit, menuData)
      ensures Valid()
    {
      ChangeRowSpec(items, id, edit, menuData);
      items := ChangeRow(items, id, edit, menuData);
    }

    method RemoveItem(id: int)
      requires Valid()
      modifies this`items
      ensures items == RemoveRow(old(items), id)
      ensures Valid()
    {
      RemoveRowValid(items, id, nextItemId);
      items := RemoveRow(items, id);
    }

    /** The name field has no guard. */
    method EditName(typed: string)
      modifies this`customerName
      ensures customerName == typed
    {
      customerName := typed;
    }

    method EditPhone(typed: string)
      modifies this`customerPhone
      ensures customerPhone == Text.EditPhone(old(customerPhone), typed)
    {
      customerPhone := Text.EditPhone(customerPhone, typed);
    }

    /** `handleSubmit`: the rows and the customer with the country code,
        with no payment method; the dialog closes only when the response
        is 200 with a token. */
    method Submit(status: int, token: Option<string>) returns (payload: Payload)
      modifies this`isSubmitting, this`isOpen
      ensures payload == Payload(RowsPayload(items), Customer(customerName, WithCountryCode(customerPhone)), None)
      ensures LinesTotal(payload.items) == RowsTotal(items)
      ensures isOpen == (old(isOpen) && !CreateAccepted(status, token))
      ensures !isSubmitting
    {
      isSubmitting := true;
      payload := Payload(RowsPayload(items), Customer(customerName, WithCountryCode(customerPhone)), None);
      RowsPayloadSpec(items);
      if status == 200 && token.Some? && token.value != [] {
        isOpen := false;
      }
      isSubmitting := false;
    }
  }

  /** What `updateOrderItems` is called with. */
  datatype AddItemsRequest = AddItemsRequest(orderId: string, customer: Customer, items: seq<SkuLine>)

  class AddItemsDialog {
    const menuData: seq<MenuItem>
    const order: Order
    var isOpen: bool
    var items: seq<FormRow>
    var nextItemId: int
    var isSubmitting: bool

    predicate Valid()
      reads this
    {
      RowIdsValid(items, nextItemId)
    }

    constructor(menuData: seq<MenuItem>, order: Order, isOpen: bool)
      ensures this.menuData == menuData && this.order == order && this.isOpen == isOpen
      ensures items == [] && nextItemId == 1 && !isSubmitting
      ensures Valid()
    {
      this.menuData := menuData;
      this.order := order;
      this.isOpen := isOpen;
      items := [];
      nextItemId := 1;
      isSubmitting := false;
    }

    method SetOpen(open: bool)
      modifies this`isOpen, this`items, this`nextItemId
      requires Valid()
      ensures isOpen == open && Valid()
      ensures open && !old(isOpen) ==> items == [] && nextItemId == 1
      ensures !(open && !old(isOpen)) ==> items == old(items) && nextItemId == old(nextItemId)
    {
      var opening := open && !isOpen;
      isOpen := open;
      if opening {
        items := [];
        nextItemId := 1;
      }
    }

    method AddRow()
      requires Valid()
      modifies this`items, this`nextItemId
      ensures items == old(items) + [BlankRow(old(nextItemId))] && nextItemId == old(nextItemId) + 1
      ensures Valid()
    {
      AddRowSpec(items, nextItemId);
      items := items + [BlankRow(nextItemId)];
      nextItemId := nextItemId + 1;
    }

    method ChangeItem(id: int, edit: FieldEdit)
      requires Valid()
      modifies this`items
      ensures items == ChangeRow(old(items), id, edit, menuData)
      ensures Valid()
    {
      ChangeRowSpec(items, id, edit, menuData);
      items := ChangeRow(items, id, edit, menuData);
    }

    method RemoveItem(id: int)
      requires Valid()
      modifies this`items
      ensures items == RemoveRow(old(items), id)
      ensures Valid()
    {
      RemoveRowValid(items, id, nextItemId);
      items := RemoveRow(items, id);
    }

    /** `handleSubmit`: the new rows for this order with its stored
        customer; the dialog closes only when the update succeeds. */
    method Submit(success: bool) returns (request: AddItemsRequest)
      modifies this`isSubmitting, this`isOpen
      ensures request == AddItemsRequest(order.id, Customer(order.customerName, order.customerPhone), RowsPayload(items))
      ensures LinesTotal(request.items) == RowsTotal(items)
      ensures isOpen == (old(isOpen) && !success)
      ensures !isSubmitting
    {
      isSubmitting := true;
      request := AddItemsRequest(order.id, Customer(order.customerName, order.customerPhone), RowsPayload(items));
      RowsPayloadSpec(items);
      if success {
        isOpen := false;
      }
      isSubmitting := false;
    }
  }
}
