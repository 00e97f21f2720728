/** The order-edit dialog of src/components/UpdateOrderDialog.tsx: the
    editable lines of an existing order, the rules that protect lines the
    kitchen has already served, change detection against the lines the
    dialog opened with, and the payload sent on submit. */
module UpdateOrder {
  import opened Types
  import opened Seqs

  /** The menu id given to an order line whose name matches no menu item. */
  const UnknownItem: string := "unknown-item"
  const MenuLoadError: string := "Could not load the menu. Please try again."
  const AllCategory: string := "All"

  /** An order line being edited, with the menu item it belongs to and the
      quantity it had when the dialog opened. */
  datatype CurrentItem = CurrentItem(line: OrderItem, menuItemId: string, initialQty: int)

  /** `item.served` read as a condition: only an explicit `true` counts. */
  predicate Served(c: CurrentItem)
  {
    c.line.served == Some(true)
  }

  predicate MenuIdsDistinct(items: seq<CurrentItem>)
  {
    forall i, j :: 0 <= i < j < |items| ==> items[i].menuItemId != items[j].menuItemId
  }

  function NameIs(name: string): MenuItem -> bool
  {
    (mi: MenuItem) => mi.name == name
  }

  function MenuIdIs(mid: string): CurrentItem -> bool
  {
    (c: CurrentItem) => c.menuItemId == mid
  }

  function OtherMenuId(mid: string): CurrentItem -> bool
  {
    (c: CurrentItem) => c.menuItemId != mid
  }

  // ---------------------------------------------------------------------
  // Opening the dialog

  /** The id of the first menu item with this name, or the sentinel. */
  function MenuIdFor(menu: seq<MenuItem>, name: string): string
  {
    var k := FindIndex(NameIs(name), menu);
    if k >= 0 then menu[k].id else UnknownItem
  }

  function ToCurrent(menu: seq<MenuItem>, it: OrderItem): CurrentItem
  {
    CurrentItem(it, MenuIdFor(menu, it.name), it.quantity)
  }

  function ToCurrentAll(menu: seq<MenuItem>, items: seq<OrderItem>): seq<CurrentItem>
  {
    seq(|items|, i requires 0 <= i < |items| => ToCurrent(menu, items[i]))
  }

  function Known(): CurrentItem -> bool
  {
    (c: CurrentItem) => c.menuItemId != UnknownItem
  }

  /** An order line that `initializeItems` keeps. */
  function Matched(menu: seq<MenuItem>): OrderItem -> bool
  {
    (it: OrderItem) => MenuIdFor(menu, it.name) != UnknownItem
  }

  /** `initializeItems`: map every order line to its menu item, then drop
      the lines that found none. */
  function InitializeItems(menu: seq<MenuItem>, items: seq<OrderItem>): seq<CurrentItem>
  {
    Filter(Known(), ToCurrentAll(menu, items))
  }

  lemma ToCurrentAllConcat(menu: seq<MenuItem>, a: seq<OrderItem>, b: seq<OrderItem>)
    ensures ToCurrentAll(menu, a + b) == ToCurrentAll(menu, a) + ToCurrentAll(menu, b)
  {
  }

  /** Mapping then filtering is filtering then mapping: the dialog keeps,
      in their order, exactly the order lines whose name matches a menu
      item. */
  lemma {:induction false} InitializeItemsSpec(menu: seq<MenuItem>, items: seq<OrderItem>)
    ensures InitializeItems(menu, items) == ToCurrentAll(menu, Filter(Matched(menu), items))
  {
    if items != [] {
      var x, rest := items[0], items[1..];
      var c := ToCurrent(menu, x);
      var head := if Matched(menu)(x) then [x] else [];
      var kept := if Known()(c) then [c] else [];
      assert Known()(c) == Matched(menu)(x);
      assert ToCurrentAll(menu, head) == kept;
      calc {
        InitializeItems(menu, items);
        { assert items == [x] + rest; ToCurrentAllConcat(menu, [x], rest); }
        Filter(Known(), [c] + ToCurrentAll(menu, rest));
        { FilterCons(Known(), c, ToCurrentAll(menu, rest)); }
        kept + InitializeItems(menu, rest);
        { InitializeItemsSpec(menu, rest); }
        ToCurrentAll(menu, head) + ToCurrentAll(menu, Filter(Matched(menu), rest));
        { ToCurrentAllConcat(menu, head, Filter(Matched(menu), rest)); }
        ToCurrentAll(menu, head + Filter(Matched(menu), rest));
        { assert items == [x] + rest; FilterCons(Matched(menu), x, rest); }
        ToCurrentAll(menu, Filter(Matched(menu), items));
      }
    }
  }

  /** Each kept line carries the id of the first menu item with its name
      (never the sentinel) and its quantity as the initial quantity. */
  lemma InitializeItemsFields(menu: seq<MenuItem>, items: seq<OrderItem>)
    ensures forall c :: c in InitializeItems(menu, items) ==>
      c.line in items && c.initialQty == c.line.quantity
      && c.menuItemId == MenuIdFor(menu, c.line.name) && c.menuItemId != UnknownItem
  {
    InitializeItemsSpec(menu, items);
    var f := Filter(Matched(menu), items);
    forall c | c in InitializeItems(menu, items)
      ensures c.line in items && c.initialQty == c.line.quantity
      ensures c.menuItemId == MenuIdFor(menu, c.line.name)
    {
      var k :| 0 <= k < |f| && ToCurrentAll(menu, f)[k] == c;
      assert c.line == f[k];
    }
  }

  /** With distinct menu ids, two different names never resolve to the
      same menu item. */
  lemma MenuIdForDistinct(menu: seq<MenuItem>, a: string, b: string)
    requires forall i, j :: 0 <= i < j < |menu| ==> menu[i].id != menu[j].id
    requires a != b && MenuIdFor(menu, a) != UnknownItem
    ensures MenuIdFor(menu, a) != MenuIdFor(menu, b)
  {
    var ka := FindIndex(NameIs(a), menu);
    var kb := FindIndex(NameIs(b), menu);
    if kb >= 0 {
      assert menu[ka].name == a && menu[kb].name == b;
      if ka < kb {
        assert menu[ka].id != menu[kb].id;
      } else {
        assert menu[kb].id != menu[ka].id;
      }
    }
  }

  /** A line in front of lines with other menu ids keeps the ids distinct. */
  lemma ConsMenuIdsDistinct(c: CurrentItem, tail: seq<CurrentItem>)
    requires MenuIdsDistinct(tail)
    requires forall d :: d in tail ==> d.menuItemId != c.menuItemId
    ensures MenuIdsDistinct([c] + tail)
  {
    var s := [c] + tail;
    forall i, j | 0 <= i < j < |s| ensures s[i].menuItemId != s[j].menuItemId
    {
      assert s[j] == tail[j - 1];
      if i > 0 {
        assert s[i] == tail[i - 1];
      }
    }
  }

  /** When the order's line names are distinct and so are the menu's ids,
      the dialog opens with at most one line per menu item, which is what
      the edit operations assume. */
  lemma {:induction false} InitializeItemsDistinct(menu: seq<MenuItem>, items: seq<OrderItem>)
    requires forall i, j :: 0 <= i < j < |items| ==> items[i].name != items[j].name
    requires forall i, j :: 0 <= i < j < |menu| ==> menu[i].id != menu[j].id
    ensures MenuIdsDistinct(InitializeItems(menu, items))
  {
    if items != [] {
      var x, rest := items[0], items[1..];
      var c := ToCurrent(menu, x);
      var tail := InitializeItems(menu, rest);
      assert forall i, j :: 0 <= i < j < |rest| ==> rest[i].name != rest[j].name by {
        forall i, j | 0 <= i < j < |rest| ensures rest[i].name != rest[j].name {
          assert rest[i] == items[i + 1] && rest[j] == items[j + 1];
        }
      }
      InitializeItemsDistinct(menu, rest);
      assert items == [x] + rest;
      ToCurrentAllConcat(menu, [x], rest);
      assert ToCurrentAll(menu, [x]) == [c];
      FilterCons(Known(), c, ToCurrentAll(menu, rest));
      if Known()(c) {
        InitializeItemsFields(menu, rest);
        forall d | d in tail ensures d.menuItemId != c.menuItemId
        {
          var m :| 0 <= m < |rest| && rest[m] == d.line;
          assert items[m + 1] == d.line;
          MenuIdForDistinct(menu, x.name, d.line.name);
        }
        ConsMenuIdsDistinct(c, tail);
      }
    }
  }

  // ---------------------------------------------------------------------
  // Editing

  /** The line added for a menu item not yet in the order. */
  function NewItem(m: MenuItem, q: int, freshId: string): CurrentItem
  {
    CurrentItem(OrderItem(freshId, m.name, q, m.price, Some(false), Some(q), Some(0)), m.id, 0)
  }

  /** `updateItemQuantity`, applied to the current lines. The first line of
      the menu item is the one touched; `freshId` stands for the random
      temporary id. */
  function WithQuantity(items: seq<CurrentItem>, m: MenuItem, q: int, freshId: string): seq<CurrentItem>
  {
    var k := FindIndex(MenuIdIs(m.id), items);
    if k >= 0 then
      var e := items[k];
      if Served(e) && q < e.line.quantity then items
      else if q <= 0 then (if Served(e) then items else items[..k] + items[k + 1..])
      else items[k := e.(line := e.line.(quantity := q))]
    else if q > 0 then items + [NewItem(m, q, freshId)]
    else items
  }

  /** `after` is `before` with at most its quantity raised. */
  predicate KeptNotLowered(after: CurrentItem, before: CurrentItem)
  {
    after.menuItemId == before.menuItemId && after.initialQty == before.initialQty
    && after.line == before.line.(quantity := after.line.quantity)
    && after.line.quantity >= before.line.quantity
  }

  lemma UpdateKeepsServedAt(items: seq<CurrentItem>, m: MenuItem, q: int, freshId: string, i: nat)
    requires i < |items| && Served(items[i])
    ensures exists j ::
      0 <= j < |WithQuantity(items, m, q, freshId)| && KeptNotLowered(WithQuantity(items, m, q, freshId)[j], items[i])
  {
    var r := WithQuantity(items, m, q, freshId);
    var k := FindIndex(MenuIdIs(m.id), items);
    if k >= 0 {
      var e := items[k];
      if Served(e) && q < e.line.quantity {
        assert r[i] == items[i];
      } else if q <= 0 {
        if Served(e) {
          assert r[i] == items[i];
        } else {
          assert r == items[..k] + items[k + 1..];
          var j := if i < k then i else i - 1;
          assert r[j] == items[i];
        }
      } else {
        assert r == items[k := e.(line := e.line.(quantity := q))];
        assert KeptNotLowered(r[i], items[i]);
      }
    } else {
      assert r[i] == items[i];
    }
  }

  /** A served line is never removed and its quantity never goes down. */
  lemma UpdateKeepsServed(items: seq<CurrentItem>, m: MenuItem, q: int, freshId: string)
    ensures forall i :: 0 <= i < |items| && Served(items[i]) ==>
      exists j ::
        0 <= j < |WithQuantity(items, m, q, freshId)| && KeptNotLowered(WithQuantity(items, m, q, freshId)[j], items[i])
  {
    forall i | 0 <= i < |items| && Served(items[i])
      ensures exists j ::
        0 <= j < |WithQuantity(items, m, q, freshId)| && KeptNotLowered(WithQuantity(items, m, q, freshId)[j], items[i])
    {
      UpdateKeepsServedAt(items, m, q, freshId, i);
    }
  }

  /** For the first line of an unserved menu item: a quantity of 0 or less
      removes that line and shifts the later ones down; a positive one sets
      its quantity. No other line changes. */
  lemma UpdateUnserved(items: seq<CurrentItem>, m: MenuItem, q: int, freshId: string, k: nat)
    requires k < |items| && items[k].menuItemId == m.id && !Served(items[k])
    requires forall j :: 0 <= j < k ==> items[j].menuItemId != m.id
    ensures q <= 0 ==>
      |WithQuantity(items, m, q, freshId)| == |items| - 1
      && (forall j :: 0 <= j < k ==> WithQuantity(items, m, q, freshId)[j] == items[j])
      && (forall j :: k < j < |items| ==> WithQuantity(items, m, q, freshId)[j - 1] == items[j])
    ensures q > 0 ==>
      |WithQuantity(items, m, q, freshId)| == |items|
      && WithQuantity(items, m, q, freshId)[k] == items[k].(line := items[k].line.(quantity := q))
      && (forall j :: 0 <= j < |items| && j != k ==> WithQuantity(items, m, q, freshId)[j] == items[j])
  {
    assert FindIndex(MenuIdIs(m.id), items) == k;
  }

  /** For a menu item with no line: a positive quantity appends one unserved
      line with initial quantity 0; otherwise nothing changes. */
  lemma UpdateAbsent(items: seq<CurrentItem>, m: MenuItem, q: int, freshId: string)
    requires forall j :: 0 <= j < |items| ==> items[j].menuItemId != m.id
    ensures q > 0 ==>
      WithQuantity(items, m, q, freshId) == items + [NewItem(m, q, freshId)]
      && NewItem(m, q, freshId).line.served == Some(false) && NewItem(m, q, freshId).initialQty == 0
      && NewItem(m, q, freshId).line.quantity == q && NewItem(m, q, freshId).menuItemId == m.id
      && NewItem(m, q, freshId).line.price == m.price && NewItem(m, q, freshId).line.name == m.name
    ensures q <= 0 ==> WithQuantity(items, m, q, freshId) == items
  {
    assert FindIndex(MenuIdIs(m.id), items) == -1;
  }

  /** Editing never gives two lines the same menu item. */
  lemma UpdateKeepsDistinct(items: seq<CurrentItem>, m: MenuItem, q: int, freshId: string)
    requires MenuIdsDistinct(items)
    ensures MenuIdsDistinct(WithQuantity(items, m, q, freshId))
  {
    var k := FindIndex(MenuIdIs(m.id), items);
    var r := WithQuantity(items, m, q, freshId);
    if k >= 0 && !(Served(items[k]) && q < items[k].line.quantity) && q <= 0 && !Served(items[k]) {
      forall i, j | 0 <= i < j < |r| ensures r[i].menuItemId != r[j].menuItemId {
        var i' := if i < k then i else i + 1;
        var j' := if j < k then j else j + 1;
        assert r[i] == items[i'] && r[j] == items[j'];
      }
    }
  }

  /** `handleRemoveItem`: when the first line of that menu item is served
      nothing changes; otherwise every line of the menu item goes. */
  function WithoutItem(items: seq<CurrentItem>, mid: string): seq<CurrentItem>
  {
    var k := FindIndex(MenuIdIs(mid), items);
    if k >= 0 && Served(items[k]) then items else Filter(OtherMenuId(mid), items)
  }

  /** Removal either keeps everything (a served first line) or drops the
      lines of that menu item and keeps every other line; with one line per
      menu item a served line is never dropped. */
  lemma RemoveItemSpec(items: seq<CurrentItem>, mid: string)
    ensures (exists k :: 0 <= k < |items| && items[k].menuItemId == mid && Served(items[k])
              && forall j :: 0 <= j < k ==> items[j].menuItemId != mid)
      ==> WithoutItem(items, mid) == items
    ensures FirstLineUnserved(items, mid) ==> WithoutItem(items, mid) == Filter(OtherMenuId(mid), items)
    ensures WithoutItem(items, mid) != items ==>
      (forall c :: c in WithoutItem(items, mid) ==> c.menuItemId != mid && c in items)
      && (forall i :: 0 <= i < |items| && items[i].menuItemId != mid ==> items[i] in WithoutItem(items, mid))
    ensures MenuIdsDistinct(items) ==>
      forall i :: 0 <= i < |items| && Served(items[i]) ==> items[i] in WithoutItem(items, mid)
    ensures MenuIdsDistinct(items) ==> MenuIdsDistinct(WithoutItem(items, mid))
  {
    ServedFirstKept(items, mid);
    UnservedFirstRemoves(items, mid);
    RemovedLines(items, mid);
    if MenuIdsDistinct(items) {
      FilterKeepsDistinct(OtherMenuId(mid), items);
      DistinctKeepsServed(items, mid);
    }
  }

  lemma ServedFirstKept(items: seq<CurrentItem>, mid: string)
    ensures (exists k :: 0 <= k < |items| && items[k].menuItemId == mid && Served(items[k])
              && forall j :: 0 <= j < k ==> items[j].menuItemId != mid)
      ==> WithoutItem(items, mid) == items
  {
    if exists k :: 0 <= k < |items| && items[k].menuItemId == mid && Served(items[k])
        && forall j :: 0 <= j < k ==> items[j].menuItemId != mid {
      var k :| 0 <= k < |items| && items[k].menuItemId == mid && Served(items[k])
        && forall j :: 0 <= j < k ==> items[j].menuItemId != mid;
      assert MenuIdIs(mid)(items[k]);
      assert FindIndex(MenuIdIs(mid), items) == k;
    }
  }

  /** The first line of the menu item, if there is one, is not served. */
  predicate FirstLineUnserved(items: seq<CurrentItem>, mid: string)
  {
    forall k ::
      (0 <= k < |items| && items[k].menuItemId == mid && forall j :: 0 <= j < k ==> items[j].menuItemId != mid)
      ==> !Served(items[k])
  }

  lemma UnservedFirstRemoves(items: seq<CurrentItem>, mid: string)
    ensures FirstLineUnserved(items, mid) ==> WithoutItem(items, mid) == Filter(OtherMenuId(mid), items)
  {
    var k := FindIndex(MenuIdIs(mid), items);
    if k >= 0 {
      assert items[k].menuItemId == mid;
    }
  }

  lemma RemovedLines(items: seq<CurrentItem>, mid: string)
    ensures WithoutItem(items, mid) != items ==>
      (forall c :: c in WithoutItem(items, mid) ==> c.menuItemId != mid && c in items)
      && (forall i :: 0 <= i < |items| && items[i].menuItemId != mid ==> items[i] in WithoutItem(items, mid))
  {
    var r := WithoutItem(items, mid);
    if r != items {
      assert r == Filter(OtherMenuId(mid), items);
      forall c | c in r ensures c.menuItemId != mid && c in items {
        var i :| 0 <= i < |r| && r[i] == c;
        assert OtherMenuId(mid)(r[i]);
      }
      forall i | 0 <= i < |items| && items[i].menuItemId != mid ensures items[i] in r {
        assert OtherMenuId(mid)(items[i]);
      }
    }
  }

  lemma DistinctKeepsServed(items: seq<CurrentItem>, mid: string)
    requires MenuIdsDistinct(items)
    ensures forall i :: 0 <= i < |items| && Served(items[i]) ==> items[i] in WithoutItem(items, mid)
  {
    var k := FindIndex(MenuIdIs(mid), items);
    forall i | 0 <= i < |items| && Served(items[i]) ensures items[i] in WithoutItem(items, mid) {
      if items[i].menuItemId == mid {
        assert MenuIdIs(mid)(items[i]);
        assert k == i;
      } else {
        assert OtherMenuId(mid)(items[i]);
      }
    }
  }

  lemma {:induction false} FilterKeepsDistinct(f: CurrentItem -> bool, items: seq<CurrentItem>)
    requires MenuIdsDistinct(items)
    ensures MenuIdsDistinct(Filter(f, items))
  {
    if items != [] {
      FilterKeepsDistinct(f, items[1..]);
      var rest := Filter(f, items[1..]);
      forall c | c in rest ensures c.menuItemId != items[0].menuItemId {
        var j :| 0 <= j < |items[1..]| && items[1..][j] == c;
        assert items[j + 1] == c;
      }
    }
  }

  /** With two lines for one menu item, the second may be served and still
      be removed with the first. */
  lemma RemoveTakesServedDuplicate(a: OrderItem, mid: string)
    ensures
      var first := CurrentItem(a.(served := Some(false)), mid, 1);
      var second := CurrentItem(a.(served := Some(true)), mid, 1);
      Served(second) && WithoutItem([first, second], mid) == []
  {
    var first := CurrentItem(a.(served := Some(false)), mid, 1);
    var second := CurrentItem(a.(served := Some(true)), mid, 1);
    var s := [first, second];
    assert FindIndex(MenuIdIs(mid), s) == 0;
    assert s[1..] == [second] && [second][1..] == [];
    assert Filter(OtherMenuId(mid), [second]) == [];
  }

  /** `totalCost`: Σ price × quantity over the current lines. */
  function TotalCost(items: seq<CurrentItem>): int
  {
    if items == [] then 0 else items[0].line.price * items[0].line.quantity + TotalCost(items[1..])
  }

  // ---------------------------------------------------------------------
  // Change detection

  /** The quantity the `Map` built from `lines` holds for `mid`: the last
      line with that menu item wins. */
  function LastQuantity(lines: seq<CurrentItem>, mid: string): (r: Option<int>)
    ensures r.None? <==> forall i :: 0 <= i < |lines| ==> lines[i].menuItemId != mid
  {
    if lines == [] then None
    else if lines[|lines| - 1].menuItemId == mid then Some(lines[|lines| - 1].line.quantity)
    else LastQuantity(lines[..|lines| - 1], mid)
  }

  /** `haveItemsChanged`: the lengths differ, or some current line's menu
      item is missing from the initial lines or has another quantity there. */
  predicate ItemsChanged(current: seq<CurrentItem>, initial: seq<CurrentItem>)
  {
    |current| != |initial|
    || exists i :: 0 <= i < |current| && LastQuantity(initial, current[i].menuItemId) != Some(current[i].line.quantity)
  }

  lemma {:induction false} LastQuantityDistinct(lines: seq<CurrentItem>, i: nat)
    requires MenuIdsDistinct(lines) && i < |lines|
    ensures LastQuantity(lines, lines[i].menuItemId) == Some(lines[i].line.quantity)
  {
    var n := |lines| - 1;
    if i != n {
      assert lines[..n][i] == lines[i];
      LastQuantityDistinct(lines[..n], i);
    }
  }

  /** Lines compared with themselves show no change when each menu item has
      one line, as right after opening. */
  lemma NoChangeWhenSame(items: seq<CurrentItem>)
    requires MenuIdsDistinct(items)
    ensures !ItemsChanged(items, items)
  {
    forall i | 0 <= i < |items|
      ensures LastQuantity(items, items[i].menuItemId) == Some(items[i].line.quantity)
    {
      LastQuantityDistinct(items, i);
    }
  }

  /** With two lines for one menu item at different quantities, the lines
      compared with themselves count as changed. */
  lemma DuplicateLinesShowChange(a: OrderItem, mid: string)
    ensures ItemsChanged([CurrentItem(a.(quantity := 1), mid, 1), CurrentItem(a.(quantity := 2), mid, 2)],
                         [CurrentItem(a.(quantity := 1), mid, 1), CurrentItem(a.(quantity := 2), mid, 2)])
  {
    var s := [CurrentItem(a.(quantity := 1), mid, 1), CurrentItem(a.(quantity := 2), mid, 2)];
    assert LastQuantity(s, s[0].menuItemId) == Some(2);
  }

  /** `isAnyItemServed`: some initial line is served. */
  function AnyServed(initial: seq<CurrentItem>): (r: bool)
    ensures r <==> exists i :: 0 <= i < |initial| && Served(initial[i])
  {
    if initial == [] then false
    else Served(initial[0]) || AnyServed(initial[1..])
  }

  /** `isSubmitDisabled`. */
  predicate SubmitDisabled(current: seq<CurrentItem>, initial: seq<CurrentItem>, submitting: bool)
  {
    |current| == 0 || submitting || !ItemsChanged(current, initial)
  }

  /** Submit stays disabled until a line differs from the opening state,
      and is enabled when the lengths differ and nothing is in flight. */
  lemma SubmitDisabledSpec(current: seq<CurrentItem>, initial: seq<CurrentItem>, submitting: bool)
    ensures current == initial && MenuIdsDistinct(initial) ==> SubmitDisabled(current, initial, submitting)
    ensures |current| > 0 && !submitting && |current| != |initial| ==> !SubmitDisabled(current, initial, submitting)
  {
    if current == initial && MenuIdsDistinct(initial) {
      NoChangeWhenSame(initial);
    }
  }

  // ---------------------------------------------------------------------
  // Submitting

  /** One entry of `itemsPayload`. */
  datatype PayloadLine = PayloadLine(menuItem: string, qty: int, price: int, served: Option<bool>, initialQty: int)

  /** `updateOrderItems(order.id, { name, phone }, itemsPayload)`. */
  datatype UpdateRequest = UpdateRequest(orderId: string, name: string, phone: string, items: seq<PayloadLine>)

  function PayloadFor(c: CurrentItem, initial: seq<CurrentItem>): PayloadLine
  {
    var k := FindIndex(MenuIdIs(c.menuItemId), initial);
    PayloadLine(
      c.menuItemId, c.line.quantity, c.line.price,
      if k >= 0 then initial[k].line.served else Some(false),
      if k >= 0 then initial[k].initialQty else 0)
  }

  function ItemsPayload(current: seq<CurrentItem>, initial: seq<CurrentItem>): seq<PayloadLine>
  {
    seq(|current|, i requires 0 <= i < |current| => PayloadFor(current[i], initial))
  }

  function PayloadTotal(lines: seq<PayloadLine>): int
  {
    if lines == [] then 0 else lines[0].price * lines[0].qty + PayloadTotal(lines[1..])
  }

  /** One payload entry per current line, in order, carrying its menu item,
      quantity and price; `served` and `initialQty` come from the first
      initial line of the same menu item, or are false and 0 for a line
      added in the dialog. The payload sums to the dialog's total. */
  lemma ItemsPayloadSpec(current: seq<CurrentItem>, initial: seq<CurrentItem>)
    ensures |ItemsPayload(current, initial)| == |current|
    ensures forall i :: 0 <= i < |current| ==>
      ItemsPayload(current, initial)[i].menuItem == current[i].menuItemId
      && ItemsPayload(current, initial)[i].qty == current[i].line.quantity
      && ItemsPayload(current, initial)[i].price == current[i].line.price
    ensures forall i :: 0 <= i < |current| && (forall j :: 0 <= j < |initial| ==> initial[j].menuItemId != current[i].menuItemId) ==>
      ItemsPayload(current, initial)[i].served == Some(false) && ItemsPayload(current, initial)[i].initialQty == 0
    ensures forall i, j ::
      (0 <= i < |current| && 0 <= j < |initial| && initial[j].menuItemId == current[i].menuItemId
       && (forall l :: 0 <= l < j ==> initial[l].menuItemId != current[i].menuItemId)) ==>
      ItemsPayload(current, initial)[i].served == initial[j].line.served
      && ItemsPayload(current, initial)[i].initialQty == initial[j].initialQty
    ensures PayloadTotal(ItemsPayload(current, initial)) == TotalCost(current)
  {
    forall i, j | 0 <= i < |current| && 0 <= j < |initial| && initial[j].menuItemId == current[i].menuItemId
        && (forall l :: 0 <= l < j ==> initial[l].menuItemId != current[i].menuItemId)
      ensures ItemsPayload(current, initial)[i].served == initial[j].line.served
      ensures ItemsPayload(current, initial)[i].initialQty == initial[j].initialQty
    {
      PayloadFromFirst(current[i], initial, j);
    }
    PayloadTotalSpec(current, initial);
  }

  lemma PayloadFromFirst(c: CurrentItem, initial: seq<CurrentItem>, j: nat)
    requires j < |initial| && initial[j].menuItemId == c.menuItemId
    requires forall l :: 0 <= l < j ==> initial[l].menuItemId != c.menuItemId
    ensures PayloadFor(c, initial).served == initial[j].line.served
    ensures PayloadFor(c, initial).initialQty == initial[j].initialQty
  {
    assert MenuIdIs(c.menuItemId)(initial[j]);
    assert FindIndex(MenuIdIs(c.menuItemId), initial) == j;
  }

  lemma {:induction false} PayloadTotalSpec(current: seq<CurrentItem>, initial: seq<CurrentItem>)
    ensures PayloadTotal(ItemsPayload(current, initial)) == TotalCost(current)
  {
    if current != [] {
      PayloadTotalSpec(current[1..], initial);
      assert ItemsPayload(current, initial)[1..] == ItemsPayload(current[1..], initial);
    }
  }

  // ---------------------------------------------------------------------
  // The menu tabs

  /** The default `sort()` order on strings: lexicographic by character. */
  predicate StrLe(a: string, b: string)
  {
    a == [] || (b != [] && (a[0] < b[0] || (a[0] == b[0] && StrLe(a[1..], b[1..]))))
  }

  lemma {:induction false} StrLeTotal(a: string, b: string)
    ensures StrLe(a, b) || StrLe(b, a)
  {
    if a != [] && b != [] && a[0] == b[0] {
      StrLeTotal(a[1..], b[1..]);
    }
  }

  lemma {:induction false} StrLeRefl(a: string)
    ensures StrLe(a, a)
  {
    if a != [] {
      StrLeRefl(a[1..]);
    }
  }

  predicate SortedStrings(s: seq<string>)
  {
    forall i :: 0 < i < |s| ==> StrLe(s[i - 1], s[i])
  }

  /** Place `x` before the first string it does not come after. */
  function InsertString(x: string, s: seq<string>): (r: seq<string>)
    ensures multiset(r) == multiset(s) + multiset{x}
    ensures |r| == |s| + 1
    ensures r[0] == x || (s != [] && r[0] == s[0])
    ensures SortedStrings(s) ==> SortedStrings(r)
  {
    if s == [] || StrLe(x, s[0]) then
      ConsSortedStrings(x, s);
      [x] + s
    else
      StrLeTotal(x, s[0]);
      assert s == [s[0]] + s[1..];
      var rest := InsertString(x, s[1..]);
      ConsSortedStrings(s[0], s[1..]);
      ConsSortedStrings(s[0], rest);
      [s[0]] + rest
  }

  /** A string in front of a sorted list keeps it sorted exactly when it
      does not come after the list's first string. */
  lemma ConsSortedStrings(a: string, t: seq<string>)
    ensures SortedStrings([a] + t) <==> (t == [] || StrLe(a, t[0])) && SortedStrings(t)
  {
    var u := [a] + t;
    if SortedStrings(u) {
      forall i | 0 < i < |t| ensures StrLe(t[i - 1], t[i]) {
        assert u[i] == t[i - 1] && u[i + 1] == t[i];
      }
      if t != [] {
        assert u[0] == a && u[1] == t[0];
      }
    }
    if (t == [] || StrLe(a, t[0])) && SortedStrings(t) {
      forall i | 0 < i < |u| ensures StrLe(u[i - 1], u[i]) {
        if i == 1 {
          assert u[0] == a && u[1] == t[0];
        } else {
          assert u[i - 1] == t[i - 2] && u[i] == t[i - 1];
        }
      }
    }
  }

  /** `uniqueCategories.sort()`. */
  function SortStrings(s: seq<string>): (r: seq<string>)
    ensures multiset(r) == multiset(s)
    ensures SortedStrings(r)
  {
    if s == [] then []
    else
      assert s == [s[0]] + s[1..];
      InsertString(s[0], SortStrings(s[1..]))
  }

  lemma {:induction false} InsertStringDistinct(x: string, s: seq<string>)
    requires NoDuplicates(s) && x !in s
    ensures NoDuplicates(InsertString(x, s))
  {
    if s != [] && !StrLe(x, s[0]) {
      DistinctTail(s);
      InsertStringDistinct(x, s[1..]);
      var rest := InsertString(x, s[1..]);
      assert s[0] !in rest by {
        assert s[0] != x;
        assert multiset(rest)[s[0]] == multiset(s[1..])[s[0]];
      }
      ConsDistinct(s[0], rest);
      assert InsertString(x, s) == [s[0]] + rest;
    } else if s != [] {
      ConsDistinct(x, s);
    }
  }

  /** Sorting a list without duplicates gives a list without duplicates. */
  lemma {:induction false} SortStringsDistinct(s: seq<string>)
    requires NoDuplicates(s)
    ensures NoDuplicates(SortStrings(s))
  {
    if s != [] {
      DistinctTail(s);
      SortStringsDistinct(s[1..]);
      assert s[0] !in SortStrings(s[1..]) by {
        assert multiset(SortStrings(s[1..]))[s[0]] == multiset(s[1..])[s[0]];
      }
      InsertStringDistinct(s[0], SortStrings(s[1..]));
    }
  }

  function Categories(menu: seq<MenuItem>): seq<string>
  {
    seq(|menu|, i requires 0 <= i < |menu| => menu[i].category)
  }

  /** `['All', ...uniqueCategories]` after the sort. */
  function CategoryTabs(menu: seq<MenuItem>): seq<string>
  {
    [AllCategory] + SortStrings(Dedupe(Categories(menu)))
  }

  /** The tabs start with "All", then list every category of the menu once,
      in sorted order, and nothing else. */
  lemma CategoryTabsSpec(menu: seq<MenuItem>)
    ensures CategoryTabs(menu)[0] == AllCategory
    ensures SortedStrings(CategoryTabs(menu)[1..]) && NoDuplicates(CategoryTabs(menu)[1..])
    ensures forall c :: c in CategoryTabs(menu)[1..] <==> exists i :: 0 <= i < |menu| && menu[i].category == c
  {
    var d := Dedupe(Categories(menu));
    assert CategoryTabs(menu)[1..] == SortStrings(d);
    SortStringsDistinct(d);
    SortStringsMembers(d);
    DedupeCategories(menu);
  }

  /** Sorting keeps exactly the strings that were there. */
  lemma SortStringsMembers(s: seq<string>)
    ensures forall c :: c in SortStrings(s) <==> c in s
  {
    forall c ensures c in SortStrings(s) <==> c in s {
      assert c in SortStrings(s) <==> c in multiset(SortStrings(s));
      assert c in s <==> c in multiset(s);
    }
  }

  /** The de-duplicated categories are exactly the categories of the menu. */
  lemma DedupeCategories(menu: seq<MenuItem>)
    ensures forall c :: c in Dedupe(Categories(menu)) <==> exists i :: 0 <= i < |menu| && menu[i].category == c
  {
    var cats := Categories(menu);
    forall c ensures c in Dedupe(cats) <==> exists i :: 0 <= i < |menu| && menu[i].category == c {
      if c in Dedupe(cats) {
        var k :| 0 <= k < |Dedupe(cats)| && Dedupe(cats)[k] == c;
        var i :| 0 <= i < |cats| && cats[i] == c;
      }
      if exists i :: 0 <= i < |menu| && menu[i].category == c {
        var i :| 0 <= i < |menu| && menu[i].category == c;
        assert cats[i] == c;
      }
    }
  }

  function CategoryIs(c: string): MenuItem -> bool
  {
    (mi: MenuItem) => mi.category == c
  }

  /** `filteredMenuItems`. */
  function FilteredMenuItems(menu: seq<MenuItem>, active: string): seq<MenuItem>
  {
    if active == AllCategory then menu else Filter(CategoryIs(active), menu)
  }

  /** The "All" tab shows the whole menu; any other tab shows exactly the
      items of that category. */
  lemma FilteredMenuItemsSpec(menu: seq<MenuItem>, active: string)
    ensures active == AllCategory ==> FilteredMenuItems(menu, active) == menu
    ensures active != AllCategory ==>
      (forall x :: x in FilteredMenuItems(menu, active) ==> x in menu && x.category == active)
      && (forall i :: 0 <= i < |menu| && menu[i].category == active ==> menu[i] in FilteredMenuItems(menu, active))
  {
  }

  /** The menu mapping of this dialog: `imageUrl` is copied as is. */
  function FormatMenuItem(w: WireMenuItem): MenuItem
  {
    MenuItem(w.wireId, w.name, w.description, w.price, w.imageUrl, w.category)
  }

  function FormatMenu(ws: seq<WireMenuItem>): seq<MenuItem>
  {
    seq(|ws|, i requires 0 <= i < |ws| => FormatMenuItem(ws[i]))
  }

  // ---------------------------------------------------------------------
  // The dialog

  class Dialog {
    const order: Order
    var isOpen: bool
    var currentItems: seq<CurrentItem>
    var initialItems: seq<CurrentItem>
    var isSubmitting: bool
    var menuItems: seq<MenuItem>
    var categories: seq<string>
    var loadingMenu: bool
    var menuError: Option<string>
    var activeCategory: string

    constructor(order: Order, isOpen: bool)
      ensures this.order == order && this.isOpen == isOpen
      ensures currentItems == [] && initialItems == [] && !isSubmitting
      ensures menuItems == [] && categories == [] && !loadingMenu && menuError == None
      ensures activeCategory == AllCategory
    {
      this.order := order;
      this.isOpen := isOpen;
      currentItems := [];
      initialItems := [];
      isSubmitting := false;
      menuItems := [];
      categories := [];
      loadingMenu := false;
      menuError := None;
      activeCategory := AllCategory;
    }

    /** The menu effect. A closed dialog does nothing. A body that is an
        array (`Some`) becomes the menu and its tabs, the "All" tab is
        selected, and the current and initial lines both start as the
        order's matched lines; anything else sets the menu error. */
    method LoadMenu(response: FetchResult<Option<seq<WireMenuItem>>>)
      modifies this`menuItems, this`categories, this`activeCategory, this`currentItems,
        this`initialItems, this`loadingMenu, this`menuError
      ensures !isOpen ==> unchanged(this)
      ensures isOpen ==> !loadingMenu
      ensures isOpen && response.Fetched? && response.body.Some? ==>
        var menu := FormatMenu(response.body.value);
        menuItems == menu && categories == CategoryTabs(menu) && activeCategory == AllCategory
        && menuError == None
        && currentItems == InitializeItems(menu, order.items) && initialItems == currentItems
      ensures isOpen && !(response.Fetched? && response.body.Some?) ==>
        menuError == Some(MenuLoadError) && currentItems == old(currentItems)
        && initialItems == old(initialItems) && menuItems == old(menuItems)
        && categories == old(categories) && activeCategory == old(activeCategory)
    {
      if isOpen {
        loadingMenu := true;
        if response.Fetched? && response.body.Some? {
          ShowMenu(FormatMenu(response.body.value));
        } else {
          menuError := Some(MenuLoadError);
        }
        loadingMenu := false;
      }
    }

    /** A received menu replaces the menu, the tabs and both line lists. */
    method ShowMenu(menu: seq<MenuItem>)
      modifies this`menuItems, this`categories, this`activeCategory, this`currentItems,
        this`initialItems, this`menuError
      ensures menuItems == menu && categories == CategoryTabs(menu) && activeCategory == AllCategory
      ensures menuError == None
      ensures currentItems == InitializeItems(menu, order.items) && initialItems == currentItems
    {
      var items := InitializeItems(menu, order.items);
      menuItems, categories, activeCategory := menu, CategoryTabs(menu), AllCategory;
      currentItems, initialItems := items, items;
      menuError := None;
    }

    method UpdateItemQuantity(m: MenuItem, q: int, freshId: string)
      modifies this`currentItems
      ensures currentItems == WithQuantity(old(currentItems), m, q, freshId)
    {
      currentItems := WithQuantity(currentItems, m, q, freshId);
    }

    method HandleRemoveItem(mid: string)
      modifies this`currentItems
      ensures currentItems == WithoutItem(old(currentItems), mid)
    {
      currentItems := WithoutItem(currentItems, mid);
    }

    /** `haveItemsChanged`: builds the menu-id-to-quantity map of the
        initial lines, then looks for a current line the map disagrees
        with, returning as soon as it finds one. */
    method HaveItemsChanged() returns (changed: bool)
      ensures changed == ItemsChanged(currentItems, initialItems)
    {
      if |currentItems| != |initialItems| {
        return true;
      }
      var initialMap: map<string, int> := map[];
      var i := 0;
      while i < |initialItems|
        invariant 0 <= i <= |initialItems|
        invariant forall mid :: mid in initialMap <==> LastQuantity(initialItems[..i], mid).Some?
        invariant forall mid :: mid in initialMap ==> LastQuantity(initialItems[..i], mid) == Some(initialMap[mid])
      {
        assert initialItems[..i + 1][..i] == initialItems[..i];
        initialMap := initialMap[initialItems[i].menuItemId := initialItems[i].line.quantity];
        i := i + 1;
      }
      assert initialItems[..i] == initialItems;
      var j := 0;
      while j < |currentItems|
        invariant 0 <= j <= |currentItems|
        invariant forall t :: 0 <= t < j ==>
          LastQuantity(initialItems, currentItems[t].menuItemId) == Some(currentItems[t].line.quantity)
      {
        var item := currentItems[j];
        if item.menuItemId !in initialMap || initialMap[item.menuItemId] != item.line.quantity {
          return true;
        }
        j := j + 1;
      }
      return false;
    }

    /** `handleSubmit`: the request carries the order's id, its customer as
        stored and the payload; the dialog closes only on success. */
    method Submit(success: bool) returns (request: UpdateRequest)
      modifies this`isSubmitting, this`isOpen
      ensures request == UpdateRequest(order.id, order.customerName, order.customerPhone,
                                       ItemsPayload(currentItems, initialItems))
      ensures PayloadTotal(request.items) == TotalCost(currentItems)
      ensures isOpen == (old(isOpen) && !success)
      ensures !isSubmitting
    {
      isSubmitting := true;
      request := UpdateRequest(order.id, order.customerName, order.customerPhone,
                               ItemsPayload(currentItems, initialItems));
      PayloadTotalSpec(currentItems, initialItems);
      if success {
        isOpen := false;
      }
      isSubmitting := false;
    }

    /** `handleCancelOrder`: the dialog closes only when the cancellation
        succeeds. */
    method CancelOrder(success: bool) returns (orderId: string)
      modifies this`isOpen
      ensures orderId == order.id
      ensures isOpen == (old(isOpen) && !success)
    {
      orderId := order.id;
      if success {
        isOpen := false;
      }
    }
  }
}
