/** The kitchen's order board (src/app/kitchen/page.tsx): the store's list
    split into a "new" and a "completed" column, and the completion button's
    guard. */
module Kitchen {
  import opened Types
  import opened Seqs
  import opened OrderMapping
  import OrderCard

  /** The completed column's test: status `'served'` or `'done'`. */
  predicate IsCompletedStatus(status: string)
  {
    status == StatusServed || status == StatusDone
  }

  function InNewColumn(): Order -> bool
  {
    (o: Order) => o.status != StatusServed && o.status != StatusDone
  }

  function InCompletedColumn(): Order -> bool
  {
    (o: Order) => o.status == StatusServed || o.status == StatusDone
  }

  /** `newOrders`. */
  function NewOrders(orders: seq<Order>): seq<Order>
  {
    Filter(InNewColumn(), orders)
  }

  /** `completedOrders`. */
  function CompletedOrders(orders: seq<Order>): seq<Order>
  {
    Filter(InCompletedColumn(), orders)
  }

  /** The two columns split the list: every order is in exactly one of
      them, as often as in the list, the completed column holds exactly the
      served and done orders, and a newest-first list gives newest-first
      columns. */
  lemma ColumnsPartition(orders: seq<Order>)
    ensures multiset(NewOrders(orders)) + multiset(CompletedOrders(orders)) == multiset(orders)
    ensures |NewOrders(orders)| + |CompletedOrders(orders)| == |orders|
    ensures forall o :: o in CompletedOrders(orders) <==> o in orders && IsCompletedStatus(o.status)
    ensures forall o :: o in NewOrders(orders) <==> o in orders && !IsCompletedStatus(o.status)
    ensures SortedDesc(orders) ==> SortedDesc(NewOrders(orders)) && SortedDesc(CompletedOrders(orders))
  {
    FilterPartition(InNewColumn(), InCompletedColumn(), orders);
    if SortedDesc(orders) {
      FilterSortedDesc(InNewColumn(), orders);
      FilterSortedDesc(InCompletedColumn(), orders);
    }
  }

  /** `handleOrderCompletion`: the id passed to `completeOrder`, which
      only a paid order gets. */
  function CompletionRequest(o: Order): (r: Option<string>)
    ensures r.Some? <==> o.status == StatusPaid
    ensures r.Some? ==> r.value == o.id
  {
    if o.status == StatusPaid then Some(o.id) else None
  }

  /** Completing an order of the list, as the store then holds the list
      (patched and re-sorted), moves it to the completed column: it appears
      there with status done, and no order with its id is left in the new
      column. An order that was neither served nor done came from the new
      column. */
  lemma CompletionMovesOrder(orders: seq<Order>, o: Order)
    requires o in orders
    ensures !IsCompletedStatus(o.status) ==> o in NewOrders(orders)
    ensures o.(status := StatusDone) in CompletedOrders(SortDesc(MarkDone(orders, o.id)))
    ensures forall x :: x in NewOrders(SortDesc(MarkDone(orders, o.id))) ==> x.id != o.id
  {
    var k :| 0 <= k < |orders| && orders[k] == o;
    if !IsCompletedStatus(o.status) {
      assert InNewColumn()(orders[k]);
    }
    var patched := MarkDone(orders, o.id);
    MarkDoneSpec(orders, o.id);
    assert patched[k] == o.(status := StatusDone);
    DoneInCompleted(patched, k);
    NoneLeftNew(orders, o.id);
  }

  /** The card's Ready button, the completion the board offers, is enabled
      for an order that is not done and not served; clicking it on a card of
      the new column moves that order to the completed column. */
  lemma ReadyMovesOrder(orders: seq<Order>, o: Order)
    requires o in NewOrders(orders) && OrderCard.View(o).ready == OrderCard.Enabled
    ensures o in orders && o.status != StatusDone && o.served != Some(true)
    ensures o.(status := StatusDone) in CompletedOrders(SortDesc(MarkDone(orders, o.id)))
    ensures forall x :: x in NewOrders(SortDesc(MarkDone(orders, o.id))) ==> x.id != o.id
  {
    FilterMember(InNewColumn(), orders, o);
    OrderCard.ViewSpec(o);
    CompletionMovesOrder(orders, o);
  }

  /** An order of a list with status done is in the completed column of
      that list once re-sorted. */
  lemma DoneInCompleted(patched: seq<Order>, k: int)
    requires 0 <= k < |patched| && patched[k].status == StatusDone
    ensures patched[k] in CompletedOrders(SortDesc(patched))
  {
    var after := SortDesc(patched);
    assert patched[k] in multiset(after);
    var m :| 0 <= m < |after| && after[m] == patched[k];
    assert InCompletedColumn()(after[m]);
  }

  /** After the patch, no order with that id is left in the new column. */
  lemma NoneLeftNew(orders: seq<Order>, id: string)
    ensures forall x :: x in NewOrders(SortDesc(MarkDone(orders, id))) ==> x.id != id
  {
    var patched := MarkDone(orders, id);
    var after := SortDesc(patched);
    PatchedIdsDone(orders, id);
    forall x | x in NewOrders(after) ensures x.id != id {
      FilterMember(InNewColumn(), after, x);
      assert x in multiset(patched);
    }
  }

  /** Every order of the patched list with that id is done. */
  lemma PatchedIdsDone(orders: seq<Order>, id: string)
    ensures forall x :: x in MarkDone(orders, id) && x.id == id ==> x.status == StatusDone
  {
    var patched := MarkDone(orders, id);
    forall x | x in patched && x.id == id ensures x.status == StatusDone {
      var j :| 0 <= j < |patched| && patched[j] == x;
      assert patched[j].id == orders[j].id;
    }
  }
}
