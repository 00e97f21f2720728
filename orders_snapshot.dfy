/** The dashboard's live order queue (src/components/dashboard/OrdersSnapshot.tsx):
    the first five pending orders of the kitchen list. */
module OrdersSnapshot {
  import opened Types
  import opened Seqs
  import opened OrderMapping

  const QueueLength: nat := 5

  predicate IsPendingStatus(status: string)
  {
    status == StatusPaid || status == StatusNew || status == StatusServed
  }

  function IsPending(): Order -> bool
  {
    (o: Order) => o.status == StatusPaid || o.status == StatusNew || o.status == StatusServed
  }

  /** `filter(paid | new | served).slice(0, 5)`. */
  function PendingOrders(orders: seq<Order>): seq<Order>
  {
    Take(Filter(IsPending(), orders), QueueLength)
  }

  /** The queue is the start of the pending orders, at most five, all of
      them pending (so never done or created) and all from the list; on a
      newest-first list it is newest first, and no pending order left out
      is newer than one shown. */
  lemma PendingOrdersSpec(orders: seq<Order>)
    ensures |PendingOrders(orders)| <= QueueLength
    ensures |PendingOrders(orders)| == if |Filter(IsPending(), orders)| <= 5 then |Filter(IsPending(), orders)| else 5
    ensures PendingOrders(orders) == Filter(IsPending(), orders)[..|PendingOrders(orders)|]
    ensures forall i :: 0 <= i < |PendingOrders(orders)| ==>
      PendingOrders(orders)[i] in orders && IsPendingStatus(PendingOrders(orders)[i].status)
    ensures forall i :: 0 <= i < |PendingOrders(orders)| ==>
      PendingOrders(orders)[i].status != StatusDone && PendingOrders(orders)[i].status != StatusCreated
    ensures SortedDesc(orders) ==> SortedDesc(PendingOrders(orders))
    ensures SortedDesc(orders) ==>
      forall i, j :: 0 <= i < |PendingOrders(orders)| <= j < |Filter(IsPending(), orders)| ==>
        Filter(IsPending(), orders)[j].timestamp <= PendingOrders(orders)[i].timestamp
  {
    var f := Filter(IsPending(), orders);
    var r := PendingOrders(orders);
    assert r == f[..|r|];
    forall i | 0 <= i < |r| ensures r[i] in orders && IsPendingStatus(r[i].status) {
      assert r[i] == f[i];
    }
    if SortedDesc(orders) {
      PendingNewestFirst(orders);
    }
  }

  lemma PendingNewestFirst(orders: seq<Order>)
    requires SortedDesc(orders)
    ensures SortedDesc(PendingOrders(orders))
    ensures forall i, j :: 0 <= i < |PendingOrders(orders)| <= j < |Filter(IsPending(), orders)| ==>
      Filter(IsPending(), orders)[j].timestamp <= PendingOrders(orders)[i].timestamp
  {
    var f := Filter(IsPending(), orders);
    var r := PendingOrders(orders);
    FilterSortedDesc(IsPending(), orders);
    SortedDescPairwise(f);
    forall i | 0 < i < |r| ensures r[i - 1].timestamp >= r[i].timestamp {
      assert r[i - 1] == f[i - 1] && r[i] == f[i];
    }
    forall i, j | 0 <= i < |r| <= j < |f| ensures f[j].timestamp <= r[i].timestamp {
      assert r[i] == f[i];
    }
  }
}
