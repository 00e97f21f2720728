/** The wire-to-`Order` mapping and the newest-first sort that the order
    store (src/context/OrderContext.tsx:48-66, 82-98) and the my-orders page
    (src/app/my-orders/page.tsx:122-140) apply to every fetched list, and the
    local status patch of `completeOrder` (src/context/OrderContext.tsx:158-168). */
module OrderMapping {
  import opened Types
  import opened Seqs

  /** A line item as the backend sends it (`_id`, `sku`, `qty`, `price`). */
  datatype WireLineItem = WireLineItem(wireId: string, sku: string, qty: int, price: int)

  datatype WireCustomer = WireCustomer(name: string, phone: string)

  /** An order as the backend sends it. `createdAt` is taken as the
      millisecond timestamp `new Date(createdAt).getTime()` yields. */
  datatype WireOrder = WireOrder(
    wireId: string,
    orderToken: string,
    customer: WireCustomer,
    amount: int,
    amountDue: Option<int>,
    status: string,
    served: Option<bool>,
    createdAt: int,
    lineItems: seq<WireLineItem>)

  function MapLine(w: WireLineItem): OrderItem
  {
    OrderItem(w.wireId, w.sku, w.qty, w.price, None, None, None)
  }

  function MapLines(ls: seq<WireLineItem>): seq<OrderItem>
  {
    seq(|ls|, i requires 0 <= i < |ls| => MapLine(ls[i]))
  }

  /** The object literal of the mapping: `amountDue` and `served` are not
      copied, so a fetched order never has them. */
  function MapOrder(w: WireOrder): Order
  {
    Order(
      w.wireId, w.orderToken, MapLines(w.lineItems),
      w.customer.name, w.customer.phone, w.amount, None, w.createdAt, w.status, None)
  }

  function MapOrders(ws: seq<WireOrder>): seq<Order>
  {
    seq(|ws|, i requires 0 <= i < |ws| => MapOrder(ws[i]))
  }

  /** `res.data.orders || []`. */
  function OrdersOrEmpty(orders: Option<seq<WireOrder>>): seq<WireOrder>
  {
    if orders.Some? then orders.value else []
  }

  function LineAmount(items: seq<OrderItem>): int
  {
    if items == [] then 0 else items[0].price * items[0].quantity + LineAmount(items[1..])
  }

  function WireLineAmount(items: seq<WireLineItem>): int
  {
    if items == [] then 0 else items[0].price * items[0].qty + WireLineAmount(items[1..])
  }

  /** Every field of a mapped order comes from its wire counterpart: the
      line items one for one (name from `sku`, quantity from `qty`), so the
      sum over the lines is unchanged, and the optional fields the mapping
      leaves out are absent. */
  lemma {:induction false} MapOrderFaithful(w: WireOrder)
    ensures MapOrder(w).id == w.wireId && MapOrder(w).token == w.orderToken
    ensures MapOrder(w).customerName == w.customer.name && MapOrder(w).customerPhone == w.customer.phone
    ensures MapOrder(w).total == w.amount && MapOrder(w).timestamp == w.createdAt
    ensures MapOrder(w).status == w.status
    ensures MapOrder(w).amountDue == None && MapOrder(w).served == None
    ensures |MapOrder(w).items| == |w.lineItems|
    ensures forall i :: 0 <= i < |w.lineItems| ==>
      MapOrder(w).items[i].id == w.lineItems[i].wireId
      && MapOrder(w).items[i].name == w.lineItems[i].sku
      && MapOrder(w).items[i].quantity == w.lineItems[i].qty
      && MapOrder(w).items[i].price == w.lineItems[i].price
    ensures LineAmount(MapOrder(w).items) == WireLineAmount(w.lineItems)
  {
    MappedLineAmount(w.lineItems);
  }

  lemma {:induction false} MappedLineAmount(ls: seq<WireLineItem>)
    ensures LineAmount(MapLines(ls)) == WireLineAmount(ls)
  {
    if ls != [] {
      MappedLineAmount(ls[1..]);
      assert MapLines(ls)[1..] == MapLines(ls[1..]);
    }
  }

  /** Newest first: the order `sort((a, b) => b.timestamp - a.timestamp)`
      produces. */
  predicate SortedDesc(s: seq<Order>)
  {
    forall i :: 0 < i < |s| ==> s[i - 1].timestamp >= s[i].timestamp
  }

  /** Place `o` before the first order that is not newer than it. */
  function Insert(o: Order, s: seq<Order>): (r: seq<Order>)
    ensures multiset(r) == multiset(s) + multiset{o}
    ensures |r| == |s| + 1
    ensures r[0] == o || (s != [] && r[0] == s[0])
    ensures SortedDesc(s) ==> SortedDesc(r)
  {
    if s == [] || o.timestamp >= s[0].timestamp then
      ConsSorted(o, s);
      [o] + s
    else
      assert s == [s[0]] + s[1..];
      var rest := Insert(o, s[1..]);
      ConsSorted(s[0], s[1..]);
      ConsSorted(s[0], rest);
      [s[0]] + rest
  }

  /** An order in front of a list keeps it newest first exactly when it is
      not older than the list's first order and the list is newest first. */
  lemma ConsSorted(a: Order, t: seq<Order>)
    ensures SortedDesc([a] + t) <==> (t == [] || a.timestamp >= t[0].timestamp) && SortedDesc(t)
  {
    var u := [a] + t;
    if SortedDesc(u) {
      forall i | 0 < i < |t| ensures t[i - 1].timestamp >= t[i].timestamp {
        assert u[i] == t[i - 1] && u[i + 1] == t[i];
      }
      if t != [] {
        assert u[0] == a && u[1] == t[0];
      }
    }
    if (t == [] || a.timestamp >= t[0].timestamp) && SortedDesc(t) {
      forall i | 0 < i < |u| ensures u[i - 1].timestamp >= u[i].timestamp {
        if i == 1 {
          assert u[0] == a && u[1] == t[0];
        } else {
          assert u[i - 1] == t[i - 2] && u[i] == t[i - 1];
        }
      }
    }
  }

  /** `Array.prototype.sort` with the newest-first comparator. The sort is
      stable, which insertion from the back reproduces. */
  function SortDesc(s: seq<Order>): (r: seq<Order>)
    ensures multiset(r) == multiset(s)
    ensures |r| == |s|
    ensures SortedDesc(r)
  {
    if s == [] then []
    else
      assert s == [s[0]] + s[1..];
      Insert(s[0], SortDesc(s[1..]))
  }

  /** Newest first between neighbours means newest first between any two. */
  lemma {:induction false} SortedDescPairwise(s: seq<Order>)
    requires SortedDesc(s)
    ensures forall i, j :: 0 <= i <= j < |s| ==> s[j].timestamp <= s[i].timestamp
  {
    if s != [] {
      SortedDescPairwise(s[1..]);
      forall i, j | 0 <= i <= j < |s| ensures s[j].timestamp <= s[i].timestamp {
        if 0 < i {
          assert s[i] == s[1..][i - 1] && s[j] == s[1..][j - 1];
        } else if 0 < j {
          assert s[1] == s[1..][0] && s[j] == s[1..][j - 1];
        }
      }
    }
  }

  /** Filtering a newest-first list keeps it newest first. */
  lemma {:induction false} FilterSortedDesc(f: Order -> bool, s: seq<Order>)
    requires SortedDesc(s)
    ensures SortedDesc(Filter(f, s))
  {
    if s != [] {
      TailSorted(s);
      FilterSortedDesc(f, s[1..]);
      var rest := Filter(f, s[1..]);
      if f(s[0]) {
        if rest != [] {
          HeadNewest(f, s);
        }
        ConsSorted(s[0], rest);
        assert Filter(f, s) == [s[0]] + rest;
      } else {
        assert Filter(f, s) == rest;
      }
    }
  }

  lemma TailSorted(s: seq<Order>)
    requires s != [] && SortedDesc(s)
    ensures SortedDesc(s[1..])
  {
    var tail := s[1..];
    forall i | 0 < i < |tail| ensures tail[i - 1].timestamp >= tail[i].timestamp {
      assert tail[i - 1] == s[i] && tail[i] == s[i + 1];
    }
  }

  /** The first order of a newest-first list is not older than any order
      kept from the rest. */
  lemma HeadNewest(f: Order -> bool, s: seq<Order>)
    requires s != [] && SortedDesc(s) && Filter(f, s[1..]) != []
    ensures s[0].timestamp >= Filter(f, s[1..])[0].timestamp
  {
    var tail := s[1..];
    var rest := Filter(f, tail);
    SortedDescPairwise(s);
    var j :| 0 <= j < |tail| && tail[j] == rest[0];
    assert s[j + 1] == rest[0];
  }


  /** The filter callback `o => o.timestamp === t`. */
  function At(t: int): Order -> bool
  {
    (o: Order) => o.timestamp == t
  }

  lemma {:induction false} InsertStable(o: Order, s: seq<Order>, t: int)
    ensures Filter(At(t), Insert(o, s)) == (if o.timestamp == t then [o] else []) + Filter(At(t), s)
  {
    if s == [] || o.timestamp >= s[0].timestamp {
      FilterCons(At(t), o, s);
    } else {
      var rest := Insert(o, s[1..]);
      assert Insert(o, s) == [s[0]] + rest;
      InsertStable(o, s[1..], t);
      FilterBehind(t, s[0], o, rest, s[1..]);
      assert Filter(At(t), s) == (if s[0].timestamp == t then [s[0]] else []) + Filter(At(t), s[1..]);
    }
  }

  /** The step of `InsertStable` where `o` goes behind an older order `x`. */
  lemma FilterBehind(t: int, x: Order, o: Order, u: seq<Order>, v: seq<Order>)
    requires o.timestamp < x.timestamp
    requires Filter(At(t), u) == (if o.timestamp == t then [o] else []) + Filter(At(t), v)
    ensures Filter(At(t), [x] + u)
      == (if o.timestamp == t then [o] else []) + ((if x.timestamp == t then [x] else []) + Filter(At(t), v))
  {
    var mine := if o.timestamp == t then [o] else [];
    var head := if x.timestamp == t then [x] else [];
    FilterCons(At(t), x, u);
    SwapEmpty(head, mine, Filter(At(t), v));
  }

  /** Stability: orders with equal timestamps keep their relative order. */
  lemma {:induction false} SortStable(s: seq<Order>, t: int)
    ensures Filter(At(t), SortDesc(s)) == Filter(At(t), s)
  {
    if s != [] {
      SortStable(s[1..], t);
      InsertStable(s[0], SortDesc(s[1..]), t);
    }
  }

  /** A list already newest-first comes back unchanged. */
  lemma {:induction false} SortKeepsSorted(s: seq<Order>)
    requires SortedDesc(s)
    ensures SortDesc(s) == s
  {
    if s != [] {
      SortKeepsSorted(s[1..]);
      assert s == [s[0]] + s[1..];
    }
  }

  /** A fetched list: mapped field by field, then sorted newest first. */
  function FetchedOrders(ws: seq<WireOrder>): seq<Order>
  {
    SortDesc(MapOrders(ws))
  }

  /** A fetched list is newest first and holds exactly the mapped wire
      orders, each as many times as it was sent. */
  lemma FetchedOrdersSpec(ws: seq<WireOrder>)
    ensures SortedDesc(FetchedOrders(ws))
    ensures multiset(FetchedOrders(ws)) == multiset(MapOrders(ws))
    ensures forall o :: o in FetchedOrders(ws) ==> exists i :: 0 <= i < |ws| && o == MapOrder(ws[i])
  {
    forall o | o in FetchedOrders(ws) ensures exists i :: 0 <= i < |ws| && o == MapOrder(ws[i]) {
      assert o in multiset(MapOrders(ws));
      var i :| 0 <= i < |ws| && MapOrders(ws)[i] == o;
    }
  }

  /** The local patch `map(o => o.id === id ? { ...o, status: 'done' } : o)`. */
  function MarkDone(orders: seq<Order>, id: string): seq<Order>
  {
    seq(|orders|, i requires 0 <= i < |orders| =>
      if orders[i].id == id then orders[i].(status := StatusDone) else orders[i])
  }

  /** The patch touches only the status of orders with that id: positions,
      timestamps and all other fields stay, so a newest-first list stays
      newest first and re-sorting it changes nothing. */
  lemma MarkDoneSpec(orders: seq<Order>, id: string)
    ensures |MarkDone(orders, id)| == |orders|
    ensures forall i :: 0 <= i < |orders| ==>
      MarkDone(orders, id)[i].status == (if orders[i].id == id then StatusDone else orders[i].status)
      && MarkDone(orders, id)[i] == orders[i].(status := MarkDone(orders, id)[i].status)
    ensures SortedDesc(orders) ==> SortDesc(MarkDone(orders, id)) == MarkDone(orders, id)
  {
    if SortedDesc(orders) {
      SortKeepsSorted(MarkDone(orders, id));
    }
  }
}
