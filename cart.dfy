/** The cart rules: add, remove, update-quantity and the two reductions.
    The order store (src/context/OrderContext.tsx:116-147), the kitchen
    create page (src/app/kitchen/create/page.tsx:44-66) and the create-order
    form (src/components/CreateOrderForm.tsx:44-69) each write these same
    map/filter/reduce expressions; they are defined once here. */
module Cart {
  import opened Types
  import opened Seqs

  predicate HasId(cart: seq<CartItem>, id: string)
  {
    exists i :: 0 <= i < |cart| && cart[i].item.id == id
  }

  /** No two lines share an id; every cart built by these rules keeps it. */
  predicate DistinctIds(cart: seq<CartItem>)
  {
    forall i, j :: 0 <= i < j < |cart| ==> cart[i].item.id != cart[j].item.id
  }

  /** The lines whose id is `id` get one more unit. */
  function IncrementId(cart: seq<CartItem>, id: string): seq<CartItem>
  {
    seq(|cart|, i requires 0 <= i < |cart| =>
      if cart[i].item.id == id then cart[i].(quantity := cart[i].quantity + 1) else cart[i])
  }

  /** `addToCart(item)`. */
  function AddItem(cart: seq<CartItem>, item: MenuItem): seq<CartItem>
  {
    if HasId(cart, item.id) then IncrementId(cart, item.id)
    else cart + [CartItem(item, 1)]
  }

  /** The filter callback `l => l.id !== id`. */
  function OtherId(id: string): CartItem -> bool
  {
    (l: CartItem) => l.item.id != id
  }

  /** `removeFromCart(id)`: `filter(l => l.id !== id)`. */
  function RemoveId(cart: seq<CartItem>, id: string): seq<CartItem>
  {
    Filter(OtherId(id), cart)
  }

  /** The lines whose id is `id` get quantity `q`. */
  function SetQuantity(cart: seq<CartItem>, id: string, q: int): seq<CartItem>
  {
    seq(|cart|, i requires 0 <= i < |cart| =>
      if cart[i].item.id == id then cart[i].(quantity := q) else cart[i])
  }

  /** `updateQuantity(id, q)`: a quantity of 0 or less removes the line. */
  function UpdateQuantity(cart: seq<CartItem>, id: string, q: int): seq<CartItem>
  {
    if q <= 0 then RemoveId(cart, id) else SetQuantity(cart, id, q)
  }

  function IdIs(id: string): MenuItem -> bool
  {
    (m: MenuItem) => m.id == id
  }

  /** `menuData.find(item => item.id === itemId)`: the first menu entry
      with that id. */
  function LookupMenu(menu: seq<MenuItem>, id: string): (r: Option<MenuItem>)
    ensures r.Some? ==> r.value in menu && r.value.id == id
    ensures r.Some? ==>
      exists k :: 0 <= k < |menu| && menu[k] == r.value && forall j :: 0 <= j < k ==> menu[j].id != id
    ensures r.None? <==> forall i :: 0 <= i < |menu| ==> menu[i].id != id
  {
    var k := FindIndex(IdIs(id), menu);
    if k >= 0 then Some(menu[k]) else None
  }

  function Subtotal(l: CartItem): int
  {
    l.item.price * l.quantity
  }

  /** `reduce((t, l) => t + l.price * l.quantity, 0)`. */
  function Total(cart: seq<CartItem>): int
  {
    if cart == [] then 0 else Subtotal(cart[0]) + Total(cart[1..])
  }

  /** `reduce((c, l) => c + l.quantity, 0)`. */
  function Count(cart: seq<CartItem>): int
  {
    if cart == [] then 0 else cart[0].quantity + Count(cart[1..])
  }

  lemma {:induction false} TotalConcat(a: seq<CartItem>, b: seq<CartItem>)
    ensures Total(a + b) == Total(a) + Total(b)
    ensures Count(a + b) == Count(a) + Count(b)
  {
    if a == [] {
      assert a + b == b;
    } else {
      assert (a + b)[1..] == a[1..] + b;
      TotalConcat(a[1..], b);
    }
  }

  /** Splitting a cart around line k. */
  lemma TotalAround(cart: seq<CartItem>, k: nat)
    requires k < |cart|
    ensures Total(cart) == Total(cart[..k]) + Subtotal(cart[k]) + Total(cart[k + 1..])
    ensures Count(cart) == Count(cart[..k]) + cart[k].quantity + Count(cart[k + 1..])
  {
    assert cart == cart[..k] + cart[k..];
    TotalConcat(cart[..k], cart[k..]);
    assert cart[k..][0] == cart[k] && cart[k..][1..] == cart[k + 1..];
  }

  /** `findIndex(l => l.id === id)` for an id that is present. */
  function FirstIndex(cart: seq<CartItem>, id: string): (k: nat)
    requires HasId(cart, id)
    ensures k < |cart| && cart[k].item.id == id
    ensures forall i :: 0 <= i < k ==> cart[i].item.id != id
  {
    if cart[0].item.id == id then 0
    else
      assert HasId(cart[1..], id) by {
        var j :| 0 <= j < |cart| && cart[j].item.id == id;
        assert cart[1..][j - 1].item.id == id;
      }
      1 + FirstIndex(cart[1..], id)
  }

  /** The line with an id that is present, when ids are distinct. */
  function LineOf(cart: seq<CartItem>, id: string): CartItem
    requires HasId(cart, id)
  {
    cart[FirstIndex(cart, id)]
  }

  /** Adding an id already in the cart: same length, same menu data, and
      only the line with that id gains one unit. */
  lemma AddExisting(cart: seq<CartItem>, item: MenuItem)
    requires HasId(cart, item.id)
    ensures |AddItem(cart, item)| == |cart|
    ensures forall i :: 0 <= i < |cart| ==>
      AddItem(cart, item)[i].item == cart[i].item
      && AddItem(cart, item)[i].quantity == cart[i].quantity + (if cart[i].item.id == item.id then 1 else 0)
  {
  }

  /** Adding a new id appends one line with quantity 1 and the menu data. */
  lemma AddNew(cart: seq<CartItem>, item: MenuItem)
    requires !HasId(cart, item.id)
    ensures AddItem(cart, item) == cart + [CartItem(item, 1)]
  {
  }

  /** Each add puts exactly one more unit in a well-formed cart, and the
      total grows by the price of the line that received it (the price
      already in the cart for an existing line, the menu price for a new one). */
  lemma AddItemTotals(cart: seq<CartItem>, item: MenuItem)
    requires DistinctIds(cart)
    ensures Count(AddItem(cart, item)) == Count(cart) + 1
    ensures HasId(cart, item.id) ==>
      Total(AddItem(cart, item)) == Total(cart) + LineOf(cart, item.id).item.price
    ensures !HasId(cart, item.id) ==> Total(AddItem(cart, item)) == Total(cart) + item.price
  {
    if HasId(cart, item.id) {
      AddExistingTotals(cart, item);
    } else {
      AddNew(cart, item);
      TotalConcat(cart, [CartItem(item, 1)]);
    }
  }

  lemma AddExistingTotals(cart: seq<CartItem>, item: MenuItem)
    requires DistinctIds(cart) && HasId(cart, item.id)
    ensures Count(AddItem(cart, item)) == Count(cart) + 1
    ensures Total(AddItem(cart, item)) == Total(cart) + LineOf(cart, item.id).item.price
  {
    var r := AddItem(cart, item);
    var k := FirstIndex(cart, item.id);
    AddExisting(cart, item);
    assert r[k] == cart[k].(quantity := cart[k].quantity + 1);
    SubtotalPlusOne(cart[k]);
    assert r[..k] == cart[..k];
    assert r[k + 1..] == cart[k + 1..] by {
      forall i | k < i < |cart| ensures r[i] == cart[i] {
        assert cart[i].item.id != cart[k].item.id;
      }
    }
    TotalAround(cart, k);
    TotalAround(r, k);
  }

  lemma SubtotalPlusOne(l: CartItem)
    ensures Subtotal(l.(quantity := l.quantity + 1)) == Subtotal(l) + l.item.price
  {
    assert l.item.price * (l.quantity + 1) == l.item.price * l.quantity + l.item.price;
  }

  /** Adding keeps line ids distinct. */
  lemma AddItemDistinct(cart: seq<CartItem>, item: MenuItem)
    requires DistinctIds(cart)
    ensures DistinctIds(AddItem(cart, item))
  {
  }

  /** Removing keeps the lines with other ids, in their order, and drops
      every line with that id. */
  lemma RemoveKeepsOthers(cart: seq<CartItem>, id: string)
    ensures forall i :: 0 <= i < |RemoveId(cart, id)| ==> RemoveId(cart, id)[i].item.id != id
    ensures forall i :: 0 <= i < |cart| && cart[i].item.id != id ==> cart[i] in RemoveId(cart, id)
    ensures forall a, b :: cart == a + b ==> RemoveId(cart, id) == RemoveId(a, id) + RemoveId(b, id)
  {
    forall a, b | cart == a + b ensures RemoveId(cart, id) == RemoveId(a, id) + RemoveId(b, id) {
      FilterConcat(OtherId(id), a, b);
    }
  }

  /** A filter of a cart with distinct ids has distinct ids. */
  lemma {:induction false} FilterDistinct(f: CartItem -> bool, cart: seq<CartItem>)
    requires DistinctIds(cart)
    ensures DistinctIds(Filter(f, cart))
  {
    if cart != [] {
      FilterDistinct(f, cart[1..]);
      var rest := Filter(f, cart[1..]);
      forall j | 0 <= j < |rest| ensures rest[j].item.id != cart[0].item.id {
        var i :| 0 <= i < |cart[1..]| && cart[1..][i] == rest[j];
        assert cart[i + 1] == rest[j];
      }
    }
  }

  /** Removing an id that is not in the cart changes nothing. */
  lemma RemoveAbsent(cart: seq<CartItem>, id: string)
    requires !HasId(cart, id)
    ensures RemoveId(cart, id) == cart
  {
    FilterAllPass(OtherId(id), cart);
  }

  /** In a well-formed cart, removing an id that is present takes out
      exactly its one line. */
  lemma {:induction false} RemoveSplit(cart: seq<CartItem>, id: string)
    requires DistinctIds(cart) && HasId(cart, id)
    ensures RemoveId(cart, id) == cart[..FirstIndex(cart, id)] + cart[FirstIndex(cart, id) + 1..]
  {
    DistinctIdsTail(cart);
    if cart[0].item.id == id {
      RemoveSplitHead(cart, id);
    } else {
      var k := FirstIndex(cart, id);
      assert cart[1..][k - 1] == cart[k];
      RemoveSplit(cart[1..], id);
      RemoveSplitStep(cart, id, k);
    }
  }

  /** The step of `RemoveSplit` where the line with that id is first. */
  lemma RemoveSplitHead(cart: seq<CartItem>, id: string)
    requires cart != [] && cart[0].item.id == id && !HasId(cart[1..], id)
    ensures RemoveId(cart, id) == cart[1..]
  {
    RemoveAbsent(cart[1..], id);
    assert RemoveId(cart, id) == RemoveId(cart[1..], id);
  }

  /** The step of `RemoveSplit` where the line with that id is not first. */
  lemma RemoveSplitStep(cart: seq<CartItem>, id: string, k: nat)
    requires 0 < k < |cart| && cart[0].item.id != id
    requires RemoveId(cart[1..], id) == cart[1..][..k - 1] + cart[1..][k..]
    ensures RemoveId(cart, id) == cart[..k] + cart[k + 1..]
  {
    var rest := cart[1..];
    assert RemoveId(cart, id) == [cart[0]] + RemoveId(rest, id);
    assert cart[..k] == [cart[0]] + rest[..k - 1];
    assert cart[k + 1..] == rest[k..];
  }

  /** The tail of a well-formed cart is well formed and lacks the head's id. */
  lemma DistinctIdsTail(cart: seq<CartItem>)
    requires cart != [] && DistinctIds(cart)
    ensures DistinctIds(cart[1..]) && !HasId(cart[1..], cart[0].item.id)
  {
    var rest := cart[1..];
    forall i, j | 0 <= i < j < |rest| ensures rest[i].item.id != rest[j].item.id {
      assert rest[i] == cart[i + 1] && rest[j] == cart[j + 1];
    }
    forall i | 0 <= i < |rest| ensures rest[i].item.id != cart[0].item.id {
      assert rest[i] == cart[i + 1];
    }
  }



  /** ... and with it that line's subtotal and units. */
  lemma RemoveTotals(cart: seq<CartItem>, id: string)
    requires DistinctIds(cart) && HasId(cart, id)
    ensures DistinctIds(RemoveId(cart, id))
    ensures Total(RemoveId(cart, id)) == Total(cart) - Subtotal(LineOf(cart, id))
    ensures Count(RemoveId(cart, id)) == Count(cart) - LineOf(cart, id).quantity
  {
    FilterDistinct(OtherId(id), cart);
    var k := FirstIndex(cart, id);
    assert LineOf(cart, id) == cart[k];
    RemoveSplit(cart, id);
    TotalAround(cart, k);
    TotalConcat(cart[..k], cart[k + 1..]);
  }

  /** `updateQuantity(id, q)` with q <= 0 is `removeFromCart(id)`. */
  lemma UpdateNonPositiveRemoves(cart: seq<CartItem>, id: string, q: int)
    requires q <= 0
    ensures UpdateQuantity(cart, id, q) == RemoveId(cart, id)
  {
  }

  /** `updateQuantity(id, q)` with q > 0: order and length kept, quantity q
      on the matching lines only; in a well-formed cart the units change by
      q minus the old quantity of that line. */
  lemma UpdatePositive(cart: seq<CartItem>, id: string, q: int)
    requires q > 0 && DistinctIds(cart)
    ensures |UpdateQuantity(cart, id, q)| == |cart|
    ensures forall i :: 0 <= i < |cart| ==>
      UpdateQuantity(cart, id, q)[i].item == cart[i].item
      && UpdateQuantity(cart, id, q)[i].quantity == (if cart[i].item.id == id then q else cart[i].quantity)
    ensures DistinctIds(UpdateQuantity(cart, id, q))
    ensures !HasId(cart, id) ==> UpdateQuantity(cart, id, q) == cart
    ensures HasId(cart, id) ==>
      var l := LineOf(cart, id);
      && Count(UpdateQuantity(cart, id, q)) == Count(cart) - l.quantity + q
      && Total(UpdateQuantity(cart, id, q)) == Total(cart) - Subtotal(l) + l.item.price * q
  {
    var r := UpdateQuantity(cart, id, q);
    if HasId(cart, id) {
      var k := FirstIndex(cart, id);
      assert r[..k] == cart[..k];
      assert r[k + 1..] == cart[k + 1..];
      TotalAround(cart, k);
      TotalAround(r, k);
    }
  }

  /** Every update keeps line ids distinct. */
  lemma UpdateDistinct(cart: seq<CartItem>, id: string, q: int)
    requires DistinctIds(cart)
    ensures DistinctIds(UpdateQuantity(cart, id, q))
  {
    if q <= 0 {
      FilterDistinct(OtherId(id), cart);
    }
  }

  /** An empty cart totals 0 with 0 units. */
  lemma EmptyCartTotals()
    ensures Total([]) == 0 && Count([]) == 0
  {
  }

  /** Item A at 100 added once and item B at 50 added twice: a total of
      200 over 3 units. */
  lemma TwoItemScenario(a: MenuItem, b: MenuItem)
    requires a.id != b.id && a.price == 100 && b.price == 50
    ensures Total(AddItem(AddItem(AddItem([], a), b), b)) == 200
    ensures Count(AddItem(AddItem(AddItem([], a), b), b)) == 3
  {
    var c1 := AddItem([], a);
    AddItemTotals([], a);
    AddItemTotals(c1, b);
    AddItemDistinct(c1, b);
    var c2 := AddItem(c1, b);
    assert c2 == [CartItem(a, 1), CartItem(b, 1)];
    assert HasId(c2, b.id) by { assert c2[1].item.id == b.id; }
    AddItemTotals(c2, b);
  }
}
