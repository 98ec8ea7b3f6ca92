/** The shell of the storefront: the cart aggregator (a sequence of cart
    items keyed by product id), the product whose detail view is open, and
    the cart panel's open flag. */
module App {
  import opened Options
  import opened Sequences
  import opened ProductCard

  /** One cart line: a projection of a product plus a quantity. The
      quantity is whatever the callers pass; no bound is enforced here. */
  datatype CartItem = CartItem(id: int, name: string, price: real, image: string, quantity: int)

  /** The quantity used when the caller of add-to-cart supplies none. */
  const DefaultQuantity: int := 1

  function QuantityOrDefault(quantity: Option<int>): (q: int)
    ensures quantity.None? ==> q == DefaultQuantity
    ensures quantity.Some? ==> q == quantity.value
  {
    quantity.GetOr(DefaultQuantity)
  }

  /** The cart line created for a product that is not yet in the cart. */
  function NewItem(p: Product, quantity: int): (item: CartItem)
    ensures item.id == p.id && item.name == p.name && item.price == p.price
    ensures item.image == p.image && item.quantity == quantity
  {
    CartItem(p.id, p.name, p.price, p.image, quantity)
  }

  predicate HasId(items: seq<CartItem>, id: int) {
    exists i :: 0 <= i < |items| && items[i].id == id
  }

  /** At most one line per product id. */
  ghost predicate UniqueIds(items: seq<CartItem>) {
    forall i, j :: 0 <= i < j < |items| ==> items[i].id != items[j].id
  }

  /** Every line whose id is `id` gets `delta` more; the others are kept. */
  function AddQuantity(items: seq<CartItem>, id: int, delta: int): (r: seq<CartItem>)
    ensures |r| == |items|
    ensures forall i :: 0 <= i < |items| ==>
      r[i] == if items[i].id == id then items[i].(quantity := items[i].quantity + delta) else items[i]
  {
    if items == [] then []
    else
      var head := if items[0].id == id then items[0].(quantity := items[0].quantity + delta) else items[0];
      [head] + AddQuantity(items[1..], id, delta)
  }

  /** Add-to-cart on the item list: an existing line for the product gets
      `quantity` more (the length and every other line unchanged); otherwise
      a new line is appended after the unchanged existing ones. */
  function AddItem(items: seq<CartItem>, p: Product, quantity: int): (r: seq<CartItem>)
    ensures HasId(r, p.id)
    ensures |r| == if HasId(items, p.id) then |items| else |items| + 1
    ensures forall i :: 0 <= i < |items| ==>
      r[i] == if items[i].id == p.id then items[i].(quantity := items[i].quantity + quantity) else items[i]
    ensures !HasId(items, p.id) ==> r[|items|] == NewItem(p, quantity)
  {
    if HasId(items, p.id) then AddQuantity(items, p.id, quantity)
    else
      var r := items + [NewItem(p, quantity)];
      assert r[|items|].id == p.id;
      r
  }

  /** Update-quantity on the item list: every line with that id gets exactly
      `quantity`; ids, order, length and all other fields are kept. */
  function SetQuantity(items: seq<CartItem>, id: int, quantity: int): (r: seq<CartItem>)
    ensures |r| == |items|
    ensures forall i :: 0 <= i < |items| ==>
      r[i] == if items[i].id == id then items[i].(quantity := quantity) else items[i]
  {
    if items == [] then []
    else
      var head := if items[0].id == id then items[0].(quantity := quantity) else items[0];
      [head] + SetQuantity(items[1..], id, quantity)
  }

  /** Remove on the item list: drop every line with that id. */
  function RemoveItem(items: seq<CartItem>, id: int): (r: seq<CartItem>)
    ensures |r| <= |items|
  {
    Filter(items, (item: CartItem) => item.id != id)
  }

  /** The cart badge: the sum of all quantities. */
  function TotalCount(items: seq<CartItem>): int {
    if items == [] then 0 else items[0].quantity + TotalCount(items[1..])
  }

  /** The number of lines with id `id`. */
  function CountId(items: seq<CartItem>, id: int): nat {
    if items == [] then 0 else (if items[0].id == id then 1 else 0) + CountId(items[1..], id)
  }

  /** The summed quantity of the lines with id `id`. */
  function QuantityOf(items: seq<CartItem>, id: int): int {
    if items == [] then 0
    else (if items[0].id == id then items[0].quantity else 0) + QuantityOf(items[1..], id)
  }

  // ---------------------------------------------------------------------
  // Properties of the list operations

  /** Remove leaves no line with the id, keeps every other line as often as
      it occurred, in the original order, and changes nothing when the id
      is absent. */
  lemma RemoveItemSpec(items: seq<CartItem>, id: int)
    ensures !HasId(RemoveItem(items, id), id)
    ensures forall x: CartItem :: multiset(RemoveItem(items, id))[x] == if x.id == id then 0 else multiset(items)[x]
    ensures IsSubsequence(RemoveItem(items, id), items)
    ensures !HasId(items, id) ==> RemoveItem(items, id) == items
  {
    var keep := (item: CartItem) => item.id != id;
    var r := RemoveItem(items, id);
    forall x: CartItem
      ensures multiset(r)[x] == if x.id == id then 0 else multiset(items)[x]
    {
      FilterCounts(items, keep, x);
    }
    if HasId(r, id) {
      var i :| 0 <= i < |r| && r[i].id == id;
      FilterMembers(items, keep, r[i]);
    }
    FilterIsSubsequence(items, keep);
    if !HasId(items, id) {
      FilterKeepsAll(items, keep);
    }
  }

  lemma {:induction false} UniqueTail(items: seq<CartItem>)
    requires UniqueIds(items) && items != []
    ensures UniqueIds(items[1..]) && !HasId(items[1..], items[0].id)
  {
  }

  /** With unique ids a present id has exactly one line, an absent id none. */
  lemma {:induction false} UniqueCountId(items: seq<CartItem>, id: int)
    requires UniqueIds(items)
    ensures CountId(items, id) == if HasId(items, id) then 1 else 0
  {
    if items != [] {
      UniqueTail(items);
      UniqueCountId(items[1..], id);
      if items[0].id != id {
        assert HasId(items, id) <==> HasId(items[1..], id) by {
          if HasId(items, id) {
            var i :| 0 <= i < |items| && items[i].id == id;
            assert items[1..][i - 1].id == id;
          }
          if HasId(items[1..], id) {
            var i :| 0 <= i < |items[1..]| && items[1..][i].id == id;
            assert items[i + 1].id == id;
          }
        }
      }
    }
  }

  /** With unique ids, the quantity recorded for a present id is the one
      line's quantity. */
  lemma {:induction false} UniqueQuantityOf(items: seq<CartItem>, k: int)
    requires UniqueIds(items) && 0 <= k < |items|
    ensures QuantityOf(items, items[k].id) == items[k].quantity
  {
    UniqueTail(items);
    if k == 0 {
      NoIdNoQuantity(items[1..], items[0].id);
    } else {
      assert items[1..][k - 1] == items[k];
      UniqueQuantityOf(items[1..], k - 1);
    }
  }

  lemma {:induction false} NoIdNoQuantity(items: seq<CartItem>, id: int)
    requires !HasId(items, id)
    ensures QuantityOf(items, id) == 0 && CountId(items, id) == 0
  {
    if items != [] {
      assert forall i :: 0 <= i < |items[1..]| ==> items[1..][i] == items[i + 1];
      NoIdNoQuantity(items[1..], id);
    }
  }

  /** With non-negative quantities the cart badge is non-negative. */
  lemma {:induction false} TotalCountNonNegative(items: seq<CartItem>)
    ensures (forall i :: 0 <= i < |items| ==> items[i].quantity >= 0) ==> TotalCount(items) >= 0
  {
    if items != [] {
      assert forall i :: 0 <= i < |items[1..]| ==> items[1..][i] == items[i + 1];
      TotalCountNonNegative(items[1..]);
    }
  }

  lemma {:induction false} TotalCountAppend(a: seq<CartItem>, b: seq<CartItem>)
    ensures TotalCount(a + b) == TotalCount(a) + TotalCount(b)
  {
    if a != [] {
      assert (a + b)[1..] == a[1..] + b;
      TotalCountAppend(a[1..], b);
    } else {
      assert a + b == b;
    }
  }

  lemma {:induction false} QuantityOfAppend(a: seq<CartItem>, b: seq<CartItem>, id: int)
    ensures QuantityOf(a + b, id) == QuantityOf(a, id) + QuantityOf(b, id)
  {
    if a != [] {
      assert (a + b)[1..] == a[1..] + b;
      QuantityOfAppend(a[1..], b, id);
    } else {
      assert a + b == b;
    }
  }

  /** Adding `delta` to the lines of an id raises the total by `delta` per line. */
  lemma {:induction false} TotalAddQuantity(items: seq<CartItem>, id: int, delta: int)
    ensures TotalCount(AddQuantity(items, id, delta)) == TotalCount(items) + delta * CountId(items, id)
  {
    if items != [] {
      var r := AddQuantity(items, id, delta);
      assert r[1..] == AddQuantity(items[1..], id, delta);
      TotalAddQuantity(items[1..], id, delta);
    }
  }

  /** Setting the lines of an id to `quantity` replaces their summed
      quantity by `quantity` per line. */
  lemma {:induction false} TotalSetQuantity(items: seq<CartItem>, id: int, quantity: int)
    ensures TotalCount(SetQuantity(items, id, quantity))
         == TotalCount(items) - QuantityOf(items, id) + quantity * CountId(items, id)
  {
    if items != [] {
      var r := SetQuantity(items, id, quantity);
      assert r[1..] == SetQuantity(items[1..], id, quantity);
      TotalSetQuantity(items[1..], id, quantity);
    }
  }

  /** Removing an id subtracts exactly its summed quantity from the total. */
  lemma {:induction false} TotalRemoveItem(items: seq<CartItem>, id: int)
    ensures TotalCount(RemoveItem(items, id)) == TotalCount(items) - QuantityOf(items, id)
  {
    if items != [] {
      TotalRemoveItem(items[1..], id);
    }
  }

  /** Add raises the total by exactly the added quantity, as long as the
      cart has at most one line per id. */
  lemma AddItemTotal(items: seq<CartItem>, p: Product, quantity: int)
    requires UniqueIds(items)
    ensures TotalCount(AddItem(items, p, quantity)) == TotalCount(items) + quantity
  {
    if HasId(items, p.id) {
      TotalAddQuantity(items, p.id, quantity);
      UniqueCountId(items, p.id);
    } else {
      TotalCountAppend(items, [NewItem(p, quantity)]);
    }
  }

  /** Add raises the quantity recorded for the product by exactly the added
      quantity, so adding q1 and then q2 of one product gives a single line
      holding q1 + q2 more. */
  lemma AddItemQuantity(items: seq<CartItem>, p: Product, quantity: int)
    requires UniqueIds(items)
    ensures QuantityOf(AddItem(items, p, quantity), p.id) == QuantityOf(items, p.id) + quantity
    ensures CountId(AddItem(items, p, quantity), p.id) == 1
  {
    AddItemKeepsUnique(items, p, quantity);
    UniqueCountId(AddItem(items, p, quantity), p.id);
    if HasId(items, p.id) {
      AddQuantityOf(items, p.id, quantity);
      UniqueCountId(items, p.id);
    } else {
      QuantityOfAppend(items, [NewItem(p, quantity)], p.id);
      NoIdNoQuantity(items, p.id);
    }
  }

  lemma {:induction false} AddQuantityOf(items: seq<CartItem>, id: int, delta: int)
    ensures QuantityOf(AddQuantity(items, id, delta), id) == QuantityOf(items, id) + delta * CountId(items, id)
  {
    if items != [] {
      var r := AddQuantity(items, id, delta);
      assert r[1..] == AddQuantity(items[1..], id, delta);
      AddQuantityOf(items[1..], id, delta);
    }
  }

  /** Update-quantity changes the total by the difference between the new
      and the old quantity of the (unique) line. */
  lemma SetQuantityTotal(items: seq<CartItem>, k: int, quantity: int)
    requires UniqueIds(items) && 0 <= k < |items|
    ensures TotalCount(SetQuantity(items, items[k].id, quantity))
         == TotalCount(items) - items[k].quantity + quantity
  {
    TotalSetQuantity(items, items[k].id, quantity);
    UniqueQuantityOf(items, k);
    UniqueCountId(items, items[k].id);
  }

  /** Remove lowers the total by the removed (unique) line's quantity, and
      leaves it unchanged for an absent id. */
  lemma RemoveItemTotal(items: seq<CartItem>, id: int)
    requires UniqueIds(items)
    ensures !HasId(items, id) ==> TotalCount(RemoveItem(items, id)) == TotalCount(items)
    ensures forall k :: 0 <= k < |items| && items[k].id == id ==>
      TotalCount(RemoveItem(items, id)) == TotalCount(items) - items[k].quantity
  {
  }

  /** Each operation keeps at most one line per product id. */
  lemma AddItemKeepsUnique(items: seq<CartItem>, p: Product, quantity: int)
    requires UniqueIds(items)
    ensures UniqueIds(AddItem(items, p, quantity))
  {
  }

  lemma SetQuantityKeepsUnique(items: seq<CartItem>, id: int, quantity: int)
    requires UniqueIds(items)
    ensures UniqueIds(SetQuantity(items, id, quantity))
  {
  }

  lemma {:induction false} RemoveItemKeepsUnique(items: seq<CartItem>, id: int)
    requires UniqueIds(items)
    ensures UniqueIds(RemoveItem(items, id))
  {
    if items != [] {
      UniqueTail(items);
      RemoveItemKeepsUnique(items[1..], id);
      var rest := RemoveItem(items[1..], id);
      if items[0].id != id {
        assert !HasId(rest, items[0].id) by {
          if HasId(rest, items[0].id) {
            var i :| 0 <= i < |rest| && rest[i].id == items[0].id;
            FilterMembers(items[1..], (item: CartItem) => item.id != id, rest[i]);
          }
        }
        assert RemoveItem(items, id) == [items[0]] + rest;
      }
    }
  }

  /** The quick "Add" button of a product card adds one unit. */
  lemma QuickAddAddsOne(items: seq<CartItem>, p: Product)
    requires UniqueIds(items)
    ensures TotalCount(AddItem(items, QuickAdd(p).product, QuantityOrDefault(QuickAdd(p).quantity)))
         == TotalCount(items) + 1
  {
    AddItemTotal(items, p, 1);
  }

  // ---------------------------------------------------------------------
  // The shell's state

  class Shell {
    var cartItems: seq<CartItem>
    var selectedProduct: Option<Product>
    var isCartOpen: bool

    ghost predicate Valid()
      reads this
    {
      UniqueIds(cartItems)
    }

    /** The cart badge count, recomputed from the current items. */
    function TotalCartItems(): (r: int)
      reads this
      ensures cartItems == [] ==> r == 0
      ensures (forall i :: 0 <= i < |cartItems| ==> cartItems[i].quantity >= 0) ==> r >= 0
    {
      TotalCountNonNegative(cartItems);
      TotalCount(cartItems)
    }

    constructor ()
      ensures Valid()
      ensures cartItems == [] && selectedProduct == None && !isCartOpen
    {
      cartItems := [];
      selectedProduct := None;
      isCartOpen := false;
    }

    /** Add-to-cart from a card (no quantity) or from the detail view; it
        always closes the detail view. */
    method AddToCart(product: Product, quantity: Option<int>)
      requires Valid()
      modifies this
      ensures Valid()
      ensures cartItems == AddItem(old(cartItems), product, QuantityOrDefault(quantity))
      ensures TotalCartItems() == old(TotalCartItems()) + QuantityOrDefault(quantity)
      ensures selectedProduct == None && isCartOpen == old(isCartOpen)
    {
      var q := QuantityOrDefault(quantity);
      AddItemKeepsUnique(cartItems, product, q);
      AddItemTotal(cartItems, product, q);
      cartItems := AddItem(cartItems, product, q);
      if selectedProduct.Some? {
        selectedProduct := None;
      }
    }

    method ViewDetails(product: Product)
      modifies this
      ensures selectedProduct == Some(product)
      ensures cartItems == old(cartItems) && isCartOpen == old(isCartOpen)
    {
      selectedProduct := Some(product);
    }

    method CloseDetails()
      modifies this
      ensures selectedProduct == None
      ensures cartItems == old(cartItems) && isCartOpen == old(isCartOpen)
    {
      selectedProduct := None;
    }

    method UpdateCartQuantity(id: int, quantity: int)
      requires Valid()
      modifies this
      ensures Valid()
      ensures cartItems == SetQuantity(old(cartItems), id, quantity)
      ensures forall k :: 0 <= k < |old(cartItems)| && old(cartItems)[k].id == id ==>
        TotalCartItems() == old(TotalCartItems()) - old(cartItems)[k].quantity + quantity
      ensures selectedProduct == old(selectedProduct) && isCartOpen == old(isCartOpen)
    {
      SetQuantityKeepsUnique(cartItems, id, quantity);
      forall k | 0 <= k < |cartItems| && cartItems[k].id == id
        ensures TotalCount(SetQuantity(cartItems, id, quantity)) == TotalCount(cartItems) - cartItems[k].quantity + quantity
      {
        SetQuantityTotal(cartItems, k, quantity);
      }
      cartItems := SetQuantity(cartItems, id, quantity);
    }

    method RemoveFromCart(id: int)
      requires Valid()
      modifies this
      ensures Valid()
      ensures cartItems == RemoveItem(old(cartItems), id)
      ensures !HasId(cartItems, id)
      ensures !HasId(old(cartItems), id) ==> cartItems == old(cartItems)
      ensures selectedProduct == old(selectedProduct) && isCartOpen == old(isCartOpen)
    {
      RemoveItemKeepsUnique(cartItems, id);
      RemoveItemSpec(cartItems, id);
      cartItems := RemoveItem(cartItems, id);
    }

    method OpenCart()
      modifies this
      ensures isCartOpen
      ensures cartItems == old(cartItems) && selectedProduct == old(selectedProduct)
    {
      isCartOpen := true;
    }

    method CloseCart()
      modifies this
      ensures !isCartOpen
      ensures cartItems == old(cartItems) && selectedProduct == old(selectedProduct)
    {
      isCartOpen := false;
    }
  }
}
