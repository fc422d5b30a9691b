/** The selectors of clientes/store/cartStore.ts, the customer app. Shipping
    is a flat 10 on any cart with a positive subtotal and nothing on an empty
    one. */
module ClientesCart {
  import opened Common
  import opened CartLines

  /** `getShipping()`: 10 whenever the subtotal is positive, else 0. */
  function Shipping(subtotal: real): (fee: real)
    ensures fee == 10.0 <==> subtotal > 0.0
    ensures fee == 0.0 || fee == 10.0
  {
    if subtotal > 0.0 then 10.0 else 0.0
  }

  /** `getTotalPrice()`: the subtotal plus shipping. */
  function TotalPrice(items: seq<CartItem>): (total: real)
    ensures Subtotal(items) > 0.0 ==> total == Subtotal(items) + 10.0
    ensures Subtotal(items) <= 0.0 ==> total == Subtotal(items)
  {
    Subtotal(items) + Shipping(Subtotal(items))
  }

  /** `getItemById(productId)`: the first line carrying that id, if any. */
  function ItemById(items: seq<CartItem>, productId: string): (r: Option<CartItem>)
    ensures r.None? <==> !HasId(items, productId)
    ensures r.Some? ==> r.value in items && r.value.id == productId
    ensures forall k :: 0 <= k < |items| && items[k].id == productId && UniqueIds(items) ==> r == Some(items[k])
  {
    match FindIndex(items, productId)
    case None => None
    case Some(k) => Some(items[k])
  }

  /** With no lines the customer pays nothing, shipping included. */
  lemma EmptyCartTotal()
    ensures TotalItems([]) == 0 && Subtotal([]) == 0.0 && TotalPrice([]) == 0.0
  {
  }

  /** Every line has a non-negative price and quantity, so the subtotal is
      non-negative and shipping is charged exactly when some line adds to it. */
  lemma {:induction false} SubtotalNonNegative(items: seq<CartItem>)
    requires forall i :: 0 <= i < |items| ==> items[i].price >= 0.0 && items[i].quantity >= 0
    ensures Subtotal(items) >= 0.0
    ensures Subtotal(items) == 0.0 ==> TotalPrice(items) == 0.0
    ensures Subtotal(items) > 0.0 ==> TotalPrice(items) == Subtotal(items) + 10.0
  {
    if items != [] {
      SubtotalNonNegative(items[1..]);
      assert items[0].price * items[0].quantity as real >= 0.0;
    }
  }

  /** After `addItem`, `getItemById` finds the product: a line is always
      present for it, holding the clamped quantity. */
  lemma AddItemFindsProduct(items: seq<CartItem>, p: Product, quantity: int)
    requires UniqueIds(items)
    ensures ItemById(AddLine(items, p, quantity), p.id).Some?
    ensures !HasId(items, p.id) ==> ItemById(AddLine(items, p, quantity), p.id) == Some(NewItem(p, quantity))
    ensures HasId(items, p.id) ==>
      ItemById(AddLine(items, p, quantity), p.id)
        == Some(Merged(ItemById(items, p.id).value, quantity))
  {
    if HasId(items, p.id) {
      var k := FindIndex(items, p.id).value;
      AddLineExisting(items, p, quantity, k);
    } else {
      AddLineNew(items, p, quantity);
    }
  }

  /** After `removeItem`, `getItemById` finds nothing. */
  lemma RemoveItemForgetsProduct(items: seq<CartItem>, productId: string)
    ensures ItemById(RemoveId(items, productId), productId) == None
  {
    RemoveIdMembers(items, productId);
  }
}
