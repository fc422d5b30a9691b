/** The selectors of ventas/store/cartStore.ts, the sales-rep app. Free shipping
    above a subtotal of 100, otherwise a flat 10. */
module VentasCart {
  import opened Common
  import opened CartLines

  /** `getItemQuantity(productId)`: the quantity of the line for that id, or
      0 when no line has it. */
  function ItemQuantity(items: seq<CartItem>, productId: string): (n: int)
    ensures !HasId(items, productId) ==> n == 0
    ensures forall k :: 0 <= k < |items| && items[k].id == productId && UniqueIds(items) ==> n == items[k].quantity
  {
    match FindIndex(items, productId)
    case None => 0
    case Some(k) => items[k].quantity
  }

  /** `getShipping()`: free above a subtotal of 100, otherwise 10. */
  function Shipping(subtotal: real): (fee: real)
    ensures fee == 0.0 <==> subtotal > 100.0
    ensures fee == 0.0 || fee == 10.0
  {
    if subtotal > 100.0 then 0.0 else 10.0
  }

  /** `getTotalPrice()`: the subtotal plus shipping. */
  function TotalPrice(items: seq<CartItem>): (total: real)
    ensures Subtotal(items) > 100.0 ==> total == Subtotal(items)
    ensures Subtotal(items) <= 100.0 ==> total == Subtotal(items) + 10.0
  {
    Subtotal(items) + Shipping(Subtotal(items))
  }

  /** An empty cart still owes the flat shipping fee. */
  lemma EmptyCartTotal()
    ensures TotalItems([]) == 0 && Subtotal([]) == 0.0 && TotalPrice([]) == 10.0
  {
  }

  /** The shipping step makes the total non-monotone in the subtotal: a cart
      worth exactly 100 costs more than one worth a little above 100. */
  lemma TotalDropsAtThreshold(a: seq<CartItem>, b: seq<CartItem>)
    requires Subtotal(a) == 100.0 && 100.0 < Subtotal(b) < 110.0
    ensures TotalPrice(b) < TotalPrice(a)
  {
  }

  /** After `addItem`, the product's line holds `min(old + added, stored
      stock)` when it was present and `min(added, product stock)` otherwise. */
  lemma AddItemQuantity(items: seq<CartItem>, p: Product, quantity: int)
    requires UniqueIds(items)
    ensures HasId(items, p.id) ==>
      ItemQuantity(AddLine(items, p, quantity), p.id)
        == Min(ItemQuantity(items, p.id) + quantity, items[FindIndex(items, p.id).value].stock)
    ensures !HasId(items, p.id) ==> ItemQuantity(AddLine(items, p, quantity), p.id) == Min(quantity, p.stock)
  {
    var r := AddLine(items, p, quantity);
    if HasId(items, p.id) {
      var k := FindIndex(items, p.id).value;
      AddLineExisting(items, p, quantity, k);
      FindIndexUnique(r, p.id, k);
    } else {
      assert UniqueIds(r);
      FindIndexUnique(r, p.id, |items|);
    }
  }

  /** `getTotalItems()` moves by exactly the change of the added product's
      line: other lines keep their quantities. */
  lemma AddItemTotalItems(items: seq<CartItem>, p: Product, quantity: int)
    requires UniqueIds(items)
    ensures TotalItems(AddLine(items, p, quantity))
      == TotalItems(items) - ItemQuantity(items, p.id) + ItemQuantity(AddLine(items, p, quantity), p.id)
  {
    var r := AddLine(items, p, quantity);
    AddItemQuantity(items, p, quantity);
    if HasId(items, p.id) {
      var k := FindIndex(items, p.id).value;
      AddLineExisting(items, p, quantity, k);
      SumsReplace(items, k, Merged(items[k], quantity));
    } else {
      AddLineNew(items, p, quantity);
      SumsAppend(items, NewItem(p, quantity));
    }
  }

  /** Adding the same product twice coalesces into one line, clamped to the
      stock: 2 then 3 of a product with stock 4 gives one line of 4. */
  lemma AddTwiceCoalesces(p: Product)
    requires p.stock == 4
    ensures |AddLine(AddLine([], p, 2), p, 3)| == 1
    ensures AddLine(AddLine([], p, 2), p, 3)[0].quantity == 4
  {
    var once := AddLine([], p, 2);
    AddLineNew([], p, 2);
    AddLineExisting(once, p, 3, 0);
  }
}
