/** The zustand cart store that ventas/store/cartStore.ts and
    clientes/store/cartStore.ts both define with the same state and actions
    (lines 37-91 of each); only their selectors differ, in `VentasCart` and
    `ClientesCart`. */
module SharedCart {
  import opened Common
  import opened CartLines

  /** The zustand store: `items` and `isOpen`, rewritten by each action. */
  class CartStore {
    var items: seq<CartItem>
    var isOpen: bool

    ghost predicate Valid()
      reads this
    {
      WellFormed(items)
    }

    constructor ()
      ensures Valid() && items == [] && !isOpen
    {
      items := [];
      isOpen := false;
    }

    /** `addItem(product, quantity = 1)`. */
    method AddItem(product: Product, quantity: int := 1)
      requires Valid()
      modifies this
      ensures Valid() && isOpen == old(isOpen)
      ensures items == AddLine(old(items), product, quantity)
      ensures |items| == if HasId(old(items), product.id) then |old(items)| else |old(items)| + 1
      ensures forall i :: 0 <= i < |old(items)| && old(items)[i].id != product.id ==> items[i] == old(items)[i]
    {
      items := AddLine(items, product, quantity);
    }

    /** `removeItem(productId)`. */
    method RemoveItem(productId: string)
      requires Valid()
      modifies this
      ensures Valid() && isOpen == old(isOpen)
      ensures items == RemoveId(old(items), productId)
      ensures !HasId(items, productId)
    {
      RemoveIdKeepsUnique(items, productId);
      RemoveIdKeepsStock(items, productId);
      RemoveIdMembers(items, productId);
      items := RemoveId(items, productId);
    }

    /** `updateQuantity(productId, quantity)`: a quantity of at most 0 is a
        call of `removeItem`; otherwise only the matching line changes. */
    method UpdateQuantity(productId: string, quantity: int)
      requires Valid()
      modifies this
      ensures Valid() && isOpen == old(isOpen)
      ensures items == UpdateLines(old(items), productId, quantity)
      ensures quantity <= 0 ==> items == RemoveId(old(items), productId)
      ensures quantity > 0 ==> |items| == |old(items)|
      ensures quantity > 0 ==> forall i :: 0 <= i < |items| ==>
        items[i] == if old(items)[i].id == productId
                    then old(items)[i].(quantity := Min(quantity, old(items)[i].stock))
                    else old(items)[i]
    {
      if quantity <= 0 {
        RemoveItem(productId);
        return;
      }
      items := UpdateLines(items, productId, quantity);
    }

    /** `clearCart()`. */
    method ClearCart()
      requires Valid()
      modifies this
      ensures Valid() && items == [] && isOpen == old(isOpen)
    {
      items := [];
    }

    /** `toggleCart()`. */
    method ToggleCart()
      requires Valid()
      modifies this
      ensures Valid() && isOpen == !old(isOpen) && items == old(items)
    {
      isOpen := !isOpen;
    }
  }
}
