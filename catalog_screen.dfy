/** The sales-rep catalogue screen (ventas/app/pedido/catalogo.tsx): the
    per-product quantity picker, its stock guards, the conversion of a
    catalogue product into a cart product, the category chips and the cart
    badge. */
module CatalogScreen {
  import opened Common
  import opened CartLines
  import opened SharedCart
  import opened VentasCatalogTypes

  /** The fixed image every cart product gets. */
  const PlaceholderImage := "https://plus.unsplash.com/premium_photo-1668487826871-2f2cac23ad56?ixlib=rb-4.1.0&ixid=M3wxMjA3fDB8MHxwaG90by1wYWdlfHx8fGVufDB8fHx8fA%3D%3D&auto=format&fit=crop&q=80&w=1112"

  /** `product.inventarioResumen?.cantidadTotal || 0`. */
  function StockOf(p: Producto): (s: int)
    ensures p.inventarioResumen.None? ==> s == 0
    ensures p.inventarioResumen.Some? ==> s == p.inventarioResumen.value.cantidadTotal
  {
    if p.inventarioResumen.Some? then p.inventarioResumen.value.cantidadTotal else 0
  }

  /** `hasStock`. */
  predicate HasStock(p: Producto)
  {
    StockOf(p) > 0
  }

  /** `addToCart`'s conversion: identity, name, price and code are copied,
      the stock is the inventory total (0 without a summary). */
  function ToCartProduct(p: Producto): (c: Product)
    ensures c.id == p.id && c.name == p.nombre && c.price == p.precioUnitario && c.code == p.codigo
    ensures c.stock == StockOf(p) && c.image == PlaceholderImage
  {
    Product(p.id, p.nombre, p.precioUnitario, PlaceholderImage, p.codigo, StockOf(p))
  }

  /** The `addToCart` helper on its own: a product without an inventory
      summary would go into the cart with stock 0, so its line would be
      created with quantity 0 whatever was picked. The screen never calls it
      for such a product, whose button is the disabled "Sin Stock" one (see
      `QuantityPicker.AddToCart`). */
  lemma NoInventoryAddsZero(items: seq<CartItem>, p: Producto, quantity: int)
    requires p.inventarioResumen.None? && !HasId(items, p.id) && quantity >= 1
    ensures AddLine(items, ToCartProduct(p), quantity) == items + [NewItem(ToCartProduct(p), quantity)]
    ensures AddLine(items, ToCartProduct(p), quantity)[|items|].quantity == 0
  {
    AddLineNew(items, ToCartProduct(p), quantity);
  }

  datatype CategoryChip = CategoryChip(id: string, name: string, active: bool)

  /** `categories`: "Todos" with the empty id, then one chip per entry of
      the category table, in order; a chip is active when its id is the
      selected one. */
  function Categories(selected: string): (r: seq<CategoryChip>)
    ensures |r| == |Categorias| + 1
    ensures r[0] == CategoryChip("", "Todos", selected == "")
    ensures forall i :: 0 <= i < |Categorias| ==> r[i + 1] == CategoryChip(Categorias[i].0, Categorias[i].1, selected == Categorias[i].0)
  {
    [CategoryChip("", "Todos", selected == "")]
      + seq(|Categorias|, i requires 0 <= i < |Categorias| => CategoryChip(Categorias[i].0, Categorias[i].1, selected == Categorias[i].0))
  }

  /** The chip ids are distinct, so at most one chip is active, and exactly
      one when the selection is "" or a known category. */
  lemma OneActiveChip(selected: string)
    ensures var r := Categories(selected);
            (forall i, j :: 0 <= i < j < |r| ==> r[i].id != r[j].id)
            && (forall i, j :: 0 <= i < j < |r| && r[i].active ==> !r[j].active)
            && (selected == "" ==> r[0].active)
            && (forall i :: 0 <= i < |r| ==> (r[i].active <==> r[i].id == selected))
  {
    var r := Categories(selected);
    assert r[1].id == "ANTIBIOTICS" && r[2].id == "ANTISEPTICS";
    assert r[3].id == "MEDICAL_EQUIPMENT" && r[4].id == "SUPPLIES";
  }

  /** The screen's `quantities` state: the quantity picked per product code. */
  class QuantityPicker {
    var quantities: map<string, int>

    /** Every stored quantity is at least 1. */
    ghost predicate Valid()
      reads this
    {
      forall c :: c in quantities ==> quantities[c] >= 1
    }

    constructor()
      ensures Valid() && quantities == map[]
    {
      quantities := map[];
    }

    /** `getProductQuantity`: the stored quantity, 1 when none is stored. */
    function GetProductQuantity(codigo: string): (q: int)
      reads this
      ensures codigo !in quantities ==> q == 1
      ensures Valid() && codigo in quantities ==> q == quantities[codigo]
      ensures Valid() ==> q >= 1
    {
      if codigo in quantities && quantities[codigo] != 0 then quantities[codigo] else 1
    }

    /** `updateQuantity`: values below 1 are ignored; otherwise only the given
        code changes. */
    method UpdateQuantity(codigo: string, newQuantity: int)
      requires Valid()
      modifies this
      ensures Valid()
      ensures newQuantity >= 1 ==> quantities == old(quantities)[codigo := newQuantity]
      ensures newQuantity < 1 ==> quantities == old(quantities)
    {
      if newQuantity >= 1 {
        quantities := quantities[codigo := newQuantity];
      }
    }

    /** The − button, disabled at quantity 1 or less and for a product
        without stock. */
    method PressDecrement(p: Producto)
      requires Valid()
      modifies this
      ensures Valid()
      ensures !HasStock(p) ==> quantities == old(quantities)
      ensures HasStock(p) && old(GetProductQuantity(p.codigo)) <= 1 ==> quantities == old(quantities)
      ensures HasStock(p) && old(GetProductQuantity(p.codigo)) > 1 ==>
        quantities == old(quantities)[p.codigo := old(GetProductQuantity(p.codigo)) - 1]
      ensures GetProductQuantity(p.codigo) >= 1
    {
      var q := GetProductQuantity(p.codigo);
      if HasStock(p) && q > 1 {
        UpdateQuantity(p.codigo, q - 1);
      }
    }

    /** The + button, disabled once the quantity reaches the stock, and so
        always for a product without stock. */
    method PressIncrement(p: Producto)
      requires Valid()
      modifies this
      ensures Valid()
      ensures old(GetProductQuantity(p.codigo)) >= StockOf(p) ==> quantities == old(quantities)
      ensures old(GetProductQuantity(p.codigo)) < StockOf(p) ==>
        quantities == old(quantities)[p.codigo := old(GetProductQuantity(p.codigo)) + 1]
      ensures GetProductQuantity(p.codigo) <= if old(GetProductQuantity(p.codigo)) <= StockOf(p) then StockOf(p) else old(GetProductQuantity(p.codigo))
    {
      var q := GetProductQuantity(p.codigo);
      if q < StockOf(p) {
        UpdateQuantity(p.codigo, q + 1);
      }
    }

    /** The product's cart button: with stock it is "Agregar", which calls
        `addToCart(product, quantity)` with the picked quantity; without stock
        it is the disabled "Sin Stock" button and the cart is left alone. */
    method AddToCart(cart: CartStore, p: Producto)
      requires Valid() && cart.Valid()
      modifies cart
      ensures cart.Valid() && cart.isOpen == old(cart.isOpen)
      ensures HasStock(p) ==> cart.items == AddLine(old(cart.items), ToCartProduct(p), GetProductQuantity(p.codigo))
      ensures !HasStock(p) ==> cart.items == old(cart.items)
    {
      if HasStock(p) {
        cart.AddItem(ToCartProduct(p), GetProductQuantity(p.codigo));
      }
    }
  }

  /** The cart badge, `items.reduce((t, item) => t + item.quantity, 0)`,
      grows by exactly the picked quantity when a new product with enough
      stock is added. */
  lemma BadgeGrowsByPicked(items: seq<CartItem>, p: Producto, quantity: int)
    requires WellFormed(items) && !HasId(items, p.id) && 1 <= quantity <= StockOf(p)
    ensures TotalItems(AddLine(items, ToCartProduct(p), quantity)) == TotalItems(items) + quantity
  {
    AddLineNew(items, ToCartProduct(p), quantity);
    SumsAppend(items, NewItem(ToCartProduct(p), quantity));
  }
}
