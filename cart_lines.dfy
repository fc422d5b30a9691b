/** The line-list logic that both `cartStore.ts` copies (ventas/store and
    clientes/store) share word for word: products, cart lines, and the new
    `items` array each action computes inside `set`. The two stores are the
    classes in VentasCart and ClientesCart. */
module CartLines {
  import opened Common

  /** A product as handed to `addItem`. Prices are exact reals. */
  datatype Product = Product(id: string, name: string, price: real, image: string, code: string, stock: int)

  /** `{ ...product, quantity }`: the product snapshot taken when the line
      was created, plus the chosen quantity. */
  datatype CartItem = CartItem(id: string, name: string, price: real, image: string, code: string, stock: int, quantity: int)

  function NewItem(p: Product, quantity: int): CartItem
  {
    CartItem(p.id, p.name, p.price, p.image, p.code, p.stock, Min(quantity, p.stock))
  }

  predicate HasId(items: seq<CartItem>, id: string)
  {
    exists i :: 0 <= i < |items| && items[i].id == id
  }

  /** No two lines share a product id. */
  predicate UniqueIds(items: seq<CartItem>)
  {
    forall i, j :: 0 <= i < j < |items| ==> items[i].id != items[j].id
  }

  /** Every line's quantity is at most the stock captured when it was created. */
  predicate WithinStock(items: seq<CartItem>)
  {
    forall it :: it in items ==> it.quantity <= it.stock
  }

  /** The invariant every reachable cart satisfies. */
  predicate WellFormed(items: seq<CartItem>)
  {
    UniqueIds(items) && WithinStock(items)
  }

  /** `items.find(item => item.id === id)`, as the index of the first match. */
  function FindIndex(items: seq<CartItem>, id: string): (r: Option<nat>)
    ensures r.Some? ==> r.value < |items| && items[r.value].id == id
    ensures r.Some? ==> forall j :: 0 <= j < r.value ==> items[j].id != id
    ensures r.None? <==> !HasId(items, id)
  {
    if items == [] then None
    else if items[0].id == id then Some(0)
    else
      match FindIndex(items[1..], id)
      case None =>
        assert forall j :: 1 <= j < |items| ==> items[j] == items[1..][j - 1];
        None
      case Some(k) => Some(k + 1)
  }

  /** With unique ids, the line found for `id` is the only line carrying it. */
  lemma FindIndexUnique(items: seq<CartItem>, id: string, k: nat)
    requires UniqueIds(items) && k < |items| && items[k].id == id
    ensures FindIndex(items, id) == Some(k)
  {
  }

  /** The merged line of `addItem`: the old quantity plus the added one,
      clamped to the stock stored in the line. */
  function Merged(it: CartItem, quantity: int): CartItem
  {
    it.(quantity := Min(it.quantity + quantity, it.stock))
  }

  /** The `items` array `addItem(product, quantity)` stores. */
  function AddLine(items: seq<CartItem>, p: Product, quantity: int): (r: seq<CartItem>)
    ensures |r| == if HasId(items, p.id) then |items| else |items| + 1
    ensures HasId(r, p.id)
    ensures forall i :: 0 <= i < |items| && items[i].id != p.id ==> r[i] == items[i]
    ensures forall i :: 0 <= i < |items| ==> r[i].id == items[i].id && r[i].stock == items[i].stock
    ensures !HasId(items, p.id) ==> r[|items|] == NewItem(p, quantity)
    ensures UniqueIds(items) ==> UniqueIds(r)
    ensures WithinStock(items) ==> WithinStock(r)
  {
    match FindIndex(items, p.id)
    case Some(k) =>
      var r := seq(|items|, i requires 0 <= i < |items| =>
        if items[i].id == p.id then Merged(items[i], quantity) else items[i]);
      assert r[k].id == p.id;
      r
    case None =>
      var r := items + [NewItem(p, quantity)];
      assert r[|items|].id == p.id;
      r
  }

  /** Adding an id that is already present rewrites that one line, in place,
      to `min(old + added, stored stock)`; the new product's own stock and
      other fields are ignored. */
  lemma AddLineExisting(items: seq<CartItem>, p: Product, quantity: int, k: nat)
    requires UniqueIds(items) && k < |items| && items[k].id == p.id
    ensures AddLine(items, p, quantity) == items[k := Merged(items[k], quantity)]
    ensures AddLine(items, p, quantity)[k].quantity == Min(items[k].quantity + quantity, items[k].stock)
  {
    var r := AddLine(items, p, quantity);
    assert |r| == |items|;
    forall i | 0 <= i < |items| ensures r[i] == items[k := Merged(items[k], quantity)][i] {
      assert r[i] == if items[i].id == p.id then Merged(items[i], quantity) else items[i];
    }
  }

  /** A product whose id is absent is appended at the end with quantity
      `min(quantity, stock)`; nothing enforces a quantity of at least 1. */
  lemma AddLineNew(items: seq<CartItem>, p: Product, quantity: int)
    requires !HasId(items, p.id)
    ensures AddLine(items, p, quantity) == items + [NewItem(p, quantity)]
    ensures quantity >= 1 && p.stock == 0 ==> AddLine(items, p, quantity)[|items|].quantity == 0
  {
  }

  /** `items.filter(item => item.id !== id)`. */
  function RemoveId(items: seq<CartItem>, id: string): (r: seq<CartItem>)
    ensures |r| <= |items|
    ensures !HasId(items, id) ==> r == items
  {
    if items == [] then []
    else
      var rest := RemoveId(items[1..], id);
      assert HasId(items[1..], id) ==> HasId(items, id) by {
        if HasId(items[1..], id) {
          var j :| 0 <= j < |items[1..]| && items[1..][j].id == id;
          assert items[j + 1].id == id;
        }
      }
      if items[0].id == id then rest else [items[0]] + rest
  }

  /** `removeItem(id)` keeps exactly the lines whose id differs from `id`. */
  lemma {:induction false} RemoveIdMembers(items: seq<CartItem>, id: string)
    ensures forall x :: x in RemoveId(items, id) <==> x in items && x.id != id
  {
    if items != [] {
      RemoveIdMembers(items[1..], id);
      assert forall x :: x in items <==> x == items[0] || x in items[1..];
    }
  }

  lemma RemoveIdKeepsStock(items: seq<CartItem>, id: string)
    ensures WithinStock(items) ==> WithinStock(RemoveId(items, id))
  {
    RemoveIdMembers(items, id);
  }

  lemma TailUnique(items: seq<CartItem>)
    requires UniqueIds(items) && items != []
    ensures UniqueIds(items[1..])
    ensures forall x :: x in items[1..] ==> x.id != items[0].id
  {
    var tail := items[1..];
    forall i, j | 0 <= i < j < |tail| ensures tail[i].id != tail[j].id {
      assert tail[i] == items[i + 1] && tail[j] == items[j + 1];
    }
    forall x | x in tail ensures x.id != items[0].id {
      var j :| 0 <= j < |tail| && tail[j] == x;
      assert items[j + 1] == x;
    }
  }

  lemma PrependUnique(x: CartItem, rest: seq<CartItem>)
    requires UniqueIds(rest)
    requires forall y :: y in rest ==> y.id != x.id
    ensures UniqueIds([x] + rest)
  {
    var r := [x] + rest;
    forall i, j | 0 <= i < j < |r| ensures r[i].id != r[j].id {
      assert r[j] == rest[j - 1];
      if i == 0 {
        assert r[j] in rest;
      } else {
        assert r[i] == rest[i - 1];
      }
    }
  }

  lemma {:induction false} RemoveIdKeepsUnique(items: seq<CartItem>, id: string)
    ensures UniqueIds(items) ==> UniqueIds(RemoveId(items, id))
  {
    if items != [] && UniqueIds(items) {
      var tail := items[1..];
      TailUnique(items);
      RemoveIdKeepsUnique(tail, id);
      if items[0].id != id {
        RemoveIdMembers(tail, id);
        PrependUnique(items[0], RemoveId(tail, id));
      }
    }
  }

  /** Filtering a concatenation filters each part. */
  lemma {:induction false} RemoveIdConcat(a: seq<CartItem>, b: seq<CartItem>, id: string)
    ensures RemoveId(a + b, id) == RemoveId(a, id) + RemoveId(b, id)
  {
    if a != [] {
      RemoveIdConcat(a[1..], b, id);
      assert (a + b)[1..] == a[1..] + b;
    } else {
      assert a + b == b;
    }
  }

  /** With unique ids, `removeItem(id)` deletes exactly the one line at the
      index where `id` sits and keeps the other lines in their order. */
  lemma RemoveIdAt(items: seq<CartItem>, id: string, k: nat)
    requires UniqueIds(items) && k < |items| && items[k].id == id
    ensures RemoveId(items, id) == items[..k] + items[k + 1..]
  {
    var pre, post := items[..k], items[k + 1..];
    assert items == pre + ([items[k]] + post);
    assert !HasId(pre, id) by {
      forall j | 0 <= j < |pre| ensures pre[j].id != id { assert pre[j] == items[j]; }
    }
    assert !HasId(post, id) by {
      forall j | 0 <= j < |post| ensures post[j].id != id { assert post[j] == items[k + 1 + j]; }
    }
    RemoveIdConcat(pre, [items[k]] + post, id);
    assert ([items[k]] + post)[1..] == post;
  }

  /** The per-line map of `updateQuantity(id, q)` for q > 0. */
  function SetQuantity(items: seq<CartItem>, id: string, q: int): (r: seq<CartItem>)
    ensures |r| == |items|
    ensures forall i :: 0 <= i < |items| && items[i].id != id ==> r[i] == items[i]
    ensures forall i :: 0 <= i < |items| && items[i].id == id ==>
      r[i] == items[i].(quantity := Min(q, items[i].stock))
  {
    seq(|items|, i requires 0 <= i < |items| =>
      if items[i].id == id then items[i].(quantity := Min(q, items[i].stock)) else items[i])
  }

  /** The `items` array `updateQuantity(id, q)` leaves: q <= 0 is a removal,
      otherwise the matching lines get `min(q, stored stock)`. */
  function UpdateLines(items: seq<CartItem>, id: string, q: int): (r: seq<CartItem>)
    ensures q > 0 ==> |r| == |items|
    ensures q > 0 ==> forall i :: 0 <= i < |items| ==> r[i].id == items[i].id
    ensures !HasId(items, id) ==> r == items
    ensures UniqueIds(items) ==> UniqueIds(r)
    ensures WithinStock(items) ==> WithinStock(r)
  {
    if q <= 0 then
      RemoveIdKeepsUnique(items, id);
      RemoveIdKeepsStock(items, id);
      RemoveId(items, id)
    else
      var r := SetQuantity(items, id, q);
      assert !HasId(items, id) ==> r == items;
      assert forall x :: x in r ==> x.quantity <= x.stock || x in items;
      r
  }

  /** The cart actions, for stating properties of whole action sequences. */
  datatype Action =
    | Add(product: Product, quantity: int)
    | Remove(id: string)
    | Update(id: string, quantity: int)
    | Clear

  function Step(items: seq<CartItem>, a: Action): seq<CartItem>
  {
    match a
    case Add(p, q) => AddLine(items, p, q)
    case Remove(id) => RemoveId(items, id)
    case Update(id, q) => UpdateLines(items, id, q)
    case Clear => []
  }

  function Run(items: seq<CartItem>, actions: seq<Action>): seq<CartItem>
    decreases |actions|
  {
    if actions == [] then items else Run(Step(items, actions[0]), actions[1..])
  }

  /** Starting from the empty cart, every sequence of actions leaves pairwise
      distinct ids and every quantity at most its line's stock. */
  lemma {:induction false} RunWellFormed(items: seq<CartItem>, actions: seq<Action>)
    requires WellFormed(items)
    ensures WellFormed(Run(items, actions))
    decreases |actions|
  {
    if actions != [] {
      match actions[0] {
        case Remove(id) => RemoveIdKeepsUnique(items, id); RemoveIdKeepsStock(items, id);
        case _ =>
      }
      RunWellFormed(Step(items, actions[0]), actions[1..]);
    }
  }

  /** `items.reduce((t, item) => t + item.quantity, 0)`. */
  function TotalItems(items: seq<CartItem>): int
  {
    if items == [] then 0 else items[0].quantity + TotalItems(items[1..])
  }

  /** `items.reduce((t, item) => t + item.price * item.quantity, 0)`. */
  function Subtotal(items: seq<CartItem>): real
  {
    if items == [] then 0.0 else items[0].price * items[0].quantity as real + Subtotal(items[1..])
  }

  /** The item count of lines with no negative quantity is never negative,
      and it is at least each line's quantity. */
  lemma {:induction false} TotalItemsBounds(items: seq<CartItem>)
    requires forall i :: 0 <= i < |items| ==> items[i].quantity >= 0
    ensures TotalItems(items) >= 0
    ensures forall i :: 0 <= i < |items| ==> items[i].quantity <= TotalItems(items)
    decreases |items|
  {
    if items != [] {
      TotalItemsBounds(items[1..]);
      assert forall i :: 1 <= i < |items| ==> items[i] == items[1..][i - 1];
    }
  }

  /** The subtotal of lines with no negative price or quantity is never
      negative. */
  lemma {:induction false} SubtotalNonNegative(items: seq<CartItem>)
    requires forall i :: 0 <= i < |items| ==> items[i].price >= 0.0 && items[i].quantity >= 0
    ensures Subtotal(items) >= 0.0
    decreases |items|
  {
    if items != [] {
      var x := items[0];
      assert x.price * x.quantity as real >= 0.0 by {
        NonNegativeProduct(x.price, x.quantity as real);
      }
      SubtotalNonNegative(items[1..]);
    }
  }

  lemma NonNegativeProduct(a: real, b: real)
    requires a >= 0.0 && b >= 0.0
    ensures a * b >= 0.0
  {
  }

  /** Appending a line adds its quantity and its value to the sums. */
  lemma {:induction false} SumsAppend(items: seq<CartItem>, x: CartItem)
    ensures TotalItems(items + [x]) == TotalItems(items) + x.quantity
    ensures Subtotal(items + [x]) == Subtotal(items) + x.price * x.quantity as real
  {
    if items != [] {
      assert (items + [x])[1..] == items[1..] + [x];
      SumsAppend(items[1..], x);
    }
  }

  /** Replacing one line changes the sums by the difference of the two lines. */
  lemma {:induction false} SumsReplace(items: seq<CartItem>, k: nat, x: CartItem)
    requires k < |items|
    ensures TotalItems(items[k := x]) == TotalItems(items) - items[k].quantity + x.quantity
    ensures Subtotal(items[k := x]) == Subtotal(items) - items[k].price * items[k].quantity as real + x.price * x.quantity as real
  {
    if k > 0 {
      assert items[k := x][1..] == items[1..][k - 1 := x];
      SumsReplace(items[1..], k - 1, x);
    } else {
      assert items[k := x][1..] == items[1..];
    }
  }

  /** Deleting one line takes its quantity and its value out of the sums. */
  lemma {:induction false} SumsDelete(items: seq<CartItem>, k: nat)
    requires k < |items|
    ensures TotalItems(items[..k] + items[k + 1..]) == TotalItems(items) - items[k].quantity
    ensures Subtotal(items[..k] + items[k + 1..]) == Subtotal(items) - items[k].price * items[k].quantity as real
  {
    if k > 0 {
      assert (items[..k] + items[k + 1..])[1..] == items[1..][..k - 1] + items[1..][k..];
      SumsDelete(items[1..], k - 1);
    } else {
      assert items[..0] + items[1..] == items[1..];
    }
  }
}
