/**
  The cart records of carrito/models.py: a product, a cart line
  (ItemCarrito) and the subtotal and total arithmetic over them.
  Prices are DecimalFields, exact decimals, modelled as reals.
*/
module CarritoModels {
  import opened Wrappers

  /** A catalogue product as the cart sees it. */
  datatype Producto = Producto(id: nat, nombre: string, precio: real)

  /** One product line of a cart. `talla` is read by the checkout view but
      is not declared in carrito/models.py; it is kept as an optional text. */
  datatype ItemCarrito = ItemCarrito(id: nat, carrito: nat, producto: Producto, cantidad: nat, talla: Option<string>)

  /** The largest value of a PostgreSQL integer column. */
  const MaxEntero: int := 2147483647

  /** A quantity a PositiveIntegerField column stores: its CHECK wants it
      non-negative, and a larger value than MaxEntero does not fit the
      integer column (a DataError). */
  predicate Guardable(q: int) { 0 <= q <= MaxEntero }

  /** The default of ItemCarrito.cantidad. */
  const DefaultCantidad: nat := 1

  /** ItemCarrito.subtotal: the price, whose Decimal test reassigns the same
      value, times the quantity. */
  function Subtotal(item: ItemCarrito): real {
    item.producto.precio * item.cantidad as real
  }

  /** sum(item.subtotal() for item in items). */
  function SumSubtotals(items: seq<ItemCarrito>): real {
    if items == [] then 0.0 else Subtotal(items[0]) + SumSubtotals(items[1..])
  }

  /** carrito.items.all(): the lines of one cart, in table order. */
  function ItemsOf(items: seq<ItemCarrito>, carrito: nat): (r: seq<ItemCarrito>)
    ensures forall x :: x in r ==> x in items && x.carrito == carrito
    ensures forall x :: x in items && x.carrito == carrito ==> x in r
    ensures |r| <= |items|
  {
    if items == [] then []
    else (if items[0].carrito == carrito then [items[0]] else []) + ItemsOf(items[1..], carrito)
  }

  /** Carrito.total. */
  function Total(items: seq<ItemCarrito>, carrito: nat): real {
    SumSubtotals(ItemsOf(items, carrito))
  }

  /** Summing is additive over concatenation. */
  lemma {:induction false} SumSubtotalsAppend(a: seq<ItemCarrito>, b: seq<ItemCarrito>)
    ensures SumSubtotals(a + b) == SumSubtotals(a) + SumSubtotals(b)
  {
    if a != [] {
      assert (a + b)[0] == a[0] && (a + b)[1..] == a[1..] + b;
      SumSubtotalsAppend(a[1..], b);
    } else {
      assert a + b == b;
    }
  }

  lemma {:induction false} ItemsOfAppend(a: seq<ItemCarrito>, b: seq<ItemCarrito>, carrito: nat)
    ensures ItemsOf(a + b, carrito) == ItemsOf(a, carrito) + ItemsOf(b, carrito)
  {
    if a != [] {
      assert (a + b)[0] == a[0] && (a + b)[1..] == a[1..] + b;
      ItemsOfAppend(a[1..], b, carrito);
    } else {
      assert a + b == b;
    }
  }

  /** Adding a line to a cart raises its total by exactly that line's
      subtotal; the totals of other carts do not move. */
  lemma {:induction false} TotalAddItem(items: seq<ItemCarrito>, x: ItemCarrito, carrito: nat)
    ensures x.carrito == carrito ==> Total(items + [x], carrito) == Total(items, carrito) + Subtotal(x)
    ensures x.carrito != carrito ==> Total(items + [x], carrito) == Total(items, carrito)
  {
    ItemsOfAppend(items, [x], carrito);
    SumSubtotalsAppend(ItemsOf(items, carrito), ItemsOf([x], carrito));
    assert ItemsOf([x], carrito) == (if x.carrito == carrito then [x] else []) + ItemsOf([], carrito);
  }

  /** The total of a table split around one line. */
  lemma {:induction false} TotalSplit(p: seq<ItemCarrito>, x: ItemCarrito, s: seq<ItemCarrito>, carrito: nat)
    ensures Total(p + [x] + s, carrito)
         == Total(p, carrito) + (if x.carrito == carrito then Subtotal(x) else 0.0) + Total(s, carrito)
  {
    ItemsOfAppend(p + [x], s, carrito);
    TotalAddItem(p, x, carrito);
    SumSubtotalsAppend(ItemsOf(p + [x], carrito), ItemsOf(s, carrito));
  }

  /** Replacing line `k` by `y` swaps their contributions to the total. */
  lemma {:induction false} TotalReplace(items: seq<ItemCarrito>, k: nat, y: ItemCarrito, carrito: nat)
    requires k < |items|
    ensures Total(items[k := y], carrito)
         == Total(items, carrito) - (if items[k].carrito == carrito then Subtotal(items[k]) else 0.0)
                                  + (if y.carrito == carrito then Subtotal(y) else 0.0)
  {
    var p, s := items[..k], items[k + 1..];
    assert items == p + [items[k]] + s;
    assert items[k := y] == p + [y] + s;
    TotalSplit(p, items[k], s, carrito);
    TotalSplit(p, y, s, carrito);
  }

  /** Changing the quantity of line `k` moves its cart's total by the price
      times the change, and no other cart's total. */
  lemma {:induction false} TotalSetQuantity(items: seq<ItemCarrito>, k: nat, q: nat, carrito: nat)
    requires k < |items|
    ensures Total(items[k := items[k].(cantidad := q)], carrito)
         == Total(items, carrito) + (if items[k].carrito == carrito then items[k].producto.precio * (q as real - items[k].cantidad as real) else 0.0)
  {
    TotalReplace(items, k, items[k].(cantidad := q), carrito);
    SubtotalDifference(items[k], q);
  }

  /** Setting a line's quantity to `q` changes its subtotal by the price
      times the change. */
  lemma {:induction false} SubtotalDifference(x: ItemCarrito, q: nat)
    ensures Subtotal(x.(cantidad := q)) - Subtotal(x) == x.producto.precio * (q as real - x.cantidad as real)
  {
  }

  /** Removing line `k` lowers its cart's total by that line's subtotal. */
  lemma {:induction false} TotalRemoveItem(items: seq<ItemCarrito>, k: nat, carrito: nat)
    requires k < |items|
    ensures Total(items[..k] + items[k + 1..], carrito)
         == Total(items, carrito) - (if items[k].carrito == carrito then Subtotal(items[k]) else 0.0)
  {
    assert items == items[..k] + [items[k]] + items[k + 1..];
    TotalSplit(items[..k], items[k], items[k + 1..], carrito);
    ItemsOfAppend(items[..k], items[k + 1..], carrito);
    SumSubtotalsAppend(ItemsOf(items[..k], carrito), ItemsOf(items[k + 1..], carrito));
  }

  /** With no negative prices, no total is negative. */
  lemma {:induction false} SumSubtotalsNonNegative(items: seq<ItemCarrito>)
    requires forall x :: x in items ==> x.producto.precio >= 0.0
    ensures SumSubtotals(items) >= 0.0
  {
    if items != [] {
      assert items[0] in items;
      SumSubtotalsNonNegative(items[1..]);
    }
  }
}
