/**
  The cart views of carrito/views.py over an in-memory store of their
  tables: products, one cart per user, the cart lines (ItemCarrito) and
  the separate CarritoItem table that cambiar_cantidad reads.

  The request is reduced to what the views read: the authenticated user
  (None for an anonymous visitor, whom login_required sends to the login
  page), whether the method is POST, and the raw 'cantidad' field.
*/
module CarritoViews {
  import opened Wrappers
  import opened Text
  import opened CarritoModels

  /** One entry of the carrito_modal JSON list. */
  datatype ItemDatos = ItemDatos(id: nat, producto: string, precio: real, cantidad: nat, subtotal: real)

  /** The named URLs the views redirect to. */
  datatype Vista = Index | Login | VerCarrito

  datatype Response =
    | Redirect(to: Vista)                               // redirect(...)
    | NotFound                                          // get_object_or_404 raising Http404
    | ServerError                                       // an uncaught exception: HTTP 500
    | CartJson(items: seq<ItemDatos>, total: real)      // carrito_modal's JsonResponse
    | OkJson                                            // JsonResponse({"ok": True})

  /** A row of the CarritoItem table. */
  datatype CarritoItem = CarritoItem(id: nat, usuario: nat, producto: Producto, cantidad: nat)

  // ===== table invariants ===============================================

  /** Carrito.usuario is a OneToOneField: no two users share a cart. */
  predicate OneCartPerUser(carritoDe: map<nat, nat>) {
    forall u, v :: u in carritoDe && v in carritoDe && u != v ==> carritoDe[u] != carritoDe[v]
  }

  /** get_or_create(carrito=..., producto=...) keeps one line per pair. */
  predicate UniqueLines(items: seq<ItemCarrito>) {
    forall i, j :: 0 <= i < j < |items| ==>
      !(items[i].carrito == items[j].carrito && items[i].producto.id == items[j].producto.id)
  }

  /** Primary keys are distinct and below the next one to hand out. */
  predicate IdsBelow(items: seq<ItemCarrito>, next: nat) {
    (forall i :: 0 <= i < |items| ==> items[i].id < next)
    && (forall i, j :: 0 <= i < j < |items| ==> items[i].id != items[j].id)
  }

  /** Every line shows its product as the catalogue has it. */
  predicate LinesMatchCatalog(items: seq<ItemCarrito>, productos: map<nat, Producto>) {
    forall i :: 0 <= i < |items| ==> items[i].producto.id in productos && productos[items[i].producto.id] == items[i].producto
  }

  // ===== lookups ========================================================

  /** ItemCarrito.objects.get(carrito=..., producto=...), as an index. */
  function FindLine(items: seq<ItemCarrito>, carrito: nat, productoId: nat): (r: Option<nat>)
    ensures r.Some? ==> r.value < |items| && items[r.value].carrito == carrito && items[r.value].producto.id == productoId
    ensures r.None? ==> forall i :: 0 <= i < |items| ==> !(items[i].carrito == carrito && items[i].producto.id == productoId)
  {
    if items == [] then None
    else if items[0].carrito == carrito && items[0].producto.id == productoId then Some(0)
    else match FindLine(items[1..], carrito, productoId)
      case None => None
      case Some(k) => Some(k + 1)
  }

  /** get_object_or_404(Model, id=...) on a table whose rows carry their
      id as `idOf`, as an index: found exactly when some row has the id. */
  function FindById<T>(rows: seq<T>, idOf: T -> nat, id: nat): (r: Option<nat>)
    ensures r.Some? ==> r.value < |rows| && idOf(rows[r.value]) == id
    ensures r.None? ==> forall i :: 0 <= i < |rows| ==> idOf(rows[i]) != id
  {
    if rows == [] then None
    else if idOf(rows[0]) == id then Some(0)
    else match FindById(rows[1..], idOf, id)
      case None => None
      case Some(k) => Some(k + 1)
  }

  function ItemId(x: ItemCarrito): nat { x.id }

  function CarritoItemId(x: CarritoItem): nat { x.id }

  // ===== agregar_al_carrito =============================================

  /** int(request.POST.get('cantidad', 1)): 1 when the field is absent,
      None when int() raises ValueError. */
  function CantidadPedida(cantidad: Option<string>): (r: Option<int>)
    ensures cantidad.None? ==> r == Some(1)
    ensures cantidad.Some? ==> r == ParseDecimalInt(cantidad.value)
  {
    match cantidad
    case None => Some(DefaultCantidad)
    case Some(s) => ParseDecimalInt(s)
  }

  /** The lines after get_or_create and save for `n` more of `p` in cart
      `carrito`, and whether the save was accepted. A line whose quantity
      would go negative fails the PositiveIntegerField CHECK constraint,
      and one above MaxEntero does not fit the column: an existing line
      then keeps its quantity, and a line get_or_create has just inserted
      keeps the default 1. */
  function Agregar(items: seq<ItemCarrito>, carrito: nat, p: Producto, n: int, nextId: nat): (r: (seq<ItemCarrito>, bool))
    ensures r.1 <==> (if FindLine(items, carrito, p.id).Some?
                      then Guardable(items[FindLine(items, carrito, p.id).value].cantidad as int + n)
                      else Guardable(n))
  {
    match FindLine(items, carrito, p.id)
    case Some(k) =>
      var q := items[k].cantidad as int + n;
      if Guardable(q) then (items[k := items[k].(cantidad := q as nat)], true) else (items, false)
    case None =>
      (items + [ItemCarrito(nextId, carrito, p, if Guardable(n) then n as nat else DefaultCantidad, None)], Guardable(n))
  }

  /** After agregar the pair (cart, product) has exactly the line the view
      promises: the old quantity plus `n`, or `n` on a new line, unless the
      save was refused. */
  lemma {:induction false} AgregarLine(items: seq<ItemCarrito>, carrito: nat, p: Producto, n: int, nextId: nat)
    requires UniqueLines(items)
    ensures var a := Agregar(items, carrito, p, n, nextId);
      var k := FindLine(a.0, carrito, p.id);
      k.Some?
      && a.0[k.value].cantidad as int == match FindLine(items, carrito, p.id)
           case Some(j) => if a.1 then items[j].cantidad as int + n else items[j].cantidad as int
           case None => if a.1 then n else DefaultCantidad as int
  {
    var a := Agregar(items, carrito, p, n, nextId);
    match FindLine(items, carrito, p.id)
    case Some(j) =>
      if a.1 {
        assert forall i :: 0 <= i < |a.0| ==> a.0[i].carrito == items[i].carrito && a.0[i].producto.id == items[i].producto.id;
        FindLineUnique(a.0, carrito, p.id, j);
      } else {
        FindLineUnique(items, carrito, p.id, j);
      }
    case None =>
      assert a.0[|items|].carrito == carrito && a.0[|items|].producto.id == p.id;
  }

  /** Under UniqueLines the lookup finds the one matching line. */
  lemma {:induction false} FindLineUnique(items: seq<ItemCarrito>, carrito: nat, productoId: nat, j: nat)
    requires UniqueLines(items)
    requires j < |items| && items[j].carrito == carrito && items[j].producto.id == productoId
    ensures FindLine(items, carrito, productoId) == Some(j)
  {
    var k := FindLine(items, carrito, productoId);
    assert k.Some?;
    assert !(k.value < j);
    assert !(j < k.value);
  }

  /** A refused save leaves the cart's total alone, except for the line
      get_or_create has already inserted; an accepted one raises it by the
      price times `n`. No other cart's total moves. */
  lemma {:induction false} AgregarTotal(items: seq<ItemCarrito>, carrito: nat, p: Producto, n: int, nextId: nat)
    requires forall i :: 0 <= i < |items| ==> items[i].producto.id == p.id ==> items[i].producto == p
    ensures var a := Agregar(items, carrito, p, n, nextId);
      Total(a.0, carrito) == Total(items, carrito) + (if a.1 then p.precio * n as real
                                                       else if FindLine(items, carrito, p.id).None? then p.precio else 0.0)
    ensures var a := Agregar(items, carrito, p, n, nextId);
      forall c :: c != carrito ==> Total(a.0, c) == Total(items, c)
  {
    var a := Agregar(items, carrito, p, n, nextId);
    match FindLine(items, carrito, p.id)
    case Some(k) =>
      if Guardable(items[k].cantidad as int + n) {
        assert a == (items[k := items[k].(cantidad := (items[k].cantidad as int + n) as nat)], true);
        AgregarTotalExisting(items, carrito, p, n, k);
      } else {
        assert a == (items, false);
      }
    case None =>
      assert a == (items + [ItemCarrito(nextId, carrito, p, if Guardable(n) then n as nat else DefaultCantidad, None)], Guardable(n));
      AgregarTotalNew(items, carrito, p, n, nextId);
  }

  lemma {:induction false} AgregarTotalExisting(items: seq<ItemCarrito>, carrito: nat, p: Producto, n: int, k: nat)
    requires k < |items| && items[k].carrito == carrito && items[k].producto == p
    requires items[k].cantidad as int + n >= 0
    ensures var r := items[k := items[k].(cantidad := (items[k].cantidad as int + n) as nat)];
      Total(r, carrito) == Total(items, carrito) + p.precio * n as real
      && forall c :: c != carrito ==> Total(r, c) == Total(items, c)
  {
    var y := items[k].(cantidad := (items[k].cantidad as int + n) as nat);
    TotalReplace(items, k, y, carrito);
    SubtotalAdd(items[k], n);
    forall c | c != carrito ensures Total(items[k := y], c) == Total(items, c) {
      TotalReplace(items, k, y, c);
    }
  }

  /** Adding `n` to a line's quantity adds the price times `n` to its subtotal. */
  lemma {:induction false} SubtotalAdd(x: ItemCarrito, n: int)
    requires x.cantidad as int + n >= 0
    ensures Subtotal(x.(cantidad := (x.cantidad as int + n) as nat)) == Subtotal(x) + x.producto.precio * n as real
  {
    var q := (x.cantidad as int + n) as nat;
    assert q as real == x.cantidad as real + n as real;
  }

  lemma {:induction false} AgregarTotalNew(items: seq<ItemCarrito>, carrito: nat, p: Producto, n: int, nextId: nat)
    ensures var line := ItemCarrito(nextId, carrito, p, if Guardable(n) then n as nat else DefaultCantidad, None);
      Total(items + [line], carrito) == Total(items, carrito) + (if Guardable(n) then p.precio * n as real else p.precio)
      && forall c :: c != carrito ==> Total(items + [line], c) == Total(items, c)
  {
    var line := ItemCarrito(nextId, carrito, p, if Guardable(n) then n as nat else DefaultCantidad, None);
    TotalAddItem(items, line, carrito);
    forall c | c != carrito ensures Total(items + [line], c) == Total(items, c) {
      TotalAddItem(items, line, c);
    }
  }

  /** What one quantity change does to the CarritoItem quantity. */
  function NuevaCantidad(q: nat, accion: string): (r: nat)
    ensures accion == "mas" ==> r == q + 1
    ensures accion == "menos" && q > 1 ==> r == q - 1
    ensures accion != "mas" && (accion != "menos" || q <= 1) ==> r == q
    ensures q >= 1 ==> r >= 1
  {
    if accion == "mas" then q + 1
    else if accion == "menos" && q > 1 then q - 1
    else q
  }

  /** A 'mas' undone by a 'menos' gives the quantity back. */
  lemma {:induction false} MasThenMenos(q: nat)
    requires q >= 1
    ensures NuevaCantidad(NuevaCantidad(q, "mas"), "menos") == q
  {
    assert NuevaCantidad(q, "mas") == q + 1;
  }

  // ===== carrito_modal ==================================================

  /** The list comprehension of carrito_modal. */
  function Datos(lines: seq<ItemCarrito>): (r: seq<ItemDatos>)
    ensures |r| == |lines|
    ensures forall i :: 0 <= i < |lines| ==>
      r[i] == ItemDatos(lines[i].id, lines[i].producto.nombre, lines[i].producto.precio, lines[i].cantidad, Subtotal(lines[i]))
  {
    if lines == [] then []
    else [ItemDatos(lines[0].id, lines[0].producto.nombre, lines[0].producto.precio, lines[0].cantidad, Subtotal(lines[0]))]
         + Datos(lines[1..])
  }

  function SumDatos(ds: seq<ItemDatos>): real {
    if ds == [] then 0.0 else ds[0].subtotal + SumDatos(ds[1..])
  }

  /** The listed subtotals add up to the cart total. */
  lemma {:induction false} DatosTotal(lines: seq<ItemCarrito>)
    ensures SumDatos(Datos(lines)) == SumSubtotals(lines)
  {
    if lines != [] {
      assert Datos(lines)[1..] == Datos(lines[1..]);
      DatosTotal(lines[1..]);
    }
  }

  // ===== the store as a value ==========================================

  /** All the tables the cart views touch. */
  datatype CartState = CartState(
    productos: map<nat, Producto>,
    carritoDe: map<nat, nat>,          // usuario -> id of that user's Carrito
    nextCarrito: nat,
    items: seq<ItemCarrito>,
    nextItem: nat,
    carritoItems: seq<CarritoItem>)

  /** Products are keyed by their id. */
  predicate CatalogKeyed(productos: map<nat, Producto>) {
    forall k :: k in productos ==> productos[k].id == k
  }

  predicate ValidState(s: CartState) {
    CatalogKeyed(s.productos)
    && OneCartPerUser(s.carritoDe)
    && (forall u :: u in s.carritoDe ==> s.carritoDe[u] < s.nextCarrito)
    && UniqueLines(s.items)
    && IdsBelow(s.items, s.nextItem)
    && LinesMatchCatalog(s.items, s.productos)
  }

  /** Carrito.objects.get_or_create(usuario=u): the new state and the id of
      the user's cart. */
  function WithCarrito(s: CartState, u: nat): (r: (CartState, nat))
    ensures u in r.0.carritoDe && r.0.carritoDe[u] == r.1
    ensures u in s.carritoDe ==> r == (s, s.carritoDe[u])
    ensures r.0.items == s.items && r.0.nextItem == s.nextItem && r.0.productos == s.productos
    ensures r.0.carritoItems == s.carritoItems
    ensures forall v :: v in s.carritoDe ==> v in r.0.carritoDe && r.0.carritoDe[v] == s.carritoDe[v]
  {
    if u in s.carritoDe then (s, s.carritoDe[u])
    else (s.(carritoDe := s.carritoDe[u := s.nextCarrito], nextCarrito := s.nextCarrito + 1), s.nextCarrito)
  }

  /** agregar_al_carrito(request, producto_id), given what
      int(request.POST.get('cantidad', 1)) answers (None: ValueError). */
  function AgregarStep(s: CartState, usuario: Option<nat>, esPost: bool, productoId: nat, cantidad: Option<int>)
    : (CartState, Response)
  {
    if usuario.None? then (s, Redirect(Login))
    else if !esPost then (s, Redirect(Index))
    else if productoId !in s.productos then (s, NotFound)
    else
      var (s1, c) := WithCarrito(s, usuario.value);
      match cantidad
      case None => (s1, ServerError)
      case Some(n) => Guardar(s1, c, productoId, n)
  }

  /** The get_or_create of the line and its save, for `n` more of product
      `productoId` in cart `c`. */
  function Guardar(s: CartState, c: nat, productoId: nat, n: int): (CartState, Response)
    requires productoId in s.productos
  {
    var a := Agregar(s.items, c, s.productos[productoId], n, s.nextItem);
    var next := if FindLine(s.items, c, productoId).None? then s.nextItem + 1 else s.nextItem;
    (s.(items := a.0, nextItem := next), if a.1 then Redirect(Index) else ServerError)
  }

  /** eliminar_item(request, item_id). */
  function EliminarStep(s: CartState, usuario: Option<nat>, itemId: nat): (CartState, Response) {
    if usuario.None? then (s, Redirect(Login))
    else match FindById(s.items, ItemId, itemId)
      case None => (s, NotFound)
      case Some(k) =>
        if EsDueno(s, usuario.value, s.items[k].carrito)
        then (s.(items := s.items[..k] + s.items[k + 1..]), Redirect(VerCarrito))
        else (s, Redirect(VerCarrito))
  }

  /** item.carrito.usuario == request.user. */
  predicate EsDueno(s: CartState, u: nat, carrito: nat) {
    u in s.carritoDe && s.carritoDe[u] == carrito
  }

  /** carrito_modal(request). */
  function ModalStep(s: CartState, usuario: Option<nat>): (CartState, Response) {
    if usuario.None? then (s, Redirect(Login))
    else
      var (s1, c) := WithCarrito(s, usuario.value);
      (s1, CartJson(Datos(ItemsOf(s1.items, c)), Total(s1.items, c)))
  }

  /** cambiar_cantidad(request, item_id, accion); a 'mas' past MaxEntero
      does not fit the column, and the save raises. */
  function CambiarStep(s: CartState, itemId: nat, accion: string): (CartState, Response) {
    match FindById(s.carritoItems, CarritoItemId, itemId)
    case None => (s, NotFound)
    case Some(k) =>
      var row := s.carritoItems[k];
      var q := NuevaCantidad(row.cantidad, accion);
      if !Guardable(q) then (s, ServerError)
      else (s.(carritoItems := s.carritoItems[k := row.(cantidad := q)]), OkJson)
  }

  // ===== what the views promise =========================================

  lemma {:induction false} WithCarritoValid(s: CartState, u: nat)
    requires ValidState(s)
    ensures ValidState(WithCarrito(s, u).0)
  {
  }

  /** agregar_al_carrito keeps every table invariant, in particular one
      line per (cart, product). */
  lemma {:induction false} AgregarPreserves(s: CartState, usuario: Option<nat>, esPost: bool, productoId: nat, cantidad: Option<int>)
    requires ValidState(s)
    ensures ValidState(AgregarStep(s, usuario, esPost, productoId, cantidad).0)
  {
    if usuario.Some? && esPost && productoId in s.productos {
      var (s1, c) := WithCarrito(s, usuario.value);
      WithCarritoValid(s, usuario.value);
      if cantidad.Some? {
        AgregarKeepsInvariants(s1.items, c, s1.productos[productoId], cantidad.value, s1.nextItem, s1.productos);
      }
    }
  }

  /** Anything but an authenticated POST for a known product changes nothing. */
  lemma {:induction false} AgregarIgnored(s: CartState, usuario: Option<nat>, esPost: bool, productoId: nat, cantidad: Option<int>)
    requires usuario.None? || !esPost || productoId !in s.productos
    ensures AgregarStep(s, usuario, esPost, productoId, cantidad).0 == s
    ensures AgregarStep(s, usuario, esPost, productoId, cantidad).1
            == if usuario.None? then Redirect(Login) else if !esPost then Redirect(Index) else NotFound
  {
  }

  /** After a POST the user's cart holds exactly one line for the product,
      with the old quantity plus `n`, or `n` on a new line, unless the save
      was refused. */
  lemma {:induction false} AgregarEffectLine(s: CartState, u: nat, productoId: nat, n: int)
    requires ValidState(s) && productoId in s.productos
    ensures var r := AgregarStep(s, Some(u), true, productoId, Some(n));
      var c := WithCarrito(s, u).1;
      && FindLine(r.0.items, c, productoId).Some?
      && var k := FindLine(r.0.items, c, productoId).value;
         r.0.items[k].cantidad as int == match FindLine(s.items, c, productoId)
           case Some(j) => if r.1 == Redirect(Index) then s.items[j].cantidad as int + n else s.items[j].cantidad as int
           case None => if r.1 == Redirect(Index) then n else DefaultCantidad as int
  {
    var (s1, c) := WithCarrito(s, u);
    assert AgregarStep(s, Some(u), true, productoId, Some(n)) == Guardar(s1, c, productoId, n);
    var p := s.productos[productoId];
    assert p.id == productoId;
    AgregarLine(s1.items, c, p, n, s1.nextItem);
  }

  lemma {:induction false} EliminarPreserves(s: CartState, usuario: Option<nat>, itemId: nat)
    requires ValidState(s)
    ensures ValidState(EliminarStep(s, usuario, itemId).0)
  {
    if usuario.Some? && FindById(s.items, ItemId, itemId).Some? {
      RemoveKeepsInvariants(s.items, FindById(s.items, ItemId, itemId).value, s.nextItem, s.productos);
    }
  }

  /** eliminar_item deletes a line only for the owner of its cart: it then
      removes exactly that line, the owner's total drops by its subtotal
      and no other cart changes. */
  lemma {:induction false} EliminarOnlyOwner(s: CartState, u: nat, itemId: nat)
    ensures var r := EliminarStep(s, Some(u), itemId);
      r.0.items != s.items ==>
        var k := FindById(s.items, ItemId, itemId).value;
        EsDueno(s, u, s.items[k].carrito)
        && r.0.items == s.items[..k] + s.items[k + 1..]
        && Total(r.0.items, s.items[k].carrito) == Total(s.items, s.items[k].carrito) - Subtotal(s.items[k])
        && forall c :: c != s.items[k].carrito ==> Total(r.0.items, c) == Total(s.items, c)
    ensures var r := EliminarStep(s, Some(u), itemId);
      r.0.carritoDe == s.carritoDe && r.0.carritoItems == s.carritoItems
      && r.1 == if FindById(s.items, ItemId, itemId).None? then NotFound else Redirect(VerCarrito)
  {
    var r := EliminarStep(s, Some(u), itemId);
    if r.0.items != s.items {
      var k := FindById(s.items, ItemId, itemId).value;
      TotalRemoveItem(s.items, k, s.items[k].carrito);
      forall c | c != s.items[k].carrito ensures Total(r.0.items, c) == Total(s.items, c) {
        TotalRemoveItem(s.items, k, c);
      }
    }
  }

  /** The modal's listed subtotals add up to the total it reports, which is
      the user's cart total; only get_or_create may change the state. */
  lemma {:induction false} ModalConsistent(s: CartState, u: nat)
    requires ValidState(s)
    ensures var r := ModalStep(s, Some(u));
      r.0 == WithCarrito(s, u).0 && ValidState(r.0)
      && r.1.CartJson? && SumDatos(r.1.items) == r.1.total
      && r.1.total == Total(s.items, r.0.carritoDe[u])
      && |r.1.items| == |ItemsOf(s.items, r.0.carritoDe[u])|
  {
    var (s1, c) := WithCarrito(s, u);
    DatosTotal(ItemsOf(s1.items, c));
  }

  lemma {:induction false} CambiarPreserves(s: CartState, itemId: nat, accion: string)
    requires ValidState(s)
    ensures ValidState(CambiarStep(s, itemId, accion).0)
  {
  }

  /** cambiar_cantidad never brings a quantity below 1 and touches one row. */
  lemma {:induction false} CambiarKeepsPositive(s: CartState, itemId: nat, accion: string)
    requires forall i :: 0 <= i < |s.carritoItems| ==> s.carritoItems[i].cantidad >= 1
    ensures var r := CambiarStep(s, itemId, accion);
      (forall i :: 0 <= i < |r.0.carritoItems| ==> r.0.carritoItems[i].cantidad >= 1)
      && |r.0.carritoItems| == |s.carritoItems|
      && (forall i :: 0 <= i < |s.carritoItems| && s.carritoItems[i].id != itemId ==> r.0.carritoItems[i] == s.carritoItems[i])
      && r.0.items == s.items && r.0.carritoDe == s.carritoDe
  {
  }

  // ===== the store ======================================================

  /** The cart tables, updated in place by the views. */
  class CartStore {
    var productos: map<nat, Producto>
    var carritoDe: map<nat, nat>
    var nextCarrito: nat
    var items: seq<ItemCarrito>
    var nextItem: nat
    var carritoItems: seq<CarritoItem>

    function State(): CartState
      reads this
    {
      CartState(productos, carritoDe, nextCarrito, items, nextItem, carritoItems)
    }

    ghost predicate Valid()
      reads this
    {
      ValidState(State())
    }

    constructor (productos: map<nat, Producto>, carritoItems: seq<CarritoItem>)
      requires CatalogKeyed(productos)
      ensures Valid()
      ensures State() == CartState(productos, map[], 0, [], 0, carritoItems)
    {
      this.productos := productos;
      this.carritoItems := carritoItems;
      carritoDe := map[];
      nextCarrito := 0;
      items := [];
      nextItem := 0;
    }

    /** Carrito.objects.get_or_create(usuario=u). */
    method CarritoDe(u: nat) returns (c: nat)
      modifies this
      ensures (State(), c) == WithCarrito(old(State()), u)
    {
      if u in carritoDe {
        c := carritoDe[u];
      } else {
        c := nextCarrito;
        carritoDe := carritoDe[u := c];
        nextCarrito := nextCarrito + 1;
      }
    }

    method AgregarAlCarrito(usuario: Option<nat>, esPost: bool, productoId: nat, cantidad: Option<string>)
      returns (resp: Response)
      requires Valid()
      modifies this
      ensures Valid()
      ensures (State(), resp) == AgregarStep(old(State()), usuario, esPost, productoId, CantidadPedida(cantidad))
    {
      ghost var s0 := State();
      AgregarPreserves(s0, usuario, esPost, productoId, CantidadPedida(cantidad));
      if usuario.None? {
        return Redirect(Login);
      }
      if !esPost {
        return Redirect(Index);
      }
      if productoId !in productos {
        return NotFound;
      }
      var p := productos[productoId];
      var c := CarritoDe(usuario.value);
      var n := CantidadPedida(cantidad);
      if n.None? {
        return ServerError;
      }
      var creado := FindLine(items, c, productoId).None?;
      var a := Agregar(items, c, p, n.value, nextItem);
      items := a.0;
      if creado {
        nextItem := nextItem + 1;
      }
      resp := if a.1 then Redirect(Index) else ServerError;
    }

    method EliminarItem(usuario: Option<nat>, itemId: nat) returns (resp: Response)
      requires Valid()
      modifies this
      ensures Valid()
      ensures (State(), resp) == EliminarStep(old(State()), usuario, itemId)
    {
      ghost var s0 := State();
      EliminarPreserves(s0, usuario, itemId);
      if usuario.None? {
        return Redirect(Login);
      }
      var k := FindById(items, ItemId, itemId);
      if k.None? {
        return NotFound;
      }
      var u := usuario.value;
      if u in carritoDe && carritoDe[u] == items[k.value].carrito {
        items := items[..k.value] + items[k.value + 1..];
      }
      resp := Redirect(VerCarrito);
    }

    method CarritoModal(usuario: Option<nat>) returns (resp: Response)
      requires Valid()
      modifies this
      ensures Valid()
      ensures (State(), resp) == ModalStep(old(State()), usuario)
    {
      ghost var s0 := State();
      if usuario.Some? { ModalConsistent(s0, usuario.value); }
      if usuario.None? {
        return Redirect(Login);
      }
      var c := CarritoDe(usuario.value);
      var lines := ItemsOf(items, c);
      resp := CartJson(Datos(lines), Total(items, c));
    }

    method CambiarCantidad(itemId: nat, accion: string) returns (resp: Response)
      requires Valid()
      modifies this
      ensures Valid()
      ensures (State(), resp) == CambiarStep(old(State()), itemId, accion)
    {
      ghost var s0 := State();
      CambiarPreserves(s0, itemId, accion);
      var k := FindById(carritoItems, CarritoItemId, itemId);
      if k.None? {
        return NotFound;
      }
      var row := carritoItems[k.value];
      var q := NuevaCantidad(row.cantidad, accion);
      if !Guardable(q) {
        return ServerError;
      }
      carritoItems := carritoItems[k.value := row.(cantidad := q)];
      resp := OkJson;
    }
  }

  // ===== invariant preservation =========================================

  lemma {:induction false} AgregarKeepsInvariants(items: seq<ItemCarrito>, carrito: nat, p: Producto, n: int, nextId: nat,
                               productos: map<nat, Producto>)
    requires UniqueLines(items) && IdsBelow(items, nextId) && LinesMatchCatalog(items, productos)
    requires p.id in productos && productos[p.id] == p
    ensures var a := Agregar(items, carrito, p, n, nextId);
      UniqueLines(a.0) && LinesMatchCatalog(a.0, productos)
      && IdsBelow(a.0, if FindLine(items, carrito, p.id).None? then nextId + 1 else nextId)
  {
    var a := Agregar(items, carrito, p, n, nextId);
    match FindLine(items, carrito, p.id)
    case Some(k) =>
      assert forall i :: 0 <= i < |a.0| ==> a.0[i].id == items[i].id && a.0[i].producto == items[i].producto && a.0[i].carrito == items[i].carrito;
    case None =>
      assert a.0[..|items|] == items;
  }

  lemma {:induction false} RemoveKeepsInvariants(items: seq<ItemCarrito>, k: nat, nextId: nat, productos: map<nat, Producto>)
    requires k < |items|
    requires UniqueLines(items) && IdsBelow(items, nextId) && LinesMatchCatalog(items, productos)
    ensures var r := items[..k] + items[k + 1..];
      UniqueLines(r) && IdsBelow(r, nextId) && LinesMatchCatalog(r, productos)
  {
    var r := items[..k] + items[k + 1..];
    assert forall i :: 0 <= i < |r| ==> r[i] == items[if i < k then i else i + 1];
  }
}
