/**
  The payment views of pagos/views.py: the two confirmation pages that
  read a transaction back from the provider, the provider's webhook, and
  the checkout that turns a cart into a pending transaction. The tables
  they touch (transactions, core products, orders, carts and cart lines)
  are one state value; each view is a step function on it, and the class
  PagosStore performs the same steps in place.
*/
module PagosViews {
  import opened Wrappers
  import opened Text
  import opened Json
  import opened WompiUtils
  import opened CarritoModels
  import opened PagosModels

  // ===== records and responses ==========================================

  /** An order row created on approval: user, core product and quantity. */
  datatype Pedido = Pedido(usuario: nat, producto: nat, cantidad: int)

  /** The requesting user as the checkout reads it. */
  datatype Usuario = Usuario(id: nat, username: string, email: string, firstName: string, lastName: string)

  /** Django's get_full_name: first and last name joined by a space, stripped. */
  function FullName(u: Usuario): string {
    PyStrip(u.firstName + " " + u.lastName)
  }

  /** `get_full_name() or username`. */
  function NombreCompleto(u: Usuario): (r: string)
    ensures r == FullName(u) || r == u.username
    ensures FullName(u) != "" ==> r == FullName(u)
  {
    if FullName(u) != "" then FullName(u) else u.username
  }

  /** The pages the views redirect to. */
  datatype Vista = PagosCheckout | VerCarrito | Inicio | Login

  datatype Respuesta =
    | Redirect(to: Vista)
    | Confirmacion(encontrada: bool)   // the confirmation page, with or without a transaction
    | CheckoutCarrito(referencia: string, montoEnCentavos: int, firma: string, productos: seq<Json>)
    | JsonOk                           // {'status': 'ok'}
    | FirmaInvalida                    // status 400
    | ServerError                      // status 500, caught by the webhook or raised out of a view
    | MethodNotAllowed                 // status 405 from require_http_methods

  /** The tables the views read and write. `productos` holds the ids of the
      core products; `carritoDe` maps a user to the id of their cart. */
  datatype PagosState = PagosState(
    transacciones: seq<Transaccion>,
    productos: set<nat>,
    pedidos: seq<Pedido>,
    carritoDe: map<nat, nat>,
    items: seq<ItemCarrito>)

  /** Transaccion.referencia is unique. */
  predicate UniqueReferencias(ts: seq<Transaccion>) {
    forall i, j :: 0 <= i < j < |ts| ==> ts[i].referencia != ts[j].referencia
  }

  predicate ValidState(s: PagosState) {
    UniqueReferencias(s.transacciones)
  }

  /** Replacing a transaction by one with the same reference keeps the
      references unique. */
  lemma {:induction false} UpdateKeepsUnique(ts: seq<Transaccion>, k: nat, t: Transaccion)
    requires UniqueReferencias(ts) && k < |ts| && t.referencia == ts[k].referencia
    ensures UniqueReferencias(ts[k := t])
  {
  }

  /** Adding a transaction whose reference no row has keeps the references
      unique. */
  lemma {:induction false} AppendKeepsUnique(ts: seq<Transaccion>, t: Transaccion)
    requires UniqueReferencias(ts) && FindTransaccion(ts, t.referencia).None?
    ensures UniqueReferencias(ts + [t])
  {
  }

  // ===== lookups ========================================================

  /** The row whose reference equals `referencia`. */
  function FindTransaccion(ts: seq<Transaccion>, referencia: string): (r: Option<nat>)
    ensures r.Some? ==> r.value < |ts| && ts[r.value].referencia == referencia
    ensures r.None? <==> forall i :: 0 <= i < |ts| ==> ts[i].referencia != referencia
  {
    if ts == [] then None
    else if ts[0].referencia == referencia then Some(0)
    else
      match FindTransaccion(ts[1..], referencia)
      case None =>
        assert forall i :: 1 <= i < |ts| ==> ts[i] == ts[1..][i - 1];
        None
      case Some(k) => Some(k + 1)
  }

  /** With unique references, the lookup answers the one row that has it. */
  lemma {:induction false} FindTransaccionUnique(ts: seq<Transaccion>, k: nat)
    requires UniqueReferencias(ts) && k < |ts|
    ensures FindTransaccion(ts, ts[k].referencia) == Some(k)
  {
  }

  /** Transaccion.objects.get(referencia=v): the value is compared as the
      column stores it, and None matches no row. */
  function GetTransaccion(ts: seq<Transaccion>, ref: Json, repr: Json -> string): (r: Option<nat>)
    ensures r.Some? ==> r.value < |ts| && CharValue(ref, repr) == Some(ts[r.value].referencia)
    ensures r.None? <==> ref.JNull? || forall i :: 0 <= i < |ts| ==> Some(ts[i].referencia) != CharValue(ref, repr)
  {
    match CharValue(ref, repr)
    case None => None
    case Some(k) => FindTransaccion(ts, k)
  }

  /** An integer column's conversion of an assigned value: int(v), with
      None kept; int() of a str that is not a number raises ValueError and
      of a list or dict TypeError. */
  function IntPrep(v: Json): (r: Result<Option<int>, PyError>)
    ensures v.JInt? ==> r == Ok(Some(v.i))
    ensures r == Ok(None) <==> v.JNull?
    ensures r.Err? <==> v.JList? || v.JObj? || (v.JStr? && ParseDecimalInt(v.s).None?)
  {
    match v
    case JNull => Ok(None)
    case JBool(b) => Ok(Some(if b then 1 else 0))
    case JInt(i) => Ok(Some(i))
    case JFloat(x) => Ok(Some(TruncToInt(x)))
    case JStr(s) => (if ParseDecimalInt(s).None? then Err(ValueError) else Ok(Some(ParseDecimalInt(s).value)))
    case _ => Err(TypeError)
  }

  /** A value a PostgreSQL integer column (an IntegerField) holds. */
  predicate EnRangoEntero(n: int) { -2147483648 <= n <= 2147483647 }

  // ===== orders on approval =============================================

  /** What one line of the detail does in the order loop. */
  datatype Linea = Creado(pedido: Pedido) | Omitido

  /** One iteration of the order loop: Producto.objects.get on the line's
      'producto_id' (a product that does not exist is skipped), then
      Pedido.objects.create with the line's 'cantidad'. Any other exception
      leaves the loop. */
  function PedidoDeLinea(productos: set<nat>, usuario: nat, linea: Json): (r: Result<Linea, PyError>)
    ensures r.Ok? && r.value.Creado? ==> r.value.pedido.usuario == usuario && r.value.pedido.producto in productos
    ensures r.Ok? && r.value.Creado? ==> EnRangoEntero(r.value.pedido.cantidad)
    ensures r.Ok? && r.value.Creado? ==>
      Index(linea, "cantidad").Ok? && IntPrep(Index(linea, "cantidad").value) == Ok(Some(r.value.pedido.cantidad))
    ensures r == Err(DataError) ==>
      Index(linea, "cantidad").Ok? && IntPrep(Index(linea, "cantidad").value).Ok?
      && IntPrep(Index(linea, "cantidad").value).value.Some?
      && !EnRangoEntero(IntPrep(Index(linea, "cantidad").value).value.value)
  {
    match Index(linea, "producto_id")
    case Err(e) => Err(e)
    case Ok(pid) =>
      match IntPrep(pid)
      case Err(e) => Err(e)
      case Ok(None) => Ok(Omitido)
      case Ok(Some(id)) =>
        if id < 0 || id as nat !in productos then Ok(Omitido)
        else
          match Index(linea, "cantidad")
          case Err(e) => Err(e)
          case Ok(c) =>
            match IntPrep(c)
            case Err(e) => Err(e)
            case Ok(None) => Err(IntegrityError)   // the column is NOT NULL
            case Ok(Some(n)) =>
              if EnRangoEntero(n) then Ok(Creado(Pedido(usuario, id as nat, n))) else Err(DataError)
  }

  /** The whole order loop: the orders it creates, in line order, and the
      exception that stopped it early, if one did. */
  function PedidosDe(productos: set<nat>, usuario: nat, lines: seq<Json>): (r: (seq<Pedido>, Option<PyError>))
    ensures |r.0| <= |lines|
    ensures forall p :: p in r.0 ==> p.usuario == usuario && p.producto in productos
  {
    if lines == [] then ([], None)
    else
      match PedidoDeLinea(productos, usuario, lines[0])
      case Err(e) => ([], Some(e))
      case Ok(Omitido) => PedidosDe(productos, usuario, lines[1..])
      case Ok(Creado(p)) =>
        var rest := PedidosDe(productos, usuario, lines[1..]);
        ([p] + rest.0, rest.1)
  }

  /** A line naming a product that does not exist adds no order. */
  lemma {:induction false} PedidosDeSkipsMissing(productos: set<nat>, usuario: nat, linea: Json, rest: seq<Json>, id: int)
    requires Index(linea, "producto_id").Ok? && IntPrep(Index(linea, "producto_id").value) == Ok(Some(id))
    requires id < 0 || id as nat !in productos
    ensures PedidosDe(productos, usuario, [linea] + rest) == PedidosDe(productos, usuario, rest)
  {
    assert ([linea] + rest)[0] == linea && ([linea] + rest)[1..] == rest;
  }

  /** Carrito.objects.get(usuario=u).items.all().delete(): the rows of other
      carts stay, in order. */
  function SinCarrito(items: seq<ItemCarrito>, carrito: nat): (r: seq<ItemCarrito>)
    ensures forall x :: x in r <==> x in items && x.carrito != carrito
    ensures |r| <= |items|
  {
    if items == [] then []
    else (if items[0].carrito != carrito then [items[0]] else []) + SinCarrito(items[1..], carrito)
  }

  /** Emptying a cart leaves it with no lines, and every other cart's lines
      as they were. */
  lemma {:induction false} SinCarritoItems(items: seq<ItemCarrito>, carrito: nat, otro: nat)
    ensures ItemsOf(SinCarrito(items, carrito), carrito) == []
    ensures otro != carrito ==> ItemsOf(SinCarrito(items, carrito), otro) == ItemsOf(items, otro)
  {
    var r := SinCarrito(items, carrito);
    if ItemsOf(r, carrito) != [] {
      assert ItemsOf(r, carrito)[0] in ItemsOf(r, carrito);
    }
    if items != [] {
      SinCarritoItems(items[1..], carrito, otro);
      var head := if items[0].carrito != carrito then [items[0]] else [];
      ItemsOfAppend(head, SinCarrito(items[1..], carrito), otro);
    }
  }

  /** The user's cart, when they have one, loses all its lines. */
  function VaciarCarrito(items: seq<ItemCarrito>, carritoDe: map<nat, nat>, usuario: nat): seq<ItemCarrito> {
    if usuario in carritoDe then SinCarrito(items, carritoDe[usuario]) else items
  }

  /** Lines 162-184 of the webhook and 343-365 of confirmar_pago_carrito,
      for a transaction with a detail and a user: the orders of its lines,
      then the user's cart emptied. An exception in the loop leaves the
      orders already created and the cart as it was. */
  function EfectoAprobacion(s: PagosState, t: Transaccion): (r: (PagosState, Option<PyError>))
    ensures r.0.transacciones == s.transacciones && r.0.productos == s.productos && r.0.carritoDe == s.carritoDe
  {
    if !(Truthy(t.detallePedido) && t.usuario.Some?) then (s, None)
    else
      match GetProductos(t)
      case Err(e) => (s, Some(e))
      case Ok(ps) =>
        match Iterate(ps)
        case Err(e) => (s, Some(e))
        case Ok(lines) =>
          var (nuevos, err) := PedidosDe(s.productos, t.usuario.value, lines);
          if err.Some? then (s.(pedidos := s.pedidos + nuevos), err)
          else (s.(pedidos := s.pedidos + nuevos, items := VaciarCarrito(s.items, s.carritoDe, t.usuario.value)), None)
  }

  // ===== status mapping =================================================

  /** The mapping of both confirmation views. */
  function MapEstado(status: Json): (e: Estado)
    ensures e == APPROVED <==> status == JStr("APPROVED")
    ensures e == DECLINED <==> status == JStr("DECLINED")
    ensures e == PENDING <==> status != JStr("APPROVED") && status != JStr("DECLINED")
  {
    if status == JStr("APPROVED") then APPROVED
    else if status == JStr("DECLINED") then DECLINED
    else PENDING
  }

  /** The webhook's mapping: three statuses set the state, any other keeps it. */
  function WebhookEstado(actual: Estado, status: Json): (e: Estado)
    ensures status == JStr("APPROVED") ==> e == APPROVED
    ensures status == JStr("DECLINED") ==> e == DECLINED
    ensures status == JStr("VOIDED") ==> e == VOIDED
    ensures status !in {JStr("APPROVED"), JStr("DECLINED"), JStr("VOIDED")} ==> e == actual
  {
    if status == JStr("APPROVED") then APPROVED
    else if status == JStr("DECLINED") then DECLINED
    else if status == JStr("VOIDED") then VOIDED
    else actual
  }

  /** The two mappings agree on the statuses both name; on any other status
      the confirmations set PENDING while the webhook keeps the state. */
  lemma {:induction false} MappingsAgree(actual: Estado, status: Json)
    ensures status in {JStr("APPROVED"), JStr("DECLINED")} ==> MapEstado(status) == WebhookEstado(actual, status)
    ensures status !in {JStr("APPROVED"), JStr("DECLINED"), JStr("VOIDED")}
            ==> MapEstado(status) == PENDING && WebhookEstado(actual, status) == actual
  {
  }

  /** The fields both confirmation views copy from the provider's answer
      (`data` is its 'data' entry) before saving. */
  function ActualizarDesdeWompi(t: Transaccion, transactionId: string, data: Json, datos: Json, repr: Json -> string)
    : (r: Result<Transaccion, PyError>)
    ensures r.Ok? <==> Index(data, "status").Ok? && Index(data, "payment_method_type").Ok?
    ensures r.Ok? ==> && r.value.estado == MapEstado(Index(data, "status").value)
                      && r.value.wompiStatus == CharValue(Index(data, "status").value, repr)
                      && r.value.metodoPago == CharValue(Index(data, "payment_method_type").value, repr)
                      && r.value.wompiTransactionId == Some(transactionId)
                      && r.value.respuestaCompleta == datos
                      && r.value == t.(estado := r.value.estado, wompiStatus := r.value.wompiStatus,
                                       metodoPago := r.value.metodoPago, wompiTransactionId := Some(transactionId),
                                       respuestaCompleta := datos)
  {
    match Index(data, "status")
    case Err(e) => Err(e)
    case Ok(status) =>
      match Index(data, "payment_method_type")
      case Err(e) => Err(e)
      case Ok(metodo) =>
        Ok(t.(wompiTransactionId := Some(transactionId), wompiStatus := CharValue(status, repr),
              metodoPago := CharValue(metodo, repr), respuestaCompleta := datos, estado := MapEstado(status)))
  }

  /** The fields the webhook copies from the event's transaction. */
  function ActualizarDesdeEvento(t: Transaccion, datos: Json, repr: Json -> string): (r: Result<Transaccion, PyError>)
    ensures r.Ok? <==> Index(datos, "id").Ok? && Index(datos, "status").Ok?
    ensures r.Ok? ==> && r.value.estado == WebhookEstado(t.estado, Index(datos, "status").value)
                      && r.value.wompiStatus == CharValue(Index(datos, "status").value, repr)
                      && r.value.wompiTransactionId == CharValue(Index(datos, "id").value, repr)
                      && r.value.metodoPago == CharValue(Get(datos, "payment_method_type", JStr("")).value, repr)
                      && r.value.respuestaCompleta == datos
                      && r.value == t.(estado := r.value.estado, wompiStatus := r.value.wompiStatus,
                                       metodoPago := r.value.metodoPago, wompiTransactionId := r.value.wompiTransactionId,
                                       respuestaCompleta := datos)
  {
    match Index(datos, "id")
    case Err(e) => Err(e)
    case Ok(id) =>
      match Index(datos, "status")
      case Err(e) => Err(e)
      case Ok(status) =>
        var metodo := Get(datos, "payment_method_type", JStr(""));
        Ok(t.(wompiTransactionId := CharValue(id, repr), wompiStatus := CharValue(status, repr),
              metodoPago := CharValue(metodo.value, repr), respuestaCompleta := datos,
              estado := WebhookEstado(t.estado, status)))
  }

  // ===== the views as steps =============================================

  /** confirmar_pago: `transactionId` is the 'id' query parameter and
      `datosWompi` what the provider answered for it (JNull when the query
      failed). */
  function ConfirmarPagoStep(s: PagosState, transactionId: Option<string>, datosWompi: Json, repr: Json -> string)
    : (PagosState, Respuesta)
  {
    if transactionId.None? || transactionId.value == "" then (s, Redirect(PagosCheckout))
    else if !Truthy(datosWompi) then (s, Redirect(PagosCheckout))
    else
      match Index(datosWompi, "data")
      case Err(_) => (s, ServerError)
      case Ok(data) =>
        match Index(data, "reference")
        case Err(_) => (s, ServerError)
        case Ok(ref) =>
          match GetTransaccion(s.transacciones, ref, repr)
          case None => (s, Confirmacion(false))
          case Some(k) =>
            match ActualizarDesdeWompi(s.transacciones[k], transactionId.value, data, datosWompi, repr)
            case Err(_) => (s, ServerError)
            case Ok(t) => (s.(transacciones := s.transacciones[k := t]), Confirmacion(true))
  }

  /** confirmar_pago_carrito: the same reading of the answer, redirects to
      the cart page, and on APPROVED the orders and the cart emptying run
      before the transaction is saved. */
  function ConfirmarPagoCarritoStep(s: PagosState, transactionId: Option<string>, datosWompi: Json, repr: Json -> string)
    : (PagosState, Respuesta)
  {
    if transactionId.None? || transactionId.value == "" then (s, Redirect(VerCarrito))
    else if !Truthy(datosWompi) then (s, Redirect(VerCarrito))
    else
      match Index(datosWompi, "data")
      case Err(_) => (s, ServerError)
      case Ok(data) =>
        match Index(data, "reference")
        case Err(_) => (s, ServerError)
        case Ok(ref) =>
          match GetTransaccion(s.transacciones, ref, repr)
          case None => (s, Confirmacion(false))
          case Some(k) =>
            match ActualizarDesdeWompi(s.transacciones[k], transactionId.value, data, datosWompi, repr)
            case Err(_) => (s, ServerError)
            case Ok(t) =>
              if Index(data, "status") == Ok(JStr("APPROVED")) then
                var (s1, err) := EfectoAprobacion(s, t);
                if err.Some? then (s1, ServerError)
                else (s1.(transacciones := s1.transacciones[k := t]), Confirmacion(true))
              else (s.(transacciones := s.transacciones[k := t]), Confirmacion(true))
  }

  /** webhook_wompi after its guards: the event's transaction, looked up
      and updated; `datos` is evento['data']['transaction']. */
  function WebhookTransaccion(s: PagosState, datos: Json, repr: Json -> string): (PagosState, Respuesta) {
    match Index(datos, "reference")
    case Err(_) => (s, ServerError)
    case Ok(ref) =>
      match GetTransaccion(s.transacciones, ref, repr)
      case None => (s, JsonOk)
      case Some(k) =>
        match ActualizarDesdeEvento(s.transacciones[k], datos, repr)
        case Err(_) => (s, ServerError)
        case Ok(t) =>
          if Index(datos, "status") == Ok(JStr("APPROVED")) then
            var (s1, err) := EfectoAprobacion(s, t);
            if err.Some? then (s1, ServerError)
            else (s1.(transacciones := s1.transacciones[k := t]), JsonOk)
          else (s.(transacciones := s.transacciones[k := t]), JsonOk)
  }

  /** webhook_wompi: `checksum` is the X-Event-Checksum header and `body`
      the decoded request body (None when it is not JSON). */
  function WebhookStep(s: PagosState, esPost: bool, checksum: Option<string>, body: Option<Json>,
                       eventsSecret: string, sha: string -> string, repr: Json -> string): (PagosState, Respuesta)
  {
    if !esPost then (s, MethodNotAllowed)
    else
      match body
      case None => (s, ServerError)
      case Some(evento) =>
        if !evento.JObj? then (s, ServerError)   // evento.get
        else
          match VerifyEvent(checksum.GetOr(""), evento, eventsSecret, sha, repr)
          case Err(_) => (s, ServerError)
          case Ok(valida) =>
            if !valida then (s, FirmaInvalida)
            else if Lookup(evento.fields, "event") != Some(JStr("transaction.updated")) then (s, JsonOk)
            else
              match Index(evento, "data")
              case Err(_) => (s, ServerError)
              case Ok(data) =>
                match Index(data, "transaction")
                case Err(_) => (s, ServerError)
                case Ok(datos) => WebhookTransaccion(s, datos, repr)
  }

  /** The 'talla' entry of a detail line. */
  function TallaJson(talla: Option<string>): Json {
    match talla
    case None => JNull
    case Some(t) => JStr(t)
  }

  /** One entry of detalle_productos. */
  function DetalleLinea(item: ItemCarrito): Json {
    JObj([("producto_id", JInt(item.producto.id)),
          ("nombre", JStr(item.producto.nombre)),
          ("precio", JFloat(item.producto.precio)),
          ("cantidad", JInt(item.cantidad)),
          ("talla", TallaJson(item.talla)),
          ("subtotal", JFloat(Subtotal(item)))])
  }

  /** An entry answers the product id and the quantity of its line. */
  lemma {:induction false} DetalleLineaCampos(item: ItemCarrito)
    ensures Index(DetalleLinea(item), "producto_id") == Ok(JInt(item.producto.id))
    ensures Index(DetalleLinea(item), "cantidad") == Ok(JInt(item.cantidad))
  {
    var f := DetalleLinea(item).fields;
    assert f[0].0 == "producto_id";
    assert f[0].0 != "cantidad" && f[1].0 != "cantidad" && f[2].0 != "cantidad" && f[3].0 == "cantidad";
    assert Lookup(f, "cantidad") == Lookup(f[1..], "cantidad") == Lookup(f[2..], "cantidad")
        == Lookup(f[3..], "cantidad") == Some(JInt(item.cantidad));
  }

  /** detalle_productos: one entry per cart line, in order. */
  function DetalleLineas(items: seq<ItemCarrito>): (r: seq<Json>)
    ensures |r| == |items|
    ensures forall i :: 0 <= i < |items| ==> r[i] == DetalleLinea(items[i])
  {
    if items == [] then [] else [DetalleLinea(items[0])] + DetalleLineas(items[1..])
  }

  /** detalle_pedido: the entries, the cart total and the line count. */
  function DetallePedido(entradas: seq<Json>, total: real, cantidadItems: nat): Json {
    JObj([("productos", JList(entradas)),
          ("total", JFloat(total)),
          ("cantidad_items", JInt(cantidadItems))])
  }

  /** The quantities of the cart lines, added up. */
  function CantidadTotal(items: seq<ItemCarrito>): nat {
    if items == [] then 0 else items[0].cantidad + CantidadTotal(items[1..])
  }

  /** The checkout of `u`'s cart, for the instant `now` and the random
      choices `picks` the reference is made of. */
  function CheckoutStep(s: PagosState, user: Option<Usuario>, now: DateTime, picks: seq<nat>,
                        integritySecret: string, sha: string -> string): (PagosState, Respuesta)
    requires ValidDateTime(now) && ValidPicks(picks)
  {
    if user.None? then (s, Redirect(Login))
    else if user.value.id !in s.carritoDe then (s, Redirect(Inicio))
    else
      var lineas := ItemsOf(s.items, s.carritoDe[user.value.id]);
      if lineas == [] then (s, Redirect(VerCarrito))
      else if SumSubtotals(lineas) <= 0.0 then (s, Redirect(VerCarrito))
      else CheckoutCrear(s, user.value, lineas, DetalleLineas(lineas), GenerarReferencia(now, picks), integritySecret, sha)
  }

  /** int(float(total) * 100): the amount in whole cents, any fraction of
      a cent cut off. */
  function Centavos(total: real): int {
    TruncToInt(total * 100.0)
  }

  /** The checkout past its guards, given the cart lines and their entries:
      the amount in whole cents, the signature, the detail and the new
      transaction. A reference that is already taken breaks the unique
      column. */
  function CheckoutCrear(s: PagosState, u: Usuario, lineas: seq<ItemCarrito>, entradas: seq<Json>,
                         referencia: string, integritySecret: string, sha: string -> string): (PagosState, Respuesta)
  {
    var total := SumSubtotals(lineas);
    var centavos := Centavos(total);
    var firma := GenerarFirmaIntegridad(referencia, centavos as real, DefaultMoneda, integritySecret, sha);
    if FindTransaccion(s.transacciones, referencia).Some? then (s, ServerError)
    else
      var t := TransaccionCheckout(u, referencia, total, firma, DetallePedido(entradas, total, |lineas|));
      (s.(transacciones := s.transacciones + [t]), CheckoutCarrito(referencia, centavos, firma, entradas))
  }

  /** The row Transaccion.objects.create writes at checkout. */
  function TransaccionCheckout(u: Usuario, referencia: string, total: real, firma: string, detalle: Json): Transaccion {
    NuevaTransaccion(Some(u.id), referencia, total).(
      signature := Some(firma), email := Some(u.email), nombreCompleto := Some(NombreCompleto(u)),
      detallePedido := detalle)
  }

  // ===== properties =====================================================

  /** Both confirmation views read the answer the same way: they redirect
      on the same inputs, and whenever the cart view shows its page the two
      leave the transactions identical. */
  lemma {:induction false} ConfirmacionesCoinciden(s: PagosState, transactionId: Option<string>, datosWompi: Json, repr: Json -> string)
    ensures var (a, ra) := ConfirmarPagoStep(s, transactionId, datosWompi, repr);
            var (b, rb) := ConfirmarPagoCarritoStep(s, transactionId, datosWompi, repr);
            && (ra == Redirect(PagosCheckout) <==> rb == Redirect(VerCarrito))
            && (rb.Confirmacion? ==> ra == rb && a.transacciones == b.transacciones)
  {
  }

  /** confirmar_pago touches one transaction only, and no order or cart. */
  lemma {:induction false} ConfirmarPagoUpdatesOne(s: PagosState, transactionId: Option<string>, datosWompi: Json, repr: Json -> string)
    requires ValidState(s)
    ensures var (s1, r) := ConfirmarPagoStep(s, transactionId, datosWompi, repr);
            && ValidState(s1)
            && s1.pedidos == s.pedidos && s1.items == s.items
            && |s1.transacciones| == |s.transacciones|
            && (s1 != s ==> r == Confirmacion(true))
            && forall k :: 0 <= k < |s.transacciones| && s1.transacciones[k] != s.transacciones[k] ==>
                 s1.transacciones[k].referencia == s.transacciones[k].referencia
                 && s1.transacciones[k].wompiTransactionId == transactionId
  {
    var (s1, r) := ConfirmarPagoStep(s, transactionId, datosWompi, repr);
    if s1 != s {
      var data := Index(datosWompi, "data").value;
      var k := GetTransaccion(s.transacciones, Index(data, "reference").value, repr).value;
      UpdateKeepsUnique(s.transacciones, k, s1.transacciones[k]);
    }
  }

  /** A found transaction takes the mapped state, whatever it held before. */
  lemma {:induction false} ConfirmarPagoEstado(s: PagosState, transactionId: string, datosWompi: Json, data: Json, k: nat,
                            repr: Json -> string)
    requires transactionId != "" && Truthy(datosWompi) && Index(datosWompi, "data") == Ok(data)
    requires Index(data, "reference").Ok?
    requires GetTransaccion(s.transacciones, Index(data, "reference").value, repr) == Some(k)
    requires Index(data, "status").Ok? && Index(data, "payment_method_type").Ok?
    ensures var (s1, r) := ConfirmarPagoStep(s, Some(transactionId), datosWompi, repr);
            && r == Confirmacion(true)
            && s1.transacciones[k].estado == MapEstado(Index(data, "status").value)
            && s1.transacciones == s.transacciones[k := s1.transacciones[k]]
  {
  }

  /** The cart confirmation keeps the references unique. */
  lemma {:induction false} ConfirmarPagoCarritoPreserves(s: PagosState, transactionId: Option<string>, datosWompi: Json,
                                      repr: Json -> string)
    requires ValidState(s)
    ensures ValidState(ConfirmarPagoCarritoStep(s, transactionId, datosWompi, repr).0)
  {
    var (s1, r) := ConfirmarPagoCarritoStep(s, transactionId, datosWompi, repr);
    if r == Confirmacion(true) {
      var data := Index(datosWompi, "data").value;
      var k := GetTransaccion(s.transacciones, Index(data, "reference").value, repr).value;
      UpdateKeepsUnique(s.transacciones, k, s1.transacciones[k]);
    }
  }

  /** The webhook changes nothing unless it is a POST whose body is a dict
      with a valid checksum naming a 'transaction.updated' event; with an
      invalid checksum it answers 400. */
  lemma {:induction false} WebhookSinCambios(s: PagosState, esPost: bool, checksum: Option<string>, body: Option<Json>,
                          eventsSecret: string, sha: string -> string, repr: Json -> string)
    ensures var (s1, r) := WebhookStep(s, esPost, checksum, body, eventsSecret, sha, repr);
            && (s1 != s ==> && esPost && body.Some? && body.value.JObj?
                            && VerifyEvent(checksum.GetOr(""), body.value, eventsSecret, sha, repr) == Ok(true)
                            && Lookup(body.value.fields, "event") == Some(JStr("transaction.updated")))
            && (esPost && body.Some? && body.value.JObj?
                && VerifyEvent(checksum.GetOr(""), body.value, eventsSecret, sha, repr) == Ok(false)
                ==> s1 == s && r == FirmaInvalida)
  {
  }

  /** The webhook keeps the references unique. */
  lemma {:induction false} WebhookPreserves(s: PagosState, datos: Json, repr: Json -> string)
    requires ValidState(s)
    ensures ValidState(WebhookTransaccion(s, datos, repr).0)
  {
    var (s1, r) := WebhookTransaccion(s, datos, repr);
    if r == JsonOk && s1 != s {
      var k := GetTransaccion(s.transacciones, Index(datos, "reference").value, repr).value;
      UpdateKeepsUnique(s.transacciones, k, s1.transacciones[k]);
    }
  }

  /** The event's status decides the new state (APPROVED, DECLINED and
      VOIDED set it, any other keeps it) while the provider's fields are
      overwritten in every case. */
  lemma {:induction false} WebhookActualiza(s: PagosState, datos: Json, k: nat, repr: Json -> string)
    requires Index(datos, "reference").Ok?
    requires GetTransaccion(s.transacciones, Index(datos, "reference").value, repr) == Some(k)
    requires Index(datos, "id").Ok? && Index(datos, "status").Ok?
    requires Index(datos, "status") != Ok(JStr("APPROVED"))
    ensures var (s1, r) := WebhookTransaccion(s, datos, repr);
            var st := Index(datos, "status").value;
            && r == JsonOk
            && s1.transacciones == s.transacciones[k := s1.transacciones[k]]
            && s1.transacciones[k].estado == WebhookEstado(s.transacciones[k].estado, st)
            && s1.transacciones[k].wompiStatus == CharValue(st, repr)
            && s1.pedidos == s.pedidos && s1.items == s.items
  {
  }

  /** An approved transaction whose detail comes from a checkout: one
      order per cart line whose product exists, with that line's quantity,
      and the user's cart emptied. */
  lemma {:induction false} AprobacionDeCheckout(s: PagosState, t: Transaccion, u: nat, lineas: seq<ItemCarrito>, total: real)
    requires t.usuario == Some(u) && t.detallePedido == DetallePedido(DetalleLineas(lineas), total, |lineas|)
    requires forall x :: x in lineas ==> x.producto.id in s.productos
    requires forall x :: x in lineas ==> x.cantidad <= MaxEntero
    ensures var (s1, err) := EfectoAprobacion(s, t);
            && err == None
            && |s1.pedidos| == |s.pedidos| + |lineas|
            && s1.pedidos[..|s.pedidos|] == s.pedidos
            && (forall i :: 0 <= i < |lineas| ==>
                  s1.pedidos[|s.pedidos| + i] == Pedido(u, lineas[i].producto.id, lineas[i].cantidad))
            && s1.items == VaciarCarrito(s.items, s.carritoDe, u)
  {
    var d := t.detallePedido;
    assert d.fields[0].0 == "productos";
    assert Truthy(d);
    assert GetProductos(t) == Ok(JList(DetalleLineas(lineas)));
    PedidosDeDetalle(s.productos, u, lineas);
  }

  /** The order loop over a checkout detail whose products all exist; the
      quantities come from cart lines, which their column keeps within
      MaxEntero. */
  lemma {:induction false} PedidosDeDetalle(productos: set<nat>, usuario: nat, lineas: seq<ItemCarrito>)
    requires forall x :: x in lineas ==> x.producto.id in productos
    requires forall x :: x in lineas ==> x.cantidad <= MaxEntero
    ensures var r := PedidosDe(productos, usuario, DetalleLineas(lineas));
            && r.1 == None && |r.0| == |lineas|
            && forall i :: 0 <= i < |lineas| ==> r.0[i] == Pedido(usuario, lineas[i].producto.id, lineas[i].cantidad)
  {
    if lineas != [] {
      var d := DetalleLineas(lineas);
      assert d[0] == DetalleLinea(lineas[0]);
      assert d[1..] == DetalleLineas(lineas[1..]);
      assert lineas[0] in lineas;
      PedidoDeDetalleLinea(productos, usuario, lineas[0]);
      assert forall x :: x in lineas[1..] ==> x in lineas;
      PedidosDeDetalle(productos, usuario, lineas[1..]);
    }
  }

  /** One checkout line whose product exists creates its order. */
  lemma {:induction false} PedidoDeDetalleLinea(productos: set<nat>, usuario: nat, x: ItemCarrito)
    requires x.producto.id in productos && x.cantidad <= MaxEntero
    ensures PedidoDeLinea(productos, usuario, DetalleLinea(x)) == Ok(Creado(Pedido(usuario, x.producto.id, x.cantidad)))
  {
    DetalleLineaCampos(x);
    assert EnRangoEntero(x.cantidad);
  }

  /** Order creation is not idempotent: the same APPROVED event delivered
      twice creates the orders of the detail twice. */
  lemma {:induction false} WebhookNoIdempotente(s: PagosState, datos: Json, repr: Json -> string)
    requires ValidState(s)
    requires Index(datos, "status") == Ok(JStr("APPROVED"))
    requires WebhookTransaccion(s, datos, repr).1 == JsonOk
    ensures var s1 := WebhookTransaccion(s, datos, repr).0;
            var (s2, r2) := WebhookTransaccion(s1, datos, repr);
            && r2 == JsonOk
            && s2.pedidos == s1.pedidos + s1.pedidos[|s.pedidos|..]
  {
    var (s1, r1) := WebhookTransaccion(s, datos, repr);
    var ref := Index(datos, "reference").value;
    match GetTransaccion(s.transacciones, ref, repr)
    case None =>
      // The event names no stored transaction: neither delivery changes anything.
    case Some(k) =>
      var t := ActualizarDesdeEvento(s.transacciones[k], datos, repr).value;
      var e := EfectoAprobacion(s, t);
      assert e.1 == None && s1 == e.0.(transacciones := s.transacciones[k := t]);
      UpdateKeepsUnique(s.transacciones, k, t);
      FindTransaccionUnique(s1.transacciones, k);
      assert GetTransaccion(s1.transacciones, ref, repr) == Some(k);
      var t2 := ActualizarDesdeEvento(t, datos, repr).value;
      assert t2 == t;
      AprobacionRepetida(s, s1, t);
  }

  /** The approval run on a state whose tables of products and carts did
      not change creates the same orders again. */
  lemma {:induction false} AprobacionRepetida(s: PagosState, s1: PagosState, t: Transaccion)
    requires EfectoAprobacion(s, t).1 == None
    requires s1.pedidos == EfectoAprobacion(s, t).0.pedidos
    requires s1.productos == s.productos
    ensures var (s2, err) := EfectoAprobacion(s1, t);
            && err == None
            && s2.pedidos == s1.pedidos + s1.pedidos[|s.pedidos|..]
  {
    if Truthy(t.detallePedido) && t.usuario.Some? {
      var lines := Iterate(GetProductos(t).value).value;
      var nuevos := PedidosDe(s.productos, t.usuario.value, lines).0;
      assert s1.pedidos == s.pedidos + nuevos;
      assert s1.pedidos[|s.pedidos|..] == nuevos;
    } else {
      assert s1.pedidos == s.pedidos;
    }
  }

  /** The checkout creates no transaction without a user, a cart, a line, or
      a positive total; otherwise it adds exactly one. */
  lemma {:induction false} CheckoutGuards(s: PagosState, user: Option<Usuario>, now: DateTime, picks: seq<nat>,
                       integritySecret: string, sha: string -> string)
    requires ValidDateTime(now) && ValidPicks(picks)
    ensures var (s1, r) := CheckoutStep(s, user, now, picks, integritySecret, sha);
            && (user.None? ==> r == Redirect(Login))
            && (s1 != s <==> r.CheckoutCarrito?)
            && (s1 != s ==> && user.Some? && user.value.id in s.carritoDe
                            && ItemsOf(s.items, s.carritoDe[user.value.id]) != []
                            && Total(s.items, s.carritoDe[user.value.id]) > 0.0
                            && s1 == s.(transacciones := s1.transacciones)
                            && |s1.transacciones| == |s.transacciones| + 1
                            && s1.transacciones[..|s.transacciones|] == s.transacciones)
  {
    var (s1, r) := CheckoutStep(s, user, now, picks, integritySecret, sha);
    if r.CheckoutCarrito? {
      assert s1.transacciones[..|s.transacciones|] == s.transacciones;
    }
  }

  /** The transaction a checkout creates: pending, in pesos, for the cart
      total, signed over that total in whole cents, with a detail of one
      entry per cart line whose products and quantities the model's
      accessors read back. */
  lemma {:induction false} CheckoutCrea(s: PagosState, u: Usuario, now: DateTime, picks: seq<nat>,
                     integritySecret: string, sha: string -> string)
    requires ValidDateTime(now) && ValidPicks(picks)
    requires ValidState(s)
    ensures var (s1, r) := CheckoutStep(s, Some(u), now, picks, integritySecret, sha);
            r.CheckoutCarrito? ==>
              var c := s.carritoDe[u.id];
              var lineas := ItemsOf(s.items, c);
              var t := s1.transacciones[|s.transacciones|];
              && ValidState(s1)
              && t.estado == PENDING && t.moneda == "COP" && t.usuario == Some(u.id)
              && t.monto == Total(s.items, c) && t.monto > 0.0
              && t.referencia == r.referencia == GenerarReferencia(now, picks)
              && r.montoEnCentavos == Centavos(Total(s.items, c))
              && t.signature == Some(r.firma)
              && r.firma == GenerarFirmaIntegridad(t.referencia, r.montoEnCentavos as real, "COP", integritySecret, sha)
              && t.detallePedido == DetallePedido(DetalleLineas(lineas), Total(s.items, c), |lineas|)
              && GetProductos(t) == Ok(JList(r.productos))
              && |r.productos| == |lineas|
              && GetTotalProductos(t) == Ok(CantidadTotal(lineas) as real)
  {
    if u.id in s.carritoDe {
      var lineas := ItemsOf(s.items, s.carritoDe[u.id]);
      if lineas != [] && SumSubtotals(lineas) > 0.0 {
        CrearTransaccion(s, u, lineas, GenerarReferencia(now, picks), integritySecret, sha);
      }
    }
  }

  /** The checkout past its guards, for any cart lines and reference. */
  lemma {:induction false} CrearTransaccion(s: PagosState, u: Usuario, lineas: seq<ItemCarrito>, referencia: string,
                                            integritySecret: string, sha: string -> string)
    requires ValidState(s)
    ensures var (s1, r) := CheckoutCrear(s, u, lineas, DetalleLineas(lineas), referencia, integritySecret, sha);
            r.CheckoutCarrito? ==>
              var t := s1.transacciones[|s.transacciones|];
              && ValidState(s1)
              && t.estado == PENDING && t.moneda == "COP" && t.usuario == Some(u.id)
              && t.monto == SumSubtotals(lineas)
              && t.referencia == r.referencia == referencia
              && r.montoEnCentavos == Centavos(SumSubtotals(lineas))
              && t.signature == Some(r.firma)
              && r.firma == GenerarFirmaIntegridad(t.referencia, r.montoEnCentavos as real, "COP", integritySecret, sha)
              && t.detallePedido == DetallePedido(DetalleLineas(lineas), SumSubtotals(lineas), |lineas|)
              && GetProductos(t) == Ok(JList(r.productos))
              && |r.productos| == |lineas|
              && GetTotalProductos(t) == Ok(CantidadTotal(lineas) as real)
  {
    var (s1, r) := CheckoutCrear(s, u, lineas, DetalleLineas(lineas), referencia, integritySecret, sha);
    if r.CheckoutCarrito? {
      var t := s1.transacciones[|s.transacciones|];
      AppendKeepsUnique(s.transacciones, t);
      assert t.detallePedido.fields[0].0 == "productos";
      assert GetProductos(t) == Ok(JList(DetalleLineas(lineas)));
      SumCantidadesDetalle(lineas);
    }
  }

  /** get_total_productos over a checkout detail: the cart's quantities. */
  lemma {:induction false} SumCantidadesDetalle(lineas: seq<ItemCarrito>)
    ensures SumCantidades(DetalleLineas(lineas)) == Ok(CantidadTotal(lineas) as real)
  {
    if lineas != [] {
      var d := DetalleLineas(lineas);
      assert d[0] == DetalleLinea(lineas[0]);
      assert d[1..] == DetalleLineas(lineas[1..]);
      DetalleLineaCampos(lineas[0]);
      SumCantidadesDetalle(lineas[1..]);
    }
  }

  // ===== the views in place =============================================

  /** The `for item in items` loop that builds detalle_productos. */
  method ConstruirDetalle(items: seq<ItemCarrito>) returns (detalle: seq<Json>)
    ensures detalle == DetalleLineas(items)
  {
    detalle := [];
    var i := 0;
    while i < |items|
      invariant 0 <= i <= |items|
      invariant |detalle| == i
      invariant forall k :: 0 <= k < i ==> detalle[k] == DetalleLinea(items[k])
    {
      detalle := detalle + [DetalleLinea(items[i])];
      i := i + 1;
    }
  }

  /** The tables as fields the views update. */
  class PagosStore {
    var transacciones: seq<Transaccion>
    var productos: set<nat>
    var pedidos: seq<Pedido>
    var carritoDe: map<nat, nat>
    var items: seq<ItemCarrito>

    function State(): PagosState
      reads this
    {
      PagosState(transacciones, productos, pedidos, carritoDe, items)
    }

    ghost predicate Valid()
      reads this
    {
      ValidState(State())
    }

    /** No transaction and no order yet, over the given products and carts. */
    constructor(productos: set<nat>, carritoDe: map<nat, nat>, items: seq<ItemCarrito>)
      ensures Valid()
      ensures State() == PagosState([], productos, [], carritoDe, items)
    {
      this.transacciones := [];
      this.productos := productos;
      this.pedidos := [];
      this.carritoDe := carritoDe;
      this.items := items;
    }

    /** The order loop: one Pedido.objects.create per line whose product
        exists, until a line raises. */
    method CrearPedidos(usuario: nat, lines: seq<Json>) returns (err: Option<PyError>)
      modifies this
      ensures pedidos == old(pedidos) + PedidosDe(productos, usuario, lines).0
      ensures err == PedidosDe(productos, usuario, lines).1
      ensures transacciones == old(transacciones) && productos == old(productos)
      ensures carritoDe == old(carritoDe) && items == old(items)
    {
      var prods := productos;
      ghost var todo := PedidosDe(prods, usuario, lines);
      var i := 0;
      while i < |lines|
        invariant 0 <= i <= |lines|
        invariant transacciones == old(transacciones) && productos == prods
        invariant carritoDe == old(carritoDe) && items == old(items)
        invariant pedidos + PedidosDe(prods, usuario, lines[i..]).0 == old(pedidos) + todo.0
        invariant PedidosDe(prods, usuario, lines[i..]).1 == todo.1
      {
        assert lines[i..][0] == lines[i] && lines[i..][1..] == lines[i + 1..];
        var linea := PedidoDeLinea(prods, usuario, lines[i]);
        if linea.Err? {
          return Some(linea.error);
        }
        if linea.value.Creado? {
          var rest := PedidosDe(prods, usuario, lines[i + 1..]).0;
          assert pedidos + ([linea.value.pedido] + rest) == (pedidos + [linea.value.pedido]) + rest;
          pedidos := pedidos + [linea.value.pedido];
        }
        i := i + 1;
      }
      assert lines[i..] == [];
      return None;
    }

    /** Orders and cart emptying for an approved transaction. */
    method AplicarAprobacion(t: Transaccion) returns (err: Option<PyError>)
      modifies this
      ensures (State(), err) == EfectoAprobacion(old(State()), t)
    {
      if !(Truthy(t.detallePedido) && t.usuario.Some?) {
        return None;
      }
      var ps := GetProductos(t);
      if ps.Err? {
        return Some(ps.error);
      }
      var lines := Iterate(ps.value);
      if lines.Err? {
        return Some(lines.error);
      }
      err := CrearPedidos(t.usuario.value, lines.value);
      if err.None? {
        items := VaciarCarrito(items, carritoDe, t.usuario.value);
      }
    }

    /** confirmar_pago. */
    method ConfirmarPago(transactionId: Option<string>, datosWompi: Json, repr: Json -> string) returns (r: Respuesta)
      requires Valid()
      modifies this
      ensures Valid()
      ensures (State(), r) == ConfirmarPagoStep(old(State()), transactionId, datosWompi, repr)
    {
      ghost var s0 := State();
      ConfirmarPagoUpdatesOne(s0, transactionId, datosWompi, repr);
      if transactionId.None? || transactionId.value == "" || !Truthy(datosWompi) {
        return Redirect(PagosCheckout);
      }
      var data := Index(datosWompi, "data");
      if data.Err? {
        return ServerError;
      }
      var ref := Index(data.value, "reference");
      if ref.Err? {
        return ServerError;
      }
      var k := GetTransaccion(transacciones, ref.value, repr);
      if k.None? {
        return Confirmacion(false);
      }
      var t := ActualizarDesdeWompi(transacciones[k.value], transactionId.value, data.value, datosWompi, repr);
      if t.Err? {
        return ServerError;
      }
      transacciones := transacciones[k.value := t.value];
      return Confirmacion(true);
    }

    /** confirmar_pago_carrito. */
    method ConfirmarPagoCarrito(transactionId: Option<string>, datosWompi: Json, repr: Json -> string)
      returns (r: Respuesta)
      requires Valid()
      modifies this
      ensures Valid()
      ensures (State(), r) == ConfirmarPagoCarritoStep(old(State()), transactionId, datosWompi, repr)
    {
      ghost var s0 := State();
      ConfirmarPagoCarritoPreserves(s0, transactionId, datosWompi, repr);
      if transactionId.None? || transactionId.value == "" || !Truthy(datosWompi) {
        return Redirect(VerCarrito);
      }
      var data := Index(datosWompi, "data");
      if data.Err? {
        return ServerError;
      }
      var ref := Index(data.value, "reference");
      if ref.Err? {
        return ServerError;
      }
      var k := GetTransaccion(transacciones, ref.value, repr);
      if k.None? {
        return Confirmacion(false);
      }
      var t := ActualizarDesdeWompi(transacciones[k.value], transactionId.value, data.value, datosWompi, repr);
      if t.Err? {
        return ServerError;
      }
      if Index(data.value, "status") == Ok(JStr("APPROVED")) {
        var err := AplicarAprobacion(t.value);
        if err.Some? {
          return ServerError;
        }
      }
      transacciones := transacciones[k.value := t.value];
      return Confirmacion(true);
    }

    /** The webhook's handling of the event's transaction. */
    method ActualizarTransaccion(datos: Json, repr: Json -> string) returns (r: Respuesta)
      requires Valid()
      modifies this
      ensures Valid()
      ensures (State(), r) == WebhookTransaccion(old(State()), datos, repr)
    {
      ghost var s0 := State();
      WebhookPreserves(s0, datos, repr);
      var ref := Index(datos, "reference");
      if ref.Err? {
        return ServerError;
      }
      var k := GetTransaccion(transacciones, ref.value, repr);
      if k.None? {
        return JsonOk;
      }
      var t := ActualizarDesdeEvento(transacciones[k.value], datos, repr);
      if t.Err? {
        return ServerError;
      }
      if Index(datos, "status") == Ok(JStr("APPROVED")) {
        var err := AplicarAprobacion(t.value);
        if err.Some? {
          return ServerError;
        }
      }
      transacciones := transacciones[k.value := t.value];
      return JsonOk;
    }

    /** webhook_wompi, checking the checksum with the property loops. */
    method WebhookWompi(esPost: bool, checksum: Option<string>, body: Option<Json>,
                        eventsSecret: string, sha: string -> string, repr: Json -> string) returns (r: Respuesta)
      requires Valid()
      modifies this
      ensures Valid()
      ensures (State(), r) == WebhookStep(old(State()), esPost, checksum, body, eventsSecret, sha, repr)
    {
      if !esPost {
        return MethodNotAllowed;
      }
      if body.None? || !body.value.JObj? {
        return ServerError;
      }
      var evento := body.value;
      var valida := VerificarFirmaEvento(checksum.GetOr(""), evento, eventsSecret, sha, repr);
      if valida.Err? {
        return ServerError;
      }
      if !valida.value {
        return FirmaInvalida;
      }
      if Lookup(evento.fields, "event") != Some(JStr("transaction.updated")) {
        return JsonOk;
      }
      var data := Index(evento, "data");
      if data.Err? {
        return ServerError;
      }
      var datos := Index(data.value, "transaction");
      if datos.Err? {
        return ServerError;
      }
      r := ActualizarTransaccion(datos.value, repr);
    }

    /** checkout_desde_carrito. */
    method CheckoutDesdeCarrito(user: Option<Usuario>, now: DateTime, picks: seq<nat>,
                                integritySecret: string, sha: string -> string) returns (r: Respuesta)
      requires ValidDateTime(now) && ValidPicks(picks)
      requires Valid()
      modifies this
      ensures Valid()
      ensures (State(), r) == CheckoutStep(old(State()), user, now, picks, integritySecret, sha)
    {
      ghost var s0 := State();
      if user.None? {
        return Redirect(Login);
      }
      var u := user.value;
      if u.id !in carritoDe {
        return Redirect(Inicio);
      }
      var lineas := ItemsOf(items, carritoDe[u.id]);
      if lineas == [] {
        return Redirect(VerCarrito);
      }
      var total := SumSubtotals(lineas);
      if total <= 0.0 {
        return Redirect(VerCarrito);
      }
      var referencia := GenerarReferencia(now, picks);
      var centavos := Centavos(total);
      var firma := GenerarFirmaIntegridad(referencia, centavos as real, DefaultMoneda, integritySecret, sha);
      var detalleProductos := ConstruirDetalle(lineas);
      assert CheckoutStep(s0, user, now, picks, integritySecret, sha)
          == CheckoutCrear(s0, u, lineas, detalleProductos, referencia, integritySecret, sha);
      if FindTransaccion(transacciones, referencia).Some? {
        return ServerError;
      }
      var t := TransaccionCheckout(u, referencia, total, firma, DetallePedido(detalleProductos, total, |lineas|));
      AppendKeepsUnique(transacciones, t);
      transacciones := transacciones + [t];
      r := CheckoutCarrito(referencia, centavos, firma, detalleProductos);
    }
  }
}
