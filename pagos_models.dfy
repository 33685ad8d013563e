/**
  The payment record of pagos/models.py: a Transaccion with its defaults
  and the two accessors over the order detail it carries.
*/
module PagosModels {
  import opened Wrappers
  import opened Text
  import opened Json

  /** Transaccion.ESTADOS; each value is stored as its own name. */
  datatype Estado = PENDING | APPROVED | DECLINED | VOIDED | ERROR

  /** The default of Transaccion.estado. */
  const DefaultEstado := PENDING

  /** The default of Transaccion.moneda. */
  const DefaultTransaccionMoneda := "COP"

  /** One row of Transaccion. The nullable text columns are None for NULL;
      the two JSON columns hold JNull for NULL, as Django reads them. The
      timestamps are not part of this model. */
  datatype Transaccion = Transaccion(
    usuario: Option<nat>,
    referencia: string,
    monto: real,
    moneda: string,
    estado: Estado,
    wompiTransactionId: Option<string>,
    wompiStatus: Option<string>,
    metodoPago: Option<string>,
    email: Option<string>,
    nombreCompleto: Option<string>,
    detallePedido: Json,
    signature: Option<string>,
    respuestaCompleta: Json)

  /** Transaccion.objects.create with only the required columns given:
      every other column takes its default or NULL. */
  function NuevaTransaccion(usuario: Option<nat>, referencia: string, monto: real): (t: Transaccion)
    ensures t.estado == PENDING && t.moneda == "COP"
    ensures t.usuario == usuario && t.referencia == referencia && t.monto == monto
    ensures !Truthy(t.detallePedido)
  {
    Transaccion(usuario, referencia, monto, DefaultTransaccionMoneda, DefaultEstado,
                None, None, None, None, None, JNull, None, JNull)
  }

  /** What a CharField stores for an assigned value: None stays NULL, a str
      is kept, any other value is stored as its str(). */
  function CharValue(v: Json, repr: Json -> string): (r: Option<string>)
    ensures r.None? <==> v.JNull?
    ensures v.JStr? ==> r == Some(v.s)
  {
    if v.JNull? then None else Some(PyStr(v, repr))
  }

  /** get_productos: the 'productos' entry of a truthy detail, [] when the
      detail is empty or lacks the key; a truthy detail that is not a dict
      has no `get`. */
  function GetProductos(t: Transaccion): (r: Result<Json, PyError>)
    ensures !Truthy(t.detallePedido) ==> r == Ok(JList([]))
    ensures t.detallePedido.JObj? && !HasKey(t.detallePedido.fields, "productos") ==> r == Ok(JList([]))
    ensures t.detallePedido.JObj? && HasKey(t.detallePedido.fields, "productos")
            ==> r == Index(t.detallePedido, "productos")
    ensures r.Err? <==> Truthy(t.detallePedido) && !t.detallePedido.JObj?
  {
    if Truthy(t.detallePedido) then Get(t.detallePedido, "productos", JList([])) else Ok(JList([]))
  }

  /** The number a bool, int or float stands for in an addition. */
  function Numeric(v: Json): (r: Option<real>)
    ensures r.Some? <==> v.JBool? || v.JInt? || v.JFloat?
  {
    match v
    case JBool(b) => Some(if b then 1.0 else 0.0)
    case JInt(i) => Some(i as real)
    case JFloat(x) => Some(x)
    case _ => None
  }

  /** sum(p['cantidad'] for p in lines): the lines are read in order and the
      first one whose 'cantidad' is missing or is not a number stops the
      sum with its exception. */
  function SumCantidades(lines: seq<Json>): Result<real, PyError> {
    if lines == [] then Ok(0.0)
    else
      match Index(lines[0], "cantidad")
      case Err(e) => Err(e)
      case Ok(c) =>
        match Numeric(c)
        case None => Err(TypeError)
        case Some(x) =>
          match SumCantidades(lines[1..])
          case Err(e) => Err(e)
          case Ok(rest) => Ok(x + rest)
  }

  /** get_total_productos: 0 without a detail, otherwise the sum of the
      quantities of the lines get_productos answers. */
  function GetTotalProductos(t: Transaccion): (r: Result<real, PyError>)
    ensures !Truthy(t.detallePedido) ==> r == Ok(0.0)
    ensures GetProductos(t).Err? ==> r == Err(GetProductos(t).error)
    ensures Truthy(t.detallePedido) && GetProductos(t).Ok? && GetProductos(t).value.JList?
            ==> r == SumCantidades(GetProductos(t).value.items)
  {
    if !Truthy(t.detallePedido) then Ok(0.0)
    else
      match Get(t.detallePedido, "productos", JList([]))
      case Err(e) => Err(e)
      case Ok(ps) =>
        match Iterate(ps)
        case Err(e) => Err(e)
        case Ok(lines) => SumCantidades(lines)
  }

  /** Summing over a concatenation: the first part's exception wins,
      otherwise the second part's, otherwise the two sums add up. */
  lemma {:induction false} SumCantidadesAppend(a: seq<Json>, b: seq<Json>)
    ensures SumCantidades(a + b)
         == match SumCantidades(a)
            case Err(e) => Err(e)
            case Ok(x) =>
              match SumCantidades(b)
              case Err(e) => Err(e)
              case Ok(y) => Ok(x + y)
  {
    if a == [] {
      assert a + b == b;
    } else {
      assert (a + b)[0] == a[0] && (a + b)[1..] == a[1..] + b;
      SumCantidadesAppend(a[1..], b);
    }
  }
}
