/**
  The receivers of dashboard/signals.py. Each one decides, from the saved
  or deleted instance, whether one ActividadReciente row is inserted and
  what it holds; the activity table is the sequence of rows in insertion
  order. The instances are the fields the receivers read.
*/
module DashboardSignals {
  import opened Wrappers
  import opened Text
  import opened DashboardModels

  datatype UsuarioSenal = UsuarioSenal(id: nat, username: string)

  /** A Pedido as the receiver reads it; `totalTexto` is str() of its
      Decimal total. */
  datatype PedidoSenal = PedidoSenal(id: nat, totalTexto: string, usuario: Option<nat>)

  /** A Producto; `stock` is None when the instance has no such attribute,
      which is what `hasattr` tests. */
  datatype ProductoSenal = ProductoSenal(id: nat, nombre: string, stock: Option<int>)

  /** A Reporte; `tipoDisplay` is get_tipo_display(). */
  datatype ReporteSenal = ReporteSenal(id: nat, titulo: string, tipoDisplay: string,
                                       usuario: Option<nat>, responsable: Option<nat>, estado: string)

  /** An Incidencia; `reporteUsuario` is instance.reporte.usuario. */
  datatype IncidenciaSenal = IncidenciaSenal(id: nat, tipoDisplay: string, descripcion: string,
                                             reporteUsuario: Option<nat>)

  /** The tipos the receivers store. */
  const TiposSenal: set<string> := {"registro", "venta", "producto", "alerta", "reporte", "incidencia"}

  /** A row as ActividadReciente.objects.create inserts it at instant `ahora`. */
  function Nueva(tipo: string, titulo: string, descripcion: string, usuario: Option<nat>,
                 id: nat, objetoTipo: string, ahora: int): Actividad {
    Actividad(tipo, titulo, descripcion, usuario, Some(id), Some(objetoTipo), ahora)
  }

  /** registrar_actividad_usuario. */
  function ActividadUsuario(u: UsuarioSenal, creado: bool, ahora: int): (r: Option<Actividad>)
    ensures r.Some? <==> creado
    ensures r.Some? ==> r.value.tipo == "registro" && r.value.usuario == Some(u.id)
                        && r.value.objetoId == Some(u.id as int) && r.value.objetoTipo == Some("Usuario")
  {
    if creado then
      Some(Nueva("registro", "Nuevo usuario registrado", u.username + " se ha registrado en el sistema",
                 Some(u.id), u.id, "Usuario", ahora))
    else None
  }

  /** registrar_actividad_pedido. */
  function ActividadPedido(p: PedidoSenal, creado: bool, ahora: int): (r: Option<Actividad>)
    ensures r.Some? <==> creado
    ensures r.Some? ==> r.value.tipo == "venta" && r.value.usuario == p.usuario
                        && r.value.objetoId == Some(p.id as int) && r.value.objetoTipo == Some("Pedido")
  {
    if creado then
      Some(Nueva("venta", "Nuevo pedido realizado",
                 "Pedido #" + NatToString(p.id) + " - Total: $" + p.totalTexto,
                 p.usuario, p.id, "Pedido", ahora))
    else None
  }

  /** registrar_actividad_producto: a creation, or an update that leaves
      at most ten units. */
  function ActividadProducto(p: ProductoSenal, creado: bool, ahora: int): (r: Option<Actividad>)
    ensures r.Some? <==> creado || (p.stock.Some? && p.stock.value <= 10)
    ensures r.Some? && creado ==> r.value.tipo == "producto"
    ensures r.Some? && !creado ==> r.value.tipo == "alerta"
    ensures r.Some? ==> r.value.usuario.None? && r.value.objetoId == Some(p.id as int)
  {
    if creado then
      Some(Nueva("producto", "Nuevo producto agregado", p.nombre + " ha sido agregado al inventario",
                 None, p.id, "Producto", ahora))
    else if p.stock.Some? && p.stock.value <= 10 then
      Some(Nueva("alerta", "Alerta de stock bajo",
                 p.nombre + " tiene solo " + IntToString(p.stock.value) + " unidades disponibles",
                 None, p.id, "Producto", ahora))
    else None
  }

  /** registrar_eliminacion_producto: always one row. */
  function ActividadEliminacion(p: ProductoSenal, ahora: int): (r: Actividad)
    ensures r.tipo == "producto" && r.titulo == "Producto eliminado"
    ensures r.usuario.None? && r.objetoId == Some(p.id as int)
  {
    Nueva("producto", "Producto eliminado", p.nombre + " ha sido eliminado del sistema",
          None, p.id, "Producto", ahora)
  }

  /** `a if a else b` for an optional user. */
  function OrUsuario(a: Option<nat>, b: Option<nat>): (r: Option<nat>)
    ensures a.Some? ==> r == a
    ensures a.None? ==> r == b
  {
    if a.Some? then a else b
  }

  /** registrar_actividad_reporte: a creation, or an update to 'resuelto'. */
  function ActividadReporte(rep: ReporteSenal, creado: bool, ahora: int): (r: Option<Actividad>)
    ensures r.Some? <==> creado || rep.estado == "resuelto"
    ensures r.Some? ==> r.value.tipo == "reporte"
    ensures r.Some? && creado ==> r.value.usuario == rep.usuario
    ensures r.Some? && !creado ==> r.value.usuario == (if rep.responsable.Some? then rep.responsable else rep.usuario)
  {
    if creado then
      Some(Nueva("reporte", "Nuevo reporte creado", rep.tipoDisplay + ": " + rep.titulo,
                 rep.usuario, rep.id, "Reporte", ahora))
    else if rep.estado == "resuelto" then
      Some(Nueva("reporte", "Reporte resuelto", rep.titulo + " ha sido marcado como resuelto",
                 OrUsuario(rep.responsable, rep.usuario), rep.id, "Reporte", ahora))
    else None
  }

  /** `s[:n]` in Python. */
  function Prefijo(s: string, n: nat): (r: string)
    ensures |r| == if |s| < n then |s| else n
    ensures r <= s
  {
    if |s| <= n then s else s[..n]
  }

  /** registrar_actividad_incidencia: the description keeps the first fifty
      characters followed by "..." whatever the length. */
  function ActividadIncidencia(inc: IncidenciaSenal, creado: bool, ahora: int): (r: Option<Actividad>)
    ensures r.Some? <==> creado
    ensures r.Some? ==> r.value.tipo == "incidencia" && r.value.usuario == inc.reporteUsuario
  {
    if creado then
      Some(Nueva("incidencia", "Nueva incidencia reportada",
                 inc.tipoDisplay + ": " + Prefijo(inc.descripcion, 50) + "...",
                 inc.reporteUsuario, inc.id, "Incidencia", ahora))
    else None
  }

  /** The Incidencia description: the display label, ": ", at most fifty
      characters that begin the description, and "...". */
  lemma {:induction false} DescripcionIncidencia(inc: IncidenciaSenal, ahora: int)
    ensures var r := ActividadIncidencia(inc, true, ahora).value.descripcion;
            var k := |inc.tipoDisplay| + 2;
            && r[..k] == inc.tipoDisplay + ": "
            && |r| - k - 3 <= 50
            && r[k..|r| - 3] <= inc.descripcion
            && r[|r| - 3..] == "..."
            && (|inc.descripcion| <= 50 ==> r[k..|r| - 3] == inc.descripcion)
  {
    var p := Prefijo(inc.descripcion, 50);
    var r := inc.tipoDisplay + ": " + p + "...";
    assert r == (inc.tipoDisplay + ": ") + p + "...";
    assert r[..|inc.tipoDisplay| + 2] == inc.tipoDisplay + ": ";
    assert r[|inc.tipoDisplay| + 2..|r| - 3] == p;
  }

  /** None of the tipos the receivers store is declared in TIPO_ACTIVIDAD,
      so every row they insert shows the 'fa-bell' icon. */
  lemma {:induction false} TiposSenalSinIcono(a: Actividad)
    requires a.tipo in TiposSenal
    ensures !TipoDeclarado(a.tipo)
    ensures Icono(a) == IconoPorDefecto
  {
    IconosDeclarados(a.tipo);
  }

  /** The row list that `objects.create`, if called, adds. */
  function Insertada(r: Option<Actividad>): (s: seq<Actividad>)
    ensures r.None? <==> s == []
    ensures r.Some? ==> s == [r.value]
  {
    if r.Some? then [r.value] else []
  }

  /** Every row carries one of the receivers' tipos. */
  predicate DeSenales(filas: seq<Actividad>) {
    forall i :: 0 <= i < |filas| ==> filas[i].tipo in TiposSenal
  }

  /** The ActividadReciente table, fed by the receivers. */
  class TablaActividades {
    var filas: seq<Actividad>

    constructor()
      ensures filas == []
    {
      filas := [];
    }

    /** The icons of a table that only the receivers have written. */
    lemma {:induction false} TodasSinIcono()
      requires DeSenales(filas)
      ensures forall i :: 0 <= i < |filas| ==> Icono(filas[i]) == IconoPorDefecto
    {
      forall i | 0 <= i < |filas| ensures Icono(filas[i]) == IconoPorDefecto {
        TiposSenalSinIcono(filas[i]);
      }
    }

    method Insertar(r: Option<Actividad>)
      requires r.Some? ==> r.value.tipo in TiposSenal
      modifies this
      ensures filas == old(filas) + Insertada(r)
      ensures DeSenales(old(filas)) ==> DeSenales(filas)
    {
      filas := filas + Insertada(r);
    }

    method RegistrarActividadUsuario(u: UsuarioSenal, creado: bool, ahora: int)
      modifies this
      ensures filas == old(filas) + Insertada(ActividadUsuario(u, creado, ahora))
      ensures DeSenales(old(filas)) ==> DeSenales(filas)
    {
      Insertar(ActividadUsuario(u, creado, ahora));
    }

    method RegistrarActividadPedido(p: PedidoSenal, creado: bool, ahora: int)
      modifies this
      ensures filas == old(filas) + Insertada(ActividadPedido(p, creado, ahora))
      ensures DeSenales(old(filas)) ==> DeSenales(filas)
    {
      Insertar(ActividadPedido(p, creado, ahora));
    }

    method RegistrarActividadProducto(p: ProductoSenal, creado: bool, ahora: int)
      modifies this
      ensures filas == old(filas) + Insertada(ActividadProducto(p, creado, ahora))
      ensures DeSenales(old(filas)) ==> DeSenales(filas)
    {
      Insertar(ActividadProducto(p, creado, ahora));
    }

    method RegistrarEliminacionProducto(p: ProductoSenal, ahora: int)
      modifies this
      ensures filas == old(filas) + [ActividadEliminacion(p, ahora)]
      ensures DeSenales(old(filas)) ==> DeSenales(filas)
    {
      Insertar(Some(ActividadEliminacion(p, ahora)));
    }

    method RegistrarActividadReporte(rep: ReporteSenal, creado: bool, ahora: int)
      modifies this
      ensures filas == old(filas) + Insertada(ActividadReporte(rep, creado, ahora))
      ensures DeSenales(old(filas)) ==> DeSenales(filas)
    {
      Insertar(ActividadReporte(rep, creado, ahora));
    }

    method RegistrarActividadIncidencia(inc: IncidenciaSenal, creado: bool, ahora: int)
      modifies this
      ensures filas == old(filas) + Insertada(ActividadIncidencia(inc, creado, ahora))
      ensures DeSenales(old(filas)) ==> DeSenales(filas)
    {
      Insertar(ActividadIncidencia(inc, creado, ahora));
    }
  }
}
