/**
  The activity record of dashboard/models.py: ActividadReciente, its icon
  lookup and its elapsed-time label. Durations and instants are counted in
  microseconds, the resolution of a Python timedelta.
*/
module DashboardModels {
  import opened Wrappers
  import opened Text

  /** One row of ActividadReciente; `fecha` is the auto_now_add instant. */
  datatype Actividad = Actividad(
    tipo: string,
    titulo: string,
    descripcion: string,
    usuario: Option<nat>,
    objetoId: Option<int>,
    objetoTipo: Option<string>,
    fecha: int)

  /** ActividadReciente.TIPO_ACTIVIDAD: the stored code and its label. */
  const TipoActividad: seq<(string, string)> := [
    ("usuario_registrado", "Nuevo usuario registrado"),
    ("usuario_actualizado", "Usuario actualizado"),
    ("pedido_creado", "Pedido creado"),
    ("pedido_actualizado", "Pedido actualizado"),
    ("pedido_completado", "Pedido completado"),
    ("producto_creado", "Producto creado"),
    ("producto_actualizado", "Producto actualizado"),
    ("producto_eliminado", "Producto eliminado"),
    ("reporte_creado", "Reporte creado"),
    ("incidencia_creada", "Incidencia creada")]

  /** The `iconos` dict of get_icono. */
  const Iconos: map<string, string> := map[
    "usuario_registrado" := "fa-user-plus",
    "usuario_actualizado" := "fa-user-edit",
    "pedido_creado" := "fa-shopping-cart",
    "pedido_actualizado" := "fa-edit",
    "pedido_completado" := "fa-check-circle",
    "producto_creado" := "fa-box",
    "producto_actualizado" := "fa-box-open",
    "producto_eliminado" := "fa-trash",
    "reporte_creado" := "fa-file-alt",
    "incidencia_creada" := "fa-exclamation-triangle"]

  /** The icon for an unknown tipo. */
  const IconoPorDefecto := "fa-bell"

  /** A code declared in TIPO_ACTIVIDAD. */
  predicate TipoDeclarado(tipo: string) {
    exists k :: 0 <= k < |TipoActividad| && TipoActividad[k].0 == tipo
  }

  /** get_icono: `iconos.get(self.tipo, 'fa-bell')`. */
  function Icono(a: Actividad): string {
    if a.tipo in Iconos then Iconos[a.tipo] else IconoPorDefecto
  }

  /** The tipo an icon belongs to, reading the `iconos` dict backwards. */
  function TipoDeIcono(icono: string): Option<string> {
    if icono == "fa-user-plus" then Some("usuario_registrado")
    else if icono == "fa-user-edit" then Some("usuario_actualizado")
    else if icono == "fa-shopping-cart" then Some("pedido_creado")
    else if icono == "fa-edit" then Some("pedido_actualizado")
    else if icono == "fa-check-circle" then Some("pedido_completado")
    else if icono == "fa-box" then Some("producto_creado")
    else if icono == "fa-box-open" then Some("producto_actualizado")
    else if icono == "fa-trash" then Some("producto_eliminado")
    else if icono == "fa-file-alt" then Some("reporte_creado")
    else if icono == "fa-exclamation-triangle" then Some("incidencia_creada")
    else None
  }

  /** The dict has an entry for exactly the ten declared tipos. */
  lemma {:induction false} IconosDeclarados(tipo: string)
    ensures tipo in Iconos <==> TipoDeclarado(tipo)
  {
    if tipo in Iconos {
      var k := if tipo == "usuario_registrado" then 0
               else if tipo == "usuario_actualizado" then 1
               else if tipo == "pedido_creado" then 2
               else if tipo == "pedido_actualizado" then 3
               else if tipo == "pedido_completado" then 4
               else if tipo == "producto_creado" then 5
               else if tipo == "producto_actualizado" then 6
               else if tipo == "producto_eliminado" then 7
               else if tipo == "reporte_creado" then 8
               else 9;
      assert TipoActividad[k].0 == tipo;
    }
    if TipoDeclarado(tipo) {
      var k :| 0 <= k < |TipoActividad| && TipoActividad[k].0 == tipo;
      assert k == 0 || k == 1 || k == 2 || k == 3 || k == 4 || k == 5 || k == 6 || k == 7 || k == 8 || k == 9;
    }
  }

  /** A declared tipo gets an icon of its own, from which the tipo can be
      read back, so no two declared tipos share one; every other tipo gets
      'fa-bell'. */
  lemma {:induction false} IconoCorrecto(a: Actividad)
    ensures TipoDeclarado(a.tipo) ==> Icono(a) != IconoPorDefecto && TipoDeIcono(Icono(a)) == Some(a.tipo)
    ensures !TipoDeclarado(a.tipo) ==> Icono(a) == IconoPorDefecto
  {
    IconosDeclarados(a.tipo);
  }

  // ----- tiempo_transcurrido ---------------------------------------------

  /** timedelta(minutes=1), timedelta(hours=1), timedelta(days=1) and
      timedelta(days=7), in microseconds. */
  const Minuto := 60_000_000
  const Hora := 3_600_000_000
  const Dia := 86_400_000_000
  const Semana := 604_800_000_000

  /** The branch of tiempo_transcurrido a duration falls in, with the count
      it prints. */
  datatype Lapso = Segundos | Minutos(n: nat) | Horas(n: nat) | Dias(n: nat) | FechaCompleta

  /** The branch for duration `d`. `int(total_seconds() / 60)` and
      `int(total_seconds() / 3600)` are the floors of exact quotients here:
      `d` is non-negative in those branches and below one day, far inside
      the range where the float quotient of a whole number of microseconds
      keeps its integer part. `timedelta.days` is the floor of `d` over a
      day. */
  function Tramo(d: int): (l: Lapso)
    ensures l.Segundos? <==> d < Minuto
    ensures l.Minutos? <==> Minuto <= d < Hora
    ensures l.Horas? <==> Hora <= d < Dia
    ensures l.Dias? <==> Dia <= d < Semana
    ensures l.FechaCompleta? <==> Semana <= d
    ensures l.Minutos? ==> 1 <= l.n < 60 && l.n * Minuto <= d < (l.n + 1) * Minuto
    ensures l.Horas? ==> 1 <= l.n < 24 && l.n * Hora <= d < (l.n + 1) * Hora
    ensures l.Dias? ==> 1 <= l.n < 7 && l.n * Dia <= d < (l.n + 1) * Dia
  {
    if d < Minuto then Segundos
    else if d < Hora then Minutos(d / Minuto)
    else if d < Dia then Horas(d / Hora)
    else if d < Semana then Dias(d / Dia)
    else FechaCompleta
  }

  /** The position of a branch in the if/elif chain. */
  function Orden(l: Lapso): nat {
    match l
    case Segundos => 0
    case Minutos(_) => 1
    case Horas(_) => 2
    case Dias(_) => 3
    case FechaCompleta => 4
  }

  /** A longer duration never falls in an earlier branch, nor, within the
      same branch, prints a smaller count. */
  lemma {:induction false} TramoMonotono(a: int, b: int)
    requires a <= b
    ensures Orden(Tramo(a)) <= Orden(Tramo(b))
    ensures Orden(Tramo(a)) == Orden(Tramo(b)) && Tramo(a).Minutos? ==> Tramo(a).n <= Tramo(b).n
    ensures Orden(Tramo(a)) == Orden(Tramo(b)) && Tramo(a).Horas? ==> Tramo(a).n <= Tramo(b).n
    ensures Orden(Tramo(a)) == Orden(Tramo(b)) && Tramo(a).Dias? ==> Tramo(a).n <= Tramo(b).n
  {
    var la, lb := Tramo(a), Tramo(b);
    if la.Minutos? && lb.Minutos? {
      assert la.n * Minuto <= a <= b < (lb.n + 1) * Minuto;
    } else if la.Horas? && lb.Horas? {
      assert la.n * Hora <= a <= b < (lb.n + 1) * Hora;
    } else if la.Dias? && lb.Dias? {
      assert la.n * Dia <= a <= b < (lb.n + 1) * Dia;
    }
  }

  /** "Hace {n} {unidad}", with an 's' when n > 1. */
  function Relativo(n: nat, unidad: string): string {
    "Hace " + NatToString(n) + " " + unidad + (if n > 1 then "s" else "")
  }

  /** The label of a branch; `fechaTexto` is the strftime rendering of the
      activity's instant, which the last branch prints. */
  function Texto(l: Lapso, fechaTexto: string): string {
    match l
    case Segundos => "Hace unos segundos"
    case Minutos(n) => Relativo(n, "minuto")
    case Horas(n) => Relativo(n, "hora")
    case Dias(n) => Relativo(n, "día")
    case FechaCompleta => fechaTexto
  }

  /** tiempo_transcurrido at instant `ahora`; `formatear` is
      `strftime("%d/%m/%Y, %H:%M")` on the activity's instant. */
  function TiempoTranscurrido(a: Actividad, ahora: int, formatear: int -> string): string {
    Texto(Tramo(ahora - a.fecha), formatear(a.fecha))
  }

  /** The number of leading ASCII digits of `s`. */
  function CorridaDigitos(s: string): (k: nat)
    ensures k <= |s|
    ensures forall i :: 0 <= i < k ==> IsAsciiDigit(s[i])
    ensures k < |s| ==> !IsAsciiDigit(s[k])
  {
    if s == [] || !IsAsciiDigit(s[0]) then 0 else 1 + CorridaDigitos(s[1..])
  }

  lemma {:induction false} CorridaDeConcat(x: string, y: string)
    requires forall i :: 0 <= i < |x| ==> IsAsciiDigit(x[i])
    requires y == [] || !IsAsciiDigit(y[0])
    ensures CorridaDigitos(x + y) == |x|
  {
    if x != [] {
      assert (x + y)[1..] == x[1..] + y;
      CorridaDeConcat(x[1..], y);
    } else {
      assert x + y == y;
    }
  }

  /** Reads a relative label back: the branch and the count it names. */
  function Leer(t: string): Option<Lapso> {
    if t == "Hace unos segundos" then Some(Segundos)
    else if |t| < 5 || t[..5] != "Hace " then None
    else
      var cuerpo := t[5..];
      var k := CorridaDigitos(cuerpo);
      var n := DigitsValue(cuerpo[..k]);
      var resto := cuerpo[k..];
      if k == 0 || n < 0 then None else LapsoDe(n, resto)
  }

  /** The branch named by the words after the count. */
  function LapsoDe(n: nat, resto: string): Option<Lapso> {
    if resto == " minuto" || resto == " minutos" then Some(Minutos(n))
    else if resto == " hora" || resto == " horas" then Some(Horas(n))
    else if resto == " día" || resto == " días" then Some(Dias(n))
    else None
  }

  /** A relative label splits into "Hace ", the digits of its count and
      the words after them. */
  lemma {:induction false} PartesRelativo(n: nat, unidad: string)
    ensures var t := Relativo(n, unidad);
            var resto := " " + unidad + (if n > 1 then "s" else "");
            t != "Hace unos segundos" && t[..5] == "Hace " && t[5..] == NatToString(n) + resto
            && CorridaDigitos(t[5..]) == |NatToString(n)|
            && DigitsValue(t[5..][..|NatToString(n)|]) == n
            && t[5..][|NatToString(n)|..] == resto
  {
    var d := NatToString(n);
    var resto := " " + unidad + (if n > 1 then "s" else "");
    var t := Relativo(n, unidad);
    assert t == "Hace " + (d + resto);
    assert t[5] == d[0];
    assert t[5..] == d + resto;
    CorridaDeConcat(d, resto);
    assert (d + resto)[..|d|] == d;
    DigitsValueOfNatToString(n);
  }

  /** Reading a relative label gives back the count and the branch the
      words after it name. */
  lemma {:induction false} LeerRelativo(n: nat, unidad: string)
    ensures Leer(Relativo(n, unidad)) == LapsoDe(n, " " + unidad + (if n > 1 then "s" else ""))
  {
    PartesRelativo(n, unidad);
  }

  /** The unit word of a relative branch. */
  function Unidad(l: Lapso): string
    requires l.Minutos? || l.Horas? || l.Dias?
  {
    if l.Minutos? then "minuto" else if l.Horas? then "hora" else "día"
  }

  /** The words after the count name the unit they were built from. */
  lemma {:induction false} LapsoDeUnidad(l: Lapso)
    requires l.Minutos? || l.Horas? || l.Dias?
    ensures LapsoDe(l.n, " " + Unidad(l) + (if l.n > 1 then "s" else "")) == Some(l)
  {
    var plural := if l.n > 1 then "s" else "";
    if l.Minutos? {
      assert " " + "minuto" + plural == if l.n > 1 then " minutos" else " minuto";
    } else if l.Horas? {
      assert " " + "hora" + plural == if l.n > 1 then " horas" else " hora";
      assert " " + "hora" + plural != " minuto" && " " + "hora" + plural != " minutos";
    } else {
      assert " " + "día" + plural == if l.n > 1 then " días" else " día";
      assert " " + "día" + plural != " minuto" && " " + "día" + plural != " minutos";
      assert " " + "día" + plural != " hora" && " " + "día" + plural != " horas";
    }
  }

  /** Texto's partner: every label short of the full date reads back as the
      branch and count that produced it, so two durations under a week with
      the same label fall in the same branch with the same count. */
  lemma {:induction false} LeerTexto(l: Lapso, fechaTexto: string)
    requires !l.FechaCompleta?
    ensures Leer(Texto(l, fechaTexto)) == Some(l)
  {
    if !l.Segundos? {
      LeerRelativo(l.n, Unidad(l));
      LapsoDeUnidad(l);
    }
  }

  /** The label ends in 's' exactly when the count printed is above one. */
  lemma {:induction false} TextoPlural(l: Lapso, fechaTexto: string)
    requires l.Minutos? || l.Horas? || l.Dias?
    ensures var t := Texto(l, fechaTexto); t[|t| - 1] == 's' <==> l.n > 1
  {
  }
}
