/**
  The rule-based parts of dashboard/utils.py: the stock level of a
  product, the inventory analysis (its rows, the per-level counts, the
  critical products and the stock value), the automatic problem report,
  and the row selection of the two sales analyses. The DataFrame
  group-bys and exports are not part of this model.
*/
module DashboardUtils {
  import opened Wrappers
  import opened Text
  import opened CarritoModels

  // ===== stock levels ===================================================

  /** A product as the inventory analyses read it. `stock` is not declared
      in carrito/models.py; it is kept as an integer column. */
  datatype ProductoInv = ProductoInv(id: nat, nombre: string, stock: int, precio: real)

  datatype NivelStock = SinStock | StockBajo | StockMedio | StockBueno

  /** The label stored in the `nivel_stock` column. */
  function NivelNombre(n: NivelStock): string {
    match n
    case SinStock => "Sin stock"
    case StockBajo => "Stock bajo"
    case StockMedio => "Stock medio"
    case StockBueno => "Stock bueno"
  }

  /** The position of a level, from empty to well stocked. */
  function Rango(n: NivelStock): nat {
    match n
    case SinStock => 0
    case StockBajo => 1
    case StockMedio => 2
    case StockBueno => 3
  }

  /** The if/elif chain of analizar_inventario. A negative stock falls in
      the `<= 5` branch. */
  function Nivel(stock: int): NivelStock {
    if stock == 0 then SinStock
    else if stock <= 5 then StockBajo
    else if stock <= 20 then StockMedio
    else StockBueno
  }

  /** On non-negative stock the four levels are the ranges 0, 1..5, 6..20
      and above 20. */
  lemma {:induction false} NivelParticiona(stock: nat)
    ensures Nivel(stock) == SinStock <==> stock == 0
    ensures Nivel(stock) == StockBajo <==> 1 <= stock <= 5
    ensures Nivel(stock) == StockMedio <==> 6 <= stock <= 20
    ensures Nivel(stock) == StockBueno <==> stock > 20
  {
  }

  /** More stock never means a worse level. */
  lemma {:induction false} NivelMonotono(a: nat, b: nat)
    requires a <= b
    ensures Rango(Nivel(a)) <= Rango(Nivel(b))
  {
  }

  // ===== analizar_inventario ============================================

  /** One row of `datos`. */
  datatype Fila = Fila(id: nat, nombre: string, stock: int, precio: real, nivel: NivelStock)

  function FilaDe(p: ProductoInv): Fila {
    Fila(p.id, p.nombre, p.stock, p.precio, Nivel(p.stock))
  }

  /** `datos`: one row per product, in table order. */
  function Filas(ps: seq<ProductoInv>): (r: seq<Fila>)
    ensures |r| == |ps|
    ensures forall i :: 0 <= i < |ps| ==> r[i] == FilaDe(ps[i])
  {
    if ps == [] then [] else [FilaDe(ps[0])] + Filas(ps[1..])
  }

  /** One row of `analisis_stock`. */
  datatype Grupo = Grupo(cantidadProductos: nat, totalUnidades: int)

  /** The rows that carry level `n`. */
  function Contar(filas: seq<Fila>, n: NivelStock): (c: nat)
    ensures c <= |filas|
  {
    if filas == [] then 0 else (if filas[0].nivel == n then 1 else 0) + Contar(filas[1..], n)
  }

  /** The stock of the rows that carry level `n`, added up. */
  function Unidades(filas: seq<Fila>, n: NivelStock): int {
    if filas == [] then 0 else (if filas[0].nivel == n then filas[0].stock else 0) + Unidades(filas[1..], n)
  }

  /** The stock of every row, added up. */
  function UnidadesTotales(filas: seq<Fila>): int {
    if filas == [] then 0 else filas[0].stock + UnidadesTotales(filas[1..])
  }

  /** The levels that occur in the rows. */
  function NivelesDe(filas: seq<Fila>): set<NivelStock> {
    set f | f in filas :: f.nivel
  }

  /** df.group_by('nivel_stock'): one group per level that occurs, with its
      row count and its units. The groups come in no fixed order, so they
      are keyed by level. */
  function AnalisisStock(filas: seq<Fila>): map<NivelStock, Grupo> {
    map n | n in NivelesDe(filas) :: Grupo(Contar(filas, n), Unidades(filas, n))
  }

  /** A level has a group exactly when some row has that level, and then no
      group is empty. */
  lemma {:induction false} ContarPositivo(filas: seq<Fila>, n: NivelStock)
    ensures Contar(filas, n) > 0 <==> n in NivelesDe(filas)
  {
    if filas != [] {
      ContarPositivo(filas[1..], n);
      assert NivelesDe(filas) == {filas[0].nivel} + NivelesDe(filas[1..]) by {
        forall m | m in NivelesDe(filas) ensures m in {filas[0].nivel} + NivelesDe(filas[1..]) {
          var f :| f in filas && f.nivel == m;
          if f != filas[0] {
            assert f in filas[1..];
          }
        }
      }
    }
  }

  /** The four groups together hold every row and every unit. */
  lemma {:induction false} GruposParticionan(filas: seq<Fila>)
    ensures Contar(filas, SinStock) + Contar(filas, StockBajo) + Contar(filas, StockMedio)
          + Contar(filas, StockBueno) == |filas|
    ensures Unidades(filas, SinStock) + Unidades(filas, StockBajo) + Unidades(filas, StockMedio)
          + Unidades(filas, StockBueno) == UnidadesTotales(filas)
  {
    if filas != [] {
      GruposParticionan(filas[1..]);
    }
  }

  /** The rows a `stock <= 5` filter keeps, in table order. */
  function FiltrarCriticos(filas: seq<Fila>): (r: seq<Fila>)
    ensures forall f :: f in r <==> f in filas && f.stock <= 5
    ensures |r| <= |filas|
  {
    if filas == [] then []
    else (if filas[0].stock <= 5 then [filas[0]] else []) + FiltrarCriticos(filas[1..])
  }

  predicate OrdenadoPorStock(s: seq<Fila>) {
    forall i, j :: 0 <= i < j < |s| ==> s[i].stock <= s[j].stock
  }

  /** Puts `x` in front of the first row with at least its stock. */
  function Insertar(x: Fila, s: seq<Fila>): (r: seq<Fila>)
    ensures multiset(r) == multiset(s) + multiset{x}
  {
    if s == [] then [x]
    else if x.stock <= s[0].stock then [x] + s
    else
      assert s == [s[0]] + s[1..];
      [s[0]] + Insertar(x, s[1..])
  }

  /** Inserting into a sorted sequence keeps it sorted. */
  lemma {:induction false} InsertarOrdenado(x: Fila, s: seq<Fila>)
    requires OrdenadoPorStock(s)
    ensures OrdenadoPorStock(Insertar(x, s))
  {
    if s != [] && x.stock > s[0].stock {
      var s1 := s[1..];
      assert forall k :: 0 <= k < |s1| ==> s1[k] == s[k + 1];
      InsertarOrdenado(x, s1);
      InsertarCota(x, s1, s[0].stock);
      assert AlMenos(Insertar(x, s1), s[0].stock);
      var t := Insertar(x, s1);
      var r := [s[0]] + t;
      assert Insertar(x, s) == r;
      forall i, j | 0 <= i < j < |r| ensures r[i].stock <= r[j].stock {
        assert r[j] == t[j - 1];
        if i > 0 {
          assert r[i] == t[i - 1];
        }
      }
    }
  }

  predicate AlMenos(s: seq<Fila>, c: int) {
    forall k :: 0 <= k < |s| ==> c <= s[k].stock
  }

  /** Inserting a row into rows with stock at least `c` keeps every stock at least `c`. */
  lemma {:induction false} InsertarCota(x: Fila, s: seq<Fila>, c: int)
    requires c <= x.stock && AlMenos(s, c)
    ensures AlMenos(Insertar(x, s), c)
  {
    if s == [] {
      assert Insertar(x, s) == [x];
    } else if x.stock <= s[0].stock {
      var r := [x] + s;
      assert Insertar(x, s) == r;
      assert forall k :: 1 <= k < |r| ==> r[k] == s[k - 1];
    } else {
      var s1 := s[1..];
      assert forall k :: 0 <= k < |s1| ==> s1[k] == s[k + 1];
      InsertarCota(x, s1, c);
      var t := Insertar(x, s1);
      var r := [s[0]] + t;
      assert Insertar(x, s) == r;
      assert forall k :: 1 <= k < |r| ==> r[k] == t[k - 1];
    }
  }

  /** The rows sorted by ascending stock. */
  function OrdenarPorStock(s: seq<Fila>): (r: seq<Fila>)
    ensures multiset(r) == multiset(s)
  {
    if s == [] then []
    else
      assert s == [s[0]] + s[1..];
      Insertar(s[0], OrdenarPorStock(s[1..]))
  }

  lemma {:induction false} OrdenarOrdenado(s: seq<Fila>)
    ensures OrdenadoPorStock(OrdenarPorStock(s))
  {
    if s != [] {
      OrdenarOrdenado(s[1..]);
      InsertarOrdenado(s[0], OrdenarPorStock(s[1..]));
    }
  }

  /** productos_criticos: the rows with stock at most 5, by ascending
      stock. Rows of equal stock have no fixed order in the source; the
      model keeps table order among them. */
  function Criticos(filas: seq<Fila>): seq<Fila> {
    OrdenarPorStock(FiltrarCriticos(filas))
  }

  /** The critical rows are exactly the table's rows with stock at most 5,
      each as often as it occurs among them, sorted by stock. */
  lemma {:induction false} CriticosCorrectos(filas: seq<Fila>)
    ensures multiset(Criticos(filas)) == multiset(FiltrarCriticos(filas))
    ensures forall f :: f in Criticos(filas) <==> f in filas && f.stock <= 5
    ensures OrdenadoPorStock(Criticos(filas))
  {
    var c := Criticos(filas);
    OrdenarOrdenado(FiltrarCriticos(filas));
    forall f ensures f in c <==> f in FiltrarCriticos(filas) {
      assert f in c <==> f in multiset(c);
      assert f in FiltrarCriticos(filas) <==> f in multiset(FiltrarCriticos(filas));
    }
  }

  /** The `valor_inventario` column. */
  function ValorInventario(f: Fila): real {
    f.stock as real * f.precio
  }

  function Valores(filas: seq<Fila>): (r: seq<real>)
    ensures |r| == |filas|
    ensures forall i :: 0 <= i < |filas| ==> r[i] == ValorInventario(filas[i])
  {
    if filas == [] then [] else [ValorInventario(filas[0])] + Valores(filas[1..])
  }

  function SumaReales(xs: seq<real>): real {
    if xs == [] then 0.0 else xs[0] + SumaReales(xs[1..])
  }

  /** With no negative stock and no negative price, the inventory value is
      not negative. */
  lemma {:induction false} ValorTotalNoNegativo(filas: seq<Fila>)
    requires forall f :: f in filas ==> f.stock >= 0 && f.precio >= 0.0
    ensures SumaReales(Valores(filas)) >= 0.0
  {
    if filas != [] {
      assert filas[0] in filas;
      assert Valores(filas)[1..] == Valores(filas[1..]);
      assert forall f :: f in filas[1..] ==> f in filas;
      ValorTotalNoNegativo(filas[1..]);
    }
  }

  /** The answer of analizar_inventario. */
  datatype Analisis = Analisis(
    filas: seq<Fila>,
    valores: seq<real>,
    analisisStock: map<NivelStock, Grupo>,
    productosCriticos: seq<Fila>,
    valorTotalInventario: real,
    totalProductos: nat)

  /** analizar_inventario over the product table: None for an empty table. */
  function AnalisisInventario(ps: seq<ProductoInv>): Option<Analisis> {
    var filas := Filas(ps);
    if filas == [] then None
    else Some(Analisis(filas, Valores(filas), AnalisisStock(filas), Criticos(filas),
                       SumaReales(Valores(filas)), |filas|))
  }

  /** What the analysis promises about the table it read. */
  lemma {:induction false} AnalisisInventarioCorrecto(ps: seq<ProductoInv>)
    ensures AnalisisInventario(ps).None? <==> ps == []
    ensures AnalisisInventario(ps).Some? ==>
              var a := AnalisisInventario(ps).value;
              && a.totalProductos == |ps|
              && (forall i :: 0 <= i < |ps| ==> a.filas[i].id == ps[i].id && a.filas[i].nivel == Nivel(ps[i].stock))
              && (forall f :: f in a.productosCriticos <==> f in a.filas && f.stock <= 5)
              && OrdenadoPorStock(a.productosCriticos)
              && (forall n :: n in a.analisisStock <==> Contar(a.filas, n) > 0)
              && (forall n :: n in a.analisisStock ==> a.analisisStock[n].cantidadProductos == Contar(a.filas, n))
  {
    if ps != [] {
      var filas := Filas(ps);
      CriticosCorrectos(filas);
      forall n ensures n in AnalisisStock(filas) <==> Contar(filas, n) > 0 {
        ContarPositivo(filas, n);
      }
    }
  }

  /** The `for producto in productos` loop that fills `datos`. */
  method ConstruirFilas(ps: seq<ProductoInv>) returns (datos: seq<Fila>)
    ensures datos == Filas(ps)
  {
    datos := [];
    var i := 0;
    while i < |ps|
      invariant 0 <= i <= |ps|
      invariant |datos| == i
      invariant forall k :: 0 <= k < i ==> datos[k] == FilaDe(ps[k])
    {
      datos := datos + [FilaDe(ps[i])];
      i := i + 1;
    }
  }

  /** analizar_inventario. */
  method AnalizarInventario(ps: seq<ProductoInv>) returns (r: Option<Analisis>)
    ensures r.None? <==> ps == []
    ensures r == AnalisisInventario(ps)
  {
    var datos := ConstruirFilas(ps);
    if datos == [] {
      return None;
    }
    var valores := Valores(datos);
    r := Some(Analisis(datos, valores, AnalisisStock(datos), Criticos(datos), SumaReales(valores), |datos|));
  }

  // ===== detectar_problemas_inventario ==================================

  datatype Severidad = Alta | Media

  /** One entry of the problem list. */
  datatype Problema = Problema(tipo: string, severidad: Severidad, titulo: string,
                               descripcion: string, producto: string, cantidad: int)

  /** The entry for product `p`: 'alta' for an empty stock, 'media' for a
      low one. */
  function ProblemaDe(p: ProductoInv, sev: Severidad): Problema {
    match sev
    case Alta =>
      Problema("stock", Alta, "Producto sin stock: " + p.nombre,
               "El producto " + p.nombre + " (ID: " + NatToString(p.id) + ") no tiene unidades disponibles.",
               p.nombre, 0)
    case Media =>
      Problema("stock", Media, "Stock bajo: " + p.nombre,
               "El producto " + p.nombre + " tiene solo " + IntToString(p.stock) + " unidades disponibles.",
               p.nombre, p.stock)
  }

  /** Producto.objects.filter(lo <= stock <= hi), in table order. */
  function ConStock(ps: seq<ProductoInv>, lo: int, hi: int): (r: seq<ProductoInv>)
    ensures forall p :: p in r <==> p in ps && lo <= p.stock <= hi
  {
    if ps == [] then []
    else (if lo <= ps[0].stock <= hi then [ps[0]] else []) + ConStock(ps[1..], lo, hi)
  }

  /** One entry of severity `sev` per product, in order. */
  function Entradas(ps: seq<ProductoInv>, sev: Severidad): (r: seq<Problema>)
    ensures |r| == |ps|
    ensures forall i :: 0 <= i < |ps| ==> r[i] == ProblemaDe(ps[i], sev)
  {
    if ps == [] then [] else [ProblemaDe(ps[0], sev)] + Entradas(ps[1..], sev)
  }

  /** detectar_problemas_inventario over the product table. */
  function Problemas(ps: seq<ProductoInv>): seq<Problema> {
    Entradas(ConStock(ps, 0, 0), Alta) + Entradas(ConStock(ps, 1, 5), Media)
  }

  /** An entry for each product of a query, at its own position. */
  lemma {:induction false} EntradasCubren(ps: seq<ProductoInv>, sev: Severidad, p: ProductoInv)
    requires p in ps
    ensures ProblemaDe(p, sev) in Entradas(ps, sev)
  {
    var k :| 0 <= k < |ps| && ps[k] == p;
    assert Entradas(ps, sev)[k] == ProblemaDe(p, sev);
  }

  /** Every product out of stock gives a high entry and every product with
      1 to 5 units a medium one. */
  lemma {:induction false} ProblemasCompletos(ps: seq<ProductoInv>)
    ensures forall p :: p in ps && p.stock == 0 ==> ProblemaDe(p, Alta) in Problemas(ps)
    ensures forall p :: p in ps && 1 <= p.stock <= 5 ==> ProblemaDe(p, Media) in Problemas(ps)
  {
    var a, b := ConStock(ps, 0, 0), ConStock(ps, 1, 5);
    forall p | p in ps && p.stock == 0 ensures ProblemaDe(p, Alta) in Problemas(ps) {
      EntradasCubren(a, Alta, p);
    }
    forall p | p in ps && 1 <= p.stock <= 5 ensures ProblemaDe(p, Media) in Problemas(ps) {
      EntradasCubren(b, Media, p);
    }
  }

  /** The high entries come first, and every entry comes from a product of
      the table with 0 to 5 units: 0 for a high entry, 1 to 5 for a medium
      one. */
  lemma {:induction false} ProblemasOrdenados(ps: seq<ProductoInv>)
    ensures var r := Problemas(ps);
            forall i, j :: 0 <= i < j < |r| && r[j].severidad == Alta ==> r[i].severidad == Alta
    ensures var r := Problemas(ps);
            forall i :: 0 <= i < |r| ==>
              exists p :: p in ps && r[i] == ProblemaDe(p, r[i].severidad)
                          && (if r[i].severidad == Alta then p.stock == 0 else 1 <= p.stock <= 5)
  {
    var a, b := ConStock(ps, 0, 0), ConStock(ps, 1, 5);
    var r := Problemas(ps);
    forall i | 0 <= i < |r|
      ensures exists p :: p in ps && r[i] == ProblemaDe(p, r[i].severidad)
                          && (if r[i].severidad == Alta then p.stock == 0 else 1 <= p.stock <= 5)
    {
      if i < |a| {
        assert a[i] in a && r[i] == ProblemaDe(a[i], Alta);
      } else {
        assert b[i - |a|] in b && r[i] == ProblemaDe(b[i - |a|], Media);
      }
    }
  }

  /** One `for` loop of detectar_problemas_inventario: an entry of
      severity `sev` appended for each row of the query. */
  method AgregarEntradas(problemas: seq<Problema>, ps: seq<ProductoInv>, sev: Severidad)
    returns (r: seq<Problema>)
    ensures r == problemas + Entradas(ps, sev)
  {
    r := problemas;
    var i := 0;
    while i < |ps|
      invariant 0 <= i <= |ps|
      invariant |r| == |problemas| + i
      invariant r[..|problemas|] == problemas
      invariant forall k :: 0 <= k < i ==> r[|problemas| + k] == ProblemaDe(ps[k], sev)
    {
      r := r + [ProblemaDe(ps[i], sev)];
      i := i + 1;
    }
    assert r[|problemas|..] == Entradas(ps, sev);
    assert r == r[..|problemas|] + r[|problemas|..];
  }

  /** detectar_problemas_inventario: the empty-stock query's entries, then
      the low-stock query's. */
  method DetectarProblemas(ps: seq<ProductoInv>) returns (problemas: seq<Problema>)
    ensures problemas == Problemas(ps)
  {
    problemas := AgregarEntradas([], ConStock(ps, 0, 0), Alta);
    problemas := AgregarEntradas(problemas, ConStock(ps, 1, 5), Media);
  }

  // ===== the sales analyses =============================================

  /** An order as the sales analyses read it: its instant, with the
      calendar month and year of that instant, and the columns the source
      uses but carrito/models.py does not declare; `usuario` is the
      username of the order's user, None when the order has no user. */
  datatype PedidoVenta = PedidoVenta(
    id: nat, instante: int, mes: int, anio: int, total: real, estado: string,
    ciudad: Option<string>, usuario: Option<string>, producto: Producto, cantidad: int)

  /** The states that count as a sale. */
  predicate EsVenta(estado: string) {
    estado == "procesando" || estado == "enviado" || estado == "entregado"
  }

  /** `x or default` for an optional text: None and "" give the default. */
  function OrTexto(x: Option<string>, default: string): (r: string)
    ensures x.Some? && x.value != "" ==> r == x.value
    ensures x.None? || x.value == "" ==> r == default
  {
    if x.Some? && x.value != "" then x.value else default
  }

  /** `if not v: v = default` for an optional number. */
  function OrNumero(x: Option<int>, default: int): (r: int)
    ensures x.Some? && x.value != 0 ==> r == x.value
    ensures x.None? || x.value == 0 ==> r == default
  {
    if x.Some? && x.value != 0 then x.value else default
  }

  /** One row of the monthly analysis. */
  datatype FilaVenta = FilaVenta(idPedido: nat, instante: int, total: real, estado: string,
                                 ciudad: string, usuario: string)

  /** The user column tests the user itself, not its username: a user
      whose username is "" keeps it. */
  function FilaVentaDe(p: PedidoVenta): FilaVenta {
    var usuario := if p.usuario.Some? then p.usuario.value else "Invitado";
    FilaVenta(p.id, p.instante, p.total, p.estado, OrTexto(p.ciudad, "Sin especificar"), usuario)
  }

  /** The orders of month `mes` of year `anio` in a sales state. */
  function DelMes(pedidos: seq<PedidoVenta>, mes: int, anio: int): (r: seq<PedidoVenta>)
    ensures forall p :: p in r <==> p in pedidos && p.mes == mes && p.anio == anio && EsVenta(p.estado)
  {
    if pedidos == [] then []
    else
      var p := pedidos[0];
      (if p.mes == mes && p.anio == anio && EsVenta(p.estado) then [p] else []) + DelMes(pedidos[1..], mes, anio)
  }

  function FilasVentas(pedidos: seq<PedidoVenta>): (r: seq<FilaVenta>)
    ensures |r| == |pedidos|
    ensures forall i :: 0 <= i < |pedidos| ==> r[i] == FilaVentaDe(pedidos[i])
    ensures forall i :: 0 <= i < |pedidos| ==>
      r[i].idPedido == pedidos[i].id && r[i].instante == pedidos[i].instante
      && r[i].total == pedidos[i].total && r[i].estado == pedidos[i].estado
      && r[i].ciudad == OrTexto(pedidos[i].ciudad, "Sin especificar")
      && (pedidos[i].usuario.Some? ==> r[i].usuario == pedidos[i].usuario.value)
      && (pedidos[i].usuario.None? ==> r[i].usuario == "Invitado")
  {
    if pedidos == [] then [] else [FilaVentaDe(pedidos[0])] + FilasVentas(pedidos[1..])
  }

  function SumaTotales(filas: seq<FilaVenta>): real {
    if filas == [] then 0.0 else filas[0].total + SumaTotales(filas[1..])
  }

  /** The two columns the monthly analysis groups by. */
  datatype Columna = Estado | Ciudad

  function ClaveDe(c: Columna, f: FilaVenta): string {
    match c
    case Estado => f.estado
    case Ciudad => f.ciudad
  }

  /** The rows whose column `c` holds `k`. */
  function ContarClave(filas: seq<FilaVenta>, c: Columna, k: string): (n: nat)
    ensures n <= |filas|
  {
    if filas == [] then 0 else (if ClaveDe(c, filas[0]) == k then 1 else 0) + ContarClave(filas[1..], c, k)
  }

  /** The total of the rows whose column `c` holds `k`. */
  function SumaClave(filas: seq<FilaVenta>, c: Columna, k: string): real {
    if filas == [] then 0.0 else (if ClaveDe(c, filas[0]) == k then filas[0].total else 0.0) + SumaClave(filas[1..], c, k)
  }

  function ClavesDe(filas: seq<FilaVenta>, c: Columna): set<string> {
    set f | f in filas :: ClaveDe(c, f)
  }

  /** One group of a sales group-by: 'total_ventas' and 'cantidad_pedidos'. */
  datatype GrupoVentas = GrupoVentas(totalVentas: real, cantidadPedidos: nat)

  /** df.group_by(c) with the sum of 'total' and the count of rows, keyed by
      the column's value. */
  function Agrupar(filas: seq<FilaVenta>, c: Columna): map<string, GrupoVentas> {
    map k | k in ClavesDe(filas, c) :: GrupoVentas(SumaClave(filas, c, k), ContarClave(filas, c, k))
  }

  /** A value has a group exactly when some row holds it, and then the group
      is not empty. */
  lemma {:induction false} ContarClavePositivo(filas: seq<FilaVenta>, c: Columna, k: string)
    ensures ContarClave(filas, c, k) > 0 <==> k in ClavesDe(filas, c)
  {
    if filas != [] {
      ContarClavePositivo(filas[1..], c, k);
      assert ClavesDe(filas, c) == {ClaveDe(c, filas[0])} + ClavesDe(filas[1..], c) by {
        forall m | m in ClavesDe(filas, c) ensures m in {ClaveDe(c, filas[0])} + ClavesDe(filas[1..], c) {
          var f :| f in filas && ClaveDe(c, f) == m;
          if f != filas[0] {
            assert f in filas[1..];
          }
        }
      }
    }
  }

  /** The monthly analysis: its rows, the scalar figures and the two
      group-bys. */
  datatype ResumenVentas = ResumenVentas(filas: seq<FilaVenta>, totalVentas: real, promedioVenta: real,
                                         cantidadPedidos: nat, ventasPorEstado: map<string, GrupoVentas>,
                                         ventasPorCiudad: map<string, GrupoVentas>, periodo: string)

  /** The answer built from the rows of the selected orders. */
  function Resumen(filas: seq<FilaVenta>, m: int, a: int): Option<ResumenVentas> {
    if filas == [] then None
    else Some(ResumenVentas(filas, SumaTotales(filas), SumaTotales(filas) / |filas| as real, |filas|,
                            Agrupar(filas, Estado), Agrupar(filas, Ciudad),
                            IntToString(m) + "/" + IntToString(a)))
  }

  /** analizar_ventas_mensuales, `mes` and `anio` defaulting to the current
      month and year. */
  function VentasMensuales(mes: Option<int>, anio: Option<int>, mesActual: int, anioActual: int,
                           pedidos: seq<PedidoVenta>): Option<ResumenVentas>
  {
    var m := OrNumero(mes, mesActual);
    var a := OrNumero(anio, anioActual);
    Resumen(FilasVentas(DelMes(pedidos, m, a)), m, a)
  }

  /** The monthly analysis is None exactly when no order of that month is a
      sale; otherwise it has one row per such order, the mean is the total
      over the count, and each group-by has a group for exactly the values
      that occur, with the count of their rows. */
  lemma {:induction false} VentasMensualesCorrectas(mes: Option<int>, anio: Option<int>, mesActual: int,
                                                    anioActual: int, pedidos: seq<PedidoVenta>)
    ensures var m := OrNumero(mes, mesActual);
            var a := OrNumero(anio, anioActual);
            var r := VentasMensuales(mes, anio, mesActual, anioActual, pedidos);
            && (r.None? <==> forall p :: p in pedidos ==> !(p.mes == m && p.anio == a && EsVenta(p.estado)))
            && (r.Some? ==> && r.value.cantidadPedidos == |DelMes(pedidos, m, a)|
                            && r.value.promedioVenta == r.value.totalVentas / r.value.cantidadPedidos as real
                            && forall f :: f in r.value.filas ==> EsVenta(f.estado))
  {
    var m := OrNumero(mes, mesActual);
    var a := OrNumero(anio, anioActual);
    var sel := DelMes(pedidos, m, a);
    if sel != [] {
      assert sel[0] in sel;
      var filas := FilasVentas(sel);
      forall f | f in filas ensures EsVenta(f.estado) {
        var k :| 0 <= k < |filas| && filas[k] == f;
        assert sel[k] in sel;
      }
    }
  }

  /** The group-bys of a monthly analysis: a group for exactly each value
      that occurs in the column, none of them empty, and the states grouped
      are all states of a sale. */
  lemma {:induction false} GruposVentasCorrectos(filas: seq<FilaVenta>, m: int, a: int, c: Columna, k: string)
    requires Resumen(filas, m, a).Some?
    ensures var g := if c == Estado then Resumen(filas, m, a).value.ventasPorEstado
                     else Resumen(filas, m, a).value.ventasPorCiudad;
            && (k in g <==> exists f :: f in filas && ClaveDe(c, f) == k)
            && (k in g ==> g[k].cantidadPedidos == ContarClave(filas, c, k) > 0)
  {
    ContarClavePositivo(filas, c, k);
  }

  /** The `for pedido in pedidos` loop of analizar_ventas_mensuales. */
  method ConstruirFilasVentas(pedidos: seq<PedidoVenta>) returns (datos: seq<FilaVenta>)
    ensures datos == FilasVentas(pedidos)
  {
    datos := [];
    var i := 0;
    while i < |pedidos|
      invariant 0 <= i <= |pedidos|
      invariant |datos| == i
      invariant forall k :: 0 <= k < i ==> datos[k] == FilaVentaDe(pedidos[k])
    {
      datos := datos + [FilaVentaDe(pedidos[i])];
      i := i + 1;
    }
  }

  /** analizar_ventas_mensuales. */
  method AnalizarVentasMensuales(mes: Option<int>, anio: Option<int>, mesActual: int, anioActual: int,
                                 pedidos: seq<PedidoVenta>) returns (r: Option<ResumenVentas>)
    ensures r == VentasMensuales(mes, anio, mesActual, anioActual, pedidos)
  {
    var m := OrNumero(mes, mesActual);
    var a := OrNumero(anio, anioActual);
    var datos := ConstruirFilasVentas(DelMes(pedidos, m, a));
    if datos == [] {
      return None;
    }
    var total := SumaTotales(datos);
    r := Some(ResumenVentas(datos, total, total / |datos| as real, |datos|,
                            Agrupar(datos, Estado), Agrupar(datos, Ciudad),
                            IntToString(m) + "/" + IntToString(a)));
  }

  /** One row of the products analysis. */
  datatype FilaProducto = FilaProducto(productoId: nat, productoNombre: string, cantidad: int,
                                       precio: real, subtotal: real, instante: int)

  function FilaProductoDe(p: PedidoVenta): FilaProducto {
    FilaProducto(p.producto.id, p.producto.nombre, p.cantidad, p.producto.precio, p.total, p.instante)
  }

  /** The orders between `desde` and `hasta`, both included, in a sales
      state. */
  function EntreFechas(pedidos: seq<PedidoVenta>, desde: int, hasta: int): (r: seq<PedidoVenta>)
    ensures forall p :: p in r <==> p in pedidos && desde <= p.instante <= hasta && EsVenta(p.estado)
  {
    if pedidos == [] then []
    else
      var p := pedidos[0];
      (if desde <= p.instante <= hasta && EsVenta(p.estado) then [p] else []) + EntreFechas(pedidos[1..], desde, hasta)
  }

  function FilasProductos(pedidos: seq<PedidoVenta>): (r: seq<FilaProducto>)
    ensures |r| == |pedidos|
    ensures forall i :: 0 <= i < |pedidos| ==> r[i] == FilaProductoDe(pedidos[i])
  {
    if pedidos == [] then [] else [FilaProductoDe(pedidos[0])] + FilasProductos(pedidos[1..])
  }

  /** timedelta(days=30), in seconds. */
  const TreintaDias := 30 * 24 * 60 * 60

  /** analizar_productos_vendidos up to its rows: the range defaults to the
      last thirty days up to now. The grouping and the printed period are
      not part of this model. */
  function ProductosVendidos(desde: Option<int>, hasta: Option<int>, ahora: int,
                             pedidos: seq<PedidoVenta>): Option<seq<FilaProducto>>
  {
    var d := desde.GetOr(ahora - TreintaDias);
    var h := hasta.GetOr(ahora);
    var filas := FilasProductos(EntreFechas(pedidos, d, h));
    if filas == [] then None else Some(filas)
  }

  /** The products analysis is None exactly when no order of the range is a
      sale; its rows are the sales of the range. */
  lemma {:induction false} ProductosVendidosCorrectos(desde: Option<int>, hasta: Option<int>, ahora: int,
                                                      pedidos: seq<PedidoVenta>)
    ensures var d := desde.GetOr(ahora - TreintaDias);
            var h := hasta.GetOr(ahora);
            var r := ProductosVendidos(desde, hasta, ahora, pedidos);
            && (r.None? <==> forall p :: p in pedidos ==> !(d <= p.instante <= h && EsVenta(p.estado)))
            && (r.Some? ==> forall f :: f in r.value ==> d <= f.instante <= h)
  {
    var d := desde.GetOr(ahora - TreintaDias);
    var h := hasta.GetOr(ahora);
    var sel := EntreFechas(pedidos, d, h);
    if sel != [] {
      assert sel[0] in sel;
      var filas := FilasProductos(sel);
      forall f | f in filas ensures d <= f.instante <= h {
        var k :| 0 <= k < |filas| && filas[k] == f;
        assert sel[k] in sel;
      }
    }
  }

  /** The `for pedido in pedidos` loop of analizar_productos_vendidos. */
  method ConstruirFilasProductos(pedidos: seq<PedidoVenta>) returns (datos: seq<FilaProducto>)
    ensures datos == FilasProductos(pedidos)
  {
    datos := [];
    var i := 0;
    while i < |pedidos|
      invariant 0 <= i <= |pedidos|
      invariant |datos| == i
      invariant forall k :: 0 <= k < i ==> datos[k] == FilaProductoDe(pedidos[k])
    {
      datos := datos + [FilaProductoDe(pedidos[i])];
      i := i + 1;
    }
  }

  /** analizar_productos_vendidos up to its rows. */
  method AnalizarProductosVendidos(desde: Option<int>, hasta: Option<int>, ahora: int,
                                   pedidos: seq<PedidoVenta>) returns (r: Option<seq<FilaProducto>>)
    ensures r == ProductosVendidos(desde, hasta, ahora, pedidos)
  {
    var d := desde.GetOr(ahora - TreintaDias);
    var h := hasta.GetOr(ahora);
    var datos := ConstruirFilasProductos(EntreFechas(pedidos, d, h));
    if datos == [] {
      return None;
    }
    r := Some(datos);
  }
}
