/**
  The full-inventory modal of core/static/js/inventario-modal.js. The
  fetched inventory is a list of variant rows; they are grouped by
  product in a plain object, the groups are emitted in the object's own
  key order, and a summary counts products, variants, stock and value.
  The HTML markup is not modelled: a view records what each block shows.
*/
module InventarioModal {
  import opened Wrappers

  /** One row of the inventory API. */
  datatype Item = Item(productoId: int, productoNombre: string, productoImagen: string,
                       varianteId: int, talla: string, color: string, stock: int, precio: real)

  /** One value of `productosMap`: the first row's name and image, and the
      rows pushed so far. */
  datatype Grupo = Grupo(nombre: string, imagen: string, variantes: seq<Item>)

  // ----- grouping --------------------------------------------------------

  /** One turn of the forEach: a group is created for an unseen product,
      then the row is pushed onto its group. */
  function Anadir(m: map<int, Grupo>, x: Item): map<int, Grupo> {
    var g := if x.productoId in m then m[x.productoId] else Grupo(x.productoNombre, x.productoImagen, []);
    m[x.productoId := g.(variantes := g.variantes + [x])]
  }

  /** `productosMap` after the forEach over `items`. */
  function Agrupar(items: seq<Item>): map<int, Grupo>
    decreases |items|
  {
    if items == [] then map[] else Anadir(Agrupar(items[..|items| - 1]), items[|items| - 1])
  }

  /** The rows of one product, in input order. */
  function Filtrar(items: seq<Item>, k: int): (r: seq<Item>)
    ensures forall x :: x in r ==> x in items && x.productoId == k
    decreases |items|
  {
    if items == [] then []
    else Filtrar(items[..|items| - 1], k) + (if items[|items| - 1].productoId == k then [items[|items| - 1]] else [])
  }

  /** The products present. */
  function Ids(items: seq<Item>): set<int> {
    set i | 0 <= i < |items| :: items[i].productoId
  }

  /** Row `i` is the first of its product. */
  predicate Primera(items: seq<Item>, i: int)
    requires 0 <= i < |items|
  {
    forall j :: 0 <= j < i ==> items[j].productoId != items[i].productoId
  }

  /** The products of a list with one more row. */
  lemma {:induction false} IdsAnadir(p: seq<Item>, x: Item)
    ensures Ids(p + [x]) == Ids(p) + {x.productoId}
  {
    var q := p + [x];
    forall k ensures k in Ids(q) <==> k in Ids(p) + {x.productoId} {
      if k in Ids(q) {
        var i :| 0 <= i < |q| && q[i].productoId == k;
        if i < |p| {
          assert p[i] == q[i];
        }
      }
      if k in Ids(p) {
        var i :| 0 <= i < |p| && p[i].productoId == k;
        assert q[i] == p[i];
      }
      if k == x.productoId {
        assert q[|p|] == x;
      }
    }
  }

  /** The object has one key per product; each group holds exactly that
      product's rows in input order; its name and image come from the
      product's first row. */
  lemma {:induction false} AgruparCorrecto(items: seq<Item>)
    ensures forall k :: k in Agrupar(items) <==> k in Ids(items)
    ensures forall k :: k in Agrupar(items) ==> Agrupar(items)[k].variantes == Filtrar(items, k)
    ensures forall i :: 0 <= i < |items| && Primera(items, i) ==>
              && Agrupar(items)[items[i].productoId].nombre == items[i].productoNombre
              && Agrupar(items)[items[i].productoId].imagen == items[i].productoImagen
    decreases |items|
  {
    if items != [] {
      var p := items[..|items| - 1];
      var x := items[|items| - 1];
      assert items == p + [x];
      AgruparCorrecto(p);
      IdsAnadir(p, x);
      var m := Agrupar(p);
      forall k | k in Agrupar(items) ensures Agrupar(items)[k].variantes == Filtrar(items, k) {
        assert Filtrar(items, k) == Filtrar(p, k) + (if x.productoId == k then [x] else []);
        if k != x.productoId {
          assert Agrupar(items)[k] == m[k];
        } else if k !in m {
          assert k !in Ids(p);
          FiltrarVacio(p, k);
        }
      }
      forall i | 0 <= i < |items| && Primera(items, i)
        ensures && Agrupar(items)[items[i].productoId].nombre == items[i].productoNombre
                && Agrupar(items)[items[i].productoId].imagen == items[i].productoImagen
      {
        if i < |p| {
          assert items[i] == p[i];
          assert Primera(p, i) by {
            forall j | 0 <= j < i ensures p[j].productoId != p[i].productoId {
              assert p[j] == items[j];
            }
          }
          assert p[i].productoId in Ids(p);
        } else {
          assert x.productoId !in Ids(p) by {
            forall j | 0 <= j < |p| ensures p[j].productoId != x.productoId {
              assert p[j] == items[j];
            }
          }
        }
      }
    }
  }

  /** A product without rows has no rows to filter. */
  lemma {:induction false} FiltrarVacio(items: seq<Item>, k: int)
    requires k !in Ids(items)
    ensures Filtrar(items, k) == []
    decreases |items|
  {
    if items != [] {
      var p := items[..|items| - 1];
      assert Ids(p) <= Ids(items) by {
        forall j | j in Ids(p) ensures j in Ids(items) {
          var i :| 0 <= i < |p| && p[i].productoId == j;
          assert items[i] == p[i];
        }
      }
      assert items[|items| - 1].productoId in Ids(items);
      FiltrarVacio(p, k);
    }
  }

  // ----- key order -------------------------------------------------------

  /** An integer-like key that is an array index: ordinary objects list
      such keys first, in ascending numeric order (section 10.1.11.1 of
      ECMA-262, OrdinaryOwnPropertyKeys). */
  predicate EsIndice(k: int) {
    0 <= k < 0xFFFF_FFFF
  }

  predicate Distintos(s: seq<int>) {
    forall a, b :: 0 <= a < b < |s| ==> s[a] != s[b]
  }

  predicate Creciente(s: seq<int>) {
    forall a, b :: 0 <= a < b < |s| ==> s[a] < s[b]
  }

  /** The keys in order of creation: each product the first time one of
      its rows is seen. */
  function Creadas(items: seq<Item>): (r: seq<int>)
    ensures Distintos(r)
    ensures forall k :: k in r <==> k in Ids(items)
    decreases |items|
  {
    if items == [] then []
    else
      var p := items[..|items| - 1];
      var x := items[|items| - 1];
      assert items == p + [x];
      IdsAnadir(p, x);
      var c := Creadas(p);
      if x.productoId in c then c else c + [x.productoId]
  }

  /** The keys of `s` that satisfy `f`, in the order of `s`. */
  function Elegir(s: seq<int>, f: int -> bool): (r: seq<int>)
    ensures forall k :: k in r <==> k in s && f(k)
    ensures Distintos(s) ==> Distintos(r)
  {
    if s == [] then []
    else
      var resto := Elegir(s[1..], f);
      assert Distintos(s) ==> Distintos(s[1..]) && s[0] !in s[1..];
      if f(s[0]) then [s[0]] + resto else resto
  }

  lemma {:induction false} ElegirNinguno(s: seq<int>, f: int -> bool)
    requires forall j :: 0 <= j < |s| ==> !f(s[j])
    ensures Elegir(s, f) == []
  {
    if s != [] {
      assert forall j :: 0 <= j < |s[1..]| ==> s[1..][j] == s[j + 1];
      ElegirNinguno(s[1..], f);
      assert Elegir(s, f) == Elegir(s[1..], f);
    }
  }

  /** `x` put into place in an ascending list, unless already there. */
  function InsertarAsc(x: int, s: seq<int>): (r: seq<int>)
    ensures forall k :: k in r <==> k == x || k in s
    ensures Creciente(s) ==> Creciente(r)
  {
    if s == [] then [x]
    else if x < s[0] then [x] + s
    else if x == s[0] then s
    else
      var resto := InsertarAsc(x, s[1..]);
      if Creciente(s) then
        assert forall k :: k in s[1..] ==> s[0] < k;
        CrecienteCons(s[0], resto);
        [s[0]] + resto
      else [s[0]] + resto
  }

  lemma {:induction false} CrecienteCons(h: int, t: seq<int>)
    requires Creciente(t) && forall k :: k in t ==> h < k
    ensures Creciente([h] + t)
  {
    var r := [h] + t;
    forall a, b | 0 <= a < b < |r| ensures r[a] < r[b] {
      assert r[b] == t[b - 1];
      assert t[b - 1] in t;
      if a > 0 {
        assert r[a] == t[a - 1];
      }
    }
  }

  /** The keys in ascending order. */
  function OrdenarAsc(s: seq<int>): (r: seq<int>)
    ensures Creciente(r)
    ensures forall k :: k in r <==> k in s
  {
    if s == [] then [] else InsertarAsc(s[0], OrdenarAsc(s[1..]))
  }

  /** Object.values(productosMap) visits the keys in this order: the array
      indices ascending, then the other keys in order of creation. */
  function Orden(items: seq<Item>): seq<int> {
    var c := Creadas(items);
    OrdenarAsc(Elegir(c, EsIndice)) + Elegir(c, k => !EsIndice(k))
  }

  /** A strictly ascending list has no repeats. */
  lemma {:induction false} CrecienteDistintos(s: seq<int>)
    requires Creciente(s)
    ensures Distintos(s)
  {
  }

  /** The order visits every product exactly once; array-index keys come
      first and ascend; with only array-index ids (database ids below
      2^32 - 1) the whole order is ascending. */
  lemma {:induction false} OrdenCorrecto(items: seq<Item>)
    ensures Distintos(Orden(items))
    ensures forall k :: k in Orden(items) <==> k in Ids(items)
    ensures forall a, b :: 0 <= a < b < |Orden(items)| && EsIndice(Orden(items)[b]) ==>
              EsIndice(Orden(items)[a]) && Orden(items)[a] < Orden(items)[b]
    ensures (forall k :: k in Ids(items) ==> EsIndice(k)) ==> Creciente(Orden(items))
  {
    var c := Creadas(items);
    var i := OrdenarAsc(Elegir(c, EsIndice));
    var n := Elegir(c, k => !EsIndice(k));
    var o := i + n;
    assert o == Orden(items);
    CrecienteDistintos(i);
    forall a, b | 0 <= a < b < |o| ensures o[a] != o[b] {
      if b < |i| {
      } else if a >= |i| {
        assert o[a] == n[a - |i|] && o[b] == n[b - |i|];
      } else {
        assert o[a] in i && o[b] in n;
      }
    }
    forall b | |i| <= b < |o| ensures !EsIndice(o[b]) {
      assert o[b] == n[b - |i|];
    }
    forall a, b | 0 <= a < b < |i| ensures EsIndice(o[a]) && o[a] < o[b] {
      assert o[a] == i[a] && o[b] == i[b];
      assert o[a] in i;
    }
    if forall k :: k in Ids(items) ==> EsIndice(k) {
      assert forall j :: 0 <= j < |c| ==> c[j] in c;
      ElegirNinguno(c, k => !EsIndice(k));
      assert o == i;
    }
  }

  /** A list without repeats has as many elements as its set. */
  lemma {:induction false} DistintosCardinal(s: seq<int>)
    requires Distintos(s)
    ensures |set k | k in s| == |s|
  {
    if s != [] {
      var t := s[1..];
      assert Distintos(t);
      DistintosCardinal(t);
      assert (set k | k in s) == (set k | k in t) + {s[0]};
      assert s[0] !in t;
    }
  }

  // ----- totals ----------------------------------------------------------

  /** `rows.reduce((sum, v) => sum + f(v), 0)`. */
  function Suma(rows: seq<Item>, f: Item -> int): int
    decreases |rows|
  {
    if rows == [] then 0 else Suma(rows[..|rows| - 1], f) + f(rows[|rows| - 1])
  }

  function Stock(x: Item): int {
    x.stock
  }

  function Uno(x: Item): int {
    1
  }

  /** Σ over the keys `ks` of the per-product sums. */
  function SumaPorClave(ks: seq<int>, items: seq<Item>, f: Item -> int): int {
    if ks == [] then 0 else Suma(Filtrar(items, ks[0]), f) + SumaPorClave(ks[1..], items, f)
  }

  lemma {:induction false} SumaConcat(a: seq<Item>, b: seq<Item>, f: Item -> int)
    ensures Suma(a + b, f) == Suma(a, f) + Suma(b, f)
    decreases |b|
  {
    if b != [] {
      var b' := b[..|b| - 1];
      assert (a + b)[..|a + b| - 1] == a + b';
      assert (a + b)[|a + b| - 1] == b[|b| - 1];
      SumaConcat(a, b', f);
    } else {
      assert a + b == a;
    }
  }

  /** A row added at the end counts once, for its own product. */
  lemma {:induction false} SumaPorClaveAnadir(ks: seq<int>, p: seq<Item>, x: Item, f: Item -> int)
    requires Distintos(ks)
    ensures SumaPorClave(ks, p + [x], f) == SumaPorClave(ks, p, f) + (if x.productoId in ks then f(x) else 0)
  {
    if ks != [] {
      var q := p + [x];
      assert q[..|q| - 1] == p;
      var e := if q[|q| - 1].productoId == ks[0] then [q[|q| - 1]] else [];
      assert Filtrar(q, ks[0]) == Filtrar(p, ks[0]) + e;
      SumaConcat(Filtrar(p, ks[0]), e, f);
      assert Suma([x], f) == f(x) by {
        assert [x][..0] == [];
      }
      assert Distintos(ks[1..]);
      assert x.productoId == ks[0] ==> x.productoId !in ks[1..];
      SumaPorClaveAnadir(ks[1..], p, x, f);
    }
  }

  /** Summing per product, over keys that cover every product once, gives
      the sum over all rows. */
  lemma {:induction false} SumaPorGrupos(ks: seq<int>, items: seq<Item>, f: Item -> int)
    requires Distintos(ks)
    requires forall k :: k in Ids(items) ==> k in ks
    ensures SumaPorClave(ks, items, f) == Suma(items, f)
    decreases |items|
  {
    if items == [] {
      SumaPorClaveVacia(ks, f);
    } else {
      var p := items[..|items| - 1];
      var x := items[|items| - 1];
      assert items == p + [x];
      IdsAnadir(p, x);
      SumaPorGrupos(ks, p, f);
      SumaPorClaveAnadir(ks, p, x, f);
    }
  }

  lemma {:induction false} SumaPorClaveVacia(ks: seq<int>, f: Item -> int)
    ensures SumaPorClave(ks, [], f) == 0
  {
    if ks != [] {
      SumaPorClaveVacia(ks[1..], f);
    }
  }

  lemma {:induction false} SumaUno(rows: seq<Item>)
    ensures Suma(rows, Uno) == |rows|
    decreases |rows|
  {
    if rows != [] {
      SumaUno(rows[..|rows| - 1]);
    }
  }

  /** `inventario.reduce((sum, v) => sum + (v.stock * v.precio), 0)`. */
  function Valor(rows: seq<Item>): real
    decreases |rows|
  {
    if rows == [] then 0.0 else Valor(rows[..|rows| - 1]) + ValorDe(rows[|rows| - 1])
  }

  function ValorDe(x: Item): real {
    x.stock as real * x.precio
  }

  // ----- view ------------------------------------------------------------

  /** The Tailwind colour class of a stock figure. */
  datatype Color = Verde | Amarillo | Rojo

  /** A variant's colour: at least 10 green, at least 5 yellow, else red. */
  function ColorVariante(stock: int): (c: Color)
    ensures c == Verde <==> stock >= 10
    ensures c == Amarillo <==> 5 <= stock < 10
    ensures c == Rojo <==> stock < 5
  {
    if stock >= 10 then Verde else if stock >= 5 then Amarillo else Rojo
  }

  /** A product's colour: over 20 green, over 10 yellow, else red. */
  function ColorGrupo(total: int): (c: Color)
    ensures c == Verde <==> total > 20
    ensures c == Amarillo <==> 10 < total <= 20
    ensures c == Rojo <==> total <= 10
  {
    if total > 20 then Verde else if total > 10 then Amarillo else Rojo
  }

  /** The icon that goes with a variant's colour. */
  function IconoStock(c: Color): string {
    match c
    case Verde => "fa-check-circle"
    case Amarillo => "fa-exclamation-circle"
    case Rojo => "fa-times-circle"
  }

  /** One table row; `sombreada` is the background of even positions. */
  datatype FilaVista = FilaVista(talla: string, color: string, stock: int, clase: Color, icono: string,
                                 sombreada: bool, precio: real, varianteId: int)

  /** One product block; `enlace` is `variantes[0]?.producto_id`. */
  datatype GrupoVista = GrupoVista(nombre: string, imagen: string, numVariantes: nat, totalStock: int,
                                   clase: Color, enlace: Option<int>, filas: seq<FilaVista>)

  datatype Resumen = Resumen(totalProductos: nat, totalVariantes: nat, stockTotal: int, valorTotal: real)

  /** What the modal shows: the empty message, the product blocks and the
      summary, or the loading error. */
  datatype Vista = SinProductos | Inventario(grupos: seq<GrupoVista>, resumen: Resumen) | ErrorCarga

  function Fila(v: Item, index: nat): FilaVista {
    var c := ColorVariante(v.stock);
    FilaVista(v.talla, v.color, v.stock, c, IconoStock(c), index % 2 == 0, v.precio, v.varianteId)
  }

  function Filas(vs: seq<Item>): (r: seq<FilaVista>)
    ensures |r| == |vs|
    ensures forall j :: 0 <= j < |vs| ==> r[j] == Fila(vs[j], j)
  {
    seq(|vs|, j requires 0 <= j < |vs| => Fila(vs[j], j))
  }

  function VistaGrupo(g: Grupo): GrupoVista {
    var total := Suma(g.variantes, Stock);
    GrupoVista(g.nombre, g.imagen, |g.variantes|, total, ColorGrupo(total),
               if |g.variantes| > 0 then Some(g.variantes[0].productoId) else None, Filas(g.variantes))
  }

  function VistaGrupos(m: map<int, Grupo>, ks: seq<int>): (r: seq<GrupoVista>)
    requires forall j :: 0 <= j < |ks| ==> ks[j] in m
    ensures |r| == |ks|
    ensures forall j :: 0 <= j < |ks| ==> r[j] == VistaGrupo(m[ks[j]])
  {
    seq(|ks|, j requires 0 <= j < |ks| => VistaGrupo(m[ks[j]]))
  }

  /** The content showInventarioCompleto writes for a fetched inventory. */
  function VistaDe(items: seq<Item>): Vista {
    if items == [] then SinProductos
    else
      var m := Agrupar(items);
      var ks := Orden(items);
      ClavesEnMapa(items);
      Inventario(VistaGrupos(m, ks), Resumen(|ks|, |items|, Suma(items, Stock), Valor(items)))
  }

  /** Every key visited has its group. */
  lemma {:induction false} ClavesEnMapa(items: seq<Item>)
    ensures forall j :: 0 <= j < |Orden(items)| ==> Orden(items)[j] in Agrupar(items)
  {
    OrdenCorrecto(items);
    AgruparCorrecto(items);
    var ks := Orden(items);
    forall j | 0 <= j < |ks| ensures ks[j] in Agrupar(items) {
      assert ks[j] in ks;
    }
  }

  function SumaTotales(gs: seq<GrupoVista>): int {
    if gs == [] then 0 else gs[0].totalStock + SumaTotales(gs[1..])
  }

  function SumaVariantes(gs: seq<GrupoVista>): int {
    if gs == [] then 0 else gs[0].numVariantes + SumaVariantes(gs[1..])
  }

  lemma {:induction false} TotalesPorClave(items: seq<Item>, ks: seq<int>)
    requires forall j :: 0 <= j < |ks| ==> ks[j] in Agrupar(items)
    ensures SumaTotales(VistaGrupos(Agrupar(items), ks)) == SumaPorClave(ks, items, Stock)
    ensures SumaVariantes(VistaGrupos(Agrupar(items), ks)) == SumaPorClave(ks, items, Uno)
  {
    AgruparCorrecto(items);
    if ks != [] {
      var m := Agrupar(items);
      assert VistaGrupos(m, ks)[1..] == VistaGrupos(m, ks[1..]);
      SumaUno(Filtrar(items, ks[0]));
      TotalesPorClave(items, ks[1..]);
    }
  }

  /** The empty list shows only the empty message; a fetched list never
      shows the loading error. */
  lemma {:induction false} VistaVacia(items: seq<Item>)
    ensures items == [] <==> VistaDe(items) == SinProductos
    ensures VistaDe(items) != ErrorCarga
  {
  }

  /** One block per product, in key order, each with exactly that
      product's rows, its stock total and a link to its own id. */
  lemma {:induction false} VistaGrupos_Correctos(items: seq<Item>)
    requires items != []
    ensures var v := VistaDe(items);
            var ks := Orden(items);
            && |v.grupos| == |ks|
            && (forall j :: 0 <= j < |ks| ==>
                  && v.grupos[j].filas == Filas(Filtrar(items, ks[j]))
                  && v.grupos[j].totalStock == Suma(Filtrar(items, ks[j]), Stock)
                  && v.grupos[j].enlace == Some(ks[j]))
  {
    var m := Agrupar(items);
    var ks := Orden(items);
    ClavesEnMapa(items);
    AgruparCorrecto(items);
    var gs := VistaGrupos(m, ks);
    assert VistaDe(items).grupos == gs;
    forall j | 0 <= j < |ks| ensures gs[j].enlace == Some(ks[j]) {
      EnlaceGrupo(items, ks[j]);
    }
  }

  /** A product's first row carries its id. */
  lemma {:induction false} EnlaceGrupo(items: seq<Item>, k: int)
    requires k in Ids(items)
    ensures |Filtrar(items, k)| > 0 && Filtrar(items, k)[0].productoId == k
  {
    var i :| 0 <= i < |items| && items[i].productoId == k;
    FiltrarContiene(items, k, i);
    var vs := Filtrar(items, k);
    assert vs[0] in vs;
  }

  /** The summary counts the distinct products and every row, and the
      block totals add up to the summary's stock total and variant
      count. */
  lemma {:induction false} ResumenCorrecto(items: seq<Item>)
    requires items != []
    ensures var v := VistaDe(items);
            && v.resumen.totalProductos == |Ids(items)|
            && v.resumen.totalVariantes == |items|
            && SumaTotales(v.grupos) == v.resumen.stockTotal
            && SumaVariantes(v.grupos) == v.resumen.totalVariantes
  {
    var m := Agrupar(items);
    var ks := Orden(items);
    ClavesEnMapa(items);
    OrdenCorrecto(items);
    var v := VistaDe(items);
    assert v.grupos == VistaGrupos(m, ks);
    DistintosCardinal(ks);
    assert (set k | k in ks) == Ids(items);
    TotalesPorClave(items, ks);
    SumaPorGrupos(ks, items, Stock);
    SumaPorGrupos(ks, items, Uno);
    SumaUno(items);
  }

  /** A product's rows include each of its rows. */
  lemma {:induction false} FiltrarContiene(items: seq<Item>, k: int, i: nat)
    requires i < |items| && items[i].productoId == k
    ensures items[i] in Filtrar(items, k)
    decreases |items|
  {
    var p := items[..|items| - 1];
    if i < |p| {
      assert p[i] == items[i];
      FiltrarContiene(p, k, i);
    }
  }

  // ----- the script ------------------------------------------------------

  /** The forEach that fills `productosMap`. */
  method AgruparEn(items: seq<Item>) returns (productosMap: map<int, Grupo>)
    ensures productosMap == Agrupar(items)
  {
    productosMap := map[];
    var i := 0;
    while i < |items|
      invariant 0 <= i <= |items|
      invariant productosMap == Agrupar(items[..i])
    {
      var item := items[i];
      if item.productoId !in productosMap {
        productosMap := productosMap[item.productoId := Grupo(item.productoNombre, item.productoImagen, [])];
      }
      var g := productosMap[item.productoId];
      productosMap := productosMap[item.productoId := g.(variantes := g.variantes + [item])];
      assert items[..i + 1][..i] == items[..i];
      i := i + 1;
    }
    assert items[..i] == items;
  }

  /** One product block: the inner forEach appends one row per variant. */
  method RenderGrupo(producto: Grupo) returns (gv: GrupoVista)
    ensures gv == VistaGrupo(producto)
  {
    var totalStock := Suma(producto.variantes, Stock);
    var productoId := if |producto.variantes| > 0 then Some(producto.variantes[0].productoId) else None;
    var filas: seq<FilaVista> := [];
    var index := 0;
    while index < |producto.variantes|
      invariant 0 <= index <= |producto.variantes|
      invariant |filas| == index
      invariant forall j :: 0 <= j < index ==> filas[j] == Fila(producto.variantes[j], j)
    {
      var v := producto.variantes[index];
      var stockClass := ColorVariante(v.stock);
      filas := filas + [FilaVista(v.talla, v.color, v.stock, stockClass, IconoStock(stockClass),
                                  index % 2 == 0, v.precio, v.varianteId)];
      index := index + 1;
    }
    gv := GrupoVista(producto.nombre, producto.imagen, |producto.variantes|, totalStock,
                     ColorGrupo(totalStock), productoId, filas);
  }

  /** The blocks of the groups, in key order: the outer forEach. */
  method RenderGrupos(productosMap: map<int, Grupo>, claves: seq<int>) returns (grupos: seq<GrupoVista>)
    requires forall j :: 0 <= j < |claves| ==> claves[j] in productosMap
    ensures grupos == VistaGrupos(productosMap, claves)
  {
    grupos := [];
    var i := 0;
    while i < |claves|
      invariant 0 <= i <= |claves|
      invariant |grupos| == i
      invariant forall j :: 0 <= j < i ==> grupos[j] == VistaGrupo(productosMap[claves[j]])
    {
      var gv := RenderGrupo(productosMap[claves[i]]);
      grupos := grupos + [gv];
      i := i + 1;
    }
  }

  /** The content the script writes for a fetched inventory: the empty
      message, or the grouped blocks followed by the summary. */
  method Renderizar(inventario: seq<Item>) returns (contenido: Vista)
    ensures contenido == VistaDe(inventario)
  {
    if |inventario| == 0 {
      contenido := SinProductos;
    } else {
      var productosMap := AgruparEn(inventario);
      var claves := Orden(inventario);
      ClavesEnMapa(inventario);
      var grupos := RenderGrupos(productosMap, claves);
      contenido := Inventario(grupos, Resumen(|claves|, |inventario|, Suma(inventario, Stock), Valor(inventario)));
    }
  }

  /** The modal and its content. */
  class Modal {
    var visible: bool
    var contenido: Vista

    constructor()
      ensures !visible && contenido == SinProductos
    {
      visible := false;
      contenido := SinProductos;
    }

    /** showInventarioCompleto; `respuesta` is the parsed response, None
        where the fetch or the parse throws. */
    method ShowInventarioCompleto(respuesta: Option<seq<Item>>)
      modifies this
      ensures visible
      ensures contenido == if respuesta.None? then ErrorCarga else VistaDe(respuesta.value)
    {
      if respuesta.None? {
        contenido := ErrorCarga;
        visible := true;
        return;
      }
      contenido := Renderizar(respuesta.value);
      visible := true;
    }

    /** The close button. */
    method Cerrar()
      modifies this
      ensures !visible && contenido == old(contenido)
    {
      visible := false;
    }

    /** The keydown handler: Escape hides an open modal. */
    method TeclaPulsada(key: string)
      modifies this
      ensures visible == (old(visible) && key != "Escape")
      ensures contenido == old(contenido)
    {
      if key == "Escape" && visible {
        visible := false;
      }
    }
  }
}
