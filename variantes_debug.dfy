/**
  The size and colour lists of test_variantes_debug.py: the product's own
  value first when it is truthy, then each truthy variant value not yet
  listed, in the order the variants are iterated. A value is None or a
  string; None and the empty string are falsy.
*/
module VariantesDebug {
  import opened Wrappers

  /** A ProductoVariante as the loops read it. */
  datatype Variante = Variante(id: nat, talla: Option<string>, color: Option<string>, stock: int)

  predicate Verdadero(v: Option<string>) {
    v.Some? && v.value != ""
  }

  /** The truthy values, in order. */
  function Valores(vs: seq<Option<string>>): (r: seq<string>)
    ensures forall x :: x in r <==> exists i :: 0 <= i < |vs| && Verdadero(vs[i]) && vs[i].value == x
    decreases |vs|
  {
    if vs == [] then []
    else
      var p := vs[..|vs| - 1];
      var v := vs[|vs| - 1];
      var r := Valores(p) + (if Verdadero(v) then [v.value] else []);
      assert forall i :: 0 <= i < |p| ==> vs[i] == p[i];
      r
  }

  /** Each value the first time it occurs: an independent reference for
      the dedup, built from the end. */
  function Unicos(l: seq<string>): (r: seq<string>)
    ensures forall x :: x in r <==> x in l
    decreases |l|
  {
    if l == [] then []
    else
      var p := l[..|l| - 1];
      assert forall x :: x in l <==> x in p || x == l[|l| - 1];
      Unicos(p) + (if l[|l| - 1] in p then [] else [l[|l| - 1]])
  }

  /** The list the view builds from the product's value `base` and the
      variants' values `vs`. */
  function Disponibles(base: Option<string>, vs: seq<Option<string>>): seq<string> {
    Unicos((if Verdadero(base) then [base.value] else []) + Valores(vs))
  }

  predicate SinRepetidos(s: seq<string>) {
    forall a, b :: 0 <= a < b < |s| ==> s[a] != s[b]
  }

  /** The index where `x` first occurs in `l`. */
  function Primero(l: seq<string>, x: string): (i: nat)
    requires x in l
    ensures i < |l| && l[i] == x && forall j :: 0 <= j < i ==> l[j] != x
  {
    if l[0] == x then 0 else 1 + Primero(l[1..], x)
  }

  lemma {:induction false} PrimeroPrefijo(p: seq<string>, y: string, x: string)
    requires x in p
    ensures Primero(p + [y], x) == Primero(p, x)
  {
    var i := Primero(p, x);
    var q := p + [y];
    assert q[i] == x;
    var k := Primero(q, x);
    assert forall j :: 0 <= j < i ==> q[j] == p[j];
  }

  /** Unicos keeps no repeats and starts with the first value. */
  lemma {:induction false} UnicosSinRepetidos(l: seq<string>)
    ensures SinRepetidos(Unicos(l))
    ensures l != [] ==> Unicos(l) != [] && Unicos(l)[0] == l[0]
    decreases |l|
  {
    if l != [] {
      var p := l[..|l| - 1];
      UnicosSinRepetidos(p);
      if p != [] {
        assert Unicos(p)[0] == p[0] == l[0];
      }
    }
  }

  /** Unicos lists the values by their first occurrence. */
  lemma {:induction false} UnicosOrden(l: seq<string>)
    ensures forall a, b :: 0 <= a < b < |Unicos(l)| ==> Primero(l, Unicos(l)[a]) < Primero(l, Unicos(l)[b])
    decreases |l|
  {
    if l != [] {
      var p := l[..|l| - 1];
      var y := l[|l| - 1];
      assert l == p + [y];
      UnicosOrden(p);
      var u := Unicos(p);
      var r := Unicos(l);
      assert r == u + (if y in p then [] else [y]);
      forall a, b | 0 <= a < b < |r| ensures Primero(l, r[a]) < Primero(l, r[b]) {
        OrdenPaso(p, y, u, r, a, b);
      }
    }
  }

  /** One pair of the induction step of UnicosOrden. */
  lemma {:induction false} OrdenPaso(p: seq<string>, y: string, u: seq<string>, r: seq<string>, a: nat, b: nat)
    requires u == Unicos(p) && r == u + (if y in p then [] else [y])
    requires forall a, b :: 0 <= a < b < |u| ==> Primero(p, u[a]) < Primero(p, u[b])
    requires a < b < |r|
    ensures r[a] in p + [y] && r[b] in p + [y]
    ensures Primero(p + [y], r[a]) < Primero(p + [y], r[b])
  {
    assert r[a] == u[a] && u[a] in p;
    PrimeroPrefijo(p, y, r[a]);
    if b < |u| {
      assert r[b] == u[b] && u[b] in p;
      PrimeroPrefijo(p, y, r[b]);
    } else {
      var q := p + [y];
      assert r[b] == y && y !in p;
      assert q[|p|] == y;
      assert forall j :: 0 <= j < |p| ==> q[j] == p[j];
      assert Primero(q, y) == |p|;
    }
  }

  /** The product's value comes first when truthy; nothing falsy is ever
      listed; every truthy value is listed exactly once, in order of first
      occurrence. */
  lemma {:induction false} DisponiblesCorrecto(base: Option<string>, vs: seq<Option<string>>)
    ensures var r := Disponibles(base, vs);
            && (Verdadero(base) ==> r != [] && r[0] == base.value)
            && "" !in r
            && SinRepetidos(r)
            && (forall a, b :: 0 <= a < b < |r| ==>
                  Primero((if Verdadero(base) then [base.value] else []) + Valores(vs), r[a])
                    < Primero((if Verdadero(base) then [base.value] else []) + Valores(vs), r[b]))
            && (forall i :: 0 <= i < |vs| && Verdadero(vs[i]) ==> vs[i].value in r)
            && (forall x :: x in r ==> (Verdadero(base) && x == base.value)
                                       || exists i :: 0 <= i < |vs| && Verdadero(vs[i]) && vs[i].value == x)
  {
    var l := (if Verdadero(base) then [base.value] else []) + Valores(vs);
    UnicosSinRepetidos(l);
    UnicosOrden(l);
    forall i | 0 <= i < |vs| && Verdadero(vs[i]) ensures vs[i].value in Disponibles(base, vs) {
      assert vs[i].value in Valores(vs);
    }
    if Verdadero(base) {
      assert l[0] == base.value;
    }
  }

  /** The values the view collects for one field of the variants. */
  function Tallas(vs: seq<Variante>): (r: seq<Option<string>>)
    ensures |r| == |vs| && forall i :: 0 <= i < |vs| ==> r[i] == vs[i].talla
  {
    seq(|vs|, i requires 0 <= i < |vs| => vs[i].talla)
  }

  function Colores(vs: seq<Variante>): (r: seq<Option<string>>)
    ensures |r| == |vs| && forall i :: 0 <= i < |vs| ==> r[i] == vs[i].color
  {
    seq(|vs|, i requires 0 <= i < |vs| => vs[i].color)
  }

  /** One turn of either loop keeps the list equal to the reference over
      the values seen so far. */
  lemma {:induction false} PasoLista(base: Option<string>, vs: seq<Option<string>>, i: nat)
    requires i < |vs|
    ensures Disponibles(base, vs[..i + 1])
              == if Verdadero(vs[i]) && vs[i].value !in Disponibles(base, vs[..i])
                 then Disponibles(base, vs[..i]) + [vs[i].value]
                 else Disponibles(base, vs[..i])
  {
    var b := if Verdadero(base) then [base.value] else [];
    var q := vs[..i + 1];
    assert q[..|q| - 1] == vs[..i];
    assert q[|q| - 1] == vs[i];
    var l := b + Valores(vs[..i + 1]);
    var p := b + Valores(vs[..i]);
    if Verdadero(vs[i]) {
      assert l == p + [vs[i].value];
      assert l[..|l| - 1] == p;
    } else {
      assert l == p;
    }
  }

  /** The `tallas_disponibles` loop. */
  method TallasDisponibles(baseTalla: Option<string>, variantes: seq<Variante>) returns (tallas: seq<string>)
    ensures tallas == Disponibles(baseTalla, Tallas(variantes))
  {
    tallas := Recolectar(baseTalla, Tallas(variantes));
  }

  /** The `colores_disponibles` loop. */
  method ColoresDisponibles(baseColor: Option<string>, variantes: seq<Variante>) returns (colores: seq<string>)
    ensures colores == Disponibles(baseColor, Colores(variantes))
  {
    colores := Recolectar(baseColor, Colores(variantes));
  }

  /** The loop both lists share: the base when truthy, then each truthy
      value not yet in the list. */
  method Recolectar(base: Option<string>, vs: seq<Option<string>>) returns (lista: seq<string>)
    ensures lista == Disponibles(base, vs)
  {
    lista := [];
    if Verdadero(base) {
      lista := lista + [base.value];
    }
    assert lista == Disponibles(base, vs[..0]) by {
      assert vs[..0] == [];
      var l := if Verdadero(base) then [base.value] else [];
      assert Valores([]) == [];
      assert l + [] == l;
      if Verdadero(base) {
        assert l[..0] == [];
        assert Unicos(l) == Unicos([]) + [base.value];
      }
    }
    var i := 0;
    while i < |vs|
      invariant 0 <= i <= |vs|
      invariant lista == Disponibles(base, vs[..i])
    {
      var v := vs[i];
      PasoLista(base, vs, i);
      if Verdadero(v) && v.value !in lista {
        lista := lista + [v.value];
      }
      i := i + 1;
    }
    assert vs[..i] == vs;
  }
}
