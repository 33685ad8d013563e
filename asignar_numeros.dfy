/**
  The data migration carrito/migrations/0015_asignar_numeros_unicos_pedidos.py:
  every existing order, in iteration order, gets the number
  "PED-" + its date as %Y%m%d + "-" + its 1-based position zero-filled to
  four digits. An order without a date uses the current date, read
  afresh at each step.
*/
module AsignarNumeros {
  import opened Wrappers
  import opened Text

  /** A calendar date as strftime reads it. */
  datatype Fecha = Fecha(anio: nat, mes: nat, dia: nat)

  /** An order as the migration sees it; `fecha` is None when the
      historical model has no such field or it is null. */
  datatype Pedido = Pedido(id: nat, fecha: Option<Fecha>, numero: Option<string>)

  /** Two digits, as %m and %d write them. */
  function DosDigitos(n: nat): string {
    ZFill(NatToString(n), 2)
  }

  /** `strftime('%Y%m%d')`; glibc writes %Y without padding. */
  function FechaTexto(f: Fecha): string {
    NatToString(f.anio) + DosDigitos(f.mes) + DosDigitos(f.dia)
  }

  /** `str(index).zfill(4)`. */
  function Contador(index: nat): string {
    ZFill(NatToString(index), 4)
  }

  /** The number given to the order at 1-based position `index`. */
  function Numero(f: Fecha, index: nat): string {
    "PED-" + FechaTexto(f) + "-" + Contador(index)
  }

  /** The date used: the order's own, or the clock's at that step. */
  function FechaBase(p: Pedido, ahora: Fecha): Fecha {
    if p.fecha.Some? then p.fecha.value else ahora
  }

  // ----- format ----------------------------------------------------------

  /** The text after the last `c` (all of it when there is none). */
  function TrasUltimo(s: string, c: char): (r: string)
    ensures c !in r
    decreases |s|
  {
    if s == [] then []
    else if s[|s| - 1] == c then []
    else TrasUltimo(s[..|s| - 1], c) + [s[|s| - 1]]
  }

  lemma {:induction false} TrasUltimoSufijo(a: string, c: char, t: string)
    requires c !in t
    ensures TrasUltimo(a + [c] + t, c) == t
    decreases |t|
  {
    var s := a + [c] + t;
    if t == [] {
      assert s[|s| - 1] == c;
    } else {
      var t' := t[..|t| - 1];
      assert s[..|s| - 1] == a + [c] + t';
      assert s[|s| - 1] == t[|t| - 1];
      assert c !in t' by {
        assert forall x :: x in t' ==> x in t;
      }
      TrasUltimoSufijo(a, c, t');
    }
  }

  /** The counter has at least four digits, ends with the position's
      digits (nothing is cut off), is padded with zeros, and reads back as
      the position. */
  lemma {:induction false} ContadorCorrecto(index: nat)
    ensures var c := Contador(index);
            && |c| >= 4
            && c[|c| - |NatToString(index)|..] == NatToString(index)
            && (forall i :: 0 <= i < |c| - |NatToString(index)| ==> c[i] == '0')
            && (forall i :: 0 <= i < |c| ==> IsAsciiDigit(c[i]))
            && DigitsValue(c) == index
  {
    ZFillNatToString(index, 4);
  }

  /** The pieces of a concatenation of three strings. */
  lemma {:induction false} Trozos(a: string, b: string, c: string)
    ensures var t := a + b + c;
            && t[..|a|] == a && t[|a|..|a| + |b|] == b && t[|a| + |b|..] == c
  {
  }

  /** The pieces of `pre + fecha + "-" + c` for a counter without '-'. */
  lemma {:induction false} PartesNumero(pre: string, fecha: string, c: string)
    requires '-' !in c
    ensures var n := pre + fecha + "-" + c;
            && n[..|pre|] == pre
            && n[|pre|..|pre| + |fecha|] == fecha
            && n[|pre| + |fecha|] == '-'
            && n[|pre| + |fecha| + 1..] == c
            && TrasUltimo(n, '-') == c
  {
    var n := pre + fecha + "-" + c;
    assert n == (pre + fecha) + ['-'] + c;
    TrasUltimoSufijo(pre + fecha, '-', c);
  }

  /** A counter holds digits only. */
  lemma {:induction false} ContadorSinGuion(index: nat)
    ensures '-' !in Contador(index)
  {
    var c := Contador(index);
    ZFillNatToString(index, 4);
    forall x | x in c ensures x != '-' {
      var i :| 0 <= i < |c| && c[i] == x;
    }
  }

  /** A number splits into its prefix, its date and its counter: the text
      after its last '-' is the counter. */
  lemma {:induction false} NumeroFormato(f: Fecha, index: nat)
    ensures var n := Numero(f, index);
            && n[..4] == "PED-"
            && n[4..4 + |FechaTexto(f)|] == FechaTexto(f)
            && n[4 + |FechaTexto(f)|] == '-'
            && n[5 + |FechaTexto(f)|..] == Contador(index)
            && TrasUltimo(n, '-') == Contador(index)
  {
    ContadorSinGuion(index);
    PartesNumero("PED-", FechaTexto(f), Contador(index));
  }

  /** Orders at different positions get different numbers, whatever
      their dates. */
  lemma {:induction false} NumerosDistintos(f: Fecha, g: Fecha, a: nat, b: nat)
    requires a != b
    ensures Numero(f, a) != Numero(g, b)
  {
    ContadorSinGuion(a);
    ContadorSinGuion(b);
    PartesNumero("PED-", FechaTexto(f), Contador(a));
    PartesNumero("PED-", FechaTexto(g), Contador(b));
    ZFillNatToString(a, 4);
    ZFillNatToString(b, 4);
  }

  /** Four digits for the years 1000-9999. */
  lemma {:induction false} AnioCuatroDigitos(anio: nat)
    requires 1000 <= anio <= 9999
    ensures |NatToString(anio)| == 4
  {
    assert NatToString(anio / 100) == NatToString(anio / 100 / 10) + [DigitChar(anio / 100 % 10)];
    assert NatToString(anio / 10) == NatToString(anio / 10 / 10) + [DigitChar(anio / 10 % 10)];
  }

  /** %m and %d of a value below 100: two digits that read back as it. */
  lemma {:induction false} DosDigitosCorrecto(n: nat)
    requires n <= 99
    ensures |DosDigitos(n)| == 2
    ensures forall i :: 0 <= i < 2 ==> IsAsciiDigit(DosDigitos(n)[i])
    ensures DigitsValue(DosDigitos(n)) == n
  {
    var s := NatToString(n);
    if n >= 10 {
      assert s == NatToString(n / 10) + [DigitChar(n % 10)];
    }
    assert |s| <= 2;
    ZFillNatToString(n, 2);
  }

  /** A real date of the years 1000-9999 is written as exactly eight
      digits that read back as year, month and day. */
  lemma {:induction false} FechaOchoDigitos(f: Fecha)
    requires 1000 <= f.anio <= 9999 && 1 <= f.mes <= 12 && 1 <= f.dia <= 31
    ensures var t := FechaTexto(f);
            && |t| == 8
            && (forall i :: 0 <= i < 8 ==> IsAsciiDigit(t[i]))
            && DigitsValue(t[..4]) == f.anio
            && DigitsValue(t[4..6]) == f.mes
            && DigitsValue(t[6..]) == f.dia
  {
    var y := NatToString(f.anio);
    var m := DosDigitos(f.mes);
    var d := DosDigitos(f.dia);
    var t := FechaTexto(f);
    assert t == y + m + d;
    AnioCuatroDigitos(f.anio);
    DigitsValueOfNatToString(f.anio);
    DosDigitosCorrecto(f.mes);
    DosDigitosCorrecto(f.dia);
    Trozos(y, m, d);
    assert t[..4] == y && t[4..6] == m && t[6..] == d;
    forall i | 0 <= i < 8 ensures IsAsciiDigit(t[i]) {
      if i < 4 {
        assert t[i] == y[i];
      } else if i < 6 {
        assert t[i] == m[i - 4];
      } else {
        assert t[i] == d[i - 6];
      }
    }
  }

  // ----- the migration ---------------------------------------------------

  /** The orders after the migration; `reloj(i)` is datetime.now() when
      the order at position i is reached. */
  function Numerados(ps: seq<Pedido>, reloj: nat -> Fecha): (r: seq<Pedido>)
    ensures |r| == |ps|
    ensures forall i :: 0 <= i < |ps| ==> r[i] == Numerado(ps[i], reloj, i)
  {
    seq(|ps|, i requires 0 <= i < |ps| => Numerado(ps[i], reloj, i))
  }

  /** The order at 0-based position i after its turn of the loop. */
  function Numerado(p: Pedido, reloj: nat -> Fecha, i: nat): Pedido {
    p.(numero := Some(Numero(FechaBase(p, reloj(i)), i + 1)))
  }

  /** Only `numero` changes, and every order gets one. */
  lemma {:induction false} NumeradosConservan(ps: seq<Pedido>, reloj: nat -> Fecha)
    ensures var r := Numerados(ps, reloj);
            forall i :: 0 <= i < |r| ==> r[i].id == ps[i].id && r[i].fecha == ps[i].fecha && r[i].numero.Some?
  {
  }

  /** An order with a date is numbered from it; one without from the
      clock at its own step. */
  lemma {:induction false} NumeradosFecha(ps: seq<Pedido>, reloj: nat -> Fecha)
    ensures var r := Numerados(ps, reloj);
            && (forall i :: 0 <= i < |r| && ps[i].fecha.Some? ==> r[i].numero == Some(Numero(ps[i].fecha.value, i + 1)))
            && (forall i :: 0 <= i < |r| && ps[i].fecha.None? ==> r[i].numero == Some(Numero(reloj(i), i + 1)))
  {
  }

  /** The counter of the order at 0-based position i is i + 1. */
  lemma {:induction false} NumeradosContador(ps: seq<Pedido>, reloj: nat -> Fecha)
    ensures var r := Numerados(ps, reloj);
            forall i :: 0 <= i < |r| ==> r[i].numero.Some? && TrasUltimo(r[i].numero.value, '-') == Contador(i + 1)
  {
    var r := Numerados(ps, reloj);
    forall i | 0 <= i < |r| ensures r[i].numero.Some? && TrasUltimo(r[i].numero.value, '-') == Contador(i + 1) {
      var f := FechaBase(ps[i], reloj(i));
      assert r[i].numero == Some(Numero(f, i + 1));
      NumeroFormato(f, i + 1);
    }
  }

  /** No two orders get the same number. */
  lemma {:induction false} NumeradosUnicos(ps: seq<Pedido>, reloj: nat -> Fecha)
    ensures var r := Numerados(ps, reloj);
            forall i, j :: 0 <= i < j < |r| ==> r[i].numero != r[j].numero
  {
    var r := Numerados(ps, reloj);
    forall i, j | 0 <= i < j < |r| ensures r[i].numero != r[j].numero {
      var f := FechaBase(ps[i], reloj(i));
      var g := FechaBase(ps[j], reloj(j));
      assert r[i].numero == Some(Numero(f, i + 1));
      assert r[j].numero == Some(Numero(g, j + 1));
      NumerosDistintos(f, g, i + 1, j + 1);
    }
  }

  /** The Pedido table. */
  class TablaPedidos {
    var pedidos: seq<Pedido>

    constructor(pedidos: seq<Pedido>)
      ensures this.pedidos == pedidos
    {
      this.pedidos := pedidos;
    }

    /** asignar_numeros_unicos: the enumerate loop, saving `numero` of
        each order. */
    method AsignarNumerosUnicos(reloj: nat -> Fecha)
      modifies this
      ensures pedidos == Numerados(old(pedidos), reloj)
    {
      ghost var antes := pedidos;
      var index := 1;
      while index <= |pedidos|
        invariant 1 <= index <= |antes| + 1
        invariant |pedidos| == |antes|
        invariant forall i :: 0 <= i < index - 1 ==> pedidos[i] == Numerado(antes[i], reloj, i)
        invariant forall i :: index - 1 <= i < |antes| ==> pedidos[i] == antes[i]
      {
        var pedido := pedidos[index - 1];
        var fechaBase := if pedido.fecha.Some? then pedido.fecha.value else reloj(index - 1);
        var numero := Numero(fechaBase, index);
        ghost var nuevo := pedido.(numero := Some(numero));
        assert nuevo == Numerado(antes[index - 1], reloj, index - 1);
        pedidos := pedidos[index - 1 := pedido.(numero := Some(numero))];
        index := index + 1;
      }
      assert pedidos == Numerados(antes, reloj);
    }
  }
}
