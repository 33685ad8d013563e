/**
  The merge-conflict resolver of resolver_conflictos.py: every block
  "<<<<<<< HEAD\n" g1 "\n=======\n" g2 "\n>>>>>>> ms-david" is replaced,
  markers included, by one of its two stripped sides. Blocks are found as
  re.sub finds them: leftmost first, each group as short as possible, the
  search resuming after the block.
*/
module ResolverConflictos {
  import opened Wrappers
  import opened Text

  const Cabecera: string := "<<<<<<< HEAD\n"
  const Separador: string := "\n=======\n"
  const Final: string := "\n>>>>>>> ms-david"

  /** A match of the pattern: the index just past it and its two groups. */
  datatype Bloque = Bloque(fin: nat, cabeza: string, david: string)

  /** The match of the pattern starting at index p of t, if any. With
      DOTALL each group is any text; being non-greedy, the first group ends
      at the first separator and the second at the first end marker after
      it (a later separator could only leave fewer end markers after it,
      so backtracking finds nothing more). */
  function Coincide(t: string, p: nat): (r: Option<Bloque>)
    ensures r.Some? ==> p + |Cabecera| + |Separador| + |Final| <= r.value.fin <= |t|
  {
    if !OccursAt(t, Cabecera, p) then None
    else
      var s1 := FindFrom(t, Separador, p + |Cabecera|);
      if s1 == -1 then None
      else
        var e1 := FindFrom(t, Final, s1 + |Separador|);
        if e1 == -1 then None
        else Some(Bloque(e1 + |Final|, t[p + |Cabecera|..s1], t[s1 + |Separador|..e1]))
  }

  /** The full text of a block with groups g1 and g2. */
  function Texto(g1: string, g2: string): string {
    Cabecera + g1 + Separador + g2 + Final
  }

  /** The pieces of a concatenation of five strings. */
  lemma {:induction false} PartesCinco(x: string, a: string, b: string, c: string, d: string, e: string)
    requires x == a + b + c + d + e
    ensures x[..|a|] == a
    ensures x[|a|..|a| + |b|] == b
    ensures x[|a| + |b|..|a| + |b| + |c|] == c
    ensures x[|a| + |b| + |c|..|a| + |b| + |c| + |d|] == d
    ensures x[|a| + |b| + |c| + |d|..] == e
  {
  }

  /** A slice of a slice. */
  lemma {:induction false} Tramo(t: string, p: nat, n: nat, i: nat, j: nat)
    requires p + n <= |t| && i <= j <= n
    ensures t[p..p + n][i..j] == t[p + i..p + j]
  {
    var u := t[p..p + n][i..j];
    var v := t[p + i..p + j];
    assert forall k :: 0 <= k < |u| ==> u[k] == v[k];
  }

  /** Five adjacent slices make one. */
  lemma {:induction false} Pegar(t: string, i0: nat, i1: nat, i2: nat, i3: nat, i4: nat, i5: nat)
    requires i0 <= i1 <= i2 <= i3 <= i4 <= i5 <= |t|
    ensures t[i0..i5] == t[i0..i1] + t[i1..i2] + t[i2..i3] + t[i3..i4] + t[i4..i5]
  {
    Juntar(t, i0, i1, i2);
    Juntar(t, i0, i2, i3);
    Juntar(t, i0, i3, i4);
    Juntar(t, i0, i4, i5);
  }

  /** Two adjacent slices make one. */
  lemma {:induction false} Juntar(t: string, i: nat, j: nat, k: nat)
    requires i <= j <= k <= |t|
    ensures t[i..k] == t[i..j] + t[j..k]
  {
    var u := t[i..j] + t[j..k];
    assert forall m :: 0 <= m < |u| ==> u[m] == t[i + m];
  }

  /** Where the pieces of a block occurring at p sit. */
  lemma {:induction false} TextoPartes(t: string, p: nat, g1: string, g2: string)
    requires OccursAt(t, Texto(g1, g2), p)
    ensures OccursAt(t, Cabecera, p)
    ensures t[p + |Cabecera|..p + |Cabecera| + |g1|] == g1
    ensures OccursAt(t, Separador, p + |Cabecera| + |g1|)
    ensures t[p + |Cabecera| + |g1| + |Separador|..p + |Cabecera| + |g1| + |Separador| + |g2|] == g2
    ensures OccursAt(t, Final, p + |Cabecera| + |g1| + |Separador| + |g2|)
  {
    var x := Texto(g1, g2);
    var a := |Cabecera|;
    var b := a + |g1|;
    var c := b + |Separador|;
    var d := c + |g2|;
    var n := d + |Final|;
    assert |x| == n;
    PartesCinco(x, Cabecera, g1, Separador, g2, Final);
    var w := t[p..p + n];
    assert w == x;
    Tramo(t, p, n, 0, a);
    assert t[p..p + a] == Cabecera;
    Tramo(t, p, n, a, b);
    assert t[p + a..p + b] == g1;
    Tramo(t, p, n, b, c);
    assert t[p + b..p + c] == Separador;
    Tramo(t, p, n, c, d);
    assert t[p + c..p + d] == g2;
    Tramo(t, p, n, d, n);
    assert x[d..] == x[d..n];
    assert t[p + d..p + n] == Final;
  }

  /** Markers and groups at adjacent positions make a block. */
  lemma {:induction false} Ensamblar(t: string, p: nat, s1: nat, e1: nat)
    requires OccursAt(t, Cabecera, p) && OccursAt(t, Separador, s1) && OccursAt(t, Final, e1)
    requires p + |Cabecera| <= s1 && s1 + |Separador| <= e1
    ensures var g1 := t[p + |Cabecera|..s1];
            var g2 := t[s1 + |Separador|..e1];
            e1 + |Final| == p + |Texto(g1, g2)| && OccursAt(t, Texto(g1, g2), p)
  {
    var a := p + |Cabecera|;
    var f := e1 + |Final|;
    Pegar(t, p, a, s1, s1 + |Separador|, e1, f);
  }

  /** A match found at p is a block occurring at p, and neither group
      holds an earlier separator or end marker. */
  lemma {:induction false} CoincideForma(t: string, p: nat)
    requires Coincide(t, p).Some?
    ensures var b := Coincide(t, p).value;
            && b.fin == p + |Texto(b.cabeza, b.david)|
            && OccursAt(t, Texto(b.cabeza, b.david), p)
            && (forall k :: p + |Cabecera| <= k < p + |Cabecera| + |b.cabeza| ==> !OccursAt(t, Separador, k))
            && (forall k :: p + |Cabecera| + |b.cabeza| + |Separador| <= k < b.fin - |Final| ==> !OccursAt(t, Final, k))
  {
    var s1 := FindFrom(t, Separador, p + |Cabecera|);
    var e1 := FindFrom(t, Final, s1 + |Separador|);
    Ensamblar(t, p, s1, e1);
  }

  /** Any block occurring at p is found, and the one found is no longer:
      its first group and its whole text are at most those of the given
      one. */
  lemma {:induction false} CoincideCompleta(t: string, p: nat, g1: string, g2: string)
    requires OccursAt(t, Texto(g1, g2), p)
    ensures Coincide(t, p).Some?
    ensures |Coincide(t, p).value.cabeza| <= |g1|
    ensures Coincide(t, p).value.fin <= p + |Texto(g1, g2)|
  {
    TextoPartes(t, p, g1, g2);
    var s1 := FindFrom(t, Separador, p + |Cabecera|);
    assert s1 != -1 && s1 <= p + |Cabecera| + |g1|;
    var e1 := FindFrom(t, Final, s1 + |Separador|);
    assert e1 != -1 && e1 <= p + |Cabecera| + |g1| + |Separador| + |g2|;
  }

  /** Whether `s` contains `w` once lowered. */
  predicate Menciona(s: string, w: string) {
    Contains(Lower(s), w)
  }

  /** The first rule: only ms-david's side mentions 'carousel'. */
  predicate ReglaCarrusel(h: string, d: string) {
    Menciona(d, "carousel") && !Menciona(h, "carousel")
  }

  /** The second rule: only HEAD's side mentions 'favorito'. */
  predicate ReglaFavorito(h: string, d: string) {
    Menciona(h, "favorito") && !Menciona(d, "favorito")
  }

  /** combinar: ms-david's side under the first rule, otherwise HEAD's
      under the second, otherwise ms-david's. Both sides are stripped
      first. */
  function Combinar(cabeza: string, david: string): (r: string)
    ensures r == PyStrip(cabeza) || r == PyStrip(david)
  {
    var h := PyStrip(cabeza);
    var d := PyStrip(david);
    if ReglaCarrusel(h, d) then d
    else if ReglaFavorito(h, d) then h
    else d
  }

  /** The rules in order, and when HEAD's side wins: exactly when the
      first rule does not apply and the second does. */
  lemma {:induction false} CombinarReglas(cabeza: string, david: string)
    ensures var h := PyStrip(cabeza);
            var d := PyStrip(david);
            && (ReglaCarrusel(h, d) ==> Combinar(cabeza, david) == d)
            && (!ReglaCarrusel(h, d) && ReglaFavorito(h, d) ==> Combinar(cabeza, david) == h)
            && (!ReglaCarrusel(h, d) && !ReglaFavorito(h, d) ==> Combinar(cabeza, david) == d)
            && (h != d ==> (Combinar(cabeza, david) == h <==> !ReglaCarrusel(h, d) && ReglaFavorito(h, d)))
  {
  }

  /** The leftmost index at or after `desde` where a block starts: where
      re.sub's search stops. */
  function Buscar(t: string, desde: nat): (r: Option<nat>)
    requires desde <= |t|
    ensures r.Some? ==> desde <= r.value < |t| && Coincide(t, r.value).Some?
    ensures r.Some? ==> forall k :: desde <= k < r.value ==> Coincide(t, k).None?
    ensures r.None? ==> forall k :: desde <= k < |t| ==> Coincide(t, k).None?
    decreases |t| - desde
  {
    if desde == |t| then None
    else if Coincide(t, desde).Some? then Some(desde)
    else Buscar(t, desde + 1)
  }

  /** re.sub from index `desde` on: the text up to the leftmost block is
      copied, the block is replaced by combinar's choice, and the search
      goes on right after the block. */
  function ResolverDesde(t: string, desde: nat): string
    requires desde <= |t|
    decreases |t| - desde
  {
    match Buscar(t, desde)
    case None => t[desde..]
    case Some(p) =>
      var b := Coincide(t, p).value;
      t[desde..p] + Combinar(b.cabeza, b.david) + ResolverDesde(t, b.fin)
  }

  /** re.sub(patron, combinar, contenido, flags=re.DOTALL). */
  function Resolver(t: string): string {
    ResolverDesde(t, 0)
  }

  /** No block starts anywhere in `t`. */
  predicate SinBloques(t: string) {
    forall k :: 0 <= k < |t| ==> Coincide(t, k).None?
  }

  /** A text without blocks is returned unchanged. */
  lemma {:induction false} SinBloquesIgual(t: string)
    requires SinBloques(t)
    ensures Resolver(t) == t
  {
    assert Buscar(t, 0).None?;
    assert t[0..] == t;
  }

  /** Without "<<<<<<< HEAD\n" there is no block. */
  lemma {:induction false} SinCabeceraSinBloques(t: string)
    requires !Contains(t, Cabecera)
    ensures SinBloques(t)
  {
    forall k | 0 <= k < |t| ensures Coincide(t, k).None? {
      if OccursAt(t, Cabecera, k) {
        ContainsAt(t, Cabecera, k);
      }
    }
  }

  /** Everything from `desde` up to the leftmost block is kept; the block
      becomes combinar's choice; the search resumes right after it. */
  lemma {:induction false} PrimerBloque(t: string, desde: nat, p: nat)
    requires desde <= p < |t|
    requires forall k :: desde <= k < p ==> Coincide(t, k).None?
    requires Coincide(t, p).Some?
    ensures var b := Coincide(t, p).value;
            ResolverDesde(t, desde) == t[desde..p] + Combinar(b.cabeza, b.david) + ResolverDesde(t, b.fin)
  {
    assert Buscar(t, desde) == Some(p);
  }

  /** The check in main that skips a file without '<<<<<<< HEAD'. */
  function Procesar(contenido: string): string {
    if !Contains(contenido, "<<<<<<< HEAD") then contenido else Resolver(contenido)
  }

  /** Skipping changes nothing: main writes what resolver_conflicto returns
      for every file. */
  lemma {:induction false} ProcesarResuelve(contenido: string)
    ensures Procesar(contenido) == Resolver(contenido)
  {
    if !Contains(contenido, "<<<<<<< HEAD") {
      if Contains(contenido, Cabecera) {
        var k := ContainsWitness(contenido, Cabecera);
        assert contenido[k..k + 12] == Cabecera[..12];
        ContainsAt(contenido, "<<<<<<< HEAD", k);
      }
      SinCabeceraSinBloques(contenido);
      SinBloquesIgual(contenido);
    }
  }
}
