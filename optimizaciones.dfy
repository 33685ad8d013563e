/**
  Three helpers of core/static/js/optimizaciones.js: getCookie, which
  scans `document.cookie`; fetchWithCache, which memoises fetched JSON in
  a Map; and VirtualScroll.render, which renders only the rows in view.
  decodeURIComponent, JSON.stringify and the fetch itself are parameters.
*/
module Optimizaciones {
  import opened Wrappers
  import opened Text
  import opened Json

  // ----- getCookie ---------------------------------------------------------

  /** String.prototype.substring(start, end): both ends clamped to the
      string, and swapped when start is past end. */
  function Substring(s: string, inicio: int, fin: int): (r: string)
    ensures |r| <= |s|
  {
    var a := if inicio < 0 then 0 else if inicio > |s| then |s| else inicio;
    var b := if fin < 0 then 0 else if fin > |s| then |s| else fin;
    if a <= b then s[a..b] else s[b..a]
  }

  /** The test of getCookie's loop on one trimmed cookie is the prefix
      test. */
  lemma {:induction false} SubstringPrefijo(c: string, name: string)
    ensures Substring(c, 0, |name| + 1) == name + "=" <==> StartsWith(c, name + "=")
  {
  }

  /** The cookies of `document.cookie`, each trimmed. */
  function Recortadas(cookies: seq<string>): (r: seq<string>)
    ensures |r| == |cookies|
    ensures forall i :: 0 <= i < |cookies| ==> r[i] == JsTrim(cookies[i])
  {
    if cookies == [] then [] else [JsTrim(cookies[0])] + Recortadas(cookies[1..])
  }

  /** The first of cookies[desde..] that starts with `prefijo`. */
  function PrimeraCookie(cookies: seq<string>, prefijo: string, desde: nat): (r: Option<nat>)
    requires desde <= |cookies|
    ensures r.Some? ==> desde <= r.value < |cookies| && StartsWith(cookies[r.value], prefijo)
    ensures r.Some? ==> forall j :: desde <= j < r.value ==> !StartsWith(cookies[j], prefijo)
    ensures r.None? ==> forall j :: desde <= j < |cookies| ==> !StartsWith(cookies[j], prefijo)
    decreases |cookies| - desde
  {
    if desde == |cookies| then None
    else if StartsWith(cookies[desde], prefijo) then Some(desde)
    else PrimeraCookie(cookies, prefijo, desde + 1)
  }

  /** The first match is the one with no match before it. */
  lemma {:induction false} PrimeraCookieEs(cookies: seq<string>, prefijo: string, desde: nat, i: nat)
    requires desde <= i < |cookies| && StartsWith(cookies[i], prefijo)
    requires forall j :: desde <= j < i ==> !StartsWith(cookies[j], prefijo)
    ensures PrimeraCookie(cookies, prefijo, desde) == Some(i)
    decreases i - desde
  {
    if desde < i {
      PrimeraCookieEs(cookies, prefijo, desde + 1, i);
    }
  }

  /** decodeURIComponent throws on a malformed escape. */
  datatype ErrorUri = URIError

  /** What getCookie answers for the cookie it stopped at, if any. */
  function Valor(recortadas: seq<string>, name: string, decode: string -> Option<string>, p: Option<nat>)
    : Result<Option<string>, ErrorUri>
    requires p.Some? ==> p.value < |recortadas| && |name| + 1 <= |recortadas[p.value]|
  {
    match p
    case None => Ok(None)
    case Some(i) =>
      match decode(recortadas[i][|name| + 1..])
      case None => Err(URIError)
      case Some(v) => Ok(Some(v))
  }

  /** No cookie of `cookies` starts with `prefijo`. */
  predicate Ninguna(cookies: seq<string>, prefijo: string) {
    forall j :: 0 <= j < |cookies| ==> !StartsWith(cookies[j], prefijo)
  }

  /** getCookie's answer over the trimmed cookies. */
  function GetCookieDe(recortadas: seq<string>, name: string, decode: string -> Option<string>)
    : Result<Option<string>, ErrorUri>
  {
    Valor(recortadas, name, decode, PrimeraCookie(recortadas, name + "=", 0))
  }

  /** getCookie(name) over `document.cookie`; `decode` is
      decodeURIComponent, None where it throws. */
  function GetCookie(cookie: string, name: string, decode: string -> Option<string>): Result<Option<string>, ErrorUri> {
    if cookie == "" then Ok(None)
    else GetCookieDe(Recortadas(Split(cookie, ';')), name, decode)
  }

  /** Over the trimmed cookies, the answer is null exactly when none of
      them starts with `name=`. */
  lemma {:induction false} GetCookieDeCorrecto(cs: seq<string>, name: string, decode: string -> Option<string>)
    ensures GetCookieDe(cs, name, decode) == Ok(None) <==> Ninguna(cs, name + "=")
  {
  }

  /** The cookie getCookie stops at is the first that starts with `name=`. */
  lemma {:induction false} GetCookieDePrimera(cs: seq<string>, name: string, decode: string -> Option<string>, i: nat)
    requires i < |cs| && StartsWith(cs[i], name + "=")
    requires forall j :: 0 <= j < i ==> !StartsWith(cs[j], name + "=")
    ensures GetCookieDe(cs, name, decode)
              == match decode(cs[i][|name| + 1..]) case None => Err(URIError) case Some(v) => Ok(Some(v))
  {
    PrimeraCookieEs(cs, name + "=", 0, i);
  }

  /** getCookie answers null for an empty cookie string or when no trimmed
      cookie starts with `name=`, and otherwise the decoded rest of the
      first one that does (or the decoder's error). */
  lemma {:induction false} GetCookieCorrecto(cookie: string, name: string, decode: string -> Option<string>, i: nat)
    ensures cookie == "" ==> GetCookie(cookie, name, decode) == Ok(None)
    ensures var cs := Recortadas(Split(cookie, ';'));
            cookie != "" ==>
              (GetCookie(cookie, name, decode) == Ok(None) <==> Ninguna(cs, name + "="))
    ensures var cs := Recortadas(Split(cookie, ';'));
            cookie != "" && i < |cs| && StartsWith(cs[i], name + "=")
            && (forall j :: 0 <= j < i ==> !StartsWith(cs[j], name + "=")) ==>
              GetCookie(cookie, name, decode)
                == match decode(cs[i][|name| + 1..]) case None => Err(URIError) case Some(v) => Ok(Some(v))
  {
    if cookie != "" {
      var cs := Recortadas(Split(cookie, ';'));
      assert GetCookie(cookie, name, decode) == GetCookieDe(cs, name, decode);
      GetCookieDeCorrecto(cs, name, decode);
      if i < |cs| && StartsWith(cs[i], name + "=") && (forall j :: 0 <= j < i ==> !StartsWith(cs[j], name + "=")) {
        GetCookieDePrimera(cs, name, decode, i);
      }
    }
  }

  /** A non-empty cookie string is answered from its trimmed pieces. */
  lemma {:induction false} GetCookieNoVacia(cookie: string, name: string, decode: string -> Option<string>)
    requires cookie != ""
    ensures GetCookie(cookie, name, decode) == GetCookieDe(Recortadas(Split(cookie, ';')), name, decode)
  {
  }

  /** One turn of getCookie's loop over the trimmed cookie `c` at `i`, all
      before it having failed the test: a match decides the answer, a
      miss extends the failed prefix. */
  lemma {:induction false} PasoCookie(cs: seq<string>, name: string, decode: string -> Option<string>, i: nat, c: string)
    requires i < |cs| && c == cs[i]
    requires forall j :: 0 <= j < i ==> !StartsWith(cs[j], name + "=")
    ensures Substring(c, 0, |name| + 1) == name + "=" ==>
              GetCookieDe(cs, name, decode)
                == match decode(Substring(c, |name| + 1, |c|)) case None => Err(URIError) case Some(v) => Ok(Some(v))
    ensures Substring(c, 0, |name| + 1) != name + "=" ==>
              forall j :: 0 <= j < i + 1 ==> !StartsWith(cs[j], name + "=")
  {
    SubstringPrefijo(c, name);
    if Substring(c, 0, |name| + 1) == name + "=" {
      assert Substring(c, |name| + 1, |c|) == c[|name| + 1..];
      GetCookieDePrimera(cs, name, decode, i);
    }
  }

  /** getCookie's `for` loop with its `break`. */
  method GetCookieLoop(cookie: string, name: string, decode: string -> Option<string>)
    returns (r: Result<Option<string>, ErrorUri>)
    ensures r == GetCookie(cookie, name, decode)
  {
    if cookie == "" {
      return Ok(None);
    }
    var cookieValue: Option<string> := None;
    var cookies := Split(cookie, ';');
    ghost var recortadas := Recortadas(cookies);
    GetCookieNoVacia(cookie, name, decode);
    var i := 0;
    while i < |cookies|
      invariant 0 <= i <= |cookies|
      invariant forall j :: 0 <= j < i ==> !StartsWith(recortadas[j], name + "=")
    {
      var c := JsTrim(cookies[i]);
      PasoCookie(recortadas, name, decode, i, c);
      if Substring(c, 0, |name| + 1) == name + "=" {
        var d := decode(Substring(c, |name| + 1, |c|));
        match d
        case None =>
          return Err(URIError);
        case Some(v) =>
          return Ok(Some(v));
      }
      i := i + 1;
    }
    assert Ninguna(recortadas, name + "=");
    GetCookieDeCorrecto(recortadas, name, decode);
    return Ok(cookieValue);
  }

  // ----- fetchWithCache ------------------------------------------------------

  /** What one call of fetchWithCache does to the Map and what it answers:
      a hit answers the stored value; a miss stores and answers what the
      fetch parsed, or stores nothing and rethrows. `resultado` is the
      outcome the fetch would have on a miss. */
  function PasoFetch(cache: map<string, Json>, clave: string, resultado: Result<Json, string>)
    : (map<string, Json>, Result<Json, string>)
  {
    if clave in cache then (cache, Ok(cache[clave]))
    else
      match resultado
      case Ok(data) => (cache[clave := data], Ok(data))
      case Err(e) => (cache, Err(e))
  }

  /** A call never drops or changes an entry, and adds one only for a
      successful fetch. */
  lemma {:induction false} PasoFetchConserva(cache: map<string, Json>, clave: string, resultado: Result<Json, string>)
    ensures var c := PasoFetch(cache, clave, resultado).0;
            && (forall k :: k in cache ==> k in c && c[k] == cache[k])
            && (forall k :: k in c && k !in cache ==> k == clave && resultado.Ok? && c[k] == resultado.value)
  {
  }

  /** Once a key has been answered, a later call with the same key gives
      the same answer whatever the fetch would now do. */
  lemma {:induction false} PasoFetchMemoiza(cache: map<string, Json>, clave: string,
                                            primero: Result<Json, string>, despues: Result<Json, string>)
    requires PasoFetch(cache, clave, primero).1.Ok?
    ensures var (c, r) := PasoFetch(cache, clave, primero);
            PasoFetch(c, clave, despues) == (c, r)
  {
  }

  /** The module-level `cache` Map. */
  class CacheSolicitudes {
    var cache: map<string, Json>

    constructor()
      ensures cache == map[]
    {
      cache := map[];
    }

    /** fetchWithCache(url, options); `stringify` is JSON.stringify and
        `fetchJson` is the awaited fetch followed by response.json(). */
    method FetchWithCache(url: string, options: Json, stringify: Json -> string,
                          fetchJson: (string, Json) -> Result<Json, string>)
      returns (r: Result<Json, string>)
      modifies this
      ensures (cache, r) == PasoFetch(old(cache), url + stringify(options), fetchJson(url, options))
    {
      var cacheKey := url + stringify(options);
      if cacheKey in cache {
        return Ok(cache[cacheKey]);
      }
      var respuesta := fetchJson(url, options);
      match respuesta
      case Ok(data) =>
        cache := cache[cacheKey := data];
        return Ok(data);
      case Err(e) =>
        return Err(e);
    }
  }

  // ----- VirtualScroll -----------------------------------------------------

  /** Math.ceil. */
  function Ceil(x: real): int {
    -((-x).Floor)
  }

  /** One rendered row: its index and its translateY offset. */
  datatype Elemento = Elemento(indice: int, y: real)

  /** The first row render draws. */
  function Inicio(scrollTop: real, alto: real): int
    requires alto > 0.0
  {
    (scrollTop / alto).Floor
  }

  /** The rows from `inicio` up to, not including, `fin`, each at its own
      height. */
  function Filas(inicio: int, fin: int, alto: real): (r: seq<Elemento>)
    ensures |r| == if fin > inicio then fin - inicio else 0
    ensures forall k :: 0 <= k < |r| ==> r[k] == Elemento(inicio + k, (inicio + k) as real * alto)
  {
    seq(if fin > inicio then fin - inicio else 0, k => Elemento(inicio + k, (inicio + k) as real * alto))
  }

  /** The end of the window: `visibles` rows from `inicio`, cut at the end
      of the list. */
  function Fin(inicio: int, visibles: int, total: nat): int {
    if inicio + visibles < total then inicio + visibles else total
  }

  /** Reading row `i` throws in createProductElement: a negative index
      reads undefined, and a null item has no fields either. */
  predicate Lanza(items: seq<Json>, i: int) {
    i < 0 || (i < |items| && items[i].JNull?)
  }

  /** The first row from `i` on that throws, or `fin` when none before it
      does. */
  function Corte(items: seq<Json>, i: int, fin: int): (c: int)
    requires fin <= |items|
    ensures i <= c
    ensures i < fin ==> c <= fin
    ensures i >= fin ==> c == i
    ensures c < fin ==> Lanza(items, c)
    ensures forall j :: i <= j < c ==> !Lanza(items, j)
    decreases fin - i
  {
    if i >= fin || Lanza(items, i) then i else Corte(items, i + 1, fin)
  }

  /** The rows render leaves in the container, and whether it throws: the
      rows are appended in order up to the first one that throws (a
      negative index or a null item), which raises before it is appended. */
  function Render(scrollTop: real, alto: real, visibles: int, items: seq<Json>): (seq<Elemento>, bool)
    requires alto > 0.0
  {
    var inicio := Inicio(scrollTop, alto);
    var fin := Fin(inicio, visibles, |items|);
    var corte := Corte(items, inicio, fin);
    (Filas(inicio, corte, alto), corte < fin)
  }

  /** The first row drawn is the one at the top of the view. */
  lemma {:induction false} InicioCubre(scrollTop: real, alto: real)
    requires alto > 0.0
    ensures Inicio(scrollTop, alto) as real * alto <= scrollTop < (Inicio(scrollTop, alto) + 1) as real * alto
  {
    var q := scrollTop / alto;
    var i := q.Floor;
    assert i as real <= q < i as real + 1.0;
    assert q * alto == scrollTop;
    MultiplicarMonotono(i as real, q, alto);
    MultiplicarMonotonoEstricto(q, (i + 1) as real, alto);
    assert scrollTop < (i + 1) as real * alto;
  }

  lemma {:induction false} MultiplicarMonotono(a: real, b: real, c: real)
    requires a <= b && c > 0.0
    ensures a * c <= b * c
  {
    assert b * c - a * c == (b - a) * c;
  }

  lemma {:induction false} MultiplicarMonotonoEstricto(a: real, b: real, c: real)
    requires a < b && c > 0.0
    ensures a * c < b * c
  {
    assert b * c - a * c == (b - a) * c;
  }

  /** From a non-negative scroll position, render draws the rows from the
      one at the top of the view, at most `visibles` of them and none past
      the end of the list, each at its own index times the row height; it
      throws exactly when a row of that window holds null, and then it has
      drawn the rows before the first such one. */
  lemma {:induction false} RenderVentana(scrollTop: real, alto: real, visibles: int, items: seq<Json>)
    requires alto > 0.0 && scrollTop >= 0.0
    ensures var (filas, error) := Render(scrollTop, alto, visibles, items);
            var inicio := Inicio(scrollTop, alto);
            var fin := Fin(inicio, visibles, |items|);
            && inicio >= 0
            && (forall k :: 0 <= k < |filas| ==>
                  filas[k].indice == inicio + k && 0 <= filas[k].indice < |items| && k < visibles
                  && filas[k].y == filas[k].indice as real * alto && !items[filas[k].indice].JNull?)
            && (error <==> HayNulo(items, inicio, fin))
            && (error ==> inicio + |filas| < |items| && items[inicio + |filas|].JNull?)
            && (!error && fin > inicio ==> |filas| == fin - inicio)
  {
    var q := scrollTop / alto;
    assert q >= 0.0;
    VentanaDesde(items, Inicio(scrollTop, alto), visibles, alto);
  }

  /** Some row from `i` up to, not including, `fin` holds null. */
  predicate HayNulo(items: seq<Json>, i: int, fin: int) {
    exists j :: i <= j < fin && 0 <= j < |items| && items[j].JNull?
  }

  /** From a non-negative start the loop stops early exactly at a null row,
      the first one. */
  lemma {:induction false} CorteNulo(items: seq<Json>, inicio: int, fin: int)
    requires inicio >= 0 && fin <= |items|
    ensures Corte(items, inicio, fin) < fin <==> HayNulo(items, inicio, fin)
    ensures Corte(items, inicio, fin) < fin ==> items[Corte(items, inicio, fin)].JNull?
  {
    var corte := Corte(items, inicio, fin);
    if HayNulo(items, inicio, fin) {
      var j :| inicio <= j < fin && 0 <= j < |items| && items[j].JNull?;
      assert Lanza(items, j);
    }
    if corte < fin {
      assert Lanza(items, corte);
    }
  }

  /** RenderVentana for a given first row, away from the real arithmetic. */
  lemma {:induction false} VentanaDesde(items: seq<Json>, inicio: int, visibles: int, alto: real)
    requires inicio >= 0
    ensures var fin := Fin(inicio, visibles, |items|);
            var corte := Corte(items, inicio, fin);
            var filas := Filas(inicio, corte, alto);
            && (forall k :: 0 <= k < |filas| ==>
                  filas[k].indice == inicio + k && 0 <= filas[k].indice < |items| && k < visibles
                  && filas[k].y == filas[k].indice as real * alto && !items[filas[k].indice].JNull?)
            && (corte < fin <==> HayNulo(items, inicio, fin))
            && (corte < fin ==> inicio + |filas| < |items| && items[inicio + |filas|].JNull?)
            && (corte >= fin && fin > inicio ==> |filas| == fin - inicio)
  {
    var fin := Fin(inicio, visibles, |items|);
    var corte := Corte(items, inicio, fin);
    var filas := Filas(inicio, corte, alto);
    CorteNulo(items, inicio, fin);
    forall k | 0 <= k < |filas|
      ensures filas[k].indice == inicio + k && 0 <= filas[k].indice < |items| && k < visibles
      ensures filas[k].y == filas[k].indice as real * alto && !items[filas[k].indice].JNull?
    {
      assert !Lanza(items, inicio + k);
    }
  }

  /** The rows appended one by one from `inicio` are Filas up to `i`. */
  lemma {:induction false} SonFilas(hijos: seq<Elemento>, inicio: int, i: int, alto: real)
    requires inicio <= i && |hijos| == i - inicio
    requires forall k :: 0 <= k < |hijos| ==> hijos[k] == Elemento(inicio + k, (inicio + k) as real * alto)
    ensures hijos == Filas(inicio, i, alto)
  {
    var filas := Filas(inicio, i, alto);
    assert |hijos| == |filas|;
    assert forall k :: 0 <= k < |hijos| ==> hijos[k] == filas[k];
  }

  /** A VirtualScroll over `items`, rows `itemHeight` pixels high in a
      container `clientHeight` pixels high. */
  class VirtualScroll {
    const items: seq<Json>
    const itemHeight: real
    const visibleItems: int
    var hijos: seq<Elemento>
    /** Whether the last render threw the TypeError of an undefined or null
        item; for the first render this is the constructor's exception. */
    var fallo: bool

    /** The constructor; its first render is at scroll position
        `scrollTop`. */
    constructor(items: seq<Json>, itemHeight: real, clientHeight: real, scrollTop: real)
      requires itemHeight > 0.0
      ensures this.items == items && this.itemHeight == itemHeight
      ensures visibleItems == Ceil(clientHeight / itemHeight)
      ensures (hijos, fallo) == Render(scrollTop, itemHeight, visibleItems, items)
    {
      this.items := items;
      this.itemHeight := itemHeight;
      visibleItems := Ceil(clientHeight / itemHeight);
      new;
      var _ := RenderEn(scrollTop);
    }

    /** render(): empties the container, then appends one row per visible
        index; `error` is the TypeError of an undefined or null item. */
    method RenderEn(scrollTop: real) returns (error: bool)
      requires itemHeight > 0.0
      modifies this
      ensures (hijos, error) == Render(scrollTop, itemHeight, visibleItems, items)
      ensures fallo == error
    {
      var startIndex := Inicio(scrollTop, itemHeight);
      var endIndex := Fin(startIndex, visibleItems, |items|);
      hijos := [];
      var i := startIndex;
      while i < endIndex
        invariant startIndex <= i <= if endIndex > startIndex then endIndex else startIndex
        invariant forall j :: startIndex <= j < i ==> !Lanza(items, j)
        invariant |hijos| == i - startIndex
        invariant forall k :: 0 <= k < |hijos| ==> hijos[k] == Elemento(startIndex + k, (startIndex + k) as real * itemHeight)
      {
        if i < 0 || items[i].JNull? {
          assert Lanza(items, i);
          var corte := Corte(items, startIndex, endIndex);
          assert corte == i;
          SonFilas(hijos, startIndex, i, itemHeight);
          fallo := true;
          return true;
        }
        hijos := hijos + [Elemento(i, i as real * itemHeight)];
        i := i + 1;
      }
      var corte := Corte(items, startIndex, endIndex);
      assert corte == i;
      SonFilas(hijos, startIndex, i, itemHeight);
      fallo := false;
      return false;
    }
  }
}
