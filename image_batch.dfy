/**
  The management command that generates recoloured images for product
  variants: selection of the variants, normalisation of the colour name,
  the (variant, colour) image cache, the upload check, the three counters
  and the abort on an unavailable segmentation model.

  Image loading, the recolouring pipeline, the category detection and the
  upload are collaborators passed in as functions.
*/
module ImageBatch {
  import opened Wrappers
  import opened Text
  import SamRecolor

  // ===== records ========================================================

  /** The product of a variant: its id and its two base-image fields (an
      uploaded file name, empty when absent, and an optional URL). */
  datatype Producto = Producto(id: nat, imagen: string, imagenUrl: Option<string>)

  /** A product variant: colour and the image fields the command fills in. */
  datatype Variante = Variante(
    id: nat,
    producto: Producto,
    color: Option<string>,
    imagen: string,
    imagenUrl: Option<string>,
    imagenGeneradaIa: bool)

  /** The command-line options. */
  datatype Options = Options(productoId: Option<int>, color: Option<string>, force: bool, limit: Option<nat>)

  /** The collaborators of one run. */
  datatype Deps = Deps(
    loadImage: Producto -> Option<SamRecolor.Image>,
    categoria: Producto -> Option<string>,
    recolor: (SamRecolor.Image, string, Option<string>) -> Result<SamRecolor.Image, SamRecolor.RecolorError>,
    upload: (string, SamRecolor.Image) -> Option<string>)

  /** The URL the upload helper hands back instead of a real upload. */
  const Placeholder := "/static/imagenes/zapatos.avif"

  /** The width of the colour column of the cache table. */
  const ColorHexWidth := 7

  predicate Truthy(s: Option<string>) { s.Some? && s.value != [] }

  // ===== the colour =====================================================

  const ColorMap: map<string, string> := map[
    "negro" := "#000000", "blanco" := "#FFFFFF", "rojo" := "#FF0000",
    "azul" := "#0000FF", "verde" := "#00FF00", "amarillo" := "#FFFF00",
    "naranja" := "#FF8000", "rosa" := "#FF69B4", "morado" := "#800080",
    "gris" := "#808080", "beige" := "#F5F5DC", "cafe" := "#8B4513",
    "caf\U{E9}" := "#8B4513", "marr\U{F3}n" := "#8B4513", "marron" := "#8B4513",
    "celeste" := "#87CEEB", "turquesa" := "#40E0D0", "violeta" := "#8A2BE2"]

  const DefaultColor := "#FF0000"

  /** A colour that does not start with '#' is looked up by its lower case,
      falling back to red; the result is upper-cased. */
  function NormalizeColor(color: string): (r: string)
  {
    var hex := if StartsWith(color, "#") then color
               else if Lower(color) in ColorMap then ColorMap[Lower(color)] else DefaultColor;
    Upper(hex)
  }

  predicate UpperHexText(s: string) {
    forall i :: 0 <= i < |s| ==> IsAsciiDigit(s[i]) || 'A' <= s[i] <= 'Z' || s[i] == '#'
  }

  /** Every colour of the table is a '#' and six upper-case hex digits. */
  lemma {:induction false} ColorMapEntry(name: string)
    requires name in ColorMap
    ensures |ColorMap[name]| == 7 && ColorMap[name][0] == '#' && UpperHexText(ColorMap[name])
  {
  }

  /** A colour given as '#...' passes through upper-cased, with no check of
      its length or digits; any other name maps to the table's value, or to
      red when it is unknown. */
  lemma {:induction false} NormalizeColorCases(color: string)
    ensures StartsWith(color, "#") ==> NormalizeColor(color) == Upper(color)
    ensures !StartsWith(color, "#") && Lower(color) in ColorMap ==>
      NormalizeColor(color) == ColorMap[Lower(color)]
    ensures !StartsWith(color, "#") && Lower(color) !in ColorMap ==> NormalizeColor(color) == "#FF0000"
  {
    if !StartsWith(color, "#") {
      var hex := if Lower(color) in ColorMap then ColorMap[Lower(color)] else DefaultColor;
      if Lower(color) in ColorMap {
        ColorMapEntry(Lower(color));
      } else {
        assert UpperHexText(hex);
      }
      UpperOfUpperHex(hex);
    }
  }

  /** Upper-casing keeps a leading '#'. */
  lemma {:induction false} UpperKeepsHash(color: string)
    requires StartsWith(color, "#")
    ensures StartsWith(Upper(color), "#")
  {
    assert Upper(color) == UpperChar(color[0]) + Upper(color[1..]);
    assert Upper(color)[..1] == "#";
  }

  /** Normalising twice is normalising once. */
  lemma {:induction false} NormalizeColorIdempotent(color: string)
    ensures NormalizeColor(NormalizeColor(color)) == NormalizeColor(color)
  {
    NormalizeColorCases(color);
    var r := NormalizeColor(color);
    if StartsWith(color, "#") {
      UpperKeepsHash(color);
      UpperIdempotent(color);
    } else if Lower(color) in ColorMap {
      ColorMapEntry(Lower(color));
      assert r[..1] == "#";
    } else {
      assert r[..1] == "#";
    }
    NormalizeColorCases(r);
  }

  /** The name the result is uploaded under. */
  function UploadName(v: Variante, color: string): (name: string)
    ensures StartsWith(name, "variantes/auto_")
    ensures name[|name| - 4..] == ".png"
    ensures '#' !in name
  {
    var name := "variantes/auto_" + NatToString(v.producto.id) + "_" + NatToString(v.id) + "_"
      + RemoveChar(color, '#') + ".png";
    assert name[..15] == "variantes/auto_";
    name
  }

  /** A digit run followed by a non-digit ends at its own length. */
  lemma {:induction false} DigitRunEnd(a: string, r: string)
    requires forall i :: 0 <= i < |a| ==> IsAsciiDigit(a[i])
    requires |r| > 0 && !IsAsciiDigit(r[0])
    ensures forall i :: 0 <= i < |a| ==> IsAsciiDigit((a + r)[i])
    ensures !IsAsciiDigit((a + r)[|a|])
  {
  }

  /** Two digit runs, each followed by a non-digit, split a text at the
      same place. */
  lemma {:induction false} DigitRunSplit(a1: string, r1: string, a2: string, r2: string)
    requires forall i :: 0 <= i < |a1| ==> IsAsciiDigit(a1[i])
    requires forall i :: 0 <= i < |a2| ==> IsAsciiDigit(a2[i])
    requires |r1| > 0 && !IsAsciiDigit(r1[0]) && |r2| > 0 && !IsAsciiDigit(r2[0])
    requires a1 + r1 == a2 + r2
    ensures a1 == a2 && r1 == r2
  {
    DigitRunEnd(a1, r1);
    DigitRunEnd(a2, r2);
    assert a1 == (a1 + r1)[..|a1|];
    assert r1 == (a1 + r1)[|a1|..];
  }

  /** The fields of an upload name: prefix, two digit runs each ended by
      '_', then the colour and ".png". */
  lemma {:induction false} UploadFieldsSplit(a1: string, b1: string, k1: string, a2: string, b2: string, k2: string)
    requires forall i :: 0 <= i < |a1| ==> IsAsciiDigit(a1[i])
    requires forall i :: 0 <= i < |a2| ==> IsAsciiDigit(a2[i])
    requires forall i :: 0 <= i < |b1| ==> IsAsciiDigit(b1[i])
    requires forall i :: 0 <= i < |b2| ==> IsAsciiDigit(b2[i])
    requires "variantes/auto_" + a1 + "_" + b1 + "_" + k1 + ".png"
          == "variantes/auto_" + a2 + "_" + b2 + "_" + k2 + ".png"
    ensures a1 == a2 && b1 == b2 && k1 == k2
  {
    var p := "variantes/auto_";
    var t1, t2 := "_" + k1 + ".png", "_" + k2 + ".png";
    var m1, m2 := "_" + b1 + t1, "_" + b2 + t2;
    var n1, n2 := p + a1 + "_" + b1 + "_" + k1 + ".png", p + a2 + "_" + b2 + "_" + k2 + ".png";
    assert n1 == p + (a1 + m1);
    assert n2 == p + (a2 + m2);
    assert a1 + m1 == n1[|p|..];
    assert a2 + m2 == n2[|p|..];
    DigitRunSplit(a1, m1, a2, m2);
    assert b1 + t1 == m1[1..];
    assert b2 + t2 == m2[1..];
    DigitRunSplit(b1, t1, b2, t2);
    assert k1 == t1[1..|t1| - 4];
    assert k2 == t2[1..|t2| - 4];
  }

  /** The '_' after each id separates the fields, so the upload name
      determines the product, the variant and the colour without '#'. */
  lemma {:induction false} UploadNameInjective(v1: Variante, c1: string, v2: Variante, c2: string)
    requires UploadName(v1, c1) == UploadName(v2, c2)
    ensures v1.producto.id == v2.producto.id && v1.id == v2.id
    ensures RemoveChar(c1, '#') == RemoveChar(c2, '#')
  {
    UploadFieldsSplit(NatToString(v1.producto.id), NatToString(v1.id), RemoveChar(c1, '#'),
                      NatToString(v2.producto.id), NatToString(v2.id), RemoveChar(c2, '#'));
    NatToStringInjective(v1.producto.id, v2.producto.id);
    NatToStringInjective(v1.id, v2.id);
  }

  // ===== selection ======================================================

  /** The filters of the query: product id and colour when given, and
      without --force only variants with no image of their own. */
  predicate Matches(v: Variante, opts: Options) {
    (opts.productoId.None? || opts.productoId.value == 0 || v.producto.id == opts.productoId.value)
    && (!Truthy(opts.color) || (v.color.Some? && Contains(Lower(v.color.value), Lower(opts.color.value))))
    && (opts.force || (v.imagen == [] && v.imagenUrl.None?))
  }

  function MatchingFrom(table: seq<Variante>, opts: Options, from: nat): (sel: seq<nat>)
    requires from <= |table|
    ensures forall k :: 0 <= k < |sel| ==> from <= sel[k] < |table| && Matches(table[sel[k]], opts)
    ensures forall k, l :: 0 <= k < l < |sel| ==> sel[k] < sel[l]
    ensures forall i :: from <= i < |table| && Matches(table[i], opts) ==> i in sel
    decreases |table| - from
  {
    if from == |table| then []
    else (if Matches(table[from], opts) then [from] else []) + MatchingFrom(table, opts, from + 1)
  }

  /** The positions of the selected variants, in table order, cut to the
      limit when one is given. */
  function SelectVariants(table: seq<Variante>, opts: Options): (sel: seq<nat>)
    ensures forall k :: 0 <= k < |sel| ==> sel[k] < |table| && Matches(table[sel[k]], opts)
    ensures forall k, l :: 0 <= k < l < |sel| ==> sel[k] < sel[l]
    ensures opts.limit.None? || opts.limit.value == 0 ==>
      forall i :: 0 <= i < |table| && Matches(table[i], opts) ==> i in sel
    ensures opts.limit.Some? && opts.limit.value > 0 ==> |sel| <= opts.limit.value
  {
    var all := MatchingFrom(table, opts, 0);
    if opts.limit.Some? && opts.limit.value > 0 && opts.limit.value < |all| then all[..opts.limit.value]
    else all
  }

  // ===== one item =======================================================

  datatype Outcome = Exito | Error | DesdeCache | Abort

  /** What one item leaves behind: its outcome, the variant as saved, and
      the cache entry written, if any. */
  datatype StepResult = StepResult(outcome: Outcome, variante: Variante, cacheWrite: Option<(string, string)>)

  function WithImage(v: Variante, url: string): Variante {
    v.(imagenUrl := Some(url), imagenGeneradaIa := true)
  }

  predicate HasBaseImage(p: Producto) { p.imagen != [] || Truthy(p.imagenUrl) }

  /** The colour an item is generated in. */
  function TargetOf(v: Variante): string
    requires v.color.Some?
  {
    NormalizeColor(v.color.value)
  }

  /** The item goes to the generator: it has a base image and a colour,
      and --force is given or the cache has no entry for it. */
  predicate Generates(v: Variante, cache: Cache, force: bool) {
    HasBaseImage(v.producto) && Truthy(v.color) && (force || (v.id, TargetOf(v)) !in cache)
  }

  /** The recolouring of the item's base image, or None when the image
      does not load. */
  function Recoloured(v: Variante, deps: Deps): Option<Result<SamRecolor.Image, SamRecolor.RecolorError>>
    requires v.color.Some?
  {
    match deps.loadImage(v.producto)
    case None => None
    case Some(img) => Some(deps.recolor(img, TargetOf(v), deps.categoria(v.producto)))
  }

  /** The recolouring raised SamUnavailableError. */
  predicate SamDown(res: Option<Result<SamRecolor.Image, SamRecolor.RecolorError>>) {
    res.Some? && res.value.Err? && res.value.error.Sam? && SamRecolor.IsSamUnavailable(res.value.error.sam)
  }

  /** The URL of a real upload of the recoloured image: None when the
      image does not load, the recolouring fails, or the upload answers
      nothing, an empty string or the placeholder. */
  function GeneratedUrl(v: Variante, deps: Deps): Option<string>
    requires v.color.Some?
  {
    match Recoloured(v, deps)
    case Some(Ok(img)) =>
      var url := deps.upload(UploadName(v, TargetOf(v)), img);
      if url.Some? && url.value != [] && url.value != Placeholder then url else None
    case _ => None
  }

  /** The decision for one variant. */
  function Step(v: Variante, cache: Cache, force: bool, deps: Deps): (r: StepResult)
    ensures !HasBaseImage(v.producto) || !Truthy(v.color) ==> r == StepResult(Error, v, None)
    ensures r.outcome == DesdeCache <==>
      HasBaseImage(v.producto) && Truthy(v.color) && !force && (v.id, TargetOf(v)) in cache
    ensures r.outcome == DesdeCache ==> r == StepResult(DesdeCache, WithImage(v, cache[(v.id, TargetOf(v))]), None)
    ensures r.outcome == Abort <==> Generates(v, cache, force) && SamDown(Recoloured(v, deps))
    ensures r.outcome == Exito <==>
      Generates(v, cache, force) && GeneratedUrl(v, deps).Some? && |TargetOf(v)| <= ColorHexWidth
    ensures r.outcome == Exito ==>
      r == StepResult(Exito, WithImage(v, GeneratedUrl(v, deps).value), Some((TargetOf(v), GeneratedUrl(v, deps).value)))
    ensures Generates(v, cache, force) && GeneratedUrl(v, deps).Some? && |TargetOf(v)| > ColorHexWidth ==>
      r == StepResult(Error, WithImage(v, GeneratedUrl(v, deps).value), None)
    ensures r.outcome == Error && !(Generates(v, cache, force) && GeneratedUrl(v, deps).Some?) ==> r.variante == v
    ensures r.outcome != Exito ==> r.cacheWrite == None
    ensures r.outcome == Abort ==> r.variante == v
  {
    if !HasBaseImage(v.producto) || !Truthy(v.color) then StepResult(Error, v, None)
    else
      var target := NormalizeColor(v.color.value);
      if !force && (v.id, target) in cache then
        StepResult(DesdeCache, WithImage(v, cache[(v.id, target)]), None)
      else
        match deps.loadImage(v.producto)
        case None => StepResult(Error, v, None)
        case Some(img) =>
          match deps.recolor(img, target, deps.categoria(v.producto))
          case Err(e) =>
            if e.Sam? && SamRecolor.IsSamUnavailable(e.sam) then StepResult(Abort, v, None)
            else StepResult(Error, v, None)
          case Ok(result) =>
            var url := deps.upload(UploadName(v, target), result);
            if url.Some? && url.value != [] && url.value != Placeholder then
              // the variant is saved first; a colour too wide for the
              // cache column makes the upsert raise, counted as an error
              if |target| <= ColorHexWidth then StepResult(Exito, WithImage(v, url.value), Some((target, url.value)))
              else StepResult(Error, WithImage(v, url.value), None)
            else StepResult(Error, v, None)
  }

  // ===== the whole run ==================================================

  type Cache = map<(nat, string), string>

  /** The per-item decision of one command run. */
  function StepOf(force: bool, deps: Deps): (Variante, Cache) -> StepResult {
    (v, c) => Step(v, c, force, deps)
  }

  datatype BatchState = BatchState(
    table: seq<Variante>,
    cache: Cache,
    exitos: nat,
    errores: nat,
    desdeCache: nat,
    processed: nat,
    aborted: bool)

  function Count(o: Outcome, which: Outcome): nat { if o == which then 1 else 0 }

  /** The state `s` with the counters of earlier items added. */
  function AddCounts(s: BatchState, exitos: nat, errores: nat, desdeCache: nat, processed: nat): BatchState {
    s.(exitos := s.exitos + exitos, errores := s.errores + errores,
       desdeCache := s.desdeCache + desdeCache, processed := s.processed + processed)
  }

  function ApplyCache(cache: Cache, id: nat, w: Option<(string, string)>): Cache {
    if w.Some? then cache[(id, w.value.0) := w.value.1] else cache
  }

  /** Every selected position is a row of a table with `n` rows. */
  predicate InTable(sel: seq<nat>, n: nat) {
    forall k :: 0 <= k < |sel| ==> sel[k] < n
  }

  /** The items of `sel` processed in order from the given state: each one
      adds to exactly one counter, and an abort stops the run. */
  function Run(table: seq<Variante>, cache: Cache, sel: seq<nat>, step: (Variante, Cache) -> StepResult)
    : (s: BatchState)
    requires InTable(sel, |table|)
    ensures |s.table| == |table|
    ensures s.exitos + s.errores + s.desdeCache == s.processed
    ensures !s.aborted ==> s.processed == |sel|
    ensures s.aborted ==> s.processed < |sel|
    decreases |sel|
  {
    if sel == [] then BatchState(table, cache, 0, 0, 0, 0, false)
    else
      var v := table[sel[0]];
      var st := step(v, cache);
      if st.outcome == Abort then BatchState(table, cache, 0, 0, 0, 0, true)
      else
        var rest := Run(table[sel[0] := st.variante], ApplyCache(cache, v.id, st.cacheWrite), sel[1..], step);
        AddCounts(rest, Count(st.outcome, Exito), Count(st.outcome, Error), Count(st.outcome, DesdeCache), 1)
  }

  /** A step that never answers from the cache. */
  ghost predicate NeverFromCache(step: (Variante, Cache) -> StepResult) {
    forall v, c :: step(v, c).outcome != DesdeCache
  }

  /** A step that never succeeds, and so never writes the cache. */
  ghost predicate NeverSucceeds(step: (Variante, Cache) -> StepResult) {
    forall v, c :: step(v, c).outcome != Exito && step(v, c).cacheWrite.None?
  }

  lemma {:induction false} RunNeverFromCache(table: seq<Variante>, cache: Cache, sel: seq<nat>,
                                             step: (Variante, Cache) -> StepResult)
    requires InTable(sel, |table|) && NeverFromCache(step)
    ensures Run(table, cache, sel, step).desdeCache == 0
    decreases |sel|
  {
    if sel != [] {
      var st := step(table[sel[0]], cache);
      if st.outcome != Abort {
        RunNeverFromCache(table[sel[0] := st.variante], ApplyCache(cache, table[sel[0]].id, st.cacheWrite),
                          sel[1..], step);
      }
    }
  }

  lemma {:induction false} RunNeverSucceeds(table: seq<Variante>, cache: Cache, sel: seq<nat>,
                                            step: (Variante, Cache) -> StepResult)
    requires InTable(sel, |table|) && NeverSucceeds(step)
    ensures Run(table, cache, sel, step).exitos == 0
    ensures Run(table, cache, sel, step).cache == cache
    decreases |sel|
  {
    if sel != [] {
      var st := step(table[sel[0]], cache);
      if st.outcome != Abort {
        RunNeverSucceeds(table[sel[0] := st.variante], cache, sel[1..], step);
      }
    }
  }

  /** With --force no item is served from the cache. */
  lemma {:induction false} ForceNeverUsesCache(table: seq<Variante>, cache: Cache, sel: seq<nat>, deps: Deps)
    requires InTable(sel, |table|)
    ensures Run(table, cache, sel, StepOf(true, deps)).desdeCache == 0
  {
    forall v, c ensures StepOf(true, deps)(v, c).outcome != DesdeCache {
      var st := Step(v, c, true, deps);
    }
    RunNeverFromCache(table, cache, sel, StepOf(true, deps));
  }

  /** One item whose upload answers the placeholder is not a success. */
  lemma {:induction false} StepWithPlaceholderUpload(v: Variante, c: Cache, force: bool, deps: Deps)
    requires forall name, img :: deps.upload(name, img) == Some(Placeholder)
    ensures Step(v, c, force, deps).outcome != Exito
  {
  }

  /** With an upload that always answers the placeholder, nothing succeeds
      and the cache is never written. */
  lemma {:induction false} PlaceholderUploadNeverSucceeds(table: seq<Variante>, cache: Cache, sel: seq<nat>, force: bool, deps: Deps)
    requires InTable(sel, |table|)
    requires forall name, img :: deps.upload(name, img) == Some(Placeholder)
    ensures Run(table, cache, sel, StepOf(force, deps)).exitos == 0
    ensures Run(table, cache, sel, StepOf(force, deps)).cache == cache
  {
    forall v, c ensures StepOf(force, deps)(v, c).outcome != Exito && StepOf(force, deps)(v, c).cacheWrite.None? {
      StepWithPlaceholderUpload(v, c, force, deps);
    }
    RunNeverSucceeds(table, cache, sel, StepOf(force, deps));
  }

  /** One item of a run, when it does not abort. */
  lemma {:induction false} RunStep(table: seq<Variante>, cache: Cache, sel: seq<nat>, step: (Variante, Cache) -> StepResult)
    requires InTable(sel, |table|) && sel != []
    requires step(table[sel[0]], cache).outcome != Abort
    ensures var st := step(table[sel[0]], cache);
      Run(table, cache, sel, step)
      == AddCounts(Run(table[sel[0] := st.variante], ApplyCache(cache, table[sel[0]].id, st.cacheWrite),
                       sel[1..], step),
                   Count(st.outcome, Exito), Count(st.outcome, Error), Count(st.outcome, DesdeCache), 1)
  {
  }

  /** One item of a run, when it aborts. */
  lemma {:induction false} RunAbort(table: seq<Variante>, cache: Cache, sel: seq<nat>, step: (Variante, Cache) -> StepResult)
    requires InTable(sel, |table|) && sel != []
    requires step(table[sel[0]], cache).outcome == Abort
    ensures Run(table, cache, sel, step) == BatchState(table, cache, 0, 0, 0, 0, true)
  {
  }

  /** The state of `p` is the state of `s`, with the same counters. */
  predicate SameEffect(p: BatchState, s: BatchState) {
    p.table == s.table && p.cache == s.cache
    && p.exitos == s.exitos && p.errores == s.errores && p.desdeCache == s.desdeCache
  }

  /** A run that aborts leaves exactly the state of the items before the
      failing one: nothing after it is touched. */
  lemma {:induction false} AbortKeepsPrefix(table: seq<Variante>, cache: Cache, sel: seq<nat>,
                                            step: (Variante, Cache) -> StepResult)
    requires InTable(sel, |table|)
    requires Run(table, cache, sel, step).aborted
    ensures SameEffect(Run(table, cache, sel[..Run(table, cache, sel, step).processed], step),
                       Run(table, cache, sel, step))
    ensures !Run(table, cache, sel[..Run(table, cache, sel, step).processed], step).aborted
    decreases |sel|
  {
    var st := step(table[sel[0]], cache);
    if st.outcome != Abort {
      var t' := table[sel[0] := st.variante];
      var c' := ApplyCache(cache, table[sel[0]].id, st.cacheWrite);
      var a, b, c := Count(st.outcome, Exito), Count(st.outcome, Error), Count(st.outcome, DesdeCache);
      RunStep(table, cache, sel, step);
      var rest := Run(t', c', sel[1..], step);
      assert Run(table, cache, sel, step) == AddCounts(rest, a, b, c, 1);
      AbortKeepsPrefix(t', c', sel[1..], step);
      var m := rest.processed;
      var pre := sel[..m + 1];
      assert pre[0] == sel[0];
      PrefixTail(sel, m, |table|);
      RunStep(table, cache, pre, step);
      var head := Run(t', c', sel[1..][..m], step);
      assert Run(table, cache, pre, step) == AddCounts(head, a, b, c, 1);
      SameEffectAdd(head, rest, a, b, c, 1);
    } else {
      RunAbort(table, cache, sel, step);
      assert sel[..0] == [];
    }
  }

  /** The tail of a prefix is a prefix of the tail; both stay in the table. */
  lemma {:induction false} PrefixTail(sel: seq<nat>, m: nat, n: nat)
    requires m + 1 <= |sel| && InTable(sel, n)
    ensures sel[..m + 1][1..] == sel[1..][..m]
    ensures InTable(sel[..m + 1], n) && InTable(sel[1..][..m], n)
  {
    var u := sel[..m + 1][1..];
    var v := sel[1..][..m];
    assert forall k :: 0 <= k < m ==> u[k] == sel[k + 1] == v[k];
  }

  /** Adding the same counters keeps two states of the same effect. */
  lemma {:induction false} SameEffectAdd(p: BatchState, s: BatchState, a: nat, b: nat, c: nat, d: nat)
    requires SameEffect(p, s)
    ensures SameEffect(AddCounts(p, a, b, c, d), AddCounts(s, a, b, c, d))
    ensures AddCounts(p, a, b, c, d).aborted == p.aborted
  {
  }

  /** The state after one item that does not abort: the row at `pos` and
      the cache take the step's writes, and exactly one counter goes up. */
  function Advance(s: BatchState, pos: nat, st: StepResult): (t: BatchState)
    requires pos < |s.table|
    ensures |t.table| == |s.table| && t.processed == s.processed + 1
  {
    BatchState(s.table[pos := st.variante], ApplyCache(s.cache, s.table[pos].id, st.cacheWrite),
               s.exitos + Count(st.outcome, Exito), s.errores + Count(st.outcome, Error),
               s.desdeCache + Count(st.outcome, DesdeCache), s.processed + 1, false)
  }

  /** The loop invariant of ProcessItems: the run of the full selection is
      the run of the items after the first `s.processed`, from the state `s`,
      with the counters of `s` added. */
  predicate Resumes(goal: BatchState, s: BatchState, sel: seq<nat>, step: (Variante, Cache) -> StepResult)
  {
    s.processed <= |sel| && !s.aborted && InTable(sel, |s.table|) && InTable(sel[s.processed..], |s.table|)
    && goal == AddCounts(Run(s.table, s.cache, sel[s.processed..], step), s.exitos, s.errores, s.desdeCache, s.processed)
  }

  /** The loop invariant of ProcessItems survives an item that does not abort. */
  lemma {:induction false} AdvanceRun(goal: BatchState, s: BatchState, sel: seq<nat>, step: (Variante, Cache) -> StepResult)
    requires Resumes(goal, s, sel, step) && s.processed < |sel|
    requires step(s.table[sel[s.processed]], s.cache).outcome != Abort
    ensures Resumes(goal, Advance(s, sel[s.processed], step(s.table[sel[s.processed]], s.cache)), sel, step)
  {
    var i := s.processed;
    var q := sel[i..];
    var st := step(s.table[sel[i]], s.cache);
    var t := Advance(s, sel[i], st);
    var table' := s.table[sel[i] := st.variante];
    var cache' := ApplyCache(s.cache, s.table[sel[i]].id, st.cacheWrite);
    assert t.table == table' && t.cache == cache';
    SuffixTail(sel, i, |table'|);
    RunStep(s.table, s.cache, q, step);
    var rest := Run(table', cache', q[1..], step);
    AddCountsTwice(rest, Count(st.outcome, Exito), Count(st.outcome, Error), Count(st.outcome, DesdeCache), 1,
                   s.exitos, s.errores, s.desdeCache, s.processed);
    assert goal == AddCounts(rest, t.exitos, t.errores, t.desdeCache, t.processed);
  }

  /** The tail of a suffix is the next suffix; it stays in the table. */
  lemma {:induction false} SuffixTail(sel: seq<nat>, i: nat, n: nat)
    requires i < |sel| && InTable(sel[i..], n)
    ensures sel[i..][0] == sel[i] && sel[i..][1..] == sel[i + 1..]
    ensures InTable(sel[i + 1..], n)
  {
    var u := sel[i..][1..];
    var v := sel[i + 1..];
    assert forall k :: 0 <= k < |v| ==> u[k] == sel[i + 1 + k] == v[k];
  }

  /** Adding counters twice adds their sums. */
  lemma {:induction false} AddCountsTwice(r: BatchState, a1: nat, b1: nat, c1: nat, d1: nat, a2: nat, b2: nat, c2: nat, d2: nat)
    ensures AddCounts(AddCounts(r, a1, b1, c1, d1), a2, b2, c2, d2) == AddCounts(r, a2 + a1, b2 + b1, c2 + c1, d2 + d1)
  {
  }

  /** The loop invariant of ProcessItems gives the run's state when an item aborts. */
  lemma {:induction false} StopRun(goal: BatchState, s: BatchState, sel: seq<nat>, step: (Variante, Cache) -> StepResult)
    requires Resumes(goal, s, sel, step) && s.processed < |sel|
    requires step(s.table[sel[s.processed]], s.cache).outcome == Abort
    ensures goal == s.(aborted := true)
  {
    assert sel[s.processed..][0] == sel[s.processed];
    RunAbort(s.table, s.cache, sel[s.processed..], step);
  }

  /** The loop of the command over the selected positions: one step per
      item, the counters kept in the loop state, an early exit on abort. */
  method ProcessItems(table0: seq<Variante>, cache0: Cache, sel: seq<nat>, step: (Variante, Cache) -> StepResult)
    returns (s: BatchState)
    requires InTable(sel, |table0|)
    ensures s == Run(table0, cache0, sel, step)
  {
    ghost var goal := Run(table0, cache0, sel, step);
    s := BatchState(table0, cache0, 0, 0, 0, 0, false);
    assert sel[s.processed..] == sel;
    while s.processed < |sel|
      invariant Resumes(goal, s, sel, step)
      decreases |sel| - s.processed
    {
      var pos := sel[s.processed];
      var st := step(s.table[pos], s.cache);
      if st.outcome == Abort {
        StopRun(goal, s, sel, step);
        return s.(aborted := true);
      }
      AdvanceRun(goal, s, sel, step);
      s := Advance(s, pos, st);
    }
    assert sel[s.processed..] == [];
  }

  /** The summary of a command run. */
  datatype Summary =
    | NothingToDo                                                 // no variant selected
    | Aborted(total: nat, processed: nat)                         // segmentation model unavailable
    | Done(total: nat, exitos: nat, errores: nat, desdeCache: nat)

  /** The database tables the command reads and writes. */
  class GenerationStore {
    var variantes: seq<Variante>
    var cache: Cache

    constructor(variantes: seq<Variante>, cache: Cache)
      ensures this.variantes == variantes && this.cache == cache
    {
      this.variantes := variantes;
      this.cache := cache;
    }

    /** Command.handle: selects the variants, processes them in order and
        reports the counters; an abort skips the summary. */
    method Handle(opts: Options, deps: Deps) returns (summary: Summary)
      modifies this
      ensures var sel := SelectVariants(old(variantes), opts);
        var s := Run(old(variantes), old(cache), sel, StepOf(opts.force, deps));
        && (sel == [] ==> summary == NothingToDo && variantes == old(variantes) && cache == old(cache))
        && (sel != [] ==> variantes == s.table && cache == s.cache)
        && (sel != [] && s.aborted ==> summary == Aborted(|sel|, s.processed))
        && (sel != [] && !s.aborted ==> summary == Done(|sel|, s.exitos, s.errores, s.desdeCache))
    {
      var sel := SelectVariants(variantes, opts);
      var total := |sel|;
      if total == 0 {
        return NothingToDo;
      }
      var s := ProcessItems(variantes, cache, sel, StepOf(opts.force, deps));
      variantes, cache := s.table, s.cache;
      if s.aborted {
        return Aborted(total, s.processed);
      }
      return Done(total, s.exitos, s.errores, s.desdeCache);
    }
  }
}
