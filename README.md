# Glamoure store: a verified Dafny model of its core logic

Glamoure is a Django fashion store with a JavaScript front end. It has a
shopping cart, Wompi card payments, an admin dashboard with inventory
and sales analytics, an activity feed fed by model signals, and a batch
command that recolours product photos for each colour variant with a
segmentation model. A few maintenance scripts also belong to the
repository: a merge-conflict resolver, a data migration that numbers
orders, and a debug script that lists a product's sizes and colours.

This project models the deterministic core of that code in Dafny and
proves what the code promises. Heavy collaborators become function-typed
parameters: the segmentation model, OpenCV, SHA-256, HTTP, the upload,
`decodeURIComponent`, `JSON.stringify`, the clock and the random source.
Database tables are sequences or maps inside a store class. Code that
changes state in place becomes a class whose methods update its fields.
Each such class has a pure step function that specifies its methods, and
lemmas state the promised properties about those step functions.

| file | module | models |
|---|---|---|
| `sam_recolor.dfy` | `SamRecolor` | `dashboard/sam_recolor.py`: mask choice, hex parsing, category table, the HSV stage, early exits, the lazily loaded model |
| `image_batch.dfy` | `ImageBatch` | `generar_imagenes_ia.py`: colour normalisation, the (variant, colour) cache, the upload test, counters, the abort |
| `wompi_utils.dfy` | `WompiUtils` | `pagos/utils.py`: base URL, reference format, integrity signature, webhook checksum |
| `pagos_views.dfy` | `PagosViews` | `pagos/views.py`: the two confirmations, the webhook, the checkout from a cart |
| `pagos_models.dfy` | `PagosModels` | `pagos/models.py`: the transaction record, its defaults and accessors |
| `carrito_models.dfy` | `CarritoModels` | `carrito/models.py`: subtotal and cart total |
| `carrito_views.dfy` | `CarritoViews` | `carrito/views.py`: add, remove, the cart modal, change of quantity |
| `dashboard_utils.dfy` | `DashboardUtils` | `dashboard/utils.py`: stock levels, inventory analysis, problem detection, sales row selection |
| `dashboard_models.dfy` | `DashboardModels` | `dashboard/models.py`: icon lookup and elapsed-time label |
| `dashboard_signals.dfy` | `DashboardSignals` | `dashboard/signals.py`: the six receivers and the activity table |
| `carousel_ofertas.dfy` | `CarouselOfertas` | `carousel-ofertas.js`: window size and navigation |
| `carousel_mas_vendido.dfy` | `CarouselMasVendido` | `carousel-mas-vendido.js`: the same, with empty-list guards |
| `optimizaciones.dfy` | `Optimizaciones` | `optimizaciones.js`: getCookie, fetchWithCache, VirtualScroll |
| `inventario_modal.dfy` | `InventarioModal` | `inventario-modal.js`: grouping, totals, colour thresholds, the modal |
| `resolver_conflictos.dfy` | `ResolverConflictos` | `resolver_conflictos.py`: the `re.sub` over conflict blocks and `combinar` |
| `asignar_numeros.dfy` | `AsignarNumeros` | migration 0015: order numbers |
| `variantes_debug.dfy` | `VariantesDebug` | `test_variantes_debug.py`: the size and colour dedup loops |
| `text.dfy`, `json.dfy`, `wrappers.dfy` | `Text`, `Json`, `Wrappers` | Python and JavaScript string built-ins, decoded JSON values, Option and Result |

The model follows the code as written, on the table schema that the
views, scripts and migrations assume; "## Left out" says where that
schema departs from the shown `carrito/models.py`. It includes behaviour
that looks unintended:
- Both confirmation pages turn every status other than APPROVED and
  DECLINED into PENDING, VOIDED included.
- The webhook creates the orders again when an APPROVED event is
  repeated.
- None of the activity types the signal receivers write is a key of
  `TIPO_ACTIVIDAD`, so all of those activities show the default
  'fa-bell' icon.
- The upload stub always returns the placeholder, so every generation
  in the batch is counted as an error.
- `cambiar_cantidad` works on the `CarritoItem` model that
  `carrito/views.py` itself declares, not on `ItemCarrito`.

## Model

| member | source | states |
|---|---|---|
| SamRecolor.FitsWellShaped | dashboard/sam_recolor.py:264-287 | candidates that all have the image's shape share one shape |
| SamRecolor.WindowMasks | dashboard/sam_recolor.py:289-297 | the filter keeps exactly the candidates whose area is above 0.2% and below 40% of the frame |
| SamRecolor.InsertByArea | dashboard/sam_recolor.py:280 | the stable insertion loses and adds no candidate |
| SamRecolor.InsertByAreaDescending | dashboard/sam_recolor.py:280 | inserting into candidates sorted by descending area keeps them sorted |
| SamRecolor.SortByArea | dashboard/sam_recolor.py:280 | `sorted(..., key=area, reverse=True)` permutes the candidates into descending area |
| SamRecolor.FirstMaxIndex | dashboard/sam_recolor.py:280 | the index found is the first candidate of largest area |
| SamRecolor.SortByAreaHead | dashboard/sam_recolor.py:280-311 | the stable sort puts the first candidate of largest area in front, so the fallback drops exactly that one |
| SamRecolor.CombineMasks | dashboard/sam_recolor.py:303-311 | the OR loop sets a pixel exactly when some candidate it combines sets it |
| SamRecolor.SortByAreaMembers | dashboard/sam_recolor.py:280 | sorting keeps exactly the candidates it was given |
| SamRecolor.WindowUnion | dashboard/sam_recolor.py:289-306 | the union of the windowed sorted candidates is the union of the windowed input candidates |
| SamRecolor.PickBestMask | dashboard/sam_recolor.py:270-312 | no candidates give no region; a single candidate is used as it is; otherwise the region has the frame's size and is the union of the candidates in the area window, or, when none is, the union of all candidates but the first after the sort; the region found is the one `ChosenMask` describes |
| SamRecolor.Repeat | dashboard/sam_recolor.py:94 | n copies of a character |
| SamRecolor.HexValue | dashboard/sam_recolor.py:95 | one or two hex digits are below 16 or 256 |
| SamRecolor.ParseIntBase16 | dashboard/sam_recolor.py:95 | `int(s, 16)` of at most two characters, when it succeeds, is below 256 |
| SamRecolor.LStripHash | dashboard/sam_recolor.py:94 | `lstrip('#')` leaves no leading '#' |
| SamRecolor.Pair | dashboard/sam_recolor.py:95 | `s[i:i+2]` has at most two characters |
| SamRecolor.ParseComponent | dashboard/sam_recolor.py:95 | a parsed component is a byte |
| SamRecolor.HexToRgb | dashboard/sam_recolor.py:93-97 | when parsing succeeds, the three components are bytes; the error is NotHex exactly when one of the three pairs is not hexadecimal, since all three are read before the 8-bit buffer is built |
| SamRecolor.HexDigitChar | dashboard/sam_recolor.py:95 | the rendered digit reads back as its value |
| SamRecolor.HexByte | dashboard/sam_recolor.py:95 | two hex digits that read back as the byte |
| SamRecolor.ParseComponentOfHexByte | dashboard/sam_recolor.py:95 | parsing a rendered byte gives it back |
| SamRecolor.HexToRgbRoundTrip | dashboard/sam_recolor.py:93-95 | any number of '#', six hex digits and any trailing characters parse back to the three bytes |
| SamRecolor.PairsOfBody | dashboard/sam_recolor.py:95 | the slices 0-2, 2-4 and 4-6 of the body are its three pairs |
| SamRecolor.HexToRgbOfPairs | dashboard/sam_recolor.py:93-95 | three pairs that parse give the colour |
| SamRecolor.StripHashes | dashboard/sam_recolor.py:94 | `lstrip('#')` removes exactly the leading run of '#' |
| SamRecolor.ConfigFor | dashboard/sam_recolor.py:10-86 | a known category gets its own parameters; a missing or unknown one gets 'general'; see also line 115 |
| SamRecolor.ConfigForSensible | dashboard/sam_recolor.py:10-86 | every configuration has its mixes and weights in [0, 1] and a saturation floor within the 8-bit range; see also line 115 |
| SamRecolor.Clip | dashboard/sam_recolor.py:150-165 | `np.clip` stays within the bounds and keeps a value already inside them |
| SamRecolor.UpdatePixel | dashboard/sam_recolor.py:135-165 | a masked pixel takes the target hue, a saturation between the floor and 255, and a value between 0 and 255 |
| SamRecolor.MaskCount | dashboard/sam_recolor.py:124-162 | the count of masked pixels is positive exactly when some pixel is masked |
| SamRecolor.StagedHsv | dashboard/sam_recolor.py:127-165 | pixels outside the mask stay as they were; masked pixels take the target hue and channels within range |
| SamRecolor.HsvStage | dashboard/sam_recolor.py:127-165 | the in-place update of the HSV image gives `StagedHsv` |
| SamRecolor.HexToHsv | dashboard/sam_recolor.py:93-99 | the target converts exactly when the hex text parses |
| SamRecolor.RecolorHsvPreserveTexture | dashboard/sam_recolor.py:102-217 | a bad colour fails before the mask is looked at; an all-false mask gives back the image itself; otherwise the staged HSV image goes through the post-processing; a success is `RecolourOf` for the target's HSV |
| SamRecolor.LoadOutcome | dashboard/sam_recolor.py:225-261 | a failed import gives 'not installed'; a missing or nonexistent SAM_CHECKPOINT gives 'checkpoint missing'; a successful load uses that checkpoint, SAM_MODEL_TYPE (default 'vit_h') and the generator settings 32, 0.70, 0.80, 1, 2, 100 |
| SamRecolor.SamRuntime.constructor | dashboard/sam_recolor.py:6-7 | both globals start unset |
| SamRecolor.SamRuntime.LoadSam | dashboard/sam_recolor.py:220-261 | once both globals are set they are returned and kept; otherwise the load is attempted, and both globals are set only when it succeeds; a failure leaves them unchanged |
| SamRecolor.SamRuntime.GenerateMasksForImage | dashboard/sam_recolor.py:264-267 | the masks come from the generator that is cached or was just loaded; a failure changes nothing |
| SamRecolor.SamRuntime.ProcessImageRecolor | dashboard/sam_recolor.py:315-343 | a load failure propagates and changes nothing; with no candidates the image comes back unchanged; otherwise the call fails exactly when the colour is bad; a success keeps the height and width, and its pixels are the recolouring of the image under the mask PickBestMask chooses (`ChosenMask`): the image itself when that mask is empty, the post-processed staged HSV image otherwise |
| ImageBatch.ColorMapEntry | dashboard/management/commands/generar_imagenes_ia.py:112-119 | every colour of the table is '#' followed by six upper-case hex digits |
| ImageBatch.NormalizeColorCases | dashboard/management/commands/generar_imagenes_ia.py:104-122 | a colour starting with '#' passes through upper-cased, and its length and digits are not checked; any other name is looked up lower-cased in the table and unknown names give red |
| ImageBatch.UpperKeepsHash | dashboard/management/commands/generar_imagenes_ia.py:122 | upper-casing keeps a leading '#' |
| ImageBatch.NormalizeColorIdempotent | dashboard/management/commands/generar_imagenes_ia.py:110-122 | normalising a colour twice is normalising it once |
| ImageBatch.UploadName | dashboard/management/commands/generar_imagenes_ia.py:181 | the uploaded file is named under 'variantes/auto_', ends in '.png' and holds no '#' |
| ImageBatch.UploadNameInjective | dashboard/management/commands/generar_imagenes_ia.py:181 | the '_' after each id separates the fields, so equal names mean equal product ids, equal variant ids and equal colours once '#' is removed |
| ImageBatch.MatchingFrom | dashboard/management/commands/generar_imagenes_ia.py:55-73 | the scan lists exactly the matching positions from its start, in increasing order |
| ImageBatch.SelectVariants | dashboard/management/commands/generar_imagenes_ia.py:54-79 | the selection holds only variants that match the product, the colour (case-insensitive substring) and, without --force, having no image; it is in table order and holds no more than the limit; with no limit it holds every match |
| ImageBatch.Step | dashboard/management/commands/generar_imagenes_ia.py:94-213 | a variant without a base image or colour is an error; it is served from the cache exactly when --force is off and the (variant, normalised colour) pair is cached; it aborts exactly when it goes to the generator and the recolouring raises SamUnavailableError; it succeeds exactly when it goes to the generator, the image loads, the recolouring succeeds, the upload answers a URL that is neither empty nor the placeholder, and the colour fits the 7-character cache column; a success writes that colour and URL to the cache and the variant takes the URL; a colour too wide for the column is an error with the URL already saved on the variant; every other error and the abort leave the variant unchanged; only a success writes the cache |
| ImageBatch.Run | dashboard/management/commands/generar_imagenes_ia.py:86-213 | the rows keep their number; each item processed adds to exactly one of the three counters; a run that does not abort processes every selected item, and one that aborts stops early |
| ImageBatch.RunNeverFromCache | dashboard/management/commands/generar_imagenes_ia.py:125-137 | with a step that never serves from the cache, the cache counter stays 0 |
| ImageBatch.RunNeverSucceeds | dashboard/management/commands/generar_imagenes_ia.py:185-202 | with a step that never succeeds, nothing succeeds and the cache is never written |
| ImageBatch.ForceNeverUsesCache | dashboard/management/commands/generar_imagenes_ia.py:65-70 | with --force no item is served from the cache; see also line 125 |
| ImageBatch.StepWithPlaceholderUpload | dashboard/management/commands/generar_imagenes_ia.py:183-202 | an upload that answers the placeholder URL is not a success |
| ImageBatch.PlaceholderUploadNeverSucceeds | dashboard/management/commands/generar_imagenes_ia.py:183-202 | with an upload that always answers the placeholder, nothing succeeds and the cache is never written |
| ImageBatch.RunStep | dashboard/management/commands/generar_imagenes_ia.py:91-213 | a run is its first item's effect followed by the run of the rest |
| ImageBatch.RunAbort | dashboard/management/commands/generar_imagenes_ia.py:204-208 | `SamUnavailableError` ends the run at once |
| ImageBatch.AbortKeepsPrefix | dashboard/management/commands/generar_imagenes_ia.py:91-208 | an aborted run leaves exactly the effect of the items before the failing one |
| ImageBatch.Advance | dashboard/management/commands/generar_imagenes_ia.py:91-213 | one item that does not abort moves the count of processed items by one and keeps the table size |
| ImageBatch.AdvanceRun | dashboard/management/commands/generar_imagenes_ia.py:91-213 | the loop invariant survives an item that does not abort |
| ImageBatch.StopRun | dashboard/management/commands/generar_imagenes_ia.py:204-208 | when an item aborts, the loop state is the run's state |
| ImageBatch.ProcessItems | dashboard/management/commands/generar_imagenes_ia.py:86-213 | the `for idx, variante in enumerate(...)` loop computes `Run` |
| ImageBatch.GenerationStore.constructor | dashboard/management/commands/generar_imagenes_ia.py:73 | the command starts from the given variants and cache |
| ImageBatch.GenerationStore.Handle | dashboard/management/commands/generar_imagenes_ia.py:51-224 | with nothing selected, nothing changes and the command says so; otherwise the tables become the run's; an abort skips the summary, and a full run reports the total and the three counters |
| WompiUtils.GetBaseUrl | pagos/utils.py:12-18 | the sandbox URL exactly when WOMPI_ENV is 'TEST', the production URL exactly otherwise |
| WompiUtils.Pad2 | pagos/utils.py:23 | a zero-padded two-digit field is two digits |
| WompiUtils.Pad2Injective | pagos/utils.py:23 | different values give different two-digit fields |
| WompiUtils.Timestamp | pagos/utils.py:23 | `%Y%m%d%H%M%S` of a valid instant is fourteen digits |
| WompiUtils.TimestampInjective | pagos/utils.py:23 | different instants give different timestamps |
| WompiUtils.RefChar | pagos/utils.py:24 | every character drawn is an upper-case letter or a digit |
| WompiUtils.GenerarReferencia | pagos/utils.py:21-25 | the reference is 25 characters: "REF_", the 14-digit timestamp, '_' and six characters from [A-Z0-9] |
| WompiUtils.GenerarReferenciaInjective | pagos/utils.py:21-25 | a reference determines both the instant and the six random choices: references made at different seconds never collide |
| WompiUtils.TruncToInt | pagos/utils.py:37 | `int()` of a number truncates toward zero |
| WompiUtils.IntegrityString | pagos/utils.py:36-40 | the signed text starts with the reference, then has the amount as an optional '-' followed by digits (no decimal point), and ends with currency + integrity secret |
| WompiUtils.GenerarFirmaIntegridad | pagos/utils.py:28-45 | the digest of `IntegrityString` (reference, integer amount, currency, integrity secret); `FirmaIgnoresFraction` shows only the integer part of the amount is signed |
| WompiUtils.FirmaIgnoresFraction | pagos/utils.py:37-43 | only the integer part of the amount is signed: two amounts with the same integer part give the same signature |
| WompiUtils.IntegrityStringBindsAmount | pagos/utils.py:36-40 | for a fixed reference, currency and secret, equal signed texts mean equal integer amounts |
| WompiUtils.WalkPath | pagos/utils.py:61-64 | `valor = valor[key]` over the dotted path; `WalkPathMissingKey` shows a dict without the key raises KeyError, and `WalkMethod` is the loop that computes it |
| WompiUtils.PropertyValue | pagos/utils.py:60-65 | str() of the value at one property's dotted path, or the exception of the split or the walk; `PropertyValues` states the list of them |
| WompiUtils.PropertyValues | pagos/utils.py:60-65 | when no property fails, there is exactly one value per property, and the i-th is str() of the value at the i-th property's dotted path; it fails exactly when some property fails |
| WompiUtils.PropertyValuesFails | pagos/utils.py:60-65 | a property whose path fails makes the whole verification raise |
| WompiUtils.PropertyValuesPrefixErr | pagos/utils.py:60-65 | the first failing property decides the exception raised |
| WompiUtils.WalkPathMissingKey | pagos/utils.py:63-64 | a step into a dict that lacks the key raises KeyError with that key |
| WompiUtils.MissingKeyRaises | pagos/utils.py:53-65 | a webhook event that names a missing property raises instead of returning a verdict |
| WompiUtils.EventString | pagos/utils.py:53-74 | the checksum text: signature, properties, timestamp and data are read in turn, any failure is raised, and otherwise the property values, the timestamp and the events secret are joined; `EventStringLayout` and `MissingKeyRaises` state its layout and its failures |
| WompiUtils.VerifyEvent | pagos/utils.py:48-79 | the upper-cased digest of the checksum text against the upper-cased received checksum, or the exception building the text raises; `VerifyRoundTrip` shows an event's own digest is accepted in any case, and `VerificarFirmaEvento` is the method that computes it |
| WompiUtils.VerifyRoundTrip | pagos/utils.py:48-79 | the digest of an event's own checksum text is accepted, written as hexdigest gives it, upper-cased or lower-cased |
| WompiUtils.EventStringLayout | pagos/utils.py:67-74 | the checksum text is the property values, then the timestamp, then the events secret |
| WompiUtils.WalkMethod | pagos/utils.py:61-64 | the inner `valor = valor[key]` loop computes `WalkPath` |
| WompiUtils.VerificarFirmaEvento | pagos/utils.py:47-79 | the loops over properties and keys return the verdict `VerifyEvent` defines |
| PagosViews.NombreCompleto | pagos/views.py:279 | the stored name is the full name when that is not empty, otherwise the username |
| PagosViews.UpdateKeepsUnique | pagos/views.py:102 | saving a transaction again under its own reference keeps references unique (pagos/models.py:20); see also lines 193, 376 |
| PagosViews.AppendKeepsUnique | pagos/views.py:272-281 | creating a transaction whose reference no row has keeps references unique |
| PagosViews.FindTransaccion | pagos/views.py:84 | the row found has the reference; there is no row exactly when no row has it (`DoesNotExist`); see also lines 147-149, 331 |
| PagosViews.FindTransaccionUnique | pagos/views.py:84 | with unique references, the lookup finds exactly the row that has the reference; see also line 331 |
| PagosViews.GetTransaccion | pagos/views.py:83-84 | `objects.get(referencia=v)` compares v as the column stores it; None or an unknown value matches no row; see also lines 147-149, 330-331 |
| PagosViews.IntPrep | pagos/views.py:168-172 | an integer column takes an int as it is and None as NULL; it raises exactly on a list, a dict or a str that is not an integer; see also lines 350-354 |
| PagosViews.PedidoDeLinea | pagos/views.py:166-176 | an order created for a line belongs to the transaction's user, names a product that exists and has the line's int() 'cantidad', which fits the 32-bit IntegerField; a 'cantidad' outside that range is a DataError; see also lines 347-357 |
| PagosViews.PedidosDe | pagos/views.py:166-176 | the loop creates at most one order per line, each for the user and an existing product; see also lines 347-357 |
| PagosViews.PedidosDeSkipsMissing | pagos/views.py:175-176 | a line whose product does not exist creates no order, and the loop goes on; see also lines 356-357 |
| PagosViews.SinCarrito | pagos/views.py:181 | `carrito.items.all().delete()` keeps exactly the lines of other carts, in order; see also line 362 |
| PagosViews.SinCarritoItems | pagos/views.py:179-184 | the emptied cart has no lines, and every other cart keeps the lines it had; see also lines 360-365 |
| PagosViews.EfectoAprobacion | pagos/views.py:162-184 | the approval step changes only orders and cart lines, never transactions, products or carts; see also lines 343-365 |
| PagosViews.MapEstado | pagos/views.py:92-100 | the confirmations map APPROVED to APPROVED and DECLINED to DECLINED; every other status, VOIDED included, to PENDING; see also lines 339-374 |
| PagosViews.WebhookEstado | pagos/views.py:157-191 | the webhook sets APPROVED, DECLINED and VOIDED, and keeps the previous state for any other status |
| PagosViews.MappingsAgree | pagos/views.py:92-100 | the two mappings agree on APPROVED and DECLINED; on any status they do not name, a confirmation overwrites with PENDING while the webhook keeps the state; see also lines 157-191 |
| PagosViews.ActualizarDesdeWompi | pagos/views.py:83-102 | the update succeeds exactly when 'status' and 'payment_method_type' are present; it then sets the mapped state, the provider status, the method, the transaction id and the full answer, and changes no other field; see also lines 330-376 |
| PagosViews.ActualizarDesdeEvento | pagos/views.py:151-193 | the update succeeds exactly when 'id' and 'status' are present; it sets the webhook's state, provider status, id and method ('' when missing) and the full event, and changes no other field |
| PagosViews.DetalleLineaCampos | pagos/views.py:256-263 | an entry of the detail gives back the line's product id and quantity |
| PagosViews.DetalleLineas | pagos/views.py:254-263 | the detail has one entry per cart line, in order |
| PagosViews.ConfirmarPagoStep | pagos/views.py:65-111 | no id or no answer redirects to checkout; a missing 'data' or 'reference' is an error; an unknown reference renders the failure page; otherwise the found transaction is updated from the answer; `ConfirmarPagoUpdatesOne` and `ConfirmarPagoEstado` state the effect |
| PagosViews.ConfirmarPagoCarritoStep | pagos/views.py:311-385 | the same reading of the answer, redirecting to the cart; on APPROVED the orders are created and the cart is emptied before the transaction is saved; `ConfirmacionesCoinciden` and `ConfirmarPagoCarritoPreserves` state how it relates to `ConfirmarPagoStep` and what it keeps |
| PagosViews.ConfirmacionesCoinciden | pagos/views.py:65-111 | both confirmations redirect on the same inputs; whenever the cart view renders, the two render the same outcome and give the same transactions; see also lines 311-385 |
| PagosViews.ConfirmarPagoUpdatesOne | pagos/views.py:65-111 | `confirmar_pago` creates no order and changes no cart; only a transaction whose reference is kept and which now carries the given id changes; any change means a rendered, found transaction |
| PagosViews.ConfirmarPagoEstado | pagos/views.py:82-102 | a found transaction takes the mapped state whatever it held before, and no other row changes |
| PagosViews.ConfirmarPagoCarritoPreserves | pagos/views.py:311-385 | `confirmar_pago_carrito` keeps references unique |
| PagosViews.WebhookTransaccion | pagos/views.py:143-196 | the event's transaction is looked up by reference; an unknown one answers ok; otherwise it is updated from the event, and on APPROVED the orders and cart emptying run first; `WebhookActualiza` and `WebhookNoIdempotente` state the effect |
| PagosViews.WebhookStep | pagos/views.py:114-202 | only POST is allowed; a body that is not a JSON object is an error; an invalid checksum is refused; only 'transaction.updated' goes on to `WebhookTransaccion`; `WebhookSinCambios` and `WebhookPreserves` state what it changes and keeps |
| PagosViews.WebhookSinCambios | pagos/views.py:114-143 | the webhook changes nothing unless it gets a POST with a dict body whose checksum is valid and whose event is 'transaction.updated'; an invalid checksum answers 400 and changes nothing |
| PagosViews.WebhookPreserves | pagos/views.py:143-196 | the webhook keeps references unique |
| PagosViews.WebhookActualiza | pagos/views.py:151-193 | for a status other than APPROVED, only the found row changes: its state follows the webhook mapping, the provider fields are overwritten, and no order or cart line moves |
| PagosViews.AprobacionDeCheckout | pagos/views.py:162-184 | approving a transaction made at checkout creates one order per cart line, in order, with its product and quantity, after the existing orders, and then empties the user's cart; see also lines 343-365 |
| PagosViews.PedidosDeDetalle | pagos/views.py:166-176 | the order loop over a checkout detail whose products all exist, with quantities the cart column holds, raises nothing and creates exactly one order per line; see also lines 254-263 |
| PagosViews.WebhookNoIdempotente | pagos/views.py:157-176 | the same APPROVED event delivered twice creates the detail's orders twice |
| PagosViews.AprobacionRepetida | pagos/views.py:162-176 | when the product table did not change, running the approval again appends the same orders again; see also lines 343-357 |
| PagosViews.CheckoutStep | pagos/views.py:215-308 | anonymous users go to login, no cart goes home, and an empty cart or a non-positive total goes back to the cart; otherwise `CheckoutCrear` builds the transaction; `CheckoutGuards` and `CheckoutCrea` state both halves |
| PagosViews.CheckoutCrear | pagos/views.py:240-308 | the amount in whole cents is signed, and a new PENDING transaction with the detail is added under the reference, unless the reference is already taken; `CrearTransaccion` states its fields |
| PagosViews.CheckoutGuards | pagos/views.py:215-238 | there is no transaction without a user (sent to login), a cart, a line or a positive total; otherwise the checkout adds exactly one transaction and changes nothing else |
| PagosViews.CheckoutCrea | pagos/views.py:240-281 | the new transaction is PENDING, in COP, for the user and the cart total; its reference is the generated one; it is signed over the total in whole cents; its detail has one entry per line, the total and the line count; get_productos and get_total_productos read back the entries and the summed quantities |
| PagosViews.CrearTransaccion | pagos/views.py:240-281 | the same facts, for any cart lines and any reference |
| PagosViews.SumCantidadesDetalle | pagos/views.py:254-269 | get_total_productos of a checkout detail is the sum of the cart's quantities |
| PagosViews.ConstruirDetalle | pagos/views.py:254-263 | the `for item in items` loop builds `DetalleLineas` |
| PagosViews.PagosStore.constructor | pagos/models.py:20 | a store with no transactions or orders satisfies the unique-reference invariant |
| PagosViews.PagosStore.CrearPedidos | pagos/views.py:166-176 | the loop appends the orders `PedidosDe` lists, stops with its exception, and changes no other table; see also lines 347-357 |
| PagosViews.PagosStore.AplicarAprobacion | pagos/views.py:162-184 | orders and cart emptying in place, as `EfectoAprobacion` says; see also lines 343-365 |
| PagosViews.PagosStore.ConfirmarPago | pagos/views.py:65-111 | fields and response as `ConfirmarPagoStep` says; the invariant is kept |
| PagosViews.PagosStore.ConfirmarPagoCarrito | pagos/views.py:311-385 | fields and response as `ConfirmarPagoCarritoStep` says; the invariant is kept |
| PagosViews.PagosStore.ActualizarTransaccion | pagos/views.py:143-196 | fields and response as `WebhookTransaccion` says; the invariant is kept |
| PagosViews.PagosStore.WebhookWompi | pagos/views.py:114-202 | fields and response as `WebhookStep` says, with the checksum checked by the property loops |
| PagosViews.PagosStore.CheckoutDesdeCarrito | pagos/views.py:215-308 | fields and response as `CheckoutStep` says; the invariant is kept |
| PagosModels.NuevaTransaccion | pagos/models.py:14-45 | a new row starts PENDING in COP and has no order detail; the user, reference and amount are the ones given |
| PagosModels.CharValue | pagos/models.py:26-38 | a nullable text column is NULL exactly for None, and keeps a str unchanged |
| PagosModels.GetProductos | pagos/models.py:55-59 | an empty or NULL detail gives []; a dict without 'productos' gives []; a dict with it gives its value; the call raises exactly when the detail is truthy but not a dict |
| PagosModels.Numeric | pagos/models.py:64 | only bool, int and float values take part in the sum |
| PagosModels.GetTotalProductos | pagos/models.py:61-65 | an empty detail gives 0; an exception from get_productos propagates; otherwise the result is the sum of the quantities of the listed lines, in order, where the first line that has no number raises |
| PagosModels.SumCantidadesAppend | pagos/models.py:64 | summing over a concatenation: the first exception wins, otherwise the two sums add up |
| CarritoModels.Subtotal | carrito/models.py:42-46 | price times quantity (the Decimal test reassigns the same price); `SubtotalDifference` shows it is linear in the quantity |
| CarritoModels.ItemsOf | carrito/models.py:35-38 | `carrito.items.all()` holds exactly the lines whose foreign key is that cart, and no more lines than the table |
| CarritoModels.Total | carrito/models.py:34-35 | the sum of the subtotals of the cart's own lines; `TotalAddItem`, `TotalRemoveItem` and `TotalSetQuantity` state how each change of a line moves it, and only its cart's |
| CarritoModels.SumSubtotalsAppend | carrito/models.py:35 | the sum of subtotals over two runs of lines is the sum of the two sums |
| CarritoModels.ItemsOfAppend | carrito/models.py:35-38 | the lines of a cart in a concatenated table are its lines in each part, in order |
| CarritoModels.TotalAddItem | carrito/models.py:34-46 | adding a line of cart c raises c's total by exactly that line's price times quantity; the totals of other carts stay the same |
| CarritoModels.TotalSplit | carrito/models.py:34-35 | a cart's total splits around any one line of the table |
| CarritoModels.TotalReplace | carrito/models.py:34-46 | replacing one line swaps exactly its subtotal for the new line's in the total of its cart |
| CarritoModels.TotalSetQuantity | carrito/models.py:34-46 | changing a line's quantity moves its cart's total by the price times the change, and no other cart's total |
| CarritoModels.SubtotalDifference | carrito/models.py:42-46 | a line's subtotal is linear in its quantity |
| CarritoModels.TotalRemoveItem | carrito/models.py:34-35 | deleting a line lowers its cart's total by that line's subtotal |
| CarritoModels.SumSubtotalsNonNegative | carrito/models.py:10-46 | with no negative price, since quantities are positive integers, no total is negative |
| CarritoViews.FindLine | carrito/views.py:31 | the lookup for get_or_create: if it finds an index, that line has the cart and product; if it finds none, no line has both |
| CarritoViews.FindById | carrito/views.py:45 | `get_object_or_404(Model, id=...)` on any table: the index found holds that id; when there is none, no row has it (the 404 case); used for ItemCarrito here and for CarritoItem at line 79 |
| CarritoViews.CantidadPedida | carrito/views.py:29 | a missing 'cantidad' field means 1; otherwise `int()` of the text, or None where `int()` raises ValueError |
| CarritoViews.Agregar | carrito/views.py:31-36 | the save is accepted exactly when the new quantity fits the PositiveIntegerField of carrito/models.py:40, that is lies between 0 and 2147483647: the old quantity plus n on an existing line, n on a new one |
| CarritoViews.AgregarLine | carrito/views.py:31-36 | afterwards the pair (cart, product) has a line; its quantity is the old one plus n, or n on a new line, or unchanged when the save is refused (a new line keeps the default 1) |
| CarritoViews.FindLineUnique | carrito/views.py:31 | with one line per (cart, product), the lookup finds exactly that line |
| CarritoViews.AgregarTotal | carrito/views.py:31-36 | an accepted save raises that cart's total by price times n; a refused one leaves it unchanged, apart from the line already inserted; no other cart's total moves |
| CarritoViews.AgregarTotalExisting | carrito/views.py:32-36 | adding n to an existing line raises its cart's total by price times n |
| CarritoViews.SubtotalAdd | carrito/views.py:33 | adding n to a line's quantity adds price times n to its subtotal |
| CarritoViews.AgregarTotalNew | carrito/views.py:34-36 | a new line of n units adds price times n to its cart's total |
| CarritoViews.NuevaCantidad | carrito/views.py:80-83 | 'mas' adds one; 'menos' takes one away only above 1; any other action keeps the quantity; a quantity of at least 1 stays at least 1 |
| CarritoViews.MasThenMenos | carrito/views.py:80-83 | a 'mas' followed by a 'menos' gives the quantity back |
| CarritoViews.Datos | carrito/views.py:54-60 | one JSON entry per line, in order, with its id, product name, price, quantity and subtotal |
| CarritoViews.DatosTotal | carrito/views.py:54-61 | the listed subtotals sum to the cart total |
| CarritoViews.AgregarStep | carrito/views.py:24-41 | anonymous users go to login, GET goes to the index, an unknown product is a 404, and an unparsable quantity is an error; otherwise the user's cart is got or created and the line is saved; `AgregarPreserves`, `AgregarIgnored` and `AgregarEffectLine` state what it keeps and what it changes |
| CarritoViews.EliminarStep | carrito/views.py:44-48 | anonymous users go to login and an unknown line is a 404; the line is deleted only when the request's user owns its cart; `EliminarOnlyOwner` and `EliminarPreserves` state the effect |
| CarritoViews.ModalStep | carrito/views.py:51-62 | anonymous users go to login; otherwise the cart's lines as JSON and its total; `ModalConsistent` shows the listed subtotals add up to the reported total |
| CarritoViews.CambiarStep | carrito/views.py:78-85 | an unknown CarritoItem is a 404; otherwise the quantity becomes `NuevaCantidad`, and a value past the column's range is refused; `CambiarKeepsPositive` and `CambiarPreserves` state the effect |
| CarritoViews.WithCarrito | carrito/views.py:20-52 | `get_or_create(usuario=u)` gives u a cart, returns an existing cart as it is, and touches no other table or user |
| CarritoViews.WithCarritoValid | carrito/views.py:20-52 | get_or_create keeps one cart per user (carrito/models.py:32) and every other table invariant |
| CarritoViews.AgregarPreserves | carrito/views.py:23-41 | `agregar_al_carrito` keeps one cart per user, one line per (cart, product), fresh ids and lines that match the catalogue |
| CarritoViews.AgregarIgnored | carrito/views.py:18-41 | an anonymous visitor (sent to login), a GET (sent to index) or an unknown product (404) changes nothing |
| CarritoViews.AgregarEffectLine | carrito/views.py:24-38 | after an authenticated POST the user's cart has exactly one line for the product, holding the quantity the view promises; it says index after a save that succeeds |
| CarritoViews.EliminarPreserves | carrito/views.py:43-48 | `eliminar_item` keeps every table invariant |
| CarritoViews.EliminarOnlyOwner | carrito/views.py:44-48 | a line is deleted only for the owner of its cart; then exactly that line goes, the owner's total drops by its subtotal and the other carts stay the same; an unknown id gives 404, otherwise a redirect to ver_carrito |
| CarritoViews.ModalConsistent | carrito/views.py:50-62 | the modal's listed subtotals add up to the total it reports, which is the user's cart total; only get_or_create may change the state |
| CarritoViews.CambiarPreserves | carrito/views.py:78-85 | `cambiar_cantidad` keeps every table invariant |
| CarritoViews.CambiarKeepsPositive | carrito/views.py:78-85 | no CarritoItem quantity goes below 1; only the row with that id changes; the cart tables stay the same |
| CarritoViews.AgregarKeepsInvariants | carrito/views.py:31-36 | get_or_create followed by save keeps one line per (cart, product), the catalogue match and fresh ids |
| CarritoViews.RemoveKeepsInvariants | carrito/views.py:47 | deleting a line keeps the line invariants |
| CarritoViews.CartStore.constructor | carrito/models.py:31-40 | a store over a catalogue, with no carts and no lines, satisfies the table invariants |
| CarritoViews.CartStore.CarritoDe | carrito/views.py:20-52 | the store's get_or_create updates the tables as `WithCarrito` says |
| CarritoViews.CartStore.AgregarAlCarrito | carrito/views.py:23-41 | the fields are updated and the response returned as `AgregarStep` says, for the parsed quantity, and the invariants are kept |
| CarritoViews.CartStore.EliminarItem | carrito/views.py:43-48 | the fields and the response are as `EliminarStep` says, and the invariants are kept |
| CarritoViews.CartStore.CarritoModal | carrito/views.py:50-62 | the fields and the JSON are as `ModalStep` says, and the invariants are kept |
| CarritoViews.CartStore.CambiarCantidad | carrito/views.py:78-85 | the fields and the response are as `CambiarStep` says, with a 'mas' past 2147483647 refused as a server error, and the invariants are kept |
| DashboardUtils.Nivel | dashboard/utils.py:124-132 | the if/elif chain on stock; `NivelParticiona` shows the four labels split the non-negative stocks into 0, 1-5, 6-20 and above 20, and `NivelMonotono` that more stock never gives a worse label |
| DashboardUtils.NivelParticiona | dashboard/utils.py:124-132 | on non-negative stock the four labels cover exactly 0, 1-5, 6-20 and above 20 |
| DashboardUtils.NivelMonotono | dashboard/utils.py:124-132 | more stock never gives a worse level |
| DashboardUtils.Filas | dashboard/utils.py:122-140 | `datos` has one row per product, in table order, carrying the product's level |
| DashboardUtils.Contar | dashboard/utils.py:148-150 | a level's count never exceeds the number of rows |
| DashboardUtils.ContarPositivo | dashboard/utils.py:148-150 | a level has a group exactly when some row carries it, and then the group is not empty |
| DashboardUtils.GruposParticionan | dashboard/utils.py:148-151 | the four groups' counts add up to the number of rows, and their units add up to the total stock |
| DashboardUtils.FiltrarCriticos | dashboard/utils.py:154 | the filter keeps exactly the rows with stock at most 5 |
| DashboardUtils.Insertar | dashboard/utils.py:154 | the insertion step of the sort loses and adds no row |
| DashboardUtils.InsertarOrdenado | dashboard/utils.py:154 | inserting into rows sorted by stock keeps them sorted |
| DashboardUtils.OrdenarPorStock | dashboard/utils.py:154 | `sort('stock')` permutes the rows |
| DashboardUtils.OrdenarOrdenado | dashboard/utils.py:154 | `sort('stock')` gives rows in non-decreasing stock |
| DashboardUtils.CriticosCorrectos | dashboard/utils.py:154 | the critical products are exactly the rows with stock at most 5, as a permutation of the filtered rows (duplicates included), in ascending stock |
| DashboardUtils.Valores | dashboard/utils.py:157 | `valor_inventario` of each row is its stock times its price |
| DashboardUtils.ValorTotalNoNegativo | dashboard/utils.py:157-158 | with no negative stock or price, the inventory value is not negative |
| DashboardUtils.AnalisisInventario | dashboard/utils.py:118-166 | None for an empty table, and otherwise the rows, the per-level groups, the sorted critical products, the values and their sum; `AnalisisInventarioCorrecto` states each part |
| DashboardUtils.Criticos | dashboard/utils.py:154 | `filter(stock <= 5).sort('stock')`; `CriticosCorrectos` shows it is a sorted permutation of exactly the rows with at most 5 units |
| DashboardUtils.AnalisisInventarioCorrecto | dashboard/utils.py:117-166 | an empty table gives None; otherwise `total_productos` is the number of products, each row has its product's level, the critical rows are exactly those with stock at most 5 and sorted, and the level groups exist exactly for the levels that occur, each with its row count |
| DashboardUtils.ConstruirFilas | dashboard/utils.py:122-140 | the `for producto in productos` loop builds `Filas` |
| DashboardUtils.AnalizarInventario | dashboard/utils.py:117-166 | the method returns None exactly for an empty table, and otherwise the analysis `AnalisisInventario` defines |
| DashboardUtils.ConStock | dashboard/utils.py:174-186 | a stock query keeps exactly the products in its range |
| DashboardUtils.Entradas | dashboard/utils.py:175-195 | one entry per product of the query, in order, with its severity |
| DashboardUtils.EntradasCubren | dashboard/utils.py:175-195 | every product of a query has its entry |
| DashboardUtils.Problemas | dashboard/utils.py:169-197 | an entry of high severity for each product without stock, then one of medium severity for each with 1 to 5 units; `ProblemasCompletos` and `ProblemasOrdenados` state both |
| DashboardUtils.ProblemasCompletos | dashboard/utils.py:168-197 | each product without stock gets a high-severity entry and each product with 1 to 5 units a medium one |
| DashboardUtils.ProblemasOrdenados | dashboard/utils.py:168-197 | the high entries come first, and every entry comes from a product with 0 units (high) or 1 to 5 units (medium) |
| DashboardUtils.AgregarEntradas | dashboard/utils.py:175-195 | one `for` loop appends the query's entries after the list it was given |
| DashboardUtils.DetectarProblemas | dashboard/utils.py:168-197 | the report is the empty-stock entries followed by the low-stock entries |
| DashboardUtils.OrTexto | dashboard/utils.py:37 | `x or default` keeps a non-empty text and replaces None or "" |
| DashboardUtils.OrNumero | dashboard/utils.py:17-20 | `if not v` replaces None or 0 by the current value; see also lines 76-79 |
| DashboardUtils.DelMes | dashboard/utils.py:23-27 | the month query keeps exactly the orders of that month and year in a sales state |
| DashboardUtils.FilasVentas | dashboard/utils.py:30-39 | one row per order, in order, with its id, instant, total and state; the city, or 'Sin especificar' when it is None or ""; the user's username whenever the order has a user, "" included, and 'Invitado' only when it has none |
| DashboardUtils.ContarClave | dashboard/utils.py:52-61 | a group's count never exceeds the number of rows |
| DashboardUtils.ContarClavePositivo | dashboard/utils.py:52-61 | a value has a group exactly when some row holds it, and then the group is not empty |
| DashboardUtils.VentasMensuales | dashboard/utils.py:15-71 | the month and year default to the current ones, the month's sales are selected, and the summary is None without rows; `VentasMensualesCorrectas` and `GruposVentasCorrectos` state its rows and groups |
| DashboardUtils.VentasMensualesCorrectas | dashboard/utils.py:14-71 | None exactly when no order of the month (default from the current date) is a sale; otherwise there is one row per such order, the mean is the total over the count, and every row is in a sales state |
| DashboardUtils.GruposVentasCorrectos | dashboard/utils.py:51-61 | by state and by city there is a group for exactly the values that occur, none empty, each with its row count |
| DashboardUtils.ConstruirFilasVentas | dashboard/utils.py:30-39 | the loop builds `FilasVentas` |
| DashboardUtils.AnalizarVentasMensuales | dashboard/utils.py:14-71 | the method returns the analysis `VentasMensuales` defines |
| DashboardUtils.EntreFechas | dashboard/utils.py:82-86 | the range query keeps exactly the orders from the start to the end, both included, in a sales state |
| DashboardUtils.FilasProductos | dashboard/utils.py:88-97 | one row per order, in order |
| DashboardUtils.ProductosVendidos | dashboard/utils.py:74-100 | the range defaults to the last thirty days up to now; the sales in range give the rows, and no rows give None; `ProductosVendidosCorrectos` states it |
| DashboardUtils.ProductosVendidosCorrectos | dashboard/utils.py:73-100 | None exactly when no order of the range (by default the last 30 days) is a sale; every row lies inside the range |
| DashboardUtils.ConstruirFilasProductos | dashboard/utils.py:88-97 | the loop builds `FilasProductos` |
| DashboardUtils.AnalizarProductosVendidos | dashboard/utils.py:73-100 | the method returns the rows `ProductosVendidos` defines |
| DashboardModels.IconosDeclarados | dashboard/models.py:8-19 | the icon dict has an entry for exactly the ten declared activity types; see also lines 44-55 |
| DashboardModels.Icono | dashboard/models.py:42-56 | `iconos.get(tipo, 'fa-bell')`; `IconosDeclarados` and `IconoCorrecto` show the ten declared types each get their own icon and any other type the default |
| DashboardModels.IconoCorrecto | dashboard/models.py:42-56 | each declared type gets an icon of its own, from which the type can be read back, so no two types share one; any other type gets 'fa-bell' |
| DashboardModels.Tramo | dashboard/models.py:63-78 | the branches split durations into under a minute, a minute to an hour, an hour to a day, a day to a week, and a week or more; the printed count is whole minutes (1-59), hours (1-23) or days (1-6), each the floor of the duration |
| DashboardModels.TramoMonotono | dashboard/models.py:66-78 | a longer duration never falls in an earlier branch, and within one branch never prints a smaller count |
| DashboardModels.CorridaDigitos | dashboard/models.py:70-76 | the inverse's helper finds exactly the leading run of digits |
| DashboardModels.CorridaDeConcat | dashboard/models.py:70-76 | the leading run of digits followed by a non-digit stops at the end of the digits |
| DashboardModels.PartesRelativo | dashboard/models.py:70-76 | a relative label is "Hace ", the decimal count, then the unit with an 's' when the count is above one, and it is never the seconds label |
| DashboardModels.LeerRelativo | dashboard/models.py:70-76 | reading a relative label gives back its count and the words after it |
| DashboardModels.LapsoDeUnidad | dashboard/models.py:70-76 | the words after the count name the branch they came from |
| DashboardModels.TiempoTranscurrido | dashboard/models.py:58-78 | the label of the branch `Tramo` picks for the elapsed time, or the date text past a week; `Tramo`, `TramoMonotono`, `LeerTexto` and `TextoPlural` state its branches, order, readability and plural |
| DashboardModels.LeerTexto | dashboard/models.py:58-76 | every label short of the full date reads back as the branch and count that produced it, so two durations with the same label fall in the same branch with the same count |
| DashboardModels.TextoPlural | dashboard/models.py:70-76 | the label ends in 's' exactly when the count is above one |
| DashboardSignals.ActividadUsuario | dashboard/signals.py:11-22 | a row is inserted exactly when the user was just created; it has type 'registro', names the user and points at it |
| DashboardSignals.ActividadPedido | dashboard/signals.py:25-36 | a row is inserted exactly on creation; it has type 'venta', carries the order's user (or none) and points at the order |
| DashboardSignals.ActividadProducto | dashboard/signals.py:39-61 | a row is inserted exactly on creation, or on an update of a product that has a stock of at most ten; creation gives 'producto' and the update gives 'alerta'; neither has a user |
| DashboardSignals.ActividadEliminacion | dashboard/signals.py:64-74 | every deletion inserts one 'producto' row titled 'Producto eliminado', with no user, pointing at the product |
| DashboardSignals.OrUsuario | dashboard/signals.py:94 | `a if a else b` keeps a present user and falls back otherwise |
| DashboardSignals.ActividadReporte | dashboard/signals.py:77-97 | a row is inserted exactly on creation or when the report's state is 'resuelto'; its type is 'reporte'; the user is the reporter on creation, and the person in charge (or the reporter when there is none) on resolution |
| DashboardSignals.Prefijo | dashboard/signals.py:107 | `s[:n]` is a prefix of s of length min(n, \ | s\ | ) |
| DashboardSignals.ActividadIncidencia | dashboard/signals.py:100-111 | a row is inserted exactly on creation, with type 'incidencia' and the user of the incident's report |
| DashboardSignals.DescripcionIncidencia | dashboard/signals.py:107 | the description is the display label, ": ", at most fifty characters that begin the description (all of it when it is no longer) and "...", whatever the length |
| DashboardSignals.TiposSenalSinIcono | dashboard/signals.py:16 | none of the types the receivers store is declared in dashboard/models.py:8-19, so each of their rows shows the 'fa-bell' icon; see also lines 30, 44, 55, 82, 105 |
| DashboardSignals.Insertada | dashboard/signals.py:14-15 | a receiver adds no row when it decides not to create one, and otherwise exactly that row |
| DashboardSignals.TablaActividades.constructor | dashboard/signals.py:6 | the activity table starts empty |
| DashboardSignals.TablaActividades.TodasSinIcono | dashboard/signals.py:11-111 | in a table only the receivers wrote, every row shows the default icon |
| DashboardSignals.TablaActividades.Insertar | dashboard/signals.py:15 | `objects.create` appends the row, if any, and keeps the table one the receivers wrote |
| DashboardSignals.TablaActividades.RegistrarActividadUsuario | dashboard/signals.py:11-22 | the receiver appends what `ActividadUsuario` decides |
| DashboardSignals.TablaActividades.RegistrarActividadPedido | dashboard/signals.py:25-36 | the receiver appends what `ActividadPedido` decides |
| DashboardSignals.TablaActividades.RegistrarActividadProducto | dashboard/signals.py:39-61 | the receiver appends what `ActividadProducto` decides |
| DashboardSignals.TablaActividades.RegistrarEliminacionProducto | dashboard/signals.py:64-74 | the receiver appends the deletion row |
| DashboardSignals.TablaActividades.RegistrarActividadReporte | dashboard/signals.py:77-97 | the receiver appends what `ActividadReporte` decides |
| DashboardSignals.TablaActividades.RegistrarActividadIncidencia | dashboard/signals.py:100-111 | the receiver appends what `ActividadIncidencia` decides |
| CarouselOfertas.VisibleSlides | core/static/js/carousel-ofertas.js:44-49 | one slide below 768 px, two from 768 px to below 1024 px, three from 1024 px |
| CarouselOfertas.MaxSlideDe | core/static/js/carousel-ofertas.js:51-53 | the last window starts where the slides run out, or at 0 when they all fit |
| CarouselOfertas.Siguiente | core/static/js/carousel-ofertas.js:55-67 | the next index, or 0 from the last window or beyond; `MovimientosEnRango`, `AnteriorInverso` and `AvanzarCicla` show it stays in range, is undone by `Anterior` and cycles through every window |
| CarouselOfertas.Anterior | core/static/js/carousel-ofertas.js:69-81 | the previous index, or the last window from 0 or below; `AnteriorInverso` shows it undoes `Siguiente` |
| CarouselOfertas.MovimientosEnRango | core/static/js/carousel-ofertas.js:55-81 | from a valid index, nextSlide and prevSlide stay within 0 and the last window |
| CarouselOfertas.AnteriorInverso | core/static/js/carousel-ofertas.js:55-81 | within the windows, prevSlide undoes nextSlide and nextSlide undoes prevSlide, across the wrap-around too |
| CarouselOfertas.AvanzarSuma | core/static/js/carousel-ofertas.js:55-67 | a + b presses of nextSlide are a presses followed by b more; see also lines 114-119 |
| CarouselOfertas.AvanzarLineal | core/static/js/carousel-ofertas.js:60-64 | short of the last window, each press moves one slide on |
| CarouselOfertas.AvanzarCicla | core/static/js/carousel-ofertas.js:55-67 | from any window, max + 1 presses come back to it after visiting every other window once; see also lines 114-119 |
| CarouselOfertas.Actualizar | core/static/js/carousel-ofertas.js:93-106 | a transition starts and the track moves to the current slide; without slides the read of `slides[0]` throws after the flag is set, so only the flag changes; `NavegacionEnRango` uses it |
| CarouselOfertas.PasoSiguiente | core/static/js/carousel-ofertas.js:55-67 | nothing during a transition, and otherwise `Siguiente` then `Actualizar`; `NavegacionEnRango` and `TransicionBloquea` state it |
| CarouselOfertas.PasoAnterior | core/static/js/carousel-ofertas.js:69-81 | nothing during a transition, and otherwise `Anterior` then `Actualizar`; `NavegacionEnRango` and `TransicionBloquea` state it |
| CarouselOfertas.PasoIr | core/static/js/carousel-ofertas.js:83-91 | nothing during a transition; otherwise the index is clamped above only, the carousel updates, and, when there are slides, autoplay is scheduled again; `NavegacionEnRango` and `TransicionBloquea` state it |
| CarouselOfertas.PasoSwipe | core/static/js/carousel-ofertas.js:144-155 | a swipe of more than 50 px goes next or prev by its direction, and a shorter one does nothing; `SwipeUmbral` states it |
| CarouselOfertas.NavegacionEnRango | core/static/js/carousel-ofertas.js:55-91 | for a fixed width, every move (goToSlide with a non-negative index) keeps the index within the windows; see also lines 144-155 |
| CarouselOfertas.TransicionBloquea | core/static/js/carousel-ofertas.js:56 | while a transition runs, the arrows, the indicators and the swipes change nothing; see also lines 70, 84, 93-105 |
| CarouselOfertas.SwipeUmbral | core/static/js/carousel-ofertas.js:144-155 | a swipe of at most 50 px either way is ignored; a longer one to the left is nextSlide and one to the right is prevSlide |
| CarouselOfertas.Carousel.constructor | core/static/js/carousel-ofertas.js:3-17 | the carousel starts on slide 0, not in transition, with autoplay only when there is a track and at least one slide |
| CarouselOfertas.Carousel.UpdateCarousel | core/static/js/carousel-ofertas.js:93-106 | the fields change as `Actualizar` says for the first slide's width at this call: a transition starts and the offset follows the current slide |
| CarouselOfertas.Carousel.NextSlide | core/static/js/carousel-ofertas.js:55-67 | the fields change as `PasoSiguiente` says, for the window width and slide width at this call |
| CarouselOfertas.Carousel.PrevSlide | core/static/js/carousel-ofertas.js:69-81 | the fields change as `PasoAnterior` says, for the window width and slide width at this call |
| CarouselOfertas.Carousel.StopAutoplay | core/static/js/carousel-ofertas.js:121-126 | the interval is cleared and nothing else changes; it is also the mouseenter and touchstart listener, lines 31 and 132-135 |
| CarouselOfertas.Carousel.StartAutoplay | core/static/js/carousel-ofertas.js:114-119 | after clearing any interval a new one is scheduled, whatever the slides, and nothing else changes; it is also the mouseleave listener, line 32 |
| CarouselOfertas.Carousel.GoToSlide | core/static/js/carousel-ofertas.js:83-91 | the fields change as `PasoIr` says, for the window width and slide width at this call; autoplay is stopped and started again |
| CarouselOfertas.Carousel.HandleSwipe | core/static/js/carousel-ofertas.js:144-155 | the fields change as `PasoSwipe` says, for the window width and slide width at this call |
| CarouselOfertas.Carousel.TouchEnd | core/static/js/carousel-ofertas.js:137-141 | the touchend listener, attached only by init: the swipe as `PasoSwipe` says, then autoplay is scheduled again |
| CarouselOfertas.Carousel.TransitionEnd | core/static/js/carousel-ofertas.js:103-105 | the timeout ends the transition and changes nothing else |
| CarouselOfertas.Carousel.Resize | core/static/js/carousel-ofertas.js:162-172 | with a track, the resize handler goes back to slide 0 and updates with the slide width at this call, and slide 0 is valid for any window width; without a track it does nothing |
| CarouselMasVendido.VisibleSlides | core/static/js/carousel-mas-vendido.js:33-38 | one slide below 768 px, two below 1024 px, and from 1024 px four, or all the slides when there are fewer |
| CarouselMasVendido.Actualizar | core/static/js/carousel-mas-vendido.js:82-97 | nothing without slides, and otherwise a transition to the current slide; `NavegacionValida` uses it |
| CarouselMasVendido.PasoSiguiente | core/static/js/carousel-mas-vendido.js:44-56 | nothing during a transition or without slides, and otherwise the next window; `NavegacionValida` and `SinSlidesNoNavega` state it |
| CarouselMasVendido.PasoAnterior | core/static/js/carousel-mas-vendido.js:58-70 | nothing during a transition or without slides, and otherwise the previous window; `NavegacionValida` and `SinSlidesNoNavega` state it |
| CarouselMasVendido.PasoIr | core/static/js/carousel-mas-vendido.js:72-80 | nothing during a transition or without slides; otherwise the clamped index and autoplay again; `NavegacionValida` and `SinSlidesNoNavega` state it |
| CarouselMasVendido.PasoSwipe | core/static/js/carousel-mas-vendido.js:137-148 | a swipe of more than 50 px goes next or prev, and a shorter one does nothing; `NavegacionValida` states it |
| CarouselMasVendido.NavegacionValida | core/static/js/carousel-mas-vendido.js:44-97 | every move keeps the index within the windows, keeps autoplay only over a non-empty list, and keeps the track at the current slide once it has moved (goToSlide for a non-negative index); see also lines 137-148 |
| CarouselMasVendido.SinSlidesNoNavega | core/static/js/carousel-mas-vendido.js:45-83 | with no slides, or during a transition, no arrow, indicator or swipe changes anything |
| CarouselMasVendido.Carousel.constructor | core/static/js/carousel-mas-vendido.js:3-16 | the carousel starts on slide 0, valid for every width, with autoplay only when there is a track and at least one slide |
| CarouselMasVendido.Carousel.UpdateCarousel | core/static/js/carousel-mas-vendido.js:82-97 | the fields change as `Actualizar` says for the first slide's width at this call, so nothing moves without slides |
| CarouselMasVendido.Carousel.NextSlide | core/static/js/carousel-mas-vendido.js:44-56 | the fields change as `PasoSiguiente` says, for the window width and slide width at this call |
| CarouselMasVendido.Carousel.PrevSlide | core/static/js/carousel-mas-vendido.js:58-70 | the fields change as `PasoAnterior` says, for the window width and slide width at this call |
| CarouselMasVendido.Carousel.StopAutoplay | core/static/js/carousel-mas-vendido.js:114-119 | the interval is cleared and nothing else changes; it is also the mouseenter and touchstart listener, lines 20 and 125-128 |
| CarouselMasVendido.Carousel.StartAutoplay | core/static/js/carousel-mas-vendido.js:105-112 | after clearing any interval a new one is scheduled exactly when there are slides; it is also the mouseleave listener, line 21 |
| CarouselMasVendido.Carousel.GoToSlide | core/static/js/carousel-mas-vendido.js:72-80 | the fields change as `PasoIr` says, for the window width and slide width at this call |
| CarouselMasVendido.Carousel.HandleSwipe | core/static/js/carousel-mas-vendido.js:137-148 | the fields change as `PasoSwipe` says, for the window width and slide width at this call |
| CarouselMasVendido.Carousel.TouchEnd | core/static/js/carousel-mas-vendido.js:130-134 | the touchend listener: the swipe as `PasoSwipe` says, then autoplay again when there are slides |
| CarouselMasVendido.Carousel.TransitionEnd | core/static/js/carousel-mas-vendido.js:94-96 | the timeout ends the transition and changes nothing else |
| CarouselMasVendido.Carousel.Resize | core/static/js/carousel-mas-vendido.js:158-168 | with a track, the resize handler goes back to slide 0 and updates with the slide width at this call; without one it does nothing |
| Optimizaciones.Substring | core/static/js/optimizaciones.js:102-103 | `substring` never gives more characters than it was given |
| Optimizaciones.SubstringPrefijo | core/static/js/optimizaciones.js:102 | the loop's test on a cookie is exactly the test that it starts with `name=` |
| Optimizaciones.Recortadas | core/static/js/optimizaciones.js:99-101 | each cookie piece is trimmed, in order |
| Optimizaciones.PrimeraCookie | core/static/js/optimizaciones.js:100-105 | the scan finds the first cookie with the prefix, and when it finds none no cookie has it |
| Optimizaciones.PrimeraCookieEs | core/static/js/optimizaciones.js:100-105 | a cookie that matches, with no match before it, is the one found |
| Optimizaciones.GetCookieDeCorrecto | core/static/js/optimizaciones.js:97-108 | over trimmed cookies, the answer is null exactly when none starts with `name=` |
| Optimizaciones.GetCookieDePrimera | core/static/js/optimizaciones.js:102-104 | the answer is the decoded rest of the first cookie that starts with `name=`, or the decoder's URIError |
| Optimizaciones.GetCookieDe | core/static/js/optimizaciones.js:97-108 | over the trimmed cookies, the decoded rest of the first one starting with `name=`, or null; `GetCookieDeCorrecto` and `GetCookieDePrimera` state both cases |
| Optimizaciones.GetCookie | core/static/js/optimizaciones.js:96-109 | null for an empty cookie string, and otherwise `GetCookieDe` over the trimmed pieces; `GetCookieCorrecto` states it, and `GetCookieLoop` is the loop that computes it |
| Optimizaciones.GetCookieCorrecto | core/static/js/optimizaciones.js:96-109 | an empty cookie string gives null; otherwise null exactly when no trimmed piece starts with `name=`, and else the decoded rest of the first one that does |
| Optimizaciones.GetCookieNoVacia | core/static/js/optimizaciones.js:98-99 | a non-empty cookie string is answered from its trimmed `;` pieces |
| Optimizaciones.PasoCookie | core/static/js/optimizaciones.js:100-105 | one turn of the loop either decides the answer or extends the prefix that failed the test |
| Optimizaciones.GetCookieLoop | core/static/js/optimizaciones.js:96-109 | the `for` loop with its `break` computes `GetCookie` |
| Optimizaciones.PasoFetch | core/static/js/optimizaciones.js:52-68 | a hit answers the stored value; a miss stores and answers the parsed result, or rethrows its error and stores nothing; `PasoFetchConserva` and `PasoFetchMemoiza` state it |
| Optimizaciones.PasoFetchConserva | core/static/js/optimizaciones.js:52-68 | a call never drops or changes an entry of the cache, and adds one only for a successful fetch, under its key |
| Optimizaciones.PasoFetchMemoiza | core/static/js/optimizaciones.js:53-57 | once a key has an answer, a later call with that key gives the same answer whatever the fetch would now do |
| Optimizaciones.CacheSolicitudes.constructor | core/static/js/optimizaciones.js:50 | the cache starts empty |
| Optimizaciones.CacheSolicitudes.FetchWithCache | core/static/js/optimizaciones.js:52-68 | the cache and the answer are what `PasoFetch` gives for the key `url + JSON.stringify(options)` |
| Optimizaciones.Filas | core/static/js/optimizaciones.js:146-151 | the rows run from the start index up to, not including, the end, each at its index times the row height |
| Optimizaciones.InicioCubre | core/static/js/optimizaciones.js:141 | the first row drawn is the one at the top of the view |
| Optimizaciones.Corte | core/static/js/optimizaciones.js:146-159 | the loop stops at the first index from the start that throws in `createProductElement` (a negative index or a null item), or at the end when none does |
| Optimizaciones.Render | core/static/js/optimizaciones.js:139-152 | the rows from the one at the top of the view up to the window's end, stopping at the first that throws, and whether it threw; `RenderVentana` states its rows and its error |
| Optimizaciones.RenderVentana | core/static/js/optimizaciones.js:139-159 | from a non-negative scroll position, render draws only rows from the one at the top of the view, in order, at most `visibleItems` of them, none past the end of the list, none holding null, each at its own y; it throws exactly when a row of the window holds null, and then it has drawn the rows before the first such one; without a throw it draws the whole window |
| Optimizaciones.VentanaDesde | core/static/js/optimizaciones.js:146-152 | the same facts for a given non-negative start index |
| Optimizaciones.VirtualScroll.constructor | core/static/js/optimizaciones.js:122-133 | `visibleItems` is the ceiling of the view height over the row height, and the first render draws `Render`'s rows; `fallo` records the TypeError that render throws out of the constructor |
| Optimizaciones.VirtualScroll.RenderEn | core/static/js/optimizaciones.js:139-159 | the container holds the rows `Render` gives, and an undefined or null item raises TypeError at `item.imagen`, after the rows before it are appended |
| InventarioModal.Filtrar | core/static/js/inventario-modal.js:28-36 | a product's rows are rows of the inventory that carry that product's id |
| InventarioModal.IdsAnadir | core/static/js/inventario-modal.js:28-29 | one more row adds at most its own product to the set of products |
| InventarioModal.Agrupar | core/static/js/inventario-modal.js:27-37 | `productosMap` after the forEach; `AgruparCorrecto` shows a key exactly for each product seen, each group holding that product's rows in input order |
| InventarioModal.AgruparCorrecto | core/static/js/inventario-modal.js:27-37 | the object has a key exactly for each product seen; each group holds exactly that product's rows in input order; name and image come from the product's first row |
| InventarioModal.FiltrarVacio | core/static/js/inventario-modal.js:29-36 | a product with no rows gets no rows |
| InventarioModal.Creadas | core/static/js/inventario-modal.js:29-35 | the keys in order of creation list every product once and nothing else |
| InventarioModal.Elegir | core/static/js/inventario-modal.js:43 | picking the keys of one kind keeps exactly those keys and keeps them unrepeated |
| InventarioModal.InsertarAsc | core/static/js/inventario-modal.js:43 | inserting a key into an ascending key list keeps it ascending and adds just that key |
| InventarioModal.OrdenarAsc | core/static/js/inventario-modal.js:43 | the array-index keys are listed ascending, each once |
| InventarioModal.CrecienteDistintos | core/static/js/inventario-modal.js:43 | an ascending key list has no repeats |
| InventarioModal.OrdenCorrecto | core/static/js/inventario-modal.js:43 | `Object.values` visits every product exactly once; integer-like keys come first, ascending; with only such ids the whole order is ascending |
| InventarioModal.DistintosCardinal | core/static/js/inventario-modal.js:146 | counting the keys of the object counts each product once |
| InventarioModal.SumaPorClaveAnadir | core/static/js/inventario-modal.js:36-44 | a row added at the end adds its value to its own product's total only |
| InventarioModal.SumaPorGrupos | core/static/js/inventario-modal.js:44 | the per-product totals add up to the total over all rows; see also line 164 |
| InventarioModal.ColorVariante | core/static/js/inventario-modal.js:100-101 | a variant is green at 10 or more units, yellow from 5 to 9, red below 5, and nothing else |
| InventarioModal.ColorGrupo | core/static/js/inventario-modal.js:64 | a product is green above 20 units, yellow from 11 to 20, red at 10 or less |
| InventarioModal.Filas | core/static/js/inventario-modal.js:99-128 | one row per variant, in order, each with its own stripe index |
| InventarioModal.VistaGrupos | core/static/js/inventario-modal.js:43-136 | one block per key, in key order, each showing that key's group |
| InventarioModal.ClavesEnMapa | core/static/js/inventario-modal.js:43 | every key visited has a group in the object |
| InventarioModal.TotalesPorClave | core/static/js/inventario-modal.js:44-63 | the blocks' stock totals and variant counts are the per-product sums over the rows |
| InventarioModal.VistaDe | core/static/js/inventario-modal.js:18-188 | the empty message for no rows, and otherwise one block per product in key order and the summary; `VistaVacia`, `VistaGrupos_Correctos` and `ResumenCorrecto` state it |
| InventarioModal.VistaVacia | core/static/js/inventario-modal.js:18-24 | an empty list, and only an empty list, shows the empty-inventory message; a received list never shows the loading error |
| InventarioModal.VistaGrupos_Correctos | core/static/js/inventario-modal.js:43-136 | one block per product, in key order, each with exactly that product's rows, its stock total, and a link to its own id |
| InventarioModal.EnlaceGrupo | core/static/js/inventario-modal.js:46-68 | the first row of a product's group carries the product's id, so the link is never undefined |
| InventarioModal.ResumenCorrecto | core/static/js/inventario-modal.js:146-164 | the summary counts distinct products and all rows, and the block totals add up to the summary's stock total and variant count |
| InventarioModal.FiltrarContiene | core/static/js/inventario-modal.js:36 | every row of a product ends up in that product's group |
| InventarioModal.AgruparEn | core/static/js/inventario-modal.js:27-37 | the forEach fills the object as `Agrupar` states |
| InventarioModal.RenderGrupo | core/static/js/inventario-modal.js:99-128 | the inner forEach emits the rows `VistaGrupo` states |
| InventarioModal.RenderGrupos | core/static/js/inventario-modal.js:43-136 | the outer forEach emits one block per key, in key order, each the view of that key's group |
| InventarioModal.Renderizar | core/static/js/inventario-modal.js:18-188 | the content written for a fetched list is the empty message for an empty list, and otherwise the grouped blocks and the summary that `VistaDe` states |
| InventarioModal.Modal.constructor | core/static/js/inventario-modal.js:3-10 | the modal starts hidden |
| InventarioModal.Modal.ShowInventarioCompleto | core/static/js/inventario-modal.js:13-202 | the modal becomes visible; a failed fetch or parse shows the error block, and otherwise the content is the view of the list |
| InventarioModal.Modal.Cerrar | core/static/js/inventario-modal.js:209-211 | the close button hides the modal and leaves its content |
| InventarioModal.Modal.TeclaPulsada | core/static/js/inventario-modal.js:214-218 | Escape hides an open modal; any other key changes nothing |
| ResolverConflictos.Coincide | resolver_conflictos.py:18-37 | a match found at p ends after the three markers and within the text |
| ResolverConflictos.TextoPartes | resolver_conflictos.py:18 | in a block that occurs at p, the HEAD marker, group 1, the separator, group 2 and the ms-david marker sit one after another |
| ResolverConflictos.Ensamblar | resolver_conflictos.py:18 | markers at adjacent positions, with the text between them as groups, make a block occurring at p |
| ResolverConflictos.CoincideForma | resolver_conflictos.py:18-37 | a match found at p is a block occurring at p; group 1 holds no earlier separator, and group 2 holds no earlier end marker (non-greedy) |
| ResolverConflictos.CoincideCompleta | resolver_conflictos.py:18-37 | every block occurring at p is found, and the match found has a first group and a total length no longer than the given block's (the shortest match) |
| ResolverConflictos.Combinar | resolver_conflictos.py:20-34 | `combinar` returns one of the two sides, stripped |
| ResolverConflictos.CombinarReglas | resolver_conflictos.py:21-34 | first rule: only ms-david's side mentions 'carousel' (case-insensitive) -> ms-david's side; else second rule: only HEAD mentions 'favorito' -> HEAD; else ms-david's side; for different sides, HEAD wins exactly when the first rule fails and the second applies |
| ResolverConflictos.Buscar | resolver_conflictos.py:37 | the search stops at the leftmost index where a block starts; no block starts before it; with no result, no block starts anywhere from the start index on |
| ResolverConflictos.Resolver | resolver_conflictos.py:18-37 | `re.sub` with the DOTALL pattern: the text before the leftmost block is copied, the block becomes combinar's choice, and the search resumes after it; `PrimerBloque`, `SinBloquesIgual` and `CoincideCompleta` state it |
| ResolverConflictos.SinBloquesIgual | resolver_conflictos.py:18-37 | a text in which no block starts is returned unchanged |
| ResolverConflictos.SinCabeceraSinBloques | resolver_conflictos.py:18 | a text without "<<<<<<< HEAD" followed by a newline has no block |
| ResolverConflictos.PrimerBloque | resolver_conflictos.py:18-37 | the text before the leftmost block is copied, the block, markers included, becomes combinar's choice, and the search resumes right after the block |
| ResolverConflictos.Procesar | resolver_conflictos.py:54-58 | a file without '<<<<<<< HEAD' is skipped, and any other is resolved; `ProcesarResuelve` shows the skip gives what `Resolver` would |
| ResolverConflictos.ProcesarResuelve | resolver_conflictos.py:54-58 | the skip in `main` for files without '<<<<<<< HEAD' agrees with `resolver_conflicto` on every text |
| AsignarNumeros.ContadorCorrecto | carrito/migrations/0015_asignar_numeros_unicos_pedidos.py:15 | `str(index).zfill(4)` has at least four characters, all digits; it ends with the index's own digits, so nothing is cut off; it is padded with '0' and reads back as the index |
| AsignarNumeros.DosDigitosCorrecto | carrito/migrations/0015_asignar_numeros_unicos_pedidos.py:15 | a month or day value (below 100) is written as exactly two digits that read back as that value |
| AsignarNumeros.FechaOchoDigitos | carrito/migrations/0015_asignar_numeros_unicos_pedidos.py:15 | for a real date in the years 1000-9999 the `%Y%m%d` text is exactly eight digits, and its slices 0-4, 4-6 and 6-8 read back as year, month and day |
| AsignarNumeros.Numero | carrito/migrations/0015_asignar_numeros_unicos_pedidos.py:15 | "PED-", the %Y%m%d date, '-' and the zero-filled counter; `NumeroFormato` and `NumerosDistintos` show its layout and that different positions give different numbers |
| AsignarNumeros.NumeroFormato | carrito/migrations/0015_asignar_numeros_unicos_pedidos.py:15 | a number is "PED-", then the date text, then '-', then the counter; the text after its last '-' is the counter |
| AsignarNumeros.NumerosDistintos | carrito/migrations/0015_asignar_numeros_unicos_pedidos.py:12-15 | orders at different positions get different numbers, whatever their dates |
| AsignarNumeros.Numerados | carrito/migrations/0015_asignar_numeros_unicos_pedidos.py:12-16 | the table after the migration has the same length, and the order at 0-based position i gets its number with counter i + 1 |
| AsignarNumeros.NumeradosConservan | carrito/migrations/0015_asignar_numeros_unicos_pedidos.py:14-16 | only `numero` changes: each order keeps its id and date, and every order gets a number |
| AsignarNumeros.NumeradosFecha | carrito/migrations/0015_asignar_numeros_unicos_pedidos.py:14-15 | an order with a date is numbered from that date; an order without one is numbered from the clock read at its own step |
| AsignarNumeros.NumeradosContador | carrito/migrations/0015_asignar_numeros_unicos_pedidos.py:12-15 | the counter of the order at 0-based position i is `Contador(i + 1)`: it starts at 1 and goes up by one per order in iteration order |
| AsignarNumeros.NumeradosUnicos | carrito/migrations/0015_asignar_numeros_unicos_pedidos.py:12-16 | no two orders get the same number |
| AsignarNumeros.TablaPedidos.AsignarNumerosUnicos | carrito/migrations/0015_asignar_numeros_unicos_pedidos.py:12-16 | the enumerate loop leaves the table equal to `Numerados` of the old table, with the clock read once per order |
| AsignarNumeros.TablaPedidos.constructor | carrito/migrations/0015_asignar_numeros_unicos_pedidos.py:12 | the table holds the orders the migration reads |
| VariantesDebug.Valores | test_variantes_debug.py:33-34 | a value is listed iff some variant has it and it is truthy (not None, not "") |
| VariantesDebug.Unicos | test_variantes_debug.py:34-36 | the first-occurrence reference list holds exactly the values of its input |
| VariantesDebug.UnicosSinRepetidos | test_variantes_debug.py:34-36 | the reference list has no repeats, and it starts with the first value of its input |
| VariantesDebug.UnicosOrden | test_variantes_debug.py:34-36 | the reference list orders values by their first occurrence in the input |
| VariantesDebug.Disponibles | test_variantes_debug.py:26-36 | the reference list: a truthy base then the truthy variant values, each kept the first time it occurs; `DisponiblesCorrecto` states its order and its lack of repeats, and `Recolectar` is computed against it |
| VariantesDebug.DisponiblesCorrecto | test_variantes_debug.py:26-36 | a truthy base size comes first; no falsy value is listed; nothing is listed twice; values appear in order of first occurrence; every truthy variant value is listed; every listed value is the base or a variant's value |
| VariantesDebug.PasoLista | test_variantes_debug.py:33-36 | one turn of the loop appends the variant's value exactly when it is truthy and not yet listed |
| VariantesDebug.Recolectar | test_variantes_debug.py:26-48 | the shared loop returns the reference list `Disponibles` of the base and the variant values |
| VariantesDebug.TallasDisponibles | test_variantes_debug.py:26-36 | `tallas_disponibles` is the reference list over the base size and the variants' sizes |
| VariantesDebug.ColoresDisponibles | test_variantes_debug.py:38-48 | `colores_disponibles` is the reference list over the base colour and the variants' colours |
| Text.Lower | resolver_conflictos.py:25-29 | `str.lower` keeps the length and lowers each Latin-1 capital letter by one position of 32, leaving every other character |
| Text.Upper | pagos/utils.py:77-79 | `str.upper` never shortens a string |
| Text.UpperAppend | pagos/utils.py:77-79 | upper-casing a concatenation upper-cases each part |
| Text.UpperIdempotent | dashboard/management/commands/generar_imagenes_ia.py:122 | upper-casing twice is upper-casing once |
| Text.UpperOfLower | dashboard/management/commands/generar_imagenes_ia.py:120-122 | lower-casing before upper-casing does not change the upper case |
| Text.UpperOfUpperHex | dashboard/management/commands/generar_imagenes_ia.py:122 | a colour code of digits, capital letters and '#' is its own upper case |
| Text.PyStrip | resolver_conflictos.py:21-22 | `str.strip()` never lengthens a string |
| Text.PyStripOfUnpadded | resolver_conflictos.py:21-22 | a string with no leading or trailing whitespace is its own strip |
| Text.JsTrim | core/static/js/optimizaciones.js:101 | `trim()` never lengthens a string |
| Text.StripLeft | resolver_conflictos.py:21-22 | stripping the left removes exactly the leading whitespace: a suffix remains that starts with a non-space, and everything removed was whitespace |
| Text.StripRight | resolver_conflictos.py:21-22 | stripping the right removes exactly the trailing whitespace: a prefix remains that ends with a non-space, and everything removed was whitespace |
| Text.FindFrom | resolver_conflictos.py:37 | the search gives the first position from the start index where the needle occurs, or -1 exactly when it occurs nowhere from there |
| Text.Split | core/static/js/optimizaciones.js:99 | splitting on a character gives at least one piece, and no piece contains the separator |
| Text.JoinSplit | pagos/utils.py:61 | joining the pieces of a split on the same separator gives back the original string |
| Text.RemoveChar | dashboard/management/commands/generar_imagenes_ia.py:181 | `replace(c, "")` leaves no occurrence of c and never lengthens the string |
| Text.NatToString | carrito/migrations/0015_asignar_numeros_unicos_pedidos.py:15 | `str(n)` of a natural number is one or more digits, exactly one when n is below 10 |
| Text.IntToString | pagos/utils.py:37 | `str(i)` is digits, with a leading '-' exactly when i is negative |
| Text.DigitsValueOfNatToString | carrito/migrations/0015_asignar_numeros_unicos_pedidos.py:15 | the digits of `str(n)` read back as n |
| Text.NatToStringInjective | carrito/migrations/0015_asignar_numeros_unicos_pedidos.py:15 | distinct numbers have distinct decimal renderings |
| Text.IntToStringInjective | pagos/utils.py:37 | distinct integers have distinct renderings |
| Text.ParseDigitsOfNat | carrito/views.py:29 | the rendering of a natural number is a valid digit group for `int` and reads back as the number |
| Text.ParseUnpadded | carrito/views.py:29 | on a string without surrounding whitespace, `int` reads the sign and digits directly |
| Text.ParseNatToString | carrito/views.py:29 | `int(str(n)) == n` for a natural number |
| Text.ParseDecimalIntOfIntToString | carrito/views.py:29 | `int(str(i)) == i` for every integer |
| Text.ZFill | carrito/migrations/0015_asignar_numeros_unicos_pedidos.py:15 | `zfill(width)` gives a string of length max(len, width) that ends with the original and is '0' before it |
| Text.DigitsValueLeadingZeros | carrito/migrations/0015_asignar_numeros_unicos_pedidos.py:15 | leading zeros do not change the value of a digit string |
| Text.ZFillDigits | carrito/migrations/0015_asignar_numeros_unicos_pedidos.py:15 | `zfill` of a digit string stays all digits and keeps its value |
| Text.ZFillNatToString | carrito/migrations/0015_asignar_numeros_unicos_pedidos.py:15 | a padded number is all digits and reads back as the number, so distinct numbers stay distinct once padded |
| Json.Lookup | pagos/utils.py:64 | a key has a value exactly when the object has that key |
| Json.LookupUnique | pagos/utils.py:64 | in a dict, whose keys are unique, every entry is the value its key looks up |
| Json.Index | pagos/utils.py:64 | `v[key]` succeeds exactly on a dict with that key; a dict without it raises KeyError, and any other value raises TypeError |
| Json.Iterate | pagos/models.py:64 | a `for` loop runs over a list's items, a string's characters or a dict's keys, one step per element, and raises TypeError on anything else |
| Json.Get | pagos/models.py:58 | `get(key, default)` works exactly on a dict: the key's value when present, otherwise the default; other values raise AttributeError |

## Left out

- Optimizaciones.VirtualScroll.constructor: requires a positive row height; with a zero or negative `itemHeight` the browser divides to Infinity or NaN, and these are not modelled.
- Optimizaciones.VirtualScroll.RenderEn: requires the same positive row height, for the same reason.
- Optimizaciones.Render: requires the same positive row height, for the same reason.
- HTML rendering, the DOM, CSS classes and `innerHTML` are not modelled. A view records only what each block shows. The carousels' click, mouse and touch listeners are the methods they call; the touch coordinates, the window width and the first slide's `offsetWidth` are parameters of each call.
- Timers are not modelled: `debounce`, the autoplay `setInterval`, the 600 ms transition timeout and the resize handler. Autoplay is a scheduled flag, and the end of a transition is an explicit step.
- `lazyLoadImages`, `preload` and `actualizarCarritoOptimizado` in `optimizaciones.js` are left out. They only drive the DOM, observers and timers. Of `createProductElement` only its TypeError on an undefined or null item is modelled, not the HTML it builds.
- `fetchWithCache` is modelled one call at a time. The interleaving of concurrent `async` calls on the same key is not modelled.
- JavaScript numbers are exact reals or integers here. Float rounding in the carousel offsets, the virtual-scroll arithmetic and `toLocaleString` is not modelled.
- The inventory modal's value total is the exact real sum of stock times price. No property beyond that definition is stated about it.
- The OpenCV post-processing after the HSV stage (`dashboard/sam_recolor.py:168-216`) is the opaque parameter `post`. It is float numerics over the whole image.
- The BGR to HSV conversion in `_hex_to_hsv` is the opaque parameter `hsvOf`.
- The segmentation model and the mask generator are parameters. Torch, GPU placement and `SamAutomaticMaskGenerator` are not modelled.
- Candidate masks are input data: a boolean raster plus an area.
- Image loading, the HTTP download, PNG encoding and the upload are parameters of the batch. `_detectar_categoria_producto` is not shown in the repository, so its result is an input.
- SHA-256 (FIPS 180-4) with `hexdigest` is the uninterpreted parameter `sha`. `consultar_transaccion`'s HTTP call (`pagos/utils.py:82-98`) is the parameter `fetchJson`.
- The clock and `random.choices` in `generar_referencia` are parameters.
- `pagina_pago` (`pagos/views.py:15-62`) and `historial_transacciones` (`pagos/views.py:204-214`) are left out. They only render templates and print.
- The float conversion `int(float(total) * 100)` in the checkout is modelled on exact reals with truncation toward zero. Binary float rounding is not modelled.
- Decimal prices are exact reals.
- PagosModels.NuevaTransaccion: the `max_length` of Transaccion's CharFields and the `max_digits` of its DecimalField (`pagos/models.py:20-38`) are not checked. A longer text or a wider amount, which PostgreSQL refuses with a DataError on save, is stored as given. The same holds for the updates in PagosViews.ActualizarDesdeWompi and PagosViews.ActualizarDesdeEvento.
- ImageBatch.SelectVariants: a negative `--limit` is not modelled, since `Options.limit` is a `nat`. The command slices the queryset with it (`dashboard/management/commands/generar_imagenes_ia.py:75-76`), and Django raises on negative indexing.
- PagosViews.PedidoDeLinea: a 'producto_id' outside the 32-bit range is treated as a product that does not exist. The lookup is not modelled as raising.
- SamRecolor.ParseComponent: a negative pair such as "-1" is modelled as a failure (`OutOfByte`). This follows `np.uint8([[[b, g, r]]])` (`dashboard/sam_recolor.py:95-97`) on NumPy 2 or later, where an out-of-range Python int raises. Older NumPy wraps the value modulo 256 and goes on with that colour, which the model does not capture.
- SamRecolor.UpdatePixel: the float HSV arithmetic and the `astype(np.uint8)` conversion after it (`dashboard/sam_recolor.py:127-168`) are exact reals here. Float rounding, the float precision of the mean and the truncation to uint8 are not modelled. SamRecolor.StagedHsv and SamRecolor.HsvStage are stated on the same exact values.
- Query results are taken in table order. Where a queryset has no `order_by`, the database's row order is an input of the model, not something it derives.
- The Django ORM, `messages`, redirects and templates are not modelled. Tables are sequences or maps, and responses are datatypes naming the page or status.
- Producto and Pedido are declared in `carrito/models.py:7-30`, but the code that uses them follows another schema. `pagos/views.py:164` and `348` import Producto from `core.models`, which declares none, so under the shown files that import raises ImportError. Those views create Pedido with `usuario=`, while the shown Pedido names its user foreign key `UsuarioPersonalizado`, so that `create` raises TypeError. The model follows the schema the views, the dashboard and migration 0015 imply: Producto, Pedido (with its `usuario`, `estado`, `total` and `numero` fields), ProductoVariante and the image cache are records of the fields the code reads, and so are Reporte and Incidencia.
- ItemCarrito's `talla` is modelled as an optional field. The shown `carrito/models.py` does not declare it, but the views and scripts filter by it.
- `lista_productos`, `producto`, `add_to_cart` and the rendering of `ver_carrito` in `carrito/views.py` are left out. They render templates or change no state.
- The database CHECK behind `PositiveIntegerField` and the 32-bit range of PostgreSQL integer columns are modelled as refused saves (an `IntegrityError` or a `DataError`, answered as a server error in the cart views). Database transactions and autocommit beyond that are not modelled.
- `actualizar_stock_productos` and the `toggle_favorito` view are not part of the shown source, so they are not modelled.
- The Polars and xlsxwriter exports and the DataFrame group-bys of `dashboard/utils.py:44-71`, `102-115` and `200-347` are left out. The row selections that feed them are modelled, and so are the counts over those selections.
- `tiempo_transcurrido`'s last branch takes the strftime text of the instant as an input.
- AsignarNumeros.FechaOchoDigitos: the eight-digit date is proved only for years 1000 to 9999. Earlier years are rendered unpadded, as glibc's `%Y` does, and give shorter numbers.
- `datetime.now()` in the migration is the parameter `reloj`, read once per order.
- `main` in `resolver_conflictos.py` (lines 41-66) is left out, except for its skip test. It does file I/O and printing.
- Case mapping is exact on the code points U+0000 to U+00FF, and other code points are left unchanged. This is exact for the needles 'carousel' and 'favorito'.
- `int(...)` on request fields reads ASCII digits with an optional sign, surrounding whitespace and underscores between digit groups. Other Unicode decimal digits are not modelled.
- The copies of the dedup loop in `test_debug.py` and `debug_colores.py` are modelled once, as `VariantesDebug.Recolectar`.
