/**
  The Wompi payment-gateway helpers of pagos/utils.py: the base URL per
  environment, the transaction reference, the integrity signature sent
  with a checkout, and the checksum check of a webhook event.

  SHA-256 (FIPS 180-4) followed by hexdigest is the uninterpreted
  parameter `sha`; the clock and the random choices are parameters too.
*/
module WompiUtils {
  import opened Wrappers
  import opened Text
  import opened Json

  // ===== get_base_url ===================================================

  const BaseUrlTest := "https://sandbox.wompi.co/v1"
  const BaseUrlProd := "https://production.wompi.co/v1"

  /** The sandbox URL exactly when WOMPI_ENV is 'TEST', production otherwise. */
  function GetBaseUrl(wompiEnv: string): (url: string)
    ensures url == BaseUrlTest <==> wompiEnv == "TEST"
    ensures url == BaseUrlProd <==> wompiEnv != "TEST"
  {
    assert BaseUrlTest[8] != BaseUrlProd[8];
    if wompiEnv == "TEST" then BaseUrlTest else BaseUrlProd
  }

  // ===== generar_referencia =============================================

  /** The local time datetime.now() answers. */
  datatype DateTime = DateTime(year: nat, month: nat, day: nat, hour: nat, minute: nat, second: nat)

  predicate ValidDateTime(t: DateTime) {
    1000 <= t.year <= 9999 && 1 <= t.month <= 12 && 1 <= t.day <= 31
    && t.hour < 24 && t.minute < 60 && t.second < 60
  }

  /** Two decimal digits, zero-padded (strftime's %m, %d, %H, %M, %S). */
  function Pad2(n: nat): (s: string)
    requires n < 100
    ensures |s| == 2 && IsAsciiDigit(s[0]) && IsAsciiDigit(s[1])
  {
    [DigitChar(n / 10), DigitChar(n % 10)]
  }

  lemma {:induction false} Pad2Injective(a: nat, b: nat)
    requires a < 100 && b < 100 && Pad2(a) == Pad2(b)
    ensures a == b
  {
    assert DigitChar(a / 10) == Pad2(a)[0] == Pad2(b)[0] == DigitChar(b / 10);
    assert DigitChar(a % 10) == Pad2(a)[1] == Pad2(b)[1] == DigitChar(b % 10);
  }

  /** strftime('%Y%m%d%H%M%S'). */
  function Timestamp(t: DateTime): (s: string)
    requires ValidDateTime(t)
    ensures |s| == 14 && forall i :: 0 <= i < 14 ==> IsAsciiDigit(s[i])
  {
    Pad2(t.year / 100) + Pad2(t.year % 100) + Pad2(t.month) + Pad2(t.day)
    + Pad2(t.hour) + Pad2(t.minute) + Pad2(t.second)
  }

  /** Different instants give different timestamps. */
  lemma {:induction false} TimestampInjective(a: DateTime, b: DateTime)
    requires ValidDateTime(a) && ValidDateTime(b) && Timestamp(a) == Timestamp(b)
    ensures a == b
  {
    var s, t := Timestamp(a), Timestamp(b);
    assert s[0..2] == Pad2(a.year / 100) && t[0..2] == Pad2(b.year / 100);
    assert s[2..4] == Pad2(a.year % 100) && t[2..4] == Pad2(b.year % 100);
    assert s[4..6] == Pad2(a.month) && t[4..6] == Pad2(b.month);
    assert s[6..8] == Pad2(a.day) && t[6..8] == Pad2(b.day);
    assert s[8..10] == Pad2(a.hour) && t[8..10] == Pad2(b.hour);
    assert s[10..12] == Pad2(a.minute) && t[10..12] == Pad2(b.minute);
    assert s[12..14] == Pad2(a.second) && t[12..14] == Pad2(b.second);
    Pad2Injective(a.year / 100, b.year / 100);
    Pad2Injective(a.year % 100, b.year % 100);
    Pad2Injective(a.month, b.month);
    Pad2Injective(a.day, b.day);
    Pad2Injective(a.hour, b.hour);
    Pad2Injective(a.minute, b.minute);
    Pad2Injective(a.second, b.second);
  }

  /** Character `k` of string.ascii_uppercase + string.digits. */
  function RefChar(k: nat): (c: char)
    requires k < 36
    ensures 'A' <= c <= 'Z' || IsAsciiDigit(c)
  {
    if k < 26 then ('A' as int + k) as char else ('0' as int + k - 26) as char
  }

  /** The six random choices of random.choices(..., k=6), as positions in the alphabet. */
  predicate ValidPicks(picks: seq<nat>) {
    |picks| == 6 && forall i :: 0 <= i < 6 ==> picks[i] < 36
  }

  /** "REF_" + timestamp + "_" + six characters drawn from [A-Z0-9]. */
  function GenerarReferencia(now: DateTime, picks: seq<nat>): (r: string)
    requires ValidDateTime(now) && ValidPicks(picks)
    ensures |r| == 25 && r[..4] == "REF_" && r[18] == '_'
    ensures r[4..18] == Timestamp(now)
    ensures forall i :: 19 <= i < 25 ==> 'A' <= r[i] <= 'Z' || IsAsciiDigit(r[i])
  {
    var suffix := seq(6, i requires 0 <= i < 6 => RefChar(picks[i]));
    var r := "REF_" + Timestamp(now) + "_" + suffix;
    assert forall i :: 19 <= i < 25 ==> r[i] == suffix[i - 19];
    r
  }

  /** A reference determines the instant and the random choices it was made
      from: two references collide only when clock and choices coincide. */
  lemma {:induction false} GenerarReferenciaInjective(t1: DateTime, p1: seq<nat>, t2: DateTime, p2: seq<nat>)
    requires ValidDateTime(t1) && ValidPicks(p1) && ValidDateTime(t2) && ValidPicks(p2)
    requires GenerarReferencia(t1, p1) == GenerarReferencia(t2, p2)
    ensures t1 == t2 && p1 == p2
  {
    var r := GenerarReferencia(t1, p1);
    TimestampInjective(t1, t2);
    forall i | 0 <= i < 6 ensures p1[i] == p2[i] {
      assert RefChar(p1[i]) == r[19 + i] == RefChar(p2[i]);
    }
  }

  // ===== generar_firma_integridad =======================================

  const DefaultMoneda := "COP"

  /** Python's int(x) on a number: truncation toward zero. */
  function TruncToInt(x: real): (n: int)
    ensures 0.0 <= x ==> n as real <= x < n as real + 1.0
    ensures x < 0.0 ==> n as real - 1.0 < x <= n as real
  {
    if x >= 0.0 then x.Floor else -((-x).Floor)
  }

  /** The signed text: reference, amount in cents with no decimals, currency
      and the integrity secret, in that order. */
  function IntegrityString(referencia: string, montoEnCentavos: real, moneda: string, integritySecret: string)
    : (s: string)
    ensures var tail := moneda + integritySecret;
      && |s| > |referencia| + |tail|
      && s[..|referencia|] == referencia
      && s[|s| - |tail|..] == tail
      && (IsAsciiDigit(s[|referencia|]) || s[|referencia|] == '-')
      && forall k :: |referencia| < k < |s| - |tail| ==> IsAsciiDigit(s[k])
  {
    var amount := IntToString(TruncToInt(montoEnCentavos));
    var s := referencia + amount + moneda + integritySecret;
    assert forall k :: |referencia| <= k < |referencia| + |amount| ==> s[k] == amount[k - |referencia|];
    assert s[|s| - |moneda + integritySecret|..] == moneda + integritySecret;
    s
  }

  /** generar_firma_integridad: the hex SHA-256 digest of the signed text. */
  function GenerarFirmaIntegridad(referencia: string, montoEnCentavos: real, moneda: string,
                                  integritySecret: string, sha: string -> string): string
  {
    sha(IntegrityString(referencia, montoEnCentavos, moneda, integritySecret))
  }

  /** Only the integer part of the amount is signed. */
  lemma {:induction false} FirmaIgnoresFraction(referencia: string, monto: real, moneda: string, secret: string,
                             sha: string -> string)
    ensures GenerarFirmaIntegridad(referencia, monto, moneda, secret, sha)
         == GenerarFirmaIntegridad(referencia, TruncToInt(monto) as real, moneda, secret, sha)
  {
    var n := TruncToInt(monto);
    assert TruncToInt(n as real) == n;
  }

  /** For a fixed reference, currency and secret, the signed text determines
      the amount in whole cents. */
  lemma {:induction false} IntegrityStringBindsAmount(referencia: string, m1: real, m2: real, moneda: string, secret: string)
    requires IntegrityString(referencia, m1, moneda, secret) == IntegrityString(referencia, m2, moneda, secret)
    ensures TruncToInt(m1) == TruncToInt(m2)
  {
    var a1, a2 := IntToString(TruncToInt(m1)), IntToString(TruncToInt(m2));
    var s1 := referencia + a1 + moneda + secret;
    var s2 := referencia + a2 + moneda + secret;
    assert s1 == IntegrityString(referencia, m1, moneda, secret);
    assert s2 == IntegrityString(referencia, m2, moneda, secret);
    assert |a1| == |a2|;
    assert a1 == s1[|referencia|..|referencia| + |a1|];
    assert a2 == s2[|referencia|..|referencia| + |a2|];
    IntToStringInjective(TruncToInt(m1), TruncToInt(m2));
  }

  // ===== verificar_firma_evento =========================================

  /** `valor = data; for key in keys: valor = valor[key]`. */
  function WalkPath(v: Json, keys: seq<string>): Result<Json, PyError>
    decreases |keys|
  {
    if keys == [] then Ok(v)
    else
      match Index(v, keys[0])
      case Err(e) => Err(e)
      case Ok(w) => WalkPath(w, keys[1..])
  }

  /** The text one property contributes: str() of the value at its dotted
      path; a property that is not a str has no .split. */
  function PropertyValue(data: Json, prop: Json, repr: Json -> string): Result<string, PyError> {
    if !prop.JStr? then Err(AttributeError)
    else
      match WalkPath(data, Split(prop.s, '.'))
      case Err(e) => Err(e)
      case Ok(v) => Ok(PyStr(v, repr))
  }

  /** The texts of the properties in order; the first failing one raises. */
  function PropertyValues(data: Json, props: seq<Json>, repr: Json -> string): (r: Result<seq<string>, PyError>)
    ensures r.Ok? ==> |r.value| == |props|
    ensures r.Ok? ==> forall i :: 0 <= i < |props| ==> PropertyValue(data, props[i], repr) == Ok(r.value[i])
    ensures r.Err? <==> exists i :: 0 <= i < |props| && PropertyValue(data, props[i], repr).Err?
    decreases |props|
  {
    if props == [] then Ok([])
    else
      match PropertyValues(data, props[..|props| - 1], repr)
      case Err(e) => Err(e)
      case Ok(vs) =>
        match PropertyValue(data, props[|props| - 1], repr)
        case Err(e) => Err(e)
        case Ok(v) => Ok(vs + [v])
  }

  /** The checksum string of an event: the values at signature.properties,
      then the timestamp, then the events secret, or the exception the
      lookups raise (signature, properties, timestamp and data are read in
      that order, then the properties are walked). */
  function EventString(evento: Json, eventsSecret: string, repr: Json -> string): Result<string, PyError> {
    match Index(evento, "signature")
    case Err(e) => Err(e)
    case Ok(sig) =>
      match Index(sig, "properties")
      case Err(e) => Err(e)
      case Ok(properties) =>
        match Index(evento, "timestamp")
        case Err(e) => Err(e)
        case Ok(timestamp) =>
          match Index(evento, "data")
          case Err(e) => Err(e)
          case Ok(data) =>
            match Iterate(properties)
            case Err(e) => Err(e)
            case Ok(props) =>
              match PropertyValues(data, props, repr)
              case Err(e) => Err(e)
              case Ok(vs) => Ok(Concat(vs + [PyStr(timestamp, repr)] + [eventsSecret]))
  }

  /** The verdict: the upper-cased digest of the checksum string against the
      upper-cased received checksum. */
  function VerifyEvent(checksum: string, evento: Json, eventsSecret: string,
                       sha: string -> string, repr: Json -> string): Result<bool, PyError>
  {
    match EventString(evento, eventsSecret, repr)
    case Err(e) => Err(e)
    case Ok(cadena) => Ok(Upper(sha(cadena)) == Upper(checksum))
  }

  /** A property that fails makes the whole list fail. */
  lemma {:induction false} PropertyValuesFails(data: Json, props: seq<Json>, i: nat, repr: Json -> string)
    requires i < |props| && PropertyValue(data, props[i], repr).Err?
    ensures PropertyValues(data, props, repr).Err?
    decreases |props|
  {
    if i < |props| - 1 {
      PropertyValuesFails(data, props[..|props| - 1], i, repr);
    }
  }

  /** The first failing property decides the exception raised. */
  lemma {:induction false} PropertyValuesPrefixErr(data: Json, props: seq<Json>, n: nat, repr: Json -> string)
    requires n <= |props| && PropertyValues(data, props[..n], repr).Err?
    ensures PropertyValues(data, props, repr) == PropertyValues(data, props[..n], repr)
    decreases |props| - n
  {
    if n < |props| {
      assert props[..n + 1][..n] == props[..n];
      PropertyValuesPrefixErr(data, props, n + 1, repr);
    } else {
      assert props[..n] == props;
    }
  }

  /** Walking one key further into a dict that lacks it raises KeyError. */
  lemma {:induction false} WalkPathMissingKey(v: Json, keys: seq<string>, key: string, w: Json)
    requires WalkPath(v, keys) == Ok(w) && w.JObj? && !HasKey(w.fields, key)
    ensures WalkPath(v, keys + [key]) == Err(KeyError(key))
    decreases |keys|
  {
    if keys == [] {
      assert WalkPath(w, [key]) == Err(KeyError(key));
      assert [] + [key] == [key];
    } else {
      assert (keys + [key])[0] == keys[0] && (keys + [key])[1..] == keys[1..] + [key];
      var next := Index(v, keys[0]);
      WalkPathMissingKey(next.value, keys[1..], key, w);
    }
  }

  /** A property whose path names a missing key makes the check raise: it
      never answers false for such an event. */
  lemma {:induction false} MissingKeyRaises(checksum: string, evento: Json, eventsSecret: string, sha: string -> string,
                         repr: Json -> string, data: Json, props: seq<Json>, i: nat)
    requires Index(evento, "data") == Ok(data)
    requires Index(evento, "signature").Ok? && Index(evento, "timestamp").Ok?
    requires Index(Index(evento, "signature").value, "properties").Ok?
    requires Iterate(Index(Index(evento, "signature").value, "properties").value) == Ok(props)
    requires i < |props| && props[i].JStr?
    requires WalkPath(data, Split(props[i].s, '.')).Err?
    ensures VerifyEvent(checksum, evento, eventsSecret, sha, repr).Err?
  {
    PropertyValuesFails(data, props, i, repr);
  }

  /** Round trip: the digest of the event's own checksum string passes, in
      the case hexdigest writes it, upper-cased, or lower-cased. */
  lemma {:induction false} VerifyRoundTrip(evento: Json, eventsSecret: string, sha: string -> string, repr: Json -> string)
    requires EventString(evento, eventsSecret, repr).Ok?
    ensures var d := sha(EventString(evento, eventsSecret, repr).value);
      && VerifyEvent(d, evento, eventsSecret, sha, repr) == Ok(true)
      && VerifyEvent(Upper(d), evento, eventsSecret, sha, repr) == Ok(true)
      && VerifyEvent(Lower(d), evento, eventsSecret, sha, repr) == Ok(true)
  {
    var d := sha(EventString(evento, eventsSecret, repr).value);
    UpperIdempotent(d);
    UpperOfLower(d);
  }

  /** The checksum string ends with the timestamp and the secret, after the
      property values in order. */
  lemma {:induction false} EventStringLayout(vs: seq<string>, timestamp: string, eventsSecret: string)
    ensures Concat(vs + [timestamp] + [eventsSecret]) == Concat(vs) + timestamp + eventsSecret
  {
    var a := vs + [timestamp];
    assert (a + [eventsSecret])[..|a|] == a;
    assert a[..|vs|] == vs;
  }

  /** The walk of one dotted path, as the inner loop does it. */
  method WalkMethod(data: Json, keys: seq<string>) returns (r: Result<Json, PyError>)
    ensures r == WalkPath(data, keys)
  {
    var valor := data;
    var j: nat := 0;
    while j < |keys|
      invariant j <= |keys|
      invariant WalkPath(data, keys) == WalkPath(valor, keys[j..])
    {
      assert keys[j..][0] == keys[j] && keys[j..][1..] == keys[j + 1..];
      var next := Index(valor, keys[j]);
      if next.Err? {
        return Err(next.error);
      }
      valor := next.value;
      j := j + 1;
    }
    assert keys[j..] == [];
    return Ok(valor);
  }

  /** verificar_firma_evento: the loops over the properties and their keys. */
  method VerificarFirmaEvento(checksumRecibido: string, evento: Json, eventsSecret: string,
                              sha: string -> string, repr: Json -> string) returns (r: Result<bool, PyError>)
    ensures r == VerifyEvent(checksumRecibido, evento, eventsSecret, sha, repr)
  {
    var sig := Index(evento, "signature");
    if sig.Err? { return Err(sig.error); }
    var properties := Index(sig.value, "properties");
    if properties.Err? { return Err(properties.error); }
    var timestamp := Index(evento, "timestamp");
    if timestamp.Err? { return Err(timestamp.error); }
    var data := Index(evento, "data");
    if data.Err? { return Err(data.error); }
    var props := Iterate(properties.value);
    if props.Err? { return Err(props.error); }
    var valores: seq<string> := [];
    var i: nat := 0;
    while i < |props.value|
      invariant i <= |props.value|
      invariant PropertyValues(data.value, props.value[..i], repr) == Ok(valores)
    {
      var prop := props.value[i];
      assert props.value[..i + 1][..i] == props.value[..i];
      if !prop.JStr? {
        PropertyValuesPrefixErr(data.value, props.value, i + 1, repr);
        return Err(AttributeError);
      }
      var valor := WalkMethod(data.value, Split(prop.s, '.'));
      if valor.Err? {
        PropertyValuesPrefixErr(data.value, props.value, i + 1, repr);
        return Err(valor.error);
      }
      valores := valores + [PyStr(valor.value, repr)];
      i := i + 1;
    }
    assert props.value[..i] == props.value;
    valores := valores + [PyStr(timestamp.value, repr)];
    valores := valores + [eventsSecret];
    var cadena := Concat(valores);
    var firmaCalculada := Upper(sha(cadena));
    return Ok(firmaCalculada == Upper(checksumRecibido));
  }
}
