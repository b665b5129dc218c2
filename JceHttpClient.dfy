/**
 * The HTTP client of the JCE portal: it splits the cédula into the three
 * query parameters, builds the query, sanitises the XML payload before
 * handing it to the deserialiser, and retries failed attempts.
 *
 * The network is a parameter: `upstream(url, k)` is what the portal answers
 * to the k-th request (counting from 0) for `url`, either a body or the
 * exception the transport raised (a per-attempt timeout included). The XML
 * deserialiser is a parameter too.
 */
module Client {
  import opened JavaText
  import opened Exceptions
  import opened Individuos

  const CEDULA_LONGITUD_MSG: string := "La cédula debe tener exactamente 11 dígitos"
  const XML_VACIO_MSG: string := "Respuesta XML vacía del portal JCE"
  const XML_ERROR_MSG: string := "Error procesando " + "respuesta del portal JCE"
  const TIMEOUT_MSG: string := "Timeout consultando el portal JCE" + " - Intente nuevamente"
  const CONNECT_MSG: string := "No se pudo conectar al portal JCE - Verifique su conexión"
  const BOM: char := '\U{FEFF}'

  /** The client's configuration; the retry bound defaults to 3. */
  datatype Config = Config(endpoint: string, serviceId: string, maxRetries: nat)

  /** What the portal answers to one request: a body, or the failure of the attempt. */
  datatype Outcome = Body(xml: string) | Failed(failure: Throwable)

  // ---------------------------------------------------------------------
  // Splitting the cédula and building the query
  // ---------------------------------------------------------------------

  datatype CedulaParts = CedulaParts(municipio: string, secuencia: string, verificador: string)

  /** The 3/7/1 split of an 11-character cédula; anything else is refused before any request. */
  function SplitCedula(cedula: JString): (r: Result<CedulaParts, Throwable>)
    ensures cedula.None? || |cedula.value| != 11 <==> r.Err?
    ensures r.Err? ==> r.error == IllegalArgument(Some(CEDULA_LONGITUD_MSG))
    ensures r.Ok? ==> |r.value.municipio| == 3 && |r.value.secuencia| == 7 && |r.value.verificador| == 1
    ensures r.Ok? ==> r.value.municipio + r.value.secuencia + r.value.verificador == cedula.value
  {
    if cedula.None? || |cedula.value| != 11 then Err(IllegalArgument(Some(CEDULA_LONGITUD_MSG)))
    else
      var c := cedula.value;
      assert c[0..3] + c[3..10] + c[10..11] == c;
      Ok(CedulaParts(c[0..3], c[3..10], c[10..11]))
  }

  /** The query path and string sent to the portal. */
  function BuildConsultaUrl(cfg: Config, p: CedulaParts): (url: string)
    ensures |url| == |cfg.endpoint| + |cfg.serviceId| + |p.municipio| + |p.secuencia| + |p.verificador| + 26
    ensures url[..|cfg.endpoint| + 11] == cfg.endpoint + "?ServiceID="
  {
    cfg.endpoint + "?ServiceID=" + cfg.serviceId + "&ID1=" + p.municipio + "&ID2=" + p.secuencia + "&ID3=" + p.verificador
  }

  /** Reads the cédula back from the fixed-width tail of a query built for an 11-character cédula. */
  function CedulaFromUrl(url: string): string
    requires |url| >= 26
  {
    url[|url| - 21..|url| - 18] + url[|url| - 13..|url| - 6] + url[|url| - 1..]
  }

  /** The query built for an 11-character cédula carries exactly that cédula. */
  lemma UrlRoundTrip(cfg: Config, cedula: string)
    requires |cedula| == 11
    ensures var parts := SplitCedula(Some(cedula)).value;
      var url := BuildConsultaUrl(cfg, parts);
      |url| >= 26 && CedulaFromUrl(url) == cedula
  {
    var p := SplitCedula(Some(cedula)).value;
    var head := cfg.endpoint + "?ServiceID=" + cfg.serviceId;
    var url := BuildConsultaUrl(cfg, p);
    assert url == head + ("&ID1=" + p.municipio + "&ID2=" + p.secuencia + "&ID3=" + p.verificador);
    var tail := "&ID1=" + p.municipio + "&ID2=" + p.secuencia + "&ID3=" + p.verificador;
    assert url == head + tail;
    assert |tail| == 26;
    assert url[|url| - 26..] == tail;
    assert tail[5..8] == p.municipio && tail[13..20] == p.secuencia && tail[25..] == p.verificador;
  }

  // ---------------------------------------------------------------------
  // XML sanitisation
  // ---------------------------------------------------------------------

  /** The control characters the cleaning deletes: all but tab, newline and carriage return, plus DEL. */
  predicate IsXmlControl(c: char)
  {
    (c as int <= 0x08) || c as int == 0x0B || c as int == 0x0C || (0x0E <= c as int <= 0x1F) || c as int == 0x7F
  }

  predicate NoXmlControls(s: string)
  {
    forall i :: 0 <= i < |s| ==> !IsXmlControl(s[i])
  }

  function RemoveControls(s: string): (r: string)
    ensures NoXmlControls(r) && |r| <= |s|
    ensures NoXmlControls(s) ==> r == s
  {
    if |s| == 0 then ""
    else if IsXmlControl(s[0]) then RemoveControls(s[1..])
    else [s[0]] + RemoveControls(s[1..])
  }

  /** One leading byte-order mark is dropped. */
  function DropBom(s: string): (r: string)
    ensures |s| > 0 && s[0] == BOM ==> r == s[1..]
    ensures |s| == 0 || s[0] != BOM ==> r == s
  {
    if |s| > 0 && s[0] == BOM then s[1..] else s
  }

  /** `s` begins with one of the five predefined XML entity names followed by ';'. */
  predicate StartsEntity(s: string)
  {
    StartsWith(s, "amp;") || StartsWith(s, "lt;") || StartsWith(s, "gt;")
    || StartsWith(s, "quot;") || StartsWith(s, "apos;")
  }

  predicate StartsWith(s: string, p: string)
  {
    |p| <= |s| && s[..|p|] == p
  }

  /** Every '&' of `s` begins a predefined entity. */
  predicate WellEscaped(s: string)
  {
    forall i :: 0 <= i < |s| && s[i] == '&' ==> StartsEntity(s[i + 1..])
  }

  /** Every '&' that does not begin a predefined entity in the input becomes "&amp;". */
  function EscapeAmp(s: string): (r: string)
    ensures |r| >= |s|
  {
    if |s| == 0 then ""
    else if s[0] == '&' && !StartsEntity(s[1..]) then "&amp;" + EscapeAmp(s[1..])
    else [s[0]] + EscapeAmp(s[1..])
  }

  /** trim, drop one leading BOM, delete control characters, escape stray ampersands. */
  function CleanXmlContent(xml: JString): (r: JString)
    ensures r.None? <==> xml.None?
  {
    if xml.None? then None
    else Some(EscapeAmp(RemoveControls(DropBom(Trim(xml.value)))))
  }

  /** Text without '&' passes through escaping unchanged, also in front of more text. */
  lemma {:induction false} EscapePrefix(e: string, t: string)
    requires NoChar(e, '&')
    ensures EscapeAmp(e + t) == e + EscapeAmp(t)
  {
    if |e| > 0 {
      assert (e + t)[1..] == e[1..] + t;
      EscapePrefix(e[1..], t);
      assert e + EscapeAmp(t) == [e[0]] + (e[1..] + EscapeAmp(t));
    } else {
      assert e + t == t;
    }
  }

  /** Escaping adds only the characters of "amp;", so it keeps text free of controls. */
  lemma {:induction false} EscapeKeepsNoControls(s: string)
    requires NoXmlControls(s)
    ensures NoXmlControls(EscapeAmp(s))
  {
    if |s| > 0 {
      EscapeKeepsNoControls(s[1..]);
      var rest := EscapeAmp(s[1..]);
      if s[0] == '&' && !StartsEntity(s[1..]) {
        assert EscapeAmp(s) == "&amp;" + rest;
      } else {
        assert EscapeAmp(s) == [s[0]] + rest;
      }
    }
  }

  /** An entity name at the front survives escaping of the text behind the '&'. */
  lemma EscapeKeepsEntity(s: string)
    requires StartsEntity(s)
    ensures StartsEntity(EscapeAmp(s))
  {
    var e := if StartsWith(s, "amp;") then "amp;" else if StartsWith(s, "lt;") then "lt;"
             else if StartsWith(s, "gt;") then "gt;" else if StartsWith(s, "quot;") then "quot;" else "apos;";
    assert StartsWith(s, e);
    assert s == e + s[|e|..];
    EscapePrefix(e, s[|e|..]);
    assert EscapeAmp(s)[..|e|] == e;
  }

  /** After escaping, every '&' begins a predefined entity. */
  lemma {:induction false} EscapeWellEscaped(s: string)
    ensures WellEscaped(EscapeAmp(s))
  {
    if |s| > 0 {
      EscapeWellEscaped(s[1..]);
      var rest := EscapeAmp(s[1..]);
      var r := EscapeAmp(s);
      if s[0] == '&' && !StartsEntity(s[1..]) {
        assert r == "&amp;" + rest;
        assert StartsWith(r[1..], "amp;");
        forall i | 0 <= i < |r| && r[i] == '&'
          ensures StartsEntity(r[i + 1..])
        {
          if i >= 5 {
            assert r[i + 1..] == rest[i - 4..];
          }
        }
      } else {
        assert r == [s[0]] + rest;
        if s[0] == '&' {
          EscapeKeepsEntity(s[1..]);
        }
        forall i | 0 <= i < |r| && r[i] == '&'
          ensures StartsEntity(r[i + 1..])
        {
          if i >= 1 {
            assert r[i + 1..] == rest[i..];
          }
        }
      }
    }
  }

  /**
   * Deleting control characters works character by character: it
   * distributes over concatenation, so every other character survives, in
   * order.
   */
  lemma {:induction false} RemoveControlsConcat(a: string, b: string)
    ensures RemoveControls(a + b) == RemoveControls(a) + RemoveControls(b)
  {
    if |a| > 0 {
      assert (a + b)[0] == a[0];
      assert (a + b)[1..] == a[1..] + b;
      RemoveControlsConcat(a[1..], b);
    } else {
      assert a + b == b;
    }
  }

  /** One character is deleted exactly when it is a deletable control character. */
  lemma RemoveControlsChar(c: char)
    ensures RemoveControls([c]) == if IsXmlControl(c) then [] else [c]
  {
  }

  /** An '&' that begins a predefined entity is kept, and escaping goes on behind it. */
  lemma EscapeKeepsEntityAmp(t: string)
    requires StartsEntity(t)
    ensures EscapeAmp("&" + t) == "&" + EscapeAmp(t)
  {
    assert ("&" + t)[1..] == t;
  }

  /** Any other '&' becomes "&amp;", and escaping goes on behind it. */
  lemma EscapeStrayAmp(t: string)
    requires !StartsEntity(t)
    ensures EscapeAmp("&" + t) == "&amp;" + EscapeAmp(t)
  {
    assert ("&" + t)[1..] == t;
  }

  /** Well-escaped text is left alone, so escaping twice is escaping once. */
  lemma {:induction false} EscapeFixesWellEscaped(s: string)
    requires WellEscaped(s)
    ensures EscapeAmp(s) == s
  {
    if |s| > 0 {
      assert WellEscaped(s[1..]) by {
        forall i | 0 <= i < |s[1..]| && s[1..][i] == '&'
          ensures StartsEntity(s[1..][i + 1..])
        {
          assert s[1..][i + 1..] == s[i + 2..];
        }
      }
      EscapeFixesWellEscaped(s[1..]);
    }
  }

  lemma EscapeIdempotent(s: string)
    ensures EscapeAmp(EscapeAmp(s)) == EscapeAmp(s)
  {
    EscapeWellEscaped(s);
    EscapeFixesWellEscaped(EscapeAmp(s));
  }

  /** The cleaned payload has no deletable control character and no stray ampersand. */
  lemma CleanXmlGuarantees(xml: string)
    ensures var r := CleanXmlContent(Some(xml)).value;
      NoXmlControls(r) && WellEscaped(r) && NoBareControls(r)
  {
    var c := RemoveControls(DropBom(Trim(xml)));
    EscapeKeepsNoControls(c);
    EscapeWellEscaped(c);
    var r := EscapeAmp(c);
    forall i | 0 <= i < |r| && r[i] <= ' '
      ensures IsWhitespace(r[i])
    {
      assert !IsXmlControl(r[i]);
    }
  }

  /**
   * On a payload with nothing to trim and no leading mark, cleaning is the
   * deletion of the control characters followed by the escaping of the
   * stray ampersands, so the two lemma families above describe its content.
   */
  lemma CleanXmlFramed(xml: string)
    requires IsTrimmed(xml) && (|xml| == 0 || xml[0] != BOM)
    ensures CleanXmlContent(Some(xml)) == Some(EscapeAmp(RemoveControls(xml)))
  {
    TrimOfTrimmed(xml);
  }

  /**
   * Cleaning a framed payload piece by piece: a control character between
   * two pieces is deleted, and the pieces are cleaned as if apart, provided
   * the first piece has no '&' (whose escaping could look past the cut).
   */
  lemma CleanXmlDeletesControl(a: string, c: char, b: string)
    requires IsXmlControl(c) && NoChar(a, '&')
    requires IsTrimmed(a + [c] + b) && (|a + [c] + b| == 0 || (a + [c] + b)[0] != BOM)
    ensures CleanXmlContent(Some(a + [c] + b)) == Some(RemoveControls(a) + EscapeAmp(RemoveControls(b)))
  {
    CleanXmlFramed(a + [c] + b);
    RemoveControlsConcat(a + [c], b);
    RemoveControlsConcat(a, [c]);
    RemoveControlsChar(c);
    assert RemoveControls(a + [c]) == RemoveControls(a);
    NoCharRemoved(a, '&');
    EscapePrefix(RemoveControls(a), RemoveControls(b));
  }

  /** Deleting characters cannot introduce one. */
  lemma {:induction false} NoCharRemoved(a: string, ch: char)
    requires NoChar(a, ch)
    ensures NoChar(RemoveControls(a), ch)
  {
    if |a| > 0 {
      assert NoChar(a[1..], ch);
      NoCharRemoved(a[1..], ch);
    }
  }

  /** The first '&' of a text is escaped exactly when no entity name follows it. */
  lemma EscapeAroundAmp(a: string, t: string)
    requires NoChar(a, '&')
    ensures EscapeAmp(a + "&" + t) == a + (if StartsEntity(t) then "&" else "&amp;") + EscapeAmp(t)
  {
    assert a + "&" + t == a + ("&" + t);
    EscapePrefix(a, "&" + t);
    if StartsEntity(t) {
      EscapeKeepsEntityAmp(t);
    } else {
      EscapeStrayAmp(t);
    }
  }

  /**
   * In a framed, control-free payload, the first '&' becomes "&amp;" when
   * no entity name follows it; the text before it is kept as it is.
   */
  lemma CleanXmlEscapesStrayAmp(a: string, t: string)
    requires NoChar(a, '&') && !StartsEntity(t) && NoXmlControls(a + "&" + t)
    requires IsTrimmed(a + "&" + t) && (|a + "&" + t| == 0 || (a + "&" + t)[0] != BOM)
    ensures CleanXmlContent(Some(a + "&" + t)) == Some(a + "&amp;" + EscapeAmp(t))
  {
    var x := a + "&" + t;
    CleanXmlFramed(x);
    assert RemoveControls(x) == x;
    EscapeAroundAmp(a, t);
  }

  /**
   * In a framed, control-free payload, the first '&' is kept when an entity
   * name follows it; the text before it is kept as it is.
   */
  lemma CleanXmlKeepsEntity(a: string, t: string)
    requires NoChar(a, '&') && StartsEntity(t) && NoXmlControls(a + "&" + t)
    requires IsTrimmed(a + "&" + t) && (|a + "&" + t| == 0 || (a + "&" + t)[0] != BOM)
    ensures CleanXmlContent(Some(a + "&" + t)) == Some(a + "&" + EscapeAmp(t))
  {
    var x := a + "&" + t;
    CleanXmlFramed(x);
    assert RemoveControls(x) == x;
    EscapeAroundAmp(a, t);
  }

  /** Text that is already trimmed, unmarked, control-free and well escaped comes out unchanged. */
  lemma CleanXmlFixesCleanText(xml: string)
    requires IsTrimmed(xml) && (|xml| == 0 || xml[0] != BOM) && NoXmlControls(xml) && WellEscaped(xml)
    ensures CleanXmlContent(Some(xml)) == Some(xml)
  {
    EscapeFixesWellEscaped(xml);
  }

  /** Trimming happens before the mark is dropped, so a space behind the mark survives. */
  lemma CleanXmlKeepsSpaceAfterBom()
    ensures CleanXmlContent(Some([BOM] + " <a/>")) == Some(" <a/>")
  {
    var s := [BOM] + " <a/>";
    assert IsTrimmed(s);
    assert DropBom(s) == " <a/>";
    assert NoXmlControls(" <a/>");
    EscapePrefix(" <a/>", "");
    assert " <a/>" + "" == " <a/>";
  }

  // ---------------------------------------------------------------------
  // Parsing
  // ---------------------------------------------------------------------

  /**
   * A null or trim-empty payload is refused before parsing; otherwise the
   * cleaned payload is parsed. Every failure, the refusal included, is
   * wrapped in one RuntimeException with a fixed message.
   */
  function ParseXmlResponse(xml: JString, parse: string -> Result<Individuo, Throwable>): (r: Result<Individuo, Throwable>)
    ensures xml.None? || Trim(xml.value) == "" ==>
      r == Err(Runtime(Some(XML_ERROR_MSG), Some(Runtime(Some(XML_VACIO_MSG), None))))
    ensures xml.Some? && Trim(xml.value) != "" ==>
      match parse(CleanXmlContent(xml).value)
      case Ok(ind) => r == Ok(ind)
      case Err(t) => r == Err(Runtime(Some(XML_ERROR_MSG), Some(t)))
    ensures r.Err? ==> Message(r.error) == Some(XML_ERROR_MSG)
  {
    if xml.None? || Trim(xml.value) == "" then
      Err(Runtime(Some(XML_ERROR_MSG), Some(Runtime(Some(XML_VACIO_MSG), None))))
    else
      match parse(CleanXmlContent(xml).value)
      case Ok(ind) => Ok(ind)
      case Err(t) => Err(Runtime(Some(XML_ERROR_MSG), Some(t)))
  }

  // ---------------------------------------------------------------------
  // Error classification
  // ---------------------------------------------------------------------

  /** Network failures, timeouts and 5xx responses are worth another attempt. */
  function ShouldRetry(t: Throwable): (b: bool)
    ensures t.WebClientResponse? ==> (b <==> 500 <= t.status <= 599)
    ensures b ==> !t.Api? && !t.Runtime? && !t.IllegalArgument? && !t.Other?
  {
    t.Timeout? || t.Connect? || t.SocketTimeout? || (t.WebClientResponse? && 500 <= t.status <= 599)
  }

  /**
   * An HTTP error response is retryable exactly for a 5xx status, so no 4xx
   * answer is retried; the translated and domain errors never are.
   */
  lemma ShouldRetryTable(status: int, name: JString, m: JString, cause: Option<Throwable>, e: ApiException)
    ensures ShouldRetry(WebClientResponse(status, name, m)) <==> 500 <= status <= 599
    ensures 400 <= status <= 499 ==> !ShouldRetry(WebClientResponse(status, name, m))
    ensures ShouldRetry(Timeout(m)) && ShouldRetry(Connect(m)) && ShouldRetry(SocketTimeout(m))
    ensures !ShouldRetry(Runtime(m, cause)) && !ShouldRetry(IllegalArgument(m)) && !ShouldRetry(Api(e))
  {
  }

  /** How an HTTP status code prints: the number, then its name when it has one. */
  function StatusCodeText(status: int, name: JString): (r: string)
    ensures |ShowLong(status)| <= |r| && r[..|ShowLong(status)|] == ShowLong(status)
    ensures LONG_MIN <= status <= LONG_MAX ==> ParseLong(r[..|ShowLong(status)|]) == Some(status)
  {
    var r := ShowLong(status) + (if name.Some? then " " + name.value else "");
    assert r[..|ShowLong(status)|] == ShowLong(status);
    assert LONG_MIN <= status <= LONG_MAX ==> ParseLong(ShowLong(status)) == Some(status) by {
      if LONG_MIN <= status <= LONG_MAX {
        ParseShowLong(status);
      }
    }
    r
  }

  /** The message that replaces an HTTP error response of the portal. */
  function HttpErrorMessage(status: int, name: JString): (m: string)
    ensures status !in {400, 404, 429, 500, 502, 503, 504} ==>
      m == "Error HTTP " + StatusCodeText(status, name) + " del portal JCE"
  {
    match status
    case 400 => "Solicitud inválida al portal JCE - Parámetros incorrectos"
    case 404 => "Endpoint del portal JCE no encontrado"
    case 429 => "Límite de velocidad del portal JCE excedido"
    case 500 => "Error interno del portal JCE"
    case 502 => "Portal JCE no disponible (Bad Gateway)"
    case 503 => "Portal JCE temporalmente no disponible"
    case 504 => "Timeout comunicándose con el portal JCE"
    case _ => "Error HTTP " + StatusCodeText(status, name) + " del portal JCE"
  }

  /** An HTTP error response becomes a RuntimeException with a fixed message and the response as cause. */
  function HandleWebClientError(ex: Throwable): (r: Throwable)
    requires ex.WebClientResponse?
    ensures r == Runtime(Some(HttpErrorMessage(ex.status, ex.statusName)), Some(ex))
    ensures !ShouldRetry(r)
  {
    Runtime(Some(HttpErrorMessage(ex.status, ex.statusName)), Some(ex))
  }

  /** Timeouts and connection failures get a business message; everything else passes unchanged. */
  function MapToBusinessException(t: Throwable): (r: Throwable)
    ensures t.Timeout? ==> r == Runtime(Some(TIMEOUT_MSG), Some(t))
    ensures t.Connect? ==> r == Runtime(Some(CONNECT_MSG), Some(t))
    ensures !t.Timeout? && !t.Connect? ==> r == t
  {
    if t.Timeout? then Runtime(Some(TIMEOUT_MSG), Some(t))
    else if t.Connect? then Runtime(Some(CONNECT_MSG), Some(t))
    else t
  }

  /** The error raised when the retries are used up; the last failure is its cause. */
  function Exhausted(maxRetries: nat, last: Throwable): (r: Throwable)
    ensures r.Runtime? && r.cause == Some(last) && !ShouldRetry(r)
    ensures r.message == Some("Consulta JCE falló después de " + Decimal(maxRetries) + " reintentos")
  {
    Runtime(Some("Consulta JCE falló después de " + Decimal(maxRetries) + " reintentos"), Some(last))
  }

  /** One attempt: HTTP error responses are translated at once, a body is parsed. */
  function AttemptResult(o: Outcome, parse: string -> Result<Individuo, Throwable>): (r: Result<Individuo, Throwable>)
    ensures o.Failed? && o.failure.WebClientResponse? ==> r == Err(HandleWebClientError(o.failure))
    ensures o.Failed? && !o.failure.WebClientResponse? ==> r == Err(o.failure)
    ensures o.Body? ==> r == ParseXmlResponse(Some(o.xml), parse)
  {
    match o
    case Failed(t) => if t.WebClientResponse? then Err(HandleWebClientError(t)) else Err(t)
    case Body(xml) => ParseXmlResponse(Some(xml), parse)
  }

  /**
   * The error of an attempt is retryable only for a transport failure: an
   * HTTP error response, 5xx included, has already been translated into a
   * RuntimeException when the retry decision sees it.
   */
  lemma AttemptRetryableOnlyForTransport(o: Outcome, parse: string -> Result<Individuo, Throwable>)
    ensures AttemptResult(o, parse).Err? && ShouldRetry(AttemptResult(o, parse).error) <==>
      o.Failed? && (o.failure.Timeout? || o.failure.Connect? || o.failure.SocketTimeout?)
  {
  }

  // ---------------------------------------------------------------------
  // The retry loop
  // ---------------------------------------------------------------------

  /**
   * What the retry policy makes of the attempts from number `i` on: the
   * first success or non-retryable error ends the run, and a retryable error
   * after `maxRetries` retries ends it with the exhaustion error. The second
   * component is how many attempts were made in total.
   */
  function RetryFrom(maxRetries: nat, attempt: nat -> Result<Individuo, Throwable>, i: nat)
    : (res: (Result<Individuo, Throwable>, nat))
    requires i <= maxRetries
    ensures i + 1 <= res.1 <= maxRetries + 1
    ensures res.0.Err? ==> !ShouldRetry(res.0.error)
    decreases maxRetries - i
  {
    var a := attempt(i);
    if a.Ok? || !ShouldRetry(a.error) then (a, i + 1)
    else if i == maxRetries then (Err(Exhausted(maxRetries, a.error)), i + 1)
    else RetryFrom(maxRetries, attempt, i + 1)
  }

  /**
   * The run stops after at most `maxRetries + 1` attempts; every attempt
   * before the last failed with a retryable error; the last one's result is
   * returned as is unless it is retryable, in which case the retries are used
   * up and the exhaustion error carries it as cause.
   */
  lemma {:induction false} RetryFromFacts(maxRetries: nat, attempt: nat -> Result<Individuo, Throwable>, i: nat)
    requires i <= maxRetries
    ensures var (r, calls) := RetryFrom(maxRetries, attempt, i);
      && i + 1 <= calls <= maxRetries + 1
      && (forall k :: i <= k < calls - 1 ==> attempt(k).Err? && ShouldRetry(attempt(k).error))
      && (attempt(calls - 1).Ok? || !ShouldRetry(attempt(calls - 1).error) ==> r == attempt(calls - 1))
      && (attempt(calls - 1).Err? && ShouldRetry(attempt(calls - 1).error) ==>
            calls == maxRetries + 1 && r == Err(Exhausted(maxRetries, attempt(calls - 1).error)))
    decreases maxRetries - i
  {
    var a := attempt(i);
    if !(a.Ok? || !ShouldRetry(a.error)) && i < maxRetries {
      RetryFromFacts(maxRetries, attempt, i + 1);
    }
  }

  /** A success or a non-retryable error on the first attempt is returned at once. */
  lemma FirstAttemptDecisive(maxRetries: nat, attempt: nat -> Result<Individuo, Throwable>)
    requires attempt(0).Ok? || !ShouldRetry(attempt(0).error)
    ensures RetryFrom(maxRetries, attempt, 0) == (attempt(0), 1)
  {
  }

  /** When every attempt fails retryably, exactly `maxRetries + 1` attempts are made. */
  lemma PersistentFailureExhausts(maxRetries: nat, attempt: nat -> Result<Individuo, Throwable>)
    requires forall k :: 0 <= k <= maxRetries ==> attempt(k).Err? && ShouldRetry(attempt(k).error)
    ensures RetryFrom(maxRetries, attempt, 0)
         == (Err(Exhausted(maxRetries, attempt(maxRetries).error)), maxRetries + 1)
  {
    RetryFromFacts(maxRetries, attempt, 0);
  }

  /** The retry loop: attempts 0, 1, ... as the policy `RetryFrom` prescribes. */
  method RetryLoop(maxRetries: nat, attempt: nat -> Result<Individuo, Throwable>)
    returns (r: Result<Individuo, Throwable>, calls: nat)
    ensures (r, calls) == RetryFrom(maxRetries, attempt, 0)
  {
    var retries: nat := 0;
    r := attempt(0);
    while r.Err? && ShouldRetry(r.error) && retries < maxRetries
      invariant retries <= maxRetries
      invariant r == attempt(retries)
      invariant RetryFrom(maxRetries, attempt, 0) == RetryFrom(maxRetries, attempt, retries)
      decreases maxRetries - retries
    {
      retries := retries + 1;
      r := attempt(retries);
    }
    calls := retries + 1;
    if r.Err? && ShouldRetry(r.error) {
      r := Err(Exhausted(maxRetries, r.error));
    }
  }

  /** The attempts against one query: the k-th request's answer, translated. */
  function Attempts(upstream: (string, nat) -> Outcome, url: string,
                    parse: string -> Result<Individuo, Throwable>): nat -> Result<Individuo, Throwable>
  {
    (k: nat) => AttemptResult(upstream(url, k), parse)
  }

  /** The business translation applied to the outcome of the retries. */
  function MapResult(r: Result<Individuo, Throwable>): (m: Result<Individuo, Throwable>)
    ensures r.Ok? ==> m == r
    ensures r.Err? ==> m == Err(MapToBusinessException(r.error))
  {
    if r.Ok? then r else Err(MapToBusinessException(r.error))
  }

  /**
   * The exhaustion error is a RuntimeException, so the translation never
   * applies to it: a timeout that persists through every retry is reported
   * with the exhaustion message, never with the timeout message.
   */
  lemma PersistentTimeoutNotTranslated(cfg: Config, url: string, upstream: (string, nat) -> Outcome,
                                       parse: string -> Result<Individuo, Throwable>)
    requires forall k :: 0 <= k <= cfg.maxRetries ==> upstream(url, k).Failed? && upstream(url, k).failure.Timeout?
    ensures var r := MapResult(RetryFrom(cfg.maxRetries, Attempts(upstream, url, parse), 0).0);
      r.Err? && r.error == Exhausted(cfg.maxRetries, upstream(url, cfg.maxRetries).failure)
      && Message(r.error) != Some(TIMEOUT_MSG)
  {
    var att := Attempts(upstream, url, parse);
    forall k | 0 <= k <= cfg.maxRetries
      ensures att(k).Err? && ShouldRetry(att(k).error)
    {
      assert att(k) == AttemptResult(upstream(url, k), parse);
    }
    PersistentFailureExhausts(cfg.maxRetries, att);
    var m := Message(Exhausted(cfg.maxRetries, upstream(url, cfg.maxRetries).failure)).value;
    assert m[0] == 'C';
    assert TIMEOUT_MSG[0] == 'T';
  }

  /** What the client's lookup by cédula yields: the split's refusal, or the translated outcome of the retries. */
  function ConsultaResult(cfg: Config, cedula: JString, upstream: (string, nat) -> Outcome,
                          parse: string -> Result<Individuo, Throwable>): (r: Result<Individuo, Throwable>)
    ensures SplitCedula(cedula).Err? ==> r == Err(SplitCedula(cedula).error)
    ensures r.Err? ==> !ShouldRetry(r.error)
  {
    var split := SplitCedula(cedula);
    if split.Err? then Err(split.error)
    else MapResult(RetryFrom(cfg.maxRetries, Attempts(upstream, BuildConsultaUrl(cfg, split.value), parse), 0).0)
  }

  /** How many requests the lookup sends: none when the split refuses, else one per attempt. */
  function RequestsSent(cfg: Config, cedula: JString, upstream: (string, nat) -> Outcome,
                        parse: string -> Result<Individuo, Throwable>): (n: nat)
    ensures SplitCedula(cedula).Err? <==> n == 0
    ensures n <= cfg.maxRetries + 1
  {
    var split := SplitCedula(cedula);
    if split.Err? then 0
    else
      var att := Attempts(upstream, BuildConsultaUrl(cfg, split.value), parse);
      RetryFromFacts(cfg.maxRetries, att, 0);
      RetryFrom(cfg.maxRetries, att, 0).1
  }

  /**
   * The client's lookup by 11-character cédula: split, build the query, run
   * the attempts with retries, then give timeouts and connection failures a
   * business message. `urls` lists the requests sent, in order.
   */
  method ConsultarCiudadano(cfg: Config, cedula: JString,
                            upstream: (string, nat) -> Outcome,
                            parse: string -> Result<Individuo, Throwable>)
    returns (r: Result<Individuo, Throwable>, urls: seq<string>)
    ensures r == ConsultaResult(cfg, cedula, upstream, parse)
    ensures |urls| == RequestsSent(cfg, cedula, upstream, parse)
    ensures SplitCedula(cedula).Ok? ==>
      forall k :: 0 <= k < |urls| ==> urls[k] == BuildConsultaUrl(cfg, SplitCedula(cedula).value)
  {
    var split := SplitCedula(cedula);
    if split.Err? {
      return Err(split.error), [];
    }
    var url := BuildConsultaUrl(cfg, split.value);
    var res, calls := RetryLoop(cfg.maxRetries, Attempts(upstream, url, parse));
    urls := seq(calls, _ => url);
    r := MapResult(res);
  }

  /** A cédula of any length but 11 is refused without sending a request. */
  lemma RefusedWithoutRequest(cfg: Config, cedula: JString, upstream: (string, nat) -> Outcome,
                              parse: string -> Result<Individuo, Throwable>)
    requires cedula.None? || |cedula.value| != 11
    ensures ConsultaResult(cfg, cedula, upstream, parse) == Err(IllegalArgument(Some(CEDULA_LONGITUD_MSG)))
    ensures RequestsSent(cfg, cedula, upstream, parse) == 0
  {
  }
}
