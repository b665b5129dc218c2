/**
 * The REST controller: it finds the client's address, takes one token from
 * the shared bucket, hands the request to the cached lookup and turns the
 * response into an HTTP answer. A refused token short-circuits with 429
 * before the lookup. Headers, the request identifier, the clock reading and
 * the portal's answers are parameters.
 */
module Controller {
  import opened JavaText
  import opened Request
  import opened Individuos
  import opened Responses
  import opened Exceptions
  import opened Client
  import opened Service
  import opened Handler

  const RATE_LIMIT_MSG: string := "Límite de peticiones excedido. Intente nuevamente en 1 minuto."
  const RATE_LIMIT_CODE: string := "RATE_LIMIT_EXCEEDED"
  const CACHE_PUBLICA: string := "public, max-age=300"
  const SIN_CACHE: string := "no-cache"

  // ---------------------------------------------------------------------
  // The client's address
  // ---------------------------------------------------------------------

  /** A header worth reading: present, not empty and not "unknown" in any case. */
  predicate Utilizable(h: JString)
  {
    h.Some? && h.value != "" && !EqualsIgnoreCase("unknown", h.value)
  }

  predicate SoloComas(s: string)
  {
    forall i :: 0 <= i < |s| ==> s[i] == ','
  }

  /**
   * The first entry of a forwarded-for list, trimmed: the text before the
   * first ','. A non-empty list of commas only splits into no entries at
   * all, and reading the first one fails.
   */
  function PrimeraDireccion(xff: string): (r: Result<string, Throwable>)
    ensures r.Err? <==> xff != "" && SoloComas(xff)
    ensures r.Ok? ==>
      var k := IndexOfFrom(xff, ",", 0);
      r.value == Trim(if k == -1 then xff else xff[..k])
  {
    var k := IndexOfFrom(xff, ",", 0);
    if xff != "" && SoloComas(xff) then
      assert xff[0..1] == ",";
      Err(Other("ArrayIndexOutOfBoundsException", Some("Index 0 out of bounds for length 0")))
    else
      assert k == 0 ==> xff[0..1] == ",";
      Ok(Trim(if k == -1 then xff else xff[..k]))
  }

  /**
   * The client's address: the first forwarded-for entry, else the real-IP
   * header, else the client-IP header, else the connection's remote
   * address; headers that are not worth reading are skipped.
   */
  function ObtenerIpCliente(xff: JString, xRealIp: JString, xClientIp: JString, remote: JString)
    : (r: Result<JString, Throwable>)
    ensures Utilizable(xff) ==>
      r == (if PrimeraDireccion(xff.value).Ok? then Ok(Some(PrimeraDireccion(xff.value).value))
            else Err(PrimeraDireccion(xff.value).error))
    ensures !Utilizable(xff) && Utilizable(xRealIp) ==> r == Ok(xRealIp)
    ensures !Utilizable(xff) && !Utilizable(xRealIp) && Utilizable(xClientIp) ==> r == Ok(xClientIp)
    ensures !Utilizable(xff) && !Utilizable(xRealIp) && !Utilizable(xClientIp) ==> r == Ok(remote)
  {
    if Utilizable(xff) then
      var p := PrimeraDireccion(xff.value);
      if p.Ok? then Ok(Some(p.value)) else Err(p.error)
    else if Utilizable(xRealIp) then Ok(xRealIp)
    else if Utilizable(xClientIp) then Ok(xClientIp)
    else Ok(remote)
  }

  /** A header that is not worth reading behaves exactly as a missing one. */
  lemma UnusableHeaderIgnored(h: JString, xRealIp: JString, xClientIp: JString, remote: JString)
    requires !Utilizable(h)
    ensures ObtenerIpCliente(h, xRealIp, xClientIp, remote) == ObtenerIpCliente(None, xRealIp, xClientIp, remote)
    ensures ObtenerIpCliente(Some("UNKNOWN"), xRealIp, xClientIp, remote) == ObtenerIpCliente(None, xRealIp, xClientIp, remote)
    ensures ObtenerIpCliente(Some("un\U{212A}nown"), xRealIp, xClientIp, remote) == ObtenerIpCliente(None, xRealIp, xClientIp, remote)
  {
    assert EqualsIgnoreCase("unknown", "UNKNOWN");
    assert CharsMatchIgnoreCase('k', '\U{212A}');
    assert EqualsIgnoreCase("unknown", "un\U{212A}nown");
  }

  /** Finding the address fails only on a forwarded-for header made of commas alone. */
  lemma AddressFailsOnlyOnCommas(xff: JString, xRealIp: JString, xClientIp: JString, remote: JString)
    ensures ObtenerIpCliente(xff, xRealIp, xClientIp, remote).Err? <==> xff.Some? && xff.value != "" && SoloComas(xff.value)
  {
    if xff.Some? && xff.value != "" && SoloComas(xff.value) {
      assert UpperChar(xff.value[0]) == ',';
      assert !EqualsIgnoreCase("unknown", xff.value);
    }
  }

  /**
   * The address a proxy put first comes back, whatever follows it: a
   * trimmed, non-empty address without ',' followed by "," and the rest.
   */
  lemma ForwardedForRoundTrip(ip: string, rest: string, xRealIp: JString, xClientIp: JString, remote: JString)
    requires ip != "" && IsTrimmed(ip) && NoChar(ip, ',')
    ensures ObtenerIpCliente(Some(ip + "," + rest), xRealIp, xClientIp, remote) == Ok(Some(ip))
  {
    var s := ip + "," + rest;
    assert s[|ip|] == ',';
    if |s| == |"unknown"| {
      assert UpperChar(s[|ip|]) == ',';
      assert UpperChar("unknown"[|ip|]) != ',';
    }
    assert !EqualsIgnoreCase("unknown", s);
    assert s[|ip|..|ip| + 1] == ",";
    var k := IndexOfFrom(s, ",", 0);
    assert OccursAt(s, ",", |ip|);
    assert k == |ip|;
    assert s[..k] == ip;
  }

  // ---------------------------------------------------------------------
  // The token bucket
  // ---------------------------------------------------------------------

  /** The shared bucket, seen only through the tokens it has left. */
  class TokenBucket {
    var tokens: nat

    constructor(capacidad: nat)
      ensures tokens == capacidad
    {
      tokens := capacidad;
    }

    /** Takes one token when there is one, and says whether it did. */
    method TryConsume() returns (consumed: bool)
      modifies this
      ensures consumed <==> old(tokens) >= 1
      ensures tokens == if consumed then old(tokens) - 1 else old(tokens)
    {
      consumed := tokens >= 1;
      if consumed {
        tokens := tokens - 1;
      }
    }
  }

  // ---------------------------------------------------------------------
  // HTTP answers
  // ---------------------------------------------------------------------

  /** The status of an error response, by its code; any other code is a server error. */
  function StatusPorCodigo(codigo: string): (s: int)
    ensures s == 400 <==> codigo == "CEDULA_INVALIDA"
    ensures s == 503 <==> codigo == "JCE_TIMEOUT" || codigo == "JCE_NO_DISPONIBLE"
    ensures s == 404 <==> codigo == "CIUDADANO_NO_ENCONTRADO"
    ensures s == 429 <==> codigo == RATE_LIMIT_CODE
    ensures s in {400, 404, 429, 500, 503}
  {
    if codigo == "CEDULA_INVALIDA" then 400
    else if codigo == "JCE_TIMEOUT" || codigo == "JCE_NO_DISPONIBLE" then 503
    else if codigo == "CIUDADANO_NO_ENCONTRADO" then 404
    else if codigo == RATE_LIMIT_CODE then 429
    else 500
  }

  /**
   * The HTTP answer for a response: 200 and a public five-minute cache for
   * a success, the status of its code and no caching for an error, with the
   * request identifier and the elapsed time in milliseconds as headers. An
   * error response without a code cannot be dispatched on and fails.
   */
  function CrearRespuestaHttp(resp: ConsultaResponse, requestId: string): (r: Result<HttpResponse, Throwable>)
    ensures r.Err? <==> !resp.exitosa && resp.codigo.None?
    ensures r.Ok? ==> r.value.body == resp
    ensures r.Ok? ==> r.value.status == if resp.exitosa then 200 else StatusPorCodigo(resp.codigo.value)
    ensures r.Ok? ==> r.value.headers == map[
      "Cache-Control" := (if resp.exitosa then CACHE_PUBLICA else SIN_CACHE),
      "X-Request-ID" := requestId,
      "X-Response-Time" := ShowLong(resp.tiempoRespuesta) + "ms"]
  {
    if !resp.exitosa && resp.codigo.None? then
      Err(Other("NullPointerException", None))
    else
      var status := if resp.exitosa then 200 else StatusPorCodigo(resp.codigo.value);
      var cache := if resp.exitosa then CACHE_PUBLICA else SIN_CACHE;
      Ok(HttpResponse(status, map["Cache-Control" := cache, "X-Request-ID" := requestId,
                                  "X-Response-Time" := ShowLong(resp.tiempoRespuesta) + "ms"], resp))
  }

  /** Only a success is answered with 200, and only a 200 may be cached by clients. */
  lemma PublicCacheOnlyOnSuccess(resp: ConsultaResponse, requestId: string)
    requires CrearRespuestaHttp(resp, requestId).Ok?
    ensures var r := CrearRespuestaHttp(resp, requestId).value;
      (r.status == 200 <==> resp.exitosa) && (r.headers["Cache-Control"] == CACHE_PUBLICA <==> r.status == 200)
  {
  }

  /** The elapsed-time header reads back as the response's elapsed time. */
  lemma ResponseTimeHeaderRoundTrip(resp: ConsultaResponse, requestId: string)
    requires CrearRespuestaHttp(resp, requestId).Ok?
    requires LONG_MIN <= resp.tiempoRespuesta <= LONG_MAX
    ensures var h := CrearRespuestaHttp(resp, requestId).value.headers["X-Response-Time"];
      |h| >= 2 && h[|h| - 2..] == "ms" && ParseLong(h[..|h| - 2]) == Some(resp.tiempoRespuesta)
  {
    var t := ShowLong(resp.tiempoRespuesta);
    var h := t + "ms";
    assert h[..|h| - 2] == t;
    ParseShowLong(resp.tiempoRespuesta);
  }

  /** Every response the lookup itself produces carries a code, so it always gets an HTTP answer. */
  lemma LookupResponsesAreAnswered(r: Result<ConsultaResponse, Throwable>, ind: Result<Individuo, Throwable>,
                                   req: ConsultaRequest, baseUrl: string, tiempo: int, now: int, requestId: string)
    requires r == Responder(ind, req, baseUrl, tiempo, now) && r.Ok?
    ensures CrearRespuestaHttp(r.value, requestId).Ok?
  {
  }

  /**
   * A timeout reaches the client with 503 when the lookup answers it, but
   * with 504 when it arrives as a domain exception through the handler.
   */
  lemma TimeoutStatusDependsOnPath(req: ConsultaRequest, tiempo: int, now: int, requestId: string)
    ensures var r := HandleConsultaError(Timeout(Some("Timeout")), req, tiempo, now);
      r.Ok? && CrearRespuestaHttp(r.value, requestId).Ok? && CrearRespuestaHttp(r.value, requestId).value.status == 503
    ensures RespuestaApi(JceTimeout(now), requestId, now).status == 504
    ensures JceTimeout(now).codigoError == "JCE_TIMEOUT"
  {
    assert "Timeout"[0..7] == "Timeout";
    ContainsAt("Timeout", "Timeout", 0);
  }

  /** The refusal when the bucket is empty: 429, a retry hint of 60 seconds and no elapsed time. */
  function RespuestaLimite(cedula: JString, now: int): (r: HttpResponse)
    ensures r.status == 429 && r.headers == map["X-Rate-Limit-Retry-After" := "60"]
    ensures r.body == Error(Some(RATE_LIMIT_MSG), Some(RATE_LIMIT_CODE), cedula, 0, now)
  {
    HttpResponse(429, map["X-Rate-Limit-Retry-After" := "60"],
      Error(Some(RATE_LIMIT_MSG), Some(RATE_LIMIT_CODE), cedula, 0, now))
  }

  /** The refusal's status is the one the status table gives its code. */
  lemma RateLimitAgreesWithTable(cedula: JString, now: int)
    ensures RespuestaLimite(cedula, now).status == StatusPorCodigo(RespuestaLimite(cedula, now).body.codigo.value)
    ensures !RespuestaLimite(cedula, now).body.exitosa && RespuestaLimite(cedula, now).body.datos.None?
  {
  }

  /** The outcome of the lookup, answered: a response is turned into HTTP, a failure passed on. */
  function Contestar(r: Result<ConsultaResponse, Throwable>, requestId: string): (h: Result<HttpResponse, Throwable>)
    ensures r.Err? ==> h == Err(r.error)
    ensures r.Ok? ==> h == CrearRespuestaHttp(r.value, requestId)
  {
    if r.Err? then Err(r.error) else CrearRespuestaHttp(r.value, requestId)
  }

  /** The request the path endpoint builds: no photo and the complete view unless asked. */
  function PeticionPorCedula(cedula: string, formato: JString, incluirFoto: Option<bool>): (req: ConsultaRequest)
    ensures req.cedula == Some(cedula)
    ensures !req.IncluirFoto() <==> incluirFoto != Some(true)
    ensures formato.None? ==> req.Formato() == "completo"
  {
    var f := if formato.Some? then formato.value else "completo";
    assert f == "completo" ==> !IsBlank(f) by {
      if f == "completo" {
        assert !IsWhitespace(f[0]);
      }
    }
    var req := ConsultaRequest(Some(cedula), Some(incluirFoto == Some(true)), Some(f));
    assert formato.None? ==> ToLower(f) == "completo";
    req
  }

  /**
   * What the client receives: an HTTP answer as built, or the exception
   * handler's answer to the failure (the handler's counters aside).
   */
  function RespuestaFinal(h: Result<HttpResponse, Throwable>, requestId: string, now: int): (r: HttpResponse)
    ensures h.Ok? ==> r == h.value
    ensures h.Err? && h.error.Api? ==> r == RespuestaApi(h.error.ex, requestId, now)
    ensures h.Err? && !h.error.Api? ==> r == RespuestaGenerica(requestId, now)
    ensures h.Err? ==> 400 <= r.status < 600 && !r.body.exitosa && r.body.datos.None?
  {
    if h.Ok? then h.value
    else if h.error.Api? then RespuestaApi(h.error.ex, requestId, now)
    else RespuestaGenerica(requestId, now)
  }

  /**
   * An invalid cédula that is not cached is answered with 400 and code
   * CEDULA_INVALIDA, echoing the cleaned digits, without a request to the
   * portal and without touching the cache. This is the answer when the
   * lookup is called without bean validation in front of it: over HTTP both
   * endpoints check the cédula against `CumplePatron` first and refuse a
   * mismatch with their own 400, and `PatronImplicaValida` shows that a
   * cédula passing that check is never invalid here.
   */
  lemma InvalidCedulaAnswer(cache: map<string, ConsultaResponse>, cfg: Config, baseUrl: string, req: ConsultaRequest,
                            upstream: (string, nat) -> Outcome, parse: string -> Result<Individuo, Throwable>,
                            tiempo: int, now: int, requestId: string)
    requires req.CedulaLimpia().Some? && req.CedulaLimpia().value !in cache && !req.EsCedulaValida()
    ensures var res := ConsultaCacheada(cache, cfg, baseUrl, req, upstream, parse, tiempo, now);
      var h := RespuestaFinal(Contestar(res.0, requestId), requestId, now);
      && h.status == 400 && h.body.codigo == Some("CEDULA_INVALIDA")
      && h.body.cedulaConsultada == req.CedulaLimpia()
      && res.1 == cache && res.2 == 0
  {
    InvalidRequestNeverCached(cache, cfg, baseUrl, req, upstream, parse, tiempo, now);
    ValidIffElevenDigits(req);
    var f := req.CedulaFormateada();
    assert f == req.CedulaLimpia();
    DigitsNoLetter(f.value, ',', ',');
    CedulaInvalidaAnswer(f, requestId, now);
  }

  /**
   * A request without a cédula never reaches validation: the cache cannot
   * compute its key, and the answer is the generic 500. As above, this is
   * the answer without bean validation in front of the lookup; over HTTP a
   * missing cédula is refused with 400 before the lookup runs.
   */
  lemma NullCedulaAnswer(cache: map<string, ConsultaResponse>, cfg: Config, baseUrl: string, req: ConsultaRequest,
                         upstream: (string, nat) -> Outcome, parse: string -> Result<Individuo, Throwable>,
                         tiempo: int, now: int, requestId: string)
    requires req.cedula.None?
    ensures var res := ConsultaCacheada(cache, cfg, baseUrl, req, upstream, parse, tiempo, now);
      var h := RespuestaFinal(Contestar(res.0, requestId), requestId, now);
      h.status == 500 && h.body.codigo == Some("ERROR_INTERNO") && res.1 == cache && res.2 == 0
  {
  }

  class JceConsultaController {
    const service: JceConsultaService
    const bucket: TokenBucket

    constructor(service: JceConsultaService, bucket: TokenBucket)
      ensures this.service == service && this.bucket == bucket
    {
      this.service := service;
      this.bucket := bucket;
    }

    /**
     * The common path of both endpoints: the client's address, then one
     * token, then the cached lookup. Without a token the refusal echoes
     * `cedulaEco` and the lookup is not run.
     */
    method Atender(req: ConsultaRequest, cedulaEco: JString, xff: JString, xRealIp: JString, xClientIp: JString,
                   remote: JString, requestId: string, upstream: (string, nat) -> Outcome,
                   parse: string -> Result<Individuo, Throwable>, tiempo: int, now: int)
      returns (r: Result<HttpResponse, Throwable>, urls: seq<string>)
      requires service.Valid()
      modifies service, bucket
      ensures service.Valid()
      ensures ObtenerIpCliente(xff, xRealIp, xClientIp, remote).Err? ==>
        && r == Err(ObtenerIpCliente(xff, xRealIp, xClientIp, remote).error) && urls == []
        && bucket.tokens == old(bucket.tokens) && service.cache == old(service.cache)
      ensures ObtenerIpCliente(xff, xRealIp, xClientIp, remote).Ok? && old(bucket.tokens) == 0 ==>
        && r == Ok(RespuestaLimite(cedulaEco, now)) && urls == []
        && bucket.tokens == 0 && service.cache == old(service.cache)
      ensures ObtenerIpCliente(xff, xRealIp, xClientIp, remote).Ok? && old(bucket.tokens) > 0 ==>
        var res := ConsultaCacheada(old(service.cache), service.cfg, service.baseUrl, req, upstream, parse, tiempo, now);
        && bucket.tokens == old(bucket.tokens) - 1
        && r == Contestar(res.0, requestId) && service.cache == res.1 && |urls| == res.2
    {
      var ip := ObtenerIpCliente(xff, xRealIp, xClientIp, remote);
      if ip.Err? {
        return Err(ip.error), [];
      }
      var permitido := bucket.TryConsume();
      if !permitido {
        return Ok(RespuestaLimite(cedulaEco, now)), [];
      }
      var resp;
      resp, urls := service.ConsultarCiudadano(req, upstream, parse, tiempo, now);
      r := Contestar(resp, requestId);
    }

    /** The body endpoint: the refusal echoes the formatted cédula. */
    method ConsultarCiudadano(req: ConsultaRequest, xff: JString, xRealIp: JString, xClientIp: JString,
                              remote: JString, requestId: string, upstream: (string, nat) -> Outcome,
                              parse: string -> Result<Individuo, Throwable>, tiempo: int, now: int)
      returns (r: Result<HttpResponse, Throwable>, urls: seq<string>)
      requires service.Valid()
      modifies service, bucket
      ensures service.Valid()
      ensures ObtenerIpCliente(xff, xRealIp, xClientIp, remote).Err? ==>
        && r == Err(ObtenerIpCliente(xff, xRealIp, xClientIp, remote).error) && urls == []
        && bucket.tokens == old(bucket.tokens) && service.cache == old(service.cache)
      ensures ObtenerIpCliente(xff, xRealIp, xClientIp, remote).Ok? && old(bucket.tokens) == 0 ==>
        && r == Ok(RespuestaLimite(req.CedulaFormateada(), now)) && urls == []
        && bucket.tokens == 0 && service.cache == old(service.cache)
      ensures ObtenerIpCliente(xff, xRealIp, xClientIp, remote).Ok? && old(bucket.tokens) > 0 ==>
        var res := ConsultaCacheada(old(service.cache), service.cfg, service.baseUrl, req, upstream, parse, tiempo, now);
        && bucket.tokens == old(bucket.tokens) - 1
        && r == Contestar(res.0, requestId) && service.cache == res.1 && |urls| == res.2
    {
      r, urls := Atender(req, req.CedulaFormateada(), xff, xRealIp, xClientIp, remote, requestId, upstream, parse, tiempo, now);
    }

    /** The path endpoint: the refusal echoes the cédula as written in the path. */
    method ConsultarCiudadanoPorCedula(cedula: string, formato: JString, incluirFoto: Option<bool>,
                                       xff: JString, xRealIp: JString, xClientIp: JString,
                                       remote: JString, requestId: string, upstream: (string, nat) -> Outcome,
                                       parse: string -> Result<Individuo, Throwable>, tiempo: int, now: int)
      returns (r: Result<HttpResponse, Throwable>, urls: seq<string>)
      requires service.Valid()
      modifies service, bucket
      ensures service.Valid()
      ensures ObtenerIpCliente(xff, xRealIp, xClientIp, remote).Err? ==>
        && r == Err(ObtenerIpCliente(xff, xRealIp, xClientIp, remote).error) && urls == []
        && bucket.tokens == old(bucket.tokens) && service.cache == old(service.cache)
      ensures ObtenerIpCliente(xff, xRealIp, xClientIp, remote).Ok? && old(bucket.tokens) == 0 ==>
        && r == Ok(RespuestaLimite(Some(cedula), now)) && urls == []
        && bucket.tokens == 0 && service.cache == old(service.cache)
      ensures ObtenerIpCliente(xff, xRealIp, xClientIp, remote).Ok? && old(bucket.tokens) > 0 ==>
        var res := ConsultaCacheada(old(service.cache), service.cfg, service.baseUrl,
                                    PeticionPorCedula(cedula, formato, incluirFoto), upstream, parse, tiempo, now);
        && bucket.tokens == old(bucket.tokens) - 1
        && r == Contestar(res.0, requestId) && service.cache == res.1 && |urls| == res.2
    {
      var req := PeticionPorCedula(cedula, formato, incluirFoto);
      r, urls := Atender(req, Some(cedula), xff, xRealIp, xClientIp, remote, requestId, upstream, parse, tiempo, now);
    }
  }
}
