/**
 * The service's error taxonomy: a fixed table of error types, each with a
 * description and an HTTP status, the domain exception built from one, and
 * the other exception kinds that flow through the client and the service.
 * Clock readings are parameters.
 */
module Exceptions {
  import opened JavaText

  datatype TipoError =
    | CEDULA_INVALIDA
    | PARAMETROS_INVALIDOS
    | FORMATO_NO_SOPORTADO
    | CIUDADANO_NO_ENCONTRADO
    | CEDULA_NO_ACTIVA
    | JCE_NO_DISPONIBLE
    | JCE_TIMEOUT
    | JCE_ERROR_COMUNICACION
    | JCE_RESPUESTA_INVALIDA
    | RATE_LIMIT_EXCEDIDO
    | CUOTA_DIARIA_EXCEDIDA
    | ERROR_CACHE
    | ERROR_CONFIGURACION
    | ERROR_DESERIALIZACION
    | ERROR_INTERNO
  {
    function Descripcion(): string
    {
      match this
      case CEDULA_INVALIDA => "La cédula proporcionada no tiene un formato válido"
      case PARAMETROS_INVALIDOS => "Los parámetros de la petición son inválidos"
      case FORMATO_NO_SOPORTADO => "El formato solicitado no está soportado"
      case CIUDADANO_NO_ENCONTRADO => "No se encontraron datos para la cédula consultada"
      case CEDULA_NO_ACTIVA => "La cédula consultada no está activa en el sistema JCE"
      case JCE_NO_DISPONIBLE => "El portal JCE no está disponible temporalmente"
      case JCE_TIMEOUT => "El portal JCE tardó demasiado en responder"
      case JCE_ERROR_COMUNICACION => "Error de comunicación con el portal JCE"
      case JCE_RESPUESTA_INVALIDA => "El portal JCE retornó una respuesta inválida"
      case RATE_LIMIT_EXCEDIDO => "Se ha excedido el límite de peticiones permitidas"
      case CUOTA_DIARIA_EXCEDIDA => "Se ha excedido la cuota diaria de consultas"
      case ERROR_CACHE => "Error en el sistema de caché"
      case ERROR_CONFIGURACION => "Error de configuración del microservicio"
      case ERROR_DESERIALIZACION => "Error procesando la respuesta XML del portal JCE"
      case ERROR_INTERNO => "Error interno del microservicio"
    }

    /** The HTTP status that answers an error of this type. */
    function StatusHttp(): (s: int)
      ensures 400 <= s < 600
    {
      match this
      case CEDULA_INVALIDA => 400
      case PARAMETROS_INVALIDOS => 400
      case FORMATO_NO_SOPORTADO => 400
      case CIUDADANO_NO_ENCONTRADO => 404
      case CEDULA_NO_ACTIVA => 422
      case JCE_NO_DISPONIBLE => 503
      case JCE_TIMEOUT => 504
      case JCE_ERROR_COMUNICACION => 502
      case JCE_RESPUESTA_INVALIDA => 502
      case RATE_LIMIT_EXCEDIDO => 429
      case CUOTA_DIARIA_EXCEDIDA => 429
      case ERROR_CACHE => 500
      case ERROR_CONFIGURACION => 500
      case ERROR_DESERIALIZACION => 500
      case ERROR_INTERNO => 500
    }

    /** The constant's name, which is also the error code. */
    function Name(): (n: string)
      ensures n != ""
    {
      match this
      case CEDULA_INVALIDA => "CEDULA_INVALIDA"
      case PARAMETROS_INVALIDOS => "PARAMETROS_INVALIDOS"
      case FORMATO_NO_SOPORTADO => "FORMATO_NO_SOPORTADO"
      case CIUDADANO_NO_ENCONTRADO => "CIUDADANO_NO_ENCONTRADO"
      case CEDULA_NO_ACTIVA => "CEDULA_NO_ACTIVA"
      case JCE_NO_DISPONIBLE => "JCE_NO_DISPONIBLE"
      case JCE_TIMEOUT => "JCE_TIMEOUT"
      case JCE_ERROR_COMUNICACION => "JCE_ERROR_COMUNICACION"
      case JCE_RESPUESTA_INVALIDA => "JCE_RESPUESTA_INVALIDA"
      case RATE_LIMIT_EXCEDIDO => "RATE_LIMIT_EXCEDIDO"
      case CUOTA_DIARIA_EXCEDIDA => "CUOTA_DIARIA_EXCEDIDA"
      case ERROR_CACHE => "ERROR_CACHE"
      case ERROR_CONFIGURACION => "ERROR_CONFIGURACION"
      case ERROR_DESERIALIZACION => "ERROR_DESERIALIZACION"
      case ERROR_INTERNO => "ERROR_INTERNO"
    }

    function Codigo(): (c: string)
      ensures c == Name()
    {
      Name()
    }

    predicate EsErrorCliente()
    {
      400 <= StatusHttp() < 500
    }

    predicate EsErrorServidor()
    {
      500 <= StatusHttp() < 600
    }

    predicate EsErrorServicioExterno()
    {
      this == JCE_NO_DISPONIBLE || this == JCE_TIMEOUT
      || this == JCE_ERROR_COMUNICACION || this == JCE_RESPUESTA_INVALIDA
    }
  }

  /** Every error type is either a client error or a server error, never both. */
  lemma ClientServerExclusive(t: TipoError)
    ensures t.EsErrorCliente() != t.EsErrorServidor()
  {
  }

  /** The external-service types are exactly the four JCE_* types, and all answer with 5xx. */
  lemma ExternalIsServerError(t: TipoError)
    ensures t.EsErrorServicioExterno() ==> t.EsErrorServidor() && !t.EsErrorCliente()
    ensures t.EsErrorServicioExterno() <==> 502 <= t.StatusHttp() <= 504
  {
  }

  /** Distinct types have distinct codes. */
  lemma NameInjective(a: TipoError, b: TipoError)
    requires a.Name() == b.Name()
    ensures a == b
  {
  }

  /** The statuses the error table assigns. */
  lemma StatusTable()
    ensures CEDULA_INVALIDA.StatusHttp() == 400 && PARAMETROS_INVALIDOS.StatusHttp() == 400
    ensures FORMATO_NO_SOPORTADO.StatusHttp() == 400 && CIUDADANO_NO_ENCONTRADO.StatusHttp() == 404
    ensures CEDULA_NO_ACTIVA.StatusHttp() == 422 && JCE_TIMEOUT.StatusHttp() == 504
    ensures RATE_LIMIT_EXCEDIDO.StatusHttp() == 429 && CUOTA_DIARIA_EXCEDIDA.StatusHttp() == 429
    ensures forall t: TipoError :: t.StatusHttp() == 500 <==>
      t == ERROR_CACHE || t == ERROR_CONFIGURACION || t == ERROR_DESERIALIZACION || t == ERROR_INTERNO
  {
  }

  /**
   * The exceptions the model distinguishes. The message is what getMessage
   * returns. A WebClientResponse carries the upstream HTTP status and, when
   * the status is one the framework knows by name, that name.
   */
  datatype Throwable =
    | Api(ex: ApiException)
    | Timeout(message: JString)
    | Connect(message: JString)
    | SocketTimeout(message: JString)
    | WebClientResponse(status: int, statusName: JString, message: JString)
    | IllegalArgument(message: JString)
    | Runtime(message: JString, cause: Option<Throwable>)
    | Other(simpleName: string, message: JString)

  datatype ApiException = ApiException(
    tipoError: TipoError,
    message: JString,
    codigoError: string,
    contexto: JString,
    timestamp: int,
    cause: Option<Throwable>)
  {
    function StatusHttp(): (s: int)
      ensures s == tipoError.StatusHttp()
    {
      tipoError.StatusHttp()
    }

    /** A 4xx answer: invalid input, a missing citizen, or a limit reached. */
    function EsErrorCliente(): (b: bool)
      ensures b <==> tipoError in {CEDULA_INVALIDA, PARAMETROS_INVALIDOS, FORMATO_NO_SOPORTADO,
                                   CIUDADANO_NO_ENCONTRADO, CEDULA_NO_ACTIVA,
                                   RATE_LIMIT_EXCEDIDO, CUOTA_DIARIA_EXCEDIDA}
    {
      tipoError.EsErrorCliente()
    }

    /** A 5xx answer: exactly the exceptions that are not client errors. */
    function EsErrorServidor(): (b: bool)
      ensures b <==> !EsErrorCliente()
    {
      tipoError.EsErrorServidor()
    }

    /** The four failures of the portal, answered with 502 to 504 and never with 500. */
    function EsErrorServicioExterno(): (b: bool)
      ensures b <==> 502 <= StatusHttp() <= 504
      ensures b ==> EsErrorServidor()
    {
      tipoError.EsErrorServicioExterno()
    }
  }

  function Message(t: Throwable): JString
  {
    match t
    case Api(e) => e.message
    case Timeout(m) => m
    case Connect(m) => m
    case SocketTimeout(m) => m
    case WebClientResponse(_, _, m) => m
    case IllegalArgument(m) => m
    case Runtime(m, _) => m
    case Other(_, m) => m
  }

  function SimpleName(t: Throwable): string
  {
    match t
    case Api(_) => "ApiException"
    case Timeout(_) => "TimeoutException"
    case Connect(_) => "ConnectException"
    case SocketTimeout(_) => "SocketTimeoutException"
    case WebClientResponse(_, _, _) => "WebClientResponseException"
    case IllegalArgument(_) => "IllegalArgumentException"
    case Runtime(_, _) => "RuntimeException"
    case Other(n, _) => n
  }

  // ---------------------------------------------------------------------
  // Constructors (`now` is the clock reading)
  // ---------------------------------------------------------------------

  /** The exception for a type alone: the type's description is the message. */
  function OfTipo(tipo: TipoError, now: int): (e: ApiException)
    ensures e.tipoError == tipo && e.codigoError == tipo.Name()
    ensures e.message == Some(tipo.Descripcion()) && e.contexto.None? && e.cause.None?
  {
    ApiException(tipo, Some(tipo.Descripcion()), tipo.Codigo(), None, now, None)
  }

  function WithMessage(tipo: TipoError, mensaje: JString, now: int): (e: ApiException)
    ensures e.tipoError == tipo && e.codigoError == tipo.Name()
    ensures e.message == mensaje && e.contexto.None? && e.cause.None?
  {
    ApiException(tipo, mensaje, tipo.Codigo(), None, now, None)
  }

  function WithContext(tipo: TipoError, mensaje: JString, contexto: JString, now: int): (e: ApiException)
    ensures e.tipoError == tipo && e.codigoError == tipo.Name()
    ensures e.message == mensaje && e.contexto == contexto && e.cause.None?
  {
    ApiException(tipo, mensaje, tipo.Codigo(), contexto, now, None)
  }

  function WithCause(tipo: TipoError, mensaje: JString, contexto: JString, cause: Option<Throwable>, now: int): (e: ApiException)
    ensures e.tipoError == tipo && e.codigoError == tipo.Name()
    ensures e.message == mensaje && e.contexto == contexto && e.cause == cause
  {
    ApiException(tipo, mensaje, tipo.Codigo(), contexto, now, cause)
  }

  /** The exception for a type and a cause: the type's description is the message. */
  function OfTipoCause(tipo: TipoError, cause: Option<Throwable>, now: int): (e: ApiException)
    ensures e.tipoError == tipo && e.codigoError == tipo.Name()
    ensures e.message == Some(tipo.Descripcion()) && e.contexto.None? && e.cause == cause
  {
    ApiException(tipo, Some(tipo.Descripcion()), tipo.Codigo(), None, now, cause)
  }

  // ---------------------------------------------------------------------
  // Factories
  // ---------------------------------------------------------------------

  function CedulaInvalida(cedula: JString, now: int): (e: ApiException)
    ensures e.tipoError == CEDULA_INVALIDA && e.codigoError == "CEDULA_INVALIDA"
    ensures e.contexto == Some("cedula=" + Show(cedula))
    ensures e.message == Some("La cédula '" + Show(cedula) + "' no tiene un formato válido. Use XXX-XXXXXXX-X o XXXXXXXXXXX")
  {
    WithContext(CEDULA_INVALIDA,
      Some("La cédula '" + Show(cedula) + "' no tiene un formato válido. Use XXX-XXXXXXX-X o XXXXXXXXXXX"),
      Some("cedula=" + Show(cedula)), now)
  }

  function CiudadanoNoEncontrado(cedula: JString, now: int): (e: ApiException)
    ensures e.tipoError == CIUDADANO_NO_ENCONTRADO && e.codigoError == "CIUDADANO_NO_ENCONTRADO"
    ensures e.contexto == Some("cedula=" + Show(cedula))
    ensures e.message == Some("No se encontraron datos para la cédula: " + Show(cedula))
  {
    WithContext(CIUDADANO_NO_ENCONTRADO, Some("No se encontraron datos para la cédula: " + Show(cedula)),
      Some("cedula=" + Show(cedula)), now)
  }

  function JceNoDisponible(now: int): (e: ApiException)
    ensures e.tipoError == JCE_NO_DISPONIBLE && e.codigoError == "JCE_NO_DISPONIBLE" && e.contexto.None?
    ensures e.message == Some("El portal JCE no está disponible temporalmente. Intente nuevamente en unos minutos.")
  {
    WithMessage(JCE_NO_DISPONIBLE, Some("El portal JCE no está disponible temporalmente. Intente nuevamente en unos minutos."), now)
  }

  function JceTimeout(now: int): (e: ApiException)
    ensures e.tipoError == JCE_TIMEOUT && e.codigoError == "JCE_TIMEOUT" && e.contexto.None?
    ensures e.message == Some("El portal JCE tardó demasiado en responder. Intente nuevamente.")
  {
    WithMessage(JCE_TIMEOUT, Some("El portal JCE tardó demasiado en responder. Intente nuevamente."), now)
  }

  function RateLimitExcedido(now: int): (e: ApiException)
    ensures e.tipoError == RATE_LIMIT_EXCEDIDO && e.codigoError == "RATE_LIMIT_EXCEDIDO" && e.contexto.None?
    ensures e.message == Some("Se ha excedido el límite de peticiones. Intente nuevamente en 1 minuto.")
  {
    WithMessage(RATE_LIMIT_EXCEDIDO, Some("Se ha excedido el límite de peticiones. Intente nuevamente en 1 minuto."), now)
  }

  function FormatoNoSoportado(formato: JString, now: int): (e: ApiException)
    ensures e.tipoError == FORMATO_NO_SOPORTADO && e.codigoError == "FORMATO_NO_SOPORTADO"
    ensures e.contexto == Some("formato=" + Show(formato))
    ensures e.message == Some("El formato '" + Show(formato) + "' no está soportado. Use: completo, basico, personal, familiar")
  {
    WithContext(FORMATO_NO_SOPORTADO,
      Some("El formato '" + Show(formato) + "' no está soportado. Use: completo, basico, personal, familiar"),
      Some("formato=" + Show(formato)), now)
  }

  function ErrorDeserializacion(detalles: JString, cause: Option<Throwable>, now: int): (e: ApiException)
    ensures e.tipoError == ERROR_DESERIALIZACION && e.codigoError == "ERROR_DESERIALIZACION"
    ensures e.contexto == detalles && e.cause == cause
    ensures e.message == Some("Error procesando la respuesta XML del portal JCE: " + Show(detalles))
  {
    WithCause(ERROR_DESERIALIZACION, Some("Error procesando la respuesta XML del portal JCE: " + Show(detalles)),
      detalles, cause, now)
  }

  function ErrorComunicacionJce(cause: Option<Throwable>, now: int): (e: ApiException)
    ensures e.tipoError == JCE_ERROR_COMUNICACION && e.codigoError == "JCE_ERROR_COMUNICACION"
    ensures e.message == Some("Error de comunicación con el portal JCE") && e.cause == cause
    ensures e.contexto == if cause.Some? then Message(cause.value) else Some("No se proporcionó causa")
  {
    WithCause(JCE_ERROR_COMUNICACION, Some("Error de comunicación con el portal JCE"),
      if cause.Some? then Message(cause.value) else Some("No se proporcionó causa"), cause, now)
  }

  /** Whatever constructor or factory built it, the code of an exception is its type's name. */
  lemma CodigoIsName(tipo: TipoError, m: JString, c: JString, cause: Option<Throwable>, x: JString, now: int)
    ensures OfTipo(tipo, now).codigoError == tipo.Name()
    ensures WithMessage(tipo, m, now).codigoError == tipo.Name()
    ensures WithContext(tipo, m, c, now).codigoError == tipo.Name()
    ensures WithCause(tipo, m, c, cause, now).codigoError == tipo.Name()
    ensures OfTipoCause(tipo, cause, now).codigoError == tipo.Name()
    ensures CedulaInvalida(x, now).codigoError == CedulaInvalida(x, now).tipoError.Name()
    ensures FormatoNoSoportado(x, now).codigoError == FormatoNoSoportado(x, now).tipoError.Name()
  {
  }

  // ---------------------------------------------------------------------
  // Full description
  // ---------------------------------------------------------------------

  /** The opening of the detailed text: type, code and message. */
  function DetalleHead(e: ApiException): string
  {
    "ApiException{tipo=" + e.tipoError.Name() + ", codigo='" + e.codigoError + "', mensaje='" + Show(e.message) + "'"
  }

  /** ", contexto='…'" when there is a context, nothing otherwise. */
  function ContextoSegment(e: ApiException): string
  {
    if e.contexto.Some? then ", contexto='" + e.contexto.value + "'" else ""
  }

  function TimestampSegment(e: ApiException): string
  {
    ", timestamp=" + ShowLong(e.timestamp)
  }

  /** ", causa=" with the cause's simple name and message when there is a cause, nothing otherwise. */
  function CausaSegment(e: ApiException): string
  {
    if e.cause.Some? then ", causa=" + SimpleName(e.cause.value) + ":" + Show(Message(e.cause.value)) else ""
  }

  /** The detailed text of an exception, with the optional context and cause segments. */
  function DetalleCompleto(e: ApiException): (r: string)
    ensures |DetalleHead(e)| < |r| && r[..|DetalleHead(e)|] == DetalleHead(e) && r[|r| - 1] == '}'
    ensures e.cause.None? ==> EndsWith(r, TimestampSegment(e) + "}")
  {
    DetalleShape(DetalleHead(e), ContextoSegment(e), TimestampSegment(e), CausaSegment(e));
    DetalleHead(e) + ContextoSegment(e) + TimestampSegment(e) + CausaSegment(e) + "}"
  }

  /**
   * The detailed text opens with the type, code and message, closes with
   * '}', shows the context right after the opening when there is one and
   * the timestamp there otherwise, and ends with the cause segment, or with
   * the timestamp when there is no cause.
   */
  lemma DetalleCompletoShape(e: ApiException)
    ensures var r := DetalleCompleto(e);
      && |DetalleHead(e)| < |r| && r[..|DetalleHead(e)|] == DetalleHead(e) && r[|r| - 1] == '}'
      && (e.contexto.Some? ==> OccursAt(r, ContextoSegment(e), |DetalleHead(e)|))
      && (e.contexto.None? ==> OccursAt(r, TimestampSegment(e), |DetalleHead(e)|))
      && (e.cause.Some? ==> EndsWith(r, CausaSegment(e) + "}"))
      && (e.cause.None? ==> EndsWith(r, TimestampSegment(e) + "}"))
  {
    DetalleShape(DetalleHead(e), ContextoSegment(e), TimestampSegment(e), CausaSegment(e));
    if e.contexto.None? {
      DetalleSinContexto(DetalleHead(e), TimestampSegment(e), CausaSegment(e));
    }
  }

  /** With no context segment, the piece after the opening is the timestamp segment. */
  lemma DetalleSinContexto(head: string, mid: string, causa: string)
    ensures OccursAt(head + "" + mid + causa + "}", mid, |head|)
  {
    var r := head + "" + mid + causa + "}";
    assert r == head + mid + (causa + "}");
    assert r[|head|..|head| + |mid|] == mid;
  }

  predicate EndsWith(s: string, suffix: string)
  {
    |suffix| <= |s| && s[|s| - |suffix|..] == suffix
  }

  lemma DetalleShape(head: string, ctx: string, mid: string, causa: string)
    ensures var r := head + ctx + mid + causa + "}";
      |head| < |r| && r[..|head|] == head && r[|r| - 1] == '}'
      && OccursAt(r, ctx, |head|)
      && EndsWith(r, causa + "}")
      && (causa == "" ==> EndsWith(r, mid + "}"))
  {
    var r := head + ctx + mid + causa + "}";
    assert r == head + (ctx + (mid + (causa + "}")));
    assert r[|head|..] == ctx + (mid + (causa + "}"));
    if causa == "" {
      assert mid + causa + "}" == mid + "}";
    }
  }
}
