/**
 * The global exception handler: it turns a domain exception, or any other
 * failure, into an HTTP answer whose body is an error response, and it
 * counts the errors it handles. The request identifier and the clock
 * reading are parameters.
 */
module Handler {
  import opened JavaText
  import opened Responses
  import opened Exceptions

  const CEDULA_KEY: string := "cedula="
  const MENSAJE_INTERNO: string := "Error interno del servidor. Contacte al administrador si persiste."

  // ---------------------------------------------------------------------
  // Reading the context of an exception
  // ---------------------------------------------------------------------

  /** No ',' at the positions the search for "," passed over. */
  lemma NoCommaBetween(c: string, inicio: nat, fin: int)
    requires inicio <= fin <= |c|
    requires forall i :: inicio <= i < fin ==> !OccursAt(c, ",", i)
    ensures NoChar(c[inicio..fin], ',')
  {
    forall j | 0 <= j < fin - inicio
      ensures c[inicio..fin][j] != ','
    {
      if c[inicio + j] == ',' {
        assert c[inicio + j..inicio + j + 1] == ",";
        assert OccursAt(c, ",", inicio + j);
      }
    }
  }

  /**
   * The cédula named in a context: the text after the first "cedula=" up to
   * the next ',' or the end. A missing context, or one that names no
   * cédula, gives null; nothing else can go wrong.
   */
  function ExtraerCedulaDeContexto(contexto: JString): (r: JString)
    ensures r.Some? <==> contexto.Some? && Contains(contexto.value, CEDULA_KEY)
    ensures r.Some? ==> NoChar(r.value, ',')
    ensures r.Some? ==>
      var c := contexto.value;
      var i := IndexOfFrom(c, CEDULA_KEY, 0) + |CEDULA_KEY|;
      && 0 <= i && i + |r.value| <= |c| && c[i..i + |r.value|] == r.value
      && (i + |r.value| == |c| || c[i + |r.value|] == ',')
  {
    if contexto.None? || !Contains(contexto.value, CEDULA_KEY) then None
    else
      var c := contexto.value;
      var inicio := IndexOfFrom(c, CEDULA_KEY, 0) + |CEDULA_KEY|;
      var coma := IndexOfFrom(c, ",", inicio);
      var fin := if coma == -1 then |c| else coma;
      NoCommaBetween(c, inicio, fin);
      assert coma != -1 ==> c[coma..coma + 1] == ",";
      Some(c[inicio..fin])
  }

  /** "cedula=" followed by a text without ',' gives that text back. */
  lemma ExtraerDeClave(c: string)
    requires NoChar(c, ',')
    ensures ExtraerCedulaDeContexto(Some(CEDULA_KEY + c)) == Some(c)
  {
    var s := CEDULA_KEY + c;
    assert s[0..|CEDULA_KEY|] == CEDULA_KEY;
    assert IndexOfFrom(s, CEDULA_KEY, 0) == 0;
    assert NoChar(s[|CEDULA_KEY|..], ',');
    assert s[|CEDULA_KEY|..|s|] == c;
  }

  /**
   * The cédula of an invalid-cédula or not-found exception comes back out
   * of its context, when it holds no ','; a null cédula comes back as the
   * word "null".
   */
  lemma CedulaRoundTrip(cedula: JString, now: int)
    requires NoChar(Show(cedula), ',')
    ensures ExtraerCedulaDeContexto(CedulaInvalida(cedula, now).contexto) == Some(Show(cedula))
    ensures ExtraerCedulaDeContexto(CiudadanoNoEncontrado(cedula, now).contexto) == Some(Show(cedula))
  {
    ExtraerDeClave(Show(cedula));
  }

  /** The unsupported-format refusal names no cédula, for any format name without a 'c'. */
  lemma FormatoContextNamesNoCedula(formato: JString, now: int)
    requires NoChar(Show(formato), 'c')
    ensures ExtraerCedulaDeContexto(FormatoNoSoportado(formato, now).contexto).None?
  {
    var a := "formato=";
    assert NoChar(a, 'c');
    NoCharConcat(a, Show(formato), 'c');
    NotContainsWithoutHead(a + Show(formato), CEDULA_KEY);
  }

  // ---------------------------------------------------------------------
  // Parameter names of constraint violations
  // ---------------------------------------------------------------------

  /** A text holds a character exactly when it contains it as a one-letter string. */
  lemma ContainsChar(s: string, c: char)
    ensures Contains(s, [c]) <==> !NoChar(s, c)
  {
    if !NoChar(s, c) {
      var i :| 0 <= i < |s| && s[i] == c;
      assert s[i..i + 1] == [c];
      ContainsAt(s, [c], i);
    } else {
      NotContainsWithoutHead(s, [c]);
    }
  }

  /** The parameter name of a property path: the part after the last '.', or the whole path. */
  function NombreParametro(path: string): (r: string)
    ensures NoChar(r, '.')
    ensures |r| <= |path| && r == path[|path| - |r|..]
    ensures |r| < |path| ==> path[|path| - |r| - 1] == '.'
  {
    ContainsChar(path, '.');
    if Contains(path, ".") then path[LastIndexOf(path, '.') + 1..] else path
  }

  /** A dotted path gives back its last segment; a path without '.' is its own name. */
  lemma NombreParametroRoundTrip(prefix: string, name: string)
    requires NoChar(name, '.')
    ensures NombreParametro(prefix + "." + name) == name
    ensures NombreParametro(name) == name
  {
    var p := prefix + "." + name;
    var r := NombreParametro(p);
    assert p[|prefix|] == '.';
    assert p[|p| - |name|..] == name;
    ContainsChar(name, '.');
  }

  // ---------------------------------------------------------------------
  // The answers
  // ---------------------------------------------------------------------

  /** Neither a client error nor an external-service error: counted as internal. */
  predicate EsInterno(ex: ApiException)
  {
    !ex.EsErrorCliente() && !ex.EsErrorServicioExterno()
  }

  /**
   * The answer to a domain exception: the type's status, the request
   * identifier and the type's name as headers, and an error body carrying
   * the exception's message and code, the cédula named in its context and
   * no elapsed time.
   */
  function RespuestaApi(ex: ApiException, requestId: string, now: int): (r: HttpResponse)
    ensures r.status == ex.tipoError.StatusHttp()
    ensures r.headers == map["X-Request-ID" := requestId, "X-Error-Type" := ex.tipoError.Name()]
    ensures r.body == Error(ex.message, Some(ex.codigoError), ExtraerCedulaDeContexto(ex.contexto), 0, now)
  {
    HttpResponse(ex.StatusHttp(),
      map["X-Request-ID" := requestId, "X-Error-Type" := ex.tipoError.Name()],
      Error(ex.message, Some(ex.codigoError), ExtraerCedulaDeContexto(ex.contexto), 0, now))
  }

  /** The answer to any other failure: 500 with a fixed message that hides the failure's own. */
  function RespuestaGenerica(requestId: string, now: int): (r: HttpResponse)
    ensures r.status == 500
    ensures r.headers == map["X-Request-ID" := requestId, "X-Error-Type" := "INTERNAL"]
    ensures r.body == Error(Some(MENSAJE_INTERNO), Some("ERROR_INTERNO"), None, 0, now)
  {
    HttpResponse(500, map["X-Request-ID" := requestId, "X-Error-Type" := "INTERNAL"],
      Error(Some(MENSAJE_INTERNO), Some("ERROR_INTERNO"), None, 0, now))
  }

  /**
   * A domain exception built by any constructor is answered with an error
   * body whose code is the type's name, and with a 4xx status exactly when
   * it is a client error.
   */
  lemma RespuestaApiShape(ex: ApiException, requestId: string, now: int)
    requires ex.codigoError == ex.tipoError.Name()
    ensures var r := RespuestaApi(ex, requestId, now);
      && !r.body.exitosa && r.body.datos.None? && r.body.tiempoRespuesta == 0
      && r.body.codigo == Some(ex.tipoError.Name()) && r.headers["X-Error-Type"] == r.body.codigo.value
      && (400 <= r.status < 500 <==> ex.EsErrorCliente())
      && (500 <= r.status < 600 <==> ex.EsErrorServidor())
  {
  }

  /**
   * The invalid-cédula refusal echoes the cédula as the request showed it:
   * the formatted text, or "null" for a missing one.
   */
  lemma CedulaInvalidaAnswer(cedula: JString, requestId: string, now: int)
    requires NoChar(Show(cedula), ',')
    ensures var r := RespuestaApi(CedulaInvalida(cedula, now), requestId, now);
      r.status == 400 && r.body.codigo == Some("CEDULA_INVALIDA") && r.body.cedulaConsultada == Some(Show(cedula))
  {
    CedulaRoundTrip(cedula, now);
  }

  /** Internal failures are those answered with a server error by a type outside the four JCE_* types. */
  lemma InternoIffServidorPropio(ex: ApiException)
    ensures EsInterno(ex) <==> ex.EsErrorServidor() && !ex.EsErrorServicioExterno()
  {
    ClientServerExclusive(ex.tipoError);
  }

  /** The handler with its three error counters. */
  class ExceptionHandler {
    var errores: nat
    var erroresValidacion: nat
    var erroresInternos: nat

    constructor()
      ensures errores == 0 && erroresValidacion == 0 && erroresInternos == 0
    {
      errores, erroresValidacion, erroresInternos := 0, 0, 0;
    }

    /** Handles a domain exception; internal ones are also counted as internal. */
    method HandleApiException(ex: ApiException, requestId: string, now: int) returns (r: HttpResponse)
      modifies this
      ensures r == RespuestaApi(ex, requestId, now)
      ensures errores == old(errores) + 1 && erroresValidacion == old(erroresValidacion)
      ensures erroresInternos == old(erroresInternos) + (if EsInterno(ex) then 1 else 0)
    {
      errores := errores + 1;
      if ex.EsErrorCliente() {
      } else if ex.EsErrorServicioExterno() {
      } else {
        erroresInternos := erroresInternos + 1;
      }
      r := RespuestaApi(ex, requestId, now);
    }

    /** Handles any other failure: always counted, always as internal. */
    method HandleGenericException(t: Throwable, requestId: string, now: int) returns (r: HttpResponse)
      modifies this
      ensures r == RespuestaGenerica(requestId, now)
      ensures errores == old(errores) + 1 && erroresInternos == old(erroresInternos) + 1
      ensures erroresValidacion == old(erroresValidacion)
    {
      errores := errores + 1;
      erroresInternos := erroresInternos + 1;
      r := RespuestaGenerica(requestId, now);
    }

    /**
     * The choice of handler: domain exceptions go to their own handler,
     * every other failure of the model to the generic one.
     */
    method Handle(t: Throwable, requestId: string, now: int) returns (r: HttpResponse)
      modifies this
      ensures t.Api? ==> r == RespuestaApi(t.ex, requestId, now)
      ensures !t.Api? ==> r == RespuestaGenerica(requestId, now)
      ensures errores == old(errores) + 1 && erroresValidacion == old(erroresValidacion)
      ensures erroresInternos == old(erroresInternos) + (if t.Api? && !EsInterno(t.ex) then 0 else 1)
    {
      if t.Api? {
        r := HandleApiException(t.ex, requestId, now);
      } else {
        r := HandleGenericException(t, requestId, now);
      }
    }
  }
}
