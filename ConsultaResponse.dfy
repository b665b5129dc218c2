/**
 * The response the service returns: the outcome flag, message, code, the
 * timestamp and elapsed time, the queried cédula, and optionally the
 * citizen's data and the photo block. The clock reading is a parameter.
 */
module Responses {
  import opened JavaText

  const MENSAJE_EXITO: string := "Consulta realizada exitosamente"
  const CODIGO_EXITO: string := "SUCCESS"
  const FOTO_DISPONIBLE: string := "Foto encontrada y disponible"
  const FOTO_NO_DISPONIBLE: string := "Foto no disponible"

  /** The citizen data as exposed to clients; any field may be absent. */
  datatype DatosCiudadano = DatosCiudadano(
    nombres: JString,
    primerApellido: JString,
    segundoApellido: JString,
    nombreCompleto: JString,
    fechaNacimiento: JString,
    lugarNacimiento: JString,
    fechaExpiracion: JString,
    sexo: JString,
    estadoCivil: JString,
    edad: JString,
    codigoNacionalidad: JString,
    nacionalidad: JString,
    municipioCedula: JString,
    secuenciaCedula: JString,
    ocupacion: JString,
    conyugue: JString,
    cedulaConyugue: JString,
    padre: JString,
    madre: JString,
    cedulaVieja: JString,
    pasaporte: JString,
    categoria: JString,
    descripcionCategoria: JString,
    estatus: JString,
    codigoCausa: JString,
    descripcionCausaInhabilidad: JString,
    descripcionTipoCausa: JString)
  {
    /** A family member is named; a view that nulls the three family fields never reports one. */
    function TieneInformacionFamiliar(): (b: bool)
      ensures b ==> conyugue.Some? || padre.Some? || madre.Some?
      ensures conyugue.None? && padre.None? && madre.None? ==> !b
    {
      HasText(conyugue) || HasText(padre) || HasText(madre)
    }

    /** An extra document is named; a view that nulls both document fields never reports one. */
    function TieneDocumentosAdicionales(): (b: bool)
      ensures b ==> cedulaVieja.Some? || pasaporte.Some?
      ensures cedulaVieja.None? && pasaporte.None? ==> !b
    {
      HasText(cedulaVieja) || HasText(pasaporte)
    }
  }

  /** " " followed by the surname when it has text, nothing otherwise. */
  function SurnameSuffix(apellido: JString): string
  {
    if HasText(apellido) then " " + apellido.value else ""
  }

  /**
   * The record's compact constructor: `raw` holds the components as passed.
   * A missing full name is derived from the given names and the non-blank
   * surnames; nothing else is touched.
   */
  function NuevoDatosCiudadano(raw: DatosCiudadano): (d: DatosCiudadano)
    ensures d.(nombreCompleto := raw.nombreCompleto) == raw
    ensures raw.nombreCompleto.Some? || raw.nombres.None? ==> d == raw
    ensures raw.nombreCompleto.None? && raw.nombres.Some? ==>
      d.nombreCompleto == Some(Trim(raw.nombres.value + SurnameSuffix(raw.primerApellido)
                                                      + SurnameSuffix(raw.segundoApellido)))
  {
    if raw.nombreCompleto.None? && raw.nombres.Some? then
      raw.(nombreCompleto := Some(Trim(raw.nombres.value + SurnameSuffix(raw.primerApellido)
                                                        + SurnameSuffix(raw.segundoApellido))))
    else raw
  }

  /** Constructing again from the components of a constructed record changes nothing. */
  lemma NuevoDatosCiudadanoIdempotent(raw: DatosCiudadano)
    ensures NuevoDatosCiudadano(NuevoDatosCiudadano(raw)) == NuevoDatosCiudadano(raw)
  {
  }

  /** A full name is present after construction exactly when one was given or given names were. */
  lemma NombreCompletoPresence(raw: DatosCiudadano)
    ensures NuevoDatosCiudadano(raw).nombreCompleto.Some? <==> raw.nombreCompleto.Some? || raw.nombres.Some?
    ensures raw.nombres.None? && raw.nombreCompleto.None? ==>
      NuevoDatosCiudadano(raw).nombreCompleto.None?
  {
  }

  /**
   * When the parts are already trimmed and non-empty, the derived full name is
   * the parts with text separated by single spaces, and the surnames are
   * never glued to the given names.
   */
  lemma DerivedNombreCompleto(raw: DatosCiudadano)
    requires raw.nombreCompleto.None? && raw.nombres.Some?
    requires raw.nombres.value != "" && IsTrimmed(raw.nombres.value)
    requires raw.primerApellido.Some? ==> IsTrimmed(raw.primerApellido.value)
    requires raw.segundoApellido.Some? ==> IsTrimmed(raw.segundoApellido.value)
    ensures NuevoDatosCiudadano(raw).nombreCompleto
         == Some(raw.nombres.value + SurnameSuffix(raw.primerApellido) + SurnameSuffix(raw.segundoApellido))
  {
    var s := raw.nombres.value + SurnameSuffix(raw.primerApellido) + SurnameSuffix(raw.segundoApellido);
    var last := if HasText(raw.segundoApellido) then raw.segundoApellido.value
                else if HasText(raw.primerApellido) then raw.primerApellido.value
                else raw.nombres.value;
    assert last != "" && last[|last| - 1] > ' ' by {
      if HasText(raw.segundoApellido) {
        assert raw.segundoApellido.value != "";
      } else if HasText(raw.primerApellido) {
        assert raw.primerApellido.value != "";
      }
    }
    assert s[|s| - 1] == last[|last| - 1];
    assert s[0] == raw.nombres.value[0];
    assert IsTrimmed(s);
  }

  /** The photo block: availability, the full URL and a message. */
  datatype InformacionFoto = InformacionFoto(disponible: Option<bool>, url: JString, mensaje: JString)

  function Disponible(url: JString): (f: InformacionFoto)
    ensures f.disponible == Some(true) && f.url == url && f.mensaje == Some(FOTO_DISPONIBLE)
  {
    InformacionFoto(Some(true), url, Some(FOTO_DISPONIBLE))
  }

  function NoDisponible(razon: JString): (f: InformacionFoto)
    ensures f.disponible == Some(false) && f.url.None?
    ensures f.mensaje == Some(if razon.Some? then razon.value else FOTO_NO_DISPONIBLE)
  {
    InformacionFoto(Some(false), None, Some(if razon.Some? then razon.value else FOTO_NO_DISPONIBLE))
  }

  /** Only an available photo carries a URL, and every block carries a message. */
  lemma FotoBlocksShape(url: JString, razon: JString)
    ensures Disponible(url).disponible != NoDisponible(razon).disponible
    ensures NoDisponible(razon).url.None? && NoDisponible(razon).mensaje.Some?
    ensures Disponible(url).mensaje.Some? && Disponible(url).mensaje != NoDisponible(None).mensaje
  {
  }

  datatype ConsultaResponse = ConsultaResponse(
    exitosa: bool,
    mensaje: JString,
    codigo: JString,
    timestamp: int,
    tiempoRespuesta: int,
    cedulaConsultada: JString,
    datos: Option<DatosCiudadano>,
    foto: Option<InformacionFoto>)

  /** A successful response; `now` is the clock reading. */
  function Exitosa(cedula: JString, datos: Option<DatosCiudadano>, foto: Option<InformacionFoto>,
                   tiempo: int, now: int): (r: ConsultaResponse)
    ensures r.exitosa && r.mensaje == Some(MENSAJE_EXITO) && r.codigo == Some(CODIGO_EXITO)
    ensures r.cedulaConsultada == cedula && r.datos == datos && r.foto == foto
    ensures r.tiempoRespuesta == tiempo && r.timestamp == now
  {
    ConsultaResponse(true, Some(MENSAJE_EXITO), Some(CODIGO_EXITO), now, tiempo, cedula, datos, foto)
  }

  /** A successful response without a photo block. */
  function ExitosaSinFoto(cedula: JString, datos: Option<DatosCiudadano>, tiempo: int, now: int): (r: ConsultaResponse)
    ensures r.exitosa && r.codigo == Some(CODIGO_EXITO) && r.foto.None?
    ensures r == Exitosa(cedula, datos, None, tiempo, now)
  {
    Exitosa(cedula, datos, None, tiempo, now)
  }

  /** A failed response: never data, never a photo; the rest is echoed. */
  function Error(mensaje: JString, codigo: JString, cedula: JString, tiempo: int, now: int): (r: ConsultaResponse)
    ensures !r.exitosa && r.datos.None? && r.foto.None?
    ensures r.mensaje == mensaje && r.codigo == codigo && r.cedulaConsultada == cedula
    ensures r.tiempoRespuesta == tiempo && r.timestamp == now
  {
    ConsultaResponse(false, mensaje, codigo, now, tiempo, cedula, None, None)
  }

  /** The two factories never produce the same response, and only the error one can carry any code. */
  lemma FactoriesDisjoint(cedula: JString, datos: Option<DatosCiudadano>, foto: Option<InformacionFoto>,
                          mensaje: JString, codigo: JString, cedula2: JString, tiempo: int, tiempo2: int, now: int, now2: int)
    ensures Exitosa(cedula, datos, foto, tiempo, now) != Error(mensaje, codigo, cedula2, tiempo2, now2)
    ensures Error(mensaje, codigo, cedula2, tiempo2, now2).codigo == codigo
  {
  }

  /** An HTTP response: status, headers and the response body. */
  datatype HttpResponse = HttpResponse(status: int, headers: map<string, string>, body: ConsultaResponse)
}
