/**
 * The lookup service: it validates the request, asks the client for the
 * citizen record, shapes the record into one of four views with an optional
 * photo block, classifies failures into error responses, and keeps a cache
 * of successful responses keyed by the cleaned cédula.
 *
 * The elapsed time and the clock reading are parameters, as are the
 * portal's answers and the XML deserialiser handed on to the client.
 */
module Service {
  import opened JavaText
  import opened Request
  import opened Individuos
  import opened Responses
  import opened Exceptions
  import opened Client

  const FORMATOS_VALIDOS: set<string> := {"completo", "basico", "personal", "familiar"}

  const NO_ENCONTRADO_MSG: string := "No se encontraron datos para la cédula consultada"
  const FOTO_NO_DISPONIBLE_CEDULA: string := "Foto no disponible para esta cédula"
  const TIMEOUT_RESP_MSG: string := "Timeout consultando el portal JCE - El servicio tardó demasiado en responder"
  const CONEXION_RESP_MSG: string := "Error de conexión con el portal JCE - Servicio temporalmente no disponible"
  const PROCESAMIENTO_MSG: string := "Error procesando la consulta en el portal JCE"
  /** The text of the framework's refusal of a null cache key. */
  const NULL_KEY_MSG: string := "Null key returned for cache operation"

  // ---------------------------------------------------------------------
  // Validation
  // ---------------------------------------------------------------------

  /** The requested view is already in lower case. */
  lemma FormatoIsLower(req: ConsultaRequest)
    ensures ToLower(req.Formato()) == req.Formato()
  {
    var f := req.Formato();
    forall i | 0 <= i < |f|
      ensures ToLower(f)[i] == f[i]
    {
      if req.formato.None? || IsBlank(req.formato.value) {
        assert f == "completo";
        assert 'a' <= f[i] <= 'z';
      } else {
        assert f[i] == LowerChar(req.formato.value[i]);
      }
    }
  }

  /**
   * An invalid cédula is refused first, with its formatted value; then a
   * view outside the four names is refused; anything else passes unchanged.
   */
  function ValidateRequest(req: ConsultaRequest, now: int): (r: Result<ConsultaRequest, ApiException>)
    ensures !req.EsCedulaValida() ==> r == Err(CedulaInvalida(req.CedulaFormateada(), now))
    ensures req.EsCedulaValida() && req.Formato() !in FORMATOS_VALIDOS ==>
      r == Err(FormatoNoSoportado(Some(req.Formato()), now))
    ensures r.Ok? <==> req.EsCedulaValida() && req.Formato() in FORMATOS_VALIDOS
    ensures r.Ok? ==> r.value == req
  {
    FormatoIsLower(req);
    if !req.EsCedulaValida() then Err(CedulaInvalida(req.CedulaFormateada(), now))
    else if ToLower(req.Formato()) !in FORMATOS_VALIDOS then Err(FormatoNoSoportado(Some(req.Formato()), now))
    else Ok(req)
  }

  /** Lower-case ASCII text comes back from upper-casing and lower-casing. */
  lemma LowerOfUpper(f: string)
    requires forall i :: 0 <= i < |f| ==> 'a' <= f[i] <= 'z'
    ensures ToLower(ToUpper(f)) == f
  {
    var r := ToLower(ToUpper(f));
    forall i | 0 <= i < |f|
      ensures r[i] == f[i]
    {
      assert ToUpper(f)[i] == UpperChar(f[i]);
    }
  }

  /** The view names are recognised in any case: upper-cased, they still select the view. */
  lemma FormatoIgnoresCase(cedula: JString, foto: Option<bool>, f: string)
    requires f in FORMATOS_VALIDOS
    ensures ConsultaRequest(cedula, foto, Some(ToUpper(f))).Formato() == f
  {
    assert f == "completo" || f == "basico" || f == "personal" || f == "familiar";
    assert forall i :: 0 <= i < |f| ==> 'a' <= f[i] <= 'z';
    LowerOfUpper(f);
    assert 'A' <= ToUpper(f)[0] <= 'Z';
    assert !IsWhitespace(ToUpper(f)[0]);
  }

  // ---------------------------------------------------------------------
  // Field cleaning
  // ---------------------------------------------------------------------

  /** A cleaned field: absent, or trimmed, non-empty and not the word "null" in any case. */
  predicate Limpio(v: JString)
  {
    v.None? || (v.value != "" && IsTrimmed(v.value) && !EqualsIgnoreCase("null", v.value))
  }

  /** Null, trim-empty or the word "null" after trimming become null; anything else is trimmed. */
  function LimpiarCampo(campo: JString): (r: JString)
    ensures Limpio(r)
    ensures r.None? <==>
      campo.None? || Trim(campo.value) == "" || EqualsIgnoreCase("null", Trim(campo.value))
    ensures r.Some? ==> r.value == Trim(campo.value)
  {
    if campo.None? || Trim(campo.value) == "" || EqualsIgnoreCase("null", Trim(campo.value)) then None
    else Some(Trim(campo.value))
  }

  /** Cleaned fields are exactly the fields cleaning leaves alone; so cleaning is idempotent. */
  lemma LimpiarCampoFixedPoints(campo: JString)
    ensures LimpiarCampo(campo) == campo <==> Limpio(campo)
    ensures LimpiarCampo(LimpiarCampo(campo)) == LimpiarCampo(campo)
  {
  }

  // ---------------------------------------------------------------------
  // The four views
  // ---------------------------------------------------------------------

  /** The fields of the citizen data, one per component. */
  datatype Campo =
    | Nombres | PrimerApellido | SegundoApellido | NombreCompleto | FechaNacimiento | LugarNacimiento
    | FechaExpiracion | Sexo | EstadoCivil | Edad | CodigoNacionalidad | Nacionalidad | MunicipioCedula
    | SecuenciaCedula | Ocupacion | Conyugue | CedulaConyugue | Padre | Madre | CedulaVieja | Pasaporte
    | Categoria | DescripcionCategoria | Estatus | CodigoCausa | DescripcionCausaInhabilidad
    | DescripcionTipoCausa

  function Get(d: DatosCiudadano, c: Campo): JString
  {
    match c
    case Nombres => d.nombres
    case PrimerApellido => d.primerApellido
    case SegundoApellido => d.segundoApellido
    case NombreCompleto => d.nombreCompleto
    case FechaNacimiento => d.fechaNacimiento
    case LugarNacimiento => d.lugarNacimiento
    case FechaExpiracion => d.fechaExpiracion
    case Sexo => d.sexo
    case EstadoCivil => d.estadoCivil
    case Edad => d.edad
    case CodigoNacionalidad => d.codigoNacionalidad
    case Nacionalidad => d.nacionalidad
    case MunicipioCedula => d.municipioCedula
    case SecuenciaCedula => d.secuenciaCedula
    case Ocupacion => d.ocupacion
    case Conyugue => d.conyugue
    case CedulaConyugue => d.cedulaConyugue
    case Padre => d.padre
    case Madre => d.madre
    case CedulaVieja => d.cedulaVieja
    case Pasaporte => d.pasaporte
    case Categoria => d.categoria
    case DescripcionCategoria => d.descripcionCategoria
    case Estatus => d.estatus
    case CodigoCausa => d.codigoCausa
    case DescripcionCausaInhabilidad => d.descripcionCausaInhabilidad
    case DescripcionTipoCausa => d.descripcionTipoCausa
  }

  /**
   * The record value each field is taken from: the codes are replaced by
   * their descriptions, the nationality is its description, and the full
   * name is not taken from the record.
   */
  function Origen(ind: Individuo, c: Campo): JString
  {
    match c
    case Nombres => ind.nombres
    case PrimerApellido => ind.apellido1
    case SegundoApellido => ind.apellido2
    case NombreCompleto => None
    case FechaNacimiento => ind.fechaNacimiento
    case LugarNacimiento => ind.lugarNacimiento
    case FechaExpiracion => ind.fechaExpiracion
    case Sexo => ind.sexo
    case EstadoCivil => Some(ind.EstadoCivilDescripcion())
    case Edad => ind.edad
    case CodigoNacionalidad => ind.codigoNacionalidad
    case Nacionalidad => ind.descripcionNacionalidad
    case MunicipioCedula => ind.municipioCedula
    case SecuenciaCedula => ind.secuenciaCedula
    case Ocupacion => ind.ocupacion
    case Conyugue => ind.conyugue
    case CedulaConyugue => ind.cedulaConyugue
    case Padre => ind.padre
    case Madre => ind.madre
    case CedulaVieja => ind.cedulaVieja
    case Pasaporte => ind.pasaporte
    case Categoria => ind.categoria
    case DescripcionCategoria => ind.descripcionCategoria
    case Estatus => Some(ind.EstatusDescripcion())
    case CodigoCausa => ind.codigoCausa
    case DescripcionCausaInhabilidad => ind.descripcionCausaInhabilidad
    case DescripcionTipoCausa => ind.descripcionTipoCausa
  }

  /** The fields of the basic view. */
  const BASICO: set<Campo> :=
    {Nombres, PrimerApellido, SegundoApellido, NombreCompleto, FechaNacimiento, Sexo, EstadoCivil, Nacionalidad, Estatus}

  /** The family fields, left out of the personal view. */
  const FAMILIA: set<Campo> := {Conyugue, CedulaConyugue, Padre, Madre}

  /** The components passed to the constructor for the complete view. */
  function ComponentesCompletos(ind: Individuo): DatosCiudadano
  {
    DatosCiudadano(
      LimpiarCampo(ind.nombres), LimpiarCampo(ind.apellido1), LimpiarCampo(ind.apellido2), None,
      LimpiarCampo(ind.fechaNacimiento), LimpiarCampo(ind.lugarNacimiento), LimpiarCampo(ind.fechaExpiracion),
      LimpiarCampo(ind.sexo), LimpiarCampo(Some(ind.EstadoCivilDescripcion())), LimpiarCampo(ind.edad),
      LimpiarCampo(ind.codigoNacionalidad), LimpiarCampo(ind.descripcionNacionalidad),
      LimpiarCampo(ind.municipioCedula), LimpiarCampo(ind.secuenciaCedula), LimpiarCampo(ind.ocupacion),
      LimpiarCampo(ind.conyugue), LimpiarCampo(ind.cedulaConyugue), LimpiarCampo(ind.padre),
      LimpiarCampo(ind.madre), LimpiarCampo(ind.cedulaVieja), LimpiarCampo(ind.pasaporte),
      LimpiarCampo(ind.categoria), LimpiarCampo(ind.descripcionCategoria),
      LimpiarCampo(Some(ind.EstatusDescripcion())), LimpiarCampo(ind.codigoCausa),
      LimpiarCampo(ind.descripcionCausaInhabilidad), LimpiarCampo(ind.descripcionTipoCausa))
  }

  /** The complete view: every field cleaned, the full name derived by the constructor. */
  function CrearDatosCompletos(ind: Individuo): (d: DatosCiudadano)
    ensures d.(nombreCompleto := None) == ComponentesCompletos(ind)
    ensures d.nombreCompleto.Some? <==> d.nombres.Some?
  {
    NuevoDatosCiudadano(ComponentesCompletos(ind))
  }

  /** The personal view: the complete view without the family fields. */
  function CrearDatosPersonales(ind: Individuo): (d: DatosCiudadano)
    ensures d == CrearDatosCompletos(ind).(conyugue := None, cedulaConyugue := None, padre := None, madre := None)
  {
    NuevoDatosCiudadano(ComponentesCompletos(ind).(conyugue := None, cedulaConyugue := None, padre := None, madre := None))
  }

  /** The basic view: names, birth date, sex, civil status, nationality and status. */
  function CrearDatosBasicos(ind: Individuo): (d: DatosCiudadano)
    ensures d == CrearDatosCompletos(ind).(
      lugarNacimiento := None, fechaExpiracion := None, edad := None, codigoNacionalidad := None,
      municipioCedula := None, secuenciaCedula := None, ocupacion := None, conyugue := None,
      cedulaConyugue := None, padre := None, madre := None, cedulaVieja := None, pasaporte := None,
      categoria := None, descripcionCategoria := None, codigoCausa := None,
      descripcionCausaInhabilidad := None, descripcionTipoCausa := None)
  {
    NuevoDatosCiudadano(DatosCiudadano(
      LimpiarCampo(ind.nombres), LimpiarCampo(ind.apellido1), LimpiarCampo(ind.apellido2), None,
      LimpiarCampo(ind.fechaNacimiento), None, None, LimpiarCampo(ind.sexo),
      LimpiarCampo(Some(ind.EstadoCivilDescripcion())), None, None, LimpiarCampo(ind.descripcionNacionalidad),
      None, None, None, None, None, None, None, None, None, None, None,
      LimpiarCampo(Some(ind.EstatusDescripcion())), None, None, None))
  }

  /** Each field of the complete view but the full name is the cleaned value of its record field. */
  lemma CompletoFromRecord(ind: Individuo, c: Campo)
    requires c != NombreCompleto
    ensures Get(CrearDatosCompletos(ind), c) == LimpiarCampo(Origen(ind, c))
  {
    var d := CrearDatosCompletos(ind);
    assert Get(d, c) == Get(d.(nombreCompleto := None), c);
  }

  /** Blanking the fields outside BASICO keeps exactly the fields of BASICO. */
  lemma SoloBasicoGet(d: DatosCiudadano, c: Campo)
    ensures Get(d.(
      lugarNacimiento := None, fechaExpiracion := None, edad := None, codigoNacionalidad := None,
      municipioCedula := None, secuenciaCedula := None, ocupacion := None, conyugue := None,
      cedulaConyugue := None, padre := None, madre := None, cedulaVieja := None, pasaporte := None,
      categoria := None, descripcionCategoria := None, codigoCausa := None,
      descripcionCausaInhabilidad := None, descripcionTipoCausa := None), c)
      == if c in BASICO then Get(d, c) else None
  {
  }

  /** Blanking the family fields keeps every other field. */
  lemma SinFamiliaGet(d: DatosCiudadano, c: Campo)
    ensures Get(d.(conyugue := None, cedulaConyugue := None, padre := None, madre := None), c)
      == if c in FAMILIA then None else Get(d, c)
  {
  }

  /** The basic view holds exactly the fields of BASICO, as the complete view has them. */
  lemma BasicoView(ind: Individuo, c: Campo)
    ensures Get(CrearDatosBasicos(ind), c) == if c in BASICO then Get(CrearDatosCompletos(ind), c) else None
  {
    SoloBasicoGet(CrearDatosCompletos(ind), c);
  }

  /** The personal view is the complete view without the fields of FAMILIA. */
  lemma PersonalView(ind: Individuo, c: Campo)
    ensures Get(CrearDatosPersonales(ind), c) == if c in FAMILIA then None else Get(CrearDatosCompletos(ind), c)
  {
    SinFamiliaGet(CrearDatosCompletos(ind), c);
  }

  /**
   * The family view: personal data plus the family fields, each cleaned,
   * with the full name derived by the constructor.
   */
  function CrearDatosFamiliares(ind: Individuo): (d: DatosCiudadano)
    ensures d.conyugue == LimpiarCampo(ind.conyugue) && d.cedulaConyugue == LimpiarCampo(ind.cedulaConyugue)
    ensures d.padre == LimpiarCampo(ind.padre) && d.madre == LimpiarCampo(ind.madre)
    ensures d.nombreCompleto.Some? <==> d.nombres.Some?
  {
    NuevoDatosCiudadano(DatosCiudadano(
      LimpiarCampo(ind.nombres),
      LimpiarCampo(ind.apellido1),
      LimpiarCampo(ind.apellido2),
      None,
      LimpiarCampo(ind.fechaNacimiento),
      LimpiarCampo(ind.lugarNacimiento),
      LimpiarCampo(ind.fechaExpiracion),
      LimpiarCampo(ind.sexo),
      LimpiarCampo(Some(ind.EstadoCivilDescripcion())),
      LimpiarCampo(ind.edad),
      LimpiarCampo(ind.codigoNacionalidad),
      LimpiarCampo(ind.descripcionNacionalidad),
      LimpiarCampo(ind.municipioCedula),
      LimpiarCampo(ind.secuenciaCedula),
      LimpiarCampo(ind.ocupacion),
      LimpiarCampo(ind.conyugue),
      LimpiarCampo(ind.cedulaConyugue),
      LimpiarCampo(ind.padre),
      LimpiarCampo(ind.madre),
      LimpiarCampo(ind.cedulaVieja),
      LimpiarCampo(ind.pasaporte),
      LimpiarCampo(ind.categoria),
      LimpiarCampo(ind.descripcionCategoria),
      LimpiarCampo(Some(ind.EstatusDescripcion())),
      LimpiarCampo(ind.codigoCausa),
      LimpiarCampo(ind.descripcionCausaInhabilidad),
      LimpiarCampo(ind.descripcionTipoCausa)))
  }

  /**
   * The view for a requested format; no format means the complete view,
   * and any unrecognised name also gets the complete view.
   */
  function Convertir(ind: Individuo, formato: JString): (d: DatosCiudadano)
    ensures formato.Some? && ToLower(formato.value) == "basico" ==> d == CrearDatosBasicos(ind)
    ensures formato.Some? && ToLower(formato.value) == "personal" ==> d == CrearDatosPersonales(ind)
    ensures formato.Some? && ToLower(formato.value) == "familiar" ==> d == CrearDatosFamiliares(ind)
    ensures formato.None? || ToLower(formato.value) !in {"basico", "personal", "familiar"} ==> d == CrearDatosCompletos(ind)
  {
    var f := if formato.None? then "completo" else ToLower(formato.value);
    if f == "basico" then CrearDatosBasicos(ind)
    else if f == "personal" then CrearDatosPersonales(ind)
    else if f == "familiar" then CrearDatosFamiliares(ind)
    else CrearDatosCompletos(ind)
  }

  /**
   * The family builder and the complete builder, written separately, produce
   * the same record: the family view is the complete view, field for field.
   */
  lemma FamiliarIsCompleto(ind: Individuo)
    ensures CrearDatosFamiliares(ind) == CrearDatosCompletos(ind)
    ensures Convertir(ind, Some("familiar")) == Convertir(ind, Some("completo")) == Convertir(ind, None)
    ensures forall c :: Get(Convertir(ind, Some("familiar")), c) == Get(CrearDatosCompletos(ind), c)
  {
    assert ToLower("familiar") == "familiar";
    assert ToLower("completo") == "completo";
  }

  /** Every field of every view except the derived full name is a cleaned value. */
  lemma ViewsAreClean(ind: Individuo, formato: JString, c: Campo)
    requires c != NombreCompleto
    ensures Limpio(Get(Convertir(ind, formato), c))
  {
    CompletoFromRecord(ind, c);
    BasicoView(ind, c);
    PersonalView(ind, c);
  }

  /** All views agree on the names and the full name. */
  lemma ViewsShareNames(ind: Individuo, formato: JString)
    ensures var d := Convertir(ind, formato);
      d.nombres == CrearDatosCompletos(ind).nombres
      && d.nombreCompleto == CrearDatosCompletos(ind).nombreCompleto
  {
  }

  /** The personal and basic views carry no family information; the basic one no extra documents. */
  lemma RestrictedViewsHideFamily(ind: Individuo)
    ensures !CrearDatosPersonales(ind).TieneInformacionFamiliar()
    ensures !CrearDatosBasicos(ind).TieneInformacionFamiliar()
    ensures !CrearDatosBasicos(ind).TieneDocumentosAdicionales()
  {
  }

  /** Trimming returns a contiguous piece of the text, starting at `k`. */
  lemma TrimIsSlice(s: string) returns (k: nat)
    ensures k + |Trim(s)| <= |s| && Trim(s) == s[k..k + |Trim(s)|]
  {
    var e := TrimEnd(s);
    var t := TrimStart(e);
    assert Trim(s) == t;
    assert t == e[|e| - |t|..] && e == s[..|e|];
    k := |e| - |t|;
    assert t == s[k..k + |t|];
  }

  /** A cleaned value with text comes from a field with text. */
  lemma CleanTextFromText(v: JString)
    requires HasText(LimpiarCampo(v))
    ensures HasText(v)
  {
    var t := Trim(v.value);
    var k := TrimIsSlice(v.value);
    var i :| 0 <= i < |t| && !IsWhitespace(t[i]);
    assert v.value[k + i] == t[i];
  }

  /** The complete view has family information when a cleaned spouse or parent has text. */
  lemma FamiliaDeVista(ind: Individuo)
    ensures CrearDatosCompletos(ind).TieneInformacionFamiliar() <==>
      HasText(LimpiarCampo(ind.conyugue)) || HasText(LimpiarCampo(ind.padre)) || HasText(LimpiarCampo(ind.madre))
  {
    CompletoFromRecord(ind, Conyugue);
    CompletoFromRecord(ind, Padre);
    CompletoFromRecord(ind, Madre);
  }

  /** Family information in the complete view implies family information in the record. */
  lemma FamiliaSoloSiRegistro(ind: Individuo)
    ensures CrearDatosCompletos(ind).TieneInformacionFamiliar() ==> ind.TieneInformacionFamiliar()
  {
    FamiliaDeVista(ind);
    if HasText(LimpiarCampo(ind.conyugue)) {
      CleanTextFromText(ind.conyugue);
    } else if HasText(LimpiarCampo(ind.padre)) {
      CleanTextFromText(ind.padre);
    } else if HasText(LimpiarCampo(ind.madre)) {
      CleanTextFromText(ind.madre);
    }
  }

  /**
   * The converse fails: a spouse recorded as the word "null" counts as
   * family information in the record and is cleaned away in the view.
   */
  lemma NullSpouseHidden(ind: Individuo)
    requires ind.conyugue == Some("null") && ind.padre.None? && ind.madre.None?
    ensures ind.TieneInformacionFamiliar() && !CrearDatosCompletos(ind).TieneInformacionFamiliar()
  {
    FamiliaDeVista(ind);
    NullWordCleaned();
  }

  /** The word "null" has text, and cleaning removes it. */
  lemma NullWordCleaned()
    ensures HasText(Some("null")) && LimpiarCampo(Some("null")).None?
  {
    assert !IsWhitespace("null"[0]);
    assert IsTrimmed("null");
    assert EqualsIgnoreCase("null", "null");
  }

  /** On plain text, a trim that is not empty has text. */
  lemma TrimmedPlainHasText(s: string)
    requires PlainText(s) && Trim(s) != ""
    ensures !IsBlank(Trim(s))
  {
    var t := Trim(s);
    var k := TrimIsSlice(s);
    assert t[0] == s[k];
  }

  /** A name part on plain text that is not the word "null": it has text exactly when cleaning keeps it. */
  lemma NamePartAgrees(v: JString)
    requires v.None? || (PlainText(v.value) && !EqualsIgnoreCase("null", Trim(v.value)))
    ensures HasText(v) <==> LimpiarCampo(v).Some?
    ensures HasText(v) ==> HasText(LimpiarCampo(v)) && Contribution(v) == [LimpiarCampo(v).value]
    ensures !HasText(v) ==> Contribution(v) == []
    ensures Clean(v)
  {
    if v.Some? {
      PlainBlankIffTrimEmpty(v.value);
      if Trim(v.value) != "" {
        TrimmedPlainHasText(v.value);
      }
    }
  }

  lemma JoinTwo(x: string, y: string)
    ensures JoinWithSpaces([x, y]) == x + " " + y
  {
    assert [x, y][..1] == [x];
  }

  lemma JoinThree(x: string, y: string, z: string)
    ensures JoinWithSpaces([x, y, z]) == x + " " + y + " " + z
  {
    assert [x, y, z][..2] == [x, y];
    JoinTwo(x, y);
  }

  /** Joining the cleaned name parts spells out the given names followed by the surname suffixes. */
  lemma JoinOfNameParts(n: string, a1: JString, a2: JString)
    requires a1.Some? ==> HasText(a1)
    requires a2.Some? ==> HasText(a2)
    ensures var c2 := if a1.Some? then [a1.value] else [];
      var c3 := if a2.Some? then [a2.value] else [];
      JoinWithSpaces([n] + c2 + c3) == n + SurnameSuffix(a1) + SurnameSuffix(a2)
  {
    var c2 := if a1.Some? then [a1.value] else [];
    var c3 := if a2.Some? then [a2.value] else [];
    var parts := [n] + c2 + c3;
    if a1.None? && a2.None? {
      assert parts == [n];
    } else if a1.None? {
      assert parts == [n, a2.value];
      JoinTwo(n, a2.value);
    } else if a2.None? {
      assert parts == [n, a1.value];
      JoinTwo(n, a1.value);
    } else {
      assert parts == [n, a1.value, a2.value];
      JoinThree(n, a1.value, a2.value);
    }
  }

  /**
   * The full name of the complete view agrees with the record's full name,
   * when the given names survive cleaning, the name fields are plain text
   * and no surname is the word "null".
   */
  lemma NombreCompletoAgrees(ind: Individuo)
    requires LimpiarCampo(ind.nombres).Some?
    requires PlainText(ind.nombres.value)
    requires ind.apellido1.None? || (PlainText(ind.apellido1.value) && !EqualsIgnoreCase("null", Trim(ind.apellido1.value)))
    requires ind.apellido2.None? || (PlainText(ind.apellido2.value) && !EqualsIgnoreCase("null", Trim(ind.apellido2.value)))
    ensures CrearDatosCompletos(ind).nombreCompleto == Some(ind.NombreCompleto())
  {
    NamePartAgrees(ind.nombres);
    NamePartAgrees(ind.apellido1);
    NamePartAgrees(ind.apellido2);
    var n := LimpiarCampo(ind.nombres).value;
    var a1, a2 := LimpiarCampo(ind.apellido1), LimpiarCampo(ind.apellido2);
    var raw := ComponentesCompletos(ind);
    assert raw.nombres == Some(n) && raw.primerApellido == a1 && raw.segundoApellido == a2;
    ThreePartsJoin(ind.nombres, ind.apellido1, ind.apellido2);
    JoinOfNameParts(n, a1, a2);
    DerivedNombreCompleto(raw);
  }

  // ---------------------------------------------------------------------
  // Photo block and record processing
  // ---------------------------------------------------------------------

  /** The photo block: the base URL followed by the record's photo path when one is available. */
  function ProcesarInformacionFoto(ind: Option<Individuo>, baseUrl: string): (f: InformacionFoto)
    ensures f.disponible == Some(ind.Some? && ind.value.TieneFotoDisponible())
    ensures f.url.Some? <==> ind.Some? && ind.value.TieneFotoDisponible()
    ensures f.url.Some? ==> f == Disponible(Some(baseUrl + ind.value.fotoUrl.value))
    ensures f.url.None? ==> f == NoDisponible(Some(FOTO_NO_DISPONIBLE_CEDULA))
  {
    if ind.Some? && ind.value.TieneFotoDisponible() then Disponible(Some(baseUrl + ind.value.fotoUrl.value))
    else NoDisponible(Some(FOTO_NO_DISPONIBLE_CEDULA))
  }

  /** The photo URL is the base URL followed by the untrimmed photo path. */
  lemma FotoUrlShape(ind: Individuo, baseUrl: string)
    requires ind.TieneFotoDisponible()
    ensures var u := ProcesarInformacionFoto(Some(ind), baseUrl).url.value;
      u[..|baseUrl|] == baseUrl && u[|baseUrl|..] == ind.fotoUrl.value
  {
  }

  /**
   * A missing or unsuccessful record gives the not-found error; a successful
   * one gives the requested view and, when asked for, the photo block.
   */
  function ProcessIndividuoResponse(ind: Option<Individuo>, req: ConsultaRequest, baseUrl: string,
                                    tiempo: int, now: int): (r: ConsultaResponse)
    ensures r.exitosa <==> ind.Some? && ind.value.EsConsultaExitosa()
    ensures r.cedulaConsultada == req.CedulaFormateada() && r.tiempoRespuesta == tiempo && r.timestamp == now
    ensures !r.exitosa ==>
      r == Error(Some(NO_ENCONTRADO_MSG), Some("CIUDADANO_NO_ENCONTRADO"), req.CedulaFormateada(), tiempo, now)
    ensures r.exitosa ==> r.codigo == Some(CODIGO_EXITO) && r.datos == Some(Convertir(ind.value, Some(req.Formato())))
    ensures r.exitosa ==> (r.foto.Some? <==> req.IncluirFoto())
    ensures r.foto.Some? ==> r.foto.value == ProcesarInformacionFoto(ind, baseUrl)
  {
    if ind.None? || !ind.value.EsConsultaExitosa() then
      Error(Some(NO_ENCONTRADO_MSG), Some("CIUDADANO_NO_ENCONTRADO"), req.CedulaFormateada(), tiempo, now)
    else
      var datos := Convertir(ind.value, Some(req.Formato()));
      var foto := if req.IncluirFoto() then Some(ProcesarInformacionFoto(ind, baseUrl)) else None;
      Exitosa(req.CedulaFormateada(), Some(datos), foto, tiempo, now)
  }

  // ---------------------------------------------------------------------
  // Error classification
  // ---------------------------------------------------------------------

  predicate MencionaTimeout(m: JString)
  {
    m.Some? && (Contains(m.value, "timeout") || Contains(m.value, "Timeout"))
  }

  predicate MencionaConexion(m: JString)
  {
    m.Some? && (Contains(m.value, "conexión") || Contains(m.value, "connect"))
  }

  /** Message and code for a failure that is not a domain exception, chosen by its message. */
  function Clasificar(m: JString): (r: (string, string))
    ensures MencionaTimeout(m) ==> r == (TIMEOUT_RESP_MSG, "JCE_TIMEOUT")
    ensures !MencionaTimeout(m) && MencionaConexion(m) ==> r == (CONEXION_RESP_MSG, "JCE_NO_DISPONIBLE")
    ensures !MencionaTimeout(m) && !MencionaConexion(m) ==> r == (PROCESAMIENTO_MSG, "ERROR_PROCESAMIENTO")
  {
    if MencionaTimeout(m) then (TIMEOUT_RESP_MSG, "JCE_TIMEOUT")
    else if MencionaConexion(m) then (CONEXION_RESP_MSG, "JCE_NO_DISPONIBLE")
    else (PROCESAMIENTO_MSG, "ERROR_PROCESAMIENTO")
  }

  /**
   * Domain exceptions are raised again; every other failure becomes an
   * error response with the classified message and code.
   */
  function HandleConsultaError(error: Throwable, req: ConsultaRequest, tiempo: int, now: int)
    : (r: Result<ConsultaResponse, Throwable>)
    ensures r.Err? <==> error.Api?
    ensures r.Err? ==> r.error == error
    ensures r.Ok? ==> !r.value.exitosa && r.value.datos.None? && r.value.cedulaConsultada == req.CedulaFormateada()
    ensures r.Ok? ==> r.value.codigo.Some? && r.value.codigo.value in {"JCE_TIMEOUT", "JCE_NO_DISPONIBLE", "ERROR_PROCESAMIENTO"}
    ensures r.Ok? ==> var (m, c) := Clasificar(Message(error));
      r.value == Error(Some(m), Some(c), req.CedulaFormateada(), tiempo, now)
  {
    if error.Api? then Err(error)
    else
      var (m, c) := Clasificar(Message(error));
      Ok(Error(Some(m), Some(c), req.CedulaFormateada(), tiempo, now))
  }

  /** A text without 'T', 'c' or "ti" never reads as a timeout or a connection failure. */
  lemma NeitherTimeoutNorConexion(s: string)
    requires NoChar(s, 'T') && NoChar(s, 'c') && NoPair(s, 't', 'i')
    ensures !MencionaTimeout(Some(s)) && !MencionaConexion(Some(s))
  {
    NotContainsWithoutPair(s, "timeout");
    NotContainsWithoutHead(s, "Timeout");
    NotContainsWithoutHead(s, "conexión");
    NotContainsWithoutHead(s, "connect");
  }

  /** The portal's 504 answer is reported as a timeout. */
  lemma GatewayTimeoutIsTimeout(name: JString, body: JString, req: ConsultaRequest, tiempo: int, now: int)
    ensures var r := HandleConsultaError(HandleWebClientError(WebClientResponse(504, name, body)), req, tiempo, now);
      r.Ok? && r.value.codigo == Some("JCE_TIMEOUT")
  {
    var m := HttpErrorMessage(504, name);
    assert m[0..7] == "Timeout";
    ContainsAt(m, "Timeout", 0);
  }

  /**
   * A failure that persists through every retry, a timeout included, is
   * reported as a processing error: the exhaustion message mentions neither
   * a timeout nor a connection.
   */
  lemma ExhaustedIsProcesamiento(n: nat, last: Throwable, req: ConsultaRequest, tiempo: int, now: int)
    ensures var r := HandleConsultaError(Exhausted(n, last), req, tiempo, now);
      r.Ok? && r.value.codigo == Some("ERROR_PROCESAMIENTO")
  {
    ExhaustedMessageQuiet(n);
  }

  /** The exhaustion message has no 'T', no 'c' and no "ti". */
  lemma ExhaustedMessageQuiet(n: nat)
    ensures var m := "Consulta JCE falló después de " + Decimal(n) + " reintentos";
      !MencionaTimeout(Some(m)) && !MencionaConexion(Some(m))
  {
    var a := "Consulta JCE falló después de ";
    var d := Decimal(n);
    var b := " reintentos";
    assert NoChar(a, 'T') && NoChar(a, 'c') && NoPair(a, 't', 'i');
    assert NoChar(b, 'T') && NoChar(b, 'c') && NoPair(b, 't', 'i');
    DigitsNoLetter(d, 'T', 'T');
    DigitsNoLetter(d, 'c', 'c');
    DigitsNoLetter(d, 't', 'i');
    NoCharConcat(a, d, 'T');
    NoCharConcat(a + d, b, 'T');
    NoCharConcat(a, d, 'c');
    NoCharConcat(a + d, b, 'c');
    assert a[|a| - 1] == ' ';
    NoPairConcat(a, d, 't', 'i');
    assert (a + d)[|a + d| - 1] == d[|d| - 1];
    NoPairConcat(a + d, b, 't', 'i');
    NeitherTimeoutNorConexion(a + d + b);
  }

  /** A payload that cannot be parsed, or is empty, is reported as a processing error. */
  lemma ParseFailureIsProcesamiento(cause: Option<Throwable>, req: ConsultaRequest, tiempo: int, now: int)
    ensures var r := HandleConsultaError(Runtime(Some(XML_ERROR_MSG), cause), req, tiempo, now);
      r.Ok? && r.value.codigo == Some("ERROR_PROCESAMIENTO")
  {
    ParseMessageQuiet();
  }

  /** The parse failure message has no 'T' and neither "ti" nor "co". */
  lemma ParseMessageQuiet()
    ensures !MencionaTimeout(Some(XML_ERROR_MSG)) && !MencionaConexion(Some(XML_ERROR_MSG))
  {
    var a := "Error procesando ";
    var b := "respuesta del portal JCE";
    assert NoChar(a, 'T') && NoPair(a, 't', 'i') && NoPair(a, 'c', 'o');
    assert NoChar(b, 'T') && NoPair(b, 't', 'i') && NoPair(b, 'c', 'o');
    NoCharConcat(a, b, 'T');
    NoPairConcat(a, b, 't', 'i');
    NoPairConcat(a, b, 'c', 'o');
    NotContainsWithoutPair(a + b, "timeout");
    NotContainsWithoutHead(a + b, "Timeout");
    NotContainsWithoutPair(a + b, "conexión");
    NotContainsWithoutPair(a + b, "connect");
  }

  // ---------------------------------------------------------------------
  // The whole lookup and its cache
  // ---------------------------------------------------------------------

  /**
   * The answer to the client's outcome: a record is processed into a
   * response, a failure goes through the error handling.
   */
  function Responder(c: Result<Individuo, Throwable>, req: ConsultaRequest, baseUrl: string,
                     tiempo: int, now: int): (r: Result<ConsultaResponse, Throwable>)
    ensures c.Ok? ==> r == Ok(ProcessIndividuoResponse(Some(c.value), req, baseUrl, tiempo, now))
    ensures c.Err? ==> r == HandleConsultaError(c.error, req, tiempo, now)
    ensures r.Ok? ==> r.value.cedulaConsultada == req.CedulaFormateada()
    ensures r.Ok? && r.value.exitosa ==> c.Ok? && r.value.datos.Some?
  {
    if c.Ok? then Ok(ProcessIndividuoResponse(Some(c.value), req, baseUrl, tiempo, now))
    else HandleConsultaError(c.error, req, tiempo, now)
  }

  /**
   * One lookup without the cache: validation, the client's lookup of the
   * cleaned cédula, then the record processing or the error handling.
   */
  function ConsultaSinCache(cfg: Config, baseUrl: string, req: ConsultaRequest,
                            upstream: (string, nat) -> Outcome, parse: string -> Result<Individuo, Throwable>,
                            tiempo: int, now: int): (r: Result<ConsultaResponse, Throwable>)
    ensures ValidateRequest(req, now).Err? ==> r == Err(Api(ValidateRequest(req, now).error))
    ensures r.Ok? && r.value.exitosa ==>
      ValidateRequest(req, now).Ok? && r.value.datos.Some? && r.value.cedulaConsultada == req.CedulaFormateada()
  {
    if ValidateRequest(req, now).Err? then Err(Api(ValidateRequest(req, now).error))
    else Responder(ConsultaResult(cfg, req.CedulaLimpia(), upstream, parse), req, baseUrl, tiempo, now)
  }

  /** A request that passes validation shows its cleaned cédula formatted. */
  lemma SuccessAnswersValidRequest(req: ConsultaRequest, now: int)
    ensures ValidateRequest(req, now).Ok? ==>
      req.CedulaLimpia().Some? && req.CedulaFormateada() == Some(Hyphenated(req.CedulaLimpia().value))
  {
    ValidIffElevenDigits(req);
  }

  /** How many requests one uncached lookup sends. */
  function RequestsSinCache(cfg: Config, req: ConsultaRequest, upstream: (string, nat) -> Outcome,
                            parse: string -> Result<Individuo, Throwable>, now: int): (n: nat)
    ensures n <= cfg.maxRetries + 1
    ensures !req.EsCedulaValida() ==> n == 0
  {
    if ValidateRequest(req, now).Err? then 0 else RequestsSent(cfg, req.CedulaLimpia(), upstream, parse)
  }

  /** A valid request always reaches the portal: its cleaned cédula has 11 characters. */
  lemma ValidRequestReachesPortal(cfg: Config, req: ConsultaRequest, upstream: (string, nat) -> Outcome,
                                  parse: string -> Result<Individuo, Throwable>, now: int)
    requires ValidateRequest(req, now).Ok?
    ensures RequestsSinCache(cfg, req, upstream, parse, now) >= 1
  {
  }

  /** A cache entry: a successful response for an 11-digit key, showing that key formatted. */
  predicate EntradaValida(key: string, resp: ConsultaResponse)
  {
    resp.exitosa && |key| == 11 && AllDigits(key) && resp.cedulaConsultada == Some(Hyphenated(key))
  }

  /** Every entry is a successful response for the key it is stored under. */
  predicate CacheValida(cache: map<string, ConsultaResponse>)
  {
    forall k :: k in cache ==> EntradaValida(k, cache[k])
  }

  /**
   * The cached lookup on a given cache: the result, the new cache and the
   * number of requests sent. The key is the cleaned cédula, whatever the
   * view or photo flag: a hit returns the stored response without
   * validating or sending anything; a miss runs the lookup and stores the
   * response only when it is successful. A null key is refused.
   */
  function ConsultaCacheada(cache: map<string, ConsultaResponse>, cfg: Config, baseUrl: string, req: ConsultaRequest,
                            upstream: (string, nat) -> Outcome, parse: string -> Result<Individuo, Throwable>,
                            tiempo: int, now: int): (res: (Result<ConsultaResponse, Throwable>, map<string, ConsultaResponse>, nat))
    ensures res.2 <= cfg.maxRetries + 1
    ensures req.CedulaLimpia().None? ==> res == (Err(IllegalArgument(Some(NULL_KEY_MSG))), cache, 0)
    ensures req.CedulaLimpia().Some? && req.CedulaLimpia().value in cache ==>
      res == (Ok(cache[req.CedulaLimpia().value]), cache, 0)
    ensures req.CedulaLimpia().Some? && req.CedulaLimpia().value !in cache ==>
      res.0 == ConsultaSinCache(cfg, baseUrl, req, upstream, parse, tiempo, now)
      && res.2 == RequestsSinCache(cfg, req, upstream, parse, now)
  {
    var key := req.CedulaLimpia();
    if key.None? then (Err(IllegalArgument(Some(NULL_KEY_MSG))), cache, 0)
    else if key.value in cache then (Ok(cache[key.value]), cache, 0)
    else
      var r := ConsultaSinCache(cfg, baseUrl, req, upstream, parse, tiempo, now);
      (r, Almacenar(cache, key.value, r), RequestsSinCache(cfg, req, upstream, parse, now))
  }

  /** What a miss leaves in the cache: the old entries, plus the response when it is successful. */
  function Almacenar(cache: map<string, ConsultaResponse>, key: string, r: Result<ConsultaResponse, Throwable>)
    : (nuevo: map<string, ConsultaResponse>)
    requires key !in cache
    ensures forall k :: k in cache ==> k in nuevo && nuevo[k] == cache[k]
    ensures nuevo != cache <==> r.Ok? && r.value.exitosa
    ensures nuevo != cache ==> nuevo == cache[key := r.value]
  {
    if r.Ok? && r.value.exitosa then
      assert key in cache[key := r.value];
      cache[key := r.value]
    else cache
  }

  /**
   * The cache only grows, and only by a successful response stored under
   * the cleaned cédula: error responses are never stored.
   */
  lemma CacheStoresOnlySuccess(cache: map<string, ConsultaResponse>, cfg: Config, baseUrl: string, req: ConsultaRequest,
                               upstream: (string, nat) -> Outcome, parse: string -> Result<Individuo, Throwable>,
                               tiempo: int, now: int)
    ensures var res := ConsultaCacheada(cache, cfg, baseUrl, req, upstream, parse, tiempo, now);
      && (forall k :: k in cache ==> k in res.1 && res.1[k] == cache[k])
      && (res.1 != cache ==> res.0.Ok? && res.0.value.exitosa && res.1 == cache[req.CedulaLimpia().value := res.0.value])
  {
  }

  /** Every entry the cache holds stays a successful response for its key. */
  lemma CacheStaysValid(cache: map<string, ConsultaResponse>, cfg: Config, baseUrl: string, req: ConsultaRequest,
                        upstream: (string, nat) -> Outcome, parse: string -> Result<Individuo, Throwable>,
                        tiempo: int, now: int)
    requires CacheValida(cache)
    ensures CacheValida(ConsultaCacheada(cache, cfg, baseUrl, req, upstream, parse, tiempo, now).1)
  {
    var key := req.CedulaLimpia();
    if key.Some? && key.value !in cache {
      var r := ConsultaSinCache(cfg, baseUrl, req, upstream, parse, tiempo, now);
      if r.Ok? && r.value.exitosa {
        StoredEntryValid(req, r.value, now);
        InsertValid(cache, key.value, r.value);
      }
    }
  }

  lemma InsertValid(cache: map<string, ConsultaResponse>, key: string, resp: ConsultaResponse)
    requires CacheValida(cache) && EntradaValida(key, resp)
    ensures CacheValida(cache[key := resp])
  {
  }

  /** A successful answer to a validated request is a valid entry under the cleaned cédula. */
  lemma StoredEntryValid(req: ConsultaRequest, resp: ConsultaResponse, now: int)
    requires ValidateRequest(req, now).Ok? && resp.exitosa && resp.cedulaConsultada == req.CedulaFormateada()
    ensures req.CedulaLimpia().Some? && EntradaValida(req.CedulaLimpia().value, resp)
  {
    SuccessAnswersValidRequest(req, now);
    ValidIffElevenDigits(req);
  }

  /**
   * Once a lookup has succeeded, any later request for the same cleaned
   * cédula, whatever its view, photo flag, time or portal answers, gets the
   * stored response back without a request.
   */
  lemma SuccessIsServedFromCache(cache: map<string, ConsultaResponse>, cfg: Config, baseUrl: string, req: ConsultaRequest,
                                 upstream: (string, nat) -> Outcome, parse: string -> Result<Individuo, Throwable>,
                                 tiempo: int, now: int,
                                 req2: ConsultaRequest, upstream2: (string, nat) -> Outcome,
                                 parse2: string -> Result<Individuo, Throwable>, tiempo2: int, now2: int)
    requires req2.CedulaLimpia() == req.CedulaLimpia()
    ensures var (r, nuevo, _) := ConsultaCacheada(cache, cfg, baseUrl, req, upstream, parse, tiempo, now);
      r.Ok? && r.value.exitosa ==>
        ConsultaCacheada(nuevo, cfg, baseUrl, req2, upstream2, parse2, tiempo2, now2) == (r, nuevo, 0)
  {
  }

  /** A refused request is never stored, so asking again asks the portal again. */
  lemma InvalidRequestNeverCached(cache: map<string, ConsultaResponse>, cfg: Config, baseUrl: string, req: ConsultaRequest,
                                  upstream: (string, nat) -> Outcome, parse: string -> Result<Individuo, Throwable>,
                                  tiempo: int, now: int)
    requires req.CedulaLimpia().Some? && req.CedulaLimpia().value !in cache
    requires !req.EsCedulaValida()
    ensures var (r, nuevo, n) := ConsultaCacheada(cache, cfg, baseUrl, req, upstream, parse, tiempo, now);
      r == Err(Api(CedulaInvalida(req.CedulaFormateada(), now))) && nuevo == cache && n == 0
  {
  }

  class JceConsultaService {
    const cfg: Config
    const baseUrl: string
    var cache: map<string, ConsultaResponse>

    /** Only successful responses are cached, each under the cleaned cédula it answers. */
    ghost predicate Valid()
      reads this
    {
      CacheValida(cache)
    }

    constructor(cfg: Config, baseUrl: string)
      ensures this.cfg == cfg && this.baseUrl == baseUrl && cache == map[] && Valid()
    {
      this.cfg := cfg;
      this.baseUrl := baseUrl;
      cache := map[];
    }

    /**
     * The cached lookup, as ConsultaCacheada describes it; the portal is
     * asked once per URL returned.
     */
    method ConsultarCiudadano(req: ConsultaRequest, upstream: (string, nat) -> Outcome,
                              parse: string -> Result<Individuo, Throwable>, tiempo: int, now: int)
      returns (r: Result<ConsultaResponse, Throwable>, urls: seq<string>)
      requires Valid()
      modifies this
      ensures Valid()
      ensures (r, cache, |urls|) == ConsultaCacheada(old(cache), cfg, baseUrl, req, upstream, parse, tiempo, now)
    {
      var key := req.CedulaLimpia();
      if key.None? {
        return Err(IllegalArgument(Some(NULL_KEY_MSG))), [];
      }
      if key.value in cache {
        return Ok(cache[key.value]), [];
      }
      var v := ValidateRequest(req, now);
      if v.Err? {
        return Err(Api(v.error)), [];
      }
      var ind;
      ind, urls := Client.ConsultarCiudadano(cfg, key, upstream, parse);
      r := Responder(ind, req, baseUrl, tiempo, now);
      if r.Ok? && r.value.exitosa {
        StoredEntryValid(req, r.value, now);
        InsertValid(cache, key.value, r.value);
        cache := cache[key.value := r.value];
      }
    }

    /**
     * The lookup without the cache: validation, the client's lookup, then
     * the record processing or the error handling.
     */
    method ConsultarSinCache(req: ConsultaRequest, upstream: (string, nat) -> Outcome,
                             parse: string -> Result<Individuo, Throwable>, tiempo: int, now: int)
      returns (r: Result<ConsultaResponse, Throwable>, urls: seq<string>)
      ensures r == ConsultaSinCache(cfg, baseUrl, req, upstream, parse, tiempo, now)
      ensures |urls| == RequestsSinCache(cfg, req, upstream, parse, now)
    {
      var v := ValidateRequest(req, now);
      if v.Err? {
        return Err(Api(v.error)), [];
      }
      var ind;
      ind, urls := Client.ConsultarCiudadano(cfg, req.CedulaLimpia(), upstream, parse);
      r := Responder(ind, req, baseUrl, tiempo, now);
    }

    /**
     * The lookup by cédula alone: photo wanted, complete view. It calls the
     * main lookup from inside the service, where the cache does not apply:
     * a valid cédula always reaches the portal, even when its response is
     * cached, and a null cédula is refused as invalid rather than as a
     * null key.
     */
    method ConsultarPorCedula(cedula: JString, upstream: (string, nat) -> Outcome,
                              parse: string -> Result<Individuo, Throwable>, tiempo: int, now: int)
      returns (r: Result<ConsultaResponse, Throwable>, urls: seq<string>)
      ensures r == ConsultaSinCache(cfg, baseUrl, ForCedula(cedula), upstream, parse, tiempo, now)
      ensures ForCedula(cedula).EsCedulaValida() ==> 1 <= |urls| <= cfg.maxRetries + 1
      ensures !ForCedula(cedula).EsCedulaValida() ==>
        r == Err(Api(CedulaInvalida(ForCedula(cedula).CedulaFormateada(), now))) && urls == []
    {
      r, urls := ConsultarSinCache(ForCedula(cedula), upstream, parse, tiempo, now);
    }

    /**
     * The lookup by cédula and view, photo wanted. Like the lookup by
     * cédula alone, it bypasses the cache.
     */
    method ConsultarConFormato(cedula: JString, formato: JString, upstream: (string, nat) -> Outcome,
                               parse: string -> Result<Individuo, Throwable>, tiempo: int, now: int)
      returns (r: Result<ConsultaResponse, Throwable>, urls: seq<string>)
      ensures var req := ConsultaRequest(cedula, Some(true), formato);
        && r == ConsultaSinCache(cfg, baseUrl, req, upstream, parse, tiempo, now)
        && (ValidateRequest(req, now).Ok? ==> 1 <= |urls| <= cfg.maxRetries + 1)
        && (ValidateRequest(req, now).Err? ==> r == Err(Api(ValidateRequest(req, now).error)) && urls == [])
    {
      var req := ConsultaRequest(cedula, Some(true), formato);
      r, urls := ConsultarSinCache(req, upstream, parse, tiempo, now);
      if ValidateRequest(req, now).Ok? {
        ValidRequestReachesPortal(cfg, req, upstream, parse, now);
      }
    }
  }
}
