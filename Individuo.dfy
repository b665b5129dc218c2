/**
 * The citizen record as the JCE portal returns it: thirty text fields, any of
 * which may be absent, plus the derived values the service reads from it
 * (full name, code descriptions, presence tests, the success rule).
 */
module Individuos {
  import opened JavaText

  const NO_DISPONIBLE: string := "Dato no disponible"

  datatype Individuo = Individuo(
    nombres: JString,
    apellido1: JString,
    apellido2: JString,
    fechaNacimiento: JString,
    lugarNacimiento: JString,
    fechaExpiracion: JString,
    sexo: JString,
    estadoCivil: JString,
    edad: JString,
    codigoNacionalidad: JString,
    descripcionNacionalidad: JString,
    municipioCedula: JString,
    secuenciaCedula: JString,
    ocupacion: JString,
    conyugue: JString,
    cedulaConyugue: JString,
    padre: JString,
    madre: JString,
    cedulaVieja: JString,
    pasaporte: JString,
    fotoUrl: JString,
    categoria: JString,
    descripcionCategoria: JString,
    estatus: JString,
    codigoCausa: JString,
    descripcionCausaInhabilidad: JString,
    descripcionTipoCausa: JString,
    success: JString,
    message: JString,
    responseTime: JString)
  {
    /** The full name: the non-blank name parts, trimmed, separated by one space. */
    function NombreCompleto(): (r: string)
      ensures IsTrimmed(r)
      ensures !HasText(nombres) && !HasText(apellido1) && !HasText(apellido2) ==> r == ""
    {
      Trim(AppendPart(AppendPart(AppendPart("", nombres), apellido1), apellido2))
    }

    /** The civil-status code in words; unknown codes are returned as given. */
    function EstadoCivilDescripcion(): (r: string)
      ensures !HasText(estadoCivil) ==> r == NO_DISPONIBLE
      ensures HasText(estadoCivil) && ToUpper(estadoCivil.value) in ESTADO_CIVIL ==>
        r == ESTADO_CIVIL[ToUpper(estadoCivil.value)]
      ensures HasText(estadoCivil) && ToUpper(estadoCivil.value) !in ESTADO_CIVIL ==>
        r == estadoCivil.value
    {
      if !HasText(estadoCivil) then NO_DISPONIBLE
      else
        match ToUpper(estadoCivil.value)
        case "C" => "CASADO"
        case "D" => "DIVORCIADO"
        case "S" => "SOLTERO"
        case "V" => "VIUDO"
        case "U" => "UNION LIBRE"
        case "SE" => "SEPARADO"
        case _ => estadoCivil.value
    }

    /** The processing-status code in words; unknown codes are returned as given. */
    function EstatusDescripcion(): (r: string)
      ensures !HasText(estatus) ==> r == NO_DISPONIBLE
      ensures HasText(estatus) && ToUpper(estatus.value) in ESTATUS ==>
        r == ESTATUS[ToUpper(estatus.value)]
      ensures HasText(estatus) && ToUpper(estatus.value) !in ESTATUS ==> r == estatus.value
    {
      if !HasText(estatus) then NO_DISPONIBLE
      else
        match ToUpper(estatus.value)
        case "N" => "NO ATENDIDO"
        case "P" => "EN PROCESO"
        case "T" => "TERMINADO"
        case "A" => "APROBADO"
        case "R" => "RECHAZADO"
        case _ => estatus.value
    }

    /** Some family member is named; without one, every family field reads as the placeholder. */
    function TieneInformacionFamiliar(): (b: bool)
      ensures b ==> conyugue.Some? || padre.Some? || madre.Some?
      ensures !b ==> ValidarCampo(conyugue) == NO_DISPONIBLE && ValidarCampo(padre) == NO_DISPONIBLE
                     && ValidarCampo(madre) == NO_DISPONIBLE
    {
      HasText(conyugue) || HasText(padre) || HasText(madre)
    }

    /** An old cédula or a passport is recorded; without one, both read as the placeholder. */
    function TieneDocumentosAdicionales(): (b: bool)
      ensures b ==> cedulaVieja.Some? || pasaporte.Some?
      ensures !b ==> ValidarCampo(cedulaVieja) == NO_DISPONIBLE && ValidarCampo(pasaporte) == NO_DISPONIBLE
    {
      HasText(cedulaVieja) || HasText(pasaporte)
    }

    /** A photo URL is present and is not the word "null". */
    function TieneFotoDisponible(): (b: bool)
      ensures b ==> fotoUrl.Some? && ValidarCampo(fotoUrl) == Trim(fotoUrl.value)
      ensures !b ==> ValidarCampo(fotoUrl) == NO_DISPONIBLE
    {
      assert fotoUrl.Some? ==> (EqualsIgnoreCase(fotoUrl.value, "null") <==> EqualsIgnoreCase("null", fotoUrl.value)) by {
        if fotoUrl.Some? {
          EqualsIgnoreCaseSymmetric("null", fotoUrl.value);
        }
      }
      HasText(fotoUrl) && !EqualsIgnoreCase(fotoUrl.value, "null")
    }

    /** The portal's response time in milliseconds; 0 when absent or not a long. */
    function TiempoRespuestaNumerico(): (r: int)
      ensures LONG_MIN <= r <= LONG_MAX
      ensures !HasText(responseTime) ==> r == 0
      ensures HasText(responseTime) && ParseLong(responseTime.value).Some? ==>
        r == ParseLong(responseTime.value).value
      ensures ParseLong(Show(responseTime)).None? ==> r == 0
    {
      if !HasText(responseTime) then 0
      else
        match ParseLong(responseTime.value)
        case Some(n) => n
        case None => 0
    }

    /** The portal reports success and both the given names and the first surname are present. */
    function EsConsultaExitosa(): (b: bool)
      ensures b ==> success.Some? && (success.value == "1" || |success.value| == 4)
      ensures b ==> HasText(nombres) && HasText(apellido1)
      ensures success.None? ==> !b
      ensures b <==> success.Some? && (EqualsIgnoreCase("true", success.value) || success.value == "1")
                     && HasText(nombres) && HasText(apellido1)
    {
      success.Some?
      && (EqualsIgnoreCase("true", success.value) || success.value == "1")
      && HasText(nombres)
      && HasText(apellido1)
    }
  }

  /** One step of the full-name builder: add a separating space when needed, then the trimmed part. */
  function AppendPart(b: string, part: JString): (r: string)
    ensures !HasText(part) ==> r == b
  {
    if HasText(part) then (if |b| > 0 then b + " " else b) + Trim(part.value) else b
  }

  const ESTADO_CIVIL: map<string, string> := map[
    "C" := "CASADO", "D" := "DIVORCIADO", "S" := "SOLTERO",
    "V" := "VIUDO", "U" := "UNION LIBRE", "SE" := "SEPARADO"]

  const ESTATUS: map<string, string> := map[
    "N" := "NO ATENDIDO", "P" := "EN PROCESO", "T" := "TERMINADO",
    "A" := "APROBADO", "R" := "RECHAZADO"]

  /**
   * Every character up to U+0020 is whitespace. Text that went through the
   * XML cleaning of the client has this property.
   */
  predicate NoBareControls(s: string)
  {
    forall i :: 0 <= i < |s| && s[i] <= ' ' ==> IsWhitespace(s[i])
  }

  predicate Clean(s: JString)
  {
    s.None? || NoBareControls(s.value)
  }

  /** The trimmed part when it is present and not blank, nothing otherwise. */
  function Contribution(part: JString): seq<string>
  {
    if HasText(part) then [Trim(part.value)] else []
  }

  /** Every part is non-empty and has no surrounding whitespace. */
  predicate TrimmedParts(parts: seq<string>)
  {
    forall k :: 0 <= k < |parts| ==> parts[k] != "" && IsTrimmed(parts[k])
  }

  /** The strings of `parts` separated by single spaces. */
  function JoinWithSpaces(parts: seq<string>): (r: string)
    ensures TrimmedParts(parts) ==> IsTrimmed(r) && (|parts| > 0 <==> r != "")
  {
    if |parts| == 0 then ""
    else if |parts| == 1 then parts[0]
    else
      assert TrimmedParts(parts) ==> TrimmedParts(parts[..|parts| - 1]);
      JoinWithSpaces(parts[..|parts| - 1]) + " " + parts[|parts| - 1]
  }

  /** Free of bare controls, a part that has text has a non-empty trim. */
  lemma TrimOfTextNotEmpty(s: string)
    requires NoBareControls(s) && !IsBlank(s)
    ensures Trim(s) != ""
  {
    var i :| 0 <= i < |s| && !IsWhitespace(s[i]);
    assert s[i] > ' ';
  }

  /** A clean part contributes at most one trimmed, non-empty string. */
  lemma ContributionTrimmed(part: JString)
    requires Clean(part)
    ensures TrimmedParts(Contribution(part)) && |Contribution(part)| <= 1
  {
    if HasText(part) {
      TrimOfTextNotEmpty(part.value);
      SingletonTrimmed(Trim(part.value));
    }
  }

  lemma SingletonTrimmed(t: string)
    requires t != "" && IsTrimmed(t)
    ensures TrimmedParts([t])
  {
  }

  /** Well-formed part lists stay well formed under concatenation. */
  lemma TrimmedPartsConcat(p: seq<string>, q: seq<string>)
    requires TrimmedParts(p) && TrimmedParts(q)
    ensures TrimmedParts(p + q)
  {
    forall k | 0 <= k < |p + q|
      ensures (p + q)[k] != "" && IsTrimmed((p + q)[k])
    {
      if k >= |p| {
        assert (p + q)[k] == q[k - |p|];
      }
    }
  }

  /** Appending a contributing part to an already joined name extends the join. */
  lemma AppendPartJoins(parts: seq<string>, part: JString)
    requires TrimmedParts(parts) && Clean(part)
    ensures TrimmedParts(parts + Contribution(part))
    ensures AppendPart(JoinWithSpaces(parts), part) == JoinWithSpaces(parts + Contribution(part))
  {
    ContributionTrimmed(part);
    TrimmedPartsConcat(parts, Contribution(part));
    if HasText(part) {
      var t := Trim(part.value);
      JoinSnoc(parts, t);
    } else {
      assert parts + Contribution(part) == parts;
    }
  }

  /** Joining one more part adds a space before it, unless it is the first. */
  lemma JoinSnoc(parts: seq<string>, t: string)
    requires TrimmedParts(parts)
    ensures var j := JoinWithSpaces(parts);
      JoinWithSpaces(parts + [t]) == (if |j| > 0 then j + " " else j) + t
  {
    var ext := parts + [t];
    assert ext[..|ext| - 1] == parts && ext[|ext| - 1] == t;
    if |parts| == 0 {
      assert ext == [t];
    }
  }

  /**
   * With no bare control characters in the name fields, the full name is
   * the trimmed non-blank parts joined by single spaces, in order.
   */
  lemma NombreCompletoJoins(ind: Individuo)
    requires Clean(ind.nombres) && Clean(ind.apellido1) && Clean(ind.apellido2)
    ensures ind.NombreCompleto()
         == JoinWithSpaces(Contribution(ind.nombres) + Contribution(ind.apellido1) + Contribution(ind.apellido2))
    ensures ind.NombreCompleto() == "" <==> !HasText(ind.nombres) && !HasText(ind.apellido1) && !HasText(ind.apellido2)
  {
    ThreePartsJoin(ind.nombres, ind.apellido1, ind.apellido2);
  }

  lemma ThreePartsJoin(n: JString, a1: JString, a2: JString)
    requires Clean(n) && Clean(a1) && Clean(a2)
    ensures var j := JoinWithSpaces(Contribution(n) + Contribution(a1) + Contribution(a2));
      && Trim(AppendPart(AppendPart(AppendPart("", n), a1), a2)) == j
      && (j == "" <==> !HasText(n) && !HasText(a1) && !HasText(a2))
  {
    var c1, c2, c3 := Contribution(n), Contribution(a1), Contribution(a2);
    var e: seq<string> := [];
    AppendPartJoins(e, n);
    assert e + c1 == c1;
    var s1 := AppendPart("", n);
    assert s1 == JoinWithSpaces(c1);
    AppendPartJoins(c1, a1);
    var s2 := AppendPart(s1, a1);
    assert s2 == JoinWithSpaces(c1 + c2);
    AppendPartJoins(c1 + c2, a2);
    var s3 := AppendPart(s2, a2);
    var j := JoinWithSpaces(c1 + c2 + c3);
    assert s3 == j;
    assert j == "" <==> |c1 + c2 + c3| == 0;
  }

  predicate UpperAscii(s: string)
  {
    forall i :: 0 <= i < |s| ==> 'A' <= s[i] <= 'Z'
  }

  lemma UpperOfLower(code: string)
    requires UpperAscii(code) && code != ""
    ensures ToUpper(ToLower(code)) == code && ToUpper(code) == code
    ensures HasText(Some(ToLower(code))) && HasText(Some(code))
  {
    assert !IsWhitespace(ToLower(code)[0]) && !IsWhitespace(code[0]);
  }

  /** The civil-status descriptions ignore the case of the code. */
  lemma CodesIgnoreCase(ind: Individuo, code: string)
    requires code in ESTADO_CIVIL
    ensures ind.(estadoCivil := Some(ToLower(code))).EstadoCivilDescripcion() == ESTADO_CIVIL[code]
    ensures ind.(estadoCivil := Some(code)).EstadoCivilDescripcion() == ESTADO_CIVIL[code]
  {
    assert code == "C" || code == "D" || code == "S" || code == "V" || code == "U" || code == "SE";
    assert UpperAscii(code);
    UpperOfLower(code);
  }

  /** The status descriptions ignore the case of the code. */
  lemma StatusCodesIgnoreCase(ind: Individuo, code: string)
    requires code in ESTATUS
    ensures ind.(estatus := Some(ToLower(code))).EstatusDescripcion() == ESTATUS[code]
    ensures ind.(estatus := Some(code)).EstatusDescripcion() == ESTATUS[code]
  {
    assert code == "N" || code == "P" || code == "T" || code == "A" || code == "R";
    assert UpperAscii(code);
    UpperOfLower(code);
  }

  /** A present code is never described as blank. */
  lemma DescriptionsNeverBlank(ind: Individuo)
    ensures !IsBlank(ind.EstadoCivilDescripcion()) && !IsBlank(ind.EstatusDescripcion())
  {
    assert !IsWhitespace(NO_DISPONIBLE[0]);
    if HasText(ind.estadoCivil) && ToUpper(ind.estadoCivil.value) in ESTADO_CIVIL {
      var d := ESTADO_CIVIL[ToUpper(ind.estadoCivil.value)];
      assert !IsWhitespace(d[0]);
    }
    if HasText(ind.estatus) && ToUpper(ind.estatus.value) in ESTATUS {
      var d := ESTATUS[ToUpper(ind.estatus.value)];
      assert !IsWhitespace(d[0]);
    }
  }

  /**
   * Placeholder text for a missing field: null, blank or the word "null"
   * (compared before trimming) become "Dato no disponible"; any other value
   * is trimmed.
   */
  function ValidarCampo(campo: JString): (r: string)
    ensures campo.None? || IsBlank(campo.value) ==> r == NO_DISPONIBLE
    ensures campo.Some? && EqualsIgnoreCase("null", campo.value) ==> r == NO_DISPONIBLE
    ensures HasText(campo) && !EqualsIgnoreCase("null", campo.value) ==> r == Trim(campo.value)
  {
    if campo.None? || IsBlank(campo.value) || EqualsIgnoreCase("null", campo.value) then NO_DISPONIBLE
    else Trim(campo.value)
  }

  /**
   * The word "null" is recognised only without surrounding spaces: padded,
   * it survives trimmed.
   */
  lemma ValidarCampoPaddedNull()
    ensures ValidarCampo(Some("null")) == NO_DISPONIBLE
    ensures ValidarCampo(Some(" null ")) == "null"
  {
    var padded := " null ";
    assert !IsWhitespace(padded[1]);
    assert |padded| != |"null"|;
    assert padded[..|padded| - 1] == " null";
    assert TrimEnd(padded) == TrimEnd(" null");
    assert " null"[1..] == "null";
    assert TrimStart(" null") == TrimStart("null");
    assert IsTrimmed("null");
  }

  /** A photo is available exactly when the URL would not be replaced by the placeholder. */
  lemma FotoDisponibleIffValidated(ind: Individuo)
    ensures ind.TieneFotoDisponible() <==>
      ind.fotoUrl.Some? && !IsBlank(ind.fotoUrl.value) && !EqualsIgnoreCase("null", ind.fotoUrl.value)
    ensures ind.TieneFotoDisponible() ==> ValidarCampo(ind.fotoUrl) == Trim(ind.fotoUrl.value)
  {
    if ind.fotoUrl.Some? {
      EqualsIgnoreCaseSymmetric("null", ind.fotoUrl.value);
    }
  }

  lemma EqualsIgnoreCaseSymmetric(a: string, b: string)
    ensures EqualsIgnoreCase(a, b) <==> EqualsIgnoreCase(b, a)
  {
  }

  /** Printing a long and reading it back as a response time gives the long. */
  lemma TiempoRespuestaRoundTrip(ind: Individuo, n: int)
    requires LONG_MIN <= n <= LONG_MAX
    ensures ind.(responseTime := Some(ShowLong(n))).TiempoRespuestaNumerico() == n
  {
    ParseShowLong(n);
    var s := ShowLong(n);
    assert s[0] == '-' || IsAsciiDigit(s[0]);
    assert !IsWhitespace(s[0]);
  }

  /** Surrounding spaces, or a value beyond the range of a long, give 0. */
  lemma TiempoRespuestaRejects(ind: Individuo, digits: string)
    requires AllDigits(digits) && DigitsValue(digits) > LONG_MAX
    ensures ind.(responseTime := Some(" 12")).TiempoRespuestaNumerico() == 0
    ensures ind.(responseTime := Some(digits)).TiempoRespuestaNumerico() == 0
    ensures ind.(responseTime := Some("-" + digits)).TiempoRespuestaNumerico() != 0 ==>
      DigitsValue(digits) == LONG_MAX + 1
  {
    assert !IsAsciiDigit(" 12"[0]);
    var neg := "-" + digits;
    if |digits| > 0 {
      assert neg[1..] == digits;
    }
  }

  /** The second surname plays no part in deciding success. */
  lemma ExitoIgnoresApellido2(ind: Individuo, a2: JString)
    ensures ind.(apellido2 := a2).EsConsultaExitosa() == ind.EsConsultaExitosa()
  {
  }

  /** A successful record always has a non-empty full name. */
  lemma ExitoHasNombre(ind: Individuo)
    requires ind.EsConsultaExitosa()
    requires Clean(ind.nombres) && Clean(ind.apellido1) && Clean(ind.apellido2)
    ensures ind.NombreCompleto() != ""
  {
    NombreCompletoJoins(ind);
  }

  /** The success flag is "true" in any case or exactly "1". */
  lemma ExitoFlags(ind: Individuo)
    requires HasText(ind.nombres) && HasText(ind.apellido1)
    ensures ind.(success := Some("TRUE")).EsConsultaExitosa()
    ensures ind.(success := Some("True")).EsConsultaExitosa()
    ensures ind.(success := Some("1")).EsConsultaExitosa()
    ensures !ind.(success := Some(" 1")).EsConsultaExitosa()
    ensures !ind.(success := Some("yes")).EsConsultaExitosa()
    ensures !ind.(success := None).EsConsultaExitosa()
  {
    assert !EqualsIgnoreCase("true", "yes");
    assert !EqualsIgnoreCase("true", " 1");
  }
}
