/**
 * The consultation request: a cédula (with or without separators), whether
 * the photo is wanted, and the requested view ("formato"), together with the
 * derived values the rest of the service reads from it.
 *
 * A Dominican cédula is 11 digits: a 3-digit municipality code, a 7-digit
 * sequence number and one check digit, printed as XXX-XXXXXXX-X.
 */
module Request {
  import opened JavaText

  /** The request built from a cédula alone: photo wanted, full view. */
  function ForCedula(cedula: JString): (r: ConsultaRequest)
    ensures r.cedula == cedula && r.IncluirFoto() && r.Formato() == "completo"
  {
    ConsultaRequest(cedula, Some(true), Some("completo"))
  }

  /** The request built from a cédula and the photo flag: full view. */
  function ForCedulaFoto(cedula: JString, incluirFoto: Option<bool>): (r: ConsultaRequest)
    ensures r.cedula == cedula && r.incluirFoto == incluirFoto && r.Formato() == "completo"
    ensures r.IncluirFoto() <==> incluirFoto != Some(false)
  {
    ConsultaRequest(cedula, incluirFoto, Some("completo"))
  }

  /** The ASCII digits of `s`, in order; every other character is dropped. */
  function DigitsOf(s: string): (r: string)
    ensures |r| <= |s| && AllDigits(r)
    ensures AllDigits(s) ==> r == s
    ensures |r| == |s| ==> r == s
  {
    if |s| == 0 then ""
    else if IsAsciiDigit(s[0]) then [s[0]] + DigitsOf(s[1..])
    else DigitsOf(s[1..])
  }

  lemma {:induction false} DigitsOfAppend(a: string, b: string)
    ensures DigitsOf(a + b) == DigitsOf(a) + DigitsOf(b)
  {
    if |a| > 0 {
      assert (a + b)[1..] == a[1..] + b;
      DigitsOfAppend(a[1..], b);
    } else {
      assert a + b == b;
    }
  }

  /** Removing the non-digits of a string that is already clean changes nothing. */
  lemma DigitsOfIdempotent(s: string)
    ensures DigitsOf(DigitsOf(s)) == DigitsOf(s)
  {
  }

  /** A string with no digit at all cleans to nothing. */
  lemma {:induction false} DigitsOfNoDigits(s: string)
    requires forall i :: 0 <= i < |s| ==> !IsAsciiDigit(s[i])
    ensures DigitsOf(s) == ""
  {
    if |s| > 0 {
      DigitsOfNoDigits(s[1..]);
    }
  }

  /** The three parts of a clean cédula, joined with hyphens. */
  function Hyphenated(d: string): (r: string)
    requires |d| == 11
    ensures |r| == 13 && r[3] == '-' && r[11] == '-'
    ensures r[..3] == d[..3] && r[4..11] == d[3..10] && r[12..] == d[10..]
  {
    d[0..3] + "-" + d[3..10] + "-" + d[10..11]
  }

  function NullableLength(s: JString): int
  {
    if s.Some? then |s.value| else -1
  }

  datatype ConsultaRequest = ConsultaRequest(cedula: JString, incluirFoto: Option<bool>, formato: JString)
  {
    /** The cédula without separators: null for a null cédula, else its digits. */
    function CedulaLimpia(): (r: JString)
      ensures r.None? <==> cedula.None?
      ensures r.Some? ==> AllDigits(r.value) && |r.value| <= |cedula.value|
      ensures r.Some? && AllDigits(cedula.value) ==> r == cedula
    {
      if cedula.None? then None else Some(DigitsOf(cedula.value))
    }

    /** XXX-XXXXXXX-X when the clean cédula has 11 digits; the clean value otherwise. */
    function CedulaFormateada(): (r: JString)
      ensures r.None? <==> cedula.None?
      ensures NullableLength(CedulaLimpia()) != 11 ==> r == CedulaLimpia()
      ensures NullableLength(CedulaLimpia()) == 11 ==>
        r.Some? && |r.value| == 13 && r.value[3] == '-' && r.value[11] == '-'
        && DigitsOf(r.value) == CedulaLimpia().value
    {
      var limpia := CedulaLimpia();
      if limpia.None? || |limpia.value| != 11 then limpia
      else
        var f := Hyphenated(limpia.value);
        FormattedDigits(limpia.value);
        Some(f)
    }

    /** The first three digits, when there are at least three. */
    function CodigoMunicipio(): (r: JString)
      ensures r.Some? <==> NullableLength(CedulaLimpia()) >= 3
      ensures r.Some? ==> |r.value| == 3 && r.value == CedulaLimpia().value[..3]
    {
      var limpia := CedulaLimpia();
      if limpia.None? || |limpia.value| < 3 then None else Some(limpia.value[0..3])
    }

    /** Digits four to ten, when there are at least ten digits. */
    function NumeroSecuencial(): (r: JString)
      ensures r.Some? <==> NullableLength(CedulaLimpia()) >= 10
      ensures r.Some? ==> |r.value| == 7 && r.value == CedulaLimpia().value[3..10]
    {
      var limpia := CedulaLimpia();
      if limpia.None? || |limpia.value| < 10 then None else Some(limpia.value[3..10])
    }

    /** The last digit, only when there are exactly eleven. */
    function DigitoVerificador(): (r: JString)
      ensures r.Some? <==> NullableLength(CedulaLimpia()) == 11
      ensures r.Some? ==> |r.value| == 1 && r.value == CedulaLimpia().value[10..]
    {
      var limpia := CedulaLimpia();
      if limpia.None? || |limpia.value| != 11 then None else Some(limpia.value[10..11])
    }

    /** A cédula is valid when it holds exactly eleven digits, whatever else it holds. */
    function EsCedulaValida(): (b: bool)
      ensures b <==> DigitoVerificador().Some?
      ensures b ==> CodigoMunicipio().Some? && NumeroSecuencial().Some?
    {
      var limpia := CedulaLimpia();
      limpia.Some? && |limpia.value| == 11 && AllDigits(limpia.value)
    }

    /** The photo flag, true when absent. */
    function IncluirFoto(): (b: bool)
      ensures b <==> incluirFoto != Some(false)
    {
      if incluirFoto.Some? then incluirFoto.value else true
    }

    /** The requested view in lower case, "completo" when absent or blank. */
    function Formato(): (r: string)
      ensures formato.None? || IsBlank(formato.value) ==> r == "completo"
      ensures HasText(formato) ==> r == ToLower(formato.value)
    {
      if formato.None? || IsBlank(formato.value) then "completo" else ToLower(formato.value)
    }
  }

  /** The hyphenated form has the same digits as the clean cédula. */
  lemma FormattedDigits(d: string)
    requires |d| == 11 && AllDigits(d)
    ensures DigitsOf(Hyphenated(d)) == d
  {
    DigitsOfJoined(d[0..3], d[3..10], d[10..11]);
    assert d[0..3] + d[3..10] + d[10..11] == d;
  }

  /** Hyphens between runs of digits are dropped by cleaning. */
  lemma DigitsOfJoined(a: string, b: string, c: string)
    requires AllDigits(a) && AllDigits(b) && AllDigits(c)
    ensures DigitsOf(a + "-" + b + "-" + c) == a + b + c
  {
    assert DigitsOf(a) == a && DigitsOf(b) == b && DigitsOf(c) == c;
    assert DigitsOf("-") == "";
    DigitsOfAppend(a, "-");
    var s1 := a + "-";
    assert DigitsOf(s1) == a;
    DigitsOfAppend(s1, b);
    var s2 := s1 + b;
    assert DigitsOf(s2) == a + b;
    DigitsOfAppend(s2, "-");
    var s3 := s2 + "-";
    assert DigitsOf(s3) == a + b;
    DigitsOfAppend(s3, c);
    assert s3 + c == a + "-" + b + "-" + c;
  }

  // ---------------------------------------------------------------------
  // Properties
  // ---------------------------------------------------------------------

  /** Validity depends only on how many digits the cédula holds. */
  lemma ValidIffElevenDigits(r: ConsultaRequest)
    ensures r.EsCedulaValida() <==> NullableLength(r.CedulaLimpia()) == 11
  {
  }

  /** Separators and other non-digits never change the cleaned cédula. */
  lemma SeparatorsIgnored(a: string, sep: string, b: string)
    requires forall i :: 0 <= i < |sep| ==> !IsAsciiDigit(sep[i])
    ensures ConsultaRequest(Some(a + sep + b), None, None).CedulaLimpia()
         == ConsultaRequest(Some(a + b), None, None).CedulaLimpia()
  {
    DigitsOfAppend(a + sep, b);
    DigitsOfAppend(a, sep);
    DigitsOfAppend(a, b);
    DigitsOfNoDigits(sep);
    assert DigitsOf(a) + DigitsOf(sep) == DigitsOf(a);
  }

  /** A valid cédula formats to 13 characters, and formatting then cleaning is the identity. */
  lemma FormatRoundTrip(r: ConsultaRequest)
    requires r.EsCedulaValida()
    ensures var f := r.CedulaFormateada();
      f.Some? && |f.value| == 13
      && ConsultaRequest(f, None, None).CedulaLimpia() == r.CedulaLimpia()
      && ConsultaRequest(f, None, None).EsCedulaValida()
      && ConsultaRequest(f, None, None).CedulaFormateada() == f
  {
  }

  /** The formatted cédula is the municipality code, the sequence number and the check digit. */
  lemma FormattedFromParts(r: ConsultaRequest)
    requires r.EsCedulaValida()
    ensures r.CodigoMunicipio().Some? && r.NumeroSecuencial().Some? && r.DigitoVerificador().Some?
    ensures r.CedulaFormateada().value
         == r.CodigoMunicipio().value + "-" + r.NumeroSecuencial().value + "-" + r.DigitoVerificador().value
    ensures r.CodigoMunicipio().value + r.NumeroSecuencial().value + r.DigitoVerificador().value
         == r.CedulaLimpia().value
  {
    var d := r.CedulaLimpia().value;
    assert d[..3] + d[3..10] + d[10..] == d;
  }

  /** The text behind one optional leading '-'. */
  function SinGuionOpcional(s: string): (r: string)
    ensures r == s || (|s| > 0 && s[0] == '-' && r == s[1..])
    ensures DigitsOf(r) == DigitsOf(s)
  {
    if |s| > 0 && s[0] == '-' then s[1..] else s
  }

  /**
   * The shape bean validation demands of the cédula before any handler
   * runs, `^\d{3}-?\d{7}-?\d{1}$` with ASCII digits: three digits, an
   * optional '-', seven digits, an optional '-', one digit.
   */
  predicate CumplePatron(s: string)
  {
    |s| >= 3 && AllDigits(s[..3])
    && var r := SinGuionOpcional(s[3..]);
       |r| >= 7 && AllDigits(r[..7])
       && var q := SinGuionOpcional(r[7..]);
          |q| == 1 && AllDigits(q)
  }

  /**
   * A cédula of that shape is valid, and its digits are the three groups
   * in order: once bean validation has passed, the service's own refusal of
   * an invalid or missing cédula cannot happen.
   */
  lemma PatronImplicaValida(req: ConsultaRequest)
    requires req.cedula.Some? && CumplePatron(req.cedula.value)
    ensures req.EsCedulaValida() && |req.CedulaLimpia().value| == 11
  {
    var s := req.cedula.value;
    var r := SinGuionOpcional(s[3..]);
    var q := SinGuionOpcional(r[7..]);
    assert s == s[..3] + s[3..];
    DigitsOfAppend(s[..3], s[3..]);
    assert r == r[..7] + r[7..];
    DigitsOfAppend(r[..7], r[7..]);
    assert DigitsOf(s) == s[..3] + (r[..7] + q);
  }

  /** A request in the formatted shape keeps that shape. */
  lemma FormattedIsFixedPoint(c: string)
    requires |c| == 13 && c[3] == '-' && c[11] == '-'
    requires AllDigits(c[..3]) && AllDigits(c[4..11]) && AllDigits(c[12..])
    ensures ConsultaRequest(Some(c), None, None).CedulaFormateada() == Some(c)
  {
    var a, b, e := c[..3], c[4..11], c[12..];
    assert c == a + "-" + b + "-" + e;
    DigitsOfJoined(a, b, e);
    var d := a + b + e;
    assert d[0..3] == a && d[3..10] == b && d[10..11] == e;
    assert Hyphenated(d) == c;
  }
}
