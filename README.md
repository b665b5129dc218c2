# jce_consulta in Dafny

A model of the citizen lookup service `jce_consulta`. The service answers
questions about a Dominican identity number (cédula) by querying the JCE
portal (Junta Central Electoral), cleaning the XML payload the portal returns,
turning the record (`Individuo`) into one of four views of a citizen
(`completo`, `basico`, `personal`, `familiar`), and answering over HTTP. It
also models the service's cache, its rate limit, its retries and its error
handling. Proofs cover the model's behaviour.

## Layout

| file | module | what it holds |
|---|---|---|
| JavaText.dfy | JavaText | Java values: `Option` for a nullable reference, `Result` for "returns or throws", `String.trim`, case mapping onto ASCII letters, `indexOf`, `Long.parseLong` / `Long.toString` |
| ConsultaRequest.dfy | Request | the request DTO: cleaning, formatting and splitting the cédula, the view name |
| Individuo.dfy | Individuos | the portal record: full name, code descriptions, field validation, the success rule |
| ConsultaResponse.dfy | Responses | the response DTO, the citizen data record, the photo block, the HTTP answer value |
| ApiException.dfy | Exceptions | the error type table, the domain exception, its constructors and factories, the failures the model can raise (`Throwable`) |
| JceHttpClient.dfy | Client | the portal query: URL construction, XML cleaning, the retry policy, error translation |
| JceConsultaService.dfy | Service | validation, the four views, the photo block, error classification, the cache (`class JceConsultaService`) |
| GlobalExceptionHandler.dfy | Handler | the answers to domain and unexpected failures and the error counters (`class ExceptionHandler`) |
| JceConsultaController.dfy | Controller | the client address, the token bucket, the HTTP status table, both endpoints (`class JceConsultaController`) |

Modelling choices:

- A Java reference that may be null is an `Option` (`JString` is `Option<string>`).
- A call that may throw returns a `Result`.
- The reactive pipeline (`Mono`) becomes that same `Result`: a value or an error signal.
- The portal is a function parameter `upstream(url, attempt)` that gives a body or a transport failure. The XML deserialiser is a parameter `parse`.
- The clock, the elapsed time and the request IDs are parameters.
- State the source updates in place is held in classes with `modifies` clauses:
  - the `@Cacheable` store is a `map` field of `JceConsultaService`;
  - the rate-limit bucket is `TokenBucket`;
  - the handler's counters are fields of `ExceptionHandler`.
- The retry loop is a `method` with a `while` loop. It is proved against the function `RetryFrom`, and the retry policy's properties are proved about that function.

Behaviour the code has, which the model keeps and proves:

- The cache key is the cleaned cédula alone (`CedulaLimpia`). The key is evaluated before the method body runs, so:
  - a hit returns the stored response whatever view or photo flag the new request asks for, and without validating the request;
  - a request with a null cédula that reaches the service fails on the null key, and the generic handler answers that failure with 500. Over HTTP this happens only when bean validation is skipped: the `@Pattern` check on the body and on the path variable refuses a null or malformed cédula first, with 400 (`VALIDACION_FALLIDA` for the body, `PARAMETROS_INVALIDOS` for the path). The model states the pattern as `CumplePatron` and proves that a cédula passing it is valid.
- The `familiar` view is the complete view, field for field: the two builders are written separately and proved to give the same record.
- The portal's 5xx answers are never retried. `handleWebClientError` turns them into a plain `RuntimeException` before the retry filter sees them, and the filter retries only transport failures.
- A timeout on every attempt ends as the "retries exhausted" error. The timeout business message is never produced. The service classifies that error as `ERROR_PROCESAMIENTO`, not `JCE_TIMEOUT`.
- XML cleaning trims before it drops the byte-order mark, so a space after the mark survives.
- The photo URL appends the photo path as stored, untrimmed, although availability is decided on the trimmed path.
- `Individuo.validarCampo` checks for the word "null" before trimming. The service's `limpiarCampo` checks after trimming.
- A spouse recorded as "null" counts as family information in the record but not in the citizen view.
- The service's two convenience lookups (by cédula, and by cédula and view) call the main lookup on the service itself. That call does not pass through the caching proxy, so they neither read nor fill the cache.
- A `JCE_TIMEOUT` failure answered by the lookup itself becomes 503 through the controller's status table. The same failure as a domain exception becomes 504 through the exception handler.

## Model

| member | source | states |
|---|---|---|
| Request.ForCedula | src/main/java/com/arojas/jce_consulta/DTOs/ConsultaRequest.java:65-67 | The one-argument request keeps the cédula, wants the photo and asks for the "completo" view. |
| Request.ForCedulaFoto | src/main/java/com/arojas/jce_consulta/DTOs/ConsultaRequest.java:75-77 | The two-argument request keeps the cédula and the flag and asks for "completo"; the photo is wanted unless the flag is false. |
| Request.ConsultaRequest.CedulaLimpia | src/main/java/com/arojas/jce_consulta/DTOs/ConsultaRequest.java:84-89 | Null exactly when the input is null; otherwise only ASCII digits, never longer than the input, and the input itself when it is all digits. |
| Request.DigitsOfAppend | src/main/java/com/arojas/jce_consulta/DTOs/ConsultaRequest.java:88 | Cleaning distributes over concatenation, so the digits come out in input order. |
| Request.DigitsOfIdempotent | src/main/java/com/arojas/jce_consulta/DTOs/ConsultaRequest.java:88 | Cleaning an already cleaned cédula changes nothing. |
| Request.SeparatorsIgnored | src/main/java/com/arojas/jce_consulta/DTOs/ConsultaRequest.java:88 | Inserting any run of non-digits (hyphens, spaces) never changes the cleaned cédula. |
| Request.ValidIffElevenDigits | src/main/java/com/arojas/jce_consulta/DTOs/ConsultaRequest.java:152-157 | A cédula is valid exactly when cleaning leaves 11 digits; the `\d{11}` test adds nothing. |
| Request.ConsultaRequest.CedulaFormateada | src/main/java/com/arojas/jce_consulta/DTOs/ConsultaRequest.java:96-106 | Null iff the input is null; with 11 clean digits the result has 13 characters, '-' at positions 3 and 11, and its digits are the clean cédula; otherwise it is the clean value unchanged. |
| Request.FormattedDigits | src/main/java/com/arojas/jce_consulta/DTOs/ConsultaRequest.java:102-105 | Removing the hyphens from the XXX-XXXXXXX-X form gives the 11 digits back. |
| Request.FormatRoundTrip | src/main/java/com/arojas/jce_consulta/DTOs/ConsultaRequest.java:96-106 | For a valid cédula, formatting and cleaning again give the same clean cédula; the formatted text is itself valid and formats to itself. |
| Request.FormattedIsFixedPoint | src/main/java/com/arojas/jce_consulta/DTOs/ConsultaRequest.java:96-106 | Any text already in the XXX-XXXXXXX-X digit shape is its own formatted form. |
| Request.ConsultaRequest.CodigoMunicipio | src/main/java/com/arojas/jce_consulta/DTOs/ConsultaRequest.java:113-119 | Null exactly when fewer than 3 clean digits; otherwise the first 3. |
| Request.ConsultaRequest.NumeroSecuencial | src/main/java/com/arojas/jce_consulta/DTOs/ConsultaRequest.java:126-132 | Null exactly when fewer than 10 clean digits; otherwise the 7 digits at positions 3 to 9. |
| Request.ConsultaRequest.DigitoVerificador | src/main/java/com/arojas/jce_consulta/DTOs/ConsultaRequest.java:139-145 | Null unless there are exactly 11 clean digits; then the last one. |
| Request.ConsultaRequest.EsCedulaValida | src/main/java/com/arojas/jce_consulta/DTOs/ConsultaRequest.java:152-157 | Valid exactly when the check digit exists; then the municipality code and the sequence exist too. |
| Request.ConsultaRequest.IncluirFoto | src/main/java/com/arojas/jce_consulta/DTOs/ConsultaRequest.java:163-165 | The photo is wanted unless the flag is explicitly false; a null flag means yes. |
| Request.SinGuionOpcional | src/main/java/com/arojas/jce_consulta/DTOs/ConsultaRequest.java:42 | The optional "-" of the pattern: the text, or the text without its leading dash; the digits are the same. |
| Request.PatronImplicaValida | src/main/java/com/arojas/jce_consulta/DTOs/ConsultaRequest.java:42 | A cédula matching the bean-validation pattern is valid and cleans to exactly 11 digits. |
| Request.FormattedFromParts | src/main/java/com/arojas/jce_consulta/DTOs/ConsultaRequest.java:113-145 | For a valid cédula, municipality + sequence + check digit is the clean cédula, and the formatted form is the three parts joined by '-'. |
| Request.ConsultaRequest.Formato | src/main/java/com/arojas/jce_consulta/DTOs/ConsultaRequest.java:173-175 | "completo" when the view is null or blank; otherwise the view lower-cased. |
| Individuos.Individuo.NombreCompleto | src/main/java/com/arojas/jce_consulta/model/Individuo.java:205-225 | The full name has no surrounding whitespace and is "" when no name part has text. |
| Individuos.NombreCompletoJoins | src/main/java/com/arojas/jce_consulta/model/Individuo.java:205-225 | With no bare control characters in the parts, the full name is the trimmed parts that have text, joined in order by single spaces; it is "" exactly when no part has text. |
| Individuos.AppendPartJoins | src/main/java/com/arojas/jce_consulta/model/Individuo.java:208-222 | One builder step adds the next part to the join, with a space only after a non-empty prefix. |
| Individuos.Individuo.EstadoCivilDescripcion | src/main/java/com/arojas/jce_consulta/model/Individuo.java:232-246 | "Dato no disponible" for null or blank; the table description for a known code after upper-casing; any other code returned as written. |
| Individuos.CodesIgnoreCase | src/main/java/com/arojas/jce_consulta/model/Individuo.java:237-245 | Each of C, D, S, V, U, SE is recognised in lower and upper case. |
| Individuos.Individuo.EstatusDescripcion | src/main/java/com/arojas/jce_consulta/model/Individuo.java:253-266 | "Dato no disponible" for null or blank; the table description for N, P, T, A, R in any case; any other code returned as written. |
| Individuos.StatusCodesIgnoreCase | src/main/java/com/arojas/jce_consulta/model/Individuo.java:258-265 | Each of N, P, T, A, R is recognised in lower and upper case. |
| Individuos.DescriptionsNeverBlank | src/main/java/com/arojas/jce_consulta/model/Individuo.java:232-266 | Neither description is ever blank. |
| Individuos.ValidarCampo | src/main/java/com/arojas/jce_consulta/model/Individuo.java:274-279 | "Dato no disponible" for null, blank, or "null" in any case; otherwise the trimmed value. |
| Individuos.ValidarCampoPaddedNull | src/main/java/com/arojas/jce_consulta/model/Individuo.java:275 | The "null" test is made before trimming: " null " survives as "null". |
| Individuos.FotoDisponibleIffValidated | src/main/java/com/arojas/jce_consulta/model/Individuo.java:307-309 | A photo is available exactly when the URL is present, not blank and not "null" in any case; its validated value is then the trimmed URL. |
| Individuos.Individuo.TiempoRespuestaNumerico | src/main/java/com/arojas/jce_consulta/model/Individuo.java:316-325 | Always within the signed 64-bit range; 0 when absent, blank or not a long; otherwise the parsed value. |
| Individuos.TiempoRespuestaRoundTrip | src/main/java/com/arojas/jce_consulta/model/Individuo.java:316-325 | Printing any long and reading it back as the response time gives that long. |
| Individuos.TiempoRespuestaRejects | src/main/java/com/arojas/jce_consulta/model/Individuo.java:320-324 | Surrounding spaces, or a magnitude above the long range, give 0; only -(2^63) is accepted past 2^63 - 1. |
| Individuos.ExitoIgnoresApellido2 | src/main/java/com/arojas/jce_consulta/model/Individuo.java:332-337 | The second surname plays no part in the success rule. |
| Individuos.ExitoHasNombre | src/main/java/com/arojas/jce_consulta/model/Individuo.java:332-337 | A successful record with clean name parts has a non-empty full name. |
| Individuos.ExitoFlags | src/main/java/com/arojas/jce_consulta/model/Individuo.java:333-334 | The success flag is accepted as "true" in any case or exactly "1"; " 1", "yes" and null are refused. |
| Individuos.Individuo.TieneInformacionFamiliar | src/main/java/com/arojas/jce_consulta/model/Individuo.java:286-290 | True implies a parent or spouse name is present; false implies all three validate to "Dato no disponible". |
| Individuos.Individuo.TieneDocumentosAdicionales | src/main/java/com/arojas/jce_consulta/model/Individuo.java:297-300 | True implies the old cédula or the passport is present; false implies both validate to "Dato no disponible". |
| Individuos.Individuo.TieneFotoDisponible | src/main/java/com/arojas/jce_consulta/model/Individuo.java:307-309 | True implies a photo path whose validated value is its trimmed text; false implies the path validates to "Dato no disponible". |
| Individuos.Individuo.EsConsultaExitosa | src/main/java/com/arojas/jce_consulta/model/Individuo.java:332-337 | Success exactly when the flag is "true" in any case or exactly "1" and the given names and first surname have text; so a success flag is "1" or four letters long, and a null flag is never a success. |
| Responses.Exitosa | src/main/java/com/arojas/jce_consulta/DTOs/ConsultaResponse.java:65-79 | A success: exitosa, the fixed message and the code "SUCCESS"; it carries the given cédula, data, photo block and elapsed time. |
| Responses.ExitosaSinFoto | src/main/java/com/arojas/jce_consulta/DTOs/ConsultaResponse.java:84-89 | The three-argument success is the full one with no photo block. |
| Responses.Error | src/main/java/com/arojas/jce_consulta/DTOs/ConsultaResponse.java:94-108 | An error response is never exitosa and has no data and no photo block; message, code, cédula and time are echoed. |
| Responses.FactoriesDisjoint | src/main/java/com/arojas/jce_consulta/DTOs/ConsultaResponse.java:65-108 | No success response equals any error response, and an error keeps the code it was given. |
| Responses.NuevoDatosCiudadano | src/main/java/com/arojas/jce_consulta/DTOs/ConsultaResponse.java:185-196 | Only the full name can change; it is set only when it is null and the given names are not, to the given names followed by " " plus each surname that has text, the whole concatenation then trimmed once. |
| Responses.NuevoDatosCiudadanoIdempotent | src/main/java/com/arojas/jce_consulta/DTOs/ConsultaResponse.java:186 | Constructing again from the constructed components changes nothing. |
| Responses.NombreCompletoPresence | src/main/java/com/arojas/jce_consulta/DTOs/ConsultaResponse.java:186 | After construction a full name is present exactly when one was given or the given names were; surnames alone never produce one. |
| Responses.DerivedNombreCompleto | src/main/java/com/arojas/jce_consulta/DTOs/ConsultaResponse.java:187-194 | With trimmed non-empty given names and trimmed surnames, the derived full name needs no trimming: given names, then " " plus each surname with text. |
| Responses.DatosCiudadano.TieneInformacionFamiliar | src/main/java/com/arojas/jce_consulta/DTOs/ConsultaResponse.java:201-205 | True implies some parent or spouse field is present; with all three absent it is false. |
| Responses.DatosCiudadano.TieneDocumentosAdicionales | src/main/java/com/arojas/jce_consulta/DTOs/ConsultaResponse.java:210-213 | True implies the old cédula or the passport is present; with both absent it is false. |
| Responses.Disponible | src/main/java/com/arojas/jce_consulta/DTOs/ConsultaResponse.java:234-236 | An available photo block: true, the URL, and the fixed message. |
| Responses.NoDisponible | src/main/java/com/arojas/jce_consulta/DTOs/ConsultaResponse.java:241-243 | An unavailable photo block: false, no URL, and the reason, or "Foto no disponible" for a null reason. |
| Responses.FotoBlocksShape | src/main/java/com/arojas/jce_consulta/DTOs/ConsultaResponse.java:234-243 | The two blocks differ in availability, only the available one can hold a URL, and their default messages differ. |
| Exceptions.TipoError.StatusHttp | src/main/java/com/arojas/jce_consulta/exceptions/ApiException.java:36-58 | Every error type answers with a 4xx or 5xx status. |
| Exceptions.StatusTable | src/main/java/com/arojas/jce_consulta/exceptions/ApiException.java:36-58 | The statuses of the table (400, 404, 422, 504, 429 ...), and 500 exactly for the four internal types. |
| Exceptions.ClientServerExclusive | src/main/java/com/arojas/jce_consulta/exceptions/ApiException.java:284-293 | Every type is a client error or a server error, never both. |
| Exceptions.ExternalIsServerError | src/main/java/com/arojas/jce_consulta/exceptions/ApiException.java:298-303 | The external-service types are exactly those answered with 502 to 504, and all are server errors. |
| Exceptions.NameInjective | src/main/java/com/arojas/jce_consulta/exceptions/ApiException.java:76-78 | Distinct types have distinct codes. |
| Exceptions.OfTipo | src/main/java/com/arojas/jce_consulta/exceptions/ApiException.java:97-103 | The type-only constructor: the type's description as message, its name as code, no context, no cause. |
| Exceptions.WithMessage | src/main/java/com/arojas/jce_consulta/exceptions/ApiException.java:108-114 | The message constructor: the given message, the type's name as code, no context. |
| Exceptions.WithContext | src/main/java/com/arojas/jce_consulta/exceptions/ApiException.java:119-125 | The context constructor: the given message and context, the type's name as code. |
| Exceptions.WithCause | src/main/java/com/arojas/jce_consulta/exceptions/ApiException.java:130-136 | The full constructor: the given message, context and cause, the type's name as code. |
| Exceptions.OfTipoCause | src/main/java/com/arojas/jce_consulta/exceptions/ApiException.java:141-147 | The cause constructor: the type's description as message, its name as code, the cause kept. |
| Exceptions.CodigoIsName | src/main/java/com/arojas/jce_consulta/exceptions/ApiException.java:97-147 | Whatever constructor or factory built an exception, its code is its type's name. |
| Exceptions.CedulaInvalida | src/main/java/com/arojas/jce_consulta/exceptions/ApiException.java:156-161 | CEDULA_INVALIDA with context "cedula=" followed by the cédula ("null" for a null one) and the fixed message around it. |
| Exceptions.CiudadanoNoEncontrado | src/main/java/com/arojas/jce_consulta/exceptions/ApiException.java:166-171 | CIUDADANO_NO_ENCONTRADO with context "cedula=" followed by the cédula. |
| Exceptions.JceNoDisponible | src/main/java/com/arojas/jce_consulta/exceptions/ApiException.java:176-180 | JCE_NO_DISPONIBLE with its fixed message and no context. |
| Exceptions.JceTimeout | src/main/java/com/arojas/jce_consulta/exceptions/ApiException.java:185-189 | JCE_TIMEOUT with its fixed message and no context. |
| Exceptions.RateLimitExcedido | src/main/java/com/arojas/jce_consulta/exceptions/ApiException.java:194-198 | RATE_LIMIT_EXCEDIDO with its fixed message and no context. |
| Exceptions.FormatoNoSoportado | src/main/java/com/arojas/jce_consulta/exceptions/ApiException.java:203-208 | FORMATO_NO_SOPORTADO with context "formato=" followed by the view name. |
| Exceptions.ErrorDeserializacion | src/main/java/com/arojas/jce_consulta/exceptions/ApiException.java:213-219 | ERROR_DESERIALIZACION: the details as context and inside the message, the cause kept. |
| Exceptions.ErrorComunicacionJce | src/main/java/com/arojas/jce_consulta/exceptions/ApiException.java:224-231 | JCE_ERROR_COMUNICACION: the cause's message as context, or "No se proporcionó causa" without a cause. |
| Exceptions.ApiException.StatusHttp | src/main/java/com/arojas/jce_consulta/exceptions/ApiException.java:252-254 | An exception answers with its type's status. |
| Exceptions.ApiException.EsErrorCliente | src/main/java/com/arojas/jce_consulta/exceptions/ApiException.java:284-286 | A client error exactly for the seven 4xx types. |
| Exceptions.ApiException.EsErrorServidor | src/main/java/com/arojas/jce_consulta/exceptions/ApiException.java:291-293 | A server error exactly when not a client error. |
| Exceptions.ApiException.EsErrorServicioExterno | src/main/java/com/arojas/jce_consulta/exceptions/ApiException.java:298-303 | An external-service error exactly when the status is 502 to 504; each is a server error. |
| Exceptions.DetalleCompleto | src/main/java/com/arojas/jce_consulta/exceptions/ApiException.java:263-279 | The detail text opens with the class name and the fields, ends with "}", and without a cause ends with the timestamp segment. |
| Exceptions.DetalleCompletoShape | src/main/java/com/arojas/jce_consulta/exceptions/ApiException.java:263-279 | The detailed text opens with type, code and message and closes with '}'; the context segment follows the opening when there is a context, and the timestamp segment follows it when there is none; it ends with the cause segment when there is a cause, else with the timestamp. |
| Client.SplitCedula | src/main/java/com/arojas/jce_consulta/client/JceHttpClient.java:138-149 | Refused with the fixed IllegalArgumentException exactly when the cédula is null or not 11 characters; otherwise parts of 3, 7 and 1 characters that concatenate back to it. |
| Client.BuildConsultaUrl | src/main/java/com/arojas/jce_consulta/client/JceHttpClient.java:184-197 | The query starts with the endpoint and "?ServiceID=", and is exactly 26 characters longer than its five inserted values. |
| Client.UrlRoundTrip | src/main/java/com/arojas/jce_consulta/client/JceHttpClient.java:184-197 | The cédula can be read back from the query built for it. |
| Client.DropBom | src/main/java/com/arojas/jce_consulta/client/JceHttpClient.java:248 | Exactly one leading byte-order mark is removed; nothing else changes. |
| Client.RemoveControls | src/main/java/com/arojas/jce_consulta/client/JceHttpClient.java:249 | The result has none of the deletable control characters, and control-free text is left unchanged; `RemoveControlsConcat` and `RemoveControlsChar` pin its content character by character. |
| Client.RemoveControlsConcat | src/main/java/com/arojas/jce_consulta/client/JceHttpClient.java:249 | Deleting controls distributes over concatenation. |
| Client.RemoveControlsChar | src/main/java/com/arojas/jce_consulta/client/JceHttpClient.java:249 | A single character is deleted exactly when it is one of the deletable controls. |
| Client.EscapeAmp | src/main/java/com/arojas/jce_consulta/client/JceHttpClient.java:250 | Escaping never shortens the text; `EscapeKeepsEntityAmp`, `EscapeStrayAmp` and `EscapePrefix` pin its content at each '&'. |
| Client.EscapePrefix | src/main/java/com/arojas/jce_consulta/client/JceHttpClient.java:250 | A prefix without "&" passes through escaping unchanged. |
| Client.EscapeKeepsEntityAmp | src/main/java/com/arojas/jce_consulta/client/JceHttpClient.java:250 | An "&" that begins a predefined entity is kept as it is. |
| Client.EscapeStrayAmp | src/main/java/com/arojas/jce_consulta/client/JceHttpClient.java:250 | An "&" that begins no predefined entity becomes "&amp;". |
| Client.EscapeAroundAmp | src/main/java/com/arojas/jce_consulta/client/JceHttpClient.java:250 | Around the first "&", escaping keeps the text before it and keeps or expands that "&" by whether an entity follows. |
| Client.EscapeWellEscaped | src/main/java/com/arojas/jce_consulta/client/JceHttpClient.java:250 | After escaping, every '&' begins one of the five predefined entities. |
| Client.EscapeFixesWellEscaped | src/main/java/com/arojas/jce_consulta/client/JceHttpClient.java:250 | Text in which every '&' already begins an entity is left unchanged. |
| Client.EscapeIdempotent | src/main/java/com/arojas/jce_consulta/client/JceHttpClient.java:250 | Escaping twice is escaping once. |
| Client.EscapeKeepsNoControls | src/main/java/com/arojas/jce_consulta/client/JceHttpClient.java:249-250 | Escaping keeps text free of control characters. |
| Client.CleanXmlContent | src/main/java/com/arojas/jce_consulta/client/JceHttpClient.java:241-251 | Null exactly for a null payload; `CleanXmlFramed`, `CleanXmlDeletesControl`, `CleanXmlEscapesStrayAmp` and `CleanXmlKeepsEntity` pin its content. |
| Client.CleanXmlFramed | src/main/java/com/arojas/jce_consulta/client/JceHttpClient.java:241-251 | A payload without surrounding blanks and without a mark is cleaned to the escaping of its control-free text. |
| Client.CleanXmlDeletesControl | src/main/java/com/arojas/jce_consulta/client/JceHttpClient.java:241-251 | A control character inside the payload is deleted and the text around it kept. |
| Client.CleanXmlEscapesStrayAmp | src/main/java/com/arojas/jce_consulta/client/JceHttpClient.java:241-251 | A stray "&" in clean text becomes "&amp;" and the text before it is kept. |
| Client.CleanXmlKeepsEntity | src/main/java/com/arojas/jce_consulta/client/JceHttpClient.java:241-251 | An "&" that begins an entity in clean text is kept, with the text before it. |
| Client.CleanXmlGuarantees | src/main/java/com/arojas/jce_consulta/client/JceHttpClient.java:241-251 | The cleaned payload has no deletable control character, no stray '&', and every character up to U+0020 left in it is whitespace. |
| Client.CleanXmlFixesCleanText | src/main/java/com/arojas/jce_consulta/client/JceHttpClient.java:241-251 | A payload already trimmed, without a leading mark, control-free and well escaped comes out unchanged. |
| Client.CleanXmlKeepsSpaceAfterBom | src/main/java/com/arojas/jce_consulta/client/JceHttpClient.java:247-248 | Trimming runs before the mark is dropped, so a space right after the mark survives. |
| Client.ParseXmlResponse | src/main/java/com/arojas/jce_consulta/client/JceHttpClient.java:214-236 | A null or trim-empty payload is refused before parsing; otherwise the cleaned payload is parsed; every failure is one RuntimeException with the fixed message and the failure as cause. |
| Client.ShouldRetryTable | src/main/java/com/arojas/jce_consulta/client/JceHttpClient.java:272-279 | An HTTP error response is retryable exactly for a 5xx status; timeouts, connection and socket timeouts are retryable; translated, argument and domain errors never are. |
| Client.ShouldRetry | src/main/java/com/arojas/jce_consulta/client/JceHttpClient.java:272-279 | An upstream HTTP error is retried exactly for a 5xx status; an application, runtime, argument or unknown exception never. |
| Client.StatusCodeText | src/main/java/com/arojas/jce_consulta/client/JceHttpClient.java:293 | The status text starts with the status number, which parses back to the status. |
| Client.HttpErrorMessage | src/main/java/com/arojas/jce_consulta/client/JceHttpClient.java:285-294 | Statuses outside the seven known ones get "Error HTTP <status> del portal JCE". |
| Client.HandleWebClientError | src/main/java/com/arojas/jce_consulta/client/JceHttpClient.java:284-298 | An HTTP error response becomes a RuntimeException with the status message and the response as cause, which is never retryable. |
| Client.MapToBusinessException | src/main/java/com/arojas/jce_consulta/client/JceHttpClient.java:303-313 | Timeouts and connection failures get their business message with the original as cause; every other failure passes unchanged. |
| Client.Exhausted | src/main/java/com/arojas/jce_consulta/client/JceHttpClient.java:262-265 | The exhaustion error is a RuntimeException "Consulta JCE falló después de N reintentos" with the last failure as cause, and is not retryable. |
| Client.AttemptResult | src/main/java/com/arojas/jce_consulta/client/JceHttpClient.java:201-209 | One attempt: an HTTP error response is translated at once, another failure is kept, a body is parsed. |
| Client.AttemptRetryableOnlyForTransport | src/main/java/com/arojas/jce_consulta/client/JceHttpClient.java:201-209 | An attempt's error is retryable exactly when the transport failed; 5xx responses reach the retry decision already translated. |
| Client.RetryFromFacts | src/main/java/com/arojas/jce_consulta/client/JceHttpClient.java:256-267 | At most maxRetries + 1 attempts; every attempt but the last failed retryably; the last result is returned unless retryable, in which case all retries were used and the exhaustion error wraps it. |
| Client.RetryFrom | src/main/java/com/arojas/jce_consulta/client/JceHttpClient.java:256-267 | At least one and at most maxRetries + 1 attempts; a failure returned is never one that would be retried. |
| Client.FirstAttemptDecisive | src/main/java/com/arojas/jce_consulta/client/JceHttpClient.java:256-267 | A success or non-retryable error on the first attempt is returned after one attempt. |
| Client.PersistentFailureExhausts | src/main/java/com/arojas/jce_consulta/client/JceHttpClient.java:256-267 | When every attempt fails retryably, exactly maxRetries + 1 attempts are made and the exhaustion error is returned. |
| Client.RetryLoop | src/main/java/com/arojas/jce_consulta/client/JceHttpClient.java:256-267 | The loop over attempts returns the result and attempt count the retry policy prescribes. |
| Client.MapResult | src/main/java/com/arojas/jce_consulta/client/JceHttpClient.java:128 | The business translation leaves successes alone and maps only the error. |
| Client.ConsultaResult | src/main/java/com/arojas/jce_consulta/client/JceHttpClient.java:114-149 | A cédula that cannot be split fails with that error before any attempt; a failure returned is never a retryable one. |
| Client.PersistentTimeoutNotTranslated | src/main/java/com/arojas/jce_consulta/client/JceHttpClient.java:122-128 | A timeout on every attempt ends with the exhaustion error, never with the timeout business message. |
| Client.RequestsSent | src/main/java/com/arojas/jce_consulta/client/JceHttpClient.java:138-149 | No request when the split refuses, otherwise at least one and at most maxRetries + 1. |
| Client.ConsultarCiudadano | src/main/java/com/arojas/jce_consulta/client/JceHttpClient.java:114-149 | The lookup by cédula yields the split refusal or the translated result of the retries, and sends one request per attempt, each to the query built for that cédula. |
| Client.RefusedWithoutRequest | src/main/java/com/arojas/jce_consulta/client/JceHttpClient.java:138-142 | A cédula of any length but 11 is refused without any request. |
| Service.FormatoIsLower | src/main/java/com/arojas/jce_consulta/service/JceConsultaService.java:183-184 | The view name examined by validation is already lower case. |
| Service.ValidateRequest | src/main/java/com/arojas/jce_consulta/service/JceConsultaService.java:173-190 | An invalid cédula is refused with CEDULA_INVALIDA and the formatted value before the view is looked at; then a view outside the four names is refused with FORMATO_NO_SOPORTADO; a request passes exactly when neither applies. |
| Service.FormatoIgnoresCase | src/main/java/com/arojas/jce_consulta/service/JceConsultaService.java:183-184 | The four view names are accepted in upper case too. |
| Service.LimpiarCampo | src/main/java/com/arojas/jce_consulta/service/JceConsultaService.java:458-463 | Null for null, trim-empty or "null" after trimming in any case; otherwise the trimmed value; the result is always clean. |
| Service.LimpiarCampoFixedPoints | src/main/java/com/arojas/jce_consulta/service/JceConsultaService.java:458-463 | Cleaning leaves exactly the clean values alone, so it is idempotent. |
| Service.CrearDatosCompletos | src/main/java/com/arojas/jce_consulta/service/JceConsultaService.java:408-437 | The complete view is built from every cleaned record field, and holds a full name exactly when it holds given names. |
| Service.CrearDatosPersonales | src/main/java/com/arojas/jce_consulta/service/JceConsultaService.java:340-369 | The personal view is the complete view with spouse, spouse cédula, father and mother set to null. |
| Service.CrearDatosFamiliares | src/main/java/com/arojas/jce_consulta/service/JceConsultaService.java:374-403 | The family view keeps the four family fields, each cleaned from the record, and has a full name exactly when it has given names. |
| Service.CrearDatosBasicos | src/main/java/com/arojas/jce_consulta/service/JceConsultaService.java:305-335 | The basic view is the complete view with every field outside the basic set set to null. |
| Service.CompletoFromRecord | src/main/java/com/arojas/jce_consulta/service/JceConsultaService.java:408-437 | Each field of the complete view except the full name is the cleaned value of its record field (descriptions for the coded fields). |
| Service.BasicoView | src/main/java/com/arojas/jce_consulta/service/JceConsultaService.java:305-335 | The basic view has exactly the names, full name, birth date, sex, civil status, nationality and status of the complete view, and null elsewhere. |
| Service.PersonalView | src/main/java/com/arojas/jce_consulta/service/JceConsultaService.java:340-369 | The personal view differs from the complete one exactly in the four family fields, which are null. |
| Service.Convertir | src/main/java/com/arojas/jce_consulta/service/JceConsultaService.java:289-300 | "basico", "personal" and "familiar" in any case select their own builders; a null view or any other name gives the complete view. |
| Service.FamiliarIsCompleto | src/main/java/com/arojas/jce_consulta/service/JceConsultaService.java:374-403 | The family builder, written out field by field, yields the same record as the complete builder, so the family view equals the complete view. |
| Service.ViewsAreClean | src/main/java/com/arojas/jce_consulta/service/JceConsultaService.java:305-437 | Every field of every view except the derived full name is a cleaned value. |
| Service.ViewsShareNames | src/main/java/com/arojas/jce_consulta/service/JceConsultaService.java:305-437 | All views agree on the given names, both surnames and the full name. |
| Service.RestrictedViewsHideFamily | src/main/java/com/arojas/jce_consulta/service/JceConsultaService.java:305-369 | The personal and basic views never report family information, and the basic one no extra documents. |
| Service.FamiliaDeVista | src/main/java/com/arojas/jce_consulta/DTOs/ConsultaResponse.java:201-205 | The complete view reports family information exactly when a cleaned spouse, father or mother has text. |
| Service.FamiliaSoloSiRegistro | src/main/java/com/arojas/jce_consulta/model/Individuo.java:286-290 | Family information in the complete view implies family information in the record. |
| Service.NullSpouseHidden | src/main/java/com/arojas/jce_consulta/model/Individuo.java:286-290 | The converse fails: a spouse recorded as "null" counts in the record but is cleaned out of the view. |
| Service.NombreCompletoAgrees | src/main/java/com/arojas/jce_consulta/service/JceConsultaService.java:408-437 | With plain-text name parts that are not "null", the view's full name equals the record's full name. |
| Service.ProcesarInformacionFoto | src/main/java/com/arojas/jce_consulta/service/JceConsultaService.java:442-449 | Available exactly when the record has a photo; then the URL is the base URL followed by the photo path; otherwise the fixed unavailable block. |
| Service.FotoUrlShape | src/main/java/com/arojas/jce_consulta/service/JceConsultaService.java:442-449 | The photo URL starts with the base URL and ends with the untrimmed photo path. |
| Service.ProcessIndividuoResponse | src/main/java/com/arojas/jce_consulta/service/JceConsultaService.java:223-246 | Successful exactly when the record exists and passes the success rule; otherwise CIUDADANO_NO_ENCONTRADO with no data; always the formatted cédula; on success the requested view, and a photo block exactly when the photo is wanted. |
| Service.Clasificar | src/main/java/com/arojas/jce_consulta/service/JceConsultaService.java:263-273 | A message mentioning "timeout"/"Timeout" gives JCE_TIMEOUT, checked first; then "conexión"/"connect" gives JCE_NO_DISPONIBLE; anything else, null included, ERROR_PROCESAMIENTO. |
| Service.HandleConsultaError | src/main/java/com/arojas/jce_consulta/service/JceConsultaService.java:251-280 | Domain exceptions are raised again unchanged; every other failure becomes an error response with no data, the formatted cédula and the classified message and code. |
| Service.NeitherTimeoutNorConexion | src/main/java/com/arojas/jce_consulta/service/JceConsultaService.java:263-273 | A message without 'T', 'c' and "ti" is classified as neither timeout nor connection failure. |
| Service.GatewayTimeoutIsTimeout | src/main/java/com/arojas/jce_consulta/service/JceConsultaService.java:263-266 | The portal's 504 answer is reported as JCE_TIMEOUT. |
| Service.ExhaustedIsProcesamiento | src/main/java/com/arojas/jce_consulta/service/JceConsultaService.java:270-273 | A failure that outlasts every retry, a timeout included, is reported as ERROR_PROCESAMIENTO. |
| Service.ParseFailureIsProcesamiento | src/main/java/com/arojas/jce_consulta/service/JceConsultaService.java:270-273 | A payload that is empty or cannot be parsed is reported as ERROR_PROCESAMIENTO. |
| Service.Responder | src/main/java/com/arojas/jce_consulta/service/JceConsultaService.java:209-218 | A record is processed into a response, a failure goes through the error handling; the answer shows the formatted cédula and is successful only with a record and data. |
| Service.ConsultaSinCache | src/main/java/com/arojas/jce_consulta/service/JceConsultaService.java:119-134 | A refused request fails with its domain exception; a successful answer comes only for a validated request, with data and the formatted cédula. |
| Service.SuccessAnswersValidRequest | src/main/java/com/arojas/jce_consulta/service/JceConsultaService.java:241-245 | A request that passes validation shows its cleaned cédula in the XXX-XXXXXXX-X form. |
| Service.RequestsSinCache | src/main/java/com/arojas/jce_consulta/service/JceConsultaService.java:209-218 | An uncached lookup sends at most maxRetries + 1 requests and none for an invalid cédula. |
| Service.ValidRequestReachesPortal | src/main/java/com/arojas/jce_consulta/service/JceConsultaService.java:213-215 | A validated request always reaches the portal at least once. |
| Service.ConsultaCacheada | src/main/java/com/arojas/jce_consulta/service/JceConsultaService.java:118-134 | The key is the cleaned cédula whatever the view or photo flag; a null key is refused; a hit returns the stored response with no request and no validation; a miss runs the lookup. |
| Service.Almacenar | src/main/java/com/arojas/jce_consulta/service/JceConsultaService.java:118 | A miss keeps every old entry and adds the response exactly when it is successful. |
| Service.CacheStoresOnlySuccess | src/main/java/com/arojas/jce_consulta/service/JceConsultaService.java:118 | The cache only grows, and only by a successful response stored under the cleaned cédula; error responses are never stored. |
| Service.CacheStaysValid | src/main/java/com/arojas/jce_consulta/service/JceConsultaService.java:118 | Every entry remains a successful response whose cédula is its key formatted. |
| Service.StoredEntryValid | src/main/java/com/arojas/jce_consulta/service/JceConsultaService.java:118 | A successful answer to a validated request is a valid entry under its cleaned cédula. |
| Service.SuccessIsServedFromCache | src/main/java/com/arojas/jce_consulta/service/JceConsultaService.java:118 | After a success, any request with the same cleaned cédula gets the stored response back without a request, whatever its view, photo flag or time. |
| Service.InvalidRequestNeverCached | src/main/java/com/arojas/jce_consulta/service/JceConsultaService.java:118-127 | An uncached invalid cédula fails with CEDULA_INVALIDA, sends nothing and leaves the cache unchanged. |
| Service.JceConsultaService.constructor | src/main/java/com/arojas/jce_consulta/service/JceConsultaService.java:75-82 | The service starts with the configured portal and photo base URL and an empty cache, which is valid. |
| Service.JceConsultaService.ConsultarCiudadano | src/main/java/com/arojas/jce_consulta/service/JceConsultaService.java:118-134 | The service method returns, stores and sends what the cached lookup prescribes, and keeps the cache valid. |
| Service.JceConsultaService.ConsultarSinCache | src/main/java/com/arojas/jce_consulta/service/JceConsultaService.java:126-128 | The method without the cache returns what the uncached lookup prescribes and sends its number of requests. |
| Service.JceConsultaService.ConsultarPorCedula | src/main/java/com/arojas/jce_consulta/service/JceConsultaService.java:142-144 | The lookup by cédula alone is the uncached lookup of the default request: a valid cédula always reaches the portal, cached or not, and a null or invalid cédula is refused as CEDULA_INVALIDA without a request. |
| Service.JceConsultaService.ConsultarConFormato | src/main/java/com/arojas/jce_consulta/service/JceConsultaService.java:153-155 | The lookup by cédula and view is the uncached lookup of that request with the photo wanted: a request that passes validation reaches the portal, a refused one sends nothing. |
| Handler.ExtraerCedulaDeContexto | src/main/java/com/arojas/jce_consulta/exceptions/GlobalExceptionHandler.java:500-515 | Null exactly when the context is null or lacks "cedula="; otherwise the text after the first key up to the next ',' or the end, which holds no ','. |
| Handler.ExtraerDeClave | src/main/java/com/arojas/jce_consulta/exceptions/GlobalExceptionHandler.java:506-511 | "cedula=" followed by a text without ',' gives that text. |
| Handler.CedulaRoundTrip | src/main/java/com/arojas/jce_consulta/exceptions/GlobalExceptionHandler.java:500-515 | The cédula of an invalid-cédula or not-found exception comes back out of its context ("null" for a null one). |
| Handler.FormatoContextNamesNoCedula | src/main/java/com/arojas/jce_consulta/exceptions/GlobalExceptionHandler.java:500-515 | The unsupported-view exception names no cédula. |
| Handler.NombreParametro | src/main/java/com/arojas/jce_consulta/exceptions/GlobalExceptionHandler.java:486-489 | The parameter name holds no '.' and is a suffix of the path, preceded by '.' when shorter than it. |
| Handler.NombreParametroRoundTrip | src/main/java/com/arojas/jce_consulta/exceptions/GlobalExceptionHandler.java:486-489 | A dotted path gives its last segment; a path without '.' is its own name. |
| Handler.RespuestaApi | src/main/java/com/arojas/jce_consulta/exceptions/GlobalExceptionHandler.java:112-122 | The type's status, the request ID and the type's name as headers, and an error body with the message, the code, the context's cédula and time 0. |
| Handler.RespuestaGenerica | src/main/java/com/arojas/jce_consulta/exceptions/GlobalExceptionHandler.java:453-465 | 500, "INTERNAL" as error type, and an ERROR_INTERNO body with the fixed message and no cédula. |
| Handler.RespuestaApiShape | src/main/java/com/arojas/jce_consulta/exceptions/GlobalExceptionHandler.java:112-122 | The answer never carries data, its code matches the error-type header, and it is 4xx exactly for client errors and 5xx exactly for server errors. |
| Handler.CedulaInvalidaAnswer | src/main/java/com/arojas/jce_consulta/exceptions/GlobalExceptionHandler.java:112-122 | An invalid cédula is answered with 400, CEDULA_INVALIDA and the cédula echoed. |
| Handler.InternoIffServidorPropio | src/main/java/com/arojas/jce_consulta/exceptions/GlobalExceptionHandler.java:100-110 | An exception is counted as internal exactly when it is a server error outside the four JCE types. |
| Handler.ExceptionHandler.constructor | src/main/java/com/arojas/jce_consulta/exceptions/GlobalExceptionHandler.java:67-79 | The three error counters start at zero. |
| Handler.ExceptionHandler.HandleApiException | src/main/java/com/arojas/jce_consulta/exceptions/GlobalExceptionHandler.java:90-123 | Answers with the domain answer, counts every error, and counts an internal one only when it is neither a client nor an external-service error. |
| Handler.ExceptionHandler.HandleGenericException | src/main/java/com/arojas/jce_consulta/exceptions/GlobalExceptionHandler.java:439-466 | Answers with the generic 500 answer and counts the error both as an error and as internal. |
| Handler.ExceptionHandler.Handle | src/main/java/com/arojas/jce_consulta/exceptions/GlobalExceptionHandler.java:90-91 | Domain exceptions go to their own handler and every other failure to the generic one, with the counters each updates. |
| Controller.PrimeraDireccion | src/main/java/com/arojas/jce_consulta/controllers/JceConsultaController.java:307-308 | Fails exactly on a non-empty all-comma value; otherwise the trimmed text before the first ','. |
| Controller.ObtenerIpCliente | src/main/java/com/arojas/jce_consulta/controllers/JceConsultaController.java:302-317 | Forwarded-for first, then X-Real-IP, then X-Client-IP, then the remote address; a null, empty or "unknown" header is skipped. |
| Controller.UnusableHeaderIgnored | src/main/java/com/arojas/jce_consulta/controllers/JceConsultaController.java:307-315 | A header that is null, empty or "unknown" in any case behaves as a missing one, including "unknown" spelled with the Kelvin sign, which Java's equalsIgnoreCase matches to 'k'. |
| Controller.AddressFailsOnlyOnCommas | src/main/java/com/arojas/jce_consulta/controllers/JceConsultaController.java:307-308 | Finding the address fails only for a forwarded-for header made of commas alone. |
| Controller.ForwardedForRoundTrip | src/main/java/com/arojas/jce_consulta/controllers/JceConsultaController.java:307-308 | The first forwarded address comes back, whatever follows the first ','. |
| Controller.TokenBucket.TryConsume | src/main/java/com/arojas/jce_consulta/controllers/JceConsultaController.java:254-266 | One token is taken exactly when there is one, and the result says whether it was. |
| Controller.StatusPorCodigo | src/main/java/com/arojas/jce_consulta/controllers/JceConsultaController.java:281-287 | 400 exactly for CEDULA_INVALIDA, 503 exactly for JCE_TIMEOUT and JCE_NO_DISPONIBLE, 404 exactly for CIUDADANO_NO_ENCONTRADO, 429 exactly for RATE_LIMIT_EXCEEDED, 500 otherwise. |
| Controller.CrearRespuestaHttp | src/main/java/com/arojas/jce_consulta/controllers/JceConsultaController.java:271-297 | 200 with "public, max-age=300" for a success; the code's status with "no-cache" for an error; request ID and elapsed time plus "ms" as headers; an error without a code fails. |
| Controller.PublicCacheOnlyOnSuccess | src/main/java/com/arojas/jce_consulta/controllers/JceConsultaController.java:275-288 | The answer is 200 exactly for a success, and only a 200 is publicly cacheable. |
| Controller.ResponseTimeHeaderRoundTrip | src/main/java/com/arojas/jce_consulta/controllers/JceConsultaController.java:295 | The X-Response-Time header ends in "ms" and reads back as the elapsed time. |
| Controller.LookupResponsesAreAnswered | src/main/java/com/arojas/jce_consulta/controllers/JceConsultaController.java:281 | Every response the lookup produces carries a code, so it always gets an HTTP answer. |
| Controller.TimeoutStatusDependsOnPath | src/main/java/com/arojas/jce_consulta/controllers/JceConsultaController.java:283 | A timeout answered by the lookup reaches the client as 503, but a JCE_TIMEOUT domain exception reaches it as 504 through the handler. |
| Controller.RespuestaLimite | src/main/java/com/arojas/jce_consulta/controllers/JceConsultaController.java:129-135 | The refusal: 429, X-Rate-Limit-Retry-After "60", and an error body with RATE_LIMIT_EXCEEDED and time 0. |
| Controller.RateLimitAgreesWithTable | src/main/java/com/arojas/jce_consulta/controllers/JceConsultaController.java:285 | The refusal's status is the one the status table gives its code, and it carries no data. |
| Controller.RespuestaFinal | src/main/java/com/arojas/jce_consulta/controllers/JceConsultaController.java:138-139 | A thrown exception reaches the client as a 4xx or 5xx answer, not successful and without data. |
| Controller.Contestar | src/main/java/com/arojas/jce_consulta/controllers/JceConsultaController.java:138-139 | A response from the lookup is turned into HTTP; a failure is passed on. |
| Controller.PeticionPorCedula | src/main/java/com/arojas/jce_consulta/controllers/JceConsultaController.java:157-184 | The path request: the cédula as written, no photo unless asked, and the complete view by default. |
| Controller.InvalidCedulaAnswer | src/main/java/com/arojas/jce_consulta/controllers/JceConsultaController.java:138-139 | When bean validation is skipped, an uncached invalid cédula reaches the client as 400 CEDULA_INVALIDA with its cleaned digits, without a request to the portal and without touching the cache. Over HTTP the pattern check refuses such a cédula first (`PatronImplicaValida`). |
| Controller.NullCedulaAnswer | src/main/java/com/arojas/jce_consulta/controllers/JceConsultaController.java:138-139 | When bean validation is skipped, a request without a cédula reaches the client as the generic 500 answer. Over HTTP the pattern check refuses it first with 400. |
| Controller.JceConsultaController.Atender | src/main/java/com/arojas/jce_consulta/controllers/JceConsultaController.java:121-139 | No token taken when the address cannot be found; without a token the 429 refusal and nothing else changes; otherwise one token is taken and the answer, cache and requests are those of the cached lookup. |
| Controller.JceConsultaController.ConsultarCiudadano | src/main/java/com/arojas/jce_consulta/controllers/JceConsultaController.java:117-141 | The body endpoint, with the whole frame of `Atender`: an unreadable address gives that error with no request, bucket and cache unchanged; a refusal leaves the bucket empty and echoes the formatted cédula; otherwise one request per attempt made. |
| Controller.JceConsultaController.ConsultarCiudadanoPorCedula | src/main/java/com/arojas/jce_consulta/controllers/JceConsultaController.java:157-189 | The path endpoint, with the whole frame of `Atender` for the request built from the path: an unreadable address gives that error with no request, bucket and cache unchanged; a refusal leaves the bucket empty and echoes the cédula as written; otherwise one request per attempt made. |

## Left out

- Setters, `equals`/`hashCode`/`toString` of the DTOs and the record: plain data access, nothing to prove.
- XML deserialisation by Jackson: it is the parameter `parse`, and only its failure path is modelled.
- WebClient I/O, connection pools and timeouts: the portal is the parameter `upstream`.
- Retry backoff and jitter: only the number of attempts and which failures are retried are modelled.
- Logging, Micrometer timers and the service's counters: they do not affect any answer. The exception handler's three counters are modelled.
- Request ID generation and the clock: both are parameters.
- `Long.parseLong` on non-ASCII Unicode digits, and locale-sensitive case mapping: the model handles ASCII digits, and case mapping only on the characters whose case is a single ASCII letter (U+0130 excepted). The multi-letter expansions of `toUpperCase` ('ß' to "SS", the ligature U+FB01 to "FI") are left out; no code or view name the service compares against can be reached through one.
- Client.SplitCedula, Client.RefusedWithoutRequest, Client.ConsultaResult, Client.RequestsSent: lengths and substring positions count Unicode scalar values, while Java's `length()` and `substring` count UTF-16 code units. A cédula holding a character above U+FFFF is therefore split or refused differently from the source (Java may even cut a surrogate pair in two, which a Dafny `char` cannot hold). The service only passes the cleaned cédula, which is ASCII digits, so its lookups are unaffected; the gap shows only on a direct call of the client with such text.
- Bean validation's 400 answers (`@NotBlank`, `@Pattern`, `@Size` on the request and on the path variable) and the handler's validation, type-mismatch, missing-parameter, method and media-type handlers: these are Spring framework behaviour. The `@Pattern` expression itself is modelled as `CumplePatron`; the answers it produces are not.
- A record the portal does not return at all (an empty `Mono`): the model always has a record or a failure.
- The health, connectivity and metrics endpoints (`verificarConectividad`, `verificarSaludServicio`, the controller's `verificarSalud` and `obtenerMetricas`): they do not take part in a lookup, and they report the clock or fixed text.
- The cache expiry time and the cache size limit: the model has no clock-driven eviction.
- The bucket's refill: the model's single bucket is the controller's one global bucket, and its tokens are only consumed. The client address only goes to the log; the model computes it, including its failure, and it selects nothing.
- Concurrency between requests: each call is modelled as atomic.
- The exact text Spring gives a null cache key: the model uses a fixed message of the same exception type.
- The names of the `WebClientResponseException` subclasses: one constructor carries the status.
- `getDetalleCompleto` as used in the handler's log lines: the text is modelled (`DetalleCompleto`), its logging is not.
- `Client.ConsultarCiudadano` does not model the WebClient's request headers and media types.
