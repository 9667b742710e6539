/** The credential provider (`getToken`, `logError`): one Secrets Manager lookup whose
    rejection is classified, logged and re-thrown, and whose answer yields the bearer
    token from either the string or the binary payload. */
module Credentials {
  import opened Wrappers
  import opened Js
  import opened Errors

  /** The `GetSecretValue` answer; either payload field may be absent (`undefined`). */
  datatype SecretValue = SecretValue(secretString: JsValue, secretBinary: JsValue)

  // ---------------------------------------------------------------------------
  // Payload selection
  // ---------------------------------------------------------------------------

  /** Which payload the token is read from. */
  datatype Payload = StringPayload(text: JsValue) | BinaryPayload(blob: JsValue)

  /** `if (data.SecretString)`: the string payload whenever it is truthy, the binary
      payload otherwise — including when `SecretString` is the empty string. */
  function SelectPayload(data: SecretValue): (p: Payload)
    ensures p.StringPayload? <==> Truthy(data.secretString)
    ensures p.StringPayload? ==> p.text == data.secretString
    ensures p.BinaryPayload? ==> p.blob == data.secretBinary
  {
    if Truthy(data.secretString) then StringPayload(data.secretString)
    else BinaryPayload(data.secretBinary)
  }

  /** With a truthy string payload the binary payload is never looked at. */
  lemma StringPayloadIgnoresBinary(s: JsValue, b1: JsValue, b2: JsValue)
    requires Truthy(s)
    ensures SelectPayload(SecretValue(s, b1)) == SelectPayload(SecretValue(s, b2)) == StringPayload(s)
  {
  }

  /** An absent, `null` or empty string payload all fall back to the binary payload, and
      which of them it was makes no difference. */
  lemma FalsyStringFallsBack(b: JsValue)
    ensures SelectPayload(SecretValue(Undefined, b)) == BinaryPayload(b)
    ensures SelectPayload(SecretValue(Null, b)) == BinaryPayload(b)
    ensures SelectPayload(SecretValue(Str(""), b)) == BinaryPayload(b)
  {
  }

  /** The text handed to `JSON.parse`. The string payload is converted by `JSON.parse`'s
      own ToString; the binary payload goes through `new Buffer(_, 'base64')` and
      `toString('ascii')`, modelled by `decode` (`None` when the Buffer constructor throws). */
  function PayloadText(p: Payload, decode: JsValue -> Option<string>): (r: Result<string, Fault>)
    ensures p.StringPayload? ==> r == Success(ToText(p.text))
    ensures p.BinaryPayload? ==> (r.Success? <==> decode(p.blob).Some?)
    ensures p.BinaryPayload? && decode(p.blob).Some? ==> r == Success(decode(p.blob).value)
    ensures r.Failure? ==> r.error == TypeFault
  {
    match p
    case StringPayload(text) => Success(ToText(text))
    case BinaryPayload(blob) =>
      match decode(blob)
      case None => Failure(TypeFault)
      case Some(text) => Success(text)
  }

  /** `JSON.parse(text).Token`, with `JSON.parse` modelled by `parse` (`None` for a
      SyntaxError). Parsing to `null` makes the `.Token` read throw. */
  function ReadToken(text: string, parse: string -> Option<JsValue>): (r: Result<JsValue, Fault>)
    ensures r.Success? <==> parse(text).Some? && !parse(text).value.IsNullish()
    ensures r.Success? ==> r.value == Prop(parse(text).value, "Token")
    ensures parse(text).None? ==> r == Failure(SyntaxFault)
    ensures parse(text).Some? && parse(text).value.IsNullish() ==> r == Failure(TypeFault)
  {
    match parse(text)
    case None => Failure(SyntaxFault)
    case Some(v) => if v.IsNullish() then Failure(TypeFault) else Success(Prop(v, "Token"))
  }

  // ---------------------------------------------------------------------------
  // Error classification
  // ---------------------------------------------------------------------------

  /** The six outcomes of `logError`. */
  datatype Diagnosis =
    | DecryptionFailure
    | InternalServiceError
    | InvalidParameter
    | InvalidRequest
    | ResourceNotFound
    | Unrecognized(code: JsValue)

  /** The Secrets Manager error code each named diagnosis answers to. */
  function CodeName(d: Diagnosis): string
    requires !d.Unrecognized?
  {
    match d
    case DecryptionFailure => "DecryptionFailureException"
    case InternalServiceError => "InternalServiceErrorException"
    case InvalidParameter => "InvalidParameterException"
    case InvalidRequest => "InvalidRequestException"
    case ResourceNotFound => "ResourceNotFoundException"
  }

  /** The `err.code === ...` chain of `logError`. A named diagnosis is chosen only for its
      own code, compared strictly (a string equal to the code name); anything else —
      another string, a missing code — is unrecognized and keeps the code for the message. */
  function Classify(code: JsValue): (d: Diagnosis)
    ensures !d.Unrecognized? ==> code == Str(CodeName(d))
    ensures d.Unrecognized? ==> d.code == code
  {
    if code == Str("DecryptionFailureException") then DecryptionFailure
    else if code == Str("InternalServiceErrorException") then InternalServiceError
    else if code == Str("InvalidParameterException") then InvalidParameter
    else if code == Str("InvalidRequestException") then InvalidRequest
    else if code == Str("ResourceNotFoundException") then ResourceNotFound
    else Unrecognized(code)
  }

  /** Each of the five known codes selects its own diagnosis; together with `Classify`'s
      contract, a diagnosis is unrecognized exactly when the code is none of the five. */
  lemma ClassifyCodeName(d: Diagnosis)
    requires !d.Unrecognized?
    ensures Classify(Str(CodeName(d))) == d
  {
  }

  /** The second line `logError` writes for a named diagnosis. */
  function Explanation(d: Diagnosis): string
    requires !d.Unrecognized?
  {
    match d
    case DecryptionFailure =>
      "Secrets Manager can't decrypt the protected secret text using the provided KMS key."
    case InternalServiceError => "An error occurred on the server side."
    case InvalidParameter => "You provided an invalid value for a parameter."
    case InvalidRequest =>
      "You provided a parameter value that is not valid for the current state of the resource."
    case ResourceNotFound => "We can't find the resource that you asked for."
  }

  /** The console lines `logError` writes for a diagnosis: "Failed with <code>" and an
      explanation for a named one, "Unrecognized error: <code>" otherwise. Either way the
      first line ends with the error code. */
  function Diagnostic(d: Diagnosis): (lines: seq<string>)
    ensures |lines| == if d.Unrecognized? then 1 else 2
    ensures var code := if d.Unrecognized? then ToText(d.code) else CodeName(d);
      |code| <= |lines[0]| && lines[0][|lines[0]| - |code|..] == code
    ensures !d.Unrecognized? ==> lines[0] == "Failed with " + CodeName(d) && lines[1] == Explanation(d)
    ensures d.Unrecognized? ==> lines[0] == "Unrecognized error: " + ToText(d.code)
  {
    if d.Unrecognized? then
      ["Unrecognized error: " + ToText(d.code)]
    else
      ["Failed with " + CodeName(d), Explanation(d)]
  }

  /** Every code other than the five known ones — another string, a number, a missing
      code — is logged as the single line "Unrecognized error: " followed by its text. */
  lemma UnrecognizedCodeDiagnostic(code: JsValue)
    requires Classify(code).Unrecognized?
    ensures Diagnostic(Classify(code)) == ["Unrecognized error: " + ToText(code)]
  {
  }

  /** The log tells the five known failures apart from each other and from every
      unrecognized one. */
  lemma DiagnosticsDistinguishKnownErrors(d1: Diagnosis, d2: Diagnosis)
    requires !d1.Unrecognized?
    requires Diagnostic(d1) == Diagnostic(d2)
    ensures d1 == d2
  {
    assert !d2.Unrecognized?;
    var prefix := "Failed with ";
    assert Diagnostic(d1)[0] == prefix + CodeName(d1);
    assert Diagnostic(d2)[0] == prefix + CodeName(d2);
    assert CodeName(d1) == (prefix + CodeName(d1))[|prefix|..];
    assert CodeName(d2) == (prefix + CodeName(d2))[|prefix|..];
    ClassifyCodeName(d1);
    ClassifyCodeName(d2);
  }

  // ---------------------------------------------------------------------------
  // getToken
  // ---------------------------------------------------------------------------

  /** What `getToken` settles to, together with the console lines it wrote. */
  datatype TokenOutcome = TokenOutcome(token: Result<JsValue, Fault>, log: seq<string>)

  /** `getToken` given the settled Secrets Manager promise. A rejection is logged with its
      diagnosis and re-thrown unchanged; it is never turned into a token. A resolved lookup
      logs nothing and reads the token from the selected payload. */
  function GetToken(secret: Result<SecretValue, AwsError>, parse: string -> Option<JsValue>,
                    decode: JsValue -> Option<string>): (out: TokenOutcome)
    ensures secret.Failure? ==>
      out.token == Failure(SecretsFault(secret.error)) && out.log == Diagnostic(Classify(secret.error.code))
    ensures secret.Success? ==> out.log == [] && (out.token.Failure? ==> !out.token.error.SecretsFault?)
    ensures out.token.Success? ==>
      && secret.Success?
      && PayloadText(SelectPayload(secret.value), decode).Success?
      && out.token == ReadToken(PayloadText(SelectPayload(secret.value), decode).value, parse)
    // a resolved lookup yields `JSON.parse(text).Token` of the selected payload's text ...
    ensures secret.Success? && PayloadText(SelectPayload(secret.value), decode).Success? ==>
      out.token == ReadToken(PayloadText(SelectPayload(secret.value), decode).value, parse)
    // ... and a payload that cannot be decoded is a TypeError
    ensures secret.Success? && PayloadText(SelectPayload(secret.value), decode).Failure? ==>
      out.token == Failure(TypeFault)
  {
    match secret
    case Failure(err) => TokenOutcome(Failure(SecretsFault(err)), Diagnostic(Classify(err.code)))
    case Success(data) =>
      match PayloadText(SelectPayload(data), decode)
      case Failure(f) => TokenOutcome(Failure(f), [])
      case Success(text) => TokenOutcome(ReadToken(text, parse), [])
  }

  /** A non-empty string payload parsing to `{"Token": t}` yields `t`, whatever the
      binary payload holds. */
  lemma StringSecretToken(text: string, binary: JsValue, t: JsValue,
                          parse: string -> Option<JsValue>, decode: JsValue -> Option<string>)
    requires text != ""
    requires parse(text) == Some(Obj(map["Token" := t]))
    ensures GetToken(Success(SecretValue(Str(text), binary)), parse, decode) == TokenOutcome(Success(t), [])
  {
  }

  /** With no usable string payload, a binary payload decoding to text that parses to
      `{"Token": t}` yields `t`. */
  lemma BinarySecretToken(str: JsValue, binary: JsValue, text: string, t: JsValue,
                          parse: string -> Option<JsValue>, decode: JsValue -> Option<string>)
    requires !Truthy(str)
    requires decode(binary) == Some(text)
    requires parse(text) == Some(Obj(map["Token" := t]))
    ensures GetToken(Success(SecretValue(str, binary)), parse, decode) == TokenOutcome(Success(t), [])
  {
  }

  /** An `InvalidParameterException` is logged with its own two lines and propagated. */
  lemma InvalidParameterIsLoggedAndRethrown(parse: string -> Option<JsValue>, decode: JsValue -> Option<string>)
    ensures var err := AwsError(Str("InvalidParameterException"));
      GetToken(Failure(err), parse, decode) == TokenOutcome(
        Failure(SecretsFault(err)),
        ["Failed with InvalidParameterException", "You provided an invalid value for a parameter."])
  {
    assert "Failed with " + CodeName(InvalidParameter) == "Failed with InvalidParameterException";
  }
}
