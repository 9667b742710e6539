# search-lambda: a verified model of the request proxy

search-lambda is an AWS Lambda function behind API Gateway. It turns a search
request (`/locations?q=…` or `/people?q=…`) into one GET against the Oregon State
University API (`https://api.oregonstate.edu/v1/<resource>?q=…`). It authenticates
with a bearer token kept in AWS Secrets Manager. It reduces each returned record to
a small public shape and answers with a fixed 200 envelope.

This project models the pure rules inside that plumbing, all from `index.js`:

- **Endpoint resolution** (`getEndpoint`): `Endpoint.GetEndpoint`.
- **Record shaping** (`requestedData`): `Shaping.ShapeItem` for one record and
  `Shaping.RequestedData` for the whole `data` array.
- **Upstream URL** (the template literal in `osuResults`): `Upstream.UpstreamUrl`.
  `Upstream.ParseUrl` is the left inverse of that template literal: it recovers the
  two spliced texts from the URL string. The round-trip lemmas use it.
- **Token retrieval** (`getToken`): `Credentials.SelectPayload`, `Credentials.PayloadText`,
  `Credentials.ReadToken` and `Credentials.GetToken`.
- **Error classification** (`logError`): `Credentials.Classify` and `Credentials.Diagnostic`.
  The diagnostic is returned as the console lines, not printed.
- **The handler** (`exports.handler`): `Handler.Handle` composes these steps.

JavaScript values are modelled by `Js.JsValue`: undefined, null, booleans, integers,
strings, arrays, and objects as maps of own properties. `Js` also models truthiness,
property reads and the ToString of template literals. The two awaited network
results are parameters of `Handler.Handle`: the Secrets Manager answer or
rejection, and the upstream body or rejection. So are `JSON.parse`, the
base64-to-ASCII decoding and `JSON.stringify`, as uninterpreted functions. Every
throw is a `Failure` of the `Errors.Fault` datatype.

Two behaviours of the code are worth stating plainly:

- `getEndpoint` returns `null` for an unknown path. That `null` is spliced into the
  URL as the segment `null`.
- The code never checks that exactly one secret payload is present. It takes
  `SecretString` whenever it is truthy. Otherwise it decodes `SecretBinary`, even
  when `SecretString` is the empty string.

## Model

| member | source | states |
|---|---|---|
| Endpoint.GetEndpoint | index.js:30-39 | `/locations` resolves to `"locations"` and `/people` to `"directory"`, each if and only if the path is exactly that string; every other path resolves to `null`. |
| Endpoint.ResolutionInjective | index.js:30-39 | Two paths that resolve to the same non-null resource are the same path. |
| Endpoint.VariantsResolveToNull | index.js:31-37 | No normalisation: case variants, trailing slashes, missing leading slash, `/directory` and the empty path all resolve to `null`. |
| Shaping.ShapeItem | index.js:42-63 | For `locations` the output has exactly the keys id, name, image and link, with link from `attributes.website` and image the first thumbnail or `null`. For `directory` it has exactly id, firstName, lastName and department, copied from the record. For any other dest the record is returned unchanged. |
| Shaping.RequestedData | index.js:41-65 | The output has as many elements as the input, and element i is the shaping of input element i: nothing dropped, duplicated or reordered. |
| Shaping.RequestedDataAppend | index.js:41-42 | Shaping distributes over concatenation of the `data` array: each record is shaped independently of its neighbours. |
| Shaping.UnknownDestIsIdentity | index.js:61-63 | For any dest other than `"locations"` and `"directory"`, including `null`, the whole result equals the input sequence. |
| Shaping.OutputsHaveExactKeys | index.js:48-60 | For `locations` and `directory`, every output of one call has the same key set, fixed by the dest alone. Pass-through outputs keep their own keys. |
| Shaping.LocationDependsOnlyOnPublicFields | index.js:43-53 | Two location records shape to the same output if and only if they agree on id, name, website and first-thumbnail-or-null. |
| Shaping.PersonDependsOnlyOnPublicFields | index.js:54-60 | Two person records shape to the same output if and only if they agree on id, firstName, lastName and department; all other attributes are dropped. |
| Shaping.NoThumbnailsGivesNullImage | index.js:44-47 | An empty `thumbnails` array gives image `null`. |
| Shaping.FirstThumbnailIsImage | index.js:45-46 | Thumbnails `["a.jpg", "b.jpg"]` give image `"a.jpg"`. |
| Shaping.LaterThumbnailsIgnored | index.js:45-46 | Appending thumbnails after the first never changes the shaped record. |
| Upstream.UpstreamUrl | index.js:70 | The URL is the API base followed verbatim by the text of dest, `?q=` and the text of `query.q`. It fails with a TypeError exactly when the query parameters are `null` or `undefined`. |
| Upstream.UrlRoundTrip | index.js:70 | For any `?`-free segment and any q text, both texts can be read back exactly from the built URL string: q is spliced in without escaping. |
| Upstream.ResolvedSegments | index.js:30-39 | A resolved endpoint always contributes one of the segments `locations`, `directory` or `null`, none containing `?`. |
| Upstream.UpstreamUrlRoundTrip | index.js:70 | For every path and non-null query, the resolved segment and the text of `q` can be read back from the built URL string. |
| Upstream.UnknownPathUrl | index.js:70 | An unknown path is sent to `https://api.oregonstate.edu/v1/null?q=…`. |
| Upstream.MissingQueryUrl | index.js:70 | A query without `q` is sent as `?q=undefined`. |
| Upstream.UnescapedQueryUrl | index.js:70 | `q = "a&b=c"` reaches the upstream URL unescaped, as `?q=a&b=c`. |
| Credentials.SelectPayload | index.js:101-105 | The string payload is chosen if and only if `SecretString` is truthy; otherwise the binary payload is chosen. Exactly one branch is taken. |
| Credentials.StringPayloadIgnoresBinary | index.js:101-103 | With a truthy `SecretString`, the choice does not depend on `SecretBinary`. |
| Credentials.FalsyStringFallsBack | index.js:101-105 | An absent, `null` or empty `SecretString` all fall back to `SecretBinary`. |
| Credentials.PayloadText | index.js:102-105 | The string payload is parsed as its own text. The binary payload yields exactly the decoded text when decoding succeeds; a failed decode is a TypeError. |
| Credentials.ReadToken | index.js:102-105 | The token is the `Token` property of the parsed value. A syntax error propagates as such. A value parsed to `null` is a TypeError on the property read. |
| Credentials.Classify | index.js:108-135 | A named diagnosis is chosen only when the code is the string of its own name. Any other code is unrecognized and is kept for the message. |
| Credentials.ClassifyCodeName | index.js:109-131 | Each of the five known codes selects its own diagnosis. |
| Credentials.Diagnostic | index.js:108-135 | A named diagnosis logs "Failed with " followed by its code, then its own explanation. An unrecognized one logs the single line "Unrecognized error: " followed by the code's text. Either way the first line ends with the error code. |
| Credentials.UnrecognizedCodeDiagnostic | index.js:133-135 | Every code other than the five known ones is logged as exactly `["Unrecognized error: " + code]`. |
| Credentials.DiagnosticsDistinguishKnownErrors | index.js:108-135 | Equal logs imply equal diagnoses whenever one of them is named. The five known failures are told apart from each other and from every unrecognized code. |
| Credentials.GetToken | index.js:94-105 | A Secrets Manager rejection is logged with its diagnosis and re-thrown unchanged. Such a failure is never suppressed or replaced. A resolved lookup logs nothing. It yields exactly `JSON.parse(text).Token` of the selected payload's text, with the faults of `ReadToken`, and a binary payload that cannot be decoded gives a TypeError. |
| Credentials.StringSecretToken | index.js:101-103 | A non-empty string payload parsing to `{"Token": t}` yields `t`, whatever the binary payload is. |
| Credentials.BinarySecretToken | index.js:104-105 | With a falsy string payload, a binary payload decoding to JSON `{"Token": t}` yields `t`. |
| Credentials.InvalidParameterIsLoggedAndRethrown | index.js:97-100 | `InvalidParameterException` logs its two lines and the same error is propagated. |
| Handler.Handle | index.js:15-28 | A token, non-null query parameters and a resolved upstream body always give a response. A response is always status 200 with the single CORS header and the stringified shaped data. Exactly one upstream request is sent once a token and query parameters exist, with the built URL and that token as bearer; none is sent otherwise. Any getToken fault propagates unchanged and sends nothing. A Secrets Manager failure is also logged with its diagnosis. Null query parameters give a TypeError before any request. An upstream rejection propagates unchanged. |
| Handler.UnknownPathPassesThrough | index.js:15-28 | For an unknown path the response body is the upstream data unchanged, fetched from the resource segment `null`. |

## Left out

- Network I/O is not modelled. The Secrets Manager client (region `us-west-2`, secret
  `osusearch/apigeeToken`) and the `request-promise` GET are replaced by their settled
  results, passed as inputs.
- `JSON.parse`, `JSON.stringify` and the `Buffer` base64/ASCII decoding are
  uninterpreted function parameters. The lemmas about tokens state their hypotheses
  about those functions explicitly.
- `console.error` is not modelled as a side effect. The lines it would write are
  returned in `Invocation.log` and `TokenOutcome.log`.
- The async sequencing is not modelled beyond its order. The model keeps the order
  "token, then upstream request, then shaping" and the fact that a failure stops later steps.
- Shaping.Shapeable: the shaping precondition is stronger than "JavaScript does not throw".
  JavaScript also shapes records whose `thumbnails` is a string or a number, and records
  whose `attributes` is some other non-null value. The model requires an `attributes`
  object, and a `thumbnails` array for locations.
- Handler.Handle: the upstream body is required to be an object with a `data` array of
  shapeable records. The crash on any other body is not modelled.
- Js.JsValue: numbers are unbounded integers, with no fractions, NaN or -0. JavaScript
  numbers are doubles: integers beyond 2^53 are not exact, and `Js.ToText` does not switch
  to exponent notation from 1e21 on. `q` and `err.code` arrive as strings, so the URL and
  the diagnostics are unaffected in practice. Objects are maps, so key order is not
  modelled. Key order affects only the text `JSON.stringify` produces.
- Upstream.ParseUrl reads the URL string back; it does not model how a server reads the URL.
  Because `q` is not escaped, a server would split it at `&` into further parameters.
  Everything from `#` on would be a fragment, never sent.
- Js.Prop: only own properties of objects are read. Inherited properties are not
  modelled; no key the handler reads is inherited.
