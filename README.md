# atomiadns REST client adapter, modelled in Dafny

This project models `webapp/rest.js`, the web application's client for the atomiadns JSON API. It covers the four parts of the file that make decisions:

- **Request construction** (`getOperationRequest`). The base URI comes from `ATOMIADNS_SOAP_URI`, or from the default `http://127.0.0.1/atomiadns.json/`. A `/` is appended when the base is not empty and does not already end in one. The operation name follows the base. The headers always carry `X-Auth-Username`. They then carry `X-Auth-Token` if a token is given, otherwise `X-Auth-Password` if a password is given.
- **The authentication handshake** (`authenticate`). It sends a `Noop` request with the password and classifies the response into one of three results:
  - an error: the transport's error, or a message that names the status;
  - a token: the `x-auth-token` header on status 200;
  - `null`: the credentials were rejected, on statuses 401 to 403.
- **Operation execution** (`executeOperation`). It first checks its input. It then builds the request from the user's email and token, serialises the arguments into the body, and classifies the response. On 401 to 403 it logs the caller out and redirects them to their own URL, and it never invokes the callback on that path.
- **Error humanisation** (`humanizeError`). When `ATOMIADNS_RAW_ERRORS` is set to a non-empty string, the raw text is returned unchanged. Otherwise a parsed fault's `error_type` is looked up in `errorMessageMap`, and anything else gives "Unknown error".

Modules:

- `Wrappers`: `Option`. `None` stands for an absent value: `null` or `undefined` wherever the source tests `x != null`, which treats the two alike. For a response body, `None` means `undefined`.
- `JsText`: the JavaScript built-ins the file relies on. These are `lastIndexOf` for one character, and the decimal text of a non-negative integer (the `"..." + statusCode` concatenation). The decimal text comes with its read-back function and a round-trip lemma.
- `Json`: an opaque JSON value, plus a `JsonCodec` that holds `JSON.parse` and `JSON.stringify` as function values. Parsing is not implemented. A property that needs parsing to undo serialising asks for it with `RoundTrips`.
- `Rest`: everything in `webapp/rest.js`. The environment is a `Config` value, and the HTTP client is a parameter `post: Request -> Response`. `authenticate`'s callback becomes an `AuthOutcome` value. `executeOperation` returns two things: the request it sent, if any, and the ordered trace of what it did (`Callback`, `Logout`, `Redirect`).

`getOperationRequest` reassigns its base and inserts header keys one by one, so it is a method. It is proved against `BaseUri`, which states the normalisation by the last character. The method itself performs the `lastIndexOf` test from the source, and `LastIndexOf`'s contract connects the two. `executeOperation` sets the body on the request it has built and then records the logout and the redirect in that order, so it is a method too. The two response classifications and `humanizeError` are functions.

## Model

| member | source | states |
|---|---|---|
| `JsText.LastIndexOf` | webapp/rest.js:10 | the result is -1 or an index holding the character, and no later index holds it |
| `JsText.NumberToString` | webapp/rest.js:39 | the status's text is non-empty, made only of digits, with no leading zero unless the number is 0 |
| `JsText.NumberToStringRoundTrip` | webapp/rest.js:39 | reading the decimal text back gives the number |
| `JsText.NumberToStringInjective` | webapp/rest.js:39 | two numbers with the same decimal text are equal |
| `Rest.BaseUriNormalises` | webapp/rest.js:9-12 | an unset variable gives the default; the base is kept or gets exactly one `/`; it is empty only when configured as empty; otherwise it ends in `/` |
| `Rest.BaseUriIdempotent` | webapp/rest.js:9-12 | normalising a normalised base changes nothing |
| `Rest.BaseUriTrailingSlash` | webapp/rest.js:9-12 | a non-empty base with or without one trailing `/` gives the same URI; a further `/` is kept, since repeated slashes are not collapsed |
| `Rest.GetOperationRequest` | webapp/rest.js:8-28 | the URI is the normalised base followed by the operation; the username header is always there; the token header is there exactly when a token is given; the password header is there exactly when there is no token and a password is given; no other header is present and no body is set |
| `Rest.AuthFailureMessageDecodes` | webapp/rest.js:39 | the failure message is the fixed prefix followed by digits whose value is the status |
| `Rest.AuthResult` | webapp/rest.js:32-40 | a transport error is passed on as the error; 200 gives the `x-auth-token` header (possibly absent) as the token; 401 to 403 give the rejected result; every other status gives the failure message naming that status; each iff in both directions |
| `Rest.AuthFailureDistinguishesStatus` | webapp/rest.js:39 | failures on different statuses report different messages |
| `Rest.Authenticate` | webapp/rest.js:30-42 | sends a `Noop` request that has the username header, the password header exactly when a password is given, no token header and no body, and returns the classification of the response to that request |
| `Rest.MappedFaultType` | webapp/rest.js:78-82 | the reported type is the parsed fault's string `error_type` and a key of `errorMessageMap`; whenever the input parses to a fault whose `error_type` is such a key, it is reported |
| `Rest.HumanizeError` | webapp/rest.js:73-88 | with raw errors on, the input is returned unchanged; otherwise the result is always one of the map's messages: the mapped type's message, or "Unknown error" in every other case |
| `Rest.HumanizeUnknownExactly` | webapp/rest.js:80-87 | outside raw mode, "Unknown error" comes out exactly when no mapped type is found or the type is `InternalError.UnknownException` |
| `Rest.HumanizeKnownFault` | webapp/rest.js:78-82 | a serialised fault object whose `error_type` is a mapped k, whatever its other fields, humanises to k's message, given a codec under which the fault survives serialisation |
| `Rest.EmptyRawErrorsIsOff` | webapp/rest.js:74 | an empty `ATOMIADNS_RAW_ERRORS` behaves as if it were unset |
| `Rest.OperationReply` | webapp/rest.js:52-70 | a transport error is passed on; on 200, a body that parses gives its value and anything else gives "invalid JSON returned for" the operation; 401 to 403, and only those, give session expiry; otherwise an absent or empty body gives "invalid status for" the operation and a non-empty one its humanised text; outside raw mode, no message error can carry server text |
| `Rest.ExecuteOperation` | webapp/rest.js:44-71 | a request is sent exactly when the operation, the user, its email and its token are all present; otherwise the only event is the invalid-input callback; the request carries the email and token headers, no password, and the serialised arguments as body; a reply becomes exactly one callback, or, on 401 to 403, a logout then a redirect to the caller's URL and no callback; no callback carries both an error and a result |

## Left out

- The HTTP transport (`request.post`). It is the parameter `post`, a function from the request sent to the response received. Sockets, TLS, timeouts, the POST method itself, and a transport that never answers are not modelled.
- `JSON.parse` and `JSON.stringify`. They are the function values of a `JsonCodec`, and no JSON grammar is modelled. On status 200, an absent body (`undefined`) counts as a parse failure, which is what `JSON.parse(undefined)` does. A `null` body is not modelled: `JSON.parse(null)` returns `null`, so the source would call `callback(null, null)`, but the HTTP client gives a string or `undefined`.
- The web framework's `req.logout()` and `sres.redirect(req.url)`. They are the `Logout` and `Redirect(url)` events, and `req.url` is the parameter `reqUrl`. No session object is modelled.
- Callback asynchrony. Each callback invocation is a returned value or event.
- A callback that throws. In `executeOperation` the success callback is invoked inside the `try` (webapp/rest.js:55-60), so a callback that throws would be invoked a second time with the invalid-JSON error. Callbacks are modelled as returning normally, so the model shows one invocation.
- Rest.HumanizeError: looks up `error_type` only as a key of the two-entry map, and only when it is a JSON string. JavaScript also finds inherited properties of the map object (for example `toString` or `__proto__`, which return a non-null non-message). JavaScript also turns a non-string `error_type` into a key: a one-element array such as `["LogicalError.DifferentTTLForSameLabelClassAndType"]` would find that message, where the model gives "Unknown error".
- Dynamic typing of the arguments. The username, token, password and email are strings or absent. In the source they could be values of any type, and would be written into the headers as they are. `authenticate`'s username is taken to be present.
- JavaScript strings are UTF-16 code units. Here they are sequences of `char`, and `lastIndexOf` searches for one character.
- The HTTP status is a natural number, and its text is plain decimal. That is what JavaScript prints for integers below 10^21, which covers the three-digit statuses the HTTP client delivers. From 10^21 up, JavaScript uses exponent form (`1e+21`). Fractional or negative status codes are not modelled.
- `JSON.stringify(args)` for arguments that cannot be serialised: a cycle throws, and `undefined` yields no body. The codec's `stringify` may return `None` for the second case. A throwing serialiser is not modelled.
