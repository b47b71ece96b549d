# Lateral client: a Dafny model

This project models the core of the Lateral Node.js client. The client runs
remotely hosted cloud functions by event name, either synchronously or
asynchronously, and builds pre-authenticated editor URLs. The model covers:

- how per-call options are resolved against the configuration;
- how the token claims and the endpoint URLs are built;
- how an HTTP response is turned into exactly one outcome;
- the layered configuration store;
- the messages of the two error classes.

Modules, one per source component:

- `Js` (`js.dfy`) models the JavaScript values the client handles: `undefined`,
  `null`, booleans, integer numbers, strings, arrays and plain objects. It also
  models truthiness, reading a property (where `undefined` and `null` throw a
  TypeError), reading index 0, and the ToString conversion that template
  literals apply.
- `Errors` (`errors.dfy`) models `ServiceError` and `RuntimeError`. Each
  constructor is a function that returns `None` where JavaScript would throw a
  TypeError.
- `Configuration` (`config.dfy`) models `Config` as a class whose `config` map
  the methods replace. The class-level `_defaults` becomes a separate
  `ConfigDefaults` object that every configuration shares.
- `Client` (`client.dfy`) models the `Lateral` class. `parseResponse`
  and `throwServiceError` are pure functions into an `Outcome` datatype, and
  option resolution is a pure function into the options map. `buildOptions`, `run`, `runAsync` and `runSync` are
  methods, each proved against a function of its inputs.

`signJWT` is `Lateral.SignJWT`. It hands the signer the claims
`{iss: appID, sub: account}` (also stated by `Lateral.Claims`), the configured
`appSecret` and `{expiresIn}`. A signer that throws is modelled as
returning `Threw(error)`, and that error reaches the caller unchanged.

The token signer (`jwt.sign`) and the HTTP transport (`fetch`) are
function-typed parameters. `fetch` maps the request the client builds (its URL
and its Authorization header) to a response: `ok`, `status`, and a body that
either parses to a value or does not. An object argument is a
`map<string, Value>`. Spreading `undefined` or `null` adds no keys, so those
arguments are written as the empty map.

Points where the code behaves differently from what a reader might expect,
as the model states them:

- `async` travels in the query string of the run URL (src/index.js:32;
  `RunAsyncURL`, `RunSyncURL`). The request body, which the model leaves
  out, carries only `data && JSON.stringify(data)` (src/index.js:99).
- The client has no account-deletion operation.
- An empty `errors` array does not give the synthesised "Unhandled Error".
  `json.errors[0]` is `undefined`, and `new ServiceError(undefined)` then
  throws a TypeError outside the `try`. The outcome for this is
  `TypeFailure(ServiceErrorOfNothing)`.
- A falsy `operation.result` is returned as that same value
  (`FalsyResult`).

## Model

| member | source | states |
|---|---|---|
| `Errors.NewServiceError` | src/errors/service.js:3-9 | Fails (None) exactly when the argument is undefined or null. `status` and `title` are copied from the argument unchanged. If `message` is falsy (missing or empty), the message is `title` itself, otherwise "title: message". |
| `Errors.ServiceErrorOfStrings` | src/errors/service.js:4-5 | With a string title and message, the message is exactly the title when the message is empty, and `title + ": " + message` otherwise. |
| `Errors.MissingMessageIsEmptyMessage` | src/errors/service.js:4 | Leaving `message` out builds the same error as passing `''`. |
| `Errors.NewRuntimeError` | src/errors/runtime.js:3-8 | Fails exactly for an undefined or null source. Otherwise the source is kept unchanged in `source`. |
| `Errors.RuntimeMessageParts` | src/errors/runtime.js:5 | The message is the source's name, then ": ", then its message, so it begins with the name and both parts can be read back. |
| `Errors.EmptyMessageSeparator` | src/errors/runtime.js:5 | With an empty message, a RuntimeError still renders "name: ", while a ServiceError renders its title alone (src/errors/service.js:5). |
| `Configuration.BuiltInDefaultsValues` | src/config.js:6-13 | DEFAULTS has exactly the keys `appID`, `appSecret`, `tokenExpiresIn` and `url`, with the values null, null, "30s" and "https://app.lateral.run". |
| `Configuration.Layered` | src/config.js:26-32 | The merged map has every key of the three layers. Each value comes from the highest layer holding the key: supplied over stored over defaults. |
| `Configuration.ConfigDefaults.constructor` | src/config.js:43 | The initial class defaults equal DEFAULTS: `appID` null, `appSecret` null, `tokenExpiresIn` "30s", `url` "https://app.lateral.run" (lines 6-13). |
| `Configuration.ConfigDefaults.SetDefaults` | src/config.js:15-20 | The setter merges new entries into the existing defaults. Old keys that are not re-supplied keep their values, and the built-in keys stay defined. |
| `Configuration.Config.constructor` | src/config.js:2-4 | The stored config is the current defaults overlaid by the supplied config. Every DEFAULTS key is present, with the supplied value when there is one and the default otherwise. |
| `Configuration.Config.Set` | src/config.js:26-32 | The new config is defaults ⊕ old config ⊕ c. Keys that c does not supply keep their stored values, and the DEFAULTS keys stay present. |
| `Configuration.Config.Get` | src/config.js:34-40 | A falsy key returns the whole map. A non-empty string key returns its stored value, or undefined when the key is missing (never an error). |
| `Configuration.SetIdempotent` | src/config.js:26-32 | `set(c); set(c)` stores what a single `set(c)` stores. |
| `Configuration.SetNothingKeepsConfig` | src/config.js:26-32 | `set({})` or `set(undefined)` leaves the stored config unchanged, provided every current default key is already stored. |
| `Configuration.SuccessiveSets` | src/config.js:26-32 | A series of `set` calls stores what a single `set` of their key-by-key merge (later wins) stores. |
| `Configuration.ConfigPrecedenceExample` | src/config.js:26-32 | `new Config({url: "A"})` followed by `set({tokenExpiresIn: "1h"})` gives url "A", tokenExpiresIn "1h", and appID and appSecret null. |
| `Client.ResolvedOptions` | src/index.js:14-26 | The defaults are `async` true and `tokenExpiresIn` from the config, and every caller key overrides them. `returnOperation` is the caller's when it is not undefined (an explicit false included), and the resolved `async` otherwise. |
| `Client.ResolvedOptionsExamples` | src/index.js:14-23 | `{}` resolves to async true and returnOperation true. `{async: false}` gives returnOperation false. With `{async: false, returnOperation: true}`, returnOperation stays true. |
| `Client.ErrorEntry` | src/index.js:50-58 | A body that does not parse, parses to undefined or null, or has no `errors` gives the synthesised `{status, title: "Unhandled Error"}`. Otherwise the entry is `errors[0]`. The entry can be undefined or null only in that last case. |
| `Client.ThrowServiceError` | src/index.js:46-61 | Always throws. The result is a ServiceError built from the error entry exactly when that entry is neither undefined nor null. Otherwise it is the uncaught TypeError of destructuring it. |
| `Client.UnreadableErrorBody` | src/index.js:50-58 | If the body does not parse, parses to null, or has no `errors`, the result is the synthesised error: the received status, and title and message "Unhandled Error". |
| `Client.FirstErrorEntry` | src/index.js:50-52 | If `errors[0]` is neither undefined nor null, the ServiceError is the one built from that entry. |
| `Client.NullErrorEntry` | src/index.js:52-60 | A null `errors[0]` ends in a TypeError, not in a ServiceError. |
| `Client.EmptyErrorsArray` | src/index.js:52-60 | An empty `errors` array ends in a TypeError, not in a ServiceError. |
| `Client.ParseResponse` | src/index.js:63-87 | 404 and 409 give undefined whatever the body. Every other non-ok status throws what `throwServiceError` throws. The operation is passed through exactly under these conditions: the response is ok, `returnOperation` is truthy, and the body parses to a value that is neither null nor undefined. A RuntimeError needs an ok response and a falsy `returnOperation`. An unparsable ok body fails exactly then. The TypeError of reading `operation` from a null body happens exactly for an ok response whose body parses to undefined or null. The TypeError of reading `result` happens exactly when, in addition to an ok non-null body, `returnOperation` is falsy and `operation` is undefined or null. |
| `Client.OperationResultChain` | src/index.js:78-86 | With returnOperation falsy: a falsy result is returned as that same value. Otherwise a truthy `result.error` throws the RuntimeError built from that error: message "name: message", and the error kept as its source. Otherwise `result.response` is returned. |
| `Client.NotFoundResolvesUndefined` | src/index.js:64-67 | 404 and 409 never throw and resolve to undefined, for any body and any options. |
| `Client.NotFoundExample` | src/index.js:64-67 | A 404 with returnOperation false resolves to undefined. |
| `Client.ServiceErrorExample` | src/index.js:46-61 | A 500 whose body has the error entry `{status: 500, title: "Boom", message: "bad"}` throws a ServiceError with message "Boom: bad". |
| `Client.RuntimeErrorExample` | src/index.js:82-84 | A 200 whose result has the error `{name: "TypeError", message: "x is undefined"}` throws a RuntimeError with message "TypeError: x is undefined". |
| `Client.FunctionResponseExample` | src/index.js:86 | A 200 whose result has the response `{ok: 1}` resolves to that response. |
| `Client.Lateral.constructor` | src/index.js:10-12 | The client holds a fresh configuration: the shared defaults overlaid by the supplied config. |
| `Client.Lateral.BuildOptions` | src/index.js:14-26 | The options built are the resolved options for the configured `tokenExpiresIn`. |
| `Client.Lateral.Claims` | src/index.js:36-40 | The claims object has exactly the keys `iss` and `sub`: `iss` is the configured appID and `sub` is the account. |
| `Client.BuildURLParts` | src/index.js:28-33 | A run URL splits into the configured base URL, "/api/cloud_functions/by_event/", the event as ToString renders it, and "/run?async=" followed by the `async` option. Each part can be read back by its length. |
| `Client.Lateral.SignJWT` | src/index.js:35-44 | The token is the signer's answer, or what it threw, for the claims `{iss: appID, sub: account}`, the configured `appSecret` and `{expiresIn}`. |
| `Client.Lateral.RunOptions` | src/index.js:89-90 | The options of `run` have the caller's keys other than `account`, `event` and `data`, plus `async`, `tokenExpiresIn` and `returnOperation`. `async` defaults to true and `tokenExpiresIn` to the configured one. `returnOperation` is the caller's unless it is undefined, and then `async`. |
| `Client.RunDefaultExpiry` | src/index.js:14-17 | When the caller gives no `tokenExpiresIn`, `run` signs for the stored configuration's `tokenExpiresIn`. A configuration that keeps every DEFAULTS key (`Config.Valid`) always holds that entry. |
| `Client.Lateral.RunRequest` | src/index.js:89-100 | The request fails exactly when signing the account with the resolved `tokenExpiresIn` throws, and then carries what was thrown. Otherwise the URL is the one `buildURL` makes from the event and the resolved options, and the Authorization header is "Bearer " followed by that signed token. |
| `Client.Lateral.RunOutcome` | src/index.js:89-103 | A signing failure is the outcome exactly when the signer throws, and what was thrown is carried unchanged. Otherwise the outcome is `parseResponse` of what the transport answers for the request, with the resolved options. |
| `Client.Lateral.Run` | src/index.js:89-103 | The outcome is the run specification for these arguments, signer and transport. |
| `Client.Lateral.RunAsync` | src/index.js:105-107 | The outcome is that of `run` on the arguments with `async` set to true. |
| `Client.Lateral.RunSync` | src/index.js:109-111 | The outcome is that of `run` on the arguments with `async` set to false. |
| `Client.Lateral.GenerateEditorURL` | src/index.js:113-118 | Fails exactly when signing with the account and the editor expiry throws, and then carries the thrown value unchanged. |
| `Client.RunAsyncForcesAsync` | src/index.js:105-107 | `runAsync` resolves async to true whatever async the caller passed. Without an explicit returnOperation, that makes returnOperation true; an explicit one is kept. |
| `Client.RunSyncForcesSync` | src/index.js:109-111 | `runSync` resolves async to false whatever async the caller passed. Without an explicit returnOperation, that makes returnOperation false; an explicit one is kept. |
| `Client.RunAsyncURL` | src/index.js:28-33 | The runAsync URL is exactly base + "/api/cloud_functions/by_event/" + event + "/run?async=true", with the event inserted verbatim (no encoding). |
| `Client.RunSyncURL` | src/index.js:28-33 | The runSync URL is exactly base + "/api/cloud_functions/by_event/" + event + "/run?async=false", with the event inserted verbatim (no encoding). |
| `Client.BuildURLDeterminesEvent` | src/index.js:28-33 | Two event names give the same URL, with the same options, only if they are equal. |
| `Client.RunSignsClaims` | src/index.js:89-91 | The signer `run` uses is asked only about `{iss: appID, sub: account}`, the configured secret and `{expiresIn}`. Two signers that agree on that give the same request. |
| `Client.RunSyncReturnsResponse` | src/index.js:109-111 | `runSync` without a `returnOperation`, on an ok body `{operation: {result: {response: x}}}`, resolves to x. |
| `Client.RunAsyncReturnsOperation` | src/index.js:105-107 | `runAsync` without a `returnOperation`, on an ok body `{operation: op}`, resolves to op without reading its result. |
| `Client.EditorExpiry` | src/index.js:113 | The editor token's expiry is never undefined. It is "24h" when the argument's `tokenExpiresIn` is missing or undefined, and the argument's value otherwise. |
| `Client.EditorURLCarriesToken` | src/index.js:113-118 | The editor URL is the base URL, then "/editor?token=", then the signed token, and each part can be read back. |
| `Client.EditorURLDefaultExpiry` | src/index.js:113 | Without `tokenExpiresIn`, the token is signed for "24h". An explicit null is passed on as null. |
| `Client.EditorURLSignsClaims` | src/index.js:35-44 | The signer is asked only about the claims `{iss: appID, sub: account}`, the configured secret and `{expiresIn}`. Two signers that agree on that give the same URL. |

## Left out

- The HTTP exchange of `run` (src/index.js:93-100) is a parameter. Its method, its Content-Type header and the serialisation of `data` (`data && JSON.stringify(data)`) are network I/O and are not modelled.
- The cryptography of `jwt.sign` is an uninterpreted signer parameter. Only what the client passes to it is stated.
- Promises and the async/await sequencing are not modelled. Each call is a sequential function, and a rejected promise is a throwing outcome.
- `response.json()` is not modelled. A body either parses to a value or fails, and the parse error itself is not modelled (`BodyReadFailure`).
- Js.ToStr: every object renders as "[object Object]". JavaScript throws a TypeError when it converts an object that has an own `toString` key, because no parsed JSON value is callable. That can happen for a ServiceError title or message, a RuntimeError name or message, an array element, or a `get` key. The model gives the "[object Object]" string in those cases instead of the TypeError.
- Numbers are integers. Fractions, NaN and -0 are not modelled.
- A property read sees only an object's own keys. Built-in and inherited properties (`length`, prototype members) are not modelled, and reading a named property of a non-object yields undefined.
- Arguments are maps. Spreading a string or an array (which would add index keys) into options or configuration is not modelled.
- `get()` returns the stored map as a value. That JavaScript returns the live object, which the caller could then mutate, is not modelled.
- The static `defaults` getter is the field `ConfigDefaults.defaults`, read directly.
- src/errors/index.js only re-exports the classes. src/errors/base.js is not part of this model.
- Concurrency is not modelled. No call interleaves with another.
- `Lateral.Run` and `Lateral.GenerateEditorURL` take their argument as a map. These methods destructure their argument (src/index.js:89, src/index.js:113), so calling them with no argument, undefined or null throws a TypeError. That case is not modelled. `runAsync` and `runSync` spread their argument instead (src/index.js:106, src/index.js:110), so for them a missing argument is the empty map.
- The transport is a total function. A `fetch` that rejects, for example on a network failure, is not modelled.
- `IntToString` writes every digit. JavaScript switches to exponent notation from 1e21 on and is inexact beyond 2^53; neither is modelled.
- `First` on a string takes its first character. JavaScript takes the first UTF-16 code unit; surrogate pairs are not modelled.
