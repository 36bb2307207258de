# API client request pipeline — Dafny model

This project models the request pipeline of a small browser client for a remote
HTTP service. Every API call of the client goes through `request`, which:

- joins the configured server and the request path into a URI;
- builds the jQuery ajax options (method, payload, content type, 5000 ms timeout);
- lets `authorizeRequest` attach an `Authorization: user <base64(key:secret)>` header,
  except on the authentication path `auth/`;
- classifies the completed request into an `(err, data)` pair with exactly one
  side null.

The repository holds two variants of the client, and the model covers both:

- `src/js/api.js` keeps the credentials in an in-memory cell. It skips the header
  when the credentials are falsy. Its `auth` replaces the cell with the reply body
  when the reply is not an error.
- `dist/api.js` has a default server. It reads credentials from an external store
  (modelled as an already-resolved value) with no absent-credential branch. Its
  `auth` is a bare POST that updates nothing.

Modules:

- `Js` (js.dfy): the JavaScript semantics the code relies on. This covers values,
  truthiness, underscore's `_.isEmpty`, property reads that throw on null and
  undefined, string conversion for `+`, and the Latin-1 check of `window.btoa`.
- `Pipeline` (pipeline.dfy): the logic that is identical in both files. It covers
  the URI join, option building, the header computation and the `complete`
  classification.
- `SourceApi` (source_api.dfy): `src/js/api.js`.
- `BundledApi` (bundled_api.dfy): `dist/api.js`.
- `Variants` (variants.dfy): where the two variants agree and where they differ.

Some host functions are parameters, bundled in the `Host` record: the base64 step
of `window.btoa` and `JSON.stringify`. Only btoa's rejection of non-Latin-1 text
is modelled.

Some behaviours of the code differ from what a reader of the API might expect.
The model follows the code:

- The path is appended verbatim. A leading `/` is not stripped, so a server ending
  in `/` plus a path starting with `/` gives a double slash (`Pipeline.LeadingSlashKept`).
- In `dist/api.js`, a store that resolves to null or undefined makes
  `authorizeRequest` throw a TypeError on `c.key`. The request is not sent without
  a header (`Variants.AbsentCredentialsDiverge`).
- In `dist/api.js`, `auth` does not update any credential state.
- The method is any string. Methods other than GET, POST and PUT send no payload.
- Success needs textStatus "success". jQuery reports a 204 reply as "nocontent",
  so the client treats it as an error (`Pipeline.NoContentIsError`).
- Building the header converts `cred.key` and `cred.secret` to strings. A key or
  secret object with its own `toString` field (possible in a JSON reply body)
  makes this throw a TypeError, and the request is not sent.

## Model

| member | source | states |
|---|---|---|
| `Pipeline.JoinUri` | src/js/api.js:32-36 | the server is a prefix of the URI, the path is its suffix verbatim, the character before the path is '/', and the URI is one character longer than server plus path exactly when the server does not end in '/' (so an empty server also gets the '/') |
| `Pipeline.JoinUriNormalisesOnce` | src/js/api.js:32-36 | joining onto the server already joined with an empty path yields the same URI: the slash is added at most once |
| `Pipeline.LeadingSlashKept` | src/js/api.js:33-36 | a leading '/' in the path is not stripped; with a server ending in '/' the URI has two consecutive slashes |
| `Pipeline.BuildOptions` | src/js/api.js:37-57 | type is the method, timeout is 5000 and no headers are set; data goes in the query exactly when the method is GET and the data is non-empty; a JSON body (stringified data) goes out exactly for POST/PUT with non-empty data; a content type is set exactly when there is a JSON body, and it is application/json |
| `Pipeline.Complete` | src/js/api.js:39-46 | exactly one side of the pair is null and the other is truthy; err is null exactly when textStatus is "success" and 200 <= status < 300; the non-null side is responseJSON when truthy and {} otherwise |
| `Pipeline.TransportFailureIsError` | src/js/api.js:42-45 | any textStatus other than "success" (timeout, error) yields a null data side and a truthy err side, whatever the status |
| `Pipeline.RequestData` | src/js/api.js:27-30 | a function in the data position is taken as the callback and leaves the data undefined (so empty); a data value is passed through |
| `Pipeline.CallbackSendsNoPayload` | src/js/api.js:27-30 | when the third argument is a function, the options carry no payload and no content type, whatever the method |
| `Pipeline.NoContentIsError` | src/js/api.js:39-46 | a 204 reply, which jQuery reports with textStatus "nocontent", is classified as an error carrying responseJSON or {} |
| `Pipeline.SetAuthorization` | src/js/api.js:71-73 | the result has the given Authorization value, keeps every other header and every other option |
| `Pipeline.CredentialHeader` | src/js/api.js:72-73 | the header is "user " + base64(key + ":" + secret) and succeeds exactly when the credential is encodable; it throws a TypeError on null/undefined credentials or when the key or secret cannot be converted to a string (an object with its own `toString` field), and InvalidCharacterError when the converted key:secret text is not Latin-1 |
| `Pipeline.KeyWithOwnToStringThrows` | src/js/api.js:73 | a key object with its own `toString` field makes the header throw a TypeError, whatever the secret |
| `Js.OwnToStringThrows` | src/js/api.js:73 | string conversion of an object with its own `toString` field throws a TypeError, directly or as an element at any position of any array |
| `Js.JoinFrom` | src/js/api.js:73 | converting an array's elements from some index on throws only TypeErrors |
| `Js.JoinFromThrows` | src/js/api.js:73 | the join from index i throws a TypeError whenever an element at or after i is an object with its own `toString` field |
| `Js.NatDecimal` | src/js/api.js:73 | a number key or secret converts to a non-empty digit string without leading zero that denotes the number; 0 becomes exactly "0" |
| `SourceApi.AuthorizeRequest` | src/js/api.js:67-76 | for the path 'auth/' or falsy credentials, opts are returned unchanged; otherwise it succeeds exactly when the credential is encodable (key and secret convert to strings and key:secret is Latin-1), throws a TypeError exactly when the conversion fails and InvalidCharacterError otherwise; on success only the Authorization header changes, set to "user " + base64(key:secret) |
| `SourceApi.Request` | src/js/api.js:26-60 | the URI is the join of server and path; the options carry the method and the 5000 ms timeout; the payload is what BuildOptions chooses for the shifted data; a function in the data position leaves no payload; on non-auth paths with truthy credentials the headers are exactly { Authorization: "user " + base64(key:secret) }, otherwise there are none; it throws only when such credentials are not encodable, with a TypeError exactly when the key or secret cannot be converted |
| `SourceApi.FalsyCredentialsAreAbsent` | src/js/api.js:69-70 | any falsy credential value gives the same request as having no credentials |
| `SourceApi.OnAuthReply` | src/js/api.js:86-90 | the credentials become the reply data exactly when err is falsy, otherwise the instance is unchanged; the config never changes; the callback receives the same pair |
| `SourceApi.Auth` | src/js/api.js:84-92 | auth POSTs the caller's data to server joined with 'auth/' without an Authorization header, with exactly the options BuildOptions gives for a POST of that data; on a successful response the credentials become the response body, otherwise the instance is unchanged; the caller receives the classified pair |
| `SourceApi.AuthSessionSnoc` | src/js/api.js:86-90 | one more auth call after a series acts on the instance the series left |
| `SourceApi.AuthSessionKeepsLastGrant` | src/js/api.js:84-92 | after any series of auth calls the credentials are the body of the last successful one, or the initial credentials if none succeeded; the config is unchanged |
| `BundledApi.New` | dist/api.js:12-17 | the server is the caller's server when one is given (even the empty string) and 'https://api2.absdata.ru' otherwise |
| `BundledApi.AuthorizeRequest` | dist/api.js:69-79 | for 'auth/' the options come back unchanged; for any other path it succeeds exactly when the stored credential is encodable, throws a TypeError exactly when the store is null/undefined or its key or secret cannot be converted and InvalidCharacterError otherwise; on success only the Authorization header changes, set to "user " + base64(key:secret) |
| `BundledApi.Request` | dist/api.js:26-61 | same URI join, method, timeout and payload as the source variant; on every non-auth path the headers are exactly { Authorization: "user " + base64(key:secret) } from the store, on 'auth/' there are none; it fails exactly when a non-auth path meets a stored credential that is not encodable, with a TypeError exactly for a null/undefined store or an unconvertible key or secret |
| `BundledApi.Auth` | dist/api.js:86-88 | auth is a POST of the data to 'auth/' that always builds, carries no header, and has exactly the options BuildOptions gives |
| `BundledApi.AuthIgnoresStore` | dist/api.js:86-88 | what auth sends does not depend on the stored credentials |
| `Variants.AgreeOnTruthyCredentials` | dist/api.js:69-79 | with truthy credentials the two variants build the same request or throw the same error |
| `Variants.AgreeOnAuthPath` | dist/api.js:70-71 | on 'auth/' the two variants build the same request whatever either holds as credentials |
| `Variants.AbsentCredentialsDiverge` | dist/api.js:73-78 | with null/undefined credentials on a non-auth path, the source variant sends without a header while the bundled variant throws a TypeError |
| `Variants.EmptyStringCredentialDiverges` | dist/api.js:73-78 | an empty-string credential sends no header from the source variant, while the bundled variant sends "user " + base64("undefined:undefined") |

## Left out

- The `$.ajax` transport, real timeout enforcement and network errors. The model
  classifies a given `(textStatus, status, responseJSON)` triple. A timeout is the
  textStatus "timeout".
- jQuery Deferred chaining, `.bind(this)`, `cb || utils.noop` and the callback
  plumbing. Callbacks are represented only by the pair they receive.
- The asynchronous `utils.credentials.get()` of `dist/api.js`. It is modelled as
  an already-resolved value, so a rejected or never-resolving lookup is not modelled.
  The store's own code (`utils`) is not part of this model.
- The internals of base64 encoding and `JSON.stringify`. They are function
  parameters. Only btoa's Latin-1 rejection is modelled.
- The endpoint wrappers (`createInteraction`, `getScript`, `listCustomers`,
  `getUserSelf`, `getUserSalesScript`). They are one-line callers of `request`
  with the constant paths 'interaction/', 'script/' + id, 'customer', 'user/self'
  and 'user/self/script'.
- The build configuration (Gruntfile.js).
- JavaScript numbers are safe integers in the model, of magnitude at most 2^53 - 1.
  Fractions, NaN, -0 and larger numbers are not represented. That includes the
  integers of 10^21 and above that JavaScript prints in exponent notation.
- Objects are maps without key order, and strings are sequences of Dafny `char`.
  So the property order that `JSON.stringify` and jQuery's query encoding follow
  is not represented, and neither are the lone surrogates a JSON string may hold.
  No decision of the pipeline depends on either.
- Property reads model only the two names the code reads, `key` and `secret`.
  They are own fields of an object and undefined on every other non-nullish
  value. Values carry no callable fields, as in parsed JSON.
- The `src/js/api.js` constructor stores whatever config it is given. The model
  requires a config with a string server. A missing config would throw inside
  `request`.
- The `dist/api.js` config: only a string server or no server is modelled.
  Non-string server values are not represented.
- `SourceApi.Auth`: takes a data value, not a function. In the source, passing a
  function as auth data would make `request` treat it as the callback and drop
  the credential-updating callback.
