/** The request logic shared, line for line, by both variants of the client:
    joining the server and the path, building the jQuery ajax options,
    computing the Authorization header, and classifying a completed request
    into an `(err, data)` pair. */
module Pipeline {
  import opened Js

  /** The one path that is sent without credentials. */
  const AuthPath: string := "auth/"
  /** The client-side timeout every request carries, in milliseconds. */
  const TimeoutMs: int := 5000
  const JsonContentType: string := "application/json"
  const AuthorizationHeader: string := "Authorization"
  const AuthScheme: string := "user "

  /** Host functions the pipeline calls but whose internals are not
      modelled: the base64 step of `window.btoa` and `JSON.stringify`. */
  datatype Host = Host(base64: string -> string, stringify: Value -> string)

  /** The third argument of `request`: a data value (undefined when omitted)
      or a function, which is taken as the callback. */
  datatype Arg = Data(value: Value) | Callback

  /** What `opts.data` carries: nothing, query parameters, or a JSON text. */
  datatype Payload = NoPayload | Query(params: Value) | JsonBody(text: string)

  /** The jQuery ajax options the pipeline builds; the `complete` handler
      is modelled by `Complete`. */
  datatype Options = Options(
    httpMethod: string,
    payload: Payload,
    contentType: Option<string>,
    timeout: int,
    headers: Option<map<string, string>>)

  /** The arguments handed to `$.ajax`. */
  datatype Prepared = Prepared(uri: string, opts: Options)

  /** What jQuery reports when a request completes (`jqXHR.status`,
      `jqXHR.responseJSON` and the `textStatus` argument). */
  datatype Response = Response(textStatus: string, status: int, responseJSON: Value)

  /** The `(err, data)` pair passed to the request's callback. */
  datatype Reply = Reply(err: Value, data: Value)

  /** The data after the argument shift: a function in the data position
      becomes the callback and leaves the data undefined. */
  function RequestData(arg: Arg): (data: Value)
    ensures arg.Data? ==> data == arg.value
    ensures arg.Callback? ==> Nullish(data) && IsEmpty(data)
  {
    match arg
    case Data(v) => v
    case Callback => Undefined
  }

  predicate EndsWithSlash(s: string) {
    |s| > 0 && s[|s| - 1] == '/'
  }

  /** The request URI: the server, a '/' unless the server already ends in
      one, then the path exactly as given. */
  function JoinUri(server: string, path: string): (uri: string)
    ensures server <= uri
    ensures |uri| == |server| + |path| + (if EndsWithSlash(server) then 0 else 1)
    ensures uri[|uri| - |path|..] == path
    ensures uri[|uri| - |path| - 1] == '/'
  {
    var base := if EndsWithSlash(server) then server else server + "/";
    assert base[|base| - 1] == '/';
    base + path
  }

  /** The options `request` builds before authorization: the verb, the
      payload chosen by verb and emptiness, and the timeout. */
  function BuildOptions(verb: string, data: Value, host: Host): (o: Options)
    ensures o.httpMethod == verb && o.timeout == TimeoutMs && o.headers == None
    ensures o.payload.Query? <==> verb == "GET" && !IsEmpty(data)
    ensures o.payload.JsonBody? <==> (verb == "POST" || verb == "PUT") && !IsEmpty(data)
    ensures o.payload.Query? ==> o.payload.params == data
    ensures o.payload.JsonBody? ==> o.payload.text == host.stringify(data)
    ensures o.contentType.Some? <==> o.payload.JsonBody?
    ensures o.contentType.Some? ==> o.contentType.value == JsonContentType
  {
    var base := Options(verb, NoPayload, None, 0, None);
    var encoded :=
      if IsEmpty(data) then base
      else if verb == "GET" then base.(payload := Query(data))
      else if verb == "POST" || verb == "PUT" then
        base.(contentType := Some(JsonContentType), payload := JsonBody(host.stringify(data)))
      else base;
    encoded.(timeout := TimeoutMs)
  }

  /** The headers object, `{}` when the options have none. */
  function Headers(o: Options): map<string, string> {
    if o.headers.Some? then o.headers.value else map[]
  }

  function AuthorizationOf(o: Options): Option<string> {
    if AuthorizationHeader in Headers(o) then Some(Headers(o)[AuthorizationHeader]) else None
  }

  predicate HasAuthorization(o: Options) {
    AuthorizationOf(o).Some?
  }

  /** `after` differs from `before` at most in its Authorization header:
      every other option and every other header is kept. */
  predicate OnlyAuthorizationChanged(before: Options, after: Options) {
    && after.httpMethod == before.httpMethod
    && after.payload == before.payload
    && after.contentType == before.contentType
    && after.timeout == before.timeout
    && after.headers.Some?
    && Headers(after) - {AuthorizationHeader} == Headers(before) - {AuthorizationHeader}
  }

  /** `opts.headers = opts.headers || {}; opts.headers.Authorization = value` */
  function SetAuthorization(opts: Options, value: string): (r: Options)
    ensures OnlyAuthorizationChanged(opts, r)
    ensures AuthorizationOf(r) == Some(value)
  {
    opts.(headers := Some(Headers(opts)[AuthorizationHeader := value]))
  }

  /** The text `cred.key + ':' + cred.secret` of a non-nullish credential,
      which throws when the key or the secret cannot be converted to a string. */
  function CredentialText(cred: Value): Result<string> {
    var key :- ToStr(Prop(cred, KeyField));
    var secret :- ToStr(Prop(cred, SecretField));
    Ok(key + ":" + secret)
  }

  /** The credential yields an Authorization header: it is not nullish, its
      key and secret convert to strings, and the text is Latin-1. */
  predicate Encodable(cred: Value) {
    !Nullish(cred) && CredentialText(cred).Ok? && Latin1(CredentialText(cred).value)
  }

  /** The Authorization value of an encodable credential. */
  function HeaderValue(cred: Value, host: Host): string
    requires Encodable(cred)
  {
    AuthScheme + host.base64(CredentialText(cred).value)
  }

  /** `'user ' + window.btoa(cred.key + ':' + cred.secret)`. It throws a
      TypeError when `cred` is null or undefined or when the key or secret
      cannot be converted, and InvalidCharacterError when the text is not
      Latin-1. */
  function CredentialHeader(cred: Value, host: Host): (r: Result<string>)
    ensures r.Ok? <==> Encodable(cred)
    ensures Nullish(cred) ==> r == Err(TypeError)
    ensures !Nullish(cred) && CredentialText(cred).Err? ==> r == Err(TypeError)
    ensures !Nullish(cred) && CredentialText(cred).Ok? && r.Err? ==> r.error == InvalidCharacterError
    ensures r.Ok? ==> r.value == AuthScheme + host.base64(CredentialText(cred).value)
  {
    var key :- Member(cred, KeyField);
    // `cred.key + ':'` converts the key first; reading `cred.secret` cannot throw
    var keyText :- ToStr(key);
    var secretText :- ToStr(Prop(cred, SecretField));
    var encoded :- Btoa(host.base64, keyText + ":" + secretText);
    Ok(AuthScheme + encoded)
  }

  /** A key object with its own `toString` field makes the header throw a
      TypeError before btoa is reached. */
  lemma KeyWithOwnToStringThrows(cred: Value, host: Host)
    requires cred.Obj? && "key" in cred.fields
    requires cred.fields["key"].Obj? && "toString" in cred.fields["key"].fields
    ensures CredentialHeader(cred, host) == Err(TypeError)
  {
  }

  /** The transport reported success and the status is 2xx. */
  predicate Succeeded(resp: Response) {
    resp.textStatus == "success" && 200 <= resp.status < 300
  }

  /** The `complete` handler: `resp = responseJSON || {}` goes to the data
      side on success and to the error side otherwise. */
  function Complete(resp: Response): (r: Reply)
    ensures (r.err == Null) != (r.data == Null)
    ensures r.err == Null <==> Succeeded(resp)
    ensures Truthy(r.err) != Truthy(r.data)
    ensures var body := if r.err == Null then r.data else r.err;
      && (Truthy(resp.responseJSON) ==> body == resp.responseJSON)
      && (!Truthy(resp.responseJSON) ==> body == EmptyObject)
  {
    var body := Or(resp.responseJSON, EmptyObject);
    if resp.textStatus == "success" && 200 <= resp.status && resp.status < 300 then
      Reply(Null, body)
    else
      Reply(body, Null)
  }

  /** A timed-out or failed transport never reads as success, whatever the
      status and body. */
  lemma TransportFailureIsError(resp: Response)
    requires resp.textStatus != "success"
    ensures Complete(resp).data == Null
    ensures Truthy(Complete(resp).err)
  {
  }

  /** jQuery reports a 204 reply with textStatus "nocontent", so it is
      classified as an error although its status is 2xx. */
  lemma NoContentIsError(body: Value)
    ensures Complete(Response("nocontent", 204, body)).data == Null
    ensures Complete(Response("nocontent", 204, body)).err == Or(body, EmptyObject)
  {
  }

  /** A function in the data position leaves the request without payload
      and without content type, whatever the method. */
  lemma CallbackSendsNoPayload(verb: string, host: Host)
    ensures BuildOptions(verb, RequestData(Callback), host).payload == NoPayload
    ensures BuildOptions(verb, RequestData(Callback), host).contentType == None
  {
  }

  /** A leading '/' on the path is kept, so a server ending in '/' and a
      path starting with '/' give a double slash. */
  lemma LeadingSlashKept(server: string, path: string)
    requires EndsWithSlash(server) && |path| > 0 && path[0] == '/'
    ensures var uri := JoinUri(server, path);
      uri[|server| - 1] == '/' && uri[|server|] == '/'
  {
  }

  /** Joining onto an already joined empty path changes nothing: the server
      part of the URI is normalised exactly once. */
  lemma JoinUriNormalisesOnce(server: string, path: string)
    ensures JoinUri(JoinUri(server, ""), path) == JoinUri(server, path)
  {
  }
}
