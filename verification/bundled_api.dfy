/** The client of dist/api.js: the config falls back to a default server,
    credentials come from an external store whose lookup is taken as already
    resolved, every non-auth request reads them without an absent branch, and
    `auth` is a bare POST that updates nothing. */
module BundledApi {
  import opened Js
  import opened Pipeline

  const DefaultServer: string := "https://api2.absdata.ru"

  /** An API instance; it holds only its config. */
  datatype Client = Client(server: string)

  /** The constructor: `$.extend({server: default}, config || {})`. A server
      that is absent or undefined leaves the default; any other given
      server, the empty string included, replaces it. */
  function New(server: Option<string>): (c: Client)
    ensures server.Some? ==> c.server == server.value
    ensures server.None? ==> c.server == DefaultServer
    ensures |c.server| > 0 || server == Some("")
  {
    match server
    case Some(s) => Client(s)
    case None => Client(DefaultServer)
  }

  /** `authorizeRequest` with the store's lookup resolved to `stored`: the
      auth path passes `opts` through untouched; any other path reads
      `stored.key` and `stored.secret`, so a null or undefined store throws. */
  function AuthorizeRequest(path: string, opts: Options, stored: Value, host: Host): (r: Result<Options>)
    ensures path == AuthPath ==> r == Ok(opts)
    ensures path != AuthPath ==> (r.Ok? <==> Encodable(stored))
    ensures path != AuthPath && Nullish(stored) ==> r == Err(TypeError)
    ensures r.Err? ==> (r.error == TypeError <==> Nullish(stored) || CredentialText(stored).Err?)
    ensures path != AuthPath && r.Ok? ==>
      && OnlyAuthorizationChanged(opts, r.value)
      && AuthorizationOf(r.value) == Some(HeaderValue(stored, host))
  {
    if path == AuthPath then
      Ok(opts)
    else
      var header :- CredentialHeader(stored, host);
      Ok(SetAuthorization(opts, header))
  }

  /** `request` up to the call of `$.ajax`, with the store resolved to `stored`. */
  function Request(c: Client, verb: string, path: string, arg: Arg, stored: Value, host: Host): (r: Result<Prepared>)
    ensures r.Ok? <==> path == AuthPath || Encodable(stored)
    ensures r.Err? ==> (r.error == TypeError <==> Nullish(stored) || CredentialText(stored).Err?)
    ensures r.Ok? ==> r.value.uri == JoinUri(c.server, path)
    ensures r.Ok? ==> r.value.opts.httpMethod == verb && r.value.opts.timeout == TimeoutMs
    ensures r.Ok? ==>
      && r.value.opts.payload == BuildOptions(verb, RequestData(arg), host).payload
      && r.value.opts.contentType == BuildOptions(verb, RequestData(arg), host).contentType
    ensures r.Ok? && arg.Callback? ==>
      r.value.opts.payload == NoPayload && r.value.opts.contentType == None
    ensures r.Ok? && path != AuthPath ==>
      r.value.opts.headers == Some(map[AuthorizationHeader := HeaderValue(stored, host)])
    ensures r.Ok? && path == AuthPath ==> r.value.opts.headers == None
  {
    var uri := JoinUri(c.server, path);
    var opts :- AuthorizeRequest(path, BuildOptions(verb, RequestData(arg), host), stored, host);
    Ok(Prepared(uri, opts))
  }

  /** `auth(data)`: a POST of `data` to the auth path; it never fails before
      sending, sends no header, and does not depend on the store. */
  function Auth(c: Client, data: Arg, stored: Value, host: Host): (r: Result<Prepared>)
    ensures r.Ok?
    ensures r.value.uri == JoinUri(c.server, AuthPath)
    ensures r.value.opts.httpMethod == "POST" && !HasAuthorization(r.value.opts)
    ensures r.value.opts == BuildOptions("POST", RequestData(data), host)
  {
    Request(c, "POST", AuthPath, data, stored, host)
  }

  /** What `auth` sends is the same whatever the store holds. */
  lemma AuthIgnoresStore(c: Client, data: Arg, stored: Value, other: Value, host: Host)
    ensures Auth(c, data, stored, host) == Auth(c, data, other, host)
  {
  }
}
