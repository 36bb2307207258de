/** The client of src/js/api.js: an API instance owns its config and an
    in-memory credential cell; `auth` replaces the cell with the reply body
    when the authentication request succeeds. */
module SourceApi {
  import opened Js
  import opened Pipeline

  datatype Config = Config(server: string)

  /** An API instance: its config and the one-cell credential store, which
      holds whatever value it was constructed with or last authenticated to. */
  datatype Client = Client(config: Config, credentials: Value)

  /** What one call of `auth` produces: the request handed to `$.ajax`, the
      instance afterwards, and the pair passed to the caller's callback. */
  datatype AuthOutcome = AuthOutcome(sent: Prepared, client: Client, reply: Reply)

  /** `authorizeRequest`: no header for the auth path or for falsy
      credentials; otherwise the Authorization header from the credentials. */
  function AuthorizeRequest(c: Client, path: string, opts: Options, host: Host): (r: Result<Options>)
    ensures path == AuthPath || !Truthy(c.credentials) ==> r == Ok(opts)
    ensures path != AuthPath && Truthy(c.credentials) ==> (r.Ok? <==> Encodable(c.credentials))
    ensures r.Err? ==> (r.error == TypeError <==> CredentialText(c.credentials).Err?)
    ensures path != AuthPath && Truthy(c.credentials) && r.Ok? ==>
      && OnlyAuthorizationChanged(opts, r.value)
      && AuthorizationOf(r.value) == Some(HeaderValue(c.credentials, host))
  {
    if path != AuthPath && Truthy(c.credentials) then
      var header :- CredentialHeader(c.credentials, host);
      Ok(SetAuthorization(opts, header))
    else
      Ok(opts)
  }

  /** `request` up to the call of `$.ajax`: the URI, the options, and the
      header; it throws only when the credentials are used and cannot be
      turned into a header. */
  function Request(c: Client, verb: string, path: string, arg: Arg, host: Host): (r: Result<Prepared>)
    ensures r.Ok? <==> path == AuthPath || !Truthy(c.credentials) || Encodable(c.credentials)
    ensures r.Err? ==> (r.error == TypeError <==> CredentialText(c.credentials).Err?)
    ensures r.Ok? ==> r.value.uri == JoinUri(c.config.server, path)
    ensures r.Ok? ==> r.value.opts.httpMethod == verb && r.value.opts.timeout == TimeoutMs
    ensures r.Ok? ==>
      && r.value.opts.payload == BuildOptions(verb, RequestData(arg), host).payload
      && r.value.opts.contentType == BuildOptions(verb, RequestData(arg), host).contentType
    ensures r.Ok? && arg.Callback? ==>
      r.value.opts.payload == NoPayload && r.value.opts.contentType == None
    ensures r.Ok? && path != AuthPath && Truthy(c.credentials) ==>
      r.value.opts.headers == Some(map[AuthorizationHeader := HeaderValue(c.credentials, host)])
    ensures r.Ok? && (path == AuthPath || !Truthy(c.credentials)) ==> r.value.opts.headers == None
  {
    var uri := JoinUri(c.config.server, path);
    var opts :- AuthorizeRequest(c, path, BuildOptions(verb, RequestData(arg), host), host);
    Ok(Prepared(uri, opts))
  }

  /** The callback `auth` passes to `request`: adopt the reply's data as the
      credentials when there is no error, and hand the pair on unchanged. */
  function OnAuthReply(c: Client, reply: Reply): (r: (Client, Reply))
    ensures r.1 == reply
    ensures r.0.config == c.config
    ensures !Truthy(reply.err) ==> r.0.credentials == reply.data
    ensures Truthy(reply.err) ==> r.0 == c
  {
    if !Truthy(reply.err) then (c.(credentials := reply.data), reply) else (c, reply)
  }

  /** One `auth` call whose request completed with `resp`. */
  function Auth(c: Client, data: Value, host: Host, resp: Response): (r: AuthOutcome)
    ensures r.sent.uri == JoinUri(c.config.server, AuthPath)
    ensures r.sent.opts.httpMethod == "POST" && !HasAuthorization(r.sent.opts)
    ensures r.sent.opts == BuildOptions("POST", data, host)
    ensures r.reply == Complete(resp)
    ensures r.client.config == c.config
    ensures Succeeded(resp) ==> r.client.credentials == r.reply.data
    ensures !Succeeded(resp) ==> r.client == c
  {
    var sent := Request(c, "POST", AuthPath, Data(data), host);
    var (after, reply) := OnAuthReply(c, Complete(resp));
    AuthOutcome(sent.value, after, reply)
  }

  /** The instance after a series of `auth` calls completing with `resps`,
      in order. */
  function AuthSession(c: Client, resps: seq<Response>): Client
    decreases |resps|
  {
    if |resps| == 0 then c else AuthSession(OnAuthReply(c, Complete(resps[0])).0, resps[1..])
  }

  /** The body of the last successful response in `resps`, or `init` when
      none succeeded. */
  function LastGranted(init: Value, resps: seq<Response>): Value
    decreases |resps|
  {
    if |resps| == 0 then init
    else if Succeeded(resps[|resps| - 1]) then Or(resps[|resps| - 1].responseJSON, EmptyObject)
    else LastGranted(init, resps[..|resps| - 1])
  }

  lemma {:induction false} AuthSessionSnoc(c: Client, resps: seq<Response>, last: Response)
    ensures AuthSession(c, resps + [last]) == OnAuthReply(AuthSession(c, resps), Complete(last)).0
    decreases |resps|
  {
    if |resps| == 0 {
      assert [last][1..] == [];
    } else {
      var next := OnAuthReply(c, Complete(resps[0])).0;
      assert (resps + [last])[1..] == resps[1..] + [last];
      AuthSessionSnoc(next, resps[1..], last);
    }
  }

  /** Last write wins: after any series of `auth` calls the credentials are
      the body of the last successful one, or the initial credentials when
      none succeeded; the config never changes. */
  lemma {:induction false} AuthSessionKeepsLastGrant(c: Client, resps: seq<Response>)
    ensures AuthSession(c, resps).credentials == LastGranted(c.credentials, resps)
    ensures AuthSession(c, resps).config == c.config
    decreases |resps|
  {
    if |resps| > 0 {
      var prefix := resps[..|resps| - 1];
      var last := resps[|resps| - 1];
      assert resps == prefix + [last];
      AuthSessionSnoc(c, prefix, last);
      AuthSessionKeepsLastGrant(c, prefix);
    }
  }

  /** A falsy credential (false, 0, "", null, undefined) is treated exactly
      like having none. */
  lemma FalsyCredentialsAreAbsent(server: string, cred: Value, verb: string, path: string, arg: Arg, host: Host)
    requires !Truthy(cred)
    ensures Request(Client(Config(server), cred), verb, path, arg, host)
         == Request(Client(Config(server), Undefined), verb, path, arg, host)
  {
  }
}
