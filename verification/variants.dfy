/** How the two variants of the client relate: with the same server and the
    same credential value they send the same request, except when the
    credential is falsy, where the in-memory variant omits the header and the
    store-backed variant reads the credential regardless. */
module Variants {
  import opened Js
  import opened Pipeline
  import SourceApi
  import BundledApi

  /** With truthy credentials both variants build the same request, or both
      throw the same error. */
  lemma AgreeOnTruthyCredentials(server: string, cred: Value, verb: string, path: string, arg: Arg, host: Host)
    requires Truthy(cred)
    ensures SourceApi.Request(SourceApi.Client(SourceApi.Config(server), cred), verb, path, arg, host)
         == BundledApi.Request(BundledApi.Client(server), verb, path, arg, cred, host)
  {
  }

  /** On the auth path neither variant looks at the credentials. */
  lemma AgreeOnAuthPath(server: string, cred: Value, stored: Value, verb: string, arg: Arg, host: Host)
    ensures SourceApi.Request(SourceApi.Client(SourceApi.Config(server), cred), verb, AuthPath, arg, host)
         == BundledApi.Request(BundledApi.Client(server), verb, AuthPath, arg, stored, host)
  {
  }

  /** With no credentials, a non-auth request goes out unauthorized from the
      in-memory variant but throws a TypeError in the store-backed one. */
  lemma AbsentCredentialsDiverge(server: string, absent: Value, verb: string, path: string, arg: Arg, host: Host)
    requires Nullish(absent) && path != AuthPath
    ensures var r := SourceApi.Request(SourceApi.Client(SourceApi.Config(server), absent), verb, path, arg, host);
      r.Ok? && !HasAuthorization(r.value.opts)
    ensures BundledApi.Request(BundledApi.Client(server), verb, path, arg, absent, host) == Err(TypeError)
  {
  }

  /** An empty-string credential is no credential to the in-memory variant,
      while the store-backed one sends `user ` + base64("undefined:undefined"). */
  lemma EmptyStringCredentialDiverges(server: string, verb: string, path: string, arg: Arg, host: Host)
    requires path != AuthPath
    ensures var r := SourceApi.Request(SourceApi.Client(SourceApi.Config(server), Str("")), verb, path, arg, host);
      r.Ok? && !HasAuthorization(r.value.opts)
    ensures var r := BundledApi.Request(BundledApi.Client(server), verb, path, arg, Str(""), host);
      r.Ok? && AuthorizationOf(r.value.opts) == Some(AuthScheme + host.base64("undefined:undefined"))
  {
    assert Prop(Str(""), KeyField) == Undefined && Prop(Str(""), SecretField) == Undefined;
    assert ToStr(Undefined) == Ok("undefined");
    assert "undefined" + ":" + "undefined" == "undefined:undefined";
    assert CredentialText(Str("")) == Ok("undefined:undefined");
    assert Latin1("undefined:undefined");
  }
}
