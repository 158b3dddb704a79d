/** The metadata service client (metadata/client.go): its host URL defaults and overrides and
    the option handling of `NewClient`. The HTTP client is reduced to which transport was
    installed and the host URL and token handed to it; URL parsing and token generation are
    parameters. */
module MetadataClient {
  import opened Results
  import opened HostURLs

  // metadata/client.go lines 14-16
  const APIHost := "169.254.169.254"
  const APIProto := "http"
  const APIVersion := "v1"

  const Defaults := HostParts(APIProto, APIHost, APIVersion)

  /** `ClientCreateOptions` (lines 18-26); `hasHTTPClient` stands for a non-nil `HTTPClient`. */
  datatype ClientCreateOptions = ClientCreateOptions(
    hasHTTPClient: bool,
    baseURLOverride: string,
    versionOverride: string,
    schemeOverride: string,
    disableTokenInit: bool)

  /** A URL as `url.Parse` and `path.Join` leave it: the scheme, and host and path joined. */
  datatype URLParts = URLParts(scheme: string, hostPath: string)

  /** The HTTP client behind the metadata client: none yet (Go's nil), the default one, or
      one wrapping the caller's `http.Client`. */
  datatype Transport = NoTransport | DefaultTransport | CallerTransport

  /** `Client` (lines 28-34), with what has been handed to its HTTP client. */
  datatype Client = Client(
    transport: Transport,
    apiBaseURL: string,
    apiProtocol: string,
    apiVersion: string,
    hostURL: Option<string>,
    token: Option<string>)

  /** What a constructor call ends in: a client, an error, or a nil-pointer panic. */
  datatype Outcome = Created(client: Client) | Failed(error: Error) | NilDereference

  /** The URL a client with these settings talks to. */
  function HostURLOf(c: Client): string
  {
    Render(Resolve(c.apiBaseURL, c.apiVersion, c.apiProtocol, Defaults))
  }

  /** `updateHostURL` (lines 107-125) as written: it hands the composed URL to the HTTP
      client, which panics when there is none yet. */
  function UpdateHostURLAsWritten(c: Client): (o: Outcome)
    ensures c.transport.NoTransport? <==> o.NilDereference?
    ensures o.Created? ==> o.client == c.(hostURL := Some(HostURLOf(c)))
  {
    if c.transport.NoTransport? then NilDereference else Created(c.(hostURL := Some(HostURLOf(c))))
  }

  /** `updateHostURL` on a client that has its HTTP client. */
  function UpdateHostURL(c: Client): (d: Client)
    requires !c.transport.NoTransport?
    ensures d.hostURL == Some(HostURLOf(c))
    ensures d.(hostURL := c.hostURL) == c
  {
    c.(hostURL := Some(HostURLOf(c)))
  }

  /** With no settings the metadata client talks to `http://169.254.169.254/v1`. */
  lemma DefaultMetadataURL(c: Client)
    requires c.apiBaseURL == "" && c.apiVersion == "" && c.apiProtocol == ""
    ensures HostURLOf(c) == "http://169.254.169.254/v1"
  {
    NoSettingsGiveDefaults(Defaults);
  }

  /** `SetBaseURL` (lines 88-97) as written. */
  function SetBaseURLAsWritten(c: Client, u: URLParts): (o: Outcome)
    ensures c.transport.NoTransport? <==> o.NilDereference?
    ensures o.Created? ==> o.client.apiBaseURL == u.hostPath && o.client.apiProtocol == u.scheme && o.client.apiVersion == c.apiVersion
  {
    UpdateHostURLAsWritten(c.(apiBaseURL := u.hostPath, apiProtocol := u.scheme))
  }

  /** `SetVersion` (lines 99-105) as written. */
  function SetVersionAsWritten(c: Client, version: string): (o: Outcome)
    ensures c.transport.NoTransport? <==> o.NilDereference?
    ensures o.Created? ==> o.client.apiVersion == version && o.client.apiBaseURL == c.apiBaseURL && o.client.apiProtocol == c.apiProtocol
  {
    UpdateHostURLAsWritten(c.(apiVersion := version))
  }

  /** The state `NewClient` starts from (line 37): every field zero, no HTTP client. */
  const Zero := Client(NoTransport, "", "", "", None, None)

  /** A nil `opts` reads as options with every field zero (lines 39-42). */
  function OptionsOrZero(opts: Option<ClientCreateOptions>): ClientCreateOptions
  {
    if opts.Some? then opts.value else ClientCreateOptions(false, "", "", "", false)
  }

  /** Lines 69-80: compose the URL, then, unless disabled, generate a token and install it;
      a token error is wrapped as on line 74. */
  function FinishClient(c: Client, skipToken: bool, generateToken: Client -> Result<string>): (r: Result<Client>)
    requires !c.transport.NoTransport?
    ensures skipToken ==> r == Success(UpdateHostURL(c))
    ensures !skipToken ==> match generateToken(UpdateHostURL(c))
      case Success(t) => r == Success(UpdateHostURL(c).(token := Some(t)))
      case Failure(e) => r == Failure(Error("failed to generate metadata token: " + e.message))
  {
    var d := UpdateHostURL(c);
    if skipToken then Success(d)
    else
      match generateToken(d)
      case Failure(e) => Failure(Error("failed to generate metadata token: " + e.message))
      case Success(t) => Success(d.(token := Some(t)))
  }

  /** `NewClient` (lines 36-81) as written. The overrides call `SetBaseURL` and `SetVersion`,
      whose `updateHostURL` reaches the HTTP client before line 55 has created it. The
      `LINODE_DEBUG` lookup (lines 61-67) is not part of this model. */
  function NewClientAsWritten(opts: Option<ClientCreateOptions>, parseURL: string -> URLParts,
                              generateToken: Client -> Result<string>): (o: Outcome)
    ensures o.NilDereference? <==> OptionsOrZero(opts).baseURLOverride != "" || OptionsOrZero(opts).versionOverride != ""
  {
    var options := OptionsOrZero(opts);
    var afterBase :=
      if options.baseURLOverride != "" then SetBaseURLAsWritten(Zero, parseURL(options.baseURLOverride))
      else Created(Zero);
    match afterBase
    case NilDereference => NilDereference
    case Failed(e) => Failed(e)
    case Created(c0) =>
      var afterVersion :=
        if options.versionOverride != "" then SetVersionAsWritten(c0, options.versionOverride)
        else Created(c0);
      match afterVersion
      case NilDereference => NilDereference
      case Failed(e) => Failed(e)
      case Created(c1) =>
        var c2 := c1.(transport := if options.hasHTTPClient then CallerTransport else DefaultTransport);
        match FinishClient(c2, options.disableTokenInit, generateToken)
        case Success(c) => Created(c)
        case Failure(e) => Failed(e)
  }

  /** As written, any non-empty base-URL or version override panics on the nil HTTP client
      before the client exists. */
  lemma OverrideDereferencesNil(opts: ClientCreateOptions, parseURL: string -> URLParts,
                                generateToken: Client -> Result<string>)
    requires opts.baseURLOverride != "" || opts.versionOverride != ""
    ensures NewClientAsWritten(Some(opts), parseURL, generateToken) == NilDereference
  {
  }

  /** The client the corrected `NewClient` holds at line 69: the overrides stored as
      `SetBaseURL` and `SetVersion` would store them (lines 46-52), then the HTTP client
      chosen by lines 55-59. No URL is composed and no token installed yet. */
  function Configured(opts: Option<ClientCreateOptions>, parseURL: string -> URLParts): (c: Client)
    ensures c.transport == (if OptionsOrZero(opts).hasHTTPClient then CallerTransport else DefaultTransport)
    ensures OptionsOrZero(opts).baseURLOverride != "" ==>
      c.apiBaseURL == parseURL(OptionsOrZero(opts).baseURLOverride).hostPath
      && c.apiProtocol == parseURL(OptionsOrZero(opts).baseURLOverride).scheme
    ensures OptionsOrZero(opts).baseURLOverride == "" ==> c.apiBaseURL == "" && c.apiProtocol == ""
    ensures c.apiVersion == OptionsOrZero(opts).versionOverride
    ensures c.hostURL.None? && c.token.None?
  {
    var options := OptionsOrZero(opts);
    var c0 :=
      if options.baseURLOverride != "" then
        Zero.(apiBaseURL := parseURL(options.baseURLOverride).hostPath, apiProtocol := parseURL(options.baseURLOverride).scheme)
      else Zero;
    var c1 := if options.versionOverride != "" then c0.(apiVersion := options.versionOverride) else c0;
    c1.(transport := if options.hasHTTPClient then CallerTransport else DefaultTransport)
  }

  /** `NewClient` with the overrides stored before the HTTP client exists and applied by the
      `updateHostURL` of line 69, which already recomputes the URL from them. */
  function NewClient(opts: Option<ClientCreateOptions>, parseURL: string -> URLParts,
                     generateToken: Client -> Result<string>): (r: Result<Client>)
    ensures r.Success? ==> r.value.hostURL == Some(HostURLOf(r.value))
    ensures r.Success? ==> r.value.transport == (if OptionsOrZero(opts).hasHTTPClient then CallerTransport else DefaultTransport)
  {
    FinishClient(Configured(opts, parseURL), OptionsOrZero(opts).disableTokenInit, generateToken)
  }

  /** Where the written code gets that far (no override given), it and the corrected
      constructor agree. */
  lemma NewClientAgreesWithoutOverrides(opts: Option<ClientCreateOptions>, parseURL: string -> URLParts,
                                        generateToken: Client -> Result<string>)
    requires OptionsOrZero(opts).baseURLOverride == "" && OptionsOrZero(opts).versionOverride == ""
    ensures var o := NewClientAsWritten(opts, parseURL, generateToken);
      var r := NewClient(opts, parseURL, generateToken);
      && !o.NilDereference?
      && (o.Created? <==> r.Success?)
      && (o.Created? ==> o.client == r.value)
      && (o.Failed? ==> o.error == r.error)
  {
  }

  /** The client talks to its defaults with each non-empty override in place of its own
      component: the base-URL override gives the host and the scheme, the version override
      the version, and an empty override is ignored. */
  lemma OverridesSetTheirComponents(opts: Option<ClientCreateOptions>, parseURL: string -> URLParts,
                                    generateToken: Client -> Result<string>)
    requires NewClient(opts, parseURL, generateToken).Success?
    ensures var c := NewClient(opts, parseURL, generateToken).value;
      var options := OptionsOrZero(opts);
      var u := parseURL(options.baseURLOverride);
      && c.hostURL == Some(Render(HostParts(
           if options.baseURLOverride != "" then Effective(u.scheme, APIProto) else APIProto,
           if options.baseURLOverride != "" then Effective(u.hostPath, APIHost) else APIHost,
           Effective(options.versionOverride, APIVersion))))
  {
  }

  /** A nil `opts` gives the default URL and asks for a token; it behaves as options with
      every field zero. */
  lemma NilOptionsUseDefaults(parseURL: string -> URLParts, generateToken: Client -> Result<string>)
    ensures NewClient(None, parseURL, generateToken) == NewClient(Some(ClientCreateOptions(false, "", "", "", false)), parseURL, generateToken)
    ensures NewClient(None, parseURL, generateToken).Success? ==>
      && NewClient(None, parseURL, generateToken).value.hostURL == Some("http://169.254.169.254/v1")
      && NewClient(None, parseURL, generateToken).value.token.Some?
  {
    DefaultMetadataURL(Zero.(transport := DefaultTransport));
  }

  /** `SchemeOverride` is never read: changing it changes nothing. */
  lemma SchemeOverrideIgnored(opts: ClientCreateOptions, scheme: string, parseURL: string -> URLParts,
                              generateToken: Client -> Result<string>)
    ensures NewClient(Some(opts.(schemeOverride := scheme)), parseURL, generateToken) == NewClient(Some(opts), parseURL, generateToken)
  {
  }

  /** With `DisableTokenInit` no token is generated: the call succeeds whatever the token
      service would have done, and installs no token. */
  lemma DisabledTokenInitSkipsToken(opts: ClientCreateOptions, parseURL: string -> URLParts,
                                    generateToken: Client -> Result<string>)
    requires opts.disableTokenInit
    ensures NewClient(Some(opts), parseURL, generateToken).Success?
    ensures NewClient(Some(opts), parseURL, generateToken).value.token.None?
  {
  }

  /** Otherwise the call fails exactly when the token service fails on the configured client,
      with that error wrapped as on line 74, and on success installs the token the service
      returned (lines 71-78). */
  lemma TokenOutcome(opts: Option<ClientCreateOptions>, parseURL: string -> URLParts,
                     generateToken: Client -> Result<string>)
    requires !OptionsOrZero(opts).disableTokenInit
    ensures var r := NewClient(opts, parseURL, generateToken);
      var g := generateToken(UpdateHostURL(Configured(opts, parseURL)));
      && (r.Failure? <==> g.Failure?)
      && (r.Failure? ==> r.error == Error("failed to generate metadata token: " + g.error.message))
      && (r.Success? ==> r.value.token == Some(g.value))
  {
  }

  /** `SetBaseURL` on a client that has its HTTP client. */
  function SetBaseURL(c: Client, u: URLParts): (d: Client)
    requires !c.transport.NoTransport?
    ensures d.apiBaseURL == u.hostPath && d.apiProtocol == u.scheme && d.apiVersion == c.apiVersion
    ensures d.hostURL == Some(HostURLOf(d))
    ensures d.transport == c.transport && d.token == c.token
  {
    UpdateHostURL(c.(apiBaseURL := u.hostPath, apiProtocol := u.scheme))
  }

  /** `SetVersion` on a client that has its HTTP client. */
  function SetVersion(c: Client, version: string): (d: Client)
    requires !c.transport.NoTransport?
    ensures d.apiVersion == version && d.apiBaseURL == c.apiBaseURL && d.apiProtocol == c.apiProtocol
    ensures d.hostURL == Some(HostURLOf(d))
    ensures d.transport == c.transport && d.token == c.token
  {
    UpdateHostURL(c.(apiVersion := version))
  }

  /** The written setters and the corrected ones agree on a client that has its HTTP client. */
  lemma SettersAgreeOnceBuilt(c: Client, u: URLParts, version: string)
    requires !c.transport.NoTransport?
    ensures SetBaseURLAsWritten(c, u) == Created(SetBaseURL(c, u))
    ensures SetVersionAsWritten(c, version) == Created(SetVersion(c, version))
  {
  }
}
