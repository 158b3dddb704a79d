/** The configuration side of the API client (client.go): the host URL composed from the
    client's settings, the resource table, the retry-conditional list, the poll delay and the
    `copy*` helpers. The HTTP client the Go code drives is reduced to the settings it holds. */
module LinodeClient {
  import opened Results
  import opened HostURLs

  // client.go lines 24, 30, 34 and 40
  const APIHost := "api.linode.com"
  const APIVersion := "v4"
  const APIProto := "https"

  /** `time.Second`, in nanoseconds, the unit of Go's `time.Duration`. */
  const Second := 1_000_000_000
  const APIRetryMaxWaitTime := 30 * Second

  const Defaults := HostParts(APIProto, APIHost, APIVersion)

  /** The retry conditions the client can hold. The four built-in ones are named here; what
      each one tests is decided in retries.go, which is not part of this model. */
  datatype RetryConditional = LinodeBusy | TooManyRequests | ServiceUnavailable | RequestTimeout | Custom(name: string)

  /** An API resource: its name and endpoint template. */
  datatype Resource = Resource(name: string, endpoint: string)

  /** The client's state. `hostURL` and `retryMaxWaitTime` stand for what the Go code hands to
      its HTTP client (`SetHostURL`, `SetRetryMaxWaitTime`); durations are in nanoseconds. */
  datatype Client = Client(
    baseURL: string,
    apiVersion: string,
    apiProto: string,
    hostURL: string,
    resources: map<string, Resource>,
    retryConditionals: seq<RetryConditional>,
    retryMaxWaitTime: int,
    pollDelay: int)

  /** The host URL agrees with the three settings. */
  predicate HostURLCurrent(c: Client)
  {
    c.hostURL == Render(Resolve(c.baseURL, c.apiVersion, c.apiProto, Defaults))
  }

  /** `updateHostURL` (lines 199-217): recompute the host URL from the settings, each empty
      one replaced by its default; nothing else changes. */
  function UpdateHostURL(c: Client): (d: Client)
    ensures HostURLCurrent(d)
    ensures d.(hostURL := c.hostURL) == c
  {
    c.(hostURL := Render(Resolve(c.baseURL, c.apiVersion, c.apiProto, Defaults)))
  }

  /** With no setting at all the client talks to `https://api.linode.com/v4`. */
  lemma DefaultHostURL(c: Client)
    requires c.baseURL == "" && c.apiVersion == "" && c.apiProto == ""
    ensures UpdateHostURL(c).hostURL == "https://api.linode.com/v4"
  {
    NoSettingsGiveDefaults(Defaults);
  }

  /** `SetAPIVersion` (lines 191-197): the version is set, the URL recomputed, and the base
      URL and protocol are left alone. */
  function SetAPIVersion(c: Client, apiVersion: string): (d: Client)
    ensures d.apiVersion == apiVersion
    ensures d.baseURL == c.baseURL && d.apiProto == c.apiProto
    ensures HostURLCurrent(d)
    ensures d.resources == c.resources && d.retryConditionals == c.retryConditionals
    ensures d.retryMaxWaitTime == c.retryMaxWaitTime && d.pollDelay == c.pollDelay
  {
    UpdateHostURL(c.(apiVersion := apiVersion))
  }

  /** `SetBaseURL` (lines 179-188), on a URL already split into its scheme and its joined
      host and path: both are stored, the URL recomputed, and the version left alone. */
  function SetBaseURL(c: Client, scheme: string, hostPath: string): (d: Client)
    ensures d.baseURL == hostPath && d.apiProto == scheme
    ensures d.apiVersion == c.apiVersion
    ensures HostURLCurrent(d)
    ensures d.resources == c.resources && d.retryConditionals == c.retryConditionals
    ensures d.retryMaxWaitTime == c.retryMaxWaitTime && d.pollDelay == c.pollDelay
  {
    UpdateHostURL(c.(baseURL := hostPath, apiProto := scheme))
  }

  /** A base URL given without a scheme keeps the default `https`. */
  lemma SchemelessBaseURLKeepsHTTPS(c: Client, hostPath: string)
    ensures SetBaseURL(c, "", hostPath).hostURL == "https://" + Effective(hostPath, APIHost) + "/" + Effective(c.apiVersion, APIVersion)
  {
  }

  /** Setting the base URL and the version commute: the order of the two calls does not matter. */
  lemma BaseURLAndVersionCommute(c: Client, scheme: string, hostPath: string, apiVersion: string)
    ensures SetAPIVersion(SetBaseURL(c, scheme, hostPath), apiVersion) == SetBaseURL(SetAPIVersion(c, apiVersion), scheme, hostPath)
  {
  }

  /** `copyBool`, `copyInt`, `copyString` and `copyTime` (lines 540-578): nil stays nil, and
      anything else becomes a new pointer holding an equal value. */
  function Copy<T>(p: Option<T>): (q: Option<T>)
    ensures p.None? <==> q.None?
    ensures p.Some? ==> q.value == p.value
  {
    match p
    case None => None
    case Some(v) => Some(v)
  }

  /** `Resource` (lines 294-301): a registered name gives its resource; any other name ends
      the process with the message below, modelled as a failure. */
  function LookupResource(c: Client, name: string): (r: Result<Resource>)
    ensures r.Success? <==> name in c.resources
    ensures r.Success? ==> r.value == c.resources[name]
    ensures r.Failure? ==> r.error.message == "Could not find resource named '" + name + "', exiting."
  {
    if name in c.resources then Success(c.resources[name])
    else Failure(Error("Could not find resource named '" + name + "', exiting."))
  }

  /** `addRetryConditional` (lines 250-253): the new conditional goes at the end and the
      earlier ones stay where they were. */
  function AddRetryConditional(c: Client, rc: RetryConditional): (d: Client)
    ensures |d.retryConditionals| == |c.retryConditionals| + 1
    ensures d.retryConditionals[..|c.retryConditionals|] == c.retryConditionals
    ensures Last(d.retryConditionals) == rc
    ensures d.(retryConditionals := c.retryConditionals) == c
  {
    c.(retryConditionals := c.retryConditionals + [rc])
  }

  /** `SetRetries` (lines 233-242): the busy, 429, 503 and request-timeout conditionals are
      added after any already present, in that order, and the maximum wait becomes 30s.
      `configureRetries` (retries.go) is not part of this model. */
  function SetRetries(c: Client): (d: Client)
    ensures d.retryConditionals == c.retryConditionals + [LinodeBusy, TooManyRequests, ServiceUnavailable, RequestTimeout]
    ensures d.retryMaxWaitTime == APIRetryMaxWaitTime
    ensures d.(retryConditionals := c.retryConditionals, retryMaxWaitTime := c.retryMaxWaitTime) == c
  {
    var d := AddRetryConditional(AddRetryConditional(AddRetryConditional(AddRetryConditional(c, LinodeBusy), TooManyRequests), ServiceUnavailable), RequestTimeout);
    d.(retryMaxWaitTime := APIRetryMaxWaitTime)
  }

  /** `SetPollDelay` (lines 282-285). */
  function SetPollDelay(c: Client, delay: int): (d: Client)
    ensures GetPollDelay(d) == delay
    ensures d.(pollDelay := c.pollDelay) == c
  {
    c.(pollDelay := delay)
  }

  /** `GetPollDelay` (lines 289-291). */
  function GetPollDelay(c: Client): int
  {
    c.pollDelay
  }

  /** The client after `SetPollDelay` with each delay in turn. */
  function SetPollDelays(c: Client, delays: seq<int>): Client
    decreases |delays|
  {
    if |delays| == 0 then c else SetPollDelays(SetPollDelay(c, delays[0]), delays[1..])
  }

  /** After any run of `SetPollDelay` calls, `GetPollDelay` returns the last delay set, and
      a client no call was made on keeps its delay. */
  lemma {:induction false} LastPollDelayWins(c: Client, delays: seq<int>)
    ensures |delays| > 0 ==> GetPollDelay(SetPollDelays(c, delays)) == Last(delays)
    ensures |delays| == 0 ==> GetPollDelay(SetPollDelays(c, delays)) == GetPollDelay(c)
    ensures SetPollDelays(c, delays).(pollDelay := c.pollDelay) == c
    decreases |delays|
  {
    if |delays| > 0 {
      LastPollDelayWins(SetPollDelay(c, delays[0]), delays[1..]);
      if |delays| > 1 {
        assert Last(delays[1..]) == Last(delays);
      }
    }
  }
}
