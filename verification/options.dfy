/** The cloudflare-go client options `providerConfigure` assembles, and the
    settings an option list denotes when the client applies it in order. */
module Options {
  import opened Wrappers

  /** One `cloudflare.Option`. The logger and the HTTP client are opaque:
      only their presence matters here. */
  datatype ClientOption =
    | RateLimit(rps: int)                                        // cloudflare.UsingRateLimit
    | RetryPolicy(maxRetries: int, minBackoff: int, maxBackoff: int) // cloudflare.UsingRetryPolicy
    | Logger                                                     // cloudflare.UsingLogger(stderr logger)
    | HTTPClient                                                 // cloudflare.HTTPClient(logging transport)
    | UsingOrganization(orgId: string)                           // cloudflare.UsingOrganization
    | UserAgent(userAgent: string)                               // cloudflare.UserAgent

  /** The configuration values `providerConfigure` reads from its
      `schema.ResourceData`, already resolved from the schema and environment.
      An empty string is an unset optional key. */
  datatype ResourceData = ResourceData(
    email: string,
    token: string,
    rps: int,
    retries: int,
    minBackoff: int,
    maxBackoff: int,
    apiClientLogging: bool,
    orgId: string,
    useOrgFromZone: string)

  /** `d.GetOk(key)` on a string key: the zero value counts as unset. */
  function GetOk(value: string): (r: Option<string>)
    ensures r.Some? <==> value != ""
    ensures r.Some? ==> r.value == value
  {
    if value == "" then None else Some(value)
  }

  /** The first-pass option list: rate limit, retry policy, the logger when
      client logging is enabled, and the HTTP client. */
  function BaseOptions(d: ResourceData): (opts: seq<ClientOption>)
    ensures |opts| == if d.apiClientLogging then 4 else 3
    ensures opts[0] == RateLimit(d.rps)
    ensures opts[1] == RetryPolicy(d.retries, d.minBackoff, d.maxBackoff)
    ensures opts[|opts| - 1] == HTTPClient
    ensures Logger in opts <==> d.apiClientLogging
    ensures forall o :: o in opts ==> !o.UsingOrganization? && !o.UserAgent?
  {
    var head := [RateLimit(d.rps), RetryPolicy(d.retries, d.minBackoff, d.maxBackoff)];
    var logged := if d.apiClientLogging then head + [Logger] else head;
    logged + [HTTPClient]
  }

  /** What a client built from a list of options is configured with. `None`
      and `false` stand for the library's own default. */
  datatype Settings = Settings(
    rateLimit: Option<int>,
    retryPolicy: Option<(int, int, int)>,
    logger: bool,
    httpClient: bool,
    organizationId: Option<string>,
    userAgent: Option<string>)

  const Defaults := Settings(None, None, false, false, None, None)

  /** The effect of one option: it overwrites the setting it names. */
  function Apply(s: Settings, o: ClientOption): Settings {
    match o
    case RateLimit(rps) => s.(rateLimit := Some(rps))
    case RetryPolicy(n, lo, hi) => s.(retryPolicy := Some((n, lo, hi)))
    case Logger => s.(logger := true)
    case HTTPClient => s.(httpClient := true)
    case UsingOrganization(id) => s.(organizationId := Some(id))
    case UserAgent(ua) => s.(userAgent := Some(ua))
  }

  /** Options applied in order, so the last option of a kind wins. */
  function Effective(opts: seq<ClientOption>): Settings {
    if |opts| == 0 then Defaults else Apply(Effective(opts[..|opts| - 1]), opts[|opts| - 1])
  }

  /** An option appended after a list overrides only the setting it names. */
  lemma EffectiveAppend(opts: seq<ClientOption>, o: ClientOption)
    ensures Effective(opts + [o]) == Apply(Effective(opts), o)
  {
    assert (opts + [o])[..|opts|] == opts;
  }

  /** Reading the first-pass options back gives exactly the configured policy:
      the rate limit, the retry triple, logging as configured, the HTTP client,
      and no organisation or user agent. */
  lemma BaseOptionsSettings(d: ResourceData)
    ensures Effective(BaseOptions(d)) == Settings(
      Some(d.rps), Some((d.retries, d.minBackoff, d.maxBackoff)), d.apiClientLogging, true, None, None)
  {
    var r1 := RateLimit(d.rps);
    var r2 := RetryPolicy(d.retries, d.minBackoff, d.maxBackoff);
    assert [] + [r1] == [r1];
    EffectiveAppend([], r1);
    EffectiveAppend([r1], r2);
    assert [r1] + [r2] == [r1, r2];
    var logged := if d.apiClientLogging then [r1, r2] + [Logger] else [r1, r2];
    if d.apiClientLogging {
      EffectiveAppend([r1, r2], Logger);
    }
    EffectiveAppend(logged, HTTPClient);
  }
}
