/** `providerConfigure`: builds a first-pass client from the policy options,
    resolves the organisation to bind (explicit, inferred from a zone, or
    none), and rebuilds the client with the organisation and a composed user
    agent. */
module Provider {
  import opened Wrappers
  import opened Text
  import opened Options
  import opened Api

  /** Facts about the host process: Terraform's HTTP user agent
      (`httpclient.UserAgentString()`) and the provider's version
      (`version.ProviderVersion`). */
  datatype Host = Host(terraformUserAgent: string, providerVersion: string)

  const ProductToken := "terraform-provider-cloudflare/"

  /** Where the organisation comes from, decided from the configuration
      alone: `org_id` when set, otherwise `use_org_from_zone` when set. */
  datatype OrgSource = Explicit(orgId: string) | FromZone(zoneName: string) | Unset

  function OrgSourceOf(d: ResourceData): (s: OrgSource)
    ensures s.Explicit? <==> d.orgId != ""
    ensures s.Explicit? ==> s.orgId == d.orgId
    ensures s.FromZone? <==> d.orgId == "" && d.useOrgFromZone != ""
    ensures s.FromZone? ==> s.zoneName == d.useOrgFromZone
  {
    match GetOk(d.orgId)
    case Some(orgId) => Explicit(orgId)
    case None =>
      match GetOk(d.useOrgFromZone)
      case Some(zoneName) => FromZone(zoneName)
      case None => Unset
  }

  /** The outcome of the zone-based lookups: the organisation to bind, if
      any, or the error that aborts configuration; and the calls made. */
  datatype Resolution = Resolution(result: Result<Option<string>, Error>, calls: seq<Call>)

  /** Infers the organisation from the owner of zone `zoneName`: zone ID,
      then zone details, then the caller's organisations. */
  function OrgFromZone(api: Api, client: Client, zoneName: string): (r: Resolution)
    ensures 1 <= |r.calls| <= 3
    ensures r.calls[0] == ZoneIdByName(zoneName)
    ensures forall k :: 0 <= k < |r.calls| ==> IsLookup(r.calls[k])
    ensures r.result.Success? ==> |r.calls| == 3
  {
    match api.zoneIdByName(client, zoneName)
    case Failure(e) => Resolution(Failure(FindingZone(zoneName, e)), [ZoneIdByName(zoneName)])
    case Success(zoneId) =>
      match api.zoneDetails(client, zoneId)
      case Failure(e) => Resolution(Failure(e), [ZoneIdByName(zoneName), ZoneDetails(zoneId)])
      case Success(zone) =>
        var calls := [ZoneIdByName(zoneName), ZoneDetails(zoneId), ListOrganizations];
        match api.listOrganizations(client)
        case Failure(e) => Resolution(Failure(ListingOrganizations(e)), calls)
        case Success(orgs) =>
          if Contains(CandidateIds(orgs), zone.owner.id) then
            Resolution(Success(Some(zone.owner.id)), calls)
          else
            Resolution(Success(None), calls)
  }

  /** The user agent of the second-pass client: the first-pass client's user
      agent, Terraform's user agent and the product token with the provider
      version, space separated, with outer white space trimmed. */
  function ComposeUserAgent(clientUserAgent: string, host: Host): (ua: string)
    ensures NoOuterSpace(ua)
  {
    var providerUserAgent := host.terraformUserAgent + " " + ProductToken + host.providerVersion;
    TrimSpaceTrims(clientUserAgent + " " + providerUserAgent);
    TrimSpace(clientUserAgent + " " + providerUserAgent)
  }

  /** A client together with the options it was built from. */
  datatype Configured = Configured(client: Client, options: seq<ClientOption>)

  /** The outcome of `providerConfigure` and the calls it made, in order. */
  datatype Run = Run(result: Result<Configured, Error>, calls: seq<Call>)

  /** The second pass: append the user agent and build the final client. */
  function Rebuild(api: Api, creds: Credentials, client: Client, options: seq<ClientOption>,
                   host: Host, calls: seq<Call>): (r: Run)
    ensures |r.calls| == |calls| + 1 && r.calls[..|calls|] == calls
    ensures r.calls[|calls|] == NewClient(options + [UserAgent(ComposeUserAgent(client.userAgent, host))])
  {
    var final := options + [UserAgent(ComposeUserAgent(client.userAgent, host))];
    var calls' := calls + [NewClient(final)];
    match api.newClient(creds, final)
    case Failure(e) => Run(Failure(e), calls')
    case Success(c) => Run(Success(Configured(c, final)), calls')
  }

  /** `providerConfigure`. */
  function ProviderConfigure(d: ResourceData, api: Api, host: Host): Run {
    var base := BaseOptions(d);
    var creds := Credentials(d.email, d.token);
    match api.newClient(creds, base)
    case Failure(e) => Run(Failure(e), [NewClient(base)])
    case Success(client) =>
      match OrgSourceOf(d)
      case Unset => Run(Success(Configured(client, base)), [NewClient(base)])
      case Explicit(orgId) =>
        Rebuild(api, creds, client, base + [UsingOrganization(orgId)], host, [NewClient(base)])
      case FromZone(zoneName) =>
        var res := OrgFromZone(api, client, zoneName);
        var calls := [NewClient(base)] + res.calls;
        match res.result
        case Failure(e) => Run(Failure(e), calls)
        case Success(owner) =>
          var options := if owner.Some? then base + [UsingOrganization(owner.value)] else base;
          Rebuild(api, creds, client, options, host, calls)
  }
}
