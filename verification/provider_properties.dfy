/** What `providerConfigure` promises its caller: the precedence of the
    organisation sources, the order and abortion of the lookups, the soft
    fallback, the append-only option list and the user-agent format. */
module ProviderProperties {
  import opened Wrappers
  import opened Text
  import opened Options
  import opened Api
  import opened Provider

  function CredentialsOf(d: ResourceData): Credentials {
    Credentials(d.email, d.token)
  }

  /** The caller's view of a client build from `options`. */
  function Attach(built: Result<Client, Error>, options: seq<ClientOption>): Result<Configured, Error> {
    match built
    case Success(c) => Success(Configured(c, options))
    case Failure(e) => Failure(e)
  }

  /** The second-pass option list: the base options, the organisation when
      one is bound, and the user agent. */
  function FinalOptions(d: ResourceData, org: Option<string>, ua: string): seq<ClientOption> {
    BaseOptions(d) + (match org case Some(id) => [UsingOrganization(id)] case None => []) + [UserAgent(ua)]
  }

  /** The user agent the second pass appends. */
  function SecondPassUserAgent(d: ResourceData, api: Api, host: Host): string
    requires api.newClient(CredentialsOf(d), BaseOptions(d)).Success?
  {
    ComposeUserAgent(api.newClient(CredentialsOf(d), BaseOptions(d)).value.userAgent, host)
  }

  /** A failing first build is returned as is, and nothing else is called. */
  lemma FirstBuildFailureAborts(d: ResourceData, api: Api, host: Host)
    requires api.newClient(CredentialsOf(d), BaseOptions(d)).Failure?
    ensures ProviderConfigure(d, api, host)
         == Run(Failure(api.newClient(CredentialsOf(d), BaseOptions(d)).error), [NewClient(BaseOptions(d))])
  {
  }

  /** With neither `org_id` nor `use_org_from_zone`, the first-pass client
      and its options are returned: no lookup, no user agent, no rebuild. */
  lemma UnsetReturnsFirstClient(d: ResourceData, api: Api, host: Host)
    requires d.orgId == "" && d.useOrgFromZone == ""
    requires api.newClient(CredentialsOf(d), BaseOptions(d)).Success?
    ensures ProviderConfigure(d, api, host) == Run(
      Success(Configured(api.newClient(CredentialsOf(d), BaseOptions(d)).value, BaseOptions(d))),
      [NewClient(BaseOptions(d))])
  {
  }

  /** An explicit `org_id` is bound directly: the final options are the base
      options, the organisation and the user agent; no lookup is made. */
  lemma ExplicitOrgBinds(d: ResourceData, api: Api, host: Host)
    requires d.orgId != ""
    requires api.newClient(CredentialsOf(d), BaseOptions(d)).Success?
    ensures var final := FinalOptions(d, Some(d.orgId), SecondPassUserAgent(d, api, host));
            ProviderConfigure(d, api, host)
              == Run(Attach(api.newClient(CredentialsOf(d), final), final), [NewClient(BaseOptions(d)), NewClient(final)])
  {
    var first := api.newClient(CredentialsOf(d), BaseOptions(d)).value;
    RebuildOutcome(api, CredentialsOf(d), first, BaseOptions(d) + [UsingOrganization(d.orgId)], host, [NewClient(BaseOptions(d))]);
  }

  /** With `org_id` set, neither `use_org_from_zone` nor any lookup answer can
      change the outcome. */
  lemma ExplicitOrgIgnoresZone(d: ResourceData, api: Api, host: Host, zoneName: string,
                               zoneIdByName: (Client, string) -> Result<string, Error>,
                               zoneDetails: (Client, string) -> Result<Zone, Error>,
                               listOrganizations: Client -> Result<seq<Organization>, Error>)
    requires d.orgId != ""
    ensures ProviderConfigure(d, api, host)
         == ProviderConfigure(d.(useOrgFromZone := zoneName),
                              Api(api.newClient, zoneIdByName, zoneDetails, listOrganizations), host)
  {
  }

  /** A zone name that does not resolve aborts with the zone named in the
      error, after the zone-ID lookup only. */
  lemma ZoneIdFailureAborts(d: ResourceData, api: Api, host: Host)
    requires d.orgId == "" && d.useOrgFromZone != ""
    requires api.newClient(CredentialsOf(d), BaseOptions(d)).Success?
    requires api.zoneIdByName(api.newClient(CredentialsOf(d), BaseOptions(d)).value, d.useOrgFromZone).Failure?
    ensures var first := api.newClient(CredentialsOf(d), BaseOptions(d)).value;
            ProviderConfigure(d, api, host) == Run(
              Failure(FindingZone(d.useOrgFromZone, api.zoneIdByName(first, d.useOrgFromZone).error)),
              [NewClient(BaseOptions(d)), ZoneIdByName(d.useOrgFromZone)])
  {
  }

  /** A zone-details failure aborts with that error unchanged, after the
      zone-ID and details lookups. */
  lemma ZoneDetailsFailureAborts(d: ResourceData, api: Api, host: Host)
    requires d.orgId == "" && d.useOrgFromZone != ""
    requires api.newClient(CredentialsOf(d), BaseOptions(d)).Success?
    requires api.zoneIdByName(api.newClient(CredentialsOf(d), BaseOptions(d)).value, d.useOrgFromZone).Success?
    requires var first := api.newClient(CredentialsOf(d), BaseOptions(d)).value;
             api.zoneDetails(first, api.zoneIdByName(first, d.useOrgFromZone).value).Failure?
    ensures var first := api.newClient(CredentialsOf(d), BaseOptions(d)).value;
            var zoneId := api.zoneIdByName(first, d.useOrgFromZone).value;
            ProviderConfigure(d, api, host) == Run(
              Failure(api.zoneDetails(first, zoneId).error),
              [NewClient(BaseOptions(d)), ZoneIdByName(d.useOrgFromZone), ZoneDetails(zoneId)])
  {
  }

  /** An organisation-listing failure aborts with the error wrapped, after
      all three lookups. */
  lemma ListOrganizationsFailureAborts(d: ResourceData, api: Api, host: Host)
    requires d.orgId == "" && d.useOrgFromZone != ""
    requires api.newClient(CredentialsOf(d), BaseOptions(d)).Success?
    requires api.zoneIdByName(api.newClient(CredentialsOf(d), BaseOptions(d)).value, d.useOrgFromZone).Success?
    requires var first := api.newClient(CredentialsOf(d), BaseOptions(d)).value;
             api.zoneDetails(first, api.zoneIdByName(first, d.useOrgFromZone).value).Success?
    requires api.listOrganizations(api.newClient(CredentialsOf(d), BaseOptions(d)).value).Failure?
    ensures var first := api.newClient(CredentialsOf(d), BaseOptions(d)).value;
            var zoneId := api.zoneIdByName(first, d.useOrgFromZone).value;
            ProviderConfigure(d, api, host) == Run(
              Failure(ListingOrganizations(api.listOrganizations(first).error)),
              [NewClient(BaseOptions(d)), ZoneIdByName(d.useOrgFromZone), ZoneDetails(zoneId), ListOrganizations])
  {
  }

  /** When all three lookups succeed, configuration never fails on account
      of them: the zone owner's organisation is bound exactly when it is
      among the listed organisations (or is empty while the list is not),
      and otherwise nothing is bound; either way the user agent is appended
      and the client rebuilt. */
  lemma ZoneOwnerResolution(d: ResourceData, api: Api, host: Host)
    requires d.orgId == "" && d.useOrgFromZone != ""
    requires api.newClient(CredentialsOf(d), BaseOptions(d)).Success?
    requires api.zoneIdByName(api.newClient(CredentialsOf(d), BaseOptions(d)).value, d.useOrgFromZone).Success?
    requires var first := api.newClient(CredentialsOf(d), BaseOptions(d)).value;
             api.zoneDetails(first, api.zoneIdByName(first, d.useOrgFromZone).value).Success?
    requires api.listOrganizations(api.newClient(CredentialsOf(d), BaseOptions(d)).value).Success?
    ensures var first := api.newClient(CredentialsOf(d), BaseOptions(d)).value;
            var zoneId := api.zoneIdByName(first, d.useOrgFromZone).value;
            var owner := api.zoneDetails(first, zoneId).value.owner.id;
            var orgs := api.listOrganizations(first).value;
            var listed := OwnerListed(orgs, owner);
            var final := FinalOptions(d, if listed then Some(owner) else None, SecondPassUserAgent(d, api, host));
            ProviderConfigure(d, api, host) == Run(
              Attach(api.newClient(CredentialsOf(d), final), final),
              [NewClient(BaseOptions(d)), ZoneIdByName(d.useOrgFromZone), ZoneDetails(zoneId), ListOrganizations,
               NewClient(final)])
  {
    var first := api.newClient(CredentialsOf(d), BaseOptions(d)).value;
    var zoneId := api.zoneIdByName(first, d.useOrgFromZone).value;
    var owner := api.zoneDetails(first, zoneId).value.owner.id;
    var orgs := api.listOrganizations(first).value;
    var base := BaseOptions(d);
    var calls := [ZoneIdByName(d.useOrgFromZone), ZoneDetails(zoneId), ListOrganizations];
    var chosen := if OwnerListed(orgs, owner) then Some(owner) else None;
    assert OrgFromZone(api, first, d.useOrgFromZone) == Resolution(Success(chosen), calls) by {
      OwnerIsCandidate(orgs, owner);
    }
    var options := if chosen.Some? then base + [UsingOrganization(owner)] else base;
    ZonePathRebuilds(d, api, host);
    RebuildOutcome(api, CredentialsOf(d), first, options, host, [NewClient(base)] + calls);
    assert base + [] == base;
    assert options + [UserAgent(SecondPassUserAgent(d, api, host))] == FinalOptions(d, chosen, SecondPassUserAgent(d, api, host));
  }

  /** Once the zone lookups succeed, configuration continues with the second
      pass on the base options plus the organisation found, if any. */
  lemma ZonePathRebuilds(d: ResourceData, api: Api, host: Host)
    requires d.orgId == "" && d.useOrgFromZone != ""
    requires api.newClient(CredentialsOf(d), BaseOptions(d)).Success?
    requires OrgFromZone(api, api.newClient(CredentialsOf(d), BaseOptions(d)).value, d.useOrgFromZone).result.Success?
    ensures var first := api.newClient(CredentialsOf(d), BaseOptions(d)).value;
            var res := OrgFromZone(api, first, d.useOrgFromZone);
            var options := if res.result.value.Some? then BaseOptions(d) + [UsingOrganization(res.result.value.value)]
                           else BaseOptions(d);
            ProviderConfigure(d, api, host)
              == Rebuild(api, CredentialsOf(d), first, options, host, [NewClient(BaseOptions(d))] + res.calls)
  {
  }

  /** The second pass appends the user agent, records one more build and
      returns that build's client with the options it was built from. */
  lemma RebuildOutcome(api: Api, creds: Credentials, client: Client, options: seq<ClientOption>,
                       host: Host, calls: seq<Call>)
    ensures var final := options + [UserAgent(ComposeUserAgent(client.userAgent, host))];
            Rebuild(api, creds, client, options, host, calls)
              == Run(Attach(api.newClient(creds, final), final), calls + [NewClient(final)])
  {
  }

  /** Whatever the inputs: the first call is the first-pass build, a lookup
      is made only on the zone path, at most two clients are built (the first
      and the last call), and every build starts from the base options. */
  lemma CallDiscipline(d: ResourceData, api: Api, host: Host)
    ensures var r := ProviderConfigure(d, api, host);
            && 1 <= |r.calls| <= 5
            && r.calls[0] == NewClient(BaseOptions(d))
            && (forall k :: 0 <= k < |r.calls| && r.calls[k].NewClient? ==> BaseOptions(d) <= r.calls[k].options)
            && (forall k :: 0 <= k < |r.calls| && r.calls[k].NewClient? ==> k == 0 || k == |r.calls| - 1)
            && ((exists k :: 0 <= k < |r.calls| && IsLookup(r.calls[k])) ==> OrgSourceOf(d).FromZone?)
  {
    var base := BaseOptions(d);
    var creds := CredentialsOf(d);
    if api.newClient(creds, base).Success? {
      var first := api.newClient(creds, base).value;
      match OrgSourceOf(d)
      case Unset =>
        UnsetReturnsFirstClient(d, api, host);
      case Explicit(orgId) =>
        ExplicitOrgBinds(d, api, host);
        FinalOptionsExtendBase(d, Some(orgId), SecondPassUserAgent(d, api, host));
      case FromZone(zoneName) =>
        ZonePathCalls(d, api, host);
    }
  }

  /** On the zone path the lookups follow the first build, and a second
      build from an extension of the base options closes the trace when the
      lookups succeed. */
  lemma ZonePathCalls(d: ResourceData, api: Api, host: Host)
    requires d.orgId == "" && d.useOrgFromZone != ""
    requires api.newClient(CredentialsOf(d), BaseOptions(d)).Success?
    ensures var r := ProviderConfigure(d, api, host);
            && 2 <= |r.calls| <= 5
            && r.calls[0] == NewClient(BaseOptions(d))
            && (forall k :: 1 <= k < |r.calls| - 1 ==> IsLookup(r.calls[k]))
            && (r.calls[|r.calls| - 1].NewClient? ==> BaseOptions(d) <= r.calls[|r.calls| - 1].options)
  {
    var base := BaseOptions(d);
    var first := api.newClient(CredentialsOf(d), base).value;
    var res := OrgFromZone(api, first, d.useOrgFromZone);
    var lookups := [NewClient(base)] + res.calls;
    assert forall k :: 1 <= k < |lookups| ==> lookups[k] == res.calls[k - 1];
    if res.result.Success? {
      var options := if res.result.value.Some? then base + [UsingOrganization(res.result.value.value)] else base;
      ZonePathRebuilds(d, api, host);
      RebuildOutcome(api, CredentialsOf(d), first, options, host, lookups);
      assert base <= options;
    }
  }

  /** A returned client is the one built by the last call, from exactly the
      options returned with it. */
  lemma ReturnedClientIsLastBuilt(d: ResourceData, api: Api, host: Host)
    ensures var r := ProviderConfigure(d, api, host);
            r.result.Success? ==>
              && |r.calls| > 0
              && r.calls[|r.calls| - 1] == NewClient(r.result.value.options)
              && api.newClient(CredentialsOf(d), r.result.value.options) == Success(r.result.value.client)
  {
    var base := BaseOptions(d);
    var creds := CredentialsOf(d);
    if api.newClient(creds, base).Success? {
      var first := api.newClient(creds, base).value;
      match OrgSourceOf(d)
      case Unset =>
        UnsetReturnsFirstClient(d, api, host);
      case Explicit(orgId) =>
        ExplicitOrgBinds(d, api, host);
      case FromZone(zoneName) =>
        var res := OrgFromZone(api, first, zoneName);
        if res.result.Success? {
          var options := if res.result.value.Some? then base + [UsingOrganization(res.result.value.value)] else base;
          ZonePathRebuilds(d, api, host);
          RebuildOutcome(api, creds, first, options, host, [NewClient(base)] + res.calls);
        }
    }
  }

  /** The second-pass options begin with the base options. */
  lemma FinalOptionsExtendBase(d: ResourceData, org: Option<string>, ua: string)
    ensures BaseOptions(d) <= FinalOptions(d, org, ua)
    ensures |FinalOptions(d, org, ua)| == |BaseOptions(d)| + (if org.Some? then 2 else 1)
  {
  }

  /** Applying the second-pass options configures the policy, the given
      organisation (if any) and the given user agent. */
  lemma FinalOptionsSettings(d: ResourceData, org: Option<string>, ua: string)
    ensures Effective(FinalOptions(d, org, ua)) == Settings(
      Some(d.rps), Some((d.retries, d.minBackoff, d.maxBackoff)), d.apiClientLogging, true, org, Some(ua))
  {
    var base := BaseOptions(d);
    BaseOptionsSettings(d);
    var mid := base + (match org case Some(id) => [UsingOrganization(id)] case None => []);
    if org.Some? {
      EffectiveAppend(base, UsingOrganization(org.value));
    } else {
      assert mid == base;
    }
    EffectiveAppend(mid, UserAgent(ua));
  }

  /** The organisation the answers of the three lookups designate: the zone
      owner when it is listed among the organisations, and none otherwise or
      when a lookup fails. */
  function ListedZoneOwner(api: Api, client: Client, zoneName: string): Option<string> {
    match api.zoneIdByName(client, zoneName)
    case Failure(_) => None
    case Success(zoneId) =>
      match api.zoneDetails(client, zoneId)
      case Failure(_) => None
      case Success(zone) =>
        match api.listOrganizations(client)
        case Failure(_) => None
        case Success(orgs) => if OwnerListed(orgs, zone.owner.id) then Some(zone.owner.id) else None
  }

  /** When the zone path reaches a decision, it binds the listed zone owner. */
  lemma OrgFromZoneBindsListedOwner(api: Api, client: Client, zoneName: string)
    ensures var res := OrgFromZone(api, client, zoneName);
            res.result.Success? ==> res.result.value == ListedZoneOwner(api, client, zoneName)
  {
    var res := OrgFromZone(api, client, zoneName);
    if res.result.Success? {
      var zoneId := api.zoneIdByName(client, zoneName).value;
      OwnerIsCandidate(api.listOrganizations(client).value, api.zoneDetails(client, zoneId).value.owner.id);
    }
  }

  /** The organisation the final client is bound to when configuration gets
      that far: `org_id` when set, otherwise the zone owner when it is listed. */
  function BoundOrg(d: ResourceData, api: Api): Option<string> {
    match OrgSourceOf(d)
    case Unset => None
    case Explicit(id) => Some(id)
    case FromZone(zoneName) =>
      match api.newClient(CredentialsOf(d), BaseOptions(d))
      case Failure(_) => None
      case Success(first) => ListedZoneOwner(api, first, zoneName)
  }

  /** A successful configuration returns the base options when no
      organisation source is configured, and the second-pass options with the
      bound organisation otherwise. */
  lemma SuccessfulOptions(d: ResourceData, api: Api, host: Host)
    ensures var r := ProviderConfigure(d, api, host);
            r.result.Success? ==>
              && api.newClient(CredentialsOf(d), BaseOptions(d)).Success?
              && r.result.value.options
                 == if OrgSourceOf(d).Unset? then BaseOptions(d)
                    else FinalOptions(d, BoundOrg(d, api), SecondPassUserAgent(d, api, host))
  {
    var base := BaseOptions(d);
    var creds := CredentialsOf(d);
    if api.newClient(creds, base).Success? {
      var first := api.newClient(creds, base).value;
      match OrgSourceOf(d)
      case Unset =>
        UnsetReturnsFirstClient(d, api, host);
      case Explicit(orgId) =>
        ExplicitOrgBinds(d, api, host);
      case FromZone(zoneName) =>
        var res := OrgFromZone(api, first, zoneName);
        if res.result.Success? {
          var org := res.result.value;
          var options := if org.Some? then base + [UsingOrganization(org.value)] else base;
          OrgFromZoneBindsListedOwner(api, first, zoneName);
          ZonePathRebuilds(d, api, host);
          RebuildOutcome(api, creds, first, options, host, [NewClient(base)] + res.calls);
          assert base + [] == base;
          assert options + [UserAgent(SecondPassUserAgent(d, api, host))]
              == FinalOptions(d, org, SecondPassUserAgent(d, api, host));
        }
    }
  }

  /** The option list only grows: on success it is the base options followed
      by at most one organisation option and then, unless no organisation
      source was configured, the composed user agent as the last option. */
  lemma OptionsAppendOnly(d: ResourceData, api: Api, host: Host)
    ensures var r := ProviderConfigure(d, api, host);
            r.result.Success? ==>
              var base := BaseOptions(d);
              var opts := r.result.value.options;
              var first := api.newClient(CredentialsOf(d), base).value;
              && api.newClient(CredentialsOf(d), base).Success?
              && base <= opts
              && |opts| <= |base| + 2
              && (|opts| == |base| <==> OrgSourceOf(d).Unset?)
              && (|opts| > |base| ==> opts[|opts| - 1] == UserAgent(ComposeUserAgent(first.userAgent, host)))
              && (|opts| == |base| + 2 ==> opts[|base|].UsingOrganization?)
              && (OrgSourceOf(d).Explicit? ==> opts[|base|] == UsingOrganization(d.orgId))
  {
    var r := ProviderConfigure(d, api, host);
    SuccessfulOptions(d, api, host);
    if r.result.Success? && !OrgSourceOf(d).Unset? {
      FinalOptionsExtendBase(d, BoundOrg(d, api), SecondPassUserAgent(d, api, host));
    }
  }

  /** On success the final client carries the configured policy, the bound
      organisation (`org_id` when given) and the composed user agent; with no
      organisation source it carries neither an organisation nor a user agent. */
  lemma FinalSettings(d: ResourceData, api: Api, host: Host)
    ensures var r := ProviderConfigure(d, api, host);
            r.result.Success? ==>
              var s := Effective(r.result.value.options);
              var first := api.newClient(CredentialsOf(d), BaseOptions(d)).value;
              && s.rateLimit == Some(d.rps)
              && s.retryPolicy == Some((d.retries, d.minBackoff, d.maxBackoff))
              && s.logger == d.apiClientLogging
              && s.httpClient
              && s.organizationId == BoundOrg(d, api)
              && (OrgSourceOf(d).Explicit? ==> s.organizationId == Some(d.orgId))
              && (OrgSourceOf(d).Unset? ==> s.userAgent.None?)
              && (!OrgSourceOf(d).Unset? ==> s.userAgent == Some(ComposeUserAgent(first.userAgent, host)))
  {
    var r := ProviderConfigure(d, api, host);
    SuccessfulOptions(d, api, host);
    if r.result.Success? {
      if OrgSourceOf(d).Unset? {
        BaseOptionsSettings(d);
      } else {
        FinalOptionsSettings(d, BoundOrg(d, api), SecondPassUserAgent(d, api, host));
      }
    }
  }

  /** With a first-pass user agent that starts with a non-space character and
      a version that does not end in one, nothing is trimmed: the client's
      user agent comes first, then Terraform's, then the product token. */
  lemma UserAgentLayout(clientUserAgent: string, host: Host)
    requires |clientUserAgent| > 0 && !IsSpace(clientUserAgent[0])
    requires |host.providerVersion| == 0 || !IsSpace(host.providerVersion[|host.providerVersion| - 1])
    ensures ComposeUserAgent(clientUserAgent, host)
         == clientUserAgent + " " + host.terraformUserAgent + " " + ProductToken + host.providerVersion
  {
    var s := clientUserAgent + " " + (host.terraformUserAgent + " " + ProductToken + host.providerVersion);
    assert s[0] == clientUserAgent[0];
    assert s[|s| - 1] == (ProductToken + host.providerVersion)[|ProductToken + host.providerVersion| - 1];
    TrimSpaceNoop(s);
  }

  /** Whatever the client's and Terraform's user agents, the composed one ends
      with the product token and the version (when the version does not end in
      white space). */
  lemma UserAgentEndsWithProduct(clientUserAgent: string, host: Host)
    requires |host.providerVersion| == 0 || !IsSpace(host.providerVersion[|host.providerVersion| - 1])
    ensures var ua := ComposeUserAgent(clientUserAgent, host);
            var product := ProductToken + host.providerVersion;
            |product| <= |ua| && ua[|ua| - |product|..] == product
  {
    var product := ProductToken + host.providerVersion;
    var prefix := clientUserAgent + " " + host.terraformUserAgent + " ";
    JoinRegroup(clientUserAgent, host.terraformUserAgent, ProductToken, host.providerVersion);
    ProductFirstLast(host.providerVersion);
    TrimSpaceKeepsAppended(prefix, product);
  }

  lemma JoinRegroup(a: string, b: string, c: string, v: string)
    ensures a + " " + (b + " " + c + v) == (a + " " + b + " ") + (c + v)
  {
  }

  lemma TrimSpaceKeepsAppended(prefix: string, w: string)
    requires |w| > 0 && NoOuterSpace(w)
    ensures |w| <= |TrimSpace(prefix + w)|
    ensures TrimSpace(prefix + w)[|TrimSpace(prefix + w)| - |w|..] == w
  {
    var s := prefix + w;
    assert s[|s| - |w|..] == w;
    TrimSpaceKeepsSuffix(s, w);
  }

  lemma ProductFirstLast(version: string)
    requires |version| == 0 || !IsSpace(version[|version| - 1])
    ensures NoOuterSpace(ProductToken + version) && |ProductToken + version| > 0
  {
    var product := ProductToken + version;
    assert product[0] == ProductToken[0] == 't';
    if |version| == 0 {
      assert product == ProductToken;
    } else {
      assert product[|product| - 1] == version[|version| - 1];
    }
  }

  /** The components are joined as the code writes them, so an empty
      Terraform user agent leaves two spaces between the client's user agent
      and the product token. */
  lemma UserAgentEmptyTerraformPart(clientUserAgent: string, version: string)
    requires |clientUserAgent| > 0 && !IsSpace(clientUserAgent[0])
    requires |version| == 0 || !IsSpace(version[|version| - 1])
    ensures ComposeUserAgent(clientUserAgent, Host("", version)) == clientUserAgent + "  " + ProductToken + version
  {
    UserAgentLayout(clientUserAgent, Host("", version));
    assert clientUserAgent + " " + "" + " " == clientUserAgent + "  ";
  }

  /** A remote side where "example.com" is zone "z1", owned by "org1", and
      the caller sees the organisations `visible`. */
  function ExampleApi(visible: seq<Organization>): Api {
    Api(
      (creds: Credentials, options: seq<ClientOption>) => Success(Client(0, "cloudflare-go")),
      (c: Client, name: string) => if name == "example.com" then Success("z1") else Failure(Remote("zone not found")),
      (c: Client, id: string) => Success(Zone(id, "example.com", Owner("org1", "Org One"))),
      (c: Client) => Success(visible))
  }

  /** The owner "org1" is bound when it is among the caller's organisations,
      and the lookup falls back to no organisation, without an error, when it
      is not. */
  lemma ExampleZoneScenarios(client: Client)
    ensures OrgFromZone(ExampleApi([Organization("org1", ""), Organization("org2", "")]), client, "example.com").result
         == Success(Some("org1"))
    ensures OrgFromZone(ExampleApi([Organization("org2", ""), Organization("org3", "")]), client, "example.com").result
         == Success(None)
    ensures OrgFromZone(ExampleApi([]), client, "example.org").result
         == Failure(FindingZone("example.org", Remote("zone not found")))
  {
  }

  /** The same scenarios for the whole configuration: with `org_id` unset
      and `use_org_from_zone` naming "example.com", org1 is bound and the
      client rebuilt when org1 is listed; when it is not, the client is
      rebuilt without an organisation and configuration succeeds; a zone
      that does not resolve fails the configuration after one lookup. */
  lemma ExampleConfigurations(d: ResourceData, host: Host)
    requires d.orgId == ""
    ensures var d1 := d.(useOrgFromZone := "example.com");
            ProviderConfigure(d1, ExampleApi([Organization("org1", ""), Organization("org2", "")]), host).result
              == Success(Configured(Client(0, "cloudflare-go"),
                                    FinalOptions(d1, Some("org1"), ComposeUserAgent("cloudflare-go", host))))
    ensures var d1 := d.(useOrgFromZone := "example.com");
            ProviderConfigure(d1, ExampleApi([Organization("org2", ""), Organization("org3", "")]), host).result
              == Success(Configured(Client(0, "cloudflare-go"),
                                    FinalOptions(d1, None, ComposeUserAgent("cloudflare-go", host))))
    ensures var d2 := d.(useOrgFromZone := "example.org");
            ProviderConfigure(d2, ExampleApi([]), host)
              == Run(Failure(FindingZone("example.org", Remote("zone not found"))),
                     [NewClient(BaseOptions(d2)), ZoneIdByName("example.org")])
  {
    var d1 := d.(useOrgFromZone := "example.com");
    var listed := [Organization("org1", ""), Organization("org2", "")];
    var unlisted := [Organization("org2", ""), Organization("org3", "")];
    assert listed[0].id == "org1";
    ZoneOwnerResolution(d1, ExampleApi(listed), host);
    assert !OwnerListed(unlisted, "org1") by {
      assert unlisted[0].id == "org2" && unlisted[1].id == "org3";
    }
    ZoneOwnerResolution(d1, ExampleApi(unlisted), host);
    ZoneIdFailureAborts(d.(useOrgFromZone := "example.org"), ExampleApi([]), host);
  }
}
