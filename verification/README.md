# Cloudflare provider configuration, modelled in Dafny

This project models `providerConfigure` of the Terraform Cloudflare provider
(`cloudflare/provider.go`). The function turns the provider's resolved
configuration into a ready cloudflare-go API client. It works in four steps:

1. It builds the policy options: rate limit, retry policy, an optional
   request logger, and the HTTP client.
2. It builds a first-pass client from those options.
3. It decides which organisation to bind the client to. An explicit `org_id`
   comes first. Otherwise, when `use_org_from_zone` is set, the organisation
   owning that zone is used, found through three lookups (zone ID, zone
   details, organisation list). Otherwise there is no organisation, and the
   first-pass client is returned as is.
4. When an organisation source was configured, it appends a composed user
   agent and builds the final client.

The model is a pure function, `Provider.ProviderConfigure(d, api, host)`:

- `d` holds the configuration values.
- `api` holds the behaviour of the remote collaborators as function-valued
  fields: `Config.Client()`, `ZoneIDByName`, `ZoneDetails` and
  `ListOrganizations`.
- `host` holds Terraform's user agent and the provider version.

The function returns a `Run`. A `Run` holds the outcome, which is either the
client with the option list it was built from, or an error. It also holds the
ordered trace of the remote calls made. The trace is what lets the properties
say which lookups happen, in what order, and that none happen at all.

Modules, leaf first:

- `Wrappers`: `Option` and `Result`.
- `Text`: Go's `strings.TrimSpace` with the full `unicode.IsSpace` table, and
  the `%q` quoting used in an error message.
- `Options`: the option datatype, the configuration record, `GetOk`, the base
  option builder, and the settings an option list denotes when applied in
  order.
- `Api`: credentials, clients, zones, organisations, errors, the remote
  interface, the `contains` helper, and the owner-ID candidate list.
- `Provider`: the decision pipeline.
- `ProviderProperties`: the lemmas about the pipeline.

Behaviour worth noting. In each case the model follows the code:

- The composed user agent puts the first-pass client's own user agent
  **first**, then Terraform's user agent, then
  `terraform-provider-cloudflare/<version>` (provider.go:186).
- Only the outer white space is trimmed. An empty Terraform user agent
  therefore leaves a double space inside the string
  (`ProviderProperties.UserAgentEmptyTerraformPart`).
- The candidate list for the zone owner is built with
  `make([]string, len(orgs))` and then `append`. It so starts with
  `len(orgs)` empty strings. An empty owner ID is thus "found" whenever at
  least one organisation is listed, and `UsingOrganization("")` is then
  appended. The model keeps this behaviour (`Api.OwnerIsCandidate`).
- With no organisation source configured, the first-pass client is returned
  without a user agent option and without a second build.

## Model

| member | source | states |
|---|---|---|
| Options.GetOk | cloudflare/provider.go:145-148 | An optional string key counts as set exactly when it is non-empty, and its value is then the configured string |
| Options.BaseOptions | cloudflare/provider.go:122-132 | The first-pass options are the rate limit, then the retry policy, then the logger exactly when client logging is on, then the HTTP client, which is always last; there is no organisation or user-agent option among them |
| Options.BaseOptionsSettings | cloudflare/provider.go:122-132 | Applying the base options in order configures exactly the given rps, the retry triple, logging as configured and the HTTP client, and binds no organisation and no user agent |
| Api.Contains | cloudflare/provider.go:171 | The membership test answers true exactly when the ID occurs in the list |
| Api.CollectOrgIds | cloudflare/provider.go:166-169 | The loop yields `len(orgs)` empty strings followed by every organisation ID in order, which is the candidate list |
| Api.OwnerIsCandidate | cloudflare/provider.go:166-171 | The owner is accepted exactly when some listed organisation has its ID, or when the owner ID is empty and at least one organisation was listed |
| Api.Message | cloudflare/provider.go:151-162 | The `Error()` text of each error, with the "error finding zone" and "error listing organizations" wrappings `fmt.Errorf` adds; `Api.ZoneNamedInMessage` states that the zone is recoverable from it |
| Api.ZoneNamedInMessage | cloudflare/provider.go:151 | The "error finding zone" message names the zone, quoted, so that the zone name can be read back from the text whatever the cause |
| Text.TrimSpace | cloudflare/provider.go:186 | Go's `strings.TrimSpace`, as a left trim followed by a right trim; its meaning is stated by `Text.TrimSpaceDrops`, `Text.TrimSpaceUnique` and `Text.TrimSpaceIsInfix` |
| Text.Quote | cloudflare/provider.go:151 | The `%q` rendering of a zone name begins and ends with a double quote; `Text.UnquoteQuote` states that it decodes back to the name |
| Text.TrimSpaceTrims | cloudflare/provider.go:186 | The trimmed user agent has no white space at either end and is no longer than its input |
| Text.TrimSpaceDrops | cloudflare/provider.go:186 | Trimming left then right removes exactly the longest all-space prefix and then the longest all-space suffix of what remains |
| Text.TrimSpaceUnique | cloudflare/provider.go:186 | Trimming removes exactly the outer white space: any infix with no outer white space and only white space around it is the trimmed string |
| Text.TrimSpaceIsInfix | cloudflare/provider.go:186 | The trimmed string occurs in the input, at the returned index, with only white space before and after it |
| Text.TrimSpaceIdempotent | cloudflare/provider.go:186 | Trimming an already trimmed string changes nothing |
| Text.UnquoteQuote | cloudflare/provider.go:151 | The `%q` rendering of a zone name decodes back to that name, and the text after it is left intact |
| Provider.ProviderConfigure | cloudflare/provider.go:121-200 | The configuration pipeline itself; its meaning is stated by the `ProviderProperties` lemmas below (call discipline, abort cases, precedence, options, settings, user agent) |
| Provider.Rebuild | cloudflare/provider.go:182-197 | The second pass records exactly one more call, a build from the given options followed by `UserAgent` of the composed user agent; everything recorded before is kept |
| Provider.OrgSourceOf | cloudflare/provider.go:145-179 | A non-empty `org_id` selects the explicit organisation whatever `use_org_from_zone` says; otherwise a non-empty zone name selects the zone path; otherwise nothing is selected |
| Provider.OrgFromZone | cloudflare/provider.go:148-176 | The zone path starts with the zone-ID lookup, makes only lookups (one to three), and reaches a decision only after all three have been made |
| Provider.ComposeUserAgent | cloudflare/provider.go:182-186 | The composed user agent never begins or ends with white space |
| ProviderProperties.FirstBuildFailureAborts | cloudflare/provider.go:140-143 | A failing first build returns that error, no client, and makes no other call |
| ProviderProperties.UnsetReturnsFirstClient | cloudflare/provider.go:177-179 | With neither `org_id` nor `use_org_from_zone`, the first-pass client and the base options are returned after a single build, with no lookup and no user agent |
| ProviderProperties.ExplicitOrgBinds | cloudflare/provider.go:145-197 | With `org_id` set, the final options are the base options, then `UsingOrganization(org_id)`, then the composed user agent; the calls are the two builds only, and the result is the second build's client or its error |
| ProviderProperties.ExplicitOrgIgnoresZone | cloudflare/provider.go:145-148 | With `org_id` set, changing `use_org_from_zone` or any lookup's behaviour leaves the outcome and the call trace unchanged |
| ProviderProperties.ZoneIdFailureAborts | cloudflare/provider.go:149-152 | A failing zone-ID lookup aborts with the error wrapped as "error finding zone" for that zone name, after that one lookup, and returns no client |
| ProviderProperties.ZoneDetailsFailureAborts | cloudflare/provider.go:154-157 | A failing zone-details lookup aborts with that error unchanged, after the zone-ID and details lookups, and returns no client |
| ProviderProperties.ListOrganizationsFailureAborts | cloudflare/provider.go:160-163 | A failing organisation listing aborts with the error wrapped as "error listing organizations", after all three lookups, and returns no client |
| ProviderProperties.ZoneOwnerResolution | cloudflare/provider.go:160-197 | When all lookups succeed, the owner's organisation is appended exactly when it is listed, and otherwise nothing is appended and no error arises; the user agent follows, and the result is the final build from exactly those options |
| ProviderProperties.CallDiscipline | cloudflare/provider.go:121-200 | For all inputs: at most five calls; the first is the first-pass build; every build starts from the base options; builds happen only as the first and the last call; a lookup happens only on the zone path |
| ProviderProperties.ZonePathCalls | cloudflare/provider.go:148-197 | On the zone path every call between the first build and the last call is a lookup, and a closing build starts from the base options |
| ProviderProperties.ReturnedClientIsLastBuilt | cloudflare/provider.go:140-199 | A returned client is the one the last call built, from exactly the options returned with it; no client is ever returned from an earlier build once a later one is made |
| ProviderProperties.OrgFromZoneBindsListedOwner | cloudflare/provider.go:149-176 | Whenever the zone path reaches a decision, the organisation it binds is the zone owner if it is listed and none otherwise, as read directly from the three lookups' answers |
| ProviderProperties.SuccessfulOptions | cloudflare/provider.go:124-197 | A successful configuration returns the base options when no organisation source is configured, and otherwise the base options, the bound organisation if any, then the composed user agent |
| ProviderProperties.FinalOptionsSettings | cloudflare/provider.go:182-192 | Applying the second-pass options configures the policy, the given organisation (or none) and the given user agent |
| ProviderProperties.OptionsAppendOnly | cloudflare/provider.go:124-186 | On success the options extend the base options by at most two entries: none exactly when no organisation source is configured, otherwise an optional organisation option followed by the composed user agent as the last option |
| ProviderProperties.FinalSettings | cloudflare/provider.go:122-197 | On success the final client carries the configured rate limit, retry policy, logging and HTTP client; its organisation is the bound one (the explicit `org_id` when given, the listed zone owner otherwise, none when unset); it carries the composed user agent exactly when an organisation source was configured |
| ProviderProperties.UserAgentLayout | cloudflare/provider.go:182-186 | When nothing needs trimming, the user agent is the client's user agent, a space, Terraform's user agent, a space, then `terraform-provider-cloudflare/` with the version, in that order |
| ProviderProperties.UserAgentEndsWithProduct | cloudflare/provider.go:184-186 | Whatever the client's and Terraform's user agents, the composed user agent ends with `terraform-provider-cloudflare/` and the version, provided the version does not itself end in white space (trailing white space of the version is trimmed away) |
| ProviderProperties.UserAgentEmptyTerraformPart | cloudflare/provider.go:185-186 | An empty Terraform user agent leaves two spaces between the client's user agent and the product token |
| ProviderProperties.ExampleZoneScenarios | cloudflare/provider.go:148-176 | For zone "example.com" owned by "org1": with organisations org1 and org2, org1 is bound; with org2 and org3, nothing is bound and there is no error; an unknown zone fails with "error finding zone" |
| ProviderProperties.ExampleConfigurations | cloudflare/provider.go:145-199 | For the same zone at the level of the whole configuration: with org1 listed, the rebuilt client is returned bound to org1 with the composed user agent; with org1 not listed, the rebuilt client is returned without an organisation and configuration succeeds; an unknown zone fails the configuration after one lookup |

## Left out

- The schema map, the environment-variable defaults, and the data-source and
  resource registries (provider.go:21-115). They are declarative.
- The `log.Printf` traces (provider.go:146, 158, 164, 172, 175). They are
  side effects only.
- The stderr logger and the HTTP client with its logging transport
  (provider.go:127, 130-131). They are I/O plumbing. Each is the opaque
  option `Logger` or `HTTPClient`.
- `Config.Client()` and the zone and organisation RPCs. They are foreign
  library calls. Their answers are inputs, the function fields of `Api`.
  cloudflare-go's rate limiter and retry algorithm are not modelled.
- `Options.Effective` is a last-writer-wins reading of an option list. It is
  not the library's implementation. It is used only to state what the final
  option list configures.
- The `float64` conversion of `rps` (provider.go:122). It is floating point.
  `rps` stays an `int`. No arithmetic is done on any configured integer, so
  Go's integer width plays no role.
- The type assertions on `d.Get(...)`, which panic on a wrong type. The
  configuration is a typed record.
- The `ResultInfo` that `ListOrganizations` returns. The code discards it.
  Of a zone, only its ID, name and owner are modelled.
- Text.Quote: escapes only `"`, `\`, newline, tab and carriage return. Go's
  `%q` also escapes other non-printable characters. Zone names are DNS
  names, so those do not occur in practice.
- Api.Message: errors are kept as structured values (`Remote`, `FindingZone`,
  `ListingOrganizations`). `Message` renders the text `fmt.Errorf` would
  produce. The cloudflare-go error texts themselves are inputs.
- Text.IsSpace: follows Go's `unicode.IsSpace` table. Invalid UTF-8 cannot
  occur in a Dafny string, so Go's handling of it is not modelled.
