/** The cloudflare-go collaborators `providerConfigure` calls: client
    construction (`Config.Client`), the zone and organisation lookups, and
    the errors they and `providerConfigure` report. Their behaviour is an
    input to the model. */
module Api {
  import opened Wrappers
  import opened Text
  import opened Options

  datatype Credentials = Credentials(email: string, token: string)

  /** A `*cloudflare.API` handle; only its user agent is read by the core. */
  datatype Client = Client(handle: nat, userAgent: string)

  /** `cloudflare.Owner`, the organisation or user owning a zone. */
  datatype Owner = Owner(id: string, name: string)

  datatype Zone = Zone(id: string, name: string, owner: Owner)

  datatype Organization = Organization(id: string, name: string)

  /** Errors reaching the caller: one returned by cloudflare-go, or one
      `providerConfigure` wraps with the step that failed. */
  datatype Error =
    | Remote(text: string)
    | FindingZone(zoneName: string, cause: Error)
    | ListingOrganizations(cause: Error)

  const FindingZonePrefix := "error finding zone "
  const ListingOrganizationsPrefix := "error listing organizations: "

  /** The error's `Error()` text, as `fmt.Errorf` formats the wrapped ones. */
  function Message(e: Error): string {
    match e
    case Remote(text) => text
    case FindingZone(z, cause) => FindingZonePrefix + Quote(z) + ": " + Message(cause)
    case ListingOrganizations(cause) => ListingOrganizationsPrefix + Message(cause)
  }

  /** The zone a "error finding zone" message names, read back from its text. */
  function ZoneOfMessage(m: string): Option<string> {
    var p := |FindingZonePrefix|;
    if |m| >= p && m[..p] == FindingZonePrefix then
      match Unquote(m[p..])
      case None => None
      case Some(q) => Some(q.0)
    else None
  }

  /** A zone lookup failure names the zone, and the name can be read back
      from the message whatever the zone name and the cause are. */
  lemma ZoneNamedInMessage(zoneName: string, cause: Error)
    ensures ZoneOfMessage(Message(FindingZone(zoneName, cause))) == Some(zoneName)
  {
    var m := Message(FindingZone(zoneName, cause));
    var p := |FindingZonePrefix|;
    var rest := ": " + Message(cause);
    assert m == FindingZonePrefix + (Quote(zoneName) + rest);
    assert m[..p] == FindingZonePrefix;
    assert m[p..] == Quote(zoneName) + rest;
    UnquoteQuote(zoneName, rest);
  }

  /** The remote behaviour consulted by `providerConfigure`. */
  datatype Api = Api(
    newClient: (Credentials, seq<ClientOption>) -> Result<Client, Error>,  // Config.Client()
    zoneIdByName: (Client, string) -> Result<string, Error>,              // client.ZoneIDByName
    zoneDetails: (Client, string) -> Result<Zone, Error>,                 // client.ZoneDetails
    listOrganizations: Client -> Result<seq<Organization>, Error>)        // client.ListOrganizations

  /** One call into `Api`, recorded in the order it is made. */
  datatype Call =
    | NewClient(options: seq<ClientOption>)
    | ZoneIdByName(zoneName: string)
    | ZoneDetails(zoneId: string)
    | ListOrganizations

  /** A lookup through the first-pass client, as opposed to a client build. */
  predicate IsLookup(c: Call) {
    !c.NewClient?
  }

  /** The repository's `contains` helper: linear search for `e` in `s`. */
  function Contains(s: seq<string>, e: string): (r: bool)
    ensures r <==> e in s
  {
    if |s| == 0 then false
    else if s[0] == e then true
    else Contains(s[1..], e)
  }

  /** `make([]string, n)`: n empty strings. */
  function Blanks(n: nat): (r: seq<string>)
    ensures |r| == n
    ensures forall k :: 0 <= k < n ==> r[k] == ""
  {
    if n == 0 then [] else Blanks(n - 1) + [""]
  }

  /** The organisation IDs, in order. */
  function IdsOf(orgs: seq<Organization>): (r: seq<string>)
    ensures |r| == |orgs|
    ensures forall k :: 0 <= k < |orgs| ==> r[k] == orgs[k].id
  {
    if |orgs| == 0 then [] else IdsOf(orgs[..|orgs| - 1]) + [orgs[|orgs| - 1].id]
  }

  /** The candidate list the zone owner is searched in: the `len(orgs)` empty
      strings `make` creates, followed by the appended organisation IDs. */
  function CandidateIds(orgs: seq<Organization>): seq<string> {
    Blanks(|orgs|) + IdsOf(orgs)
  }

  /** The loop building the candidate list, as written: `make` with length
      `len(orgs)`, then one `append` per organisation. */
  method CollectOrgIds(orgs: seq<Organization>) returns (orgIds: seq<string>)
    ensures |orgIds| == 2 * |orgs|
    ensures forall k :: 0 <= k < |orgs| ==> orgIds[k] == ""
    ensures forall k :: 0 <= k < |orgs| ==> orgIds[|orgs| + k] == orgs[k].id
    ensures orgIds == CandidateIds(orgs)
  {
    orgIds := [];
    while |orgIds| < |orgs|
      invariant |orgIds| <= |orgs|
      invariant forall k :: 0 <= k < |orgIds| ==> orgIds[k] == ""
    {
      orgIds := orgIds + [""];
    }
    var i := 0;
    while i < |orgs|
      invariant 0 <= i <= |orgs|
      invariant |orgIds| == |orgs| + i
      invariant forall k :: 0 <= k < |orgs| ==> orgIds[k] == ""
      invariant forall k :: 0 <= k < i ==> orgIds[|orgs| + k] == orgs[k].id
    {
      orgIds := orgIds + [orgs[i].id];
      i := i + 1;
    }
  }

  /** Some listed organisation has ID `ownerId`, or `ownerId` is empty while
      the list is not (it then equals one of the blank entries). */
  predicate OwnerListed(orgs: seq<Organization>, ownerId: string) {
    (exists k :: 0 <= k < |orgs| && orgs[k].id == ownerId) || (ownerId == "" && |orgs| > 0)
  }

  /** The candidate search accepts the owner exactly when it is listed in the
      sense of OwnerListed. */
  lemma OwnerIsCandidate(orgs: seq<Organization>, ownerId: string)
    ensures Contains(CandidateIds(orgs), ownerId) <==> OwnerListed(orgs, ownerId)
  {
    var ids := CandidateIds(orgs);
    var n := |orgs|;
    if exists k :: 0 <= k < n && orgs[k].id == ownerId {
      var k :| 0 <= k < n && orgs[k].id == ownerId;
      assert ids[n + k] == ownerId;
    } else if ownerId == "" && n > 0 {
      assert ids[0] == "";
    } else {
      forall m | 0 <= m < |ids| ensures ids[m] != ownerId {
        if m >= n {
          assert ids[m] == orgs[m - n].id;
        }
      }
    }
  }
}
