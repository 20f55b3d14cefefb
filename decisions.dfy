/** The pure decisions of the handler: the two guards, the grant scan's
    reference definitions, and the three violation tests. */
module Decisions {
  import opened JsText
  import opened S3

  const PrivateAcl := "private"
  const AllUsersMarker := "AllUsers"
  const AuthenticatedUsersMarker := "AuthenticatedUsers"
  const LogDeliveryMarker := "LogDelivery"

  /** `p6ShortCircuitShould`: the event asked for the canned ACL `private`.
      An `x-amz-acl` array is truthy even when empty; its missing first
      element then differs from `'private'`. */
  function ShortCircuitShould(p: RequestParameters): (r: bool)
    ensures r <==> p.amzAcl.Some? && |p.amzAcl.value| > 0 && p.amzAcl.value[0] == "private"
    ensures p.amzAcl == Some([]) ==> !r
  {
    match p.amzAcl
    case None => false
    case Some(acl) => |acl| > 0 && acl[0] == PrivateAcl
  }

  /** `p6LoopPrevent`: the recorded API call itself failed. */
  function LoopPrevent(d: Detail): (r: bool)
    ensures r <==> ((d.errorCode.Some? && |d.errorCode.value| > 0)
                    || (d.errorMessage.Some? && |d.errorMessage.value| > 0))
  {
    TruthyString(d.errorCode) || TruthyString(d.errorMessage)
  }

  /** `grant.Grantee?.URI` is truthy. */
  predicate HasUri(g: Grant) {
    g.grantee.Some? && TruthyString(g.grantee.value.uri)
  }

  function UriOf(g: Grant): (u: string)
    requires HasUri(g)
    ensures u != ""
  {
    g.grantee.value.uri.value
  }

  /** A grant the bucket remediation keeps: its URI names the log-delivery group. */
  predicate IsLogDeliveryGrant(g: Grant) {
    HasUri(g) && Includes(UriOf(g), LogDeliveryMarker)
  }

  /** What one grant adds to the scanned text. */
  function UriPart(g: Grant): string {
    if HasUri(g) then UriOf(g) else ""
  }

  /** The grantee URIs of `gs`, concatenated in order; grants without a URI
      add nothing. */
  function UriList(gs: seq<Grant>): string {
    if gs == [] then "" else UriList(gs[..|gs| - 1]) + UriPart(gs[|gs| - 1])
  }

  /** The log-delivery grants of `gs`: only input grants, each of them
      log-delivery, and all of those, every occurrence counted. */
  function LogDeliveryGrants(gs: seq<Grant>): (keep: seq<Grant>)
    ensures |keep| <= |gs|
    ensures forall g <- keep :: g in gs && IsLogDeliveryGrant(g)
    ensures forall g <- gs :: IsLogDeliveryGrant(g) ==> g in keep
    ensures forall x :: multiset(keep)[x] == (if IsLogDeliveryGrant(x) then multiset(gs)[x] else 0)
  {
    if gs == [] then []
    else
      var last := gs[|gs| - 1];
      assert gs == gs[..|gs| - 1] + [last];
      assert multiset(gs) == multiset(gs[..|gs| - 1]) + multiset{last};
      LogDeliveryGrants(gs[..|gs| - 1]) + (if IsLogDeliveryGrant(last) then [last] else [])
  }

  /** `p6S3BucketAclViolation`: the scanned text names all users or all
      authenticated users somewhere. */
  function BucketAclViolation(uriList: string): (r: bool)
    ensures r <==> ((exists i :: OccursAt(uriList, AllUsersMarker, i))
                    || (exists i :: OccursAt(uriList, AuthenticatedUsersMarker, i)))
  {
    Includes(uriList, AllUsersMarker) || Includes(uriList, AuthenticatedUsersMarker)
  }

  /** `acl.Owner?.ID` */
  function OwnerId(acl: AclSnapshot): Option<string> {
    match acl.owner
    case None => None
    case Some(o) => o.id
  }

  /** `grant.Grantee?.ID` */
  function GranteeId(g: Grant): Option<string> {
    match g.grantee
    case None => None
    case Some(e) => e.id
  }

  /** The decision of `awsIsPrivate` once the object ACL is fetched: private
      only with exactly one grant, held by the owner (both IDs absent
      compares equal); no grant list, or an empty one, throws. */
  function ObjectAclPrivate(acl: AclSnapshot): (r: Outcome<bool>)
    ensures r.Fault? <==> acl.grants.None? || acl.grants.value == []
    ensures r == Normal(true) <==>
      acl.grants.Some? && |acl.grants.value| == 1 && OwnerId(acl) == GranteeId(acl.grants.value[0])
    ensures acl.grants.Some? && |acl.grants.value| > 1 ==> r == Normal(false)
  {
    match acl.grants
    case None => Fault(MissingGrants)
    case Some(gs) =>
      if |gs| > 1 then Normal(false)
      else if |gs| == 0 then Fault(NoGrants)
      else Normal(OwnerId(acl) == GranteeId(gs[0]))
  }

  /** The access-block test shared by both scopes: nothing to do exactly
      when every flag is truthy, that is, when the configuration already is
      the one the remediation writes. */
  function AccessBlockCompliant(c: PublicAccessBlockConfiguration): (r: bool)
    ensures r <==> c == AllBlocked
  {
    !(!TruthyFlag(c.restrictPublicBuckets) || !TruthyFlag(c.blockPublicPolicy)
      || !TruthyFlag(c.blockPublicAcls) || !TruthyFlag(c.ignorePublicAcls))
  }
}
