/** The Lambda handler as the step-by-step scripts the source runs. Each
    script keeps the calls it issues in a log, in order, and returns the
    log with its outcome; each is proved to behave exactly like its
    reference function in `Behaviour`. The services' answers come from the
    oracle `o`. */
module Protector {
  import opened JsText
  import opened S3
  import opened Decisions
  import opened Behaviour

  /** `p6S3BucketAclGet`: a failed fetch is caught and becomes `None`. */
  method BucketAclGet(p: RequestParameters, o: Oracle) returns (acl: Option<AclSnapshot>, calls: seq<Call>)
    ensures calls == [GetBucketAcl(p.bucketName)]
    ensures acl.Some? <==> o.getBucketAcl.Answered?
    ensures acl.Some? ==> acl.value == o.getBucketAcl.value
  {
    calls := [GetBucketAcl(p.bucketName)];
    match o.getBucketAcl
    case Threw => acl := None;
    case Answered(a) => acl := Some(a);
  }

  /** `p6LogDeliveryPreserve`: one pass over the grants that appends each
      grantee URI to `uriList` and keeps the log-delivery grants. */
  method LogDeliveryPreserve(acl: AclSnapshot) returns (uriList: string, preserve: seq<Grant>)
    ensures uriList == UriList(acl.grants.GetOr([]))
    ensures preserve == LogDeliveryGrants(acl.grants.GetOr([]))
  {
    var grants := acl.grants.GetOr([]);
    uriList := "";
    preserve := [];
    for i := 0 to |grants|
      invariant uriList == UriList(grants[..i])
      invariant preserve == LogDeliveryGrants(grants[..i])
    {
      var grant := grants[i];
      assert grants[..i + 1][..i] == grants[..i];
      if grant.grantee.Some? && TruthyString(grant.grantee.value.uri) {
        var uri := grant.grantee.value.uri.value;
        uriList := uriList + uri;
        if Includes(uri, LogDeliveryMarker) {
          preserve := preserve + [grant];
        }
      }
    }
    assert grants[..|grants|] == grants;
  }

  /** `p6S3BucketAclCorrect`: exactly one `putBucketAcl`, addressed to the
      owner's ID. A status other than 200 and a rejection of the call only
      choose a log line: every answer of the oracle ends the same way. */
  method BucketAclCorrect(acl: AclSnapshot, preserve: Option<seq<Grant>>, o: Oracle) returns (calls: seq<Call>)
    ensures |calls| == 1 && (calls[0].PutBucketAclPolicy? || calls[0].PutBucketAclCanned?)
    ensures calls[0].bucket == OwnerId(acl)
    ensures preserve.Some? ==> calls == [PutBucketAclPolicy(OwnerId(acl), preserve.value, acl.owner)]
    ensures preserve.None? ==> calls == [PutBucketAclCanned(OwnerId(acl), "private")]
  {
    if preserve.Some? {
      calls := [PutBucketAclPolicy(OwnerId(acl), preserve.value, acl.owner)];
    } else {
      calls := [PutBucketAclCanned(OwnerId(acl), PrivateAcl)];
    }
    match o.putBucketAcl
    case Answered(status) =>
      if status == 200 {
        // logged as reverted
      } else {
        // logged as failed, manual follow-up
      }
    case Threw =>
      // caught and logged
  }

  /** `p6S3PublicBucketAcl` */
  method PublicBucketAcl(d: Detail, o: Oracle) returns (r: Outcome<bool>, calls: seq<Call>)
    ensures Run(r, calls) == BucketAclRun(d, o)
  {
    calls := [];
    if d.requestParameters.None? {
      return Fault(MissingRequestParameters), calls;
    }
    var p := d.requestParameters.value;
    if ShortCircuitShould(p) {
      return Normal(true), calls;
    }
    if LoopPrevent(d) {
      return Normal(true), calls;
    }
    var acl, fetched := BucketAclGet(p, o);
    calls := calls + fetched;
    if acl.None? {
      return Normal(false), calls;
    }
    var uriList, preserve := LogDeliveryPreserve(acl.value);
    if BucketAclViolation(uriList) {
      var written := BucketAclCorrect(acl.value, Some(preserve), o);
      calls := calls + written;
      return Normal(true), calls;
    }
    return Normal(false), calls;
  }

  /** `awsIsPrivate`: fetch the object ACL, then decide; a failed fetch and
      a missing or empty grant list throw. */
  method IsPrivate(bucket: Option<string>, key: Option<string>, o: Oracle)
    returns (r: Outcome<bool>, calls: seq<Call>)
    ensures calls == [GetObjectAcl(bucket, key)]
    ensures o.getObjectAcl.Threw? ==> r == Fault(SdkRejected)
    ensures o.getObjectAcl.Answered? ==> r == ObjectAclPrivate(o.getObjectAcl.value)
  {
    calls := [GetObjectAcl(bucket, key)];
    if o.getObjectAcl.Threw? {
      return Fault(SdkRejected), calls;
    }
    var acl := o.getObjectAcl.value;
    if acl.grants.None? {
      return Fault(MissingGrants), calls;
    }
    if |acl.grants.value| > 1 {
      return Normal(false), calls;
    }
    if |acl.grants.value| == 0 {
      return Fault(NoGrants), calls;
    }
    var ownerId := OwnerId(acl);
    var granteeId := GranteeId(acl.grants.value[0]);
    if ownerId != granteeId {
      return Normal(false), calls;
    }
    return Normal(true), calls;
  }

  /** `awsMakePrivate`: one `putObjectAcl` with the canned ACL `private`;
      its rejection propagates. */
  method MakePrivate(bucket: Option<string>, key: Option<string>, o: Oracle)
    returns (r: Outcome<()>, calls: seq<Call>)
    ensures calls == [PutObjectAcl(bucket, key, "private")]
    ensures o.putObjectAcl.Threw? ==> r == Fault(SdkRejected)
    ensures o.putObjectAcl.Answered? ==> r == Normal(())
  {
    calls := [PutObjectAcl(bucket, key, PrivateAcl)];
    r := if o.putObjectAcl.Threw? then Fault(SdkRejected) else Normal(());
  }

  /** `p6S3PublicBucketObjectAcl` */
  method PublicBucketObjectAcl(d: Detail, o: Oracle) returns (r: Outcome<()>, calls: seq<Call>)
    ensures Run(r, calls) == ObjectAclRun(d, o)
  {
    calls := [];
    if d.requestParameters.None? {
      return Fault(MissingRequestParameters), calls;
    }
    var key := d.requestParameters.value.key;
    var bucket := d.requestParameters.value.bucketName;
    var isPrivate, fetched := IsPrivate(bucket, key, o);
    calls := calls + fetched;
    if isPrivate.Fault? {
      return Fault(isPrivate.kind), calls;
    }
    if !isPrivate.value {
      var written;
      r, written := MakePrivate(bucket, key, o);
      calls := calls + written;
      return r, calls;
    }
    return Normal(()), calls;
  }

  /** `p6S3PublicBucketAccessBlock` */
  method PublicBucketAccessBlock(d: Detail, o: Oracle) returns (r: Outcome<()>, calls: seq<Call>)
    ensures Run(r, calls) == BucketAccessBlockRun(d, o)
  {
    calls := [];
    if d.requestParameters.None? {
      return Fault(MissingRequestParameters), calls;
    }
    var pbc := d.requestParameters.value.publicAccessBlockConfiguration;
    if pbc.None? {
      return Fault(MissingAccessBlockConfiguration), calls;
    }
    var c := pbc.value;
    if !TruthyFlag(c.restrictPublicBuckets) || !TruthyFlag(c.blockPublicPolicy)
       || !TruthyFlag(c.blockPublicAcls) || !TruthyFlag(c.ignorePublicAcls)
    {
      var bucket := d.requestParameters.value.bucketName;
      calls := calls + [PutPublicAccessBlock(bucket, AllBlocked)];
      if o.putPublicAccessBlock.Threw? {
        return Fault(SdkRejected), calls;
      }
    }
    return Normal(()), calls;
  }

  /** `p6S3PublicAccessBlock`: the caller's account is looked up before the
      account-scoped write. */
  method PublicAccessBlock(d: Detail, o: Oracle) returns (r: Outcome<()>, calls: seq<Call>)
    ensures Run(r, calls) == AccountAccessBlockRun(d, o)
  {
    calls := [];
    if d.requestParameters.None? {
      return Fault(MissingRequestParameters), calls;
    }
    var pbc := d.requestParameters.value.publicAccessBlockConfiguration;
    if pbc.None? {
      return Fault(MissingAccessBlockConfiguration), calls;
    }
    var c := pbc.value;
    if !TruthyFlag(c.restrictPublicBuckets) || !TruthyFlag(c.blockPublicPolicy)
       || !TruthyFlag(c.blockPublicAcls) || !TruthyFlag(c.ignorePublicAcls)
    {
      calls := calls + [GetCallerIdentity];
      if o.getCallerIdentity.Threw? {
        return Fault(SdkRejected), calls;
      }
      var account := o.getCallerIdentity.value;
      calls := calls + [PutAccountPublicAccessBlock(account, AllBlocked)];
      if o.putAccountPublicAccessBlock.Threw? {
        return Fault(SdkRejected), calls;
      }
    }
    return Normal(()), calls;
  }

  /** `p6S3PublicFusebox`: exact-name dispatch to one branch; the branch's
      own return value is dropped. */
  method PublicFusebox(e: Event, o: Oracle) returns (r: Outcome<bool>, calls: seq<Call>)
    ensures Run(r, calls) == FuseboxRun(e, o)
  {
    if e.detail.None? || !TruthyString(e.detail.value.eventName) {
      return Normal(false), [];
    }
    var d := e.detail.value;
    var eventName := d.eventName.value;
    if eventName == BucketAclEvent {
      var done;
      done, calls := PublicBucketAcl(d, o);
      if done.Fault? { return Fault(done.kind), calls; }
    } else if eventName == ObjectAclEvent {
      var done;
      done, calls := PublicBucketObjectAcl(d, o);
      if done.Fault? { return Fault(done.kind), calls; }
    } else if eventName == BucketAccessBlockEvent {
      var done;
      done, calls := PublicBucketAccessBlock(d, o);
      if done.Fault? { return Fault(done.kind), calls; }
    } else if eventName == AccountAccessBlockEvent {
      var done;
      done, calls := PublicAccessBlock(d, o);
      if done.Fault? { return Fault(done.kind), calls; }
    } else {
      calls := [];
    }
    return Normal(true), calls;
  }

  /** `handler`: true whenever no exception escapes the dispatcher. */
  method Handler(e: Event, o: Oracle) returns (r: Outcome<bool>, calls: seq<Call>)
    ensures Run(r, calls) == HandlerRun(e, o)
    ensures r.Normal? ==> r.value
  {
    var done;
    done, calls := PublicFusebox(e, o);
    if done.Fault? {
      return Fault(done.kind), calls;
    }
    return Normal(true), calls;
  }
}
