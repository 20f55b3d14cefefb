/** Reference semantics of each remediation branch, of the dispatcher and of
    the handler: for an event and the services' answers, how the step ends
    and which calls it issues, in order. The methods of `Protector` are
    proved to behave exactly like these functions, and the lemmas of
    `Properties` state what the functions promise. */
module Behaviour {
  import opened JsText
  import opened S3
  import opened Decisions

  const BucketAclEvent := "PutBucketAcl"
  const ObjectAclEvent := "PutObjectAcl"
  const BucketAccessBlockEvent := "PutBucketPublicAccessBlock"
  const AccountAccessBlockEvent := "PutAccountPublicAccessBlock"

  /** The four event names the dispatcher recognises. */
  predicate Recognised(name: string) {
    name == BucketAclEvent || name == ObjectAclEvent
    || name == BucketAccessBlockEvent || name == AccountAccessBlockEvent
  }

  /** The one write of `p6S3BucketAclCorrect`; `preserve == None` stands for
      the argument `false`. The bucket argument is the owner's ID. */
  function CorrectionCall(acl: AclSnapshot, preserve: Option<seq<Grant>>): Call {
    match preserve
    case Some(keep) => PutBucketAclPolicy(OwnerId(acl), keep, acl.owner)
    case None => PutBucketAclCanned(OwnerId(acl), PrivateAcl)
  }

  /** `p6S3PublicBucketAcl` */
  function BucketAclRun(d: Detail, o: Oracle): Run<bool> {
    match d.requestParameters
    case None => Run(Fault(MissingRequestParameters), [])
    case Some(p) =>
      if ShortCircuitShould(p) || LoopPrevent(d) then Run(Normal(true), [])
      else
        var fetch := GetBucketAcl(p.bucketName);
        match o.getBucketAcl
        case Threw => Run(Normal(false), [fetch])
        case Answered(acl) =>
          var gs := acl.grants.GetOr([]);
          if BucketAclViolation(UriList(gs)) then
            Run(Normal(true), [fetch, CorrectionCall(acl, Some(LogDeliveryGrants(gs)))])
          else
            Run(Normal(false), [fetch])
  }

  /** `p6S3PublicBucketObjectAcl`, with `awsIsPrivate` and `awsMakePrivate` */
  function ObjectAclRun(d: Detail, o: Oracle): Run<()> {
    match d.requestParameters
    case None => Run(Fault(MissingRequestParameters), [])
    case Some(p) =>
      var fetch := GetObjectAcl(p.bucketName, p.key);
      match o.getObjectAcl
      case Threw => Run(Fault(SdkRejected), [fetch])
      case Answered(acl) =>
        match ObjectAclPrivate(acl)
        case Fault(k) => Run(Fault(k), [fetch])
        case Normal(isPrivate) =>
          if isPrivate then Run(Normal(()), [fetch])
          else
            var put := PutObjectAcl(p.bucketName, p.key, PrivateAcl);
            Run(if o.putObjectAcl.Threw? then Fault(SdkRejected) else Normal(()), [fetch, put])
  }

  /** `p6S3PublicBucketAccessBlock` */
  function BucketAccessBlockRun(d: Detail, o: Oracle): Run<()> {
    match d.requestParameters
    case None => Run(Fault(MissingRequestParameters), [])
    case Some(p) =>
      match p.publicAccessBlockConfiguration
      case None => Run(Fault(MissingAccessBlockConfiguration), [])
      case Some(c) =>
        if AccessBlockCompliant(c) then Run(Normal(()), [])
        else
          var put := PutPublicAccessBlock(p.bucketName, AllBlocked);
          Run(if o.putPublicAccessBlock.Threw? then Fault(SdkRejected) else Normal(()), [put])
  }

  /** `p6S3PublicAccessBlock` (account scope) */
  function AccountAccessBlockRun(d: Detail, o: Oracle): Run<()> {
    match d.requestParameters
    case None => Run(Fault(MissingRequestParameters), [])
    case Some(p) =>
      match p.publicAccessBlockConfiguration
      case None => Run(Fault(MissingAccessBlockConfiguration), [])
      case Some(c) =>
        if AccessBlockCompliant(c) then Run(Normal(()), [])
        else
          match o.getCallerIdentity
          case Threw => Run(Fault(SdkRejected), [GetCallerIdentity])
          case Answered(account) =>
            var put := PutAccountPublicAccessBlock(account, AllBlocked);
            Run(if o.putAccountPublicAccessBlock.Threw? then Fault(SdkRejected) else Normal(()),
                [GetCallerIdentity, put])
  }

  /** `await step; return true`: the step's value is dropped, its exception
      propagates. */
  function ThenTrue<T>(step: Run<T>): Run<bool> {
    Run(if step.outcome.Fault? then Fault(step.outcome.kind) else Normal(true), step.calls)
  }

  /** `p6S3PublicFusebox` */
  function FuseboxRun(e: Event, o: Oracle): Run<bool> {
    match e.detail
    case None => Run(Normal(false), [])
    case Some(d) =>
      if !TruthyString(d.eventName) then Run(Normal(false), [])
      else
        var name := d.eventName.value;
        if name == BucketAclEvent then ThenTrue(BucketAclRun(d, o))
        else if name == ObjectAclEvent then ThenTrue(ObjectAclRun(d, o))
        else if name == BucketAccessBlockEvent then ThenTrue(BucketAccessBlockRun(d, o))
        else if name == AccountAccessBlockEvent then ThenTrue(AccountAccessBlockRun(d, o))
        else Run(Normal(true), [])
  }

  /** `handler` */
  function HandlerRun(e: Event, o: Oracle): Run<bool> {
    ThenTrue(FuseboxRun(e, o))
  }
}
