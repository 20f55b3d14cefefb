/** The records the handler reads and the calls it makes: the CloudTrail
    change event delivered through EventBridge, the ACL and public-access-block
    shapes of the S3 API, the SDK calls as records, and an oracle that stands
    for the answers of the S3, S3 Control and STS services. */
module S3 {
  import opened JsText

  /** `Grant.Grantee`: a canonical user (`ID`) or a well-known group (`URI`). */
  datatype Grantee = Grantee(id: Option<string>, uri: Option<string>)

  /** One (grantee, permission) pair of an ACL; both parts may be absent. */
  datatype Grant = Grant(grantee: Option<Grantee>, permission: Option<string>)

  datatype Owner = Owner(id: Option<string>, displayName: Option<string>)

  /** What `getBucketAcl` / `getObjectAcl` return: `Owner` and `Grants`,
      either of which the SDK types allow to be missing. */
  datatype AclSnapshot = AclSnapshot(owner: Option<Owner>, grants: Option<seq<Grant>>)

  /** A `PublicAccessBlockConfiguration`: four flags, each possibly absent. */
  datatype PublicAccessBlockConfiguration = PublicAccessBlockConfiguration(
    blockPublicAcls: Option<bool>,
    ignorePublicAcls: Option<bool>,
    blockPublicPolicy: Option<bool>,
    restrictPublicBuckets: Option<bool>)

  /** The configuration both access-block remediations write. */
  const AllBlocked := PublicAccessBlockConfiguration(Some(true), Some(true), Some(true), Some(true))

  /** The keys of `detail.requestParameters` the handler reads. `amzAcl` is
      the `x-amz-acl` header, an array whose first element is the canned ACL. */
  datatype RequestParameters = RequestParameters(
    bucketName: Option<string>,
    key: Option<string>,
    amzAcl: Option<seq<string>>,
    publicAccessBlockConfiguration: Option<PublicAccessBlockConfiguration>)

  datatype Detail = Detail(
    eventName: Option<string>,
    requestParameters: Option<RequestParameters>,
    errorCode: Option<string>,
    errorMessage: Option<string>)

  /** The Lambda's input; `detail` may be missing. */
  datatype Event = Event(detail: Option<Detail>)

  /** One SDK call, with the arguments the handler passes. */
  datatype Call =
    | GetBucketAcl(bucket: Option<string>)
    | PutBucketAclPolicy(bucket: Option<string>, grants: seq<Grant>, owner: Option<Owner>)
    | PutBucketAclCanned(bucket: Option<string>, acl: string)
    | GetObjectAcl(bucket: Option<string>, key: Option<string>)
    | PutObjectAcl(bucket: Option<string>, key: Option<string>, acl: string)
    | PutPublicAccessBlock(bucket: Option<string>, config: PublicAccessBlockConfiguration)
    | GetCallerIdentity
    | PutAccountPublicAccessBlock(accountId: Option<string>, config: PublicAccessBlockConfiguration)
  {
    /** A call that changes an ACL or a public-access block (a remediation). */
    predicate IsWrite() {
      PutBucketAclPolicy? || PutBucketAclCanned? || PutObjectAcl? ||
      PutPublicAccessBlock? || PutAccountPublicAccessBlock?
    }
  }

  /** The remediation calls among `calls`, in order. */
  function Writes(calls: seq<Call>): (w: seq<Call>)
    ensures |w| <= |calls|
    ensures forall c <- w :: c in calls && c.IsWrite()
    ensures forall c <- calls :: c.IsWrite() ==> c in w
  {
    if calls == [] then []
    else (if calls[0].IsWrite() then [calls[0]] else []) + Writes(calls[1..])
  }

  /** What a service call gives back: an answer, or a rejected promise. */
  datatype SdkResult<T> = Answered(value: T) | Threw

  /** The answers of the services for one invocation. Each kind of call is
      issued at most once per invocation, so one answer per kind suffices. */
  datatype Oracle = Oracle(
    getBucketAcl: SdkResult<AclSnapshot>,
    putBucketAcl: SdkResult<int>,            // HTTP status code of the response
    getObjectAcl: SdkResult<AclSnapshot>,
    putObjectAcl: SdkResult<()>,
    putPublicAccessBlock: SdkResult<()>,
    getCallerIdentity: SdkResult<Option<string>>,  // the response's `Account`
    putAccountPublicAccessBlock: SdkResult<()>)

  /** Why an invocation throws instead of returning. */
  datatype FaultKind =
    | MissingRequestParameters   // `requestParameters` is undefined
    | MissingGrants              // `acl.Grants!` is undefined
    | NoGrants                   // `acl.Grants![0]` is undefined
    | MissingAccessBlockConfiguration
    | SdkRejected                // an uncaught rejected SDK promise

  /** How a step ends: a normal return with a value, or an uncaught exception. */
  datatype Outcome<+T> = Normal(value: T) | Fault(kind: FaultKind)

  /** A step's outcome together with the calls it issued, in order. */
  datatype Run<+T> = Run(outcome: Outcome<T>, calls: seq<Call>)
}
