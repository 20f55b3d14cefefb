# S3 protector: a Dafny model of the remediation handler

The handler in `src/p6cdks3protector.p6CDKS3Protector.ts` is an AWS Lambda.
EventBridge delivers it a CloudTrail record of an S3 change. The handler
decides whether the change exposed data publicly and, if so, reverts it. It
handles four event names:

- `PutBucketAcl`: the handler fetches the bucket ACL and scans the grantee URIs
  for `AllUsers` / `AuthenticatedUsers`. On a hit it rewrites the ACL so that
  only the `LogDelivery` grants remain.
- `PutObjectAcl`: the handler fetches the object ACL. Unless the ACL has exactly
  one grant and that grant is held by the owner, it sets the canned ACL `private`
  (a missing or empty grant list throws).
- `PutBucketPublicAccessBlock` / `PutAccountPublicAccessBlock`: if any of the four
  flags in the event is falsy, the handler writes all four as `true`. The bucket
  scope writes to the event's bucket. The account scope writes to the account
  returned by an STS identity lookup.

The model has six modules:

- `JsText` (`jstext.dfy`): JavaScript semantics the code relies on. This covers
  `undefined` as `Option`, truthiness of strings and flags, and
  `String.prototype.includes`. `Includes` is recursive and is proved equivalent
  to the existence of an occurrence.
- `S3` (`s3.dfy`): the event, grants, owners, ACL snapshots and public-access-block
  configurations as datatypes. It also holds one `Call` record per SDK call and
  an `Oracle` that supplies the services' answers. `Outcome` separates a normal
  return from an uncaught exception (`Fault`). `Run` pairs an outcome with the
  ordered list of calls issued.
- `Decisions` (`decisions.dfy`): the pure predicates. These are the two guards,
  the reference definitions of the grant scan, and the bucket, object and
  access-block tests.
- `Behaviour` (`behaviour.dfy`): one reference function per branch, plus the
  dispatcher and the handler. Each gives the outcome and the ordered calls.
- `Protector` (`protector.dfy`): the handler as the source writes it. Each step is
  a method that appends the calls it issues to a log. The grant scan is a `for`
  loop with invariants. Each branch method is proved to equal its reference
  function.
- `Properties` (`properties.dfy`): lemmas stating what the handler promises.

Behaviours kept as the code has them:

- `p6LogDeliveryPreserve` always returns an array, and an empty array is truthy.
  So the canned-`private` branch of `p6S3BucketAclCorrect` is never reached from
  the handler (`HandlerNeverWritesCannedBucketAcl`).
- Both bucket-ACL writes pass `Owner.ID` as the bucket name (lines 108 and 123).
- The short-circuit and loop-prevention guards apply only to `PutBucketAcl`.
- Some inputs make the code throw instead of returning. These are a missing
  `requestParameters`, an object ACL with no `Grants` or with an empty list, a
  missing `PublicAccessBlockConfiguration`, and a rejected SDK call outside the
  two `try` blocks. The model gives each of these a `Fault` outcome.

Behaviours of the code a reader might not expect:

- A missing `detail` is handled at line 245. The dispatcher returns `false` with
  no call and the handler returns `true`. It is not an uncaught error.
- The guards do not make every event with `x-amz-acl: private` or an error code a
  no-op. Object-ACL events are remediated anyway (`GuardsOnlyOnBucketAclPath`).
- The handler can write even when no single grantee URI contains a public marker.
  The scan runs over the concatenation of all URIs, so a marker split across two
  grants is a violation (`SplitMarkerIsViolation`).

## Model

| member | source | states |
|---|---|---|
| Decisions.ShortCircuitShould | src/p6cdks3protector.p6CDKS3Protector.ts:36-45 | true iff `x-amz-acl` is present and its first element is `private`; an empty array gives false |
| Decisions.LoopPrevent | src/p6cdks3protector.p6CDKS3Protector.ts:47-53 | true iff `errorCode` or `errorMessage` is present and non-empty |
| JsText.Includes | src/p6cdks3protector.p6CDKS3Protector.ts:87 | `s.includes(t)` holds iff `t` occurs at some index of `s` |
| Protector.BucketAclGet | src/p6cdks3protector.p6CDKS3Protector.ts:55-67 | issues exactly the `getBucketAcl` of the event's bucket; a rejected call is caught and yields no snapshot |
| Protector.LogDeliveryPreserve | src/p6cdks3protector.p6CDKS3Protector.ts:69-84 | the loop's `uriList` is the in-order concatenation of the truthy grantee URIs, and its kept list is exactly the grants whose URI contains `LogDelivery` |
| Decisions.LogDeliveryGrants | src/p6cdks3protector.p6CDKS3Protector.ts:77-79 | the kept grants are no more than the input, each is an input grant whose URI names `LogDelivery`, and every occurrence of such a grant is kept, duplicates included |
| Properties.UriListOfNoUris | src/p6cdks3protector.p6CDKS3Protector.ts:73-76 | `Decisions.UriList`, the reference for the loop's `uriList`, is the empty text when no grant has a URI |
| Properties.LogDeliveryGrantsInOrder | src/p6cdks3protector.p6CDKS3Protector.ts:71-83 | the kept grants are an in-order subsequence of the input grants |
| Properties.UriListSkipsGrantWithoutUri | src/p6cdks3protector.p6CDKS3Protector.ts:74-76 | inserting a grant without a URI anywhere leaves the scanned text unchanged |
| Properties.UriListIncludesEachUri | src/p6cdks3protector.p6CDKS3Protector.ts:76 | whatever occurs in one grant's URI occurs in the concatenated text |
| Decisions.BucketAclViolation | src/p6cdks3protector.p6CDKS3Protector.ts:86-93 | true iff `AllUsers` or `AuthenticatedUsers` occurs somewhere in the scanned text |
| Properties.MarkedGrantIsViolation | src/p6cdks3protector.p6CDKS3Protector.ts:73-93 | a single grant whose URI contains a public marker flags the bucket |
| Properties.SplitMarkerIsViolation | src/p6cdks3protector.p6CDKS3Protector.ts:76-87 | grants `xAll` and `Users` contain no marker, yet their concatenation is flagged |
| Protector.BucketAclCorrect | src/p6cdks3protector.p6CDKS3Protector.ts:95-140 | exactly one `putBucketAcl`, addressed to `Owner.ID`: the kept grants with the fetched owner when given an array, the canned `private` when given `false`; the same call whatever status or rejection the write gets |
| Protector.PublicBucketAcl | src/p6cdks3protector.p6CDKS3Protector.ts:142-164 | the step-by-step branch issues the same calls and ends the same way as the reference `Behaviour.BucketAclRun` |
| Properties.GuardedBucketAclIssuesNoCalls | src/p6cdks3protector.p6CDKS3Protector.ts:142-149 | when either guard holds the branch returns true with no fetch and no write |
| Properties.BucketAclFetchFailureStops | src/p6cdks3protector.p6CDKS3Protector.ts:151-154 | a failed fetch ends the branch with false after the fetch alone |
| Properties.BucketAclRemediation | src/p6cdks3protector.p6CDKS3Protector.ts:156-163 | the fetch is the first call; with a violation there is exactly one write (the log-delivery grants and owner, bucket = `Owner.ID`) and the result is true; without one there is no write and the result is false |
| Properties.HandlerNeverWritesCannedBucketAcl | src/p6cdks3protector.p6CDKS3Protector.ts:98-125 | no invocation ever issues the canned-`private` bucket write, because the preserve array is always truthy |
| Properties.BucketAclWriteResultIgnored | src/p6cdks3protector.p6CDKS3Protector.ts:112-139 | the status or exception of `putBucketAcl` never changes the handler's outcome or calls |
| Decisions.ObjectAclPrivate | src/p6cdks3protector.p6CDKS3Protector.ts:170-182 | private iff exactly one grant whose grantee ID equals the owner ID (both absent is equal); more than one grant is not private; no grant list or an empty one throws |
| Protector.IsPrivate | src/p6cdks3protector.p6CDKS3Protector.ts:166-183 | issues exactly the `getObjectAcl`; a rejected call throws; otherwise the decision of `ObjectAclPrivate` |
| Protector.MakePrivate | src/p6cdks3protector.p6CDKS3Protector.ts:185-188 | issues exactly `putObjectAcl(bucket, key, 'private')`; a rejection propagates |
| Protector.PublicBucketObjectAcl | src/p6cdks3protector.p6CDKS3Protector.ts:190-197 | the step-by-step branch issues the same calls and ends the same way as the reference `Behaviour.ObjectAclRun` |
| Properties.ObjectAclWritesIffNotPrivate | src/p6cdks3protector.p6CDKS3Protector.ts:190-197 | the fetch comes first; a private ACL gives no write, a non-private one exactly the `private` write, and a missing or empty grant list throws with no write; no guard is consulted |
| Decisions.AccessBlockCompliant | src/p6cdks3protector.p6CDKS3Protector.ts:203 | no remediation iff all four flags are truthy, i.e. the configuration equals the all-true one that is written |
| Protector.PublicBucketAccessBlock | src/p6cdks3protector.p6CDKS3Protector.ts:199-219 | the step-by-step branch issues the same calls and ends the same way as the reference `Behaviour.BucketAccessBlockRun` |
| Properties.BucketAccessBlockWritesIffNonCompliant | src/p6cdks3protector.p6CDKS3Protector.ts:203-215 | no call when all four flags are set, otherwise exactly one all-true write to the event's bucket |
| Protector.PublicAccessBlock | src/p6cdks3protector.p6CDKS3Protector.ts:221-242 | the step-by-step branch issues the same calls and ends the same way as the reference `Behaviour.AccountAccessBlockRun` |
| Properties.AccountAccessBlockLooksUpIdentityFirst | src/p6cdks3protector.p6CDKS3Protector.ts:225-238 | no call when all four flags are set; otherwise the identity lookup comes first, and the write after it carries the returned `Account` and all four flags set |
| Properties.MissingAccessBlockConfigurationFaults | src/p6cdks3protector.p6CDKS3Protector.ts:199-203 | a missing configuration throws before any call, at bucket and at account scope |
| Protector.PublicFusebox | src/p6cdks3protector.p6CDKS3Protector.ts:244-276 | the step-by-step dispatcher issues the same calls and ends the same way as the reference `Behaviour.FuseboxRun` |
| Properties.UnusableEventIssuesNoCalls | src/p6cdks3protector.p6CDKS3Protector.ts:245-247 | a missing `detail` or a falsy `eventName` makes no call; the dispatcher returns false and the handler true |
| Properties.UnrecognisedEventIssuesNoCalls | src/p6cdks3protector.p6CDKS3Protector.ts:262-275 | a name other than the four makes no call and the handler returns true |
| Properties.HandlerDispatchesByExactName | src/p6cdks3protector.p6CDKS3Protector.ts:262-273 | each of the four exact names runs exactly its own branch: the handler's calls are that branch's calls |
| Protector.Handler | src/p6cdks3protector.p6CDKS3Protector.ts:278-281 | behaves as the reference `Behaviour.HandlerRun`; a normal return is always true |
| Properties.HandlerReturnsTrueUnlessFault | src/p6cdks3protector.p6CDKS3Protector.ts:278-281 | the handler returns true whenever no exception escapes the dispatcher, and throws exactly when the dispatcher does |
| Properties.HandlerWritesAtMostOnceAndOnlyTightens | src/p6cdks3protector.p6CDKS3Protector.ts:244-281 | one invocation issues at most one write; every write makes an object ACL private, keeps only log-delivery grants on a bucket, or sets all four block flags |
| Properties.GuardsOnlyOnBucketAclPath | src/p6cdks3protector.p6CDKS3Protector.ts:190-197 | an object-ACL event with `x-amz-acl: private` and an error code still gets its `private` write |

## Left out

- AWS SDK clients (S3, S3 Control, STS): these are network calls. The model records each call as a `Call` value. An `Oracle` holds one answer per kind of call, either a value or a rejection. Each kind is issued at most once per invocation.
- The winston logger and every `logger.*` call, including the `JSON.stringify` of responses: these are observability only.
- The log lines chosen by the HTTP status checks at lines 113 and 128 and by the catch at lines 136-139: `Protector.BucketAclCorrect` reads the oracle's answer to `putBucketAcl` and branches on it as the source does, with every arm ending the same way; `BucketAclWriteResultIgnored` states the same of the reference functions.
- `main()` and the `require.main` hook: they read a fixture file from disk.
- async/await: the calls run strictly one after another, so an ordered call list captures them.
- Dynamic JavaScript typing beyond the fields the handler reads: `x-amz-acl` is modelled as an array of strings. Each access-block flag is modelled as an optional boolean, so a truthy non-boolean such as `1` is not modelled. A `null` grant entry is not modelled either.
- The Lambda timeout and the hosting environment's handling of a thrown exception: these belong to the host. The model stops at the `Fault` outcome.
- src/p6cdks3protector.ts (the CDK construct), p6cdknamer/main.go, bin/visualize.ts and test/p6-cdk-s3-protector.test.ts: these are infrastructure, generated glue and template-shape tests, with no decision logic.
