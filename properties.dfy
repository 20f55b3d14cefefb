/** What the handler promises, stated over the reference functions of
    `Behaviour` (which the methods of `Protector` are proved to follow). */
module Properties {
  import opened JsText
  import opened S3
  import opened Decisions
  import opened Behaviour

  /** In a run of at most two calls where only the last may be a write,
      the writes are at most that last call. */
  lemma WritesOfFew(calls: seq<Call>)
    requires |calls| <= 2 && forall i :: 0 <= i < |calls| - 1 ==> !calls[i].IsWrite()
    ensures |Writes(calls)| <= 1
    ensures forall c <- Writes(calls) :: c == calls[|calls| - 1]
  {
    if |calls| == 2 {
      assert calls[1..][1..] == [];
    }
  }

  // ---------------------------------------------------------------------
  // Grant scan

  /** `xs` is `ys` with some elements left out, order kept. */
  ghost predicate IsSubsequence<T>(xs: seq<T>, ys: seq<T>)
    decreases |ys|
  {
    if xs == [] then true
    else if ys == [] then false
    else
      (xs[|xs| - 1] == ys[|ys| - 1] && IsSubsequence(xs[..|xs| - 1], ys[..|ys| - 1]))
      || IsSubsequence(xs, ys[..|ys| - 1])
  }

  /** The kept log-delivery grants are an in-order subsequence of the input. */
  lemma {:induction false} LogDeliveryGrantsInOrder(gs: seq<Grant>)
    ensures IsSubsequence(LogDeliveryGrants(gs), gs)
  {
    if gs != [] {
      var init, last := gs[..|gs| - 1], gs[|gs| - 1];
      LogDeliveryGrantsInOrder(init);
      var keep := LogDeliveryGrants(gs);
      if IsLogDeliveryGrant(last) {
        assert keep == LogDeliveryGrants(init) + [last];
        assert keep[..|keep| - 1] == LogDeliveryGrants(init);
      } else {
        assert keep == LogDeliveryGrants(init);
      }
    }
  }

  /** A list in which no grant has a URI scans to the empty text. */
  lemma {:induction false} UriListOfNoUris(gs: seq<Grant>)
    requires forall g <- gs :: !HasUri(g)
    ensures UriList(gs) == ""
  {
    if gs != [] {
      UriListOfNoUris(gs[..|gs| - 1]);
    }
  }

  /** Scanning two lists one after the other gives the two texts one after
      the other. */
  lemma {:induction false} UriListAppend(a: seq<Grant>, b: seq<Grant>)
    ensures UriList(a + b) == UriList(a) + UriList(b)
    decreases |b|
  {
    if b == [] {
      assert a + b == a;
    } else {
      var init := b[..|b| - 1];
      assert (a + b)[..|a + b| - 1] == a + init;
      UriListAppend(a, init);
    }
  }

  /** A grant without a URI contributes nothing to the scanned text,
      wherever it stands. */
  lemma {:induction false} UriListSkipsGrantWithoutUri(a: seq<Grant>, g: Grant, b: seq<Grant>)
    requires !HasUri(g)
    ensures UriList(a + [g] + b) == UriList(a + b)
  {
    assert UriList([g]) == "" by {
      assert [g][..0] == [];
    }
    UriListAppend(a, [g]);
    assert UriList(a + [g]) == UriList(a);
    UriListAppend(a + [g], b);
    UriListAppend(a, b);
  }

  /** The scanned text splits around any one grant. */
  lemma {:induction false} UriListAround(gs: seq<Grant>, k: nat)
    requires k < |gs|
    ensures UriList(gs) == UriList(gs[..k]) + UriPart(gs[k]) + UriList(gs[k + 1..])
  {
    var before, x, after := gs[..k], gs[k], gs[k + 1..];
    assert UriList([x]) == UriPart(x) by {
      assert [x][..0] == [];
    }
    UriListAppend(before, [x]);
    UriListAppend(before + [x], after);
    assert gs == before + [x] + after;
  }

  /** Whatever occurs in one grant's URI occurs in the scanned text. */
  lemma {:induction false} UriListIncludesEachUri(gs: seq<Grant>, k: nat, t: string)
    requires k < |gs| && HasUri(gs[k]) && Includes(UriOf(gs[k]), t)
    ensures Includes(UriList(gs), t)
  {
    UriListAround(gs, k);
    IncludesInfix(UriList(gs[..k]), UriOf(gs[k]), UriList(gs[k + 1..]), t);
  }

  // ---------------------------------------------------------------------
  // Bucket violation test

  /** One grant naming all users or all authenticated users flags the bucket. */
  lemma MarkedGrantIsViolation(gs: seq<Grant>, k: nat)
    requires k < |gs| && HasUri(gs[k])
    requires Includes(UriOf(gs[k]), AllUsersMarker) || Includes(UriOf(gs[k]), AuthenticatedUsersMarker)
    ensures BucketAclViolation(UriList(gs))
  {
    if Includes(UriOf(gs[k]), AllUsersMarker) {
      UriListIncludesEachUri(gs, k, AllUsersMarker);
    } else {
      UriListIncludesEachUri(gs, k, AuthenticatedUsersMarker);
    }
  }

  function GroupGrant(uri: string): Grant {
    Grant(Some(Grantee(None, Some(uri))), Some("READ"))
  }

  /** The scan works on the concatenation, so a marker split across two
      grants also flags the bucket although neither URI contains it. */
  lemma SplitMarkerIsViolation()
    ensures var gs := [GroupGrant("xAll"), GroupGrant("Users")];
      (forall g <- gs :: HasUri(g) && !Includes(UriOf(g), AllUsersMarker)
                                   && !Includes(UriOf(g), AuthenticatedUsersMarker))
      && BucketAclViolation(UriList(gs))
  {
    var gs := [GroupGrant("xAll"), GroupGrant("Users")];
    assert gs[..1] == [GroupGrant("xAll")];
    assert UriList(gs) == "xAllUsers";
    assert OccursAt("xAllUsers", AllUsersMarker, 1);
  }

  // ---------------------------------------------------------------------
  // Bucket-ACL branch

  /** Short-circuit and loop prevention stop the branch before any call. */
  lemma GuardedBucketAclIssuesNoCalls(d: Detail, o: Oracle)
    requires d.requestParameters.Some?
    requires ShortCircuitShould(d.requestParameters.value) || LoopPrevent(d)
    ensures BucketAclRun(d, o) == Run(Normal(true), [])
  {
  }

  /** A failed fetch is caught: the branch returns false after the fetch alone. */
  lemma BucketAclFetchFailureStops(d: Detail, o: Oracle)
    requires d.requestParameters.Some?
    requires !ShortCircuitShould(d.requestParameters.value) && !LoopPrevent(d)
    requires o.getBucketAcl.Threw?
    ensures BucketAclRun(d, o) == Run(Normal(false), [GetBucketAcl(d.requestParameters.value.bucketName)])
  {
  }

  /** Without a marker in the scanned text the fetch is the only call;
      with one, exactly one write follows it: the log-delivery grants and
      the fetched owner, addressed to the owner's ID. */
  lemma BucketAclRemediation(d: Detail, o: Oracle)
    requires d.requestParameters.Some?
    requires !ShortCircuitShould(d.requestParameters.value) && !LoopPrevent(d)
    requires o.getBucketAcl.Answered?
    ensures var acl := o.getBucketAcl.value;
      var gs := acl.grants.GetOr([]);
      var fetch := GetBucketAcl(d.requestParameters.value.bucketName);
      var run := BucketAclRun(d, o);
      run.calls[0] == fetch
      && (BucketAclViolation(UriList(gs)) ==>
            run.outcome == Normal(true)
            && Writes(run.calls) == [PutBucketAclPolicy(OwnerId(acl), LogDeliveryGrants(gs), acl.owner)])
      && (!BucketAclViolation(UriList(gs)) ==>
            run.outcome == Normal(false) && Writes(run.calls) == [])
  {
    WritesOfFew(BucketAclRun(d, o).calls);
  }

  /** The canned-`private` write is never issued: the log-delivery list
      passed to the correction is an array, and an empty array is truthy. */
  lemma HandlerNeverWritesCannedBucketAcl(e: Event, o: Oracle)
    ensures forall c <- HandlerRun(e, o).calls :: !c.PutBucketAclCanned?
  {
  }

  /** The status or exception of the bucket-ACL write changes nothing. */
  lemma BucketAclWriteResultIgnored(e: Event, o: Oracle, answer: SdkResult<int>)
    ensures HandlerRun(e, o) == HandlerRun(e, o.(putBucketAcl := answer))
  {
  }

  // ---------------------------------------------------------------------
  // Object-ACL branch

  /** After the object ACL is fetched, `putObjectAcl(bucket, key, 'private')`
      is issued exactly when the ACL is not private; a missing or empty
      grant list throws with no write. Neither guard is applied. */
  lemma ObjectAclWritesIffNotPrivate(d: Detail, o: Oracle)
    requires d.requestParameters.Some? && o.getObjectAcl.Answered?
    ensures var p := d.requestParameters.value;
      var acl := o.getObjectAcl.value;
      var run := ObjectAclRun(d, o);
      run.calls[0] == GetObjectAcl(p.bucketName, p.key)
      && (ObjectAclPrivate(acl) == Normal(true) ==> run == Run(Normal(()), [run.calls[0]]))
      && (ObjectAclPrivate(acl) == Normal(false) ==>
            Writes(run.calls) == [PutObjectAcl(p.bucketName, p.key, "private")])
      && (ObjectAclPrivate(acl).Fault? ==> run.outcome.Fault? && Writes(run.calls) == [])
  {
    WritesOfFew(ObjectAclRun(d, o).calls);
  }

  // ---------------------------------------------------------------------
  // Public-access-block branches

  /** Bucket scope: no call when all four flags are set; otherwise one write
      of all four flags to the event's bucket. */
  lemma BucketAccessBlockWritesIffNonCompliant(d: Detail, o: Oracle)
    requires d.requestParameters.Some? && d.requestParameters.value.publicAccessBlockConfiguration.Some?
    ensures var p := d.requestParameters.value;
      var run := BucketAccessBlockRun(d, o);
      (p.publicAccessBlockConfiguration.value == AllBlocked ==> run == Run(Normal(()), []))
      && (p.publicAccessBlockConfiguration.value != AllBlocked ==>
            run.calls == [PutPublicAccessBlock(p.bucketName, AllBlocked)])
  {
  }

  /** Account scope: no call when all four flags are set; otherwise the
      identity lookup comes first, and the write that follows carries the
      looked-up account and all four flags. */
  lemma AccountAccessBlockLooksUpIdentityFirst(d: Detail, o: Oracle)
    requires d.requestParameters.Some? && d.requestParameters.value.publicAccessBlockConfiguration.Some?
    ensures var p := d.requestParameters.value;
      var run := AccountAccessBlockRun(d, o);
      (p.publicAccessBlockConfiguration.value == AllBlocked ==> run == Run(Normal(()), []))
      && (p.publicAccessBlockConfiguration.value != AllBlocked ==>
            run.calls[0] == GetCallerIdentity
            && (o.getCallerIdentity.Answered? ==>
                  run.calls == [GetCallerIdentity, PutAccountPublicAccessBlock(o.getCallerIdentity.value, AllBlocked)])
            && (o.getCallerIdentity.Threw? ==> run == Run(Fault(SdkRejected), [GetCallerIdentity])))
  {
  }

  /** A missing configuration throws before any call, at both scopes. */
  lemma MissingAccessBlockConfigurationFaults(d: Detail, o: Oracle)
    requires d.requestParameters.Some? && d.requestParameters.value.publicAccessBlockConfiguration.None?
    ensures BucketAccessBlockRun(d, o) == Run(Fault(MissingAccessBlockConfiguration), [])
    ensures AccountAccessBlockRun(d, o) == Run(Fault(MissingAccessBlockConfiguration), [])
  {
  }

  // ---------------------------------------------------------------------
  // Dispatch and handler

  /** A missing `detail` or a falsy `eventName` makes no call; the
      dispatcher returns false and the handler true. */
  lemma UnusableEventIssuesNoCalls(e: Event, o: Oracle)
    requires e.detail.None? || !TruthyString(e.detail.value.eventName)
    ensures FuseboxRun(e, o) == Run(Normal(false), [])
    ensures HandlerRun(e, o) == Run(Normal(true), [])
  {
  }

  /** An unrecognised event name makes no call and the handler returns true. */
  lemma UnrecognisedEventIssuesNoCalls(e: Event, o: Oracle)
    requires e.detail.Some? && e.detail.value.eventName.Some?
    requires !Recognised(e.detail.value.eventName.value)
    ensures HandlerRun(e, o) == Run(Normal(true), [])
  {
  }

  /** A recognised name runs exactly the branch of that name: the handler's
      calls are that branch's calls. */
  lemma HandlerDispatchesByExactName(e: Event, o: Oracle)
    requires e.detail.Some? && e.detail.value.eventName.Some?
    ensures var d := e.detail.value;
      var name := d.eventName.value;
      var calls := HandlerRun(e, o).calls;
      (name == "PutBucketAcl" ==> calls == BucketAclRun(d, o).calls)
      && (name == "PutObjectAcl" ==> calls == ObjectAclRun(d, o).calls)
      && (name == "PutBucketPublicAccessBlock" ==> calls == BucketAccessBlockRun(d, o).calls)
      && (name == "PutAccountPublicAccessBlock" ==> calls == AccountAccessBlockRun(d, o).calls)
  {
  }

  /** The handler returns true whenever no exception escapes, whatever the
      branch returned. */
  lemma HandlerReturnsTrueUnlessFault(e: Event, o: Oracle)
    ensures HandlerRun(e, o).outcome.Normal? ==> HandlerRun(e, o).outcome == Normal(true)
    ensures HandlerRun(e, o).outcome.Fault? <==> FuseboxRun(e, o).outcome.Fault?
  {
  }

  /** A write that can only close access: a private object ACL, a bucket ACL
      holding log-delivery grants alone (or the canned `private`), or a
      public-access block with all four flags set. */
  predicate Tightens(c: Call) {
    match c
    case PutObjectAcl(_, _, acl) => acl == "private"
    case PutBucketAclCanned(_, acl) => acl == "private"
    case PutBucketAclPolicy(_, grants, _) => forall g <- grants :: IsLogDeliveryGrant(g)
    case PutPublicAccessBlock(_, config) => config == AllBlocked
    case PutAccountPublicAccessBlock(_, config) => config == AllBlocked
    case _ => false
  }

  /** One invocation issues at most one remediation write, and every write
      it issues tightens access. */
  lemma HandlerWritesAtMostOnceAndOnlyTightens(e: Event, o: Oracle)
    ensures |Writes(HandlerRun(e, o).calls)| <= 1
    ensures forall c <- Writes(HandlerRun(e, o).calls) :: Tightens(c)
  {
    var calls := HandlerRun(e, o).calls;
    WritesOfFew(calls);
    if e.detail.Some? && TruthyString(e.detail.value.eventName)
       && e.detail.value.eventName.value == BucketAclEvent
    {
      var d := e.detail.value;
      if |calls| == 2 {
        var acl := o.getBucketAcl.value;
        assert calls[1] == PutBucketAclPolicy(OwnerId(acl), LogDeliveryGrants(acl.grants.GetOr([])), acl.owner);
      }
    }
  }

  /** The guards apply to the bucket-ACL path only: an object-ACL event that
      asked for `private` and carries an error code is still remediated. */
  lemma GuardsOnlyOnBucketAclPath()
    ensures var p := RequestParameters(Some("b"), Some("k"), Some(["private"]), None);
      var d := Detail(Some("PutObjectAcl"), Some(p), Some("AccessDenied"), None);
      var shared := AclSnapshot(Some(Owner(Some("owner"), None)), Some([GroupGrant("AllUsers"), GroupGrant("x")]));
      var o := Oracle(Threw, Threw, Answered(shared), Answered(()), Threw, Threw, Threw);
      ShortCircuitShould(p) && LoopPrevent(d)
      && HandlerRun(Event(Some(d)), o)
         == Run(Normal(true), [GetObjectAcl(Some("b"), Some("k")), PutObjectAcl(Some("b"), Some("k"), "private")])
  {
  }
}
