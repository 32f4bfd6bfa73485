/** What holds after any number of qualification invocations, wherever each was cut off. */
module QualificationRuns {
  import opened Wrappers
  import opened Text
  import opened Sorting
  import opened Checkpoints
  import opened Qualification

  // ---------------------------------------------------------------- invariant

  /** The artifact surfaces a run has identified by the time it is in a phase. */
  function SurfacesAt(p: Phase): set<Surface>
  {
    match p
    case Created => {}
    case Verified => SURFACES
    case Cleaned => SURFACES
    case _ => {B2Archive}
  }

  predicate NeedsJob(p: Phase)
  {
    p in {RestoreRequested, RestorePending, Restored, Verified, Cleaned, Failed}
  }

  /** Every record proves what its phase requires, and the identities match the phase. */
  ghost predicate Evidenced(b: Body)
  {
    && (forall i :: 0 <= i < |b.history| ==> Required(b.history[i].phase, b.identity.corpusProfile) <= b.history[i].assertions)
    && SurfacesOf(b.artifacts) == SurfacesAt(b.phase)
    && (!b.phase.Created? ==> b.collectionId.Some?)
    && (NeedsJob(b.phase) ==> b.retrievalJobId.Some?)
  }

  ghost predicate Good(c: Checkpoint)
  {
    Sealed(c) && ContentsOk(c.body) && Chained(c.body) && Evidenced(c.body)
  }

  /** Every checkpoint written so far is good and descends from the one that was loaded. */
  ghost predicate ProgressOk(loaded: Checkpoint, p: Progress)
  {
    && Good(p.c) && Ancestor(loaded.body, p.c.body)
    && (forall k :: 0 <= k < |p.writes| ==> Good(p.writes[k]) && Ancestor(loaded.body, p.writes[k].body))
    && (p.status.Going? ==> p.c.body.keyId.Some?)
  }

  /** The last step of a chain, seen from the earlier body. */
  lemma AdvancedContents(c: Body, r: Body, artifacts: seq<Artifact>)
    requires ContentsOk(c) && Advances(c, r) && Chained(r)
    requires forall a :: a in r.artifacts <==> a in c.artifacts || a in artifacts
    requires SurfacesOf(artifacts) <= SURFACES
    requires r.retrievalJobId.Some? ==> r.keyId.Some?
    ensures ContentsOk(r) && SurfacesOf(r.artifacts) == SurfacesOf(c.artifacts) + SurfacesOf(artifacts)
  {
    ChainFacts(r);
    forall a | a in r.artifacts ensures a.surface in SURFACES && ArtifactOk(a) {
      if a in artifacts { assert a.surface in SurfacesOf(artifacts); }
    }
  }

  lemma AdvancedHistory(c: Body, r: Body)
    requires Evidenced(c) && Advances(c, r) && r.identity == c.identity
    requires Required(r.phase, r.identity.corpusProfile) <= r.history[|c.history|].assertions
    ensures forall i :: 0 <= i < |r.history| ==> Required(r.history[i].phase, r.identity.corpusProfile) <= r.history[i].assertions
  {
    forall i | 0 <= i < |r.history|
      ensures Required(r.history[i].phase, r.identity.corpusProfile) <= r.history[i].assertions
    {
      if i < |c.history| { assert r.history[i] == r.history[..|c.history|][i]; }
    }
  }

  lemma AdvanceGood(
    c: Checkpoint, phase: Phase, assertions: set<Assertion>, collectionId: Option<int>, jobId: Option<string>,
    artifacts: seq<Artifact>, now: string)
    requires Good(c) && Advance(c, phase, assertions, collectionId, jobId, artifacts, now).Ok?
    requires Required(phase, c.body.identity.corpusProfile) <= assertions
    requires SurfacesOf(c.body.artifacts) + SurfacesOf(artifacts) == SurfacesAt(phase)
    requires SurfacesOf(artifacts) <= SURFACES
    requires !phase.Created? ==> collectionId.Some? || c.body.collectionId.Some?
    requires NeedsJob(phase) ==> jobId.Some? || c.body.retrievalJobId.Some?
    requires jobId.Some? ==> c.body.keyId.Some?
    ensures var r := Advance(c, phase, assertions, collectionId, jobId, artifacts, now).value;
      Good(r) && Ancestor(c.body, r.body) && r.body.keyId == c.body.keyId && r.body.phase == phase
  {
    var r := Advance(c, phase, assertions, collectionId, jobId, artifacts, now).value;
    AdvanceChains(c, phase, assertions, collectionId, jobId, artifacts, now);
    AdvancedContents(c.body, r.body, artifacts);
    AdvancedHistory(c.body, r.body);
    assert Ancestor(c.body, c.body);
  }

  lemma {:induction false} AncestorTransitive(a: Body, b: Body, c: Body)
    requires Ancestor(a, b) && Ancestor(b, c)
    ensures Ancestor(a, c)
    decreases c
  {
    if b != c {
      AncestorTransitive(a, b, c.previous.value.body);
    }
  }

  /** Advancing and writing keeps the progress in order. */
  lemma SaveOk(loaded: Checkpoint, p: Progress, phase: Phase, assertions: set<Assertion>, collectionId: Option<int>,
               jobId: Option<string>, artifacts: seq<Artifact>, now: string)
    requires ProgressOk(loaded, p) && p.status.Going?
    requires Required(phase, p.c.body.identity.corpusProfile) <= assertions
    requires SurfacesAt(p.c.body.phase) + SurfacesOf(artifacts) == SurfacesAt(phase)
    requires SurfacesOf(artifacts) <= SURFACES
    requires !phase.Created? ==> collectionId.Some? || p.c.body.collectionId.Some?
    requires NeedsJob(phase) ==> jobId.Some? || p.c.body.retrievalJobId.Some?
    ensures ProgressOk(loaded, Save(p, Advance(p.c, phase, assertions, collectionId, jobId, artifacts, now)))
    ensures var q := Save(p, Advance(p.c, phase, assertions, collectionId, jobId, artifacts, now));
      q.status.Going? ==> q.c.body.phase == phase && q.c.body.identity == p.c.body.identity
  {
    var r := Advance(p.c, phase, assertions, collectionId, jobId, artifacts, now);
    if r.Ok? {
      AdvanceGood(p.c, phase, assertions, collectionId, jobId, artifacts, now);
      AncestorTransitive(loaded.body, p.c.body, r.value.body);
    }
  }

  // ------------------------------------------------------------------- stages

  lemma BoundGood(c: Checkpoint, r: Checkpoint)
    requires Good(c) && Sealed(r) && Chained(r.body) && Binds(c.body, r.body) && r.body.identity == c.body.identity
    ensures Good(r)
  {
  }

  lemma BindOk(c: Checkpoint, inv: Invocation)
    requires Good(c)
    ensures ProgressOk(c, Bind(c, inv))
  {
    assert Ancestor(c.body, c.body);
    if inv.matches && inv.keyId.Some? {
      var r := BindKey(c, inv.keyId.value, inv.at(Created));
      if r.Ok? {
        BindChains(c, inv.keyId.value, inv.at(Created));
        if r.value != c {
          BoundGood(c, r.value);
        }
        assert Ancestor(c.body, r.value.body);
        assert Bind(c, inv) == Progress(r.value, [r.value], Going);
      }
    }
  }

  lemma UploadedOk(loaded: Checkpoint, p: Progress, u: Upload, now: string)
    requires ProgressOk(loaded, p) && Phased(p, Created) && UploadRequired(p.c.body.identity.corpusProfile) <= u.observed
    ensures ProgressOk(loaded, Uploaded(p, u, now))
  {
    var a := Artifact(B2Archive, u.sha256, u.objects, u.bytes);
    assert SurfacesOf([a]) == {B2Archive};
    SaveOk(loaded, p, ImmediateQualified, u.observed + IMMEDIATE, Some(u.collectionId), None, [a], now);
  }

  lemma QualifyOk(loaded: Checkpoint, p: Progress, inv: Invocation)
    requires ProgressOk(loaded, p)
    ensures ProgressOk(loaded, Qualify(p, inv))
  {
    if Phased(p, Created) && inv.upload.Some? && UploadRequired(p.c.body.identity.corpusProfile) <= inv.upload.value.observed {
      UploadedOk(loaded, p, inv.upload.value, inv.at(ImmediateQualified));
    }
  }

  lemma NoArtifacts()
    ensures SurfacesOf([]) == {}
  {
  }

  lemma CopyDeepOk(loaded: Checkpoint, p: Progress, inv: Invocation)
    requires ProgressOk(loaded, p)
    ensures ProgressOk(loaded, CopyDeep(p, inv))
  {
    NoArtifacts();
    if Phased(p, ImmediateQualified) {
      SaveOk(loaded, p, DeepArchiveUploaded, UPLOADED, None, None, [], inv.at(DeepArchiveUploaded));
    }
  }

  lemma ObserveCacheOk(loaded: Checkpoint, p: Progress, inv: Invocation)
    requires ProgressOk(loaded, p)
    ensures ProgressOk(loaded, ObserveCache(p, inv))
  {
    NoArtifacts();
    if Phased(p, DeepArchiveUploaded) {
      SaveOk(loaded, p, DeepArchiveCacheObserved, CACHE_OBSERVED, None, None, [], inv.at(DeepArchiveCacheObserved));
    }
  }

  lemma RequestOk(loaded: Checkpoint, p: Progress, plan: RestorePlan, now: string)
    requires ProgressOk(loaded, p) && Phased(p, DeepArchiveCacheObserved)
    ensures ProgressOk(loaded, Request(p, plan, now))
  {
    NoArtifacts();
    if plan.Requested? {
      SaveOk(loaded, p, RestoreRequested, REQUESTED, None, Some(plan.jobId), [], now);
    }
  }

  lemma RequestRestoreOk(loaded: Checkpoint, p: Progress, inv: Invocation)
    requires ProgressOk(loaded, p)
    ensures ProgressOk(loaded, RequestRestore(p, inv))
  {
    if Phased(p, DeepArchiveCacheObserved) && inv.plan.Some? {
      RequestOk(loaded, p, inv.plan.value, inv.at(RestoreRequested));
    }
  }

  lemma FailOk(loaded: Checkpoint, p: Progress, inv: Invocation, reason: Assertion)
    requires ProgressOk(loaded, p) && (Phased(p, RestoreRequested) || Phased(p, RestorePending))
    ensures ProgressOk(loaded, Fail(p, inv, reason)) && !Fail(p, inv, reason).status.Going?
  {
    NoArtifacts();
    SaveOk(loaded, p, Failed, {reason, B2TerminalPrefixRemoved}, None, None, [], inv.at(Failed));
  }

  lemma VerifyOk(loaded: Checkpoint, p: Progress, inv: Invocation)
    requires ProgressOk(loaded, p) && (p.status.Going? ==> p.c.body.phase.Restored?)
    ensures ProgressOk(loaded, Verify(p, inv))
  {
    if p.status.Going? && inv.verification.Some? {
      var v := inv.verification.value;
      var aws := Artifact(AwsDeepArchive, v.sha256, v.objects, v.bytes);
      var cloudfront := Artifact(CloudfrontEgress, v.sha256, v.objects, v.bytes);
      assert SurfacesOf([aws, cloudfront]) == {AwsDeepArchive, CloudfrontEgress} by {
        assert aws in [aws, cloudfront] && cloudfront in [aws, cloudfront];
      }
      SaveOk(loaded, p, Verified, VERIFIED, None, None, [aws, cloudfront], inv.at(Verified));
    }
  }

  lemma PendOk(loaded: Checkpoint, p: Progress, now: string)
    requires ProgressOk(loaded, p) && (Phased(p, RestoreRequested) || Phased(p, RestorePending))
    ensures ProgressOk(loaded, Pend(p, now))
  {
    NoArtifacts();
    SaveOk(loaded, p, RestorePending, {DeepArchiveRestorePending}, None, None, [], now);
  }

  lemma RestoreOk(loaded: Checkpoint, p: Progress, now: string)
    requires ProgressOk(loaded, p) && (Phased(p, RestoreRequested) || Phased(p, RestorePending))
    ensures var q := Restore(p, now); ProgressOk(loaded, q) && (q.status.Going? ==> q.c.body.phase.Restored?)
  {
    NoArtifacts();
    SaveOk(loaded, p, Restored, {DeepArchiveRestoreReady}, None, None, [], now);
  }

  lemma AnswerJobOk(loaded: Checkpoint, p: Progress, inv: Invocation, job: JobState)
    requires ProgressOk(loaded, p) && (Phased(p, RestoreRequested) || Phased(p, RestorePending))
    ensures ProgressOk(loaded, AnswerJob(p, inv, job))
  {
    match job
    case JobFailed => FailOk(loaded, p, inv, DeepArchiveRetrievalFailed);
    case JobCanceled => FailOk(loaded, p, inv, DeepArchiveRetrievalCanceled);
    case JobExpired => FailOk(loaded, p, inv, DeepArchiveRetrievalExpired);
    case JobRequested => PendOk(loaded, p, inv.at(RestorePending));
    case JobReady =>
      RestoreOk(loaded, p, inv.at(Restored));
      VerifyOk(loaded, Restore(p, inv.at(Restored)), inv);
    case JobUnknown =>
  }

  lemma AwaitRestoreOk(loaded: Checkpoint, p: Progress, inv: Invocation)
    requires ProgressOk(loaded, p)
    ensures ProgressOk(loaded, AwaitRestore(p, inv))
  {
    if Phased(p, RestoreRequested) || Phased(p, RestorePending) {
      if inv.pastDeadline {
        FailOk(loaded, p, inv, DeepArchiveRestoreDeadlineExceeded);
      } else if inv.job.Some? {
        AnswerJobOk(loaded, p, inv, inv.job.value);
      }
    }
  }

  lemma CleanOk(loaded: Checkpoint, p: Progress, inv: Invocation)
    requires ProgressOk(loaded, p)
    ensures ProgressOk(loaded, Clean(p, inv))
  {
    NoArtifacts();
    if Phased(p, Verified) {
      SaveOk(loaded, p, Cleaned, CLEANED, None, None, [], inv.at(Cleaned));
    }
  }

  /** Every checkpoint an invocation writes is accepted by the loader, is evidenced, and descends by
      the digest chain from the one it loaded. */
  lemma OperateOk(c: Checkpoint, inv: Invocation)
    requires Good(c)
    ensures ProgressOk(c, Operate(c, inv))
  {
    BindOk(c, inv);
    var p1 := Bind(c, inv);
    QualifyOk(c, p1, inv);
    var p2 := Qualify(p1, inv);
    CopyDeepOk(c, p2, inv);
    var p3 := CopyDeep(p2, inv);
    ObserveCacheOk(c, p3, inv);
    var p4 := ObserveCache(p3, inv);
    RequestRestoreOk(c, p4, inv);
    var p5 := RequestRestore(p4, inv);
    AwaitRestoreOk(c, p5, inv);
    CleanOk(c, AwaitRestore(p5, inv), inv);
  }

  // --------------------------------------------------------------------- runs

  lemma RoundGood(disk: Checkpoint, inv: Invocation, kept: nat)
    requires Good(disk)
    ensures Good(Round(disk, inv, kept)) && Ancestor(disk.body, Round(disk, inv, kept).body)
  {
    assert Ancestor(disk.body, disk.body);
    OperateOk(disk, inv);
  }

  /** After any invocations, cut off anywhere, the file is good and descends from the first one. */
  lemma {:induction false} RoundsGood(disk: Checkpoint, rounds: seq<(Invocation, nat)>)
    requires Good(disk)
    ensures Good(Rounds(disk, rounds)) && Ancestor(disk.body, Rounds(disk, rounds).body)
  {
    if rounds == [] {
      assert Ancestor(disk.body, disk.body);
    } else {
      RoundsGood(disk, rounds[..|rounds| - 1]);
      var before, last := Rounds(disk, rounds[..|rounds| - 1]), rounds[|rounds| - 1];
      RoundGood(before, last.0, last.1);
      AncestorTransitive(disk.body, before.body, Rounds(disk, rounds).body);
    }
  }

  /** A fresh checkpoint starts a good run. */
  lemma NewGood(identity: Identity, buckets: seq<Bucket>)
    requires New(identity, buckets).Ok?
    ensures Good(New(identity, buckets).value)
  {
    NewChains(identity, buckets);
    NoArtifacts();
  }

  /** What `load_config` and `resolve_buckets` guarantee of their results. */
  ghost predicate Resolved(identity: Identity, buckets: seq<Bucket>)
  {
    && identity.restoreTier == "bulk" && identity.restoreCopyDays >= 1 && IsHex(identity.providerBinding, 64)
    && forall b :: b in buckets ==> Assigned(b) && b.region != ""
  }

  /** Each logical bucket has one provider and one role. */
  predicate Assigned(b: Bucket)
  {
    (b.logicalName, b.provider, b.role) in
    {("b2-archive", "b2", "archive"), ("b2-retrieval-cache", "b2", "retrieval-cache"), ("aws-deep-archive", "aws", "deep-archive")}
  }

  lemma AssignedRole(b: Bucket)
    requires Assigned(b)
    ensures RoleOk(Contract(b))
  {
  }

  lemma ByLogicalNameTotal()
    ensures TotalOrder(ByLogicalName)
  {
    forall a: Bucket, b: Bucket ensures ByLogicalName(a, b) || ByLogicalName(b, a) {
      LexTotal(a.logicalName, b.logicalName);
    }
    forall a: Bucket, b: Bucket, c: Bucket | ByLogicalName(a, b) && ByLogicalName(b, c) ensures ByLogicalName(a, c) {
      LexTransitive(a.logicalName, b.logicalName, c.logicalName);
    }
  }

  lemma ContractsOrdered(buckets: seq<Bucket>)
    ensures Ordered(Contracts(buckets), ProviderByName)
  {
    var s := Sort(buckets, ByLogicalName);
    ByLogicalNameTotal();
    SortOrdered(buckets, ByLogicalName);
    assert forall i, j :: 0 <= i < j < |s| ==> ByLogicalName(s[i], s[j]);
  }

  lemma ContractOf(buckets: seq<Bucket>, p: Provider)
    requires p in Contracts(buckets)
    ensures exists b :: b in buckets && p == Contract(b)
  {
    var s, r := Sort(buckets, ByLogicalName), Contracts(buckets);
    var i :| 0 <= i < |r| && r[i] == p;
    assert s[i] in s && s[i] in buckets;
  }

  lemma ContractFor(buckets: seq<Bucket>, b: Bucket)
    requires b in buckets
    ensures Contract(b) in Contracts(buckets)
  {
    var s, r := Sort(buckets, ByLogicalName), Contracts(buckets);
    assert b in s;
    var i :| 0 <= i < |s| && s[i] == b;
    assert r[i] == Contract(b);
  }

  lemma ContractNames(buckets: seq<Bucket>)
    ensures (set p | p in Contracts(buckets) :: p.logicalName) == (set b | b in buckets :: b.logicalName)
  {
    forall p | p in Contracts(buckets) ensures exists b :: b in buckets && b.logicalName == p.logicalName {
      ContractOf(buckets, p);
    }
    forall b | b in buckets ensures Contract(b) in Contracts(buckets) {
      ContractFor(buckets, b);
    }
  }

  /** A fresh checkpoint built from a loaded configuration is accepted by the loader. */
  lemma NewLoads(identity: Identity, buckets: seq<Bucket>)
    requires New(identity, buckets).Ok? && Resolved(identity, buckets)
    ensures Loads(New(identity, buckets).value)
  {
    ContractNames(buckets);
    ContractsOrdered(buckets);
    forall p | p in Contracts(buckets)
      ensures RoleOk(p) && p.region != ""
      ensures p.storageClass == (if p.provider == "aws" then "DEEP_ARCHIVE" else "STANDARD")
      ensures p.readMode == (if p.provider == "aws" then "restore_required" else "immediate")
    {
      ContractOf(buckets, p);
      var b :| b in buckets && p == Contract(b);
      AssignedRole(b);
    }
  }

  /** The loader accepts whatever the file holds at any time of any run. */
  lemma EveryFileLoads(identity: Identity, buckets: seq<Bucket>, rounds: seq<(Invocation, nat)>)
    requires New(identity, buckets).Ok? && Resolved(identity, buckets)
    ensures Loads(Rounds(New(identity, buckets).value, rounds))
  {
    var first := New(identity, buckets).value;
    NewLoads(identity, buckets);
    NewGood(identity, buckets);
    RoundsGood(first, rounds);
    ChainOnlyGrows(first.body, Rounds(first, rounds).body);
  }

  // ----------------------------------------------------------------- evidence

  /** The phases every path to a phase goes through. */
  function MustPass(p: Phase): set<Phase>
    decreases Rank(p)
  {
    match p
    case Created => {Created}
    case ImmediateQualified => {ImmediateQualified} + MustPass(Created)
    case DeepArchiveUploaded => {DeepArchiveUploaded} + MustPass(ImmediateQualified)
    case DeepArchiveCacheObserved => {DeepArchiveCacheObserved} + MustPass(DeepArchiveUploaded)
    case RestoreRequested => {RestoreRequested} + MustPass(DeepArchiveCacheObserved)
    case RestorePending => {RestorePending} + MustPass(RestoreRequested)
    case Restored => {Restored} + MustPass(RestoreRequested)
    case Verified => {Verified} + MustPass(Restored)
    case Cleaned => {Cleaned} + MustPass(Verified)
    case Failed => {Failed}
  }

  function Rank(p: Phase): nat
  {
    match p
    case Created => 0
    case ImmediateQualified => 1
    case DeepArchiveUploaded => 2
    case DeepArchiveCacheObserved => 3
    case RestoreRequested => 4
    case RestorePending => 5
    case Restored => 6
    case Verified => 7
    case Cleaned => 8
    case Failed => 9
  }

  lemma StepPasses(p: Phase, q: Phase)
    requires q in Transitions(p)
    ensures MustPass(q) <= {q} + MustPass(p) && Rank(p) <= Rank(q)
  {
  }

  lemma {:induction false} PathPasses(h: seq<PhaseRecord>, i: nat, p: Phase)
    requires IsPath(h) && i < |h| && p in MustPass(h[i].phase)
    ensures exists j :: 0 <= j <= i && h[j].phase == p
  {
    if i > 0 {
      StepPasses(h[i - 1].phase, h[i].phase);
      if p != h[i].phase {
        PathPasses(h, i - 1, p);
      }
    }
  }

  lemma {:induction false} ObservedContains(h: seq<PhaseRecord>, i: nat)
    requires i < |h|
    ensures h[i].assertions <= ObservedIn(h, h[i].phase)
  {
    if i < |h| - 1 {
      ObservedContains(h[..|h| - 1], i);
    }
  }

  lemma GatedMustPass()
    ensures GATED <= MustPass(Cleaned)
  {
    assert MustPass(DeepArchiveUploaded) == {Created, ImmediateQualified, DeepArchiveUploaded};
    assert MustPass(RestoreRequested) == {DeepArchiveCacheObserved, RestoreRequested} + MustPass(DeepArchiveUploaded);
    assert MustPass(Verified) == {Restored, Verified} + MustPass(RestoreRequested);
  }

  lemma PassedIsProved(b: Body, p: Phase)
    requires IsPath(b.history) && Evidenced(b) && p in MustPass(b.history[|b.history| - 1].phase)
    ensures Required(p, b.identity.corpusProfile) <= ObservedIn(b.history, p)
  {
    PathPasses(b.history, |b.history| - 1, p);
    var j :| 0 <= j < |b.history| && b.history[j].phase == p;
    ObservedContains(b.history, j);
    assert Required(b.history[j].phase, b.identity.corpusProfile) <= b.history[j].assertions;
  }

  /** A good checkpoint in `cleaned` passes the evidence gate. */
  lemma CleanedIsComplete(b: Body)
    requires Chained(b) && Evidenced(b) && b.phase.Cleaned?
    ensures Complete(b)
  {
    ChainFacts(b);
    GatedMustPass();
    forall p | p in GATED ensures Required(p, b.identity.corpusProfile) <= ObservedIn(b.history, p) {
      PassedIsProved(b, p);
    }
  }

  /** Whatever the profile, the invocations and the restarts: the evidence gate lets a run's
      checkpoint through exactly when the run has reached `cleaned` or `failed`. */
  lemma EvidenceNeverRaises(identity: Identity, buckets: seq<Bucket>, rounds: seq<(Invocation, nat)>)
    requires New(identity, buckets).Ok?
    ensures var b := Rounds(New(identity, buckets).value, rounds).body;
      GatePasses(b) <==> b.phase in {Cleaned, Failed}
  {
    NewGood(identity, buckets);
    RoundsGood(New(identity, buckets).value, rounds);
    var b := Rounds(New(identity, buckets).value, rounds).body;
    if b.phase.Cleaned? {
      CleanedIsComplete(b);
    }
  }

  // ------------------------------------------------------------------- phases

  lemma {:induction false} AncestorRank(a: Body, b: Body)
    requires Chained(b) && Ancestor(a, b)
    ensures Rank(a.phase) <= Rank(b.phase)
    decreases b
  {
    if a != b {
      var p := b.previous.value.body;
      AncestorRank(a, p);
      if Advances(p, b) {
        StepPasses(p.phase, b.phase);
      }
    }
  }

  /** The phase never moves backwards. */
  lemma PhaseNeverMovesBack(disk: Checkpoint, rounds: seq<(Invocation, nat)>)
    requires Good(disk)
    ensures Rank(disk.body.phase) <= Rank(Rounds(disk, rounds).body.phase)
  {
    RoundsGood(disk, rounds);
    AncestorRank(disk.body, Rounds(disk, rounds).body);
  }

  /** An invocation that starts in `restored` writes the same checkpoint back and does no more. */
  lemma RestoredIsNotResumed(c: Checkpoint, inv: Invocation)
    requires Good(c) && c.body.phase.Restored?
    ensures forall k :: 0 <= k < |Operate(c, inv).writes| ==> Operate(c, inv).writes[k] == c
    ensures Operate(c, inv).c == c
  {
    var p := Bind(c, inv);
    assert p.c == c && (p.writes == [] || p.writes == [c]);
    assert Qualify(p, inv) == p;
    assert CopyDeep(p, inv) == p;
    assert ObserveCache(p, inv) == p;
    assert RequestRestore(p, inv) == p;
    assert AwaitRestore(p, inv) == p;
    assert Clean(p, inv) == p;
  }

  /** So a run whose file holds `restored` between two invocations stays there for ever. */
  lemma {:induction false} RestoredIsStuck(disk: Checkpoint, rounds: seq<(Invocation, nat)>)
    requires Good(disk) && disk.body.phase.Restored?
    ensures Rounds(disk, rounds) == disk
  {
    if rounds != [] {
      RestoredIsStuck(disk, rounds[..|rounds| - 1]);
      RestoredIsNotResumed(disk, rounds[|rounds| - 1].0);
    }
  }

  // ----------------------------------------- getting past the unresumable phase

  /** Neither the checkpoint in memory nor any written one is past `restored`. */
  predicate Early(p: Progress)
  {
    && p.c.body.phase !in {Verified, Cleaned}
    && forall k :: 0 <= k < |p.writes| ==> p.writes[k].body.phase !in {Verified, Cleaned}
  }

  lemma SaveEarly(p: Progress, r: Result<Checkpoint, Error>, phase: Phase)
    requires Early(p) && phase !in {Verified, Cleaned} && (r.Ok? ==> r.value.body.phase == phase)
    ensures Early(Save(p, r)) && forall s :: Early(Save(p, r).(status := s))
  {
  }

  lemma QualifyEarly(p: Progress, inv: Invocation)
    requires Early(p)
    ensures Early(Qualify(p, inv))
  {
    if inv.upload.Some? {
      var u := inv.upload.value;
      SaveEarly(p, Advance(p.c, ImmediateQualified, u.observed + IMMEDIATE, Some(u.collectionId), None,
                           [Artifact(B2Archive, u.sha256, u.objects, u.bytes)], inv.at(ImmediateQualified)), ImmediateQualified);
    }
  }

  lemma ArchiveEarly(p: Progress, inv: Invocation)
    requires Early(p)
    ensures Early(CopyDeep(p, inv)) && Early(ObserveCache(p, inv))
  {
    SaveEarly(p, Advance(p.c, DeepArchiveUploaded, UPLOADED, None, None, [], inv.at(DeepArchiveUploaded)), DeepArchiveUploaded);
    SaveEarly(p, Advance(p.c, DeepArchiveCacheObserved, CACHE_OBSERVED, None, None, [], inv.at(DeepArchiveCacheObserved)),
              DeepArchiveCacheObserved);
  }

  lemma RequestEarly(p: Progress, inv: Invocation)
    requires Early(p)
    ensures Early(RequestRestore(p, inv))
  {
    if inv.plan.Some? && inv.plan.value.Requested? {
      SaveEarly(p, Advance(p.c, RestoreRequested, REQUESTED, None, Some(inv.plan.value.jobId), [], inv.at(RestoreRequested)),
                RestoreRequested);
      assert Early(Request(p, inv.plan.value, inv.at(RestoreRequested)));
    }
  }

  lemma FailEarly(p: Progress, inv: Invocation, reason: Assertion)
    requires Early(p)
    ensures Early(Fail(p, inv, reason))
  {
    SaveEarly(p, Advance(p.c, Failed, {reason, B2TerminalPrefixRemoved}, None, None, [], inv.at(Failed)), Failed);
  }

  predicate Finishes(inv: Invocation)
  {
    !inv.pastDeadline && inv.job == Some(JobReady) && inv.verification.Some?
  }

  lemma AnswerEarly(p: Progress, inv: Invocation, job: JobState)
    requires Early(p) && (job.JobReady? ==> inv.verification.None?)
    ensures Early(AnswerJob(p, inv, job))
  {
    match job
    case JobFailed => FailEarly(p, inv, DeepArchiveRetrievalFailed);
    case JobCanceled => FailEarly(p, inv, DeepArchiveRetrievalCanceled);
    case JobExpired => FailEarly(p, inv, DeepArchiveRetrievalExpired);
    case JobRequested =>
      SaveEarly(p, Advance(p.c, RestorePending, {DeepArchiveRestorePending}, None, None, [], inv.at(RestorePending)), RestorePending);
    case JobReady =>
      SaveEarly(p, Advance(p.c, Restored, {DeepArchiveRestoreReady}, None, None, [], inv.at(Restored)), Restored);
    case JobUnknown =>
  }

  lemma AwaitEarly(p: Progress, inv: Invocation)
    requires Early(p) && !Finishes(inv)
    ensures Early(AwaitRestore(p, inv))
  {
    if inv.pastDeadline {
      FailEarly(p, inv, DeepArchiveRestoreDeadlineExceeded);
    } else if inv.job.Some? {
      AnswerEarly(p, inv, inv.job.value);
    }
  }

  lemma OperateEarly(disk: Checkpoint, inv: Invocation)
    requires disk.body.phase !in {Verified, Cleaned} && !Finishes(inv)
    ensures Early(Operate(disk, inv))
  {
    var p1 := Bind(disk, inv);
    assert Early(p1);
    QualifyEarly(p1, inv);
    var p2 := Qualify(p1, inv);
    ArchiveEarly(p2, inv);
    var p3 := CopyDeep(p2, inv);
    ArchiveEarly(p3, inv);
    var p4 := ObserveCache(p3, inv);
    RequestEarly(p4, inv);
    var p5 := RequestRestore(p4, inv);
    AwaitEarly(p5, inv);
  }

  /** A run gets past `restored` only in an invocation that does not start there and that itself
      finds the job ready in time and completes the verification. */
  lemma OneInvocationPassesRestored(disk: Checkpoint, inv: Invocation, kept: nat)
    requires Good(disk) && disk.body.phase !in {Verified, Cleaned}
    requires Round(disk, inv, kept).body.phase in {Verified, Cleaned}
    ensures Finishes(inv) && !disk.body.phase.Restored?
  {
    if disk.body.phase.Restored? {
      RestoredIsNotResumed(disk, inv);
    }
    if !Finishes(inv) {
      OperateEarly(disk, inv);
    }
  }
}
