/** The loader that re-validates a checkpoint, the gate that turns one into evidence, and the
    invocations that carry a run from one checkpoint to the next. */
module Qualification {
  import opened Wrappers
  import opened Text
  import opened Sorting
  import opened Checkpoints

  // ------------------------------------------------------------------- loader

  const SURFACES := {B2Archive, AwsDeepArchive, CloudfrontEgress}

  predicate RoleOk(p: Provider)
  {
    || (p.logicalName == "b2-archive" && p.provider == "b2" && p.role == "archive")
    || (p.logicalName == "b2-retrieval-cache" && p.provider == "b2" && p.role == "retrieval-cache")
    || (p.logicalName == "aws-deep-archive" && p.provider == "aws" && p.role == "deep-archive")
  }

  predicate ProviderByName(a: Provider, b: Provider) { LexLeq(a.logicalName, b.logicalName) }

  predicate IdentityOk(i: Identity)
  {
    && i.restoreTier == "bulk" && i.restoreCopyDays >= 1
    && (forall p :: p in i.providers ==> RoleOk(p))
    && (set p | p in i.providers :: p.logicalName) == LOGICAL_NAMES
    && Ordered(i.providers, ProviderByName)
    && IsHex(i.providerBinding, 64)
    && (forall p :: p in i.providers ==>
          && p.region != ""
          && p.storageClass == (if p.provider == "aws" then "DEEP_ARCHIVE" else "STANDARD")
          && p.readMode == (if p.provider == "aws" then "restore_required" else "immediate"))
  }

  /** Everything `load_checkpoint` checks after parsing. */
  predicate Loads(c: Checkpoint)
  {
    var b := c.body;
    && IdentityOk(b.identity)
    && ContentsOk(b)
    && Sealed(c)
  }

  /** The checks on the fields that change during a run. */
  predicate ContentsOk(b: Body)
  {
    && b.history != [] && b.history[|b.history| - 1].phase == b.phase
    && Ordered(b.artifacts, BySurface)
    && (forall a :: a in b.artifacts ==> a.surface in SURFACES && ArtifactOk(a))
    && (b.keyId.Some? ==> IsHex(b.keyId.value, 16))
    && (b.retrievalJobId.Some? ==> b.keyId.Some?)
  }

  // --------------------------------------------------------------------- gate

  /** `_REQUIRED_PASS_ASSERTIONS_BY_PHASE`, with what the resumable profile adds. */
  function Required(p: Phase, profile: string): set<Assertion>
  {
    match p
    case ImmediateQualified =>
      UploadRequired(profile) + IMMEDIATE
    case DeepArchiveUploaded => UPLOADED
    case DeepArchiveCacheObserved => CACHE_OBSERVED
    case RestoreRequested => REQUESTED
    case Restored => {DeepArchiveRestoreReady}
    case Verified => VERIFIED
    case Cleaned => CLEANED
    case _ => {}
  }

  /** What `_upload_collection_with_observation` insists on. */
  function UploadRequired(profile: string): set<Assertion>
  {
    {CommittedPayloadProgress, SessionShow, RegisteredFileList, UploadWorkAcquisition, UnitReadback}
    + if profile == "resumable" then {ResumableClientInterrupted, ResumableClientRestarted} else {}
  }

  const IMMEDIATE :=
    {B2ImmediateClientRetrieval, B2IndependentRecovery, NativeCatalogSyncComplete,
     LifecycleCursorMonotonic, DownloadQuotaBounded, OpportunisticImmediateRetrieval,
     RetrievalRenewal, RetrievalLeaseBounded}
  const UPLOADED := {DeepArchiveCopyCompleted, ArchiveCopyListShow, ArchiveCopyCancellation}
  const CACHE_OBSERVED :=
    {IngressCacheListShowStatus, IngressCacheRetrievalVerified, NewArchiveLeaseObserved,
     OpportunisticCacheRetrieval, RetrievalPolicyEffectiveValues,
     FilesystemCacheLocalPlacementAndB2Overflow}
  const REQUESTED :=
    {DeepArchiveRestoreRequested, NewArchiveCacheExpired, CacheSweepCadenceObserved,
     OpportunisticPlanCostBoundary, RetrievalPlanAuthorityExact}
  const VERIFIED :=
    {AwsDirectIndependentRecovery, CloudfrontSignedEgress, CloudfrontWarmCacheHit,
     B2RetrievalCacheHydrated, RetrievalCacheListShowStatus, RetrievalRenewal,
     RestorePollCadenceObserved, DeepClientRetrieval, DeepRetrievalAcknowledged,
     RestartBoundarySurvived}
  const CLEANED :=
    {B2ArchiveCopyRetired, AwsCanaryRetainedForProviderMinimum, B2TerminalPrefixRemoved,
     B2PriorVersionRetentionBounded}

  /** Everything asserted in records of one phase. */
  function ObservedIn(h: seq<PhaseRecord>, p: Phase): set<Assertion>
  {
    if h == [] then {}
    else ObservedIn(h[..|h| - 1], p) + if h[|h| - 1].phase == p then h[|h| - 1].assertions else {}
  }

  const GATED := {ImmediateQualified, DeepArchiveUploaded, DeepArchiveCacheObserved, RestoreRequested, Restored, Verified, Cleaned}

  function SurfacesOf(d: seq<Artifact>): set<Surface>
  {
    set a | a in d :: a.surface
  }

  predicate Complete(b: Body)
  {
    && (forall p :: p in GATED ==> Required(p, b.identity.corpusProfile) <= ObservedIn(b.history, p))
    && SurfacesOf(b.artifacts) == SURFACES
  }

  /** When the gate lets a checkpoint through. */
  predicate GatePasses(b: Body)
  {
    b.phase.Failed? || (b.phase.Cleaned? && Complete(b))
  }

  /** `evidence_from_checkpoint`: passed, failed, or the exception it raises. */
  datatype Verdict = Passed | FailedRun
  datatype GateError = NotFinal | MissingAssertions | MissingArtifacts

  method Evidence(c: Checkpoint) returns (r: Result<Verdict, GateError>)
    ensures r.Ok? <==> GatePasses(c.body)
    ensures r.Ok? ==> (r.value == Passed <==> c.body.phase.Cleaned?)
  {
    if c.body.phase !in {Cleaned, Failed} {
      return Err(NotFinal);
    }
    var h := c.body.history;
    var observed: map<Phase, set<Assertion>> := map[];
    for i := 0 to |h|
      invariant forall p :: ObservedIn(h[..i], p) == if p in observed then observed[p] else {}
    {
      assert h[..i + 1][..i] == h[..i];
      var p := h[i].phase;
      observed := observed[p := (if p in observed then observed[p] else {}) + h[i].assertions];
    }
    assert h[..|h|] == h;
    if c.body.phase.Cleaned? {
      if p :| p in GATED && !(Required(p, c.body.identity.corpusProfile) <= if p in observed then observed[p] else {}) {
        return Err(MissingAssertions);
      }
      if SurfacesOf(c.body.artifacts) != SURFACES {
        return Err(MissingArtifacts);
      }
      return Ok(Passed);
    }
    return Ok(FailedRun);
  }

  // -------------------------------------------------------------- invocations

  datatype Upload = Upload(collectionId: int, observed: set<Assertion>, sha256: string, objects: int, bytes: int)
  datatype RestorePlan = StillCached | Requested(jobId: string)
  datatype JobState = JobRequested | JobFailed | JobCanceled | JobExpired | JobReady | JobUnknown
  datatype Verification = Verification(sha256: string, objects: int, bytes: int)

  /** Everything one invocation gets from providers, the API and the clock. `None` and `false` stand
      for an exception on the way to that answer. */
  datatype Invocation = Invocation(
    matches: bool,
    keyId: Option<string>,
    upload: Option<Upload>,
    copied: bool,
    cacheObserved: bool,
    plan: Option<RestorePlan>,
    pastDeadline: bool,
    cleaned: bool,
    job: Option<JobState>,
    verification: Option<Verification>,
    retired: bool,
    at: Phase -> string)

  datatype Status = Going | Returned | Raised

  /** Where an invocation is: its checkpoint in memory, what it has written so far, and how it ended. */
  datatype Progress = Progress(c: Checkpoint, writes: seq<Checkpoint>, status: Status)

  /** Assign the new checkpoint and write it, or let the exception out. */
  function Save(p: Progress, r: Result<Checkpoint, Error>): Progress
  {
    if r.Err? then p.(status := Raised) else Progress(r.value, p.writes + [r.value], p.status)
  }

  function Phased(p: Progress, phase: Phase): bool { p.status.Going? && p.c.body.phase == phase }

  function Bind(c: Checkpoint, inv: Invocation): Progress
  {
    var p := Progress(c, [], Going);
    if !inv.matches || inv.keyId.None? then p.(status := Raised)
    else Save(p, BindKey(c, inv.keyId.value, inv.at(Created)))
  }

  function Qualify(p: Progress, inv: Invocation): Progress
  {
    if !Phased(p, Created) then p
    else if inv.upload.None? || !(UploadRequired(p.c.body.identity.corpusProfile) <= inv.upload.value.observed)
    then p.(status := Raised)
    else Uploaded(p, inv.upload.value, inv.at(ImmediateQualified))
  }

  function Uploaded(p: Progress, u: Upload, now: string): Progress
  {
    Save(p, Advance(p.c, ImmediateQualified, u.observed + IMMEDIATE, Some(u.collectionId), None,
                    [Artifact(B2Archive, u.sha256, u.objects, u.bytes)], now))
  }

  function CopyDeep(p: Progress, inv: Invocation): Progress
  {
    if !Phased(p, ImmediateQualified) then p
    else if p.c.body.collectionId.None? || !inv.copied then p.(status := Raised)
    else Save(p, Advance(p.c, DeepArchiveUploaded, UPLOADED, None, None, [], inv.at(DeepArchiveUploaded)))
  }

  function ObserveCache(p: Progress, inv: Invocation): Progress
  {
    if !Phased(p, DeepArchiveUploaded) then p
    else if p.c.body.collectionId.None? || !inv.cacheObserved then p.(status := Raised)
    else Save(p, Advance(p.c, DeepArchiveCacheObserved, CACHE_OBSERVED, None, None, [], inv.at(DeepArchiveCacheObserved)))
  }

  function RequestRestore(p: Progress, inv: Invocation): Progress
  {
    if !Phased(p, DeepArchiveCacheObserved) then p
    else if p.c.body.collectionId.None? || inv.plan.None? then p.(status := Raised)
    else Request(p, inv.plan.value, inv.at(RestoreRequested))
  }

  function Request(p: Progress, plan: RestorePlan, now: string): Progress
  {
    match plan
    case StillCached => p.(status := Returned)
    case Requested(jobId) =>
      if |jobId| == 0 then p.(status := Raised)
      else Save(p, Advance(p.c, RestoreRequested, REQUESTED, None, Some(jobId), [], now))
  }

  /** Ends the run as failed, after the cleanup it needs. */
  function Fail(p: Progress, inv: Invocation, reason: Assertion): Progress
  {
    if !inv.cleaned then p.(status := Raised)
    else
      var q := Save(p, Advance(p.c, Failed, {reason, B2TerminalPrefixRemoved}, None, None, [], inv.at(Failed)));
      if q.status.Going? then q.(status := Returned) else q
  }

  function AwaitRestore(p: Progress, inv: Invocation): Progress
  {
    if !Phased(p, RestoreRequested) && !Phased(p, RestorePending) then p
    else if p.c.body.collectionId.None? || p.c.body.retrievalJobId.None? then p.(status := Raised)
    else if inv.pastDeadline then Fail(p, inv, DeepArchiveRestoreDeadlineExceeded)
    else if inv.job.None? then p.(status := Raised)
    else AnswerJob(p, inv, inv.job.value)
  }

  function AnswerJob(p: Progress, inv: Invocation, job: JobState): Progress
  {
    match job
    case JobUnknown => p.(status := Raised)
    case JobRequested => Pend(p, inv.at(RestorePending))
    case JobFailed => Fail(p, inv, DeepArchiveRetrievalFailed)
    case JobCanceled => Fail(p, inv, DeepArchiveRetrievalCanceled)
    case JobExpired => Fail(p, inv, DeepArchiveRetrievalExpired)
    case JobReady => Verify(Restore(p, inv.at(Restored)), inv)
  }

  function Pend(p: Progress, now: string): Progress
  {
    var q := Save(p, Advance(p.c, RestorePending, {DeepArchiveRestorePending}, None, None, [], now));
    if q.status.Going? then q.(status := Returned) else q
  }

  function Restore(p: Progress, now: string): Progress
  {
    Save(p, Advance(p.c, Restored, {DeepArchiveRestoreReady}, None, None, [], now))
  }

  /** The rest of the same branch: only an invocation that has just written `restored` gets here. */
  function Verify(p: Progress, inv: Invocation): Progress
  {
    if !p.status.Going? then p
    else if inv.verification.None? then p.(status := Raised)
    else
      var v := inv.verification.value;
      Save(p, Advance(p.c, Verified, VERIFIED, None, None,
                      [Artifact(AwsDeepArchive, v.sha256, v.objects, v.bytes),
                       Artifact(CloudfrontEgress, v.sha256, v.objects, v.bytes)], inv.at(Verified)))
  }

  function Clean(p: Progress, inv: Invocation): Progress
  {
    if !Phased(p, Verified) then p
    else if p.c.body.collectionId.None? || !inv.retired || !inv.cleaned then p.(status := Raised)
    else Save(p, Advance(p.c, Cleaned, CLEANED, None, None, [], inv.at(Cleaned)))
  }

  /** `operate_qualification`. */
  function Operate(c: Checkpoint, inv: Invocation): Progress
  {
    Clean(AwaitRestore(RequestRestore(ObserveCache(CopyDeep(Qualify(Bind(c, inv), inv), inv), inv), inv), inv), inv)
  }

  /** The file after an invocation of which only the first `kept` writes reached the disk. An
      invocation begins by loading the file, which may refuse it. */
  function Round(disk: Checkpoint, inv: Invocation, kept: nat): Checkpoint
  {
    if !Loads(disk) then disk else FileAfter(disk, Operate(disk, inv).writes, kept)
  }

  /** What a file holds after the first `kept` of some writes. */
  function FileAfter(disk: Checkpoint, writes: seq<Checkpoint>, kept: nat): Checkpoint
  {
    var n := if kept < |writes| then kept else |writes|;
    if n == 0 then disk else writes[n - 1]
  }

  /** Any number of invocations, each cut off anywhere between its writes. */
  function Rounds(disk: Checkpoint, rounds: seq<(Invocation, nat)>): Checkpoint
  {
    if rounds == [] then disk
    else
      var (inv, kept) := rounds[|rounds| - 1];
      Round(Rounds(disk, rounds[..|rounds| - 1]), inv, kept)
  }
}
