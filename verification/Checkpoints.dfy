/** The qualification checkpoint: a record of phases that is replaced by its successor and carries
    the digest of its predecessor. A digest is a constructor over the digested contents, so that it
    is collision free and its text is not modelled. */
module Checkpoints {
  import opened Wrappers
  import opened Text
  import opened Sorting

  datatype Phase =
    | Created
    | ImmediateQualified
    | DeepArchiveUploaded
    | DeepArchiveCacheObserved
    | RestoreRequested
    | RestorePending
    | Restored
    | Verified
    | Cleaned
    | Failed

  function Transitions(p: Phase): set<Phase>
  {
    match p
    case Created => {ImmediateQualified, Failed}
    case ImmediateQualified => {DeepArchiveUploaded, Failed}
    case DeepArchiveUploaded => {DeepArchiveCacheObserved, Failed}
    case DeepArchiveCacheObserved => {RestoreRequested, Failed}
    case RestoreRequested => {RestorePending, Restored, Failed}
    case RestorePending => {RestorePending, Restored, Failed}
    case Restored => {Verified, Failed}
    case Verified => {Cleaned, Failed}
    case Cleaned => {}
    case Failed => {}
  }

  datatype Provider = Provider(
    logicalName: string, provider: string, role: string, region: string, storageClass: string, readMode: string)

  /** The three surfaces a qualification identifies; `Unknown` is any other text. */
  datatype Surface = AwsDeepArchive | B2Archive | CloudfrontEgress | Unknown(name: string)

  function SurfaceText(s: Surface): string
  {
    match s
    case AwsDeepArchive => "aws-deep-archive"
    case B2Archive => "b2-archive"
    case CloudfrontEgress => "cloudfront-egress"
    case Unknown(name) => name
  }

  datatype Artifact = Artifact(surface: Surface, sha256: string, objects: int, bytes: int)

  /** The identifiers the protocol uses, one constructor each; `Custom` is any other text. */
  datatype Assertion =
    | CommittedPayloadProgress | SessionShow | RegisteredFileList | UploadWorkAcquisition | UnitReadback
    | ResumableClientInterrupted | ResumableClientRestarted
    | B2ImmediateClientRetrieval | B2IndependentRecovery | NativeCatalogSyncComplete | LifecycleCursorMonotonic
    | DownloadQuotaBounded | OpportunisticImmediateRetrieval | RetrievalRenewal | RetrievalLeaseBounded
    | DeepArchiveCopyCompleted | ArchiveCopyListShow | ArchiveCopyCancellation
    | IngressCacheListShowStatus | IngressCacheRetrievalVerified | NewArchiveLeaseObserved
    | OpportunisticCacheRetrieval | RetrievalPolicyEffectiveValues | FilesystemCacheLocalPlacementAndB2Overflow
    | DeepArchiveRestoreRequested | NewArchiveCacheExpired | CacheSweepCadenceObserved
    | OpportunisticPlanCostBoundary | RetrievalPlanAuthorityExact
    | DeepArchiveRestorePending | DeepArchiveRestoreReady
    | AwsDirectIndependentRecovery | CloudfrontSignedEgress | CloudfrontWarmCacheHit | B2RetrievalCacheHydrated
    | RetrievalCacheListShowStatus | RestorePollCadenceObserved | DeepClientRetrieval | DeepRetrievalAcknowledged
    | RestartBoundarySurvived
    | B2ArchiveCopyRetired | AwsCanaryRetainedForProviderMinimum | B2TerminalPrefixRemoved
    | B2PriorVersionRetentionBounded
    | DeepArchiveRestoreDeadlineExceeded | DeepArchiveRetrievalFailed | DeepArchiveRetrievalCanceled
    | DeepArchiveRetrievalExpired
    | Custom(text: string)

  datatype PhaseRecord = PhaseRecord(phase: Phase, at: string, assertions: set<Assertion>)

  /** The fields no operation changes. */
  datatype Identity = Identity(
    runId: string, sourceSha: string, sourceRef: string, configSha256: string,
    corpusSha256: string, corpusProfile: string, corpusFiles: int, corpusBytes: int,
    restoreTier: string, restoreCopyDays: int, providerBinding: string, providers: seq<Provider>,
    namespace: string, startedAt: string, restoreDeadlineAt: string)

  datatype Body = Body(
    identity: Identity,
    artifacts: seq<Artifact>,
    phase: Phase,
    generation: nat,
    previous: Option<Digest>,
    updatedAt: string,
    collectionId: Option<int>,
    retrievalJobId: Option<string>,
    keyId: Option<string>,
    history: seq<PhaseRecord>)

  datatype Digest = Sha(body: Body)

  datatype Checkpoint = Checkpoint(body: Body, digest: Digest)

  datatype Error =
    | DigestMismatch
    | BadTransition
    | BadAssertion
    | BadArtifact
    | ArtifactChanged
    | BadKey
    | KeyChanged
    | BadSource
    | MissingRoles
    | Unloadable

  predicate Sealed(c: Checkpoint) { c.digest == Sha(c.body) }

  function Seal(b: Body): (c: Checkpoint)
    ensures Sealed(c) && c.body == b
  {
    Checkpoint(b, Sha(b))
  }

  // -------------------------------------------------------------- identifiers

  predicate IsHex(s: string, length: nat)
  {
    |s| == length && forall i :: 0 <= i < |s| ==> '0' <= s[i] <= '9' || 'a' <= s[i] <= 'f'
  }

  /** Nonempty and at most 120 characters, as every identifier of the protocol is. */
  predicate Concise(a: Assertion) { a.Custom? ==> 0 < |a.text| <= 120 }

  predicate ArtifactOk(a: Artifact) { IsHex(a.sha256, 64) && a.objects > 0 && a.bytes >= 0 }

  // ---------------------------------------------------------------- artifacts

  predicate BySurface(a: Artifact, b: Artifact) { LexLeq(SurfaceText(a.surface), SurfaceText(b.surface)) }

  predicate UniqueSurfaces(d: seq<Artifact>)
  {
    forall i, j :: 0 <= i < j < |d| ==> d[i].surface != d[j].surface
  }

  function Find(d: seq<Artifact>, surface: Surface): (r: Option<nat>)
    ensures r.Some? ==> r.value < |d| && d[r.value].surface == surface
    ensures r.None? ==> forall i :: 0 <= i < |d| ==> d[i].surface != surface
  {
    if d == [] then None
    else if d[|d| - 1].surface == surface then Some(|d| - 1)
    else Find(d[..|d| - 1], surface)
  }

  /** Assignment into a dictionary keyed by surface, in insertion order. */
  function Put(d: seq<Artifact>, a: Artifact): seq<Artifact>
  {
    var i := Find(d, a.surface);
    if i.Some? then d[i.value := a] else d + [a]
  }

  /** The dictionary built from a checkpoint's artifacts. */
  function DictOf(artifacts: seq<Artifact>): seq<Artifact>
  {
    if artifacts == [] then [] else Put(DictOf(artifacts[..|artifacts| - 1]), artifacts[|artifacts| - 1])
  }

  /** The merge loop over new artifacts. */
  function MergeInto(d: seq<Artifact>, new': seq<Artifact>): Result<seq<Artifact>, Error>
  {
    if new' == [] then Ok(d)
    else
      var merged :- MergeInto(d, new'[..|new'| - 1]);
      var a := new'[|new'| - 1];
      if !ArtifactOk(a) then Err(BadArtifact)
      else
        var i := Find(merged, a.surface);
        if i.Some? && merged[i.value] != a then Err(ArtifactChanged) else Ok(Put(merged, a))
  }

  /** The same loop as the source runs it. */
  method Merge(artifacts: seq<Artifact>, new': seq<Artifact>) returns (r: Result<seq<Artifact>, Error>)
    ensures r.Ok? <==> MergeInto(DictOf(artifacts), new').Ok?
    ensures r.Ok? ==> r == MergeInto(DictOf(artifacts), new')
  {
    var merged := DictOf(artifacts);
    for k := 0 to |new'|
      invariant MergeInto(DictOf(artifacts), new'[..k]) == Ok(merged)
    {
      var a := new'[k];
      assert new'[..k + 1][..k] == new'[..k];
      ghost var failed := MergeInto(DictOf(artifacts), new'[..k + 1]).Err?;
      if failed {
        MergeFails(DictOf(artifacts), new', k + 1);
      }
      if !ArtifactOk(a) {
        return Err(BadArtifact);
      }
      var i := Find(merged, a.surface);
      if i.Some? && merged[i.value] != a {
        return Err(ArtifactChanged);
      }
      merged := Put(merged, a);
    }
    assert new'[..|new'|] == new';
    r := Ok(merged);
  }

  lemma {:induction false} MergeFails(d: seq<Artifact>, new': seq<Artifact>, k: nat)
    requires k <= |new'| && MergeInto(d, new'[..k]).Err?
    ensures MergeInto(d, new').Err?
    decreases |new'| - k
  {
    if k == |new'| {
      assert new'[..k] == new';
    } else {
      assert new'[..k + 1][..k] == new'[..k];
      MergeFails(d, new', k + 1);
    }
  }

  // --------------------------------------------------------------- operations

  datatype Bucket = Bucket(logicalName: string, provider: string, role: string, region: string)

  predicate ByLogicalName(a: Bucket, b: Bucket) { LexLeq(a.logicalName, b.logicalName) }

  function Contract(b: Bucket): Provider
  {
    Provider(b.logicalName, b.provider, b.role, b.region,
             if b.provider == "aws" then "DEEP_ARCHIVE" else "STANDARD",
             if b.provider == "aws" then "restore_required" else "immediate")
  }

  function Contracts(buckets: seq<Bucket>): (r: seq<Provider>)
    ensures |r| == |buckets|
  {
    var s := Sort(buckets, ByLogicalName);
    seq(|s|, i requires 0 <= i < |s| => Contract(s[i]))
  }

  const LOGICAL_NAMES := {"b2-archive", "b2-retrieval-cache", "aws-deep-archive"}

  /** `new_checkpoint`, given the identity fields other than the provider contracts. */
  function New(identity: Identity, buckets: seq<Bucket>): Result<Checkpoint, Error>
  {
    if !IsHex(identity.sourceSha, 40) then Err(BadSource)
    else if (set b | b in buckets :: b.logicalName) != LOGICAL_NAMES then Err(MissingRoles)
    else Ok(Seal(Body(identity.(providers := Contracts(buckets)), [], Created, 0, None, identity.startedAt,
                      None, None, None, [PhaseRecord(Created, identity.startedAt, {})])))
  }

  function Keep<T>(new': Option<T>, old': Option<T>): Option<T>
  {
    if new'.Some? then new' else old'
  }

  function Advance(
    c: Checkpoint, phase: Phase, assertions: set<Assertion>, collectionId: Option<int>, jobId: Option<string>,
    artifacts: seq<Artifact>, now: string): Result<Checkpoint, Error>
  {
    if !Sealed(c) then Err(DigestMismatch)
    else if phase !in Transitions(c.body.phase) then Err(BadTransition)
    else if exists a :: a in assertions && !Concise(a) then Err(BadAssertion)
    else
      var merged :- MergeInto(DictOf(c.body.artifacts), artifacts);
      Ok(Seal(c.body.(
        phase := phase,
        generation := c.body.generation + 1,
        previous := Some(c.digest),
        updatedAt := now,
        collectionId := Keep(collectionId, c.body.collectionId),
        retrievalJobId := Keep(jobId, c.body.retrievalJobId),
        artifacts := Sort(merged, BySurface),
        history := c.body.history + [PhaseRecord(phase, now, assertions)])))
  }

  /** `bind_qualification_key`, given the stripped and case-folded key. */
  function BindKey(c: Checkpoint, key: string, now: string): Result<Checkpoint, Error>
  {
    if !Sealed(c) then Err(DigestMismatch)
    else if !IsHex(key, 16) then Err(BadKey)
    else if c.body.keyId.Some? then (if c.body.keyId.value != key then Err(KeyChanged) else Ok(c))
    else Ok(Seal(c.body.(keyId := Some(key), generation := c.body.generation + 1, previous := Some(c.digest),
                         updatedAt := now)))
  }

  // ------------------------------------------------------------ the hash chain

  ghost predicate IsGenesis(b: Body)
  {
    && b.phase.Created? && b.generation == 0 && b.artifacts == [] && b.keyId.None?
    && b.collectionId.None? && b.retrievalJobId.None?
    && |b.history| == 1 && b.history[0].phase.Created?
  }

  /** Every artifact entry is kept as it is. */
  ghost predicate Grows(old': seq<Artifact>, new': seq<Artifact>)
  {
    forall a :: a in old' ==> a in new'
  }

  ghost predicate ArtifactsOk(d: seq<Artifact>)
  {
    Ordered(d, BySurface) && UniqueSurfaces(d) && forall a :: a in d ==> ArtifactOk(a)
  }

  ghost predicate Advances(p: Body, b: Body)
  {
    && b.phase in Transitions(p.phase)
    && |b.history| == |p.history| + 1
    && b.history[..|p.history|] == p.history
    && b.history[|p.history|].phase == b.phase
    && b.keyId == p.keyId
    && Grows(p.artifacts, b.artifacts) && ArtifactsOk(b.artifacts)
    && (p.collectionId.Some? ==> b.collectionId.Some?)
    && (p.retrievalJobId.Some? ==> b.retrievalJobId.Some?)
  }

  ghost predicate Binds(p: Body, b: Body)
  {
    && p.keyId.None? && b.keyId.Some? && IsHex(b.keyId.value, 16)
    && b.phase == p.phase && b.history == p.history && b.artifacts == p.artifacts
    && b.collectionId == p.collectionId && b.retrievalJobId == p.retrievalJobId
  }

  ghost predicate Succeeds(p: Body, b: Body)
  {
    b.identity == p.identity && b.generation == p.generation + 1 && (Advances(p, b) || Binds(p, b))
  }

  /** Following the digests back leads through legal steps to a fresh checkpoint. */
  ghost predicate Chained(b: Body)
    decreases b
  {
    match b.previous
    case None => IsGenesis(b)
    case Some(Sha(p)) => Chained(p) && Succeeds(p, b)
  }

  function ChainLength(b: Body): nat
    decreases b
  {
    match b.previous
    case None => 0
    case Some(Sha(p)) => 1 + ChainLength(p)
  }

  ghost predicate IsPath(h: seq<PhaseRecord>)
  {
    h != [] && h[0].phase.Created?
    && forall i :: 0 <= i < |h| - 1 ==> h[i + 1].phase in Transitions(h[i].phase)
  }

  /** What a chained checkpoint looks like: its history is a path of the transition table from
      `created` to its phase, its generation counts both the path and the key binding and equals the
      length of the digest chain, and its artifacts are in order, distinct and valid. */
  lemma {:induction false} ChainFacts(b: Body)
    requires Chained(b)
    ensures IsPath(b.history) && b.history[|b.history| - 1].phase == b.phase
    ensures b.generation == |b.history| - 1 + (if b.keyId.Some? then 1 else 0)
    ensures ChainLength(b) == b.generation
    ensures ArtifactsOk(b.artifacts)
    ensures b.keyId.Some? ==> IsHex(b.keyId.value, 16)
    decreases b
  {
    if b.previous.Some? {
      var p := b.previous.value.body;
      ChainFacts(p);
      if Advances(p, b) {
        forall i | 0 <= i < |b.history| - 1 ensures b.history[i + 1].phase in Transitions(b.history[i].phase) {
          assert b.history[i] == p.history[i];
          if i + 1 < |p.history| { assert b.history[i + 1] == p.history[i + 1]; }
        }
        assert b.history[0] == p.history[0];
      }
    }
  }

  /** `a` is `b` or lies on the digest chain of `b`. */
  ghost predicate Ancestor(a: Body, b: Body)
    decreases b
  {
    a == b || (b.previous.Some? && Ancestor(a, b.previous.value.body))
  }

  /** Along the chain the artifact map only grows, a bound key never changes, and the history of an
      ancestor is a prefix. */
  lemma {:induction false} ChainOnlyGrows(a: Body, b: Body)
    requires Chained(b) && Ancestor(a, b)
    ensures Chained(a) && a.identity == b.identity && a.generation <= b.generation
    ensures Grows(a.artifacts, b.artifacts) && a.history <= b.history
    ensures a.keyId.Some? ==> b.keyId == a.keyId
    decreases b
  {
    if a != b {
      ChainOnlyGrows(a, b.previous.value.body);
    }
  }

  // ------------------------------------------------------ operations and chain

  lemma BySurfaceTotal()
    ensures TotalOrder(BySurface)
  {
    forall a: Artifact, b: Artifact ensures BySurface(a, b) || BySurface(b, a) {
      LexTotal(SurfaceText(a.surface), SurfaceText(b.surface));
    }
    forall a: Artifact, b: Artifact, c: Artifact | BySurface(a, b) && BySurface(b, c) ensures BySurface(a, c) {
      LexTransitive(SurfaceText(a.surface), SurfaceText(b.surface), SurfaceText(c.surface));
    }
  }

  lemma {:induction false} DictOfUnique(d: seq<Artifact>)
    requires UniqueSurfaces(d)
    ensures DictOf(d) == d
  {
    if d != [] {
      DictOfUnique(d[..|d| - 1]);
      assert d == d[..|d| - 1] + [d[|d| - 1]];
    }
  }

  /** A successful merge keeps every entry, adds exactly the new ones, and stays a dictionary. */
  lemma {:induction false} MergeFacts(d: seq<Artifact>, new': seq<Artifact>)
    requires UniqueSurfaces(d) && MergeInto(d, new').Ok?
    ensures var m := MergeInto(d, new').value;
      UniqueSurfaces(m) && (forall a :: a in m <==> a in d || a in new') && (forall a :: a in new' ==> ArtifactOk(a))
  {
    if new' != [] {
      var rest, a := new'[..|new'| - 1], new'[|new'| - 1];
      MergeFacts(d, rest);
      var m := MergeInto(d, rest).value;
      assert forall x :: x in new' <==> x in rest || x == a;
      var i := Find(m, a.surface);
      if i.Some? {
        assert m[i.value := a] == m && m[i.value] in m;
      }
    }
  }

  lemma SortedStaysUnique(m: seq<Artifact>)
    requires UniqueSurfaces(m)
    ensures var sorted := Sort(m, BySurface);
      Ordered(sorted, BySurface) && UniqueSurfaces(sorted) && forall a :: a in sorted <==> a in m
  {
    BySurfaceTotal();
    SortOrdered(m, BySurface);
    var surface := (a: Artifact) => a.surface;
    assert DistinctKeys(m, surface);
    SortKeepsDistinct(m, BySurface, surface);
    var sorted := Sort(m, BySurface);
    forall i, j | 0 <= i < j < |sorted| ensures sorted[i].surface != sorted[j].surface {
      assert surface(sorted[i]) != surface(sorted[j]);
    }
  }

  lemma AdvanceChains(
    c: Checkpoint, phase: Phase, assertions: set<Assertion>, collectionId: Option<int>, jobId: Option<string>,
    artifacts: seq<Artifact>, now: string)
    requires Chained(c.body)
    requires Advance(c, phase, assertions, collectionId, jobId, artifacts, now).Ok?
    ensures var r := Advance(c, phase, assertions, collectionId, jobId, artifacts, now).value;
      && Sealed(r) && Chained(r.body) && Advances(c.body, r.body)
      && (forall a :: a in r.body.artifacts <==> a in c.body.artifacts || a in artifacts)
  {
    var d := c.body.artifacts;
    ChainFacts(c.body);
    DictOfUnique(d);
    MergeFacts(d, artifacts);
    SortedStaysUnique(MergeInto(d, artifacts).value);
  }

  lemma BindChains(c: Checkpoint, key: string, now: string)
    requires Chained(c.body) && BindKey(c, key, now).Ok?
    ensures var r := BindKey(c, key, now).value;
      Sealed(r) && Chained(r.body) && (r == c || Binds(c.body, r.body)) && r.body.keyId == Some(key)
  {
  }

  lemma NewChains(identity: Identity, buckets: seq<Bucket>)
    requires New(identity, buckets).Ok?
    ensures Sealed(New(identity, buckets).value) && Chained(New(identity, buckets).value.body)
  {
  }
}
