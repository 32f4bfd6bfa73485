/** Which checkpoints an invocation can resume. */
module QualificationResume {
  import opened Wrappers
  import opened Checkpoints
  import opened Qualification
  import opened QualificationRuns

  /** The phases that no branch of an invocation leads out of when it starts there. */
  predicate Ends(p: Phase)
  {
    p in {Restored, Cleaned, Failed}
  }

  /** An invocation in which everything is answered well until the restored copy is verified, which raises. */
  predicate Smooth(inv: Invocation, c: Checkpoint)
  {
    && inv.matches && inv.keyId.Some? && IsHex(inv.keyId.value, 16)
    && (c.body.keyId.Some? ==> inv.keyId == c.body.keyId)
    && inv.upload.Some? && SmoothUpload(inv.upload.value)
    && inv.copied && inv.cacheObserved && inv.plan.Some? && inv.plan.value.Requested? && inv.plan.value.jobId != ""
    && !inv.pastDeadline && inv.cleaned && inv.job == Some(JobReady) && inv.verification.None? && inv.retired
  }

  predicate SmoothUpload(u: Upload)
  {
    u.observed == UploadRequired("resumable") && IsHex(u.sha256, 64) && u.objects > 0 && u.bytes >= 0
  }

  /** Where such an invocation is: in a phase, with its checkpoint in the file. */
  predicate At(p: Progress, phase: Phase)
  {
    && Phased(p, phase) && WroteLast(p) && Sealed(p.c)
    && (phase.Created? ==> p.c.body.artifacts == [])
    && (!phase.Created? ==> p.c.body.collectionId.Some?)
    && (NeedsJob(phase) ==> p.c.body.retrievalJobId.Some?)
  }

  predicate WroteLast(p: Progress)
  {
    p.writes != [] && p.writes[|p.writes| - 1] == p.c
  }

  predicate NoCustom(as': set<Assertion>)
  {
    forall a :: a in as' ==> !a.Custom?
  }

  /** A legal transition without new artifacts always succeeds. */
  lemma AdvanceWorks(p: Progress, phase: Phase, as': set<Assertion>, jobId: Option<string>, now: string)
    requires At(p, p.c.body.phase) && phase in Transitions(p.c.body.phase) && NoCustom(as')
    requires !p.c.body.phase.Created? && (NeedsJob(phase) ==> jobId.Some? || p.c.body.retrievalJobId.Some?)
    ensures At(Save(p, Advance(p.c, phase, as', None, jobId, [], now)), phase)
  {
    var r := Advance(p.c, phase, as', None, jobId, [], now);
    assert MergeInto(DictOf(p.c.body.artifacts), []).Ok?;
    assert r.Ok?;
  }

  lemma StartsAt(c: Checkpoint, inv: Invocation)
    requires Good(c) && Smooth(inv, c)
    ensures At(Bind(c, inv), c.body.phase)
  {
    ChainFacts(c.body);
    var d := c.body.artifacts;
    assert d != [] ==> d[0].surface in SurfacesOf(d);
  }

  lemma UploadIsEnough(profile: string, u: Upload)
    requires SmoothUpload(u)
    ensures UploadRequired(profile) <= u.observed && NoCustom(u.observed + IMMEDIATE)
  {
  }

  lemma FirstArtifact(a: Artifact)
    requires ArtifactOk(a)
    ensures MergeInto([], [a]).Ok?
  {
    assert [a][..0] == [];
    assert MergeInto([], []) == Ok([]);
  }

  /** The first transition succeeds with one valid artifact. */
  lemma FirstAdvanceWorks(p: Progress, as': set<Assertion>, collectionId: int, a: Artifact, now: string)
    requires At(p, Created) && NoCustom(as') && ArtifactOk(a)
    ensures At(Save(p, Advance(p.c, ImmediateQualified, as', Some(collectionId), None, [a], now)), ImmediateQualified)
  {
    FirstArtifact(a);
    assert DictOf([]) == [];
    assert Advance(p.c, ImmediateQualified, as', Some(collectionId), None, [a], now).Ok?;
  }

  lemma UploadedWorks(p: Progress, u: Upload, now: string)
    requires At(p, Created) && SmoothUpload(u)
    ensures At(Uploaded(p, u, now), ImmediateQualified)
  {
    UploadIsEnough(p.c.body.identity.corpusProfile, u);
    FirstAdvanceWorks(p, u.observed + IMMEDIATE, u.collectionId, Artifact(B2Archive, u.sha256, u.objects, u.bytes), now);
  }

  lemma QualifyWorks(p: Progress, inv: Invocation, c: Checkpoint)
    requires At(p, Created) && Smooth(inv, c)
    ensures At(Qualify(p, inv), ImmediateQualified)
  {
    UploadIsEnough(p.c.body.identity.corpusProfile, inv.upload.value);
    UploadedWorks(p, inv.upload.value, inv.at(ImmediateQualified));
    assert Qualify(p, inv) == Uploaded(p, inv.upload.value, inv.at(ImmediateQualified));
  }

  lemma CopyDeepWorks(p: Progress, inv: Invocation)
    requires At(p, ImmediateQualified) && inv.copied
    ensures At(CopyDeep(p, inv), DeepArchiveUploaded)
  {
    AdvanceWorks(p, DeepArchiveUploaded, UPLOADED, None, inv.at(DeepArchiveUploaded));
  }

  lemma ObserveCacheWorks(p: Progress, inv: Invocation)
    requires At(p, DeepArchiveUploaded) && inv.cacheObserved
    ensures At(ObserveCache(p, inv), DeepArchiveCacheObserved)
  {
    AdvanceWorks(p, DeepArchiveCacheObserved, CACHE_OBSERVED, None, inv.at(DeepArchiveCacheObserved));
  }

  lemma RequestWorks(p: Progress, jobId: string, now: string)
    requires At(p, DeepArchiveCacheObserved) && jobId != ""
    ensures At(Request(p, Requested(jobId), now), RestoreRequested)
  {
    AdvanceWorks(p, RestoreRequested, REQUESTED, Some(jobId), now);
  }

  lemma RequestRestoreWorks(p: Progress, inv: Invocation)
    requires At(p, DeepArchiveCacheObserved) && inv.plan.Some? && inv.plan.value.Requested? && inv.plan.value.jobId != ""
    ensures At(RequestRestore(p, inv), RestoreRequested)
  {
    RequestWorks(p, inv.plan.value.jobId, inv.at(RestoreRequested));
  }

  /** The invocation raised with the restored checkpoint in the file. */
  predicate StoppedRestored(p: Progress)
  {
    p.status.Raised? && p.c.body.phase.Restored? && WroteLast(p)
  }

  lemma AwaitRestoreStops(p: Progress, inv: Invocation)
    requires At(p, RestoreRequested) || At(p, RestorePending)
    requires !inv.pastDeadline && inv.job == Some(JobReady) && inv.verification.None?
    ensures StoppedRestored(AwaitRestore(p, inv))
  {
    RestoreWorks(p, inv.at(Restored));
    assert AwaitRestore(p, inv) == AnswerJob(p, inv, JobReady);
  }

  lemma RestoreWorks(p: Progress, now: string)
    requires At(p, RestoreRequested) || At(p, RestorePending)
    ensures At(Restore(p, now), Restored)
  {
    AdvanceWorks(p, Restored, {DeepArchiveRestoreReady}, None, now);
  }

  lemma CleanWorks(p: Progress, inv: Invocation)
    requires At(p, Verified) && inv.retired && inv.cleaned
    ensures At(Clean(p, inv), Cleaned)
  {
    AdvanceWorks(p, Cleaned, CLEANED, None, inv.at(Cleaned));
  }

  /** From any earlier phase a smooth invocation stops in restored. */
  lemma SmoothReachesRestored(c: Checkpoint, inv: Invocation)
    requires Good(c) && Smooth(inv, c) && !Ends(c.body.phase) && !c.body.phase.Verified?
    ensures StoppedRestored(Operate(c, inv))
  {
    StartsAt(c, inv);
    var p1 := Bind(c, inv);
    if c.body.phase.Created? { QualifyWorks(p1, inv, c); }
    var p2 := Qualify(p1, inv);
    assert At(p2, p2.c.body.phase) && !p2.c.body.phase.Created?;
    RestoredFromImmediate(p2, inv);
    assert StoppedRestored(AwaitRestore(RequestRestore(ObserveCache(CopyDeep(p2, inv), inv), inv), inv));
  }

  lemma RestoredFromImmediate(p: Progress, inv: Invocation)
    requires At(p, p.c.body.phase) && !p.c.body.phase.Created? && !p.c.body.phase.Verified? && !Ends(p.c.body.phase)
    requires inv.copied && inv.cacheObserved && inv.plan.Some? && inv.plan.value.Requested? && inv.plan.value.jobId != ""
    requires !inv.pastDeadline && inv.job == Some(JobReady) && inv.verification.None?
    ensures StoppedRestored(AwaitRestore(RequestRestore(ObserveCache(CopyDeep(p, inv), inv), inv), inv))
  {
    if p.c.body.phase.ImmediateQualified? { CopyDeepWorks(p, inv); }
    var p3 := CopyDeep(p, inv);
    if p3.c.body.phase.DeepArchiveUploaded? { ObserveCacheWorks(p3, inv); }
    var p4 := ObserveCache(p3, inv);
    if p4.c.body.phase.DeepArchiveCacheObserved? { RequestRestoreWorks(p4, inv); }
    AwaitRestoreStops(RequestRestore(p4, inv), inv);
  }

  lemma SmoothCleans(c: Checkpoint, inv: Invocation)
    requires Good(c) && Smooth(inv, c) && c.body.phase.Verified?
    ensures Operate(c, inv).c.body.phase.Cleaned?
  {
    StartsAt(c, inv);
    CleanWorks(Bind(c, inv), inv);
  }

  function Zeros(n: nat): (s: string)
    ensures IsHex(s, n)
  {
    if n == 0 then "" else ['0'] + Zeros(n - 1)
  }

  lemma SmoothExists(c: Checkpoint) returns (inv: Invocation)
    requires Good(c)
    ensures Smooth(inv, c)
  {
    ChainFacts(c.body);
    var n, m := 16, 64;
    inv := Invocation(true, Some(if c.body.keyId.Some? then c.body.keyId.value else Zeros(n)),
      Some(Upload(1, UploadRequired("resumable"), Zeros(m), 1, 0)), true, true, Some(Requested("job")), false, true,
      Some(JobReady), None, true, (p: Phase) => "");
  }

  lemma EndsStay(c: Checkpoint, inv: Invocation)
    requires Good(c) && Ends(c.body.phase)
    ensures Operate(c, inv).c.body.phase == c.body.phase
  {
    BindKeepsPhase(c, inv);
    EndsStayPut(Bind(c, inv), inv);
  }

  lemma BindKeepsPhase(c: Checkpoint, inv: Invocation)
    requires Good(c)
    ensures Bind(c, inv).c.body.phase == c.body.phase
  {
  }

  /** No branch takes an invocation on from there. */
  lemma EndsStayPut(p: Progress, inv: Invocation)
    requires Ends(p.c.body.phase)
    ensures Clean(AwaitRestore(RequestRestore(ObserveCache(CopyDeep(Qualify(p, inv), inv), inv), inv), inv), inv) == p
  {
    assert Qualify(p, inv) == p;
    assert CopyDeep(p, inv) == p;
    assert ObserveCache(p, inv) == p;
    assert RequestRestore(p, inv) == p;
    assert AwaitRestore(p, inv) == p;
  }

  /** An invocation can move a checkpoint on if and only if it is not in restored, cleaned or failed. */
  lemma ResumableIff(c: Checkpoint)
    requires Good(c)
    ensures (exists inv :: Operate(c, inv).c.body.phase != c.body.phase) <==> !Ends(c.body.phase)
  {
    if Ends(c.body.phase) {
      forall inv
        ensures Operate(c, inv).c.body.phase == c.body.phase
      {
        EndsStay(c, inv);
      }
    } else {
      var inv := SmoothExists(c);
      if c.body.phase.Verified? {
        SmoothCleans(c, inv);
      } else {
        SmoothReachesRestored(c, inv);
      }
    }
  }

  /** The stuck phase is reached: from every new checkpoint some invocation leaves restored in the file, and no
      invocations after it change the file again. */
  lemma RestoredIsReachedAndKept(identity: Identity, buckets: seq<Bucket>, rounds: seq<(Invocation, nat)>)
    returns (inv: Invocation, kept: nat)
    requires New(identity, buckets).Ok? && Resolved(identity, buckets)
    ensures var left := Round(New(identity, buckets).value, inv, kept);
      left.body.phase.Restored? && Rounds(left, rounds) == left
  {
    var c := New(identity, buckets).value;
    NewGood(identity, buckets);
    NewLoads(identity, buckets);
    inv := SmoothExists(c);
    SmoothReachesRestored(c, inv);
    kept := |Operate(c, inv).writes|;
    RoundGood(c, inv, kept);
    LastWriteIsKept(c, inv);
    RestoredIsStuck(Round(c, inv, kept), rounds);
  }

  lemma LastWriteIsKept(c: Checkpoint, inv: Invocation)
    requires Loads(c) && WroteLast(Operate(c, inv))
    ensures Round(c, inv, |Operate(c, inv).writes|) == Operate(c, inv).c
  {
  }
}
