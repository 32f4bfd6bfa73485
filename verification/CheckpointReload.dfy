/** What any run leaves in the file is reloaded as it was written. */
module CheckpointReload {
  import opened Wrappers
  import opened Checkpoints
  import opened Qualification
  import opened QualificationRuns
  import opened CheckpointJson

  ghost predicate NamedSet(w: World, as': set<Assertion>)
  {
    forall a :: a in as' ==> Named(w, a)
  }

  /** The protocol's own names are told apart. */
  ghost predicate KnowsNames(w: World)
  {
    forall a: Assertion :: !a.Custom? ==> Named(w, a)
  }

  /** So are the names that an upload reports beside them. */
  ghost predicate UploadNamed(w: World, inv: Invocation)
  {
    inv.upload.Some? ==> NamedSet(w, inv.upload.value.observed)
  }

  ghost predicate ProgressNamed(w: World, p: Progress)
  {
    AllNamed(w, p.c.body.history) && forall k :: 0 <= k < |p.writes| ==> AllNamed(w, p.writes[k].body.history)
  }

  lemma AdvanceNamed(
    w: World, c: Checkpoint, phase: Phase, as': set<Assertion>, collectionId: Option<int>, jobId: Option<string>,
    artifacts: seq<Artifact>, now: string)
    requires AllNamed(w, c.body.history) && NamedSet(w, as')
    requires Advance(c, phase, as', collectionId, jobId, artifacts, now).Ok?
    ensures AllNamed(w, Advance(c, phase, as', collectionId, jobId, artifacts, now).value.body.history)
  {
    var h := c.body.history;
    var h' := Advance(c, phase, as', collectionId, jobId, artifacts, now).value.body.history;
    assert h' == h + [PhaseRecord(phase, now, as')];
    forall i, a | 0 <= i < |h'| && a in h'[i].assertions
      ensures Named(w, a)
    {
      if i < |h| {
        assert h'[i] == h[i];
      }
    }
  }

  lemma SaveNamed(
    w: World, p: Progress, phase: Phase, as': set<Assertion>, collectionId: Option<int>, jobId: Option<string>,
    artifacts: seq<Artifact>, now: string)
    requires ProgressNamed(w, p) && NamedSet(w, as')
    ensures ProgressNamed(w, Save(p, Advance(p.c, phase, as', collectionId, jobId, artifacts, now)))
  {
    if Advance(p.c, phase, as', collectionId, jobId, artifacts, now).Ok? {
      AdvanceNamed(w, p.c, phase, as', collectionId, jobId, artifacts, now);
    }
  }

  lemma BindNamed(w: World, c: Checkpoint, inv: Invocation)
    requires AllNamed(w, c.body.history)
    ensures ProgressNamed(w, Bind(c, inv))
  {
  }

  lemma UploadedNamed(w: World, p: Progress, u: Upload, now: string)
    requires ProgressNamed(w, p) && KnowsNames(w) && NamedSet(w, u.observed)
    ensures ProgressNamed(w, Uploaded(p, u, now))
  {
    var as' := u.observed + IMMEDIATE;
    assert NamedSet(w, as');
    var archive := [Artifact(B2Archive, u.sha256, u.objects, u.bytes)];
    SaveNamed(w, p, ImmediateQualified, as', Some(u.collectionId), None, archive, now);
  }

  lemma QualifyNamed(w: World, p: Progress, inv: Invocation)
    requires ProgressNamed(w, p) && KnowsNames(w) && UploadNamed(w, inv)
    ensures ProgressNamed(w, Qualify(p, inv))
  {
    if inv.upload.Some? {
      UploadedNamed(w, p, inv.upload.value, inv.at(ImmediateQualified));
    }
  }

  lemma CopyDeepNamed(w: World, p: Progress, inv: Invocation)
    requires ProgressNamed(w, p) && KnowsNames(w)
    ensures ProgressNamed(w, CopyDeep(p, inv))
  {
    SaveNamed(w, p, DeepArchiveUploaded, UPLOADED, None, None, [], inv.at(DeepArchiveUploaded));
  }

  lemma ObserveCacheNamed(w: World, p: Progress, inv: Invocation)
    requires ProgressNamed(w, p) && KnowsNames(w)
    ensures ProgressNamed(w, ObserveCache(p, inv))
  {
    SaveNamed(w, p, DeepArchiveCacheObserved, CACHE_OBSERVED, None, None, [], inv.at(DeepArchiveCacheObserved));
  }

  lemma RequestNamed(w: World, p: Progress, plan: RestorePlan, now: string)
    requires ProgressNamed(w, p) && KnowsNames(w)
    ensures ProgressNamed(w, Request(p, plan, now))
  {
    match plan
    case StillCached =>
    case Requested(jobId) =>
      if jobId != "" {
        var job := Some(jobId);
        assert NamedSet(w, REQUESTED);
        SaveNamed(w, p, RestoreRequested, REQUESTED, None, job, [], now);
        assert Request(p, plan, now) == Save(p, Advance(p.c, RestoreRequested, REQUESTED, None, job, [], now));
      }
  }

  lemma RequestRestoreNamed(w: World, p: Progress, inv: Invocation)
    requires ProgressNamed(w, p) && KnowsNames(w)
    ensures ProgressNamed(w, RequestRestore(p, inv))
  {
    if inv.plan.Some? {
      RequestNamed(w, p, inv.plan.value, inv.at(RestoreRequested));
    }
  }

  lemma FailNamed(w: World, p: Progress, inv: Invocation, reason: Assertion)
    requires ProgressNamed(w, p) && KnowsNames(w) && !reason.Custom?
    ensures ProgressNamed(w, Fail(p, inv, reason))
  {
    SaveNamed(w, p, Failed, {reason, B2TerminalPrefixRemoved}, None, None, [], inv.at(Failed));
  }

  lemma VerifyNamed(w: World, p: Progress, inv: Invocation)
    requires ProgressNamed(w, p) && KnowsNames(w)
    ensures ProgressNamed(w, Verify(p, inv))
  {
    if inv.verification.Some? {
      var v := inv.verification.value;
      SaveNamed(w, p, Verified, VERIFIED, None, None,
                [Artifact(AwsDeepArchive, v.sha256, v.objects, v.bytes),
                 Artifact(CloudfrontEgress, v.sha256, v.objects, v.bytes)], inv.at(Verified));
    }
  }

  lemma AnswerJobNamed(w: World, p: Progress, inv: Invocation, job: JobState)
    requires ProgressNamed(w, p) && KnowsNames(w)
    ensures ProgressNamed(w, AnswerJob(p, inv, job))
  {
    match job
    case JobFailed => FailNamed(w, p, inv, DeepArchiveRetrievalFailed);
    case JobCanceled => FailNamed(w, p, inv, DeepArchiveRetrievalCanceled);
    case JobExpired => FailNamed(w, p, inv, DeepArchiveRetrievalExpired);
    case JobRequested =>
      SaveNamed(w, p, RestorePending, {DeepArchiveRestorePending}, None, None, [], inv.at(RestorePending));
    case JobReady =>
      SaveNamed(w, p, Restored, {DeepArchiveRestoreReady}, None, None, [], inv.at(Restored));
      VerifyNamed(w, Restore(p, inv.at(Restored)), inv);
    case JobUnknown =>
  }

  lemma AwaitRestoreNamed(w: World, p: Progress, inv: Invocation)
    requires ProgressNamed(w, p) && KnowsNames(w)
    ensures ProgressNamed(w, AwaitRestore(p, inv))
  {
    FailNamed(w, p, inv, DeepArchiveRestoreDeadlineExceeded);
    if inv.job.Some? {
      AnswerJobNamed(w, p, inv, inv.job.value);
    }
  }

  lemma CleanNamed(w: World, p: Progress, inv: Invocation)
    requires ProgressNamed(w, p) && KnowsNames(w)
    ensures ProgressNamed(w, Clean(p, inv))
  {
    SaveNamed(w, p, Cleaned, CLEANED, None, None, [], inv.at(Cleaned));
  }

  lemma OperateNamed(w: World, c: Checkpoint, inv: Invocation)
    requires AllNamed(w, c.body.history) && KnowsNames(w) && UploadNamed(w, inv)
    ensures ProgressNamed(w, Operate(c, inv))
  {
    BindNamed(w, c, inv);
    var p1 := Bind(c, inv);
    QualifyNamed(w, p1, inv);
    var p2 := Qualify(p1, inv);
    CopyDeepNamed(w, p2, inv);
    var p3 := CopyDeep(p2, inv);
    ObserveCacheNamed(w, p3, inv);
    var p4 := ObserveCache(p3, inv);
    RequestRestoreNamed(w, p4, inv);
    var p5 := RequestRestore(p4, inv);
    AwaitRestoreNamed(w, p5, inv);
    CleanNamed(w, AwaitRestore(p5, inv), inv);
  }

  lemma {:induction false} RoundsNamed(w: World, disk: Checkpoint, rounds: seq<(Invocation, nat)>)
    requires AllNamed(w, disk.body.history) && KnowsNames(w)
    requires forall i :: 0 <= i < |rounds| ==> UploadNamed(w, rounds[i].0)
    ensures AllNamed(w, Rounds(disk, rounds).body.history)
  {
    if rounds != [] {
      var rest, last := rounds[..|rounds| - 1], rounds[|rounds| - 1];
      RoundsNamed(w, disk, rest);
      RoundNamed(w, Rounds(disk, rest), last.0, last.1);
    }
  }

  lemma RoundNamed(w: World, disk: Checkpoint, inv: Invocation, kept: nat)
    requires AllNamed(w, disk.body.history) && KnowsNames(w) && UploadNamed(w, inv)
    ensures AllNamed(w, Round(disk, inv, kept).body.history)
  {
    OperateNamed(w, disk, inv);
    FileNamed(w, disk, Operate(disk, inv), kept);
  }

  lemma FileNamed(w: World, disk: Checkpoint, p: Progress, kept: nat)
    requires AllNamed(w, disk.body.history) && ProgressNamed(w, p)
    ensures AllNamed(w, FileAfter(disk, p.writes, kept).body.history)
  {
  }

  /** Every file of every run, wherever its invocations were cut off, is reloaded as the value that was written. */
  lemma EveryFileReloads(w: World, identity: Identity, buckets: seq<Bucket>, rounds: seq<(Invocation, nat)>)
    requires Straight(w) && KnowsNames(w) && forall i :: 0 <= i < |rounds| ==> UploadNamed(w, rounds[i].0)
    requires New(identity, buckets).Ok? && Resolved(identity, buckets)
    ensures var file := Rounds(New(identity, buckets).value, rounds); Load(w, AsDict(w, file)) == Ok(file)
  {
    var c := New(identity, buckets).value;
    RoundsNamed(w, c, rounds);
    EveryFileLoads(identity, buckets, rounds);
    ReloadsSame(w, Rounds(c, rounds));
  }
}
