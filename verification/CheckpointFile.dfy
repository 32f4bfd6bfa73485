/** An invocation as the script runs it: a checkpoint variable that is reassigned and a file that is
    overwritten after each step. */
module CheckpointFile {
  import opened Wrappers
  import opened Checkpoints
  import opened Qualification

  predicate Extends(p: Progress, q: Progress)
  {
    p.writes <= q.writes
  }

  lemma EarlyStagesExtend(p: Progress, inv: Invocation)
    ensures Extends(p, Qualify(p, inv)) && Extends(p, CopyDeep(p, inv)) && Extends(p, ObserveCache(p, inv))
    ensures Extends(p, RequestRestore(p, inv)) && Extends(p, Clean(p, inv))
  {
  }

  lemma VerifyExtends(p: Progress, inv: Invocation)
    ensures Extends(p, Verify(p, inv))
  {
  }

  lemma FailExtends(p: Progress, inv: Invocation, reason: Assertion)
    ensures Extends(p, Fail(p, inv, reason))
  {
  }

  lemma AnswerJobExtends(p: Progress, inv: Invocation, job: JobState)
    ensures Extends(p, AnswerJob(p, inv, job))
  {
    match job
    case JobFailed => FailExtends(p, inv, DeepArchiveRetrievalFailed);
    case JobCanceled => FailExtends(p, inv, DeepArchiveRetrievalCanceled);
    case JobExpired => FailExtends(p, inv, DeepArchiveRetrievalExpired);
    case JobRequested =>
      SaveExtends(p, Advance(p.c, RestorePending, {DeepArchiveRestorePending}, None, None, [], inv.at(RestorePending)));
    case JobReady =>
      SaveExtends(p, Advance(p.c, Restored, {DeepArchiveRestoreReady}, None, None, [], inv.at(Restored)));
      VerifyExtends(Restore(p, inv.at(Restored)), inv);
    case JobUnknown =>
  }

  lemma AwaitRestoreExtends(p: Progress, inv: Invocation)
    ensures Extends(p, AwaitRestore(p, inv))
  {
    FailExtends(p, inv, DeepArchiveRestoreDeadlineExceeded);
    if inv.job.Some? {
      AnswerJobExtends(p, inv, inv.job.value);
    }
  }

  lemma SaveExtends(p: Progress, r: Result<Checkpoint, Error>)
    ensures Extends(p, Save(p, r))
  {
  }

  /** No stage takes back what an earlier one wrote. */
  lemma StagesExtend(p1: Progress, p2: Progress, p3: Progress, p4: Progress, p5: Progress, p6: Progress, p7: Progress, inv: Invocation)
    requires p2 == Qualify(p1, inv) && p3 == CopyDeep(p2, inv) && p4 == ObserveCache(p3, inv)
    requires p5 == RequestRestore(p4, inv) && p6 == AwaitRestore(p5, inv) && p7 == Clean(p6, inv)
    ensures Extends(p1, p7) && Extends(p2, p7) && Extends(p3, p7) && Extends(p4, p7) && Extends(p5, p7) && Extends(p6, p7)
  {
    EarlyStagesExtend(p6, inv);
    AwaitRestoreExtends(p5, inv);
    EarlyStagesExtend(p4, inv);
    EarlyStagesExtend(p3, inv);
    EarlyStagesExtend(p2, inv);
    EarlyStagesExtend(p1, inv);
  }

  class Operation {
    const inv: Invocation
    var checkpoint: Checkpoint
    var saved: Checkpoint
    var status: Status
    ghost const start: Checkpoint
    ghost const plan: seq<Checkpoint>
    ghost var writes: seq<Checkpoint>

    /** At every moment the file is what the plan says after the writes so far, so wherever the invocation is cut
        off it leaves one of the files that the runs describe. */
    ghost predicate Valid()
      reads this
    {
      writes <= plan && saved == FileAfter(start, plan, |writes|)
    }

    ghost function Now(): Progress
      reads this
    {
      Progress(checkpoint, writes, status)
    }

    /** The state in which an invocation starts: the checkpoint it loaded is the one in the file. */
    constructor (c: Checkpoint, inv: Invocation)
      ensures Valid() && Now() == Progress(c, [], Going) && saved == c && this.inv == inv
      ensures start == c && plan == Qualification.Operate(c, inv).writes
    {
      checkpoint, saved, status, writes, this.inv := c, c, Going, [], inv;
      start, plan := c, Qualification.Operate(c, inv).writes;
    }

    method Raise()
      requires Valid()
      modifies `status
      ensures Valid() && Now() == old(Now()).(status := Raised)
    {
      status := Raised;
    }

    /** An update of the variable followed by `write_checkpoint`, or the exception of the update. */
    method Store(r: Result<Checkpoint, Error>)
      requires Valid() && status.Going? && Save(Now(), r).writes <= plan
      modifies `checkpoint, `saved, `status, `writes
      ensures Valid() && Now() == Save(old(Now()), r)
    {
      if r.Err? {
        status := Raised;
      } else {
        checkpoint := r.value;
        saved, writes := checkpoint, writes + [checkpoint];
      }
    }

    /** `operate_qualification`: after it the variable, the writes and the way it ended are those of the
        specification. */
    method Operate()
      requires Valid() && Now() == Progress(start, [], Going) && plan == Qualification.Operate(start, inv).writes
      modifies `checkpoint, `saved, `status, `writes
      ensures Valid() && Now() == Qualification.Operate(start, inv)
      ensures Loads(start) ==> saved == Round(start, inv, |writes|)
    {
      ghost var p1 := Bind(start, inv);
      ghost var p2 := Qualify(p1, inv);
      ghost var p3 := CopyDeep(p2, inv);
      ghost var p4 := ObserveCache(p3, inv);
      ghost var p5 := RequestRestore(p4, inv);
      ghost var p6 := AwaitRestore(p5, inv);
      StagesExtend(p1, p2, p3, p4, p5, p6, Clean(p6, inv), inv);
      BindSession();
      QualifyImmediate();
      CopyToDeepArchive();
      ObserveIngressCache();
      RequestDeepRestore();
      AwaitDeepRestore();
      RetireAndClean();
    }

    method BindSession()
      requires Valid() && Now() == Progress(start, [], Going) && Bind(start, inv).writes <= plan
      modifies `checkpoint, `saved, `status, `writes
      ensures Valid() && Now() == Bind(start, inv)
    {
      if !inv.matches || inv.keyId.None? {
        Raise();
        return;
      }
      Store(BindKey(checkpoint, inv.keyId.value, inv.at(Created)));
    }

    method QualifyImmediate()
      requires Valid() && Qualify(Now(), inv).writes <= plan
      modifies `checkpoint, `saved, `status, `writes
      ensures Valid() && Now() == Qualify(old(Now()), inv)
    {
      if !status.Going? || checkpoint.body.phase != Created {
        return;
      }
      if inv.upload.None? || !(UploadRequired(checkpoint.body.identity.corpusProfile) <= inv.upload.value.observed) {
        Raise();
        return;
      }
      var u := inv.upload.value;
      Store(Advance(checkpoint, ImmediateQualified, u.observed + IMMEDIATE, Some(u.collectionId), None,
                    [Artifact(B2Archive, u.sha256, u.objects, u.bytes)], inv.at(ImmediateQualified)));
    }

    method CopyToDeepArchive()
      requires Valid() && CopyDeep(Now(), inv).writes <= plan
      modifies `checkpoint, `saved, `status, `writes
      ensures Valid() && Now() == CopyDeep(old(Now()), inv)
    {
      if !status.Going? || checkpoint.body.phase != ImmediateQualified {
        return;
      }
      if checkpoint.body.collectionId.None? || !inv.copied {
        Raise();
        return;
      }
      Store(Advance(checkpoint, DeepArchiveUploaded, UPLOADED, None, None, [], inv.at(DeepArchiveUploaded)));
    }

    method ObserveIngressCache()
      requires Valid() && ObserveCache(Now(), inv).writes <= plan
      modifies `checkpoint, `saved, `status, `writes
      ensures Valid() && Now() == ObserveCache(old(Now()), inv)
    {
      if !status.Going? || checkpoint.body.phase != DeepArchiveUploaded {
        return;
      }
      if checkpoint.body.collectionId.None? || !inv.cacheObserved {
        Raise();
        return;
      }
      Store(Advance(checkpoint, DeepArchiveCacheObserved, CACHE_OBSERVED, None, None, [], inv.at(DeepArchiveCacheObserved)));
    }

    method RequestDeepRestore()
      requires Valid() && RequestRestore(Now(), inv).writes <= plan
      modifies `checkpoint, `saved, `status, `writes
      ensures Valid() && Now() == RequestRestore(old(Now()), inv)
    {
      if !status.Going? || checkpoint.body.phase != DeepArchiveCacheObserved {
        return;
      }
      if checkpoint.body.collectionId.None? || inv.plan.None? {
        Raise();
        return;
      }
      if inv.plan.value.StillCached? {
        status := Returned;
        return;
      }
      if |inv.plan.value.jobId| == 0 {
        Raise();
        return;
      }
      Store(Advance(checkpoint, RestoreRequested, REQUESTED, None, Some(inv.plan.value.jobId), [], inv.at(RestoreRequested)));
    }

    method EndAsFailed(reason: Assertion)
      requires Valid() && status.Going? && Fail(Now(), inv, reason).writes <= plan
      modifies `checkpoint, `saved, `status, `writes
      ensures Valid() && Now() == Fail(old(Now()), inv, reason)
    {
      if !inv.cleaned {
        Raise();
        return;
      }
      Store(Advance(checkpoint, Failed, {reason, B2TerminalPrefixRemoved}, None, None, [], inv.at(Failed)));
      if status.Going? {
        status := Returned;
      }
    }

    method AwaitDeepRestore()
      requires Valid() && AwaitRestore(Now(), inv).writes <= plan
      modifies `checkpoint, `saved, `status, `writes
      ensures Valid() && Now() == AwaitRestore(old(Now()), inv)
    {
      if !status.Going? || checkpoint.body.phase !in {RestoreRequested, RestorePending} {
        return;
      }
      if checkpoint.body.collectionId.None? || checkpoint.body.retrievalJobId.None? {
        Raise();
        return;
      }
      if inv.pastDeadline {
        EndAsFailed(DeepArchiveRestoreDeadlineExceeded);
        return;
      }
      if inv.job.None? {
        Raise();
        return;
      }
      match inv.job.value {
        case JobRequested =>
          Store(Advance(checkpoint, RestorePending, {DeepArchiveRestorePending}, None, None, [], inv.at(RestorePending)));
          if status.Going? {
            status := Returned;
          }
        case JobFailed => EndAsFailed(DeepArchiveRetrievalFailed);
        case JobCanceled => EndAsFailed(DeepArchiveRetrievalCanceled);
        case JobExpired => EndAsFailed(DeepArchiveRetrievalExpired);
        case JobUnknown => Raise();
        case JobReady =>
          VerifyExtends(Restore(Now(), inv.at(Restored)), inv);
          Store(Advance(checkpoint, Restored, {DeepArchiveRestoreReady}, None, None, [], inv.at(Restored)));
          if status.Going? {
            VerifyRestored();
          }
      }
    }

    method VerifyRestored()
      requires Valid() && status.Going? && Verify(Now(), inv).writes <= plan
      modifies `checkpoint, `saved, `status, `writes
      ensures Valid() && Now() == Verify(old(Now()), inv)
    {
      if inv.verification.None? {
        Raise();
        return;
      }
      var v := inv.verification.value;
      Store(Advance(checkpoint, Verified, VERIFIED, None, None,
                    [Artifact(AwsDeepArchive, v.sha256, v.objects, v.bytes),
                     Artifact(CloudfrontEgress, v.sha256, v.objects, v.bytes)], inv.at(Verified)));
    }

    method RetireAndClean()
      requires Valid() && Clean(Now(), inv).writes <= plan
      modifies `checkpoint, `saved, `status, `writes
      ensures Valid() && Now() == Clean(old(Now()), inv)
    {
      if !status.Going? || checkpoint.body.phase != Verified {
        return;
      }
      if checkpoint.body.collectionId.None? || !inv.retired || !inv.cleaned {
        Raise();
        return;
      }
      Store(Advance(checkpoint, Cleaned, CLEANED, None, None, [], inv.at(Cleaned)));
    }
  }
}
