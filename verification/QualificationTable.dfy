/** What one invocation writes, as a table over the phase it starts in and the answers it gets. */
module QualificationTable {
  import opened Wrappers
  import opened Checkpoints
  import opened Qualification
  import opened QualificationRuns

  /** What an invocation adds in one write: a record of the history, and the identities it has learned. */
  datatype Note = Note(
    phase: Phase, assertions: set<Assertion>, collectionId: Option<int>, jobId: Option<string>, artifacts: set<Artifact>)

  function Only(phase: Phase, assertions: set<Assertion>): Note { Note(phase, assertions, None, None, {}) }

  function UploadNote(u: Upload): Note
  {
    Note(ImmediateQualified, u.observed + IMMEDIATE, Some(u.collectionId), None,
         {Artifact(B2Archive, u.sha256, u.objects, u.bytes)})
  }

  function RequestNote(jobId: string): Note { Note(RestoreRequested, REQUESTED, None, Some(jobId), {}) }

  function VerifiedNote(v: Verification): Note
  {
    Note(Verified, VERIFIED, None, None,
         {Artifact(AwsDeepArchive, v.sha256, v.objects, v.bytes), Artifact(CloudfrontEgress, v.sha256, v.objects, v.bytes)})
  }

  /** The records an invocation adds, and how it ends; `Going` is the return at its very end. */
  datatype Course = Course(notes: seq<Note>, status: Status)

  const RAISES := Course([], Raised)

  function Then(note: Note, rest: Course): Course
  {
    Course([note] + rest.notes, rest.status)
  }

  predicate Identifies(sha256: string, objects: int, bytes: int)
  {
    IsHex(sha256, 64) && objects > 0 && bytes >= 0
  }

  /** The upload was observed as the profile demands, and what it reports can be recorded. */
  predicate UploadCounts(inv: Invocation, profile: string)
  {
    && inv.upload.Some? && UploadRequired(profile) <= inv.upload.value.observed
    && (forall a :: a in inv.upload.value.observed ==> Concise(a))
    && Identifies(inv.upload.value.sha256, inv.upload.value.objects, inv.upload.value.bytes)
  }

  predicate VerificationCounts(inv: Invocation)
  {
    inv.verification.Some? &&
    Identifies(inv.verification.value.sha256, inv.verification.value.objects, inv.verification.value.bytes)
  }

  function CourseFrom(p: Phase, inv: Invocation, profile: string): Course
    decreases 9 - Rank(p)
  {
    match p
    case Created =>
      if UploadCounts(inv, profile)
      then Then(UploadNote(inv.upload.value), CourseFrom(ImmediateQualified, inv, profile))
      else RAISES
    case ImmediateQualified =>
      if inv.copied then Then(Only(DeepArchiveUploaded, UPLOADED), CourseFrom(DeepArchiveUploaded, inv, profile)) else RAISES
    case DeepArchiveUploaded =>
      if inv.cacheObserved
      then Then(Only(DeepArchiveCacheObserved, CACHE_OBSERVED), CourseFrom(DeepArchiveCacheObserved, inv, profile))
      else RAISES
    case DeepArchiveCacheObserved =>
      if inv.plan == Some(StillCached) then Course([], Returned)
      else if inv.plan.None? || inv.plan.value.jobId == "" then RAISES
      else Then(RequestNote(inv.plan.value.jobId), RestoreCourse(inv))
    case RestoreRequested => RestoreCourse(inv)
    case RestorePending => RestoreCourse(inv)
    case Verified => VerifiedCourse(inv)
    case _ => Course([], Going)
  }

  /** Waiting for the restore: one row for each answer about the job. */
  function RestoreCourse(inv: Invocation): Course
  {
    if inv.pastDeadline then FailedCourse(inv, DeepArchiveRestoreDeadlineExceeded)
    else if inv.job.None? then RAISES
    else
      match inv.job.value
      case JobRequested => Course([Only(RestorePending, {DeepArchiveRestorePending})], Returned)
      case JobFailed => FailedCourse(inv, DeepArchiveRetrievalFailed)
      case JobCanceled => FailedCourse(inv, DeepArchiveRetrievalCanceled)
      case JobExpired => FailedCourse(inv, DeepArchiveRetrievalExpired)
      case JobReady =>
        Then(Only(Restored, {DeepArchiveRestoreReady}),
             if VerificationCounts(inv) then Then(VerifiedNote(inv.verification.value), VerifiedCourse(inv)) else RAISES)
      case JobUnknown => RAISES
  }

  function FailedCourse(inv: Invocation, reason: Assertion): Course
  {
    if inv.cleaned then Course([Only(Failed, {reason, B2TerminalPrefixRemoved})], Returned) else RAISES
  }

  function VerifiedCourse(inv: Invocation): Course
  {
    if inv.retired && inv.cleaned then Course([Only(Cleaned, CLEANED)], Going) else RAISES
  }

  // ----------------------------------------------------- what is written, write by write

  /** The part of a checkpoint that invocations add to. */
  datatype Record = Record(history: seq<PhaseRecord>, collectionId: Option<int>, jobId: Option<string>, artifacts: set<Artifact>)

  function RecordOf(b: Body): Record
  {
    Record(b.history, b.collectionId, b.retrievalJobId, set a | a in b.artifacts)
  }

  function Noted(r: Record, inv: Invocation, n: Note): Record
  {
    Record(r.history + [PhaseRecord(n.phase, inv.at(n.phase), n.assertions)],
           if n.collectionId.Some? then n.collectionId else r.collectionId,
           if n.jobId.Some? then n.jobId else r.jobId,
           r.artifacts + n.artifacts)
  }

  function Recorded(r: Record, inv: Invocation, notes: seq<Note>): Record
  {
    if notes == [] then r else Noted(Recorded(r, inv, notes[..|notes| - 1]), inv, notes[|notes| - 1])
  }

  /** The invocation has written the bound checkpoint and then one more for each note. */
  ghost predicate Tracks(h: Record, inv: Invocation, p: Progress, notes: seq<Note>)
  {
    && |p.writes| == |notes| + 1 && p.c == p.writes[|notes|]
    && forall k :: 0 <= k <= |notes| ==> RecordOf(p.writes[k].body) == Recorded(h, inv, notes[..k])
  }

  lemma AdvanceNotes(c: Checkpoint, inv: Invocation, n: Note, artifacts: seq<Artifact>)
    requires Good(c) && n.artifacts == (set a | a in artifacts)
    requires Advance(c, n.phase, n.assertions, n.collectionId, n.jobId, artifacts, inv.at(n.phase)).Ok?
    ensures var r := Advance(c, n.phase, n.assertions, n.collectionId, n.jobId, artifacts, inv.at(n.phase)).value;
      RecordOf(r.body) == Noted(RecordOf(c.body), inv, n)
  {
    AdvanceChains(c, n.phase, n.assertions, n.collectionId, n.jobId, artifacts, inv.at(n.phase));
  }

  lemma TracksMore(h: Record, inv: Invocation, p: Progress, notes: seq<Note>, n: Note, r: Checkpoint)
    requires Tracks(h, inv, p, notes) && RecordOf(r.body) == Noted(RecordOf(p.c.body), inv, n)
    ensures Tracks(h, inv, Progress(r, p.writes + [r], p.status), notes + [n])
  {
    var q, more := Progress(r, p.writes + [r], p.status), notes + [n];
    assert more[..|notes|] == notes && notes[..|notes|] == notes && more[..|more|] == more;
    forall k | 0 <= k <= |more|
      ensures RecordOf(q.writes[k].body) == Recorded(h, inv, more[..k])
    {
      if k <= |notes| {
        assert more[..k] == notes[..k] && q.writes[k] == p.writes[k];
      }
    }
  }

  lemma TracksSave(h: Record, inv: Invocation, p: Progress, notes: seq<Note>, n: Note, artifacts: seq<Artifact>)
    requires Tracks(h, inv, p, notes) && Good(p.c) && n.artifacts == (set a | a in artifacts)
    requires Advance(p.c, n.phase, n.assertions, n.collectionId, n.jobId, artifacts, inv.at(n.phase)).Ok?
    ensures var q := Save(p, Advance(p.c, n.phase, n.assertions, n.collectionId, n.jobId, artifacts, inv.at(n.phase)));
      Tracks(h, inv, q, notes + [n]) && q.c.body.phase == n.phase && q.status == p.status
  {
    AdvanceNotes(p.c, inv, n, artifacts);
    TracksMore(h, inv, p, notes, n, Advance(p.c, n.phase, n.assertions, n.collectionId, n.jobId, artifacts, inv.at(n.phase)).value);
  }

  // ------------------------------------------------------------ when advancing works

  predicate NoCustom(as': set<Assertion>)
  {
    forall a :: a in as' ==> !a.Custom?
  }

  lemma PlainAdvance(c: Checkpoint, phase: Phase, as': set<Assertion>, jobId: Option<string>, now: string)
    requires Good(c) && phase in Transitions(c.body.phase) && NoCustom(as')
    ensures Advance(c, phase, as', None, jobId, [], now).Ok?
  {
    assert MergeInto(DictOf(c.body.artifacts), []).Ok?;
  }

  lemma NoArtifactsYet(c: Checkpoint)
    requires Good(c) && c.body.phase.Created?
    ensures c.body.artifacts == [] && DictOf(c.body.artifacts) == []
  {
    var d := c.body.artifacts;
    assert d != [] ==> d[0].surface in SurfacesOf(d);
  }

  lemma MergeOne(a: Artifact)
    ensures MergeInto([], [a]).Ok? <==> ArtifactOk(a)
  {
    assert [a][..0] == [];
    assert MergeInto([], []) == Ok([]);
  }

  lemma UploadAdvance(c: Checkpoint, u: Upload, now: string)
    requires Good(c) && c.body.phase.Created?
    ensures Advance(c, ImmediateQualified, u.observed + IMMEDIATE, Some(u.collectionId), None,
                    [Artifact(B2Archive, u.sha256, u.objects, u.bytes)], now).Ok?
       <==> (forall a :: a in u.observed ==> Concise(a)) && Identifies(u.sha256, u.objects, u.bytes)
  {
    NoArtifactsYet(c);
    MergeOne(Artifact(B2Archive, u.sha256, u.objects, u.bytes));
    var all := u.observed + IMMEDIATE;
    assert (forall a :: a in all ==> Concise(a)) <==> (forall a :: a in u.observed ==> Concise(a)) by {
      assert forall a :: a in IMMEDIATE ==> !a.Custom?;
    }
  }

  /** Two artifacts of new and different surfaces. */
  lemma MergeTwo(d: seq<Artifact>, a: Artifact, b: Artifact)
    requires a.surface != b.surface && forall x :: x in d ==> x.surface !in {a.surface, b.surface}
    ensures MergeInto(d, [a, b]).Ok? <==> ArtifactOk(a) && ArtifactOk(b)
  {
    assert [a, b][..1] == [a] && [a][..0] == [];
    assert MergeInto(d, []) == Ok(d);
    if ArtifactOk(a) {
      assert Find(d, a.surface).None?;
      assert MergeInto(d, [a]) == Ok(d + [a]);
      assert Find(d + [a], b.surface).None?;
    }
  }

  lemma AdvanceIff(c: Checkpoint, phase: Phase, as': set<Assertion>, artifacts: seq<Artifact>, now: string)
    requires Good(c) && phase in Transitions(c.body.phase) && NoCustom(as')
    ensures Advance(c, phase, as', None, None, artifacts, now).Ok? <==> MergeInto(c.body.artifacts, artifacts).Ok?
  {
    ChainFacts(c.body);
    DictOfUnique(c.body.artifacts);
  }

  lemma OnlyTheArchive(c: Checkpoint, x: Artifact)
    requires Good(c) && c.body.phase.Restored? && x in c.body.artifacts
    ensures x.surface == B2Archive
  {
    assert x.surface in SurfacesOf(c.body.artifacts);
  }

  lemma AddTwo(c: Checkpoint, as': set<Assertion>, aws: Artifact, egress: Artifact, now: string)
    requires Good(c) && c.body.phase.Restored? && NoCustom(as')
    requires aws.surface.AwsDeepArchive? && egress.surface.CloudfrontEgress?
    ensures Advance(c, Verified, as', None, None, [aws, egress], now).Ok? <==> ArtifactOk(aws) && ArtifactOk(egress)
  {
    forall x | x in c.body.artifacts
      ensures x.surface !in {aws.surface, egress.surface}
    {
      OnlyTheArchive(c, x);
    }
    MergeTwo(c.body.artifacts, aws, egress);
    AdvanceIff(c, Verified, as', [aws, egress], now);
  }

  lemma VerifyAdvance(c: Checkpoint, v: Verification, aws: Artifact, egress: Artifact, now: string)
    requires Good(c) && c.body.phase.Restored?
    requires aws == Artifact(AwsDeepArchive, v.sha256, v.objects, v.bytes)
    requires egress == Artifact(CloudfrontEgress, v.sha256, v.objects, v.bytes)
    ensures Advance(c, Verified, VERIFIED, None, None, [aws, egress], now).Ok? <==> Identifies(v.sha256, v.objects, v.bytes)
  {
    VerifiedNames();
    AddTwo(c, VERIFIED, aws, egress, now);
  }

  // ---------------------------------------------------------------------- stages

  /** An invocation that was somewhere on its way has followed a course. */
  ghost predicate Followed(h: Record, inv: Invocation, p: Progress, notes: seq<Note>, course: Course, q: Progress)
  {
    if !p.status.Going? then q == p else Tracks(h, inv, q, notes + course.notes) && q.status == course.status
  }

  /** Where an invocation is: the checkpoint in memory is the last one written, and good. */
  ghost predicate Here(c: Checkpoint, inv: Invocation, p: Progress, notes: seq<Note>)
  {
    ProgressOk(c, p) && Tracks(RecordOf(c.body), inv, p, notes)
  }

  function Profile(c: Checkpoint): string { c.body.identity.corpusProfile }

  /** Writing one note and following the rest of a course. */
  lemma FollowedOn(h: Record, inv: Invocation, p: Progress, notes: seq<Note>, note: Note, q: Progress, rest: Course, r: Progress)
    requires p.status.Going? && q.status.Going? && Followed(h, inv, q, notes + [note], rest, r)
    ensures Followed(h, inv, p, notes, Then(note, rest), r)
  {
    assert notes + [note] + rest.notes == notes + Then(note, rest).notes;
  }

  lemma FollowedNothing(h: Record, inv: Invocation, p: Progress, notes: seq<Note>, s: Status)
    requires Tracks(h, inv, p, notes) && p.status.Going?
    ensures Followed(h, inv, p, notes, Course([], s), p.(status := s))
  {
    assert notes + [] == notes;
  }

  /** One write without new identities, apart from a job. */
  lemma WriteFollows(c: Checkpoint, inv: Invocation, p: Progress, notes: seq<Note>, phase: Phase, as': set<Assertion>,
                     jobId: Option<string>)
    requires Here(c, inv, p, notes) && phase in Transitions(p.c.body.phase) && NoCustom(as')
    ensures var q := Save(p, Advance(p.c, phase, as', None, jobId, [], inv.at(phase)));
      Tracks(RecordOf(c.body), inv, q, notes + [Note(phase, as', None, jobId, {})]) && q.c.body.phase == phase
      && q.status == p.status && Profile(q.c) == Profile(p.c)
  {
    PlainAdvance(p.c, phase, as', jobId, inv.at(phase));
    TracksSave(RecordOf(c.body), inv, p, notes, Note(phase, as', None, jobId, {}), []);
  }

  lemma UploadedNames() ensures NoCustom(UPLOADED) {}
  lemma CacheNames() ensures NoCustom(CACHE_OBSERVED) {}
  lemma RequestedNames() ensures NoCustom(REQUESTED) {}
  lemma VerifiedNames() ensures NoCustom(VERIFIED) {}
  lemma CleanedNames() ensures NoCustom(CLEANED) {}

  // --- cleaning up

  lemma CleanIs(p: Progress, inv: Invocation)
    requires Phased(p, Verified) && p.c.body.collectionId.Some?
    ensures Clean(p, inv) ==
      if inv.retired && inv.cleaned then Save(p, Advance(p.c, Cleaned, CLEANED, None, None, [], inv.at(Cleaned)))
      else p.(status := Raised)
  {
  }

  lemma CleanedFollows(c: Checkpoint, inv: Invocation, p: Progress, notes: seq<Note>, as': set<Assertion>, q: Progress)
    requires Here(c, inv, p, notes) && Phased(p, Verified) && NoCustom(as')
    requires q == Save(p, Advance(p.c, Cleaned, as', None, None, [], inv.at(Cleaned)))
    ensures Followed(RecordOf(c.body), inv, p, notes, Course([Only(Cleaned, as')], Going), q)
  {
    WriteFollows(c, inv, p, notes, Cleaned, as', None);
  }

  lemma CleanFollows(c: Checkpoint, inv: Invocation, p: Progress, notes: seq<Note>)
    requires Here(c, inv, p, notes) && p.status.Going? && p.c.body.phase.Verified?
    ensures Followed(RecordOf(c.body), inv, p, notes, VerifiedCourse(inv), Clean(p, inv))
  {
    CleanIs(p, inv);
    if inv.retired && inv.cleaned {
      CleanedNames();
      CleanedFollows(c, inv, p, notes, CLEANED, Clean(p, inv));
    } else {
      FollowedNothing(RecordOf(c.body), inv, p, notes, Raised);
    }
  }

  lemma OverIsOver(p: Progress, inv: Invocation)
    requires !p.status.Going?
    ensures Clean(p, inv) == p
  {
  }

  // --- waiting for the restore

  lemma FailFollows(c: Checkpoint, inv: Invocation, p: Progress, notes: seq<Note>, reason: Assertion)
    requires Here(c, inv, p, notes) && (Phased(p, RestoreRequested) || Phased(p, RestorePending)) && !reason.Custom?
    ensures Followed(RecordOf(c.body), inv, p, notes, FailedCourse(inv, reason), Fail(p, inv, reason))
  {
    var as' := {reason, B2TerminalPrefixRemoved};
    if inv.cleaned {
      WriteFollows(c, inv, p, notes, Failed, as', None);
    } else {
      FollowedNothing(RecordOf(c.body), inv, p, notes, Raised);
    }
  }

  lemma PendFollows(c: Checkpoint, inv: Invocation, p: Progress, notes: seq<Note>)
    requires Here(c, inv, p, notes) && (Phased(p, RestoreRequested) || Phased(p, RestorePending))
    ensures Followed(RecordOf(c.body), inv, p, notes, Course([Only(RestorePending, {DeepArchiveRestorePending})], Returned),
                     Pend(p, inv.at(RestorePending)))
  {
    WriteFollows(c, inv, p, notes, RestorePending, {DeepArchiveRestorePending}, None);
  }

  lemma RestoreFollows(c: Checkpoint, inv: Invocation, p: Progress, notes: seq<Note>)
    requires Here(c, inv, p, notes) && (Phased(p, RestoreRequested) || Phased(p, RestorePending))
    ensures var q := Restore(p, inv.at(Restored));
      Here(c, inv, q, notes + [Only(Restored, {DeepArchiveRestoreReady})]) && q.status.Going? && q.c.body.phase.Restored?
  {
    WriteFollows(c, inv, p, notes, Restored, {DeepArchiveRestoreReady}, None);
    RestoreOk(c, p, inv.at(Restored));
  }

  /** The second half of the ready branch writes `verified` or raises. */
  lemma VerifyFollows(c: Checkpoint, inv: Invocation, p: Progress, notes: seq<Note>)
    requires Here(c, inv, p, notes) && p.status.Going? && p.c.body.phase.Restored?
    ensures var q := Verify(p, inv);
      if VerificationCounts(inv)
      then Here(c, inv, q, notes + [VerifiedNote(inv.verification.value)]) && q.status.Going? && q.c.body.phase.Verified?
      else q == p.(status := Raised)
  {
    VerifyOk(c, p, inv);
    if inv.verification.Some? {
      var v := inv.verification.value;
      var aws := Artifact(AwsDeepArchive, v.sha256, v.objects, v.bytes);
      var egress := Artifact(CloudfrontEgress, v.sha256, v.objects, v.bytes);
      VerifyAdvance(p.c, v, aws, egress, inv.at(Verified));
      if VerificationCounts(inv) {
        TracksSave(RecordOf(c.body), inv, p, notes, VerifiedNote(v), [aws, egress]);
      }
    }
  }

  /** Verifying, and then cleaning up. */
  lemma VerifiedFollows(c: Checkpoint, inv: Invocation, p: Progress, notes: seq<Note>)
    requires Here(c, inv, p, notes) && p.status.Going? && p.c.body.phase.Restored?
    ensures Followed(RecordOf(c.body), inv, p, notes,
                     if VerificationCounts(inv) then Then(VerifiedNote(inv.verification.value), VerifiedCourse(inv)) else RAISES,
                     Clean(Verify(p, inv), inv))
  {
    var q := Verify(p, inv);
    VerifyFollows(c, inv, p, notes);
    if VerificationCounts(inv) {
      var done := VerifiedNote(inv.verification.value);
      CleanFollows(c, inv, q, notes + [done]);
      FollowedOn(RecordOf(c.body), inv, p, notes, done, q, VerifiedCourse(inv), Clean(q, inv));
    } else {
      OverIsOver(q, inv);
      FollowedNothing(RecordOf(c.body), inv, p, notes, Raised);
    }
  }

  lemma ReadyFollows(c: Checkpoint, inv: Invocation, p: Progress, notes: seq<Note>)
    requires Here(c, inv, p, notes) && (Phased(p, RestoreRequested) || Phased(p, RestorePending))
    requires !inv.pastDeadline && inv.job == Some(JobReady)
    ensures Followed(RecordOf(c.body), inv, p, notes, RestoreCourse(inv), Clean(Verify(Restore(p, inv.at(Restored)), inv), inv))
  {
    var ready, q := Only(Restored, {DeepArchiveRestoreReady}), Restore(p, inv.at(Restored));
    RestoreFollows(c, inv, p, notes);
    VerifiedFollows(c, inv, q, notes + [ready]);
    ReadyThen(RecordOf(c.body), inv, p, notes, ready, q, Clean(Verify(q, inv), inv));
  }

  lemma ReadyThen(h: Record, inv: Invocation, p: Progress, notes: seq<Note>, ready: Note, q: Progress, r: Progress)
    requires p.status.Going? && q.status.Going? && ready == Only(Restored, {DeepArchiveRestoreReady})
    requires !inv.pastDeadline && inv.job == Some(JobReady)
    requires Followed(h, inv, q, notes + [ready],
                      if VerificationCounts(inv) then Then(VerifiedNote(inv.verification.value), VerifiedCourse(inv)) else RAISES, r)
    ensures Followed(h, inv, p, notes, RestoreCourse(inv), r)
  {
    var rest := if VerificationCounts(inv) then Then(VerifiedNote(inv.verification.value), VerifiedCourse(inv)) else RAISES;
    FollowedOn(h, inv, p, notes, ready, q, rest, r);
  }

  /** Every answer about the job but ready ends the invocation. */
  lemma OtherAnswerFollows(c: Checkpoint, inv: Invocation, p: Progress, notes: seq<Note>)
    requires Here(c, inv, p, notes) && (Phased(p, RestoreRequested) || Phased(p, RestorePending))
    requires !inv.pastDeadline && inv.job.Some? && !inv.job.value.JobReady?
    ensures var q := AnswerJob(p, inv, inv.job.value);
      Followed(RecordOf(c.body), inv, p, notes, RestoreCourse(inv), q) && !q.status.Going?
  {
    match inv.job.value
    case JobRequested => PendFollows(c, inv, p, notes);
    case JobFailed => FailFollows(c, inv, p, notes, DeepArchiveRetrievalFailed);
    case JobCanceled => FailFollows(c, inv, p, notes, DeepArchiveRetrievalCanceled);
    case JobExpired => FailFollows(c, inv, p, notes, DeepArchiveRetrievalExpired);
    case JobUnknown => FollowedNothing(RecordOf(c.body), inv, p, notes, Raised);
  }

  /** The branches of the stage, apart from the checkpoint's own fields. */
  lemma AwaitIs(p: Progress, inv: Invocation)
    requires Phased(p, RestoreRequested) || Phased(p, RestorePending)
    requires p.c.body.collectionId.Some? && p.c.body.retrievalJobId.Some?
    ensures AwaitRestore(p, inv) ==
      if inv.pastDeadline then Fail(p, inv, DeepArchiveRestoreDeadlineExceeded)
      else if inv.job.None? then p.(status := Raised)
      else AnswerJob(p, inv, inv.job.value)
  {
  }

  lemma ReadyIs(p: Progress, inv: Invocation)
    ensures AnswerJob(p, inv, JobReady) == Verify(Restore(p, inv.at(Restored)), inv)
  {
  }

  lemma LateFollows(c: Checkpoint, inv: Invocation, p: Progress, notes: seq<Note>, q: Progress)
    requires Here(c, inv, p, notes) && p.status.Going? && !q.status.Going? && (inv.pastDeadline || inv.job.None?)
    requires inv.pastDeadline ==> Followed(RecordOf(c.body), inv, p, notes, FailedCourse(inv, DeepArchiveRestoreDeadlineExceeded), q)
    requires !inv.pastDeadline ==> q == p.(status := Raised)
    ensures Followed(RecordOf(c.body), inv, p, notes, RestoreCourse(inv), q)
  {
    FollowedNothing(RecordOf(c.body), inv, p, notes, Raised);
  }

  lemma FailIsOver(p: Progress, inv: Invocation, reason: Assertion)
    ensures !Fail(p, inv, reason).status.Going?
  {
  }

  lemma AwaitFollows(c: Checkpoint, inv: Invocation, p: Progress, notes: seq<Note>)
    requires Here(c, inv, p, notes) && (Phased(p, RestoreRequested) || Phased(p, RestorePending))
    ensures Followed(RecordOf(c.body), inv, p, notes, RestoreCourse(inv), Clean(AwaitRestore(p, inv), inv))
  {
    var q := AwaitRestore(p, inv);
    AwaitIs(p, inv);
    if inv.pastDeadline {
      FailFollows(c, inv, p, notes, DeepArchiveRestoreDeadlineExceeded);
      FailIsOver(p, inv, DeepArchiveRestoreDeadlineExceeded);
      LateFollows(c, inv, p, notes, q);
      OverIsOver(q, inv);
    } else if inv.job.None? {
      LateFollows(c, inv, p, notes, q);
      OverIsOver(q, inv);
    } else if inv.job.value.JobReady? {
      ReadyIs(p, inv);
      ReadyFollows(c, inv, p, notes);
    } else {
      OtherAnswerFollows(c, inv, p, notes);
      OverIsOver(q, inv);
    }
  }

  // --- the stages before, each with all that come after it

  function FromAwait(p: Progress, inv: Invocation): Progress { Clean(AwaitRestore(p, inv), inv) }
  function FromRequest(p: Progress, inv: Invocation): Progress { FromAwait(RequestRestore(p, inv), inv) }
  function FromCache(p: Progress, inv: Invocation): Progress { FromRequest(ObserveCache(p, inv), inv) }
  function FromCopy(p: Progress, inv: Invocation): Progress { FromCache(CopyDeep(p, inv), inv) }
  function FromQualify(p: Progress, inv: Invocation): Progress { FromCopy(Qualify(p, inv), inv) }

  lemma OverStaysOver(p: Progress, inv: Invocation)
    requires !p.status.Going?
    ensures FromAwait(p, inv) == p && FromRequest(p, inv) == p && FromCache(p, inv) == p && FromCopy(p, inv) == p
  {
    assert AwaitRestore(p, inv) == p && Clean(p, inv) == p;
    assert RequestRestore(p, inv) == p && ObserveCache(p, inv) == p && CopyDeep(p, inv) == p;
  }

  lemma FollowsVerified(c: Checkpoint, inv: Invocation, p: Progress, notes: seq<Note>)
    requires Here(c, inv, p, notes) && Phased(p, Verified)
    ensures Followed(RecordOf(c.body), inv, p, notes, VerifiedCourse(inv), FromAwait(p, inv))
  {
    assert AwaitRestore(p, inv) == p;
    CleanFollows(c, inv, p, notes);
  }

  /** The last phases, and restored where an invocation begins in it, are left alone. */
  lemma FollowsEnd(p: Progress, inv: Invocation)
    requires p.c.body.phase in {Restored, Cleaned, Failed}
    ensures FromAwait(p, inv) == p
  {
    assert AwaitRestore(p, inv) == p;
  }

  lemma FollowsFromAwait(c: Checkpoint, inv: Invocation, p: Progress, notes: seq<Note>)
    requires Here(c, inv, p, notes) && p.status.Going? && Rank(p.c.body.phase) >= 4
    ensures Followed(RecordOf(c.body), inv, p, notes, CourseFrom(p.c.body.phase, inv, Profile(p.c)), FromAwait(p, inv))
  {
    match p.c.body.phase
    case RestoreRequested => AwaitFollows(c, inv, p, notes);
    case RestorePending => AwaitFollows(c, inv, p, notes);
    case Verified => FollowsVerified(c, inv, p, notes);
    case _ =>
      FollowsEnd(p, inv);
      FollowedNothing(RecordOf(c.body), inv, p, notes, Going);
  }

  /** A stage that does not concern the phase is passed over. */
  lemma RequestSkips(p: Progress, inv: Invocation)
    requires !p.c.body.phase.DeepArchiveCacheObserved?
    ensures RequestRestore(p, inv) == p
  {
  }

  lemma RequestIs(p: Progress, inv: Invocation)
    requires Phased(p, DeepArchiveCacheObserved) && p.c.body.collectionId.Some?
    ensures RequestRestore(p, inv) ==
      if inv.plan == Some(StillCached) then p.(status := Returned)
      else if inv.plan.None? || inv.plan.value.jobId == "" then p.(status := Raised)
      else Save(p, Advance(p.c, RestoreRequested, REQUESTED, None, Some(inv.plan.value.jobId), [], inv.at(RestoreRequested)))
  {
  }

  lemma RequestedFollows(c: Checkpoint, inv: Invocation, p: Progress, notes: seq<Note>, as': set<Assertion>, jobId: string, q: Progress)
    requires Here(c, inv, p, notes) && Phased(p, DeepArchiveCacheObserved) && NoCustom(as') && ProgressOk(c, q)
    requires q == Save(p, Advance(p.c, RestoreRequested, as', None, Some(jobId), [], inv.at(RestoreRequested)))
    ensures Here(c, inv, q, notes + [Note(RestoreRequested, as', None, Some(jobId), {})]) && Phased(q, RestoreRequested)
  {
    WriteFollows(c, inv, p, notes, RestoreRequested, as', Some(jobId));
  }

  lemma RequestFollows(c: Checkpoint, inv: Invocation, p: Progress, notes: seq<Note>, q: Progress)
    requires Here(c, inv, p, notes) && Phased(p, DeepArchiveCacheObserved) && q == RequestRestore(p, inv)
    requires inv.plan.Some? && inv.plan.value.Requested? && inv.plan.value.jobId != ""
    ensures Here(c, inv, q, notes + [RequestNote(inv.plan.value.jobId)]) && Phased(q, RestoreRequested)
  {
    RequestRestoreOk(c, p, inv);
    RequestIs(p, inv);
    RequestedNames();
    RequestedFollows(c, inv, p, notes, REQUESTED, inv.plan.value.jobId, q);
  }

  /** An invocation that stops here stops for all stages that follow. */
  lemma StopsHere(h: Record, inv: Invocation, p: Progress, notes: seq<Note>, s: Status, q: Progress)
    requires Tracks(h, inv, p, notes) && p.status.Going? && !s.Going? && q == p.(status := s)
    ensures Followed(h, inv, p, notes, Course([], s), FromAwait(q, inv))
    ensures Followed(h, inv, p, notes, Course([], s), FromRequest(q, inv))
    ensures Followed(h, inv, p, notes, Course([], s), FromCache(q, inv))
    ensures Followed(h, inv, p, notes, Course([], s), FromCopy(q, inv))
  {
    OverStaysOver(q, inv);
    FollowedNothing(h, inv, p, notes, s);
  }

  lemma RequestGoesOn(c: Checkpoint, inv: Invocation, p: Progress, notes: seq<Note>, q: Progress)
    requires Here(c, inv, p, notes) && Phased(p, DeepArchiveCacheObserved) && q == RequestRestore(p, inv)
    requires inv.plan.Some? && inv.plan.value.Requested? && inv.plan.value.jobId != ""
    ensures Followed(RecordOf(c.body), inv, p, notes, Then(RequestNote(inv.plan.value.jobId), RestoreCourse(inv)), FromAwait(q, inv))
  {
    var note := RequestNote(inv.plan.value.jobId);
    RequestFollows(c, inv, p, notes, q);
    AwaitFollows(c, inv, q, notes + [note]);
    FollowedOn(RecordOf(c.body), inv, p, notes, note, q, RestoreCourse(inv), FromAwait(q, inv));
  }

  lemma FollowsRequest(c: Checkpoint, inv: Invocation, p: Progress, notes: seq<Note>)
    requires Here(c, inv, p, notes) && Phased(p, DeepArchiveCacheObserved)
    ensures Followed(RecordOf(c.body), inv, p, notes, CourseFrom(DeepArchiveCacheObserved, inv, Profile(p.c)),
                     FromAwait(RequestRestore(p, inv), inv))
  {
    var q := RequestRestore(p, inv);
    if inv.plan.Some? && inv.plan.value.Requested? && inv.plan.value.jobId != "" {
      RequestGoesOn(c, inv, p, notes, q);
    } else {
      RequestIs(p, inv);
      StopsHere(RecordOf(c.body), inv, p, notes, if inv.plan == Some(StillCached) then Returned else Raised, q);
    }
  }

  lemma FollowsFromRequest(c: Checkpoint, inv: Invocation, p: Progress, notes: seq<Note>)
    requires Here(c, inv, p, notes) && p.status.Going? && Rank(p.c.body.phase) >= 3
    ensures Followed(RecordOf(c.body), inv, p, notes, CourseFrom(p.c.body.phase, inv, Profile(p.c)), FromRequest(p, inv))
  {
    if p.c.body.phase.DeepArchiveCacheObserved? {
      FollowsRequest(c, inv, p, notes);
    } else {
      RequestSkips(p, inv);
      FollowsFromAwait(c, inv, p, notes);
    }
  }

  /** A stage that writes one plain note and goes on. */
  lemma StageFollows(c: Checkpoint, inv: Invocation, p: Progress, notes: seq<Note>, phase: Phase, as': set<Assertion>, q: Progress)
    requires Here(c, inv, p, notes) && p.status.Going? && phase in Transitions(p.c.body.phase) && NoCustom(as') && ProgressOk(c, q)
    requires q == Save(p, Advance(p.c, phase, as', None, None, [], inv.at(phase)))
    ensures Here(c, inv, q, notes + [Only(phase, as')]) && Phased(q, phase) && Profile(q.c) == Profile(p.c)
  {
    WriteFollows(c, inv, p, notes, phase, as', None);
  }

  lemma ObserveCacheIs(p: Progress, inv: Invocation)
    requires Phased(p, DeepArchiveUploaded) && p.c.body.collectionId.Some?
    ensures ObserveCache(p, inv) ==
      if !inv.cacheObserved then p.(status := Raised)
      else Save(p, Advance(p.c, DeepArchiveCacheObserved, CACHE_OBSERVED, None, None, [], inv.at(DeepArchiveCacheObserved)))
  {
  }

  lemma CopyDeepIs(p: Progress, inv: Invocation)
    requires Phased(p, ImmediateQualified) && p.c.body.collectionId.Some?
    ensures CopyDeep(p, inv) ==
      if !inv.copied then p.(status := Raised)
      else Save(p, Advance(p.c, DeepArchiveUploaded, UPLOADED, None, None, [], inv.at(DeepArchiveUploaded)))
  {
  }

  lemma ObserveCacheFollows(c: Checkpoint, inv: Invocation, p: Progress, notes: seq<Note>, q: Progress)
    requires Here(c, inv, p, notes) && Phased(p, DeepArchiveUploaded) && inv.cacheObserved && q == ObserveCache(p, inv)
    ensures Here(c, inv, q, notes + [Only(DeepArchiveCacheObserved, CACHE_OBSERVED)])
    ensures Phased(q, DeepArchiveCacheObserved) && Profile(q.c) == Profile(p.c)
  {
    ObserveCacheIs(p, inv);
    ObserveCacheOk(c, p, inv);
    CacheStage(c, inv, p, notes, q);
  }

  lemma CacheStage(c: Checkpoint, inv: Invocation, p: Progress, notes: seq<Note>, q: Progress)
    requires Here(c, inv, p, notes) && Phased(p, DeepArchiveUploaded) && ProgressOk(c, q)
    requires q == Save(p, Advance(p.c, DeepArchiveCacheObserved, CACHE_OBSERVED, None, None, [], inv.at(DeepArchiveCacheObserved)))
    ensures Here(c, inv, q, notes + [Only(DeepArchiveCacheObserved, CACHE_OBSERVED)])
    ensures Phased(q, DeepArchiveCacheObserved) && Profile(q.c) == Profile(p.c)
  {
    CacheNames();
    StageFollows(c, inv, p, notes, DeepArchiveCacheObserved, CACHE_OBSERVED, q);
  }

  lemma ObserveCacheSkips(p: Progress, inv: Invocation)
    requires !p.c.body.phase.DeepArchiveUploaded?
    ensures ObserveCache(p, inv) == p
  {
  }

  lemma FollowsFromCache(c: Checkpoint, inv: Invocation, p: Progress, notes: seq<Note>)
    requires Here(c, inv, p, notes) && p.status.Going? && Rank(p.c.body.phase) >= 2
    ensures Followed(RecordOf(c.body), inv, p, notes, CourseFrom(p.c.body.phase, inv, Profile(p.c)), FromCache(p, inv))
  {
    var h, q := RecordOf(c.body), ObserveCache(p, inv);
    if p.c.body.phase.DeepArchiveUploaded? {
      if inv.cacheObserved {
        ObserveCacheFollows(c, inv, p, notes, q);
        var note := Only(DeepArchiveCacheObserved, CACHE_OBSERVED);
        FollowsFromRequest(c, inv, q, notes + [note]);
        FollowedOn(h, inv, p, notes, note, q, CourseFrom(DeepArchiveCacheObserved, inv, Profile(q.c)), FromRequest(q, inv));
      } else {
        ObserveCacheIs(p, inv);
        OverStaysOver(q, inv);
        FollowedNothing(h, inv, p, notes, Raised);
      }
    } else {
      ObserveCacheSkips(p, inv);
      FollowsFromRequest(c, inv, p, notes);
    }
  }

  lemma CopyDeepFollows(c: Checkpoint, inv: Invocation, p: Progress, notes: seq<Note>, q: Progress)
    requires Here(c, inv, p, notes) && Phased(p, ImmediateQualified) && inv.copied && q == CopyDeep(p, inv)
    ensures Here(c, inv, q, notes + [Only(DeepArchiveUploaded, UPLOADED)])
    ensures Phased(q, DeepArchiveUploaded) && Profile(q.c) == Profile(p.c)
  {
    CopyDeepIs(p, inv);
    CopyDeepOk(c, p, inv);
    UploadedNames();
    StageFollows(c, inv, p, notes, DeepArchiveUploaded, UPLOADED, q);
  }

  lemma CopyDeepSkips(p: Progress, inv: Invocation)
    requires !p.c.body.phase.ImmediateQualified?
    ensures CopyDeep(p, inv) == p
  {
  }

  lemma FollowsFromCopy(c: Checkpoint, inv: Invocation, p: Progress, notes: seq<Note>)
    requires Here(c, inv, p, notes) && p.status.Going? && Rank(p.c.body.phase) >= 1
    ensures Followed(RecordOf(c.body), inv, p, notes, CourseFrom(p.c.body.phase, inv, Profile(p.c)), FromCopy(p, inv))
  {
    var h, q := RecordOf(c.body), CopyDeep(p, inv);
    if p.c.body.phase.ImmediateQualified? {
      if inv.copied {
        CopyDeepFollows(c, inv, p, notes, q);
        var note := Only(DeepArchiveUploaded, UPLOADED);
        FollowsFromCache(c, inv, q, notes + [note]);
        FollowedOn(h, inv, p, notes, note, q, CourseFrom(DeepArchiveUploaded, inv, Profile(q.c)), FromCache(q, inv));
      } else {
        CopyDeepIs(p, inv);
        OverStaysOver(q, inv);
        FollowedNothing(h, inv, p, notes, Raised);
      }
    } else {
      CopyDeepSkips(p, inv);
      FollowsFromCache(c, inv, p, notes);
    }
  }

  lemma QualifyFollows(c: Checkpoint, inv: Invocation, p: Progress, notes: seq<Note>)
    requires Here(c, inv, p, notes) && Phased(p, Created)
    ensures var q := Qualify(p, inv);
      if !UploadCounts(inv, Profile(p.c)) then q == p.(status := Raised)
      else Here(c, inv, q, notes + [UploadNote(inv.upload.value)])
           && Phased(q, ImmediateQualified) && Profile(q.c) == Profile(p.c)
  {
    QualifyOk(c, p, inv);
    if inv.upload.Some? {
      var u := inv.upload.value;
      UploadAdvance(p.c, u, inv.at(ImmediateQualified));
      if UploadCounts(inv, Profile(p.c)) {
        TracksSave(RecordOf(c.body), inv, p, notes, UploadNote(u), [Artifact(B2Archive, u.sha256, u.objects, u.bytes)]);
        assert Qualify(p, inv) == Uploaded(p, u, inv.at(ImmediateQualified));
      }
    }
  }

  lemma QualifySkips(p: Progress, inv: Invocation)
    requires !p.c.body.phase.Created?
    ensures Qualify(p, inv) == p
  {
  }

  lemma FollowsFromQualify(c: Checkpoint, inv: Invocation, p: Progress, notes: seq<Note>)
    requires Here(c, inv, p, notes) && p.status.Going?
    ensures Followed(RecordOf(c.body), inv, p, notes, CourseFrom(p.c.body.phase, inv, Profile(p.c)), FromQualify(p, inv))
  {
    var h, q := RecordOf(c.body), Qualify(p, inv);
    if p.c.body.phase.Created? {
      QualifyFollows(c, inv, p, notes);
      if UploadCounts(inv, Profile(p.c)) {
        var note := UploadNote(inv.upload.value);
        FollowsFromCopy(c, inv, q, notes + [note]);
        FollowedOn(h, inv, p, notes, note, q, CourseFrom(ImmediateQualified, inv, Profile(q.c)), FromCopy(q, inv));
      } else {
        OverStaysOver(q, inv);
        FollowedNothing(h, inv, p, notes, Raised);
      }
    } else {
      QualifySkips(p, inv);
      FollowsFromCopy(c, inv, p, notes);
    }
  }

  // ------------------------------------------------------------------ the whole table

  /** The session is the checkpoint's, and its key is valid and the one that is bound, if one is. */
  predicate Admits(c: Checkpoint, inv: Invocation)
  {
    && inv.matches && inv.keyId.Some? && IsHex(inv.keyId.value, 16)
    && (c.body.keyId.Some? ==> c.body.keyId == inv.keyId)
  }

  lemma BindFollows(c: Checkpoint, inv: Invocation)
    requires Good(c)
    ensures var p := Bind(c, inv);
      if Admits(c, inv)
      then Here(c, inv, p, []) && p.status.Going? && p.c.body.phase == c.body.phase && Profile(p.c) == Profile(c)
           && p.c.body == c.body.(keyId := inv.keyId, generation := p.c.body.generation, previous := p.c.body.previous,
                                  updatedAt := p.c.body.updatedAt)
      else p == Progress(c, [], Raised)
  {
    BindOk(c, inv);
  }

  /** Write by write, the history an invocation leaves is the one it found and the first so many records of its
      course; an invocation that is not admitted writes nothing. */
  lemma OperateFollowsTable(c: Checkpoint, inv: Invocation)
    requires Good(c)
    ensures var q, course := Operate(c, inv), CourseFrom(c.body.phase, inv, Profile(c));
      if !Admits(c, inv) then q == Progress(c, [], Raised)
      else Tracks(RecordOf(c.body), inv, q, course.notes) && q.status == course.status
  {
    var p := Bind(c, inv);
    BindFollows(c, inv);
    if Admits(c, inv) {
      FollowsFromQualify(c, inv, p, []);
      assert [] + CourseFrom(c.body.phase, inv, Profile(c)).notes == CourseFrom(c.body.phase, inv, Profile(c)).notes;
    } else {
      OverStaysOver(p, inv);
    }
  }

  /** So is the file after an invocation that was cut off after any of its writes. */
  lemma RoundFollowsTable(disk: Checkpoint, inv: Invocation, kept: nat)
    requires Good(disk) && Loads(disk)
    ensures var notes := CourseFrom(disk.body.phase, inv, Profile(disk)).notes;
      RecordOf(Round(disk, inv, kept).body) ==
        if !Admits(disk, inv) || kept == 0 then RecordOf(disk.body)
        else Recorded(RecordOf(disk.body), inv, if kept <= |notes| then notes[..kept - 1] else notes)
  {
    var q := Operate(disk, inv);
    OperateFollowsTable(disk, inv);
    RoundIs(disk, inv, kept, q);
    if Admits(disk, inv) {
      FileFollows(disk, RecordOf(disk.body), inv, q, CourseFrom(disk.body.phase, inv, Profile(disk)).notes, kept);
    }
  }

  lemma RoundIs(disk: Checkpoint, inv: Invocation, kept: nat, q: Progress)
    requires Loads(disk) && q == Operate(disk, inv)
    ensures Round(disk, inv, kept) == FileAfter(disk, q.writes, kept)
  {
  }

  lemma FileFollows(disk: Checkpoint, h: Record, inv: Invocation, q: Progress, notes: seq<Note>, kept: nat)
    requires Tracks(h, inv, q, notes)
    ensures kept > 0 ==>
      RecordOf(FileAfter(disk, q.writes, kept).body) == Recorded(h, inv, if kept <= |notes| then notes[..kept - 1] else notes)
  {
    assert notes[..|notes|] == notes;
  }

  // ------------------------------------------------------------- waiting for the restore

  /** Why a restore has failed for good, if it has: the deadline is over, or the job ended without an archive. */
  function FailureReason(inv: Invocation): Option<Assertion>
  {
    if inv.pastDeadline then Some(DeepArchiveRestoreDeadlineExceeded)
    else if inv.job == Some(JobFailed) then Some(DeepArchiveRetrievalFailed)
    else if inv.job == Some(JobCanceled) then Some(DeepArchiveRetrievalCanceled)
    else if inv.job == Some(JobExpired) then Some(DeepArchiveRetrievalExpired)
    else None
  }

  /** The last checkpoint written has the history that was found and what the course adds to it. */
  predicate LeftBy(h: seq<PhaseRecord>, inv: Invocation, q: Progress, course: Course)
  {
    var notes, h' := course.notes, q.c.body.history;
    && q.status == course.status && h' != [] && q.c.body.phase == h'[|h'| - 1].phase
    && (notes == [] ==> h' == h)
    && (|notes| == 1 ==> h' == h + [PhaseRecord(notes[0].phase, inv.at(notes[0].phase), notes[0].assertions)])
    && (notes != [] ==> q.c.body.phase == notes[|notes| - 1].phase)
  }

  lemma RecordedLast(r: Record, inv: Invocation, notes: seq<Note>, h': seq<PhaseRecord>)
    requires h' == Recorded(r, inv, notes).history
    ensures notes == [] ==> h' == r.history
    ensures |notes| == 1 ==> h' == r.history + [PhaseRecord(notes[0].phase, inv.at(notes[0].phase), notes[0].assertions)]
    ensures notes != [] ==> h' != [] && h'[|h'| - 1].phase == notes[|notes| - 1].phase
  {
    if |notes| == 1 {
      assert notes[..0] == [];
    }
  }

  lemma OperateLeaves(c: Checkpoint, inv: Invocation)
    requires Good(c) && Admits(c, inv)
    ensures LeftBy(c.body.history, inv, Operate(c, inv), CourseFrom(c.body.phase, inv, Profile(c)))
  {
    var q, notes := Operate(c, inv), CourseFrom(c.body.phase, inv, Profile(c)).notes;
    OperateFollowsTable(c, inv);
    OperateOk(c, inv);
    assert notes[..|notes|] == notes;
    RecordedLast(RecordOf(c.body), inv, notes, q.c.body.history);
  }

  /** What it means for a restore to be answered. */
  predicate Answered(h: seq<PhaseRecord>, inv: Invocation, q: Progress)
  {
    var reason := FailureReason(inv);
    && (q.c.body.phase.Failed? <==> reason.Some? && inv.cleaned)
    && (q.c.body.phase.Failed? ==>
          q.c.body.history == h + [PhaseRecord(Failed, inv.at(Failed), {reason.value, B2TerminalPrefixRemoved})])
    && (reason.Some? && !inv.cleaned ==> q.status.Raised? && q.c.body.history == h)
    && (q.c.body.history == h + [PhaseRecord(RestorePending, inv.at(RestorePending), {DeepArchiveRestorePending})] <==>
          !inv.pastDeadline && inv.job == Some(JobRequested))
    && (q.c.body.phase in {Restored, Verified, Cleaned} <==> !inv.pastDeadline && inv.job == Some(JobReady))
  }

  lemma CourseIsAnswer(h: seq<PhaseRecord>, inv: Invocation, q: Progress)
    requires h != [] && h[|h| - 1].phase in {RestoreRequested, RestorePending} && LeftBy(h, inv, q, RestoreCourse(inv))
    ensures Answered(h, inv, q)
  {
  }

  /** An invocation that finds a restore under way fails the run if and only if the restore has failed for good
      and the cleanup succeeds, and it names the reason. It notes that the restore is pending if and only if the
      job is still requested before the deadline, and goes on if and only if the job is ready before it. */
  lemma RestoreIsAnswered(c: Checkpoint, inv: Invocation)
    requires Good(c) && Admits(c, inv) && c.body.phase in {RestoreRequested, RestorePending}
    ensures Answered(c.body.history, inv, Operate(c, inv))
  {
    var q := Operate(c, inv);
    assert LeftBy(c.body.history, inv, q, CourseFrom(c.body.phase, inv, Profile(c))) by {
      OperateLeaves(c, inv);
    }
    HistoryEnds(c);
    LeavesAnswer(c.body.history, c.body.phase, inv, Profile(c), q);
  }

  lemma HistoryEnds(c: Checkpoint)
    requires Good(c)
    ensures c.body.history != [] && c.body.history[|c.body.history| - 1].phase == c.body.phase
  {
  }

  lemma LeavesAnswer(h: seq<PhaseRecord>, phase: Phase, inv: Invocation, profile: string, q: Progress)
    requires h != [] && h[|h| - 1].phase == phase && phase in {RestoreRequested, RestorePending}
    requires LeftBy(h, inv, q, CourseFrom(phase, inv, profile))
    ensures Answered(h, inv, q)
  {
    CourseIsAnswer(h, inv, q);
  }
}
