/** The store of every run of the listener is a replay of its transactions, so what holds after every sequence
    of transactions holds in every run. */
module ListenerHistory {
  import opened Wrappers
  import opened Dispatches
  import opened Observation
  import opened StoreHistory
  import opened ListenerRuntime
  import opened ListenerSafety

  /** The transaction that a step of the runtime commits. */
  ghost function Transaction(s: Runtime, l: Label): Option<Op>
    requires Enabled(s, l)
  {
    var now := s.clock.now;
    match l
    case World(w) => if w.Boot? || w.InstallerCreate? then Some(Create) else None
    case MainDoes(m) =>
      if m.Observe? then Some(Op.Observe(m.found, m.planner, s.main.now))
      else if m.GiveUp? && m.marked && s.main.sampled.Some?
      then Some(MarkUncertain(s.main.sampled.value, "listener shutdown could not prove action custody settlement", now))
      else None
    case WorkerDoes(w) =>
      if w.StartCommit? then Some(Start(s.worker.id, now))
      else if w.FinishCommit?
      then Some(Finish(s.worker.id, s.worker.returnCode, s.worker.error, s.worker.uncertain, now))
      else None
  }

  ghost function Transactions(digest: Digest, labels: seq<Label>): seq<Op>
  {
    if labels == [] then []
    else
      var rest, l := labels[..|labels| - 1], labels[|labels| - 1];
      var s := Run(digest, rest);
      var op := if Enabled(s, l) then Transaction(s, l) else None;
      Transactions(digest, rest) + if op.Some? then [op.value] else []
  }

  ghost predicate Commits(digest: Digest, s: Store, op: Option<Op>, s': Store)
  {
    s' == if op.Some? then Apply(digest, s, op.value) else s
  }

  lemma MainStepCommits(digest: Digest, s: Runtime, m: MainLabel)
    requires MainEnabled(s, m)
    ensures Commits(digest, s.disk.store, Transaction(s, MainDoes(m)), MainAfter(digest, s, m).disk.store)
  {
    if QuietAct(m) {
      QuietMainFrame(digest, s, m);
    }
  }

  lemma WorkerStepCommits(digest: Digest, s: Runtime, w: WorkerLabel)
    requires WorkerEnabled(s, w)
    ensures Commits(digest, s.disk.store, Transaction(s, WorkerDoes(w)), WorkerAfter(s, w).disk.store)
  {
  }

  lemma StepCommits(digest: Digest, s: Runtime, l: Label)
    requires Enabled(s, l)
    ensures Commits(digest, s.disk.store, Transaction(s, l), After(digest, s, l).disk.store)
  {
    match l
    case World(w) =>
    case MainDoes(m) => MainStepCommits(digest, s, m);
    case WorkerDoes(w) => WorkerStepCommits(digest, s, w);
  }

  lemma ReplayMore(digest: Digest, ops: seq<Op>, op: Op)
    ensures Replay(digest, ops + [op]) == Apply(digest, Replay(digest, ops), op)
  {
    assert (ops + [op])[..|ops + [op]| - 1] == ops;
  }

  lemma {:induction false} RunIsReplay(digest: Digest, labels: seq<Label>)
    ensures Run(digest, labels).disk.store == Replay(digest, Transactions(digest, labels))
  {
    if labels != [] {
      var rest, l := labels[..|labels| - 1], labels[|labels| - 1];
      var s := Run(digest, rest);
      var ops := Transactions(digest, rest);
      RunIsReplay(digest, rest);
      if Enabled(s, l) && Transaction(s, l).Some? {
        StepCommits(digest, s, l);
        ReplayMore(digest, ops, Transaction(s, l).value);
        assert Transactions(digest, labels) == ops + [Transaction(s, l).value];
      } else {
        if Enabled(s, l) {
          StepCommits(digest, s, l);
        }
        assert Transactions(digest, labels) == ops + [] == ops;
      }
    }
  }

  /** So in every run rows fit their state, there is one row per mount, generation and marker, and a mount's
      generation counts the times it appeared. */
  lemma EveryRunKeepsTheStore(digest: Digest, labels: seq<Label>, a: Id, b: Id, m: Mount)
    ensures var s := Run(digest, labels).disk.store; var h := Sightings(Transactions(digest, labels));
      && StoreOk(digest, s)
      && (a in s.dispatches && b in s.dispatches && s.dispatches[a].mount == s.dispatches[b].mount
          && s.dispatches[a].generation == s.dispatches[b].generation && s.dispatches[a].marker == s.dispatches[b].marker
          ==> a == b)
      && (m in s.mounts <==> Edges(h, m) > 0)
      && (m in s.mounts ==> s.mounts[m].generation == Edges(h, m))
  {
    var ops := Transactions(digest, labels);
    RunIsReplay(digest, labels);
    ReachableStoreOk(digest, ops);
    GenerationCountsEdges(digest, ops, m);
  }
}
