/** A checkpoint as the object it is printed as, and the loader that reads it back field by field. */
module CheckpointJson {
  import opened Wrappers
  import opened Text
  import opened Sorting
  import opened Checkpoints
  import opened Qualification

  /** The keys of the printed objects. */
  datatype Key =
    | KSchema | KRunId | KSourceSha | KSourceRef | KConfigSha256 | KCorpusSha256 | KCorpusProfile | KCorpusFiles
    | KCorpusBytes | KRestoreTier | KRestoreCopyDays | KProviderBinding | KProviders | KArtifacts | KNamespace | KPhase
    | KGeneration | KPrevious | KStartedAt | KUpdatedAt | KRestoreDeadlineAt | KCollectionId | KRetrievalJobId | KKeyId
    | KHistory | KDigest
    | KLogicalName | KProvider | KRole | KRegion | KStorageClass | KReadMode
    | KSurface | KSha256 | KObjects | KBytes
    | KAt | KAssertions
    | KOther(text: string)

  datatype Value =
    | VNull
    | VInt(i: int)
    | VStr(s: string)
    | VList(items: seq<Value>)
    | VDict(fields: Key -> Option<Value>)
    | VOther(text: string)

  /** A dictionary, by what it holds under each key. */
  type Fields = Key -> Option<Value>

  /** The text of a digest and of an assertion, and Python's `str` and `int`. */
  datatype World = World(
    hex: Digest -> string,
    digestOf: string -> Option<Digest>,
    name: Assertion -> string,
    named: string -> Assertion,
    str: Value -> string,
    int': Value -> Option<int>)

  /** A digest identifies what it covers, and conversions leave alone what has the right type. */
  ghost predicate Straight(w: World)
  {
    (forall d :: w.digestOf(w.hex(d)) == Some(d)) && (forall s :: w.str(VStr(s)) == s) && forall i :: w.int'(VInt(i)) == Some(i)
  }

  predicate Named(w: World, a: Assertion)
  {
    w.named(w.name(a)) == a
  }

  ghost predicate AllNamed(w: World, h: seq<PhaseRecord>)
  {
    forall i, a :: 0 <= i < |h| && a in h[i].assertions ==> Named(w, a)
  }

  const SCHEMA := "riverhog-provider-qualification-checkpoint/v1"

  function PhaseText(p: Phase): string
  {
    match p
    case Created => "created"
    case ImmediateQualified => "immediate-qualified"
    case DeepArchiveUploaded => "deep-archive-uploaded"
    case DeepArchiveCacheObserved => "deep-archive-cache-observed"
    case RestoreRequested => "restore-requested"
    case RestorePending => "restore-pending"
    case Restored => "restored"
    case Verified => "verified"
    case Cleaned => "cleaned"
    case Failed => "failed"
  }

  function PhaseOf(s: string): Option<Phase>
  {
    if s == "created" then Some(Created)
    else if s == "immediate-qualified" then Some(ImmediateQualified)
    else if s == "deep-archive-uploaded" then Some(DeepArchiveUploaded)
    else if s == "deep-archive-cache-observed" then Some(DeepArchiveCacheObserved)
    else if s == "restore-requested" then Some(RestoreRequested)
    else if s == "restore-pending" then Some(RestorePending)
    else if s == "restored" then Some(Restored)
    else if s == "verified" then Some(Verified)
    else if s == "cleaned" then Some(Cleaned)
    else if s == "failed" then Some(Failed)
    else None
  }

  function SurfaceOf(s: string): Surface
  {
    if s == "aws-deep-archive" then AwsDeepArchive
    else if s == "b2-archive" then B2Archive
    else if s == "cloudfront-egress" then CloudfrontEgress
    else Unknown(s)
  }

  lemma PhaseOfText(p: Phase)
    ensures PhaseOf(PhaseText(p)) == Some(p)
  {
  }

  lemma SurfaceOfText(s: Surface)
    requires s in SURFACES
    ensures SurfaceOf(SurfaceText(s)) == s
  {
  }

  // ------------------------------------------------------------- sorted tuples

  predicate Before(a: string, b: string)
  {
    LexLeq(a, b) && a != b
  }

  predicate StrictlySorted(l: seq<string>)
  {
    forall i, j :: 0 <= i < j < |l| ==> Before(l[i], l[j])
  }

  lemma {:induction false} LeastExists(names: set<string>) returns (x: string)
    requires names != {}
    ensures x in names && forall y :: y in names ==> LexLeq(x, y)
    decreases |names|
  {
    x :| x in names;
    var rest := names - {x};
    LexTotal(x, x);
    if rest != {} {
      var y := LeastExists(rest);
      LexTotal(x, y);
      if !LexLeq(x, y) {
        LexTotal(y, y);
        x := y;
      } else {
        forall z | z in rest
          ensures LexLeq(x, z)
        {
          LexTransitive(x, y, z);
        }
      }
    }
  }

  /** `tuple(sorted(set(...)))` */
  ghost function SortedNames(names: set<string>): (l: seq<string>)
    ensures (forall x :: x in l <==> x in names) && StrictlySorted(l)
    decreases |names|
  {
    if names == {} then []
    else
      SomeIsLeast(names);
      var x: string :| IsLeast(names, x);
      var rest := SortedNames(names - {x});
      SortedCons(x, rest);
      [x] + rest
  }

  lemma SomeIsLeast(names: set<string>)
    requires names != {}
    ensures exists x :: IsLeast(names, x)
  {
    var x := LeastExists(names);
    assert IsLeast(names, x);
  }

  predicate IsLeast(names: set<string>, x: string)
  {
    x in names && forall y :: y in names ==> LexLeq(x, y)
  }

  lemma SortedCons(x: string, rest: seq<string>)
    requires StrictlySorted(rest) && forall y :: y in rest ==> Before(x, y)
    ensures StrictlySorted([x] + rest) && forall y :: y in [x] + rest <==> y == x || y in rest
  {
    var l := [x] + rest;
    forall i, j | 0 <= i < j < |l|
      ensures Before(l[i], l[j])
    {
      assert l[j] == rest[j - 1];
      if i > 0 {
        assert l[i] == rest[i - 1];
      }
    }
  }

  // -------------------------------------------------------------------- printing

  function OptText(x: Option<string>): Value
  {
    if x.Some? then VStr(x.value) else VNull
  }

  function ProviderField(p: Provider, k: Key): Option<Value>
  {
    match k
    case KLogicalName => Some(VStr(p.logicalName))
    case KProvider => Some(VStr(p.provider))
    case KRole => Some(VStr(p.role))
    case KRegion => Some(VStr(p.region))
    case KStorageClass => Some(VStr(p.storageClass))
    case KReadMode => Some(VStr(p.readMode))
    case _ => None
  }

  function ProviderDict(p: Provider): Value
  {
    VDict((k: Key) => ProviderField(p, k))
  }

  function ArtifactDict(a: Artifact): Value
  {
    VDict((k: Key) =>
      match k
      case KSurface => Some(VStr(SurfaceText(a.surface)))
      case KSha256 => Some(VStr(a.sha256))
      case KObjects => Some(VInt(a.objects))
      case KBytes => Some(VInt(a.bytes))
      case _ => None)
  }

  /** The set of a record is its sorted tuple. */
  ghost function TupleOf(w: World, assertions: set<Assertion>): seq<string>
  {
    SortedNames(set a | a in assertions :: w.name(a))
  }

  ghost function RecordDict(w: World, r: PhaseRecord): Value
  {
    var names := TupleOf(w, r.assertions);
    VDict((k: Key) =>
      match k
      case KPhase => Some(VStr(PhaseText(r.phase)))
      case KAt => Some(VStr(r.at))
      case KAssertions => Some(VList(seq(|names|, i requires 0 <= i < |names| => VStr(names[i]))))
      case _ => None)
  }

  /** What stands under a key. */
  ghost function FieldOf(w: World, c: Checkpoint, k: Key): Option<Value>
  {
    var b, i := c.body, c.body.identity;
    match k
    case KSchema => Some(VStr(SCHEMA))
    case KRunId => Some(VStr(i.runId))
    case KSourceSha => Some(VStr(i.sourceSha))
    case KSourceRef => Some(VStr(i.sourceRef))
    case KConfigSha256 => Some(VStr(i.configSha256))
    case KCorpusSha256 => Some(VStr(i.corpusSha256))
    case KCorpusProfile => Some(VStr(i.corpusProfile))
    case KCorpusFiles => Some(VInt(i.corpusFiles))
    case KCorpusBytes => Some(VInt(i.corpusBytes))
    case KRestoreTier => Some(VStr(i.restoreTier))
    case KRestoreCopyDays => Some(VInt(i.restoreCopyDays))
    case KProviderBinding => Some(VStr(i.providerBinding))
    case KProviders => Some(VList(seq(|i.providers|, n requires 0 <= n < |i.providers| => ProviderDict(i.providers[n]))))
    case KArtifacts => Some(VList(seq(|b.artifacts|, n requires 0 <= n < |b.artifacts| => ArtifactDict(b.artifacts[n]))))
    case KNamespace => Some(VStr(i.namespace))
    case KPhase => Some(VStr(PhaseText(b.phase)))
    case KGeneration => Some(VInt(b.generation))
    case KPrevious => Some(OptText(if b.previous.Some? then Some(w.hex(b.previous.value)) else None))
    case KStartedAt => Some(VStr(i.startedAt))
    case KUpdatedAt => Some(VStr(b.updatedAt))
    case KRestoreDeadlineAt => Some(VStr(i.restoreDeadlineAt))
    case KCollectionId => Some(if b.collectionId.Some? then VInt(b.collectionId.value) else VNull)
    case KRetrievalJobId => Some(OptText(b.retrievalJobId))
    case KKeyId => Some(OptText(b.keyId))
    case KHistory => Some(VList(seq(|b.history|, n requires 0 <= n < |b.history| => RecordDict(w, b.history[n]))))
    case KDigest => Some(VStr(w.hex(c.digest)))
    case _ => None
  }

  /** `as_dict` */
  ghost function AsDict(w: World, c: Checkpoint): Value
  {
    VDict((k: Key) => FieldOf(w, c, k))
  }

  // --------------------------------------------------------------------- reading

  /** `str(payload[key])`; None is a raised error, as below. */
  function TextAt(w: World, m: Fields, k: Key): Option<string>
  {
    if m(k).Some? then Some(w.str(m(k).value)) else None
  }

  function IntAt(w: World, m: Fields, k: Key): Option<int>
  {
    if m(k).Some? then w.int'(m(k).value) else None
  }

  function MaybeTextAt(w: World, m: Fields, k: Key): Option<Option<string>>
  {
    if m(k).None? then None else if m(k).value.VNull? then Some(None) else Some(Some(w.str(m(k).value)))
  }

  function MaybeIntAt(w: World, m: Fields, k: Key): Option<Option<int>>
  {
    if m(k).None? then None else if m(k).value.VNull? then Some(None)
    else
      var i :- w.int'(m(k).value);
      Some(Some(i))
  }

  function ReadEach<T>(items: seq<Value>, read: Value -> Option<T>): Option<seq<T>>
  {
    if items == [] then Some([])
    else
      var before :- ReadEach(items[..|items| - 1], read);
      var last :- read(items[|items| - 1]);
      Some(before + [last])
  }

  function ReadList<T>(m: Fields, k: Key, read: Value -> Option<T>): Option<seq<T>>
  {
    if m(k).None? || !m(k).value.VList? then None else ReadEach(m(k).value.items, read)
  }

  function ReadProvider(w: World, v: Value): Option<Provider>
  {
    if !v.VDict? then None
    else
      var m := v.fields;
      var logicalName :- TextAt(w, m, KLogicalName);
      var provider :- TextAt(w, m, KProvider);
      var role :- TextAt(w, m, KRole);
      var region :- TextAt(w, m, KRegion);
      var storageClass :- TextAt(w, m, KStorageClass);
      var readMode :- TextAt(w, m, KReadMode);
      Some(Provider(logicalName, provider, role, region, storageClass, readMode))
  }

  function ReadArtifact(w: World, v: Value): Option<Artifact>
  {
    if !v.VDict? then None
    else
      var m := v.fields;
      var surface :- TextAt(w, m, KSurface);
      var sha256 :- TextAt(w, m, KSha256);
      var objects :- IntAt(w, m, KObjects);
      var bytes :- IntAt(w, m, KBytes);
      Some(Artifact(SurfaceOf(surface), sha256, objects, bytes))
  }

  /** A tuple that is not the sorted one of its names cannot have the digest of a record. */
  function ReadTuple(w: World, items: seq<Value>): Option<set<Assertion>>
  {
    var l := seq(|items|, i requires 0 <= i < |items| => w.str(items[i]));
    if StrictlySorted(l) && forall x :: x in l ==> w.name(w.named(x)) == x then Some(set x | x in l :: w.named(x)) else None
  }

  function ReadRecord(w: World, v: Value): Option<PhaseRecord>
  {
    if !v.VDict? then None
    else
      var m := v.fields;
      var phase :- TextAt(w, m, KPhase);
      var at :- TextAt(w, m, KAt);
      var items := if m(KAssertions).Some? then m(KAssertions).value else VList([]);
      if !items.VList? then None
      else
        var assertions :- ReadTuple(w, items.items);
        var p :- PhaseOf(phase);
        Some(PhaseRecord(p, at, assertions))
  }

  function ReadOrigin(w: World, m: Fields): Option<Identity>
  {
    var runId :- TextAt(w, m, KRunId);
    var sourceSha :- TextAt(w, m, KSourceSha);
    var sourceRef :- TextAt(w, m, KSourceRef);
    var configSha256 :- TextAt(w, m, KConfigSha256);
    var corpusSha256 :- TextAt(w, m, KCorpusSha256);
    var corpusProfile :- TextAt(w, m, KCorpusProfile);
    var corpusFiles :- IntAt(w, m, KCorpusFiles);
    var corpusBytes :- IntAt(w, m, KCorpusBytes);
    ReadPolicy(w, m, Identity(runId, sourceSha, sourceRef, configSha256, corpusSha256, corpusProfile, corpusFiles,
                              corpusBytes, "", 0, "", [], "", "", ""))
  }

  /** The rest of the fields that never change. */
  function ReadPolicy(w: World, m: Fields, origin: Identity): Option<Identity>
  {
    var restoreTier :- TextAt(w, m, KRestoreTier);
    var restoreCopyDays :- IntAt(w, m, KRestoreCopyDays);
    var providerBinding :- TextAt(w, m, KProviderBinding);
    var providers :- ReadList(m, KProviders, v => ReadProvider(w, v));
    var namespace :- TextAt(w, m, KNamespace);
    var startedAt :- TextAt(w, m, KStartedAt);
    var restoreDeadlineAt :- TextAt(w, m, KRestoreDeadlineAt);
    Some(origin.(restoreTier := restoreTier, restoreCopyDays := restoreCopyDays, providerBinding := providerBinding,
                 providers := providers, namespace := namespace, startedAt := startedAt,
                 restoreDeadlineAt := restoreDeadlineAt))
  }

  function ReadPrevious(w: World, m: Fields): Option<Option<Digest>>
  {
    var text :- MaybeTextAt(w, m, KPrevious);
    if text.None? then Some(None)
    else
      var d :- w.digestOf(text.value);
      Some(Some(d))
  }

  function ReadBody(w: World, m: Fields): Option<Body>
  {
    var identity :- ReadOrigin(w, m);
    var artifacts :- ReadList(m, KArtifacts, v => ReadArtifact(w, v));
    var phase :- TextAt(w, m, KPhase);
    var p :- PhaseOf(phase);
    var generation :- IntAt(w, m, KGeneration);
    var previous :- ReadPrevious(w, m);
    var updatedAt :- TextAt(w, m, KUpdatedAt);
    var collectionId :- MaybeIntAt(w, m, KCollectionId);
    var retrievalJobId :- MaybeTextAt(w, m, KRetrievalJobId);
    var keyId :- MaybeTextAt(w, m, KKeyId);
    var history :- ReadList(m, KHistory, v => ReadRecord(w, v));
    if generation < 0 then None
    else Some(Body(identity, artifacts, p, generation, previous, updatedAt, collectionId, retrievalJobId, keyId, history))
  }

  function ReadCheckpoint(w: World, m: Fields): Option<Checkpoint>
  {
    var body :- ReadBody(w, m);
    var text :- TextAt(w, m, KDigest);
    var digest :- w.digestOf(text);
    Some(Checkpoint(body, digest))
  }

  predicate HasSchema(m: Fields)
  {
    m(KSchema).Some? && m(KSchema).value.VStr? && m(KSchema).value.s == SCHEMA
  }

  /** `load_checkpoint`, from the parsed object. */
  function Load(w: World, v: Value): Result<Checkpoint, Error>
  {
    if !v.VDict? || !HasSchema(v.fields) then Err(Unloadable)
    else
      match ReadCheckpoint(w, v.fields)
      case None => Err(Unloadable)
      case Some(c) => if Loads(c) then Ok(c) else Err(Unloadable)
  }

  // ------------------------------------------------------------------ round trip

  lemma {:induction false} ReadEachBack<T>(items: seq<Value>, read: Value -> Option<T>, xs: seq<T>)
    requires |items| == |xs| && forall i :: 0 <= i < |xs| ==> read(items[i]) == Some(xs[i])
    ensures ReadEach(items, read) == Some(xs)
  {
    if xs != [] {
      ReadEachBack(items[..|items| - 1], read, xs[..|xs| - 1]);
      assert xs == xs[..|xs| - 1] + [xs[|xs| - 1]];
    }
  }

  lemma ProviderFrom(w: World, m: Fields, p: Provider)
    requires TextAt(w, m, KLogicalName) == Some(p.logicalName) && TextAt(w, m, KProvider) == Some(p.provider)
    requires TextAt(w, m, KRole) == Some(p.role) && TextAt(w, m, KRegion) == Some(p.region)
    requires TextAt(w, m, KStorageClass) == Some(p.storageClass) && TextAt(w, m, KReadMode) == Some(p.readMode)
    ensures ReadProvider(w, VDict(m)) == Some(p)
  {
  }

  lemma ProviderFields(p: Provider) returns (m: Fields)
    ensures ProviderDict(p) == VDict(m) && m(KLogicalName) == Some(VStr(p.logicalName)) && m(KProvider) == Some(VStr(p.provider))
    ensures m(KRole) == Some(VStr(p.role)) && m(KRegion) == Some(VStr(p.region))
    ensures m(KStorageClass) == Some(VStr(p.storageClass)) && m(KReadMode) == Some(VStr(p.readMode))
  {
    m := ProviderDict(p).fields;
  }

  lemma ProviderBack(w: World, p: Provider)
    requires Straight(w)
    ensures ReadProvider(w, ProviderDict(p)) == Some(p)
  {
    var m := ProviderFields(p);
    TextBack(w, m, KLogicalName, p.logicalName);
    TextBack(w, m, KProvider, p.provider);
    TextBack(w, m, KRole, p.role);
    TextBack(w, m, KRegion, p.region);
    TextBack(w, m, KStorageClass, p.storageClass);
    TextBack(w, m, KReadMode, p.readMode);
    ProviderFrom(w, m, p);
  }

  lemma ArtifactFrom(w: World, m: Fields, a: Artifact)
    requires TextAt(w, m, KSurface).Some? && SurfaceOf(TextAt(w, m, KSurface).value) == a.surface
    requires TextAt(w, m, KSha256) == Some(a.sha256)
    requires IntAt(w, m, KObjects) == Some(a.objects) && IntAt(w, m, KBytes) == Some(a.bytes)
    ensures ReadArtifact(w, VDict(m)) == Some(a)
  {
  }

  lemma ArtifactBack(w: World, a: Artifact)
    requires Straight(w) && a.surface in SURFACES
    ensures ReadArtifact(w, ArtifactDict(a)) == Some(a)
  {
    var m := ArtifactDict(a).fields;
    SurfaceOfText(a.surface);
    TextBack(w, m, KSurface, SurfaceText(a.surface));
    TextBack(w, m, KSha256, a.sha256);
    IntBack(w, m, KObjects, a.objects);
    IntBack(w, m, KBytes, a.bytes);
    ArtifactFrom(w, m, a);
  }

  lemma TupleBack(w: World, assertions: set<Assertion>, items: seq<Value>)
    requires Straight(w) && forall a :: a in assertions ==> Named(w, a)
    requires var names := TupleOf(w, assertions);
      |items| == |names| && forall i :: 0 <= i < |names| ==> items[i].VStr? && items[i].s == names[i]
    ensures ReadTuple(w, items) == Some(assertions)
  {
    var names := TupleOf(w, assertions);
    var l := seq(|items|, i requires 0 <= i < |items| => w.str(items[i]));
    assert l == names;
    forall x | x in l
      ensures w.name(w.named(x)) == x && w.named(x) in assertions
    {
      var a :| a in assertions && w.name(a) == x;
      assert Named(w, a);
    }
    var back := set x | x in l :: w.named(x);
    forall a | a in assertions
      ensures a in back
    {
      assert w.name(a) in l && Named(w, a);
    }
    assert back == assertions;
  }

  /** What the reader of a tuple takes: exactly the sorted tuple of names that are told apart. */
  lemma TupleIff(w: World, items: seq<Value>, assertions: set<Assertion>)
    requires Straight(w) && forall i :: 0 <= i < |items| ==> items[i].VStr?
    ensures ReadTuple(w, items) == Some(assertions) <==>
      && (forall a :: a in assertions ==> Named(w, a))
      && |items| == |TupleOf(w, assertions)| && forall i :: 0 <= i < |items| ==> items[i].s == TupleOf(w, assertions)[i]
  {
    if ReadTuple(w, items) == Some(assertions) {
      TupleRead(w, items, assertions);
    }
    if (forall a :: a in assertions ==> Named(w, a)) && |items| == |TupleOf(w, assertions)|
       && forall i :: 0 <= i < |items| ==> items[i].s == TupleOf(w, assertions)[i] {
      TupleBack(w, assertions, items);
    }
  }

  lemma StrictIsOrdered(l: seq<string>)
    requires StrictlySorted(l)
    ensures Ordered(l, LexLeq) && AllDiffer(l)
  {
    assert forall i, j :: 0 <= i < j < |l| ==> Before(l[i], l[j]);
  }

  lemma SortedIsUnique(l: seq<string>, m: seq<string>)
    requires StrictlySorted(l) && StrictlySorted(m) && forall x :: x in l <==> x in m
    ensures l == m
  {
    StrictIsOrdered(l);
    StrictIsOrdered(m);
    forall a: string, b: string | LexLeq(a, b) && LexLeq(b, a)
      ensures a == b
    {
      LexTotal(a, b);
    }
    OrderedIsUnique(l, m, LexLeq);
  }

  lemma TupleRead(w: World, items: seq<Value>, assertions: set<Assertion>)
    requires Straight(w) && (forall i :: 0 <= i < |items| ==> items[i].VStr?) && ReadTuple(w, items) == Some(assertions)
    ensures forall a :: a in assertions ==> Named(w, a)
    ensures |items| == |TupleOf(w, assertions)| && forall i :: 0 <= i < |items| ==> items[i].s == TupleOf(w, assertions)[i]
  {
    var l := seq(|items|, i requires 0 <= i < |items| => w.str(items[i]));
    var names := set a | a in assertions :: w.name(a);
    forall x
      ensures x in l <==> x in names
    {
      if x in l {
        assert w.named(x) in assertions && w.name(w.named(x)) == x;
      }
      if x in names {
        var a :| a in assertions && w.name(a) == x;
        var y :| y in l && w.named(y) == a;
      }
    }
    SortedIsUnique(l, TupleOf(w, assertions));
    forall a | a in assertions
      ensures Named(w, a)
    {
      var y :| y in l && w.named(y) == a;
    }
  }

  lemma RecordFrom(w: World, m: Fields, r: PhaseRecord)
    requires TextAt(w, m, KPhase).Some? && PhaseOf(TextAt(w, m, KPhase).value) == Some(r.phase)
    requires TextAt(w, m, KAt) == Some(r.at)
    requires m(KAssertions).Some? && m(KAssertions).value.VList? && ReadTuple(w, m(KAssertions).value.items) == Some(r.assertions)
    ensures ReadRecord(w, VDict(m)) == Some(r)
  {
  }

  lemma RecordFields(w: World, r: PhaseRecord) returns (m: Fields)
    ensures RecordDict(w, r) == VDict(m) && m(KPhase) == Some(VStr(PhaseText(r.phase))) && m(KAt) == Some(VStr(r.at))
    ensures m(KAssertions).Some? && m(KAssertions).value.VList?
    ensures var names, items := TupleOf(w, r.assertions), m(KAssertions).value.items;
      |items| == |names| && forall i :: 0 <= i < |names| ==> items[i] == VStr(names[i])
  {
    m := RecordDict(w, r).fields;
  }

  lemma RecordBack(w: World, r: PhaseRecord)
    requires Straight(w) && forall a :: a in r.assertions ==> Named(w, a)
    ensures ReadRecord(w, RecordDict(w, r)) == Some(r)
  {
    var m := RecordFields(w, r);
    PhaseOfText(r.phase);
    TextBack(w, m, KPhase, PhaseText(r.phase));
    TextBack(w, m, KAt, r.at);
    TupleBack(w, r.assertions, m(KAssertions).value.items);
    RecordFrom(w, m, r);
  }

  /** The fields of a printed checkpoint. */
  ghost predicate Prints(w: World, c: Checkpoint, m: Fields)
  {
    m == AsDict(w, c).fields
  }

  lemma TextBack(w: World, m: Fields, k: Key, s: string)
    requires Straight(w) && m(k) == Some(VStr(s))
    ensures TextAt(w, m, k) == Some(s)
  {
  }

  lemma IntBack(w: World, m: Fields, k: Key, i: int)
    requires Straight(w) && m(k) == Some(VInt(i))
    ensures IntAt(w, m, k) == Some(i)
  {
  }

  lemma MaybeTextBack(w: World, m: Fields, k: Key, x: Option<string>)
    requires Straight(w) && m(k) == Some(OptText(x))
    ensures MaybeTextAt(w, m, k) == Some(x)
  {
  }

  lemma ListBack<T>(m: Fields, k: Key, read: Value -> Option<T>, items: seq<Value>, xs: seq<T>)
    requires m(k) == Some(VList(items))
    requires |items| == |xs| && forall i :: 0 <= i < |xs| ==> read(items[i]) == Some(xs[i])
    ensures ReadList(m, k, read) == Some(xs)
  {
    ReadEachBack(items, read, xs);
  }

  function WithPolicy(origin: Identity, i: Identity): Identity
  {
    origin.(restoreTier := i.restoreTier, restoreCopyDays := i.restoreCopyDays, providerBinding := i.providerBinding,
            providers := i.providers, namespace := i.namespace, startedAt := i.startedAt,
            restoreDeadlineAt := i.restoreDeadlineAt)
  }

  predicate ReadsPolicy(w: World, m: Fields, i: Identity)
  {
    && TextAt(w, m, KRestoreTier) == Some(i.restoreTier) && IntAt(w, m, KRestoreCopyDays) == Some(i.restoreCopyDays)
    && TextAt(w, m, KProviderBinding) == Some(i.providerBinding)
    && ReadList(m, KProviders, v => ReadProvider(w, v)) == Some(i.providers)
    && TextAt(w, m, KNamespace) == Some(i.namespace) && TextAt(w, m, KStartedAt) == Some(i.startedAt)
    && TextAt(w, m, KRestoreDeadlineAt) == Some(i.restoreDeadlineAt)
  }

  lemma PolicyFrom(w: World, m: Fields, i: Identity, origin: Identity)
    requires ReadsPolicy(w, m, i)
    ensures ReadPolicy(w, m, origin) == Some(WithPolicy(origin, i))
  {
  }

  lemma PolicyBack(w: World, c: Checkpoint, m: Fields)
    requires Prints(w, c, m) && Straight(w)
    ensures ReadsPolicy(w, m, c.body.identity)
  {
    var i := c.body.identity;
    TextBack(w, m, KRestoreTier, i.restoreTier);
    IntBack(w, m, KRestoreCopyDays, i.restoreCopyDays);
    TextBack(w, m, KProviderBinding, i.providerBinding);
    ProvidersBack(w, c, m);
    TextBack(w, m, KNamespace, i.namespace);
    TextBack(w, m, KStartedAt, i.startedAt);
    TextBack(w, m, KRestoreDeadlineAt, i.restoreDeadlineAt);
  }

  lemma ProvidersBack(w: World, c: Checkpoint, m: Fields)
    requires Prints(w, c, m) && Straight(w)
    ensures ReadList(m, KProviders, v => ReadProvider(w, v)) == Some(c.body.identity.providers)
  {
    var xs := c.body.identity.providers;
    forall n | 0 <= n < |xs|
      ensures ReadProvider(w, ProviderDict(xs[n])) == Some(xs[n])
    {
      ProviderBack(w, xs[n]);
    }
    ListBack(m, KProviders, v => ReadProvider(w, v), FieldOf(w, c, KProviders).value.items, xs);
  }

  lemma ArtifactsBack(w: World, c: Checkpoint, m: Fields)
    requires Prints(w, c, m) && Straight(w) && forall a :: a in c.body.artifacts ==> a.surface in SURFACES
    ensures ReadList(m, KArtifacts, v => ReadArtifact(w, v)) == Some(c.body.artifacts)
  {
    var xs := c.body.artifacts;
    forall n | 0 <= n < |xs|
      ensures ReadArtifact(w, ArtifactDict(xs[n])) == Some(xs[n])
    {
      assert xs[n] in xs;
      ArtifactBack(w, xs[n]);
    }
    ListBack(m, KArtifacts, v => ReadArtifact(w, v), FieldOf(w, c, KArtifacts).value.items, xs);
  }

  lemma HistoryBack(w: World, c: Checkpoint, m: Fields)
    requires Prints(w, c, m) && Straight(w) && AllNamed(w, c.body.history)
    ensures ReadList(m, KHistory, v => ReadRecord(w, v)) == Some(c.body.history)
  {
    var xs := c.body.history;
    forall n | 0 <= n < |xs|
      ensures ReadRecord(w, RecordDict(w, xs[n])) == Some(xs[n])
    {
      RecordBack(w, xs[n]);
    }
    ListBack(m, KHistory, v => ReadRecord(w, v), FieldOf(w, c, KHistory).value.items, xs);
  }

  lemma IdentityBack(w: World, c: Checkpoint, m: Fields)
    requires Prints(w, c, m) && Straight(w)
    ensures ReadOrigin(w, m) == Some(c.body.identity)
  {
    var i := c.body.identity;
    TextBack(w, m, KRunId, i.runId);
    TextBack(w, m, KSourceSha, i.sourceSha);
    TextBack(w, m, KSourceRef, i.sourceRef);
    TextBack(w, m, KConfigSha256, i.configSha256);
    TextBack(w, m, KCorpusSha256, i.corpusSha256);
    TextBack(w, m, KCorpusProfile, i.corpusProfile);
    IntBack(w, m, KCorpusFiles, i.corpusFiles);
    IntBack(w, m, KCorpusBytes, i.corpusBytes);
    PolicyBack(w, c, m);
    PolicyFrom(w, m, i,
               Identity(i.runId, i.sourceSha, i.sourceRef, i.configSha256, i.corpusSha256, i.corpusProfile,
                        i.corpusFiles, i.corpusBytes, "", 0, "", [], "", "", ""));
  }

  lemma PreviousBack(w: World, c: Checkpoint, m: Fields)
    requires Prints(w, c, m) && Straight(w)
    ensures ReadPrevious(w, m) == Some(c.body.previous)
  {
    var b := c.body;
    MaybeTextBack(w, m, KPrevious, if b.previous.Some? then Some(w.hex(b.previous.value)) else None);
  }

  lemma CollectionBack(w: World, c: Checkpoint, m: Fields)
    requires Prints(w, c, m) && Straight(w)
    ensures MaybeIntAt(w, m, KCollectionId) == Some(c.body.collectionId)
  {
  }

  predicate ReadsBody(w: World, m: Fields, b: Body)
  {
    && ReadOrigin(w, m) == Some(b.identity)
    && ReadList(m, KArtifacts, v => ReadArtifact(w, v)) == Some(b.artifacts)
    && TextAt(w, m, KPhase).Some? && PhaseOf(TextAt(w, m, KPhase).value) == Some(b.phase)
    && IntAt(w, m, KGeneration) == Some(b.generation) && ReadPrevious(w, m) == Some(b.previous)
    && TextAt(w, m, KUpdatedAt) == Some(b.updatedAt) && MaybeIntAt(w, m, KCollectionId) == Some(b.collectionId)
    && MaybeTextAt(w, m, KRetrievalJobId) == Some(b.retrievalJobId) && MaybeTextAt(w, m, KKeyId) == Some(b.keyId)
    && ReadList(m, KHistory, v => ReadRecord(w, v)) == Some(b.history)
  }

  lemma BodyFrom(w: World, m: Fields, b: Body)
    requires ReadsBody(w, m, b)
    ensures ReadBody(w, m) == Some(b)
  {
  }

  lemma PhaseBack(w: World, c: Checkpoint, m: Fields)
    requires Prints(w, c, m) && Straight(w)
    ensures var t := TextAt(w, m, KPhase); t.Some? && PhaseOf(t.value) == Some(c.body.phase)
  {
    TextBack(w, m, KPhase, PhaseText(c.body.phase));
    PhaseOfText(c.body.phase);
  }

  lemma PlainFieldsBack(w: World, c: Checkpoint, m: Fields)
    requires Prints(w, c, m) && Straight(w)
    ensures var b := c.body;
      && IntAt(w, m, KGeneration) == Some(b.generation) && TextAt(w, m, KUpdatedAt) == Some(b.updatedAt)
      && MaybeTextAt(w, m, KRetrievalJobId) == Some(b.retrievalJobId) && MaybeTextAt(w, m, KKeyId) == Some(b.keyId)
  {
    var b := c.body;
    IntBack(w, m, KGeneration, b.generation);
    TextBack(w, m, KUpdatedAt, b.updatedAt);
    MaybeTextBack(w, m, KRetrievalJobId, b.retrievalJobId);
    MaybeTextBack(w, m, KKeyId, b.keyId);
  }

  lemma BodyBack(w: World, c: Checkpoint, m: Fields)
    requires Prints(w, c, m) && Straight(w) && AllNamed(w, c.body.history)
    requires forall a :: a in c.body.artifacts ==> a.surface in SURFACES
    ensures ReadsBody(w, m, c.body)
  {
    IdentityBack(w, c, m);
    ArtifactsBack(w, c, m);
    PhaseBack(w, c, m);
    PlainFieldsBack(w, c, m);
    PreviousBack(w, c, m);
    CollectionBack(w, c, m);
    HistoryBack(w, c, m);
  }

  lemma LoadFrom(w: World, m: Fields, c: Checkpoint)
    requires HasSchema(m) && ReadBody(w, m) == Some(c.body) && Loads(c)
    requires TextAt(w, m, KDigest).Some? && w.digestOf(TextAt(w, m, KDigest).value) == Some(c.digest)
    ensures Load(w, VDict(m)) == Ok(c)
  {
    assert ReadCheckpoint(w, m) == Some(c);
  }

  /** A checkpoint that meets the loader's rules is reloaded as the same value. */
  lemma ReloadsSame(w: World, c: Checkpoint)
    requires Straight(w) && Loads(c) && AllNamed(w, c.body.history)
    ensures Load(w, AsDict(w, c)) == Ok(c)
  {
    PrintedLoads(w, c, AsDict(w, c).fields);
  }

  lemma LoadsKnownSurfaces(c: Checkpoint)
    requires Loads(c)
    ensures forall a :: a in c.body.artifacts ==> a.surface in SURFACES
  {
  }

  lemma SealBack(w: World, c: Checkpoint, m: Fields)
    requires Prints(w, c, m) && Straight(w)
    ensures HasSchema(m) && TextAt(w, m, KDigest).Some? && w.digestOf(TextAt(w, m, KDigest).value) == Some(c.digest)
  {
    TextBack(w, m, KDigest, w.hex(c.digest));
  }

  lemma PrintedLoads(w: World, c: Checkpoint, m: Fields)
    requires Prints(w, c, m) && Straight(w) && Loads(c) && AllNamed(w, c.body.history)
    ensures Load(w, VDict(m)) == Ok(c)
  {
    LoadsKnownSurfaces(c);
    PrintedBody(w, c, m);
    SealBack(w, c, m);
    LoadFrom(w, m, c);
  }

  lemma PrintedBody(w: World, c: Checkpoint, m: Fields)
    requires Prints(w, c, m) && Straight(w) && AllNamed(w, c.body.history)
    requires forall a :: a in c.body.artifacts ==> a.surface in SURFACES
    ensures ReadBody(w, m) == Some(c.body)
  {
    BodyBack(w, c, m);
    BodyFrom(w, m, c.body);
  }
}
