/** The verifier of a notice bundle, and its agreement with the writer. */
module NoticeVerifier {
  import opened Wrappers
  import opened Bytes
  import opened Sorting
  import opened NoticeBundle

  predicate Named(x: Identity)
  {
    x.kind != [] && x.name != [] && x.version != []
  }

  predicate ReferenceFresh(rs: seq<Reference>, j: nat)
    requires j < |rs|
  {
    forall k :: 0 <= k < j ==> rs[k].source != rs[j].source
  }

  predicate ReferenceOk(w: World, contents: Contents, rs: seq<Reference>, j: nat)
    requires j < |rs|
  {
    rs[j].source != [] && ReferenceFresh(rs, j) && IsDigest(rs[j].sha256) && rs[j].file == File(rs[j].sha256) &&
    rs[j].file in contents && w.sha(contents[rs[j].file]) == rs[j].sha256
  }

  predicate ReferencesOk(w: World, contents: Contents, rs: seq<Reference>)
  {
    rs != [] && forall j :: 0 <= j < |rs| ==> ReferenceOk(w, contents, rs, j)
  }

  predicate EntryFresh(es: seq<Entry>, i: nat)
    requires i < |es|
  {
    forall k :: 0 <= k < i ==> es[k].identity != es[i].identity
  }

  predicate EntryOk(w: World, contents: Contents, es: seq<Entry>, i: nat)
    requires i < |es|
  {
    Named(es[i].identity) && EntryFresh(es, i) && ReferencesOk(w, contents, es[i].notices)
  }

  predicate Mentions(rs: seq<Reference>, n: nat, p: Path)
    requires n <= |rs|
  {
    exists j :: 0 <= j < n && rs[j].file == p
  }

  predicate Mentioned(es: seq<Entry>, n: nat, p: Path)
    requires n <= |es|
  {
    exists i :: 0 <= i < n && Mentions(es[i].notices, |es[i].notices|, p)
  }

  /** The archive holds what the index mentions, no more and no less. */
  ghost predicate Complete(es: seq<Entry>, contents: Contents)
  {
    forall p :: p in contents <==> p == NoticeJson || Mentioned(es, |es|, p)
  }

  /** The rules for an index, given what the archive holds. */
  ghost predicate IndexOk(w: World, contents: Contents, subject: Subject, x: Index)
  {
    x.schema == NOTICE_SCHEMA && x.basis == w.basis && x.subject == subject && x.components != [] &&
    (forall i :: 0 <= i < |x.components| ==> EntryOk(w, contents, x.components, i)) &&
    Complete(x.components, contents)
  }

  ghost predicate Safe(w: World, members: seq<Member>)
  {
    NamesDiffer(members) && (forall i :: 0 <= i < |members| ==> w.safe(members[i].path)) &&
    HasMember(members, |members|, NoticeJson)
  }

  /** What the verifier accepts. */
  ghost predicate Accepts(w: World, members: seq<Member>, contents: Contents, subject: Subject)
  {
    Safe(w, members) && Holding(members, |members|, contents) && NoticeJson in contents &&
    w.loads(contents[NoticeJson]).Some? && IndexOk(w, contents, subject, w.loads(contents[NoticeJson]).value)
  }

  // -------------------------------------------------------------- the loops of it

  /** Reading the archive. */
  method ReadMembers(w: World, members: seq<Member>) returns (r: Result<Contents, Error>)
    ensures r.Ok? <==> Safe(w, members)
    ensures r.Ok? ==> Holding(members, |members|, r.value) && NoticeJson in r.value
  {
    var contents: Contents := map[];
    for i := 0 to |members|
      invariant Holding(members, i, contents)
      invariant SafeUpTo(w, members, i)
    {
      var m := members[i];
      if !w.safe(m.path) || m.path in contents {
        RefusedIsUnsafe(w, members, i, contents);
        return Err(UnsafeArchive);
      }
      HoldingNext(members, i, contents);
      SafeNext(w, members, i, contents);
      contents := contents[m.path := m.data];
    }
    AllSafe(w, members, contents);
    if NoticeJson !in contents {
      return Err(UnsafeArchive);
    }
    return Ok(contents);
  }

  ghost predicate SafeUpTo(w: World, members: seq<Member>, n: nat)
    requires n <= |members|
  {
    (forall k :: 0 <= k < n ==> w.safe(members[k].path)) &&
    forall k, l :: 0 <= k < l < n ==> members[k].path != members[l].path
  }

  lemma RefusedIsUnsafe(w: World, members: seq<Member>, i: nat, contents: Contents)
    requires i < |members| && Holding(members, i, contents) && (!w.safe(members[i].path) || members[i].path in contents)
    ensures !Safe(w, members)
  {
    if members[i].path in contents {
      assert HasMember(members, i, members[i].path);
    }
  }

  lemma SafeNext(w: World, members: seq<Member>, i: nat, contents: Contents)
    requires i < |members| && Holding(members, i, contents) && SafeUpTo(w, members, i)
    requires w.safe(members[i].path) && members[i].path !in contents
    ensures SafeUpTo(w, members, i + 1)
  {
  }

  lemma AllSafe(w: World, members: seq<Member>, contents: Contents)
    requires Holding(members, |members|, contents) && SafeUpTo(w, members, |members|)
    ensures Safe(w, members) <==> NoticeJson in contents
  {
    if NoticeJson in contents {
      assert HasMember(members, |members|, NoticeJson);
    }
  }

  lemma HoldingNext(members: seq<Member>, i: nat, contents: Contents)
    requires i < |members| && Holding(members, i, contents) && members[i].path !in contents
    ensures Holding(members, i + 1, contents[members[i].path := members[i].data])
  {
    var next := contents[members[i].path := members[i].data];
    forall p | p in next
      ensures HasMember(members, i + 1, p)
    {
      if p != members[i].path {
        assert HasMember(members, i, p);
      }
    }
  }

  ghost predicate SeenReferences(rs: seq<Reference>, n: nat, seen: set<string>)
    requires n <= |rs|
  {
    forall s :: s in seen <==> exists k :: 0 <= k < n && rs[k].source == s
  }

  lemma SeenReference(rs: seq<Reference>, n: nat, seen: set<string>)
    requires n < |rs| && SeenReferences(rs, n, seen)
    ensures SeenReferences(rs, n + 1, seen + {rs[n].source})
    ensures rs[n].source in seen <==> !ReferenceFresh(rs, n)
  {
  }

  /** The inner loop of `_verify_notice_bundle`. */
  method CheckReferences(w: World, contents: Contents, rs: seq<Reference>) returns (ok: bool, files: set<Path>)
    ensures ok <==> forall j :: 0 <= j < |rs| ==> ReferenceOk(w, contents, rs, j)
    ensures ok ==> forall p :: p in files <==> Mentions(rs, |rs|, p)
  {
    var seen: set<string> := {};
    files := {};
    for j := 0 to |rs|
      invariant forall k :: 0 <= k < j ==> ReferenceOk(w, contents, rs, k)
      invariant SeenReferences(rs, j, seen)
      invariant forall p :: p in files <==> Mentions(rs, j, p)
    {
      SeenReference(rs, j, seen);
      var x := rs[j];
      if x.source == [] || x.source in seen || !IsDigest(x.sha256) || x.file != File(x.sha256) ||
         x.file !in contents || w.sha(contents[x.file]) != x.sha256 {
        assert !ReferenceOk(w, contents, rs, j);
        return false, files;
      }
      seen := seen + {x.source};
      files := files + {x.file};
    }
    return true, files;
  }

  ghost predicate SeenEntries(es: seq<Entry>, n: nat, seen: set<Identity>)
    requires n <= |es|
  {
    forall x :: x in seen <==> exists k :: 0 <= k < n && es[k].identity == x
  }

  lemma SeenEntry(es: seq<Entry>, n: nat, seen: set<Identity>)
    requires n < |es| && SeenEntries(es, n, seen)
    ensures SeenEntries(es, n + 1, seen + {es[n].identity})
    ensures es[n].identity in seen <==> !EntryFresh(es, n)
  {
  }

  /** The outer loop. */
  method CheckEntries(w: World, contents: Contents, es: seq<Entry>) returns (r: Result<set<Path>, Error>)
    ensures r.Ok? <==> forall i :: 0 <= i < |es| ==> EntryOk(w, contents, es, i)
    ensures r.Ok? ==> forall p :: p in r.value <==> p == NoticeJson || Mentioned(es, |es|, p)
  {
    var referenced := {NoticeJson};
    var seen: set<Identity> := {};
    for i := 0 to |es|
      invariant forall k :: 0 <= k < i ==> EntryOk(w, contents, es, k)
      invariant SeenEntries(es, i, seen)
      invariant forall p :: p in referenced <==> p == NoticeJson || Mentioned(es, i, p)
    {
      SeenEntry(es, i, seen);
      if !Named(es[i].identity) || es[i].identity in seen {
        assert !EntryOk(w, contents, es, i);
        return Err(BadIdentity);
      }
      seen := seen + {es[i].identity};
      if es[i].notices == [] {
        assert !EntryOk(w, contents, es, i);
        return Err(NoText);
      }
      var ok, files := CheckReferences(w, contents, es[i].notices);
      if !ok {
        assert !EntryOk(w, contents, es, i);
        return Err(TextDiffers);
      }
      MentionedNext(es, i);
      referenced := referenced + files;
    }
    return Ok(referenced);
  }

  lemma MentionedNext(es: seq<Entry>, n: nat)
    requires n < |es|
    ensures forall p :: Mentioned(es, n + 1, p) <==> Mentioned(es, n, p) || Mentions(es[n].notices, |es[n].notices|, p)
  {
  }

  /** `_verify_notice_bundle` */
  method VerifyBundle(w: World, members: seq<Member>, subject: Subject)
    returns (r: Result<nat, Error>, ghost contents: Contents)
    ensures r.Ok? ==> Accepts(w, members, contents, subject)
    ensures r.Ok? ==> r.value == |w.loads(contents[NoticeJson]).value.components|
    ensures r.Err? ==> forall c :: !Accepts(w, members, c, subject)
  {
    contents := map[];
    var found := ReadMembers(w, members);
    if found.Err? {
      return Err(found.error), contents;
    }
    contents := found.value;
    forall c | Holding(members, |members|, c)
      ensures c == contents
    {
      HoldingIsUnique(members, c, contents);
    }
    var index := w.loads(found.value[NoticeJson]);
    if index.None? {
      return Err(BadIndex), contents;
    }
    var x := index.value;
    if x.schema != NOTICE_SCHEMA || x.basis != w.basis {
      return Err(OtherSchema), contents;
    }
    if x.subject != subject {
      return Err(OtherSubject), contents;
    }
    if x.components == [] {
      return Err(NoComponents), contents;
    }
    var referenced := CheckEntries(w, found.value, x.components);
    if referenced.Err? {
      return Err(referenced.error), contents;
    }
    if found.value.Keys != referenced.value {
      return Err(Unindexed), contents;
    }
    return Ok(|x.components|), contents;
  }

  lemma HoldingIsUnique(members: seq<Member>, a: Contents, b: Contents)
    requires Holding(members, |members|, a) && Holding(members, |members|, b)
    ensures a == b
  {
    forall p
      ensures p in a <==> p in b
      ensures p in a && p in b ==> a[p] == b[p]
    {
      if p in a {
        var i :| 0 <= i < |members| && members[i].path == p;
      }
      if p in b {
        var i :| 0 <= i < |members| && members[i].path == p;
      }
    }
  }

  // ------------------------------------------------------ writer and verifier agree

  lemma WrittenIsSafe(w: World, members: seq<Member>, index: seq<Byte>, files: Files, contents: Contents)
    requires Faithful(w) && Addressed(w, files)
    requires NamesDiffer(members) && Holding(members, |members|, contents) && IsContents(index, files, contents)
    ensures Safe(w, members)
  {
    assert HasMember(members, |members|, NoticeJson);
    forall i | 0 <= i < |members|
      ensures w.safe(members[i].path)
    {
      var p := members[i].path;
      assert p in contents;
      if p != NoticeJson {
        assert w.sha(files[p.digest]) == p.digest;
      }
    }
  }

  /** A text the writer stored passes the verifier's comparison. */
  lemma WrittenReferences(w: World, c: Component, e: Entry, index: seq<Byte>, files: Files, contents: Contents)
    requires Faithful(w) && IsContents(index, files, contents)
    requires IsEntry(w, e, c) && NoticesOk(Texts(c)) && HoldsAll(w, files, c)
    ensures ReferencesOk(w, contents, e.notices)
  {
    forall j | 0 <= j < |e.notices|
      ensures ReferenceOk(w, contents, e.notices, j)
    {
      var n := Texts(c)[j];
      assert NoticeOk(Texts(c), j) && Holds(w, files, n);
      assert e.notices[j] == ReferenceTo(w, n);
      forall k | 0 <= k < j
        ensures e.notices[k].source != e.notices[j].source
      {
        assert e.notices[k] == ReferenceTo(w, Texts(c)[k]);
      }
    }
  }

  lemma TextIsMentioned(w: World, c: Component, e: Entry, d: string)
    requires IsEntry(w, e, c)
    ensures IsTextOf(w, c, d) <==> Mentions(e.notices, |e.notices|, File(d))
  {
    if IsTextOf(w, c, d) {
      var j :| 0 <= j < |Texts(c)| && d == w.sha(Texts(c)[j].content);
      assert e.notices[j] == ReferenceTo(w, Texts(c)[j]);
    }
    if Mentions(e.notices, |e.notices|, File(d)) {
      var j :| 0 <= j < |e.notices| && e.notices[j].file == File(d);
      assert e.notices[j] == ReferenceTo(w, Texts(c)[j]);
    }
  }

  lemma WrittenIsComplete(w: World, cs: seq<Component>, es: seq<Entry>, index: seq<Byte>, files: Files, contents: Contents)
    requires AreEntries(w, es, cs, |cs|) && StoredAll(w, cs, |cs|, files) && IsContents(index, files, contents)
    ensures Complete(es, contents)
  {
    forall p
      ensures p in contents <==> p == NoticeJson || Mentioned(es, |es|, p)
    {
      if p in contents && p != NoticeJson {
        StoredIsMentioned(w, cs, es, files, p.digest);
      }
      if Mentioned(es, |es|, p) {
        MentionedIsStored(w, cs, es, files, p);
      }
    }
  }

  lemma StoredIsMentioned(w: World, cs: seq<Component>, es: seq<Entry>, files: Files, d: string)
    requires AreEntries(w, es, cs, |cs|) && StoredAll(w, cs, |cs|, files) && d in files
    ensures Mentioned(es, |es|, File(d))
  {
    assert TextOfSome(w, cs, |cs|, d);
    var i :| 0 <= i < |cs| && IsTextOf(w, cs[i], d);
    TextIsMentioned(w, cs[i], es[i], d);
    assert Mentions(es[i].notices, |es[i].notices|, File(d));
  }

  lemma MentionedIsStored(w: World, cs: seq<Component>, es: seq<Entry>, files: Files, p: Path)
    requires AreEntries(w, es, cs, |cs|) && StoredAll(w, cs, |cs|, files) && Mentioned(es, |es|, p)
    ensures p.File? && p.digest in files
  {
    var i :| 0 <= i < |es| && Mentions(es[i].notices, |es[i].notices|, p);
    var j :| 0 <= j < |es[i].notices| && es[i].notices[j].file == p;
    assert IsEntry(w, es[i], cs[i]) && HoldsAll(w, files, cs[i]);
    assert es[i].notices[j] == ReferenceTo(w, Texts(cs[i])[j]);
    assert Holds(w, files, Texts(cs[i])[j]);
  }

  lemma WrittenEntry(w: World, cs: seq<Component>, es: seq<Entry>, index: seq<Byte>, files: Files, contents: Contents, i: nat)
    requires Faithful(w) && IsBundle(w, cs, es, files) && IsContents(index, files, contents) && i < |cs|
    ensures EntryOk(w, contents, es, i) <==> Named(cs[i].identity)
  {
    assert IsEntry(w, es[i], cs[i]) && ComponentOk(cs, i) && HoldsAll(w, files, cs[i]);
    WrittenReferences(w, cs[i], es[i], index, files, contents);
    forall k | 0 <= k < i
      ensures es[k].identity != es[i].identity
    {
      assert IsEntry(w, es[k], cs[k]);
    }
  }

  predicate AllNamed(cs: seq<Component>)
  {
    forall c :: c in cs ==> c.identity.kind != [] && c.identity.name != [] && c.identity.version != []
  }

  lemma WrittenEntries(w: World, cs: seq<Component>, es: seq<Entry>, index: seq<Byte>, files: Files, contents: Contents)
    requires Faithful(w) && IsBundle(w, cs, es, files) && IsContents(index, files, contents)
    ensures |es| == |cs|
    ensures AllNamed(cs) <==> forall i :: 0 <= i < |es| ==> EntryOk(w, contents, es, i)
  {
    forall i | 0 <= i < |cs|
      ensures EntryOk(w, contents, es, i) <==> Named(cs[i].identity)
    {
      WrittenEntry(w, cs, es, index, files, contents, i);
    }
    if AllNamed(cs) {
      forall i | 0 <= i < |es|
        ensures EntryOk(w, contents, es, i)
      {
        assert cs[i] in cs;
      }
    }
  }

  /** The index that was written is accepted if and only if its components are named. */
  lemma WrittenIndex(w: World, subject: Subject, cs: seq<Component>, es: seq<Entry>, files: Files, contents: Contents)
    requires Faithful(w) && cs != [] && IsBundle(w, cs, es, files)
    requires IsContents(w.dumps(Index(NOTICE_SCHEMA, w.basis, subject, es)), files, contents)
    ensures IndexOk(w, contents, subject, Index(NOTICE_SCHEMA, w.basis, subject, es)) <==> AllNamed(cs)
  {
    var data := w.dumps(Index(NOTICE_SCHEMA, w.basis, subject, es));
    WrittenIsComplete(w, cs, es, data, files, contents);
    WrittenEntries(w, cs, es, data, files, contents);
  }

  lemma WrittenByDigest(w: World, cs: seq<Component>, es: seq<Entry>, x: Index)
    requires AreEntries(w, es, cs, |cs|) && x.components == es
    ensures ByDigest(x)
  {
    forall e, r | e in es && r in e.notices
      ensures r.file.File?
    {
      var i :| 0 <= i < |es| && es[i] == e;
      assert IsEntry(w, es[i], cs[i]);
      var j :| 0 <= j < |e.notices| && e.notices[j] == r;
      assert e.notices[j] == ReferenceTo(w, Texts(cs[i])[j]);
    }
  }

  /** The verifier accepts what the writer wrote if and only if no component leaves its kind, name or version
      empty, which the writer does not look at. */
  lemma WrittenIsAcceptedIff(
      w: World, subject: Subject, cs: seq<Component>, members: seq<Member>, es: seq<Entry>, files: Files, contents: Contents)
    requires Faithful(w) && Written(w, subject, cs, members, es, files, contents)
    ensures Accepts(w, members, contents, subject) <==> AllNamed(cs)
    ensures w.loads(contents[NoticeJson]).Some? && |w.loads(contents[NoticeJson]).value.components| == |cs|
  {
    var x := Index(NOTICE_SCHEMA, w.basis, subject, es);
    WrittenByDigest(w, cs, es, x);
    WrittenIsSafe(w, members, w.dumps(x), files, contents);
    WrittenIndex(w, subject, cs, es, files, contents);
    assert w.loads(contents[NoticeJson]) == Some(x);
  }

  /** Writing and then verifying, for any components. */
  method WriteThenVerify(w: World, subject: Subject, components: seq<Component>)
    returns (written: Result<seq<Member>, Error>, count: Result<nat, Error>)
    requires Faithful(w)
    ensures written.Ok? ==> (count.Ok? <==> AllNamed(components))
    ensures written.Ok? && count.Ok? ==> count.value == |components|
    ensures written.Err? ==> components == [] || HasBad(Sort(components, ComponentLeq)) || Clash(w, Sort(components, ComponentLeq))
  {
    count := Err(NoComponents);
    ghost var es, files, contents, read;
    written, es, files, contents := WriteBundle(w, subject, components);
    if written.Ok? {
      WrittenIsAcceptedIff(w, subject, Sort(components, ComponentLeq), written.value, es, files, contents);
      count, read := VerifyBundle(w, written.value, subject);
      if count.Ok? {
        HoldingIsUnique(written.value, read, contents);
      }
    }
  }

  lemma OneTextIsWritable(w: World, identity: Identity, notice: Notice)
    requires notice.source != [] && notice.content != []
    ensures var cs := Sort([Component(identity, [notice])], ComponentLeq); !HasBad(cs) && !Clash(w, cs)
  {
    var c := Component(identity, [notice]);
    assert [c][1..] == [] && [notice][1..] == [];
    assert Sort([c], ComponentLeq) == [c] && Texts(c) == [notice];
    assert ComponentOk([c], 0);
    assert forall b :: SomeHasContent([c], b) ==> HasContent(c, b);
    assert forall b :: HasContent(c, b) ==> b == notice.content;
  }

  /** A component without a name is written, and then refused. */
  method UnnamedIsWrittenAndRefused(w: World, subject: Subject, kind: string, version: string, notice: Notice)
    returns (written: Result<seq<Member>, Error>, count: Result<nat, Error>)
    requires Faithful(w) && notice.source != [] && notice.content != []
    ensures written.Ok? && count.Err?
  {
    var c := Component(Identity(kind, "", version), [notice]);
    OneTextIsWritable(w, c.identity, notice);
    assert c in [c] && !Named(c.identity);
    written, count := WriteThenVerify(w, subject, [c]);
  }
}
