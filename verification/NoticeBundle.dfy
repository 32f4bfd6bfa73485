/** The content-addressed bundle of attribution notices: its writer and its verifier. */
module NoticeBundle {
  import opened Wrappers
  import opened Bytes
  import opened Text
  import opened Sorting

  datatype Identity = Identity(kind: string, name: string, version: string)
  datatype Notice = Notice(source: string, content: seq<Byte>)
  datatype Component = Component(identity: Identity, notices: seq<Notice>)

  /** A member name: the index, the file of a digest, or anything else. */
  datatype Path = NoticeJson | File(digest: string) | Elsewhere(text: string)

  datatype Reference = Reference(source: string, sha256: string, file: Path)
  datatype Entry = Entry(identity: Identity, notices: seq<Reference>)
  datatype Subject = Subject(kind: string, name: string, sha256: string)
  datatype Index = Index(schema: string, basis: string, subject: Subject, components: seq<Entry>)

  datatype Member = Member(path: Path, data: seq<Byte>)

  datatype Error =
    | NoComponents
    | RepeatedComponent
    | NoText
    | BadText
    | Collision
    | UnsafeArchive
    | BadIndex
    | OtherSchema
    | OtherSubject
    | BadIdentity
    | TextDiffers
    | Unindexed

  const NOTICE_SCHEMA := "riverhog-artifact-notices/v1"

  /** Hashing, JSON, the basis of the notice policy, and the shape of a safe regular member. */
  datatype World = World(
    sha: seq<Byte> -> string,
    dumps: Index -> seq<Byte>,
    loads: seq<Byte> -> Option<Index>,
    basis: string,
    safe: Path -> bool)

  predicate IsDigest(s: string)
  {
    |s| == 64 && forall i :: 0 <= i < |s| ==> '0' <= s[i] <= '9' || 'a' <= s[i] <= 'f'
  }

  /** An index that refers to files by their digests, as the writer's does. */
  predicate ByDigest(x: Index)
  {
    forall e :: e in x.components ==> forall r :: r in e.notices ==> r.file.File?
  }

  /** An index by digest is read back as written, a digest has the form of one, and the writer's own names are safe. */
  ghost predicate Faithful(w: World)
  {
    (forall x :: ByDigest(x) ==> w.loads(w.dumps(x)) == Some(x)) &&
    (forall b :: IsDigest(w.sha(b))) &&
    w.safe(NoticeJson) && forall d :: IsDigest(d) ==> w.safe(File(d))
  }

  // -------------------------------------------------------------------- the order

  predicate IdentityLeq(a: Identity, b: Identity)
  {
    if a.kind != b.kind then LexLeq(a.kind, b.kind)
    else if a.name != b.name then LexLeq(a.name, b.name)
    else LexLeq(a.version, b.version)
  }

  predicate ComponentLeq(a: Component, b: Component) { IdentityLeq(a.identity, b.identity) }
  predicate SourceLeq(a: Notice, b: Notice) { LexLeq(a.source, b.source) }

  // ------------------------------------------------------------------- the writer

  type Files = map<string, seq<Byte>>

  function ReferenceTo(w: World, n: Notice): Reference
  {
    Reference(n.source, w.sha(n.content), File(w.sha(n.content)))
  }

  predicate SourceFresh(ns: seq<Notice>, j: nat)
    requires j < |ns|
  {
    forall k :: 0 <= k < j ==> ns[k].source != ns[j].source
  }

  /** A notice the writer takes. */
  predicate NoticeOk(ns: seq<Notice>, j: nat)
    requires j < |ns|
  {
    ns[j].source != [] && ns[j].content != [] && SourceFresh(ns, j)
  }

  predicate NoticesOk(ns: seq<Notice>)
  {
    ns != [] && forall j :: 0 <= j < |ns| ==> NoticeOk(ns, j)
  }

  /** The references are those of the first n notices. */
  predicate RefersTo(w: World, refs: seq<Reference>, ns: seq<Notice>, n: nat)
    requires n <= |ns|
  {
    |refs| == n && forall j :: 0 <= j < n ==> refs[j] == ReferenceTo(w, ns[j])
  }

  /** Every file is named by its digest. */
  ghost predicate Addressed(w: World, files: Files)
  {
    forall d :: d in files ==> w.sha(files[d]) == d
  }

  predicate Holds(w: World, files: Files, n: Notice)
  {
    w.sha(n.content) in files && files[w.sha(n.content)] == n.content
  }

  predicate Extends(files: Files, more: Files)
  {
    forall d :: d in files ==> d in more && more[d] == files[d]
  }

  /** A notice has the digest of another text that is stored before it. */
  ghost predicate ClashAt(w: World, files: Files, ns: seq<Notice>, j: nat)
    requires j < |ns|
  {
    var d := w.sha(ns[j].content);
    (d in files && files[d] != ns[j].content) ||
    exists k :: 0 <= k < j && w.sha(ns[k].content) == d && ns[k].content != ns[j].content
  }

  ghost predicate TextOf(w: World, ns: seq<Notice>, n: nat, d: string)
    requires n <= |ns|
  {
    exists j :: 0 <= j < n && d == w.sha(ns[j].content)
  }

  /** The files are extended by the texts of the first n notices and by nothing else. */
  ghost predicate Stored(w: World, files: Files, ns: seq<Notice>, n: nat, more: Files)
    requires n <= |ns|
  {
    Addressed(w, more) && Extends(files, more) &&
    (forall j :: 0 <= j < n ==> Holds(w, more, ns[j])) &&
    forall d :: d in more ==> d in files || TextOf(w, ns, n, d)
  }

  lemma StoredMore(w: World, files: Files, ns: seq<Notice>, n: nat, more: Files, next: Files)
    requires n < |ns| && Stored(w, files, ns, n, more) && Addressed(w, next) && Holds(w, next, ns[n]) && Extends(more, next)
    requires forall d :: d in next ==> d in more || d == w.sha(ns[n].content)
    ensures Stored(w, files, ns, n + 1, next)
  {
    forall d | d in next
      ensures d in files || TextOf(w, ns, n + 1, d)
    {
      if d == w.sha(ns[n].content) {
        assert TextOf(w, ns, n + 1, d);
      } else if d !in files {
        assert TextOf(w, ns, n, d);
      }
    }
  }

  lemma StoredClash(w: World, files: Files, ns: seq<Notice>, n: nat, more: Files)
    requires n < |ns| && Stored(w, files, ns, n, more)
    requires w.sha(ns[n].content) in more && more[w.sha(ns[n].content)] != ns[n].content
    ensures ClashAt(w, files, ns, n)
  {
    var d := w.sha(ns[n].content);
    if d !in files {
      assert TextOf(w, ns, n, d);
      var k :| 0 <= k < n && d == w.sha(ns[k].content);
      assert Holds(w, more, ns[k]);
    }
  }

  /** The sources met among the first j notices. */
  ghost predicate SeenSources(ns: seq<Notice>, j: nat, seen: set<string>)
    requires j <= |ns|
  {
    forall s :: s in seen <==> exists k :: 0 <= k < j && ns[k].source == s
  }

  lemma SeenMore(ns: seq<Notice>, j: nat, seen: set<string>)
    requires j < |ns| && SeenSources(ns, j, seen)
    ensures SeenSources(ns, j + 1, seen + {ns[j].source})
    ensures ns[j].source in seen <==> !SourceFresh(ns, j)
  {
  }

  /** `files.setdefault` and the comparison after it. */
  method StoreText(w: World, files: Files, n: Notice) returns (r: Result<Files, Error>)
    requires Addressed(w, files)
    ensures r.Ok? ==> Addressed(w, r.value) && Holds(w, r.value, n) && Extends(files, r.value)
    ensures r.Ok? ==> forall d :: d in r.value ==> d in files || d == w.sha(n.content)
    ensures r.Err? ==> w.sha(n.content) in files && files[w.sha(n.content)] != n.content
  {
    var digest := w.sha(n.content);
    var next := if digest in files then files else files[digest := n.content];
    if next[digest] != n.content {
      return Err(Collision);
    }
    return Ok(next);
  }

  /** The inner loop of `_write_notice_bundle`. */
  method WriteNotices(w: World, ns: seq<Notice>, files: Files) returns (r: Result<seq<Reference>, Error>, more: Files)
    requires Addressed(w, files)
    ensures r.Ok? ==> RefersTo(w, r.value, ns, |ns|) && Stored(w, files, ns, |ns|, more)
    ensures r.Ok? ==> forall j :: 0 <= j < |ns| ==> NoticeOk(ns, j)
    ensures r.Err? ==> exists j :: 0 <= j < |ns| && (!NoticeOk(ns, j) || ClashAt(w, files, ns, j))
  {
    var refs: seq<Reference> := [];
    var seen: set<string> := {};
    more := files;
    for j := 0 to |ns|
      invariant RefersTo(w, refs, ns, j)
      invariant Stored(w, files, ns, j, more)
      invariant forall k :: 0 <= k < j ==> NoticeOk(ns, k)
      invariant SeenSources(ns, j, seen)
    {
      var source, content := ns[j].source, ns[j].content;
      SeenMore(ns, j, seen);
      if source == [] || source in seen || content == [] {
        assert !NoticeOk(ns, j);
        return Err(BadText), more;
      }
      seen := seen + {source};
      var next := StoreText(w, more, ns[j]);
      if next.Err? {
        StoredClash(w, files, ns, j, more);
        return Err(next.error), more;
      }
      StoredMore(w, files, ns, j, more, next.value);
      more := next.value;
      refs := refs + [ReferenceTo(w, ns[j])];
    }
    return Ok(refs), more;
  }

  /** The notices of a component in the order they are written. */
  function Texts(c: Component): seq<Notice>
  {
    Sort(c.notices, SourceLeq)
  }

  predicate IdentityFresh(cs: seq<Component>, i: nat)
    requires i < |cs|
  {
    forall k :: 0 <= k < i ==> cs[k].identity != cs[i].identity
  }

  /** A component the writer takes. */
  predicate ComponentOk(cs: seq<Component>, i: nat)
    requires i < |cs|
  {
    IdentityFresh(cs, i) && NoticesOk(Texts(cs[i]))
  }

  predicate HasBad(cs: seq<Component>)
  {
    exists i :: 0 <= i < |cs| && !ComponentOk(cs, i)
  }

  predicate IsEntry(w: World, e: Entry, c: Component)
  {
    e.identity == c.identity && RefersTo(w, e.notices, Texts(c), |Texts(c)|)
  }

  predicate AreEntries(w: World, es: seq<Entry>, cs: seq<Component>, n: nat)
    requires n <= |cs|
  {
    |es| == n && forall i :: 0 <= i < n ==> IsEntry(w, es[i], cs[i])
  }

  ghost predicate HoldsAll(w: World, files: Files, c: Component)
  {
    forall j :: 0 <= j < |Texts(c)| ==> Holds(w, files, Texts(c)[j])
  }

  ghost predicate IsTextOf(w: World, c: Component, d: string)
  {
    TextOf(w, Texts(c), |Texts(c)|, d)
  }

  ghost predicate TextOfSome(w: World, cs: seq<Component>, n: nat, d: string)
    requires n <= |cs|
  {
    exists i :: 0 <= i < n && IsTextOf(w, cs[i], d)
  }

  /** The files are exactly the texts of the first n components. */
  ghost predicate StoredAll(w: World, cs: seq<Component>, n: nat, files: Files)
    requires n <= |cs|
  {
    Addressed(w, files) &&
    (forall i :: 0 <= i < n ==> HoldsAll(w, files, cs[i])) &&
    forall d :: d in files ==> TextOfSome(w, cs, n, d)
  }

  lemma StoredAllMore(w: World, cs: seq<Component>, n: nat, files: Files, more: Files)
    requires n < |cs| && StoredAll(w, cs, n, files) && Stored(w, files, Texts(cs[n]), |Texts(cs[n])|, more)
    ensures StoredAll(w, cs, n + 1, more)
  {
    forall i | 0 <= i < n + 1
      ensures HoldsAll(w, more, cs[i])
    {
      if i < n {
        assert HoldsAll(w, files, cs[i]);
        forall j | 0 <= j < |Texts(cs[i])|
          ensures Holds(w, more, Texts(cs[i])[j])
        {
          assert Holds(w, files, Texts(cs[i])[j]);
        }
      }
    }
    forall d | d in more
      ensures TextOfSome(w, cs, n + 1, d)
    {
      if d in files {
        var i :| 0 <= i < n && IsTextOf(w, cs[i], d);
      } else {
        assert IsTextOf(w, cs[n], d);
      }
    }
  }

  predicate HasContent(c: Component, b: seq<Byte>)
  {
    exists j :: 0 <= j < |Texts(c)| && Texts(c)[j].content == b
  }

  predicate SomeHasContent(cs: seq<Component>, b: seq<Byte>)
  {
    exists i :: 0 <= i < |cs| && HasContent(cs[i], b)
  }

  /** Two different texts of the components have one digest. */
  ghost predicate Clash(w: World, cs: seq<Component>)
  {
    exists a, b :: SomeHasContent(cs, a) && SomeHasContent(cs, b) && a != b && w.sha(a) == w.sha(b)
  }

  lemma ClashFound(w: World, cs: seq<Component>, n: nat, files: Files, j: nat)
    requires n < |cs| && StoredAll(w, cs, n, files) && j < |Texts(cs[n])| && ClashAt(w, files, Texts(cs[n]), j)
    ensures Clash(w, cs)
  {
    var ns := Texts(cs[n]);
    var b := ns[j].content;
    assert HasContent(cs[n], b);
    var d := w.sha(b);
    if d in files && files[d] != b {
      assert TextOfSome(w, cs, n, d);
      var i :| 0 <= i < n && IsTextOf(w, cs[i], d);
      var k :| 0 <= k < |Texts(cs[i])| && d == w.sha(Texts(cs[i])[k].content);
      assert HoldsAll(w, files, cs[i]) && Holds(w, files, Texts(cs[i])[k]);
      assert HasContent(cs[i], files[d]);
      assert SomeHasContent(cs, files[d]) && SomeHasContent(cs, b);
    } else {
      var k :| 0 <= k < j && w.sha(ns[k].content) == d && ns[k].content != b;
      assert HasContent(cs[n], ns[k].content);
      assert SomeHasContent(cs, ns[k].content) && SomeHasContent(cs, b);
    }
  }

  ghost predicate SeenIdentities(cs: seq<Component>, n: nat, seen: set<Identity>)
    requires n <= |cs|
  {
    forall x :: x in seen <==> exists k :: 0 <= k < n && cs[k].identity == x
  }

  lemma SeenIdentity(cs: seq<Component>, n: nat, seen: set<Identity>)
    requires n < |cs| && SeenIdentities(cs, n, seen)
    ensures SeenIdentities(cs, n + 1, seen + {cs[n].identity})
    ensures cs[n].identity in seen <==> !IdentityFresh(cs, n)
  {
  }

  /** What the loops of the writer have made of components that are already in order. */
  ghost predicate IsBundle(w: World, cs: seq<Component>, es: seq<Entry>, files: Files)
  {
    AreEntries(w, es, cs, |cs|) && StoredAll(w, cs, |cs|, files) &&
    forall i :: 0 <= i < |cs| ==> ComponentOk(cs, i)
  }

  /** The loops of `_write_notice_bundle`. */
  method WriteComponents(w: World, cs: seq<Component>) returns (r: Result<seq<Entry>, Error>, files: Files)
    ensures r.Ok? ==> IsBundle(w, cs, r.value, files)
    ensures r.Err? ==> HasBad(cs) || Clash(w, cs)
  {
    var entries: seq<Entry> := [];
    var seen: set<Identity> := {};
    files := map[];
    for i := 0 to |cs|
      invariant AreEntries(w, entries, cs, i)
      invariant StoredAll(w, cs, i, files)
      invariant forall k :: 0 <= k < i ==> ComponentOk(cs, k)
      invariant SeenIdentities(cs, i, seen)
    {
      SeenIdentity(cs, i, seen);
      if cs[i].identity in seen {
        assert !ComponentOk(cs, i);
        return Err(RepeatedComponent), files;
      }
      seen := seen + {cs[i].identity};
      var texts := Texts(cs[i]);
      if texts == [] {
        assert !ComponentOk(cs, i);
        return Err(NoText), files;
      }
      var refs, more := WriteNotices(w, texts, files);
      if refs.Err? {
        ghost var j :| 0 <= j < |texts| && (!NoticeOk(texts, j) || ClashAt(w, files, texts, j));
        if NoticeOk(texts, j) {
          ClashFound(w, cs, i, files, j);
        }
        assert Clash(w, cs) || !ComponentOk(cs, i);
        return Err(refs.error), files;
      }
      StoredAllMore(w, cs, i, files, more);
      files := more;
      entries := entries + [Entry(cs[i].identity, refs.value)];
    }
    return Ok(entries), files;
  }

  // ------------------------------------------------------------------ the archive

  type Contents = map<Path, seq<Byte>>

  predicate NamesDiffer(members: seq<Member>)
  {
    forall i, j :: 0 <= i < j < |members| ==> members[i].path != members[j].path
  }

  /** What the archive holds under each name. */
  ghost predicate Holding(members: seq<Member>, n: nat, contents: Contents)
    requires n <= |members|
  {
    (forall i :: 0 <= i < n ==> members[i].path in contents && contents[members[i].path] == members[i].data) &&
    forall p :: p in contents ==> HasMember(members, n, p)
  }

  predicate HasMember(members: seq<Member>, n: nat, p: Path)
    requires n <= |members|
  {
    exists i :: 0 <= i < n && members[i].path == p
  }

  /** The archive has the index, the files, and nothing else. */
  predicate IsContents(index: seq<Byte>, files: Files, contents: Contents)
  {
    NoticeJson in contents && contents[NoticeJson] == index &&
    (forall p :: p in contents ==> p == NoticeJson || (p.File? && p.digest in files)) &&
    forall d :: d in files ==> File(d) in contents && contents[File(d)] == files[d]
  }

  /** Adding the index and then every file. */
  method AddMembers(index: seq<Byte>, files: Files) returns (members: seq<Member>, ghost contents: Contents)
    ensures NamesDiffer(members) && Holding(members, |members|, contents) && IsContents(index, files, contents)
  {
    members := [Member(NoticeJson, index)];
    contents := map[NoticeJson := index];
    assert members[0].path == NoticeJson;
    var left := files.Keys;
    while left != {}
      invariant forall d :: d in left ==> d in files && File(d) !in contents
      invariant NamesDiffer(members) && Holding(members, |members|, contents)
      invariant NoticeJson in contents && contents[NoticeJson] == index
      invariant forall p :: p in contents ==> p == NoticeJson || (p.File? && p.digest in files)
      invariant forall d :: d in files && d !in left ==> File(d) in contents && contents[File(d)] == files[d]
      decreases |left|
    {
      var d :| d in left;
      HoldingMore(members, contents, File(d), files[d]);
      members := members + [Member(File(d), files[d])];
      contents := contents[File(d) := files[d]];
      left := left - {d};
    }
  }

  lemma HoldingMore(members: seq<Member>, contents: Contents, p: Path, data: seq<Byte>)
    requires NamesDiffer(members) && Holding(members, |members|, contents) && p !in contents
    ensures var more := members + [Member(p, data)];
            NamesDiffer(more) && Holding(more, |more|, contents[p := data])
  {
    var more, next := members + [Member(p, data)], contents[p := data];
    assert more[|members|] == Member(p, data);
    forall q | q in next
      ensures HasMember(more, |more|, q)
    {
      if q != p {
        var i :| 0 <= i < |members| && members[i].path == q;
        assert more[i] == members[i];
      }
    }
  }

  /** What a finished bundle is. */
  ghost predicate Written(
      w: World, subject: Subject, cs: seq<Component>, members: seq<Member>, es: seq<Entry>, files: Files,
      contents: Contents)
  {
    cs != [] && IsBundle(w, cs, es, files) &&
    NamesDiffer(members) && Holding(members, |members|, contents) &&
    IsContents(w.dumps(Index(NOTICE_SCHEMA, w.basis, subject, es)), files, contents)
  }

  /** `_write_notice_bundle`: it refuses exactly what is listed here, and what it writes holds the text of every
      notice under its digest and nothing else. */
  method WriteBundle(w: World, subject: Subject, components: seq<Component>)
    returns (r: Result<seq<Member>, Error>, ghost es: seq<Entry>, ghost files: Files, ghost contents: Contents)
    ensures r.Ok? ==> Written(w, subject, Sort(components, ComponentLeq), r.value, es, files, contents)
    ensures r.Err? ==> components == [] || HasBad(Sort(components, ComponentLeq)) || Clash(w, Sort(components, ComponentLeq))
  {
    es, files, contents := [], map[], map[];
    if components == [] {
      return Err(NoComponents), es, files, contents;
    }
    var cs := Sort(components, ComponentLeq);
    var entries, texts := WriteComponents(w, cs);
    if entries.Err? {
      return Err(entries.error), es, files, contents;
    }
    es, files := entries.value, texts;
    var members;
    members, contents := AddMembers(w.dumps(Index(NOTICE_SCHEMA, w.basis, subject, entries.value)), texts);
    r := Ok(members);
  }
}
