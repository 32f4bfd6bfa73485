/** A bundle does not depend on the order in which its components and their notices were listed. */
module NoticeOrder {
  import Bytes
  import opened Text
  import opened Sorting
  import opened NoticeBundle

  // ------------------------------------------------------------------------ the orders

  lemma IdentityOrder(a: Identity, b: Identity, c: Identity)
    ensures IdentityLeq(a, b) || IdentityLeq(b, a)
    ensures IdentityLeq(a, b) && IdentityLeq(b, a) ==> a == b
    ensures IdentityLeq(a, b) && IdentityLeq(b, c) ==> IdentityLeq(a, c)
  {
    LexTotal(a.kind, b.kind);
    LexTotal(a.name, b.name);
    LexTotal(a.version, b.version);
    LexTotal(b.kind, c.kind);
    LexTotal(b.name, c.name);
    if IdentityLeq(a, b) && IdentityLeq(b, c) {
      if a.kind != b.kind || b.kind != c.kind {
        LexTransitive(a.kind, b.kind, c.kind);
        LexTotal(a.kind, c.kind);
      } else if a.name != b.name || b.name != c.name {
        LexTransitive(a.name, b.name, c.name);
        LexTotal(a.name, c.name);
      } else {
        LexTransitive(a.version, b.version, c.version);
      }
    }
  }

  lemma ComponentOrder()
    ensures TotalOrder(ComponentLeq) && Antisymmetric(IdentityLeq)
  {
    forall a: Component, b: Component ensures ComponentLeq(a, b) || ComponentLeq(b, a) {
      IdentityOrder(a.identity, b.identity, b.identity);
    }
    forall a: Component, b: Component, c: Component | ComponentLeq(a, b) && ComponentLeq(b, c) ensures ComponentLeq(a, c) {
      IdentityOrder(a.identity, b.identity, c.identity);
    }
    forall a: Identity, b: Identity | IdentityLeq(a, b) && IdentityLeq(b, a) ensures a == b {
      IdentityOrder(a, b, b);
    }
  }

  lemma SourceOrder()
    ensures TotalOrder(SourceLeq) && Antisymmetric(LexLeq)
  {
    forall a: Notice, b: Notice ensures SourceLeq(a, b) || SourceLeq(b, a) {
      LexTotal(a.source, b.source);
    }
    forall a: Notice, b: Notice, c: Notice | SourceLeq(a, b) && SourceLeq(b, c) ensures SourceLeq(a, c) {
      LexTransitive(a.source, b.source, c.source);
    }
    forall a: string, b: string | LexLeq(a, b) && LexLeq(b, a) ensures a == b {
      LexTotal(a, b);
    }
  }

  // ----------------------------------------------------------------------- the notices

  function Sources(ns: seq<Notice>): (r: seq<string>)
    ensures |r| == |ns| && forall i :: 0 <= i < |ns| ==> r[i] == ns[i].source
  {
    seq(|ns|, i requires 0 <= i < |ns| => ns[i].source)
  }

  /** The same component, with its notices in any order. */
  ghost predicate Same(c: Component, d: Component)
  {
    c.identity == d.identity && forall n :: n in c.notices <==> n in d.notices
  }

  lemma SourcesHave(ns: seq<Notice>, x: string)
    ensures x in Sources(ns) <==> exists n :: n in ns && n.source == x
  {
    if n :| n in ns && n.source == x {
      var i :| 0 <= i < |ns| && ns[i] == n;
      assert Sources(ns)[i] == x;
    }
  }

  /** Notices with different sources are found by their source. */
  lemma BySource(ns: seq<Notice>, ms: seq<Notice>, i: nat)
    requires Sources(ns) == Sources(ms) && AllDiffer(Sources(ns)) && i < |ns| && (forall n :: n in ns <==> n in ms)
    ensures ns[i] == ms[i]
  {
    assert ns[i] in ms;
    var j :| 0 <= j < |ms| && ms[j] == ns[i];
    assert Sources(ns)[j] == Sources(ms)[j] == Sources(ns)[i];
  }

  lemma TextsAreDifferent(c: Component)
    requires NoticesOk(Texts(c))
    ensures AllDiffer(Sources(Texts(c)))
  {
    var ns := Texts(c);
    forall i, j | 0 <= i < j < |ns|
      ensures Sources(ns)[i] != Sources(ns)[j]
    {
      assert NoticeOk(ns, j) && SourceFresh(ns, j);
    }
  }

  lemma SameTexts(c: Component, d: Component)
    requires Same(c, d) && NoticesOk(Texts(c)) && NoticesOk(Texts(d))
    ensures Texts(c) == Texts(d)
  {
    var ns, ms := Texts(c), Texts(d);
    SourceOrder();
    SortOrdered(c.notices, SourceLeq);
    SortOrdered(d.notices, SourceLeq);
    TextsAreDifferent(c);
    TextsAreDifferent(d);
    forall x
      ensures x in Sources(ns) <==> x in Sources(ms)
    {
      SourcesHave(ns, x);
      SourcesHave(ms, x);
    }
    assert forall i, j :: 0 <= i < j < |ns| ==> SourceLeq(ns[i], ns[j]);
    assert forall i, j :: 0 <= i < j < |ms| ==> SourceLeq(ms[i], ms[j]);
    OrderedIsUnique(Sources(ns), Sources(ms), LexLeq);
    forall i | 0 <= i < |ns|
      ensures ns[i] == ms[i]
    {
      BySource(ns, ms, i);
    }
  }

  // -------------------------------------------------------------------- the components

  function Identities(cs: seq<Component>): (r: seq<Identity>)
    ensures |r| == |cs| && forall i :: 0 <= i < |cs| ==> r[i] == cs[i].identity
  {
    seq(|cs|, i requires 0 <= i < |cs| => cs[i].identity)
  }

  /** Every component of one list is in the other. */
  ghost predicate Among(cs: seq<Component>, ds: seq<Component>)
  {
    forall c :: c in cs ==> exists d :: d in ds && Same(c, d)
  }

  lemma IdentityAmong(cs: seq<Component>, ds: seq<Component>, x: Identity)
    requires Among(cs, ds) && x in Identities(cs)
    ensures x in Identities(ds)
  {
    var i :| 0 <= i < |cs| && cs[i].identity == x;
    assert cs[i] in cs;
    var d :| d in ds && Same(cs[i], d);
    var j :| 0 <= j < |ds| && ds[j] == d;
    assert Identities(ds)[j] == x;
  }

  lemma SortedAmong(cs: seq<Component>, ds: seq<Component>)
    requires Among(cs, ds)
    ensures Among(Sort(cs, ComponentLeq), Sort(ds, ComponentLeq))
  {
    var s, t := Sort(cs, ComponentLeq), Sort(ds, ComponentLeq);
    forall c | c in s
      ensures exists d :: d in t && Same(c, d)
    {
      var d :| d in ds && Same(c, d);
      assert d in t;
    }
  }

  ghost predicate AllOk(cs: seq<Component>)
  {
    forall i :: 0 <= i < |cs| ==> ComponentOk(cs, i)
  }

  lemma ComponentsDiffer(cs: seq<Component>)
    requires AllOk(cs)
    ensures AllDiffer(Identities(cs))
  {
    forall i, j | 0 <= i < j < |cs|
      ensures Identities(cs)[i] != Identities(cs)[j]
    {
      assert ComponentOk(cs, j) && IdentityFresh(cs, j);
    }
  }

  lemma SameIdentities(s: seq<Component>, t: seq<Component>)
    requires Ordered(s, ComponentLeq) && Ordered(t, ComponentLeq) && AllOk(s) && AllOk(t) && Among(s, t) && Among(t, s)
    ensures Identities(s) == Identities(t)
  {
    ComponentOrder();
    ComponentsDiffer(s);
    ComponentsDiffer(t);
    forall x
      ensures x in Identities(s) <==> x in Identities(t)
    {
      if x in Identities(s) { IdentityAmong(s, t, x); }
      if x in Identities(t) { IdentityAmong(t, s, x); }
    }
    assert forall i, j :: 0 <= i < j < |s| ==> ComponentLeq(s[i], s[j]);
    assert forall i, j :: 0 <= i < j < |t| ==> ComponentLeq(t[i], t[j]);
    OrderedIsUnique(Identities(s), Identities(t), IdentityLeq);
  }

  lemma SameAt(s: seq<Component>, t: seq<Component>, i: nat)
    requires Identities(s) == Identities(t) && AllDiffer(Identities(s)) && Among(s, t) && i < |s|
    ensures Same(s[i], t[i])
  {
    assert s[i] in s;
    var d :| d in t && Same(s[i], d);
    var j :| 0 <= j < |t| && t[j] == d;
    assert Identities(t)[j] == Identities(s)[i];
    assert Identities(s)[j] == Identities(s)[i];
  }

  lemma SameEntries(w: World, c: Component, d: Component, e: Entry, f: Entry)
    requires IsEntry(w, e, c) && IsEntry(w, f, d) && c.identity == d.identity && Texts(c) == Texts(d)
    ensures e == f
  {
    assert e.notices == f.notices;
  }

  ghost predicate SameTextsAll(s: seq<Component>, t: seq<Component>)
  {
    |s| == |t| && forall i :: 0 <= i < |s| ==> Texts(s[i]) == Texts(t[i])
  }

  lemma FileIsThere(w: World, s: seq<Component>, t: seq<Component>, files: Files, files': Files, d: string)
    requires SameTextsAll(s, t) && StoredAll(w, s, |s|, files) && StoredAll(w, t, |t|, files') && d in files
    ensures d in files' && files'[d] == files[d]
  {
    assert TextOfSome(w, s, |s|, d);
    var i :| 0 <= i < |s| && IsTextOf(w, s[i], d);
    assert HoldsAll(w, files, s[i]) && HoldsAll(w, files', t[i]);
    HeldInBoth(w, s[i], t[i], files, files', d);
  }

  lemma HeldInBoth(w: World, c: Component, c': Component, files: Files, files': Files, d: string)
    requires Texts(c) == Texts(c') && HoldsAll(w, files, c) && HoldsAll(w, files', c') && IsTextOf(w, c, d)
    ensures d in files && d in files' && files'[d] == files[d]
  {
    var ns := Texts(c);
    var j :| 0 <= j < |ns| && d == w.sha(ns[j].content);
    assert Holds(w, files, ns[j]) && Holds(w, files', Texts(c')[j]);
  }

  lemma SameFiles(w: World, s: seq<Component>, t: seq<Component>, files: Files, files': Files)
    requires SameTextsAll(s, t) && StoredAll(w, s, |s|, files) && StoredAll(w, t, |t|, files')
    ensures files == files'
  {
    forall d
      ensures d in files <==> d in files'
      ensures d in files ==> files[d] == files'[d]
    {
      if d in files { FileIsThere(w, s, t, files, files', d); }
      if d in files' { FileIsThere(w, t, s, files', files, d); }
    }
  }

  lemma SameContents(index: seq<Bytes.Byte>, files: Files, contents: Contents, contents': Contents)
    requires IsContents(index, files, contents) && IsContents(index, files, contents')
    ensures contents == contents'
  {
    forall p
      ensures p in contents <==> p in contents'
      ensures p in contents ==> contents[p] == contents'[p]
    {
    }
  }

  /** Two bundles of the same components, listed in any order and with their notices in any order, have the same
      contents under every name. */
  lemma BundleIsReproducible(
      w: World, subject: Subject, cs: seq<Component>, ds: seq<Component>, members: seq<Member>, members': seq<Member>,
      es: seq<Entry>, es': seq<Entry>, files: Files, files': Files, contents: Contents, contents': Contents)
    requires Among(cs, ds) && Among(ds, cs)
    requires Written(w, subject, Sort(cs, ComponentLeq), members, es, files, contents)
    requires Written(w, subject, Sort(ds, ComponentLeq), members', es', files', contents')
    ensures es == es' && contents == contents'
  {
    var s, t := Sort(cs, ComponentLeq), Sort(ds, ComponentLeq);
    ComponentOrder();
    SortOrdered(cs, ComponentLeq);
    SortOrdered(ds, ComponentLeq);
    SortedAmong(cs, ds);
    SortedAmong(ds, cs);
    SameIdentities(s, t);
    ComponentsDiffer(s);
    assert |s| == |Identities(s)| == |t|;
    forall i | 0 <= i < |s|
      ensures es[i] == es'[i] && Texts(s[i]) == Texts(t[i])
    {
      SameAt(s, t, i);
      assert ComponentOk(s, i) && ComponentOk(t, i) && IsEntry(w, es[i], s[i]) && IsEntry(w, es'[i], t[i]);
      SameTexts(s[i], t[i]);
      SameEntries(w, s[i], t[i], es[i], es'[i]);
    }
    assert es == es';
    SameFiles(w, s, t, files, files');
    SameContents(contents[NoticeJson], files, contents, contents');
  }
}
