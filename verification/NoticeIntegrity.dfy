/** What an accepted bundle guarantees: its index fixes every text in it. */
module NoticeIntegrity {
  import Bytes
  import opened NoticeBundle
  import opened NoticeVerifier

  /** SHA-256, taken as collision free. */
  ghost predicate Injective(sha: seq<Bytes.Byte> -> string)
  {
    forall a, b :: sha(a) == sha(b) ==> a == b
  }

  lemma MentionedText(w: World, contents: Contents, subject: Subject, x: Index, p: Path) returns (digest: string)
    requires IndexOk(w, contents, subject, x) && Mentioned(x.components, |x.components|, p)
    ensures p == File(digest) && p in contents && w.sha(contents[p]) == digest
  {
    var es := x.components;
    var i :| 0 <= i < |es| && Mentions(es[i].notices, |es[i].notices|, p);
    var j :| 0 <= j < |es[i].notices| && es[i].notices[j].file == p;
    assert EntryOk(w, contents, es, i) && ReferenceOk(w, contents, es[i].notices, j);
    digest := es[i].notices[j].sha256;
  }

  /** Every text of an accepted bundle is filed under its own digest and is mentioned in the index. */
  lemma AcceptedIsAddressed(w: World, members: seq<Member>, contents: Contents, subject: Subject, p: Path)
    requires Accepts(w, members, contents, subject) && p in contents && p != NoticeJson
    ensures p == File(w.sha(contents[p])) && Mentioned(w.loads(contents[NoticeJson]).value.components,
                                                       |w.loads(contents[NoticeJson]).value.components|, p)
  {
    var x := w.loads(contents[NoticeJson]).value;
    var digest := MentionedText(w, contents, subject, x, p);
  }

  lemma SameText(w: World, contents: Contents, contents': Contents, subject: Subject, x: Index, p: Path)
    requires Injective(w.sha) && IndexOk(w, contents, subject, x) && IndexOk(w, contents', subject, x)
    requires Mentioned(x.components, |x.components|, p)
    ensures p in contents && p in contents' && contents[p] == contents'[p]
  {
    var d := MentionedText(w, contents, subject, x, p);
    var d' := MentionedText(w, contents', subject, x, p);
  }

  /** Two accepted bundles with the same index hold the same texts: none can be added, dropped or changed. */
  lemma IndexFixesContents(
      w: World, members: seq<Member>, members': seq<Member>, contents: Contents, contents': Contents, subject: Subject)
    requires Injective(w.sha) && Accepts(w, members, contents, subject) && Accepts(w, members', contents', subject)
    requires contents[NoticeJson] == contents'[NoticeJson]
    ensures contents == contents'
  {
    var x := w.loads(contents[NoticeJson]).value;
    forall p
      ensures p in contents <==> p in contents'
      ensures p in contents && p in contents' ==> contents[p] == contents'[p]
    {
      if p != NoticeJson && Mentioned(x.components, |x.components|, p) {
        SameText(w, contents, contents', subject, x, p);
      }
    }
  }
}
