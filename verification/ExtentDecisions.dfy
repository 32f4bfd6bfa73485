/** The identities of the extent decisions taken on one schema. Whether a node calls for a kind of
    decision is left to a parameter; the identities differ whatever it says. */
module ExtentDecisions {
  import opened Text
  import opened Json
  import opened JsonPointer
  import opened SchemaWalk

  datatype DecisionKind = Cardinality | MapCardinality | EncodedBytes | Length | Value | OpenValue

  const ORDER := [Cardinality, MapCardinality, EncodedBytes, Length, Value, OpenValue]

  function KindName(k: DecisionKind): string
  {
    match k
    case Cardinality => "cardinality"
    case MapCardinality => "map-cardinality"
    case EncodedBytes => "encoded-bytes"
    case Length => "length"
    case Value => "value"
    case OpenValue => "open-value"
  }

  type Emits = (Json, DecisionKind) -> bool

  /** `pointer.removeprefix(source) or "/"` */
  function Relative(pointer: string, source: string): string
  {
    var rest := if source <= pointer then pointer[|source|..] else pointer;
    if rest == "" then "/" else rest
  }

  function Identity(prefix: string, source: string, pointer: string, kind: DecisionKind): string
  {
    prefix + ":" + Relative(pointer, source) + ":" + KindName(kind)
  }

  /** The kinds among the first `k` that a node calls for. */
  function KindsOf(node: Json, emits: Emits, k: nat): (r: seq<DecisionKind>)
    requires k <= |ORDER|
    ensures forall x :: x in r ==> x in ORDER[..k]
  {
    if k == 0 then []
    else
      assert ORDER[..k] == ORDER[..k - 1] + [ORDER[k - 1]];
      KindsOf(node, emits, k - 1) + if emits(node, ORDER[k - 1]) then [ORDER[k - 1]] else []
  }

  /** The decisions of a walk: pointer and kind, in order. */
  function Decided(ws: seq<(string, Json)>, emits: Emits): seq<(string, DecisionKind)>
  {
    if ws == [] then []
    else
      var (pointer, node) := ws[|ws| - 1];
      Decided(ws[..|ws| - 1], emits) + At(pointer, KindsOf(node, emits, |ORDER|))
  }

  function At(pointer: string, kinds: seq<DecisionKind>): (r: seq<(string, DecisionKind)>)
    ensures |r| == |kinds| && forall i :: 0 <= i < |kinds| ==> r[i] == (pointer, kinds[i])
  {
    seq(|kinds|, i requires 0 <= i < |kinds| => (pointer, kinds[i]))
  }

  function Identities(prefix: string, source: string, ds: seq<(string, DecisionKind)>): (r: seq<string>)
    ensures |r| == |ds| && forall i :: 0 <= i < |ds| ==> r[i] == Identity(prefix, source, ds[i].0, ds[i].1)
  {
    seq(|ds|, i requires 0 <= i < |ds| => Identity(prefix, source, ds[i].0, ds[i].1))
  }

  lemma IdentitiesSum(prefix: string, source: string, a: seq<(string, DecisionKind)>, b: seq<(string, DecisionKind)>)
    ensures Identities(prefix, source, a + b) == Identities(prefix, source, a) + Identities(prefix, source, b)
  {
  }

  /** The body of the loop: one identity for each kind of decision the node calls for. */
  method NodeDecisions(pointer: string, node: Json, prefix: string, source: string, emits: Emits) returns (ids: seq<string>)
    ensures ids == Identities(prefix, source, At(pointer, KindsOf(node, emits, |ORDER|)))
  {
    ids := [];
    for k := 0 to |ORDER|
      invariant ids == Identities(prefix, source, At(pointer, KindsOf(node, emits, k)))
    {
      if emits(node, ORDER[k]) {
        ids := ids + [Identity(prefix, source, pointer, ORDER[k])];
      }
    }
  }

  lemma DecidedNext(prefix: string, source: string, ws: seq<(string, Json)>, i: nat, emits: Emits)
    requires i < |ws|
    ensures Identities(prefix, source, Decided(ws[..i + 1], emits)) ==
            Identities(prefix, source, Decided(ws[..i], emits)) +
            Identities(prefix, source, At(ws[i].0, KindsOf(ws[i].1, emits, |ORDER|)))
  {
    var next := ws[..i + 1];
    assert next[..|next| - 1] == ws[..i] && next[|next| - 1] == ws[i];
    IdentitiesSum(prefix, source, Decided(ws[..i], emits), At(ws[i].0, KindsOf(ws[i].1, emits, |ORDER|)));
  }

  /** `_schema_decisions`, as far as identities go. */
  method SchemaDecisions(schema: Json, prefix: string, source: string, includeDefinitions: bool, emits: Emits)
    returns (ids: seq<string>)
    requires schema.Obj?
    ensures ids == Identities(prefix, source, Decided(Walk(schema, source, includeDefinitions), emits))
  {
    var ws := Walk(schema, source, includeDefinitions);
    ids := [];
    for i := 0 to |ws|
      invariant ids == Identities(prefix, source, Decided(ws[..i], emits))
    {
      var here := NodeDecisions(ws[i].0, ws[i].1, prefix, source, emits);
      DecidedNext(prefix, source, ws, i, emits);
      ids := ids + here;
    }
    assert ws[..|ws|] == ws;
  }

  // --------------------------------------------------------- identities differ

  ghost predicate NoTwice<T>(s: seq<T>)
  {
    forall i, j :: 0 <= i < j < |s| ==> s[i] != s[j]
  }

  lemma {:induction false} KindsNoTwice(node: Json, emits: Emits, k: nat)
    requires k <= |ORDER|
    ensures NoTwice(KindsOf(node, emits, k))
  {
    if k > 0 {
      KindsNoTwice(node, emits, k - 1);
      assert ORDER[k - 1] !in ORDER[..k - 1];
    }
  }

  lemma {:induction false} DecidedFrom(ws: seq<(string, Json)>, emits: Emits, d: (string, DecisionKind))
    requires d in Decided(ws, emits)
    ensures exists i :: 0 <= i < |ws| && ws[i].0 == d.0
  {
    var rest := ws[..|ws| - 1];
    if d in Decided(rest, emits) {
      DecidedFrom(rest, emits, d);
      var i :| 0 <= i < |rest| && rest[i].0 == d.0;
      assert ws[i] == rest[i];
    }
  }

  lemma NoTwiceSum<T>(a: seq<T>, b: seq<T>)
    requires NoTwice(a) && NoTwice(b) && forall x :: x in a ==> x !in b
    ensures NoTwice(a + b)
  {
    var all := a + b;
    forall i, j | 0 <= i < j < |all| ensures all[i] != all[j] {
      if i < |a| <= j {
        assert all[i] in a && all[j] == b[j - |a|] && b[j - |a|] in b;
      } else if |a| <= i {
        assert all[i] == b[i - |a|] && all[j] == b[j - |a|];
      }
    }
  }

  lemma {:induction false} DecidedNoTwice(ws: seq<(string, Json)>, emits: Emits)
    requires forall i, j :: 0 <= i < j < |ws| ==> ws[i].0 != ws[j].0
    ensures NoTwice(Decided(ws, emits))
  {
    if ws != [] {
      var rest, last := ws[..|ws| - 1], ws[|ws| - 1];
      DecidedNoTwice(rest, emits);
      var here := At(last.0, KindsOf(last.1, emits, |ORDER|));
      KindsNoTwice(last.1, emits, |ORDER|);
      forall d | d in Decided(rest, emits) ensures d !in here {
        DecidedFrom(rest, emits, d);
      }
      NoTwiceSum(Decided(rest, emits), here);
    }
  }

  lemma KindNamesDiffer(a: DecisionKind, b: DecisionKind)
    requires KindName(a) == KindName(b)
    ensures a == b
  {
  }

  lemma KindNameHasNoColon(a: DecisionKind)
    ensures ':' !in KindName(a)
  {
  }

  /** A pointer of a walk below its root is longer than a single slash. */
  lemma BelowIsLong(schema: Json, source: string, includeDefinitions: bool, i: nat)
    requires schema.Obj? && i < |Walk(schema, source, includeDefinitions)|
    ensures var p := Walk(schema, source, includeDefinitions)[i].0;
      source <= p && p[|source|..] != "/"
  {
    WalkAgrees(schema, source, includeDefinitions);
    var tokens := Paths(schema, includeDefinitions)[i].0;
    assert (source + Render(tokens))[|source|..] == Render(tokens);
    if i > 0 {
      PathStartsWithKeyword(schema, includeDefinitions, i);
      RenderIsLong(tokens);
    }
  }

  lemma PathStartsWithKeyword(schema: Json, includeDefinitions: bool, i: nat)
    requires schema.Obj? && 0 < i < |Paths(schema, includeDefinitions)|
    ensures var tokens := Paths(schema, includeDefinitions)[i].0; tokens != [] && tokens[0] != ""
  {
    var cs := Children(schema);
    var below := PathsIn(schema, cs, includeDefinitions);
    SecondOn([([], schema)], below, i);
    var k := PathsInBelow(schema, cs, includeDefinitions, i - 1);
    BelowKeyword(schema, cs[k], below[i - 1].0);
  }

  lemma SecondOn(first: seq<Path>, rest: seq<Path>, i: nat)
    requires |first| == 1 && 0 < i < |first + rest|
    ensures (first + rest)[i] == rest[i - 1]
  {
  }

  lemma BelowKeyword(schema: Json, c: Child, tokens: seq<string>)
    requires schema.Obj? && c in Children(schema) && c.tokens <= tokens
    ensures tokens != [] && tokens[0] != ""
  {
    FirstTokenIsKeyword(schema, c);
    assert tokens[0] == c.tokens[0];
  }

  lemma RenderIsLong(tokens: seq<string>)
    requires tokens != [] && tokens[0] != ""
    ensures Render(tokens) != "/"
  {
    RenderTail(tokens);
    EscapeIsEscaped(tokens[0]);
    assert |Escaped(tokens[0])| > 0;
    assert |Render(tokens)[1..]| > 0;
  }

  lemma FirstTokenIsKeyword(schema: Json, c: Child)
    requires schema.Obj? && c in Children(schema)
    ensures c.tokens != [] && c.tokens[0] != ""
  {
    var k :| 0 <= k < |KEYWORDS| && c.tokens[0] == KEYWORDS[k].0;
  }

  lemma IdentityInjective(prefix: string, source: string, p: string, k: DecisionKind, q: string, l: DecisionKind)
    requires source <= p && source <= q && p[|source|..] != "/" && q[|source|..] != "/"
    requires Identity(prefix, source, p, k) == Identity(prefix, source, q, l)
    ensures p == q && k == l
  {
    KindNameHasNoColon(k);
    KindNameHasNoColon(l);
    var a, b := prefix + ":" + Relative(p, source), prefix + ":" + Relative(q, source);
    LastCutUnique(':', a, KindName(k), b, KindName(l));
    KindNamesDiffer(k, l);
    assert a[|prefix + ":"|..] == Relative(p, source) && b[|prefix + ":"|..] == Relative(q, source);
    assert p == source + p[|source|..] && q == source + q[|source|..];
  }

  /** All decision identities of one call differ, whatever the nodes call for. */
  lemma IdentitiesDiffer(schema: Json, prefix: string, source: string, includeDefinitions: bool, emits: Emits)
    requires schema.Obj? && Proper(schema)
    ensures NoTwice(Identities(prefix, source, Decided(Walk(schema, source, includeDefinitions), emits)))
  {
    var ws := Walk(schema, source, includeDefinitions);
    forall i, j | 0 <= i < j < |ws| ensures ws[i].0 != ws[j].0 {
      PointersDiffer(schema, source, includeDefinitions, i, j);
    }
    DecidedNoTwice(ws, emits);
    var ds := Decided(ws, emits);
    forall i, j | 0 <= i < j < |ds|
      ensures Identity(prefix, source, ds[i].0, ds[i].1) != Identity(prefix, source, ds[j].0, ds[j].1)
    {
      DecidedFrom(ws, emits, ds[i]);
      DecidedFrom(ws, emits, ds[j]);
      var a :| 0 <= a < |ws| && ws[a].0 == ds[i].0;
      var b :| 0 <= b < |ws| && ws[b].0 == ds[j].0;
      BelowIsLong(schema, source, includeDefinitions, a);
      BelowIsLong(schema, source, includeDefinitions, b);
      if Identity(prefix, source, ds[i].0, ds[i].1) == Identity(prefix, source, ds[j].0, ds[j].1) {
        IdentityInjective(prefix, source, ds[i].0, ds[i].1, ds[j].0, ds[j].1);
      }
    }
  }
}
