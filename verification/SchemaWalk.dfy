/** The walk over the subschemas of a JSON Schema, with a JSON Pointer to each. */
module SchemaWalk {
  import opened Wrappers
  import opened Text
  import opened Sorting
  import opened Json
  import opened JsonPointer

  // ------------------------------------------------------------------ children

  /** A keyword holds named subschemas, one subschema, or a list of them. */
  datatype Kind = Named | Single | Branch

  /** In the order in which the walk looks at them. */
  const KEYWORDS: seq<(string, Kind)> :=
    [("$defs", Named), ("definitions", Named), ("properties", Named), ("patternProperties", Named), ("schemas", Named),
     ("items", Single), ("additionalProperties", Single), ("if", Single), ("then", Single), ("else", Single),
     ("not", Single), ("contains", Single), ("propertyNames", Single), ("unevaluatedProperties", Single),
     ("allOf", Branch), ("anyOf", Branch), ("oneOf", Branch), ("prefixItems", Branch)]

  datatype Child = Child(kind: Kind, tokens: seq<string>, node: Json)

  predicate ByName(a: (string, Json), b: (string, Json)) { LexLeq(a.0, b.0) }

  function NamedChildren(keyword: string, items: seq<(string, Json)>): (r: seq<Child>)
    ensures forall c :: c in r ==>
      c.kind.Named? && |c.tokens| == 2 && c.tokens[0] == keyword && c.node.Obj? && (c.tokens[1], c.node) in items
  {
    if items == [] then []
    else
      var (name, node) := items[|items| - 1];
      NamedChildren(keyword, items[..|items| - 1])
      + if node.Obj? then [Child(Named, [keyword, name], node)] else []
  }

  function BranchChildren(keyword: string, items: seq<Json>): (r: seq<Child>)
    ensures forall c :: c in r ==>
      c.kind.Branch? && |c.tokens| == 2 && c.tokens[0] == keyword && c.node.Obj?
      && exists k: nat :: k < |items| && items[k] == c.node && c.tokens[1] == Decimal(k)
  {
    if items == [] then []
    else
      var index := |items| - 1;
      BranchChildren(keyword, items[..index])
      + if items[index].Obj? then [Child(Branch, [keyword, Decimal(index)], items[index])] else []
  }

  ghost predicate Sub(schema: Json, c: Child)
  {
    c.node.Obj? && c.node < schema && |c.tokens| == if c.kind.Single? then 1 else 2
  }

  function ChildrenAt(schema: Json, keyword: string, kind: Kind): (r: seq<Child>)
    requires schema.Obj?
    ensures forall c :: c in r ==> Sub(schema, c) && c.tokens[0] == keyword
  {
    var value := Get(schema.fields, keyword);
    if value.None? then []
    else match kind
      case Named => if value.value.Obj? then NamedChildren(keyword, Sort(value.value.fields, ByName)) else []
      case Single => if value.value.Obj? then [Child(Single, [keyword], value.value)] else []
      case Branch => if value.value.Arr? then BranchChildren(keyword, value.value.items) else []
  }

  function ChildrenUpTo(schema: Json, n: nat): (r: seq<Child>)
    requires schema.Obj? && n <= |KEYWORDS|
    ensures forall c :: c in r ==> Sub(schema, c) && exists k :: 0 <= k < n && c.tokens[0] == KEYWORDS[k].0
  {
    if n == 0 then [] else ChildrenUpTo(schema, n - 1) + ChildrenAt(schema, KEYWORDS[n - 1].0, KEYWORDS[n - 1].1)
  }

  /** `_schema_children`. */
  function Children(schema: Json): (r: seq<Child>)
    requires schema.Obj?
    ensures forall c :: c in r ==> Sub(schema, c)
  {
    ChildrenUpTo(schema, |KEYWORDS|)
  }

  /** The pointer suffix of a child, as the source writes it. */
  function Suffix(c: Child): string
    requires |c.tokens| == if c.kind.Single? then 1 else 2
  {
    match c.kind
    case Named => "/" + Escape(c.tokens[0]) + "/" + Escape(c.tokens[1])
    case Single => "/" + c.tokens[0]
    case Branch => "/" + c.tokens[0] + "/" + c.tokens[1]
  }

  // --------------------------------------------------------- what a child is

  /** The RFC 6901 evaluation of reference tokens. */
  function Resolve(doc: Json, tokens: seq<string>): Option<Json>
  {
    if tokens == [] then Some(doc)
    else match doc
      case Obj(fields) =>
        var next :- Get(fields, tokens[0]);
        Resolve(next, tokens[1..])
      case Arr(items) =>
        if IsIndex(tokens[0]) && DigitsValue(tokens[0]) < |items|
        then Resolve(items[DigitsValue(tokens[0])], tokens[1..]) else None
      case _ => None
  }

  /** Decimal digits without leading zeros. */
  predicate IsIndex(token: string)
  {
    (forall i :: 0 <= i < |token| ==> IsDigit(token[i])) && token == Decimal(DigitsValue(token))
  }

  /** Neither token list is a prefix of the other. */
  predicate Apart(a: seq<string>, b: seq<string>)
  {
    a != [] && b != [] && (a[0] != b[0] || (|a| == |b| == 2 && a[1] != b[1]))
  }

  // ------------------------------------------------------------ children, proved

  lemma ResolveTwo(doc: Json, first: string, second: string, middle: Json)
    requires doc.Obj? && Get(doc.fields, first) == Some(middle)
    ensures Resolve(doc, [first, second]) == Resolve(middle, [second])
  {
    assert [first, second][1..] == [second];
  }

  lemma ResolveLast(doc: Json, token: string, node: Json)
    requires doc.Obj? && Get(doc.fields, token) == Some(node)
    ensures Resolve(doc, [token]) == Some(node)
  {
    assert [token][1..] == [];
  }

  lemma ResolveIndex(doc: Json, k: nat)
    requires doc.Arr? && k < |doc.items|
    ensures Resolve(doc, [Decimal(k)]) == Some(doc.items[k])
  {
    DigitsValueOfDecimal(k);
    assert [Decimal(k)][1..] == [];
  }

  /** The tokens of a child lead to it, and it is proper when the schema is. */
  lemma ChildResolves(schema: Json, keyword: string, kind: Kind, c: Child)
    requires schema.Obj? && Proper(schema) && c in ChildrenAt(schema, keyword, kind)
    ensures Resolve(schema, c.tokens) == Some(c.node) && Proper(c.node)
  {
    var value := Get(schema.fields, keyword).value;
    assert Proper((keyword, value).1);
    match kind
    case Single =>
      ResolveLast(schema, keyword, value);
    case Named =>
      var name := c.tokens[1];
      assert c.tokens == [keyword, name];
      GetUnique(value.fields, name, c.node);
      ResolveTwo(schema, keyword, name, value);
      ResolveLast(value, name, c.node);
      assert Proper((name, c.node).1);
    case Branch =>
      var k: nat :| k < |value.items| && value.items[k] == c.node && c.tokens[1] == Decimal(k);
      assert c.tokens == [keyword, Decimal(k)];
      ResolveTwo(schema, keyword, Decimal(k), value);
      ResolveIndex(value, k);
  }

  lemma {:induction false} AllChildrenResolve(schema: Json, n: nat, c: Child)
    requires schema.Obj? && Proper(schema) && n <= |KEYWORDS| && c in ChildrenUpTo(schema, n)
    ensures Resolve(schema, c.tokens) == Some(c.node) && Proper(c.node)
  {
    if c in ChildrenAt(schema, KEYWORDS[n - 1].0, KEYWORDS[n - 1].1) {
      ChildResolves(schema, KEYWORDS[n - 1].0, KEYWORDS[n - 1].1, c);
    } else {
      AllChildrenResolve(schema, n - 1, c);
    }
  }

  ghost predicate AllApart(cs: seq<Child>)
  {
    forall i, j :: 0 <= i < j < |cs| ==> Apart(cs[i].tokens, cs[j].tokens)
  }

  lemma {:induction false} NamedApart(keyword: string, items: seq<(string, Json)>)
    requires UniqueKeys(items)
    ensures AllApart(NamedChildren(keyword, items))
  {
    if items != [] {
      var rest, last := items[..|items| - 1], items[|items| - 1];
      NamedApart(keyword, rest);
      forall i | 0 <= i < |NamedChildren(keyword, rest)|
        ensures NamedChildren(keyword, rest)[i].tokens[1] != last.0
      {
        var c := NamedChildren(keyword, rest)[i];
        assert c in NamedChildren(keyword, rest);
        var k :| 0 <= k < |rest| && rest[k] == (c.tokens[1], c.node);
        assert items[k] == rest[k];
      }
    }
  }

  lemma {:induction false} BranchApart(keyword: string, items: seq<Json>)
    ensures AllApart(BranchChildren(keyword, items))
  {
    if items != [] {
      var index := |items| - 1;
      var rest := items[..index];
      BranchApart(keyword, rest);
      forall i | 0 <= i < |BranchChildren(keyword, rest)|
        ensures BranchChildren(keyword, rest)[i].tokens[1] != Decimal(index)
      {
        var c := BranchChildren(keyword, rest)[i];
        assert c in BranchChildren(keyword, rest);
        var k: nat :| k < |rest| && rest[k] == c.node && c.tokens[1] == Decimal(k);
        if Decimal(k) == Decimal(index) {
          DecimalInjective(k, index);
        }
      }
    }
  }

  lemma ChildrenAtApart(schema: Json, keyword: string, kind: Kind)
    requires schema.Obj? && Proper(schema)
    ensures AllApart(ChildrenAt(schema, keyword, kind))
  {
    var value := Get(schema.fields, keyword);
    if value.Some? {
      assert Proper((keyword, value.value).1);
      if kind.Named? && value.value.Obj? {
        var fields := value.value.fields;
        var name := (f: (string, Json)) => f.0;
        assert DistinctKeys(fields, name);
        SortKeepsDistinct(fields, ByName, name);
        var sorted := Sort(fields, ByName);
        assert forall i, j :: 0 <= i < j < |sorted| ==> name(sorted[i]) != name(sorted[j]);
        NamedApart(keyword, sorted);
      } else if kind.Branch? && value.value.Arr? {
        BranchApart(keyword, value.value.items);
      }
    }
  }

  /** The eighteen keywords differ. */
  lemma KeywordsDiffer(i: nat, j: nat)
    requires i < j < |KEYWORDS|
    ensures KEYWORDS[i].0 != KEYWORDS[j].0
  {
    assert "$defs"[0] == '$' && "items"[0] == 'i' && "allOf"[1] == 'l' && "anyOf"[1] == 'n' && "oneOf"[0] == 'o';
    assert "allOf"[0] == 'a' && "anyOf"[0] == 'a';
    assert "definitions"[0] == 'd' && "prefixItems"[0] == 'p' && "then"[0] == 't' && "else"[0] == 'e';
  }

  lemma JoinApart(a: seq<Child>, b: seq<Child>)
    requires AllApart(a) && AllApart(b)
    requires forall i, j :: 0 <= i < |a| && 0 <= j < |b| ==> Apart(a[i].tokens, b[j].tokens)
    ensures AllApart(a + b)
  {
    var all := a + b;
    forall i, j | 0 <= i < j < |all| ensures Apart(all[i].tokens, all[j].tokens) {
      if |a| <= i {
        assert all[i] == b[i - |a|] && all[j] == b[j - |a|];
      }
    }
  }

  lemma OtherKeywordApart(schema: Json, n: nat, c: Child, d: Child)
    requires schema.Obj? && 0 < n <= |KEYWORDS|
    requires c in ChildrenUpTo(schema, n - 1) && d in ChildrenAt(schema, KEYWORDS[n - 1].0, KEYWORDS[n - 1].1)
    ensures Apart(c.tokens, d.tokens)
  {
    var k :| 0 <= k < n - 1 && c.tokens[0] == KEYWORDS[k].0;
    KeywordsDiffer(k, n - 1);
  }

  lemma {:induction false} ChildrenApart(schema: Json, n: nat)
    requires schema.Obj? && Proper(schema) && n <= |KEYWORDS|
    ensures AllApart(ChildrenUpTo(schema, n))
  {
    if n > 0 {
      ChildrenApart(schema, n - 1);
      ChildrenAtApart(schema, KEYWORDS[n - 1].0, KEYWORDS[n - 1].1);
      KeywordApart(schema, n, ChildrenUpTo(schema, n - 1), ChildrenAt(schema, KEYWORDS[n - 1].0, KEYWORDS[n - 1].1));
    }
  }

  lemma KeywordApart(schema: Json, n: nat, before: seq<Child>, here: seq<Child>)
    requires schema.Obj? && 0 < n <= |KEYWORDS| && before == ChildrenUpTo(schema, n - 1)
    requires here == ChildrenAt(schema, KEYWORDS[n - 1].0, KEYWORDS[n - 1].1) && AllApart(before) && AllApart(here)
    ensures AllApart(before + here)
  {
    forall i, j | 0 <= i < |before| && 0 <= j < |here| ensures Apart(before[i].tokens, here[j].tokens) {
      OtherKeywordApart(schema, n, before[i], here[j]);
    }
    JoinApart(before, here);
  }

  // ------------------------------------------------------------------- the walk

  predicate StartsWith(s: string, prefix: string) { prefix <= s }

  predicate Kept(c: Child, includeDefinitions: bool)
    requires |c.tokens| == if c.kind.Single? then 1 else 2
  {
    includeDefinitions || !(StartsWith(Suffix(c), "/$defs/") || StartsWith(Suffix(c), "/definitions/"))
  }

  /** `_walk_schema`. */
  function Walk(schema: Json, pointer: string, includeDefinitions: bool): seq<(string, Json)>
    requires schema.Obj?
    decreases schema, 1, 0
  {
    [(pointer, schema)] + WalkChildren(schema, Children(schema), pointer, includeDefinitions)
  }

  function WalkChildren(schema: Json, cs: seq<Child>, pointer: string, includeDefinitions: bool): seq<(string, Json)>
    requires forall c :: c in cs ==> Sub(schema, c)
    decreases schema, 0, |cs|
  {
    if cs == [] then []
    else
      var c := cs[|cs| - 1];
      assert c in cs && Sub(schema, c);
      WalkChildren(schema, cs[..|cs| - 1], pointer, includeDefinitions)
      + if Kept(c, includeDefinitions) then Walk(c.node, pointer + Suffix(c), includeDefinitions) else []
  }

  // -------------------------------------------------- the same walk over tokens

  type Path = (seq<string>, Json)

  function Under(tokens: seq<string>, ps: seq<Path>): (r: seq<Path>)
    ensures |r| == |ps| && forall i :: 0 <= i < |ps| ==> r[i] == (tokens + ps[i].0, ps[i].1)
  {
    seq(|ps|, i requires 0 <= i < |ps| => (tokens + ps[i].0, ps[i].1))
  }

  function Paths(schema: Json, includeDefinitions: bool): seq<Path>
    requires schema.Obj?
    decreases schema, 1, 0
  {
    [([], schema)] + PathsIn(schema, Children(schema), includeDefinitions)
  }

  function PathsIn(schema: Json, cs: seq<Child>, includeDefinitions: bool): seq<Path>
    requires forall c :: c in cs ==> Sub(schema, c)
    decreases schema, 0, |cs|
  {
    if cs == [] then []
    else
      var c := cs[|cs| - 1];
      assert c in cs && Sub(schema, c);
      PathsIn(schema, cs[..|cs| - 1], includeDefinitions)
      + if Kept(c, includeDefinitions) then Under(c.tokens, Paths(c.node, includeDefinitions)) else []
  }

  /** The suffix the source writes is the rendering of the child's tokens. */
  lemma SuffixRenders(c: Child)
    requires |c.tokens| == if c.kind.Single? then 1 else 2
    requires !c.kind.Named? ==> '~' !in c.tokens[0] && '/' !in c.tokens[0]
    requires c.kind.Branch? ==> '~' !in c.tokens[1] && '/' !in c.tokens[1]
    ensures Suffix(c) == Render(c.tokens)
  {
    assert Render([]) == "";
    if c.kind.Single? {
      assert c.tokens[1..] == [];
      EscapeIsEscaped(c.tokens[0]);
      PlainIsEscaped(c.tokens[0]);
    } else {
      assert c.tokens[1..] == [c.tokens[1]] && [c.tokens[1]][1..] == [];
      assert Render([c.tokens[1]]) == "/" + Escape(c.tokens[1]);
      if c.kind.Branch? {
        EscapeIsEscaped(c.tokens[0]);
        PlainIsEscaped(c.tokens[0]);
        EscapeIsEscaped(c.tokens[1]);
        PlainIsEscaped(c.tokens[1]);
      }
    }
  }

  lemma KeywordsPlain(k: nat)
    requires k < |KEYWORDS|
    ensures '~' !in KEYWORDS[k].0 && '/' !in KEYWORDS[k].0
  {
  }

  lemma {:induction false} ChildSuffix(schema: Json, n: nat, c: Child)
    requires schema.Obj? && n <= |KEYWORDS| && c in ChildrenUpTo(schema, n)
    ensures Suffix(c) == Render(c.tokens)
  {
    var keyword, kind := KEYWORDS[n - 1].0, KEYWORDS[n - 1].1;
    if c in ChildrenAt(schema, keyword, kind) {
      KeywordsPlain(n - 1);
      if c.kind.Branch? {
        var k: nat :| c.tokens[1] == Decimal(k);
        assert forall i :: 0 <= i < |c.tokens[1]| ==> IsDigit(c.tokens[1][i]);
      }
      SuffixRenders(c);
    } else {
      ChildSuffix(schema, n - 1, c);
    }
  }

  ghost predicate Renders(ws: seq<(string, Json)>, pointer: string, ps: seq<Path>)
  {
    |ws| == |ps| && forall i :: 0 <= i < |ws| ==> ws[i] == (pointer + Render(ps[i].0), ps[i].1)
  }

  lemma RendersUnder(ws: seq<(string, Json)>, pointer: string, c: Child, ps: seq<Path>)
    requires Renders(ws, pointer + Render(c.tokens), ps)
    ensures Renders(ws, pointer, Under(c.tokens, ps))
  {
    forall i | 0 <= i < |ws| ensures ws[i] == (pointer + Render(Under(c.tokens, ps)[i].0), ps[i].1) {
      RenderSum(c.tokens, ps[i].0);
      assert pointer + Render(c.tokens) + Render(ps[i].0) == pointer + (Render(c.tokens) + Render(ps[i].0));
    }
  }

  lemma RendersSum(a: seq<(string, Json)>, b: seq<(string, Json)>, pointer: string, p: seq<Path>, q: seq<Path>)
    requires Renders(a, pointer, p) && Renders(b, pointer, q)
    ensures Renders(a + b, pointer, p + q)
  {
  }

  /** The walk of the source is the walk over tokens, rendered. */
  lemma {:induction false} WalkAgrees(schema: Json, pointer: string, includeDefinitions: bool)
    requires schema.Obj?
    ensures Renders(Walk(schema, pointer, includeDefinitions), pointer, Paths(schema, includeDefinitions))
    decreases schema, 1, 0
  {
    forall c | c in Children(schema) ensures Suffix(c) == Render(c.tokens) {
      ChildSuffix(schema, |KEYWORDS|, c);
    }
    WalkChildrenAgrees(schema, Children(schema), pointer, includeDefinitions);
    assert Render([]) == "" && pointer + "" == pointer;
    RendersSum([(pointer, schema)], WalkChildren(schema, Children(schema), pointer, includeDefinitions), pointer,
               [([], schema)], PathsIn(schema, Children(schema), includeDefinitions));
  }

  lemma {:induction false} WalkChildrenAgrees(schema: Json, cs: seq<Child>, pointer: string, includeDefinitions: bool)
    requires forall c :: c in cs ==> Sub(schema, c) && Suffix(c) == Render(c.tokens)
    ensures Renders(WalkChildren(schema, cs, pointer, includeDefinitions), pointer, PathsIn(schema, cs, includeDefinitions))
    decreases schema, 0, |cs|
  {
    if cs != [] {
      var rest, c := cs[..|cs| - 1], cs[|cs| - 1];
      assert c in cs && Sub(schema, c);
      WalkChildrenAgrees(schema, rest, pointer, includeDefinitions);
      if Kept(c, includeDefinitions) {
        WalkAgrees(c.node, pointer + Suffix(c), includeDefinitions);
        var ws, ps := Walk(c.node, pointer + Suffix(c), includeDefinitions), Paths(c.node, includeDefinitions);
        RendersUnder(ws, pointer, c, ps);
        RendersSum(WalkChildren(schema, rest, pointer, includeDefinitions), ws, pointer,
                   PathsIn(schema, rest, includeDefinitions), Under(c.tokens, ps));
      }
    }
  }

  // ------------------------------------------------------------ what it promises

  lemma {:induction false} ResolveSum(doc: Json, a: seq<string>, b: seq<string>, middle: Json)
    requires Resolve(doc, a) == Some(middle)
    ensures Resolve(doc, a + b) == Resolve(middle, b)
  {
    if a == [] {
      assert a + b == b;
    } else {
      assert (a + b)[1..] == a[1..] + b;
      match doc
      case Obj(fields) => ResolveSum(Get(fields, a[0]).value, a[1..], b, middle);
      case Arr(items) => ResolveSum(items[DigitsValue(a[0])], a[1..], b, middle);
    }
  }

  ghost predicate AllResolve(doc: Json, ps: seq<Path>)
  {
    forall i :: 0 <= i < |ps| ==> Resolve(doc, ps[i].0) == Some(ps[i].1)
  }

  lemma {:induction false} PathsResolve(schema: Json, includeDefinitions: bool)
    requires schema.Obj? && Proper(schema)
    ensures AllResolve(schema, Paths(schema, includeDefinitions))
    decreases schema, 1, 0
  {
    forall c | c in Children(schema) ensures Resolve(schema, c.tokens) == Some(c.node) && Proper(c.node) {
      AllChildrenResolve(schema, |KEYWORDS|, c);
    }
    PathsInResolve(schema, Children(schema), includeDefinitions);
  }

  lemma {:induction false} PathsInResolve(schema: Json, cs: seq<Child>, includeDefinitions: bool)
    requires forall c :: c in cs ==> Sub(schema, c) && Resolve(schema, c.tokens) == Some(c.node) && Proper(c.node)
    ensures AllResolve(schema, PathsIn(schema, cs, includeDefinitions))
    decreases schema, 0, |cs|
  {
    if cs != [] {
      var c := cs[|cs| - 1];
      assert c in cs && Sub(schema, c);
      PathsInResolve(schema, cs[..|cs| - 1], includeDefinitions);
      if Kept(c, includeDefinitions) {
        PathsResolve(c.node, includeDefinitions);
        var ps := Paths(c.node, includeDefinitions);
        forall i | 0 <= i < |ps| ensures Resolve(schema, c.tokens + ps[i].0) == Some(ps[i].1) {
          ResolveSum(schema, c.tokens, ps[i].0, c.node);
        }
      }
    }
  }

  function ResolvePointer(doc: Json, pointer: string): Option<Json>
  {
    var tokens :- Parse(pointer);
    Resolve(doc, tokens)
  }

  /** When the walk starts at a schema with the pointer that leads to it in a document, every pointer of the walk
      leads in that document to the node beside it. */
  lemma EveryPointerResolves(doc: Json, schema: Json, pointer: string, includeDefinitions: bool, i: nat)
    requires ResolvePointer(doc, pointer) == Some(schema)
    requires schema.Obj? && Proper(schema) && i < |Walk(schema, pointer, includeDefinitions)|
    ensures var (p, node) := Walk(schema, pointer, includeDefinitions)[i]; ResolvePointer(doc, p) == Some(node)
  {
    WalkAgrees(schema, pointer, includeDefinitions);
    PathsResolve(schema, includeDefinitions);
    var tokens := Paths(schema, includeDefinitions)[i].0;
    ParseExtended(pointer, tokens);
    ResolveSum(doc, Parse(pointer).value, tokens, schema);
  }

  ghost predicate NoRepeat(ps: seq<Path>)
  {
    forall i, j :: 0 <= i < j < |ps| ==> ps[i].0 != ps[j].0
  }

  /** Every path below a node starts with the tokens of one of its children. */
  lemma {:induction false} PathsInBelow(schema: Json, cs: seq<Child>, includeDefinitions: bool, i: nat) returns (k: nat)
    requires forall c :: c in cs ==> Sub(schema, c)
    requires i < |PathsIn(schema, cs, includeDefinitions)|
    ensures k < |cs| && cs[k].tokens <= PathsIn(schema, cs, includeDefinitions)[i].0
    decreases schema, 0, |cs|
  {
    var rest, c := cs[..|cs| - 1], cs[|cs| - 1];
    assert c in cs && Sub(schema, c);
    var before := PathsIn(schema, rest, includeDefinitions);
    var last := if Kept(c, includeDefinitions) then Under(c.tokens, Paths(c.node, includeDefinitions)) else [];
    assert PathsIn(schema, cs, includeDefinitions) == before + last;
    if i < |before| {
      k := PathsInBelow(schema, rest, includeDefinitions, i);
    } else {
      k := |cs| - 1;
    }
  }

  lemma ApartStayApart(a: seq<string>, b: seq<string>, p: seq<string>, q: seq<string>)
    requires Apart(a, b) && a <= p && b <= q
    ensures p != q
  {
    assert p[0] == a[0] && q[0] == b[0];
    if |a| == |b| == 2 {
      assert p[1] == a[1] && q[1] == b[1];
    }
  }

  lemma UnderNoRepeat(tokens: seq<string>, ps: seq<Path>)
    requires NoRepeat(ps)
    ensures NoRepeat(Under(tokens, ps))
  {
    forall i, j | 0 <= i < j < |ps| ensures tokens + ps[i].0 != tokens + ps[j].0 {
      assert (tokens + ps[i].0)[|tokens|..] == ps[i].0;
      assert (tokens + ps[j].0)[|tokens|..] == ps[j].0;
    }
  }

  lemma NoRepeatSum(a: seq<Path>, b: seq<Path>)
    requires NoRepeat(a) && NoRepeat(b)
    requires forall i, j :: 0 <= i < |a| && 0 <= j < |b| ==> a[i].0 != b[j].0
    ensures NoRepeat(a + b)
  {
    var all := a + b;
    forall i, j | 0 <= i < j < |all| ensures all[i].0 != all[j].0 {
      if |a| <= i {
        assert all[i] == b[i - |a|] && all[j] == b[j - |a|];
      }
    }
  }

  lemma {:induction false} PathsNoRepeat(schema: Json, includeDefinitions: bool)
    requires schema.Obj? && Proper(schema)
    ensures NoRepeat(Paths(schema, includeDefinitions))
    decreases schema, 1, 0
  {
    var cs := Children(schema);
    forall c | c in cs ensures Proper(c.node) && c.tokens != [] {
      AllChildrenResolve(schema, |KEYWORDS|, c);
    }
    ChildrenApart(schema, |KEYWORDS|);
    PathsInNoRepeat(schema, cs, includeDefinitions);
    var below := PathsIn(schema, cs, includeDefinitions);
    forall j | 0 <= j < |below| ensures below[j].0 != [] {
      var k := PathsInBelow(schema, cs, includeDefinitions, j);
      assert cs[k] in cs;
    }
    NoRepeatSum([([], schema)], below);
  }

  lemma {:induction false} PathsInNoRepeat(schema: Json, cs: seq<Child>, includeDefinitions: bool)
    requires forall c :: c in cs ==> Sub(schema, c) && Proper(c.node)
    requires AllApart(cs)
    ensures NoRepeat(PathsIn(schema, cs, includeDefinitions))
    decreases schema, 0, |cs|
  {
    if cs != [] {
      var rest, c := cs[..|cs| - 1], cs[|cs| - 1];
      assert c in cs && Sub(schema, c);
      PathsInNoRepeat(schema, rest, includeDefinitions);
      if Kept(c, includeDefinitions) {
        PathsNoRepeat(c.node, includeDefinitions);
        var before, under := PathsIn(schema, rest, includeDefinitions), Under(c.tokens, Paths(c.node, includeDefinitions));
        UnderNoRepeat(c.tokens, Paths(c.node, includeDefinitions));
        forall i, j | 0 <= i < |before| && 0 <= j < |under| ensures before[i].0 != under[j].0 {
          var k := PathsInBelow(schema, rest, includeDefinitions, i);
          assert rest[k] == cs[k];
          ApartStayApart(rest[k].tokens, c.tokens, before[i].0, under[j].0);
        }
        NoRepeatSum(before, under);
      }
    }
  }

  /** All pointers of one walk differ. */
  lemma PointersDiffer(schema: Json, pointer: string, includeDefinitions: bool, i: nat, j: nat)
    requires schema.Obj? && Proper(schema) && i < j < |Walk(schema, pointer, includeDefinitions)|
    ensures Walk(schema, pointer, includeDefinitions)[i].0 != Walk(schema, pointer, includeDefinitions)[j].0
  {
    WalkAgrees(schema, pointer, includeDefinitions);
    PathsNoRepeat(schema, includeDefinitions);
    var a, b := Paths(schema, includeDefinitions)[i].0, Paths(schema, includeDefinitions)[j].0;
    if pointer + Render(a) == pointer + Render(b) {
      assert Render(a) == (pointer + Render(a))[|pointer|..] == Render(b);
      RenderInjective(a, b);
    }
  }
}
