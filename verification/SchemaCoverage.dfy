/** The walk visits every subschema and nothing else. */
module SchemaCoverage {
  import opened Wrappers
  import opened Text
  import opened Sorting
  import opened Json
  import opened JsonPointer
  import opened SchemaWalk

  // ------------------------------------------------------------- one level down

  /** What JSON Schema puts under a keyword of each kind: the tokens from the schema, and the subschema there. */
  ghost predicate Holds(schema: Json, keyword: string, kind: Kind, tokens: seq<string>, node: Json)
    requires schema.Obj?
  {
    var value := Get(schema.fields, keyword);
    node.Obj? && value.Some? &&
    match kind
    case Named => value.value.Obj? && exists name :: tokens == [keyword, name] && Get(value.value.fields, name) == Some(node)
    case Single => tokens == [keyword] && value.value == node
    case Branch =>
      value.value.Arr? && exists k: nat :: tokens == [keyword, Decimal(k)] && k < |value.value.items| && value.value.items[k] == node
  }

  ghost predicate IsSubschema(schema: Json, tokens: seq<string>, node: Json)
    requires schema.Obj?
  {
    exists k :: 0 <= k < |KEYWORDS| && Holds(schema, KEYWORDS[k].0, KEYWORDS[k].1, tokens, node)
  }

  lemma {:induction false} NamedAreChildren(keyword: string, items: seq<(string, Json)>, name: string, node: Json)
    requires (name, node) in items && node.Obj?
    ensures Child(Named, [keyword, name], node) in NamedChildren(keyword, items)
  {
    if items[|items| - 1] != (name, node) {
      assert (name, node) in items[..|items| - 1];
      NamedAreChildren(keyword, items[..|items| - 1], name, node);
    }
  }

  lemma {:induction false} BranchesAreChildren(keyword: string, items: seq<Json>, k: nat)
    requires k < |items| && items[k].Obj?
    ensures Child(Branch, [keyword, Decimal(k)], items[k]) in BranchChildren(keyword, items)
  {
    if k < |items| - 1 {
      BranchesAreChildren(keyword, items[..|items| - 1], k);
    }
  }

  /** The child of a kind with the tokens and the node. */
  lemma ChildrenAtExactly(schema: Json, keyword: string, kind: Kind, tokens: seq<string>, node: Json)
    requires schema.Obj? && Proper(schema)
    ensures Child(kind, tokens, node) in ChildrenAt(schema, keyword, kind) <==> Holds(schema, keyword, kind, tokens, node)
  {
    var value := Get(schema.fields, keyword);
    if value.Some? {
      assert Proper((keyword, value.value).1);
      match kind
      case Single =>
      case Named => if value.value.Obj? { NamedExactly(schema, keyword, value.value, tokens, node); }
      case Branch => if value.value.Arr? { BranchExactly(schema, keyword, value.value, tokens, node); }
    }
  }

  lemma NamedExactly(schema: Json, keyword: string, value: Json, tokens: seq<string>, node: Json)
    requires schema.Obj? && Get(schema.fields, keyword) == Some(value) && value.Obj? && Proper(value)
    ensures Child(Named, tokens, node) in ChildrenAt(schema, keyword, Named) <==> Holds(schema, keyword, Named, tokens, node)
  {
    var c := Child(Named, tokens, node);
    if c in ChildrenAt(schema, keyword, Named) {
      assert tokens == [keyword, tokens[1]];
      GetUnique(value.fields, tokens[1], node);
    }
    if Holds(schema, keyword, Named, tokens, node) {
      var name :| tokens == [keyword, name] && Get(value.fields, name) == Some(node);
      NamedAreChildren(keyword, Sort(value.fields, ByName), name, node);
    }
  }

  lemma BranchExactly(schema: Json, keyword: string, value: Json, tokens: seq<string>, node: Json)
    requires schema.Obj? && Get(schema.fields, keyword) == Some(value) && value.Arr?
    ensures Child(Branch, tokens, node) in ChildrenAt(schema, keyword, Branch) <==> Holds(schema, keyword, Branch, tokens, node)
  {
    var c := Child(Branch, tokens, node);
    if c in ChildrenAt(schema, keyword, Branch) {
      var k: nat :| k < |value.items| && value.items[k] == node && tokens[1] == Decimal(k);
      assert tokens == [keyword, Decimal(k)];
    }
    if Holds(schema, keyword, Branch, tokens, node) {
      var k: nat :| tokens == [keyword, Decimal(k)] && k < |value.items| && value.items[k] == node;
      BranchesAreChildren(keyword, value.items, k);
    }
  }

  /** A child of the schema with these tokens and this node. */
  predicate HasChild(cs: seq<Child>, tokens: seq<string>, node: Json)
  {
    exists c :: c in cs && c.tokens == tokens && c.node == node
  }

  lemma KindOfChild(schema: Json, keyword: string, kind: Kind, c: Child)
    requires schema.Obj? && c in ChildrenAt(schema, keyword, kind)
    ensures c == Child(kind, c.tokens, c.node)
  {
  }

  lemma {:induction false} ChildrenUpToExactly(schema: Json, n: nat, tokens: seq<string>, node: Json)
    requires schema.Obj? && Proper(schema) && n <= |KEYWORDS|
    ensures HasChild(ChildrenUpTo(schema, n), tokens, node) <==> HoldsUpTo(schema, n, tokens, node)
  {
    if n > 0 {
      var keyword, kind := KEYWORDS[n - 1].0, KEYWORDS[n - 1].1;
      ChildrenUpToExactly(schema, n - 1, tokens, node);
      HasChildAt(schema, keyword, kind, tokens, node);
      HasChildSum(ChildrenUpTo(schema, n - 1), ChildrenAt(schema, keyword, kind), tokens, node);
      HoldsMore(schema, n, tokens, node);
    }
  }

  ghost predicate HoldsUpTo(schema: Json, n: nat, tokens: seq<string>, node: Json)
    requires schema.Obj? && n <= |KEYWORDS|
  {
    exists k :: 0 <= k < n && Holds(schema, KEYWORDS[k].0, KEYWORDS[k].1, tokens, node)
  }

  lemma HoldsMore(schema: Json, n: nat, tokens: seq<string>, node: Json)
    requires schema.Obj? && 0 < n <= |KEYWORDS|
    ensures HoldsUpTo(schema, n, tokens, node) <==>
            HoldsUpTo(schema, n - 1, tokens, node) || Holds(schema, KEYWORDS[n - 1].0, KEYWORDS[n - 1].1, tokens, node)
  {
  }

  lemma HasChildAt(schema: Json, keyword: string, kind: Kind, tokens: seq<string>, node: Json)
    requires schema.Obj? && Proper(schema)
    ensures HasChild(ChildrenAt(schema, keyword, kind), tokens, node) <==> Holds(schema, keyword, kind, tokens, node)
  {
    ChildrenAtExactly(schema, keyword, kind, tokens, node);
    if c :| c in ChildrenAt(schema, keyword, kind) && c.tokens == tokens && c.node == node {
      KindOfChild(schema, keyword, kind, c);
    }
  }

  lemma HasChildSum(a: seq<Child>, b: seq<Child>, tokens: seq<string>, node: Json)
    ensures HasChild(a + b, tokens, node) <==> HasChild(a, tokens, node) || HasChild(b, tokens, node)
  {
    if c :| c in a && c.tokens == tokens && c.node == node {
      assert c in a + b;
    }
    if c :| c in b && c.tokens == tokens && c.node == node {
      assert c in a + b;
    }
  }

  /** The children are exactly the subschemas under the listed keywords. */
  lemma ChildrenExactly(schema: Json, tokens: seq<string>, node: Json)
    requires schema.Obj? && Proper(schema)
    ensures HasChild(Children(schema), tokens, node) <==> IsSubschema(schema, tokens, node)
  {
    ChildrenUpToExactly(schema, |KEYWORDS|, tokens, node);
  }

  // ---------------------------------------------------------- leaving out definitions

  /** A pointer begins with a first token if and only if that is its first token. */
  lemma StartsIff(first: string, rest: string, prefix: string)
    requires '/' !in first && '/' !in prefix
    ensures StartsWith("/" + first + "/" + rest, "/" + prefix + "/") <==> first == prefix
  {
    var s, p := "/" + first + "/" + rest, "/" + prefix + "/";
    if p <= s {
      var y := s[|p|..];
      assert s == p + y;
      assert first + ['/'] + rest == s[1..] == prefix + ['/'] + y;
      FirstCutUnique('/', first, rest, prefix, y);
    }
    if first == prefix {
      assert s[..|p|] == p;
    }
  }

  lemma NeverStarts(first: string, prefix: string)
    requires '/' !in first
    ensures !StartsWith("/" + first, "/" + prefix + "/")
  {
    assert ("/" + prefix + "/")[|prefix| + 1] == '/';
    assert forall i :: 1 <= i < |"/" + first| ==> ("/" + first)[i] == first[i - 1] != '/';
  }

  predicate IsDefinition(token: string) { token == "$defs" || token == "definitions" }

  lemma SuffixStarts(c: Child, prefix: string)
    requires |c.tokens| == (if c.kind.Single? then 1 else 2) && '/' !in c.tokens[0] && '~' !in c.tokens[0] && '/' !in prefix
    ensures StartsWith(Suffix(c), "/" + prefix + "/") <==> !c.kind.Single? && c.tokens[0] == prefix
  {
    match c.kind
    case Named =>
      EscapeIsEscaped(c.tokens[0]);
      PlainIsEscaped(c.tokens[0]);
      StartsIff(c.tokens[0], Escape(c.tokens[1]), prefix);
    case Single => NeverStarts(c.tokens[0], prefix);
    case Branch => StartsIff(c.tokens[0], c.tokens[1], prefix);
  }

  lemma DefinitionsAreNamed(k: nat)
    requires k < |KEYWORDS|
    ensures KEYWORDS[k].1.Single? ==> !IsDefinition(KEYWORDS[k].0)
  {
    assert "$defs"[0] == '$' && "definitions"[0] == 'd';
  }

  lemma {:induction false} KeywordOfChild(schema: Json, n: nat, c: Child) returns (k: nat)
    requires schema.Obj? && n <= |KEYWORDS| && c in ChildrenUpTo(schema, n)
    ensures k < n && c.tokens[0] == KEYWORDS[k].0 && c.kind == KEYWORDS[k].1
  {
    var keyword, kind := KEYWORDS[n - 1].0, KEYWORDS[n - 1].1;
    if c in ChildrenAt(schema, keyword, kind) {
      KindOfChild(schema, keyword, kind, c);
      k := n - 1;
    } else {
      k := KeywordOfChild(schema, n - 1, c);
    }
  }

  /** The test on the text of the suffix leaves out exactly the definitions. */
  lemma KeptIff(schema: Json, c: Child, includeDefinitions: bool)
    requires schema.Obj? && c in Children(schema)
    ensures Kept(c, includeDefinitions) <==> includeDefinitions || !IsDefinition(c.tokens[0])
  {
    var k := KeywordOfChild(schema, |KEYWORDS|, c);
    KeywordsPlain(k);
    DefinitionsAreNamed(k);
    assert '/' !in "$defs" && '/' !in "definitions";
    assert "/" + "$defs" + "/" == "/$defs/" && "/" + "definitions" + "/" == "/definitions/";
    SuffixStarts(c, "$defs");
    SuffixStarts(c, "definitions");
  }

  // ----------------------------------------------------------------- the whole walk

  /** Going down from a schema through subschemas, the tokens lead to the node. */
  ghost predicate Descends(schema: Json, includeDefinitions: bool, tokens: seq<string>, node: Json)
    decreases schema
  {
    schema.Obj? &&
    ((tokens == [] && node == schema) ||
     exists n: nat, mid :: Cuts(schema, includeDefinitions, tokens, n, mid) && Descends(mid, includeDefinitions, tokens[n..], node))
  }

  /** The first n tokens go one level down. */
  ghost predicate Cuts(schema: Json, includeDefinitions: bool, tokens: seq<string>, n: nat, mid: Json)
    requires schema.Obj?
  {
    n <= |tokens| && mid < schema && Goes(schema, includeDefinitions, tokens[..n], mid)
  }

  /** One level that the walk takes. */
  ghost predicate Goes(schema: Json, includeDefinitions: bool, tokens: seq<string>, node: Json)
    requires schema.Obj?
  {
    tokens != [] && IsSubschema(schema, tokens, node) && (includeDefinitions || !IsDefinition(tokens[0]))
  }

  lemma GoesToChild(schema: Json, includeDefinitions: bool, tokens: seq<string>, node: Json) returns (c: Child)
    requires schema.Obj? && Proper(schema) && Goes(schema, includeDefinitions, tokens, node)
    ensures c in Children(schema) && c.tokens == tokens && c.node == node && Kept(c, includeDefinitions)
  {
    ChildrenExactly(schema, tokens, node);
    c :| c in Children(schema) && c.tokens == tokens && c.node == node;
    KeptIff(schema, c, includeDefinitions);
  }

  lemma ChildGoes(schema: Json, includeDefinitions: bool, c: Child)
    requires schema.Obj? && Proper(schema) && c in Children(schema) && Kept(c, includeDefinitions)
    ensures Goes(schema, includeDefinitions, c.tokens, c.node) && Proper(c.node)
  {
    assert HasChild(Children(schema), c.tokens, c.node);
    ChildrenExactly(schema, c.tokens, c.node);
    KeptIff(schema, c, includeDefinitions);
    AllChildrenResolve(schema, |KEYWORDS|, c);
  }

  /** A path below a schema belongs to one of its children that is kept. */
  ghost predicate Through(schema: Json, c: Child, includeDefinitions: bool, tokens: seq<string>, node: Json)
    requires Sub(schema, c)
  {
    Kept(c, includeDefinitions) && c.tokens <= tokens && (tokens[|c.tokens|..], node) in Paths(c.node, includeDefinitions)
  }

  lemma UnderHas(t: seq<string>, ps: seq<Path>, tokens: seq<string>, node: Json)
    ensures (tokens, node) in Under(t, ps) <==> t <= tokens && (tokens[|t|..], node) in ps
  {
    if (tokens, node) in Under(t, ps) {
      var i :| 0 <= i < |ps| && Under(t, ps)[i] == (tokens, node);
      assert tokens[|t|..] == ps[i].0;
      assert ps[i] == (tokens[|t|..], node);
    }
    if t <= tokens && (tokens[|t|..], node) in ps {
      var i :| 0 <= i < |ps| && ps[i] == (tokens[|t|..], node);
      assert t + tokens[|t|..] == tokens;
      assert Under(t, ps)[i] == (tokens, node);
    }
  }

  lemma {:induction false} PathsInHas(schema: Json, cs: seq<Child>, includeDefinitions: bool, tokens: seq<string>, node: Json)
    requires forall c :: c in cs ==> Sub(schema, c)
    ensures (tokens, node) in PathsIn(schema, cs, includeDefinitions) <==>
            exists c :: c in cs && Through(schema, c, includeDefinitions, tokens, node)
  {
    if cs != [] {
      var rest, c := cs[..|cs| - 1], cs[|cs| - 1];
      assert c in cs && Sub(schema, c);
      PathsInHas(schema, rest, includeDefinitions, tokens, node);
      UnderHas(c.tokens, Paths(c.node, includeDefinitions), tokens, node);
      assert forall d :: d in cs <==> d in rest || d == c;
    }
  }

  lemma PathsHas(schema: Json, includeDefinitions: bool, tokens: seq<string>, node: Json)
    requires schema.Obj?
    ensures (tokens, node) in Paths(schema, includeDefinitions) <==>
            (tokens == [] && node == schema) || exists c :: c in Children(schema) && Through(schema, c, includeDefinitions, tokens, node)
  {
    var below := PathsIn(schema, Children(schema), includeDefinitions);
    assert Paths(schema, includeDefinitions) == [([], schema)] + below;
    PathsInHas(schema, Children(schema), includeDefinitions, tokens, node);
  }

  lemma ChildCuts(schema: Json, includeDefinitions: bool, c: Child, tokens: seq<string>)
    requires schema.Obj? && Proper(schema) && c in Children(schema) && Kept(c, includeDefinitions) && c.tokens <= tokens
    ensures Proper(c.node) && Cuts(schema, includeDefinitions, tokens, |c.tokens|, c.node)
  {
    ChildGoes(schema, includeDefinitions, c);
    assert tokens[..|c.tokens|] == c.tokens;
  }

  lemma {:induction false} VisitedDescends(schema: Json, includeDefinitions: bool, tokens: seq<string>, node: Json)
    requires schema.Obj? && Proper(schema) && (tokens, node) in Paths(schema, includeDefinitions)
    ensures Descends(schema, includeDefinitions, tokens, node)
    decreases schema
  {
    PathsHas(schema, includeDefinitions, tokens, node);
    if !(tokens == [] && node == schema) {
      var c :| c in Children(schema) && Through(schema, c, includeDefinitions, tokens, node);
      ChildCuts(schema, includeDefinitions, c, tokens);
      VisitedDescends(c.node, includeDefinitions, tokens[|c.tokens|..], node);
    }
  }

  lemma CutIsThrough(schema: Json, includeDefinitions: bool, tokens: seq<string>, node: Json, n: nat, mid: Json) returns (c: Child)
    requires schema.Obj? && Proper(schema) && Cuts(schema, includeDefinitions, tokens, n, mid) && mid.Obj?
    requires (tokens[n..], node) in Paths(mid, includeDefinitions)
    ensures c in Children(schema) && Through(schema, c, includeDefinitions, tokens, node)
  {
    c := GoesToChild(schema, includeDefinitions, tokens[..n], mid);
  }

  lemma CutIsProper(schema: Json, includeDefinitions: bool, tokens: seq<string>, n: nat, mid: Json)
    requires schema.Obj? && Proper(schema) && Cuts(schema, includeDefinitions, tokens, n, mid)
    ensures mid.Obj? && Proper(mid)
  {
    var c := GoesToChild(schema, includeDefinitions, tokens[..n], mid);
    ChildGoes(schema, includeDefinitions, c);
  }

  lemma {:induction false} DescendedIsVisited(schema: Json, includeDefinitions: bool, tokens: seq<string>, node: Json)
    requires schema.Obj? && Proper(schema) && Descends(schema, includeDefinitions, tokens, node)
    ensures (tokens, node) in Paths(schema, includeDefinitions)
    decreases schema
  {
    PathsHas(schema, includeDefinitions, tokens, node);
    if !(tokens == [] && node == schema) {
      var n: nat, mid :| Cuts(schema, includeDefinitions, tokens, n, mid) && Descends(mid, includeDefinitions, tokens[n..], node);
      CutIsProper(schema, includeDefinitions, tokens, n, mid);
      DescendedIsVisited(mid, includeDefinitions, tokens[n..], node);
      var c := CutIsThrough(schema, includeDefinitions, tokens, node, n, mid);
    }
  }

  /** The walk visits a node under a pointer if and only if the node is reached by going down through the
      subschemas under the listed keywords, definitions left out where they are not wanted. */
  lemma VisitsExactly(schema: Json, includeDefinitions: bool, tokens: seq<string>, node: Json)
    requires schema.Obj? && Proper(schema)
    ensures (tokens, node) in Paths(schema, includeDefinitions) <==> Descends(schema, includeDefinitions, tokens, node)
  {
    if (tokens, node) in Paths(schema, includeDefinitions) {
      VisitedDescends(schema, includeDefinitions, tokens, node);
    }
    if Descends(schema, includeDefinitions, tokens, node) {
      DescendedIsVisited(schema, includeDefinitions, tokens, node);
    }
  }

  /** The same in terms of the pointers that the walk yields. */
  lemma WalkCoversExactly(schema: Json, pointer: string, includeDefinitions: bool, tokens: seq<string>, node: Json)
    requires schema.Obj? && Proper(schema)
    ensures (pointer + Render(tokens), node) in Walk(schema, pointer, includeDefinitions) <==>
            Descends(schema, includeDefinitions, tokens, node)
  {
    var ws, ps := Walk(schema, pointer, includeDefinitions), Paths(schema, includeDefinitions);
    VisitsExactly(schema, includeDefinitions, tokens, node);
    WalkAgrees(schema, pointer, includeDefinitions);
    if i :| 0 <= i < |ps| && ps[i] == (tokens, node) {
      assert ws[i] == (pointer + Render(tokens), node);
    }
    if i :| 0 <= i < |ws| && ws[i] == (pointer + Render(tokens), node) {
      assert (pointer + Render(ps[i].0))[|pointer|..] == Render(ps[i].0) && (pointer + Render(tokens))[|pointer|..] == Render(tokens);
      RenderInjective(ps[i].0, tokens);
      assert ps[i] == (tokens, node);
    }
  }
}
