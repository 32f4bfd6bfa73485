/** Inlining does not change what a schema says: whatever can be read at a path of the schema, following its local
    references, can be read at the same path of the result, following the references that are left. */
module RefMeaning {
  import opened Wrappers
  import opened Json
  import opened RefExpansion

  datatype Step = Field(key: string) | Index(i: nat)

  /** What is seen at a place: the keys of an object, the length of an array, or a plain value. */
  datatype Shape = Keys(keys: seq<string>) | Length(n: nat) | Plain(value: Json)

  function ShapeOf(j: Json): Shape
  {
    match j
    case Obj(fields) => Keys(seq(|fields|, i requires 0 <= i < |fields| => fields[i].0))
    case Arr(items) => Length(|items|)
    case _ => Plain(j)
  }

  function StepInto(j: Json, s: Step): Option<Json>
  {
    match s
    case Field(key) => if j.Obj? then Get(j.fields, key) else None
    case Index(i) => if j.Arr? && i < |j.items| then Some(j.items[i]) else None
  }

  /** The definition that a local reference stands for. */
  function Hop(defs: Fields, j: Json): Option<Json>
  {
    if j.Obj? && LocalName(j.fields).Some? then Target(defs, LocalName(j.fields).value) else None
  }

  function Hops(defs: Fields, j: Json, n: nat): Json
    decreases n
  {
    if n == 0 || Hop(defs, j).None? then j else Hops(defs, Hop(defs, j).value, n - 1)
  }

  /** Following references from a term ends at another. */
  ghost predicate EndsAt(defs: Fields, j: Json, r: Json)
  {
    Hop(defs, r).None? && exists n: nat :: Hops(defs, j, n) == r
  }

  /** At the end of a path, following references on the way, is this shape. */
  ghost predicate Reads(defs: Fields, j: Json, path: seq<Step>, shape: Shape)
    decreases |path|
  {
    exists r :: EndsAt(defs, j, r) &&
      if path == [] then ShapeOf(r) == shape
      else StepInto(r, path[0]).Some? && Reads(defs, StepInto(r, path[0]).value, path[1..], shape)
  }

  // ------------------------------------------------------------------ following references

  lemma EndsHere(defs: Fields, j: Json)
    requires Hop(defs, j).None?
    ensures EndsAt(defs, j, j)
    ensures forall r :: EndsAt(defs, j, r) ==> r == j
  {
    assert Hops(defs, j, 0) == j;
  }

  lemma EndsAfterHop(defs: Fields, j: Json, r: Json)
    requires Hop(defs, j).Some?
    ensures EndsAt(defs, j, r) <==> EndsAt(defs, Hop(defs, j).value, r)
  {
    var t := Hop(defs, j).value;
    if EndsAt(defs, j, r) {
      var n: nat :| Hops(defs, j, n) == r;
      assert n > 0;
      assert Hops(defs, t, n - 1) == r;
    }
    if EndsAt(defs, t, r) {
      var n: nat :| Hops(defs, t, n) == r;
      assert Hops(defs, j, n + 1) == r;
    }
  }

  /** A term and what expanding may make of it. */
  ghost predicate Expands(defs: Fields, j: Json, e: Json)
  {
    e == j || exists trail :: e == Expand(defs, j, trail)
  }

  /** Expanding a term that is no resolvable reference does not make it one. */
  lemma StillNoHop(defs: Fields, j: Json, trail: set<string>)
    requires Hop(defs, j).None?
    ensures Hop(defs, Expand(defs, j, trail)).None?
  {
    if j.Obj? {
      StillNoReference(defs, j, trail);
    }
  }

  /** A term and its expansion lead to ends that are again a term and its expansion. */
  lemma {:induction false} EndsExpand(defs: Fields, j: Json, trail: set<string>, r: Json) returns (r': Json)
    requires EndsAt(defs, j, r)
    ensures EndsAt(defs, Expand(defs, j, trail), r') && Expands(defs, r, r')
    decreases |Names(defs) - trail|
  {
    var e := Expand(defs, j, trail);
    if Hop(defs, j).None? {
      EndsHere(defs, j);
      StillNoHop(defs, j, trail);
      EndsHere(defs, e);
      r' := e;
    } else {
      var name := LocalName(j.fields).value;
      if name in trail {
        r' := r;
      } else {
        EndsAfterHop(defs, j, r);
        FewerLeft(defs, name, trail);
        r' := EndsExpand(defs, Hop(defs, j).value, trail + {name}, r);
      }
    }
  }

  lemma {:induction false} EndsContract(defs: Fields, j: Json, trail: set<string>, r': Json) returns (r: Json)
    requires EndsAt(defs, Expand(defs, j, trail), r')
    ensures EndsAt(defs, j, r) && Expands(defs, r, r')
    decreases |Names(defs) - trail|
  {
    var e := Expand(defs, j, trail);
    if Hop(defs, j).None? {
      EndsHere(defs, j);
      StillNoHop(defs, j, trail);
      EndsHere(defs, e);
      r := j;
    } else {
      var name := LocalName(j.fields).value;
      if name in trail {
        r := r';
      } else {
        FewerLeft(defs, name, trail);
        r := EndsContract(defs, Hop(defs, j).value, trail + {name}, r');
        EndsAfterHop(defs, j, r);
      }
    }
  }

  // ------------------------------------------------------------------------- going down

  lemma SameShape(defs: Fields, r: Json, r': Json)
    requires Hop(defs, r).None? && Expands(defs, r, r')
    ensures ShapeOf(r) == ShapeOf(r')
  {
  }

  /** A step that is not into a discriminator goes to a term and its expansion. */
  lemma StepsExpand(defs: Fields, r: Json, trail: set<string>, s: Step)
    requires Hop(defs, r).None? && Proper(r) && s != Field(DISCRIMINATOR)
    ensures var a, b := StepInto(r, s), StepInto(Expand(defs, r, trail), s);
      && (a.Some? <==> b.Some?) && (a.Some? ==> Proper(a.value) && Expands(defs, a.value, b.value))
  {
    var e := Expand(defs, r, trail);
    match s
    case Index(i) =>
      if r.Arr? && i < |r.items| {
        ExpandItemsAt(defs, r, |r.items|, trail, i);
        assert r.items[i] in r.items;
      }
    case Field(key) =>
      if r.Obj? {
        FieldsExpand(defs, r, trail, key);
      }
  }

  lemma FieldsExpand(defs: Fields, r: Json, trail: set<string>, key: string)
    requires r.Obj? && Hop(defs, r).None? && Proper(r) && key != DISCRIMINATOR
    ensures var a, b := Get(r.fields, key), Get(Expand(defs, r, trail).fields, key);
      && (a.Some? <==> b.Some?) && (a.Some? ==> Proper(a.value) && Expands(defs, a.value, b.value))
  {
    var e := Expand(defs, r, trail);
    if e != r {
      if Get(r.fields, key).Some? {
        var i := GetSameKeys(e.fields, r.fields, key);
        FieldAfter(defs, r, trail, i);
        assert Proper(r.fields[i].1);
      }
      if Get(e.fields, key).Some? {
        var i := GetSameKeys(r.fields, e.fields, key);
      }
    } else if Get(r.fields, key).Some? {
      assert Proper((key, Get(r.fields, key).value).1);
    }
  }

  // ------------------------------------------------------------------------- the theorem

  /** The path does not go into a discriminator, of which only the property name is kept. */
  predicate Avoids(path: seq<Step>)
  {
    forall i :: 0 <= i < |path| ==> path[i] != Field(DISCRIMINATOR)
  }

  lemma {:induction false} EndIsProper(defs: Fields, j: Json, n: nat)
    requires Definitions(defs) && Proper(j)
    ensures Proper(Hops(defs, j, n))
    decreases n
  {
    if n > 0 && Hop(defs, j).Some? {
      var d := (LocalName(j.fields).value, Hop(defs, j).value);
      assert d in defs && Proper(d.1);
      EndIsProper(defs, Hop(defs, j).value, n - 1);
    }
  }

  lemma {:induction false} ReadsExpand(defs: Fields, j: Json, e: Json, path: seq<Step>, shape: Shape)
    requires Definitions(defs) && Proper(j) && Expands(defs, j, e) && Avoids(path) && Reads(defs, j, path, shape)
    ensures Reads(defs, e, path, shape)
    decreases |path|
  {
    if e != j {
      var trail :| e == Expand(defs, j, trail);
      var r :| EndsAt(defs, j, r) &&
        if path == [] then ShapeOf(r) == shape
        else StepInto(r, path[0]).Some? && Reads(defs, StepInto(r, path[0]).value, path[1..], shape);
      var r' := EndsExpand(defs, j, trail, r);
      SameShape(defs, r, r');
      if path != [] {
        var n: nat :| Hops(defs, j, n) == r;
        EndIsProper(defs, j, n);
        OneStepOn(defs, r, r', path, shape);
      }
    }
  }

  lemma OneStepOn(defs: Fields, r: Json, r': Json, path: seq<Step>, shape: Shape)
    requires Definitions(defs) && Proper(r) && Hop(defs, r).None? && Expands(defs, r, r') && path != [] && Avoids(path)
    requires StepInto(r, path[0]).Some? && Reads(defs, StepInto(r, path[0]).value, path[1..], shape)
    ensures StepInto(r', path[0]).Some? && Reads(defs, StepInto(r', path[0]).value, path[1..], shape)
    decreases |path|, 0
  {
    if r' != r {
      var trail :| r' == Expand(defs, r, trail);
      StepsExpand(defs, r, trail, path[0]);
      ReadsExpand(defs, StepInto(r, path[0]).value, StepInto(r', path[0]).value, path[1..], shape);
    }
  }

  lemma {:induction false} ReadsContract(defs: Fields, j: Json, e: Json, path: seq<Step>, shape: Shape)
    requires Definitions(defs) && Proper(j) && Expands(defs, j, e) && Avoids(path) && Reads(defs, e, path, shape)
    ensures Reads(defs, j, path, shape)
    decreases |path|
  {
    if e != j {
      var trail :| e == Expand(defs, j, trail);
      var r' :| EndsAt(defs, e, r') &&
        if path == [] then ShapeOf(r') == shape
        else StepInto(r', path[0]).Some? && Reads(defs, StepInto(r', path[0]).value, path[1..], shape);
      var r := EndsContract(defs, j, trail, r');
      SameShape(defs, r, r');
      if path != [] {
        var n: nat :| Hops(defs, j, n) == r;
        EndIsProper(defs, j, n);
        OneStepBack(defs, r, r', path, shape);
      }
    }
  }

  lemma OneStepBack(defs: Fields, r: Json, r': Json, path: seq<Step>, shape: Shape)
    requires Definitions(defs) && Proper(r) && Hop(defs, r).None? && Expands(defs, r, r') && path != [] && Avoids(path)
    requires StepInto(r', path[0]).Some? && Reads(defs, StepInto(r', path[0]).value, path[1..], shape)
    ensures StepInto(r, path[0]).Some? && Reads(defs, StepInto(r, path[0]).value, path[1..], shape)
    decreases |path|, 0
  {
    if r' != r {
      var trail :| r' == Expand(defs, r, trail);
      StepsExpand(defs, r, trail, path[0]);
      ReadsContract(defs, StepInto(r, path[0]).value, StepInto(r', path[0]).value, path[1..], shape);
    }
  }

  /** For every schema and every table of definitions, recursive ones included: a shape is read at a path of the
      schema if and only if it is read at that path of the inlined schema. */
  lemma InliningKeepsMeaning(defs: Fields, schema: Json, path: seq<Step>, shape: Shape)
    requires Definitions(defs) && Proper(schema) && Avoids(path)
    ensures Reads(defs, schema, path, shape) <==> Reads(defs, Expand(defs, schema, {}), path, shape)
  {
    var e := Expand(defs, schema, {});
    assert Expands(defs, schema, e);
    if Reads(defs, schema, path, shape) {
      ReadsExpand(defs, schema, e, path, shape);
    }
    if Reads(defs, e, path, shape) {
      ReadsContract(defs, schema, e, path, shape);
    }
  }

  /** A discriminator of an object that is no reference: if its expansion has a property name it keeps exactly that,
      and otherwise all of it. */
  lemma DiscriminatorKeepsItsName(defs: Fields, fields: Fields, trail: set<string>, d: Json)
    requires UniqueKeys(fields) && LocalName(fields).None? && Get(fields, DISCRIMINATOR) == Some(d)
    ensures var e, kept := Expand(defs, d, trail), Get(Expand(defs, Obj(fields), trail).fields, DISCRIMINATOR);
      kept == Some(if e.Obj? && Get(e.fields, PROPERTY_NAME).Some?
                   then Obj([(PROPERTY_NAME, Get(e.fields, PROPERTY_NAME).value)]) else e)
  {
    var whole := Expand(defs, Obj(fields), trail);
    var i := GetSameKeys(whole.fields, fields, DISCRIMINATOR);
    FieldAfter(defs, Obj(fields), trail, i);
  }

  /** A term without references reads the same whatever the definitions are. */
  lemma {:induction false} NoRefsReads(defs: Fields, others: Fields, j: Json, path: seq<Step>, shape: Shape)
    requires NoRefs(j) && Reads(defs, j, path, shape)
    ensures Reads(others, j, path, shape)
    decreases |path|
  {
    EndsHere(defs, j);
    EndsHere(others, j);
    if path != [] {
      var next := StepInto(j, path[0]).value;
      assert NoRefs(next) by {
        if path[0].Field? {
          assert NoRefs((path[0].key, next).1);
        } else {
          assert next in j.items;
        }
      }
      NoRefsReads(defs, others, next, path[1..], shape);
    }
  }

  /** Where the definitions resolve in no circle, the inlined schema says without them what the schema says with
      them. */
  lemma InlinedStandsAlone(defs: Fields, schema: Json, path: seq<Step>, shape: Shape)
    requires Definitions(defs) && Proper(schema) && Grounded(defs, schema, {}) && Avoids(path)
    ensures Reads(defs, schema, path, shape) <==> Reads([], Expand(defs, schema, {}), path, shape)
  {
    var e := Expand(defs, schema, {});
    InliningKeepsMeaning(defs, schema, path, shape);
    InlinedIsSelfContained(defs, schema);
    if Reads(defs, e, path, shape) {
      NoRefsReads(defs, [], e, path, shape);
    }
    if Reads([], e, path, shape) {
      NoRefsReads([], defs, e, path, shape);
    }
  }
}
