/** Inlining the local definitions of a JSON Schema. */
module RefExpansion {
  import opened Wrappers
  import opened Json

  const REF := "$ref"
  const LOCAL := "#/$defs/"
  const DISCRIMINATOR := "discriminator"
  const PROPERTY_NAME := "propertyName"

  type Fields = seq<(string, Json)>

  /** `reference.rsplit("/", 1)[-1]` */
  function LastSegment(s: string): string
  {
    if s == [] || s[|s| - 1] == '/' then [] else LastSegment(s[..|s| - 1]) + [s[|s| - 1]]
  }

  /** The name a local reference points at, if the object is one. */
  function LocalName(fields: Fields): Option<string>
  {
    var ref := Get(fields, REF);
    if ref.Some? && ref.value.Str? && LOCAL <= ref.value.s then Some(LastSegment(ref.value.s)) else None
  }

  function Target(defs: Fields, name: string): (r: Option<Json>)
    ensures r.Some? ==> r.value.Obj? && (name, r.value) in defs
  {
    var t := Get(defs, name);
    if t.Some? && t.value.Obj? then t else None
  }

  /** `d[key] = value` for a key that is there. */
  function Assign(fields: Fields, key: string, value: Json): (r: Fields)
    ensures |r| == |fields| && forall i :: 0 <= i < |fields| ==> r[i].0 == fields[i].0 && (r[i] == fields[i] || r[i] == (key, value))
  {
    if fields == [] then []
    else if fields[0].0 == key then [(key, value)] + fields[1..]
    else [fields[0]] + Assign(fields[1..], key, value)
  }

  /** A discriminator keeps only its property name. */
  function Trim(fields: Fields): (r: Fields)
    ensures |r| == |fields| && forall i :: 0 <= i < |fields| ==> r[i].0 == fields[i].0
  {
    var d := Get(fields, DISCRIMINATOR);
    if d.Some? && d.value.Obj? && Get(d.value.fields, PROPERTY_NAME).Some?
    then Assign(fields, DISCRIMINATOR, Obj([(PROPERTY_NAME, Get(d.value.fields, PROPERTY_NAME).value)]))
    else fields
  }

  function Names(defs: Fields): set<string>
  {
    set d | d in defs :: d.0
  }

  /** `expand`. It terminates for every table of definitions: each unfolding puts a new defined name
      on the trail, and everything else goes down into the term. */
  function Expand(defs: Fields, current: Json, trail: set<string>): (r: Json)
    ensures current.Obj? ==> r.Obj?
    ensures current.Arr? ==> r.Arr?
    ensures !current.Obj? && !current.Arr? ==> r == current
    decreases |Names(defs) - trail|, current, 1, 0
  {
    match current
    case Arr(items) => Arr(ExpandItems(defs, current, |items|, trail))
    case Obj(fields) =>
      var name := LocalName(fields);
      if name.Some? && name.value in trail then current
      else if name.Some? && Target(defs, name.value).Some? then
        FewerLeft(defs, name.value, trail);
        Expand(defs, Target(defs, name.value).value, trail + {name.value})
      else Obj(Trim(ExpandFields(defs, current, |fields|, trail)))
    case _ => current
  }

  lemma FewerLeft(defs: Fields, name: string, trail: set<string>)
    requires name !in trail && Target(defs, name).Some?
    ensures |Names(defs) - (trail + {name})| < |Names(defs) - trail|
  {
    var d := (name, Target(defs, name).value);
    assert d in defs && d.0 == name;
    assert Names(defs) - trail == Names(defs) - (trail + {name}) + {name};
  }

  /** The first n items of an array. */
  function ExpandItems(defs: Fields, owner: Json, n: nat, trail: set<string>): (r: seq<Json>)
    requires owner.Arr? && n <= |owner.items|
    ensures |r| == n
    decreases |Names(defs) - trail|, owner, 0, n
  {
    if n == 0 then []
    else
      assert owner.items[n - 1] in owner.items;
      ExpandItems(defs, owner, n - 1, trail) + [Expand(defs, owner.items[n - 1], trail)]
  }

  /** The first n fields of an object. */
  function ExpandFields(defs: Fields, owner: Json, n: nat, trail: set<string>): (r: Fields)
    requires owner.Obj? && n <= |owner.fields|
    ensures |r| == n && forall i :: 0 <= i < n ==> r[i].0 == owner.fields[i].0
    decreases |Names(defs) - trail|, owner, 0, n
  {
    if n == 0 then []
    else
      var f := owner.fields[n - 1];
      assert f in owner.fields;
      ExpandFields(defs, owner, n - 1, trail) + [(f.0, Expand(defs, f.1, trail))]
  }

  // ------------------------------------------------------------- what is wanted

  /** The schema is self-contained. */
  predicate NoRefs(j: Json)
    decreases j
  {
    match j
    case Arr(items) => forall x :: x in items ==> NoRefs(x)
    case Obj(fields) => LocalName(fields).None? && forall f :: f in fields ==> NoRefs(f.1)
    case _ => true
  }

  /** The schema is self-contained and every discriminator in it is trimmed. */
  predicate Clean(j: Json)
    decreases j
  {
    match j
    case Arr(items) => forall x :: x in items ==> Clean(x)
    case Obj(fields) =>
      LocalName(fields).None? && Trim(fields) == fields && forall f :: f in fields ==> Clean(f.1)
    case _ => true
  }

  /** A term whose discriminator is the given one. */
  function Under(discriminator: Json): Json
  {
    Obj([(DISCRIMINATOR, discriminator)])
  }

  predicate IsRef(j: Json)
  {
    j.Obj? && LocalName(j.fields).Some?
  }

  /** The part of a field that survives: of a discriminator with a property name only that name. */
  function Live(f: (string, Json)): (r: Json)
    ensures r == f.1 || (f.1.Obj? && (PROPERTY_NAME, r) in f.1.fields)
  {
    if f.0 == DISCRIMINATOR && f.1.Obj? && Get(f.1.fields, PROPERTY_NAME).Some? then Get(f.1.fields, PROPERTY_NAME).value
    else f.1
  }

  /** The field is a discriminator that is a reference. */
  predicate Discriminates(f: (string, Json))
  {
    f.0 == DISCRIMINATOR && IsRef(f.1)
  }

  predicate RefersTo(f: (string, Json), name: string)
    requires Discriminates(f)
  {
    LocalName(f.1.fields).value == name
  }

  predicate Turns(defs: Fields, f: (string, Json), name: string, next: Json)
    requires Discriminates(f)
  {
    RefersTo(f, name) && Target(defs, name).Some? && next == Under(Target(defs, name).value)
  }

  /** A term holds a live reference to a name, and unfolding it goes on with the next term. Fields beside a
      reference do not count. A discriminator that is a reference goes on with its target as discriminator. */
  ghost predicate Leads(defs: Fields, j: Json, name: string, next: Json)
    decreases j
  {
    match j
    case Arr(items) => exists x :: x in items && Leads(defs, x, name, next)
    case Obj(fields) =>
      if LocalName(fields).Some? then LocalName(fields).value == name && Target(defs, name) == Some(next)
      else exists f :: f in fields && (if Discriminates(f) then Turns(defs, f, name, next) else Leads(defs, Live(f), name, next))
    case _ => false
  }

  /** A term holds a live reference to a name, defined or not. */
  predicate Mentions(j: Json, name: string)
    decreases j
  {
    match j
    case Arr(items) => exists x :: x in items && Mentions(x, name)
    case Obj(fields) =>
      if LocalName(fields).Some? then LocalName(fields).value == name
      else exists f :: f in fields && (if Discriminates(f) then RefersTo(f, name) else Mentions(Live(f), name))
    case _ => false
  }

  /** Names met one after the other by following live references from a term. */
  ghost predicate Chain(defs: Fields, j: Json, p: seq<string>)
    decreases |p|
  {
    p != [] ==>
      if |p| == 1 then Mentions(j, p[0]) else exists next :: Leads(defs, j, p[0], next) && Chain(defs, next, p[1..])
  }

  /** Every name of a chain is defined, and none comes twice or is on the trail. */
  predicate GoodChain(defs: Fields, p: seq<string>, trail: set<string>)
  {
    (forall i :: 0 <= i < |p| ==> Target(defs, p[i]).Some? && p[i] !in trail) &&
    forall i, j :: 0 <= i < j < |p| ==> p[i] != p[j]
  }

  /** The definitions a term leads to resolve fully and in no circle. */
  ghost predicate Grounded(defs: Fields, j: Json, trail: set<string>)
  {
    forall p :: Chain(defs, j, p) ==> GoodChain(defs, p, trail)
  }

  /** No reference has a property name beside it, which JSON Schema gives no meaning. */
  predicate NoNamedRef(j: Json)
    decreases j
  {
    match j
    case Arr(items) => forall x :: x in items ==> NoNamedRef(x)
    case Obj(fields) =>
      (LocalName(fields).Some? ==> Get(fields, PROPERTY_NAME).None?) && forall f :: f in fields ==> NoNamedRef(f.1)
    case _ => true
  }

  /** A dictionary of definitions. */
  predicate Definitions(defs: Fields)
  {
    forall d :: d in defs ==> Proper(d.1)
  }

  // --------------------------------------------------------------------- proofs

  /** Keys decide which field `Get` finds. */
  lemma {:induction false} GetSameKeys(a: Fields, b: Fields, key: string) returns (i: nat)
    requires |a| == |b| && forall k :: 0 <= k < |a| ==> a[k].0 == b[k].0
    requires Get(b, key).Some?
    ensures i < |a| && Get(a, key).Some?
    ensures a[i] == (key, Get(a, key).value) && b[i] == (key, Get(b, key).value)
  {
    if a[0].0 != key {
      i := GetSameKeys(a[1..], b[1..], key);
      i := i + 1;
    } else {
      i := 0;
    }
  }

  lemma {:induction false} ExpandFieldsAt(defs: Fields, owner: Json, n: nat, trail: set<string>, i: nat)
    requires owner.Obj? && i < n <= |owner.fields|
    ensures ExpandFields(defs, owner, n, trail)[i] == (owner.fields[i].0, Expand(defs, owner.fields[i].1, trail))
  {
    if i < n - 1 {
      ExpandFieldsAt(defs, owner, n - 1, trail, i);
    }
  }

  lemma {:induction false} ExpandItemsAt(defs: Fields, owner: Json, n: nat, trail: set<string>, i: nat)
    requires owner.Arr? && i < n <= |owner.items|
    ensures ExpandItems(defs, owner, n, trail)[i] == Expand(defs, owner.items[i], trail)
  {
    if i < n - 1 {
      ExpandItemsAt(defs, owner, n - 1, trail, i);
    }
  }

  lemma {:induction false} GetAssigned(fields: Fields, key: string, value: Json)
    requires Get(fields, key).Some?
    ensures Get(Assign(fields, key, value), key) == Some(value)
    ensures Assign(Assign(fields, key, value), key, value) == Assign(fields, key, value)
  {
    var r := Assign(fields, key, value);
    if fields[0].0 != key {
      GetAssigned(fields[1..], key, value);
      assert r[1..] == Assign(fields[1..], key, value);
    } else {
      assert r[1..] == fields[1..];
    }
  }

  lemma TrimTwice(fields: Fields)
    ensures Trim(Trim(fields)) == Trim(fields)
  {
    var d := Get(fields, DISCRIMINATOR);
    if d.Some? && d.value.Obj? && Get(d.value.fields, PROPERTY_NAME).Some? {
      GetAssigned(fields, DISCRIMINATOR, Obj([(PROPERTY_NAME, Get(d.value.fields, PROPERTY_NAME).value)]));
    }
  }

  lemma TrimmedIsClean(value: Json)
    requires Clean(value)
    ensures Clean(Obj([(PROPERTY_NAME, value)]))
  {
    var fields := [(PROPERTY_NAME, value)];
    assert PROPERTY_NAME[0] == 'p' && REF[0] == '$' && DISCRIMINATOR[0] == 'd';
    assert Get(fields[1..], REF).None? && Get(fields[1..], DISCRIMINATOR).None?;
  }

  function TrimValue(e: Json): Json
  {
    if e.Obj? && Get(e.fields, PROPERTY_NAME).Some? then Obj([(PROPERTY_NAME, Get(e.fields, PROPERTY_NAME).value)]) else e
  }

  lemma {:induction false} AssignAt(fields: Fields, key: string, value: Json, i: nat)
    requires UniqueKeys(fields) && i < |fields|
    ensures Assign(fields, key, value)[i] == (fields[i].0, if fields[i].0 == key then value else fields[i].1)
  {
    if i > 0 && fields[0].0 != key {
      AssignAt(fields[1..], key, value, i - 1);
    }
  }

  /** Trimming changes the discriminator and nothing else. */
  lemma TrimAt(fields: Fields, i: nat)
    requires UniqueKeys(fields) && i < |fields|
    ensures Trim(fields)[i] == (fields[i].0, if fields[i].0 == DISCRIMINATOR then TrimValue(fields[i].1) else fields[i].1)
  {
    var d := Get(fields, DISCRIMINATOR);
    if fields[i].0 == DISCRIMINATOR {
      GetUnique(fields, DISCRIMINATOR, fields[i].1);
    }
    if d.Some? {
      AssignAt(fields, DISCRIMINATOR, TrimValue(d.value), i);
    }
  }

  /** What becomes of one field of an object that is no reference. */
  lemma FieldAfter(defs: Fields, owner: Json, trail: set<string>, i: nat)
    requires owner.Obj? && UniqueKeys(owner.fields) && i < |owner.fields|
    ensures var f := owner.fields[i]; var e := Expand(defs, f.1, trail);
            Trim(ExpandFields(defs, owner, |owner.fields|, trail))[i] ==
            (f.0, if f.0 == DISCRIMINATOR then TrimValue(e) else e)
  {
    ExpandFieldsAt(defs, owner, |owner.fields|, trail, i);
    TrimAt(ExpandFields(defs, owner, |owner.fields|, trail), i);
  }

  /** The expansion of a term with only a discriminator is that discriminator, trimmed. */
  lemma UnderAfter(defs: Fields, d: Json, trail: set<string>)
    ensures Expand(defs, Under(d), trail) == Under(TrimValue(Expand(defs, d, trail)))
  {
    NoRefUnder(d);
    FieldAfter(defs, Under(d), trail, 0);
    assert Under(d).fields[0] == (DISCRIMINATOR, d);
  }

  lemma NoRefUnder(d: Json)
    ensures LocalName(Under(d).fields).None?
  {
    assert REF[0] == '$' && DISCRIMINATOR[0] == 'd';
    assert Get(Under(d).fields[1..], REF).None?;
  }

  /** The property name of a discriminator that is no reference survives as its own expansion. */
  lemma PropertyNameAfter(defs: Fields, d: Json, trail: set<string>)
    requires d.Obj? && UniqueKeys(d.fields) && LocalName(d.fields).None?
    ensures var e := Expand(defs, d, trail); var v := Get(d.fields, PROPERTY_NAME);
            && e.Obj? && (Get(e.fields, PROPERTY_NAME).Some? <==> v.Some?)
            && (v.Some? ==> Get(e.fields, PROPERTY_NAME).value == Expand(defs, v.value, trail))
  {
    var e := Expand(defs, d, trail);
    assert PROPERTY_NAME[0] == 'p' && DISCRIMINATOR[0] == 'd';
    if Get(d.fields, PROPERTY_NAME).Some? {
      var i := GetSameKeys(e.fields, d.fields, PROPERTY_NAME);
      FieldAfter(defs, d, trail, i);
    }
  }

  /** Expanding the fields of an object that is no reference does not make it one. */
  lemma StillNoReference(defs: Fields, owner: Json, trail: set<string>)
    requires owner.Obj?
    ensures LocalName(Trim(ExpandFields(defs, owner, |owner.fields|, trail))) == LocalName(owner.fields)
  {
    var rs := ExpandFields(defs, owner, |owner.fields|, trail);
    var t := Trim(rs);
    assert REF[0] == '$' && DISCRIMINATOR[0] == 'd';
    if Get(t, REF).Some? {
      var i := GetSameKeys(owner.fields, t, REF);
      ExpandFieldsAt(defs, owner, |owner.fields|, trail, i);
      assert t[i] == rs[i];
    }
  }

  /** A reference is mentioned as it leads on. */
  lemma {:induction false} LeadsMentions(defs: Fields, j: Json, name: string, next: Json)
    requires Leads(defs, j, name, next)
    ensures Mentions(j, name) && Target(defs, name).Some?
    decreases j
  {
    match j
    case Arr(items) =>
      var x :| x in items && Leads(defs, x, name, next);
      LeadsMentions(defs, x, name, next);
    case Obj(fields) =>
      if LocalName(fields).None? {
        var f :| f in fields && (if Discriminates(f) then Turns(defs, f, name, next) else Leads(defs, Live(f), name, next));
        if !Discriminates(f) {
          LeadsMentions(defs, Live(f), name, next);
        }
      }
    case _ =>
  }

  lemma ChainStarts(defs: Fields, j: Json, p: seq<string>)
    requires Chain(defs, j, p) && p != []
    ensures Mentions(j, p[0])
  {
    if |p| > 1 {
      var next :| Leads(defs, j, p[0], next) && Chain(defs, next, p[1..]);
      LeadsMentions(defs, j, p[0], next);
    }
  }

  /** Chains of a part are chains of the whole. */
  lemma ChainUp(defs: Fields, part: Json, whole: Json, p: seq<string>)
    requires Chain(defs, part, p)
    requires forall name :: Mentions(part, name) ==> Mentions(whole, name)
    requires forall name, next :: Leads(defs, part, name, next) ==> Leads(defs, whole, name, next)
    ensures Chain(defs, whole, p)
  {
    if |p| > 1 {
      var next :| Leads(defs, part, p[0], next) && Chain(defs, next, p[1..]);
      assert Leads(defs, whole, p[0], next);
    }
  }

  lemma GroundedPart(defs: Fields, part: Json, whole: Json, trail: set<string>)
    requires Grounded(defs, whole, trail)
    requires forall name :: Mentions(part, name) ==> Mentions(whole, name)
    requires forall name, next :: Leads(defs, part, name, next) ==> Leads(defs, whole, name, next)
    ensures Grounded(defs, part, trail)
  {
    forall p | Chain(defs, part, p)
      ensures GoodChain(defs, p, trail)
    {
      ChainUp(defs, part, whole, p);
    }
  }

  lemma GroundedItem(defs: Fields, items: seq<Json>, x: Json, trail: set<string>)
    requires Grounded(defs, Arr(items), trail) && x in items
    ensures Grounded(defs, x, trail)
  {
    GroundedPart(defs, x, Arr(items), trail);
  }

  lemma GroundedField(defs: Fields, fields: Fields, f: (string, Json), trail: set<string>)
    requires Grounded(defs, Obj(fields), trail) && LocalName(fields).None? && f in fields
    requires !Discriminates(f)
    ensures Grounded(defs, Live(f), trail)
  {
    GroundedPart(defs, Live(f), Obj(fields), trail);
  }

  lemma GoodTail(defs: Fields, name: string, p: seq<string>, trail: set<string>)
    requires GoodChain(defs, [name] + p, trail)
    ensures GoodChain(defs, p, trail + {name})
  {
    var q := [name] + p;
    forall i | 0 <= i < |p|
      ensures Target(defs, p[i]).Some? && p[i] !in trail + {name}
    {
      assert q[i + 1] == p[i] && q[0] == name;
    }
    forall i, j | 0 <= i < j < |p|
      ensures p[i] != p[j]
    {
      assert q[i + 1] == p[i] && q[j + 1] == p[j];
    }
  }

  /** A grounded reference resolves, and what it leads to is grounded. */
  lemma GroundedNext(defs: Fields, j: Json, name: string, trail: set<string>)
    requires Grounded(defs, j, trail) && Mentions(j, name)
    ensures Target(defs, name).Some? && name !in trail
    ensures forall next :: Leads(defs, j, name, next) ==> Grounded(defs, next, trail + {name})
  {
    assert Chain(defs, j, [name]);
    assert [name][0] == name;
    forall next, p | Leads(defs, j, name, next) && Chain(defs, next, p)
      ensures GoodChain(defs, p, trail + {name})
    {
      var q := [name] + p;
      assert q[1..] == p;
      if p != [] {
        assert Chain(defs, j, q);
      } else {
        assert q == [name];
      }
      GoodTail(defs, name, p, trail);
    }
  }

  /** With grounded definitions the expansion is clean. */
  lemma {:induction false} GroundedExpandsClean(defs: Fields, current: Json, trail: set<string>)
    requires Grounded(defs, current, trail) && Proper(current) && Definitions(defs)
    ensures Clean(Expand(defs, current, trail))
    decreases |Names(defs) - trail|, current, 1
  {
    match current
    case Arr(items) =>
      var rs := ExpandItems(defs, current, |items|, trail);
      forall i | 0 <= i < |items|
        ensures Clean(rs[i])
      {
        assert items[i] in items;
        GroundedItem(defs, items, items[i], trail);
        GroundedExpandsClean(defs, items[i], trail);
        ExpandItemsAt(defs, current, |items|, trail, i);
      }
    case Obj(fields) =>
      if LocalName(fields).Some? {
        var name := LocalName(fields).value;
        GroundedNext(defs, current, name, trail);
        FewerLeft(defs, name, trail);
        var target := Target(defs, name).value;
        assert Leads(defs, current, name, target) && (name, target) in defs;
        GroundedExpandsClean(defs, target, trail + {name});
      } else {
        forall i | 0 <= i < |fields|
          ensures Clean(Trim(ExpandFields(defs, current, |fields|, trail))[i].1)
        {
          GroundedFieldClean(defs, current, trail, i);
        }
        FieldsAreClean(defs, current, trail);
      }
    case _ =>
  }

  lemma {:induction false} GroundedFieldClean(defs: Fields, current: Json, trail: set<string>, i: nat)
    requires Grounded(defs, current, trail) && Proper(current) && Definitions(defs)
    requires current.Obj? && LocalName(current.fields).None? && i < |current.fields|
    ensures Clean(Trim(ExpandFields(defs, current, |current.fields|, trail))[i].1)
    decreases |Names(defs) - trail|, current, 0
  {
    var f := current.fields[i];
    assert f in current.fields;
    FieldAfter(defs, current, trail, i);
    if Discriminates(f) {
      var name := LocalName(f.1.fields).value;
      GroundedNext(defs, current, name, trail);
      FewerLeft(defs, name, trail);
      var target := Target(defs, name).value;
      assert Leads(defs, current, name, Under(target)) && (name, target) in defs;
      ProperUnder(target);
      GroundedExpandsClean(defs, Under(target), trail + {name});
      UnderIsClean(defs, target, trail + {name});
    } else {
      GroundedField(defs, current.fields, f, trail);
      ProperLive(current.fields, f);
      GroundedExpandsClean(defs, Live(f), trail);
      LiveIsClean(defs, f, trail);
    }
  }

  lemma ProperUnder(d: Json)
    requires Proper(d)
    ensures Proper(Under(d))
  {
  }

  lemma ProperLive(fields: Fields, f: (string, Json))
    requires Proper(Obj(fields)) && f in fields
    ensures Proper(Live(f)) && Proper(f.1)
  {
  }

  lemma UnderIsClean(defs: Fields, d: Json, trail: set<string>)
    requires Clean(Expand(defs, Under(d), trail))
    ensures Clean(TrimValue(Expand(defs, d, trail)))
  {
    UnderAfter(defs, d, trail);
    var t := TrimValue(Expand(defs, d, trail));
    assert (DISCRIMINATOR, t) in Under(t).fields;
  }

  /** A field that is no discriminating reference is clean when its live part is. */
  lemma LiveIsClean(defs: Fields, f: (string, Json), trail: set<string>)
    requires Proper(f.1) && !Discriminates(f) && Clean(Expand(defs, Live(f), trail))
    ensures var e := Expand(defs, f.1, trail); Clean(if f.0 == DISCRIMINATOR then TrimValue(e) else e)
  {
    if f.0 == DISCRIMINATOR && f.1.Obj? {
      PropertyNameAfter(defs, f.1, trail);
      if Get(f.1.fields, PROPERTY_NAME).Some? {
        TrimmedIsClean(Expand(defs, Live(f), trail));
      }
    }
  }

  lemma FieldsAreClean(defs: Fields, owner: Json, trail: set<string>)
    requires owner.Obj? && LocalName(owner.fields).None?
    requires var t := Trim(ExpandFields(defs, owner, |owner.fields|, trail));
             forall i :: 0 <= i < |t| ==> Clean(t[i].1)
    ensures Clean(Obj(Trim(ExpandFields(defs, owner, |owner.fields|, trail))))
  {
    StillNoReference(defs, owner, trail);
    TrimTwice(ExpandFields(defs, owner, |owner.fields|, trail));
  }

  lemma {:induction false} CleanHasNoRefs(j: Json)
    requires Clean(j)
    ensures NoRefs(j)
  {
    match j
    case Arr(items) =>
      forall x | x in items
        ensures NoRefs(x)
      {
        CleanHasNoRefs(x);
      }
    case Obj(fields) =>
      forall f | f in fields
        ensures NoRefs(f.1)
      {
        CleanHasNoRefs(f.1);
      }
    case _ =>
  }

  /** A clean schema is a fixed point, whatever the definitions: it needs none of them. */
  lemma {:induction false} CleanIsFixed(defs: Fields, j: Json, trail: set<string>)
    requires Clean(j)
    ensures Expand(defs, j, trail) == j
    decreases j
  {
    match j
    case Arr(items) =>
      var rs := ExpandItems(defs, j, |items|, trail);
      forall i | 0 <= i < |items|
        ensures rs[i] == items[i]
      {
        assert items[i] in items;
        CleanIsFixed(defs, items[i], trail);
        ExpandItemsAt(defs, j, |items|, trail, i);
      }
      assert rs == items;
    case Obj(fields) =>
      var rs := ExpandFields(defs, j, |fields|, trail);
      forall i | 0 <= i < |fields|
        ensures rs[i] == fields[i]
      {
        assert fields[i] in fields;
        CleanIsFixed(defs, fields[i].1, trail);
        ExpandFieldsAt(defs, j, |fields|, trail, i);
      }
      assert rs == fields;
    case _ =>
  }

  /** Conversely, a chain that is not good leaves a reference behind. */
  lemma {:induction false} SelfContainedChain(defs: Fields, current: Json, trail: set<string>, p: seq<string>)
    requires NoRefs(Expand(defs, current, trail)) && Chain(defs, current, p) && p != []
    requires Fit(defs, current)
    ensures GoodChain(defs, p, trail)
    decreases |Names(defs) - trail|, current, 1
  {
    ChainStarts(defs, current, p);
    match current
    case Arr(items) =>
      var x := ItemOfChain(defs, items, p);
      var i :| 0 <= i < |items| && items[i] == x;
      ExpandItemsAt(defs, current, |items|, trail, i);
      assert Expand(defs, current, trail).items[i] == Expand(defs, x, trail);
      SelfContainedChain(defs, x, trail, p);
    case Obj(fields) =>
      if LocalName(fields).Some? {
        SelfContainedReference(defs, current, trail);
        FewerLeft(defs, p[0], trail);
        var target := Target(defs, p[0]).value;
        assert (p[0], target) in defs;
        if |p| > 1 {
          SelfContainedChain(defs, target, trail + {p[0]}, p[1..]);
        }
        ChainGrows(defs, p, trail);
      } else {
        var f := FieldOfChain(defs, fields, p);
        SelfContainedField(defs, current, trail, p, f);
      }
    case _ =>
  }

  lemma {:induction false} SelfContainedField(
      defs: Fields, current: Json, trail: set<string>, p: seq<string>, f: (string, Json))
    requires NoRefs(Expand(defs, current, trail)) && p != [] && Fit(defs, current)
    requires current.Obj? && LocalName(current.fields).None? && f in current.fields && FieldChain(defs, f, p)
    ensures GoodChain(defs, p, trail)
    decreases |Names(defs) - trail|, current, 0
  {
    var i :| 0 <= i < |current.fields| && current.fields[i] == f;
    FieldSurvives(defs, current, trail, i);
    if Discriminates(f) {
      DiscriminatingReference(defs, f.1, trail);
      FewerLeft(defs, p[0], trail);
      var target := Target(defs, p[0]).value;
      assert (p[0], target) in defs;
      if |p| > 1 {
        FitUnder(defs, target);
        SelfContainedUnder(defs, target, trail + {p[0]});
        SelfContainedChain(defs, Under(target), trail + {p[0]}, p[1..]);
      }
      ChainGrows(defs, p, trail);
    } else {
      LiveSurvives(defs, f, trail);
      FitLive(defs, current.fields, f);
      SelfContainedChain(defs, Live(f), trail, p);
    }
  }

  /** A chain that leaves an object through this field. */
  ghost predicate FieldChain(defs: Fields, f: (string, Json), p: seq<string>)
    requires p != []
  {
    if Discriminates(f)
    then RefersTo(f, p[0]) && (|p| > 1 ==> Target(defs, p[0]).Some? && Chain(defs, Under(Target(defs, p[0]).value), p[1..]))
    else Chain(defs, Live(f), p)
  }

  /** Dictionaries, with no property name beside a reference. */
  predicate Fit(defs: Fields, j: Json)
  {
    Proper(j) && NoNamedRef(j) && Definitions(defs) && forall d :: d in defs ==> NoNamedRef(d.1)
  }

  lemma FitUnder(defs: Fields, target: Json)
    requires Fit(defs, target)
    ensures Fit(defs, Under(target))
  {
    NoRefUnder(target);
  }

  lemma FitLive(defs: Fields, fields: Fields, f: (string, Json))
    requires Fit(defs, Obj(fields)) && f in fields
    ensures Fit(defs, Live(f))
  {
    ProperLive(fields, f);
    assert NoNamedRef(f.1);
    if Live(f) != f.1 {
      var g := (PROPERTY_NAME, Live(f));
      assert g in f.1.fields && NoNamedRef(g.1);
    }
  }

  lemma ItemOfChain(defs: Fields, items: seq<Json>, p: seq<string>) returns (x: Json)
    requires p != [] && Chain(defs, Arr(items), p)
    ensures x in items && Chain(defs, x, p)
  {
    if |p| == 1 {
      x :| x in items && Mentions(x, p[0]);
    } else {
      var next :| Leads(defs, Arr(items), p[0], next) && Chain(defs, next, p[1..]);
      x :| x in items && Leads(defs, x, p[0], next);
    }
  }

  /** The field through which a chain leaves an object. */
  lemma FieldOfChain(defs: Fields, fields: Fields, p: seq<string>) returns (f: (string, Json))
    requires p != [] && LocalName(fields).None? && Chain(defs, Obj(fields), p)
    ensures f in fields
    ensures FieldChain(defs, f, p)
  {
    if |p| == 1 {
      f :| f in fields && (if Discriminates(f) then RefersTo(f, p[0]) else Mentions(Live(f), p[0]));
    } else {
      var next :| Leads(defs, Obj(fields), p[0], next) && Chain(defs, next, p[1..]);
      f :| f in fields && (if Discriminates(f) then Turns(defs, f, p[0], next) else Leads(defs, Live(f), p[0], next));
    }
  }

  lemma ChainGrows(defs: Fields, p: seq<string>, trail: set<string>)
    requires p != [] && Target(defs, p[0]).Some? && p[0] !in trail
    requires |p| > 1 ==> GoodChain(defs, p[1..], trail + {p[0]})
    ensures GoodChain(defs, p, trail)
  {
    forall i | 0 < i < |p|
      ensures Target(defs, p[i]).Some? && p[i] !in trail && p[i] != p[0]
    {
      assert p[1..][i - 1] == p[i];
    }
    forall i, j | 0 < i < j < |p|
      ensures p[i] != p[j]
    {
      assert p[1..][i - 1] == p[i] && p[1..][j - 1] == p[j];
    }
  }

  lemma SelfContainedReference(defs: Fields, current: Json, trail: set<string>)
    requires current.Obj? && LocalName(current.fields).Some? && NoRefs(Expand(defs, current, trail))
    ensures LocalName(current.fields).value !in trail && Target(defs, LocalName(current.fields).value).Some?
  {
    StillNoReference(defs, current, trail);
  }

  /** What is left of a field holds no reference when the whole holds none. */
  lemma FieldSurvives(defs: Fields, current: Json, trail: set<string>, i: nat)
    requires current.Obj? && LocalName(current.fields).None? && UniqueKeys(current.fields) && i < |current.fields|
    requires NoRefs(Expand(defs, current, trail))
    ensures var f := current.fields[i]; var e := Expand(defs, f.1, trail);
            NoRefs(if f.0 == DISCRIMINATOR then TrimValue(e) else e)
  {
    FieldAfter(defs, current, trail, i);
    var t := Trim(ExpandFields(defs, current, |current.fields|, trail));
    assert Expand(defs, current, trail) == Obj(t) && t[i] in t;
  }

  lemma LiveSurvives(defs: Fields, f: (string, Json), trail: set<string>)
    requires Proper(f.1) && !Discriminates(f)
    requires var e := Expand(defs, f.1, trail); NoRefs(if f.0 == DISCRIMINATOR then TrimValue(e) else e)
    ensures NoRefs(Expand(defs, Live(f), trail))
  {
    if f.0 == DISCRIMINATOR && f.1.Obj? {
      PropertyNameAfter(defs, f.1, trail);
      if Get(f.1.fields, PROPERTY_NAME).Some? {
        var t := TrimValue(Expand(defs, f.1, trail));
        assert (PROPERTY_NAME, Expand(defs, Live(f), trail)) in t.fields;
      }
    }
  }

  /** A discriminator that is a reference, and leaves none, is resolved. */
  lemma DiscriminatingReference(defs: Fields, d: Json, trail: set<string>)
    requires IsRef(d) && NoNamedRef(d) && Proper(d) && NoRefs(TrimValue(Expand(defs, d, trail)))
    ensures var name := LocalName(d.fields).value;
            && name !in trail && Target(defs, name).Some?
            && NoRefs(TrimValue(Expand(defs, Target(defs, name).value, trail + {name})))
  {
    StillNoReference(defs, d, trail);
    var t := Trim(ExpandFields(defs, d, |d.fields|, trail));
    if Get(t, PROPERTY_NAME).Some? {
      var i := GetSameKeys(d.fields, t, PROPERTY_NAME);
      assert false;
    }
  }

  lemma SelfContainedUnder(defs: Fields, d: Json, trail: set<string>)
    requires NoRefs(TrimValue(Expand(defs, d, trail)))
    ensures NoRefs(Expand(defs, Under(d), trail))
  {
    UnderAfter(defs, d, trail);
    NoRefUnder(TrimValue(Expand(defs, d, trail)));
  }

  // ------------------------------------------------------------------- theorems

  /** `inline_type_schema` returns a self-contained schema when every chain of references resolves and
      repeats no name: no local reference is left, and expanding the result again, with any definitions at
      all, changes nothing. */
  lemma InlinedIsSelfContained(defs: Fields, schema: Json)
    requires Proper(schema) && Definitions(defs) && Grounded(defs, schema, {})
    ensures NoRefs(Expand(defs, schema, {}))
    ensures forall others, trail :: Expand(others, Expand(defs, schema, {}), trail) == Expand(defs, schema, {})
  {
    GroundedExpandsClean(defs, schema, {});
    var r := Expand(defs, schema, {});
    CleanHasNoRefs(r);
    forall others, trail
      ensures Expand(others, r, trail) == r
    {
      CleanIsFixed(others, r, trail);
    }
  }

  /** The condition is exact. */
  lemma SelfContainedIff(defs: Fields, schema: Json)
    requires Fit(defs, schema)
    ensures NoRefs(Expand(defs, schema, {})) <==> Grounded(defs, schema, {})
  {
    if Grounded(defs, schema, {}) {
      InlinedIsSelfContained(defs, schema);
    }
    if NoRefs(Expand(defs, schema, {})) {
      forall p | Chain(defs, schema, p)
        ensures GoodChain(defs, p, {})
      {
        if p != [] {
          SelfContainedChain(defs, schema, {}, p);
        }
      }
    }
  }

  /** A definition that refers to itself does not stop the expansion, but one local reference stays. */
  lemma RecursiveTypeIsNotSelfContained(name: string, key: string)
    requires '/' !in name && key != REF && key != DISCRIMINATOR
    ensures var node := Obj([(REF, Str(LOCAL + name))]);
            var defs := [(name, Obj([(key, node)]))];
            Expand(defs, node, {}) == Obj([(key, node)]) && !NoRefs(Expand(defs, node, {}))
  {
    var node := Obj([(REF, Str(LOCAL + name))]);
    var next := Obj([(key, node)]);
    var defs := [(name, next)];
    assert LocalName(node.fields) == Some(name) by {
      LastSegmentOf(LOCAL[..7], name);
      assert LOCAL + name == LOCAL[..7] + "/" + name;
    }
    assert Get(next.fields[1..], REF).None? && Get(next.fields[1..], DISCRIMINATOR).None?;
    assert {} + {name} == {name};
    assert Expand(defs, node, {name}) == node;
    assert ExpandFields(defs, next, 1, {name}) == [(key, node)];
    assert Expand(defs, next, {name}) == next;
    assert (key, node) in next.fields;
  }

  /** The last segment is what follows the last slash. */
  lemma {:induction false} LastSegmentOf(before: string, name: string)
    requires '/' !in name
    ensures LastSegment(before + "/" + name) == name
  {
    var s := before + "/" + name;
    if name != [] {
      LastSegmentOf(before, name[..|name| - 1]);
      assert s[..|s| - 1] == before + "/" + name[..|name| - 1];
      assert s[|s| - 1] == name[|name| - 1];
      assert name == name[..|name| - 1] + [name[|name| - 1]];
    }
  }
}
