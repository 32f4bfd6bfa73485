/** The worklist closures over the first-party dependency graph. */
module DependencyClosure {
  import opened Wrappers

  /** A requirement and the text of the marker that guards it. */
  datatype Requirement = Requirement(name: string, marker: Option<string>)

  type Graph = map<string, seq<Requirement>>

  /** `graph[name]` raises this for a name that is not a project. */
  datatype KeyError = KeyError(name: string)

  // --------------------------------------------------------- what is reachable

  /** One project needs another where the markers are read by `holds`. */
  ghost predicate Needs(graph: Graph, holds: string -> bool, x: string, y: string)
  {
    x in graph && exists r :: r in graph[x] && r.name == y && Chosen(holds, r)
  }

  predicate Chosen(holds: string -> bool, r: Requirement)
  {
    r.marker.None? || holds(r.marker.value)
  }

  ghost predicate IsRoute(graph: Graph, holds: string -> bool, route: seq<string>)
  {
    route != [] && forall i :: 0 < i < |route| ==> Needs(graph, holds, route[i - 1], route[i])
  }

  /** A chain of needs leads from the root to the name. */
  ghost predicate Reachable(graph: Graph, holds: string -> bool, root: string, name: string)
  {
    exists route ::
      IsRoute(graph, holds, route) && route[0] == root && route[|route| - 1] == name
  }

  ghost predicate Closed(graph: Graph, holds: string -> bool, s: set<string>)
  {
    forall x, y :: x in s && Needs(graph, holds, x, y) ==> y in s
  }

  /** The set of names a root leads to. */
  ghost predicate IsClosure(graph: Graph, holds: string -> bool, root: string, s: set<string>)
  {
    forall x :: x in s <==> Reachable(graph, holds, root, x)
  }

  lemma RootIsReachable(graph: Graph, holds: string -> bool, root: string)
    ensures Reachable(graph, holds, root, root)
  {
    assert IsRoute(graph, holds, [root]);
  }

  lemma NeededIsReachable(graph: Graph, holds: string -> bool, root: string, x: string, y: string)
    requires Reachable(graph, holds, root, x) && Needs(graph, holds, x, y)
    ensures Reachable(graph, holds, root, y)
  {
    var route :| IsRoute(graph, holds, route) && route[0] == root && route[|route| - 1] == x;
    assert IsRoute(graph, holds, route + [y]);
  }

  lemma {:induction false} RouteStaysInside(
      graph: Graph, holds: string -> bool, route: seq<string>, s: set<string>)
    requires IsRoute(graph, holds, route) && route[0] in s && Closed(graph, holds, s)
    ensures route[|route| - 1] in s
  {
    if |route| > 1 {
      var shorter := route[..|route| - 1];
      RouteStaysInside(graph, holds, shorter, s);
      assert Needs(graph, holds, route[|route| - 2], route[|route| - 1]);
    }
  }

  /** The closure is the least set that holds the root and everything its members need. */
  lemma ClosureIsLeast(graph: Graph, holds: string -> bool, root: string, closure: set<string>, s: set<string>)
    requires IsClosure(graph, holds, root, closure)
    ensures root in closure && Closed(graph, holds, closure)
    ensures root in s && Closed(graph, holds, s) ==> closure <= s
  {
    RootIsReachable(graph, holds, root);
    forall x, y | x in closure && Needs(graph, holds, x, y)
      ensures y in closure
    {
      NeededIsReachable(graph, holds, root, x, y);
    }
    if root in s && Closed(graph, holds, s) {
      forall x | x in closure
        ensures x in s
      {
        var route :| IsRoute(graph, holds, route) && route[0] == root && route[|route| - 1] == x;
        RouteStaysInside(graph, holds, route, s);
      }
    }
  }

  // -------------------------------------------------------------- the worklist

  /** What the worklist loop keeps. */
  ghost predicate Working(
      graph: Graph, holds: string -> bool, root: string, result: set<string>, pending: seq<string>)
  {
    (root in result || root in pending) &&
    result <= graph.Keys &&
    (forall x :: x in result || x in pending ==> Reachable(graph, holds, root, x)) &&
    forall x, y :: x in result && Needs(graph, holds, x, y) ==> y in result || y in pending
  }

  lemma StepKeepsWorking(
      graph: Graph, holds: string -> bool, root: string, result: set<string>, rest: seq<string>,
      name: string, more: seq<string>)
    requires Working(graph, holds, root, result, rest + [name]) && name in graph
    requires forall y :: y in more ==> Needs(graph, holds, name, y)
    requires forall y :: Needs(graph, holds, name, y) ==> y in more || y in result + {name}
    ensures Working(graph, holds, root, result + {name}, rest + more)
  {
    var pending := rest + [name];
    assert name in pending && forall x :: x in pending ==> x in rest || x == name;
    assert forall x :: x in rest ==> x in pending;
    assert forall x :: x in rest || x in more ==> x in rest + more;
    forall y | y in more
      ensures Reachable(graph, holds, root, y)
    {
      NeededIsReachable(graph, holds, root, name, y);
    }
  }

  lemma SkipKeepsWorking(
      graph: Graph, holds: string -> bool, root: string, result: set<string>, rest: seq<string>, name: string)
    requires Working(graph, holds, root, result, rest + [name]) && name in result
    ensures Working(graph, holds, root, result, rest)
  {
    var pending := rest + [name];
    assert forall x :: x in pending <==> x in rest || x == name;
  }

  lemma DoneIsClosure(graph: Graph, holds: string -> bool, root: string, result: set<string>)
    requires Working(graph, holds, root, result, [])
    ensures IsClosure(graph, holds, root, result)
  {
    assert Closed(graph, holds, result);
    forall x | Reachable(graph, holds, root, x)
      ensures x in result
    {
      var route :| IsRoute(graph, holds, route) && route[0] == root && route[|route| - 1] == x;
      RouteStaysInside(graph, holds, route, result);
    }
  }

  lemma StartIsWorking(graph: Graph, holds: string -> bool, root: string)
    ensures Working(graph, holds, root, {}, [root])
  {
    RootIsReachable(graph, holds, root);
  }

  /** A name taken off the list either was found before, or is no project, or makes progress. */
  lemma PopMakesProgress(keys: set<string>, result: set<string>, name: string)
    requires name in keys && name !in result
    ensures |keys - (result + {name})| < |keys - result|
  {
    assert keys - result == keys - (result + {name}) + {name};
  }

  /** The names of the chosen requirements, in order. */
  function ChosenNames(holds: string -> bool, rs: seq<Requirement>): (names: seq<string>)
    ensures forall y :: y in names <==> exists r :: r in rs && r.name == y && Chosen(holds, r)
  {
    if rs == [] then []
    else
      var rest := ChosenNames(holds, rs[1..]);
      assert forall r :: r in rs <==> r == rs[0] || r in rs[1..];
      if Chosen(holds, rs[0]) then [rs[0].name] + rest else rest
  }

  lemma ChosenStep(
      graph: Graph, holds: string -> bool, root: string, result: set<string>, rest: seq<string>, name: string)
    requires Working(graph, holds, root, result, rest + [name]) && name in graph
    ensures Working(graph, holds, root, result + {name}, rest + ChosenNames(holds, graph[name]))
  {
    StepKeepsWorking(graph, holds, root, result, rest, name, ChosenNames(holds, graph[name]));
  }

  lemma PendingIsReachable(graph: Graph, holds: string -> bool, root: string, result: set<string>, rest: seq<string>, name: string)
    requires Working(graph, holds, root, result, rest + [name])
    ensures Reachable(graph, holds, root, name)
  {
    assert name in rest + [name];
  }

  /** `dependency_closure` of the installation script. On every graph, cycles included, it ends with exactly
      the reachable names, or with the error of a reachable name that is no project. */
  method Closure(graph: Graph, root: string, holds: string -> bool) returns (r: Result<set<string>, KeyError>)
    ensures r.Ok? ==> IsClosure(graph, holds, root, r.value) && r.value <= graph.Keys
    ensures r.Err? ==> Reachable(graph, holds, root, r.error.name) && r.error.name !in graph
  {
    var pending := [root];
    var result: set<string> := {};
    StartIsWorking(graph, holds, root);
    while pending != []
      invariant Working(graph, holds, root, result, pending)
      decreases |graph.Keys - result|, |pending|
    {
      var name := pending[|pending| - 1];
      assert pending == pending[..|pending| - 1] + [name];
      pending := pending[..|pending| - 1];
      if name in result {
        SkipKeepsWorking(graph, holds, root, result, pending, name);
        continue;
      }
      if name !in graph {
        PendingIsReachable(graph, holds, root, result, pending, name);
        return Err(KeyError(name));
      }
      var more := ChosenNames(holds, graph[name]);
      ChosenStep(graph, holds, root, result, pending, name);
      PopMakesProgress(graph.Keys, result, name);
      result := result + {name};
      pending := pending + more;
    }
    DoneIsClosure(graph, holds, root, result);
    return Ok(result);
  }

  /** A set in whatever order it is iterated. */
  method Unfound(names: set<string>, found: set<string>) returns (more: seq<string>)
    ensures forall y :: y in more <==> y in names && y !in found
  {
    more := [];
    var left := names - found;
    while left != {}
      invariant left <= names - found
      invariant forall y :: y in more <==> y in names && y !in found && y !in left
      decreases |left|
    {
      var y :| y in left;
      more := more + [y];
      left := left - {y};
    }
  }

  /** A graph of plain sets as requirements without markers. */
  ghost function Plain(graph: map<string, set<string>>): Graph
  {
    map x | x in graph :: Unmarked(graph[x])
  }

  ghost function Unmarked(names: set<string>): (rs: seq<Requirement>)
    ensures forall r :: r in rs <==> r.name in names && r.marker.None?
    decreases |names|
  {
    if names == {} then []
    else
      var x :| x in names;
      var rest := Unmarked(names - {x});
      var rs := [Requirement(x, None)] + rest;
      assert forall r :: r in rs <==> r == rs[0] || r in rest;
      rs
  }

  predicate Always(m: string)
  {
    true
  }

  lemma PlainNeeds(graph: map<string, set<string>>, x: string, y: string)
    ensures Needs(Plain(graph), Always, x, y) <==> x in graph && y in graph[x]
  {
    if x in graph && y in graph[x] {
      assert Requirement(y, None) in Plain(graph)[x];
    }
  }

  lemma PlainStep(
      graph: map<string, set<string>>, root: string, result: set<string>, rest: seq<string>, name: string, more: seq<string>)
    requires Working(Plain(graph), Always, root, result, rest + [name]) && name in graph
    requires forall y :: y in more <==> y in graph[name] && y !in result + {name}
    ensures Working(Plain(graph), Always, root, result + {name}, rest + more)
  {
    forall y
      ensures Needs(Plain(graph), Always, name, y) <==> y in graph[name]
    {
      PlainNeeds(graph, name, y);
    }
    StepKeepsWorking(Plain(graph), Always, root, result, rest, name, more);
  }

  /** `_dependency_closure` of the release script: it leaves out names already found, and set iteration
      order is arbitrary, yet the answer is the same reachable set. */
  method SetClosure(graph: map<string, set<string>>, root: string) returns (r: Result<set<string>, KeyError>)
    ensures r.Ok? ==> IsClosure(Plain(graph), Always, root, r.value) && r.value <= graph.Keys
    ensures r.Err? ==> Reachable(Plain(graph), Always, root, r.error.name) && r.error.name !in graph
  {
    var pending := [root];
    var result: set<string> := {};
    StartIsWorking(Plain(graph), Always, root);
    while pending != []
      invariant Working(Plain(graph), Always, root, result, pending)
      decreases |graph.Keys - result|, |pending|
    {
      var name := pending[|pending| - 1];
      assert pending == pending[..|pending| - 1] + [name];
      pending := pending[..|pending| - 1];
      if name in result {
        SkipKeepsWorking(Plain(graph), Always, root, result, pending, name);
        continue;
      }
      if name !in graph {
        PendingIsReachable(Plain(graph), Always, root, result, pending, name);
        return Err(KeyError(name));
      }
      PopMakesProgress(graph.Keys, result, name);
      var more := Unfound(graph[name], result + {name});
      PlainStep(graph, root, result, pending, name, more);
      result := result + {name};
      pending := pending + more;
    }
    DoneIsClosure(Plain(graph), Always, root, result);
    return Ok(result);
  }

  /** Two runs, whatever they popped first, agree. */
  lemma ClosureIsUnique(graph: Graph, holds: string -> bool, root: string, a: set<string>, b: set<string>)
    requires IsClosure(graph, holds, root, a) && IsClosure(graph, holds, root, b)
    ensures a == b
  {
    assert forall x :: x in a <==> x in b;
  }
}
