/**
 The sources a build locks and the sources its receipt records: one worklist, one list grown
 while it is walked (lhpc/core/build_plan.py:36-51, 106-122).
 */
module BuildSources {
  import opened Options
  import opened Ordering
  import opened BuildPlan

  /** `b` is `a` or one of its providers, transitively. */
  ghost predicate Reaches(byId: Ids, a: string, b: string) { a == b || Above(byId, a, b) }

  /** In the `build_requires` closure of `roots`. */
  ghost predicate InClosure(byId: Ids, roots: seq<Comp>, d: string)
  {
    exists c :: c in roots && Reaches(byId, c.id, d)
  }

  ghost predicate Closed(byId: Ids, s: set<string>) { forall a, b :: a in s && Edge(byId, a, b) ==> b in s }

  lemma {:induction false} ClosedHoldsChains(byId: Ids, s: set<string>, p: seq<string>)
    requires Closed(byId, s) && p != [] && Chain(byId, p) && p[0] in s
    ensures p[|p| - 1] in s
  {
    if |p| > 1 {
      assert Edge(byId, p[0], p[1]);
      var q := p[1..];
      forall i | 0 <= i < |q| - 1 ensures Edge(byId, q[i], q[i + 1]) {
        assert Edge(byId, p[i + 1], p[i + 1 + 1]);
      }
      ClosedHoldsChains(byId, s, q);
    }
  }

  lemma {:induction false} ClosedHoldsReached(byId: Ids, s: set<string>, a: string, b: string)
    requires Closed(byId, s) && a in s && Reaches(byId, a, b)
    ensures b in s
  {
    if a != b {
      var p :| |p| > 1 && Chain(byId, p) && p[0] == a && p[|p| - 1] == b;
      ClosedHoldsChains(byId, s, p);
    }
  }

  function Known(needs: seq<string>, byId: Ids): (r: seq<Comp>)
    requires Keyed(byId)
    ensures forall c :: c in r <==> c.id in needs && c.id in byId && byId[c.id] == c
  {
    if needs == [] then []
    else
      assert needs == [needs[0]] + needs[1..];
      (if needs[0] in byId then [byId[needs[0]]] else []) + Known(needs[1..], byId)
  }

  /** `sorted(paths)` of a set. */
  method SortedPaths(paths: set<string>) returns (out: seq<string>)
    ensures forall x :: x in out <==> x in paths
    ensures forall i, k :: 0 <= i < k < |out| ==> TextLe(out[i], out[k]) && out[i] != out[k]
  {
    var todo := paths;
    var list: seq<string> := [];
    while todo != {}
      invariant todo <= paths && forall x :: x in list <==> x in paths && x !in todo
      invariant forall i, k :: 0 <= i < k < |list| ==> list[i] != list[k]
      decreases todo
    {
      var x :| x in todo;
      todo := todo - {x};
      list := list + [x];
    }
    out := SortBy(list, TextKey);
    SortKeepsMembers(list, TextKey);
    forall i, k | 0 <= i < k < |out| ensures TextLe(out[i], out[k]) && out[i] != out[k] {
      assert KeyLe(TextKey(out[i]), TextKey(out[k]));
      StillNoRepeats(list, out);
    }
  }

  /** The known ids of the closure. */
  ghost function ClosureOf(byId: Ids, roots: seq<Comp>): (g: set<string>)
    ensures forall d :: d in g <==> d in byId && InClosure(byId, roots, d)
  {
    set d | d in byId && InClosure(byId, roots, d)
  }

  lemma {:induction false} ClosureIsClosed(byId: Ids, roots: seq<Comp>)
    ensures Closed(byId, ClosureOf(byId, roots))
    ensures forall c :: c in roots && c.id in byId ==> c.id in ClosureOf(byId, roots)
  {
    var g := ClosureOf(byId, roots);
    forall a, b | a in g && Edge(byId, a, b) ensures b in g {
      var r :| r in roots && Reaches(byId, r.id, a);
      AboveStep(byId, r.id, a, b);
    }
    forall c | c in roots && c.id in byId ensures c.id in g {
      assert Reaches(byId, c.id, c.id);
    }
  }

  /** Every step stays inside `goal`, and what is not yet visited is still to do. */
  ghost predicate Worklist(byId: Ids, roots: set<string>, todo: set<string>, seen: set<string>, goal: set<string>)
  {
    todo <= goal && seen <= goal && roots <= seen + todo && goal <= byId.Keys && Closed(byId, goal) &&
    (forall a, b :: a in seen && Edge(byId, a, b) ==> b in seen || b in todo)
  }

  ghost predicate FromManifest(comps: seq<Comp>, byId: Ids)
  {
    forall i :: 0 <= i < |comps| ==> comps[i].id in byId && byId[comps[i].id] == comps[i]
  }

  function IdsOf(s: seq<Comp>): set<string> { set i | 0 <= i < |s| :: s[i].id }

  lemma {:induction false} IdsOfJoined(a: seq<Comp>, b: seq<Comp>, byId: Ids)
    ensures IdsOf(a + b) == IdsOf(a) + IdsOf(b)
    ensures FromManifest(a + b, byId) <==> FromManifest(a, byId) && FromManifest(b, byId)
  {
    forall i | 0 <= i < |a| ensures a[i].id in IdsOf(a + b) { assert (a + b)[i] == a[i]; }
    forall i | 0 <= i < |b| ensures b[i].id in IdsOf(a + b) { assert (a + b)[|a| + i] == b[i]; }
    if FromManifest(a + b, byId) {
      forall i | 0 <= i < |a| ensures a[i].id in byId && byId[a[i].id] == a[i] { assert (a + b)[i] == a[i]; }
      forall i | 0 <= i < |b| ensures b[i].id in byId && byId[b[i].id] == b[i] { assert (a + b)[|a| + i] == b[i]; }
    }
  }

  lemma {:induction false} Popped(todo: seq<Comp>, byId: Ids)
    requires todo != [] && FromManifest(todo, byId)
    ensures var c := todo[|todo| - 1];
      c.id in byId && byId[c.id] == c &&
      IdsOf(todo) == IdsOf(todo[..|todo| - 1]) + {c.id} && FromManifest(todo[..|todo| - 1], byId)
  {
    var c := todo[|todo| - 1];
    assert todo == todo[..|todo| - 1] + [c];
    IdsOfJoined(todo[..|todo| - 1], [c], byId);
    assert IdsOf([c]) == {c.id} by { assert [c][0].id in IdsOf([c]); }
  }

  lemma {:induction false} KnownIds(needs: seq<string>, byId: Ids)
    requires Keyed(byId)
    ensures IdsOf(Known(needs, byId)) == (set d | d in needs && d in byId) && FromManifest(Known(needs, byId), byId)
  {
    var k := Known(needs, byId);
    forall i | 0 <= i < |k| ensures k[i].id in needs && k[i].id in byId && byId[k[i].id] == k[i] {
      assert k[i] in k;
    }
    forall d | d in needs && d in byId ensures d in IdsOf(k) {
      assert byId[d] in k;
      var i :| 0 <= i < |k| && k[i] == byId[d];
    }
  }

  function SourcesOf(byId: Ids, ids: set<string>): set<string>
  {
    set d | d in ids && d in byId && byId[d].source.Some? :: byId[d].source.value
  }

  /** One component visited: its known providers join the work. */
  lemma {:induction false} Visit(byId: Ids, roots: set<string>, rest: set<string>, c: Comp, seen: set<string>,
                                 goal: set<string>)
    requires Keyed(byId) && Worklist(byId, roots, rest + {c.id}, seen, goal) && byId[c.id] == c
    ensures Worklist(byId, roots, rest + (set d | d in c.needs && d in byId), seen + {c.id}, goal)
    ensures SourcesOf(byId, seen + {c.id}) == SourcesOf(byId, seen) + if c.source.Some? then {c.source.value} else {}
  {
    forall d | d in c.needs && d in byId ensures d in goal {
      assert Edge(byId, c.id, d);
    }
  }

  /** What one turn of the loop keeps. */
  lemma {:induction false} VisitNext(byId: Ids, roots: set<string>, todo: seq<Comp>, seen: set<string>,
                                     goal: set<string>)
    requires Keyed(byId) && todo != [] && FromManifest(todo, byId) && Worklist(byId, roots, IdsOf(todo), seen, goal)
    ensures var c, rest := todo[|todo| - 1], todo[..|todo| - 1];
      c.id in byId &&
      if c.id in seen then FromManifest(rest, byId) && Worklist(byId, roots, IdsOf(rest), seen, goal)
      else
        FromManifest(rest + Known(c.needs, byId), byId) &&
        Worklist(byId, roots, IdsOf(rest + Known(c.needs, byId)), seen + {c.id}, goal) &&
        |byId.Keys - (seen + {c.id})| < |byId.Keys - seen| &&
        SourcesOf(byId, seen + {c.id}) == SourcesOf(byId, seen) + if c.source.Some? then {c.source.value} else {}
  {
    var c, rest := todo[|todo| - 1], todo[..|todo| - 1];
    Popped(todo, byId);
    if c.id !in seen {
      Visit(byId, roots, IdsOf(rest), c, seen, goal);
      KnownIds(c.needs, byId);
      IdsOfJoined(rest, Known(c.needs, byId), byId);
      Shrinks(byId.Keys, seen, c.id);
    }
  }

  lemma {:induction false} NothingSeenYet(byId: Ids, comps: seq<Comp>)
    requires Keyed(byId) && FromManifest(comps, byId)
    ensures Worklist(byId, IdsOf(comps), IdsOf(comps), {}, ClosureOf(byId, comps))
  {
    ClosureIsClosed(byId, comps);
  }

  lemma {:induction false} AllSeen(byId: Ids, comps: seq<Comp>, seen: set<string>)
    requires Worklist(byId, IdsOf(comps), {}, seen, ClosureOf(byId, comps))
    ensures seen == ClosureOf(byId, comps)
  {
    forall d | d in ClosureOf(byId, comps) ensures d in seen {
      var c :| c in comps && Reaches(byId, c.id, d);
      assert c.id in IdsOf(comps);
      ClosedHoldsReached(byId, seen, c.id, d);
    }
  }

  /** The worklist itself, inside any closed set `goal`. */
  method Collect(comps: seq<Comp>, byId: Ids, ghost goal: set<string>)
    returns (paths: set<string>, ghost seen: set<string>)
    requires Keyed(byId) && FromManifest(comps, byId) && Worklist(byId, IdsOf(comps), IdsOf(comps), {}, goal)
    ensures Worklist(byId, IdsOf(comps), {}, seen, goal) && paths == SourcesOf(byId, seen)
  {
    paths := {};
    var todo := comps;
    var visited: set<string> := {};
    while todo != []
      invariant FromManifest(todo, byId) && Worklist(byId, IdsOf(comps), IdsOf(todo), visited, goal)
      invariant paths == SourcesOf(byId, visited)
      decreases |byId.Keys - visited|, |todo|
    {
      var c := todo[|todo| - 1];
      VisitNext(byId, IdsOf(comps), todo, visited, goal);
      todo := todo[..|todo| - 1];
      if c.id !in visited {
        visited := visited + {c.id};
        if c.source.Some? {
          paths := paths + {c.source.value};
        }
        todo := todo + Known(c.needs, byId);
      }
    }
    seen := visited;
  }

  /** `lock_sources`: exactly the sources of the closure, cycles or not. */
  method LockSources(comps: seq<Comp>, byId: Ids) returns (out: seq<string>)
    requires Keyed(byId) && FromManifest(comps, byId)
    ensures forall s :: s in out <==> s in SourcesOf(byId, ClosureOf(byId, comps))
    ensures forall i, k :: 0 <= i < k < |out| ==> TextLe(out[i], out[k]) && out[i] != out[k]
  {
    NothingSeenYet(byId, comps);
    var paths, seen := Collect(comps, byId, ClosureOf(byId, comps));
    AllSeen(byId, comps, seen);
    out := SortedPaths(paths);
  }
}
