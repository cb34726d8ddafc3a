/**
 Which component is built when: ranks over `build_requires`, the stable order, and the parallel
 rounds of the console's build jobs (lhpc/core/build_plan.py:20-65).
 */
module BuildPlan {
  import opened Options
  import opened Ordering

  datatype Comp = Comp(id: string, needs: seq<string>, source: Option<string>, marker: bool)

  type Ids = map<string, Comp>

  predicate Keyed(byId: Ids) { forall d :: d in byId ==> byId[d].id == d }

  function ById(comps: seq<Comp>): (m: Ids)
    ensures Keyed(m) && forall d :: d in m ==> m[d] in comps
    ensures forall c :: c in comps ==> c.id in m
  {
    if comps == [] then map[] else ById(comps[..|comps| - 1])[comps[|comps| - 1].id := comps[|comps| - 1]]
  }

  predicate DistinctIds(comps: seq<Comp>) { forall i, k :: 0 <= i < k < |comps| ==> comps[i].id != comps[k].id }

  lemma {:induction false} ByIdFinds(comps: seq<Comp>, c: Comp)
    requires DistinctIds(comps) && c in comps
    ensures ById(comps)[c.id] == c
  {
    var last := |comps| - 1;
    if c != comps[last] {
      var k :| 0 <= k < |comps| && comps[k] == c;
      ByIdFinds(comps[..last], c);
    }
  }

  // --- ranks ----------------------------------------------------------------------------------------

  /** `_rank`: longest chain of providers below, cut where it meets itself. */
  function Rank(c: Comp, byId: Ids, seen: set<string>): nat
    requires Keyed(byId)
    decreases |byId.Keys - seen|, if c.id in byId then 0 else 2, 0
  {
    if c.id in seen then 0
    else
      assert c.id in byId ==> byId.Keys - (seen + {c.id}) < byId.Keys - seen by {
        assert c.id in byId ==> c.id in byId.Keys - seen && c.id !in byId.Keys - (seen + {c.id});
      }
      Shrinks(byId.Keys, seen, c.id);
      1 + Highest(c.needs, byId, seen + {c.id})
  }

  lemma Shrinks(keys: set<string>, seen: set<string>, id: string)
    ensures |keys - (seen + {id})| <= |keys - seen|
    ensures id in keys && id !in seen ==> |keys - (seen + {id})| < |keys - seen|
  {
    if id in keys && id !in seen {
      assert keys - seen == (keys - (seen + {id})) + {id};
    } else {
      assert keys - (seen + {id}) == keys - seen;
    }
  }

  /** The highest rank among the known providers, -1 without any. */
  function Highest(reqs: seq<string>, byId: Ids, seen: set<string>): (r: int)
    requires Keyed(byId)
    ensures -1 <= r
    ensures forall d :: d in reqs && d in byId ==> Rank(byId[d], byId, seen) <= r
    ensures r >= 0 ==> exists d :: d in reqs && d in byId && Rank(byId[d], byId, seen) == r
    decreases |byId.Keys - seen|, 1, |reqs|
  {
    if reqs == [] then -1
    else
      var rest := Highest(reqs[1..], byId, seen);
      assert forall d :: d in reqs <==> d == reqs[0] || d in reqs[1..];
      if reqs[0] in byId && Rank(byId[reqs[0]], byId, seen) > rest then Rank(byId[reqs[0]], byId, seen) else rest
  }

  function RankIn(c: Comp, comps: seq<Comp>): nat { Rank(c, ById(comps), {}) }

  // --- acyclic graphs ----------------------------------------------------------------------------------

  predicate Edge(byId: Ids, a: string, b: string) { a in byId && b in byId && b in byId[a].needs }

  predicate Chain(byId: Ids, p: seq<string>) { forall i :: 0 <= i < |p| - 1 ==> Edge(byId, p[i], p[i + 1]) }

  /** `b` is reached from `a` by at least one step. */
  ghost predicate Above(byId: Ids, a: string, b: string)
  {
    exists p :: |p| > 1 && Chain(byId, p) && p[0] == a && p[|p| - 1] == b
  }

  ghost predicate Acyclic(byId: Ids) { forall a :: !Above(byId, a, a) }

  lemma {:induction false} AboveStep(byId: Ids, a: string, b: string, c: string)
    requires (a == b || Above(byId, a, b)) && Edge(byId, b, c)
    ensures Above(byId, a, c)
  {
    var p := if a == b then [a] else var q :| |q| > 1 && Chain(byId, q) && q[0] == a && q[|q| - 1] == b; q;
    var q := p + [c];
    forall i | 0 <= i < |q| - 1 ensures Edge(byId, q[i], q[i + 1]) {
      if i + 1 < |p| { assert Edge(byId, p[i], p[i + 1]); }
    }
    assert Chain(byId, q) && |q| > 1 && q[0] == a && q[|q| - 1] == c;
  }

  /** On an acyclic graph the cut never happens: what was passed on the way down does not matter. */
  lemma {:induction false} SeenDoesNotMatter(c: Comp, byId: Ids, s: set<string>, t: set<string>)
    requires Keyed(byId) && Acyclic(byId) && c.id in byId && byId[c.id] == c
    requires forall x :: x in s || x in t ==> Above(byId, x, c.id)
    ensures Rank(c, byId, s) == Rank(c, byId, t)
    decreases |byId.Keys - s|
  {
    assert !Above(byId, c.id, c.id);
    Shrinks(byId.Keys, s, c.id);
    var s', t' := s + {c.id}, t + {c.id};
    forall d | d in c.needs && d in byId
      ensures Rank(byId[d], byId, s') == Rank(byId[d], byId, t')
    {
      forall x | x in s' || x in t' ensures Above(byId, x, d) {
        AboveStep(byId, x, c.id, d);
      }
      SeenDoesNotMatter(byId[d], byId, s', t');
    }
    var hs, ht := Highest(c.needs, byId, s'), Highest(c.needs, byId, t');
    assert hs <= ht && ht <= hs;
  }

  /** A provider ranks below its consumers. */
  lemma {:induction false} ProviderRanksLower(c: Comp, byId: Ids, d: string)
    requires Keyed(byId) && Acyclic(byId) && c.id in byId && byId[c.id] == c
    requires d in c.needs && d in byId
    ensures Rank(byId[d], byId, {}) < Rank(c, byId, {})
  {
    assert Edge(byId, c.id, d);
    AboveStep(byId, c.id, c.id, d);
    SeenDoesNotMatter(byId[d], byId, {}, {c.id});
    assert {} + {c.id} == {c.id};
    assert Rank(byId[d], byId, {c.id}) <= Highest(c.needs, byId, {c.id});
  }

  /** Only acyclic graphs can be ordered: a ranking that puts every provider lower rules a cycle out. */
  lemma {:induction false} RankedMeansAcyclic(byId: Ids, h: map<string, nat>)
    requires h.Keys == byId.Keys && forall a, b :: Edge(byId, a, b) ==> h[b] < h[a]
    ensures Acyclic(byId)
  {
    forall p | |p| > 1 && Chain(byId, p) ensures p[0] != p[|p| - 1] {
      Descends(byId, h, p);
    }
  }

  lemma {:induction false} Descends(byId: Ids, h: map<string, nat>, p: seq<string>)
    requires h.Keys == byId.Keys && forall a, b :: Edge(byId, a, b) ==> h[b] < h[a]
    requires |p| > 1 && Chain(byId, p)
    ensures p[0] in h && p[|p| - 1] in h && h[p[|p| - 1]] < h[p[0]]
  {
    assert Edge(byId, p[0], p[1]);
    if |p| > 2 {
      var q := p[1..];
      forall i | 0 <= i < |q| - 1 ensures Edge(byId, q[i], q[i + 1]) {
        assert Edge(byId, p[i + 1], p[i + 1 + 1]);
      }
      Descends(byId, h, q);
    }
  }

  // --- the order ------------------------------------------------------------------------------------------

  function RankKey(comps: seq<Comp>): Comp -> Key { (c: Comp) => [Num(RankIn(c, comps))] }

  /** `order`: sorted by rank, the rank counting only what is being built. */
  function Order(comps: seq<Comp>): (r: seq<Comp>)
    ensures multiset(r) == multiset(comps)
  {
    SortBy(comps, RankKey(comps))
  }

  lemma {:induction false} SortedByRank(comps: seq<Comp>, i: nat, k: nat)
    requires i < k < |Order(comps)|
    ensures RankIn(Order(comps)[i], comps) <= RankIn(Order(comps)[k], comps)
  {
    var key := RankKey(comps);
    assert KeyLe(key(Order(comps)[i]), key(Order(comps)[k]));
  }

  /** Every provider comes before its consumers. */
  lemma {:induction false} ProvidersFirst(comps: seq<Comp>, i: nat, k: nat)
    requires DistinctIds(comps) && Acyclic(ById(comps))
    requires i < |Order(comps)| && k < |Order(comps)| && Order(comps)[i].id in Order(comps)[k].needs
    ensures i < k
  {
    var d, c := Order(comps)[i], Order(comps)[k];
    SortKeepsMembers(comps, RankKey(comps));
    assert d in comps && c in comps;
    ByIdFinds(comps, d);
    ByIdFinds(comps, c);
    ProviderRanksLower(c, ById(comps), d.id);
    if k < i { SortedByRank(comps, k, i); }
  }

  /** Stable: components of one rank keep the order they came in. */
  lemma {:induction false} OrderIsStable(comps: seq<Comp>, n: nat)
    ensures WithKey(Order(comps), RankKey(comps), [Num(n)]) == WithKey(comps, RankKey(comps), [Num(n)])
  {
    SortIsStable(comps, RankKey(comps), [Num(n)]);
  }
}
