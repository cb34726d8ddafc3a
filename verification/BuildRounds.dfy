/**
 The console's parallel rounds: one round never holds a provider together with its consumer, and
 repeating successful rounds builds everything in one round per rank of unbuilt providers, plus
 one (lhpc/core/build_plan.py:54-65).
 */
module BuildRounds {
  import opened Collections
  import opened BuildPlan

  function Where(s: seq<Comp>, p: Comp -> bool): (r: seq<Comp>)
    ensures forall c :: c in r <==> c in s && p(c)
  {
    if s == [] then []
    else
      assert s == [s[0]] + s[1..];
      (if p(s[0]) then [s[0]] else []) + Where(s[1..], p)
  }

  function Providers(comps: seq<Comp>): set<string> { set c, d | c in comps && d in c.needs :: d }

  function Unbuilt(comps: seq<Comp>, built: set<string>): seq<Comp>
  {
    Where(comps, (c: Comp) => c.id in Providers(comps) && c.id !in built)
  }

  function Lowest(s: seq<Comp>, comps: seq<Comp>): (r: nat)
    requires s != []
    ensures forall c :: c in s ==> r <= RankIn(c, comps)
    ensures exists c :: c in s && r == RankIn(c, comps)
  {
    assert s == [s[0]] + s[1..];
    if |s| == 1 then RankIn(s[0], comps)
    else
      var rest := Lowest(s[1..], comps);
      if RankIn(s[0], comps) < rest then RankIn(s[0], comps) else rest
  }

  /** `web_round`: what this round builds, and whether another must follow. */
  function WebRound(comps: seq<Comp>, built: set<string>): (seq<Comp>, bool)
  {
    var unbuilt := Unbuilt(comps, built);
    if unbuilt != [] then
      var low := Lowest(unbuilt, comps);
      (Where(unbuilt, (c: Comp) => RankIn(c, comps) == low), true)
    else
      (Where(comps, (c: Comp) => c.id !in Providers(comps)), false)
  }

  /** Some selected component needs it. */
  ghost predicate IsProvider(comps: seq<Comp>, c: Comp) { exists x :: x in comps && c.id in x.needs }

  ghost predicate UnbuiltProvider(comps: seq<Comp>, built: set<string>, c: Comp)
  {
    c in comps && IsProvider(comps, c) && c.id !in built
  }

  lemma {:induction false} ProvidersAre(comps: seq<Comp>, built: set<string>, c: Comp)
    ensures c.id in Providers(comps) <==> IsProvider(comps, c)
    ensures c in Unbuilt(comps, built) <==> UnbuiltProvider(comps, built, c)
  {}

  lemma {:induction false} SomeUnbuilt(comps: seq<Comp>, built: set<string>)
    ensures Unbuilt(comps, built) != [] <==> exists d :: UnbuiltProvider(comps, built, d)
  {
    if Unbuilt(comps, built) != [] {
      assert Unbuilt(comps, built)[0] in Unbuilt(comps, built);
      ProvidersAre(comps, built, Unbuilt(comps, built)[0]);
    }
    if d :| UnbuiltProvider(comps, built, d) { ProvidersAre(comps, built, d); }
  }

  lemma {:induction false} LowestOf(comps: seq<Comp>, unbuilt: seq<Comp>, c: Comp)
    requires unbuilt != [] && c in unbuilt
    ensures RankIn(c, comps) == Lowest(unbuilt, comps) <==>
      forall d :: d in unbuilt ==> RankIn(c, comps) <= RankIn(d, comps)
  {}

  /**
   What a round holds: while a provider is unbuilt, the unbuilt providers that none ranks below; then, built or
   not, every component that is no provider, and nothing follows. A built provider is in no round.
   */
  lemma {:induction false} RoundHoldsExactly(comps: seq<Comp>, built: set<string>, c: Comp)
    ensures var (round, again) := WebRound(comps, built);
      (again <==> exists d :: UnbuiltProvider(comps, built, d)) &&
      (c in round <==>
         if again then
           UnbuiltProvider(comps, built, c) &&
           forall d :: UnbuiltProvider(comps, built, d) ==> RankIn(c, comps) <= RankIn(d, comps)
         else c in comps && !IsProvider(comps, c))
  {
    SomeUnbuilt(comps, built);
    forall d ensures d in Unbuilt(comps, built) <==> UnbuiltProvider(comps, built, d) {
      ProvidersAre(comps, built, d);
    }
    ProvidersAre(comps, built, c);
    if c in Unbuilt(comps, built) { LowestOf(comps, Unbuilt(comps, built), c); }
  }

  /** Where the `i`-th that is kept stood before: in the same order. */
  lemma {:induction false} WhereKeepsOrder(s: seq<Comp>, p: Comp -> bool, i: nat, k: nat) returns (a: nat, b: nat)
    requires i < k < |Where(s, p)|
    ensures a < b < |s| && s[a] == Where(s, p)[i] && s[b] == Where(s, p)[k]
  {
    var rest := Where(s[1..], p);
    if p(s[0]) {
      assert Where(s, p) == [s[0]] + rest;
      if i == 0 {
        b := Standing(s[1..], p, k - 1);
        a, b := 0, b + 1;
      } else {
        a, b := WhereKeepsOrder(s[1..], p, i - 1, k - 1);
        a, b := a + 1, b + 1;
      }
    } else {
      assert Where(s, p) == rest;
      a, b := WhereKeepsOrder(s[1..], p, i, k);
      a, b := a + 1, b + 1;
    }
  }

  lemma {:induction false} Standing(s: seq<Comp>, p: Comp -> bool, i: nat) returns (a: nat)
    requires i < |Where(s, p)|
    ensures a < |s| && s[a] == Where(s, p)[i]
  {
    assert Where(s, p)[i] in Where(s, p);
    a :| a < |s| && s[a] == Where(s, p)[i];
  }

  /** A round keeps the order of the plan. */
  lemma {:induction false} RoundKeepsOrder(comps: seq<Comp>, built: set<string>, i: nat, k: nat)
    returns (a: nat, b: nat)
    requires i < k < |WebRound(comps, built).0|
    ensures a < b < |comps| && comps[a] == WebRound(comps, built).0[i] && comps[b] == WebRound(comps, built).0[k]
  {
    var unbuilt := Unbuilt(comps, built);
    if unbuilt != [] {
      var low := Lowest(unbuilt, comps);
      a, b := WhereKeepsOrder(unbuilt, (c: Comp) => RankIn(c, comps) == low, i, k);
      a, b := WhereKeepsOrder(comps, (c: Comp) => c.id in Providers(comps) && c.id !in built, a, b);
    } else {
      a, b := WhereKeepsOrder(comps, (c: Comp) => c.id !in Providers(comps), i, k);
    }
  }

  /** Every provider of a round's component that is in the plan is built already. */
  lemma {:induction false} RoundIsReady(comps: seq<Comp>, built: set<string>, c: Comp, d: string)
    requires DistinctIds(comps) && Acyclic(ById(comps))
    requires c in WebRound(comps, built).0 && d in c.needs && d in ById(comps)
    ensures d in built
  {
    var provider := ById(comps)[d];
    assert provider in comps && provider.id == d;
    assert d in Providers(comps);
    if d !in built {
      assert provider in Unbuilt(comps, built);
      ByIdFinds(comps, c);
      ProviderRanksLower(c, ById(comps), d);
    }
  }

  /** A provider and its consumer never build in the same round. */
  lemma {:induction false} RoundIsApart(comps: seq<Comp>, built: set<string>, c: Comp, d: Comp)
    requires DistinctIds(comps) && Acyclic(ById(comps))
    requires c in WebRound(comps, built).0 && d in WebRound(comps, built).0
    ensures d.id !in c.needs
  {
    if d.id in c.needs {
      assert d in comps && d.id in Providers(comps);
      RoundIsReady(comps, built, c, d.id);
    }
  }

  function IdsOf(s: seq<Comp>): set<string> { set c | c in s :: c.id }

  function RanksOf(s: seq<Comp>, comps: seq<Comp>): set<nat> { set c | c in s :: RankIn(c, comps) }

  function RanksLeft(comps: seq<Comp>, built: set<string>): set<nat> { RanksOf(Unbuilt(comps, built), comps) }

  function ProviderRanks(comps: seq<Comp>): set<nat>
  {
    RanksOf(Where(comps, (c: Comp) => c.id in Providers(comps)), comps)
  }

  lemma {:induction false} StillUnbuilt(comps: seq<Comp>, built: set<string>, c: Comp)
    requires DistinctIds(comps) && WebRound(comps, built).1
    ensures var low := Lowest(Unbuilt(comps, built), comps);
      c in Unbuilt(comps, built + IdsOf(WebRound(comps, built).0)) <==>
      c in Unbuilt(comps, built) && RankIn(c, comps) != low
  {
    var round := WebRound(comps, built).0;
    if c in Unbuilt(comps, built) && c.id in IdsOf(round) {
      var r :| r in round && r.id == c.id;
      ByIdFinds(comps, c);
      ByIdFinds(comps, r);
    }
  }

  lemma {:induction false} OneRankLess(after: seq<Comp>, before: seq<Comp>, low: nat, comps: seq<Comp>)
    requires forall c :: c in after <==> c in before && RankIn(c, comps) != low
    ensures RanksOf(after, comps) == RanksOf(before, comps) - {low}
  {
    forall c | c in before && RankIn(c, comps) != low ensures RankIn(c, comps) in RanksOf(after, comps) {
      assert c in after;
    }
  }

  /** A round that another must follow finishes exactly one rank of providers. */
  lemma {:induction false} RoundFinishesARank(comps: seq<Comp>, built: set<string>)
    requires DistinctIds(comps) && WebRound(comps, built).1
    ensures var low := Lowest(Unbuilt(comps, built), comps);
      low in RanksLeft(comps, built) &&
      RanksLeft(comps, built + IdsOf(WebRound(comps, built).0)) == RanksLeft(comps, built) - {low}
  {
    var before := Unbuilt(comps, built);
    var after := Unbuilt(comps, built + IdsOf(WebRound(comps, built).0));
    forall c ensures c in after <==> c in before && RankIn(c, comps) != Lowest(before, comps) {
      StillUnbuilt(comps, built, c);
    }
    OneRankLess(after, before, Lowest(before, comps), comps);
  }

  lemma {:induction false} OneFewer(s: set<nat>, x: nat)
    requires x in s
    ensures |s| == |s - {x}| + 1
  {
    assert s == (s - {x}) + {x};
  }

  /** One rank less after every round but the last. */
  lemma {:induction false} RanksGoDown(comps: seq<Comp>, built: set<string>)
    requires DistinctIds(comps)
    ensures var (round, again) := WebRound(comps, built);
      if again then |RanksLeft(comps, built)| == |RanksLeft(comps, built + IdsOf(round))| + 1
      else RanksLeft(comps, built) == {}
  {
    if WebRound(comps, built).1 {
      RoundFinishesARank(comps, built);
      OneFewer(RanksLeft(comps, built), Lowest(Unbuilt(comps, built), comps));
    }
  }

  /** How many rounds in a row it takes, every round succeeding, and what is built then. */
  function Repeated(comps: seq<Comp>, built: set<string>): (nat, set<string>)
    requires DistinctIds(comps)
    decreases |RanksLeft(comps, built)|
  {
    RanksGoDown(comps, built);
    var (round, again) := WebRound(comps, built);
    if again then
      var (n, done) := Repeated(comps, built + IdsOf(round));
      (n + 1, done)
    else (1, built + IdsOf(round))
  }

  lemma {:induction false} LastRound(comps: seq<Comp>, built: set<string>)
    requires !WebRound(comps, built).1
    ensures IdsOf(comps) <= built + IdsOf(WebRound(comps, built).0)
  {
    forall c | c in comps ensures c.id in built + IdsOf(WebRound(comps, built).0) {
      if c.id in Providers(comps) {
        assert c !in Unbuilt(comps, built);
      } else {
        assert c in WebRound(comps, built).0;
      }
    }
  }

  lemma {:induction false} OneRoundPerRank(comps: seq<Comp>, built: set<string>)
    requires DistinctIds(comps)
    ensures Repeated(comps, built).0 == |RanksLeft(comps, built)| + 1
    ensures built + IdsOf(comps) <= Repeated(comps, built).1
    decreases |RanksLeft(comps, built)|
  {
    RanksGoDown(comps, built);
    var (round, again) := WebRound(comps, built);
    if again {
      OneRoundPerRank(comps, built + IdsOf(round));
    } else {
      LastRound(comps, built);
    }
  }

  /** The bound: one more than the number of distinct provider ranks. */
  lemma {:induction false} RoundsAreBounded(comps: seq<Comp>, built: set<string>)
    requires DistinctIds(comps)
    ensures Repeated(comps, built).0 <= |ProviderRanks(comps)| + 1
  {
    OneRoundPerRank(comps, built);
    SubsetSize(RanksLeft(comps, built), ProviderRanks(comps));
  }
}
