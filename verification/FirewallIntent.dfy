/**
 The canonical intent (`canonical_intent`, `_intent_hash_of`) as the candidate it serialises:
 it identifies the resolved model, and it does not see the order of the candidate's lists.
 */
module FirewallIntent {
  import opened Ordering
  import opened FirewallModel

  function NormEndpoint(e: Endpoint): Endpoint { e.(cidrs := SortCidrs(e.cidrs)) }
  function NormGrant(g: Grant): Grant { g.(cidrs := SortCidrs(g.cidrs)) }

  function MapSeq<T, U>(f: T -> U, s: seq<T>): (r: seq<U>)
    ensures |r| == |s|
    ensures forall i :: 0 <= i < |s| ==> r[i] == f(s[i])
  {
    if s == [] then [] else [f(s[0])] + MapSeq(f, s[1..])
  }

  function PortKey(p: int): Key { [Num(p)] }

  function Dedup(s: seq<int>): seq<int>
  {
    if |s| < 2 then s else if s[0] == s[1] then Dedup(s[1..]) else [s[0]] + Dedup(s[1..])
  }

  /** `sorted(set(ports))`. */
  function SortPorts(ps: seq<int>): seq<int> { Dedup(SortBy(ps, PortKey)) }

  function Canonical(c: Candidate): Candidate
  {
    c.(endpoints := SortEndpoints(MapSeq(NormEndpoint, c.endpoints)),
       ingress := MapSeq(NormGrant, SortGrants(c.ingress)),
       sshPorts := SortPorts(c.sshPorts),
       extra := SortExtra(c.extra))
  }

  method NormaliseInPlace<T>(entries: seq<T>, f: T -> T) returns (out: seq<T>)
    ensures out == MapSeq(f, entries)
  {
    out := entries;
    for i := 0 to |out|
      invariant |out| == |entries|
      invariant forall j :: 0 <= j < i ==> out[j] == f(entries[j])
      invariant forall j :: i <= j < |out| ==> out[j] == entries[j]
    {
      out := out[i := f(out[i])];
    }
  }

  /** The copy's fields are normalised one after the other, its entries in place. */
  method CanonicalIntent(cand: Candidate) returns (c: Candidate)
    ensures c == Canonical(cand)
  {
    c := cand;
    var eps := NormaliseInPlace(c.endpoints, NormEndpoint);
    c := c.(endpoints := SortEndpoints(eps));
    var ingress := NormaliseInPlace(SortGrants(c.ingress), NormGrant);
    c := c.(ingress := ingress);
    c := c.(sshPorts := SortPorts(c.sshPorts));
    c := c.(extra := SortExtra(c.extra));
  }

  // --- sorting commutes with what resolution does to the lists -------------------------------

  lemma {:induction false} InsertMaps<T(!new)>(x: T, s: seq<T>, f: T -> T, key: T -> Key)
    requires forall y :: key(f(y)) == key(y)
    ensures MapSeq(f, Insert(x, s, key)) == Insert(f(x), MapSeq(f, s), key)
  {
    if s != [] {
      assert MapSeq(f, s)[1..] == MapSeq(f, s[1..]);
      InsertMaps(x, s[1..], f, key);
    }
  }

  lemma {:induction false} SortMaps<T(!new)>(s: seq<T>, f: T -> T, key: T -> Key)
    requires forall y :: key(f(y)) == key(y)
    ensures MapSeq(f, SortBy(s, key)) == SortBy(MapSeq(f, s), key)
  {
    if s != [] {
      SortMaps(s[1..], f, key);
      assert MapSeq(f, s)[1..] == MapSeq(f, s[1..]);
      InsertMaps(s[0], SortBy(s[1..], key), f, key);
    }
  }

  function Filter<T>(s: seq<T>, keep: T -> bool): seq<T>
  {
    if s == [] then [] else (if keep(s[0]) then [s[0]] else []) + Filter(s[1..], keep)
  }

  lemma {:induction false} FilterHeadIsLater<T(!new)>(s: seq<T>, x: T, keep: T -> bool, key: T -> Key)
    requires forall i :: 0 <= i < |s| ==> KeyLe(key(x), key(s[i]))
    ensures Insert(x, Filter(s, keep), key) == [x] + Filter(s, keep)
  {
    if s != [] && !keep(s[0]) {
      FilterHeadIsLater(s[1..], x, keep, key);
      assert Filter(s, keep) == Filter(s[1..], keep);
    }
  }

  lemma {:induction false} InsertFilters<T(!new)>(x: T, s: seq<T>, keep: T -> bool, key: T -> Key)
    requires Sorted(s, key)
    ensures Filter(Insert(x, s, key), keep) ==
      if keep(x) then Insert(x, Filter(s, keep), key) else Filter(s, keep)
  {
    if s == [] {
      assert [x][1..] == [];
    } else if KeyLe(key(x), key(s[0])) {
      assert ([x] + s)[1..] == s;
      forall i | 0 <= i < |s| ensures KeyLe(key(x), key(s[i])) {
        if i > 0 { KeyTransitive(key(x), key(s[0]), key(s[i])); }
      }
      if keep(x) {
        FilterHeadIsLater(s, x, keep, key);
      }
    } else {
      InsertFilters(x, s[1..], keep, key);
      var t := Insert(x, s[1..], key);
      assert ([s[0]] + t)[1..] == t;
      if keep(s[0]) && keep(x) {
        assert Filter(s, keep)[1..] == Filter(s[1..], keep);
      } else if !keep(s[0]) {
        assert Filter(s, keep) == Filter(s[1..], keep);
        assert Filter([s[0]] + t, keep) == Filter(t, keep);
      }
    }
  }

  lemma {:induction false} SortFilters<T(!new)>(s: seq<T>, keep: T -> bool, key: T -> Key)
    ensures Filter(SortBy(s, key), keep) == SortBy(Filter(s, keep), key)
  {
    if s != [] {
      SortFilters(s[1..], keep, key);
      InsertFilters(s[0], SortBy(s[1..], key), keep, key);
      if keep(s[0]) {
        assert Filter(s, keep)[1..] == Filter(s[1..], keep);
      } else {
        assert Filter(s, keep) == Filter(s[1..], keep);
      }
    }
  }

  lemma {:induction false} DroppableFilters(c: Candidate, es: seq<Endpoint>)
    ensures DroppableOf(c, es) == Filter(es, e => Droppable(c, e))
    ensures SelectedOf(es) == Filter(es, (e: Endpoint) => e.selected)
  {
    if es != [] { DroppableFilters(c, es[1..]); }
  }

  lemma {:induction false} FilterMaps<T(!new)>(s: seq<T>, f: T -> T, keep: T -> bool)
    requires forall y :: keep(f(y)) == keep(y)
    ensures Filter(MapSeq(f, s), keep) == MapSeq(f, Filter(s, keep))
  {
    if s != [] {
      FilterMaps(s[1..], f, keep);
      assert MapSeq(f, s)[1..] == MapSeq(f, s[1..]);
      if keep(s[0]) {
        assert MapSeq(f, Filter(s, keep))[1..] == MapSeq(f, Filter(s[1..], keep));
      } else {
        assert Filter(s, keep) == Filter(s[1..], keep);
        assert Filter(MapSeq(f, s), keep) == Filter(MapSeq(f, s[1..]), keep);
      }
    }
  }

  // --- normalised entries resolve alike ------------------------------------------------------

  lemma {:induction false} NormalSourcesExpandAlike(s: Scope, cidrs: seq<Cidr>)
    ensures SortCidrs(SortCidrs(cidrs)) == SortCidrs(cidrs)
    ensures AllowRules(s, SortCidrs(cidrs)) == AllowRules(s, cidrs)
  {
    SortOfSorted(SortCidrs(cidrs), CidrKey);
    SortKeepsMembers(cidrs, CidrKey);
  }

  lemma {:induction false} NormalEndpointsResolveAlike(es: seq<Endpoint>, dropped: set<Scope>,
                                                       allowed: set<(Scope, seq<Cidr>)>)
    ensures EndpointDrops(MapSeq(NormEndpoint, es), dropped) == EndpointDrops(es, dropped)
    ensures EndpointAllows(MapSeq(NormEndpoint, es), allowed) == EndpointAllows(es, allowed)
  {
    if es != [] {
      var e := es[0];
      assert MapSeq(NormEndpoint, es)[1..] == MapSeq(NormEndpoint, es[1..]);
      NormalSourcesExpandAlike(e.scope, e.cidrs);
      NormalEndpointsResolveAlike(es[1..], dropped + {e.scope},
                                  allowed + {(e.scope, SortCidrs(e.cidrs))});
      NormalEndpointsResolveAlike(es[1..], dropped, allowed);
    }
  }

  lemma {:induction false} NormalGrantsResolveAlike(gs: seq<Grant>)
    ensures GrantAllows(MapSeq(NormGrant, gs)) == GrantAllows(gs)
  {
    if gs != [] {
      assert MapSeq(NormGrant, gs)[1..] == MapSeq(NormGrant, gs[1..]);
      NormalSourcesExpandAlike(gs[0].scope, gs[0].cidrs);
      NormalGrantsResolveAlike(gs[1..]);
    }
  }

  lemma {:induction false} CanonicalEndpointRun(es: seq<Endpoint>, keep: Endpoint -> bool)
    requires forall e :: keep(NormEndpoint(e)) == keep(e)
    ensures SortEndpoints(Filter(SortEndpoints(MapSeq(NormEndpoint, es)), keep)) ==
      MapSeq(NormEndpoint, SortEndpoints(Filter(es, keep)))
  {
    var m := MapSeq(NormEndpoint, es);
    SortFilters(m, keep, EndpointKey);
    SortOfSorted(SortEndpoints(Filter(m, keep)), EndpointKey);
    FilterMaps(es, NormEndpoint, keep);
    SortMaps(Filter(es, keep), NormEndpoint, EndpointKey);
  }

  lemma {:induction false} CanonicalEndpoints(c: Candidate)
    ensures EndpointDrops(SortEndpoints(DroppableOf(Canonical(c), Canonical(c).endpoints)), {}) ==
      EndpointDrops(SortEndpoints(DroppableOf(c, c.endpoints)), {})
    ensures EndpointAllows(SortEndpoints(SelectedOf(Canonical(c).endpoints)), {}) ==
      EndpointAllows(SortEndpoints(SelectedOf(c.endpoints)), {})
  {
    var eps := Canonical(c).endpoints;
    var droppable := (e: Endpoint) => Droppable(c, e);
    var selected := (e: Endpoint) => e.selected;
    DroppableFilters(c, c.endpoints);
    DroppableFilters(c, eps);
    DroppableSame(c, Canonical(c), eps);
    CanonicalEndpointRun(c.endpoints, droppable);
    CanonicalEndpointRun(c.endpoints, selected);
    NormalEndpointsResolveAlike(SortEndpoints(Filter(c.endpoints, droppable)), {}, {});
    NormalEndpointsResolveAlike(SortEndpoints(Filter(c.endpoints, selected)), {}, {});
  }

  lemma {:induction false} DroppableSame(c: Candidate, d: Candidate, es: seq<Endpoint>)
    requires c.mode == d.mode
    ensures DroppableOf(c, es) == DroppableOf(d, es)
  {
    if es != [] { DroppableSame(c, d, es[1..]); }
  }

  lemma {:induction false} CanonicalLists(c: Candidate)
    ensures GrantAllows(SortGrants(Canonical(c).ingress)) == GrantAllows(SortGrants(c.ingress))
    ensures SortExtra(Canonical(c).extra) == SortExtra(c.extra)
  {
    SortMaps(c.ingress, NormGrant, GrantKey);
    SortOfSorted(SortGrants(MapSeq(NormGrant, c.ingress)), GrantKey);
    NormalGrantsResolveAlike(SortGrants(c.ingress));
    SortOfSorted(SortExtra(c.extra), ExtraKey);
  }

  /** The canonical form resolves to the rule list of the candidate itself. */
  lemma {:induction false} CanonicalResolvesAlike(c: Candidate, owner: string, ssh: seq<Grant>,
                                                  allow: seq<Grant>, drop: seq<Grant>)
    ensures Resolved(Canonical(c), owner, ssh, allow, drop) == Resolved(c, owner, ssh, allow, drop)
  {
    CanonicalEndpoints(c);
    CanonicalLists(c);
    assert EarlyDrops(Canonical(c), drop) == EarlyDrops(c, drop);
    assert Allows(Canonical(c), ssh, allow) == Allows(c, ssh, allow);
  }

  /** Equal intent, equal rule list: the intent hash identifies the accepted model. */
  lemma {:induction false} IntentIdentifiesTheModel(a: Candidate, b: Candidate, owner: string,
      ssh: seq<Grant>, allow: seq<Grant>, drop: seq<Grant>)
    requires Canonical(a) == Canonical(b)
    ensures Resolved(a, owner, ssh, allow, drop) == Resolved(b, owner, ssh, allow, drop)
  {
    CanonicalResolvesAlike(a, owner, ssh, allow, drop);
    CanonicalResolvesAlike(b, owner, ssh, allow, drop);
  }

  // --- order carries no meaning ---------------------------------------------------------------

  /** The same entries up to the order of every list, the nested CIDR lists included. */
  ghost predicate SameUpToOrder(a: Candidate, b: Candidate)
  {
    a.schema == b.schema && a.mode == b.mode && a.ap == b.ap &&
    multiset(MapSeq(NormEndpoint, a.endpoints)) == multiset(MapSeq(NormEndpoint, b.endpoints)) &&
    multiset(MapSeq(NormGrant, a.ingress)) == multiset(MapSeq(NormGrant, b.ingress)) &&
    multiset(a.sshPorts) == multiset(b.sshPorts) && multiset(a.extra) == multiset(b.extra)
  }

  /** Same key, same sources: no two ingress entries of one scope differ. */
  ghost predicate IngressApart(gs: seq<Grant>) { KeyedApart(MapSeq(NormGrant, gs), GrantKey) }

  lemma {:induction false} ScopeKeyTellsApart(a: Scope, b: Scope)
    requires ScopeKey(a) == ScopeKey(b)
    ensures a == b
  {
    var k, l := ScopeKey(a), ScopeKey(b);
    assert k[0] == l[0] && k[1] == l[1] && k[2] == l[2] && k[3] == l[3] && k[4] == l[4] && k[5] == l[5];
  }

  lemma {:induction false} CidrKeyTellsApart(a: Cidr, b: Cidr)
    requires CidrKey(a) == CidrKey(b)
    ensures a == b
  {
    var k, l := CidrKey(a), CidrKey(b);
    assert k[0] == l[0];
    if a.Net? {
      assert k[1] == l[1] && k[2] == l[2] && k[3] == l[3];
    }
  }

  lemma {:induction false} ExtraKeyTellsApart(a: Extra, b: Extra)
    requires ExtraKey(a) == ExtraKey(b)
    ensures a == b
  {
    assert ScopeKey(a.scope) == ExtraKey(a)[..6] && ScopeKey(b.scope) == ExtraKey(b)[..6];
    assert CidrKey(a.cidr) == ExtraKey(a)[6..] && CidrKey(b.cidr) == ExtraKey(b)[6..];
    ScopeKeyTellsApart(a.scope, b.scope);
    CidrKeyTellsApart(a.cidr, b.cidr);
  }

  lemma {:induction false} EndpointKeyTells(a: Endpoint, b: Endpoint)
    requires EndpointKey(a) == EndpointKey(b)
    ensures (a.id, a.band) == (b.id, b.band)
  {
    assert EndpointKey(a)[0] == EndpointKey(b)[0] && EndpointKey(a)[1] == EndpointKey(b)[1];
  }

  lemma {:induction false} DistinctIdsKeyedApart(es: seq<Endpoint>)
    requires DistinctIds(es)
    ensures KeyedApart(MapSeq(NormEndpoint, es), EndpointKey)
  {
    if !KeyedApart(MapSeq(NormEndpoint, es), EndpointKey) {
      var i, k := DifferAt(MapSeq(NormEndpoint, es), EndpointKey);
      EndpointKeyTells(es[i], es[k]);
    }
  }

  /** Reordering any list leaves the canonical intent alone when the ingress scopes are apart. */
  lemma {:induction false} IntentIgnoresOrder(a: Candidate, b: Candidate)
    requires SameUpToOrder(a, b)
    requires DistinctIds(a.endpoints) && IngressApart(a.ingress)
    ensures Canonical(a) == Canonical(b)
  {
    DistinctIdsKeyedApart(a.endpoints);
    SortIgnoresOrder(MapSeq(NormEndpoint, a.endpoints), MapSeq(NormEndpoint, b.endpoints), EndpointKey);
    SortMaps(a.ingress, NormGrant, GrantKey);
    SortMaps(b.ingress, NormGrant, GrantKey);
    SortIgnoresOrder(MapSeq(NormGrant, a.ingress), MapSeq(NormGrant, b.ingress), GrantKey);
    assert KeyedApart(a.sshPorts, PortKey) by {
      assert forall x, y :: PortKey(x) == PortKey(y) ==> PortKey(x)[0] == PortKey(y)[0];
    }
    SortIgnoresOrder(a.sshPorts, b.sshPorts, PortKey);
    assert KeyedApart(a.extra, ExtraKey) by {
      forall x, y | ExtraKey(x) == ExtraKey(y) { ExtraKeyTellsApart(x, y); }
    }
    SortIgnoresOrder(a.extra, b.extra, ExtraKey);
  }

  lemma {:induction false} EqualKeysKeepTheirOrder<T(!new)>(x: T, y: T, s: seq<T>, key: T -> Key)
    requires key(x) == key(y) && x != y
    ensures Insert(x, Insert(y, s, key), key) != Insert(y, Insert(x, s, key), key)
  {
    KeyOrder(key(x), key(y));
    if s == [] || KeyLe(key(y), key(s[0])) {
      assert Insert(x, Insert(y, s, key), key)[0] == x && Insert(y, Insert(x, s, key), key)[0] == y;
    } else {
      EqualKeysKeepTheirOrder(x, y, s[1..], key);
      var a, b := Insert(y, s[1..], key), Insert(x, s[1..], key);
      assert ([s[0]] + a)[1..] == a && ([s[0]] + b)[1..] == b;
      assert Insert(x, [s[0]] + a, key)[1..] == Insert(x, a, key);
      assert Insert(y, [s[0]] + b, key)[1..] == Insert(y, b, key);
    }
  }

  /** ... and only then: two differing entries of one scope show their order in the intent. */
  lemma {:induction false} IngressOrderShows(c: Candidate, x: Grant, y: Grant, rest: seq<Grant>)
    requires x.scope == y.scope && NormGrant(x) != NormGrant(y)
    ensures Canonical(c.(ingress := [x, y] + rest)) != Canonical(c.(ingress := [y, x] + rest))
  {
    var a, b := [x, y] + rest, [y, x] + rest;
    SortMaps(a, NormGrant, GrantKey);
    SortMaps(b, NormGrant, GrantKey);
    var t := SortGrants(MapSeq(NormGrant, rest));
    assert MapSeq(NormGrant, a)[1..][1..] == MapSeq(NormGrant, rest);
    assert MapSeq(NormGrant, b)[1..][1..] == MapSeq(NormGrant, rest);
    assert SortGrants(MapSeq(NormGrant, a)) == Insert(NormGrant(x), Insert(NormGrant(y), t, GrantKey), GrantKey);
    assert SortGrants(MapSeq(NormGrant, b)) == Insert(NormGrant(y), Insert(NormGrant(x), t, GrantKey), GrantKey);
    EqualKeysKeepTheirOrder(NormGrant(x), NormGrant(y), t, GrantKey);
    assert Canonical(c.(ingress := a)).ingress != Canonical(c.(ingress := b)).ingress;
  }

  function Without<T>(s: seq<T>, i: nat, k: nat): seq<T>
    requires i < k < |s|
  {
    s[..i] + s[i + 1..k] + s[k + 1..]
  }

  lemma {:induction false} PulledApart<T>(a: seq<T>, x: T, b: seq<T>, y: T, c: seq<T>)
    ensures multiset([x, y] + (a + b + c)) == multiset(a + ([x] + (b + ([y] + c))))
    ensures multiset([y, x] + (a + b + c)) == multiset(a + ([x] + (b + ([y] + c))))
  {}

  lemma {:induction false} PulledToTheFront<T>(s: seq<T>, i: nat, k: nat)
    requires i < k < |s|
    ensures multiset([s[i], s[k]] + Without(s, i, k)) == multiset([s[k], s[i]] + Without(s, i, k)) == multiset(s)
  {
    assert s == s[..i] + ([s[i]] + (s[i + 1..k] + ([s[k]] + s[k + 1..])));
    PulledApart(s[..i], s[i], s[i + 1..k], s[k], s[k + 1..]);
  }

  lemma {:induction false} WithoutMaps<T, U>(s: seq<T>, f: T -> U, i: nat, k: nat)
    requires i < k < |s|
    ensures MapSeq(f, Without(s, i, k)) == Without(MapSeq(f, s), i, k)
  {}

  lemma {:induction false} FrontMaps<T, U>(x: T, y: T, rest: seq<T>, f: T -> U)
    ensures MapSeq(f, [x, y] + rest) == [f(x), f(y)] + MapSeq(f, rest)
  {}

  /** Pulling two ingress entries to the front, either way round, is a reordering. */
  lemma {:induction false} FrontIsReordering(a: Candidate, i: nat, k: nat)
    requires i < k < |a.ingress|
    ensures var x, y, rest := a.ingress[i], a.ingress[k], Without(a.ingress, i, k);
      SameUpToOrder(a, a.(ingress := [x, y] + rest)) && SameUpToOrder(a, a.(ingress := [y, x] + rest))
  {
    var x, y, rest := a.ingress[i], a.ingress[k], Without(a.ingress, i, k);
    WithoutMaps(a.ingress, NormGrant, i, k);
    FrontMaps(x, y, rest, NormGrant);
    FrontMaps(y, x, rest, NormGrant);
    PulledToTheFront(MapSeq(NormGrant, a.ingress), i, k);
  }

  lemma {:induction false} DifferAt<T(!new)>(s: seq<T>, key: T -> Key) returns (i: nat, k: nat)
    requires !KeyedApart(s, key)
    ensures i < k < |s| && key(s[i]) == key(s[k]) && s[i] != s[k]
  {
    var g, h :| g in s && h in s && key(g) == key(h) && g != h;
    var x :| 0 <= x < |s| && s[x] == g;
    var y :| 0 <= y < |s| && s[y] == h;
    i, k := if x < y then x else y, if x < y then y else x;
  }

  lemma {:induction false} TwoDiffer(gs: seq<Grant>) returns (i: nat, k: nat)
    requires !IngressApart(gs)
    ensures i < k < |gs| && gs[i].scope == gs[k].scope && NormGrant(gs[i]) != NormGrant(gs[k])
  {
    i, k := DifferAt(MapSeq(NormGrant, gs), GrantKey);
    ScopeKeyTellsApart(gs[i].scope, gs[k].scope);
  }

  /** Two entries of one scope that differ: some reordering has another intent. */
  lemma {:induction false} SomeOrderShows(a: Candidate, i: nat, k: nat) returns (b: Candidate)
    requires i < k < |a.ingress| && a.ingress[i].scope == a.ingress[k].scope
    requires NormGrant(a.ingress[i]) != NormGrant(a.ingress[k])
    ensures SameUpToOrder(a, b) && Canonical(a) != Canonical(b)
  {
    var x, y, rest := a.ingress[i], a.ingress[k], Without(a.ingress, i, k);
    FrontIsReordering(a, i, k);
    IngressOrderShows(a, x, y, rest);
    b := if Canonical(a.(ingress := [x, y] + rest)) == Canonical(a) then a.(ingress := [y, x] + rest)
         else a.(ingress := [x, y] + rest);
  }

  /**
   Order carries no meaning in the intent exactly when no two ingress entries of one scope differ in their
   sources.
   */
  lemma {:induction false} OrderIsMeaninglessExactly(a: Candidate)
    requires DistinctIds(a.endpoints)
    ensures (forall b :: SameUpToOrder(a, b) ==> Canonical(a) == Canonical(b)) <==> IngressApart(a.ingress)
  {
    if IngressApart(a.ingress) {
      forall b | SameUpToOrder(a, b) ensures Canonical(a) == Canonical(b) { IntentIgnoresOrder(a, b); }
    } else {
      var i, k := TwoDiffer(a.ingress);
      var b := SomeOrderShows(a, i, k);
    }
  }
}
