/**
 Which candidates have one canonical intent, field by field (lhpc/core/firewall.py:320-346).
 */
module FirewallSameIntent {
  import opened Ordering
  import opened FirewallModel
  import opened FirewallIntent

  lemma {:induction false} HeadKeyIsLeast<T(!new)>(a: seq<T>, b: seq<T>, key: T -> Key)
    requires Sorted(b, key) && a != []
    requires WithKey(a, key, key(a[0])) == WithKey(b, key, key(a[0]))
    ensures b != [] && KeyLe(key(b[0]), key(a[0]))
  {
    assert WithKey(a, key, key(a[0])) != [];
    WithKeyIsFrom(b, key, key(a[0]));
    var x :| x in b && key(x) == key(a[0]);
    HeadIsLeast(b, x, key);
  }

  lemma {:induction false} WithKeyIsFrom<T(!new)>(s: seq<T>, key: T -> Key, k: Key)
    ensures WithKey(s, key, k) != [] ==> exists x :: x in s && key(x) == k
  {
    if s != [] {
      assert s == [s[0]] + s[1..];
      WithKeyIsFrom(s[1..], key, k);
    }
  }

  /** The elements of each key come in the same order on both sides. */
  ghost predicate SameRuns<T(!new)>(a: seq<T>, b: seq<T>, key: T -> Key)
  {
    forall k :: WithKey(a, key, k) == WithKey(b, key, k)
  }

  lemma {:induction false} SameHead<T(!new)>(a: seq<T>, b: seq<T>, key: T -> Key)
    requires Sorted(a, key) && Sorted(b, key) && SameRuns(a, b, key) && a != []
    ensures b != [] && a[0] == b[0]
  {
    assert WithKey(a, key, key(a[0])) == WithKey(b, key, key(a[0]));
    HeadKeyIsLeast(a, b, key);
    assert WithKey(a, key, key(b[0])) == WithKey(b, key, key(b[0]));
    HeadKeyIsLeast(b, a, key);
    KeyOrder(key(a[0]), key(b[0]));
    assert WithKey(a, key, key(a[0]))[0] == a[0] && WithKey(b, key, key(b[0]))[0] == b[0];
  }

  lemma {:induction false} SameTails<T(!new)>(x: T, a: seq<T>, b: seq<T>, key: T -> Key)
    requires SameRuns([x] + a, [x] + b, key)
    ensures SameRuns(a, b, key)
  {
    forall k ensures WithKey(a, key, k) == WithKey(b, key, k) {
      WithKeyCons(x, a, key, k);
      WithKeyCons(x, b, key, k);
      assert WithKey([x] + a, key, k) == WithKey([x] + b, key, k);
      SameTail(x, WithKey(a, key, k), WithKey(b, key, k));
      assert [] + WithKey(a, key, k) == WithKey(a, key, k) && [] + WithKey(b, key, k) == WithKey(b, key, k);
    }
  }

  /** Sorted, and the same elements of each key in the same order: the same sequence. */
  lemma {:induction false} SortedByRuns<T(!new)>(a: seq<T>, b: seq<T>, key: T -> Key)
    requires Sorted(a, key) && Sorted(b, key) && SameRuns(a, b, key)
    ensures a == b
  {
    if a == [] {
      if b != [] { SameHead(b, a, key); }
    } else {
      SameHead(a, b, key);
      assert a == [a[0]] + a[1..] && b == [a[0]] + b[1..];
      SameTails(a[0], a[1..], b[1..], key);
      TailKeeps(a, key);
      TailKeeps(b, key);
      SortedByRuns(a[1..], b[1..], key);
    }
  }

  lemma SameTail<T>(x: T, s: seq<T>, t: seq<T>)
    ensures [x] + s == [x] + t ==> s == t
  {
    if [x] + s == [x] + t { assert ([x] + s)[1..] == s && ([x] + t)[1..] == t; }
  }

  lemma {:induction false} SortsAlikeExactly<T(!new)>(a: seq<T>, b: seq<T>, key: T -> Key)
    ensures SortBy(a, key) == SortBy(b, key) <==> SameRuns(a, b, key)
  {
    forall k ensures WithKey(SortBy(a, key), key, k) == WithKey(a, key, k) &&
                     WithKey(SortBy(b, key), key, k) == WithKey(b, key, k) {
      SortIsStable(a, key, k);
      SortIsStable(b, key, k);
    }
    if SameRuns(a, b, key) {
      assert SameRuns(SortBy(a, key), SortBy(b, key), key);
      SortedByRuns(SortBy(a, key), SortBy(b, key), key);
    }
  }

  // --- the port list ------------------------------------------------------------------------------------

  ghost predicate Ascending(s: seq<int>) { forall i, k :: 0 <= i < k < |s| ==> s[i] < s[k] }

  lemma AscendsFrom(p: int, rest: seq<int>)
    requires Ascending(rest) && forall i :: 0 <= i < |rest| ==> p < rest[i]
    ensures Ascending([p] + rest)
  {}

  lemma {:induction false} DedupAscends(s: seq<int>)
    requires forall i, k :: 0 <= i < k < |s| ==> s[i] <= s[k]
    ensures Ascending(Dedup(s)) && forall p :: p in Dedup(s) <==> p in s
  {
    if |s| >= 2 {
      var rest := Dedup(s[1..]);
      DedupAscends(s[1..]);
      assert s == [s[0]] + s[1..];
      forall i | 0 <= i < |rest| ensures s[1] <= rest[i] { assert rest[i] in rest && rest[i] in s[1..]; }
      if s[0] != s[1] { AscendsFrom(s[0], rest); }
    }
  }

  lemma {:induction false} AscendingIsUnique(s: seq<int>, t: seq<int>)
    requires Ascending(s) && Ascending(t) && forall p :: p in s <==> p in t
    ensures s == t
  {
    if s == [] {
      assert forall i :: 0 <= i < |t| ==> t[i] in t;
    } else {
      assert s[0] in t && (t != [] ==> t[0] in s);
      assert s[0] == t[0];
      assert s == [s[0]] + s[1..] && t == [t[0]] + t[1..];
      assert s[0] !in s[1..] && t[0] !in t[1..];
      forall p ensures p in s[1..] <==> p in t[1..] {
        assert p in s <==> p == s[0] || p in s[1..];
        assert p in t <==> p == t[0] || p in t[1..];
      }
      AscendingIsUnique(s[1..], t[1..]);
    }
  }

  lemma {:induction false} PortsFacts(ps: seq<int>)
    ensures Ascending(SortPorts(ps)) && forall p :: p in SortPorts(ps) <==> p in ps
  {
    var s := SortBy(ps, PortKey);
    SortKeepsMembers(ps, PortKey);
    forall i, k | 0 <= i < k < |s| ensures s[i] <= s[k] {
      assert KeyLe(PortKey(s[i]), PortKey(s[k]));
    }
    DedupAscends(s);
  }

  /** The port list shows as the set of its ports. */
  lemma {:induction false} PortsTell(a: seq<int>, b: seq<int>)
    ensures SortPorts(a) == SortPorts(b) <==> forall p :: p in a <==> p in b
  {
    PortsFacts(a);
    PortsFacts(b);
    if forall p :: p in a <==> p in b { AscendingIsUnique(SortPorts(a), SortPorts(b)); }
  }

  // --- the entries --------------------------------------------------------------------------------------

  /** Where the key tells elements apart, only their multiset shows. */
  lemma {:induction false} ApartSorts<T(!new)>(a: seq<T>, b: seq<T>, key: T -> Key)
    requires KeyedApart(a, key)
    ensures SortBy(a, key) == SortBy(b, key) <==> multiset(a) == multiset(b)
  {
    if multiset(a) == multiset(b) { SortIgnoresOrder(a, b, key); }
  }

  /** A list of sources shows as the multiset of its sources. */
  lemma {:induction false} SourcesTell(a: seq<Cidr>, b: seq<Cidr>)
    ensures SortCidrs(a) == SortCidrs(b) <==> multiset(a) == multiset(b)
  {
    assert KeyedApart(a, CidrKey) by {
      forall x, y | CidrKey(x) == CidrKey(y) { CidrKeyTellsApart(x, y); }
    }
    ApartSorts(a, b, CidrKey);
  }

  /**
   One intent: the same schema, mode, access point and set of SSH ports, the same extras; and for each
   endpoint key and each ingress scope the same entries in the same order, sources as multisets.
   */
  ghost predicate SameFields(a: Candidate, b: Candidate)
  {
    a.schema == b.schema && a.mode == b.mode && a.ap == b.ap && (forall p :: p in a.sshPorts <==> p in b.sshPorts) &&
    multiset(a.extra) == multiset(b.extra) &&
    SameRuns(MapSeq(NormEndpoint, a.endpoints), MapSeq(NormEndpoint, b.endpoints), EndpointKey) &&
    SameRuns(MapSeq(NormGrant, a.ingress), MapSeq(NormGrant, b.ingress), GrantKey)
  }

  lemma {:induction false} SameIntentExactly(a: Candidate, b: Candidate)
    ensures Canonical(a) == Canonical(b) <==> SameFields(a, b)
  {
    PortsTell(a.sshPorts, b.sshPorts);
    assert KeyedApart(a.extra, ExtraKey) by {
      forall x, y | ExtraKey(x) == ExtraKey(y) { ExtraKeyTellsApart(x, y); }
    }
    ApartSorts(a.extra, b.extra, ExtraKey);
    SortsAlikeExactly(MapSeq(NormEndpoint, a.endpoints), MapSeq(NormEndpoint, b.endpoints), EndpointKey);
    SortMaps(a.ingress, NormGrant, GrantKey);
    SortMaps(b.ingress, NormGrant, GrantKey);
    SortsAlikeExactly(MapSeq(NormGrant, a.ingress), MapSeq(NormGrant, b.ingress), GrantKey);
  }

  /** A changed port list shows, whatever else stays. */
  lemma {:induction false} PortsShow(c: Candidate, ports: seq<int>)
    ensures Canonical(c.(sshPorts := ports)) == Canonical(c) <==> forall p :: p in ports <==> p in c.sshPorts
  {
    SameIntentExactly(c.(sshPorts := ports), c);
  }
}
