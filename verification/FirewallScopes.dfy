/**
 What relations between scopes mean in packets: the overlap an extra allow is refused for, the
 coverage a badge is granted for (lhpc/core/firewall.py:145-192, lhpc/core/firewall_helper.py:150-156),
 and which scopes of the old candidate a transition keeps closed as a whole.
 */
module FirewallScopes {
  import opened Options
  import opened FirewallModel
  import opened FirewallPackets

  /** `*` or a bind wildcard: every local address. */
  predicate AnyAddr(a: Addr) { a.Star? || (a.Ip? && a.n == 0) }

  predicate FamiliesMeet(f: FamilyScope, g: FamilyScope) { f == g || f.Dual? || g.Dual? }

  predicate SamePort(a: Scope, b: Scope) { a.proto == b.proto && a.port == b.port }

  // --- sharing a packet ---------------------------------------------------------------------------

  predicate Meet(a: Scope, b: Scope)
  {
    SamePort(a, b) && FamiliesMeet(a.family, b.family) && (AnyAddr(a.addr) || AnyAddr(b.addr) || a.addr == b.addr)
  }

  ghost predicate ShareAPacket(a: Scope, b: Scope) { exists p :: InScope(a, p) && InScope(b, p) }

  /** A packet in both, when there is one. */
  function PacketOfBoth(a: Scope, b: Scope): Packet
    requires a.port >= 0
  {
    var f := if a.family.Only? then a.family.family else if b.family.Only? then b.family.family else V4;
    var to := if a.addr.Ip? && a.addr.n != 0 then a.addr.n else if b.addr.Ip? then b.addr.n else 0;
    Packet("eth0", f, L4Of(a.proto), 0, to, 0, a.port, New)
  }

  /** Two scopes share a packet exactly when port, families and addresses meet, bind wildcards being any address. */
  lemma {:induction false} MeetExactly(a: Scope, b: Scope)
    requires ScopeOk(a) && ScopeOk(b)
    ensures ShareAPacket(a, b) <==> Meet(a, b)
  {
    if Meet(a, b) {
      var p := PacketOfBoth(a, b);
      assert InScope(a, p) && InScope(b, p);
    }
  }

  /** They meet only through a bind wildcard, which the address comparison does not see. */
  predicate WildcardMeet(a: Scope, b: Scope)
  {
    SamePort(a, b) && FamiliesMeet(a.family, b.family) && !a.addr.Star? && !b.addr.Star? && a.addr != b.addr &&
    (AnyAddr(a.addr) || AnyAddr(b.addr))
  }

  /** `_overlap` finds every two scopes that share a packet, except exactly those that meet through a bind wildcard. */
  lemma {:induction false} OverlapExactly(a: Scope, b: Scope)
    requires ScopeOk(a) && ScopeOk(b)
    ensures Overlap(a, b) ==> ShareAPacket(a, b)
    ensures ShareAPacket(a, b) && !Overlap(a, b) <==> WildcardMeet(a, b)
  {
    MeetExactly(a, b);
  }

  /**
   "An extra allow grazes no deny-default endpoint": true of a valid candidate exactly when none of
   its extras meets such an endpoint through a bind wildcard.
   */
  lemma {:induction false} ExtrasGrazeExactly(c: Candidate)
    requires ValidCandidate(c)
    ensures (forall x, e :: x in c.extra && e in c.endpoints && e.denyDefault ==> !ShareAPacket(x.scope, e.scope)) <==>
      (forall x, e :: x in c.extra && e in c.endpoints && e.denyDefault ==> !WildcardMeet(x.scope, e.scope))
  {
    forall x, e | x in c.extra && e in c.endpoints && e.denyDefault
      ensures ShareAPacket(x.scope, e.scope) <==> WildcardMeet(x.scope, e.scope)
    {
      assert ExtraEntryOk(x, c.endpoints) && EndpointOk(e);
      OverlapExactly(x.scope, e.scope);
    }
  }

  /** What an extra reopens: a packet of a selected deny-default endpoint from a host its own sources exclude. */
  ghost predicate Grazes(c: Candidate, x: Extra, e: Endpoint, owner: string, p: Packet)
  {
    ValidCandidate(c) && x in c.extra && e in c.endpoints && e.denyDefault && e.selected &&
    !Overlap(x.scope, e.scope) && InScope(e.scope, p) && !Granted(e.scope, e.cidrs, p) &&
    Granted(x.scope, [x.cidr], p) && VerdictOf(Resolved(c, owner, [], [], []), p) == Accept
  }

  function WithExtra(e: Endpoint, x: Extra): Candidate
  {
    Candidate(CANDIDATE_SCHEMA, SecureDefault, [e], [], [], Ap(false, "", JunkCidr("")), [x])
  }

  lemma {:induction false} GrazesFor(c: Candidate, x: Extra, e: Endpoint, owner: string, p: Packet)
    requires c == WithExtra(e, x) && ValidCandidate(c) && e.denyDefault && e.selected && !Overlap(x.scope, e.scope)
    requires InScope(e.scope, p) && !Granted(e.scope, e.cidrs, p) && Granted(x.scope, [x.cidr], p)
    requires p.iif != "lo" && p.ct == New
    ensures Grazes(c, x, e, owner, p)
  {
    assert x in c.extra && e in c.endpoints;
    SecureDefaultAccepts(c, owner, [], [], [], p);
  }

  lemma {:induction false} WithExtraIsValid(e: Endpoint, x: Extra)
    requires EndpointOk(e) && ScopeOk(x.scope) && CidrOk(x.cidr, x.scope.family) && !Overlap(x.scope, e.scope)
    ensures ValidCandidate(WithExtra(e, x))
  {}

  /** The bind wildcard 0.0.0.0 passes, and opens what the endpoint's own sources keep out. */
  lemma {:induction false} ExtraGrazes(owner: string)
    returns (c: Candidate, x: Extra, e: Endpoint, p: Packet)
    ensures Grazes(c, x, e, owner, p)
  {
    var source, host := Elsewhere();
    e := Endpoint("w", "", Scope(Tcp, Only(V4), Ip(V4, 7), 8080), [source], true, true, "none");
    x := Extra(Scope(Tcp, Only(V4), Ip(V4, 0), 8080), Net(V4, host, 32, Slash));
    assert "w"[0] == 'w' && IdOk("w");
    WithExtraIsValid(e, x);
    c := WithExtra(e, x);
    p := Packet("eth0", V4, TcpSegment, host, 7, 0, 8080, New);
    assert x.cidr in [x.cidr] && InCidr(x.cidr, V4, host);
    GrazesFor(c, x, e, owner, p);
  }

  // --- coverage -----------------------------------------------------------------------------------

  /** `scope_covers`. */
  predicate Covers(protector: Scope, listener: Scope)
  {
    SamePort(protector, listener) &&
    (if listener.family == Only(V6) && listener.addr.Star? then protector.family.Dual?
     else protector.family.Dual? || protector.family == listener.family) &&
    (protector.addr.Star? || protector.addr == listener.addr)
  }

  /** What reaches a listening socket: one bound to every IPv6 address accepts IPv4 too. */
  predicate Reaches(l: Scope, p: Packet)
  {
    if l.family == Only(V6) && AnyAddr(l.addr) then InScope(l.(family := Dual, addr := Star), p) else InScope(l, p)
  }

  ghost predicate Contains(protector: Scope, l: Scope) { forall p :: Reaches(l, p) ==> InScope(protector, p) }

  /** The same, from the two scopes. */
  predicate Protects(protector: Scope, l: Scope)
  {
    SamePort(protector, l) &&
    (protector.family.Dual? || (protector.family == l.family && !(l.family == Only(V6) && AnyAddr(l.addr)))) &&
    (AnyAddr(protector.addr) || protector.addr == l.addr)
  }

  /** A packet that reaches the listener. */
  function PacketTo(l: Scope, f: Family, otherwise: nat): Packet
    requires l.port >= 0
  {
    Packet("eth0", f, L4Of(l.proto), 0, if l.addr.Ip? && l.addr.n != 0 then l.addr.n else otherwise, 0, l.port, New)
  }

  lemma {:induction false} ProtectsExactly(protector: Scope, l: Scope)
    requires ScopeOk(protector) && ScopeOk(l)
    ensures Contains(protector, l) <==> Protects(protector, l)
  {
    if Contains(protector, l) {
      var other := if protector.addr.Ip? then protector.addr.n + 1 else 1;
      var f := if l.family.Only? then l.family.family else V4;
      assert Reaches(l, PacketTo(l, f, other));
      assert l.family.Dual? || (l.family == Only(V6) && AnyAddr(l.addr)) ==>
        Reaches(l, PacketTo(l, V4, other)) && Reaches(l, PacketTo(l, V6, other));
    }
  }

  /**
   "A covering protector contains everything that reaches the listener": false exactly for a listener
   on the literal `::`, granted an IPv6 protector. The other way round coverage is missed exactly
   when the protector is written as a bind wildcard and the listener otherwise.
   */
  lemma {:induction false} CoversExactly(protector: Scope, l: Scope)
    requires ScopeOk(protector) && ScopeOk(l)
    ensures Covers(protector, l) ==>
      (Contains(protector, l) <==> !(l.addr == Ip(V6, 0) && protector.family == Only(V6)))
    ensures Contains(protector, l) ==>
      (Covers(protector, l) <==> protector.addr.Star? || protector.addr == l.addr)
  {
    ProtectsExactly(protector, l);
  }

  /** The literal `::`: covered by an IPv6 rule, reached over IPv4. */
  lemma {:induction false} LiteralWildcardIsNotContained() returns (protector: Scope, l: Scope, p: Packet)
    ensures ScopeOk(protector) && ScopeOk(l) && Covers(protector, l) && Reaches(l, p) && !InScope(protector, p)
  {
    protector := Scope(Tcp, Only(V6), Star, 8080);
    l := Scope(Tcp, Only(V6), Ip(V6, 0), 8080);
    p := PacketTo(l, V4, 1);
  }

  // --- a whole scope through a transition --------------------------------------------------------

  /** Dropped early by the new candidate, or left unselected by the old one and not listed so any more. */
  ghost predicate IsClosed(o: Candidate, c: Candidate, s: Scope)
  {
    (exists n :: n in c.endpoints && Droppable(c, n) && n.scope == s) ||
    (exists e :: e in o.endpoints && !e.selected && e.scope !in EndpointScopes(c.endpoints) && e.scope == s)
  }

  /** `t` holds every packet of `s` of the family. */
  predicate HoldsFamily(t: Scope, s: Scope, f: Family)
  {
    SamePort(t, s) && (t.family.Dual? || t.family == Only(f)) && (AnyAddr(t.addr) || t.addr == s.addr)
  }

  ghost predicate SomeHolds(o: Candidate, c: Candidate, s: Scope, f: Family)
  {
    exists t :: IsClosed(o, c, t) && HoldsFamily(t, s, f)
  }

  /** Some closed scope holds each of its families whole. */
  ghost predicate Covered(o: Candidate, c: Candidate, s: Scope)
  {
    forall f :: s.family.Dual? || s.family == Only(f) ==> SomeHolds(o, c, s, f)
  }

  function Beyond(es: seq<Endpoint>): (n: nat)
    ensures n > 0 && forall e :: e in es && e.scope.addr.Ip? ==> e.scope.addr.n < n
  {
    if es == [] then 1
    else
      assert es == [es[0]] + es[1..];
      var m := Beyond(es[1..]);
      if es[0].scope.addr.Ip? && es[0].scope.addr.n >= m then es[0].scope.addr.n + 1 else m
  }

  /** A packet of the family in `s`, to an address no listed scope names unless `s` does. */
  function Probe(o: Candidate, c: Candidate, s: Scope, f: Family): Packet
    requires s.port >= 0
  {
    PacketTo(s, f, Beyond(o.endpoints + c.endpoints)).(ct := Established)
  }

  lemma {:induction false} ProbeTells(o: Candidate, c: Candidate, s: Scope, f: Family)
    requires ScopeOk(s) && (s.family.Dual? || s.family == Only(f))
    requires forall e :: e in o.endpoints || e in c.endpoints ==> ScopeOk(e.scope)
    ensures InScope(s, Probe(o, c, s, f))
    ensures StillClosed(o, c, Probe(o, c, s, f)) ==> SomeHolds(o, c, s, f)
  {
    var p := Probe(o, c, s, f);
    var all := o.endpoints + c.endpoints;
    forall e | (e in o.endpoints || e in c.endpoints) && InScope(e.scope, p) ensures HoldsFamily(e.scope, s, f) {
      assert e in all;
    }
  }

  lemma {:induction false} CoveredIsClosed(o: Candidate, c: Candidate, s: Scope, p: Packet)
    requires Covered(o, c, s) && InScope(s, p) && ScopeOk(s)
    requires forall e :: e in o.endpoints || e in c.endpoints ==> ScopeOk(e.scope)
    ensures StillClosed(o, c, p)
  {
    assert SomeHolds(o, c, s, p.family);
    var t :| IsClosed(o, c, t) && HoldsFamily(t, s, p.family);
    assert InScope(t, p);
  }

  /** Every packet of the scope is dropped, loopback aside. */
  ghost predicate AllDropped(verdict: Packet -> Action, s: Scope)
  {
    forall p :: InScope(s, p) && p.iif != "lo" ==> verdict(p) == Drop
  }

  /** A verdict that drops closed scopes, and lets established flows through elsewhere. */
  ghost predicate Transitional(verdict: Packet -> Action, o: Candidate, c: Candidate)
  {
    forall p: Packet :: p.iif != "lo" ==>
      (StillClosed(o, c, p) ==> verdict(p) == Drop) &&
      (p.ct == Established && !StillClosed(o, c, p) ==> verdict(p) == Accept)
  }

  lemma {:induction false} DroppedIfCovered(o: Candidate, c: Candidate, s: Scope, verdict: Packet -> Action)
    requires ScopeOk(s) && Transitional(verdict, o, c)
    requires forall e :: e in o.endpoints || e in c.endpoints ==> ScopeOk(e.scope)
    ensures AllDropped(verdict, s) <==> Covered(o, c, s)
  {
    if Covered(o, c, s) {
      forall p | InScope(s, p) && p.iif != "lo" ensures verdict(p) == Drop { CoveredIsClosed(o, c, s, p); }
    }
    if AllDropped(verdict, s) {
      forall f | s.family.Dual? || s.family == Only(f) ensures SomeHolds(o, c, s, f) {
        ProbeTells(o, c, s, f);
        assert Probe(o, c, s, f).iif != "lo" && verdict(Probe(o, c, s, f)) == Drop;
      }
    }
  }

  /**
   A scope stays closed as a whole through the transition, for every packet, exactly when closed
   scopes cover it: those the new candidate drops early, and those the old one left unselected and
   the new one does not.
   */
  lemma {:induction false} TransitionKeepsScopes(o: Candidate, c: Candidate, owner: string, ssh: seq<Grant>, s: Scope)
    requires ValidCandidate(o) && ValidCandidate(c) && ScopeOk(s)
    ensures var (allow, drop) := TransitionSets(Some(o), c);
      AllDropped(p => VerdictOf(Resolved(c, owner, ssh, allow, drop), p), s) <==> Covered(o, c, s)
  {
    var (allow, drop) := TransitionSets(Some(o), c);
    var verdict := p => VerdictOf(Resolved(c, owner, ssh, allow, drop), p);
    forall p: Packet | p.iif != "lo"
      ensures StillClosed(o, c, p) ==> verdict(p) == Drop
      ensures p.ct == Established && !StillClosed(o, c, p) ==> verdict(p) == Accept
    {
      TransitionVerdict(o, c, owner, ssh, p);
    }
    DroppedIfCovered(o, c, s, verdict);
  }
}
