/**
 What the resolved rule model means: a first-match verdict for every packet, and the
 characterisation of that verdict by the candidate's scopes alone.
 */
module FirewallPackets {
  import opened Options
  import opened Ordering
  import opened FirewallModel

  datatype L4 = TcpSegment | UdpDatagram | IcmpMessage | Icmpv6Message | OtherL4
  datatype CtState = Invalid | Established | Related | New | Untracked

  datatype Packet = Packet(iif: string, family: Family, l4: L4, saddr: nat, daddr: nat,
                           sport: int, dport: int, ct: CtState)

  function L4Of(p: Proto): L4 { if p == Tcp then TcpSegment else UdpDatagram }

  function Width(f: Family): nat { if f == V4 then 32 else 128 }

  function Pow2(n: nat): (r: nat)
    ensures r > 0
  {
    if n == 0 then 1 else 2 * Pow2(n - 1)
  }

  /** `a` and `base` agree on the leading `len` bits of a `width`-bit address. */
  predicate PrefixHolds(width: nat, base: nat, len: nat, a: nat)
  {
    var host := Pow2(if len <= width then width - len else 0);
    a / host == base / host
  }

  /** The hosts a CIDR text stands for: a bare address is its own host route. */
  predicate InCidr(c: Cidr, f: Family, a: nat)
  {
    c.Net? && c.family == f &&
    PrefixHolds(Width(f), c.base, if c.form == Bare then Width(f) else c.len, a)
  }

  predicate InFamily(f: FamilyScope, p: Packet) { f.Only? ==> p.family == f.family }

  /** `*` and the bind wildcards stand for every local address of the scope's family. */
  predicate InAddr(a: Addr, p: Packet)
  {
    match a
    case Star => true
    case Ip(f, n) => n == 0 || (f == p.family && n == p.daddr)
    case JunkAddr(_) => false
  }

  predicate InScope(s: Scope, p: Packet)
  {
    p.l4 == L4Of(s.proto) && p.dport == s.port && InFamily(s.family, p) && InAddr(s.addr, p)
  }

  const MDNS_V4: nat := 0xE00000FB                               // 224.0.0.251
  const MDNS_V6: nat := 0xFF0200000000000000000000000000FB       // ff02::fb

  predicate Matches(m: Match, p: Packet)
  {
    match m
    case IifLo => p.iif == "lo"
    case CtInvalid => p.ct == Invalid
    case CtEstablishedRelated => p.ct == Established || p.ct == Related
    case Icmpv6 => p.l4 == Icmpv6Message
    case Icmp => p.family == V4 && p.l4 == IcmpMessage
    case Dhcpv4Client => p.family == V4 && p.l4 == UdpDatagram && p.sport == 67 && p.dport == 68
    case Dhcpv6Client => p.family == V6 && p.l4 == UdpDatagram && p.sport == 547 && p.dport == 546
    case MdnsV4 => p.family == V4 && p.daddr == MDNS_V4 && p.l4 == UdpDatagram && p.dport == 5353
    case MdnsV6 => p.family == V6 && p.daddr == MDNS_V6 && p.l4 == UdpDatagram && p.dport == 5353
    case ApDhcpServer(iif) =>
      p.iif == iif && p.family == V4 && p.l4 == UdpDatagram && p.sport == 68 && p.dport == 67
    case ApDns(iif, proto, source) =>
      p.iif == iif && p.family == V4 && InCidr(source, V4, p.saddr) && p.l4 == L4Of(proto) && p.dport == 53
    case Scoped(scope, saddr, _) =>
      InScope(scope, p) && (saddr.Some? ==> InCidr(saddr.value, p.family, p.saddr))
  }

  /** First match wins; the chain policy decides what no rule matches. */
  function Verdict(rules: seq<Rule>, policy: Action, p: Packet): Action
  {
    if rules == [] then policy
    else if Matches(rules[0].m, p) then rules[0].action
    else Verdict(rules[1..], policy, p)
  }

  predicate AnyMatch(rules: seq<Rule>, p: Packet)
  {
    exists r :: r in rules && Matches(r.m, p)
  }

  predicate Uniform(rules: seq<Rule>, a: Action)
  {
    forall r :: r in rules ==> r.action == a
  }

  /** A run of rules with one action decides exactly the packets some rule of it matches. */
  lemma {:induction false} UniformRun(run: seq<Rule>, a: Action, rest: seq<Rule>, policy: Action, p: Packet)
    requires Uniform(run, a)
    ensures Verdict(run + rest, policy, p) == if AnyMatch(run, p) then a else Verdict(rest, policy, p)
  {
    if run == [] {
      assert run + rest == rest;
    } else {
      assert run[0] in run;
      assert (run + rest)[1..] == run[1..] + rest;
      assert forall r :: r in run <==> r == run[0] || r in run[1..];
      UniformRun(run[1..], a, rest, policy, p);
    }
  }

  lemma {:induction false} AnyMatchSplits(a: seq<Rule>, b: seq<Rule>, p: Packet)
    ensures AnyMatch(a + b, p) <==> AnyMatch(a, p) || AnyMatch(b, p)
  {
    assert forall r :: r in a + b <==> r in a || r in b;
  }

  // --- what each run of rules matches -------------------------------------------------------

  lemma {:induction false} EndpointDropsMeaning(es: seq<Endpoint>, seen: set<Scope>, p: Packet)
    ensures Uniform(EndpointDrops(es, seen), Drop)
    ensures AnyMatch(EndpointDrops(es, seen), p) <==>
      exists e :: e in es && e.scope !in seen && InScope(e.scope, p)
  {
    if es != [] {
      var e := es[0];
      assert forall x :: x in es <==> x == e || x in es[1..];
      if e.scope in seen {
        EndpointDropsMeaning(es[1..], seen, p);
      } else {
        EndpointDropsMeaning(es[1..], seen + {e.scope}, p);
        AnyMatchSplits([DropRule(e)], EndpointDrops(es[1..], seen + {e.scope}), p);
        assert AnyMatch([DropRule(e)], p) <==> InScope(e.scope, p) by {
          assert DropRule(e) in [DropRule(e)];
        }
      }
    }
  }

  lemma {:induction false} TransitionDropsMeaning(gs: seq<Grant>, p: Packet)
    ensures Uniform(TransitionDrops(gs), Drop)
    ensures AnyMatch(TransitionDrops(gs), p) <==> exists g :: g in gs && InScope(g.scope, p)
  {
    if gs != [] {
      assert forall x :: x in gs <==> x == gs[0] || x in gs[1..];
      TransitionDropsMeaning(gs[1..], p);
      var r := Rule(Drop, Scoped(gs[0].scope, None, Transition));
      AnyMatchSplits([r], TransitionDrops(gs[1..]), p);
      assert r in [r];
    }
  }

  // --- which rules each run holds -----------------------------------------------------------

  /** `r` is one of the rules an allow scope expands to. */
  ghost predicate AllowRule(s: Scope, cidrs: seq<Cidr>, r: Rule)
  {
    if cidrs == [] then r == Rule(Accept, Scoped(s, None, Plain))
    else exists c :: c in cidrs && r == Rule(Accept, Scoped(s, Some(c), Plain))
  }

  lemma {:induction false} CidrRulesHold(s: Scope, cs: seq<Cidr>, r: Rule)
    ensures r in CidrRules(s, cs) <==> exists c :: c in cs && r == Rule(Accept, Scoped(s, Some(c), Plain))
  {
    if cs != [] {
      assert forall x :: x in cs <==> x == cs[0] || x in cs[1..];
      CidrRulesHold(s, cs[1..], r);
    }
  }

  lemma {:induction false} AllowRulesHold(s: Scope, cidrs: seq<Cidr>, r: Rule)
    ensures r in AllowRules(s, cidrs) <==> AllowRule(s, cidrs, r)
  {
    CidrRulesHold(s, SortCidrs(cidrs), r);
    SortKeepsMembers(cidrs, CidrKey);
  }

  lemma {:induction false} GrantAllowsHold(gs: seq<Grant>, r: Rule)
    ensures r in GrantAllows(gs) <==> exists g :: g in gs && AllowRule(g.scope, g.cidrs, r)
  {
    if gs != [] {
      assert forall x :: x in gs <==> x == gs[0] || x in gs[1..];
      GrantAllowsHold(gs[1..], r);
      AllowRulesHold(gs[0].scope, gs[0].cidrs, r);
    }
  }

  lemma {:induction false} ExtraAllowsHold(xs: seq<Extra>, r: Rule)
    ensures r in ExtraAllows(xs) <==> exists x :: x in xs && AllowRule(x.scope, [x.cidr], r)
  {
    if xs != [] {
      assert forall x :: x in xs <==> x == xs[0] || x in xs[1..];
      ExtraAllowsHold(xs[1..], r);
      AllowRulesHold(xs[0].scope, [xs[0].cidr], r);
    }
  }

  /** Sources that sort alike expand alike, which is why a repeated allow key may be skipped. */
  lemma {:induction false} SameSourcesExpandAlike(s: Scope, a: seq<Cidr>, b: seq<Cidr>, r: Rule)
    requires SortCidrs(a) == SortCidrs(b)
    ensures AllowRule(s, a, r) <==> AllowRule(s, b, r)
  {
    SortKeepsMembers(a, CidrKey);
    SortKeepsMembers(b, CidrKey);
  }

  lemma {:induction false} EndpointAllowsHold(es: seq<Endpoint>, seen: set<(Scope, seq<Cidr>)>, r: Rule)
    ensures r in EndpointAllows(es, seen) <==>
      exists e :: e in es && (e.scope, SortCidrs(e.cidrs)) !in seen && AllowRule(e.scope, e.cidrs, r)
  {
    if es != [] {
      var e := es[0];
      var k := (e.scope, SortCidrs(e.cidrs));
      assert forall x :: x in es <==> x == e || x in es[1..];
      if k in seen {
        EndpointAllowsHold(es[1..], seen, r);
      } else {
        EndpointAllowsHold(es[1..], seen + {k}, r);
        AllowRulesHold(e.scope, e.cidrs, r);
        forall x | x in es[1..] && (x.scope, SortCidrs(x.cidrs)) == k
          ensures AllowRule(x.scope, x.cidrs, r) <==> AllowRule(e.scope, e.cidrs, r)
        {
          SameSourcesExpandAlike(e.scope, x.cidrs, e.cidrs, r);
        }
      }
    }
  }

  ghost predicate ScopeRule(c: Candidate, ssh: seq<Grant>, transitionAllow: seq<Grant>, r: Rule)
  {
    (exists g :: g in ssh && AllowRule(g.scope, g.cidrs, r)) ||
    (exists e :: e in c.endpoints && e.selected && AllowRule(e.scope, e.cidrs, r)) ||
    (exists g :: g in c.ingress && AllowRule(g.scope, g.cidrs, r)) ||
    (exists g :: g in transitionAllow && AllowRule(g.scope, g.cidrs, r)) ||
    (exists x :: x in c.extra && AllowRule(x.scope, [x.cidr], r))
  }

  /** The allow half holds the fixed services and one rule per allowed scope and source. */
  lemma {:induction false} AllowsHold(c: Candidate, ssh: seq<Grant>, transitionAllow: seq<Grant>, r: Rule)
    ensures r in Allows(c, ssh, transitionAllow) <==>
      r in Baseline() || r in ApRules(c.ap) || ScopeRule(c, ssh, transitionAllow, r)
  {
    var selected := SelectedOf(c.endpoints);
    SortKeepsMembers(ssh, GrantKey);
    GrantAllowsHold(SortGrants(ssh), r);
    SortKeepsMembers(selected, EndpointKey);
    EndpointAllowsHold(SortEndpoints(selected), {}, r);
    SortKeepsMembers(c.ingress, GrantKey);
    GrantAllowsHold(SortGrants(c.ingress), r);
    SortKeepsMembers(transitionAllow, GrantKey);
    GrantAllowsHold(SortGrants(transitionAllow), r);
    SortKeepsMembers(c.extra, ExtraKey);
    ExtraAllowsHold(SortExtra(c.extra), r);
  }

  // --- the packet characterisation ----------------------------------------------------------

  /** In the scope of an endpoint the mode drops early, or of a preserved transition drop. */
  ghost predicate EarlyDropped(c: Candidate, transitionDrop: seq<Grant>, p: Packet)
  {
    (exists e :: e in c.endpoints && Droppable(c, e) && InScope(e.scope, p)) ||
    (exists g :: g in transitionDrop && InScope(g.scope, p))
  }

  predicate Icmpish(p: Packet) { Matches(Icmpv6, p) || Matches(Icmp, p) }

  predicate BaselineService(c: Candidate, p: Packet)
  {
    Matches(Dhcpv4Client, p) || Matches(Dhcpv6Client, p) || Matches(MdnsV4, p) || Matches(MdnsV6, p) ||
    (c.ap.enabled && (Matches(ApDhcpServer(c.ap.iface), p) ||
                      Matches(ApDns(c.ap.iface, Udp, c.ap.cidr), p) ||
                      Matches(ApDns(c.ap.iface, Tcp, c.ap.cidr), p)))
  }

  /** An allow scope, narrowed to its source CIDRs when it has any. */
  predicate Granted(s: Scope, cidrs: seq<Cidr>, p: Packet)
  {
    InScope(s, p) && (cidrs == [] || exists c :: c in cidrs && InCidr(c, p.family, p.saddr))
  }

  ghost predicate ScopeAllowed(c: Candidate, ssh: seq<Grant>, transitionAllow: seq<Grant>, p: Packet)
  {
    (exists g :: g in ssh && Granted(g.scope, g.cidrs, p)) ||
    (exists e :: e in c.endpoints && e.selected && Granted(e.scope, e.cidrs, p)) ||
    (exists g :: g in c.ingress && Granted(g.scope, g.cidrs, p)) ||
    (exists g :: g in transitionAllow && Granted(g.scope, g.cidrs, p)) ||
    (exists x :: x in c.extra && Granted(x.scope, [x.cidr], p))
  }

  lemma {:induction false} AllowRuleMeaning(s: Scope, cidrs: seq<Cidr>, p: Packet)
    ensures (exists r :: AllowRule(s, cidrs, r) && Matches(r.m, p)) <==> Granted(s, cidrs, p)
  {
    if cidrs == [] {
      assert AllowRule(s, cidrs, Rule(Accept, Scoped(s, None, Plain)));
    } else {
      forall c | c in cidrs ensures AllowRule(s, cidrs, Rule(Accept, Scoped(s, Some(c), Plain))) {}
    }
  }

  function VerdictOf(m: Model, p: Packet): Action { Verdict(m.rules, m.policy, p) }

  lemma {:induction false} EarlyDropsMeaning(c: Candidate, transitionDrop: seq<Grant>, p: Packet)
    ensures Uniform(EarlyDrops(c, transitionDrop), Drop)
    ensures AnyMatch(EarlyDrops(c, transitionDrop), p) <==> EarlyDropped(c, transitionDrop, p)
  {
    var es := SortEndpoints(DroppableOf(c, c.endpoints));
    SortKeepsMembers(DroppableOf(c, c.endpoints), EndpointKey);
    SortKeepsMembers(transitionDrop, GrantKey);
    EndpointDropsMeaning(es, {}, p);
    TransitionDropsMeaning(SortGrants(transitionDrop), p);
    AnyMatchSplits(EndpointDrops(es, {}), TransitionDrops(SortGrants(transitionDrop)), p);
  }

  lemma {:induction false} FixedRulesMeaning(c: Candidate, p: Packet)
    ensures Uniform(Baseline(), Accept) && Uniform(ApRules(c.ap), Accept)
    ensures AnyMatch(Baseline(), p) || AnyMatch(ApRules(c.ap), p) <==> BaselineService(c, p)
  {
    var b, a := Baseline(), ApRules(c.ap);
    assert b[0] in b && b[1] in b && b[2] in b && b[3] in b;
    if c.ap.enabled {
      assert a[0] in a && a[1] in a && a[2] in a;
    }
  }

  lemma {:induction false} ScopeRuleMeaning(c: Candidate, ssh: seq<Grant>, transitionAllow: seq<Grant>, p: Packet)
    ensures (exists r :: ScopeRule(c, ssh, transitionAllow, r) && Matches(r.m, p)) <==>
      ScopeAllowed(c, ssh, transitionAllow, p)
  {
    forall s, cidrs ensures (exists r :: AllowRule(s, cidrs, r) && Matches(r.m, p)) <==> Granted(s, cidrs, p) {
      AllowRuleMeaning(s, cidrs, p);
    }
  }

  /** `rules` are those of `base` and `more`, and those `extra` says. */
  lemma {:induction false} ThreeSources(rules: seq<Rule>, base: seq<Rule>, more: seq<Rule>, extra: Rule -> bool,
                                        p: Packet)
    requires forall r :: r in rules <==> r in base || r in more || extra(r)
    requires Uniform(base, Accept) && Uniform(more, Accept) && forall r :: extra(r) ==> r.action == Accept
    ensures Uniform(rules, Accept)
    ensures AnyMatch(rules, p) <==> AnyMatch(base, p) || AnyMatch(more, p) || exists r :: extra(r) && Matches(r.m, p)
  {}

  lemma {:induction false} AllowsMeaningOf(rules: seq<Rule>, c: Candidate, ssh: seq<Grant>,
                                           transitionAllow: seq<Grant>, p: Packet)
    requires forall r :: r in rules <==>
      r in Baseline() || r in ApRules(c.ap) || ScopeRule(c, ssh, transitionAllow, r)
    ensures Uniform(rules, Accept)
    ensures AnyMatch(rules, p) <==> BaselineService(c, p) || ScopeAllowed(c, ssh, transitionAllow, p)
  {
    FixedRulesMeaning(c, p);
    ScopeRuleMeaning(c, ssh, transitionAllow, p);
    ThreeSources(rules, Baseline(), ApRules(c.ap), r => ScopeRule(c, ssh, transitionAllow, r), p);
  }

  lemma {:induction false} AllowsMeaning(c: Candidate, ssh: seq<Grant>, transitionAllow: seq<Grant>, p: Packet)
    ensures Uniform(Allows(c, ssh, transitionAllow), Accept)
    ensures AnyMatch(Allows(c, ssh, transitionAllow), p) <==>
      BaselineService(c, p) || ScopeAllowed(c, ssh, transitionAllow, p)
  {
    var rules := Allows(c, ssh, transitionAllow);
    assert forall r :: r in rules <==>
      r in Baseline() || r in ApRules(c.ap) || ScopeRule(c, ssh, transitionAllow, r)
    by {
      forall r { AllowsHold(c, ssh, transitionAllow, r); }
    }
    AllowsMeaningOf(rules, c, ssh, transitionAllow, p);
  }

  lemma {:induction false} ConntrackThenIcmp(rest: seq<Rule>, policy: Action, p: Packet)
    ensures Verdict(CT_AND_ICMP + rest, policy, p) ==
      if p.ct == Invalid then Drop
      else if p.ct == Established || p.ct == Related || Icmpish(p) then Accept
      else Verdict(rest, policy, p)
  {
    var r0 := CT_AND_ICMP + rest;
    var r1, r2, r3 := r0[1..], r0[2..], r0[3..];
    assert r0[0] == Rule(Drop, CtInvalid) && r1[0] == Rule(Accept, CtEstablishedRelated);
    assert r2[0] == Rule(Accept, Icmpv6) && r3[0] == Rule(Accept, Icmp);
    assert r1[1..] == r2 && r2[1..] == r3 && r3[1..] == rest;
    assert Verdict(r2, policy, p) == if Icmpish(p) then Accept else Verdict(rest, policy, p);
  }

  lemma {:induction false} PartsInOrder(drops: seq<Rule>, rest: seq<Rule>, policy: Action, p: Packet)
    requires Uniform(drops, Drop)
    ensures Verdict([Rule(Accept, IifLo)] + drops + CT_AND_ICMP + rest, policy, p) ==
      if p.iif == "lo" then Accept
      else if AnyMatch(drops, p) || p.ct == Invalid then Drop
      else if p.ct == Established || p.ct == Related || Icmpish(p) then Accept
      else Verdict(rest, policy, p)
  {
    var lo, tail := Rule(Accept, IifLo), CT_AND_ICMP + rest;
    UniformRun(drops, Drop, tail, policy, p);
    ConntrackThenIcmp(rest, policy, p);
    assert [lo] + drops + CT_AND_ICMP + rest == [lo] + (drops + tail);
    assert ([lo] + (drops + tail))[1..] == drops + tail;
  }

  /** Loopback, then the early drops, then conntrack and ICMP, then whatever follows. */
  lemma {:induction false} VerdictInOrder(c: Candidate, transitionDrop: seq<Grant>, rest: seq<Rule>,
                                          policy: Action, p: Packet)
    ensures Verdict([Rule(Accept, IifLo)] + EarlyDrops(c, transitionDrop) + CT_AND_ICMP + rest, policy, p) ==
      if p.iif == "lo" then Accept
      else if EarlyDropped(c, transitionDrop, p) || p.ct == Invalid then Drop
      else if p.ct == Established || p.ct == Related || Icmpish(p) then Accept
      else Verdict(rest, policy, p)
  {
    EarlyDropsMeaning(c, transitionDrop, p);
    PartsInOrder(EarlyDrops(c, transitionDrop), rest, policy, p);
  }

  /** Secure-default: exactly which non-loopback packets get in. */
  lemma {:induction false} SecureDefaultAccepts(c: Candidate, owner: string, ssh: seq<Grant>,
                             transitionAllow: seq<Grant>, transitionDrop: seq<Grant>, p: Packet)
    requires c.mode == SecureDefault && p.iif != "lo"
    ensures VerdictOf(Resolved(c, owner, ssh, transitionAllow, transitionDrop), p) == Accept <==>
      !EarlyDropped(c, transitionDrop, p) && p.ct != Invalid &&
      (p.ct == Established || p.ct == Related || Icmpish(p) || BaselineService(c, p) ||
       ScopeAllowed(c, ssh, transitionAllow, p))
  {
    var rest := Allows(c, ssh, transitionAllow);
    VerdictInOrder(c, transitionDrop, rest, Drop, p);
    AllowsMeaning(c, ssh, transitionAllow, p);
    assert rest + [] == rest;
    UniformRun(rest, Accept, [], Drop, p);
  }

  /** Compatibility: the early drops and invalid conntrack are the entire effect. */
  lemma {:induction false} CompatibilityDrops(c: Candidate, owner: string, ssh: seq<Grant>,
                           transitionAllow: seq<Grant>, transitionDrop: seq<Grant>, p: Packet)
    requires c.mode == Compatibility && p.iif != "lo"
    ensures VerdictOf(Resolved(c, owner, ssh, transitionAllow, transitionDrop), p) == Drop <==>
      (exists e :: e in c.endpoints && !e.selected && InScope(e.scope, p)) ||
      (exists g :: g in transitionDrop && InScope(g.scope, p)) || p.ct == Invalid
  {
    VerdictInOrder(c, transitionDrop, [], Accept, p);
    assert forall e :: Droppable(c, e) <==> !e.selected;
  }

  /** No allow source, and no established flow, reopens an unselected deny-default scope. */
  lemma {:induction false} DenyDefaultStaysClosed(c: Candidate, owner: string, ssh: seq<Grant>,
      transitionAllow: seq<Grant>, transitionDrop: seq<Grant>, e: Endpoint, p: Packet)
    requires e in c.endpoints && e.denyDefault && !e.selected
    requires p.iif != "lo" && InScope(e.scope, p)
    ensures VerdictOf(Resolved(c, owner, ssh, transitionAllow, transitionDrop), p) == Drop
  {
    assert Droppable(c, e);
    if c.mode == SecureDefault {
      SecureDefaultAccepts(c, owner, ssh, transitionAllow, transitionDrop, p);
    } else {
      CompatibilityDrops(c, owner, ssh, transitionAllow, transitionDrop, p);
    }
  }

  /** Loopback always works. */
  lemma {:induction false} LoopbackAlwaysAccepted(c: Candidate, owner: string, ssh: seq<Grant>,
      transitionAllow: seq<Grant>, transitionDrop: seq<Grant>, p: Packet)
    requires p.iif == "lo"
    ensures VerdictOf(Resolved(c, owner, ssh, transitionAllow, transitionDrop), p) == Accept
  {
    if c.mode == SecureDefault {
      VerdictInOrder(c, transitionDrop, Allows(c, ssh, transitionAllow), Drop, p);
    } else {
      VerdictInOrder(c, transitionDrop, [], Accept, p);
    }
  }

  // --- transition preservation --------------------------------------------------------------

  function EndpointScopes(es: seq<Endpoint>): set<Scope>
  {
    set e | e in es && !e.selected :: e.scope
  }

  function TransitionDropOf(es: seq<Endpoint>, still: set<Scope>): seq<Grant>
  {
    if es == [] then []
    else
      (if !es[0].selected && es[0].scope !in still then [Grant(es[0].scope, es[0].cidrs)] else []) +
      TransitionDropOf(es[1..], still)
  }

  lemma {:induction false} TransitionDropsAre(es: seq<Endpoint>, still: set<Scope>, g: Grant)
    ensures g in TransitionDropOf(es, still) <==>
      exists e :: e in es && !e.selected && e.scope !in still && g == Grant(e.scope, e.cidrs)
  {
    if es != [] {
      assert es == [es[0]] + es[1..];
      TransitionDropsAre(es[1..], still, g);
    }
  }

  function TransitionAllowOf(gs: seq<Grant>, still: set<Scope>): (r: seq<Grant>)
    ensures forall g :: g in r <==> g in gs && g.scope !in still
  {
    if gs == [] then []
    else
      assert gs == [gs[0]] + gs[1..];
      (if gs[0].scope !in still then [gs[0]] else []) + TransitionAllowOf(gs[1..], still)
  }

  /** `_transition_sets`: (allow, drop) carried from the previously applied candidate. */
  function TransitionSets(previous: Option<Candidate>, c: Candidate): (seq<Grant>, seq<Grant>)
  {
    match previous
    case None => ([], [])
    case Some(o) =>
      (TransitionAllowOf(o.ingress, set g | g in c.ingress :: g.scope),
       TransitionDropOf(o.endpoints, EndpointScopes(c.endpoints)))
  }

  /** In a scope that the new candidate drops early, or that the old one left unselected and the new one does not. */
  ghost predicate StillClosed(o: Candidate, c: Candidate, p: Packet)
  {
    (exists n :: n in c.endpoints && Droppable(c, n) && InScope(n.scope, p)) ||
    (exists e :: e in o.endpoints && !e.selected && e.scope !in EndpointScopes(c.endpoints) && InScope(e.scope, p))
  }

  lemma {:induction false} EarlyDroppedMeansClosed(o: Candidate, c: Candidate, p: Packet)
    ensures EarlyDropped(c, TransitionSets(Some(o), c).1, p) <==> StillClosed(o, c, p)
  {
    var still := EndpointScopes(c.endpoints);
    var drop := TransitionDropOf(o.endpoints, still);
    forall e | e in o.endpoints && !e.selected && e.scope !in still && InScope(e.scope, p)
      ensures exists g :: g in drop && InScope(g.scope, p)
    {
      TransitionDropsAre(o.endpoints, still, Grant(e.scope, e.cidrs));
    }
    forall g | g in drop
      ensures exists e :: e in o.endpoints && !e.selected && e.scope !in still && g.scope == e.scope
    {
      TransitionDropsAre(o.endpoints, still, g);
    }
  }

  /** Kept for a web listener that is on its way out: old ingress whose scope the new candidate does not list. */
  ghost predicate KeptOpen(o: Candidate, c: Candidate, p: Packet)
  {
    exists g :: g in o.ingress && (forall n :: n in c.ingress ==> n.scope != g.scope) && Granted(g.scope, g.cidrs, p)
  }

  /** What the new candidate lets in by itself. */
  ghost predicate Admits(c: Candidate, ssh: seq<Grant>, p: Packet)
  {
    p.ct == Established || p.ct == Related || Icmpish(p) || BaselineService(c, p) || ScopeAllowed(c, ssh, [], p)
  }

  lemma {:induction false} TransitionAllows(o: Candidate, c: Candidate, ssh: seq<Grant>, p: Packet)
    ensures ScopeAllowed(c, ssh, TransitionSets(Some(o), c).0, p) <==> ScopeAllowed(c, ssh, [], p) || KeptOpen(o, c, p)
  {
    var allow := TransitionSets(Some(o), c).0;
    forall g ensures g in allow <==> g in o.ingress && forall n :: n in c.ingress ==> n.scope != g.scope {}
  }

  /** Every non-loopback packet through the transition, from the two candidates alone. */
  lemma {:induction false} TransitionVerdict(o: Candidate, c: Candidate, owner: string, ssh: seq<Grant>, p: Packet)
    requires p.iif != "lo"
    ensures var (allow, drop) := TransitionSets(Some(o), c);
      VerdictOf(Resolved(c, owner, ssh, allow, drop), p) == Accept <==>
      !StillClosed(o, c, p) && p.ct != Invalid && (c.mode == Compatibility || Admits(c, ssh, p) || KeptOpen(o, c, p))
  {
    var (allow, drop) := TransitionSets(Some(o), c);
    EarlyDroppedMeansClosed(o, c, p);
    TransitionAllows(o, c, ssh, p);
    if c.mode == SecureDefault {
      SecureDefaultAccepts(c, owner, ssh, allow, drop, p);
    } else {
      VerdictInOrder(c, drop, [], Accept, p);
    }
  }

  /**
   What the table of an applied candidate lets in: loopback; and, of what it does not drop early and `before`
   (the candidate whose listeners may still be up, if any) did not leave closed, everything under
   compatibility, and otherwise what it admits by itself or is still open for `before`.
   */
  ghost predicate LetIn(c: Candidate, before: Option<Candidate>, ssh: seq<Grant>, p: Packet)
  {
    p.iif == "lo" ||
    (p.ct != Invalid &&
     (forall n :: n in c.endpoints && !n.selected && (c.mode == Compatibility || n.denyDefault) ==>
        !InScope(n.scope, p)) &&
     (before.Some? ==> forall e :: e in before.value.endpoints && !e.selected && InScope(e.scope, p) ==>
        exists n :: n in c.endpoints && !n.selected && n.scope == e.scope) &&
     (c.mode == Compatibility || Admits(c, ssh, p) || (before.Some? && KeptOpen(before.value, c, p))))
  }

  ghost predicate LetsInExactly(m: Model, c: Candidate, before: Option<Candidate>, ssh: seq<Grant>)
  {
    forall p :: VerdictOf(m, p) == Accept <==> LetIn(c, before, ssh, p)
  }

  /** Without anything to preserve, the table lets in what the candidate says by itself. */
  lemma {:induction false} AloneLetsIn(c: Candidate, owner: string, ssh: seq<Grant>)
    ensures LetsInExactly(Resolved(c, owner, ssh, [], []), c, None, ssh)
  {
    forall p ensures VerdictOf(Resolved(c, owner, ssh, [], []), p) == Accept <==> LetIn(c, None, ssh, p) {
      if p.iif == "lo" { LoopbackAlwaysAccepted(c, owner, ssh, [], [], p); }
      else if c.mode == SecureDefault { SecureDefaultAccepts(c, owner, ssh, [], [], p); }
      else { CompatibilityDrops(c, owner, ssh, [], [], p); }
    }
  }

  /** The old candidate has ingress in a scope the new one does not list, or leaves one closed that it does not. */
  ghost predicate Outgoing(o: Candidate, c: Candidate)
  {
    (exists g :: g in o.ingress && forall n :: n in c.ingress ==> n.scope != g.scope) ||
    (exists e :: e in o.endpoints && !e.selected &&
       forall n :: n in c.endpoints && !n.selected ==> n.scope != e.scope)
  }

  lemma {:induction false} KeepsExactly(o: Candidate, c: Candidate)
    ensures TransitionSets(Some(o), c) != ([], []) <==> Outgoing(o, c)
  {
    var (allow, drop) := TransitionSets(Some(o), c);
    assert allow != [] ==> allow[0] in allow;
    if drop != [] { TransitionDropsAre(o.endpoints, EndpointScopes(c.endpoints), drop[0]); }
    forall e | e in o.endpoints && !e.selected && e.scope !in EndpointScopes(c.endpoints) ensures drop != [] {
      TransitionDropsAre(o.endpoints, EndpointScopes(c.endpoints), Grant(e.scope, e.cidrs));
    }
  }

  lemma {:induction false} TransitionLetsIn(o: Candidate, c: Candidate, owner: string, ssh: seq<Grant>)
    ensures var (allow, drop) := TransitionSets(Some(o), c);
      LetsInExactly(Resolved(c, owner, ssh, allow, drop), c, Some(o), ssh)
  {
    var (allow, drop) := TransitionSets(Some(o), c);
    forall p ensures VerdictOf(Resolved(c, owner, ssh, allow, drop), p) == Accept <==> LetIn(c, Some(o), ssh, p) {
      if p.iif == "lo" { LoopbackAlwaysAccepted(c, owner, ssh, allow, drop, p); }
      else { TransitionVerdict(o, c, owner, ssh, p); }
    }
  }

  /**
   "Stays dropped until cleanup", for a packet of an established flow in a scope the old candidate
   left unselected: exactly when the new candidate does not list that scope unselected, or some
   closed scope covers the packet all the same.
   */
  lemma {:induction false} TransitionKeepsDrops(o: Candidate, c: Candidate, owner: string,
                                                ssh: seq<Grant>, e: Endpoint, p: Packet)
    requires e in o.endpoints && !e.selected && InScope(e.scope, p) && p.iif != "lo" && p.ct == Established
    ensures var (allow, drop) := TransitionSets(Some(o), c);
      VerdictOf(Resolved(c, owner, ssh, allow, drop), p) == Drop <==>
      e.scope !in EndpointScopes(c.endpoints) || StillClosed(o, c, p)
  {
    TransitionVerdict(o, c, owner, ssh, p);
  }

  /** A packet of an established flow in the scope. */
  function PacketIn(s: Scope): Packet
  {
    var f := if s.family.Only? then s.family.family else V4;
    Packet("eth0", f, L4Of(s.proto), 0, if s.addr.Ip? then s.addr.n else 0, 0, if s.port < 0 then 0 else s.port,
           Established)
  }

  /**
   "Stays allowed so web access is never cut": a new connection to proxy ingress of the old
   candidate, through the transition into secure-default, gets in exactly when its scope is not
   closed and the new candidate does not list that scope, or admits the packet by itself, or
   other kept ingress does.
   */
  lemma {:induction false} TransitionKeepsIngress(o: Candidate, c: Candidate, owner: string,
                                                  ssh: seq<Grant>, g: Grant, p: Packet)
    requires g in o.ingress && Granted(g.scope, g.cidrs, p) && p.iif != "lo" && p.ct != Invalid
    ensures var (allow, drop) := TransitionSets(Some(o), c);
      VerdictOf(Resolved(c, owner, ssh, allow, drop), p) == Accept <==>
      !StillClosed(o, c, p) &&
      (c.mode == Compatibility || (forall n :: n in c.ingress ==> n.scope != g.scope) || Admits(c, ssh, p) ||
       KeptOpen(o, c, p))
  {
    TransitionVerdict(o, c, owner, ssh, p);
  }

  // --- where the transition breaks its promises ---------------------------------------------

  function Web(mode: Mode, endpoints: seq<Endpoint>, ingress: seq<Grant>): Candidate
  {
    Candidate(CANDIDATE_SCHEMA, mode, endpoints, ingress, [], Ap(false, "", JunkCidr("")), [])
  }

  const WEB := Scope(Tcp, Only(V4), Star, 443)

  /** The transition from `o` to `c` turns the verdict on `p` from `was` to `now`. */
  ghost predicate Turns(o: Candidate, c: Candidate, owner: string, p: Packet, was: Action, now: Action)
  {
    var (allow, drop) := TransitionSets(Some(o), c);
    ValidCandidate(o) && ValidCandidate(c) && VerdictOf(Resolved(o, owner, [], [], []), p) == was &&
    VerdictOf(Resolved(c, owner, [], allow, drop), p) == now
  }

  lemma {:induction false} ReopensFor(o: Candidate, c: Candidate, owner: string, e: Endpoint, p: Packet)
    requires o.mode == Compatibility && e in o.endpoints && !e.selected && InScope(e.scope, p) && p.iif != "lo"
    requires p.ct == Established && !StillClosed(o, c, p) && ValidCandidate(o) && ValidCandidate(c)
    ensures Turns(o, c, owner, p, Drop, Accept)
  {
    CompatibilityDrops(o, owner, [], [], [], p);
    TransitionVerdict(o, c, owner, [], p);
  }

  /** From compatibility to secure-default, an unselected endpoint that is not deny-default reopens for old flows. */
  lemma {:induction false} TransitionReopens(owner: string) returns (o: Candidate, c: Candidate, p: Packet)
    ensures Turns(o, c, owner, p, Drop, Accept)
  {
    var e := Endpoint("w", "", WEB, [], false, false, "none");
    o, c, p := Web(Compatibility, [e], []), Web(SecureDefault, [e], []), PacketIn(WEB);
    assert "w"[0] == 'w' && IdOk("w");
    assert e in c.endpoints && e.scope in EndpointScopes(c.endpoints);
    assert e in o.endpoints && !StillClosed(o, c, p);
    ReopensFor(o, c, owner, e, p);
  }

  lemma {:induction false} OpenFor(o: Candidate, owner: string, g: Grant, p: Packet)
    requires o.mode == SecureDefault && o.endpoints == [] && g in o.ingress && Granted(g.scope, g.cidrs, p)
    requires p.iif != "lo" && p.ct == New
    ensures VerdictOf(Resolved(o, owner, [], [], []), p) == Accept
  {
    SecureDefaultAccepts(o, owner, [], [], [], p);
  }

  lemma {:induction false} OnlyIngressAdmits(c: Candidate, p: Packet)
    requires c.endpoints == [] && c.extra == [] && !c.ap.enabled && p.ct == New && p.l4 == TcpSegment
    requires forall g :: g in c.ingress ==> !Granted(g.scope, g.cidrs, p)
    ensures !Admits(c, [], p)
  {}

  lemma {:induction false} WebIsValid(g: Grant)
    requires ScopeOk(g.scope) && CidrsOk(g.cidrs, g.scope.family)
    ensures ValidCandidate(Web(SecureDefault, [], [g]))
  {}

  /** Any narrowing of an ingress scope cuts off a new connection from elsewhere. */
  lemma {:induction false} NarrowingCuts(o: Candidate, c: Candidate, owner: string, was: Grant, now: Grant, p: Packet)
    requires o == Web(SecureDefault, [], [was]) && c == Web(SecureDefault, [], [now]) && was.scope == now.scope
    requires ValidCandidate(o) && ValidCandidate(c) && p.iif != "lo" && p.ct == New && p.l4 == TcpSegment
    requires Granted(was.scope, was.cidrs, p) && !Granted(now.scope, now.cidrs, p)
    ensures Turns(o, c, owner, p, Accept, Drop)
  {
    assert was in o.ingress && now in c.ingress;
    OpenFor(o, owner, was, p);
    OnlyIngressAdmits(c, p);
    TransitionVerdict(o, c, owner, [], p);
  }

  /** A source that a host is not. */
  lemma Elsewhere() returns (c: Cidr, host: nat)
    ensures CidrOk(c, Only(V4)) && !InCidr(c, V4, host)
  {
    assert Pow2(0) == 1;
    c, host := Net(V4, 1, 32, Slash), 2;
  }

  /** Narrowing the sources of an ingress scope cuts the others off at once, not at the cleanup. */
  lemma {:induction false} TransitionCutsIngress(owner: string) returns (o: Candidate, c: Candidate, p: Packet)
    ensures Turns(o, c, owner, p, Accept, Drop)
  {
    var source, host := Elsewhere();
    var was, now := Grant(WEB, []), Grant(WEB, [source]);
    o, c := Web(SecureDefault, [], [was]), Web(SecureDefault, [], [now]);
    p := Packet("eth0", V4, TcpSegment, host, 0, 0, 443, New);
    WebIsValid(was);
    WebIsValid(now);
    NarrowingCuts(o, c, owner, was, now, p);
  }
}
