/**
 From rule model to nft expressions: `_scope_atoms`, `_rule_spec`, `expected_listing` and
 `compare_live`, with the meaning the kernel gives a listing.
 */
module FirewallCompiler {
  import opened Options
  import opened Ordering
  import opened FirewallModel
  import opened FirewallPackets

  datatype MetaKey = MetaIif | MetaIifName | MetaNfproto | MetaL4
  datatype Field = Daddr | Saddr | IpProtocol | Sport | Dport
  datatype Layer = IpLayer(family: Family) | PortLayer(proto: Proto)

  datatype Right =
    | NameIs(name: string) | FamilyIs(family: Family) | L4Is(l4: L4) | PortIs(port: int)
    | HostIs(addr: Addr) | PrefixIs(family: Family, base: nat, len: nat) | CtIs(states: set<CtState>)

  datatype Expr =
    | MetaEq(key: MetaKey, right: Right) | PayloadEq(layer: Layer, field: Field, right: Right)
    | CtIn(right: Right) | Counter(packets: nat, bytes: nat) | Do(action: Action)

  // --- rendering ----------------------------------------------------------------------------

  /** `_cidr_right`: a bare address is a host route; `int()` raises on a netmask suffix. */
  function CidrRight(c: Cidr): Option<Right>
  {
    match c
    case Net(f, base, _, Bare) => Some(PrefixIs(f, base, Width(f)))
    case Net(f, base, len, Slash) => Some(PrefixIs(f, base, len))
    case Net(_, _, _, Netmask) => None
    case JunkCidr(_) => None
  }

  /** `_cidr_fam`: IPv4 when the text does not parse. */
  function CidrFamily(c: Cidr): Family { if c.Net? then c.family else V4 }

  /** `_fam_ip`. */
  function IpLayerOf(f: FamilyScope): Layer { IpLayer(if f == Only(V4) then V4 else V6) }

  function FamilyAtoms(s: Scope, saddr: Option<Cidr>): seq<Expr>
  {
    if s.addr == Star || s.addr == Ip(V4, 0) || s.addr == Ip(V6, 0) then
      if s.family.Only? && (saddr.None? || CidrFamily(saddr.value) != s.family.family)
      then [MetaEq(MetaNfproto, FamilyIs(s.family.family))]
      else []
    else [PayloadEq(IpLayerOf(s.family), Daddr, HostIs(s.addr))]
  }

  function SourceAtoms(s: Scope, saddr: Option<Cidr>): Option<seq<Expr>>
  {
    match saddr
    case None => Some([])
    case Some(c) =>
      var layer := IpLayerOf(if s.family.Dual? then Only(CidrFamily(c)) else s.family);
      match CidrRight(c)
      case None => None
      case Some(right) => Some([PayloadEq(layer, Saddr, right)])
  }

  /** `_rule_spec`'s expression list; None where rendering raises. */
  function RuleExprs(r: Rule): Option<seq<Expr>>
  {
    var verdict := [Do(r.action)];
    match r.m
    case IifLo => Some([MetaEq(MetaIif, NameIs("lo"))] + verdict)
    case CtInvalid => Some([CtIn(CtIs({Invalid}))] + verdict)
    case CtEstablishedRelated => Some([CtIn(CtIs({Established, Related}))] + verdict)
    case Icmpv6 => Some([MetaEq(MetaL4, L4Is(Icmpv6Message))] + verdict)
    case Icmp => Some([PayloadEq(IpLayer(V4), IpProtocol, L4Is(IcmpMessage))] + verdict)
    case Dhcpv4Client =>
      Some([MetaEq(MetaNfproto, FamilyIs(V4)), PayloadEq(PortLayer(Udp), Sport, PortIs(67)),
            PayloadEq(PortLayer(Udp), Dport, PortIs(68))] + verdict)
    case Dhcpv6Client =>
      Some([MetaEq(MetaNfproto, FamilyIs(V6)), PayloadEq(PortLayer(Udp), Sport, PortIs(547)),
            PayloadEq(PortLayer(Udp), Dport, PortIs(546))] + verdict)
    case MdnsV4 =>
      Some([PayloadEq(IpLayer(V4), Daddr, HostIs(Ip(V4, MDNS_V4))),
            PayloadEq(PortLayer(Udp), Dport, PortIs(5353))] + verdict)
    case MdnsV6 =>
      Some([PayloadEq(IpLayer(V6), Daddr, HostIs(Ip(V6, MDNS_V6))),
            PayloadEq(PortLayer(Udp), Dport, PortIs(5353))] + verdict)
    case ApDhcpServer(iif) =>
      Some([MetaEq(MetaIifName, NameIs(iif)), MetaEq(MetaNfproto, FamilyIs(V4)),
            PayloadEq(PortLayer(Udp), Sport, PortIs(68)), PayloadEq(PortLayer(Udp), Dport, PortIs(67))] + verdict)
    case ApDns(iif, proto, source) =>
      (match CidrRight(source)
       case None => None
       case Some(right) =>
         Some([MetaEq(MetaIifName, NameIs(iif)), PayloadEq(IpLayer(V4), Saddr, right),
               PayloadEq(PortLayer(proto), Dport, PortIs(53))] + verdict))
    case Scoped(scope, saddr, _) =>
      (match SourceAtoms(scope, saddr)
       case None => None
       case Some(source) =>
         Some(FamilyAtoms(scope, saddr) + source +
              [PayloadEq(PortLayer(scope.proto), Dport, PortIs(scope.port))] + verdict))
  }

  function RuleComment(r: Rule): Option<string>
  {
    if r.m.Scoped? && r.m.tag.Deny? && r.action == Drop then Some("lhpc-deny:" + r.m.tag.endpoint)
    else if r.m.Scoped? && r.m.tag.Transition? then Some("lhpc-transition")
    else None
  }

  /** Early drops name their endpoint, preserved ones the transition, and nothing else bears a comment. */
  lemma {:induction false} CommentsTell(e: Endpoint, g: Grant, saddr: Option<Cidr>)
    ensures RuleComment(DropRule(e)) == Some("lhpc-deny:" + e.id)
    ensures TransitionDrops([g]) != [] && RuleComment(TransitionDrops([g])[0]) == Some("lhpc-transition")
    ensures RuleComment(Rule(Accept, Scoped(g.scope, saddr, Plain))) == None
  {}

  datatype Entry =
    | MetaInfo(version: string)
    | TableEntry(family: string, name: string, comment: Option<string>, handle: Option<nat>)
    | ChainEntry(family: string, table: string, name: string, kind: string, hook: string,
                 prio: int, policy: Action, handle: Option<nat>)
    | RuleEntry(family: string, table: string, chain: string, exprs: seq<Expr>,
                comment: Option<string>, handle: Option<nat>)
    | OtherEntry(text: string)

  function RuleEntries(rules: seq<Rule>): Option<seq<Entry>>
  {
    if rules == [] then Some([])
    else
      match (RuleExprs(rules[0]), RuleEntries(rules[1..]))
      case (Some(es), Some(rest)) =>
        Some([RuleEntry("inet", "lhpc", "input", es, RuleComment(rules[0]), None)] + rest)
      case _ => None
  }

  function CommentOf(m: Model): string { "lhpc-owned:" + m.owner }

  /** `expected_listing`: table, chain, rules in order; None where rendering raises. */
  function ExpectedListing(m: Model): Option<seq<Entry>>
  {
    match RuleEntries(m.rules)
    case None => None
    case Some(rules) =>
      Some([TableEntry("inet", "lhpc", Some(CommentOf(m)), None),
            ChainEntry("inet", "lhpc", "input", "filter", "input", 0, m.policy, None)] + rules)
  }

  function After(done: seq<Entry>, rest: Option<seq<Entry>>): Option<seq<Entry>>
  {
    if rest.None? then None else Some(done + rest.value)
  }

  lemma {:induction false} AfterLaws(done: seq<Entry>, e: Entry, rest: Option<seq<Entry>>)
    ensures After([], rest) == rest
    ensures After(done + [e], rest) == After(done, After([e], rest))
  {
    if rest.Some? {
      assert [] + rest.value == rest.value;
      assert (done + [e]) + rest.value == done + ([e] + rest.value);
    }
  }

  /** `expected_listing` as the loop that builds it. */
  method BuildExpectedListing(m: Model) returns (out: Option<seq<Entry>>)
    ensures out == ExpectedListing(m)
  {
    var entries := [TableEntry("inet", "lhpc", Some(CommentOf(m)), None),
                    ChainEntry("inet", "lhpc", "input", "filter", "input", 0, m.policy, None)];
    ghost var head := entries;
    ghost var done: seq<Entry> := [];
    AfterLaws([], entries[0], RuleEntries(m.rules));
    assert m.rules[0..] == m.rules;
    for i := 0 to |m.rules|
      invariant entries == head + done
      invariant RuleEntries(m.rules) == After(done, RuleEntries(m.rules[i..]))
    {
      var es := RuleExprs(m.rules[i]);
      assert m.rules[i..][1..] == m.rules[i + 1..];
      if es.None? {
        return None;
      }
      var entry := RuleEntry("inet", "lhpc", "input", es.value, RuleComment(m.rules[i]), None);
      entries := entries + [entry];
      assert RuleEntries(m.rules[i..]) == After([entry], RuleEntries(m.rules[i + 1..]));
      AfterLaws(done, entry, RuleEntries(m.rules[i + 1..]));
      done := done + [entry];
    }
    assert RuleEntries(m.rules[|m.rules|..]) == Some([]) && done + [] == done;
    return Some(entries);
  }

  // --- the kernel's reading of a listing ----------------------------------------------------

  predicate RightHolds(e: Expr, p: Packet)
  {
    match e
    case MetaEq(MetaIif, NameIs(n)) => p.iif == n
    case MetaEq(MetaIifName, NameIs(n)) => p.iif == n
    case MetaEq(MetaNfproto, FamilyIs(f)) => p.family == f
    case MetaEq(MetaL4, L4Is(l4)) => p.l4 == l4
    case PayloadEq(IpLayer(f), IpProtocol, L4Is(l4)) => p.family == f && p.l4 == l4
    case PayloadEq(IpLayer(f), Daddr, HostIs(Ip(g, n))) => p.family == f && f == g && p.daddr == n
    case PayloadEq(IpLayer(f), Saddr, PrefixIs(g, base, len)) =>
      p.family == f && f == g && PrefixHolds(Width(f), base, len, p.saddr)
    case PayloadEq(PortLayer(proto), Sport, PortIs(n)) => p.l4 == L4Of(proto) && p.sport == n
    case PayloadEq(PortLayer(proto), Dport, PortIs(n)) => p.l4 == L4Of(proto) && p.dport == n
    case CtIn(CtIs(states)) => p.ct in states
    case _ => false
  }

  /** Expressions run left to right; the first match that fails ends the rule. */
  function RunExprs(es: seq<Expr>, p: Packet): Option<Action>
  {
    if es == [] then None
    else if es[0].Do? then Some(es[0].action)
    else if es[0].Counter? || RightHolds(es[0], p) then RunExprs(es[1..], p)
    else None
  }

  function ListingRules(l: seq<Entry>): seq<seq<Expr>>
  {
    if l == [] then []
    else (if l[0].RuleEntry? && l[0].chain == "input" then [l[0].exprs] else []) + ListingRules(l[1..])
  }

  function ListingPolicy(l: seq<Entry>): Action
  {
    if l == [] then Accept
    else if l[0].ChainEntry? && l[0].hook == "input" then l[0].policy
    else ListingPolicy(l[1..])
  }

  function RunRules(rs: seq<seq<Expr>>, policy: Action, p: Packet): Action
  {
    if rs == [] then policy
    else
      match RunExprs(rs[0], p)
      case Some(a) => a
      case None => RunRules(rs[1..], policy, p)
  }

  function ListingVerdict(l: seq<Entry>, p: Packet): Action
  {
    RunRules(ListingRules(l), ListingPolicy(l), p)
  }

  // --- compiler correctness -----------------------------------------------------------------

  /** A scope the validation admits, with sources of its family. */
  predicate RuleOk(r: Rule)
  {
    match r.m
    case ApDns(_, _, source) => CidrOk(source, Only(V4))
    case Scoped(s, saddr, _) => ScopeOk(s) && (saddr.Some? ==> CidrOk(saddr.value, s.family))
    case _ => true
  }

  /** The rule carries no source CIDR in netmask form. */
  predicate NoNetmask(r: Rule)
  {
    match r.m
    case ApDns(_, _, Net(_, _, _, form)) => form != Netmask
    case Scoped(_, Some(Net(_, _, _, form)), _) => form != Netmask
    case _ => true
  }

  /** A rule the validation admits renders exactly when its CIDR has no netmask suffix. */
  lemma {:induction false} RendersUnlessNetmask(r: Rule)
    requires RuleOk(r)
    ensures RuleExprs(r).Some? <==> NoNetmask(r)
  {}

  lemma {:induction false} TwoThenDo(x: Expr, y: Expr, a: Action, p: Packet)
    requires !x.Do? && !x.Counter? && !y.Do? && !y.Counter?
    ensures RunExprs([x, y, Do(a)], p) == if RightHolds(x, p) && RightHolds(y, p) then Some(a) else None
  {
    assert [x, y, Do(a)][1..] == [y, Do(a)] && [y, Do(a)][1..] == [Do(a)];
    assert RunExprs([Do(a)], p) == Some(a);
    assert RunExprs([y, Do(a)], p) == if RightHolds(y, p) then Some(a) else None;
  }

  lemma {:induction false} ThreeThenDo(x: Expr, y: Expr, z: Expr, a: Action, p: Packet)
    requires !x.Do? && !x.Counter? && !y.Do? && !y.Counter? && !z.Do? && !z.Counter?
    ensures RunExprs([x, y, z, Do(a)], p) ==
      if RightHolds(x, p) && RightHolds(y, p) && RightHolds(z, p) then Some(a) else None
  {
    assert [x, y, z, Do(a)][1..] == [y, z, Do(a)];
    TwoThenDo(y, z, a, p);
  }

  lemma {:induction false} FixedRule3(es: seq<Expr>, a: Action, p: Packet)
    requires |es| == 4 && es[3] == Do(a)
    requires forall i :: 0 <= i < 3 ==> !es[i].Do? && !es[i].Counter?
    ensures RunExprs(es, p) ==
      if RightHolds(es[0], p) && RightHolds(es[1], p) && RightHolds(es[2], p) then Some(a) else None
  {
    assert es == [es[0], es[1], es[2], Do(a)];
    ThreeThenDo(es[0], es[1], es[2], a, p);
  }

  /** A scoped rule: family atom or destination, then source, then port. */
  lemma {:induction false} ScopedRuleMeansItsScope(r: Rule, p: Packet)
    requires r.m.Scoped? && RuleOk(r) && RuleExprs(r).Some?
    ensures RunExprs(RuleExprs(r).value, p) == if Matches(r.m, p) then Some(r.action) else None
  {
    var s, saddr := r.m.scope, r.m.saddr;
    var fam, source := FamilyAtoms(s, saddr), SourceAtoms(s, saddr).value;
    var port := PayloadEq(PortLayer(s.proto), Dport, PortIs(s.port));
    var es := RuleExprs(r).value;
    assert |fam| <= 1 && |source| <= 1;
    if fam == [] && source == [] {
      assert es == [port, Do(r.action)];
      assert es[1..] == [Do(r.action)];
    } else if fam == [] {
      assert es == [source[0], port, Do(r.action)];
      TwoThenDo(source[0], port, r.action, p);
    } else if source == [] {
      assert es == [fam[0], port, Do(r.action)];
      TwoThenDo(fam[0], port, r.action, p);
    } else {
      assert es == [fam[0], source[0], port, Do(r.action)];
      ThreeThenDo(fam[0], source[0], port, r.action, p);
    }
  }

  /** Every rendered rule decides every packet as the abstract rule does. */
  lemma {:induction false} RuleMeansItsMatch(r: Rule, p: Packet)
    requires RuleOk(r) && RuleExprs(r).Some?
    ensures RunExprs(RuleExprs(r).value, p) == if Matches(r.m, p) then Some(r.action) else None
  {
    var es := RuleExprs(r).value;
    match r.m
    case Dhcpv4Client => FixedRule3(es, r.action, p);
    case Dhcpv6Client => FixedRule3(es, r.action, p);
    case MdnsV4 => assert es == [es[0], es[1], Do(r.action)]; TwoThenDo(es[0], es[1], r.action, p);
    case MdnsV6 => assert es == [es[0], es[1], Do(r.action)]; TwoThenDo(es[0], es[1], r.action, p);
    case ApDhcpServer(_) => FixedRule3(es[1..], r.action, p);
    case ApDns(_, _, _) => FixedRule3(es, r.action, p);
    case Scoped(_, _, _) => ScopedRuleMeansItsScope(r, p);
    case _ => assert es[1..] == [Do(r.action)];
  }

  ghost predicate RulesOk(rules: seq<Rule>) { forall r :: r in rules ==> RuleOk(r) }

  lemma {:induction false} EntriesMeanTheRules(rules: seq<Rule>, policy: Action, p: Packet)
    requires RulesOk(rules) && RuleEntries(rules).Some?
    ensures RunRules(ListingRules(RuleEntries(rules).value), policy, p) == Verdict(rules, policy, p)
  {
    if rules != [] {
      var es := RuleEntries(rules).value;
      RuleMeansItsMatch(rules[0], p);
      assert rules == [rules[0]] + rules[1..];
      assert es[1..] == RuleEntries(rules[1..]).value;
      var rs := ListingRules(es);
      assert rs[0] == RuleExprs(rules[0]).value && rs[1..] == ListingRules(es[1..]);
      EntriesMeanTheRules(rules[1..], policy, p);
    }
  }

  /** First-match evaluation of the expected listing is the verdict of the model. */
  lemma {:induction false} ListingMeansTheModel(m: Model, p: Packet)
    requires RulesOk(m.rules) && ExpectedListing(m).Some?
    ensures ListingVerdict(ExpectedListing(m).value, p) == VerdictOf(m, p)
  {
    var l := ExpectedListing(m).value;
    var rules := RuleEntries(m.rules).value;
    assert l[1..][1..] == rules && l[1..][0].ChainEntry?;
    assert ListingRules(l[1..]) == ListingRules(rules) && ListingRules(l) == ListingRules(rules);
    assert ListingPolicy(l[1..]) == m.policy;
    EntriesMeanTheRules(m.rules, m.policy, p);
  }

  // --- validated candidates render to what they mean ----------------------------------------

  ghost predicate GrantsOk(gs: seq<Grant>)
  {
    forall g :: g in gs ==> ScopeOk(g.scope) && forall c :: c in g.cidrs ==> CidrOk(c, g.scope.family)
  }

  lemma {:induction false} EndpointDropsComeFrom(es: seq<Endpoint>, seen: set<Scope>, r: Rule)
    requires r in EndpointDrops(es, seen)
    ensures exists e :: e in es && r == DropRule(e)
  {
    if es != [] {
      if es[0].scope in seen {
        EndpointDropsComeFrom(es[1..], seen, r);
      } else if r != DropRule(es[0]) {
        EndpointDropsComeFrom(es[1..], seen + {es[0].scope}, r);
      } else {
        assert es[0] in es;
      }
    }
  }

  lemma {:induction false} TransitionDropsComeFrom(gs: seq<Grant>, r: Rule)
    requires r in TransitionDrops(gs)
    ensures exists g :: g in gs && r == Rule(Drop, Scoped(g.scope, None, Transition))
  {
    if r != Rule(Drop, Scoped(gs[0].scope, None, Transition)) {
      TransitionDropsComeFrom(gs[1..], r);
    } else {
      assert gs[0] in gs;
    }
  }

  lemma {:induction false} EarlyDropsOk(c: Candidate, drop: seq<Grant>, r: Rule)
    requires ValidCandidate(c) && GrantsOk(drop)
    requires r in EarlyDrops(c, drop)
    ensures RuleOk(r) && NoNetmask(r)
  {
    var droppable := DroppableOf(c, c.endpoints);
    SortKeepsMembers(droppable, EndpointKey);
    SortKeepsMembers(drop, GrantKey);
    if r in EndpointDrops(SortEndpoints(droppable), {}) {
      EndpointDropsComeFrom(SortEndpoints(droppable), {}, r);
    } else {
      TransitionDropsComeFrom(SortGrants(drop), r);
    }
  }

  lemma {:induction false} ScopeRulesOk(c: Candidate, ssh: seq<Grant>, allow: seq<Grant>, r: Rule)
    requires ValidCandidate(c) && GrantsOk(ssh) && GrantsOk(allow)
    requires ScopeRule(c, ssh, allow, r)
    ensures RuleOk(r)
  {}

  /** The rules of a resolved model, by where they come from. */
  lemma {:induction false} ResolvedHold(c: Candidate, owner: string, ssh: seq<Grant>,
                                        allow: seq<Grant>, drop: seq<Grant>, r: Rule)
    ensures r in Resolved(c, owner, ssh, allow, drop).rules <==>
      r == Rule(Accept, IifLo) || r in EarlyDrops(c, drop) || r in CT_AND_ICMP ||
      (c.mode == SecureDefault && r in Allows(c, ssh, allow))
  {
    var early, rest := EarlyDrops(c, drop), if c.mode == SecureDefault then Allows(c, ssh, allow) else [];
    assert Resolved(c, owner, ssh, allow, drop).rules == [Rule(Accept, IifLo)] + early + CT_AND_ICMP + rest;
  }

  lemma {:induction false} FixedRulesOk(c: Candidate, r: Rule)
    requires ValidCandidate(c) && (r in Baseline() || r in ApRules(c.ap))
    ensures RuleOk(r)
  {}

  lemma {:induction false} AllowsOk(c: Candidate, ssh: seq<Grant>, allow: seq<Grant>, r: Rule)
    requires ValidCandidate(c) && GrantsOk(ssh) && GrantsOk(allow)
    requires r in Allows(c, ssh, allow)
    ensures RuleOk(r)
  {
    AllowsHold(c, ssh, allow, r);
    if ScopeRule(c, ssh, allow, r) {
      ScopeRulesOk(c, ssh, allow, r);
    } else {
      FixedRulesOk(c, r);
    }
  }

  lemma {:induction false} ResolvedRulesOk(c: Candidate, owner: string, ssh: seq<Grant>,
                                           allow: seq<Grant>, drop: seq<Grant>)
    requires ValidCandidate(c) && GrantsOk(ssh) && GrantsOk(allow) && GrantsOk(drop)
    ensures RulesOk(Resolved(c, owner, ssh, allow, drop).rules)
  {
    forall r | r in Resolved(c, owner, ssh, allow, drop).rules ensures RuleOk(r) {
      ResolvedHold(c, owner, ssh, allow, drop, r);
      if r in EarlyDrops(c, drop) {
        EarlyDropsOk(c, drop, r);
      } else if c.mode == SecureDefault && r in Allows(c, ssh, allow) {
        AllowsOk(c, ssh, allow, r);
      }
    }
  }

  lemma {:induction false} EntriesRender(rules: seq<Rule>)
    requires RulesOk(rules)
    ensures RuleEntries(rules).Some? <==> forall r :: r in rules ==> NoNetmask(r)
  {
    if rules != [] {
      RendersUnlessNetmask(rules[0]);
      assert forall r :: r in rules <==> r == rules[0] || r in rules[1..];
      EntriesRender(rules[1..]);
    }
  }

  ghost predicate NetmaskIn(cs: seq<Cidr>) { exists c :: c in cs && c.Net? && c.form == Netmask }

  /** Some source the secure-default rules quote is written with a netmask. */
  ghost predicate QuotesNetmask(c: Candidate, ssh: seq<Grant>, allow: seq<Grant>)
  {
    (c.ap.enabled && NetmaskIn([c.ap.cidr])) ||
    (exists g :: g in ssh && NetmaskIn(g.cidrs)) ||
    (exists e :: e in c.endpoints && e.selected && NetmaskIn(e.cidrs)) ||
    (exists g :: g in c.ingress && NetmaskIn(g.cidrs)) ||
    (exists g :: g in allow && NetmaskIn(g.cidrs)) ||
    (exists x :: x in c.extra && NetmaskIn([x.cidr]))
  }

  ghost predicate ExpandsToNetmask(s: Scope, cidrs: seq<Cidr>)
  {
    exists r :: AllowRule(s, cidrs, r) && !NoNetmask(r)
  }

  lemma {:induction false} AllowRuleNetmask(s: Scope, cidrs: seq<Cidr>)
    ensures ExpandsToNetmask(s, cidrs) <==> NetmaskIn(cidrs)
  {
    if NetmaskIn(cidrs) {
      var c :| c in cidrs && c.Net? && c.form == Netmask;
      var r := Rule(Accept, Scoped(s, Some(c), Plain));
      assert AllowRule(s, cidrs, r) && !NoNetmask(r);
    }
  }

  lemma {:induction false} ScopesNetmask(c: Candidate, ssh: seq<Grant>, allow: seq<Grant>)
    ensures (exists r :: ScopeRule(c, ssh, allow, r) && !NoNetmask(r)) <==>
      (exists g :: g in ssh && NetmaskIn(g.cidrs)) ||
      (exists e :: e in c.endpoints && e.selected && NetmaskIn(e.cidrs)) ||
      (exists g :: g in c.ingress && NetmaskIn(g.cidrs)) ||
      (exists g :: g in allow && NetmaskIn(g.cidrs)) ||
      (exists x :: x in c.extra && NetmaskIn([x.cidr]))
  {
    forall s, cidrs ensures ExpandsToNetmask(s, cidrs) <==> NetmaskIn(cidrs) {
      AllowRuleNetmask(s, cidrs);
    }
    assert (exists r :: ScopeRule(c, ssh, allow, r) && !NoNetmask(r)) <==>
      (exists g :: g in ssh && ExpandsToNetmask(g.scope, g.cidrs)) ||
      (exists e :: e in c.endpoints && e.selected && ExpandsToNetmask(e.scope, e.cidrs)) ||
      (exists g :: g in c.ingress && ExpandsToNetmask(g.scope, g.cidrs)) ||
      (exists g :: g in allow && ExpandsToNetmask(g.scope, g.cidrs)) ||
      (exists x :: x in c.extra && ExpandsToNetmask(x.scope, [x.cidr]));
  }

  lemma {:induction false} FixedNetmask(c: Candidate)
    ensures forall r :: r in Baseline() ==> NoNetmask(r)
    ensures (exists r :: r in ApRules(c.ap) && !NoNetmask(r)) <==> c.ap.enabled && NetmaskIn([c.ap.cidr])
  {
    var ap := ApRules(c.ap);
    if c.ap.enabled {
      assert ap[1] in ap && c.ap.cidr in [c.ap.cidr];
    }
  }

  lemma {:induction false} AllowsNetmask(rules: seq<Rule>, c: Candidate, ssh: seq<Grant>, allow: seq<Grant>)
    requires forall r :: r in rules <==> r in Baseline() || r in ApRules(c.ap) || ScopeRule(c, ssh, allow, r)
    ensures (exists r :: r in rules && !NoNetmask(r)) <==> QuotesNetmask(c, ssh, allow)
  {
    ScopesNetmask(c, ssh, allow);
    FixedNetmask(c);
  }

  lemma {:induction false} AllowsNetmaskFor(c: Candidate, ssh: seq<Grant>, allow: seq<Grant>)
    ensures (exists r :: r in Allows(c, ssh, allow) && !NoNetmask(r)) <==> QuotesNetmask(c, ssh, allow)
  {
    var rules := Allows(c, ssh, allow);
    assert forall r :: r in rules <==> r in Baseline() || r in ApRules(c.ap) || ScopeRule(c, ssh, allow, r) by {
      forall r { AllowsHold(c, ssh, allow, r); }
    }
    AllowsNetmask(rules, c, ssh, allow);
  }

  lemma {:induction false} NetmaskOnlyInAllows(rules: seq<Rule>, early: seq<Rule>, allows: seq<Rule>, secure: bool)
    requires forall r :: r in rules <==>
      r == Rule(Accept, IifLo) || r in early || r in CT_AND_ICMP || (secure && r in allows)
    requires forall r :: r in early ==> NoNetmask(r)
    ensures (exists r :: r in rules && !NoNetmask(r)) <==>
      secure && (exists r :: r in allows && !NoNetmask(r))
  {}

  lemma {:induction false} ResolvedNetmask(c: Candidate, owner: string, ssh: seq<Grant>,
                                           allow: seq<Grant>, drop: seq<Grant>)
    requires ValidCandidate(c) && GrantsOk(drop)
    ensures (exists r :: r in Resolved(c, owner, ssh, allow, drop).rules && !NoNetmask(r)) <==>
      c.mode == SecureDefault && QuotesNetmask(c, ssh, allow)
  {
    var rules, early, allows := Resolved(c, owner, ssh, allow, drop).rules, EarlyDrops(c, drop), Allows(c, ssh, allow);
    assert forall r :: r in rules <==>
      r == Rule(Accept, IifLo) || r in early || r in CT_AND_ICMP || (c.mode == SecureDefault && r in allows) by
    {
      forall r { ResolvedHold(c, owner, ssh, allow, drop, r); }
    }
    assert forall r :: r in early ==> NoNetmask(r) by {
      forall r | r in early { EarlyDropsOk(c, drop, r); }
    }
    NetmaskOnlyInAllows(rules, early, allows, c.mode == SecureDefault);
    AllowsNetmaskFor(c, ssh, allow);
  }

  /**
   A validated candidate renders exactly when no quoted source is in netmask form: validation
   accepts `10.0.0.0/255.0.0.0`, `_cidr_right` then raises on it.
   */
  lemma {:induction false} RendersExactlyWithoutNetmask(c: Candidate, owner: string, ssh: seq<Grant>,
                                                        allow: seq<Grant>, drop: seq<Grant>)
    requires ValidCandidate(c) && GrantsOk(ssh) && GrantsOk(allow) && GrantsOk(drop)
    ensures ExpectedListing(Resolved(c, owner, ssh, allow, drop)).Some? <==>
      !(c.mode == SecureDefault && QuotesNetmask(c, ssh, allow))
  {
    ResolvedRulesOk(c, owner, ssh, allow, drop);
    EntriesRender(Resolved(c, owner, ssh, allow, drop).rules);
    ResolvedNetmask(c, owner, ssh, allow, drop);
  }

  /** Ends the compiler: what the table does to a packet is what the scopes say. */
  lemma {:induction false} CompiledTableMeansTheScopes(c: Candidate, owner: string, ssh: seq<Grant>,
                                                       allow: seq<Grant>, drop: seq<Grant>, p: Packet)
    requires ValidCandidate(c) && GrantsOk(ssh) && GrantsOk(allow) && GrantsOk(drop)
    requires !(c.mode == SecureDefault && QuotesNetmask(c, ssh, allow))
    ensures var l := ExpectedListing(Resolved(c, owner, ssh, allow, drop));
      l.Some? && ListingVerdict(l.value, p) == VerdictOf(Resolved(c, owner, ssh, allow, drop), p)
  {
    RendersExactlyWithoutNetmask(c, owner, ssh, allow, drop);
    ResolvedRulesOk(c, owner, ssh, allow, drop);
    ListingMeansTheModel(Resolved(c, owner, ssh, allow, drop), p);
  }

  /** The concrete input: valid, and its table cannot be rendered. */
  lemma {:induction false} NetmaskCandidateDoesNotRender()
    ensures exists c :: ValidCandidate(c) && ExpectedListing(Resolved(c, "", [], [], [])).None?
  {
    var cidr := Net(V4, 0x0A000000, 8, Netmask);
    var g := Grant(Scope(Tcp, Only(V4), Star, 443), [cidr]);
    var c := Candidate(1, SecureDefault, [], [g], [], Ap(false, "", JunkCidr("")), []);
    assert cidr in g.cidrs && g in c.ingress;
    RendersExactlyWithoutNetmask(c, "", [], [], []);
  }

  // --- live verification --------------------------------------------------------------------

  function DropCounters(es: seq<Expr>): seq<Expr>
  {
    if es == [] then []
    else (if es[0].Counter? then [] else [es[0]]) + DropCounters(es[1..])
  }

  function StripEntry(e: Entry): Entry
  {
    match e
    case RuleEntry(f, t, c, es, comment, _) => RuleEntry(f, t, c, DropCounters(es), comment, None)
    case TableEntry(f, n, comment, _) => TableEntry(f, n, comment, None)
    case ChainEntry(f, t, n, kind, hook, prio, policy, _) => ChainEntry(f, t, n, kind, hook, prio, policy, None)
    case _ => e
  }

  /** `strip_volatile`: metainfo, handles and counters go, everything else survives. */
  function StripVolatile(l: seq<Entry>): seq<Entry>
  {
    if l == [] then []
    else (if l[0].MetaInfo? then [] else [StripEntry(l[0])]) + StripVolatile(l[1..])
  }

  function Tables(l: seq<Entry>): (r: seq<Entry>)
    ensures forall e :: e in r ==> e.TableEntry?
  {
    if l == [] then [] else (if l[0].TableEntry? then [l[0]] else []) + Tables(l[1..])
  }

  datatype LiveVerdict = Verified | Mismatch | MissingTable | NotOwned | Unreadable | Raised

  /** `compare_live`, for a parsed listing or None when the text is not JSON. */
  function CompareLive(live: Option<seq<Entry>>, m: Model): LiveVerdict
  {
    match live
    case None => Unreadable
    case Some(l) =>
      var stripped := StripVolatile(l);
      var tables := Tables(stripped);
      if tables == [] then MissingTable
      else if |tables| != 1 || tables[0].name != "lhpc" then Unreadable
      else if tables[0].comment != Some(CommentOf(m)) then NotOwned
      else
        match ExpectedListing(m)
        case None => Raised
        case Some(expected) => if stripped == expected then Verified else Mismatch
  }

  lemma {:induction false} CountersDoNotDecide(es: seq<Expr>, p: Packet)
    ensures RunExprs(DropCounters(es), p) == RunExprs(es, p)
  {
    if es != [] {
      CountersDoNotDecide(es[1..], p);
      if es[0].Counter? {
        assert DropCounters(es) == DropCounters(es[1..]);
      } else {
        assert DropCounters(es)[1..] == DropCounters(es[1..]);
      }
    }
  }

  lemma {:induction false} StrippedRulesDecideAlike(l: seq<Entry>, policy: Action, p: Packet)
    ensures RunRules(ListingRules(StripVolatile(l)), policy, p) == RunRules(ListingRules(l), policy, p)
  {
    if l != [] {
      StrippedRulesDecideAlike(l[1..], policy, p);
      var s := StripVolatile(l);
      if l[0].MetaInfo? {
        assert s == StripVolatile(l[1..]);
      } else {
        assert s[0] == StripEntry(l[0]) && s[1..] == StripVolatile(l[1..]);
        if l[0].RuleEntry? && l[0].chain == "input" {
          CountersDoNotDecide(l[0].exprs, p);
          assert ListingRules(s)[1..] == ListingRules(s[1..]);
          assert ListingRules(l)[1..] == ListingRules(l[1..]);
        } else {
          assert ListingRules(s) == ListingRules(s[1..]);
        }
      }
      if !(l[0].RuleEntry? && l[0].chain == "input") {
        assert ListingRules(l) == ListingRules(l[1..]);
      }
    }
  }

  lemma {:induction false} StrippedPolicyIsThePolicy(l: seq<Entry>)
    ensures ListingPolicy(StripVolatile(l)) == ListingPolicy(l)
  {
    if l != [] {
      StrippedPolicyIsThePolicy(l[1..]);
      if l[0].MetaInfo? {
        assert StripVolatile(l) == StripVolatile(l[1..]);
      } else {
        assert StripVolatile(l)[1..] == StripVolatile(l[1..]);
      }
    }
  }

  /** "verified" only for a live table that treats every packet as the accepted model does. */
  lemma {:induction false} VerifiedMeansTheModel(live: Option<seq<Entry>>, m: Model, p: Packet)
    requires RulesOk(m.rules) && CompareLive(live, m) == Verified
    ensures live.Some? && ListingVerdict(live.value, p) == VerdictOf(m, p)
  {
    StrippedRulesDecideAlike(live.value, ListingPolicy(live.value), p);
    StrippedPolicyIsThePolicy(live.value);
    ListingMeansTheModel(m, p);
  }

  lemma {:induction false} RuleEntriesHoldNoTable(rules: seq<Rule>)
    requires RuleEntries(rules).Some?
    ensures Tables(RuleEntries(rules).value) == []
  {
    if rules != [] {
      RuleEntriesHoldNoTable(rules[1..]);
      assert RuleEntries(rules).value[1..] == RuleEntries(rules[1..]).value;
    }
  }

  /** ... and for every listing that is the expected one up to handles, counters and metainfo. */
  lemma {:induction false} ExpectedIsVerified(l: seq<Entry>, m: Model)
    requires ExpectedListing(m) == Some(StripVolatile(l))
    ensures CompareLive(Some(l), m) == Verified
  {
    var e := StripVolatile(l);
    var rules := RuleEntries(m.rules).value;
    assert e[1..][1..] == rules;
    RuleEntriesHoldNoTable(m.rules);
    assert Tables(e[1..]) == [];
    assert Tables(e) == [e[0]];
  }
}
