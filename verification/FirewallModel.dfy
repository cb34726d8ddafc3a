/**
 The managed firewall's candidate, its validation, and the ordered rule model the
 root helper resolves from it (lhpc/core/firewall_helper.py, lhpc/core/firewall.py).
 Addresses and CIDRs are parsed values; texts that do not parse stay as `Junk`.
 */
module FirewallModel {
  import opened Options
  import opened Collections
  import opened Ordering

  datatype Family = V4 | V6
  datatype Proto = Tcp | Udp
  datatype FamilyScope = Dual | Only(family: Family)

  /** `Ip(V4, 0)` is the bind wildcard 0.0.0.0 and `Ip(V6, 0)` is `::`. */
  datatype Addr = Star | Ip(family: Family, n: nat) | JunkAddr(text: string)

  /** How the CIDR text carries its length: "a", "a/24" or "a/255.255.255.0". */
  datatype CidrForm = Bare | Slash | Netmask
  datatype Cidr = Net(family: Family, base: nat, len: nat, form: CidrForm) | JunkCidr(text: string)

  datatype Scope = Scope(proto: Proto, family: FamilyScope, addr: Addr, port: int)

  /** A scope with the source CIDRs that narrow it (proxy ingress, SSH, transition allows). */
  datatype Grant = Grant(scope: Scope, cidrs: seq<Cidr>)

  datatype Endpoint = Endpoint(id: string, band: string, scope: Scope, cidrs: seq<Cidr>,
                               selected: bool, denyDefault: bool, auth: string)
  datatype Extra = Extra(scope: Scope, cidr: Cidr)
  datatype Ap = Ap(enabled: bool, iface: string, cidr: Cidr)
  datatype Mode = SecureDefault | Compatibility

  datatype Candidate = Candidate(schema: int, mode: Mode, endpoints: seq<Endpoint>,
                                 ingress: seq<Grant>, sshPorts: seq<int>, ap: Ap,
                                 extra: seq<Extra>)

  const CANDIDATE_SCHEMA := 1
  const MAX_ENDPOINTS := 128
  const MAX_PROXY_INGRESS := 32
  const MAX_CIDRS := 32
  const MAX_SSH_PORTS := 16
  const MAX_EXTRA_ALLOW := 64

  // --- validation ---------------------------------------------------------------------------

  predicate Lower(c: char) { 'a' <= c <= 'z' }
  predicate Digit(c: char) { '0' <= c <= '9' }

  /** `^[a-z0-9][a-z0-9._-]{0,127}$` under `re.match`: `$` also matches before a final newline. */
  predicate IdOk(s: string)
  {
    IdBody(if s != [] && s[|s| - 1] == '\n' then s[..|s| - 1] else s)
  }

  predicate IdBody(t: string)
  {
    1 <= |t| <= 128 && (Lower(t[0]) || Digit(t[0])) &&
    forall i :: 0 <= i < |t| ==> Lower(t[i]) || Digit(t[i]) || t[i] in "._-"
  }

  predicate IfaceOk(s: string)
  {
    var t := if s != [] && s[|s| - 1] == '\n' then s[..|s| - 1] else s;
    1 <= |t| <= 15 &&
    forall i :: 0 <= i < |t| ==>
      Lower(t[i]) || 'A' <= t[i] <= 'Z' || Digit(t[i]) || t[i] in "_.-"
  }

  const LOWER_AND_DIGITS: string := "abcdefghijklmnopqrstuvwxyz0123456789"

  lemma LettersExactly(c: char)
    ensures Lower(c) || Digit(c) <==> c in LOWER_AND_DIGITS
  {}

  /** A letter or digit, and at most 127 more characters. */
  predicate IdText(t: string)
  {
    1 <= |t| <= 128 && t[0] in LOWER_AND_DIGITS &&
    forall i :: 0 <= i < |t| ==> t[i] in LOWER_AND_DIGITS || t[i] in "._-"
  }

  /** An id may end in one newline, which the pattern lets through. */
  lemma {:induction false} IdOkExactly(s: string)
    ensures IdOk(s) <==> IdText(s) || (s != "" && s[|s| - 1] == '\n' && IdText(s[..|s| - 1]))
  {
    BodyExactly(s);
    if s != "" { BodyExactly(s[..|s| - 1]); }
    if IdText(s) { IdTextEnds(s); }
  }

  lemma {:induction false} BodyExactly(t: string)
    ensures IdBody(t) <==> IdText(t)
  {
    forall c: char ensures Lower(c) || Digit(c) <==> c in LOWER_AND_DIGITS { LettersExactly(c); }
  }

  lemma {:induction false} IdTextEnds(t: string)
    requires IdText(t)
    ensures t[|t| - 1] != '\n'
  {
    NewlineIsNoLetter();
    var last := t[|t| - 1];
    assert last in LOWER_AND_DIGITS || last in "._-";
  }

  lemma NewlineIsNoLetter()
    ensures '\n' !in LOWER_AND_DIGITS && '\n' !in "._-"
  {
    LettersExactly('\n');
  }

  predicate PortOk(p: int) { 1 <= p <= 65535 }

  predicate ScopeOk(s: Scope)
  {
    PortOk(s.port) &&
    (s.addr.Star? || (s.addr.Ip? && s.family == Only(s.addr.family)))
  }

  predicate CidrOk(c: Cidr, f: FamilyScope)
  {
    c.Net? && (f.Only? ==> c.family == f.family)
  }

  predicate CidrsOk(cs: seq<Cidr>, f: FamilyScope)
  {
    |cs| <= MAX_CIDRS && forall c :: c in cs ==> CidrOk(c, f)
  }

  predicate Overlap(a: Scope, b: Scope)
  {
    a.proto == b.proto && a.port == b.port &&
    (a.family == b.family || a.family == Dual || b.family == Dual) &&
    (a.addr == Star || b.addr == Star || a.addr == b.addr)
  }

  predicate EndpointOk(e: Endpoint)
  {
    IdOk(e.id) && ScopeOk(e.scope) && CidrsOk(e.cidrs, e.scope.family) &&
    e.auth in ["none", "password", "mtls", "token"]
  }

  predicate ApOk(ap: Ap)
  {
    ap.enabled ==> IfaceOk(ap.iface) && ap.cidr.Net? && ap.cidr.family == V4
  }

  ghost predicate DistinctIds(eps: seq<Endpoint>)
  {
    forall i, j :: 0 <= i < j < |eps| ==> (eps[i].id, eps[i].band) != (eps[j].id, eps[j].band)
  }

  ghost predicate EndpointsOk(eps: seq<Endpoint>)
  {
    |eps| <= MAX_ENDPOINTS && (forall e :: e in eps ==> EndpointOk(e)) && DistinctIds(eps)
  }

  ghost predicate IngressOk(gs: seq<Grant>)
  {
    |gs| <= MAX_PROXY_INGRESS &&
    forall g :: g in gs ==> ScopeOk(g.scope) && CidrsOk(g.cidrs, g.scope.family)
  }

  ghost predicate SshOk(ports: seq<int>)
  {
    |ports| <= MAX_SSH_PORTS && forall p :: p in ports ==> PortOk(p)
  }

  /** No extra allow may graze the scope of a deny-default endpoint. */
  ghost predicate ExtraEntryOk(x: Extra, eps: seq<Endpoint>)
  {
    ScopeOk(x.scope) && CidrOk(x.cidr, x.scope.family) &&
    (forall e :: e in eps && e.denyDefault ==> !Overlap(x.scope, e.scope))
  }

  ghost predicate ExtraOk(xs: seq<Extra>, eps: seq<Endpoint>)
  {
    |xs| <= MAX_EXTRA_ALLOW && (forall x :: x in xs ==> ExtraEntryOk(x, eps))
  }

  ghost predicate ValidCandidate(c: Candidate)
  {
    c.schema == CANDIDATE_SCHEMA && EndpointsOk(c.endpoints) && IngressOk(c.ingress) &&
    SshOk(c.sshPorts) && ApOk(c.ap) && ExtraOk(c.extra, c.endpoints)
  }

  datatype Error =
    | BadSchema | TooMany(list: string) | BadId(list: string, i: nat) | DuplicateId(i: nat)
    | BadScope(list: string, i: nat) | BadCidrs(list: string, i: nat) | BadAuth(i: nat)
    | BadPort(i: nat) | BadAp | CoversDeny(i: nat, id: string)

  function IdsOf(eps: seq<Endpoint>): set<(string, string)> { set e | e in eps :: (e.id, e.band) }

  lemma {:induction false} OneMoreId(eps: seq<Endpoint>, e: Endpoint)
    ensures DistinctIds(eps + [e]) <==> DistinctIds(eps) && (e.id, e.band) !in IdsOf(eps)
    ensures IdsOf(eps + [e]) == IdsOf(eps) + {(e.id, e.band)}
  {
    var all := eps + [e];
    assert forall i :: 0 <= i < |eps| ==> all[i] == eps[i];
    if (e.id, e.band) in IdsOf(eps) {
      var i :| 0 <= i < |eps| && (eps[i].id, eps[i].band) == (e.id, e.band);
      assert (all[i].id, all[i].band) == (all[|eps|].id, all[|eps|].band);
    }
    if DistinctIds(all) {
      forall i, j | 0 <= i < j < |eps| ensures (eps[i].id, eps[i].band) != (eps[j].id, eps[j].band) {
        assert (all[i].id, all[i].band) != (all[j].id, all[j].band);
      }
    }
  }

  method ValidateEndpoints(eps: seq<Endpoint>)
    returns (errors: seq<Error>, deny: seq<Endpoint>)
    ensures errors == [] <==> EndpointsOk(eps)
    ensures forall e :: e in deny ==> e.denyDefault
    ensures errors == [] ==> (forall e :: e in deny <==> e in eps && e.denyDefault)
  {
    errors, deny := [], [];
    if |eps| > MAX_ENDPOINTS {
      return [TooMany("endpoints")], [];
    }
    var seen: set<(string, string)> := {};
    for i := 0 to |eps|
      invariant errors == [] ==> seen == IdsOf(eps[..i])
      invariant errors == [] <==> (forall e :: e in eps[..i] ==> EndpointOk(e)) && DistinctIds(eps[..i])
      invariant forall e :: e in deny <==> e in eps[..i] && e.denyDefault
    {
      var e := eps[i];
      var key := (e.id, e.band);
      assert eps[..i + 1] == eps[..i] + [e];
      OneMoreId(eps[..i], e);
      if !IdOk(e.id) {
        errors := errors + [BadId("endpoints", i)];
      } else if key in seen {
        errors := errors + [DuplicateId(i)];
      } else {
        seen := seen + {key};
      }
      if !ScopeOk(e.scope) { errors := errors + [BadScope("endpoints", i)]; }
      if !CidrsOk(e.cidrs, e.scope.family) { errors := errors + [BadCidrs("endpoints", i)]; }
      if e.auth !in ["none", "password", "mtls", "token"] { errors := errors + [BadAuth(i)]; }
      if e.denyDefault { deny := deny + [e]; }
    }
    assert eps[..|eps|] == eps;
  }

  method ValidateIngress(gs: seq<Grant>) returns (errors: seq<Error>)
    ensures errors == [] <==> IngressOk(gs)
  {
    errors := [];
    if |gs| > MAX_PROXY_INGRESS {
      return [TooMany("proxy_ingress")];
    }
    for i := 0 to |gs|
      invariant errors == [] <==>
        forall j :: 0 <= j < i ==> ScopeOk(gs[j].scope) && CidrsOk(gs[j].cidrs, gs[j].scope.family)
    {
      if !ScopeOk(gs[i].scope) { errors := errors + [BadScope("proxy_ingress", i)]; }
      if !CidrsOk(gs[i].cidrs, gs[i].scope.family) { errors := errors + [BadCidrs("proxy_ingress", i)]; }
    }
  }

  method ValidateExtra(xs: seq<Extra>, deny: seq<Endpoint>) returns (errors: seq<Error>)
    requires forall e :: e in deny ==> e.denyDefault
    ensures errors == [] <==> ExtraOk(xs, deny)
  {
    errors := [];
    if |xs| > MAX_EXTRA_ALLOW {
      return [TooMany("extra_allow")];
    }
    for i := 0 to |xs|
      invariant errors == [] <==> (forall j :: 0 <= j < i ==> ExtraEntryOk(xs[j], deny))
    {
      if !ScopeOk(xs[i].scope) { errors := errors + [BadScope("extra_allow", i)]; }
      if !CidrOk(xs[i].cidr, xs[i].scope.family) { errors := errors + [BadCidrs("extra_allow", i)]; }
      ghost var before := errors;
      for k := 0 to |deny|
        invariant errors == [] <==>
          before == [] && forall m :: 0 <= m < k ==> !Overlap(xs[i].scope, deny[m].scope)
      {
        if Overlap(xs[i].scope, deny[k].scope) {
          errors := errors + [CoversDeny(i, deny[k].id)];
        }
      }
    }
  }

  /** Empty exactly for the candidates both sides accept. */
  method ValidateCandidate(c: Candidate) returns (errors: seq<Error>)
    ensures errors == [] <==> ValidCandidate(c)
  {
    errors := if c.schema != CANDIDATE_SCHEMA then [BadSchema] else [];
    var epErrors, deny := ValidateEndpoints(c.endpoints);
    var inErrors := ValidateIngress(c.ingress);
    errors := errors + epErrors + inErrors;
    if |c.sshPorts| > MAX_SSH_PORTS {
      errors := errors + [TooMany("ssh_ports")];
    } else {
      ghost var before := errors;
      for i := 0 to |c.sshPorts|
        invariant errors == [] <==> before == [] && forall j :: 0 <= j < i ==> PortOk(c.sshPorts[j])
      {
        if !PortOk(c.sshPorts[i]) { errors := errors + [BadPort(i)]; }
      }
    }
    if !ApOk(c.ap) { errors := errors + [BadAp]; }
    var xErrors := ValidateExtra(c.extra, deny);
    errors := errors + xErrors;
  }

  // --- sort keys ----------------------------------------------------------------------------

  function FamilyNo(f: Family): int { if f == V4 then 4 else 6 }
  function ScopeFamilyNo(f: FamilyScope): int { if f.Dual? then 0 else FamilyNo(f.family) }

  function ScopeKey(s: Scope): Key
  {
    var fam := Num(ScopeFamilyNo(s.family));
    var proto := Num(if s.proto == Tcp then 0 else 1);
    match s.addr
    case Star => [proto, fam, Num(0), Num(0), Num(0), Num(s.port)]
    case Ip(f, n) => [proto, fam, Num(1), Num(FamilyNo(f)), Num(n), Num(s.port)]
    case JunkAddr(t) => [proto, fam, Num(2), Num(0), Text(t), Num(s.port)]
  }

  function CidrKey(c: Cidr): Key
  {
    match c
    case Net(f, base, len, form) =>
      [Num(FamilyNo(f)), Num(base), Num(len), Num(if form == Bare then 0 else if form == Slash then 1 else 2)]
    case JunkCidr(t) => [Text(t)]
  }

  function EndpointKey(e: Endpoint): Key { [Text(e.id), Text(e.band)] }
  function GrantKey(g: Grant): Key { ScopeKey(g.scope) }
  function ExtraKey(x: Extra): Key { ScopeKey(x.scope) + CidrKey(x.cidr) }

  function SortCidrs(cs: seq<Cidr>): seq<Cidr> { SortBy(cs, CidrKey) }
  function SortEndpoints(es: seq<Endpoint>): seq<Endpoint> { SortBy(es, EndpointKey) }
  function SortGrants(gs: seq<Grant>): seq<Grant> { SortBy(gs, GrantKey) }
  function SortExtra(xs: seq<Extra>): seq<Extra> { SortBy(xs, ExtraKey) }

  // --- the rule model -----------------------------------------------------------------------

  datatype Action = Accept | Drop
  datatype Tag = Plain | Deny(endpoint: string) | Transition

  datatype Match =
    | IifLo | CtInvalid | CtEstablishedRelated | Icmpv6 | Icmp
    | Dhcpv4Client | Dhcpv6Client | MdnsV4 | MdnsV6
    | ApDhcpServer(iif: string) | ApDns(iif: string, proto: Proto, source: Cidr)
    | Scoped(scope: Scope, saddr: Option<Cidr>, tag: Tag)

  datatype Rule = Rule(action: Action, m: Match)

  /** The table comment is `lhpc-owned:<owner>`; family, chain, hook and priority are fixed. */
  datatype Model = Model(owner: string, policy: Action, rules: seq<Rule>)

  predicate Droppable(c: Candidate, e: Endpoint)
  {
    !e.selected && (c.mode == SecureDefault ==> e.denyDefault)
  }

  function DroppableOf(c: Candidate, es: seq<Endpoint>): (r: seq<Endpoint>)
    ensures forall e :: e in r <==> e in es && Droppable(c, e)
  {
    if es == [] then []
    else
      assert es == [es[0]] + es[1..];
      (if Droppable(c, es[0]) then [es[0]] else []) + DroppableOf(c, es[1..])
  }

  function SelectedOf(es: seq<Endpoint>): (r: seq<Endpoint>)
    ensures forall e :: e in r <==> e in es && e.selected
  {
    if es == [] then []
    else
      assert es == [es[0]] + es[1..];
      (if es[0].selected then [es[0]] else []) + SelectedOf(es[1..])
  }

  function DropRule(e: Endpoint): Rule { Rule(Drop, Scoped(e.scope, None, Deny(e.id))) }

  /** One drop per distinct scope, in order of first appearance. */
  function EndpointDrops(es: seq<Endpoint>, seen: set<Scope>): seq<Rule>
  {
    if es == [] then []
    else if es[0].scope in seen then EndpointDrops(es[1..], seen)
    else [DropRule(es[0])] + EndpointDrops(es[1..], seen + {es[0].scope})
  }

  function TransitionDrops(gs: seq<Grant>): seq<Rule>
  {
    if gs == [] then []
    else [Rule(Drop, Scoped(gs[0].scope, None, Transition))] + TransitionDrops(gs[1..])
  }

  function CidrRules(s: Scope, cs: seq<Cidr>): seq<Rule>
  {
    if cs == [] then [] else [Rule(Accept, Scoped(s, Some(cs[0]), Plain))] + CidrRules(s, cs[1..])
  }

  function AllowRules(s: Scope, cidrs: seq<Cidr>): seq<Rule>
  {
    if cidrs == [] then [Rule(Accept, Scoped(s, None, Plain))] else CidrRules(s, SortCidrs(cidrs))
  }

  function EndpointAllows(es: seq<Endpoint>, seen: set<(Scope, seq<Cidr>)>): seq<Rule>
  {
    if es == [] then []
    else
      var k := (es[0].scope, SortCidrs(es[0].cidrs));
      if k in seen then EndpointAllows(es[1..], seen)
      else AllowRules(es[0].scope, es[0].cidrs) + EndpointAllows(es[1..], seen + {k})
  }

  function GrantAllows(gs: seq<Grant>): seq<Rule>
  {
    if gs == [] then [] else AllowRules(gs[0].scope, gs[0].cidrs) + GrantAllows(gs[1..])
  }

  function ExtraAllows(xs: seq<Extra>): seq<Rule>
  {
    if xs == [] then [] else AllowRules(xs[0].scope, [xs[0].cidr]) + ExtraAllows(xs[1..])
  }

  function Baseline(): seq<Rule>
  {
    [Rule(Accept, Dhcpv4Client), Rule(Accept, Dhcpv6Client), Rule(Accept, MdnsV4), Rule(Accept, MdnsV6)]
  }

  function ApRules(ap: Ap): seq<Rule>
  {
    if ap.enabled then
      [Rule(Accept, ApDhcpServer(ap.iface)), Rule(Accept, ApDns(ap.iface, Udp, ap.cidr)),
       Rule(Accept, ApDns(ap.iface, Tcp, ap.cidr))]
    else []
  }

  function EarlyDrops(c: Candidate, transitionDrop: seq<Grant>): seq<Rule>
  {
    EndpointDrops(SortEndpoints(DroppableOf(c, c.endpoints)), {}) +
    TransitionDrops(SortGrants(transitionDrop))
  }

  function Allows(c: Candidate, ssh: seq<Grant>, transitionAllow: seq<Grant>): seq<Rule>
  {
    Baseline() + GrantAllows(SortGrants(ssh)) + ApRules(c.ap) +
    EndpointAllows(SortEndpoints(SelectedOf(c.endpoints)), {}) +
    GrantAllows(SortGrants(c.ingress)) + GrantAllows(SortGrants(transitionAllow)) +
    ExtraAllows(SortExtra(c.extra))
  }

  const CT_AND_ICMP := [Rule(Drop, CtInvalid), Rule(Accept, CtEstablishedRelated),
                        Rule(Accept, Icmpv6), Rule(Accept, Icmp)]

  /** The whole table `resolve_model` must produce. */
  function Resolved(c: Candidate, owner: string, ssh: seq<Grant>,
                    transitionAllow: seq<Grant>, transitionDrop: seq<Grant>): Model
  {
    Model(owner, if c.mode == SecureDefault then Drop else Accept,
          [Rule(Accept, IifLo)] + EarlyDrops(c, transitionDrop) + CT_AND_ICMP +
          if c.mode == SecureDefault then Allows(c, ssh, transitionAllow) else [])
  }

  method AppendAllowRules(rules: seq<Rule>, s: Scope, cidrs: seq<Cidr>) returns (out: seq<Rule>)
    ensures out == rules + AllowRules(s, cidrs)
  {
    out := rules;
    if cidrs == [] {
      out := out + [Rule(Accept, Scoped(s, None, Plain))];
    } else {
      var cs := SortCidrs(cidrs);
      for i := 0 to |cs|
        invariant out + CidrRules(s, cs[i..]) == rules + CidrRules(s, cs)
      {
        out := out + [Rule(Accept, Scoped(s, Some(cs[i]), Plain))];
      }
    }
  }

  method AppendGrants(rules: seq<Rule>, gs: seq<Grant>) returns (out: seq<Rule>)
    ensures out == rules + GrantAllows(SortGrants(gs))
  {
    out := rules;
    var sorted := SortGrants(gs);
    for i := 0 to |sorted|
      invariant out + GrantAllows(sorted[i..]) == rules + GrantAllows(sorted)
    {
      ghost var was, rest := out, GrantAllows(sorted[i + 1..]);
      out := AppendAllowRules(out, sorted[i].scope, sorted[i].cidrs);
      assert sorted[i..][1..] == sorted[i + 1..];
      Regroup(was, AllowRules(sorted[i].scope, sorted[i].cidrs), rest);
    }
  }

  method AppendEndpointDrops(rules: seq<Rule>, droppable: seq<Endpoint>) returns (out: seq<Rule>)
    ensures out == rules + EndpointDrops(SortEndpoints(droppable), {})
  {
    out := rules;
    var sorted := SortEndpoints(droppable);
    var seen: set<Scope> := {};
    for i := 0 to |sorted|
      invariant out + EndpointDrops(sorted[i..], seen) == rules + EndpointDrops(sorted, {})
    {
      var e := sorted[i];
      if e.scope !in seen {
        seen := seen + {e.scope};
        out := out + [DropRule(e)];
      }
    }
  }

  method AppendEndpointAllows(rules: seq<Rule>, selected: seq<Endpoint>) returns (out: seq<Rule>)
    ensures out == rules + EndpointAllows(SortEndpoints(selected), {})
  {
    out := rules;
    var sorted := SortEndpoints(selected);
    var seen: set<(Scope, seq<Cidr>)> := {};
    for i := 0 to |sorted|
      invariant out + EndpointAllows(sorted[i..], seen) == rules + EndpointAllows(sorted, {})
    {
      var e := sorted[i];
      var k := (e.scope, SortCidrs(e.cidrs));
      if k !in seen {
        seen := seen + {k};
        out := AppendAllowRules(out, e.scope, e.cidrs);
      }
    }
  }

  method AppendExtra(rules: seq<Rule>, xs: seq<Extra>) returns (out: seq<Rule>)
    ensures out == rules + ExtraAllows(SortExtra(xs))
  {
    out := rules;
    var sorted := SortExtra(xs);
    for i := 0 to |sorted|
      invariant out + ExtraAllows(sorted[i..]) == rules + ExtraAllows(sorted)
    {
      ghost var was, rest := out, ExtraAllows(sorted[i + 1..]);
      out := AppendAllowRules(out, sorted[i].scope, [sorted[i].cidr]);
      assert sorted[i..][1..] == sorted[i + 1..];
      Regroup(was, AllowRules(sorted[i].scope, [sorted[i].cidr]), rest);
    }
  }

  method AppendTransitionDrops(rules: seq<Rule>, gs: seq<Grant>) returns (out: seq<Rule>)
    ensures out == rules + TransitionDrops(SortGrants(gs))
  {
    out := rules;
    var sorted := SortGrants(gs);
    for i := 0 to |sorted|
      invariant out + TransitionDrops(sorted[i..]) == rules + TransitionDrops(sorted)
    {
      out := out + [Rule(Drop, Scoped(sorted[i].scope, None, Transition))];
    }
  }

  /** Steps 5 to 9 of the model: everything secure-default accepts by rule. */
  method AppendAllows(c: Candidate, ssh: seq<Grant>, transitionAllow: seq<Grant>)
    returns (out: seq<Rule>)
    ensures out == Allows(c, ssh, transitionAllow)
  {
    out := Baseline();
    out := AppendGrants(out, ssh);
    out := out + ApRules(c.ap);
    out := AppendEndpointAllows(out, SelectedOf(c.endpoints));
    out := AppendGrants(out, c.ingress);
    out := AppendGrants(out, transitionAllow);
    out := AppendExtra(out, c.extra);
  }

  /** `resolve_model`: the rules are appended one by one, in the fixed structural order. */
  method ResolveModel(c: Candidate, owner: string, ssh: seq<Grant>,
                      transitionAllow: seq<Grant>, transitionDrop: seq<Grant>)
    returns (model: Model)
    ensures model == Resolved(c, owner, ssh, transitionAllow, transitionDrop)
  {
    var rules := [Rule(Accept, IifLo)];
    rules := AppendEndpointDrops(rules, DroppableOf(c, c.endpoints));
    rules := AppendTransitionDrops(rules, transitionDrop);
    Regroup([Rule(Accept, IifLo)], EndpointDrops(SortEndpoints(DroppableOf(c, c.endpoints)), {}),
            TransitionDrops(SortGrants(transitionDrop)));
    rules := rules + CT_AND_ICMP;
    if c.mode == SecureDefault {
      var allows := AppendAllows(c, ssh, transitionAllow);
      rules := rules + allows;
      model := Model(owner, Drop, rules);
    } else {
      model := Model(owner, Accept, rules);
    }
  }
}
