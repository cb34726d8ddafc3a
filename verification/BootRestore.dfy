/**
 The boot-restore planner and its journal (lhpc/core/boot_restore.py:41-131, 227-342).
 */
module BootRestore {
  import opened Options
  import opened Ordering

  const ALLOWED_BANDS := ["433", "868"]

  datatype Evidence = Evidence(launchId: string, stack: string, component: string, band: string, launchedAt: int,
                               scope: string, target: string)

  datatype StackMeta = StackMeta(main: string, interactiveMain: bool, declaredBands: seq<string>, fixedBand: string,
                                 restorableParts: seq<string>)

  datatype Marker = NoMarker | ValidMarker | UnsafeMarker
  datatype MarkerView = MarkerView(running: Marker, runningBand: string, last: Marker, lastBand: string, lastAt: int)

  const NO_MARKERS := MarkerView(NoMarker, "", NoMarker, "", 0)

  datatype Kind = StackItem | DaemonReconcile
  datatype ItemState = Pending | Attempting | Succeeded | Failed | Cancelled

  datatype Prune = Prune(ok: bool, left: seq<string>, reason: Option<string>)

  datatype Item = Item(id: string, kind: Kind, target: string, band: string, bands: seq<string>,
                       evidenceIds: seq<string>, components: seq<string>, state: ItemState, prune: Option<Prune>)

  datatype Reason = UnknownStack | NoMain | NoFullScope | ConflictingMains | BandAmbiguity
  datatype Skipped = Skipped(stack: string, reason: Reason, evidenceIds: seq<string>)

  datatype Plan = Plan(items: seq<Item>, skipped: seq<Skipped>)

  function NewItem(id: string, kind: Kind, target: string, band: string, bands: seq<string>, evidenceIds: seq<string>,
                   components: seq<string>): Item
  {
    Item(id, kind, target, band, bands, evidenceIds, components, Pending, None)
  }

  // --- the band of one stack ---------------------------------------------------------------------------

  /** The bands the valid sources name. */
  function Named(own: string, mk: MarkerView): set<string>
  {
    (if own != "" then {own} else {}) +
    (if mk.running == ValidMarker && mk.runningBand != "" then {mk.runningBand} else {}) +
    (if mk.last == ValidMarker && mk.lastBand != "" then {mk.lastBand} else {})
  }

  /** Any one of them. */
  function OneNamed(own: string, mk: MarkerView): (b: string)
    ensures Named(own, mk) != {} ==> b in Named(own, mk)
  {
    if own != "" then own
    else if mk.running == ValidMarker && mk.runningBand != "" then mk.runningBand
    else mk.lastBand
  }

  /** `_band_candidates`: None for an ambiguity. */
  function BandOf(own: string, meta: StackMeta, mk: MarkerView): Option<string>
  {
    var values := Named(own, mk);
    if mk.running == UnsafeMarker || mk.last == UnsafeMarker then None
    else if |values| > 1 then None
    else if meta.fixedBand != "" && meta.declaredBands == [] then
      if values != {} && values != {meta.fixedBand} then None else Some(meta.fixedBand)
    else if values == {} then None
    else
      var band := OneNamed(own, mk);
      if meta.declaredBands != [] && band !in meta.declaredBands then None else Some(band)
  }

  lemma {:induction false} OnlyOne(s: set<string>, x: string, y: string)
    requires |s| <= 1 && x in s && y in s
    ensures x == y
  {
    var rest := s - {x};
    assert |rest| == |s| - 1;
    assert y != x ==> y in rest;
  }

  /**
   A planned band never contradicts a valid source, never comes from an unsafe one, and is never
   made up: it is the manifest's fixed band or one a source names.
   */
  lemma {:induction false} BandAgrees(own: string, meta: StackMeta, mk: MarkerView)
    requires BandOf(own, meta, mk).Some?
    ensures mk.running != UnsafeMarker && mk.last != UnsafeMarker
    ensures forall b :: b in Named(own, mk) ==> b == BandOf(own, meta, mk).value
    ensures BandOf(own, meta, mk).value in Named(own, mk) ||
      (BandOf(own, meta, mk).value == meta.fixedBand && meta.declaredBands == [])
    ensures meta.declaredBands != [] ==> BandOf(own, meta, mk).value in meta.declaredBands
  {
    var band := BandOf(own, meta, mk).value;
    forall b | b in Named(own, mk) ensures b == band {
      OnlyOne(Named(own, mk), b, OneNamed(own, mk));
    }
  }

  // --- the decision for one stack ---------------------------------------------------------------------------

  function OfStack(evidence: seq<Evidence>, s: string): (r: seq<Evidence>)
    ensures forall e :: e in r <==> e in evidence && e.stack == s
  {
    if evidence == [] then []
    else
      assert evidence == [evidence[0]] + evidence[1..];
      (if evidence[0].stack == s then [evidence[0]] else []) + OfStack(evidence[1..], s)
  }

  predicate IsMain(e: Evidence, meta: StackMeta, daemonMain: Option<string>)
  {
    e.component == meta.main || (meta.interactiveMain && daemonMain == Some(e.component))
  }

  predicate IsScoped(e: Evidence, s: string, meta: StackMeta, daemonMain: Option<string>)
  {
    IsMain(e, meta, daemonMain) && e.scope == "stack" && e.target == s
  }

  function Mains(evs: seq<Evidence>, meta: StackMeta, daemonMain: Option<string>): (r: seq<Evidence>)
    ensures forall e :: e in r <==> e in evs && IsMain(e, meta, daemonMain)
  {
    if evs == [] then []
    else
      assert evs == [evs[0]] + evs[1..];
      (if IsMain(evs[0], meta, daemonMain) then [evs[0]] else []) + Mains(evs[1..], meta, daemonMain)
  }

  function Scoped(evs: seq<Evidence>, s: string, meta: StackMeta, daemonMain: Option<string>): (r: seq<Evidence>)
    ensures forall e :: e in r <==> e in evs && IsScoped(e, s, meta, daemonMain)
  {
    if evs == [] then []
    else
      assert evs == [evs[0]] + evs[1..];
      (if IsScoped(evs[0], s, meta, daemonMain) then [evs[0]] else []) + Scoped(evs[1..], s, meta, daemonMain)
  }

  function BandsOf(evs: seq<Evidence>): set<string> { set e | e in evs :: e.band }

  /** A part that ran on its own: a component-scoped start of that part itself. */
  predicate RanAlone(e: Evidence, meta: StackMeta)
  {
    e.scope == "component" && e.target == e.component && e.component in meta.restorableParts && e.component != meta.main
  }

  function PartNames(evs: seq<Evidence>, meta: StackMeta): (r: seq<string>)
    ensures forall c :: c in r <==> exists e :: e in evs && RanAlone(e, meta) && e.component == c
  {
    if evs == [] then []
    else
      assert evs == [evs[0]] + evs[1..];
      (if RanAlone(evs[0], meta) then [evs[0].component] else []) + PartNames(evs[1..], meta)
  }

  datatype Decision = Skip(reason: Reason) | Restore(band: string, parts: seq<string>, at: int)

  function Decide(evs: seq<Evidence>, s: string, meta: Option<StackMeta>, mk: MarkerView,
                  daemonMain: Option<string>): Decision
  {
    if meta.None? then Skip(UnknownStack)
    else
      var mains, scoped := Mains(evs, meta.value, daemonMain), Scoped(evs, s, meta.value, daemonMain);
      if mains == [] then Skip(NoMain)
      else if scoped == [] then Skip(NoFullScope)
      else if |BandsOf(scoped)| > 1 then Skip(ConflictingMains)
      else
        match BandOf(scoped[0].band, meta.value, mk)
        case None => Skip(BandAmbiguity)
        case Some(band) =>
          Restore(band, SortedSet(PartNames(evs, meta.value)),
                  if mk.last == ValidMarker && mk.lastAt > 0 then mk.lastAt else scoped[0].launchedAt)
  }

  /** The planned band of a stack contradicts neither a full-stack record of its main nor a valid marker. */
  lemma {:induction false} PlannedBandAgrees(evs: seq<Evidence>, s: string, meta: StackMeta, mk: MarkerView,
                                             daemonMain: Option<string>)
    requires Decide(evs, s, Some(meta), mk, daemonMain).Restore?
    ensures var band := Decide(evs, s, Some(meta), mk, daemonMain).band;
      (forall e :: e in evs && IsScoped(e, s, meta, daemonMain) ==> e.band == "" || e.band == band) &&
      (mk.running == ValidMarker && mk.runningBand != "" ==> mk.runningBand == band) &&
      (mk.last == ValidMarker && mk.lastBand != "" ==> mk.lastBand == band) &&
      mk.running != UnsafeMarker && mk.last != UnsafeMarker
  {
    var scoped := Scoped(evs, s, meta, daemonMain);
    var own := scoped[0].band;
    assert scoped[0] in scoped && own in BandsOf(scoped);
    BandAgrees(own, meta, mk);
    assert own != "" ==> own in Named(own, mk);
    assert mk.running == ValidMarker && mk.runningBand != "" ==> mk.runningBand in Named(own, mk);
    assert mk.last == ValidMarker && mk.lastBand != "" ==> mk.lastBand in Named(own, mk);
    forall e | e in evs && IsScoped(e, s, meta, daemonMain) ensures e.band == own {
      assert e in scoped && e.band in BandsOf(scoped);
      OnlyOne(BandsOf(scoped), e.band, own);
    }
  }

  predicate SameMembers<T(==)>(a: seq<T>, b: seq<T>)
  {
    (forall x :: x in a ==> x in b) && (forall x :: x in b ==> x in a)
  }

  lemma {:induction false} SameEmptiness<T>(a: seq<T>, b: seq<T>)
    requires SameMembers(a, b)
    ensures a == [] <==> b == []
  {
    if a != [] { assert a[0] in b; }
    if b != [] { assert b[0] in a; }
  }

  lemma {:induction false} PartsIgnoreOrder(a: seq<Evidence>, b: seq<Evidence>, meta: StackMeta)
    requires SameMembers(a, b)
    ensures SortedSet(PartNames(a, meta)) == SortedSet(PartNames(b, meta))
  {
    var pa, pb := PartNames(a, meta), PartNames(b, meta);
    forall c ensures c in pa <==> c in pb {
      if c in pa {
        var e :| e in a && RanAlone(e, meta) && e.component == c;
        assert e in b;
      }
      if c in pb {
        var e :| e in b && RanAlone(e, meta) && e.component == c;
        assert e in a;
      }
    }
    SortedSetIsCanonical(pa, pb);
  }

  lemma {:induction false} ScopedIgnoresOrder(a: seq<Evidence>, b: seq<Evidence>, s: string, meta: StackMeta,
                                              daemonMain: Option<string>)
    requires SameMembers(a, b)
    ensures var sa, sb := Scoped(a, s, meta, daemonMain), Scoped(b, s, meta, daemonMain);
      (sa == [] <==> sb == []) && BandsOf(sa) == BandsOf(sb) &&
      (sa != [] && |BandsOf(sa)| <= 1 ==> sa[0].band == sb[0].band)
    ensures Mains(a, meta, daemonMain) == [] <==> Mains(b, meta, daemonMain) == []
  {
    var sa, sb := Scoped(a, s, meta, daemonMain), Scoped(b, s, meta, daemonMain);
    SameEmptiness(sa, sb);
    SameEmptiness(Mains(a, meta, daemonMain), Mains(b, meta, daemonMain));
    if sa != [] && |BandsOf(sa)| <= 1 {
      assert sa[0] in sa && sb[0] in sb;
      OnlyOne(BandsOf(sa), sa[0].band, sb[0].band);
    }
  }

  /** What is restored, on which band, with which parts: whatever order the evidence came in. */
  lemma {:induction false} DecisionIgnoresOrder(a: seq<Evidence>, b: seq<Evidence>, s: string, meta: Option<StackMeta>,
                                                mk: MarkerView, daemonMain: Option<string>)
    requires SameMembers(a, b)
    ensures var x, y := Decide(a, s, meta, mk, daemonMain), Decide(b, s, meta, mk, daemonMain);
      (x.Skip? <==> y.Skip?) && (x.Skip? ==> x == y) && (x.Restore? ==> x.band == y.band && x.parts == y.parts)
  {
    if meta.Some? {
      ScopedIgnoresOrder(a, b, s, meta.value, daemonMain);
      PartsIgnoreOrder(a, b, meta.value);
    }
  }

  lemma {:induction false} StackEvidenceSame(a: seq<Evidence>, b: seq<Evidence>, s: string)
    requires SameMembers(a, b)
    ensures SameMembers(OfStack(a, s), OfStack(b, s))
  {}

  // --- the plan ------------------------------------------------------------------------------------------------

  function DaemonMain(metas: map<string, StackMeta>, daemon: string): Option<string>
  {
    if daemon in metas then Some(metas[daemon].main) else None
  }

  function MetaOf(metas: map<string, StackMeta>, s: string): Option<StackMeta>
  {
    if s in metas then Some(metas[s]) else None
  }
  function MarkersOf(markers: map<string, MarkerView>, s: string): MarkerView
  {
    if s in markers then markers[s] else NO_MARKERS
  }

  function DecisionFor(evidence: seq<Evidence>, s: string, metas: map<string, StackMeta>,
                       markers: map<string, MarkerView>, daemon: string): Decision
  {
    Decide(OfStack(evidence, s), s, MetaOf(metas, s), MarkersOf(markers, s), DaemonMain(metas, daemon))
  }

  function Ids(evs: seq<Evidence>): seq<string> { if evs == [] then [] else [evs[0].launchId] + Ids(evs[1..]) }

  function Gather<T>(xs: seq<T>, ids: T -> seq<string>): seq<string>
  {
    if xs == [] then [] else ids(xs[0]) + Gather(xs[1..], ids)
  }

  function ItemEvidence(it: Item): seq<string> { it.evidenceIds }
  function SkippedEvidence(sk: Skipped): seq<string> { sk.evidenceIds }

  function ItemIds(items: seq<Item>): seq<string> { Gather(items, ItemEvidence) }
  function SkippedIds(ss: seq<Skipped>): seq<string> { Gather(ss, SkippedEvidence) }

  function Stacks(evidence: seq<Evidence>): seq<string>
  {
    if evidence == [] then [] else [evidence[0].stack] + Stacks(evidence[1..])
  }

  /** The launch ids of the stacks in `done`. */
  function IdsIn(evidence: seq<Evidence>, done: set<string>): seq<string>
  {
    if evidence == [] then []
    else (if evidence[0].stack in done then [evidence[0].launchId] else []) + IdsIn(evidence[1..], done)
  }

  lemma {:induction false} IdsStep(e: Evidence, rest: seq<Evidence>, done: set<string>)
    ensures IdsIn([e] + rest, done) == (if e.stack in done then [e.launchId] else []) + IdsIn(rest, done)
  {
    assert ([e] + rest)[1..] == rest;
  }

  lemma {:induction false} OfStackStep(e: Evidence, rest: seq<Evidence>, s: string)
    ensures Ids(OfStack([e] + rest, s)) == (if e.stack == s then [e.launchId] else []) + Ids(OfStack(rest, s))
  {
    var own := OfStack(rest, s);
    assert ([e] + rest)[1..] == rest;
    assert ([e] + own)[1..] == own;
    assert OfStack([e] + rest, s) == if e.stack == s then [e] + own else own;
  }

  lemma {:induction false} IdsGrow(evidence: seq<Evidence>, done: set<string>, s: string)
    requires s !in done
    ensures multiset(IdsIn(evidence, done + {s})) ==
      multiset(IdsIn(evidence, done)) + multiset(Ids(OfStack(evidence, s)))
  {
    if evidence != [] {
      var e, rest := evidence[0], evidence[1..];
      assert evidence == [e] + rest;
      IdsGrow(rest, done, s);
      IdsStep(e, rest, done);
      IdsStep(e, rest, done + {s});
      OfStackStep(e, rest, s);
    }
  }

  lemma {:induction false} IdsOfAll(evidence: seq<Evidence>, done: set<string>)
    requires forall s :: s in Stacks(evidence) ==> s in done
    ensures IdsIn(evidence, done) == Ids(evidence)
  {
    if evidence != [] {
      assert evidence[0].stack in Stacks(evidence);
      assert forall s :: s in Stacks(evidence[1..]) ==> s in Stacks(evidence);
      IdsOfAll(evidence[1..], done);
    }
  }

  lemma {:induction false} IdsOfNone(evidence: seq<Evidence>)
    ensures IdsIn(evidence, {}) == []
  {
    if evidence != [] { IdsOfNone(evidence[1..]); }
  }

  lemma {:induction false} GatherJoins<T>(xs: seq<T>, ys: seq<T>, ids: T -> seq<string>)
    ensures Gather(xs + ys, ids) == Gather(xs, ids) + Gather(ys, ids)
  {
    if xs == [] {
      assert xs + ys == ys;
    } else {
      GatherJoins(xs[1..], ys, ids);
      assert (xs + ys)[0] == xs[0] && (xs + ys)[1..] == xs[1..] + ys;
      assert Gather(xs + ys, ids) == ids(xs[0]) + Gather(xs[1..] + ys, ids);
    }
  }

  lemma {:induction false} GatherOneMore<T>(xs: seq<T>, x: T, ids: T -> seq<string>)
    ensures Gather(xs + [x], ids) == Gather(xs, ids) + ids(x)
  {
    if xs == [] {
      assert xs + [x] == [x];
    } else {
      GatherOneMore(xs[1..], x, ids);
      assert (xs + [x])[1..] == xs[1..] + [x];
    }
  }

  // --- putting the items in order -----------------------------------------------------------------------------

  datatype Ordered = Ordered(at: int, item: Item)

  function OrderKey(o: Ordered): Key { [Num(o.at), Text(o.item.target)] }

  function ItemsOf(os: seq<Ordered>): seq<Item> { if os == [] then [] else [os[0].item] + ItemsOf(os[1..]) }

  /** What is gathered depends on the multiset only. */
  lemma {:induction false} GatherFollows<T>(a: seq<T>, b: seq<T>, ids: T -> seq<string>)
    requires multiset(a) == multiset(b)
    ensures multiset(Gather(a, ids)) == multiset(Gather(b, ids))
  {
    if a == [] {
      assert |multiset(b)| == 0;
    } else {
      assert a[0] in multiset(b);
      var i :| 0 <= i < |b| && b[i] == a[0];
      var rest := b[..i] + b[i + 1..];
      assert b == b[..i] + [a[0]] + b[i + 1..];
      assert a == [a[0]] + a[1..];
      assert multiset(a[1..]) == multiset(a) - multiset{a[0]};
      assert multiset(rest) == multiset(b[..i]) + multiset(b[i + 1..]);
      assert multiset(rest) == multiset(b) - multiset{a[0]};
      GatherFollows(a[1..], rest, ids);
      GatherJoins(b[..i] + [a[0]], b[i + 1..], ids);
      GatherOneMore(b[..i], a[0], ids);
      GatherJoins(b[..i], b[i + 1..], ids);
    }
  }

  function OrderedEvidence(o: Ordered): seq<string> { o.item.evidenceIds }

  lemma {:induction false} ItemsGather(os: seq<Ordered>)
    ensures ItemIds(ItemsOf(os)) == Gather(os, OrderedEvidence)
  {
    if os != [] {
      ItemsGather(os[1..]);
      assert ItemsOf(os)[1..] == ItemsOf(os[1..]);
    }
  }

  lemma {:induction false} SortKeepsIds(os: seq<Ordered>)
    ensures multiset(ItemIds(ItemsOf(SortBy(os, OrderKey)))) == multiset(ItemIds(ItemsOf(os)))
  {
    ItemsGather(os);
    ItemsGather(SortBy(os, OrderKey));
    GatherFollows(SortBy(os, OrderKey), os, OrderedEvidence);
  }

  lemma {:induction false} ItemsOfMembers(os: seq<Ordered>)
    ensures |ItemsOf(os)| == |os| && forall i :: 0 <= i < |os| ==> ItemsOf(os)[i] == os[i].item
  {
    if os != [] { ItemsOfMembers(os[1..]); }
  }

  lemma {:induction false} ItemsOfJoin(os: seq<Ordered>, o: Ordered)
    ensures ItemsOf(os + [o]) == ItemsOf(os) + [o.item]
  {
    if os == [] {
      assert os + [o] == [o];
    } else {
      ItemsOfJoin(os[1..], o);
      assert (os + [o])[1..] == os[1..] + [o];
    }
  }
}
