/**
 `derive_plan` and `validate_journal`: every launch id is planned or skipped once, one item per
 stack with the daemon last, and the journal of a plan validates (lhpc/core/boot_restore.py:41-131, 267-342).
 */
module BootPlan {
  import opened Options
  import opened Ordering
  import opened BootRestore
  import opened BootDecisions

  type Metas = map<string, StackMeta>
  type Markers = map<string, MarkerView>
  type Tokens = nat -> string

  /** What is known of a stack: its launch ids, the allowed bands it ran on, and the decision. */
  datatype StackView = StackView(ids: seq<string>, bands: seq<string>, decision: Decision)
  type View = string -> StackView

  /** An item that restores a stack as it was decided. */
  predicate StackItemOk(it: Item, v: StackView)
  {
    it.kind == StackItem && it.state == Pending && it.prune == None && it.bands == [] && it.evidenceIds == v.ids &&
    v.decision.Restore? && it.band == v.decision.band && it.components == v.decision.parts
  }

  /** One item for every stack of `done` that is to be restored, and no other. */
  ghost predicate Shaped(view: View, daemon: Option<string>, done: seq<string>, orderable: seq<Ordered>)
  {
    (forall i :: 0 <= i < |orderable| ==>
       (StackItemOk(orderable[i].item, view(orderable[i].item.target)) && orderable[i].item.target in done &&
        Some(orderable[i].item.target) != daemon && orderable[i].at == view(orderable[i].item.target).decision.at)) &&
    (forall i, k :: 0 <= i < k < |orderable| ==> orderable[i].item.target != orderable[k].item.target) &&
    (forall s :: s in done && Some(s) != daemon && view(s).decision.Restore? ==>
       exists i :: 0 <= i < |orderable| && orderable[i].item.target == s)
  }

  /** Every launch id of the stacks of `done` is in one place. */
  function AllIds(view: View, done: seq<string>): multiset<string>
  {
    if done == [] then multiset{} else AllIds(view, done[..|done| - 1]) + multiset(view(done[|done| - 1]).ids)
  }

  ghost predicate Conserved(view: View, done: seq<string>, skipped: seq<Skipped>, orderable: seq<Ordered>,
                            daemonIds: seq<string>)
  {
    multiset(ItemIds(ItemsOf(orderable))) + multiset(SkippedIds(skipped)) + multiset(daemonIds) == AllIds(view, done)
  }

  lemma {:induction false} AllIdsGrow(view: View, done: seq<string>, s: string)
    ensures AllIds(view, done + [s]) == AllIds(view, done) + multiset(view(s).ids)
  {
    assert (done + [s])[..|done|] == done;
  }

  lemma {:induction false} PlanKeeps(view: View, daemon: Option<string>, done: seq<string>, s: string,
                                     orderable: seq<Ordered>, o: Ordered)
    requires Shaped(view, daemon, done, orderable) && s !in done && Some(s) != daemon
    requires o.item.target == s && StackItemOk(o.item, view(s)) && o.at == view(s).decision.at
    ensures Shaped(view, daemon, done + [s], orderable + [o])
  {
    var all := orderable + [o];
    forall x | x in done + [s] && Some(x) != daemon && view(x).decision.Restore?
      ensures exists i :: 0 <= i < |all| && all[i].item.target == x
    {
      if x == s {
        assert all[|orderable|].item.target == s;
      } else {
        var i :| 0 <= i < |orderable| && orderable[i].item.target == x;
        assert all[i].item.target == x;
      }
    }
  }

  lemma {:induction false} SkipKeeps(view: View, daemon: Option<string>, done: seq<string>, s: string,
                                     orderable: seq<Ordered>)
    requires Shaped(view, daemon, done, orderable) && (Some(s) == daemon || view(s).decision.Skip?)
    ensures Shaped(view, daemon, done + [s], orderable)
  {}

  lemma {:induction false} PlannedIds(orderable: seq<Ordered>, o: Ordered)
    ensures ItemIds(ItemsOf(orderable + [o])) == ItemIds(ItemsOf(orderable)) + o.item.evidenceIds
  {
    ItemsOfJoin(orderable, o);
    GatherOneMore(ItemsOf(orderable), o.item, ItemEvidence);
  }

  ghost predicate Numbered(orderable: seq<Ordered>, tokens: Tokens)
  {
    forall k :: 0 <= k < |orderable| ==> orderable[k].item.id == tokens(k)
  }

  /** Every skipped entry is as decided, and every stack that is not to be restored has one. */
  ghost predicate Explained(view: View, daemon: Option<string>, done: seq<string>, skipped: seq<Skipped>)
  {
    (forall sk :: sk in skipped ==>
       (sk.stack in done && view(sk.stack).decision == Skip(sk.reason) && Some(sk.stack) != daemon &&
        sk.evidenceIds == view(sk.stack).ids)) &&
    (forall s :: s in done && Some(s) != daemon && view(s).decision.Skip? ==>
       exists sk :: sk in skipped && sk.stack == s)
  }

  ghost predicate DaemonSeen(view: View, daemon: Option<string>, done: seq<string>,
                             daemonIds: seq<string>, daemonBands: seq<string>)
  {
    if daemon.Some? && daemon.value in done then
      daemonIds == view(daemon.value).ids && daemonBands == view(daemon.value).bands
    else daemonIds == [] && daemonBands == []
  }

  /** Where the walk stands after the stacks of `done`. */
  ghost predicate Walked(view: View, daemon: Option<string>, done: seq<string>, tokens: Tokens, skipped: seq<Skipped>,
                         orderable: seq<Ordered>, daemonIds: seq<string>, daemonBands: seq<string>)
  {
    Conserved(view, done, skipped, orderable, daemonIds) && Shaped(view, daemon, done, orderable) &&
    Numbered(orderable, tokens) && Explained(view, daemon, done, skipped) &&
    DaemonSeen(view, daemon, done, daemonIds, daemonBands)
  }

  lemma {:induction false} SkipConserves(view: View, done: seq<string>, s: string, skipped: seq<Skipped>,
                                         orderable: seq<Ordered>, daemonIds: seq<string>, sk: Skipped)
    requires Conserved(view, done, skipped, orderable, daemonIds) && sk.evidenceIds == view(s).ids
    ensures Conserved(view, done + [s], skipped + [sk], orderable, daemonIds)
  {
    AllIdsGrow(view, done, s);
    GatherOneMore(skipped, sk, SkippedEvidence);
  }

  lemma {:induction false} NumberedMore(orderable: seq<Ordered>, tokens: Tokens, o: Ordered)
    requires Numbered(orderable, tokens) && o.item.id == tokens(|orderable|)
    ensures Numbered(orderable + [o], tokens)
  {}

  lemma {:induction false} PlanConserves(view: View, done: seq<string>, s: string, skipped: seq<Skipped>,
                                         orderable: seq<Ordered>, daemonIds: seq<string>, o: Ordered)
    requires Conserved(view, done, skipped, orderable, daemonIds) && o.item.evidenceIds == view(s).ids
    ensures Conserved(view, done + [s], skipped, orderable + [o], daemonIds)
  {
    AllIdsGrow(view, done, s);
    PlannedIds(orderable, o);
  }

  lemma {:induction false} DaemonConserves(view: View, done: seq<string>, s: string, skipped: seq<Skipped>,
                                           orderable: seq<Ordered>, daemonIds: seq<string>)
    requires Conserved(view, done, skipped, orderable, daemonIds)
    ensures Conserved(view, done + [s], skipped, orderable, daemonIds + view(s).ids)
  {
    AllIdsGrow(view, done, s);
  }

  lemma {:induction false} StillExplained(view: View, daemon: Option<string>, done: seq<string>, s: string,
                                          skipped: seq<Skipped>)
    requires Explained(view, daemon, done, skipped)
    ensures Some(s) == daemon || view(s).decision.Restore? ==> Explained(view, daemon, done + [s], skipped)
  {}

  lemma {:induction false} OneMoreExplained(view: View, daemon: Option<string>, done: seq<string>,
                                            skipped: seq<Skipped>, sk: Skipped)
    requires Explained(view, daemon, done, skipped) && Some(sk.stack) != daemon
    requires sk.evidenceIds == view(sk.stack).ids && view(sk.stack).decision == Skip(sk.reason)
    ensures Explained(view, daemon, done + [sk.stack], skipped + [sk])
  {
    var more := skipped + [sk];
    assert sk in more && forall x :: x in skipped ==> x in more;
  }

  lemma {:induction false} DaemonStillSeen(view: View, daemon: Option<string>, done: seq<string>, s: string,
                                           daemonIds: seq<string>, daemonBands: seq<string>)
    requires DaemonSeen(view, daemon, done, daemonIds, daemonBands) && s !in done
    ensures Some(s) != daemon ==> DaemonSeen(view, daemon, done + [s], daemonIds, daemonBands)
    ensures Some(s) == daemon ==> DaemonSeen(view, daemon, done + [s], daemonIds + view(s).ids,
                                             daemonBands + view(s).bands)
  {
    assert [] + view(s).ids == view(s).ids && [] + view(s).bands == view(s).bands;
  }

  lemma {:induction false} DaemonTurn(view: View, daemon: Option<string>, done: seq<string>, tokens: Tokens,
                                      skipped: seq<Skipped>, orderable: seq<Ordered>, daemonIds: seq<string>,
                                      daemonBands: seq<string>, s: string)
    requires Walked(view, daemon, done, tokens, skipped, orderable, daemonIds, daemonBands) && s !in done &&
      Some(s) == daemon
    ensures Walked(view, daemon, done + [s], tokens, skipped, orderable, daemonIds + view(s).ids,
                   daemonBands + view(s).bands)
  {
    DaemonConserves(view, done, s, skipped, orderable, daemonIds);
    SkipKeeps(view, daemon, done, s, orderable);
    StillExplained(view, daemon, done, s, skipped);
    DaemonStillSeen(view, daemon, done, s, daemonIds, daemonBands);
  }

  lemma {:induction false} SkipTurn(view: View, daemon: Option<string>, done: seq<string>, tokens: Tokens,
                                    skipped: seq<Skipped>, orderable: seq<Ordered>, daemonIds: seq<string>,
                                    daemonBands: seq<string>, s: string, sk: Skipped)
    requires Walked(view, daemon, done, tokens, skipped, orderable, daemonIds, daemonBands) && s !in done &&
      Some(s) != daemon
    requires sk.stack == s && sk.evidenceIds == view(s).ids && view(s).decision == Skip(sk.reason)
    ensures Walked(view, daemon, done + [s], tokens, skipped + [sk], orderable, daemonIds, daemonBands)
  {
    SkipConserves(view, done, s, skipped, orderable, daemonIds, sk);
    SkipKeeps(view, daemon, done, s, orderable);
    OneMoreExplained(view, daemon, done, skipped, sk);
    DaemonStillSeen(view, daemon, done, s, daemonIds, daemonBands);
  }

  lemma {:induction false} PlanTurn(view: View, daemon: Option<string>, done: seq<string>, tokens: Tokens,
                                    skipped: seq<Skipped>, orderable: seq<Ordered>, daemonIds: seq<string>,
                                    daemonBands: seq<string>, s: string, o: Ordered)
    requires Walked(view, daemon, done, tokens, skipped, orderable, daemonIds, daemonBands) && s !in done &&
      Some(s) != daemon
    requires o.item.target == s && StackItemOk(o.item, view(s)) && o.at == view(s).decision.at &&
      o.item.id == tokens(|orderable|)
    ensures Walked(view, daemon, done + [s], tokens, skipped, orderable + [o], daemonIds, daemonBands)
  {
    PlanConserves(view, done, s, skipped, orderable, daemonIds, o);
    PlanKeeps(view, daemon, done, s, orderable, o);
    NumberedMore(orderable, tokens, o);
    StillExplained(view, daemon, done, s, skipped);
    DaemonStillSeen(view, daemon, done, s, daemonIds, daemonBands);
  }

  lemma {:induction false} NextPrefix(stacks: seq<string>, i: nat)
    requires NoRepeats(stacks) && i < |stacks|
    ensures stacks[..i + 1] == stacks[..i] + [stacks[i]] && stacks[i] !in stacks[..i]
  {}

  /** One stack: the daemon's evidence is collected, another stack is skipped or planned. */
  method OneStack(view: View, daemon: Option<string>, tokens: Tokens, s: string, ghost done: seq<string>,
                  skipped: seq<Skipped>, orderable: seq<Ordered>, daemonIds: seq<string>, daemonBands: seq<string>)
    returns (skipped': seq<Skipped>, orderable': seq<Ordered>, daemonIds': seq<string>, daemonBands': seq<string>)
    requires Walked(view, daemon, done, tokens, skipped, orderable, daemonIds, daemonBands) && s !in done
    ensures Walked(view, daemon, done + [s], tokens, skipped', orderable', daemonIds', daemonBands')
  {
    skipped', orderable', daemonIds', daemonBands' := skipped, orderable, daemonIds, daemonBands;
    var v := view(s);
    if Some(s) == daemon {
      DaemonTurn(view, daemon, done, tokens, skipped, orderable, daemonIds, daemonBands, s);
      daemonBands' := daemonBands + v.bands;
      daemonIds' := daemonIds + v.ids;
    } else if v.decision.Skip? {
      var sk := Skipped(s, v.decision.reason, v.ids);
      SkipTurn(view, daemon, done, tokens, skipped, orderable, daemonIds, daemonBands, s, sk);
      skipped' := skipped + [sk];
    } else {
      var o := Ordered(v.decision.at, NewItem(tokens(|orderable|), StackItem, s, v.decision.band, [], v.ids,
                                              v.decision.parts));
      PlanTurn(view, daemon, done, tokens, skipped, orderable, daemonIds, daemonBands, s, o);
      orderable' := orderable + [o];
    }
  }

  /** Walks the stacks in order; `tokens` gives the random ids one by one. */
  method WalkStacks(view: View, daemon: Option<string>, stacks: seq<string>, tokens: Tokens)
    returns (skipped: seq<Skipped>, orderable: seq<Ordered>, daemonIds: seq<string>, daemonBands: seq<string>)
    requires NoRepeats(stacks)
    ensures Walked(view, daemon, stacks, tokens, skipped, orderable, daemonIds, daemonBands)
  {
    skipped, orderable, daemonIds, daemonBands := [], [], [], [];
    for i := 0 to |stacks|
      invariant Walked(view, daemon, stacks[..i], tokens, skipped, orderable, daemonIds, daemonBands)
    {
      NextPrefix(stacks, i);
      skipped, orderable, daemonIds, daemonBands :=
        OneStack(view, daemon, tokens, stacks[i], stacks[..i], skipped, orderable, daemonIds, daemonBands);
    }
    assert stacks[..|stacks|] == stacks;
  }

  // --- the plan ----------------------------------------------------------------------------------------------

  function AllowedOf(evs: seq<Evidence>): (r: seq<string>)
    ensures forall b :: b in r ==> b in ALLOWED_BANDS
    ensures forall b :: b in r <==> b in ALLOWED_BANDS && exists e :: e in evs && e.band == b
  {
    if evs == [] then []
    else
      assert evs == [evs[0]] + evs[1..];
      (if evs[0].band in ALLOWED_BANDS then [evs[0].band] else []) + AllowedOf(evs[1..])
  }

  function ViewOf(evidence: seq<Evidence>, metas: Metas, markers: Markers, daemon: string):
    View
  {
    (s: string) => StackView(Ids(OfStack(evidence, s)), AllowedOf(OfStack(evidence, s)),
                             DecisionFor(evidence, s, metas, markers, daemon))
  }

  /** The items of a plan: the stacks' by age, then the daemon's, last. */
  function Arranged(orderable: seq<Ordered>, daemonIds: seq<string>, daemonBands: seq<string>, token: string): seq<Item>
  {
    ItemsOf(SortBy(orderable, OrderKey)) +
    (if daemonIds == [] then [] else [NewItem(token, DaemonReconcile, "", "", SortedSet(daemonBands), daemonIds, [])])
  }

  function DaemonIn(metas: Metas, daemon: string): Option<string> { if daemon in metas then Some(daemon) else None }

  /** A plan, with the walk it came from. */
  ghost predicate Derived(evidence: seq<Evidence>, metas: Metas, markers: Markers, daemon: string, tokens: Tokens,
                          plan: Plan, orderable: seq<Ordered>, daemonIds: seq<string>, daemonBands: seq<string>)
  {
    Walked(ViewOf(evidence, metas, markers, daemon), DaemonIn(metas, daemon), SortedSet(Stacks(evidence)), tokens,
           plan.skipped, orderable, daemonIds, daemonBands) &&
    plan.items == Arranged(orderable, daemonIds, daemonBands, tokens(|orderable|))
  }

  /** The walk and the arrangement, with what the proofs need of the walk. */
  method Derive(evidence: seq<Evidence>, metas: Metas, markers: Markers, daemon: string,
                tokens: Tokens)
    returns (plan: Plan, ghost orderable: seq<Ordered>, ghost daemonIds: seq<string>, ghost daemonBands: seq<string>)
    ensures Derived(evidence, metas, markers, daemon, tokens, plan, orderable, daemonIds, daemonBands)
  {
    var stacks := SortedSet(Stacks(evidence));
    SortedSetFacts(Stacks(evidence));
    var view := ViewOf(evidence, metas, markers, daemon);
    var skipped, items, ids, bands := WalkStacks(view, DaemonIn(metas, daemon), stacks, tokens);
    plan := Plan(Arranged(items, ids, bands, tokens(|items|)), skipped);
    orderable, daemonIds, daemonBands := items, ids, bands;
  }

  // --- what a plan guarantees ---------------------------------------------------------------------------------

  lemma {:induction false} ArrangedKeepsIds(orderable: seq<Ordered>, daemonIds: seq<string>, daemonBands: seq<string>,
                                            token: string)
    ensures multiset(ItemIds(Arranged(orderable, daemonIds, daemonBands, token))) ==
      multiset(ItemIds(ItemsOf(orderable))) + multiset(daemonIds)
  {
    var sorted := ItemsOf(SortBy(orderable, OrderKey));
    var daemonItem := NewItem(token, DaemonReconcile, "", "", SortedSet(daemonBands), daemonIds, []);
    var last := if daemonIds == [] then [] else [daemonItem];
    SortKeepsIds(orderable);
    GatherJoins(sorted, last, ItemEvidence);
    if daemonIds != [] {
      GatherOneMore([], last[0], ItemEvidence);
      assert [] + [last[0]] == last && [] + daemonIds == daemonIds;
    }
  }

  lemma {:induction false} LastOfMany(done: seq<string>)
    requires NoRepeats(done) && done != []
    ensures var rest, s := done[..|done| - 1], done[|done| - 1];
      NoRepeats(rest) && s !in rest && (set x | x in done) == (set x | x in rest) + {s}
  {
    NextPrefix(done, |done| - 1);
    assert done[..|done|] == done;
  }

  lemma {:induction false} AllIdsIsEvidence(view: View, evidence: seq<Evidence>, done: seq<string>)
    requires NoRepeats(done) && forall s :: view(s).ids == Ids(OfStack(evidence, s))
    ensures AllIds(view, done) == multiset(IdsIn(evidence, set s | s in done))
  {
    if done == [] {
      IdsOfNone(evidence);
      assert (set s | s in done) == {};
    } else {
      var rest, s := done[..|done| - 1], done[|done| - 1];
      LastOfMany(done);
      AllIdsIsEvidence(view, evidence, rest);
      IdsGrow(evidence, (set x | x in rest), s);
    }
  }

  lemma {:induction false} WalkedIds(view: View, daemon: Option<string>, evidence: seq<Evidence>, stacks: seq<string>,
                                     tokens: Tokens, skipped: seq<Skipped>, orderable: seq<Ordered>,
                                     daemonIds: seq<string>, daemonBands: seq<string>, token: string)
    requires Walked(view, daemon, stacks, tokens, skipped, orderable, daemonIds, daemonBands) && NoRepeats(stacks)
    requires (forall s :: view(s).ids == Ids(OfStack(evidence, s))) && forall s :: s in Stacks(evidence) ==> s in stacks
    ensures multiset(ItemIds(Arranged(orderable, daemonIds, daemonBands, token))) + multiset(SkippedIds(skipped)) ==
      multiset(Ids(evidence))
  {
    ArrangedKeepsIds(orderable, daemonIds, daemonBands, token);
    AllIdsIsEvidence(view, evidence, stacks);
    IdsOfAll(evidence, set s | s in stacks);
  }

  /** Conservation: every launch id is in exactly one planned item or one skipped entry. */
  lemma {:induction false} EveryLaunchIsAccountedFor(evidence: seq<Evidence>, metas: Metas, markers: Markers,
                                                     daemon: string, tokens: Tokens, plan: Plan,
                                                     orderable: seq<Ordered>, daemonIds: seq<string>,
                                                     daemonBands: seq<string>)
    requires Derived(evidence, metas, markers, daemon, tokens, plan, orderable, daemonIds, daemonBands)
    ensures multiset(ItemIds(plan.items)) + multiset(SkippedIds(plan.skipped)) == multiset(Ids(evidence))
  {
    SortedSetFacts(Stacks(evidence));
    WalkedIds(ViewOf(evidence, metas, markers, daemon), DaemonIn(metas, daemon), evidence, SortedSet(Stacks(evidence)),
              tokens, plan.skipped, orderable, daemonIds, daemonBands, tokens(|orderable|));
  }

  lemma {:induction false} ArrangedItems(orderable: seq<Ordered>, daemonIds: seq<string>, daemonBands: seq<string>,
                                         token: string)
    ensures var items := Arranged(orderable, daemonIds, daemonBands, token);
      var sorted := SortBy(orderable, OrderKey);
      |sorted| == |orderable| && |items| == |orderable| + (if daemonIds == [] then 0 else 1) &&
      (forall i :: 0 <= i < |orderable| ==> items[i] == sorted[i].item && sorted[i] in orderable) &&
      (daemonIds != [] ==> items[|orderable|] == NewItem(token, DaemonReconcile, "", "", SortedSet(daemonBands),
                                                         daemonIds, []))
  {
    SortKeepsMembers(orderable, OrderKey);
    ItemsOfMembers(SortBy(orderable, OrderKey));
  }

  /** At most one item per stack; nothing follows the daemon's. */
  lemma {:induction false} OneItemPerStack(view: View, daemon: Option<string>, stacks: seq<string>,
                                           orderable: seq<Ordered>, daemonIds: seq<string>, daemonBands: seq<string>,
                                           token: string, i: nat, k: nat)
    requires Shaped(view, daemon, stacks, orderable) && i < k < |Arranged(orderable, daemonIds, daemonBands, token)|
    ensures var items := Arranged(orderable, daemonIds, daemonBands, token);
      items[i].kind == StackItem && (items[k].kind == StackItem ==> items[i].target != items[k].target)
  {
    ArrangedItems(orderable, daemonIds, daemonBands, token);
    TargetsApart(orderable);
  }

  /** Every stack item is as decided: band, parts, and all the launch ids of its stack. */
  lemma {:induction false} ItemsAsDecided(view: View, daemon: Option<string>, stacks: seq<string>,
                                          orderable: seq<Ordered>, daemonIds: seq<string>, daemonBands: seq<string>,
                                          token: string, i: nat)
    requires Shaped(view, daemon, stacks, orderable) && i < |Arranged(orderable, daemonIds, daemonBands, token)|
    ensures var it := Arranged(orderable, daemonIds, daemonBands, token)[i];
      it.kind == StackItem ==> StackItemOk(it, view(it.target)) && it.target in stacks && Some(it.target) != daemon
  {
    ArrangedItems(orderable, daemonIds, daemonBands, token);
    if i < |orderable| {
      var o := SortBy(orderable, OrderKey)[i];
      var k :| 0 <= k < |orderable| && orderable[k] == o;
    }
  }

  /** Every stack that is to be restored has its item. */
  lemma {:induction false} NoStackIsForgotten(view: View, daemon: Option<string>, stacks: seq<string>,
                                              orderable: seq<Ordered>, daemonIds: seq<string>, daemonBands: seq<string>,
                                              token: string, s: string)
    requires Shaped(view, daemon, stacks, orderable) && s in stacks && Some(s) != daemon && view(s).decision.Restore?
    ensures var items := Arranged(orderable, daemonIds, daemonBands, token);
      exists i :: 0 <= i < |items| && items[i].kind == StackItem && items[i].target == s
  {
    var items := Arranged(orderable, daemonIds, daemonBands, token);
    var sorted := SortBy(orderable, OrderKey);
    ArrangedItems(orderable, daemonIds, daemonBands, token);
    SortKeepsMembers(orderable, OrderKey);
    var i :| 0 <= i < |orderable| && orderable[i].item.target == s;
    assert orderable[i] in sorted;
    var k :| 0 <= k < |sorted| && sorted[k] == orderable[i];
    assert items[k].target == s;
  }

  lemma {:induction false} TargetsApart(orderable: seq<Ordered>)
    requires forall i, k :: 0 <= i < k < |orderable| ==> orderable[i].item.target != orderable[k].item.target
    ensures var sorted := SortBy(orderable, OrderKey);
      forall i, k :: 0 <= i < k < |sorted| ==> sorted[i].item.target != sorted[k].item.target
  {
    var sorted := SortBy(orderable, OrderKey);
    SortKeepsMembers(orderable, OrderKey);
    StillNoRepeats(orderable, sorted);
    forall i, k | 0 <= i < k < |sorted| ensures sorted[i].item.target != sorted[k].item.target {
      assert sorted[i] in orderable && sorted[k] in orderable;
      var a :| 0 <= a < |orderable| && orderable[a] == sorted[i];
      var b :| 0 <= b < |orderable| && orderable[b] == sorted[k];
      assert a != b;
    }
  }

  /** The same evidence in another order: the same decisions. */
  lemma {:induction false} DecisionsIgnoreOrder(a: seq<Evidence>, b: seq<Evidence>, metas: Metas,
                                                markers: Markers, daemon: string, s: string)
    requires SameMembers(a, b)
    ensures SameDecision(ViewOf(a, metas, markers, daemon)(s).decision, ViewOf(b, metas, markers, daemon)(s).decision)
  {
    StackEvidenceSame(a, b, s);
    DecisionIgnoresOrder(OfStack(a, s), OfStack(b, s), s, MetaOf(metas, s), MarkersOf(markers, s),
                         DaemonMain(metas, daemon));
  }

  predicate SameDecision(x: Decision, y: Decision)
  {
    (x.Skip? ==> x == y) && (y.Skip? ==> x == y) && (x.Restore? ==> x.band == y.band && x.parts == y.parts)
  }

  lemma {:induction false} StacksIgnoreOrder(a: seq<Evidence>, b: seq<Evidence>)
    requires SameMembers(a, b)
    ensures SortedSet(Stacks(a)) == SortedSet(Stacks(b))
  {
    StacksOf(a);
    StacksOf(b);
    forall x ensures x in Stacks(a) <==> x in Stacks(b) {}
    SortedSetIsCanonical(Stacks(a), Stacks(b));
  }

  lemma {:induction false} StacksOf(evidence: seq<Evidence>)
    ensures forall s :: s in Stacks(evidence) <==> exists e :: e in evidence && e.stack == s
  {
    if evidence != [] {
      StacksOf(evidence[1..]);
      assert evidence == [evidence[0]] + evidence[1..];
    }
  }

  // --- the journal ---------------------------------------------------------------------------------------------

  datatype RunState = Running | DoneRun | FailedRun | Disabled | NoPlan | UnsafeRun

  const JOURNAL_VERSION := 1

  datatype Journal = Journal(version: int, runId: string, bootId: string, pid: int, state: RunState, items: seq<Item>)

  function NewJournal(runId: string, bootId: string, pid: int, items: seq<Item>): Journal
  {
    Journal(JOURNAL_VERSION, runId, bootId, pid, Running, items)
  }

  predicate AllNamed(s: seq<string>) { "" !in s }

  /** No launch id and no component the item lists is empty. */
  predicate ItemNamed(it: Item) { AllNamed(it.evidenceIds) && AllNamed(it.components) }

  predicate PruneValid(p: Prune, evidenceIds: seq<string>)
  {
    (forall x :: x in p.left ==> x in evidenceIds) && !(p.ok && p.left != []) &&
      !(!p.ok && p.left == [] && p.reason.None?)
  }

  predicate ItemValid(it: Item)
  {
    it.id != "" && (forall b :: b in it.bands ==> b in ALLOWED_BANDS) && AllNamed(it.evidenceIds) &&
      AllNamed(it.components) &&
    (it.prune.Some? ==> PruneValid(it.prune.value, it.evidenceIds))
  }

  predicate JournalValid(j: Journal)
  {
    j.version == JOURNAL_VERSION && j.runId != "" && j.pid > 0 &&
      (forall i :: 0 <= i < |j.items| ==> ItemValid(j.items[i])) &&
    forall i, k :: 0 <= i < k < |j.items| ==> j.items[i].id != j.items[k].id
  }

  /** `validate_journal`: true when structurally valid. */
  method ValidateJournal(j: Journal) returns (ok: bool)
    ensures ok <==> JournalValid(j)
  {
    if j.version != JOURNAL_VERSION || j.runId == "" || j.pid <= 0 { return false; }
    var seen: set<string> := {};
    for i := 0 to |j.items|
      invariant seen == set k | 0 <= k < i :: j.items[k].id
      invariant forall k :: 0 <= k < i ==> ItemValid(j.items[k])
      invariant forall k, l :: 0 <= k < l < i ==> j.items[k].id != j.items[l].id
    {
      if !ItemValid(j.items[i]) || j.items[i].id in seen { return false; }
      seen := seen + {j.items[i].id};
    }
    return true;
  }

  /** What the random ids of a plan must be. */
  predicate GoodTokens(tokens: Tokens, n: nat)
  {
    (forall i :: 0 <= i < n ==> tokens(i) != "") && forall i, k :: 0 <= i < k < n ==> tokens(i) != tokens(k)
  }

  lemma {:induction false} IdsApart(orderable: seq<Ordered>, tokens: Tokens, i: nat, k: nat)
    requires Numbered(orderable, tokens) && GoodTokens(tokens, |orderable| + 1) && i < k < |orderable|
    ensures var sorted := SortBy(orderable, OrderKey);
      |sorted| == |orderable| && sorted[i].item.id != sorted[k].item.id && sorted[i].item.id != tokens(|orderable|)
  {
    var sorted := SortBy(orderable, OrderKey);
    SortKeepsMembers(orderable, OrderKey);
    NumberedApart(orderable, tokens);
    StillNoRepeats(orderable, sorted);
    assert sorted[i] in orderable && sorted[k] in orderable;
    var a :| 0 <= a < |orderable| && orderable[a] == sorted[i];
    var b :| 0 <= b < |orderable| && orderable[b] == sorted[k];
    assert a != b;
  }

  lemma {:induction false} NumberedApart(orderable: seq<Ordered>, tokens: Tokens)
    requires Numbered(orderable, tokens) && GoodTokens(tokens, |orderable| + 1)
    ensures NoRepeats(orderable)
  {
    forall i, k | 0 <= i < k < |orderable| ensures orderable[i] != orderable[k] {
      assert orderable[i].item.id == tokens(i) && orderable[k].item.id == tokens(k);
    }
  }

  /** The ids of the items are among the tokens, each used once. */
  lemma {:induction false} PlanIds(orderable: seq<Ordered>, tokens: Tokens, daemonIds: seq<string>,
                                   daemonBands: seq<string>)
    requires Numbered(orderable, tokens) && GoodTokens(tokens, |orderable| + 1)
    ensures var items := Arranged(orderable, daemonIds, daemonBands, tokens(|orderable|));
      (forall i :: 0 <= i < |items| ==> items[i].id != "") &&
      forall i, k :: 0 <= i < k < |items| ==> items[i].id != items[k].id
  {
    var items := Arranged(orderable, daemonIds, daemonBands, tokens(|orderable|));
    var sorted := SortBy(orderable, OrderKey);
    ArrangedItems(orderable, daemonIds, daemonBands, tokens(|orderable|));
    forall i | 0 <= i < |items| ensures items[i].id != "" && (i < |orderable| ==> items[i].id != tokens(|orderable|)) {
      if i < |orderable| {
        var a :| 0 <= a < |orderable| && orderable[a] == sorted[i];
        assert orderable[a].item.id == tokens(a);
      }
    }
    forall i, k | 0 <= i < k < |items| ensures items[i].id != items[k].id {
      if k < |orderable| { IdsApart(orderable, tokens, i, k); }
    }
  }

  /** A planned item is unpruned and names allowed bands only. */
  lemma {:induction false} FreshItem(view: View, daemon: Option<string>, stacks: seq<string>, orderable: seq<Ordered>,
                                     daemonIds: seq<string>, daemonBands: seq<string>, token: string, i: nat)
    requires Shaped(view, daemon, stacks, orderable) && forall b :: b in daemonBands ==> b in ALLOWED_BANDS
    requires i < |Arranged(orderable, daemonIds, daemonBands, token)|
    ensures var it := Arranged(orderable, daemonIds, daemonBands, token)[i];
      it.prune == None && forall b :: b in it.bands ==> b in ALLOWED_BANDS
  {
    ArrangedItems(orderable, daemonIds, daemonBands, token);
    SortedSetFacts(daemonBands);
    if i < |orderable| { ItemsAsDecided(view, daemon, stacks, orderable, daemonIds, daemonBands, token, i); }
  }

  lemma {:induction false} ItemsDecide(j: Journal)
    requires j.version == JOURNAL_VERSION && forall i, k :: 0 <= i < k < |j.items| ==> j.items[i].id != j.items[k].id
    requires forall i :: 0 <= i < |j.items| ==>
      (ItemValid(j.items[i]) <==> ItemNamed(j.items[i]))
    ensures JournalValid(j) <==>
      j.runId != "" && j.pid > 0 && forall i :: 0 <= i < |j.items| ==> ItemNamed(j.items[i])
  {}

  /**
   The journal of a plan validates exactly when its run and process are named and no launch id or
   component it lists is empty, the random ids being distinct.
   */
  lemma {:induction false} PlanValidates(view: View, daemon: Option<string>, stacks: seq<string>,
                                         orderable: seq<Ordered>, daemonIds: seq<string>, daemonBands: seq<string>,
                                         tokens: Tokens, runId: string, bootId: string, pid: int)
    requires Shaped(view, daemon, stacks, orderable) && Numbered(orderable, tokens) &&
      GoodTokens(tokens, |orderable| + 1)
    requires forall b :: b in daemonBands ==> b in ALLOWED_BANDS
    ensures var items := Arranged(orderable, daemonIds, daemonBands, tokens(|orderable|));
      JournalValid(NewJournal(runId, bootId, pid, items)) <==>
      runId != "" && pid > 0 && forall i :: 0 <= i < |items| ==> ItemNamed(items[i])
  {
    var items := Arranged(orderable, daemonIds, daemonBands, tokens(|orderable|));
    PlanIds(orderable, tokens, daemonIds, daemonBands);
    forall i | 0 <= i < |items| ensures ItemValid(items[i]) <==> ItemNamed(items[i]) {
      FreshItem(view, daemon, stacks, orderable, daemonIds, daemonBands, tokens(|orderable|), i);
    }
    ItemsDecide(NewJournal(runId, bootId, pid, items));
  }

  lemma {:induction false} IdsOfSome(evs: seq<Evidence>)
    ensures Ids(evs) != [] <==> evs != []
  {}

  lemma {:induction false} StackIsSeen(evidence: seq<Evidence>, s: string)
    ensures s in SortedSet(Stacks(evidence)) <==> OfStack(evidence, s) != []
  {
    SortedSetFacts(Stacks(evidence));
    StacksOf(evidence);
    var own := OfStack(evidence, s);
    if own != [] { assert own[0] in own; }
  }

  /** The daemon is reconciled exactly when it left evidence, on allowed bands only. */
  lemma {:induction false} DaemonReconciled(evidence: seq<Evidence>, metas: Metas, markers: Markers,
                                            daemon: string, daemonIds: seq<string>, daemonBands: seq<string>)
    requires DaemonSeen(ViewOf(evidence, metas, markers, daemon), DaemonIn(metas, daemon),
                        SortedSet(Stacks(evidence)), daemonIds, daemonBands)
    ensures forall b :: b in daemonBands ==> b in ALLOWED_BANDS
    ensures daemonIds != [] <==> daemon in metas && OfStack(evidence, daemon) != []
  {
    StackIsSeen(evidence, daemon);
    IdsOfSome(OfStack(evidence, daemon));
  }

  // --- derive_plan --------------------------------------------------------------------------------------------

  /** Both items restore stacks, the first one's started earlier (or its name comes first). */
  predicate Before(view: View, a: Item, b: Item)
  {
    var x, y := view(a.target).decision, view(b.target).decision;
    a.target != b.target && x.Restore? && y.Restore? &&
    KeyLe([Num(x.at), Text(a.target)], [Num(y.at), Text(b.target)])
  }

  predicate Follows(view: View, a: Item, b: Item)
  {
    a.kind == StackItem && (b.kind == StackItem ==> Before(view, a, b))
  }

  /** At most one item per stack, oldest start first; nothing follows the daemon's. */
  ghost predicate InOrder(view: View, items: seq<Item>)
  {
    forall i, k :: 0 <= i < k < |items| ==> Follows(view, items[i], items[k])
  }

  /** Every item is as decided, and every stack that is to be restored has one. */
  ghost predicate Faithful(view: View, daemon: Option<string>, stacks: seq<string>, items: seq<Item>)
  {
    (forall i :: 0 <= i < |items| && items[i].kind == StackItem ==>
       (StackItemOk(items[i], view(items[i].target)) && items[i].target in stacks &&
        Some(items[i].target) != daemon)) &&
    (forall s :: s in stacks && Some(s) != daemon && view(s).decision.Restore? ==>
       exists i :: 0 <= i < |items| && items[i].kind == StackItem && items[i].target == s)
  }

  /** A journal of the items validates as soon as run, process and recorded names are not empty. */
  ghost predicate Journalable(items: seq<Item>)
  {
    forall runId, bootId, pid :: JournalValid(NewJournal(runId, bootId, pid, items)) <==>
      (runId != "" && pid > 0 && forall i :: 0 <= i < |items| ==> ItemNamed(items[i]))
  }

  predicate OrderedOk(view: View, o: Ordered)
  {
    StackItemOk(o.item, view(o.item.target)) && o.at == view(o.item.target).decision.at
  }

  lemma {:induction false} SortedOk(view: View, daemon: Option<string>, stacks: seq<string>, orderable: seq<Ordered>)
    requires Shaped(view, daemon, stacks, orderable)
    ensures forall o :: o in SortBy(orderable, OrderKey) ==> OrderedOk(view, o)
  {
    SortKeepsMembers(orderable, OrderKey);
  }

  lemma {:induction false} SortedBefore(view: View, sorted: seq<Ordered>, i: nat, k: nat)
    requires Sorted(sorted, OrderKey) && (forall o :: o in sorted ==> OrderedOk(view, o)) && i < k < |sorted|
    requires sorted[i].item.target != sorted[k].item.target
    ensures Before(view, sorted[i].item, sorted[k].item)
  {
    assert OrderedOk(view, sorted[i]) && OrderedOk(view, sorted[k]);
    assert KeyLe(OrderKey(sorted[i]), OrderKey(sorted[k]));
  }

  lemma {:induction false} SortedInOrder(view: View, sorted: seq<Ordered>, items: seq<Item>)
    requires Sorted(sorted, OrderKey) && forall o :: o in sorted ==> OrderedOk(view, o)
    requires forall i, k :: 0 <= i < k < |sorted| ==> sorted[i].item.target != sorted[k].item.target
    requires |sorted| <= |items| <= |sorted| + 1 && forall i :: 0 <= i < |sorted| ==> items[i] == sorted[i].item
    requires forall i :: |sorted| <= i < |items| ==> items[i].kind == DaemonReconcile
    ensures InOrder(view, items)
  {
    forall i, k | 0 <= i < k < |items| ensures Follows(view, items[i], items[k]) {
      assert OrderedOk(view, sorted[i]);
      if k < |sorted| { SortedBefore(view, sorted, i, k); }
    }
  }

  lemma {:induction false} ArrangedInOrder(view: View, daemon: Option<string>, stacks: seq<string>,
                                           orderable: seq<Ordered>, daemonIds: seq<string>, daemonBands: seq<string>,
                                           token: string)
    requires Shaped(view, daemon, stacks, orderable)
    ensures InOrder(view, Arranged(orderable, daemonIds, daemonBands, token))
  {
    ArrangedItems(orderable, daemonIds, daemonBands, token);
    SortedOk(view, daemon, stacks, orderable);
    TargetsApart(orderable);
    SortedInOrder(view, SortBy(orderable, OrderKey), Arranged(orderable, daemonIds, daemonBands, token));
  }

  lemma {:induction false} ArrangedFaithful(view: View, daemon: Option<string>, stacks: seq<string>,
                                            orderable: seq<Ordered>, daemonIds: seq<string>, daemonBands: seq<string>,
                                            token: string)
    requires Shaped(view, daemon, stacks, orderable)
    ensures Faithful(view, daemon, stacks, Arranged(orderable, daemonIds, daemonBands, token))
  {
    var items := Arranged(orderable, daemonIds, daemonBands, token);
    forall i | 0 <= i < |items| && items[i].kind == StackItem
      ensures StackItemOk(items[i], view(items[i].target)) && items[i].target in stacks &&
        Some(items[i].target) != daemon
    {
      ItemsAsDecided(view, daemon, stacks, orderable, daemonIds, daemonBands, token, i);
    }
    forall s | s in stacks && Some(s) != daemon && view(s).decision.Restore?
      ensures exists i :: 0 <= i < |items| && items[i].kind == StackItem && items[i].target == s
    {
      NoStackIsForgotten(view, daemon, stacks, orderable, daemonIds, daemonBands, token, s);
    }
  }

  lemma {:induction false} ArrangedJournalable(view: View, daemon: Option<string>, stacks: seq<string>,
                                               orderable: seq<Ordered>, daemonIds: seq<string>,
                                               daemonBands: seq<string>, tokens: Tokens)
    requires Shaped(view, daemon, stacks, orderable) && Numbered(orderable, tokens)
    requires forall b :: b in daemonBands ==> b in ALLOWED_BANDS
    ensures var items := Arranged(orderable, daemonIds, daemonBands, tokens(|orderable|));
      GoodTokens(tokens, |items| + 1) ==> Journalable(items)
  {
    var items := Arranged(orderable, daemonIds, daemonBands, tokens(|orderable|));
    ArrangedItems(orderable, daemonIds, daemonBands, tokens(|orderable|));
    if GoodTokens(tokens, |items| + 1) {
      forall runId, bootId, pid ensures JournalValid(NewJournal(runId, bootId, pid, items)) <==>
        (runId != "" && pid > 0 && forall i :: 0 <= i < |items| ==> ItemNamed(items[i]))
      {
        PlanValidates(view, daemon, stacks, orderable, daemonIds, daemonBands, tokens, runId, bootId, pid);
      }
    }
  }

  /** The daemon's item, last: there exactly when it left evidence, with all of it and the allowed bands. */
  ghost predicate DaemonLast(evidence: seq<Evidence>, metas: Metas, daemon: string, items: seq<Item>)
  {
    var own := OfStack(evidence, daemon);
    if daemon in metas && own != [] then
      items != [] && items[|items| - 1].kind == DaemonReconcile && items[|items| - 1].target == "" &&
      items[|items| - 1].evidenceIds == Ids(own) && items[|items| - 1].bands == SortedSet(AllowedOf(own))
    else forall i :: 0 <= i < |items| ==> items[i].kind == StackItem
  }

  lemma {:induction false} ArrangedDaemonLast(evidence: seq<Evidence>, metas: Metas, markers: Markers, daemon: string,
                                              orderable: seq<Ordered>, daemonIds: seq<string>,
                                              daemonBands: seq<string>, token: string)
    requires DaemonSeen(ViewOf(evidence, metas, markers, daemon), DaemonIn(metas, daemon),
                        SortedSet(Stacks(evidence)), daemonIds, daemonBands)
    requires Shaped(ViewOf(evidence, metas, markers, daemon), DaemonIn(metas, daemon), SortedSet(Stacks(evidence)),
                    orderable)
    ensures DaemonLast(evidence, metas, daemon, Arranged(orderable, daemonIds, daemonBands, token))
  {
    ArrangedItems(orderable, daemonIds, daemonBands, token);
    DaemonReconciled(evidence, metas, markers, daemon, daemonIds, daemonBands);
    StackIsSeen(evidence, daemon);
    var items := Arranged(orderable, daemonIds, daemonBands, token);
    if daemonIds == [] {
      forall i | 0 <= i < |items| ensures items[i].kind == StackItem {
        SortedOk(ViewOf(evidence, metas, markers, daemon), DaemonIn(metas, daemon), SortedSet(Stacks(evidence)),
                 orderable);
        assert OrderedOk(ViewOf(evidence, metas, markers, daemon), SortBy(orderable, OrderKey)[i]);
      }
    }
  }

  /** What `derive_plan` promises of its plan. */
  ghost predicate GoodPlan(evidence: seq<Evidence>, metas: Metas, markers: Markers, daemon: string,
                           plan: Plan)
  {
    var view, who, stacks := ViewOf(evidence, metas, markers, daemon), DaemonIn(metas, daemon),
      SortedSet(Stacks(evidence));
    multiset(ItemIds(plan.items)) + multiset(SkippedIds(plan.skipped)) == multiset(Ids(evidence)) &&
    InOrder(view, plan.items) && Faithful(view, who, stacks, plan.items) &&
      Explained(view, who, stacks, plan.skipped) &&
    DaemonLast(evidence, metas, daemon, plan.items)
  }

  /** The stack left evidence, and is not the daemon's. */
  ghost predicate ToPlan(evidence: seq<Evidence>, s: string, metas: Metas, daemon: string)
  {
    (exists e :: e in evidence && e.stack == s) && !(daemon in metas && s == daemon)
  }

  /**
   The plan, said of the records, the manifest and the markers: what is restored on which band and
   with which parts, what is skipped and why, and what comes first.
   */
  ghost predicate AsRecorded(evidence: seq<Evidence>, metas: Metas, markers: Markers, daemon: string, plan: Plan)
  {
    StacksAsRecorded(evidence, metas, markers, daemon, plan.items) &&
    SkipsAsRecorded(evidence, metas, markers, daemon, plan.skipped) &&
    forall i, k, a, b ::
      (0 <= i < k < |plan.items| && plan.items[i].kind == StackItem && plan.items[k].kind == StackItem &&
       StartedAt(evidence, plan.items[i].target, metas, markers, daemon, a) &&
       StartedAt(evidence, plan.items[k].target, metas, markers, daemon, b)) ==>
        a < b || (a == b && TextLe(plan.items[i].target, plan.items[k].target))
  }

  /** An item is there exactly for the stacks that are restored, with their band and parts. */
  ghost predicate StacksAsRecorded(evidence: seq<Evidence>, metas: Metas, markers: Markers, daemon: string,
                                   items: seq<Item>)
  {
    (forall it :: it in items && it.kind == StackItem ==>
       ToPlan(evidence, it.target, metas, daemon) &&
       RestoredAs(evidence, it.target, metas, markers, daemon, it.band, it.components)) &&
    (forall s, band, parts ::
       ToPlan(evidence, s, metas, daemon) && RestoredAs(evidence, s, metas, markers, daemon, band, parts) ==>
       exists it :: it in items && it.kind == StackItem && it.target == s)
  }

  /** An entry is there exactly for the stacks that are not restored, with the reason. */
  ghost predicate SkipsAsRecorded(evidence: seq<Evidence>, metas: Metas, markers: Markers, daemon: string,
                                  skipped: seq<Skipped>)
  {
    (forall sk :: sk in skipped ==>
       ToPlan(evidence, sk.stack, metas, daemon) &&
       SkippedFor(sk.reason, evidence, sk.stack, metas, markers, daemon)) &&
    (forall s, r ::
       ToPlan(evidence, s, metas, daemon) && SkippedFor(r, evidence, s, metas, markers, daemon) ==>
       exists sk :: sk in skipped && sk.stack == s && sk.reason == r)
  }

  lemma {:induction false} OutsideIs(evidence: seq<Evidence>, s: string, metas: Metas, daemon: string)
    ensures ToPlan(evidence, s, metas, daemon) <==>
      s in SortedSet(Stacks(evidence)) && Some(s) != DaemonIn(metas, daemon)
  {
    SortedSetFacts(Stacks(evidence));
    StacksOf(evidence);
  }

  /** A stack that is restored is not skipped. */
  lemma {:induction false} RestoredIsDecided(evidence: seq<Evidence>, s: string, metas: Metas, markers: Markers,
                                             daemon: string, band: string, parts: seq<string>)
    requires RestoredAs(evidence, s, metas, markers, daemon, band, parts)
    ensures DecisionFor(evidence, s, metas, markers, daemon).Restore?
  {
    DecidedAs(evidence, s, metas, markers, daemon);
    NoneFound(evidence, s, metas, daemon);
    AllOnIs(evidence, s, metas, daemon);
  }

  lemma {:induction false} StacksRecorded(evidence: seq<Evidence>, metas: Metas, markers: Markers, daemon: string,
                                          items: seq<Item>)
    requires Faithful(ViewOf(evidence, metas, markers, daemon), DaemonIn(metas, daemon), SortedSet(Stacks(evidence)),
                      items)
    ensures StacksAsRecorded(evidence, metas, markers, daemon, items)
  {
    forall it | it in items && it.kind == StackItem
      ensures ToPlan(evidence, it.target, metas, daemon)
      ensures RestoredAs(evidence, it.target, metas, markers, daemon, it.band, it.components)
    {
      OutsideIs(evidence, it.target, metas, daemon);
      DecidedAs(evidence, it.target, metas, markers, daemon);
    }
    forall s, band, parts |
        ToPlan(evidence, s, metas, daemon) && RestoredAs(evidence, s, metas, markers, daemon, band, parts)
      ensures exists it :: it in items && it.kind == StackItem && it.target == s
    {
      OutsideIs(evidence, s, metas, daemon);
      RestoredIsDecided(evidence, s, metas, markers, daemon, band, parts);
      var i :| 0 <= i < |items| && items[i].kind == StackItem && items[i].target == s;
      assert items[i] in items;
    }
  }

  lemma {:induction false} SkipsRecorded(evidence: seq<Evidence>, metas: Metas, markers: Markers, daemon: string,
                                         skipped: seq<Skipped>)
    requires Explained(ViewOf(evidence, metas, markers, daemon), DaemonIn(metas, daemon), SortedSet(Stacks(evidence)),
                       skipped)
    ensures SkipsAsRecorded(evidence, metas, markers, daemon, skipped)
  {
    forall sk | sk in skipped
      ensures ToPlan(evidence, sk.stack, metas, daemon)
      ensures SkippedFor(sk.reason, evidence, sk.stack, metas, markers, daemon)
    {
      OutsideIs(evidence, sk.stack, metas, daemon);
      DecidedAs(evidence, sk.stack, metas, markers, daemon);
    }
    forall s, r | ToPlan(evidence, s, metas, daemon) && SkippedFor(r, evidence, s, metas, markers, daemon)
      ensures exists sk :: sk in skipped && sk.stack == s && sk.reason == r
    {
      OutsideIs(evidence, s, metas, daemon);
      OneReason(evidence, s, metas, markers, daemon, r);
      var sk :| sk in skipped && sk.stack == s;
    }
  }

  /** The order of two decisions is that of the times and names. */
  lemma {:induction false} OrderRecorded(evidence: seq<Evidence>, metas: Metas, markers: Markers, daemon: string,
                                         x: string, y: string, a: int, b: int)
    requires var d, e := DecisionFor(evidence, x, metas, markers, daemon),
        DecisionFor(evidence, y, metas, markers, daemon);
      d.Restore? && e.Restore? && KeyLe([Num(d.at), Text(x)], [Num(e.at), Text(y)])
    requires StartedAt(evidence, x, metas, markers, daemon, a) && StartedAt(evidence, y, metas, markers, daemon, b)
    ensures a < b || (a == b && TextLe(x, y))
  {
    DecidedAs(evidence, x, metas, markers, daemon);
    DecidedAs(evidence, y, metas, markers, daemon);
    var d, e := DecisionFor(evidence, x, metas, markers, daemon), DecisionFor(evidence, y, metas, markers, daemon);
    OneTime(evidence, x, metas, markers, daemon, a, d.at);
    OneTime(evidence, y, metas, markers, daemon, b, e.at);
    KeysInOrder(d.at, x, e.at, y);
  }

  lemma KeysInOrder(a: int, x: string, b: int, y: string)
    requires KeyLe([Num(a), Text(x)], [Num(b), Text(y)])
    ensures a < b || (a == b && TextLe(x, y))
  {
    var k, l: Key := [Num(a), Text(x)], [Num(b), Text(y)];
    assert k[1..] == [Text(x)] && l[1..] == [Text(y)];
    TextOrder(x, y);
  }

  lemma {:induction false} PlanAsRecorded(evidence: seq<Evidence>, metas: Metas, markers: Markers, daemon: string,
                                          plan: Plan)
    requires GoodPlan(evidence, metas, markers, daemon, plan)
    ensures AsRecorded(evidence, metas, markers, daemon, plan)
  {
    StacksRecorded(evidence, metas, markers, daemon, plan.items);
    SkipsRecorded(evidence, metas, markers, daemon, plan.skipped);
    var view := ViewOf(evidence, metas, markers, daemon);
    forall i, k, a, b |
        0 <= i < k < |plan.items| && plan.items[i].kind == StackItem && plan.items[k].kind == StackItem &&
        StartedAt(evidence, plan.items[i].target, metas, markers, daemon, a) &&
        StartedAt(evidence, plan.items[k].target, metas, markers, daemon, b)
      ensures a < b || (a == b && TextLe(plan.items[i].target, plan.items[k].target))
    {
      assert Follows(view, plan.items[i], plan.items[k]) && Before(view, plan.items[i], plan.items[k]);
      OrderRecorded(evidence, metas, markers, daemon, plan.items[i].target, plan.items[k].target, a, b);
    }
  }

  /**
   `derive_plan`: every launch id in one place, one item per stack in order of start, the daemon's
   last, nothing but what was decided, and all of it.
   */
  method DerivePlan(evidence: seq<Evidence>, metas: Metas, markers: Markers, daemon: string,
                    tokens: Tokens)
    returns (plan: Plan)
    ensures GoodPlan(evidence, metas, markers, daemon, plan) && AsRecorded(evidence, metas, markers, daemon, plan)
    ensures GoodTokens(tokens, |plan.items| + 1) ==> Journalable(plan.items)
  {
    ghost var orderable, daemonIds, daemonBands;
    plan, orderable, daemonIds, daemonBands := Derive(evidence, metas, markers, daemon, tokens);
    ghost var view, who, stacks := ViewOf(evidence, metas, markers, daemon), DaemonIn(metas, daemon),
      SortedSet(Stacks(evidence));
    EveryLaunchIsAccountedFor(evidence, metas, markers, daemon, tokens, plan, orderable, daemonIds, daemonBands);
    DaemonReconciled(evidence, metas, markers, daemon, daemonIds, daemonBands);
    ArrangedInOrder(view, who, stacks, orderable, daemonIds, daemonBands, tokens(|orderable|));
    ArrangedFaithful(view, who, stacks, orderable, daemonIds, daemonBands, tokens(|orderable|));
    ArrangedDaemonLast(evidence, metas, markers, daemon, orderable, daemonIds, daemonBands, tokens(|orderable|));
    ArrangedJournalable(view, who, stacks, orderable, daemonIds, daemonBands, tokens);
    PlanAsRecorded(evidence, metas, markers, daemon, plan);
  }

  // --- two plans of the same evidence ------------------------------------------------------------------------

  /** What a plan restores: target, band and parts of every stack item. */
  ghost function Restores(items: seq<Item>): set<(string, string, seq<string>)>
  {
    set it | it in items && it.kind == StackItem :: (it.target, it.band, it.components)
  }

  /** The bands the daemon is reconciled on, if it is. */
  ghost function DaemonBands(items: seq<Item>): set<seq<string>>
  {
    set it | it in items && it.kind == DaemonReconcile :: it.bands
  }

  ghost function Skips(skipped: seq<Skipped>): set<(string, Reason)> { set sk | sk in skipped :: (sk.stack, sk.reason) }

  lemma {:induction false} RestoresWithin(view: View, other: View, daemon: Option<string>, stacks: seq<string>,
                                          x: seq<Item>, y: seq<Item>)
    requires Faithful(view, daemon, stacks, x) && Faithful(other, daemon, stacks, y)
    requires forall s :: SameDecision(view(s).decision, other(s).decision)
    ensures Restores(x) <= Restores(y)
  {
    forall it | it in x && it.kind == StackItem ensures (it.target, it.band, it.components) in Restores(y) {
      var i :| 0 <= i < |x| && x[i] == it;
      assert SameDecision(view(it.target).decision, other(it.target).decision);
      var k :| 0 <= k < |y| && y[k].kind == StackItem && y[k].target == it.target;
      assert y[k] in y;
    }
  }

  lemma {:induction false} SkipsWithin(view: View, other: View, daemon: Option<string>, stacks: seq<string>,
                                       x: seq<Skipped>, y: seq<Skipped>)
    requires Explained(view, daemon, stacks, x) && Explained(other, daemon, stacks, y)
    requires forall s :: SameDecision(view(s).decision, other(s).decision)
    ensures Skips(x) <= Skips(y)
  {
    forall sk | sk in x ensures (sk.stack, sk.reason) in Skips(y) {
      assert SameDecision(view(sk.stack).decision, other(sk.stack).decision);
      var sl :| sl in y && sl.stack == sk.stack;
    }
  }

  lemma {:induction false} SameResults(view: View, other: View, daemon: Option<string>, stacks: seq<string>,
                                       x: Plan, y: Plan)
    requires Faithful(view, daemon, stacks, x.items) && Faithful(other, daemon, stacks, y.items)
    requires Explained(view, daemon, stacks, x.skipped) && Explained(other, daemon, stacks, y.skipped)
    requires forall s :: SameDecision(view(s).decision, other(s).decision)
    ensures Restores(x.items) == Restores(y.items) && Skips(x.skipped) == Skips(y.skipped)
  {
    forall s ensures SameDecision(other(s).decision, view(s).decision) {
      assert SameDecision(view(s).decision, other(s).decision);
    }
    RestoresWithin(view, other, daemon, stacks, x.items, y.items);
    RestoresWithin(other, view, daemon, stacks, y.items, x.items);
    SkipsWithin(view, other, daemon, stacks, x.skipped, y.skipped);
    SkipsWithin(other, view, daemon, stacks, y.skipped, x.skipped);
  }

  /** What the daemon is to be reconciled on, if anything. */
  function DaemonOn(evidence: seq<Evidence>, metas: Metas, daemon: string): Option<seq<string>>
  {
    var own := OfStack(evidence, daemon);
    if daemon in metas && own != [] then Some(SortedSet(AllowedOf(own))) else None
  }

  lemma {:induction false} DaemonOnIgnoresOrder(a: seq<Evidence>, b: seq<Evidence>, metas: Metas, daemon: string)
    requires SameMembers(a, b)
    ensures DaemonOn(a, metas, daemon) == DaemonOn(b, metas, daemon)
  {
    var x, y := OfStack(a, daemon), OfStack(b, daemon);
    StackEvidenceSame(a, b, daemon);
    SameEmptiness(x, y);
    forall d ensures d in AllowedOf(x) <==> d in AllowedOf(y) {}
    SortedSetIsCanonical(AllowedOf(x), AllowedOf(y));
  }

  lemma {:induction false} OnlyTheLast(view: View, items: seq<Item>, bands: Option<seq<string>>)
    requires InOrder(view, items)
    requires if bands.Some? then
               items != [] && items[|items| - 1].kind == DaemonReconcile && items[|items| - 1].bands == bands.value
             else forall i :: 0 <= i < |items| ==> items[i].kind == StackItem
    ensures DaemonBands(items) == if bands.Some? then {bands.value} else {}
  {
    forall i | 0 <= i < |items| - 1 ensures items[i].kind == StackItem {
      assert Follows(view, items[i], items[|items| - 1]);
    }
    if bands.Some? { assert items[|items| - 1] in items; }
  }

  lemma {:induction false} SameResultsOf(a: seq<Evidence>, b: seq<Evidence>, metas: Metas, markers: Markers,
                                         daemon: string, x: Plan, y: Plan)
    requires SameMembers(a, b) && GoodPlan(a, metas, markers, daemon, x) && GoodPlan(b, metas, markers, daemon, y)
    ensures Restores(x.items) == Restores(y.items) && Skips(x.skipped) == Skips(y.skipped)
  {
    var v, w := ViewOf(a, metas, markers, daemon), ViewOf(b, metas, markers, daemon);
    forall s ensures SameDecision(v(s).decision, w(s).decision) {
      DecisionsIgnoreOrder(a, b, metas, markers, daemon, s);
    }
    StacksIgnoreOrder(a, b);
    SameResults(v, w, DaemonIn(metas, daemon), SortedSet(Stacks(a)), x, y);
  }

  lemma {:induction false} DaemonBandsAre(evidence: seq<Evidence>, metas: Metas, markers: Markers, daemon: string,
                                          plan: Plan)
    requires GoodPlan(evidence, metas, markers, daemon, plan)
    ensures var bands := DaemonOn(evidence, metas, daemon);
      DaemonBands(plan.items) == if bands.Some? then {bands.value} else {}
  {
    OnlyTheLast(ViewOf(evidence, metas, markers, daemon), plan.items, DaemonOn(evidence, metas, daemon));
  }

  /**
   Two plans of the same evidence in any two orders: the same (target, band, parts), the same daemon
   bands, the same skips.
   */
  lemma {:induction false} PlanIgnoresEvidenceOrder(a: seq<Evidence>, b: seq<Evidence>, metas: Metas,
                                                    markers: Markers, daemon: string, x: Plan, y: Plan)
    requires SameMembers(a, b) && GoodPlan(a, metas, markers, daemon, x) && GoodPlan(b, metas, markers, daemon, y)
    ensures Restores(x.items) == Restores(y.items) && Skips(x.skipped) == Skips(y.skipped)
    ensures DaemonBands(x.items) == DaemonBands(y.items)
  {
    SameResultsOf(a, b, metas, markers, daemon, x, y);
    DaemonOnIgnoresOrder(a, b, metas, daemon);
    DaemonBandsAre(a, metas, markers, daemon, x);
    DaemonBandsAre(b, metas, markers, daemon, y);
  }
}
