/**
 What a build's receipt records: the `build_requires` closure in first-seen order, grown while it
 is walked, and always among the sources the build holds locked (lhpc/core/build_plan.py:106-122).
 */
module BuildReceipts {
  import opened Options
  import opened Collections
  import opened Ordering
  import opened BuildPlan
  import opened BuildSources

  function NeedsOf(byId: Ids, d: string): seq<string> { if d in byId then byId[d].needs else [] }

  /** The names in `needs` that `ids` does not list yet, a name repeated in `needs` included. */
  function Fresh(needs: seq<string>, ids: seq<string>): (r: seq<string>)
    ensures forall d :: d in r <==> d in needs && d !in ids
  {
    if needs == [] then []
    else
      assert needs == [needs[0]] + needs[1..];
      (if needs[0] !in ids then [needs[0]] else []) + Fresh(needs[1..], ids)
  }

  function Mentioned(byId: Ids): set<string> { set k, d | k in byId && d in byId[k].needs :: d }

  /** How many mentioned names are not listed yet. */
  function Left(byId: Ids, ids: seq<string>): nat { |Mentioned(byId) - set d | d in ids| }

  /** The list once position `i` has been looked at. */
  function Grown(byId: Ids, ids: seq<string>, i: nat): (r: seq<string>)
    requires i < |ids|
    ensures ids <= r
    ensures r == ids || Left(byId, r) < Left(byId, ids)
  {
    MoreIsProgress(byId, ids, i);
    ids + Fresh(NeedsOf(byId, ids[i]), ids)
  }

  /** The list after the walk has passed position `i`. */
  function Walk(byId: Ids, ids: seq<string>, i: nat): seq<string>
    decreases Left(byId, ids), |ids| - i
  {
    if i >= |ids| then ids else Walk(byId, Grown(byId, ids, i), i + 1)
  }

  lemma MoreIsProgress(byId: Ids, ids: seq<string>, i: nat)
    requires i < |ids|
    ensures var more := Fresh(NeedsOf(byId, ids[i]), ids);
      ids + more == ids || Left(byId, ids + more) < Left(byId, ids)
  {
    var more := Fresh(NeedsOf(byId, ids[i]), ids);
    if more == [] {
      assert ids + more == ids;
    } else {
      var before, after := Mentioned(byId) - (set d | d in ids), Mentioned(byId) - (set d | d in ids + more);
      assert more[0] in more && more[0] in before && more[0] !in after;
      assert after < before;
      ProperSubsetSize(after, before);
    }
  }

  method ConsumedIds(root: string, byId: Ids) returns (ids: seq<string>)
    ensures ids == Walk(byId, [root], 0)
  {
    ids := [root];
    var i := 0;
    while i < |ids|
      invariant i <= |ids| && Walk(byId, ids, i) == Walk(byId, [root], 0)
      decreases Left(byId, ids), |ids| - i
    {
      ids := Grown(byId, ids, i);
      i := i + 1;
    }
  }

  // --- what the list holds ---------------------------------------------------------------------------

  /** `root`, and everything that anything in its closure needs, known to the manifest or not. */
  ghost predicate IsConsumed(byId: Ids, root: string, d: string)
  {
    d == root || exists a :: Reaches(byId, root, a) && d in NeedsOf(byId, a)
  }

  lemma {:induction false} ConsumedReached(byId: Ids, root: string, d: string)
    requires IsConsumed(byId, root, d) && d in byId
    ensures Reaches(byId, root, d)
  {
    if d != root {
      var a :| Reaches(byId, root, a) && d in NeedsOf(byId, a);
      AboveStep(byId, root, a, d);
    }
  }

  lemma {:induction false} WalkIsSound(byId: Ids, root: string, ids: seq<string>, i: nat)
    requires forall d :: d in ids ==> IsConsumed(byId, root, d)
    ensures forall d :: d in Walk(byId, ids, i) ==> IsConsumed(byId, root, d)
    decreases Left(byId, ids), |ids| - i
  {
    if i < |ids| {
      var more := Fresh(NeedsOf(byId, ids[i]), ids);
      forall d | d in more ensures IsConsumed(byId, root, d) {
        assert ids[i] in ids;
        assert d in NeedsOf(byId, ids[i]) && ids[i] in byId;
        ConsumedReached(byId, root, ids[i]);
      }
      WalkIsSound(byId, root, Grown(byId, ids, i), i + 1);
    }
  }

  predicate Listed(needs: seq<string>, ids: seq<string>) { forall d :: d in needs ==> d in ids }

  /** The list holds the needs of everything before position `i`. */
  predicate Covered(byId: Ids, ids: seq<string>, i: nat)
  {
    forall k :: 0 <= k < i && k < |ids| ==> Listed(NeedsOf(byId, ids[k]), ids)
  }

  lemma {:induction false} OneMoreCovered(byId: Ids, ids: seq<string>, i: nat)
    requires i < |ids| && Covered(byId, ids, i)
    ensures Covered(byId, Grown(byId, ids, i), i + 1)
  {
    var next := Grown(byId, ids, i);
    forall k | 0 <= k < i + 1 ensures Listed(NeedsOf(byId, next[k]), next) {
      assert next[k] == ids[k];
      if k < i { assert Listed(NeedsOf(byId, ids[k]), ids); }
    }
  }

  /** Nothing is forgotten. */
  lemma {:induction false} WalkIsComplete(byId: Ids, ids: seq<string>, i: nat)
    requires i <= |ids| && Covered(byId, ids, i)
    ensures ids <= Walk(byId, ids, i) && Covered(byId, Walk(byId, ids, i), |Walk(byId, ids, i)|)
    decreases Left(byId, ids), |ids| - i
  {
    if i < |ids| {
      OneMoreCovered(byId, ids, i);
      WalkIsComplete(byId, Grown(byId, ids, i), i + 1);
    }
  }

  /** The list is the closure, no more and no less. */
  lemma {:induction false} ConsumedIsTheClosure(byId: Ids, root: string, d: string)
    ensures d in Walk(byId, [root], 0) <==> IsConsumed(byId, root, d)
  {
    WalkIsSound(byId, root, [root], 0);
    WalkIsComplete(byId, [root], 0);
    var ids := Walk(byId, [root], 0);
    assert root in [root] && ids[0] == root;
    var s := set x | x in ids;
    assert Closed(byId, s) by {
      forall a, b | a in s && Edge(byId, a, b) ensures b in s {
        var k :| 0 <= k < |ids| && ids[k] == a;
        assert Listed(NeedsOf(byId, ids[k]), ids);
      }
    }
    if IsConsumed(byId, root, d) && d != root {
      var a :| Reaches(byId, root, a) && d in NeedsOf(byId, a);
      ClosedHoldsReached(byId, s, root, a);
      var k :| 0 <= k < |ids| && ids[k] == a;
      assert Listed(NeedsOf(byId, ids[k]), ids);
    }
  }

  // --- each once -----------------------------------------------------------------------------------------

  /** No component names the same provider twice (naming itself does not count). */
  ghost predicate NamesOnce(byId: Ids) { forall a :: a in byId ==> NoRepeats(Fresh(byId[a].needs, [a])) }

  lemma {:induction false} ApartCons(x: string, s: seq<string>)
    ensures NoRepeats([x] + s) <==> x !in s && NoRepeats(s)
  {
    var t := [x] + s;
    if x in s {
      var k :| 0 <= k < |s| && s[k] == x;
      assert t[0] == x && t[k + 1] == x;
    }
    forall i, k | 0 <= i < k < |s| ensures t[i + 1] == s[i] && t[k + 1] == s[k] {}
  }

  lemma {:induction false} FreshStaysApart(needs: seq<string>, a: string, ids: seq<string>)
    requires NoRepeats(Fresh(needs, [a])) && a in ids
    ensures NoRepeats(Fresh(needs, ids))
  {
    if needs != [] {
      var x, rest := needs[0], needs[1..];
      ApartCons(x, Fresh(rest, [a]));
      ApartCons(x, Fresh(rest, ids));
      if x == a {
        assert [] + Fresh(rest, [a]) == Fresh(rest, [a]);
        assert Fresh(needs, [a]) == Fresh(rest, [a]);
      } else {
        assert Fresh(needs, [a]) == [x] + Fresh(rest, [a]);
      }
      assert [] + Fresh(rest, ids) == Fresh(rest, ids);
      FreshStaysApart(rest, a, ids);
    }
  }

  lemma {:induction false} ApartJoin(a: seq<string>, b: seq<string>)
    requires NoRepeats(a) && NoRepeats(b) && forall x :: x in b ==> x !in a
    ensures NoRepeats(a + b)
  {
    var t := a + b;
    forall k, l | 0 <= k < l < |t| ensures t[k] != t[l] {
      if |a| <= l { assert t[l] == b[l - |a|] && t[l] in b; }
    }
  }

  /** What one turn of the walk adds is new, and named once. */
  lemma {:induction false} TurnStaysApart(byId: Ids, ids: seq<string>, i: nat)
    requires NamesOnce(byId) && NoRepeats(ids) && i < |ids|
    ensures NoRepeats(Grown(byId, ids, i))
  {
    if ids[i] in byId { FreshStaysApart(byId[ids[i]].needs, ids[i], ids); }
    ApartJoin(ids, Fresh(NeedsOf(byId, ids[i]), ids));
  }

  lemma {:induction false} WalkStaysApart(byId: Ids, ids: seq<string>, i: nat)
    requires NamesOnce(byId) && NoRepeats(ids)
    ensures NoRepeats(Walk(byId, ids, i))
    decreases Left(byId, ids), |ids| - i
  {
    if i < |ids| {
      TurnStaysApart(byId, ids, i);
      WalkStaysApart(byId, Grown(byId, ids, i), i + 1);
    }
  }

  lemma {:induction false} PrefixApart(s: seq<string>, t: seq<string>)
    requires s <= t && NoRepeats(t)
    ensures NoRepeats(s)
  {
    forall i, k | 0 <= i < k < |s| ensures s[i] != s[k] {
      assert t[i] == s[i] && t[k] == s[k];
    }
  }

  /** A name repeated in `a`'s own list stays repeated in the walk from `a`. */
  lemma {:induction false} RepeatsStay(byId: Ids, a: string)
    requires a in byId && NoRepeats(Walk(byId, [a], 0))
    ensures NoRepeats(Fresh(byId[a].needs, [a]))
  {
    var ids := Grown(byId, [a], 0);
    OneMoreCovered(byId, [a], 0);
    WalkIsComplete(byId, ids, 1);
    PrefixApart(ids, Walk(byId, ids, 1));
    ApartCons(a, Fresh(byId[a].needs, [a]));
  }

  /**
   Each id once, for every component: exactly when no component's own list repeats a name. One
   that does is recorded with that name twice.
   */
  lemma {:induction false} ListedOnceExactly(byId: Ids)
    ensures (forall a :: a in byId ==> NoRepeats(Walk(byId, [a], 0))) <==> NamesOnce(byId)
  {
    forall a | a in byId && NoRepeats(Walk(byId, [a], 0)) ensures NoRepeats(Fresh(byId[a].needs, [a])) {
      RepeatsStay(byId, a);
    }
    forall a | a in byId && NamesOnce(byId) ensures NoRepeats(Walk(byId, [a], 0)) {
      WalkStaysApart(byId, [a], 0);
    }
  }

  // --- the receipt --------------------------------------------------------------------------------------

  /** A known id with its source path, or an id the manifest does not know. */
  datatype Entry = Entry(id: string, comp: Option<Comp>)

  function EntryOf(byId: Ids, d: string): Entry { Entry(d, if d in byId then Some(byId[d]) else None) }

  method EntriesOf(byId: Ids, ids: seq<string>) returns (out: seq<Entry>)
    ensures |out| == |ids| && forall i :: 0 <= i < |ids| ==> out[i] == EntryOf(byId, ids[i])
  {
    out := [];
    for i := 0 to |ids|
      invariant |out| == i && forall k :: 0 <= k < i ==> out[k] == EntryOf(byId, ids[k])
    {
      out := out + [EntryOf(byId, ids[i])];
    }
  }

  /** `consumed_sources`. */
  method ConsumedSources(c: Comp, byId: Ids, binary: bool) returns (out: seq<Entry>)
    requires c.id in byId && byId[c.id] == c
    ensures !c.marker || ((c.source.None? || binary) && c.needs == []) ==> out == []
    ensures c.marker && c.source.Some? && !binary ==>
      |out| == |Walk(byId, [c.id], 0)| && forall i :: 0 <= i < |out| ==>
        out[i] == EntryOf(byId, Walk(byId, [c.id], 0)[i])
    ensures c.marker && (c.source.None? || binary) && c.needs != [] ==>
      |out| + 1 == |Walk(byId, [c.id], 0)| &&
      forall i :: 0 <= i < |out| ==> out[i] == EntryOf(byId, Walk(byId, [c.id], 0)[i + 1])
  {
    var own := c.source.Some? && !binary;
    if !c.marker || !(own || c.needs != []) {
      return [];
    }
    var ids := ConsumedIds(c.id, byId);
    WalkIsComplete(byId, [c.id], 0);
    out := EntriesOf(byId, if own then ids else ids[1..]);
  }

  /** Every known source the walk lists is one `lock_sources` holds. */
  lemma {:induction false} ReceiptSourcesAreLocked(c: Comp, byId: Ids, d: string)
    requires c.id in byId && byId[c.id] == c
    requires d in Walk(byId, [c.id], 0) && d in byId && byId[d].source.Some?
    ensures byId[d].source.value in SourcesOf(byId, ClosureOf(byId, [c]))
  {
    ConsumedIsTheClosure(byId, c.id, d);
    ConsumedReached(byId, c.id, d);
    assert c in [c];
    assert InClosure(byId, [c], d);
  }

  /** A provider named twice: listed twice. */
  lemma {:induction false} NamedTwiceIsListedTwice() returns (byId: Ids, a: string)
    ensures a in byId && !NoRepeats(Walk(byId, [a], 0))
  {
    a := "app";
    var needs := ["lib", "lib"];
    byId := map[a := Comp(a, needs, None, true)];
    var tail := needs[1..];
    assert tail == ["lib"] && tail[1..] == [];
    assert Fresh(tail[1..], [a]) == [] && Fresh(tail, [a]) == ["lib"] + [];
    assert Fresh(needs, [a]) == ["lib"] + Fresh(tail, [a]);
    var twice := Fresh(byId[a].needs, [a]);
    assert twice[0] == twice[1];
    if NoRepeats(Walk(byId, [a], 0)) { RepeatsStay(byId, a); }
  }
}
