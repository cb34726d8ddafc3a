/**
 The incremental parser state of a feed, as a function of the sentences fed
 (lhpc/core/gps.py:620-860). Ages are real numbers; every sentence comes with its time.
 */
module NmeaSnapshot {
  import opened Options
  import opened Collections
  import opened NmeaSentence

  const STALE_S := 20.0
  const MAX_GROUPS := 32
  const MAX_SATS := 64

  datatype Fed = Fed(said: Sentence, at: real)

  datatype Partial = Partial(total: nat, seen: set<nat>, sats: map<nat, Sat>, at: real)
  datatype Group = Group(sats: map<nat, Sat>, at: real)

  datatype NavState = NoData | Stale | NoFix | Fix
  datatype Report = Report(state: NavState, pos: Option<Position>, alt: Option<real>, groups: map<Key, Group>)

  // --- what the history says ------------------------------------------------------------------------------

  /** The latest navigation sentence: what it said, and when. */
  function LastNav(h: seq<Fed>): Option<(Option<Position>, real)>
  {
    if h == [] then None
    else if h[|h| - 1].said.nav.Some? then Some((h[|h| - 1].said.nav.value, h[|h| - 1].at))
    else LastNav(h[..|h| - 1])
  }

  predicate Fresh(at: real, now: real) { now - at <= STALE_S }

  /** The latest altitude since the last navigation sentence without a fix. */
  function LastAlt(h: seq<Fed>): Option<(real, real)>
  {
    if h == [] then None
    else
      var last := h[|h| - 1];
      if last.said.nav == Some(None) then None
      else if last.said.alt.Some? then Some((last.said.alt.value, last.at))
      else LastAlt(h[..|h| - 1])
  }

  // --- satellites in view ------------------------------------------------------------------------------------

  /** Satellites fill up to the cap; what comes after is ignored. */
  function Filled(sats: map<nat, Sat>, more: seq<(nat, Sat)>): (r: map<nat, Sat>)
    ensures |sats| <= MAX_SATS ==> |r| <= MAX_SATS
    decreases |more|
  {
    if more == [] then sats
    else if |sats| >= MAX_SATS then Filled(sats, more[1..])
    else Filled(sats[more[0].0 := more[0].1], more[1..])
  }

  function Upto(n: nat): set<nat> { if n == 0 then {} else Upto(n - 1) + {n} }

  lemma {:induction false} UptoHas(n: nat, i: nat)
    ensures i in Upto(n) <==> 1 <= i <= n
  {
    if n > 0 { UptoHas(n - 1, i); }
  }

  // --- what a partial group and a published one owe to the history -------------------------------------------

  predicate IsPart(h: seq<Fed>, i: nat, key: Key)
    requires i < |h|
  {
    h[i].said.sky.Some? && h[i].said.sky.value.key == key
  }

  /** From its part 1 at `start` on, only further parts of the same set came for `key`. */
  ghost predicate Assembled(h: seq<Fed>, start: nat, end: nat, key: Key, total: nat, seen: set<nat>)
    requires start < end <= |h|
  {
    IsPart(h, start, key) && h[start].said.sky.value.num == 1 &&
    (forall i :: start <= i < end && IsPart(h, i, key) ==>
       h[i].said.sky.value.total == total && h[i].said.sky.value.num in seen &&
       (i > start ==> h[i].said.sky.value.num != 1)) &&
    (forall n :: n in seen ==> exists i :: start <= i < end && IsPart(h, i, key) && h[i].said.sky.value.num == n)
  }

  lemma {:induction false} AssembledGrows(h: seq<Fed>, x: Fed, start: nat, end: nat, key: Key, total: nat,
                                          seen: set<nat>)
    requires start < end <= |h| && Assembled(h, start, end, key, total, seen)
    ensures Assembled(h + [x], start, end, key, total, seen)
    ensures end == |h| && !IsPart(h + [x], |h|, key) ==> Assembled(h + [x], start, end + 1, key, total, seen)
  {
    var g := h + [x];
    forall i | 0 <= i < |h| ensures g[i] == h[i] && IsPart(g, i, key) == IsPart(h, i, key) {}
    forall n | n in seen ensures exists i :: start <= i < end && IsPart(g, i, key) && g[i].said.sky.value.num == n {
      var i :| start <= i < end && IsPart(h, i, key) && h[i].said.sky.value.num == n;
      assert IsPart(g, i, key);
    }
  }

  /** A further part of the same set. */
  lemma {:induction false} AssembledMore(h: seq<Fed>, x: Fed, start: nat, key: Key, total: nat, seen: set<nat>,
                                         num: nat)
    requires start < |h| && Assembled(h, start, |h|, key, total, seen)
    requires x.said.sky.Some? && x.said.sky.value.key == key
    requires x.said.sky.value.total == total && x.said.sky.value.num == num && num != 1
    ensures Assembled(h + [x], start, |h| + 1, key, total, seen + {num})
  {
    var g := h + [x];
    AssembledGrows(h, x, start, |h|, key, total, seen);
    forall i | start <= i < |h| + 1 && IsPart(g, i, key)
      ensures g[i].said.sky.value.total == total && g[i].said.sky.value.num in seen + {num} &&
        (i > start ==> g[i].said.sky.value.num != 1)
    {
      if i < |h| { assert IsPart(h, i, key); }
    }
    forall n | n in seen + {num}
      ensures exists i :: start <= i < |h| + 1 && IsPart(g, i, key) && g[i].said.sky.value.num == n
    {
      if n in seen {
        var i :| start <= i < |h| && IsPart(g, i, key) && g[i].said.sky.value.num == n;
      } else {
        assert IsPart(g, |h|, key);
      }
    }
  }

  /** A part 1 starts over. */
  lemma {:induction false} AssembledFirst(h: seq<Fed>, x: Fed, key: Key)
    requires x.said.sky.Some? && x.said.sky.value.key == key && x.said.sky.value.num == 1
    ensures Assembled(h + [x], |h|, |h| + 1, key, x.said.sky.value.total, {1})
  {
    assert IsPart(h + [x], |h|, key);
  }

  /** The satellites of the parts for `key` from `start` on, filled in the order they came. */
  function SatsOver(h: seq<Fed>, start: nat, end: nat, key: Key): map<nat, Sat>
    requires end <= |h|
    decreases end
  {
    if end <= start then map[]
    else if IsPart(h, end - 1, key) then Filled(SatsOver(h, start, end - 1, key), h[end - 1].said.sky.value.sats)
    else SatsOver(h, start, end - 1, key)
  }

  lemma {:induction false} SatsOverGrows(h: seq<Fed>, x: Fed, start: nat, end: nat, key: Key)
    requires end <= |h|
    ensures SatsOver(h + [x], start, end, key) == SatsOver(h, start, end, key)
    decreases end
  {
    if end > start {
      assert (h + [x])[end - 1] == h[end - 1];
      SatsOverGrows(h, x, start, end - 1, key);
    }
  }

  /** One set of parts being assembled, with where it started. */
  ghost predicate PartialOk(h: seq<Fed>, start: nat, key: Key, p: Partial)
  {
    start < |h| && Assembled(h, start, |h|, key, p.total, p.seen) && 1 in p.seen && p.seen != Upto(p.total) &&
    p.sats == SatsOver(h, start, |h|, key) && |p.sats| <= MAX_SATS
  }

  /** A published set: all its parts, and their satellites, arrived between its part 1 and its time stamp. */
  ghost predicate GroupOk(h: seq<Fed>, start: nat, end: nat, key: Key, g: Group)
  {
    start < end <= |h| && (exists total :: total > 0 && Assembled(h, start, end, key, total, Upto(total))) &&
    g.at == h[end - 1].at && g.sats == SatsOver(h, start, end, key) && |g.sats| <= MAX_SATS
  }

  lemma {:induction false} GroupStays(h: seq<Fed>, x: Fed, start: nat, end: nat, key: Key, g: Group)
    requires GroupOk(h, start, end, key, g)
    ensures GroupOk(h + [x], start, end, key, g)
  {
    var total :| total > 0 && Assembled(h, start, end, key, total, Upto(total));
    AssembledGrows(h, x, start, end, key, total, Upto(total));
    SatsOverGrows(h, x, start, end, key);
  }

  lemma {:induction false} PartialStays(h: seq<Fed>, x: Fed, start: nat, key: Key, p: Partial)
    requires PartialOk(h, start, key, p) && !IsPart(h + [x], |h|, key)
    ensures PartialOk(h + [x], start, key, p)
  {
    AssembledGrows(h, x, start, |h|, key, p.total, p.seen);
    SatsOverGrows(h, x, start, |h|, key);
  }

  /** The part a GSV sentence joins or starts: None where it is dropped. */
  function Joined(partial: map<Key, Partial>, p: SkyPart, now: real): Option<Partial>
  {
    if p.num == 1 then
      if |partial| >= MAX_GROUPS && p.key !in partial then None else Some(Partial(p.total, {}, map[], now))
    else if p.key in partial && partial[p.key].total == p.total then Some(partial[p.key])
    else None
  }

  /** What is kept of a group that a fragment does not fit. */
  predicate Forgets(partial: map<Key, Partial>, p: SkyPart) { p.num != 1 &&
                                                             !(p.key in partial && partial[p.key].total == p.total) }

  function FreshGroups(groups: map<Key, Group>, now: real): map<Key, Group>
  {
    map key | key in groups && Fresh(groups[key].at, now) :: groups[key]
  }

  predicate HasSats(sky: map<Key, Group>) { exists key :: key in sky && sky[key].sats != map[] }

  ghost predicate PartialsOk(ok: (nat, Key, Partial) -> bool, partial: map<Key, Partial>, starts: map<Key, nat>,
                             but: set<Key>)
  {
    starts.Keys == partial.Keys && forall key :: key in partial && key !in but ==> ok(starts[key], key, partial[key])
  }

  ghost predicate GroupsOk(ok: (nat, nat, Key, Group) -> bool, groups: map<Key, Group>, spans: map<Key, (nat, nat)>)
  {
    spans.Keys == groups.Keys && forall key :: key in groups ==> ok(spans[key].0, spans[key].1, key, groups[key])
  }

  ghost function PartialBy(h: seq<Fed>): (nat, Key, Partial) -> bool
  {
    (start: nat, key: Key, p: Partial) => PartialOk(h, start, key, p)
  }

  ghost function GroupBy(h: seq<Fed>): (nat, nat, Key, Group) -> bool
  {
    (start: nat, end: nat, key: Key, g: Group) => GroupOk(h, start, end, key, g)
  }

  /** What the other groups keep when a sentence arrives that is not theirs. */
  lemma {:induction false} OthersStay(h: seq<Fed>, x: Fed, partial: map<Key, Partial>, starts: map<Key, nat>,
                                      groups: map<Key, Group>, spans: map<Key, (nat, nat)>, own: set<Key>)
    requires PartialsOk(PartialBy(h), partial, starts, {}) && GroupsOk(GroupBy(h), groups, spans)
    requires forall key :: key !in own ==> !IsPart(h + [x], |h|, key)
    ensures PartialsOk(PartialBy(h + [x]), partial, starts, own) && GroupsOk(GroupBy(h + [x]), groups, spans)
  {
    forall key | key in partial && key !in own ensures PartialBy(h + [x])(starts[key], key, partial[key]) {
      assert PartialBy(h)(starts[key], key, partial[key]);
      PartialStays(h, x, starts[key], key, partial[key]);
    }
    forall key | key in groups ensures GroupBy(h + [x])(spans[key].0, spans[key].1, key, groups[key]) {
      assert GroupBy(h)(spans[key].0, spans[key].1, key, groups[key]);
      GroupStays(h, x, spans[key].0, spans[key].1, key, groups[key]);
    }
  }

  lemma {:induction false} OneMoreKey(m: map<Key, Partial>, key: Key, p: Partial)
    ensures |m[key := p]| <= |m| + 1 && (key in m ==> |m[key := p]| == |m|)
  {
    var next := m[key := p];
    assert next.Keys == m.Keys + {key};
    assert |next| == |next.Keys| && |m| == |m.Keys|;
    if key in m { assert next.Keys == m.Keys; }
  }

  lemma {:induction false} PartialGone(ok: (nat, Key, Partial) -> bool, partial: map<Key, Partial>,
                                       starts: map<Key, nat>, key: Key)
    requires PartialsOk(ok, partial, starts, {key})
    ensures PartialsOk(ok, partial - {key}, starts - {key}, {}) && |partial - {key}| <= |partial|
  {
    FewerKeys(partial - {key}, partial);
  }

  predicate AreSmall(partial: map<Key, Partial>) { forall key :: key in partial ==> |partial[key].sats| <= MAX_SATS }

  function Unexpired(partial: map<Key, Partial>, now: real): map<Key, Partial>
  {
    map key | key in partial && Fresh(partial[key].at, now) :: partial[key]
  }

  ghost function UnexpiredStarts(partial: map<Key, Partial>, starts: map<Key, nat>, now: real): map<Key, nat>
  {
    map key | key in partial && Fresh(partial[key].at, now) && key in starts :: starts[key]
  }

  lemma {:induction false} UnexpiredOk(ok: (nat, Key, Partial) -> bool, partial: map<Key, Partial>,
                                       starts: map<Key, nat>, now: real)
    requires PartialsOk(ok, partial, starts, {})
    ensures PartialsOk(ok, Unexpired(partial, now), UnexpiredStarts(partial, starts, now), {})
    ensures |Unexpired(partial, now)| <= |partial|
  {
    PartialsCut(ok, partial, starts, Unexpired(partial, now), UnexpiredStarts(partial, starts, now));
  }

  /** The part a sentence gives, its number and satellites taken in. */
  function Continued(partial: map<Key, Partial>, p: SkyPart, now: real): (r: Option<Partial>)
    ensures r.Some? <==> Joined(partial, p, now).Some?
  {
    match Joined(partial, p, now)
    case None => None
    case Some(j) => Some(Partial(p.total, j.seen + {p.num}, Filled(j.sats, p.sats), now))
  }

  lemma {:induction false} ContinuedAssembles(h: seq<Fed>, x: Fed, partial: map<Key, Partial>, starts: map<Key, nat>,
                                              p: SkyPart, now: real)
    requires PartialsOk(PartialBy(h), partial, starts, {}) && x.said.sky == Some(p)
    requires AreSmall(partial)
    requires Continued(partial, p, now).Some?
    ensures var c := Continued(partial, p, now).value;
      var start := if p.num == 1 then |h| else starts[p.key];
      start < |h| + 1 && Assembled(h + [x], start, |h| + 1, p.key, c.total, c.seen) && 1 in c.seen && c.total == p.total
  {
    if p.num == 1 {
      AssembledFirst(h, x, p.key);
      assert {} + {1} == {1};
    } else {
      assert PartialBy(h)(starts[p.key], p.key, partial[p.key]);
      AssembledMore(h, x, starts[p.key], p.key, p.total, partial[p.key].seen, p.num);
    }
  }

  lemma {:induction false} SatsOverMore(h: seq<Fed>, x: Fed, start: nat, p: SkyPart)
    requires start <= |h| && x.said.sky == Some(p)
    ensures SatsOver(h + [x], start, |h| + 1, p.key) == Filled(SatsOver(h, start, |h|, p.key), p.sats)
  {
    assert (h + [x])[|h|] == x;
    SatsOverGrows(h, x, start, |h|, p.key);
  }

  lemma {:induction false} ContinuedSats(h: seq<Fed>, x: Fed, partial: map<Key, Partial>, starts: map<Key, nat>,
                                         p: SkyPart, now: real)
    requires PartialsOk(PartialBy(h), partial, starts, {}) && x.said.sky == Some(p) && Continued(partial, p, now).Some?
    ensures Continued(partial, p, now).value.sats == SatsOver(h + [x], StartOf(starts, p, |h|), |h| + 1, p.key)
  {
    if p.num != 1 { assert PartialBy(h)(starts[p.key], p.key, partial[p.key]); }
    SatsOverMore(h, x, StartOf(starts, p, |h|), p);
  }

  lemma {:induction false} ContinuedIsSmall(partial: map<Key, Partial>, p: SkyPart, now: real)
    requires Continued(partial, p, now).Some? && AreSmall(partial)
    ensures |Continued(partial, p, now).value.sats| <= MAX_SATS
  {}

  lemma {:induction false} Placed(g: seq<Fed>, start: nat, key: Key, c: Partial, now: real)
    requires start < |g| && Assembled(g, start, |g|, key, c.total, c.seen) && 1 in c.seen && c.total > 0
    requires c.sats == SatsOver(g, start, |g|, key) && |c.sats| <= MAX_SATS && g[|g| - 1].at == now
    ensures if c.seen == Upto(c.total) then GroupOk(g, start, |g|, key, Group(c.sats, now)) else PartialOk(g, start,
        key, c)
  {}

  /** ... so it can be published when it is complete, and kept otherwise. */
  lemma {:induction false} ContinuedIsPlaced(h: seq<Fed>, x: Fed, partial: map<Key, Partial>, starts: map<Key, nat>,
                                             p: SkyPart, now: real)
    requires PartialsOk(PartialBy(h), partial, starts, {}) && x.said.sky == Some(p) && x.at == now && p.total > 0
    requires Continued(partial, p, now).Some? && AreSmall(partial)
    ensures var c := Continued(partial, p, now).value;
      if c.seen == Upto(c.total) then GroupOk(h + [x], StartOf(starts, p, |h|), |h| + 1, p.key, Group(c.sats, now))
      else PartialOk(h + [x], StartOf(starts, p, |h|), p.key, c)
  {
    ContinuedAssembles(h, x, partial, starts, p, now);
    ContinuedSats(h, x, partial, starts, p, now);
    ContinuedIsSmall(partial, p, now);
    Placed(h + [x], StartOf(starts, p, |h|), p.key, Continued(partial, p, now).value, now);
  }

  ghost function StartOf(starts: map<Key, nat>, p: SkyPart, n: nat): nat
  {
    if p.num == 1 then n else if p.key in starts then starts[p.key] else 0
  }

  // --- one sentence's effect on the sky --------------------------------------------------------------------------

  /** What becomes of the assemblies: dropped, completed or carried on. */
  datatype Turn = Pass | Drops(key: Key) | Completed(key: Key, group: Group) | CarriedOn(key: Key, part: Partial)

  function TurnOf(partial: map<Key, Partial>, sky: Option<SkyPart>, now: real): Turn
  {
    match sky
    case None => Pass
    case Some(p) =>
      match Continued(partial, p, now)
      case None => if Forgets(partial, p) then Drops(p.key) else Pass
      case Some(c) => if c.seen == Upto(c.total) then Completed(p.key, Group(c.sats, now)) else CarriedOn(p.key, c)
  }

  function NextPartial(partial: map<Key, Partial>, t: Turn): map<Key, Partial>
  {
    match t
    case Pass => partial
    case Drops(key) => partial - {key}
    case Completed(key, _) => partial - {key}
    case CarriedOn(key, c) => partial[key := c]
  }

  function NextGroups(groups: map<Key, Group>, t: Turn): map<Key, Group>
  {
    if t.Completed? then groups[t.key := t.group] else groups
  }

  ghost function NextStarts(starts: map<Key, nat>, t: Turn, start: nat): map<Key, nat>
  {
    match t
    case Pass => starts
    case Drops(key) => starts - {key}
    case Completed(key, _) => starts - {key}
    case CarriedOn(key, _) => starts[key := start]
  }

  ghost function NextSpans(spans: map<Key, (nat, nat)>, t: Turn, start: nat, end: nat): map<Key, (nat, nat)>
  {
    if t.Completed? then spans[t.key := (start, end)] else spans
  }

  ghost predicate SkyState(ok: (nat, Key, Partial) -> bool, okGroup: (nat, nat, Key, Group) -> bool,
                           partial: map<Key, Partial>, starts: map<Key, nat>, groups: map<Key, Group>,
                           spans: map<Key, (nat, nat)>)
  {
    |partial| <= MAX_GROUPS && PartialsOk(ok, partial, starts, {}) && GroupsOk(okGroup, groups, spans)
  }

  lemma {:induction false} ExpireOk(ok: (nat, Key, Partial) -> bool, okGroup: (nat, nat, Key, Group) -> bool,
                                    partial: map<Key, Partial>, starts: map<Key, nat>, groups: map<Key, Group>,
                                    spans: map<Key, (nat, nat)>, now: real)
    requires SkyState(ok, okGroup, partial, starts, groups, spans)
    ensures SkyState(ok, okGroup, Unexpired(partial, now), UnexpiredStarts(partial, starts, now), groups, spans)
  {
    UnexpiredOk(ok, partial, starts, now);
  }

  /** One step on the sky, whatever a partial or a published group must satisfy. */
  lemma {:induction false} StepOk(ok: (nat, Key, Partial) -> bool, okGroup: (nat, nat, Key, Group) -> bool,
                                  partial: map<Key, Partial>, starts: map<Key, nat>, groups: map<Key, Group>,
                                  spans: map<Key, (nat, nat)>, t: Turn, own: set<Key>, start: nat, end: nat)
    requires |partial| <= MAX_GROUPS && PartialsOk(ok, partial, starts, own) && GroupsOk(okGroup, groups, spans)
    requires if t.Pass? then own !! partial.Keys else own == {t.key}
    requires t.Completed? ==> okGroup(start, end, t.key, t.group)
    requires t.CarriedOn? ==> ok(start, t.key, t.part) && (|partial| < MAX_GROUPS || t.key in partial)
    ensures SkyState(ok, okGroup, NextPartial(partial, t), NextStarts(starts, t, start), NextGroups(groups, t),
                     NextSpans(spans, t, start, end))
  {
    match t {
      case Pass =>
      case Drops(key) => PartialGone(ok, partial, starts, key);
      case Completed(key, _) => PartialGone(ok, partial, starts, key);
      case CarriedOn(key, c) => OneMoreKey(partial, key, c);
    }
  }

  /** A sentence keeps every group honest. */
  lemma {:induction false} NextSkyOk(h: seq<Fed>, x: Fed, partial: map<Key, Partial>, starts: map<Key, nat>,
                                     groups: map<Key, Group>, spans: map<Key, (nat, nat)>, t: Turn, start: nat)
    requires SkyState(PartialBy(h), GroupBy(h), partial, starts, groups, spans) && Plausible(x.said)
    requires t == TurnOf(partial, x.said.sky, x.at)
    requires x.said.sky.Some? ==> start == StartOf(starts, x.said.sky.value, |h|)
    ensures SkyState(PartialBy(h + [x]), GroupBy(h + [x]), NextPartial(partial, t), NextStarts(starts, t, start),
                     NextGroups(groups, t), NextSpans(spans, t, start, |h| + 1))
  {
    PartialsAreSmall(h, partial, starts);
    var own := if x.said.sky.Some? then {x.said.sky.value.key} else {};
    OthersStay(h, x, partial, starts, groups, spans, own);
    if x.said.sky.Some? && Continued(partial, x.said.sky.value, x.at).Some? {
      ContinuedIsPlaced(h, x, partial, starts, x.said.sky.value, x.at);
    }
    StepOk(PartialBy(h + [x]), GroupBy(h + [x]), partial, starts, groups, spans, t, own, start, |h| + 1);
  }

  lemma {:induction false} PartialsAreSmall(h: seq<Fed>, partial: map<Key, Partial>, starts: map<Key, nat>)
    requires PartialsOk(PartialBy(h), partial, starts, {})
    ensures AreSmall(partial)
  {
    forall key | key in partial ensures |partial[key].sats| <= MAX_SATS {
      assert key !in {} && PartialBy(h)(starts[key], key, partial[key]);
    }
  }

  /** Forgetting some of the partial groups. */
  lemma {:induction false} PartialsCut(ok: (nat, Key, Partial) -> bool, partial: map<Key, Partial>,
                                       starts: map<Key, nat>, left: map<Key, Partial>, leftStarts: map<Key, nat>)
    requires PartialsOk(ok, partial, starts, {}) && left.Keys <= partial.Keys && leftStarts.Keys == left.Keys
    requires forall key :: key in left ==> left[key] == partial[key] && leftStarts[key] == starts[key]
    ensures PartialsOk(ok, left, leftStarts, {}) && |left| <= |partial|
  {
    FewerKeys(left, partial);
  }

  class Snapshot {
    const float: FloatField
    var lastNavAt: Option<real>
    var hasFix: bool
    var pos: Option<Position>
    var alt: Option<(real, real)>
    var partial: map<Key, Partial>
    var groups: map<Key, Group>
    ghost var history: seq<Fed>
    ghost var starts: map<Key, nat>
    ghost var spans: map<Key, (nat, nat)>

    constructor (number: FloatField)
      ensures Valid() && history == [] && float == number
    {
      float := number;
      lastNavAt, hasFix, pos, alt := None, false, None, None;
      partial, groups := map[], map[];
      history, starts, spans := [], map[], map[];
    }

    /** The navigation fields are what the latest navigation sentences of `h` say. */
    ghost predicate NavOk(h: seq<Fed>)
      reads this
    {
      (forall i :: 0 <= i < |h| ==> Plausible(h[i].said)) &&
      alt == LastAlt(h) &&
      match LastNav(h)
      case None => lastNavAt == None && !hasFix && pos == None
      case Some((fix, at)) => lastNavAt == Some(at) && hasFix == fix.Some? && pos == fix
    }

    ghost predicate SkyOk(h: seq<Fed>)
      reads this
    {
      SkyState(PartialBy(h), GroupBy(h), partial, starts, groups, spans)
    }

    ghost predicate Valid()
      reads this
    {
      NavOk(history) && SkyOk(history)
    }

    /** One line, without its line end. Never fails; anything unusable is passed over. */
    method Feed(line: Bytes, now: real)
      requires Valid()
      modifies this
      ensures Valid() && history == old(history) + [Fed(Parse(line, float), now)]
      ensures partial == NextPartial(old(partial), TurnOf(old(partial), Parse(line, float).sky, now))
      ensures groups == NextGroups(old(groups), TurnOf(old(partial), Parse(line, float).sky, now))
      ensures !ChecksumOk(line) ==>
        partial == old(partial) && groups == old(groups) && lastNavAt == old(lastNavAt) && hasFix == old(hasFix) &&
        pos == old(pos) && alt == old(alt)
    {
      var said := Parse(line, float);
      TakeNav(said, now, history);
      TakeSky(said, now, history);
      history := history + [Fed(said, now)];
    }

    /** A navigation sentence sets the fix; one without a usable position clears it, and the altitude. */
    method TakeNav(said: Sentence, now: real, ghost h: seq<Fed>)
      requires NavOk(h) && Plausible(said)
      modifies `lastNavAt, `hasFix, `pos, `alt
      ensures NavOk(h + [Fed(said, now)])
      ensures said.nav.None? ==>
        lastNavAt == old(lastNavAt) && hasFix == old(hasFix) && pos == old(pos) && alt == old(alt)
    {
      assert (h + [Fed(said, now)])[..|h|] == h;
      var nav := said.nav;
      if nav.None? { return; }
      lastNavAt := Some(now);
      if nav.value.Some? {
        hasFix, pos := true, nav.value;
      } else {
        hasFix, pos, alt := false, None, None;
      }
      if said.alt.Some? {
        alt := Some((said.alt.value, now));
      }
    }

    /** A GSV sentence: joins the set it continues, starts one, or is dropped. */
    method TakeSky(said: Sentence, now: real, ghost h: seq<Fed>)
      requires SkyOk(h) && Plausible(said)
      modifies `partial, `groups, `starts, `spans
      ensures SkyOk(h + [Fed(said, now)])
      ensures partial == NextPartial(old(partial), TurnOf(old(partial), said.sky, now))
      ensures groups == NextGroups(old(groups), TurnOf(old(partial), said.sky, now))
    {
      var t := TurnOf(partial, said.sky, now);
      ghost var start := if said.sky.Some? then StartOf(starts, said.sky.value, |h|) else 0;
      NextSkyOk(h, Fed(said, now), partial, starts, groups, spans, t, start);
      Settle(t, start, |h| + 1);
    }

    method Settle(t: Turn, ghost start: nat, ghost end: nat)
      modifies `partial, `groups, `starts, `spans
      ensures partial == NextPartial(old(partial), t) && groups == NextGroups(old(groups), t)
      ensures starts == NextStarts(old(starts), t, start) && spans == NextSpans(old(spans), t, start, end)
    {
      match t {
        case Pass =>
        case Drops(key) => partial, starts := partial - {key}, starts - {key};
        case Completed(key, group) =>
          groups, spans := groups[key := group], spans[key := (start, end)];
          partial, starts := partial - {key}, starts - {key};
        case CarriedOn(key, c) => partial, starts := partial[key := c], starts[key := start];
      }
    }

    /** Incomplete assemblies expire. */
    method Expire(now: real)
      requires SkyOk(history)
      modifies `partial, `starts
      ensures SkyOk(history)
      ensures partial == Unexpired(old(partial), now)
    {
      ghost var ok, okGroup := PartialBy(history), GroupBy(history);
      ghost var left := UnexpiredStarts(partial, starts, now);
      ExpireOk(ok, okGroup, partial, starts, groups, spans, now);
      partial, starts := Unexpired(partial, now), left;
      assert SkyState(ok, okGroup, partial, starts, groups, spans);
    }

    /** The navigation half of a report. */
    method ReadNav(now: real) returns (state: NavState, shown: Option<Position>, height: Option<real>)
      requires NavOk(history)
      ensures shown.Some? <==>
        LastNav(history).Some? && LastNav(history).value.0.Some? && Fresh(LastNav(history).value.1, now)
      ensures shown.Some? ==> shown == LastNav(history).value.0 && InRange(shown.value)
      ensures height.Some? <==>
        shown.Some? && LastAlt(history).Some? && Fresh(LastAlt(history).value.1, now)
      ensures height.Some? ==> height.value == LastAlt(history).value.0
      ensures state == Fix <==> shown.Some?
      ensures state == Stale <==> LastNav(history).Some? && !Fresh(LastNav(history).value.1, now)
      ensures state == NoData <==> LastNav(history).None?
    {
      LastNavInRange(history);
      if lastNavAt.None? { return NoData, None, None; }
      if !Fresh(lastNavAt.value, now) { return Stale, None, None; }
      if !hasFix { return NoFix, None, None; }
      return Fix, pos, if alt.Some? && Fresh(alt.value.1, now) then Some(alt.value.0) else None;
    }

    /** `_snapshot`: what is fresh; expired assemblies are forgotten. */
    method Read(now: real) returns (r: Report)
      requires Valid()
      modifies `partial, `starts
      ensures Valid()
      ensures r.pos.Some? <==>
        LastNav(history).Some? && LastNav(history).value.0.Some? && Fresh(LastNav(history).value.1, now)
      ensures r.pos.Some? ==> r.pos == LastNav(history).value.0 && InRange(r.pos.value)
      ensures r.alt.Some? <==> r.pos.Some? && LastAlt(history).Some? && Fresh(LastAlt(history).value.1, now)
      ensures r.alt.Some? ==> r.alt.value == LastAlt(history).value.0
      ensures r.groups == FreshGroups(groups, now)
      ensures r.state == Fix <==> r.pos.Some?
      ensures r.state == Stale <==> LastNav(history).Some? && !Fresh(LastNav(history).value.1, now)
      ensures r.state == NoData <==> LastNav(history).None? && !HasSats(r.groups)
      ensures partial == Unexpired(old(partial), now)
    {
      Expire(now);
      var sky := FreshGroups(groups, now);
      var state, shown, height := ReadNav(now);
      // satellites without any navigation sentence: a cold receiver, not silence
      if state == NoData && HasSats(sky) {
        state := NoFix;
      }
      r := Report(state, shown, height, sky);
    }
  }

  lemma {:induction false} LastNavInRange(h: seq<Fed>)
    requires forall i :: 0 <= i < |h| ==> Plausible(h[i].said)
    ensures LastNav(h).Some? && LastNav(h).value.0.Some? ==> InRange(LastNav(h).value.0.value)
  {
    if h != [] {
      LastNavInRange(h[..|h| - 1]);
    }
  }

  /** An altitude is never older than the fix it belongs to: losing the fix loses it. */
  lemma {:induction false} AltitudeNeedsAFix(h: seq<Fed>)
    requires forall i :: 0 <= i < |h| ==> Plausible(h[i].said)
    ensures LastAlt(h).Some? ==> LastNav(h).Some? && LastNav(h).value.0.Some?
  {
    if h != [] {
      AltitudeNeedsAFix(h[..|h| - 1]);
    }
  }

  lemma {:induction false} FewerKeys(a: map<Key, Partial>, b: map<Key, Partial>)
    requires a.Keys <= b.Keys
    ensures |a| <= |b|
  {
    assert |a| == |a.Keys| && |b| == |b.Keys|;
    SubsetSize(a.Keys, b.Keys);
  }
}
