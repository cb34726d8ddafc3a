/**
 The detached build launcher: locks, marker invalidation, steps, sidecars, marker
 (lhpc/core/build_launcher_runtime.py:272-425). Other parties may change a source whenever this
 job does not hold its lock; `trace` holds every state a crash may leave.
 */
module Launcher {
  import opened Options
  import opened Ordering

  datatype Mode = Exclusive | Shared

  /** `marks`: the job has a marker path. `consumed`/`revConsumed`: sources the receipt and its sidecar record. */
  datatype Job = Job(exclusive: seq<string>, shared: seq<string>, index: Option<string>, round: Option<string>,
                     steps: nat, marks: bool, text: string, consumed: seq<string>,
                     inputs: Option<string>, revConsumed: Option<seq<string>>)

  /** A revision read with git, None when it cannot be read ("unknown"). */
  type Rev = Option<string>

  /** `writer` is history, not file content: the job that wrote it. */
  datatype Marker = Marker(text: string, revs: seq<Rev>, writer: Job)

  /** One step that was started: did it pass, and what it found in the sources. */
  datatype StepRun = StepRun(passed: bool, saw: map<string, string>)

  /**
   `started` and `ran`: the last job with a marker path that got as far as its steps, and the steps
   it started.
   */
  datatype World = World(marker: Option<Marker>, inputs: Option<string>, revs: Option<seq<Rev>>,
                         sources: map<string, string>, started: Option<Job>, ran: seq<StepRun>)

  // --- marker soundness ------------------------------------------------------------------------------

  ghost predicate AllPassed(ran: seq<StepRun>, steps: nat)
  {
    |ran| == steps && forall i :: 0 <= i < |ran| ==> ran[i].passed
  }

  /** A recorded revision is the one every step found. */
  ghost predicate Consumed(names: seq<string>, revs: seq<Rev>, ran: seq<StepRun>)
  {
    |revs| == |names| &&
    forall i, k :: 0 <= i < |names| && 0 <= k < |ran| && revs[i].Some? ==>
      names[i] in ran[k].saw && ran[k].saw[names[i]] == revs[i].value
  }

  ghost predicate Sidecars(w: World, job: Job)
  {
    (job.inputs.Some? ==> w.inputs == job.inputs) &&
    (job.revConsumed.Some? && job.revConsumed.value != [] ==>
       w.revs.Some? && Consumed(job.revConsumed.value, w.revs.value, w.ran))
  }

  ghost predicate Sound(w: World)
  {
    w.marker.Some? ==>
      var m := w.marker.value;
      w.started == Some(m.writer) && m.text == m.writer.text && AllPassed(w.ran, m.writer.steps) &&
      Consumed(m.writer.consumed, m.revs, w.ran) && Sidecars(w, m.writer)
  }

  ghost predicate AllSound(trace: seq<World>) { forall i :: 0 <= i < |trace| ==> Sound(trace[i]) }

  /** What the others leave alone: the sources this job holds. */
  ghost predicate Kept(before: map<string, string>, after: map<string, string>, held: set<string>)
  {
    forall s :: s in held ==> (s in before <==> s in after) && (s in before ==> before[s] == after[s])
  }

  // --- the lock schedule --------------------------------------------------------------------------------

  datatype LockEvent =
    | Wait(name: string)               // the round lock: waits without bound
    | Take(name: string, mode: Mode)   // bounded
    | CheckJournals
    | Drop(name: string)

  /** `sorted(set(lock_names) | shared_names)`. */
  function Names(job: Job): seq<string> { SortedSet(job.exclusive + job.shared) }

  function ModeOf(job: Job, name: string): Mode { if name in job.exclusive then Exclusive else Shared }

  function Takes(job: Job, names: seq<string>): seq<LockEvent>
  {
    if names == [] then [] else Takes(job, names[..|names| - 1]) + [Take(names[|names| - 1],
        ModeOf(job, names[|names| - 1]))]
  }

  function Opening(job: Job): seq<LockEvent>
  {
    (if job.round.Some? then [Wait(job.round.value)] else []) +
    (if job.index.Some? then [Take(job.index.value, Exclusive), CheckJournals] else [])
  }

  function Closing(job: Job): seq<LockEvent> { if job.index.Some? then [Drop(job.index.value)] else [] }

  /** Everything an admitted job did with locks, in order. */
  function Schedule(job: Job): seq<LockEvent>
  {
    Opening(job) + Takes(job, Names(job)) + Closing(job)
  }

  datatype Outcome = Failed | Done | Unsafe

  class Launch {
    /** No lock is taken by others, no journal is left, nothing fails. */
    const calm: bool
    var world: World
    var trace: seq<World>
    var held: set<string>
    var locks: seq<LockEvent>

    constructor (w: World, undisturbed: bool)
      ensures world == w && trace == [] && held == {} && locks == [] && calm == undisturbed
    {
      calm := undisturbed;
      world, trace, held, locks := w, [], {}, [];
    }

    method Put(w: World)
      requires AllSound(trace) && Sound(w)
      modifies `world, `trace
      ensures world == w && trace == old(trace) + [w] && AllSound(trace)
    {
      world := w;
      trace := trace + [w];
    }

    /** Others change what is not locked here. */
    method OthersAct()
      requires AllSound(trace) && Sound(world)
      modifies `world, `trace
      ensures world == old(world).(sources := world.sources) && Kept(old(world).sources, world.sources, held)
      ensures AllSound(trace) && Sound(world)
    {
      var s: map<string, string> := *;
      Put(world.(sources := map x | x in s.Keys + world.sources.Keys &&
        (if x in held then x in world.sources else x in s) :: if x in held then world.sources[x] else s[x]));
    }

    /** `consumed_lines`: one revision per source, unknown when it cannot be read. */
    method ReadRevs(names: seq<string>) returns (revs: seq<Rev>)
      ensures |revs| == |names|
      ensures forall i :: 0 <= i < |names| && revs[i].Some? ==>
        names[i] in world.sources && world.sources[names[i]] == revs[i].value
    {
      revs := [];
      for i := 0 to |names|
        invariant |revs| == i
        invariant forall k :: 0 <= k < i && revs[k].Some? ==>
          names[k] in world.sources && world.sources[names[k]] == revs[k].value
      {
        var readable: bool := *;
        revs := revs + [if readable && names[i] in world.sources then Some(world.sources[names[i]]) else None];
      }
    }

    /** A lock is polled for; true when it was taken. */
    method TryTake(e: LockEvent, name: string) returns (ok: bool)
      requires AllSound(trace) && Sound(world)
      modifies this
      ensures AllSound(trace) && Sound(world) && SameMarker(old(world), world)
      ensures locks == if ok then old(locks) + [e] else old(locks)
      ensures held == if ok then old(held) + {name} else old(held)
      ensures calm ==> ok
    {
      OthersAct();
      var busy: bool := *;
      ok := calm || !busy;
      if ok {
        locks := locks + [e];
        held := held + {name};
      }
    }

    /** The round lock, then the index lock and the journal check. */
    method TakeOpening(job: Job) returns (ok: bool)
      requires AllSound(trace) && Sound(world) && held == {} && locks == []
      modifies this
      ensures AllSound(trace) && Sound(world) && SameMarker(old(world), world)
      ensures if ok then locks == Opening(job) else locks < Opening(job)
      ensures ok ==> held == OptSet(job.round) + OptSet(job.index)
      ensures calm ==> ok
    {
      if job.round.Some? {
        // opened and locked; unless another job holds it, in which case this one waits, holding nothing
        ok := TryTake(Wait(job.round.value), job.round.value);
        if !ok { return; }
      }
      if job.index.Some? {
        ok := TryTake(Take(job.index.value, Exclusive), job.index.value);
        if !ok { return; }
        var journals: bool := *;
        if journals && !calm { return false; }
        locks := locks + [CheckJournals];
      }
      ok := true;
    }

    /** The given source locks, one after the other. */
    method TakeNames(job: Job, names: seq<string>) returns (ok: bool)
      requires AllSound(trace) && Sound(world)
      modifies this
      ensures AllSound(trace) && Sound(world) && SameMarker(old(world), world)
      ensures if ok then locks == old(locks) + Takes(job, names) else locks < old(locks) + Takes(job, names)
      ensures ok ==> held == old(held) + SetOf(names)
      ensures calm ==> ok
    {
      for i := 0 to |names|
        invariant AllSound(trace) && Sound(world) && SameMarker(old(world), world)
        invariant locks == old(locks) + Takes(job, names[..i])
        invariant held == old(held) + SetOf(names[..i])
      {
        NextTake(job, names, i);
        TakesAt(job, names, i);
        ok := TryTake(Take(names[i], ModeOf(job, names[i])), names[i]);
        if !ok { return; }
      }
      assert names[..|names|] == names;
      ok := true;
    }

    /** The source locks in sorted order, the index lock released only afterwards. */
    method TakeSources(job: Job) returns (ok: bool)
      requires AllSound(trace) && Sound(world) && locks == Opening(job) && held == OptSet(job.round) + OptSet(job.index)
      modifies this
      ensures AllSound(trace) && Sound(world) && SameMarker(old(world), world)
      ensures if ok then locks == Schedule(job) else locks < Schedule(job)
      ensures ok ==> held == (OptSet(job.round) + OptSet(job.index) + NameSet(job)) - OptSet(job.index)
      ensures calm ==> ok
    {
      ok := TakeNames(job, Names(job));
      if ok {
        locks := locks + Closing(job);
        held := held - OptSet(job.index);
      }
    }

    /** The completion marker goes before the first step; a marker that cannot be removed stops the job. */
    method Invalidate(job: Job) returns (ok: bool)
      requires AllSound(trace) && Sound(world)
      modifies `world, `trace
      ensures AllSound(trace) && Sound(world)
      ensures !job.marks ==> ok && world == old(world)
      ensures job.marks && ok ==> world == old(world).(marker := None, started := Some(job), ran := [])
      ensures !ok ==> world == old(world)
      ensures calm ==> ok
    {
      if job.marks {
        var stuck: bool := *;
        if world.marker.Some? && stuck && !calm { return false; }
        Put(world.(marker := None, started := Some(job), ran := []));
      }
      ok := true;
    }

    /** One step: what it finds in the locked sources cannot change while it runs. */
    method RunStep(job: Job, ghost sources: map<string, string>) returns (outcome: Outcome)
      requires AllSound(trace) && Sound(world) && Kept(sources, world.sources, held)
      requires job.marks ==> world.marker == None && world.started == Some(job)
      modifies `world, `trace
      ensures AllSound(trace) && Sound(world) && Kept(sources, world.sources, held)
      ensures job.marks ==> world.marker == None && world.started == Some(job)
      ensures !job.marks ==> SameMarker(old(world), world)
      ensures outcome == Done && job.marks ==> |world.ran| == |old(world).ran| + 1 && old(world).ran <= world.ran
      ensures outcome == Done && job.marks ==>
        world.ran[|old(world).ran|].passed && Kept(sources, world.ran[|old(world).ran|].saw, held)
      ensures calm ==> outcome == Done
    {
      OthersAct();
      var builds: bool := *;
      if !builds && !calm { return Failed; }      // unresolvable arguments or environment
      if job.marks {
        Put(world.(ran := world.ran + [StepRun(false, world.sources)]));
      }
      OthersAct();
      var passed: bool, ceased: bool := *, *;
      if !passed && !calm { return if ceased then Failed else Unsafe; }
      if job.marks {
        var last := |world.ran| - 1;
        Put(world.(ran := world.ran[last := world.ran[last].(passed := true)]));
      }
      return Done;
    }

    /** Every step in turn; stops at the first that does not pass. */
    method RunSteps(job: Job, ghost sources: map<string, string>) returns (outcome: Outcome)
      requires AllSound(trace) && Sound(world) && Kept(sources, world.sources, held)
      requires job.marks ==> world.marker == None && world.started == Some(job) && world.ran == []
      modifies `world, `trace
      ensures AllSound(trace) && Sound(world)
      ensures job.marks ==> world.marker == None && world.started == Some(job)
      ensures !job.marks ==> SameMarker(old(world), world)
      ensures outcome == Done && job.marks ==> AllPassed(world.ran, job.steps) && AllKept(sources, world.ran, held)
      ensures calm ==> outcome == Done
    {
      for k := 0 to job.steps
        invariant AllSound(trace) && Sound(world) && Kept(sources, world.sources, held)
        invariant job.marks ==> world.marker == None && world.started == Some(job)
        invariant !job.marks ==> SameMarker(old(world), world)
        invariant job.marks ==> AllPassed(world.ran, k) && AllKept(sources, world.ran, held)
      {
        outcome := RunStep(job, sources);
        if outcome != Done { return; }
      }
      outcome := Done;
    }

    /** The sidecars first, then the marker. */
    method WriteMarker(job: Job, revs: seq<Rev>, sideRevs: seq<Rev>) returns (ok: bool)
      requires AllSound(trace) && Sound(world) && world.marker == None && world.started == Some(job)
      requires AllPassed(world.ran, job.steps) && Consumed(job.consumed, revs, world.ran)
      requires job.revConsumed.Some? ==> Consumed(job.revConsumed.value, sideRevs, world.ran)
      modifies `world, `trace
      ensures AllSound(trace) && Sound(world)
      ensures world.marker == if ok then Some(Marker(job.text, revs, job)) else None
      ensures calm ==> ok
    {
      var fails: bool := *;
      if job.inputs.Some? {
        if fails && !calm { return false; }
        Put(world.(inputs := job.inputs));
      }
      if job.revConsumed.Some? && job.revConsumed.value != [] {
        fails := *;
        if fails && !calm { return false; }
        Put(world.(revs := Some(sideRevs)));
      }
      fails := *;
      if fails && !calm { return false; }
      Put(world.(marker := Some(Marker(job.text, revs, job))));
      return true;
    }

    /** The admitted job: receipt, invalidation, steps, marker. */
    method Perform(job: Job) returns (outcome: Outcome)
      requires AllSound(trace) && Sound(world) && CoveredBy(job, held)
      modifies `world, `trace
      ensures AllSound(trace) && Sound(world)
      ensures !job.marks ==> SameMarker(old(world), world)
      ensures outcome == Done && job.marks && job.text != "" ==> world.marker.Some? && world.marker.value.writer == job
      ensures outcome != Done ==> world.marker.None? || SameMarker(old(world), world)
      ensures calm ==> outcome == Done
    {
      var revs := ReadRevs(job.consumed);
      var sideRevs := ReadRevs(if job.revConsumed.Some? then job.revConsumed.value else []);
      ghost var sources := world.sources;
      var ok := Invalidate(job);
      if !ok { return Failed; }
      outcome := RunSteps(job, sources);
      if outcome != Done { return; }
      if job.marks && job.text != "" {
        KeptIsConsumed(job.consumed, revs, sources, world.ran, held);
        if job.revConsumed.Some? { KeptIsConsumed(job.revConsumed.value, sideRevs, sources, world.ran, held); }
        ok := WriteMarker(job, revs, sideRevs);
        if !ok { return Failed; }
      }
    }

    /** `run`. `superseded`: the web gate found a newer attempt after the locks were taken. */
    method Run(job: Job, superseded: bool) returns (outcome: Outcome)
      requires AllSound(trace) && Sound(world) && held == {} && locks == []
      requires LocksItsSources(job)
      modifies this
      ensures AllSound(trace) && Sound(world) && held == {}
      ensures locks <= Schedule(job) && (outcome == Done ==> locks == Schedule(job))
      ensures !job.marks ==> SameMarker(old(world), world)
      ensures outcome == Done && job.marks && job.text != "" ==> world.marker.Some? && world.marker.value.writer == job
      ensures outcome != Done ==> world.marker.None? || SameMarker(old(world), world)
      ensures calm ==> if superseded then outcome == Failed && SameMarker(old(world), world) else outcome == Done
    {
      outcome := Failed;
      var ok := TakeOpening(job);
      if ok {
        ok := TakeSources(job);
      }
      if ok && !superseded {
        outcome := Perform(job);
      }
      held := {};
    }

    /** Power is lost: the first `cut` states of the run happened, and no lock survives. */
    method Crash(first: World, cut: nat)
      requires AllSound(trace) && Sound(first)
      modifies this
      ensures Sound(world) && trace == [] && held == {} && locks == []
    {
      world := if 0 < cut <= |trace| then trace[cut - 1] else first;
      trace, held, locks := [], {}, [];
    }

    /** Any sequence of jobs, each cut off anywhere or not at all: whatever marker is there is sound. */
    method RunAll(jobs: seq<(Job, nat)>)
      requires Sound(world) && trace == [] && held == {} && locks == []
      requires forall i :: 0 <= i < |jobs| ==> LocksItsSources(jobs[i].0)
      modifies this
      ensures Sound(world)
    {
      for i := 0 to |jobs|
        invariant Sound(world) && trace == [] && held == {} && locks == []
      {
        var first := world;
        var superseded: bool := *;
        var outcome := Run(jobs[i].0, superseded);
        Crash(first, jobs[i].1);
      }
    }
  }

  /** The recorded sources are locked, and the other two locks are not source locks. */
  predicate LocksItsSources(job: Job)
  {
    OptSet(job.round) !! OptSet(job.index) && OptSet(job.round) + OptSet(job.index) !! NameSet(job) &&
    CoveredBy(job, NameSet(job))
  }

  predicate CoveredBy(job: Job, held: set<string>)
  {
    SetOf(job.consumed) <= held && (job.revConsumed.Some? ==> SetOf(job.revConsumed.value) <= held)
  }

  ghost predicate AllKept(sources: map<string, string>, ran: seq<StepRun>, held: set<string>)
  {
    forall k :: 0 <= k < |ran| ==> Kept(sources, ran[k].saw, held)
  }

  lemma {:induction false} KeptIsConsumed(names: seq<string>, revs: seq<Rev>, sources: map<string, string>,
                                          ran: seq<StepRun>, held: set<string>)
    requires |revs| == |names| && SetOf(names) <= held && AllKept(sources, ran, held)
    requires forall i :: 0 <= i < |names| && revs[i].Some? ==> names[i] in sources && sources[names[i]] == revs[i].value
    ensures Consumed(names, revs, ran)
  {
    forall i, k | 0 <= i < |names| && 0 <= k < |ran| && revs[i].Some?
      ensures names[i] in ran[k].saw && ran[k].saw[names[i]] == revs[i].value
    {
      assert names[i] in SetOf(names) && Kept(sources, ran[k].saw, held);
    }
  }

  predicate SameMarker(w: World, v: World) { v == w.(sources := v.sources) }

  function OptSet(o: Option<string>): set<string> { if o.Some? then {o.value} else {} }
  function SetOf(s: seq<string>): set<string> { set n | n in s }
  function NameSet(job: Job): set<string> { SetOf(Names(job)) }

  lemma {:induction false} TakesLonger(job: Job, names: seq<string>, i: nat)
    requires i <= |names|
    ensures Takes(job, names[..i]) <= Takes(job, names) && |Takes(job, names)| == |names|
    ensures |Takes(job, names[..i])| == i
  {
    if i < |names| {
      TakesLonger(job, names[..|names| - 1], i);
      assert names[..|names| - 1][..i] == names[..i];
    } else {
      assert names[..i] == names;
      if i > 0 { TakesLonger(job, names[..i - 1], i - 1); }
    }
  }

  // --- what the schedule guarantees ----------------------------------------------------------------------

  function HeldAfter(es: seq<LockEvent>): set<string>
  {
    if es == [] then {}
    else
      var h := HeldAfter(es[..|es| - 1]);
      match es[|es| - 1]
      case Wait(n) => h + {n}
      case Take(n, _) => h + {n}
      case CheckJournals => h
      case Drop(n) => h - {n}
  }

  lemma {:induction false} HeldStep(es: seq<LockEvent>, e: LockEvent)
    ensures HeldAfter(es + [e]) == (match e
      case Wait(n) => HeldAfter(es) + {n}
      case Take(n, _) => HeldAfter(es) + {n}
      case CheckJournals => HeldAfter(es)
      case Drop(n) => HeldAfter(es) - {n})
  {
    assert (es + [e])[..|es|] == es;
  }

  lemma {:induction false} OpeningHolds(job: Job)
    ensures HeldAfter(Opening(job)) == OptSet(job.round) + OptSet(job.index)
  {
    var a := if job.round.Some? then [Wait(job.round.value)] else [];
    if job.round.Some? { HeldStep([], a[0]); assert [] + [a[0]] == a; }
    if job.index.Some? {
      var t := Take(job.index.value, Exclusive);
      HeldStep(a, t);
      HeldStep(a + [t], CheckJournals);
      assert Opening(job) == a + [t] + [CheckJournals];
    } else {
      assert Opening(job) == a;
    }
  }

  lemma {:induction false} NextTake(job: Job, names: seq<string>, i: nat)
    requires i < |names|
    ensures Takes(job, names[..i + 1]) == Takes(job, names[..i]) + [Take(names[i], ModeOf(job, names[i]))]
    ensures SetOf(names[..i + 1]) == SetOf(names[..i]) + {names[i]}
  {
    assert names[..i + 1][..i] == names[..i];
    assert names[..i + 1] == names[..i] + [names[i]];
  }

  /** Up to the `i`-th source lock: what was held before, and the source locks so far. */
  lemma {:induction false} TakingHolds(first: seq<LockEvent>, job: Job, names: seq<string>, i: nat)
    requires i <= |names|
    ensures HeldAfter(first + Takes(job, names[..i])) == HeldAfter(first) + SetOf(names[..i])
  {
    if i == 0 {
      assert first + Takes(job, names[..0]) == first;
    } else {
      TakingHolds(first, job, names, i - 1);
      NextTake(job, names, i - 1);
      HeldStep(first + Takes(job, names[..i - 1]), Take(names[i - 1], ModeOf(job, names[i - 1])));
      assert first + Takes(job, names[..i]) ==
        first + Takes(job, names[..i - 1]) + [Take(names[i - 1], ModeOf(job, names[i - 1]))];
    }
  }

  lemma {:induction false} TakesAt(job: Job, names: seq<string>, i: nat)
    requires i < |names|
    ensures |Takes(job, names)| == |names|
    ensures Takes(job, names)[i] == Take(names[i], ModeOf(job, names[i])) &&
      Takes(job, names)[..i] == Takes(job, names[..i])
  {
    TakesLonger(job, names, i);
    TakesLonger(job, names, i + 1);
    NextTake(job, names, i);
    assert Takes(job, names)[i] == Takes(job, names[..i + 1])[i];
  }

  /** Where each event of a schedule comes from. */
  lemma {:induction false} EventAt(first: seq<LockEvent>, job: Job, names: seq<string>, last: seq<LockEvent>, k: nat)
    requires |first| <= k < |first| + |names|
    ensures |Takes(job, names)| == |names|
    ensures var s := first + Takes(job, names) + last;
      s[k] == Take(names[k - |first|], ModeOf(job, names[k - |first|])) &&
      s[..k] == first + Takes(job, names[..k - |first|])
  {
    var i := k - |first|;
    TakesAt(job, names, i);
    var s := first + Takes(job, names) + last;
    assert s[k] == Takes(job, names)[i];
    assert s[..k] == first + Takes(job, names)[..i];
  }

  /** ... and the last one. */
  lemma {:induction false} EventLast(first: seq<LockEvent>, job: Job, names: seq<string>, last: LockEvent)
    ensures var s := first + Takes(job, names) + [last];
      |s| == |first| + |names| + 1 && s[|s| - 1] == last && s[..|s| - 1] == first + Takes(job, names)
  {
    TakesLonger(job, names, 0);
  }

  /** A job that waits for the round lock holds nothing another job needs. */
  lemma {:induction false} WaitsHoldingNothing(job: Job, k: nat)
    requires k < |Schedule(job)| && Schedule(job)[k].Wait?
    ensures HeldAfter(Schedule(job)[..k]) == {}
  {
    var o, names := |Opening(job)|, Names(job);
    TakesLonger(job, names, 0);
    if o <= k < o + |names| { EventAt(Opening(job), job, names, Closing(job), k); }
    assert k == 0;
  }

  /** Every source lock is taken under the index lock, the journals having been checked under it. */
  lemma {:induction false} HandOff(job: Job, k: nat)
    requires LocksItsSources(job) && job.index.Some? && |Opening(job)| <= k < |Opening(job)| + |Names(job)|
    ensures |Schedule(job)| == |Opening(job)| + |Names(job)| + 1
    ensures var (e, name) := (Schedule(job)[k], Names(job)[k - |Opening(job)|]);
      e.Take? && e.name == name && (e.mode == Exclusive <==> name in job.exclusive)
    ensures job.index.value in HeldAfter(Schedule(job)[..k]) && CheckJournals in Schedule(job)[..k]
  {
    var first := Opening(job);
    EventAt(first, job, Names(job), Closing(job), k);
    TakingHolds(first, job, Names(job), k - |first|);
    OpeningHolds(job);
    assert first[|first| - 1] == CheckJournals;
    assert Schedule(job)[..k][|first| - 1] == CheckJournals;
  }

  /** The index lock goes last, when every source lock is held. */
  lemma {:induction false} ReleasedLast(job: Job)
    requires job.index.Some?
    ensures var s := Schedule(job);
      |s| > 0 && s[|s| - 1] == Drop(job.index.value) && NameSet(job) <= HeldAfter(s[..|s| - 1])
  {
    var first, names := Opening(job), Names(job);
    EventLast(first, job, names, Drop(job.index.value));
    TakingHolds(first, job, names, |names|);
    assert names[..|names|] == names;
  }

  /** Source locks are taken in one ascending order, each once: two jobs cannot wait for each other. */
  lemma {:induction false} TakenInOrder(job: Job, k: nat, l: nat)
    requires k < l < |Names(job)|
    ensures TextLe(Names(job)[k], Names(job)[l]) && Names(job)[k] != Names(job)[l]
  {
    var names := Names(job);
    assert KeyLe(TextKey(names[k]), TextKey(names[l]));
    SortedSetFacts(job.exclusive + job.shared);
  }
}
