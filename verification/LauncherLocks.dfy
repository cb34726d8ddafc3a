/**
 Any number of launched jobs over one set of locks: what they can hold together, and that they never
 wait for each other in a circle (lhpc/core/build_launcher_runtime.py:272-345).
 */
module LauncherLocks {
  import opened Options
  import opened Ordering
  import opened Launcher

  type Plan = seq<LockEvent>

  /** Two holders of one lock: both share it. */
  predicate Compatible(a: Mode, b: Mode) { a.Shared? && b.Shared? }

  /** A lock that is asked for. */
  function Asked(e: LockEvent): Option<(string, Mode)>
  {
    match e
    case Wait(n) => Some((n, Exclusive))
    case Take(n, m) => Some((n, m))
    case _ => None
  }

  function After(held: map<string, Mode>, e: LockEvent): map<string, Mode>
  {
    match e
    case Wait(n) => held[n := Exclusive]
    case Take(n, m) => held[n := m]
    case CheckJournals => held
    case Drop(n) => held - {n}
  }

  /** The locks held after some events, with their modes. */
  function Modes(es: Plan): map<string, Mode>
  {
    if es == [] then map[] else After(Modes(es[..|es| - 1]), es[|es| - 1])
  }

  /** How far each job has come with its plan; one more than all of it: over, and nothing held. */
  datatype Jobs = Jobs(plans: seq<Plan>, done: seq<nat>)

  ghost predicate Ok(st: Jobs) { |st.done| == |st.plans| }

  predicate Over(plan: Plan, n: nat) { n > |plan| }

  function Holds(plan: Plan, n: nat): map<string, Mode> { if Over(plan, n) then map[] else Modes(plan[..n]) }

  function Wants(plan: Plan, n: nat): Option<(string, Mode)> { if n < |plan| then Asked(plan[n]) else None }

  ghost predicate HoldsIn(st: Jobs, j: nat, name: string, mode: Mode)
    requires Ok(st)
  {
    j < |st.plans| && name in Holds(st.plans[j], st.done[j]) && Holds(st.plans[j], st.done[j])[name] == mode
  }

  /** No other job holds it in a mode that excludes this one. */
  ghost predicate Free(st: Jobs, i: nat, name: string, mode: Mode)
    requires Ok(st)
  {
    forall j: nat, m :: j != i && HoldsIn(st, j, name, m) ==> Compatible(m, mode)
  }

  ghost predicate CanMove(st: Jobs, i: nat)
    requires Ok(st)
  {
    i < |st.plans| && !Over(st.plans[i], st.done[i]) &&
    (Wants(st.plans[i], st.done[i]).Some? ==>
       Free(st, i, Wants(st.plans[i], st.done[i]).value.0, Wants(st.plans[i], st.done[i]).value.1))
  }

  /** Job `i` takes its next event; or ends, whatever the reason. */
  ghost predicate StepOf(st: Jobs, next: Jobs, i: nat)
    requires Ok(st)
  {
    i < |st.plans| && next.plans == st.plans &&
    ((CanMove(st, i) && next.done == st.done[i := st.done[i] + 1]) ||
     next.done == st.done[i := |st.plans[i]| + 1])
  }

  ghost predicate Step(st: Jobs, next: Jobs) { Ok(st) && exists i: nat :: StepOf(st, next, i) }

  /** A run: from nothing held, step by step. */
  ghost predicate IsRun(states: seq<Jobs>)
  {
    states != [] && Ok(states[0]) && (forall i :: 0 <= i < |states[0].done| ==> states[0].done[i] == 0) &&
    forall k :: 0 < k < |states| ==> Step(states[k - 1], states[k])
  }

  /** No two jobs hold one lock but by sharing it. */
  ghost predicate Apart(st: Jobs)
    requires Ok(st)
  {
    forall i: nat, j: nat, name, m, n :: i != j && HoldsIn(st, i, name, m) && HoldsIn(st, j, name, n) ==>
      Compatible(m, n)
  }

  /** The next event adds at most the lock it asks for. */
  lemma {:induction false} HoldsGrow(plan: Plan, n: nat, name: string)
    requires !Over(plan, n) && name in Holds(plan, n + 1)
    ensures var h := Holds(plan, n + 1);
      (name in Holds(plan, n) && h[name] == Holds(plan, n)[name]) || Wants(plan, n) == Some((name, h[name]))
  {
    if n < |plan| { assert plan[..n + 1][..n] == plan[..n]; }
  }

  /** What a job holds after a step it held before, or was free to take. */
  lemma {:induction false} HeldOrFree(st: Jobs, next: Jobs, i: nat, name: string, mode: Mode)
    requires Ok(st) && StepOf(st, next, i) && HoldsIn(next, i, name, mode)
    ensures HoldsIn(st, i, name, mode) || Free(st, i, name, mode)
  {
    if next.done[i] == st.done[i] + 1 && CanMove(st, i) { HoldsGrow(st.plans[i], st.done[i], name); }
  }

  lemma {:induction false} StepKeepsApart(st: Jobs, next: Jobs)
    requires Ok(st) && Apart(st) && Step(st, next)
    ensures Ok(next) && Apart(next) && next.plans == st.plans
  {
    var i: nat :| StepOf(st, next, i);
    forall j: nat, name, m | j != i ensures HoldsIn(next, j, name, m) <==> HoldsIn(st, j, name, m) {}
    forall j: nat, name, m, n | j != i && HoldsIn(next, i, name, m) && HoldsIn(st, j, name, n)
      ensures Compatible(m, n) && Compatible(n, m)
    {
      HeldOrFree(st, next, i, name, m);
    }
  }

  /** In every state of every run. */
  lemma {:induction false} RunKeepsApart(states: seq<Jobs>, k: nat)
    requires IsRun(states) && k < |states|
    ensures Ok(states[k]) && Apart(states[k]) && states[k].plans == states[0].plans
  {
    if k > 0 {
      RunKeepsApart(states, k - 1);
      StepKeepsApart(states[k - 1], states[k]);
    } else {
      forall i: nat, name, m ensures !HoldsIn(states[0], i, name, m) {}
    }
  }

  // --- jobs that run at the same time ---------------------------------------------------------------------

  lemma {:induction false} ModesStep(es: Plan, e: LockEvent)
    ensures Modes(es + [e]) == After(Modes(es), e)
  {
    assert (es + [e])[..|es|] == es;
  }

  /** Every source lock is held once it was taken, exclusively exactly where the job needs it so. */
  lemma {:induction false} TakesHold(first: Plan, job: Job, names: seq<string>, i: nat, x: string)
    requires i <= |names| && x in names[..i]
    ensures var h := Modes(first + Takes(job, names[..i]));
      x in h && (h[x].Exclusive? <==> x in job.exclusive)
  {
    NextTake(job, names, i - 1);
    var before := first + Takes(job, names[..i - 1]);
    var e := Take(names[i - 1], ModeOf(job, names[i - 1]));
    assert first + Takes(job, names[..i]) == before + [e];
    ModesStep(before, e);
    if x != names[i - 1] {
      assert names[..i] == names[..i - 1] + [names[i - 1]];
      TakesHold(first, job, names, i - 1, x);
    }
  }

  /** An admitted job holds its sources, exclusively exactly those it needs so. */
  lemma {:induction false} AdmittedHolds(job: Job, x: string)
    requires LocksItsSources(job) && x in NameSet(job)
    ensures var h := Holds(Schedule(job), |Schedule(job)|);
      x in h && (h[x].Exclusive? <==> x in job.exclusive)
  {
    var first, names := Opening(job), Names(job);
    var taken := first + Takes(job, names);
    assert names[..|names|] == names && Schedule(job)[..|Schedule(job)|] == Schedule(job);
    TakesHold(first, job, names, |names|, x);
    if job.index.Some? {
      ModesStep(taken, Drop(job.index.value));
      assert Schedule(job) == taken + [Drop(job.index.value)];
    } else {
      assert Schedule(job) == taken;
    }
  }

  /** Job `i` of the run is `job`, and has been admitted. */
  ghost predicate Admitted(st: Jobs, i: nat, job: Job)
  {
    Ok(st) && i < |st.plans| && st.plans[i] == Schedule(job) && st.done[i] == |Schedule(job)|
  }

  /** Two jobs at work at the same time have no source in common that either needs for itself. */
  lemma {:induction false} NoTwoOnOneSource(states: seq<Jobs>, k: nat, i: nat, a: Job, j: nat, b: Job, x: string)
    requires IsRun(states) && k < |states| && i != j && Admitted(states[k], i, a) && Admitted(states[k], j, b)
    requires LocksItsSources(a) && LocksItsSources(b) && x in NameSet(a) && x in NameSet(b)
    ensures x !in a.exclusive && x !in b.exclusive
  {
    RunKeepsApart(states, k);
    AdmittedHolds(a, x);
    AdmittedHolds(b, x);
    var st := states[k];
    var m, n := Holds(st.plans[i], st.done[i])[x], Holds(st.plans[j], st.done[j])[x];
    assert HoldsIn(st, i, x, m) && HoldsIn(st, j, x, n);
  }

  lemma {:induction false} TakesKeep(first: Plan, job: Job, names: seq<string>, i: nat, x: string)
    requires i <= |names| && x !in names && x in Modes(first)
    ensures var h := Modes(first + Takes(job, names[..i])); x in h && h[x] == Modes(first)[x]
  {
    if i == 0 {
      assert first + Takes(job, names[..0]) == first;
    } else {
      NextTake(job, names, i - 1);
      var before := first + Takes(job, names[..i - 1]);
      var e := Take(names[i - 1], ModeOf(job, names[i - 1]));
      assert first + Takes(job, names[..i]) == before + [e];
      ModesStep(before, e);
      TakesKeep(first, job, names, i - 1, x);
    }
  }

  lemma {:induction false} OpeningTakesRound(job: Job)
    requires job.round.Some? && job.round != job.index
    ensures var h := Modes(Opening(job)); job.round.value in h && h[job.round.value].Exclusive?
  {
    var wait := [Wait(job.round.value)];
    assert Modes(wait) == map[job.round.value := Exclusive];
    if job.index.Some? {
      var t := Take(job.index.value, Exclusive);
      ModesStep(wait, t);
      ModesStep(wait + [t], CheckJournals);
      assert Opening(job) == wait + [t] + [CheckJournals];
    } else {
      assert Opening(job) == wait;
    }
  }

  /** The round lock is held for the whole job, exclusively. */
  lemma {:induction false} RoundIsHeld(job: Job)
    requires LocksItsSources(job) && job.round.Some?
    ensures var h := Holds(Schedule(job), |Schedule(job)|); job.round.value in h && h[job.round.value].Exclusive?
  {
    var first, names, x := Opening(job), Names(job), job.round.value;
    assert x in OptSet(job.round) && x !in NameSet(job) && x !in OptSet(job.index);
    OpeningTakesRound(job);
    TakesKeep(first, job, names, |names|, x);
    assert names[..|names|] == names && Schedule(job)[..|Schedule(job)|] == Schedule(job);
    ClosingKeeps(first + Takes(job, names), job, x);
  }

  lemma {:induction false} ClosingKeeps(taken: Plan, job: Job, x: string)
    requires x in Modes(taken) && job.index != Some(x)
    ensures var h := Modes(taken + Closing(job)); x in h && h[x] == Modes(taken)[x]
  {
    if job.index.Some? {
      ModesStep(taken, Drop(job.index.value));
    } else {
      assert taken + [] == taken;
    }
  }

  /** Both jobs can be at work at the same time: no round lock in common, and no source that one of them needs alone. */
  predicate GetAlong(a: Job, b: Job)
  {
    (a.round.Some? ==> a.round != b.round) &&
    forall x :: x in NameSet(a) && x in NameSet(b) ==> x !in a.exclusive && x !in b.exclusive
  }

  /** Jobs that are at work at the same time, in any run of any number of jobs, get along. */
  lemma {:induction false} TogetherGetAlong(states: seq<Jobs>, k: nat, i: nat, a: Job, j: nat, b: Job)
    requires IsRun(states) && k < |states| && i != j && Admitted(states[k], i, a) && Admitted(states[k], j, b)
    requires LocksItsSources(a) && LocksItsSources(b)
    ensures GetAlong(a, b)
  {
    forall x | x in NameSet(a) && x in NameSet(b) ensures x !in a.exclusive && x !in b.exclusive {
      NoTwoOnOneSource(states, k, i, a, j, b, x);
    }
    if a.round.Some? && a.round == b.round {
      RunKeepsApart(states, k);
      RoundIsHeld(a);
      RoundIsHeld(b);
      assert HoldsIn(states[k], i, a.round.value, Exclusive) && HoldsIn(states[k], j, a.round.value, Exclusive);
      assert false;
    }
  }

  // --- no circle of waiting jobs --------------------------------------------------------------------------

  /** Round locks, index locks and source locks bear different names. */
  predicate Named(rounds: set<string>, indexes: set<string>, job: Job)
  {
    rounds !! indexes && OptSet(job.round) <= rounds && OptSet(job.index) <= indexes &&
    NameSet(job) !! rounds + indexes
  }

  function Rank(rounds: set<string>, indexes: set<string>, name: string): Key
  {
    [Num(if name in rounds then 0 else if name in indexes then 1 else 2), Text(name)]
  }

  predicate Below(rounds: set<string>, indexes: set<string>, x: string, y: string)
  {
    x != y && KeyLe(Rank(rounds, indexes, x), Rank(rounds, indexes, y))
  }

  lemma {:induction false} HeldWasAsked(es: Plan, x: string) returns (p: nat)
    requires x in Modes(es)
    ensures p < |es| && Asked(es[p]).Some? && Asked(es[p]).value.0 == x
  {
    var e := es[|es| - 1];
    if Asked(e).Some? && Asked(e).value.0 == x {
      p := |es| - 1;
    } else {
      p := HeldWasAsked(es[..|es| - 1], x);
    }
  }

  /** Where an event of a schedule that asks for a lock stands: at the opening, or among the sources. */
  lemma {:induction false} AskedAt(job: Job, k: nat)
    requires k < |Schedule(job)| && Asked(Schedule(job)[k]).Some?
    ensures var x, o := Asked(Schedule(job)[k]).value.0, |Opening(job)|;
      if k < o then Opening(job)[k] == Schedule(job)[k] && x in OptSet(job.round) + OptSet(job.index)
      else k - o < |Names(job)| && x == Names(job)[k - o] && x in NameSet(job)
  {
    var first, names := Opening(job), Names(job);
    TakesLonger(job, names, 0);
    if |first| <= k < |first| + |names| { EventAt(first, job, names, Closing(job), k); }
    assert k < |first| ==> first[k] == Schedule(job)[k];
  }

  lemma {:induction false} RankOf(rounds: set<string>, indexes: set<string>, job: Job, x: string)
    requires Named(rounds, indexes, job)
    ensures job.round == Some(x) ==> Rank(rounds, indexes, x)[0] == Num(0)
    ensures job.index == Some(x) ==> Rank(rounds, indexes, x)[0] == Num(1)
    ensures x in NameSet(job) ==> Rank(rounds, indexes, x)[0] == Num(2)
  {}

  /** A lower class of locks comes first. */
  lemma LowerClass(rounds: set<string>, indexes: set<string>, x: string, y: string, a: int, b: int)
    requires Rank(rounds, indexes, x)[0] == Num(a) && Rank(rounds, indexes, y)[0] == Num(b) && a < b
    ensures Below(rounds, indexes, x, y)
  {}

  lemma {:induction false} SameClass(rounds: set<string>, indexes: set<string>, x: string, y: string)
    requires Rank(rounds, indexes, x)[0] == Rank(rounds, indexes, y)[0] && x != y && TextLe(x, y)
    ensures Below(rounds, indexes, x, y)
  {
    var a, b := Rank(rounds, indexes, x), Rank(rounds, indexes, y);
    assert a[1..] == [Text(x)] && b[1..] == [Text(y)];
    assert KeyLe(a[1..], b[1..]);
  }

  function ClassAt(job: Job, k: nat): int
  {
    if k >= |Opening(job)| then 2 else if k == 0 && job.round.Some? then 0 else 1
  }

  lemma {:induction false} RankAt(rounds: set<string>, indexes: set<string>, job: Job, k: nat)
    requires Named(rounds, indexes, job) && k < |Schedule(job)| && Asked(Schedule(job)[k]).Some?
    ensures Rank(rounds, indexes, Asked(Schedule(job)[k]).value.0)[0] == Num(ClassAt(job, k))
    ensures k < |Opening(job)| ==> k == if ClassAt(job, k) == 1 && job.round.Some? then 1 else 0
  {
    AskedAt(job, k);
    RankOf(rounds, indexes, job, Asked(Schedule(job)[k]).value.0);
  }

  /** Each lock of a schedule is above those before it. */
  lemma {:induction false} AsksUpwards(rounds: set<string>, indexes: set<string>, job: Job, p: nat, k: nat)
    requires Named(rounds, indexes, job) && p < k < |Schedule(job)|
    requires Asked(Schedule(job)[p]).Some? && Asked(Schedule(job)[k]).Some?
    ensures Below(rounds, indexes, Asked(Schedule(job)[p]).value.0, Asked(Schedule(job)[k]).value.0)
  {
    var x, y := Asked(Schedule(job)[p]).value.0, Asked(Schedule(job)[k]).value.0;
    RankAt(rounds, indexes, job, p);
    RankAt(rounds, indexes, job, k);
    if p < |Opening(job)| {
      LowerClass(rounds, indexes, x, y, ClassAt(job, p), ClassAt(job, k));
    } else {
      SourcesUpwards(job, p, k);
      SameClass(rounds, indexes, x, y);
    }
  }

  lemma {:induction false} SourcesUpwards(job: Job, p: nat, k: nat)
    requires |Opening(job)| <= p < k < |Schedule(job)|
    requires Asked(Schedule(job)[p]).Some? && Asked(Schedule(job)[k]).Some?
    ensures var x, y := Asked(Schedule(job)[p]).value.0, Asked(Schedule(job)[k]).value.0;
      x != y && TextLe(x, y)
  {
    var o := |Opening(job)|;
    SourceAskedAt(job, p);
    SourceAskedAt(job, k);
    TakenInOrder(job, p - o, k - o);
  }

  lemma {:induction false} SourceAskedAt(job: Job, k: nat)
    requires |Opening(job)| <= k < |Schedule(job)| && Asked(Schedule(job)[k]).Some?
    ensures var o := |Opening(job)|; k - o < |Names(job)| && Asked(Schedule(job)[k]).value.0 == Names(job)[k - o]
  {
    AskedAt(job, k);
  }

  /** What a job holds is below what it wants. */
  lemma {:induction false} WantsMore(rounds: set<string>, indexes: set<string>, job: Job, n: nat, x: string)
    requires Named(rounds, indexes, job) && x in Holds(Schedule(job), n) && Wants(Schedule(job), n).Some?
    ensures Below(rounds, indexes, x, Wants(Schedule(job), n).value.0)
  {
    var p := HeldWasAsked(Schedule(job)[..n], x);
    AsksUpwards(rounds, indexes, job, p, n);
  }

  predicate Waits(st: Jobs, i: nat)
    requires |st.done| == |st.plans|
  {
    i < |st.plans| && Wants(st.plans[i], st.done[i]).Some?
  }

  /** Of the waiting jobs, one that waits for a highest lock. */
  lemma {:induction false} Highest(rounds: set<string>, indexes: set<string>, st: Jobs, n: nat, i: nat) returns (b: nat)
    requires Ok(st) && n <= |st.plans| && i < n && Waits(st, i)
    ensures b < n && Waits(st, b)
    ensures forall j: nat :: j < n && Waits(st, j) ==>
      KeyLe(Rank(rounds, indexes, Wants(st.plans[j], st.done[j]).value.0),
            Rank(rounds, indexes, Wants(st.plans[b], st.done[b]).value.0))
  {
    var rank := (j: nat) requires Waits(st, j) =>
      Rank(rounds, indexes, Wants(st.plans[j], st.done[j]).value.0);
    b := i;
    var j := 0;
    while j < n
      invariant j <= n && b < n && Waits(st, b)
      invariant forall l: nat :: l < j && Waits(st, l) ==> KeyLe(rank(l), rank(b))
    {
      if Waits(st, j) {
        KeyOrder(rank(j), rank(b));
        if !KeyLe(rank(j), rank(b)) {
          forall l: nat | l < j && Waits(st, l) ensures KeyLe(rank(l), rank(j)) {
            KeyTransitive(rank(l), rank(b), rank(j));
          }
          KeyOrder(rank(j), rank(j));
          b := j;
        }
      }
      j := j + 1;
    }
  }

  /** Some job can always go on: the jobs never all wait for each other. */
  lemma {:induction false} SomeoneMoves(rounds: set<string>, indexes: set<string>, st: Jobs, jobs: seq<Job>, i: nat)
    returns (k: nat)
    requires Ok(st) && |jobs| == |st.plans| && i < |jobs| && !Over(st.plans[i], st.done[i])
    requires forall j :: 0 <= j < |jobs| ==> st.plans[j] == Schedule(jobs[j]) && Named(rounds, indexes, jobs[j])
    ensures CanMove(st, k)
  {
    k := i;
    if !CanMove(st, i) {
      k := Highest(rounds, indexes, st, |st.plans|, i);
      if !CanMove(st, k) {
        var (w, m) := Wants(st.plans[k], st.done[k]).value;
        var j: nat, n :| j != k && HoldsIn(st, j, w, n) && !Compatible(n, m);
        if Waits(st, j) {
          WantsMore(rounds, indexes, jobs[j], st.done[j], w);
          var w' := Wants(st.plans[j], st.done[j]).value.0;
          KeyOrder(Rank(rounds, indexes, w), Rank(rounds, indexes, w'));
          assert false;
        }
        k := j;
      }
    }
  }

  // --- ... and where nothing is needed alone, they do work at the same time -------------------------------

  /** Job `i` at its `k`-th event. */
  function Moved(st: Jobs, i: nat, k: nat): Jobs
    requires i < |st.done|
  {
    st.(done := st.done[i := k])
  }

  /** Job `i` goes on to its `n`-th event. */
  lemma {:induction false} GoesOn(states: seq<Jobs>, i: nat, n: nat) returns (run: seq<Jobs>)
    requires IsRun(states) && Ok(states[|states| - 1]) && i < |states[|states| - 1].plans|
    requires var st := states[|states| - 1];
      st.done[i] <= n && forall k: nat :: st.done[i] <= k < n ==> CanMove(Moved(st, i, k), i)
    ensures IsRun(run) && run[|run| - 1] == Moved(states[|states| - 1], i, n)
    decreases n - states[|states| - 1].done[i]
  {
    var st := states[|states| - 1];
    assert st == Moved(st, i, st.done[i]);
    if st.done[i] == n { return states; }
    var next := Moved(st, i, st.done[i] + 1);
    assert StepOf(st, next, i);
    forall k: nat ensures Moved(next, i, k) == Moved(st, i, k) {
      assert next.done[i := k] == st.done[i := k];
    }
    run := GoesOn(states + [next], i, n);
  }

  /** What an admitted job still holds: its round lock and its sources. */
  lemma {:induction false} AdmittedHoldsOnly(job: Job, x: string)
    requires LocksItsSources(job) && x in Holds(Schedule(job), |Schedule(job)|)
    ensures job.round == Some(x) || x in NameSet(job)
  {
    var whole := Schedule(job);
    assert whole[..|whole|] == whole;
    var p := HeldWasAsked(whole, x);
    AskedAt(job, p);
    if job.index.Some? {
      var rest := Opening(job) + Takes(job, Names(job));
      assert whole == rest + [Drop(job.index.value)];
      ModesStep(rest, Drop(job.index.value));
    }
  }

  /** What job `b` asks for next does not collide with what the admitted job `a` holds. */
  lemma {:induction false} NothingInTheWay(rounds: set<string>, indexes: set<string>, a: Job, b: Job, n: nat)
    requires Named(rounds, indexes, a) && Named(rounds, indexes, b) && LocksItsSources(a) && GetAlong(a, b)
    requires n < |Schedule(b)| && Asked(Schedule(b)[n]).Some?
    ensures var (x, m) := Asked(Schedule(b)[n]).value;
      var h := Holds(Schedule(a), |Schedule(a)|);
      x in h ==> Compatible(h[x], m)
  {
    var (x, m) := Asked(Schedule(b)[n]).value;
    if x in Holds(Schedule(a), |Schedule(a)|) {
      AdmittedHoldsOnly(a, x);
      AskedAt(b, n);
      RankAt(rounds, indexes, b, n);
      RankOf(rounds, indexes, a, x);
      RankOf(rounds, indexes, b, x);
      if x in NameSet(a) {
        AdmittedHolds(a, x);
        EventAt(Opening(b), b, Names(b), Closing(b), n);
      }
    }
  }

  lemma {:induction false} FirstMoves(p: Plan, q: Plan, k: nat)
    requires k < |p|
    ensures CanMove(Jobs([p, q], [k, 0]), 0)
  {
    var st := Jobs([p, q], [k, 0]);
    forall j: nat, x, m | j != 0 ensures !HoldsIn(st, j, x, m) {}
  }

  lemma {:induction false} SecondMoves(p: Plan, q: Plan, k: nat)
    requires k < |q|
    requires Asked(q[k]).Some? ==>
      var (x, m) := Asked(q[k]).value; x in Holds(p, |p|) ==> Compatible(Holds(p, |p|)[x], m)
    ensures CanMove(Jobs([p, q], [|p|, k]), 1)
  {}

  /** A run in which both are admitted, unless they need one round lock or one of them a common source alone. */
  lemma {:induction false} TogetherIfShared(rounds: set<string>, indexes: set<string>, a: Job, b: Job)
    returns (run: seq<Jobs>)
    requires Named(rounds, indexes, a) && Named(rounds, indexes, b) && LocksItsSources(a) && LocksItsSources(b)
    requires GetAlong(a, b)
    ensures IsRun(run) && Admitted(run[|run| - 1], 0, a) && Admitted(run[|run| - 1], 1, b)
  {
    var p, q := Schedule(a), Schedule(b);
    forall k: nat | k < |q|
      ensures Asked(q[k]).Some? ==>
        var (x, m) := Asked(q[k]).value; x in Holds(p, |p|) ==> Compatible(Holds(p, |p|)[x], m)
    {
      if Asked(q[k]).Some? { NothingInTheWay(rounds, indexes, a, b, k); }
    }
    run := OneAfterTheOther(p, q);
  }

  lemma {:induction false} OneAfterTheOther(p: Plan, q: Plan) returns (run: seq<Jobs>)
    requires forall k: nat :: k < |q| && Asked(q[k]).Some? ==>
      var (x, m) := Asked(q[k]).value; x in Holds(p, |p|) ==> Compatible(Holds(p, |p|)[x], m)
    ensures IsRun(run) && run[|run| - 1] == Jobs([p, q], [|p|, |q|])
  {
    var start := Jobs([p, q], [0, 0]);
    forall k: nat | k < |p| ensures CanMove(Moved(start, 0, k), 0) {
      FirstMoves(p, q, k);
      assert Moved(start, 0, k) == Jobs([p, q], [k, 0]);
    }
    run := GoesOn([start], 0, |p|);
    var mid := run[|run| - 1];
    forall k: nat | k < |q| ensures CanMove(Moved(mid, 1, k), 1) {
      SecondMoves(p, q, k);
      assert Moved(mid, 1, k) == Jobs([p, q], [|p|, k]);
    }
    run := GoesOn(run, 1, |q|);
  }
}
