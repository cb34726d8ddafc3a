/**
 Many processes sharing the config lock: plain writers, transactional writers, crashes between
 any two file operations (lhpc/core/config.py:114-166, 1902-1926, 1949-2036). Every lock grant
 sees the files as a sequence of whole operations left them.
 */
module ConfigRuns {
  import opened Options
  import opened ConfigStore
  import opened ConfigTxn

  datatype Op = Plain(target: Target) | Txn(targets: seq<Target>)

  /** Where a process that asked for the lock stands; its local variables die with it. */
  datatype Phase =
    | Checking(op: Op)
    | Restoring(op: Op, next: nat)
    | Working(op: Op)
    | Writing(targets: seq<Target>, view: Texts, next: nat)
    | Undoing(next: nat)
    | Leaving

  /** `log`: the operations that took effect, in order. */
  datatype State = State(disk: Disk, holder: Option<nat>, phases: map<nat, Phase>, log: seq<Op>)

  datatype Event =
    | Acquire(p: nat, op: Op)      // the flock is granted
    | Look(p: nat)                 // is a journal pending?
    | Restore(p: nat)              // recovery puts one record back, or removes the journal
    | Begin(p: nat)                // a plain write, or a transaction's journal
    | Write(p: nat)                // one target, or the commit
    | Fail(p: nat)                 // a body raises or a write fails
    | Undo(p: nat)                 // rollback puts one record back, or removes the journal
    | GiveUp(p: nat)               // a recovery or rollback step fails, the journal stays
    | Release(p: nat)
    | Crash(p: nat)

  function Effect(f: Files, op: Op): Files
  {
    match op
    case Plain(t) => WriteOne(f, t, TextsOf(f))
    case Txn(ts) => Written(f, ts, TextsOf(f))
  }

  /** The files after a sequence of whole operations. */
  function Replay(f: Files, log: seq<Op>): Files
  {
    if log == [] then f else Effect(Replay(f, log[..|log| - 1]), log[|log| - 1])
  }

  function With(s: State, p: nat, ph: Phase): State { s.(phases := s.phases[p := ph]) }
  function Without(s: State, p: nat): State { s.(holder := None, phases := s.phases - {p}) }

  function Records(d: Disk): seq<Rec> { if d.journal.Journal? then d.journal.targets else [] }

  /** One step of one process, or None where it cannot take it. */
  function Next(s: State, e: Event, refused: set<Path>): Option<State>
  {
    if e.Acquire? then
      if s.holder.None? && e.p !in s.phases then Some(With(s.(holder := Some(e.p)), e.p, Checking(e.op))) else None
    else if e.p !in s.phases then None
    else
      match (e, s.phases[e.p])
      case (Crash(p), _) => Some(if s.holder == Some(p) then Without(s, p) else s.(phases := s.phases - {p}))
      case (Look(p), Checking(op)) =>
        if s.disk.journal.NoJournal? then Some(With(s, p, Working(op)))
        else if Recoverable(s.disk.journal, refused) then Some(With(s, p, Restoring(op, 0)))
        else Some(With(s, p, Leaving))
      case (Restore(p), Restoring(op, i)) =>
        if i < |Records(s.disk)| then
          Some(With(s.(disk := s.disk.(files := RestoreOne(s.disk.files, Records(s.disk)[i]))), p,
                    Restoring(op, i + 1)))
        else Some(With(s.(disk := s.disk.(journal := NoJournal)), p, Working(op)))
      case (Begin(p), Working(Plain(t))) =>
        Some(With(s.(disk := s.disk.(files := WriteOne(s.disk.files, t, TextsOf(s.disk.files))),
                     log := s.log + [Plain(t)]), p, Leaving))
      case (Begin(p), Working(Txn(ts))) =>
        if TargetsOk(ts, refused) then
          Some(With(s.(disk := s.disk.(journal := Journal(PreImages(s.disk.files, ts)))), p,
                    Writing(ts, TextsOf(s.disk.files), 0)))
        else Some(With(s, p, Leaving))
      case (Write(p), Writing(ts, view, i)) =>
        if !Renders(ts, view) then None
        else if i < |ts| then
          Some(With(s.(disk := s.disk.(files := WriteOne(s.disk.files, ts[i], view))), p, Writing(ts, view, i + 1)))
        else Some(With(s.(disk := s.disk.(journal := NoJournal), log := s.log + [Txn(ts)]), p, Leaving))
      case (Fail(p), Writing(_, _, _)) => Some(With(s, p, Undoing(0)))
      case (Undo(p), Undoing(i)) =>
        if i < |Records(s.disk)| then
          Some(With(s.(disk := s.disk.(files := RestoreOne(s.disk.files, Records(s.disk)[i]))), p, Undoing(i + 1)))
        else Some(With(s.(disk := s.disk.(journal := NoJournal)), p, Leaving))
      case (GiveUp(p), _) => Some(With(s, p, Leaving))
      case (Release(p), Leaving) => Some(Without(s, p))
      case _ => None
  }

  /** What the holder's place in its program says about the disk. */
  ghost predicate PhaseOk(d: Disk, ph: Phase, base: Files, refused: set<Path>)
  {
    match ph
    case Checking(_) => true
    case Leaving => true
    case Working(_) => d.journal.NoJournal?
    case Restoring(_, i) => d.journal.Journal? && RestoredUpTo(d, i, base)
    case Undoing(i) => d.journal.Journal? && RestoredUpTo(d, i, base)
    case Writing(ts, view, i) =>
      d.journal.Journal? && i <= |ts| && view == TextsOf(base) && SameTexts(d.files, Written(base, ts[..i], view)) &&
      Covers(d.journal.targets, ts)
  }

  /** Every target has its pre-image in the journal. */
  ghost predicate Covers(recs: seq<Rec>, ts: seq<Target>)
  {
    forall k :: 0 <= k < |ts| ==> exists r :: r in recs && r.rel == ts[k].path
  }

  ghost predicate RestoredUpTo(d: Disk, i: nat, base: Files)
    requires d.journal.Journal?
  {
    forall k :: 0 <= k < i && k < |d.journal.targets| ==>
      TextAt(d.files, d.journal.targets[k].rel) == TextAt(base, d.journal.targets[k].rel)
  }

  ghost predicate Inv(s: State, init: Files, refused: set<Path>)
  {
    var base := Replay(init, s.log);
    CanRevert(s.disk, base) &&
    (forall p :: p in s.phases ==> s.holder == Some(p)) &&
    (forall p :: p in s.phases ==> PhaseOk(s.disk, s.phases[p], base, refused))
  }

  lemma {:induction false} ReplayOneMore(init: Files, log: seq<Op>, op: Op)
    ensures Replay(init, log + [op]) == Effect(Replay(init, log), op)
  {
    assert (log + [op])[..|log|] == log;
  }

  lemma {:induction false} EffectFollowsTexts(f: Files, g: Files, op: Op)
    requires SameTexts(f, g)
    ensures SameTexts(Effect(f, op), Effect(g, op))
  {
    SameTextsSameView(f, g);
    match op {
      case Plain(t) =>
        forall p ensures TextAt(Effect(f, op), p) == TextAt(Effect(g, op), p) {
          assert TextAt(f, p) == TextAt(g, p);
        }
      case Txn(ts) => WrittenFollowsTexts(f, g, ts, TextsOf(f));
    }
  }

  lemma {:induction false} WriteFollowsTexts(f: Files, g: Files, t: Target, view: Texts)
    requires SameTexts(f, g)
    ensures SameTexts(WriteOne(f, t, view), WriteOne(g, t, view))
  {
    forall p ensures TextAt(WriteOne(f, t, view), p) == TextAt(WriteOne(g, t, view), p) {
      assert TextAt(f, p) == TextAt(g, p);
    }
  }

  /** One record put back, by a recovery or by a rollback. */
  lemma {:induction false} RestoreStep(d: Disk, i: nat, base: Files)
    requires d.journal.Journal? && i < |d.journal.targets| && CanRevert(d, base) && RestoredUpTo(d, i, base)
    ensures var e := d.(files := RestoreOne(d.files, d.journal.targets[i]));
      CanRevert(e, base) && RestoredUpTo(e, i + 1, base)
  {
    var recs := d.journal.targets;
    RestoreKeepsRevertible(d.files, recs, base, recs[i]);
  }

  lemma {:induction false} AllRestored(d: Disk, i: nat, base: Files)
    requires d.journal.Journal? && i >= |d.journal.targets| && CanRevert(d, base) && RestoredUpTo(d, i, base)
    ensures CanRevert(d.(journal := NoJournal), base)
  {
    var recs := d.journal.targets;
    forall q ensures TextAt(d.files, q) == TextAt(base, q) {
      if r :| r in recs && r.rel == q {
        var k :| 0 <= k < |recs| && recs[k] == r;
      }
    }
  }

  /** A transaction's journal, just written. */
  lemma {:induction false} JournalStep(f: Files, base: Files, ts: seq<Target>, refused: set<Path>)
    requires SameTexts(f, base)
    ensures var d := Disk(f, Journal(PreImages(f, ts)));
      CanRevert(d, base) && PhaseOk(d, Writing(ts, TextsOf(f), 0), base, refused)
  {
    var recs := PreImages(f, ts);
    SameTextsSameView(f, base);
    FreshJournalIsRevertible(f, ts, recs);
    RevertsAcross(Disk(f, Journal(recs)), f, base);
    forall k | 0 <= k < |ts| ensures exists r :: r in recs && r.rel == ts[k].path {
      assert recs[k] in recs;
    }
  }

  /** One target written. */
  lemma {:induction false} WriteStep(d: Disk, ts: seq<Target>, view: Texts, i: nat, base: Files, refused: set<Path>)
    requires CanRevert(d, base) && PhaseOk(d, Writing(ts, view, i), base, refused) && i < |ts|
    ensures var e := d.(files := WriteOne(d.files, ts[i], view));
      CanRevert(e, base) && PhaseOk(e, Writing(ts, view, i + 1), base, refused)
  {
    WriteFollowsTexts(d.files, Written(base, ts[..i], view), ts[i], view);
    assert ts[..i + 1][..i] == ts[..i];
    TargetWritesAreRevertible(d.files, WriteOne(d.files, ts[i], view), d.journal.targets, base, ts[i].path);
  }

  /** The holder goes on to `ph`, the disk being `d` now. */
  lemma {:induction false} HolderMoves(s: State, p: nat, d: Disk, ph: Phase, init: Files, refused: set<Path>)
    requires Inv(s, init, refused) && p in s.phases
    requires CanRevert(d, Replay(init, s.log)) && PhaseOk(d, ph, Replay(init, s.log), refused)
    ensures Inv(With(s.(disk := d), p, ph), init, refused)
  {}

  lemma {:induction false} PlainKeeps(s: State, p: nat, t: Target, init: Files, refused: set<Path>)
    requires Inv(s, init, refused) && p in s.phases && s.phases[p] == Working(Plain(t))
    ensures Inv(Next(s, Begin(p), refused).value, init, refused)
  {
    ReplayOneMore(init, s.log, Plain(t));
    EffectFollowsTexts(s.disk.files, Replay(init, s.log), Plain(t));
  }

  lemma {:induction false} TxnKeeps(s: State, p: nat, ts: seq<Target>, init: Files, refused: set<Path>)
    requires Inv(s, init, refused) && p in s.phases && s.phases[p] == Working(Txn(ts))
    ensures Inv(Next(s, Begin(p), refused).value, init, refused)
  {
    var d := s.disk.(journal := Journal(PreImages(s.disk.files, ts)));
    var ph := Writing(ts, TextsOf(s.disk.files), 0);
    JournalStep(s.disk.files, Replay(init, s.log), ts, refused);
    HolderMoves(s, p, d, ph, init, refused);
    HolderMoves(s, p, s.disk, Leaving, init, refused);
    assert Next(s, Begin(p), refused).value ==
      if TargetsOk(ts, refused) then With(s.(disk := d), p, ph) else With(s.(disk := s.disk), p, Leaving);
  }

  lemma {:induction false} BeginKeeps(s: State, p: nat, init: Files, refused: set<Path>)
    requires Inv(s, init, refused) && Next(s, Begin(p), refused).Some?
    ensures Inv(Next(s, Begin(p), refused).value, init, refused)
  {
    match s.phases[p].op {
      case Plain(t) => PlainKeeps(s, p, t, init, refused);
      case Txn(ts) => TxnKeeps(s, p, ts, init, refused);
    }
  }

  lemma {:induction false} WriteKeeps(s: State, p: nat, init: Files, refused: set<Path>)
    requires Inv(s, init, refused) && Next(s, Write(p), refused).Some?
    ensures Inv(Next(s, Write(p), refused).value, init, refused)
  {
    var base := Replay(init, s.log);
    match s.phases[p] {
      case Writing(ts, view, i) =>
        if i < |ts| {
          WriteStep(s.disk, ts, view, i, base, refused);
        } else {
          assert ts[..i] == ts;
          ReplayOneMore(init, s.log, Txn(ts));
        }
    }
  }

  lemma {:induction false} RestoreKeeps(s: State, e: Event, p: nat, init: Files, refused: set<Path>)
    requires Inv(s, init, refused) && (e == Restore(p) || e == Undo(p)) && Next(s, e, refused).Some?
    ensures Inv(Next(s, e, refused).value, init, refused)
  {
    var base := Replay(init, s.log);
    var i := s.phases[p].next;
    if i < |s.disk.journal.targets| {
      RestoreStep(s.disk, i, base);
    } else {
      AllRestored(s.disk, i, base);
    }
  }

  /** Every step of every process keeps the invariant and only adds to the log. */
  lemma {:induction false} StepKeeps(s: State, e: Event, init: Files, refused: set<Path>)
    requires Inv(s, init, refused) && Next(s, e, refused).Some?
    ensures Inv(Next(s, e, refused).value, init, refused)
    ensures s.log <= Next(s, e, refused).value.log
  {
    match e {
      case Begin(p) => BeginKeeps(s, p, init, refused);
      case Write(p) => WriteKeeps(s, p, init, refused);
      case Restore(p) => RestoreKeeps(s, e, p, init, refused);
      case Undo(p) => RestoreKeeps(s, e, p, init, refused);
      case _ =>
    }
  }

  /** Steps that are not possible are skipped. */
  function Run(s: State, events: seq<Event>, refused: set<Path>): State
    decreases |events|
  {
    if events == [] then s
    else
      var next := Next(s, events[0], refused);
      Run(if next.Some? then next.value else s, events[1..], refused)
  }

  function Start(init: Files): State { State(Disk(init, NoJournal), None, map[], []) }

  lemma {:induction false} RunKeeps(s: State, events: seq<Event>, init: Files, refused: set<Path>)
    requires Inv(s, init, refused)
    ensures Inv(Run(s, events, refused), init, refused)
    ensures s.log <= Run(s, events, refused).log
    decreases |events|
  {
    if events != [] {
      var next := Next(s, events[0], refused);
      if next.Some? { StepKeeps(s, events[0], init, refused); }
      RunKeeps(if next.Some? then next.value else s, events[1..], init, refused);
    }
  }

  /**
   Serializability: in any run, whoever may read or write holds the lock alone, no journal is
   pending, and the files are exactly what the operations that took effect left, in their order.
   */
  lemma {:induction false} EveryGrantSeesWholeOperations(init: Files, events: seq<Event>, refused: set<Path>, p: nat)
    ensures var s := Run(Start(init), events, refused);
      p in s.phases && s.phases[p].Working? ==>
        (s.phases.Keys == {p} && s.disk.journal.NoJournal? && SameTexts(s.disk.files, Replay(init, s.log)))
  {
    RunKeeps(Start(init), events, init, refused);
  }

  /** What took effect stays in effect: no later crash, recovery or rollback takes it back. */
  lemma {:induction false} CommittedStays(init: Files, events: seq<Event>, more: seq<Event>, refused: set<Path>)
    ensures var s := Run(Start(init), events, refused);
      var t := Run(s, more, refused);
      s.log <= t.log && CanRevert(t.disk, Replay(init, t.log))
  {
    RunKeeps(Start(init), events, init, refused);
    RunKeeps(Run(Start(init), events, refused), more, init, refused);
  }
}
