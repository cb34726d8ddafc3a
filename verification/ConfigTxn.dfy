/**
 The journaled multi-file config transaction and its recovery, one durable step at a time
 (lhpc/core/config.py:1844-1899, 1959-2036). `trace` holds every durable state.
 */
module ConfigTxn {
  import opened ConfigStore

  datatype Recovery = Unnecessary | Recovered | Blocked
  datatype Outcome = Committed | RolledBack | Retained | Refused

  /** Recovery from here gives the texts of `was`. */
  ghost predicate CanRevert(d: Disk, was: Files)
  {
    match d.journal
    case NoJournal => SameTexts(d.files, was)
    case Broken => false
    case Journal(recs) => Revertible(d.files, recs, was)
  }

  ghost predicate RevertsSince(trace: seq<Disk>, k: nat, was: Files)
  {
    forall i :: k <= i < |trace| ==> CanRevert(trace[i], was)
  }

  /** The only journal ever there since step `k`. */
  ghost predicate JournalSince(trace: seq<Disk>, k: nat, j: JournalFile)
  {
    forall i :: k <= i < |trace| ==> trace[i].journal == j || trace[i].journal.NoJournal?
  }

  /** All old or all new: revertible to `was`, or committed. */
  ghost predicate AtomicSince(trace: seq<Disk>, k: nat, was: Files, now: Files)
  {
    forall i :: k <= i < |trace| ==> CanRevert(trace[i], was) || trace[i] == Disk(now, NoJournal)
  }

  predicate TargetsOk(targets: seq<Target>, refused: set<Path>)
  {
    forall i :: 0 <= i < |targets| ==> TargetOk(targets[i].kind, targets[i].path, refused)
  }

  function PreImages(f: Files, targets: seq<Target>): (recs: seq<Rec>)
    ensures |recs| == |targets| && forall i :: 0 <= i < |targets| ==> recs[i] == PreImage(f, targets[i])
  {
    if targets == [] then []
    else PreImages(f, targets[..|targets| - 1]) + [PreImage(f, targets[|targets| - 1])]
  }

  class Store {
    /** Paths that no target may name, and whether every file operation succeeds. */
    const refused: set<Path>
    const sound: bool
    var disk: Disk
    var trace: seq<Disk>

    constructor (d: Disk, unsafe: set<Path>, reliable: bool)
      ensures disk == d && refused == unsafe && sound == reliable && trace == []
    {
      disk, refused, sound, trace := d, unsafe, reliable, [];
    }

    method Put(d: Disk)
      modifies this
      ensures disk == d && trace == old(trace) + [d]
    {
      disk := d;
      trace := trace + [d];
    }

    /** One journal record put back; the atomic write or unlink may fail. */
    method Restore(r: Rec) returns (ok: bool)
      modifies this
      ensures sound ==> ok
      ensures disk == if ok then old(disk).(files := RestoreOne(old(disk).files, r)) else old(disk)
      ensures trace == if ok then old(trace) + [disk] else old(trace)
    {
      var fails: bool := *;
      ok := sound || !fails;
      if ok {
        Put(disk.(files := RestoreOne(disk.files, r)));
      }
    }

    method UnlinkJournal() returns (ok: bool)
      modifies this
      ensures sound ==> ok
      ensures disk == if ok then old(disk).(journal := NoJournal) else old(disk)
      ensures trace == if ok then old(trace) + [disk] else old(trace)
    {
      var fails: bool := *;
      ok := sound || !fails;
      if ok {
        Put(disk.(journal := NoJournal));
      }
    }

    /** Resolves every record before any file is touched. */
    method ResolveAll(recs: seq<Rec>) returns (ok: bool)
      ensures ok <==> Distinct(recs) && forall r :: r in recs ==> RecOk(r, refused)
    {
      var seen: set<Path> := {};
      for i := 0 to |recs|
        invariant seen == set k | 0 <= k < i :: recs[k].rel
        invariant Distinct(recs[..i]) && forall r :: r in recs[..i] ==> RecOk(r, refused)
      {
        assert recs[i] in recs && recs[..i + 1] == recs[..i] + [recs[i]];
        if !RecOk(recs[i], refused) || recs[i].rel in seen {
          return false;
        }
        seen := seen + {recs[i].rel};
      }
      assert recs[..|recs|] == recs;
      return true;
    }

    /** Puts every record back, in order. */
    method RestoreAll(recs: seq<Rec>, ghost was: Files) returns (ok: bool)
      requires disk.journal == Journal(recs)
      modifies this
      ensures disk.journal == old(disk).journal && old(trace) <= trace && (sound ==> ok)
      ensures JournalSince(trace, |old(trace)|, disk.journal)
      ensures Revertible(old(disk).files, recs, was) ==>
        Revertible(disk.files, recs, was) && RevertsSince(trace, |old(trace)|, was) &&
          (ok ==> SameTexts(disk.files, was))
    {
      ghost var holds := Revertible(disk.files, recs, was);
      for i := 0 to |recs|
        invariant disk.journal == Journal(recs) && old(trace) <= trace
        invariant JournalSince(trace, |old(trace)|, disk.journal)
        invariant holds ==> Revertible(disk.files, recs, was) && RevertsSince(trace, |old(trace)|, was)
        invariant holds ==> forall k :: 0 <= k < i ==> TextAt(disk.files, recs[k].rel) == TextAt(was, recs[k].rel)
      {
        if holds { RestoreKeepsRevertible(disk.files, recs, was, recs[i]); }
        ok := Restore(recs[i]);
        if !ok { return; }
      }
      ok := true;
    }

    /** `recover_config_transaction`. */
    method Recover(ghost was: Files) returns (v: Recovery)
      modifies this
      ensures v == Unnecessary <==> old(disk).journal.NoJournal?
      ensures v == Recovered ==> disk.journal.NoJournal? && Recoverable(old(disk).journal, refused)
      ensures v == Blocked ==> disk.journal == old(disk).journal
      ensures !Recoverable(old(disk).journal, refused) ==> disk == old(disk) && trace == old(trace)
      ensures sound && Recoverable(old(disk).journal, refused) ==> v == Recovered
      ensures old(trace) <= trace && JournalSince(trace, |old(trace)|, old(disk).journal)
      ensures CanRevert(old(disk), was) ==> CanRevert(disk, was) && RevertsSince(trace, |old(trace)|, was)
    {
      if disk.journal.NoJournal? { return Unnecessary; }
      if disk.journal.Broken? || disk.journal.targets == [] { return Blocked; }
      var recs := disk.journal.targets;
      var ok := ResolveAll(recs);
      if !ok { return Blocked; }
      ok := RestoreAll(recs, was);
      if !ok { return Blocked; }
      ok := UnlinkJournal();
      v := if ok then Recovered else Blocked;
    }

    /** Journals every pre-image; no target is written yet. */
    method WriteJournal(targets: seq<Target>) returns (ok: bool)
      requires disk.journal.NoJournal?
      modifies this
      ensures sound ==> (ok <==> TargetsOk(targets, refused))
      ensures ok ==> TargetsOk(targets, refused)
      ensures ok ==> disk == old(disk).(journal := Journal(PreImages(old(disk).files, targets)))
      ensures !ok ==> disk == old(disk)
      ensures trace == if ok then old(trace) + [disk] else old(trace)
    {
      var recs := [];
      for i := 0 to |targets|
        invariant recs == PreImages(disk.files, targets[..i])
      {
        var unreadable: bool := *;
        if unreadable && !sound { return false; }
        assert targets[..i + 1][..i] == targets[..i];
        recs := recs + [PreImage(disk.files, targets[i])];
      }
      assert targets[..|targets|] == targets;
      for i := 0 to |recs|
        invariant forall k :: 0 <= k < i ==> TargetOk(targets[k].kind, targets[k].path, refused)
      {
        if !RecOk(recs[i], refused) { return false; }
      }
      var fails: bool := *;
      if fails && !sound { return false; }
      Put(disk.(journal := Journal(recs)));
      return true;
    }

    /** Everything is rendered before anything is written; nothing is written when a body raises. */
    method RenderAll(targets: seq<Target>) returns (bodies: seq<Rendered>, ok: bool)
      ensures ok <==> Renders(targets, TextsOf(disk.files))
      ensures ok ==> |bodies| == |targets|
      ensures ok ==> forall i :: 0 <= i < |targets| ==> bodies[i] == targets[i].body(TextsOf(disk.files))
    {
      var view := TextsOf(disk.files);
      bodies := [];
      for i := 0 to |targets|
        invariant |bodies| == i && forall k :: 0 <= k < i ==> bodies[k] == targets[k].body(view) && !bodies[k].Raises?
      {
        var body := targets[i].body(view);
        if body.Raises? { return bodies, false; }
        bodies := bodies + [body];
      }
      for i := 0 to |targets|
        invariant forall k :: 0 <= k < i ==> (bodies[k].Remove? ==> targets[k].kind == "state")
      {
        if bodies[i].Remove? && targets[i].kind != "state" { return bodies, false; }
      }
      ok := true;
    }

    /** One target written, removed or withdrawn. */
    method WriteTarget(t: Target, body: Rendered, ghost view: Texts) returns (ok: bool)
      requires body == t.body(view)
      modifies this
      ensures sound ==> ok
      ensures disk == if ok then old(disk).(files := WriteOne(old(disk).files, t, view)) else old(disk)
      ensures trace == old(trace) || trace == old(trace) + [disk]
    {
      var fails: bool := *;
      match body {
        case Text(s) =>
          if fails && !sound { return false; }
          Put(disk.(files := disk.files[t.path := Content(s, t.mode)]));
        case Remove =>
          if fails && !sound { return false; }
          Put(disk.(files := disk.files - {t.path}));
        case _ =>
      }
      ok := true;
    }

    /** The writes themselves. */
    method WriteAll(targets: seq<Target>, bodies: seq<Rendered>, ghost was: Files) returns (ok: bool)
      requires disk == Disk(was, Journal(PreImages(was, targets))) && |bodies| == |targets|
      requires forall i :: 0 <= i < |targets| ==> bodies[i] == targets[i].body(TextsOf(was))
      modifies this
      ensures disk.journal == old(disk).journal && old(trace) <= trace && (sound ==> ok)
      ensures JournalSince(trace, |old(trace)|, disk.journal)
      ensures ok ==> disk.files == Written(was, targets, TextsOf(was))
      ensures Revertible(disk.files, PreImages(was, targets), was) && RevertsSince(trace, |old(trace)|, was)
    {
      ghost var recs := PreImages(was, targets);
      FreshJournalIsRevertible(was, targets, recs);
      for i := 0 to |targets|
        invariant disk.journal == Journal(recs) && old(trace) <= trace
        invariant JournalSince(trace, |old(trace)|, disk.journal)
        invariant disk.files == Written(was, targets[..i], TextsOf(was))
        invariant Revertible(disk.files, recs, was) && RevertsSince(trace, |old(trace)|, was)
      {
        OneMoreTarget(was, targets, i, disk.files);
        ok := WriteTarget(targets[i], bodies[i], TextsOf(was));
        if !ok { return; }
      }
      assert targets[..|targets|] == targets;
      ok := true;
    }

    /** Render, then write. */
    method Execute(targets: seq<Target>, ghost was: Files) returns (ok: bool)
      requires disk == Disk(was, Journal(PreImages(was, targets)))
      modifies this
      ensures disk.journal == old(disk).journal && old(trace) <= trace
      ensures ok ==> Renders(targets, TextsOf(was))
      ensures sound && Renders(targets, TextsOf(was)) ==> ok
      ensures JournalSince(trace, |old(trace)|, disk.journal)
      ensures ok ==> disk.files == Written(was, targets, TextsOf(was))
      ensures Revertible(disk.files, PreImages(was, targets), was) && RevertsSince(trace, |old(trace)|, was)
    {
      FreshJournalIsRevertible(was, targets, PreImages(was, targets));
      var bodies;
      bodies, ok := RenderAll(targets);
      if ok {
        ok := WriteAll(targets, bodies, was);
      }
    }

    /** Puts every pre-image back; the journal stays when that cannot be finished. */
    method RollBack(recs: seq<Rec>, ghost was: Files) returns (out: Outcome)
      requires disk.journal == Journal(recs) && Revertible(disk.files, recs, was)
      modifies this
      ensures out == RolledBack || (out == Retained && !sound)
      ensures out == RolledBack ==> disk.journal.NoJournal? && SameTexts(disk.files, was)
      ensures out == Retained ==> disk.journal == old(disk).journal && CanRevert(disk, was)
      ensures old(trace) <= trace && RevertsSince(trace, |old(trace)|, was)
      ensures JournalSince(trace, |old(trace)|, old(disk).journal)
    {
      var ok := RestoreAll(recs, was);
      if !ok { return Retained; }
      ok := UnlinkJournal();
      return if ok then RolledBack else Retained;
    }

    /** The transaction body, no journal pending. */
    method ApplyClean(targets: seq<Target>) returns (out: Outcome)
      requires disk.journal.NoJournal?
      modifies this
      ensures out == Committed ==> disk == Disk(Written(old(disk).files, targets, TextsOf(old(disk).files)), NoJournal)
      ensures out == Committed ==> TargetsOk(targets, refused) && Renders(targets, TextsOf(old(disk).files))
      ensures out == RolledBack ==> disk.journal.NoJournal? && SameTexts(disk.files, old(disk).files)
      ensures out == Retained ==>
        disk.journal == Journal(PreImages(old(disk).files, targets)) && CanRevert(disk, old(disk).files)
      ensures out == Refused ==> disk == old(disk) && trace == old(trace)
      ensures sound ==> out == (if !TargetsOk(targets, refused) then Refused
                                else if Renders(targets, TextsOf(old(disk).files)) then Committed else RolledBack)
      ensures old(trace) <= trace
      ensures JournalSince(trace, |old(trace)|, Journal(PreImages(old(disk).files, targets)))
      ensures AtomicSince(trace, |old(trace)|, old(disk).files,
                          Written(old(disk).files, targets, TextsOf(old(disk).files)))
    {
      ghost var was := disk.files;
      var ok := WriteJournal(targets);
      if !ok { return Refused; }
      var recs := disk.journal.targets;
      FreshJournalIsRevertible(was, targets, recs);
      ok := Execute(targets, was);
      if !ok {
        out := RollBack(recs, was);
        return;
      }
      ok := UnlinkJournal();
      return if ok then Committed else Retained;
    }

    /** `_apply_config_transaction_locked`: finish what is pending, then apply. */
    method Apply(targets: seq<Target>, ghost was: Files) returns (out: Outcome)
      requires disk.journal.NoJournal? || Recoverable(disk.journal, refused) ==> CanRevert(disk, was)
      modifies this
      ensures old(trace) <= trace
      ensures !old(disk).journal.NoJournal? && !Recoverable(old(disk).journal, refused) ==>
        out == Refused && disk == old(disk) && trace == old(trace)
      ensures sound && (old(disk).journal.NoJournal? || Recoverable(old(disk).journal, refused)) ==>
        out == (if !TargetsOk(targets, refused) then Refused
                else if Renders(targets, TextsOf(was)) then Committed else RolledBack)
      ensures out == Committed ==>
        disk.journal.NoJournal? && SameTexts(disk.files, Written(was, targets, TextsOf(was)))
      ensures out == RolledBack ==> disk.journal.NoJournal? && SameTexts(disk.files, was)
      ensures out == Retained ==> disk.journal.Journal? && CanRevert(disk, was)
      ensures out == Refused && CanRevert(old(disk), was) ==> CanRevert(disk, was)
    {
      var v := Recover(was);
      if v == Blocked { return Refused; }
      SameTextsSameView(disk.files, was);
      WrittenFollowsTexts(disk.files, was, targets, TextsOf(was));
      ghost var clean := disk.files;
      out := ApplyClean(targets);
      if out == RolledBack || out == Retained { RevertsAcross(disk, clean, was); }
    }

    /** Power is lost at some step: the first `cut` durable states happened, the rest did not. */
    method Crash(first: Disk, k: nat, cut: nat)
      requires k <= |trace|
      modifies this
      ensures disk == if k < cut <= |old(trace)| then old(trace)[cut - 1] else first
    {
      disk := if k < cut <= |trace| then trace[cut - 1] else first;
      trace := [];
    }

    /**
     Cut off at any step, then recovered, with any number of further cuts: every file has its old
     text, or every target its new one.
     */
    method ApplyThroughCrashes(targets: seq<Target>, cut: nat, cuts: seq<nat>) returns (v: Recovery)
      requires disk.journal.NoJournal? && sound
      requires TargetsOk(targets, refused) ==> DistinctPaths(targets) && targets != []
      modifies this
      ensures v != Blocked && disk.journal.NoJournal?
      ensures SameTexts(disk.files, old(disk).files) ||
        disk.files == Written(old(disk).files, targets, TextsOf(old(disk).files))
    {
      var first, k := disk, |trace|;
      ghost var was := disk.files;
      ghost var now := Written(was, targets, TextsOf(was));
      if TargetsOk(targets, refused) { OwnJournalIsRecoverable(was, targets, refused); }
      var out := ApplyClean(targets);
      Crash(first, k, cut);
      for i := 0 to |cuts|
        invariant CanRevert(disk, was) || disk == Disk(now, NoJournal)
        invariant disk.journal.NoJournal? ||
          (disk.journal == Journal(PreImages(was, targets)) && TargetsOk(targets, refused))
      {
        first, k := disk, |trace|;
        v := Recover(was);
        Crash(first, k, cuts[i]);
      }
      v := Recover(was);
    }
  }

  predicate DistinctPaths(targets: seq<Target>)
  {
    forall i, k :: 0 <= i < k < |targets| ==> targets[i].path != targets[k].path
  }

  lemma {:induction false} OneMoreTarget(was: Files, targets: seq<Target>, i: nat, f: Files)
    requires i < |targets| && f == Written(was, targets[..i], TextsOf(was))
    requires Revertible(f, PreImages(was, targets), was)
    ensures WriteOne(f, targets[i], TextsOf(was)) == Written(was, targets[..i + 1], TextsOf(was))
    ensures Revertible(WriteOne(f, targets[i], TextsOf(was)), PreImages(was, targets), was)
  {
    var recs := PreImages(was, targets);
    assert targets[..i + 1][..i] == targets[..i];
    assert recs[i] in recs && recs[i].rel == targets[i].path;
    TargetWritesAreRevertible(f, WriteOne(f, targets[i], TextsOf(was)), recs, was, targets[i].path);
  }

  lemma {:induction false} RevertsAcross(d: Disk, f: Files, g: Files)
    requires CanRevert(d, f) && SameTexts(f, g)
    ensures CanRevert(d, g)
  {
    forall p ensures TextAt(f, p) == TextAt(g, p) && (p in f <==> p in g) {}
  }

  lemma {:induction false} WrittenFollowsTexts(f: Files, g: Files, targets: seq<Target>, view: Texts)
    requires SameTexts(f, g)
    ensures SameTexts(Written(f, targets, view), Written(g, targets, view))
  {
    if targets != [] {
      var rest := targets[..|targets| - 1];
      WrittenFollowsTexts(f, g, rest, view);
      forall p ensures TextAt(Written(f, targets, view), p) == TextAt(Written(g, targets, view), p) {
        assert TextAt(Written(f, rest, view), p) == TextAt(Written(g, rest, view), p);
      }
    }
  }

  /** The journal a transaction writes can be recovered exactly when its targets are distinct and some. */
  lemma {:induction false} OwnJournalIsRecoverable(f: Files, targets: seq<Target>, refused: set<Path>)
    requires TargetsOk(targets, refused)
    ensures Recoverable(Journal(PreImages(f, targets)), refused) <==> DistinctPaths(targets) && targets != []
  {
    var recs := PreImages(f, targets);
    forall i, k | 0 <= i < k < |targets|
      ensures (recs[i].rel == recs[k].rel) <==> (targets[i].path == targets[k].path)
    {}
    forall r | r in recs ensures RecOk(r, refused) {
      var i :| 0 <= i < |recs| && recs[i] == r;
      assert recs[i] == PreImage(f, targets[i]);
    }
  }

  /** The same target twice: a journal no recovery acts on. */
  lemma {:induction false} TwiceIsNotRecoverable(f: Files) returns (ts: seq<Target>)
    ensures TargetsOk(ts, {}) && !Recoverable(Journal(PreImages(f, ts)), {})
  {
    var t := Target("local", ["config", "local.toml"], _ => Withdraw, 420);
    ts := [t, t];
    assert TargetsOk(ts, {});
    OwnJournalIsRecoverable(f, ts, {});
    assert ts[0].path == ts[1].path;
  }
}
