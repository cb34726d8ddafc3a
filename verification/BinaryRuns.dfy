/**
 Whole installs: any sequence of the transaction's operations, cut off anywhere, then recovered
 (lhpc/core/binary_install.py:554-724).
 */
module BinaryRuns {
  import opened Options
  import opened BinaryTxn
  import opened BinaryInstall
  import opened BinaryRollback

  datatype Op =
    | DoDisplace(rels: set<Path>)
    | DoDisplaceDir(dir: Path)
    | DoCreateDir(dir: Path)
    | DoBuild(at: Path, leaf: Leaf)
    | DoPublish(files: set<Path>, staged: map<Path, string>)

  /** `WellFormed`, over the entries themselves. */
  predicate NamesApart(j: Journal)
  {
    (forall q :: q in j.removed + j.backups ==> Outside(j.txn, q) && !(q <= Area(j.txn))) &&
    (forall q :: q in j.created ==> Outside(j.txn, q)) &&
    (forall d :: d in j.dirs ==> d != [] && !(d <= Area(j.txn)) && Outside(j.txn, d)) &&
    (forall d :: d in j.createdDirs ==> d != [] && !(d <= Area(j.txn)) && Outside(j.txn, d)) &&
    (forall p, q :: p in j.removed + j.backups && q in j.removed + j.backups && Flat(p) == Flat(q) ==> p == q) &&
    (forall d, e :: d in j.dirs && e in j.dirs && Flat(d) == Flat(e) ==> d == e) &&
    (forall q, d :: q in j.removed + j.backups && d in j.dirs ==> Flat(q) != Flat(d) + ".dir")
  }

  lemma {:induction false} NamesApartIsWellFormed(j: Journal)
    ensures NamesApart(j) <==> WellFormed(j)
  {
    assert forall q :: FileJournaled(j, q) <==> q in j.removed + j.backups;
  }

  /** The side conditions under which the operation can be undone. */
  predicate Admitted(op: Op, j: Journal, t: Tree)
  {
    match op
    case DoDisplace(rels) =>
      NamesApart(j.(removed := j.removed + Planned(t, rels))) && forall r :: r in Planned(t, rels) ==> Movable(j, t, r)
    case DoDisplaceDir(d) =>
      IsDir(t, d) ==>
        (NamesApart(j.(dirs := j.dirs + [d])) && CoverOf(j, t, d).None? && !IsDir(t, DirBackup(j.txn, d)) &&
        NothingToUndoUnder(j, t, d))
    case DoCreateDir(d) =>
      NamesApart(j.(createdDirs := j.createdDirs + {d})) && OnlyOursUnder(j, t, d)
    case DoBuild(q, _) =>
      CanBuild(j, t, q)
    case DoPublish(files, staged) =>
      files <= staged.Keys && j.backups == {} && NamesApart(Noted(j, t, files)) &&
      forall r :: r in files ==> Outside(j.txn, r) && if IsFile(t, r) then Movable(j, t, r) else r !in t
  }

  /** One operation, the side conditions holding. */
  method Perform(inst: Installer, op: Op, ghost before: Tree)
    requires inst.Undo(before) && inst.Recorded() && Admitted(op, inst.journal.value, inst.tree)
    modifies inst
    ensures inst.Recorded() && old(inst.trace) <= inst.trace && inst.UndoSince(|old(inst.trace)|, before)
  {
    var j := inst.journal.value;
    match op {
      case DoDisplace(rels) =>
        NamesApartIsWellFormed(j.(removed := j.removed + Planned(inst.tree, rels)));
        var planned := inst.Displace(rels, before);
      case DoDisplaceDir(d) =>
        NamesApartIsWellFormed(j.(dirs := j.dirs + [d]));
        var moved := inst.DisplaceDir(d, before);
      case DoCreateDir(d) =>
        NamesApartIsWellFormed(j.(createdDirs := j.createdDirs + {d}));
        inst.NoteCreatedDir(d, before);
      case DoBuild(q, leaf) =>
        inst.Build(q, leaf, before);
      case DoPublish(files, staged) =>
        NamesApartIsWellFormed(Noted(j, inst.tree, files));
        var ok := inst.Publish(files, staged, before);
    }
  }

  /** Opens a transaction and performs the operations in order; one whose side conditions fail ends it. */
  method Install(inst: Installer, txn: string, ops: seq<Op>)
    requires inst.journal == None && inst.Recorded() && forall p :: p in inst.tree ==> Outside(txn, p)
    modifies inst
    ensures inst.Recorded() && old(inst.trace) <= inst.trace && inst.UndoSince(|old(inst.trace)|, old(inst.tree))
  {
    ghost var before, n := inst.tree, |inst.trace|;
    inst.OpenTxn(txn);
    for i := 0 to |ops|
      invariant inst.Recorded() && old(inst.trace) <= inst.trace && inst.UndoSince(n, before)
    {
      if !Admitted(ops[i], inst.journal.value, inst.tree) { return; }
      ghost var sofar := inst.trace;
      Perform(inst, ops[i], before);
      forall k | n <= k < |inst.trace| ensures CanUndo(inst.trace[k], before) {
        if k < |sofar| { assert inst.trace[k] == sofar[k]; }
      }
    }
  }

  /** An install cut off after any number of states leaves the old tree, or a journal a rollback can follow. */
  method InstallThenCrash(inst: Installer, txn: string, ops: seq<Op>, cut: nat)
    requires inst.journal == None && inst.Recorded() && forall p :: p in inst.tree ==> Outside(txn, p)
    modifies inst
    ensures inst.Recorded() && (inst.journal == None ==> inst.tree == old(inst.tree))
    ensures inst.journal.Some? ==> inst.Undo(old(inst.tree))
    ensures |inst.trace| > |old(inst.trace)| ==> |inst.trace| == cut
  {
    ghost var before := inst.tree;
    var n := |inst.trace|;
    Install(inst, txn, ops);
    ghost var all := inst.trace;
    assert all[n - 1] == Durable(None, before);
    inst.Crash(n, cut);
    ghost var last := |inst.trace| - 1;
    assert inst.trace[last] == all[last];
    assert last >= n ==> CanUndo(all[last], before);
  }

  /** Any install, cut off at any step, then rolled back: exactly the files that were there. */
  method InstallThenRollBack(inst: Installer, txn: string, ops: seq<Op>, cut: nat) returns (ok: bool)
    requires inst.journal == None && inst.Recorded() && forall p :: p in inst.tree ==> Outside(txn, p)
    requires ProperTree(inst.tree)
    modifies inst
    ensures ok
    ensures if inst.journal == None then inst.tree == old(inst.tree)
            else Agree(inst.journal.value.txn, inst.tree, old(inst.tree))
  {
    ghost var before := inst.tree;
    InstallThenCrash(inst, txn, ops, cut);
    ok := true;
    if inst.journal.Some? {
      ok := RollbackFiles(inst, before);
    }
  }

  /** ... and with any number of crashes inside the rollbacks, where a rollback may be run again. */
  method InstallThroughCrashes(inst: Installer, txn: string, ops: seq<Op>, cut: nat, cuts: seq<nat>)
    returns (repeatable: bool)
    requires inst.journal == None && inst.Recorded() && forall p :: p in inst.tree ==> Outside(txn, p)
    requires ProperTree(inst.tree)
    modifies inst
    ensures repeatable <==> (inst.journal.Some? ==> RerunSafe(inst.journal.value, old(inst.tree)))
    ensures repeatable ==> if inst.journal == None then inst.tree == old(inst.tree)
                           else Agree(inst.journal.value.txn, inst.tree, old(inst.tree))
  {
    var before := inst.tree;
    InstallThenCrash(inst, txn, ops, cut);
    if inst.journal == None { return true; }
    repeatable := RerunSafe(inst.journal.value, before);
    if repeatable {
      RecoverThroughCrashes(inst, cuts, before);
    }
  }
}
