/**
 The operations of the binary-install transaction, step by step on a journal and a tree, and the
 recovery that undoes them (lhpc/core/binary_install.py).
 */
module BinaryInstall {
  import opened Options
  import opened BinaryTxn

  datatype Durable = Durable(journal: Option<Journal>, tree: Tree)

  /** A crash here leaves something `rollback_files` turns back into `before`. */
  ghost predicate CanUndo(s: Durable, before: Tree)
  {
    s.journal.Some? && Undoable(s.journal.value, s.tree, before)
  }

  /** A leaf of the operator's that the transaction may move aside. */
  predicate Movable(j: Journal, t: Tree, r: Path)
  {
    r in t && Outside(j.txn, r) && CoverOf(j, t, r).None? && !InCreatedDir(j, r) &&
    !(r in j.created && IsFile(t, r)) && FileBackup(j.txn, r) !in t && (t[r].Regular? || t[r].kept)
  }

  /** Something the transaction itself would remove or replace at `q`. */
  predicate Ours(j: Journal, t: Tree, q: Path)
  {
    (FileJournaled(j, q) && Backed(j, t, q)) || CoverOf(j, t, q).Some? || InCreatedDir(j, q) ||
    (q in j.created && IsFile(t, q))
  }

  lemma {:induction false} MovableStays(j: Journal, t: Tree, q: Path)
    requires Movable(j, t, q)
    ensures Unwound(j, t, q) == Some(t[q])
  {}

  /** A journal write changes the outcome only through the entries that already apply. */
  lemma {:induction false} JournalGrows(j: Journal, k: Journal, t: Tree, q: Path)
    requires k.txn == j.txn
    requires forall d :: DirBacked(k, t, d) == DirBacked(j, t, d)
    requires (FileJournaled(k, q) && Backed(k, t, q)) == (FileJournaled(j, q) && Backed(j, t, q))
    ensures CoverOf(k, t, q) == CoverOf(j, t, q)
    ensures (FileJournaled(j, q) && Backed(j, t, q)) || CoverOf(j, t, q).Some? ==>
      Unwound(k, t, q) == Unwound(j, t, q)
    ensures (InCreatedDir(k, q) || (q in k.created && IsFile(t, q)) <==>
             InCreatedDir(j, q) || (q in j.created && IsFile(t, q))) ==> Unwound(k, t, q) == Unwound(j, t, q)
  {
    if |q| > 0 { SameDirsSameCover(j, t, k, t, q, |q| - 1); }
  }

  lemma {:induction false} UndoAcrossJournal(j: Journal, k: Journal, t: Tree, before: Tree)
    requires Undoable(j, t, before) && WellFormed(k) && !k.committed && k.txn == j.txn
    requires forall q :: Outside(j.txn, q) ==> Unwound(k, t, q) == Unwound(j, t, q)
    ensures Undoable(k, t, before)
  {}

  /** Journaling files before they move: their backups are not there yet. */
  lemma {:induction false} NoteFiles(j: Journal, k: Journal, t: Tree, before: Tree)
    requires Undoable(j, t, before) && WellFormed(k)
    requires k.txn == j.txn && k.dirs == j.dirs && k.createdDirs == j.createdDirs && !k.committed
    requires forall q :: FileJournaled(k, q) && Backed(k, t, q) <==> FileJournaled(j, q) && Backed(j, t, q)
    requires forall q :: q in k.created && q !in j.created ==> q !in t
    requires j.created <= k.created
    ensures Undoable(k, t, before)
    ensures forall r :: Movable(j, t, r) ==> Movable(k, t, r)
  {
    forall q ensures Unwound(k, t, q) == Unwound(j, t, q) && CoverOf(k, t, q) == CoverOf(j, t, q) {
      JournalGrows(j, k, t, q);
    }
    UndoAcrossJournal(j, k, t, before);
  }

  /** One rename of a journaled file keeps the way back, and the other files movable. */
  lemma {:induction false} MoveOneFile(k: Journal, t: Tree, r: Path, todo: set<Path>, files: set<Path>, before: Tree)
    requires Undoable(k, t, before) && r in todo && Movable(k, t, r)
    requires forall x :: x in todo ==> FileJournaled(k, x) && Movable(k, t, x)
    ensures var next := MoveLeaf(t, r, FileBackup(k.txn, r));
      Undoable(k, next, before) && Backed(k, next, r) &&
      (forall x :: x in todo - {r} ==> Movable(k, next, x)) &&
      (forall x :: x in files && Backed(k, t, x) ==> Backed(k, next, x))
  {
    var next := MoveLeaf(t, r, FileBackup(k.txn, r));
    InArea(k.txn, r, []);
    forall q | Outside(k.txn, q) ensures Unwound(k, next, q) == Lookup(before, q) {
      FileMove(k, t, r, q);
      if q == r { MovableStays(k, t, q); }
    }
    forall x | x in todo - {r} ensures Movable(k, next, x) {
      FileMove(k, t, r, x);
      BackupsApart(k, r, x);
    }
    forall x | x in files && Backed(k, t, x) ensures Backed(k, next, x) {
      InArea(k.txn, x, []);
    }
  }

  lemma {:induction false} SetAsideJournal(j: Journal, k: Journal, d: Path, t: Tree, before: Tree)
    requires Undoable(j, t, before) && WellFormed(k)
    requires k == j || k == j.(dirs := j.dirs + [d])
    requires !IsDir(t, DirBackup(j.txn, d))
    ensures Undoable(k, t, before)
    ensures forall q :: CoverOf(k, t, q) == CoverOf(j, t, q)
  {
    forall q ensures Unwound(k, t, q) == Unwound(j, t, q) && CoverOf(k, t, q) == CoverOf(j, t, q) {
      JournalGrows(j, k, t, q);
    }
    UndoAcrossJournal(j, k, t, before);
  }

  /** A directory is journaled once, however often it is set aside. */
  function WithDir(j: Journal, d: Path): (k: Journal)
    ensures d in k.dirs && k.txn == j.txn
  {
    if d in j.dirs then j else j.(dirs := j.dirs + [d])
  }

  /** The rename of a directory keeps the way back exactly when nothing under it was waiting to be undone. */
  lemma {:induction false} SetAsideExactly(k: Journal, d: Path, t: Tree, before: Tree)
    requires Undoable(k, t, before) && d in k.dirs && CoverOf(k, t, d).None? && !DirBacked(k, t, d)
    ensures Undoable(k, MoveDir(t, d, DirBackup(k.txn, d)), before) <==> NothingToUndoUnder(k, t, d)
  {
    var next := MoveDir(t, d, DirBackup(k.txn, d));
    if NothingToUndoUnder(k, t, d) {
      SetAside(k, d, t, before);
    } else {
      var q :| q in t && d < q && !(FileJournaled(k, q) && Backed(k, t, q)) && CoverOf(k, t, q).None? &&
        (InCreatedDir(k, q) || (q in k.created && IsFile(t, q)));
      NotIntoArea(k, d, q);
      SetAsideHasBackup(k, t, d, q);
      DirMoveAside(k, t, d, q);
      assert Unwound(k, t, q) == None && Unwound(k, next, q) == Some(t[q]);
    }
  }

  /** Noting a directory as created keeps the way back exactly when nothing of the operator's is under it. */
  lemma {:induction false} CreatedDirExactly(j: Journal, d: Path, t: Tree, before: Tree)
    requires Undoable(j, t, before) && WellFormed(j.(createdDirs := j.createdDirs + {d}))
    ensures Undoable(j.(createdDirs := j.createdDirs + {d}), t, before) <==> OnlyOursUnder(j, t, d)
  {
    var k := j.(createdDirs := j.createdDirs + {d});
    forall q | Outside(j.txn, q) && (OnlyOursUnder(j, t, d) || !(d < q)) ensures Unwound(k, t, q) == Unwound(j, t, q) {
      JournalGrows(j, k, t, q);
    }
    if q :| q in t && d < q && !Ours(j, t, q) {
      NotIntoArea(k, d, q);
      JournalGrows(j, k, t, q);
      assert Unwound(j, t, q) == Some(t[q]) && Unwound(k, t, q) == None;
    }
  }

  /** The rename of a directory keeps the way back. */
  lemma {:induction false} SetAside(k: Journal, d: Path, t: Tree, before: Tree)
    requires Undoable(k, t, before) && d in k.dirs && CoverOf(k, t, d).None? && !DirBacked(k, t, d)
    requires NothingToUndoUnder(k, t, d)
    ensures var next := MoveDir(t, d, DirBackup(k.txn, d)); Undoable(k, next, before) && !IsDir(next, d)
  {
    var next := MoveDir(t, d, DirBackup(k.txn, d));
    forall q | Outside(k.txn, q) ensures Unwound(k, next, q) == Lookup(before, q) {
      DirMoveAside(k, t, d, q);
      if d < q && q in t { SetAsideHasBackup(k, t, d, q); }
    }
    forall q | d < q ensures q !in next {
      BackupIsElsewhere(k, d);
      Prefixes(d, DirBackup(k.txn, d), q);
      MoveDirLookup(t, d, DirBackup(k.txn, d), q);
    }
  }

  /** No live file under `d` is one a rollback would delete. */
  predicate NothingToUndoUnder(j: Journal, t: Tree, d: Path)
  {
    forall q :: q in t && d < q && !(FileJournaled(j, q) && Backed(j, t, q)) && CoverOf(j, t, q).None? ==>
      (!InCreatedDir(j, q) && !(q in j.created && IsFile(t, q)))
  }

  /** Any leaf that is not (a link to) a directory, dangling links included. */
  function Planned(t: Tree, rels: set<Path>): set<Path>
  {
    set r | r in rels && r in t && !(t[r].Link? && t[r].sees == ADirectory)
  }

  /** The published files that are there already, and the journal that says so. */
  function Over(t: Tree, files: set<Path>): set<Path> { set r | r in files && IsFile(t, r) }

  function Noted(j: Journal, t: Tree, files: set<Path>): Journal
  {
    j.(backups := Over(t, files), created := j.created + (files - Over(t, files)))
  }

  /** Backed up by an earlier publish, and dropped from the journal by the note of this one. */
  predicate Forgotten(j: Journal, t: Tree, files: set<Path>, r: Path)
  {
    r in j.backups && r !in j.removed && r !in Over(t, files) && Backed(j, t, r)
  }

  /**
   A publish replaces the journal's list of backed-up files. A second one can still be undone, as it
   is noted, exactly when everything the first one backed up would be given back without that entry.
   */
  lemma {:induction false} SecondPublishExactly(j: Journal, t: Tree, files: set<Path>, before: Tree)
    requires Undoable(j, t, before) && WellFormed(Noted(j, t, files))
    requires forall r :: r in files ==> if r in Over(t, files) then FileJournaled(j, r) || !Backed(j, t, r) else r !in t
    ensures Undoable(Noted(j, t, files), t, before) <==>
      forall r :: Forgotten(j, t, files, r) ==> Unwound(Noted(j, t, files), t, r) == Some(t[FileBackup(j.txn, r)])
  {
    var k := Noted(j, t, files);
    forall q | Outside(j.txn, q) && !Forgotten(j, t, files, q) ensures Unwound(k, t, q) == Unwound(j, t, q) {
      JournalGrows(j, k, t, q);
    }
    forall q | Forgotten(j, t, files, q)
      ensures Outside(j.txn, q) && Unwound(j, t, q) == Some(t[FileBackup(j.txn, q)])
    {
      assert FileJournaled(j, q);
    }
  }

  /** One file published over the operator's, then another one: the operator's is not given back. */
  lemma {:induction false} SecondPublishLoses()
    returns (j: Journal, t: Tree, before: Tree, files: set<Path>, r: Path)
    ensures Undoable(j, t, before) && r in before && WellFormed(Noted(j, t, files))
    ensures Unwound(Noted(j, t, files), t, r) != Lookup(before, r)
  {
    r, files := ["f"], {["g"]};
    j := Journal("t", {}, {r}, [], {}, {}, false);
    before := map[r := Regular("the operator's")];
    t := map[r := Regular("first"), FileBackup("t", r) := Regular("the operator's")];
    assert Area("t")[0] == "state" && |"f"| != |"state"| && |"g"| != |"state"|;
    assert Unwound(j, t, r) == Some(Regular("the operator's"));
    forall q | Outside(j.txn, q) ensures Unwound(j, t, q) == Lookup(before, q) {
      InArea("t", q, []);
    }
    assert Over(t, files) == {} && Unwound(Noted(j, t, files), t, r) == Some(Regular("first"));
  }

  /** Outside the backup area only `files` may differ. */
  ghost predicate OthersSame(txn: string, was: Tree, now: Tree, files: set<Path>)
  {
    forall q :: Outside(txn, q) && q !in files ==> Lookup(now, q) == Lookup(was, q)
  }

  lemma {:induction false} OthersStaySame(txn: string, was: Tree, t: Tree, files: set<Path>, r: Path)
    requires OthersSame(txn, was, t, files) && r in files && r in t
    ensures OthersSame(txn, was, MoveLeaf(t, r, FileBackup(txn, r)), files)
  {
    InArea(txn, r, []);
  }

  lemma {:induction false} OthersStaySameToo(txn: string, was: Tree, t: Tree, files: set<Path>, r: Path, leaf: Leaf)
    requires OthersSame(txn, was, t, files) && r in files
    ensures OthersSame(txn, was, t[r := leaf], files)
  {}

  // --- when a step can be undone -----------------------------------------------------------------

  /** Only files that may be moved, and all of them journaled. */
  ghost predicate MayMove(j: Journal, t: Tree, files: set<Path>, before: Tree)
  {
    Undoable(j, t, before) && forall r :: r in files ==> FileJournaled(j, r) && Movable(j, t, r)
  }

  /** Some are backed up, those of `todo` not yet. */
  ghost predicate Moving(j: Journal, t: Tree, files: set<Path>, todo: set<Path>, before: Tree)
  {
    MayMove(j, t, todo, before) && forall r :: r in files && r !in todo ==> Backed(j, t, r)
  }

  lemma {:induction false} MovingOneMore(j: Journal, t: Tree, files: set<Path>, todo: set<Path>, r: Path, before: Tree)
    requires Moving(j, t, files, todo, before) && todo <= files && r in todo
    ensures Moving(j, MoveLeaf(t, r, FileBackup(j.txn, r)), files, todo - {r}, before)
  {
    MoveOneFile(j, t, r, todo, files, before);
  }

  ghost predicate CanDisplace(j: Journal, t: Tree, rels: set<Path>)
  {
    WellFormed(j.(removed := j.removed + Planned(t, rels))) && forall r :: r in Planned(t, rels) ==> Movable(j, t, r)
  }

  /** A directory can be renamed to its backup: nothing is in the way, and it does not contain it. */
  predicate CanRename(txn: string, t: Tree, d: Path)
  {
    !IsDir(t, DirBackup(txn, d)) && DirBackup(txn, d) !in t && !(d <= DirBackup(txn, d))
  }

  /** What makes a directory safe to set aside: nothing under it is waiting to be undone. */
  ghost predicate CanSetAside(j: Journal, t: Tree, d: Path)
  {
    IsDir(t, d) ==>
      (WellFormed(j.(dirs := j.dirs + [d])) && CoverOf(j, t, d).None? && !IsDir(t, DirBackup(j.txn, d)) &&
      NothingToUndoUnder(j, t, d))
  }

  ghost predicate CanNote(j: Journal, t: Tree, d: Path)
  {
    WellFormed(j.(createdDirs := j.createdDirs + {d})) && OnlyOursUnder(j, t, d)
  }

  /** A path the transaction accounts for: in a displaced or created directory. */
  predicate CanBuild(j: Journal, t: Tree, q: Path)
  {
    Outside(j.txn, q) && (CoverOf(j, t, q).Some? || InCreatedDir(j, q))
  }

  /** Everything there is under `d` the transaction would remove or replace anyway. */
  predicate OnlyOursUnder(j: Journal, t: Tree, d: Path) { forall q :: q in t && d < q ==> Ours(j, t, q) }

  /** What `publish` may replace or create without losing anything of the operator's. */
  ghost predicate CanPublish(j: Journal, t: Tree, files: set<Path>)
  {
    j.backups == {} && WellFormed(Noted(j, t, files)) &&
    forall r :: r in files ==> Outside(j.txn, r) && if IsFile(t, r) then Movable(j, t, r) else r !in t
  }

  /** The published files have their backups, the new ones are noted and not there yet. */
  ghost predicate MayLand(j: Journal, t: Tree, files: set<Path>, over: set<Path>, before: Tree)
  {
    Undoable(j, t, before) && (forall r :: r in files ==> Outside(j.txn, r)) &&
    (forall r :: r in over ==> FileJournaled(j, r) && Backed(j, t, r)) &&
    forall r :: r in files && r !in over ==> r in j.created && r !in t
  }

  /** Where the renames stand: `order` were renamed, `todo` were not, nothing else changed. */
  ghost predicate Moved(txn: string, was: Tree, t: Tree, files: set<Path>, todo: set<Path>, order: seq<Path>)
  {
    todo <= files && todo <= t.Keys && (forall r :: r in files <==> r in order || r in todo) &&
    t == Away(txn, was, order) && OthersSame(txn, was, t, files) &&
    forall r :: r in files && r !in todo && Outside(txn, r) ==> r !in t
  }

  lemma {:induction false} MovedOneMore(txn: string, was: Tree, t: Tree, files: set<Path>, todo: set<Path>,
                                        order: seq<Path>, r: Path)
    requires Moved(txn, was, t, files, todo, order) && r in todo
    ensures Moved(txn, was, MoveLeaf(t, r, FileBackup(txn, r)), files, todo - {r}, order + [r])
  {
    InArea(txn, r, []);
    OthersStaySame(txn, was, t, files, r);
    assert (order + [r])[..|order|] == order;
  }

  /** What will be replaced is there, what will be new is noted and not there. */
  ghost predicate Fresh(j: Journal, t: Tree, files: set<Path>, over: set<Path>)
  {
    forall r :: r in files ==> Outside(j.txn, r) && (r !in over ==> r in j.created && r !in t)
  }

  lemma {:induction false} NotedMayMove(j: Journal, t: Tree, files: set<Path>, before: Tree)
    requires Undoable(j, t, before) && CanPublish(j, t, files)
    ensures MayMove(Noted(j, t, files), t, Over(t, files), before) &&
      Fresh(Noted(j, t, files), t, files, Over(t, files))
  {
    NoteFiles(j, Noted(j, t, files), t, before);
  }

  lemma {:induction false} MovedMayLand(k: Journal, t: Tree, u: Tree, files: set<Path>, over: set<Path>, before: Tree)
    requires MayMove(k, t, over, before) && Fresh(k, t, files, over) && Undoable(k, u, before)
    requires OthersSame(k.txn, t, u, over) && forall r :: r in over ==> Backed(k, u, r)
    ensures MayLand(k, u, files, over, before)
  {
    forall r | r in files && r !in over ensures r !in u {
      assert Lookup(u, r) == Lookup(t, r);
    }
  }

  class Installer {
    var journal: Option<Journal>
    var tree: Tree
    /** Every durable state so far; a crash takes the last ones back. */
    var trace: seq<Durable>

    constructor (t: Tree)
      ensures journal == None && tree == t && trace == [Durable(None, t)]
    {
      journal, tree, trace := None, t, [Durable(None, t)];
    }

    ghost predicate Recorded()
      reads this
    {
      trace != [] && trace[|trace| - 1] == Durable(journal, tree)
    }

    /** A rollback from here gives back `before`. */
    ghost predicate Undo(before: Tree)
      reads this
    {
      journal.Some? && Undoable(journal.value, tree, before)
    }

    /** ... and from every durable state since the `n`-th. */
    ghost predicate UndoSince(n: nat, before: Tree)
      reads this
    {
      Undo(before) && forall i :: n <= i < |trace| ==> CanUndo(trace[i], before)
    }

    method WriteJournal(j: Option<Journal>)
      modifies this
      ensures journal == j && tree == old(tree) && trace == old(trace) + [Durable(j, tree)]
    {
      journal := j;
      trace := trace + [Durable(journal, tree)];
    }

    method WriteTree(t: Tree)
      modifies this
      ensures tree == t && journal == old(journal) && trace == old(trace) + [Durable(journal, t)]
    {
      tree := t;
      trace := trace + [Durable(journal, tree)];
    }

    /** The process dies when `cut` states were written, `n` of them before it began. */
    method Crash(n: nat, cut: nat)
      requires Recorded() && 0 < n <= |trace|
      modifies this
      ensures Recorded() && trace == old(trace)[..if n < cut <= |old(trace)| then cut else n]
    {
      trace := trace[..if n < cut <= |trace| then cut else n];
      journal, tree := trace[|trace| - 1].journal, trace[|trace| - 1].tree;
    }

    /** The journal opens before anything is changed. */
    method OpenTxn(txn: string)
      requires forall p :: p in tree ==> Outside(txn, p)
      modifies this
      ensures tree == old(tree) && Recorded() && journal == Some(Journal(txn, {}, {}, [], {}, {}, false))
      ensures old(trace) <= trace && UndoSince(|old(trace)|, tree)
    {
      var j := Journal(txn, {}, {}, [], {}, {}, false);
      forall q ensures Unwound(j, tree, q) == Lookup(tree, q) {}
      WriteJournal(Some(j));
    }

    /** Renames files to their backups, one after the other. */
    method MoveToBackups(files: set<Path>, ghost before: Tree) returns (ghost order: seq<Path>)
      requires journal.Some? && Recorded() && files <= tree.Keys
      modifies this
      ensures journal == old(journal) && Recorded() && old(trace) <= trace
      ensures (forall r :: r in order <==> r in files) && tree == Away(journal.value.txn, old(tree), order)
      ensures OthersSame(journal.value.txn, old(tree), tree, files)
      ensures forall r :: r in files && Outside(journal.value.txn, r) ==> r !in tree
      ensures old(MayMove(journal.value, tree, files, before)) ==>
        UndoSince(|old(trace)|, before) && forall r :: r in files ==> Backed(journal.value, tree, r)
    {
      var k := journal.value;
      var todo := files;
      ghost var safe := MayMove(k, tree, files, before);
      order := [];
      while todo != {}
        invariant journal == Some(k) && Recorded() && old(trace) <= trace
        invariant Moved(k.txn, old(tree), tree, files, todo, order)
        invariant safe ==> Moving(k, tree, files, todo, before) && UndoSince(|old(trace)|, before)
        decreases todo
      {
        var r :| r in todo;
        if safe { MovingOneMore(k, tree, files, todo, r, before); }
        MovedOneMore(k.txn, old(tree), tree, files, todo, order, r);
        todo, order := todo - {r}, order + [r];
        WriteTree(MoveLeaf(tree, r, FileBackup(k.txn, r)));
      }
    }

    /** Moves existing files aside: all journaled first, then one rename after the other. */
    method Displace(rels: set<Path>, ghost before: Tree) returns (planned: set<Path>)
      requires journal.Some? && Recorded()
      modifies this
      ensures planned == Planned(old(tree), rels) && Recorded() && old(trace) <= trace
      ensures forall r :: r in planned <==>
        r in rels && r in old(tree) && (old(tree)[r].Regular? || old(tree)[r].sees != ADirectory)
      ensures journal == Some(old(journal).value.(removed := old(journal).value.removed + planned))
      ensures forall r :: r in planned && Outside(journal.value.txn, r) ==> r !in tree
      ensures OthersSame(journal.value.txn, old(tree), tree, planned)
      ensures exists order ::
        (forall r :: r in order <==> r in planned) && tree == Away(journal.value.txn, old(tree), order)
      ensures old(Undo(before) && CanDisplace(journal.value, tree, rels)) ==> UndoSince(|old(trace)|, before)
    {
      var j := journal.value;
      planned := Planned(tree, rels);
      var k := j.(removed := j.removed + planned);
      if planned == {} {
        assert k == j && tree == Away(j.txn, tree, []);
        return;
      }
      ghost var safe := Undo(before) && CanDisplace(j, tree, rels);
      if safe { NoteFiles(j, k, tree, before); }
      WriteJournal(Some(k));
      ghost var order := MoveToBackups(planned, before);
    }

    /** Moves a whole directory aside, journaled before the rename; false also when the rename fails. */
    method DisplaceDir(d: Path, ghost before: Tree) returns (moved: bool)
      requires journal.Some? && Recorded()
      modifies this
      ensures Recorded() && old(trace) <= trace
      ensures moved <==> old(IsDir(tree, d) && CanRename(journal.value.txn, tree, d))
      ensures journal == if old(IsDir(tree, d)) then Some(WithDir(old(journal).value, d)) else old(journal)
      ensures tree == if moved then MoveDir(old(tree), d, DirBackup(journal.value.txn, d)) else old(tree)
      ensures old(Undo(before) && CanSetAside(journal.value, tree, d)) ==> UndoSince(|old(trace)|, before)
    {
      moved := IsDir(tree, d);
      if moved {
        var free := CanRename(journal.value.txn, tree, d);
        ghost var safe := Undo(before) && CanSetAside(journal.value, tree, d);
        NoteDir(d, before);
        moved := free;
        if moved {
          if safe { SetAside(journal.value, d, tree, before); }
          WriteTree(MoveDir(tree, d, DirBackup(journal.value.txn, d)));
        }
      }
    }

    /** Journals the directory about to be set aside. */
    method NoteDir(d: Path, ghost before: Tree)
      requires journal.Some? && Recorded() && IsDir(tree, d)
      modifies this
      ensures journal == Some(WithDir(old(journal).value, d)) && tree == old(tree) && Recorded()
      ensures old(trace) <= trace && |trace| == |old(trace)| + 1
      ensures old(Undo(before) && CanSetAside(journal.value, tree, d)) ==>
        (UndoSince(|old(trace)|, before) && CoverOf(journal.value, tree, d).None? &&
        NothingToUndoUnder(journal.value, tree, d) && !DirBacked(journal.value, tree, d))
    {
      var j := journal.value;
      if Undo(before) && CanSetAside(j, tree, d) { SetAsideJournal(j, WithDir(j, d), d, tree, before); }
      WriteJournal(Some(WithDir(j, d)));
    }

    /** Records a directory this transaction is about to create from nothing. */
    method NoteCreatedDir(d: Path, ghost before: Tree)
      requires journal.Some? && Recorded()
      modifies this
      ensures journal == Some(old(journal).value.(createdDirs := old(journal).value.createdDirs + {d}))
      ensures tree == old(tree) && Recorded() && old(trace) <= trace
      ensures old(Undo(before) && CanNote(journal.value, tree, d)) ==> UndoSince(|old(trace)|, before)
    {
      var j := journal.value;
      var k := j.(createdDirs := j.createdDirs + {d});
      if Undo(before) && CanNote(j, tree, d) { CreatedDirExactly(j, d, tree, before); }
      WriteJournal(Some(k));
    }

    /** What the install's own commands write. */
    method Build(q: Path, leaf: Leaf, ghost before: Tree)
      requires journal.Some? && Recorded()
      modifies this
      ensures tree == old(tree)[q := leaf] && journal == old(journal) && Recorded() && old(trace) <= trace
      ensures old(Undo(before) && CanBuild(journal.value, tree, q)) ==> UndoSince(|old(trace)|, before)
    {
      if Undo(before) && CanBuild(journal.value, tree, q) { LandsOnOurs(journal.value, tree, q, leaf, before); }
      WriteTree(tree[q := leaf]);
    }

    /** The staged files land one by one: over a backed-up file, or where nothing was. */
    method Promote(files: set<Path>, staged: map<Path, string>, ghost over: set<Path>, ghost before: Tree)
      requires journal.Some? && Recorded() && files <= staged.Keys
      modifies this
      ensures journal == old(journal) && Recorded() && old(trace) <= trace
      ensures forall r :: r in files ==> r in tree && tree[r] == Regular(staged[r])
      ensures OthersSame(journal.value.txn, old(tree), tree, files)
      ensures old(MayLand(journal.value, tree, files, over, before)) ==> UndoSince(|old(trace)|, before)
    {
      var k := journal.value;
      var todo := files;
      ghost var safe := MayLand(k, tree, files, over, before);
      while todo != {}
        invariant todo <= files && journal == Some(k) && Recorded() && old(trace) <= trace
        invariant forall r :: r in files && r !in todo ==> r in tree && tree[r] == Regular(staged[r])
        invariant OthersSame(k.txn, old(tree), tree, files)
        invariant safe ==> MayLand(k, tree, todo, over, before) && UndoSince(|old(trace)|, before)
        decreases todo
      {
        var r :| r in todo;
        if safe { PromoteOne(k, tree, r, staged[r], over, before); }
        OthersStaySameToo(k.txn, old(tree), tree, files, r, Regular(staged[r]));
        todo := todo - {r};
        WriteTree(tree[r := Regular(staged[r])]);
      }
    }

    /** Those of `over` are backed up, then all land. */
    method Replace(files: set<Path>, staged: map<Path, string>, over: set<Path>, ghost before: Tree)
      requires journal.Some? && Recorded() && files <= staged.Keys && over <= files && over <= tree.Keys
      modifies this
      ensures journal == old(journal) && Recorded() && old(trace) <= trace
      ensures forall r :: r in files ==> r in tree && tree[r] == Regular(staged[r])
      ensures OthersSame(journal.value.txn, old(tree), tree, files)
      ensures old(MayMove(journal.value, tree, over, before) && Fresh(journal.value, tree, files, over)) ==>
        UndoSince(|old(trace)|, before)
    {
      ghost var j, t := journal.value, tree;
      ghost var order := MoveToBackups(over, before);
      if MayMove(j, t, over, before) && Fresh(j, t, files, over) { MovedMayLand(j, t, tree, files, over, before); }
      Promote(files, staged, over, before);
    }

    /** Promotes the staged files: displaced ones keep a backup, new ones are noted. */
    method Publish(files: set<Path>, staged: map<Path, string>, ghost before: Tree) returns (ok: bool)
      requires journal.Some? && Recorded() && files <= staged.Keys
      modifies this
      ensures ok <==> files != {}
      ensures ok ==> forall r :: r in files ==> r in tree && tree[r] == Regular(staged[r])
      ensures journal == if ok then Some(Noted(old(journal).value, old(tree), files)) else old(journal)
      ensures ok ==> forall r :: r in files ==>
        if r in old(tree) && (old(tree)[r].Regular? || old(tree)[r].sees == AFile) then r in journal.value.backups
        else r in journal.value.created && r !in journal.value.backups
      ensures OthersSame(old(journal).value.txn, old(tree), tree, files)
      ensures Recorded() && old(trace) <= trace
      ensures old(Undo(before) && CanPublish(journal.value, tree, files)) ==> UndoSince(|old(trace)|, before)
    {
      if files == {} {
        return false;
      }
      var j := journal.value;
      var over := Over(tree, files);
      var k := Noted(j, tree, files);
      if Undo(before) && CanPublish(j, tree, files) { NotedMayMove(j, tree, files, before); }
      WriteJournal(Some(k));
      Replace(files, staged, over, before);
      return true;
    }
  }

  lemma {:induction false} SetAsideHasBackup(j: Journal, t: Tree, d: Path, q: Path)
    requires WellFormed(j) && d in j.dirs && d < q && q in t
    ensures DirBacked(j, MoveDir(t, d, DirBackup(j.txn, d)), d)
  {
    var bak := DirBackup(j.txn, d);
    BackupIsElsewhere(j, d);
    MoveDirLookup(t, d, bak, bak + q[|d|..]);
    assert Rebase(bak + q[|d|..], bak, d) == q;
    assert bak < bak + q[|d|..];
  }

  lemma {:induction false} WriteOutside(j: Journal, t: Tree, r: Path, leaf: Leaf)
    requires Outside(j.txn, r)
    ensures SameArea(j.txn, t, t[r := leaf])
  {}

  lemma {:induction false} LandsOnOurs(j: Journal, t: Tree, r: Path, leaf: Leaf, before: Tree)
    requires Undoable(j, t, before) && Outside(j.txn, r)
    requires CoverOf(j, t, r).Some? || InCreatedDir(j, r)
    ensures Undoable(j, t[r := leaf], before)
  {
    WriteOutside(j, t, r, leaf);
    forall q | Outside(j.txn, q) ensures Unwound(j, t[r := leaf], q) == Unwound(j, t, q) {
      OutsideChange(j, t, t[r := leaf], q);
    }
  }

  lemma {:induction false} LandsOnBacked(j: Journal, t: Tree, r: Path, leaf: Leaf, before: Tree)
    requires Undoable(j, t, before) && Outside(j.txn, r) && FileJournaled(j, r) && Backed(j, t, r)
    ensures Undoable(j, t[r := leaf], before)
  {
    WriteOutside(j, t, r, leaf);
    forall q | Outside(j.txn, q) ensures Unwound(j, t[r := leaf], q) == Unwound(j, t, q) {
      OutsideChange(j, t, t[r := leaf], q);
    }
  }

  lemma {:induction false} LandsOnCreated(j: Journal, t: Tree, r: Path, data: string, before: Tree)
    requires Undoable(j, t, before) && Outside(j.txn, r) && r in j.created && r !in t
    ensures Undoable(j, t[r := Regular(data)], before)
  {
    WriteOutside(j, t, r, Regular(data));
    forall q | Outside(j.txn, q) ensures Unwound(j, t[r := Regular(data)], q) == Unwound(j, t, q) {
      OutsideChange(j, t, t[r := Regular(data)], q);
    }
  }

  /** One staged file lands: over a backed-up one, or where nothing was. */
  lemma {:induction false} PromoteOne(k: Journal, t: Tree, r: Path, data: string, over: set<Path>, before: Tree)
    requires Undoable(k, t, before) && Outside(k.txn, r)
    requires forall x :: x in over ==> FileJournaled(k, x) && Backed(k, t, x)
    requires r in over || (r in k.created && r !in t)
    ensures Undoable(k, t[r := Regular(data)], before)
    ensures forall x :: x in over ==> Backed(k, t[r := Regular(data)], x)
  {
    if r in over {
      LandsOnBacked(k, t, r, Regular(data), before);
    } else {
      LandsOnCreated(k, t, r, data, before);
    }
    WriteOutside(k, t, r, Regular(data));
    forall x | x in over ensures Backed(k, t[r := Regular(data)], x) {
      SameAreaSameBackups(k, t, t[r := Regular(data)], x);
    }
  }
}
