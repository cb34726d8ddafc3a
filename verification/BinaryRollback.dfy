/**
 `rollback_files`: remove what the transaction created, restore directories (outermost first),
 then restore files. From every crash point of the transaction it gives back the tree the
 transaction found, and it may itself crash and run again exactly when nothing it restores is
 something its deletion passes take.
 */
module BinaryRollback {
  import opened Options
  import opened Ordering
  import opened BinaryTxn
  import opened BinaryInstall

  /** Only restoring is left to do: the created files and directories are gone. */
  ghost predicate Halfway(j: Journal, t: Tree, before: Tree)
  {
    WellFormed(j) && !j.committed && forall q :: Outside(j.txn, q) ==> Restored(j, t, q) == Lookup(before, q)
  }

  lemma {:induction false} HalfwayCanRerun(j: Journal, t: Tree, before: Tree)
    requires Halfway(j, t, before) && RerunSafe(j, before)
    ensures Undoable(j, t, before)
  {
    forall q | Outside(j.txn, q) ensures Unwound(j, t, q) == Lookup(before, q) {
      assert Restored(j, t, q) == Lookup(before, q);
    }
  }

  lemma {:induction false} DeleteCreated(j: Journal, t: Tree, r: Path, before: Tree)
    requires Undoable(j, t, before) && Outside(j.txn, r)
    requires InCreatedDir(j, r) || (r in j.created && IsFile(t, r))
    ensures Undoable(j, RemoveLeaf(t, r), before)
  {
    var u := RemoveLeaf(t, r);
    forall q | Outside(j.txn, q) ensures Unwound(j, u, q) == Unwound(j, t, q) {
      OutsideChange(j, t, u, q);
    }
  }

  lemma {:induction false} DeletedThenHalfway(j: Journal, t: Tree, before: Tree)
    requires Undoable(j, t, before)
    requires forall r :: r in j.created ==> !IsFile(t, r)
    requires forall d :: d in j.createdDirs ==> !IsDir(t, d)
    ensures Halfway(j, t, before)
  {
    forall q | Outside(j.txn, q) ensures Restored(j, t, q) == Unwound(j, t, q) {
      if InCreatedDir(j, q) {
        var d :| d in j.createdDirs && d < q;
        assert !IsDir(t, d);
      }
    }
  }

  lemma {:induction false} ClearPlace(j: Journal, t: Tree, d: Path, r: Path, before: Tree)
    requires Halfway(j, t, before) && DirBacked(j, t, d) && d < r
    ensures Halfway(j, RemoveLeaf(t, r), before) && DirBacked(j, RemoveLeaf(t, r), d)
    ensures forall e :: DirBacked(j, RemoveLeaf(t, r), e) ==> DirBacked(j, t, e)
  {
    var u := RemoveLeaf(t, r);
    NotIntoArea(j, d, r);
    forall q | Outside(j.txn, q) ensures Restored(j, u, q) == Restored(j, t, q) {
      OutsideChange(j, t, u, q);
      if q == r { assert q[..|d|] == d; }
    }
    SameAreaSameBackups(j, t, u, d);
  }

  lemma {:induction false} PutDirBack(j: Journal, t: Tree, d: Path, before: Tree)
    requires Halfway(j, t, before) && DirBacked(j, t, d) && CoverOf(j, t, d).None? && !IsDir(t, d)
    ensures var u := MoveDir(t, DirBackup(j.txn, d), d);
      Halfway(j, u, before) && !DirBacked(j, u, d) && forall e :: DirBacked(j, u, e) ==> DirBacked(j, t, e)
  {
    var u := MoveDir(t, DirBackup(j.txn, d), d);
    forall q | Outside(j.txn, q) ensures Restored(j, u, q) == Restored(j, t, q) {
      DirMoveBack(j, t, d, q);
    }
    DirMoveBack(j, t, d, d);
    DirMoveBackups(j, t, u, d);
  }

  lemma {:induction false} ClearFile(j: Journal, t: Tree, r: Path, before: Tree)
    requires Halfway(j, t, before) && FileJournaled(j, r) && Backed(j, t, r)
    ensures Halfway(j, RemoveLeaf(t, r), before) && Backed(j, RemoveLeaf(t, r), r)
    ensures forall e :: DirBacked(j, RemoveLeaf(t, r), e) ==> DirBacked(j, t, e)
    ensures forall q :: Backed(j, RemoveLeaf(t, r), q) ==> Backed(j, t, q)
  {
    var u := RemoveLeaf(t, r);
    forall q ensures (Outside(j.txn, q) ==> Restored(j, u, q) == Restored(j, t, q)) &&
      Backed(j, u, q) == Backed(j, t, q) && DirBacked(j, u, q) == DirBacked(j, t, q)
    {
      OutsideChange(j, t, u, q);
      SameAreaSameBackups(j, t, u, q);
    }
  }

  lemma {:induction false} PutFileBack(j: Journal, t: Tree, r: Path, before: Tree)
    requires Halfway(j, t, before) && FileJournaled(j, r) && Backed(j, t, r)
    requires forall e :: !DirBacked(j, t, e)
    ensures var u := MoveLeaf(t, FileBackup(j.txn, r), r);
      Halfway(j, u, before) && !Backed(j, u, r) && (forall e :: !DirBacked(j, u, e)) &&
      (forall q :: FileJournaled(j, q) && Backed(j, u, q) ==> Backed(j, t, q))
  {
    var bak := FileBackup(j.txn, r);
    var u := MoveLeaf(t, bak, r);
    InArea(j.txn, r, []);
    forall e ensures !DirBacked(j, u, e) {
      assert !DirBacked(j, t, e);
      if e in j.dirs {
        forall p | DirBackup(j.txn, e) < p ensures p !in u {
          InArea(j.txn, e, p[|DirBackup(j.txn, e)|..]);
          assert DirBackup(j.txn, e) + p[|DirBackup(j.txn, e)|..] == p;
        }
      }
    }
    forall q | FileJournaled(j, q) && q != r ensures Backed(j, u, q) == Backed(j, t, q) {
      BackupsApart(j, r, q);
      BackupsApart(j, q, q);
      InArea(j.txn, q, []);
    }
    forall q | Outside(j.txn, q) ensures Restored(j, u, q) == Restored(j, t, q) {
      if FileJournaled(j, q) && q != r {
        BackupsApart(j, q, q);
        BackupsApart(j, r, q);
        InArea(j.txn, q, []);
      }
    }
  }

  // --- outermost first -------------------------------------------------------------------------

  function PathKey(p: Path): Key
  {
    if p == [] then [] else [Text(p[0])] + PathKey(p[1..])
  }

  lemma {:induction false} PrefixFirst(a: Path, b: Path)
    requires a <= b
    ensures KeyLe(PathKey(a), PathKey(b))
    ensures KeyLe(PathKey(b), PathKey(a)) ==> a == b
  {
    if a != [] {
      PrefixFirst(a[1..], b[1..]);
      assert PathKey(a)[1..] == PathKey(a[1..]) && PathKey(b)[1..] == PathKey(b[1..]);
      assert a == [a[0]] + a[1..] && b == [b[0]] + b[1..];
    }
  }

  /** No directory comes after one inside it. */
  ghost predicate OutermostFirst(dirs: seq<Path>)
  {
    forall i, k :: 0 <= i < k < |dirs| ==> !(dirs[k] < dirs[i])
  }

  ghost predicate SameDirs(dirs: seq<Path>, j: Journal) { forall d :: d in dirs <==> d in j.dirs }

  /** `sorted(dirs)`: a directory sorts before everything inside it. */
  method SortedDirs(j: Journal) returns (dirs: seq<Path>)
    ensures OutermostFirst(dirs) && SameDirs(dirs, j)
  {
    dirs := SortBy(j.dirs, PathKey);
    SortKeepsMembers(j.dirs, PathKey);
    forall i, k | 0 <= i < k < |dirs| ensures !(dirs[k] < dirs[i]) {
      if dirs[k] < dirs[i] { PrefixFirst(dirs[k], dirs[i]); }
    }
  }

  lemma {:induction false} OuterDone(j: Journal, t: Tree, dirs: seq<Path>, i: nat)
    requires i < |dirs| && OutermostFirst(dirs) && SameDirs(dirs, j)
    requires DirsBack(j, t, dirs, i)
    ensures CoverOf(j, t, dirs[i]).None?
  {
    forall k | 0 < k < |dirs[i]| ensures !DirBacked(j, t, dirs[i][..k]) {
      if dirs[i][..k] in j.dirs {
        assert dirs[i][..k] in dirs;
      }
    }
  }

  lemma {:induction false} AllDone(j: Journal, t: Tree, dirs: seq<Path>)
    requires SameDirs(dirs, j) && DirsBack(j, t, dirs, |dirs|)
    ensures forall e :: !DirBacked(j, t, e)
  {
    forall e | e in j.dirs ensures !DirBacked(j, t, e) {
      assert e in dirs;
    }
  }

  // --- when the target of a rename is in the way -------------------------------------------------

  /** A leaf sits at `p` or where one of its directories should be. */
  predicate LeafAbove(t: Tree, p: Path) { exists k :: 0 < k < |p| && p[..k] in t }

  ghost predicate ProperTree(t: Tree) { forall p, q :: p in t && q in t ==> !(p < q) }

  /** The displaced directories from `d` inwards. */
  ghost function Inside(j: Journal, d: Path): set<Path> { set e | e in j.dirs && d <= e }

  /** A directory that has its backup gives something back, if only through one inside it. */
  lemma {:induction false} SomethingComesBack(j: Journal, t: Tree, d: Path, before: Tree) returns (q: Path)
    requires Halfway(j, t, before) && DirBacked(j, t, d)
    ensures d < q && q in before
    decreases Inside(j, d)
  {
    var bak := DirBackup(j.txn, d);
    var x :| x in t && bak < x;
    q := d + x[|bak|..];
    NotIntoArea(j, d, q);
    assert q[..|d|] == d && d < q;
    assert bak + q[|d|..] == x;
    assert Restored(j, t, q) == Lookup(before, q);
    assert !(0 < |d| < |q| && !DirBacked(j, t, q[..|d|]));
    var e := CoverOf(j, t, q).value;
    Prefixes(e, d, q);
    if e != d && q !in before {
      assert d in Inside(j, d) && d !in Inside(j, e);
      forall i | i in Inside(j, e) ensures i in Inside(j, d) { Prefixes(d, e, i); }
      q := SomethingComesBack(j, t, e, before);
      Prefixes(d, e, q);
    }
  }

  lemma {:induction false} DirPlaceFree(j: Journal, t: Tree, d: Path, before: Tree)
    requires Halfway(j, t, before) && ProperTree(before)
    requires DirBacked(j, t, d) && CoverOf(j, t, d).None?
    ensures d !in t && !LeafAbove(t, d)
  {
    var q := SomethingComesBack(j, t, d, before);
    forall k | 0 < k <= |d| ensures d[..k] !in t {
      var e := d[..k];
      Prefixes(Area(j.txn), e, d);
      Prefixes(e, d, q);
      forall o | 0 < o <= k - 1 ensures !DirBacked(j, t, e[..o]) {
        assert e[..o] == d[..o];
      }
      NoCover(j, t, e, k - 1);
      assert CoverOf(j, t, e).None? && e < q;
      assert Restored(j, t, e) == Lookup(before, e);
      assert e in t ==> e in before;
    }
    assert d[..|d|] == d;
  }

  lemma {:induction false} FilePlaceFree(j: Journal, t: Tree, r: Path, before: Tree)
    requires Halfway(j, t, before) && ProperTree(before) && forall e :: !DirBacked(j, t, e)
    requires FileJournaled(j, r) && Backed(j, t, r)
    ensures !IsDir(t, r) && !LeafAbove(t, r)
  {
    assert r in before;
    forall q | r < q ensures q !in t {
      NotIntoArea(j, r, q);
      assert Restored(j, t, q) == Lookup(before, q);
      assert q in t ==> q in before;
    }
    forall k | 0 < k < |r| ensures r[..k] !in t {
      Prefixes(Area(j.txn), r[..k], r);
      assert Outside(j.txn, r[..k]);
    }
  }

  // --- when a second run is safe ------------------------------------------------------------------

  /** Everything backed up has been put back. */
  ghost predicate NothingLeft(j: Journal, t: Tree)
  {
    (forall e :: !DirBacked(j, t, e)) && (forall q :: FileJournaled(j, q) ==> !Backed(j, t, q))
  }

  /** Running again after a completed rollback is harmless exactly when it is `RerunSafe`. */
  lemma {:induction false} RerunExactly(j: Journal, t: Tree, before: Tree)
    requires WellFormed(j) && !j.committed && Agree(j.txn, t, before) && NothingLeft(j, t)
    ensures Undoable(j, t, before) <==> RerunSafe(j, before)
  {
    forall q | Outside(j.txn, q) ensures Unwound(j, t, q) ==
      if InCreatedDir(j, q) || (q in j.created && IsFile(t, q)) then None else Lookup(before, q)
    {
      assert Lookup(t, q) == Lookup(before, q);
    }
    if Undoable(j, t, before) {
      forall q | q in before && Outside(j.txn, q)
        ensures !InCreatedDir(j, q) && !(q in j.created && FileLeaf(before[q]))
      {
        assert Unwound(j, t, q) == Lookup(before, q) == Lookup(t, q);
      }
    }
  }

  /** A file set aside and then created anew: a second run of the rollback deletes the operator's. */
  lemma {:induction false} SecondRunLoses()
    ensures exists j, t, q ::
      (WellFormed(j) && !j.committed && NothingLeft(j, t) && Outside(j.txn, q) && q in t && Unwound(j, t, q) == None)
  {
    var f := ["f"];
    var j := Journal("t", {f}, {}, [], {f}, {}, false);
    var t := map[f := Regular("the operator's")];
    assert Area("t")[0] == "state" && f[0] == "f" && "f" != "state" by {
      assert |"f"| != |"state"|;
    }
    assert !Backed(j, t, f) by { assert |FileBackup("t", f)| == 4; }
    assert CoverOf(j, t, f).None?;
    assert Unwound(j, t, f) == None;
  }

  /** A link that leads nowhere from the backup directory is moved aside but never moved back. */
  lemma {:induction false} LinkComesBack(j: Journal, t: Tree, r: Path)
    requires WellFormed(j) && FileJournaled(j, r) && r in t && Outside(j.txn, r) && CoverOf(j, t, r).None?
    requires !InCreatedDir(j, r) && FileBackup(j.txn, r) !in t
    ensures Unwound(j, MoveLeaf(t, r, FileBackup(j.txn, r)), r) == Some(t[r]) <==> t[r].Regular? || t[r].kept
  {
    var u := MoveLeaf(t, r, FileBackup(j.txn, r));
    InArea(j.txn, r, []);
    if t[r].Regular? || t[r].kept {
      FileMove(j, t, r, r);
    } else {
      forall d ensures DirBacked(j, t, d) == DirBacked(j, u, d) {
        BackupsApart(j, r, d);
        InArea(j.txn, d, []);
        forall p | DirBackup(j.txn, d) < p ensures p in t <==> p in u {
          InArea(j.txn, d, p[|DirBackup(j.txn, d)|..]);
          assert DirBackup(j.txn, d) + p[|DirBackup(j.txn, d)|..] == p;
        }
      }
      if |r| > 0 { SameDirsSameCover(j, t, j, u, r, |r| - 1); }
    }
  }

  /** ... and there is a link that does not. */
  lemma {:induction false} LinkIsLost() returns (j: Journal, t: Tree, r: Path)
    ensures WellFormed(j) && FileJournaled(j, r) && r in t && Outside(j.txn, r)
    ensures Unwound(j, MoveLeaf(t, r, FileBackup(j.txn, r)), r) != Some(t[r])
  {
    r := ["l"];
    j := Journal("t", {r}, {}, [], {}, {}, false);
    t := map[r := Link("x", AFile, false)];
    assert Area("t")[0] == "state" && r[0] == "l" && "l" != "state" by {
      assert |"l"| != |"state"|;
    }
    assert |FileBackup("t", r)| == 4;
    LinkComesBack(j, t, r);
  }

  /** A target journaled as created is given back exactly when nothing was there, not even a dangling link. */
  lemma {:induction false} CreatedOverNothing(j: Journal, t: Tree, r: Path, data: string)
    requires r in j.created && Outside(j.txn, r) && CoverOf(j, t, r).None? && !(FileJournaled(j, r) && Backed(j, t, r))
    ensures Unwound(j, t[r := Regular(data)], r) == Lookup(t, r) <==> r !in t
  {
    WriteOutside(j, t, r, Regular(data));
    OutsideChange(j, t, t[r := Regular(data)], r);
  }

  // --- the recovery ----------------------------------------------------------------------------

  /** The journal is kept, and a second run from here would do as well as this one. */
  ghost predicate CanRerun(s: Durable, j: Journal, before: Tree)
  {
    s.journal == Some(j) && (RerunSafe(j, before) ==> Undoable(j, s.tree, before))
  }

  ghost predicate RerunnableSince(inst: Installer, n: nat, j: Journal, before: Tree)
    reads inst
  {
    forall i :: n <= i < |inst.trace| ==> CanRerun(inst.trace[i], j, before)
  }

  /** One durable step of the recovery. */
  method Step(inst: Installer, t: Tree, ghost n: nat, ghost before: Tree)
    requires inst.journal.Some? && CanRerun(Durable(inst.journal, t), inst.journal.value, before)
    requires RerunnableSince(inst, n, inst.journal.value, before)
    modifies inst
    ensures inst.journal == old(inst.journal) && inst.tree == t && inst.Recorded()
    ensures old(inst.trace) <= inst.trace && RerunnableSince(inst, n, inst.journal.value, before)
  {
    inst.WriteTree(t);
  }

  /** Unlinks one created file, if it is there. */
  method UnlinkCreated(inst: Installer, r: Path, ghost n: nat, ghost before: Tree)
    requires inst.journal.Some? && Undoable(inst.journal.value, inst.tree, before) && inst.Recorded()
    requires r in inst.journal.value.created && RerunnableSince(inst, n, inst.journal.value, before)
    modifies inst
    ensures inst.journal == old(inst.journal) && Undoable(inst.journal.value, inst.tree, before) && inst.Recorded()
    ensures !IsFile(inst.tree, r)
    ensures forall x :: x in inst.tree ==> x in old(inst.tree) && inst.tree[x] == old(inst.tree)[x]
    ensures old(inst.trace) <= inst.trace && RerunnableSince(inst, n, inst.journal.value, before)
  {
    if IsFile(inst.tree, r) {
      DeleteCreated(inst.journal.value, inst.tree, r, before);
      Step(inst, RemoveLeaf(inst.tree, r), n, before);
    }
  }

  /** First pass: unlink every created file that is there. */
  method RemoveCreated(inst: Installer, ghost n: nat, ghost before: Tree)
    requires inst.journal.Some? && Undoable(inst.journal.value, inst.tree, before) && inst.Recorded()
    requires RerunnableSince(inst, n, inst.journal.value, before)
    modifies inst
    ensures inst.journal == old(inst.journal) && Undoable(inst.journal.value, inst.tree, before) && inst.Recorded()
    ensures forall r :: r in inst.journal.value.created ==> !IsFile(inst.tree, r)
    ensures old(inst.trace) <= inst.trace && RerunnableSince(inst, n, inst.journal.value, before)
  {
    var j := inst.journal.value;
    var todo := j.created;
    while todo != {}
      invariant todo <= j.created && inst.journal == Some(j)
      invariant Undoable(j, inst.tree, before) && inst.Recorded()
      invariant forall r :: r in j.created && r !in todo ==> !IsFile(inst.tree, r)
      invariant old(inst.trace) <= inst.trace && RerunnableSince(inst, n, j, before)
      decreases todo
    {
      var r :| r in todo;
      todo := todo - {r};
      UnlinkCreated(inst, r, n, before);
    }
  }

  /** Second pass: remove every created directory, leaf by leaf. */
  method RemoveCreatedDirs(inst: Installer, ghost n: nat, ghost before: Tree)
    requires inst.journal.Some? && Undoable(inst.journal.value, inst.tree, before) && inst.Recorded()
    requires forall r :: r in inst.journal.value.created ==> !IsFile(inst.tree, r)
    requires RerunnableSince(inst, n, inst.journal.value, before)
    modifies inst
    ensures inst.journal == old(inst.journal) && Undoable(inst.journal.value, inst.tree, before) && inst.Recorded()
    ensures forall r :: r in inst.journal.value.created ==> !IsFile(inst.tree, r)
    ensures forall d :: d in inst.journal.value.createdDirs ==> !IsDir(inst.tree, d)
    ensures old(inst.trace) <= inst.trace && RerunnableSince(inst, n, inst.journal.value, before)
  {
    var j := inst.journal.value;
    var todo := j.createdDirs;
    while todo != {}
      invariant todo <= j.createdDirs && inst.journal == Some(j)
      invariant Undoable(j, inst.tree, before) && inst.Recorded()
      invariant forall r :: r in j.created ==> !IsFile(inst.tree, r)
      invariant forall d :: d in j.createdDirs - todo ==> !IsDir(inst.tree, d)
      invariant old(inst.trace) <= inst.trace && RerunnableSince(inst, n, j, before)
      decreases todo
    {
      var d :| d in todo;
      while IsDir(inst.tree, d)
        invariant inst.journal == Some(j) && Undoable(j, inst.tree, before) && inst.Recorded()
        invariant forall r :: r in j.created ==> !IsFile(inst.tree, r)
        invariant forall e :: e in j.createdDirs - todo ==> !IsDir(inst.tree, e)
        invariant old(inst.trace) <= inst.trace && RerunnableSince(inst, n, j, before)
        decreases inst.tree.Keys
      {
        var r :| r in inst.tree && d < r;
        NotIntoArea(j, d, r);
        DeleteCreated(j, inst.tree, r, before);
        Step(inst, RemoveLeaf(inst.tree, r), n, before);
      }
      todo := todo - {d};
    }
  }

  /** Clears the place of a displaced directory, leaf by leaf. */
  method ClearLive(inst: Installer, d: Path, ghost n: nat, ghost before: Tree)
    requires inst.journal.Some? && Halfway(inst.journal.value, inst.tree, before) && inst.Recorded()
    requires DirBacked(inst.journal.value, inst.tree, d) && RerunnableSince(inst, n, inst.journal.value, before)
    modifies inst
    ensures inst.journal == old(inst.journal) && Halfway(inst.journal.value, inst.tree, before) && inst.Recorded()
    ensures DirBacked(inst.journal.value, inst.tree, d) && !IsDir(inst.tree, d)
    ensures forall e :: DirBacked(inst.journal.value, inst.tree, e) ==> DirBacked(inst.journal.value, old(inst.tree), e)
    ensures old(inst.trace) <= inst.trace && RerunnableSince(inst, n, inst.journal.value, before)
  {
    var j := inst.journal.value;
    while IsDir(inst.tree, d)
      invariant inst.journal == Some(j) && Halfway(j, inst.tree, before) && inst.Recorded()
      invariant DirBacked(j, inst.tree, d)
      invariant forall e :: DirBacked(j, inst.tree, e) ==> DirBacked(j, old(inst.tree), e)
      invariant old(inst.trace) <= inst.trace && RerunnableSince(inst, n, j, before)
      decreases inst.tree.Keys
    {
      var r :| r in inst.tree && d < r;
      ClearPlace(j, inst.tree, d, r, before);
      if RerunSafe(j, before) { HalfwayCanRerun(j, RemoveLeaf(inst.tree, r), before); }
      Step(inst, RemoveLeaf(inst.tree, r), n, before);
    }
  }

  /** Renames one directory's backup back, its place being clear. */
  method RenameBack(inst: Installer, d: Path, ghost n: nat, ghost before: Tree)
    requires inst.journal.Some? && Halfway(inst.journal.value, inst.tree, before) && inst.Recorded()
    requires DirBacked(inst.journal.value, inst.tree, d) && !IsDir(inst.tree, d)
    requires CoverOf(inst.journal.value, inst.tree, d).None?
    requires RerunnableSince(inst, n, inst.journal.value, before)
    modifies inst
    ensures inst.journal == old(inst.journal) && Halfway(inst.journal.value, inst.tree, before) && inst.Recorded()
    ensures !DirBacked(inst.journal.value, inst.tree, d)
    ensures forall e :: DirBacked(inst.journal.value, inst.tree, e) ==> DirBacked(inst.journal.value, old(inst.tree), e)
    ensures old(inst.trace) <= inst.trace && RerunnableSince(inst, n, inst.journal.value, before)
  {
    var j := inst.journal.value;
    var t := MoveDir(inst.tree, DirBackup(j.txn, d), d);
    PutDirBack(j, inst.tree, d, before);
    if RerunSafe(j, before) { HalfwayCanRerun(j, t, before); }
    Step(inst, t, n, before);
  }

  /** Puts one displaced directory back, the ones around it being back already. */
  method RestoreDir(inst: Installer, d: Path, ghost n: nat, ghost before: Tree) returns (ok: bool)
    requires inst.journal.Some? && Halfway(inst.journal.value, inst.tree, before) && inst.Recorded()
    requires d in inst.journal.value.dirs && CoverOf(inst.journal.value, inst.tree, d).None?
    requires RerunnableSince(inst, n, inst.journal.value, before)
    modifies inst
    ensures inst.journal == old(inst.journal) && Halfway(inst.journal.value, inst.tree, before) && inst.Recorded()
    ensures ok ==> !DirBacked(inst.journal.value, inst.tree, d)
    ensures ProperTree(before) ==> ok
    ensures forall e :: DirBacked(inst.journal.value, inst.tree, e) ==> DirBacked(inst.journal.value, old(inst.tree), e)
    ensures old(inst.trace) <= inst.trace && RerunnableSince(inst, n, inst.journal.value, before)
  {
    var j := inst.journal.value;
    if !IsDir(inst.tree, DirBackup(j.txn, d)) {
      return true;
    }
    ClearLive(inst, d, n, before);
    NoCover(j, inst.tree, d, |d| - 1);
    if ProperTree(before) { DirPlaceFree(j, inst.tree, d, before); }
    if d in inst.tree || LeafAbove(inst.tree, d) {
      return false;
    }
    RenameBack(inst, d, n, before);
    return true;
  }

  /** The first `i` directories are back. */
  ghost predicate DirsBack(j: Journal, t: Tree, dirs: seq<Path>, i: nat)
  {
    forall k :: 0 <= k < i && k < |dirs| ==> !DirBacked(j, t, dirs[k])
  }

  lemma {:induction false} OneMoreDirBack(j: Journal, t: Tree, u: Tree, dirs: seq<Path>, i: nat)
    requires DirsBack(j, t, dirs, i) && i < |dirs| && !DirBacked(j, u, dirs[i])
    requires forall e :: DirBacked(j, u, e) ==> DirBacked(j, t, e)
    ensures DirsBack(j, u, dirs, i + 1)
  {}

  /** Where the restoring passes stand: the way back is kept, and so is every state's own way back. */
  ghost predicate Restoring(inst: Installer, j: Journal, n: nat, before: Tree)
    reads inst
  {
    inst.journal == Some(j) && Halfway(j, inst.tree, before) && inst.Recorded() && RerunnableSince(inst, n, j, before)
  }

  /** Third pass: every displaced directory returns to its place, cleared first. */
  method RestoreDirs(inst: Installer, ghost n: nat, ghost before: Tree) returns (ok: bool)
    requires inst.journal.Some? && Halfway(inst.journal.value, inst.tree, before) && inst.Recorded()
    requires RerunnableSince(inst, n, inst.journal.value, before)
    modifies inst
    ensures inst.journal == old(inst.journal) && Halfway(inst.journal.value, inst.tree, before) && inst.Recorded()
    ensures ok ==> forall e :: !DirBacked(inst.journal.value, inst.tree, e)
    ensures ProperTree(before) ==> ok
    ensures old(inst.trace) <= inst.trace && RerunnableSince(inst, n, inst.journal.value, before)
  {
    var j := inst.journal.value;
    var dirs := SortedDirs(j);
    for i := 0 to |dirs|
      invariant Restoring(inst, j, n, before) && old(inst.trace) <= inst.trace
      invariant DirsBack(j, inst.tree, dirs, i)
    {
      OuterDone(j, inst.tree, dirs, i);
      ghost var t := inst.tree;
      ok := RestoreDir(inst, dirs[i], n, before);
      if !ok {
        return;
      }
      OneMoreDirBack(j, t, inst.tree, dirs, i);
    }
    AllDone(j, inst.tree, dirs);
    return true;
  }

  /** Puts one file back, over whatever file is in its place; false when something else is. */
  method RestoreFile(inst: Installer, r: Path, ghost n: nat, ghost before: Tree) returns (ok: bool)
    requires inst.journal.Some? && Halfway(inst.journal.value, inst.tree, before) && inst.Recorded()
    requires FileJournaled(inst.journal.value, r) && forall e :: !DirBacked(inst.journal.value, inst.tree, e)
    requires RerunnableSince(inst, n, inst.journal.value, before)
    modifies inst
    ensures inst.journal == old(inst.journal) && Halfway(inst.journal.value, inst.tree, before) && inst.Recorded()
    ensures forall e :: !DirBacked(inst.journal.value, inst.tree, e)
    ensures ok ==> !Backed(inst.journal.value, inst.tree, r)
    ensures ok ==> inst.tree == Back(inst.journal.value.txn, old(inst.tree), [r])
    ensures forall q :: FileJournaled(inst.journal.value, q) && Backed(inst.journal.value, inst.tree, q) ==>
      Backed(inst.journal.value, old(inst.tree), q)
    ensures ProperTree(before) ==> ok
    ensures old(inst.trace) <= inst.trace && RerunnableSince(inst, n, inst.journal.value, before)
  {
    var j := inst.journal.value;
    assert [r][..0] == [];
    if !Backed(j, inst.tree, r) {
      return true;
    }
    ghost var t := inst.tree;
    InArea(j.txn, r, []);
    if IsFile(inst.tree, r) {
      ClearFile(j, inst.tree, r, before);
      if RerunSafe(j, before) { HalfwayCanRerun(j, RemoveLeaf(inst.tree, r), before); }
      Step(inst, RemoveLeaf(inst.tree, r), n, before);
    }
    if ProperTree(before) { FilePlaceFree(j, inst.tree, r, before); }
    if IsDir(inst.tree, r) || LeafAbove(inst.tree, r) {
      return false;
    }
    PutFileBack(j, inst.tree, r, before);
    if RerunSafe(j, before) { HalfwayCanRerun(j, MoveLeaf(inst.tree, FileBackup(j.txn, r), r), before); }
    assert MoveLeaf(inst.tree, FileBackup(j.txn, r), r) == MoveLeaf(t, FileBackup(j.txn, r), r);
    Step(inst, MoveLeaf(inst.tree, FileBackup(j.txn, r), r), n, before);
    return true;
  }

  lemma {:induction false} BackOneMore(txn: string, t: Tree, order: seq<Path>, r: Path)
    ensures Back(txn, t, order + [r]) == Back(txn, Back(txn, t, order), [r])
  {
    assert (order + [r])[..|order|] == order && [r][..0] == [];
  }

  /** Fourth pass: every file that has its backup returns to its place. */
  method RestoreFiles(inst: Installer, ghost n: nat, ghost before: Tree) returns (ok: bool, ghost order: seq<Path>)
    requires inst.journal.Some? && Halfway(inst.journal.value, inst.tree, before) && inst.Recorded()
    requires forall e :: !DirBacked(inst.journal.value, inst.tree, e)
    requires RerunnableSince(inst, n, inst.journal.value, before)
    modifies inst
    ensures inst.journal == old(inst.journal) && Halfway(inst.journal.value, inst.tree, before) && inst.Recorded()
    ensures ok ==> Agree(inst.journal.value.txn, inst.tree, before) && NothingLeft(inst.journal.value, inst.tree)
    ensures ok ==> inst.tree == Back(inst.journal.value.txn, old(inst.tree), order)
    ensures ok ==> forall r :: r in order <==> FileJournaled(inst.journal.value, r)
    ensures ProperTree(before) ==> ok
    ensures old(inst.trace) <= inst.trace && RerunnableSince(inst, n, inst.journal.value, before)
  {
    var j := inst.journal.value;
    var todo := j.backups + j.removed;
    order := [];
    while todo != {}
      invariant todo <= j.backups + j.removed && forall r :: FileJournaled(j, r) <==> r in order || r in todo
      invariant Restoring(inst, j, n, before) && old(inst.trace) <= inst.trace
      invariant inst.tree == Back(j.txn, old(inst.tree), order)
      invariant forall e :: !DirBacked(j, inst.tree, e)
      invariant forall r :: FileJournaled(j, r) && r !in todo ==> !Backed(j, inst.tree, r)
      decreases todo
    {
      var r :| r in todo;
      ok := RestoreFile(inst, r, n, before);
      if !ok { return; }
      BackOneMore(j.txn, old(inst.tree), order, r);
      todo, order := todo - {r}, order + [r];
    }
    forall q | Outside(j.txn, q) ensures Lookup(inst.tree, q) == Lookup(before, q) {
      assert Restored(j, inst.tree, q) == Lookup(before, q);
    }
    ok := true;
  }

  /** `rollback_files`: from any undoable state, the tree the transaction found. */
  method RollbackFiles(inst: Installer, ghost before: Tree) returns (ok: bool)
    requires inst.journal.Some? && Undoable(inst.journal.value, inst.tree, before) && inst.Recorded()
    modifies inst
    ensures inst.journal == old(inst.journal) && inst.Recorded()
    ensures ok ==> Agree(inst.journal.value.txn, inst.tree, before) && NothingLeft(inst.journal.value, inst.tree)
    ensures ProperTree(before) ==> ok
    ensures old(inst.trace) <= inst.trace && RerunnableSince(inst, |old(inst.trace)|, inst.journal.value, before)
  {
    RemoveCreated(inst, |old(inst.trace)|, before);
    RemoveCreatedDirs(inst, |old(inst.trace)|, before);
    var j := inst.journal.value;
    DeletedThenHalfway(j, inst.tree, before);
    ok := RestoreDirs(inst, |old(inst.trace)|, before);
    if ok {
      ghost var order;
      ok, order := RestoreFiles(inst, |old(inst.trace)|, before);
    }
  }

  /** Any number of recoveries, each cut off after as many states as `cuts` says, then one that completes. */
  method RecoverThroughCrashes(inst: Installer, cuts: seq<nat>, ghost before: Tree)
    requires inst.journal.Some? && Undoable(inst.journal.value, inst.tree, before) && inst.Recorded()
    requires RerunSafe(inst.journal.value, before) && ProperTree(before)
    modifies inst
    ensures inst.journal == old(inst.journal)
    ensures Agree(inst.journal.value.txn, inst.tree, before)
  {
    for i := 0 to |cuts|
      invariant inst.journal == old(inst.journal)
      invariant Undoable(inst.journal.value, inst.tree, before) && inst.Recorded()
    {
      var n := |inst.trace|;
      ghost var first := inst.trace;
      var ok := RollbackFiles(inst, before);
      ghost var all := inst.trace;
      assert all[n - 1] == first[n - 1];
      inst.Crash(n, cuts[i]);
      ghost var last := |inst.trace| - 1;
      assert inst.trace[last] == all[last] && (last >= n ==> CanRerun(all[last], old(inst.journal).value, before));
    }
    var ok := RollbackFiles(inst, before);
  }

  // --- the commit point ----------------------------------------------------------------------------

  /** Drops the backups (`left` are those the removal could not take), then the journal. */
  method DropTxn(inst: Installer, txn: string, left: set<Path>, cleared: bool) returns (ok: bool)
    requires inst.Recorded()
    modifies inst
    ensures ok == cleared && inst.journal == (if cleared then None else old(inst.journal)) && inst.Recorded()
    ensures Agree(txn, inst.tree, old(inst.tree))
    ensures forall q :: q in inst.tree && !Outside(txn, q) ==> q in left
    ensures old(inst.trace) <= inst.trace
    ensures forall i :: |old(inst.trace)| <= i < |inst.trace| ==>
      (Agree(txn, inst.trace[i].tree, old(inst.tree)) &&
      (inst.trace[i].journal == old(inst.journal) ||
       (inst.trace[i].journal == None && inst.trace[i].tree == inst.tree)))
  {
    inst.WriteTree(map q | q in inst.tree && (Outside(txn, q) || q in left) :: inst.tree[q]);
    if cleared {
      inst.WriteJournal(None);
    }
    return cleared;
  }

  /** `commit`: no backup is touched before the committed journal is durable. */
  method Commit(inst: Installer, written: bool, left: set<Path>, cleared: bool) returns (ok: bool)
    requires inst.Recorded()
    modifies inst
    ensures old(inst.journal).None? ==> ok && inst.journal == None && inst.tree == old(inst.tree)
    ensures old(inst.journal).Some? ==> ok == (written && cleared)
    ensures old(inst.journal).Some? && !written ==> inst.journal == old(inst.journal) && inst.tree == old(inst.tree)
    ensures ok ==> inst.journal == None
    ensures old(inst.journal).Some? ==> Agree(old(inst.journal).value.txn, inst.tree, old(inst.tree))
    ensures old(inst.trace) <= inst.trace
    ensures forall i :: |old(inst.trace)| <= i < |inst.trace| ==>
      (var s := inst.trace[i];
       old(inst.journal).Some? && Agree(old(inst.journal).value.txn, s.tree, old(inst.tree)) &&
       (s.journal == None || (s.journal.value.committed && s.journal.value.txn == old(inst.journal).value.txn)))
  {
    if inst.journal == None {
      return true;
    }
    if !written {
      return false;
    }
    var j := inst.journal.value;
    inst.WriteJournal(Some(j.(committed := true)));
    ok := DropTxn(inst, j.txn, left, cleared);
  }
}
