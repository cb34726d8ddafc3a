/**
 The binary-install transaction of lhpc/core/binary_install.py: every file and directory it
 displaces or creates is journaled before it is touched, and `rollback_files` puts the tree back
 from any point. The tree maps each leaf path to what is there; directories are the proper
 prefixes of leaves. `trace` holds the durable state after every step, so a statement about its
 members is a statement about every crash point.
 */
module BinaryTxn {
  import opened Options

  type Path = seq<string>

  datatype Sees = AFile | ADirectory | Nothing

  /**
   A symlink is described by what follows it: `sees` from its own place, `kept` whether anything
   is still found when it is followed from the backup directory (a relative target usually is not).
   */
  datatype Leaf = Regular(data: string) | Link(target: string, sees: Sees, kept: bool)

  type Tree = map<Path, Leaf>

  datatype Journal = Journal(txn: string, removed: set<Path>, backups: set<Path>, dirs: seq<Path>,
                             created: set<Path>, createdDirs: set<Path>, committed: bool)

  function Lookup(t: Tree, q: Path): Option<Leaf> { if q in t then Some(t[q]) else None }

  predicate IsDir(t: Tree, p: Path) { exists q :: q in t && p < q }
  predicate FileLeaf(l: Leaf) { l.Regular? || l.sees == AFile }
  predicate IsFile(t: Tree, p: Path) { p in t && FileLeaf(t[p]) }

  // --- backup names -------------------------------------------------------------------------

  /** `rel.replace('/', '__')`. */
  function Flat(rel: Path): string
  {
    if |rel| == 0 then "" else if |rel| == 1 then rel[0] else rel[0] + "__" + Flat(rel[1..])
  }

  function Area(txn: string): Path { ["state", "binary", ".backup-" + txn] }

  function FileBackup(txn: string, rel: Path): Path { Area(txn) + [Flat(rel)] }
  function DirBackup(txn: string, rel: Path): Path { Area(txn) + [Flat(rel) + ".dir"] }

  predicate Outside(txn: string, q: Path) { !(Area(txn) <= q) }

  /** The flattening is not injective: two files of one transaction may share a backup. */
  lemma {:induction false} FlatCollides()
    ensures FileBackup("t", ["a", "b"]) == FileBackup("t", ["a__b"])
  {
    assert ["a", "b"][1..] == ["b"];
    assert Flat(["b"]) == "b";
    assert "a" + "__" + "b" == "a__b";
  }

  lemma {:induction false} SplitAtUnderscore(a: string, b: string, x: string, y: string)
    requires '_' !in a && '_' !in b && a + "__" + x == b + "__" + y
    ensures a == b && x == y
  {
    var s := a + "__" + x;
    var u := b + "__" + y;
    assert forall i :: 0 <= i < |a| ==> s[i] == a[i];
    assert forall i :: 0 <= i < |b| ==> u[i] == b[i];
    assert s[|a|] == '_' && u[|b|] == '_';
    assert |a| == |b|;
    assert a == s[..|a|] && b == s[..|b|];
    assert x == s[|a| + 2..] && y == s[|b| + 2..];
  }

  predicate Plain(rel: Path) { rel != [] && forall c :: c in rel ==> '_' !in c }

  lemma {:induction false} UnderscoreTells(a: Path)
    requires Plain(a)
    ensures '_' in Flat(a) <==> |a| > 1
  {
    assert a[0] in a;
    if |a| > 1 {
      assert Flat(a)[|a[0]|] == '_';
    }
  }

  /** Names without underscores never collide. */
  lemma {:induction false} PlainNamesApart(a: Path, b: Path)
    requires Plain(a) && Plain(b) && Flat(a) == Flat(b)
    ensures a == b
  {
    assert a[0] in a && b[0] in b;
    UnderscoreTells(a);
    UnderscoreTells(b);
    if |a| > 1 {
      SplitAtUnderscore(a[0], b[0], Flat(a[1..]), Flat(b[1..]));
      PlainNamesApart(a[1..], b[1..]);
    }
    assert a == [a[0]] + a[1..] && b == [b[0]] + b[1..];
  }

  // --- what a rollback would give ------------------------------------------------------------

  predicate FileJournaled(j: Journal, q: Path) { q in j.removed || q in j.backups }

  /** `os.path.exists(bak)`: follows a symlink. */
  predicate Held(txn: string, t: Tree, q: Path)
  {
    var bak := FileBackup(txn, q);
    bak in t && (t[bak].Regular? || t[bak].kept)
  }

  predicate Backed(j: Journal, t: Tree, q: Path) { Held(j.txn, t, q) }

  predicate DirBacked(j: Journal, t: Tree, d: Path) { d in j.dirs && IsDir(t, DirBackup(j.txn, d)) }

  /** The innermost displaced directory around `q` that still has its backup. */
  function Cover(j: Journal, t: Tree, q: Path, n: nat): (r: Option<Path>)
    requires n <= |q|
    ensures r.Some? ==> DirBacked(j, t, r.value) && 0 < |r.value| <= n && r.value == q[..|r.value|]
    ensures r.Some? ==> forall k :: |r.value| < k <= n ==> !DirBacked(j, t, q[..k])
    ensures r.None? ==> forall k :: 0 < k <= n ==> !DirBacked(j, t, q[..k])
  {
    if n == 0 then None
    else if DirBacked(j, t, q[..n]) then Some(q[..n])
    else Cover(j, t, q, n - 1)
  }

  function CoverOf(j: Journal, t: Tree, q: Path): (r: Option<Path>)
    ensures r.Some? ==> DirBacked(j, t, r.value) && r.value < q && r.value != []
    ensures r.None? ==> forall k :: 0 < k < |q| ==> !DirBacked(j, t, q[..k])
  {
    if |q| == 0 then None else Cover(j, t, q, |q| - 1)
  }

  predicate InCreatedDir(j: Journal, q: Path) { exists d :: d in j.createdDirs && d < q }

  /** Value of `q` once directories and files are restored. */
  function Restored(j: Journal, t: Tree, q: Path): Option<Leaf>
  {
    if FileJournaled(j, q) && Backed(j, t, q) then Some(t[FileBackup(j.txn, q)])
    else
      match CoverOf(j, t, q)
      case Some(d) => Lookup(t, DirBackup(j.txn, d) + q[|d|..])
      case None => Lookup(t, q)
  }

  /** ... with what the transaction created removed first: the outcome of `rollback_files`. */
  function Unwound(j: Journal, t: Tree, q: Path): Option<Leaf>
  {
    if FileJournaled(j, q) && Backed(j, t, q) then Restored(j, t, q)
    else if CoverOf(j, t, q).Some? then Restored(j, t, q)
    else if InCreatedDir(j, q) || (q in j.created && IsFile(t, q)) then None
    else Lookup(t, q)
  }

  /** No two backups share a name, and nothing journaled touches the backup area. */
  ghost predicate WellFormed(j: Journal)
  {
    (forall q :: FileJournaled(j, q) ==> Outside(j.txn, q) && !(q <= Area(j.txn))) &&
    (forall q :: q in j.created ==> Outside(j.txn, q)) &&
    (forall d :: d in j.dirs || d in j.createdDirs ==> d != [] && !(d <= Area(j.txn)) && Outside(j.txn, d)) &&
    (forall p, q :: FileJournaled(j, p) && FileJournaled(j, q) && Flat(p) == Flat(q) ==> p == q) &&
    (forall d, e :: d in j.dirs && e in j.dirs && Flat(d) == Flat(e) ==> d == e) &&
    (forall q, d :: FileJournaled(j, q) && d in j.dirs ==> Flat(q) != Flat(d) + ".dir")
  }

  /** A rollback from here gives back exactly `before`. */
  ghost predicate Undoable(j: Journal, t: Tree, before: Tree)
  {
    WellFormed(j) && !j.committed &&
    forall q :: Outside(j.txn, q) ==> Unwound(j, t, q) == Lookup(before, q)
  }

  /** Nothing that gets restored is something the deletion passes of a second run would take. */
  predicate RerunSafe(j: Journal, result: Tree)
  {
    forall q :: q in result && Outside(j.txn, q) ==>
      !InCreatedDir(j, q) && !(q in j.created && FileLeaf(result[q]))
  }

  ghost predicate Agree(txn: string, t: Tree, u: Tree)
  {
    forall q :: Outside(txn, q) ==> Lookup(t, q) == Lookup(u, q)
  }

  // --- effect of single moves on the outcome ---------------------------------------------------

  function RemoveLeaf(t: Tree, q: Path): Tree { map p | p in t && p != q :: t[p] }

  function MoveLeaf(t: Tree, src: Path, dst: Path): Tree
    requires src in t
  {
    RemoveLeaf(t, src)[dst := t[src]]
  }

  /** The renames that set `rels` aside, in order; a name already taken is overwritten. */
  function Away(txn: string, t: Tree, rels: seq<Path>): Tree
  {
    if rels == [] then t
    else
      var r, first := rels[|rels| - 1], Away(txn, t, rels[..|rels| - 1]);
      if r in first then MoveLeaf(first, r, FileBackup(txn, r)) else first
  }

  /** The renames that put `rels` back, in order, for every backup that is there. */
  function Back(txn: string, t: Tree, rels: seq<Path>): Tree
  {
    if rels == [] then t
    else
      var r, first := rels[|rels| - 1], Back(txn, t, rels[..|rels| - 1]);
      if Held(txn, first, r) then MoveLeaf(first, FileBackup(txn, r), r) else first
  }

  function Rebase(p: Path, src: Path, dst: Path): Path
    requires src <= p
  {
    dst + p[|src|..]
  }

  /** `os.replace` of a directory onto a name nothing is under. */
  function MoveDir(t: Tree, src: Path, dst: Path): Tree
  {
    var stay := set p | p in t && !(src < p) && !(dst < p);
    var moved := set p | p in t && src < p :: Rebase(p, src, dst);
    map q | q in stay + moved && (dst < q ==> Rebase(q, dst, src) in t) && (!(dst < q) ==> q in t) ::
      if dst < q then t[Rebase(q, dst, src)] else t[q]
  }

  lemma {:induction false} MoveDirLookup(t: Tree, src: Path, dst: Path, q: Path)
    requires !(src <= dst) && !(dst <= src)
    ensures Lookup(MoveDir(t, src, dst), q) ==
      if dst < q then Lookup(t, Rebase(q, dst, src)) else if src < q then None else Lookup(t, q)
  {
    if dst < q {
      var p := Rebase(q, dst, src);
      assert p[..|src|] == src && p[|src|..] == q[|dst|..];
      assert Rebase(p, src, dst) == q;
    } else if src < q {
      forall p | p in t && src < p ensures Rebase(p, src, dst) != q {
        assert Rebase(p, src, dst)[..|dst|] == dst;
      }
    }
  }

  lemma {:induction false} BackupsApart(j: Journal, q: Path, d: Path)
    requires WellFormed(j)
    ensures !Outside(j.txn, FileBackup(j.txn, q)) && !Outside(j.txn, DirBackup(j.txn, d))
    ensures FileJournaled(j, q) && d in j.dirs ==> FileBackup(j.txn, q) != DirBackup(j.txn, d)
    ensures forall r :: !(DirBackup(j.txn, d) < FileBackup(j.txn, r))
    ensures forall e :: e in j.dirs && d in j.dirs && e != d ==>
      !(DirBackup(j.txn, e) <= DirBackup(j.txn, d)) && !(DirBackup(j.txn, d) <= DirBackup(j.txn, e))
    ensures forall r :: FileJournaled(j, r) && FileJournaled(j, q) && r != q ==>
      FileBackup(j.txn, r) != FileBackup(j.txn, q)
  {
    var a := Area(j.txn);
    assert FileBackup(j.txn, q)[..3] == a && DirBackup(j.txn, d)[..3] == a;
    assert FileBackup(j.txn, q)[3] == Flat(q) && DirBackup(j.txn, d)[3] == Flat(d) + ".dir";
    forall e | e in j.dirs && d in j.dirs && e != d
      ensures !(DirBackup(j.txn, e) <= DirBackup(j.txn, d)) && !(DirBackup(j.txn, d) <= DirBackup(j.txn, e))
    {
      assert DirBackup(j.txn, e)[3] == Flat(e) + ".dir";
      var x, y := Flat(e) + ".dir", Flat(d) + ".dir";
      assert Flat(e) == x[..|x| - 4] && Flat(d) == y[..|y| - 4];
    }
    forall r | FileJournaled(j, r) && FileJournaled(j, q) && r != q
      ensures FileBackup(j.txn, r) != FileBackup(j.txn, q)
    {
      assert FileBackup(j.txn, r)[3] == Flat(r);
    }
  }

  ghost predicate SameArea(txn: string, t: Tree, u: Tree)
  {
    forall p :: !Outside(txn, p) ==> Lookup(t, p) == Lookup(u, p)
  }

  lemma {:induction false} InArea(txn: string, d: Path, suffix: Path)
    ensures !Outside(txn, FileBackup(txn, d)) && !Outside(txn, DirBackup(txn, d) + suffix)
  {
    var a := Area(txn);
    assert FileBackup(txn, d)[..3] == a && (DirBackup(txn, d) + suffix)[..3] == a;
  }

  lemma {:induction false} SameAreaSameBackups(j: Journal, t: Tree, u: Tree, q: Path)
    requires SameArea(j.txn, t, u)
    ensures Backed(j, t, q) == Backed(j, u, q)
    ensures DirBacked(j, t, q) == DirBacked(j, u, q)
  {
    InArea(j.txn, q, []);
    assert Lookup(t, FileBackup(j.txn, q)) == Lookup(u, FileBackup(j.txn, q));
    forall p | DirBackup(j.txn, q) < p ensures p in t <==> p in u {
      InArea(j.txn, q, p[|DirBackup(j.txn, q)|..]);
      assert DirBackup(j.txn, q) + p[|DirBackup(j.txn, q)|..] == p;
      assert Lookup(t, p) == Lookup(u, p);
    }
  }

  lemma {:induction false} SameDirsSameCover(j: Journal, t: Tree, k: Journal, u: Tree, q: Path, n: nat)
    requires n <= |q|
    requires forall i :: 0 < i <= n ==> DirBacked(j, t, q[..i]) == DirBacked(k, u, q[..i])
    ensures Cover(j, t, q, n) == Cover(k, u, q, n)
  {
    if n > 0 { SameDirsSameCover(j, t, k, u, q, n - 1); }
  }

  /** A change outside the backup area shows only where nothing is restored. */
  lemma {:induction false} OutsideChange(j: Journal, t: Tree, u: Tree, q: Path)
    requires SameArea(j.txn, t, u)
    ensures CoverOf(j, t, q) == CoverOf(j, u, q)
    ensures Backed(j, t, q) == Backed(j, u, q)
    ensures (FileJournaled(j, q) && Backed(j, t, q)) || CoverOf(j, t, q).Some? ==>
      Unwound(j, t, q) == Unwound(j, u, q) && Restored(j, t, q) == Restored(j, u, q)
  {
    SameAreaSameBackups(j, t, u, q);
    if |q| > 0 {
      forall i | 0 < i <= |q| - 1 ensures DirBacked(j, t, q[..i]) == DirBacked(j, u, q[..i]) {
        SameAreaSameBackups(j, t, u, q[..i]);
      }
      SameDirsSameCover(j, t, j, u, q, |q| - 1);
    }
    InArea(j.txn, q, []);
    assert Lookup(t, FileBackup(j.txn, q)) == Lookup(u, FileBackup(j.txn, q));
    if CoverOf(j, t, q).Some? {
      var d := CoverOf(j, t, q).value;
      InArea(j.txn, d, q[|d|..]);
    }
  }

  /** No directory's backup is touched when a file moves to its own. */
  lemma {:induction false} FileMoveDirs(j: Journal, t: Tree, r: Path)
    requires WellFormed(j) && FileJournaled(j, r) && r in t
    ensures forall d :: DirBacked(j, t, d) == DirBacked(j, MoveLeaf(t, r, FileBackup(j.txn, r)), d)
  {
    var u := MoveLeaf(t, r, FileBackup(j.txn, r));
    forall d ensures DirBacked(j, t, d) == DirBacked(j, u, d) {
      BackupsApart(j, r, d);
      InArea(j.txn, d, []);
      forall p | DirBackup(j.txn, d) < p ensures p in t <==> p in u {
        InArea(j.txn, d, p[|DirBackup(j.txn, d)|..]);
        assert DirBackup(j.txn, d) + p[|DirBackup(j.txn, d)|..] == p;
      }
    }
  }

  /** Moving a file to its backup makes its present content the restored one. */
  lemma {:induction false} FileMove(j: Journal, t: Tree, r: Path, q: Path)
    requires WellFormed(j) && FileJournaled(j, r) && r in t && FileBackup(j.txn, r) !in t
    requires t[r].Regular? || t[r].kept
    requires Outside(j.txn, q)
    ensures var u := MoveLeaf(t, r, FileBackup(j.txn, r));
      CoverOf(j, u, q) == CoverOf(j, t, q) &&
      Unwound(j, u, q) == if q == r then Some(t[r]) else Unwound(j, t, q)
  {
    var u := MoveLeaf(t, r, FileBackup(j.txn, r));
    BackupsApart(j, r, r);
    BackupsApart(j, q, q);
    FileMoveDirs(j, t, r);
    if |q| > 0 { SameDirsSameCover(j, t, j, u, q, |q| - 1); }
    if CoverOf(j, t, q).Some? {
      var d := CoverOf(j, t, q).value;
      InArea(j.txn, d, q[|d|..]);
      BackupsApart(j, r, d);
      assert DirBackup(j.txn, d) < DirBackup(j.txn, d) + q[|d|..];
      assert Lookup(u, DirBackup(j.txn, d) + q[|d|..]) == Lookup(t, DirBackup(j.txn, d) + q[|d|..]);
    }
  }

  lemma {:induction false} Prefixes(a: Path, b: Path, p: Path)
    ensures a <= p && b <= p ==> a <= b || b <= a
    ensures a <= b && b <= p ==> a <= p
    ensures a <= b && b <= a ==> a == b
  {
    if a <= p && b <= p {
      if |a| <= |b| {
        assert a == p[..|a|] && b[..|a|] == p[..|a|];
      } else {
        assert b == p[..|b|] && a[..|b|] == p[..|b|];
      }
    }
    if a <= b && b <= p {
      assert a == b[..|a|] == p[..|a|];
    }
  }

  lemma {:induction false} NotIntoArea(j: Journal, d: Path, p: Path)
    requires !(d <= Area(j.txn)) && Outside(j.txn, d) && d <= p
    ensures Outside(j.txn, p)
  {
    Prefixes(d, Area(j.txn), p);
  }

  /** A directory outside the area and its backup contain neither one another. */
  lemma {:induction false} BackupIsElsewhere(j: Journal, d: Path)
    requires !(d <= Area(j.txn)) && Outside(j.txn, d)
    ensures !(d <= DirBackup(j.txn, d)) && !(DirBackup(j.txn, d) <= d)
  {
    var bak := DirBackup(j.txn, d);
    InArea(j.txn, d, []);
    assert bak + [] == bak && Area(j.txn) <= bak;
    Prefixes(d, Area(j.txn), bak);
    Prefixes(Area(j.txn), bak, d);
  }

  /** Which directories keep their backups when `d` moves between its place and its backup. */
  lemma {:induction false} DirMoveBackups(j: Journal, t: Tree, u: Tree, d: Path)
    requires WellFormed(j) && d in j.dirs
    requires u == MoveDir(t, d, DirBackup(j.txn, d)) || u == MoveDir(t, DirBackup(j.txn, d), d)
    ensures forall e :: e != d ==> DirBacked(j, t, e) == DirBacked(j, u, e)
    ensures forall q :: FileJournaled(j, q) ==> Lookup(u, FileBackup(j.txn, q)) == Lookup(t, FileBackup(j.txn, q))
    ensures forall q :: FileJournaled(j, q) ==> Backed(j, t, q) == Backed(j, u, q)
    ensures forall e, x :: e in j.dirs && e != d ==>
      Lookup(u, DirBackup(j.txn, e) + x) == Lookup(t, DirBackup(j.txn, e) + x)
  {
    var bak := DirBackup(j.txn, d);
    InArea(j.txn, d, []);
    assert bak + [] == bak;
    BackupIsElsewhere(j, d);
    forall p | !Outside(j.txn, p) && !(bak < p) ensures Lookup(u, p) == Lookup(t, p) {
      Prefixes(d, Area(j.txn), p);
      MoveDirLookup(t, d, bak, p);
      MoveDirLookup(t, bak, d, p);
    }
    forall q | FileJournaled(j, q) ensures Lookup(u, FileBackup(j.txn, q)) == Lookup(t, FileBackup(j.txn, q)) {
      BackupsApart(j, q, d);
    }
    forall e, x | e in j.dirs && e != d
      ensures Lookup(u, DirBackup(j.txn, e) + x) == Lookup(t, DirBackup(j.txn, e) + x)
    {
      BackupsApart(j, d, e);
      InArea(j.txn, e, x);
      var p := DirBackup(j.txn, e) + x;
      Prefixes(bak, DirBackup(j.txn, e), p);
    }
    forall e | e in j.dirs && e != d ensures DirBacked(j, t, e) == DirBacked(j, u, e) {
      var b := DirBackup(j.txn, e);
      forall p | b < p ensures p in t <==> p in u {
        assert b + p[|b|..] == p;
        assert Lookup(u, b + p[|b|..]) == Lookup(t, b + p[|b|..]);
      }
    }
  }

  lemma {:induction false} CoverSteps(j: Journal, t: Tree, u: Tree, q: Path, d: Path, n: nat)
    requires n <= |q| && forall e :: e != d ==> DirBacked(j, t, e) == DirBacked(j, u, e)
    requires !(d <= q[..n]) || d == []
    requires d == [] ==> !DirBacked(j, t, d) && !DirBacked(j, u, d)
    ensures Cover(j, t, q, n) == Cover(j, u, q, n)
  {
    if n > 0 {
      assert q[..n][..n - 1] == q[..n - 1];
      CoverSteps(j, t, u, q, d, n - 1);
    }
  }

  lemma {:induction false} AsideCover(j: Journal, t: Tree, u: Tree, q: Path, d: Path, n: nat)
    requires n <= |q| && d <= q[..n] && d != []
    requires forall e :: e != d ==> DirBacked(j, t, e) == DirBacked(j, u, e)
    requires forall k :: 0 < k <= |d| ==> !DirBacked(j, t, q[..k])
    ensures Cover(j, u, q, n) ==
      if Cover(j, t, q, n).Some? then Cover(j, t, q, n)
      else if DirBacked(j, u, d) then Some(d) else None
  {
    if n > |d| {
      assert q[..n][..n - 1] == q[..n - 1];
      AsideCover(j, t, u, q, d, n - 1);
    } else {
      assert q[..n] == d;
      assert !(d <= q[..n - 1]);
      CoverSteps(j, t, u, q, d, n - 1);
      NoCover(j, t, q, n);
    }
  }

  lemma {:induction false} DirMoveCover(j: Journal, t: Tree, u: Tree, d: Path, q: Path)
    requires d != [] && !DirBacked(j, t, d) && CoverOf(j, t, d).None?
    requires forall e :: e != d ==> DirBacked(j, t, e) == DirBacked(j, u, e)
    ensures CoverOf(j, u, q) ==
      if d < q && CoverOf(j, t, q).None? && DirBacked(j, u, d) then Some(d) else CoverOf(j, t, q)
  {
    if d < q {
      forall k | 0 < k <= |d| ensures !DirBacked(j, t, q[..k]) {
        assert q[..k] == d[..k] && d[..|d|] == d;
      }
      AsideCover(j, t, u, q, d, |q| - 1);
    } else if q != [] {
      assert d <= q[..|q| - 1] ==> d < q;
      CoverSteps(j, t, u, q, d, |q| - 1);
    }
  }

  /** Where a leaf is looked up once `d` has moved to its backup. */
  lemma {:induction false} AsideLookups(j: Journal, t: Tree, d: Path, q: Path)
    requires !(d <= Area(j.txn)) && Outside(j.txn, d) && Outside(j.txn, q)
    ensures var u := MoveDir(t, d, DirBackup(j.txn, d));
      Lookup(u, q) == (if d < q then None else Lookup(t, q)) &&
      (d < q ==> Lookup(u, DirBackup(j.txn, d) + q[|d|..]) == Lookup(t, q))
  {
    var bak := DirBackup(j.txn, d);
    BackupIsElsewhere(j, d);
    InArea(j.txn, d, []);
    assert bak + [] == bak && Area(j.txn) <= bak;
    Prefixes(Area(j.txn), bak, q);
    MoveDirLookup(t, d, bak, q);
    if d < q {
      MoveDirLookup(t, d, bak, bak + q[|d|..]);
      assert Rebase(bak + q[|d|..], bak, d) == q;
    }
  }

  /** Moving a directory to its backup keeps the outcome when nothing under it was to be undone. */
  lemma {:induction false} DirMoveAside(j: Journal, t: Tree, d: Path, q: Path)
    requires WellFormed(j) && d in j.dirs && !DirBacked(j, t, d) && CoverOf(j, t, d).None?
    requires Outside(j.txn, q)
    ensures var u := MoveDir(t, d, DirBackup(j.txn, d));
      Unwound(j, u, q) ==
        if d < q && !(FileJournaled(j, q) && Backed(j, t, q)) && CoverOf(j, t, q).None? && DirBacked(j, u, d)
        then Lookup(t, q)
        else if d < q && !(FileJournaled(j, q) && Backed(j, t, q)) && CoverOf(j, t, q).None? then None
        else Unwound(j, t, q)
  {
    var u := MoveDir(t, d, DirBackup(j.txn, d));
    DirMoveBackups(j, t, u, d);
    DirMoveCover(j, t, u, d, q);
    AsideLookups(j, t, d, q);
  }

  lemma {:induction false} NoCover(j: Journal, t: Tree, q: Path, n: nat)
    requires n <= |q| && forall k :: 0 < k <= n ==> !DirBacked(j, t, q[..k])
    ensures Cover(j, t, q, n).None?
  {
    if n > 0 { NoCover(j, t, q, n - 1); }
  }

  lemma {:induction false} BackAtHome(j: Journal, t: Tree, d: Path)
    requires WellFormed(j) && d in j.dirs && CoverOf(j, t, d).None?
    ensures var u := MoveDir(t, DirBackup(j.txn, d), d); !DirBacked(j, u, d) && CoverOf(j, u, d).None?
  {
    var bak := DirBackup(j.txn, d);
    var u := MoveDir(t, bak, d);
    DirMoveBackups(j, t, u, d);
    BackupIsElsewhere(j, d);
    forall p | bak < p ensures p !in u {
      MoveDirLookup(t, bak, d, p);
      Prefixes(d, bak, p);
    }
    SameDirsSameCover(j, t, j, u, d, |d| - 1);
  }

  lemma {:induction false} BackLookups(j: Journal, t: Tree, d: Path, q: Path)
    requires !(d <= Area(j.txn)) && Outside(j.txn, d) && Outside(j.txn, q)
    ensures var u := MoveDir(t, DirBackup(j.txn, d), d);
      Lookup(u, q) == if d < q then Lookup(t, DirBackup(j.txn, d) + q[|d|..]) else Lookup(t, q)
  {
    var bak := DirBackup(j.txn, d);
    BackupIsElsewhere(j, d);
    InArea(j.txn, d, []);
    assert bak + [] == bak && Area(j.txn) <= bak;
    Prefixes(Area(j.txn), bak, q);
    MoveDirLookup(t, bak, d, q);
    if d < q {
      assert Rebase(q, d, bak) == bak + q[|d|..];
    }
  }

  /** Renaming a backup back, onto a place already cleared, restores nothing else. */
  lemma {:induction false} DirMoveBack(j: Journal, t: Tree, d: Path, q: Path)
    requires WellFormed(j) && DirBacked(j, t, d) && CoverOf(j, t, d).None? && !IsDir(t, d)
    requires Outside(j.txn, q)
    ensures var u := MoveDir(t, DirBackup(j.txn, d), d);
      !DirBacked(j, u, d) && CoverOf(j, u, d).None? && Restored(j, u, q) == Restored(j, t, q)
  {
    var u := MoveDir(t, DirBackup(j.txn, d), d);
    BackAtHome(j, t, d);
    DirMoveBackups(j, t, u, d);
    DirMoveCover(j, u, t, d, q);
    BackLookups(j, t, d, q);
  }
}
