/**
 What a collision of backup names costs (lhpc/core/binary_install.py:576-600, 713-722): of two files
 set aside under one name at most one comes back, whatever the order, and without one all do.
 */
module BinaryCollisions {
  import opened Options
  import opened BinaryTxn

  ghost predicate AllOutside(txn: string, rels: seq<Path>) { forall r :: r in rels ==> Outside(txn, r) }

  /** No two of the paths share a backup name. */
  predicate FlatApart(rels: seq<Path>)
  {
    forall i, k :: 0 <= i < |rels| && 0 <= k < |rels| && Flat(rels[i]) == Flat(rels[k]) ==> rels[i] == rels[k]
  }

  lemma {:induction false} LastOf(rels: seq<Path>, p: Path)
    requires rels != []
    ensures p in rels <==> p in rels[..|rels| - 1] || p == rels[|rels| - 1]
    ensures FlatApart(rels) ==> FlatApart(rels[..|rels| - 1])
  {
    assert rels == rels[..|rels| - 1] + [rels[|rels| - 1]];
  }

  lemma {:induction false} BackupInside(txn: string, r: Path)
    ensures !Outside(txn, FileBackup(txn, r))
  {
    InArea(txn, r, []);
  }

  lemma {:induction false} BackupTells(txn: string, a: Path, b: Path)
    ensures FileBackup(txn, a) == FileBackup(txn, b) <==> Flat(a) == Flat(b)
  {
    assert FileBackup(txn, a)[3] == Flat(a) && FileBackup(txn, b)[3] == Flat(b);
  }

  /** What was set aside is not in its place any more. */
  lemma {:induction false} AwayIsGone(txn: string, t: Tree, rels: seq<Path>, p: Path)
    requires p in rels && Outside(txn, p)
    ensures p !in Away(txn, t, rels)
  {
    var r := rels[|rels| - 1];
    LastOf(rels, p);
    BackupInside(txn, r);
    if p in rels[..|rels| - 1] { AwayIsGone(txn, t, rels[..|rels| - 1], p); }
  }

  /** Of two paths with one backup name, and that backup, at most one is there. */
  predicate OneOfThem(txn: string, t: Tree, p: Path, q: Path)
  {
    !(p in t && q in t) && (FileBackup(txn, p) in t ==> p !in t && q !in t)
  }

  lemma {:induction false} BackKeepsOne(txn: string, t: Tree, rels: seq<Path>, p: Path, q: Path)
    requires AllOutside(txn, rels) && p != q && Flat(p) == Flat(q) && Outside(txn, p) && Outside(txn, q)
    requires OneOfThem(txn, t, p, q)
    ensures OneOfThem(txn, Back(txn, t, rels), p, q)
  {
    if rels != [] {
      var r := rels[|rels| - 1];
      LastOf(rels, r);
      BackupInside(txn, r);
      BackKeepsOne(txn, t, rels[..|rels| - 1], p, q);
    }
  }

  /** Two files with one backup name, both set aside: whatever the orders, they do not both come back. */
  lemma {:induction false} CollisionLosesOne(txn: string, t: Tree, rels: seq<Path>, back: seq<Path>, p: Path, q: Path)
    requires AllOutside(txn, rels) && AllOutside(txn, back)
    requires p in rels && q in rels && p != q && Flat(p) == Flat(q)
    ensures var end := Back(txn, Away(txn, t, rels), back); !(p in end && q in end)
  {
    AwayIsGone(txn, t, rels, p);
    AwayIsGone(txn, t, rels, q);
    BackKeepsOne(txn, Away(txn, t, rels), back, p, q);
  }

  // --- without a collision ----------------------------------------------------------------------

  lemma {:induction false} AwayHolds(txn: string, t: Tree, rels: seq<Path>, x: Path)
    requires AllOutside(txn, rels) && FlatApart(rels) && forall r :: r in rels ==> r in t
    ensures Outside(txn, x) ==> Lookup(Away(txn, t, rels), x) == if x in rels then None else Lookup(t, x)
    ensures x in rels ==> Lookup(Away(txn, t, rels), FileBackup(txn, x)) == Lookup(t, x)
  {
    if rels != [] {
      var r, rest := rels[|rels| - 1], rels[..|rels| - 1];
      LastOf(rels, x);
      LastOf(rels, r);
      assert forall y :: y in rest ==> y in rels;
      BackupInside(txn, r);
      AwayHolds(txn, t, rest, r);
      AwayHolds(txn, t, rest, x);
      if r in rest { AwayIsGone(txn, t, rest, r); }
      if x in rest && x != r {
        ApartIn(rels, x, r);
        BackupTells(txn, x, r);
      }
    }
  }

  lemma {:induction false} ApartIn(rels: seq<Path>, p: Path, q: Path)
    requires FlatApart(rels) && p in rels && q in rels && p != q
    ensures Flat(p) != Flat(q)
  {
    var i :| 0 <= i < |rels| && rels[i] == p;
    var k :| 0 <= k < |rels| && rels[k] == q;
  }

  lemma {:induction false} BackHolds(txn: string, u: Tree, back: seq<Path>, x: Path)
    requires AllOutside(txn, back) && FlatApart(back) && Outside(txn, x)
    ensures Lookup(Back(txn, u, back), x) ==
      if x in back && Held(txn, u, x) then Some(u[FileBackup(txn, x)]) else Lookup(u, x)
    ensures forall y :: y !in back && (forall b :: b in back ==> Flat(b) != Flat(y)) ==>
      Lookup(Back(txn, u, back), FileBackup(txn, y)) == Lookup(u, FileBackup(txn, y))
  {
    if back != [] {
      var r, rest := back[|back| - 1], back[..|back| - 1];
      assert forall y :: y in rest ==> y in back;
      LastOf(back, x);
      LastOf(back, r);
      BackupInside(txn, r);
      BackHolds(txn, u, rest, x);
      BackHolds(txn, u, rest, r);
      forall b | b in rest && b != r ensures Flat(b) != Flat(r) { ApartIn(back, b, r); }
      if r in rest { BackIsEmptied(txn, u, rest, r); }
      forall y | y !in back && (forall b :: b in back ==> Flat(b) != Flat(y))
        ensures Lookup(Back(txn, u, back), FileBackup(txn, y)) == Lookup(u, FileBackup(txn, y))
      {
        BackupInside(txn, y);
        BackupTells(txn, y, r);
        assert Outside(txn, r) && Flat(r) != Flat(y);
      }
    }
  }

  /** A backup that was put back is not there any more. */
  lemma {:induction false} BackIsEmptied(txn: string, u: Tree, back: seq<Path>, r: Path)
    requires AllOutside(txn, back) && r in back
    ensures !Held(txn, Back(txn, u, back), r)
  {
    var l, rest := back[|back| - 1], back[..|back| - 1];
    LastOf(back, r);
    BackupInside(txn, r);
    BackupInside(txn, l);
    assert forall y :: y in rest ==> y in back;
    if l != r { BackIsEmptied(txn, u, rest, r); }
  }

  /** Set aside and put back, in any orders: everything is as it was exactly when no two share a backup name. */
  lemma {:induction false} ComesBackExactly(txn: string, t: Tree, rels: seq<Path>, back: seq<Path>)
    requires AllOutside(txn, rels) && forall r :: r in rels ==> r in t && (t[r].Regular? || t[r].kept)
    requires forall r :: r in rels <==> r in back
    ensures Agree(txn, Back(txn, Away(txn, t, rels), back), t) <==> FlatApart(rels)
  {
    var u := Away(txn, t, rels);
    if FlatApart(rels) {
      forall p, q | p in back && q in back && Flat(p) == Flat(q) ensures p == q {
        if p != q { ApartIn(rels, p, q); }
      }
      forall x | Outside(txn, x) ensures Lookup(Back(txn, u, back), x) == Lookup(t, x) {
        AwayHolds(txn, t, rels, x);
        BackHolds(txn, u, back, x);
      }
    } else {
      var i, k :| 0 <= i < |rels| && 0 <= k < |rels| && Flat(rels[i]) == Flat(rels[k]) && rels[i] != rels[k];
      CollisionLosesOne(txn, t, rels, back, rels[i], rels[k]);
      assert rels[i] in rels && rels[k] in rels;
      assert Lookup(t, rels[i]).Some? && Lookup(t, rels[k]).Some?;
    }
  }
}
