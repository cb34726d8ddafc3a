/**
 What the firewall helper keeps on disk and in the kernel, and what every step of every operation
 must preserve (lhpc/core/firewall_helper.py:1129-1234, 1327-1538).
 */
module FirewallState {
  import opened Options
  import opened FirewallModel

  /** The tri-state privileged read. An unreadable file has a `value` too: what it held when last read. */
  datatype File<T> = Absent | Unreadable(value: T) | Valid(value: T)

  datatype Meta = Meta(protocol: int, id: string)
  datatype Snap = Snap(protocol: int, cand: Candidate, model: Model, transitional: bool)
  datatype Phase = Begin | Staged | OtherPhase
  datatype Journal =
    | Apply(txid: nat, phase: Phase, prior: Option<Snap>, next: Snap)
    | Reset(record: Option<Meta>)
    | OtherOp

  /** The live `inet lhpc` table: `owner` is the id in its ownership comment, if it bears one. */
  datatype Live = NoTable | Table(owner: Option<string>, rules: Model)

  datatype Disk = Disk(meta: File<Meta>, snapshot: File<Snap>, staging: map<nat, Snap>,
                       journal: File<Journal>, transition: bool, live: Live)

  datatype Party = Helper | Others
  datatype Step = Step(party: Party, before: Disk, after: Disk)

  const PROTOCOL_VERSION := 2

  predicate Owns(l: Live, id: string) { l.Table? && l.owner == Some(id) }

  /** The ownership record is there, readable or not, and names `id`. */
  predicate Recorded(d: Disk, id: string) { !d.meta.Absent? && d.meta.value.id == id }

  /** Every owned table, accepted snapshot and apply journal matches the ownership record. */
  predicate Inv(d: Disk)
  {
    (d.live.Table? && d.live.owner.Some? ==> Recorded(d, d.live.owner.value)) &&
    (d.snapshot.Valid? ==> Recorded(d, d.snapshot.value.model.owner)) &&
    (d.journal.Valid? && d.journal.value.Apply? ==>
       Recorded(d, d.journal.value.next.model.owner) &&
       (d.journal.value.prior.Some? ==> Recorded(d, d.journal.value.prior.value.model.owner)))
  }

  /** The journal names `id`: the id of a snapshot it switches between, or of the record a reset removes. */
  predicate JournalNames(j: Journal, id: string)
  {
    match j
    case Apply(_, _, prior, next) => next.model.owner == id || (prior.Some? && prior.value.model.owner == id)
    case Reset(record) => record.Some? && record.value.id == id
    case OtherOp => false
  }

  /**
   The id is one of lhpc's own: in the record, the accepted snapshot or the journal, readable or not.
   (A teardown without any record looks for the empty id, which is never minted.)
   */
  predicate Known(d: Disk, id: string)
  {
    id == "" || Recorded(d, id) || (!d.snapshot.Absent? && d.snapshot.value.model.owner == id) ||
    (!d.journal.Absent? && JournalNames(d.journal.value, id))
  }

  /**
   What every step of every run keeps, whatever failed before it: the helper touches a live table only
   where none is, or one that bears an id of lhpc's own, and changes no record whose table is live.
   */
  predicate CoreStep(s: Step)
  {
    (s.party == Helper && s.after.live != s.before.live ==>
       s.before.live.NoTable? || (s.before.live.owner.Some? && Known(s.before, s.before.live.owner.value))) &&
    (s.party == Helper && !s.before.meta.Absent? && s.after.meta != s.before.meta ==>
       !Owns(s.before.live, s.before.meta.value.id))
  }

  ghost predicate AllCore(steps: seq<Step>) { forall i :: 0 <= i < |steps| ==> CoreStep(steps[i]) }

  /** While no record was lost: what is on disk agrees, and the id a touched table bears is the record's. */
  predicate SafeStep(s: Step)
  {
    Inv(s.after) &&
    (s.party == Helper && s.after.live != s.before.live ==>
       s.before.live.NoTable? || (s.before.live.owner.Some? && Recorded(s.before, s.before.live.owner.value)))
  }

  ghost predicate AllSafe(steps: seq<Step>) { forall i :: 0 <= i < |steps| ==> SafeStep(steps[i]) }

  /** The teardown's one unsafe step: the record goes although the snapshot's unlink has failed. */
  predicate LosesRecord(s: Step)
  {
    s.party == Helper && !s.before.meta.Absent? && s.after.meta.Absent? && s.after.snapshot.Valid?
  }

  function LossOf(s: Step): seq<Step> { if LosesRecord(s) then [s] else [] }

  /** Another party may remove the table, replace it, or edit it; it cannot forge our comment. */
  predicate OthersMay(before: Live, after: Live)
  {
    after.NoTable? || after.owner.None? || (before.Table? && before.owner == after.owner)
  }

  /** A file that is there may become unreadable at any time. */
  predicate MayRot<T(==)>(before: File<T>, after: File<T>)
  {
    after == before || (!before.Absent? && after == Unreadable(before.value))
  }

  function Rotten<T>(f: File<T>): (r: File<T>)
    ensures f.Absent? <==> r.Absent?
  {
    if f.Absent? then f else Unreadable(f.value)
  }

  // --- one apply, across crashes -----------------------------------------------------------------

  function SnapFile(o: Option<Snap>): File<Snap> { if o.Some? then Valid(o.value) else Absent }

  function LiveOf(o: Option<Snap>): Live
  {
    if o.Some? then Table(Some(o.value.model.owner), o.value.model) else NoTable
  }

  predicate Settled(d: Disk, o: Option<Snap>) { d.snapshot == SnapFile(o) && d.live == LiveOf(o) }

  /** `o` is what was accepted, and live; or, after a power loss, nothing is live (`off`). */
  predicate At(d: Disk, o: Option<Snap>, off: bool)
  {
    d.snapshot == SnapFile(o) && (d.live == LiveOf(o) || (off && d.live.NoTable?))
  }

  /** Everything a crash during the switch from `o` to `n` may leave; `off`: or a power loss. */
  predicate Between(d: Disk, o: Option<Snap>, n: Snap, off: bool)
  {
    !d.meta.Unreadable? && !d.journal.Unreadable? &&
    if d.journal.Absent? then d.staging == map[] && (At(d, o, off) || At(d, Some(n), off))
    else
      d.journal.value.Apply? && d.journal.value.prior == o && d.journal.value.next == n &&
      d.staging.Keys <= {d.journal.value.txid} &&
      match d.journal.value.phase
      case Begin => At(d, o, off)
      case Staged =>
        (d.snapshot == SnapFile(o) || d.snapshot == Valid(n)) &&
        (d.live == LiveOf(o) || d.live == LiveOf(Some(n)) || (off && d.live.NoTable?))
      case OtherPhase => false
  }

  /** A switch that was under way when the helper was killed. */
  predicate Interrupted(d: Disk, txid: nat, o: Option<Snap>, n: Snap, off: bool)
  {
    Between(d, o, n, off) && d.journal == Valid(Apply(txid, Staged, o, n))
  }

  ghost predicate BetweenSince(steps: seq<Step>, k: nat, o: Option<Snap>, n: Snap, off: bool)
  {
    forall i :: k <= i < |steps| ==> Between(steps[i].after, o, n, off)
  }

  /** Nothing, or one step to `d`. */
  ghost predicate OneStep(before: seq<Step>, after: seq<Step>, d: Disk)
  {
    after == before || exists s :: after == before + [s] && s.after == d
  }

  lemma {:induction false} ThreeSteps(a: seq<Step>, b: seq<Step>, c: seq<Step>, d: seq<Step>, e: Disk, f: Disk, g: Disk)
    requires OneStep(a, b, e) && OneStep(b, c, f) && OneStep(c, d, g)
    ensures a <= d && forall i :: |a| <= i < |d| ==> d[i].after in {e, f, g}
  {}

  /** Opening a switch: the journal, the staged snapshot, the journal again. */
  lemma {:induction false} Staging(steps: seq<Step>, k: nat, d: Disk, txid: nat, o: Option<Snap>, n: Snap)
    requires var e := d.(journal := Valid(Apply(txid, Begin, o, n)));
      var f := e.(staging := d.staging[txid := n]);
      forall i :: k <= i < |steps| ==> steps[i].after in {e, f, f.(journal := Valid(Apply(txid, Staged, o, n)))}
    ensures d.journal.Absent? && Between(d, o, n, false) && Settled(d, o) ==> BetweenSince(steps, k, o, n, false)
  {}

  /** Undoing an interrupted switch that was not promoted: no staging, the old ruleset live, no journal. */
  lemma {:induction false} RollingBack(steps: seq<Step>, k: nat, d: Disk, txid: nat, o: Option<Snap>, n: Snap)
    requires var e := d.(staging := d.staging - {txid});
      forall i :: k <= i < |steps| ==>
        steps[i].after in {e, e.(live := LiveOf(o)), e.(live := LiveOf(o), journal := Absent)}
    ensures forall off :: Interrupted(d, txid, o, n, off) && d.snapshot == SnapFile(o) ==>
      BetweenSince(steps, k, o, n, off)
  {
    var e := d.(staging := d.staging - {txid});
    forall off | Interrupted(d, txid, o, n, off) && d.snapshot == SnapFile(o)
      ensures Between(e, o, n, off) && Between(e.(live := LiveOf(o)), o, n, off) &&
        Between(e.(live := LiveOf(o), journal := Absent), o, n, off)
    {}
  }

  // --- the reset's unlinks --------------------------------------------------------------------------

  /** The proven teardown's unlinks in their order; a failing unlink is swallowed. */
  function ResetFiles(d: Disk, snapKept: bool, transKept: bool, metaKept: bool): Disk
  {
    d.(snapshot := if snapKept then d.snapshot else Absent, transition := d.transition && transKept,
       meta := if metaKept then d.meta else Absent)
  }

  /**
   A snapshot survives without its ownership record exactly when its own unlink failed and the
   record's did not: the one way the teardown can break the invariant.
   */
  lemma {:induction false} ResetLosesTheRecord(d: Disk, snapKept: bool, transKept: bool, metaKept: bool)
    requires Inv(d) && !d.journal.Absent? && (d.journal.Valid? ==> d.journal.value.Reset?)
    requires d.live.NoTable? || d.live.owner.None?
    ensures Inv(ResetFiles(d, snapKept, transKept, metaKept)) <==> !(d.snapshot.Valid? && snapKept && !metaKept)
  {
    var e := ResetFiles(d, snapKept, transKept, metaKept);
    if metaKept { assert e.meta == d.meta; }
  }

  /** A disk on which it happens. */
  lemma {:induction false} SnapshotOutlivesRecord(s: Snap) returns (d: Disk)
    ensures Inv(d) && d.live.NoTable? && d.journal.Valid? && d.journal.value.Reset? && d.snapshot == Valid(s)
    ensures var e := ResetFiles(d, true, false, false); e.snapshot == Valid(s) && e.meta.Absent? && !Inv(e)
  {
    var m := Meta(PROTOCOL_VERSION, s.model.owner);
    d := Disk(Valid(m), Valid(s), map[], Valid(Reset(Some(m))), false, NoTable);
  }
}
