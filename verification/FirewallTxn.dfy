/**
 The helper's operations, one durable step at a time, against other parties that may swap the
 live table between its check-then-act blocks and against files that may become unreadable.
 `steps` records every change, so a statement about its members covers every crash point.
 */
module FirewallTxn {
  import opened Options
  import opened FirewallModel
  import opened FirewallPackets
  import opened FirewallCompiler
  import opened FirewallState

  datatype Seen = SeenAbsent | Ours | NotOurs | ListError
  datatype Loaded = LoadVerified | LoadNotOwned | LoadListError | LoadFailed | LoadMismatch
  datatype Code = ExitOk | ExitFail | ExitProtocol | ExitCandidate | ExitNotOwned | ExitInternal | Uncaught

  function SeenOf(l: Live, id: string): Seen
  {
    if l.NoTable? then SeenAbsent else if Owns(l, id) then Ours else NotOurs
  }

  class Helper {
    /** Nobody else acts, files stay readable, and every nft command and unlink succeeds. */
    const calm: bool
    var disk: Disk
    var steps: seq<Step>
    /** The steps that took the record away from a surviving snapshot; only `CoreStep` is promised after one. */
    ghost var losses: seq<Step>

    constructor (d: Disk, quiet: bool)
      ensures disk == d && calm == quiet && steps == [] && losses == []
    {
      disk, calm, steps, losses := d, quiet, [], [];
    }

    ghost predicate Safe()
      reads this
    {
      AllCore(steps) && (losses == [] ==> Inv(disk) && AllSafe(steps)) &&
      (forall s :: s in losses ==> LosesRecord(s)) && (calm ==> losses == [])
    }

    ghost predicate Since(s: seq<Step>, l: seq<Step>)
      reads this
    {
      s <= steps && l <= losses
    }

    /** One durable step. */
    method Do(d: Disk)
      requires Safe() && (calm ==> !LosesRecord(Step(Party.Helper, disk, d)))
      requires CoreStep(Step(Party.Helper, disk, d))
      requires losses == [] && !LosesRecord(Step(Party.Helper, disk, d)) ==> SafeStep(Step(Party.Helper, disk, d))
      modifies this
      ensures disk == d && steps == old(steps) + [Step(Party.Helper, old(disk), d)] && Safe()
      ensures losses == old(losses) + LossOf(Step(Party.Helper, old(disk), d))
    {
      ghost var step := Step(Party.Helper, disk, d);
      losses := losses + LossOf(step);
      steps := steps + [Step(Party.Helper, disk, d)];
      disk := d;
    }

    /** What other parties may do between two of the helper's steps. */
    method OthersAct()
      requires Safe()
      modifies this
      ensures Safe() && old(steps) <= steps && losses == old(losses) &&
        (calm ==> disk == old(disk) && steps == old(steps))
      ensures disk == old(disk).(live := disk.live, meta := disk.meta, snapshot := disk.snapshot,
                                 journal := disk.journal)
      ensures HelperIdle(steps, |old(steps)|)
      ensures OthersMay(old(disk).live, disk.live) && MayRot(old(disk).meta, disk.meta)
      ensures MayRot(old(disk).snapshot, disk.snapshot) && MayRot(old(disk).journal, disk.journal)
    {
      var l: Live, m: bool, s: bool, j: bool := *, *, *, *;
      if !calm && OthersMay(disk.live, l) {
        var d := disk.(live := l,
                       meta := if m then Rotten(disk.meta) else disk.meta,
                       snapshot := if s then Rotten(disk.snapshot) else disk.snapshot,
                       journal := if j then Rotten(disk.journal) else disk.journal);
        steps := steps + [Step(Others, disk, d)];
        disk := d;
      }
    }

    /** `live_table_state`. */
    method LiveState(id: string) returns (seen: Seen)
      ensures seen == ListError || seen == SeenOf(disk.live, id)
      ensures calm ==> seen != ListError
    {
      var fails: bool := *;
      seen := if fails && !calm then ListError else SeenOf(disk.live, id);
    }

    /** `nft destroy table`, right after the table was seen to be ours; false when nft refused. */
    method DestroyOurs(id: string) returns (done: bool)
      requires Safe() && Owns(disk.live, id) && Known(disk, id)
      modifies this
      ensures Safe() && losses == old(losses) && disk == old(disk).(live := if done then NoTable else old(disk).live)
      ensures done ==> steps == old(steps) + [Step(Party.Helper, old(disk), disk)]
      ensures !done ==> steps == old(steps)
      ensures calm ==> done
    {
      var refused: bool := *;
      done := calm || !refused;
      if done {
        Do(disk.(live := NoTable));
      }
    }

    /** `_load_snapshot_live`: guard and load as one block, then verify what is live. */
    method LoadSnapshot(s: Snap) returns (verdict: Loaded)
      requires Safe() && (losses == [] ==> Recorded(disk, s.model.owner)) && Known(disk, s.model.owner)
      modifies this
      ensures Safe() && Since(old(steps), old(losses))
      ensures disk == old(disk).(live := disk.live, meta := disk.meta, snapshot := disk.snapshot,
                                 journal := disk.journal)
      ensures MayRot(old(disk).meta, disk.meta) && MayRot(old(disk).snapshot, disk.snapshot)
      ensures MayRot(old(disk).journal, disk.journal)
      ensures verdict == LoadVerified ==> disk.live == LiveOf(Some(s))
      ensures calm && SeenOf(old(disk).live, s.model.owner) != NotOurs ==>
        verdict == LoadVerified && disk == old(disk).(live := LiveOf(Some(s))) &&
        steps == old(steps) + [Step(Party.Helper, old(disk), disk)]
    {
      var seen := LiveState(s.model.owner);
      if seen == NotOurs { return LoadNotOwned; }
      if seen == ListError { return LoadListError; }
      // nft may apply the text and still report failure, or apply something other than the model
      var applied: bool, rules: Model, reported: bool := *, *, *;
      if calm {
        applied, rules, reported := true, s.model, true;
      }
      if applied {
        Do(disk.(live := Table(Some(s.model.owner), rules)));
      }
      if !applied || !reported { return LoadFailed; }
      OthersAct();
      var listed: bool := *;
      verdict := if (listed || calm) && disk.live == LiveOf(Some(s)) then LoadVerified else LoadMismatch;
    }

    /** `_durable_unlink` of the journal; a failure is swallowed. */
    method DropJournal()
      requires Safe()
      modifies this
      ensures Safe() && losses == old(losses) && (disk == old(disk) || disk == old(disk).(journal := Absent))
      ensures disk == old(disk) || steps == old(steps) + [Step(Party.Helper, old(disk), disk)]
      ensures disk == old(disk) ==> steps == old(steps)
      ensures calm ==> disk.journal.Absent?
    {
      var kept: bool := *;
      if (calm || !kept) && !disk.journal.Absent? {
        Do(disk.(journal := Absent));
      }
    }

    /** `_durable_unlink` of a staged snapshot. */
    method DropStaged(txid: nat)
      requires Safe()
      modifies this
      ensures Safe() && losses == old(losses)
      ensures disk == old(disk) || disk == old(disk).(staging := old(disk).staging - {txid})
      ensures disk == old(disk) || steps == old(steps) + [Step(Party.Helper, old(disk), disk)]
      ensures disk == old(disk) ==> steps == old(steps)
      ensures calm ==> txid !in disk.staging
    {
      var kept: bool := *;
      if (calm || !kept) && txid in disk.staging {
        Do(disk.(staging := disk.staging - {txid}));
      }
    }

    /** `_finish_reset`: the record goes only after the owned table is proven gone. */
    method FinishReset(record: Option<Meta>) returns (cleared: bool)
      requires Safe() && !(disk.journal.Valid? && disk.journal.value.Apply?)
      requires record.Some? ==> Known(disk, record.value.id)
      modifies this
      ensures Safe() && Since(old(steps), old(losses))
      ensures calm && (old(disk).live.NoTable? || Owns(old(disk).live, Expected(record, old(disk).meta))) ==> cleared
      ensures calm && cleared ==> disk.live.NoTable? && disk.meta.Absent? && disk.snapshot.Absent?
      ensures !cleared ==> MayRot(old(disk).meta, disk.meta) && MayRot(old(disk).snapshot, disk.snapshot)
      ensures calm ==> disk.journal.Absent?
    {
      var id := Expected(record, disk.meta);
      var seen := LiveState(id);
      cleared := seen == SeenAbsent;
      if seen == Ours {
        var done := DestroyOurs(id);
        OthersAct();
        seen := LiveState(id);
        cleared := seen == SeenAbsent;
      }
      if cleared {
        UnlinkAll();
      }
      DropJournal();
    }

    method UnlinkSnapshot() returns (kept: bool)
      requires Safe() && disk.live.NoTable?
      modifies this
      ensures Safe() && old(steps) <= steps && losses == old(losses) && (calm ==> !kept)
      ensures disk == if kept then old(disk) else old(disk).(snapshot := Absent)
    {
      kept := *;
      kept := kept && !calm;
      if !kept && !disk.snapshot.Absent? { Do(disk.(snapshot := Absent)); }
    }

    method UnlinkTransition() returns (kept: bool)
      requires Safe()
      modifies this
      ensures Safe() && old(steps) <= steps && losses == old(losses) && (calm ==> !kept)
      ensures disk == old(disk).(transition := old(disk).transition && kept)
    {
      kept := *;
      kept := kept && !calm;
      if !kept && disk.transition { Do(disk.(transition := false)); }
    }

    method UnlinkRecord() returns (kept: bool)
      requires Safe() && disk.live.NoTable? && !(disk.journal.Valid? && disk.journal.value.Apply?)
      requires calm ==> !disk.snapshot.Valid?
      modifies this
      ensures Safe() && Since(old(steps), old(losses)) && (calm ==> !kept)
      ensures disk == if kept then old(disk) else old(disk).(meta := Absent)
      ensures losses != old(losses) <==> old(disk).snapshot.Valid? && !kept && !old(disk).meta.Absent?
    {
      kept := *;
      kept := kept && !calm;
      if !kept && !disk.meta.Absent? { Do(disk.(meta := Absent)); }
    }

    /**
     The unlinks of a proven teardown, each of which may fail unnoticed. The record is lost exactly
     when it goes while the snapshot stays.
     */
    method UnlinkAll()
      requires Safe() && disk.live.NoTable? && !(disk.journal.Valid? && disk.journal.value.Apply?)
      modifies this
      ensures Safe() && Since(old(steps), old(losses))
      ensures exists a, b, c :: (disk == ResetFiles(old(disk), a, b, c) &&
        (losses != old(losses) <==> old(disk).snapshot.Valid? && a && !c && !old(disk).meta.Absent?))
      ensures calm ==> disk == ResetFiles(old(disk), false, false, false)
    {
      ghost var first := disk;
      var snapKept := UnlinkSnapshot();
      var transKept := UnlinkTransition();
      var metaKept := UnlinkRecord();
      assert disk == ResetFiles(first, snapKept, transKept, metaKept);
    }

    /** An interrupted apply that was promoted: load what is canonical now, then tidy up. */
    method FinishForward(txid: nat, next: Snap)
      requires Safe() && disk.snapshot == Valid(next)
      modifies this
      ensures Safe() && Since(old(steps), old(losses))
      ensures calm && SeenOf(old(disk).live, next.model.owner) != NotOurs ==>
        Settled(disk, Some(next)) &&
        disk == old(disk).(live := LiveOf(Some(next)), staging := old(disk).staging - {txid}, journal := Absent)
      ensures forall o, off :: calm && Interrupted(old(disk), txid, o, next, off) ==>
        BetweenSince(steps, |old(steps)|, o, next, off)
    {
      var verdict := LoadSnapshot(next);
      DropStaged(txid);
      DropJournal();
    }

    /** What was there before goes live again: the snapshot, or no table where there was none and it is `id`'s. */
    method PutBack(o: Option<Snap>, id: Option<string>)
      requires Safe() && (losses == [] && o.Some? ==> Recorded(disk, o.value.model.owner))
      requires (o.Some? ==> Known(disk, o.value.model.owner)) && (id.Some? ==> Known(disk, id.value))
      modifies this
      ensures Safe() && Since(old(steps), old(losses)) && MayRot(old(disk).snapshot, disk.snapshot)
      ensures calm && Restorable(old(disk), o, id) ==>
        (disk == old(disk).(live := LiveOf(o)) &&
         (steps == old(steps) || steps == old(steps) + [Step(Party.Helper, old(disk), disk)]))
    {
      if o.Some? {
        var verdict := LoadSnapshot(o.value);
      } else if id.Some? {
        var seen := LiveState(id.value);
        if seen == Ours {
          var done := DestroyOurs(id.value);
        }
      }
    }

    /** An interrupted apply that was not: discard the staging, put the previous ruleset back. */
    method RollBack(txid: nat, o: Option<Snap>, ghost n: Snap)
      requires Safe() && (losses == [] && o.Some? ==> Recorded(disk, o.value.model.owner))
      requires o.Some? ==> Known(disk, o.value.model.owner)
      modifies this
      ensures Safe() && Since(old(steps), old(losses))
      ensures calm && Restorable(old(disk), o,
                                 if old(disk).meta.Valid? then Some(old(disk).meta.value.id) else None) ==>
        disk == old(disk).(live := LiveOf(o), staging := old(disk).staging - {txid}, journal := Absent)
      ensures forall off :: calm && Interrupted(old(disk), txid, o, n, off) && old(disk).snapshot == SnapFile(o) ==>
        BetweenSince(steps, |old(steps)|, o, n, off)
    {
      ghost var d, start := disk, steps;
      DropStaged(txid);
      ghost var e, dropped := disk, steps;
      assert txid !in d.staging ==> d.staging - {txid} == d.staging;
      PutBack(o, if disk.meta.Valid? then Some(disk.meta.value.id) else None);
      ghost var f, loaded := disk, steps;
      DropJournal();
      if calm { IsRestorable(d, txid, o, n); }
      if calm && Restorable(d, o, if d.meta.Valid? then Some(d.meta.value.id) else None) {
        ThreeSteps(start, dropped, loaded, steps, e, f, disk);
        RollingBack(steps, |start|, d, txid, o, n);
      }
    }

    /** `recover`: finish or roll back what a crash interrupted; anything odd fails closed. */
    method Recover() returns (ok: bool)
      requires Safe()
      modifies this
      ensures Safe() && Since(old(steps), old(losses))
      ensures old(disk).journal.Absent? ==> ok && disk == old(disk) && steps == old(steps)
      ensures !ok <==> Undecidable(old(disk).journal)
      ensures !ok ==> disk == old(disk) && steps == old(steps)
      ensures forall o, n, off :: calm && Between(old(disk), o, n, off) ==>
        (disk.journal.Absent? && Between(disk, o, n, off) && BetweenSince(steps, |old(steps)|, o, n, off))
    {
      if Undecidable(disk.journal) { return false; }
      if disk.journal.Absent? { return true; }
      match disk.journal.value {
        case Reset(record) =>
          var cleared := FinishReset(record);
        case Apply(txid, phase, prior, next) =>
          if phase == Begin {
            DropStaged(txid);
            DropJournal();
          } else if disk.snapshot == Valid(next) {
            FinishForward(txid, next);
          } else {
            RollBack(txid, prior, next);
          }
        case OtherOp => assert false;
      }
      return true;
    }

    /** `op_check`: verification only. */
    method Check() returns (code: Code)
      requires Safe()
      modifies this
      ensures Safe() && Since(old(steps), old(losses))
      ensures code == ExitOk ==>
        disk.snapshot.Valid? && disk.snapshot.value.protocol == PROTOCOL_VERSION &&
          Settled(disk, Some(disk.snapshot.value))
      ensures old(disk).journal.Absent? || Undecidable(old(disk).journal) ==> HelperIdle(steps, |old(steps)|)
      ensures (calm && old(disk).journal.Absent? && old(disk).snapshot.Valid? &&
               old(disk).snapshot.value.protocol == PROTOCOL_VERSION) ==>
        code == if Settled(old(disk), Some(old(disk).snapshot.value)) then ExitOk else ExitFail
    {
      var ok := Recover();
      if !ok { return ExitInternal; }
      OthersAct();
      if !disk.snapshot.Valid? { return ExitFail; }
      if disk.snapshot.value.protocol != PROTOCOL_VERSION { return ExitProtocol; }
      var listed: bool := *;
      code := if (listed || calm) && disk.live == LiveOf(Some(disk.snapshot.value)) then ExitOk else ExitFail;
    }

    /** `op_load`: the boot loader. */
    method Load() returns (code: Code)
      requires Safe()
      modifies this
      ensures Safe() && Since(old(steps), old(losses))
      ensures code == ExitOk ==> exists s: Snap ::
        disk.live == LiveOf(Some(s)) && s.protocol == PROTOCOL_VERSION && MayRot(Valid(s), disk.snapshot)
      ensures Undecidable(old(disk).journal) ==> HelperIdle(steps, |old(steps)|)
      ensures old(disk).journal.Absent? && !old(disk).snapshot.Valid? ==> HelperIdle(steps, |old(steps)|)
      ensures calm && old(disk).journal.Absent? && code == ExitNotOwned ==> disk == old(disk)
      ensures (calm && old(disk).journal.Absent? && old(disk).snapshot.Valid? &&
               old(disk).snapshot.value.protocol == PROTOCOL_VERSION &&
               SeenOf(old(disk).live, old(disk).snapshot.value.model.owner) != NotOurs) ==>
        code == ExitOk && disk == old(disk).(live := LiveOf(Some(old(disk).snapshot.value)))
      // at boot, a switch that was under way ends one way or the other, or with an old ruleset not understood
      ensures forall o, n, off :: calm && Between(old(disk), o, n, off) && n.protocol == PROTOCOL_VERSION ==>
        (disk.journal.Absent? && disk.staging == map[] && Ended(disk, o, n, code) &&
         BetweenSince(steps, |old(steps)|, o, n, off))
    {
      var ok := Recover();
      if !ok { return ExitInternal; }
      OthersAct();
      code := LoadAccepted();
    }

    /** The boot load itself, whatever was interrupted having been dealt with. */
    method LoadAccepted() returns (code: Code)
      requires Safe()
      modifies this
      ensures Safe() && Since(old(steps), old(losses))
      ensures code == ExitOk ==> exists s: Snap ::
        disk.live == LiveOf(Some(s)) && s.protocol == PROTOCOL_VERSION && MayRot(Valid(s), disk.snapshot)
      ensures !old(disk).snapshot.Valid? ==> HelperIdle(steps, |old(steps)|)
      ensures calm && (code == ExitFail || code == ExitProtocol || code == ExitNotOwned) ==>
        disk == old(disk) && steps == old(steps)
      ensures calm ==> code == if !old(disk).snapshot.Valid? then ExitFail
                               else if old(disk).snapshot.value.protocol != PROTOCOL_VERSION then ExitProtocol
                               else if SeenOf(old(disk).live, old(disk).snapshot.value.model.owner) == NotOurs then
                                 ExitNotOwned
                               else ExitOk
      ensures calm && code == ExitOk ==>
        disk == old(disk).(live := LiveOf(Some(old(disk).snapshot.value))) &&
        steps == old(steps) + [Step(Party.Helper, old(disk), disk)]
    {
      if !disk.snapshot.Valid? { return ExitFail; }
      var snap := disk.snapshot.value;
      if snap.protocol != PROTOCOL_VERSION { return ExitProtocol; }
      var seen := LiveState(snap.model.owner);
      if seen == NotOurs { return ExitNotOwned; }
      OthersAct();
      var verdict := LoadSnapshot(snap);
      code := if verdict == LoadVerified then ExitOk else ExitFail;
    }

    /** `op_reset`: ownership-proven removal. */
    method ResetAll() returns (code: Code)
      requires Safe()
      modifies this
      ensures Safe() && Since(old(steps), old(losses))
      ensures Undecidable(old(disk).journal) ==> HelperIdle(steps, |old(steps)|)
      ensures old(disk).journal.Absent? && (code == ExitNotOwned || code == ExitInternal) ==>
        HelperIdle(steps, |old(steps)|)
      ensures calm && code == ExitOk ==>
        disk.live.NoTable? && disk.meta.Absent? && disk.snapshot.Absent? && disk.journal.Absent?
      ensures (calm && old(disk).journal.Absent? && !old(disk).meta.Unreadable? &&
               SeenOf(old(disk).live, Expected(None, old(disk).meta)) != NotOurs) ==> code == ExitOk
    {
      var ok := Recover();
      if !ok { return ExitInternal; }
      OthersAct();
      if disk.meta.Unreadable? { return ExitInternal; }
      var record := if disk.meta.Valid? then Some(disk.meta.value) else None;
      var seen := LiveState(Expected(record, disk.meta));
      if seen == NotOurs { return ExitNotOwned; }
      if seen == ListError { return ExitInternal; }
      WriteJournal(Reset(record));
      var cleared := FinishReset(record);
      code := if cleared then ExitOk else ExitFail;
    }

    /** The journal is replaced; then others may act. */
    method WriteJournal(j: Journal)
      requires Safe() && (losses == [] && j.Apply? ==> Recorded(disk, j.next.model.owner))
      requires losses == [] && j.Apply? && j.prior.Some? ==> Recorded(disk, j.prior.value.model.owner)
      modifies this
      ensures Safe() && old(steps) < steps && losses == old(losses)
      ensures disk == old(disk).(live := disk.live, meta := disk.meta, snapshot := disk.snapshot,
                                 journal := disk.journal)
      ensures MayRot(old(disk).meta, disk.meta) && MayRot(old(disk).snapshot, disk.snapshot)
      ensures MayRot(Valid(j), disk.journal)
      ensures calm ==>
        disk == old(disk).(journal := Valid(j)) && steps == old(steps) + [Step(Party.Helper, old(disk), disk)]
    {
      Do(disk.(journal := Valid(j)));
      OthersAct();
    }

    /** Journal, staged snapshot, journal again: nothing canonical or live is touched yet. */
    method Stage(next: Snap, prior: Option<Snap>, txid: nat)
      requires Safe() && (losses == [] ==> Recorded(disk, next.model.owner))
      requires losses == [] && prior.Some? ==> Recorded(disk, prior.value.model.owner)
      modifies this
      ensures Safe() && Since(old(steps), old(losses))
      ensures disk.staging == old(disk).staging[txid := next]
      ensures MayRot(old(disk).snapshot, disk.snapshot) && MayRot(old(disk).meta, disk.meta)
      ensures MayRot(Valid(Apply(txid, Staged, prior, next)), disk.journal)
      ensures calm ==> disk == old(disk).(journal := Valid(Apply(txid, Staged, prior, next)), staging := disk.staging)
      ensures (calm && old(disk).journal.Absent? && Between(old(disk), prior, next, false) &&
               Settled(old(disk), prior)) ==>
        Between(disk, prior, next, false) && BetweenSince(steps, |old(steps)|, prior, next, false)
    {
      ghost var d, start := disk, steps;
      WriteJournal(Apply(txid, Begin, prior, next));
      ghost var e, begun := disk, steps;
      Do(disk.(staging := disk.staging[txid := next]));
      OthersAct();
      ghost var f, written := disk, steps;
      WriteJournal(Apply(txid, Staged, prior, next));
      if calm {
        ThreeSteps(start, begun, written, steps, e, f, disk);
        Staging(steps, |start|, d, txid, prior, next);
      }
    }

    /** The journaled part of `op_apply`: stage, load, verify, promote; or undo. */
    method Switch(next: Snap, prior: Option<Snap>, txid: nat) returns (code: Code)
      requires Safe() && (losses == [] ==> Recorded(disk, next.model.owner)) && MayRot(SnapFile(prior), disk.snapshot)
      requires losses == [] && prior.Some? ==> Recorded(disk, prior.value.model.owner)
      modifies this
      ensures Safe() && Since(old(steps), old(losses)) && (code == ExitOk || code == ExitFail)
      ensures code == ExitOk ==> Settled(disk, Some(next)) && (next.transitional ==> disk.transition)
      ensures code != ExitOk ==> MayRot(old(disk).snapshot, disk.snapshot)
      ensures (calm && old(disk).journal.Absent? && Between(old(disk), prior, next, false) &&
               Settled(old(disk), prior)) ==>
        (code == ExitOk && disk.journal.Absent? && Between(disk, prior, next, false) &&
        BetweenSince(steps, |old(steps)|, prior, next, false))
    {
      Stage(next, prior, txid);
      ghost var staged := disk;
      var verdict := LoadSnapshot(next);
      if verdict == LoadVerified {
        Promote(next, txid, prior);
        return ExitOk;
      }
      Undo(next, prior, txid);
      return ExitFail;
    }

    /** The load did not verify: discard the staging, restore what was there before. */
    method Undo(next: Snap, prior: Option<Snap>, txid: nat)
      requires Safe() && (losses == [] ==> Recorded(disk, next.model.owner))
      requires losses == [] && prior.Some? ==> Recorded(disk, prior.value.model.owner)
      requires Known(disk, next.model.owner) && (prior.Some? ==> Known(disk, prior.value.model.owner))
      modifies this
      ensures Safe() && Since(old(steps), old(losses))
      ensures MayRot(old(disk).snapshot, disk.snapshot)
      ensures (calm && SeenOf(old(disk).live, next.model.owner) != NotOurs &&
               (prior.Some? ==> prior.value.model.owner == next.model.owner)) ==>
        disk == old(disk).(live := LiveOf(prior), staging := old(disk).staging - {txid}, journal := Absent)
    {
      DropStaged(txid);
      OthersAct();
      PutBack(prior, Some(next.model.owner));
      DropJournal();
    }

    /** Rename the staged snapshot over the canonical one, then settle the transition record. */
    method Promote(next: Snap, txid: nat, ghost o: Option<Snap>)
      requires Safe() && (losses == [] ==> Recorded(disk, next.model.owner)) && disk.live == LiveOf(Some(next))
      requires txid in disk.staging && disk.staging[txid] == next
      modifies this
      ensures Safe() && Since(old(steps), old(losses)) && Settled(disk, Some(next))
      ensures (next.transitional ==> disk.transition) && (disk.transition ==> next.transitional || old(disk).transition)
      ensures calm && Interrupted(old(disk), txid, o, next, false) ==>
        (disk.journal.Absent? && Between(disk, o, next, false) && BetweenSince(steps, |old(steps)|, o, next, false))
    {
      Do(disk.(snapshot := Valid(disk.staging[txid]), staging := disk.staging - {txid}));
      var kept: bool := *;
      if next.transitional {
        Do(disk.(transition := true));
      } else if disk.transition && !kept {
        Do(disk.(transition := false));
      }
      DropJournal();
    }

    /** The ownership record apply works under: the one on disk, or a new one when nothing is live. */
    method OwnershipRecord(mint: string) returns (stop: Option<Code>)
      requires Safe()
      modifies this
      ensures Safe() && Since(old(steps), old(losses))
      ensures old(disk).meta.Unreadable? ==> stop == Some(ExitInternal)
      ensures stop.Some? || old(disk).meta.Valid? ==> disk == old(disk) && steps == old(steps)
      ensures stop.Some? ==> stop.value != ExitOk
      ensures stop.None? ==> disk.meta.Valid?
      ensures stop.None? && old(disk).meta.Absent? ==>
        (old(disk).live.NoTable? && disk == old(disk).(meta := Valid(Meta(PROTOCOL_VERSION, mint))) &&
         steps == old(steps) + [Step(Party.Helper, old(disk), disk)])
      ensures calm && (old(disk).meta.Valid? || (old(disk).meta.Absent? && old(disk).live.NoTable?)) ==> stop.None?
    {
      if disk.meta.Unreadable? { return Some(ExitInternal); }
      if disk.meta.Absent? {
        var seen := LiveState("");
        if seen == ListError { return Some(ExitInternal); }
        if seen != SeenAbsent { return Some(ExitNotOwned); }
        Do(disk.(meta := Valid(Meta(PROTOCOL_VERSION, mint))));
      }
      return None;
    }

    /** The record's protocol, the live table's owner, the resolved SSH access. */
    method MayApply(c: Candidate, confident: bool) returns (stop: Option<Code>, seen: Seen)
      requires Safe() && disk.meta.Valid?
      modifies this
      ensures Safe() && old(steps) <= steps && losses == old(losses) && HelperIdle(steps, |old(steps)|)
      ensures MayRot(old(disk).meta, disk.meta) && MayRot(old(disk).snapshot, disk.snapshot) && stop != Some(ExitOk)
      ensures stop != Some(Uncaught) && (calm ==> disk == old(disk) && steps == old(steps))
      ensures (calm && old(disk).meta.value.protocol == PROTOCOL_VERSION && (c.mode == SecureDefault ==> confident) &&
               SeenOf(old(disk).live, old(disk).meta.value.id) != NotOurs) ==>
        stop == None && seen == SeenOf(old(disk).live, old(disk).meta.value.id)
    {
      var meta := disk.meta.value;
      if meta.protocol != PROTOCOL_VERSION { return Some(ExitProtocol), NotOurs; }
      OthersAct();
      seen := LiveState(meta.id);
      stop := if seen == NotOurs then Some(ExitNotOwned)
              else if c.mode == SecureDefault && !confident then Some(ExitCandidate)
              else None;
    }

    /** What `op_apply` looks at before it writes: ownership, SSH, the accepted snapshot, the rendering. */
    method Decide(c: Candidate, ssh: seq<Grant>, confident: bool, cleanup: bool)
      returns (stop: Option<Code>, next: Snap, prior: Option<Snap>)
      requires Safe() && disk.meta.Valid?
      modifies this
      ensures Safe() && Since(old(steps), old(losses)) && losses == old(losses) && HelperIdle(steps, |old(steps)|)
      ensures MayRot(old(disk).meta, disk.meta) && MayRot(old(disk).snapshot, disk.snapshot) && stop != Some(ExitOk)
      ensures next == Compile(c, old(disk).meta.value.id, ssh, prior, cleanup)
      ensures stop.None? ==> Renders(next) && !old(disk).snapshot.Unreadable? && MayRot(SnapFile(prior), disk.snapshot)
      ensures calm ==> disk == old(disk) && steps == old(steps) && prior == PriorOf(old(disk))
      ensures (calm && Ready(old(disk)) && old(disk).meta.value.protocol == PROTOCOL_VERSION &&
               (c.mode == SecureDefault ==> confident)) ==> stop == if Renders(next) then None else Some(Uncaught)
    {
      var meta := disk.meta.value;
      prior := PriorOf(disk);
      next := Compile(c, meta.id, ssh, prior, cleanup);
      var seen;
      stop, seen := MayApply(c, confident);
      if stop.Some? { return; }
      OthersAct();
      prior := PriorOf(disk);
      next := BuildSnap(c, meta.id, ssh, prior, cleanup);
      if disk.snapshot.Unreadable? || (seen == Ours && disk.snapshot.Absent?) {
        return Some(ExitInternal), next, prior;
      }
      // `render_nft_text` raises where `expected_listing` does
      var listing := BuildExpectedListing(next.model);
      if listing.None? { return Some(Uncaught), next, prior; }
      var refused: bool := *;
      if refused && !calm { return Some(ExitFail), next, prior; }
      OthersAct();
      stop := None;
    }

    /** `op_apply` from the ownership check on, the candidate being valid. */
    method ApplyValid(c: Candidate, ssh: seq<Grant>, confident: bool, cleanup: bool, txid: nat)
      returns (code: Code, ghost next: Snap, ghost prior: Option<Snap>)
      requires Safe() && disk.meta.Valid?
      modifies this
      ensures Safe() && Since(old(steps), old(losses))
      ensures next == Compile(c, old(disk).meta.value.id, ssh, prior, cleanup)
      ensures code == ExitOk ==> Settled(disk, Some(next)) && Renders(next)
      ensures code == ExitOk && next.transitional ==> disk.transition
      ensures code != ExitOk ==> MayRot(old(disk).snapshot, disk.snapshot)
      ensures old(disk).snapshot.Unreadable? ==> code != ExitOk && HelperIdle(steps, |old(steps)|)
      ensures calm && (old(disk).snapshot.Unreadable? || code == Uncaught) ==> disk == old(disk)
      ensures calm ==> prior == PriorOf(old(disk))
      ensures calm && old(disk).journal.Absent? && old(disk).staging == map[] && Settled(old(disk), prior) ==>
        disk.journal.Absent? && Between(disk, prior, next, false) &&
          BetweenSince(steps, |old(steps)|, prior, next, false)
      ensures (calm && Ready(old(disk)) && old(disk).meta.value.protocol == PROTOCOL_VERSION &&
               (c.mode == SecureDefault ==> confident)) ==> code == if Renders(next) then ExitOk else Uncaught
    {
      var stop, snap, was := Decide(c, ssh, confident, cleanup);
      next, prior := snap, was;
      if stop.Some? { return stop.value, next, prior; }
      code := Switch(snap, was, txid);
    }

    /** `op_apply` from the ownership record on, nothing being interrupted and the candidate valid. */
    method ApplyAdmitted(c: Candidate, ssh: seq<Grant>, confident: bool, cleanup: bool, txid: nat, mint: string)
      returns (code: Code)
      requires Safe()
      modifies this
      ensures Safe() && Since(old(steps), old(losses))
      ensures code == ExitOk ==> disk.snapshot.Valid? && Settled(disk, Some(disk.snapshot.value))
      ensures code == ExitOk ==> disk.snapshot.value.cand == c
      ensures calm && code == ExitOk ==> disk.snapshot == Valid(TargetOf(old(disk), c, ssh, cleanup, mint))
      ensures code == ExitOk && disk.snapshot.value.transitional ==> disk.transition
      ensures code != ExitOk ==> MayRot(old(disk).snapshot, disk.snapshot)
      ensures old(disk).meta.Unreadable? || (old(disk).snapshot.Unreadable? && old(disk).meta.Valid?) ==>
        HelperIdle(steps, |old(steps)|)
      ensures calm && old(disk).snapshot.Unreadable? ==> (code != ExitOk &&
        (HelperIdle(steps, |old(steps)|) <==> !old(disk).meta.Absent? || old(disk).live.Table?) &&
        disk == Minted(old(disk), mint))
      ensures calm && code == Uncaught ==> disk == Minted(old(disk), mint)
      ensures calm && Ready(old(disk)) ==>
        OneSwitch(old(disk), disk, steps, |old(steps)|, TargetOf(old(disk), c, ssh, cleanup, mint))
      ensures calm && Ready(old(disk)) && Understood(old(disk)) && (c.mode == SecureDefault ==> confident) ==>
        code == if Renders(TargetOf(old(disk), c, ssh, cleanup, mint)) then ExitOk else Uncaught
    {
      OthersAct();
      var stop := OwnershipRecord(mint);
      if stop.Some? { return stop.value; }
      ghost var next, prior;
      ghost var sofar := steps;
      code, next, prior := ApplyValid(c, ssh, confident, cleanup, txid);
      if calm { MintedFirst(old(disk), mint, old(steps), sofar, steps, disk, next); }
    }

    /** `op_apply`. */
    method ApplyCandidate(cand: Option<Candidate>, ssh: seq<Grant>, confident: bool, cleanup: bool, txid: nat,
                          mint: string)
      returns (code: Code)
      requires Safe()
      modifies this
      ensures Safe() && Since(old(steps), old(losses))
      ensures code == ExitOk ==> cand.Some? && ValidCandidate(cand.value)
      ensures code == ExitOk ==> disk.snapshot.Valid? && Settled(disk, Some(disk.snapshot.value))
      ensures code == ExitOk ==> disk.snapshot.value.cand == cand.value
      ensures calm && old(disk).journal.Absent? && code == ExitOk ==>
        disk.snapshot == Valid(TargetOf(old(disk), cand.value, ssh, cleanup, mint))
      // the live table: with a cleanup, or nothing accepted before, the candidate alone; else with what was kept
      ensures calm && old(disk).journal.Absent? && code == ExitOk && (cleanup || !old(disk).snapshot.Valid?) ==>
        disk.live.Table? && LetsInExactly(disk.live.rules, cand.value, None, ssh)
      ensures calm && old(disk).journal.Absent? && code == ExitOk && !cleanup && old(disk).snapshot.Valid? ==>
        disk.live.Table? && LetsInExactly(disk.live.rules, cand.value, Some(old(disk).snapshot.value.cand), ssh)
      ensures code == ExitOk && disk.snapshot.value.transitional ==> disk.transition
      ensures old(disk).journal.Absent? && code != ExitOk ==> MayRot(old(disk).snapshot, disk.snapshot)
      // refusals that write nothing
      ensures Undecidable(old(disk).journal) ==> HelperIdle(steps, |old(steps)|)
      ensures old(disk).journal.Absent? && (cand.None? || !ValidCandidate(cand.value)) ==>
        HelperIdle(steps, |old(steps)|)
      ensures old(disk).journal.Absent? && old(disk).meta.Unreadable? ==> HelperIdle(steps, |old(steps)|)
      ensures old(disk).journal.Absent? && old(disk).snapshot.Unreadable? && old(disk).meta.Valid? ==>
        HelperIdle(steps, |old(steps)|)
      // an unreadable snapshot: "zero writes" exactly when no record is written before it is looked at
      ensures calm && old(disk).journal.Absent? && old(disk).snapshot.Unreadable? ==> (code != ExitOk &&
        (HelperIdle(steps, |old(steps)|) <==>
         !old(disk).meta.Absent? || old(disk).live.Table? || cand.None? || !ValidCandidate(cand.value)) &&
        (cand.Some? && ValidCandidate(cand.value) ==> disk == Minted(old(disk), mint)))
      // one switch, whatever step it stops at
      ensures calm && Ready(old(disk)) && cand.Some? ==>
        OneSwitch(old(disk), disk, steps, |old(steps)|, TargetOf(old(disk), cand.value, ssh, cleanup, mint))
      // ready and undisturbed, it succeeds exactly when the model renders; a raise leaves a fresh record behind
      ensures (calm && Ready(old(disk)) && Understood(old(disk)) && cand.Some? && ValidCandidate(cand.value) &&
               (cand.value.mode == SecureDefault ==> confident)) ==>
        code == if Renders(TargetOf(old(disk), cand.value, ssh, cleanup, mint)) then ExitOk else Uncaught
      ensures calm && old(disk).journal.Absent? && code == Uncaught ==> disk == Minted(old(disk), mint)
    {
      var ok := Recover();
      if !ok { return ExitInternal; }
      if cand.None? { return ExitCandidate; }
      var errors := ValidateCandidate(cand.value);
      if errors != [] { return ExitCandidate; }
      ghost var d := disk;
      code := ApplyAdmitted(cand.value, ssh, confident, cleanup, txid, mint);
      AppliedLetsIn(d, cand.value, ssh, cleanup, mint);
    }

    /** The helper is killed after `cut` steps in all, `k` of them taken before the operation began on `first`. */
    method Crash(first: Disk, k: nat, cut: nat)
      requires Safe() && k <= |steps| && (losses == [] ==> Inv(first))
      modifies this
      ensures Safe() && Since(old(steps)[..k], old(losses))
      ensures disk == if k < cut <= |old(steps)| then old(steps)[cut - 1].after else first
      ensures forall o, n, off :: Between(first, o, n, off) && BetweenSince(old(steps), k, o, n, off) ==>
        Between(disk, o, n, off)
    {
      if k < cut <= |steps| {
        steps := steps[..cut];
        disk := steps[cut - 1].after;
      } else {
        steps := steps[..k];
        disk := first;
      }
    }

    /** The same for the whole machine: the kernel's table is gone too. */
    method PowerLoss(first: Disk, k: nat, cut: nat)
      requires Safe() && k <= |steps| && (losses == [] ==> Inv(first))
      modifies this
      ensures Safe() && Since(old(steps)[..k], old(losses))
      ensures disk == (if k < cut <= |old(steps)| then old(steps)[cut - 1].after else first).(live := NoTable)
      ensures forall o, n, off :: Between(first, o, n, off) && BetweenSince(old(steps), k, o, n, off) ==>
        Between(disk, o, n, true)
    {
      Crash(first, k, cut);
      steps := steps + [Step(Others, disk, disk.(live := NoTable))];
      disk := disk.(live := NoTable);
    }

    method Serve(r: Request) returns (code: Code)
      requires Safe()
      modifies this
      ensures Safe() && Since(old(steps), old(losses))
    {
      match r {
        case DoCheck => code := Check();
        case DoLoad => code := Load();
        case DoReset => code := ResetAll();
        case DoApply(cand, ssh, confident, cleanup, txid, mint) =>
          code := ApplyCandidate(cand, ssh, confident, cleanup, txid, mint);
      }
    }

    /**
     Any sequence of operations, each cut off anywhere or not at all, other parties acting in
     between: every step ever taken is safe.
     */
    method Runs(requests: seq<(Request, Option<nat>)>)
      requires Safe()
      modifies this
      ensures Safe() && Since(old(steps), old(losses))
    {
      for i := 0 to |requests|
        invariant Safe() && Since(old(steps), old(losses))
      {
        var first, k := disk, |steps|;
        var code := Serve(requests[i].0);
        if requests[i].1.Some? {
          Crash(first, k, requests[i].1.value);
        }
        OthersAct();
      }
    }

    /**
     Crash-atomic apply: cut off at any step, then recovered with any number of crashes inside the
     recoveries, it leaves the old ruleset or the new one, on disk and live alike.
     */
    method ApplyThroughCrashes(r: Request, cut: nat, cuts: seq<nat>) returns (ok: bool)
      requires Safe() && calm && Ready(disk) && r.DoApply? && r.cand.Some?
      modifies this
      ensures ok && Safe() && disk.journal.Absent? && disk.staging == map[]
      ensures Settled(disk, PriorOf(old(disk))) ||
        Settled(disk, Some(TargetOf(old(disk), r.cand.value, r.ssh, r.cleanup, r.mint)))
    {
      var first, k := disk, |steps|;
      ghost var o := PriorOf(disk);
      ghost var n := TargetOf(disk, r.cand.value, r.ssh, r.cleanup, r.mint);
      var code := ApplyCandidate(r.cand, r.ssh, r.confident, r.cleanup, r.txid, r.mint);
      Crash(first, k, cut);
      for i := 0 to |cuts|
        invariant Safe() && Between(disk, o, n, false)
      {
        first, k := disk, |steps|;
        ok := Recover();
        Crash(first, k, cuts[i]);
      }
      ok := Recover();
    }

    /**
     The same across power losses: the table is gone after each, the boot loader runs, and may be
     cut off by the next. Once it completes, the old ruleset is accepted and live, or the new one;
     or the old one is of another protocol, the loader says so, and nothing is live.
     */
    method ApplyThroughPowerLosses(r: Request, cut: nat, cuts: seq<nat>) returns (code: Code)
      requires Safe() && calm && Ready(disk) && r.DoApply? && r.cand.Some?
      modifies this
      ensures Safe() && disk.journal.Absent? && disk.staging == map[]
      ensures Ended(disk, PriorOf(old(disk)), TargetOf(old(disk), r.cand.value, r.ssh, r.cleanup, r.mint), code)
    {
      var first, k := disk, |steps|;
      ghost var o := PriorOf(disk);
      ghost var n := TargetOf(disk, r.cand.value, r.ssh, r.cleanup, r.mint);
      var done := ApplyCandidate(r.cand, r.ssh, r.confident, r.cleanup, r.txid, r.mint);
      PowerLoss(first, k, cut);
      for i := 0 to |cuts|
        invariant Safe() && Between(disk, o, n, true)
      {
        first, k := disk, |steps|;
        code := Load();
        PowerLoss(first, k, cuts[i]);
      }
      code := Load();
    }
  }

  /** The "zero writes" refusal of an unreadable snapshot, on a disk without a record: a record is written. */
  method UnreadableSnapshotIsWrittenTo(s: Snap, c: Candidate, mint: string) returns (d: Disk, h: Helper)
    requires ValidCandidate(c)
    ensures Inv(d) && d.journal.Absent? && d.snapshot == File.Unreadable(s) && d.meta.Absent?
    ensures h.calm && h.disk == d.(meta := Valid(Meta(PROTOCOL_VERSION, mint))) && !HelperIdle(h.steps, 0)
  {
    d := Disk(Absent, File.Unreadable(s), map[], Absent, false, NoTable);
    h := new Helper(d, true);
    var code := h.ApplyCandidate(Some(c), [], true, false, 0, mint);
  }

  /** The scopes a transition preserves. */
  function Kept(c: Candidate, prior: Option<Snap>, cleanup: bool): (seq<Grant>, seq<Grant>)
  {
    if cleanup || prior.None? then ([], []) else TransitionSets(Some(prior.value.cand), c)
  }

  /** Rendering its rules raises nothing. */
  predicate Renders(s: Snap) { ExpectedListing(s.model).Some? }

  lemma {:induction false} KeptGrantsOk(c: Candidate, prior: Option<Snap>, cleanup: bool)
    requires prior.Some? ==> ValidCandidate(prior.value.cand)
    ensures GrantsOk(Kept(c, prior, cleanup).0) && GrantsOk(Kept(c, prior, cleanup).1)
  {
    if prior.Some? && !cleanup {
      var o := prior.value.cand;
      forall g | g in TransitionDropOf(o.endpoints, EndpointScopes(c.endpoints))
        ensures exists e :: e in o.endpoints && g == Grant(e.scope, e.cidrs)
      {
        TransitionDropsAre(o.endpoints, EndpointScopes(c.endpoints), g);
      }
    }
  }

  /** ... which is to say: secure-default quotes no source written with a netmask. */
  lemma {:induction false} RendersUnlessQuoted(c: Candidate, id: string, ssh: seq<Grant>, prior: Option<Snap>,
                                               cleanup: bool)
    requires ValidCandidate(c) && GrantsOk(ssh) && (prior.Some? ==> ValidCandidate(prior.value.cand))
    ensures Renders(Compile(c, id, ssh, prior, cleanup)) <==>
      !(c.mode == SecureDefault && QuotesNetmask(c, ssh, Kept(c, prior, cleanup).0))
  {
    KeptGrantsOk(c, prior, cleanup);
    RendersExactlyWithoutNetmask(c, id, ssh, Kept(c, prior, cleanup).0, Kept(c, prior, cleanup).1);
  }

  /** The previous ruleset can be put back without touching a foreign table. */
  predicate Restorable(d: Disk, o: Option<Snap>, id: Option<string>)
  {
    if o.Some? then SeenOf(d.live, o.value.model.owner) != NotOurs
    else d.live.NoTable? || (id.Some? && Owns(d.live, id.value))
  }

  /** An interrupted switch always can, while nothing was lost. */
  lemma {:induction false} IsRestorable(d: Disk, txid: nat, o: Option<Snap>, n: Snap)
    requires Inv(d)
    ensures forall off :: Interrupted(d, txid, o, n, off) && d.snapshot == SnapFile(o) ==>
      Restorable(d, o, if d.meta.Valid? then Some(d.meta.value.id) else None)
  {}

  /** The old ruleset or the new one is accepted and live; or the old one is accepted and not understood. */
  predicate Ended(d: Disk, o: Option<Snap>, n: Snap, code: Code)
  {
    Settled(d, o) || Settled(d, Some(n)) ||
    (o.Some? && o.value.protocol != PROTOCOL_VERSION && code == ExitProtocol && At(d, o, true))
  }

  /** What an apply leaves that stops after the ownership record: a new one, where there was nothing at all. */
  function Minted(d: Disk, mint: string): Disk
  {
    if d.meta.Absent? && d.live.NoTable? then d.(meta := Valid(Meta(PROTOCOL_VERSION, mint))) else d
  }

  datatype Request =
    | DoCheck | DoLoad | DoReset
    | DoApply(cand: Option<Candidate>, ssh: seq<Grant>, confident: bool, cleanup: bool, txid: nat, mint: string)

  /** What an apply started on `d` would make canonical. */
  function TargetOf(d: Disk, c: Candidate, ssh: seq<Grant>, cleanup: bool, mint: string): Snap
  {
    Compile(c, if d.meta.Valid? then d.meta.value.id else mint, ssh, PriorOf(d), cleanup)
  }

  /**
   What goes live is what the candidates say: the new one alone after a cleanup or where nothing was
   accepted, and otherwise with the old one's listeners. It is transitional exactly when that keeps something.
   */
  lemma {:induction false} AppliedLetsIn(d: Disk, c: Candidate, ssh: seq<Grant>, cleanup: bool, mint: string)
    ensures var s := TargetOf(d, c, ssh, cleanup, mint);
      (cleanup || !d.snapshot.Valid? ==> LetsInExactly(s.model, c, None, ssh) && !s.transitional) &&
      (!cleanup && d.snapshot.Valid? ==>
         LetsInExactly(s.model, c, Some(d.snapshot.value.cand), ssh) &&
         (s.transitional <==> Outgoing(d.snapshot.value.cand, c)))
  {
    var id := if d.meta.Valid? then d.meta.value.id else mint;
    if cleanup || !d.snapshot.Valid? {
      AloneLetsIn(c, id, ssh);
    } else {
      TransitionLetsIn(d.snapshot.value.cand, c, id, ssh);
      KeepsExactly(d.snapshot.value.cand, c);
    }
  }

  function PriorOf(d: Disk): Option<Snap> { if d.snapshot.Valid? then Some(d.snapshot.value) else None }

  /** Every state since step `k` is one a switch from what `before` accepted to `next` passes through. */
  ghost predicate OneSwitch(before: Disk, after: Disk, steps: seq<Step>, k: nat, next: Snap)
  {
    after.journal.Absent? && Between(after, PriorOf(before), next, false) &&
    BetweenSince(steps, k, PriorOf(before), next, false)
  }

  /** A switch that began with a new ownership record, or with the one there was. */
  lemma {:induction false} MintedFirst(d: Disk, mint: string, start: seq<Step>, sofar: seq<Step>, steps: seq<Step>,
                                       after: Disk, next: Snap)
    requires sofar == if Minted(d, mint) == d then start else start + [Step(Party.Helper, d, Minted(d, mint))]
    requires sofar <= steps
    ensures d.meta.Absent? && d.live.NoTable? ==> !HelperIdle(steps, |start|)
    ensures (Ready(d) && after.journal.Absent? && Between(after, PriorOf(d), next, false) &&
             BetweenSince(steps, |sofar|, PriorOf(d), next, false)) ==> OneSwitch(d, after, steps, |start|, next)
  {
    if |sofar| > |start| { assert steps[|start|] == Step(Party.Helper, d, Minted(d, mint)); }
  }

  predicate Understood(d: Disk) { d.meta.Valid? ==> d.meta.value.protocol == PROTOCOL_VERSION }

  /** Nothing interrupted, and what is live is what was accepted. */
  predicate Ready(d: Disk)
  {
    d.journal.Absent? && d.staging == map[] && !d.meta.Unreadable? && Settled(d, PriorOf(d))
  }

  /** The snapshot a candidate compiles to: its model, with what a transition must preserve. */
  function Compile(c: Candidate, id: string, ssh: seq<Grant>, prior: Option<Snap>, cleanup: bool): (s: Snap)
    ensures s.model.owner == id && s.cand == c && s.protocol == PROTOCOL_VERSION
  {
    var sets := Kept(c, prior, cleanup);
    Snap(PROTOCOL_VERSION, c, Resolved(c, id, ssh, sets.0, sets.1), sets.0 != [] || sets.1 != [])
  }

  method BuildSnap(c: Candidate, id: string, ssh: seq<Grant>, prior: Option<Snap>, cleanup: bool) returns (s: Snap)
    ensures s == Compile(c, id, ssh, prior, cleanup)
  {
    var sets := Kept(c, prior, cleanup);
    var model := ResolveModel(c, id, ssh, sets.0, sets.1);
    s := Snap(PROTOCOL_VERSION, c, model, sets.0 != [] || sets.1 != []);
  }

  /** The helper itself did nothing since step `k`. */
  ghost predicate HelperIdle(steps: seq<Step>, k: nat)
  {
    forall i :: k <= i < |steps| ==> steps[i].party == Others
  }

  /** A journal recovery cannot act on. */
  predicate Undecidable(j: File<Journal>)
  {
    j.Unreadable? || (j.Valid? && (j.value.OtherOp? || (j.value.Apply? && j.value.phase == OtherPhase)))
  }

  /** The id the teardown looks for: the journaled record's, else the one on disk, else none. */
  function Expected(record: Option<Meta>, onDisk: File<Meta>): string
  {
    if record.Some? then record.value.id else if onDisk.Valid? then onDisk.value.id else ""
  }
}
