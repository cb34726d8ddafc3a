/**
 What a boot restores, said of the ownership records, the manifest and the markers alone
 (lhpc/core/boot_restore.py:234-342).
 */
module BootDecisions {
  import opened Options
  import opened Ordering
  import opened BootRestore

  // --- the band ----------------------------------------------------------------------------------------

  /** No marker is unsafe, no source names another band; and the manifest fixes this one, or a source names it. */
  predicate BandFits(own: string, meta: StackMeta, mk: MarkerView, band: string)
  {
    mk.running != UnsafeMarker && mk.last != UnsafeMarker && own in ["", band] &&
    (mk.running == ValidMarker ==> mk.runningBand in ["", band]) &&
    (mk.last == ValidMarker ==> mk.lastBand in ["", band]) &&
    if meta.fixedBand != "" && meta.declaredBands == [] then band == meta.fixedBand
    else
      (own != "" || (mk.running == ValidMarker && mk.runningBand != "") ||
       (mk.last == ValidMarker && mk.lastBand != "")) &&
      (meta.declaredBands == [] || band in meta.declaredBands)
  }

  lemma {:induction false} AtMostOne(s: set<string>, x: string)
    requires forall y :: y in s ==> y == x
    ensures |s| <= 1 && (s == {} || s == {x})
  {
    if s != {} { assert s == {x}; }
  }

  /** Each source that names a band is among the named. */
  lemma NamedHas(own: string, mk: MarkerView)
    ensures own != "" ==> own in Named(own, mk)
    ensures mk.running == ValidMarker && mk.runningBand != "" ==> mk.runningBand in Named(own, mk)
    ensures mk.last == ValidMarker && mk.lastBand != "" ==> mk.lastBand in Named(own, mk)
  {}

  lemma {:induction false} BandOfFits(own: string, meta: StackMeta, mk: MarkerView, band: string)
    requires BandOf(own, meta, mk) == Some(band)
    ensures BandFits(own, meta, mk, band)
  {
    NamedHas(own, mk);
    BandAgrees(own, meta, mk);
  }

  lemma {:induction false} FitsIsFound(own: string, meta: StackMeta, mk: MarkerView, band: string)
    requires BandFits(own, meta, mk, band)
    ensures BandOf(own, meta, mk) == Some(band)
  {
    NamedHas(own, mk);
    AtMostOne(Named(own, mk), band);
  }

  /** The band of a stack, both ways. */
  lemma {:induction false} BandExactly(own: string, meta: StackMeta, mk: MarkerView, band: string)
    ensures BandOf(own, meta, mk) == Some(band) <==> BandFits(own, meta, mk, band)
  {
    if BandOf(own, meta, mk) == Some(band) { BandOfFits(own, meta, mk, band); }
    if BandFits(own, meta, mk, band) { FitsIsFound(own, meta, mk, band); }
  }

  // --- one stack ---------------------------------------------------------------------------------------

  /** A record of the stack's main; an interactive main leaves none itself, but the daemon it ensured does. */
  predicate MainRecord(e: Evidence, s: string, metas: map<string, StackMeta>, daemon: string)
    requires s in metas
  {
    e.stack == s &&
    (e.component == metas[s].main ||
     (metas[s].interactiveMain && daemon in metas && e.component == metas[daemon].main))
  }

  /** A record of a start of the whole stack. */
  predicate FullStart(e: Evidence, s: string, metas: map<string, StackMeta>, daemon: string)
    requires s in metas
  {
    MainRecord(e, s, metas, daemon) && e.scope == "stack" && e.target == s
  }

  /** A part other than the main was started on its own, and may be restored. */
  predicate OwnStart(e: Evidence, s: string, metas: map<string, StackMeta>, part: string)
    requires s in metas
  {
    e.stack == s && e.component == part && e.scope == "component" && e.target == part &&
    part in metas[s].restorableParts && part != metas[s].main
  }

  ghost predicate SomeFullStart(evidence: seq<Evidence>, s: string, metas: map<string, StackMeta>, daemon: string)
    requires s in metas
  {
    exists e :: e in evidence && FullStart(e, s, metas, daemon)
  }

  /** All full starts were on band `own`. */
  ghost predicate AllOn(evidence: seq<Evidence>, s: string, metas: map<string, StackMeta>, daemon: string, own: string)
    requires s in metas
  {
    forall e :: e in evidence && FullStart(e, s, metas, daemon) ==> e.band == own
  }

  /** Why a stack is not restored. */
  ghost predicate SkippedFor(reason: Reason, evidence: seq<Evidence>, s: string, metas: map<string, StackMeta>,
                             markers: map<string, MarkerView>, daemon: string)
  {
    if s !in metas then reason == UnknownStack
    else
      var mk := if s in markers then markers[s] else NO_MARKERS;
      match reason
      case UnknownStack => false
      case NoMain => forall e :: e in evidence ==> !MainRecord(e, s, metas, daemon)
      case NoFullScope =>
        (exists e :: e in evidence && MainRecord(e, s, metas, daemon)) && !SomeFullStart(evidence, s, metas, daemon)
      case ConflictingMains =>
        SomeFullStart(evidence, s, metas, daemon) && !exists own :: AllOn(evidence, s, metas, daemon, own)
      case BandAmbiguity =>
        SomeFullStart(evidence, s, metas, daemon) &&
        exists own :: AllOn(evidence, s, metas, daemon, own) && forall band :: !BandFits(own, metas[s], mk, band)
  }

  /** The parts that come back with the stack: sorted, each once. */
  ghost predicate PartsOf(parts: seq<string>, evidence: seq<Evidence>, s: string, metas: map<string, StackMeta>)
    requires s in metas
  {
    (forall i, k :: 0 <= i < k < |parts| ==> parts[i] != parts[k] && TextLe(parts[i], parts[k])) &&
    (forall c :: c in parts <==> exists e :: e in evidence && OwnStart(e, s, metas, c))
  }

  /** What is restored of a stack. */
  ghost predicate RestoredAs(evidence: seq<Evidence>, s: string, metas: map<string, StackMeta>,
                             markers: map<string, MarkerView>, daemon: string, band: string, parts: seq<string>)
  {
    s in metas && SomeFullStart(evidence, s, metas, daemon) &&
    (exists own :: AllOn(evidence, s, metas, daemon, own) &&
       BandFits(own, metas[s], if s in markers then markers[s] else NO_MARKERS, band)) &&
    PartsOf(parts, evidence, s, metas)
  }

  predicate FirstFullStart(evidence: seq<Evidence>, i: nat, s: string, metas: map<string, StackMeta>, daemon: string)
    requires s in metas
  {
    i < |evidence| && FullStart(evidence[i], s, metas, daemon) &&
    forall j :: 0 <= j < i ==> !FullStart(evidence[j], s, metas, daemon)
  }

  /** The time that orders a stack: the last valid start marker's, else that of the first full start. */
  ghost predicate StartedAt(evidence: seq<Evidence>, s: string, metas: map<string, StackMeta>,
                            markers: map<string, MarkerView>, daemon: string, at: int)
  {
    if s in markers && markers[s].last == ValidMarker && markers[s].lastAt > 0 then at == markers[s].lastAt
    else s in metas && exists i: nat :: FirstFullStart(evidence, i, s, metas, daemon) && at == evidence[i].launchedAt
  }

  // --- the planner decides just that -------------------------------------------------------------------

  /** The planner's main and full-scope records are those of the stack in the evidence. */
  lemma {:induction false} RecordsAre(evidence: seq<Evidence>, s: string, metas: map<string, StackMeta>, daemon: string)
    requires s in metas
    ensures var evs, dm := OfStack(evidence, s), DaemonMain(metas, daemon);
      (forall e :: e in Mains(evs, metas[s], dm) <==> e in evidence && MainRecord(e, s, metas, daemon)) &&
      (forall e :: e in Scoped(evs, s, metas[s], dm) <==> e in evidence && FullStart(e, s, metas, daemon))
  {}

  lemma {:induction false} ScopedCons(e: Evidence, rest: seq<Evidence>, s: string, meta: StackMeta, dm: Option<string>)
    ensures Scoped(OfStack([e] + rest, s), s, meta, dm) ==
      (if e.stack == s && IsScoped(e, s, meta, dm) then [e] else []) + Scoped(OfStack(rest, s), s, meta, dm)
  {
    var own := OfStack(rest, s);
    assert ([e] + rest)[1..] == rest && ([e] + own)[1..] == own;
    assert OfStack([e] + rest, s) == if e.stack == s then [e] + own else own;
  }

  lemma {:induction false} FirstLater(evidence: seq<Evidence>, i: nat, s: string, metas: map<string, StackMeta>,
                                      daemon: string)
    requires s in metas && evidence != [] && FirstFullStart(evidence[1..], i, s, metas, daemon)
    requires !FullStart(evidence[0], s, metas, daemon)
    ensures FirstFullStart(evidence, i + 1, s, metas, daemon) && evidence[i + 1] == evidence[1..][i]
  {
    assert forall j :: 0 < j <= i + 1 ==> evidence[j] == evidence[1..][j - 1];
  }

  /** The planner takes the first of the full starts. */
  lemma {:induction false} FirstIs(evidence: seq<Evidence>, s: string, metas: map<string, StackMeta>, daemon: string)
    returns (i: nat)
    requires s in metas && Scoped(OfStack(evidence, s), s, metas[s], DaemonMain(metas, daemon)) != []
    ensures FirstFullStart(evidence, i, s, metas, daemon)
    ensures evidence[i] == Scoped(OfStack(evidence, s), s, metas[s], DaemonMain(metas, daemon))[0]
  {
    var e, rest := evidence[0], evidence[1..];
    assert evidence == [e] + rest;
    ScopedCons(e, rest, s, metas[s], DaemonMain(metas, daemon));
    if e.stack == s && IsScoped(e, s, metas[s], DaemonMain(metas, daemon)) {
      i := 0;
    } else {
      i := FirstIs(rest, s, metas, daemon);
      FirstLater(evidence, i, s, metas, daemon);
      i := i + 1;
    }
  }

  lemma {:induction false} PartIs(evidence: seq<Evidence>, s: string, metas: map<string, StackMeta>, c: string)
    requires s in metas
    ensures c in PartNames(OfStack(evidence, s), metas[s]) <==>
      exists e :: e in evidence && OwnStart(e, s, metas, c)
  {
    if c in PartNames(OfStack(evidence, s), metas[s]) {
      var e :| e in OfStack(evidence, s) && RanAlone(e, metas[s]) && e.component == c;
      assert OwnStart(e, s, metas, c);
    }
    if e :| e in evidence && OwnStart(e, s, metas, c) {
      assert e in OfStack(evidence, s) && RanAlone(e, metas[s]) && e.component == c;
    }
  }

  lemma {:induction false} PartsAre(evidence: seq<Evidence>, s: string, metas: map<string, StackMeta>)
    requires s in metas
    ensures PartsOf(SortedSet(PartNames(OfStack(evidence, s), metas[s])), evidence, s, metas)
  {
    var names := PartNames(OfStack(evidence, s), metas[s]);
    SortedTexts(names);
    forall c ensures c in names <==> exists e :: e in evidence && OwnStart(e, s, metas, c) {
      PartIs(evidence, s, metas, c);
    }
  }

  lemma {:induction false} SortedTexts(names: seq<string>)
    ensures var out := SortedSet(names);
      (forall i, k :: 0 <= i < k < |out| ==> out[i] != out[k] && TextLe(out[i], out[k])) &&
      forall c :: c in out <==> c in names
  {
    var out := SortedSet(names);
    SortedSetFacts(names);
    forall i, k | 0 <= i < k < |out| ensures out[i] != out[k] && TextLe(out[i], out[k]) {
      assert KeyLe(TextKey(out[i]), TextKey(out[k]));
      TextOrder(out[i], out[k]);
    }
  }

  /** One band means no more than one in the set of them. */
  lemma {:induction false} AllOnIs(evidence: seq<Evidence>, s: string, metas: map<string, StackMeta>, daemon: string)
    requires s in metas && Scoped(OfStack(evidence, s), s, metas[s], DaemonMain(metas, daemon)) != []
    ensures var scoped := Scoped(OfStack(evidence, s), s, metas[s], DaemonMain(metas, daemon));
      (|BandsOf(scoped)| <= 1 <==> AllOn(evidence, s, metas, daemon, scoped[0].band)) &&
      forall own :: AllOn(evidence, s, metas, daemon, own) ==> own == scoped[0].band
  {
    var scoped := Scoped(OfStack(evidence, s), s, metas[s], DaemonMain(metas, daemon));
    var own := scoped[0].band;
    RecordsAre(evidence, s, metas, daemon);
    assert scoped[0] in scoped && own in BandsOf(scoped);
    if |BandsOf(scoped)| <= 1 {
      forall e | e in evidence && FullStart(e, s, metas, daemon) ensures e.band == own {
        assert e in scoped && e.band in BandsOf(scoped);
        OnlyOne(BandsOf(scoped), e.band, own);
      }
    }
    if AllOn(evidence, s, metas, daemon, own) { AtMostOne(BandsOf(scoped), own); }
  }

  /** A decision is what the records, the manifest and the markers say. */
  ghost predicate Decided(d: Decision, evidence: seq<Evidence>, s: string, metas: map<string, StackMeta>,
                          markers: map<string, MarkerView>, daemon: string)
  {
    match d
    case Skip(reason) => SkippedFor(reason, evidence, s, metas, markers, daemon)
    case Restore(band, parts, at) =>
      RestoredAs(evidence, s, metas, markers, daemon, band, parts) && StartedAt(evidence, s, metas, markers, daemon, at)
  }

  lemma {:induction false} NoneFound(evidence: seq<Evidence>, s: string, metas: map<string, StackMeta>, daemon: string)
    requires s in metas
    ensures var evs, dm := OfStack(evidence, s), DaemonMain(metas, daemon);
      (Mains(evs, metas[s], dm) == [] <==> forall e :: e in evidence ==> !MainRecord(e, s, metas, daemon)) &&
      (Scoped(evs, s, metas[s], dm) == [] <==> !SomeFullStart(evidence, s, metas, daemon))
  {
    var evs, dm := OfStack(evidence, s), DaemonMain(metas, daemon);
    RecordsAre(evidence, s, metas, daemon);
    var mains, scoped := Mains(evs, metas[s], dm), Scoped(evs, s, metas[s], dm);
    assert mains != [] ==> mains[0] in mains;
    assert scoped != [] ==> scoped[0] in scoped;
  }

  /** All full starts on band `own`: restored on a band that fits, and not at all where none does. */
  lemma {:induction false} BandDecides(evidence: seq<Evidence>, s: string, metas: map<string, StackMeta>,
                                       markers: map<string, MarkerView>, daemon: string, own: string,
                                       parts: seq<string>)
    requires s in metas && SomeFullStart(evidence, s, metas, daemon) && AllOn(evidence, s, metas, daemon, own)
    requires PartsOf(parts, evidence, s, metas)
    ensures match BandOf(own, metas[s], MarkersOf(markers, s))
            case None => SkippedFor(BandAmbiguity, evidence, s, metas, markers, daemon)
            case Some(band) => RestoredAs(evidence, s, metas, markers, daemon, band, parts)
  {
    forall band { BandExactly(own, metas[s], MarkersOf(markers, s), band); }
  }

  lemma {:induction false} TimeIs(evidence: seq<Evidence>, s: string, metas: map<string, StackMeta>,
                                  markers: map<string, MarkerView>, daemon: string)
    requires s in metas && Scoped(OfStack(evidence, s), s, metas[s], DaemonMain(metas, daemon)) != []
    ensures var mk := MarkersOf(markers, s);
      StartedAt(evidence, s, metas, markers, daemon,
                if mk.last == ValidMarker && mk.lastAt > 0 then mk.lastAt
                else Scoped(OfStack(evidence, s), s, metas[s], DaemonMain(metas, daemon))[0].launchedAt)
  {
    var i := FirstIs(evidence, s, metas, daemon);
  }

  /** Some full start: one band or several. */
  lemma {:induction false} DecidedOnScoped(evidence: seq<Evidence>, s: string, metas: map<string, StackMeta>,
                                           markers: map<string, MarkerView>, daemon: string, scoped: seq<Evidence>)
    requires s in metas && scoped == Scoped(OfStack(evidence, s), s, metas[s], DaemonMain(metas, daemon))
    requires scoped != [] && SomeFullStart(evidence, s, metas, daemon)
    ensures |BandsOf(scoped)| > 1 ==> SkippedFor(ConflictingMains, evidence, s, metas, markers, daemon)
    ensures |BandsOf(scoped)| <= 1 ==>
      match BandOf(scoped[0].band, metas[s], MarkersOf(markers, s))
      case None => SkippedFor(BandAmbiguity, evidence, s, metas, markers, daemon)
      case Some(band) =>
        RestoredAs(evidence, s, metas, markers, daemon, band, SortedSet(PartNames(OfStack(evidence, s), metas[s])))
  {
    AllOnIs(evidence, s, metas, daemon);
    PartsAre(evidence, s, metas);
    if |BandsOf(scoped)| <= 1 {
      BandDecides(evidence, s, metas, markers, daemon, scoped[0].band,
                  SortedSet(PartNames(OfStack(evidence, s), metas[s])));
    }
  }

  lemma {:induction false} DecidedAs(evidence: seq<Evidence>, s: string, metas: map<string, StackMeta>,
                                     markers: map<string, MarkerView>, daemon: string)
    ensures Decided(DecisionFor(evidence, s, metas, markers, daemon), evidence, s, metas, markers, daemon)
  {
    if s in metas {
      NoneFound(evidence, s, metas, daemon);
      var scoped := Scoped(OfStack(evidence, s), s, metas[s], DaemonMain(metas, daemon));
      if scoped != [] {
        DecidedOnScoped(evidence, s, metas, markers, daemon, scoped);
        TimeIs(evidence, s, metas, markers, daemon);
      }
    }
  }

  /** One reason at most, and none for a stack that is restored. */
  lemma {:induction false} OneReason(evidence: seq<Evidence>, s: string, metas: map<string, StackMeta>,
                                     markers: map<string, MarkerView>, daemon: string, r: Reason)
    requires SkippedFor(r, evidence, s, metas, markers, daemon)
    ensures DecisionFor(evidence, s, metas, markers, daemon) == Skip(r)
  {
    DecidedAs(evidence, s, metas, markers, daemon);
    if s in metas && SomeFullStart(evidence, s, metas, daemon) {
      NoneFound(evidence, s, metas, daemon);
      AllOnIs(evidence, s, metas, daemon);
    }
  }

  /** One time orders a stack. */
  lemma {:induction false} OneTime(evidence: seq<Evidence>, s: string, metas: map<string, StackMeta>,
                                   markers: map<string, MarkerView>, daemon: string, a: int, b: int)
    requires StartedAt(evidence, s, metas, markers, daemon, a) && StartedAt(evidence, s, metas, markers, daemon, b)
    ensures a == b
  {
    if !(s in markers && markers[s].last == ValidMarker && markers[s].lastAt > 0) {
      var i: nat :| FirstFullStart(evidence, i, s, metas, daemon) && a == evidence[i].launchedAt;
      var k: nat :| FirstFullStart(evidence, k, s, metas, daemon) && b == evidence[k].launchedAt;
      assert i == k;
    }
  }
}
