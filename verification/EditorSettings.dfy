/**
 Where the declared settings end up, and that the other settings keep theirs
 (lhpc/core/config.py:1110-1235).
 */
module EditorSettings {
  import opened Options
  import opened Collections
  import opened Editors
  import opened EditorLaws

  /** All lines about a slot, commented ones included, in order. */
  function LinesFor(kind: Kind, lines: seq<string>, path: Path, s: Slot): seq<string>
  {
    if lines == [] then []
    else
      (if SlotOf(path, lines[0]) == Some(s) then [lines[0]] else []) +
      LinesFor(kind, lines[1..], if Header(lines[0]) then Opened(kind, path, lines[0]) else path, s)
  }

  /** The slots settled by the end of a run. */
  function Settled(kind: Kind, want: seq<Entry>, drop: set<Slot>, lines: seq<string>, path: Path,
                   done: set<Slot>): set<Slot>
    decreases |lines|
  {
    if lines == [] then done + Slots(Pending(want, path, done))
    else
      var fate := FateOf(kind, want, drop, lines[0], path, done);
      Settled(kind, want, drop, lines[1..], PathAfter(path, fate), DoneAfter(want, path, done, fate))
  }

  /** Every section that was left has everything declared for it. */
  ghost predicate LeftComplete(want: seq<Entry>, path: Path, done: set<Slot>)
  {
    forall e, s :: e in want && s in done && s.path == e.slot.path && e.slot.path != path ==> e.slot in done
  }

  lemma {:induction false} PendingSlots(want: seq<Entry>, path: Path, done: set<Slot>)
    ensures forall s :: s in Slots(Pending(want, path, done)) ==> s.path == path && s !in done
    ensures forall e :: e in want && e.slot.path == path ==> e.slot in done + Slots(Pending(want, path, done))
  {
    forall e | e in want && e.slot.path == path ensures e.slot in done + Slots(Pending(want, path, done)) {
      assert e.slot !in done ==> e in Pending(want, path, done);
    }
  }

  lemma {:induction false} StepStaysComplete(want: seq<Entry>, path: Path, done: set<Slot>, fate: Fate)
    requires LeftComplete(want, path, done) && (fate.Takes? ==> fate.entry.slot.path == path)
    ensures LeftComplete(want, PathAfter(path, fate), DoneAfter(want, path, done, fate))
  {
    PendingSlots(want, path, done);
    var path', done' := PathAfter(path, fate), DoneAfter(want, path, done, fate);
    forall e, s | e in want && s in done' && s.path == e.slot.path && e.slot.path != path' ensures e.slot in done' {
      if e.slot.path != path { assert s in done; }
    }
  }

  lemma {:induction false} TakesItsOwn(kind: Kind, want: seq<Entry>, drop: set<Slot>, line: string, path: Path,
                                       done: set<Slot>)
    ensures var fate := FateOf(kind, want, drop, line, path, done);
      fate.Takes? ==>
        (SlotOf(path, line) == Some(fate.entry.slot) && fate.entry in want && fate.entry.slot.path == path &&
         fate.entry.slot !in done && fate.text == Line(SetIndent(kind, path, line), fate.entry))
  {}

  /** No section is left half done: a declared slot is settled as soon as anything of its section is. */
  lemma {:induction false} SectionsAreComplete(kind: Kind, want: seq<Entry>, drop: set<Slot>, lines: seq<string>,
                                               path: Path, done: set<Slot>, e: Entry, s: Slot)
    requires LeftComplete(want, path, done) && e in want
    requires s in Settled(kind, want, drop, lines, path, done) && s.path == e.slot.path
    ensures e.slot in Settled(kind, want, drop, lines, path, done)
    decreases |lines|
  {
    if lines == [] {
      PendingSlots(want, path, done);
      if e.slot.path != path { assert s in done; }
    } else {
      var fate := FateOf(kind, want, drop, lines[0], path, done);
      TakesItsOwn(kind, want, drop, lines[0], path, done);
      StepStaysComplete(want, path, done, fate);
      SectionsAreComplete(kind, want, drop, lines[1..], PathAfter(path, fate), DoneAfter(want, path, done, fate), e, s);
    }
  }

  // --- the lines of one slot ------------------------------------------------------------------------------------

  lemma {:induction false} LinesForCons(kind: Kind, line: string, rest: seq<string>, path: Path, s: Slot)
    ensures LinesFor(kind, [line] + rest, path, s) == (if SlotOf(path, line) == Some(s) then [line] else []) +
      LinesFor(kind, rest, if Header(line) then Opened(kind, path, line) else path, s)
  {
    assert ([line] + rest)[1..] == rest;
  }

  /** A written line counts for its own slot only. */
  lemma {:induction false} WrittenCounts(kind: Kind, indent: string, e: Entry, rest: seq<string>, path: Path, s: Slot)
    requires Blank(indent) && KeyOk(e.slot.key) && e.slot.path == path
    ensures LinesFor(kind, [Line(indent, e)] + rest, path, s) ==
      (if e.slot == s then [Line(indent, e)] else []) + LinesFor(kind, rest, path, s)
  {
    WrittenLine(path, indent, e);
    LinesForCons(kind, Line(indent, e), rest, path, s);
  }

  /** Those of `texts` whose entry is about `s`. */
  function Matching(es: seq<Entry>, texts: seq<string>, s: Slot): seq<string>
    requires |es| == |texts|
  {
    if es == [] then [] else (if es[0].slot == s then [texts[0]] else []) + Matching(es[1..], texts[1..], s)
  }

  lemma {:induction false} NothingMatches(es: seq<Entry>, texts: seq<string>, s: Slot)
    requires |es| == |texts| && forall k :: 0 <= k < |es| ==> es[k].slot != s
    ensures Matching(es, texts, s) == []
  {
    if es != [] {
      assert forall k :: 0 <= k < |es[1..]| ==> es[1..][k] == es[k + 1];
      NothingMatches(es[1..], texts[1..], s);
    }
  }

  lemma {:induction false} OneMatches(es: seq<Entry>, texts: seq<string>, k: nat)
    requires |es| == |texts| && k < |es| && SlotsApart(es)
    ensures Matching(es, texts, es[k].slot) == [texts[k]]
  {
    var more := es[1..];
    assert forall i :: 0 <= i < |more| ==> more[i] == es[i + 1];
    if k == 0 {
      NothingMatches(more, texts[1..], es[0].slot);
    } else {
      OneMatches(more, texts[1..], k - 1);
    }
  }

  lemma {:induction false} AllCounted(count: seq<string> -> seq<string>, es: seq<Entry>, texts: seq<string>, s: Slot,
                                      rest: seq<string>)
    requires |es| == |texts|
    requires forall k, r :: 0 <= k < |es| ==>
      count([texts[k]] + r) == (if es[k].slot == s then [texts[k]] else []) + count(r)
    ensures count(texts + rest) == Matching(es, texts, s) + count(rest)
    decreases |es|
  {
    if es == [] {
      assert texts + rest == rest;
    } else {
      var more, later := es[1..], texts[1..];
      forall k, r | 0 <= k < |more|
        ensures count([later[k]] + r) == (if more[k].slot == s then [later[k]] else []) + count(r)
      {
        assert more[k] == es[k + 1] && later[k] == texts[k + 1];
      }
      AllCounted(count, more, later, s, rest);
      assert texts + rest == [texts[0]] + (later + rest);
      Regroup(if es[0].slot == s then [texts[0]] else [], Matching(more, later, s), count(rest));
    }
  }

  /** Lines appended to a section count for their own slots only. */
  lemma {:induction false} AdditionsCount(kind: Kind, path: Path, es: seq<Entry>, rest: seq<string>, s: Slot)
    requires forall e :: e in es ==> KeyOk(e.slot.key) && e.slot.path == path
    ensures var texts := Output(Additions(kind, path, es));
      |texts| == |es| && LinesFor(kind, texts + rest, path, s) == Matching(es, texts, s) + LinesFor(kind, rest, path, s)
  {
    var texts := Output(Additions(kind, path, es));
    var count := (l: seq<string>) => LinesFor(kind, l, path, s);
    AdditionTexts(kind, path, es);
    AddIndentIsFinal(kind, path);
    forall k, r | 0 <= k < |es|
      ensures count([texts[k]] + r) == (if es[k].slot == s then [texts[k]] else []) + count(r)
    {
      assert es[k] in es;
      WrittenCounts(kind, AddIndent(kind, path), es[k], r, path, s);
    }
    AllCounted(count, es, texts, s, rest);
  }

  /** What a header leaves in the output, as far as `s` goes. */
  lemma {:induction false} OpensCount(kind: Kind, want: seq<Entry>, line: string, later: seq<string>, path: Path,
                                      done: set<Slot>, next: Path, s: Slot)
    requires WantOk(want) && Header(line) && next == Opened(kind, path, line)
    ensures var es := Pending(want, path, done);
      var texts := Output(Additions(kind, path, es));
      |texts| == |es| &&
      LinesFor(kind, Output(MarksFor(kind, want, line, path, done, Opens(next))) + later, path, s) ==
        Matching(es, texts, s) + LinesFor(kind, later, next, s)
  {
    var es := Pending(want, path, done);
    var texts := Output(Additions(kind, path, es));
    var count := (l: seq<string>, p: Path) => LinesFor(kind, l, p, s);
    OpeningOutput(kind, want, line, path, done, next);
    AdditionsCount(kind, path, es, [line] + later, s);
    HeaderCounts(kind, line, later, path, s);
    CountChain(count, texts, line, later, path, next, Matching(es, texts, s));
  }

  lemma {:induction false} HeaderCounts(kind: Kind, line: string, later: seq<string>, path: Path, s: Slot)
    requires Header(line)
    ensures LinesFor(kind, [line] + later, path, s) == LinesFor(kind, later, Opened(kind, path, line), s)
  {
    LinesForCons(kind, line, later, path, s);
  }

  lemma {:induction false} CountChain(count: (seq<string>, Path) -> seq<string>, texts: seq<string>, line: string,
                                      later: seq<string>, path: Path, next: Path, own: seq<string>)
    requires count(texts + ([line] + later), path) == own + count([line] + later, path)
    requires count([line] + later, path) == count(later, next)
    ensures count(texts + [line] + later, path) == own + count(later, next)
  {
    assert texts + [line] + later == texts + ([line] + later);
  }

  lemma {:induction false} TakesCount(kind: Kind, want: seq<Entry>, drop: set<Slot>, line: string, later: seq<string>,
                                      path: Path, done: set<Slot>, e: Entry, text: string, s: Slot)
    requires WantOk(want) && FateOf(kind, want, drop, line, path, done) == Takes(e, text)
    ensures LinesFor(kind, [text] + later, path, s) ==
      (if e.slot == s then [text] else []) + LinesFor(kind, later, path, s)
    ensures Blank(SetIndent(kind, path, line)) && text == Line(SetIndent(kind, path, line), e) && e in want
  {
    TakesItsOwn(kind, want, drop, line, path, done);
    SetIndentIsFinal(kind, path, line);
    WrittenCounts(kind, SetIndent(kind, path, line), e, later, path, s);
  }

  // --- other settings keep their lines ------------------------------------------------------------------------------

  lemma {:induction false} PendingNotAbout(want: seq<Entry>, path: Path, done: set<Slot>, s: Slot)
    requires s !in Slots(want) || s in done || s.path != path
    ensures forall k :: 0 <= k < |Pending(want, path, done)| ==> Pending(want, path, done)[k].slot != s
  {
    forall k | 0 <= k < |Pending(want, path, done)| ensures Pending(want, path, done)[k].slot != s {
      assert Pending(want, path, done)[k] in Pending(want, path, done);
    }
  }

  /** Every line about a slot that is neither declared nor dropped is there, in order, and nothing else is. */
  lemma {:induction false} OthersKeepTheirLines(kind: Kind, want: seq<Entry>, drop: set<Slot>, lines: seq<string>,
                                                path: Path, done: set<Slot>, s: Slot)
    requires WantOk(want) && s !in Slots(want) && s !in drop
    ensures LinesFor(kind, Output(Run(kind, want, drop, lines, path, done)), path, s) == LinesFor(kind, lines, path, s)
    decreases |lines|
  {
    PendingNotAbout(want, path, done, s);
    var es := Pending(want, path, done);
    if lines == [] {
      AdditionsCount(kind, path, es, [], s);
      assert Output(Additions(kind, path, es)) + [] == Output(Additions(kind, path, es));
      NothingMatches(es, Output(Additions(kind, path, es)), s);
    } else {
      var line, rest := lines[0], lines[1..];
      var fate := FateOf(kind, want, drop, line, path, done);
      var path', done' := PathAfter(path, fate), DoneAfter(want, path, done, fate);
      var later := Output(Run(kind, want, drop, rest, path', done'));
      assert lines == [line] + rest;
      RunStep(kind, want, drop, line, rest, path, done, fate);
      OthersKeepTheirLines(kind, want, drop, rest, path', done', s);
      TakesItsOwn(kind, want, drop, line, path, done);
      OtherLine(kind, want, drop, line, rest, later, path, done, fate, s);
    }
  }

  lemma {:induction false} OtherOpens(kind: Kind, want: seq<Entry>, line: string, later: seq<string>, path: Path,
                                      done: set<Slot>, s: Slot)
    requires WantOk(want) && Header(line) && (s !in Slots(want) || s in done || s.path != path)
    ensures LinesFor(kind, Output(MarksFor(kind, want, line, path, done, Opens(Opened(kind, path, line)))) + later,
                     path, s) ==
      LinesFor(kind, later, Opened(kind, path, line), s)
  {
    var es := Pending(want, path, done);
    OpensCount(kind, want, line, later, path, done, Opened(kind, path, line), s);
    PendingNotAbout(want, path, done, s);
    NothingMatches(es, Output(Additions(kind, path, es)), s);
  }

  lemma {:induction false} OtherTakes(kind: Kind, want: seq<Entry>, drop: set<Slot>, line: string, rest: seq<string>,
                                      later: seq<string>, path: Path, done: set<Slot>, e: Entry, text: string, s: Slot)
    requires WantOk(want) && s !in Slots(want) && FateOf(kind, want, drop, line, path, done) == Takes(e, text)
    ensures LinesFor(kind, [text] + later, path, s) == LinesFor(kind, later, path, s)
    ensures LinesFor(kind, [line] + rest, path, s) == LinesFor(kind, rest, path, s)
  {
    TakesCount(kind, want, drop, line, later, path, done, e, text, s);
    TakesItsOwn(kind, want, drop, line, path, done);
    EntryIsOnly(want, e);
    LinesForCons(kind, line, rest, path, s);
  }

  lemma {:induction false} OtherStays(kind: Kind, want: seq<Entry>, drop: set<Slot>, line: string, rest: seq<string>,
                                      later: seq<string>, path: Path, done: set<Slot>, s: Slot)
    requires s !in drop
    requires LinesFor(kind, later, path, s) == LinesFor(kind, rest, path, s)
    ensures FateOf(kind, want, drop, line, path, done) == Drops ==>
      LinesFor(kind, later, path, s) == LinesFor(kind, [line] + rest, path, s)
    ensures FateOf(kind, want, drop, line, path, done) == Keeps ==>
      LinesFor(kind, [line] + later, path, s) == LinesFor(kind, [line] + rest, path, s)
  {
    LinesForCons(kind, line, rest, path, s);
    LinesForCons(kind, line, later, path, s);
  }

  lemma {:induction false} OtherLine(kind: Kind, want: seq<Entry>, drop: set<Slot>, line: string, rest: seq<string>,
                                     later: seq<string>, path: Path, done: set<Slot>, fate: Fate, s: Slot)
    requires WantOk(want) && s !in Slots(want) && s !in drop && fate == FateOf(kind, want, drop, line, path, done)
    requires LinesFor(kind, later, PathAfter(path, fate), s) == LinesFor(kind, rest, PathAfter(path, fate), s)
    ensures LinesFor(kind, Output(MarksFor(kind, want, line, path, done, fate)) + later, path, s) ==
      LinesFor(kind, [line] + rest, path, s)
  {
    match fate {
      case Opens(next) =>
        OtherOpens(kind, want, line, later, path, done, s);
        HeaderCounts(kind, line, rest, path, s);
      case Takes(e, text) => OtherTakes(kind, want, drop, line, rest, later, path, done, e, text, s);
      case Drops =>
        OtherStays(kind, want, drop, line, rest, later, path, done, s);
        assert [] + later == later;
      case Keeps => OtherStays(kind, want, drop, line, rest, later, path, done, s);
    }
  }

  // --- a declared setting comes first among its lines --------------------------------------------------------------

  ghost predicate SetFirst(kind: Kind, lines: seq<string>, path: Path, e: Entry)
  {
    var ls := LinesFor(kind, lines, path, e.slot);
    ls != [] && exists indent :: Blank(indent) && ls[0] == Line(indent, e)
  }

  /**
   A declared slot that is settled: the first line about it, commented ones included, is the
   declared setting, at its first occurrence or appended to its own section.
   */
  lemma {:induction false} SetWhereItFirstOccurs(kind: Kind, want: seq<Entry>, drop: set<Slot>, lines: seq<string>,
                                                 path: Path, done: set<Slot>, e: Entry)
    requires WantOk(want) && e in want && e.slot !in done && e.slot in Settled(kind, want, drop, lines, path, done)
    ensures SetFirst(kind, Output(Run(kind, want, drop, lines, path, done)), path, e)
    decreases |lines|
  {
    var es := Pending(want, path, done);
    if lines == [] {
      PendingSlots(want, path, done);
      AdditionsCount(kind, path, es, [], e.slot);
      assert Output(Additions(kind, path, es)) + [] == Output(Additions(kind, path, es));
      AddedFirst(kind, want, path, done, e);
    } else {
      var line, rest := lines[0], lines[1..];
      var fate := FateOf(kind, want, drop, line, path, done);
      var path', done' := PathAfter(path, fate), DoneAfter(want, path, done, fate);
      assert lines == [line] + rest;
      RunStep(kind, want, drop, line, rest, path, done, fate);
      if e.slot !in done' { SetWhereItFirstOccurs(kind, want, drop, rest, path', done', e); }
      HeaderFate(kind, want, drop, line, path, done, e);
      SetHereOrLater(kind, want, drop, line, Output(Run(kind, want, drop, rest, path', done')), path, done, fate, e);
    }
  }

  lemma {:induction false} AddedFirst(kind: Kind, want: seq<Entry>, path: Path, done: set<Slot>, e: Entry)
    requires WantOk(want) && e in want && e.slot !in done && e.slot.path == path
    ensures var es := Pending(want, path, done);
      var texts := Output(Additions(kind, path, es));
      |texts| == |es| && Matching(es, texts, e.slot) == [Line(AddIndent(kind, path), e)] && Blank(AddIndent(kind, path))
  {
    var es := Pending(want, path, done);
    var k :| 0 <= k < |es| && es[k] == e;
    PendingApart(want, path, done);
    AdditionTexts(kind, path, es);
    AddIndentIsFinal(kind, path);
    OneMatches(es, Output(Additions(kind, path, es)), k);
  }

  lemma {:induction false} SetAtHeader(kind: Kind, want: seq<Entry>, line: string, later: seq<string>,
                                       path: Path, done: set<Slot>, e: Entry)
    requires WantOk(want) && e in want && e.slot !in done && Header(line)
    requires e.slot.path != path ==> SetFirst(kind, later, Opened(kind, path, line), e)
    ensures SetFirst(kind, Output(MarksFor(kind, want, line, path, done, Opens(Opened(kind, path, line)))) + later,
                     path, e)
  {
    if e.slot.path == path {
      OpensCount(kind, want, line, later, path, done, Opened(kind, path, line), e.slot);
      AddedFirst(kind, want, path, done, e);
    } else {
      OtherOpens(kind, want, line, later, path, done, e.slot);
    }
  }

  lemma {:induction false} SetAtLine(kind: Kind, want: seq<Entry>, drop: set<Slot>, line: string, later: seq<string>,
                                     path: Path, done: set<Slot>, f: Entry, text: string, e: Entry)
    requires WantOk(want) && e in want && FateOf(kind, want, drop, line, path, done) == Takes(f, text)
    requires e.slot != f.slot ==> SetFirst(kind, later, path, e)
    ensures SetFirst(kind, [text] + later, path, e)
  {
    TakesCount(kind, want, drop, line, later, path, done, f, text, e.slot);
    EntryIsOnly(want, e);
    EntryIsOnly(want, f);
  }

  lemma {:induction false} SetAfterKept(kind: Kind, want: seq<Entry>, drop: set<Slot>, line: string, later: seq<string>,
                                        path: Path, done: set<Slot>, e: Entry)
    requires WantOk(want) && e in want && e.slot !in done && FateOf(kind, want, drop, line, path, done) == Keeps
    requires SetFirst(kind, later, path, e)
    ensures SetFirst(kind, [line] + later, path, e)
  {
    EntryIsOnly(want, e);
    LinesForCons(kind, line, later, path, e.slot);
  }

  lemma {:induction false} HeaderFate(kind: Kind, want: seq<Entry>, drop: set<Slot>, line: string, path: Path,
                                      done: set<Slot>, e: Entry)
    requires e.slot !in done
    ensures var fate := FateOf(kind, want, drop, line, path, done);
      fate.Opens? ==> (Header(line) && fate.next == Opened(kind, path, line) &&
        (e.slot.path != path ==> e.slot !in done + Slots(Pending(want, path, done))))
  {
    PendingSlots(want, path, done);
  }

  /** ... whatever happens at the line before the rest. */
  lemma {:induction false} SetHereOrLater(kind: Kind, want: seq<Entry>, drop: set<Slot>, line: string,
                                          later: seq<string>, path: Path, done: set<Slot>, fate: Fate, e: Entry)
    requires WantOk(want) && e in want && e.slot !in done
    requires fate.Opens? ==> (Header(line) && fate.next == Opened(kind, path, line) &&
      (e.slot.path != path ==> e.slot !in done + Slots(Pending(want, path, done))))
    requires fate.Takes? || fate.Keeps? ==> FateOf(kind, want, drop, line, path, done) == fate
    requires e.slot !in DoneAfter(want, path, done, fate) ==> SetFirst(kind, later, PathAfter(path, fate), e)
    ensures SetFirst(kind, Output(MarksFor(kind, want, line, path, done, fate)) + later, path, e)
  {
    match fate {
      case Opens(next) => SetAtHeader(kind, want, line, later, path, done, e);
      case Takes(f, text) => SetAtLine(kind, want, drop, line, later, path, done, f, text, e);
      case Drops => assert [] + later == later;
      case Keeps => SetAfterKept(kind, want, drop, line, later, path, done, e);
    }
  }
}
