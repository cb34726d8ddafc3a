/**
 What the editors guarantee: every line survives, every declared slot ends up set where it first
 occurs or in its own section, other settings keep their lines, and a second application changes
 nothing (lhpc/core/config.py:1110-1235).
 */
module EditorLaws {
  import opened Options
  import opened Collections
  import opened Editors

  /** Trimmed, without '=', not read as a header or a comment. */
  predicate KeyOk(k: string)
  {
    k != "" && !Space(k[0]) && !Space(k[|k| - 1]) && '=' !in k && k[0] != '[' && k[0] != '#'
  }

  ghost predicate WantOk(want: seq<Entry>)
  {
    (forall e :: e in want ==> KeyOk(e.slot.key)) &&
    (forall i, k :: 0 <= i < k < |want| ==> want[i].slot != want[k].slot)
  }

  // --- a written line reads as its slot -------------------------------------------------------------------

  lemma {:induction false} LeadingOf(indent: string, s: string)
    requires Blank(indent) && s != "" && !Space(s[0])
    ensures Leading(indent + s) == indent && LStrip(indent + s) == s
  {
    if indent != "" {
      LeadingOf(indent[1..], s);
      assert (indent + s)[1..] == indent[1..] + s && indent == [indent[0]] + indent[1..];
    } else {
      assert indent + s == s;
    }
    assert (indent + s)[|indent|..] == s;
  }

  lemma {:induction false} RStripReaches(s: string, i: nat)
    requires i < |s| && !Space(s[i])
    ensures i < |RStrip(s)|
  {
    var r := RStrip(s);
    assert forall k :: |r| <= k < |s| ==> s[|r|..][k - |r|] == s[k];
  }

  lemma {:induction false} TrimmedRight(k: string)
    requires k != "" && !Space(k[|k| - 1])
    ensures RStrip(k + " ") == k
  {
    var s := k + " ";
    RStripReaches(s, |k| - 1);
    assert s[|k|] == ' ' && Space(' ') && s[..|k|] == k;
    assert RStrip(s) == s[..|RStrip(s)|];
  }

  lemma {:induction false} TrimmedStays(k: string)
    requires KeyOk(k)
    ensures Strip(k + " ") == k
  {
    LeadingOf("", k + " ");
    assert "" + (k + " ") == k + " ";
    TrimmedRight(k);
  }

  lemma {:induction false} FirstEquals(a: string, b: string)
    requires '=' !in a
    ensures '=' in a + "=" + b && BeforeEquals(a + "=" + b) == a
  {
    var s := a + "=" + b;
    assert s[|a|] == '=';
    var r := BeforeEquals(s);
    assert forall i :: 0 <= i < |a| ==> s[i] == a[i];
    assert |r| <= |a|;
    assert a == s[..|a|];
  }

  /** The text of a written line, without its indent. */
  lemma {:induction false} BodyReads(k: string, v: string)
    requires KeyOk(k)
    ensures var st := RStrip(k + " = " + v);
      st != "" && st[0] == k[0] && '=' in st && Strip(BeforeEquals(st)) == k
  {
    var body := k + " = " + v;
    var st := RStrip(body);
    RStripReaches(body, 0);
    assert body[|k| + 1] == '=' && !Space('=');
    RStripReaches(body, |k| + 1);
    var tail := st[|k| + 2..];
    assert body == (k + " ") + "=" + (" " + v);
    assert st == body[..|st|];
    assert st == (k + " ") + "=" + tail;
    FirstEquals(k + " ", tail);
    TrimmedStays(k);
  }

  /** However it is indented, a written line is about its own slot, active, and no header. */
  lemma {:induction false} WrittenLine(path: Path, indent: string, e: Entry)
    requires Blank(indent) && KeyOk(e.slot.key)
    ensures var w := Line(indent, e);
      !Header(w) && !Commented(w) && SlotOf(path, w) == Some(Slot(path, e.slot.key)) && Leading(w) == indent
  {
    var body := e.slot.key + " = " + e.value;
    assert Line(indent, e) == indent + body;
    LeadingOf(indent, body);
    BodyReads(e.slot.key, e.value);
  }

  lemma {:induction false} PadIsBlank(n: nat)
    ensures Blank(Pad(n))
  {
    if n > 0 { PadIsBlank(n - 1); }
  }

  // --- every line survives ------------------------------------------------------------------------------------

  lemma {:induction false} ReadJoins(a: seq<Mark>, b: seq<Mark>)
    ensures Read(a + b) == Read(a) + Read(b)
  {
    if a == [] {
      assert a + b == b;
    } else {
      ReadJoins(a[1..], b);
      assert (a + b)[0] == a[0] && (a + b)[1..] == a[1..] + b;
      Regroup(ReadOne(a[0]), Read(a[1..]), Read(b));
    }
  }

  lemma {:induction false} OutputJoins(a: seq<Mark>, b: seq<Mark>)
    ensures Output(a + b) == Output(a) + Output(b)
  {
    if a == [] {
      assert a + b == b;
    } else {
      OutputJoins(a[1..], b);
      assert (a + b)[0] == a[0] && (a + b)[1..] == a[1..] + b;
      Regroup(WrittenBy(a[0]), Output(a[1..]), Output(b));
    }
  }

  lemma {:induction false} DoneJoins(a: seq<Mark>, b: seq<Mark>)
    ensures Done(a + b) == Done(a) + Done(b)
  {
    if a == [] {
      assert a + b == b;
    } else {
      DoneJoins(a[1..], b);
      assert (a + b)[0] == a[0] && (a + b)[1..] == a[1..] + b;
      assert Done(a + b) == DoneBy(a[0]) + Done(a[1..] + b);
    }
  }

  lemma {:induction false} AdditionsOnlyAdd(kind: Kind, path: Path, es: seq<Entry>)
    ensures Read(Additions(kind, path, es)) == [] && Done(Additions(kind, path, es)) == Slots(es)
  {
    if es != [] {
      AdditionsOnlyAdd(kind, path, es[1..]);
      assert es == [es[0]] + es[1..];
    }
  }

  /** One line read; what it settles is what it is noted for. */
  lemma {:induction false} MarksRead(kind: Kind, want: seq<Entry>, line: string, path: Path, done: set<Slot>,
                                     fate: Fate)
    ensures var ms := MarksFor(kind, want, line, path, done, fate);
      Read(ms) == [line] && done + Done(ms) == DoneAfter(want, path, done, fate)
  {
    if fate.Opens? {
      var es := Pending(want, path, done);
      AdditionsOnlyAdd(kind, path, es);
      ReadJoins(Additions(kind, path, es), [Kept(line)]);
      DoneJoins(Additions(kind, path, es), [Kept(line)]);
    }
  }

  /** All lines, in order, are accounted for: kept verbatim, replaced by a declared setting, or dropped. */
  lemma {:induction false} EveryLineIsAccountedFor(kind: Kind, want: seq<Entry>, drop: set<Slot>, lines: seq<string>,
                                                   path: Path, done: set<Slot>)
    ensures Read(Run(kind, want, drop, lines, path, done)) == lines
    decreases |lines|
  {
    if lines == [] {
      AdditionsOnlyAdd(kind, path, Pending(want, path, done));
    } else {
      var fate := FateOf(kind, want, drop, lines[0], path, done);
      var path', done' := PathAfter(path, fate), DoneAfter(want, path, done, fate);
      EveryLineIsAccountedFor(kind, want, drop, lines[1..], path', done');
      MarksRead(kind, want, lines[0], path, done, fate);
      ReadJoins(MarksFor(kind, want, lines[0], path, done, fate), Run(kind, want, drop, lines[1..], path', done'));
      assert lines == [lines[0]] + lines[1..];
    }
  }

  // --- a second application changes nothing ------------------------------------------------------------------

  /** A written line is set again to itself. */
  lemma {:induction false} SetAgain(kind: Kind, want: seq<Entry>, drop: set<Slot>, e: Entry, indent: string,
                                    path: Path, done: set<Slot>)
    requires WantOk(want) && e in want && e.slot.path == path && e.slot !in done && Blank(indent)
    requires kind == Ini && indent == "" ==> path == []
    ensures FateOf(kind, want, drop, Line(indent, e), path, done) == Takes(e, Line(indent, e))
  {
    WrittenLine(path, indent, e);
    EntryIsOnly(want, e);
  }

  lemma {:induction false} EntryIsOnly(want: seq<Entry>, e: Entry)
    requires WantOk(want) && e in want
    ensures e.slot in Slots(want) && EntryFor(want, e.slot) == e
  {
    var f := EntryFor(want, e.slot);
    var i :| 0 <= i < |want| && want[i] == e;
    var k :| 0 <= k < |want| && want[k] == f;
    assert i == k;
  }

  lemma {:induction false} AddIndentIsFinal(kind: Kind, path: Path)
    ensures Blank(AddIndent(kind, path)) && (kind == Ini && AddIndent(kind, path) == "" ==> path == [])
  {
    PadIsBlank(|path|);
  }

  lemma {:induction false} SetIndentIsFinal(kind: Kind, path: Path, line: string)
    ensures Blank(SetIndent(kind, path, line)) && (kind == Ini && SetIndent(kind, path, line) == "" ==> path == [])
  {
    PadIsBlank(|path|);
  }

  lemma {:induction false} RunStep(kind: Kind, want: seq<Entry>, drop: set<Slot>, line: string, rest: seq<string>,
                                   path: Path, done: set<Slot>, fate: Fate)
    requires fate == FateOf(kind, want, drop, line, path, done)
    ensures Output(Run(kind, want, drop, [line] + rest, path, done)) ==
      Output(MarksFor(kind, want, line, path, done, fate)) +
      Output(Run(kind, want, drop, rest, PathAfter(path, fate), DoneAfter(want, path, done, fate)))
  {
    assert ([line] + rest)[1..] == rest;
    OutputJoins(MarksFor(kind, want, line, path, done, fate),
                Run(kind, want, drop, rest, PathAfter(path, fate), DoneAfter(want, path, done, fate)));
  }

  lemma {:induction false} TakenLine(kind: Kind, want: seq<Entry>, drop: set<Slot>, e: Entry, text: string,
                                     rest: seq<string>, path: Path, done: set<Slot>)
    requires FateOf(kind, want, drop, text, path, done) == Takes(e, text)
    ensures Output(Run(kind, want, drop, [text] + rest, path, done)) ==
      [text] + Output(Run(kind, want, drop, rest, path, done + {e.slot}))
  {
    RunStep(kind, want, drop, text, rest, path, done, Takes(e, text));
  }

  /** If every one of `texts` is reproduced and settles its entry, all of them are. */
  lemma {:induction false} AllReproduced(read: (seq<string>, set<Slot>) -> seq<string>, es: seq<Entry>,
                                         texts: seq<string>, done: set<Slot>, rest: seq<string>)
    requires |texts| == |es| && forall e :: e in es ==> e.slot !in done
    requires SlotsApart(es)
    requires forall k, r, d :: 0 <= k < |es| && es[k].slot !in d ==>
      read([texts[k]] + r, d) == [texts[k]] + read(r, d + {es[k].slot})
    ensures read(texts + rest, done) == texts + read(rest, done + Slots(es))
    decreases |es|
  {
    if es == [] {
      assert texts + rest == rest && done + Slots(es) == done;
    } else {
      var more, later := es[1..], texts[1..];
      assert es == [es[0]] + more && es[0] in es;
      assert texts + rest == [texts[0]] + (later + rest);
      assert read([texts[0]] + (later + rest), done) == [texts[0]] + read(later + rest, done + {es[0].slot});
      forall k, r, d | 0 <= k < |more| && more[k].slot !in d
        ensures read([later[k]] + r, d) == [later[k]] + read(r, d + {more[k].slot})
      {
        assert more[k] == es[k + 1] && later[k] == texts[k + 1];
      }
      AllReproduced(read, more, later, done + {es[0].slot}, rest);
      assert done + {es[0].slot} + Slots(more) == done + Slots(es);
      assert [texts[0]] + later == texts;
    }
  }

  lemma {:induction false} AdditionTexts(kind: Kind, path: Path, es: seq<Entry>)
    ensures var texts := Output(Additions(kind, path, es));
      |texts| == |es| && forall k :: 0 <= k < |es| ==> texts[k] == Line(AddIndent(kind, path), es[k])
  {
    if es != [] { AdditionTexts(kind, path, es[1..]); }
  }

  /** One added line, read again. */
  lemma {:induction false} AddedAgain(kind: Kind, want: seq<Entry>, drop: set<Slot>, e: Entry, path: Path,
                                      done: set<Slot>, rest: seq<string>)
    requires WantOk(want) && e in want && e.slot.path == path && e.slot !in done
    ensures var text := Line(AddIndent(kind, path), e);
      Output(Run(kind, want, drop, [text] + rest, path, done)) ==
      [text] + Output(Run(kind, want, drop, rest, path, done + {e.slot}))
  {
    var text := Line(AddIndent(kind, path), e);
    AddIndentIsFinal(kind, path);
    SetAgain(kind, want, drop, e, AddIndent(kind, path), path, done);
    TakenLine(kind, want, drop, e, text, rest, path, done);
  }

  /** The lines appended to a section, read again before anything else of it. */
  lemma {:induction false} AdditionsAgain(kind: Kind, want: seq<Entry>, drop: set<Slot>, es: seq<Entry>, path: Path,
                                          done: set<Slot>, rest: seq<string>)
    requires WantOk(want) && forall e :: e in es ==> e in want && e.slot.path == path && e.slot !in done
    requires SlotsApart(es)
    ensures Output(Run(kind, want, drop, Output(Additions(kind, path, es)) + rest, path, done)) ==
      Output(Additions(kind, path, es)) + Output(Run(kind, want, drop, rest, path, done + Slots(es)))
  {
    var read := (l: seq<string>, d: set<Slot>) => Output(Run(kind, want, drop, l, path, d));
    var texts := Output(Additions(kind, path, es));
    AdditionTexts(kind, path, es);
    forall k, r, d | 0 <= k < |es| && es[k].slot !in d
      ensures read([texts[k]] + r, d) == [texts[k]] + read(r, d + {es[k].slot})
    {
      assert es[k] in es;
      AddedAgain(kind, want, drop, es[k], path, d, r);
    }
    AllReproduced(read, es, texts, done, rest);
  }

  lemma {:induction false} PendingFacts(want: seq<Entry>, path: Path, done: set<Slot>)
    requires WantOk(want)
    ensures var es := Pending(want, path, done);
      SlotsApart(es) && Pending(want, path, done + Slots(es)) == []
  {
    PendingApart(want, path, done);
    var es := Pending(want, path, done);
    forall e | e in want && e.slot.path == path ensures e.slot in done + Slots(es) {
      assert e.slot !in done ==> e in es;
    }
    NonePending(want, path, done + Slots(es));
  }

  lemma {:induction false} NonePending(want: seq<Entry>, path: Path, done: set<Slot>)
    requires forall e :: e in want && e.slot.path == path ==> e.slot in done
    ensures Pending(want, path, done) == []
  {
    if want != [] {
      assert forall e :: e in want[1..] ==> e in want;
      NonePending(want[1..], path, done);
    }
  }

  ghost predicate SlotsApart(es: seq<Entry>) { forall i, k :: 0 <= i < k < |es| ==> es[i].slot != es[k].slot }

  lemma {:induction false} ApartCons(e: Entry, es: seq<Entry>)
    requires SlotsApart(es) && forall x :: x in es ==> x.slot != e.slot
    ensures SlotsApart([e] + es)
  {
    var all := [e] + es;
    forall i, k | 0 <= i < k < |all| ensures all[i].slot != all[k].slot {
      assert all[k] == es[k - 1] && es[k - 1] in es;
      if i > 0 { assert all[i] == es[i - 1]; }
    }
  }

  lemma {:induction false} PendingApart(want: seq<Entry>, path: Path, done: set<Slot>)
    requires WantOk(want)
    ensures SlotsApart(Pending(want, path, done))
  {
    if want != [] {
      var rest := Pending(want[1..], path, done);
      assert WantOk(want[1..]) by {
        assert forall e :: e in want[1..] ==> e in want;
      }
      PendingApart(want[1..], path, done);
      forall e | e in rest ensures e.slot != want[0].slot {
        var k :| 0 <= k < |want[1..]| && want[1..][k] == e;
        assert want[k + 1] == e;
      }
      ApartCons(want[0], rest);
      assert Pending(want, path, done) == rest || Pending(want, path, done) == [want[0]] + rest;
    }
  }

  /** A header met again: nothing is left to append before it. */
  lemma {:induction false} HeaderAgain(kind: Kind, want: seq<Entry>, drop: set<Slot>, line: string, rest: seq<string>,
                                       path: Path, done: set<Slot>, next: Path)
    requires WantOk(want) && FateOf(kind, want, drop, line, path, done) == Opens(next)
    ensures var es := Pending(want, path, done);
      Output(Run(kind, want, drop, [line] + rest, path, done + Slots(es))) ==
      [line] + Output(Run(kind, want, drop, rest, next, done + Slots(es)))
  {
    var done' := done + Slots(Pending(want, path, done));
    PendingFacts(want, path, done);
    assert FateOf(kind, want, drop, line, path, done') == Opens(next);
    RunStep(kind, want, drop, line, rest, path, done', Opens(next));
    assert Additions(kind, path, []) + [Kept(line)] == [Kept(line)];
    assert done' + Slots([]) == done';
  }

  lemma {:induction false} OpeningOutput(kind: Kind, want: seq<Entry>, line: string, path: Path, done: set<Slot>,
                                         next: Path)
    ensures Output(MarksFor(kind, want, line, path, done, Opens(next))) ==
      Output(Additions(kind, path, Pending(want, path, done))) + [line]
  {
    OutputJoins(Additions(kind, path, Pending(want, path, done)), [Kept(line)]);
    assert Output([Kept(line)]) == [line];
  }

  /** The same run over what it wrote writes the same. */
  lemma {:induction false} OpensAgain(kind: Kind, want: seq<Entry>, drop: set<Slot>, line: string, later: seq<string>,
                                      path: Path, done: set<Slot>, next: Path)
    requires WantOk(want) && FateOf(kind, want, drop, line, path, done) == Opens(next)
    requires Output(Run(kind, want, drop, later, next, done + Slots(Pending(want, path, done)))) == later
    ensures var out := Output(MarksFor(kind, want, line, path, done, Opens(next))) + later;
      Output(Run(kind, want, drop, out, path, done)) == out
  {
    var es := Pending(want, path, done);
    var texts := Output(Additions(kind, path, es));
    var read := (l: seq<string>, p: Path, d: set<Slot>) => Output(Run(kind, want, drop, l, p, d));
    PendingFacts(want, path, done);
    OpeningOutput(kind, want, line, path, done, next);
    AdditionsAgain(kind, want, drop, es, path, done, [line] + later);
    HeaderAgain(kind, want, drop, line, later, path, done, next);
    Chained(read, texts, line, later, path, next, done, done + Slots(es));
  }

  lemma {:induction false} Chained(read: (seq<string>, Path, set<Slot>) -> seq<string>, texts: seq<string>,
                                   line: string, later: seq<string>, path: Path, next: Path, done: set<Slot>,
                                   done': set<Slot>)
    requires read(texts + ([line] + later), path, done) == texts + read([line] + later, path, done')
    requires read([line] + later, path, done') == [line] + read(later, next, done')
    requires read(later, next, done') == later
    ensures read(texts + [line] + later, path, done) == texts + [line] + later
  {
    assert texts + [line] + later == texts + ([line] + later);
  }

  lemma {:induction false} TakesAgain(kind: Kind, want: seq<Entry>, drop: set<Slot>, line: string, later: seq<string>,
                                      path: Path, done: set<Slot>, e: Entry, text: string)
    requires WantOk(want) && FateOf(kind, want, drop, line, path, done) == Takes(e, text)
    requires Output(Run(kind, want, drop, later, path, done + {e.slot})) == later
    ensures Output(Run(kind, want, drop, [text] + later, path, done)) == [text] + later
  {
    SetIndentIsFinal(kind, path, line);
    SetAgain(kind, want, drop, e, SetIndent(kind, path, line), path, done);
    TakenLine(kind, want, drop, e, text, later, path, done);
  }

  lemma {:induction false} KeepsAgain(kind: Kind, want: seq<Entry>, drop: set<Slot>, line: string, later: seq<string>,
                                      path: Path, done: set<Slot>)
    requires FateOf(kind, want, drop, line, path, done) == Keeps
    requires Output(Run(kind, want, drop, later, path, done)) == later
    ensures Output(Run(kind, want, drop, [line] + later, path, done)) == [line] + later
  {
    RunStep(kind, want, drop, line, later, path, done, Keeps);
  }

  lemma {:induction false} NothingLeftToAdd(kind: Kind, want: seq<Entry>, drop: set<Slot>, path: Path, done: set<Slot>)
    requires WantOk(want)
    ensures var out := Output(Run(kind, want, drop, [], path, done));
      Output(Run(kind, want, drop, out, path, done)) == out
  {
    var es := Pending(want, path, done);
    PendingFacts(want, path, done);
    AdditionsAgain(kind, want, drop, es, path, done, []);
    assert Output(Additions(kind, path, es)) + [] == Output(Additions(kind, path, es));
  }

  /** Line by line, a second application changes nothing, whatever the values are. */
  lemma {:induction false} SecondRunIsSame(kind: Kind, want: seq<Entry>, drop: set<Slot>, lines: seq<string>,
                                           path: Path, done: set<Slot>)
    requires WantOk(want)
    ensures var out := Output(Run(kind, want, drop, lines, path, done));
      Output(Run(kind, want, drop, out, path, done)) == out
    decreases |lines|
  {
    if lines == [] {
      NothingLeftToAdd(kind, want, drop, path, done);
    } else {
      var line, rest := lines[0], lines[1..];
      var fate := FateOf(kind, want, drop, line, path, done);
      var later := Output(Run(kind, want, drop, rest, PathAfter(path, fate), DoneAfter(want, path, done, fate)));
      assert lines == [line] + rest;
      SecondRunIsSame(kind, want, drop, rest, PathAfter(path, fate), DoneAfter(want, path, done, fate));
      RunStep(kind, want, drop, line, rest, path, done, fate);
      match fate {
        case Opens(next) => OpensAgain(kind, want, drop, line, later, path, done, next);
        case Takes(e, text) => TakesAgain(kind, want, drop, line, later, path, done, e, text);
        case Drops => assert [] + later == later;
        case Keeps => KeepsAgain(kind, want, drop, line, later, path, done);
      }
    }
  }
}
