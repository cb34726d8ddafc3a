/**
 The editors on whole files: splitting, the loop, the refusal of a missing section, and exactly
 when a second application changes nothing (lhpc/core/config.py:1110-1235).
 */
module EditorText {
  import opened Options
  import opened Collections
  import opened Editors
  import opened EditorLaws
  import opened EditorSettings

  /** What `str.splitlines` breaks at. */
  predicate Break(c: char)
  {
    var n := c as int;
    10 <= n <= 13 || 28 <= n <= 30 || n == 0x85 || n == 0x2028 || n == 0x2029
  }

  predicate Unbroken(s: string) { forall c :: c in s ==> !Break(c) }
  predicate AllUnbroken(lines: seq<string>) { forall l :: l in lines ==> Unbroken(l) }

  /** The first line of a text, and what follows its line break. */
  function FirstLine(s: string): (r: (string, string))
    ensures |r.1| < |s| || s == ""
    ensures Unbroken(r.0)
  {
    if s == "" then ("", "")
    else if Break(s[0]) then ("", if s[0] == '\r' && |s| > 1 && s[1] == '\n' then s[2..] else s[1..])
    else
      var r := FirstLine(s[1..]);
      ([s[0]] + r.0, r.1)
  }

  /** `splitlines()`. */
  function Split(s: string): (r: seq<string>)
    ensures AllUnbroken(r)
    decreases |s|
  {
    if s == "" then [] else [FirstLine(s).0] + Split(FirstLine(s).1)
  }

  function Joined(lines: seq<string>): string { if lines == [] then "" else lines[0] + "\n" + Joined(lines[1..]) }

  /** `"\n".join(out) + "\n"`. */
  function Join(lines: seq<string>): string { if lines == [] then "\n" else Joined(lines) }

  lemma {:induction false} FirstLineOf(l: string, rest: string)
    requires Unbroken(l)
    ensures FirstLine(l + "\n" + rest) == (l, rest)
  {
    var s := l + "\n" + rest;
    if l == "" {
      assert s == "\n" + rest && s[1..] == rest;
    } else {
      FirstLineOf(l[1..], rest);
      assert s[1..] == l[1..] + "\n" + rest && l == [l[0]] + l[1..];
    }
  }

  lemma {:induction false} SplitJoined(lines: seq<string>)
    requires AllUnbroken(lines)
    ensures Split(Joined(lines)) == lines
  {
    if lines != [] {
      assert lines[0] in lines && forall l :: l in lines[1..] ==> l in lines;
      SplitJoined(lines[1..]);
      FirstLineOf(lines[0], Joined(lines[1..]));
      assert lines == [lines[0]] + lines[1..];
    }
  }

  /** Every line end there is: LF, VT, FF, CR, FS, GS, RS, NEL, LS and PS. */
  const LINE_ENDS: string := "\n\U{B}\U{C}\r\U{1C}\U{1D}\U{1E}\U{85}\U{2028}\U{2029}"

  lemma BreaksExactly(c: char)
    ensures Break(c) <==> c in LINE_ENDS
  {}

  lemma {:induction false} FirstLineAt(a: string, c: char, b: string)
    requires Unbroken(a) && Break(c)
    ensures FirstLine(a + [c] + b) == (a, if c == '\r' && b != "" && b[0] == '\n' then b[1..] else b)
  {
    var s := a + [c] + b;
    if a == "" {
      assert s[1..] == b && (|s| > 1 ==> s[2..] == b[1..] && s[1] == b[0]);
    } else {
      FirstLineAt(a[1..], c, b);
      assert s[1..] == a[1..] + [c] + b && a == [a[0]] + a[1..];
    }
  }

  /** A line ends at the first line end; a carriage return and the line feed after it are one. */
  lemma {:induction false} SplitsAt(a: string, c: char, b: string)
    requires forall x :: x in a ==> x !in LINE_ENDS
    ensures c in LINE_ENDS ==>
      Split(a + [c] + b) == [a] + Split(if c == '\r' && b != "" && b[0] == '\n' then b[1..] else b)
    ensures Split(a) == if a == "" then [] else [a]
  {
    forall x | x in a ensures !Break(x) { BreaksExactly(x); }
    BreaksExactly(c);
    if c in LINE_ENDS { FirstLineAt(a, c, b); }
    WholeLine(a);
  }

  lemma {:induction false} WholeLine(a: string)
    requires Unbroken(a)
    ensures FirstLine(a) == (a, "")
  {
    if a != "" {
      WholeLine(a[1..]);
      assert a == [a[0]] + a[1..];
    }
  }

  // --- the edit of a text ---------------------------------------------------------------------------------------

  /** A declared section none of whose slots was settled. */
  ghost predicate SectionMissing(want: seq<Entry>, done: set<Slot>)
  {
    exists e :: e in want && forall s :: s in done ==> s.path != e.slot.path
  }

  /** What `update_ini` and `update_toml` return; None where they raise. `parses`: the final TOML check. */
  ghost function Edited(kind: Kind, want: seq<Entry>, drop: set<Slot>, text: string,
                        parses: string -> bool): Option<string>
  {
    var lines := Split(text);
    var out := Join(Output(Run(kind, want, drop, lines, Root(kind), {})));
    if SectionMissing(want, Settled(kind, want, drop, lines, Root(kind), {})) || !parses(out) then None else Some(out)
  }

  /** The lines a section is completed with. */
  function AddedTexts(kind: Kind, want: seq<Entry>, path: Path, done: set<Slot>): seq<string>
  {
    Output(Additions(kind, path, Pending(want, path, done)))
  }

  function AddedSlots(want: seq<Entry>, path: Path, done: set<Slot>): set<Slot> { Slots(Pending(want, path, done)) }

  lemma {:induction false} PendingIgnores(want: seq<Entry>, path: Path, done: set<Slot>, s: Slot)
    requires forall k :: 0 <= k < |want| ==> want[k].slot != s
    ensures Pending(want, path, done + {s}) == Pending(want, path, done)
  {
    if want != [] {
      assert forall k :: 0 <= k < |want[1..]| ==> want[1..][k] == want[k + 1];
      PendingIgnores(want[1..], path, done, s);
    }
  }

  lemma {:induction false} FlushStep(kind: Kind, want: seq<Entry>, i: nat, path: Path, done: set<Slot>)
    requires SlotsApart(want) && i < |want|
    ensures var e := want[i];
      if e.slot.path == path && e.slot !in done then
        AddedTexts(kind, want[i..], path, done) ==
          [Line(AddIndent(kind, path), e)] + AddedTexts(kind, want[i + 1..], path, done + {e.slot}) &&
        AddedSlots(want[i..], path, done) == {e.slot} + AddedSlots(want[i + 1..], path, done + {e.slot})
      else
        AddedTexts(kind, want[i..], path, done) == AddedTexts(kind, want[i + 1..], path, done) &&
        AddedSlots(want[i..], path, done) == AddedSlots(want[i + 1..], path, done)
  {
    var e := want[i];
    var rest := want[i + 1..];
    assert want[i..][0] == e && want[i..][1..] == rest;
    forall k | 0 <= k < |rest| ensures rest[k].slot != e.slot {
      assert rest[k] == want[i + 1 + k];
    }
    PendingIgnores(rest, path, done, e.slot);
    if e.slot.path == path && e.slot !in done {
      var next := Pending(rest, path, done + {e.slot});
      assert Pending(want[i..], path, done) == [e] + next;
      assert ([e] + next)[1..] == next;
    } else {
      assert Pending(want[i..], path, done) == Pending(rest, path, done);
    }
  }

  /** One turn of `flush`: what is out and what is still to come make up the same. */
  lemma {:induction false} FlushTurn(kind: Kind, want: seq<Entry>, i: nat, path: Path, done: set<Slot>,
                                     out: seq<string>, texts: seq<string>, slots: set<Slot>)
    requires SlotsApart(want) && i < |want|
    requires out + AddedTexts(kind, want[i..], path, done) == texts && done + AddedSlots(want[i..], path, done) == slots
    ensures var e := want[i];
      if e.slot.path == path && e.slot !in done then
        out + [Line(AddIndent(kind, path), e)] + AddedTexts(kind, want[i + 1..], path, done + {e.slot}) == texts &&
        done + {e.slot} + AddedSlots(want[i + 1..], path, done + {e.slot}) == slots
      else
        out + AddedTexts(kind, want[i + 1..], path, done) == texts &&
          done + AddedSlots(want[i + 1..], path, done) == slots
  {
    var e := want[i];
    FlushStep(kind, want, i, path, done);
    if e.slot.path == path && e.slot !in done {
      Regroup(out, [Line(AddIndent(kind, path), e)], AddedTexts(kind, want[i + 1..], path, done + {e.slot}));
    }
  }

  /** `flush`: appends what the section never had. */
  method Flush(kind: Kind, want: seq<Entry>, path: Path, out: seq<string>, done: set<Slot>)
    returns (out': seq<string>, done': set<Slot>)
    requires SlotsApart(want)
    ensures out' == out + AddedTexts(kind, want, path, done)
    ensures done' == done + AddedSlots(want, path, done)
  {
    out', done' := out, done;
    ghost var texts, slots := out + AddedTexts(kind, want, path, done), done + AddedSlots(want, path, done);
    assert want[0..] == want;
    for i := 0 to |want|
      invariant out' + AddedTexts(kind, want[i..], path, done') == texts
      invariant done' + AddedSlots(want[i..], path, done') == slots
    {
      FlushTurn(kind, want, i, path, done', out', texts, slots);
      if want[i].slot.path == path && want[i].slot !in done' {
        out' := out' + [Line(AddIndent(kind, path), want[i])];
        done' := done' + {want[i].slot};
      }
    }
    assert want[|want|..] == [];
  }

  /** Where the loop stands: what is out already, and what the rest of the lines will add. */
  ghost predicate OnTheWay(read: (seq<string>, Path, set<Slot>) -> seq<string>,
                           settle: (seq<string>, Path, set<Slot>) -> set<Slot>,
                           rest: seq<string>, out: seq<string>, path: Path, done: set<Slot>,
                           total: seq<string>, settled: set<Slot>)
  {
    out + read(rest, path, done) == total && settle(rest, path, done) == settled
  }

  lemma {:induction false} OneLineOn(read: (seq<string>, Path, set<Slot>) -> seq<string>,
                                     settle: (seq<string>, Path, set<Slot>) -> set<Slot>, line: string,
                                     rest: seq<string>, out: seq<string>, path: Path, done: set<Slot>,
                                     total: seq<string>, settled: set<Slot>, marks: seq<string>, path': Path,
                                     done': set<Slot>)
    requires OnTheWay(read, settle, [line] + rest, out, path, done, total, settled)
    requires read([line] + rest, path, done) == marks + read(rest, path', done')
    requires settle([line] + rest, path, done) == settle(rest, path', done')
    ensures OnTheWay(read, settle, rest, out + marks, path', done', total, settled)
  {
    Regroup(out, marks, read(rest, path', done'));
  }

  ghost function Reader(kind: Kind, want: seq<Entry>, drop: set<Slot>): (seq<string>, Path, set<Slot>) -> seq<string>
  {
    (l: seq<string>, p: Path, d: set<Slot>) => Output(Run(kind, want, drop, l, p, d))
  }

  ghost function Settler(kind: Kind, want: seq<Entry>, drop: set<Slot>): (seq<string>, Path, set<Slot>) -> set<Slot>
  {
    (l: seq<string>, p: Path, d: set<Slot>) => Settled(kind, want, drop, l, p, d)
  }

  lemma {:induction false} SettledStep(kind: Kind, want: seq<Entry>, drop: set<Slot>, line: string, rest: seq<string>,
                                       path: Path, done: set<Slot>, fate: Fate)
    requires fate == FateOf(kind, want, drop, line, path, done)
    ensures Settled(kind, want, drop, [line] + rest, path, done) ==
      Settled(kind, want, drop, rest, PathAfter(path, fate), DoneAfter(want, path, done, fate))
  {
    assert ([line] + rest)[1..] == rest;
  }

  /** One line of the loop, its fate being known. */
  method EditLine(kind: Kind, want: seq<Entry>, line: string, fate: Fate, path: Path, out: seq<string>, done: set<Slot>)
    returns (out': seq<string>, path': Path, done': set<Slot>)
    requires SlotsApart(want)
    ensures out' == out + Output(MarksFor(kind, want, line, path, done, fate))
    ensures path' == PathAfter(path, fate) && done' == DoneAfter(want, path, done, fate)
  {
    out', path', done' := out, path, done;
    match fate {
      case Opens(next) =>
        out', done' := Flush(kind, want, path, out, done);
        OpeningOutput(kind, want, line, path, done, next);
        path' := next;
        out' := out' + [line];
      case Takes(e, text) =>
        out' := out' + [text];
        done' := done' + {e.slot};
      case Drops => assert out + [] == out;
      case Keeps => out' := out' + [line];
    }
  }

  method FindMissing(want: seq<Entry>, done: set<Slot>) returns (missing: bool)
    ensures missing <==> SectionMissing(want, done)
  {
    var sections := set s | s in done :: s.path;
    for i := 0 to |want|
      invariant forall k :: 0 <= k < i ==> want[k].slot.path in sections
    {
      if want[i].slot.path !in sections {
        assert want[i] in want && forall s :: s in done ==> s.path in sections;
        return true;
      }
    }
    forall e | e in want ensures exists s :: s in done && s.path == e.slot.path {
      assert e.slot.path in sections;
    }
    return false;
  }

  lemma {:induction false} LineOn(kind: Kind, want: seq<Entry>, drop: set<Slot>, line: string, rest: seq<string>,
                                  out: seq<string>, path: Path, done: set<Slot>, total: seq<string>,
                                  settled: set<Slot>, fate: Fate)
    requires fate == FateOf(kind, want, drop, line, path, done)
    ensures var read, settle := Reader(kind, want, drop), Settler(kind, want, drop);
      OnTheWay(read, settle, [line] + rest, out, path, done, total, settled) ==>
      OnTheWay(read, settle, rest, out + Output(MarksFor(kind, want, line, path, done, fate)),
               PathAfter(path, fate), DoneAfter(want, path, done, fate), total, settled)
  {
    var read, settle := Reader(kind, want, drop), Settler(kind, want, drop);
    RunStep(kind, want, drop, line, rest, path, done, fate);
    SettledStep(kind, want, drop, line, rest, path, done, fate);
    if OnTheWay(read, settle, [line] + rest, out, path, done, total, settled) {
      OneLineOn(read, settle, line, rest, out, path, done, total, settled,
                Output(MarksFor(kind, want, line, path, done, fate)), PathAfter(path, fate),
                DoneAfter(want, path, done, fate));
    }
  }

  lemma HeadAndTail(lines: seq<string>, i: nat)
    requires i <= |lines|
    ensures lines[0..] == lines && lines[|lines|..] == []
    ensures i < |lines| ==> lines[i..] == [lines[i]] + lines[i + 1..]
  {}

  /** The loop over the lines. */
  method EditLines(kind: Kind, want: seq<Entry>, drop: set<Slot>, lines: seq<string>,
                   ghost total: seq<string>, ghost settled: set<Slot>)
    returns (out: seq<string>, path: Path, done: set<Slot>)
    requires SlotsApart(want)
    requires OnTheWay(Reader(kind, want, drop), Settler(kind, want, drop), lines, [], Root(kind), {}, total, settled)
    ensures OnTheWay(Reader(kind, want, drop), Settler(kind, want, drop), [], out, path, done, total, settled)
  {
    out, path, done := [], Root(kind), {};
    ghost var read, settle := Reader(kind, want, drop), Settler(kind, want, drop);
    HeadAndTail(lines, 0);
    for i := 0 to |lines|
      invariant OnTheWay(read, settle, lines[i..], out, path, done, total, settled)
    {
      var fate := FateOf(kind, want, drop, lines[i], path, done);
      LineOn(kind, want, drop, lines[i], lines[i + 1..], out, path, done, total, settled, fate);
      HeadAndTail(lines, i);
      out, path, done := EditLine(kind, want, lines[i], fate, path, out, done);
    }
    HeadAndTail(lines, |lines|);
  }

  /** `update_ini` and `update_toml`. */
  method Update(kind: Kind, want: seq<Entry>, drop: set<Slot>, text: string, parses: string -> bool)
    returns (result: Option<string>)
    requires SlotsApart(want)
    ensures result == Edited(kind, want, drop, text, parses)
  {
    var lines := Split(text);
    ghost var total := Reader(kind, want, drop)(lines, Root(kind), {});
    assert [] + total == total;
    var out, path, done := EditLines(kind, want, drop, lines, total, Settler(kind, want, drop)(lines, Root(kind), {}));
    out, done := Flush(kind, want, path, out, done);
    var missing := FindMissing(want, done);
    if missing || !parses(Join(out)) { return None; }
    return Some(Join(out));
  }

  // --- what a caller gets -------------------------------------------------------------------------------------------

  /** Returned means done: every declared slot stands first among its lines. */
  lemma {:induction false} EverySlotIsSet(kind: Kind, want: seq<Entry>, drop: set<Slot>, text: string,
                                          parses: string -> bool, e: Entry)
    requires WantOk(want) && e in want && Edited(kind, want, drop, text, parses).Some?
    ensures SetFirst(kind, Output(Run(kind, want, drop, Split(text), Root(kind), {})), Root(kind), e)
  {
    var lines := Split(text);
    var done := Settled(kind, want, drop, lines, Root(kind), {});
    var s :| s in done && s.path == e.slot.path;
    SectionsAreComplete(kind, want, drop, lines, Root(kind), {}, e, s);
    SetWhereItFirstOccurs(kind, want, drop, lines, Root(kind), {}, e);
  }
}
