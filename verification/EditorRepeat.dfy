/**
 Applying an editor twice: exactly when the second application changes nothing
 (lhpc/core/config.py:1110-1235).
 */
module EditorRepeat {
  import opened Options
  import opened Editors
  import opened EditorLaws
  import opened EditorSettings
  import opened EditorText

  /** Nothing that is written holds a line break. */
  predicate WantUnbroken(want: seq<Entry>)
  {
    forall i :: 0 <= i < |want| ==> Unbroken(want[i].slot.key) && Unbroken(want[i].value)
  }

  lemma {:induction false} HasLineIsSettled(kind: Kind, want: seq<Entry>, drop: set<Slot>, lines: seq<string>,
                                            path: Path, done: set<Slot>, s: Slot)
    requires s in Slots(want) && (s in done || LinesFor(kind, lines, path, s) != [])
    ensures s in Settled(kind, want, drop, lines, path, done)
    decreases |lines|
  {
    if lines != [] {
      var fate := FateOf(kind, want, drop, lines[0], path, done);
      HasLineIsSettled(kind, want, drop, lines[1..], PathAfter(path, fate), DoneAfter(want, path, done, fate), s);
    }
  }

  // --- the characters of the output come from the lines and from what is declared -----------------------------------

  predicate Over(p: char -> bool, s: string) { forall c :: c in s ==> p(c) }
  ghost predicate AllOver(p: char -> bool, lines: seq<string>) { forall l :: l in lines ==> Over(p, l) }
  predicate WantOver(p: char -> bool, want: seq<Entry>)
  {
    p(' ') && p('=') && forall i :: 0 <= i < |want| ==> Over(p, want[i].slot.key) && Over(p, want[i].value)
  }

  lemma {:induction false} IndentsOver(p: char -> bool, kind: Kind, path: Path, line: string)
    requires Over(p, line) && p(' ')
    ensures Over(p, AddIndent(kind, path)) && Over(p, SetIndent(kind, path, line))
  {
    PadOver(p, |path|);
    var l := Leading(line);
    assert forall c :: c in l ==> c in line by {
      assert l == line[..|l|];
    }
  }

  lemma {:induction false} PadOver(p: char -> bool, n: nat)
    requires p(' ')
    ensures Over(p, Pad(n))
  {
    if n > 0 { PadOver(p, n - 1); }
  }

  lemma {:induction false} TakesOver(p: char -> bool, kind: Kind, want: seq<Entry>, drop: set<Slot>, line: string,
                                     path: Path, done: set<Slot>)
    requires WantOver(p, want) && Over(p, line)
    ensures var fate := FateOf(kind, want, drop, line, path, done); fate.Takes? ==> Over(p, fate.text)
  {
    TakesItsOwn(kind, want, drop, line, path, done);
    IndentsOver(p, kind, path, line);
    var fate := FateOf(kind, want, drop, line, path, done);
    if fate.Takes? { LineOver(p, want, fate.entry, SetIndent(kind, path, line)); }
  }

  lemma {:induction false} MarksOver(p: char -> bool, kind: Kind, want: seq<Entry>, line: string, path: Path,
                                     done: set<Slot>, fate: Fate)
    requires WantOver(p, want) && Over(p, line) && (fate.Takes? ==> Over(p, fate.text))
    ensures AllOver(p, Output(MarksFor(kind, want, line, path, done, fate)))
  {
    match fate {
      case Opens(next) =>
        AdditionsOver(p, kind, want, path, done);
        OpeningOutput(kind, want, line, path, done, next);
      case _ =>
    }
  }

  lemma {:induction false} LineOver(p: char -> bool, want: seq<Entry>, e: Entry, indent: string)
    requires WantOver(p, want) && e in want && Over(p, indent)
    ensures Over(p, Line(indent, e))
  {
    var i :| 0 <= i < |want| && want[i] == e;
    assert Over(p, e.slot.key) && Over(p, e.value);
    assert Over(p, indent + e.slot.key + " = ");
  }

  lemma {:induction false} AdditionsOver(p: char -> bool, kind: Kind, want: seq<Entry>, path: Path, done: set<Slot>)
    requires WantOver(p, want)
    ensures AllOver(p, Output(Additions(kind, path, Pending(want, path, done))))
  {
    var es := Pending(want, path, done);
    AdditionTexts(kind, path, es);
    IndentsOver(p, kind, path, "");
    forall k | 0 <= k < |es| ensures Over(p, Line(AddIndent(kind, path), es[k])) {
      assert es[k] in es;
      LineOver(p, want, es[k], AddIndent(kind, path));
    }
  }

  lemma {:induction false} OutputOver(p: char -> bool, kind: Kind, want: seq<Entry>, drop: set<Slot>,
                                      lines: seq<string>, path: Path, done: set<Slot>)
    requires WantOver(p, want) && AllOver(p, lines)
    ensures AllOver(p, Output(Run(kind, want, drop, lines, path, done)))
    decreases |lines|
  {
    if lines == [] {
      AdditionsOver(p, kind, want, path, done);
    } else {
      var line, rest := lines[0], lines[1..];
      var fate := FateOf(kind, want, drop, line, path, done);
      assert lines == [line] + rest && line in lines && forall l :: l in rest ==> l in lines;
      TakesOver(p, kind, want, drop, line, path, done);
      MarksOver(p, kind, want, line, path, done, fate);
      OutputOver(p, kind, want, drop, rest, PathAfter(path, fate), DoneAfter(want, path, done, fate));
      RunStep(kind, want, drop, line, rest, path, done, fate);
    }
  }

  lemma {:induction false} OutputUnbroken(kind: Kind, want: seq<Entry>, drop: set<Slot>, text: string)
    requires WantUnbroken(want)
    ensures AllUnbroken(Output(Run(kind, want, drop, Split(text), Root(kind), {})))
  {
    var p := (c: char) => !Break(c);
    OutputOver(p, kind, want, drop, Split(text), Root(kind), {});
    forall l | l in Output(Run(kind, want, drop, Split(text), Root(kind), {})) ensures Unbroken(l) {
      assert Over(p, l);
      assert forall c :: c in l ==> p(c);
    }
  }

  /** Unbroken values: the second application gives the same text. */
  lemma {:induction false} SecondApplicationIsSame(kind: Kind, want: seq<Entry>, drop: set<Slot>, text: string,
                                                   parses: string -> bool)
    requires WantOk(want) && WantUnbroken(want) && Edited(kind, want, drop, text, parses).Some?
    ensures var once := Edited(kind, want, drop, text, parses); Edited(kind, want, drop, once.value, parses) == once
  {
    var out := Output(Run(kind, want, drop, Split(text), Root(kind), {}));
    OutputUnbroken(kind, want, drop, text);
    if out == [] {
      SomethingWritten(kind, want, drop, text, parses);
      NothingWanted(kind, drop);
      assert want == [] && [""][1..] == [];
      assert Join([""]) == "\n" == Join(out);
    } else {
      forall e | e in want ensures LinesFor(kind, out, Root(kind), e.slot) != [] {
        EverySlotIsSet(kind, want, drop, text, parses, e);
      }
      SplitJoined(out);
      SecondRunIsSame(kind, want, drop, Split(text), Root(kind), {});
      forall e | e in want ensures e.slot in Settled(kind, want, drop, out, Root(kind), {}) {
        HasLineIsSettled(kind, want, drop, out, Root(kind), {}, e.slot);
      }
    }
  }

  lemma {:induction false} SomethingWritten(kind: Kind, want: seq<Entry>, drop: set<Slot>, text: string,
                                            parses: string -> bool)
    requires WantOk(want) && Edited(kind, want, drop, text, parses).Some?
    ensures want != [] ==> Output(Run(kind, want, drop, Split(text), Root(kind), {})) != []
  {
    if want != [] {
      EverySlotIsSet(kind, want, drop, text, parses, want[0]);
    }
  }

  lemma {:induction false} NothingWanted(kind: Kind, drop: set<Slot>)
    ensures Output(Run(kind, [], drop, Split(Join([])), Root(kind), {})) == [""]
  {
    assert Split("\n") == [""] by { assert FirstLine("\n") == ("", ""); }
    assert Strip("") == "";
    assert FateOf(kind, [], drop, "", Root(kind), {}) == Keeps;
    RunStep(kind, [], drop, "", [], Root(kind), {}, Keeps);
    assert [""] + [] == [""];
  }

  // --- nothing declared -----------------------------------------------------------------------------------------

  /** Every line ends in a line feed, the last one too, and nothing else breaks a line. */
  predicate PlainText(s: string)
  {
    s != "" && s[|s| - 1] == '\n' && forall c :: c in s && Break(c) ==> c == '\n'
  }

  lemma {:induction false} JoinedIsPlain(lines: seq<string>)
    requires AllUnbroken(lines) && lines != []
    ensures PlainText(Joined(lines))
  {
    var l, rest := lines[0], lines[1..];
    assert l in lines && forall x :: x in rest ==> x in lines;
    if rest == [] {
      assert Joined(rest) == "" && Joined(lines) == l + "\n";
    } else {
      JoinedIsPlain(rest);
    }
  }

  lemma {:induction false} PlainFirstLine(s: string)
    requires PlainText(s)
    ensures var (l, rest) := FirstLine(s); s == l + "\n" + rest && (rest == "" || PlainText(rest))
  {
    assert s == [s[0]] + s[1..];
    if Break(s[0]) {
      assert s[0] in s && s[0] == '\n';
      if s[1..] != "" { assert s[1..][|s| - 2] == '\n' && forall c :: c in s[1..] ==> c in s; }
    } else {
      assert |s| > 1 && s[1..][|s| - 2] == '\n' && forall c :: c in s[1..] ==> c in s;
      PlainFirstLine(s[1..]);
    }
  }

  lemma {:induction false} PlainSplits(s: string)
    requires PlainText(s)
    ensures Split(s) != [] && Joined(Split(s)) == s
    decreases |s|
  {
    var (l, rest) := FirstLine(s);
    PlainFirstLine(s);
    if rest != "" { PlainSplits(rest); }
  }

  lemma {:induction false} AllKept(kind: Kind, lines: seq<string>, path: Path, done: set<Slot>)
    ensures Output(Run(kind, [], {}, lines, path, done)) == lines
    decreases |lines|
  {
    if lines != [] {
      var fate := FateOf(kind, [], {}, lines[0], path, done);
      assert lines == [lines[0]] + lines[1..];
      RunStep(kind, [], {}, lines[0], lines[1..], path, done, fate);
      AllKept(kind, lines[1..], PathAfter(path, fate), DoneAfter([], path, done, fate));
    }
  }

  /**
   With nothing declared an edit returns the text as it was exactly when that text is plain: a
   carriage return, another break, or a missing line feed at the end is rewritten.
   */
  lemma {:induction false} NothingDeclaredExactly(kind: Kind, text: string, parses: string -> bool)
    requires Edited(kind, [], {}, text, parses).Some?
    ensures Edited(kind, [], {}, text, parses).value == text <==> PlainText(text)
  {
    AllKept(kind, Split(text), Root(kind), {});
    if PlainText(text) {
      PlainSplits(text);
    } else if Split(text) != [] {
      JoinedIsPlain(Split(text));
    }
  }

  // --- broken values ------------------------------------------------------------------------------------------------

  function NewLines(s: string): nat { if s == "" then 0 else (if s[0] == '\n' then 1 else 0) + NewLines(s[1..]) }
  function Breaks(s: string): nat { if s == "" then 0 else (if Break(s[0]) then 1 else 0) + Breaks(s[1..]) }

  lemma {:induction false} CountsAdd(a: string, b: string)
    ensures NewLines(a + b) == NewLines(a) + NewLines(b) && Breaks(a + b) == Breaks(a) + Breaks(b)
  {
    if a == "" {
      assert a + b == b;
    } else {
      CountsAdd(a[1..], b);
      assert (a + b)[1..] == a[1..] + b;
    }
  }

  /** Keys and values as `update_ini` admits them: no C0 control character (so no carriage return, no newline). */
  predicate NoControls(s: string) { forall c :: c in s ==> c as int >= 0x20 }
  predicate WantPlain(want: seq<Entry>)
  {
    forall i :: 0 <= i < |want| ==> NoControls(want[i].slot.key) && NoControls(want[i].value)
  }

  /** Breaks only at the three characters beyond ASCII. */
  predicate Soft(s: string) { forall c :: c in s ==> Break(c) ==> c as int >= 0x20 }

  lemma {:induction false} SoftHasNoNewLine(s: string)
    requires Soft(s)
    ensures NewLines(s) == 0
  {
    if s != "" {
      assert s[0] in s && forall c :: c in s[1..] ==> c in s;
      SoftHasNoNewLine(s[1..]);
    }
  }

  lemma {:induction false} NoneBroken(s: string)
    ensures Breaks(s) == 0 <==> Unbroken(s)
  {
    if s != "" {
      NoneBroken(s[1..]);
      assert s == [s[0]] + s[1..];
    }
  }

  ghost predicate AllSoft(lines: seq<string>) { forall l :: l in lines ==> Soft(l) }

  lemma {:induction false} JoinedCounts(lines: seq<string>)
    requires AllSoft(lines)
    ensures NewLines(Joined(lines)) == |lines| && Breaks(Joined(lines)) >= |lines|
    ensures (exists i :: 0 <= i < |lines| && !Unbroken(lines[i])) ==> Breaks(Joined(lines)) > |lines|
    ensures '\r' !in Joined(lines)
  {
    if lines != [] {
      var l, rest := lines[0], lines[1..];
      assert l in lines && forall x :: x in rest ==> x in lines;
      JoinedCounts(rest);
      CountsAdd(l + "\n", Joined(rest));
      CountsAdd(l, "\n");
      assert "\n"[1..] == "";
      SoftHasNoNewLine(l);
      NoneBroken(l);
      if i :| 0 <= i < |lines| && !Unbroken(lines[i]) {
        if i > 0 { assert !Unbroken(rest[i - 1]); }
      }
    }
  }

  /** Splitting breaks at every break. */
  lemma {:induction false} SplitCounts(s: string)
    requires '\r' !in s
    ensures |Split(s)| >= Breaks(s)
    decreases |s|
  {
    if s != "" {
      FirstLineCounts(s);
      SplitCounts(FirstLine(s).1);
    }
  }

  lemma {:induction false} FirstLineCounts(s: string)
    requires '\r' !in s && s != ""
    ensures Breaks(s) <= 1 + Breaks(FirstLine(s).1) && '\r' !in FirstLine(s).1
  {
    assert s[0] in s && forall c :: c in s[1..] ==> c in s;
    if !Break(s[0]) && s[1..] != "" {
      FirstLineCounts(s[1..]);
    }
  }

  /** Nothing dropped: at least one line out for every line in. */
  lemma {:induction false} NoFewerLines(kind: Kind, want: seq<Entry>, lines: seq<string>, path: Path, done: set<Slot>)
    ensures |Output(Run(kind, want, {}, lines, path, done))| >= |lines|
    decreases |lines|
  {
    if lines != [] {
      var line, rest := lines[0], lines[1..];
      var fate := FateOf(kind, want, {}, line, path, done);
      assert lines == [line] + rest;
      NoFewerLines(kind, want, rest, PathAfter(path, fate), DoneAfter(want, path, done, fate));
      RunStep(kind, want, {}, line, rest, path, done, fate);
      if fate.Opens? { OpeningOutput(kind, want, line, path, done, fate.next); }
    }
  }

  lemma {:induction false} OutputSoft(kind: Kind, want: seq<Entry>, drop: set<Slot>, text: string)
    requires WantPlain(want)
    ensures AllSoft(Output(Run(kind, want, drop, Split(text), Root(kind), {})))
  {
    var p := (c: char) => Break(c) ==> c as int >= 0x20;
    assert forall i :: 0 <= i < |want| ==> NoControls(want[i].slot.key) && NoControls(want[i].value);
    OutputOver(p, kind, want, drop, Split(text), Root(kind), {});
    forall l | l in Output(Run(kind, want, drop, Split(text), Root(kind), {})) ensures Soft(l) {
      assert Over(p, l);
      assert forall c :: c in l ==> p(c);
    }
  }

  /** A value or key that holds a break shows in the output as a broken line. */
  lemma {:induction false} BrokenShows(kind: Kind, want: seq<Entry>, drop: set<Slot>, text: string,
                                       parses: string -> bool)
    requires WantOk(want) && !WantUnbroken(want) && Edited(kind, want, drop, text, parses).Some?
    ensures var out := Output(Run(kind, want, drop, Split(text), Root(kind), {}));
      out != [] && exists i :: 0 <= i < |out| && !Unbroken(out[i])
  {
    var out := Output(Run(kind, want, drop, Split(text), Root(kind), {}));
    var i :| 0 <= i < |want| && !(Unbroken(want[i].slot.key) && Unbroken(want[i].value));
    var e := want[i];
    EverySlotIsSet(kind, want, drop, text, parses, e);
    var ls := LinesFor(kind, out, Root(kind), e.slot);
    var indent :| Blank(indent) && ls[0] == Line(indent, e);
    BrokenParts(indent, e);
    LinesForAreLines(kind, out, Root(kind), e.slot);
    assert ls[0] in ls;
    var k :| 0 <= k < |out| && out[k] == ls[0];
  }

  lemma {:induction false} BrokenParts(indent: string, e: Entry)
    requires !(Unbroken(e.slot.key) && Unbroken(e.value))
    ensures !Unbroken(Line(indent, e))
  {
    var l := Line(indent, e);
    assert forall c :: c in e.slot.key ==> c in indent + e.slot.key;
    assert forall c :: c in indent + e.slot.key ==> c in l;
    assert forall c :: c in e.value ==> c in l;
  }

  lemma {:induction false} LinesForAreLines(kind: Kind, lines: seq<string>, path: Path, s: Slot)
    ensures forall l :: l in LinesFor(kind, lines, path, s) ==> l in lines
  {
    if lines != [] {
      assert lines == [lines[0]] + lines[1..];
      LinesForAreLines(kind, lines[1..], if Header(lines[0]) then Opened(kind, path, lines[0]) else path, s);
    }
  }

  lemma {:induction false} BrokenValuesGrow(kind: Kind, want: seq<Entry>, text: string, parses: string -> bool)
    requires WantOk(want) && WantPlain(want) && !WantUnbroken(want) && Edited(kind, want, {}, text, parses).Some?
    ensures var once := Edited(kind, want, {}, text, parses); Edited(kind, want, {}, once.value, parses) != once
  {
    var out := Output(Run(kind, want, {}, Split(text), Root(kind), {}));
    BrokenShows(kind, want, {}, text, parses);
    OutputSoft(kind, want, {}, text);
    JoinedCounts(out);
    var once := Joined(out);
    SplitCounts(once);
    var twice := Output(Run(kind, want, {}, Split(once), Root(kind), {}));
    NoFewerLines(kind, want, Split(once), Root(kind), {});
    OutputSoft(kind, want, {}, once);
    JoinedCounts(twice);
  }

  /**
   Exactly when a second application changes nothing, with no control characters in the settings
   (`update_ini` admits none) and nothing to drop: no key or value holds U+0085, U+2028 or U+2029.
   */
  lemma {:induction false} RepeatsExactly(kind: Kind, want: seq<Entry>, text: string, parses: string -> bool)
    requires WantOk(want) && WantPlain(want) && Edited(kind, want, {}, text, parses).Some?
    ensures var once := Edited(kind, want, {}, text, parses);
      Edited(kind, want, {}, once.value, parses) == once <==> WantUnbroken(want)
  {
    if WantUnbroken(want) {
      SecondApplicationIsSame(kind, want, {}, text, parses);
    } else {
      BrokenValuesGrow(kind, want, text, parses);
    }
  }

  /** A setting that holds U+2028, put into an empty file: the second application changes it again. */
  lemma {:induction false} BrokenSettingGrows() returns (want: seq<Entry>, once: Option<string>)
    ensures once == Edited(Ini, want, {}, "", _ => true) && once.Some?
    ensures Edited(Ini, want, {}, once.value, _ => true) != once
  {
    var e := Entry(Slot([], "k"), "\U{2028}");
    want := [e];
    assert e.slot.key[0] == 'k' && KeyOk(e.slot.key);
    assert WantOk(want);
    assert e.value[0] == '\U{2028}' && Break(e.value[0]) && e.value[0] in e.value;
    assert WantPlain(want);
    assert e in want && !Unbroken(e.value);
    assert !WantUnbroken(want);
    assert Pending(want, [], {}) == [e] by { assert want[1..] == []; }
    assert e.slot in Settled(Ini, want, {}, Split(""), Root(Ini), {});
    once := Edited(Ini, want, {}, "", _ => true);
    RepeatsExactly(Ini, want, "", _ => true);
  }
}
