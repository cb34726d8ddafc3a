/**
 Sections as they are printed: a heading with as many brackets as its level, under the headings of
 the levels before it, or one TOML header. Which lines are in which section, and that a key is set
 or appended there, is said of the text itself (lhpc/core/config.py:1135-1164, 1204-1227).
 */
module EditorSections {
  import opened Options
  import opened Editors
  import opened EditorLaws
  import opened EditorSettings
  import opened EditorText

  function Many(c: char, n: nat): string { if n == 0 then "" else [c] + Many(c, n - 1) }

  predicate Bracket(c: char) { c == '[' || c == ']' }
  predicate Inner(c: char) { !Space(c) && !Bracket(c) }
  predicate PlainName(s: string) { s != "" && Inner(s[0]) && Inner(s[|s| - 1]) }

  /** Around a heading, and between its brackets and its name. */
  datatype Spacing = Spacing(before: string, left: string, right: string, after: string)

  predicate AllBlank(g: Spacing) { Blank(g.before) && Blank(g.left) && Blank(g.right) && Blank(g.after) }

  /** A heading: `[[name]]` at level 2. TOML has one level, and takes the name as it stands. */
  function HeadingText(kind: Kind, level: nat, name: string, g: Spacing): string
  {
    match kind
    case Ini => g.before + (Many('[', level) + (g.left + name + g.right) + Many(']', level)) + g.after
    case TomlFile => g.before + ("[" + name + "]") + g.after
  }

  ghost predicate IsHeading(kind: Kind, line: string, level: nat, name: string)
  {
    (if kind == Ini then level >= 1 && PlainName(name) else level == 1) &&
    exists g: Spacing :: AllBlank(g) && line == HeadingText(kind, level, name, g)
  }

  // --- a heading is read as what was printed ------------------------------------------------------------

  lemma {:induction false} TrimsRight(x: string, after: string)
    requires x != "" && !Space(x[|x| - 1]) && Blank(after)
    ensures RStrip(x + after) == x
  {
    var s := x + after;
    RStripReaches(s, |x| - 1);
    var r := RStrip(s);
    assert r == s[..|r|];
    assert forall i :: |x| <= i < |s| ==> s[i] == after[i - |x|];
  }

  lemma {:induction false} Trims(before: string, x: string, after: string)
    requires Blank(before) && Blank(after) && x != "" && !Space(x[0]) && !Space(x[|x| - 1])
    ensures Strip(before + x + after) == x
  {
    assert before + x + after == before + (x + after);
    LeadingOf(before, x + after);
    TrimsRight(x, after);
  }

  lemma {:induction false} ManyEnds(c: char, n: nat)
    ensures |Many(c, n)| == n && (forall i :: 0 <= i < n ==> Many(c, n)[i] == c)
    ensures n > 0 ==> Many(c, n) == Many(c, n - 1) + [c]
  {
    if n > 0 { ManyEnds(c, n - 1); }
  }

  lemma {:induction false} ClosingGo(body: string, r: nat)
    requires body != "" && !Bracket(body[0]) && !Bracket(body[|body| - 1])
    ensures StripBrackets(body + Many(']', r)) == body
  {
    var s := body + Many(']', r);
    assert s[0] == body[0];
    if r > 0 {
      ManyEnds(']', r);
      assert s[..|s| - 1] == body + Many(']', r - 1);
      ClosingGo(body, r - 1);
    } else {
      assert s == body;
    }
  }

  lemma {:induction false} BracketsGo(l: nat, rest: string)
    ensures StripBrackets(Many('[', l) + rest) == StripBrackets(rest)
  {
    var s := Many('[', l) + rest;
    if l > 0 {
      assert s[1..] == Many('[', l - 1) + rest;
      BracketsGo(l - 1, rest);
    } else {
      assert s == rest;
    }
  }

  lemma {:induction false} BracketsCount(l: nat, rest: string)
    requires rest != "" ==> rest[0] != '['
    ensures Count(Many('[', l) + rest, '[') == l
  {
    var s := Many('[', l) + rest;
    if l > 0 {
      assert s[1..] == Many('[', l - 1) + rest;
      BracketsCount(l - 1, rest);
    } else {
      assert s == rest;
    }
  }

  /** `next` is `path` with everything from `level` on replaced by `name`. */
  predicate OpensAt(path: Path, level: nat, name: string, next: Path)
  {
    next != [] && |next| == Min(level, |path| + 1) && next[|next| - 1] == name &&
    forall i :: 0 <= i < |next| - 1 ==> next[i] == path[i]
  }

  lemma {:induction false} BodyEnds(name: string, g: Spacing)
    requires PlainName(name) && AllBlank(g)
    ensures var body := g.left + name + g.right;
      body != "" && !Bracket(body[0]) && !Bracket(body[|body| - 1])
  {
    var body := g.left + name + g.right;
    assert body[0] == if g.left == "" then name[0] else g.left[0];
    assert body[|body| - 1] == if g.right == "" then name[|name| - 1] else g.right[|g.right| - 1];
    assert forall c :: Space(c) ==> !Bracket(c);
  }

  /** The brackets around a heading's name. */
  lemma {:induction false} Bracketed(level: nat, body: string, st: string)
    requires level >= 1 && body != "" && !Bracket(body[0]) && !Bracket(body[|body| - 1])
    requires st == Many('[', level) + body + Many(']', level)
    ensures st != "" && st[0] == '[' && st[|st| - 1] == ']' && StripBrackets(st) == body && Count(st, '[') == level
  {
    ManyEnds('[', level);
    ManyEnds(']', level);
    var tail := body + Many(']', level);
    BracketsGo(level, tail);
    ClosingGo(body, level);
    assert st == Many('[', level) + tail && tail[0] == body[0];
    BracketsCount(level, tail);
  }

  lemma {:induction false} IniOpens(path: Path, line: string, level: nat, body: string, name: string)
    requires level >= 1 && Header(line) && Count(Strip(line), '[') == level
    requires StripBrackets(Strip(line)) == body && Strip(body) == name
    ensures OpensAt(path, level, name, Opened(Ini, path, line))
  {}

  lemma {:induction false} IniHeadingOpens(path: Path, level: nat, name: string, g: Spacing)
    requires level >= 1 && PlainName(name) && AllBlank(g)
    ensures var line := HeadingText(Ini, level, name, g);
      Header(line) && Count(Strip(line), '[') == level && OpensAt(path, level, name, Opened(Ini, path, line))
  {
    var body := g.left + name + g.right;
    var st := Many('[', level) + body + Many(']', level);
    BodyEnds(name, g);
    Bracketed(level, body, st);
    assert !Space('[') && !Space(']');
    Trims(g.before, st, g.after);
    Trims(g.left, name, g.right);
    IniOpens(path, HeadingText(Ini, level, name, g), level, body, name);
  }

  /** A heading of some level replaces everything from that level on; a TOML header, everything. */
  lemma {:induction false} HeadingOpens(kind: Kind, path: Path, line: string, level: nat, name: string)
    requires IsHeading(kind, line, level, name)
    ensures Header(line) && Count(Strip(line), '[') >= level
    ensures kind == Ini ==> Count(Strip(line), '[') == level && OpensAt(path, level, name, Opened(kind, path, line))
    ensures kind == TomlFile ==> Opened(kind, path, line) == [name]
  {
    var g: Spacing :| AllBlank(g) && line == HeadingText(kind, level, name, g);
    if kind == Ini {
      IniHeadingOpens(path, level, name, g);
    } else {
      var st := "[" + name + "]";
      Trims(g.before, st, g.after);
      assert st[1..|st| - 1] == name;
    }
  }

  // --- the section the lines end in ---------------------------------------------------------------------

  /** The next heading on the way, at line `i`. */
  ghost predicate NextAt(kind: Kind, lines: seq<string>, names: Path, level: nat, i: nat)
    requires level < |names|
  {
    i < |lines| && IsHeading(kind, lines[i], level + 1, names[level]) &&
    (forall j :: 0 <= j < i && Header(lines[j]) ==> Count(Strip(lines[j]), '[') > level)
  }

  /**
   With the first `level` of `names` open, the lines open the rest of them, one under the other, and
   end there: up to the next heading on the way only deeper ones, and none after the last.
   */
  ghost predicate Under(kind: Kind, lines: seq<string>, names: Path, level: nat)
    requires level <= |names|
    decreases |names| - level
  {
    if level == |names| then forall l :: l in lines ==> !Header(l)
    else
      exists i :: NextAt(kind, lines, names, level, i) && Under(kind, lines[i + 1..], names, level + 1)
  }

  /** The section the lines end in. */
  function SectionAfter(kind: Kind, path: Path, lines: seq<string>): Path
    decreases |lines|
  {
    if lines == [] then path
    else SectionAfter(kind, if Header(lines[0]) then Opened(kind, path, lines[0]) else path, lines[1..])
  }

  /** No line of `lines` settles `s`: none is about it, and its section is not left. */
  predicate Untouched(kind: Kind, path: Path, lines: seq<string>, s: Slot)
    decreases |lines|
  {
    lines == [] ||
    if Header(lines[0]) then path != s.path && Untouched(kind, Opened(kind, path, lines[0]), lines[1..], s)
    else SlotOf(path, lines[0]) != Some(s) && Untouched(kind, path, lines[1..], s)
  }

  lemma {:induction false} RunCons(kind: Kind, want: seq<Entry>, drop: set<Slot>, line: string, rest: seq<string>,
                                   path: Path, done: set<Slot>, s: Slot) returns (ms: seq<Mark>)
    ensures Run(kind, want, drop, [line] + rest, path, done) ==
      ms + Run(kind, want, drop, rest, if Header(line) then Opened(kind, path, line) else path, done + Done(ms))
    ensures Read(ms) == [line]
    ensures (if Header(line) then path != s.path else SlotOf(path, line) != Some(s)) && s !in done ==>
      s !in done + Done(ms)
  {
    var fate := FateOf(kind, want, drop, line, path, done);
    ms := MarksFor(kind, want, line, path, done, fate);
    assert ([line] + rest)[1..] == rest;
    MarksRead(kind, want, line, path, done, fate);
    PendingSlots(want, path, done);
  }

  /** What the loop makes of some lines, before the rest. */
  lemma {:induction false} WalkThenRun(kind: Kind, want: seq<Entry>, drop: set<Slot>, lines: seq<string>,
                                       rest: seq<string>, path: Path, done: set<Slot>, s: Slot)
    returns (ms: seq<Mark>)
    ensures Run(kind, want, drop, lines + rest, path, done) ==
      ms + Run(kind, want, drop, rest, SectionAfter(kind, path, lines), done + Done(ms))
    ensures Read(ms) == lines
    ensures Untouched(kind, path, lines, s) && s !in done ==> s !in done + Done(ms)
    decreases |lines|
  {
    if lines == [] {
      assert lines + rest == rest && done + {} == done;
      ms := [];
    } else {
      var line, more := lines[0], lines[1..];
      var path' := SectionCons(kind, path, lines);
      assert lines == [line] + more && lines + rest == [line] + (more + rest);
      var here := RunCons(kind, want, drop, line, more + rest, path, done, s);
      var later := WalkThenRun(kind, want, drop, more, rest, path', done + Done(here), s);
      ms := here + later;
      MarksJoin(here, later, done);
      Chain(here, later, Run(kind, want, drop, rest, SectionAfter(kind, path', more), done + Done(ms)));
    }
  }

  lemma Chain(a: seq<Mark>, b: seq<Mark>, c: seq<Mark>)
    ensures a + (b + c) == a + b + c
  {}

  lemma {:induction false} SectionCons(kind: Kind, path: Path, lines: seq<string>) returns (path': Path)
    requires lines != []
    ensures path' == if Header(lines[0]) then Opened(kind, path, lines[0]) else path
    ensures SectionAfter(kind, path, lines) == SectionAfter(kind, path', lines[1..])
  {
    path' := if Header(lines[0]) then Opened(kind, path, lines[0]) else path;
  }

  lemma {:induction false} MarksJoin(a: seq<Mark>, b: seq<Mark>, done: set<Slot>)
    ensures Read(a + b) == Read(a) + Read(b) && done + Done(a) + Done(b) == done + Done(a + b)
  {
    ReadJoins(a, b);
    DoneJoins(a, b);
  }

  /** The first `level` names are open. */
  predicate Open(path: Path, names: Path, level: nat)
    requires level <= |names|
  {
    if level == |names| then path == names else |path| >= level && path[..level] == names[..level]
  }

  lemma {:induction false} StaysOpen(kind: Kind, path: Path, names: Path, level: nat, line: string)
    requires level < |names| && Open(path, names, level) && Header(line) && Count(Strip(line), '[') > level
    requires kind == TomlFile ==> level == 0
    ensures Open(Opened(kind, path, line), names, level)
  {
    var next := Opened(kind, path, line);
    assert kind == Ini ==> forall i :: 0 <= i < level ==> next[i] == path[i];
    assert next[..level] == path[..level];
  }

  lemma {:induction false} ReplacesLast(path: Path, names: Path, level: nat, next: Path)
    requires level < |names| && Open(path, names, level) && OpensAt(path, level + 1, names[level], next)
    ensures next == names[..level + 1]
  {
    assert |next| == level + 1;
    assert forall i :: 0 <= i < level ==> next[i] == path[i] && path[..level][i] == names[..level][i];
  }

  lemma {:induction false} OpensNext(kind: Kind, path: Path, names: Path, level: nat, line: string)
    requires level < |names| && Open(path, names, level) && IsHeading(kind, line, level + 1, names[level])
    requires kind == TomlFile ==> |names| == 1
    ensures Header(line) && Open(Opened(kind, path, line), names, level + 1)
  {
    HeadingOpens(kind, path, line, level + 1, names[level]);
    if kind == Ini {
      ReplacesLast(path, names, level, Opened(kind, path, line));
      assert names[..|names|] == names;
    }
  }

  lemma {:induction false} NextIsNearer(kind: Kind, lines: seq<string>, names: Path, level: nat, i: nat)
    requires level < |names| && NextAt(kind, lines, names, level, i) && i > 0
    ensures NextAt(kind, lines[1..], names, level, i - 1) && lines[1..][i..] == lines[i + 1..]
  {
    assert forall j :: 0 <= j < i - 1 ==> lines[1..][j] == lines[j + 1];
    assert lines[1..][i - 1] == lines[i];
  }

  lemma {:induction false} NoneOpens(kind: Kind, lines: seq<string>, path: Path)
    requires forall l :: l in lines ==> !Header(l)
    ensures SectionAfter(kind, path, lines) == path
    decreases |lines|
  {
    if lines != [] {
      assert lines[0] in lines && forall l :: l in lines[1..] ==> l in lines;
      NoneOpens(kind, lines[1..], path);
    }
  }

  /** One line on the way: the heading that is next, or none that matters. */
  lemma {:induction false} OnTheWay(kind: Kind, lines: seq<string>, path: Path, names: Path, level: nat, i: nat)
    returns (path': Path)
    requires level < |names| && NextAt(kind, lines, names, level, i) && Open(path, names, level)
    requires kind == TomlFile ==> |names| == 1
    ensures SectionAfter(kind, path, lines) == SectionAfter(kind, path', lines[1..])
    ensures Open(path', names, if i == 0 then level + 1 else level)
    ensures i > 0 ==> NextAt(kind, lines[1..], names, level, i - 1) && lines[1..][i..] == lines[i + 1..]
  {
    path' := SectionCons(kind, path, lines);
    if i == 0 {
      OpensNext(kind, path, names, level, lines[0]);
    } else {
      if Header(lines[0]) { StaysOpen(kind, path, names, level, lines[0]); }
      NextIsNearer(kind, lines, names, level, i);
    }
  }

  /** The lines end in the section their headings name, whatever was open before. */
  lemma {:induction false} EndsUnder(kind: Kind, lines: seq<string>, path: Path, names: Path, level: nat)
    requires level <= |names| && Under(kind, lines, names, level) && Open(path, names, level)
    requires kind == TomlFile ==> |names| == 1
    ensures SectionAfter(kind, path, lines) == names
    decreases |lines|
  {
    if level == |names| {
      NoneOpens(kind, lines, path);
    } else {
      var i :| NextAt(kind, lines, names, level, i) && Under(kind, lines[i + 1..], names, level + 1);
      var path' := OnTheWay(kind, lines, path, names, level, i);
      EndsUnder(kind, lines[1..], path', names, if i == 0 then level + 1 else level);
    }
  }

  // --- key lines ----------------------------------------------------------------------------------------

  /** `key = ...`, however it is spaced; or a commented example of it. */
  function KeyText(indent: string, comment: Option<string>, key: string, gap: string, value: string): string
  {
    indent + ((if comment.Some? then "#" + comment.value else "") + key + gap + "=" + value)
  }

  predicate KeyParts(indent: string, comment: Option<string>, key: string, gap: string)
  {
    Blank(indent) && (comment.Some? ==> Blank(comment.value)) && KeyOk(key) && Blank(gap)
  }

  /** The part from the key on, with whatever trailing space was trimmed. */
  lemma {:induction false} KeyReads(key: string, gap: string, v: string)
    requires KeyOk(key) && Blank(gap)
    ensures '=' in key + gap + "=" + v && Strip(BeforeEquals(key + gap + "=" + v)) == key
  {
    assert forall c :: c in gap ==> Space(c);
    FirstEquals(key + gap, v);
    assert "" + key + gap == key + gap;
    Trims("", key, gap);
  }

  /** Trimming takes nothing before the last `keep` characters that are not blank. */
  lemma {:induction false} TrimKeeps(head: string, v: string)
    requires head != "" && !Space(head[|head| - 1])
    ensures exists w :: w <= v && RStrip(head + v) == head + w
  {
    var s := head + v;
    RStripReaches(s, |head| - 1);
    var r := RStrip(s);
    assert r == s[..|r|] == head + v[..|r| - |head|];
  }

  lemma {:induction false} StripKeeps(indent: string, head: string, v: string) returns (w: string)
    requires Blank(indent) && head != "" && !Space(head[0]) && !Space(head[|head| - 1])
    ensures Strip(indent + (head + v)) == head + w && Leading(indent + (head + v)) == indent
  {
    LeadingOf(indent, head + v);
    TrimKeeps(head, v);
    w :| w <= v && RStrip(head + v) == head + w;
  }

  lemma {:induction false} KeyIs(path: Path, line: string, commented: bool, key: string, text: string)
    requires !Header(line) && (Commented(line) <==> commented)
    requires text == (if commented then Strip(Strip(line)[1..]) else Strip(line))
    requires '=' in text && Strip(BeforeEquals(text)) == key
    ensures SlotOf(path, line) == Some(Slot(path, key))
  {}

  lemma {:induction false} StartOf(line: string, c: char)
    requires Strip(line) != "" && Strip(line)[0] == c && c != '['
    ensures !Header(line) && (Commented(line) <==> c == '#')
  {}

  lemma {:induction false} ActiveLine(path: Path, indent: string, key: string, gap: string, value: string)
    requires KeyParts(indent, None, key, gap)
    ensures var line := KeyText(indent, None, key, gap, value);
      !Header(line) && SlotOf(path, line) == Some(Slot(path, key)) && !Commented(line) && Leading(line) == indent
  {
    var line, head := KeyText(indent, None, key, gap, value), key + gap + "=";
    assert head[0] == key[0] && head[|head| - 1] == '=';
    assert line == indent + (head + value);
    var w := StripKeeps(indent, head, value);
    assert head + w == key + gap + "=" + w;
    StartOf(line, key[0]);
    KeyReads(key, gap, w);
    KeyIs(path, line, false, key, head + w);
  }

  /** The text of a comment, without the sign. */
  lemma {:induction false} CommentReads(pad: string, key: string, gap: string, w: string)
    requires KeyOk(key) && Blank(pad) && Blank(gap)
    ensures var text := Strip(pad + (key + gap + "=" + w)); '=' in text && Strip(BeforeEquals(text)) == key
  {
    var bare := key + gap + "=";
    assert bare[0] == key[0] && bare[|bare| - 1] == '=';
    var x := StripKeeps(pad, bare, w);
    assert bare + x == key + gap + "=" + x;
    KeyReads(key, gap, x);
  }

  lemma {:induction false} CommentStrips(indent: string, pad: string, bare: string, value: string) returns (w: string)
    requires Blank(indent) && bare != "" && !Space(bare[|bare| - 1])
    ensures var line := indent + ("#" + pad + bare + value);
      Strip(line) != "" && Strip(line)[0] == '#' && Strip(line)[1..] == pad + (bare + w) && Leading(line) == indent
  {
    var head := "#" + pad + bare;
    assert head[0] == '#' && head[|head| - 1] == bare[|bare| - 1];
    w := StripKeeps(indent, head, value);
    assert (head + w)[1..] == pad + (bare + w);
  }

  lemma {:induction false} CommentLine(path: Path, indent: string, pad: string, key: string, gap: string,
                                       value: string)
    requires KeyParts(indent, Some(pad), key, gap)
    ensures var line := KeyText(indent, Some(pad), key, gap, value);
      !Header(line) && SlotOf(path, line) == Some(Slot(path, key)) && Commented(line) && Leading(line) == indent
  {
    var line, bare := KeyText(indent, Some(pad), key, gap, value), key + gap + "=";
    assert bare[|bare| - 1] == '=';
    assert line == indent + ("#" + pad + bare + value);
    var w := CommentStrips(indent, pad, bare, value);
    StartOf(line, '#');
    CommentReads(pad, key, gap, w);
    KeyIs(path, line, true, key, Strip(pad + (bare + w)));
  }

  /** A key line is about its key in the section that is open. */
  lemma {:induction false} KeyLine(path: Path, indent: string, comment: Option<string>, key: string, gap: string,
                                   value: string)
    requires KeyParts(indent, comment, key, gap)
    ensures var line := KeyText(indent, comment, key, gap, value);
      !Header(line) && SlotOf(path, line) == Some(Slot(path, key)) && (Commented(line) <==> comment.Some?) &&
      Leading(line) == indent
  {
    match comment
    case None => ActiveLine(path, indent, key, gap, value);
    case Some(pad) => CommentLine(path, indent, pad, key, gap, value);
  }

  lemma {:induction false} PadIs(n: nat)
    ensures Pad(n) == Many(' ', 2 * n)
  {
    if n > 0 {
      PadIs(n - 1);
      assert Many(' ', 2 * n) == [' '] + ([' '] + Many(' ', 2 * n - 2));
    }
  }

  // --- a key is set in its section ----------------------------------------------------------------------

  /** A setting, indented as `indent`, or where that is nothing under the headings of an INI, by two a level. */
  function Setting(kind: Kind, names: Path, indent: string, e: Entry): string
  {
    (if kind == Ini && indent == "" then Many(' ', 2 * |names|) else indent) + e.slot.key + " = " + e.value
  }

  lemma {:induction false} KeyTaken(kind: Kind, want: seq<Entry>, drop: set<Slot>, e: Entry, done: set<Slot>,
                                    line: string, indent: string)
    requires WantOk(want) && e in want && e.slot !in done
    requires !Header(line) && SlotOf(e.slot.path, line) == Some(e.slot) && Leading(line) == indent
    ensures FateOf(kind, want, drop, line, e.slot.path, done) == Takes(e, Setting(kind, e.slot.path, indent, e))
  {
    PadIs(|e.slot.path|);
    EntryIsOnly(want, e);
  }

  /** What becomes of a key line in the section that is open. */
  lemma {:induction false} KeyFate(kind: Kind, want: seq<Entry>, drop: set<Slot>, s: Slot, done: set<Slot>,
                                   line: string, indent: string)
    requires WantOk(want) && !Header(line) && SlotOf(s.path, line) == Some(s) && Leading(line) == indent
    ensures var fate := FateOf(kind, want, drop, line, s.path, done);
      (forall e :: e in want && e.slot == s && s !in done ==> fate == Takes(e, Setting(kind, s.path, indent, e))) &&
      (s !in Slots(want) || s in done ==> fate == if s in drop && !Commented(line) then Drops else Keeps)
  {
    forall e | e in want && e.slot == s && s !in done
      ensures FateOf(kind, want, drop, line, s.path, done) == Takes(e, Setting(kind, s.path, indent, e))
    {
      KeyTaken(kind, want, drop, e, done, line, indent);
    }
  }

  /**
   A key line anywhere under its headings, the loop having come with any section open and anything settled:
   the declared value is put there unless its slot was settled before; else the line stays as it is, or goes.
   */
  lemma {:induction false} KeyInItsSection(kind: Kind, want: seq<Entry>, drop: set<Slot>, lines: seq<string>,
      rest: seq<string>, path: Path, done: set<Slot>, names: Path, level: nat,
      indent: string, comment: Option<string>, key: string, gap: string, value: string)
    returns (before: seq<Mark>, here: Mark, after: seq<Mark>)
    requires WantOk(want) && KeyParts(indent, comment, key, gap)
    requires level <= |names| && Under(kind, lines, names, level) && Open(path, names, level)
    requires kind == TomlFile ==> |names| == 1
    ensures var line, s := KeyText(indent, comment, key, gap, value), Slot(names, key);
      Run(kind, want, drop, lines + ([line] + rest), path, done) == before + ([here] + after) &&
      Read(before) == lines && Read(after) == rest &&
      (forall e :: e in want && e.slot == s && s !in done + Done(before) ==>
         here == Set(e, line, Setting(kind, names, indent, e))) &&
      (s !in Slots(want) || s in done + Done(before) ==>
         here == if s in drop && comment.None? then Dropped(line) else Kept(line)) &&
      (Untouched(kind, path, lines, s) && s !in done ==> s !in done + Done(before))
  {
    var line, s := KeyText(indent, comment, key, gap, value), Slot(names, key);
    before := WalkThenRun(kind, want, drop, lines, [line] + rest, path, done, s);
    EndsUnder(kind, lines, path, names, level);
    var settled := done + Done(before);
    KeyLine(names, indent, comment, key, gap, value);
    KeyFate(kind, want, drop, s, settled, line, indent);
    here, after := OneMark(kind, want, drop, line, rest, names, settled);
    EveryLineIsAccountedFor(kind, want, drop, rest, names, DoneAfter(want, names, settled,
      FateOf(kind, want, drop, line, names, settled)));
  }

  lemma {:induction false} OneMark(kind: Kind, want: seq<Entry>, drop: set<Slot>, line: string, rest: seq<string>,
                                   path: Path, done: set<Slot>) returns (here: Mark, after: seq<Mark>)
    requires !Header(line)
    ensures var fate := FateOf(kind, want, drop, line, path, done);
      Run(kind, want, drop, [line] + rest, path, done) == [here] + after && !fate.Opens? &&
      after == Run(kind, want, drop, rest, path, DoneAfter(want, path, done, fate)) &&
      here == (match fate case Takes(e, text) => Set(e, line, text) case Drops => Dropped(line) case _ => Kept(line))
  {
    var fate := FateOf(kind, want, drop, line, path, done);
    assert ([line] + rest)[1..] == rest;
    here := MarksFor(kind, want, line, path, done, fate)[0];
    after := Run(kind, want, drop, rest, path, DoneAfter(want, path, done, fate));
  }

  // --- the first section of its name --------------------------------------------------------------------

  /**
   The heading at line `k` is the first of its name, and nothing after it is another heading or
   about the slot.
   */
  ghost predicate FirstOfItsName(kind: Kind, lines: seq<string>, k: nat, s: Slot)
    requires s.path != []
  {
    k < |lines| && Header(lines[k]) &&
    (forall j :: 0 <= j < k && Header(lines[j]) ==> OtherHeading(kind, lines[j], s.path[|s.path| - 1])) &&
    (forall j :: k < j < |lines| ==> !Header(lines[j]) && SlotOf(s.path, lines[j]) != Some(s))
  }

  ghost predicate OtherHeading(kind: Kind, line: string, name: string)
  {
    exists level: nat, n: string :: IsHeading(kind, line, level, n) && n != name
  }

  lemma {:induction false} OpensAnother(kind: Kind, path: Path, line: string, names: Path)
    requires names != [] && OtherHeading(kind, line, names[|names| - 1])
    ensures Header(line) && Opened(kind, path, line) != names
  {
    var level: nat, n: string :| IsHeading(kind, line, level, n) && n != names[|names| - 1];
    HeadingOpens(kind, path, line, level, n);
  }

  lemma {:induction false} NoneAbout(kind: Kind, path: Path, lines: seq<string>, s: Slot)
    requires forall l :: l in lines ==> !Header(l) && SlotOf(s.path, l) != Some(s)
    ensures Untouched(kind, path, lines, s)
    decreases |lines|
  {
    if lines != [] {
      assert lines[0] in lines && forall l :: l in lines[1..] ==> l in lines;
      NoneAbout(kind, path, lines[1..], s);
    }
  }

  lemma {:induction false} FirstIsNearer(kind: Kind, lines: seq<string>, k: nat, s: Slot)
    requires s.path != [] && FirstOfItsName(kind, lines, k, s)
    ensures k > 0 ==> FirstOfItsName(kind, lines[1..], k - 1, s)
    ensures k == 0 ==> forall l :: l in lines[1..] ==> !Header(l) && SlotOf(s.path, l) != Some(s)
  {
    var rest := lines[1..];
    assert forall j :: 0 <= j < |rest| ==> rest[j] == lines[j + 1];
  }

  lemma {:induction false} UntouchedCons(kind: Kind, path: Path, lines: seq<string>, path': Path, s: Slot)
    requires lines != [] && path' == (if Header(lines[0]) then Opened(kind, path, lines[0]) else path)
    requires path != s.path && Untouched(kind, path', lines[1..], s)
    ensures Untouched(kind, path, lines, s)
  {}

  lemma {:induction false} StaysElsewhere(kind: Kind, path: Path, lines: seq<string>, path': Path, k: nat, s: Slot)
    requires s.path != [] && FirstOfItsName(kind, lines, k, s) && k > 0 && path != s.path
    requires path' == (if Header(lines[0]) then Opened(kind, path, lines[0]) else path)
    ensures path' != s.path
  {
    if Header(lines[0]) { OpensAnother(kind, path, lines[0], s.path); }
  }

  lemma {:induction false} FirstIsUntouched(kind: Kind, path: Path, lines: seq<string>, k: nat, s: Slot)
    requires s.path != [] && path != s.path && FirstOfItsName(kind, lines, k, s)
    ensures Untouched(kind, path, lines, s)
    decreases |lines|
  {
    var path' := SectionCons(kind, path, lines);
    FirstIsNearer(kind, lines, k, s);
    if k == 0 {
      NoneAbout(kind, path', lines[1..], s);
    } else {
      StaysElsewhere(kind, path, lines, path', k, s);
      FirstIsUntouched(kind, path', lines[1..], k - 1, s);
    }
    UntouchedCons(kind, path, lines, path', s);
  }

  /** The first key line under the first headings of a declared section: the edited text has the setting there. */
  lemma {:induction false} FirstKeyIsSet(kind: Kind, want: seq<Entry>, drop: set<Slot>, text: string,
      parses: string -> bool, lines: seq<string>, k: nat, rest: seq<string>, e: Entry,
      indent: string, comment: Option<string>, gap: string, value: string)
    returns (before: seq<Mark>, after: seq<Mark>)
    requires WantOk(want) && e in want && KeyParts(indent, comment, e.slot.key, gap)
    requires Split(text) == lines + ([KeyText(indent, comment, e.slot.key, gap, value)] + rest)
    requires e.slot.path != [] && e.slot.path != Root(kind) && (kind == TomlFile ==> |e.slot.path| == 1)
    requires Under(kind, lines, e.slot.path, 0) && FirstOfItsName(kind, lines, k, e.slot)
    ensures Read(before) == lines && Read(after) == rest
    ensures var edited := Edited(kind, want, drop, text, parses);
      edited.Some? ==>
        edited.value == Join(Output(before) + ([Setting(kind, e.slot.path, indent, e)] + Output(after)))
  {
    FirstIsUntouched(kind, Root(kind), lines, k, e.slot);
    before, after := FirstKeyIsOut(kind, want, drop, lines, rest, e, indent, comment, gap, value);
  }

  lemma {:induction false} FirstKeyIsOut(kind: Kind, want: seq<Entry>, drop: set<Slot>, lines: seq<string>,
      rest: seq<string>, e: Entry, indent: string, comment: Option<string>, gap: string, value: string)
    returns (before: seq<Mark>, after: seq<Mark>)
    requires WantOk(want) && e in want && KeyParts(indent, comment, e.slot.key, gap)
    requires e.slot.path != [] && (kind == TomlFile ==> |e.slot.path| == 1)
    requires Under(kind, lines, e.slot.path, 0) && Untouched(kind, Root(kind), lines, e.slot)
    ensures Read(before) == lines && Read(after) == rest
    ensures var line := KeyText(indent, comment, e.slot.key, gap, value);
      Output(Run(kind, want, drop, lines + ([line] + rest), Root(kind), {})) ==
        Output(before) + ([Setting(kind, e.slot.path, indent, e)] + Output(after))
  {
    var line, here := KeyText(indent, comment, e.slot.key, gap, value), Dropped("");
    before, here, after := KeyInItsSection(kind, want, drop, lines, rest, Root(kind), {}, e.slot.path, 0, indent,
                                           comment, e.slot.key, gap, value);
    assert e.slot == Slot(e.slot.path, e.slot.key);
    SettingIsOut(before, here, after, e, line, Setting(kind, e.slot.path, indent, e));
  }

  lemma {:induction false} SettingIsOut(before: seq<Mark>, here: Mark, after: seq<Mark>, e: Entry, line: string,
                                        text: string)
    requires here == Set(e, line, text)
    ensures Output(before + ([here] + after)) == Output(before) + ([text] + Output(after))
  {
    OutputJoins(before, [here] + after);
    OutputJoins([here], after);
    assert Output([here]) == [text];
  }

  // --- a key its section never had ----------------------------------------------------------------------

  lemma {:induction false} AdditionsAre(kind: Kind, path: Path, es: seq<Entry>)
    ensures |Additions(kind, path, es)| == |es|
    ensures forall i :: 0 <= i < |es| ==>
      Additions(kind, path, es)[i] == Added(es[i], Setting(kind, path, "", es[i]))
  {
    PadIs(|path|);
    if es != [] { AdditionsAre(kind, path, es[1..]); }
  }

  /** At the end of a section, before the next heading or the end: its missing keys, in their declared order. */
  lemma {:induction false} AppendedToItsSection(kind: Kind, want: seq<Entry>, drop: set<Slot>, lines: seq<string>,
      rest: seq<string>, path: Path, done: set<Slot>, names: Path, level: nat)
    returns (before: seq<Mark>, es: seq<Entry>, after: seq<Mark>)
    requires level <= |names| && Under(kind, lines, names, level) && Open(path, names, level)
    requires kind == TomlFile ==> |names| == 1
    requires rest == [] || Header(rest[0])
    ensures Run(kind, want, drop, lines + rest, path, done) == before + (Additions(kind, names, es) + after)
    ensures Read(before) == lines && Read(after) == rest && es == Pending(want, names, done + Done(before))
    ensures var added := Additions(kind, names, es);
      |added| == |es| && forall i :: 0 <= i < |es| ==> added[i] == Added(es[i], Setting(kind, names, "", es[i]))
  {
    before := WalkThenRun(kind, want, drop, lines, rest, path, done, Slot(names, ""));
    EndsUnder(kind, lines, path, names, level);
    es := Pending(want, names, done + Done(before));
    AdditionsAre(kind, names, es);
    after := LeavesSection(kind, want, drop, rest, names, done + Done(before));
  }

  lemma {:induction false} AtHeading(kind: Kind, want: seq<Entry>, drop: set<Slot>, line: string, rest: seq<string>,
                                     path: Path, done: set<Slot>) returns (later: seq<Mark>)
    requires Header(line)
    ensures Run(kind, want, drop, [line] + rest, path, done) ==
      Additions(kind, path, Pending(want, path, done)) + [Kept(line)] + later
    ensures Read(later) == rest
  {
    var fate := Opens(Opened(kind, path, line));
    assert ([line] + rest)[1..] == rest;
    later := Run(kind, want, drop, rest, PathAfter(path, fate), DoneAfter(want, path, done, fate));
    EveryLineIsAccountedFor(kind, want, drop, rest, PathAfter(path, fate), DoneAfter(want, path, done, fate));
  }

  lemma {:induction false} LeavesSection(kind: Kind, want: seq<Entry>, drop: set<Slot>, rest: seq<string>,
                                         path: Path, done: set<Slot>) returns (after: seq<Mark>)
    requires rest == [] || Header(rest[0])
    ensures Run(kind, want, drop, rest, path, done) == Additions(kind, path, Pending(want, path, done)) + after
    ensures Read(after) == rest
  {
    var added := Additions(kind, path, Pending(want, path, done));
    if rest == [] {
      after := [];
      assert added + [] == added;
    } else {
      assert rest == [rest[0]] + rest[1..];
      var later := AtHeading(kind, want, drop, rest[0], rest[1..], path, done);
      after := [Kept(rest[0])] + later;
      Chain(added, [Kept(rest[0])], later);
    }
  }

  // --- a section the file does not have -----------------------------------------------------------------

  /** The section is open before some line, or at the end. */
  predicate Visits(kind: Kind, path: Path, lines: seq<string>, section: Path)
    decreases |lines|
  {
    path == section ||
    (lines != [] &&
     Visits(kind, if Header(lines[0]) then Opened(kind, path, lines[0]) else path, lines[1..], section))
  }

  lemma {:induction false} SettledExactly(kind: Kind, want: seq<Entry>, drop: set<Slot>, lines: seq<string>,
                                          path: Path, done: set<Slot>, s: Slot)
    ensures s in Settled(kind, want, drop, lines, path, done) <==>
      s in done || (s in Slots(want) && Visits(kind, path, lines, s.path))
    decreases |lines|
  {
    PendingSlots(want, path, done);
    if lines != [] {
      var fate := FateOf(kind, want, drop, lines[0], path, done);
      SettledExactly(kind, want, drop, lines[1..], PathAfter(path, fate), DoneAfter(want, path, done, fate), s);
    }
  }

  /** An edit raises exactly when a declared section is never open, or what it made does not parse. */
  lemma {:induction false} RaisesExactly(kind: Kind, want: seq<Entry>, drop: set<Slot>, text: string,
                                         parses: string -> bool)
    ensures Edited(kind, want, drop, text, parses).None? <==>
      (exists e :: e in want && !Visits(kind, Root(kind), Split(text), e.slot.path)) ||
      !parses(Join(Output(Run(kind, want, drop, Split(text), Root(kind), {}))))
  {
    var lines := Split(text);
    var settled := Settled(kind, want, drop, lines, Root(kind), {});
    forall s: Slot ensures s in settled <==> s in Slots(want) && Visits(kind, Root(kind), lines, s.path) {
      SettledExactly(kind, want, drop, lines, Root(kind), {}, s);
    }
    forall e | e in want && !Visits(kind, Root(kind), lines, e.slot.path)
      ensures SectionMissing(want, settled)
    {
      assert forall s :: s in settled ==> s.path != e.slot.path;
    }
    forall e | e in want && Visits(kind, Root(kind), lines, e.slot.path)
      ensures exists s :: s in settled && s.path == e.slot.path
    {
      assert e.slot in settled;
    }
  }

  /** ... and a section is open once the headings of its path stand one under the other. */
  lemma {:induction false} HeadingsAreVisited(kind: Kind, path: Path, lines: seq<string>, rest: seq<string>,
                                              names: Path)
    requires Under(kind, lines, names, 0) && (names == [] ==> path == []) && (kind == TomlFile ==> |names| == 1)
    ensures Visits(kind, path, lines + rest, names)
  {
    EndsUnder(kind, lines, path, names, 0);
    VisitsEnd(kind, path, lines, rest);
  }

  lemma {:induction false} VisitsEnd(kind: Kind, path: Path, lines: seq<string>, rest: seq<string>)
    ensures Visits(kind, path, lines + rest, SectionAfter(kind, path, lines))
    decreases |lines|
  {
    if lines != [] {
      var path' := SectionCons(kind, path, lines);
      assert (lines + rest)[1..] == lines[1..] + rest && (lines + rest)[0] == lines[0];
      VisitsEnd(kind, path', lines[1..], rest);
    }
  }
}
