/**
 The line editors `update_ini` and `update_toml` (lhpc/core/config.py:1110-1235): the first
 occurrence of every declared key is set, a key its section never had is appended to it, and
 everything else survives. The two differ in how they read headers, indent what they write and
 drop lines; `Kind` tells them apart.
 */
module Editors {
  import opened Options

  datatype Kind = Ini | TomlFile

  type Path = seq<string>

  datatype Slot = Slot(path: Path, key: string)
  datatype Entry = Entry(slot: Slot, value: string)

  // --- Python's string operations ---------------------------------------------------------------------

  /** `str.isspace` characters. */
  predicate Space(c: char)
  {
    var n := c as int;
    9 <= n <= 13 || 28 <= n <= 32 || n == 0x85 || n == 0xA0 || n == 0x1680 || 0x2000 <= n <= 0x200A ||
    n == 0x2028 || n == 0x2029 || n == 0x202F || n == 0x205F || n == 0x3000
  }

  predicate Blank(s: string) { forall c :: c in s ==> Space(c) }

  function Leading(s: string): (r: string)
    ensures r <= s && Blank(r) && (|r| < |s| ==> !Space(s[|r|]))
  {
    if s != "" && Space(s[0]) then [s[0]] + Leading(s[1..]) else ""
  }

  function LStrip(s: string): string { s[|Leading(s)|..] }

  function RStrip(s: string): (r: string)
    ensures r <= s && (r != "" ==> !Space(r[|r| - 1])) && Blank(s[|r|..])
  {
    if s != "" && Space(s[|s| - 1]) then
      assert s == s[..|s| - 1] + [s[|s| - 1]];
      RStrip(s[..|s| - 1])
    else s
  }

  function Strip(s: string): string { RStrip(LStrip(s)) }

  predicate Starts(s: string, c: char) { s != "" && s[0] == c }
  predicate Ends(s: string, c: char) { s != "" && s[|s| - 1] == c }

  function Count(s: string, c: char): nat { if s != "" && s[0] == c then 1 + Count(s[1..], c) else 0 }

  /** `strip("[]")`. */
  function StripBrackets(s: string): string
  {
    if s != "" && (s[0] == '[' || s[0] == ']') then StripBrackets(s[1..])
    else if s != "" && (s[|s| - 1] == '[' || s[|s| - 1] == ']') then StripBrackets(s[..|s| - 1])
    else s
  }

  function BeforeEquals(s: string): (r: string)
    requires '=' in s
    ensures |r| < |s| && r == s[..|r|] && s[|r|] == '=' && '=' !in r
  {
    if s[0] == '=' then "" else assert s == [s[0]] + s[1..]; [s[0]] + BeforeEquals(s[1..])
  }

  // --- reading one line ----------------------------------------------------------------------------------

  predicate Header(line: string) { Starts(Strip(line), '[') && Ends(Strip(line), ']') }

  function Min(a: nat, b: nat): nat { if a < b then a else b }

  /** The section a header opens. */
  function Opened(kind: Kind, path: Path, line: string): Path
    requires Header(line)
  {
    var st := Strip(line);
    match kind
    case Ini => path[..Min(Count(st, '[') - 1, |path|)] + [Strip(StripBrackets(st))]
    case TomlFile => [if |st| >= 2 then st[1..|st| - 1] else ""]
  }

  predicate Commented(line: string) { Starts(Strip(line), '#') }

  function Candidate(line: string): string { if Commented(line) then Strip(Strip(line)[1..]) else Strip(line) }

  /** The slot a line is about, commented out or not. */
  function SlotOf(path: Path, line: string): Option<Slot>
  {
    if Header(line) || '=' !in Candidate(line) then None
    else Some(Slot(path, Strip(BeforeEquals(Candidate(line)))))
  }

  function Pad(n: nat): string { if n == 0 then "" else "  " + Pad(n - 1) }

  /** The indent of a line appended to a section. */
  function AddIndent(kind: Kind, path: Path): string { if kind == Ini then Pad(|path|) else "" }

  /** The indent of a line that replaces `line`. */
  function SetIndent(kind: Kind, path: Path, line: string): string
  {
    if kind == Ini && Leading(line) == "" then Pad(|path|) else Leading(line)
  }

  function Line(indent: string, e: Entry): string { indent + e.slot.key + " = " + e.value }

  function Root(kind: Kind): Path { if kind == Ini then [] else [""] }

  // --- the edit -----------------------------------------------------------------------------------------------

  /** What became of the lines: every one read, every one written. */
  datatype Mark =
    | Kept(line: string)
    | Dropped(line: string)
    | Set(entry: Entry, was: string, text: string)
    | Added(entry: Entry, text: string)

  function Slots(want: seq<Entry>): set<Slot> { set e | e in want :: e.slot }

  function EntryFor(want: seq<Entry>, s: Slot): (e: Entry)
    requires s in Slots(want)
    ensures e in want && e.slot == s
  {
    if want[0].slot == s then want[0] else assert want == [want[0]] + want[1..]; EntryFor(want[1..], s)
  }

  /** The declared keys of a section that it never had, in their order. */
  function Pending(want: seq<Entry>, path: Path, done: set<Slot>): (r: seq<Entry>)
    ensures forall e :: e in r <==> e in want && e.slot.path == path && e.slot !in done
  {
    if want == [] then []
    else
      assert want == [want[0]] + want[1..];
      (if want[0].slot.path == path && want[0].slot !in done then [want[0]] else []) + Pending(want[1..], path, done)
  }

  function Additions(kind: Kind, path: Path, es: seq<Entry>): seq<Mark>
  {
    if es == [] then [] else [Added(es[0], Line(AddIndent(kind, path), es[0]))] + Additions(kind, path, es[1..])
  }

  /** What happens at a line: a section opens, a declared slot is set, or the line goes or stays. */
  datatype Fate = Opens(next: Path) | Takes(entry: Entry, text: string) | Drops | Keeps

  function FateOf(kind: Kind, want: seq<Entry>, drop: set<Slot>, line: string, path: Path, done: set<Slot>): Fate
  {
    var slot := SlotOf(path, line);
    if Header(line) then Opens(Opened(kind, path, line))
    else if slot.Some? && slot.value in Slots(want) && slot.value !in done then
      var e := EntryFor(want, slot.value);
      Takes(e, Line(SetIndent(kind, path, line), e))
    else if slot.Some? && slot.value in drop && !Commented(line) then Drops
    else Keeps
  }

  function MarksFor(kind: Kind, want: seq<Entry>, line: string, path: Path, done: set<Slot>, fate: Fate): seq<Mark>
  {
    match fate
    case Opens(_) => Additions(kind, path, Pending(want, path, done)) + [Kept(line)]
    case Takes(e, text) => [Set(e, line, text)]
    case Drops => [Dropped(line)]
    case Keeps => [Kept(line)]
  }

  function PathAfter(path: Path, fate: Fate): Path { if fate.Opens? then fate.next else path }

  function DoneAfter(want: seq<Entry>, path: Path, done: set<Slot>, fate: Fate): set<Slot>
  {
    match fate
    case Opens(_) => done + Slots(Pending(want, path, done))
    case Takes(e, _) => done + {e.slot}
    case _ => done
  }

  function Run(kind: Kind, want: seq<Entry>, drop: set<Slot>, lines: seq<string>, path: Path,
               done: set<Slot>): seq<Mark>
    decreases |lines|
  {
    if lines == [] then Additions(kind, path, Pending(want, path, done))
    else
      var fate := FateOf(kind, want, drop, lines[0], path, done);
      MarksFor(kind, want, lines[0], path, done, fate) +
      Run(kind, want, drop, lines[1..], PathAfter(path, fate), DoneAfter(want, path, done, fate))
  }

  function ReadOne(m: Mark): seq<string>
  {
    match m
    case Kept(l) => [l]
    case Dropped(l) => [l]
    case Set(_, l, _) => [l]
    case Added(_, _) => []
  }

  function Read(ms: seq<Mark>): seq<string> { if ms == [] then [] else ReadOne(ms[0]) + Read(ms[1..]) }

  function WrittenBy(m: Mark): seq<string>
  {
    match m
    case Kept(l) => [l]
    case Dropped(_) => []
    case Set(_, _, t) => [t]
    case Added(_, t) => [t]
  }

  function Output(ms: seq<Mark>): seq<string> { if ms == [] then [] else WrittenBy(ms[0]) + Output(ms[1..]) }

  function DoneBy(m: Mark): set<Slot> { if m.Set? || m.Added? then {m.entry.slot} else {} }

  function Done(ms: seq<Mark>): set<Slot> { if ms == [] then {} else DoneBy(ms[0]) + Done(ms[1..]) }
}
