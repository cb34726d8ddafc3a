/**
 Config files, the pre-image journal, and what replaying a journal gives back
 (lhpc/core/config.py:1786-1899).
 */
module ConfigStore {
  import opened Options

  type Path = seq<string>

  datatype Content = Content(text: string, mode: int)

  type Files = map<Path, Content>
  type Texts = map<Path, string>

  datatype Rec = Rec(kind: string, rel: Path, pre: Option<string>, existed: bool, mode: int)

  /** `Broken`: there, but unreadable, malformed or of another version. */
  datatype JournalFile = NoJournal | Broken | Journal(targets: seq<Rec>)

  datatype Disk = Disk(files: Files, journal: JournalFile)

  /** What a target's content turns out to be once rendered under the lock. */
  datatype Rendered = Text(text: string) | Withdraw | Remove | Raises

  /** Content is a constant or a callable of the files as they are inside the lock. */
  datatype Target = Target(kind: string, path: Path, body: Texts -> Rendered, mode: int)

  function TextAt(f: Files, p: Path): Option<string> { if p in f then Some(f[p].text) else None }
  function TextsOf(f: Files): Texts { map p | p in f :: f[p].text }

  ghost predicate SameTexts(f: Files, g: Files) { forall p :: TextAt(f, p) == TextAt(g, p) }

  lemma {:induction false} SameTextsSameView(f: Files, g: Files)
    requires SameTexts(f, g)
    ensures TextsOf(f) == TextsOf(g)
  {
    forall p ensures (p in f <==> p in g) && (p in f ==> f[p].text == g[p].text) {
      assert TextAt(f, p) == TextAt(g, p);
    }
  }

  // --- the allowlist --------------------------------------------------------------------------------

  predicate EndsWith(s: string, end: string) { |s| >= |end| && s[|s| - |end|..] == end }

  /** `refused`: paths whose leaf is a symlink or whose parents leave the runtime root. */
  predicate TargetOk(kind: string, rel: Path, refused: set<Path>)
  {
    rel !in refused && "" !in rel && "." !in rel && ".." !in rel &&
    match kind
    case "local" => rel == ["config", "local.toml"]
    case "stack" => |rel| == 3 && rel[..2] == ["config", "stacks"] && EndsWith(rel[2], ".toml")
    case "state" => |rel| == 3 && rel[..2] == ["state", "restart-required"] && EndsWith(rel[2], ".json")
    case "openhop" => rel == ["state", "openhop", "config.yaml"]
    case _ => false
  }

  /** The last component of a path is safe to append to a directory. */
  predicate PlainLeaf(s: string) { s != "" && s != "." && s != ".." }

  /** The four places of the runtime root that a transaction may write, and nothing else. */
  lemma {:induction false} AllowedExactly(kind: string, rel: Path, refused: set<Path>)
    ensures TargetOk(kind, rel, refused) <==>
      rel !in refused &&
      ((kind == "local" && rel == ["config", "local.toml"]) ||
       (kind == "openhop" && rel == ["state", "openhop", "config.yaml"]) ||
       (kind == "stack" && exists name: string :: rel == ["config", "stacks", name + ".toml"]) ||
       (kind == "state" && exists name: string :: rel == ["state", "restart-required", name + ".json"]))
  {
    if |rel| == 3 {
      Suffixed(rel[2], ".toml");
      Suffixed(rel[2], ".json");
      assert rel == rel[..2] + [rel[2]];
    }
  }

  lemma {:induction false} Suffixed(s: string, end: string)
    ensures EndsWith(s, end) <==> exists name: string :: s == name + end
    ensures EndsWith(s, end) && |end| > 2 ==> PlainLeaf(s)
  {
    if EndsWith(s, end) { assert s == s[..|s| - |end|] + end; }
  }

  predicate RecOk(r: Rec, refused: set<Path>)
  {
    (r.pre.None? ==> !r.existed) && TargetOk(r.kind, r.rel, refused)
  }

  predicate Distinct(recs: seq<Rec>) { forall i, k :: 0 <= i < k < |recs| ==> recs[i].rel != recs[k].rel }

  /** Exactly the journals a recovery acts on. */
  predicate Recoverable(j: JournalFile, refused: set<Path>)
  {
    j.Journal? && j.targets != [] && Distinct(j.targets) && forall r :: r in j.targets ==> RecOk(r, refused)
  }

  // --- replaying --------------------------------------------------------------------------------------

  function RestoreOne(f: Files, r: Rec): Files
  {
    if r.existed && r.pre.Some? then f[r.rel := Content(r.pre.value, r.mode)] else f - {r.rel}
  }

  /** The journal's pre-images are those of `old`, and nothing outside it has changed since. */
  ghost predicate Revertible(f: Files, recs: seq<Rec>, was: Files)
  {
    (forall r :: r in recs ==> r.existed == (r.rel in was) && r.pre == TextAt(was, r.rel)) &&
    (forall q :: TextAt(f, q) == TextAt(was, q) || exists r :: r in recs && r.rel == q)
  }

  lemma {:induction false} RestoreKeepsRevertible(f: Files, recs: seq<Rec>, was: Files, r: Rec)
    requires Revertible(f, recs, was) && r in recs
    ensures Revertible(RestoreOne(f, r), recs, was)
    ensures TextAt(RestoreOne(f, r), r.rel) == TextAt(was, r.rel)
    ensures forall q :: TextAt(f, q) == TextAt(was, q) ==> TextAt(RestoreOne(f, r), q) == TextAt(was, q)
  {}

  /** Any write to a journaled path leaves the replay as it was. */
  lemma {:induction false} TargetWritesAreRevertible(f: Files, g: Files, recs: seq<Rec>, was: Files, p: Path)
    requires Revertible(f, recs, was) && exists r :: r in recs && r.rel == p
    requires forall q :: q != p ==> TextAt(g, q) == TextAt(f, q)
    ensures Revertible(g, recs, was)
  {
    forall q ensures TextAt(g, q) == TextAt(was, q) || exists r :: r in recs && r.rel == q {
      if q != p { assert TextAt(g, q) == TextAt(f, q); }
    }
  }

  // --- what a transaction writes ----------------------------------------------------------------------

  function WriteOne(f: Files, t: Target, view: Texts): Files
  {
    match t.body(view)
    case Text(s) => f[t.path := Content(s, t.mode)]
    case Remove => f - {t.path}
    case _ => f
  }

  /** All targets in order, every one rendered from the files as they were before the first write. */
  function Written(f: Files, targets: seq<Target>, view: Texts): Files
  {
    if targets == [] then f else WriteOne(Written(f, targets[..|targets| - 1], view), targets[|targets| - 1], view)
  }

  predicate Renders(targets: seq<Target>, view: Texts)
  {
    forall i :: 0 <= i < |targets| ==>
      !targets[i].body(view).Raises? && (targets[i].body(view).Remove? ==> targets[i].kind == "state")
  }

  lemma {:induction false} LastWriteWins(f: Files, targets: seq<Target>, view: Texts, i: nat)
    requires i < |targets| && targets[i].body(view).Text?
    requires forall k :: i < k < |targets| ==> targets[k].path != targets[i].path
    ensures TextAt(Written(f, targets, view), targets[i].path) == Some(targets[i].body(view).text)
  {
    var rest := targets[..|targets| - 1];
    if i < |rest| { LastWriteWins(f, rest, view, i); }
  }

  lemma {:induction false} OthersUntouched(f: Files, targets: seq<Target>, view: Texts, q: Path)
    requires forall t :: t in targets ==> t.path != q
    ensures (q in Written(f, targets, view) <==> q in f) && (q in f ==> Written(f, targets, view)[q] == f[q])
  {
    if targets != [] { OthersUntouched(f, targets[..|targets| - 1], view, q); }
  }

  function PreImage(f: Files, t: Target): Rec { Rec(t.kind, t.path, TextAt(f, t.path), t.path in f, t.mode) }

  lemma {:induction false} FreshJournalIsRevertible(f: Files, targets: seq<Target>, recs: seq<Rec>)
    requires |recs| == |targets| && forall i :: 0 <= i < |targets| ==> recs[i] == PreImage(f, targets[i])
    ensures Revertible(f, recs, f)
  {}
}
