/**
 `render_local_tables`: what is printed for admitted data parses back to the same structure, so the
 parse-back check never refuses it (lhpc/core/config.py:1751-1777).
 */
module TomlRoundTrip {
  import opened Options
  import opened Toml

  predicate DistinctKeys<T>(s: seq<(Text, T)>) { forall i, k :: 0 <= i < k < |s| ==> s[i].0 != s[k].0 }

  /** A Python dict: distinct keys, in its tables too. */
  predicate IsDict(d: Data)
  {
    DistinctKeys(d) && forall i :: 0 <= i < |d| && d[i].1.Table? ==> DistinctKeys(d[i].1.cells)
  }

  function CellMap(m: map<Text, Value>, cells: seq<(Text, Cell)>): map<Text, Value>
    requires CellsOk(cells)
    decreases |cells|
  {
    if cells == [] then m else CellMap(m[cells[0].0 := cells[0].1.v], cells[1..])
  }

  function NodeOf(it: Item): Node
    requires it.Table? ==> CellsOk(it.cells)
  {
    if it.One? then Leaf(it.v) else Branch(CellMap(map[], it.cells))
  }

  /** The data as the mapping it is, whatever order its keys are in. */
  function DictOf(d: Data): Doc
    requires DataOk(d)
  {
    if d == [] then map[] else DictOf(d[..|d| - 1])[d[|d| - 1].0 := NodeOf(d[|d| - 1].1)]
  }

  function WithRoots(doc: Doc, d: Data): Doc
    requires DataOk(d)
    decreases |d|
  {
    if d == [] then doc else WithRoots(if d[0].1.One? then doc[d[0].0 := NodeOf(d[0].1)] else doc, d[1..])
  }

  function WithTables(doc: Doc, d: Data): Doc
    requires DataOk(d)
    decreases |d|
  {
    if d == [] then doc else WithTables(if d[0].1.Table? then doc[d[0].0 := NodeOf(d[0].1)] else doc, d[1..])
  }

  /** What follows the key of a line. */
  lemma {:induction false} RestOfLineParses(vt: Text, v: Value, rest: Text)
    requires ParseValue(vt) == Some((v, [LF] + rest)) && vt != [] && !Space(vt[0])
    ensures var u := SkipSpace([32, EQUALS, 32] + vt);
      u != [] && u[0] == EQUALS && ParseValue(SkipSpace(u[1..])) == Some((v, [LF] + rest)) &&
      LineEnd([LF] + rest) == Some(rest)
  {
    var afterKey := [32, EQUALS, 32] + vt;
    assert afterKey[1..] == [EQUALS, 32] + vt;
    assert SkipSpace(afterKey) == [EQUALS, 32] + vt;
    assert ([EQUALS, 32] + vt)[1..] == [32] + vt && ([32] + vt)[1..] == vt;
    assert SkipSpace(vt) == vt;
    assert SkipSpace([32] + vt) == vt;
    assert ([LF] + rest)[1..] == rest;
  }

  lemma {:induction false} LineParses(k: Text, v: Value, rest: Text, current: Option<Text>, doc: Doc)
    requires KeyOk(k) && ValueOk(v) && Define(doc, current, k, v).Some?
    ensures ParseDoc(LineText(k, v, rest), current, doc) == ParseDoc(rest, current, Define(doc, current, k, v).value)
  {
    var vt := ValueText(v, [LF] + rest);
    KeyParses(k, [32, EQUALS, 32] + vt);
    ValueParses(v, [LF] + rest);
    RestOfLineParses(vt, v, rest);
    PairParses(LineText(k, v, rest), k, [32, EQUALS, 32] + vt, v, rest, current, doc);
  }

  lemma {:induction false} PairParses(s: Text, k: Text, afterKey: Text, v: Value, rest: Text, current: Option<Text>,
                                      doc: Doc)
    requires s != [] && (s[0] == QUOTE || Bare(s[0])) && ParseKey(s) == Some((k, afterKey))
    requires var u := SkipSpace(afterKey);
      u != [] && u[0] == EQUALS && ParseValue(SkipSpace(u[1..])) == Some((v, [LF] + rest)) &&
      LineEnd([LF] + rest) == Some(rest)
    requires Define(doc, current, k, v).Some?
    ensures ParseDoc(s, current, doc) == ParseDoc(rest, current, Define(doc, current, k, v).value)
  {
    assert SkipSpace(s) == s;
    PairMeans(s, k, afterKey, v, rest, current, doc);
  }

  lemma {:induction false} PairMeans(s: Text, k: Text, afterKey: Text, v: Value, rest: Text, current: Option<Text>,
                                     doc: Doc)
    requires ParseKey(s) == Some((k, afterKey))
    requires var u := SkipSpace(afterKey);
      u != [] && u[0] == EQUALS && ParseValue(SkipSpace(u[1..])) == Some((v, [LF] + rest)) &&
      LineEnd([LF] + rest) == Some(rest)
    requires Define(doc, current, k, v).Some?
    ensures ParsePair(s, current, doc) == ParseDoc(rest, current, Define(doc, current, k, v).value)
  {}

  lemma {:induction false} CellsParse(t: Text, cells: seq<(Text, Cell)>, rest: Text, doc: Doc)
    requires CellsOk(cells) && DistinctKeys(cells) && t in doc && doc[t].Branch?
    requires forall i :: 0 <= i < |cells| ==> cells[i].0 !in doc[t].m
    ensures ParseDoc(CellLines(cells, rest), Some(t), doc) ==
      ParseDoc(rest, Some(t), doc[t := Branch(CellMap(doc[t].m, cells))])
  {
    if cells == [] {
      assert doc[t := Branch(doc[t].m)] == doc;
    } else {
      var k, v := cells[0].0, cells[0].1.v;
      var next := doc[t := Branch(doc[t].m[k := v])];
      LineParses(k, v, CellLines(cells[1..], rest), Some(t), doc);
      forall i | 0 <= i < |cells[1..]| ensures cells[1..][i].0 !in next[t].m {
        assert cells[1..][i] == cells[i + 1];
      }
      CellsParse(t, cells[1..], rest, next);
      assert next[t := Branch(CellMap(next[t].m, cells[1..]))] == doc[t := Branch(CellMap(doc[t].m, cells))];
    }
  }

  ghost predicate NewKeys(d: Data, doc: Doc) { forall i :: 0 <= i < |d| ==> d[i].0 !in doc }

  lemma {:induction false} StillNew(d: Data, doc: Doc, n: Node)
    requires d != [] && DistinctKeys(d) && NewKeys(d, doc)
    ensures NewKeys(d[1..], doc[d[0].0 := n]) && NewKeys(d[1..], doc) && DistinctKeys(d[1..])
  {
    forall i | 0 <= i < |d[1..]| ensures d[1..][i].0 !in doc[d[0].0 := n] && d[1..][i].0 !in doc {
      assert d[1..][i] == d[i + 1];
    }
  }

  lemma {:induction false} RootsParse(d: Data, rest: Text, doc: Doc)
    requires DataOk(d) && DistinctKeys(d) && NewKeys(d, doc)
    ensures ParseDoc(RootLines(d, rest), None, doc) == ParseDoc(rest, None, WithRoots(doc, d))
  {
    if d != [] {
      StillNew(d, doc, NodeOf(d[0].1));
      if d[0].1.One? {
        LineParses(d[0].0, d[0].1.v, RootLines(d[1..], rest), None, doc);
        RootsParse(d[1..], rest, doc[d[0].0 := NodeOf(d[0].1)]);
      } else {
        RootsParse(d[1..], rest, doc);
      }
    }
  }

  lemma {:induction false} BlankLineSkipped(s: Text, current: Option<Text>, doc: Doc)
    ensures ParseDoc([LF] + s, current, doc) == ParseDoc(s, current, doc)
  {
    assert SkipSpace([LF] + s) == [LF] + s && ([LF] + s)[1..] == s;
  }

  /** The end of a header, from its closing bracket. */
  lemma {:induction false} HeaderEnds(rest: Text)
    ensures var u := SkipSpace([CLOSE, LF] + rest);
      u != [] && u[0] == CLOSE && LineEnd(u[1..]) == Some(rest)
  {
    var u := [CLOSE, LF] + rest;
    assert SkipSpace(u) == u && u[1..] == [LF] + rest && ([LF] + rest)[1..] == rest;
    assert SkipSpace([LF] + rest) == [LF] + rest;
  }

  lemma {:induction false} HeaderParses(k: Text, rest: Text, current: Option<Text>, doc: Doc)
    requires KeyOk(k) && k !in doc
    ensures ParseDoc([LF, OPEN] + KeyText(k, [CLOSE, LF] + rest), current, doc) ==
      ParseDoc(rest, Some(k), doc[k := Branch(map[])])
  {
    var kt := KeyText(k, [CLOSE, LF] + rest);
    KeyParses(k, [CLOSE, LF] + rest);
    HeaderEnds(rest);
    BlankLineSkipped([OPEN] + kt, current, doc);
    assert [LF, OPEN] + kt == [LF] + ([OPEN] + kt);
    BracketParses(kt, k, [CLOSE, LF] + rest, rest, current, doc);
  }

  lemma {:induction false} BracketParses(kt: Text, k: Text, afterKey: Text, rest: Text, current: Option<Text>, doc: Doc)
    requires kt != [] && (kt[0] == QUOTE || Bare(kt[0])) && ParseKey(kt) == Some((k, afterKey)) && k !in doc
    requires var u := SkipSpace(afterKey); u != [] && u[0] == CLOSE && LineEnd(u[1..]) == Some(rest)
    ensures ParseDoc([OPEN] + kt, current, doc) == ParseDoc(rest, Some(k), doc[k := Branch(map[])])
  {
    var s := [OPEN] + kt;
    assert s[1..] == kt && SkipSpace(kt) == kt && SkipSpace(s) == s;
    assert ParseDoc(s, current, doc) == ParseHeader(s, doc);
  }

  ghost predicate NewTables(d: Data, doc: Doc) { forall i :: 0 <= i < |d| && d[i].1.Table? ==> d[i].0 !in doc }

  lemma {:induction false} TablesStillNew(d: Data, doc: Doc, n: Node)
    requires d != [] && IsDict(d) && NewTables(d, doc)
    ensures NewTables(d[1..], doc[d[0].0 := n]) && NewTables(d[1..], doc) && IsDict(d[1..])
  {
    forall i | 0 <= i < |d[1..]| ensures d[1..][i] == d[i + 1] && d[i + 1].0 != d[0].0 {}
  }

  lemma {:induction false} TablesParse(d: Data, current: Option<Text>, doc: Doc)
    requires DataOk(d) && IsDict(d) && NewTables(d, doc)
    ensures ParseDoc(TableLines(d, []), current, doc) == Some(WithTables(doc, d))
  {
    if d != [] {
      var k, it := d[0].0, d[0].1;
      TablesStillNew(d, doc, NodeOf(it));
      var rest := TableLines(d[1..], []);
      if it.Table? {
        var open_ := doc[k := Branch(map[])];
        HeaderParses(k, CellLines(it.cells, rest), current, doc);
        CellsParse(k, it.cells, rest, open_);
        assert open_[k := Branch(CellMap(open_[k].m, it.cells))] == doc[k := NodeOf(it)];
        TablesParse(d[1..], Some(k), doc[k := NodeOf(it)]);
      } else {
        TablesParse(d[1..], current, doc);
      }
    }
  }

  lemma {:induction false} CommentSkipped(c: Text, rest: Text)
    requires LF !in c
    ensures SkipComment(c + [LF] + rest) == rest
  {
    var s := c + [LF] + rest;
    if c == [] {
      assert s[1..] == rest;
    } else {
      CommentSkipped(c[1..], rest);
      assert s[0] == c[0] && s[1..] == c[1..] + [LF] + rest;
    }
  }

  lemma {:induction false} BannerIsAComment()
    ensures BANNER != [] && BANNER[0] == HASH && LF !in BANNER
  {
    var a, b := "# Local operator overrides ", "(managed by lhpc \U{2014} git-ignored).";
    assert a[0] == '#' && '\n' !in a;
    assert '\n' !in b;
    assert Ascii(a)[0] == '#' as int;
    forall i | 0 <= i < |BANNER| ensures BANNER[i] != LF {
      assert if i < |a| then BANNER[i] == a[i] as int else BANNER[i] == b[i - |a|] as int;
    }
  }

  // --- the order of the keys does not matter --------------------------------------------------------------

  lemma {:induction false} RootsHold(doc: Doc, d: Data, q: Text)
    requires DataOk(d) && DistinctKeys(d)
    ensures forall i :: 0 <= i < |d| && d[i].0 == q && d[i].1.One? ==>
      q in WithRoots(doc, d) && WithRoots(doc, d)[q] == NodeOf(d[i].1)
    ensures (forall i :: 0 <= i < |d| && d[i].1.One? ==> d[i].0 != q) ==>
      ((q in WithRoots(doc, d) <==> q in doc) && (q in doc ==> WithRoots(doc, d)[q] == doc[q]))
    decreases |d|
  {
    if d != [] {
      RootsHold(if d[0].1.One? then doc[d[0].0 := NodeOf(d[0].1)] else doc, d[1..], q);
      assert forall i :: 0 < i < |d| ==> d[i] == d[1..][i - 1];
    }
  }

  lemma {:induction false} TablesHold(doc: Doc, d: Data, q: Text)
    requires DataOk(d) && DistinctKeys(d)
    ensures forall i :: 0 <= i < |d| && d[i].0 == q && d[i].1.Table? ==>
      q in WithTables(doc, d) && WithTables(doc, d)[q] == NodeOf(d[i].1)
    ensures (forall i :: 0 <= i < |d| && d[i].1.Table? ==> d[i].0 != q) ==>
      ((q in WithTables(doc, d) <==> q in doc) && (q in doc ==> WithTables(doc, d)[q] == doc[q]))
    decreases |d|
  {
    if d != [] {
      TablesHold(if d[0].1.Table? then doc[d[0].0 := NodeOf(d[0].1)] else doc, d[1..], q);
      assert forall i :: 0 < i < |d| ==> d[i] == d[1..][i - 1];
    }
  }

  lemma {:induction false} DictHolds(d: Data, q: Text)
    requires DataOk(d) && DistinctKeys(d)
    ensures forall i :: 0 <= i < |d| && d[i].0 == q ==> q in DictOf(d) && DictOf(d)[q] == NodeOf(d[i].1)
    ensures (forall i :: 0 <= i < |d| ==> d[i].0 != q) ==> q !in DictOf(d)
  {
    if d != [] { DictHolds(d[..|d| - 1], q); }
  }

  lemma {:induction false} OrderDoesNotMatter(d: Data)
    requires DataOk(d) && DistinctKeys(d)
    ensures WithTables(WithRoots(map[], d), d) == DictOf(d)
  {
    var all := WithTables(WithRoots(map[], d), d);
    forall q ensures (q in all <==> q in DictOf(d)) && (q in all ==> all[q] == DictOf(d)[q]) {
      RootsHold(map[], d, q);
      TablesHold(WithRoots(map[], d), d, q);
      DictHolds(d, q);
      if i :| 0 <= i < |d| && d[i].0 == q {
        assert d[i].1.One? || d[i].1.Table?;
      }
    }
  }

  /** Printing then parsing gives the data back. */
  lemma {:induction false} RoundTrip(d: Data)
    requires DataOk(d) && IsDict(d)
    ensures Parse(Document(d)) == Some(DictOf(d))
  {
    var rest := RootLines(d, TableLines(d, []));
    var s := BANNER + [LF] + rest;
    BannerIsAComment();
    CommentSkipped(BANNER, rest);
    assert s[0] == HASH;
    assert SkipSpace(s) == s;
    assert ParseDoc(s, None, map[]) == ParseDoc(rest, None, map[]);
    RootsParse(d, TableLines(d, []), map[]);
    forall i | 0 <= i < |d| && d[i].1.Table? ensures d[i].0 !in WithRoots(map[], d) {
      RootsHold(map[], d, d[i].0);
    }
    TablesParse(d, None, WithRoots(map[], d));
    OrderDoesNotMatter(d);
  }

  // --- what is written after does not change what is written before ------------------------------------------

  lemma {:induction false} EscapedAppends(s: Text, a: Text, b: Text)
    requires ValidText(s)
    ensures EscapedAll(s, a + b) == EscapedAll(s, a) + b
  {
    if s != [] { EscapedAppends(s[1..], a, b); }
  }

  lemma {:induction false} DigitsAppend(n: nat, a: Text, b: Text)
    ensures Digits(n, a + b) == Digits(n, a) + b
    decreases n
  {
    if n >= 10 {
      DigitsAppend(n / 10, [ZERO + n % 10] + a, b);
      assert [ZERO + n % 10] + (a + b) == ([ZERO + n % 10] + a) + b;
    }
  }

  lemma {:induction false} QuotedAppends(s: Text, a: Text, b: Text)
    requires ValidText(s)
    ensures Quoted(s, a + b) == Quoted(s, a) + b
  {
    EscapedAppends(s, [QUOTE] + a, b);
    assert [QUOTE] + (a + b) == ([QUOTE] + a) + b;
  }

  lemma {:induction false} FloatAppends(d: Decimal, a: Text, b: Text)
    ensures FloatText(d, a + b) == FloatText(d, a) + b
  {
    var f, e := if d.frac == [] then [] else [DOT] + d.frac, if d.exp == [] then [] else [EXPONENT] + d.exp;
    assert f + (e + (a + b)) == (f + (e + a)) + b;
    DigitsAppend(d.whole, TailText(d, a), b);
  }

  lemma {:induction false} ValueAppends(v: Value, a: Text, b: Text)
    requires ValueOk(v)
    ensures ValueText(v, a + b) == ValueText(v, a) + b
  {
    match v {
      case Bool(_) =>
      case Int(n) => DigitsAppend(if n < 0 then -n else n, a, b);
      case Float(d) => FloatAppends(d, a, b);
      case Str(s) => QuotedAppends(s, a, b);
    }
  }

  lemma {:induction false} LineAppends(k: Text, v: Value, b: Text)
    requires KeyOk(k) && ValueOk(v)
    ensures LineText(k, v, b) == LineText(k, v, []) + b
  {
    var vt := ValueText(v, [LF]);
    assert [LF] + [] == [LF];
    ValueAppends(v, [LF], b);
    var a := [32, EQUALS, 32] + vt;
    assert [32, EQUALS, 32] + (vt + b) == a + b;
    KeyAppends(k, a, b);
  }

  lemma {:induction false} KeyAppends(k: Text, a: Text, b: Text)
    requires KeyOk(k)
    ensures KeyText(k, a + b) == KeyText(k, a) + b
  {
    QuotedAppends(k, a, b);
    assert k + (a + b) == (k + a) + b;
  }

  lemma {:induction false} CellsAppend(cells: seq<(Text, Cell)>, a: Text, b: Text)
    requires CellsOk(cells)
    ensures CellLines(cells, a + b) == CellLines(cells, a) + b
  {
    if cells != [] {
      CellsAppend(cells[1..], a, b);
      LineAppends(cells[0].0, cells[0].1.v, CellLines(cells[1..], a + b));
      LineAppends(cells[0].0, cells[0].1.v, CellLines(cells[1..], a));
    }
  }

  lemma {:induction false} TableAppends(k: Text, cells: seq<(Text, Cell)>, b: Text)
    requires KeyOk(k) && CellsOk(cells)
    ensures TableText(k, cells, b) == TableText(k, cells, []) + b
  {
    CellsAppend(cells, [], b);
    assert [] + b == b;
    var c := CellLines(cells, []);
    assert [CLOSE, LF] + (c + b) == ([CLOSE, LF] + c) + b;
    KeyAppends(k, [CLOSE, LF] + c, b);
  }

  lemma {:induction false} CellsSnoc(cells: seq<(Text, Cell)>, i: nat, rest: Text)
    requires CellsOk(cells) && i < |cells|
    ensures CellLines(cells[..i + 1], rest) == CellLines(cells[..i], LineText(cells[i].0, cells[i].1.v, rest))
  {
    if i > 0 {
      CellsSnoc(cells[1..], i - 1, rest);
      assert cells[..i + 1][1..] == cells[1..][..i] && cells[..i][1..] == cells[1..][..i - 1];
    } else {
      assert cells[..1][1..] == [] && cells[..0] == [];
    }
  }

  lemma {:induction false} RootsSnoc(d: Data, i: nat, rest: Text)
    requires i < |d| && RootsOk(d[..i + 1])
    ensures RootsOk(d[..i]) && RootLines(d[..i + 1], rest) ==
      RootLines(d[..i], if d[i].1.One? then LineText(d[i].0, d[i].1.v, rest) else rest)
  {
    assert forall k :: 0 <= k < i ==> d[..i][k] == d[..i + 1][k];
    assert d[..i + 1][i] == d[i];
    if i > 0 {
      assert d[..i + 1][1..] == d[1..][..i] && d[..i][1..] == d[1..][..i - 1];
      RootsSnoc(d[1..], i - 1, rest);
    } else {
      assert d[..1][1..] == [];
    }
  }

  lemma {:induction false} TablesSnoc(d: Data, i: nat, rest: Text)
    requires i < |d| && TablesOk(d[..i + 1])
    ensures TablesOk(d[..i]) && TableLines(d[..i + 1], rest) ==
      TableLines(d[..i], if d[i].1.Table? then TableText(d[i].0, d[i].1.cells, rest) else rest)
  {
    assert forall k :: 0 <= k < i ==> d[..i][k] == d[..i + 1][k];
    assert d[..i + 1][i] == d[i];
    if i > 0 {
      assert d[..i + 1][1..] == d[1..][..i] && d[..i][1..] == d[1..][..i - 1];
      TablesSnoc(d[1..], i - 1, rest);
    } else {
      assert d[..1][1..] == [];
    }
  }

  lemma {:induction false} RootsAppend(d: Data, a: Text, b: Text)
    requires RootsOk(d)
    ensures RootLines(d, a + b) == RootLines(d, a) + b
  {
    if d != [] {
      RootsAppend(d[1..], a, b);
      if d[0].1.One? {
        LineAppends(d[0].0, d[0].1.v, RootLines(d[1..], a + b));
        LineAppends(d[0].0, d[0].1.v, RootLines(d[1..], a));
      }
    }
  }

  lemma {:induction false} TablesAppend(d: Data, a: Text, b: Text)
    requires TablesOk(d)
    ensures TableLines(d, a + b) == TableLines(d, a) + b
  {
    if d != [] {
      TablesAppend(d[1..], a, b);
      if d[0].1.Table? {
        TableAppends(d[0].0, d[0].1.cells, TableLines(d[1..], a + b));
        TableAppends(d[0].0, d[0].1.cells, TableLines(d[1..], a));
      }
    }
  }

  // --- render_local_tables -------------------------------------------------------------------------------------

  lemma {:induction false} OneMoreCell(cells: seq<(Text, Cell)>, i: nat)
    requires i < |cells| && CellsOk(cells[..i])
    requires KeyOk(cells[i].0) && cells[i].1.Scalar? && ValueOk(cells[i].1.v)
    ensures CellsOk(cells[..i + 1])
    ensures CellLines(cells[..i + 1], []) == CellLines(cells[..i], []) + LineText(cells[i].0, cells[i].1.v, [])
  {
    var upTo := cells[..i + 1];
    forall k | 0 <= k < i ensures upTo[k] == cells[..i][k] {}
    CellsSnoc(upTo, i, []);
    assert upTo[..i] == cells[..i] && upTo[..i + 1] == upTo;
    var line := LineText(cells[i].0, cells[i].1.v, []);
    CellsAppend(cells[..i], [], line);
    assert [] + line == line;
  }

  lemma {:induction false} NoMoreCells(cells: seq<(Text, Cell)>, i: nat)
    requires i < |cells| && (cells[i].1.Nested? || !KeyOk(cells[i].0) || !ValueOk(cells[i].1.v))
    ensures !CellsOk(cells)
  {}

  /** The `key = value` lines of one table, None when a cell cannot be written. */
  method RenderCells(cells: seq<(Text, Cell)>) returns (out: Option<Text>)
    ensures out == if CellsOk(cells) then Some(CellLines(cells, [])) else None
  {
    var text: Text := [];
    for i := 0 to |cells|
      invariant CellsOk(cells[..i]) && text == CellLines(cells[..i], [])
    {
      if cells[i].1.Nested? || !KeyOk(cells[i].0) || !ValueOk(cells[i].1.v) {
        NoMoreCells(cells, i);
        return None;
      }
      OneMoreCell(cells, i);
      text := text + LineText(cells[i].0, cells[i].1.v, []);
    }
    assert cells[..|cells|] == cells;
    return Some(text);
  }

  lemma {:induction false} OneMoreRoot(d: Data, i: nat)
    requires i < |d| && RootsOk(d[..i]) && (d[i].1.One? ==> KeyOk(d[i].0) && ValueOk(d[i].1.v))
    ensures RootsOk(d[..i + 1])
    ensures RootLines(d[..i + 1], []) ==
      RootLines(d[..i], []) + if d[i].1.One? then LineText(d[i].0, d[i].1.v, []) else []
  {
    forall k | 0 <= k < i ensures d[..i + 1][k] == d[..i][k] {}
    RootsSnoc(d, i, []);
    if d[i].1.One? {
      var line := LineText(d[i].0, d[i].1.v, []);
      RootsAppend(d[..i], [], line);
      assert [] + line == line;
    }
  }

  lemma {:induction false} NoMoreRoots(d: Data, i: nat)
    requires i < |d| && d[i].1.One? && (!KeyOk(d[i].0) || !ValueOk(d[i].1.v))
    ensures !RootsOk(d)
  {}

  /** The root scalars, None when one cannot be written. */
  method RenderRoots(d: Data) returns (out: Option<Text>)
    ensures out == if RootsOk(d) then Some(RootLines(d, [])) else None
  {
    var text: Text := [];
    for i := 0 to |d|
      invariant RootsOk(d[..i]) && text == RootLines(d[..i], [])
    {
      if d[i].1.One? && (!KeyOk(d[i].0) || !ValueOk(d[i].1.v)) {
        NoMoreRoots(d, i);
        return None;
      }
      OneMoreRoot(d, i);
      if d[i].1.One? {
        text := text + LineText(d[i].0, d[i].1.v, []);
      }
    }
    assert d[..|d|] == d;
    return Some(text);
  }

  lemma {:induction false} OneMoreTable(d: Data, i: nat)
    requires i < |d| && TablesOk(d[..i]) && (d[i].1.Table? ==> KeyOk(d[i].0) && CellsOk(d[i].1.cells))
    ensures TablesOk(d[..i + 1])
    ensures TableLines(d[..i + 1], []) ==
      TableLines(d[..i], []) + if d[i].1.Table? then TableText(d[i].0, d[i].1.cells, []) else []
  {
    forall k | 0 <= k < i ensures d[..i + 1][k] == d[..i][k] {}
    TablesSnoc(d, i, []);
    if d[i].1.Table? {
      var table := TableText(d[i].0, d[i].1.cells, []);
      TablesAppend(d[..i], [], table);
      assert [] + table == table;
    }
  }

  lemma {:induction false} NoMoreTables(d: Data, i: nat)
    requires i < |d| && d[i].1.Table? && !(KeyOk(d[i].0) && CellsOk(d[i].1.cells))
    ensures !TablesOk(d)
  {}

  /** The tables, None when one cannot be written. */
  method RenderTables(d: Data) returns (out: Option<Text>)
    ensures out == if TablesOk(d) then Some(TableLines(d, [])) else None
  {
    var text: Text := [];
    for i := 0 to |d|
      invariant TablesOk(d[..i]) && text == TableLines(d[..i], [])
    {
      if d[i].1.Table? {
        if !KeyOk(d[i].0) { NoMoreTables(d, i); return None; }
        var cells := RenderCells(d[i].1.cells);
        if cells.None? { NoMoreTables(d, i); return None; }
        OneMoreTable(d, i);
        text := text + ([LF, OPEN] + KeyText(d[i].0, [CLOSE, LF] + cells.value));
      } else {
        OneMoreTable(d, i);
      }
    }
    assert d[..|d|] == d;
    return Some(text);
  }

  /** `render_local_tables`: writes exactly the admitted data; its parse-back check never refuses any. */
  method RenderLocalTables(d: Data) returns (out: Option<Text>)
    requires IsDict(d)
    ensures out.Some? <==> DataOk(d)
    ensures out.Some? ==> out.value == Document(d) && Parse(out.value) == Some(DictOf(d))
  {
    var roots := RenderRoots(d);
    if roots.None? { return None; }
    var tables := RenderTables(d);
    if tables.None? { return None; }
    var text := BANNER + [LF] + roots.value + tables.value;
    RootsAppend(d, [], tables.value);
    assert [] + tables.value == tables.value;
    assert text == Document(d);
    RoundTrip(d);
    if Parse(text) != Some(DictOf(d)) { return None; }
    return Some(text);
  }

  /** A lone surrogate, or any text with one, is refused before anything is written. */
  lemma {:induction false} SurrogatesAreRefused(k: Text, s: Text, c: int)
    requires 0xD800 <= c <= 0xDFFF && c in s
    ensures !ValueOk(Str(s)) && !KeyOk(s) && !DataOk([(k, One(Str(s)))]) && !DataOk([(s, One(Bool(true)))])
  {
    assert !Unicode(c);
    var one: Data := [(k, One(Str(s)))];
    var two: Data := [(s, One(Bool(true)))];
    assert one[0].1.One? && two[0].1.One?;
  }
}
