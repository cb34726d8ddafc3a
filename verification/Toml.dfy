/**
 The strict TOML printer of lhpc/core/config.py:1751-1777, 2080-2132 and a reference parser for
 the part of TOML v1.0.0 it writes (sections "Comment", "Keys", "Key/Value Pair", "String",
 "Integer", "Float", "Boolean", "Table"). Text is a sequence of code points: Python strings may hold lone
 surrogates.
 */
module Toml {
  import opened Options

  type Text = seq<int>

  function Ascii(s: string): Text { seq(|s|, i requires 0 <= i < |s| => s[i] as int) }

  /**
   A finite float is the decimal `repr` prints for it, from which it is read back: sign, whole part,
   fractional digits (possibly none), signed exponent digits (possibly none).
   */
  datatype Decimal = Decimal(neg: bool, whole: nat, frac: Text, exp: Text)

  /** `Unsupported`: infinities, NaN, dates, arrays. */
  datatype Value = Bool(b: bool) | Int(n: int) | Float(d: Decimal) | Str(s: Text) | Unsupported

  /** What a key of the data holds: a scalar, or a flat table whose cells may be (refused) tables. */
  datatype Cell = Scalar(v: Value) | Nested
  datatype Item = One(v: Value) | Table(cells: seq<(Text, Cell)>)

  type Data = seq<(Text, Item)>

  const LF := 10
  const QUOTE := 34
  const HASH := 35
  const PLUS := 43
  const MINUS := 45
  const DOT := 46
  const ZERO := 48
  const EQUALS := 61
  const OPEN := 91
  const EXPONENT := 101
  const BACKSLASH := 92
  const CLOSE := 93

  // --- the printer ---------------------------------------------------------------------------------

  predicate Control(c: int) { c < 0x20 || c == 0x7F }
  predicate Unicode(c: int) { 0 <= c <= 0x10FFFF && !(0xD800 <= c <= 0xDFFF) }
  predicate Bare(c: int) { 48 <= c <= 57 || 65 <= c <= 90 || 97 <= c <= 122 || c == 95 || c == 45 }

  predicate ValidText(s: Text) { forall c :: c in s ==> Unicode(c) }

  function Hex(d: int): int
    requires 0 <= d < 16
  {
    if d < 10 then 48 + d else 55 + d
  }

  /** One character of a basic string. */
  function Escaped(c: int): Text
    requires Unicode(c)
  {
    if c == BACKSLASH then [BACKSLASH, BACKSLASH]
    else if c == QUOTE then [BACKSLASH, QUOTE]
    else if c == 8 then [BACKSLASH, 98]
    else if c == 9 then [BACKSLASH, 116]
    else if c == 10 then [BACKSLASH, 110]
    else if c == 12 then [BACKSLASH, 102]
    else if c == 13 then [BACKSLASH, 114]
    else if Control(c) then [BACKSLASH, 117, 48, 48, Hex(c / 16), Hex(c % 16)]
    else [c]
  }

  function EscapedAll(s: Text, rest: Text): Text
    requires ValidText(s)
  {
    if s == [] then rest else Escaped(s[0]) + EscapedAll(s[1..], rest)
  }

  /** A basic string, then `rest`. */
  function Quoted(s: Text, rest: Text): Text
    requires ValidText(s)
  {
    [QUOTE] + EscapedAll(s, [QUOTE] + rest)
  }

  function Digits(n: nat, rest: Text): Text
    decreases n
  {
    if n < 10 then [ZERO + n] + rest else Digits(n / 10, [ZERO + n % 10] + rest)
  }

  /** Text without quotes, backslashes and control characters is printed as it stands. */
  lemma {:induction false} PrintedAsItStands(s: Text, rest: Text)
    requires ValidText(s) && forall c :: c in s ==> c >= 32 && c != 34 && c != 92 && c != 127
    ensures Quoted(s, rest) == [34] + s + [34] + rest
  {
    EscapedAsIs(s, [QUOTE] + rest);
  }

  lemma {:induction false} EscapedAsIs(s: Text, rest: Text)
    requires ValidText(s) && forall c :: c in s ==> c >= 32 && c != 34 && c != 92 && c != 127
    ensures EscapedAll(s, rest) == s + rest
  {
    if s != [] {
      assert s[0] in s && s == [s[0]] + s[1..] && forall c :: c in s[1..] ==> c in s;
      EscapedAsIs(s[1..], rest);
    } else {
      assert s + rest == rest;
    }
  }

  predicate Digit(c: int) { 48 <= c <= 57 }
  predicate AllDigits(s: Text) { forall c :: c in s ==> Digit(c) }

  predicate Exponent(s: Text) { |s| > 1 && (s[0] == PLUS || s[0] == MINUS) && AllDigits(s[1..]) }

  /** What `repr` can print: a fraction or an exponent, or both. */
  predicate DecimalOk(d: Decimal)
  {
    AllDigits(d.frac) && (d.exp == [] || Exponent(d.exp)) && (d.frac != [] || d.exp != [])
  }

  function TailText(d: Decimal, rest: Text): Text
  {
    (if d.frac == [] then [] else [DOT] + d.frac) + ((if d.exp == [] then [] else [EXPONENT] + d.exp) + rest)
  }

  function FloatText(d: Decimal, rest: Text): Text
  {
    (if d.neg then [MINUS] else []) + Digits(d.whole, TailText(d, rest))
  }

  predicate ValueOk(v: Value)
  {
    v.Bool? || v.Int? || (v.Float? && DecimalOk(v.d)) || (v.Str? && ValidText(v.s))
  }

  function ValueText(v: Value, rest: Text): Text
    requires ValueOk(v)
  {
    match v
    case Bool(b) => (if b then Ascii("true") else Ascii("false")) + rest
    case Int(n) => if n < 0 then [MINUS] + Digits(-n, rest) else Digits(n, rest)
    case Float(d) => FloatText(d, rest)
    case Str(s) => Quoted(s, rest)
  }

  lemma {:induction false} DigitsStart(n: nat, rest: Text)
    ensures var t := Digits(n, rest); t != [] && 48 <= t[0] <= 57 && (t[0] == 48 ==> n == 0)
    decreases n
  {
    if n >= 10 { DigitsStart(n / 10, [ZERO + n % 10] + rest); }
  }

  /** An integer is printed with a sign exactly when it is negative, and without leading zeros. */
  lemma {:induction false} IntPrints(n: int, rest: Text)
    ensures var t := ValueText(Int(n), rest);
      |t| > 0 && (t[0] == 45 <==> n < 0) && (t[0] == 48 ==> n == 0) && (t[0] == 45 ==> |t| > 1 && t[1] != 48)
  {
    DigitsStart(if n < 0 then -n else n, rest);
  }

  /** Admitted keys: not empty, no control character, valid Unicode. */
  predicate KeyOk(k: Text) { k != [] && ValidText(k) && forall c :: c in k ==> !Control(c) }

  function KeyText(k: Text, rest: Text): Text
    requires KeyOk(k)
  {
    if forall c :: c in k ==> Bare(c) then k + rest else Quoted(k, rest)
  }

  function LineText(k: Text, v: Value, rest: Text): Text
    requires KeyOk(k) && ValueOk(v)
  {
    KeyText(k, [32, EQUALS, 32] + ValueText(v, [LF] + rest))
  }

  predicate CellsOk(cells: seq<(Text, Cell)>)
  {
    forall i :: 0 <= i < |cells| ==> KeyOk(cells[i].0) && cells[i].1.Scalar? && ValueOk(cells[i].1.v)
  }

  predicate RootsOk(d: Data) { forall i :: 0 <= i < |d| && d[i].1.One? ==> KeyOk(d[i].0) && ValueOk(d[i].1.v) }
  predicate TablesOk(d: Data) { forall i :: 0 <= i < |d| && d[i].1.Table? ==> KeyOk(d[i].0) && CellsOk(d[i].1.cells) }

  /** What can be written: admitted keys, bools, integers and valid Unicode strings, flat tables. */
  predicate DataOk(d: Data) { RootsOk(d) && TablesOk(d) }

  function CellLines(cells: seq<(Text, Cell)>, rest: Text): Text
    requires CellsOk(cells)
  {
    if cells == [] then rest else LineText(cells[0].0, cells[0].1.v, CellLines(cells[1..], rest))
  }

  /** The root scalars. */
  function RootLines(d: Data, rest: Text): Text
    requires RootsOk(d)
  {
    if d == [] then rest
    else if d[0].1.One? then LineText(d[0].0, d[0].1.v, RootLines(d[1..], rest))
    else RootLines(d[1..], rest)
  }

  function TableText(k: Text, cells: seq<(Text, Cell)>, rest: Text): Text
    requires KeyOk(k) && CellsOk(cells)
  {
    [LF, OPEN] + KeyText(k, [CLOSE, LF] + CellLines(cells, rest))
  }

  /** The tables, each after an empty line. */
  function TableLines(d: Data, rest: Text): Text
    requires TablesOk(d)
  {
    if d == [] then rest
    else if d[0].1.Table? then
      TableText(d[0].0, d[0].1.cells, TableLines(d[1..], rest))
    else TableLines(d[1..], rest)
  }

  const BANNER := Ascii("# Local operator overrides ") + Ascii("(managed by lhpc \U{2014} git-ignored).")

  /** The document before the parse-back check. */
  function Document(d: Data): Text
    requires DataOk(d)
  {
    BANNER + [LF] + RootLines(d, TableLines(d, []))
  }

  // --- the reference parser -----------------------------------------------------------------------------

  datatype Node = Leaf(v: Value) | Branch(m: map<Text, Value>)
  type Doc = map<Text, Node>

  predicate Space(c: int) { c == 32 || c == 9 }

  function SkipSpace(s: Text): (r: Text)
    ensures |r| <= |s|
  {
    if s != [] && Space(s[0]) then SkipSpace(s[1..]) else s
  }

  function SkipComment(s: Text): (r: Text)
    ensures |r| <= |s|
  {
    if s == [] then [] else if s[0] == LF then s[1..] else SkipComment(s[1..])
  }

  /** The end of a line, comment included. */
  function LineEnd(s: Text): (r: Option<Text>)
    ensures r.Some? ==> |r.value| <= |s|
  {
    var t := SkipSpace(s);
    if t == [] then Some([])
    else if t[0] == LF then Some(t[1..])
    else if t[0] == HASH then Some(SkipComment(t))
    else None
  }

  function HexValue(c: int): Option<int>
  {
    if 48 <= c <= 57 then Some(c - 48)
    else if 65 <= c <= 70 then Some(c - 55)
    else if 97 <= c <= 102 then Some(c - 87)
    else None
  }

  function HexNumber(s: Text, n: nat, acc: int): Option<int>
    requires n <= |s|
  {
    if n == 0 then Some(acc)
    else
      match HexValue(s[0])
      case None => None
      case Some(d) => HexNumber(s[1..], n - 1, acc * 16 + d)
  }

  /** An escape sequence after its backslash: the character and how much it took. */
  function Unescape(s: Text): (r: Option<(int, nat)>)
    ensures r.Some? ==> 0 < r.value.1 <= |s|
  {
    if s == [] then None
    else if s[0] == 98 then Some((8, 1))
    else if s[0] == 116 then Some((9, 1))
    else if s[0] == 110 then Some((10, 1))
    else if s[0] == 102 then Some((12, 1))
    else if s[0] == 114 then Some((13, 1))
    else if s[0] == QUOTE then Some((QUOTE, 1))
    else if s[0] == BACKSLASH then Some((BACKSLASH, 1))
    else
      var n := if s[0] == 117 then 4 else if s[0] == 85 then 8 else 0;
      if n == 0 || |s| <= n then None
      else
        match HexNumber(s[1..], n, 0)
        case Some(c) => if Unicode(c) then Some((c, n + 1)) else None
        case None => None
  }

  /** A basic string after its opening quote. */
  function ParseBasic(s: Text): (r: Option<(Text, Text)>)
    ensures r.Some? ==> |r.value.1| < |s|
  {
    if s == [] then None
    else if s[0] == QUOTE then Some(([], s[1..]))
    else if s[0] == BACKSLASH then
      match Unescape(s[1..])
      case None => None
      case Some((c, n)) =>
        match ParseBasic(s[1 + n..])
        case None => None
        case Some((t, rest)) => Some(([c] + t, rest))
    else if (Control(s[0]) && s[0] != 9) || !Unicode(s[0]) then None
    else
      match ParseBasic(s[1..])
      case None => None
      case Some((t, rest)) => Some(([s[0]] + t, rest))
  }

  function BareRun(s: Text): (r: (Text, Text))
    ensures s == r.0 + r.1
  {
    if s != [] && Bare(s[0]) then
      var r := BareRun(s[1..]);
      ([s[0]] + r.0, r.1)
    else ([], s)
  }

  function ParseKey(s: Text): (r: Option<(Text, Text)>)
    ensures r.Some? ==> |r.value.1| < |s|
  {
    if s != [] && s[0] == QUOTE then ParseBasic(s[1..])
    else
      var (k, rest) := BareRun(s);
      if k == [] then None else Some((k, rest))
  }

  function ParseDigits(s: Text, acc: nat): (r: (nat, Text))
    ensures |r.1| <= |s|
  {
    if s != [] && Digit(s[0]) then ParseDigits(s[1..], acc * 10 + (s[0] - ZERO)) else (acc, s)
  }

  /** Decimal digits without a leading zero. */
  function ParseNatural(s: Text): (r: Option<(nat, Text)>)
    ensures r.Some? ==> |r.value.1| <= |s|
  {
    if s == [] || !Digit(s[0]) || (s[0] == ZERO && |s| > 1 && Digit(s[1])) then None else Some(ParseDigits(s, 0))
  }

  function DigitRun(s: Text): (r: (Text, Text))
    ensures s == r.0 + r.1
  {
    if s != [] && Digit(s[0]) then
      var r := DigitRun(s[1..]);
      ([s[0]] + r.0, r.1)
    else ([], s)
  }

  /** The fraction, if there is a point. */
  function ParseFraction(s: Text): (r: Option<(Text, Text)>)
    ensures r.Some? ==> |r.value.1| <= |s|
  {
    if s == [] || s[0] != DOT then Some(([], s))
    else
      var r := DigitRun(s[1..]);
      if r.0 == [] then None else Some(r)
  }

  /** The exponent, if there is one, with its sign. */
  function ParseExponent(s: Text): (r: Option<(Text, Text)>)
    ensures r.Some? ==> |r.value.1| <= |s|
  {
    if s == [] || (s[0] != EXPONENT && s[0] != 69) then Some(([], s))
    else
      var sign := if |s| > 1 && (s[1] == PLUS || s[1] == MINUS) then s[1..2] else [];
      var r := DigitRun(s[1 + |sign|..]);
      if r.0 == [] then None else Some((sign + r.0, r.1))
  }

  /** An integer, or a float where a fraction or an exponent follows. */
  function ParseNumber(neg: bool, s: Text): (r: Option<(Value, Text)>)
    ensures r.Some? ==> |r.value.1| <= |s|
  {
    match ParseNatural(s)
    case None => None
    case Some((n, tail)) =>
      match ParseFraction(tail)
      case None => None
      case Some((frac, more)) =>
        match ParseExponent(more)
        case None => None
        case Some((exp, rest)) =>
          Some((if frac == [] && exp == [] then Int(if neg then 0 - n else n) else Float(Decimal(neg, n, frac, exp)),
                rest))
  }

  function ParseValue(s: Text): (r: Option<(Value, Text)>)
    ensures r.Some? ==> |r.value.1| <= |s|
  {
    if s == [] then None
    else if s[0] == QUOTE then
      match ParseBasic(s[1..])
      case None => None
      case Some((t, rest)) => Some((Str(t), rest))
    else if Ascii("true") <= s then Some((Bool(true), s[4..]))
    else if Ascii("false") <= s then Some((Bool(false), s[5..]))
    else if s[0] == MINUS || s[0] == PLUS then ParseNumber(s[0] == MINUS, s[1..])
    else ParseNumber(false, s)
  }

  /** Defines `k` at the root or in the current table; a key defined twice is an error. */
  function Define(doc: Doc, current: Option<Text>, k: Text, v: Value): Option<Doc>
  {
    match current
    case None => if k in doc then None else Some(doc[k := Leaf(v)])
    case Some(t) =>
      if t !in doc || doc[t].Leaf? || k in doc[t].m then None
      else Some(doc[t := Branch(doc[t].m[k := v])])
  }

  function ParseDoc(s: Text, current: Option<Text>, doc: Doc): Option<Doc>
    decreases |s|
  {
    var t := SkipSpace(s);
    if t == [] then Some(doc)
    else if t[0] == LF then ParseDoc(t[1..], current, doc)
    else if t[0] == HASH then
      if SkipComment(t) == t then None else ParseDoc(SkipComment(t), current, doc)
    else if t[0] == OPEN then ParseHeader(t, doc)
    else ParsePair(t, current, doc)
  }

  function ParseHeader(t: Text, doc: Doc): Option<Doc>
    requires t != []
    decreases |t|, 0
  {
    match ParseKey(SkipSpace(t[1..]))
    case None => None
    case Some((k, rest)) =>
      var u := SkipSpace(rest);
      if u == [] || u[0] != CLOSE || k in doc then None
      else
        match LineEnd(u[1..])
        case None => None
        case Some(more) => ParseDoc(more, Some(k), doc[k := Branch(map[])])
  }

  function ParsePair(t: Text, current: Option<Text>, doc: Doc): Option<Doc>
    decreases |t|, 0
  {
    match ParseKey(t)
    case None => None
    case Some((k, rest)) =>
      var u := SkipSpace(rest);
      if u == [] || u[0] != EQUALS then None
      else
        match ParseValue(SkipSpace(u[1..]))
        case None => None
        case Some((v, tail)) =>
          match (LineEnd(tail), Define(doc, current, k, v))
          case (Some(more), Some(next)) => ParseDoc(more, current, next)
          case _ => None
  }

  function Parse(s: Text): Option<Doc> { ParseDoc(s, None, map[]) }

  // --- what is printed parses back ------------------------------------------------------------------------

  lemma {:induction false} HexStep(h: int, t: Text, n: nat, acc: int)
    requires HexValue(h).Some? && n <= |t|
    ensures HexNumber([h] + t, n + 1, acc) == HexNumber(t, n, acc * 16 + HexValue(h).value)
  {
    assert ([h] + t)[1..] == t;
  }

  lemma {:induction false} HexParses(c: int, rest: Text)
    requires 0 <= c < 256
    ensures HexNumber([48, 48, Hex(c / 16), Hex(c % 16)] + rest, 4, 0) == Some(c)
  {
    var hi, lo := Hex(c / 16), Hex(c % 16);
    assert HexValue(48) == Some(0) && HexValue(hi) == Some(c / 16) && HexValue(lo) == Some(c % 16);
    var t1 := [lo] + rest;
    var t2 := [hi] + t1;
    var t3 := [48] + t2;
    HexStep(lo, rest, 0, c / 16);
    HexStep(hi, t1, 1, 0);
    HexStep(48, t2, 2, 0);
    HexStep(48, t3, 3, 0);
    assert [48, 48, hi, lo] + rest == [48] + t3;
  }

  /** A short escape: one character after the backslash. */
  lemma {:induction false} ShortEscapeParses(c: int, e: int, rest: Text)
    requires ParseBasic(rest).Some? && Unescape([e] + rest) == Some((c, 1))
    ensures ParseBasic([BACKSLASH, e] + rest) == Some(([c] + ParseBasic(rest).value.0, ParseBasic(rest).value.1))
  {
    var s := [BACKSLASH, e] + rest;
    assert s[1..] == [e] + rest && s[1 + 1..] == rest;
  }

  lemma {:induction false} HexEscapeParses(c: int, rest: Text)
    requires 0 <= c < 256 && ParseBasic(rest).Some?
    ensures ParseBasic([BACKSLASH, 117, 48, 48, Hex(c / 16), Hex(c % 16)] + rest) ==
      Some(([c] + ParseBasic(rest).value.0, ParseBasic(rest).value.1))
  {
    var four := [48, 48, Hex(c / 16), Hex(c % 16)];
    var s := [BACKSLASH, 117, 48, 48, Hex(c / 16), Hex(c % 16)] + rest;
    HexParses(c, rest);
    assert s[1..] == [117] + (four + rest);
    assert s[1..][1..] == four + rest;
    assert Unescape(s[1..]) == Some((c, 5));
    assert s[1 + 5..] == rest;
  }

  lemma {:induction false} EscapeParses(c: int, rest: Text)
    requires Unicode(c) && ParseBasic(rest).Some?
    ensures ParseBasic(Escaped(c) + rest) == Some(([c] + ParseBasic(rest).value.0, ParseBasic(rest).value.1))
  {
    if |Escaped(c)| == 1 {
      assert (Escaped(c) + rest)[1..] == rest;
    } else if |Escaped(c)| == 2 {
      ShortEscapeParses(c, Escaped(c)[1], rest);
      assert Escaped(c) == [BACKSLASH, Escaped(c)[1]];
    } else {
      HexEscapeParses(c, rest);
    }
  }

  /** Every valid Unicode string comes back from its basic string. */
  lemma {:induction false} BasicParses(s: Text, rest: Text)
    requires ValidText(s)
    ensures ParseBasic(EscapedAll(s, [QUOTE] + rest)) == Some((s, rest))
  {
    if s != [] {
      BasicParses(s[1..], rest);
      EscapeParses(s[0], EscapedAll(s[1..], [QUOTE] + rest));
      assert s == [s[0]] + s[1..];
    }
  }

  lemma {:induction false} BareParses(k: Text, rest: Text)
    requires forall c :: c in k ==> Bare(c)
    requires rest != [] && !Bare(rest[0])
    ensures BareRun(k + rest) == (k, rest)
  {
    if k != [] {
      BareParses(k[1..], rest);
      assert (k + rest)[1..] == k[1..] + rest && k == [k[0]] + k[1..];
    } else {
      assert k + rest == rest;
    }
  }

  lemma {:induction false} KeyParses(k: Text, rest: Text)
    requires KeyOk(k) && rest != [] && !Bare(rest[0])
    ensures ParseKey(KeyText(k, rest)) == Some((k, rest))
    ensures KeyText(k, rest) != [] && (KeyText(k, rest)[0] == QUOTE || Bare(KeyText(k, rest)[0]))
  {
    if forall c :: c in k ==> Bare(c) {
      BareParses(k, rest);
      assert (k + rest)[0] == k[0];
    } else {
      BasicParses(k, rest);
      assert Quoted(k, rest)[1..] == EscapedAll(k, [QUOTE] + rest);
    }
  }

  lemma {:induction false} DigitsParse(n: nat, rest: Text)
    ensures ParseDigits(Digits(n, rest), 0) == ParseDigits(rest, n)
    ensures Digits(n, rest) != [] && Digit(Digits(n, rest)[0])
    ensures Digits(n, rest)[0] == ZERO ==> n == 0 && Digits(n, rest)[1..] == rest
    decreases n
  {
    if n < 10 {
      assert ([ZERO + n] + rest)[1..] == rest;
    } else {
      var d := [ZERO + n % 10] + rest;
      DigitsParse(n / 10, d);
      assert d[1..] == rest;
      assert ParseDigits(d, n / 10) == ParseDigits(rest, n / 10 * 10 + n % 10);
    }
  }

  lemma {:induction false} NaturalParses(n: nat, rest: Text)
    requires rest != [] && !Digit(rest[0])
    ensures ParseNatural(Digits(n, rest)) == Some((n, rest))
    ensures Digits(n, rest) != [] && Digit(Digits(n, rest)[0])
  {
    DigitsParse(n, rest);
    var s := Digits(n, rest);
    assert s[0] == ZERO && |s| > 1 ==> s[1] == s[1..][0];
  }

  lemma {:induction false} DigitRunParses(d: Text, rest: Text)
    requires AllDigits(d) && rest != [] && !Digit(rest[0])
    ensures DigitRun(d + rest) == (d, rest)
  {
    if d == [] {
      assert d + rest == rest;
    } else {
      assert (d + rest)[1..] == d[1..] + rest && d == [d[0]] + d[1..];
      DigitRunParses(d[1..], rest);
    }
  }

  lemma {:induction false} IntParses(neg: bool, n: nat, rest: Text)
    requires rest != [] && rest[0] == LF
    ensures ParseNumber(neg, Digits(n, rest)) == Some((Int(if neg then 0 - n else n), rest))
  {
    NaturalParses(n, rest);
  }

  lemma {:induction false} ExponentParses(exp: Text, rest: Text)
    requires (exp == [] || Exponent(exp)) && rest != [] && rest[0] == LF
    ensures ParseExponent((if exp == [] then [] else [EXPONENT] + exp) + rest) == Some((exp, rest))
  {
    var s := (if exp == [] then [] else [EXPONENT] + exp) + rest;
    if exp == [] {
      assert s == rest;
    } else {
      assert s[1..2] == exp[..1] && s[2..] == exp[1..] + rest && exp == exp[..1] + exp[1..];
      DigitRunParses(exp[1..], rest);
    }
  }

  lemma {:induction false} FractionParses(frac: Text, rest: Text)
    requires AllDigits(frac) && rest != [] && !Digit(rest[0]) && rest[0] != DOT
    ensures ParseFraction((if frac == [] then [] else [DOT] + frac) + rest) == Some((frac, rest))
  {
    var s := (if frac == [] then [] else [DOT] + frac) + rest;
    if frac == [] {
      assert s == rest;
    } else {
      assert s[1..] == frac + rest;
      DigitRunParses(frac, rest);
    }
  }

  lemma {:induction false} FloatParses(d: Decimal, rest: Text)
    requires DecimalOk(d) && rest != [] && rest[0] == LF
    ensures ParseNumber(d.neg, Digits(d.whole, TailText(d, rest))) == Some((Float(d), rest))
    ensures Digits(d.whole, TailText(d, rest)) != [] && Digit(Digits(d.whole, TailText(d, rest))[0])
  {
    var more := (if d.exp == [] then [] else [EXPONENT] + d.exp) + rest;
    NaturalParses(d.whole, TailText(d, rest));
    FractionParses(d.frac, more);
    ExponentParses(d.exp, rest);
  }

  lemma {:induction false} ValueParses(v: Value, rest: Text)
    requires ValueOk(v) && rest != [] && rest[0] == LF
    ensures ParseValue(ValueText(v, rest)) == Some((v, rest))
    ensures ValueText(v, rest) != [] && !Space(ValueText(v, rest)[0])
  {
    var s := ValueText(v, rest);
    var t, f := Ascii("true"), Ascii("false");
    assert t[0] == 116 && f[0] == 102;
    match v {
      case Bool(b) =>
        assert s[0] == if b then 116 else 102;
        if b { assert s[..4] == t && s[4..] == rest; } else { assert s[..5] == f && s[5..] == rest; }
      case Int(n) =>
        IntParses(n < 0, if n < 0 then -n else n, rest);
        NaturalParses(if n < 0 then -n else n, rest);
        if n < 0 { assert s[1..] == Digits(-n, rest); }
      case Float(d) =>
        FloatParses(d, rest);
        assert if d.neg then s[1..] == Digits(d.whole, TailText(d, rest)) else s == Digits(d.whole, TailText(d, rest));
      case Str(x) =>
        BasicParses(x, rest);
        assert s[1..] == EscapedAll(x, [QUOTE] + rest);
    }
  }
}
