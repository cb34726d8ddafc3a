/**
 Sentences as a receiver prints them, and what is read from them: NMEA 0183 field by field
 (lhpc/core/gps.py:470-542, 581-612, 665-782).
 */
module NmeaPrinted {
  import opened Options
  import opened NmeaSentence
  import opened NmeaSnapshot

  function Pow10(k: nat): (r: nat)
    ensures r > 0
  {
    if k == 0 then 1 else 10 * Pow10(k - 1)
  }

  /** The last `width` decimal digits, leading zeros included. */
  function Print(n: nat, width: nat): Bytes
  {
    if width == 0 then [] else Print(n / 10, width - 1) + [48 + (n % 10) as bv8]
  }

  lemma {:induction false} PrintReads(n: nat, width: nat)
    ensures |Print(n, width)| == width && AllDigits(Print(n, width))
    ensures n < Pow10(width) ==> Number(Print(n, width)) == n
  {
    if width > 0 {
      PrintReads(n / 10, width - 1);
      var s := Print(n, width);
      assert s[..|s| - 1] == Print(n / 10, width - 1);
      LastDigit(n % 10);
    }
  }

  lemma LastDigit(d: nat)
    requires d < 10
    ensures Digit(48 + d as bv8) && ((48 + d as bv8) - 48) as nat == d
  {}

  lemma DigitBack(b: bv8)
    requires Digit(b)
    ensures (b - 48) as nat < 10 && 48 + ((b - 48) as nat) as bv8 == b
  {}

  lemma PrintMore(n: nat, d: nat, width: nat)
    requires d < 10
    ensures Print(n * 10 + d, width + 1) == Print(n, width) + [48 + d as bv8]
  {
    assert (n * 10 + d) / 10 == n && (n * 10 + d) % 10 == d;
  }

  lemma {:induction false} LastDigitOf(s: Bytes) returns (front: Bytes, d: nat)
    requires AllDigits(s) && s != []
    ensures AllDigits(front) && |front| == |s| - 1 && d < 10 && s == front + [48 + d as bv8]
    ensures Number(s) == Number(front) * 10 + d
  {
    front, d := s[..|s| - 1], (s[|s| - 1] - 48) as nat;
    DigitBack(s[|s| - 1]);
  }

  lemma {:induction false} DigitsPrint(s: Bytes)
    requires AllDigits(s)
    ensures Number(s) < Pow10(|s|) && Print(Number(s), |s|) == s
    decreases |s|
  {
    if s != [] {
      var front, d := LastDigitOf(s);
      DigitsPrint(front);
      PrintMore(Number(front), d, |front|);
    }
  }

  lemma TimesTen(d: nat, p: nat, n: nat, last: nat)
    ensures (d * p + n) * 10 + last == d * (10 * p) + (n * 10 + last)
  {}

  lemma {:induction false} NumberFront(d: bv8, rest: Bytes)
    requires Digit(d) && AllDigits(rest)
    ensures AllDigits([d] + rest) && Number([d] + rest) == (d - 48) as nat * Pow10(|rest|) + Number(rest)
  {
    var s := [d] + rest;
    if rest == [] {
      assert s[..|s| - 1] == [] && s[|s| - 1] == d;
    } else {
      var front := rest[..|rest| - 1];
      NumberFront(d, front);
      assert s[..|s| - 1] == [d] + front && s[|s| - 1] == rest[|rest| - 1];
      TimesTen((d - 48) as nat, Pow10(|front|), Number(front), (rest[|rest| - 1] - 48) as nat);
    }
  }

  /** The digits after the point. */
  lemma {:induction false} FractionReads(s: Bytes)
    requires AllDigits(s)
    ensures Fraction(s) == Number(s) as real / Pow10(|s|) as real
  {
    if s != [] {
      var d, rest := s[0], s[1..];
      assert s == [d] + rest && AllDigits(rest);
      FractionReads(rest);
      NumberFront(d, rest);
      Tenth((d - 48) as int, Number(rest), Pow10(|rest|));
    }
  }

  lemma Tenth(d: int, n: nat, p: nat)
    requires p > 0
    ensures (d as real + n as real / p as real) / 10.0 == (d * p + n) as real / (10 * p) as real
  {
    assert (d * p + n) as real == d as real * p as real + n as real;
    assert (10 * p) as real == 10.0 * p as real;
  }

  // --- white space around a field -----------------------------------------------------------------------

  predicate White(s: Bytes) { forall i :: 0 <= i < |s| ==> Space(s[i]) }

  lemma {:induction false} StripsLeft(before: Bytes, x: Bytes)
    requires White(before) && x != [] && !Space(x[0])
    ensures LStrip(before + x) == x
  {
    var s := before + x;
    if before != [] {
      assert s[0] == before[0] && s[1..] == before[1..] + x;
      StripsLeft(before[1..], x);
    } else {
      assert s == x;
    }
  }

  lemma {:induction false} StripsRight(x: Bytes, after: Bytes)
    requires White(after) && x != [] && !Space(x[|x| - 1])
    ensures RStrip(x + after) == x
  {
    var s := x + after;
    if after != [] {
      assert s[|s| - 1] == after[|after| - 1] && s[..|s| - 1] == x + after[..|after| - 1];
      StripsRight(x, after[..|after| - 1]);
    } else {
      assert s == x;
    }
  }

  /** White space around a field goes, and nothing else. */
  lemma {:induction false} Strips(before: Bytes, x: Bytes, after: Bytes)
    requires White(before) && White(after) && x != [] && !Space(x[0]) && !Space(x[|x| - 1])
    ensures Strip(before + x + after) == x
  {
    assert before + x + after == before + (x + after);
    StripsLeft(before, x + after);
    StripsRight(x, after);
  }

  lemma {:induction false} LStripLeaves(s: Bytes) returns (before: Bytes)
    ensures White(before) && s == before + LStrip(s) && (LStrip(s) != [] ==> !Space(LStrip(s)[0]))
  {
    before := [];
    if s != [] && Space(s[0]) {
      var more := LStripLeaves(s[1..]);
      before := [s[0]] + more;
      assert s == [s[0]] + s[1..];
    }
  }

  lemma {:induction false} RStripLeaves(s: Bytes) returns (after: Bytes)
    ensures White(after) && s == RStrip(s) + after
  {
    after := [];
    if s != [] && Space(s[|s| - 1]) {
      var more := RStripLeaves(s[..|s| - 1]);
      after := more + [s[|s| - 1]];
      assert s == s[..|s| - 1] + [s[|s| - 1]];
    }
  }

  lemma {:induction false} StripLeaves(s: Bytes) returns (before: Bytes, after: Bytes)
    ensures White(before) && White(after) && s == before + Strip(s) + after
  {
    before := LStripLeaves(s);
    after := RStripLeaves(LStrip(s));
  }

  // --- coordinates --------------------------------------------------------------------------------------

  /** `units` of 10^-k minutes, after `deg` degrees in `head` digits: ddmm.mmmm or dddmm.mmmm. */
  function CoordText(head: nat, deg: nat, units: nat, k: nat, dot: bool): Bytes
  {
    Print(deg, head) + Print(Whole(units, Pow10(k)), 2) + (if dot then [DOT] + Print(Rest(units, Pow10(k)), k) else [])
  }

  function Whole(units: nat, p: nat): nat
    requires p > 0
  {
    units / p
  }

  function Rest(units: nat, p: nat): nat
    requires p > 0
  {
    units % p
  }

  predicate CoordParts(head: nat, deg: nat, units: nat, k: nat, dot: bool)
  {
    deg < Pow10(head) && units < 100 * Pow10(k) && (dot || k == 0)
  }

  function DegreesAndMinutes(deg: nat, units: nat, k: nat): real
  {
    deg as real + units as real / Pow10(k) as real / 60.0
  }

  lemma WholeAndRest(n: nat, p: nat)
    requires p > 0
    ensures Whole(n, p) as real + Rest(n, p) as real / p as real == n as real / p as real
  {
    assert n == (n / p) * p + n % p;
    assert n as real == (n / p) as real * p as real + (n % p) as real;
  }

  /** Degrees, whole minutes and what follows the point, put together. */
  lemma {:induction false} PartsFit(a: Bytes, b: Bytes, tail: Bytes)
    requires AllDigits(a) && AllDigits(b)
    ensures var t, n := a + b + tail, |a| + |b|;
      |t| == n + |tail| && t[..n] == a + b && t[n..] == tail && t[..n][..|a|] == a && t[..n][|a|..] == b &&
      AllDigits(t[..n])
  {}

  lemma {:induction false} PartsWellFormed(a: Bytes, b: Bytes, c: Bytes, dot: bool)
    requires AllDigits(a) && AllDigits(b) && AllDigits(c) && |b| == 2
    ensures var t := a + b + (if dot then [DOT] + c else []);
      WellFormed(t, |a|) && t[..|a| + 2][..|a|] == a &&
      Minutes(t, |a|) == Number(b) as real + if dot then Fraction(c) else 0.0
  {
    var tail := if dot then [DOT] + c else [];
    var t, n := a + b + tail, |a| + 2;
    PartsFit(a, b, tail);
    if dot {
      assert t[n] == DOT;
      assert t[n + 1..] == c;
    }
  }

  lemma {:induction false} PartsEnds(a: Bytes, b: Bytes, c: Bytes, dot: bool)
    requires AllDigits(a) && AllDigits(b) && AllDigits(c) && |b| == 2 && a != []
    ensures var t := a + b + (if dot then [DOT] + c else []);
      t != [] && !Space(t[0]) && !Space(t[|t| - 1])
  {
    var t := a + b + (if dot then [DOT] + c else []);
    assert t[0] == a[0] && Digit(a[0]);
    assert t[|t| - 1] == if !dot then b[1] else if c == [] then DOT else c[|c| - 1];
  }

  lemma Hundred()
    ensures Pow10(2) == 100
  {
    assert Pow10(2) == 10 * Pow10(1) && Pow10(1) == 10 * Pow10(0);
  }

  lemma AtLeast(x: nat, y: nat, p: nat)
    requires x >= y
    ensures x * p >= y * p
  {}

  lemma MinutesSplit(units: nat, p: nat)
    requires p > 0 && units < 100 * p
    ensures Whole(units, p) < 100 && Rest(units, p) < p
  {
    assert units == (units / p) * p + units % p;
    if units / p >= 100 { AtLeast(units / p, 100, p); }
  }

  lemma {:induction false} CoordTextReads(head: nat, deg: nat, units: nat, k: nat, dot: bool)
    requires CoordParts(head, deg, units, k, dot) && head > 0
    ensures var t := CoordText(head, deg, units, k, dot);
      WellFormed(t, head) && Minutes(t, head) == units as real / Pow10(k) as real &&
      AllDigits(t[..head + 2][..head]) && Number(t[..head + 2][..head]) == deg &&
      t != [] && !Space(t[0]) && !Space(t[|t| - 1])
  {
    var p := Pow10(k);
    var a, b, c := Print(deg, head), Print(Whole(units, p), 2), Print(Rest(units, p), k);
    Hundred();
    MinutesSplit(units, p);
    PrintReads(deg, head);
    PrintReads(Whole(units, p), 2);
    PrintReads(Rest(units, p), k);
    PartsWellFormed(a, b, c, dot);
    PartsEnds(a, b, c, dot);
    FractionReads(c);
    WholeAndRest(units, p);
  }

  lemma SameQuotient(q: nat, m: nat, whole: nat, rest: nat, p: nat)
    requires rest < p && m < p && q * p + m == whole * p + rest
    ensures q == whole && m == rest
  {
    if q > whole { AtLeast(q, whole + 1, p); }
    if q < whole { AtLeast(whole, q + 1, p); }
  }

  lemma DivMod(n: nat, p: nat)
    requires p > 0
    ensures Whole(n, p) * p + Rest(n, p) == n && Rest(n, p) < p
  {}

  lemma JoinDigits(whole: nat, rest: nat, p: nat) returns (n: nat)
    requires rest < p && whole < 100
    ensures Whole(n, p) == whole && Rest(n, p) == rest && n < 100 * p
  {
    n := whole * p + rest;
    DivMod(n, p);
    SameQuotient(Whole(n, p), Rest(n, p), whole, rest, p);
    AtLeast(99, whole, p);
  }

  lemma {:induction false} DigitsJoin(a: Bytes, b: Bytes, c: Bytes, dot: bool) returns (units: nat)
    requires AllDigits(a) && AllDigits(b) && AllDigits(c) && |b| == 2 && (dot || c == [])
    ensures CoordParts(|a|, Number(a), units, |c|, dot)
    ensures CoordText(|a|, Number(a), units, |c|, dot) == a + b + (if dot then [DOT] + c else [])
  {
    DigitsPrint(a);
    DigitsPrint(b);
    DigitsPrint(c);
    Hundred();
    units := JoinDigits(Number(b), Number(c), Pow10(|c|));
  }

  /** Every well-formed field is a print. */
  lemma {:induction false} WellFormedIsPrinted(t: Bytes, head: nat)
    returns (deg: nat, units: nat, k: nat, dot: bool)
    requires WellFormed(t, head)
    ensures CoordParts(head, deg, units, k, dot) && t == CoordText(head, deg, units, k, dot)
  {
    var a, b, c;
    a, b, c, dot := PartsBack(t, head);
    units := DigitsJoin(a, b, c, dot);
    deg, k := Number(a), |c|;
  }

  lemma {:induction false} PartsBack(t: Bytes, head: nat) returns (a: Bytes, b: Bytes, c: Bytes, dot: bool)
    requires WellFormed(t, head)
    ensures AllDigits(a) && AllDigits(b) && AllDigits(c) && |a| == head && |b| == 2 && (dot || c == [])
    ensures t == a + b + (if dot then [DOT] + c else [])
  {
    var n := head + 2;
    dot := |t| > n;
    a, b, c := t[..n][..head], t[..n][head..], if dot then t[n + 1..] else [];
    assert t[..n] == a + b;
    assert t == t[..n] + t[n..];
    assert |t| > n ==> t[n..] == [DOT] + t[n + 1..];
  }

  // --- reading them ---------------------------------------------------------------------------------------

  const NORTH: seq<bv8> := [78, 110, 69, 101]    // N n E e
  const SOUTH: seq<bv8> := [83, 115, 87, 119]    // S s W w

  /** What a field and a hemisphere letter stand for, or None. */
  function Signed(deg: nat, units: nat, k: nat, letter: bv8, limit: real): Option<real>
  {
    var size := DegreesAndMinutes(deg, units, k);
    if units >= 60 * Pow10(k) || size > limit then None
    else if letter in NORTH then Some(size)
    else if letter in SOUTH then Some(-size)
    else None
  }

  lemma OneLetter(h: bv8)
    ensures (Upper([h]) == Ascii("N") || Upper([h]) == Ascii("E")) <==> h in NORTH
    ensures (Upper([h]) == Ascii("S") || Upper([h]) == Ascii("W")) <==> h in SOUTH
  {
    assert Ascii("N") == [78] && Ascii("E") == [69] && Ascii("S") == [83] && Ascii("W") == [87];
    assert Upper([h]) == [if 97 <= h <= 122 then h - 32 else h];
  }

  function Limit(isLat: bool): real { if isLat then 90.0 else 180.0 }
  function Head(isLat: bool): nat { if isLat then 2 else 3 }

  /** Degrees and minutes, and a hemisphere. */
  lemma {:induction false} CoordOf(value: Bytes, hemi: Bytes, isLat: bool, deg: nat, minutes: real)
    requires var t, head := Strip(value), Head(isLat);
      WellFormed(t, head) && Minutes(t, head) == minutes && AllDigits(t[..head + 2][..head]) &&
      Number(t[..head + 2][..head]) == deg
    ensures Coord(value, hemi, isLat) ==
      var size, h := deg as real + minutes / 60.0, Upper(Strip(hemi));
      if minutes >= 60.0 || size > Limit(isLat) then None
      else if h == Ascii("S") || h == Ascii("W") then Some(-size)
      else if h == Ascii("N") || h == Ascii("E") then Some(size)
      else None
  {}

  lemma LettersApart(letter: bv8)
    requires letter in NORTH
    ensures letter !in SOUTH
  {}

  /** Degrees and minutes, and a hemisphere of one letter. */
  lemma {:induction false} CoordIs(value: Bytes, hemi: Bytes, isLat: bool, deg: nat, minutes: real, letter: bv8)
    requires Strip(hemi) == [letter]
    requires var t, head := Strip(value), Head(isLat);
      WellFormed(t, head) && Minutes(t, head) == minutes && AllDigits(t[..head + 2][..head]) &&
      Number(t[..head + 2][..head]) == deg
    ensures Coord(value, hemi, isLat) ==
      var size := deg as real + minutes / 60.0;
      if minutes >= 60.0 || size > Limit(isLat) then None
      else if letter in NORTH then Some(size)
      else if letter in SOUTH then Some(-size)
      else None
  {
    CoordOf(value, hemi, isLat, deg, minutes);
    OneLetter(letter);
    if letter in NORTH { LettersApart(letter); }
  }

  /** The value law: d degrees and m minutes as printed, with a hemisphere letter. */
  lemma {:induction false} CoordReads(value: Bytes, hemi: Bytes, isLat: bool, deg: nat, units: nat, k: nat, dot: bool,
                                      letter: bv8)
    requires Strip(value) == CoordText(Head(isLat), deg, units, k, dot) && CoordParts(Head(isLat), deg, units, k, dot)
    requires Strip(hemi) == [letter]
    ensures Coord(value, hemi, isLat) == Signed(deg, units, k, letter, Limit(isLat))
  {
    CoordTextReads(Head(isLat), deg, units, k, dot);
    CoordIs(value, hemi, isLat, deg, units as real / Pow10(k) as real, letter);
    SixtyMinutes(units, Pow10(k));
  }

  lemma SixtyMinutes(units: nat, p: nat)
    requires p > 0
    ensures units as real / p as real >= 60.0 <==> units >= 60 * p
  {
    var x := units as real / p as real;
    assert x * p as real == units as real;
    if x >= 60.0 { assert x * p as real >= 60.0 * p as real; }
    if x < 60.0 { assert x * p as real < 60.0 * p as real; }
  }

  /** Nothing else is a coordinate. */
  lemma {:induction false} OnlyPrintsRead(value: Bytes, hemi: Bytes, isLat: bool)
    returns (deg: nat, units: nat, k: nat, dot: bool, letter: bv8)
    requires Coord(value, hemi, isLat).Some?
    ensures Strip(value) == CoordText(Head(isLat), deg, units, k, dot) && CoordParts(Head(isLat), deg, units, k, dot)
    ensures Strip(hemi) == [letter] && Coord(value, hemi, isLat) == Signed(deg, units, k, letter, Limit(isLat))
  {
    deg, units, k, dot := WellFormedIsPrinted(Strip(value), Head(isLat));
    letter := Strip(hemi)[0];
    assert |Upper(Strip(hemi))| == |Strip(hemi)|;
    assert Strip(hemi) == [letter];
    CoordReads(value, hemi, isLat, deg, units, k, dot, letter);
  }

  // --- a whole sentence ---------------------------------------------------------------------------------

  function HexChar(n: bv8): bv8 { if n < 10 then 48 + n else 55 + n }
  function HexText(b: bv8): Bytes { [HexChar(b >> 4), HexChar(b & 15)] }

  lemma HexReads(b: bv8)
    ensures HexByte(HexText(b)[0], HexText(b)[1]) == Some(b)
    ensures COMMA !in HexText(b) && STAR !in HexText(b)
  {}

  /** A checksum of one digit may be padded on either side, or signed; a minus sign only for zero. */
  lemma OneDigitReads(a: bv8, b: bv8)
    ensures HexDigit(a).None? && HexDigit(b).Some? ==>
      HexByte(a, b) == if a in [9, 10, 11, 12, 13, 32, 43] || (a == 45 && b == 48) then HexDigit(b) else None
    ensures HexDigit(a).Some? && HexDigit(b).None? ==>
      HexByte(a, b) == if b in [9, 10, 11, 12, 13, 32] then HexDigit(a) else None
  {}

  /** The fields, with commas between them. */
  function Commas(fs: seq<Bytes>): Bytes
  {
    if fs == [] then [] else if |fs| == 1 then fs[0] else fs[0] + [COMMA] + Commas(fs[1..])
  }

  /** `$field,field,...*HH`. */
  function Line(fs: seq<Bytes>): Bytes { [DOLLAR] + Commas(fs) + [STAR] + HexText(Xor(Commas(fs))) }

  predicate Plain(fs: seq<Bytes>) { forall i :: 0 <= i < |fs| ==> COMMA !in fs[i] && STAR !in fs[i] }
  predicate NoCommas(fs: seq<Bytes>) { forall i :: 0 <= i < |fs| ==> COMMA !in fs[i] }

  lemma {:induction false} FieldsOfOne(x: Bytes)
    requires COMMA !in x
    ensures Fields(x) == [x]
  {
    if x != [] {
      assert x == [x[0]] + x[1..];
      FieldsOfOne(x[1..]);
    }
  }

  lemma {:induction false} FieldsAfter(x: Bytes, rest: Bytes)
    requires COMMA !in x
    ensures Fields(x + [COMMA] + rest) == [x] + Fields(rest)
  {
    var s := x + [COMMA] + rest;
    if x == [] {
      assert s[1..] == rest;
    } else {
      assert x == [x[0]] + x[1..] && s[1..] == x[1..] + [COMMA] + rest;
      FieldsAfter(x[1..], rest);
    }
  }

  lemma {:induction false} FieldsRead(fs: seq<Bytes>)
    requires fs != [] && NoCommas(fs)
    ensures Fields(Commas(fs)) == fs
  {
    if |fs| == 1 {
      FieldsOfOne(fs[0]);
    } else {
      FieldsRead(fs[1..]);
      FieldsAfter(fs[0], Commas(fs[1..]));
    }
  }

  lemma {:induction false} CommasPrepend(x: Bytes, fs: seq<Bytes>)
    requires fs != []
    ensures Commas(fs[0 := x + fs[0]]) == x + Commas(fs)
  {
    var gs := fs[0 := x + fs[0]];
    if |fs| > 1 { assert gs[1..] == fs[1..]; }
  }

  lemma {:induction false} CommasAppend(fs: seq<Bytes>, x: Bytes)
    requires fs != []
    ensures Commas(fs[|fs| - 1 := fs[|fs| - 1] + x]) == Commas(fs) + x
  {
    var n := |fs| - 1;
    var gs := fs[n := fs[n] + x];
    if |fs| > 1 {
      CommasAppend(fs[1..], x);
      assert gs[1..] == fs[1..][n - 1 := fs[1..][n - 1] + x];
    }
  }

  /** The dollar sign goes with the first field, the checksum with the last. */
  lemma {:induction false} LineFields(fs: seq<Bytes>)
    requires |fs| > 1 && Plain(fs)
    ensures var f, n := Fields(Line(fs)), |fs| - 1;
      |f| == |fs| && f[0] == [DOLLAR] + fs[0] && f[n] == fs[n] + ([STAR] + HexText(Xor(Commas(fs)))) &&
      forall i :: 0 < i < n ==> f[i] == fs[i]
  {
    var n, end := |fs| - 1, [STAR] + HexText(Xor(Commas(fs)));
    HexReads(Xor(Commas(fs)));
    var gs := fs[n := fs[n] + end];
    CommasAppend(fs, end);
    CommasPrepend([DOLLAR], gs);
    var hs := gs[0 := [DOLLAR] + gs[0]];
    assert Line(fs) == [DOLLAR] + (Commas(fs) + end);
    FieldsRead(hs);
  }

  lemma {:induction false} NoStars(fs: seq<Bytes>)
    requires Plain(fs)
    ensures STAR !in Commas(fs)
  {
    if |fs| > 1 { NoStars(fs[1..]); }
  }

  /** A printed sentence passes its checksum. */
  lemma {:induction false} ChecksumPasses(fs: seq<Bytes>)
    requires Plain(fs)
    ensures ChecksumOk(Line(fs))
  {
    var body := Commas(fs);
    var hex := HexText(Xor(body));
    var line := Line(fs);
    NoStars(fs);
    HexReads(Xor(body));
    assert line[1..] == body + [STAR] + hex;
    assert line[1..][..|body|] == body && line[1..][|body|] == STAR;
    StarFound(line[1..], |body|);
    assert line[|body| + 2..] == hex;
  }

  // --- navigation sentences -----------------------------------------------------------------------------

  const GNS_LETTERS: seq<bv8> := [78, 65, 69, 68, 70, 77, 80, 82, 83]    // N A E D F M P R S

  /** The fields of a navigation sentence in their order, and what follows them. */
  function NavFields(kind: NavKind, talker: Bytes, time: Bytes, lat: Bytes, ns: Bytes, lon: Bytes, ew: Bytes,
                     status: Bytes, more: seq<Bytes>): seq<Bytes>
  {
    match kind
    case Gga => [talker + Ascii("GGA"), time, lat, ns, lon, ew, status] + more
    case Rmc => [talker + Ascii("RMC"), time, status, lat, ns, lon, ew] + more
    case Gll => [talker + Ascii("GLL"), lat, ns, lon, ew, time, status] + more
    case Gns => [talker + Ascii("GNS"), time, lat, ns, lon, ew, status] + more
  }

  /** Whether a trimmed status claims a fix: None where it is no status of the sentence. */
  function Claims(kind: NavKind, st: Bytes): Option<bool>
  {
    match kind
    case Gga => if st == [] || !AllDigits(st) || Number(st) > 8 then None else Some(st != [48])
    case Gns =>
      if st == [] || exists i :: 0 <= i < |st| && st[i] !in GNS_LETTERS && st[i] - 32 !in GNS_LETTERS then None
      else Some(exists i :: 0 <= i < |st| && st[i] != 78 && st[i] != 110)
    case _ => if st in [[65], [97]] then Some(true) else if st in [[86], [118]] then Some(false) else None
  }

  lemma UpperLetter(s: Bytes, letter: bv8)
    requires 65 <= letter <= 90
    ensures Upper(s) == [letter] <==> s == [letter] || s == [letter + 32]
  {
    assert |Upper(s)| == |s|;
    if |s| == 1 {
      assert Upper(s)[0] == if 97 <= s[0] <= 122 then s[0] - 32 else s[0];
      UpperByte(s[0], letter);
      assert Upper(s) == [Upper(s)[0]] && s == [s[0]];
    }
  }

  lemma UpperByte(b: bv8, letter: bv8)
    requires 65 <= letter <= 90
    ensures (if 97 <= b <= 122 then b - 32 else b) == letter <==> b == letter || b == letter + 32
  {}

  lemma GnsByte(b: bv8)
    ensures var u := if 97 <= b <= 122 then b - 32 else b;
      (u in GNS_LETTERS <==> b in GNS_LETTERS || b - 32 in GNS_LETTERS) && (u == 78 <==> b == 78 || b == 110)
  {}

  lemma AsciiLetters()
    ensures Ascii("N") == [78] && Ascii("S") == [83] && Ascii("E") == [69] && Ascii("W") == [87]
    ensures Ascii("A") == [65] && Ascii("V") == [86] && Ascii("0") == [48]
  {}

  lemma GnsLetters()
    ensures GNS_MODES == GNS_LETTERS
  {
    var s := "NAEDFMPRS";
    assert |GNS_MODES| == 9 && |GNS_LETTERS| == 9;
    forall i | 0 <= i < 9 ensures GNS_MODES[i] == GNS_LETTERS[i] {
      assert GNS_MODES[i] == s[i] as bv8;
      assert s[i] as int == GNS_LETTERS[i] as int;
    }
  }

  /** The trimmed modes of a GNS sentence, in either case. */
  lemma {:induction false} GnsModes(st: Bytes)
    ensures (exists i :: 0 <= i < |Upper(st)| && Upper(st)[i] !in GNS_MODES) <==>
      exists i :: 0 <= i < |st| && st[i] !in GNS_LETTERS && st[i] - 32 !in GNS_LETTERS
    ensures (exists i :: 0 <= i < |Upper(st)| && Upper(st)[i] != 78) <==>
      exists i :: 0 <= i < |st| && st[i] != 78 && st[i] != 110
  {
    GnsLetters();
    forall i | 0 <= i < |st|
      ensures Upper(st)[i] in GNS_MODES <==> st[i] in GNS_LETTERS || st[i] - 32 in GNS_LETTERS
      ensures Upper(st)[i] == 78 <==> st[i] == 78 || st[i] == 110
    {
      GnsByte(st[i]);
    }
  }

  /** Where the status and the latitude of a sentence stand. */
  function StatusAt(kind: NavKind): nat { if kind == Rmc then 2 else 6 }
  function LatAt(kind: NavKind): nat { if kind == Rmc then 3 else if kind == Gll then 1 else 2 }

  lemma {:induction false} QualityClaims(line: Bytes)
    requires ChecksumOk(line) && KindOf(line) == Some(Gga) && 6 < |Fields(line)|
    ensures var f := Fields(line);
      Classify(line) ==
      match Claims(Gga, Strip(f[6])) case None => (false, false) case Some(fix) => (true, fix && CoordsPresent(f, 2))
  {
    AsciiLetters();
  }

  lemma {:induction false} ModesClaim(line: Bytes)
    requires ChecksumOk(line) && KindOf(line) == Some(Gns) && 6 < |Fields(line)|
    ensures var f := Fields(line);
      Classify(line) ==
      match Claims(Gns, Strip(f[6])) case None => (false, false) case Some(fix) => (true, fix && CoordsPresent(f, 2))
  {
    var st := Strip(Fields(line)[6]);
    GnsModes(st);
    assert |Upper(st)| == |st|;
  }

  lemma {:induction false} LetterClaims(f: seq<Bytes>, at: nat, lat: nat)
    requires at < |f|
    ensures Status(f, at, lat) ==
      match Claims(Rmc, Strip(f[at])) case None => (false, false) case Some(fix) => (true, fix && CoordsPresent(f, lat))
  {
    AsciiLetters();
    UpperLetter(Strip(f[at]), 65);
    UpperLetter(Strip(f[at]), 86);
  }

  lemma {:induction false} StatusClaims(line: Bytes, kind: NavKind)
    requires ChecksumOk(line) && KindOf(line) == Some(kind) && StatusAt(kind) < |Fields(line)|
    ensures var f := Fields(line);
      Classify(line) ==
      match Claims(kind, Strip(f[StatusAt(kind)]))
      case None => (false, false)
      case Some(fix) => (true, fix && CoordsPresent(f, LatAt(kind)))
  {
    match kind
    case Gga => QualityClaims(line);
    case Gns => ModesClaim(line);
    case _ =>
      LetterClaims(Fields(line), StatusAt(kind), LatAt(kind));
      ByLetter(line, kind);
  }

  lemma {:induction false} ByLetter(line: Bytes, kind: NavKind)
    requires ChecksumOk(line) && KindOf(line) == Some(kind) && (kind == Rmc || kind == Gll)
    ensures Classify(line) == Status(Fields(line), StatusAt(kind), LatAt(kind))
    ensures forall st :: Claims(kind, st) == Claims(Rmc, st)
  {}

  function NameOf(kind: NavKind): Bytes
  {
    match kind
    case Gga => Ascii("GGA")
    case Rmc => Ascii("RMC")
    case Gll => Ascii("GLL")
    case Gns => Ascii("GNS")
  }

  lemma Names(kind: NavKind)
    ensures NameOf(kind) == match kind
            case Gga => [71, 71, 65]
            case Rmc => [82, 77, 67]
            case Gll => [71, 76, 76]
            case Gns => [71, 78, 83]
  {}

  lemma {:induction false} StartsWithFirst(fs: seq<Bytes>)
    requires fs != []
    ensures fs[0] <= Commas(fs)
  {}

  /** Bytes 3 to 5 name the sentence. */
  lemma {:induction false} NameReads(fs: seq<Bytes>, talker: Bytes, name: Bytes)
    requires fs != [] && |talker| == 2 && |name| == 3 && fs[0] == talker + name
    ensures |Line(fs)| >= 9 && Line(fs)[3..6] == name && Line(fs)[1..3] == talker
  {
    StartsWithFirst(fs);
    var line := Line(fs);
    assert forall i :: 0 <= i < 5 ==> line[i + 1] == Commas(fs)[i] == fs[0][i];
  }

  /** A sentence whose fields hold neither a comma nor a star, and with something after the named ones. */
  predicate NavParts(talker: Bytes, time: Bytes, lat: Bytes, ns: Bytes, lon: Bytes, ew: Bytes, status: Bytes,
                     more: seq<Bytes>)
  {
    |talker| == 2 && Plain([talker, time, lat, ns, lon, ew, status]) && Plain(more)
  }

  lemma PlainJoin(a: seq<Bytes>, b: seq<Bytes>)
    requires Plain(a) && Plain(b)
    ensures Plain(a + b)
  {}

  lemma PlainName(talker: Bytes, kind: NavKind)
    requires Plain([talker])
    ensures COMMA !in talker + NameOf(kind) && STAR !in talker + NameOf(kind)
  {
    assert [talker][0] == talker;
    Names(kind);
  }

  /** The seven named fields. */
  function Named(kind: NavKind, talker: Bytes, time: Bytes, lat: Bytes, ns: Bytes, lon: Bytes, ew: Bytes,
                 status: Bytes): seq<Bytes>
  {
    NavFields(kind, talker, time, lat, ns, lon, ew, status, [])
  }

  lemma {:induction false} NamedPlain(kind: NavKind, talker: Bytes, time: Bytes, lat: Bytes, ns: Bytes, lon: Bytes,
                                      ew: Bytes, status: Bytes)
    requires Plain([talker, time, lat, ns, lon, ew, status])
    ensures var fs := Named(kind, talker, time, lat, ns, lon, ew, status);
      Plain(fs) && |fs| == 7 && fs[0] == talker + NameOf(kind) && fs[StatusAt(kind)] == status &&
      fs[LatAt(kind)] == lat && fs[LatAt(kind) + 1] == ns && fs[LatAt(kind) + 2] == lon && fs[LatAt(kind) + 3] == ew
  {
    var parts := [talker, time, lat, ns, lon, ew, status];
    assert parts[0] == talker && parts[1] == time && parts[2] == lat && parts[3] == ns && parts[4] == lon &&
      parts[5] == ew && parts[6] == status;
    PlainName(talker, kind);
  }

  /** The sentence is known by its name, and its fields are where they were put. */
  lemma {:induction false} FieldsStay(named: seq<Bytes>, more: seq<Bytes>, talker: Bytes, kind: NavKind)
    requires Plain(named) && Plain(more) && |named| == 7 && more != [] && |talker| == 2
    requires named[0] == talker + NameOf(kind)
    ensures var line := Line(named + more);
      ChecksumOk(line) && KindOf(line) == Some(kind) && |Fields(line)| == 7 + |more| &&
      forall i :: 0 < i < 7 ==> Fields(line)[i] == named[i]
  {
    var fs := named + more;
    PlainJoin(named, more);
    LineFields(fs);
    ChecksumPasses(fs);
    KnownByName(fs, talker, kind);
  }

  lemma {:induction false} LaterFieldStays(named: seq<Bytes>, more: seq<Bytes>, k: nat)
    requires Plain(named) && Plain(more) && |named| == 7 && k < |more| - 1
    ensures |Fields(Line(named + more))| == 7 + |more| && Fields(Line(named + more))[7 + k] == more[k]
  {
    PlainJoin(named, more);
    LineFields(named + more);
  }

  lemma {:induction false} KnownByName(fs: seq<Bytes>, talker: Bytes, kind: NavKind)
    requires fs != [] && |talker| == 2 && fs[0] == talker + NameOf(kind)
    ensures KindOf(Line(fs)) == Some(kind)
  {
    Names(Gga);
    Names(Rmc);
    Names(Gll);
    Names(Gns);
    NameReads(fs, talker, NameOf(kind));
  }

  lemma {:induction false} NavFieldsRead(kind: NavKind, talker: Bytes, time: Bytes, lat: Bytes, ns: Bytes, lon: Bytes,
                                         ew: Bytes, status: Bytes, more: seq<Bytes>)
    requires NavParts(talker, time, lat, ns, lon, ew, status, more) && more != []
    ensures var line := Line(NavFields(kind, talker, time, lat, ns, lon, ew, status, more));
      var f, i := Fields(line), LatAt(kind);
      ChecksumOk(line) && KindOf(line) == Some(kind) && |f| == 7 + |more| && f[StatusAt(kind)] == status &&
      f[i] == lat && f[i + 1] == ns && f[i + 2] == lon && f[i + 3] == ew
  {
    var named := Named(kind, talker, time, lat, ns, lon, ew, status);
    NamedPlain(kind, talker, time, lat, ns, lon, ew, status);
    assert NavFields(kind, talker, time, lat, ns, lon, ew, status, more) == named + more;
    FieldsStay(named, more, talker, kind);
  }

  /** The coordinate that the two fields print, with the hemisphere letters of its axis. */
  ghost predicate Prints(value: Bytes, hemi: Bytes, isLat: bool, c: real)
  {
    exists deg: nat, units: nat, k: nat, dot: bool, letter: bv8 ::
      Strip(value) == CoordText(Head(isLat), deg, units, k, dot) && CoordParts(Head(isLat), deg, units, k, dot) &&
      Strip(hemi) == [letter] && letter in (if isLat then LAT_LETTERS else LON_LETTERS) &&
      Signed(deg, units, k, letter, Limit(isLat)) == Some(c)
  }

  const LAT_LETTERS: seq<bv8> := [78, 110, 83, 115]    // N n S s
  const LON_LETTERS: seq<bv8> := [69, 101, 87, 119]    // E e W w

  lemma {:induction false} HemisphereOf(hemi: Bytes, isLat: bool)
    ensures (if isLat then Upper(Strip(hemi)) == Ascii("N") || Upper(Strip(hemi)) == Ascii("S")
             else Upper(Strip(hemi)) == Ascii("E") || Upper(Strip(hemi)) == Ascii("W")) <==>
      |Strip(hemi)| == 1 && Strip(hemi)[0] in (if isLat then LAT_LETTERS else LON_LETTERS)
  {
    var s := Strip(hemi);
    AsciiLetters();
    UpperLetter(s, 78);
    UpperLetter(s, 83);
    UpperLetter(s, 69);
    UpperLetter(s, 87);
    assert |s| == 1 ==> s == [s[0]];
  }

  /** A coordinate of its own axis is read exactly as printed. */
  lemma {:induction false} PrintsExactly(value: Bytes, hemi: Bytes, isLat: bool, c: real)
    ensures Prints(value, hemi, isLat, c) <==>
      Coord(value, hemi, isLat) == Some(c) && |Strip(hemi)| == 1 &&
      Strip(hemi)[0] in (if isLat then LAT_LETTERS else LON_LETTERS)
    ensures Prints(value, hemi, isLat, c) ==> Strip(value) != []
  {
    if Prints(value, hemi, isLat, c) {
      var deg: nat, units: nat, k: nat, dot: bool, letter: bv8 :|
        Strip(value) == CoordText(Head(isLat), deg, units, k, dot) && CoordParts(Head(isLat), deg, units, k, dot) &&
        Strip(hemi) == [letter] && letter in (if isLat then LAT_LETTERS else LON_LETTERS) &&
        Signed(deg, units, k, letter, Limit(isLat)) == Some(c);
      CoordReads(value, hemi, isLat, deg, units, k, dot, letter);
      CoordTextReads(Head(isLat), deg, units, k, dot);
    }
    if Coord(value, hemi, isLat).Some? {
      var deg, units, k, dot, letter := OnlyPrintsRead(value, hemi, isLat);
    }
  }

  /**
   What a printed navigation sentence says: nothing where its status is none; no position where it claims
   no fix; and the position of its four fields exactly where they print one.
   */
  lemma {:induction false} SentenceSays(kind: NavKind, talker: Bytes, time: Bytes, lat: Bytes, ns: Bytes, lon: Bytes,
                                        ew: Bytes, status: Bytes, more: seq<Bytes>, p: Position)
    requires NavParts(talker, time, lat, ns, lon, ew, status, more) && more != []
    ensures var said := NavOf(Line(NavFields(kind, talker, time, lat, ns, lon, ew, status, more)));
      var claim := Claims(kind, Strip(status));
      (said.None? <==> claim.None?) && (claim == Some(false) ==> said == Some(None)) &&
      (said == Some(Some(p)) <==>
         claim == Some(true) && Prints(lat, ns, true, p.lat) && Prints(lon, ew, false, p.lon))
  {
    NavFieldsRead(kind, talker, time, lat, ns, lon, ew, status, more);
    PositionSays(Line(NavFields(kind, talker, time, lat, ns, lon, ew, status, more)), kind, p);
  }

  lemma LatIndexIs(kind: NavKind)
    ensures LatIndex(kind) == LatAt(kind)
  {}

  lemma {:induction false} WhereFieldsAre(line: Bytes, kind: NavKind)
    requires KindOf(line) == Some(kind)
    ensures NavOf(line) ==
      var f, i := Fields(line), LatAt(kind);
      if !Classify(line).0 then None
      else if !Classify(line).1 then Some(None)
      else
        match (Coord(Field(f, i), Field(f, i + 1), true), Coord(Field(f, i + 2), Field(f, i + 3), false))
        case (Some(lat), Some(lon)) => Some(Some(Position(lat, lon)))
        case _ => Some(None)
  {
    LatIndexIs(kind);
  }

  /** The claim and the four fields together. */
  lemma {:induction false} PositionSays(line: Bytes, kind: NavKind, p: Position)
    requires ChecksumOk(line) && KindOf(line) == Some(kind) && LatAt(kind) + 3 < |Fields(line)|
    requires StatusAt(kind) < |Fields(line)|
    ensures var f, i, said := Fields(line), LatAt(kind), NavOf(line);
      var claim := Claims(kind, Strip(f[StatusAt(kind)]));
      (said.None? <==> claim.None?) && (claim == Some(false) ==> said == Some(None)) &&
      (said == Some(Some(p)) <==>
         claim == Some(true) && Prints(f[i], f[i + 1], true, p.lat) && Prints(f[i + 2], f[i + 3], false, p.lon))
  {
    var f, i := Fields(line), LatAt(kind);
    StatusClaims(line, kind);
    WhereFieldsAre(line, kind);
    FieldsPrint(f, i, p);
  }

  /** Four fields that are there and read as a position print it. */
  lemma {:induction false} FieldsPrint(f: seq<Bytes>, i: nat, p: Position)
    requires i + 3 < |f|
    ensures (CoordsPresent(f, i) && Coord(f[i], f[i + 1], true) == Some(p.lat) &&
             Coord(f[i + 2], f[i + 3], false) == Some(p.lon)) <==>
      Prints(f[i], f[i + 1], true, p.lat) && Prints(f[i + 2], f[i + 3], false, p.lon)
  {
    PrintsExactly(f[i], f[i + 1], true, p.lat);
    PrintsExactly(f[i + 2], f[i + 3], false, p.lon);
    HemisphereOf(f[i + 1], true);
    HemisphereOf(f[i + 3], false);
  }

  // --- what the layout hides ------------------------------------------------------------------------------

  lemma {:induction false} StarStays(s: Bytes)
    requires STAR in s
    ensures STAR in Strip(s)
  {
    var before, after := StripLeaves(s);
    assert STAR !in before && STAR !in after by { assert !Space(STAR); }
  }

  lemma StarClaimsNothing(kind: NavKind, st: Bytes)
    requires STAR in st
    ensures Claims(kind, st).None?
  {
    var i :| 0 <= i < |st| && st[i] == STAR;
    assert !Digit(STAR) && STAR !in GNS_LETTERS && STAR - 32 !in GNS_LETTERS;
  }

  /**
   The checksum stays with the last field: a sentence that ends with its status, as a GLL did before
   the mode field came, is no navigation sentence, whatever it claims.
   */
  lemma {:induction false} StatusAtTheEndIsIgnored(kind: NavKind, talker: Bytes, time: Bytes, lat: Bytes, ns: Bytes,
                                                   lon: Bytes, ew: Bytes, status: Bytes)
    requires kind != Rmc && NavParts(talker, time, lat, ns, lon, ew, status, [])
    ensures NavOf(Line(NavFields(kind, talker, time, lat, ns, lon, ew, status, []))) == None
  {
    var fs := Named(kind, talker, time, lat, ns, lon, ew, status);
    var line := Line(fs);
    NamedPlain(kind, talker, time, lat, ns, lon, ew, status);
    LineFields(fs);
    ChecksumPasses(fs);
    KnownByName(fs, talker, kind);
    StatusClaims(line, kind);
    assert STAR in [STAR] + HexText(Xor(Commas(fs)));
    StarStays(Fields(line)[6]);
    StarClaimsNothing(kind, Strip(Fields(line)[6]));
    WhereFieldsAre(line, kind);
  }

  /** The altitude: the third field after the status of a GGA or GNS, where the sentence has a position. */
  lemma {:induction false} AltitudeSays(kind: NavKind, talker: Bytes, time: Bytes, lat: Bytes, ns: Bytes, lon: Bytes,
                                        ew: Bytes, status: Bytes, more: seq<Bytes>, float: FloatField)
    requires NavParts(talker, time, lat, ns, lon, ew, status, more) && |more| > 3
    ensures var line := Line(NavFields(kind, talker, time, lat, ns, lon, ew, status, more));
      AltOf(line, float) ==
        if (kind == Gga || kind == Gns) && NavOf(line).Some? && NavOf(line).value.Some? then float(more[2]) else None
  {
    var named := Named(kind, talker, time, lat, ns, lon, ew, status);
    NamedPlain(kind, talker, time, lat, ns, lon, ew, status);
    assert NavFields(kind, talker, time, lat, ns, lon, ew, status, more) == named + more;
    FieldsStay(named, more, talker, kind);
    LaterFieldStays(named, more, 2);
    AltitudeIs(Line(named + more), kind, float);
  }

  lemma {:induction false} AltitudeIs(line: Bytes, kind: NavKind, float: FloatField)
    requires KindOf(line) == Some(kind) && |Fields(line)| > 9
    ensures AltOf(line, float) ==
      if (kind == Gga || kind == Gns) && NavOf(line).Some? && NavOf(line).value.Some? then float(Fields(line)[9])
      else None
  {}

  // --- satellites in view ---------------------------------------------------------------------------------

  /** Number, elevation, azimuth and signal strength, as printed. */
  datatype SatText = SatText(id: Bytes, el: Bytes, az: Bytes, ss: Bytes)

  function SatFields(sats: seq<SatText>): seq<Bytes>
  {
    if sats == [] then [] else [sats[0].id, sats[0].el, sats[0].az, sats[0].ss] + SatFields(sats[1..])
  }

  function GsvFields(talker: Bytes, total: Bytes, num: Bytes, count: Bytes, sats: seq<SatText>,
                     signal: Option<Bytes>): seq<Bytes>
  {
    [talker + Ascii("GSV"), total, num, count] + (SatFields(sats) + if signal.Some? then [signal.value] else [])
  }

  /** `int` of a field: its decimal digits, white space around them or not. */
  lemma {:induction false} IntReads(f: Bytes, n: nat)
    ensures IntField(f) == Some(n) <==> exists w: nat :: w > 0 && n < Pow10(w) && Strip(f) == Print(n, w)
  {
    var t := Strip(f);
    if IntField(f) == Some(n) {
      DigitsPrint(t);
      assert |t| > 0 && n < Pow10(|t|) && t == Print(n, |t|);
    }
    if w: nat :| w > 0 && n < Pow10(w) && t == Print(n, w) {
      PrintReads(n, w);
    }
  }

  /** What is out of range is left out; azimuths are taken modulo a full turn. */
  function InView(el: Option<real>, az: Option<real>, ss: Option<real>): Sat
  {
    Sat(if el.Some? && (el.value < -90.0 || el.value > 90.0) then None else el,
        if az.Some? then Some(az.value - 360.0 * (az.value / 360.0).Floor as real) else None,
        if ss.Some? && ss.value < 0.0 then None else ss)
  }

  /** The satellites with a number. */
  function Seen(sats: seq<SatText>, float: FloatField): seq<(nat, Sat)>
  {
    if sats == [] then []
    else
      var s := sats[0];
      (match IntField(s.id)
       case None => []
       case Some(n) => [(n, InView(float(s.el), float(s.az), float(s.ss)))]) +
      Seen(sats[1..], float)
  }

  lemma InViewIs(el: Option<real>, az: Option<real>, ss: Option<real>)
    ensures SatOf(el, az, ss) == InView(el, az, ss)
  {}

  lemma {:induction false} SatsCons(id: Bytes, el: Bytes, az: Bytes, ss: Bytes, rest: seq<Bytes>, float: FloatField)
    ensures SatsOf([id, el, az, ss] + rest, float) ==
      (match IntField(id) case None => [] case Some(n) => [(n, SatOf(float(el), float(az), float(ss)))]) +
      SatsOf(rest, float)
  {
    assert ([id, el, az, ss] + rest)[4..] == rest;
  }

  lemma {:induction false} SatsRead(sats: seq<SatText>, float: FloatField)
    ensures |SatFields(sats)| == 4 * |sats| && SatsOf(SatFields(sats), float) == Seen(sats, float)
  {
    if sats != [] {
      var s := sats[0];
      SatsRead(sats[1..], float);
      SatsCons(s.id, s.el, s.az, s.ss, SatFields(sats[1..]), float);
      InViewIs(float(s.el), float(s.az), float(s.ss));
    }
  }

  /** A field with the checksum cut off again. */
  lemma {:induction false} CutsChecksum(x: Bytes, hex: Bytes)
    requires STAR !in x
    ensures BeforeStar(x + ([STAR] + hex)) == x
  {
    var s := x + ([STAR] + hex);
    assert s[..|x|] == x && s[|x|] == STAR;
    StarFound(s, |x|);
  }

  /** Cutting the checksum off the last field gives back what was printed. */
  lemma {:induction false} BodyBack(f: seq<Bytes>, fs: seq<Bytes>, hex: Bytes)
    requires |f| == |fs| && |fs| >= 4 && Plain(fs)
    requires f[|f| - 1] == fs[|f| - 1] + ([STAR] + hex) && forall i :: 0 < i < |f| - 1 ==> f[i] == fs[i]
    ensures f[1] == fs[1] && f[2] == fs[2] && BeforeStar(f[3]) == fs[3]
    ensures var raw := f[4..];
      (if raw == [] then [] else raw[|raw| - 1 := BeforeStar(raw[|raw| - 1])]) == fs[4..]
  {
    CutsChecksum(fs[|f| - 1], hex);
    StarFree(fs[3]);
  }

  /** The fields of a GSV sentence, with the checksum cut off the last. */
  lemma {:induction false} GsvBody(head: seq<Bytes>, rest: seq<Bytes>, talker: Bytes)
    requires |head| == 4 && Plain(head) && Plain(rest) && |talker| == 2 && head[0] == talker + Ascii("GSV")
    ensures var line := Line(head + rest);
      var f := Fields(line);
      |line| >= 7 && ChecksumOk(line) && line[3..6] == Ascii("GSV") && line[1..3] == talker && |f| == 4 + |rest| &&
      f[1] == head[1] && f[2] == head[2] && BeforeStar(f[3]) == head[3] &&
      var raw := f[4..];
      (if raw == [] then [] else raw[|raw| - 1 := BeforeStar(raw[|raw| - 1])]) == rest
  {
    var fs := head + rest;
    PlainJoin(head, rest);
    LineFields(fs);
    ChecksumPasses(fs);
    NameReads(fs, talker, Ascii("GSV"));
    BodyBack(Fields(Line(fs)), fs, HexText(Xor(Commas(fs))));
    assert fs[4..] == rest;
  }

  lemma {:induction false} StarFree(x: Bytes)
    requires STAR !in x
    ensures BeforeStar(x) == x
  {}

  predicate SatsPlain(sats: seq<SatText>)
  {
    forall i :: 0 <= i < |sats| ==> Plain([sats[i].id, sats[i].el, sats[i].az, sats[i].ss])
  }

  lemma {:induction false} SatFieldsPlain(sats: seq<SatText>)
    requires SatsPlain(sats)
    ensures Plain(SatFields(sats))
  {
    if sats != [] {
      assert forall i :: 0 <= i < |sats[1..]| ==> sats[1..][i] == sats[i + 1];
      SatFieldsPlain(sats[1..]);
      PlainJoin([sats[0].id, sats[0].el, sats[0].az, sats[0].ss], SatFields(sats[1..]));
    }
  }

  /** The signal id is what is left over after the satellites' four fields each. */
  lemma {:induction false} BodySplits(sats: seq<SatText>, signal: Option<Bytes>, float: FloatField)
    ensures var body := SatFields(sats) + if signal.Some? then [signal.value] else [];
      var signed := body != [] && |body| % 4 == 1;
      (signed <==> signal.Some?) && (signed ==> body[|body| - 1] == signal.value) &&
      SatsOf(if signed then body[..|body| - 1] else body, float) == Seen(sats, float)
  {
    var all := SatFields(sats);
    SatsRead(sats, float);
    assert all + [] == all;
    if signal.Some? { assert (all + [signal.value])[..|all|] == all; }
  }

  /** From the fields, and the body that is left of them. */
  lemma {:induction false} SkyIs(line: Bytes, talker: Bytes, body: seq<Bytes>, total: Bytes, num: Bytes, count: Bytes,
                                 float: FloatField)
    requires |line| >= 7 && ChecksumOk(line) && line[3..6] == Ascii("GSV") && line[1..3] == talker
    requires var f := Fields(line);
      |f| >= 4 && f[1] == total && f[2] == num && BeforeStar(f[3]) == count &&
      (var raw := f[4..]; (if raw == [] then [] else raw[|raw| - 1 := BeforeStar(raw[|raw| - 1])]) == body)
    ensures var t, n, signed := IntField(total), IntField(num), body != [] && |body| % 4 == 1;
      SkyOf(line, float) ==
        if t.None? || n.None? || IntField(count).None? || n.value < 1 || n.value > t.value then None
        else Some(SkyPart(Key(Decoded(talker), if signed then IntField(body[|body| - 1]) else None), t.value, n.value,
                          SatsOf(if signed then body[..|body| - 1] else body, float)))
  {}

  /**
   A printed GSV sentence is read as the part it is of its group, with the satellites that have a number;
   one without a total, a part number within it and a count is none.
   */
  lemma {:induction false} GsvSays(talker: Bytes, total: Bytes, num: Bytes, count: Bytes, sats: seq<SatText>,
                                   signal: Option<Bytes>, float: FloatField)
    requires |talker| == 2 && Plain([talker, total, num, count]) && SatsPlain(sats)
    requires signal.Some? ==> Plain([signal.value])
    ensures var line := Line(GsvFields(talker, total, num, count, sats, signal));
      var t, n := IntField(total), IntField(num);
      SkyOf(line, float) ==
        if t.None? || n.None? || IntField(count).None? || n.value < 1 || n.value > t.value then None
        else Some(SkyPart(Key(Decoded(talker), if signal.Some? then IntField(signal.value) else None),
                          t.value, n.value, Seen(sats, float)))
  {
    var rest := SatFields(sats) + if signal.Some? then [signal.value] else [];
    SatFieldsPlain(sats);
    PlainJoin(SatFields(sats), if signal.Some? then [signal.value] else []);
    GsvLine(talker, total, num, count, rest, float);
    BodySplits(sats, signal, float);
  }

  lemma {:induction false} GsvLine(talker: Bytes, total: Bytes, num: Bytes, count: Bytes, body: seq<Bytes>,
                                   float: FloatField)
    requires |talker| == 2 && Plain([talker, total, num, count]) && Plain(body)
    ensures var line := Line([talker + Ascii("GSV"), total, num, count] + body);
      var t, n, signed := IntField(total), IntField(num), body != [] && |body| % 4 == 1;
      SkyOf(line, float) ==
        if t.None? || n.None? || IntField(count).None? || n.value < 1 || n.value > t.value then None
        else Some(SkyPart(Key(Decoded(talker), if signed then IntField(body[|body| - 1]) else None), t.value, n.value,
                          SatsOf(if signed then body[..|body| - 1] else body, float)))
  {
    var head := [talker + Ascii("GSV"), total, num, count];
    GsvHeadPlain(talker, total, num, count);
    GsvBody(head, body, talker);
    SkyIs(Line(head + body), talker, body, total, num, count, float);
  }

  lemma GsvHeadPlain(talker: Bytes, total: Bytes, num: Bytes, count: Bytes)
    requires Plain([talker, total, num, count])
    ensures Plain([talker + Ascii("GSV"), total, num, count])
  {
    var parts := [talker, total, num, count];
    assert parts[0] == talker && parts[1] == total && parts[2] == num && parts[3] == count;
    assert Ascii("GSV") == [71, 83, 86];
  }

  // --- what is reported -------------------------------------------------------------------------------------

  /**
   A printed navigation sentence fed `at` and read `now`: for twenty seconds the position its fields print,
   if it claims a fix and they print one, and otherwise none; after that it is stale.
   */
  method FeedThenRead(s: Snapshot, kind: NavKind, talker: Bytes, time: Bytes, lat: Bytes, ns: Bytes, lon: Bytes,
                      ew: Bytes, status: Bytes, more: seq<Bytes>, at: real, now: real, ghost p: Position)
    returns (r: Report)
    requires s.Valid() && NavParts(talker, time, lat, ns, lon, ew, status, more) && more != []
    modifies s
    ensures s.Valid()
    ensures Claims(kind, Strip(status)).Some? && now - at <= 20.0 ==>
      (r.pos == Some(p) <==>
         (Claims(kind, Strip(status)) == Some(true) && Prints(lat, ns, true, p.lat) &&
          Prints(lon, ew, false, p.lon))) &&
      (Claims(kind, Strip(status)) == Some(false) ==> r.pos == None && r.state == NoFix)
    ensures Claims(kind, Strip(status)).Some? && now - at > 20.0 ==> r.pos == None && r.state == Stale
  {
    var line := Line(NavFields(kind, talker, time, lat, ns, lon, ew, status, more));
    SentenceSays(kind, talker, time, lat, ns, lon, ew, status, more, p);
    ghost var h := s.history;
    s.Feed(line, at);
    assert s.history[|h|] == Fed(Parse(line, s.float), at);
    assert Parse(line, s.float).nav == NavOf(line);
    r := s.Read(now);
  }
}
