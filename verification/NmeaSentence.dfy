/**
 One NMEA 0183 sentence: its checksum, what it says about the fix, and the position it carries
 (lhpc/core/gps.py:470-542, 581-614).
 */
module NmeaSentence {
  import opened Options

  type Bytes = seq<bv8>

  function Ascii(s: string): Bytes { seq(|s|, i requires 0 <= i < |s| => if s[i] as int < 128 then s[i] as bv8 else 0) }

  const DOLLAR: bv8 := 36
  const STAR: bv8 := 42
  const COMMA: bv8 := 44
  const DOT: bv8 := 46

  // --- the checksum ----------------------------------------------------------------------------------

  function Xor(s: Bytes): bv8 { if s == [] then 0 else s[0] ^ Xor(s[1..]) }

  /** Up to the first `*`, exclusive. */
  function BeforeStar(s: Bytes): (r: Bytes)
    ensures r <= s && STAR !in r && (STAR in s ==> |r| < |s| && s[|r|] == STAR) && (STAR !in s ==> r == s)
  {
    if s == [] || s[0] == STAR then [] else assert s == [s[0]] + s[1..]; [s[0]] + BeforeStar(s[1..])
  }

  function HexDigit(b: bv8): Option<bv8>
  {
    if 48 <= b <= 57 then Some(b - 48)
    else if 65 <= b <= 70 then Some(b - 55)
    else if 97 <= b <= 102 then Some(b - 87)
    else None
  }

  predicate Space(b: bv8) { 9 <= b <= 13 || b == 32 }

  /** `int(two_bytes, 16)` where it is a byte: one digit may be padded with white space or signed. */
  function HexByte(a: bv8, b: bv8): Option<bv8>
  {
    match (HexDigit(a), HexDigit(b))
    case (Some(h), Some(l)) => Some((h << 4) | l)
    case (None, Some(l)) => if Space(a) || a == 43 || (a == 45 && l == 0) then Some(l) else None
    case (Some(h), None) => if Space(b) then Some(h) else None
    case (None, None) => None
  }

  predicate ChecksumOk(line: Bytes)
  {
    line != [] && line[0] == DOLLAR && STAR in line[1..] &&
    var body := BeforeStar(line[1..]);
    var tail := line[|body| + 2..];
    |tail| >= 2 && HexByte(tail[0], tail[1]) == Some(Xor(body))
  }

  lemma {:induction false} XorUpdated(s: Bytes, i: nat, b: bv8)
    requires i < |s|
    ensures Xor(s[i := b]) == Xor(s) ^ s[i] ^ b
  {
    var t := s[i := b];
    if i > 0 {
      assert t[1..] == s[1..][i - 1 := b];
      XorUpdated(s[1..], i - 1, b);
    } else {
      assert t[1..] == s[1..];
    }
  }

  lemma XorTells(x: bv8, a: bv8, b: bv8)
    requires a != b
    ensures x ^ a ^ b != x
  {}

  lemma {:induction false} StarFound(s: Bytes, n: nat)
    requires n < |s| && s[n] == STAR && STAR !in s[..n]
    ensures BeforeStar(s) == s[..n]
  {
    var r := BeforeStar(s);
    assert s[n] in s;
    assert r == s[..|r|];
    assert forall k :: 0 <= k < n ==> s[..n][k] == s[k];
    assert forall k :: 0 <= k < |r| ==> r[k] == s[k];
  }

  /** Any change of one byte of the payload is noticed. */
  lemma {:induction false} OneByteChangeIsNoticed(line: Bytes, i: nat, b: bv8)
    requires ChecksumOk(line) && 0 < i < |line| && i <= |BeforeStar(line[1..])| && b != line[i] && b != STAR
    ensures !ChecksumOk(line[i := b])
  {
    var body := BeforeStar(line[1..]);
    var bad := line[i := b];
    var n := |body|;
    assert bad[1..] == line[1..][i - 1 := b];
    assert forall k :: 0 <= k < n ==> bad[1..][k] == if k == i - 1 then b else body[k];
    StarFound(bad[1..], n);
    assert BeforeStar(bad[1..]) == body[i - 1 := b];
    XorUpdated(body, i - 1, b);
    XorTells(Xor(body), body[i - 1], b);
    assert bad[n + 2..] == line[n + 2..];
  }

  // --- fields ------------------------------------------------------------------------------------------

  /** `split(b",")`. */
  function Fields(s: Bytes): (r: seq<Bytes>)
    ensures r != []
  {
    if s == [] then [[]]
    else
      var r := Fields(s[1..]);
      if s[0] == COMMA then [[]] + r else [[s[0]] + r[0]] + r[1..]
  }

  function LStrip(s: Bytes): Bytes { if s != [] && Space(s[0]) then LStrip(s[1..]) else s }
  function RStrip(s: Bytes): Bytes { if s != [] && Space(s[|s| - 1]) then RStrip(s[..|s| - 1]) else s }
  function Strip(s: Bytes): Bytes { RStrip(LStrip(s)) }

  function Upper(s: Bytes): Bytes { seq(|s|, i requires 0 <= i < |s| => if 97 <= s[i] <= 122 then s[i] - 32 else s[i]) }

  predicate Digit(b: bv8) { 48 <= b <= 57 }
  predicate AllDigits(s: Bytes) { forall i :: 0 <= i < |s| ==> Digit(s[i]) }

  function Number(s: Bytes): nat
    requires AllDigits(s)
  {
    if s == [] then 0 else Number(s[..|s| - 1]) * 10 + (s[|s| - 1] - 48) as nat
  }

  /** `_nmea_int`. */
  function IntField(f: Bytes): Option<nat>
  {
    var t := Strip(f);
    if t != [] && AllDigits(t) then Some(Number(t)) else None
  }

  /** Field `i`, empty where the sentence ends before it. */
  function Field(f: seq<Bytes>, i: nat): Bytes { if i < |f| then f[i] else [] }

  // --- navigation sentences ------------------------------------------------------------------------------

  datatype NavKind = Gga | Rmc | Gll | Gns

  function KindOf(line: Bytes): Option<NavKind>
  {
    if |line| < 7 then None
    else
      var k := line[3..6];
      if k == Ascii("GGA") then Some(Gga)
      else if k == Ascii("RMC") then Some(Rmc)
      else if k == Ascii("GLL") then Some(Gll)
      else if k == Ascii("GNS") then Some(Gns)
      else None
  }

  function LatIndex(k: NavKind): nat
  {
    match k
    case Gga => 2
    case Rmc => 3
    case Gll => 1
    case Gns => 2
  }

  predicate CoordsPresent(f: seq<Bytes>, i: nat)
  {
    i + 3 < |f| && Strip(f[i]) != [] && Strip(f[i + 2]) != [] &&
    (Upper(Strip(f[i + 1])) == Ascii("N") || Upper(Strip(f[i + 1])) == Ascii("S")) &&
    (Upper(Strip(f[i + 3])) == Ascii("E") || Upper(Strip(f[i + 3])) == Ascii("W"))
  }

  const GNS_MODES := Ascii("NAEDFMPRS")

  /** (is navigation, has a fix). */
  function Classify(line: Bytes): (bool, bool)
  {
    var f := Fields(line);
    if !ChecksumOk(line) then (false, false)
    else
      match KindOf(line)
      case None => (false, false)
      case Some(Gga) =>
        var q := Strip(Field(f, 6));
        if |f| <= 6 || q == [] || !AllDigits(q) || Number(q) > 8 then (false, false)
        else (true, q != Ascii("0") && CoordsPresent(f, 2))
      case Some(Rmc) => Status(f, 2, 3)
      case Some(Gll) => Status(f, 6, 1)
      case Some(Gns) =>
        var mode := Upper(Strip(Field(f, 6)));
        if |f| <= 6 || mode == [] || exists i :: 0 <= i < |mode| && mode[i] !in GNS_MODES then (false, false)
        else (true, (exists i :: 0 <= i < |mode| && mode[i] != 78) && CoordsPresent(f, 2))
  }

  /** The `A`/`V` status of RMC and GLL. */
  function Status(f: seq<Bytes>, at: nat, lat: nat): (bool, bool)
  {
    var st := Upper(Strip(Field(f, at)));
    if |f| <= at || (st != Ascii("A") && st != Ascii("V")) then (false, false)
    else (true, st == Ascii("A") && CoordsPresent(f, lat))
  }

  // --- coordinates ------------------------------------------------------------------------------------------

  function Fraction(s: Bytes): (r: real)
    requires AllDigits(s)
    ensures 0.0 <= r < 1.0
  {
    if s == [] then 0.0
    else
      assert AllDigits(s[1..]);
      DigitIsSmall(s[0]);
      ((s[0] - 48) as int as real + Fraction(s[1..])) / 10.0
  }

  lemma DigitIsSmall(b: bv8)
    requires Digit(b)
    ensures 0 <= (b - 48) as int <= 9
  {}

  /** ddmm.mmmm or dddmm.mmmm: digits only, fixed width before the point. */
  predicate WellFormed(t: Bytes, head: nat)
  {
    |t| >= head + 2 && AllDigits(t[..head + 2]) &&
    (|t| == head + 2 || (t[head + 2] == DOT && AllDigits(t[head + 3..])))
  }

  function Minutes(t: Bytes, head: nat): real
    requires WellFormed(t, head)
  {
    var whole := t[..head + 2][head..];
    assert AllDigits(whole);
    Number(whole) as real + if |t| == head + 2 then 0.0 else Fraction(t[head + 3..])
  }

  /** `_nmea_coord`, over the reals. */
  function Coord(value: Bytes, hemi: Bytes, isLat: bool): Option<real>
  {
    var t := Strip(value);
    var head := if isLat then 2 else 3;
    var h := Upper(Strip(hemi));
    if !WellFormed(t, head) || Minutes(t, head) >= 60.0 then None
    else
      assert AllDigits(t[..head + 2][..head]);
      var size := Number(t[..head + 2][..head]) as real + Minutes(t, head) / 60.0;
      var limit := if isLat then 90.0 else 180.0;
      if h == Ascii("S") || h == Ascii("W") then if size <= limit then Some(-size) else None
      else if h == Ascii("N") || h == Ascii("E") then if size <= limit then Some(size) else None
      else None
  }

  lemma {:induction false} CoordIsInRange(value: Bytes, hemi: Bytes, isLat: bool)
    ensures var c := Coord(value, hemi, isLat);
      c.Some? ==> -(if isLat then 90.0 else 180.0) <= c.value <= if isLat then 90.0 else 180.0
  {
    var t := Strip(value);
    var head := if isLat then 2 else 3;
    if WellFormed(t, head) {
      assert Minutes(t, head) >= 0.0;
      assert AllDigits(t[..head + 2][..head]);
      assert Number(t[..head + 2][..head]) as real >= 0.0;
    }
  }

  datatype Position = Position(lat: real, lon: real)

  /** What a navigation sentence says: None where it is not one, else its usable position, if any. */
  function NavOf(line: Bytes): Option<Option<Position>>
  {
    var (isNav, hasFix) := Classify(line);
    if !isNav then None
    else if !hasFix then Some(None)
    else
      var f := Fields(line);
      var i := LatIndex(KindOf(line).value);
      match (Coord(Field(f, i), Field(f, i + 1), true), Coord(Field(f, i + 2), Field(f, i + 3), false))
      case (Some(lat), Some(lon)) => Some(Some(Position(lat, lon)))
      case _ => Some(None)
  }

  predicate InRange(p: Position) { -90.0 <= p.lat <= 90.0 && -180.0 <= p.lon <= 180.0 }

  /** A position that is reported at all is on the globe, and its sentence had a valid checksum. */
  lemma {:induction false} PositionIsInRange(line: Bytes)
    ensures NavOf(line).Some? ==> ChecksumOk(line)
    ensures NavOf(line).Some? && NavOf(line).value.Some? ==> InRange(NavOf(line).value.value)
  {
    var f := Fields(line);
    if KindOf(line).Some? {
      var i := LatIndex(KindOf(line).value);
      CoordIsInRange(Field(f, i), Field(f, i + 1), true);
      CoordIsInRange(Field(f, i + 2), Field(f, i + 3), false);
    }
  }

  // --- a whole sentence ---------------------------------------------------------------------------------------

  /** `decode("ascii", "replace")`: all bytes beyond ASCII become one replacement character. */
  function Decoded(s: Bytes): Bytes { seq(|s|, i requires 0 <= i < |s| => if s[i] < 128 then s[i] else 255) }

  /** Talker and signal id. */
  datatype Key = Key(talker: Bytes, signal: Option<nat>)

  datatype Sat = Sat(el: Option<real>, az: Option<real>, ss: Option<real>)

  /** A GSV sentence that is one of `total` parts. */
  datatype SkyPart = SkyPart(key: Key, total: nat, num: nat, sats: seq<(nat, Sat)>)

  /** `float()` of a field, where it is finite; left abstract. */
  type FloatField = Bytes -> Option<real>

  /** The altitude a sentence supplies: GGA and GNS with a usable fix only. */
  function AltOf(line: Bytes, float: FloatField): Option<real>
  {
    var f := Fields(line);
    if NavOf(line).Some? && NavOf(line).value.Some? && (KindOf(line) == Some(Gga) || KindOf(line) == Some(Gns)) &&
      |f| > 9
    then float(f[9]) else None
  }

  /** Azimuth modulo a full turn. */
  function Turn(az: real): (r: real)
    ensures 0.0 <= r < 360.0
  {
    var turns := (az / 360.0).Floor as real;
    assert turns <= az / 360.0 < turns + 1.0;
    az - 360.0 * turns
  }

  function SatOf(el: Option<real>, az: Option<real>, ss: Option<real>): Sat
  {
    Sat(if el.Some? && -90.0 <= el.value <= 90.0 then el else None,
        if az.Some? then Some(Turn(az.value)) else None,
        if ss.Some? && ss.value >= 0.0 then ss else None)
  }

  function SatsOf(body: seq<Bytes>, float: FloatField): seq<(nat, Sat)>
    decreases |body|
  {
    if |body| < 4 then []
    else
      (if IntField(body[0]).Some?
       then [(IntField(body[0]).value, SatOf(float(body[1]), float(body[2]), float(body[3])))] else []) +
      SatsOf(body[4..], float)
  }

  /** A usable GSV sentence, None for anything else. */
  function SkyOf(line: Bytes, float: FloatField): (r: Option<SkyPart>)
    ensures r.Some? ==> 1 <= r.value.num <= r.value.total
  {
    var f := Fields(line);
    if |line| < 7 || !ChecksumOk(line) || line[3..6] != Ascii("GSV") || |f| < 4 then None
    else
      var total, num, count := IntField(f[1]), IntField(f[2]), IntField(BeforeStar(f[3]));
      if total.None? || total.value == 0 || num.None? || num.value == 0 || count.None? ||
        num.value > total.value then None
      else
        var raw := f[4..];
        var body := if raw == [] then [] else raw[|raw| - 1 := BeforeStar(raw[|raw| - 1])];
        var signed := body != [] && |body| % 4 == 1;
        var sig := if signed then IntField(body[|body| - 1]) else None;
        Some(SkyPart(Key(Decoded(line[1..3]), sig), total.value, num.value,
                     SatsOf(if signed then body[..|body| - 1] else body, float)))
  }

  /** All that is read from one line: navigation and fix, altitude, satellites in view. */
  datatype Sentence = Sentence(nav: Option<Option<Position>>, alt: Option<real>, sky: Option<SkyPart>)

  /** A sentence as a checksum-valid line can give it. */
  predicate Plausible(s: Sentence)
  {
    (s.nav.Some? && s.nav.value.Some? ==> InRange(s.nav.value.value)) &&
    (s.alt.Some? ==> s.nav.Some? && s.nav.value.Some?) && (s.sky.Some? ==> 1 <= s.sky.value.num <= s.sky.value.total)
  }

  function Parse(line: Bytes, float: FloatField): (s: Sentence)
    ensures Plausible(s)
    ensures !ChecksumOk(line) ==> s == Sentence(None, None, None)
  {
    PositionIsInRange(line);
    Sentence(NavOf(line), AltOf(line, float), SkyOf(line, float))
  }
}
