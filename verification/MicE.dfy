// The Mic-E position format: the encoder of pkg/beacon/mice.go with EncodeMicEDest of
// pkg/aprs/mice.go, and the decoder of pkg/aprs/mice.go. Coordinates, speeds and
// altitudes are real numbers.

module MicE {
  import opened Common

  // ----- numbers -----

  function Abs(x: real): real {
    if x < 0.0 then -x else x
  }

  // Go's math.Round: to the nearest integer, halves away from zero.
  function Round(x: real): int {
    if x >= 0.0 then (x + 0.5).Floor else -((-x + 0.5).Floor)
  }

  lemma RoundNear(x: real)
    ensures Abs(Round(x) as real - x) <= 0.5
    ensures x >= 0.0 ==> Round(x) >= 0
  {
  }

  function Clamp(x: int, lo: int, hi: int): int {
    if x < lo then lo else if x > hi then hi else x
  }

  // How many hundredths of a minute one step is at each ambiguity level.
  function Unit(ambiguity: int): int {
    if ambiguity <= 0 then 1 else if ambiguity == 1 then 10 else if ambiguity == 2 then 100
    else if ambiguity == 3 then 1000 else 6000
  }

  // ----- the destination: latitude, message and the two flags -----

  const DIGIT_0: U8 := 48
  const LETTER_P: U8 := 80
  const LETTER_K: U8 := 75
  const LETTER_L: U8 := 76
  const LETTER_Z: U8 := 90
  const SPACE: U8 := 32

  // Degrees, minutes and hundredths of a non-negative latitude, each truncated.
  datatype Parts = Parts(deg: int, minute: int, hundredth: int)

  function LatParts(a: real): Parts
    requires a >= 0.0
  {
    var deg := a.Floor;
    var minF := (a - deg as real) * 60.0;
    var minute := minF.Floor;
    Parts(deg, minute, ((minF - minute as real) * 100.0).Floor)
  }

  lemma LatPartsAre(a: real)
    requires a >= 0.0
    ensures var p := LatParts(a);
            && 0 <= p.deg && 0 <= p.minute < 60 && 0 <= p.hundredth < 100
            && 6000 * p.deg + 100 * p.minute + p.hundredth == (a * 6000.0).Floor
  {
    var p := LatParts(a);
    var minF := (a - p.deg as real) * 60.0;
    assert 0.0 <= minF < 60.0;
    var h := (minF - p.minute as real) * 100.0;
    assert 0.0 <= h < 100.0;
    assert a * 6000.0 == (6000 * p.deg + 100 * p.minute) as real + h;
  }

  function Digit(p: Parts, i: nat): int
    requires i < 6
  {
    match i
    case 0 => p.deg / 10
    case 1 => p.deg % 10
    case 2 => p.minute / 10
    case 3 => p.minute % 10
    case 4 => p.hundredth / 10
    case _ => p.hundredth % 10
  }

  predicate HighBit(i: nat, msgCode: int, north: bool, offset100: bool, west: bool)
    requires i < 6
  {
    match i
    case 0 => (msgCode / 4) % 2 == 1
    case 1 => (msgCode / 2) % 2 == 1
    case 2 => msgCode % 2 == 1
    case 3 => north
    case 4 => offset100
    case _ => west
  }

  // One character: a digit or a blank, with a high bit either way.
  function DestChar(i: nat, digit: int, high: bool, blankFrom: int): U8
    requires i < 6 && 0 <= digit < 10
  {
    if i >= blankFrom then (if !high then LETTER_L else if i == 2 then LETTER_K else LETTER_Z)
    else (if high then LETTER_P else DIGIT_0) + digit
  }

  function DestCharOf(i: nat, lat: real, msgCode: int, offset100: bool, west: bool, ambiguity: int): U8
    requires i < 6 && Abs(lat) < 100.0
  {
    LatPartsAre(Abs(lat));
    DestChar(i, Digit(LatParts(Abs(lat)), i), HighBit(i, msgCode, lat >= 0.0, offset100, west),
             6 - Clamp(ambiguity, 0, 4))
  }

  function EncodedDest(lat: real, msgCode: int, offset100: bool, west: bool, ambiguity: int): seq<U8>
    requires Abs(lat) < 100.0
  {
    seq(6, i requires 0 <= i < 6 => DestCharOf(i, lat, msgCode, offset100, west, ambiguity))
  }

  method EncodeMicEDest(lat: real, msgCode: int, offset100: bool, west: bool, ambiguity: int) returns (out: seq<U8>)
    requires Abs(lat) < 100.0
    ensures out == EncodedDest(lat, msgCode, offset100, west, ambiguity)
  {
    var north := lat >= 0.0;
    var a := if lat < 0.0 then -lat else lat;
    var p := LatParts(a);
    LatPartsAre(a);
    var blankFrom := 6 - Clamp(ambiguity, 0, 4);
    out := [];
    for i := 0 to 6
      invariant out == EncodedDest(lat, msgCode, offset100, west, ambiguity)[..i]
    {
      out := out + [DestChar(i, Digit(p, i), HighBit(i, msgCode, north, offset100, west), blankFrom)];
    }
  }

  // ----- reading the destination -----

  // The digit a character carries, a space for a blank one.
  function DigitOf(c: U8): Option<U8> {
    if 48 <= c <= 57 then Some(c - 48)
    else if 65 <= c <= 74 then Some(c - 65)
    else if c == LETTER_K || c == LETTER_L || c == LETTER_Z then Some(SPACE)
    else if 80 <= c <= 89 then Some(c - 80)
    else None
  }

  predicate IsHighBit(c: U8) {
    65 <= c <= 74 || c == LETTER_K || 80 <= c <= 89 || c == LETTER_Z
  }

  function Val(d: U8): int {
    if d != SPACE then d else 0
  }

  datatype Dest = Dest(lat: real, msgCode: int, nsSign: real, lonOffset: int, ewSign: real)

  function LatOf(digits: seq<U8>): real
    requires |digits| == 6
  {
    var deg := Val(digits[0]) * 10 + Val(digits[1]);
    var minute := Val(digits[2]) * 10 + Val(digits[3]);
    var frac := Val(digits[4]) * 10 + Val(digits[5]);
    deg as real + (minute as real + frac as real / 100.0) / 60.0
  }

  function B(b: bool): int {
    if b then 1 else 0
  }

  predicate AllDigits(dest: seq<U8>) {
    forall i | 0 <= i < |dest| :: DigitOf(dest[i]).Some?
  }

  function Digits(dest: seq<U8>): seq<U8>
    requires AllDigits(dest)
  {
    seq(|dest|, i requires 0 <= i < |dest| => DigitOf(dest[i]).value)
  }

  function DecodedDest(dest: seq<U8>): Result<Dest> {
    if |dest| != 6 || !AllDigits(dest) then Err
    else Ok(Dest(LatOf(Digits(dest)), 4 * B(IsHighBit(dest[0])) + 2 * B(IsHighBit(dest[1])) + B(IsHighBit(dest[2])),
                 if IsHighBit(dest[3]) then 1.0 else -1.0, if IsHighBit(dest[4]) then 100 else 0,
                 if IsHighBit(dest[5]) then -1.0 else 1.0))
  }

  method DecodeMicEDest(dest: seq<U8>) returns (r: Result<Dest>)
    ensures r == DecodedDest(dest)
  {
    if |dest| != 6 {
      return Err;
    }
    var digits: seq<U8>, mb: seq<int> := [], [];
    for i := 0 to 6
      invariant AllDigits(dest[..i]) && digits == Digits(dest[..i])
      invariant |mb| == i && forall k | 0 <= k < i :: mb[k] == B(IsHighBit(dest[k]))
    {
      var c := dest[i];
      var d: U8, bit := 0, 0;
      if 48 <= c <= 57 {
        d, bit := c - 48, 0;
      } else if 65 <= c <= 74 {
        d, bit := c - 65, 1;
      } else if c == LETTER_K {
        d, bit := SPACE, 1;
      } else if c == LETTER_L {
        d, bit := SPACE, 0;
      } else if 80 <= c <= 89 {
        d, bit := c - 80, 1;
      } else if c == LETTER_Z {
        d, bit := SPACE, 1;
      } else {
        return Err;
      }
      assert dest[..i + 1] == dest[..i] + [c];
      digits, mb := digits + [d], mb + [bit];
    }
    assert dest[..6] == dest;
    var lat := LatOf(digits);
    r := Ok(Dest(lat, 4 * mb[0] + 2 * mb[1] + mb[2], if IsHighBit(dest[3]) then 1.0 else -1.0,
                 if IsHighBit(dest[4]) then 100 else 0, if IsHighBit(dest[5]) then -1.0 else 1.0));
  }

  // ----- the destination round trip -----

  lemma CharBack(i: nat, digit: int, high: bool, blankFrom: int)
    requires i < 6 && 0 <= digit < 10
    ensures var c := DestChar(i, digit, high, blankFrom);
            && DigitOf(c) == Some(if i >= blankFrom then SPACE else digit)
            && (IsHighBit(c) <==> high)
  {
  }

  lemma DestBack(lat: real, msgCode: int, offset100: bool, west: bool, ambiguity: int)
    requires Abs(lat) < 100.0
    ensures var (p, from) := (LatParts(Abs(lat)), 6 - Clamp(ambiguity, 0, 4));
            var dest := EncodedDest(lat, msgCode, offset100, west, ambiguity);
            && AllDigits(dest)
            && forall i: nat | i < 6 ::
                 && 0 <= Digit(p, i) < 10
                 && Digits(dest)[i] == (if i >= from then SPACE else Digit(p, i))
                 && (IsHighBit(dest[i]) <==> HighBit(i, msgCode, lat >= 0.0, offset100, west))
  {
    hide DestChar, Digit, HighBit, LatParts;
    var p, from := LatParts(Abs(lat)), 6 - Clamp(ambiguity, 0, 4);
    LatPartsAre(Abs(lat));
    var dest := EncodedDest(lat, msgCode, offset100, west, ambiguity);
    forall i: nat | i < 6
      ensures 0 <= Digit(p, i) < 10
      ensures dest[i] == DestChar(i, Digit(p, i), HighBit(i, msgCode, lat >= 0.0, offset100, west), from)
      ensures DigitOf(dest[i]) == Some(if i >= from then SPACE else Digit(p, i))
      ensures IsHighBit(dest[i]) <==> HighBit(i, msgCode, lat >= 0.0, offset100, west)
    {
      DigitSmall(p, i);
      CharBack(i, Digit(p, i), HighBit(i, msgCode, lat >= 0.0, offset100, west), from);
    }
  }

  lemma DigitSmall(p: Parts, i: nat)
    requires 0 <= p.deg < 100 && 0 <= p.minute < 60 && 0 <= p.hundredth < 100 && i < 6
    ensures 0 <= Digit(p, i) < 10
  {
  }

  // The latitude left when the digits from some slot on are blanked.
  function BlankedHundredths(p: Parts, ambiguity: int): int {
    var from := 6 - Clamp(ambiguity, 0, 4);
    p.deg * 6000
    + ((if 2 >= from then 0 else p.minute / 10) * 10 + (if 3 >= from then 0 else p.minute % 10)) * 100
    + ((if 4 >= from then 0 else p.hundredth / 10) * 10 + (if 5 >= from then 0 else p.hundredth % 10))
  }

  // A number put together from a multiple of a unit and a remainder below it.
  lemma Remainder(t: int, u: int, q: int, r: int)
    requires t == u * q + r && 0 <= r < u
    requires u == 1 || u == 10 || u == 100 || u == 1000 || u == 6000
    ensures t - t % u == u * q
  {
  }

  lemma BlankedIs(p: Parts, ambiguity: int)
    requires 0 <= p.deg && 0 <= p.minute < 60 && 0 <= p.hundredth < 100
    ensures var t, u := 6000 * p.deg + 100 * p.minute + p.hundredth, Unit(ambiguity);
            BlankedHundredths(p, ambiguity) == t - t % u
  {
    var t := 6000 * p.deg + 100 * p.minute + p.hundredth;
    var m1, m0, h1, h0 := p.minute / 10, p.minute % 10, p.hundredth / 10, p.hundredth % 10;
    assert p.minute == 10 * m1 + m0 && p.hundredth == 10 * h1 + h0 && 0 <= m0 < 10 && 0 <= h0 < 10;
    if ambiguity <= 0 {
      Remainder(t, 1, t, 0);
    } else if ambiguity == 1 {
      Remainder(t, 10, 600 * p.deg + 10 * p.minute + h1, h0);
    } else if ambiguity == 2 {
      Remainder(t, 100, 60 * p.deg + p.minute, p.hundredth);
    } else if ambiguity == 3 {
      Remainder(t, 1000, 6 * p.deg + m1, 100 * m0 + p.hundredth);
    } else {
      Remainder(t, 6000, p.deg, 100 * p.minute + p.hundredth);
    }
  }

  // Whatever the ambiguity, the destination decodes, to the same hemispheres, the same
  // longitude offset and the same message; the latitude is cut off, towards zero, at
  // the unit the ambiguity leaves.
  lemma DestRoundTrip(lat: real, msgCode: int, offset100: bool, west: bool, ambiguity: int)
    requires Abs(lat) < 100.0
    ensures var r := DecodedDest(EncodedDest(lat, msgCode, offset100, west, ambiguity));
            && r.Ok?
            && r.value.msgCode == msgCode % 8
            && r.value.nsSign == (if lat >= 0.0 then 1.0 else -1.0)
            && r.value.lonOffset == (if offset100 then 100 else 0)
            && r.value.ewSign == (if west then -1.0 else 1.0)
            && r.value.lat * 6000.0 == ((Abs(lat) * 6000.0).Floor - (Abs(lat) * 6000.0).Floor % Unit(ambiguity)) as real
            && r.value.lat <= Abs(lat) < r.value.lat + Unit(ambiguity) as real / 6000.0
  {
    hide EncodedDest, DigitOf, IsHighBit;
    var dest := EncodedDest(lat, msgCode, offset100, west, ambiguity);
    DestBack(lat, msgCode, offset100, west, ambiguity);
    var p, from := LatParts(Abs(lat)), 6 - Clamp(ambiguity, 0, 4);
    LatPartsAre(Abs(lat));
    BlankedIs(p, ambiguity);
    var d := Digits(dest);
    assert |dest| == 6 by { DestLength(lat, msgCode, offset100, west, ambiguity); }
    LatValue(d, p, ambiguity);
    MessageBack(msgCode);
    TruncationError(Abs(lat), Unit(ambiguity));
  }

  lemma DestLength(lat: real, msgCode: int, offset100: bool, west: bool, ambiguity: int)
    requires Abs(lat) < 100.0
    ensures |EncodedDest(lat, msgCode, offset100, west, ambiguity)| == 6
  {
  }

  lemma MessageBack(msgCode: int)
    ensures 4 * ((msgCode / 4) % 2) + 2 * ((msgCode / 2) % 2) + msgCode % 2 == msgCode % 8
  {
    var (q, r) := (msgCode / 8, msgCode % 8);
    assert msgCode == 8 * q + r;
    assert msgCode / 4 == 2 * q + r / 4 && msgCode / 2 == 4 * q + r / 2;
    assert (2 * q + r / 4) % 2 == r / 4 && (4 * q + r / 2) % 2 == (r / 2) % 2 && msgCode % 2 == r % 2;
  }

  lemma LatValue(d: seq<U8>, p: Parts, ambiguity: int)
    requires |d| == 6 && 0 <= p.deg < 100 && 0 <= p.minute < 60 && 0 <= p.hundredth < 100
    requires forall i: nat | i < 6 ::
               0 <= Digit(p, i) < 10 && d[i] == if i >= 6 - Clamp(ambiguity, 0, 4) then SPACE else Digit(p, i)
    ensures LatOf(d) * 6000.0 == BlankedHundredths(p, ambiguity) as real
  {
    var from := 6 - Clamp(ambiguity, 0, 4);
    assert Val(d[0]) == p.deg / 10 by { assert d[0] == Digit(p, 0); }
    assert Val(d[1]) == p.deg % 10 by { assert d[1] == Digit(p, 1); }
    assert Val(d[2]) == (if 2 >= from then 0 else p.minute / 10) by { assert 0 <= Digit(p, 2) < 10; }
    assert Val(d[3]) == (if 3 >= from then 0 else p.minute % 10) by { assert 0 <= Digit(p, 3) < 10; }
    assert Val(d[4]) == (if 4 >= from then 0 else p.hundredth / 10) by { assert 0 <= Digit(p, 4) < 10; }
    assert Val(d[5]) == (if 5 >= from then 0 else p.hundredth % 10) by { assert 0 <= Digit(p, 5) < 10; }
  }

  lemma TruncationError(a: real, u: int)
    requires a >= 0.0 && u >= 1
    ensures var t := (a * 6000.0).Floor; t - t % u <= t < t - t % u + u
    ensures var t := (a * 6000.0).Floor;
            (t - t % u) as real <= a * 6000.0 < (t - t % u + u) as real
  {
  }

  // ----- longitude -----

  const MAX_LON := 180 * 6000 - 1

  // Rounded once to hundredths of a minute; 180 degrees saturates.
  function LonHundredths(lon: real): (t: int)
    ensures 0 <= t <= MAX_LON
  {
    RoundNear(Abs(lon) * 6000.0);
    var total := Round(Abs(lon) * 6000.0);
    if total > MAX_LON then MAX_LON else total
  }

  function LonParts(lon: real): Parts {
    var total := LonHundredths(lon);
    Parts(total / 6000, (total % 6000) / 100, total % 100)
  }

  datatype LonFields = LonFields(degAdjusted: int, offset100: bool, west: bool)

  // Degrees folded into four wire ranges.
  function FoldedLon(lon: real): LonFields {
    var d, west := LonParts(lon).deg, lon < 0.0;
    if d < 10 then LonFields(d + 90, true, west)
    else if d < 100 then LonFields(d, false, west)
    else if d < 110 then LonFields(d - 20, true, west)
    else LonFields(d - 100, true, west)
  }

  function Coarse(p: Parts, ambiguity: int): Parts {
    if ambiguity >= 4 then p.(minute := 0, hundredth := 0)
    else if ambiguity >= 3 then p.(minute := p.minute / 10 * 10, hundredth := 0)
    else if ambiguity >= 2 then p.(hundredth := 0)
    else if ambiguity >= 1 then p.(hundredth := p.hundredth / 10 * 10)
    else p
  }

  // Go's conversion to an octet.
  function Byte(x: int): U8 {
    x % 256
  }

  lemma ByteSmall(x: int)
    requires 0 <= x < 256
    ensures Byte(x) == x
  {
  }

  function Less(c: U8, offset: int): int {
    c as int - offset
  }

  function LonBytes(lon: real, ambiguity: int): seq<U8> {
    var p := Coarse(LonParts(lon), ambiguity);
    [Byte(FoldedLon(lon).degAdjusted + 28),
     Byte((if p.minute < 10 then p.minute + 60 else p.minute) + 28),
     Byte(p.hundredth + 28)]
  }

  function UnfoldedDegrees(raw: int): int {
    if 180 <= raw <= 189 then raw - 80 else if 190 <= raw <= 199 then raw - 190 else raw
  }

  function DecodedLon(b: seq<U8>, offset: int, sign: real): Result<real> {
    if |b| < 3 || b[0] == SPACE || b[1] == SPACE then Err
    else
      var d := UnfoldedDegrees(Less(b[0], 28) + offset);
      if d < 0 || d > 179 then Err
      else
        var m := if Less(b[1], 28) >= 60 then Less(b[1], 28) - 60 else Less(b[1], 28);
        if m < 0 || m > 59 then Err
        else
          var h := Less(b[2], 28);
          if h < 0 || h > 99 then Err
          else Ok((d as real + (m as real + h as real / 100.0) / 60.0) * sign)
  }

  lemma LonPartsAre(lon: real)
    ensures var (p, t) := (LonParts(lon), LonHundredths(lon));
            && 0 <= p.deg < 180 && 0 <= p.minute < 60 && 0 <= p.hundredth < 100
            && 6000 * p.deg + 100 * p.minute + p.hundredth == t
  {
    var t := LonHundredths(lon);
    assert t == 6000 * (t / 6000) + t % 6000;
    assert t % 6000 == 100 * (t % 6000 / 100) + t % 6000 % 100;
    assert t % 6000 % 100 == t % 100;
  }

  lemma CoarseIs(p: Parts, ambiguity: int)
    requires 0 <= p.deg && 0 <= p.minute < 60 && 0 <= p.hundredth < 100
    ensures var (c, t) := (Coarse(p, ambiguity), 6000 * p.deg + 100 * p.minute + p.hundredth);
            && c.deg == p.deg && 0 <= c.minute < 60 && 0 <= c.hundredth < 100
            && 6000 * c.deg + 100 * c.minute + c.hundredth == t - t % Unit(ambiguity)
  {
    BlankedIs(p, ambiguity);
  }

  lemma DegreesBack(lon: real)
    ensures var (f, d) := (FoldedLon(lon), LonParts(lon).deg);
            && 10 <= f.degAdjusted < 100
            && UnfoldedDegrees(f.degAdjusted + (if f.offset100 then 100 else 0)) == d
  {
    LonPartsAre(lon);
    hide LonParts;
  }

  // The information field's longitude always decodes under the flags the destination
  // carries, to the rounded longitude cut off at the unit the ambiguity leaves.
  lemma LonRoundTrip(lon: real, ambiguity: int)
    ensures var (f, sign) := (FoldedLon(lon), if lon < 0.0 then -1.0 else 1.0);
            var r := DecodedLon(LonBytes(lon, ambiguity), if f.offset100 then 100 else 0, sign);
            && r.Ok? && f.west == (lon < 0.0)
            && r.value * 6000.0 == sign * ((LonHundredths(lon) - LonHundredths(lon) % Unit(ambiguity)) as real)
  {
    hide LonParts, LonHundredths, FoldedLon, Coarse;
    var p := LonParts(lon);
    LonPartsAre(lon);
    CoarseIs(p, ambiguity);
    DegreesBack(lon);
    LonWest(lon);
    var c := Coarse(p, ambiguity);
    var f := FoldedLon(lon);
    var b := LonBytes(lon, ambiguity);
    assert b[0] == f.degAdjusted + 28 && b[2] == c.hundredth + 28;
    assert b[1] == (if c.minute < 10 then c.minute + 60 else c.minute) + 28;
    LonValue(c);
  }

  lemma LonWest(lon: real)
    ensures FoldedLon(lon).west == (lon < 0.0)
  {
  }

  lemma LonValue(c: Parts)
    ensures (c.deg as real + (c.minute as real + c.hundredth as real / 100.0) / 60.0) * 6000.0
            == (6000 * c.deg + 100 * c.minute + c.hundredth) as real
  {
  }

  // Without ambiguity the longitude comes back within half a hundredth of a minute,
  // and within one next to 180 degrees.
  lemma LonError(lon: real)
    requires -180.0 <= lon <= 180.0
    ensures var (f, sign) := (FoldedLon(lon), if lon < 0.0 then -1.0 else 1.0);
            var r := DecodedLon(LonBytes(lon, 0), if f.offset100 then 100 else 0, sign);
            && r.Ok?
            && Abs(r.value - lon) <= 1.0 / 6000.0
            && (Abs(lon) < 180.0 - 1.0 / 12000.0 ==> Abs(r.value - lon) <= 1.0 / 12000.0)
  {
    hide FoldedLon, LonBytes, DecodedLon;
    LonRoundTrip(lon, 0);
    RoundNear(Abs(lon) * 6000.0);
    var t := LonHundredths(lon);
    assert t - t % 1 == t;
    assert Abs(t as real - Abs(lon) * 6000.0) <= 1.0;
    assert Abs(lon) < 180.0 - 1.0 / 12000.0 ==> Abs(t as real - Abs(lon) * 6000.0) <= 0.5;
  }

  // ----- speed, course, altitude -----

  function NormalCourse(course: int): int {
    if course < 0 then 0 else if course > 360 then course % 360 else course
  }

  function SpeedCourseBytes(speedKt: real, course: int): seq<U8> {
    var sp, c := Clamp(Round(speedKt), 0, 799), NormalCourse(course);
    [Byte(Byte(sp / 10) + 28), Byte(Byte((sp % 10) * 10 + c / 100) + 28), Byte(Byte(c % 100) + 28)]
  }

  datatype SpeedCourse = SpeedCourse(speed: int, course: int)

  function DecodedSpeedCourse(b: seq<U8>): SpeedCourse {
    if |b| < 3 || b[0] < 28 || b[1] < 28 || b[2] < 28 then SpeedCourse(-1, -1)
    else
      var speed := Less(b[0], 28) * 10 + Less(b[1], 28) / 10;
      var course := (Less(b[1], 28) % 10) * 100 + Less(b[2], 28);
      SpeedCourse(if speed >= 800 then speed - 800 else speed, if course >= 400 then course - 400 else course)
  }

  // Rounded and clamped speed and normalised course come back exactly.
  lemma SpeedCourseRoundTrip(speedKt: real, course: int)
    ensures DecodedSpeedCourse(SpeedCourseBytes(speedKt, course))
            == SpeedCourse(Clamp(Round(speedKt), 0, 799), NormalCourse(course))
    ensures |SpeedCourseBytes(speedKt, course)| == 3
  {
    var sp, c := Clamp(Round(speedKt), 0, 799), NormalCourse(course);
    assert 0 <= c <= 360;
    hide Round, NormalCourse;
    SpeedDigits(sp, c);
    SpeedBytesBack(sp, c, sp / 10, (sp % 10) * 10 + c / 100, c % 100);
  }

  lemma SpeedBytesBack(sp: int, c: int, x: int, y: int, z: int)
    requires 0 <= sp <= 799 && 0 <= c <= 360 && 0 <= x < 80 && 0 <= y <= 93 && 0 <= z < 100
    requires x * 10 + y / 10 == sp && (y % 10) * 100 + z == c
    ensures DecodedSpeedCourse([Byte(Byte(x) + 28), Byte(Byte(y) + 28), Byte(Byte(z) + 28)]) == SpeedCourse(sp, c)
  {
    hide Byte;
    ByteSmall(x);
    ByteSmall(x + 28);
    ByteSmall(y);
    ByteSmall(y + 28);
    ByteSmall(z);
    ByteSmall(z + 28);
  }

  lemma SpeedDigits(sp: int, c: int)
    requires 0 <= sp <= 799 && 0 <= c <= 360
    ensures 0 <= sp / 10 < 80 && 0 <= (sp % 10) * 10 + c / 100 <= 93
    ensures sp / 10 * 10 + ((sp % 10) * 10 + c / 100) / 10 == sp
    ensures (((sp % 10) * 10 + c / 100) % 10) * 100 + c % 100 == c
  {
    var q := c / 100;
    assert 0 <= q <= 3;
    assert ((sp % 10) * 10 + q) / 10 == sp % 10;
    assert ((sp % 10) * 10 + q) % 10 == q;
  }

  const ALT_MAX := 91 * 91 * 91 - 1

  function AltCode(altM: real): (v: int)
    ensures 0 <= v <= ALT_MAX
  {
    Clamp(Round(altM) + 10000, 0, ALT_MAX)
  }

  function AltitudeExt(altM: real): seq<U8> {
    var v := AltCode(altM);
    [Byte(Byte(v / 8281) + 33), Byte(Byte((v / 91) % 91) + 33), Byte(Byte(v % 91) + 33), CLOSE_BRACE]
  }

  const CLOSE_BRACE: U8 := 125

  // The altitude extension at an offset of what follows the symbol.
  function AltitudeAt(rest: seq<U8>, off: nat): Option<int> {
    if |rest| < off + 4 || rest[off + 3] != CLOSE_BRACE then None
    else
      var b0, b1, b2 := Less(rest[off], 33), Less(rest[off + 1], 33), Less(rest[off + 2], 33);
      if b0 < 0 || b0 >= 91 || b1 < 0 || b1 >= 91 || b2 < 0 || b2 >= 91 then None
      else Some(b0 * 8281 + b1 * 91 + b2 - 10000)
  }

  lemma Base91(v: int)
    requires 0 <= v <= ALT_MAX
    ensures 0 <= v / 8281 < 91 && 0 <= (v / 91) % 91 < 91 && 0 <= v % 91 < 91
    ensures (v / 8281) * 8281 + ((v / 91) % 91) * 91 + v % 91 == v
  {
    var a := v / 91;
    assert v == 91 * a + v % 91;
    assert a == 91 * (a / 91) + a % 91;
    assert v == 8281 * (a / 91) + (91 * (a % 91) + v % 91);
    assert v / 8281 == a / 91;
  }

  // Altitude to the metre, within what three base-91 digits hold.
  lemma AltitudeRoundTrip(altM: real, comment: seq<U8>)
    ensures AltitudeAt(AltitudeExt(altM) + comment, 0) == Some(AltCode(altM) - 10000)
    ensures (AltitudeExt(altM) + comment)[4..] == comment
  {
    hide AltCode, AltitudeAt, Byte;
    var v := AltCode(altM);
    Base91(v);
    var x, y, z := v / 8281, (v / 91) % 91, v % 91;
    ByteSmall(x);
    ByteSmall(x + 33);
    ByteSmall(y);
    ByteSmall(y + 33);
    ByteSmall(z);
    ByteSmall(z + 33);
    AltitudeDigits(x, y, z, comment);
  }

  lemma AltitudeDigits(x: int, y: int, z: int, comment: seq<U8>)
    requires 0 <= x < 91 && 0 <= y < 91 && 0 <= z < 91
    ensures var e := [x + 33, y + 33, z + 33, CLOSE_BRACE];
            AltitudeAt(e + comment, 0) == Some(x * 8281 + y * 91 + z - 10000) && (e + comment)[4..] == comment
  {
    var e: seq<U8> := [x + 33, y + 33, z + 33, CLOSE_BRACE];
    assert (e + comment)[0] == e[0] && (e + comment)[1] == e[1] && (e + comment)[2] == e[2] && (e + comment)[3] == e[3];
  }

  // ----- the information field -----

  datatype Report = Report(lat: real, lon: real, msgCode: int, speed: int, course: Option<int>,
                           table: U8, code: U8, altitude: Option<int>, rest: seq<U8>)

  predicate IsSymTable(c: U8) {
    c == 47 || c == 92 || 65 <= c <= 90 || 48 <= c <= 57
  }

  function PositionInfo(lon: real, course: int, speedKt: real, altM: real, symbolTable: U8, symbolCode: U8,
                        messaging: bool, ambiguity: int, comment: seq<U8>): seq<U8> {
    [if messaging then 96 else 39]
    + (LonBytes(lon, ambiguity)
       + (SpeedCourseBytes(speedKt, course)
          + ([if symbolCode == 0 then 45 else symbolCode, if symbolTable == 0 then 47 else symbolTable]
             + ((if altM != 0.0 then AltitudeExt(altM) else []) + comment))))
  }

  function MicEDestination(lat: real, lon: real, ambiguity: int): seq<U8>
    requires Abs(lat) < 100.0
  {
    var f := FoldedLon(lon);
    EncodedDest(lat, MESSAGE_OFF_DUTY, f.offset100, f.west, ambiguity)
  }

  const MESSAGE_OFF_DUTY := 7

  function CourseOf(c: int): Option<int> {
    if 0 < c <= 360 then Some(c) else None
  }

  // Some gateways squash the double space of the speed and course field.
  predicate Squashed(body: seq<U8>)
    requires |body| >= 8
  {
    !IsSymTable(body[7]) && body[4] == SPACE && IsSymTable(body[6])
  }

  function Unsquashed(body: seq<U8>): (r: seq<U8>)
    requires |body| >= 8
    ensures |r| >= 8
  {
    if Squashed(body) then body[..4] + [SPACE] + body[4..] else body
  }

  function SpliceAltitude(rest: seq<U8>, off: nat): seq<U8>
    requires off + 4 <= |rest|
  {
    rest[..off] + rest[off + 4..]
  }

  // Everything up to the manufacturer and comment text. A destination or longitude
  // that does not decode, or an unknown symbol table, rejects the report.
  function Parsed(info: seq<U8>, dest: seq<U8>): Result<Report> {
    if |info| < 9 then Err
    else
      var d :- DecodedDest(dest);
      var lon0 :- DecodedLon(info[1..][..3], d.lonOffset, d.ewSign);
      var body := Unsquashed(info[1..]);
      var lon := if DecodedLon(body[..3], d.lonOffset, d.ewSign).Ok?
                 then DecodedLon(body[..3], d.lonOffset, d.ewSign).value else lon0;
      var sc := DecodedSpeedCourse(body[3..6]);
      if !IsSymTable(body[7]) then Err
      else
        var rest := body[8..];
        var r := Report(d.lat * d.nsSign, lon, d.msgCode, if sc.speed >= 0 then sc.speed else 0, CourseOf(sc.course),
                        body[7], body[6], None, rest);
        if AltitudeAt(rest, 0).Some? then Ok(r.(altitude := AltitudeAt(rest, 0), rest := SpliceAltitude(rest, 0)))
        else if AltitudeAt(rest, 1).Some? then Ok(r.(altitude := AltitudeAt(rest, 1), rest := SpliceAltitude(rest, 1)))
        else Ok(r)
  }

  lemma InfoParts(lon: real, course: int, speedKt: real, altM: real, symbolTable: U8, symbolCode: U8,
                  messaging: bool, ambiguity: int, comment: seq<U8>)
    ensures var info := PositionInfo(lon, course, speedKt, altM, symbolTable, symbolCode, messaging, ambiguity, comment);
            && |info| >= 9
            && info[1..][..3] == LonBytes(lon, ambiguity)
            && info[1..][3..6] == SpeedCourseBytes(speedKt, course)
            && info[1..][6] == (if symbolCode == 0 then 45 else symbolCode)
            && info[1..][7] == (if symbolTable == 0 then 47 else symbolTable)
            && info[1..][8..] == (if altM != 0.0 then AltitudeExt(altM) else []) + comment
  {
    hide LonBytes, SpeedCourseBytes, AltitudeExt;
    LonLength(lon, ambiguity);
    SpeedCourseRoundTrip(speedKt, course);
    InfoSlices([if messaging then 96 else 39], LonBytes(lon, ambiguity), SpeedCourseBytes(speedKt, course),
               [if symbolCode == 0 then 45 else symbolCode, if symbolTable == 0 then 47 else symbolTable],
               (if altM != 0.0 then AltitudeExt(altM) else []) + comment);
  }

  lemma Parts2(p: seq<U8>, q: seq<U8>)
    ensures (p + q)[..|p|] == p && (p + q)[|p|..] == q
  {
  }

  lemma InfoSlices(h: seq<U8>, x: seq<U8>, y: seq<U8>, s: seq<U8>, e: seq<U8>)
    requires |h| == 1 && |x| == 3 && |y| == 3 && |s| == 2
    ensures var info := h + (x + (y + (s + e)));
            && |info| >= 9 && info[1..][..3] == x && info[1..][3..6] == y && info[1..][6] == s[0] && info[1..][7] == s[1]
            && info[1..][8..] == e
  {
    var se := s + e;
    var yse := y + se;
    var body := x + yse;
    Parts2(h, body);
    Parts2(x, yse);
    Parts2(y, se);
    Parts2(s, e);
    assert body[3..6] == yse[..3];
    assert body[6] == se[0] && body[7] == se[1];
    assert body[8..] == yse[5..] == se[2..];
  }

  lemma LonLength(lon: real, ambiguity: int)
    ensures |LonBytes(lon, ambiguity)| == 3
  {
  }

  // A body with a known symbol table is taken as it stands.
  lemma ParsedBody(info: seq<U8>, dest: seq<U8>, d: Dest, lon: real)
    requires |info| >= 9 && IsSymTable(info[1..][7]) && DecodedDest(dest) == Ok(d)
    requires DecodedLon(info[1..][..3], d.lonOffset, d.ewSign) == Ok(lon)
    ensures var (body, sc) := (info[1..], DecodedSpeedCourse(info[1..][3..6]));
            var (rest, r) := (body[8..], Parsed(info, dest));
            && r.Ok? && r.value.lat == d.lat * d.nsSign && r.value.lon == lon && r.value.msgCode == d.msgCode
            && r.value.speed == (if sc.speed >= 0 then sc.speed else 0) && r.value.course == CourseOf(sc.course)
            && r.value.table == body[7] && r.value.code == body[6]
            && (AltitudeAt(rest, 0).Some? ==> r.value.altitude == AltitudeAt(rest, 0) && r.value.rest == rest[4..])
            && (AltitudeAt(rest, 0).None? && AltitudeAt(rest, 1).None? ==> r.value.altitude == None && r.value.rest == rest)
  {
    hide DecodedDest, DecodedLon, DecodedSpeedCourse;
  }

  // What the beacon encodes the parser reads: for every latitude and longitude, speed,
  // course and altitude, at every ambiguity and under every valid symbol, the report
  // is never rejected, keeps its hemispheres, longitude offset, message and symbol,
  // has its speed and course exactly and its altitude to the metre, and its coordinates
  // cut off at the ambiguity's unit. With an altitude any comment may follow; without
  // one a comment that looks like an altitude would be taken for it.
  lemma MicERoundTrip(lat: real, lon: real, course: int, speedKt: real, altM: real, symbolTable: U8, symbolCode: U8,
                      messaging: bool, ambiguity: int, comment: seq<U8>)
    requires Abs(lat) < 100.0 && IsSymTable(if symbolTable == 0 then 47 else symbolTable)
    requires altM == 0.0 ==> AltitudeAt(comment, 0).None? && AltitudeAt(comment, 1).None?
    ensures var info := PositionInfo(lon, course, speedKt, altM, symbolTable, symbolCode, messaging, ambiguity, comment);
            var r := Parsed(info, MicEDestination(lat, lon, ambiguity));
            && r.Ok?
            && r.value.speed == Clamp(Round(speedKt), 0, 799)
            && r.value.course == CourseOf(NormalCourse(course))
            && r.value.altitude == (if altM != 0.0 then Some(AltCode(altM) - 10000) else None)
            && r.value.msgCode == MESSAGE_OFF_DUTY && r.value.rest == comment
            && r.value.table == (if symbolTable == 0 then 47 else symbolTable)
            && r.value.code == (if symbolCode == 0 then 45 else symbolCode)
    ensures var info := PositionInfo(lon, course, speedKt, altM, symbolTable, symbolCode, messaging, ambiguity, comment);
            var r := Parsed(info, MicEDestination(lat, lon, ambiguity)).value;
            var (t, u) := ((Abs(lat) * 6000.0).Floor, Unit(ambiguity));
            && r.lat * 6000.0 == (if lat >= 0.0 then 1.0 else -1.0) * ((t - t % u) as real)
            && r.lon * 6000.0 == (if lon < 0.0 then -1.0 else 1.0) * ((LonHundredths(lon) - LonHundredths(lon) % u) as real)
  {
    hide LonBytes, SpeedCourseBytes, AltitudeExt, FoldedLon, DecodedDest, EncodedDest, DecodedLon, DecodedSpeedCourse,
      PositionInfo, LonHundredths, NormalCourse, Round, AltitudeAt, AltCode, Parsed;
    var f := FoldedLon(lon);
    InfoParts(lon, course, speedKt, altM, symbolTable, symbolCode, messaging, ambiguity, comment);
    DestRoundTrip(lat, MESSAGE_OFF_DUTY, f.offset100, f.west, ambiguity);
    LonRoundTrip(lon, ambiguity);
    SpeedCourseRoundTrip(speedKt, course);
    if altM != 0.0 {
      AltitudeRoundTrip(altM, comment);
    } else {
      assert [] + comment == comment;
    }
    var d := DecodedDest(MicEDestination(lat, lon, ambiguity)).value;
    var v := DecodedLon(LonBytes(lon, ambiguity), d.lonOffset, d.ewSign).value;
    ParsedBody(PositionInfo(lon, course, speedKt, altM, symbolTable, symbolCode, messaging, ambiguity, comment),
               MicEDestination(lat, lon, ambiguity), d, v);
  }
}
