// The Mic-E fields as any transmitter may write them, not only this beacon: every
// representation the format allows for a value, and what else the decoder rejects.
// pkg/aprs/mice.go

module MicESenders {
  import opened Common
  import opened MicE

  // ----- the destination -----

  // The characters that stand for a digit, or a blank, with its high bit: 0-9 and L
  // without, A-J, P-Y, K and Z with.
  predicate StandsFor(c: U8, digit: Option<int>, high: bool) {
    match digit
    case Some(d) => 0 <= d <= 9 && if high then c == 'A' as int + d || c == 'P' as int + d else c == '0' as int + d
    case None => if high then c == 'K' as int || c == 'Z' as int else c == 'L' as int
  }

  predicate DestChars(c: U8) {
    '0' as int <= c <= '9' as int || 'A' as int <= c <= 'L' as int || 'P' as int <= c <= 'Z' as int
  }

  // An octet stands for at most one digit or blank and one high bit, and for one at all
  // exactly when it is one of those characters.
  lemma CharReads(c: U8, digit: Option<int>, high: bool)
    ensures StandsFor(c, digit, high) <==>
            && DigitOf(c) == Some(if digit.Some? then digit.value else SPACE) && digit != Some(SPACE as int)
            && IsHighBit(c) == high
    ensures DigitOf(c).Some? <==> DestChars(c)
  {
  }

  // Hundredths of a minute from six digits, a blank counting as zero.
  function Hundredths(digits: seq<Option<int>>): int
    requires |digits| == 6
  {
    var v := seq(6, i requires 0 <= i < 6 => if digits[i].Some? then digits[i].value else 0);
    6000 * (10 * v[0] + v[1]) + 100 * (10 * v[2] + v[3]) + 10 * v[4] + v[5]
  }

  // However the six characters are written, the latitude, the three message bits and the
  // three flags come out.
  lemma AnyDestination(dest: seq<U8>, digits: seq<Option<int>>, high: seq<bool>)
    requires |dest| == |digits| == |high| == 6
    requires forall i | 0 <= i < 6 :: StandsFor(dest[i], digits[i], high[i])
    ensures var r := DecodedDest(dest);
            && r.Ok?
            && r.value.lat * 6000.0 == Hundredths(digits) as real
            && r.value.msgCode == (if high[0] then 4 else 0) + (if high[1] then 2 else 0) + (if high[2] then 1 else 0)
            && r.value.nsSign == (if high[3] then 1.0 else -1.0)
            && r.value.lonOffset == (if high[4] then 100 else 0)
            && r.value.ewSign == (if high[5] then -1.0 else 1.0)
  {
    forall i | 0 <= i < 6
      ensures DigitOf(dest[i]) == Some(if digits[i].Some? then digits[i].value else SPACE)
      ensures IsHighBit(dest[i]) == high[i]
      ensures digits[i].Some? ==> 0 <= digits[i].value <= 9
    {
      CharReads(dest[i], digits[i], high[i]);
    }
    hide DigitOf, IsHighBit, StandsFor, Hundredths;
    assert AllDigits(dest);
    var d := Digits(dest);
    forall i | 0 <= i < 6
      ensures Val(d[i]) == if digits[i].Some? then digits[i].value else 0
    {
    }
    LatIs(d, digits);
  }

  lemma LatIs(d: seq<U8>, digits: seq<Option<int>>)
    requires |d| == |digits| == 6
    requires forall i | 0 <= i < 6 :: Val(d[i]) == if digits[i].Some? then digits[i].value else 0
    ensures LatOf(d) * 6000.0 == Hundredths(digits) as real
  {
    hide Val;
  }

  // Anything but six such characters is refused.
  lemma DestinationReadsIff(dest: seq<U8>)
    ensures DecodedDest(dest).Ok? <==> |dest| == 6 && forall i | 0 <= i < 6 :: DestChars(dest[i])
  {
    forall i | 0 <= i < |dest|
      ensures DigitOf(dest[i]).Some? <==> DestChars(dest[i])
    {
      CharReads(dest[i], None, false);
    }
  }

  // ----- longitude -----

  // The octets that stand for degrees under the destination's offset flag: the value
  // itself, or, from 180 on, 80 less for 100 to 109 and 190 less for 0 to 9. A space
  // stands for nothing.
  predicate DegreesStand(b: U8, offset: int, d: int) {
    var raw := b - 28 + offset;
    b != SPACE && 0 <= d <= 179 && (raw == d || (100 <= d <= 109 && raw == d + 80) || (0 <= d <= 9 && raw == d + 190))
  }

  // Minutes may have 60 added; a space stands for none, so 4 is always written with it.
  predicate MinutesStand(b: U8, m: int) {
    b != SPACE && 0 <= m < 60 && (b == m + 28 || b == m + 88)
  }

  function DegreesOf(d: int, m: int, h: int): real {
    d as real + (m as real + h as real / 100.0) / 60.0
  }

  lemma AnyLongitude(b: seq<U8>, offset: int, sign: real, d: int, m: int, h: int)
    requires |b| >= 3 && (offset == 0 || offset == 100)
    requires DegreesStand(b[0], offset, d) && MinutesStand(b[1], m) && 0 <= h < 100 && b[2] == h + 28
    ensures var r := DecodedLon(b, offset, sign); r.Ok? && r.value == DegreesOf(d, m, h) * sign
  {
    var x := UnfoldedDegrees(Less(b[0], 28) + offset);
    var y := if Less(b[1], 28) >= 60 then Less(b[1], 28) - 60 else Less(b[1], 28);
    assert x == d && y == m && Less(b[2], 28) == h;
    var degrees := x as real + (y as real + Less(b[2], 28) as real / 100.0) / 60.0;
    assert degrees == DegreesOf(d, m, h);
    hide UnfoldedDegrees, Less, DegreesOf;
    var r := DecodedLon(b, offset, sign);
    assert r.Ok?;
    assert r.value == degrees * sign;
  }

  // What decodes is one of these.
  lemma LongitudeStands(b: seq<U8>, offset: int, sign: real) returns (d: int, m: int, h: int)
    requires (offset == 0 || offset == 100) && DecodedLon(b, offset, sign).Ok?
    ensures |b| >= 3 && DegreesStand(b[0], offset, d) && MinutesStand(b[1], m) && 0 <= h < 100 && b[2] == h + 28
  {
    d, h := UnfoldedDegrees(Less(b[0], 28) + offset), b[2] - 28;
    m := if b[1] >= 88 then b[1] - 88 else b[1] - 28;
  }

  // ----- speed and course -----

  function Marked(plus: bool, amount: int): int {
    if plus then amount else 0
  }

  // Three octets for a speed and a course, either of which may have its offset added:
  // 800 to the speed, 400 to the course.
  function SpeedCourseField(speed: int, course: int, plus800: bool, plus400: bool): seq<int> {
    var s, c := speed + Marked(plus800, 800), course + Marked(plus400, 400);
    [s / 10 + 28, s % 10 * 10 + c / 100 + 28, c % 100 + 28]
  }

  lemma FieldDigits(s: int, c: int)
    requires 0 <= s < 1600 && 0 <= c < 800
    ensures 0 <= s / 10 < 160 && 0 <= s % 10 * 10 + c / 100 < 98 && 0 <= c % 100 < 100
    ensures s / 10 * 10 + (s % 10 * 10 + c / 100) / 10 == s
    ensures (s % 10 * 10 + c / 100) % 10 * 100 + c % 100 == c
  {
    var q, r := c / 100, s % 10;
    assert 0 <= q <= 7 && c == 100 * q + c % 100 && s == 10 * (s / 10) + r;
    assert (r * 10 + q) / 10 == r && (r * 10 + q) % 10 == q;
  }

  // In all four forms the field reads back as the speed and the course.
  lemma AnySpeedCourse(speed: int, course: int, plus800: bool, plus400: bool, b: seq<U8>)
    requires 0 <= speed < 800 && 0 <= course < 400
    requires |b| == 3 && forall i | 0 <= i < 3 :: b[i] == SpeedCourseField(speed, course, plus800, plus400)[i]
    ensures DecodedSpeedCourse(b) == SpeedCourse(speed, course)
  {
    var s, c := speed + Marked(plus800, 800), course + Marked(plus400, 400);
    FieldDigits(s, c);
    assert b[0] == s / 10 + 28 && b[1] == s % 10 * 10 + c / 100 + 28 && b[2] == c % 100 + 28;
    FieldReads(b, s / 10, s % 10 * 10 + c / 100, c % 100);
  }

  lemma FieldReads(b: seq<U8>, x: int, y: int, z: int)
    requires |b| == 3 && x >= 0 && y >= 0 && z >= 0 && b[0] == x + 28 && b[1] == y + 28 && b[2] == z + 28
    ensures var (s, c) := (10 * x + y / 10, y % 10 * 100 + z);
            DecodedSpeedCourse(b) == SpeedCourse(if s >= 800 then s - 800 else s, if c >= 400 then c - 400 else c)
  {
  }

  lemma FieldFits(speed: int, course: int, plus800: bool, plus400: bool)
    requires 0 <= speed < 800 && 0 <= course < 400
    ensures |SpeedCourseField(speed, course, plus800, plus400)| == 3
    ensures forall i | 0 <= i < 3 :: 28 <= SpeedCourseField(speed, course, plus800, plus400)[i] < 188
  {
    FieldDigits(speed + Marked(plus800, 800), course + Marked(plus400, 400));
  }

  // 820 and 651 are 20 knots on a course of 251 degrees.
  lemma KnownOffsetForm()
    ensures DecodedSpeedCourse([110, 34, 79]) == SpeedCourse(20, 251)
  {
    AnySpeedCourse(20, 251, true, true, [110, 34, 79]);
  }

  // Neither is known exactly when the field is short or an octet of it is below 28.
  lemma UnknownIff(b: seq<U8>)
    ensures DecodedSpeedCourse(b) == SpeedCourse(-1, -1) <==> |b| < 3 || b[0] < 28 || b[1] < 28 || b[2] < 28
    ensures |b| >= 3 && b[0] >= 28 && b[1] >= 28 && b[2] >= 28 ==>
              DecodedSpeedCourse(b).speed >= 0 && DecodedSpeedCourse(b).course >= 0
  {
  }

  // ----- a squashed field -----

  // What a gateway that turns the two spaces of a speed and course field into one leaves
  // of the text after the type octet.
  function SquashedBody(body: seq<U8>): seq<U8>
    requires |body| >= 9
  {
    body[..4] + body[5..]
  }

  // The lost space is put back exactly when the octet after the symbol is no symbol
  // table: if it is, the shifted text passes for an intact one.
  lemma SquashUndoneIff(body: seq<U8>)
    requires |body| >= 9 && body[4] == SPACE && body[5] == SPACE && IsSymTable(body[7])
    ensures Unsquashed(SquashedBody(body)) == body <==> !IsSymTable(body[8])
    ensures IsSymTable(body[8]) ==> Unsquashed(SquashedBody(body)) == SquashedBody(body)
  {
    var q := SquashedBody(body);
    assert q[4] == SPACE && q[6] == body[7] && q[7] == body[8];
    assert q[..4] == body[..4] && q[4..] == body[5..];
    if !IsSymTable(body[8]) {
      assert body == body[..4] + [SPACE] + body[5..];
    } else {
      assert |q| != |body|;
    }
  }

  // A text with a symbol table in its place is never touched.
  lemma IntactKept(body: seq<U8>)
    requires |body| >= 8 && IsSymTable(body[7])
    ensures Unsquashed(body) == body
  {
  }

  // So such a report is read as the one that was sent.
  lemma SquashedReportReads(kind: U8, body: seq<U8>, dest: seq<U8>)
    requires |body| >= 9 && body[4] == SPACE && body[5] == SPACE && IsSymTable(body[7]) && !IsSymTable(body[8])
    ensures Parsed([kind] + SquashedBody(body), dest) == Parsed([kind] + body, dest)
  {
    SquashUndoneIff(body);
    IntactKept(body);
    var q := SquashedBody(body);
    assert ([kind] + q)[1..] == q && ([kind] + body)[1..] == body && q[..3] == body[..3];
    hide DecodedDest, DecodedLon, DecodedSpeedCourse, AltitudeAt, Unsquashed, SquashedBody, IsSymTable;
    ParsedUnsquashed([kind] + q, dest, body);
    ParsedUnsquashed([kind] + body, dest, body);
  }

  // The report in terms of the text put right.
  function ReadAs(body: seq<U8>, dest: seq<U8>): Result<Report>
    requires |body| >= 8
  {
    var d :- DecodedDest(dest);
    var lon :- DecodedLon(body[..3], d.lonOffset, d.ewSign);
    var sc := DecodedSpeedCourse(body[3..6]);
    if !IsSymTable(body[7]) then Err
    else
      var rest := body[8..];
      var r := Report(d.lat * d.nsSign, lon, d.msgCode, if sc.speed >= 0 then sc.speed else 0, CourseOf(sc.course),
                      body[7], body[6], None, rest);
      if AltitudeAt(rest, 0).Some? then Ok(r.(altitude := AltitudeAt(rest, 0), rest := SpliceAltitude(rest, 0)))
      else if AltitudeAt(rest, 1).Some? then Ok(r.(altitude := AltitudeAt(rest, 1), rest := SpliceAltitude(rest, 1)))
      else Ok(r)
  }

  lemma ParsedUnsquashed(info: seq<U8>, dest: seq<U8>, body: seq<U8>)
    requires |info| >= 9 && |body| >= 8 && Unsquashed(info[1..]) == body && info[1..][..3] == body[..3]
    ensures Parsed(info, dest) == ReadAs(body, dest)
  {
    hide DecodedDest, DecodedLon, DecodedSpeedCourse, AltitudeAt, Unsquashed, IsSymTable;
  }

  // ----- altitude after a manufacturer's prefix -----

  // An altitude may follow one octet of prefix: it is read, and the prefix and the comment
  // are what is left.
  lemma PrefixedAltitude(prefix: U8, altM: real, comment: seq<U8>)
    ensures var rest := [prefix] + (AltitudeExt(altM) + comment);
            && AltitudeAt(rest, 0) == None && AltitudeAt(rest, 1) == Some(AltCode(altM) - 10000)
            && SpliceAltitude(rest, 1) == [prefix] + comment
  {
    var v := AltCode(altM);
    var ext := AltitudeExt(altM);
    Base91(v);
    hide AltCode;
    AltitudeRoundTrip(altM, comment);
    ByteSmall(v % 91);
    ByteSmall(v % 91 + 33);
    var rest := [prefix] + (ext + comment);
    assert rest[3] == ext[2] != CLOSE_BRACE;
    assert rest[1] == (ext + comment)[0] && rest[2] == (ext + comment)[1] && rest[4] == (ext + comment)[3];
    assert rest[5..] == (ext + comment)[4..];
  }

  // ----- known reports -----

  // 35.5 N, 72.5 W, message 1, standing still, symbol /> : the destination is 35S0P0 with
  // the west flag in its last character, and the text has the digits plus 28.
  lemma KnownDestination()
    ensures EncodedDest(35.5, 1, false, true, 0) == [51, 53, 83, 80, 48, 80]
    ensures DecodedDest([51, 53, 83, 80, 48, 80]) == Ok(Dest(35.5, 1, 1.0, 0, -1.0))
  {
    LatPartsAre(35.5);
    assert LatParts(35.5) == Parts(35, 30, 0);
    var d: seq<U8> := [51, 53, 83, 80, 48, 80];
    assert Digits(d) == [3, 5, 3, 0, 0, 0];
  }

  lemma KnownReport()
    ensures Parsed([96, 100, 58, 28, 28, 28, 28, 62, 47], [51, 53, 83, 80, 48, 80])
            == Ok(Report(35.5, -72.5, 1, 0, None, 47, 62, None, []))
  {
    KnownDestination();
    hide DecodedDest;
    var body: seq<U8> := [100, 58, 28, 28, 28, 28, 62, 47];
    var info: seq<U8> := [96, 100, 58, 28, 28, 28, 28, 62, 47];
    assert info[1..] == body && body[..3] == [100, 58, 28] && body[3..6] == [28, 28, 28] && body[8..] == [];
  }
}
