// The AX.25 control field under both moduli: pkg/ax25conn/control.go.
// Octets are integers 0..255; a mask or shift is written as the division or
// remainder it stands for.

module Control {
  import opened Common

  datatype FrameKind =
    | FrameInvalid
    | FrameI | FrameRR | FrameRNR | FrameREJ | FrameSREJ
    | FrameSABM | FrameSABME | FrameDISC | FrameDM | FrameUA
    | FrameFRMR | FrameUI | FrameXID | FrameTEST

  datatype Control = Control(kind: FrameKind, ns: U8, nr: U8, pf: bool)

  function Modulus(mod128: bool): int {
    if mod128 then 128 else 8
  }

  predicate IsS(k: FrameKind) {
    k.FrameRR? || k.FrameRNR? || k.FrameREJ? || k.FrameSREJ?
  }

  predicate IsU(k: FrameKind) {
    || k.FrameSABM? || k.FrameSABME? || k.FrameDISC? || k.FrameDM? || k.FrameUA?
    || k.FrameFRMR? || k.FrameUI? || k.FrameXID? || k.FrameTEST?
  }

  // The low four bits of a supervisory control octet.
  function SCode(k: FrameKind): U8
    requires IsS(k)
  {
    match k
    case FrameRR => 0x01
    case FrameRNR => 0x05
    case FrameREJ => 0x09
    case FrameSREJ => 0x0D
  }

  function SKind(code: int): FrameKind
    requires 0 <= code < 4
  {
    if code == 0 then FrameRR
    else if code == 1 then FrameRNR
    else if code == 2 then FrameREJ
    else FrameSREJ
  }

  // An unnumbered control octet with the P/F bit clear.
  function UCode(k: FrameKind): U8
    requires IsU(k)
  {
    match k
    case FrameSABM => 0x2F
    case FrameSABME => 0x6F
    case FrameDISC => 0x43
    case FrameDM => 0x0F
    case FrameUA => 0x63
    case FrameFRMR => 0x87
    case FrameUI => 0x03
    case FrameXID => 0xAF
    case FrameTEST => 0xE3
  }

  function UKind(code: int): Option<FrameKind> {
    if code == 0x2F then Some(FrameSABM)
    else if code == 0x6F then Some(FrameSABME)
    else if code == 0x43 then Some(FrameDISC)
    else if code == 0x0F then Some(FrameDM)
    else if code == 0x63 then Some(FrameUA)
    else if code == 0x87 then Some(FrameFRMR)
    else if code == 0x03 then Some(FrameUI)
    else if code == 0xAF then Some(FrameXID)
    else if code == 0xE3 then Some(FrameTEST)
    else None
  }

  function PFBit(pf: bool, weight: int): int {
    if pf then weight else 0
  }

  function ParseControl8(b: U8): Result<Control> {
    var pf := (b / 16) % 2 == 1;
    if b % 2 == 0 then Ok(Control(FrameI, (b / 2) % 8, b / 32, pf))
    else if b % 4 == 1 then Ok(Control(SKind((b / 4) % 4), 0, b / 32, pf))
    else match UKind(b - PFBit(pf, 16)) {
      case None => Err
      case Some(k) => Ok(Control(k, 0, 0, pf))
    }
  }

  function ParseControl128(b: seq<U8>): Result<Control> {
    if |b| < 1 then Err
    else if b[0] % 4 == 3 then ParseControl8(b[0])
    else if |b| < 2 then Err
    else
      var pf := b[1] % 2 == 1;
      if b[0] % 2 == 0 then Ok(Control(FrameI, b[0] / 2, b[1] / 2, pf))
      else if b[0] / 16 != 0 then Err
      else Ok(Control(SKind((b[0] / 4) % 4), 0, b[1] / 2, pf))
  }

  function ParseControl(b: seq<U8>, mod128: bool): Result<Control> {
    if mod128 then ParseControl128(b)
    else if |b| < 1 then Err
    else ParseControl8(b[0])
  }

  function EncodeControl8(c: Control): Result<seq<U8>> {
    if c.kind == FrameI then
      if c.ns > 7 || c.nr > 7 then Err
      else Ok([c.nr * 32 + PFBit(c.pf, 16) + c.ns * 2])
    else if IsS(c.kind) then
      if c.nr > 7 then Err
      else Ok([c.nr * 32 + PFBit(c.pf, 16) + SCode(c.kind)])
    else if IsU(c.kind) then Ok([UCode(c.kind) + PFBit(c.pf, 16)])
    else Err
  }

  function EncodeControl128(c: Control): Result<seq<U8>> {
    if c.kind == FrameI then
      if c.ns > 127 || c.nr > 127 then Err
      else Ok([c.ns * 2, c.nr * 2 + PFBit(c.pf, 1)])
    else if IsS(c.kind) then
      if c.nr > 127 then Err
      else Ok([SCode(c.kind), c.nr * 2 + PFBit(c.pf, 1)])
    else if IsU(c.kind) then EncodeControl8(c)
    else Err
  }

  function EncodeControl(c: Control, mod128: bool): Result<seq<U8>> {
    if mod128 then EncodeControl128(c) else EncodeControl8(c)
  }

  // What a control field can say under a modulus: sequence numbers below it, and
  // zero in the fields the kind does not carry.
  predicate WellFormed(c: Control, mod128: bool) {
    && c.kind != FrameInvalid
    && c.ns < Modulus(mod128) && c.nr < Modulus(mod128)
    && (c.kind != FrameI ==> c.ns == 0)
    && (IsU(c.kind) ==> c.nr == 0)
  }

  // The number of octets a control field starting with b occupies.
  function Width(b: U8, mod128: bool): int {
    if mod128 && b % 4 != 3 then 2 else 1
  }

  // An octet splits into its top three bits, its P/F bit and its low four bits.
  lemma OctetFields(nr: int, p: int, low: int)
    requires 0 <= nr < 8 && 0 <= p < 2 && 0 <= low < 16
    ensures var b := nr * 32 + p * 16 + low;
            b / 32 == nr && (b / 16) % 2 == p && b % 16 == low
            && b % 2 == low % 2 && b % 4 == low % 4 && (b / 4) % 4 == low / 4 && (b / 2) % 8 == low / 2
  {
  }

  lemma OctetJoins(b: U8)
    ensures b == (b / 32) * 32 + ((b / 16) % 2) * 16 + b % 16
    ensures 0 <= b / 32 < 8
  {
  }

  lemma EncodeThenParseI(c: Control)
    requires c.kind == FrameI && c.ns < 8 && c.nr < 8
    ensures var b := c.nr * 32 + PFBit(c.pf, 16) + c.ns * 2;
            b < 256 && b % 2 == 0 && ParseControl8(b) == Ok(c)
  {
    OctetFields(c.nr, PFBit(c.pf, 1), c.ns * 2);
  }

  lemma EncodeThenParseS(c: Control)
    requires IsS(c.kind) && c.ns == 0 && c.nr < 8
    ensures var b := c.nr * 32 + PFBit(c.pf, 16) + SCode(c.kind);
            b < 256 && b % 4 == 1 && ParseControl8(b) == Ok(c)
  {
    OctetFields(c.nr, PFBit(c.pf, 1), SCode(c.kind));
  }

  lemma EncodeThenParseU(c: Control)
    requires IsU(c.kind) && c.ns == 0 && c.nr == 0
    ensures var b := UCode(c.kind) + PFBit(c.pf, 16);
            b < 256 && b % 4 == 3 && ParseControl8(b) == Ok(c)
  {
  }

  lemma EncodeThenParse128(c: Control, b: seq<U8>)
    requires WellFormed(c, true) && !IsU(c.kind)
    requires |b| >= 2 && b[1] == c.nr * 2 + PFBit(c.pf, 1)
    requires b[0] == if c.kind == FrameI then c.ns * 2 else SCode(c.kind)
    ensures ParseControl128(b) == Ok(c) && b[0] % 4 != 3
  {
    assert b[1] / 2 == c.nr && (b[1] % 2 == 1) == c.pf;
    if c.kind != FrameI {
      assert b[0] / 16 == 0 && SKind((b[0] / 4) % 4) == c.kind;
    }
  }

  // Encoding succeeds for every control field the modulus has, and the parser reads
  // back what was written, whatever follows it.
  lemma EncodeThenParse(c: Control, mod128: bool, rest: seq<U8>)
    requires WellFormed(c, mod128)
    ensures EncodeControl(c, mod128).Ok?
    ensures ParseControl(EncodeControl(c, mod128).value + rest, mod128) == Ok(c)
    ensures |EncodeControl(c, mod128).value| == Width(EncodeControl(c, mod128).value[0], mod128)
  {
    if IsU(c.kind) {
      EncodeThenParseU(c);
    } else if mod128 {
      EncodeThenParse128(c, EncodeControl128(c).value + rest);
    } else if c.kind == FrameI {
      EncodeThenParseI(c);
    } else {
      EncodeThenParseS(c);
    }
  }

  lemma ParseThenEncodeI(b: U8)
    requires b % 2 == 0
    ensures (b / 32) * 32 + PFBit((b / 16) % 2 == 1, 16) + ((b / 2) % 8) * 2 == b && b / 32 < 8
  {
    OctetJoins(b);
  }

  lemma ParseThenEncodeS(b: U8)
    requires b % 4 == 1
    ensures SCode(SKind((b / 4) % 4)) == b % 16
  {
  }

  lemma ParseThenEncodeU(b: U8, c: Control)
    requires b % 4 == 3 && ParseControl8(b) == Ok(c)
    ensures IsU(c.kind) && c.ns == 0 && c.nr == 0
    ensures EncodeControl8(c) == Ok([b])
  {
    var k := UKind(b - PFBit((b / 16) % 2 == 1, 16));
    assert k.Some?;
  }

  lemma ParseThenEncode8(b: U8, c: Control)
    requires b % 4 != 3 && ParseControl8(b) == Ok(c)
    ensures WellFormed(c, false) && EncodeControl8(c) == Ok([b])
  {
    hide UKind, UCode;
    if b % 2 == 0 {
      ParseThenEncodeI(b);
      assert c == Control(FrameI, (b / 2) % 8, b / 32, (b / 16) % 2 == 1);
    } else {
      assert c == Control(SKind((b / 4) % 4), 0, b / 32, (b / 16) % 2 == 1);
      ParseThenEncodeS(b);
      OctetJoins(b);
    }
  }

  lemma ParseThenEncode128(b: seq<U8>, c: Control)
    requires ParseControl128(b) == Ok(c) && b[0] % 4 != 3
    ensures WellFormed(c, true)
    ensures |b| >= 2 && EncodeControl128(c) == Ok([b[0], b[1]])
  {
    assert c.nr * 2 + PFBit(c.pf, 1) == b[1];
    if b[0] % 2 == 1 {
      ParseThenEncodeS(b[0]);
    } else {
      assert c.kind == FrameI && c.ns * 2 == b[0];
    }
  }

  // The other direction: a parsed control field is well formed (so its numbers are
  // below the modulus it was parsed under) and encodes to the octets it came from.
  lemma ParseThenEncode(b: seq<U8>, mod128: bool, c: Control)
    requires ParseControl(b, mod128) == Ok(c)
    ensures WellFormed(c, mod128)
    ensures Width(b[0], mod128) <= |b|
    ensures EncodeControl(c, mod128) == Ok(b[..Width(b[0], mod128)])
  {
    hide ParseControl8, EncodeControl8, UCode, UKind;
    if b[0] % 4 == 3 {
      ParseThenEncodeU(b[0], c);
      assert b[..1] == [b[0]];
    } else if mod128 {
      ParseThenEncode128(b, c);
      assert b[..2] == [b[0], b[1]];
    } else {
      ParseThenEncode8(b[0], c);
      assert b[..1] == [b[0]];
    }
  }
}
