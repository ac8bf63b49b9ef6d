// The frame check sequence: graywolf-modem/src/hdlc.rs:20-75.

module Fcs {

  // ----- the table -----

  // Of four values, the one two bits of an index select.
  function Pick(hi: bool, lo: bool, a: bv16, b: bv16, c: bv16, d: bv16): bv16 {
    if hi then (if lo then d else c) else (if lo then b else a)
  }

  // Sixteen entries of the table, selected by the low half of the index.
  function Row(i: bv16, e0: bv16, e1: bv16, e2: bv16, e3: bv16, e4: bv16, e5: bv16, e6: bv16, e7: bv16,
               e8: bv16, e9: bv16, eA: bv16, eB: bv16, eC: bv16, eD: bv16, eE: bv16, eF: bv16): bv16 {
    var b3, b2, b1, b0 := i & 8 != 0, i & 4 != 0, i & 2 != 0, i & 1 != 0;
    Pick(b3, b2, Pick(b1, b0, e0, e1, e2, e3), Pick(b1, b0, e4, e5, e6, e7),
         Pick(b1, b0, e8, e9, eA, eB), Pick(b1, b0, eC, eD, eE, eF))
  }

  // The 256-entry table.
  function CcittTable(i: bv16): bv16 {
    match i >> 4
    case 0 => Row(i, 0x0000, 0x1189, 0x2312, 0x329b, 0x4624, 0x57ad, 0x6536, 0x74bf,
                  0x8c48, 0x9dc1, 0xaf5a, 0xbed3, 0xca6c, 0xdbe5, 0xe97e, 0xf8f7)
    case 1 => Row(i, 0x1081, 0x0108, 0x3393, 0x221a, 0x56a5, 0x472c, 0x75b7, 0x643e,
                  0x9cc9, 0x8d40, 0xbfdb, 0xae52, 0xdaed, 0xcb64, 0xf9ff, 0xe876)
    case 2 => Row(i, 0x2102, 0x308b, 0x0210, 0x1399, 0x6726, 0x76af, 0x4434, 0x55bd,
                  0xad4a, 0xbcc3, 0x8e58, 0x9fd1, 0xeb6e, 0xfae7, 0xc87c, 0xd9f5)
    case 3 => Row(i, 0x3183, 0x200a, 0x1291, 0x0318, 0x77a7, 0x662e, 0x54b5, 0x453c,
                  0xbdcb, 0xac42, 0x9ed9, 0x8f50, 0xfbef, 0xea66, 0xd8fd, 0xc974)
    case 4 => Row(i, 0x4204, 0x538d, 0x6116, 0x709f, 0x0420, 0x15a9, 0x2732, 0x36bb,
                  0xce4c, 0xdfc5, 0xed5e, 0xfcd7, 0x8868, 0x99e1, 0xab7a, 0xbaf3)
    case 5 => Row(i, 0x5285, 0x430c, 0x7197, 0x601e, 0x14a1, 0x0528, 0x37b3, 0x263a,
                  0xdecd, 0xcf44, 0xfddf, 0xec56, 0x98e9, 0x8960, 0xbbfb, 0xaa72)
    case 6 => Row(i, 0x6306, 0x728f, 0x4014, 0x519d, 0x2522, 0x34ab, 0x0630, 0x17b9,
                  0xef4e, 0xfec7, 0xcc5c, 0xddd5, 0xa96a, 0xb8e3, 0x8a78, 0x9bf1)
    case 7 => Row(i, 0x7387, 0x620e, 0x5095, 0x411c, 0x35a3, 0x242a, 0x16b1, 0x0738,
                  0xffcf, 0xee46, 0xdcdd, 0xcd54, 0xb9eb, 0xa862, 0x9af9, 0x8b70)
    case 8 => Row(i, 0x8408, 0x9581, 0xa71a, 0xb693, 0xc22c, 0xd3a5, 0xe13e, 0xf0b7,
                  0x0840, 0x19c9, 0x2b52, 0x3adb, 0x4e64, 0x5fed, 0x6d76, 0x7cff)
    case 9 => Row(i, 0x9489, 0x8500, 0xb79b, 0xa612, 0xd2ad, 0xc324, 0xf1bf, 0xe036,
                  0x18c1, 0x0948, 0x3bd3, 0x2a5a, 0x5ee5, 0x4f6c, 0x7df7, 0x6c7e)
    case 10 => Row(i, 0xa50a, 0xb483, 0x8618, 0x9791, 0xe32e, 0xf2a7, 0xc03c, 0xd1b5,
                  0x2942, 0x38cb, 0x0a50, 0x1bd9, 0x6f66, 0x7eef, 0x4c74, 0x5dfd)
    case 11 => Row(i, 0xb58b, 0xa402, 0x9699, 0x8710, 0xf3af, 0xe226, 0xd0bd, 0xc134,
                  0x39c3, 0x284a, 0x1ad1, 0x0b58, 0x7fe7, 0x6e6e, 0x5cf5, 0x4d7c)
    case 12 => Row(i, 0xc60c, 0xd785, 0xe51e, 0xf497, 0x8028, 0x91a1, 0xa33a, 0xb2b3,
                  0x4a44, 0x5bcd, 0x6956, 0x78df, 0x0c60, 0x1de9, 0x2f72, 0x3efb)
    case 13 => Row(i, 0xd68d, 0xc704, 0xf59f, 0xe416, 0x90a9, 0x8120, 0xb3bb, 0xa232,
                  0x5ac5, 0x4b4c, 0x79d7, 0x685e, 0x1ce1, 0x0d68, 0x3ff3, 0x2e7a)
    case 14 => Row(i, 0xe70e, 0xf687, 0xc41c, 0xd595, 0xa12a, 0xb0a3, 0x8238, 0x93b1,
                  0x6b46, 0x7acf, 0x4854, 0x59dd, 0x2d62, 0x3ceb, 0x0e70, 0x1ff9)
    case _ => Row(i, 0xf78f, 0xe606, 0xd49d, 0xc514, 0xb1ab, 0xa022, 0x92b9, 0x8330,
                  0x7bc7, 0x6a4e, 0x58d5, 0x495c, 0x3de3, 0x2c6a, 0x1ef1, 0x0f78)
  }

  // Exclusive or, by name: the proofs below reason about it as an operation with
  // laws rather than bit by bit.
  function Xor(a: bv16, b: bv16): bv16 {
    a ^ b
  }

  function Crc16Step(crc: bv16, octet: bv8): bv16 {
    Xor(crc >> 8, CcittTable(Xor(crc, octet as bv16) & 0xff))
  }

  function Crc16Finalize(crc: bv16): bv16 {
    Xor(crc, 0xffff)
  }

  // The register after a run of octets.
  function Folded(crc: bv16, data: seq<bv8>): bv16
    decreases |data|
  {
    if data == [] then crc else Folded(Crc16Step(crc, data[0]), data[1..])
  }

  function FcsOf(data: seq<bv8>): bv16 {
    Crc16Finalize(Folded(0xffff, data))
  }

  lemma {:induction false} FoldedConcat(crc: bv16, a: seq<bv8>, b: seq<bv8>)
    ensures Folded(crc, a + b) == Folded(Folded(crc, a), b)
    decreases |a|
  {
    if a == [] {
      assert [] + b == b;
    } else {
      assert (a + b)[1..] == a[1..] + b;
      FoldedConcat(Crc16Step(crc, a[0]), a[1..], b);
    }
  }

  method FcsCalc(data: seq<bv8>) returns (fcs: bv16)
    ensures fcs == FcsOf(data)
  {
    hide Crc16Step;
    var crc: bv16 := 0xffff;
    for i := 0 to |data|
      invariant crc == Folded(0xffff, data[..i])
    {
      assert data[..i + 1] == data[..i] + [data[i]];
      FoldedConcat(0xffff, data[..i], [data[i]]);
      assert Folded(crc, [data[i]]) == Folded(Crc16Step(crc, data[i]), [data[i]][1..]);
      crc := Crc16Step(crc, data[i]);
    }
    assert data[..|data|] == data;
    fcs := Crc16Finalize(crc);
  }

  // ----- one bit at a time: the reflected polynomial 0x8408 -----

  function Half(w: bv16): bv16 {
    w >> 1
  }

  predicate Odd(w: bv16) {
    w & 1 == 1
  }

  function Shifted(crc: bv16): bv16 {
    Xor(Half(crc), if Odd(crc) then 0x8408 else 0)
  }

  function Unit(b: bool): bv16 {
    if b then 1 else 0
  }

  function BitStep(crc: bv16, b: bool): bv16 {
    Shifted(Xor(crc, Unit(b)))
  }

  function FedBits(crc: bv16, bits: seq<bool>): bv16
    decreases |bits|
  {
    if bits == [] then crc else FedBits(BitStep(crc, bits[0]), bits[1..])
  }

  function Bit(o: bv8, k: int): bool
    requires 0 <= k < 8
  {
    match k
    case 0 => o & 1 != 0
    case 1 => o & 2 != 0
    case 2 => o & 4 != 0
    case 3 => o & 8 != 0
    case 4 => o & 0x10 != 0
    case 5 => o & 0x20 != 0
    case 6 => o & 0x40 != 0
    case _ => o & 0x80 != 0
  }

  // The bits of an octet in the order they are sent, lowest first.
  function OctetBits(o: bv8): seq<bool> {
    [Bit(o, 0), Bit(o, 1), Bit(o, 2), Bit(o, 3), Bit(o, 4), Bit(o, 5), Bit(o, 6), Bit(o, 7)]
  }

  function BitsOf(data: seq<bv8>): (r: seq<bool>)
    ensures |r| == 8 * |data|
  {
    if data == [] then [] else OctetBits(data[0]) + BitsOf(data[1..])
  }

  function Shifted8(crc: bv16): bv16 {
    Shifted(Shifted(Shifted(Shifted(Shifted(Shifted(Shifted(Shifted(crc))))))))
  }

  lemma TableLow(i: bv16)
    requires i < 0x80
    ensures CcittTable(i) == Shifted8(i)
  {
  }

  lemma TableHigh(i: bv16)
    requires 0x80 <= i <= 0xff
    ensures CcittTable(i) == Shifted8(i)
  {
  }

  // Every entry of the table is eight steps of the bitwise register.
  lemma TableIsBitwise(i: bv16)
    requires i <= 0xff
    ensures CcittTable(i) == Shifted8(i)
  {
    hide CcittTable, Shifted8;
    if i < 0x80 {
      TableLow(i);
    } else {
      TableHigh(i);
    }
  }

  // ----- laws of exclusive or and of the shift -----

  lemma XorLaws(a: bv16, b: bv16, c: bv16)
    ensures Xor(Xor(a, b), c) == Xor(a, Xor(b, c))
    ensures Xor(a, b) == Xor(b, a)
  {
  }

  lemma XorSelf(a: bv16)
    ensures Xor(a, a) == 0 && Xor(a, 0) == a && Xor(0, a) == a
  {
  }

  lemma XorMoves(a: bv16, b: bv16, c: bv16)
    ensures Xor(a, b) == c <==> b == Xor(a, c)
  {
    hide Xor;
    XorLaws(a, a, b);
    XorLaws(a, a, c);
    XorSelf(a);
    XorSelf(b);
    XorSelf(c);
  }

  lemma XorSwaps(a: bv16, b: bv16, c: bv16, d: bv16)
    ensures Xor(Xor(a, b), Xor(c, d)) == Xor(Xor(a, c), Xor(b, d))
  {
    hide Xor;
    XorLaws(a, b, Xor(c, d));
    XorLaws(b, c, d);
    XorLaws(c, b, d);
    XorLaws(a, c, Xor(b, d));
  }

  lemma HalfXor(x: bv16, y: bv16)
    ensures Half(Xor(x, y)) == Xor(Half(x), Half(y))
    ensures Odd(Xor(x, y)) <==> Odd(x) != Odd(y)
  {
    assert (x ^ y) >> 1 == (x >> 1) ^ (y >> 1);
    assert (x ^ y) & 1 == (x & 1) ^ (y & 1);
  }

  // The register without input is linear.
  lemma ShiftedXor(x: bv16, y: bv16)
    ensures Shifted(Xor(x, y)) == Xor(Shifted(x), Shifted(y))
  {
    hide Half, Odd, Xor;
    HalfXor(x, y);
    var a, b: bv16 := if Odd(x) then 0x8408 else 0, if Odd(y) then 0x8408 else 0;
    XorSwaps(Half(x), a, Half(y), b);
    XorSelf(0x8408);
    XorSelf(0);
  }

  lemma Shifted8Xor(x: bv16, y: bv16)
    ensures Shifted8(Xor(x, y)) == Xor(Shifted8(x), Shifted8(y))
  {
    hide Shifted, Xor;
    var x1, y1 := Shifted(x), Shifted(y);
    var x2, y2 := Shifted(x1), Shifted(y1);
    var x3, y3 := Shifted(x2), Shifted(y2);
    var x4, y4 := Shifted(x3), Shifted(y3);
    var x5, y5 := Shifted(x4), Shifted(y4);
    var x6, y6 := Shifted(x5), Shifted(y5);
    var x7, y7 := Shifted(x6), Shifted(y6);
    ShiftedXor(x, y);
    ShiftedXor(x1, y1);
    ShiftedXor(x2, y2);
    ShiftedXor(x3, y3);
    ShiftedXor(x4, y4);
    ShiftedXor(x5, y5);
    ShiftedXor(x6, y6);
    ShiftedXor(x7, y7);
  }

  lemma ShiftedEven(w: bv16)
    requires w & 0x8000 == 0
    ensures Shifted(w << 1) == w
  {
  }

  lemma HighComesDown(h: bv16)
    requires h <= 0xff
    ensures Shifted8(h << 8) == h
  {
  }

  lemma Halves(crc: bv16)
    ensures crc == Xor((crc >> 8) << 8, crc & 0xff) && crc >> 8 <= 0xff
  {
  }

  // The high octet of the register is only shifted while the low one is worked off.
  lemma HighOctetShifts(crc: bv16)
    ensures Shifted8(crc) == Xor(crc >> 8, Shifted8(crc & 0xff))
  {
    hide Shifted8, Xor;
    Halves(crc);
    Shifted8Xor((crc >> 8) << 8, crc & 0xff);
    HighComesDown(crc >> 8);
  }

  // ----- up to sixteen bits at once -----

  // The bits as a number, the first one lowest.
  function Word(bits: seq<bool>): bv16 {
    if bits == [] then 0 else Joined(Word(bits[1..]), bits[0])
  }

  function Joined(w: bv16, b: bool): bv16 {
    Xor(w << 1, Unit(b))
  }

  function ShiftedBy(crc: bv16, n: nat): bv16
    decreases n
  {
    if n == 0 then crc else ShiftedBy(Shifted(crc), n - 1)
  }

  // The n lowest bits.
  function Mask(n: nat): bv16 {
    match n
    case 0 => 0 case 1 => 1 case 2 => 3 case 3 => 7 case 4 => 0xf case 5 => 0x1f case 6 => 0x3f case 7 => 0x7f
    case 8 => 0xff case 9 => 0x1ff case 10 => 0x3ff case 11 => 0x7ff case 12 => 0xfff case 13 => 0x1fff
    case 14 => 0x3fff case 15 => 0x7fff case _ => 0xffff
  }

  predicate Fits(w: bv16, n: nat) {
    w & !Mask(n) == 0
  }

  lemma MaskStep(n: nat, w: bv16, b: bool)
    requires 0 < n <= 16 && Fits(w, n - 1)
    ensures w & 0x8000 == 0 && Fits(Joined(w, b), n)
  {
  }

  lemma {:induction false} WordFits(bits: seq<bool>)
    requires |bits| <= 16
    ensures Fits(Word(bits), |bits|)
    decreases |bits|
  {
    if bits != [] {
      hide Fits, Joined;
      WordFits(bits[1..]);
      MaskStep(|bits|, Word(bits[1..]), bits[0]);
    }
  }

  lemma ShiftedAbsorbs(crc: bv16, w: bv16, b: bool)
    requires w & 0x8000 == 0
    ensures Shifted(Xor(crc, Joined(w, b))) == Xor(BitStep(crc, b), w)
  {
    hide Shifted, Xor;
    var u := Unit(b);
    XorLaws(w << 1, u, 0);
    XorLaws(crc, u, w << 1);
    ShiftedXor(Xor(crc, u), w << 1);
    ShiftedEven(w);
  }

  // Bits fed one by one do what their number does all at once.
  lemma {:induction false} FedWord(crc: bv16, bits: seq<bool>)
    requires |bits| <= 16
    ensures FedBits(crc, bits) == ShiftedBy(Xor(crc, Word(bits)), |bits|)
    decreases |bits|
  {
    hide Shifted, Xor, Joined, BitStep, Fits;
    if bits == [] {
      XorSelf(crc);
    } else {
      var w := Word(bits[1..]);
      WordFits(bits[1..]);
      MaskStep(|bits|, w, bits[0]);
      FedWord(BitStep(crc, bits[0]), bits[1..]);
      ShiftedAbsorbs(crc, w, bits[0]);
    }
  }

  lemma OctetJoined(o: bv8)
    ensures Joined(Joined(Joined(Joined(Joined(Joined(Joined(Joined(0, Bit(o, 7)), Bit(o, 6)), Bit(o, 5)), Bit(o, 4)),
                                        Bit(o, 3)), Bit(o, 2)), Bit(o, 1)), Bit(o, 0)) == o as bv16
  {
  }

  lemma OctetWord(o: bv8)
    ensures Word(OctetBits(o)) == o as bv16
  {
    hide Joined, Bit;
    var b := OctetBits(o);
    assert b[1..][1..] == b[2..] && b[2..][1..] == b[3..] && b[3..][1..] == b[4..];
    assert b[4..][1..] == b[5..] && b[5..][1..] == b[6..] && b[6..][1..] == b[7..] && b[7..][1..] == [];
    var w7 := Joined(0, b[7]);
    var w6 := Joined(w7, b[6]);
    var w5 := Joined(w6, b[5]);
    var w4 := Joined(w5, b[4]);
    var w3 := Joined(w4, b[3]);
    var w2 := Joined(w3, b[2]);
    var w1 := Joined(w2, b[1]);
    assert Word(b[7..]) == w7;
    assert Word(b[6..]) == w6;
    assert Word(b[5..]) == w5;
    assert Word(b[4..]) == w4;
    assert Word(b[3..]) == w3;
    assert Word(b[2..]) == w2;
    assert Word(b[1..]) == w1;
    OctetJoined(o);
  }

  lemma ShiftedByEight(crc: bv16)
    ensures ShiftedBy(crc, 8) == Shifted8(crc)
  {
    hide Shifted;
    var c1 := Shifted(crc);
    var c2 := Shifted(c1);
    var c3 := Shifted(c2);
    var c4 := Shifted(c3);
    var c5 := Shifted(c4);
    var c6 := Shifted(c5);
    var c7 := Shifted(c6);
    var c8 := Shifted(c7);
    assert ShiftedBy(c8, 0) == c8 && ShiftedBy(c7, 1) == c8 && ShiftedBy(c6, 2) == c8 && ShiftedBy(c5, 3) == c8;
    assert ShiftedBy(c4, 4) == c8 && ShiftedBy(c3, 5) == c8 && ShiftedBy(c2, 6) == c8 && ShiftedBy(c1, 7) == c8;
  }

  lemma HighUntouched(crc: bv16, o: bv16)
    requires o <= 0xff
    ensures Xor(crc, o) >> 8 == crc >> 8
  {
  }

  lemma StepIs(crc: bv16, o: bv8)
    ensures Crc16Step(crc, o) == Shifted8(Xor(crc, o as bv16))
  {
    hide CcittTable, Shifted8, Xor;
    var x := Xor(crc, o as bv16);
    TableIsBitwise(x & 0xff);
    HighOctetShifts(x);
    HighUntouched(crc, o as bv16);
  }

  // One table step is the octet's eight bits through the bitwise register.
  lemma StepIsBitwise(crc: bv16, o: bv8)
    ensures Crc16Step(crc, o) == FedBits(crc, OctetBits(o))
  {
    hide Crc16Step, Shifted8, OctetBits, FedBits, Word, ShiftedBy, Xor;
    StepIs(crc, o);
    OctetHasEight(o);
    FedWord(crc, OctetBits(o));
    OctetWord(o);
    ShiftedByEight(Xor(crc, o as bv16));
  }

  lemma OctetHasEight(o: bv8)
    ensures |OctetBits(o)| == 8
  {
  }

  lemma {:induction false} FedConcat(crc: bv16, a: seq<bool>, b: seq<bool>)
    ensures FedBits(crc, a + b) == FedBits(FedBits(crc, a), b)
    decreases |a|
  {
    hide BitStep;
    if a == [] {
      assert [] + b == b;
    } else {
      assert (a + b)[1..] == a[1..] + b;
      FedConcat(BitStep(crc, a[0]), a[1..], b);
    }
  }

  // The table-driven register over octets is the bitwise one over their bits.
  lemma {:induction false} FoldedIsBitwise(crc: bv16, data: seq<bv8>)
    ensures Folded(crc, data) == FedBits(crc, BitsOf(data))
    decreases |data|
  {
    hide Crc16Step, OctetBits, FedBits;
    if data == [] {
      assert FedBits(crc, []) == crc by { FedNone(crc); }
    } else {
      StepIsBitwise(crc, data[0]);
      FoldedIsBitwise(Crc16Step(crc, data[0]), data[1..]);
      FedConcat(crc, OctetBits(data[0]), BitsOf(data[1..]));
    }
  }

  lemma FedNone(crc: bv16)
    ensures FedBits(crc, []) == crc
  {
  }

  // ----- error detection -----

  function Differences(x: seq<bool>, y: seq<bool>): (d: seq<bool>)
    requires |x| == |y|
    ensures |d| == |x| && forall i | 0 <= i < |d| :: d[i] == (x[i] != y[i])
  {
    if x == [] then [] else [x[0] != y[0]] + Differences(x[1..], y[1..])
  }

  lemma UnitXor(a: bool, b: bool)
    ensures Xor(Unit(a), Unit(b)) == Unit(a != b)
  {
  }

  lemma BitStepLinear(c: bv16, d: bv16, a: bool, b: bool)
    ensures Xor(BitStep(c, a), BitStep(d, b)) == BitStep(Xor(c, d), a != b)
  {
    hide Shifted, Xor, Unit;
    ShiftedXor(Xor(c, Unit(a)), Xor(d, Unit(b)));
    XorSwaps(c, Unit(a), d, Unit(b));
    UnitXor(a, b);
  }

  lemma {:induction false} FedLinear(c: bv16, d: bv16, x: seq<bool>, y: seq<bool>)
    requires |x| == |y|
    ensures Xor(FedBits(c, x), FedBits(d, y)) == FedBits(Xor(c, d), Differences(x, y))
    decreases |x|
  {
    hide BitStep, Xor;
    if x != [] {
      BitStepLinear(c, d, x[0], y[0]);
      FedLinear(BitStep(c, x[0]), BitStep(d, y[0]), x[1..], y[1..]);
    }
  }

  predicate AllFalse(bits: seq<bool>) {
    forall i | 0 <= i < |bits| :: !bits[i]
  }

  lemma {:induction false} FedZeros(crc: bv16, bits: seq<bool>)
    requires AllFalse(bits)
    ensures FedBits(crc, bits) == 0 <==> crc == 0
    decreases |bits|
  {
    if bits != [] {
      FedZeros(BitStep(crc, bits[0]), bits[1..]);
    }
  }

  lemma {:induction false} ShiftedByZero(crc: bv16, n: nat)
    ensures ShiftedBy(crc, n) == 0 <==> crc == 0
    decreases n
  {
    if n > 0 {
      ShiftedByZero(Shifted(crc), n - 1);
    }
  }

  lemma {:induction false} WordZero(bits: seq<bool>)
    requires |bits| <= 16
    ensures Word(bits) == 0 <==> AllFalse(bits)
    decreases |bits|
  {
    if bits != [] {
      hide Joined, Fits;
      WordZero(bits[1..]);
      WordFits(bits[1..]);
      MaskStep(|bits|, Word(bits[1..]), bits[0]);
      JoinedZero(Word(bits[1..]), bits[0]);
      assert AllFalse(bits) <==> !bits[0] && AllFalse(bits[1..]) by {
        assert forall i | 0 <= i < |bits| - 1 :: bits[1..][i] == bits[i + 1];
      }
    }
  }

  lemma JoinedZero(w: bv16, b: bool)
    requires w & 0x8000 == 0
    ensures Joined(w, b) == 0 <==> w == 0 && !b
  {
  }

  // x and y agree outside the sixteen bits from p.
  predicate Burst(x: seq<bool>, y: seq<bool>, p: nat) {
    |x| == |y| && forall i | 0 <= i < |x| :: !(p <= i < p + 16) ==> x[i] == y[i]
  }

  // What is fed between runs of zeros shows at the end.
  lemma WindowShows(a: seq<bool>, w: seq<bool>, z: seq<bool>)
    requires AllFalse(a) && AllFalse(z) && |w| <= 16 && !AllFalse(w)
    ensures FedBits(0, a + (w + z)) != 0
  {
    hide FedBits, Word, ShiftedBy, Xor, AllFalse;
    FedConcat(0, a, w + z);
    FedZeros(0, a);
    FedConcat(0, w, z);
    FedWord(0, w);
    WordZero(w);
    XorSelf(Word(w));
    ShiftedByZero(Word(w), |w|);
    FedZeros(FedBits(0, w), z);
  }

  // A burst of at most sixteen bits always changes the register.
  lemma BurstShows(crc: bv16, x: seq<bool>, y: seq<bool>, p: nat)
    requires Burst(x, y, p) && x != y
    ensures FedBits(crc, x) != FedBits(crc, y)
  {
    hide FedBits, Xor;
    var d := Differences(x, y);
    var lo := if p < |d| then p else |d|;
    var hi := if p + 16 < |d| then p + 16 else |d|;
    var i :| 0 <= i < |x| && x[i] != y[i];
    assert d[lo..hi][i - lo] == d[i];
    WindowShows(d[..lo], d[lo..hi], d[hi..]);
    assert d == d[..lo] + (d[lo..hi] + d[hi..]);
    FedLinear(crc, crc, x, y);
    XorSelf(crc);
    XorSelf(FedBits(crc, x));
  }

  lemma {:induction false} BitsInjective(x: seq<bv8>, y: seq<bv8>)
    requires |x| == |y| && BitsOf(x) == BitsOf(y)
    ensures x == y
    decreases |x|
  {
    hide OctetBits;
    if x != [] {
      OctetHasEight(x[0]);
      OctetHasEight(y[0]);
      assert OctetBits(x[0]) == BitsOf(x)[..8] == BitsOf(y)[..8] == OctetBits(y[0]);
      assert BitsOf(x[1..]) == BitsOf(x)[8..] == BitsOf(y)[8..] == BitsOf(y[1..]);
      BitsInjective(x[1..], y[1..]);
      OctetInjective(x[0], y[0]);
    }
  }

  lemma OctetInjective(x: bv8, y: bv8)
    requires OctetBits(x) == OctetBits(y)
    ensures x == y
  {
    OctetWord(x);
    OctetWord(y);
  }

  // Two messages of equal length, whatever it is, that differ only inside sixteen
  // consecutive bits never share a frame check sequence.
  lemma BurstChangesFcs(x: seq<bv8>, y: seq<bv8>, p: nat)
    requires |x| == |y| && x != y && Burst(BitsOf(x), BitsOf(y), p)
    ensures FcsOf(x) != FcsOf(y)
  {
    hide FedBits, Folded, BitsOf;
    FoldedIsBitwise(0xffff, x);
    FoldedIsBitwise(0xffff, y);
    if BitsOf(x) == BitsOf(y) {
      BitsInjective(x, y);
    }
    BurstShows(0xffff, BitsOf(x), BitsOf(y), p);
  }

  function FcsWord(lo: bv8, hi: bv8): bv16 {
    (lo as bv16) | ((hi as bv16) << 8)
  }

  // A received frame, its last two octets the check sequence, low octet first.
  predicate Checks(frame: seq<bv8>)
    requires |frame| >= 2
  {
    var n := |frame| - 2;
    FcsWord(frame[n], frame[n + 1]) == FcsOf(frame[..n])
  }

  lemma Folded2(crc: bv16, lo: bv8, hi: bv8)
    ensures Folded(crc, [lo, hi]) == Shifted8(Xor(Shifted8(Xor(crc, lo as bv16)), hi as bv16))
  {
    hide Crc16Step, Shifted8, Xor;
    assert [lo, hi][1..] == [hi] && [hi][1..] == [];
    var c := Crc16Step(crc, lo);
    assert Folded(Crc16Step(c, hi), []) == Crc16Step(c, hi);
    assert Folded(c, [hi]) == Crc16Step(c, hi);
    StepIs(crc, lo);
    StepIs(c, hi);
  }

  lemma OrIsXor(lo: bv16, hi: bv16)
    requires lo <= 0xff
    ensures lo | (hi << 8) == Xor(lo, hi << 8)
  {
  }

  lemma ResidueStep(crc: bv16, lo: bv8, hi: bv8)
    ensures Folded(crc, [lo, hi]) == 0xf0b8 <==> FcsWord(lo, hi) == Xor(crc, 0xffff)
  {
    hide Folded, Shifted8, Xor;
    var l, h := lo as bv16, hi as bv16;
    Folded2(crc, lo, hi);
    Shifted8Xor(Xor(crc, l), h << 8);
    HighComesDown(h);
    ResidueIs(Xor(Xor(crc, l), h << 8));
    XorLaws(crc, l, h << 8);
    XorMoves(crc, Xor(l, h << 8), 0xffff);
    OrIsXor(l, h);
  }

  lemma Shifted8Injective(x: bv16, y: bv16)
    requires Shifted8(x) == Shifted8(y)
    ensures x == y
  {
    hide Shifted;
    var x1, y1 := Shifted(x), Shifted(y);
    var x2, y2 := Shifted(x1), Shifted(y1);
    var x3, y3 := Shifted(x2), Shifted(y2);
    var x4, y4 := Shifted(x3), Shifted(y3);
    var x5, y5 := Shifted(x4), Shifted(y4);
    var x6, y6 := Shifted(x5), Shifted(y5);
    var x7, y7 := Shifted(x6), Shifted(y6);
    ShiftedInjective(x7, y7);
    ShiftedInjective(x6, y6);
    ShiftedInjective(x5, y5);
    ShiftedInjective(x4, y4);
    ShiftedInjective(x3, y3);
    ShiftedInjective(x2, y2);
    ShiftedInjective(x1, y1);
    ShiftedInjective(x, y);
  }

  lemma ShiftedInjective(x: bv16, y: bv16)
    requires Shifted(x) == Shifted(y)
    ensures x == y
  {
  }

  lemma ResidueIs(w: bv16)
    ensures Shifted8(Shifted8(w)) == 0xf0b8 <==> w == 0xffff
  {
    assert Shifted8(Shifted8(0xffff)) == 0xf0b8;
    hide Shifted8;
    if Shifted8(Shifted8(w)) == 0xf0b8 {
      Shifted8Injective(Shifted8(w), Shifted8(0xffff));
      Shifted8Injective(w, 0xffff);
    }
  }

  // A frame checks exactly when running its own check octets through the register
  // leaves the constant residue.
  lemma ChecksIsResidue(frame: seq<bv8>)
    requires |frame| >= 2
    ensures Checks(frame) <==> Folded(0xffff, frame) == 0xf0b8
  {
    hide Folded, FcsWord, Xor;
    var n := |frame| - 2;
    assert frame == frame[..n] + [frame[n], frame[n + 1]];
    FoldedConcat(0xffff, frame[..n], [frame[n], frame[n + 1]]);
    ResidueStep(Folded(0xffff, frame[..n]), frame[n], frame[n + 1]);
  }

  // No burst of up to sixteen bits anywhere in a good frame, its check octets
  // included, gets past the check.
  lemma BurstRejected(good: seq<bv8>, bad: seq<bv8>, p: nat)
    requires |good| == |bad| >= 2 && Checks(good) && good != bad && Burst(BitsOf(good), BitsOf(bad), p)
    ensures !Checks(bad)
  {
    hide Checks, FcsOf, BitsOf;
    ChecksIsResidue(good);
    ChecksIsResidue(bad);
    BurstChangesFcs(good, bad, p);
    assert FcsOf(good) != FcsOf(bad);
    assert Folded(0xffff, good) != Folded(0xffff, bad) by { FcsOfIs(good, bad); }
  }

  lemma FcsOfIs(x: seq<bv8>, y: seq<bv8>)
    ensures FcsOf(x) == FcsOf(y) <==> Folded(0xffff, x) == Folded(0xffff, y)
  {
    hide Folded, Xor;
    XorMoves(0xffff, Folded(0xffff, x), FcsOf(x));
    XorMoves(0xffff, Folded(0xffff, y), FcsOf(y));
    XorLaws(0xffff, Folded(0xffff, x), 0);
    XorLaws(0xffff, Folded(0xffff, y), 0);
  }
}
