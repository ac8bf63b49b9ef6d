// The line, bit by bit: what stuffing and NRZI mean, what the transmitter's parts are in
// full, and one transmission written out.
// graywolf-modem/src/tx/hdlc_encode.rs

module HdlcLine {
  import opened Common
  import opened Fcs
  import opened HdlcSpec
  import HdlcSync

  // A zero turns the line over and a one leaves it.
  lemma {:induction false} ZeroTurns(bits: seq<bool>, line: bool, i: nat)
    requires i < |bits|
    ensures |Nrzi(bits, line)| == |bits|
    ensures bits[i] <==> Nrzi(bits, line)[i] == if i == 0 then line else Nrzi(bits, line)[i - 1]
    decreases |bits|
  {
    var l := if bits[0] then line else !line;
    if |bits| > 1 {
      ZeroTurns(bits[1..], l, if i == 0 then 0 else i - 1);
    } else {
      assert Nrzi(bits[1..], l) == [];
    }
  }

  // Read without its stuffing: the bit after five ones is dropped.
  function Unstuffed(bits: seq<bool>, ones: nat): seq<bool>
    decreases |bits|
  {
    if bits == [] then []
    else if ones == 5 then Unstuffed(bits[1..], if bits[0] then 1 else 0)
    else [bits[0]] + Unstuffed(bits[1..], if bits[0] then ones + 1 else 0)
  }

  // No six ones follow one another, counting those already sent.
  predicate NoSix(bits: seq<bool>, ones: nat)
    decreases |bits|
  {
    bits == [] || (if bits[0] then ones < 5 && NoSix(bits[1..], ones + 1) else NoSix(bits[1..], 0))
  }

  // Stuffing leaves no six ones in a row, wherever it starts, and is undone by dropping
  // the bit after every five.
  lemma {:induction false} StuffingMeans(bits: seq<bool>, ones: nat)
    requires ones < 5
    ensures NoSix(Stuffed(bits, ones), ones) && Unstuffed(Stuffed(bits, ones), ones) == bits
    decreases |bits|
  {
    if bits != [] {
      var next := if !bits[0] || ones + 1 == 5 then 0 else ones + 1;
      StuffingMeans(bits[1..], next);
      var rest := Stuffed(bits[1..], next);
      if bits[0] && ones + 1 == 5 {
        var s := [true, false] + rest;
        assert s[1..] == [false] + rest && ([false] + rest)[1..] == rest;
      } else {
        assert ([bits[0]] + rest)[1..] == rest;
      }
    }
  }

  // An octet's bits go low one first.
  lemma LowBitFirst()
    ensures OctetBits(0x01) == [true, false, false, false, false, false, false, false]
    ensures OctetBits(0x7e) == [false, true, true, true, true, true, true, false]
    ensures OctetBits(0xff) == [true, true, true, true, true, true, true, true]
    ensures OctetBits(0x00) == [false, false, false, false, false, false, false, false]
  {
  }

  // A flag is the octet 0x7e, as it is.
  lemma FlagIs(n: nat)
    ensures Flags(n + 1) == OctetBits(0x7e) + Flags(n)
  {
    LowBitFirst();
  }

  // ----- known check sequences -----

  lemma KnownStep()
    ensures Crc16Step(0xffff, 0xff) == 0x00ff && Crc16Finalize(0x00ff) == 0xff00
  {
  }

  lemma FoldedStep(crc: bv16, o: bv8, rest: seq<bv8>)
    ensures Folded(crc, [o] + rest) == Folded(Crc16Step(crc, o), rest)
  {
    hide Crc16Step;
    assert ([o] + rest)[1..] == rest;
  }

  lemma FirstSteps()
    ensures Crc16Step(0xffff, 0x31) == 0x2f8d && Crc16Step(0x2f8d, 0x32) == 0x4d53 && Crc16Step(0x4d53, 0x33) == 0x634b
    ensures Crc16Step(0x634b, 0x34) == 0x8b13 && Crc16Step(0x8b13, 0x35) == 0x44bf
  {
  }

  lemma LastSteps()
    ensures Crc16Step(0x44bf, 0x36) == 0x198d && Crc16Step(0x198d, 0x37) == 0x1ac8 && Crc16Step(0x1ac8, 0x38) == 0xf795
    ensures Crc16Step(0xf795, 0x39) == 0x6f91 && Crc16Finalize(0x6f91) == 0x906e
  {
  }

  // The nine digits 1 to 9 have the check sequence 0x906e.
  lemma KnownFcs()
    ensures FcsOf([0x31, 0x32, 0x33, 0x34, 0x35, 0x36, 0x37, 0x38, 0x39]) == 0x906e
  {
    FirstSteps();
    LastSteps();
    hide Crc16Step, Folded, Crc16Finalize;
    var s: seq<bv8> := [0x31, 0x32, 0x33, 0x34, 0x35, 0x36, 0x37, 0x38, 0x39];
    assert s == [0x31] + s[1..] && s[1..] == [0x32] + s[2..] && s[2..] == [0x33] + s[3..] && s[3..] == [0x34] + s[4..];
    assert s[4..] == [0x35] + s[5..] && s[5..] == [0x36] + s[6..] && s[6..] == [0x37] + s[7..];
    assert s[7..] == [0x38] + s[8..];
    assert s[8..] == [0x39] + s[9..] && s[9..] == [];
    FoldedStep(0xffff, 0x31, s[1..]);
    FoldedStep(0x2f8d, 0x32, s[2..]);
    FoldedStep(0x4d53, 0x33, s[3..]);
    FoldedStep(0x634b, 0x34, s[4..]);
    FoldedStep(0x8b13, 0x35, s[5..]);
    FoldedStep(0x44bf, 0x36, s[6..]);
    FoldedStep(0x198d, 0x37, s[7..]);
    FoldedStep(0x1ac8, 0x38, s[8..]);
    FoldedStep(0xf795, 0x39, s[9..]);
    FoldedNone(0x6f91);
  }

  lemma FoldedNone(crc: bv16)
    ensures Folded(crc, []) == crc
  {
  }

  // ----- a known transmission -----

  // The single octet 0xff between two flags: its check sequence 0xff00 goes out low octet
  // first, and each eight ones have a zero after the fifth.
  lemma KnownTransmission()
    ensures FcsOf([0xff]) == 0xff00 && Body([0xff]) == [0xff, 0x00, 0xff]
    ensures Transmission([0xff], 1, 1) == OctetBits(0x7e)
              + [true, true, true, true, true, false, true, true, true]
              + [false, false, false, false, false, false, false, false]
              + [true, true, true, true, true, false, true, true, true]
              + OctetBits(0x7e)
  {
    KnownStep();
    BodyOf();
    LowBitFirst();
    FoldedNone(0x00ff);
    FoldedStep(0xffff, 0xff, []);
    assert [0xff as bv8] + [] == [0xff];
    hide Crc16Step, OctetBits, Folded, Crc16Finalize;
    BitsOfBody();
    OneFlag();
    StuffedBody();
  }

  lemma OneFlag()
    ensures Flags(1) == OctetBits(0x7e)
  {
    LowBitFirst();
    assert Flags(0) == [] && FLAG + [] == FLAG;
  }

  const ONES: seq<bool> := [true, true, true, true, true, true, true, true]
  const ZEROS: seq<bool> := [false, false, false, false, false, false, false, false]
  const STUFFED_ONES: seq<bool> := [true, true, true, true, true, false, true, true, true]

  lemma BitsOfBody()
    ensures BitsOf([0xff, 0x00, 0xff]) == ONES + ZEROS + ONES
  {
    LowBitFirst();
    hide OctetBits, BitsOf;
    BitsConcat([0xff, 0x00], [0xff]);
    BitsConcat([0xff], [0x00]);
    OneOctet(0xff);
    OneOctet(0x00);
    assert [0xff as bv8, 0x00] + [0xff] == [0xff, 0x00, 0xff] && [0xff as bv8] + [0x00] == [0xff, 0x00];
  }

  lemma StuffedBody()
    ensures Stuffed(ONES + ZEROS + ONES, 0) == STUFFED_ONES + ZEROS + STUFFED_ONES
  {
    hide Stuffed, RunAfter;
    StuffedConcat(ONES + ZEROS, ONES, 0);
    StuffedConcat(ONES, ZEROS, 0);
    StuffedOnes();
    StuffedZeros();
  }

  lemma OnesFrom(k: nat)
    requires k < 8
    ensures ONES[k..][1..] == ONES[k + 1..] && ONES[k..] != [] && ONES[k..][0]
  {
  }

  lemma StuffedOnes()
    ensures Stuffed(ONES, 0) == STUFFED_ONES && RunAfter(ONES, 0) == 3
  {
    OnesFrom(7);
    OnesFrom(6);
    OnesFrom(5);
    OnesFrom(4);
    OnesFrom(3);
    OnesFrom(2);
    OnesFrom(1);
    OnesFrom(0);
    assert ONES[8..] == [] && ONES[0..] == ONES;
    assert Stuffed(ONES[8..], 3) == [] && RunAfter(ONES[8..], 3) == 3;
    assert Stuffed(ONES[7..], 2) == [true] && RunAfter(ONES[7..], 2) == 3;
    assert Stuffed(ONES[6..], 1) == [true, true] && RunAfter(ONES[6..], 1) == 3;
    assert Stuffed(ONES[5..], 0) == [true, true, true] && RunAfter(ONES[5..], 0) == 3;
    assert Stuffed(ONES[4..], 4) == [true, false] + [true, true, true] && RunAfter(ONES[4..], 4) == 3;
    assert Stuffed(ONES[3..], 3) == [true, true, false] + [true, true, true] && RunAfter(ONES[3..], 3) == 3;
    assert Stuffed(ONES[2..], 2) == [true, true, true, false] + [true, true, true] && RunAfter(ONES[2..], 2) == 3;
    assert Stuffed(ONES[1..], 1) == [true, true, true, true, false] + [true, true, true] && RunAfter(ONES[1..], 1) == 3;
  }

  lemma {:induction false} ZerosStay(z: seq<bool>, run: int)
    requires forall i | 0 <= i < |z| :: !z[i]
    ensures Stuffed(z, run) == z && (z != [] ==> RunAfter(z, run) == 0)
    decreases |z|
  {
    if z != [] {
      ZerosStay(z[1..], 0);
    }
  }

  lemma StuffedZeros()
    ensures Stuffed(ZEROS, 3) == ZEROS && RunAfter(ZEROS, 3) == 0
    ensures RunAfter(ONES + ZEROS, 0) == RunAfter(ZEROS, RunAfter(ONES, 0))
  {
    ZerosStay(ZEROS, 3);
    StuffedConcat(ONES, ZEROS, 0);
  }

  lemma BodyOf()
    ensures FcsLow(0xff00) == 0x00 && FcsHigh(0xff00) == 0xff
  {
  }

  // ----- which lengths pass -----

  lemma OneFed(d: Dec, r: bool)
    requires |d.frame| <= 2125
    ensures |FedBit(d, r).d.frame| <= 2125
    ensures FedBit(d, r).out.Some? ==> 15 <= |FedBit(d, r).out.value| <= 2123
  {
    hide Rescan, Checks, Chopped, Appended, ShiftIn32;
    FromRawLength(Chopped(Clocked(d, r).raw));
  }

  lemma {:induction false} RescanLength(raw: seq<bool>, prev: bool, pat: bv8, o: Octets)
    requires |o.frame| <= 2125
    ensures Rescan(raw, prev, pat, o).Some? ==> 15 <= |Rescan(raw, prev, pat, o).value| <= 2123
    decreases |raw|
  {
    hide Checks;
    if raw != [] {
      var b := raw[0] == prev;
      var p := ShiftIn(pat, b);
      RescanLength(raw[1..], raw[0], p, Octets(o.oacc, 0, []));
      RescanLength(raw[1..], raw[0], p, Octets(o.oacc, -1, []));
      RescanLength(raw[1..], raw[0], p, o);
      RescanLength(raw[1..], raw[0], p, Gathered(o, b));
    }
  }

  lemma FromRawLength(raw: seq<bool>)
    ensures DecodedFromRaw(raw).Some? ==> 15 <= |DecodedFromRaw(raw).value| <= 2123
  {
    hide Rescan;
    if raw != [] {
      RescanLength(raw[1..], raw[0], 0, Octets(0, -1, []));
    }
  }

  // Whatever the line brings, a receiver yields frames of 15 to 2123 octets only.
  lemma {:induction false} YieldsLengths(d: Dec, line: seq<bool>)
    requires |d.frame| <= 2125
    ensures forall f | f in FedAll(d, line).frames :: 15 <= |f| <= 2123
    decreases |line|
  {
    hide FedBit;
    if line != [] {
      OneFed(d, line[0]);
      YieldsLengths(FedBit(d, line[0]).d, line[1..]);
    }
  }

  // And of exactly those lengths the encoder's frames are all taken.
  lemma TakenIffLong(data: seq<bv8>)
    ensures FedAll(START, HdlcSync.OnAir([HdlcSync.Tx(data, 2, 1)])).frames == [data] <==> 15 <= |data| <= 2123
  {
    hide FedAll, HdlcSync.OnAir;
    var txs := [HdlcSync.Tx(data, 2, 1)];
    if 15 <= |data| <= 2123 {
      HdlcSync.TransmissionsTaken(START, txs);
      assert txs[1..] == [] && HdlcSync.Datas([]) == [] && HdlcSync.Datas(txs) == [data] + HdlcSync.Datas(txs[1..]);
    } else {
      YieldsLengths(START, HdlcSync.OnAir(txs));
      assert data in [data];
    }
  }
}
