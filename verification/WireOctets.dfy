// What goes on the air, octet by octet: the control field of every kind of frame, the
// fields of an address, the order of a frame's parts, and frames known in full.
// pkg/ax25conn/control.go, pkg/ax25/address.go and the frame halves of both packages.

module WireOctets {
  import opened Common
  import opened Control
  import opened Frames
  import A = Address

  // ----- control fields -----

  // The octets of the unnumbered frames, with the poll or final bit and without.
  function UnnumberedOctet(kind: FrameKind, pf: bool): U8
    requires IsU(kind)
  {
    match kind
    case FrameSABM => if pf then 0x3F else 0x2F
    case FrameSABME => if pf then 0x7F else 0x6F
    case FrameDISC => if pf then 0x53 else 0x43
    case FrameDM => if pf then 0x1F else 0x0F
    case FrameUA => if pf then 0x73 else 0x63
    case FrameFRMR => if pf then 0x97 else 0x87
    case FrameUI => if pf then 0x13 else 0x03
    case FrameXID => if pf then 0xBF else 0xAF
    case FrameTEST => if pf then 0xF3 else 0xE3
  }

  // Both moduli write them so, and read them back whatever the modulus.
  lemma UnnumberedOctets(kind: FrameKind, pf: bool, mod128: bool)
    requires IsU(kind)
    ensures EncodeControl(Control(kind, 0, 0, pf), mod128) == Ok([UnnumberedOctet(kind, pf)])
    ensures ParseControl([UnnumberedOctet(kind, pf)], mod128) == Ok(Control(kind, 0, 0, pf))
  {
    UnnumberedWritten(kind, pf, mod128);
    hide ParseControl, EncodeControl, UnnumberedOctet;
    EncodeThenParse(Control(kind, 0, 0, pf), mod128, []);
    assert [UnnumberedOctet(kind, pf)] + [] == [UnnumberedOctet(kind, pf)];
  }

  lemma UnnumberedWritten(kind: FrameKind, pf: bool, mod128: bool)
    requires IsU(kind)
    ensures EncodeControl(Control(kind, 0, 0, pf), mod128) == Ok([UnnumberedOctet(kind, pf)])
  {
    UnnumberedIs(kind, pf);
    hide UCode, UnnumberedOctet, PFBit;
  }

  lemma UnnumberedIs(kind: FrameKind, pf: bool)
    requires IsU(kind)
    ensures UCode(kind) + PFBit(pf, 16) == UnnumberedOctet(kind, pf)
  {
  }

  // The low four bits of a supervisory control octet.
  function SupervisoryCode(kind: FrameKind): int
    requires IsS(kind)
  {
    match kind
    case FrameRR => 1
    case FrameRNR => 5
    case FrameREJ => 9
    case FrameSREJ => 13
  }

  function Flag(b: bool): int {
    if b then 1 else 0
  }

  // Where the numbers are in the one octet of modulo 8: N(R) in the top three bits, the
  // poll or final bit below it, then N(S) and a zero, or the supervisory code.
  lemma NumberedOctet(c: Control)
    requires WellFormed(c, false) && !IsU(c.kind)
    ensures var r := EncodeControl(c, false);
            && r.Ok? && |r.value| == 1
            && r.value[0] / 32 == c.nr && r.value[0] / 16 % 2 == Flag(c.pf)
            && (c.kind.FrameI? ==> r.value[0] % 2 == 0 && r.value[0] / 2 % 8 == c.ns)
            && (IsS(c.kind) ==> r.value[0] % 16 == SupervisoryCode(c.kind))
  {
    if c.kind.FrameI? {
      OctetFields(c.nr, Flag(c.pf), 2 * c.ns);
    } else {
      OctetFields(c.nr, Flag(c.pf), SupervisoryCode(c.kind));
    }
  }

  // And in the two of modulo 128: N(S) and a zero, or the supervisory code, in the first;
  // N(R) and the poll or final bit in the second.
  lemma NumberedOctets(c: Control)
    requires WellFormed(c, true) && !IsU(c.kind)
    ensures var r := EncodeControl(c, true);
            && r.Ok? && |r.value| == 2
            && r.value[1] / 2 == c.nr && r.value[1] % 2 == Flag(c.pf)
            && (c.kind.FrameI? ==> r.value[0] % 2 == 0 && r.value[0] / 2 == c.ns)
            && (IsS(c.kind) ==> r.value[0] == SupervisoryCode(c.kind))
  {
  }

  // ----- addresses -----

  // Six octets of callsign, each one bit up and padded with spaces; then from the top the
  // C or H bit, two ones, the SSID and the bit that ends the address block.
  lemma AddressOctets(a: A.Address, last: bool, isRepeater: bool, cBit: bool)
    requires A.Valid(a)
    ensures var r := A.EncodeAddr(a, last, isRepeater, cBit);
            && r.Ok? && |r.value| == 7
            && (forall i | 0 <= i < 6 ::
                  r.value[i] % 2 == 0 && r.value[i] / 2 == if i < |a.call| then a.call[i] else ' ' as int)
            && r.value[6] / 128 == Flag(if isRepeater then a.repeated else cBit) && r.value[6] / 32 % 4 == 3
            && r.value[6] / 2 % 16 == a.ssid && r.value[6] % 2 == Flag(last)
  {
    A.SsidFields(a, last, isRepeater, cBit);
    var s := A.SsidOctet(a, last, isRepeater, cBit);
    assert s < 256;
  }

  // ----- frames -----

  // The bit that ends the address block is in its last address; the C bits of destination
  // and source are 1 and 0 in a command, 0 and 1 in a response.
  lemma FrameOctets(f: Frame)
    requires WellFormedFrame(f)
    ensures var r := Encode(f);
            var n := 7 * (2 + |f.path|);
            && r.Ok? && |r.value| >= n
            && Ok(r.value[..7]) == A.EncodeAddr(f.dest, false, false, f.isCommand)
            && Ok(r.value[7..14]) == A.EncodeAddr(f.source, f.path == [], false, !f.isCommand)
            && (forall i | 0 <= i < |f.path| ::
                  Ok(r.value[14 + 7 * i..21 + 7 * i]) == A.EncodeAddr(f.path[i], i == |f.path| - 1, true, false))
            && r.value[n..] == EncodeControl(f.control, f.mod128).value
                               + (if f.control.kind.FrameI? || f.control.kind.FrameUI? then [f.pid] + f.info else f.info)
  {
    EncodedParts(f);
    hide EncodeControl, A.EncodeAddr, A.EncodePath, Encode, Tail, WellFormedFrame;
    var d := A.EncodeAddr(f.dest, false, false, f.isCommand);
    var s := A.EncodeAddr(f.source, f.path == [], false, !f.isCommand);
    PathOctets(f.path);
    Laid(d.value, s.value, A.EncodePath(f.path).value, |f.path|, EncodeControl(f.control, f.mod128).value + Tail(f));
    TailIs(f);
  }

  lemma EncodedParts(f: Frame)
    requires WellFormedFrame(f)
    ensures var d := A.EncodeAddr(f.dest, false, false, f.isCommand);
            var s := A.EncodeAddr(f.source, f.path == [], false, !f.isCommand);
            var (p, ctl) := (A.EncodePath(f.path), EncodeControl(f.control, f.mod128));
            && d.Ok? && s.Ok? && p.Ok? && ctl.Ok? && |d.value| == |s.value| == 7 && |p.value| == 7 * |f.path|
            && Encode(f) == Ok(d.value + s.value + p.value + (ctl.value + Tail(f)))
  {
    hide EncodeControl, A.EncodeAddr, A.EncodePath, Tail;
    FrameRoundTrip(f);
    var d := A.EncodeAddr(f.dest, false, false, f.isCommand);
    var s := A.EncodeAddr(f.source, |f.path| == 0, false, !f.isCommand);
    var (p, ctl) := (A.EncodePath(f.path), EncodeControl(f.control, f.mod128));
    assert d.value + s.value + p.value + ctl.value + Tail(f) == d.value + s.value + p.value + (ctl.value + Tail(f));
  }

  lemma Laid(d: seq<U8>, s: seq<U8>, p: seq<U8>, n: nat, rest: seq<U8>)
    requires |d| == |s| == 7 && |p| == 7 * n
    ensures var raw := d + s + p + rest;
            && raw[..7] == d && raw[7..14] == s && raw[14 + 7 * n..] == rest
            && forall i | 0 <= i < n :: raw[14 + 7 * i..21 + 7 * i] == p[7 * i..7 * i + 7]
  {
  }

  lemma TailIs(f: Frame)
    requires WellFormedFrame(f)
    ensures Tail(f) == if f.control.kind.FrameI? || f.control.kind.FrameUI? then [f.pid] + f.info else f.info
  {
    assert [] + f.info == f.info;
  }

  lemma {:induction false} PathOctets(path: seq<A.Address>)
    requires A.EncodePath(path).Ok?
    ensures forall i | 0 <= i < |path| ::
              Ok(A.EncodePath(path).value[7 * i..7 * i + 7]) == A.EncodeAddr(path[i], i == |path| - 1, true, false)
  {
    hide A.EncodeAddr;
    if path != [] {
      PathOctets(path[1..]);
      var h, t := A.EncodeAddr(path[0], |path| == 1, true, false).value, A.EncodePath(path[1..]).value;
      assert A.EncodePath(path).value == h + t;
      forall i | 0 <= i < |path|
        ensures Ok((h + t)[7 * i..7 * i + 7]) == A.EncodeAddr(path[i], i == |path| - 1, true, false)
      {
        if i == 0 {
          assert (h + t)[..7] == h;
        } else {
          assert (h + t)[7 * i..7 * i + 7] == t[7 * (i - 1)..7 * (i - 1) + 7];
          assert path[1..][i - 1] == path[i];
        }
      }
    }
  }

  // ----- frames known in full -----

  const N7LEM: A.Address := A.Address([78, 55, 76, 69, 77], 0, false)
  const NJ7P: A.Address := A.Address([78, 74, 55, 80], 0, false)
  const N7OO_1: A.Address := A.Address([78, 55, 79, 79], 1, true)

  lemma AddressIs(a: A.Address, last: bool, isRepeater: bool, cBit: bool, o: seq<U8>)
    requires |o| == 7 && 1 <= |a.call| <= 6 && (forall i | 0 <= i < 6 :: o[i] == A.CallOctet(a.call, i))
    requires o[6] == A.SsidOctet(a, last, isRepeater, cBit)
    ensures A.EncodeAddr(a, last, isRepeater, cBit) == Ok(o)
  {
    var r := A.EncodeAddr(a, last, isRepeater, cBit).value;
    assert forall i | 0 <= i < 7 :: r[i] == o[i];
    assert r == o;
  }

  lemma KnownAddresses()
    ensures A.EncodeAddr(NJ7P, false, false, true) == Ok([0x9C, 0x94, 0x6E, 0xA0, 0x40, 0x40, 0xE0])
    ensures A.EncodeAddr(N7LEM, true, false, false) == Ok([0x9C, 0x6E, 0x98, 0x8A, 0x9A, 0x40, 0x61])
    ensures A.EncodeAddr(N7LEM, false, false, false) == Ok([0x9C, 0x6E, 0x98, 0x8A, 0x9A, 0x40, 0x60])
    ensures A.EncodeAddr(N7OO_1, true, true, false) == Ok([0x9C, 0x6E, 0x9E, 0x9E, 0x40, 0x40, 0xE3])
  {
    AddressIs(NJ7P, false, false, true, [0x9C, 0x94, 0x6E, 0xA0, 0x40, 0x40, 0xE0]);
    AddressIs(N7LEM, true, false, false, [0x9C, 0x6E, 0x98, 0x8A, 0x9A, 0x40, 0x61]);
    AddressIs(N7LEM, false, false, false, [0x9C, 0x6E, 0x98, 0x8A, 0x9A, 0x40, 0x60]);
    AddressIs(N7OO_1, true, true, false, [0x9C, 0x6E, 0x9E, 0x9E, 0x40, 0x40, 0xE3]);
  }

  // An I-frame from N7LEM to NJ7P, N(S) = 7, N(R) = 1, P = 1, with no information; and a
  // DM with F=1 that N7OO-1 has repeated on its way.
  lemma KnownInformation()
    ensures Encode(Frame(N7LEM, NJ7P, [], Control(FrameI, 7, 1, true), 0xF0, [], true, false))
            == Ok([0x9C, 0x94, 0x6E, 0xA0, 0x40, 0x40, 0xE0, 0x9C, 0x6E, 0x98, 0x8A, 0x9A, 0x40, 0x61, 0x3E, 0xF0])
  {
    KnownAddresses();
    OneRepeater();
    assert EncodeControl(Control(FrameI, 7, 1, true), false) == Ok([0x3E]);
    hide A.EncodeAddr, A.EncodePath, EncodeControl;
    var d: seq<U8> := [0x9C, 0x94, 0x6E, 0xA0, 0x40, 0x40, 0xE0];
    var s: seq<U8> := [0x9C, 0x6E, 0x98, 0x8A, 0x9A, 0x40, 0x61];
    assert d + s + [] + [0x3E] + ([0xF0] + [])
        == [0x9C, 0x94, 0x6E, 0xA0, 0x40, 0x40, 0xE0, 0x9C, 0x6E, 0x98, 0x8A, 0x9A, 0x40, 0x61, 0x3E, 0xF0];
  }

  lemma KnownRepeated()
    ensures Encode(Frame(N7LEM, NJ7P, [N7OO_1], Control(FrameDM, 0, 0, true), 0, [], true, false))
            == Ok([0x9C, 0x94, 0x6E, 0xA0, 0x40, 0x40, 0xE0, 0x9C, 0x6E, 0x98, 0x8A, 0x9A, 0x40, 0x60,
                   0x9C, 0x6E, 0x9E, 0x9E, 0x40, 0x40, 0xE3, 0x1F])
  {
    KnownAddresses();
    OneRepeater();
    assert EncodeControl(Control(FrameDM, 0, 0, true), false) == Ok([0x1F]) by {
      UnnumberedOctets(FrameDM, true, false);
    }
    hide A.EncodeAddr, A.EncodePath, EncodeControl;
    var d: seq<U8> := [0x9C, 0x94, 0x6E, 0xA0, 0x40, 0x40, 0xE0];
    var t: seq<U8> := [0x9C, 0x6E, 0x98, 0x8A, 0x9A, 0x40, 0x60];
    var p: seq<U8> := [0x9C, 0x6E, 0x9E, 0x9E, 0x40, 0x40, 0xE3];
    assert d + t + p == [0x9C, 0x94, 0x6E, 0xA0, 0x40, 0x40, 0xE0, 0x9C, 0x6E, 0x98, 0x8A, 0x9A, 0x40, 0x60,
                         0x9C, 0x6E, 0x9E, 0x9E, 0x40, 0x40, 0xE3];
    assert d + t + p + [0x1F] + ([] + [])
        == [0x9C, 0x94, 0x6E, 0xA0, 0x40, 0x40, 0xE0, 0x9C, 0x6E, 0x98, 0x8A, 0x9A, 0x40, 0x60,
            0x9C, 0x6E, 0x9E, 0x9E, 0x40, 0x40, 0xE3, 0x1F];
  }

  lemma OneRepeater()
    ensures A.EncodePath([]) == Ok([])
    ensures A.EncodePath([N7OO_1]) == A.EncodeAddr(N7OO_1, true, true, false)
  {
    hide A.EncodeAddr;
    var e := A.EncodeAddr(N7OO_1, true, true, false);
    assert [N7OO_1][1..] == [];
    assert e.Ok? ==> e.value + [] == e.value;
    KnownAddresses();
  }
}
