// The bit-level transmitter and receiver: graywolf-modem/src/tx/hdlc_encode.rs:27-117
// and graywolf-modem/src/hdlc.rs:98-192, 368-648.

module Hdlc {
  import opened Common
  import opened Fcs
  import opened HdlcSpec

  // ----- transmitter -----

  class HdlcEncoder {
    var bits: seq<bool>
    var nrzi: bool
    var onesRun: int

    ghost function View(): Sender
      reads this
    {
      Sender(bits, nrzi, onesRun)
    }

    constructor ()
      ensures View() == Sender([], false, 0)
    {
      bits, nrzi, onesRun := [], false, 0;
    }

    method PushLineBit(dataBit: bool)
      modifies this
      ensures View() == SentPlain(old(View()), [dataBit])
    {
      if !dataBit {
        nrzi := !nrzi;
      }
      OneLineBit(dataBit, old(nrzi));
      bits := bits + [nrzi];
    }

    method PushStuffedBit(b: bool)
      modifies this
      ensures View() == SentStuffed(old(View()), [b])
    {
      OneStuffedBit(b, onesRun);
      PushLineBit(b);
      if b {
        onesRun := onesRun + 1;
        if onesRun == 5 {
          PushLineBit(false);
          onesRun := 0;
          SentPlainConcat(old(View()), [true], [false]);
          assert [true] + [false] == [true, false];
        }
      } else {
        onesRun := 0;
      }
    }

    method PushFrameByte(octet: bv8)
      modifies this
      ensures View() == SentStuffed(old(View()), OctetBits(octet))
    {
      hide OctetBits, SentStuffed;
      OctetHasEight(octet);
      ghost var o := OctetBits(octet);
      SentNothing(View());
      for shift := 0 to 8
        invariant View() == SentStuffed(old(View()), o[..shift])
      {
        BitIs(octet, shift);
        assert o[..shift + 1] == o[..shift] + [o[shift]];
        SentStuffedConcat(old(View()), o[..shift], [o[shift]]);
        PushStuffedBit(Bit(octet, shift));
      }
      assert o[..8] == o;
    }

    method PushFlags(n: nat)
      modifies this
      ensures View() == SentPlain(old(View()), Flags(n)).(run := 0)
    {
      hide SentPlain, Flags;
      SentNothing(View());
      assert Flags(0) == [] by { NoFlags(); }
      for k := 0 to n
        invariant View().(run := 0) == SentPlain(old(View()), Flags(k)).(run := 0)
      {
        onesRun := 0;
        PushFlag();
        FlagsSnoc(k);
        SentPlainConcat(old(View()), Flags(k), FLAG);
        RunIgnored(old(View()), Flags(k), FLAG);
      }
      onesRun := 0;
    }

    // The inner loop of PushFlags.
    method PushFlag()
      modifies this
      ensures View() == SentPlain(old(View()), FLAG)
    {
      hide SentPlain;
      SentNothing(View());
      for shift := 0 to 8
        invariant View() == SentPlain(old(View()), FLAG[..shift])
      {
        assert FLAG[..shift + 1] == FLAG[..shift] + [FLAG[shift]];
        SentPlainConcat(old(View()), FLAG[..shift], [FLAG[shift]]);
        PushLineBit(FLAG[shift]);
      }
      assert FLAG[..8] == FLAG;
    }

    method PushFrame(frame: seq<bv8>)
      modifies this
      ensures View() == SentStuffed(old(View()), BitsOf(Body(frame)))
    {
      hide OctetBits, BitsOf, Crc16Step, SentStuffed;
      var crc: bv16 := 0xffff;
      BitsOfNone();
      SentNothing(View());
      for i := 0 to |frame|
        invariant crc == Folded(0xffff, frame[..i])
        invariant View() == SentStuffed(old(View()), BitsOf(frame[..i]))
      {
        assert frame[..i + 1] == frame[..i] + [frame[i]];
        FoldedSnoc(0xffff, frame[..i], frame[i]);
        SentOctet(old(View()), frame[..i], frame[i]);
        crc := Crc16Step(crc, frame[i]);
        PushFrameByte(frame[i]);
      }
      assert frame[..|frame|] == frame;
      var fcs := Crc16Finalize(crc);
      SentOctet(old(View()), frame, FcsLow(fcs));
      PushFrameByte(FcsLow(fcs));
      SentOctet(old(View()), frame + [FcsLow(fcs)], FcsHigh(fcs));
      PushFrameByte(FcsHigh(fcs));
      assert frame + [FcsLow(fcs)] + [FcsHigh(fcs)] == Body(frame);
    }
  }

  lemma SentNothing(s: Sender)
    ensures SentStuffed(s, []) == s && SentPlain(s, []) == s
  {
  }

  lemma OneLineBit(b: bool, line: bool)
    ensures var l := if b then line else !line; Nrzi([b], line) == [l] && LineAfter([b], line) == l
  {
    assert [b][1..] == [];
  }

  lemma OneStuffedBit(b: bool, run: int)
    ensures Stuffed([b], run) == if b && run + 1 == 5 then [true, false] else [b]
    ensures RunAfter([b], run) == if !b || run + 1 == 5 then 0 else run + 1
  {
    assert [b][1..] == [];
  }

  lemma NoFlags()
    ensures Flags(0) == []
  {
  }

  // Plain sending neither reads nor changes the run of ones.
  lemma RunIgnored(s: Sender, a: seq<bool>, b: seq<bool>)
    ensures forall r: int {:trigger SentPlain(s, a).(run := r)} ::
              SentPlain(SentPlain(s, a).(run := r), b) == SentPlain(SentPlain(s, a), b).(run := r)
  {
  }

  lemma SentOctet(s: Sender, data: seq<bv8>, o: bv8)
    ensures SentStuffed(s, BitsOf(data + [o])) == SentStuffed(SentStuffed(s, BitsOf(data)), OctetBits(o))
  {
    hide OctetBits, BitsOf, SentStuffed;
    BitsConcat(data, [o]);
    OneOctet(o);
    SentStuffedConcat(s, BitsOf(data), OctetBits(o));
  }

  // One transmission: the line starts low and runs through all three sections.
  method Encode(frame: seq<bv8>, preambleFlags: nat, postambleFlags: nat) returns (line: seq<bool>)
    ensures line == Nrzi(Transmission(frame, preambleFlags, postambleFlags), false)
  {
    var enc := new HdlcEncoder();
    hide Flags, Stuffed, BitsOf, Body, Nrzi, LineAfter;
    enc.PushFlags(preambleFlags);
    enc.PushFrame(frame);
    enc.PushFlags(postambleFlags);
    line := enc.bits;
    var a, b, c := Flags(preambleFlags), Stuffed(BitsOf(Body(frame)), 0), Flags(postambleFlags);
    NrziConcat(a, b, false);
    NrziConcat(a + b, c, false);
  }

  // ----- receiver -----

  class RawBitBuffer {
    var bits: seq<bool>

    constructor ()
      ensures bits == []
    {
      bits := [];
    }

    method Clear()
      modifies this
      ensures bits == []
    {
      bits := [];
    }

    method AppendBit(bit: bool)
      modifies this
      ensures bits == Appended(old(bits), bit)
    {
      if |bits| < MAX_NUM_BITS {
        bits := bits + [bit];
      }
    }

    method Chop8()
      modifies this
      ensures bits == Chopped(old(bits))
    {
      var newLen := if |bits| < 8 then 0 else |bits| - 8;
      bits := bits[..newLen];
    }
  }

  class HdlcDecoder {
    var prevRaw: bool
    var patDet: bv8
    var flag4Det: bv32
    var oacc: bv8
    var olen: int
    const frameBuf: array<bv8>
    var frameLen: nat
    const rrbb: RawBitBuffer
    var badFcs: nat

    ghost predicate Valid()
      reads this
    {
      frameBuf.Length == MAX_FRAME_LEN && frameLen <= MAX_FRAME_LEN
    }

    ghost function View(): Dec
      reads this, frameBuf, rrbb
      requires Valid()
    {
      Dec(prevRaw, patDet, flag4Det, oacc, olen, frameBuf[..frameLen], rrbb.bits, badFcs)
    }

    constructor ()
      ensures Valid() && fresh(frameBuf) && fresh(rrbb) && View() == START
    {
      prevRaw, patDet, flag4Det, oacc, olen, frameLen, badFcs := false, 0, 0, 0, -1, 0, 0;
      frameBuf := new bv8[MAX_FRAME_LEN](_ => 0);
      rrbb := new RawBitBuffer();
    }

    // Drains the counter of frame-shaped candidates that did not check.
    method TakeBadFcs() returns (n: nat)
      requires Valid()
      modifies this`badFcs
      ensures Valid() && n == old(badFcs) && View() == old(View()).(badFcs := 0)
    {
      n := badFcs;
      badFcs := 0;
    }

    method ProcessBit(raw: bool) returns (out: Option<seq<bv8>>)
      requires Valid()
      modifies this, frameBuf, rrbb
      ensures Valid() && View() == FedBit(old(View()), raw).d && out == FedBit(old(View()), raw).out
    {
      hide DecodedFromRaw, Checked;
      var dbit := raw == prevRaw;
      prevRaw := raw;
      patDet := ShiftIn(patDet, dbit);
      flag4Det := ShiftIn32(flag4Det, dbit);
      rrbb.AppendBit(raw);
      assert View() == Clocked(old(View()), raw);
      out := None;
      if patDet == 0x7e {
        out := EndFrame();
      } else if patDet == 0xfe {
        olen := -1;
        frameLen := 0;
        rrbb.Clear();
      } else if IsStuffing(patDet) {
      } else {
        Gather(dbit);
      }
    }

    // The flag branch of ProcessBit.
    method EndFrame() returns (out: Option<seq<bv8>>)
      requires Valid()
      modifies this, frameBuf, rrbb
      ensures Valid() && View() == AtFlag(old(View())).d && out == AtFlag(old(View())).out
    {
      hide TriedDecode;
      rrbb.Chop8();
      out := None;
      if |rrbb.bits| >= MIN_FRAME_LEN * 8 {
        assert View() == old(View()).(raw := Chopped(old(View()).raw));
        out := TryDecode();
        if out == None && badFcs < BAD_FCS_MAX {
          badFcs := badFcs + 1;
        }
      }
      rrbb.Clear();
      olen := 0;
      frameLen := 0;
      rrbb.AppendBit(prevRaw);
    }

    // The data branch of ProcessBit.
    // The octet just completed goes into the frame buffer while there is room.
    method PushOctet()
      requires Valid()
      modifies this`frameLen, frameBuf
      ensures Valid()
      ensures var was := old(View()).frame;
              View() == old(View()).(frame := if |was| < MAX_FRAME_LEN then was + [oacc] else was)
    {
      if frameLen < MAX_FRAME_LEN {
        frameBuf[frameLen] := oacc;
        frameLen := frameLen + 1;
        assert frameBuf[..frameLen] == old(frameBuf[..frameLen]) + [oacc];
      }
    }

    method Gather(dbit: bool)
      requires Valid()
      modifies this`oacc, this`olen, this`frameLen, frameBuf
      ensures Valid()
      ensures var o := Gathered(Octets(old(oacc), old(olen), old(View()).frame), dbit);
              View() == old(View()).(oacc := o.oacc, olen := o.olen, frame := o.frame)
    {
      hide ShiftIn;
      if olen >= 0 {
        oacc := ShiftIn(oacc, dbit);
        olen := olen + 1;
        if olen == 8 {
          olen := 0;
          PushOctet();
        }
      }
    }

    method TryDecode() returns (out: Option<seq<bv8>>)
      requires Valid()
      ensures out == TriedDecode(View())
    {
      hide DecodedFromRaw;
      out := CheckFrame(olen, frameBuf, frameLen);
      if out == None {
        out := DecodeFromRawBits(rrbb.bits);
      }
    }

    // The check both decode paths end in.
    static method CheckFrame(olen: int, buf: array<bv8>, len: nat) returns (out: Option<seq<bv8>>)
      requires len <= buf.Length
      ensures out == Checked(olen, buf[..len])
    {
      hide FcsOf;
      out := None;
      if olen == 7 && len >= MIN_FRAME_LEN {
        var actualFcs := FcsWord(buf[len - 2], buf[len - 1]);
        var expectedFcs := FcsCalc(buf[..len - 2]);
        assert buf[..len][..len - 2] == buf[..len - 2];
        if actualFcs == expectedFcs {
          out := Some(buf[..len - 2]);
        }
      }
    }

    method DecodeFromRawBits(raw: seq<bool>) returns (out: Option<seq<bv8>>)
      ensures out == DecodedFromRaw(raw)
    {
      hide Checked, Gathered;
      if |raw| < MIN_FRAME_LEN * 8 {
        return None;
      }
      var prevRawState := raw[0];
      var pat: bv8, oacc: bv8, olen: int, flen: nat := 0, 0, -1, 0;
      var fbuf := new bv8[MAX_FRAME_LEN](_ => 0);
      assert fbuf[..0] == [];
      for i := 1 to |raw|
        invariant flen <= fbuf.Length == MAX_FRAME_LEN
        invariant Rescan(raw[i..], prevRawState, pat, Octets(oacc, olen, fbuf[..flen])) == DecodedFromRaw(raw)
      {
        ghost var o := Octets(oacc, olen, fbuf[..flen]);
        assert raw[i..][1..] == raw[i + 1..];
        var dbit := raw[i] == prevRawState;
        prevRawState := raw[i];
        pat := ShiftIn(pat, dbit);
        if pat == 0x7e {
          var got := CheckFrame(olen, fbuf, flen);
          if got.Some? {
            return got;
          }
          olen := 0;
          flen := 0;
        } else if pat == 0xfe {
          olen := -1;
          flen := 0;
        } else if IsStuffing(pat) {
        } else {
          oacc, olen, flen := GatherInto(fbuf, oacc, olen, flen, dbit);
        }
      }
      assert raw[|raw|..] == [];
      out := CheckFrame(olen, fbuf, flen);
    }

    static method GatherInto(buf: array<bv8>, oacc: bv8, olen: int, len: nat, dbit: bool)
      returns (oacc': bv8, olen': int, len': nat)
      requires len <= buf.Length == MAX_FRAME_LEN
      modifies buf
      ensures len' <= buf.Length
      ensures Octets(oacc', olen', buf[..len']) == Gathered(Octets(oacc, olen, old(buf[..len])), dbit)
    {
      oacc', olen', len' := oacc, olen, len;
      if olen >= 0 {
        oacc' := ShiftIn(oacc, dbit);
        olen' := olen + 1;
        if olen' == 8 {
          olen' := 0;
          if len < MAX_FRAME_LEN {
            buf[len] := oacc';
            len' := len + 1;
            assert buf[..len'] == old(buf[..len]) + [oacc'];
          }
        }
      }
    }
  }

  // A whole stream of line bits.
  method Receive(dec: HdlcDecoder, line: seq<bool>) returns (frames: seq<seq<bv8>>)
    requires dec.Valid()
    modifies dec, dec.frameBuf, dec.rrbb
    ensures dec.Valid() && dec.View() == FedAll(old(dec.View()), line).d
    ensures frames == FedAll(old(dec.View()), line).frames
  {
    hide FedBit;
    frames := [];
    for i := 0 to |line|
      invariant dec.Valid()
      invariant Received(dec.View(), frames) == FedAll(old(dec.View()), line[..i])
    {
      ghost var d := dec.View();
      var out := dec.ProcessBit(line[i]);
      FedSnoc(old(dec.View()), line[..i], line[i]);
      assert line[..i + 1] == line[..i] + [line[i]];
      if out.Some? {
        frames := frames + [out.value];
      }
    }
    assert line[..|line|] == line;
  }

  lemma FedSnoc(d: Dec, line: seq<bool>, r: bool)
    ensures var (now, f) := (FedAll(d, line), FedBit(FedAll(d, line).d, r));
            FedAll(d, line + [r]) == Received(f.d, now.frames + (if f.out.Some? then [f.out.value] else []))
  {
    hide FedBit;
    FedAllConcat(d, line, [r]);
    var f := FedBit(FedAll(d, line).d, r);
    assert [r][1..] == [];
    assert FedAll(f.d, []) == Received(f.d, []);
  }
}
