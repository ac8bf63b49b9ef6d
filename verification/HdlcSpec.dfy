// The bit-level transmitter and receiver as functions on values. Hdlc.dfy holds the
// classes that compute them. graywolf-modem/src/hdlc.rs and tx/hdlc_encode.rs, with
// the unscrambled (1200 baud) line and no bit-flip retries.

module HdlcSpec {
  import opened Common
  import opened Fcs

  const MIN_FRAME_LEN := 17
  const MAX_FRAME_LEN := 2125
  const MAX_NUM_BITS := MAX_FRAME_LEN * 8 * 6 / 5

  // ----- the transmitter -----

  const FLAG: seq<bool> := [false, true, true, true, true, true, true, false]

  function Flags(n: nat): seq<bool>
    decreases n
  {
    if n == 0 then [] else FLAG + Flags(n - 1)
  }

  // Data bits with a zero after every five ones; run counts the ones just sent.
  function Stuffed(bits: seq<bool>, run: int): seq<bool>
    decreases |bits|
  {
    if bits == [] then []
    else if !bits[0] then [false] + Stuffed(bits[1..], 0)
    else if run + 1 == 5 then [true, false] + Stuffed(bits[1..], 0)
    else [true] + Stuffed(bits[1..], run + 1)
  }

  // The count of ones after those bits.
  function RunAfter(bits: seq<bool>, run: int): int
    decreases |bits|
  {
    if bits == [] then run
    else RunAfter(bits[1..], if !bits[0] || run + 1 == 5 then 0 else run + 1)
  }

  // The line: a zero turns it over, a one leaves it.
  function Nrzi(bits: seq<bool>, line: bool): seq<bool>
    decreases |bits|
  {
    if bits == [] then []
    else var l := if bits[0] then line else !line; [l] + Nrzi(bits[1..], l)
  }

  function LineAfter(bits: seq<bool>, line: bool): bool
    decreases |bits|
  {
    if bits == [] then line else LineAfter(bits[1..], if bits[0] then line else !line)
  }

  // Frame octets and their check sequence, low octet first.
  function Body(data: seq<bv8>): seq<bv8> {
    data + [FcsLow(FcsOf(data)), FcsHigh(FcsOf(data))]
  }

  function FcsLow(fcs: bv16): bv8 {
    (fcs & 0xff) as bv8
  }

  function FcsHigh(fcs: bv16): bv8 {
    (fcs >> 8) as bv8
  }

  // What an encoder holds: the line bits so far, the line's state and the run of ones.
  datatype Sender = Sender(bits: seq<bool>, line: bool, run: int)

  function SentPlain(s: Sender, bits: seq<bool>): Sender {
    s.(bits := s.bits + Nrzi(bits, s.line), line := LineAfter(bits, s.line))
  }

  function SentStuffed(s: Sender, bits: seq<bool>): Sender {
    SentPlain(s, Stuffed(bits, s.run)).(run := RunAfter(bits, s.run))
  }

  function Transmission(data: seq<bv8>, pre: nat, post: nat): seq<bool> {
    Flags(pre) + Stuffed(BitsOf(Body(data)), 0) + Flags(post)
  }

  // ----- the receiver -----

  // frame holds the octets gathered so far, raw the line bits since the last flag or
  // abort; olen is -1 while nothing is being gathered.
  datatype Dec = Dec(prevRaw: bool, pat: bv8, flag4: bv32, oacc: bv8, olen: int,
                     frame: seq<bv8>, raw: seq<bool>, badFcs: nat)

  const BAD_FCS_MAX: nat := 0xffff_ffff_ffff_ffff

  const START := Dec(false, 0, 0, 0, -1, [], [], 0)

  function ShiftIn(pat: bv8, b: bool): bv8 {
    (pat >> 1) | (if b then 0x80 else 0)
  }

  function ShiftIn32(w: bv32, b: bool): bv32 {
    (w >> 1) | (if b then 0x8000_0000 else 0)
  }

  predicate IsStuffing(pat: bv8) {
    pat & 0xfc == 0x7c
  }

  function Appended(raw: seq<bool>, r: bool): seq<bool> {
    if |raw| < MAX_NUM_BITS then raw + [r] else raw
  }

  function Chopped(raw: seq<bool>): seq<bool> {
    if |raw| < 8 then [] else raw[..|raw| - 8]
  }

  // Octets being put together: the accumulator, how many bits it holds, the octets done.
  datatype Octets = Octets(oacc: bv8, olen: int, frame: seq<bv8>)

  function Gathered(o: Octets, b: bool): Octets {
    if o.olen < 0 then o
    else if o.olen + 1 == 8 then
      Octets(ShiftIn(o.oacc, b), 0, if |o.frame| < MAX_FRAME_LEN then o.frame + [ShiftIn(o.oacc, b)] else o.frame)
    else Octets(ShiftIn(o.oacc, b), o.olen + 1, o.frame)
  }

  // What seven bits past the last whole octet and a good check sequence yield.
  function Checked(olen: int, frame: seq<bv8>): Option<seq<bv8>> {
    if olen == 7 && |frame| >= MIN_FRAME_LEN && Checks(frame) then Some(frame[..|frame| - 2]) else None
  }

  // Decoding stored line bits anew: the first only serves as the line's last state.
  function Rescan(raw: seq<bool>, prev: bool, pat: bv8, o: Octets): Option<seq<bv8>>
    decreases |raw|
  {
    if raw == [] then Checked(o.olen, o.frame)
    else
      var b := raw[0] == prev;
      var p := ShiftIn(pat, b);
      if p == 0x7e then
        if Checked(o.olen, o.frame).Some? then Checked(o.olen, o.frame)
        else Rescan(raw[1..], raw[0], p, Octets(o.oacc, 0, []))
      else if p == 0xfe then Rescan(raw[1..], raw[0], p, Octets(o.oacc, -1, []))
      else if IsStuffing(p) then Rescan(raw[1..], raw[0], p, o)
      else Rescan(raw[1..], raw[0], p, Gathered(o, b))
  }

  function DecodedFromRaw(raw: seq<bool>): Option<seq<bv8>> {
    if |raw| < MIN_FRAME_LEN * 8 then None else Rescan(raw[1..], raw[0], 0, Octets(0, -1, []))
  }

  function TriedDecode(d: Dec): Option<seq<bv8>> {
    if Checked(d.olen, d.frame).Some? then Checked(d.olen, d.frame) else DecodedFromRaw(d.raw)
  }

  datatype Fed = Fed(d: Dec, out: Option<seq<bv8>>)

  // A flag: whatever was gathered is tried, and gathering starts again.
  function AtFlag(d: Dec): Fed {
    var raw := Chopped(d.raw);
    var out := if |raw| >= MIN_FRAME_LEN * 8 then TriedDecode(d.(raw := raw)) else None;
    var bad := if |raw| >= MIN_FRAME_LEN * 8 && out.None? && d.badFcs < BAD_FCS_MAX then d.badFcs + 1 else d.badFcs;
    Fed(d.(olen := 0, frame := [], raw := [d.prevRaw], badFcs := bad), out)
  }

  // One line bit, up to where the pattern is looked at.
  function Clocked(d: Dec, r: bool): Dec {
    var b := r == d.prevRaw;
    d.(prevRaw := r, pat := ShiftIn(d.pat, b), flag4 := ShiftIn32(d.flag4, b), raw := Appended(d.raw, r))
  }

  function FedBit(d: Dec, r: bool): Fed {
    var b := r == d.prevRaw;
    var s := Clocked(d, r);
    if s.pat == 0x7e then AtFlag(s)
    else if s.pat == 0xfe then Fed(s.(olen := -1, frame := [], raw := []), None)
    else if IsStuffing(s.pat) then Fed(s, None)
    else
      var o := Gathered(Octets(s.oacc, s.olen, s.frame), b);
      Fed(s.(oacc := o.oacc, olen := o.olen, frame := o.frame), None)
  }

  // The frames a stream of line bits yields, and the state it leaves.
  datatype Received = Received(d: Dec, frames: seq<seq<bv8>>)

  function FedAll(d: Dec, line: seq<bool>): Received
    decreases |line|
  {
    if line == [] then Received(d, [])
    else
      var f := FedBit(d, line[0]);
      var rest := FedAll(f.d, line[1..]);
      Received(rest.d, (if f.out.Some? then [f.out.value] else []) + rest.frames)
  }

  // A later part of a stream is decoded from the state an earlier one leaves.
  lemma {:induction false} FedAllConcat(d: Dec, a: seq<bool>, b: seq<bool>)
    ensures FedAll(d, a + b) ==
            Received(FedAll(FedAll(d, a).d, b).d, FedAll(d, a).frames + FedAll(FedAll(d, a).d, b).frames)
    decreases |a|
  {
    hide FedBit;
    if a == [] {
      assert [] + b == b;
    } else {
      assert (a + b)[1..] == a[1..] + b;
      FedAllConcat(FedBit(d, a[0]).d, a[1..], b);
    }
  }

  // ----- the transmitter's parts put together -----

  lemma {:induction false} StuffedConcat(a: seq<bool>, b: seq<bool>, run: int)
    ensures Stuffed(a + b, run) == Stuffed(a, run) + Stuffed(b, RunAfter(a, run))
    ensures RunAfter(a + b, run) == RunAfter(b, RunAfter(a, run))
    decreases |a|
  {
    if a == [] {
      assert [] + b == b;
    } else {
      assert (a + b)[1..] == a[1..] + b;
      var next := if !a[0] || run + 1 == 5 then 0 else run + 1;
      var head := if a[0] && run + 1 == 5 then [true, false] else [a[0]];
      StuffedConcat(a[1..], b, next);
      var x, y := Stuffed(a[1..], next), Stuffed(b, RunAfter(a[1..], next));
      assert Stuffed(a, run) == head + x && Stuffed(a + b, run) == head + Stuffed(a[1..] + b, next);
      assert head + (x + y) == (head + x) + y;
    }
  }

  lemma {:induction false} NrziConcat(a: seq<bool>, b: seq<bool>, line: bool)
    ensures Nrzi(a + b, line) == Nrzi(a, line) + Nrzi(b, LineAfter(a, line))
    ensures LineAfter(a + b, line) == LineAfter(b, LineAfter(a, line))
    decreases |a|
  {
    if a == [] {
      assert [] + b == b;
    } else {
      assert (a + b)[1..] == a[1..] + b;
      var l := if a[0] then line else !line;
      NrziConcat(a[1..], b, l);
      var x, y := Nrzi(a[1..], l), Nrzi(b, LineAfter(a[1..], l));
      assert [l] + (x + y) == ([l] + x) + y;
    }
  }

  lemma SentPlainConcat(s: Sender, a: seq<bool>, b: seq<bool>)
    ensures SentPlain(s, a + b) == SentPlain(SentPlain(s, a), b)
  {
    NrziConcat(a, b, s.line);
  }

  lemma SentStuffedConcat(s: Sender, a: seq<bool>, b: seq<bool>)
    ensures SentStuffed(s, a + b) == SentStuffed(SentStuffed(s, a), b)
  {
    hide Stuffed, RunAfter, Nrzi, LineAfter;
    StuffedConcat(a, b, s.run);
    NrziConcat(Stuffed(a, s.run), Stuffed(b, RunAfter(a, s.run)), s.line);
  }

  lemma {:induction false} FlagsSnoc(n: nat)
    ensures Flags(n + 1) == Flags(n) + FLAG
    decreases n
  {
    if n == 0 {
      assert Flags(1) == FLAG + Flags(0);
    } else {
      FlagsSnoc(n - 1);
    }
  }

  lemma {:induction false} BitsConcat(a: seq<bv8>, b: seq<bv8>)
    ensures BitsOf(a + b) == BitsOf(a) + BitsOf(b)
    decreases |a|
  {
    hide OctetBits;
    if a == [] {
      assert [] + b == b;
    } else {
      assert (a + b)[1..] == a[1..] + b;
      BitsConcat(a[1..], b);
    }
  }

  lemma OneOctet(o: bv8)
    ensures BitsOf([o]) == OctetBits(o)
  {
    hide OctetBits;
    assert [o][1..] == [];
    assert BitsOf([]) == [];
  }

  lemma BitsOfNone()
    ensures BitsOf([]) == []
  {
  }

  lemma BitIs(o: bv8, k: nat)
    requires k < 8
    ensures |OctetBits(o)| == 8 && OctetBits(o)[k] == Bit(o, k)
  {
    hide Bit;
  }

  lemma FoldedSnoc(crc: bv16, data: seq<bv8>, o: bv8)
    ensures Folded(crc, data + [o]) == Crc16Step(Folded(crc, data), o)
  {
    hide Crc16Step;
    FoldedConcat(crc, data, [o]);
    var c := Folded(crc, data);
    assert [o][1..] == [];
    assert Folded(Crc16Step(c, o), []) == Crc16Step(c, o);
  }
}
