// The receiver finds its way into a stream from any state whatever and then takes
// exactly the frames that were sent.

module HdlcSync {
  import opened Common
  import opened Fcs
  import opened HdlcSpec

  // ----- the line undone -----

  // One decoded bit.
  function Took(d: Dec, b: bool): Fed {
    FedBit(d, if b then d.prevRaw else !d.prevRaw)
  }

  function TookAll(d: Dec, bits: seq<bool>): Received
    decreases |bits|
  {
    if bits == [] then Received(d, [])
    else
      var f := Took(d, bits[0]);
      var rest := TookAll(f.d, bits[1..]);
      Received(rest.d, (if f.out.Some? then [f.out.value] else []) + rest.frames)
  }

  lemma PrevRaw(d: Dec, r: bool)
    ensures FedBit(d, r).d.prevRaw == r
  {
    hide TriedDecode;
  }

  // A line that continues from the state the receiver last saw carries its data bits.
  lemma {:induction false} LineCarries(d: Dec, bits: seq<bool>)
    ensures FedAll(d, Nrzi(bits, d.prevRaw)) == TookAll(d, bits)
    ensures TookAll(d, bits).d.prevRaw == LineAfter(bits, d.prevRaw)
    decreases |bits|
  {
    hide FedBit;
    if bits != [] {
      var r := if bits[0] then d.prevRaw else !d.prevRaw;
      PrevRaw(d, r);
      assert Nrzi(bits, d.prevRaw)[1..] == Nrzi(bits[1..], r);
      LineCarries(Took(d, bits[0]).d, bits[1..]);
    }
  }

  lemma {:induction false} TookConcat(d: Dec, a: seq<bool>, b: seq<bool>)
    ensures TookAll(d, a + b) ==
            Received(TookAll(TookAll(d, a).d, b).d, TookAll(d, a).frames + TookAll(TookAll(d, a).d, b).frames)
    decreases |a|
  {
    hide Took;
    if a == [] {
      assert [] + b == b;
    } else {
      assert (a + b)[1..] == a[1..] + b;
      TookConcat(Took(d, a[0]).d, a[1..], b);
    }
  }

  lemma TookNone(d: Dec)
    ensures TookAll(d, []) == Received(d, [])
  {
  }

  lemma TookOne(d: Dec, b: bool)
    ensures TookAll(d, [b]) == Received(Took(d, b).d, if Took(d, b).out.Some? then [Took(d, b).out.value] else [])
  {
    hide Took;
    assert [b][1..] == [];
  }

  // ----- single bits -----

  // The newest bits are exactly `run` ones after a zero.
  predicate RunIs(pat: bv8, run: int) {
    match run
    case 0 => pat & 0x80 == 0
    case 1 => pat & 0xc0 == 0x80
    case 2 => pat & 0xe0 == 0xc0
    case 3 => pat & 0xf0 == 0xe0
    case 4 => pat & 0xf8 == 0xf0
    case 5 => pat & 0xfc == 0xf8
    case 6 => pat & 0xfe == 0xfc
    case _ => false
  }

  lemma OneShifts(pat: bv8, run: int)
    requires RunIs(pat, run) && 0 <= run <= 5
    ensures var p := ShiftIn(pat, true); RunIs(p, run + 1) && p != 0x7e && p != 0xfe && !IsStuffing(p)
  {
  }

  lemma ZeroShifts(pat: bv8, run: int)
    requires RunIs(pat, run) && 0 <= run <= 6
    ensures var p := ShiftIn(pat, false);
            && RunIs(p, 0) && p != 0xfe && (p == 0x7e <==> run == 6)
            && (run != 6 ==> (IsStuffing(p) <==> run == 5))
  {
  }

  function OctetsOf(d: Dec): Octets {
    Octets(d.oacc, d.olen, d.frame)
  }

  function Grown(n: int): int {
    if n < MAX_NUM_BITS then n + 1 else n
  }

  // A data bit that is neither stuffing nor the end of a flag is gathered.
  lemma DataTaken(d: Dec, run: int, b: bool)
    requires RunIs(d.pat, run) && 0 <= run <= (if b then 5 else 4)
    ensures var f := Took(d, b);
            && f.out == None && RunIs(f.d.pat, if b then run + 1 else 0)
            && OctetsOf(f.d) == Gathered(OctetsOf(d), b) && |f.d.raw| == Grown(|d.raw|)
  {
    hide ShiftIn, IsStuffing, AtFlag, RunIs;
    if b {
      OneShifts(d.pat, run);
    } else {
      ZeroShifts(d.pat, run);
    }
  }

  lemma StuffingTaken(d: Dec)
    requires RunIs(d.pat, 5)
    ensures var f := Took(d, false);
            f.out == None && RunIs(f.d.pat, 0) && OctetsOf(f.d) == OctetsOf(d) && |f.d.raw| == Grown(|d.raw|)
  {
    hide ShiftIn, IsStuffing, AtFlag, RunIs;
    ZeroShifts(d.pat, 5);
  }

  lemma FlagEnds(d: Dec)
    requires RunIs(d.pat, 6)
    ensures Took(d, false) == AtFlag(Clocked(d, !d.prevRaw)) && Clocked(d, !d.prevRaw).pat == 0x7e
  {
    hide AtFlag;
    ZeroShifts(d.pat, 6);
  }

  // ----- a stuffed body -----

  function GatheredAll(o: Octets, bits: seq<bool>): Octets
    decreases |bits|
  {
    if bits == [] then o else GatheredAll(Gathered(o, bits[0]), bits[1..])
  }

  function GrownBy(n: int, k: nat): int
    decreases k
  {
    if k == 0 then n else GrownBy(Grown(n), k - 1)
  }

  lemma {:induction false} GrownAtLeast(n: int, k: nat, goal: int)
    requires n + k >= goal && goal <= MAX_NUM_BITS
    ensures GrownBy(n, k) >= goal
    decreases k
  {
    if k > 0 {
      GrownAtLeast(Grown(n), k - 1, goal);
    }
  }

  lemma {:induction false} GrownSplit(n: int, j: nat, k: nat)
    ensures GrownBy(n, j + k) == GrownBy(GrownBy(n, j), k)
    decreases j
  {
    if j > 0 {
      GrownSplit(Grown(n), j - 1, k);
    }
  }

  lemma StuffedBitTaken(d: Dec, run: int, b: bool)
    requires RunIs(d.pat, run) && 0 <= run <= 4
    ensures var (s, t) := (Stuffed([b], run), TookAll(d, Stuffed([b], run)));
            && t.frames == [] && RunIs(t.d.pat, RunAfter([b], run)) && 0 <= RunAfter([b], run) <= 4
            && OctetsOf(t.d) == Gathered(OctetsOf(d), b) && |t.d.raw| == GrownBy(|d.raw|, |s|)
  {
    hide RunIs, Took, Gathered;
    assert [b][1..] == [];
    assert RunAfter([], 0) == 0;
    DataTaken(d, run, b);
    if b && run + 1 == 5 {
      var f := Took(d, true);
      StuffingTaken(f.d);
      assert [true, false][1..] == [false];
      TookOne(f.d, false);
      assert GrownBy(|d.raw|, 2) == GrownBy(Grown(|d.raw|), 1) == GrownBy(Grown(Grown(|d.raw|)), 0);
    } else {
      TookOne(d, b);
      assert GrownBy(|d.raw|, 1) == GrownBy(Grown(|d.raw|), 0);
    }
  }

  // A stuffed body is gathered bit by bit without its stuffing, and yields nothing on
  // the way.
  lemma {:induction false} BodyTaken(d: Dec, run: int, bits: seq<bool>)
    requires RunIs(d.pat, run) && 0 <= run <= 4
    ensures var (s, t) := (Stuffed(bits, run), TookAll(d, Stuffed(bits, run)));
            && t.frames == [] && (exists r :: 0 <= r <= 4 && RunIs(t.d.pat, r))
            && OctetsOf(t.d) == GatheredAll(OctetsOf(d), bits) && |t.d.raw| == GrownBy(|d.raw|, |s|)
    decreases |bits|
  {
    hide RunIs, TookAll, Gathered;
    if bits == [] {
      TookNone(d);
    } else {
      var s, rest := Stuffed([bits[0]], run), Stuffed(bits[1..], RunAfter([bits[0]], run));
      StuffedConcat([bits[0]], bits[1..], run);
      assert [bits[0]] + bits[1..] == bits;
      StuffedBitTaken(d, run, bits[0]);
      var t := TookAll(d, s);
      BodyTaken(t.d, RunAfter([bits[0]], run), bits[1..]);
      TookConcat(d, s, rest);
      GrownSplit(|d.raw|, |s|, |rest|);
    }
  }

  lemma {:induction false} GatheredConcat(o: Octets, a: seq<bool>, b: seq<bool>)
    ensures GatheredAll(o, a + b) == GatheredAll(GatheredAll(o, a), b)
    decreases |a|
  {
    hide Gathered;
    if a == [] {
      assert [] + b == b;
    } else {
      assert (a + b)[1..] == a[1..] + b;
      GatheredConcat(Gathered(o, a[0]), a[1..], b);
    }
  }

  function OctetOf(b: seq<bool>): bv8
    requires |b| == 8
  {
    ShiftIn(ShiftIn(ShiftIn(ShiftIn(ShiftIn(ShiftIn(ShiftIn(ShiftIn(0, b[0]), b[1]), b[2]), b[3]), b[4]), b[5]), b[6]), b[7])
  }

  lemma EightShifts(oacc: bv8, o: bv8)
    ensures ShiftIn(ShiftIn(ShiftIn(ShiftIn(ShiftIn(ShiftIn(ShiftIn(ShiftIn(oacc, Bit(o, 0)), Bit(o, 1)), Bit(o, 2)), Bit(o, 3)),
                                    Bit(o, 4)), Bit(o, 5)), Bit(o, 6)), Bit(o, 7)) == o
  {
  }

  lemma EightBits(oacc: bv8, b: seq<bool>)
    requires |b| == 8
    ensures ShiftIn(ShiftIn(ShiftIn(ShiftIn(ShiftIn(ShiftIn(ShiftIn(ShiftIn(oacc, b[0]), b[1]), b[2]), b[3]), b[4]), b[5]),
                            b[6]), b[7]) == OctetOf(b)
  {
    var b0, b1, b2, b3, b4, b5, b6, b7 := b[0], b[1], b[2], b[3], b[4], b[5], b[6], b[7];
    EightShiftsForget(oacc, b0, b1, b2, b3, b4, b5, b6, b7);
  }

  lemma EightShiftsForget(x: bv8, b0: bool, b1: bool, b2: bool, b3: bool, b4: bool, b5: bool, b6: bool, b7: bool)
    ensures ShiftIn(ShiftIn(ShiftIn(ShiftIn(ShiftIn(ShiftIn(ShiftIn(ShiftIn(x, b0), b1), b2), b3), b4), b5), b6), b7)
            == ShiftIn(ShiftIn(ShiftIn(ShiftIn(ShiftIn(ShiftIn(ShiftIn(ShiftIn(0, b0), b1), b2), b3), b4), b5), b6), b7)
  {
  }

  lemma EightGathered(o: Octets, b: seq<bool>)
    requires o.olen == 0 && |b| == 8
    ensures GatheredAll(o, b) ==
            Octets(OctetOf(b), 0, if |o.frame| < MAX_FRAME_LEN then o.frame + [OctetOf(b)] else o.frame)
  {
    hide ShiftIn, OctetOf;
    assert b[1..][1..] == b[2..] && b[2..][1..] == b[3..] && b[3..][1..] == b[4..];
    assert b[4..][1..] == b[5..] && b[5..][1..] == b[6..] && b[6..][1..] == b[7..] && b[7..][1..] == [];
    var o1 := Gathered(o, b[0]);
    var o2 := Gathered(o1, b[1]);
    var o3 := Gathered(o2, b[2]);
    var o4 := Gathered(o3, b[3]);
    var o5 := Gathered(o4, b[4]);
    var o6 := Gathered(o5, b[5]);
    var o7 := Gathered(o6, b[6]);
    var o8 := Gathered(o7, b[7]);
    EightBits(o.oacc, b);
    assert GatheredAll(o7, b[7..]) == GatheredAll(o8, []) == o8;
    assert GatheredAll(o5, b[5..]) == GatheredAll(o6, b[6..]) == GatheredAll(o7, b[7..]);
    assert GatheredAll(o3, b[3..]) == GatheredAll(o4, b[4..]) == GatheredAll(o5, b[5..]);
    assert GatheredAll(o1, b[1..]) == GatheredAll(o2, b[2..]) == GatheredAll(o3, b[3..]);
  }

  lemma OctetBack(o: bv8)
    ensures OctetOf(OctetBits(o)) == o
  {
    hide ShiftIn, Bit;
    EightShifts(0, o);
  }

  // Eight bits from an octet boundary are one octet, whatever the accumulator held.
  lemma OctetGathered(o: Octets, x: bv8)
    requires o.olen == 0
    ensures GatheredAll(o, OctetBits(x)) == Octets(x, 0, if |o.frame| < MAX_FRAME_LEN then o.frame + [x] else o.frame)
  {
    hide OctetBits, OctetOf;
    OctetHasEight(x);
    EightGathered(o, OctetBits(x));
    OctetBack(x);
  }

  lemma {:induction false} OctetsGathered(o: Octets, data: seq<bv8>)
    requires o.olen == 0 && |o.frame| + |data| <= MAX_FRAME_LEN
    ensures var g := GatheredAll(o, BitsOf(data)); g.olen == 0 && g.frame == o.frame + data
    decreases |data|
  {
    hide OctetBits, Gathered;
    if data == [] {
      BitsOfNone();
    } else {
      OctetGathered(o, data[0]);
      GatheredConcat(o, OctetBits(data[0]), BitsOf(data[1..]));
      var o' := GatheredAll(o, OctetBits(data[0]));
      OctetsGathered(o', data[1..]);
      assert o.frame + data == o.frame + [data[0]] + data[1..];
    }
  }

  // ----- flags -----

  function Ones(n: nat): seq<bool>
    decreases n
  {
    if n == 0 then [] else [true] + Ones(n - 1)
  }

  lemma {:induction false} OnesTaken(d: Dec, run: int, n: nat)
    requires RunIs(d.pat, run) && 0 <= run && run + n <= 6
    ensures var t := TookAll(d, Ones(n));
            && t.frames == [] && RunIs(t.d.pat, run + n)
            && OctetsOf(t.d) == GatheredAll(OctetsOf(d), Ones(n)) && |t.d.raw| == GrownBy(|d.raw|, n)
    decreases n
  {
    hide RunIs, Took, Gathered;
    if n > 0 {
      DataTaken(d, run, true);
      assert Ones(n)[1..] == Ones(n - 1);
      OnesTaken(Took(d, true).d, run + 1, n - 1);
    }
  }

  lemma FlagParts()
    ensures FLAG == [false] + Ones(6) + [false]
  {
    assert Ones(6) == [true] + Ones(5) && Ones(5) == [true] + Ones(4) && Ones(4) == [true] + Ones(3);
    assert Ones(3) == [true] + Ones(2) && Ones(2) == [true] + Ones(1) && Ones(1) == [true] + Ones(0);
  }

  lemma ZeroStarts(d: Dec)
    ensures var f := Took(d, false);
            && RunIs(f.d.pat, 0) && |f.d.raw| <= Grown(|d.raw|) && (f.out.Some? ==> |f.d.raw| == 1)
  {
    hide TriedDecode, Gathered;
    assert ShiftIn(d.pat, false) & 0x80 == 0;
  }

  // A flag, taken from any state: what its first bit does, then its ones, then its end.
  lemma FlagTaken(d: Dec)
    ensures var f := Took(d, false);
            var t := TookAll(f.d, Ones(6));
            var a := AtFlag(Clocked(t.d, !t.d.prevRaw));
            && RunIs(t.d.pat, 6) && OctetsOf(t.d) == GatheredAll(OctetsOf(f.d), Ones(6)) && |t.d.raw| == GrownBy(|f.d.raw|, 6)
            && Clocked(t.d, !t.d.prevRaw).pat == 0x7e
            && TookAll(d, FLAG) == Received(a.d, (if f.out.Some? then [f.out.value] else [])
                                                 + (if a.out.Some? then [a.out.value] else []))
  {
    hide RunIs, Took, Gathered, AtFlag, Clocked;
    ZeroStarts(d);
    var f := Took(d, false);
    OnesTaken(f.d, 0, 6);
    var t := TookAll(f.d, Ones(6));
    FlagEnds(t.d);
    FlagParts();
    TookOne(d, false);
    TookOne(t.d, false);
    TookConcat(d, [false], Ones(6));
    TookConcat(d, [false] + Ones(6), [false]);
  }

  // Just after a flag.
  predicate Synced(d: Dec) {
    d.pat == 0x7e && d.olen == 0 && d.frame == [] && |d.raw| == 1
  }

  lemma FlagSyncs(d: Dec)
    requires d.pat == 0x7e
    ensures Synced(AtFlag(d).d)
    ensures |d.raw| < 144 ==> AtFlag(d).out == None
  {
    hide TriedDecode;
  }

  lemma GrownSmall(n: int, k: nat)
    ensures GrownBy(n, k) <= n + k
    decreases k
  {
    if k > 0 {
      GrownSmall(Grown(n), k - 1);
    }
  }

  // One flag brings any receiver into step, with at most one frame of what went before.
  lemma FlagFromAnywhere(d: Dec)
    ensures var t := TookAll(d, FLAG);
            && Synced(t.d) && |t.frames| <= 1 && (|d.raw| < 128 ==> |t.frames| == 0 || Took(d, false).out.Some?)
  {
    hide Took, AtFlag, RunIs, Gathered, TookAll;
    FlagTaken(d);
    ZeroStarts(d);
    var f := Took(d, false);
    var t := TookAll(f.d, Ones(6));
    FlagSyncs(Clocked(t.d, !t.d.prevRaw));
    GrownSmall(|f.d.raw|, 6);
  }

  lemma ShortRawSilent(d: Dec, b: bool)
    requires |d.raw| < 143
    ensures Took(d, b).out == None && |Took(d, b).d.raw| <= |d.raw| + 1
  {
    hide TriedDecode, Gathered, ShiftIn, IsStuffing;
  }

  // Nothing comes out before enough line bits have gone in.
  lemma {:induction false} ShortSilent(d: Dec, bits: seq<bool>)
    requires |d.raw| + |bits| <= 143
    ensures TookAll(d, bits).frames == [] && |TookAll(d, bits).d.raw| <= |d.raw| + |bits|
    decreases |bits|
  {
    hide Took;
    if bits != [] {
      ShortRawSilent(d, bits[0]);
      ShortSilent(Took(d, bits[0]).d, bits[1..]);
    }
  }

  lemma ShortFlag(d: Dec)
    requires |d.raw| <= 100
    ensures Synced(TookAll(d, FLAG).d) && TookAll(d, FLAG).frames == []
  {
    hide Synced, TookAll;
    FlagFromAnywhere(d);
    ShortSilent(d, FLAG);
  }

  lemma {:induction false} FlagsTaken(d: Dec, n: nat)
    requires Synced(d)
    ensures Synced(TookAll(d, Flags(n)).d) && TookAll(d, Flags(n)).frames == []
    decreases n
  {
    hide TookAll;
    if n == 0 {
      TookNone(d);
    } else {
      ShortFlag(d);
      TookConcat(d, FLAG, Flags(n - 1));
      FlagsTaken(TookAll(d, FLAG).d, n - 1);
    }
  }

  // ----- a frame -----

  lemma FcsSplits(fcs: bv16)
    ensures FcsWord(FcsLow(fcs), FcsHigh(fcs)) == fcs
  {
  }

  lemma BodyChecks(data: seq<bv8>)
    ensures Checks(Body(data)) && Body(data)[..|data|] == data
  {
    hide FcsOf, FcsWord, FcsLow, FcsHigh;
    FcsSplits(FcsOf(data));
    assert Body(data)[..|data|] == data;
  }

  lemma {:induction false} StuffedLonger(bits: seq<bool>, run: int)
    ensures |Stuffed(bits, run)| >= |bits|
    decreases |bits|
  {
    if bits != [] {
      StuffedLonger(bits[1..], if !bits[0] || run + 1 == 5 then 0 else run + 1);
    }
  }

  // The first seven bits of a closing flag, and its last.
  lemma ClosingFlag(d: Dec, r: int)
    requires RunIs(d.pat, r) && 0 <= r <= 4 && d.olen == 0 && 136 <= |d.raw|
    ensures var t := TookAll(d, FLAG);
            && Synced(t.d) && (Checked(7, d.frame).Some? ==> t.frames == [Checked(7, d.frame).value])
  {
    hide RunIs, Took, AtFlag, Checked, Gathered, TookAll;
    DataTaken(d, r, false);
    FlagTaken(d);
    FlagSevenths(OctetsOf(d));
    var f := Took(d, false);
    var t := TookAll(f.d, Ones(6));
    var c := Clocked(t.d, !t.d.prevRaw);
    FlagSyncs(c);
    assert |f.d.raw| >= 136;
    GrownAtLeast(|f.d.raw|, 6, 136);
    ClosedRaw(t.d.raw, |d.raw|, !t.d.prevRaw) by { GrownSevenths(|d.raw|); }
    FrameAtFlag(c);
  }

  lemma GrownSevenths(n: int)
    ensures GrownBy(Grown(n), 6) == GrownBy(n, 7)
  {
  }

  lemma {:induction false} GrownIs(n: int, k: nat)
    ensures GrownBy(n, k) == if n >= MAX_NUM_BITS then n else if n + k > MAX_NUM_BITS then MAX_NUM_BITS else n + k
    decreases k
  {
    if k > 0 {
      GrownIs(Grown(n), k - 1);
    }
  }

  lemma ClosedRaw(raw: seq<bool>, n: int, r: bool)
    requires |raw| == GrownBy(n, 7) && n >= 136
    ensures |Chopped(Appended(raw, r))| >= 136
  {
    GrownIs(n, 7);
  }

  lemma FlagSevenths(o: Octets)
    requires o.olen == 0
    ensures var g := GatheredAll(Gathered(o, false), Ones(6)); g.olen == 7 && g.frame == o.frame
  {
    hide ShiftIn;
    var g1 := Gathered(o, false);
    assert Ones(6)[1..] == Ones(5) && Ones(5)[1..] == Ones(4) && Ones(4)[1..] == Ones(3);
    assert Ones(3)[1..] == Ones(2) && Ones(2)[1..] == Ones(1) && Ones(1)[1..] == Ones(0);
    var g2 := Gathered(g1, true);
    var g3 := Gathered(g2, true);
    var g4 := Gathered(g3, true);
    var g5 := Gathered(g4, true);
    var g6 := Gathered(g5, true);
    var g7 := Gathered(g6, true);
    assert GatheredAll(g5, Ones(2)) == GatheredAll(g6, Ones(1)) == GatheredAll(g7, Ones(0)) == g7;
    assert GatheredAll(g3, Ones(4)) == GatheredAll(g4, Ones(3)) == GatheredAll(g5, Ones(2));
    assert GatheredAll(g1, Ones(6)) == GatheredAll(g2, Ones(5)) == GatheredAll(g3, Ones(4));
  }

  lemma FrameAtFlag(d: Dec)
    requires d.olen == 7 && |Chopped(d.raw)| >= 136
    ensures Checked(7, d.frame).Some? ==> AtFlag(d).out == Checked(7, d.frame)
  {
    hide Checked, DecodedFromRaw;
  }

  predicate Sendable(data: seq<bv8>) {
    MIN_FRAME_LEN <= |data| + 2 <= MAX_FRAME_LEN
  }

  // A frame between two flags is taken as it was sent.
  lemma FrameTaken(d: Dec, data: seq<bv8>)
    requires Synced(d) && Sendable(data)
    ensures var t := TookAll(d, Stuffed(BitsOf(Body(data)), 0) + FLAG); Synced(t.d) && t.frames == [data]
  {
    hide TookAll, GatheredAll, BitsOf, Body, Checks, RunIs;
    var bits := BitsOf(Body(data));
    var s := Stuffed(bits, 0);
    assert RunIs(d.pat, 0) by { SyncedRun(d); }
    BodyTaken(d, 0, bits);
    var t := TookAll(d, s);
    var r :| 0 <= r <= 4 && RunIs(t.d.pat, r);
    assert |Body(data)| == |data| + 2 by { BodyLength(data); }
    OctetsGathered(OctetsOf(d), Body(data));
    assert [] + Body(data) == Body(data);
    StuffedLonger(bits, 0);
    GrownAtLeast(1, |s|, 136);
    ClosingFlag(t.d, r);
    BodyChecks(data);
    TookConcat(d, s, FLAG);
  }

  lemma SyncedRun(d: Dec)
    requires Synced(d)
    ensures RunIs(d.pat, 0)
  {
  }

  lemma BodyLength(data: seq<bv8>)
    ensures |Body(data)| == |data| + 2
  {
  }

  // ----- streams -----

  // Frames sharing single flags.
  function Shared(frames: seq<seq<bv8>>): seq<bool> {
    if frames == [] then [] else Stuffed(BitsOf(Body(frames[0])), 0) + FLAG + Shared(frames[1..])
  }

  predicate AllSendable(frames: seq<seq<bv8>>) {
    forall i | 0 <= i < |frames| :: Sendable(frames[i])
  }

  lemma {:induction false} SharedTaken(d: Dec, frames: seq<seq<bv8>>)
    requires Synced(d) && AllSendable(frames)
    ensures Synced(TookAll(d, Shared(frames)).d) && TookAll(d, Shared(frames)).frames == frames
    decreases |frames|
  {
    hide TookAll, Synced, Stuffed, Sendable;
    if frames == [] {
      TookNone(d);
    } else {
      assert Sendable(frames[0]);
      var first := Stuffed(BitsOf(Body(frames[0])), 0) + FLAG;
      FrameTaken(d, frames[0]);
      TookConcat(d, first, Shared(frames[1..]));
      SharedTaken(TookAll(d, first).d, frames[1..]);
      assert frames == [frames[0]] + frames[1..];
    }
  }

  // The receiver synchronises itself: from any state whatever, a flag and then any
  // number of frames, each closed by one flag that opens the next, yields exactly
  // those frames, after at most one left over from before.
  lemma SelfSynchronising(d: Dec, frames: seq<seq<bv8>>)
    requires AllSendable(frames)
    ensures var t := FedAll(d, Nrzi(FLAG + Shared(frames), d.prevRaw));
            exists left: seq<seq<bv8>> :: |left| <= 1 && t.frames == left + frames
  {
    hide TookAll, Synced, FedAll, Shared;
    FlagFromAnywhere(d);
    SharedTaken(TookAll(d, FLAG).d, frames);
    TookConcat(d, FLAG, Shared(frames));
    LineCarries(d, FLAG + Shared(frames));
    var left := TookAll(d, FLAG).frames;
    assert FedAll(d, Nrzi(FLAG + Shared(frames), d.prevRaw)).frames == left + frames;
  }

  // ----- whole transmissions -----

  datatype Tx = Tx(data: seq<bv8>, pre: nat, post: nat)

  // Transmissions one after the other; each starts its line low whatever came before.
  function OnAir(txs: seq<Tx>): seq<bool> {
    if txs == [] then [] else Nrzi(Transmission(txs[0].data, txs[0].pre, txs[0].post), false) + OnAir(txs[1..])
  }

  predicate Clear(tx: Tx) {
    Sendable(tx.data) && tx.pre >= 2 && tx.post >= 1
  }

  // A zero first bit on a line that starts low is read as a one where the receiver
  // last saw the line high.
  lemma FirstBit(d: Dec, bits: seq<bool>)
    requires bits != [] && !bits[0]
    ensures FedAll(d, Nrzi(bits, false)) == TookAll(d, [d.prevRaw] + bits[1..])
  {
    hide FedBit;
    var r := true;
    var n := Nrzi(bits, false);
    assert n[0] == true && n[1..] == Nrzi(bits[1..], true);
    PrevRaw(d, true);
    LineCarries(FedBit(d, true).d, bits[1..]);
    assert ([d.prevRaw] + bits[1..])[1..] == bits[1..];
    assert Took(d, d.prevRaw) == FedBit(d, true);
  }

  lemma OneTaken(d: Dec)
    ensures Took(d, true).out == None && Took(d, true).d.pat == ShiftIn(d.pat, true)
    ensures |Took(d, true).d.raw| <= Grown(|d.raw|)
  {
    hide Gathered;
    assert ShiftIn(d.pat, true) != 0x7e;
  }

  lemma {:induction false} AnyOnesTaken(d: Dec, n: nat)
    ensures var t := TookAll(d, Ones(n)); t.frames == [] && t.d.pat == ShiftedOnes(d.pat, n)
    decreases n
  {
    hide Took, ShiftIn;
    if n > 0 {
      OneTaken(d);
      assert Ones(n)[1..] == Ones(n - 1);
      AnyOnesTaken(Took(d, true).d, n - 1);
    }
  }

  function ShiftedOnes(pat: bv8, n: nat): bv8
    decreases n
  {
    if n == 0 then pat else ShiftedOnes(ShiftIn(pat, true), n - 1)
  }

  lemma SevenOnes(pat: bv8)
    ensures ShiftIn(ShiftedOnes(pat, 7), false) == 0x7f
  {
    hide ShiftIn;
    var p1 := ShiftIn(pat, true);
    var p2 := ShiftIn(p1, true);
    var p3 := ShiftIn(p2, true);
    var p4 := ShiftIn(p3, true);
    var p5 := ShiftIn(p4, true);
    var p6 := ShiftIn(p5, true);
    var p7 := ShiftIn(p6, true);
    assert ShiftedOnes(p7, 0) == p7 && ShiftedOnes(p6, 1) == p7 && ShiftedOnes(p5, 2) == p7 && ShiftedOnes(p4, 3) == p7;
    assert ShiftedOnes(p3, 4) == p7 && ShiftedOnes(p2, 5) == p7 && ShiftedOnes(p1, 6) == p7;
    SevenShifts(pat);
  }

  lemma SevenShifts(pat: bv8)
    ensures ShiftIn(ShiftIn(ShiftIn(ShiftIn(ShiftIn(ShiftIn(ShiftIn(ShiftIn(pat, true), true), true), true), true), true), true),
                    false) == 0x7f
  {
  }

  // A first flag spoilt that way yields nothing.
  lemma SpoiltFlag(d: Dec)
    ensures TookAll(d, [true] + FLAG[1..]).frames == []
  {
    hide Took, TookAll;
    FlagParts();
    assert Ones(7) == [true] + Ones(6);
    assert [true] + FLAG[1..] == Ones(7) + [false];
    AnyOnesTaken(d, 7);
    var t := TookAll(d, Ones(7)).d;
    SevenOnes(d.pat);
    assert Took(t, false).out == None by { NoFlagNoFrame(t, false); }
    TookOne(t, false);
    TookConcat(d, Ones(7), [false]);
  }

  lemma NoFlagNoFrame(d: Dec, b: bool)
    requires ShiftIn(d.pat, b) != 0x7e
    ensures Took(d, b).out == None
  {
    hide Gathered, ShiftIn, IsStuffing;
  }

  // The two flags a preamble starts with, the first of them as the receiver reads it.
  lemma PreambleTaken(d: Dec)
    ensures var t := TookAll(d, [d.prevRaw] + FLAG[1..] + FLAG);
            && Synced(t.d) && |t.frames| <= 1 && (|d.raw| <= 100 ==> t.frames == [])
  {
    hide TookAll, Synced;
    var first := [d.prevRaw] + FLAG[1..];
    TookConcat(d, first, FLAG);
    var t := TookAll(d, first);
    if d.prevRaw {
      SpoiltFlag(d);
      FlagFromAnywhere(t.d);
    } else {
      assert first == FLAG;
      FlagFromAnywhere(d);
      ShortFlag(t.d) by { SyncedShort(t.d); }
    }
    if |d.raw| <= 100 {
      ShortSilent(d, first);
      ShortSilent(t.d, FLAG);
    }
  }

  lemma SyncedShort(d: Dec)
    requires Synced(d)
    ensures |d.raw| <= 100
  {
  }

  lemma TransmissionParts(tx: Tx)
    requires Clear(tx)
    ensures Transmission(tx.data, tx.pre, tx.post) ==
            FLAG + FLAG + Flags(tx.pre - 2) + (Stuffed(BitsOf(Body(tx.data)), 0) + FLAG) + Flags(tx.post - 1)
  {
    hide Stuffed, BitsOf, Body;
    assert Flags(tx.pre) == FLAG + (FLAG + Flags(tx.pre - 2));
    assert Flags(tx.post) == FLAG + Flags(tx.post - 1);
  }

  // The flags in front, the first bit of the first aside.
  lemma LeadTaken(d: Dec, n: nat)
    ensures var t := TookAll(d, [d.prevRaw] + FLAG[1..] + FLAG + Flags(n));
            Synced(t.d) && |t.frames| <= 1 && (|d.raw| <= 100 ==> t.frames == [])
  {
    hide TookAll, Synced, Flags;
    var start := [d.prevRaw] + FLAG[1..] + FLAG;
    PreambleTaken(d);
    var t := TookAll(d, start);
    FlagsTaken(t.d, n);
    TookConcat(d, start, Flags(n));
    assert t.frames + [] == t.frames;
  }

  // A frame and the flags behind it.
  lemma RestTaken(d: Dec, data: seq<bv8>, n: nat)
    requires Synced(d) && Sendable(data)
    ensures var t := TookAll(d, Stuffed(BitsOf(Body(data)), 0) + FLAG + Flags(n));
            Synced(t.d) && t.frames == [data]
  {
    hide TookAll, Synced, Flags, Stuffed, BitsOf, Body;
    var s := Stuffed(BitsOf(Body(data)), 0) + FLAG;
    FrameTaken(d, data);
    var t := TookAll(d, s);
    FlagsTaken(t.d, n);
    TookConcat(d, s, Flags(n));
    assert [data] + [] == [data];
  }


  // One transmission, from any state: at most one frame left over from before, then
  // the frame sent, and the receiver is in step.
  lemma TransmissionTaken(d: Dec, tx: Tx)
    requires Clear(tx)
    ensures var t := FedAll(d, Nrzi(Transmission(tx.data, tx.pre, tx.post), false));
            && Synced(t.d)
            && (|d.raw| <= 100 ==> t.frames == [tx.data])
            && exists left: seq<seq<bv8>> :: |left| <= 1 && t.frames == left + [tx.data]
  {
    hide TookAll, FedAll, Synced, Stuffed, Flags, Transmission, BitsOf, Body;
    var rest := Stuffed(BitsOf(Body(tx.data)), 0) + FLAG + Flags(tx.post - 1);
    TransmissionParts(tx);
    var air := Transmission(tx.data, tx.pre, tx.post);
    var lead := [d.prevRaw] + FLAG[1..] + FLAG + Flags(tx.pre - 2);
    FirstBit(d, air);
    assert [d.prevRaw] + air[1..] == lead + rest;
    LeadTaken(d, tx.pre - 2);
    var t := TookAll(d, lead);
    RestTaken(t.d, tx.data, tx.post - 1);
    TookConcat(d, lead, rest);
    assert FedAll(d, Nrzi(air, false)).frames == t.frames + [tx.data];
    assert [] + [tx.data] == [tx.data];
  }

  function Datas(txs: seq<Tx>): seq<seq<bv8>> {
    if txs == [] then [] else [txs[0].data] + Datas(txs[1..])
  }

  lemma {:induction false} LaterTransmissions(d: Dec, txs: seq<Tx>)
    requires |d.raw| <= 100 && forall i | 0 <= i < |txs| :: Clear(txs[i])
    ensures FedAll(d, OnAir(txs)).frames == Datas(txs)
    decreases |txs|
  {
    hide FedAll, Synced, Transmission;
    if txs == [] {
      assert FedAll(d, []).frames == [] by { FedNothing(d); }
    } else {
      var line := Nrzi(Transmission(txs[0].data, txs[0].pre, txs[0].post), false);
      TransmissionTaken(d, txs[0]);
      var t := FedAll(d, line);
      SyncedShort(t.d);
      FedAllConcat(d, line, OnAir(txs[1..]));
      LaterTransmissions(t.d, txs[1..]);
    }
  }

  lemma FedNothing(d: Dec)
    ensures FedAll(d, []).frames == []
  {
  }

  lemma JoinFrames(a: seq<seq<bv8>>, b: seq<seq<bv8>>, c: seq<seq<bv8>>)
    ensures a + b + c == a + (b + c)
  {
  }

  lemma OnAirFirst(txs: seq<Tx>)
    requires txs != []
    ensures OnAir(txs) == Nrzi(Transmission(txs[0].data, txs[0].pre, txs[0].post), false) + OnAir(txs[1..])
    ensures Datas(txs) == [txs[0].data] + Datas(txs[1..])
  {
    hide Transmission, Nrzi;
  }

  lemma FirstOfMany(d: Dec, txs: seq<Tx>)
    requires txs != [] && forall i | 0 <= i < |txs| :: Clear(txs[i])
    ensures exists left: seq<seq<bv8>> :: |left| <= 1 && FedAll(d, OnAir(txs)).frames == left + Datas(txs)
  {
    hide FedAll, Synced, Transmission, Clear, Nrzi;
    var line := Nrzi(Transmission(txs[0].data, txs[0].pre, txs[0].post), false);
    OnAirFirst(txs);
    TransmissionTaken(d, txs[0]);
    var t := FedAll(d, line);
    SyncedShort(t.d);
    var more := txs[1..];
    FedAllConcat(d, line, OnAir(more));
    assert forall i | 0 <= i < |more| :: Clear(more[i]);
    LaterTransmissions(t.d, more);
    hide Datas, OnAir;
    var left: seq<seq<bv8>> :| |left| <= 1 && t.frames == left + [txs[0].data];
    JoinFrames(left, [txs[0].data], Datas(more));
    assert FedAll(d, OnAir(txs)).frames == left + Datas(txs);
  }

  // What the encoder sends the decoder takes: any number of transmissions, each its
  // own call of the encoder with at least two flags ahead and one behind, come out as
  // the frames put in. A new receiver yields nothing else; one in any other state may
  // first yield one frame left over from before.
  lemma TransmissionsTaken(d: Dec, txs: seq<Tx>)
    requires forall i | 0 <= i < |txs| :: Clear(txs[i])
    ensures exists left: seq<seq<bv8>> :: |left| <= 1 && FedAll(d, OnAir(txs)).frames == left + Datas(txs)
    ensures FedAll(START, OnAir(txs)).frames == Datas(txs)
  {
    hide FedAll, Synced, Transmission, Clear;
    LaterTransmissions(START, txs);
    if txs == [] {
      FedNothing(d);
      assert FedAll(d, OnAir(txs)).frames == [] + Datas(txs);
    } else {
      FirstOfMany(d, txs);
    }
  }
}
