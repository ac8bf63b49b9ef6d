// Where the receiver and the obvious specification of it part: segments between two
// flags that end in five ones.

module HdlcSegments {
  import opened Common
  import opened Fcs
  import opened HdlcSpec
  import opened HdlcSync
  import opened HdlcBatch
  import opened HdlcPreamble

  // Whole octets with a good check, and no look at how the segment ends.
  function NaiveFrameOf(c: seq<bool>): Option<seq<bv8>> {
    if HasSeven(c) || |Unstuffed(c)| % 8 != 0 then None else Checked(7, Capped(WholeOctets(Unstuffed(c))))
  }

  // The octets of a segment, a bit over or not, check as a frame.
  predicate GoodOctets(c: seq<bool>) {
    Checked(7, Capped(WholeOctets(Unstuffed(c)))).Some?
  }

  // The two differ exactly on segments of good octets that end in five ones: with no
  // bit over, the receiver refuses a frame it should take; with one bit over, it takes
  // one it should refuse.
  lemma NaiveDiffersIff(c: seq<bool>)
    ensures FrameOf(c) != NaiveFrameOf(c) <==>
            TrailingOnes(c) == 5 && !HasSeven(c) && GoodOctets(c) && |Unstuffed(c)| % 8 <= 1
    ensures FrameOf(c).None? && NaiveFrameOf(c).Some? <==>
            TrailingOnes(c) == 5 && !HasSeven(c) && GoodOctets(c) && |Unstuffed(c)| % 8 == 0
    ensures FrameOf(c).Some? && NaiveFrameOf(c).None? <==>
            TrailingOnes(c) == 5 && !HasSeven(c) && GoodOctets(c) && |Unstuffed(c)| % 8 == 1
  {
    hide Checked, Unstuffed, WholeOctets, HasSeven, TrailingOnes;
  }

  // ----- on the line -----

  // What can stand between two flags without an abort: never six ones in a row.
  predicate Plain(c: seq<bool>)
    decreases |c|
  {
    c != [] ==> TrailingOnes(c) <= 5 && Plain(Front(c))
  }

  lemma {:induction false} PlainIn(h: seq<bool>, c: seq<bool>)
    requires TrailingOnes(h) == 0 && Plain(c)
    ensures TrailingOnes(h + c) == TrailingOnes(c) <= 5 && Batch(h + c) == Batch(h) && !HasSeven(c)
    ensures NoFourteen(h) ==> NoFourteen(h + c)
    ensures Since(h + c) == if Since(h).Some? then Some(Since(h).value + c) else None
    decreases |c|
  {
    hide Batch, Since, NoFourteen;
    if c == [] {
      assert h + [] == h;
      assert Since(h).Some? ==> Since(h).value + [] == Since(h).value;
    } else {
      var front, b := Front(c), Last(c);
      PlainIn(h, front);
      PlainShort(c);
      BitIn(h + front, b);
      assert h + front + [b] == h + c;
      assert Since(h).Some? ==> Since(h).value + front + [b] == Since(h).value + c;
    }
  }

  lemma PlainShort(c: seq<bool>)
    requires Plain(c)
    ensures TrailingOnes(c) <= 5
  {
  }

  function Listed(frame: Option<seq<bv8>>): seq<seq<bv8>> {
    if frame.Some? then [frame.value] else []
  }

  // A flag, a segment, a flag: what a new receiver yields is the segment's frame.
  lemma SegmentReceived(prev: bool, c: seq<bool>)
    requires Plain(c)
    ensures FedAll(Fresh(prev), Nrzi(FLAG + c + FLAG, prev)).frames == Listed(FrameOf(c))
  {
    hide FedAll, TookAll, Batch, Since, NoFourteen, TrailingOnes, FrameOf, Plain;
    NothingYet();
    FlagAfter([]);
    assert [] + FLAG == FLAG && Batch([]) + [] == [];
    PlainIn(FLAG, c);
    assert [] + c == c;
    FlagAfter(FLAG + c);
    var h := FLAG + c + FLAG;
    FreshPrev(prev);
    LineCarries(Fresh(prev), h);
    BatchTracks(prev, h);
    assert [] + Listed(FrameOf(c)) == Listed(FrameOf(c));
  }

  // So the receiver meets the obvious specification exactly on the segments that do not
  // end in five ones, do not check, or are more than a bit off whole octets.
  lemma NaiveIff(prev: bool, c: seq<bool>)
    requires Plain(c)
    ensures FedAll(Fresh(prev), Nrzi(FLAG + c + FLAG, prev)).frames == Listed(NaiveFrameOf(c))
            <==> TrailingOnes(c) != 5 || !GoodOctets(c) || |Unstuffed(c)| % 8 > 1
  {
    hide FedAll, FrameOf, NaiveFrameOf, TrailingOnes, Unstuffed, GoodOctets, Plain;
    SegmentReceived(prev, c);
    NaiveDiffersIff(c);
    PlainIn([], c) by { NothingYet(); }
    ListedSame(FrameOf(c), NaiveFrameOf(c));
  }

  lemma ListedSame(a: Option<seq<bv8>>, b: Option<seq<bv8>>)
    ensures Listed(a) == Listed(b) <==> a == b
  {
    assert a.Some? ==> Listed(a)[0] == a.value;
    assert b.Some? ==> Listed(b)[0] == b.value;
  }

  // ----- one of each kind -----

  lemma {:induction false} StuffedPlain(h: seq<bool>, bits: seq<bool>)
    requires Plain(h) && TrailingOnes(h) <= 4
    ensures Plain(h + Stuffed(bits, TrailingOnes(h)))
    decreases |bits|
  {
    hide TrailingOnes, Plain;
    var t := TrailingOnes(h);
    if bits == [] {
      assert h + [] == h;
    } else {
      var b := bits[0];
      PlainSnoc(h, b);
      var head := if b && t + 1 == 5 then [true, false] else [b];
      var rest := Stuffed(bits[1..], if !b || t + 1 == 5 then 0 else t + 1);
      assert Stuffed(bits, t) == head + rest;
      if b && t + 1 == 5 {
        PlainSnoc(h + [true], false);
        assert h + [true] + [false] == h + head;
      }
      StuffedPlain(h + head, bits[1..]);
      assert h + head + rest == h + (head + rest);
    }
  }

  lemma PlainSnoc(h: seq<bool>, b: bool)
    requires Plain(h) && (b ==> TrailingOnes(h) <= 4)
    ensures Plain(h + [b]) && TrailingOnes(h + [b]) == if b then TrailingOnes(h) + 1 else 0
  {
    Snoc(h, b);
  }

  lemma RunConcat(a: seq<bool>, b: seq<bool>, run: int)
    ensures RunAfter(a + b, run) == RunAfter(b, RunAfter(a, run))
  {
    StuffedConcat(a, b, run);
  }

  // A zero and then four ones leave a run of four, whatever came before.
  lemma FourAfterZero(run: int)
    ensures RunAfter([false, true, true, true, true], run) == 4
  {
    assert [false, true, true, true, true][1..] == [true, true, true, true];
    assert [true, true, true, true][1..] == [true, true, true];
    assert [true, true, true][1..] == [true, true];
    assert [true, true][1..] == [true] && [true][1..] == [];
    assert RunAfter([true], 3) == RunAfter([], 4) == 4;
    assert RunAfter([true, true], 2) == RunAfter([true], 3);
    assert RunAfter([true, true, true], 1) == RunAfter([true, true], 2);
  }

  lemma RunEnds(bits: seq<bool>)
    requires |bits| >= 5 && bits[|bits| - 5..] == [false, true, true, true, true]
    ensures RunAfter(bits, 0) == 4
  {
    var n := |bits| - 5;
    assert bits == bits[..n] + bits[n..];
    RunConcat(bits[..n], bits[n..], 0);
    FourAfterZero(RunAfter(bits[..n], 0));
  }

  // Stuffed bits whose run has reached four, and one more one.
  function FiveOnes(bits: seq<bool>): seq<bool> {
    Stuffed(bits, 0) + [true]
  }

  lemma FiveOnesAre(bits: seq<bool>)
    requires RunAfter(bits, 0) == 4
    ensures var c := FiveOnes(bits); Plain(c) && TrailingOnes(c) == 5 && Unstuffed(c) == bits + [true]
  {
    hide TrailingOnes, Unstuffed, Plain, HasSeven;
    NothingYet();
    assert Plain([]) by { NothingPlain(); }
    StuffedIn([], bits);
    StuffedPlain([], bits);
    assert [] + Stuffed(bits, 0) == Stuffed(bits, 0) && [] + bits == bits;
    PlainSnoc(Stuffed(bits, 0), true);
    BitIn(Stuffed(bits, 0), true);
  }

  lemma NothingPlain()
    ensures Plain([])
  {
  }

  lemma FrameGood(data: seq<bv8>, extra: seq<bool>)
    requires Sendable(data) && |extra| <= 1
    ensures var bits := BitsOf(Body(data));
            Checked(7, Capped(WholeOctets(bits + extra))) == Some(data) && |bits| % 8 == 0
  {
    hide Checks, Body;
    var bits := BitsOf(Body(data));
    OctetsBack(Body(data));
    WholeOctetsExtra(bits, extra);
    BodyLength(data);
    BodyChecks(data);
  }

  lemma BodySplits(data: seq<bv8>)
    ensures var hi := FcsHigh(FcsOf(data));
            BitsOf(Body(data)) == BitsOf(Body(data)[..|data| + 1]) + OctetBits(hi)
  {
    hide OctetBits, FcsOf, BitsOf;
    var hi := FcsHigh(FcsOf(data));
    assert Body(data) == Body(data)[..|data| + 1] + [hi];
    BitsConcat(Body(data)[..|data| + 1], [hi]);
    OneOctet(hi);
  }

  // A good frame whose check sequence ends in a zero and five ones, sent without the
  // stuffed zero a sender would add at its very end: refused.
  lemma RefusedSegment(data: seq<bv8>) returns (c: seq<bool>)
    requires Sendable(data) && FcsHigh(FcsOf(data)) & 0xfc == 0xf8
    ensures Plain(c) && TrailingOnes(c) == 5 && Unstuffed(c) == BitsOf(Body(data))
    ensures NaiveFrameOf(c) == Some(data) && FrameOf(c) == None
    ensures Stuffed(BitsOf(Body(data)), 0) == c + [false]
  {
    hide TrailingOnes, Unstuffed, Plain, HasSeven, Checked, WholeOctets, BitsOf, Body, FcsOf;
    var bits, hi := BitsOf(Body(data)), FcsHigh(FcsOf(data));
    BodySplits(data);
    HighFive(hi);
    var front := bits[..|bits| - 1];
    assert bits == front + [true];
    assert front[|front| - 5..] == [false, true, true, true, true];
    RunEnds(front);
    c := FiveOnes(front);
    FiveOnesAre(front);
    StuffedConcat(front, [true], 0);
    assert [true][1..] == [];
    assert Stuffed([true], 4) == [true, false];
    FrameGood(data, []);
    assert bits + [] == bits;
    PlainIn([], c) by { NothingYet(); }
    NaiveDiffersIff(c);
  }

  lemma HighFive(hi: bv8)
    requires hi & 0xfc == 0xf8
    ensures |OctetBits(hi)| == 8 && OctetBits(hi)[2..] == [false, true, true, true, true, true]
  {
    assert !Bit(hi, 2) && Bit(hi, 3) && Bit(hi, 4) && Bit(hi, 5) && Bit(hi, 6) && Bit(hi, 7);
  }

  lemma HighFour(hi: bv8)
    requires hi & 0xf8 == 0xf0
    ensures |OctetBits(hi)| == 8 && OctetBits(hi)[3..] == [false, true, true, true, true]
  {
    assert !Bit(hi, 3) && Bit(hi, 4) && Bit(hi, 5) && Bit(hi, 6) && Bit(hi, 7);
  }

  // One whose check sequence ends in a zero and four ones, with a fifth one too many
  // before the flag: taken.
  lemma WronglyTakenSegment(data: seq<bv8>) returns (c: seq<bool>)
    requires Sendable(data) && FcsHigh(FcsOf(data)) & 0xf8 == 0xf0
    ensures Plain(c) && TrailingOnes(c) == 5 && Unstuffed(c) == BitsOf(Body(data)) + [true]
    ensures NaiveFrameOf(c) == None && FrameOf(c) == Some(data)
  {
    hide TrailingOnes, Unstuffed, Plain, HasSeven, Checked, WholeOctets, BitsOf, Body, FcsOf;
    var bits, hi := BitsOf(Body(data)), FcsHigh(FcsOf(data));
    BodySplits(data);
    HighFour(hi);
    assert bits[|bits| - 5..] == [false, true, true, true, true];
    RunEnds(bits);
    c := FiveOnes(bits);
    FiveOnesAre(bits);
    FrameGood(data, [true]);
    PlainIn([], c) by { NothingYet(); }
    NaiveDiffersIff(c);
  }

  // ----- two such frames -----

  function ZerosThen(n: nat, x: bv8): seq<bv8> {
    seq(n, i => 0) + [x]
  }

  function StepZeros(crc: bv16, n: nat): bv16
    decreases n
  {
    if n == 0 then crc else StepZeros(Crc16Step(crc, 0), n - 1)
  }

  lemma {:induction false} FoldedZerosThen(crc: bv16, n: nat, x: bv8)
    ensures Folded(crc, ZerosThen(n, x)) == Crc16Step(StepZeros(crc, n), x)
    decreases n
  {
    hide Crc16Step;
    var d := ZerosThen(n, x);
    if n == 0 {
      assert d[1..] == [];
      assert Folded(Crc16Step(crc, x), []) == Crc16Step(crc, x);
    } else {
      assert d[0] == 0 && d[1..] == ZerosThen(n - 1, x);
      FoldedZerosThen(Crc16Step(crc, 0), n - 1, x);
    }
  }

  lemma SevenZeros(crc: bv16, c1: bv16, c2: bv16, c3: bv16, c4: bv16, c5: bv16, c6: bv16, c7: bv16, n: nat)
    requires Crc16Step(crc, 0) == c1 && Crc16Step(c1, 0) == c2 && Crc16Step(c2, 0) == c3 && Crc16Step(c3, 0) == c4
    requires Crc16Step(c4, 0) == c5 && Crc16Step(c5, 0) == c6 && Crc16Step(c6, 0) == c7
    ensures StepZeros(crc, n + 7) == StepZeros(c7, n)
  {
    hide Crc16Step;
    assert StepZeros(c4, n + 3) == StepZeros(c5, n + 2) == StepZeros(c6, n + 1) == StepZeros(c7, n);
    assert StepZeros(c1, n + 6) == StepZeros(c2, n + 5) == StepZeros(c3, n + 4) == StepZeros(c4, n + 3);
    assert StepZeros(crc, n + 7) == StepZeros(c1, n + 6);
  }

  lemma FourteenZeros()
    ensures StepZeros(0xffff, 14) == 0x5695
  {
    hide StepZeros;
    FirstSeven();
    SecondSeven();
    assert StepZeros(0x5695, 0) == 0x5695 by { NoZeros(0x5695); }
  }

  lemma NoZeros(crc: bv16)
    ensures StepZeros(crc, 0) == crc
  {
  }

  lemma FirstSteps()
    ensures Crc16Step(0xffff, 0) == 0x0f87 && Crc16Step(0x0f87, 0) == 0xf0b8
    ensures Crc16Step(0xf0b8, 0) == 0x3933 && Crc16Step(0x3933, 0) == 0x0321
  {
  }

  lemma NextSteps()
    ensures Crc16Step(0x0321, 0) == 0x3088 && Crc16Step(0x3088, 0) == 0x0870 && Crc16Step(0x0870, 0) == 0x738f
  {
  }

  lemma FirstSeven()
    ensures StepZeros(0xffff, 14) == StepZeros(0x738f, 7)
  {
    hide Crc16Step, StepZeros;
    FirstSteps();
    NextSteps();
    SevenZeros(0xffff, 0x0f87, 0xf0b8, 0x3933, 0x0321, 0x3088, 0x0870, 0x738f, 7);
  }

  lemma LaterSteps()
    ensures Crc16Step(0x738f, 0) == 0x7c8c && Crc16Step(0x7c8c, 0) == 0x4e18
    ensures Crc16Step(0x4e18, 0) == 0x9c87 && Crc16Step(0x9c87, 0) == 0xf02b
  {
  }

  lemma LastSteps()
    ensures Crc16Step(0xf02b, 0) == 0x9f21 && Crc16Step(0x9f21, 0) == 0x3014 && Crc16Step(0x3014, 0) == 0x5695
  {
  }

  lemma SecondSeven()
    ensures StepZeros(0x738f, 7) == StepZeros(0x5695, 0)
  {
    hide Crc16Step, StepZeros;
    LaterSteps();
    LastSteps();
    SevenZeros(0x738f, 0x7c8c, 0x4e18, 0x9c87, 0xf02b, 0x9f21, 0x3014, 0x5695, 0);
  }

  lemma FcsOfZerosThen(x: bv8, crc: bv16)
    requires Crc16Step(0x5695, x) == crc
    ensures FcsOf(ZerosThen(14, x)) == Xor(crc, 0xffff) && Sendable(ZerosThen(14, x))
  {
    hide Crc16Step, Xor, StepZeros;
    FoldedZerosThen(0xffff, 14, x);
    FourteenZeros();
  }

  lemma LastStep()
    ensures Crc16Step(0x5695, 0xc0) == 0x057e && Crc16Step(0x5695, 0x0c) == 0x091e
  {
  }

  lemma HighOf(crc: bv16, hi: bv8)
    requires (crc == 0x057e && hi == 0xfa) || (crc == 0x091e && hi == 0xf6)
    ensures FcsHigh(Xor(crc, 0xffff)) == hi
  {
  }

  // Fourteen zero octets and 0xc0, whose check sequence is 0xfa81: a new receiver takes
  // the frame as the encoder sends it, and not with the last stuffed zero missing,
  // though octets and check are the same.
  lemma RefusedExample(prev: bool) returns (c: seq<bool>)
    ensures NaiveFrameOf(c) == Some(ZerosThen(14, 0xc0))
    ensures FedAll(Fresh(prev), Nrzi(FLAG + c + FLAG, prev)).frames == []
    ensures FedAll(Fresh(prev), Nrzi(FLAG + (c + [false]) + FLAG, prev)).frames == [ZerosThen(14, 0xc0)]
  {
    hide FedAll, FrameOf, NaiveFrameOf, Plain, FcsOf, ZerosThen, Sendable, Stuffed, BitsOf, Body, TrailingOnes, Unstuffed, Crc16Step;
    LastStep();
    FcsOfZerosThen(0xc0, 0x057e);
    HighOf(0x057e, 0xfa);
    c := RefusedSegment(ZerosThen(14, 0xc0));
    SegmentReceived(prev, c);
    NothingYet();
    NothingPlain();
    StuffedPlain([], BitsOf(Body(ZerosThen(14, 0xc0))));
    assert [] + (c + [false]) == c + [false];
    SentSegmentTaken(ZerosThen(14, 0xc0));
    SegmentReceived(prev, c + [false]);
  }

  // Fourteen zero octets and 0x0c, whose check sequence is 0xf6e1: with a one too many
  // before the closing flag the receiver takes the frame all the same.
  lemma WronglyTakenExample(prev: bool) returns (c: seq<bool>)
    ensures NaiveFrameOf(c) == None && |Unstuffed(c)| == 8 * 17 + 1
    ensures FedAll(Fresh(prev), Nrzi(FLAG + c + FLAG, prev)).frames == [ZerosThen(14, 0x0c)]
  {
    hide FedAll, FrameOf, NaiveFrameOf, Plain, FcsOf, ZerosThen, Sendable, Body, TrailingOnes, Unstuffed, Crc16Step;
    LastStep();
    FcsOfZerosThen(0x0c, 0x091e);
    HighOf(0x091e, 0xf6);
    c := WronglyTakenSegment(ZerosThen(14, 0x0c));
    SegmentReceived(prev, c);
    BodyLength(ZerosThen(14, 0x0c));
    assert |ZerosThen(14, 0x0c)| == 15 by { ZerosLength(14, 0x0c); }
  }

  lemma ZerosLength(n: nat, x: bv8)
    ensures |ZerosThen(n, x)| == n + 1
  {
  }
}
