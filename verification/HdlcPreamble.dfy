// What the batch specification says of a sender's bits: which segments it takes, where
// the obvious specification differs, and how many flags a transmission needs in front.

module HdlcPreamble {
  import opened Common
  import opened Fcs
  import opened HdlcSpec
  import opened HdlcSync
  import opened HdlcBatch

  // ----- stuffed bits -----

  lemma BitIn(h: seq<bool>, b: bool)
    requires TrailingOnes(h) <= 5
    ensures Batch(h + [b]) == Batch(h) && (NoFourteen(h) ==> NoFourteen(h + [b]))
    ensures Since(h + [b]) == if Since(h).Some? then Some(Since(h).value + [b]) else None
    ensures TrailingOnes(h + [b]) == if b then TrailingOnes(h) + 1 else 0
    ensures Unstuffed(h + [b]) == if !b && TrailingOnes(h) == 5 then Unstuffed(h) else Unstuffed(h) + [b]
    ensures HasSeven(h + [b]) <==> HasSeven(h)
  {
    Snoc(h, b);
    SinceSnoc(h, b);
  }

  // Stuffed bits after fewer than five ones: the zeros put in are the zeros dropped,
  // and there is no flag and no abort among them.
  lemma {:induction false} StuffedIn(h: seq<bool>, bits: seq<bool>)
    requires TrailingOnes(h) <= 4
    ensures var s := Stuffed(bits, TrailingOnes(h));
            && Unstuffed(h + s) == Unstuffed(h) + bits && TrailingOnes(h + s) == RunAfter(bits, TrailingOnes(h)) <= 4
            && (HasSeven(h + s) <==> HasSeven(h)) && (NoFourteen(h) ==> NoFourteen(h + s))
            && Batch(h + s) == Batch(h)
            && Since(h + s) == if Since(h).Some? then Some(Since(h).value + s) else None
    decreases |bits|
  {
    hide Batch, Since, Unstuffed, HasSeven, NoFourteen, TrailingOnes;
    var t := TrailingOnes(h);
    if bits == [] {
      assert h + [] == h && Unstuffed(h) + [] == Unstuffed(h);
      assert Since(h).Some? ==> Since(h).value + [] == Since(h).value;
    } else {
      var b := bits[0];
      BitIn(h, b);
      var head := if b && t + 1 == 5 then [true, false] else [b];
      var rest := Stuffed(bits[1..], if !b || t + 1 == 5 then 0 else t + 1);
      assert Stuffed(bits, t) == head + rest;
      if b && t + 1 == 5 {
        BitIn(h + [true], false);
        assert h + [true] + [false] == h + head;
        assert Since(h).Some? ==> Since(h).value + [true] + [false] == Since(h).value + head;
      }
      StuffedIn(h + head, bits[1..]);
      assert h + head + rest == h + (head + rest);
      assert Since(h).Some? ==> Since(h).value + head + rest == Since(h).value + (head + rest);
      assert Unstuffed(h) + [b] + bits[1..] == Unstuffed(h) + bits;
    }
  }

  lemma {:induction false} OctetsBack(data: seq<bv8>)
    ensures WholeOctets(BitsOf(data)) == data
    decreases |data|
  {
    hide OctetBits, OctetOf;
    if data == [] {
      BitsOfNone();
    } else {
      var o, rest := OctetBits(data[0]), BitsOf(data[1..]);
      OctetHasEight(data[0]);
      assert BitsOf(data) == o + rest;
      assert (o + rest)[..8] == o && (o + rest)[8..] == rest;
      OctetBack(data[0]);
      OctetsBack(data[1..]);
      assert data == [data[0]] + data[1..];
    }
  }

  // The specification takes what the encoder puts between two flags as the frame it
  // was given.
  lemma SentSegmentTaken(data: seq<bv8>)
    requires Sendable(data)
    ensures FrameOf(Stuffed(BitsOf(Body(data)), 0)) == Some(data)
  {
    hide BitsOf, Body, Checks, Unstuffed, TrailingOnes, HasSeven, Stuffed, RunAfter, WholeOctets;
    var bits := BitsOf(Body(data));
    assert TrailingOnes([]) == 0 && Unstuffed([]) == [] && !HasSeven([]) by { NothingYet(); }
    StuffedIn([], bits);
    assert [] + Stuffed(bits, 0) == Stuffed(bits, 0) && [] + bits == bits;
    OctetsBack(Body(data));
    BodyLength(data);
    BodyChecks(data);
  }

  lemma NothingYet()
    ensures TrailingOnes([]) == 0 && Unstuffed([]) == [] && !HasSeven([])
    ensures Batch([]) == [] && Since([]) == None && NoFourteen([])
  {
  }

  // ----- one flag in front -----

  lemma OneIn(h: seq<bool>)
    ensures TrailingOnes(h + [true]) == TrailingOnes(h) + 1 && Batch(h + [true]) == Batch(h)
    ensures Since(h).None? ==> Since(h + [true]).None?
    ensures NoFourteen(h) ==> NoFourteen(h + [true])
  {
    Snoc(h, true);
    SinceSnoc(h, true);
  }

  lemma {:induction false} OnesIn(h: seq<bool>, n: nat)
    ensures TrailingOnes(h + Ones(n)) == TrailingOnes(h) + n && Batch(h + Ones(n)) == Batch(h)
    ensures Since(h).None? ==> Since(h + Ones(n)).None?
    ensures NoFourteen(h) ==> NoFourteen(h + Ones(n))
    decreases n
  {
    hide Batch, Since, NoFourteen, TrailingOnes;
    if n == 0 {
      assert h + [] == h;
    } else {
      OnesSnoc(n - 1);
      OnesIn(h, n - 1);
      OneIn(h + Ones(n - 1));
      assert h + Ones(n - 1) + [true] == h + Ones(n);
    }
  }

  lemma ZeroIn(h: seq<bool>)
    requires TrailingOnes(h) != 6 && TrailingOnes(h) != 14
    ensures TrailingOnes(h + [false]) == 0 && Batch(h + [false]) == Batch(h)
    ensures Since(h).None? ==> Since(h + [false]).None?
    ensures NoFourteen(h) ==> NoFourteen(h + [false])
  {
    Snoc(h, false);
    SinceSnoc(h, false);
  }

  // A flag's ones, after its zero.
  lemma JoinOne(h: seq<bool>, o: seq<bool>)
    ensures h + o + [true] == h + (o + [true])
  {
  }

  lemma {:induction false} OnesFollow(h: seq<bool>, n: nat)
    requires TrailingOnes(h) + n <= 6
    ensures TrailingOnes(h + Ones(n)) == TrailingOnes(h) + n && Batch(h + Ones(n)) == Batch(h)
    ensures Since(h + Ones(n)) == if Since(h).Some? then Some(Since(h).value + Ones(n)) else None
    ensures NoFourteen(h) ==> NoFourteen(h + Ones(n))
    decreases n
  {
    hide Batch, Since, NoFourteen, TrailingOnes, Unstuffed, HasSeven;
    if n == 0 {
      assert h + [] == h;
      assert Since(h).Some? ==> Since(h).value + [] == Since(h).value;
    } else {
      var o := Ones(n - 1);
      OnesSnoc(n - 1);
      hide Ones;
      OnesFollow(h, n - 1);
      BitIn(h + o, true);
      JoinOne(h, o);
      if Since(h).Some? {
        JoinOne(Since(h).value, o);
      }
    }
  }

  // A flag closes what came since the flag before it and opens the next.
  lemma FlagAfter(h: seq<bool>)
    requires TrailingOnes(h) <= 5
    ensures TrailingOnes(h + FLAG) == 0 && Since(h + FLAG) == Some([]) && (NoFourteen(h) ==> NoFourteen(h + FLAG))
    ensures Batch(h + FLAG) ==
            Batch(h) + if Since(h).Some? && FrameOf(Since(h).value).Some? then [FrameOf(Since(h).value).value] else []
  {
    hide Batch, Since, NoFourteen, TrailingOnes, FrameOf;
    FlagParts();
    BitIn(h, false);
    OnesFollow(h + [false], 6);
    var g := h + [false] + Ones(6);
    FlagCloses(g);
    assert h + FLAG == g + [false];
    if Since(h).Some? {
      var c := Since(h).value;
      OnesSnoc(6);
      assert Content(c + [false] + Ones(6)) == c;
    } else {
      assert Batch(h) + [] == Batch(h);
    }
  }

  lemma FlagCloses(g: seq<bool>)
    requires TrailingOnes(g) == 6
    ensures var h := g + [false];
            && TrailingOnes(h) == 0 && Since(h) == Some([]) && (NoFourteen(g) ==> NoFourteen(h))
            && Batch(h) == Batch(g) + (if Since(g).Some? && FrameOf(Content(Since(g).value)).Some?
                                       then [FrameOf(Content(Since(g).value)).value] else [])
  {
    hide FrameOf;
    Snoc(g, false);
  }

  // A spoilt flag, a body, a flag: nothing was opened, so nothing is closed.
  lemma SpoiltSegment(bits: seq<bool>)
    ensures var h := Ones(7) + [false] + Stuffed(bits, 0) + FLAG; NoFourteen(h) && Batch(h) == []
  {
    hide Batch, Since, NoFourteen, TrailingOnes;
    NothingYet();
    OnesIn([], 7);
    assert [] + Ones(7) == Ones(7);
    ZeroIn(Ones(7));
    var g := Ones(7) + [false];
    StuffedIn(g, bits);
    FlagAfter(g + Stuffed(bits, 0));
  }

  lemma SpoiltHead()
    ensures [true] + FLAG[1..] == Ones(7) + [false]
  {
    FlagParts();
    assert Ones(7) == [true] + Ones(6);
  }

  lemma OneFlagParts(data: seq<bv8>, post: nat)
    requires post >= 1
    ensures Transmission(data, 1, post) == FLAG + (Stuffed(BitsOf(Body(data)), 0) + FLAG) + Flags(post - 1)
  {
    hide Stuffed, BitsOf, Body;
    assert Flags(1) == FLAG + Flags(0) == FLAG;
    assert Flags(post) == FLAG + Flags(post - 1);
  }

  lemma OneFlagHigh(data: seq<bv8>, post: nat)
    requires post >= 1
    ensures FedAll(Fresh(true), Nrzi(Transmission(data, 1, post), false)).frames == []
  {
    hide TookAll, FedAll, Stuffed, BitsOf, Body, Transmission, Flags, Batch, NoFourteen, Synced, Fresh;
    var s := Stuffed(BitsOf(Body(data)), 0);
    var air := Transmission(data, 1, post);
    OneFlagParts(data, post);
    assert Fresh(true).prevRaw by { FreshPrev(true); }
    FirstBit(Fresh(true), air);
    SpoiltHead();
    var h := Ones(7) + [false] + s + FLAG;
    assert [true] + air[1..] == h + Flags(post - 1);
    hide Ones;
    SpoiltTaken(BitsOf(Body(data)));
    var d := TookAll(Fresh(true), h).d;
    FlagsTaken(d, post - 1);
    TookConcat(Fresh(true), h, Flags(post - 1));
    assert FedAll(Fresh(true), Nrzi(air, false)) == TookAll(Fresh(true), h + Flags(post - 1));
    assert TookAll(Fresh(true), h).frames + [] == [];
  }

  // What the spoilt flag makes of the frame: seven ones, an abort, and nothing up to the
  // closing flag, which brings the receiver into step.
  lemma SpoiltTaken(bits: seq<bool>)
    ensures var t := TookAll(Fresh(true), Ones(7) + [false] + Stuffed(bits, 0) + FLAG); Synced(t.d) && t.frames == []
  {
    hide TookAll, Stuffed, Batch, NoFourteen, Synced, Fresh, Ones, Tracks;
    var g := Ones(7) + [false] + Stuffed(bits, 0);
    SpoiltSegment(bits);
    BatchTracks(true, g + FLAG);
    FlagFromAnywhere(TookAll(Fresh(true), g).d);
    TookConcat(Fresh(true), g, FLAG);
  }

  lemma FreshPrev(prev: bool)
    ensures Fresh(prev).prevRaw == prev && |Fresh(prev).raw| == 0
  {
  }

  lemma OneFlagLow(data: seq<bv8>, post: nat)
    requires Sendable(data) && post >= 1
    ensures FedAll(Fresh(false), Nrzi(Transmission(data, 1, post), false)).frames == [data]
  {
    hide TookAll, FedAll, Stuffed, BitsOf, Body, Transmission, Flags, Synced, Fresh;
    var d := Fresh(false);
    var s := Stuffed(BitsOf(Body(data)), 0) + FLAG;
    var air := Transmission(data, 1, post);
    OneFlagParts(data, post);
    FreshPrev(false);
    LineCarries(d, air);
    ShortFlag(d);
    var t := TookAll(d, FLAG).d;
    FrameTaken(t, data);
    TookConcat(d, FLAG, s);
    FlagsTaken(TookAll(d, FLAG + s).d, post - 1);
    TookConcat(d, FLAG + s, Flags(post - 1));
  }

  // With one flag in front a new receiver gets the frame exactly when it last saw the
  // line low: the encoder starts every transmission there, and its first zero is lost
  // on a receiver that saw it high.
  lemma OneFlagIff(data: seq<bv8>, post: nat, prev: bool)
    requires Sendable(data) && post >= 1
    ensures FedAll(Fresh(prev), Nrzi(Transmission(data, 1, post), false)).frames == [data] <==> !prev
  {
    if prev {
      OneFlagHigh(data, post);
    } else {
      OneFlagLow(data, post);
    }
  }
}
