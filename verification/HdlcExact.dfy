// What the receiver yields from every stream. Seven ones abort a frame and empty the
// buffer of line bits; if exactly seven more follow, the buffer starts with what looks
// like the ones of a flag, and decoding it anew at the next flag can find a frame there.

module HdlcExact {
  import opened Common
  import opened Fcs
  import opened HdlcSpec
  import opened HdlcSync
  import opened HdlcBatch
  import opened HdlcPreamble
  import opened HdlcSegments

  // ----- the specification -----

  // The bits since the zero after a run of exactly fourteen ones, unless a flag or an
  // abort has come since.
  function Reborn(h: seq<bool>): Option<seq<bool>>
    decreases |h|
  {
    if h == [] then None
    else if !Last(h) && TrailingOnes(Front(h)) == 14 then Some([])
    else if EndsInFlag(h) || TrailingOnes(h) == 7 then None
    else if Reborn(Front(h)).Some? then Some(Reborn(Front(h)).value + [Last(h)])
    else None
  }

  // The buffer holds the last seven of those ones, the zero, and this much more, once the
  // flag's eight bits are taken off its end.
  const REFILL := MAX_NUM_BITS - 16

  function Refilled(c: seq<bool>): seq<bool> {
    if |c| < 7 then [] else if |c| - 7 <= REFILL then c[..|c| - 7] else c[..REFILL]
  }

  // Seven bits past whole octets with a good check: here the flag contributes none.
  function FoundAgain(c: seq<bool>): Option<seq<bv8>> {
    var u := Unstuffed(Refilled(c));
    Checked(|u| % 8, Capped(WholeOctets(u)))
  }

  // What the second decoding finds at a flag.
  function Recloses(h: seq<bool>): Option<seq<bv8>> {
    if EndsInFlag(h) && Reborn(Front(h)).Some? then FoundAgain(Reborn(Front(h)).value) else None
  }

  function Yielded(h: seq<bool>): seq<seq<bv8>>
    decreases |h|
  {
    if h == [] then [] else Yielded(Front(h)) + Listed(Closes(h)) + Listed(Recloses(h))
  }

  // ----- decoding stored bits, the line undone -----

  function Scan(bits: seq<bool>, pat: bv8, o: Octets): Option<seq<bv8>>
    decreases |bits|
  {
    if bits == [] then Checked(o.olen, o.frame)
    else
      var p := ShiftIn(pat, bits[0]);
      if p == 0x7e then
        if Checked(o.olen, o.frame).Some? then Checked(o.olen, o.frame)
        else Scan(bits[1..], p, Octets(o.oacc, 0, []))
      else if p == 0xfe then Scan(bits[1..], p, Octets(o.oacc, -1, []))
      else if IsStuffing(p) then Scan(bits[1..], p, o)
      else Scan(bits[1..], p, Gathered(o, bits[0]))
  }

  lemma {:induction false} RescanScans(bits: seq<bool>, prev: bool, pat: bv8, o: Octets)
    ensures Rescan(Nrzi(bits, prev), prev, pat, o) == Scan(bits, pat, o)
    decreases |bits|
  {
    hide ShiftIn, IsStuffing, Checked, Gathered;
    if bits != [] {
      var b := bits[0];
      var l := if b then prev else !prev;
      var p := ShiftIn(pat, b);
      assert Nrzi(bits, prev)[1..] == Nrzi(bits[1..], l);
      RescanScans(bits[1..], l, p, Octets(o.oacc, 0, []));
      RescanScans(bits[1..], l, p, Octets(o.oacc, -1, []));
      RescanScans(bits[1..], l, p, o);
      RescanScans(bits[1..], l, p, Gathered(o, b));
    }
  }

  // Stored ones before anything is gathered.
  lemma {:induction false} ScanOnes(n: nat, t: nat, rest: seq<bool>, pat: bv8, o: Octets)
    requires RunIs(pat, t) && t + n <= 6 && o.olen < 0
    ensures exists p: bv8 :: RunIs(p, t + n) && Scan(Ones(n) + rest, pat, o) == Scan(rest, p, o)
    decreases n
  {
    hide RunIs, ShiftIn, IsStuffing, Checked;
    if n == 0 {
      assert Ones(0) + rest == rest;
      assert RunIs(pat, t + 0) && Scan(Ones(0) + rest, pat, o) == Scan(rest, pat, o);
    } else {
      assert (Ones(n) + rest)[1..] == Ones(n - 1) + rest;
      OneShifts(pat, t);
      ScanOnes(n - 1, t + 1, rest, ShiftIn(pat, true), o);
      var p: bv8 :| RunIs(p, t + n) && Scan(Ones(n - 1) + rest, ShiftIn(pat, true), o) == Scan(rest, p, o);
      assert Scan(Ones(n) + rest, pat, o) == Scan(rest, p, o);
    }
  }

  lemma ScanFlag(pat: bv8, body: seq<bool>)
    requires RunIs(pat, 6)
    ensures Scan([false] + body, pat, Octets(0, -1, [])) == Scan(body, 0x7e, Octets(0, 0, []))
  {
    hide RunIs, ShiftIn, IsStuffing, Gathered, Checks;
    ZeroShifts(pat, 6);
    assert ([false] + body)[1..] == body;
  }

  // The pattern and the octets after bits with neither flag nor abort among them.
  function PatEnd(pat: bv8, bits: seq<bool>): bv8
    decreases |bits|
  {
    if bits == [] then pat else PatEnd(ShiftIn(pat, bits[0]), bits[1..])
  }

  predicate Calm(pat: bv8, bits: seq<bool>)
    decreases |bits|
  {
    bits != [] ==>
      var p := ShiftIn(pat, bits[0]);
      p != 0x7e && p != 0xfe && Calm(p, bits[1..])
  }

  function Swept(bits: seq<bool>, pat: bv8, o: Octets): Octets
    decreases |bits|
  {
    if bits == [] then o
    else
      var p := ShiftIn(pat, bits[0]);
      Swept(bits[1..], p, if IsStuffing(p) then o else Gathered(o, bits[0]))
  }

  lemma {:induction false} ScanSweeps(bits: seq<bool>, pat: bv8, o: Octets)
    requires Calm(pat, bits)
    ensures Scan(bits, pat, o) == Checked(Swept(bits, pat, o).olen, Swept(bits, pat, o).frame)
    decreases |bits|
  {
    hide ShiftIn, IsStuffing, Checked, Gathered;
    if bits != [] {
      var p := ShiftIn(pat, bits[0]);
      ScanSweeps(bits[1..], p, if IsStuffing(p) then o else Gathered(o, bits[0]));
    }
  }

  lemma {:induction false} SweptSnoc(bits: seq<bool>, b: bool, pat: bv8, o: Octets)
    requires Calm(pat, bits)
    ensures var p := ShiftIn(PatEnd(pat, bits), b);
            && PatEnd(pat, bits + [b]) == p && (Calm(pat, bits + [b]) <==> p != 0x7e && p != 0xfe)
            && Swept(bits + [b], pat, o) == if IsStuffing(p) then Swept(bits, pat, o) else Gathered(Swept(bits, pat, o), b)
    decreases |bits|
  {
    hide ShiftIn, IsStuffing, Gathered;
    if bits == [] {
      assert [] + [b] == [b] && [b][1..] == [];
      SweptNothing(ShiftIn(pat, b));
    } else {
      assert (bits + [b])[1..] == bits[1..] + [b];
      var p := ShiftIn(pat, bits[0]);
      SweptSnoc(bits[1..], b, p, if IsStuffing(p) then o else Gathered(o, bits[0]));
    }
  }

  lemma SweptNothing(pat: bv8)
    ensures Calm(pat, []) && PatEnd(pat, []) == pat && forall o :: Swept([], pat, o) == o
  {
  }

  // After a flag's pattern the sweep gathers the unstuffed bits.
  lemma {:induction false} PlainSwept(c: seq<bool>, o: Octets)
    requires Plain(c)
    ensures Calm(0x7e, c) && PatRun(PatEnd(0x7e, c), TrailingOnes(c))
    ensures Swept(c, 0x7e, o) == GatheredAll(o, Unstuffed(c))
    decreases |c|
  {
    hide ShiftIn, IsStuffing, Gathered, PatRun, Unstuffed, Plain, TrailingOnes, Swept, Calm, PatEnd;
    if c == [] {
      SweptNothing(0x7e);
      PlainNothing(o);
    } else {
      var f, b := Front(c), Last(c);
      assert c == f + [b];
      PlainFront(c);
      PlainSwept(f, o);
      SweptSnoc(f, b, 0x7e, o);
      Snoc(f, b);
      PatAny(PatEnd(0x7e, f), TrailingOnes(f), b);
      GatheredSnoc(o, Unstuffed(f), b);
    }
  }

  lemma PlainNothing(o: Octets)
    ensures PatRun(0x7e, TrailingOnes([])) && GatheredAll(o, Unstuffed([])) == o
  {
  }

  lemma PlainFront(c: seq<bool>)
    requires Plain(c) && c != []
    ensures Plain(Front(c)) && TrailingOnes(c) <= 5 && TrailingOnes(Front(c)) <= 5
  {
  }

  lemma PatAny(pat: bv8, t: nat, b: bool)
    requires PatRun(pat, t) && (if b then t <= 4 else t <= 5)
    ensures var p := ShiftIn(pat, b);
            PatRun(p, if b then t + 1 else 0) && p != 0x7e && p != 0xfe && (IsStuffing(p) <==> !b && t == 5)
  {
    hide PatRun, ShiftIn, IsStuffing;
    if b {
      PatOne(pat, t);
    } else {
      PatZero(pat, t);
    }
  }

  lemma GatheredSnoc(o: Octets, u: seq<bool>, b: bool)
    ensures GatheredAll(o, u + [b]) == Gathered(GatheredAll(o, u), b)
  {
    hide Gathered;
    GatheredConcat(o, u, [b]);
    assert [b][1..] == [];
    var g := Gathered(GatheredAll(o, u), b);
    assert GatheredAll(g, []) == g;
  }

  // So the buffer, seven ones and a zero and then plain bits, decodes to their octets.
  lemma BufferYields(c: seq<bool>)
    requires Plain(c)
    ensures var u := Unstuffed(c);
            Scan(Ones(6) + ([false] + c), 0, Octets(0, -1, [])) == Checked(|u| % 8, Capped(WholeOctets(u)))
  {
    hide RunIs, ShiftIn, IsStuffing, Checked, Gathered, Scan, GatheredAll, Swept, Plain, Unstuffed, WholeOctets;
    var o := Octets(0, 0, []);
    assert RunIs(0, 0) by { ZeroRun(); }
    ScanOnes(6, 0, [false] + c, 0, Octets(0, -1, []));
    var p: bv8 :| RunIs(p, 6) && Scan(Ones(6) + ([false] + c), 0, Octets(0, -1, [])) == Scan([false] + c, p, Octets(0, -1, []));
    ScanFlag(p, c);
    PlainSwept(c, o);
    ScanSweeps(c, 0x7e, o);
    GatheredOctets(o, Unstuffed(c));
    assert [] + WholeOctets(Unstuffed(c)) == WholeOctets(Unstuffed(c));
  }

  lemma ZeroRun()
    ensures RunIs(0, 0)
  {
  }

  // ----- what the buffer holds -----

  function Kept(raw: seq<bool>): seq<bool> {
    if |raw| <= MAX_NUM_BITS then raw else raw[..MAX_NUM_BITS]
  }

  function Reopened(c: seq<bool>): seq<bool> {
    Ones(7) + [false] + c
  }

  // The line bits of seven ones, a zero and c, as far as the buffer takes them.
  predicate Refills(d: Dec, c: seq<bool>) {
    && d.raw != []
    && d.raw == Kept(Nrzi(Reopened(c), d.raw[0])) && d.prevRaw == LineAfter(Reopened(c), d.raw[0])
  }

  // Within fourteen ones: those after the seventh.
  predicate OnesHeld(d: Dec, t: nat) {
    7 <= t <= 14 ==> |d.raw| == t - 7 && forall i | 0 <= i < |d.raw| :: d.raw[i] == d.prevRaw
  }

  ghost predicate Follows(d: Dec, h: seq<bool>) {
    && OnesHeld(d, TrailingOnes(h))
    && match Reborn(h)
       case None => Tracks(d, h)
       case Some(c) => PatRun(d.pat, TrailingOnes(h)) && d.olen < 0 && Refills(d, c)
  }

  // Since then there is a run of fewer than seven ones, and fewer than six before the end.
  lemma {:induction false} RebornPlain(h: seq<bool>)
    requires Reborn(h).Some?
    ensures var c := Reborn(h).value;
            TrailingOnes(c) == TrailingOnes(h) <= 6 && (c != [] ==> Plain(Front(c)))
    decreases |h|
  {
    if !Last(h) && TrailingOnes(Front(h)) == 14 {
    } else {
      RebornPlain(Front(h));
      var c := Reborn(Front(h)).value;
      Snoc(c, Last(h));
      if c == [] {
        assert Plain([]);
      } else {
        assert Plain(c);
      }
    }
  }

  // No frame can be open: an abort has come since the last flag.
  lemma {:induction false} RebornClosed(h: seq<bool>)
    requires Reborn(h).Some? && Since(h).Some?
    ensures HasSeven(Since(h).value)
    decreases |h|
  {
    var f := Front(h);
    assert !EndsInFlag(h);
    var c := Since(f).value;
    Snoc(c, Last(h));
    if !Last(h) && TrailingOnes(f) == 14 {
      SinceRun(f);
      SevenStays(c);
    } else {
      RebornClosed(f);
    }
  }

  lemma RebornSnoc(h: seq<bool>, b: bool)
    ensures Reborn(h + [b]) ==
            if !b && TrailingOnes(h) == 14 then Some([])
            else if (!b && TrailingOnes(h) == 6) || (b && TrailingOnes(h) == 6) || Reborn(h).None? then None
            else Some(Reborn(h).value + [b])
  {
    Snoc(h, b);
    assert Front(h + [b]) == h;
  }

  lemma YieldedSnoc(h: seq<bool>, b: bool)
    ensures Yielded(h + [b]) == Yielded(h) + Listed(Closes(h + [b])) + Listed(Recloses(h + [b]))
  {
    hide Closes, Recloses;
    assert Front(h + [b]) == h;
  }

  // ----- one bit -----

  lemma {:induction false} NrziOnes(n: nat, l: bool)
    ensures |Nrzi(Ones(n), l)| == n && LineAfter(Ones(n), l) == l
    ensures forall i | 0 <= i < n :: Nrzi(Ones(n), l)[i] == l
    decreases n
  {
    if n > 0 {
      assert Ones(n)[1..] == Ones(n - 1);
      NrziOnes(n - 1, l);
    }
  }

  lemma NrziSnoc(bits: seq<bool>, b: bool, l: bool)
    ensures var r := if b then LineAfter(bits, l) else !LineAfter(bits, l);
            Nrzi(bits + [b], l) == Nrzi(bits, l) + [r] && LineAfter(bits + [b], l) == r
  {
    NrziConcat(bits, [b], l);
    var m := LineAfter(bits, l);
    assert [b][1..] == [];
    assert Nrzi([], if b then m else !m) == [];
  }

  lemma {:induction false} NrziLength(a: seq<bool>, line: bool)
    ensures |Nrzi(a, line)| == |a|
    decreases |a|
  {
    if a != [] {
      NrziLength(a[1..], if a[0] then line else !line);
    }
  }

  lemma KeptSnoc(raw: seq<bool>, r: bool)
    ensures Kept(raw + [r]) == Appended(Kept(raw), r)
  {
    if |raw| >= MAX_NUM_BITS {
      assert (raw + [r])[..MAX_NUM_BITS] == raw[..MAX_NUM_BITS];
    }
  }

  lemma RefillsMore(d: Dec, c: seq<bool>, b: bool, d': Dec)
    requires Refills(d, c)
    requires var r := if b then d.prevRaw else !d.prevRaw; d'.prevRaw == r && d'.raw == Appended(d.raw, r)
    ensures Refills(d', c + [b])
  {
    hide Ones, Nrzi, LineAfter, Kept;
    NrziSnoc(Reopened(c), b, d.raw[0]);
    KeptSnoc(Nrzi(Reopened(c), d.raw[0]), d'.prevRaw);
    assert Reopened(c) + [b] == Reopened(c + [b]);
  }

  // The zero after fourteen ones.
  lemma RefillStarts(d: Dec, d': Dec)
    requires OnesHeld(d, 14) && d'.prevRaw == !d.prevRaw && d'.raw == Appended(d.raw, !d.prevRaw)
    ensures Refills(d', [])
  {
    hide Ones, Nrzi, LineAfter;
    var l := d.prevRaw;
    NrziOnes(7, l);
    NrziSnoc(Ones(7), false, l);
    assert d.raw == Nrzi(Ones(7), l);
    assert Reopened([]) == Ones(7) + [false];
    NrziLength(Reopened([]), l);
  }

  lemma HeldMore(d: Dec, t: nat, d': Dec)
    requires OnesHeld(d, t) && d'.prevRaw == d.prevRaw
    requires d'.raw == if t == 6 then [] else Appended(d.raw, d.prevRaw)
    ensures OnesHeld(d', t + 1)
  {
  }

  lemma OneFollows(d: Dec, h: seq<bool>)
    requires Follows(d, h)
    ensures Follows(Took(d, true).d, h + [true]) && Took(d, true).out == None
    ensures Closes(h + [true]) == None && Recloses(h + [true]) == None
  {
    hide Took, PatRun, Tracks, Refills, OnesHeld, Clocked, RawTracks, Gathered, SinceTracks;
    var t, f := TrailingOnes(h), Took(d, true);
    Snoc(h, true);
    RebornSnoc(h, true);
    SinceSnoc(h, true);
    if Reborn(h).None? {
      TracksPat(d, h);
    }
    OneStep(d, t);
    ClockedRaw(d, d.prevRaw);
    HeldMore(d, t, f.d);
    if Reborn(h).None? {
      OneTracks(d, h);
    } else {
      RebornPlain(h);
      GatheredStopped(OctetsOf(d), true);
      if t == 6 {
        ClosedTracks(f.d, h + [true]) by { StillClosed(h, true); }
      } else {
        RefillsMore(d, Reborn(h).value, true, f.d);
      }
    }
  }

  lemma TracksPat(d: Dec, h: seq<bool>)
    requires Tracks(d, h)
    ensures PatRun(d.pat, TrailingOnes(h))
  {
  }

  lemma ClockedRaw(d: Dec, r: bool)
    ensures Clocked(d, r).raw == Appended(d.raw, r) && Clocked(d, r).prevRaw == r
  {
  }

  lemma StillClosed(h: seq<bool>, b: bool)
    requires Reborn(h).Some? && (b || TrailingOnes(h) != 6)
    ensures Since(h + [b]).Some? ==> HasSeven(Since(h + [b]).value)
  {
    SinceSnoc(h, b);
    if Since(h).Some? {
      RebornClosed(h);
      Snoc(Since(h).value, b);
    }
  }

  // After an abort nothing is open and the buffer is empty.
  lemma ClosedTracks(d: Dec, h: seq<bool>)
    requires PatRun(d.pat, TrailingOnes(h)) && TrailingOnes(h) == 7 && d.olen < 0 && d.raw == []
    requires Since(h).Some? ==> HasSeven(Since(h).value)
    ensures Tracks(d, h)
  {
    hide PatRun;
    AbortTracks(d);
  }

  lemma ZeroFollows(d: Dec, h: seq<bool>)
    requires Follows(d, h) && TrailingOnes(h) != 6
    ensures Follows(Took(d, false).d, h + [false]) && Took(d, false).out == None
    ensures Closes(h + [false]) == None && Recloses(h + [false]) == None
  {
    hide Took, PatRun, Tracks, Refills, OnesHeld, Clocked, RawTracks, Gathered, SinceTracks;
    var t, f := TrailingOnes(h), Took(d, false);
    Snoc(h, false);
    RebornSnoc(h, false);
    SinceSnoc(h, false);
    HeldZero(f.d);
    if Reborn(h).None? {
      TracksPat(d, h);
      ZeroStep(d, t);
      ClockedRaw(d, !d.prevRaw);
      if t == 14 {
        FourteenClosed(d, h);
        GatheredStopped(OctetsOf(d), false);
        RefillStarts(d, f.d);
      } else {
        ZeroTracks(d, h);
      }
    } else {
      RebornPlain(h);
      ZeroStep(d, t);
      ClockedRaw(d, !d.prevRaw);
      GatheredStopped(OctetsOf(d), false);
      RefillsMore(d, Reborn(h).value, false, f.d);
    }
  }

  lemma HeldZero(d: Dec)
    ensures OnesHeld(d, 0)
  {
  }

  lemma FourteenClosed(d: Dec, h: seq<bool>)
    requires Tracks(d, h) && TrailingOnes(h) == 14
    ensures d.olen < 0
  {
    hide PatRun, RawTracks, Gathers;
    if Since(h).Some? {
      SinceRun(h);
      SevenStays(Since(h).value);
    }
  }

  // ----- a flag -----

  lemma NrziFront(a: seq<bool>, b: seq<bool>, line: bool)
    ensures |Nrzi(a + b, line)| == |a| + |b| && Nrzi(a + b, line)[..|a|] == Nrzi(a, line)
  {
    NrziConcat(a, b, line);
    NrziLength(a, line);
    NrziLength(b, LineAfter(a, line));
  }

  // The buffer at a flag, less its last eight bits.
  lemma ChoppedIs(d: Dec, c: seq<bool>, r: bool)
    requires Refills(d, c) && |c| >= 7
    ensures Chopped(Appended(d.raw, r)) == Nrzi(Reopened(Refilled(c)), d.raw[0])
  {
    hide Ones, Nrzi, LineAfter;
    var l, n := d.raw[0], |Refilled(c)|;
    assert |Ones(7)| == 7 by { OnesSnoc(7); }
    assert Reopened(c) == Reopened(Refilled(c)) + c[n..];
    NrziFront(Reopened(Refilled(c)), c[n..], l);
    var all := Nrzi(Reopened(c), l);
    assert Chopped(Appended(Kept(all), r)) == all[..8 + n];
  }

  lemma ReopenedYields(c: seq<bool>, l: bool)
    requires Plain(c)
    ensures var u := Unstuffed(c);
            DecodedFromRaw(Nrzi(Reopened(c), l)) == Checked(|u| % 8, Capped(WholeOctets(u)))
    ensures |Nrzi(Reopened(c), l)| == 8 + |c|
  {
    hide Rescan, Scan, Unstuffed, Plain, WholeOctets, Checks;
    var rest, u := Ones(6) + ([false] + c), Unstuffed(c);
    assert Ones(7) == [true] + Ones(6);
    assert Reopened(c) == [true] + rest && ([true] + rest)[1..] == rest;
    assert |Ones(6)| == 6 by { OnesSnoc(6); }
    var raw := Nrzi(Reopened(c), l);
    assert raw[0] == l && raw[1..] == Nrzi(rest, l);
    NrziLength(Reopened(c), l);
    RescanScans(rest, l, 0, Octets(0, -1, []));
    BufferYields(c);
    UnstuffedShorter(c);
    if |raw| < 136 {
      ShortFrame(u);
    }
  }

  lemma {:induction false} PlainPrefix(c: seq<bool>, n: nat)
    requires Plain(c) && n <= |c|
    ensures Plain(c[..n])
    decreases |c|
  {
    if n < |c| {
      PlainPrefix(Front(c), n);
      assert Front(c)[..n] == c[..n];
    } else {
      assert c[..n] == c;
    }
  }

  lemma RefillsSome(d: Dec, c: seq<bool>)
    requires Refills(d, c)
    ensures d.raw != []
  {
  }

  lemma RefillsOut(d: Dec, c: seq<bool>)
    requires Refills(d, c) && d.olen < 0 && |c| >= 7 && Plain(Front(c))
    ensures AtFlag(Clocked(d, !d.prevRaw)).out == FoundAgain(c)
  {
    hide Rescan, Unstuffed, WholeOctets, Checks, Nrzi, Reopened, Plain, Refills, ShiftIn, ShiftIn32;
    RefillsSome(d, c);
    ChoppedIs(d, c, !d.prevRaw);
    var e, r := Clocked(d, !d.prevRaw), Refilled(c);
    PlainPrefix(Front(c), |r|);
    assert Front(c)[..|r|] == r;
    ReopenedYields(r, d.raw[0]);
    UnstuffedShorter(r);
    if |r| < 128 {
      ShortFrame(Unstuffed(r));
    }
  }

  lemma TooShort(d: Dec, c: seq<bool>)
    requires Refills(d, c) && |c| < 7
    ensures AtFlag(Clocked(d, !d.prevRaw)).out == None && FoundAgain(c) == None
  {
    hide Nrzi, LineAfter, Ones, ShiftIn, ShiftIn32;
    assert |Ones(7)| == 7 by { OnesSnoc(7); }
    NrziLength(Reopened(c), d.raw[0]);
    assert Unstuffed([]) == [] && WholeOctets([]) == [];
  }

  lemma FlagResets(d: Dec)
    requires PatRun(d.pat, 6)
    ensures var f := Took(d, false).d;
            f.pat == 0x7e && f.olen == 0 && f.frame == [] && f.raw == [f.prevRaw]
    ensures Took(d, false).out == AtFlag(Clocked(d, !d.prevRaw)).out
  {
    hide TriedDecode, ShiftIn32;
    SixRun(d.pat);
    FlagEnds(d);
  }

  lemma FlagRecloses(h: seq<bool>)
    requires TrailingOnes(h) == 6
    ensures Recloses(h + [false]) == if Reborn(h).Some? then FoundAgain(Reborn(h).value) else None
    ensures Reborn(h + [false]) == None && TrailingOnes(h + [false]) == 0 && Since(h + [false]) == Some([])
  {
    hide FoundAgain;
    Snoc(h, false);
    RebornSnoc(h, false);
    assert Front(h + [false]) == h;
  }

  // The flag after a refilled buffer.
  lemma RebornFlag(d: Dec, h: seq<bool>)
    requires Follows(d, h) && TrailingOnes(h) == 6 && Reborn(h).Some?
    ensures Follows(Took(d, false).d, h + [false]) && Took(d, false).out == FoundAgain(Reborn(h).value)
  {
    hide Took, PatRun, Refills, OnesHeld, Clocked, RawTracks, Gathers, AtFlag, FoundAgain, Plain, TrailingOnes, Reborn, Since;
    var f, c := Took(d, false), Reborn(h).value;
    FlagRecloses(h);
    RebornPlain(h);
    FlagResets(d);
    FreshTracks(f.d);
    HeldZero(f.d);
    if |c| < 7 {
      TooShort(d, c);
    } else {
      RefillsOut(d, c);
    }
  }

  lemma FlagFollows(d: Dec, h: seq<bool>)
    requires Follows(d, h) && TrailingOnes(h) == 6
    ensures Follows(Took(d, false).d, h + [false])
    ensures Listed(Took(d, false).out) == Listed(Closes(h + [false])) + Listed(Recloses(h + [false]))
  {
    hide Took, Tracks, Refills, OnesHeld, FoundAgain, TrailingOnes, Reborn, Closes, Recloses;
    var f := Took(d, false);
    FlagRecloses(h);
    if Reborn(h).None? {
      FlagTracks(d, h);
      HeldZero(f.d);
      assert Listed(f.out) + [] == Listed(f.out);
    } else {
      RebornFlag(d, h);
      NothingCloses(h);
      assert [] + Listed(f.out) == Listed(f.out);
    }
  }

  lemma NothingCloses(h: seq<bool>)
    requires Reborn(h).Some? && TrailingOnes(h) == 6
    ensures Closes(h + [false]) == None
  {
    hide FrameOf;
    assert Front(h + [false]) == h;
    if Since(h).Some? {
      RebornClosed(h);
      var c := Since(h).value;
      SinceRun(h);
      SevenBefore(c);
      SevenNoFrame(Content(c));
    }
  }

  lemma SevenBefore(c: seq<bool>)
    requires TrailingOnes(c) == 6 && HasSeven(c)
    ensures HasSeven(Content(c))
  {
    ClosingBits(c);
  }

  // ----- every stream -----

  lemma FreshFollows(prev: bool)
    ensures Follows(Fresh(prev), []) && Reborn([]) == None
  {
    FreshStarts(prev);
  }

  lemma {:induction false} YieldedFollows(prev: bool, h: seq<bool>)
    ensures Follows(TookAll(Fresh(prev), h).d, h) && TookAll(Fresh(prev), h).frames == Yielded(h)
    decreases |h|
  {
    hide Follows, Took, TookAll, TrailingOnes, Closes, Recloses, Fresh, Yielded;
    if h == [] {
      FreshFollows(prev);
      TookNone(Fresh(prev));
      NothingYielded();
    } else {
      var g, b := Front(h), Last(h);
      assert h == g + [b];
      YieldedFollows(prev, g);
      var t := TookAll(Fresh(prev), g);
      TookSnoc(Fresh(prev), g, b);
      YieldedSnoc(g, b);
      if b {
        OneFollows(t.d, g);
      } else if TrailingOnes(g) == 6 {
        FlagFollows(t.d, g);
      } else {
        ZeroFollows(t.d, g);
      }
      var x, y := Listed(Closes(h)), Listed(Recloses(h));
      assert t.frames + (x + y) == t.frames + x + y;
    }
  }

  lemma NothingYielded()
    ensures Yielded([]) == []
  {
  }

  // From any stream of line bits a new receiver yields exactly these frames.
  lemma ReceiverIsExact(prev: bool, line: seq<bool>)
    ensures FedAll(Fresh(prev), line).frames == Yielded(Decoded(line, prev))
  {
    DecodedTaken(Fresh(prev), line);
    YieldedFollows(prev, Decoded(line, prev));
  }

  predicate Refound(h: seq<bool>, n: nat) {
    n <= |h| && Recloses(h[..n]).Some?
  }

  lemma {:induction false} YieldedIff(h: seq<bool>)
    ensures |Yielded(h)| >= |Batch(h)|
    ensures Yielded(h) == Batch(h) <==> forall n: nat :: !Refound(h, n)
    ensures Yielded(h) != Batch(h) ==> |Yielded(h)| > |Batch(h)|
    decreases |h|
  {
    hide Closes, Recloses;
    if h == [] {
      assert Recloses([]) == None by { NothingRefound(); }
      assert forall n: nat | n <= |h| :: h[..n] == [];
    } else {
      var g := Front(h);
      YieldedIff(g);
      assert forall n: nat | n <= |g| :: g[..n] == h[..n];
      assert h[..|h|] == h;
      assert Refound(h, |h|) <==> Recloses(h).Some?;
      assert forall n: nat :: Refound(h, n) <==> Refound(g, n) || (n == |h| && Recloses(h).Some?);
    }
  }

  lemma NothingRefound()
    ensures Recloses([]) == None
  {
  }

  // It is the batch specification's exactly when no flag makes a frame of what followed a
  // run of fourteen ones.
  lemma ReceiverIsBatchIff(prev: bool, line: seq<bool>)
    ensures FedAll(Fresh(prev), line).frames == Batch(Decoded(line, prev))
            <==> forall n: nat :: !Refound(Decoded(line, prev), n)
  {
    ReceiverIsExact(prev, line);
    YieldedIff(Decoded(line, prev));
  }

  // ----- a frame found again -----

  lemma OneQuiet(h: seq<bool>)
    ensures TrailingOnes(h + [true]) == TrailingOnes(h) + 1 && Yielded(h + [true]) == Yielded(h)
    ensures Batch(h + [true]) == Batch(h)
    ensures Reborn(h + [true]) == if TrailingOnes(h) == 6 || Reborn(h).None? then None else Some(Reborn(h).value + [true])
  {
    hide Yielded, Batch;
    Snoc(h, true);
    SinceSnoc(h, true);
    RebornSnoc(h, true);
    YieldedSnoc(h, true);
    BatchSnoc(h, true);
    assert Yielded(h) + [] + [] == Yielded(h) && Batch(h) + [] == Batch(h);
  }

  lemma BatchSnoc(h: seq<bool>, b: bool)
    ensures Batch(h + [b]) == Batch(h) + Listed(Closes(h + [b]))
  {
    hide Closes;
    assert Front(h + [b]) == h;
  }

  lemma ZeroQuiet(h: seq<bool>)
    requires TrailingOnes(h) != 6
    ensures TrailingOnes(h + [false]) == 0 && Yielded(h + [false]) == Yielded(h) && Batch(h + [false]) == Batch(h)
    ensures Reborn(h + [false]) ==
            if TrailingOnes(h) == 14 then Some([]) else if Reborn(h).None? then None else Some(Reborn(h).value + [false])
  {
    hide Yielded, Batch;
    Snoc(h, false);
    SinceSnoc(h, false);
    RebornSnoc(h, false);
    YieldedSnoc(h, false);
    BatchSnoc(h, false);
    assert Yielded(h) + [] + [] == Yielded(h) && Batch(h) + [] == Batch(h);
  }

  lemma {:induction false} OnesQuiet(n: nat)
    ensures TrailingOnes(Ones(n)) == n && Yielded(Ones(n)) == [] && Batch(Ones(n)) == [] && Reborn(Ones(n)) == None
    decreases n
  {
    hide TrailingOnes, Yielded, Batch, Reborn;
    if n == 0 {
      NothingAtAll();
    } else {
      OnesQuiet(n - 1);
      OneQuiet(Ones(n - 1));
      OnesSnoc(n - 1);
    }
  }

  lemma NothingAtAll()
    ensures TrailingOnes([]) == 0 && Yielded([]) == [] && Batch([]) == [] && Reborn([]) == None
  {
  }

  // Fourteen ones and a zero, and then plain bits: nothing is yielded.
  lemma {:induction false} PlainQuiet(h: seq<bool>, c: seq<bool>)
    requires TrailingOnes(h) == 0 && Reborn(h) == Some([]) && Plain(c)
    ensures TrailingOnes(h + c) == TrailingOnes(c) <= 5 && Yielded(h + c) == Yielded(h) && Batch(h + c) == Batch(h)
    ensures Reborn(h + c) == Some(c)
    decreases |c|
  {
    hide Yielded, Batch, Reborn, TrailingOnes, Plain;
    if c == [] {
      assert h + [] == h;
      assert TrailingOnes([]) == 0 by { NothingAtAll(); }
    } else {
      var f, b := Front(c), Last(c);
      PlainFront(c);
      PlainQuiet(h, f);
      assert c == f + [b] && h + c == h + f + [b];
      Snoc(f, b);
      if b {
        OneQuiet(h + f);
      } else {
        ZeroQuiet(h + f);
      }
    }
  }

  function Zeros(n: nat): seq<bool>
    decreases n
  {
    if n == 0 then [] else Zeros(n - 1) + [false]
  }

  lemma {:induction false} ZerosPlain(h: seq<bool>, n: nat)
    requires Plain(h) && TrailingOnes(h) <= 4
    ensures Plain(h + Zeros(n)) && TrailingOnes(h + Zeros(n)) <= 4 && |Zeros(n)| == n
    ensures Unstuffed(h + Zeros(n)) == Unstuffed(h) + Zeros(n)
    decreases n
  {
    hide Plain, TrailingOnes, Unstuffed;
    if n == 0 {
      assert h + [] == h && Unstuffed(h) + [] == Unstuffed(h);
    } else {
      ZerosPlain(h, n - 1);
      assert h + Zeros(n - 1) + [false] == h + Zeros(n);
      PlainSnoc(h + Zeros(n - 1), false);
      Snoc(h + Zeros(n - 1), false);
      assert Unstuffed(h) + Zeros(n - 1) + [false] == Unstuffed(h) + Zeros(n);
    }
  }

  // Fourteen ones, a zero, a frame's stuffed bits, seven zeros, a flag.
  function Filling(data: seq<bv8>): seq<bool> {
    Stuffed(BitsOf(Body(data)), 0) + Zeros(7)
  }

  function FourteenOnes(data: seq<bv8>): seq<bool> {
    Ones(14) + [false] + Filling(data) + FLAG
  }

  lemma FillingIs(data: seq<bv8>)
    requires Sendable(data)
    ensures Plain(Filling(data)) && TrailingOnes(Filling(data)) <= 4
    ensures var u := Unstuffed(Filling(data)); Checked(|u| % 8, Capped(WholeOctets(u))) == Some(data)
  {
    hide TrailingOnes, Unstuffed, Plain, BitsOf, Body, Stuffed, WholeOctets, Checks;
    var bits := BitsOf(Body(data));
    StuffedIs(bits);
    ZerosPlain(Stuffed(bits, 0), 7);
    FilledChecks(data);
  }

  lemma StuffedIs(bits: seq<bool>)
    ensures var s := Stuffed(bits, 0); Plain(s) && TrailingOnes(s) <= 4 && Unstuffed(s) == bits
  {
    hide TrailingOnes, Unstuffed, Plain, Stuffed;
    NothingYet();
    assert Plain([]) by { NothingPlain(); }
    StuffedIn([], bits);
    StuffedPlain([], bits);
    assert [] + Stuffed(bits, 0) == Stuffed(bits, 0) && [] + bits == bits;
  }

  // A body and seven more bits.
  lemma FilledChecks(data: seq<bv8>)
    requires Sendable(data)
    ensures var u := BitsOf(Body(data)) + Zeros(7); Checked(|u| % 8, Capped(WholeOctets(u))) == Some(data)
  {
    hide BitsOf, Body, WholeOctets, Checks;
    var bits := BitsOf(Body(data));
    BodyLength(data);
    BitsLength(Body(data));
    assert |Zeros(7)| == 7 by { assert Plain([]); ZerosPlain([], 7); }
    WholeOctetsExtra(bits, Zeros(7));
    OctetsBack(Body(data));
    BodyChecks(data);
  }

  lemma BitsLength(data: seq<bv8>)
    ensures |BitsOf(data)| == 8 * |data|
  {
  }

  lemma {:induction false} StuffedShorter(bits: seq<bool>, run: int)
    ensures |Stuffed(bits, run)| <= 2 * |bits|
    decreases |bits|
  {
    if bits != [] {
      StuffedShorter(bits[1..], if !bits[0] || run + 1 == 5 then 0 else run + 1);
    }
  }

  lemma FillingShort(data: seq<bv8>)
    requires |data| <= 1000
    ensures |Filling(data)| <= REFILL
  {
    hide BitsOf, Body;
    BodyLength(data);
    BitsLength(Body(data));
    StuffedShorter(BitsOf(Body(data)), 0);
    assert |Zeros(7)| == 7 by { assert Plain([]); ZerosPlain([], 7); }
  }

  // Before the closing flag's zero.
  lemma BeforeFlag(data: seq<bv8>)
    requires Sendable(data)
    ensures var h := Ones(14) + [false] + Filling(data) + [false] + Ones(6);
            && TrailingOnes(h) == 6 && Yielded(h) == [] && Batch(h) == []
            && Reborn(h) == Some(Filling(data) + [false] + Ones(6))
  {
    hide TrailingOnes, Yielded, Batch, Reborn, Plain, Filling, Unstuffed, Checked, Ones;
    var g, c := Ones(14) + [false], Filling(data);
    OnesQuiet(14);
    ZeroQuiet(Ones(14));
    FillingIs(data);
    PlainSnoc(c, false);
    OnesPlain(c + [false], 5);
    PlainQuiet(g, c + [false] + Ones(5));
    OneQuiet(g + (c + [false] + Ones(5)));
    OnesSnoc(5);
    assert g + (c + [false] + Ones(5)) + [true] == g + c + [false] + Ones(6);
    assert c + [false] + Ones(5) + [true] == c + [false] + Ones(6);
  }

  lemma {:induction false} OnesPlain(h: seq<bool>, n: nat)
    requires Plain(h) && TrailingOnes(h) == 0 && n <= 5
    ensures Plain(h + Ones(n)) && TrailingOnes(h + Ones(n)) == n
    decreases n
  {
    hide Plain, TrailingOnes;
    if n == 0 {
      assert h + [] == h;
    } else {
      OnesPlain(h, n - 1);
      PlainSnoc(h + Ones(n - 1), true);
      OnesSnoc(n - 1);
      assert h + Ones(n - 1) + [true] == h + Ones(n);
    }
  }

  // A stream the batch specification finds no frame in, and a new receiver does.
  lemma FourteenAddsFrame(prev: bool, data: seq<bv8>)
    requires Sendable(data) && |data| <= 1000
    ensures FedAll(Fresh(prev), Nrzi(FourteenOnes(data), prev)).frames == [data]
    ensures Batch(FourteenOnes(data)) == []
  {
    hide FedAll, TookAll, Yielded, Batch, Filling, Reborn, TrailingOnes, Checked, Unstuffed, WholeOctets, FrameOf, Plain, Ones;
    var h, c := Ones(14) + [false] + Filling(data) + [false] + Ones(6), Filling(data);
    BeforeFlag(data);
    FillingIs(data);
    FillingShort(data);
    assert |Ones(6)| == 6 by { OnesSnoc(6); }
    assert (c + [false] + Ones(6))[..|c|] == c;
    FlagParts();
    assert FourteenOnes(data) == h + [false];
    YieldedSnoc(h, false);
    BatchSnoc(h, false);
    NothingCloses(h);
    Snoc(h, false);
    assert Recloses(h + [false]) == Some(data);
    FreshPrev(prev);
    LineCarries(Fresh(prev), FourteenOnes(data));
    YieldedFollows(prev, FourteenOnes(data));
  }
}
