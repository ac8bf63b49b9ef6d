// What the streaming receiver yields, said without registers: cut the decoded bits at
// flags, drop the stuffed zeros, and take what is whole octets with a good check.

module HdlcBatch {
  import opened Common
  import opened Fcs
  import opened HdlcSpec
  import opened HdlcSync

  // ----- the specification -----

  function Last(h: seq<bool>): bool
    requires h != []
  {
    h[|h| - 1]
  }

  function Front(h: seq<bool>): (r: seq<bool>)
    requires h != []
    ensures |r| == |h| - 1
  {
    h[..|h| - 1]
  }

  function TrailingOnes(h: seq<bool>): nat
    decreases |h|
  {
    if h == [] || !Last(h) then 0 else TrailingOnes(Front(h)) + 1
  }

  // A zero after exactly six ones.
  predicate EndsInFlag(h: seq<bool>) {
    h != [] && !Last(h) && TrailingOnes(Front(h)) == 6
  }

  // The bits since the last flag, if there was one.
  function Since(h: seq<bool>): Option<seq<bool>>
    decreases |h|
  {
    if h == [] then None
    else if EndsInFlag(h) then Some([])
    else if Since(Front(h)).Some? then Some(Since(Front(h)).value + [Last(h)])
    else None
  }

  // Without the zeros that follow exactly five ones.
  function Unstuffed(c: seq<bool>): seq<bool>
    decreases |c|
  {
    if c == [] then []
    else if !Last(c) && TrailingOnes(Front(c)) == 5 then Unstuffed(Front(c))
    else Unstuffed(Front(c)) + [Last(c)]
  }

  predicate HasSeven(c: seq<bool>)
    decreases |c|
  {
    c != [] && (TrailingOnes(c) >= 7 || HasSeven(Front(c)))
  }

  // The whole octets in a run of bits, lowest bit first.
  function WholeOctets(u: seq<bool>): seq<bv8>
    decreases |u|
  {
    if |u| < 8 then [] else [OctetOf(u[..8])] + WholeOctets(u[8..])
  }

  function Capped(o: seq<bv8>): seq<bv8> {
    if |o| <= MAX_FRAME_LEN then o else o[..MAX_FRAME_LEN]
  }

  // The bits between two flags as a frame. After five ones the closing flag's own zero
  // is taken for stuffing, which leaves one bit fewer to make up whole octets.
  function FrameOf(c: seq<bool>): Option<seq<bv8>> {
    if HasSeven(c) || |Unstuffed(c)| % 8 != (if TrailingOnes(c) == 5 then 1 else 0) then None
    else Checked(7, Capped(WholeOctets(Unstuffed(c))))
  }

  // What the bits since the last flag hold before the first seven bits of the next.
  function Content(c: seq<bool>): seq<bool> {
    if |c| < 7 then [] else c[..|c| - 7]
  }

  // A flag closes what came since the flag before it.
  function Closes(h: seq<bool>): Option<seq<bv8>> {
    if EndsInFlag(h) && Since(Front(h)).Some? then FrameOf(Content(Since(Front(h)).value)) else None
  }

  function Batch(h: seq<bool>): seq<seq<bv8>>
    decreases |h|
  {
    if h == [] then [] else Batch(Front(h)) + (if Closes(h).Some? then [Closes(h).value] else [])
  }

  // ----- runs of ones and the pattern register -----

  // The pattern register after a run of exactly t ones.
  predicate PatRun(pat: bv8, t: nat) {
    if t <= 6 then RunIs(pat, t) else if t == 7 then pat == 0xfe else pat == 0xff
  }

  lemma PatOne(pat: bv8, t: nat)
    requires PatRun(pat, t)
    ensures var p := ShiftIn(pat, true);
            PatRun(p, t + 1) && p != 0x7e && !IsStuffing(p) && (p == 0xfe <==> t == 6)
  {
  }

  lemma PatZero(pat: bv8, t: nat)
    requires PatRun(pat, t)
    ensures var p := ShiftIn(pat, false);
            && PatRun(p, 0) && p != 0xfe && (p == 0x7e <==> t == 6)
            && (p != 0x7e ==> (IsStuffing(p) <==> t == 5 || t >= 7))
  {
  }

  lemma PatZeroStart()
    ensures PatRun(0, 0)
  {
  }

  // ----- whole octets -----

  lemma {:induction false} FewGathered(o: Octets, u: seq<bool>)
    requires 0 <= o.olen && o.olen + |u| < 8
    ensures GatheredAll(o, u).olen == o.olen + |u| && GatheredAll(o, u).frame == o.frame
    decreases |u|
  {
    hide ShiftIn;
    if u != [] {
      FewGathered(Gathered(o, u[0]), u[1..]);
    }
  }

  // Gathering bits makes whole octets of them, up to a full buffer.
  lemma {:induction false} GatheredOctets(o: Octets, u: seq<bool>)
    requires o.olen == 0 && |o.frame| <= MAX_FRAME_LEN
    ensures var g := GatheredAll(o, u); g.olen == |u| % 8 && g.frame == Capped(o.frame + WholeOctets(u))
    decreases |u|
  {
    hide Gathered, OctetOf, GatheredAll;
    if |u| < 8 {
      FewGathered(o, u);
      assert o.frame + [] == o.frame;
    } else {
      EightGathered(o, u[..8]);
      assert u == u[..8] + u[8..];
      GatheredConcat(o, u[..8], u[8..]);
      var o' := GatheredAll(o, u[..8]);
      GatheredOctets(o', u[8..]);
      var x, rest := OctetOf(u[..8]), WholeOctets(u[8..]);
      assert o.frame + ([x] + rest) == (o.frame + [x]) + rest;
      if |o.frame| == MAX_FRAME_LEN {
        assert Capped(o.frame + rest) == o.frame == Capped(o.frame + ([x] + rest));
      }
    }
  }

  lemma {:induction false} WholeOctetsExtra(u: seq<bool>, extra: seq<bool>)
    requires |u| % 8 + |extra| < 8
    ensures WholeOctets(u + extra) == WholeOctets(u)
    decreases |u|
  {
    if |u| >= 8 {
      WholeOctetsExtra(u[8..], extra);
      assert (u + extra)[..8] == u[..8] && (u + extra)[8..] == u[8..] + extra;
    }
  }

  lemma {:induction false} WholeOctetsCount(u: seq<bool>)
    ensures |WholeOctets(u)| == |u| / 8
    decreases |u|
  {
    if |u| >= 8 {
      WholeOctetsCount(u[8..]);
    }
  }

  // ----- the raw buffer -----

  // Scanning those line bits anew, from that line state and pattern, meets no flag.
  predicate Flagless(raw: seq<bool>, prev: bool, pat: bv8)
    decreases |raw|
  {
    raw != [] ==> ShiftIn(pat, raw[0] == prev) != 0x7e && Flagless(raw[1..], raw[0], ShiftIn(pat, raw[0] == prev))
  }

  function PatAfter(raw: seq<bool>, prev: bool, pat: bv8): bv8
    decreases |raw|
  {
    if raw == [] then pat else PatAfter(raw[1..], raw[0], ShiftIn(pat, raw[0] == prev))
  }

  lemma {:induction false} RescanNone(raw: seq<bool>, prev: bool, pat: bv8, o: Octets)
    requires Flagless(raw, prev, pat) && o.olen < 0
    ensures Rescan(raw, prev, pat, o) == None
    decreases |raw|
  {
    hide ShiftIn, IsStuffing;
    if raw != [] {
      var p := ShiftIn(pat, raw[0] == prev);
      RescanNone(raw[1..], raw[0], p, Octets(o.oacc, -1, []));
      RescanNone(raw[1..], raw[0], p, o);
    }
  }

  function LastOr(raw: seq<bool>, prev: bool): bool {
    if raw == [] then prev else raw[|raw| - 1]
  }

  lemma {:induction false} PatAfterSnoc(raw: seq<bool>, prev: bool, pat: bv8, r: bool)
    ensures PatAfter(raw + [r], prev, pat) == ShiftIn(PatAfter(raw, prev, pat), r == LastOr(raw, prev))
    decreases |raw|
  {
    hide ShiftIn;
    if raw == [] {
      assert [] + [r] == [r] && [r][1..] == [];
      assert PatAfter([], r, ShiftIn(pat, r == prev)) == ShiftIn(pat, r == prev);
    } else {
      assert (raw + [r])[1..] == raw[1..] + [r];
      PatAfterSnoc(raw[1..], raw[0], ShiftIn(pat, raw[0] == prev), r);
    }
  }

  lemma {:induction false} FlaglessSnoc(raw: seq<bool>, prev: bool, pat: bv8, r: bool)
    requires Flagless(raw, prev, pat) && ShiftIn(PatAfter(raw, prev, pat), r == LastOr(raw, prev)) != 0x7e
    ensures Flagless(raw + [r], prev, pat)
    decreases |raw|
  {
    hide ShiftIn;
    if raw == [] {
      assert [] + [r] == [r] && [r][1..] == [];
      assert Flagless([], r, ShiftIn(pat, r == prev));
    } else {
      assert (raw + [r])[1..] == raw[1..] + [r];
      FlaglessSnoc(raw[1..], raw[0], ShiftIn(pat, raw[0] == prev), r);
    }
  }

  lemma {:induction false} FlaglessPrefix(raw: seq<bool>, prev: bool, pat: bv8, n: nat)
    requires Flagless(raw, prev, pat) && n <= |raw|
    ensures Flagless(raw[..n], prev, pat)
    decreases |raw|
  {
    hide ShiftIn;
    if n > 0 {
      FlaglessPrefix(raw[1..], raw[0], ShiftIn(pat, raw[0] == prev), n - 1);
      assert raw[..n][1..] == raw[1..][..n - 1];
    }
  }

  predicate NoFlagStored(raw: seq<bool>) {
    raw != [] ==> Flagless(raw[1..], raw[0], 0)
  }

  lemma NoFlagNoRescan(raw: seq<bool>)
    requires NoFlagStored(raw)
    ensures DecodedFromRaw(raw) == None
  {
    if raw != [] {
      RescanNone(raw[1..], raw[0], 0, Octets(0, -1, []));
    }
  }

  // How the stored bits hang together with the run of ones just decoded: the buffer is
  // empty right after an abort and then holds what came since.
  predicate RawTracks(d: Dec, t: nat) {
    && NoFlagStored(d.raw) && |d.raw| <= MAX_NUM_BITS
    && (t == 7 ==> d.raw == []) && (d.raw == [] ==> t <= 7)
    && (d.raw != [] ==> d.raw[|d.raw| - 1] == d.prevRaw || |d.raw| == MAX_NUM_BITS)
    && (d.raw != [] && |d.raw| < MAX_NUM_BITS ==>
          && (t >= 8 ==> |d.raw| == t - 7)
          && PatRun(PatAfter(d.raw[1..], d.raw[0], 0), if t < |d.raw| then t else |d.raw| - 1))
  }

  // A bit that is stored and changes nothing else about the buffer.
  lemma StoredTracks(d: Dec, t: nat, b: bool)
    requires RawTracks(d, t) && t != 6 && (!b ==> t != 14)
    ensures RawTracks(Clocked(d, if b then d.prevRaw else !d.prevRaw), if b then t + 1 else 0)
  {
    hide PatRun, ShiftIn, ShiftIn32, Flagless, PatAfter, IsStuffing;
    var r := if b then d.prevRaw else !d.prevRaw;
    PatZeroStart();
    if d.raw == [] {
      assert ([] + [r])[1..] == [];
      FlaglessNone(r);
    } else if |d.raw| < MAX_NUM_BITS {
      var t' := if t < |d.raw| then t else |d.raw| - 1;
      var pat := PatAfter(d.raw[1..], d.raw[0], 0);
      assert (d.raw + [r])[1..] == d.raw[1..] + [r];
      PatAfterSnoc(d.raw[1..], d.raw[0], 0, r);
      if b {
        PatOne(pat, t');
      } else {
        PatZero(pat, t');
      }
      FlaglessSnoc(d.raw[1..], d.raw[0], 0, r);
    }
  }

  lemma FlaglessNone(prev: bool)
    ensures Flagless([], prev, 0) && PatAfter([], prev, 0) == 0
  {
  }

  // ----- what has been gathered since the last flag -----

  ghost predicate Gathers(d: Dec, c: seq<bool>) {
    exists x: bv8 :: OctetsOf(d) == GatheredAll(Octets(x, 0, []), Unstuffed(c))
  }

  ghost predicate SinceTracks(d: Dec, h: seq<bool>) {
    match Since(h)
    case None => d.olen < 0
    case Some(c) =>
      if HasSeven(c) then d.olen < 0
      else Gathers(d, c) && |d.raw| == if 1 + |c| < MAX_NUM_BITS then 1 + |c| else MAX_NUM_BITS
  }

  ghost predicate Tracks(d: Dec, h: seq<bool>) {
    PatRun(d.pat, TrailingOnes(h)) && RawTracks(d, TrailingOnes(h)) && SinceTracks(d, h)
  }

  // A run of ones never reaches back over a flag.
  lemma {:induction false} SinceRun(h: seq<bool>)
    requires Since(h).Some?
    ensures TrailingOnes(Since(h).value) == TrailingOnes(h)
    decreases |h|
  {
    if !EndsInFlag(h) {
      var c := Since(Front(h)).value;
      SinceRun(Front(h));
      assert Front(c + [Last(h)]) == c;
    }
  }

  lemma Snoc(h: seq<bool>, b: bool)
    ensures Front(h + [b]) == h && Last(h + [b]) == b
    ensures TrailingOnes(h + [b]) == if b then TrailingOnes(h) + 1 else 0
    ensures Unstuffed(h + [b]) == if !b && TrailingOnes(h) == 5 then Unstuffed(h) else Unstuffed(h) + [b]
    ensures HasSeven(h + [b]) <==> HasSeven(h) || (b && TrailingOnes(h) >= 6)
  {
    assert Front(h + [b]) == h;
    SevenStays(h);
  }

  lemma {:induction false} SevenStays(h: seq<bool>)
    ensures TrailingOnes(h) >= 7 ==> HasSeven(h)
  {
  }

  lemma GathersMore(d: Dec, c: seq<bool>, b: bool, d': Dec)
    requires Gathers(d, c) && OctetsOf(d') == Gathered(OctetsOf(d), b) && (b || TrailingOnes(c) != 5)
    ensures Gathers(d', c + [b])
  {
    hide Gathered, Unstuffed;
    var x: bv8 :| OctetsOf(d) == GatheredAll(Octets(x, 0, []), Unstuffed(c));
    Snoc(c, b);
    GatheredConcat(Octets(x, 0, []), Unstuffed(c), [b]);
    assert [b][1..] == [];
    var g := Gathered(OctetsOf(d), b);
    assert GatheredAll(g, []) == g;
    assert OctetsOf(d') == GatheredAll(Octets(x, 0, []), Unstuffed(c + [b]));
  }

  lemma GathersSame(d: Dec, c: seq<bool>, d': Dec)
    requires Gathers(d, c) && OctetsOf(d') == OctetsOf(d) && TrailingOnes(c) == 5
    ensures Gathers(d', c + [false])
  {
    Snoc(c, false);
    var x: bv8 :| OctetsOf(d) == GatheredAll(Octets(x, 0, []), Unstuffed(c));
    assert OctetsOf(d') == GatheredAll(Octets(x, 0, []), Unstuffed(c + [false]));
  }

  // ----- one decoded bit -----

  // Took, seen through the run of ones.
  lemma OneStep(d: Dec, t: nat)
    requires PatRun(d.pat, t)
    ensures var (f, c) := (Took(d, true), Clocked(d, d.prevRaw));
            && f.out == None && PatRun(f.d.pat, t + 1)
            && f.d.prevRaw == d.prevRaw
            && (t == 6 ==> f.d.olen < 0 && f.d.raw == [])
            && (t != 6 ==> OctetsOf(f.d) == Gathered(OctetsOf(d), true) && f.d.raw == c.raw)
  {
    hide ShiftIn, IsStuffing, PatRun, Gathered;
    PatOne(d.pat, t);
  }

  lemma ZeroStep(d: Dec, t: nat)
    requires PatRun(d.pat, t) && t != 6
    ensures var (f, c) := (Took(d, false), Clocked(d, !d.prevRaw));
            && f.out == None && PatRun(f.d.pat, 0) && f.d.prevRaw == !d.prevRaw && f.d.raw == c.raw
            && OctetsOf(f.d) == if t == 5 || t >= 7 then OctetsOf(d) else Gathered(OctetsOf(d), false)
  {
    hide ShiftIn, IsStuffing, PatRun, Gathered;
    PatZero(d.pat, t);
  }

  lemma GatheredStopped(o: Octets, b: bool)
    requires o.olen < 0
    ensures Gathered(o, b).olen < 0
  {
  }

  lemma RawCopy(d: Dec, e: Dec, t: nat)
    requires RawTracks(d, t) && e.raw == d.raw && e.prevRaw == d.prevRaw
    ensures RawTracks(e, t)
  {
  }

  lemma RawLength(d: Dec, r: bool)
    requires |d.raw| <= MAX_NUM_BITS
    ensures |Clocked(d, r).raw| == if |d.raw| < MAX_NUM_BITS then |d.raw| + 1 else MAX_NUM_BITS
  {
  }

  lemma SinceSnoc(h: seq<bool>, b: bool)
    requires b || TrailingOnes(h) != 6
    ensures Since(h + [b]) == if Since(h).Some? then Some(Since(h).value + [b]) else None
    ensures Closes(h + [b]) == None
  {
    Snoc(h, b);
  }

  lemma OneTracks(d: Dec, h: seq<bool>)
    requires Tracks(d, h)
    ensures Tracks(Took(d, true).d, h + [true]) && Took(d, true).out == None && Closes(h + [true]) == None
  {
    hide Took, PatRun, RawTracks, Gathered, Gathers, Clocked, Unstuffed;
    var t, f := TrailingOnes(h), Took(d, true);
    OneStep(d, t);
    Snoc(h, true);
    SinceSnoc(h, true);
    if t == 6 {
      AbortTracks(f.d);
    } else {
      StoredTracks(d, t, true);
      RawCopy(Clocked(d, d.prevRaw), f.d, t + 1) by { ClockedPrev(d, d.prevRaw); }
    }
    if Since(h).Some? {
      var c := Since(h).value;
      SinceRun(h);
      Snoc(c, true);
      if t != 6 && !HasSeven(c) {
        assert t < 6;
        GathersMore(d, c, true, f.d);
        RawLength(d, d.prevRaw) by { RawBound(d, t); }
      }
    }
    GatheredStopped(if d.olen < 0 then OctetsOf(d) else Octets(0, -1, []), true);
  }

  lemma ClockedPrev(d: Dec, r: bool)
    ensures Clocked(d, r).prevRaw == r
  {
  }

  lemma RawBound(d: Dec, t: nat)
    requires RawTracks(d, t)
    ensures |d.raw| <= MAX_NUM_BITS
  {
  }

  lemma AbortTracks(d: Dec)
    requires d.raw == []
    ensures RawTracks(d, 7)
  {
  }

  lemma ZeroTracks(d: Dec, h: seq<bool>)
    requires Tracks(d, h) && TrailingOnes(h) != 6 && TrailingOnes(h) != 14
    ensures Tracks(Took(d, false).d, h + [false]) && Took(d, false).out == None && Closes(h + [false]) == None
  {
    hide Took, PatRun, RawTracks, Gathered, Gathers, Clocked, Unstuffed;
    var t, f := TrailingOnes(h), Took(d, false);
    ZeroStep(d, t);
    Snoc(h, false);
    SinceSnoc(h, false);
    StoredTracks(d, t, false);
    RawCopy(Clocked(d, !d.prevRaw), f.d, 0) by { ClockedPrev(d, !d.prevRaw); }
    if Since(h).Some? {
      var c := Since(h).value;
      SinceRun(h);
      Snoc(c, false);
      if !HasSeven(c) {
        SevenStays(c);
        RawLength(d, !d.prevRaw) by { RawBound(d, t); }
        if t == 5 {
          GathersSame(d, c, f.d);
        } else {
          GathersMore(d, c, false, f.d);
        }
      }
    }
    GatheredStopped(if d.olen < 0 then OctetsOf(d) else Octets(0, -1, []), false);
  }

  // ----- a flag -----

  lemma OneEnd(c: seq<bool>)
    requires 0 < TrailingOnes(c) <= 6
    ensures c != [] && TrailingOnes(Front(c)) == TrailingOnes(c) - 1
    ensures Unstuffed(c) == Unstuffed(Front(c)) + [true] && (HasSeven(c) <==> HasSeven(Front(c)))
  {
  }

  lemma {:induction false} OnesEnd(c: seq<bool>, k: nat)
    requires k <= TrailingOnes(c) <= 6
    ensures k <= |c| && TrailingOnes(c[..|c| - k]) == TrailingOnes(c) - k
    ensures Unstuffed(c) == Unstuffed(c[..|c| - k]) + Ones(k) && (HasSeven(c) <==> HasSeven(c[..|c| - k]))
    decreases k
  {
    hide Unstuffed, HasSeven, TrailingOnes;
    if k == 0 {
      assert c[..|c|] == c;
      assert Unstuffed(c) + [] == Unstuffed(c);
    } else {
      OneEnd(c);
      OnesEnd(Front(c), k - 1);
      assert Front(c)[..|c| - k] == c[..|c| - k];
      OnesSnoc(k - 1);
      var u := Unstuffed(c[..|c| - k]);
      assert u + Ones(k - 1) + [true] == u + (Ones(k - 1) + [true]);
    }
  }

  lemma {:induction false} OnesSnoc(k: nat)
    ensures Ones(k) + [true] == Ones(k + 1) && |Ones(k)| == k
    decreases k
  {
    if k > 0 {
      OnesSnoc(k - 1);
    }
  }

  lemma ZeroEnd(c: seq<bool>)
    requires c != [] && !Last(c)
    ensures Unstuffed(c) == Unstuffed(Front(c)) + if TrailingOnes(Front(c)) == 5 then [] else [false]
    ensures HasSeven(c) <==> HasSeven(Front(c))
  {
    assert Unstuffed(Front(c)) + [] == Unstuffed(Front(c));
  }

  lemma EmptyEnd()
    ensures Unstuffed([]) == [] && !HasSeven([]) && [] + Ones(6) == Ones(6)
  {
  }

  // What the closing flag's first seven bits add to the bits of a frame.
  lemma ClosingBits(c: seq<bool>)
    requires TrailingOnes(c) == 6
    ensures HasSeven(c) <==> HasSeven(Content(c))
    ensures Unstuffed(c) == if |c| < 7 then Ones(6)
                            else Unstuffed(Content(c)) + (if TrailingOnes(Content(c)) == 5 then [] else [false]) + Ones(6)
  {
    hide Unstuffed, HasSeven, Ones;
    OnesEnd(c, 6);
    var c0 := c[..|c| - 6];
    EmptyEnd();
    if c0 == [] {
      assert Content(c) == [];
    } else {
      assert !Last(c0);
      ZeroEnd(c0);
      assert Front(c0) == Content(c);
    }
  }

  lemma {:induction false} UnstuffedShorter(c: seq<bool>)
    ensures |Unstuffed(c)| <= |c|
    decreases |c|
  {
    if c != [] {
      UnstuffedShorter(Front(c));
    }
  }

  // Seven bits over and a good check, or the bits between the flags as a frame: the
  // same thing.
  lemma ClosedFrame(c: seq<bool>)
    requires TrailingOnes(c) == 6 && !HasSeven(c)
    ensures var u := Unstuffed(c); Checked(|u| % 8, Capped(WholeOctets(u))) == FrameOf(Content(c))
  {
    hide Checks, HasSeven, WholeOctets, TrailingOnes, Unstuffed, Ones;
    ClosingBits(c);
    assert |Ones(6)| == 6 by { OnesSnoc(6); }
    var v := Unstuffed(Content(c));
    if |c| < 7 {
      ContentNone(c);
    } else {
      var extra := (if TrailingOnes(Content(c)) == 5 then [] else [false]) + Ones(6);
      assert Unstuffed(c) == v + extra;
      if |v| % 8 == if TrailingOnes(Content(c)) == 5 then 1 else 0 {
        WholeOctetsExtra(v, extra);
      }
    }
  }

  lemma ContentNone(c: seq<bool>)
    requires |c| < 7
    ensures FrameOf(Content(c)) == None
  {
    assert WholeOctets([]) == [];
  }

  lemma ShortFrame(u: seq<bool>)
    requires |u| < 143
    ensures Checked(|u| % 8, Capped(WholeOctets(u))) == None
  {
    hide WholeOctets, Checks;
    WholeOctetsCount(u);
  }

  lemma ClockedOctets(d: Dec, r: bool)
    ensures OctetsOf(Clocked(d, r)) == OctetsOf(d)
  {
  }

  lemma FlagRaw(d: Dec, t: nat, r: bool)
    requires RawTracks(d, t)
    ensures DecodedFromRaw(Chopped(Clocked(d, r).raw)) == None
  {
    hide Flagless;
    var raw := Clocked(d, r).raw;
    if |raw| > 8 {
      FlaglessPrefix(d.raw[1..], d.raw[0], 0, |raw| - 9);
      assert Chopped(raw) == d.raw[..|raw| - 8];
      assert Chopped(raw)[1..] == d.raw[1..][..|raw| - 9];
      NoFlagNoRescan(Chopped(raw));
    }
  }

  lemma FlagOut(d: Dec)
    requires DecodedFromRaw(Chopped(d.raw)) == None
    ensures AtFlag(d).out == if |Chopped(d.raw)| >= 136 then Checked(d.olen, d.frame) else None
    ensures AtFlag(d).d.olen == 0 && AtFlag(d).d.frame == [] && AtFlag(d).d.raw == [d.prevRaw]
    ensures AtFlag(d).d.pat == d.pat && AtFlag(d).d.prevRaw == d.prevRaw
  {
    hide DecodedFromRaw, Checks;
  }

  lemma FlagFrame(d: Dec, c: seq<bool>)
    requires Gathers(d, c) && !HasSeven(c) && TrailingOnes(c) == 6 && |d.raw| <= MAX_NUM_BITS
    requires |d.raw| == if 1 + |c| < MAX_NUM_BITS then 1 + |c| else MAX_NUM_BITS
    ensures var raw := Chopped(Clocked(d, !d.prevRaw).raw);
            (if |raw| >= 136 then Checked(d.olen, d.frame) else None) == FrameOf(Content(c))
  {
    hide Checked, HasSeven, WholeOctets, TrailingOnes, Unstuffed, FrameOf, GatheredAll;
    var u := Unstuffed(c);
    var x: bv8 :| OctetsOf(d) == GatheredAll(Octets(x, 0, []), u);
    GatheredOctets(Octets(x, 0, []), u);
    assert [] + WholeOctets(u) == WholeOctets(u);
    ClosedFrame(c);
    UnstuffedShorter(c);
    if |u| < 143 {
      ShortFrame(u);
    }
  }

  // What the direct check makes of what was gathered.
  lemma FlagChecks(d: Dec, h: seq<bool>)
    requires Tracks(d, h) && TrailingOnes(h) == 6
    ensures var raw := Chopped(Clocked(d, !d.prevRaw).raw);
            (if |raw| >= 136 then Checked(d.olen, d.frame) else None)
            == if Since(h).Some? then FrameOf(Content(Since(h).value)) else None
  {
    hide PatRun, RawTracks, Gathers, Clocked, Checked, FrameOf, Chopped;
    if Since(h).Some? {
      var c := Since(h).value;
      SinceRun(h);
      if HasSeven(c) {
        ClosingBits(c);
        SevenNoFrame(Content(c));
        Unfinished(d.olen, d.frame);
      } else {
        FlagFrame(d, c) by { RawBound(d, 6); }
      }
    } else {
      Unfinished(d.olen, d.frame);
    }
  }

  lemma FlagTracks(d: Dec, h: seq<bool>)
    requires Tracks(d, h) && TrailingOnes(h) == 6
    ensures Tracks(Took(d, false).d, h + [false]) && Took(d, false).out == Closes(h + [false])
  {
    hide PatRun, RawTracks, Gathers, AtFlag, Clocked, Checked, FrameOf, Took, Chopped;
    var e := Clocked(d, !d.prevRaw);
    Snoc(h, false);
    assert EndsInFlag(h + [false]);
    assert RunIs(d.pat, 6) by { SixRun(d.pat); }
    FlagEnds(d);
    FlagRaw(d, 6, !d.prevRaw);
    FlagOut(e);
    ClockedOctets(d, !d.prevRaw);
    FlagChecks(d, h);
    FreshTracks(AtFlag(e).d);
  }

  lemma SixRun(pat: bv8)
    requires PatRun(pat, 6)
    ensures RunIs(pat, 6)
  {
  }

  lemma SevenNoFrame(c: seq<bool>)
    requires HasSeven(c)
    ensures FrameOf(c) == None
  {
  }

  lemma Unfinished(olen: int, frame: seq<bv8>)
    requires olen != 7
    ensures Checked(olen, frame) == None
  {
  }

  lemma FreshTracks(d: Dec)
    requires d.pat == 0x7e && d.olen == 0 && d.frame == [] && d.raw == [d.prevRaw]
    ensures PatRun(d.pat, 0) && RawTracks(d, 0) && Gathers(d, []) && !HasSeven([])
  {
    FlaglessNone(d.prevRaw);
    PatZeroStart();
    assert d.raw[1..] == [];
    assert OctetsOf(d) == GatheredAll(Octets(d.oacc, 0, []), Unstuffed([]));
  }

  // ----- every stream -----

  // No run of exactly fourteen ones.
  predicate NoFourteen(h: seq<bool>)
    decreases |h|
  {
    h != [] ==> NoFourteen(Front(h)) && !(!Last(h) && TrailingOnes(Front(h)) == 14)
  }

  // A new receiver that has last seen the line in the given state.
  function Fresh(prev: bool): Dec {
    START.(prevRaw := prev)
  }

  lemma FreshStarts(prev: bool)
    ensures Tracks(Fresh(prev), [])
  {
    PatZeroStart();
  }

  lemma TookSnoc(d: Dec, h: seq<bool>, b: bool)
    ensures var (t, f) := (TookAll(d, h), Took(TookAll(d, h).d, b));
            TookAll(d, h + [b]) == Received(f.d, t.frames + (if f.out.Some? then [f.out.value] else []))
  {
    hide Took, TookAll;
    TookConcat(d, h, [b]);
    TookOne(TookAll(d, h).d, b);
  }

  lemma {:induction false} BatchTracks(prev: bool, h: seq<bool>)
    requires NoFourteen(h)
    ensures Tracks(TookAll(Fresh(prev), h).d, h) && TookAll(Fresh(prev), h).frames == Batch(h)
    decreases |h|
  {
    hide Tracks, Took, TookAll, TrailingOnes, Closes, Fresh;
    if h == [] {
      FreshStarts(prev);
      TookNone(Fresh(prev));
    } else {
      var g, b := Front(h), Last(h);
      assert h == g + [b];
      BatchTracks(prev, g);
      var d := TookAll(Fresh(prev), g).d;
      TookSnoc(Fresh(prev), g, b);
      if b {
        OneTracks(d, g);
      } else if TrailingOnes(g) == 6 {
        FlagTracks(d, g);
      } else {
        ZeroTracks(d, g);
      }
    }
  }

  // The decoded bits of a line.
  function Decoded(line: seq<bool>, prev: bool): seq<bool>
    decreases |line|
  {
    if line == [] then [] else [line[0] == prev] + Decoded(line[1..], line[0])
  }

  lemma {:induction false} DecodedTaken(d: Dec, line: seq<bool>)
    ensures FedAll(d, line) == TookAll(d, Decoded(line, d.prevRaw))
    decreases |line|
  {
    hide FedBit;
    if line != [] {
      var b := line[0] == d.prevRaw;
      PrevRaw(d, line[0]);
      assert Took(d, b) == FedBit(d, line[0]);
      DecodedTaken(FedBit(d, line[0]).d, line[1..]);
      assert Decoded(line, d.prevRaw)[1..] == Decoded(line[1..], line[0]);
    }
  }

  // For every stream of line bits without a run of exactly fourteen decoded ones, a
  // new receiver yields exactly the frames of the batch specification; decoding the
  // stored bits a second time adds none.
  lemma ReceiverIsBatch(prev: bool, line: seq<bool>)
    requires NoFourteen(Decoded(line, prev))
    ensures FedAll(Fresh(prev), line).frames == Batch(Decoded(line, prev))
  {
    DecodedTaken(Fresh(prev), line);
    BatchTracks(prev, Decoded(line, prev));
  }
}
