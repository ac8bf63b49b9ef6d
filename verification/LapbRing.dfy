// What the steps of the sliding window keep: the window invariant and the
// conservation of the operator's bytes.

module LapbRing {
  import opened Common
  import opened Control
  import opened Frames
  import opened Ring
  import opened LapbSpec

  // ----- the invariant -----

  predicate ConfigOk(c: Config) {
    1 <= c.window < Modulus(c.mod128) && c.n2 >= 1 && c.paclen >= 1
  }

  // Slot i holds the I-frame numbered i.
  predicate SlotOk(s: St, i: int)
    requires 0 <= i < |s.pending|
  {
    && s.pending[i].Some?
    && var f := s.pending[i].value;
       && i < 256 && f.control == Control(FrameI, i, f.control.nr, false)
       && 1 <= |f.info| <= s.cfg.paclen
  }

  function InWindow(s: St): seq<int>
    requires RingOk(s) && Live(s)
  {
    Slots(s.v.va, s.v.vs, M(s))
  }

  // At most a window of frames is outstanding, and each slot of [V(A), V(S)) holds the
  // frame numbered by its index.
  predicate WindowOk(s: St)
    requires RingOk(s) && Live(s)
  {
    && Dist(s.v.va, s.v.vs, M(s)) <= s.cfg.window
    && forall k | 0 <= k < |InWindow(s)| :: SlotOk(s, InWindow(s)[k])
  }

  predicate Inv(s: St) {
    && RingOk(s) && ConfigOk(s.cfg)
    && 0 <= s.v.n2Count <= s.cfg.n2
    && (Live(s) ==> WindowOk(s))
    && (s.terminated ==> s.state == Disconnected)
  }

  // Bytes taken in = bytes acknowledged, then the payloads in the window in order,
  // then the bytes still queued.
  predicate Conserved(s: St)
    requires RingOk(s) && Live(s)
  {
    s.hist.taken == s.hist.acked + Collect(s.pending, InWindow(s)) + s.txBuf
  }

  predicate SameRing(a: St, b: St) {
    && a.cfg == b.cfg && a.v.vs == b.v.vs && a.v.va == b.v.va
    && a.pending == b.pending && a.txBuf == b.txBuf && a.hist == b.hist
  }

  // ----- slots -----

  lemma {:induction false} ClearedAt(pending: seq<Option<Frame>>, slots: seq<int>, i: int)
    requires forall k | 0 <= k < |slots| :: 0 <= slots[k] < |pending|
    requires 0 <= i < |pending| && i !in slots
    ensures Cleared(pending, slots)[i] == pending[i]
    decreases |slots|
  {
    if slots != [] {
      ClearedAt(pending[slots[0] := None], slots[1..], i);
    }
  }

  lemma {:induction false} CollectSame(p: seq<Option<Frame>>, q: seq<Option<Frame>>, slots: seq<int>)
    requires |p| == |q|
    requires forall k | 0 <= k < |slots| :: 0 <= slots[k] < |p| && p[slots[k]] == q[slots[k]]
    ensures Collect(p, slots) == Collect(q, slots)
    decreases |slots|
  {
    if slots != [] {
      assert p[slots[0]] == q[slots[0]];
      forall k | 0 <= k < |slots| - 1
        ensures 0 <= slots[1..][k] < |p| && p[slots[1..][k]] == q[slots[1..][k]]
      {
        assert slots[1..][k] == slots[k + 1];
      }
      CollectSame(p, q, slots[1..]);
    }
  }

  lemma {:induction false} CollectConcat(p: seq<Option<Frame>>, a: seq<int>, b: seq<int>)
    requires forall k | 0 <= k < |a| :: 0 <= a[k] < |p|
    requires forall k | 0 <= k < |b| :: 0 <= b[k] < |p|
    ensures Collect(p, a + b) == Collect(p, a) + Collect(p, b)
    decreases |a|
  {
    if a == [] {
      assert [] + b == b;
    } else {
      assert (a + b)[1..] == a[1..] + b;
      CollectConcat(p, a[1..], b);
    }
  }

  lemma SlotsDistinct(a: int, b: int, c: int, m: int)
    requires 0 <= a < m && 0 <= b < m && 0 <= c < m && Dist(a, b, m) <= Dist(a, c, m)
    ensures forall k | 0 <= k < |Slots(b, c, m)| :: Slots(b, c, m)[k] !in Slots(a, b, m)
  {
    SlotsShape(a, b, m);
    SlotsShape(b, c, m);
    forall k | 0 <= k < |Slots(b, c, m)|
      ensures Slots(b, c, m)[k] !in Slots(a, b, m)
    {
      forall j | 0 <= j < |Slots(a, b, m)|
        ensures Slots(a, b, m)[j] != Slots(b, c, m)[k]
      {
        assert Slots(a, b, m)[j] == At(a, j, m);
        assert Slots(b, c, m)[k] == At(b, k, m);
      }
    }
  }

  // ----- steps that leave the ring alone -----

  lemma SameRingKeeps(a: St, b: St)
    requires RingOk(a) && Live(a) && RingOk(b) && Live(b) && SameRing(a, b)
    ensures WindowOk(a) ==> WindowOk(b)
    ensures Conserved(a) ==> Conserved(b)
  {
    if WindowOk(a) {
      forall k | 0 <= k < |InWindow(b)|
        ensures SlotOk(b, InWindow(b)[k])
      {
        assert SlotOk(a, InWindow(a)[k]);
      }
    }
  }

  // ----- acknowledgement -----

  lemma AckedSlots(s: St, nr: U8)
    requires InStep(s) && nr < M(s) && ValidNR(s, nr)
    ensures var s' := Acked(s, nr);
            var gone := Slots(s.v.va, nr, M(s));
            && InWindow(s) == gone + InWindow(s')
            && (forall k | 0 <= k < |InWindow(s')| :: s'.pending[InWindow(s')[k]] == s.pending[InWindow(s')[k]])
            && Dist(nr, s.v.vs, M(s)) == Dist(s.v.va, s.v.vs, M(s)) - Dist(s.v.va, nr, M(s))
  {
    var gone, left := Slots(s.v.va, nr, M(s)), Slots(nr, s.v.vs, M(s));
    SlotsSplit(s.v.va, nr, s.v.vs, M(s));
    SlotsDistinct(s.v.va, nr, s.v.vs, M(s));
    forall k | 0 <= k < |left|
      ensures Acked(s, nr).pending[left[k]] == s.pending[left[k]]
    {
      ClearedAt(s.pending, gone, left[k]);
    }
  }

  lemma AckedKeepsWindow(s: St, nr: U8)
    requires InStep(s) && nr < M(s) && ValidNR(s, nr) && WindowOk(s)
    ensures WindowOk(Acked(s, nr))
  {
    hide Slots, Cleared, Collect;
    AckedSlots(s, nr);
    var s' := Acked(s, nr);
    var gone, left := Slots(s.v.va, nr, M(s)), InWindow(s');
    forall k | 0 <= k < |left|
      ensures SlotOk(s', left[k])
    {
      assert left[k] == InWindow(s)[|gone| + k];
      assert SlotOk(s, InWindow(s)[|gone| + k]);
    }
  }

  lemma AckedKeepsBytes(s: St, nr: U8)
    requires InStep(s) && nr < M(s) && ValidNR(s, nr) && Conserved(s)
    ensures Conserved(Acked(s, nr))
  {
    hide Slots, Cleared, Collect;
    AckedSlots(s, nr);
    var s' := Acked(s, nr);
    var gone, left := Slots(s.v.va, nr, M(s)), InWindow(s');
    CollectSame(s.pending, s'.pending, left);
    CollectConcat(s.pending, gone, left);
    var a, b := Collect(s.pending, gone), Collect(s.pending, left);
    assert s.hist.acked + (a + b) + s.txBuf == (s.hist.acked + a) + b + s.txBuf;
  }

  lemma AckedKeeps(s: St, nr: U8)
    requires InStep(s) && nr < M(s) && ValidNR(s, nr)
    ensures WindowOk(s) ==> WindowOk(Acked(s, nr))
    ensures Conserved(s) ==> Conserved(Acked(s, nr))
    ensures var s' := Acked(s, nr);
            Dist(s'.v.va, s'.v.vs, M(s)) == Dist(s.v.va, s.v.vs, M(s)) - Dist(s.v.va, nr, M(s))
  {
    hide Slots, Cleared, Collect;
    AckedSlots(s, nr);
    if WindowOk(s) {
      AckedKeepsWindow(s, nr);
    }
    if Conserved(s) {
      AckedKeepsBytes(s, nr);
    }
  }

  // ----- requeue -----

  lemma RequeuedKeeps(s: St)
    requires InStep(s) && 1 <= s.cfg.window
    ensures WindowOk(Requeued(s)) && Dist(Requeued(s).v.va, Requeued(s).v.vs, M(s)) == 0
    ensures Conserved(s) ==> Conserved(Requeued(s))
  {
    var s' := Requeued(s);
    assert InWindow(s') == [];
    if Conserved(s) {
      var c := Collect(s.pending, InWindow(s));
      assert s.hist.acked + c + s.txBuf == s.hist.acked + [] + (c + s.txBuf);
    }
  }

  // ----- kick -----

  lemma SentOneSlots(s: St)
    requires InStep(s) && CanSend(s) && ConfigOk(s.cfg)
    ensures InStep(SentOne(s)) && InWindow(SentOne(s)) == InWindow(s) + [s.v.vs as int]
    ensures SentOne(s).pending == s.pending[s.v.vs as int := Some(DataFrame(s, s.txBuf[..ChunkLen(s)]))]
    ensures forall k | 0 <= k < |InWindow(s)| :: InWindow(s)[k] != s.v.vs
    ensures Dist(s.v.va, SentOne(s).v.vs, M(s)) == Dist(s.v.va, s.v.vs, M(s)) + 1
  {
    SlotsShape(s.v.va, s.v.vs, M(s));
    SlotsSnoc(s.v.va, s.v.vs, M(s));
    forall k | 0 <= k < |InWindow(s)|
      ensures InWindow(s)[k] != s.v.vs
    {
      assert InWindow(s)[k] == At(s.v.va, k, M(s));
    }
  }

  lemma SentOneKeepsWindow(s: St)
    requires InStep(s) && CanSend(s) && ConfigOk(s.cfg) && WindowOk(s)
    ensures InStep(SentOne(s)) && WindowOk(SentOne(s))
  {
    hide Slots, Cleared, Collect, Submitted;
    SentOneSlots(s);
    var s' := SentOne(s);
    assert s'.cfg == s.cfg && s'.v.va == s.v.va by { SentOneRest(s); }
    var slots := InWindow(s);
    forall k | 0 <= k < |InWindow(s')|
      ensures SlotOk(s', InWindow(s')[k])
    {
      if k < |slots| {
        assert InWindow(s')[k] == slots[k];
        assert SlotOk(s, slots[k]);
      } else {
        assert InWindow(s')[k] == s.v.vs;
      }
    }
  }

  lemma SentOneRest(s: St)
    requires InStep(s) && CanSend(s)
    ensures var s' := SentOne(s);
            s' == s.(v := s.v.(vs := s'.v.vs), pending := s'.pending, txBuf := s.txBuf[ChunkLen(s)..], tx := s'.tx)
    ensures 0 < ChunkLen(s) <= |s.txBuf|
  {
  }

  lemma SentOneKeepsBytes(s: St)
    requires InStep(s) && CanSend(s) && ConfigOk(s.cfg) && Conserved(s)
    ensures InStep(SentOne(s)) && Conserved(SentOne(s))
  {
    hide Slots, Cleared, Submitted;
    SentOneSlots(s);
    SentOneRest(s);
    var s' := SentOne(s);
    var slots, n := InWindow(s), ChunkLen(s);
    CollectSame(s.pending, s'.pending, slots);
    CollectConcat(s'.pending, slots, [s.v.vs as int]);
    assert Collect(s'.pending, [s.v.vs as int]) == s.txBuf[..n] + [];
    var c := Collect(s.pending, slots);
    assert s.txBuf == s.txBuf[..n] + s.txBuf[n..];
    assert s.hist.acked + c + s.txBuf == s.hist.acked + (c + s.txBuf[..n]) + s.txBuf[n..];
  }

  lemma SentOneKeeps(s: St)
    requires InStep(s) && CanSend(s) && ConfigOk(s.cfg) && WindowOk(s)
    ensures InStep(SentOne(s)) && WindowOk(SentOne(s))
    ensures Conserved(s) ==> Conserved(SentOne(s))
    ensures Dist(s.v.va, SentOne(s).v.vs, M(s)) == Dist(s.v.va, s.v.vs, M(s)) + 1
    ensures SentOne(s).v.va == s.v.va && SentOne(s).cfg == s.cfg && |SentOne(s).txBuf| < |s.txBuf|
  {
    hide Slots, Cleared, Collect;
    SentOneSlots(s);
    SentOneKeepsWindow(s);
    SentOneRest(s);
    if Conserved(s) {
      SentOneKeepsBytes(s);
    }
  }

  lemma {:induction false} DrainedKeeps(s: St)
    requires InStep(s) && ConfigOk(s.cfg) && WindowOk(s)
    ensures InStep(Drained(s)) && WindowOk(Drained(s)) && !CanSend(Drained(s))
    ensures Conserved(s) ==> Conserved(Drained(s))
    ensures Drained(s) == s.(v := s.v.(vs := Drained(s).v.vs), pending := Drained(s).pending,
                             txBuf := Drained(s).txBuf, tx := Drained(s).tx)
    decreases |s.txBuf|
  {
    if CanSend(s) {
      SentOneKeeps(s);
      DrainedKeeps(SentOne(s));
    }
  }

  lemma SettledRest(s: St, sent: bool)
    ensures var s' := Settled(s, sent);
            && s' == s.(v := s.v.(cond := s.v.cond.(ackPending := s'.v.cond.ackPending)), on := s'.on)
            && (s.on.t1 || s.v.vs != s.v.va ==> s'.on.t1) && (s.v.vs == s.v.va ==> s'.on.t3 == s.on.t3)
  {
  }

  lemma SendsAlike(a: St, b: St)
    requires SameRing(a, b)
    ensures CanSend(a) <==> CanSend(b)
  {
  }

  // Kick keeps the window and the bytes, and leaves T1 running over whatever is
  // outstanding unless the peer is busy. Nothing that could be sent is left unsent.
  lemma KickedKeeps(s: St)
    requires InStep(s) && ConfigOk(s.cfg) && WindowOk(s)
    ensures InStep(Kicked(s)) && WindowOk(Kicked(s))
    ensures Conserved(s) ==> Conserved(Kicked(s))
    ensures var s' := Kicked(s);
            && s'.cfg == s.cfg && s'.state == s.state && s'.terminated == s.terminated && s'.hist == s.hist
            && s'.obs == s.obs && s'.v.n2Count == s.v.n2Count && s'.v.va == s.v.va && s'.v.vr == s.v.vr
            && s'.v.cond == s.v.cond.(ackPending := s'.v.cond.ackPending)
            && (s.on.t1 ==> s'.on.t1)
            && (s.v.cond.peerRxBusy ==> s' == s)
            && (!s.v.cond.peerRxBusy ==> !CanSend(s') && (s'.v.vs != s'.v.va ==> s'.on.t1))
            && (s'.v.vs == s'.v.va ==> s'.on.t3 == s.on.t3)
  {
    hide Drained, Settled, WindowOk, Conserved, CanSend;
    if !s.v.cond.peerRxBusy {
      DrainedKeeps(s);
      var d := Drained(s);
      SettledRest(d, CanSend(s));
      SameRingKeeps(d, Settled(d, CanSend(s)));
      SendsAlike(d, Settled(d, CanSend(s)));
    }
  }

  // ----- rebinding -----

  // The numbers from lo up to hi.
  function Range(lo: int, hi: int): (r: seq<int>)
    requires lo <= hi
    ensures |r| == hi - lo && forall k | 0 <= k < |r| :: r[k] == lo + k
  {
    seq(hi - lo, k => lo + k)
  }

  // What those slots hold, one after the other.
  function Held(pending: seq<Option<Frame>>, lo: int, hi: int): seq<U8>
    requires 0 <= lo <= hi <= |pending|
  {
    Collect(pending, Range(lo, hi))
  }

  lemma SlotsStraight(a: int, b: int, m: int)
    requires 0 <= a <= b < m
    ensures Slots(a, b, m) == Range(a, b)
  {
    SlotsShape(a, b, m);
  }

  lemma SlotsAround(a: int, b: int, m: int)
    requires 0 <= b < a < m
    ensures Slots(a, b, m) == Range(a, m) + Range(0, b)
  {
    SlotsShape(a, b, m);
  }

  lemma RangeSplit(a: int, b: int, c: int)
    requires a <= b <= c
    ensures Range(a, c) == Range(a, b) + Range(b, c)
  {
  }

  lemma HeldSplit(pending: seq<Option<Frame>>, a: int, b: int, c: int)
    requires 0 <= a <= b <= c <= |pending|
    ensures Held(pending, a, c) == Held(pending, a, b) + Held(pending, b, c)
  {
    hide Range, Collect;
    RangeSplit(a, b, c);
    CollectConcat(pending, Range(a, b), Range(b, c));
  }

  lemma HeldAround(pending: seq<Option<Frame>>, a: int, b: int, m: int)
    requires 0 <= b < a < m <= |pending|
    ensures Collect(pending, Slots(a, b, m)) == Held(pending, a, m) + Held(pending, 0, b)
  {
    hide Slots, Collect, Range;
    SlotsAround(a, b, m);
    CollectConcat(pending, Range(a, m), Range(0, b));
  }

  // Whether a rebind finds the window's payloads: the modulus stays; or the window does
  // not wrap; or it wraps and the slots the one modulus has and the other has not are
  // empty, when V(A) is below both; or the loop, modulo 8 from a V(A) that is not below
  // it, skips nothing, or slots whose place is taken by stale ones that hold the same.
  predicate KeepsBytes(s: St, mod128: bool) {
    var (va, vs) := (s.v.va as int, s.v.vs as int);
    |s.pending| == RING_SIZE &&
    (|| mod128 == s.cfg.mod128 || va <= vs
     || (mod128 && Held(s.pending, 8, 128) == [])
     || (!mod128 && va == 127)
     || (!mod128 && 8 <= va < 127 && vs < (va + 1) % 8
         && Held(s.pending, (va + 1) % 8, 8) == Held(s.pending, va + 1, 128)))
  }

  // The same on the two payload strings.
  predicate WalksWindow(s: St, mod128: bool)
    requires InStep(s) && Reaches(s.v.va, s.v.vs, Modulus(mod128))
  {
    Collect(s.pending, Slots(s.v.va, s.v.vs, Modulus(mod128))) == Collect(s.pending, InWindow(s))
  }

  lemma MiddleSame(a: seq<U8>, x: seq<U8>, y: seq<U8>, z: seq<U8>)
    ensures a + y + z == a + x + z <==> x == y
  {
    if a + y + z == a + x + z {
      assert |x| == |y|;
      assert y == (a + y + z)[|a|..|a| + |y|];
      assert x == (a + x + z)[|a|..|a| + |x|];
    }
  }

  // V(A) below both moduli: one of the two walks also takes the slots from 8 on.
  lemma LowWalk(s: St, mod128: bool)
    requires InStep(s) && Reaches(s.v.va, s.v.vs, Modulus(mod128)) && s.v.vs < s.v.va < 8 && mod128 != s.cfg.mod128
    ensures WalksWindow(s, mod128) <==> Held(s.pending, 8, 128) == []
  {
    hide Slots, Collect, Held;
    var p, va, vs := s.pending, s.v.va as int, s.v.vs as int;
    HeldAround(p, va, vs, 8);
    HeldAround(p, va, vs, 128);
    HeldSplit(p, va, 8, 128);
    var x, y, z := Held(p, va, 8), Held(p, 8, 128), Held(p, 0, vs);
    MiddleSame(x, y, [], z);
    assert x + [] == x;
  }

  lemma StepThenSlots(p: seq<Option<Frame>>, va: int, vs: int)
    requires 8 <= va < |p| == RING_SIZE && 0 <= vs < 8
    ensures Collect(p, Slots(va, vs, 8)) == Held(p, va, va + 1) + Collect(p, Slots((va + 1) % 8, vs, 8))
  {
    assert Range(va, va + 1) == [va];
    assert Slots(va, vs, 8) == Range(va, va + 1) + Slots((va + 1) % 8, vs, 8);
    CollectConcat(p, Range(va, va + 1), Slots((va + 1) % 8, vs, 8));
  }

  // V(A) at or above 8, the new modulus: one slot, then on from the remainder.
  lemma HighWalk(s: St)
    requires InStep(s) && s.cfg.mod128 && s.v.vs < 8 <= s.v.va
    ensures var (p, va, vs, w) := (s.pending, s.v.va as int, s.v.vs as int, (s.v.va + 1) % 8);
            WalksWindow(s, false) <==>
            if w <= vs then Held(p, va + 1, 128) + Held(p, 0, w) == [] else Held(p, w, 8) == Held(p, va + 1, 128)
  {
    hide Slots, Collect, Held;
    var p, va, vs, w := s.pending, s.v.va as int, s.v.vs as int, (s.v.va + 1) % 8;
    StepThenSlots(p, va, vs);
    HeldAround(p, va, vs, 128);
    HeldSplit(p, va, va + 1, 128);
    var first, rest := Held(p, va, va + 1), Held(p, va + 1, 128);
    if w <= vs {
      HeldStraight(p, w, vs, 8);
      HeldSplit(p, 0, w, vs);
      var x, z := Held(p, 0, w), Held(p, w, vs);
      MiddleSame(first, rest + x, [], z);
      assert first + [] == first && first + rest + (x + z) == first + (rest + x) + z;
    } else {
      HeldAround(p, w, vs, 8);
      var x, z := Held(p, w, 8), Held(p, 0, vs);
      MiddleSame(first, rest, x, z);
      assert first + (x + z) == first + x + z;
    }
  }

  lemma HeldStraight(p: seq<Option<Frame>>, a: int, b: int, m: int)
    requires 0 <= a <= b < m <= |p|
    ensures Collect(p, Slots(a, b, m)) == Held(p, a, b)
  {
    SlotsStraight(a, b, m);
  }

  // A slot of the window is never empty.
  lemma WindowHolds(s: St, lo: int, hi: int)
    requires InStep(s) && WindowOk(s) && s.v.vs < s.v.va <= lo < hi <= M(s)
    ensures Held(s.pending, lo, hi) != []
  {
    SlotsAround(s.v.va, s.v.vs, M(s));
    assert InWindow(s)[lo - s.v.va] == lo;
    assert SlotOk(s, lo);
    assert Range(lo, hi)[0] == lo;
  }

  lemma KeepsBytesIff(s: St, mod128: bool)
    requires InStep(s) && WindowOk(s) && Reaches(s.v.va, s.v.vs, Modulus(mod128))
    ensures KeepsBytes(s, mod128) <==> WalksWindow(s, mod128)
  {
    hide Collect, Held;
    var va, vs := s.v.va as int, s.v.vs as int;
    if mod128 == s.cfg.mod128 {
    } else if va == vs {
    } else if va < vs {
      SlotsStraight(va, vs, M(s));
      SlotsStraight(va, vs, Modulus(mod128));
    } else if mod128 {
      LowWalk(s, true);
    } else if va < 8 {
      LowWalk(s, false);
      WindowHolds(s, 8, 128);
    } else {
      HighWalk(s);
      if va < 127 {
        WindowHolds(s, va + 1, 128);
      } else {
        NoneHeld(s.pending, 128);
        NoneHeld(s.pending, 0);
      }
    }
  }

  lemma NoneHeld(p: seq<Option<Frame>>, k: int)
    requires 0 <= k <= |p|
    ensures Held(p, k, k) == []
  {
  }

  lemma ReboundRest(s: St, mod128: bool, pf: bool)
    requires InStep(s) && Reaches(s.v.va, s.v.vs, Modulus(mod128))
    ensures var s' := Rebound(s, mod128, pf);
            && s'.v == ZERO_VARS && RingOk(s') && s'.cfg == WithModulus(s, mod128).cfg && s'.state == s.state
            && s'.txBuf == Collect(s.pending, Slots(s.v.va, s.v.vs, Modulus(mod128))) + s.txBuf
            && s'.hist == s.hist && s'.obs == s.obs && s'.terminated == s.terminated
            && s'.on == s.on.(t1 := false, t2 := false, t3 := true)
  {
    hide Slots, Cleared, Collect;
  }

  // A rebind keeps every byte exactly when its loop finds the window's payloads.
  lemma ReboundKeeps(s: St, mod128: bool, pf: bool)
    requires InStep(s) && ConfigOk(s.cfg) && WindowOk(s) && Reaches(s.v.va, s.v.vs, Modulus(mod128))
    ensures InStep(Rebound(s, mod128, pf)) && WindowOk(Rebound(s, mod128, pf))
    ensures Conserved(s) ==> (Conserved(Rebound(s, mod128, pf)) <==> KeepsBytes(s, mod128))
  {
    ReboundRest(s, mod128, pf);
    KeepsBytesIff(s, mod128);
    hide Rebound, KeepsBytes, Collect, Slots;
    var s' := Rebound(s, mod128, pf);
    NothingInWindow(s');
    if Conserved(s) {
      var walked := Collect(s.pending, Slots(s.v.va, s.v.vs, Modulus(mod128)));
      var window := Collect(s.pending, InWindow(s));
      MiddleSame(s.hist.acked, walked, window, s.txBuf);
      assert s.hist.acked + [] + (walked + s.txBuf) == s.hist.acked + walked + s.txBuf;
    }
  }

  lemma NothingInWindow(s: St)
    requires InStep(s) && s.v.vs == s.v.va
    ensures InWindow(s) == [] && Collect(s.pending, []) == []
  {
  }
}
