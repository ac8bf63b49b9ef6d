// What kick sends, in closed form: how the transmit queue is cut into frames.

module LapbKick {
  import opened Common
  import opened Control
  import opened Frames
  import opened Ring
  import opened LapbSpec
  import opened LapbRing

  // The queue cut into pieces of paclen octets, the last one as long as what is left.
  function Cuts(buf: seq<U8>, paclen: int): seq<seq<U8>>
    requires paclen >= 1
    decreases |buf|
  {
    if buf == [] then []
    else if |buf| <= paclen then [buf]
    else [buf[..paclen]] + Cuts(buf[paclen..], paclen)
  }

  function Joined(parts: seq<seq<U8>>): seq<U8> {
    if parts == [] then [] else parts[0] + Joined(parts[1..])
  }

  lemma Multiple(e: int, p: int)
    requires p >= 1
    ensures e >= 1 ==> e * p >= p
    ensures e <= -1 ==> e * p <= -p
  {
    if e >= 1 {
      assert (e - 1) * p >= 0;
    }
    if e <= -1 {
      assert (-1 - e) * p >= 0;
    }
  }

  lemma QuotientIs(q: int, r: int, q': int, r': int, p: int)
    requires 0 <= r < p && 0 <= r' < p && q * p + r == q' * p + r'
    ensures q == q'
  {
    assert (q - q') * p == r' - r;
    Multiple(q - q', p);
  }

  lemma DivStep(n: int, p: int)
    requires p >= 1
    ensures (n + p) / p == n / p + 1
  {
    var q, q' := (n + p) / p, n / p;
    assert (q' + 1) * p == q' * p + p;
    QuotientIs(q, (n + p) % p, q' + 1, n % p, p);
  }

  lemma DivSmall(n: int, p: int)
    requires 0 <= n < p
    ensures n / p == 0
  {
  }

  // The pieces put together are the queue; all but the last are full, none is empty,
  // and there are as many as paclen octets go into the queue, rounded up.
  lemma {:induction false} CutsShape(buf: seq<U8>, paclen: int)
    requires paclen >= 1
    ensures Joined(Cuts(buf, paclen)) == buf
    ensures |Cuts(buf, paclen)| == (|buf| + paclen - 1) / paclen
    ensures forall k | 0 <= k < |Cuts(buf, paclen)| :: 1 <= |Cuts(buf, paclen)[k]| <= paclen
    ensures forall k | 0 <= k < |Cuts(buf, paclen)| - 1 :: |Cuts(buf, paclen)[k]| == paclen
    decreases |buf|
  {
    if buf == [] {
      DivSmall(paclen - 1, paclen);
    } else if |buf| <= paclen {
      DivStep(|buf| - 1, paclen);
      DivSmall(|buf| - 1, paclen);
      assert [buf][1..] == [];
    } else {
      CutsShape(buf[paclen..], paclen);
      DivStep(|buf| - 1, paclen);
      assert Cuts(buf, paclen)[1..] == Cuts(buf[paclen..], paclen);
      assert buf == buf[..paclen] + buf[paclen..];
    }
  }

  // How many frames the window leaves room for, or the queue has.
  function ToSend(s: St): int
    requires s.cfg.paclen >= 1
  {
    var room, have := s.cfg.window - Dist(s.v.va, s.v.vs, M(s)), |Cuts(s.txBuf, s.cfg.paclen)|;
    if have < room then have else room
  }

  function CutFrame(s: St, k: int): Frame
    requires s.cfg.paclen >= 1 && 0 <= k < |Cuts(s.txBuf, s.cfg.paclen)| && 0 <= At(s.v.vs, k, M(s)) < 256
  {
    Made(s.cfg, Control(FrameI, At(s.v.vs, k, M(s)), s.v.vr, false), PID_NO_LAYER3, Cuts(s.txBuf, s.cfg.paclen)[k], true)
  }

  lemma ToSendZero(s: St)
    requires InStep(s) && ConfigOk(s.cfg) && Dist(s.v.va, s.v.vs, M(s)) <= s.cfg.window
    ensures CanSend(s) <==> ToSend(s) > 0
    ensures ToSend(s) >= 0
  {
  }

  lemma SentOneCuts(s: St)
    requires InStep(s) && ConfigOk(s.cfg) && CanSend(s)
    ensures Cuts(s.txBuf, s.cfg.paclen) == [s.txBuf[..ChunkLen(s)]] + Cuts(SentOne(s).txBuf, s.cfg.paclen)
  {
    if |s.txBuf| <= s.cfg.paclen {
      assert s.txBuf[..ChunkLen(s)] == s.txBuf;
    }
  }

  lemma SentOneFrame(s: St)
    requires InStep(s) && ConfigOk(s.cfg) && CanSend(s) && !s.cfg.mod128
    ensures |Cuts(s.txBuf, s.cfg.paclen)| > 0 && At(s.v.vs, 0, 8) == s.v.vs
    ensures SentOne(s).tx == s.tx + [CutFrame(s, 0)]
    ensures SentOne(s).v.vs == At(s.v.vs, 1, 8) && SentOne(s).v.vr == s.v.vr
  {
    SentOneCuts(s);
  }

  lemma NextFrame(s: St, k: int)
    requires InStep(s) && ConfigOk(s.cfg) && CanSend(s) && !s.cfg.mod128 && WindowOk(s)
    requires 1 <= k < ToSend(s)
    ensures var s' := SentOne(s);
            && s'.cfg == s.cfg && 0 <= At(s.v.vs, k, 8) < 8 && At(s'.v.vs, k - 1, 8) == At(s.v.vs, k, 8)
            && k < |Cuts(s.txBuf, s.cfg.paclen)| && k - 1 < |Cuts(s'.txBuf, s.cfg.paclen)|
            && CutFrame(s', k - 1) == CutFrame(s, k)
  {
    SentOneCuts(s);
    SentOneFrame(s);
    SentOneRest(s);
  }

  // Kick sends the first pieces of the queue, one frame each with consecutive numbers
  // and the same N(R), as many as the window leaves room for, and keeps the others.
  lemma {:induction false} DrainSends(s: St)
    requires InStep(s) && ConfigOk(s.cfg) && WindowOk(s) && !s.cfg.mod128
    ensures var d, n := Drained(s), ToSend(s);
            && |d.tx| == |s.tx| + n && s.tx <= d.tx
            && d.v.vs == At(s.v.vs, n, 8)
            && Cuts(d.txBuf, s.cfg.paclen) == Cuts(s.txBuf, s.cfg.paclen)[n..]
    ensures forall k | 0 <= k < ToSend(s) :: 0 <= At(s.v.vs, k, 8) < 8 && Drained(s).tx[|s.tx| + k] == CutFrame(s, k)
    decreases |s.txBuf|
  {
    hide SentOne;
    ToSendZero(s);
    if CanSend(s) {
      var s' := SentOne(s);
      SentOneKeeps(s);
      SentOneCuts(s);
      SentOneFrame(s);
      DrainSends(s');
      assert ToSend(s') == ToSend(s) - 1;
      forall k | 0 <= k < ToSend(s)
        ensures 0 <= At(s.v.vs, k, 8) < 8 && Drained(s).tx[|s.tx| + k] == CutFrame(s, k)
      {
        if k > 0 {
          NextFrame(s, k);
          assert Drained(s').tx[|s'.tx| + (k - 1)] == CutFrame(s', k - 1);
        }
      }
    }
  }

  // ----- the count other goroutines see -----

  lemma OutstandingCounts(s: St)
    requires InStep(s) && ConfigOk(s.cfg)
    ensures OutstandingOf(s) == |InWindow(s)| + |Cuts(s.txBuf, s.cfg.paclen)|
  {
    SlotsShape(s.v.va, s.v.vs, M(s));
    U8DistIsModular(s.v.va, s.v.vs, M(s));
    CutsShape(s.txBuf, s.cfg.paclen);
  }

  lemma {:induction false} DrainedOutstanding(s: St)
    requires InStep(s) && ConfigOk(s.cfg) && WindowOk(s)
    ensures InStep(Drained(s)) && Drained(s).cfg == s.cfg
    ensures OutstandingOf(Drained(s)) == OutstandingOf(s)
    decreases |s.txBuf|
  {
    hide SentOne, OutstandingOf;
    if CanSend(s) {
      var s' := SentOne(s);
      SentOneKeeps(s);
      SentOneCuts(s);
      SentOneSlots(s);
      OutstandingCounts(s);
      OutstandingCounts(s');
      DrainedOutstanding(s');
    }
  }

  // Outstanding counts the frames in the window and those the queue will make, so
  // sending some of the latter leaves it as it was.
  lemma KickedOutstanding(s: St)
    requires InStep(s) && ConfigOk(s.cfg) && WindowOk(s)
    ensures Kicked(s).cfg.paclen >= 1
    ensures OutstandingOf(Kicked(s)) == OutstandingOf(s) == |InWindow(s)| + |Cuts(s.txBuf, s.cfg.paclen)|
  {
    hide OutstandingOf, Drained;
    OutstandingCounts(s);
    if !s.v.cond.peerRxBusy {
      DrainedOutstanding(s);
      var d := Drained(s);
      OutstandingCounts(d);
      OutstandingCounts(Settled(d, CanSend(s)));
    }
  }
}
