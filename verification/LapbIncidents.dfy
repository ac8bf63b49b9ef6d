// Runs from a new session into the states where the session falls short of what it is
// for: a link nothing watches, a loop that does not stop, a link that has lost bytes.

module LapbIncidents {
  import opened Common
  import opened Control
  import opened Frames
  import opened Ring
  import opened LapbSpec
  import opened LapbRing
  import opened LapbInvariants
  import opened LapbRuns
  import opened LapbGiveUp
  import LapbKick
  import LapbTimes
  import LapbNotices

  const NONE_DUE := Timers(false, false, false, false, false)

  function Last(tr: seq<System>): System
    requires tr != []
  {
    tr[|tr| - 1]
  }

  lemma Extended(tr: seq<System>, acts: seq<Action>, act: Action, b: System)
    requires Run(tr, acts) && LapbRuns.Next(Last(tr), act, b)
    ensures Run(tr + [b], acts + [act]) && Last(tr + [b]) == b
  {
    hide LapbRuns.Next;
  }

  // The run loop takes one event in any state of a run.
  lemma TakesEvent(tr: seq<System>, acts: seq<Action>, ev: Event) returns (tr': seq<System>, acts': seq<Action>)
    requires Run(tr, acts) && !Last(tr).s.terminated && !IsTimerEvent(ev)
    requires RingOk(Last(tr).s) && Admissible(Last(tr).s, ev)
    ensures Run(tr', acts') && Last(tr').due == Last(tr).due && Last(tr').s.cfg.paclen >= 1
    ensures Handled(Last(tr).s, ev).st.cfg.paclen >= 1 && Last(tr').s == Synced(Handled(Last(tr).s, ev).st)
    ensures acts' == acts + [Take(ev)] && tr <= tr' && |tr'| == |tr| + 1
  {
    hide Handled, Admissible;
    var a := Last(tr);
    ReachableGood(tr, acts, |tr| - 1);
    HandledHealthy(a.s, ev, false, true, true);
    var b := System(Synced(Handled(a.s, ev).st), a.due);
    Extended(tr, acts, Take(ev), b);
    tr', acts' := tr + [b], acts + [Take(ev)];
  }

  // A frame the peer sends: a response with these fields.
  function Response(c: Config, kind: FrameKind, nr: U8, pf: bool): Frame {
    Frame(c.peer, c.local, c.path, Control(kind, 0, nr, pf), 0, [], false, false)
  }

  function Command(c: Config, kind: FrameKind, pf: bool): Frame {
    Response(c, kind, 0, pf).(isCommand := true)
  }

  // A link just confirmed, idle.
  predicate Idle(s: St, c: Config) {
    && s.state == Connected && s.cfg == c && s.v == ZERO_VARS && s.txBuf == [] && |s.pending| == RING_SIZE
    && !s.on.t1 && s.on.t3 && !s.terminated && s.hist == Hist([], [])
  }

  lemma CalledOut(c: Config)
    requires ConfigOk(c)
    ensures var s := Handled(NewSession(c), Connect).st;
            && s.state == AwaitingConnection && s.cfg == c && s.v == ZERO_VARS && s.txBuf == []
            && |s.pending| == RING_SIZE && !s.terminated && s.hist == Hist([], [])
  {
    hide SentSABM;
  }

  lemma Established(c: Config) returns (tr: seq<System>, acts: seq<Action>)
    requires ConfigOk(c)
    ensures Run(tr, acts) && Idle(Last(tr).s, c) && Last(tr).due == NONE_DUE
  {
    hide NewSession, Handled;
    tr, acts := [System(NewSession(c), NONE_DUE)], [];
    assert NewSession(c).cfg == c && RingOk(NewSession(c)) && !NewSession(c).terminated && !Live(NewSession(c)) by {
      NewIs(c);
    }
    assert Run(tr, acts);
    CalledOut(c);
    tr, acts := TakesEvent(tr, acts, Connect);
    var s := Last(tr).s;
    var ua := Response(c, FrameUA, 0, true);
    assert RingOk(s) && !Live(s);
    UpAfterUA(s, ua);
    tr, acts := TakesEvent(tr, acts, FrameRX(Some(ua)));
  }

  lemma NewIs(c: Config)
    requires ConfigOk(c)
    ensures var s := NewSession(c); s.cfg == c && RingOk(s) && !s.terminated && !Live(s)
  {
  }

  lemma UpAfterUA(s: St, ua: Frame)
    requires s.state == AwaitingConnection && RingOk(s) && ua.control.kind.FrameUA? && ua.control.pf && !s.terminated
    requires s.v == ZERO_VARS && s.txBuf == [] && s.hist == Hist([], [])
    ensures var t := Handled(s, FrameRX(Some(ua))).st; t.cfg.paclen >= 1 && Idle(Synced(t), s.cfg)
  {
  }

  // ----- nothing watches the link -----

  // T3 sends an idle link into TIMER_RECOVERY.
  lemma Enquiring(c: Config) returns (tr: seq<System>, acts: seq<Action>)
    requires ConfigOk(c)
    ensures Run(tr, acts) && Last(tr).due == NONE_DUE && !Last(tr).s.terminated
    ensures var s := Last(tr).s;
            s.state == TimerRecovery && s.cfg == c && s.v.vs == s.v.va == 0 && s.txBuf == [] && RingOk(s)
  {
    tr, acts := Established(c);
    var a := Last(tr);
    var b := System(a.s.(on := a.s.on.(t3 := false)), NONE_DUE.(t3 := true));
    Extended(tr, acts, FireT3, b);
    tr, acts := tr + [b], acts + [FireT3];
    hide Run;
    EnquiryAfterT3(b.s);
    var d := System(Synced(Handled(b.s, T3Expiry).st), NONE_DUE);
    assert LapbRuns.Next(b, HandleT3, d);
    Extended(tr, acts, HandleT3, d);
    tr, acts := tr + [d], acts + [HandleT3];
  }

  lemma EnquiryAfterT3(s: St)
    requires s.state == Connected && RingOk(s) && s.v == ZERO_VARS && !s.terminated
    ensures var t := Handled(s, T3Expiry).st;
            && t.cfg.paclen >= 1 && t.state == TimerRecovery && t.cfg == s.cfg && t.v.vs == t.v.va == 0
            && t.txBuf == s.txBuf && |t.pending| == RING_SIZE && t.v.vr == s.v.vr && !t.terminated
  {
    hide SentStatus;
  }

  lemma FrameTakenIs(s: St, f: Frame)
    requires s.state == TimerRecovery && InStep(s) && Admissible(s, FrameRX(Some(f)))
    ensures Handled(s, FrameRX(Some(f))).st == RecoveryFrame(s, f)
  {
    hide RecoveryFrame;
  }

  lemma StallsSynced(s: St)
    requires s.cfg.paclen >= 1
    ensures Stalled(Synced(s)) <==> Stalled(s)
    ensures Synced(s).txBuf == s.txBuf && Synced(s).v == s.v
  {
  }

  // An RR that does not answer the enquiry, a late one or the peer's own, stalls an
  // idle link.
  lemma QuietStall(c: Config) returns (tr: seq<System>, acts: seq<Action>)
    requires ConfigOk(c)
    ensures Run(tr, acts) && Stalled(Last(tr).s) && !Last(tr).due.t1
  {
    tr, acts := Enquiring(c);
    hide Run, Handled, Stalled, RecoveryFrame;
    var s, rr := Last(tr).s, Response(c, FrameRR, 0, false);
    ReachableGood(tr, acts, |tr| - 1);
    StallsIff(s, rr);
    FrameTakenIs(s, rr);
    tr, acts := TakesEvent(tr, acts, FrameRX(Some(rr)));
    StallsSynced(RecoveryFrame(s, rr));
  }

  // An RNR does the same to a link with bytes to send, which then sit in the queue.
  lemma BusyStall(c: Config, data: seq<U8>) returns (tr: seq<System>, acts: seq<Action>)
    requires ConfigOk(c)
    ensures Run(tr, acts) && Stalled(Last(tr).s) && !Last(tr).due.t1
    ensures Last(tr).s.txBuf == data && Last(tr).s.v.cond.peerRxBusy
  {
    tr, acts := Enquiring(c);
    hide Run, Handled, RecoveryFrame;
    var s := Last(tr).s;
    var rnr := Response(c, FrameRNR, 0, false);
    ReachableGood(tr, acts, |tr| - 1);
    StallsIff(s, rnr);
    FrameTakenIs(s, rnr);
    BusyAfterRNR(s, rnr);
    tr, acts := TakesEvent(tr, acts, FrameRX(Some(rnr)));
    var t := Last(tr).s;
    ReachableGood(tr, acts, |tr| - 1);
    QueuedOnly(t, data);
    tr, acts := TakesEvent(tr, acts, DataTX(data));
  }

  lemma BusyAfterRNR(s: St, f: Frame)
    requires s.state == TimerRecovery && InStep(s) && f.control.kind.FrameRNR? && f.control.nr == s.v.vs == s.v.va
    requires !IsFinal(f) && !f.isCommand && Admissible(s, FrameRX(Some(f))) && s.txBuf == []
    ensures var t := RecoveryFrame(s, f); t.v.cond.peerRxBusy && t.txBuf == [] && !t.terminated == !s.terminated
  {
  }

  lemma QueuedOnly(s: St, data: seq<U8>)
    requires Stalled(s) && InStep(s) && s.v.cond.peerRxBusy && s.txBuf == [] && !s.terminated
    ensures var t := Handled(s, DataTX(data)).st;
            t == Took(s, data) && t.txBuf == data && t.cfg.paclen >= 1 && Stalled(Synced(t))
  {
    assert [] + data == data;
  }

  // ----- loops that do not stop -----

  lemma NinePieces(paclen: int) returns (data: seq<U8>)
    requires paclen >= 1
    ensures |LapbKick.Cuts(data, paclen)| == 9
  {
    data := seq(9 * paclen, i => 0);
    LapbKick.CutsShape(data, paclen);
    var n := 9 * paclen + paclen - 1;
    assert (n / paclen) * paclen + n % paclen == n;
    LapbKick.QuotientIs(n / paclen, n % paclen, 9, paclen - 1, paclen);
  }

  lemma {:induction false} DrainedNumber(s: St)
    requires InStep(s) && ConfigOk(s.cfg) && WindowOk(s)
    ensures InStep(Drained(s)) && Drained(s).v.va == s.v.va && Drained(s).cfg == s.cfg
    ensures Dist(s.v.va, Drained(s).v.vs, M(s)) == Dist(s.v.va, s.v.vs, M(s)) + LapbKick.ToSend(s)
    decreases |s.txBuf|
  {
    hide SentOne;
    LapbKick.ToSendZero(s);
    if CanSend(s) {
      SentOneKeeps(s);
      LapbKick.SentOneCuts(s);
      DrainedNumber(SentOne(s));
    }
  }

  lemma NineSent(s: St, c: Config, data: seq<U8>)
    requires Idle(s, c) && Inv(s) && c.window >= 9 && |LapbKick.Cuts(data, c.paclen)| == 9
    ensures var t := Handled(s, DataTX(data)).st; t.cfg == c && t.state == Connected && t.v.va == 0 && t.v.vs == 9
  {
    hide Drained, LapbKick.Cuts;
    assert [] + data == data;
    var k := Took(s, data);
    assert Slots(k.v.va, k.v.vs, M(k)) == [];
    DrainedNumber(k);
    DrainedKeeps(k);
  }

  // A modulo-128 link with V(A) = 0 and V(S) = 9: the peer's SABM switches it to
  // modulo 8, and the loop that then requeues from 0 to 9 never gets there.
  lemma RebindHangs(c: Config) returns (tr: seq<System>, acts: seq<Action>)
    requires ConfigOk(c) && c.mod128 && c.window >= 9
    ensures Run(tr, acts)
    ensures var s := Last(tr).s;
            && s.state == Connected && M(s) == 128 && s.v.va == 0 && s.v.vs == 9
            && !Admissible(s, FrameRX(Some(Command(c, FrameSABM, true))))
            && !Ends(s.v.va, s.v.vs, 8)
  {
    hide Handled;
    tr, acts := Established(c);
    var s := Last(tr).s;
    ReachableGood(tr, acts, |tr| - 1);
    var data := NinePieces(c.paclen);
    NineSent(s, c, data);
    tr, acts := TakesEvent(tr, acts, DataTX(data));
    hide Run;
    LoopStopsIff(0, 9, 8);
  }

  // The other loop: a frame decoded in modulo 128 and still queued when the peer's SABM
  // makes the link modulo 8. Its N(R) of 8 passes the test the session makes, the
  // wrapped subtraction giving 0, and the loop that frees slots up to it never ends.
  lemma AcknowledgementHangs(c: Config) returns (tr: seq<System>, acts: seq<Action>)
    requires ConfigOk(c) && c.mod128
    ensures Run(tr, acts)
    ensures var s := Last(tr).s;
            && s.state == Connected && M(s) == 8
            && U8Dist(s.v.va, 8, 8) <= U8Dist(s.v.va, s.v.vs, 8)
            && !Admissible(s, FrameRX(Some(Response(c, FrameRR, 8, false))))
            && !Ends(s.v.va, 8, 8)
  {
    hide Handled;
    tr, acts := Established(c);
    var s, sabm := Last(tr).s, Command(c, FrameSABM, true);
    ReboundIdle(s, c, sabm);
    tr, acts := TakesEvent(tr, acts, FrameRX(Some(sabm)));
    hide Run;
    LoopStopsIff(0, 8, 8);
  }

  lemma ReboundIdle(s: St, c: Config, f: Frame)
    requires Idle(s, c) && ConfigOk(c) && f == Command(c, FrameSABM, true)
    ensures Admissible(s, FrameRX(Some(f)))
    ensures var t := Handled(s, FrameRX(Some(f))).st; t.state == Connected && !t.cfg.mod128 && t.v == ZERO_VARS
  {
    hide Rebound;
    ReboundRest(s, false, true);
    assert Slots(0, 0, 8) == [];
    assert Collect(s.pending, []) + s.txBuf == [];
    IdleKick(Rebound(s, false, true));
  }

  // ----- a link that has lost bytes -----

  lemma DataKicks(s: St, data: seq<U8>)
    requires s.state == Connected && InStep(s)
    ensures Handled(s, DataTX(data)).st == Kicked(Took(s, data))
  {
    hide Kicked;
  }

  lemma KickSends(s: St)
    requires InStep(s) && ConfigOk(s.cfg) && WindowOk(s) && s.txBuf != [] && s.v.vs == s.v.va && !s.v.cond.peerRxBusy
    ensures var t := Kicked(s);
            t.state == s.state && t.v.vs != t.v.va && t.cfg == s.cfg && t.terminated == s.terminated
  {
    hide Drained;
    DrainedGrows(s);
    DrainedKeeps(s);
  }

  lemma SomethingSent(s: St, c: Config, data: seq<U8>)
    requires Idle(s, c) && Inv(s) && data != []
    ensures var t := Handled(s, DataTX(data)).st; t.state == Connected && t.v.vs != t.v.va && t.cfg == c && !t.terminated
  {
    hide Handled, Kicked;
    assert [] + data == data;
    DataKicks(s, data);
    var k := Took(s, data);
    assert Slots(k.v.va, k.v.vs, M(k)) == [];
    KickSends(k);
  }

  lemma IdleBalances(s: St, c: Config)
    requires Idle(s, c) && Inv(s)
    ensures Conserved(s)
  {
    assert InWindow(s) == [];
    assert Collect(s.pending, []) == [];
  }

  // The operator sends something; before it is acknowledged the peer sends a FRMR, and
  // confirms the SABM that answers it. What was outstanding is gone.
  lemma LostOnReestablish(c: Config, data: seq<U8>) returns (tr: seq<System>, acts: seq<Action>)
    requires ConfigOk(c) && data != []
    ensures Run(tr, acts) && Last(tr).s.state == Connected && RingOk(Last(tr).s) && !Conserved(Last(tr).s)
  {
    hide Handled, Conserved;
    tr, acts := Established(c);
    var s0 := Last(tr).s;
    ReachableGood(tr, acts, |tr| - 1);
    IdleBalances(s0, c);
    SomethingSent(s0, c, data);
    tr, acts := TakesEvent(tr, acts, DataTX(data));
    var s := Last(tr).s;
    ReachableGood(tr, acts, |tr| - 1);
    SentBalances(s0, data);
    var frmr, ua := Response(c, FrameFRMR, 0, false), Response(c, FrameUA, 0, true);
    StartsOver(s, frmr, ua);
    tr, acts := TakesEvent(tr, acts, FrameRX(Some(frmr)));
    hide Run;
    tr, acts := TakesEvent(tr, acts, FrameRX(Some(ua)));
  }

  lemma SentBalances(s: St, data: seq<U8>)
    requires Inv(s) && s.state == Connected && Conserved(s) && !s.terminated
    ensures var t := Handled(s, DataTX(data)).st;
            t.cfg.paclen >= 1 && RingOk(Synced(t)) && (Live(t) ==> Conserved(Synced(t)))
  {
    hide Handled;
    HandledHealthy(s, DataTX(data), true, true, true);
    SyncedHealthy(Handled(s, DataTX(data)).st, true, true, true);
  }

  lemma StartsOver(s: St, frmr: Frame, ua: Frame)
    requires Inv(s) && s.state == Connected && Conserved(s) && s.v.vs != s.v.va && !s.terminated
    requires frmr.control.kind.FrameFRMR? && frmr.control.ns == frmr.control.nr == 0
    requires ua.control.kind.FrameUA? && ua.control.pf && ua.control.ns == ua.control.nr == 0
    ensures Admissible(s, FrameRX(Some(frmr)))
    ensures var t := Handled(s, FrameRX(Some(frmr))).st;
            && t.cfg.paclen >= 1 && RingOk(Synced(t)) && !Live(t) && !t.terminated && Admissible(Synced(t), FrameRX(Some(ua)))
            && var u := Handled(Synced(t), FrameRX(Some(ua))).st;
               u.cfg.paclen >= 1 && u.state == Connected && RingOk(Synced(u)) && !Conserved(Synced(u))
  {
    hide Conserved, Inv, SentSABM;
    ReestablishedKeepsIff(s, ua);
    ReestablishedRest(s);
    InvRing(s);
    var r := Reestablished(s);
    var x := AwaitingConnectionFrame(r, ua);
    var t := Handled(s, FrameRX(Some(frmr))).st;
    assert t == r;
    assert !r.terminated by { StillOn(s); }
    var u := Handled(Synced(t), FrameRX(Some(ua))).st;
    assert Synced(u).(outstanding := 0) == x.(outstanding := 0);
    BalanceIgnores(x, Synced(u));
  }

  lemma StillOn(s: St)
    requires Live(s) && !s.terminated
    ensures !Reestablished(s).terminated
  {
  }

  lemma BalanceIgnores(a: St, b: St)
    requires RingOk(a) && Live(a) && a.(outstanding := 0) == b.(outstanding := 0)
    ensures RingOk(b) && Live(b) && (Conserved(a) <==> Conserved(b))
  {
    SameRingKeeps(a, b);
    SameRingKeeps(b, a);
  }

  // ----- a timeout that falls back -----

  lemma RetriedIs(s: St)
    requires s.state == AwaitingConnection && RingOk(s) && s.v.n2Count < s.cfg.n2 && !s.terminated
    ensures var t := Handled(s, T1Expiry).st;
            && t.cfg == s.cfg && t.state == AwaitingConnection && t.v == s.v.(n2Count := s.v.n2Count + 1)
            && t.on.t1 && !t.terminated && t.pending == s.pending && t.txBuf == s.txBuf
  {
    hide SentSABM;
  }

  // A call that nobody answers, k retries on.
  lemma {:induction false} Retrying(c: Config, k: nat) returns (tr: seq<System>, acts: seq<Action>)
    requires ConfigOk(c) && k <= c.n2
    ensures Run(tr, acts) && Last(tr).due == NONE_DUE
    ensures var s := Last(tr).s;
            s.state == AwaitingConnection && s.cfg == c && s.v.n2Count == k && s.on.t1 && RingOk(s) && !s.terminated
    decreases k
  {
    hide NewSession, Handled;
    if k == 0 {
      tr, acts := [System(NewSession(c), NONE_DUE)], [];
      NewIs(c);
      assert Run(tr, acts);
      CalledOut(c);
      CalledRuns(c);
      tr, acts := TakesEvent(tr, acts, Connect);
    } else {
      tr, acts := Retrying(c, k - 1);
      var a := Last(tr);
      var b := System(a.s.(on := a.s.on.(t1 := false)), NONE_DUE.(t1 := true));
      Extended(tr, acts, FireT1, b);
      tr, acts := tr + [b], acts + [FireT1];
      hide Run;
      RetriedIs(b.s);
      var d := System(Synced(Handled(b.s, T1Expiry).st), NONE_DUE);
      assert LapbRuns.Next(b, HandleT1, d);
      Extended(tr, acts, HandleT1, d);
      tr, acts := tr + [d], acts + [HandleT1];
    }
  }

  lemma CalledRuns(c: Config)
    requires ConfigOk(c)
    ensures Handled(NewSession(c), Connect).st.on.t1
  {
  }

  const MINUTE := 60_000_000_000

  // Nothing has been measured, T1 is set to a minute and the back-off to exponential:
  // after 28 unanswered calls the next one waits a minute, and not four.
  lemma BackoffFallsBack(c: Config) returns (tr: seq<System>, acts: seq<Action>)
    requires ConfigOk(c) && c.n2 >= 28
    ensures Run(tr, acts) && Last(tr).s.state == AwaitingConnection && Last(tr).s.v.n2Count == 28
    ensures LapbTimes.NextT1(0, MINUTE, LapbTimes.Exponential, Last(tr).s.v.n2Count) == MINUTE
    ensures LapbTimes.Documented(LapbTimes.Basis(0, MINUTE), Last(tr).s.v.n2Count) == 4 * MINUTE
  {
    tr, acts := Retrying(c, 28);
    hide Run;
    LapbTimes.WrapsAt28();
  }
}
