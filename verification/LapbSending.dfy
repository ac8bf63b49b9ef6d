// What a session sends of what it has taken in: which octets go out, under which numbers,
// when they go out again, and that nothing the window allows is held back.

module LapbSending {
  import opened Common
  import opened Control
  import opened Frames
  import opened Ring
  import opened LapbSpec
  import opened LapbRing
  import opened LapbInvariants
  import opened LapbDirection
  import opened LapbArrives
  import opened LapbReceive
  import opened LapbEnquiry
  import opened LapbRuns
  import LapbIncidents
  import LapbKick

  lemma {:induction false} PayloadConcat(p: seq<Frame>, q: seq<Frame>)
    ensures Payload(p + q) == Payload(p) + Payload(q)
  {
    if p == [] {
      assert p + q == q;
    } else {
      assert (p + q)[1..] == p[1..] + q;
      PayloadConcat(p[1..], q);
      var head := if IsI(p[0]) then p[0].info else [];
      assert head + (Payload(p[1..]) + Payload(q)) == (head + Payload(p[1..])) + Payload(q);
    }
  }

  lemma SentOnePayload(s: St)
    requires Base(s) && CanSend(s) && ConfigOk(s.cfg)
    ensures s.tx <= SentOne(s).tx && Payload(Sent(s, SentOne(s))) + SentOne(s).txBuf == s.txBuf
  {
    var n := ChunkLen(s);
    var f := DataFrame(s, s.txBuf[..n]);
    SentOneFlows(s);
    assert Sent(s, SentOne(s)) == [f] && [f][1..] == [] && Payload([]) == [];
    assert s.txBuf[..n] + s.txBuf[n..] == s.txBuf;
  }

  // What a kick sends and what it leaves queued are what was queued.
  lemma {:induction false} DrainPayload(s: St)
    requires Base(s) && ConfigOk(s.cfg) && WindowOk(s)
    ensures s.tx <= Drained(s).tx && Payload(Sent(s, Drained(s))) + Drained(s).txBuf == s.txBuf
    decreases |s.txBuf|
  {
    hide SentOne, CanSend, Payload;
    if CanSend(s) {
      var s', d := SentOne(s), Drained(s);
      SentOneKeeps(s);
      SentOnePayload(s);
      DrainPayload(s');
      assert Sent(s, d) == Sent(s, s') + Sent(s', d);
      PayloadConcat(Sent(s, s'), Sent(s', d));
      var p, q := Payload(Sent(s, s')), Payload(Sent(s', d));
      assert (p + q) + d.txBuf == p + (q + d.txBuf);
    } else {
      assert Sent(s, s) == [] && Payload([]) == [] by { NoPayload(); }
      assert [] + s.txBuf == s.txBuf;
    }
  }

  lemma NoPayload()
    ensures Payload([]) == []
  {
  }

  // From here on these I-frames carry queue, in order, under the numbers that follow from;
  // what does not fit the window, or all of it while the peer is busy, stays queued.
  predicate GoesOut(ext: seq<Frame>, from: U8, queue: seq<U8>, t: St) {
    && from < 8 && t.v.vs < 8 && t.v.va < 8
    && AllData(ext, t.cfg, t.v.vr) && Numbers(ext) == Slots(from, t.v.vs, 8) && Payload(ext) + t.txBuf == queue
    && (if t.v.cond.peerRxBusy then ext == [] else t.txBuf == [] || D(t.v.va, t.v.vs) == t.cfg.window)
  }

  lemma KickGoesOut(m: St)
    requires Inv(m) && Live(m) && !m.cfg.mod128
    ensures m.tx <= Kicked(m).tx && GoesOut(Sent(m, Kicked(m)), m.v.vs, m.txBuf, Kicked(m))
  {
    hide Drained, Numbers, Payload;
    KickLaw(m);
    KickedKeeps(m);
    KickedWindow(m);
    if m.v.cond.peerRxBusy {
      NoPayload();
      NoNumbers();
      assert Sent(m, m) == [];
    } else {
      DrainedKeeps(m);
      DrainFlows(m);
      DrainPayload(m);
    }
  }

  // On top of frames sent before the kick.
  lemma AfterGoesOut(s: St, m: St, before: seq<Frame>)
    requires Inv(m) && Live(m) && !m.cfg.mod128 && m.tx == s.tx + before
    ensures var t := Kicked(m);
            s.tx <= t.tx && |before| <= |Sent(s, t)| && GoesOut(Sent(s, t)[|before|..], m.v.vs, m.txBuf, t)
  {
    hide GoesOut, Kicked;
    KickGoesOut(m);
    assert Sent(s, Kicked(m))[|before|..] == Sent(m, Kicked(m));
  }

  // Data the operator hands over is taken in and goes out at once as far as it may.
  lemma DataGoesOut(s: St, data: seq<U8>)
    requires Inv(s) && Live(s) && !s.cfg.mod128
    ensures var t := Handled(s, DataTX(data)).st;
            && s.tx <= t.tx && GoesOut(Sent(s, t), s.v.vs, s.txBuf + data, t)
            && t.hist.taken == s.hist.taken + data && t.hist.acked == s.hist.acked
            && t.state == s.state && t.v.va == s.v.va && t.v.vr == s.v.vr && t.obs == s.obs
  {
    hide Kicked, GoesOut;
    TookReady(s, data, false, true, true);
    NothingBefore(s);
    AfterGoesOut(s, Took(s, data), []);
    KickedKeeps(Took(s, data));
  }

  // ----- what is sent again -----

  lemma AckedHolds(s: St, nr: U8)
    requires InStep(s) && nr < M(s) && ValidNR(s, nr)
    ensures Collect(Acked(s, nr).pending, Slots(nr, s.v.vs, M(s))) == Collect(s.pending, Slots(nr, s.v.vs, M(s)))
  {
    hide Cleared;
    AckedSlots(s, nr);
    CollectSame(s.pending, Acked(s, nr).pending, Slots(nr, s.v.vs, M(s)));
  }

  // What is queued once such a frame is settled: on a REJ, what N(R) leaves outstanding
  // comes first.
  function QueuedBy(s: St, f: Frame): seq<U8>
    requires InStep(s) && f.control.nr < M(s)
  {
    if IsREJ(f) then Collect(s.pending, Slots(f.control.nr, s.v.vs, M(s))) + s.txBuf else s.txBuf
  }

  lemma BeforeKickQueues(s: St, f: Frame)
    requires Inv(s) && Live(s) && Carries(s, f)
    ensures BeforeKick(s, f).txBuf == QueuedBy(s, f)
  {
    hide Cleared, SentStatus, Collect, Slots;
    var p := WithPeerBusy(s, f.control.kind.FrameRNR?);
    var q := if Final(s, f) then p.(v := p.v.(n2Count := 0)) else AnsweredPoll(p, f);
    AnsweredIs(p, f);
    hide AnsweredPoll;
    assert q.v.va == s.v.va && q.v.vs == s.v.vs && q.pending == s.pending && q.txBuf == s.txBuf && q.cfg == s.cfg;
    AckedHolds(q, f.control.nr);
  }

  // After RR the queue goes on where it stopped, and after REJ it starts again with the
  // frame N(R) asks for; RNR stops it.
  lemma BareGoesOn(s: St, f: Frame)
    requires Inv(s) && Live(s) && Carries(s, f) && !s.cfg.mod128
    ensures Admissible(s, FrameRX(Some(f)))
    ensures var t, n := Handled(s, FrameRX(Some(f))).st, |AnswerTo(s, f)|;
            && s.tx <= t.tx && n <= |Sent(s, t)|
            && GoesOut(Sent(s, t)[n..], if IsREJ(f) then f.control.nr else s.v.vs, QueuedBy(s, f), t)
  {
    BeforeKickReady(s, f);
    BeforeKickSettles(s, f);
    BeforeKickQueues(s, f);
    HandledBare(s, f);
    hide Handled, BeforeKick, AnswerTo, GoesOut, QueuedBy;
    AfterGoesOut(s, BeforeKick(s, f), AnswerTo(s, f));
  }

  // ----- the peer setting the link up again -----

  lemma UAIs(s: St, pf: bool)
    ensures SentU(s, FrameUA, pf, false) == s.(tx := s.tx + [Unnumbered(s.cfg, FrameUA, pf, false)])
  {
  }

  lemma ReboundIs(s: St, mod128: bool, pf: bool)
    requires InStep(s) && Reaches(s.v.va, s.v.vs, Modulus(mod128))
    ensures Rebound(s, mod128, pf).tx == s.tx + [Unnumbered(s.cfg, FrameUA, pf, false)]
  {
    hide Slots, Cleared, Collect, SentU;
    var s1 := Requeued(WithModulus(s, mod128));
    UAIs(s1.(v := ZERO_VARS, on := s1.on.(t1 := false, t2 := false, t3 := true)), pf);
  }

  // SABM or SABME as a command: UA with F as P comes first, every number and condition
  // starts from zero in the modulus asked for and its window, T1 covers what goes out
  // anew and T3 an idle link.
  lemma PeerRestarts(s: St, f: Frame)
    requires Inv(s) && Live(s) && Rebinds(f) && Admissible(s, FrameRX(Some(f)))
    ensures var t := Handled(s, FrameRX(Some(f))).st;
            && Followed([Unnumbered(s.cfg, FrameUA, f.control.pf, false)], s.(cfg := t.cfg), t, 0)
            && t.state == Connected && t.v == ZERO_VARS.(vs := t.v.vs)
            && t.cfg == s.cfg.(mod128 := f.control.kind.FrameSABME?,
                               window := if f.control.kind.FrameSABME? then 32 else 2)
            && t.on.t1 == (t.v.vs != 0) && !t.on.t2 && t.on.t3 == (t.v.vs == 0) && !t.terminated
            && t.obs == s.obs + (if s.state == Connected then [] else [StateChange(Connected), LinkStats])
  {
    var m := WithState(Rebound(s, f.control.kind.FrameSABME?, f.control.pf), Connected);
    hide Rebound, Kicked, Handled, Followed, Unnumbered, Inv, Reaches;
    RestartedIs(s, f);
    HandledRebind(s, f);
    KickStopsT2(m) by { InvLive(m); }
    KickAfter(s.(cfg := m.cfg), m, [Unnumbered(s.cfg, FrameUA, f.control.pf, false)]);
  }

  // The state a SABM(E) leaves before the kick.
  lemma RestartedIs(s: St, f: Frame)
    requires Inv(s) && Live(s) && Rebinds(f) && Admissible(s, FrameRX(Some(f)))
    ensures var mod128 := f.control.kind.FrameSABME?;
            var m := WithState(Rebound(s, mod128, f.control.pf), Connected);
            && Inv(m) && Live(m) && m.v == ZERO_VARS && m.cfg == WithModulus(s, mod128).cfg && !m.terminated
            && m.tx == s.tx + [Unnumbered(s.cfg, FrameUA, f.control.pf, false)]
            && !m.on.t1 && !m.on.t2 && m.on.t3
            && m.obs == s.obs + (if s.state == Connected then [] else [StateChange(Connected), LinkStats])
  {
    var mod128 := f.control.kind.FrameSABME?;
    var r := Rebound(s, mod128, f.control.pf);
    ReboundRest(s, mod128, f.control.pf);
    ReboundIs(s, mod128, f.control.pf);
    ReboundReady(s, mod128, f.control.pf, false);
    hide Rebound;
    assert r.obs + [] == r.obs;
  }

  lemma HandledRebind(s: St, f: Frame)
    requires Inv(s) && Live(s) && Rebinds(f) && Admissible(s, FrameRX(Some(f)))
    ensures var r := Rebound(s, f.control.kind.FrameSABME?, f.control.pf);
            RingOk(WithState(r, Connected)) && Handled(s, FrameRX(Some(f))).st == Kicked(WithState(r, Connected))
  {
    ReboundRest(s, f.control.kind.FrameSABME?, f.control.pf);
    hide Rebound, Handled, Kicked, ConnectedFrame, RecoveryFrame;
    LiveFrame(s, f);
    FrameRebind(s, f);
  }

  lemma FrameRebind(s: St, f: Frame)
    requires InStep(s) && Rebinds(f) && Admissible(s, FrameRX(Some(f)))
    ensures var r := Rebound(s, f.control.kind.FrameSABME?, f.control.pf);
            && RingOk(WithState(r, Connected))
            && (s.state == Connected ==> ConnectedFrame(s, f) == Kicked(WithState(r, Connected)))
            && (s.state == TimerRecovery ==> RecoveryFrame(s, f) == Kicked(WithState(r, Connected)))
  {
    hide Rebound, Kicked, ConnectedStatus, ConnectedReject, Information, RecoveryStatus, RecoveryReject, PeerDISC,
      TornDown, Reestablished;
    ReboundRest(s, f.control.kind.FrameSABME?, f.control.pf);
  }

  // In modulo 8 what was outstanding goes out again, from number 0, before the queue.
  lemma RestartGoesOn(s: St, f: Frame)
    requires Inv(s) && Live(s) && Rebinds(f) && Admissible(s, FrameRX(Some(f))) && f.control.kind.FrameSABM?
    ensures var t := Handled(s, FrameRX(Some(f))).st;
            && s.tx <= t.tx && 1 <= |Sent(s, t)|
            && GoesOut(Sent(s, t)[1..], 0, Collect(s.pending, Slots(s.v.va, s.v.vs, 8)) + s.txBuf, t)
  {
    var r := Rebound(s, false, f.control.pf);
    ReboundRest(s, false, f.control.pf);
    ReboundIs(s, false, f.control.pf);
    ReboundReady(s, false, f.control.pf, false);
    HandledRebind(s, f);
    hide Rebound, Kicked, Handled, GoesOut;
    AfterGoesOut(s, WithState(r, Connected), [Unnumbered(s.cfg, FrameUA, f.control.pf, false)]);
  }

  // ----- nothing is held back -----

  // What is queued waits for the window or for a busy peer.
  predicate NoneHeld(t: St) {
    Live(t) ==> t.v.cond.peerRxBusy || t.txBuf == [] || Dist(t.v.va, t.v.vs, M(t)) == t.cfg.window
  }

  lemma KickedNone(m: St)
    requires Inv(m) && Live(m)
    ensures NoneHeld(Kicked(m))
  {
    hide Kicked;
    KickedKeeps(m);
    KickedWindow(m);
  }

  // The events that do nothing to the queue: housekeeping, and a CONNECTED session's T1
  // and T3.
  predicate Idles(s: St, ev: Event) {
    ev.Shutdown? || ev.Heartbeat? || ev.StatsTick? || (s.state == Connected && (ev.T1Expiry? || ev.T3Expiry?))
  }

  lemma InformationNone(s: St, f: Frame)
    requires Inv(s) && Live(s) && IsI(f) && Admissible(s, FrameRX(Some(f)))
    ensures NoneHeld(Handled(s, FrameRX(Some(f))).st)
  {
    HandledInformation(s, f);
    hide Handled, Kicked, Acked, Received, Reestablished;
    if Usable(s, f) {
      AckedFirst(s, f);
      KickedNone(Received(Acked(s, f.control.nr), f));
    } else {
      ReestablishedOwes(s);
    }
  }

  lemma FrameNone(s: St, f: Frame)
    requires Inv(s) && Live(s) && Admissible(s, FrameRX(Some(f)))
    ensures NoneHeld(Handled(s, FrameRX(Some(f))).st)
  {
    hide Handled, BeforeKick, Rebound, NoneHeld, Kicked;
    if IsI(f) {
      InformationNone(s, f);
    } else if Carries(s, f) {
      BeforeKickReady(s, f);
      HandledBare(s, f);
      KickedNone(BeforeKick(s, f));
    } else if Rebinds(f) {
      HandledRebind(s, f);
      ReboundReady(s, f.control.kind.FrameSABME?, f.control.pf, false);
      KickedNone(WithState(Rebound(s, f.control.kind.FrameSABME?, f.control.pf), Connected));
    } else if Unexpected(s, f) {
      UnexpectedRestarts(s, f);
      DownNone(Handled(s, FrameRX(Some(f))).st);
    } else {
      EndNone(s, f);
    }
  }

  lemma DownNone(t: St)
    requires !Live(t)
    ensures NoneHeld(t)
  {
  }

  // What is left: DM, DISC, and a SABM(E) that is no command.
  lemma EndNone(s: St, f: Frame)
    requires Inv(s) && Live(s) && Admissible(s, FrameRX(Some(f)))
    requires !IsI(f) && !BareNR(f) && !Rebinds(f) && !Unexpected(s, f)
    ensures NoneHeld(Handled(s, FrameRX(Some(f))).st)
  {
    hide Kicked, SentU, NoQueues, NoTimers, Handled, ConnectedFrame, RecoveryFrame;
    LiveFrame(s, f);
    KickedNone(s);
    EndFrame(s, f);
  }

  lemma EndFrame(s: St, f: Frame)
    requires InStep(s) && Admissible(s, FrameRX(Some(f)))
    requires !IsI(f) && !BareNR(f) && !Rebinds(f) && !Unexpected(s, f)
    ensures var t := if s.state == Connected then ConnectedFrame(s, f) else RecoveryFrame(s, f);
            t == Kicked(s) || !Live(t)
  {
    hide Kicked, SentU, NoQueues, NoTimers;
  }

  lemma LocalNone(s: St, ev: Event)
    requires Inv(s) && Live(s) && !(ev.FrameRX? && ev.frame.Some?) && !Idles(s, ev)
    ensures NoneHeld(Handled(s, ev).st)
  {
    hide Kicked, FlushedAck, Took, SentU, NoQueues, NoneHeld;
    KickedNone(s);
    match ev
    case DataTX(data) =>
      TookReady(s, data, false, true, true);
      KickedNone(Took(s, data));
    case T2Expiry =>
      FlushedAckReady(s, false, true, true);
      KickedNone(FlushedAck(s));
    case T1Expiry => AgainNone(s);
    case Disconnect => ReleasingNone(s);
    case Abort => ReleasingNone(s);
    case _ =>
  }

  lemma ReleasingNone(s: St)
    ensures NoneHeld(Releasing(s))
  {
  }

  lemma AgainNone(s: St)
    requires Inv(s) && s.state == TimerRecovery
    ensures NoneHeld(EnquiredAgain(s))
  {
    if s.v.n2Count < s.cfg.n2 {
      AskedAgainIs(s);
      hide Kicked, Enquired;
      KickedNone(AskedAgain(s));
    } else {
      hide SentU, NoQueues;
    }
  }

  // Every event on a live link, but for those above, leaves nothing unsent that the
  // window allows and the peer can take.
  lemma NothingHeldBack(s: St, ev: Event)
    requires Inv(s) && Live(s) && Admissible(s, ev) && !Idles(s, ev)
    ensures NoneHeld(Handled(s, ev).st)
  {
    hide Handled, NoneHeld, Admissible;
    if ev.FrameRX? && ev.frame.Some? {
      FrameNone(s, ev.frame.value);
    } else {
      LocalNone(s, ev);
    }
  }

  // ----- modulo 128 -----

  // How many of these numbers the modulo-8 form of a frame can carry.
  function Low(numbers: seq<int>): nat {
    if numbers == [] then 0 else (if numbers[0] < 8 then 1 else 0) + Low(numbers[1..])
  }

  lemma {:induction false} LowIff(numbers: seq<int>)
    ensures Low(numbers) <= |numbers|
    ensures Low(numbers) == |numbers| <==> forall i | 0 <= i < |numbers| :: numbers[i] < 8
  {
    if numbers != [] {
      LowIff(numbers[1..]);
      assert forall i | 1 <= i < |numbers| :: numbers[1..][i - 1] == numbers[i];
    }
  }

  lemma SentOneOnAir(s: St)
    requires InStep(s) && CanSend(s) && ConfigOk(s.cfg)
    ensures s.tx <= SentOne(s).tx && |Sent(s, SentOne(s))| == (if s.v.vr < 8 && s.v.vs < 8 then 1 else 0)
    ensures SentOne(s).v.vs == Ring.Next(s.v.vs, M(s)) && SentOne(s).v.vr == s.v.vr
  {
    hide Submitted;
    var n := ChunkLen(s);
    var f := DataFrame(s, s.txBuf[..n]);
    SubmittedIs(s.(txBuf := s.txBuf[n..], pending := s.pending[s.v.vs := Some(f)]), f);
  }

  lemma {:induction false} DrainOnAir(s: St)
    requires InStep(s) && ConfigOk(s.cfg) && WindowOk(s)
    ensures s.tx <= Drained(s).tx && Drained(s).v.vs < M(s)
    ensures |Sent(s, Drained(s))| == if s.v.vr < 8 then Low(Slots(s.v.vs, Drained(s).v.vs, M(s))) else 0
    decreases |s.txBuf|
  {
    hide SentOne, CanSend, WindowOk;
    if CanSend(s) {
      var s', d := SentOne(s), Drained(s);
      SentOneKeeps(s);
      SentOneOnAir(s);
      DrainedFurther(s);
      DrainOnAir(s');
      assert s.v.vs != d.v.vs;
      assert |Sent(s, d)| == |Sent(s, s')| + |Sent(s', d)|;
      var rest := Slots(s'.v.vs, d.v.vs, M(s));
      assert ([s.v.vs as int] + rest)[1..] == rest;
    }
  }

  // All a kick cuts goes out exactly when N(R) and every number it uses are below 8; a
  // frame with a greater one is dropped, whatever the modulus, and V(S) moves on.
  lemma AllOnAirIff(s: St)
    requires InStep(s) && ConfigOk(s.cfg) && WindowOk(s)
    ensures var t := Kicked(s);
            && t.v.vs < M(s) && s.tx <= t.tx
            && var cut := Slots(s.v.vs, t.v.vs, M(s));
               |Sent(s, t)| == |cut| <==> cut == [] || (s.v.vr < 8 && forall i | 0 <= i < |cut| :: cut[i] < 8)
  {
    hide Drained, WindowOk;
    if !s.v.cond.peerRxBusy {
      DrainedKeeps(s);
      DrainOnAir(s);
      LowIff(Slots(s.v.vs, Drained(s).v.vs, M(s)));
    }
  }

  lemma LowNine()
    ensures Low(Slots(0, 9, 128)) == 8
  {
    hide Slots, Low;
    SlotsSnoc(0, 8, 128);
    SlotsShape(0, 8, 128);
    LowIff(Slots(0, 8, 128));
    LowSplit(Slots(0, 8, 128), [8]);
    LowEight();
  }

  lemma LowEight()
    ensures Low([8]) == 0
  {
    assert [8][1..] == [];
  }

  lemma {:induction false} LowSplit(p: seq<int>, q: seq<int>)
    ensures Low(p + q) == Low(p) + Low(q)
  {
    if p == [] {
      assert p + q == q;
    } else {
      assert (p + q)[1..] == p[1..] + q;
      LowSplit(p[1..], q);
    }
  }

  lemma NineCut(s: St, c: Config, data: seq<U8>)
    requires LapbIncidents.Idle(s, c) && Inv(s) && c.mod128 && c.window >= 9 && |LapbKick.Cuts(data, c.paclen)| == 9
    ensures var t := Handled(s, DataTX(data)).st;
            t.v.va == 0 && t.v.vs == 9 && s.tx <= t.tx && |Sent(s, t)| == 8
  {
    LapbIncidents.NineSent(s, c, data);
    LapbIncidents.DataKicks(s, data);
    TookIdle(s, c, data);
    hide Handled, Kicked, Drained, LapbKick.Cuts, Low, WindowOk, Inv;
    var m := Took(s, data);
    KickedIsDrained(m);
    DrainOnAir(m);
    LowNine();
  }

  lemma TookIdle(s: St, c: Config, data: seq<U8>)
    requires LapbIncidents.Idle(s, c) && Inv(s)
    ensures var m := Took(s, data);
            && InStep(m) && ConfigOk(m.cfg) && WindowOk(m) && m.v == s.v && m.cfg == c && m.tx == s.tx
  {
    assert Slots(s.v.va, s.v.vs, M(s)) == [];
  }

  lemma KickedIsDrained(m: St)
    requires InStep(m) && !m.v.cond.peerRxBusy
    ensures Kicked(m).tx == Drained(m).tx && Kicked(m).v.vs == Drained(m).v.vs
  {
    hide Drained;
  }

  // A run from a new modulo-128 session: of nine frames the ninth never goes out, though
  // the session counts it as sent.
  lemma NinthNeverSent(c: Config) returns (tr: seq<LapbRuns.System>, acts: seq<Action>)
    requires ConfigOk(c) && c.mod128 && c.window >= 9
    ensures |tr| >= 2 && Run(tr, acts)
    ensures var s, t := tr[|tr| - 2].s, tr[|tr| - 1].s;
            s.v.vs == 0 && t.v.va == 0 && t.v.vs == 9 && s.tx <= t.tx && |Sent(s, t)| == 8
  {
    hide Handled;
    var before: seq<LapbRuns.System>;
    before, acts := LapbIncidents.Established(c);
    var a := LapbIncidents.Last(before);
    hide Run;
    ReachableGood(before, acts, |before| - 1);
    var data := LapbIncidents.NinePieces(c.paclen);
    NineCut(a.s, c, data);
    tr, acts := LapbIncidents.TakesEvent(before, acts, DataTX(data));
  }
}
