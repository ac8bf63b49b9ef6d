// What every event keeps, whatever the peer sends: the window, the operator's bytes,
// the retry budget, and timers enough to notice a lost acknowledgement.

module LapbInvariants {
  import opened Common
  import opened Control
  import opened Frames
  import opened Ring
  import opened LapbSpec
  import opened LapbRing

  // States whose progress hangs on T1.
  predicate NeedsT1(s: St) {
    s.state == AwaitingConnection || s.state == AwaitingRelease || (Live(s) && s.v.vs != s.v.va)
  }

  // T1 runs, or its expiry has been signalled and not yet handled (due).
  predicate T1Safe(s: St, due: bool) {
    NeedsT1(s) ==> s.on.t1 || due
  }

  // An established link always has T1 or T3 on the way.
  predicate Watched(s: St, due: bool) {
    s.state == Connected ==> s.on.t1 || s.on.t3 || due
  }

  // Bytes still owed when `bytes` asks for conservation.
  predicate Bytes(s: St, bytes: bool)
    requires RingOk(s)
  {
    bytes && Live(s) ==> Conserved(s)
  }

  // due1: a T1 expiry is signalled; due13: a T1 or T3 expiry is.
  predicate Healthy(s: St, bytes: bool, due1: bool, due13: bool) {
    Inv(s) && Bytes(s, bytes) && T1Safe(s, due1) && Watched(s, due13)
  }

  // A live state about to be kicked: T1 may be off unless the peer's busyness will
  // keep kick from looking at it.
  predicate Ready(s: St, bytes: bool, due1: bool, due13: bool) {
    && Live(s) && Inv(s) && Bytes(s, bytes) && Watched(s, due13)
    && (s.v.cond.peerRxBusy ==> T1Safe(s, due1))
  }

  // Two live states with the same ring and timers serving the same ends.
  predicate Alike(a: St, b: St) {
    && SameRing(a, b) && b.state == a.state && b.terminated == a.terminated
    && b.v.vr < M(b) && 0 <= b.v.n2Count <= b.cfg.n2
    && b.v.cond.peerRxBusy == a.v.cond.peerRxBusy
    && (a.on.t1 ==> b.on.t1) && (a.on.t3 ==> b.on.t3)
  }

  lemma AlikeReady(a: St, b: St, bytes: bool, due1: bool, due13: bool)
    requires Ready(a, bytes, due1, due13) && Alike(a, b)
    ensures Ready(b, bytes, due1, due13)
  {
    SameRingKeeps(a, b);
  }

  lemma KickedHealthy(s: St, bytes: bool, due1: bool, due13: bool)
    requires Ready(s, bytes, due1, due13)
    ensures Healthy(Kicked(s), bytes, due1, due13) && Kicked(s).state == s.state
  {
    KickedKeeps(s);
  }

  // ----- pieces -----

  // Acknowledging is enough to make T1 safe on its own.
  lemma AckedReady(s: St, nr: U8, bytes: bool, due13: bool)
    requires Live(s) && Inv(s) && Bytes(s, bytes) && nr < M(s) && ValidNR(s, nr)
    ensures Ready(Acked(s, nr), bytes, false, due13)
  {
    hide Slots, Cleared, Collect;
    AckedKeeps(s, nr);
  }

  lemma RequeuedReady(s: St, bytes: bool, due1: bool, due13: bool)
    requires Live(s) && Inv(s) && Bytes(s, bytes)
    ensures var s' := Requeued(s);
            && Live(s') && Inv(s') && Bytes(s', bytes) && T1Safe(s', due1) && s'.v.vs == s'.v.va
            && s'.state == s.state && s'.on == s.on && s'.v.cond == s.v.cond
  {
    hide Slots, Cleared, Collect;
    RequeuedKeeps(s);
  }

  lemma AcceptedAlike(s: St, f: Frame)
    requires InStep(s) && 0 <= s.v.n2Count <= s.cfg.n2
    ensures Alike(s, Accepted(s, f))
  {
    hide SentStatus, Slots;
  }

  lemma RefusedAlike(s: St, f: Frame)
    requires InStep(s) && 0 <= s.v.n2Count <= s.cfg.n2
    ensures Alike(s, Refused(s, f))
  {
    hide SentStatus;
  }

  lemma ReceivedAlike(s: St, f: Frame)
    requires InStep(s) && 0 <= s.v.n2Count <= s.cfg.n2
    ensures Alike(s, Received(s, f))
  {
    hide Accepted, Refused;
    AcceptedAlike(s, f);
    RefusedAlike(s, f);
  }

  lemma ReestablishedHealthy(s: St, bytes: bool, due1: bool, due13: bool)
    requires Live(s) && Inv(s)
    ensures Healthy(Reestablished(s), bytes, due1, due13)
  {
  }

  lemma TornDownHealthy(s: St, code: ErrCode, bytes: bool, due1: bool, due13: bool)
    requires Live(s) && Inv(s)
    ensures Healthy(TornDown(s, code), bytes, due1, due13)
  {
  }

  lemma ReleasingHealthy(s: St, bytes: bool, due1: bool, due13: bool)
    requires Live(s) && Inv(s)
    ensures Healthy(Releasing(s), bytes, due1, due13)
  {
  }

  lemma ReboundReady(s: St, mod128: bool, pf: bool, bytes: bool)
    requires Live(s) && Inv(s) && Bytes(s, bytes) && Reaches(s.v.va, s.v.vs, Modulus(mod128))
    requires bytes ==> KeepsBytes(s, mod128)
    ensures Ready(Rebound(s, mod128, pf), bytes, false, false)
    ensures Ready(WithState(Rebound(s, mod128, pf), Connected), bytes, false, false)
  {
    hide Rebound, Slots, Collect, KeepsBytes, InWindow, Conserved, WindowOk;
    ReboundRest(s, mod128, pf);
    ReboundKeeps(s, mod128, pf);
    var s' := Rebound(s, mod128, pf);
    SameRingKeeps(s', WithState(s', Connected));
  }

  // ----- CONNECTED -----

  lemma ReadyWeaken(s: St, bytes: bool, due1: bool, due13: bool, due13': bool)
    requires Ready(s, bytes, false, due13') && (due13' ==> due13)
    ensures Ready(s, bytes, due1, due13)
  {
  }

  lemma StatusHealthy(s: St, f: Frame, bytes: bool, due1: bool, due13: bool)
    requires Live(s) && Inv(s) && Bytes(s, bytes) && AckStops(s, f.control.nr)
    ensures Healthy(ConnectedStatus(s, f), bytes, due1, due13)
  {
    hide Slots, Cleared, Collect, Acked, Kicked, Reestablished;
    if ValidNR(s, f.control.nr) {
      var s1 := AnsweredPoll(s, f);
      SameRingKeeps(s, s1);
      AckedReady(s1, f.control.nr, bytes, false);
      ReadyWeaken(Acked(s1, f.control.nr), bytes, due1, due13, false);
      KickedHealthy(Acked(s1, f.control.nr), bytes, due1, due13);
    } else {
      ReestablishedHealthy(s, bytes, due1, due13);
    }
  }

  lemma RejectHealthy(s: St, f: Frame, bytes: bool, due1: bool, due13: bool)
    requires Live(s) && Inv(s) && Bytes(s, bytes) && AckStops(s, f.control.nr)
    ensures Healthy(ConnectedReject(s, f), bytes, due1, due13)
  {
    hide Slots, Cleared, Collect, Acked, Kicked, Reestablished, Requeued;
    if ValidNR(s, f.control.nr) {
      var s1 := AnsweredPoll(s, f);
      SameRingKeeps(s, s1);
      AckedReady(s1, f.control.nr, bytes, false);
      var s2 := Acked(s1, f.control.nr);
      RequeuedReady(s2, bytes, due1, due13);
      var s3 := Requeued(s2);
      var s4 := s3.(on := s3.on.(t1 := false, t3 := true));
      SameRingKeeps(s3, s4);
      KickedHealthy(s4, bytes, due1, due13);
    } else {
      ReestablishedHealthy(s, bytes, due1, due13);
    }
  }

  lemma InformationHealthy(s: St, f: Frame, bytes: bool, due1: bool, due13: bool)
    requires Live(s) && Inv(s) && Bytes(s, bytes) && AckStops(s, f.control.nr)
    ensures Healthy(Information(s, f), bytes, due1, due13)
  {
    hide Slots, Cleared, Collect, Acked, Kicked, Reestablished, Received;
    if ValidNR(s, f.control.nr) {
      AckedReady(s, f.control.nr, bytes, false);
      var s1 := Acked(s, f.control.nr);
      ReadyWeaken(s1, bytes, due1, due13, false);
      ReceivedAlike(s1, f);
      AlikeReady(s1, Received(s1, f), bytes, due1, due13);
      KickedHealthy(Received(s1, f), bytes, due1, due13);
    } else {
      ReestablishedHealthy(s, bytes, due1, due13);
    }
  }

  // A SABM(E) that would lose bytes is the one event conservation leaves out.
  predicate LosesNothing(s: St, ev: Event) {
    ev.FrameRX? && ev.frame.Some? ==>
      Rebinds(ev.frame.value) ==> KeepsBytes(s, ev.frame.value.control.kind.FrameSABME?)
  }

  lemma RebindHealthy(s: St, f: Frame, mod128: bool, recovery: bool, bytes: bool, due1: bool, due13: bool)
    requires Healthy(s, bytes, due1, due13) && Live(s)
    requires f.isCommand ==> Reaches(s.v.va, s.v.vs, Modulus(mod128)) && (bytes ==> KeepsBytes(s, mod128))
    ensures var s1 := if f.isCommand then Rebound(s, mod128, f.control.pf) else s;
            var s2 := if f.isCommand && recovery then WithState(s1, Connected) else s1;
            InStep(s2) && Healthy(Kicked(s2), bytes, due1, due13)
  {
    if f.isCommand {
      ReboundReady(s, mod128, f.control.pf, bytes);
      var s1 := Rebound(s, mod128, f.control.pf);
      var s2 := if recovery then WithState(s1, Connected) else s1;
      hide Rebound, Kicked, WithState;
      ReadyWeaken(s2, bytes, due1, due13, false);
      KickedHealthy(s2, bytes, due1, due13);
    } else {
      KickedHealthy(s, bytes, due1, due13);
    }
  }

  lemma DISCHealthy(s: St, f: Frame, bytes: bool, due1: bool, due13: bool)
    requires Healthy(s, bytes, due1, due13) && Live(s)
    ensures Healthy(PeerDISC(s, f), bytes, due1, due13)
  {
    hide Kicked, TornDown;
    if f.isCommand {
      var s1 := SentU(s, FrameUA, f.control.pf, false);
      SameRingKeeps(s, s1);
      TornDownHealthy(s1, PeerDisconnected, bytes, due1, due13);
    } else {
      KickedHealthy(s, bytes, due1, due13);
    }
  }

  lemma BusyKeeps(s: St, busy: bool, bytes: bool)
    requires Live(s) && Inv(s) && Bytes(s, bytes)
    ensures var s' := WithPeerBusy(s, busy); Live(s') && Inv(s') && Bytes(s', bytes) && M(s') == M(s)
    ensures forall nr: U8 :: AckStops(WithPeerBusy(s, busy), nr) <==> AckStops(s, nr)
  {
    SameRingKeeps(s, WithPeerBusy(s, busy));
  }

  lemma ConnectedFrameHealthy(s: St, f: Frame, bytes: bool, due1: bool, due13: bool)
    requires Healthy(s, bytes, due1, due13) && Live(s) && Admissible(s, FrameRX(Some(f)))
    requires bytes ==> LosesNothing(s, FrameRX(Some(f)))
    ensures Healthy(ConnectedFrame(s, f), bytes, due1, due13)
  {
    hide ConnectedStatus, ConnectedReject, Information, PeerDISC, TornDown, Reestablished, Rebound, Kicked, WithPeerBusy;
    match f.control.kind
    case FrameSABM => RebindHealthy(s, f, false, false, bytes, due1, due13);
    case FrameSABME => RebindHealthy(s, f, true, false, bytes, due1, due13);
    case FrameDISC => DISCHealthy(s, f, bytes, due1, due13);
    case FrameDM => TornDownHealthy(s, PeerReset, bytes, due1, due13);
    case FrameRR =>
      BusyKeeps(s, false, bytes);
      StatusHealthy(WithPeerBusy(s, false), f, bytes, due1, due13);
    case FrameRNR =>
      BusyKeeps(s, true, bytes);
      StatusHealthy(WithPeerBusy(s, true), f, bytes, due1, due13);
    case FrameREJ =>
      BusyKeeps(s, false, bytes);
      RejectHealthy(WithPeerBusy(s, false), f, bytes, due1, due13);
    case FrameI => InformationHealthy(s, f, bytes, due1, due13);
    case _ => ReestablishedHealthy(s, bytes, due1, due13);
  }

  lemma TookReady(s: St, data: seq<U8>, bytes: bool, due1: bool, due13: bool)
    requires Healthy(s, bytes, due1, due13) && Live(s)
    ensures Ready(Took(s, data), bytes, due1, due13)
  {
    var s' := Took(s, data);
    forall k | 0 <= k < |InWindow(s')|
      ensures SlotOk(s', InWindow(s')[k])
    {
      assert SlotOk(s, InWindow(s)[k]);
    }
    if bytes {
      var c := Collect(s.pending, InWindow(s));
      assert s.hist.acked + c + s.txBuf + data == s.hist.acked + c + (s.txBuf + data);
    }
  }

  // The enquiry that answers T1 and T3 in CONNECTED.
  lemma EnquiryHealthy(s: St, n2: int, bytes: bool, due1: bool, due13: bool)
    requires Live(s) && Inv(s) && Bytes(s, bytes) && 0 <= n2 <= s.cfg.n2
    ensures var s1 := Enquired(s.(v := s.v.(n2Count := n2)));
            var s2 := s1.(on := s1.on.(t1 := true));
            && Ready(s2, bytes, due1, due13)
            && Healthy(WithState(s2, TimerRecovery), bytes, due1, due13)
  {
    var s1 := Enquired(s.(v := s.v.(n2Count := n2)));
    var s2 := s1.(on := s1.on.(t1 := true));
    SameRingKeeps(s, s2);
    SameRingKeeps(s2, WithState(s2, TimerRecovery));
  }

  lemma OnConnectedHealthy(s: St, ev: Event, bytes: bool, due1: bool, due13: bool)
    requires Inv(s) && Bytes(s, bytes) && s.state == Connected && Admissible(s, ev)
    requires !ev.T1Expiry? ==> T1Safe(s, due1)
    requires !ev.T1Expiry? && !ev.T3Expiry? ==> Watched(s, due13)
    requires bytes ==> LosesNothing(s, ev)
    ensures Healthy(OnConnected(s, ev).st, bytes, due1, due13)
  {
    hide ConnectedFrame, Kicked, Took, Enquired, WithState, FlushedAck, Releasing;
    match ev
    case FrameRX(Some(f)) => ConnectedFrameHealthy(s, f, bytes, due1, due13);
    case DataTX(data) =>
      TookReady(s, data, bytes, due1, due13);
      KickedHealthy(Took(s, data), bytes, due1, due13);
    case T1Expiry => EnquiryHealthy(s, 1, bytes, due1, due13);
    case T3Expiry => EnquiryHealthy(s, 0, bytes, due1, due13);
    case T2Expiry =>
      FlushedAckReady(s, bytes, due1, due13);
      KickedHealthy(FlushedAck(s), bytes, due1, due13);
    case Disconnect => ReleasingHealthy(s, bytes, due1, due13);
    case Abort => ReleasingHealthy(s, bytes, due1, due13);
    case Shutdown =>
    case _ => KickedHealthy(s, bytes, due1, due13);
  }

  lemma FlushedAckReady(s: St, bytes: bool, due1: bool, due13: bool)
    requires Healthy(s, bytes, due1, due13) && Live(s)
    ensures Ready(FlushedAck(s), bytes, due1, due13)
  {
    AlikeReady(s, FlushedAck(s), bytes, due1, due13);
  }

  // ----- TIMER_RECOVERY -----

  lemma RecoveredReady(s: St, bytes: bool, due1: bool, due13: bool)
    requires Live(s) && s.state == TimerRecovery && Ready(s, bytes, due1, due13)
    ensures Ready(Recovered(s), bytes, due1, due13)
  {
    SameRingKeeps(s, Recovered(s));
  }

  lemma RecoveryStatusHealthy(s: St, f: Frame, bytes: bool, due1: bool, due13: bool)
    requires Live(s) && Inv(s) && Bytes(s, bytes) && s.state == TimerRecovery && AckStops(s, f.control.nr)
    ensures Healthy(RecoveryStatus(s, f), bytes, due1, due13)
  {
    hide Slots, Cleared, Collect, Acked, Kicked, Reestablished, Recovered;
    var nr := f.control.nr;
    if !ValidNR(s, nr) {
      ReestablishedHealthy(s, bytes, due1, due13);
    } else if IsFinal(f) {
      var s1 := s.(v := s.v.(n2Count := 0));
      SameRingKeeps(s, s1);
      AckedReady(s1, nr, bytes, false);
      AckedState(s1, nr);
      RecoveredReady(Acked(s1, nr), bytes, false, false);
      ReadyWeaken(Recovered(Acked(s1, nr)), bytes, due1, due13, false);
      KickedHealthy(Recovered(Acked(s1, nr)), bytes, due1, due13);
    } else {
      var s1 := AnsweredPoll(s, f);
      SameRingKeeps(s, s1);
      AckedReady(s1, nr, bytes, false);
      ReadyWeaken(Acked(s1, nr), bytes, due1, due13, false);
      KickedHealthy(Acked(s1, nr), bytes, due1, due13);
    }
  }

  lemma AckedState(s: St, nr: U8)
    requires InStep(s) && nr < M(s)
    ensures Acked(s, nr).state == s.state && Acked(s, nr).v.n2Count == s.v.n2Count && Acked(s, nr).cfg == s.cfg
    ensures Acked(s, nr).v.cond == s.v.cond && Acked(s, nr).terminated == s.terminated
  {
  }

  lemma RecoveryRejectHealthy(s: St, f: Frame, bytes: bool, due1: bool, due13: bool)
    requires Live(s) && Inv(s) && Bytes(s, bytes) && s.state == TimerRecovery && AckStops(s, f.control.nr)
    ensures Healthy(RecoveryReject(s, f), bytes, due1, due13)
  {
    hide Slots, Cleared, Collect, Acked, Kicked, Reestablished, Recovered, Requeued;
    var nr := f.control.nr;
    if !ValidNR(s, nr) {
      ReestablishedHealthy(s, bytes, due1, due13);
    } else {
      var s1 := if IsFinal(f) then s.(v := s.v.(n2Count := 0)) else AnsweredPoll(s, f);
      SameRingKeeps(s, s1);
      AckedReady(s1, nr, bytes, false);
      AckedState(s1, nr);
      var s2 := Acked(s1, nr);
      RequeuedReady(s2, bytes, due1, due13);
      var s3 := Requeued(s2);
      if IsFinal(f) {
        RecoveredReady(s3, bytes, due1, due13);
        KickedHealthy(Recovered(s3), bytes, due1, due13);
      } else {
        KickedHealthy(s3, bytes, due1, due13);
      }
    }
  }

  lemma RecoveryFrameHealthy(s: St, f: Frame, bytes: bool, due1: bool, due13: bool)
    requires Healthy(s, bytes, due1, due13) && s.state == TimerRecovery && Admissible(s, FrameRX(Some(f)))
    requires bytes ==> LosesNothing(s, FrameRX(Some(f)))
    ensures Healthy(RecoveryFrame(s, f), bytes, due1, due13)
  {
    hide RecoveryStatus, RecoveryReject, Information, PeerDISC, TornDown, Reestablished, Rebound, Kicked, WithPeerBusy, WithState;
    match f.control.kind
    case FrameSABM => RebindHealthy(s, f, false, true, bytes, due1, due13);
    case FrameSABME => RebindHealthy(s, f, true, true, bytes, due1, due13);
    case FrameDISC => DISCHealthy(s, f, bytes, due1, due13);
    case FrameDM => TornDownHealthy(s, PeerReset, bytes, due1, due13);
    case FrameRR =>
      BusyKeeps(s, false, bytes);
      BusyState(s, false);
      RecoveryStatusHealthy(WithPeerBusy(s, false), f, bytes, due1, due13);
    case FrameRNR =>
      BusyKeeps(s, true, bytes);
      BusyState(s, true);
      RecoveryStatusHealthy(WithPeerBusy(s, true), f, bytes, due1, due13);
    case FrameREJ =>
      BusyKeeps(s, false, bytes);
      BusyState(s, false);
      RecoveryRejectHealthy(WithPeerBusy(s, false), f, bytes, due1, due13);
    case FrameI => InformationHealthy(s, f, bytes, due1, due13);
    case _ => ReestablishedHealthy(s, bytes, due1, due13);
  }

  lemma BusyState(s: St, busy: bool)
    ensures WithPeerBusy(s, busy).state == s.state
  {
  }

  lemma EnquiredAgainHealthy(s: St, bytes: bool, due1: bool, due13: bool)
    requires Inv(s) && Bytes(s, bytes) && s.state == TimerRecovery
    ensures Healthy(EnquiredAgain(s), bytes, due1, due13)
  {
    hide Enquired, Kicked, TornDown, SentU;
    if s.v.n2Count >= s.cfg.n2 {
      var s1 := SentU(s, FrameDM, true, false);
      SameRingKeeps(s, s1);
      TornDownHealthy(s1, AckTimeout, bytes, due1, due13);
    } else {
      EnquiryHealthy(s, s.v.n2Count + 1, bytes, due1, due13);
      var s1 := Enquired(s.(v := s.v.(n2Count := s.v.n2Count + 1)));
      KickedHealthy(s1.(on := s1.on.(t1 := true)), bytes, due1, due13);
    }
  }

  lemma OnTimerRecoveryHealthy(s: St, ev: Event, bytes: bool, due1: bool, due13: bool)
    requires Inv(s) && Bytes(s, bytes) && s.state == TimerRecovery && Admissible(s, ev)
    requires !ev.T1Expiry? ==> T1Safe(s, due1)
    requires bytes ==> LosesNothing(s, ev)
    ensures Healthy(OnTimerRecovery(s, ev).st, bytes, due1, due13)
  {
    hide RecoveryFrame, Kicked, Took, EnquiredAgain, FlushedAck, Releasing;
    match ev
    case FrameRX(Some(f)) => RecoveryFrameHealthy(s, f, bytes, due1, due13);
    case DataTX(data) =>
      TookReady(s, data, bytes, due1, due13);
      KickedHealthy(Took(s, data), bytes, due1, due13);
    case T1Expiry => EnquiredAgainHealthy(s, bytes, due1, due13);
    case T2Expiry =>
      FlushedAckReady(s, bytes, due1, due13);
      KickedHealthy(FlushedAck(s), bytes, due1, due13);
    case Disconnect => ReleasingHealthy(s, bytes, due1, due13);
    case Abort => ReleasingHealthy(s, bytes, due1, due13);
    case Shutdown =>
    case _ => KickedHealthy(s, bytes, due1, due13);
  }

  // ----- the other states -----

  lemma SetupFrameHealthy(s: St, f: Frame, due1: bool, due13: bool)
    requires Inv(s) && s.state == AwaitingConnection && T1Safe(s, due1)
    ensures Healthy(AwaitingConnectionFrame(s, f), false, due1, due13)
  {
    hide SentU;
    match f.control.kind
    case FrameUA =>
      var s1 := AwaitingConnectionFrame(s, f);
      assert f.control.pf ==> Slots(s1.v.va, s1.v.vs, M(s1)) == [];
    case _ =>
  }

  lemma SetupHealthy(s: St, ev: Event, due1: bool, due13: bool)
    requires Inv(s) && s.state == AwaitingConnection
    requires !ev.T1Expiry? ==> T1Safe(s, due1)
    ensures Healthy(OnAwaitingConnection(s, ev).st, false, due1, due13)
  {
    hide SentU, SentSABM, AwaitingConnectionFrame, Slots;
    match ev
    case FrameRX(Some(f)) => SetupFrameHealthy(s, f, due1, due13);
    case _ =>
  }

  lemma IdleHealthy(s: St, ev: Event, due1: bool, due13: bool)
    requires Inv(s) && s.state == Disconnected && !s.terminated
    ensures Healthy(OnDisconnected(s, ev).st, false, due1, due13) && !Live(OnDisconnected(s, ev).st)
  {
  }

  lemma ReleaseFrameHealthy(s: St, f: Frame, due1: bool, due13: bool)
    requires Inv(s) && s.state == AwaitingRelease && T1Safe(s, due1)
    ensures Healthy(AwaitingReleaseFrame(s, f), false, due1, due13) && !Live(AwaitingReleaseFrame(s, f))
  {
    hide SentU, Healthy;
    var s' := AwaitingReleaseFrame(s, f);
    NotLiveHealthy(s, s', due1, due13);
  }

  // Nothing but T1 is asked of a session that is neither live nor being set up.
  lemma NotLiveHealthy(s: St, s': St, due1: bool, due13: bool)
    requires Inv(s) && (s'.state == AwaitingRelease || s'.state == Disconnected)
    requires s'.cfg == s.cfg && |s'.pending| == |s.pending| && 0 <= s'.v.n2Count <= s'.cfg.n2
    requires (s'.terminated ==> s'.state == Disconnected) && (s'.state == AwaitingRelease ==> s'.on.t1 || due1)
    ensures Healthy(s', false, due1, due13)
  {
    hide WindowOk;
  }

  lemma ReleaseHealthy(s: St, ev: Event, due1: bool, due13: bool)
    requires Inv(s) && s.state == AwaitingRelease
    requires !ev.T1Expiry? ==> T1Safe(s, due1)
    ensures Healthy(OnAwaitingRelease(s, ev).st, false, due1, due13) && !Live(OnAwaitingRelease(s, ev).st)
  {
    hide SentU, AwaitingReleaseFrame, Slots;
    match ev
    case FrameRX(Some(f)) => ReleaseFrameHealthy(s, f, due1, due13);
    case _ =>
  }

  lemma HeartbeatAlike(s: St)
    requires InStep(s) && 0 <= s.v.n2Count <= s.cfg.n2
    ensures Alike(s, HeartbeatTick(s)) && HeartbeatTick(s).on.t1 == s.on.t1
  {
  }

  // ----- every event -----

  lemma DispatchedHealthy(s: St, ev: Event, bytes: bool, due1: bool, due13: bool)
    requires Inv(s) && !s.terminated && Admissible(s, ev)
    requires !ev.T1Expiry? ==> T1Safe(s, due1)
    requires !ev.T1Expiry? && !ev.T3Expiry? ==> Watched(s, due13)
    requires bytes ==> Live(s) && Conserved(s) && LosesNothing(s, ev)
    ensures Healthy(Dispatched(s, ev).st, bytes, due1, due13)
  {
    hide OnDisconnected, OnAwaitingConnection, OnConnected, OnTimerRecovery, OnAwaitingRelease;
    match s.state
    case Disconnected => IdleHealthy(s, ev, due1, due13);
    case AwaitingConnection => SetupHealthy(s, ev, due1, due13);
    case Connected => OnConnectedHealthy(s, ev, bytes, due1, due13);
    case TimerRecovery => OnTimerRecoveryHealthy(s, ev, bytes, due1, due13);
    case AwaitingRelease => ReleaseHealthy(s, ev, due1, due13);
  }

  // One event, from any healthy state, whatever the peer sent: the window invariant
  // and the retry budget hold again; the operator's bytes are conserved if they were
  // and the link is still up; T1 covers what is outstanding unless its expiry is
  // signalled; and an established link still has a timer to wake it. A T1 (or T3)
  // event is the one that uses up a signalled expiry, so it need not count on it.
  lemma HandledHealthy(s: St, ev: Event, bytes: bool, due1: bool, due13: bool)
    requires Inv(s) && !s.terminated && Admissible(s, ev)
    requires !ev.T1Expiry? ==> T1Safe(s, due1)
    requires !ev.T1Expiry? && !ev.T3Expiry? ==> Watched(s, due13)
    requires bytes ==> Live(s) && Conserved(s) && LosesNothing(s, ev)
    ensures Healthy(Handled(s, ev).st, bytes, due1, due13)
  {
    if ev.Heartbeat? {
      if Live(s) {
        HeartbeatAlike(s);
        SameRingKeeps(s, HeartbeatTick(s));
      }
    } else if ev.StatsTick? {
      if Live(s) {
        SameRingKeeps(s, StatsTicked(s));
      }
    } else {
      hide Dispatched;
      DispatchedHealthy(s, ev, bytes, due1, due13);
    }
  }

  lemma SyncedHealthy(s: St, bytes: bool, due1: bool, due13: bool)
    requires Healthy(s, bytes, due1, due13)
    ensures Healthy(Synced(s), bytes, due1, due13)
  {
    if Live(s) {
      SameRingKeeps(s, Synced(s));
    }
  }
}
