// The run loop of one session and what a completed run tells its observer.
// pkg/ax25conn/session.go

module LapbNotices {
  import opened Common
  import opened Control
  import opened Frames
  import opened Ring
  import opened LapbSpec
  import opened LapbRing
  import opened LapbInvariants

  function StateChanges(obs: seq<OutEvent>): seq<State> {
    if obs == [] then []
    else (if obs[0].StateChange? then [obs[0].state] else []) + StateChanges(obs[1..])
  }

  lemma {:induction false} StateChangesConcat(a: seq<OutEvent>, b: seq<OutEvent>)
    ensures StateChanges(a + b) == StateChanges(a) + StateChanges(b)
  {
    if a == [] {
      assert [] + b == b;
    } else {
      assert (a + b)[1..] == a[1..] + b;
      StateChangesConcat(a[1..], b);
      var head := if a[0].StateChange? then [a[0].state] else [];
      var x, y := StateChanges(a[1..]), StateChanges(b);
      assert StateChanges(a) == head + x && StateChanges(a + b) == head + StateChanges(a[1..] + b);
      assert head + (x + y) == (head + x) + y;
    }
  }

  // DISCONNECTED is reported once the session has ended, and then as its last change.
  predicate EndsOnce(s: St) {
    var p := StateChanges(s.obs);
    if s.terminated then p != [] && p[|p| - 1] == Disconnected && Disconnected !in p[..|p| - 1]
    else Disconnected !in p
  }

  predicate Quiet(a: St, b: St) {
    StateChanges(b.obs) == StateChanges(a.obs) && b.terminated == a.terminated
  }

  lemma QuietEmitted(s: St, e: OutEvent)
    requires !e.StateChange?
    ensures Quiet(s, Emitted(s, e))
  {
    StateChangesConcat(s.obs, [e]);
    assert [e][1..] == [];
    assert StateChanges([e]) == [];
  }

  lemma WithStateEnds(s: St, ns: State)
    requires EndsOnce(s) && !s.terminated
    ensures EndsOnce(WithState(s, ns))
  {
    if ns != s.state {
      var ext := [StateChange(ns), LinkStats];
      StateChangesConcat(s.obs, ext);
      assert ext[1..] == [LinkStats] && [LinkStats][1..] == [];
      assert StateChanges([LinkStats]) == [];
      assert StateChanges(ext) == [ns];
      var p := StateChanges(s.obs);
      assert (p + [ns])[..|p|] == p;
    }
  }

  lemma KickedQuiet(s: St)
    requires InStep(s) && ConfigOk(s.cfg) && WindowOk(s)
    ensures Quiet(s, Kicked(s))
  {
    KickedKeeps(s);
  }

  lemma TornDownEnds(s: St, code: ErrCode)
    requires EndsOnce(s) && !s.terminated
    ensures EndsOnce(TornDown(s, code))
  {
    QuietEmitted(NoTimers(NoQueues(s)), Error(code));
    WithStateEnds(Emitted(NoTimers(NoQueues(s)), Error(code)), Disconnected);
  }

  lemma ReestablishedEnds(s: St)
    requires EndsOnce(s) && !s.terminated
    ensures EndsOnce(Reestablished(s))
  {
    var s1 := s.(v := s.v.(cond := NO_COND, n2Count := 0), on := s.on.(t2 := false, t3 := false));
    WithStateEnds(SentSABM(s1).(on := s1.on.(t1 := true)), AwaitingConnection);
  }

  lemma ReceivedQuiet(s: St, f: Frame)
    ensures Quiet(s, Received(s, f))
  {
    if !s.v.cond.ownRxBusy && f.control.ns == s.v.vr {
      AcceptedQuiet(s, f);
    }
  }

  lemma AcceptedQuiet(s: St, f: Frame)
    ensures Quiet(s, Accepted(s, f))
  {
    var s1 := s.(v := s.v.(vr := Ring.Next(s.v.vr, M(s)), cond := s.v.cond.(reject := false)));
    QuietEmitted(s1, DataRX(f.info));
  }

  lemma InformationEnds(s: St, f: Frame)
    requires Inv(s) && Live(s) && AckStops(s, f.control.nr) && EndsOnce(s) && !s.terminated
    ensures EndsOnce(Information(s, f))
  {
    hide Slots, Cleared, Collect, Kicked, Reestablished, Received;
    if ValidNR(s, f.control.nr) {
      AckedReady(s, f.control.nr, false, false);
      var s1 := Acked(s, f.control.nr);
      ReceivedQuiet(s1, f);
      ReceivedAlike(s1, f);
      AlikeReady(s1, Received(s1, f), false, false, false);
      KickedQuiet(Received(s1, f));
    } else {
      ReestablishedEnds(s);
    }
  }

  lemma StatusEnds(s: St, f: Frame)
    requires Inv(s) && Live(s) && AckStops(s, f.control.nr) && EndsOnce(s) && !s.terminated
    ensures EndsOnce(ConnectedStatus(s, f))
  {
    hide Slots, Cleared, Collect, Kicked, Reestablished;
    if ValidNR(s, f.control.nr) {
      var s1 := AnsweredPoll(s, f);
      SameRingKeeps(s, s1);
      AckedReady(s1, f.control.nr, false, false);
      KickedQuiet(Acked(s1, f.control.nr));
    } else {
      ReestablishedEnds(s);
    }
  }

  lemma RejectEnds(s: St, f: Frame)
    requires Inv(s) && Live(s) && AckStops(s, f.control.nr) && EndsOnce(s) && !s.terminated
    ensures EndsOnce(ConnectedReject(s, f))
  {
    hide Slots, Cleared, Collect, Kicked, Reestablished;
    if ValidNR(s, f.control.nr) {
      var s1 := AnsweredPoll(s, f);
      SameRingKeeps(s, s1);
      AckedReady(s1, f.control.nr, false, false);
      var s2 := Acked(s1, f.control.nr);
      RequeuedReady(s2, false, false, false);
      var s3 := Requeued(s2);
      SameRingKeeps(s3, s3.(on := s3.on.(t1 := false, t3 := true)));
      KickedQuiet(s3.(on := s3.on.(t1 := false, t3 := true)));
    } else {
      ReestablishedEnds(s);
    }
  }

  lemma RebindEnds(s: St, mod128: bool, pf: bool)
    requires Inv(s) && Live(s) && Reaches(s.v.va, s.v.vs, Modulus(mod128)) && EndsOnce(s) && !s.terminated
    ensures EndsOnce(Kicked(Rebound(s, mod128, pf)))
    ensures EndsOnce(Kicked(WithState(Rebound(s, mod128, pf), Connected)))
  {
    ReboundRest(s, mod128, pf);
    ReboundReady(s, mod128, pf, false);
    hide Rebound, Kicked;
    var s1 := Rebound(s, mod128, pf);
    KickedQuiet(s1);
    WithStateEnds(s1, Connected);
    KickedQuiet(WithState(s1, Connected));
  }

  lemma BusyQuiet(s: St, busy: bool)
    ensures WithPeerBusy(s, busy).obs == s.obs && WithPeerBusy(s, busy).terminated == s.terminated
  {
  }

  lemma DISCEnds(s: St, f: Frame)
    requires Inv(s) && Live(s) && EndsOnce(s) && !s.terminated
    ensures EndsOnce(PeerDISC(s, f))
  {
    hide Kicked, TornDown;
    KickedQuiet(s);
    TornDownEnds(SentU(s, FrameUA, f.control.pf, false), PeerDisconnected);
  }

  lemma ConnectedFrameEnds(s: St, f: Frame)
    requires Inv(s) && Live(s) && EndsOnce(s) && !s.terminated && Admissible(s, FrameRX(Some(f)))
    ensures EndsOnce(ConnectedFrame(s, f))
  {
    hide ConnectedStatus, ConnectedReject, Information, PeerDISC, TornDown, Reestablished, Rebound, Kicked, WithPeerBusy;
    KickedQuiet(s);
    match f.control.kind
    case FrameSABM => if f.isCommand { RebindEnds(s, false, f.control.pf); }
    case FrameSABME => if f.isCommand { RebindEnds(s, true, f.control.pf); }
    case FrameDISC => DISCEnds(s, f);
    case FrameDM => TornDownEnds(s, PeerReset);
    case FrameRR =>
      BusyKeeps(s, false, false);
      BusyQuiet(s, false);
      StatusEnds(WithPeerBusy(s, false), f);
    case FrameRNR =>
      BusyKeeps(s, true, false);
      BusyQuiet(s, true);
      StatusEnds(WithPeerBusy(s, true), f);
    case FrameREJ =>
      BusyKeeps(s, false, false);
      BusyQuiet(s, false);
      RejectEnds(WithPeerBusy(s, false), f);
    case FrameI => InformationEnds(s, f);
    case _ => ReestablishedEnds(s);
  }

  lemma RecoveredEnds(s: St)
    requires EndsOnce(s) && !s.terminated
    ensures EndsOnce(Recovered(s))
  {
    WithStateEnds(s.(on := s.on.(t3 := true)), Connected);
  }

  lemma RecoveryStatusEnds(s: St, f: Frame)
    requires Inv(s) && s.state == TimerRecovery && AckStops(s, f.control.nr) && EndsOnce(s) && !s.terminated
    ensures EndsOnce(RecoveryStatus(s, f))
  {
    hide Slots, Cleared, Collect, Kicked, Reestablished, Recovered;
    var nr := f.control.nr;
    if !ValidNR(s, nr) {
      ReestablishedEnds(s);
    } else if IsFinal(f) {
      var s1 := s.(v := s.v.(n2Count := 0));
      SameRingKeeps(s, s1);
      AckedReady(s1, nr, false, false);
      RecoveredReady(Acked(s1, nr), false, false, false);
      RecoveredEnds(Acked(s1, nr));
      KickedQuiet(Recovered(Acked(s1, nr)));
    } else {
      var s1 := AnsweredPoll(s, f);
      SameRingKeeps(s, s1);
      AckedReady(s1, nr, false, false);
      KickedQuiet(Acked(s1, nr));
    }
  }

  lemma RecoveryRejectEnds(s: St, f: Frame)
    requires Inv(s) && s.state == TimerRecovery && AckStops(s, f.control.nr) && EndsOnce(s) && !s.terminated
    ensures EndsOnce(RecoveryReject(s, f))
  {
    hide Slots, Cleared, Collect, Kicked, Reestablished, Recovered;
    var nr := f.control.nr;
    if !ValidNR(s, nr) {
      ReestablishedEnds(s);
    } else {
      var s1 := if IsFinal(f) then s.(v := s.v.(n2Count := 0)) else AnsweredPoll(s, f);
      SameRingKeeps(s, s1);
      AckedReady(s1, nr, false, false);
      RequeuedReady(Acked(s1, nr), false, false, false);
      var s3 := Requeued(Acked(s1, nr));
      if IsFinal(f) {
        RecoveredReady(s3, false, false, false);
        RecoveredEnds(s3);
        KickedQuiet(Recovered(s3));
      } else {
        KickedQuiet(s3);
      }
    }
  }

  lemma RecoveryFrameEnds(s: St, f: Frame)
    requires Inv(s) && s.state == TimerRecovery && EndsOnce(s) && !s.terminated && Admissible(s, FrameRX(Some(f)))
    ensures EndsOnce(RecoveryFrame(s, f))
  {
    hide RecoveryStatus, RecoveryReject, Information, PeerDISC, TornDown, Reestablished, Rebound, Kicked, WithPeerBusy,
      WithState;
    KickedQuiet(s);
    match f.control.kind
    case FrameSABM => if f.isCommand { RebindEnds(s, false, f.control.pf); }
    case FrameSABME => if f.isCommand { RebindEnds(s, true, f.control.pf); }
    case FrameDISC => DISCEnds(s, f);
    case FrameDM => TornDownEnds(s, PeerReset);
    case FrameRR =>
      BusyKeeps(s, false, false);
      BusyQuiet(s, false);
      BusyState(s, false);
      RecoveryStatusEnds(WithPeerBusy(s, false), f);
    case FrameRNR =>
      BusyKeeps(s, true, false);
      BusyQuiet(s, true);
      BusyState(s, true);
      RecoveryStatusEnds(WithPeerBusy(s, true), f);
    case FrameREJ =>
      BusyKeeps(s, false, false);
      BusyQuiet(s, false);
      BusyState(s, false);
      RecoveryRejectEnds(WithPeerBusy(s, false), f);
    case FrameI => InformationEnds(s, f);
    case _ => ReestablishedEnds(s);
  }

  lemma ReleasingEnds(s: St)
    requires EndsOnce(s) && !s.terminated
    ensures EndsOnce(Releasing(s))
  {
    var s1 := SentU(NoQueues(s).(v := s.v.(n2Count := 0)), FrameDISC, true, true);
    WithStateEnds(s1.(on := s1.on.(t1 := true, t2 := false, t3 := false)), AwaitingRelease);
  }

  lemma EnquiryEnds(s: St, n2: int)
    requires Inv(s) && Live(s) && EndsOnce(s) && !s.terminated && 0 <= n2 <= s.cfg.n2
    ensures var s1 := Enquired(s.(v := s.v.(n2Count := n2)));
            var s2 := s1.(on := s1.on.(t1 := true));
            InStep(s2) && EndsOnce(WithState(s2, TimerRecovery)) && EndsOnce(Kicked(s2))
  {
    EnquiryHealthy(s, n2, false, true, true);
    var s1 := Enquired(s.(v := s.v.(n2Count := n2)));
    var s2 := s1.(on := s1.on.(t1 := true));
    WithStateEnds(s2, TimerRecovery);
    KickedQuiet(s2);
  }

  lemma LiveKicksEnd(s: St, data: seq<U8>)
    requires Inv(s) && Live(s) && EndsOnce(s) && !s.terminated
    ensures EndsOnce(Kicked(s)) && EndsOnce(Kicked(Took(s, data)))
    ensures InStep(FlushedAck(s)) && EndsOnce(Kicked(FlushedAck(s)))
  {
    TookReady(s, data, false, true, true);
    FlushedAckReady(s, false, true, true);
    KickedQuiet(s);
    KickedQuiet(Took(s, data));
    KickedQuiet(FlushedAck(s));
  }

  lemma OnConnectedEnds(s: St, ev: Event)
    requires Inv(s) && s.state == Connected && EndsOnce(s) && !s.terminated && Admissible(s, ev)
    ensures EndsOnce(OnConnected(s, ev).st)
  {
    hide ConnectedFrame, Kicked, Took, Enquired, WithState, FlushedAck, Releasing;
    LiveKicksEnd(s, if ev.DataTX? then ev.data else []);
    match ev
    case FrameRX(Some(f)) => ConnectedFrameEnds(s, f);
    case T1Expiry => EnquiryEnds(s, 1);
    case T3Expiry => EnquiryEnds(s, 0);
    case Disconnect => ReleasingEnds(s);
    case Abort => ReleasingEnds(s);
    case _ =>
  }

  lemma EnquiredAgainEnds(s: St)
    requires Inv(s) && s.state == TimerRecovery && EndsOnce(s) && !s.terminated
    ensures EndsOnce(EnquiredAgain(s))
  {
    hide Kicked, Enquired, TornDown;
    if s.v.n2Count >= s.cfg.n2 {
      TornDownEnds(SentU(s, FrameDM, true, false), AckTimeout);
    } else {
      EnquiryEnds(s, s.v.n2Count + 1);
    }
  }

  lemma OnTimerRecoveryEnds(s: St, ev: Event)
    requires Inv(s) && s.state == TimerRecovery && EndsOnce(s) && !s.terminated && Admissible(s, ev)
    ensures EndsOnce(OnTimerRecovery(s, ev).st)
  {
    hide RecoveryFrame, Kicked, Took, FlushedAck, Releasing, EnquiredAgain;
    LiveKicksEnd(s, if ev.DataTX? then ev.data else []);
    match ev
    case FrameRX(Some(f)) => RecoveryFrameEnds(s, f);
    case T1Expiry => EnquiredAgainEnds(s);
    case Disconnect => ReleasingEnds(s);
    case Abort => ReleasingEnds(s);
    case _ =>
  }

  lemma OnDisconnectedEnds(s: St, ev: Event)
    requires EndsOnce(s) && !s.terminated
    ensures EndsOnce(OnDisconnected(s, ev).st)
  {
    hide WithState;
    if ev.Connect? {
      var s1 := SentSABM(s.(v := ZERO_VARS));
      WithStateEnds(s1.(on := s1.on.(t1 := true, hb := true)), AwaitingConnection);
    }
  }

  lemma SetupFrameEnds(s: St, f: Frame)
    requires EndsOnce(s) && !s.terminated
    ensures EndsOnce(AwaitingConnectionFrame(s, f))
  {
    hide WithState;
    if f.control.kind.FrameUA? {
      WithStateEnds(s.(v := s.v.(n2Count := 0, vs := 0, vr := 0, va := 0), on := s.on.(t1 := false, t3 := true)), Connected);
    } else if f.control.kind.FrameDM? {
      var s1 := s.(on := s.on.(t1 := false));
      QuietEmitted(s1, Error(PeerRejected));
      WithStateEnds(Emitted(s1, Error(PeerRejected)), Disconnected);
    }
  }

  lemma OnAwaitingConnectionEnds(s: St, ev: Event)
    requires EndsOnce(s) && !s.terminated
    ensures EndsOnce(OnAwaitingConnection(s, ev).st)
  {
    hide WithState, AwaitingConnectionFrame;
    match ev
    case FrameRX(Some(f)) => SetupFrameEnds(s, f);
    case T1Expiry =>
      QuietEmitted(s, Error(LinkEstablishTimeout));
      WithStateEnds(Emitted(s, Error(LinkEstablishTimeout)), Disconnected);
    case Disconnect => SetupCancelledEnds(s);
    case Abort => SetupCancelledEnds(s);
    case _ =>
  }

  lemma SetupCancelledEnds(s: St)
    requires EndsOnce(s) && !s.terminated
    ensures EndsOnce(OnAwaitingConnection(s, Disconnect).st) && EndsOnce(OnAwaitingConnection(s, Abort).st)
  {
    var s1 := SentU(s, FrameDISC, true, true).(v := s.v.(n2Count := 0));
    WithStateEnds(s1.(on := s1.on.(t1 := true)), AwaitingRelease);
  }

  lemma ReleasedEnds(s: St)
    requires EndsOnce(s) && !s.terminated
    ensures EndsOnce(Released(s))
  {
    WithStateEnds(s.(on := s.on.(t1 := false)), Disconnected);
  }

  lemma OnAwaitingReleaseEnds(s: St, ev: Event)
    requires EndsOnce(s) && !s.terminated
    ensures EndsOnce(OnAwaitingRelease(s, ev).st)
  {
    hide WithState, Released;
    match ev
    case FrameRX(Some(f)) =>
      ReleasedEnds(s);
      ReleasedEnds(SentU(s, FrameUA, f.control.pf, false));
    case T1Expiry =>
      var s1 := SentU(s, FrameDISC, true, true);
      QuietEmitted(s1, Error(DiscTimeout));
      WithStateEnds(Emitted(s1, Error(DiscTimeout)), Disconnected);
    case _ =>
  }

  lemma HandledEnds(s: St, ev: Event)
    requires Inv(s) && EndsOnce(s) && !s.terminated && Admissible(s, ev)
    ensures EndsOnce(Handled(s, ev).st)
    ensures Handled(s, ev).cont ==> !Handled(s, ev).st.terminated
  {
    hide OnDisconnected, OnAwaitingConnection, OnConnected, OnTimerRecovery, OnAwaitingRelease;
    if ev.Heartbeat? {
    } else if ev.StatsTick? {
      QuietEmitted(s, LinkStats);
    } else {
      match s.state
      case Disconnected => OnDisconnectedEnds(s, ev);
      case AwaitingConnection => OnAwaitingConnectionEnds(s, ev);
      case Connected => OnConnectedEnds(s, ev);
      case TimerRecovery => OnTimerRecoveryEnds(s, ev);
      case AwaitingRelease => OnAwaitingReleaseEnds(s, ev);
    }
  }

  // ----- the run loop -----

  function Stepped(s: St, ev: Event): (o: Outcome)
    requires Inv(s) && !s.terminated && Admissible(s, ev)
    ensures Inv(o.st) && (o.cont ==> !o.st.terminated)
  {
    HandledHealthy(s, ev, false, true, true);
    SyncedHealthy(Handled(s, ev).st, false, true, true);
    Outcome(Synced(Handled(s, ev).st), Handled(s, ev).cont)
  }

  predicate RunAdmissible(s: St, evs: seq<Event>)
    requires Inv(s) && !s.terminated
    decreases |evs|
  {
    evs != [] ==>
      Admissible(s, evs[0]) && (Stepped(s, evs[0]).cont ==> RunAdmissible(Stepped(s, evs[0]).st, evs[1..]))
  }

  // The state when the loop leaves: at the event that ended the session, or, when the
  // events run out, at cancellation.
  function RanThrough(s: St, evs: seq<Event>): (r: St)
    requires Inv(s) && !s.terminated && RunAdmissible(s, evs)
    ensures Inv(r)
    decreases |evs|
  {
    if evs == [] then s
    else if Stepped(s, evs[0]).cont then RanThrough(Stepped(s, evs[0]).st, evs[1..])
    else Stepped(s, evs[0]).st
  }

  function CleanedUp(s: St): St {
    s.(on := Timers(false, false, false, false, false), terminated := true,
       obs := if s.terminated then s.obs else s.obs + [StateChange(Disconnected)])
  }

  lemma {:induction false} RanThroughEnds(s: St, evs: seq<Event>)
    requires Inv(s) && !s.terminated && RunAdmissible(s, evs) && EndsOnce(s)
    ensures EndsOnce(RanThrough(s, evs))
    decreases |evs|
  {
    if evs != [] {
      HandledEnds(s, evs[0]);
      if Stepped(s, evs[0]).cont {
        RanThroughEnds(Stepped(s, evs[0]).st, evs[1..]);
      }
    }
  }

  // Every completed run, however it ended, reports DISCONNECTED exactly once, as the
  // last state change, with every timer stopped.
  lemma DisconnectedOnce(s: St, evs: seq<Event>)
    requires Inv(s) && !s.terminated && RunAdmissible(s, evs) && s.obs == []
    ensures var p := StateChanges(CleanedUp(RanThrough(s, evs)).obs);
            p != [] && p[|p| - 1] == Disconnected && Disconnected !in p[..|p| - 1]
  {
    hide RanThrough, RunAdmissible, Inv;
    RanThroughEnds(s, evs);
    CleanedEnds(RanThrough(s, evs));
  }

  lemma CleanedEnds(e: St)
    requires EndsOnce(e)
    ensures var p := StateChanges(CleanedUp(e).obs);
            p != [] && p[|p| - 1] == Disconnected && Disconnected !in p[..|p| - 1]
  {
    if !e.terminated {
      var p := StateChanges(e.obs);
      StateChangesConcat(e.obs, [StateChange(Disconnected)]);
      assert [StateChange(Disconnected)][1..] == [];
      assert StateChanges([StateChange(Disconnected)]) == [Disconnected];
      assert (p + [Disconnected])[..|p|] == p;
    }
  }
}
