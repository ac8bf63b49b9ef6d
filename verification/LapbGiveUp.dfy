// Giving up on a silent peer: how many T1 expiries it takes, exactly.

module LapbGiveUp {
  import opened Common
  import opened Control
  import opened Frames
  import opened Ring
  import opened LapbSpec
  import opened LapbRing
  import opened LapbInvariants
  import opened LapbNotices
  import LapbRuns

  // The peer says nothing and the operator does not end the session.
  predicate IsSilent(ev: Event) {
    !(ev.FrameRX? && ev.frame.Some?) && !ev.Disconnect? && !ev.Abort? && !ev.Shutdown?
  }

  predicate AllSilent(evs: seq<Event>) {
    forall i | 0 <= i < |evs| :: IsSilent(evs[i])
  }

  function CountT1(evs: seq<Event>): nat {
    if evs == [] then 0 else (if evs[0].T1Expiry? then 1 else 0) + CountT1(evs[1..])
  }

  // How many T1 expiries a session survives less one. A modulo-128 setup falls back to
  // modulo 8 and starts over; CONNECTED counts its first expiry on the way to
  // TIMER_RECOVERY, and an enquiry after T3 starts from none.
  function Budget(s: St): int {
    match s.state
    case Disconnected => 0
    case AwaitingConnection => s.cfg.n2 - s.v.n2Count + 1 + (if s.cfg.mod128 then s.cfg.n2 + 1 else 0)
    case Connected => s.cfg.n2 + 1
    case TimerRecovery => s.cfg.n2 - s.v.n2Count + 1
    case AwaitingRelease => s.cfg.n2 - s.v.n2Count + 1
  }

  // What a silent event does to the budget.
  predicate Spends(s: St, ev: Event, t: St) {
    if ev.T1Expiry? && Budget(s) == 1 then t.state == Disconnected && t.terminated
    else t.state != Disconnected && !t.terminated && Budget(t) == Budget(s) - (if ev.T1Expiry? then 1 else 0)
  }

  predicate SameBudget(s: St, t: St) {
    t.state == s.state && t.cfg == s.cfg && t.v.n2Count == s.v.n2Count && t.terminated == s.terminated
  }

  lemma KickedSpends(s: St)
    requires InStep(s) && ConfigOk(s.cfg) && WindowOk(s)
    ensures SameBudget(s, Kicked(s))
  {
    if !s.v.cond.peerRxBusy {
      DrainedKeeps(s);
    }
  }

  lemma FlushedSpends(s: St)
    ensures SameBudget(s, FlushedAck(s))
  {
  }

  lemma EnquirySpends(s: St, n2: int)
    ensures var s1 := Enquired(s.(v := s.v.(n2Count := n2)));
            s1.state == s.state && s1.cfg == s.cfg && s1.v.n2Count == n2 && s1.terminated == s.terminated
  {
  }

  lemma LiveQuiet(s: St, data: seq<U8>)
    requires Inv(s) && Live(s)
    ensures SameBudget(s, Kicked(s)) && SameBudget(s, Kicked(Took(s, data)))
    ensures InStep(FlushedAck(s)) && SameBudget(s, Kicked(FlushedAck(s)))
  {
    hide Kicked, FlushedAck;
    KickedSpends(s);
    TookReady(s, data, false, true, true);
    KickedSpends(Took(s, data));
    FlushedAckReady(s, false, true, true);
    FlushedSpends(s);
    KickedSpends(FlushedAck(s));
  }

  lemma ConnectedSpends(s: St, ev: Event)
    requires Inv(s) && s.state == Connected && IsSilent(ev)
    ensures Spends(s, ev, OnConnected(s, ev).st) && OnConnected(s, ev).cont
  {
    hide Kicked, Took, Enquired, FlushedAck, Releasing;
    LiveQuiet(s, if ev.DataTX? then ev.data else []);
    EnquirySpends(s, 0);
    EnquirySpends(s, 1);
  }

  lemma AgainSpends(s: St)
    requires Inv(s) && s.state == TimerRecovery
    ensures Spends(s, T1Expiry, EnquiredAgain(s))
  {
    hide Kicked, Enquired;
    if s.v.n2Count >= s.cfg.n2 {
    } else {
      EnquiryHealthy(s, s.v.n2Count + 1, false, true, true);
      EnquirySpends(s, s.v.n2Count + 1);
      var s1 := Enquired(s.(v := s.v.(n2Count := s.v.n2Count + 1)));
      KickedSpends(s1.(on := s1.on.(t1 := true)));
    }
  }

  lemma RecoverySpends(s: St, ev: Event)
    requires Inv(s) && s.state == TimerRecovery && IsSilent(ev)
    ensures Spends(s, ev, OnTimerRecovery(s, ev).st) && OnTimerRecovery(s, ev).cont
  {
    hide Kicked, Took, EnquiredAgain, FlushedAck, Releasing;
    LiveQuiet(s, if ev.DataTX? then ev.data else []);
    AgainSpends(s);
  }

  lemma SetupSpends(s: St, ev: Event)
    requires Inv(s) && s.state == AwaitingConnection && IsSilent(ev)
    ensures Spends(s, ev, OnAwaitingConnection(s, ev).st) && OnAwaitingConnection(s, ev).cont
  {
  }

  lemma ReleaseSpends(s: St, ev: Event)
    requires Inv(s) && s.state == AwaitingRelease && IsSilent(ev)
    ensures Spends(s, ev, OnAwaitingRelease(s, ev).st) && OnAwaitingRelease(s, ev).cont
  {
  }

  lemma StepSpends(s: St, ev: Event)
    requires Inv(s) && !s.terminated && s.state != Disconnected && IsSilent(ev)
    ensures Admissible(s, ev) && Spends(s, ev, Stepped(s, ev).st)
    ensures Stepped(s, ev).cont <==> Stepped(s, ev).st.state != Disconnected
  {
    hide OnConnected, OnTimerRecovery, OnAwaitingConnection, OnAwaitingRelease, SentStatus, Slots, OutstandingOf;
    if ev.Heartbeat? || ev.StatsTick? {
    } else {
      match s.state
      case AwaitingConnection => SetupSpends(s, ev);
      case Connected => ConnectedSpends(s, ev);
      case TimerRecovery => RecoverySpends(s, ev);
      case AwaitingRelease => ReleaseSpends(s, ev);
    }
  }

  lemma {:induction false} SilentAdmissible(s: St, evs: seq<Event>)
    requires Inv(s) && !s.terminated && AllSilent(evs)
    ensures RunAdmissible(s, evs)
    decreases |evs|
  {
    hide Stepped;
    if evs != [] && Stepped(s, evs[0]).cont {
      SilentAdmissible(Stepped(s, evs[0]).st, evs[1..]);
    }
  }

  // With a silent peer, whatever else happens in between, a session that is being set
  // up, is established or is being released is DISCONNECTED exactly once T1 has
  // expired as often as its budget says, and not one expiry sooner.
  lemma {:induction false} GivesUpExactly(s: St, evs: seq<Event>)
    requires Inv(s) && !s.terminated && s.state != Disconnected && AllSilent(evs)
    ensures RunAdmissible(s, evs)
    ensures RanThrough(s, evs).state == Disconnected <==> CountT1(evs) >= Budget(s)
    decreases |evs|
  {
    hide Stepped;
    SilentAdmissible(s, evs);
    if evs != [] {
      StepSpends(s, evs[0]);
      if Stepped(s, evs[0]).cont {
        GivesUpExactly(Stepped(s, evs[0]).st, evs[1..]);
      }
    }
  }

  lemma CallSpends(c: Config)
    requires ConfigOk(c)
    ensures var s := LapbRuns.NewSession(c);
            && Inv(s) && !s.terminated && Admissible(s, Connect) && Stepped(s, Connect).cont
            && Stepped(s, Connect).st.state == AwaitingConnection
            && Budget(Stepped(s, Connect).st) == if c.mod128 then 2 * c.n2 + 2 else c.n2 + 1
  {
  }

  // A call that nobody answers: n2 + 1 expiries, or 2 * n2 + 2 when it starts out in
  // modulo 128 and falls back.
  lemma CallGivesUp(c: Config, evs: seq<Event>)
    requires ConfigOk(c) && AllSilent(evs)
    ensures var s := LapbRuns.NewSession(c);
            && Inv(s) && !s.terminated && RunAdmissible(s, [Connect] + evs)
            && (RanThrough(s, [Connect] + evs).state == Disconnected
                <==> CountT1(evs) >= if c.mod128 then 2 * c.n2 + 2 else c.n2 + 1)
  {
    hide Budget, LapbRuns.NewSession, Stepped;
    CallSpends(c);
    var s := LapbRuns.NewSession(c);
    GivesUpExactly(Stepped(s, Connect).st, evs);
    assert ([Connect] + evs)[1..] == evs;
  }

  // A release that nobody answers takes n2 + 1 expiries from any established state.
  lemma ReleaseGivesUp(s: St, evs: seq<Event>)
    requires Inv(s) && Live(s) && !s.terminated && AllSilent(evs)
    ensures RunAdmissible(s, [Event.Disconnect] + evs)
    ensures RanThrough(s, [Event.Disconnect] + evs).state == Disconnected <==> CountT1(evs) >= s.cfg.n2 + 1
  {
    hide Stepped;
    ReleaseStarts(s);
    GivesUpExactly(Stepped(s, Event.Disconnect).st, evs);
    assert ([Event.Disconnect] + evs)[1..] == evs;
  }

  lemma ReleaseStarts(s: St)
    requires Inv(s) && Live(s) && !s.terminated
    ensures Stepped(s, Event.Disconnect).cont && Stepped(s, Event.Disconnect).st.state == AwaitingRelease
    ensures Budget(Stepped(s, Event.Disconnect).st) == s.cfg.n2 + 1
  {
  }

  // ----- a link nothing watches -----

  // In TIMER_RECOVERY with everything acknowledged and T1 stopped, and nothing to send
  // or a peer that cannot take it.
  predicate Stalled(s: St) {
    && s.state == TimerRecovery && s.v.vs == s.v.va && !s.on.t1
    && (s.txBuf == [] || s.v.cond.peerRxBusy)
  }

  lemma IdleKick(s: St)
    requires InStep(s) && s.txBuf == []
    ensures Kicked(s) == if s.v.vs != s.v.va && !s.v.cond.peerRxBusy then s.(on := s.on.(t1 := true, t3 := false)) else s
  {
  }

  lemma {:induction false} DrainedGrows(s: St)
    requires InStep(s) && ConfigOk(s.cfg) && WindowOk(s)
    ensures InStep(Drained(s)) && M(Drained(s)) == M(s)
    ensures Dist(s.v.va, Drained(s).v.vs, M(s)) >= Dist(s.v.va, s.v.vs, M(s)) + if CanSend(s) then 1 else 0
    decreases |s.txBuf|
  {
    hide SentOne;
    if CanSend(s) {
      SentOneKeeps(s);
      DrainedGrows(SentOne(s));
    }
  }

  lemma SendingRuns(s: St)
    requires Inv(s) && Live(s) && s.txBuf != [] && !s.v.cond.peerRxBusy
    ensures !Stalled(Kicked(s))
  {
    DrainedGrows(s);
    DrainedKeeps(s);
  }

  // Kick neither stalls a link nor gets a stalled one going.
  lemma KickStalls(s: St)
    requires Inv(s) && Live(s)
    ensures Stalled(Kicked(s)) <==> Stalled(s)
  {
    if s.v.cond.peerRxBusy {
    } else if s.txBuf == [] {
      IdleKick(s);
    } else {
      SendingRuns(s);
    }
  }

  lemma AckedIdle(s: St, nr: U8)
    requires Inv(s) && Live(s) && nr < M(s) && ValidNR(s, nr)
    ensures var t := Acked(s, nr);
            && Inv(t) && Live(t) && t.state == s.state && t.txBuf == s.txBuf && t.v.vs == s.v.vs && t.v.va == nr
            && t.v.cond == s.v.cond && (t.on.t1 <==> s.v.vs != nr)
  {
    AckedReady(s, nr, false, false);
  }

  lemma ReestablishedStalls(s: St)
    requires Live(s)
    ensures !Stalled(Reestablished(s))
  {
    hide SentSABM;
  }

  lemma StatusStalls(s: St, f: Frame)
    requires Inv(s) && s.state == TimerRecovery && AckStops(s, f.control.nr)
    ensures Stalled(RecoveryStatus(s, f)) <==>
            f.control.nr == s.v.vs && !IsFinal(f) && (s.txBuf == [] || s.v.cond.peerRxBusy)
  {
    hide Acked, Kicked, Slots, Cleared, Collect, Reestablished;
    var nr := f.control.nr;
    if !ValidNR(s, nr) {
      ReestablishedStalls(s);
    } else {
      var s1 := if IsFinal(f) then s.(v := s.v.(n2Count := 0)) else AnsweredPoll(s, f);
      SameRingKeeps(s, s1);
      AckedIdle(s1, nr);
      var u := if IsFinal(f) then Recovered(Acked(s1, nr)) else Acked(s1, nr);
      RecoveredReady(Acked(s1, nr), false, true, true);
      KickStalls(u);
    }
  }

  lemma InformationStalls(s: St, f: Frame)
    requires Inv(s) && s.state == TimerRecovery && AckStops(s, f.control.nr)
    ensures Stalled(Information(s, f)) <==> f.control.nr == s.v.vs && (s.txBuf == [] || s.v.cond.peerRxBusy)
  {
    hide Acked, Kicked, Slots, Cleared, Collect, Reestablished, Received;
    if !ValidNR(s, f.control.nr) {
      ReestablishedStalls(s);
    } else {
      var t := Acked(s, f.control.nr);
      AckedIdle(s, f.control.nr);
      ReceivedIdle(t, f);
      KickStalls(Received(t, f));
    }
  }

  lemma ReceivedIdle(s: St, f: Frame)
    requires Inv(s) && Live(s)
    ensures var t := Received(s, f);
            Inv(t) && Live(t) && (Stalled(t) <==> Stalled(s))
  {
    ReceivedAlike(s, f);
    SameRingKeeps(s, Received(s, f));
    ReceivedTimer(s, f);
  }

  lemma AcceptedTimer(s: St, f: Frame)
    ensures Accepted(s, f).on.t1 == s.on.t1
  {
    hide SentStatus, Next;
  }

  lemma RefusedTimer(s: St, f: Frame)
    ensures Refused(s, f).on.t1 == s.on.t1
  {
    hide SentStatus, SentREJ;
  }

  lemma ReceivedTimer(s: St, f: Frame)
    ensures Received(s, f).on.t1 == s.on.t1
  {
    hide SentStatus, Accepted, Refused;
    AcceptedTimer(s, f);
    RefusedTimer(s, f);
  }

  lemma RejectStalls(s: St, f: Frame)
    requires Inv(s) && s.state == TimerRecovery && AckStops(s, f.control.nr) && !s.v.cond.peerRxBusy
    ensures Stalled(RecoveryReject(s, f)) <==> f.control.nr == s.v.vs && !IsFinal(f) && s.txBuf == []
  {
    hide Acked, Kicked, Requeued, Slots, Cleared, Reestablished;
    var nr := f.control.nr;
    if !ValidNR(s, nr) {
      ReestablishedStalls(s);
    } else {
      var s1 := if IsFinal(f) then s.(v := s.v.(n2Count := 0)) else AnsweredPoll(s, f);
      SameRingKeeps(s, s1);
      AckedIdle(s1, nr);
      var t := Acked(s1, nr);
      RequeuedReady(t, false, true, true);
      if nr == s.v.vs {
        NothingRequeued(t);
      }
      var u := if IsFinal(f) then Recovered(Requeued(t)) else Requeued(t);
      RecoveredReady(Requeued(t), false, true, true);
      KickStalls(u);
    }
  }

  lemma NothingRequeued(s: St)
    requires InStep(s) && s.v.vs == s.v.va
    ensures Requeued(s).txBuf == s.txBuf
  {
    assert [] + s.txBuf == s.txBuf;
  }

  // The whole family, whatever is queued: a frame that acknowledges everything in
  // TIMER_RECOVERY without being the awaited response leaves the link unwatched, unless
  // kick then has something to send and a peer to send it to.
  lemma StallsIff(s: St, f: Frame)
    requires Inv(s) && s.state == TimerRecovery && Acknowledges(f.control.kind) && AckStops(s, f.control.nr)
    ensures var k := f.control.kind;
            Stalled(RecoveryFrame(s, f)) <==>
            && f.control.nr == s.v.vs && (k.FrameI? || !IsFinal(f))
            && (s.txBuf == [] || k.FrameRNR? || (k.FrameI? && s.v.cond.peerRxBusy))
  {
    hide RecoveryStatus, Information, RecoveryReject, Rebound, Reestablished, TornDown, PeerDISC, Kicked;
    var busy := f.control.kind.FrameRNR?;
    BusyKeeps(s, busy, false);
    match f.control.kind
    case FrameI => InformationStalls(s, f);
    case FrameREJ => RejectStalls(WithPeerBusy(s, busy), f);
    case _ => StatusStalls(WithPeerBusy(s, busy), f);
  }

  predicate NoCommandSince(s: St, t: St) {
    s.tx <= t.tx && forall i | |s.tx| <= i < |t.tx| :: !t.tx[i].isCommand
  }

  // A silent event that could not get a stalled link going: not T1, and no new data
  // unless the peer is too busy to take it.
  predicate Idles(s: St, ev: Event) {
    IsSilent(ev) && !ev.T1Expiry? && (ev.DataTX? ==> s.v.cond.peerRxBusy)
  }

  // Still stalled, without a command sent, and with nothing of the queue sent either.
  predicate StillStalled(s: St, t: St) {
    Stalled(t) && t.v.cond.peerRxBusy == s.v.cond.peerRxBusy && NoCommandSince(s, t) && s.txBuf <= t.txBuf
  }

  lemma StalledKick(s: St)
    requires InStep(s) && Stalled(s)
    ensures Kicked(s) == s
  {
    if !s.v.cond.peerRxBusy {
      IdleKick(s);
    }
  }

  lemma StalledStep(s: St, ev: Event)
    requires Inv(s) && !s.terminated && Stalled(s) && Idles(s, ev)
    ensures Stepped(s, ev).cont && StillStalled(s, Stepped(s, ev).st)
  {
    hide Kicked, SentStatus, Slots, OutstandingOf, FlushedAck, HeartbeatTick;
    StalledKick(s);
    FlushedStalled(s);
    StalledKick(FlushedAck(s));
    HeartbeatStalled(s);
    if ev.DataTX? {
      StalledKick(Took(s, ev.data));
    }
  }

  lemma HeartbeatStalled(s: St)
    requires Stalled(s) && InStep(s)
    ensures StillStalled(s, HeartbeatTick(s)) && !HeartbeatTick(s).terminated == !s.terminated
  {
  }

  lemma FlushedStalled(s: St)
    requires Stalled(s) && InStep(s)
    ensures StillStalled(s, FlushedAck(s)) && InStep(FlushedAck(s)) && !FlushedAck(s).terminated == !s.terminated
  {
  }

  // From there nothing ever makes the session ask its peer again, send what is queued
  // or give up, however often T3 and the other timers expire, for as long as the peer
  // stays silent and the operator sends nothing a ready peer could take.
  lemma {:induction false} StalledForever(s: St, evs: seq<Event>)
    requires Inv(s) && !s.terminated && Stalled(s) && forall i | 0 <= i < |evs| :: Idles(s, evs[i])
    ensures RunAdmissible(s, evs) && StillStalled(s, RanThrough(s, evs))
    decreases |evs|
  {
    hide Stepped, Stalled, IsSilent;
    assert AllSilent(evs) by { IdlesSilent(s, evs); }
    SilentAdmissible(s, evs);
    if evs != [] {
      StalledStep(s, evs[0]);
      StalledForever(Stepped(s, evs[0]).st, evs[1..]);
    }
  }

  lemma IdlesSilent(s: St, evs: seq<Event>)
    requires forall i | 0 <= i < |evs| :: Idles(s, evs[i])
    ensures AllSilent(evs)
  {
  }

  // The same of every run, and there no T1 expiry has to be ruled out: with T1 stopped
  // and none of its expiries signalled, none can come.
  lemma {:induction false} StalledRun(tr: seq<LapbRuns.System>, acts: seq<LapbRuns.Action>, i: nat, j: nat)
    requires LapbRuns.Run(tr, acts) && i <= j < |tr|
    requires Stalled(tr[i].s) && !tr[i].due.t1
    requires forall k | i <= k < j :: acts[k].Take? ==> Idles(tr[i].s, acts[k].ev)
    ensures StillStalled(tr[i].s, tr[j].s) && !tr[j].due.t1
    decreases j - i
  {
    hide LapbRuns.Next, Stalled;
    if i < j {
      StalledRun(tr, acts, i, j - 1);
      LapbRuns.ReachableGood(tr, acts, j - 1);
      StalledNext(tr[j - 1], acts[j - 1], tr[j]);
    } else {
      assert StillStalled(tr[i].s, tr[i].s);
    }
  }

  lemma StalledNext(a: LapbRuns.System, act: LapbRuns.Action, b: LapbRuns.System)
    requires LapbRuns.Good(a) && Stalled(a.s) && !a.due.t1 && LapbRuns.Next(a, act, b)
    requires act.Take? ==> Idles(a.s, act.ev)
    ensures StillStalled(a.s, b.s) && !b.due.t1
  {
    hide Stepped, Handled;
    match act
    case HandleT2 => StalledHandled(a, T2Expiry, b);
    case HandleT3 => StalledHandled(a, T3Expiry, b);
    case HandleHB => StalledHandled(a, Heartbeat, b);
    case HandleStats => StalledHandled(a, StatsTick, b);
    case Take(ev) => StalledHandled(a, ev, b);
    case _ =>
  }

  lemma StalledHandled(a: LapbRuns.System, ev: Event, b: LapbRuns.System)
    requires LapbRuns.Good(a) && !a.s.terminated && Stalled(a.s) && Idles(a.s, ev)
    requires Admissible(a.s, ev) && Handled(a.s, ev).st.cfg.paclen >= 1 && b.s == Synced(Handled(a.s, ev).st)
    ensures StillStalled(a.s, b.s)
  {
    hide Handled;
    StalledStep(a.s, ev);
    assert Stepped(a.s, ev).st == Synced(Handled(a.s, ev).st);
  }
}
