// How a session asks its peer for news and answers when asked: which frame each timer
// sends, what every frame that carries a bare N(R) is answered with, and what it settles.

module LapbEnquiry {
  import opened Common
  import opened Control
  import opened Frames
  import opened Ring
  import opened LapbSpec
  import opened LapbRing
  import opened LapbInvariants
  import opened LapbDirection
  import opened LapbLink
  import opened LapbTransfer
  import opened LapbPair
  import opened LapbReceive
  import LapbArrives

  // Ready or not ready: a command that asks, a response that answers.
  function Enquiry(s: St): Frame {
    Supervisory(s.cfg, ReadyKind(s), s.v.vr, true, true)
  }

  function Answer(s: St): Frame {
    Supervisory(s.cfg, ReadyKind(s), s.v.vr, true, false)
  }

  // ----- what a kick on top of other frames leaves -----

  // t is m after a kick, m being s with these frames sent and perhaps more changed.
  predicate KickedFrom(s: St, m: St, t: St, before: seq<Frame>) {
    && Followed(before, s, t, m.v.vr)
    && t.v == m.v.(vs := t.v.vs, cond := m.v.cond.(ackPending := t.v.cond.ackPending))
    && t.state == m.state && t.obs == m.obs && t.hist == m.hist && t.cfg == m.cfg && !t.terminated
    && (m.v.cond.peerRxBusy ==> t == m)
    && (!m.v.cond.peerRxBusy ==>
          && (t.txBuf == [] || Dist(t.v.va, t.v.vs, M(t)) == t.cfg.window)
          && t.on == m.on.(t2 := t.on.t2, t1 := t.v.vs != t.v.va || m.on.t1, t3 := t.v.vs == t.v.va && m.on.t3))
  }

  lemma KickTimers(m: St)
    requires InStep(m) && ConfigOk(m.cfg) && WindowOk(m) && !m.v.cond.peerRxBusy
    ensures var t := Kicked(m);
            t.on == m.on.(t2 := t.on.t2, t1 := t.v.vs != t.v.va || m.on.t1, t3 := t.v.vs == t.v.va && m.on.t3)
  {
    hide Drained, WindowOk;
    DrainedKeeps(m);
  }

  lemma KickAfter(s: St, m: St, before: seq<Frame>)
    requires Inv(m) && Live(m) && m.tx == s.tx + before && m.cfg == s.cfg
    ensures KickedFrom(s, m, Kicked(m), before)
  {
    KickLaw(m);
    KickedKeeps(m);
    KickedWindow(m);
    if !m.v.cond.peerRxBusy {
      KickTimers(m);
    }
    ThenKick(s, m, Kicked(m), before);
  }

  lemma KickedWindow(m: St)
    requires Inv(m) && Live(m)
    ensures Dist(Kicked(m).v.va, Kicked(m).v.vs, M(m)) <= m.cfg.window
  {
    hide Kicked;
    KickedKeeps(m);
  }

  lemma NothingBefore(s: St)
    ensures s.tx == s.tx + []
  {
  }

  // ----- asking -----

  lemma EnquiredIs(s: St)
    requires InStep(s)
    ensures Enquired(s) == s.(tx := s.tx + OnAir(Enquiry(s)), v := s.v.(cond := s.v.cond.(ackPending := false)),
                              on := s.on.(t2 := false))
  {
    hide SentStatus, OnAir;
    StatusIs(s, true, false);
  }

  // In CONNECTED either timer's expiry makes the session ask, with T1 over the answer:
  // the one frame sent is RR, or RNR while this end is busy, a command with P=1.
  lemma TimerAsks(s: St, ev: Event)
    requires Inv(s) && s.state == Connected && (ev.T1Expiry? || ev.T3Expiry?)
    ensures var t := Handled(s, ev).st;
            && t.tx == s.tx + OnAir(Enquiry(s)) && t.state == TimerRecovery
            && t.v == s.v.(n2Count := if ev.T1Expiry? then 1 else 0, cond := s.v.cond.(ackPending := false))
            && t.on == s.on.(t1 := true, t2 := false, stats := false) && SameRing(s, t)
            && t.obs == s.obs + [StateChange(TimerRecovery), LinkStats]
  {
    hide OnAir, Enquired;
    EnquiredIs(s.(v := s.v.(n2Count := if ev.T1Expiry? then 1 else 0)));
  }

  // In TIMER_RECOVERY it asks again while n2 allows, before anything else it sends.
  lemma TimerAsksAgain(s: St)
    requires Inv(s) && s.state == TimerRecovery && s.v.n2Count < s.cfg.n2
    ensures var t := Handled(s, T1Expiry).st;
            && Followed(OnAir(Enquiry(s)), s, t, s.v.vr) && t.state == TimerRecovery && t.obs == s.obs
            && t.v.n2Count == s.v.n2Count + 1 && t.on.t1 && !t.on.t2 && !t.v.cond.ackPending
            && t.v.va == s.v.va && t.v.vr == s.v.vr && t.cfg == s.cfg
  {
    hide OnAir, Kicked, Followed, Handled, Enquiry;
    var m := AskedAgain(s);
    AskedAgainIs(s);
    HandledAgain(s);
    KickAfter(s, m, OnAir(Enquiry(s)));
    KickStopsT2(m);
  }

  function AskedAgain(s: St): St {
    var t := Enquired(s.(v := s.v.(n2Count := s.v.n2Count + 1)));
    t.(on := t.on.(t1 := true))
  }

  lemma AskedAgainIs(s: St)
    requires Inv(s) && s.state == TimerRecovery && s.v.n2Count < s.cfg.n2
    ensures var m := AskedAgain(s);
            && Live(m) && Inv(m) && m.tx == s.tx + OnAir(Enquiry(s)) && m.on == s.on.(t1 := true, t2 := false)
            && m.v == s.v.(n2Count := s.v.n2Count + 1, cond := s.v.cond.(ackPending := false))
            && m.state == s.state && m.obs == s.obs && m.cfg == s.cfg
  {
    EnquiredIs(s.(v := s.v.(n2Count := s.v.n2Count + 1)));
    hide OnAir, Enquired, Enquiry, Inv;
    AskedAgainReady(s);
  }

  lemma AskedAgainReady(s: St)
    requires Inv(s) && s.state == TimerRecovery && s.v.n2Count < s.cfg.n2
    ensures Live(AskedAgain(s)) && Inv(AskedAgain(s))
  {
    hide Enquired, Healthy, WindowOk;
    EnquiryHealthy(s, s.v.n2Count + 1, false, true, true);
  }

  lemma HandledAgain(s: St)
    requires Inv(s) && s.state == TimerRecovery && s.v.n2Count < s.cfg.n2
    ensures RingOk(AskedAgain(s)) && Handled(s, T1Expiry).st == Kicked(AskedAgain(s))
  {
    AskedAgainIs(s);
    hide Kicked, Enquired, TornDown, SentU;
  }

  // After n2 unanswered enquiries T1 ends the link, and says so to both sides.
  lemma TimerGivesUp(s: St)
    requires Inv(s) && s.state == TimerRecovery && s.v.n2Count >= s.cfg.n2
    ensures var t := Handled(s, T1Expiry).st;
            && t.tx == s.tx + [Unnumbered(s.cfg, FrameDM, true, false)] && t.state == Disconnected && t.terminated
            && t.obs == s.obs + [Error(AckTimeout), StateChange(Disconnected), LinkStats] && t.txBuf == []
            && !t.on.t1 && !t.on.t2 && !t.on.t3 && !t.on.hb
  {
    assert s.obs + [Error(AckTimeout)] + [StateChange(Disconnected), LinkStats]
        == s.obs + [Error(AckTimeout), StateChange(Disconnected), LinkStats];
  }

  // T3 running out in TIMER_RECOVERY asks nothing (this state has no branch for it).
  lemma IdleTimerIgnored(s: St)
    requires Inv(s) && s.state == TimerRecovery
    ensures KickedFrom(s, s, Handled(s, T3Expiry).st, [])
  {
    hide Kicked, KickedFrom;
    NothingBefore(s);
    KickAfter(s, s, []);
  }

  // ----- answering -----

  predicate BareNR(f: Frame) {
    IsStatus(f) || IsREJ(f)
  }

  function AnswerTo(s: St, f: Frame): seq<Frame> {
    if f.isCommand && f.control.pf then OnAir(Answer(s)) else []
  }

  lemma AnsweredIs(s: St, f: Frame)
    requires InStep(s)
    ensures AnsweredPoll(s, f) == s.(tx := s.tx + AnswerTo(s, f))
  {
    hide SentStatus, OnAir;
    NothingBefore(s);
    StatusIs(s, true, true);
  }

  // What such a frame settles before the kick: N(R) acknowledged, or on a REJ the frames
  // from N(R) on put back in front of the queue, and whether the peer is ready.
  predicate Settles(s: St, f: Frame, m: St) {
    && m.v == s.v.(va := f.control.nr, vs := if IsREJ(f) then f.control.nr else s.v.vs,
                   n2Count := if Final(s, f) then 0 else s.v.n2Count,
                   cond := s.v.cond.(peerRxBusy := f.control.kind.FrameRNR?))
    && m.cfg == s.cfg && m.tx == s.tx + AnswerTo(s, f)
    && m.state == (if Final(s, f) && m.v.vs == m.v.va then Connected else s.state)
    && Delivered(m.obs) == Delivered(s.obs)
    && m.on.t2 == s.on.t2
    && (s.v.vs == f.control.nr ==> !m.on.t1 && m.on.t3)
    && (s.v.vs != f.control.nr ==>
          if IsREJ(f) && s.state == Connected then !m.on.t1 && m.on.t3
          else m.on.t1 && m.on.t3 == (s.on.t3 || m.state != s.state))
  }

  predicate Final(s: St, f: Frame) {
    s.state == TimerRecovery && !f.isCommand && f.control.pf
  }

  predicate Carries(s: St, f: Frame) {
    BareNR(f) && f.control.nr < M(s) && ValidNR(s, f.control.nr)
  }

  // The state such a frame leaves before the kick, in two steps.
  function AfterAck(s: St, f: Frame): St
    requires InStep(s) && f.control.nr < M(s)
  {
    var p := WithPeerBusy(s, f.control.kind.FrameRNR?);
    Acked(if Final(s, f) then p.(v := p.v.(n2Count := 0)) else AnsweredPoll(p, f), f.control.nr)
  }

  function BeforeKick(s: St, f: Frame): St
    requires InStep(s) && f.control.nr < M(s)
  {
    var a := AfterAck(s, f);
    var b := if IsREJ(f) then Requeued(a) else a;
    if Final(s, f) then Recovered(b)
    else if IsREJ(f) && s.state == Connected then b.(on := b.on.(t1 := false, t3 := true))
    else b
  }

  lemma AfterAckReady(s: St, f: Frame)
    requires Inv(s) && Live(s) && Carries(s, f)
    ensures Live(AfterAck(s, f)) && Inv(AfterAck(s, f))
  {
    hide SentStatus;
    var p := WithPeerBusy(s, f.control.kind.FrameRNR?);
    BusyKeeps(s, f.control.kind.FrameRNR?, false);
    var q := if Final(s, f) then p.(v := p.v.(n2Count := 0)) else AnsweredPoll(p, f);
    AnsweredIs(p, f);
    hide AnsweredPoll;
    SameRingKeeps(p, q);
    AckedReady(q, f.control.nr, false, true);
  }

  lemma BeforeKickReady(s: St, f: Frame)
    requires Inv(s) && Live(s) && Carries(s, f)
    ensures Live(BeforeKick(s, f)) && Inv(BeforeKick(s, f))
  {
    hide AfterAck, Requeued;
    AfterAckReady(s, f);
    var a := AfterAck(s, f);
    RequeuedReady(a, false, true, true);
    var b := if IsREJ(f) then Requeued(a) else a;
    SameRingKeeps(b, Recovered(b));
    SameRingKeeps(b, b.(on := b.on.(t1 := false, t3 := true)));
  }

  lemma BeforeKickSettles(s: St, f: Frame)
    requires Inv(s) && Live(s) && Carries(s, f)
    ensures Settles(s, f, BeforeKick(s, f))
  {
    hide Slots, Cleared, Collect, SentStatus;
    var p := WithPeerBusy(s, f.control.kind.FrameRNR?);
    AnsweredIs(p, f);
    NothingBefore(s);
    hide OnAir, AnsweredPoll;
    var note := [StateChange(Connected), LinkStats];
    DeliveredConcat(s.obs, note);
    assert note[1..] == [LinkStats] && [LinkStats][1..] == [];
    assert Delivered(note) == [];
  }

  lemma HandledBare(s: St, f: Frame)
    requires Inv(s) && Live(s) && Carries(s, f)
    ensures Admissible(s, FrameRX(Some(f))) && RingOk(BeforeKick(s, f))
    ensures Handled(s, FrameRX(Some(f))).st == Kicked(BeforeKick(s, f))
  {
    BeforeKickReady(s, f);
    BareAdmissible(s, f);
    hide Kicked, BeforeKick, Handled, ConnectedFrame, RecoveryFrame;
    LiveFrame(s, f);
    BareFrame(s, f);
  }

  lemma BareAdmissible(s: St, f: Frame)
    requires Carries(s, f)
    ensures Admissible(s, FrameRX(Some(f)))
  {
  }

  lemma BareFrame(s: St, f: Frame)
    requires InStep(s) && Carries(s, f) && Admissible(s, FrameRX(Some(f))) && RingOk(BeforeKick(s, f))
    ensures s.state == Connected ==> ConnectedFrame(s, f) == Kicked(BeforeKick(s, f))
    ensures s.state == TimerRecovery ==> RecoveryFrame(s, f) == Kicked(BeforeKick(s, f))
  {
    hide Kicked, Acked, Requeued, Recovered, AnsweredPoll;
    assert M(WithPeerBusy(s, true)) == M(s) == M(WithPeerBusy(s, false));
  }


  // What t owes to such a frame, beyond the one answer it may have got.
  predicate SettledBy(s: St, f: Frame, t: St) {
    var nr := f.control.nr;
    && t.v.va == nr && t.v.vr == s.v.vr && t.v.cond.reject == s.v.cond.reject
    && t.v.cond.ownRxBusy == s.v.cond.ownRxBusy && t.v.cond.peerRxBusy == f.control.kind.FrameRNR?
    && t.state == (if Final(s, f) && (IsREJ(f) || s.v.vs == nr) then Connected else s.state)
    && t.v.n2Count == (if Final(s, f) then 0 else s.v.n2Count)
    && Delivered(t.obs) == Delivered(s.obs)
    && (f.control.kind.FrameRNR? ==> t.tx == s.tx + AnswerTo(s, f) && t.v.vs == s.v.vs)
    && (t.v.vs != nr ==> t.on.t1) && (s.v.vs == nr == t.v.vs ==> !t.on.t1 && t.on.t3)
    && (IsREJ(f) && s.state == Connected ==> t.on.t1 == (t.v.vs != nr))
    && (!f.control.kind.FrameRNR? ==> t.v.vs != nr ==> !t.on.t3)
  }

  // Every RR, RNR or REJ with a valid N(R): a command with P=1 gets the one response with
  // F=1 before anything else is sent, any other gets none; T1 runs over what N(R) leaves
  // outstanding and T3 over nothing; RNR stops the sending and the other two let it go
  // on; and a response with F=1 ends an enquiry when N(R) is V(S) or the frames from
  // N(R) on are to be sent again.
  lemma BareAnswered(s: St, f: Frame)
    requires Inv(s) && Live(s) && Carries(s, f)
    ensures Admissible(s, FrameRX(Some(f)))
    ensures var t := Handled(s, FrameRX(Some(f))).st; Followed(AnswerTo(s, f), s, t, s.v.vr) && SettledBy(s, f, t)
  {
    BeforeKickReady(s, f);
    BeforeKickSettles(s, f);
    HandledBare(s, f);
    hide Handled, BeforeKick, AnswerTo, Followed;
    KickAfter(s, BeforeKick(s, f), AnswerTo(s, f));
  }

  // ----- what restarts the link -----

  // An N(R) outside the window, or a frame no live link expects, makes the session set
  // the link up anew.
  predicate Unexpected(s: St, f: Frame) {
    var kind := f.control.kind;
    if kind.FrameI? || BareNR(f) then !ValidNR(s, f.control.nr)
    else !(kind.FrameSABM? || kind.FrameSABME? || kind.FrameDISC? || kind.FrameDM?)
  }

  lemma UnexpectedRestarts(s: St, f: Frame)
    requires Inv(s) && Live(s) && Unexpected(s, f)
    ensures Admissible(s, FrameRX(Some(f)))
    ensures var t := Handled(s, FrameRX(Some(f))).st;
            && t.tx == s.tx + [Unnumbered(s.cfg, if s.cfg.mod128 then FrameSABME else FrameSABM, true, true)]
            && t.state == AwaitingConnection && t.v == s.v.(cond := NO_COND, n2Count := 0)
            && t.on == s.on.(t1 := true, t2 := false, t3 := false, stats := s.state == TimerRecovery && s.on.stats)
            && t.obs == s.obs + [StateChange(AwaitingConnection), LinkStats]
            && t.pending == s.pending && t.txBuf == s.txBuf && t.cfg == s.cfg
  {
    UnexpectedAdmissible(s, f);
    hide Handled, ConnectedFrame, RecoveryFrame;
    LiveFrame(s, f);
    UnexpectedFrame(s, f);
    RestartIs(s);
    RestartIs(WithPeerBusy(s, true));
    RestartIs(WithPeerBusy(s, false));
    hide Reestablished;
  }

  lemma UnexpectedAdmissible(s: St, f: Frame)
    requires Unexpected(s, f)
    ensures Admissible(s, FrameRX(Some(f)))
  {
  }

  lemma UnexpectedFrame(s: St, f: Frame)
    requires InStep(s) && Unexpected(s, f) && Admissible(s, FrameRX(Some(f)))
    ensures var t := if s.state == Connected then ConnectedFrame(s, f) else RecoveryFrame(s, f);
            || t == Reestablished(s) || t == Reestablished(WithPeerBusy(s, true))
            || t == Reestablished(WithPeerBusy(s, false))
  {
    hide Kicked, Acked, Requeued, Slots, AnsweredPoll, Received, Reestablished;
    assert M(WithPeerBusy(s, true)) == M(s) == M(WithPeerBusy(s, false));
  }

  lemma RestartIs(s: St)
    requires Live(s)
    ensures var sabm := Unnumbered(s.cfg, if s.cfg.mod128 then FrameSABME else FrameSABM, true, true);
            var stats := s.state == TimerRecovery && s.on.stats;
            Reestablished(s) == s.(tx := s.tx + [sabm], state := AwaitingConnection,
                                   v := s.v.(cond := NO_COND, n2Count := 0),
                                   on := s.on.(t1 := true, t2 := false, t3 := false, stats := stats),
                                   obs := s.obs + [StateChange(AwaitingConnection), LinkStats])
  {
  }

  // ----- the heartbeat -----

  // A live session that could not receive says by the next heartbeat that it can.
  lemma HeartbeatFrees(s: St)
    requires Inv(s) && Live(s)
    ensures var t := Handled(s, Heartbeat).st;
            && t.tx == s.tx + (if s.v.cond.ownRxBusy
                               then OnAir(Supervisory(s.cfg, FrameRR, s.v.vr, false, false)) else [])
            && !t.v.cond.ownRxBusy && t.v.cond.ackPending == (s.v.cond.ackPending && !s.v.cond.ownRxBusy)
            && t.v.vr == s.v.vr && t.on == s.on.(hb := true) && t.obs == s.obs && t.state == s.state && SameRing(s, t)
  {
    hide SentStatus, OnAir;
    NothingBefore(s);
    StatusIs(s.(v := s.v.(cond := s.v.cond.(ownRxBusy := false, ackPending := false))), false, true);
  }

  // The statistics tick reports a snapshot and re-arms itself in CONNECTED, and is nothing
  // elsewhere.
  lemma StatsTickTells(s: St)
    requires Inv(s)
    ensures Handled(s, StatsTick).st
            == if s.state == Connected then s.(obs := s.obs + [LinkStats], on := s.on.(stats := true)) else s
  {
  }

  // ----- the pair -----

  // Whether this expiry makes a live session ask: either timer in CONNECTED, and T1 in
  // TIMER_RECOVERY while n2 allows.
  predicate Asks(s: St, ev: Event) {
    if s.state == Connected then ev.T1Expiry? || ev.T3Expiry? else ev.T1Expiry? && s.v.n2Count < s.cfg.n2
  }

  lemma AskedHead(a: St, ev: Event)
    requires Up(a) && Asks(a, ev) && a.tx == []
    ensures var t := Handled(a, ev).st;
            && t.tx != [] && t.tx[0] == Enquiry(a) && t.state == TimerRecovery && t.v.vr == a.v.vr && t.cfg == a.cfg
            && Admissible(a, ev)
  {
    hide Handled, OnAir, Enquiry;
    if a.state == Connected {
      TimerAsks(a, ev);
    } else {
      TimerAsksAgain(a);
    }
    assert OnAir(Enquiry(a)) == [Enquiry(a)] by { EnquiryOnAir(a); }
  }

  lemma EnquiryOnAir(a: St)
    requires Base(a)
    ensures OnAir(Enquiry(a)) == [Enquiry(a)] && OnAir(Answer(a)) == [Answer(a)]
  {
  }

  lemma AskedLinked(a: St, b: St, ev: Event) returns (a1: St)
    requires Linked(a, b) && Asks(a, ev) && a.tx == []
    ensures HandlesA(a, ev, a1) && Linked(a1, b) && a1.tx != [] && a1.tx[0] == Enquiry(a)
            && a1.state == TimerRecovery && a1.v.vr == a.v.vr && a1.cfg == a.cfg
  {
    hide Linked, Handled, Enquiry, Asks;
    LinkedUp(a, b);
    AskedHead(a, ev);
    UpLive(a);
    AsksLocal(a, ev);
    UpAgain(a, ev);
    a1 := Synced(Handled(a, ev).st);
    LocalLinked(a, b, ev, a1);
  }

  lemma AsksLocal(a: St, ev: Event)
    requires Asks(a, ev)
    ensures IsLocal(ev) && LosesNothing(a, ev)
  {
  }

  // A peer that is up answers an enquiry at once, first of all it sends.
  lemma EnquiryTaken(b: St, a: St, e: St) returns (b1: St)
    requires Linked(b, a) && b.tx == [] && a.tx != [] && a.tx[0] == Enquiry(e) && e.v.vr == a.v.vr
    ensures HandlesA(b, FrameRX(Some(a.tx[0])), b1) && Linked(b1, Popped(a)) && b1.tx != [] && b1.tx[0] == Answer(b)
            && b1.v.vr == b.v.vr
  {
    hide Linked, Handled, OnAir, Answer;
    HeadTaken(b, a);
    LinkedUp(b, a);
    LapbArrives.LinkNumbers(b, a);
    EnquiryOnAir(b);
    BareAnswered(b, a.tx[0]);
    b1 := Synced(Handled(b, FrameRX(Some(a.tx[0]))).st);
  }

  lemma AnswerTaken(a: St, b: St, e: St) returns (a2: St)
    requires Linked(a, b) && a.state == TimerRecovery && b.tx != [] && b.tx[0] == Answer(e) && e.v.vr == b.v.vr
    ensures HandlesA(a, FrameRX(Some(b.tx[0])), a2) && a2.v.va == b.v.vr && a2.v.n2Count == 0
            && a2.state == if a.v.vs == b.v.vr then Connected else TimerRecovery
  {
    hide Linked, Handled, OnAir;
    HeadTaken(a, b);
    LinkedUp(a, b);
    LapbArrives.LinkNumbers(a, b);
    BareAnswered(a, b.tx[0]);
    a2 := Synced(Handled(a, FrameRX(Some(b.tx[0]))).st);
  }

  // Between two established sessions with nothing on its way: the enquiry is delivered
  // and answered, and the answer brings the session that asked back to CONNECTED exactly
  // when its peer has everything it sent. Either way its retry count starts afresh.
  lemma EnquiryRoundTrip(a: St, b: St, ev: Event) returns (tr: seq<Pair>)
    requires Linked(a, b) && Asks(a, ev) && a.tx == [] && b.tx == []
    ensures |tr| == 4 && PairRun(tr, [Local(AtA, ev), Deliver(AtB), Deliver(AtA)]) && tr[0] == Pair(a, b)
    ensures tr[1].a.tx != [] && tr[1].a.tx[0] == Enquiry(a) && tr[2].b.tx != [] && tr[2].b.tx[0] == Answer(b)
    ensures tr[3].a.v.va == b.v.vr && tr[3].a.v.n2Count == 0
    ensures tr[3].a.state == if tr[1].a.v.vs == b.v.vr then Connected else TimerRecovery
  {
    hide Linked, Handled, Enquiry, Answer, Asks, HandlesA;
    var a1 := AskedLinked(a, b, ev);
    LinkedSwap(a1, b);
    var b1 := EnquiryTaken(b, a1, a);
    LinkedSwap(b1, Popped(a1));
    var a2 := AnswerTaken(Popped(a1), b1, b);
    AsksLocal(a, ev);
    tr := [Pair(a, b), Pair(a1, b), Pair(Popped(a1), b1), Pair(a2, Popped(b1))];
    hide NextPair, PairRun, Linked, Popped;
    LocalStep(a, b, ev, a1);
    DeliverAtB(a1, b, b1);
    DeliverAtA(Popped(a1), b1, a2);
    Three(tr, Local(AtA, ev), Deliver(AtB), Deliver(AtA));
  }

  lemma LocalStep(a: St, b: St, ev: Event, t: St)
    requires IsLocal(ev) && HandlesA(a, ev, t)
    ensures NextPair(Pair(a, b), Local(AtA, ev), Pair(t, b))
  {
  }

  lemma DeliverAtA(a: St, b: St, t: St)
    requires b.tx != [] && HandlesA(a, FrameRX(Some(b.tx[0])), t)
    ensures NextPair(Pair(a, b), Deliver(AtA), Pair(t, Popped(b)))
  {
  }

  lemma DeliverAtB(a: St, b: St, t: St)
    requires a.tx != [] && HandlesA(b, FrameRX(Some(a.tx[0])), t)
    ensures NextPair(Pair(a, b), Deliver(AtB), Pair(Popped(a), t))
  {
  }

  lemma Three(tr: seq<Pair>, x: Step, y: Step, z: Step)
    requires |tr| == 4 && NextPair(tr[0], x, tr[1]) && NextPair(tr[1], y, tr[2]) && NextPair(tr[2], z, tr[3])
    ensures PairRun(tr, [x, y, z])
  {
  }

  // An idle link that asks is back in CONNECTED one exchange later.
  lemma IdleReturns(a: St, b: St, ev: Event) returns (tr: seq<Pair>)
    requires Linked(a, b) && a.state == Connected && (ev.T1Expiry? || ev.T3Expiry?) && a.tx == [] && b.tx == []
    requires a.v.vs == a.v.va
    ensures |tr| == 4 && PairRun(tr, [Local(AtA, ev), Deliver(AtB), Deliver(AtA)]) && tr[0] == Pair(a, b)
    ensures tr[3].a.state == Connected && tr[3].a.v.va == a.v.va
  {
    hide Linked, Handled, PairRun;
    tr := EnquiryRoundTrip(a, b, ev);
    LinkedUp(a, b);
    LapbArrives.LinkNumbers(a, b);
    TimerAsks(a, ev);
    FirstStep(tr, ev);
  }

  lemma FirstStep(tr: seq<Pair>, ev: Event)
    requires PairRun(tr, [Local(AtA, ev), Deliver(AtB), Deliver(AtA)])
    ensures HandlesA(tr[0].a, ev, tr[1].a)
  {
    assert NextPair(tr[0], Local(AtA, ev), tr[1]);
  }
}
