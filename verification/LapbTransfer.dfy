// The transfer theorem: between two established modulo-8 sessions whose channels lose
// frames but neither reorder nor duplicate them, what one side's observer receives is
// always a prefix of what the other side took in, and no N(R) is ever judged invalid.

module LapbTransfer {
  import opened Common
  import opened Control
  import opened Frames
  import opened Ring
  import opened LapbSpec
  import opened LapbRing
  import opened LapbInvariants
  import opened LapbDirection
  import opened LapbLink

  // ----- events that are not frames -----

  lemma WithStateLink(a: St, b: St, k: nat, l: nat, ns: State)
    requires Link(a, b, k, l) && (ns == Connected || ns == TimerRecovery)
    ensures Link(WithState(a, ns), b, k, l)
  {
    LinkBase(a, b, k, l);
    DeliveredConcat(a.obs, [StateChange(ns), LinkStats]);
    assert [StateChange(ns), LinkStats][1..] == [LinkStats] && [LinkStats][1..] == [];
    assert Delivered([LinkStats]) == [];
    QuietLink(a, b, k, l, WithState(a, ns));
  }

  lemma TookLink(a: St, b: St, k: nat, l: nat, data: seq<U8>)
    requires Link(a, b, k, l)
    ensures Link(Took(a, data), b, k, l)
  {
    LinkBase(a, b, k, l);
    QuietLink(a, b, k, l, Took(a, data));
  }

  lemma EnquiryLink(a: St, b: St, k: nat, l: nat, n2: int)
    requires Link(a, b, k, l)
    ensures var s1 := Enquired(a.(v := a.v.(n2Count := n2)));
            var s2 := s1.(on := s1.on.(t1 := true));
            Link(s2, b, k, l) && Link(WithState(s2, TimerRecovery), b, k, l)
  {
    hide Link, SentStatus, WithState;
    LinkBase(a, b, k, l);
    var s0 := a.(v := a.v.(n2Count := n2));
    QuietLink(a, b, k, l, s0);
    SentStatusLink(s0, b, k, l, true, false);
    var t := SentStatus(s0, true, false);
    LinkBase(t, b, k, l);
    var s1 := Enquired(s0);
    var s2 := s1.(on := s1.on.(t1 := true));
    QuietLink(t, b, k, l, s2);
    WithStateLink(s2, b, k, l, TimerRecovery);
  }

  lemma FlushedAckLink(a: St, b: St, k: nat, l: nat)
    requires Link(a, b, k, l)
    ensures Link(FlushedAck(a), b, k, l)
  {
    hide Link, SentStatus;
    LinkBase(a, b, k, l);
    if a.v.cond.ackPending {
      var s0 := a.(v := a.v.(cond := a.v.cond.(ackPending := false)));
      QuietLink(a, b, k, l, s0);
      SentStatusLink(s0, b, k, l, false, true);
    }
  }

  lemma HeartbeatLink(a: St, b: St, k: nat, l: nat)
    requires Link(a, b, k, l)
    ensures Link(HeartbeatTick(a), b, k, l)
  {
    hide Link, SentStatus;
    LinkBase(a, b, k, l);
    if a.v.cond.ownRxBusy {
      var s0 := a.(v := a.v.(cond := a.v.cond.(ownRxBusy := false, ackPending := false)));
      QuietLink(a, b, k, l, s0);
      SentStatusLink(s0, b, k, l, false, true);
      var t := SentStatus(s0, false, true);
      LinkBase(t, b, k, l);
      QuietLink(t, b, k, l, t.(on := t.on.(hb := true)));
    } else {
      QuietLink(a, b, k, l, a.(on := a.on.(hb := true)));
    }
  }

  lemma StatsTickedLink(a: St, b: St, k: nat, l: nat)
    requires Link(a, b, k, l)
    ensures Link(StatsTicked(a), b, k, l)
  {
    LinkBase(a, b, k, l);
    EmittedDelivered(a, LinkStats);
    QuietLink(a, b, k, l, StatsTicked(a));
  }

  predicate IsLocal(ev: Event) {
    !(ev.FrameRX? && ev.frame.Some?)
  }

  lemma ConnectedLocalLink(a: St, b: St, k: nat, l: nat, ev: Event)
    requires Up(a) && a.state == Connected && Link(a, b, k, l) && IsLocal(ev) && Live(OnConnected(a, ev).st)
    ensures Link(OnConnected(a, ev).st, b, k, l)
  {
    hide Link, Kicked, Took, Enquired, WithState, FlushedAck;
    match ev
    case DataTX(data) =>
      TookLink(a, b, k, l, data);
      TookReady(a, data, false, true, true);
      KickedLink(Took(a, data), b, k, l);
    case T1Expiry => EnquiryLink(a, b, k, l, 1);
    case T3Expiry => EnquiryLink(a, b, k, l, 0);
    case T2Expiry =>
      FlushedAckLink(a, b, k, l);
      FlushedAckReady(a, false, true, true);
      KickedLink(FlushedAck(a), b, k, l);
    case Disconnect => ReleasingDown(a);
    case Abort => ReleasingDown(a);
    case Shutdown =>
    case _ => KickedLink(a, b, k, l);
  }

  lemma ReleasingDown(a: St)
    ensures !Live(Releasing(a))
  {
  }

  lemma GaveUpDown(a: St)
    requires InStep(a) && a.v.n2Count >= a.cfg.n2
    ensures !Live(EnquiredAgain(a))
  {
    hide SentU, Kicked, NoQueues, NoTimers, Enquired;
  }

  lemma EnquiredAgainLink(a: St, b: St, k: nat, l: nat)
    requires Up(a) && a.state == TimerRecovery && Link(a, b, k, l) && Live(EnquiredAgain(a))
    ensures Link(EnquiredAgain(a), b, k, l)
  {
    hide Link, Enquired, Kicked, TornDown;
    if a.v.n2Count >= a.cfg.n2 {
      GaveUpDown(a);
    } else {
      EnquiryLink(a, b, k, l, a.v.n2Count + 1);
      EnquiryHealthy(a, a.v.n2Count + 1, false, true, true);
      var s1 := Enquired(a.(v := a.v.(n2Count := a.v.n2Count + 1)));
      KickedLink(s1.(on := s1.on.(t1 := true)), b, k, l);
    }
  }

  lemma RecoveryLocalLink(a: St, b: St, k: nat, l: nat, ev: Event)
    requires Up(a) && a.state == TimerRecovery && Link(a, b, k, l) && IsLocal(ev) && Live(OnTimerRecovery(a, ev).st)
    ensures Link(OnTimerRecovery(a, ev).st, b, k, l)
  {
    hide Link, Kicked, Took, EnquiredAgain, FlushedAck;
    match ev
    case DataTX(data) =>
      TookLink(a, b, k, l, data);
      TookReady(a, data, false, true, true);
      KickedLink(Took(a, data), b, k, l);
    case T1Expiry => EnquiredAgainLink(a, b, k, l);
    case T2Expiry =>
      FlushedAckLink(a, b, k, l);
      FlushedAckReady(a, false, true, true);
      KickedLink(FlushedAck(a), b, k, l);
    case Disconnect => ReleasingDown(a);
    case Abort => ReleasingDown(a);
    case Shutdown =>
    case _ => KickedLink(a, b, k, l);
  }

  lemma LocalLink(a: St, b: St, k: nat, l: nat, ev: Event)
    requires Up(a) && Link(a, b, k, l) && IsLocal(ev) && Live(Handled(a, ev).st)
    ensures Link(Handled(a, ev).st, b, k, l)
  {
    hide Link, OnConnected, OnTimerRecovery;
    if ev.Heartbeat? {
      HeartbeatLink(a, b, k, l);
    } else if ev.StatsTick? {
      StatsTickedLink(a, b, k, l);
    } else if a.state == Connected {
      ConnectedLocalLink(a, b, k, l, ev);
    } else {
      RecoveryLocalLink(a, b, k, l, ev);
    }
  }

  // ----- taking the frame at the head of the peer's channel -----
  // f has left b's channel; AckFact and HeadFact are what its having been there says.

  lemma BusyLink(a: St, b: St, k: nat, l: nat, busy: bool)
    requires Link(a, b, k, l)
    ensures Link(WithPeerBusy(a, busy), b, k, l)
  {
    LinkBase(a, b, k, l);
    QuietLink(a, b, k, l, WithPeerBusy(a, busy));
  }

  // Answering a poll changes nothing the head frame's facts speak of.
  lemma AnsweredLink(a: St, b: St, k: nat, l: nat, f: Frame)
    requires Link(a, b, k, l) && AckFact(a, b, f, a.tx, b.tx)
    ensures var a' := AnsweredPoll(a, f);
            Link(a', b, k, l) && AckFact(a', b, f, a'.tx, b.tx)
  {
    LinkBase(a, b, k, l);
    if f.isCommand && f.control.pf {
      SentStatusLink(a, b, k, l, true, true);
      StatusOut(a, true, true);
    }
  }

  lemma StatusDelivered(a: St, b: St, k: nat, l: nat, f: Frame)
    requires Live(a) && Inv(a) && Link(a, b, k, l) && AckFact(a, b, f, a.tx, b.tx)
    ensures Link(ConnectedStatus(a, f), b, k, l) && Live(ConnectedStatus(a, f))
  {
    hide Link, AckFact, Acked, Kicked, AnsweredPoll;
    LinkBase(a, b, k, l);
    var nr := f.control.nr;
    assert nr < 8 by { AckFactNR(a, b, f); }
    AckLink(a, b, k, l, f);
    AnsweredLink(a, b, k, l, f);
    var s1 := AnsweredPoll(a, f);
    AckLink(s1, b, k, l, f);
    AnsweredAlike(a, f);
    AckedReady(s1, nr, false, true);
    KickedLink(Acked(s1, nr), b, k, l);
    KickedHealthy(Acked(s1, nr), false, false, true);
  }

  lemma AckFactNR(a: St, b: St, f: Frame)
    requires AckFact(a, b, f, a.tx, b.tx)
    ensures f.control.nr < 8
  {
  }

  lemma AnsweredAlike(a: St, f: Frame)
    requires Live(a) && Inv(a)
    ensures Live(AnsweredPoll(a, f)) && Inv(AnsweredPoll(a, f)) && AnsweredPoll(a, f).state == a.state
    ensures AnsweredPoll(a, f).v == a.v && AnsweredPoll(a, f).cfg == a.cfg
  {
    SameRingKeeps(a, AnsweredPoll(a, f));
  }

  // Acknowledging and cutting anew on a REJ.
  lemma CutAnew(a: St, b: St, k: nat, l: nat, f: Frame) returns (k': nat)
    requires Live(a) && Inv(a) && Link(a, b, k, l) && AckFact(a, b, f, a.tx, b.tx) && IsREJ(f)
    ensures f.control.nr < M(a) && ValidNR(a, f.control.nr)
    ensures var s' := Requeued(Acked(a, f.control.nr));
            Link(s', b, k', l) && Live(s') && Inv(s') && s'.v.vs == s'.v.va && s'.state == a.state
  {
    var nr := f.control.nr;
    AckLink(a, b, k, l, f);
    var s2 := Acked(a, nr);
    assert s2.tx == a.tx && s2.state == a.state && M(s2) == M(a);
    AckedReady(a, nr, false, true);
    hide Acked, Slots, Cleared, Collect, Dir;
    assert NoREJ(b.tx) && b.v.cond.reject && s2.v.va == b.v.vr && NoneAt(s2.tx, b.v.vr);
    RequeueLink(s2, b, k, l);
    RequeuedReady(s2, false, true, true);
    k' := |s2.tx|;
  }

  lemma RejectDelivered(a: St, b: St, k: nat, l: nat, f: Frame) returns (k': nat)
    requires Live(a) && Inv(a) && Link(a, b, k, l) && AckFact(a, b, f, a.tx, b.tx) && IsREJ(f)
    ensures f.control.nr < M(a) && ValidNR(a, f.control.nr)
    ensures Link(ConnectedReject(a, f), b, k', l) && Live(ConnectedReject(a, f))
  {
    hide Link, AckFact, Acked, Kicked, Requeued, AnsweredPoll;
    AnsweredLink(a, b, k, l, f);
    AnsweredAlike(a, f);
    var s1 := AnsweredPoll(a, f);
    k' := CutAnew(s1, b, k, l, f);
    var s3 := Requeued(Acked(s1, f.control.nr));
    LinkBase(s3, b, k', l);
    var s4 := s3.(on := s3.on.(t1 := false, t3 := true));
    SameRingKeeps(s3, s4);
    QuietLink(s3, b, k', l, s4);
    KickedLink(s4, b, k', l);
    KickedHealthy(s4, false, true, true);
  }

  lemma InformationDelivered(a: St, b: St, k: nat, l: nat, l0: nat, f: Frame)
    requires Live(a) && Inv(a) && Link(a, b, k, l) && AckFact(a, b, f, a.tx, b.tx)
    requires |b.pending| == RING_SIZE && HeadFact(b, a, f, b.tx, a.tx, l0) && IsI(f) && f.control.ns < 8
    requires l0 == 0 ==> l == 0
    ensures f.control.nr < M(a)
    ensures Link(Information(a, f), b, k, l) && Live(Information(a, f))
  {
    LinkBase(a, b, k, l);
    var nr := f.control.nr;
    AckLink(a, b, k, l, f);
    var s1 := Acked(a, nr);
    assert s1.v.vr == a.v.vr && s1.v.cond == a.v.cond && s1.tx == a.tx && s1.v.n2Count == a.v.n2Count;
    AckedReady(a, nr, false, true);
    hide Link, AckFact, Acked, Kicked, Received;
    ReceivedLink(s1, b, k, l, l0, f);
    ReceivedAlike(s1, f);
    AlikeReady(s1, Received(s1, f), false, false, true);
    KickedLink(Received(s1, f), b, k, l);
    KickedHealthy(Received(s1, f), false, false, true);
  }

  lemma RecoveredLink(a: St, b: St, k: nat, l: nat)
    requires Link(a, b, k, l)
    ensures Link(Recovered(a), b, k, l)
  {
    hide Link, WithState;
    LinkBase(a, b, k, l);
    var s1 := a.(on := a.on.(t3 := true));
    QuietLink(a, b, k, l, s1);
    WithStateLink(s1, b, k, l, Connected);
  }

  lemma RecoveryStatusDelivered(a: St, b: St, k: nat, l: nat, f: Frame)
    requires Live(a) && Inv(a) && a.state == TimerRecovery && Link(a, b, k, l) && AckFact(a, b, f, a.tx, b.tx)
    ensures f.control.nr < M(a)
    ensures Link(RecoveryStatus(a, f), b, k, l) && Live(RecoveryStatus(a, f))
  {
    LinkBase(a, b, k, l);
    var nr := f.control.nr;
    AckLink(a, b, k, l, f);
    if IsFinal(f) {
      var s1 := a.(v := a.v.(n2Count := 0));
      SameRingKeeps(a, s1);
      QuietLink(a, b, k, l, s1);
      AckLink(s1, b, k, l, f);
      AckedReady(s1, nr, false, true);
      AckedState(s1, nr);
      hide Link, Acked, Kicked, Recovered;
      RecoveredLink(Acked(s1, nr), b, k, l);
      RecoveredReady(Acked(s1, nr), false, false, true);
      KickedLink(Recovered(Acked(s1, nr)), b, k, l);
      KickedHealthy(Recovered(Acked(s1, nr)), false, false, true);
    } else {
      hide Link;
      StatusDelivered(a, b, k, l, f);
    }
  }

  lemma FinalRejectDelivered(a: St, b: St, k: nat, l: nat, f: Frame) returns (k': nat)
    requires Live(a) && Inv(a) && a.state == TimerRecovery && Link(a, b, k, l) && AckFact(a, b, f, a.tx, b.tx)
    requires IsREJ(f) && IsFinal(f) && f.control.nr < M(a) && ValidNR(a, f.control.nr)
    ensures Link(RecoveryReject(a, f), b, k', l) && Live(RecoveryReject(a, f))
  {
    var s1 := a.(v := a.v.(n2Count := 0));
    SameRingKeeps(a, s1);
    QuietLink(a, b, k, l, s1);
    k' := CutAnew(s1, b, k, l, f);
    hide Link, Acked, Kicked, Recovered, Requeued;
    var s3 := Requeued(Acked(s1, f.control.nr));
    RecoveredLink(s3, b, k', l);
    RecoveredReady(s3, false, true, true);
    KickedLink(Recovered(s3), b, k', l);
    KickedHealthy(Recovered(s3), false, true, true);
  }

  lemma RecoveryRejectDelivered(a: St, b: St, k: nat, l: nat, f: Frame) returns (k': nat)
    requires Live(a) && Inv(a) && a.state == TimerRecovery && Link(a, b, k, l) && AckFact(a, b, f, a.tx, b.tx) && IsREJ(f)
    ensures f.control.nr < M(a)
    ensures Link(RecoveryReject(a, f), b, k', l) && Live(RecoveryReject(a, f))
  {
    hide Acked, Kicked, Recovered, Requeued;
    LinkBase(a, b, k, l);
    AckLink(a, b, k, l, f);
    if IsFinal(f) {
      k' := FinalRejectDelivered(a, b, k, l, f);
    } else {
      AnsweredLink(a, b, k, l, f);
      AnsweredAlike(a, f);
      var s1 := AnsweredPoll(a, f);
      k' := CutAnew(s1, b, k, l, f);
      hide Link, AnsweredPoll;
      var s3 := Requeued(Acked(s1, f.control.nr));
      KickedLink(s3, b, k', l);
      KickedHealthy(s3, false, true, true);
    }
  }

  lemma BusyFacts(a: St, b: St, k: nat, l: nat, f: Frame, busy: bool)
    requires Live(a) && Inv(a) && Link(a, b, k, l) && AckFact(a, b, f, a.tx, b.tx)
    ensures var a' := WithPeerBusy(a, busy);
            && Live(a') && Inv(a') && a'.state == a.state && M(a') == M(a)
            && Link(a', b, k, l) && AckFact(a', b, f, a'.tx, b.tx)
  {
    BusyLink(a, b, k, l, busy);
    BusyKeeps(a, busy, false);
  }

  // b is the peer after its head frame f has gone; l0 was b's position before.
  lemma ConnectedDelivered(a: St, b: St, k: nat, l: nat, l0: nat, f: Frame) returns (k': nat)
    requires Live(a) && Inv(a) && a.state == Connected && Link(a, b, k, l) && AckFact(a, b, f, a.tx, b.tx)
    requires |b.pending| == RING_SIZE && HeadFact(b, a, f, b.tx, a.tx, l0) && (l0 == 0 ==> l == 0)
    requires IsI(f) || IsREJ(f) || IsStatus(f)
    requires f.control.ns < 8 && Admissible(a, FrameRX(Some(f)))
    ensures var s' := ConnectedFrame(a, f); Live(s') && Link(s', b, k', l)
  {
    hide Link, AckFact, HeadFact, Inv, Kicked, ConnectedStatus, ConnectedReject, Information, WithPeerBusy, Rebound,
      Reestablished, TornDown, PeerDISC, Dir;
    k' := k;
    if IsI(f) {
      InformationDelivered(a, b, k, l, l0, f);
    } else {
      var busy := f.control.kind.FrameRNR?;
      BusyFacts(a, b, k, l, f, busy);
      if IsREJ(f) {
        k' := RejectDelivered(WithPeerBusy(a, busy), b, k, l, f);
      } else {
        StatusDelivered(WithPeerBusy(a, busy), b, k, l, f);
      }
    }
  }

  lemma RecoveryDelivered(a: St, b: St, k: nat, l: nat, l0: nat, f: Frame) returns (k': nat)
    requires Live(a) && Inv(a) && a.state == TimerRecovery && Link(a, b, k, l) && AckFact(a, b, f, a.tx, b.tx)
    requires |b.pending| == RING_SIZE && HeadFact(b, a, f, b.tx, a.tx, l0) && (l0 == 0 ==> l == 0)
    requires IsI(f) || IsREJ(f) || IsStatus(f)
    requires f.control.ns < 8 && Admissible(a, FrameRX(Some(f)))
    ensures var s' := RecoveryFrame(a, f); Live(s') && Link(s', b, k', l)
  {
    hide Link, AckFact, HeadFact, Inv, Kicked, RecoveryStatus, RecoveryReject, Information, WithPeerBusy, Rebound,
      Reestablished, TornDown, PeerDISC, Dir;
    k' := k;
    if IsI(f) {
      InformationDelivered(a, b, k, l, l0, f);
    } else {
      var busy := f.control.kind.FrameRNR?;
      BusyFacts(a, b, k, l, f, busy);
      if IsREJ(f) {
        k' := RecoveryRejectDelivered(WithPeerBusy(a, busy), b, k, l, f);
      } else {
        RecoveryStatusDelivered(WithPeerBusy(a, busy), b, k, l, f);
      }
    }
  }
}
