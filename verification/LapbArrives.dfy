// Runs of two modulo-8 sessions over channels that lose nothing: every octet taken in is
// at each moment delivered, on its way, or still queued, in that order.

module LapbArrives {
  import opened Common
  import opened Control
  import opened Frames
  import opened Ring
  import opened LapbSpec
  import opened LapbRing
  import opened LapbInvariants
  import opened LapbDirection
  import opened LapbLink
  import opened LapbTransfer
  import opened LapbPair
  import LapbReceive

  // The numbers of the I-frames on a channel, in order, and the octets they carry.
  function Numbers(ch: seq<Frame>): seq<int> {
    if ch == [] then [] else (if IsI(ch[0]) then [ch[0].control.ns as int] else []) + Numbers(ch[1..])
  }

  function Payload(ch: seq<Frame>): seq<U8> {
    if ch == [] then [] else (if IsI(ch[0]) then ch[0].info else []) + Payload(ch[1..])
  }

  lemma {:induction false} NumbersConcat(p: seq<Frame>, q: seq<Frame>)
    ensures Numbers(p + q) == Numbers(p) + Numbers(q)
  {
    if p == [] {
      assert p + q == q;
    } else {
      assert (p + q)[1..] == p[1..] + q;
      NumbersConcat(p[1..], q);
    }
  }

  // ----- what a session adds to its channel -----

  // t has sent I-frames under the numbers from s's V(S) up to its own, and no others.
  predicate Sends(s: St, t: St) {
    && s.v.vs < 8 && t.v.vs < 8 && s.tx <= t.tx
    && Numbers(t.tx[|s.tx|..]) == Slots(s.v.vs, t.v.vs, 8)
    && D(t.v.va, s.v.vs) <= D(t.v.va, t.v.vs)
  }

  predicate SameTurn(s: St, t: St) {
    t.v.vr == s.v.vr && t.v.cond.reject == s.v.cond.reject && (t.v.cond.ownRxBusy ==> s.v.cond.ownRxBusy)
  }

  predicate Flows(s: St, t: St) {
    Sends(s, t) && SameTurn(s, t)
  }

  lemma SentOneFlows(s: St)
    requires Base(s) && CanSend(s) && ConfigOk(s.cfg)
    ensures SentOne(s).tx == s.tx + [DataFrame(s, s.txBuf[..ChunkLen(s)])]
    ensures SentOne(s).v.vs == Next(s.v.vs, 8)
    ensures Numbers([DataFrame(s, s.txBuf[..ChunkLen(s)])]) == [s.v.vs as int]
  {
    hide SentOne;
    SendOut(s);
    SentOneNext(s);
    var f := DataFrame(s, s.txBuf[..ChunkLen(s)]);
    assert [f][1..] == [] && Numbers([]) == [];
  }

  lemma SentOneNext(s: St)
    requires Base(s) && CanSend(s)
    ensures SentOne(s).v.vs == Next(s.v.vs, 8)
  {
  }

  lemma {:induction false} DrainFlows(s: St)
    requires Base(s) && ConfigOk(s.cfg) && WindowOk(s)
    ensures s.tx <= Drained(s).tx && Drained(s).v.vs < 8
    ensures Numbers(Drained(s).tx[|s.tx|..]) == Slots(s.v.vs, Drained(s).v.vs, 8)
    decreases |s.txBuf|
  {
    hide SentOne, CanSend, Numbers;
    if CanSend(s) {
      var s', d := SentOne(s), Drained(s);
      SentOneKeeps(s);
      SentOneFlows(s);
      DrainFlows(s');
      LapbReceive.DrainedFurther(s);
      var f := s'.tx[|s.tx|..];
      assert d.tx[|s.tx|..] == f + d.tx[|s'.tx|..];
      NumbersConcat(f, d.tx[|s'.tx|..]);
      assert s.v.vs != d.v.vs;
    } else {
      assert s.tx[|s.tx|..] == [] && Numbers([]) == [] by { NoNumbers(); }
    }
  }

  lemma NoNumbers()
    ensures Numbers([]) == []
  {
  }

  // A kick on top of frames that are no I-frames.
  lemma KickFlows(s: St, m: St)
    requires Live(m) && Inv(m) && !m.cfg.mod128 && m.v.vs == s.v.vs
    requires s.tx <= m.tx && Numbers(m.tx[|s.tx|..]) == [] && SameTurn(s, m)
    ensures Flows(s, Kicked(m))
  {
    hide Numbers, Slots, Kicked, WindowOk;
    KickedSends(m);
    KickedKeeps(m);
    Prefixed(s, m, Kicked(m));
  }

  lemma KickedSends(m: St)
    requires Live(m) && Inv(m) && !m.cfg.mod128
    ensures Sends(m, Kicked(m))
  {
    hide Drained, Numbers;
    var t := Kicked(m);
    if m.v.cond.peerRxBusy {
      assert t.tx[|m.tx|..] == [];
      NoNumbers();
    } else {
      DrainedKeeps(m);
      DrainFlows(m);
      LapbReceive.DrainedFurther(m);
    }
  }

  // The same without a kick.
  lemma PlainFlows(s: St, m: St)
    requires Base(s) && Base(m) && m.v.vs == s.v.vs
    requires s.tx <= m.tx && Numbers(m.tx[|s.tx|..]) == [] && SameTurn(s, m)
    ensures Flows(s, m)
  {
  }

  lemma NoneOfOne(s: St, f: Frame)
    requires !IsI(f)
    ensures s.tx <= s.tx + [f] && Numbers((s.tx + [f])[|s.tx|..]) == []
    ensures Numbers(s.tx[|s.tx|..]) == []
  {
    assert (s.tx + [f])[|s.tx|..] == [f] && [f][1..] == [];
  }

  lemma StatusFlows(a: St, poll: bool, asResponse: bool)
    requires Base(a)
    ensures var t := SentStatus(a, poll, asResponse);
            t == a.(tx := t.tx) && a.tx <= t.tx && Numbers(t.tx[|a.tx|..]) == []
    ensures Numbers(a.tx[|a.tx|..]) == []
  {
    StatusOut(a, poll, asResponse);
    NoneOfOne(a, StatusFrame(a, poll, asResponse));
  }

  // ----- events that are not frames -----

  lemma EnquiredFlows(a: St, n2: int)
    requires Up(a)
    ensures var m := Enquired(a.(v := a.v.(n2Count := n2)));
            m.v.vs == a.v.vs && a.tx <= m.tx && Numbers(m.tx[|a.tx|..]) == [] && SameTurn(a, m) && m.cfg == a.cfg
  {
    hide SentStatus, Numbers;
    StatusFlows(a.(v := a.v.(n2Count := n2)), true, false);
  }

  lemma FlushedFlows(a: St)
    requires Up(a)
    ensures var m := FlushedAck(a);
            m.v.vs == a.v.vs && a.tx <= m.tx && Numbers(m.tx[|a.tx|..]) == [] && SameTurn(a, m) && m.cfg == a.cfg
  {
    hide SentStatus, Numbers;
    StatusFlows(a.(v := a.v.(cond := a.v.cond.(ackPending := false))), false, true);
  }

  lemma AgainFlows(a: St)
    requires Up(a) && a.state == TimerRecovery && Live(EnquiredAgain(a))
    ensures Flows(a, EnquiredAgain(a))
  {
    hide Enquired, Kicked, Numbers, TornDown;
    if a.v.n2Count >= a.cfg.n2 {
      GaveUpDown(a);
    } else {
      EnquiredFlows(a, a.v.n2Count + 1);
      EnquiryHealthy(a, a.v.n2Count + 1, false, true, true);
      var m := Enquired(a.(v := a.v.(n2Count := a.v.n2Count + 1)));
      KickFlows(a, m.(on := m.on.(t1 := true)));
    }
  }

  lemma EnquiryFlows(a: St, n2: int)
    requires Up(a)
    ensures var m := Enquired(a.(v := a.v.(n2Count := n2)));
            Flows(a, WithState(m.(on := m.on.(t1 := true)), TimerRecovery))
  {
    hide Enquired, Numbers;
    EnquiredFlows(a, n2);
    SlotsShape(a.v.vs, a.v.vs, 8);
  }

  lemma LiveLocalFlows(a: St, ev: Event)
    requires Up(a) && IsLocal(ev) && !ev.Heartbeat? && !ev.StatsTick? && Live(Handled(a, ev).st)
    ensures Flows(a, Handled(a, ev).st)
  {
    hide Kicked, Took, EnquiredAgain, FlushedAck, Enquired, WithState, Numbers;
    StatusFlows(a, true, false);
    match ev
    case DataTX(data) =>
      TookReady(a, data, false, true, true);
      TookSends(a, data);
      KickFlows(a, Took(a, data));
    case T1Expiry =>
      if a.state == Connected {
        EnquiryFlows(a, 1);
      } else {
        AgainFlows(a);
      }
    case T3Expiry =>
      if a.state == Connected {
        EnquiryFlows(a, 0);
      } else {
        KickFlows(a, a);
      }
    case T2Expiry =>
      FlushedFlows(a);
      FlushedAckReady(a, false, true, true);
      KickFlows(a, FlushedAck(a));
    case Disconnect => ReleasingDown(a);
    case Abort => ReleasingDown(a);
    case Shutdown => PlainFlows(a, a);
    case _ => KickFlows(a, a);
  }

  lemma TookSends(a: St, data: seq<U8>)
    ensures var m := Took(a, data); m.v == a.v && m.tx == a.tx && m.cfg == a.cfg
  {
  }

  lemma LocalFlows(a: St, ev: Event)
    requires Up(a) && IsLocal(ev) && Live(Handled(a, ev).st)
    ensures Flows(a, Handled(a, ev).st)
  {
    hide SentStatus, Numbers;
    if ev.Heartbeat? {
      StatusFlows(a.(v := a.v.(cond := a.v.cond.(ownRxBusy := false, ackPending := false))), false, true);
      SlotsShape(a.v.vs, a.v.vs, 8);
    } else if ev.StatsTick? {
      StatusFlows(a, true, false);
      SlotsShape(a.v.vs, a.v.vs, 8);
    } else {
      hide Handled;
      LiveLocalFlows(a, ev);
    }
  }

  // ----- frames -----

  lemma AnsweredFlows(a: St, f: Frame)
    requires Base(a)
    ensures var m := AnsweredPoll(a, f); m == a.(tx := m.tx) && a.tx <= m.tx && Numbers(m.tx[|a.tx|..]) == []
  {
    hide SentStatus, Numbers;
    StatusFlows(a, true, true);
  }

  lemma AckedSame(s: St, nr: U8)
    requires InStep(s) && nr < M(s)
    ensures var t := Acked(s, nr); t.v == s.v.(va := nr) && t.tx == s.tx && t.cfg == s.cfg && t.obs == s.obs
  {
  }

  lemma StatusFrameFlows(a: St, f: Frame)
    requires Live(a) && Inv(a) && !a.cfg.mod128 && f.control.nr < 8 && ValidNR(a, f.control.nr)
    ensures Flows(a, ConnectedStatus(a, f))
    ensures a.state == TimerRecovery ==> Flows(a, RecoveryStatus(a, f))
  {
    hide Acked, Kicked, AnsweredPoll, Numbers, Recovered, ValidNR;
    var nr := f.control.nr;
    AnsweredFlows(a, f);
    AnsweredAlike(a, f);
    var s1 := AnsweredPoll(a, f);
    SameNumbers(a, s1);
    AckedReady(s1, nr, false, true);
    AckedSame(s1, nr);
    KickFlows(a, Acked(s1, nr));
    if a.state == TimerRecovery && IsFinal(f) {
      FinalFlows(a, f);
    }
  }

  lemma SameNumbers(a: St, b: St)
    requires a.cfg == b.cfg && a.v.va == b.v.va && a.v.vs == b.v.vs
    ensures forall nr: U8 :: ValidNR(a, nr) <==> ValidNR(b, nr)
  {
  }

  lemma FinalFlows(a: St, f: Frame)
    requires a.state == TimerRecovery && Inv(a) && !a.cfg.mod128 && f.control.nr < 8 && ValidNR(a, f.control.nr)
    ensures Flows(a, Kicked(Recovered(Acked(a.(v := a.v.(n2Count := 0)), f.control.nr))))
  {
    var nr := f.control.nr;
    var s1 := a.(v := a.v.(n2Count := 0));
    SameRingKeeps(a, s1);
    SameNumbers(a, s1);
    AckedReady(s1, nr, false, true);
    AckedSame(s1, nr);
    AckedState(s1, nr);
    hide Acked, Kicked, Numbers;
    var s2 := Acked(s1, nr);
    RecoveredReady(s2, false, false, true);
    StatusFlows(a, true, true);
    KickFlows(a, Recovered(s2));
  }

  // The wanted I-frame.
  predicate TookWanted(a: St, t: St) {
    Sends(a, t) && t.v.vr == Next(a.v.vr, 8) && !t.v.cond.reject && !t.v.cond.ownRxBusy
  }

  lemma WantedFlows(a: St, f: Frame)
    requires Live(a) && Inv(a) && !a.cfg.mod128 && f.control.nr < 8 && ValidNR(a, f.control.nr)
    requires IsI(f) && f.control.ns == a.v.vr && !a.v.cond.ownRxBusy
    ensures TookWanted(a, Information(a, f))
  {
    hide Kicked, Received, Numbers, ValidNR;
    var nr := f.control.nr;
    LapbReceive.AckedFirst(a, f);
    AckedSame(a, nr);
    hide Acked, Inv;
    var s1 := Acked(a, nr);
    assert Base(s1) by { BaseOf(s1); }
    AcceptedNumbers(s1, f);
    var m := Received(s1, f);
    WantedNext(s1, f);
    KickFlows(m, m);
    hide Slots;
    Prefixed(a, m, Kicked(m));
    KickedKept(m);
  }

  lemma BaseOf(s: St)
    requires Live(s) && Inv(s) && !s.cfg.mod128
    ensures Base(s)
  {
  }

  lemma WantedNext(s: St, f: Frame)
    requires Inv(s) && Live(s) && !s.cfg.mod128 && !s.v.cond.ownRxBusy && f.control.ns == s.v.vr
    ensures Received(s, f).v.vr == Next(s.v.vr, 8) && !Received(s, f).v.cond.reject
  {
    hide SentStatus;
    LapbReceive.AcceptedIs(s, f);
  }

  lemma KickedKept(m: St)
    requires Live(m) && Inv(m)
    ensures Kicked(m).v.va == m.v.va
  {
    hide Kicked;
    KickedKeeps(m);
  }

  // Frames that are no I-frames ahead of what a kick sends.
  lemma Prefixed(s: St, m: St, t: St)
    requires s.tx <= m.tx && Numbers(m.tx[|s.tx|..]) == [] && m.v.vs == s.v.vs && Sends(m, t)
    ensures Sends(s, t)
  {
    hide Numbers, Slots;
    assert t.tx[|s.tx|..] == m.tx[|s.tx|..] + t.tx[|m.tx|..];
    NumbersConcat(m.tx[|s.tx|..], t.tx[|m.tx|..]);
  }

  lemma AcceptedNumbers(s: St, f: Frame)
    requires Base(s) && f.control.ns == s.v.vr && !s.v.cond.ownRxBusy
    ensures var m := Received(s, f);
            && s.tx <= m.tx && Numbers(m.tx[|s.tx|..]) == [] && m.v.vs == s.v.vs && m.v.va == s.v.va
            && !m.v.cond.ownRxBusy && Numbers(m.tx[|m.tx|..]) == []
  {
    hide SentStatus, Numbers;
    var v := s.v.(vr := Next(s.v.vr, M(s)), cond := s.v.cond.(reject := false));
    var s1 := s.(v := v);
    var s2 := if f.info != [] then Emitted(s1, DataRX(f.info)) else s1;
    StatusFlows(s2.(v := s2.v.(cond := s2.v.cond.(ackPending := false))), true, true);
    NoNumbers();
    var m := Received(s, f);
    assert m.tx[|m.tx|..] == [];
  }

  // A frame that is no REJ, at a session that waits for nothing again.
  lemma FrameFlows(a: St, f: Frame)
    requires Up(a) && f.control.ns < 8 && f.control.nr < 8 && ValidNR(a, f.control.nr) && !a.v.cond.ownRxBusy
    requires (IsI(f) && f.control.ns == a.v.vr) || IsStatus(f)
    ensures Admissible(a, FrameRX(Some(f)))
    ensures var t := Handled(a, FrameRX(Some(f))).st; if IsI(f) then TookWanted(a, t) else Flows(a, t)
  {
    HandledFrame(a, f);
    hide Handled, ConnectedStatus, RecoveryStatus, Information, Numbers, ValidNR;
    if IsI(f) {
      WantedFlows(a, f);
    } else {
      var busy := f.control.kind.FrameRNR?;
      BusyKeeps(a, busy, false);
      var a' := WithPeerBusy(a, busy);
      SameNumbers(a, a');
      StatusFrameFlows(a', f);
      assert Flows(a', ConnectedStatus(a', f)) ==> Flows(a, ConnectedStatus(a', f));
      assert Flows(a', RecoveryStatus(a', f)) ==> Flows(a, RecoveryStatus(a', f));
    }
  }

  // ----- the pair -----

  // The I-frames on their way carry the numbers from the one r wants up to the one s
  // sends next, each once, and r waits for nothing again.
  predicate Streaming(s: St, r: St) {
    && s.v.vs < 8 && r.v.vr < 8
    && Numbers(s.tx) == Slots(r.v.vr, s.v.vs, 8) && !r.v.cond.reject && !r.v.cond.ownRxBusy
  }

  lemma LinkNumbers(a: St, b: St)
    requires Linked(a, b)
    ensures Base(a) && Base(b) && D(a.v.va, b.v.vr) <= D(a.v.va, a.v.vs)
    ensures !b.v.cond.reject ==> NoREJ(b.tx)
  {
    hide OldPart, NewPart, Acks, DeliveredOk, Up, Wired;
    var k: nat, l: nat :| Link(a, b, k, l);
  }

  // More sent by s.
  lemma SendsStream(s: St, t: St, r: St)
    requires Streaming(s, r) && Sends(s, t) && Linked(t, r) && Base(s)
    requires D(t.v.va, r.v.vr) <= D(t.v.va, s.v.vs)
    ensures Streaming(t, r)
  {
    hide Slots, Numbers, Linked;
    LinkNumbers(t, r);
    var ext := t.tx[|s.tx|..];
    assert t.tx == s.tx + ext;
    NumbersConcat(s.tx, ext);
    SlotsSplit(r.v.vr, s.v.vs, t.v.vs, 8);
  }

  lemma SyncedSame(t: St)
    requires t.cfg.paclen >= 1
    ensures Synced(t) == t.(outstanding := Synced(t).outstanding)
  {
  }

  lemma LocalStreams(a: St, b: St, ev: Event, t: St)
    requires Linked(a, b) && Streaming(a, b) && Streaming(b, a) && IsLocal(ev) && HandlesA(a, ev, t) && !GivesUp(a, ev)
    ensures Linked(t, b) && Streaming(t, b) && Streaming(b, t)
  {
    hide Linked, Handled, Numbers, GivesUp, Slots;
    LinkedUp(a, b);
    LocalEndsIff(a, ev, t);
    LocalLinked(a, b, ev, t);
    var s := Handled(a, ev).st;
    SyncedSame(s);
    LocalFlows(a, ev);
    LinkNumbers(a, b);
    LocalVA(a, ev);
    SendsStream(a, t, b);
  }

  // Nothing but a frame acknowledges.
  lemma LocalVA(a: St, ev: Event)
    requires Up(a) && IsLocal(ev) && Live(Handled(a, ev).st)
    ensures Handled(a, ev).st.v.va == a.v.va
  {
    if ev.Heartbeat? || ev.StatsTick? {
      hide SentStatus;
    } else {
      hide Handled, Up;
      UpLive(a);
      LapbReceive.LiveLocal(a, ev);
      LiveLocalVA(a, ev);
    }
  }

  lemma LiveLocalVA(a: St, ev: Event)
    requires Inv(a) && Live(a) && IsLocal(ev)
    ensures Live(OnConnected(a, ev).st) && a.state == Connected ==> OnConnected(a, ev).st.v.va == a.v.va
    ensures Live(OnTimerRecovery(a, ev).st) && a.state == TimerRecovery ==> OnTimerRecovery(a, ev).st.v.va == a.v.va
  {
    hide Kicked, SentStatus, EnquiredAgain, SentU, NoQueues, Inv;
    LocalKicks(a, ev);
  }

  lemma LocalKicks(a: St, ev: Event)
    requires Inv(a) && Live(a)
    ensures RingOk(a) && Kicked(a).v.va == a.v.va && Kicked(FlushedAck(a)).v.va == a.v.va
    ensures ev.DataTX? ==> Kicked(Took(a, ev.data)).v.va == a.v.va
    ensures a.state == TimerRecovery && Live(EnquiredAgain(a)) ==> EnquiredAgain(a).v.va == a.v.va
  {
    KickedKeeps(a);
    FlushedAckReady(a, false, true, true);
    KickedKeeps(FlushedAck(a));
    hide Kicked, SentStatus, Enquired;
    if ev.DataTX? {
      TookReady(a, ev.data, false, true, true);
      KickedKeeps(Took(a, ev.data));
    }
    if a.state == TimerRecovery && Live(EnquiredAgain(a)) {
      AgainVA(a);
    }
  }

  lemma AgainVA(a: St)
    requires Inv(a) && a.state == TimerRecovery && Live(EnquiredAgain(a))
    ensures EnquiredAgain(a).v.va == a.v.va
  {
    hide Kicked, Enquired, TornDown, SentU, WindowOk;
    if a.v.n2Count >= a.cfg.n2 {
      GaveUpDown(a);
    } else {
      EnquiryHealthy(a, a.v.n2Count + 1, false, true, true);
      EnquiredVA(a, a.v.n2Count + 1);
      var s1 := Enquired(a.(v := a.v.(n2Count := a.v.n2Count + 1)));
      KickedKeeps(s1.(on := s1.on.(t1 := true)));
    }
  }

  lemma EnquiredVA(a: St, n2: int)
    ensures Enquired(a.(v := a.v.(n2Count := n2))).v.va == a.v.va
  {
    hide Submitted;
  }

  // The head of the peer's channel.
  lemma HeadIs(a: St, b: St)
    requires Linked(a, b) && Streaming(a, b) && Streaming(b, a) && b.tx != []
    ensures var f := b.tx[0];
            && f.control.ns < 8 && f.control.nr < 8 && ValidNR(a, f.control.nr)
            && D(a.v.va, f.control.nr) <= D(a.v.va, b.v.vr)
            && (IsI(f) || IsStatus(f))
            && (IsI(f) ==> f.control.ns == a.v.vr && a.v.vr != b.v.vs
                           && Numbers(b.tx[1..]) == Slots(Next(a.v.vr, 8), b.v.vs, 8))
            && (!IsI(f) ==> Numbers(b.tx[1..]) == Slots(a.v.vr, b.v.vs, 8))
  {
    HeadAcks(a, b);
    HeadNumbers(a, b);
  }

  lemma HeadAcks(a: St, b: St)
    requires Linked(a, b) && !b.v.cond.reject && b.tx != []
    ensures var f := b.tx[0];
            && f.control.ns < 8 && f.control.nr < 8 && ValidNR(a, f.control.nr)
            && D(a.v.va, f.control.nr) <= D(a.v.va, b.v.vr) && (IsI(f) || IsStatus(f))
  {
    LinkNumbers(a, b);
    hide Dir, OldPart, NewPart, DeliveredOk, HeadFact, Up;
    var k: nat, l: nat :| Link(a, b, k, l);
    PopFacts(a, b, k, l);
  }

  lemma HeadNumbers(a: St, b: St)
    requires Base(a) && Base(b) && Streaming(b, a) && b.tx != []
    ensures var f := b.tx[0];
            && (IsI(f) ==> f.control.ns == a.v.vr && a.v.vr != b.v.vs
                           && Numbers(b.tx[1..]) == Slots(Next(a.v.vr, 8), b.v.vs, 8))
            && (!IsI(f) ==> Numbers(b.tx[1..]) == Slots(a.v.vr, b.v.vs, 8))
  {
    var f := b.tx[0];
    var rest := Numbers(b.tx[1..]);
    if IsI(f) {
      assert [f.control.ns as int] + rest == Slots(a.v.vr, b.v.vs, 8);
      assert ([f.control.ns as int] + rest)[1..] == rest;
      var tail := Slots(Next(a.v.vr, 8), b.v.vs, 8);
      assert ([a.v.vr as int] + tail)[1..] == tail;
    }
  }

  lemma DeliverStreams(a: St, b: St, t: St)
    requires Linked(a, b) && Streaming(a, b) && Streaming(b, a) && b.tx != []
    requires HandlesA(a, FrameRX(Some(b.tx[0])), t)
    ensures Linked(t, Popped(b)) && Streaming(t, Popped(b)) && Streaming(Popped(b), t)
  {
    hide Linked, Handled, Numbers, Slots, ValidNR;
    var f := b.tx[0];
    LinkedUp(a, b);
    LinkNumbers(a, b);
    HeadIs(a, b);
    HeadTaken(a, b);
    FrameFlows(a, f);
    var s := Handled(a, FrameRX(Some(f))).st;
    SyncedSame(s);
    FrameVA(a, f);
    var b' := Popped(b);
    assert Streaming(a, b');
    SendsStream(a, t, b') by { AckBehind(a, b, f.control.nr); }
  }

  lemma AckBehind(a: St, b: St, nr: U8)
    requires Base(a) && Base(b) && nr < 8
    requires D(a.v.va, nr) <= D(a.v.va, b.v.vr) <= D(a.v.va, a.v.vs)
    ensures D(nr, b.v.vr) <= D(nr, a.v.vs)
  {
  }

  lemma FrameVA(a: St, f: Frame)
    requires Up(a) && f.control.ns < 8 && f.control.nr < 8 && ValidNR(a, f.control.nr) && !a.v.cond.ownRxBusy
    requires (IsI(f) && f.control.ns == a.v.vr) || IsStatus(f)
    ensures Admissible(a, FrameRX(Some(f))) && Handled(a, FrameRX(Some(f))).st.v.va == f.control.nr
  {
    HandledFrame(a, f);
    hide Handled, Kicked, ValidNR, Numbers;
    var nr := f.control.nr;
    if IsI(f) {
      LapbReceive.AckedFirst(a, f);
      AckedSame(a, nr);
      hide Acked, Received;
      AcceptedNumbers(Acked(a, nr), f);
      KickedKeeps(Received(Acked(a, nr), f));
    } else {
      var busy := f.control.kind.FrameRNR?;
      BusyKeeps(a, busy, false);
      BusyState(a, busy);
      var a' := WithPeerBusy(a, busy);
      SameNumbers(a, a');
      hide WithPeerBusy;
      StatusVA(a', f);
    }
  }

  lemma StatusVA(a: St, f: Frame)
    requires Live(a) && Inv(a) && !a.cfg.mod128 && f.control.nr < 8 && ValidNR(a, f.control.nr)
    ensures ConnectedStatus(a, f).v.va == f.control.nr
    ensures a.state == TimerRecovery ==> RecoveryStatus(a, f).v.va == f.control.nr
  {
    hide Kicked, AnsweredPoll, ValidNR;
    var nr := f.control.nr;
    AnsweredAlike(a, f);
    var s1 := AnsweredPoll(a, f);
    SameNumbers(a, s1);
    AckedReady(s1, nr, false, true);
    KickedKeeps(Acked(s1, nr));
    if a.state == TimerRecovery && IsFinal(f) {
      var s2 := a.(v := a.v.(n2Count := 0));
      SameRingKeeps(a, s2);
      SameNumbers(a, s2);
      AckedReady(s2, nr, false, true);
      AckedState(s2, nr);
      hide Acked;
      RecoveredReady(Acked(s2, nr), false, false, true);
      AckedSame(s2, nr);
      KickedKeeps(Recovered(Acked(s2, nr)));
    }
  }

  // ----- every run -----

  ghost predicate StreamingPair(p: Pair) {
    Linked(p.a, p.b) && Streaming(p.a, p.b) && Streaming(p.b, p.a)
  }

  lemma NextAStreams(p: Pair, step: Step, q: Pair)
    requires StreamingPair(p) && NextA(p, step, q) && !step.Lose?
    requires step.Local? ==> !GivesUp(p.a, step.ev)
    ensures StreamingPair(q)
  {
    hide Linked, Streaming, HandlesA, GivesUp, Handled;
    match step
    case Local(_, ev) => LocalStreams(p.a, p.b, ev, q.a);
    case Deliver(_) => DeliverStreams(p.a, p.b, q.a);
  }

  lemma FlippedStreams(p: Pair)
    ensures StreamingPair(p) <==> StreamingPair(Flipped(p))
  {
    hide Linked, Streaming;
    if Linked(p.a, p.b) {
      LinkedSwap(p.a, p.b);
    }
    if Linked(p.b, p.a) {
      LinkedSwap(p.b, p.a);
    }
  }

  lemma NextStreams(p: Pair, step: Step, q: Pair)
    requires StreamingPair(p) && NextPair(p, step, q) && Endures(p, step) && !step.Lose?
    ensures StreamingPair(q)
  {
    hide StreamingPair, NextA, GivesUp;
    if step.at == AtA {
      NextAStreams(p, step, q);
    } else {
      FlippedStreams(p);
      NextAStreams(Flipped(p), step, Flipped(q));
      FlippedStreams(q);
    }
  }

  lemma {:induction false} RunStreams(tr: seq<Pair>, steps: seq<Step>, i: nat)
    requires PairRun(tr, steps) && i < |tr| && StreamingPair(tr[0])
    requires forall j | 0 <= j < i :: Endures(tr[j], steps[j]) && !steps[j].Lose?
    ensures StreamingPair(tr[i])
    decreases i
  {
    hide StreamingPair, NextPair, Endures;
    if i > 0 {
      RunStreams(tr, steps, i - 1);
      NextStreams(tr[i - 1], steps[i - 1], tr[i]);
    }
  }

  // ----- what streaming says about the bytes -----

  lemma {:induction false} PayloadHeld(ch: seq<Frame>, p: seq<Option<Frame>>)
    requires |p| == RING_SIZE
    requires forall i | 0 <= i < |ch| :: IsI(ch[i]) ==> ch[i].control.ns < 8 && p[ch[i].control.ns] == Some(ch[i])
    ensures forall k | 0 <= k < |Numbers(ch)| :: 0 <= Numbers(ch)[k] < 8
    ensures Payload(ch) == Collect(p, Numbers(ch))
  {
    if ch != [] {
      forall i | 0 <= i < |ch[1..]| && IsI(ch[1..][i])
        ensures ch[1..][i].control.ns < 8 && p[ch[1..][i].control.ns] == Some(ch[1..][i])
      {
        assert ch[1..][i] == ch[i + 1];
      }
      PayloadHeld(ch[1..], p);
      if IsI(ch[0]) {
        assert Numbers(ch)[1..] == Numbers(ch[1..]);
      } else {
        assert Numbers(ch) == Numbers(ch[1..]);
      }
    }
  }

  lemma UnderWay(a: St, b: St)
    requires Linked(a, b) && Streaming(a, b)
    ensures Base(a) && Base(b) && Payload(a.tx) == Collect(a.pending, Slots(b.v.vr, a.v.vs, 8))
  {
    hide Slots, Collect, Acks, Rejects, DeliveredOk, Up, Wired;
    LinkNumbers(a, b);
    var k: nat, l: nat :| Link(a, b, k, l);
    PayloadHeld(a.tx, a.pending);
  }

  lemma StreamedBytes(a: St, b: St)
    requires Linked(a, b) && Streaming(a, b)
    ensures Delivered(b.obs) + Payload(a.tx) + a.txBuf == a.hist.taken
  {
    UnderWay(a, b);
    hide Slots, Collect, OldPart, NewPart, Acks, Rejects, Wired, Streaming, Payload;
    HeldBytes(a, b);
    var g, r := Collect(a.pending, Slots(a.v.va, b.v.vr, 8)), Collect(a.pending, Slots(b.v.vr, a.v.vs, 8));
    hide Linked;
    Regrouped(a.hist.acked, g, r, a.txBuf);
  }

  lemma Regrouped(p: seq<U8>, g: seq<U8>, r: seq<U8>, q: seq<U8>)
    ensures p + (g + r) + q == (p + g) + r + q
  {
  }

  lemma HeldBytes(a: St, b: St)
    requires Linked(a, b)
    ensures Base(a) && Base(b)
    ensures var g, r := Collect(a.pending, Slots(a.v.va, b.v.vr, 8)), Collect(a.pending, Slots(b.v.vr, a.v.vs, 8));
            Delivered(b.obs) == a.hist.acked + g && a.hist.taken == a.hist.acked + (g + r) + a.txBuf
  {
    hide Slots, Collect, OldPart, NewPart, Acks, Rejects, Wired;
    LinkNumbers(a, b);
    var k: nat, l: nat :| Link(a, b, k, l);
    SlotsSplit(a.v.va, b.v.vr, a.v.vs, 8);
    CollectConcat(a.pending, Slots(a.v.va, b.v.vr, 8), Slots(b.v.vr, a.v.vs, 8));
  }

  // What s has taken in is delivered by r, on its way, or queued, and s asks for nothing
  // again.
  predicate Accounted(s: St, r: St) {
    && Delivered(r.obs) + Payload(s.tx) + s.txBuf == s.hist.taken
    && NoREJ(s.tx)
    && (s.tx == [] ==> Delivered(r.obs) + s.txBuf == s.hist.taken)
  }

  // In every run of two freshly established sessions in which nothing is lost, whenever
  // the timers go off, until one end gives the link up: what one side took in is, in
  // order, what the other side's observer has received, what is on its way and what is
  // queued. Once a channel is empty everything sent has been delivered.
  lemma NothingLostArrives(tr: seq<Pair>, steps: seq<Step>, i: nat)
    requires PairRun(tr, steps) && i < |tr| && JustUp(tr[0].a) && JustUp(tr[0].b)
    requires forall j | 0 <= j < i :: Endures(tr[j], steps[j]) && !steps[j].Lose?
    ensures Accounted(tr[i].a, tr[i].b) && Accounted(tr[i].b, tr[i].a)
  {
    hide Linked, JustUp, PairRun, Endures, Streaming;
    JustUpLinked(tr[0].a, tr[0].b);
    JustUpStreams(tr[0].a, tr[0].b);
    JustUpStreams(tr[0].b, tr[0].a);
    RunStreams(tr, steps, i);
    var p := tr[i];
    StreamAccounts(p.a, p.b);
    LinkedSwap(p.a, p.b);
    StreamAccounts(p.b, p.a);
  }

  lemma JustUpStreams(a: St, b: St)
    requires JustUp(a) && JustUp(b)
    ensures Streaming(a, b)
  {
  }

  lemma StreamAccounts(a: St, b: St)
    requires Linked(a, b) && Streaming(a, b) && Streaming(b, a)
    ensures Accounted(a, b)
  {
    hide Linked;
    StreamedBytes(a, b);
    LinkedSwap(a, b);
    LinkNumbers(b, a);
    assert Payload([]) == [] && Delivered(b.obs) + [] == Delivered(b.obs);
  }
}
