// What a session does with the I-frames it receives: what the observer is given, what
// V(R) becomes, and how each one is acknowledged or asked for again.

module LapbReceive {
  import opened Common
  import opened Control
  import opened Frames
  import opened Ring
  import opened LapbSpec
  import opened LapbRing
  import opened LapbInvariants
  import opened LapbDirection
  import opened LapbRuns
  import LapbKick

  // ----- frames as values -----

  // A supervisory frame with these fields, and an unnumbered one.
  function Supervisory(c: Config, kind: FrameKind, nr: U8, pf: bool, isCommand: bool): Frame {
    Frame(c.local, c.peer, c.path, Control(kind, 0, nr, pf), 0, [], isCommand, false)
  }

  function Unnumbered(c: Config, kind: FrameKind, pf: bool, isCommand: bool): Frame {
    Frame(c.local, c.peer, c.path, Control(kind, 0, 0, pf), 0, [], isCommand, false)
  }

  // The kind that says whether this end can receive.
  function ReadyKind(s: St): FrameKind {
    if s.v.cond.ownRxBusy then FrameRNR else FrameRR
  }

  // The frames t has sent beyond s's.
  function Sent(s: St, t: St): seq<Frame>
    requires s.tx <= t.tx
  {
    t.tx[|s.tx|..]
  }

  // Only numbers below 8 are ever put on the air, in either modulus.
  function OnAir(f: Frame): seq<Frame> {
    if f.control.ns < 8 && f.control.nr < 8 then [f] else []
  }

  // I-frames of this session that acknowledge up to V(R) = nr.
  predicate IsData(f: Frame, c: Config, nr: U8) {
    && f.control == Control(FrameI, f.control.ns, nr, false) && f.control.ns < 8 && nr < 8
    && f == Frame(c.local, c.peer, c.path, f.control, 0xF0, f.info, true, false)
  }

  predicate AllData(fs: seq<Frame>, c: Config, nr: U8) {
    forall i | 0 <= i < |fs| :: IsData(fs[i], c, nr)
  }

  lemma SubmittedIs(s: St, f: Frame)
    requires !f.mod128 && (f.control.kind.FrameI? || IsS(f.control.kind)) && (IsS(f.control.kind) ==> f.control.ns == 0)
    ensures Submitted(s, f) == s.(tx := s.tx + OnAir(f))
  {
    assert s.tx + [] == s.tx;
  }

  lemma StatusIs(s: St, poll: bool, asResponse: bool)
    requires s.v.vr < M(s)
    ensures SentStatus(s, poll, asResponse)
            == s.(tx := s.tx + OnAir(Supervisory(s.cfg, ReadyKind(s), s.v.vr, poll, !asResponse)))
  {
    hide Submitted, OnAir;
    SubmittedIs(s, StatusFrame(s, poll, asResponse));
  }

  lemma RejIs(s: St, pf: bool)
    ensures SentREJ(s, pf) == s.(tx := s.tx + OnAir(Supervisory(s.cfg, FrameREJ, s.v.vr, pf, false)))
  {
    hide Submitted, OnAir;
    SubmittedIs(s, Made(s.cfg, Control(FrameREJ, 0, s.v.vr, pf), 0, [], false));
  }

  // In either modulus the two go out exactly while V(R) is below 8.
  lemma StatusOnAirIff(s: St, poll: bool, asResponse: bool)
    requires s.v.vr < M(s)
    ensures SentStatus(s, poll, asResponse) != s <==> s.v.vr < 8
    ensures SentREJ(s, poll) != s <==> s.v.vr < 8
    ensures s.v.vr < 8 ==>
              && SentStatus(s, poll, asResponse).tx
                 == s.tx + [Supervisory(s.cfg, ReadyKind(s), s.v.vr, poll, !asResponse)]
              && SentREJ(s, poll).tx == s.tx + [Supervisory(s.cfg, FrameREJ, s.v.vr, poll, false)]
  {
    hide SentStatus, SentREJ;
    StatusIs(s, poll, asResponse);
    RejIs(s, poll);
    assert |s.tx + [Supervisory(s.cfg, FrameREJ, s.v.vr, poll, false)]| == |s.tx| + 1;
    assert |s.tx + [Supervisory(s.cfg, ReadyKind(s), s.v.vr, poll, !asResponse)]| == |s.tx| + 1;
    assert s.tx + [] == s.tx;
  }

  // ----- what kick adds -----

  lemma {:induction false} DrainedData(s: St)
    requires InStep(s) && ConfigOk(s.cfg) && WindowOk(s)
    ensures var d := Drained(s);
            s.tx <= d.tx && AllData(Sent(s, d), s.cfg, s.v.vr) && d.obs == s.obs && (!CanSend(s) ==> d == s)
    decreases |s.txBuf|
  {
    hide SentOne, CanSend;
    if CanSend(s) {
      var s1 := SentOne(s);
      SentOneKeeps(s);
      SentOneData(s);
      DrainedData(s1);
      var d := Drained(s);
      assert Sent(s, d) == Sent(s, s1) + Sent(s1, d);
    }
  }

  lemma SentOneData(s: St)
    requires InStep(s) && CanSend(s) && ConfigOk(s.cfg)
    ensures var t := SentOne(s);
            s.tx <= t.tx && AllData(Sent(s, t), s.cfg, s.v.vr) && t.v.vr == s.v.vr && t.cfg == s.cfg && t.obs == s.obs
  {
    hide Submitted;
    var n := ChunkLen(s);
    var f := DataFrame(s, s.txBuf[..n]);
    SubmittedIs(s.(txBuf := s.txBuf[n..], pending := s.pending[s.v.vs := Some(f)]), f);
  }

  // Each frame a kick cuts moves V(S) on, within the window.
  lemma {:induction false} DrainedFurther(s: St)
    requires InStep(s) && ConfigOk(s.cfg) && WindowOk(s)
    ensures var d := Drained(s);
            Dist(s.v.va, s.v.vs, M(s)) + (if CanSend(s) then 1 else 0) <= Dist(s.v.va, d.v.vs, M(s)) <= s.cfg.window
    decreases |s.txBuf|
  {
    hide SentOne;
    if CanSend(s) {
      SentOneKeeps(s);
      DrainedFurther(SentOne(s));
    }
  }

  // A kick sends I-frames only, all with this N(R). One that cuts any, which in modulo 8
  // all go on the air, settles a pending acknowledgement; one that cuts none changes
  // nothing of it.
  predicate KickSends(s: St, t: St) {
    && s.tx <= t.tx && AllData(Sent(s, t), s.cfg, s.v.vr) && t.obs == s.obs
    && (if t.v.vs != s.v.vs then !t.v.cond.ackPending && (s.v.cond.ackPending ==> !t.on.t2) && (t.on.t2 ==> s.on.t2)
        else t.v.cond.ackPending == s.v.cond.ackPending && t.on.t2 == s.on.t2)
    && (!s.cfg.mod128 ==> (Sent(s, t) != [] <==> t.v.vs != s.v.vs))
  }

  lemma KickLaw(s: St)
    requires InStep(s) && ConfigOk(s.cfg) && WindowOk(s)
    ensures KickSends(s, Kicked(s))
  {
    hide Drained, WindowOk, SentOne;
    if !s.v.cond.peerRxBusy {
      DrainedData(s);
      DrainedKeeps(s);
      DrainedFurther(s);
      if CanSend(s) && !s.cfg.mod128 {
        DrainedSome(s);
      }
    }
  }

  lemma DrainedSome(s: St)
    requires InStep(s) && ConfigOk(s.cfg) && WindowOk(s) && !s.cfg.mod128 && CanSend(s)
    ensures s.tx < Drained(s).tx
  {
    hide Drained;
    LapbKick.DrainSends(s);
    LapbKick.ToSendZero(s);
  }

  // ----- an I-frame -----

  lemma HandledInformation(s: St, f: Frame)
    requires Inv(s) && Live(s) && f.control.kind.FrameI? && AckStops(s, f.control.nr)
    ensures Admissible(s, FrameRX(Some(f))) && Handled(s, FrameRX(Some(f))).st == Information(s, f)
  {
    hide Information;
  }

  // An I-frame a session can use: its N(R) is one of the numbers that may be acknowledged.
  predicate Usable(s: St, f: Frame) {
    f.control.kind.FrameI? && ValidNR(s, f.control.nr) && f.control.nr < M(s)
  }

  // What is acknowledged first touches neither what was received nor what was sent.
  lemma AckedFirst(s: St, f: Frame)
    requires Inv(s) && Live(s) && Usable(s, f)
    ensures var a := Acked(s, f.control.nr);
            && Live(a) && Inv(a) && a.state == s.state && a.cfg == s.cfg && a.tx == s.tx && a.obs == s.obs
            && a.v == s.v.(va := a.v.va) && a.on.t2 == s.on.t2
            && Received(a, f).cfg == a.cfg && Live(Received(a, f)) && Inv(Received(a, f))
            && KickSends(Received(a, f), Kicked(Received(a, f)))
  {
    var a := Acked(s, f.control.nr);
    AckedReady(s, f.control.nr, false, false);
    assert Live(a) && Inv(a) && a.v == s.v.(va := a.v.va);
    hide Acked, Received, Kicked, KickSends, Slots, Cleared, Collect;
    ReceivedAlike(a, f);
    AlikeReady(a, Received(a, f), false, false, false);
    KickLaw(Received(a, f));
  }

  // The kick at the end, on top of at most one frame sent before it.
  predicate Followed(before: seq<Frame>, s: St, t: St, nr: U8) {
    && s.tx <= t.tx && before <= Sent(s, t) && AllData(Sent(s, t)[|before|..], s.cfg, nr)
  }

  lemma ThenKick(s: St, m: St, t: St, before: seq<Frame>)
    requires m.tx == s.tx + before && m.cfg == s.cfg && KickSends(m, t)
    ensures Followed(before, s, t, m.v.vr) && |Sent(s, t)| == |before| + |Sent(m, t)|
  {
    assert Sent(s, t)[..|before|] == before && Sent(s, t)[|before|..] == Sent(m, t);
  }

  // The wanted frame: the observer gets its octets, if it has any, and V(R) moves on.
  // It is acknowledged under the new V(R): at once and with F=1 when it polls, by
  // I-frames that happen to be cut (V(S) then moves), or else by T2, which is started
  // unless it runs for an earlier one.
  lemma TakesWanted(s: St, f: Frame)
    requires Inv(s) && Live(s) && Usable(s, f) && f.control.ns == s.v.vr && !s.v.cond.ownRxBusy
    ensures var t := Handled(s, FrameRX(Some(f))).st;
            && t.obs == s.obs + (if f.info != [] then [DataRX(f.info)] else [])
            && Delivered(t.obs) == Delivered(s.obs) + f.info
            && t.v.vr == (s.v.vr + 1) % M(s) && !t.v.cond.reject && t.state == s.state && t.cfg == s.cfg
    ensures var t := Handled(s, FrameRX(Some(f))).st;
            var ack := Supervisory(s.cfg, FrameRR, t.v.vr, true, false);
            Followed(if f.control.pf then OnAir(ack) else [], s, t, t.v.vr)
    ensures var t := Handled(s, FrameRX(Some(f))).st;
            && (f.control.pf || t.v.vs != s.v.vs ==> !t.v.cond.ackPending && !t.on.t2)
            && (!f.control.pf && t.v.vs == s.v.vs ==>
                  t.v.cond.ackPending && if s.v.cond.ackPending then t.on.t2 == s.on.t2 else t.on.t2)
            && (!s.cfg.mod128 ==>
                  (t.v.vs != s.v.vs <==> |Sent(s, t)| > if f.control.pf then 1 else 0))
  {
    var m := Received(Acked(s, f.control.nr), f);
    hide Acked, Received, Kicked, ValidNR, OnAir, Handled, Followed, Delivered, Inv, WindowOk;
    WantedTaken(s, f);
    HandledInformation(s, f);
    KicksAfterAck(s, f);
    KickKeepsReceiver(m);
    ThenKick(s, m, Kicked(m), if f.control.pf then OnAir(Supervisory(s.cfg, FrameRR, m.v.vr, true, false)) else []);
  }

  lemma KicksAfterAck(s: St, f: Frame)
    requires Inv(s) && Live(s) && Usable(s, f)
    ensures InStep(Acked(s, f.control.nr)) && InStep(Received(Acked(s, f.control.nr), f))
    ensures Information(s, f) == Kicked(Received(Acked(s, f.control.nr), f))
  {
    hide Acked, Received, Kicked;
    AckedFirst(s, f);
    InvLive(Acked(s, f.control.nr));
    InvLive(Received(Acked(s, f.control.nr), f));
  }

  // The state the wanted frame leaves before the kick.
  lemma WantedTaken(s: St, f: Frame)
    requires Inv(s) && Live(s) && Usable(s, f) && f.control.ns == s.v.vr && !s.v.cond.ownRxBusy
    ensures InStep(Acked(s, f.control.nr))
    ensures var m := Received(Acked(s, f.control.nr), f);
            && InStep(m) && ConfigOk(m.cfg) && WindowOk(m) && KickSends(m, Kicked(m))
            && m.obs == s.obs + (if f.info != [] then [DataRX(f.info)] else [])
            && Delivered(m.obs) == Delivered(s.obs) + f.info
            && m.v.vr == (s.v.vr + 1) % M(s) && m.v.vs == s.v.vs && !m.v.cond.reject
            && m.state == s.state && m.cfg == s.cfg
            && m.v.cond.ackPending == !f.control.pf
            && m.on.t2 == (if f.control.pf then false else s.v.cond.ackPending ==> s.on.t2)
            && m.tx == s.tx + (if f.control.pf then OnAir(Supervisory(s.cfg, FrameRR, m.v.vr, true, false)) else [])
            && (!s.cfg.mod128 ==> |OnAir(Supervisory(s.cfg, FrameRR, m.v.vr, true, false))| == 1)
  {
    AckedFirst(s, f);
    var a := Acked(s, f.control.nr);
    hide Acked, Kicked, KickSends, ValidNR, OnAir, Delivered, Inv;
    InvLive(a);
    var m := Received(a, f);
    assert m.v.vs == a.v.vs;
    hide Received;
    AcceptedIs(a, f);
    InvLive(m);
    AckLength(m);
    DeliveredConcat(s.obs, if f.info != [] then [DataRX(f.info)] else []);
    DeliveredOne(f.info);
  }

  lemma InvLive(s: St)
    requires Inv(s) && Live(s)
    ensures InStep(s) && ConfigOk(s.cfg) && WindowOk(s)
  {
  }

  lemma AckLength(m: St)
    requires Inv(m) && Live(m)
    ensures !m.cfg.mod128 ==> |OnAir(Supervisory(m.cfg, FrameRR, m.v.vr, true, false))| == 1
  {
  }

  lemma DeliveredOne(info: seq<U8>)
    ensures Delivered(if info != [] then [DataRX(info)] else []) == info
  {
    assert Delivered([]) == [];
    assert [DataRX(info)][1..] == [];
  }

  lemma KickKeepsReceiver(s: St)
    requires InStep(s) && ConfigOk(s.cfg) && WindowOk(s)
    ensures var t := Kicked(s);
            && t.v.vr == s.v.vr && t.v.cond == s.v.cond.(ackPending := t.v.cond.ackPending) && t.state == s.state
            && t.cfg == s.cfg && t.obs == s.obs && t.terminated == s.terminated && t.v.n2Count == s.v.n2Count
  {
    hide Kicked, WindowOk;
    KickedKeeps(s);
  }

  // Accepted, field by field, its acknowledgement as the frame on the air.
  lemma AcceptedIs(a: St, f: Frame)
    requires Inv(a) && Live(a) && !a.v.cond.ownRxBusy && f.control.ns == a.v.vr
    ensures var m := Accepted(a, f);
            && Received(a, f) == m && m.cfg == a.cfg && m.state == a.state
            && m.obs == a.obs + (if f.info != [] then [DataRX(f.info)] else [])
            && m.v.vr == (a.v.vr + 1) % M(a) && !m.v.cond.reject
            && m.tx == a.tx + (if f.control.pf then OnAir(Supervisory(a.cfg, FrameRR, m.v.vr, true, false)) else [])
            && m.v.cond.ackPending == !f.control.pf
            && m.on.t2 == (if f.control.pf then false else a.v.cond.ackPending ==> a.on.t2)
  {
    hide SentStatus, OnAir;
    var v := a.v.(vr := Ring.Next(a.v.vr, M(a)), cond := a.v.cond.(reject := false));
    var s1 := a.(v := v);
    var s2 := if f.info != [] then Emitted(s1, DataRX(f.info)) else s1;
    assert a.obs + [] == a.obs && a.tx + [] == a.tx;
    StatusIs(s2.(v := s2.v.(cond := s2.v.cond.(ackPending := false))), true, true);
  }

  // A frame out of order gives the observer nothing. It is asked for again with one REJ,
  // answering a poll if the frame was one, until the gap is filled; after that only polls
  // are answered.
  lemma RefusesOther(s: St, f: Frame)
    requires Inv(s) && Live(s) && Usable(s, f) && f.control.ns != s.v.vr && !s.v.cond.ownRxBusy
    ensures var t := Handled(s, FrameRX(Some(f))).st;
            t.obs == s.obs && t.v.vr == s.v.vr && t.v.cond.reject && t.state == s.state && t.cfg == s.cfg
    ensures var t := Handled(s, FrameRX(Some(f))).st;
            var again := Supervisory(s.cfg, FrameREJ, s.v.vr, f.control.pf, false);
            var here := Supervisory(s.cfg, FrameRR, s.v.vr, true, false);
            Followed(if !s.v.cond.reject then OnAir(again) else if f.control.pf then OnAir(here) else [], s, t, s.v.vr)
    ensures !s.v.cond.reject ==> var t := Handled(s, FrameRX(Some(f))).st; !t.v.cond.ackPending && !t.on.t2
  {
    HandledInformation(s, f);
    AckedFirst(s, f);
    var a := Acked(s, f.control.nr);
    hide Acked, Kicked, ValidNR, OnAir, Handled, Followed;
    RefusedIs(a, f);
    var m := Received(a, f);
    KickKeepsReceiver(m);
    var sent := if !s.v.cond.reject then OnAir(Supervisory(s.cfg, FrameREJ, s.v.vr, f.control.pf, false))
                else if f.control.pf then OnAir(Supervisory(s.cfg, FrameRR, s.v.vr, true, false)) else [];
    ThenKick(s, m, Kicked(m), sent);
    if !s.v.cond.reject {
      KickStopsT2(m);
    }
  }

  lemma KickStopsT2(s: St)
    requires InStep(s) && ConfigOk(s.cfg) && WindowOk(s) && !s.v.cond.ackPending
    ensures !Kicked(s).v.cond.ackPending && Kicked(s).on.t2 == s.on.t2
  {
    hide WindowOk, Drained;
    if !s.v.cond.peerRxBusy {
      DrainedKeeps(s);
    }
  }

  lemma RefusedIs(a: St, f: Frame)
    requires Inv(a) && Live(a) && !a.v.cond.ownRxBusy && f.control.ns != a.v.vr
    ensures var m := Received(a, f);
            && m.cfg == a.cfg && m.state == a.state && m.obs == a.obs && m.v.vr == a.v.vr && m.v.cond.reject
            && m.tx == a.tx + (if !a.v.cond.reject then OnAir(Supervisory(a.cfg, FrameREJ, a.v.vr, f.control.pf, false))
                               else if f.control.pf then OnAir(Supervisory(a.cfg, FrameRR, a.v.vr, true, false))
                               else [])
            && (!a.v.cond.reject ==> !m.v.cond.ackPending && !m.on.t2)
  {
    hide SentStatus, SentREJ, OnAir;
    assert a.tx + [] == a.tx;
    StatusIs(a, true, true);
    var cond := a.v.cond.(reject := true, ackPending := false);
    RejIs(a.(v := a.v.(cond := cond), on := a.on.(t2 := false)), f.control.pf);
  }

  // While this end cannot receive, every frame is dropped, and a poll answered with RNR.
  lemma DropsWhileBusy(s: St, f: Frame)
    requires Inv(s) && Live(s) && Usable(s, f) && s.v.cond.ownRxBusy
    ensures var t := Handled(s, FrameRX(Some(f))).st;
            && t.obs == s.obs && t.v.vr == s.v.vr && t.v.cond.reject == s.v.cond.reject && t.state == s.state
            && Followed(if f.control.pf then OnAir(Supervisory(s.cfg, FrameRNR, s.v.vr, true, false)) else [],
                        s, t, s.v.vr)
  {
    HandledInformation(s, f);
    AckedFirst(s, f);
    var a := Acked(s, f.control.nr);
    hide Acked, Kicked, ValidNR, OnAir, Handled, Followed, SentStatus, Accepted, Refused;
    StatusIs(a, true, true);
    var m := Received(a, f);
    assert m == if f.control.pf then SentStatus(a, true, true) else a;
    assert a.tx + [] == a.tx;
    KickKeepsReceiver(m);
    ThenKick(s, m, Kicked(m), if f.control.pf then OnAir(Supervisory(s.cfg, FrameRNR, s.v.vr, true, false)) else []);
  }

  // ----- the acknowledgement timer -----

  // The acknowledgement a session owes.
  function Owed(s: St): Frame {
    Supervisory(s.cfg, ReadyKind(s), s.v.vr, false, false)
  }

  // T2 sends the acknowledgement that is owed, a response of its own, and nothing if none is.
  lemma T2Acknowledges(s: St)
    requires Inv(s) && Live(s)
    ensures var t := Handled(s, T2Expiry).st;
            && t.obs == s.obs && t.v.vr == s.v.vr && t.state == s.state && !t.v.cond.ackPending
            && Followed(if s.v.cond.ackPending then OnAir(Owed(s)) else [], s, t, s.v.vr)
  {
    var m := FlushedAck(s);
    FlushedAckIs(s);
    hide Kicked, OnAir, Followed, FlushedAck;
    AlikeReady(s, m, false, true, true);
    KickLaw(m);
    KickKeepsReceiver(m);
    KickStopsT2(m);
    ThenKick(s, m, Kicked(m), if s.v.cond.ackPending then OnAir(Owed(s)) else []);
    HandledT2(s);
  }

  lemma HandledT2(s: St)
    requires RingOk(s) && Live(s)
    ensures RingOk(FlushedAck(s)) && Handled(s, T2Expiry).st == Kicked(FlushedAck(s))
  {
    hide Kicked;
  }

  lemma FlushedAckIs(s: St)
    requires Inv(s) && Live(s)
    ensures var m := FlushedAck(s);
            && Alike(s, m) && m.cfg == s.cfg && m.obs == s.obs && m.v.vr == s.v.vr && !m.v.cond.ackPending
            && m.tx == s.tx + if s.v.cond.ackPending then OnAir(Owed(s)) else []
  {
    hide SentStatus, OnAir;
    assert s.tx + [] == s.tx;
    StatusIs(s.(v := s.v.(cond := s.v.cond.(ackPending := false))), false, true);
  }

  // ----- an owed acknowledgement is always timed -----

  // T2 runs over what is owed, or its expiry has been signalled and not yet handled;
  // nothing is owed while a link is being set up.
  predicate AckTimed(s: St, due: bool) {
    && (Live(s) && s.v.cond.ackPending ==> s.on.t2 || due)
    && (s.state == AwaitingConnection ==> !s.v.cond.ackPending)
  }

  // b owes nothing that a did not, but for what it has started T2 for.
  predicate OwesNoMore(a: St, b: St) {
    b.v.cond.ackPending ==> b.on.t2 || (a.v.cond.ackPending && b.on.t2 == a.on.t2)
  }

  lemma KickedOwes(s: St, m: St)
    requires Inv(m) && Live(m) && OwesNoMore(s, m)
    ensures OwesNoMore(s, Kicked(m)) && Live(Kicked(m))
  {
    hide Kicked;
    KickLaw(m);
    KickedKeeps(m);
  }

  lemma ReceivedOwes(s: St, a: St, f: Frame)
    requires Inv(a) && Live(a) && OwesNoMore(s, a)
    ensures OwesNoMore(s, Received(a, f))
  {
    hide Accepted, Refused, SentStatus;
    if !a.v.cond.ownRxBusy {
      if f.control.ns == a.v.vr {
        AcceptedIs(a, f);
      } else {
        RefusedOwes(a, f);
      }
    }
  }

  lemma RefusedOwes(a: St, f: Frame)
    ensures OwesNoMore(a, Refused(a, f))
  {
    hide SentStatus, SentREJ;
  }

  lemma InformationOwes(s: St, f: Frame)
    requires Inv(s) && Live(s) && AckStops(s, f.control.nr)
    ensures Live(Information(s, f)) ==> OwesNoMore(s, Information(s, f))
    ensures Information(s, f).state == AwaitingConnection ==> !Information(s, f).v.cond.ackPending
  {
    hide Kicked, Received, Reestablished;
    if ValidNR(s, f.control.nr) {
      var a := Acked(s, f.control.nr);
      AckedReady(s, f.control.nr, false, false);
      assert OwesNoMore(s, a) && Live(a) && Inv(a);
      hide Acked;
      ReceivedAlike(a, f);
      AlikeReady(a, Received(a, f), false, false, false);
      ReceivedOwes(s, a, f);
      KickedOwes(s, Received(a, f));
    } else {
      ReestablishedOwes(s);
    }
  }

  lemma ReestablishedOwes(s: St)
    requires Live(s)
    ensures !Reestablished(s).v.cond.ackPending && !Live(Reestablished(s))
  {
    hide SentSABM;
  }

  // The frames that carry a bare N(R), in either state.
  lemma StatusOwes(s: St, f: Frame)
    requires Inv(s) && Live(s) && AckStops(s, f.control.nr)
    ensures AckTimedAfter(s, ConnectedStatus(s, f)) && AckTimedAfter(s, ConnectedReject(s, f))
  {
    hide Kicked, Reestablished, SentStatus, Slots, Cleared, Collect;
    ReestablishedOwes(s);
    if ValidNR(s, f.control.nr) {
      var s1 := AnsweredPoll(s, f);
      SameRingKeeps(s, s1);
      AckedReady(s1, f.control.nr, false, true);
      var s2 := Acked(s1, f.control.nr);
      KickedOwes(s, s2);
      RequeuedReady(s2, false, true, true);
      var s3 := Requeued(s2);
      var s4 := s3.(on := s3.on.(t1 := false, t3 := true));
      SameRingKeeps(s3, s4);
      KickedOwes(s, s4);
    }
  }

  predicate AckTimedAfter(s: St, t: St) {
    (Live(t) ==> OwesNoMore(s, t)) && (t.state == AwaitingConnection ==> !t.v.cond.ackPending)
  }

  lemma RecoveryStatusOwes(s: St, f: Frame)
    requires Inv(s) && s.state == TimerRecovery && AckStops(s, f.control.nr)
    ensures AckTimedAfter(s, RecoveryStatus(s, f)) && AckTimedAfter(s, RecoveryReject(s, f))
  {
    hide Kicked, Reestablished, SentStatus, Slots, Cleared, Collect;
    ReestablishedOwes(s);
    var nr := f.control.nr;
    if ValidNR(s, nr) {
      var s1 := if IsFinal(f) then s.(v := s.v.(n2Count := 0)) else AnsweredPoll(s, f);
      SameRingKeeps(s, s1);
      AckedReady(s1, nr, false, true);
      var s2 := Acked(s1, nr);
      RequeuedReady(s2, false, true, true);
      var s3 := Requeued(s2);
      if IsFinal(f) {
        RecoveredReady(s2, false, true, true);
        KickedOwes(s, Recovered(s2));
        RecoveredReady(s3, false, true, true);
        KickedOwes(s, Recovered(s3));
      } else {
        KickedOwes(s, s2);
        KickedOwes(s, s3);
      }
    }
  }

  lemma RebindOwes(s: St, f: Frame, mod128: bool)
    requires Inv(s) && Live(s) && (f.isCommand ==> Reaches(s.v.va, s.v.vs, Modulus(mod128)))
    ensures var m := if f.isCommand then Rebound(s, mod128, f.control.pf) else s;
            InStep(m) && AckTimedAfter(s, Kicked(m)) && AckTimedAfter(s, Kicked(WithState(m, Connected)))
  {
    hide Kicked, Rebound;
    if f.isCommand {
      ReboundRest(s, mod128, f.control.pf);
      ReboundReady(s, mod128, f.control.pf, false);
      var m := Rebound(s, mod128, f.control.pf);
      KickedOwes(s, m);
      KickedOwes(s, WithState(m, Connected));
    } else {
      KickedOwes(s, s);
      SameRingKeeps(s, WithState(s, Connected));
      KickedOwes(s, WithState(s, Connected));
    }
  }

  lemma FrameOwes(s: St, f: Frame)
    requires Inv(s) && Live(s) && Admissible(s, FrameRX(Some(f)))
    ensures s.state == Connected ==> AckTimedAfter(s, ConnectedFrame(s, f))
    ensures s.state == TimerRecovery ==> AckTimedAfter(s, RecoveryFrame(s, f))
  {
    hide Kicked, Reestablished, Rebound, Information, ConnectedStatus, ConnectedReject, RecoveryStatus, RecoveryReject;
    ReestablishedOwes(s);
    match f.control.kind
    case FrameSABM => RebindOwes(s, f, false);
    case FrameSABME => RebindOwes(s, f, true);
    case FrameDISC => KickedOwes(s, s);
    case FrameI => InformationOwes(s, f);
    case FrameRR => BusyOwes(s, f, false);
    case FrameRNR => BusyOwes(s, f, true);
    case FrameREJ => BusyOwes(s, f, false);
    case _ =>
  }

  lemma BusyOwes(s: St, f: Frame, busy: bool)
    requires Inv(s) && Live(s) && AckStops(s, f.control.nr)
    ensures var m := WithPeerBusy(s, busy);
            && InStep(m) && AckStops(m, f.control.nr)
            && AckTimedAfter(s, ConnectedStatus(m, f)) && AckTimedAfter(s, ConnectedReject(m, f))
            && (s.state == TimerRecovery ==>
                  AckTimedAfter(s, RecoveryStatus(m, f)) && AckTimedAfter(s, RecoveryReject(m, f)))
  {
    hide ConnectedStatus, ConnectedReject, RecoveryStatus, RecoveryReject;
    BusyKeeps(s, busy, false);
    var m := WithPeerBusy(s, busy);
    StatusOwes(m, f);
    if s.state == TimerRecovery {
      RecoveryStatusOwes(m, f);
    }
  }

  lemma LocalOwes(s: St, ev: Event)
    requires Inv(s) && Live(s) && !(ev.FrameRX? && ev.frame.Some?) && !ev.T2Expiry?
    ensures s.state == Connected ==> AckTimedAfter(s, OnConnected(s, ev).st)
    ensures s.state == TimerRecovery ==> AckTimedAfter(s, OnTimerRecovery(s, ev).st)
  {
    hide Kicked, SentStatus, SentU, Slots;
    KickedOwes(s, s);
    if ev.DataTX? {
      TookReady(s, ev.data, false, true, true);
      KickedOwes(s, Took(s, ev.data));
    }
    if ev.T1Expiry? && s.state == TimerRecovery && s.v.n2Count < s.cfg.n2 {
      EnquiryHealthy(s, s.v.n2Count + 1, false, true, true);
      var s1 := Enquired(s.(v := s.v.(n2Count := s.v.n2Count + 1)));
      KickedOwes(s, s1.(on := s1.on.(t1 := true)));
    }
  }

  lemma HandledOwes(s: St, ev: Event, due: bool)
    requires Inv(s) && Admissible(s, ev) && (!ev.T2Expiry? ==> AckTimed(s, due))
    requires ev.T2Expiry? && !Live(s) ==> AckTimed(s, due)
    ensures AckTimed(Handled(s, ev).st, due)
  {
    hide Handled, ConnectedFrame, RecoveryFrame, OnConnected, OnTimerRecovery, Admissible;
    if !Live(s) {
      IdleOwes(s, ev, due);
    } else if ev.FrameRX? && ev.frame.Some? {
      FrameOwes(s, ev.frame.value);
      LiveFrame(s, ev.frame.value);
    } else if ev.T2Expiry? {
      T2Acknowledges(s);
    } else if ev.Heartbeat? || ev.StatsTick? {
      TickOwes(s, ev);
    } else {
      LocalOwes(s, ev);
      LiveLocal(s, ev);
    }
  }

  lemma LiveLocal(s: St, ev: Event)
    requires RingOk(s) && Live(s) && !(ev.FrameRX? && ev.frame.Some?) && !ev.Heartbeat? && !ev.StatsTick?
    ensures Admissible(s, ev)
    ensures Handled(s, ev).st == if s.state == Connected then OnConnected(s, ev).st else OnTimerRecovery(s, ev).st
  {
    hide OnConnected, OnTimerRecovery;
  }

  lemma TickOwes(s: St, ev: Event)
    requires RingOk(s) && Live(s) && (ev.Heartbeat? || ev.StatsTick?)
    ensures Admissible(s, ev) && AckTimedAfter(s, Handled(s, ev).st)
  {
    hide SentStatus;
  }

  lemma IdleOwes(s: St, ev: Event, due: bool)
    requires RingOk(s) && !Live(s) && AckTimed(s, due) && Admissible(s, ev)
    ensures AckTimed(Handled(s, ev).st, due)
  {
    hide OnDisconnected, AwaitingConnectionFrame, AwaitingReleaseFrame, OnAwaitingRelease, SentU, SentSABM;
    if s.state == AwaitingConnection {
      SetupOwes(s, ev);
    } else {
      DownOwes(s, ev);
    }
  }

  lemma SetupOwes(s: St, ev: Event)
    requires s.state == AwaitingConnection && !s.v.cond.ackPending
    ensures !OnAwaitingConnection(s, ev).st.v.cond.ackPending
  {
    hide SentU, SentSABM;
  }

  lemma DownOwes(s: St, ev: Event)
    ensures s.state == Disconnected ==>
              var t := OnDisconnected(s, ev).st; !Live(t) && (t.state == AwaitingConnection ==> !t.v.cond.ackPending)
    ensures s.state == AwaitingRelease ==>
              var t := OnAwaitingRelease(s, ev).st; t.state == AwaitingRelease || t.state == Disconnected
  {
    hide SentU, SentSABM;
  }

  lemma LiveFrame(s: St, f: Frame)
    requires RingOk(s) && Live(s) && Admissible(s, FrameRX(Some(f)))
    ensures Handled(s, FrameRX(Some(f))).st
            == if s.state == Connected then ConnectedFrame(s, f) else RecoveryFrame(s, f)
  {
    hide ConnectedFrame, RecoveryFrame;
  }

  // In every state a run reaches: with T2Acknowledges, no acknowledgement is left unsent
  // for longer than T2 and the handling of its expiry take.
  lemma {:induction false} AcknowledgementTimed(tr: seq<System>, acts: seq<Action>, i: nat)
    requires Run(tr, acts) && i < |tr|
    ensures AckTimed(tr[i].s, tr[i].due.t2)
    decreases i
  {
    hide Handled, Admissible;
    if i > 0 {
      AcknowledgementTimed(tr, acts, i - 1);
      ReachableGood(tr, acts, i - 1);
      var a, act, b := tr[i - 1], acts[i - 1], tr[i];
      assert LapbRuns.Next(a, act, b);
      if !(act.FireT1? || act.FireT2? || act.FireT3? || act.FireHB? || act.FireStats?) {
        HandledOwes(a.s, EventOf(act), b.due.t2);
      }
    }
  }
}
