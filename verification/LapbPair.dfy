// Runs of two modulo-8 sessions over channels that may lose frames but neither reorder
// nor duplicate them: what each side's observer receives is always a prefix of what
// the other side took in, and no N(R) is ever judged invalid.

module LapbPair {
  import opened Common
  import opened Control
  import opened Frames
  import opened Ring
  import opened LapbSpec
  import opened LapbRing
  import opened LapbInvariants
  import opened LapbDirection
  import opened LapbLink
  import opened LapbTransfer
  import A = Address

  // Each session's tx is what is on its way to the other.
  datatype Pair = Pair(a: St, b: St)

  // Which session a step happens at.
  datatype Side = AtA | AtB

  datatype Step =
    | Local(at: Side, ev: Event)  // an operator, timer or housekeeping event
    | Deliver(at: Side)           // the frame at the head of the peer's channel arrives
    | Lose(at: Side, i: nat)      // the radio loses one of this side's frames

  function Flipped(p: Pair): Pair {
    Pair(p.b, p.a)
  }

  // A step at the first session of the pair.
  predicate NextA(p: Pair, step: Step, q: Pair) {
    match step
    case Local(_, ev) => IsLocal(ev) && HandlesA(p.a, ev, q.a) && q.b == p.b
    case Deliver(_) => p.b.tx != [] && HandlesA(p.a, FrameRX(Some(p.b.tx[0])), q.a) && q.b == Popped(p.b)
    case Lose(_, i) => i < |p.a.tx| && q == p.(a := p.a.(tx := Without(p.a.tx, i)))
  }

  predicate HandlesA(s: St, ev: Event, t: St) {
    && !s.terminated && RingOk(s) && Admissible(s, ev) && Handled(s, ev).st.cfg.paclen >= 1
    && t == Synced(Handled(s, ev).st)
  }

  predicate NextPair(p: Pair, step: Step, q: Pair) {
    if step.at == AtA then NextA(p, step, q) else NextA(Flipped(p), step, Flipped(q))
  }

  predicate PairRun(tr: seq<Pair>, steps: seq<Step>) {
    |tr| == |steps| + 1 && forall i | 0 <= i < |steps| :: NextPair(tr[i], steps[i], tr[i + 1])
  }

  // ----- the theorem -----

  // The local events that give the link up: the operator's, and T1 once the enquiries
  // are used up.
  predicate GivesUp(s: St, ev: Event) {
    ev.Disconnect? || ev.Abort? || (ev.T1Expiry? && s.state == TimerRecovery && s.v.n2Count >= s.cfg.n2)
  }

  function SessionAt(p: Pair, at: Side): St {
    if at == AtA then p.a else p.b
  }

  predicate Endures(p: Pair, step: Step) {
    step.Local? ==> !GivesUp(SessionAt(p, step.at), step.ev)
  }

  // Everything acknowledged to the sender has been delivered, everything delivered was
  // taken in, in order; and when the sender has nothing left all of it has arrived.
  predicate Transferred(s: St, r: St) {
    && s.hist.acked <= Delivered(r.obs) <= s.hist.taken
    && (s.txBuf == [] && s.v.vs == s.v.va ==> Delivered(r.obs) == s.hist.taken)
  }

  // Two sessions that have just been established, with nothing on its way.
  predicate JustUp(s: St) {
    && s.state == Connected && ConfigOk(s.cfg) && !s.cfg.mod128 && |s.pending| == RING_SIZE && !s.terminated
    && s.v == ZERO_VARS && s.txBuf == [] && s.tx == [] && s.hist == Hist([], []) && Delivered(s.obs) == []
  }

  // In every run of two freshly established sessions, whatever is lost and whenever
  // the timers go off, until one end gives the link up: each side's observer has
  // received, in order, a prefix of what the other side took in, at least what was
  // acknowledged, and all of it once nothing is queued or outstanding. Neither side
  // ever restarts or ends the link on account of a frame it received.
  lemma TransferIsPrefix(tr: seq<Pair>, steps: seq<Step>, i: nat)
    requires PairRun(tr, steps) && i < |tr| && JustUp(tr[0].a) && JustUp(tr[0].b)
    requires forall j | 0 <= j < i :: Endures(tr[j], steps[j])
    ensures Transferred(tr[i].a, tr[i].b) && Transferred(tr[i].b, tr[i].a)
    ensures Live(tr[i].a) && Live(tr[i].b)
  {
    hide Linked, JustUp, PairRun, Endures, Transferred;
    var p := tr[i];
    JustUpLinked(tr[0].a, tr[0].b);
    RunLinked(tr, steps, i);
    LinkedTransferred(p.a, p.b);
    LinkedSwap(p.a, p.b);
    LinkedTransferred(p.b, p.a);
    LinkedUp(p.a, p.b);
  }

  // The octets on the air carry exactly these frames: what both encoders write for a
  // frame under way, the peer's modulo-8 decoder reads back as that frame.
  lemma WireFaithful(a: St, b: St, i: nat)
    requires Linked(a, b) && i < |a.tx|
    requires A.Valid(a.cfg.local) && A.Valid(a.cfg.peer) && !a.cfg.local.repeated && !a.cfg.peer.repeated
    requires |a.cfg.path| <= A.MAX_REPEATERS && forall j | 0 <= j < |a.cfg.path| :: A.Valid(a.cfg.path[j])
    ensures Encode(a.tx[i]).Ok? && Decode(Encode(a.tx[i]).value, false) == Ok(a.tx[i])
    ensures ToSurface(a.tx[i]).Ok? && EncodeSurface(ToSurface(a.tx[i]).value) == Encode(a.tx[i])
  {
    hide Up, Dir, Encode, Decode, ToSurface, EncodeSurface;
    assert WellFormedFrame(a.tx[i]) && OnWire(a.tx[i], a.cfg);
    FrameRoundTrip(a.tx[i]);
    EncodersAgree(a.tx[i]);
  }

  // ----- one step -----

  ghost predicate LinkedPair(p: Pair) {
    Linked(p.a, p.b)
  }

  lemma UpAgain(a: St, ev: Event)
    requires Up(a) && Admissible(a, ev) && LosesNothing(a, ev) && Live(Handled(a, ev).st)
    requires !Handled(a, ev).st.cfg.mod128
    ensures Handled(a, ev).st.cfg.paclen >= 1 && Up(Synced(Handled(a, ev).st))
  {
    hide Handled;
    HandledHealthy(a, ev, true, true, true);
    SyncedHealthy(Handled(a, ev).st, true, true, true);
  }

  lemma SyncedLink(a: St, b: St, k: nat, l: nat)
    requires Link(a, b, k, l)
    ensures Link(Synced(a), b, k, l)
  {
    LinkBase(a, b, k, l);
    QuietLink(a, b, k, l, Synced(a));
  }

  lemma LocalLinked(a: St, b: St, ev: Event, t: St)
    requires Linked(a, b) && IsLocal(ev) && HandlesA(a, ev, t) && Live(t)
    ensures Linked(t, b)
  {
    hide Link, Handled, Up;
    UpLive(a);
    var s := Handled(a, ev).st;
    var k: nat, l: nat :| Link(a, b, k, l);
    LocalLink(a, b, k, l, ev);
    LinkBase(s, b, k, l);
    UpAgain(a, ev);
    SyncedLink(s, b, k, l);
  }

  lemma DispatchLink(a: St, b: St, k: nat, l: nat, l0: nat, f: Frame) returns (k': nat)
    requires Up(a) && Link(a, b, k, l) && AckFact(a, b, f, a.tx, b.tx)
    requires |b.pending| == RING_SIZE && HeadFact(b, a, f, b.tx, a.tx, l0) && (l0 == 0 ==> l == 0)
    requires (IsI(f) || IsREJ(f) || IsStatus(f)) && f.control.ns < 8 && f.control.nr < 8
    ensures Admissible(a, FrameRX(Some(f)))
    ensures var s := Handled(a, FrameRX(Some(f))).st; Live(s) && Link(s, b, k', l)
  {
    hide Link, Inv, Conserved, ConnectedFrame, RecoveryFrame, AckFact, HeadFact;
    LinkBase(a, b, k, l);
    HandledFrame(a, f);
    if a.state == Connected {
      k' := ConnectedDelivered(a, b, k, l, l0, f);
    } else {
      k' := RecoveryDelivered(a, b, k, l, l0, f);
    }
  }

  // The frame at the head of the peer's channel is always one this session may be
  // handed, and taking it never ends or restarts the link: no N(R) is judged invalid.
  lemma HeadTaken(a: St, b: St)
    requires Linked(a, b) && b.tx != []
    ensures RingOk(a) && Admissible(a, FrameRX(Some(b.tx[0])))
    ensures Handled(a, FrameRX(Some(b.tx[0]))).st.cfg.paclen >= 1
    ensures Linked(Synced(Handled(a, FrameRX(Some(b.tx[0]))).st), Popped(b))
  {
    hide Link, Up, AckFact, HeadFact, Handled;
    var k: nat, l: nat :| Link(a, b, k, l);
    var b', l' := Popped(b), if l > 0 then l - 1 else 0;
    PopFacts(a, b, k, l);
    PopLink(a, b, k, l);
    UpLive(a);
    var ev := FrameRX(Some(b.tx[0]));
    var k' := DispatchLink(a, b', k, l', l, b.tx[0]);
    var s := Handled(a, ev).st;
    LinkBase(s, b', k', l');
    PoppedUp(b);
    UpAgain(a, ev);
    SyncedLink(s, b', k', l');
  }

  lemma UpLive(a: St)
    requires Up(a)
    ensures Live(a) && Inv(a) && RingOk(a)
  {
  }

  lemma PoppedUp(b: St)
    requires Up(b) && b.tx != []
    ensures Up(Popped(b))
  {
    SameRingKeeps(b, Popped(b));
  }

  lemma HandledFrame(a: St, f: Frame)
    requires InStep(a) && !a.cfg.mod128 && f.control.ns < 8 && f.control.nr < 8
    requires IsI(f) || IsREJ(f) || IsStatus(f)
    ensures Admissible(a, FrameRX(Some(f)))
    ensures Handled(a, FrameRX(Some(f))).st == if a.state == Connected then ConnectedFrame(a, f) else RecoveryFrame(a, f)
  {
    hide ConnectedFrame, RecoveryFrame;
  }

  lemma LoseLinked(a: St, b: St, i: nat)
    requires Linked(a, b) && i < |a.tx|
    ensures Linked(a.(tx := Without(a.tx, i)), b)
  {
    var k: nat, l: nat :| Link(a, b, k, l);
    var a' := a.(tx := Without(a.tx, i));
    SameRingKeeps(a, a');
    LoseData(a, b, a.tx, b.tx, k, i);
    LoseCtl(b, a, b.tx, a.tx, l, i);
    var k' := if i < k then k - 1 else k;
    hide Dir;
    QuietDir'(a, b, a', a'.tx, b.tx, k');
    QuietDir(b, a, a', b.tx, a'.tx, l);
    assert Link(a', b, k', l);
  }

  // ----- what ends a link -----

  lemma LocalStateConnected(a: St, ev: Event)
    requires Up(a) && a.state == Connected && IsLocal(ev)
    ensures Live(OnConnected(a, ev).st) <==> !(ev.Disconnect? || ev.Abort?)
  {
    hide Kicked, Took, Enquired, FlushedAck, NoQueues, Releasing;
    match ev
    case DataTX(data) =>
      TookReady(a, data, false, true, true);
      KickedHealthy(Took(a, data), false, true, true);
    case T1Expiry => EnquiryHealthy(a, 1, false, true, true);
    case T3Expiry => EnquiryHealthy(a, 0, false, true, true);
    case T2Expiry =>
      FlushedAckReady(a, false, true, true);
      KickedHealthy(FlushedAck(a), false, true, true);
    case Disconnect => ReleasingDown(a);
    case Abort => ReleasingDown(a);
    case Shutdown =>
    case _ => KickedHealthy(a, false, true, true);
  }

  lemma LocalStateRecovery(a: St, ev: Event)
    requires Up(a) && a.state == TimerRecovery && IsLocal(ev)
    ensures Live(OnTimerRecovery(a, ev).st) <==> !GivesUp(a, ev)
  {
    hide Kicked, Took, Enquired, FlushedAck, NoQueues, Releasing, TornDown;
    match ev
    case DataTX(data) =>
      TookReady(a, data, false, true, true);
      KickedHealthy(Took(a, data), false, true, true);
    case T1Expiry =>
      if a.v.n2Count >= a.cfg.n2 {
        GaveUpDown(a);
      } else {
        EnquiryHealthy(a, a.v.n2Count + 1, false, true, true);
        var s1 := Enquired(a.(v := a.v.(n2Count := a.v.n2Count + 1)));
        KickedHealthy(s1.(on := s1.on.(t1 := true)), false, true, true);
      }
    case T2Expiry =>
      FlushedAckReady(a, false, true, true);
      KickedHealthy(FlushedAck(a), false, true, true);
    case Disconnect => ReleasingDown(a);
    case Abort => ReleasingDown(a);
    case Shutdown =>
    case _ => KickedHealthy(a, false, true, true);
  }

  lemma StatusKeepsState(a: St)
    requires InStep(a)
    ensures HeartbeatTick(a).state == a.state && StatsTicked(a).state == a.state
  {
  }

  // Of what happens at one end, only the operator's disconnect or abort, and a T1
  // expiry once the enquiries are used up, take an established link down.
  lemma LocalEndsIff(a: St, ev: Event, t: St)
    requires Up(a) && IsLocal(ev) && HandlesA(a, ev, t)
    ensures Live(t) <==> !GivesUp(a, ev)
  {
    hide OnConnected, OnTimerRecovery, SentStatus;
    if ev.Heartbeat? || ev.StatsTick? {
      StatusKeepsState(a);
    } else if a.state == Connected {
      LocalStateConnected(a, ev);
    } else {
      LocalStateRecovery(a, ev);
    }
  }

  // ----- every run -----

  lemma NextALinked(p: Pair, step: Step, q: Pair)
    requires Linked(p.a, p.b) && NextA(p, step, q)
    requires step.Local? ==> !GivesUp(p.a, step.ev)
    ensures Linked(q.a, q.b)
  {
    hide Linked, HandlesA, GivesUp;
    match step
    case Local(_, ev) =>
      LinkedUp(p.a, p.b);
      LocalEndsIff(p.a, ev, q.a);
      LocalLinked(p.a, p.b, ev, q.a);
    case Deliver(_) =>
      HeadTaken(p.a, p.b);
      assert q.a == Synced(Handled(p.a, FrameRX(Some(p.b.tx[0]))).st) by { HandlesIs(p.a, FrameRX(Some(p.b.tx[0])), q.a); }
    case Lose(_, i) => LoseLinked(p.a, p.b, i);
  }

  lemma HandlesIs(s: St, ev: Event, t: St)
    requires HandlesA(s, ev, t)
    ensures RingOk(s) && Admissible(s, ev) && Handled(s, ev).st.cfg.paclen >= 1 && t == Synced(Handled(s, ev).st)
  {
  }

  lemma LinkedUp(a: St, b: St)
    requires Linked(a, b)
    ensures Up(a) && Up(b)
  {
  }

  lemma NextLinked(p: Pair, step: Step, q: Pair)
    requires LinkedPair(p) && NextPair(p, step, q) && Endures(p, step)
    ensures LinkedPair(q)
  {
    hide Linked, NextA, GivesUp;
    if step.at == AtA {
      NextALinked(p, step, q);
    } else {
      LinkedSwap(p.a, p.b);
      NextALinked(Flipped(p), step, Flipped(q));
      LinkedSwap(q.b, q.a);
    }
  }

  lemma {:induction false} RunLinked(tr: seq<Pair>, steps: seq<Step>, i: nat)
    requires PairRun(tr, steps) && i < |tr| && LinkedPair(tr[0])
    requires forall j | 0 <= j < i :: Endures(tr[j], steps[j])
    ensures LinkedPair(tr[i])
    decreases i
  {
    hide LinkedPair, NextPair, Endures;
    if i > 0 {
      RunLinked(tr, steps, i - 1);
      NextLinked(tr[i - 1], steps[i - 1], tr[i]);
    }
  }

  // ----- what being linked says about the bytes -----

  lemma LinkedTransferred(a: St, b: St)
    requires Linked(a, b)
    ensures Transferred(a, b)
  {
    hide Slots, Collect, OldPart, NewPart, Acks, Rejects, Wired;
    var k: nat, l: nat :| Link(a, b, k, l);
    SlotsSplit(a.v.va, b.v.vr, a.v.vs, 8);
    var got, left := Slots(a.v.va, b.v.vr, 8), Slots(b.v.vr, a.v.vs, 8);
    CollectConcat(a.pending, got, left);
    var g, r := Collect(a.pending, got), Collect(a.pending, left);
    assert a.hist.taken == a.hist.acked + (g + r) + a.txBuf;
    assert a.hist.acked + (g + r) + a.txBuf == (a.hist.acked + g) + (r + a.txBuf);
    if a.txBuf == [] && a.v.vs == a.v.va {
      assert a.v.vs == b.v.vr;
      assert r == [] by { NothingLeft(a.pending, a.v.vs); }
    }
  }

  lemma NothingLeft(p: seq<Option<Frame>>, n: U8)
    requires |p| == RING_SIZE
    ensures Slots(n, n, 8) == [] && Collect(p, Slots(n, n, 8)) == []
  {
  }

  lemma JustUpLinked(a: St, b: St)
    requires JustUp(a) && JustUp(b)
    ensures Linked(a, b)
  {
    assert Link(a, b, 0, 0);
  }
}
