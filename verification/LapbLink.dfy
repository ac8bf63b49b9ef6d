// Two modulo-8 sessions joined by channels that may lose frames. A session's tx is the
// channel towards its peer: frames leave it at the head when the peer takes them, and
// from anywhere when the radio loses them.

module LapbLink {
  import opened Common
  import opened Control
  import opened Frames
  import opened Ring
  import opened LapbSpec
  import opened LapbRing
  import opened LapbInvariants
  import opened LapbDirection

  // An established modulo-8 session whose bytes balance.
  predicate Up(s: St) {
    Live(s) && Inv(s) && !s.cfg.mod128 && !s.terminated && Conserved(s)
  }

  predicate Link(a: St, b: St, k: nat, l: nat) {
    && Dir(a, b, a.tx, b.tx, k) && Dir(b, a, b.tx, a.tx, l)
    && Wired(a.tx, a.cfg) && Wired(b.tx, b.cfg)
  }

  ghost predicate Linked(a: St, b: St) {
    Up(a) && Up(b) && exists k: nat, l: nat :: Link(a, b, k, l)
  }

  lemma LinkSwap(a: St, b: St, k: nat, l: nat)
    requires Link(a, b, k, l)
    ensures Link(b, a, l, k)
  {
  }

  lemma LinkedSwap(a: St, b: St)
    requires Linked(a, b)
    ensures Linked(b, a)
  {
    var k: nat, l: nat :| Link(a, b, k, l);
    LinkSwap(a, b, k, l);
  }

  // ----- pieces of a step, taken by a -----

  lemma WiredConcat(p: seq<Frame>, q: seq<Frame>, c: Config)
    requires Wired(p, c) && Wired(q, c)
    ensures Wired(p + q, c)
  {
  }

  // Status frames out, and nothing else that either direction looks at.
  lemma BenignLink(a: St, b: St, k: nat, l: nat, a': St, ext: seq<Frame>)
    requires Link(a, b, k, l) && SameSender(a, a') && SameReceiver(a, a')
    requires a'.tx == a.tx + ext && StatusOf(ext, a)
    ensures Link(a', b, k, l)
  {
    hide Dir;
    SenderStatus(a, b, a.tx, b.tx, k, a', ext) by { DirIsDir(a, b, a.tx, b.tx, k); }
    assert Base(a) by { DirIsDir(a, b, a.tx, b.tx, k); }
    ReceiverStatus(b, a, b.tx, a.tx, l, a', ext);
    WiredConcat(a.tx, ext, a.cfg);
  }

  lemma DirIsDir(s: St, r: St, data: seq<Frame>, ctl: seq<Frame>, k: nat)
    requires Dir(s, r, data, ctl, k)
    ensures Base(s) && Base(r)
  {
  }

  lemma QuietLink(a: St, b: St, k: nat, l: nat, a': St)
    requires Link(a, b, k, l) && SameSender(a, a') && SameReceiver(a, a') && a'.tx == a.tx
    ensures Link(a', b, k, l)
  {
    assert a.tx + [] == a.tx;
    BenignLink(a, b, k, l, a', []);
  }

  lemma StatusOut(a: St, poll: bool, asResponse: bool)
    requires Base(a)
    ensures var f := StatusFrame(a, poll, asResponse);
            && SentStatus(a, poll, asResponse) == a.(tx := a.tx + [f])
            && IsStatus(f) && f.control.nr == a.v.vr && OnWire(f, a.cfg)
  {
  }

  lemma SentStatusLink(a: St, b: St, k: nat, l: nat, poll: bool, asResponse: bool)
    requires Link(a, b, k, l)
    ensures Link(SentStatus(a, poll, asResponse), b, k, l)
  {
    hide SentStatus, StatusFrame;
    StatusOut(a, poll, asResponse);
    BenignLink(a, b, k, l, SentStatus(a, poll, asResponse), [StatusFrame(a, poll, asResponse)]);
  }

  lemma AckLink(a: St, b: St, k: nat, l: nat, f: Frame)
    requires Link(a, b, k, l) && AckFact(a, b, f, a.tx, b.tx)
    ensures ValidNR(a, f.control.nr)
    ensures Link(Acked(a, f.control.nr), b, k, l)
    ensures IsREJ(f) ==> Acked(a, f.control.nr).v.va == b.v.vr
  {
    AckStep(a, b, f, a.tx, b.tx, k);
    var a' := Acked(a, f.control.nr);
    assert a'.tx == a.tx && SameReceiver(a, a');
    hide Acked;
    assert b.tx == b.tx && a.tx + [] == a.tx;
    ReceiverStatus(b, a, b.tx, a.tx, l, a', []);
  }

  lemma RequeueLink(a: St, b: St, k: nat, l: nat)
    requires Link(a, b, k, l) && NoREJ(b.tx)
    requires b.v.cond.reject && a.v.va == b.v.vr && NoneAt(a.tx, b.v.vr)
    ensures Link(Requeued(a), b, |a.tx|, l)
  {
    RequeueStep(a, b, a.tx, b.tx, k);
    var a' := Requeued(a);
    assert a'.tx == a.tx && SameReceiver(a, a');
    hide Requeued;
    assert a.tx + [] == a.tx;
    ReceiverStatus(b, a, b.tx, a.tx, l, a', []);
  }

  lemma SendOut(a: St)
    requires Base(a) && CanSend(a)
    ensures SentOne(a).tx == a.tx + [DataFrame(a, a.txBuf[..ChunkLen(a)])]
    ensures OnWire(DataFrame(a, a.txBuf[..ChunkLen(a)]), a.cfg) && SentOne(a).cfg == a.cfg
    ensures SentOne(a).v.vr == a.v.vr && SentOne(a).v.cond == a.v.cond && SentOne(a).obs == a.obs
  {
  }

  lemma SendLink(a: St, b: St, k: nat, l: nat)
    requires Link(a, b, k, l) && CanSend(a) && ConfigOk(a.cfg)
    ensures Base(SentOne(a)) && Link(SentOne(a), b, k, l)
  {
    SendStep(a, b, a.tx, b.tx, k);
    SendOut(a);
    var a', f := SentOne(a), DataFrame(a, a.txBuf[..ChunkLen(a)]);
    hide SentOne;
    assert f.control.nr == a.v.vr && IsI(f);
    ReceiverStatus(b, a, b.tx, a.tx, l, a', [f]);
    WiredConcat(a.tx, [f], a.cfg);
  }

  lemma {:induction false} DrainedLink(a: St, b: St, k: nat, l: nat)
    requires Link(a, b, k, l) && ConfigOk(a.cfg) && WindowOk(a)
    ensures Link(Drained(a), b, k, l)
    decreases |a.txBuf|
  {
    LinkBase(a, b, k, l);
    hide Link, SentOne;
    if CanSend(a) {
      SendLink(a, b, k, l);
      SentOneKeeps(a);
      DrainedLink(SentOne(a), b, k, l);
    }
  }

  lemma LinkBase(a: St, b: St, k: nat, l: nat)
    requires Link(a, b, k, l)
    ensures Base(a) && Base(b)
  {
  }

  lemma KickedLink(a: St, b: St, k: nat, l: nat)
    requires Link(a, b, k, l) && ConfigOk(a.cfg) && WindowOk(a)
    ensures Link(Kicked(a), b, k, l)
  {
    hide Link, Drained;
    LinkBase(a, b, k, l);
    if !a.v.cond.peerRxBusy {
      DrainedLink(a, b, k, l);
      DrainedKeeps(a);
      var d := Drained(a);
      QuietLink(d, b, k, l, Settled(d, CanSend(a)));
    }
  }

  // ----- the frame at the head of b's channel -----

  function Popped(b: St): St
    requires b.tx != []
  {
    b.(tx := b.tx[1..])
  }

  lemma PopLink(a: St, b: St, k: nat, l: nat)
    requires Link(a, b, k, l) && b.tx != []
    ensures Link(a, Popped(b), k, if l > 0 then l - 1 else 0)
  {
    var b' := Popped(b);
    assert b'.tx == Without(b.tx, 0);
    LoseCtl(a, b, a.tx, b.tx, k, 0);
    LoseData(b, a, b.tx, a.tx, l, 0);
    hide Dir;
    QuietDir(a, b, b', a.tx, b'.tx, k);
    QuietDir'(b, a, b', b'.tx, a.tx, if l > 0 then l - 1 else 0);
  }

  lemma PopFacts(a: St, b: St, k: nat, l: nat)
    requires Link(a, b, k, l) && b.tx != []
    ensures AckFact(a, Popped(b), b.tx[0], a.tx, Popped(b).tx)
    ensures |Popped(b).pending| == RING_SIZE && HeadFact(Popped(b), a, b.tx[0], Popped(b).tx, a.tx, l)
    ensures IsI(b.tx[0]) || IsREJ(b.tx[0]) || IsStatus(b.tx[0])
    ensures b.tx[0].control.ns < 8 && b.tx[0].control.nr < 8
  {
    Head(b, a, b.tx, a.tx, l);
    HeadAck(a, b, a.tx, b.tx, k);
  }

  lemma QuietDir(s: St, r: St, r': St, data: seq<Frame>, ctl: seq<Frame>, k: nat)
    requires Dir(s, r, data, ctl, k) && r' == r.(tx := r'.tx)
    ensures Dir(s, r', data, ctl, k)
  {
  }

  lemma QuietDir'(s: St, r: St, s': St, data: seq<Frame>, ctl: seq<Frame>, k: nat)
    requires Dir(s, r, data, ctl, k) && s' == s.(tx := s'.tx)
    ensures Dir(s', r, data, ctl, k)
  {
  }

  // ----- receiving an I-frame -----

  lemma EmittedDelivered(s: St, e: OutEvent)
    ensures Delivered(Emitted(s, e).obs) == Delivered(s.obs) + (if e.DataRX? then e.data else [])
  {
    DeliveredConcat(s.obs, [e]);
    assert [e][1..] == [];
    assert Delivered([e]) == if e.DataRX? then e.data else [];
  }

  // The receiving half of Accepted, before it acknowledges.
  function Taken(s: St, f: Frame): St {
    var s1 := s.(v := s.v.(vr := Next(s.v.vr, M(s)), cond := s.v.cond.(reject := false)));
    if f.info != [] then Emitted(s1, DataRX(f.info)) else s1
  }

  lemma TakenLink(a: St, b: St, k: nat, l: nat, f: Frame, l0: nat)
    requires Link(a, b, k, 0) && HeadFact(b, a, f, b.tx, a.tx, l0) && IsI(f) && f.control.ns == a.v.vr && l == 0
    ensures Link(Taken(a, f), b, k, 0)
  {
    var a' := Taken(a, f);
    EmittedDelivered(a.(v := a'.v), DataRX(f.info));
    assert Delivered(a'.obs) == Delivered(a.obs) + f.info;
    AcceptStep(b, a, f, b.tx, a.tx, l0, a');
    assert a.tx + [] == a.tx && SameSender(a, a');
    SenderStatus(a, b, a.tx, b.tx, k, a', []);
  }

  lemma AcceptedLink(a: St, b: St, k: nat, l0: nat, f: Frame)
    requires Link(a, b, k, 0) && HeadFact(b, a, f, b.tx, a.tx, l0) && IsI(f) && f.control.ns == a.v.vr
    ensures Link(Accepted(a, f), b, k, 0)
  {
    TakenLink(a, b, k, 0, f, l0);
    AcceptedIs(a, f);
    AcknowledgedLink(Taken(a, f), b, k, f);
  }

  // The acknowledging half of Accepted.
  function Acknowledged(t: St, f: Frame): St {
    if f.control.pf then
      var t1 := SentStatus(t.(v := t.v.(cond := t.v.cond.(ackPending := false))), true, true);
      t1.(on := t1.on.(t2 := false))
    else if !t.v.cond.ackPending then
      t.(v := t.v.(cond := t.v.cond.(ackPending := true)), on := t.on.(t2 := true))
    else t
  }

  lemma AcknowledgedLink(t: St, b: St, k: nat, f: Frame)
    requires Link(t, b, k, 0)
    ensures Link(Acknowledged(t, f), b, k, 0)
  {
    hide Link;
    LinkBase(t, b, k, 0);
    if f.control.pf {
      var t1 := t.(v := t.v.(cond := t.v.cond.(ackPending := false)));
      QuietLink(t, b, k, 0, t1);
      SentStatusLink(t1, b, k, 0, true, true);
      hide SentStatus;
      var t2 := SentStatus(t1, true, true);
      LinkBase(t2, b, k, 0);
      QuietLink(t2, b, k, 0, t2.(on := t2.on.(t2 := false)));
    } else if !t.v.cond.ackPending {
      QuietLink(t, b, k, 0, t.(v := t.v.(cond := t.v.cond.(ackPending := true)), on := t.on.(t2 := true)));
    }
  }

  lemma AcceptedIs(a: St, f: Frame)
    ensures Accepted(a, f) == Acknowledged(Taken(a, f), f)
  {
  }

  lemma RefusedLink(a: St, b: St, k: nat, l: nat, l0: nat, f: Frame)
    requires Link(a, b, k, l) && HeadFact(b, a, f, b.tx, a.tx, l0) && IsI(f) && f.control.ns < 8
    requires f.control.ns != a.v.vr && (!a.v.cond.reject ==> l == 0)
    ensures Link(Refused(a, f), b, k, l)
  {
    if a.v.cond.reject {
      if f.control.pf {
        SentStatusLink(a, b, k, l, true, true);
      }
    } else {
      var a' := Refused(a, f);
      var rej := Made(a.cfg, Control(FrameREJ, 0, a.v.vr, f.control.pf), 0, [], false);
      assert a'.tx == a.tx + [rej] && SameSender(a, a');
      hide Refused;
      RejectStep(b, a, f, b.tx, a.tx, l0, a', rej);
      SenderStatus(a, b, a.tx, b.tx, k, a', [rej]);
      WiredConcat(a.tx, [rej], a.cfg);
    }
  }

  lemma ReceivedLink(a: St, b: St, k: nat, l: nat, l0: nat, f: Frame)
    requires Link(a, b, k, l) && HeadFact(b, a, f, b.tx, a.tx, l0) && IsI(f) && f.control.ns < 8
    requires l0 == 0 ==> l == 0
    ensures Link(Received(a, f), b, k, l)
  {
    hide Link, Accepted, Refused;
    if a.v.cond.ownRxBusy {
      if f.control.pf {
        SentStatusLink(a, b, k, l, true, true);
      }
    } else if f.control.ns == a.v.vr {
      AcceptedLink(a, b, k, l0, f);
    } else {
      RefusedLink(a, b, k, l, l0, f);
    }
  }
}
