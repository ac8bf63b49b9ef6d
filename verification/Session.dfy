// The session object of pkg/ax25conn: fields updated in place, one method per source
// function. Every method is proved to do to the fields what LapbSpec says; what that
// amounts to is proved there and in LapbInvariants and LapbLink.

module LapbSession {
  import opened Common
  import opened Control
  import opened Frames
  import opened Ring
  import opened LapbSpec
  import opened LapbRing
  import opened LapbNotices
  import A = Address

  class Session {
    var cfg: Config
    var state: State
    var v: Vars
    var on: Timers
    const pending: array<Option<Frame>>
    var txBuf: seq<U8>
    var terminated: bool
    var outstanding: int
    var sink: seq<Frame>
    var observed: seq<OutEvent>
    ghost var hist: Hist

    ghost function View(): St
      reads this, pending
    {
      St(cfg, state, v, on, pending[..], txBuf, terminated, outstanding, sink, observed, hist)
    }

    constructor (cfg: Config)
      ensures View() == St(cfg, Disconnected, ZERO_VARS, Timers(false, false, false, false, false),
                           seq(RING_SIZE, i => None), [], false, 0, [], [], Hist([], []))
      ensures fresh(pending)
    {
      this.cfg := cfg;
      state := Disconnected;
      v := ZERO_VARS;
      on := Timers(false, false, false, false, false);
      pending := new Option<Frame>[RING_SIZE](i => None);
      txBuf := [];
      terminated := false;
      outstanding := 0;
      sink := [];
      observed := [];
      hist := Hist([], []);
      new;
      assert pending[..] == seq(RING_SIZE, i => None);
    }

    method Modulo() returns (m: int)
      ensures m == M(View()) && IsModulus(m)
    {
      if cfg.mod128 {
        return 128;
      }
      return 8;
    }

    method SetMod128(b: bool)
      modifies this`cfg
      ensures cfg == old(cfg).(mod128 := b)
    {
      cfg := cfg.(mod128 := b);
    }

    // ----- output -----

    method Submit(f: Frame)
      modifies this`sink
      ensures View() == Submitted(old(View()), f)
    {
      var wrapper := ToSurface(f);
      if wrapper.Err? {
        return;
      }
      sink := sink + [f];
    }

    method Emit(e: OutEvent)
      modifies this`observed
      ensures View() == Emitted(old(View()), e)
    {
      observed := observed + [e];
    }

    method SetState(ns: State)
      modifies this
      ensures View() == WithState(old(View()), ns)
    {
      if ns == state {
        return;
      }
      if state == Connected {
        on := on.(stats := false);
      }
      state := ns;
      Emit(StateChange(ns));
      Emit(LinkStats);
      if ns == Connected {
        on := on.(stats := true);
      }
      if ns == Disconnected {
        terminated := true;
      }
      assert observed == old(observed) + [StateChange(ns), LinkStats];
    }

    method SendU(kind: FrameKind, pf: bool, isCommand: bool)
      modifies this`sink
      ensures View() == SentU(old(View()), kind, pf, isCommand)
    {
      Submit(Frame(cfg.local, cfg.peer, cfg.path, Control(kind, 0, 0, pf), 0, [], isCommand, false));
    }

    method SendSABM(mod128: bool)
      requires mod128 == cfg.mod128
      modifies this`sink
      ensures View() == SentSABM(old(View()))
    {
      var kind := FrameSABM;
      if mod128 {
        kind := FrameSABME;
      }
      SendU(kind, true, true);
    }

    method SendRROrRNR(poll: bool, asResponse: bool)
      modifies this`sink
      ensures View() == SentStatus(old(View()), poll, asResponse)
    {
      var kind := FrameRR;
      if v.cond.ownRxBusy {
        kind := FrameRNR;
      }
      var m := Modulo();
      Submit(Frame(cfg.local, cfg.peer, cfg.path, Control(kind, 0, v.vr % m, poll), 0, [], !asResponse, false));
    }

    method SendREJ(pf: bool)
      modifies this`sink
      ensures View() == SentREJ(old(View()), pf)
    {
      Submit(Frame(cfg.local, cfg.peer, cfg.path, Control(FrameREJ, 0, v.vr, pf), 0, [], false, false));
    }

    // ----- the sliding window -----

    method IsValidNR(nr: U8) returns (ok: bool)
      requires InStep(View())
      ensures ok == ValidNR(View(), nr)
    {
      var m := Modulo();
      var span := U8Dist(v.va, v.vs, m);
      var delta := U8Dist(v.va, nr, m);
      U8DistIsModular(v.va, v.vs, m);
      U8DistIsModular(v.va, nr, m);
      ok := delta <= span;
    }

    method FramesAcked(nr: U8)
      requires InStep(View()) && nr < M(View())
      modifies this, pending
      ensures View() == Acked(old(View()), nr)
    {
      ghost var slots := Slots(v.va, nr, M(View()));
      hist := hist.(acked := hist.acked + Collect(pending[..], slots));
      FreeAcked(nr);
      if v.vs == v.va {
        on := on.(t1 := false, t3 := true);
      } else {
        on := on.(t1 := true);
      }
    }

    // The loop of framesAcked.
    method FreeAcked(nr: U8)
      requires pending.Length == RING_SIZE && v.va < M(View()) && nr < M(View())
      modifies this`v, pending
      ensures v == old(v).(va := nr)
      ensures pending[..] == Cleared(old(pending[..]), Slots(old(v.va), nr, M(View())))
    {
      hide Slots, Cleared, Dist, Next;
      var m := Modulo();
      ghost var held := pending[..];
      ghost var goal := Cleared(held, Slots(v.va, nr, m));
      while v.va != nr
        invariant v == old(v).(va := v.va) && v.va < m
        invariant pending[..] == held && Cleared(held, Slots(v.va, nr, m)) == goal
        decreases Dist(v.va, nr, m)
      {
        FreeStep(held, v.va, nr, m);
        Closer(v.va, nr, m);
        pending[v.va] := None;
        held := held[v.va as int := None];
        v := v.(va := (v.va + 1) % m);
      }
      NoSlots(nr, m);
    }

    method RequeueFromVA()
      requires |View().pending| == RING_SIZE && v.va < RING_SIZE && Reaches(v.va, v.vs, M(View()))
      modifies this, pending
      ensures View() == Requeued(old(View()))
    {
      var buf := CollectPending();
      txBuf := buf + txBuf;
      v := v.(vs := v.va);
    }

    // The loop of requeueFromVA.
    method CollectPending() returns (buf: seq<U8>)
      requires |View().pending| == RING_SIZE && v.va < RING_SIZE && Reaches(v.va, v.vs, M(View()))
      modifies pending
      ensures buf == Collect(old(pending[..]), Slots(v.va, v.vs, M(View())))
      ensures pending[..] == Cleared(old(pending[..]), Slots(v.va, v.vs, M(View())))
    {
      var m := Modulo();
      hide Slots, Cleared, Collect;
      ghost var goal := Cleared(pending[..], Slots(v.va, v.vs, m));
      ghost var want := Collect(pending[..], Slots(v.va, v.vs, m));
      buf := [];
      var i: int := v.va;
      while i != v.vs
        invariant 0 <= i < RING_SIZE && Reaches(i, v.vs, m)
        invariant Cleared(pending[..], Slots(i, v.vs, m)) == goal
        invariant buf + Collect(pending[..], Slots(i, v.vs, m)) == want
        decreases if i == v.vs then 0 else if i < m then Dist(i, v.vs, m) else m + 1
      {
        ghost var before := pending[..];
        RequeueStep(before, i, v.vs, m, buf);
        if pending[i].Some? {
          buf := buf + pending[i].value.info;
          pending[i] := None;
        }
        assert pending[..] == before[i := None];
        i := (i + 1) % m;
      }
      RequeueDone(pending[..], i, m);
    }

    method Kick()
      requires |View().pending| == RING_SIZE && v.vs < M(View()) && v.va < M(View()) && cfg.paclen >= 1
      modifies this, pending
      ensures View() == Kicked(old(View()))
    {
      hide Drained, SentOne, Submitted;
      if state != Connected && state != TimerRecovery {
        return;
      }
      if v.cond.peerRxBusy {
        return;
      }
      var sent := Drain();
      if sent {
        if v.cond.ackPending {
          v := v.(cond := v.cond.(ackPending := false));
          on := on.(t2 := false);
        }
      }
      if v.vs != v.va {
        if !on.t1 {
          on := on.(t1 := true);
        }
        on := on.(t3 := false);
      }
    }

    // The loop of kick.
    method Drain() returns (sent: bool)
      requires |View().pending| == RING_SIZE && v.vs < M(View()) && v.va < M(View()) && cfg.paclen >= 1
      modifies this, pending
      ensures View() == Drained(old(View())) && sent == CanSend(old(View()))
    {
      var m := Modulo();
      sent := false;
      ghost var start := View();
      while |txBuf| > 0
        invariant cfg == start.cfg && v == start.v.(vs := v.vs) && v.vs < m
        invariant |View().pending| == RING_SIZE
        invariant Drained(View()) == Drained(start)
        invariant if sent then CanSend(start) else View() == start
        decreases |txBuf|
      {
        U8DistIsModular(v.va, v.vs, m);
        var outstanding := U8Dist(v.va, v.vs, m);
        if outstanding >= cfg.window {
          return;
        }
        SendOne(m);
        sent := true;
      }
    }

    // The body of Kick's loop.
    method SendOne(m: int)
      requires |View().pending| == RING_SIZE && v.vs < M(View()) && cfg.paclen >= 1 && m == M(View())
      modifies this, pending
      ensures View() == LapbSpec.SentOne(old(View()))
    {
      hide Submitted;
      var end := cfg.paclen;
      if end > |txBuf| {
        end := |txBuf|;
      }
      var payload := txBuf[..end];
      txBuf := txBuf[end..];
      var ns := v.vs;
      var f := Frame(cfg.local, cfg.peer, cfg.path, Control(FrameI, ns, v.vr, false), PID_NO_LAYER3, payload, true, false);
      pending[ns] := Some(f);
      Submit(f);
      v := v.(vs := (v.vs + 1) % m);
    }

    method DropQueues()
      modifies this, pending
      ensures View() == NoQueues(old(View()))
    {
      for i := 0 to pending.Length
        invariant unchanged(this)
        invariant forall j | 0 <= j < i :: pending[j] == None
      {
        pending[i] := None;
      }
      txBuf := [];
      assert pending[..] == seq(pending.Length, i => None);
    }

    method StopAllTimers()
      modifies this`on
      ensures View() == NoTimers(old(View()))
    {
      on := on.(t1 := false, t2 := false, t3 := false, hb := false);
    }

    // ----- shared steps -----

    method EstablishDataLink()
      modifies this
      ensures View() == Reestablished(old(View()))
    {
      v := v.(cond := NO_COND, n2Count := 0);
      on := on.(t1 := false, t2 := false, t3 := false);
      SendSABM(cfg.mod128);
      on := on.(t1 := true);
      SetState(AwaitingConnection);
    }

    method TransmitEnquiry()
      modifies this
      ensures View() == Enquired(old(View()))
    {
      SendRROrRNR(true, false);
      v := v.(cond := v.cond.(ackPending := false));
      on := on.(t2 := false);
    }

    method Rebind(mod128: bool, pf: bool)
      requires RingOk(View()) && v.va < RING_SIZE && Reaches(v.va, v.vs, Modulus(mod128))
      modifies this, pending
      ensures View() == Rebound(old(View()), mod128, pf)
      ensures v == ZERO_VARS && |View().pending| == RING_SIZE && cfg.paclen == old(cfg.paclen)
    {
      hide Slots, Cleared, Collect, SentU;
      SetMod128(mod128);
      if cfg.mod128 {
        cfg := cfg.(window := WINDOW_MOD128);
      } else {
        cfg := cfg.(window := WINDOW_MOD8);
      }
      RequeueFromVA();
      v := v.(vs := 0, vr := 0, va := 0);
      v := v.(n2Count := 0);
      v := v.(cond := NO_COND);
      on := on.(t1 := false, t2 := false, t3 := true);
      SendU(FrameUA, pf, false);
    }

    // What DISC, DM and an exhausted retry budget have in common.
    method TearDown(code: ErrCode)
      modifies this, pending
      ensures View() == TornDown(old(View()), code)
    {
      DropQueues();
      StopAllTimers();
      Emit(Error(code));
      SetState(Disconnected);
    }

    method BeginRelease()
      modifies this, pending
      ensures View() == Releasing(old(View()))
    {
      DropQueues();
      v := v.(n2Count := 0);
      SendU(FrameDISC, true, true);
      on := on.(t2 := false, t3 := false);
      on := on.(t1 := true);
      SetState(AwaitingRelease);
    }

    method FlushAck()
      modifies this
      ensures View() == FlushedAck(old(View()))
    {
      if v.cond.ackPending {
        v := v.(cond := v.cond.(ackPending := false));
        SendRROrRNR(false, true);
      }
    }

    method AcceptInfo(f: Frame)
      modifies this
      ensures View() == Accepted(old(View()), f)
    {
      hide SentStatus;
      var m := Modulo();
      v := v.(vr := (v.vr + 1) % m);
      v := v.(cond := v.cond.(reject := false));
      if |f.info| > 0 {
        Emit(DataRX(f.info));
      }
      if f.control.pf {
        v := v.(cond := v.cond.(ackPending := false));
        SendRROrRNR(true, true);
        on := on.(t2 := false);
      } else if !v.cond.ackPending {
        v := v.(cond := v.cond.(ackPending := true));
        on := on.(t2 := true);
      }
    }

    method RefuseInfo(f: Frame)
      modifies this
      ensures View() == Refused(old(View()), f)
    {
      if !v.cond.reject {
        v := v.(cond := v.cond.(reject := true));
        v := v.(cond := v.cond.(ackPending := false));
        on := on.(t2 := false);
        SendREJ(f.control.pf);
      } else if f.control.pf {
        SendRROrRNR(true, true);
      }
    }

    method ReceiveInfo(f: Frame)
      modifies this
      ensures View() == LapbSpec.Received(old(View()), f)
    {
      if v.cond.ownRxBusy {
        if f.control.pf {
          SendRROrRNR(true, true);
        }
      } else if f.control.ns == v.vr {
        AcceptInfo(f);
      } else {
        RefuseInfo(f);
      }
    }

    method SetPeerBusy(busy: bool)
      modifies this`v
      ensures View() == WithPeerBusy(old(View()), busy)
    {
      v := v.(cond := v.cond.(peerRxBusy := busy));
    }

    method AnswerPoll(f: Frame)
      modifies this
      ensures View() == AnsweredPoll(old(View()), f)
    {
      if f.isCommand && f.control.pf {
        SendRROrRNR(true, true);
      }
    }

    // ----- DISCONNECTED -----

    method OnDisconnected(ev: Event) returns (cont: bool)
      modifies this
      ensures Outcome(View(), cont) == LapbSpec.OnDisconnected(old(View()), ev)
    {
      hide SentSABM, SentU;
      match ev {
        case Connect =>
          v := ZERO_VARS;
          SendSABM(cfg.mod128);
          on := on.(t1 := true);
          on := on.(hb := true);
          SetState(AwaitingConnection);
          return true;
        case FrameRX(frame) =>
          if frame.Some? {
            var f := frame.value;
            if f.control.kind.FrameSABM? || f.control.kind.FrameSABME? {
              if f.isCommand {
                SendU(FrameDM, f.control.pf, false);
              }
            }
          }
          return true;
        case Shutdown => return false;
        case _ => return true;
      }
    }

    // ----- AWAITING_CONNECTION -----

    method AcceptModulus(mod128: bool)
      modifies this`cfg
      ensures View() == WithModulus(old(View()), mod128)
    {
      SetMod128(mod128);
      if mod128 {
        cfg := cfg.(window := WINDOW_MOD128);
      } else {
        cfg := cfg.(window := WINDOW_MOD8);
      }
    }

    method AwaitingConnectionRX(f: Frame)
      modifies this
      ensures View() == AwaitingConnectionFrame(old(View()), f)
    {
      match f.control.kind {
        case FrameSABM =>
          if f.isCommand {
            AcceptModulus(false);
            SendU(FrameUA, f.control.pf, false);
          }
        case FrameSABME =>
          if f.isCommand {
            AcceptModulus(true);
            SendU(FrameUA, f.control.pf, false);
          }
        case FrameDISC =>
          if f.isCommand {
            SendU(FrameDM, f.control.pf, false);
          }
        case FrameUA =>
          if f.control.pf {
            on := on.(t1 := false);
            v := v.(n2Count := 0);
            v := v.(vs := 0, vr := 0, va := 0);
            on := on.(t3 := true);
            SetState(Connected);
          }
        case FrameDM =>
          if f.control.pf {
            if cfg.mod128 {
              AcceptModulus(false);
            } else {
              on := on.(t1 := false);
              Emit(Error(PeerRejected));
              SetState(Disconnected);
            }
          }
        case _ =>
      }
    }

    method AwaitingConnectionT1()
      modifies this
      ensures Outcome(View(), true) == LapbSpec.OnAwaitingConnection(old(View()), T1Expiry)
    {
      if v.n2Count >= cfg.n2 {
        if cfg.mod128 {
          AcceptModulus(false);
          v := v.(n2Count := 0);
          SendSABM(false);
          on := on.(t1 := true);
          return;
        }
        Emit(Error(LinkEstablishTimeout));
        SetState(Disconnected);
        return;
      }
      v := v.(n2Count := v.n2Count + 1);
      SendSABM(cfg.mod128);
      on := on.(t1 := true);
    }

    method OnAwaitingConnection(ev: Event) returns (cont: bool)
      modifies this
      ensures Outcome(View(), cont) == LapbSpec.OnAwaitingConnection(old(View()), ev)
    {
      match ev {
        case FrameRX(frame) =>
          if frame.Some? {
            AwaitingConnectionRX(frame.value);
          }
          return true;
        case T1Expiry =>
          AwaitingConnectionT1();
          return true;
        case Disconnect =>
          CancelSetup();
          return true;
        case Abort =>
          CancelSetup();
          return true;
        case Shutdown => return false;
        case _ => return true;
      }
    }

    method CancelSetup()
      modifies this
      ensures Outcome(View(), true) == LapbSpec.OnAwaitingConnection(old(View()), Disconnect)
    {
      SendU(FrameDISC, true, true);
      v := v.(n2Count := 0);
      on := on.(t1 := true);
      SetState(AwaitingRelease);
    }

    // ----- CONNECTED -----

    method ConnectedStatusRX(f: Frame)
      requires InStep(View()) && AckStops(View(), f.control.nr)
      modifies this, pending
      ensures View() == ConnectedStatus(old(View()), f)
    {
      hide Acked, Kicked, Reestablished, SentStatus;
      var ok := IsValidNR(f.control.nr);
      if !ok {
        EstablishDataLink();
        return;
      }
      AnswerPoll(f);
      FramesAcked(f.control.nr);
      Kick();
    }

    method ConnectedRejectRX(f: Frame)
      requires InStep(View()) && AckStops(View(), f.control.nr)
      modifies this, pending
      ensures View() == ConnectedReject(old(View()), f)
    {
      hide Acked, Kicked, Reestablished, Requeued, SentStatus;
      var ok := IsValidNR(f.control.nr);
      if !ok {
        EstablishDataLink();
        return;
      }
      AnswerPoll(f);
      FramesAcked(f.control.nr);
      RequeueFromVA();
      on := on.(t1 := false);
      on := on.(t3 := true);
      Kick();
    }

    // The I-frame branch, the same in CONNECTED and TIMER_RECOVERY.
    method InformationRX(f: Frame)
      requires InStep(View()) && AckStops(View(), f.control.nr)
      modifies this, pending
      ensures View() == Information(old(View()), f)
    {
      hide Acked, Kicked, Reestablished, SentStatus, SentREJ;
      var ok := IsValidNR(f.control.nr);
      if !ok {
        EstablishDataLink();
        return;
      }
      FramesAcked(f.control.nr);
      ReceiveInfo(f);
      Kick();
    }

    method PeerDISCRX(f: Frame)
      requires InStep(View())
      modifies this, pending
      ensures View() == PeerDISC(old(View()), f)
    {
      if f.isCommand {
        SendU(FrameUA, f.control.pf, false);
        TearDown(PeerDisconnected);
      } else {
        Kick();
      }
    }

    method ConnectedRX(f: Frame)
      requires InStep(View()) && Admissible(View(), FrameRX(Some(f)))
      modifies this, pending
      ensures View() == ConnectedFrame(old(View()), f)
    {
      hide Kicked, Rebound, PeerDISC, TornDown, Information, Reestablished, ConnectedStatus, ConnectedReject;
      match f.control.kind {
        case FrameSABM =>
          if f.isCommand {
            Rebind(false, f.control.pf);
          }
          Kick();
        case FrameSABME =>
          if f.isCommand {
            Rebind(true, f.control.pf);
          }
          Kick();
        case FrameDISC => PeerDISCRX(f);
        case FrameDM => TearDown(PeerReset);
        case FrameRR =>
          SetPeerBusy(false);
          ConnectedStatusRX(f);
        case FrameRNR =>
          SetPeerBusy(true);
          ConnectedStatusRX(f);
        case FrameREJ =>
          SetPeerBusy(false);
          ConnectedRejectRX(f);
        case FrameI => InformationRX(f);
        case _ => EstablishDataLink();
      }
    }

    method TakeData(data: seq<U8>)
      modifies this
      ensures View() == Took(old(View()), data)
    {
      txBuf := txBuf + data;
      hist := hist.(taken := hist.taken + data);
    }

    method OnConnected(ev: Event) returns (cont: bool)
      requires InStep(View()) && Admissible(View(), ev)
      modifies this, pending
      ensures Outcome(View(), cont) == LapbSpec.OnConnected(old(View()), ev)
    {
      hide ConnectedFrame, Kicked, SentStatus, Releasing, Admissible;
      match ev {
        case FrameRX(frame) =>
          if frame.Some? {
            ConnectedRX(frame.value);
          } else {
            Kick();
          }
          return true;
        case DataTX(data) =>
          TakeData(data);
          Kick();
          return true;
        case T1Expiry =>
          v := v.(n2Count := 1);
          TransmitEnquiry();
          on := on.(t1 := true);
          SetState(TimerRecovery);
          return true;
        case T3Expiry =>
          v := v.(n2Count := 0);
          TransmitEnquiry();
          on := on.(t1 := true);
          SetState(TimerRecovery);
          return true;
        case T2Expiry =>
          FlushAck();
          Kick();
          return true;
        case Disconnect =>
          BeginRelease();
          return true;
        case Abort =>
          BeginRelease();
          return true;
        case Shutdown => return false;
        case _ =>
          Kick();
          return true;
      }
    }

    // ----- TIMER_RECOVERY -----

    method Recover()
      modifies this
      ensures View() == Recovered(old(View()))
    {
      if v.vs == v.va {
        on := on.(t3 := true);
        SetState(Connected);
      }
    }

    method RecoveryStatusRX(f: Frame)
      requires InStep(View()) && AckStops(View(), f.control.nr)
      modifies this, pending
      ensures View() == RecoveryStatus(old(View()), f)
    {
      hide Cleared, Collect, Slots, Kicked, Reestablished, SentStatus;
      var ok := IsValidNR(f.control.nr);
      if !ok {
        EstablishDataLink();
        return;
      }
      if !f.isCommand && f.control.pf {
        on := on.(t1 := false);
        v := v.(n2Count := 0);
        FramesAcked(f.control.nr);
        Recover();
      } else {
        AnswerPoll(f);
        FramesAcked(f.control.nr);
      }
      Kick();
    }

    method RecoveryRejectRX(f: Frame)
      requires InStep(View()) && AckStops(View(), f.control.nr)
      modifies this, pending
      ensures View() == RecoveryReject(old(View()), f)
    {
      hide Cleared, Collect, Slots, Kicked, Reestablished, Requeued, SentStatus;
      var ok := IsValidNR(f.control.nr);
      if !ok {
        EstablishDataLink();
        return;
      }
      if !f.isCommand && f.control.pf {
        on := on.(t1 := false);
        v := v.(n2Count := 0);
        FramesAcked(f.control.nr);
        RequeueFromVA();
        Recover();
      } else {
        AnswerPoll(f);
        FramesAcked(f.control.nr);
        RequeueFromVA();
      }
      Kick();
    }

    method RecoveryRX(f: Frame)
      requires InStep(View()) && Admissible(View(), FrameRX(Some(f)))
      modifies this, pending
      ensures View() == RecoveryFrame(old(View()), f)
    {
      hide Kicked, Rebound, PeerDISC, TornDown, Information, Reestablished, RecoveryStatus, RecoveryReject;
      match f.control.kind {
        case FrameSABM =>
          if f.isCommand {
            Rebind(false, f.control.pf);
            SetState(Connected);
          }
          Kick();
        case FrameSABME =>
          if f.isCommand {
            Rebind(true, f.control.pf);
            SetState(Connected);
          }
          Kick();
        case FrameDISC => PeerDISCRX(f);
        case FrameDM => TearDown(PeerReset);
        case FrameRR =>
          SetPeerBusy(false);
          RecoveryStatusRX(f);
        case FrameRNR =>
          SetPeerBusy(true);
          RecoveryStatusRX(f);
        case FrameREJ =>
          SetPeerBusy(false);
          RecoveryRejectRX(f);
        case FrameI => InformationRX(f);
        case _ => EstablishDataLink();
      }
    }

    method RecoveryT1()
      requires InStep(View())
      modifies this, pending
      ensures View() == EnquiredAgain(old(View()))
    {
      hide Kicked, TornDown, SentU;
      if v.n2Count >= cfg.n2 {
        SendU(FrameDM, true, false);
        TearDown(AckTimeout);
        return;
      }
      v := v.(n2Count := v.n2Count + 1);
      TransmitEnquiry();
      on := on.(t1 := true);
      Kick();
    }

    method OnTimerRecovery(ev: Event) returns (cont: bool)
      requires InStep(View()) && Admissible(View(), ev)
      modifies this, pending
      ensures Outcome(View(), cont) == LapbSpec.OnTimerRecovery(old(View()), ev)
    {
      hide RecoveryFrame, Kicked, SentStatus, EnquiredAgain, Releasing, Admissible;
      match ev {
        case FrameRX(frame) =>
          if frame.Some? {
            RecoveryRX(frame.value);
          } else {
            Kick();
          }
          return true;
        case DataTX(data) =>
          TakeData(data);
          Kick();
          return true;
        case T1Expiry =>
          RecoveryT1();
          return true;
        case T2Expiry =>
          FlushAck();
          Kick();
          return true;
        case Disconnect =>
          BeginRelease();
          return true;
        case Abort =>
          BeginRelease();
          return true;
        case Shutdown => return false;
        case _ =>
          Kick();
          return true;
      }
    }

    // ----- AWAITING_RELEASE -----

    method Release()
      modifies this
      ensures View() == Released(old(View()))
    {
      on := on.(t1 := false);
      SetState(Disconnected);
    }

    method AwaitingReleaseRX(f: Frame)
      modifies this
      ensures View() == AwaitingReleaseFrame(old(View()), f)
    {
      var kind := f.control.kind;
      if kind.FrameSABM? || kind.FrameSABME? {
        if f.isCommand {
          SendU(FrameDM, f.control.pf, false);
        }
      } else if kind.FrameDISC? {
        if f.isCommand {
          SendU(FrameUA, f.control.pf, false);
          Release();
        }
      } else if kind.FrameUA? || kind.FrameDM? {
        if f.control.pf {
          Release();
        }
      } else if kind.FrameI? || kind.FrameRR? || kind.FrameRNR? || kind.FrameREJ? {
        if f.isCommand && f.control.pf {
          SendU(FrameDM, true, false);
        }
      }
    }

    method OnAwaitingRelease(ev: Event) returns (cont: bool)
      modifies this
      ensures Outcome(View(), cont) == LapbSpec.OnAwaitingRelease(old(View()), ev)
    {
      hide AwaitingReleaseFrame, SentU;
      match ev {
        case FrameRX(frame) =>
          if frame.Some? {
            AwaitingReleaseRX(frame.value);
          }
          return true;
        case T1Expiry =>
          if v.n2Count >= cfg.n2 {
            SendU(FrameDISC, true, true);
            Emit(Error(DiscTimeout));
            SetState(Disconnected);
            return true;
          }
          v := v.(n2Count := v.n2Count + 1);
          SendU(FrameDISC, true, true);
          on := on.(t1 := true);
          return true;
        case Shutdown => return false;
        case _ => return true;
      }
    }

    // ----- ticks and dispatch -----

    method DoHeartbeat()
      modifies this
      ensures View() == HeartbeatTick(old(View()))
    {
      if state != Connected && state != TimerRecovery {
        return;
      }
      if v.cond.ownRxBusy {
        v := v.(cond := v.cond.(ownRxBusy := false));
        v := v.(cond := v.cond.(ackPending := false));
        SendRROrRNR(false, true);
      }
      on := on.(hb := true);
    }

    method DoStatsTick()
      modifies this
      ensures View() == StatsTicked(old(View()))
    {
      if state != Connected {
        return;
      }
      Emit(LinkStats);
      on := on.(stats := true);
    }

    method SyncOutstanding()
      requires cfg.paclen >= 1
      modifies this`outstanding
      ensures View() == Synced(old(View()))
    {
      var m := Modulo();
      U8DistIsModular(v.va, v.vs, m);
      var n := U8Dist(v.va, v.vs, m);
      var queued := |txBuf|;
      if queued > 0 {
        n := n + (queued + cfg.paclen - 1) / cfg.paclen;
      }
      outstanding := n;
    }

    method Dispatch(ev: Event) returns (cont: bool)
      requires RingOk(View()) && Admissible(View(), ev)
      modifies this, pending
      ensures Outcome(View(), cont) == Dispatched(old(View()), ev)
    {
      match state {
        case Disconnected => cont := OnDisconnected(ev);
        case AwaitingConnection => cont := OnAwaitingConnection(ev);
        case Connected => cont := OnConnected(ev);
        case TimerRecovery => cont := OnTimerRecovery(ev);
        case AwaitingRelease => cont := OnAwaitingRelease(ev);
      }
    }

    // Every exit refreshes the count other goroutines read.
    method Handle(ev: Event) returns (cont: bool)
      requires Inv(View()) && !terminated && Admissible(View(), ev)
      modifies this, pending
      ensures Outcome(View(), cont) == Stepped(old(View()), ev)
      ensures Inv(View()) && (cont ==> !terminated)
    {
      ghost var s := View();
      ghost var o := Stepped(s, ev);
      if ev.Heartbeat? {
        DoHeartbeat();
        cont := true;
      } else if ev.StatsTick? {
        DoStatsTick();
        cont := true;
      } else {
        cont := Dispatch(ev);
        if terminated {
          cont := false;
        }
      }
      assert Outcome(View(), cont) == Handled(s, ev);
      SyncOutstanding();
    }

    method Cleanup()
      modifies this
      ensures View() == CleanedUp(old(View()))
    {
      on := Timers(false, false, false, false, false);
      if !terminated {
        terminated := true;
        Emit(StateChange(Disconnected));
      }
    }

    // The run loop over the events it will draw, timer expiries included; that they
    // run out stands for cancellation. No event is taken once the session has ended.
    method Run(events: seq<Event>) returns (taken: nat)
      requires Inv(View()) && !terminated && RunAdmissible(View(), events)
      modifies this, pending
      ensures View() == CleanedUp(RanThrough(old(View()), events))
      ensures taken <= |events|
    {
      hide Admissible, Handled, Synced, Inv;
      taken := 0;
      var go := true;
      assert events[0..] == events;
      while go && taken < |events|
        invariant taken <= |events| && Inv(View())
        invariant go ==> !terminated && RunAdmissible(View(), events[taken..])
        invariant RanThrough(old(View()), events) == if go then RanThrough(View(), events[taken..]) else View()
        decreases |events| - taken, go
      {
        assert events[taken..][0] == events[taken] && events[taken..][1..] == events[taken + 1..];
        go := Handle(events[taken]);
        taken := taken + 1;
      }
      Cleanup();
    }
  }

  lemma {:induction false} CollectUntouched(pending: seq<Option<Frame>>, i: int, slots: seq<int>)
    requires 0 <= i < |pending|
    requires forall k | 0 <= k < |slots| :: 0 <= slots[k] < |pending| && slots[k] != i
    ensures Collect(pending[i := None], slots) == Collect(pending, slots)
    decreases |slots|
  {
    if slots != [] {
      CollectUntouched(pending, i, slots[1..]);
    }
  }

  lemma SlotsFresh(i: int, to: int, m: int)
    requires 0 <= i && m > 0 && Reaches(i, to, m) && i != to
    ensures forall k | 0 <= k < |Slots(Next(i, m), to, m)| :: Slots(Next(i, m), to, m)[k] != i
  {
    SlotsShape(Next(i, m), to, m);
  }

  lemma Closer(i: int, to: int, m: int)
    requires 0 <= i < m && 0 <= to < m && i != to && IsModulus(m)
    ensures Next(i, m) == (i + 1) % m < m && 0 <= Dist(Next(i, m), to, m) < Dist(i, to, m)
  {
  }

  lemma NoSlots(i: int, m: int)
    requires 0 <= i && m > 0
    ensures Slots(i, i, m) == [] && forall pending :: Cleared(pending, []) == pending
  {
  }

  lemma FreeStep(pending: seq<Option<Frame>>, i: int, to: int, m: int)
    requires |pending| == RING_SIZE && 0 <= i < RING_SIZE && IsModulus(m) && Reaches(i, to, m) && i != to
    ensures Cleared(pending, Slots(i, to, m)) == Cleared(pending[i := None], Slots(Next(i, m), to, m))
  {
    assert Slots(i, to, m)[1..] == Slots(Next(i, m), to, m);
  }

  // One round of the requeue loop; what it has still to visit does not include the
  // slot it is at.
  lemma RequeueStep(pending: seq<Option<Frame>>, i: int, to: int, m: int, buf: seq<U8>)
    requires |pending| == RING_SIZE && 0 <= i < RING_SIZE && IsModulus(m) && Reaches(i, to, m) && i != to
    ensures var rest := Slots(Next(i, m), to, m);
            && Cleared(pending, Slots(i, to, m)) == Cleared(pending[i := None], rest)
            && buf + Collect(pending, Slots(i, to, m))
               == buf + (if pending[i].Some? then pending[i].value.info else []) + Collect(pending[i := None], rest)
  {
    var rest := Slots(Next(i, m), to, m);
    assert Slots(i, to, m) == [i] + rest;
    hide Slots;
    SlotsFresh(i, to, m);
    CollectUntouched(pending, i, rest);
    assert ([i] + rest)[1..] == rest;
    assert Collect(pending, Slots(i, to, m))
        == (if pending[i].Some? then pending[i].value.info else []) + Collect(pending[i := None], rest);
  }

  lemma RequeueDone(pending: seq<Option<Frame>>, i: int, m: int)
    requires 0 <= i && m > 0
    ensures Slots(i, i, m) == [] && Cleared(pending, []) == pending && Collect(pending, []) == []
  {
  }
}
