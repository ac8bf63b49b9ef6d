// The connected-mode session as a transition function on values: what one event does
// to a session's whole state. Session.dfy holds the class whose methods compute it.
// pkg/ax25conn/{state,events,session,heartbeat,transitions_*}.go

module LapbSpec {
  import opened Common
  import opened Control
  import opened Frames
  import opened Ring
  import A = Address

  datatype State = Disconnected | AwaitingConnection | Connected | TimerRecovery | AwaitingRelease

  datatype ErrCode = PeerDisconnected | PeerReset | PeerRejected | LinkEstablishTimeout | DiscTimeout | AckTimeout

  datatype OutEvent = StateChange(state: State) | DataRX(data: seq<U8>) | LinkStats | Error(code: ErrCode)

  datatype Event =
    | FrameRX(frame: Option<Frame>) | DataTX(data: seq<U8>)
    | Connect | Disconnect | Abort
    | T1Expiry | T2Expiry | T3Expiry | Heartbeat | StatsTick | Shutdown

  datatype Config = Config(local: A.Address, peer: A.Address, path: seq<A.Address>,
                           mod128: bool, window: int, n2: int, paclen: int)

  // The condition byte, bit by bit.
  datatype Cond = Cond(ackPending: bool, reject: bool, peerRxBusy: bool, ownRxBusy: bool)

  const NO_COND := Cond(false, false, false, false)

  datatype Vars = Vars(vs: U8, vr: U8, va: U8, n2Count: int, cond: Cond)

  const ZERO_VARS := Vars(0, 0, 0, 0, NO_COND)

  // Which timers are running.
  datatype Timers = Timers(t1: bool, t2: bool, t3: bool, hb: bool, stats: bool)

  // History since the session was made: operator bytes accepted into the transmit
  // queue, and bytes of I-frames the peer has acknowledged. Nothing reads it.
  datatype Hist = Hist(taken: seq<U8>, acked: seq<U8>)

  // tx lists the frames handed to the transmit sink and obs the events given to the
  // observer, oldest first.
  datatype St = St(cfg: Config, state: State, v: Vars, on: Timers, pending: seq<Option<Frame>>, txBuf: seq<U8>,
                   terminated: bool, outstanding: int, tx: seq<Frame>, obs: seq<OutEvent>, hist: Hist)

  datatype Outcome = Outcome(st: St, cont: bool)

  const RING_SIZE := 128
  const WINDOW_MOD8 := 2
  const WINDOW_MOD128 := 32
  const PID_NO_LAYER3: U8 := 0xF0

  function M(s: St): int {
    Modulus(s.cfg.mod128)
  }

  predicate Live(s: St) {
    s.state == Connected || s.state == TimerRecovery
  }

  // What the code below indexes and divides by.
  predicate RingOk(s: St) {
    |s.pending| == RING_SIZE && s.cfg.paclen >= 1 && (Live(s) ==> s.v.vs < M(s) && s.v.vr < M(s) && s.v.va < M(s))
  }

  predicate InStep(s: St) {
    Live(s) && RingOk(s)
  }

  // ----- frames out -----

  function Made(c: Config, control: Control, pid: U8, info: seq<U8>, isCommand: bool): Frame {
    Frame(c.local, c.peer, c.path, control, pid, info, isCommand, false)
  }

  // A frame whose control field does not encode is logged and dropped.
  function Submitted(s: St, f: Frame): (r: St)
    ensures r == s.(tx := r.tx)
  {
    if EncodeControl(f.control, f.mod128).Ok? then s.(tx := s.tx + [f]) else s
  }

  function SentU(s: St, kind: FrameKind, pf: bool, isCommand: bool): (r: St)
    ensures r == s.(tx := r.tx)
  {
    Submitted(s, Made(s.cfg, Control(kind, 0, 0, pf), 0, [], isCommand))
  }

  function SentSABM(s: St): (r: St)
    ensures r == s.(tx := r.tx)
  {
    SentU(s, if s.cfg.mod128 then FrameSABME else FrameSABM, true, true)
  }

  function StatusFrame(s: St, poll: bool, asResponse: bool): Frame {
    Made(s.cfg, Control(if s.v.cond.ownRxBusy then FrameRNR else FrameRR, 0, s.v.vr % M(s), poll), 0, [], !asResponse)
  }

  function SentStatus(s: St, poll: bool, asResponse: bool): (r: St)
    ensures r == s.(tx := r.tx)
  {
    Submitted(s, StatusFrame(s, poll, asResponse))
  }

  function SentREJ(s: St, pf: bool): (r: St)
    ensures r == s.(tx := r.tx)
  {
    Submitted(s, Made(s.cfg, Control(FrameREJ, 0, s.v.vr, pf), 0, [], false))
  }

  function DataFrame(s: St, payload: seq<U8>): Frame {
    Made(s.cfg, Control(FrameI, s.v.vs, s.v.vr, false), PID_NO_LAYER3, payload, true)
  }

  // ----- state changes -----

  function WithState(s: St, ns: State): St {
    if ns == s.state then s
    else s.(state := ns,
            on := s.on.(stats := if ns == Connected then true else if s.state == Connected then false else s.on.stats),
            obs := s.obs + [StateChange(ns), LinkStats],
            terminated := s.terminated || ns == Disconnected)
  }

  function Emitted(s: St, e: OutEvent): St {
    s.(obs := s.obs + [e])
  }

  function NoTimers(s: St): St {
    s.(on := s.on.(t1 := false, t2 := false, t3 := false, hb := false))
  }

  function NoQueues(s: St): St {
    s.(pending := seq(|s.pending|, i => None), txBuf := [])
  }

  // ----- the ring -----

  function Cleared(pending: seq<Option<Frame>>, slots: seq<int>): (r: seq<Option<Frame>>)
    requires forall k | 0 <= k < |slots| :: 0 <= slots[k] < |pending|
    ensures |r| == |pending|
    decreases |slots|
  {
    if slots == [] then pending else Cleared(pending[slots[0] := None], slots[1..])
  }

  // The information fields of the frames held in the slots, in order.
  function Collect(pending: seq<Option<Frame>>, slots: seq<int>): seq<U8>
    requires forall k | 0 <= k < |slots| :: 0 <= slots[k] < |pending|
    decreases |slots|
  {
    if slots == [] then []
    else (if pending[slots[0]].Some? then pending[slots[0]].value.info else []) + Collect(pending, slots[1..])
  }

  // Whether N(R) lies in [V(A), V(S)], a number the modulus does not have counting as
  // what it leaves.
  predicate ValidNR(s: St, nr: U8) {
    Dist(s.v.va, if nr < M(s) then nr else nr % M(s), M(s)) <= Dist(s.v.va, s.v.vs, M(s))
  }

  // The loop that frees slots up to N(R) is not started, or stops.
  predicate AckStops(s: St, nr: U8) {
    ValidNR(s, nr) ==> nr < M(s)
  }

  function Acked(s: St, nr: U8): St
    requires InStep(s) && nr < M(s)
    ensures InStep(Acked(s, nr))
  {
    var slots := Slots(s.v.va, nr, M(s));
    s.(v := s.v.(va := nr),
       pending := Cleared(s.pending, slots),
       on := if s.v.vs == nr then s.on.(t1 := false, t3 := true) else s.on.(t1 := true),
       hist := s.hist.(acked := s.hist.acked + Collect(s.pending, slots)))
  }

  function Requeued(s: St): St
    requires |s.pending| == RING_SIZE && s.v.va < RING_SIZE && Reaches(s.v.va, s.v.vs, M(s))
    ensures InStep(s) ==> InStep(Requeued(s))
  {
    var slots := Slots(s.v.va, s.v.vs, M(s));
    s.(v := s.v.(vs := s.v.va),
       pending := Cleared(s.pending, slots),
       txBuf := Collect(s.pending, slots) + s.txBuf)
  }

  // ----- kick -----

  predicate CanSend(s: St) {
    s.txBuf != [] && Dist(s.v.va, s.v.vs, M(s)) < s.cfg.window
  }

  function ChunkLen(s: St): int {
    if s.cfg.paclen > |s.txBuf| then |s.txBuf| else s.cfg.paclen
  }

  function SentOne(s: St): St
    requires |s.pending| == RING_SIZE && s.v.vs < M(s) && s.cfg.paclen >= 1
  {
    var n := ChunkLen(s);
    var f := DataFrame(s, s.txBuf[..n]);
    Submitted(s.(txBuf := s.txBuf[n..], pending := s.pending[s.v.vs := Some(f)]), f)
      .(v := s.v.(vs := Next(s.v.vs, M(s))))
  }

  function Drained(s: St): (r: St)
    requires |s.pending| == RING_SIZE && s.v.vs < M(s) && s.cfg.paclen >= 1
    ensures |r.txBuf| <= |s.txBuf|
    decreases |s.txBuf|
  {
    if CanSend(s) then Drained(SentOne(s)) else s
  }

  // Once something went out the acknowledgement it carries settles a pending one, and
  // whatever is outstanding runs under T1.
  function Settled(s: St, sent: bool): St {
    var s1 := if sent && s.v.cond.ackPending
              then s.(v := s.v.(cond := s.v.cond.(ackPending := false)), on := s.on.(t2 := false)) else s;
    if s1.v.vs != s1.v.va then s1.(on := s1.on.(t1 := true, t3 := false)) else s1
  }

  function Kicked(s: St): St
    requires |s.pending| == RING_SIZE && s.v.vs < M(s) && s.cfg.paclen >= 1
  {
    if !Live(s) || s.v.cond.peerRxBusy then s else Settled(Drained(s), CanSend(s))
  }

  // ----- shared steps -----

  function WithModulus(s: St, mod128: bool): St {
    s.(cfg := s.cfg.(mod128 := mod128, window := if mod128 then WINDOW_MOD128 else WINDOW_MOD8))
  }

  function Rebound(s: St, mod128: bool, pf: bool): St
    requires |s.pending| == RING_SIZE && s.v.va < RING_SIZE && Reaches(s.v.va, s.v.vs, Modulus(mod128))
  {
    var s1 := Requeued(WithModulus(s, mod128));
    SentU(s1.(v := ZERO_VARS, on := s1.on.(t1 := false, t2 := false, t3 := true)), FrameUA, pf, false)
  }

  function Reestablished(s: St): St {
    var s1 := s.(v := s.v.(cond := NO_COND, n2Count := 0), on := s.on.(t2 := false, t3 := false));
    WithState(SentSABM(s1).(on := s1.on.(t1 := true)), AwaitingConnection)
  }

  function Enquired(s: St): St {
    var s1 := SentStatus(s, true, false);
    s1.(v := s1.v.(cond := s1.v.cond.(ackPending := false)), on := s1.on.(t2 := false))
  }

  // DISC or DM from the peer while the link is up.
  function TornDown(s: St, code: ErrCode): St {
    WithState(Emitted(NoTimers(NoQueues(s)), Error(code)), Disconnected)
  }

  function Releasing(s: St): St {
    var s1 := SentU(NoQueues(s).(v := s.v.(n2Count := 0)), FrameDISC, true, true);
    WithState(s1.(on := s1.on.(t1 := true, t2 := false, t3 := false)), AwaitingRelease)
  }

  predicate SamePlace(a: St, b: St) {
    && b.cfg == a.cfg && b.state == a.state && b.pending == a.pending && b.txBuf == a.txBuf
    && b.v.vs == a.v.vs && b.v.va == a.v.va
  }

  // An in-sequence I-frame: deliver and owe, or send, an acknowledgement.
  function Accepted(s: St, f: Frame): (r: St)
    ensures SamePlace(s, r)
  {
    var s1 := s.(v := s.v.(vr := Next(s.v.vr, M(s)), cond := s.v.cond.(reject := false)));
    var s2 := if f.info != [] then Emitted(s1, DataRX(f.info)) else s1;
    if f.control.pf then
      var s3 := SentStatus(s2.(v := s2.v.(cond := s2.v.cond.(ackPending := false))), true, true);
      s3.(on := s3.on.(t2 := false))
    else if !s2.v.cond.ackPending then
      s2.(v := s2.v.(cond := s2.v.cond.(ackPending := true)), on := s2.on.(t2 := true))
    else s2
  }

  // An out-of-sequence I-frame: one REJ until the gap is filled.
  function Refused(s: St, f: Frame): (r: St)
    ensures SamePlace(s, r)
  {
    if !s.v.cond.reject then
      SentREJ(s.(v := s.v.(cond := s.v.cond.(reject := true, ackPending := false)), on := s.on.(t2 := false)), f.control.pf)
    else if f.control.pf then SentStatus(s, true, true)
    else s
  }

  function Received(s: St, f: Frame): (r: St)
    ensures SamePlace(s, r)
  {
    if s.v.cond.ownRxBusy then (if f.control.pf then SentStatus(s, true, true) else s)
    else if f.control.ns == s.v.vr then Accepted(s, f)
    else Refused(s, f)
  }

  function AnsweredPoll(s: St, f: Frame): St
    ensures InStep(s) ==> InStep(AnsweredPoll(s, f))
  {
    if f.isCommand && f.control.pf then SentStatus(s, true, true) else s
  }

  function WithPeerBusy(s: St, busy: bool): St
    ensures InStep(s) ==> InStep(WithPeerBusy(s, busy))
  {
    s.(v := s.v.(cond := s.v.cond.(peerRxBusy := busy)))
  }

  function FlushedAck(s: St): St {
    if s.v.cond.ackPending
    then SentStatus(s.(v := s.v.(cond := s.v.cond.(ackPending := false))), false, true) else s
  }

  function Took(s: St, data: seq<U8>): St {
    s.(txBuf := s.txBuf + data, hist := s.hist.(taken := s.hist.taken + data))
  }

  // ----- what an event demands -----

  predicate Acknowledges(kind: FrameKind) {
    kind.FrameI? || kind.FrameRR? || kind.FrameRNR? || kind.FrameREJ?
  }

  predicate Rebinds(f: Frame) {
    f.isCommand && (f.control.kind.FrameSABM? || f.control.kind.FrameSABME?)
  }

  // No loop over the ring that this event starts runs for ever (AdmissibleIff).
  predicate Admissible(s: St, ev: Event) {
    Live(s) && ev.FrameRX? && ev.frame.Some? ==>
      var f := ev.frame.value;
      && (Acknowledges(f.control.kind) ==> AckStops(s, f.control.nr))
      && (Rebinds(f) ==> Reaches(s.v.va, s.v.vs, Modulus(f.control.kind.FrameSABME?)))
  }

  // A loop over the ring: from, to, and the modulus its index counts in.
  datatype Loop = Loop(from: int, to: int, m: int)

  // The loops one event makes the handlers of a live link start, in order.
  function LoopsStarted(s: St, ev: Event): (r: seq<Loop>)
    ensures forall i | 0 <= i < |r| :: 0 <= r[i].from && r[i].m > 0
  {
    if !Live(s) || !ev.FrameRX? || ev.frame.None? then []
    else
      var f := ev.frame.value;
      var (kind, nr) := (f.control.kind, f.control.nr);
      if Rebinds(f) then [Loop(s.v.va, s.v.vs, Modulus(kind.FrameSABME?))]
      else if !Acknowledges(kind) || !ValidNR(s, nr) then []
      else if kind.FrameREJ? then [Loop(s.v.va, nr, M(s)), Loop(nr, s.v.vs, M(s))]
      else [Loop(s.v.va, nr, M(s))]
  }

  lemma AdmissibleIff(s: St, ev: Event)
    requires RingOk(s)
    ensures Admissible(s, ev) <==> forall l | l in LoopsStarted(s, ev) :: Ends(l.from, l.to, l.m)
  {
    var loops := LoopsStarted(s, ev);
    forall l | l in loops
      ensures Ends(l.from, l.to, l.m) <==> Reaches(l.from, l.to, l.m)
    {
      LoopStopsIff(l.from, l.to, l.m);
    }
    if loops != [] {
      assert loops[0] in loops;
    }
  }

  // ----- handlers -----

  function OnDisconnected(s: St, ev: Event): Outcome {
    match ev
    case Connect =>
      var s1 := SentSABM(s.(v := ZERO_VARS));
      Outcome(WithState(s1.(on := s1.on.(t1 := true, hb := true)), AwaitingConnection), true)
    case FrameRX(Some(f)) =>
      if (f.control.kind.FrameSABM? || f.control.kind.FrameSABME?) && f.isCommand
      then Outcome(SentU(s, FrameDM, f.control.pf, false), true)
      else Outcome(s, true)
    case Shutdown => Outcome(s, false)
    case _ => Outcome(s, true)
  }

  function AwaitingConnectionFrame(s: St, f: Frame): St {
    match f.control.kind
    case FrameSABM =>
      if f.isCommand then SentU(WithModulus(s, false), FrameUA, f.control.pf, false) else s
    case FrameSABME =>
      if f.isCommand then SentU(WithModulus(s, true), FrameUA, f.control.pf, false) else s
    case FrameDISC =>
      if f.isCommand then SentU(s, FrameDM, f.control.pf, false) else s
    case FrameUA =>
      if !f.control.pf then s
      else WithState(s.(v := s.v.(n2Count := 0, vs := 0, vr := 0, va := 0), on := s.on.(t1 := false, t3 := true)), Connected)
    case FrameDM =>
      if !f.control.pf then s
      else if s.cfg.mod128 then WithModulus(s, false)
      else WithState(Emitted(s.(on := s.on.(t1 := false)), Error(PeerRejected)), Disconnected)
    case _ => s
  }

  function OnAwaitingConnection(s: St, ev: Event): Outcome {
    match ev
    case FrameRX(Some(f)) => Outcome(AwaitingConnectionFrame(s, f), true)
    case T1Expiry =>
      if s.v.n2Count >= s.cfg.n2 then
        if s.cfg.mod128 then
          var s1 := SentSABM(WithModulus(s, false).(v := s.v.(n2Count := 0)));
          Outcome(s1.(on := s1.on.(t1 := true)), true)
        else Outcome(WithState(Emitted(s, Error(LinkEstablishTimeout)), Disconnected), true)
      else
        var s1 := SentSABM(s.(v := s.v.(n2Count := s.v.n2Count + 1)));
        Outcome(s1.(on := s1.on.(t1 := true)), true)
    case Disconnect | Abort =>
      var s1 := SentU(s, FrameDISC, true, true).(v := s.v.(n2Count := 0));
      Outcome(WithState(s1.(on := s1.on.(t1 := true)), AwaitingRelease), true)
    case Shutdown => Outcome(s, false)
    case _ => Outcome(s, true)
  }

  function ConnectedStatus(s: St, f: Frame): St
    requires InStep(s) && AckStops(s, f.control.nr)
  {
    if !ValidNR(s, f.control.nr) then Reestablished(s) else Kicked(Acked(AnsweredPoll(s, f), f.control.nr))
  }

  function ConnectedReject(s: St, f: Frame): St
    requires InStep(s) && AckStops(s, f.control.nr)
  {
    if !ValidNR(s, f.control.nr) then Reestablished(s)
    else
      var s1 := Requeued(Acked(AnsweredPoll(s, f), f.control.nr));
      Kicked(s1.(on := s1.on.(t1 := false, t3 := true)))
  }

  function Information(s: St, f: Frame): St
    requires InStep(s) && AckStops(s, f.control.nr)
  {
    if !ValidNR(s, f.control.nr) then Reestablished(s) else Kicked(Received(Acked(s, f.control.nr), f))
  }

  function PeerDISC(s: St, f: Frame): St
    requires InStep(s)
  {
    if f.isCommand then TornDown(SentU(s, FrameUA, f.control.pf, false), PeerDisconnected) else Kicked(s)
  }

  function ConnectedFrame(s: St, f: Frame): St
    requires InStep(s) && Admissible(s, FrameRX(Some(f)))
  {
    match f.control.kind
    case FrameSABM => Kicked(if f.isCommand then Rebound(s, false, f.control.pf) else s)
    case FrameSABME => Kicked(if f.isCommand then Rebound(s, true, f.control.pf) else s)
    case FrameDISC => PeerDISC(s, f)
    case FrameDM => TornDown(s, PeerReset)
    case FrameRR => ConnectedStatus(WithPeerBusy(s, false), f)
    case FrameRNR => ConnectedStatus(WithPeerBusy(s, true), f)
    case FrameREJ => ConnectedReject(WithPeerBusy(s, false), f)
    case FrameI => Information(s, f)
    case _ => Reestablished(s)
  }

  function OnConnected(s: St, ev: Event): Outcome
    requires InStep(s) && Admissible(s, ev)
  {
    match ev
    case FrameRX(Some(f)) => Outcome(ConnectedFrame(s, f), true)
    case DataTX(data) => Outcome(Kicked(Took(s, data)), true)
    case T1Expiry =>
      var s1 := Enquired(s.(v := s.v.(n2Count := 1)));
      Outcome(WithState(s1.(on := s1.on.(t1 := true)), TimerRecovery), true)
    case T3Expiry =>
      var s1 := Enquired(s.(v := s.v.(n2Count := 0)));
      Outcome(WithState(s1.(on := s1.on.(t1 := true)), TimerRecovery), true)
    case T2Expiry => Outcome(Kicked(FlushedAck(s)), true)
    case Disconnect | Abort => Outcome(Releasing(s), true)
    case Shutdown => Outcome(s, false)
    case _ => Outcome(Kicked(s), true)
  }

  // A response with F=1 ends the enquiry.
  function Recovered(s: St): St {
    if s.v.vs == s.v.va then WithState(s.(on := s.on.(t3 := true)), Connected) else s
  }

  function IsFinal(f: Frame): bool {
    !f.isCommand && f.control.pf
  }

  function RecoveryStatus(s: St, f: Frame): St
    requires InStep(s) && AckStops(s, f.control.nr)
  {
    var nr := f.control.nr;
    if !ValidNR(s, nr) then Reestablished(s)
    else if IsFinal(f) then Kicked(Recovered(Acked(s.(v := s.v.(n2Count := 0)), nr)))
    else Kicked(Acked(AnsweredPoll(s, f), nr))
  }

  function RecoveryReject(s: St, f: Frame): St
    requires InStep(s) && AckStops(s, f.control.nr)
  {
    var nr := f.control.nr;
    if !ValidNR(s, nr) then Reestablished(s)
    else if IsFinal(f) then Kicked(Recovered(Requeued(Acked(s.(v := s.v.(n2Count := 0)), nr))))
    else Kicked(Requeued(Acked(AnsweredPoll(s, f), nr)))
  }

  function RecoveryFrame(s: St, f: Frame): St
    requires InStep(s) && Admissible(s, FrameRX(Some(f)))
  {
    match f.control.kind
    case FrameSABM => Kicked(if f.isCommand then WithState(Rebound(s, false, f.control.pf), Connected) else s)
    case FrameSABME => Kicked(if f.isCommand then WithState(Rebound(s, true, f.control.pf), Connected) else s)
    case FrameDISC => PeerDISC(s, f)
    case FrameDM => TornDown(s, PeerReset)
    case FrameRR => RecoveryStatus(WithPeerBusy(s, false), f)
    case FrameRNR => RecoveryStatus(WithPeerBusy(s, true), f)
    case FrameREJ => RecoveryReject(WithPeerBusy(s, false), f)
    case FrameI => Information(s, f)
    case _ => Reestablished(s)
  }

  // Another enquiry, or giving up after n2 of them.
  function EnquiredAgain(s: St): St
    requires InStep(s)
  {
    if s.v.n2Count >= s.cfg.n2 then TornDown(SentU(s, FrameDM, true, false), AckTimeout)
    else
      var s1 := Enquired(s.(v := s.v.(n2Count := s.v.n2Count + 1)));
      Kicked(s1.(on := s1.on.(t1 := true)))
  }

  function OnTimerRecovery(s: St, ev: Event): Outcome
    requires InStep(s) && Admissible(s, ev)
  {
    match ev
    case FrameRX(Some(f)) => Outcome(RecoveryFrame(s, f), true)
    case DataTX(data) => Outcome(Kicked(Took(s, data)), true)
    case T1Expiry => Outcome(EnquiredAgain(s), true)
    case T2Expiry => Outcome(Kicked(FlushedAck(s)), true)
    case Disconnect | Abort => Outcome(Releasing(s), true)
    case Shutdown => Outcome(s, false)
    case _ => Outcome(Kicked(s), true)
  }

  function Released(s: St): St {
    WithState(s.(on := s.on.(t1 := false)), Disconnected)
  }

  function AwaitingReleaseFrame(s: St, f: Frame): St {
    match f.control.kind
    case FrameSABM | FrameSABME => if f.isCommand then SentU(s, FrameDM, f.control.pf, false) else s
    case FrameDISC => if f.isCommand then Released(SentU(s, FrameUA, f.control.pf, false)) else s
    case FrameUA | FrameDM => if f.control.pf then Released(s) else s
    case FrameI | FrameRR | FrameRNR | FrameREJ =>
      if f.isCommand && f.control.pf then SentU(s, FrameDM, true, false) else s
    case _ => s
  }

  function OnAwaitingRelease(s: St, ev: Event): Outcome {
    match ev
    case FrameRX(Some(f)) => Outcome(AwaitingReleaseFrame(s, f), true)
    case T1Expiry =>
      if s.v.n2Count >= s.cfg.n2 then
        Outcome(WithState(Emitted(SentU(s, FrameDISC, true, true), Error(DiscTimeout)), Disconnected), true)
      else
        var s1 := SentU(s.(v := s.v.(n2Count := s.v.n2Count + 1)), FrameDISC, true, true);
        Outcome(s1.(on := s1.on.(t1 := true)), true)
    case Shutdown => Outcome(s, false)
    case _ => Outcome(s, true)
  }

  function HeartbeatTick(s: St): St {
    if !Live(s) then s
    else
      var s1 := if s.v.cond.ownRxBusy
                then SentStatus(s.(v := s.v.(cond := s.v.cond.(ownRxBusy := false, ackPending := false))), false, true)
                else s;
      s1.(on := s1.on.(hb := true))
  }

  function StatsTicked(s: St): St {
    if s.state != Connected then s else Emitted(s, LinkStats).(on := s.on.(stats := true))
  }

  // What another goroutine sees: frames in the window plus the frames the queue will
  // be cut into.
  function OutstandingOf(s: St): int
    requires s.cfg.paclen >= 1
  {
    (s.v.vs - s.v.va) % M(s) + (if |s.txBuf| > 0 then (|s.txBuf| + s.cfg.paclen - 1) / s.cfg.paclen else 0)
  }

  function Synced(s: St): St
    requires s.cfg.paclen >= 1
  {
    s.(outstanding := OutstandingOf(s))
  }

  function Dispatched(s: St, ev: Event): Outcome
    requires RingOk(s) && Admissible(s, ev)
  {
    match s.state
    case Disconnected => OnDisconnected(s, ev)
    case AwaitingConnection => OnAwaitingConnection(s, ev)
    case Connected => OnConnected(s, ev)
    case TimerRecovery => OnTimerRecovery(s, ev)
    case AwaitingRelease => OnAwaitingRelease(s, ev)
  }

  function Handled(s: St, ev: Event): Outcome
    requires RingOk(s) && Admissible(s, ev)
  {
    if ev.Heartbeat? then Outcome(HeartbeatTick(s), true)
    else if ev.StatsTick? then Outcome(StatsTicked(s), true)
    else
      var o := Dispatched(s, ev);
      Outcome(o.st, o.cont && !o.st.terminated)
  }
}
