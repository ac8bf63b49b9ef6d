// One direction of a link between two modulo-8 sessions: a sender, a receiver, the
// frames on their way between them, and what relates the four.

module LapbDirection {
  import opened Common
  import opened Control
  import opened Frames
  import opened Ring
  import opened LapbSpec
  import opened LapbRing

  predicate IsI(f: Frame) {
    f.control.kind.FrameI?
  }

  predicate IsREJ(f: Frame) {
    f.control.kind.FrameREJ?
  }

  predicate IsStatus(f: Frame) {
    f.control.kind.FrameRR? || f.control.kind.FrameRNR?
  }

  // A frame two established sessions exchange, with its sender's addresses.
  predicate OnWire(f: Frame, c: Config) {
    && (IsI(f) || IsREJ(f) || IsStatus(f))
    && f.control.ns < 8 && f.control.nr < 8
    && (!IsI(f) ==> f.control.ns == 0 && f.pid == 0 && f.info == [])
    && f.source == c.local && f.dest == c.peer && f.path == c.path && !f.mod128
  }

  predicate Wired(ch: seq<Frame>, c: Config) {
    forall i | 0 <= i < |ch| :: OnWire(ch[i], c)
  }

  function D(a: int, b: int): int {
    Dist(a, b, 8)
  }

  function Delivered(obs: seq<OutEvent>): seq<U8> {
    if obs == [] then [] else (if obs[0].DataRX? then obs[0].data else []) + Delivered(obs[1..])
  }

  lemma {:induction false} DeliveredConcat(a: seq<OutEvent>, b: seq<OutEvent>)
    ensures Delivered(a + b) == Delivered(a) + Delivered(b)
  {
    if a == [] {
      assert [] + b == b;
    } else {
      assert (a + b)[1..] == a[1..] + b;
      DeliveredConcat(a[1..], b);
      var head := if a[0].DataRX? then a[0].data else [];
      var x, y := Delivered(a[1..]), Delivered(b);
      assert Delivered(a) == head + x && Delivered(a + b) == head + Delivered(a[1..] + b);
      assert head + (x + y) == (head + x) + y;
    }
  }

  // No I-frame in the channel carries number n.
  predicate NoneAt(ch: seq<Frame>, n: int) {
    forall i | 0 <= i < |ch| :: IsI(ch[i]) ==> ch[i].control.ns != n
  }

  predicate NoREJ(ch: seq<Frame>) {
    forall i | 0 <= i < |ch| :: !IsREJ(ch[i])
  }

  predicate Base(s: St) {
    InStep(s) && !s.cfg.mod128 && D(s.v.va, s.v.vs) <= s.cfg.window < 8
  }

  // The frames ahead of position k were sent before the sender last cut its queue
  // anew; the receiver, waiting after a REJ, will take none of them.
  predicate OldPart(r: St, data: seq<Frame>, k: nat) {
    && k <= |data|
    && (k > 0 ==> r.v.cond.reject)
    && forall i | 0 <= i < k :: IsI(data[i]) ==> data[i].control.ns != r.v.vr
  }

  // The frames from position k on are as the sender still holds them, in increasing
  // order from the one the receiver wants.
  predicate NewPart(s: St, r: St, data: seq<Frame>, k: nat)
    requires |s.pending| == RING_SIZE
  {
    && (forall i | k <= i < |data| :: IsI(data[i]) ==>
          && data[i].control.ns < 8
          && D(r.v.vr, data[i].control.ns) < D(r.v.vr, s.v.vs)
          && s.pending[data[i].control.ns] == Some(data[i]))
    && (forall i, j | k <= i < j < |data| :: IsI(data[i]) && IsI(data[j]) ==>
          D(r.v.vr, data[i].control.ns) < D(r.v.vr, data[j].control.ns))
  }

  // Acknowledgements on their way back are in order and never ahead of the receiver.
  predicate Acks(s: St, r: St, ctl: seq<Frame>) {
    && (forall i | 0 <= i < |ctl| :: ctl[i].control.nr < 8 && D(s.v.va, ctl[i].control.nr) <= D(s.v.va, r.v.vr))
    && (forall i, j | 0 <= i < j < |ctl| :: D(s.v.va, ctl[i].control.nr) <= D(s.v.va, ctl[j].control.nr))
  }

  // At most one REJ is on its way back, for the number the receiver still waits for,
  // and no frame with that number is on its way there.
  predicate Rejects(s: St, r: St, data: seq<Frame>, ctl: seq<Frame>) {
    && (forall i | 0 <= i < |ctl| :: IsREJ(ctl[i]) ==>
          && r.v.cond.reject && ctl[i].control.nr == r.v.vr
          && NoneAt(data, r.v.vr) && r.v.vr != s.v.vs)
    && (forall i, j | 0 <= i < j < |ctl| :: !(IsREJ(ctl[i]) && IsREJ(ctl[j])))
  }

  // What the receiver has delivered is what the sender has had acknowledged and then
  // what it still holds up to the number the receiver wants.
  predicate DeliveredOk(s: St, r: St)
    requires Base(s) && Base(r)
  {
    Delivered(r.obs) == s.hist.acked + Collect(s.pending, Slots(s.v.va, r.v.vr, 8))
  }

  predicate Dir(s: St, r: St, data: seq<Frame>, ctl: seq<Frame>, k: nat) {
    && Base(s) && Base(r)
    && D(s.v.va, r.v.vr) <= D(s.v.va, s.v.vs)
    && OldPart(r, data, k) && NewPart(s, r, data, k)
    && Acks(s, r, ctl) && Rejects(s, r, data, ctl)
    && DeliveredOk(s, r)
  }

  // ----- losing a frame -----

  function Without(ch: seq<Frame>, i: nat): seq<Frame>
    requires i < |ch|
  {
    ch[..i] + ch[i + 1..]
  }

  lemma LoseData(s: St, r: St, data: seq<Frame>, ctl: seq<Frame>, k: nat, i: nat)
    requires Dir(s, r, data, ctl, k) && i < |data|
    ensures Dir(s, r, Without(data, i), ctl, if i < k then k - 1 else k)
  {
    var d' := Without(data, i);
    var k' := if i < k then k - 1 else k;
    assert forall j | 0 <= j < |d'| :: d'[j] == data[if j < i then j else j + 1];
  }

  lemma LoseAcks(s: St, r: St, ctl: seq<Frame>, i: nat)
    requires Acks(s, r, ctl) && i < |ctl|
    ensures Acks(s, r, Without(ctl, i))
  {
    var c' := Without(ctl, i);
    assert forall j | 0 <= j < |c'| :: c'[j] == ctl[if j < i then j else j + 1];
  }

  lemma LoseRejects(s: St, r: St, data: seq<Frame>, ctl: seq<Frame>, i: nat)
    requires Rejects(s, r, data, ctl) && i < |ctl|
    ensures Rejects(s, r, data, Without(ctl, i))
  {
    hide NoneAt;
    var c' := Without(ctl, i);
    assert forall j | 0 <= j < |c'| :: c'[j] == ctl[if j < i then j else j + 1];
  }

  lemma LoseCtl(s: St, r: St, data: seq<Frame>, ctl: seq<Frame>, k: nat, i: nat)
    requires Dir(s, r, data, ctl, k) && i < |ctl|
    ensures Dir(s, r, data, Without(ctl, i), k)
  {
    hide Acks, Rejects, OldPart, NewPart, DeliveredOk, Without;
    LoseAcks(s, r, ctl, i);
    LoseRejects(s, r, data, ctl, i);
  }

  // ----- what the head of a channel says -----

  // The head of the data channel, seen by the receiver.
  predicate HeadFact(s: St, r: St, f: Frame, rest: seq<Frame>, ctl: seq<Frame>, k: nat)
    requires |s.pending| == RING_SIZE
  {
    IsI(f) && f.control.ns < 8 && (f.control.ns == r.v.vr || !r.v.cond.reject) ==>
      && k == 0 && r.v.vr != s.v.vs && NoneAt(rest, r.v.vr) && NoREJ(ctl)
      && (f.control.ns == r.v.vr ==> s.pending[f.control.ns] == Some(f))
  }

  lemma Head(s: St, r: St, data: seq<Frame>, ctl: seq<Frame>, k: nat)
    requires Dir(s, r, data, ctl, k) && data != []
    ensures HeadFact(s, r, data[0], data[1..], ctl, k)
  {
    var f := data[0];
    if IsI(f) && f.control.ns < 8 && (f.control.ns == r.v.vr || !r.v.cond.reject) {
      assert k == 0;
      forall i | 0 <= i < |data[1..]| && IsI(data[1..][i])
        ensures data[1..][i].control.ns != r.v.vr
      {
        assert data[1..][i] == data[i + 1];
        assert D(r.v.vr, data[0].control.ns) < D(r.v.vr, data[i + 1].control.ns);
      }
    }
  }

  // The head of the control channel, seen by the sender.
  predicate AckFact(s: St, r: St, f: Frame, data: seq<Frame>, rest: seq<Frame>) {
    && D(s.v.va, f.control.nr) <= D(s.v.va, r.v.vr)
    && f.control.nr < 8
    && (forall i | 0 <= i < |rest| :: D(s.v.va, f.control.nr) <= D(s.v.va, rest[i].control.nr))
    && (IsREJ(f) ==> r.v.cond.reject && f.control.nr == r.v.vr && NoneAt(data, r.v.vr) && NoREJ(rest))
  }

  lemma HeadAck(s: St, r: St, data: seq<Frame>, ctl: seq<Frame>, k: nat)
    requires Dir(s, r, data, ctl, k) && ctl != []
    ensures AckFact(s, r, ctl[0], data, ctl[1..])
  {
    assert forall i | 0 <= i < |ctl[1..]| :: ctl[1..][i] == ctl[i + 1];
  }

  // ----- the sender's steps -----

  lemma NotInSlots(a: int, b: int, n: int)
    requires 0 <= a < 8 && 0 <= b < 8 && 0 <= n < 8 && D(a, b) <= D(a, n)
    ensures n !in Slots(a, b, 8)
  {
    SlotsShape(a, b, 8);
  }

  lemma AckedLeaves(s: St, r: St, nr: U8)
    requires Base(s) && Base(r) && nr < 8 && D(s.v.va, nr) <= D(s.v.va, r.v.vr)
    ensures var left := Slots(nr, r.v.vr, 8);
            forall k | 0 <= k < |left| :: Acked(s, nr).pending[left[k]] == s.pending[left[k]]
  {
    var gone, left := Slots(s.v.va, nr, 8), Slots(nr, r.v.vr, 8);
    SlotsDistinct(s.v.va, nr, r.v.vr, 8);
    forall k | 0 <= k < |left|
      ensures Acked(s, nr).pending[left[k]] == s.pending[left[k]]
    {
      ClearedAt(s.pending, gone, left[k]);
    }
  }

  lemma AckDelivered(s: St, r: St, nr: U8)
    requires Base(s) && Base(r) && nr < 8 && DeliveredOk(s, r) && ValidNR(s, nr)
    requires D(s.v.va, nr) <= D(s.v.va, r.v.vr) <= D(s.v.va, s.v.vs)
    ensures Base(Acked(s, nr)) && DeliveredOk(Acked(s, nr), r)
  {
    hide Slots, Cleared, Collect;
    AckedKeeps(s, nr);
    var s' := Acked(s, nr);
    var gone, left := Slots(s.v.va, nr, 8), Slots(nr, r.v.vr, 8);
    SlotsSplit(s.v.va, nr, r.v.vr, 8);
    AckedLeaves(s, r, nr);
    CollectSame(s.pending, s'.pending, left);
    CollectConcat(s.pending, gone, left);
    var g, l := Collect(s.pending, gone), Collect(s.pending, left);
    assert s.hist.acked + (g + l) == (s.hist.acked + g) + l;
  }

  lemma AckData(s: St, r: St, data: seq<Frame>, k: nat, nr: U8)
    requires Base(s) && Base(r) && nr < 8 && NewPart(s, r, data, k)
    requires D(s.v.va, nr) <= D(s.v.va, r.v.vr) <= D(s.v.va, s.v.vs)
    ensures NewPart(Acked(s, nr), r, data, k)
  {
    var s' := Acked(s, nr);
    forall i | k <= i < |data| && IsI(data[i])
      ensures s'.pending[data[i].control.ns] == s.pending[data[i].control.ns]
    {
      var n := data[i].control.ns;
      assert D(s.v.va, nr) <= D(s.v.va, n);
      NotInSlots(s.v.va, nr, n);
      ClearedAt(s.pending, Slots(s.v.va, nr, 8), n);
    }
  }

  // Taking an acknowledgement off the head of the control channel.
  lemma AckStep(s: St, r: St, f: Frame, data: seq<Frame>, rest: seq<Frame>, k: nat)
    requires Dir(s, r, data, rest, k) && AckFact(s, r, f, data, rest)
    ensures ValidNR(s, f.control.nr)
    ensures Dir(Acked(s, f.control.nr), r, data, rest, k)
    ensures IsREJ(f) ==> Acked(s, f.control.nr).v.va == r.v.vr
  {
    hide Slots, Cleared, Collect;
    var nr := f.control.nr;
    AckDelivered(s, r, nr);
    AckData(s, r, data, k, nr);
    var s' := Acked(s, nr);
    assert s'.v.vs == s.v.vs && s'.v.va == nr;
    forall i | 0 <= i < |rest|
      ensures D(nr, rest[i].control.nr) == D(s.v.va, rest[i].control.nr) - D(s.v.va, nr)
    {
    }
  }

  // Cutting the queue anew on a REJ: everything under way is old from here on.
  lemma RequeueStep(s: St, r: St, data: seq<Frame>, ctl: seq<Frame>, k: nat)
    requires Dir(s, r, data, ctl, k) && NoREJ(ctl)
    requires r.v.cond.reject && s.v.va == r.v.vr && NoneAt(data, r.v.vr)
    ensures Dir(Requeued(s), r, data, ctl, |data|)
  {
    hide Cleared;
    var s' := Requeued(s);
    assert Slots(s.v.va, r.v.vr, 8) == [];
    assert Collect(s.pending, []) == Collect(s'.pending, []);
  }

  // Sending the next I-frame.
  lemma SendStep(s: St, r: St, data: seq<Frame>, ctl: seq<Frame>, k: nat)
    requires Dir(s, r, data, ctl, k) && CanSend(s) && s.cfg.window >= 1
    ensures Base(SentOne(s))
    ensures var f := DataFrame(s, s.txBuf[..ChunkLen(s)]); Dir(SentOne(s), r, data + [f], ctl, k)
  {
    hide Slots, Cleared, Collect;
    var s' := SentOne(s);
    var f := DataFrame(s, s.txBuf[..ChunkLen(s)]);
    var data' := data + [f];
    assert s'.pending == s.pending[s.v.vs := Some(f)];
    assert s'.v.va == s.v.va && s'.hist == s.hist && D(s.v.va, s'.v.vs) == D(s.v.va, s.v.vs) + 1;
    SendDelivered(s, r);
    SendNew(s, r, data, k);
    assert Rejects(s', r, data', ctl) by {
      forall i | 0 <= i < |ctl| && IsREJ(ctl[i])
        ensures NoneAt(data', r.v.vr) && r.v.vr != s'.v.vs
      {
      }
    }
  }

  lemma SendDelivered(s: St, r: St)
    requires Base(s) && Base(r) && CanSend(s) && DeliveredOk(s, r) && D(s.v.va, r.v.vr) <= D(s.v.va, s.v.vs)
    ensures Base(SentOne(s)) && DeliveredOk(SentOne(s), r)
  {
    SentOneFields(s);
    hide SentOne, CanSend;
    var slots := Slots(s.v.va, r.v.vr, 8);
    NotInSlots(s.v.va, r.v.vr, s.v.vs);
    forall k | 0 <= k < |slots|
      ensures slots[k] != s.v.vs
    {
      assert slots[k] in slots;
    }
    CollectSame(s.pending, SentOne(s).pending, slots);
  }

  lemma SentOneFields(s: St)
    requires Base(s) && CanSend(s)
    ensures Base(SentOne(s)) && SentOne(s).v.va == s.v.va && SentOne(s).hist == s.hist
    ensures SentOne(s).pending == s.pending[s.v.vs := Some(DataFrame(s, s.txBuf[..ChunkLen(s)]))]
  {
  }

  lemma SendNew(s: St, r: St, data: seq<Frame>, k: nat)
    requires Base(s) && Base(r) && CanSend(s) && NewPart(s, r, data, k) && k <= |data|
    requires D(s.v.va, r.v.vr) <= D(s.v.va, s.v.vs)
    ensures var f := DataFrame(s, s.txBuf[..ChunkLen(s)]); NewPart(SentOne(s), r, data + [f], k)
  {
    var s' := SentOne(s);
    var f := DataFrame(s, s.txBuf[..ChunkLen(s)]);
    assert s'.pending == s.pending[s.v.vs := Some(f)];
    var far := D(r.v.vr, s.v.vs);
    assert D(r.v.vr, s'.v.vs) == far + 1;
    forall i | k <= i < |data| && IsI(data[i])
      ensures data[i].control.ns != s.v.vs
    {
    }
  }

  // ----- steps that send status frames and change nothing that matters here -----

  predicate StatusOf(ext: seq<Frame>, s: St) {
    forall i | 0 <= i < |ext| :: IsStatus(ext[i]) && ext[i].control.nr == s.v.vr && OnWire(ext[i], s.cfg)
  }

  predicate SameSender(s: St, s': St) {
    && Base(s') && s'.v.va == s.v.va && s'.v.vs == s.v.vs && s'.pending == s.pending && s'.hist.acked == s.hist.acked
    && s'.cfg == s.cfg
  }

  predicate SameReceiver(r: St, r': St) {
    Base(r') && r'.v.vr == r.v.vr && r'.v.cond.reject == r.v.cond.reject && Delivered(r'.obs) == Delivered(r.obs)
  }

  lemma SenderStatus(s: St, r: St, data: seq<Frame>, ctl: seq<Frame>, k: nat, s': St, ext: seq<Frame>)
    requires Dir(s, r, data, ctl, k) && SameSender(s, s')
    requires forall i | 0 <= i < |ext| :: !IsI(ext[i])
    ensures Dir(s', r, data + ext, ctl, k)
  {
    var d' := data + ext;
    assert forall i | 0 <= i < |d'| :: d'[i] == if i < |data| then data[i] else ext[i - |data|];
  }

  lemma ReceiverStatus(s: St, r: St, data: seq<Frame>, ctl: seq<Frame>, k: nat, r': St, ext: seq<Frame>)
    requires Dir(s, r, data, ctl, k) && SameReceiver(r, r')
    requires forall i | 0 <= i < |ext| :: !IsREJ(ext[i]) && ext[i].control.nr == r.v.vr
    ensures Dir(s, r', data, ctl + ext, k)
  {
    var c' := ctl + ext;
    assert forall i | 0 <= i < |c'| :: c'[i] == if i < |ctl| then ctl[i] else ext[i - |ctl|];
  }

  // ----- the receiver's steps -----

  // Taking the wanted frame.
  lemma AcceptStep(s: St, r: St, f: Frame, data: seq<Frame>, ctl: seq<Frame>, k: nat, r': St)
    requires Dir(s, r, data, ctl, 0) && HeadFact(s, r, f, data, ctl, k) && IsI(f) && f.control.ns == r.v.vr
    requires Base(r') && r'.v.vr == Next(r.v.vr, 8) && !r'.v.cond.reject
    requires Delivered(r'.obs) == Delivered(r.obs) + f.info
    ensures Dir(s, r', data, ctl, 0)
  {
    AcceptDelivered(s, r, f, r');
    hide Slots, Collect;
    var v, v' := r.v.vr, r'.v.vr;
    assert D(s.v.va, v') == D(s.v.va, v) + 1;
    assert forall n | 0 <= n < 8 && n != v :: D(v', n) == D(v, n) - 1;
    assert D(v', s.v.vs) == D(v, s.v.vs) - 1;
    forall i | 0 <= i < |data| && IsI(data[i])
      ensures data[i].control.ns < 8 && D(v', data[i].control.ns) == D(v, data[i].control.ns) - 1
    {
    }
  }

  lemma AcceptDelivered(s: St, r: St, f: Frame, r': St)
    requires Base(s) && Base(r) && Base(r') && DeliveredOk(s, r)
    requires s.pending[r.v.vr] == Some(f) && r.v.vr != s.v.vs && D(s.v.va, r.v.vr) <= D(s.v.va, s.v.vs)
    requires r'.v.vr == Next(r.v.vr, 8) && Delivered(r'.obs) == Delivered(r.obs) + f.info
    ensures DeliveredOk(s, r')
  {
    SlotsSnoc(s.v.va, r.v.vr, 8);
    var slots := Slots(s.v.va, r.v.vr, 8);
    CollectConcat(s.pending, slots, [r.v.vr as int]);
    assert Collect(s.pending, [r.v.vr as int]) == f.info + Collect(s.pending, []);
    assert s.hist.acked + (Collect(s.pending, slots) + f.info) == s.hist.acked + Collect(s.pending, slots) + f.info;
  }

  // Asking for the wanted frame again.
  lemma RejectStep(s: St, r: St, f: Frame, data: seq<Frame>, ctl: seq<Frame>, k: nat, r': St, rej: Frame)
    requires Dir(s, r, data, ctl, 0) && HeadFact(s, r, f, data, ctl, k) && IsI(f) && f.control.ns < 8
    requires !r.v.cond.reject && f.control.ns != r.v.vr
    requires Base(r') && r'.v.vr == r.v.vr && r'.v.cond.reject && Delivered(r'.obs) == Delivered(r.obs)
    requires IsREJ(rej) && rej.control.nr == r.v.vr
    ensures Dir(s, r', data, ctl + [rej], 0)
  {
    var c' := ctl + [rej];
    assert forall i | 0 <= i < |c'| :: c'[i] == if i < |ctl| then ctl[i] else rej;
  }
}
