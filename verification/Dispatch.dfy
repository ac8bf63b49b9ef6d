// Frames on their way to sessions while sessions come and go: the steps of
// pkg/ax25conn/manager.go that other goroutines can come between, in every order. A
// dispatch looks its session up, reads the modulus and decodes, records the path and
// submits, each as a step of its own.

module Dispatch {
  import opened Common
  import opened Frames
  import opened DedupKeys
  import opened Manager
  import A = Address
  import LapbSpec

  // A session's goroutine: running, its run over, gone from the tables.
  datatype Phase = Running | Ended | Removed

  datatype Peered = Peered(channel: int, local: A.Address, peer: A.Address, op: string, mod128: bool,
                           inbox: seq<LapbSpec.Event>, path: seq<A.Address>, cancelled: bool, phase: Phase) {
    function Triple(): Key {
      KeyOf(channel, local, peer)
    }
  }

  function NewPeered(channel: int, local: A.Address, peer: A.Address, op: string, mod128: bool): Peered {
    Peered(channel, local, peer, op, mod128, [], [], false, Running)
  }

  // How far a dispatch has come, with the session it found.
  datatype Stage = Started | Found(id: nat) | Decoded(id: nat, frame: Frame) | Recorded(id: nat, frame: Frame) | Done

  datatype Job = Job(channel: int, raw: seq<U8>, stage: Stage)

  // How many sessions may be live, of one operator and in all.
  datatype Limits = Limits(perOperator: nat, total: nat)

  // Every session there has ever been, by id, and every dispatch.
  datatype State = State(limits: Limits, table: Table, sessions: map<nat, Peered>, jobs: map<nat, Job>)

  function Start(lim: Limits): State {
    State(lim, Table(map[], map[], 0, false), map[], map[])
  }

  datatype Step =
    | Open(channel: int, local: A.Address, peer: A.Address, op: string, mod128: bool) | Close
    | SetMod(id: nat, mod128: bool) | Take(id: nat) | End(id: nat) | Remove(id: nat)
    | Command(id: nat, event: LapbSpec.Event)
    | Begin(j: nat, channel: int, raw: seq<U8>)
    | Lookup(j: nat) | ReadMod(j: nat) | Record(j: nat) | Submit(j: nat)

  // The session raw octets ask for.
  function Named(channel: int, raw: seq<U8>): Option<Key> {
    var hdr := A.DecodeBlock(raw);
    if hdr.Ok? then Some(KeyOf(channel, hdr.value.dest, hdr.value.source)) else None
  }

  // The keys under which an operator's sessions are held.
  ghost function HeldBy(s: State, op: string): set<Key> {
    set k | k in s.table.byKey && s.table.byKey[k] in s.sessions && s.sessions[s.table.byKey[k]].op == op
  }

  // The manager takes no more, closed or full.
  ghost predicate Full(s: State, op: string) {
    s.table.closed || |s.table.byKey| >= s.limits.total || |HeldBy(s, op)| >= s.limits.perOperator
  }

  ghost function OpenedIn(s: State, ms: Peered): State {
    if Full(s, ms.op) || ms.Triple() in s.table.byKey then s
    else s.(table := Entered(s.table, ms.Triple()), sessions := s.sessions[s.table.nextID + 1 := ms])
  }

  function ClosedIn(s: State): State {
    if s.table.closed then s
    else
      s.(table := s.table.(closed := true),
         sessions := map i | i in s.sessions ::
           if i in s.table.byID then s.sessions[i].(cancelled := true) else s.sessions[i])
  }

  // What a session's own goroutine and its operator do.
  function SessionStep(ms: Peered, step: Step): Peered {
    match step
    case SetMod(_, m) => if ms.phase.Running? then ms.(mod128 := m) else ms
    case Take(_) => if ms.phase.Running? && ms.inbox != [] then ms.(inbox := ms.inbox[1..]) else ms
    case End(_) => if ms.phase.Running? then ms.(phase := Ended) else ms
    case Command(_, ev) => if ev.FrameRX? then ms else ms.(inbox := Enqueued(ms.inbox, ev))
    case _ => ms
  }

  // The goroutine takes out the key and the id it was started with.
  function RemovedIn(s: State, id: nat): State
    requires id in s.sessions
  {
    if s.sessions[id].phase.Ended? then
      s.(table := Taken(s.table, s.sessions[id].Triple(), id),
         sessions := s.sessions[id := s.sessions[id].(phase := Removed)])
    else s
  }

  function LookedUp(s: State, job: Job): Stage {
    var key := Named(job.channel, job.raw);
    if key.Some? && key.value in s.table.byKey then Found(s.table.byKey[key.value]) else Done
  }

  function DecodedAs(raw: seq<U8>, id: nat, mod128: bool): Stage {
    var f := Decode(raw, mod128);
    if f.Ok? then Decoded(id, f.value) else Done
  }

  // The next step of a dispatch; one that is out of turn does nothing.
  function JobStep(s: State, step: Step, j: nat): State
    requires j in s.jobs
  {
    var job := s.jobs[j];
    match step
    case Lookup(_) => if job.stage.Started? then s.(jobs := s.jobs[j := job.(stage := LookedUp(s, job))]) else s
    case ReadMod(_) =>
      if job.stage.Found? && job.stage.id in s.sessions then
        s.(jobs := s.jobs[j := job.(stage := DecodedAs(job.raw, job.stage.id, s.sessions[job.stage.id].mod128))])
      else s
    case Record(_) =>
      if job.stage.Decoded? && job.stage.id in s.sessions then
        var (id, f) := (job.stage.id, job.stage.frame);
        s.(jobs := s.jobs[j := job.(stage := Recorded(id, f))],
           sessions := s.sessions[id := s.sessions[id].(path := Traversed(f.path))])
      else s
    case Submit(_) =>
      if job.stage.Recorded? && job.stage.id in s.sessions then
        var (id, f) := (job.stage.id, job.stage.frame);
        s.(jobs := s.jobs[j := job.(stage := Done)],
           sessions := s.sessions[id := s.sessions[id].(inbox := Enqueued(s.sessions[id].inbox, LapbSpec.FrameRX(Some(f))))])
      else s
    case _ => s
  }

  ghost function Next(s: State, step: Step): State {
    match step
    case Open(channel, local, peer, op, m) => OpenedIn(s, NewPeered(channel, local, peer, op, m))
    case Close => ClosedIn(s)
    case Remove(id) => if id in s.sessions then RemovedIn(s, id) else s
    case Begin(j, channel, raw) => if j in s.jobs then s else s.(jobs := s.jobs[j := Job(channel, raw, Started)])
    case SetMod(id, _) => Local(s, step, id)
    case Take(id) => Local(s, step, id)
    case End(id) => Local(s, step, id)
    case Command(id, _) => Local(s, step, id)
    case Lookup(j) => if j in s.jobs then JobStep(s, step, j) else s
    case ReadMod(j) => if j in s.jobs then JobStep(s, step, j) else s
    case Record(j) => if j in s.jobs then JobStep(s, step, j) else s
    case Submit(j) => if j in s.jobs then JobStep(s, step, j) else s
  }

  function Local(s: State, step: Step, id: nat): State {
    if id in s.sessions then s.(sessions := s.sessions[id := SessionStep(s.sessions[id], step)]) else s
  }

  // The state after the steps taken so far, in that order.
  ghost function After(lim: Limits, steps: seq<Step>): State
    decreases |steps|
  {
    if steps == [] then Start(lim) else Next(After(lim, steps[..|steps| - 1]), steps[|steps| - 1])
  }

  lemma AfterSnoc(lim: Limits, steps: seq<Step>, step: Step)
    ensures After(lim, steps + [step]) == Next(After(lim, steps), step)
  {
    assert (steps + [step])[..|steps|] == steps;
  }

  // ----- what every interleaving keeps -----

  // The tables agree, and hold exactly the sessions whose goroutine is not gone.
  ghost predicate Tables(s: State) {
    && (forall k | k in s.table.byKey :: s.table.byKey[k] in s.table.byID && s.table.byID[s.table.byKey[k]] == k)
    && (forall i | i in s.table.byID :: s.table.byID[i] in s.table.byKey && s.table.byKey[s.table.byID[i]] == i)
    && (forall i | i in s.table.byID :: i in s.sessions && s.sessions[i].Triple() == s.table.byID[i])
    && (forall i | i in s.sessions :: i <= s.table.nextID && (s.sessions[i].phase.Removed? <==> i !in s.table.byID))
    && (s.table.closed ==> forall i | i in s.table.byID :: s.sessions[i].cancelled)
  }

  // Every dispatch that has found a session names that session's triple.
  ghost predicate Routed(s: State) {
    forall j | j in s.jobs && (s.jobs[j].stage.Found? || s.jobs[j].stage.Decoded? || s.jobs[j].stage.Recorded?) ::
      var job := s.jobs[j];
      job.stage.id in s.sessions && Named(job.channel, job.raw) == Some(s.sessions[job.stage.id].Triple())
  }

  // A session not there yet comes into both tables.
  lemma EnterTables(s: State, key: Key, ms: Peered)
    requires Tables(s) && !s.table.closed && key !in s.table.byKey && ms.Triple() == key && !ms.phase.Removed?
    ensures Tables(s.(table := Entered(s.table, key), sessions := s.sessions[s.table.nextID + 1 := ms]))
  {
    hide KeyOf;
  }

  lemma OpenTables(s: State, ms: Peered)
    requires Tables(s) && ms.phase.Running?
    ensures Tables(OpenedIn(s, ms))
  {
    hide HeldBy, KeyOf, Tables;
    if !Full(s, ms.op) && ms.Triple() !in s.table.byKey {
      EnterTables(s, ms.Triple(), ms);
    }
  }

  lemma CloseTables(s: State)
    requires Tables(s)
    ensures Tables(ClosedIn(s))
  {
  }

  lemma RemoveTables(s: State, id: nat)
    requires Tables(s) && id in s.sessions
    ensures Tables(RemovedIn(s, id))
  {
  }

  // The same tables, and the same of every session that they depend on.
  predicate TablesAlike(s: State, s': State) {
    && s'.limits == s.limits && s'.table == s.table && s'.sessions.Keys == s.sessions.Keys
    && forall i | i in s.sessions :: SessionAlike(s.sessions[i], s'.sessions[i])
  }

  predicate SessionAlike(a: Peered, b: Peered) {
    && b.channel == a.channel && b.local == a.local && b.peer == a.peer && b.op == a.op
    && b.cancelled == a.cancelled && (b.phase.Removed? <==> a.phase.Removed?)
  }

  lemma LocalAlike(s: State, step: Step, id: nat)
    ensures TablesAlike(s, Local(s, step, id))
  {
    hide Enqueued;
  }

  lemma JobAlike(s: State, step: Step, j: nat)
    requires j in s.jobs
    ensures TablesAlike(s, JobStep(s, step, j))
  {
    hide Enqueued, Traversed, LookedUp, DecodedAs;
  }

  lemma OthersAlike(s: State, step: Step)
    requires !step.Open? && !step.Close? && !step.Remove?
    ensures TablesAlike(s, Next(s, step))
  {
    hide Local, JobStep;
    match step
    case SetMod(id, _) => LocalAlike(s, step, id);
    case Take(id) => LocalAlike(s, step, id);
    case End(id) => LocalAlike(s, step, id);
    case Command(id, _) => LocalAlike(s, step, id);
    case Begin(_, _, _) =>
    case Lookup(j) => if j in s.jobs { JobAlike(s, step, j); }
    case ReadMod(j) => if j in s.jobs { JobAlike(s, step, j); }
    case Record(j) => if j in s.jobs { JobAlike(s, step, j); }
    case Submit(j) => if j in s.jobs { JobAlike(s, step, j); }
  }

  lemma AlikeTables(s: State, s': State)
    requires Tables(s) && TablesAlike(s, s')
    ensures Tables(s')
  {
    hide KeyOf;
  }

  lemma TablesStep(s: State, step: Step)
    requires Tables(s)
    ensures Tables(Next(s, step))
  {
    hide Tables, TablesAlike, OpenedIn, ClosedIn, RemovedIn, Local, JobStep, KeyOf;
    match step
    case Open(channel, local, peer, op, m) =>
      OpenTables(s, NewPeered(channel, local, peer, op, m));
    case Close => CloseTables(s);
    case Remove(id) =>
      if id in s.sessions {
        RemoveTables(s, id);
      }
    case _ =>
      OthersAlike(s, step);
      AlikeTables(s, Next(s, step));
  }

  // As many sessions as the limits allow, of every operator and in all.
  ghost predicate WithinLimits(s: State) {
    |s.table.byKey| <= s.limits.total && forall op: string :: |HeldBy(s, op)| <= s.limits.perOperator
  }

  lemma HeldByNew(s: State, ms: Peered, op: string)
    requires Tables(s) && !Full(s, ms.op) && ms.Triple() !in s.table.byKey
    ensures HeldBy(OpenedIn(s, ms), op) == HeldBy(s, op) + if ms.op == op then {ms.Triple()} else {}
  {
    hide KeyOf, Full;
    assert forall k | k in s.table.byKey :: s.table.byKey[k] != s.table.nextID + 1;
  }

  lemma OpenLimits(s: State, ms: Peered)
    requires Tables(s) && WithinLimits(s)
    ensures WithinLimits(OpenedIn(s, ms))
  {
    hide KeyOf, Tables, HeldBy;
    var s' := OpenedIn(s, ms);
    if !Full(s, ms.op) && ms.Triple() !in s.table.byKey {
      assert s'.table.byKey.Keys == s.table.byKey.Keys + {ms.Triple()};
      forall op: string
        ensures |HeldBy(s', op)| <= s.limits.perOperator
      {
        HeldByNew(s, ms, op);
        assert |HeldBy(s, op)| <= s.limits.perOperator;
      }
    }
  }

  // No more keys than before, each still its operator's.
  lemma FewerLimits(s: State, s': State)
    requires WithinLimits(s) && s'.limits == s.limits && s'.table.byKey.Keys <= s.table.byKey.Keys
    requires forall op: string :: HeldBy(s', op) <= HeldBy(s, op)
    ensures WithinLimits(s')
  {
    Smaller(s'.table.byKey.Keys, s.table.byKey.Keys);
    forall op: string
      ensures |HeldBy(s', op)| <= s.limits.perOperator
    {
      Smaller(HeldBy(s', op), HeldBy(s, op));
      assert |HeldBy(s, op)| <= s.limits.perOperator;
    }
  }

  lemma Smaller(a: set<Key>, b: set<Key>)
    requires a <= b
    ensures |a| <= |b|
  {
    assert b == a + (b - a);
  }

  lemma HeldByAlike(s: State, s': State, op: string)
    requires TablesAlike(s, s')
    ensures HeldBy(s', op) == HeldBy(s, op)
  {
  }

  lemma CloseHeldBy(s: State, op: string)
    ensures HeldBy(ClosedIn(s), op) == HeldBy(s, op)
  {
  }

  lemma RemoveHeldBy(s: State, id: nat, op: string)
    requires id in s.sessions
    ensures HeldBy(RemovedIn(s, id), op) <= HeldBy(s, op)
  {
    hide KeyOf;
  }

  lemma LimitsStep(s: State, step: Step)
    requires Tables(s) && WithinLimits(s)
    ensures WithinLimits(Next(s, step)) && Next(s, step).limits == s.limits
  {
    hide Tables, TablesAlike, WithinLimits, HeldBy, OpenedIn, Local, JobStep, KeyOf;
    var s' := Next(s, step);
    match step
    case Open(channel, local, peer, op, m) =>
      OpenLimits(s, NewPeered(channel, local, peer, op, m));
      OpenKeepsLimits(s, NewPeered(channel, local, peer, op, m));
    case Close =>
      forall op: string { CloseHeldBy(s, op); }
      FewerLimits(s, s');
    case Remove(id) =>
      if id in s.sessions {
        forall op: string { RemoveHeldBy(s, id, op); }
        FewerLimits(s, s');
      }
    case _ =>
      OthersAlike(s, step);
      AlikeLimits(s, s');
  }

  lemma OpenKeepsLimits(s: State, ms: Peered)
    ensures OpenedIn(s, ms).limits == s.limits
  {
    hide Full;
  }

  lemma AlikeLimits(s: State, s': State)
    requires WithinLimits(s) && TablesAlike(s, s')
    ensures WithinLimits(s') && s'.limits == s.limits
  {
    hide HeldBy;
    forall op: string
      ensures HeldBy(s', op) <= HeldBy(s, op)
    {
      HeldByAlike(s, s', op);
    }
    FewerLimits(s, s');
  }

  lemma RoutedStep(s: State, step: Step)
    requires Tables(s) && Routed(s)
    ensures Routed(Next(s, step))
  {
    hide Named, Decode, Traversed, Enqueued, KeyOf, Full, HeldBy;
  }

  lemma StartKept(lim: Limits)
    ensures Tables(Start(lim)) && Routed(Start(lim)) && WithinLimits(Start(lim))
  {
    assert forall op: string :: HeldBy(Start(lim), op) == {};
  }

  lemma {:induction false} Kept(lim: Limits, steps: seq<Step>)
    ensures Tables(After(lim, steps)) && Routed(After(lim, steps)) && WithinLimits(After(lim, steps))
    ensures After(lim, steps).limits == lim
    decreases |steps|
  {
    hide Next, Tables, Routed, WithinLimits;
    if steps == [] {
      StartKept(lim);
    } else {
      var front, step := steps[..|steps| - 1], steps[|steps| - 1];
      Kept(lim, front);
      TablesStep(After(lim, front), step);
      RoutedStep(After(lim, front), step);
      LimitsStep(After(lim, front), step);
    }
  }

  // Whatever is opened and removed in between, both limits hold of the table.
  lemma LimitsHold(lim: Limits, steps: seq<Step>, op: string)
    ensures |After(lim, steps).table.byKey| <= lim.total && |HeldBy(After(lim, steps), op)| <= lim.perOperator
  {
    hide After, HeldBy;
    Kept(lim, steps);
  }

  // When a session's goroutine comes to take its entries out, they are its own: whoever
  // opened, closed or ended in between, the key still leads to it and its id to the key,
  // and every other session stays where it was.
  lemma RemovesItsOwn(lim: Limits, steps: seq<Step>, id: nat)
    requires id in After(lim, steps).sessions && After(lim, steps).sessions[id].phase.Ended?
    ensures var (t, key) := (After(lim, steps).table, After(lim, steps).sessions[id].Triple());
            && key in t.byKey && t.byKey[key] == id && id in t.byID && t.byID[id] == key && Paired(t, key, id)
    ensures var (t, t') := (After(lim, steps).table, Next(After(lim, steps), Remove(id)).table);
            && id !in t'.byID && After(lim, steps).sessions[id].Triple() !in t'.byKey
            && forall k | k in t.byKey && t.byKey[k] != id :: k in t'.byKey && t'.byKey[k] == t.byKey[k]
  {
    hide After;
    Kept(lim, steps);
  }

  // After a close every session still in the tables has been told to stop.
  lemma ClosedCancelsAll(lim: Limits, steps: seq<Step>, id: nat)
    requires After(lim, steps).table.closed && id in After(lim, steps).sessions && !After(lim, steps).sessions[id].phase.Removed?
    ensures After(lim, steps).sessions[id].cancelled
  {
    hide After;
    Kept(lim, steps);
  }

  // ----- where a frame goes -----

  // Step l is the lookup of dispatch j, for these octets, and it finds session id in the table.
  ghost predicate LooksUp(lim: Limits, steps: seq<Step>, l: nat, j: nat, channel: int, raw: seq<U8>, id: nat) {
    && l < |steps| && steps[l] == Lookup(j)
    && var (s, key) := (After(lim, steps[..l]), Named(channel, raw));
    && j in s.jobs && s.jobs[j] == Job(channel, raw, Started)
    && id in s.sessions && key == Some(s.sessions[id].Triple())
    && key.value in s.table.byKey && s.table.byKey[key.value] == id
  }

  // Step m reads the modulus of session id for dispatch j, and the octets decode so.
  ghost predicate ReadsMod(lim: Limits, steps: seq<Step>, m: nat, j: nat, channel: int, raw: seq<U8>, id: nat, f: Frame) {
    && m < |steps| && steps[m] == ReadMod(j)
    && var s := After(lim, steps[..m]);
    && j in s.jobs && s.jobs[j] == Job(channel, raw, Found(id)) && id in s.sessions
    && Decode(raw, s.sessions[id].mod128) == Ok(f)
  }

  ghost predicate WasFound(lim: Limits, steps: seq<Step>, j: nat, channel: int, raw: seq<U8>, id: nat) {
    exists l: nat :: LooksUp(lim, steps, l, j, channel, raw, id)
  }

  ghost predicate WasDecoded(lim: Limits, steps: seq<Step>, j: nat, channel: int, raw: seq<U8>, id: nat, f: Frame) {
    exists m: nat :: ReadsMod(lim, steps, m, j, channel, raw, id, f)
  }

  // What the stage of a dispatch says about the steps taken.
  ghost predicate Accounted(lim: Limits, steps: seq<Step>, j: nat, job: Job) {
    match job.stage
    case Started => true
    case Found(id) => WasFound(lim, steps, j, job.channel, job.raw, id)
    case Decoded(id, f) => WasDecoded(lim, steps, j, job.channel, job.raw, id, f)
    case Recorded(id, f) => WasDecoded(lim, steps, j, job.channel, job.raw, id, f)
    case Done => true
  }

  lemma StillAccounted(lim: Limits, steps: seq<Step>, step: Step, j: nat, job: Job)
    requires Accounted(lim, steps, j, job)
    ensures Accounted(lim, steps + [step], j, job)
  {
    hide After, Named;
    var more := steps + [step];
    assert forall n: nat | n <= |steps| :: more[..n] == steps[..n];
    if job.stage.Found? {
      var l: nat :| LooksUp(lim, steps, l, j, job.channel, job.raw, job.stage.id);
      assert LooksUp(lim, more, l, j, job.channel, job.raw, job.stage.id);
    } else if job.stage.Decoded? || job.stage.Recorded? {
      var m: nat :| ReadsMod(lim, steps, m, j, job.channel, job.raw, job.stage.id, job.stage.frame);
      assert ReadsMod(lim, more, m, j, job.channel, job.raw, job.stage.id, job.stage.frame);
    }
  }

  // A step leaves a dispatch alone, or is its own next one.
  lemma JobMoves(s: State, step: Step, j: nat)
    requires j in Next(s, step).jobs
    ensures j in s.jobs ==> Next(s, step).jobs[j] == s.jobs[j] || Moved(s, step, j, s.jobs[j], Next(s, step).jobs[j])
    ensures j !in s.jobs ==> Next(s, step).jobs[j].stage.Started?
  {
    hide Decode, Named, Traversed, Enqueued;
  }

  predicate Moved(s: State, step: Step, j: nat, job: Job, job': Job) {
    && job' == job.(stage := job'.stage)
    && match job'.stage
       case Started => false
       case Found(id) => step == Lookup(j) && job.stage.Started? && LookedUp(s, job) == Found(id)
       case Decoded(id, f) =>
         step == ReadMod(j) && job.stage == Found(id) && id in s.sessions && Decode(job.raw, s.sessions[id].mod128) == Ok(f)
       case Recorded(id, f) => job.stage == Decoded(id, f)
       case Done => true
  }

  lemma {:induction false} History(lim: Limits, steps: seq<Step>, j: nat)
    requires j in After(lim, steps).jobs
    ensures Accounted(lim, steps, j, After(lim, steps).jobs[j])
    decreases |steps|
  {
    hide Next, Accounted;
    assert steps != [] by { NoJobsYet(lim); }
    var front, step := steps[..|steps| - 1], steps[|steps| - 1];
    assert steps == front + [step];
    var s, job := After(lim, front), After(lim, steps).jobs[j];
    JobMoves(s, step, j);
    if j !in s.jobs {
      StartedAccounted(lim, steps, j, job);
    } else {
      History(lim, front, j);
      if job == s.jobs[j] {
        StillAccounted(lim, front, step, j, job);
      } else {
        MoveAccounted(lim, front, step, j, job);
      }
    }
  }

  lemma NoJobsYet(lim: Limits)
    ensures After(lim, []).jobs == map[]
  {
  }

  lemma StartedAccounted(lim: Limits, steps: seq<Step>, j: nat, job: Job)
    requires job.stage.Started?
    ensures Accounted(lim, steps, j, job)
  {
  }

  lemma MoveAccounted(lim: Limits, front: seq<Step>, step: Step, j: nat, job: Job)
    requires j in After(lim, front).jobs && Accounted(lim, front, j, After(lim, front).jobs[j])
    requires Moved(After(lim, front), step, j, After(lim, front).jobs[j], job)
    ensures Accounted(lim, front + [step], j, job)
  {
    hide After, Named, Decode;
    var steps, s, was := front + [step], After(lim, front), After(lim, front).jobs[j];
    assert steps[..|front|] == front;
    if job.stage.Found? {
      Kept(lim, front);
      assert LooksUp(lim, steps, |front|, j, job.channel, job.raw, job.stage.id);
    } else if job.stage.Decoded? {
      assert was == Job(job.channel, job.raw, Found(job.stage.id));
      assert ReadsMod(lim, steps, |front|, j, job.channel, job.raw, job.stage.id, job.stage.frame);
    } else if job.stage.Recorded? {
      StillAccounted(lim, front, step, j, was);
    }
  }

  // Dispatch j looked session id up at one step, and at a later one, before n, read its
  // modulus and decoded these octets with it.
  ghost predicate Chain(lim: Limits, steps: seq<Step>, n: nat, j: nat, channel: int, raw: seq<U8>, id: nat, f: Frame) {
    exists l: nat, m: nat ::
      l < m < n && LooksUp(lim, steps, l, j, channel, raw, id) && ReadsMod(lim, steps, m, j, channel, raw, id, f)
  }

  // What a frame's stations have to do with those of a session between valid ones: they
  // read as its own, and are its own exactly when the SSIDs are and neither is marked.
  predicate ForStations(ms: Peered, f: Frame) {
    A.Valid(ms.local) && A.Valid(ms.peer) ==>
      && ReadsAs(f.dest, ms.local) && ReadsAs(f.source, ms.peer)
      && (f.dest == ms.local && f.source == ms.peer
          <==> f.dest.ssid == ms.local.ssid && f.source.ssid == ms.peer.ssid && !ms.local.repeated && !ms.peer.repeated)
  }

  lemma HeaderStations(raw: seq<U8>, mod128: bool, f: Frame)
    requires Decode(raw, mod128) == Ok(f)
    ensures var hdr := A.DecodeBlock(raw);
            && hdr.Ok? && hdr.value.dest == f.dest && hdr.value.source == f.source
            && f.dest.ssid < 16 && f.source.ssid < 16 && !f.dest.repeated && !f.source.repeated
  {
  }

  lemma FrameStations(ms: Peered, channel: int, raw: seq<U8>, mod128: bool, f: Frame)
    requires Decode(raw, mod128) == Ok(f) && Named(channel, raw) == Some(ms.Triple())
    ensures ForStations(ms, f) && (A.Valid(ms.local) && A.Valid(ms.peer) ==> channel == ms.channel)
  {
    hide Decode, A.DecodeBlock, Text;
    HeaderStations(raw, mod128, f);
    if A.Valid(ms.local) && A.Valid(ms.peer) {
      KeyIff(channel, f.dest, f.source, ms.channel, ms.local, ms.peer);
    }
  }

  lemma DeliveryMoves(s: State, step: Step, j: nat)
    requires j in s.jobs && var stage := s.jobs[j].stage;
             (step == Record(j) && stage.Decoded?) || (step == Submit(j) && stage.Recorded?)
    requires s.jobs[j].stage.id in s.sessions
    ensures var (s', id, f) := (Next(s, step), s.jobs[j].stage.id, s.jobs[j].stage.frame);
            && s'.table == s.table
            && s'.sessions == s.sessions[id := if step.Record? then s.sessions[id].(path := Traversed(f.path))
                                               else s.sessions[id].(inbox := Enqueued(s.sessions[id].inbox, LapbSpec.FrameRX(Some(f))))]
  {
    hide Traversed, Enqueued;
  }

  // A path is recorded and a frame submitted only so, and to no session but that one.
  lemma Delivered(lim: Limits, steps: seq<Step>, n: nat, j: nat)
    requires n < |steps| && j in After(lim, steps[..n]).jobs
    requires var stage := After(lim, steps[..n]).jobs[j].stage;
             (steps[n] == Record(j) && stage.Decoded?) || (steps[n] == Submit(j) && stage.Recorded?)
    ensures var (s, s') := (After(lim, steps[..n]), Next(After(lim, steps[..n]), steps[n]));
            var (job, id, f) := (s.jobs[j], s.jobs[j].stage.id, s.jobs[j].stage.frame);
            && Chain(lim, steps, n, j, job.channel, job.raw, id, f)
            && id in s.sessions && Named(job.channel, job.raw) == Some(s.sessions[id].Triple())
            && ForStations(s.sessions[id], f)
            && s'.table == s.table
            && s'.sessions == s.sessions[id := if steps[n].Record? then s.sessions[id].(path := Traversed(f.path))
                                               else s.sessions[id].(inbox := Enqueued(s.sessions[id].inbox, LapbSpec.FrameRX(Some(f))))]
  {
    hide After, Named, Decode, Next, KeyOf, Traversed, Enqueued, Tables, ForStations;
    var before, job := steps[..n], After(lim, steps[..n]).jobs[j];
    var (id, f) := (job.stage.id, job.stage.frame);
    Kept(lim, before);
    History(lim, before, j);
    var m: nat :| ReadsMod(lim, before, m, j, job.channel, job.raw, id, f);
    assert before[..m] == steps[..m];
    History(lim, before[..m], j);
    var l: nat :| LooksUp(lim, before[..m], l, j, job.channel, job.raw, id);
    assert before[..m][..l] == steps[..l];
    assert LooksUp(lim, steps, l, j, job.channel, job.raw, id) && ReadsMod(lim, steps, m, j, job.channel, job.raw, id, f);
    DeliveryMoves(After(lim, before), steps[n], j);
    FrameStations(After(lim, before).sessions[id], job.channel, job.raw, After(lim, steps[..m]).sessions[id].mod128, f);
  }

  lemma {:induction false} LooksUpOnce(lim: Limits, steps: seq<Step>, l: nat, n: nat, j: nat, channel: int, raw: seq<U8>, id: nat)
    requires l < n <= |steps| && LooksUp(lim, steps, l, j, channel, raw, id)
    ensures j in After(lim, steps[..n]).jobs && !After(lim, steps[..n]).jobs[j].stage.Started?
    decreases n
  {
    hide After, Next, Named;
    assert steps[..n] == steps[..n - 1] + [steps[n - 1]];
    AfterSnoc(lim, steps[..n - 1], steps[n - 1]);
    if n == l + 1 {
      LookupMoves(After(lim, steps[..l]), j, id);
    } else {
      LooksUpOnce(lim, steps, l, n - 1, j, channel, raw, id);
      JobStays(After(lim, steps[..n - 1]), steps[n - 1], j);
      JobMoves(After(lim, steps[..n - 1]), steps[n - 1], j);
    }
  }

  lemma LookupMoves(s: State, j: nat, id: nat)
    requires j in s.jobs && s.jobs[j].stage.Started?
    ensures j in Next(s, Lookup(j)).jobs && !Next(s, Lookup(j)).jobs[j].stage.Started?
  {
  }

  lemma JobStays(s: State, step: Step, j: nat)
    requires j in s.jobs
    ensures j in Next(s, step).jobs
  {
    hide Decode, Named, Traversed, Enqueued;
  }

  // A session opened after the lookup gets nothing of the frame, whatever its key.
  lemma OpenedLaterGetsNothing(lim: Limits, steps: seq<Step>, l: nat, n: nat, j: nat, channel: int, raw: seq<U8>, id: nat, other: nat)
    requires l < n < |steps| && LooksUp(lim, steps, l, j, channel, raw, id)
    requires steps[n] == Record(j) || steps[n] == Submit(j)
    requires other in After(lim, steps[..n]).sessions && other !in After(lim, steps[..l]).sessions
    ensures Next(After(lim, steps[..n]), steps[n]).sessions[other] == After(lim, steps[..n]).sessions[other]
  {
    hide After, Named, Decode, Next;
    var s := After(lim, steps[..n]);
    LooksUpOnce(lim, steps, l, n, j, channel, raw, id);
    var stage := s.jobs[j].stage;
    if (steps[n].Record? && stage.Decoded?) || (steps[n].Submit? && stage.Recorded?) {
      Delivered(lim, steps, n, j);
      var job := s.jobs[j];
      var l': nat, m: nat :| l' < m < n && LooksUp(lim, steps, l', j, job.channel, job.raw, stage.id)
                             && ReadsMod(lim, steps, m, j, job.channel, job.raw, stage.id, stage.frame);
      if l' < l {
        LooksUpOnce(lim, steps, l', l, j, job.channel, job.raw, stage.id);
      } else if l < l' {
        LooksUpOnce(lim, steps, l, l', j, channel, raw, id);
      }
    } else {
      OutOfTurn(s, steps[n], j);
    }
  }

  lemma OutOfTurn(s: State, step: Step, j: nat)
    requires j in s.jobs && (step == Record(j) || step == Submit(j))
    requires !(step.Record? && s.jobs[j].stage.Decoded?) && !(step.Submit? && s.jobs[j].stage.Recorded?)
    ensures Next(s, step) == s
  {
  }

  // Every frame waiting in a session's queue asked for that session's triple and was
  // decoded with a modulus the session had when the frame's dispatch read it.
  ghost predicate OwnFrame(lim: Limits, steps: seq<Step>, id: nat, key: Key, ev: LapbSpec.Event) {
    ev.FrameRX? ==>
      ev.frame.Some? && exists j: nat, channel, raw ::
                          Named(channel, raw) == Some(key) && WasDecoded(lim, steps, j, channel, raw, id, ev.frame.value)
  }

  lemma StillOwn(lim: Limits, steps: seq<Step>, step: Step, id: nat, key: Key, ev: LapbSpec.Event)
    requires OwnFrame(lim, steps, id, key, ev)
    ensures OwnFrame(lim, steps + [step], id, key, ev)
  {
    hide After, Named, Decode;
    if ev.FrameRX? {
      var f := ev.frame.value;
      var j: nat, channel, raw :| Named(channel, raw) == Some(key) && WasDecoded(lim, steps, j, channel, raw, id, f);
      StillAccounted(lim, steps, step, j, Job(channel, raw, Decoded(id, f)));
    }
  }

  // What one step can add to a queue.
  lemma QueueMoves(s: State, step: Step, id: nat, ev: LapbSpec.Event)
    requires id in Next(s, step).sessions && ev in Next(s, step).sessions[id].inbox
    ensures (id in s.sessions && ev in s.sessions[id].inbox) || !ev.FrameRX?
            || (step.Submit? && step.j in s.jobs && ev.frame.Some? && s.jobs[step.j].stage == Recorded(id, ev.frame.value))
    ensures id in s.sessions ==> Next(s, step).sessions[id].Triple() == s.sessions[id].Triple()
  {
    hide Decode, Named, Traversed;
  }

  lemma {:induction false} OnlyOwnFrames(lim: Limits, steps: seq<Step>, id: nat, ev: LapbSpec.Event)
    requires id in After(lim, steps).sessions && ev in After(lim, steps).sessions[id].inbox
    ensures OwnFrame(lim, steps, id, After(lim, steps).sessions[id].Triple(), ev)
    decreases |steps|
  {
    hide Next, Named, OwnFrame;
    assert steps != [] by { NoSessionsYet(lim); }
    var front, step := steps[..|steps| - 1], steps[|steps| - 1];
    assert steps == front + [step];
    var s, key := After(lim, front), After(lim, steps).sessions[id].Triple();
    QueueMoves(s, step, id, ev);
    if id in s.sessions && ev in s.sessions[id].inbox {
      OnlyOwnFrames(lim, front, id, ev);
      StillOwn(lim, front, step, id, key, ev);
    } else if ev.FrameRX? {
      Kept(lim, front);
      SubmittedOwn(lim, front, step.j, id, ev.frame.value);
      StillOwn(lim, front, step, id, key, ev);
    } else {
      CommandOwn(lim, steps, id, key, ev);
    }
  }

  // So, between valid stations, each reads as a frame of theirs.
  lemma OwnStations(lim: Limits, steps: seq<Step>, id: nat, ev: LapbSpec.Event)
    requires id in After(lim, steps).sessions && ev in After(lim, steps).sessions[id].inbox && ev.FrameRX?
    ensures ev.frame.Some? && ForStations(After(lim, steps).sessions[id], ev.frame.value)
  {
    hide After, Named, Decode, ForStations, KeyOf;
    var ms := After(lim, steps).sessions[id];
    OnlyOwnFrames(lim, steps, id, ev);
    var f := ev.frame.value;
    var j: nat, channel, raw :| Named(channel, raw) == Some(ms.Triple()) && WasDecoded(lim, steps, j, channel, raw, id, f);
    var m: nat :| ReadsMod(lim, steps, m, j, channel, raw, id, f);
    FrameStations(ms, channel, raw, After(lim, steps[..m]).sessions[id].mod128, f);
  }

  lemma NoSessionsYet(lim: Limits)
    ensures After(lim, []).sessions == map[]
  {
  }

  lemma CommandOwn(lim: Limits, steps: seq<Step>, id: nat, key: Key, ev: LapbSpec.Event)
    requires !ev.FrameRX?
    ensures OwnFrame(lim, steps, id, key, ev)
  {
  }

  lemma SubmittedOwn(lim: Limits, front: seq<Step>, j: nat, id: nat, f: Frame)
    requires j in After(lim, front).jobs && After(lim, front).jobs[j].stage == Recorded(id, f)
    ensures id in After(lim, front).sessions && OwnFrame(lim, front, id, After(lim, front).sessions[id].Triple(), LapbSpec.FrameRX(Some(f)))
  {
    hide After, Named, WasDecoded;
    Kept(lim, front);
    History(lim, front, j);
    var job := After(lim, front).jobs[j];
    assert Named(job.channel, job.raw) == Some(After(lim, front).sessions[id].Triple()) && WasDecoded(lim, front, j, job.channel, job.raw, id, f);
  }

  // ----- the path last recorded -----

  // The frame whose path step n records for session id.
  ghost function RecordedAt(lim: Limits, steps: seq<Step>, n: nat, id: nat): Option<Frame>
    requires n < |steps|
  {
    var (s, step) := (After(lim, steps[..n]), steps[n]);
    if step.Record? && step.j in s.jobs && s.jobs[step.j].stage.Decoded? && s.jobs[step.j].stage.id == id
    then Some(s.jobs[step.j].stage.frame) else None
  }

  // What the manager's LastPath answers.
  function LastPathOf(s: State, id: nat): seq<A.Address> {
    if id in s.table.byID && id in s.sessions then s.sessions[id].path else []
  }

  lemma PathMoves(s: State, step: Step, id: nat)
    requires Tables(s) && Routed(s) && id in Next(s, step).sessions
    ensures var path := Next(s, step).sessions[id].path;
            if step.Record? && step.j in s.jobs && s.jobs[step.j].stage.Decoded? && s.jobs[step.j].stage.id == id
            then path == Traversed(s.jobs[step.j].stage.frame.path)
            else if id in s.sessions then path == s.sessions[id].path else path == []
  {
    hide Named, Decode, Traversed, Enqueued, KeyOf, Full;
  }

  ghost predicate PathSays(lim: Limits, steps: seq<Step>, id: nat, path: seq<A.Address>) {
    && ((forall n: nat | n < |steps| :: RecordedAt(lim, steps, n, id).None?) ==> path == [])
    && forall n: nat | n < |steps| && RecordedAt(lim, steps, n, id).Some?
                       && (forall m: nat | n < m < |steps| :: RecordedAt(lim, steps, m, id).None?) ::
         path == Traversed(RecordedAt(lim, steps, n, id).value.path)
  }

  lemma {:induction false} PathIs(lim: Limits, steps: seq<Step>, id: nat)
    requires id in After(lim, steps).sessions
    ensures PathSays(lim, steps, id, After(lim, steps).sessions[id].path)
    decreases |steps|
  {
    hide Next, Tables, Routed, Traversed;
    assert steps != [] by { NoSessionsYet(lim); }
    var last := |steps| - 1;
    var front := steps[..last];
    Kept(lim, front);
    PathMoves(After(lim, front), steps[last], id);
    forall n: nat | n < last
      ensures RecordedAt(lim, steps, n, id) == RecordedAt(lim, front, n, id)
    {
      assert steps[..n] == front[..n];
    }
    var path := After(lim, steps).sessions[id].path;
    if RecordedAt(lim, steps, last, id).Some? {
      assert path == Traversed(RecordedAt(lim, steps, last, id).value.path);
    } else {
      if id in After(lim, front).sessions {
        PathIs(lim, front, id);
      } else {
        NeverRecorded(lim, front, id);
      }
      assert PathSays(lim, front, id, path);
    }
    hide After, RecordedAt;
    PathSaysMore(lim, front, steps, id, path);
  }

  lemma PathSaysMore(lim: Limits, front: seq<Step>, steps: seq<Step>, id: nat, path: seq<A.Address>)
    requires |steps| == |front| + 1
    requires forall n: nat | n < |front| :: RecordedAt(lim, steps, n, id) == RecordedAt(lim, front, n, id)
    requires var f := RecordedAt(lim, steps, |front|, id);
             if f.Some? then path == Traversed(f.value.path) else PathSays(lim, front, id, path)
    ensures PathSays(lim, steps, id, path)
  {
    hide RecordedAt, Traversed;
    forall n: nat | n < |steps| && RecordedAt(lim, steps, n, id).Some?
                    && (forall m: nat | n < m < |steps| :: RecordedAt(lim, steps, m, id).None?)
      ensures path == Traversed(RecordedAt(lim, steps, n, id).value.path)
    {
      if n < |front| {
        assert RecordedAt(lim, steps, |front|, id).None?;
        assert forall m: nat | n < m < |front| :: RecordedAt(lim, front, m, id).None?;
      }
    }
  }

  // Nothing is recorded for a session that has never been.
  lemma {:induction false} NeverRecorded(lim: Limits, steps: seq<Step>, id: nat)
    requires id !in After(lim, steps).sessions
    ensures forall n: nat | n < |steps| :: RecordedAt(lim, steps, n, id).None?
    decreases |steps|
  {
    hide Next, Tables, Routed;
    if steps != [] {
      var last := |steps| - 1;
      var front := steps[..last];
      Kept(lim, front);
      SessionsStay(After(lim, front), steps[last]);
      NeverRecorded(lim, front, id);
      forall n: nat | n < |steps|
        ensures RecordedAt(lim, steps, n, id).None?
      {
        if n < last {
          assert steps[..n] == front[..n];
          assert RecordedAt(lim, front, n, id).None?;
        } else {
          NotRouted(After(lim, front), id);
        }
      }
    }
  }

  lemma SessionsStay(s: State, step: Step)
    ensures s.sessions.Keys <= Next(s, step).sessions.Keys
  {
    hide Named, Decode, Traversed, Enqueued, KeyOf, Full;
  }

  lemma NotRouted(s: State, id: nat)
    requires Routed(s) && id !in s.sessions
    ensures forall j | j in s.jobs && s.jobs[j].stage.Decoded? :: s.jobs[j].stage.id != id
  {
  }

  // In every interleaving LastPath is the path of the frame recorded last for a session
  // still in the tables, and empty before the first and for every other id.
  lemma LastPathIsLatest(lim: Limits, steps: seq<Step>, id: nat)
    ensures var (s, path) := (After(lim, steps), LastPathOf(After(lim, steps), id));
            if id in s.table.byID then PathSays(lim, steps, id, path) else path == []
  {
    hide After, PathSays;
    Kept(lim, steps);
    if id in After(lim, steps).table.byID {
      PathIs(lim, steps, id);
    }
  }

  // ----- concrete runs -----

  lemma AfterNext(lim: Limits, steps: seq<Step>, n: nat)
    requires n < |steps|
    ensures After(lim, steps[..n + 1]) == Next(After(lim, steps[..n]), steps[n])
  {
    assert steps[..n + 1] == steps[..n] + [steps[n]];
    AfterSnoc(lim, steps[..n], steps[n]);
  }

  // One session opened and one dispatch begun, with that session found.
  function Sought(ms: Peered, raw: seq<U8>): seq<Step> {
    [Open(ms.channel, ms.local, ms.peer, ms.op, ms.mod128), Begin(0, ms.channel, raw), Lookup(0)]
  }

  predicate Opens(lim: Limits, ms: Peered) {
    lim.perOperator > 0 && lim.total > 0 && ms == NewPeered(ms.channel, ms.local, ms.peer, ms.op, ms.mod128)
  }

  lemma OpensFirst(lim: Limits, ms: Peered)
    requires Opens(lim, ms)
    ensures OpenedIn(Start(lim), ms)
            == State(lim, Table(map[ms.Triple() := 1], map[1 := ms.Triple()], 1, false), map[1 := ms], map[])
  {
    assert HeldBy(Start(lim), ms.op) == {};
  }

  lemma SoughtFinds(lim: Limits, ms: Peered, raw: seq<U8>, steps: seq<Step>)
    requires Opens(lim, ms) && Named(ms.channel, raw) == Some(ms.Triple()) && Sought(ms, raw) <= steps
    ensures After(lim, steps[..3])
            == State(lim, Table(map[ms.Triple() := 1], map[1 := ms.Triple()], 1, false), map[1 := ms],
                     map[0 := Job(ms.channel, raw, Found(1))])
  {
    hide Named, After, KeyOf, OpenedIn;
    assert After(lim, steps[..0]) == Start(lim) by { NothingYet(lim); }
    AfterNext(lim, steps, 0);
    OpensFirst(lim, ms);
    AfterNext(lim, steps, 1);
    AfterNext(lim, steps, 2);
  }

  // The race itself: between the lookup and the rest of the dispatch the session ends and
  // the triple is opened again in the other modulus. The frame goes to the one that ended,
  // decoded for it, and the new one gets nothing.
  function Reopening(ms: Peered, raw: seq<U8>): seq<Step> {
    Sought(ms, raw) + [End(1), Remove(1), Open(ms.channel, ms.local, ms.peer, ms.op, !ms.mod128),
                       ReadMod(0), Record(0), Submit(0)]
  }

  lemma Freed(lim: Limits, ms: Peered, raw: seq<U8>)
    requires Opens(lim, ms) && Named(ms.channel, raw) == Some(ms.Triple())
    ensures After(lim, Reopening(ms, raw)[..5])
            == State(lim, Table(map[], map[], 1, false), map[1 := ms.(phase := Removed)],
                     map[0 := Job(ms.channel, raw, Found(1))])
  {
    hide Named, After, KeyOf;
    var r, key := Reopening(ms, raw), ms.Triple();
    SoughtFinds(lim, ms, raw, r);
    AfterNext(lim, r, 3);
    AfterNext(lim, r, 4);
    assert map[key := 1] - {key} == map[] && map[1 := key] - {1} == map[];
  }

  lemma OpensAgain(s: State, ms: Peered)
    requires s.limits.perOperator > 0 && s.limits.total > 0 && s.table == Table(map[], map[], 1, false)
    ensures OpenedIn(s, ms)
            == s.(table := Table(map[ms.Triple() := 2], map[2 := ms.Triple()], 2, false), sessions := s.sessions[2 := ms])
  {
    assert HeldBy(s, ms.op) == {};
  }

  // The rest of a dispatch that has found a session, with nothing in between.
  lemma Finishes(s: State, channel: int, raw: seq<U8>, id: nat)
    requires s.jobs == map[0 := Job(channel, raw, Found(id))] && id in s.sessions
    requires Decode(raw, s.sessions[id].mod128).Ok?
    ensures var (t, ms, f) := (Next(Next(Next(s, ReadMod(0)), Record(0)), Submit(0)), s.sessions[id],
                               Decode(raw, s.sessions[id].mod128).value);
            && t.table == s.table
            && t.sessions == s.sessions[id := ms.(inbox := Enqueued(ms.inbox, LapbSpec.FrameRX(Some(f))), path := Traversed(f.path))]
  {
    hide Decode, Traversed, Enqueued;
    var ms, f := s.sessions[id], Decode(raw, s.sessions[id].mod128).value;
    assert Next(s, ReadMod(0)) == s.(jobs := map[0 := Job(channel, raw, Decoded(id, f))]);
    var t := Next(Next(s, ReadMod(0)), Record(0));
    assert t == s.(jobs := map[0 := Job(channel, raw, Recorded(id, f))],
                   sessions := s.sessions[id := ms.(path := Traversed(f.path))]);
  }

  lemma ReopenedGetsNothing(lim: Limits, ms: Peered, raw: seq<U8>)
    requires Opens(lim, ms) && Named(ms.channel, raw) == Some(ms.Triple()) && Decode(raw, ms.mod128).Ok?
    ensures var s := After(lim, Reopening(ms, raw));
            && s.table.byKey == map[ms.Triple() := 2] && s.sessions.Keys == {1, 2}
            && s.sessions[1].inbox == [LapbSpec.FrameRX(Some(Decode(raw, ms.mod128).value))]
            && s.sessions[2] == ms.(mod128 := !ms.mod128)
  {
    hide Named, Decode, Traversed, After, KeyOf, OpenedIn, Next;
    var r, ms' := Reopening(ms, raw), ms.(mod128 := !ms.mod128);
    Freed(lim, ms, raw);
    AfterNext(lim, r, 5);
    OpensAgain(After(lim, r[..5]), ms');
    OpenIs(After(lim, r[..5]), ms');
    AfterNext(lim, r, 6);
    AfterNext(lim, r, 7);
    AfterNext(lim, r, 8);
    assert r[..9] == r;
    Finishes(After(lim, r[..6]), ms.channel, raw, 1);
  }

  lemma OpenIs(s: State, ms: Peered)
    requires ms == NewPeered(ms.channel, ms.local, ms.peer, ms.op, ms.mod128)
    ensures Next(s, Open(ms.channel, ms.local, ms.peer, ms.op, ms.mod128)) == OpenedIn(s, ms)
  {
    hide OpenedIn;
  }

  // What nothing comes between goes to the session and changes its queue and path only.
  lemma Undisturbed(lim: Limits, ms: Peered, raw: seq<U8>)
    requires Opens(lim, ms) && Named(ms.channel, raw) == Some(ms.Triple()) && Decode(raw, ms.mod128).Ok?
    ensures var f := Decode(raw, ms.mod128).value;
            var s := After(lim, Sought(ms, raw) + [ReadMod(0), Record(0), Submit(0)]);
            && s.sessions.Keys == {1}
            && s.sessions[1] == ms.(inbox := [LapbSpec.FrameRX(Some(f))], path := Traversed(f.path))
  {
    hide Named, Decode, Traversed, After, KeyOf, Next;
    var r := Sought(ms, raw) + [ReadMod(0), Record(0), Submit(0)];
    SoughtFinds(lim, ms, raw, r);
    AfterNext(lim, r, 3);
    AfterNext(lim, r, 4);
    AfterNext(lim, r, 5);
    assert r[3] == ReadMod(0) && r[4] == Record(0) && r[5] == Submit(0);
    assert r[..6] == r;
    Finishes(After(lim, r[..3]), ms.channel, raw, 1);
  }

  lemma NothingYet(lim: Limits)
    ensures After(lim, []) == Start(lim)
  {
  }

  // An RR whose destination field reads AB-1 with an SSID of zero, from CD.
  const SPELT_OUT: seq<U8> := [130, 132, 90, 98, 64, 64, 0xe0, 134, 136, 64, 64, 64, 64, 0x61, 0x11]

  const AB_1 := A.Address([65, 66], 1, false)
  const CD := A.Address([67, 68], 0, false)
  const AB_DASH_1 := A.Address([65, 66, 45, 49], 0, false)

  lemma UnshiftCons(c: U8, s: seq<U8>)
    ensures A.Unshift([c] + s) == (if c / 2 == A.SPACE then [] else [c / 2]) + A.Unshift(s)
  {
    assert ([c] + s)[1..] == s;
  }

  lemma Padding()
    ensures A.Unshift([64, 64]) == []
  {
    UnshiftCons(64, [64]);
    UnshiftCons(64, []);
    assert [64] + [64] == [64, 64] && [64] + [] == [64];
  }

  lemma SixOctets(a: U8, b: U8, c: U8, d: U8)
    ensures A.Unshift([a, b, c, d, 64, 64])
            == (if a / 2 == A.SPACE then [] else [a / 2]) + ((if b / 2 == A.SPACE then [] else [b / 2])
               + ((if c / 2 == A.SPACE then [] else [c / 2]) + ((if d / 2 == A.SPACE then [] else [d / 2]) + [])))
  {
    hide A.Unshift;
    Padding();
    UnshiftCons(d, [64, 64]);
    assert [d] + [64, 64] == [d, 64, 64];
    UnshiftCons(c, [d, 64, 64]);
    assert [c] + [d, 64, 64] == [c, d, 64, 64];
    UnshiftCons(b, [c, d, 64, 64]);
    assert [b] + [c, d, 64, 64] == [b, c, d, 64, 64];
    UnshiftCons(a, [b, c, d, 64, 64]);
    assert [a] + [b, c, d, 64, 64] == [a, b, c, d, 64, 64];
  }

  lemma DestinationField()
    ensures A.DecodeAddr([130, 132, 90, 98, 64, 64, 0xe0]).(repeated := false) == AB_DASH_1
  {
    hide A.Unshift;
    SixOctets(130, 132, 90, 98);
    assert [130, 132, 90, 98, 64, 64, 0xe0][..6] == [130, 132, 90, 98, 64, 64];
    assert [65] + ([66] + ([45] + ([49] + []))) == [65, 66, 45, 49];
    assert A.ToUpper([65, 66, 45, 49]) == [65, 66, 45, 49];
  }

  lemma SourceField()
    ensures A.DecodeAddr([134, 136, 64, 64, 64, 64, 0x61]).(repeated := false) == CD
  {
    hide A.Unshift;
    SixOctets(134, 136, 64, 64);
    assert [134, 136, 64, 64, 64, 64, 0x61][..6] == [134, 136, 64, 64, 64, 64];
    assert [67] + ([68] + ([] + ([] + []))) == [67, 68];
    assert A.ToUpper([67, 68]) == [67, 68];
  }

  lemma SpeltOutIs()
    ensures A.DecodeBlock(SPELT_OUT) == Ok(A.AddressBlock(CD, AB_DASH_1, [], true, 14))
  {
    hide A.DecodeAddr;
    DestinationField();
    SourceField();
    var raw := SPELT_OUT;
    assert raw[..7] == [130, 132, 90, 98, 64, 64, 0xe0] && raw[7..14] == [134, 136, 64, 64, 64, 64, 0x61];
  }

  lemma SpeltOutDecodes()
    ensures Decode(SPELT_OUT, false).Ok? && Decode(SPELT_OUT, false).value.dest == AB_DASH_1 != AB_1
  {
    hide A.DecodeBlock;
    SpeltOutIs();
    assert SPELT_OUT[14..15] == [0x11];
  }

  // The session of AB-1, SSID 1, with CD is handed that frame.
  lemma SpeltOutTaken(lim: Limits, channel: int, op: string)
    requires lim.perOperator > 0 && lim.total > 0
    ensures var ms := NewPeered(channel, AB_1, CD, op, false);
            var s := After(lim, Sought(ms, SPELT_OUT) + [ReadMod(0), Record(0), Submit(0)]);
            && 1 in s.sessions && s.sessions[1].local == AB_1
            && s.sessions[1].inbox == [LapbSpec.FrameRX(Some(Decode(SPELT_OUT, false).value))]
            && Decode(SPELT_OUT, false).value.dest == AB_DASH_1 != AB_1
  {
    hide Decode, After, Traversed;
    var ms := NewPeered(channel, AB_1, CD, op, false);
    SpeltOutDecodes();
    assert Named(channel, SPELT_OUT) == Some(ms.Triple()) by {
      hide A.DecodeBlock;
      SpeltOutIs();
      assert Text(AB_DASH_1) == [65, 66, 45, 49] == Text(AB_1);
    }
    hide Named;
    Undisturbed(lim, ms, SPELT_OUT);
  }
}
