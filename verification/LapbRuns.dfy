// Whole runs of one session: every reachable state against an arbitrary peer.

module LapbRuns {
  import opened Common
  import opened Control
  import opened Frames
  import opened Ring
  import opened LapbSpec
  import opened LapbRing
  import opened LapbInvariants
  import LapbKick

  function NewSession(cfg: Config): St {
    St(cfg, Disconnected, ZERO_VARS, Timers(false, false, false, false, false),
       seq(RING_SIZE, i => None), [], false, 0, [], [], Hist([], []))
  }

  // ----- reachable states -----

  // A session with the timer expiries that are signalled but not yet handled.
  datatype System = System(s: St, due: Timers)

  datatype Action =
    | FireT1 | FireT2 | FireT3 | FireHB | FireStats  // a running timer goes off
    | HandleT1 | HandleT2 | HandleT3 | HandleHB | HandleStats  // the run loop takes a signalled expiry
    | Take(ev: Event)  // the run loop takes an event from its queue

  predicate IsTimerEvent(ev: Event) {
    ev.T1Expiry? || ev.T2Expiry? || ev.T3Expiry? || ev.Heartbeat? || ev.StatsTick?
  }

  predicate Handles(a: System, ev: Event, due: Timers, b: System) {
    && RingOk(a.s) && Admissible(a.s, ev) && Handled(a.s, ev).st.cfg.paclen >= 1
    && b == System(Synced(Handled(a.s, ev).st), due)
  }

  predicate Next(a: System, act: Action, b: System) {
    && !a.s.terminated
    && match act
       case FireT1 => a.s.on.t1 && b == System(a.s.(on := a.s.on.(t1 := false)), a.due.(t1 := true))
       case FireT2 => a.s.on.t2 && b == System(a.s.(on := a.s.on.(t2 := false)), a.due.(t2 := true))
       case FireT3 => a.s.on.t3 && b == System(a.s.(on := a.s.on.(t3 := false)), a.due.(t3 := true))
       case FireHB => a.s.on.hb && b == System(a.s.(on := a.s.on.(hb := false)), a.due.(hb := true))
       case FireStats => a.s.on.stats && b == System(a.s.(on := a.s.on.(stats := false)), a.due.(stats := true))
       case HandleT1 => a.due.t1 && Handles(a, T1Expiry, a.due.(t1 := false), b)
       case HandleT2 => a.due.t2 && Handles(a, T2Expiry, a.due.(t2 := false), b)
       case HandleT3 => a.due.t3 && Handles(a, T3Expiry, a.due.(t3 := false), b)
       case HandleHB => a.due.hb && Handles(a, Heartbeat, a.due.(hb := false), b)
       case HandleStats => a.due.stats && Handles(a, StatsTick, a.due.(stats := false), b)
       case Take(ev) => !IsTimerEvent(ev) && Handles(a, ev, a.due, b)
  }

  predicate Run(tr: seq<System>, acts: seq<Action>) {
    && |tr| == |acts| + 1
    && ConfigOk(tr[0].s.cfg) && tr[0] == System(NewSession(tr[0].s.cfg), Timers(false, false, false, false, false))
    && forall i | 0 <= i < |acts| :: Next(tr[i], acts[i], tr[i + 1])
  }

  predicate Good(a: System) {
    Healthy(a.s, false, a.due.t1, a.due.t1 || a.due.t3)
  }

  lemma FiredKeeps(a: System, b: System)
    requires Good(a) && b.s == a.s.(on := b.s.on)
    requires (a.s.on.t1 || a.due.t1) == (b.s.on.t1 || b.due.t1) && (a.s.on.t3 || a.due.t3) == (b.s.on.t3 || b.due.t3)
    ensures Good(b)
  {
    if Live(a.s) {
      SameRingKeeps(a.s, b.s);
    }
  }

  lemma HandledKeeps(a: System, ev: Event, due: Timers, b: System)
    requires Good(a) && !a.s.terminated && Handles(a, ev, due, b)
    requires ev.T1Expiry? || due.t1 == a.due.t1
    requires ev.T1Expiry? || ev.T3Expiry? || due.t3 == a.due.t3
    ensures Good(b)
  {
    HandledHealthy(a.s, ev, false, due.t1, due.t1 || due.t3);
    hide Handled;
    SyncedHealthy(Handled(a.s, ev).st, false, due.t1, due.t1 || due.t3);
  }

  lemma NextKeeps(a: System, act: Action, b: System)
    requires Good(a) && Next(a, act, b)
    ensures Good(b)
  {
    hide Healthy, Handles;
    match act
    case HandleT1 => HandledKeeps(a, T1Expiry, a.due.(t1 := false), b);
    case HandleT2 => HandledKeeps(a, T2Expiry, a.due.(t2 := false), b);
    case HandleT3 => HandledKeeps(a, T3Expiry, a.due.(t3 := false), b);
    case HandleHB => HandledKeeps(a, Heartbeat, a.due.(hb := false), b);
    case HandleStats => HandledKeeps(a, StatsTick, a.due.(stats := false), b);
    case Take(ev) => HandledKeeps(a, ev, a.due, b);
    case _ => FiredKeeps(a, b);
  }

  lemma SyncedCurrent(s: St)
    requires s.cfg.paclen >= 1
    ensures Synced(s).outstanding == OutstandingOf(Synced(s))
  {
  }

  // The count other goroutines read is refreshed after every event.
  lemma {:induction false} OutstandingCurrent(tr: seq<System>, acts: seq<Action>, i: nat)
    requires Run(tr, acts) && i < |tr|
    ensures tr[i].s.cfg.paclen >= 1 && tr[i].s.outstanding == OutstandingOf(tr[i].s)
    decreases i
  {
    hide Handled, Synced, Admissible;
    ReachableGood(tr, acts, i);
    if i > 0 {
      OutstandingCurrent(tr, acts, i - 1);
      var a, act, b := tr[i - 1], acts[i - 1], tr[i];
      assert Next(a, act, b);
      if act.FireT1? || act.FireT2? || act.FireT3? || act.FireHB? || act.FireStats? {
        assert OutstandingOf(b.s) == OutstandingOf(a.s);
      } else {
        var ev := EventOf(act);
        SyncedCurrent(Handled(a.s, ev).st);
      }
    }
  }

  function EventOf(act: Action): Event {
    match act
    case HandleT1 => T1Expiry
    case HandleT2 => T2Expiry
    case HandleT3 => T3Expiry
    case HandleHB => Heartbeat
    case HandleStats => StatsTick
    case Take(ev) => ev
    case _ => Shutdown
  }

  // In every state a session can reach, under any peer, any operator and any timing,
  // while the frames it takes are ones its loops can finish with (Admissible): the
  // sequence numbers are below the modulus, at most a window of frames is outstanding
  // and each is where its number says, the retry count is within its budget, T1 covers
  // outstanding frames and every setup or release in progress, CONNECTED has T1 or T3
  // on the way, and what others read as outstanding is the window's size and the number
  // of frames the queue will make.
  lemma {:induction false} Reachable(tr: seq<System>, acts: seq<Action>, i: nat)
    requires Run(tr, acts) && i < |tr|
    ensures Inv(tr[i].s)
    ensures T1Safe(tr[i].s, tr[i].due.t1)
    ensures Watched(tr[i].s, tr[i].due.t1 || tr[i].due.t3)
    ensures var s := tr[i].s;
            Live(s) ==> s.outstanding == Dist(s.v.va, s.v.vs, M(s)) + (|s.txBuf| + s.cfg.paclen - 1) / s.cfg.paclen
  {
    ReachableGood(tr, acts, i);
    OutstandingCurrent(tr, acts, i);
    if Live(tr[i].s) {
      CountIs(tr[i].s);
    }
  }

  lemma CountIs(s: St)
    requires InStep(s) && ConfigOk(s.cfg)
    ensures OutstandingOf(s) == Dist(s.v.va, s.v.vs, M(s)) + (|s.txBuf| + s.cfg.paclen - 1) / s.cfg.paclen
  {
    hide OutstandingOf, Slots, LapbKick.Cuts;
    LapbKick.OutstandingCounts(s);
    LapbKick.CutsShape(s.txBuf, s.cfg.paclen);
    SlotsShape(s.v.va, s.v.vs, M(s));
  }

  lemma {:induction false} ReachableGood(tr: seq<System>, acts: seq<Action>, i: nat)
    requires Run(tr, acts) && i < |tr|
    ensures Good(tr[i])
    decreases i
  {
    hide Next;
    if i > 0 {
      ReachableGood(tr, acts, i - 1);
      NextKeeps(tr[i - 1], acts[i - 1], tr[i]);
    }
  }

  // ----- conservation over a stretch of a run -----

  // From any state of a run in which the bytes balance, they balance as long as the
  // link stays up and no SABM(E) finds a window it cannot carry over.
  lemma {:induction false} BytesConserved(tr: seq<System>, acts: seq<Action>, i: nat, j: nat)
    requires Run(tr, acts) && i <= j < |tr|
    requires forall k | i <= k <= j :: Live(tr[k].s)
    requires forall k | i <= k < j :: acts[k].Take? ==> LosesNothing(tr[k].s, acts[k].ev)
    requires RingOk(tr[i].s) && Conserved(tr[i].s)
    ensures RingOk(tr[j].s) && Conserved(tr[j].s)
    decreases j - i
  {
    if i < j {
      ReachableGood(tr, acts, i);
      NextConserves(tr[i], acts[i], tr[i + 1]);
      BytesConserved(tr, acts, i + 1, j);
    }
  }

  lemma NextConserves(a: System, act: Action, b: System)
    requires Good(a) && Next(a, act, b) && Live(a.s) && Live(b.s) && Conserved(a.s)
    requires act.Take? ==> LosesNothing(a.s, act.ev)
    ensures RingOk(b.s) && Conserved(b.s)
  {
    var ev := EventOf(act);
    if act.FireT1? || act.FireT2? || act.FireT3? || act.FireHB? || act.FireStats? {
      SameRingKeeps(a.s, b.s);
    } else {
      HandledHealthy(a.s, ev, true, true, true);
      hide Handled;
      SyncedHealthy(Handled(a.s, ev).st, true, true, true);
    }
  }

  // A link that has just been established owes nothing.
  lemma FreshLinkConserved(s: St, f: Frame)
    requires Inv(s) && s.state == AwaitingConnection && f.control.kind.FrameUA? && f.control.pf
    requires s.txBuf == [] && s.hist.taken == s.hist.acked
    ensures var s' := AwaitingConnectionFrame(s, f); s'.state == Connected && RingOk(s') && Conserved(s')
  {
    var s' := AwaitingConnectionFrame(s, f);
    assert InWindow(s') == [];
    assert Collect(s'.pending, []) == [];
  }

  lemma WindowHoldsBytes(s: St)
    requires Inv(s) && Live(s)
    ensures Collect(s.pending, InWindow(s)) == [] <==> s.v.vs == s.v.va
  {
    if s.v.vs != s.v.va {
      assert SlotOk(s, InWindow(s)[0]);
      assert InWindow(s)[0] == s.v.va;
    }
  }

  // A link set up again after an invalid N(R) or an unexpected frame starts from zero
  // without requeueing: the bytes still balance exactly when none were outstanding, and
  // the payloads of the frames that were are never sent again.
  lemma ReestablishedKeepsIff(s: St, f: Frame)
    requires Inv(s) && Live(s) && Conserved(s) && f.control.kind.FrameUA? && f.control.pf
    ensures var s' := AwaitingConnectionFrame(Reestablished(s), f);
            && s'.state == Connected && RingOk(s')
            && (Conserved(s') <==> s.v.vs == s.v.va)
            && s'.hist.taken == s'.hist.acked + Collect(s.pending, InWindow(s)) + s'.txBuf
  {
    hide SentSABM, Inv, Collect;
    ReestablishedRest(s);
    var s1 := Reestablished(s);
    var s' := AwaitingConnectionFrame(s1, f);
    assert RingOk(s) by { InvRing(s); }
    assert InWindow(s') == [];
    WindowHoldsBytes(s);
    var c := Collect(s.pending, InWindow(s));
    assert Collect(s'.pending, []) == [] by { NothingCollected(s'.pending); }
    assert |s.hist.acked + c + s.txBuf| == |s.hist.acked + [] + s.txBuf| + |c|;
    assert c == [] ==> s.hist.acked + c + s.txBuf == s.hist.acked + [] + s.txBuf;
  }

  lemma InvRing(s: St)
    requires Inv(s)
    ensures RingOk(s)
  {
  }

  lemma NothingCollected(pending: seq<Option<Frame>>)
    ensures Collect(pending, []) == []
  {
  }

  lemma ReestablishedRest(s: St)
    requires Live(s)
    ensures var s' := Reestablished(s);
            && s'.state == AwaitingConnection && s'.pending == s.pending && s'.txBuf == s.txBuf
            && s'.hist == s.hist && s'.cfg == s.cfg
  {
  }
}
