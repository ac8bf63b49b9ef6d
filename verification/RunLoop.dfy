// How timer goroutines and the run loop of a session meet: the atomic pending bits,
// the one-slot wakeup and the event channel of pkg/ax25conn/session.go:301-370, step by
// step in any interleaving.

module RunLoop {

  datatype Timer = T1 | T2 | T3 | HB | Stats

  // Where the run loop is: about to swap the bits, working through the bits it took,
  // blocked in select, working on a queued event, or gone.
  datatype Loop = Top | Draining(left: seq<Timer>) | Blocked | Serving | Gone

  // bits is the pending word, token the wakeup slot, posting how many timer goroutines
  // have set their bit and not yet tried the slot.
  datatype State = State(bits: set<Timer>, token: bool, posting: nat, loop: Loop)

  const START := State({}, false, 0, Top)

  datatype Step =
    | SetBit(t: Timer)     // signalTimer, its first half
    | Post                 // signalTimer, its second half
    | Swap                 // the loop takes all bits
    | Expire(last: bool)   // it handles the next expiry it took; the last one may end the session
    | Wake                 // select takes the wakeup
    | StartEvent           // select takes a queued event
    | EndEvent(last: bool) // that event has been handled
    | Cancel               // select sees the context cancelled

  // The order in which taken bits are handled.
  function InOrder(bits: set<Timer>): seq<Timer> {
    (if T1 in bits then [T1] else []) + (if T2 in bits then [T2] else []) + (if T3 in bits then [T3] else [])
    + (if HB in bits then [HB] else []) + (if Stats in bits then [Stats] else [])
  }

  lemma InOrderHas(bits: set<Timer>, t: Timer)
    ensures t in InOrder(bits) <==> t in bits
    ensures InOrder(bits) == [] <==> bits == {}
  {
    assert bits == {} <==> T1 !in bits && T2 !in bits && T3 !in bits && HB !in bits && Stats !in bits by {
      if T1 !in bits && T2 !in bits && T3 !in bits && HB !in bits && Stats !in bits {
        forall x: Timer
          ensures x !in bits
        {
          match x
          case T1 =>
          case T2 =>
          case T3 =>
          case HB =>
          case Stats =>
        }
      }
    }
  }

  predicate Next(a: State, step: Step, b: State) {
    match step
    case SetBit(t) => b == a.(bits := a.bits + {t}, posting := a.posting + 1)
    case Post => a.posting > 0 && b == a.(posting := a.posting - 1, token := true)
    case Swap => a.loop == Top && b == a.(bits := {}, loop := if a.bits == {} then Blocked else Draining(InOrder(a.bits)))
    case Expire(last) =>
      && a.loop.Draining? && a.loop.left != []
      && b == a.(loop := if last then Gone else if |a.loop.left| == 1 then Top else Draining(a.loop.left[1..]))
    case Wake => a.loop == Blocked && a.token && b == a.(token := false, loop := Top)
    case StartEvent => a.loop == Blocked && b == a.(loop := Serving)
    case EndEvent(last) => a.loop == Serving && b == a.(loop := if last then Gone else Top)
    case Cancel => a.loop == Blocked && b == a.(loop := Gone)
  }

  predicate Run(tr: seq<State>, steps: seq<Step>) {
    && |tr| == |steps| + 1 && tr[0] == START
    && forall i | 0 <= i < |steps| :: Next(tr[i], steps[i], tr[i + 1])
  }

  // ----- no lost wakeup -----

  // A pending bit found by a blocked loop has its wakeup in the slot, or its signaller
  // still on the way there.
  predicate Awake(s: State) {
    s.loop == Blocked && s.bits != {} ==> s.token || s.posting > 0
  }

  // In every interleaving: the loop never sleeps on a signalled expiry. Either the
  // wakeup is there, or a signaller has yet to post it.
  lemma {:induction false} NoLostWakeup(tr: seq<State>, steps: seq<Step>, i: nat)
    requires Run(tr, steps) && i < |tr|
    ensures Awake(tr[i])
    decreases i
  {
    if i > 0 {
      NoLostWakeup(tr, steps, i - 1);
      assert Next(tr[i - 1], steps[i - 1], tr[i]);
    }
  }

  // ----- no starvation -----

  // An expiry signalled and not yet handled.
  predicate Due(s: State, t: Timer) {
    t in s.bits || (s.loop.Draining? && t in s.loop.left)
  }

  function CountStarts(steps: seq<Step>): nat {
    if steps == [] then 0 else (if steps[0].StartEvent? then 1 else 0) + CountStarts(steps[1..])
  }

  // How many queued events can still start before a due expiry is handled.
  function MayStart(s: State): nat {
    if s.loop == Blocked then 1 else 0
  }

  lemma DueStep(a: State, step: Step, b: State, t: Timer)
    requires Next(a, step, b) && Due(a, t) && (Due(b, t) || step.SetBit? || step.Post?)
    requires !(a.loop == Blocked && t !in a.bits)
    ensures (if step.StartEvent? then 1 else 0) + MayStart(b) <= MayStart(a)
  {
    InOrderHas(a.bits, t);
  }

  // From any moment at which an expiry is due until it is handled, at most one queued
  // event is started, and none unless the loop was blocked at that moment.
  lemma {:induction false} NoStarvation(tr: seq<State>, steps: seq<Step>, i: nat, j: nat, t: Timer)
    requires Run(tr, steps) && i <= j < |tr|
    requires forall k | i <= k <= j :: Due(tr[k], t)
    ensures CountStarts(steps[i..j]) <= MayStart(tr[i]) <= 1
    decreases j - i
  {
    if i < j {
      NoStarvation(tr, steps, i + 1, j, t);
      assert Due(tr[i], t) && Due(tr[i + 1], t) && Next(tr[i], steps[i], tr[i + 1]);
      DueStep(tr[i], steps[i], tr[i + 1], t);
      assert steps[i..j][1..] == steps[i + 1..j];
    }
  }

  // Once the loop takes the bits, a due expiry is among those it is about to handle.
  lemma SwapTakes(a: State, b: State, t: Timer)
    requires Next(a, Swap, b) && Due(a, t)
    ensures b.loop.Draining? && t in b.loop.left && t !in b.bits
  {
    InOrderHas(a.bits, t);
  }

  // ----- every signal counts once -----

  function Rank(t: Timer): int {
    match t
    case T1 => 1
    case T2 => 2
    case T3 => 3
    case HB => 4
    case Stats => 5
  }

  // Taken expiries are handled T1 first, the statistics tick last, each once.
  predicate Ranked(left: seq<Timer>) {
    forall i, j | 0 <= i < j < |left| :: Rank(left[i]) < Rank(left[j])
  }

  lemma RankedNext(left: seq<Timer>, t: Timer, taken: bool)
    requires Ranked(left) && forall i | 0 <= i < |left| :: Rank(left[i]) < Rank(t)
    ensures var l := left + if taken then [t] else [];
            Ranked(l) && forall i | 0 <= i < |l| :: Rank(l[i]) < Rank(t) + 1
  {
  }

  lemma InOrderRanked(bits: set<Timer>)
    ensures Ranked(InOrder(bits))
  {
    hide Ranked;
    assert Ranked([]) by { RankedNone(); }
    assert [] + (if T1 in bits then [T1] else []) == if T1 in bits then [T1] else [];
    RankedNext([], T1, T1 in bits);
    var a := if T1 in bits then [T1] else [];
    RankedNext(a, T2, T2 in bits);
    var b := a + if T2 in bits then [T2] else [];
    RankedNext(b, T3, T3 in bits);
    var c := b + if T3 in bits then [T3] else [];
    RankedNext(c, HB, HB in bits);
    RankedNext(c + if HB in bits then [HB] else [], Stats, Stats in bits);
  }

  lemma RankedNone()
    ensures Ranked([])
  {
  }

  lemma {:induction false} DrainsInOrder(tr: seq<State>, steps: seq<Step>, i: nat)
    requires Run(tr, steps) && i < |tr| && tr[i].loop.Draining?
    ensures Ranked(tr[i].loop.left) && tr[i].loop.left != []
    decreases i
  {
    var a, b := tr[i - 1], tr[i];
    assert Next(a, steps[i - 1], b);
    if steps[i - 1].Swap? {
      InOrderRanked(a.bits);
      InOrderHas(a.bits, T1);
    } else {
      DrainsInOrder(tr, steps, i - 1);
    }
  }

  // The handling of this timer's expiry.
  predicate HandlesIt(a: State, step: Step, t: Timer) {
    step.Expire? && a.loop.Draining? && a.loop.left != [] && a.loop.left[0] == t
  }

  // An expiry is due from the moment it is signalled until it is handled, or the session
  // ends.
  lemma DueUntilHandled(a: State, step: Step, b: State, t: Timer)
    requires Next(a, step, b)
    ensures step == SetBit(t) ==> Due(b, t)
    ensures Due(a, t) && !Due(b, t) ==> HandlesIt(a, step, t) || b.loop == Gone
    ensures HandlesIt(a, step, t) ==> Due(a, t)
  {
    InOrderHas(a.bits, t);
  }

  function Signals(steps: seq<Step>, t: Timer): nat {
    if steps == [] then 0 else Signals(steps[..|steps| - 1], t) + if steps[|steps| - 1] == SetBit(t) then 1 else 0
  }

  // How often t was handled in the first i steps, and how often it is still waiting.
  function Handlings(tr: seq<State>, steps: seq<Step>, t: Timer, i: nat): nat
    requires |tr| == |steps| + 1 && i <= |steps|
    decreases i
  {
    if i == 0 then 0 else Handlings(tr, steps, t, i - 1) + if HandlesIt(tr[i - 1], steps[i - 1], t) then 1 else 0
  }

  function Waiting(s: State, t: Timer): nat {
    (if t in s.bits then 1 else 0) + if s.loop.Draining? && t in s.loop.left then 1 else 0
  }

  lemma WaitingStep(a: State, step: Step, b: State, t: Timer)
    requires Next(a, step, b) && (a.loop.Draining? ==> Ranked(a.loop.left) && a.loop.left != [])
    ensures (if HandlesIt(a, step, t) then 1 else 0) + Waiting(b, t) <= Waiting(a, t) + if step == SetBit(t) then 1 else 0
  {
    InOrderHas(a.bits, t);
    hide InOrder;
    if a.loop.Draining? {
      HeadLeaves(a.loop.left, t);
    }
  }

  // No expiry is handled that was not signalled, and none twice for one signal.
  lemma {:induction false} HandledPerSignal(tr: seq<State>, steps: seq<Step>, t: Timer, i: nat)
    requires Run(tr, steps) && i <= |steps|
    ensures Handlings(tr, steps, t, i) + Waiting(tr[i], t) <= Signals(steps[..i], t)
    decreases i
  {
    if i > 0 {
      HandledPerSignal(tr, steps, t, i - 1);
      var a, step, b := tr[i - 1], steps[i - 1], tr[i];
      assert Next(a, step, b);
      assert steps[..i][..i - 1] == steps[..i - 1];
      if a.loop.Draining? {
        DrainsInOrder(tr, steps, i - 1);
      }
      hide Next, HandlesIt, Waiting, Run, Ranked;
      WaitingStep(a, step, b, t);
    }
  }

  lemma HeadLeaves(left: seq<Timer>, t: Timer)
    requires Ranked(left) && left != []
    ensures t in left[1..] <==> t in left && t != left[0]
  {
  }
}
