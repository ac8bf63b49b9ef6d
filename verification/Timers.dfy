// The generation-guarded timer of pkg/ax25conn/timers.go: its mutex-protected sections
// one by one, and what holds however resets, stops and callbacks interleave.

module Timers {
  import opened Common

  // What the mutex guards. The generation counts modulo 2^64.
  datatype State = State(on: bool, gen: nat)

  const IDLE := State(false, 0)

  function Next(gen: nat): nat {
    (gen + 1) % TWO64
  }

  // The sections that take the lock: the first of a reset, a stop, and a callback's
  // check with the generation it was armed under.
  datatype Op = Arm | Halt | Check(gen: nat)

  predicate Fires(s: State, op: Op) {
    op.Check? && s.on && s.gen == op.gen
  }

  function Stepped(s: State, op: Op): State {
    match op
    case Arm => State(true, Next(s.gen))
    case Halt => if s.on then State(false, Next(s.gen)) else s
    case Check(_) => if Fires(s, op) then s.(on := false) else s
  }

  class Timer {
    var on: bool
    var gen: nat

    ghost function View(): State
      reads this
    {
      State(on, gen)
    }

    constructor ()
      ensures View() == IDLE
    {
      on, gen := false, 0;
    }

    // The locked part of resetTo; the callback is scheduled with what it returns.
    method BeginReset() returns (armed: nat)
      modifies this
      ensures View() == Stepped(old(View()), Arm) && armed == View().gen
    {
      gen := Next(gen);
      armed := gen;
      on := true;
    }

    method Stop()
      modifies this
      ensures View() == Stepped(old(View()), Halt)
    {
      if !on {
        return;
      }
      on := false;
      gen := Next(gen);
    }

    // The callback's check; it calls fire exactly when this returns true.
    method Expired(armed: nat) returns (fire: bool)
      modifies this
      ensures View() == Stepped(old(View()), Check(armed)) && fire == Fires(old(View()), Check(armed))
    {
      if !on || gen != armed {
        return false;
      }
      on := false;
      fire := true;
    }

    method Running() returns (r: bool)
      ensures r == View().on
    {
      r := on;
    }
  }

  // ----- every interleaving -----

  // The state after the sections that have taken the lock so far, in that order.
  function After(ops: seq<Op>): State
    decreases |ops|
  {
    if ops == [] then IDLE else Stepped(After(ops[..|ops| - 1]), ops[|ops| - 1])
  }

  predicate FiresAt(ops: seq<Op>, i: nat)
    requires i < |ops|
  {
    Fires(After(ops[..i]), ops[i])
  }

  // The generation the reset at i arms.
  function ArmedAt(ops: seq<Op>, i: nat): nat
    requires i < |ops|
  {
    Next(After(ops[..i]).gen)
  }

  // The reset at j is the last word: since then no reset, no stop, no expiry.
  predicate Standing(ops: seq<Op>, j: nat) {
    && j < |ops| && ops[j].Arm?
    && forall k | j < k < |ops| :: !ops[k].Arm? && !ops[k].Halt? && !FiresAt(ops, k)
  }

  lemma StandingShorter(ops: seq<Op>, op: Op, j: nat)
    requires j < |ops|
    ensures Standing(ops + [op], j) <==> Standing(ops, j) && !op.Arm? && !op.Halt? && !Fires(After(ops), op)
  {
    hide After, Fires;
    var more := ops + [op];
    assert more[..|ops|] == ops;
    assert forall k | 0 <= k < |ops| :: more[..k] == ops[..k] && more[k] == ops[k];
    assert FiresAt(more, |ops|) <==> Fires(After(ops), op);
    assert forall k | 0 <= k < |ops| :: FiresAt(more, k) <==> FiresAt(ops, k);
  }

  lemma StandingLast(ops: seq<Op>, op: Op)
    ensures Standing(ops + [op], |ops|) <==> op.Arm?
  {
  }

  lemma AfterSnoc(ops: seq<Op>, op: Op)
    ensures After(ops + [op]) == Stepped(After(ops), op)
  {
    assert (ops + [op])[..|ops|] == ops;
  }

  // running() is true exactly while some reset is the last word, and then the timer
  // carries that reset's generation.
  lemma {:induction false} RunningIff(ops: seq<Op>)
    ensures After(ops).on <==> exists j: nat :: Standing(ops, j)
    ensures forall j: nat | Standing(ops, j) :: After(ops).gen == ArmedAt(ops, j)
    decreases |ops|
  {
    if ops != [] {
      var front, op := ops[..|ops| - 1], ops[|ops| - 1];
      assert ops == front + [op];
      RunningIff(front);
      AfterSnoc(front, op);
      StandingLast(front, op);
      forall j: nat | j < |front|
        ensures Standing(ops, j) <==> Standing(front, j) && !op.Arm? && !op.Halt? && !Fires(After(front), op)
        ensures ops[..j] == front[..j]
      {
        StandingShorter(front, op, j);
      }
      StepKeepsStanding(front, op);
      assert ops[..|front|] == front;
    }
  }

  lemma StepKeepsStanding(front: seq<Op>, op: Op)
    requires After(front).on <==> exists j: nat :: Standing(front, j)
    ensures After(front + [op]).on <==> exists j: nat :: Standing(front + [op], j)
  {
    AfterSnoc(front, op);
    StandingLast(front, op);
    if op.Arm? {
      assert Standing(front + [op], |front|);
    } else if j: nat :| Standing(front, j) {
      StandingShorter(front, op, j);
      if j': nat :| Standing(front + [op], j') {
        assert j' < |front|;
        StandingShorter(front, op, j');
      }
    } else {
      if j': nat :| Standing(front + [op], j') {
        assert j' < |front|;
        StandingShorter(front, op, j');
        assert false;
      }
    }
  }

  // How often the generation has advanced.
  function Turns(ops: seq<Op>): nat
    decreases |ops|
  {
    if ops == [] then 0
    else
      var (front, op) := (ops[..|ops| - 1], ops[|ops| - 1]);
      Turns(front) + if op.Arm? || (op.Halt? && After(front).on) then 1 else 0
  }

  lemma {:induction false} GenIsTurns(ops: seq<Op>)
    ensures After(ops).gen == Turns(ops) % TWO64
    decreases |ops|
  {
    if ops != [] {
      GenIsTurns(ops[..|ops| - 1]);
    }
  }

  lemma {:induction false} TurnsGrow(ops: seq<Op>, i: nat)
    requires i <= |ops|
    ensures Turns(ops[..i]) <= Turns(ops) <= Turns(ops[..i]) + |ops| - i
    decreases |ops|
  {
    if i < |ops| {
      var front := ops[..|ops| - 1];
      TurnsGrow(front, i);
      assert front[..i] == ops[..i];
    } else {
      assert ops[..i] == ops;
    }
  }

  // Between two resets the generation advances, by no more than the steps between them.
  lemma TurnsBetween(ops: seq<Op>, i: nat, j: nat)
    requires i < j <= |ops| && ops[i].Arm?
    ensures 0 < Turns(ops[..j]) - Turns(ops[..i]) <= j - i
  {
    var upTo := ops[..j];
    TurnsGrow(upTo, i + 1);
    assert upTo[..i + 1] == ops[..i + 1] == ops[..i] + [ops[i]];
    assert ops[..i + 1][..i] == ops[..i];
  }

  // The generation has gone round a whole number of times from j to l.
  predicate GoneRound(ops: seq<Op>, j: nat, l: nat)
    requires j <= |ops| && l <= |ops|
  {
    (Turns(ops[..l]) - Turns(ops[..j])) % TWO64 == 0
  }

  lemma ArmedAlike(ops: seq<Op>, j: nat, l: nat)
    requires j < |ops| && l < |ops|
    ensures ArmedAt(ops, l) == ArmedAt(ops, j) <==> GoneRound(ops, j, l)
  {
    hide After, Turns, Next;
    GenIsTurns(ops[..l]);
    GenIsTurns(ops[..j]);
    NextAlike(Turns(ops[..l]), Turns(ops[..j]));
  }

  lemma NextAlike(a: nat, b: nat)
    ensures Next(a % TWO64) == Next(b % TWO64) <==> (a - b) % TWO64 == 0
  {
    var (q, r, q', r') := (a / TWO64, a % TWO64, b / TWO64, b % TWO64);
    assert a == q * TWO64 + r && b == q' * TWO64 + r';
    assert Next(r) == Next(r') <==> r == r';
    assert a - b == (q - q') * TWO64 + (r - r');
  }

  lemma StandingBefore(ops: seq<Op>, i: nat, j: nat)
    requires j < i < |ops| && ops[j].Arm?
    ensures Standing(ops[..i], j) <==> forall k | j < k < i :: !ops[k].Arm? && !ops[k].Halt? && !FiresAt(ops, k)
  {
    hide After;
    var before := ops[..i];
    assert forall k | 0 <= k < i :: before[..k] == ops[..k] && before[k] == ops[k];
    assert forall k | 0 <= k < i :: FiresAt(before, k) <==> FiresAt(ops, k);
  }

  // A callback calls fire exactly when the reset that is the last word as the callback
  // takes the lock is its own, or one with the generation gone round in between.
  lemma FiresIff(ops: seq<Op>, i: nat, j: nat)
    requires j < i < |ops| && ops[j].Arm? && ops[i] == Check(ArmedAt(ops, j))
    ensures FiresAt(ops, i) <==> exists l: nat :: l < i && Standing(ops[..i], l) && GoneRound(ops, j, l)
  {
    hide After, Standing, GoneRound;
    var before := ops[..i];
    RunningIff(before);
    if FiresAt(ops, i) {
      var l: nat :| Standing(before, l);
      StandingInside(before, l);
      assert before[..l] == ops[..l];
      ArmedAlike(ops, j, l);
    }
    if l: nat :| l < i && Standing(before, l) && GoneRound(ops, j, l) {
      assert before[..l] == ops[..l];
      ArmedAlike(ops, j, l);
    }
  }

  lemma StandingInside(ops: seq<Op>, l: nat)
    requires Standing(ops, l)
    ensures l < |ops| && ops[l].Arm?
  {
  }

  // Nothing goes round within 2^64 steps: the callback then fires exactly when the reset
  // that armed it is still the last word.
  lemma FiresWhileStanding(ops: seq<Op>, i: nat, j: nat)
    requires j < i < |ops| && ops[j].Arm? && ops[i] == Check(ArmedAt(ops, j)) && i - j <= TWO64
    ensures FiresAt(ops, i) <==> forall k | j < k < i :: !ops[k].Arm? && !ops[k].Halt? && !FiresAt(ops, k)
  {
    hide After, Turns, FiresAt, ArmedAt;
    FiresIff(ops, i, j);
    StandingBefore(ops, i, j);
    assert GoneRound(ops, j, j);
    if l: nat :| l < i && Standing(ops[..i], l) && GoneRound(ops, j, l) {
      if j < l {
        TurnsBetween(ops, j, l);
      }
    }
  }

  // So each arming fires at most once, and a reset or stop that gets the lock before
  // its callback keeps it from firing, for as long as the generation has not gone round.
  lemma FiresOnce(ops: seq<Op>, j: nat, i: nat, k: nat)
    requires j < i < k < |ops| && ops[j].Arm? && ops[i] == ops[k] == Check(ArmedAt(ops, j)) && k - j <= TWO64
    ensures !(FiresAt(ops, i) && FiresAt(ops, k))
  {
    FiresWhileStanding(ops, k, j);
  }

  lemma NeverAfterStop(ops: seq<Op>, j: nat, h: nat, i: nat)
    requires j < h < i < |ops| && ops[j].Arm? && (ops[h].Halt? || ops[h].Arm?)
    requires ops[i] == Check(ArmedAt(ops, j)) && i - j <= TWO64
    ensures !FiresAt(ops, i)
  {
    FiresWhileStanding(ops, i, j);
  }

  // ----- the bound is the exact one -----

  function Arms(n: nat): seq<Op>
    decreases n
  {
    if n == 0 then [] else Arms(n - 1) + [Arm]
  }

  lemma {:induction false} ArmsAfter(n: nat)
    ensures |Arms(n)| == n && After(Arms(n)) == State(n > 0, n % TWO64)
    ensures n > 0 ==> Arms(n)[0].Arm?
    decreases n
  {
    hide After, Next;
    if n == 0 {
      NothingArmed();
    } else {
      ArmsAfter(n - 1);
      AfterSnoc(Arms(n - 1), Arm);
      NextTurn(n - 1);
      if n > 1 {
        assert Arms(n)[0] == Arms(n - 1)[0];
      }
    }
  }

  lemma NothingArmed()
    ensures After([]) == IDLE
  {
  }

  lemma NextTurn(n: nat)
    ensures Next(n % TWO64) == (n + 1) % TWO64
  {
    var (q, r) := (n / TWO64, n % TWO64);
    if r + 1 == TWO64 {
      assert n + 1 == TWO64 * (q + 1);
    } else {
      assert n + 1 == TWO64 * q + (r + 1);
    }
  }

  lemma FirstArmed(ops: seq<Op>)
    requires ops != []
    ensures ArmedAt(ops, 0) == 1
  {
    assert ops[..0] == [];
  }

  // The callback of the first of 2^64 + 1 resets fires after all the others.
  lemma FiresAfterWrap()
    ensures var (n, ops) := (TWO64 + 1, Arms(TWO64 + 1) + [Check(1)]);
            && |ops| == n + 1 && ops[0].Arm? && ops[1].Arm? && ops[n] == Check(ArmedAt(ops, 0)) && FiresAt(ops, n)
  {
    var n := TWO64 + 1;
    var ops := Arms(n) + [Check(1)];
    ArmsAfter(n);
    ArmsAfter(n - 1);
    FirstArmed(ops);
    ArmsSecond(n);
    assert ops[..n] == Arms(n);
    assert ops[..0] == Arms(n)[..0] == [];
    assert ops[1] == Arms(n)[1];
  }

  lemma {:induction false} ArmsSecond(n: nat)
    requires n >= 2
    ensures |Arms(n)| == n && Arms(n)[1].Arm?
    decreases n
  {
    ArmsAfter(n);
    ArmsAfter(n - 1);
    if n > 2 {
      ArmsSecond(n - 1);
      assert Arms(n)[1] == Arms(n - 1)[1];
    }
  }
}
