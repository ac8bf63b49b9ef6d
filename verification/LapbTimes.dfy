// How long T1 runs: the round-trip estimate and the back-off of
// pkg/ax25conn/session.go:212-278, in whole nanoseconds of Go's 64-bit durations.

module LapbTimes {
  import opened Common

  datatype Backoff = NoBackoff | Exponential | Linear

  const RTT_LO: int := 1_000_000
  const RTT_HI: int := 30_000_000_000

  function Clamped(rtt: int): int {
    if rtt < RTT_LO then RTT_LO else if rtt > RTT_HI then RTT_HI else rtt
  }

  const TWO63: int := 0x8000_0000_0000_0000

  // A product as 64 signed bits keep it.
  function Wrapped(x: int): int {
    var m := x % TWO64;
    if m >= TWO63 then m - TWO64 else m
  }

  function Pow2(n: nat): (r: int)
    ensures r >= 1
    decreases n
  {
    if n == 0 then 1 else 2 * Pow2(n - 1)
  }

  // The estimate T1 is computed from.
  function Basis(rtt: int, t1: int): int {
    Clamped(if rtt == 0 then t1 / 2 else rtt)
  }

  function NextT1(rtt: int, t1: int, backoff: Backoff, n2Count: nat): int {
    var r := Basis(rtt, t1);
    match backoff
    case NoBackoff => 2 * r
    case Exponential =>
      var d := Wrapped(Pow2(if n2Count > 30 then 30 else n2Count) * 2 * r);
      var capped := if d > 8 * r then 8 * r else d;
      if capped < 2 * r then 2 * r else capped
    case Linear => Wrapped((2 + 2 * n2Count) * r)
  }

  // The estimate after an acknowledgement measured some time after T1 was started;
  // retransmissions are not sampled.
  function CalcRTT(rtt: int, t1: int, n2Count: nat, started: bool, measured: int): int {
    if n2Count != 0 || !started || measured < 0 then rtt
    else Clamped((9 * (if rtt == 0 then t1 / 2 else rtt) + measured) / 10)
  }

  predicate Estimate(rtt: int) {
    rtt == 0 || RTT_LO <= rtt <= RTT_HI
  }

  // A sample moves the estimate towards itself and never past, within the clamps.
  lemma RttTracks(rtt: int, t1: int, started: bool, measured: int)
    requires Estimate(rtt) && t1 >= 0 && started && measured >= 0
    ensures var (old', new') := (if rtt == 0 then t1 / 2 else rtt, CalcRTT(rtt, t1, 0, started, measured));
            && Estimate(new') && new' > 0
            && (if old' <= measured then Clamped(old') <= new' <= Clamped(measured)
                else Clamped(measured) <= new' <= Clamped(old'))
  {
  }

  // What the constants document: twice the estimate, doubled for every retry, and never
  // more than eight times.
  function Documented(r: int, n2Count: nat): int {
    if n2Count == 0 then 2 * r else if n2Count == 1 then 4 * r else 8 * r
  }

  lemma {:induction false} Pow2AtLeast(n: nat)
    requires n >= 2
    ensures Pow2(n) >= 4
    decreases n
  {
    if n > 2 {
      Pow2AtLeast(n - 1);
    } else {
      assert Pow2(2) == 2 * Pow2(1) && Pow2(1) == 2 * Pow2(0);
    }
  }

  lemma WrappedSmall(x: int)
    requires 0 <= x < TWO63
    ensures Wrapped(x) == x
  {
  }

  lemma SmallPowers()
    ensures Pow2(0) == 1 && Pow2(1) == 2
  {
    assert Pow2(1) == 2 * Pow2(0);
  }

  lemma DocumentedUnlessWrapped(rtt: int, t1: int, n2Count: nat)
    ensures var r := Basis(rtt, t1);
            NextT1(rtt, t1, Exponential, n2Count) == Documented(r, n2Count)
            <==> n2Count < 2 || Wrapped(Pow2(if n2Count > 30 then 30 else n2Count) * 2 * r) >= 8 * r
  {
    var r := Basis(rtt, t1);
    SmallPowers();
    WrappedSmall(2 * r);
    WrappedSmall(4 * r);
    hide Wrapped, Basis;
    if n2Count < 2 {
      assert Pow2(n2Count) * 2 * r == if n2Count == 0 then 2 * r else 4 * r;
    }
  }

  lemma {:induction false} Pow2Grows(n: nat, m: nat)
    requires n <= m
    ensures Pow2(n) <= Pow2(m)
    decreases m
  {
    if n < m {
      Pow2Grows(n, m - 1);
    }
  }

  lemma Pow27()
    ensures Pow2(27) == 0x800_0000 && Pow2(28) == 0x1000_0000
  {
    SmallPowers();
    assert Pow2(2) == 4 && Pow2(3) == 8 && Pow2(4) == 16;
    assert Pow2(5) == 32 && Pow2(6) == 64 && Pow2(7) == 128 && Pow2(8) == 256;
    assert Pow2(9) == 512 && Pow2(10) == 1024 && Pow2(11) == 2048 && Pow2(12) == 4096;
    assert Pow2(13) == 8192 && Pow2(14) == 16384 && Pow2(15) == 32768 && Pow2(16) == 65536;
    assert Pow2(17) == 0x2_0000 && Pow2(18) == 0x4_0000 && Pow2(19) == 0x8_0000 && Pow2(20) == 0x10_0000;
    assert Pow2(21) == 0x20_0000 && Pow2(22) == 0x40_0000 && Pow2(23) == 0x80_0000 && Pow2(24) == 0x100_0000;
    assert Pow2(25) == 0x200_0000 && Pow2(26) == 0x400_0000;
  }

  lemma ProductGrows(a: int, b: int, c: int)
    requires a <= b && c >= 0
    ensures a * c <= b * c
  {
    assert (b - a) * c >= 0;
  }

  lemma Product(p: int, r: int)
    requires 4 <= p <= 0x800_0000 && RTT_LO <= r <= RTT_HI
    ensures 8 * r <= p * 2 * r < TWO63
  {
    ProductGrows(4, p, 2 * r);
    ProductGrows(p, 0x800_0000, 2 * r);
    assert p * 2 * r == p * (2 * r);
  }

  // Up to 27 retries the product stays within 63 bits, whatever the estimate.
  lemma DocumentedUpTo27(rtt: int, t1: int, n2Count: nat)
    requires n2Count <= 27
    ensures NextT1(rtt, t1, Exponential, n2Count) == Documented(Basis(rtt, t1), n2Count)
  {
    hide NextT1, Documented;
    DocumentedUnlessWrapped(rtt, t1, n2Count);
    if n2Count >= 2 {
      var r := Basis(rtt, t1);
      Pow2AtLeast(n2Count);
      Pow2Grows(n2Count, 27);
      Pow27();
      Product(Pow2(n2Count), r);
      WrappedSmall(Pow2(n2Count) * 2 * r);
    }
  }

  // The estimates, in nanoseconds, for which that many retries leave T1 as documented.
  predicate Unwrapped(r: int, n2Count: nat) {
    if n2Count <= 27 then true
    else if n2Count == 28 then r < 0x4_0000_0000
    else if n2Count == 29 then r < 0x2_0000_0000 || 0x4_0000_0081 <= r < 0x6_0000_0000
    else r < 0x1_0000_0000 || 0x2_0000_0021 <= r < 0x3_0000_0000
         || 0x4_0000_0041 <= r < 0x5_0000_0000 || 0x6_0000_0061 <= r
  }

  lemma Product28(r: int)
    requires RTT_LO <= r <= RTT_HI
    ensures Wrapped(0x1000_0000 * 2 * r) >= 8 * r <==> Unwrapped(r, 28)
  {
  }

  lemma Product29(r: int)
    requires RTT_LO <= r <= RTT_HI
    ensures Wrapped(0x2000_0000 * 2 * r) >= 8 * r <==> Unwrapped(r, 29)
  {
  }

  lemma Product30(r: int, n2Count: nat)
    requires RTT_LO <= r <= RTT_HI && n2Count >= 30
    ensures Wrapped(0x4000_0000 * 2 * r) >= 8 * r <==> Unwrapped(r, n2Count)
  {
  }

  // The exponential back-off is as documented exactly for those estimates; beyond them
  // the 64-bit product wraps before the cap of eight is applied to it.
  lemma ExponentialIff(rtt: int, t1: int, n2Count: nat)
    ensures NextT1(rtt, t1, Exponential, n2Count) == Documented(Basis(rtt, t1), n2Count)
            <==> Unwrapped(Basis(rtt, t1), n2Count)
  {
    var r := Basis(rtt, t1);
    if n2Count <= 27 {
      DocumentedUpTo27(rtt, t1, n2Count);
    } else {
      DocumentedUnlessWrapped(rtt, t1, n2Count);
      Pow27();
      assert Pow2(29) == 0x2000_0000 && Pow2(30) == 0x4000_0000;
      hide Wrapped, NextT1, Documented;
      if n2Count == 28 {
        Product28(r);
      } else if n2Count == 29 {
        Product29(r);
      } else {
        Product30(r, n2Count);
      }
    }
  }

  // At 28 retries and the slowest estimate T1 drops back to twice the estimate; the cap
  // of 30 on the shift is too late.
  lemma WrapsAt28()
    ensures NextT1(RTT_HI, 0, Exponential, 28) == 2 * RTT_HI != Documented(RTT_HI, 28)
  {
    Pow27();
    var d := 0x1000_0000 * 2 * RTT_HI;
    assert Wrapped(d) == d - TWO64;
  }

  // ----- the other back-offs, and the estimate itself -----

  // The estimate in use: half of the configured T1 until something was measured, and never
  // below a millisecond or above 30 seconds.
  lemma BasisIs(rtt: int, t1: int)
    ensures 1_000_000 <= Basis(rtt, t1) <= 30_000_000_000
    ensures rtt != 0 && 1_000_000 <= rtt <= 30_000_000_000 ==> Basis(rtt, t1) == rtt
    ensures rtt == 0 && 2_000_000 <= t1 <= 60_000_000_000 ==> 2 * Basis(rtt, t1) <= t1 <= 2 * Basis(rtt, t1) + 1
  {
  }

  // The linear back-off adds twice the estimate for every retry, and does exactly while
  // that stays below 2^63 nanoseconds.
  lemma LinearIff(rtt: int, t1: int, n2Count: nat)
    ensures NextT1(rtt, t1, Linear, n2Count) == 2 * (n2Count + 1) * Basis(rtt, t1)
            <==> 2 * (n2Count + 1) * Basis(rtt, t1) < TWO63
  {
    var r := Basis(rtt, t1);
    BasisIs(rtt, t1);
    hide Basis;
    ProductGrows(0, 2 * (n2Count + 1), r);
    assert 2 + 2 * n2Count == 2 * (n2Count + 1);
    WrappedIff(2 * (n2Count + 1) * r);
  }

  lemma WrappedIff(x: int)
    requires x >= 0
    ensures Wrapped(x) == x <==> x < TWO63
  {
  }

  // So it holds for every estimate up to 153 million retries.
  lemma LinearInPractice(rtt: int, t1: int, n2Count: nat)
    requires n2Count <= 153_000_000
    ensures NextT1(rtt, t1, Linear, n2Count) == 2 * (n2Count + 1) * Basis(rtt, t1)
  {
    var r := Basis(rtt, t1);
    LinearIff(rtt, t1, n2Count);
    BasisIs(rtt, t1);
    hide Basis, NextT1;
    ProductGrows(2 * (n2Count + 1), 306_000_002, r);
  }

  // Without a back-off T1 is twice the estimate however often it has expired.
  lemma WithoutBackoff(rtt: int, t1: int, n2Count: nat)
    ensures NextT1(rtt, t1, NoBackoff, n2Count) == 2 * Basis(rtt, t1)
  {
  }

  // A sample counts for one part in ten, what was known for nine, rounded down and kept
  // within the clamps.
  lemma RttMixes(rtt: int, t1: int, started: bool, measured: int)
    requires Estimate(rtt) && t1 >= 0 && started && measured >= 0
    ensures var (known, got) := (if rtt == 0 then t1 / 2 else rtt, CalcRTT(rtt, t1, 0, started, measured));
            if 9 * known + measured < 10 * RTT_LO then got == 1_000_000
            else if 9 * known + measured >= 10 * RTT_HI then got == 30_000_000_000
            else 10 * got <= 9 * known + measured < 10 * got + 10
  {
  }

  // Nothing is learnt from a frame that was sent again, from a T1 never started, or from
  // a clock that went back.
  lemma RttKept(rtt: int, t1: int, n2Count: nat, started: bool, measured: int)
    ensures n2Count != 0 || !started || measured < 0 ==> CalcRTT(rtt, t1, n2Count, started, measured) == rtt
  {
  }
}
