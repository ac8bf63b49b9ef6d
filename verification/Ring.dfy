// Sequence numbers modulo 8 or 128, and the retransmit ring they index.

module Ring {
  import opened Common

  predicate IsModulus(m: int) {
    m == 8 || m == 128
  }

  // How far b lies ahead of a on the ring.
  function Dist(a: int, b: int, m: int): int {
    if a <= b then b - a else b - a + m
  }

  function Next(i: int, m: int): (r: int)
    requires 0 <= i && m > 0
    ensures 0 <= r < m
    ensures i < m ==> r == if i + 1 == m then 0 else i + 1
  {
    (i + 1) % m
  }

  // The number k places ahead of a.
  function At(a: int, k: int, m: int): int {
    if a + k < m then a + k else a + k - m
  }

  // Go's uint8 subtraction and addition wrap at 256.
  function U8Dist(a: U8, b: U8, m: int): int
    requires IsModulus(m)
  {
    var d := (b - a) % 256;
    ((d + m) % 256) % m
  }

  lemma Mod8(y: int, k: int)
    ensures (y + 8 * k) % 8 == y % 8
  {
    assert y + 8 * k == 8 * (y / 8 + k) + y % 8;
  }

  lemma U8DistMod8(a: U8, b: U8)
    ensures U8Dist(a, b, 8) == (b - a) % 8
  {
    var d := (b - a) % 256;
    assert d == b - a || d == b - a + 256;
    var e := if d + 8 < 256 then d + 8 else d + 8 - 256;
    assert (d + 8) % 256 == e;
    Mod8(b - a, 1);
    Mod8(b - a, 33);
    Mod8(b - a, -31);
    assert e == b - a + 8 || e == b - a + 264 || e == b - a + 8 - 256;
  }

  lemma DistMod8(a: U8, b: U8)
    requires a < 8
    ensures (b - a) % 8 == Dist(a, b % 8, 8)
  {
    Mod8(b % 8 - a, b / 8);
    assert b % 8 - a + 8 * (b / 8) == b - a;
  }

  lemma Mod128(y: int, k: int)
    ensures (y + 128 * k) % 128 == y % 128
  {
    assert y + 128 * k == 128 * (y / 128 + k) + y % 128;
  }

  lemma U8DistMod128(a: U8, b: U8)
    ensures U8Dist(a, b, 128) == (b - a) % 128
  {
    var d := (b - a) % 256;
    assert d == b - a || d == b - a + 256;
    var e := if d + 128 < 256 then d + 128 else d + 128 - 256;
    assert (d + 128) % 256 == e;
    Mod128(b - a, 1);
    Mod128(b - a, 3);
    Mod128(b - a, -1);
    assert e == b - a + 128 || e == b - a + 384 || e == b - a + 128 - 256;
  }

  lemma DistMod128(a: U8, b: U8)
    requires a < 128
    ensures (b - a) % 128 == Dist(a, b % 128, 128)
  {
    Mod128(b % 128 - a, b / 128);
    assert b % 128 - a + 128 * (b / 128) == b - a;
  }

  // Both moduli divide 256, so the wrapped arithmetic is the true modular distance for
  // every pair of octets, and the ring distance for numbers below the modulus.
  lemma U8DistIsModular(a: U8, b: U8, m: int)
    requires IsModulus(m)
    ensures U8Dist(a, b, m) == (b - a) % m
    ensures a < m ==> U8Dist(a, b, m) == Dist(a, if b < m then b else b % m, m)
  {
    hide U8Dist, Dist;
    if m == 8 {
      U8DistMod8(a, b);
      if a < 8 {
        DistMod8(a, b);
      }
    } else {
      U8DistMod128(a, b);
      if a < 128 {
        DistMod128(a, b);
      }
    }
  }

  // Whether the loop `for i := from; i != to; i = (i+1) % m` ever stops.
  predicate Reaches(from: int, to: int, m: int) {
    from == to || 0 <= to < m
  }

  // Where that loop's index is after k rounds.
  function Iterate(from: int, k: nat, m: int): int
    requires 0 <= from && m > 0
    decreases k
  {
    if k == 0 then from else Iterate(Next(from, m), k - 1, m)
  }

  // The slots that loop visits, in order.
  function Slots(from: int, to: int, m: int): (r: seq<int>)
    requires 0 <= from && m > 0 && Reaches(from, to, m)
    ensures forall k | 0 <= k < |r| :: 0 <= r[k] && (r[k] < m || r[k] == from)
    decreases if from == to then 0 else if from < m then Dist(from, to, m) else m + 1
  {
    if from == to then [] else [from] + Slots(Next(from, m), to, m)
  }

  lemma {:induction false} IterateStaysLow(from: int, k: nat, m: int)
    requires 0 <= from && m > 0 && k > 0
    ensures 0 <= Iterate(from, k, m) < m
    decreases k
  {
    if k > 1 {
      IterateStaysLow(Next(from, m), k - 1, m);
    }
  }

  lemma {:induction false} IterateReaches(from: int, to: int, m: int)
    requires 0 <= from && m > 0 && Reaches(from, to, m)
    ensures Iterate(from, |Slots(from, to, m)|, m) == to
    decreases if from == to then 0 else if from < m then Dist(from, to, m) else m + 1
  {
    if from != to {
      IterateReaches(Next(from, m), to, m);
    }
  }

  ghost predicate Ends(from: int, to: int, m: int)
    requires 0 <= from && m > 0
  {
    exists k: nat :: Iterate(from, k, m) == to
  }

  // The loop stops exactly when it starts at its target or the target is below the
  // modulus.
  lemma LoopStopsIff(from: int, to: int, m: int)
    requires 0 <= from && m > 0
    ensures Ends(from, to, m) <==> Reaches(from, to, m)
  {
    if Reaches(from, to, m) {
      IterateReaches(from, to, m);
    } else if Ends(from, to, m) {
      var k: nat :| Iterate(from, k, m) == to;
      if k > 0 {
        IterateStaysLow(from, k, m);
      }
    }
  }

  // Within the modulus the loop visits each number of [from, to) once.
  lemma {:induction false} SlotsShape(from: int, to: int, m: int)
    requires 0 <= from < m && 0 <= to < m
    ensures |Slots(from, to, m)| == Dist(from, to, m)
    ensures forall k | 0 <= k < Dist(from, to, m) :: Slots(from, to, m)[k] == At(from, k, m)
    decreases Dist(from, to, m)
  {
    if from != to {
      SlotsShape(Next(from, m), to, m);
      var rest := Slots(Next(from, m), to, m);
      forall k | 0 <= k < Dist(from, to, m)
        ensures Slots(from, to, m)[k] == At(from, k, m)
      {
        if k > 0 {
          assert rest[k - 1] == At(Next(from, m), k - 1, m);
        }
      }
    }
  }

  lemma {:induction false} SlotsSplit(a: int, b: int, c: int, m: int)
    requires 0 <= a < m && 0 <= b < m && 0 <= c < m
    requires Dist(a, b, m) <= Dist(a, c, m)
    ensures Slots(a, c, m) == Slots(a, b, m) + Slots(b, c, m)
    decreases Dist(a, b, m)
  {
    if a != b {
      SlotsSplit(Next(a, m), b, c, m);
    }
  }

  lemma SlotsSnoc(a: int, b: int, m: int)
    requires 0 <= a < m && 0 <= b < m && Dist(a, b, m) + 1 < m
    ensures Slots(a, Next(b, m), m) == Slots(a, b, m) + [b]
  {
    SlotsSplit(a, b, Next(b, m), m);
    assert Slots(Next(b, m), Next(b, m), m) == [];
    assert Slots(b, Next(b, m), m) == [b];
  }
}
