// When a slicer detects data carrier, from the symbols alone: how many of the last 32
// ended eight symbols with good transitions ahead of bad ones.
// graywolf-modem/src/demod_afsk.rs

module CarrierDetect {
  import opened ModemFilters

  // How many symbols of a stretch had a good transition, and how many a bad one.
  function Goods(w: seq<Symbol>): int {
    if w == [] then 0 else Goods(w[..|w| - 1]) + if w[|w| - 1].good then 1 else 0
  }

  function Bads(w: seq<Symbol>): int {
    if w == [] then 0 else Bads(w[..|w| - 1]) + if w[|w| - 1].bad then 1 else 0
  }

  // The eight symbols a slicer remembers, oldest first, and those that follow.
  function WithPast(s: Slicer, symbols: seq<Symbol>): seq<Symbol>
    requires Sized(s)
  {
    seq(8, k requires 0 <= k < 8 => Symbol(s.goodHist[7 - k], s.badHist[7 - k])) + symbols
  }

  // The eight symbols up to the j-th new one: good transitions lead by two or more.
  predicate GoodLead(all: seq<Symbol>, j: nat)
    requires j + 8 <= |all|
  {
    Goods(all[j..j + 8]) - Bads(all[j..j + 8]) >= 2
  }

  // How many of the symbols after the lo-th, up to the hi-th, ended such a stretch.
  function Leads(all: seq<Symbol>, lo: nat, hi: nat): nat
    requires hi + 8 <= |all|
    decreases hi
  {
    if hi <= lo then 0 else Leads(all, lo, hi - 1) + if GoodLead(all, hi) then 1 else 0
  }

  // The slicer after i of the symbols.
  function SlicedFrom(s: Slicer, symbols: seq<Symbol>, i: nat): (r: Slicer)
    requires Sized(s) && i <= |symbols|
    ensures Sized(r)
    decreases i
  {
    if i == 0 then s else Evaluated(SlicedFrom(s, symbols, i - 1), symbols[i - 1])
  }

  // ----- what the registers hold -----

  predicate Remembers(r: Slicer, all: seq<Symbol>, i: nat)
    requires Sized(r) && i + 8 <= |all|
  {
    forall k | 0 <= k < 8 :: r.goodHist[k] == all[i + 7 - k].good && r.badHist[k] == all[i + 7 - k].bad
  }

  lemma RemembersStep(p: Slicer, all: seq<Symbol>, i: nat, y: Symbol)
    requires Sized(p) && i + 9 <= |all| && Remembers(p, all, i) && all[i + 8] == y
    ensures Remembers(Evaluated(p, y), all, i + 1)
  {
    hide CountOnes, Detects;
    var r := Evaluated(p, y);
    forall k | 0 <= k < 8
      ensures r.goodHist[k] == all[i + 1 + 7 - k].good && r.badHist[k] == all[i + 1 + 7 - k].bad
    {
      if k > 0 {
        assert r.goodHist[k] == p.goodHist[k - 1] && r.badHist[k] == p.badHist[k - 1];
      }
    }
  }

  lemma PastLength(s: Slicer, symbols: seq<Symbol>)
    requires Sized(s)
    ensures |WithPast(s, symbols)| == 8 + |symbols| && WithPast(s, symbols)[8..] == symbols
    ensures Remembers(s, WithPast(s, symbols), 0)
  {
  }

  lemma {:induction false} HistoryIs(s: Slicer, symbols: seq<Symbol>, i: nat)
    requires Sized(s) && i <= |symbols|
    ensures |WithPast(s, symbols)| == 8 + |symbols| && Remembers(SlicedFrom(s, symbols, i), WithPast(s, symbols), i)
    decreases i
  {
    hide Evaluated, WithPast, Remembers;
    PastLength(s, symbols);
    if i > 0 {
      HistoryIs(s, symbols, i - 1);
      assert WithPast(s, symbols)[8..][i - 1] == symbols[i - 1];
      RemembersStep(SlicedFrom(s, symbols, i - 1), WithPast(s, symbols), i - 1, symbols[i - 1]);
    }
  }

  lemma {:induction false} CountsGoods(h: seq<bool>, w: seq<Symbol>)
    requires |h| == |w| && forall k | 0 <= k < |h| :: h[k] == w[|w| - 1 - k].good
    ensures CountOnes(h) == Goods(w)
    decreases |h|
  {
    if h != [] {
      CountsGoods(h[1..], w[..|w| - 1]);
    }
  }

  lemma {:induction false} CountsBads(h: seq<bool>, w: seq<Symbol>)
    requires |h| == |w| && forall k | 0 <= k < |h| :: h[k] == w[|w| - 1 - k].bad
    ensures CountOnes(h) == Bads(w)
    decreases |h|
  {
    if h != [] {
      CountsBads(h[1..], w[..|w| - 1]);
    }
  }

  lemma RegistersCount(r: Slicer, all: seq<Symbol>, i: nat)
    requires Sized(r) && i + 8 <= |all| && Remembers(r, all, i)
    ensures GoodLead(all, i) == (CountOnes(r.goodHist) - CountOnes(r.badHist) >= 2)
  {
    var w := all[i..i + 8];
    CountsGoods(r.goodHist, w);
    CountsBads(r.badHist, w);
  }

  // Each symbol shifts in whether its eight lead.
  lemma ScoreBit(s: Slicer, symbols: seq<Symbol>, i: nat)
    requires Sized(s) && 0 < i <= |symbols|
    ensures |WithPast(s, symbols)| == 8 + |symbols|
    ensures var (p, r) := (SlicedFrom(s, symbols, i - 1), SlicedFrom(s, symbols, i));
            && r.score == ShiftedIn(p.score, GoodLead(WithPast(s, symbols), i))
            && r.dataDetect == Detects(CountOnes(r.score), p.dataDetect)
  {
    hide CountOnes, GoodLead, Detects, WithPast, Remembers;
    HistoryIs(s, symbols, i);
    RegistersCount(SlicedFrom(s, symbols, i), WithPast(s, symbols), i);
  }

  // The k-th newest bit of the score.
  function Bit(s: Slicer, all: seq<Symbol>, i: nat, k: nat): bool
    requires Sized(s) && i + 8 <= |all| && k < 32
  {
    if k < i then GoodLead(all, i - k) else s.score[k - i]
  }

  predicate Scores(s: Slicer, all: seq<Symbol>, i: nat, score: seq<bool>)
    requires Sized(s) && i + 8 <= |all| && |score| == 32
  {
    forall k: nat | k < 32 :: score[k] == Bit(s, all, i, k)
  }

  lemma ScoresStep(s: Slicer, all: seq<Symbol>, i: nat, score: seq<bool>)
    requires Sized(s) && i + 9 <= |all| && |score| == 32 && Scores(s, all, i, score)
    ensures Scores(s, all, i + 1, ShiftedIn(score, GoodLead(all, i + 1)))
  {
    hide GoodLead;
    var next := ShiftedIn(score, GoodLead(all, i + 1));
    forall k: nat | k < 32
      ensures next[k] == Bit(s, all, i + 1, k)
    {
      if k > 0 {
        assert next[k] == score[k - 1] == Bit(s, all, i, k - 1);
      }
    }
  }

  lemma {:induction false} ScoreIs(s: Slicer, symbols: seq<Symbol>, i: nat)
    requires Sized(s) && i <= |symbols|
    ensures |WithPast(s, symbols)| == 8 + |symbols| && Scores(s, WithPast(s, symbols), i, SlicedFrom(s, symbols, i).score)
    decreases i
  {
    hide CountOnes, GoodLead, WithPast, Scores, Evaluated;
    PastLength(s, symbols);
    if i > 0 {
      ScoreIs(s, symbols, i - 1);
      hide SlicedFrom;
      ScoreBit(s, symbols, i);
      ScoresStep(s, WithPast(s, symbols), i - 1, SlicedFrom(s, symbols, i - 1).score);
    } else {
      ScoresStart(s, WithPast(s, symbols));
    }
  }

  lemma ScoresStart(s: Slicer, all: seq<Symbol>)
    requires Sized(s) && 8 <= |all|
    ensures Scores(s, all, 0, s.score)
  {
    hide GoodLead;
  }

  // A register whose newest bits are the leads up to the hi-th.
  lemma {:induction false} CountsLeads(score: seq<bool>, all: seq<Symbol>, lo: nat, hi: nat)
    requires lo <= hi && hi + 8 <= |all| && |score| == hi - lo
    requires forall k: nat | k < |score| :: score[k] == GoodLead(all, hi - k)
    ensures CountOnes(score) == Leads(all, lo, hi)
    decreases hi
  {
    hide GoodLead;
    if score != [] {
      forall k: nat | k < |score[1..]|
        ensures score[1..][k] == GoodLead(all, hi - 1 - k)
      {
        assert score[1..][k] == score[k + 1];
      }
      CountsLeads(score[1..], all, lo, hi - 1);
    }
  }

  lemma {:induction false} CountConcat(p: seq<bool>, q: seq<bool>)
    ensures CountOnes(p + q) == CountOnes(p) + CountOnes(q)
  {
    if p == [] {
      assert p + q == q;
    } else {
      assert (p + q)[1..] == p[1..] + q;
      CountConcat(p[1..], q);
    }
  }

  // Of the last 32 symbols, those that ended eight that lead; while there are fewer than
  // 32 the register's older bits count for the rest.
  function Score(s: Slicer, symbols: seq<Symbol>, i: nat): nat
    requires Sized(s) && i <= |symbols|
  {
    if i >= 32 then Leads(WithPast(s, symbols), i - 32, i)
    else Leads(WithPast(s, symbols), 0, i) + CountOnes(s.score[..32 - i])
  }

  lemma ScoreCounts(s: Slicer, symbols: seq<Symbol>, i: nat)
    requires Sized(s) && i <= |symbols|
    ensures CountOnes(SlicedFrom(s, symbols, i).score) == Score(s, symbols, i)
  {
    hide GoodLead, WithPast, SlicedFrom, CountOnes;
    ScoreIs(s, symbols, i);
    var score, all := SlicedFrom(s, symbols, i).score, WithPast(s, symbols);
    if i >= 32 {
      assert forall k: nat | k < 32 :: Bit(s, all, i, k) == GoodLead(all, i - k);
      CountsLeads(score, all, i - 32, i);
    } else {
      forall k: nat | k < i
        ensures score[..i][k] == GoodLead(all, i - k)
      {
        assert score[k] == Bit(s, all, i, k);
      }
      CountsLeads(score[..i], all, 0, i);
      forall k: nat | k < 32 - i
        ensures score[i..][k] == s.score[..32 - i][k]
      {
        assert score[i + k] == Bit(s, all, i, i + k);
      }
      assert score[i..] == s.score[..32 - i];
      assert score == score[..i] + score[i..];
      CountConcat(score[..i], score[i..]);
    }
  }

  // Carrier is detected once 30 of the last 32 symbols ended eight in which good
  // transitions lead by two or more, and lost once at most 6 did; in between it stays.
  lemma CarrierFromSymbols(s: Slicer, symbols: seq<Symbol>, i: nat)
    requires Sized(s) && 0 < i <= |symbols|
    ensures var n := Score(s, symbols, i);
            SlicedFrom(s, symbols, i).dataDetect
            == if n >= 30 then true else if n <= 6 then false else SlicedFrom(s, symbols, i - 1).dataDetect
  {
    hide Score, CountOnes, SlicedFrom, GoodLead, WithPast;
    ScoreBit(s, symbols, i);
    ScoreCounts(s, symbols, i);
  }

  // ----- steady signals -----

  lemma {:induction false} AllGood(w: seq<Symbol>)
    requires forall k | 0 <= k < |w| :: w[k].good && !w[k].bad
    ensures Goods(w) == |w| && Bads(w) == 0
  {
    if w != [] {
      AllGood(w[..|w| - 1]);
    }
  }

  lemma {:induction false} NoneGood(w: seq<Symbol>)
    requires forall k | 0 <= k < |w| :: !w[k].good
    ensures Goods(w) == 0 && Bads(w) >= 0
  {
    if w != [] {
      NoneGood(w[..|w| - 1]);
    }
  }

  lemma {:induction false} LeadsAll(all: seq<Symbol>, lo: nat, hi: nat, every: bool)
    requires lo <= hi && hi + 8 <= |all| && forall j: nat | lo < j <= hi :: GoodLead(all, j) == every
    ensures Leads(all, lo, hi) == if every then hi - lo else 0
    decreases hi
  {
    hide GoodLead;
    if lo < hi {
      LeadsAll(all, lo, hi - 1, every);
    }
  }

  lemma InsideIs(s: Slicer, symbols: seq<Symbol>, j: nat)
    requires Sized(s) && 8 <= j <= |symbols|
    ensures WithPast(s, symbols)[j..j + 8] == symbols[j - 8..j]
  {
  }

  // Whatever came before, 39 symbols with a good transition and no bad one end with
  // carrier, and 39 without a good one end without it.
  lemma SteadyDecides(s: Slicer, symbols: seq<Symbol>)
    requires Sized(s) && |symbols| == 39
    ensures (forall k | 0 <= k < 39 :: symbols[k].good && !symbols[k].bad) ==> SlicedFrom(s, symbols, 39).dataDetect
    ensures (forall k | 0 <= k < 39 :: !symbols[k].good) ==> !SlicedFrom(s, symbols, 39).dataDetect
  {
    hide SlicedFrom, WithPast, CountOnes, Leads;
    var all := WithPast(s, symbols);
    PastLength(s, symbols);
    CarrierFromSymbols(s, symbols, 39);
    if forall k | 0 <= k < 39 :: symbols[k].good && !symbols[k].bad {
      forall j: nat | 7 < j <= 39
        ensures GoodLead(all, j)
      {
        InsideIs(s, symbols, j);
        AllGood(symbols[j - 8..j]);
      }
      LeadsAll(all, 7, 39, true);
    }
    if forall k | 0 <= k < 39 :: !symbols[k].good {
      forall j: nat | 7 < j <= 39
        ensures !GoodLead(all, j)
      {
        InsideIs(s, symbols, j);
        NoneGood(symbols[j - 8..j]);
      }
      LeadsAll(all, 7, 39, false);
    }
  }

  // ----- a new slicer -----

  lemma {:induction false} SameSlicing(symbols: seq<Symbol>, i: nat)
    requires i <= |symbols|
    ensures Slicing(symbols, i) == SlicedFrom(QUIET, symbols, i)
    decreases i
  {
    hide Evaluated;
    if i > 0 {
      SameSlicing(symbols, i - 1);
    }
  }

  lemma {:induction false} AfterQuiet(w: seq<Symbol>, q: nat)
    requires q <= |w| && (forall k | 0 <= k < q :: !w[k].good && !w[k].bad)
    requires forall k | q <= k < |w| :: w[k].good && !w[k].bad
    ensures Goods(w) == |w| - q && Bads(w) == 0
    decreases |w|
  {
    if w != [] {
      AfterQuiet(w[..|w| - 1], if q < |w| then q else q - 1);
    }
  }

  lemma {:induction false} ZeroCount(n: nat)
    ensures CountOnes(Zeros(n)) == 0
    decreases n
  {
    if n > 0 {
      ZeroCount(n - 1);
      assert Zeros(n)[1..] == Zeros(n - 1);
    }
  }

  lemma FirstLead(symbols: seq<Symbol>, j: nat)
    requires 0 < j <= |symbols| && forall k | 0 <= k < |symbols| :: symbols[k].good && !symbols[k].bad
    ensures GoodLead(WithPast(QUIET, symbols), j) == (j >= 2)
  {
    var w := WithPast(QUIET, symbols)[j..j + 8];
    AfterQuiet(w, if j < 8 then 8 - j else 0);
  }

  // A new slicer that gets nothing but good transitions detects carrier with the 31st.
  lemma NewSlicerDetects(symbols: seq<Symbol>, i: nat)
    requires i <= |symbols| && forall k | 0 <= k < |symbols| :: symbols[k].good && !symbols[k].bad
    ensures Slicing(symbols, i).dataDetect <==> i >= 31
    decreases i
  {
    hide SlicedFrom, CountOnes, GoodLead, WithPast, Slicing, Score, Leads, Evaluated, Zeros;
    SameSlicing(symbols, i);
    if i > 0 {
      NewSlicerDetects(symbols, i - 1);
      SameSlicing(symbols, i - 1);
      CarrierFromSymbols(QUIET, symbols, i);
      NewScore(symbols, i);
    } else {
      NewIs(symbols);
    }
  }

  lemma NewIs(symbols: seq<Symbol>)
    ensures Slicing(symbols, 0) == QUIET
  {
  }

  lemma NewScore(symbols: seq<Symbol>, i: nat)
    requires 0 < i <= |symbols| && forall k | 0 <= k < |symbols| :: symbols[k].good && !symbols[k].bad
    ensures Score(QUIET, symbols, i) == if i >= 33 then 32 else i - 1
  {
    hide CountOnes, GoodLead, WithPast;
    var all := WithPast(QUIET, symbols);
    PastLength(QUIET, symbols);
    forall j: nat | 0 < j <= i
      ensures GoodLead(all, j) == (j >= 2)
    {
      FirstLead(symbols, j);
    }
    if i >= 33 {
      LeadsAll(all, i - 32, i, true);
    } else {
      LeadsAll(all, 0, 1, false);
      LeadsAfter(all, i);
      if i == 32 {
      } else {
        assert QUIET.score[..32 - i] == Zeros(32 - i);
        ZeroCount(32 - i);
      }
    }
  }

  lemma {:induction false} LeadsAfter(all: seq<Symbol>, i: nat)
    requires 0 < i && i + 8 <= |all| && forall j: nat | 0 < j <= i :: GoodLead(all, j) == (j >= 2)
    ensures Leads(all, 0, i) == i - 1
    decreases i
  {
    hide GoodLead;
    if i > 1 {
      LeadsAfter(all, i - 1);
    } else {
      LeadsAll(all, 0, 1, false);
    }
  }
}
