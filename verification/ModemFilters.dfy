// Two whole-run filters of the modem: duplicate suppression across the demodulators of
// an ensemble (graywolf-modem/src/demod_afsk_multi.rs:214-240) and the hysteresis of
// data carrier detect (graywolf-modem/src/demod_afsk.rs:729-759).

module ModemFilters {
  import opened Common

  // ----- duplicate suppression -----

  datatype Decoded = Decoded(data: seq<bv8>, sampleOffset: nat)

  // Whether a frame is kept, given when its twin was last kept.
  predicate Keeps(lastSeen: map<seq<bv8>, nat>, f: Decoded, window: nat) {
    f.data in lastSeen ==> SaturatingSub(f.sampleOffset, lastSeen[f.data]) >= window
  }

  function SaturatingSub(a: nat, b: nat): nat {
    if a >= b then a - b else 0
  }

  function Noted(lastSeen: map<seq<bv8>, nat>, f: Decoded, window: nat): map<seq<bv8>, nat> {
    if Keeps(lastSeen, f, window) then lastSeen[f.data := f.sampleOffset] else lastSeen
  }

  // The table after a run of frames.
  function SeenAfter(frames: seq<Decoded>, window: nat): map<seq<bv8>, nat>
    decreases |frames|
  {
    if frames == [] then map[]
    else Noted(SeenAfter(frames[..|frames| - 1], window), frames[|frames| - 1], window)
  }

  predicate KeptAt(frames: seq<Decoded>, i: nat, window: nat)
    requires i < |frames|
  {
    Keeps(SeenAfter(frames[..i], window), frames[i], window)
  }

  class Ensemble {
    var lastSeen: map<seq<bv8>, nat>
    var out: seq<Decoded>
    var windowSamples: nat

    constructor (window: nat)
      ensures lastSeen == map[] && out == [] && windowSamples == window
    {
      lastSeen, out, windowSamples := map[], [], window;
    }

    // The filter half of process_sample, for the frames the demodulators have emitted.
    method Collect(emitted: seq<Decoded>, ghost earlier: seq<Decoded>)
      requires lastSeen == SeenAfter(earlier, windowSamples)
      modifies this`lastSeen, this`out
      ensures lastSeen == SeenAfter(earlier + emitted, windowSamples)
      ensures out == old(out) + KeptOf(earlier, emitted, windowSamples)
    {
      hide SeenAfter, KeptOf;
      ghost var w := windowSamples;
      assert emitted[..0] == [] && earlier + [] == earlier;
      KeptNone(earlier, w);
      for i := 0 to |emitted|
        invariant lastSeen == SeenAfter(earlier + emitted[..i], w)
        invariant out == old(out) + KeptOf(earlier, emitted[..i], w)
      {
        var frame := emitted[i];
        var keep := if frame.data in lastSeen
                    then SaturatingSub(frame.sampleOffset, lastSeen[frame.data]) >= windowSamples else true;
        assert emitted[..i + 1] == emitted[..i] + [frame];
        KeptSnoc(earlier, emitted[..i], frame, w);
        if keep {
          lastSeen := lastSeen[frame.data := frame.sampleOffset];
          out := out + [frame];
        }
      }
      assert emitted[..|emitted|] == emitted;
    }

    method TakeFrames() returns (frames: seq<Decoded>)
      modifies this`out
      ensures frames == old(out) && out == []
    {
      frames := out;
      out := [];
    }
  }

  // The frames kept out of `emitted` after `earlier` ones.
  function KeptOf(earlier: seq<Decoded>, emitted: seq<Decoded>, window: nat): seq<Decoded>
    decreases |emitted|
  {
    if emitted == [] then []
    else
      var n := |emitted| - 1;
      KeptOf(earlier, emitted[..n], window)
      + (if Keeps(SeenAfter(earlier + emitted[..n], window), emitted[n], window) then [emitted[n]] else [])
  }

  lemma KeptNone(earlier: seq<Decoded>, window: nat)
    ensures KeptOf(earlier, [], window) == []
  {
  }

  lemma KeptSnoc(earlier: seq<Decoded>, emitted: seq<Decoded>, f: Decoded, window: nat)
    ensures var seen := SeenAfter(earlier + emitted, window);
            && SeenAfter(earlier + (emitted + [f]), window) == Noted(seen, f, window)
            && KeptOf(earlier, emitted + [f], window)
               == KeptOf(earlier, emitted, window) + (if Keeps(seen, f, window) then [f] else [])
  {
    SeenSnoc(earlier + emitted, f, window);
    assert (earlier + emitted) + [f] == earlier + (emitted + [f]);
    assert (emitted + [f])[..|emitted|] == emitted;
  }

  lemma SeenSnoc(frames: seq<Decoded>, f: Decoded, window: nat)
    ensures SeenAfter(frames + [f], window) == Noted(SeenAfter(frames, window), f, window)
  {
    assert (frames + [f])[..|frames|] == frames;
  }

  // An earlier frame with that content that was kept.
  predicate KeptTwin(frames: seq<Decoded>, window: nat, data: seq<bv8>, i: nat) {
    i < |frames| && frames[i].data == data && KeptAt(frames, i, window)
  }

  lemma TwinFront(frames: seq<Decoded>, window: nat, data: seq<bv8>, n: nat)
    requires n <= |frames|
    ensures forall i: nat | i < n :: KeptTwin(frames[..n], window, data, i) <==> KeptTwin(frames, window, data, i)
  {
    forall i: nat | i < n
      ensures KeptTwin(frames[..n], window, data, i) <==> KeptTwin(frames, window, data, i)
    {
      assert frames[..n][..i] == frames[..i];
    }
  }

  // The table holds, for each content seen, the offset of the latest frame kept with it.
  lemma {:induction false} SeenIsLatest(frames: seq<Decoded>, window: nat, data: seq<bv8>)
    requires window > 0
    ensures var seen := SeenAfter(frames, window);
            && (data !in seen ==> forall i: nat :: !KeptTwin(frames, window, data, i))
            && (data in seen ==>
                  && (forall i: nat | KeptTwin(frames, window, data, i) :: frames[i].sampleOffset <= seen[data])
                  && exists i: nat :: KeptTwin(frames, window, data, i) && frames[i].sampleOffset == seen[data])
    decreases |frames|
  {
    if frames != [] {
      var n := |frames| - 1;
      var front, f := frames[..n], frames[n];
      SeenIsLatest(front, window, data);
      TwinFront(frames, window, data, n);
      var seen := SeenAfter(front, window);
      forall i: nat | KeptTwin(frames, window, data, i) && i < n
        ensures data in seen && frames[i].sampleOffset <= seen[data]
      {
        assert KeptTwin(front, window, data, i);
        assert front[i] == frames[i];
      }
      if f.data == data && Keeps(seen, f, window) {
        assert KeptTwin(frames, window, data, n);
      } else if data in seen {
        var i: nat :| KeptTwin(front, window, data, i) && front[i].sampleOffset == seen[data];
        assert KeptTwin(frames, window, data, i) && frames[i] == front[i];
      }
    }
  }

  // Identical frames that are both kept lie at least the window apart, in order, exactly
  // when there is a window, or else when they came in order.
  lemma KeptApart(frames: seq<Decoded>, window: nat, i: nat, j: nat)
    requires i < j < |frames| && KeptTwin(frames, window, frames[j].data, i) && KeptAt(frames, j, window)
    ensures frames[j].sampleOffset >= frames[i].sampleOffset + window
            <==> window > 0 || frames[j].sampleOffset >= frames[i].sampleOffset
  {
    if window > 0 {
      SeenIsLatest(frames[..j], window, frames[j].data);
      TwinFront(frames, window, frames[j].data, j);
      assert KeptTwin(frames[..j], window, frames[j].data, i);
    }
  }

  // A frame is dropped exactly when there is a window and it comes before the end of the
  // one after a twin that was kept.
  lemma DroppedIff(frames: seq<Decoded>, window: nat, j: nat)
    requires j < |frames|
    ensures !KeptAt(frames, j, window) <==>
            window > 0 && exists i: nat :: i < j && KeptTwin(frames, window, frames[j].data, i)
                                           && frames[j].sampleOffset < frames[i].sampleOffset + window
  {
    if window > 0 {
      var data, seen := frames[j].data, SeenAfter(frames[..j], window);
      SeenIsLatest(frames[..j], window, data);
      TwinFront(frames, window, data, j);
      if !KeptAt(frames, j, window) {
        var i: nat :| KeptTwin(frames[..j], window, data, i) && frames[..j][i].sampleOffset == seen[data];
        assert KeptTwin(frames, window, data, i);
      }
      if i: nat :| i < j && KeptTwin(frames, window, data, i) && frames[j].sampleOffset < frames[i].sampleOffset + window {
        assert KeptTwin(frames[..j], window, data, i);
      }
    }
  }

  // Without a window a later twin can be kept at an earlier offset.
  lemma OutOfOrder()
    ensures var frames := [Decoded([], 1), Decoded([], 0)];
            KeptTwin(frames, 0, [], 0) && KeptAt(frames, 1, 0) && frames[1].sampleOffset < frames[0].sampleOffset
  {
  }

  // ----- data carrier detect -----

  const THRESH_ON := 30
  const THRESH_OFF := 6
  const DCD_GOOD_WIDTH := 512

  // A slicer's shift registers, newest bit first, and its detect flag.
  datatype Slicer = Slicer(goodHist: seq<bool>, badHist: seq<bool>, score: seq<bool>, dataDetect: bool)

  predicate Sized(s: Slicer) {
    |s.goodHist| == 8 && |s.badHist| == 8 && |s.score| == 32
  }

  function CountOnes(w: seq<bool>): nat {
    if w == [] then 0 else (if w[0] then 1 else 0) + CountOnes(w[1..])
  }

  // The newest bit in, the oldest out.
  function ShiftedIn(w: seq<bool>, b: bool): seq<bool>
    requires w != []
  {
    [b] + w[..|w| - 1]
  }

  function Detects(ones: nat, before: bool): bool {
    if ones >= THRESH_ON then true else if ones <= THRESH_OFF then false else before
  }

  // One symbol with its good and bad transition flags.
  datatype Symbol = Symbol(good: bool, bad: bool)

  function Evaluated(s: Slicer, y: Symbol): (r: Slicer)
    requires Sized(s)
    ensures Sized(r)
  {
    var g, b := ShiftedIn(s.goodHist, y.good), ShiftedIn(s.badHist, y.bad);
    var score := ShiftedIn(s.score, CountOnes(g) - CountOnes(b) >= 2);
    Slicer(g, b, score, Detects(CountOnes(score), s.dataDetect))
  }

  class SlicerState {
    var goodHist: seq<bool>
    var badHist: seq<bool>
    var score: seq<bool>
    var dataDetect: bool
    var goodFlag: bool
    var badFlag: bool
    var dcdChanges: seq<bool>

    ghost function View(): Slicer
      reads this
    {
      Slicer(goodHist, badHist, score, dataDetect)
    }

    constructor ()
      ensures View() == QUIET && dcdChanges == [] && !goodFlag && !badFlag
    {
      goodHist, badHist, score, dataDetect := Zeros(8), Zeros(8), Zeros(32), false;
      goodFlag, badFlag, dcdChanges := false, false, [];
    }

    // A transition near the middle of the phase counts as good, any other as bad.
    method PllDcdSignalTransition(dpllPhase: int)
      modifies this`goodFlag, this`badFlag
      ensures goodFlag == (old(goodFlag) || -536_870_912 < dpllPhase < 536_870_912)
      ensures badFlag == (old(badFlag) || !(-536_870_912 < dpllPhase < 536_870_912))
    {
      var threshold := DCD_GOOD_WIDTH * 1024 * 1024;
      if dpllPhase > -threshold && dpllPhase < threshold {
        goodFlag := true;
      } else {
        badFlag := true;
      }
    }

    method PllDcdEachSymbol()
      requires Sized(View())
      modifies this
      ensures View() == Evaluated(old(View()), Symbol(old(goodFlag), old(badFlag))) && Sized(View())
      ensures !goodFlag && !badFlag
      ensures dcdChanges == old(dcdChanges) + (if dataDetect != old(dataDetect) then [dataDetect] else [])
    {
      goodHist := ShiftedIn(goodHist, goodFlag);
      goodFlag := false;
      badHist := ShiftedIn(badHist, badFlag);
      badFlag := false;
      score := ShiftedIn(score, CountOnes(goodHist) - CountOnes(badHist) >= 2);
      var newDetect := Detects(CountOnes(score), dataDetect);
      if newDetect != dataDetect {
        dataDetect := newDetect;
        dcdChanges := dcdChanges + [newDetect];
      }
    }
  }

  function Zeros(n: nat): (r: seq<bool>)
    ensures |r| == n
  {
    seq(n, i => false)
  }

  const QUIET := Slicer(Zeros(8), Zeros(8), Zeros(32), false)

  // The slicer after its first i symbols.
  function Slicing(symbols: seq<Symbol>, i: nat): (r: Slicer)
    requires i <= |symbols|
    ensures Sized(r)
    decreases i
  {
    if i == 0 then QUIET else Evaluated(Slicing(symbols, i - 1), symbols[i - 1])
  }

  // The i-th symbol changes carrier detect.
  predicate ChangesAt(symbols: seq<Symbol>, i: nat) {
    i < |symbols| && Slicing(symbols, i + 1).dataDetect != Slicing(symbols, i).dataDetect
  }

  lemma {:induction false} CountSnoc(w: seq<bool>, b: bool)
    ensures CountOnes(w + [b]) == CountOnes(w) + (if b then 1 else 0)
    decreases |w|
  {
    if w == [] {
      assert [b][1..] == [];
      assert [] + [b] == [b];
    } else {
      assert (w + [b])[1..] == w[1..] + [b];
      CountSnoc(w[1..], b);
    }
  }

  // One symbol moves the score's weight by one at most.
  lemma ShiftMovesOne(w: seq<bool>, b: bool)
    requires w != []
    ensures CountOnes(w) - 1 <= CountOnes(ShiftedIn(w, b)) <= CountOnes(w) + 1
  {
    var front := w[..|w| - 1];
    assert w == front + [w[|w| - 1]];
    CountSnoc(front, w[|w| - 1]);
    assert ShiftedIn(w, b)[1..] == front;
  }

  function Weight(symbols: seq<Symbol>, i: nat): int
    requires i <= |symbols|
  {
    CountOnes(Slicing(symbols, i).score)
  }

  lemma {:induction false} WeightDrifts(symbols: seq<Symbol>, i: nat, j: nat)
    requires i <= j <= |symbols|
    ensures Weight(symbols, i) - (j - i) <= Weight(symbols, j) <= Weight(symbols, i) + (j - i)
    decreases j - i
  {
    hide Detects;
    if i < j {
      WeightDrifts(symbols, i, j - 1);
      var s, y := Slicing(symbols, j - 1), symbols[j - 1];
      var g, b := ShiftedIn(s.goodHist, y.good), ShiftedIn(s.badHist, y.bad);
      ShiftMovesOne(s.score, CountOnes(g) - CountOnes(b) >= 2);
    }
  }

  lemma ChangeWeighs(symbols: seq<Symbol>, i: nat)
    requires ChangesAt(symbols, i)
    ensures Slicing(symbols, i + 1).dataDetect ==> Weight(symbols, i + 1) >= THRESH_ON
    ensures !Slicing(symbols, i + 1).dataDetect ==> Weight(symbols, i + 1) <= THRESH_OFF
  {
    hide CountOnes;
  }

  lemma {:induction false} SteadyBetween(symbols: seq<Symbol>, i: nat, j: nat)
    requires i <= j <= |symbols| && forall k: nat | i <= k < j :: !ChangesAt(symbols, k)
    ensures Slicing(symbols, j).dataDetect == Slicing(symbols, i).dataDetect
    decreases j - i
  {
    hide Evaluated, Slicing;
    if i < j {
      SteadyBetween(symbols, i, j - 1);
      assert !ChangesAt(symbols, j - 1);
    }
  }

  // In every run of symbols, two consecutive changes of carrier detect go opposite
  // ways and lie at least 24 symbols apart.
  lemma ChangesAlternate(symbols: seq<Symbol>, i: nat, j: nat)
    requires i < j && ChangesAt(symbols, i) && ChangesAt(symbols, j)
    requires forall k: nat | i < k < j :: !ChangesAt(symbols, k)
    ensures Slicing(symbols, j + 1).dataDetect != Slicing(symbols, i + 1).dataDetect
    ensures j - i >= THRESH_ON - THRESH_OFF == 24
  {
    hide Evaluated, Slicing, Weight;
    SteadyBetween(symbols, i + 1, j);
    ChangeWeighs(symbols, i);
    ChangeWeighs(symbols, j);
    WeightDrifts(symbols, i + 1, j + 1);
  }
}
