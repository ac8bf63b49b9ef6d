// How two sessions come up. A session that has not been asked to connect answers every
// SABM(E) with DM, so two of them meet when both are asked and their SABMs cross.

module LapbOpening {
  import opened Common
  import opened Control
  import opened Frames
  import opened LapbSpec
  import opened LapbRing
  import opened LapbDirection
  import opened LapbLink
  import opened LapbRuns
  import opened LapbPair

  function SABMFrom(c: Config): Frame {
    Made(c, Control(FrameSABM, 0, 0, true), 0, [], true)
  }

  function UAFrom(c: Config): Frame {
    Made(c, Control(FrameUA, 0, 0, true), 0, [], false)
  }

  // A session whose operator has asked for a connection.
  function Calling(c: Config, tx: seq<Frame>): St {
    St(c, AwaitingConnection, ZERO_VARS, Timers(true, false, false, true, false), seq(RING_SIZE, i => None), [],
       false, 0, tx, [StateChange(AwaitingConnection), LinkStats], Hist([], []))
  }

  lemma Called(c: Config, t: St)
    requires ConfigOk(c) && !c.mod128 && t == Calling(c, [SABMFrom(c)])
    ensures HandlesA(NewSession(c), Connect, t)
  {
    assert [] + [SABMFrom(c)] == [SABMFrom(c)];
  }

  // The peer's SABM restores the modulo-8 default window.
  function Narrowed(c: Config): Config {
    c.(window := WINDOW_MOD8)
  }

  lemma Answered(c: Config, f: Frame, tx: seq<Frame>, t: St)
    requires ConfigOk(c) && !c.mod128 && f == SABMFrom(Config(f.source, f.dest, f.path, false, 0, 0, 0))
    requires t == Calling(Narrowed(c), tx + [UAFrom(c)])
    ensures HandlesA(Calling(c, tx), FrameRX(Some(f)), t)
  {
  }

  lemma Confirmed(c: Config, f: Frame, tx: seq<Frame>) returns (t: St)
    requires ConfigOk(c) && !c.mod128 && f == UAFrom(Config(f.source, f.dest, f.path, false, 0, 0, 0))
    ensures HandlesA(Calling(c, tx), FrameRX(Some(f)), t)
    ensures t.tx == tx && JustUp(t.(tx := []))
  {
    t := Synced(Handled(Calling(c, tx), FrameRX(Some(f))).st);
    var ext := [StateChange(Connected), LinkStats];
    assert ext[1..] == [LinkStats] && [LinkStats][1..] == [];
    var o := [StateChange(AwaitingConnection), LinkStats];
    assert o[1..] == [LinkStats];
    DeliveredConcat(o, ext);
  }

  // From two new sessions there is a run, with nothing lost, to the established pair
  // the transfer theorem starts from.
  lemma OpensTogether(ca: Config, cb: Config) returns (tr: seq<Pair>, steps: seq<Step>)
    requires ConfigOk(ca) && ConfigOk(cb) && !ca.mod128 && !cb.mod128
    ensures PairRun(tr, steps) && tr[0] == Pair(NewSession(ca), NewSession(cb))
    ensures forall i | 0 <= i < |steps| :: !steps[i].Lose?
    ensures JustUp(tr[|tr| - 1].a) && JustUp(tr[|tr| - 1].b)
  {
    hide HandlesA, JustUp, Handled;
    var sa, sb, ua, ub := SABMFrom(ca), SABMFrom(cb), UAFrom(ca), UAFrom(cb);
    var na, nb := Narrowed(ca), Narrowed(cb);
    Called(ca, Calling(ca, [sa]));
    Called(cb, Calling(cb, [sb]));
    Answered(ca, sb, [sa], Calling(na, [sa] + [ua]));
    assert [sa] + [ua] == [sa, ua] && [sa, ua][1..] == [ua];
    Answered(cb, sa, [], Calling(nb, [] + [ub]));
    assert [] + [ub] == [ub];
    var upA := Confirmed(na, ub, [ua]);
    var upB := Confirmed(nb, ua, []);
    assert upA.tx == [ua] && [ua][1..] == [] && [ub][1..] == [] && [sb][1..] == [];
    tr := [Pair(NewSession(ca), NewSession(cb)),
           Pair(Calling(ca, [sa]), NewSession(cb)),
           Pair(Calling(ca, [sa]), Calling(cb, [sb])),
           Pair(Calling(na, [sa, ua]), Calling(cb, [])),
           Pair(Calling(na, [ua]), Calling(nb, [ub])),
           Pair(upA, Calling(nb, [])),
           Pair(upA.(tx := []), upB)];
    steps := [Local(AtA, Connect), Local(AtB, Connect), Deliver(AtA), Deliver(AtB), Deliver(AtA), Deliver(AtB)];
    assert NextPair(tr[0], steps[0], tr[1]);
    assert NextPair(tr[1], steps[1], tr[2]);
    assert NextPair(tr[2], steps[2], tr[3]);
    assert NextPair(tr[3], steps[3], tr[4]);
    assert NextPair(tr[4], steps[4], tr[5]);
    assert NextPair(tr[5], steps[5], tr[6]);
  }
}
