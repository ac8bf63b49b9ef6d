// Setting a link up, releasing it and ending it: which frame or timer leads from which
// state to which, what is sent on the way, and what the observer is told.

module LapbSetup {
  import opened Common
  import opened Control
  import opened Frames
  import opened Ring
  import opened LapbSpec
  import opened LapbRing
  import opened LapbInvariants
  import opened LapbRuns
  import opened LapbReceive
  import opened LapbEnquiry
  import LapbSending
  import LapbIncidents

  // ----- answers to commands -----

  predicate SetsUp(f: Frame) {
    f.isCommand && (f.control.kind.FrameSABM? || f.control.kind.FrameSABME?)
  }

  predicate Disconnects(f: Frame) {
    f.isCommand && f.control.kind.FrameDISC?
  }

  // UA where the command is honoured, DM where it is not. A session that never called
  // leaves a DISC unanswered.
  function ReplyKind(state: State, f: Frame): Option<FrameKind> {
    match state
    case Disconnected => if SetsUp(f) then Some(FrameDM) else None
    case AwaitingConnection => if SetsUp(f) then Some(FrameUA) else Some(FrameDM)
    case Connected | TimerRecovery => Some(FrameUA)
    case AwaitingRelease => if SetsUp(f) then Some(FrameDM) else Some(FrameUA)
  }

  function Reply(s: St, f: Frame): seq<Frame> {
    var kind := ReplyKind(s.state, f);
    if kind.Some? then [Unnumbered(s.cfg, kind.value, f.control.pf, false)] else []
  }

  // In every state, SABM, SABME and DISC commands are answered by one UA or DM with F as
  // P, the first frame the session sends; only a link that is up sends any more.
  lemma CommandsAnswered(s: St, f: Frame)
    requires Inv(s) && (SetsUp(f) || Disconnects(f)) && Admissible(s, FrameRX(Some(f)))
    ensures var t := Handled(s, FrameRX(Some(f))).st;
            s.tx + Reply(s, f) <= t.tx && (!Live(s) || Disconnects(f) ==> t.tx == s.tx + Reply(s, f))
  {
    NothingBefore(s);
    if Live(s) {
      hide Handled;
      if SetsUp(f) {
        LapbSending.PeerRestarts(s, f);
        var t := Handled(s, FrameRX(Some(f))).st;
        hide Followed, AllData;
        assert Sent(s, t)[..1] == Reply(s, f) by { FollowedFirst(Reply(s, f), s.(cfg := t.cfg), t, 0); }
        assert t.tx[|s.tx|..][..1] == Reply(s, f);
      } else {
        PeerEnds(s, f);
      }
    } else {
      IdleAnswers(s, f);
    }
  }

  lemma FollowedFirst(before: seq<Frame>, s: St, t: St, nr: U8)
    requires Followed(before, s, t, nr)
    ensures |before| <= |Sent(s, t)| && Sent(s, t)[..|before|] == before
  {
  }

  lemma IdleAnswers(s: St, f: Frame)
    requires Inv(s) && !Live(s) && (SetsUp(f) || Disconnects(f))
    ensures Admissible(s, FrameRX(Some(f))) && Handled(s, FrameRX(Some(f))).st.tx == s.tx + Reply(s, f)
  {
    NothingBefore(s);
  }

  // ----- AWAITING_CONNECTION -----

  // What ends the wait: a UA with F=1, or, for a modulo-8 call, a DM with F=1.
  predicate Accepts(f: Frame) {
    f.control.kind.FrameUA? && f.control.pf
  }

  predicate Declines(f: Frame) {
    f.control.kind.FrameDM? && f.control.pf
  }

  lemma CallEndsIff(s: St, f: Frame)
    requires Inv(s) && s.state == AwaitingConnection
    ensures var t := Handled(s, FrameRX(Some(f))).st;
            && (t.state == Connected <==> Accepts(f))
            && (t.state == Disconnected <==> Declines(f) && !s.cfg.mod128)
            && (t.state == AwaitingConnection <==> !Accepts(f) && (!Declines(f) || s.cfg.mod128))
            && t.terminated == (t.state == Disconnected)
  {
  }

  // The link comes up with every number zero, T3 in place of T1, and what was queued
  // still queued.
  lemma CallAccepted(s: St, f: Frame)
    requires Inv(s) && s.state == AwaitingConnection && Accepts(f)
    ensures var t := Handled(s, FrameRX(Some(f))).st;
            && t.v == ZERO_VARS.(cond := s.v.cond) && t.on == s.on.(t1 := false, t3 := true, stats := true)
            && t.tx == s.tx && t.txBuf == s.txBuf && t.cfg == s.cfg
            && t.obs == s.obs + [StateChange(Connected), LinkStats]
  {
  }

  lemma CallDeclined(s: St, f: Frame)
    requires Inv(s) && s.state == AwaitingConnection && Declines(f) && !s.cfg.mod128
    ensures var t := Handled(s, FrameRX(Some(f))).st;
            && !t.on.t1 && t.tx == s.tx
            && t.obs == s.obs + [Error(PeerRejected), StateChange(Disconnected), LinkStats]
  {
    assert s.obs + [Error(PeerRejected)] + [StateChange(Disconnected), LinkStats]
        == s.obs + [Error(PeerRejected), StateChange(Disconnected), LinkStats];
  }

  // A modulo-128 call that is declined goes on as a modulo-8 one, under the T1 it has and
  // with what is left of its retries.
  lemma CallFallsBack(s: St, f: Frame)
    requires Inv(s) && s.state == AwaitingConnection && Declines(f) && s.cfg.mod128
    ensures Handled(s, FrameRX(Some(f))).st == s.(cfg := s.cfg.(mod128 := false, window := 2))
  {
  }

  // A SABM(E) that crosses ours decides the modulus and its window; nothing but these
  // frames makes a difference to the call.
  lemma CallCrossed(s: St, f: Frame)
    requires Inv(s) && s.state == AwaitingConnection && !Accepts(f) && !Declines(f)
    ensures var t := Handled(s, FrameRX(Some(f))).st;
            t == s.(tx := t.tx, cfg := if !SetsUp(f) then s.cfg
                                       else if f.control.kind.FrameSABME? then s.cfg.(mod128 := true, window := 32)
                                       else s.cfg.(mod128 := false, window := 2))
    ensures !SetsUp(f) && !Disconnects(f) ==> Handled(s, FrameRX(Some(f))).st.tx == s.tx
  {
  }

  // The SABM of the modulus a call is in.
  function CallFrame(c: Config): Frame {
    Unnumbered(c, if c.mod128 then FrameSABME else FrameSABM, true, true)
  }

  // T1 repeats the call while n2 allows; then a modulo-128 call starts again in modulo 8,
  // and a modulo-8 call has failed.
  lemma CallRepeats(s: St)
    requires Inv(s) && s.state == AwaitingConnection
    ensures var t := Handled(s, T1Expiry).st;
            var c := s.cfg.(mod128 := false, window := 2);
            if s.v.n2Count < s.cfg.n2 then
              t == s.(tx := s.tx + [CallFrame(s.cfg)], v := s.v.(n2Count := s.v.n2Count + 1), on := s.on.(t1 := true))
            else if s.cfg.mod128 then
              t == s.(cfg := c, tx := s.tx + [CallFrame(c)], v := s.v.(n2Count := 0), on := s.on.(t1 := true))
            else
              t.state == Disconnected && t.tx == s.tx
              && t.obs == s.obs + [Error(LinkEstablishTimeout), StateChange(Disconnected), LinkStats]
  {
    assert s.obs + [Error(LinkEstablishTimeout)] + [StateChange(Disconnected), LinkStats]
        == s.obs + [Error(LinkEstablishTimeout), StateChange(Disconnected), LinkStats];
  }

  // ----- the operator -----

  lemma OperatorCalls(s: St)
    requires Inv(s) && s.state == Disconnected
    ensures var t := Handled(s, Connect).st;
            && t.tx == s.tx + [CallFrame(s.cfg)] && t.state == AwaitingConnection && t.v == ZERO_VARS
            && t.on == s.on.(t1 := true, hb := true) && t.cfg == s.cfg
            && t.obs == s.obs + [StateChange(AwaitingConnection), LinkStats]
  {
  }

  // Disconnecting and aborting are one: DISC with P=1 and T1 over its answer, from a link
  // that is up with everything queued or outstanding dropped.
  lemma OperatorReleases(s: St, ev: Event)
    requires Inv(s) && (s.state == AwaitingConnection || Live(s)) && (ev.Disconnect? || ev.Abort?)
    ensures Admissible(s, ev)
    ensures var t := Handled(s, ev).st;
            && t.tx == s.tx + [Unnumbered(s.cfg, FrameDISC, true, true)] && t.state == AwaitingRelease
            && t.on.t1 && t.v == s.v.(n2Count := 0)
            && t.obs == s.obs + [StateChange(AwaitingRelease), LinkStats]
            && (Live(s) ==>
                  t.txBuf == [] && !t.on.t2 && !t.on.t3 && (forall i | 0 <= i < |t.pending| :: t.pending[i].None?))
            && (!Live(s) ==> t.txBuf == s.txBuf && t.pending == s.pending)
  {
  }

  // ----- AWAITING_RELEASE -----

  // What ends it: UA or DM with F=1, or the peer's own DISC. No error is reported.
  lemma ReleaseEndsIff(s: St, f: Frame)
    requires Inv(s) && s.state == AwaitingRelease
    ensures var t := Handled(s, FrameRX(Some(f))).st;
            && (t.state == Disconnected <==> Accepts(f) || Declines(f) || Disconnects(f))
            && t.terminated == (t.state == Disconnected)
            && (if t.state == Disconnected then !t.on.t1 && t.obs == s.obs + [StateChange(Disconnected), LinkStats]
                else t == s.(tx := t.tx))
  {
    hide Unnumbered;
  }

  // A command with P=1 for a link that is being released gets DM, F=1; what is no command
  // gets nothing.
  lemma ReleaseDiscourages(s: St, f: Frame)
    requires Inv(s) && s.state == AwaitingRelease && !SetsUp(f) && !Disconnects(f)
    ensures Handled(s, FrameRX(Some(f))).st.tx
            == s.tx + if (f.control.kind.FrameI? || BareNR(f)) && f.isCommand && f.control.pf
                      then [Unnumbered(s.cfg, FrameDM, true, false)] else []
  {
    NothingBefore(s);
  }

  lemma ReleaseRepeats(s: St)
    requires Inv(s) && s.state == AwaitingRelease
    ensures var t := Handled(s, T1Expiry).st;
            && t.tx == s.tx + [Unnumbered(s.cfg, FrameDISC, true, true)]
            && if s.v.n2Count < s.cfg.n2 then
                 t.state == AwaitingRelease && t.v == s.v.(n2Count := s.v.n2Count + 1) && t.on.t1 && t.obs == s.obs
               else
                 t.state == Disconnected && t.obs == s.obs + [Error(DiscTimeout), StateChange(Disconnected), LinkStats]
  {
    assert s.obs + [Error(DiscTimeout)] + [StateChange(Disconnected), LinkStats]
        == s.obs + [Error(DiscTimeout), StateChange(Disconnected), LinkStats];
  }

  // ----- a link that is up -----

  // What a live link does next, frame by frame and event by event: the peer or the last
  // unanswered enquiry ends it, a frame it cannot make sense of restarts it, and the two
  // states of it change into each other as an enquiry goes out and is answered.
  function NextState(s: St, ev: Event): State {
    if ev.Disconnect? || ev.Abort? then AwaitingRelease
    else if ev.T1Expiry? && s.state == TimerRecovery && s.v.n2Count >= s.cfg.n2 then Disconnected
    else if ev.T1Expiry? || (ev.T3Expiry? && s.state == Connected) then TimerRecovery
    else if ev.FrameRX? && ev.frame.Some? then
      var f := ev.frame.value;
      if f.control.kind.FrameDM? || Disconnects(f) then Disconnected
      else if Unexpected(s, f) then AwaitingConnection
      else if SetsUp(f) then Connected
      else if BareNR(f) && Final(s, f) && (f.control.kind.FrameREJ? || f.control.nr == s.v.vs) then Connected
      else s.state
    else s.state
  }

  lemma LiveStateIs(s: St, ev: Event)
    requires Inv(s) && Live(s) && Admissible(s, ev)
    ensures Handled(s, ev).st.state == NextState(s, ev)
  {
    hide Handled, Admissible, NextState;
    if ev.FrameRX? && ev.frame.Some? {
      FrameStateIs(s, ev.frame.value);
    } else {
      LocalStateIs(s, ev);
    }
  }

  lemma FrameStateIs(s: St, f: Frame)
    requires Inv(s) && Live(s) && Admissible(s, FrameRX(Some(f)))
    ensures Handled(s, FrameRX(Some(f))).st.state == NextState(s, FrameRX(Some(f)))
  {
    hide Handled;
    if Unexpected(s, f) {
      UnexpectedRestarts(s, f);
    } else if BareNR(f) {
      BareAnswered(s, f);
    } else if SetsUp(f) {
      LapbSending.PeerRestarts(s, f);
    } else if f.control.kind.FrameI? {
      InformationStays(s, f);
    } else if f.control.kind.FrameDM? || Disconnects(f) {
      PeerEnds(s, f);
    } else {
      NoCommandStays(s, f);
    }
  }

  // A SABM(E) or DISC that is no command is ignored.
  lemma NoCommandStays(s: St, f: Frame)
    requires Inv(s) && Live(s) && !f.isCommand
    requires f.control.kind.FrameSABM? || f.control.kind.FrameSABME? || f.control.kind.FrameDISC?
    ensures Admissible(s, FrameRX(Some(f))) && Handled(s, FrameRX(Some(f))).st == Kicked(s)
    ensures Kicked(s).state == s.state
  {
    hide Kicked;
    KickedKeeps(s);
  }

  lemma InformationStays(s: St, f: Frame)
    requires Inv(s) && Live(s) && Usable(s, f)
    ensures Admissible(s, FrameRX(Some(f))) && Handled(s, FrameRX(Some(f))).st.state == s.state
  {
    HandledInformation(s, f);
    AckedFirst(s, f);
    hide Handled, Acked, Received, Kicked;
    ReceivedAlike(Acked(s, f.control.nr), f);
    KickedKeeps(Received(Acked(s, f.control.nr), f));
  }

  lemma LocalStateIs(s: St, ev: Event)
    requires Inv(s) && Live(s) && !(ev.FrameRX? && ev.frame.Some?)
    ensures Admissible(s, ev) && Handled(s, ev).st.state == NextState(s, ev)
  {
    if ev.Disconnect? || ev.Abort? {
      OperatorReleases(s, ev);
    } else if s.state == Connected && (ev.T1Expiry? || ev.T3Expiry?) {
      TimerAsks(s, ev);
    } else if ev.T1Expiry? {
      if s.v.n2Count < s.cfg.n2 {
        TimerAsksAgain(s);
      } else {
        TimerGivesUp(s);
      }
    } else if ev.T2Expiry? {
      T2Acknowledges(s);
    } else if ev.DataTX? {
      TookReady(s, ev.data, false, true, true);
      KickedKeeps(Took(s, ev.data));
    } else {
      hide Kicked, SentStatus;
      KickedKeeps(s);
    }
  }

  // The peer ends a link with DISC, which is answered, or DM, which is not; either way
  // every timer stops, nothing stays queued, and the observer is told why.
  lemma PeerEnds(s: St, f: Frame)
    requires Inv(s) && Live(s) && (f.control.kind.FrameDM? || Disconnects(f))
    ensures Admissible(s, FrameRX(Some(f)))
    ensures var t := Handled(s, FrameRX(Some(f))).st;
            var code := if f.control.kind.FrameDM? then PeerReset else PeerDisconnected;
            && t.state == Disconnected && t.terminated
            && !t.on.t1 && !t.on.t2 && !t.on.t3 && !t.on.hb && t.txBuf == []
            && t.tx == s.tx + (if f.control.kind.FrameDM? then []
                               else [Unnumbered(s.cfg, FrameUA, f.control.pf, false)])
            && t.obs == s.obs + [Error(code), StateChange(Disconnected), LinkStats]
  {
    hide Kicked;
    NothingBefore(s);
    var code := if f.control.kind.FrameDM? then PeerReset else PeerDisconnected;
    assert s.obs + [Error(code)] + [StateChange(Disconnected), LinkStats]
        == s.obs + [Error(code), StateChange(Disconnected), LinkStats];
  }

  // ----- what makes no difference -----

  // Everything else a session that is not up is given, data included, changes nothing of
  // it and sends nothing.
  predicate Matters(s: St, ev: Event) {
    match s.state
    case Disconnected => ev.Connect?
    case AwaitingConnection => ev.T1Expiry? || ev.Disconnect? || ev.Abort?
    case AwaitingRelease => ev.T1Expiry?
    case _ => true
  }

  lemma OthersIgnored(s: St, ev: Event)
    requires Inv(s) && !Matters(s, ev) && !(ev.FrameRX? && ev.frame.Some?)
    ensures Admissible(s, ev) && Handled(s, ev).st == s && (!s.terminated ==> (Handled(s, ev).cont <==> !ev.Shutdown?))
  {
  }

  // ----- a run -----

  // The setup run so far: a call under way with T1 running and these frames sent.
  predicate Under(a: LapbRuns.System, c: Config, n2: int, tx: seq<Frame>, t1: bool, due1: bool) {
    && a.s.state == AwaitingConnection && a.s.cfg == c && a.s.v == ZERO_VARS.(n2Count := n2) && a.s.tx == tx
    && a.s.on.t1 == t1 && a.due == LapbIncidents.NONE_DUE.(t1 := due1) && !a.s.terminated && RingOk(a.s)
  }

  lemma CallStarts(c: Config) returns (tr: seq<LapbRuns.System>, acts: seq<Action>)
    requires ConfigOk(c)
    ensures tr != [] && Run(tr, acts) && acts == [Take(Connect)] && tr[0].s == NewSession(c)
    ensures Under(LapbIncidents.Last(tr), c, 0, [CallFrame(c)], true, false)
  {
    hide Handled, NewSession, CallFrame;
    tr, acts := [LapbRuns.System(NewSession(c), LapbIncidents.NONE_DUE)], [];
    NewReady(c);
    assert Run(tr, acts);
    OperatorCalls(NewSession(c));
    tr, acts := LapbIncidents.TakesEvent(tr, acts, Connect);
    assert [] + [CallFrame(c)] == [CallFrame(c)];
    LapbIncidents.CalledOut(c);
  }

  lemma NewReady(c: Config)
    requires ConfigOk(c)
    ensures var s := NewSession(c);
            s.cfg == c && Inv(s) && s.state == Disconnected && !s.terminated && s.tx == [] && !s.on.t1
  {
  }

  // T1 runs out and is handled, in a call with retries left.
  lemma CallAgain(tr: seq<LapbRuns.System>, acts: seq<Action>, c: Config, tx: seq<Frame>)
    returns (tr': seq<LapbRuns.System>, acts': seq<Action>)
    requires tr != [] && Run(tr, acts) && ConfigOk(c) && Under(LapbIncidents.Last(tr), c, 0, tx, true, false)
    ensures Run(tr', acts') && acts' == acts + [FireT1, HandleT1] && tr <= tr'
    ensures Under(LapbIncidents.Last(tr'), c, 1, tx + [CallFrame(c)], true, false)
  {
    hide Handled, CallFrame, Run;
    var a := LapbIncidents.Last(tr);
    var b := LapbRuns.System(a.s.(on := a.s.on.(t1 := false)), LapbIncidents.NONE_DUE.(t1 := true));
    LapbIncidents.Extended(tr, acts, FireT1, b);
    CallRepeats(b.s);
    var d := LapbRuns.System(Synced(Handled(b.s, T1Expiry).st), LapbIncidents.NONE_DUE);
    assert LapbRuns.Next(b, HandleT1, d);
    LapbIncidents.Extended(tr + [b], acts + [FireT1], HandleT1, d);
    tr', acts' := tr + [b] + [d], acts + [FireT1] + [HandleT1];
    assert acts + [FireT1] + [HandleT1] == acts + [FireT1, HandleT1];
  }

  // A modulo-128 call declined by DM is taken up by the peer after all: T1 sends SABM in
  // place of SABME, and the UA to it brings the link up in modulo 8.
  lemma DeclinedComesUp(c: Config, dm: Frame, ua: Frame) returns (tr: seq<LapbRuns.System>, acts: seq<Action>)
    requires ConfigOk(c) && c.mod128 && Declines(dm) && Accepts(ua)
    ensures tr != [] && Run(tr, acts) && tr[0].s == NewSession(c)
    ensures acts == [Take(Connect), Take(FrameRX(Some(dm))), FireT1, HandleT1, Take(FrameRX(Some(ua)))]
    ensures var s := LapbIncidents.Last(tr).s;
            && s.state == Connected && s.cfg == c.(mod128 := false, window := 2) && s.v == ZERO_VARS
            && s.tx == [Unnumbered(c, FrameSABME, true, true), Unnumbered(c, FrameSABM, true, true)]
  {
    hide Handled, Run, CallFrame;
    var c8 := c.(mod128 := false, window := 2);
    tr, acts := CallStarts(c);
    UnderInv(LapbIncidents.Last(tr), c, 0, [CallFrame(c)], true, false);
    CallFallsBack(LapbIncidents.Last(tr).s, dm);
    tr, acts := LapbIncidents.TakesEvent(tr, acts, FrameRX(Some(dm)));
    tr, acts := CallAgain(tr, acts, c8, [CallFrame(c)]);
    UnderInv(LapbIncidents.Last(tr), c8, 1, [CallFrame(c)] + [CallFrame(c8)], true, false);
    var s := LapbIncidents.Last(tr).s;
    CallEndsIff(s, ua);
    CallAccepted(s, ua);
    tr, acts := LapbIncidents.TakesEvent(tr, acts, FrameRX(Some(ua)));
    CallFrames(c);
  }

  lemma CallFrames(c: Config)
    requires c.mod128
    ensures [CallFrame(c)] + [CallFrame(c.(mod128 := false, window := 2))]
         == [Unnumbered(c, FrameSABME, true, true), Unnumbered(c, FrameSABM, true, true)]
  {
  }

  lemma UnderInv(a: LapbRuns.System, c: Config, n2: int, tx: seq<Frame>, t1: bool, due1: bool)
    requires ConfigOk(c) && Under(a, c, n2, tx, t1, due1) && 0 <= n2 <= c.n2
    ensures Inv(a.s)
  {
  }
}
