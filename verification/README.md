# Packet radio: the link layer, its frames and its bits

A Dafny model of the parts of the station that other machines depend on: the AX.25
connected-mode session and the frames it exchanges, the bit-level receiver and
transmitter below it, the Mic-E position format, and the small concurrent protocols
that hold the session together. Each is written in the form the program has (classes
with fields and loops where it changes state, functions where it computes) and proved
against a specification on values, about which the properties are then proved.

The files, from the bits up:

- `Fcs.dfy`: the table-driven check sequence and the bitwise polynomial behind it.
- `HdlcSpec.dfy`, `Hdlc.dfy`: the transmitter and the receiver, as functions and as the
  classes that compute them. `HdlcSync.dfy`: self-synchronisation and the round trip.
  `HdlcBatch.dfy`, `HdlcPreamble.dfy`, `HdlcSegments.dfy`, `HdlcExact.dfy`: what the receiver
  yields, said without registers, and where that fails. `HdlcLine.dfy`: the line bit by bit.
- `Address.dfy`, `Control.dfy`, `Frames.dfy`, `DedupKeys.dfy`: the frame codec and the keys
  made from frames. `WireOctets.dfy`: the octets by value.
- `Ring.dfy`: sequence numbers. `LapbSpec.dfy`: one event of the session as a function.
  `Session.dfy`: the session object. `LapbRing.dfy`, `LapbInvariants.dfy`, `LapbRuns.dfy`:
  what every event and every run keeps. `LapbReceive.dfy`, `LapbEnquiry.dfy`, `LapbSetup.dfy`,
  `LapbSending.dfy`: what each frame, timer and operator's command is answered with, delivers,
  sends and leads to, stated on the frames themselves. `LapbKick.dfy`: what kick sends in
  closed form. `LapbNotices.dfy`: what the observer is told. `LapbGiveUp.dfy`: retries.
  `LapbIncidents.dfy`: runs that go wrong. `LapbTimes.dfy`: how long T1 runs.
- `LapbDirection.dfy`, `LapbLink.dfy`, `LapbTransfer.dfy`, `LapbPair.dfy`, `LapbOpening.dfy`: two
  sessions joined by channels that lose frames. `LapbArrives.dfy`: by channels that do not.
- `Timers.dfy`, `RunLoop.dfy`, `Manager.dfy`, `Dispatch.dfy`: timers, wakeups, the table of
  sessions, and frames on their way to sessions that come and go.
- `MicE.dfy`, `MicESenders.dfy`: positions, as this beacon writes them and as any sender may.
  `ModemFilters.dfy`, `CarrierDetect.dfy`: two filters of the modem.

## How the session is modelled

`LapbSpec.Handled` is the effect of one event on the whole state of a session; the class
`LapbSession.Session` has one method per function of the program, each proved to do to
its fields what the specification says. `tx` lists the frames handed to the transmit
sink, `obs` the events given to the observer; `hist` is ghost state that nothing reads.
A timer is a flag (running or not) in the session; when it goes off is a step of the
environment, so every timing is covered. What an event asks of its caller is
`LapbSpec.Admissible`: no loop over the ring that it starts runs for ever (see Findings;
`LapbSpec.AdmissibleIff`). The run loop takes a finite list of events; that it ends stands
for cancellation.

In the two-session model each session's `tx` is the channel to the other. A step is a
local event at either end, the arrival of the frame at a channel's head, or the loss of
any frame on its way; nothing is reordered or duplicated. `LapbPair.WireFaithful` ties
those frames to octets.

Octets are integers from 0 to 255 in the codec and the session, `bv8` in the modem. Line
bits are booleans. Coordinates, speeds and altitudes are real numbers.

## Findings

Places where the code and what it is documented for differ. Each has the exact condition,
as a lemma for all inputs, and an input the code can receive: for the session a run from a
new one.

| source | what the code does | an input | exactly when |
|---|---|---|---|
| pkg/ax25conn/transitions_timer_recovery.go:80-83, 101-111 | In TIMER_RECOVERY a frame that acknowledges everything without being the awaited F=1 response stops T1 and the session stays in that state; T3, which is started then, is ignored there. With nothing queued, or with bytes queued for a peer that is busy, no timer ever asks a dead peer again, and the bytes stay in the queue. | `LapbIncidents.QuietStall`, `LapbIncidents.BusyStall` | `LapbGiveUp.StallsIff`, and from there `LapbGiveUp.StalledRun` |
| pkg/ax25conn/transitions_connected.go:26-32, 259-270 | A SABM(E) that changes the modulus switches it before requeueing; the requeue loop then stops only if it starts at its end or its end is below the new modulus. `framesAcked` (241-246) likewise never reaches an N(R) that is not below the modulus, which a frame decoded before the switch can carry. | `LapbIncidents.RebindHangs`, `LapbIncidents.AcknowledgementHangs` | `LapbSpec.AdmissibleIff`, `Ring.LoopStopsIff` |
| pkg/ax25conn/transitions_connected.go:302-311, pkg/ax25conn/transitions_awaiting_connection.go:46-51 | Setting a link up again after an invalid N(R) or an unexpected frame starts the numbers from zero without requeueing. The payloads of the frames then outstanding are never sent again and nothing reports them; a rebind by the peer's SABM, in contrast, requeues them, unless it changes the modulus over a window that wraps (`LapbRing.ReboundKeeps`). | `LapbIncidents.LostOnReestablish` | `LapbRuns.ReestablishedKeepsIff` |
| pkg/ax25conn/transitions_connected.go:200-209, pkg/ax25conn/transitions_disconnected.go:111-119 | I, RR, RNR and REJ frames are built in the modulo-8 form whatever the session's modulus. On a modulo-128 link one whose N(S) or N(R) is 8 or more does not encode; it is logged and dropped while V(S), the window and T1 count it as sent. | `LapbSending.NinthNeverSent` | `LapbSending.AllOnAirIff`, `LapbReceive.StatusOnAirIff` |
| pkg/ax25conn/session.go:229-240 | The exponential back-off's product wraps at 64 bits before its cap: T1 then falls back, to as little as twice the estimate instead of eight times. Up to 27 retries it is as documented; at 28, 29 and 30 it fails first at estimates of 2^34, 2^33 and 2^32 nanoseconds. | `LapbIncidents.BackoffFallsBack` | `LapbTimes.ExponentialIff` |
| graywolf-modem/src/hdlc.rs:450-451 | After five unstuffed ones the closing flag's own zero is dropped as stuffing, so a good frame there is refused and one with a bit too many is taken. No stuffed frame ends so. | `HdlcSegments.RefusedExample`, `HdlcSegments.WronglyTakenExample` | `HdlcSegments.NaiveDiffersIff`, `HdlcSegments.NaiveIff` |
| graywolf-modem/src/hdlc.rs:404-440, 540-648 | After the abort at the seventh of exactly fourteen ones the buffer of line bits starts with the other seven, and the second decoding at the next flag takes their zero for the end of a flag: it can find a frame no flag opened. | `HdlcExact.FourteenAddsFrame` | `HdlcExact.ReceiverIsBatchIff` |
| pkg/ax25/address.go:154-172, pkg/ax25conn/manager.go:180-192 | Decoding an address takes any octets for a callsign, and a dispatch finds its session by the rendered text: a header whose callsign field spells out AB-1, with an SSID of zero, reaches the session of AB with SSID 1. | `Dispatch.SpeltOutTaken` | `DedupKeys.TextIff`, `Manager.KeyIff` |
| graywolf-modem/src/tx/hdlc_encode.rs:50-56 | Every transmission starts its line low, so a receiver that last saw it high misreads the first flag; with a single flag in front the frame is lost. | every frame, the line last seen high | `HdlcPreamble.OneFlagIff` |
| pkg/ax25/frame.go:90-125 | FRMR, XID and TEST frames gain a PID octet on the transmit path that the connected-mode encoder does not write. | every frame of those kinds | `Frames.EncodersAgree` |

## Model

| member | source | states |
|---|---|---|
| LapbPair.TransferIsPrefix | pkg/ax25conn/transitions_connected.go:73-141 | in every run of two fresh modulo-8 links under any loss and any timing, until an end gives up, each observer has received a prefix of what the other end took in, at least what was acknowledged, and all of it once nothing is queued or outstanding; both links stay up |
| LapbArrives.NothingLostArrives | pkg/ax25conn/transitions_connected.go:73-228 | in every run of two fresh modulo-8 links in which nothing is lost, under any timing and until an end gives up: what one end took in is, in order, what the other's observer received, what the I-frames under way carry and what is queued, no REJ is ever under way, and once a channel is empty everything sent has been delivered |
| LapbReceive.TakesWanted | pkg/ax25conn/transitions_connected.go:87-121 | an I-frame with a valid N(R) and N(S) = V(R) at a live link that can receive: the observer gets exactly its octets, V(R) moves by one, the awaited gap is closed, and it is acknowledged under the new V(R): by one RR response with F=1 if it polls, else by the I-frames cut, else owed with T2 running |
| LapbReceive.RefusesOther | pkg/ax25conn/transitions_connected.go:121-131 | one out of order delivers nothing and moves nothing; the first is answered by one REJ with N(R) = V(R) and F as P, later ones only when they poll, by RR with F=1 |
| LapbReceive.DropsWhileBusy | pkg/ax25conn/transitions_connected.go:93-98 | while this end is busy nothing is delivered, and a poll is answered by RNR with F=1 |
| LapbReceive.T2Acknowledges | pkg/ax25conn/transitions_connected.go:155-159 | T2 sends the acknowledgement owed, one RR or RNR response with F=0 and N(R) = V(R), and none if none is owed |
| LapbReceive.AcknowledgementTimed | pkg/ax25conn/transitions_connected.go:113-120 | in every state a run reaches, an acknowledgement owed has T2 running or its expiry pending |
| LapbReceive.StatusOnAirIff | pkg/ax25conn/transitions_disconnected.go:93-119 | RR, RNR and REJ go out, with N(R) = V(R), exactly when V(R) is below 8, in either modulus |
| LapbEnquiry.TimerAsks | pkg/ax25conn/transitions_connected.go:143-154 | in CONNECTED T1 and T3 send one frame, RR or RNR, command, P=1, N(R) = V(R), start T1 and lead to TIMER_RECOVERY |
| LapbEnquiry.TimerAsksAgain | pkg/ax25conn/transitions_timer_recovery.go:174-176 | in TIMER_RECOVERY below n2 T1 sends the same first of all and counts |
| LapbEnquiry.TimerGivesUp | pkg/ax25conn/transitions_timer_recovery.go:158-173 | at n2 it sends one DM response with F=1, reports the timeout and DISCONNECTED, and stops every timer |
| LapbEnquiry.BareAnswered | pkg/ax25conn/transitions_timer_recovery.go:58-105 | in both states, every RR, RNR or REJ with a valid N(R): exactly one RR or RNR response with F=1 and N(R) = V(R), first of all, if it is a command with P=1, otherwise none; V(A) is N(R), T1 runs over what is left and T3 over nothing, RNR stops the sending and the others let it go on, and F=1 ends an enquiry exactly when N(R) is V(S) or it is a REJ |
| LapbEnquiry.UnexpectedRestarts | pkg/ax25conn/transitions_connected.go:302-311 | an invalid N(R) or a frame no live link expects sends SABM, SABME in modulo 128, with P=1, and leads to AWAITING_CONNECTION with T1 running and conditions and retries cleared |
| LapbEnquiry.HeartbeatFrees | pkg/ax25conn/heartbeat.go:19-36 | a link that could not receive says so no longer: one RR response, F=0, N(R) = V(R); any other sends nothing |
| LapbEnquiry.StatsTickTells | pkg/ax25conn/session.go:467-479 | a snapshot and another tick in CONNECTED, nothing elsewhere |
| LapbEnquiry.EnquiryRoundTrip | pkg/ax25conn/transitions_timer_recovery.go:68-79 | between two established sessions with nothing under way: the enquiry, delivered, is answered first of all, and the answer, delivered, brings the asker back to CONNECTED exactly when its peer has all it sent, with V(A) there and no retries counted |
| LapbEnquiry.IdleReturns | pkg/ax25conn/transitions_timer_recovery.go:68-79 | so an idle link that asks is back in CONNECTED one exchange later |
| LapbSending.DataGoesOut | pkg/ax25conn/transitions_connected.go:141-211 | data handed to a live modulo-8 link is taken in, and queue and data go out in order under the numbers from V(S) until the window is full, none of it while the peer is busy |
| LapbSending.BareGoesOn | pkg/ax25conn/transitions_connected.go:73-86 | after RR the queue goes on where it stopped; after REJ everything from N(R) on goes out again, from number N(R), before the queue; after RNR nothing does |
| LapbSending.PeerRestarts | pkg/ax25conn/transitions_connected.go:19-39 | a SABM(E) command at a live link: one UA with F as P first, all numbers and conditions zero in its modulus and default window, CONNECTED, T1 exactly over what goes out anew |
| LapbSending.RestartGoesOn | pkg/ax25conn/transitions_connected.go:19-39 | in modulo 8 the payloads of the window then go out again, from number 0, before the queue |
| LapbSending.NothingHeldBack | pkg/ax25conn/transitions_connected.go:172-228 | after every event on a live link but housekeeping and CONNECTED's T1 and T3, the queue is empty, the window full or the peer busy |
| LapbSending.AllOnAirIff | pkg/ax25conn/transitions_connected.go:200-209 | all that a kick cuts goes out exactly when N(R) and every number it uses are below 8, in either modulus |
| LapbSending.NinthNeverSent | pkg/ax25conn/transitions_connected.go:200-209 | a run from a new modulo-128 session to V(S) = 9 with eight frames sent |
| LapbSetup.CommandsAnswered | pkg/ax25conn/transitions_awaiting_release.go:15-34 | in every state SABM, SABME and DISC commands are answered with F as P, first of all: SABM(E) by UA in AWAITING_CONNECTION and on a live link and by DM in DISCONNECTED and AWAITING_RELEASE, DISC by UA on a live link and in AWAITING_RELEASE and by DM in AWAITING_CONNECTION |
| LapbSetup.CallEndsIff | pkg/ax25conn/transitions_awaiting_connection.go:19-66 | from AWAITING_CONNECTION a frame leads to CONNECTED exactly if it is a UA with F=1, to DISCONNECTED exactly if it is a DM with F=1 and the call is modulo 8 |
| LapbSetup.CallAccepted | pkg/ax25conn/transitions_awaiting_connection.go:42-51 | the UA zeroes the numbers, puts T3 in place of T1 and keeps what was queued |
| LapbSetup.CallDeclined | pkg/ax25conn/transitions_awaiting_connection.go:63-66 | the DM that ends a call is reported and not answered |
| LapbSetup.CallFallsBack | pkg/ax25conn/transitions_awaiting_connection.go:56-62 | a DM with F=1 in modulo 128 changes nothing but the modulus and its window: state and T1 stay as they are |
| LapbSetup.CallCrossed | pkg/ax25conn/transitions_awaiting_connection.go:24-41 | every other frame changes nothing but, if it is a SABM(E) command, modulus and window |
| LapbSetup.CallRepeats | pkg/ax25conn/transitions_awaiting_connection.go:68-87 | T1 sends SABM, SABME in modulo 128, with P=1 again below n2; at n2 a modulo-128 call starts again in modulo 8 and a modulo-8 one ends with the timeout reported |
| LapbSetup.OperatorCalls | pkg/ax25conn/transitions_disconnected.go:16-30 | connecting sends SABM, SABME in modulo 128, with P=1 and starts T1 and the heartbeat |
| LapbSetup.OperatorReleases | pkg/ax25conn/transitions_connected.go:160-168 | disconnecting and aborting send DISC with P=1 and start T1, from a live link with everything queued or outstanding dropped |
| LapbSetup.ReleaseEndsIff | pkg/ax25conn/transitions_awaiting_release.go:15-46 | from AWAITING_RELEASE a frame leads to DISCONNECTED exactly if it is a UA or DM with F=1 or a DISC command, without an error; any other changes nothing |
| LapbSetup.ReleaseDiscourages | pkg/ax25conn/transitions_awaiting_release.go:47-52 | there an I, RR, RNR or REJ command with P=1 gets a DM with F=1, everything else nothing |
| LapbSetup.ReleaseRepeats | pkg/ax25conn/transitions_awaiting_release.go:53-64 | T1 sends DISC with P=1 again below n2, and once more before it gives up and says so |
| LapbSetup.LiveStateIs | pkg/ax25conn/transitions_timer_recovery.go:13-196 | the state after every event on a live link, frame by frame |
| LapbSetup.PeerEnds | pkg/ax25conn/transitions_connected.go:40-57 | DISC and DM end a live link: DISC answered, DM not, timers stopped, queue dropped, each reported as what it was |
| LapbSetup.OthersIgnored | pkg/ax25conn/transitions_awaiting_connection.go:13-100 | everything else a session that is not up is given, data included, changes nothing and sends nothing |
| LapbSetup.DeclinedComesUp | pkg/ax25conn/transitions_awaiting_connection.go:56-62 | a run: a modulo-128 call answered by DM, then T1, then UA, is CONNECTED in modulo 8, having sent SABME and SABM |
| LapbPair.HeadTaken | pkg/ax25conn/transitions_connected.go:232-237 | the next frame to arrive is always one the session may be handed, and taking it neither ends nor restarts the link: no N(R) is judged invalid |
| LapbPair.LocalEndsIff | pkg/ax25conn/transitions_timer_recovery.go:150-193 | of an end's own events exactly the operator's disconnect and abort, and T1 with the enquiries used up, take an established link down |
| LapbPair.WireFaithful | pkg/ax25conn/frame.go:40-132 | both encoders write the same octets for any frame under way, and the modulo-8 decoder reads that frame back |
| LapbOpening.OpensTogether | pkg/ax25conn/transitions_awaiting_connection.go:19-55 | from two new sessions there is a loss-free run, SABMs and UAs crossing, to the established pair the transfer theorem starts from |
| LapbTransfer.CutAnew | pkg/ax25conn/transitions_connected.go:85-97 | acknowledging and cutting the queue anew on a REJ keeps both directions of the link consistent, everything still under way counting as old |
| LapbDirection.AckStep | pkg/ax25conn/transitions_connected.go:241-254 | an acknowledgement at the head of its channel is valid, and taking it keeps the direction's invariant |
| LapbDirection.SendStep | pkg/ax25conn/transitions_connected.go:186-211 | sending the next I-frame keeps the direction's invariant |
| LapbDirection.AcceptStep | pkg/ax25conn/transitions_connected.go:108-128 | delivering the wanted I-frame keeps the direction's invariant, its payload being the one the sender holds under that number |
| LapbDirection.LoseData | pkg/ax25conn/transitions_disconnected.go:111-143 | losing any frame on its way keeps the direction's invariant |
| LapbRuns.Reachable | pkg/ax25conn/session.go:338-405 | in every state reachable under any peer, operator and timing, a run ending before an event that starts a loop that never ends: numbers below the modulus, at most a window outstanding, each slot of the window holding the frame with its number, 0 <= N2Count <= N2, T1 armed or its expiry pending whenever frames are outstanding or setup or release is on, T1 or T3 on the way in CONNECTED, and Outstanding the window's size plus ceil(queued bytes / paclen) |
| LapbRuns.BytesConserved | pkg/ax25conn/transitions_connected.go:178-270 | while the link stays up, bytes taken in = bytes acknowledged, then the payloads in the window in order, then the queue, through kicks, acknowledgements, REJ and same-modulus rebinds |
| LapbRuns.FreshLinkConserved | pkg/ax25conn/transitions_awaiting_connection.go:42-55 | a link just confirmed owes nothing |
| LapbRuns.ReestablishedKeepsIff | pkg/ax25conn/transitions_connected.go:302-311 | a link set up again from zero still balances exactly when nothing was outstanding; otherwise the payloads of the window are what is missing |
| LapbInvariants.HandledHealthy | pkg/ax25conn/session.go:374-412 | one event from any healthy state, whatever the peer sent, keeps the window invariant, the retry budget, T1 over what is outstanding, and the bytes |
| LapbRing.AckedKeeps | pkg/ax25conn/transitions_connected.go:241-254 | a valid acknowledgement keeps the window and the bytes and shortens the window by what it acknowledges |
| LapbRing.RequeuedKeeps | pkg/ax25conn/transitions_connected.go:259-270 | requeueing empties the window and keeps the bytes |
| LapbRing.KickedKeeps | pkg/ax25conn/transitions_connected.go:178-228 | kick keeps the window and the bytes, changes nothing else, and leaves T1 over what is outstanding |
| LapbRing.ReboundKeeps | pkg/ax25conn/transitions_connected.go:20-39 | a rebind whose loop ends keeps every byte exactly when the modulus stays, or the window does not wrap, or, changing it, V(A) is below both moduli and the slots from 8 on are empty, or V(A) is 127, or the stale slots the loop takes in place of the skipped ones hold the same |
| LapbKick.DrainSends | pkg/ax25conn/transitions_connected.go:186-211 | kick sends the first pieces of the queue, consecutive numbers and one N(R), as many as the window has room for, and keeps the others |
| LapbKick.CutsShape | pkg/ax25conn/transitions_connected.go:192-198 | the pieces joined are the queue, all but the last are full, none is empty, and there are ceil(length / paclen) of them |
| LapbKick.KickedOutstanding | pkg/ax25conn/session.go:320-332 | Outstanding is the window's size plus the frames the queue will make, and sending some of them leaves it as it was |
| LapbGiveUp.GivesUpExactly | pkg/ax25conn/transitions_timer_recovery.go:158-176 | with a silent peer, whatever else happens, a session is DISCONNECTED exactly once T1 has expired as often as its budget says |
| LapbGiveUp.CallGivesUp | pkg/ax25conn/transitions_awaiting_connection.go:68-87 | an unanswered call takes n2 + 1 expiries, 2 * n2 + 2 when it starts in modulo 128 and falls back |
| LapbGiveUp.ReleaseGivesUp | pkg/ax25conn/transitions_awaiting_release.go:53-64 | an unanswered release takes n2 + 1 expiries |
| LapbGiveUp.StallsIff | pkg/ax25conn/transitions_timer_recovery.go:58-148 | in TIMER_RECOVERY any I, RR, RNR or REJ leaves the link unwatched exactly when it acknowledges everything, is not a supervisory response with F=1, and nothing is queued or the peer is busy after it |
| LapbGiveUp.StalledForever | pkg/ax25conn/transitions_timer_recovery.go:155-196 | from there no timer and no operator's data held back by a busy peer makes the session send a command, send what is queued or give up |
| LapbGiveUp.StalledRun | pkg/ax25conn/session.go:338-370 | the same in every run, where with T1 stopped and no expiry pending none can come |
| LapbIncidents.QuietStall | pkg/ax25conn/transitions_timer_recovery.go:80-83 | a run from a new session: T3, then an RR that is not final, and the link is unwatched |
| LapbIncidents.BusyStall | pkg/ax25conn/transitions_timer_recovery.go:80-83 | a run from a new session: T3, a non-final RNR, then data, which stays queued on an unwatched link |
| LapbIncidents.RebindHangs | pkg/ax25conn/transitions_connected.go:26-32 | a run from a new modulo-128 session with V(A) = 0 and V(S) = 9, where the peer's SABM starts a requeue loop that never ends |
| LapbIncidents.AcknowledgementHangs | pkg/ax25conn/transitions_connected.go:241-246 | a run to a link switched to modulo 8, where a queued frame decoded before with N(R) = 8 passes the test for it and starts a loop that never ends |
| LapbIncidents.LostOnReestablish | pkg/ax25conn/transitions_connected.go:302-311 | a run from a new session over data, FRMR and UA to a link that is up again and has lost the data |
| LapbIncidents.BackoffFallsBack | pkg/ax25conn/session.go:229-241 | a run from a new session over 28 unanswered calls, after which, T1 set to a minute, the exponential back-off waits one minute and not the documented four |
| LapbNotices.DisconnectedOnce | pkg/ax25conn/session.go:374-460 | every completed run, however it ended, reports DISCONNECTED exactly once, as the last state change |
| LapbNotices.HandledEnds | pkg/ax25conn/session.go:404-412 | an event reports DISCONNECTED exactly when it ends the session, and the loop does not go on after that |
| LapbTimes.ExponentialIff | pkg/ax25conn/session.go:212-246 | the exponential back-off is min(2 << n2count, 8) times the estimate always up to 27 retries, and for 28, 29 and 30 or more exactly for the estimates in the given intervals |
| LapbTimes.DocumentedUpTo27 | pkg/ax25conn/session.go:229-241 | up to 27 retries it always is |
| LapbTimes.WrapsAt28 | pkg/ax25conn/session.go:229-241 | at 28 retries and the slowest estimate it is not |
| LapbTimes.RttTracks | pkg/ax25conn/session.go:260-278 | a sample moves the estimate towards itself and never past, within the clamps |
| LapbTimes.BasisIs | pkg/ax25conn/session.go:212-222 | the estimate in use is the measured one, or half of T1 before there is one, within one millisecond and 30 seconds |
| LapbTimes.LinearIff | pkg/ax25conn/session.go:242-245 | the linear back-off is 2 * (n2count + 1) times the estimate exactly while that is below 2^63 nanoseconds |
| LapbTimes.LinearInPractice | pkg/ax25conn/session.go:242-245 | so for every estimate up to 153 million retries |
| LapbTimes.WithoutBackoff | pkg/ax25conn/session.go:224-225 | without a back-off T1 is twice the estimate |
| LapbTimes.RttMixes | pkg/ax25conn/session.go:271-277 | a sample weighs one part, what was known nine, rounded down and clamped |
| LapbTimes.RttKept | pkg/ax25conn/session.go:261-267 | retransmissions, a T1 never started and a clock that went back are not sampled |
| Ring.U8DistIsModular | pkg/ax25conn/transitions_connected.go:232-237 | the wrapped uint8 subtraction is the true modular distance for every pair of octets |
| Ring.LoopStopsIff | pkg/ax25conn/transitions_connected.go:259-267 | the ring loops stop exactly when they start at their end or their end is below the modulus |
| LapbSpec.AdmissibleIff | pkg/ax25conn/transitions_connected.go:11-141 | of all events exactly a SABM(E) command over a ring the new modulus cannot walk, and an I, RR, RNR or REJ whose N(R) the modulus does not have and the test lets pass, start a loop that never ends |
| Ring.SlotsShape | pkg/ax25conn/transitions_connected.go:243-246 | within the modulus such a loop runs exactly the modular distance and visits each number once, in order |
| LapbSession.Session.constructor | pkg/ax25conn/session.go:164-185 | a new session is DISCONNECTED, its ring and queue empty, no timer running |
| LapbSession.Session.Kick | pkg/ax25conn/transitions_connected.go:178-228 | the loop over the fields does what the recursive specification says |
| LapbSession.Session.FramesAcked | pkg/ax25conn/transitions_connected.go:241-254 | clears the slots up to N(R), advances V(A), settles T1 and T3 |
| LapbSession.Session.RequeueFromVA | pkg/ax25conn/transitions_connected.go:259-270 | empties the window back into the front of the queue in order |
| LapbSession.Session.IsValidNR | pkg/ax25conn/transitions_connected.go:232-237 | the uint8 arithmetic decides whether N(R) lies in [V(A), V(S)] |
| LapbSession.Session.OnDisconnected | pkg/ax25conn/transitions_disconnected.go:14-48 | the whole handler, as specified |
| LapbSession.Session.OnAwaitingConnection | pkg/ax25conn/transitions_awaiting_connection.go:13-100 | the whole handler, as specified |
| LapbSession.Session.OnConnected | pkg/ax25conn/transitions_connected.go:11-170 | the whole handler, as specified |
| LapbSession.Session.OnTimerRecovery | pkg/ax25conn/transitions_timer_recovery.go:13-196 | the whole handler, as specified |
| LapbSession.Session.OnAwaitingRelease | pkg/ax25conn/transitions_awaiting_release.go:8-69 | the whole handler, as specified |
| LapbSession.Session.EstablishDataLink | pkg/ax25conn/transitions_connected.go:302-311 | conditions and retries cleared, SABM(E) sent, T1 running, AWAITING_CONNECTION |
| LapbSession.Session.SetState | pkg/ax25conn/session.go:439-460 | reports a change and a snapshot, runs the stats timer in CONNECTED only, and marks the end |
| LapbSession.Session.DoHeartbeat | pkg/ax25conn/heartbeat.go:19-43 | clears own-busy and answers when it was set, and re-arms itself on a live link |
| LapbSession.Session.Handle | pkg/ax25conn/session.go:374-412 | one event, dispatched by state, with Outstanding refreshed |
| LapbSession.Session.Run | pkg/ax25conn/session.go:338-370 | the loop leaves at the first event that ends the session, or when the events run out, and then cleans up |
| LapbSession.Session.Cleanup | pkg/ax25conn/session.go:414-431 | stops every timer and reports DISCONNECTED unless that has happened |
| Fcs.TableIsBitwise | graywolf-modem/src/hdlc.rs:20-53 | each of the 256 table entries is eight steps of the reflected 0x8408 register |
| Fcs.FoldedIsBitwise | graywolf-modem/src/hdlc.rs:56-70 | the table-driven register over octets is the bitwise one over their bits |
| Fcs.FcsCalc | graywolf-modem/src/hdlc.rs:56-62 | the whole-slice loop equals the incremental steps |
| Fcs.BurstChangesFcs | graywolf-modem/src/hdlc.rs:56-75 | two messages of equal length that differ only inside 16 consecutive bits never share a check sequence |
| Fcs.BurstRejected | graywolf-modem/src/hdlc.rs:478-499 | no burst of up to 16 bits anywhere in a good frame, its check octets included, gets past the check |
| Fcs.ChecksIsResidue | graywolf-modem/src/hdlc.rs:480-485 | a frame checks exactly when the register over all of it leaves 0xf0b8 |
| Hdlc.Encode | graywolf-modem/src/tx/hdlc_encode.rs:27-34 | the line is the NRZI form of flags, stuffed frame with check sequence, flags, its state carried through |
| Hdlc.HdlcEncoder.PushFrame | graywolf-modem/src/tx/hdlc_encode.rs:75-84 | sends the stuffed bits of the frame and its check sequence, low octet first |
| Hdlc.HdlcEncoder.PushStuffedBit | graywolf-modem/src/tx/hdlc_encode.rs:97-108 | one bit, and a zero after the fifth one |
| Hdlc.HdlcEncoder.PushFlags | graywolf-modem/src/tx/hdlc_encode.rs:59-70 | flags, never stuffed |
| Hdlc.HdlcDecoder.ProcessBit | graywolf-modem/src/hdlc.rs:368-472 | one line bit does to the decoder's fields and buffers what the specification says, and yields its frame |
| Hdlc.HdlcDecoder.TryDecode | graywolf-modem/src/hdlc.rs:478-505 | the direct check, then the stored bits |
| Hdlc.HdlcDecoder.DecodeFromRawBits | graywolf-modem/src/hdlc.rs:540-648 | the re-decode of the stored line bits, as specified |
| HdlcSync.SelfSynchronising | graywolf-modem/src/hdlc.rs:368-472 | from any state whatever, a flag and any number of frames sharing flags (15 to 2123 octets each) yield exactly those frames after at most one left over |
| HdlcSync.TransmissionsTaken | graywolf-modem/src/tx/hdlc_encode.rs:27-34 | any number of transmissions of the encoder, each with two flags or more in front and one behind, come out of a new decoder as the frames put in, and of any other after at most one left over |
| HdlcSync.FlagFromAnywhere | graywolf-modem/src/hdlc.rs:404-440 | one flag brings any decoder into step |
| HdlcSync.FrameTaken | graywolf-modem/src/hdlc.rs:450-499 | a stuffed frame between two flags is taken as it was sent |
| HdlcLine.ZeroTurns | graywolf-modem/src/tx/hdlc_encode.rs:110-116 | a line bit equals the one before exactly when the data bit is a one |
| HdlcLine.StuffingMeans | graywolf-modem/src/tx/hdlc_encode.rs:97-108 | stuffed bits never hold six ones in a row, and dropping the bit after every five gives the data back |
| HdlcLine.LowBitFirst | graywolf-modem/src/tx/hdlc_encode.rs:90-95 | octets go low bit first |
| HdlcLine.KnownFcs | graywolf-modem/src/hdlc.rs:56-75 | the digits 1 to 9 have the check sequence 0x906e |
| HdlcLine.KnownTransmission | graywolf-modem/src/tx/hdlc_encode.rs:27-116 | the octet 0xff between two flags, bit by bit |
| HdlcLine.YieldsLengths | graywolf-modem/src/hdlc.rs:478-648 | whatever the line brings, frames of 15 to 2123 octets only |
| HdlcLine.TakenIffLong | graywolf-modem/src/hdlc.rs:478-499 | the encoder's frames are taken exactly if they are of those lengths |
| HdlcExact.ReceiverIsExact | graywolf-modem/src/hdlc.rs:404-505 | for every stream a new receiver yields at each flag the frame the bits since the last flag make up, or else what the bits after a run of exactly fourteen ones do, with no flag or abort since, seven bits over and as far as the buffer goes; nothing else |
| HdlcExact.ReceiverIsBatchIff | graywolf-modem/src/hdlc.rs:404-505 | it yields exactly what the batch specification does if and only if no flag makes such a frame of what followed fourteen ones |
| HdlcBatch.NoFlagNoRescan | graywolf-modem/src/hdlc.rs:540-648 | stored bits without a flag pattern decode to nothing |
| HdlcBatch.ClosedFrame | graywolf-modem/src/hdlc.rs:478-499 | seven bits over and a good check is the same as the bits between the flags making up a frame |
| HdlcPreamble.SentSegmentTaken | graywolf-modem/src/tx/hdlc_encode.rs:75-108 | the batch specification takes what the encoder puts between two flags as the frame it was given |
| HdlcSegments.NaiveDiffersIff | graywolf-modem/src/hdlc.rs:450-451 | whole octets with a good check is what the receiver takes except on segments that end in five ones with octets that check: with no bit over it refuses them, with one bit over it takes them |
| HdlcSegments.NaiveIff | graywolf-modem/src/hdlc.rs:404-505 | the same of the receiver itself: a flag, any segment without six ones in a row, a flag, fed to a new receiver in either line state |
| HdlcSegments.SegmentReceived | graywolf-modem/src/hdlc.rs:404-505 | what such a stream yields is the segment's frame and nothing else |
| HdlcSegments.RefusedExample | graywolf-modem/src/hdlc.rs:450-451 | fourteen zero octets and 0xc0 with their check sequence, the last stuffed zero missing: refused |
| HdlcSegments.WronglyTakenExample | graywolf-modem/src/hdlc.rs:450-451 | fourteen zero octets and 0x0c with their check sequence and a one too many: taken |
| HdlcExact.FourteenAddsFrame | graywolf-modem/src/hdlc.rs:404-505 | fourteen ones, a zero, a frame's stuffed bits, seven zeros and a flag: the batch specification has no frame there, the receiver yields it |
| HdlcPreamble.OneFlagIff | graywolf-modem/src/tx/hdlc_encode.rs:27-56 | with one flag in front a new receiver gets the frame exactly when it last saw the line low |
| Control.EncodeThenParse | pkg/ax25conn/control.go:79-272 | every control field a modulus has encodes, and parses back, whatever follows |
| Control.ParseThenEncode | pkg/ax25conn/control.go:79-272 | what parses is well formed and encodes to the octets it came from |
| WireOctets.UnnumberedOctets | pkg/ax25conn/control.go:133-195 | the octet of each unnumbered frame, with and without the poll or final bit, written and read under either modulus |
| WireOctets.NumberedOctet | pkg/ax25conn/control.go:133-160 | where N(R), the poll or final bit, N(S) and the supervisory code are in modulo 8's one octet |
| WireOctets.NumberedOctets | pkg/ax25conn/control.go:234-272 | where they are in modulo 128's two |
| WireOctets.AddressOctets | pkg/ax25/address.go:120-152 | the callsign one bit up and padded with spaces, then C or H bit, two ones, SSID and end bit |
| WireOctets.FrameOctets | pkg/ax25conn/frame.go:63-86 | destination, source, path, control, PID, information in that order, the end bit in the last address and the C bits as command or response says |
| WireOctets.KnownInformation | pkg/ax25conn/frame.go:63-86 | an I-frame from N7LEM to NJ7P in full |
| WireOctets.KnownRepeated | pkg/ax25conn/frame.go:63-86 | a DM that a digipeater has repeated, in full |
| Address.Encode | pkg/ax25/address.go:120-152 | writes exactly the seven octets of the address, or nothing when the callsign is refused |
| Address.AddrRoundTrip | pkg/ax25/address.go:120-172 | a valid address decodes from what it encodes to |
| Address.AddrCanonical | pkg/ax25/address.go:120-172 | decoding and encoding seven octets gives them back exactly when they are canonical |
| Address.EncodeAddressBlock | pkg/ax25/frame.go:127-148 | the buffer-filling loop writes destination, source and path as specified |
| Address.DecodeAddressBlock | pkg/ax25/frame.go:217-262 | the offset-advancing loop reads them back as specified |
| Address.BlockRoundTrip | pkg/ax25/frame.go:127-148 | an address block of up to eight repeaters decodes from what it encodes to, whatever follows |
| Address.BlockCanonical | pkg/ax25/frame.go:217-262 | which address blocks survive decoding and encoding |
| Frames.FrameRoundTrip | pkg/ax25conn/frame.go:63-132 | every well-formed frame of either modulus encodes, and decodes to itself |
| Frames.DecodeThenEncode | pkg/ax25conn/frame.go:63-132 | which octets survive: a canonical address block and no octets after a frame without information |
| Frames.EncodersAgree | pkg/ax25conn/frame.go:40-86 | the transmit path writes the same octets as Encode exactly for every kind but FRMR, XID and TEST |
| Frames.PassthroughVerbatim | pkg/ax25/frame.go:198-215 | a frame relayed opaquely goes out octet for octet exactly when its address block is canonical |
| DedupKeys.DedupKeyExact | pkg/ax25/frame.go:287-295 | keys are equal exactly when destination, source and information are |
| DedupKeys.PathDedupKeyExact | pkg/ax25/frame.go:306-320 | keys are equal exactly when source, destination, every path callsign and SSID, and information are |
| DedupKeys.BuildPathDedupKey | pkg/ax25/frame.go:306-320 | the loop over the path builds the specified key |
| DedupKeys.TextExact | pkg/ax25/address.go:97-107 | the text form names exactly one valid address |
| DedupKeys.TextIff | pkg/ax25/address.go:97-107 | any address at all has the text of a valid one exactly when it is that one, or has SSID 0 and a callsign that holds the other's suffix or mark in its own letters |
| MicE.MicERoundTrip | pkg/beacon/mice.go:28-83 | what the beacon encodes the parser never rejects: hemispheres, offset, message, symbol, speed and course exactly, altitude to the metre, coordinates cut off at the ambiguity's unit |
| MicE.DestRoundTrip | pkg/aprs/mice.go:199-286 | at any ambiguity hemispheres, longitude offset and message decode unchanged, and the latitude is truncated by less than the unit |
| MicE.LonRoundTrip | pkg/aprs/mice.go:373-431 | the folded longitude always decodes under the destination's flags to the rounded value cut off at the unit |
| MicE.LonError | pkg/beacon/mice.go:112-119 | without ambiguity the longitude is within 1/12000 degree, 1/6000 next to 180 |
| MicE.SpeedCourseRoundTrip | pkg/aprs/mice.go:439-458 | rounded and clamped speed and normalised course come back exactly |
| MicE.AltitudeRoundTrip | pkg/beacon/mice.go:216-230 | altitude comes back to the metre within three base-91 digits, whatever comment follows |
| MicE.EncodeMicEDest | pkg/aprs/mice.go:493-562 | the loop over the six slots builds the specified destination |
| MicE.DecodeMicEDest | pkg/aprs/mice.go:199-286 | the loop over the six slots decodes as specified, rejecting any other character |
| MicESenders.CharReads | pkg/aprs/mice.go:205-236 | each of the 256 octets stands for a digit or a blank with its high bit exactly as 0-9, A-J, K, L, P-Y and Z do |
| MicESenders.AnyDestination | pkg/aprs/mice.go:200-286 | however the six characters are written, the latitude, the message and the three flags come out |
| MicESenders.DestinationReadsIff | pkg/aprs/mice.go:200-240 | a destination decodes exactly if it is six such characters |
| MicESenders.AnyLongitude | pkg/aprs/mice.go:373-431 | every octet that stands for degrees, minutes and hundredths under the offset flag is read as them |
| MicESenders.LongitudeStands | pkg/aprs/mice.go:373-431 | and what decodes is one of those |
| MicESenders.AnySpeedCourse | pkg/aprs/mice.go:439-458 | every speed below 800 and course below 400, with or without the offsets of 800 and 400, comes back |
| MicESenders.KnownOffsetForm | pkg/aprs/mice.go:439-458 | 110, 34, 79 is 20 knots and 251 degrees |
| MicESenders.UnknownIff | pkg/aprs/mice.go:439-449 | both are unknown exactly when the field is short or an octet below 28 |
| MicESenders.SquashUndoneIff | pkg/aprs/mice.go:95-126 | the space a gateway took out of the speed and course field is put back exactly when the octet after the symbol is no symbol table |
| MicESenders.SquashedReportReads | pkg/aprs/mice.go:95-126 | such a report is then read as the one sent |
| MicESenders.PrefixedAltitude | pkg/aprs/mice.go:131-163 | an altitude after one octet of prefix is read, the prefix and the comment left |
| MicESenders.KnownDestination | pkg/aprs/mice.go:493-562 | a destination written out |
| MicESenders.KnownReport | pkg/aprs/mice.go:60-165 | a report written out |
| Timers.FiresIff | pkg/ax25conn/timers.go:54-86 | in every interleaving a callback fires exactly when the reset that is the last word as it takes the lock is its own, or the 64-bit generation has gone round between the two |
| Timers.FiresWhileStanding | pkg/ax25conn/timers.go:54-86 | within 2^64 locked sections it fires exactly when its own reset is still the last word |
| Timers.FiresAfterWrap | pkg/ax25conn/timers.go:54-71 | after 2^64 more resets the first one's callback fires |
| Timers.RunningIff | pkg/ax25conn/timers.go:102-106 | running() is true exactly while some reset is the last word |
| Timers.FiresOnce | pkg/ax25conn/timers.go:63-75 | each arming fires at most once within 2^64 locked sections |
| Timers.NeverAfterStop | pkg/ax25conn/timers.go:88-99 | a reset or stop that gets the lock before a callback keeps it from firing, within as many |
| Timers.Timer.BeginReset | pkg/ax25conn/timers.go:54-62 | the locked part of a reset: a new generation, running |
| Timers.Timer.Expired | pkg/ax25conn/timers.go:64-71 | the callback's check: fires, and stops running, exactly when its generation still stands |
| Timers.Timer.Stop | pkg/ax25conn/timers.go:88-99 | a stop: a running timer is off and its generation gone |
| RunLoop.NoLostWakeup | pkg/ax25conn/session.go:301-307 | in every interleaving, a pending bit found by the blocked loop has its wakeup in the slot or its signaller yet to post it |
| RunLoop.NoStarvation | pkg/ax25conn/session.go:338-370 | while an expiry is due at most one queued event is started |
| RunLoop.SwapTakes | pkg/ax25conn/session.go:341-357 | once the loop takes the bits, every due expiry is among those it is about to handle |
| RunLoop.DrainsInOrder | pkg/ax25conn/session.go:341-357 | in every interleaving taken expiries are handled T1, T2, T3, heartbeat, statistics, each once |
| RunLoop.DueUntilHandled | pkg/ax25conn/session.go:301-357 | an expiry is due from its signal until it is handled or the session ends |
| RunLoop.HandledPerSignal | pkg/ax25conn/session.go:301-357 | in every interleaving the handlings of an expiry and those still waiting are never more than its signals |
| Manager.SessionManager.Open | pkg/ax25conn/manager.go:106-158 | opens exactly when the manager is open, the channel allows it, both caps leave room, the triple is free and the configuration is complete, with the first failure as the error; the table invariant holds |
| Manager.SessionManager.Remove | pkg/ax25conn/manager.go:160-165 | deletes the key and the id, whatever they are; the tables go on holding the same sessions exactly when what the two lead to is one session |
| Manager.SessionManager.Resolve | pkg/ax25conn/manager.go:185-192 | the lookup under the lock finds the session under the header's key, or none |
| Manager.SessionManager.Deliver | pkg/ax25conn/manager.go:224-231 | records the path and submits the frame, to the session it is given |
| Manager.SessionManager.DispatchRaw | pkg/ax25conn/manager.go:175-231 | undisturbed, a frame reaches, decoded under its modulus, the session its header's key finds and no other |
| Manager.SubmitTakesIff | pkg/ax25conn/session.go:280-295 | a submit takes effect exactly while fewer than 32 events wait |
| Manager.FirstFitStay | pkg/ax25conn/session.go:280-295 | of any events submitted while none is taken the first that fit stay, in order |
| Dispatch.LastPathIsLatest | pkg/ax25conn/manager.go:224-249 | in every interleaving LastPath answers the traversed head of the path of the frame recorded last for a session still in the tables, nothing before the first and for any other id |
| Dispatch.Delivered | pkg/ax25conn/manager.go:175-231 | whatever is opened, removed, closed, renegotiated or dispatched in between, a path is recorded and a frame submitted only to the session the dispatch's own lookup found, as decoded with the modulus that session had when the dispatch read it; between valid stations the frame's read as the session's, and are its own exactly when the SSIDs are and neither carries the repeated mark |
| Dispatch.OpenedLaterGetsNothing | pkg/ax25conn/manager.go:198-203 | a session opened after the lookup, under the same triple or another, is left alone |
| Dispatch.OnlyOwnFrames | pkg/ax25conn/manager.go:224-231 | in every interleaving each frame in a session's queue came from octets that name that session's key, decoded with a modulus read from it |
| Dispatch.OwnStations | pkg/ax25conn/manager.go:180-192 | so between valid stations its addresses read as the session's, and are the session's own exactly when the SSIDs are and neither carries the repeated mark |
| Dispatch.SpeltOutTaken | pkg/ax25/address.go:154-172 | a run in which the session of AB, SSID 1, takes an RR whose destination field reads AB-1 with SSID 0 |
| Dispatch.LimitsHold | pkg/ax25conn/manager.go:122-133 | in every interleaving at most MaxTotal sessions are in the table, and at most MaxPerOperator of any operator |
| Dispatch.RemovesItsOwn | pkg/ax25conn/manager.go:153-165 | when a session's goroutine takes its key and id out they still lead to that session, and every other session stays in the tables |
| Dispatch.ClosedCancelsAll | pkg/ax25conn/manager.go:285-296 | in every interleaving, after a close every session still in the tables has been told to stop |
| Dispatch.ReopenedGetsNothing | pkg/ax25conn/manager.go:198-203 | the race itself: the triple opened again in the other modulus between the lookup and the delivery |
| Manager.SessionManager.Close | pkg/ax25conn/manager.go:285-296 | cancels every live session |
| Manager.SessionManager.CountFor | pkg/ax25conn/manager.go:125-130 | counts an operator's sessions |
| Manager.KeyIff | pkg/ax25conn/manager.go:180-192 | any header leads to a session of two valid stations exactly when the channel is the session's and both addresses have its stations' texts, in the terms of TextIff |
| Manager.NormalizeInboundPath | pkg/ax25conn/manager.go:257-275 | the loop keeps the entries before the first that is not marked repeated, their marks dropped |
| ModemFilters.KeptApart | graywolf-modem/src/demod_afsk_multi.rs:220-239 | identical frames that are both kept are at least the window apart, exactly when there is a window or they came in order |
| ModemFilters.DroppedIff | graywolf-modem/src/demod_afsk_multi.rs:220-239 | a frame is dropped exactly when there is a window and it comes before the one after some kept twin is over |
| ModemFilters.Ensemble.Collect | graywolf-modem/src/demod_afsk_multi.rs:220-239 | the loop keeps exactly those frames, in order |
| ModemFilters.OutOfOrder | graywolf-modem/src/demod_afsk_multi.rs:220-239 | with a window of zero a later twin is kept at an earlier offset |
| ModemFilters.ChangesAlternate | graywolf-modem/src/demod_afsk.rs:729-759 | consecutive carrier changes go opposite ways and lie at least 24 symbols apart |
| ModemFilters.SlicerState.PllDcdEachSymbol | graywolf-modem/src/demod_afsk.rs:729-759 | one symbol shifts the three registers and reports a change exactly when there is one |
| ModemFilters.SlicerState.PllDcdSignalTransition | graywolf-modem/src/demod_afsk.rs:717-725 | a transition is good within 512 * 2^20 of the phase's middle, bad outside |
| CarrierDetect.CarrierFromSymbols | graywolf-modem/src/demod_afsk.rs:729-759 | from any registers: carrier is detected once 30 of the last 32 symbols ended eight in which good transitions lead by two or more, lost once at most 6 did, and otherwise as before |
| CarrierDetect.SteadyDecides | graywolf-modem/src/demod_afsk.rs:729-759 | from any registers 39 good symbols end with carrier, and 39 without a good transition end without |
| CarrierDetect.NewSlicerDetects | graywolf-modem/src/demod_afsk.rs:729-759 | a new slicer given good symbols detects carrier with the 31st |

## Left out

- LapbPair.TransferIsPrefix: safety only; LapbArrives.NothingLostArrives says what arrives when nothing is lost. Delivery under loss, and anything under reordering or duplication, is not something the code provides: an F=1 response with frames outstanding does not requeue them, and a stale REJ would cut the queue anew under reused numbers.
- LapbPair.TransferIsPrefix: modulo 8 only; a modulo-128 link does not survive the wire (see Findings).
- LapbOpening.OpensTogether: one loss-free run; which other beginnings lead to the established pair is not said.
- MicE.MicERoundTrip: over the reals; the program's floating point can move a truncated hundredth by one. Comment text behind the position (manufacturer, telemetry, DAO) is kept as it is and not interpreted.
- MicE.DestRoundTrip: over the reals, like the whole position.
- MicE.LonRoundTrip: over the reals, like the whole position.
- MicE.LonError: over the reals; the program's own rounding errors come on top.
- Timers: the stopper that keeps most stale callbacks from running at all is not modelled; nothing proved depends on it.
- Manager.SessionManager.Open: the channel mode lookup and the presence of a transmit sink are parameters. In Dispatch a session's goroutine is the steps that drain its queue, end its run and remove it, and opening can be refused for the limits, the triple or a close; a refusal for anything else is no step. The manager's variant for frames already decoded (manager.go:205-222) has no caller.
- A submit that fails: the transmit sink is a list, and loss is a step of the channel; the one-shot notice to the operator is left out.
- Link statistics, their mutex and the logger; the snapshot event is modelled without its contents.
- The condition byte is a record of four flags; its bit operations are not modelled. No code sets the own-busy flag, but every claim allows it.
- Bit-flip recovery, the scrambled (9600 baud) line and the speed error of a frame; a run of `fix_bits` other than none is not modelled.
- The parsers of callsigns and via-paths from text.
- Filters, gain control, oscillators and phase of the modem; the AGW, KISS and WebSocket servers, beacons' schedules, storage and wiring.
