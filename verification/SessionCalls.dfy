/**
 What the calls on a session achieve when nobody interferes: hold, resume, connect, agent
 transfer, a visit of a transfer node, an arriving track, the end of a terminal transfer, the
 hang-up of an outgoing call. The end states are given field by field.
 */
module SessionCalls {
  import opened Wrappers
  import opened SessionProtocol
  import opened SessionSafety
  import opened SessionTheorems
  import opened SessionProgress

  lemma AloneStepChild(s: State, t: Thread, n: nat, s': State, t': Thread)
    requires Act(s, t, false).state == s' && Act(s, t, false).thread == t'
    ensures Alone(s, t, n + 1) == Alone(s', t', n)
  {
    hide Act;
  }

  /** Bridge `b` was closed, the others are as they were. */
  ghost predicate ClosedOnly(s: State, s': State, b: nat) {
    && |s'.bridges| == |s.bridges| && b < |s.bridges|
    && s'.bridges[b].stopped && s'.bridges[b].closes == 1
    && forall k :: 0 <= k < |s.bridges| && k != b ==> s'.bridges[k] == s.bridges[k]
  }

  lemma StoppedCloses(s: State, b: nat)
    requires b < |s.bridges|
    ensures ClosedOnly(s, StoppedState(s, Some(b)), b)
    ensures StoppedState(s, Some(b)) == s.(bridges := StoppedState(s, Some(b)).bridges)
  {
  }

  /** Stopping the bridge that was taken, if there was one, and going on to the end. */
  lemma StopThenEnds(taken: State, bridge: Option<nat>, next: Then, n: nat, last: State)
    requires taken.bridge.None? && Sound(taken.(bridge := bridge))
    requires Alone(StoppedState(taken, bridge), Proceed(next), n) == Pair(last, Finished)
    requires Alone(StoppedState(taken, bridge), Proceed(next), 3 + n) == Pair(last, Finished)
    ensures Alone(taken, StopThen(bridge, next), 3 + n) == Pair(last, Finished)
  {
    hide Alone, StoppedState, Proceed, StopThen, Sound;
    assert taken.(bridge := bridge).(bridge := None) == taken;
    StopThenAlone(taken.(bridge := bridge), next, n);
  }

  // ----- Hold and resume -----

  lemma HoldActs(s: State, b: nat)
    requires !s.hold && s.bridge == Some(b)
    ensures Act(s, Holding, false) == Stay(s.(bridge := None), Stopping(b, MarkStopped, ThenPlayHold))
  {
    hide LookStep, TrackStep, TransferStep, ConnectStep, EndStep, ReportStep, CleanupStep, BridgeStep;
  }

  lemma PlayHoldActs(s: State)
    ensures Act(s, PlayingHold, false) == Stay(s.(hold := true), Finished)
    ensures Act(s, DroppingAgent, false) == Stay(s.(agent := None), Finished)
  {
    hide LookStep, TrackStep, TransferStep, ConnectStep, EndStep, ReportStep, CleanupStep, BridgeStep;
  }

  lemma HoldRun(s: State, b: nat)
    requires Sound(s) && s.inMap && !s.hold && s.bridge == Some(b)
    ensures Alone(s, Looking(CallHold), 6) == Pair(StoppedState(s.(bridge := None), Some(b)).(hold := true), Finished)
  {
    hide Act, Alone, StoppedState;
    var taken := s.(bridge := None);
    var stopped := StoppedState(taken, Some(b));
    HoldActs(s, b);
    PlayHoldActs(stopped);
    AdmittedAlone(s, CallHold, 5);
    AloneStep(s, Holding, 4, taken, Stopping(b, MarkStopped, ThenPlayHold));
    StopAlone(taken, b, ThenPlayHold, 1);
    AloneStep(stopped, PlayingHold, 0, stopped.(hold := true), Finished);
    AloneZero(stopped.(hold := true), Finished);
  }

  /** HoldCall closes the current bridge and leaves the session on hold, without a bridge, and otherwise as it was. */
  lemma HoldAlone(m: System, b: nat)
    requires Reachable(m) && m.state.inMap && !m.state.hold && m.state.bridge == Some(b)
    ensures var s, x := m.state, Alone(m.state, Looking(CallHold), 6);
            && x.thread == Finished
            && x.state.bridge == None && x.state.hold
            && ClosedOnly(s, x.state, b)
            && x.state == s.(bridge := None, hold := true, bridges := x.state.bridges)
  {
    ReachableSound(m);
    HoldRun(m.state, b);
    StoppedCloses(m.state.(bridge := None), b);
    hide Alone, Reachable, StoppedState;
  }

  /** A new bridge was started and is current; the one before it, if any, is only forgotten. */
  ghost predicate StartedNew(s: State, s': State, remote: Option<nat>, local: Option<nat>) {
    var n := |s.bridges|;
    && s'.bridge == Some(n) && |s'.bridges| == n + 1
    && s'.bridges[n].launch == (if remote.Some? && local.Some? then Direct else Reserved(local.Some?))
    && !s'.bridges[n].stopped && s'.bridges[n].closes == 0
    && forall k :: 0 <= k < n ==> s'.bridges[k].closes == s.bridges[k].closes && s'.bridges[k].stopped == s.bridges[k].stopped
  }

  /** The bridge as Start leaves it. */
  function Started(x: Bridge, remote: Option<nat>, local: Option<nat>): Bridge {
    if remote.Some? && local.Some? then x.(attached := true, launch := Direct) else x.(launch := Reserved(local.Some?))
  }

  function BridgedState(s: State, remote: Option<nat>, local: Option<nat>): State {
    var left := RetireBridge(s);
    left.(bridge := Some(|s.bridges|), bridges := left.bridges + [Started(NewBridge(s.agent.Some?), remote, local)])
  }

  lemma BridgedIsNew(s: State, remote: Option<nat>, local: Option<nat>)
    ensures StartedNew(s, BridgedState(s, remote, local), remote, local)
    ensures BridgedState(s, remote, local) == s.(bridge := Some(|s.bridges|), bridges := BridgedState(s, remote, local).bridges)
  {
    var left := RetireBridge(s);
    var after := BridgedState(s, remote, local);
    assert forall k :: 0 <= k < |s.bridges| ==> after.bridges[k] == left.bridges[k];
  }

  lemma PublishActs(s: State, remote: Option<nat>, local: Option<nat>)
    ensures var left := RetireBridge(s);
            Act(s, Publishing(remote, local), false)
            == Stay(left.(bridge := Some(|s.bridges|), bridges := left.bridges + [NewBridge(s.agent.Some?)]),
                    Rechecking(|s.bridges|, remote, local))
  {
    hide PutBridge, RetireBridge, NewBridge;
  }

  lemma RecheckActs(s: State, b: nat, remote: Option<nat>, local: Option<nat>)
    ensures Act(s, Rechecking(b, remote, local), false)
            == Stay(s, Starting(b, if remote.None? && s.incoming then s.remote else remote, local))
  {
  }

  lemma StartActs(s: State, b: nat, remote: Option<nat>, local: Option<nat>)
    requires b < |s.bridges|
    ensures var x := Act(s, Starting(b, remote, local), false);
            x.state == s.(bridges := s.bridges[b := Started(s.bridges[b], remote, local)]) && x.thread == Finished
  {
  }

  /** setupAudioBridge, the second look at the caller's track, Start: three steps. */
  lemma BridgeRun(s: State, remote: Option<nat>, local: Option<nat>, n: nat)
    ensures var found := if remote.None? && s.incoming then s.remote else remote;
            Alone(s, Publishing(remote, local), 3 + n) == Pair(BridgedState(s, found, local), Finished)
  {
    hide Act, Alone, NewBridge, Started;
    var found := if remote.None? && s.incoming then s.remote else remote;
    var b, left := |s.bridges|, RetireBridge(s);
    var published := left.(bridge := Some(b), bridges := left.bridges + [NewBridge(s.agent.Some?)]);
    hide RetireBridge;
    PublishActs(s, remote, local);
    RecheckActs(published, b, remote, local);
    StartActs(published, b, found, local);
    AloneStep(s, Publishing(remote, local), n + 2, published, Rechecking(b, remote, local));
    AloneStep(published, Rechecking(b, remote, local), n + 1, published, Starting(b, found, local));
    assert published.bridges[b := Started(published.bridges[b], found, local)]
        == left.bridges + [Started(NewBridge(s.agent.Some?), found, local)];
    AloneStepChild(published, Starting(b, found, local), n, BridgedState(s, found, local), Finished);
    AloneFinished(BridgedState(s, found, local), n);
  }

  lemma ResumeActs(s: State)
    requires s.hold
    ensures Act(s, Resuming, false) == Stay(s.(hold := false), Publishing(s.remote, s.agent))
  {
    hide LookStep, TrackStep, TransferStep, EndStep, ReportStep, CleanupStep, HoldStep, BridgeStep;
  }

  lemma ResumeRun(s: State)
    requires s.inMap && s.hold
    ensures Alone(s, Looking(CallResume), 5) == Pair(BridgedState(s.(hold := false), s.remote, s.agent), Finished)
  {
    hide Act, Alone, BridgedState;
    ResumeActs(s);
    AdmittedAlone(s, CallResume, 4);
    AloneStep(s, Resuming, 3, s.(hold := false), Publishing(s.remote, s.agent));
    BridgeRun(s.(hold := false), s.remote, s.agent, 0);
  }

  /**
   ResumeCall on a session that is on hold: it is off hold, and a new bridge is current and
   started, with a leg at once if both tracks are there.
   */
  lemma ResumeAlone(s: State)
    requires s.inMap && s.hold
    ensures var x := Alone(s, Looking(CallResume), 5);
            && x.thread == Finished && !x.state.hold
            && StartedNew(s, x.state, s.remote, s.agent)
            && x.state == s.(hold := false, bridge := Some(|s.bridges|), bridges := x.state.bridges)
  {
    hide Alone, BridgedState;
    ResumeRun(s);
    BridgedIsNew(s.(hold := false), s.remote, s.agent);
  }

  /** Holding a call and resuming it: the old bridge is closed, a new one runs, nothing else has changed. */
  lemma HoldThenResume(m: System, b: nat)
    requires Reachable(m) && m.state.inMap && !m.state.hold && m.state.bridge == Some(b)
    ensures var s, n := m.state, |m.state.bridges|;
            var x := Alone(Alone(s, Looking(CallHold), 6).state, Looking(CallResume), 5);
            && x.thread == Finished
            && x.state == s.(bridge := Some(n), bridges := x.state.bridges)
            && |x.state.bridges| == n + 1 && b < n
            && x.state.bridges[b].closes == 1
            && x.state.bridges[n].closes == 0 && !x.state.bridges[n].stopped
            && x.state.bridges[n].launch == if s.remote.Some? && s.agent.Some? then Direct else Reserved(s.agent.Some?)
  {
    HoldAlone(m, b);
    hide Alone, Reachable;
    ResumeAlone(Alone(m.state, Looking(CallHold), 6).state);
  }

  // ----- An agent connects -----

  /** The session with the agent's track, claimed and off hold. */
  function ClaimedBy(s: State, track: nat): State {
    s.(status := Connected, log := s.log + [Claimed], agent := Some(track), hold := false)
  }

  lemma ClaimActs(s: State, track: nat)
    requires s.status == Waiting
    ensures Act(s, Claiming(track), false) == Stay(s.(status := Connected, log := s.log + [Claimed]), Answering(track))
  {
    hide LookStep, TrackStep, TransferStep, EndStep, ReportStep, CleanupStep, HoldStep, BridgeStep;
  }

  lemma CompleteActs(s: State, track: nat)
    ensures Act(s, Answering(track), false) == Stay(s.(agent := Some(track)), Completing)
    ensures Act(s, Completing, false) == Stay(s.(hold := false), Snapshotting)
    ensures Act(s, Snapshotting, false) == Stay(s.(status := Connected), Publishing(s.remote, s.agent))
  {
    hide LookStep, TrackStep, TransferStep, EndStep, ReportStep, CleanupStep, HoldStep, BridgeStep;
  }

  lemma ConnectRun(s: State, track: nat)
    requires s.inMap && s.hasTransfer && s.status == Waiting
    ensures Alone(s, Looking(CallClaim(track)), 9) == Pair(BridgedState(ClaimedBy(s, track), s.remote, Some(track)), Finished)
  {
    hide Act, Alone, BridgedState;
    var claimed := s.(status := Connected, log := s.log + [Claimed]);
    var ready := claimed.(agent := Some(track));
    var quiet := ClaimedBy(s, track);
    ClaimActs(s, track);
    CompleteActs(claimed, track);
    CompleteActs(ready, track);
    CompleteActs(quiet, track);
    AdmittedAlone(s, CallClaim(track), 7);
    AloneStep(s, Claiming(track), 6, claimed, Answering(track));
    AloneStep(claimed, Answering(track), 5, ready, Completing);
    AloneStep(ready, Completing, 4, quiet, Snapshotting);
    AloneStep(quiet, Snapshotting, 3, quiet, Publishing(s.remote, Some(track)));
    BridgeRun(quiet, s.remote, Some(track), 0);
  }

  /**
   ConnectAgentToTransfer on a waiting transfer: it is claimed and connected, the agent's track
   is the session's, the hold music is over, and a new bridge is current and started.
   */
  lemma ConnectAlone(s: State, track: nat)
    requires s.inMap && s.hasTransfer && s.status == Waiting
    ensures var x := Alone(s, Looking(CallClaim(track)), 9);
            && x.thread == Finished
            && x.state.status == Connected && x.state.agent == Some(track) && !x.state.hold
            && StartedNew(s, x.state, s.remote, Some(track))
            && x.state == s.(status := Connected, agent := Some(track), hold := false, log := s.log + [Claimed],
                             bridge := Some(|s.bridges|), bridges := x.state.bridges)
  {
    hide Alone, BridgedState;
    ConnectRun(s, track);
    BridgedIsNew(ClaimedBy(s, track), s.remote, Some(track));
  }

  // ----- Entering Waiting -----

  function WithChannel(s: State): State {
    var left := RetireChannel(s);
    left.(done := Some(|s.channels|), channels := left.channels + [NewChannel()])
  }

  function InWaiting(s: State): State { s.(hold := true, hasTransfer := true, status := Waiting, log := s.log + [Entered]) }

  lemma VisitActs(s: State, visit: Option<nat>)
    ensures Act(s, Visiting, false) == Stay(WithChannel(s), Initiating(Some(|s.channels|)))
    ensures Act(s, Initiating(visit), false) == Stay(s.(hold := true), EnteringWaiting(visit))
  {
    hide LookStep, TrackStep, ConnectStep, EndStep, ReportStep, CleanupStep, HoldStep, BridgeStep, RetireChannel, NewChannel;
  }

  lemma EnterActs(s: State, visit: Option<nat>)
    ensures Act(s, EnteringWaiting(visit), false) == Stay(s.(hasTransfer := true, status := Waiting, log := s.log + [Entered]), Arming(visit))
    ensures Act(s, Arming(visit), false).state == s
    ensures Act(s, Arming(visit), false).thread == if visit.Some? then Receiving(visit.value) else Finished
    ensures Act(s, Registering, false) == Stay(s.(hasTransfer := true), Arming(None))
  {
    hide LookStep, TrackStep, ConnectStep, EndStep, ReportStep, CleanupStep, HoldStep, BridgeStep;
  }

  /** The last two steps into Waiting. */
  lemma EnterRun(s: State, visit: Option<nat>)
    requires s.hold
    ensures Alone(s, EnteringWaiting(visit), 2) == Pair(InWaiting(s), if visit.Some? then Receiving(visit.value) else Finished)
  {
    hide Act, Alone;
    EnterActs(s, visit);
    EnterActs(InWaiting(s), visit);
    AloneStep(s, EnteringWaiting(visit), 1, InWaiting(s), Arming(visit));
    AloneStepChild(InWaiting(s), Arming(visit), 0, InWaiting(s), if visit.Some? then Receiving(visit.value) else Finished);
    AloneZero(InWaiting(s), if visit.Some? then Receiving(visit.value) else Finished);
  }

  lemma VisitRun(s: State)
    ensures Alone(s, Visiting, 4) == Pair(InWaiting(WithChannel(s).(hold := true)), Receiving(|s.channels|))
  {
    hide Act, Alone, WithChannel, InWaiting;
    var visit := Some(|s.channels|);
    VisitActs(s, visit);
    VisitActs(WithChannel(s), visit);
    EnterRun(WithChannel(s).(hold := true), visit);
    AloneStep(s, Visiting, 3, WithChannel(s), Initiating(visit));
    AloneStep(WithChannel(s), Initiating(visit), 2, WithChannel(s).(hold := true), EnteringWaiting(visit));
  }

  /** A visit of a transfer node: a fresh channel is the session's, the transfer waits with hold music, the loop listens. */
  lemma VisitAlone(s: State)
    ensures var x, c := Alone(s, Visiting, 4), |s.channels|;
            && x.thread == Receiving(c)
            && x.state.done == Some(c) && |x.state.channels| == c + 1
            && x.state.channels[c].buffer == None && !x.state.channels[c].closed
            && x.state == s.(done := Some(c), channels := x.state.channels, hold := true, hasTransfer := true,
                             status := Waiting, log := s.log + [Entered])
  {
    hide Alone, RetireChannel;
    VisitRun(s);
    assert (RetireChannel(s).channels + [NewChannel()])[|s.channels|] == NewChannel();
  }

  /** A transfer that has entered Waiting starts its timeout: a new thread that will report no answer. */
  lemma TimeoutStarts(m: System, i: nat, choice: bool)
    requires i < |m.threads| && m.threads[i].Arming?
    ensures var m' := Step(m, Go(i, choice)); |m'.threads| == |m.threads| + 1 && m'.threads[|m.threads|] == Timing
  {
    hide LookStep, TrackStep, ConnectStep, EndStep, ReportStep, CleanupStep, HoldStep, BridgeStep;
  }

  function Handed(s: State): State {
    s.(hold := true, bridge := None, agent := None, hasTransfer := false, status := Waiting, log := s.log + [Entered])
  }

  lemma AgentTransferActs(s: State)
    requires s.status != Waiting
    ensures Act(s, AgentTransfer, false) == Stay(Handed(s), StopThen(s.bridge, ThenRegister))
    ensures Proceed(ThenRegister) == Registering
  {
    hide LookStep, TrackStep, ConnectStep, EndStep, ReportStep, CleanupStep, HoldStep, BridgeStep, StopThen;
  }

  lemma RegisterRun(s: State, n: nat)
    ensures Alone(s, Registering, 2 + n) == Pair(s.(hasTransfer := true), Finished)
  {
    hide Act, Alone;
    var final := s.(hasTransfer := true);
    EnterActs(s, None);
    EnterActs(final, None);
    AloneStep(s, Registering, n + 1, final, Arming(None));
    AloneStepChild(final, Arming(None), n, final, Finished);
    AloneFinished(final, n);
  }

  lemma AgentTransferRun(s: State)
    requires Sound(s) && s.inMap && s.status != Waiting
    ensures Alone(s, Looking(CallAgentTransfer), 7) == Pair(StoppedState(Handed(s), s.bridge).(hasTransfer := true), Finished)
  {
    HandedSound(s);
    AgentTransferActs(s);
    hide Act, Alone, StoppedState, StopThen, Proceed, Sound, Handed;
    var stopped := StoppedState(Handed(s), s.bridge);
    RegisterRun(stopped, 0);
    RegisterRun(stopped, 3);
    StopThenEnds(Handed(s), s.bridge, ThenRegister, 2, stopped.(hasTransfer := true));
    AloneStep(s, AgentTransfer, 5, Handed(s), StopThen(s.bridge, ThenRegister));
    AdmittedAlone(s, CallAgentTransfer, 6);
  }

  lemma HandedSound(s: State)
    requires Sound(s)
    ensures Sound(Handed(s).(bridge := s.bridge)) && Handed(s).bridge.None?
  {
  }

  /**
   InitiateAgentTransfer on a session that is not waiting: the current bridge is closed, the
   agent is gone, and the session waits, with hold music and a new transfer id.
   */
  lemma AgentTransferAlone(m: System)
    requires Reachable(m) && m.state.inMap && m.state.status != Waiting
    ensures var s, x := m.state, Alone(m.state, Looking(CallAgentTransfer), 7);
            && x.thread == Finished
            && x.state == s.(hold := true, bridge := None, agent := None, hasTransfer := true, status := Waiting,
                             log := s.log + [Entered], bridges := x.state.bridges)
            && (s.bridge.Some? ==> ClosedOnly(s, x.state, s.bridge.value))
            && (s.bridge.None? ==> x.state.bridges == s.bridges)
  {
    var s := m.state;
    ReachableSound(m);
    AgentTransferRun(s);
    if s.bridge.Some? { StoppedCloses(Handed(s), s.bridge.value); }
    hide Alone, Reachable;
  }

  // ----- An arriving track -----

  /** With a current bridge nobody has attached to and an agent's track, the leg is in the bridge's slot. */
  lemma TrackAttaches(m: System, track: nat, b: nat)
    requires Reachable(m) && m.state.incoming && m.state.bridge == Some(b) && m.state.agent.Some?
    requires b < |m.state.bridges| && !m.state.bridges[b].attached && !m.state.bridges[b].stopped && m.state.bridges[b].slot.None?
    ensures var s, x := m.state, Alone(m.state, OnTrack(track), 3);
            && x.thread == Finished && x.state.remote == Some(track)
            && |x.state.bridges| == |s.bridges|
            && x.state.bridges[b].slot == Some(Leg(track, s.agent.value)) && x.state.bridges[b].attached
            && x.state == s.(remote := Some(track), bridges := x.state.bridges)
  {
    hide LookStep, TransferStep, ConnectStep, EndStep, ReportStep, CleanupStep, HoldStep, BridgeStep;
    var s := m.state;
    var leg := Leg(track, s.agent.value);
    var x0 := s.bridges[b].(offered := true);
    var x1 := x0.(attached := true, won := true);
    var x2 := x1.(slot := Some(leg), sends := x1.sends + 1);
    var s0 := PutBridge(s.(remote := Some(track)), b, x0);
    var s1 := PutBridge(s0, b, x1);
    var s2 := PutBridge(s1, b, x2);
    assert Act(s, OnTrack(track), false) == Stay(s0, Attaching(b, leg));
    assert Act(s0, Attaching(b, leg), false) == Stay(s1, Handing(b, leg));
    assert Act(s1, Handing(b, leg), false) == Stay(s2, Finished);
    hide Act, Alone;
    AloneStep(s, OnTrack(track), 2, s0, Attaching(b, leg));
    AloneStep(s0, Attaching(b, leg), 1, s1, Handing(b, leg));
    AloneStep(s1, Handing(b, leg), 0, s2, Finished);
    AloneZero(s2, Finished);
  }

  /** Without one it is only stored. */
  lemma TrackIsStored(s: State, track: nat)
    requires !s.incoming || s.bridge.None? || s.agent.None?
    ensures Alone(s, OnTrack(track), 1) == Pair(s.(remote := Some(track)), Finished)
  {
    hide LookStep, TransferStep, ConnectStep, EndStep, ReportStep, CleanupStep, HoldStep, BridgeStep;
    assert Act(s, OnTrack(track), false) == Stay(s.(remote := Some(track)), Finished);
    hide Act, Alone;
    AloneStep(s, OnTrack(track), 0, s.(remote := Some(track)), Finished);
    AloneZero(s.(remote := Some(track)), Finished);
  }

  /** The slot goroutine takes the leg that was handed in; once the bridge is closed it leaves. */
  lemma SlotServes(s: State, b: nat)
    requires b < |s.bridges|
    ensures var x := Alone(s, SlotWaiting(b), 1);
            && |x.state.bridges| == |s.bridges|
            && (s.bridges[b].slot.Some? && s.bridges[b].closes == 0 ==>
                  x.thread == Finished && x.state.bridges[b] == s.bridges[b].(slot := None, picked := true))
            && (s.bridges[b].slot.None? && s.bridges[b].closes == 0 ==> x == Pair(s, SlotWaiting(b)))
            && (s.bridges[b].slot.None? && s.bridges[b].closes > 0 ==>
                  x.thread == Finished && x.state.bridges[b] == s.bridges[b].(released := true))
  {
    hide LookStep, TrackStep, TransferStep, ConnectStep, EndStep, ReportStep, CleanupStep, HoldStep;
    AloneOnce(s, SlotWaiting(b));
    hide Alone;
  }

  lemma AloneOnce(s: State, t: Thread)
    ensures Alone(s, t, 1) == Pair(Act(s, t, false).state, Act(s, t, false).thread)
  {
    hide Act;
    AloneZero(Act(s, t, false).state, Act(s, t, false).thread);
    AloneStepChild(s, t, 0, Act(s, t, false).state, Act(s, t, false).thread);
  }

  // ----- The ends of a call -----

  lemma FarewellActs(s: State)
    requires s.done.None?
    ensures Act(s, Reporting(TransferCompleted), false) == Stay(s, Cleaning)
    ensures s.inMap && s.status != Waiting ==> Act(s, Cleaning, false) == Stay(s.(inMap := false), CleanupTaking)
    ensures s.status != Waiting && s.bridge.None? && !s.hold ==> Act(s, CleanupTaking, false) == Stay(s, Finished)
  {
    hide LookStep, TrackStep, TransferStep, ConnectStep, EndStep, HoldStep, BridgeStep;
  }

  lemma FarewellRun(s: State, n: nat)
    requires s.done.None? && s.inMap && s.status == Completed && s.bridge.None? && !s.hold
    ensures Alone(s, Reporting(TransferCompleted), 3 + n) == Pair(s.(inMap := false), Finished)
  {
    hide Act, Alone;
    var gone := s.(inMap := false);
    FarewellActs(s);
    FarewellActs(gone);
    AloneStep(s, Reporting(TransferCompleted), n + 2, s, Cleaning);
    AloneStep(s, Cleaning, n + 1, gone, CleanupTaking);
    AloneStep(gone, CleanupTaking, n, gone, Finished);
    AloneFinished(gone, n);
  }

  function EndedBy(s: State): State { s.(status := Completed, bridge := None, hold := false) }

  lemma EndedFacts(s: State)
    requires Sound(s)
    ensures Sound(EndedBy(s).(bridge := s.bridge)) && EndedBy(s).bridge.None?
    ensures var stopped := StoppedState(EndedBy(s), s.bridge);
            stopped.done == s.done && stopped.inMap == s.inMap && stopped.status == Completed && stopped.bridge.None? && !stopped.hold
  {
    hide PutBridge, BridgeAt;
  }

  lemma TerminalEndRun(s: State)
    requires Sound(s) && s.inMap && s.hasTransfer && s.status != Completed && s.done.None?
    ensures Alone(s, Looking(CallEnd), 9) == Pair(StoppedState(EndedBy(s), s.bridge).(inMap := false), Finished)
  {
    EndTakes(s);
    EndedFacts(s);
    ProceedReports();
    hide Act, Alone, StoppedState, StopThen, Proceed, Sound;
    var stopped := StoppedState(EndedBy(s), s.bridge);
    FarewellRun(stopped, 0);
    FarewellRun(stopped, 3);
    StopThenEnds(EndedBy(s), s.bridge, ThenReport, 3, stopped.(inMap := false));
    AloneStep(s, Ending, 6, EndedBy(s), StopThen(s.bridge, ThenReport));
    AdmittedAlone(s, CallEnd, 7);
  }

  /** EndTransfer with no IVR loop waiting: the bridge is closed and the session leaves the map. */
  lemma TerminalEndAlone(m: System)
    requires Reachable(m) && m.state.inMap && m.state.hasTransfer && m.state.status != Completed && m.state.done.None?
    ensures var s, x := m.state, Alone(m.state, Looking(CallEnd), 9);
            && x.thread == Finished
            && x.state == s.(status := Completed, bridge := None, hold := false, inMap := false, bridges := x.state.bridges)
            && (s.bridge.Some? ==> ClosedOnly(s, x.state, s.bridge.value))
            && (s.bridge.None? ==> x.state.bridges == s.bridges)
  {
    var s := m.state;
    ReachableSound(m);
    TerminalEndRun(s);
    if s.bridge.Some? { StoppedCloses(EndedBy(s), s.bridge.value); }
    hide Alone, Reachable;
  }

  /** Cleanup that finds a transfer waiting by its second section marks it abandoned. */
  lemma LateCleanupAbandons(s: State)
    requires s.hasTransfer && s.status == Waiting
    ensures Alone(s, CleanupTaking, 1).state.status == Abandoned
  {
    hide LookStep, TrackStep, TransferStep, ConnectStep, EndStep, ReportStep, HoldStep, BridgeStep;
    AloneOnce(s, CleanupTaking);
    hide Alone;
  }

  /** HangupOutgoingCall with an IVR flow to follow: the bridge is closed and the agent is gone, the call stays. */
  lemma OutgoingHangupAlone(m: System, b: nat)
    requires Reachable(m) && !m.state.incoming && m.state.inMap && m.state.bridge == Some(b)
    ensures var s, x := m.state, Alone(m.state, Looking(CallOutgoingHangup), 6);
            && x.thread == Finished
            && x.state == s.(bridge := None, agent := None, bridges := x.state.bridges)
            && ClosedOnly(s, x.state, b)
  {
    var s := m.state;
    var taken := s.(bridge := None);
    var stopped := StoppedState(taken, Some(b));
    ReachableSound(m);
    StoppedCloses(taken, b);
    OutgoingActs(s, b);
    hide Act, Alone, StoppedState, Reachable;
    PlayHoldActs(stopped);
    AdmittedAlone(s, CallOutgoingHangup, 5);
    AloneStep(s, OutgoingHangup, 4, taken, Stopping(b, MarkStopped, ThenDropAgent));
    StopAlone(taken, b, ThenDropAgent, 1);
    AloneStep(stopped, DroppingAgent, 0, stopped.(agent := None), Finished);
    AloneZero(stopped.(agent := None), Finished);
  }

  lemma OutgoingActs(s: State, b: nat)
    requires !s.incoming && s.bridge == Some(b)
    ensures Act(s, OutgoingHangup, false) == Stay(s.(bridge := None), Stopping(b, MarkStopped, ThenDropAgent))
  {
    hide LookStep, TrackStep, TransferStep, ConnectStep, EndStep, ReportStep, CleanupStep, BridgeStep;
  }

  // ----- Calls that are refused or fail -----

  /** What the guard of each call turns away. */
  predicate Refused(s: State, call: Call) {
    match call
    case CallEnd => !s.hasTransfer || s.status == Completed
    case CallHangup => !s.hasTransfer || s.status != Waiting
    case CallClaim(_) => !s.hasTransfer || s.status != Waiting
    case CallHold => s.hold || s.bridge.None?
    case CallResume => !s.hold
    case CallAgentTransfer => s.status == Waiting
    case CallOutgoingHangup => s.incoming
  }

  lemma RefusedActs(s: State, call: Call)
    requires Refused(s, call) && (call.CallEnd? || call.CallClaim? ==> s.hasTransfer)
    ensures Act(s, Admitted(call), false) == Stay(s, Finished)
  {
    hide LookStep, TrackStep, ReportStep, CleanupStep, BridgeStep, PutBridge;
  }

  lemma LookingActs(s: State, call: Call)
    ensures !s.inMap ==> Act(s, Looking(call), false) == Stay(s, Finished)
    ensures s.inMap && (call.CallEnd? || call.CallClaim?) ==> Act(s, Looking(call), false) == Stay(s, Matching(call))
    ensures s.inMap && !call.CallEnd? && !call.CallClaim? ==> Act(s, Looking(call), false) == Stay(s, Admitted(call))
    ensures !s.hasTransfer ==> Act(s, Matching(call), false) == Stay(s, Finished)
    ensures s.hasTransfer ==> Act(s, Matching(call), false) == Stay(s, Admitted(call))
  {
    hide Admitted, TrackStep, TransferStep, ConnectStep, EndStep, ReportStep, CleanupStep, HoldStep, BridgeStep;
  }

  /** A call on a session that is gone, or that its guard turns away, changes nothing. */
  lemma RefusedChangesNothing(s: State, call: Call)
    requires !s.inMap || Refused(s, call)
    ensures Alone(s, Looking(call), 3) == Pair(s, Finished)
  {
    LookingActs(s, call);
    if s.inMap && (call.CallEnd? || call.CallClaim? ==> s.hasTransfer) { RefusedActs(s, call); }
    hide Act, Admitted, Refused;
  }

  /** So does a timeout that comes late, a clean-up that finds nobody or a waiting transfer, and a bridge for an incoming call. */
  lemma LateChangesNothing(s: State, remote: Option<nat>, local: Option<nat>)
    ensures s.status != Waiting ==> Alone(s, Timing, 2) == Pair(s, Finished)
    ensures !s.inMap || s.status == Waiting ==> Alone(s, Cleaning, 1) == Pair(s, Finished)
    ensures s.incoming ==> Alone(s, OutgoingBridge(remote, local), 1) == Pair(s, Finished)
  {
    hide TrackStep, TransferStep, ReportStep, HoldStep, BridgeStep, PutBridge;
    AloneOnce(s, Cleaning);
    AloneOnce(s, OutgoingBridge(remote, local));
    TimeoutRun(s);
  }

  lemma TimeoutRun(s: State)
    ensures s.status != Waiting ==> Alone(s, Timing, 2) == Pair(s, Finished)
  {
    hide TrackStep, TransferStep, ConnectStep, ReportStep, CleanupStep, HoldStep, BridgeStep;
    if s.status != Waiting {
      AloneStep(s, Timing, 1, s, Unanswering);
      AloneStep(s, Unanswering, 0, s, Finished);
    }
  }

  /**
   An outside failure (an id out of date, a cancelled timer, a player or agent that is not there, a
   row that is not saved) ends the call without a trace; if the failure comes after the agent was
   connected the transfer is ended instead, and a visit goes on waiting for its outcome.
   */
  lemma FailureLeavesNoTrace(m: System, i: nat)
    requires i < |m.threads|
    ensures var t, m' := m.threads[i], Step(m, Go(i, true));
            && (t.Matching? || t.Timing? || t.AgentTransfer? || t.Registering? || t.Answering? || t.Holding?
                || t == Reporting(TransferCompleted) || t == EnteringWaiting(None)
                ==> m' == m.(threads := m.threads[i := Finished]))
            && (t.Completing? ==> m' == m.(threads := m.threads[i := Looking(CallEnd)]))
            && (t.OutgoingHangup? && !m.state.incoming ==> m' == m.(threads := m.threads[i := Cleaning]))
            && (t.EnteringWaiting? && t.visit.Some? ==> m' == m.(threads := m.threads[i := Receiving(t.visit.value)]))
  {
    hide TrackStep, CleanupStep, BridgeStep, PutBridge, Admitted;
    FailureActs(m.state, m.threads[i]);
    hide Act;
  }

  lemma FailureActs(s: State, t: Thread)
    ensures t.Matching? || t.Timing? || t.AgentTransfer? || t.Registering? || t.Answering? || t.Holding?
            || t == Reporting(TransferCompleted) || t == EnteringWaiting(None)
            ==> Act(s, t, true) == Stay(s, Finished)
    ensures t.Completing? ==> Act(s, t, true) == Stay(s, Looking(CallEnd))
    ensures t.OutgoingHangup? && !s.incoming ==> Act(s, t, true) == Stay(s, Cleaning)
    ensures t.EnteringWaiting? && t.visit.Some? ==> Act(s, t, true) == Stay(s, Receiving(t.visit.value))
  {
    hide TrackStep, CleanupStep, BridgeStep, PutBridge, Admitted, RetireBridge, RetireChannel, PutChannel, StopThen;
  }
}
