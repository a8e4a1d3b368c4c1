/**
 What the ends of a transfer achieve when nobody interferes: from any reachable state, each of
 EndTransfer, no-answer, the caller's hang-up and cleanup, run by itself, delivers its own
 outcome to the waiting IVR loop and stops the bridge it found.
 */
module SessionProgress {
  import opened Wrappers
  import opened SessionProtocol
  import opened SessionSafety
  import opened SessionTheorems

  datatype Pair = Pair(state: State, thread: Thread)

  /** `n` steps of one thread with no other thread moving and no failure. */
  function Alone(s: State, t: Thread, n: nat): Pair
    decreases n
  {
    if n == 0 then Pair(s, t)
    else
      var x := Act(s, t, false);
      Alone(x.state, x.thread, n - 1)
  }

  lemma AloneStep(s: State, t: Thread, n: nat, s': State, t': Thread)
    requires Act(s, t, false) == Stay(s', t')
    ensures Alone(s, t, n + 1) == Alone(s', t', n)
  {
    hide Act;
  }

  lemma {:induction false} AloneFinished(s: State, n: nat)
    ensures Alone(s, Finished, n) == Pair(s, Finished)
  {
    if n > 0 {
      AloneFinished(s, n - 1);
      AloneStep(s, Finished, n - 1, s, Finished);
    }
  }

  /** The bridge after its stop channel was closed. */
  function StoppedState(s: State, bridge: Option<nat>): State {
    if bridge.None? then s else PutBridge(s, bridge.value, BridgeAt(s, bridge.value).(stopped := true, closes := 1))
  }

  lemma PutTwice(s: State, b: nat, x: Bridge, y: Bridge)
    requires b < |s.bridges|
    ensures PutBridge(PutBridge(s, b, x), b, y) == PutBridge(s, b, y)
    ensures PutBridge(s, b, x).bridges[b] == x
  {
  }

  lemma StopSteps(s: State, b: nat, next: Then)
    requires b < |s.bridges| && s.bridges[b].closes == 0
    ensures Act(s, Stopping(b, MarkStopped, next), false)
            == Stay(PutBridge(s, b, s.bridges[b].(stopped := true)), Stopping(b, TestStop, next))
    ensures Act(s, Stopping(b, TestStop, next), false) == Stay(s, Stopping(b, CloseStop, next))
    ensures Act(s, Stopping(b, CloseStop, next), false) == Stay(PutBridge(s, b, s.bridges[b].(closes := 1)), Proceed(next))
  {
    hide PutBridge, Proceed, TrackStep, TransferStep, ConnectStep, EndStep, ReportStep, CleanupStep, HoldStep;
  }

  /** bridge.Stop by its only owner: three steps, one close. */
  lemma StopAlone(s: State, b: nat, next: Then, n: nat)
    requires b < |s.bridges| && s.bridges[b].closes == 0
    ensures Alone(s, Stopping(b, MarkStopped, next), 3 + n) == Alone(StoppedState(s, Some(b)), Proceed(next), n)
  {
    hide PutBridge, Alone, Proceed, Act;
    var x := s.bridges[b];
    var marked := PutBridge(s, b, x.(stopped := true));
    PutTwice(s, b, x.(stopped := true), x.(stopped := true, closes := 1));
    StopSteps(s, b, next);
    StopSteps(marked, b, next);
    AloneStep(s, Stopping(b, MarkStopped, next), n + 2, marked, Stopping(b, TestStop, next));
    AloneStep(marked, Stopping(b, TestStop, next), n + 1, marked, Stopping(b, CloseStop, next));
    AloneStep(marked, Stopping(b, CloseStop, next), n, StoppedState(s, Some(b)), Proceed(next));
  }

  /** What the accounts say of the session's own bridge and channel. */
  ghost predicate Sound(s: State) {
    && (s.bridge.Some? ==> s.bridge.value < |s.bridges| && s.bridges[s.bridge.value].closes == 0)
    && (s.done.Some? ==>
          (s.done.value < |s.channels| && s.channels[s.done.value].settled == []
           && !s.channels[s.done.value].closed && s.channels[s.done.value].buffer.None?))
  }

  lemma ReachableSound(m: System)
    requires Reachable(m)
    ensures Sound(m.state)
  {
    ReachableInv(m);
    if m.state.bridge.Some? { Account(m, Stop(m.state.bridge.value)); }
    if m.state.done.Some? { Account(m, Settle(m.state.done.value)); }
  }

  /** Channel c was settled with exactly this outcome, which is there to be received. */
  ghost predicate Delivered(s': State, c: nat, outcome: Outcome) {
    && c < |s'.channels| && s'.channels[c].settled == [outcome]
    && s'.channels[c].buffer == Some(outcome)
    && s'.done == None
  }

  ghost predicate BridgeClosed(s: State, s': State) {
    && s'.bridge == None
    && (s.bridge.Some? ==> s.bridge.value < |s'.bridges| && s'.bridges[s.bridge.value].closes == 1 && s'.bridges[s.bridge.value].stopped)
  }

  function Reported(s: State, c: nat, outcome: Outcome): State {
    PutChannel(s, c, ChannelAt(s, c).(buffer := Some(outcome), settled := [outcome])).(done := None)
  }

  /** Taking TransferDone and sending on it. */
  lemma ReportAlone(s: State, outcome: Outcome, n: nat)
    requires Sound(s) && s.done.Some?
    ensures Alone(s, Reporting(outcome), 2 + n) == Pair(Reported(s, s.done.value, outcome), Finished)
  {
    hide Alone, TrackStep, TransferStep, ConnectStep, EndStep, CleanupStep, HoldStep, BridgeStep;
    var c, taken := s.done.value, s.(done := None);
    assert s.channels[c].settled + [outcome] == [outcome];
    AloneStep(s, Reporting(outcome), n + 1, taken, Sending(c, outcome));
    AloneStep(taken, Sending(c, outcome), n, Reported(s, c, outcome), Finished);
    AloneFinished(Reported(s, c, outcome), n);
  }

  lemma ReportedDelivers(s': State, outcome: Outcome)
    requires Sound(s') && s'.done.Some?
    ensures Delivered(Reported(s', s'.done.value, outcome), s'.done.value, outcome)
    ensures Reported(s', s'.done.value, outcome).bridges == s'.bridges && Reported(s', s'.done.value, outcome).bridge == s'.bridge
  {
  }

  lemma StoppedFacts(s: State)
    requires Sound(s)
    ensures var s' := StoppedState(s.(bridge := None), s.bridge);
            && BridgeClosed(s, s') && Sound(s') && s'.done == s.done && s'.channels == s.channels
            && s'.bridge == None && s'.status == s.status && s'.hold == s.hold
  {
  }

  /** A call that finds its session is at its own first section two steps later at most. */
  lemma AdmittedAlone(s: State, call: Call, n: nat)
    requires s.inMap && (call.CallEnd? || call.CallClaim? ==> s.hasTransfer)
    ensures Alone(s, Looking(call), n + if call.CallEnd? || call.CallClaim? then 2 else 1) == Alone(s, Admitted(call), n)
  {
    hide Alone, Admitted;
    if call.CallEnd? || call.CallClaim? {
      AloneStep(s, Looking(call), n + 1, s, Matching(call));
      AloneStep(s, Matching(call), n, s, Admitted(call));
    } else {
      AloneStep(s, Looking(call), n, s, Admitted(call));
    }
  }

  /**
   EndTransfer, called for a session in the map whose transfer has an id and is not completed
   yet, resumes the IVR loop with "completed" and stops the bridge.
   */
  lemma EndTransferAlone(m: System, c: nat)
    requires Reachable(m) && m.state.inMap && m.state.hasTransfer && m.state.status != Completed && m.state.done == Some(c)
    ensures var s' := Alone(m.state, Looking(CallEnd), 8).state;
            Delivered(s', c, TransferCompleted) && BridgeClosed(m.state, s') && s'.status == Completed && !s'.hold
    ensures Alone(m.state, Looking(CallEnd), 8).thread == Finished
  {
    ReachableSound(m);
    AdmittedAlone(m.state, CallEnd, 6);
    EndRun(m.state);
    hide Alone, Act, Reachable, Reported, StoppedState, Sound;
    var ended := m.state.(status := Completed, hold := false);
    var stopped := StoppedState(ended.(bridge := None), m.state.bridge);
    StillSound(m.state, ended);
    StoppedFacts(ended);
    ReportedDelivers(stopped, TransferCompleted);
    ReportedStatus(stopped, c, TransferCompleted);
  }

  lemma StillSound(s: State, s': State)
    requires Sound(s) && s'.bridge == s.bridge && s'.done == s.done && s'.bridges == s.bridges && s'.channels == s.channels
    ensures Sound(s')
  {
  }

  lemma EndRun(s: State)
    requires Sound(s) && s.status != Completed && s.done.Some?
    ensures var stopped := StoppedState(s.(status := Completed, bridge := None, hold := false), s.bridge);
            Alone(s, Ending, 6) == Pair(Reported(stopped, s.done.value, TransferCompleted), Finished)
  {
    hide Alone, Act, Reported, StoppedState, Sound, StopThen, Proceed, BridgeClosed;
    var ended := s.(status := Completed, hold := false);
    var taken := ended.(bridge := None);
    EndTakes(s);
    AloneStep(s, Ending, 5, taken, StopThen(s.bridge, ThenReport));
    StillSound(s, ended);
    StoppedFacts(ended);
    StopThenAlone(ended, ThenReport, 2);
    ProceedReports();
    ReportAlone(StoppedState(taken, s.bridge), TransferCompleted, 0);
    ReportAlone(StoppedState(taken, s.bridge), TransferCompleted, 3);
  }

  lemma ProceedReports()
    ensures Proceed(ThenReport) == Reporting(TransferCompleted)
  {
  }

  lemma StopThenAlone(s: State, next: Then, n: nat)
    requires Sound(s)
    ensures var taken := s.(bridge := None);
            Alone(taken, StopThen(s.bridge, next), 3 + n)
            == Alone(StoppedState(taken, s.bridge), Proceed(next), if s.bridge.Some? then n else 3 + n)
  {
    hide Alone, Proceed;
    if s.bridge.Some? {
      StopAlone(s.(bridge := None), s.bridge.value, next, n);
    }
  }

  lemma ReportedStatus(s: State, c: nat, outcome: Outcome)
    ensures Reported(s, c, outcome).status == s.status && Reported(s, c, outcome).hold == s.hold
  {
  }

  lemma EndTakes(s: State)
    requires s.status != Completed
    ensures Act(s, Ending, false) == Stay(s.(status := Completed, bridge := None, hold := false), StopThen(s.bridge, ThenReport))
  {
    hide TrackStep, TransferStep, ConnectStep, ReportStep, CleanupStep, HoldStep, BridgeStep, StopThen;
  }

  lemma NoAnswerRun(s: State, c: nat)
    requires Sound(s) && s.status == Waiting && s.done == Some(c)
    ensures var x := Alone(s, Unanswering, 3);
            Delivered(x.state, c, TransferNoAnswer) && x.state.status == NoAnswer && x.thread == Finished
  {
    hide TrackStep, TransferStep, ConnectStep, ReportStep, CleanupStep, HoldStep, BridgeStep;
    var lost := s.(status := NoAnswer, log := s.log + [Unanswered]);
    assert Act(s, Unanswering, false) == Stay(lost, Reporting(TransferNoAnswer));
    hide Alone, Act, Reported;
    AloneStep(s, Unanswering, 2, lost, Reporting(TransferNoAnswer));
    ReportAlone(lost, TransferNoAnswer, 0);
    ReportedDelivers(lost, TransferNoAnswer);
    ReportedStatus(lost, c, TransferNoAnswer);
  }

  /** The timeout of a waiting transfer resumes the IVR loop with "no_answer". */
  lemma NoAnswerAlone(m: System, c: nat)
    requires Reachable(m) && m.state.status == Waiting && m.state.done == Some(c)
    ensures var x := Alone(m.state, Timing, 4);
            Delivered(x.state, c, TransferNoAnswer) && x.state.status == NoAnswer && x.thread == Finished
  {
    ReachableSound(m);
    NoAnswerRun(m.state, c);
    assert Act(m.state, Timing, false) == Stay(m.state, Unanswering);
    hide Alone, Act, Reachable;
    AloneStep(m.state, Timing, 3, m.state, Unanswering);
  }

  lemma HangupRun(s: State, c: nat)
    requires Sound(s) && s.status == Waiting && s.hasTransfer && s.done == Some(c)
    ensures var x := Alone(s, HangupReading, 4);
            Delivered(x.state, c, TransferAbandoned) && x.state.status == Abandoned && x.thread == Finished
  {
    hide TrackStep, TransferStep, ConnectStep, ReportStep, CleanupStep, HoldStep, BridgeStep;
    var left := s.(status := Abandoned);
    assert Act(s, HangupReading, false) == Stay(s, HangupWriting);
    assert Act(s, HangupWriting, false) == Stay(left, Reporting(TransferAbandoned));
    hide Alone, Act, Reported;
    AloneStep(s, HangupReading, 3, s, HangupWriting);
    AloneStep(s, HangupWriting, 2, left, Reporting(TransferAbandoned));
    ReportAlone(left, TransferAbandoned, 0);
    ReportedDelivers(left, TransferAbandoned);
    ReportedStatus(left, c, TransferAbandoned);
  }

  /** The caller's hang-up, for a session in the map, resumes the IVR loop of a waiting transfer with "abandoned". */
  lemma HangupAlone(m: System, c: nat)
    requires Reachable(m) && m.state.inMap && m.state.status == Waiting && m.state.hasTransfer && m.state.done == Some(c)
    ensures var x := Alone(m.state, Looking(CallHangup), 5);
            Delivered(x.state, c, TransferAbandoned) && x.state.status == Abandoned && x.thread == Finished
  {
    ReachableSound(m);
    HangupRun(m.state, c);
    hide Alone, Reachable;
    AdmittedAlone(m.state, CallHangup, 4);
  }

  function ClosedDone(s: State, done: Option<nat>): State {
    if done.None? then s
    else PutChannel(s, done.value, ChannelAt(s, done.value).(closed := true, settled := [TransferCompleted]))
  }

  /** The three sections of cleanupSession before the bridge is stopped. */
  lemma CleanupSteps(s: State, n: nat)
    requires Sound(s) && s.status != Waiting && s.inMap
    ensures var taken := ClosedDone(s.(inMap := false, hold := false, bridge := None, done := None), s.done);
            Alone(s, Cleaning, n + (if s.done.Some? then 3 else 2)) == Alone(taken, StopThen(s.bridge, Nothing), n)
  {
    hide Alone, StopThen, TrackStep, TransferStep, ConnectStep, EndStep, ReportStep, HoldStep, BridgeStep;
    var out := s.(inMap := false);
    var taken := s.(inMap := false, hold := false, bridge := None, done := None);
    if s.done.Some? {
      assert s.channels[s.done.value].settled + [TransferCompleted] == [TransferCompleted];
      AloneStep(s, Cleaning, n + 2, out, CleanupTaking);
      AloneStep(out, CleanupTaking, n + 1, taken, ClosingDone(s.done.value, s.bridge));
      AloneStep(taken, ClosingDone(s.done.value, s.bridge), n, ClosedDone(taken, s.done), StopThen(s.bridge, Nothing));
    } else {
      AloneStep(s, Cleaning, n + 1, out, CleanupTaking);
      AloneStep(out, CleanupTaking, n, taken, StopThen(s.bridge, Nothing));
    }
  }

  lemma CleanupRun(s: State)
    requires Sound(s) && s.status != Waiting && s.inMap
    ensures var taken := ClosedDone(s.(inMap := false, hold := false, bridge := None, done := None), s.done);
            Alone(s, Cleaning, 6) == Pair(StoppedState(taken, s.bridge), Finished)
  {
    hide Alone, Act, StopThen;
    var taken := ClosedDone(s.(inMap := false, hold := false, bridge := None, done := None), s.done);
    var rest := if s.done.Some? then 0 else 1;
    CleanupSteps(s, 3 + rest);
    StopThenAlone(taken.(bridge := s.bridge), Nothing, rest);
    AloneFinished(StoppedState(taken, s.bridge), rest);
    AloneFinished(StoppedState(taken, s.bridge), 3 + rest);
  }

  /**
   cleanupSession, unless a transfer is waiting, removes the session, closes the channel an IVR
   loop may wait on and stops the current bridge.
   */
  lemma CleanupAlone(m: System)
    requires Reachable(m) && m.state.inMap && m.state.status != Waiting
    ensures var s' := Alone(m.state, Cleaning, 6).state;
            && Alone(m.state, Cleaning, 6).thread == Finished
            && !s'.inMap && !s'.hold && s'.done == None && BridgeClosed(m.state, s')
            && (m.state.done.Some? ==>
                  m.state.done.value < |s'.channels| && s'.channels[m.state.done.value].closed
                  && s'.channels[m.state.done.value].settled == [TransferCompleted])
  {
    ReachableSound(m);
    CleanupRun(m.state);
    hide Alone, Act, Reachable;
  }

  // ----- When a waiting IVR loop can still be woken -----

  /** Fresh calls that end a transfer or the session, and timeouts that are still running. */
  ghost predicate Waker(m: System, t: Thread) {
    || t == Looking(CallEnd) || t == Looking(CallHangup) || t == Cleaning
    || ((t == Timing || t == Unanswering) && t in m.threads)
  }

  ghost predicate Wakes(s: State, t: Thread, n: nat, c: nat) {
    ChannelAt(Alone(s, t, n).state, c).settled != []
  }

  ghost predicate Wakeable(m: System, c: nat) {
    exists t, n :: Waker(m, t) && Wakes(m.state, t, n, c)
  }

  /** What an operator can read off the session: it is in the map and not stuck without an id, or a timeout is running. */
  predicate CanEnd(m: System) {
    || (m.state.inMap && (m.state.status != Waiting || m.state.hasTransfer))
    || (m.state.status == Waiting && (Timing in m.threads || Unanswering in m.threads))
  }

  lemma Refused(s: State, t: Thread, n: nat, t': Thread)
    requires Act(s, t, false) == Stay(s, t') && forall k: nat :: k < n ==> Alone(s, t', k).state == s
    ensures Alone(s, t, n).state == s
  {
    hide Act;
    if n > 0 { AloneStep(s, t, n - 1, s, t'); }
  }

  lemma FinishedStays(s: State, n: nat)
    ensures forall k: nat :: k < n ==> Alone(s, Finished, k).state == s
  {
    hide Alone;
    forall k: nat | k < n ensures Alone(s, Finished, k).state == s { AloneFinished(s, k); }
  }

  /** A thread whose next step finds nothing to do. */
  lemma RefusedAtOnce(s: State, t: Thread, n: nat)
    requires Act(s, t, false) == Stay(s, Finished)
    ensures Alone(s, t, n).state == s
  {
    hide Alone, Act;
    FinishedStays(s, n);
    Refused(s, t, n, Finished);
  }

  /** A thread that goes on once and then finds nothing to do. */
  lemma RefusedNext(s: State, t: Thread, t': Thread, n: nat)
    requires Act(s, t, false) == Stay(s, t') && Act(s, t', false) == Stay(s, Finished)
    ensures Alone(s, t, n).state == s
  {
    hide Alone, Act;
    forall k: nat | k < n ensures Alone(s, t', k).state == s { RefusedAtOnce(s, t', k); }
    Refused(s, t, n, t');
  }

  lemma WakerRefused(m: System, t: Thread, n: nat)
    requires Waker(m, t) && !CanEnd(m)
    ensures Alone(m.state, t, n).state == m.state
  {
    hide Alone, TrackStep, TransferStep, ConnectStep, ReportStep, HoldStep, BridgeStep;
    var s := m.state;
    if t == Timing {
      RefusedNext(s, t, Unanswering, n);
    } else if t == Looking(CallEnd) && s.inMap {
      RefusedNext(s, t, Matching(CallEnd), n);
    } else if t == Looking(CallHangup) && s.inMap {
      RefusedNext(s, t, HangupReading, n);
    } else {
      RefusedAtOnce(s, t, n);
    }
  }

  lemma CanEndWakes(m: System, c: nat)
    requires Reachable(m) && m.state.done == Some(c) && CanEnd(m)
    ensures Wakeable(m, c)
  {
    hide Alone, Reachable;
    ReachableSound(m);
    if m.state.status == Waiting && Timing in m.threads {
      NoAnswerAlone(m, c);
      assert Waker(m, Timing) && Wakes(m.state, Timing, 4, c);
    } else if m.state.status == Waiting && Unanswering in m.threads {
      NoAnswerRun(m.state, c);
      assert Waker(m, Unanswering) && Wakes(m.state, Unanswering, 3, c);
    } else if m.state.status == Waiting {
      HangupAlone(m, c);
      assert Waker(m, Looking(CallHangup)) && Wakes(m.state, Looking(CallHangup), 5, c);
    } else {
      CleanupAlone(m);
      assert Waker(m, Cleaning) && Wakes(m.state, Cleaning, 6, c);
    }
  }

  /**
   An IVR loop that waits on the session's channel can be woken, by some fresh call or some
   running timeout left to itself, if and only if the session is in the map and, when waiting,
   has a transfer id, or it waits with a timeout running.
   */
  lemma WakeableIff(m: System, c: nat)
    requires Reachable(m) && m.state.done == Some(c)
    ensures Wakeable(m, c) <==> CanEnd(m)
  {
    if CanEnd(m) {
      CanEndWakes(m, c);
    } else {
      hide Alone, CanEnd, Reachable;
      ReachableSound(m);
      forall t, n ensures !(Waker(m, t) && Wakes(m.state, t, n, c)) {
        if Waker(m, t) { WakerRefused(m, t, n); }
      }
    }
  }

  /** The session after the caller's connection failed in the IVR and cleanup ran. */
  function GoneState(): State { Initial(true).state.(inMap := false) }

  lemma GoneReachable()
    ensures Reachable(System(GoneState(), [Finished]))
  {
    hide Reachable, LookStep, TrackStep, TransferStep, ConnectStep, EndStep, ReportStep, HoldStep, BridgeStep;
    var s := Initial(true).state;
    Begun(true);
    Spawned(s, [], Cleaning, [Cleaning]);
    Moved(s, [Cleaning], 0, GoneState(), [CleanupTaking]);
    Moved(GoneState(), [CleanupTaking], 0, GoneState(), [Finished]);
  }

  function VisitedState(s: State): State
    requires s.channels == []
  {
    s.(done := Some(0), channels := [NewChannel()], hold := true)
  }

  /** The IVR reaches a transfer node and is about to create the transfer row. */
  lemma VisitReachable(s: State, others: seq<Thread>)
    requires Reachable(System(s, others)) && s.done.None? && s.channels == []
    ensures Reachable(System(VisitedState(s), others + [EnteringWaiting(Some(0))]))
  {
    hide Reachable, LookStep, TrackStep, ConnectStep, EndStep, ReportStep, CleanupStep, HoldStep, BridgeStep;
    var n := |others|;
    var s1 := s.(done := Some(0), channels := [NewChannel()]);
    Spawned(s, others, Visiting, others + [Visiting]);
    Moved(s, others + [Visiting], n, s1, others + [Initiating(Some(0))]);
    Moved(s1, others + [Initiating(Some(0))], n, VisitedState(s), others + [EnteringWaiting(Some(0))]);
  }

  /**
   The first failing case is reachable: the caller's connection fails in the IVR, cleanup runs,
   the loop goes on to a transfer node, its row cannot be created, and it waits for ever.
   */
  lemma StrandedVisit() returns (m: System)
    ensures Reachable(m) && m.state.done == Some(0) && Receiving(0) in m.threads
    ensures !m.state.inMap && !Wakeable(m, 0)
  {
    hide Reachable, Wakeable, LookStep, TrackStep, ConnectStep, EndStep, ReportStep, CleanupStep, HoldStep, BridgeStep;
    GoneReachable();
    VisitReachable(GoneState(), [Finished]);
    var before := System(VisitedState(GoneState()), [Finished] + [EnteringWaiting(Some(0))]);
    Extend(before, Go(1, true));
    m := System(VisitedState(GoneState()), [Finished, Receiving(0)]);
    assert Step(before, Go(1, true)) == m;
    assert m.threads[1] == Receiving(0);
    WakeableIff(m, 0);
  }

  /** The IVR waits for a transfer, the timeout is running. */
  function TransferState(): State {
    VisitedState(Initial(true).state).(hasTransfer := true, status := Waiting, log := [Entered])
  }

  lemma TransferReachable()
    ensures Reachable(System(TransferState(), [Receiving(0), Timing]))
  {
    hide Reachable, LookStep, TrackStep, ConnectStep, EndStep, ReportStep, CleanupStep, HoldStep, BridgeStep;
    var s := Initial(true).state;
    Begun(true);
    VisitReachable(s, []);
    assert [] + [EnteringWaiting(Some(0))] == [EnteringWaiting(Some(0))];
    Moved(VisitedState(s), [EnteringWaiting(Some(0))], 0, TransferState(), [Arming(Some(0))]);
    Extend(System(TransferState(), [Arming(Some(0))]), Go(0, false));
    assert Step(System(TransferState(), [Arming(Some(0))]), Go(0, false)) == System(TransferState(), [Receiving(0), Timing]);
  }

  function ClaimedState(): State { TransferState().(status := Connected, log := [Entered, Claimed]) }

  /** An agent claims it but its connection cannot be set up; the timeout passes without effect. */
  lemma ClaimedReachable()
    ensures Reachable(System(ClaimedState(), [Receiving(0), Finished, Finished]))
  {
    hide Reachable, LookStep, TrackStep, TransferStep, ReportStep, CleanupStep, HoldStep, BridgeStep;
    var s0, s1 := TransferState(), ClaimedState();
    TransferReachable();
    Called(s0, [Receiving(0), Timing], CallClaim(7), [Receiving(0), Timing, Claiming(7)]);
    Moved(s0, [Receiving(0), Timing, Claiming(7)], 2, s1, [Receiving(0), Timing, Answering(7)]);
    Extend(System(s1, [Receiving(0), Timing, Answering(7)]), Go(2, true));
    assert Step(System(s1, [Receiving(0), Timing, Answering(7)]), Go(2, true)) == System(s1, [Receiving(0), Timing, Finished]);
    TimeoutPasses(s1);
  }

  lemma TimeoutPasses(s: State)
    requires s.status == Connected && Reachable(System(s, [Receiving(0), Timing, Finished]))
    ensures Reachable(System(s, [Receiving(0), Finished, Finished]))
  {
    hide Reachable, TrackStep, TransferStep, ConnectStep, ReportStep, CleanupStep, HoldStep, BridgeStep;
    Moved(s, [Receiving(0), Timing, Finished], 1, s, [Receiving(0), Unanswering, Finished]);
    Moved(s, [Receiving(0), Unanswering, Finished], 1, s, [Receiving(0), Finished, Finished]);
  }

  function StuckState(): State { ClaimedState().(status := Waiting, hasTransfer := false, log := [Entered, Claimed, Entered]) }

  /**
   The second failing case is reachable with the session still in the map: an agent transfer
   whose row cannot be created leaves it waiting without an id and without a timeout, so that
   hang-up, end and cleanup all turn back.
   */
  lemma StuckTransfer() returns (m: System)
    ensures Reachable(m) && m.state.done == Some(0) && Receiving(0) in m.threads
    ensures m.state.inMap && m.state.status == Waiting && !Wakeable(m, 0)
  {
    hide Reachable, Wakeable, LookStep, TrackStep, ConnectStep, EndStep, ReportStep, CleanupStep, HoldStep, BridgeStep;
    ClaimedReachable();
    var s0, s1 := ClaimedState(), StuckState();
    var others := [Receiving(0), Finished, Finished];
    Called(s0, others, CallAgentTransfer, others + [AgentTransfer]);
    Moved(s0, others + [AgentTransfer], 3, s1, others + [Registering]);
    Extend(System(s1, others + [Registering]), Go(3, true));
    m := System(s1, others + [Finished]);
    assert Step(System(s1, others + [Registering]), Go(3, true)) == m;
    assert m.threads[0] == Receiving(0);
    WakeableIff(m, 0);
  }

  // ----- When a current bridge can still be stopped -----

  /** Fresh calls that stop bridges. */
  predicate Stopper(t: Thread) {
    || t == Cleaning || t == Looking(CallEnd) || t == Looking(CallHangup) || t == Looking(CallHold)
    || t == Looking(CallAgentTransfer) || t == Looking(CallOutgoingHangup)
  }

  ghost predicate Stoppable(s: State, b: nat) {
    exists t, n :: Stopper(t) && BridgeAt(Alone(s, t, n).state, b).closes > 0
  }

  predicate CanStop(s: State) { s.inMap && (s.status != Waiting || s.hasTransfer || !s.hold || !s.incoming) }

  lemma StopperRefused(s: State, t: Thread, n: nat)
    requires Stopper(t) && !CanStop(s)
    ensures Alone(s, t, n).state == s
  {
    hide Alone, TrackStep, ConnectStep, ReportStep, BridgeStep;
    if t == Looking(CallEnd) && s.inMap {
      RefusedNext(s, t, Matching(CallEnd), n);
    } else if t.Looking? && s.inMap {
      RefusedNext(s, t, Admitted(t.call), n);
    } else {
      RefusedAtOnce(s, t, n);
    }
  }

  /** A call whose first section takes the bridge closes it. */
  lemma TakerStops(s: State, t: Thread, taken: State, next: Then)
    requires Sound(s) && s.bridge.Some? && Act(s, t, false) == Stay(taken, StopThen(s.bridge, next))
    requires taken.bridges == s.bridges
    ensures BridgeAt(Alone(s, t, 4).state, s.bridge.value).closes > 0
  {
    hide Act, Alone, Proceed;
    AloneStep(s, t, 3, taken, StopThen(s.bridge, next));
    StopAlone(taken, s.bridge.value, next, 0);
    AloneZero(StoppedState(taken, s.bridge), Proceed(next));
  }

  lemma AloneZero(s: State, t: Thread)
    ensures Alone(s, t, 0) == Pair(s, t)
  {
  }

  lemma CanStopStops(s: State, b: nat)
    requires Sound(s) && s.bridge == Some(b) && CanStop(s) && s.status == Waiting
    ensures Stoppable(s, b)
  {
    hide Alone, Proceed, StopThen, TrackStep, TransferStep, ConnectStep, ReportStep, CleanupStep, BridgeStep;
    var call, taken, next;
    if s.hasTransfer {
      call, taken, next := CallEnd, s.(status := Completed, bridge := None, hold := false), ThenReport;
    } else if !s.hold {
      call, taken, next := CallHold, s.(bridge := None), ThenPlayHold;
    } else {
      call, taken, next := CallOutgoingHangup, s.(bridge := None), ThenDropAgent;
    }
    AdmittedAlone(s, call, 4);
    TakerStops(s, Admitted(call), taken, next);
    assert Stopper(Looking(call));
  }

  /**
   A current bridge can still be stopped, by some fresh call left to itself, if and only if the
   session is in the map and not waiting, without an id, on hold and incoming all at once.
   */
  lemma StoppableIff(m: System, b: nat)
    requires Reachable(m) && m.state.bridge == Some(b)
    ensures Stoppable(m.state, b) <==> CanStop(m.state)
  {
    hide Alone, Reachable;
    ReachableSound(m);
    if CanStop(m.state) {
      if m.state.status == Waiting {
        CanStopStops(m.state, b);
      } else {
        CleanupAlone(m);
        assert Stopper(Cleaning) && BridgeAt(Alone(m.state, Cleaning, 6).state, b).closes > 0;
      }
    } else {
      forall t, n ensures !(Stopper(t) && BridgeAt(Alone(m.state, t, n).state, b).closes > 0) {
        if Stopper(t) { StopperRefused(m.state, t, n); }
      }
    }
  }

  /** A bridge published after cleanup: it is current and open, and no call will ever stop it. */
  lemma LeakedBridge() returns (m: System)
    ensures Reachable(m) && m.state.bridge == Some(0) && |m.state.bridges| == 1 && m.state.bridges[0].closes == 0
    ensures !Stoppable(m.state, 0)
  {
    hide Reachable, Stoppable, LookStep, TrackStep, TransferStep, EndStep, ReportStep, HoldStep, BridgeStep;
    SnapshotReachable();
    var s0 := SnapshotState();
    var s1 := s0.(inMap := false);
    var t := Publishing(None, Some(7));
    var s2 := s1.(bridge := Some(0), bridges := [NewBridge(true)]);
    Spawned(s0, [Finished, Timing, t], Cleaning, [Finished, Timing, t, Cleaning]);
    Moved(s0, [Finished, Timing, t, Cleaning], 3, s1, [Finished, Timing, t, CleanupTaking]);
    Moved(s1, [Finished, Timing, t, CleanupTaking], 3, s1, [Finished, Timing, t, Finished]);
    Moved(s1, [Finished, Timing, t, Finished], 2, s2, [Finished, Timing, Rechecking(0, None, Some(7)), Finished]);
    m := System(s2, [Finished, Timing, Rechecking(0, None, Some(7)), Finished]);
    StoppableIff(m, 0);
  }
}
