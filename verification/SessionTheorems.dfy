/**
 The promises of the session protocol, over all runs (all interleavings of any number of
 threads): TransferDone channels, bridges, the Waiting epochs and the caller-to-agent leg.
 */
module SessionTheorems {
  import opened Wrappers
  import opened SessionProtocol
  import opened SessionSafety

  /** A state of some run. */
  ghost predicate Reachable(m: System) {
    exists incoming, events :: m == Run(Initial(incoming), events)
  }

  lemma ReachableInv(m: System)
    requires Reachable(m)
    ensures Inv(m)
  {
    var incoming, events :| m == Run(Initial(incoming), events);
    RunInv(incoming, events);
  }

  lemma Account(m: System, k: Token)
    requires Inv(m) && !k.Attach?
    ensures HeldBy(m.threads, k) == Owed(m.state, k)
  {
    assert Balanced(m, k);
  }

  /** No send on or close of a closed channel, and no double close, ever happens. */
  lemma NeverPanics(m: System)
    requires Reachable(m)
    ensures !m.state.panicked
  {
    ReachableInv(m);
  }

  // ----- TransferDone -----

  /**
   Every TransferDone channel is in exactly one of four places: the session's field, the hands
   of one thread that is about to settle it, settled, or overwritten by a later visit. It is
   settled at most once.
   */
  lemma SettledAtMostOnce(m: System, c: nat)
    requires Reachable(m) && c < |m.state.channels|
    ensures |m.state.channels[c].settled| <= 1
    ensures Bit(m.state.done == Some(c)) + HeldBy(m.threads, Settle(c)) + |m.state.channels[c].settled|
            + Bit(m.state.channels[c].overwritten) == 1
  {
    ReachableInv(m);
    Account(m, Settle(c));
  }

  /** A thread about to send finds its channel open and empty: the send neither blocks nor panics. */
  lemma SendNeverBlocks(m: System, i: nat)
    requires Reachable(m) && i < |m.threads| && m.threads[i].Sending?
    ensures var s' := Act(m.state, m.threads[i], true).state;
            var c := m.threads[i].c;
            && c < |m.state.channels| && !m.state.channels[c].closed && m.state.channels[c].buffer.None?
            && Act(m.state, m.threads[i], true).thread == Finished
            && c < |s'.channels| && s'.channels[c].settled == [m.threads[i].outcome]
  {
    ReachableInv(m);
    ReadyFromInv(m, i);
    var c := m.threads[i].c;
    HeldByUpdate(m.threads, i, m.threads[i], Settle(c));
    Account(m, Settle(c));
  }

  /** executeTransfer resumes at most once per visit, with the outcome the visit was settled with. */
  lemma ResumesOnce(m: System, c: nat)
    requires Reachable(m) && c < |m.state.channels|
    ensures HeldBy(m.threads, Visit(c)) + m.state.channels[c].resumes == 1
    ensures forall i :: 0 <= i < |m.threads| && m.threads[i].Resumed? && m.threads[i].c == c ==>
                          m.state.channels[c].settled == [m.threads[i].outcome]
  {
    ReachableInv(m);
    Account(m, Visit(c));
    SettledAtMostOnce(m, c);
    forall i | 0 <= i < |m.threads| && m.threads[i].Resumed? && m.threads[i].c == c
      ensures m.state.channels[c].settled == [m.threads[i].outcome]
    {
      assert ThreadOk(m.state, m.threads[i]);
    }
  }

  // ----- Bridges -----

  /**
   Every bridge is current, being stopped by exactly one thread, stopped, or overwritten by a
   later one. Its stop channel is closed at most once.
   */
  lemma StoppedAtMostOnce(m: System, b: nat)
    requires Reachable(m) && b < |m.state.bridges|
    ensures m.state.bridges[b].closes <= 1
    ensures Bit(m.state.bridge == Some(b)) + HeldBy(m.threads, Stop(b)) + m.state.bridges[b].closes
            + Bit(m.state.bridges[b].overwritten) == 1
  {
    ReachableInv(m);
    Account(m, Stop(b));
  }

  /** No two threads are inside Stop of the same bridge, so safeClose's test cannot go stale. */
  lemma OneStopper(m: System, i: nat, j: nat)
    requires Reachable(m) && i < j < |m.threads| && m.threads[i].Stopping? && m.threads[j].Stopping?
    ensures m.threads[i].b != m.threads[j].b
  {
    if m.threads[i].b == m.threads[j].b {
      var b := m.threads[i].b;
      ReachableInv(m);
      TwoHolders(m.threads, i, j, Stop(b));
      Account(m, Stop(b));
    }
  }

  // ----- Epochs -----

  predicate Win(k: Mark) { k == Claimed || k == Unanswered }

  /** Between two wins (an agent's claim or a no-answer) the session entered Waiting again. */
  lemma OneWinPerEpoch(m: System, i: nat, j: nat)
    requires Reachable(m) && i < j < |m.state.log| && Win(m.state.log[i]) && Win(m.state.log[j])
    ensures exists k :: i < k < j && m.state.log[k] == Entered
  {
    ReachableInv(m);
    assert m.state.log[j - 1] == Entered;
  }

  // ----- The caller-to-agent leg -----

  /** Legs that were launched directly or picked from the slot, or wait in a slot that is served. */
  function Legs(m: System, b: nat): nat
    requires b < |m.state.bridges|
  {
    var x := m.state.bridges[b];
    Bit(x.launch.Direct?) + Bit(x.picked) + Bit(x.launch.Reserved? && x.slot.Some?)
  }

  lemma LegFacts(m: System, b: nat)
    requires Reachable(m) && b < |m.state.bridges|
    ensures BridgeInv(m.state, b)
    ensures Pending(m.state.bridges[b]) ==> HeldBy(m.threads, Attach(b)) > 0
    ensures var x := m.state.bridges[b];
            && HeldBy(m.threads, Hand(b)) + x.sends == Bit(x.won)
            && HeldBy(m.threads, Serve(b)) + Bit(x.picked) + Bit(x.released) == Bit(x.launch.Reserved?)
  {
    ReachableInv(m);
    Account(m, Hand(b));
    Account(m, Serve(b));
  }

  /** Never two legs; at most one leg is ever sent to the slot; a queued leg's server is still there. */
  lemma NeverTwoLegs(m: System, b: nat)
    requires Reachable(m) && b < |m.state.bridges|
    ensures Legs(m, b) <= 1
    ensures m.state.bridges[b].sends + HeldBy(m.threads, Hand(b)) <= 1
    ensures var x := m.state.bridges[b];
            x.launch.Reserved? && x.slot.Some? && x.closes == 0 ==> HeldBy(m.threads, Serve(b)) == 1
  {
    LegFacts(m, b);
  }

  /** AttachCaller's send finds the slot empty. */
  lemma AttachNeverBlocks(m: System, i: nat)
    requires Reachable(m) && i < |m.threads| && m.threads[i].Handing?
    ensures Act(m.state, m.threads[i], true).thread == Finished
  {
    ReachableInv(m);
    ReadyFromInv(m, i);
  }

  /**
   Once Start has run and nobody stopped the bridge, with no OnTrack still between its read and
   its hand-off, there is a leg if and only if Start launched it or OnTrack found this bridge
   with an agent track.
   */
  lemma LegExactly(m: System, b: nat)
    requires Reachable(m) && b < |m.state.bridges|
    requires !m.state.bridges[b].launch.NotStarted? && !m.state.bridges[b].stopped
    requires HeldBy(m.threads, Attach(b)) == 0 && HeldBy(m.threads, Hand(b)) == 0
    ensures Legs(m, b) == 1 <==> m.state.bridges[b].launch.Direct? || m.state.bridges[b].offered
  {
    LegFacts(m, b);
  }

  /**
   The promise: a session's current bridge whose Start has run, once the caller's track has
   arrived, has exactly one leg, given that the connecting thread and the session both had the
   agent's track. OnTrack threads still on their way to the bridge count as on their way.
   */
  lemma ExactlyOneLeg(m: System, b: nat)
    requires Reachable(m) && b < |m.state.bridges| && m.state.incoming && m.state.bridge == Some(b)
    requires m.state.bridges[b].launch.Direct? || m.state.bridges[b].launch == Reserved(true)
    requires m.state.bridges[b].agentAtBirth && m.state.remote.Some?
    ensures m.state.bridges[b].launch.Direct? ==> Legs(m, b) == 1
    ensures m.state.bridges[b].launch.Reserved? ==>
              if m.state.bridges[b].attached then Legs(m, b) + HeldBy(m.threads, Hand(b)) == 1
              else HeldBy(m.threads, Attach(b)) > 0
    ensures HeldBy(m.threads, Attach(b)) == 0 && HeldBy(m.threads, Hand(b)) == 0 ==> Legs(m, b) == 1
  {
    LegFacts(m, b);
    hide Reachable, HeldBy;
  }

  // ----- Terminal status -----

  predicate Terminal(status: Status) { status == Completed || status == NoAnswer || status == Abandoned }

  /**
   The steps that write over a terminal status: a new entry to Waiting, the connect path's
   unconditional Connected, EndTransfer's Completed, and the stale Abandoned of a hang-up.
   */
  predicate Overwrites(status: Status, t: Thread, choice: bool) {
    || (t.EnteringWaiting? && !choice)
    || (t.AgentTransfer? && !choice)
    || t.Snapshotting?
    || (t.Ending? && status != Completed)
    || (t.HangupWriting? && status != Abandoned)
  }

  lemma LookStatus(s: State, t: Thread, choice: bool)
    requires LookThread(t)
    ensures LookStep(s, t, choice).state.status == s.status
  {
  }

  lemma TrackStatus(s: State, t: Thread)
    requires TrackThread(t)
    ensures TrackStep(s, t).state.status == s.status
  {
    hide PutBridge, BridgeAt;
  }

  lemma ReportStatus(s: State, t: Thread, choice: bool)
    requires ReportThread(t)
    ensures ReportStep(s, t, choice).state.status == s.status
  {
    hide PutChannel, ChannelAt;
  }

  lemma ServeStatus(s: State, t: Thread, choice: bool)
    requires t.SlotWaiting?
    ensures BridgeStep(s, t, choice).state.status == s.status
  {
    hide PutBridge, BridgeAt;
  }

  lemma StopStatus(s: State, t: Thread, choice: bool)
    requires t.Stopping?
    ensures BridgeStep(s, t, choice).state.status == s.status
  {
    hide PutBridge, BridgeAt, Proceed;
  }

  lemma TransferStatus(s: State, t: Thread, choice: bool)
    requires TransferThread(t) && Terminal(s.status)
    ensures TransferStep(s, t, choice).state.status == s.status <==> !Overwrites(s.status, t, choice)
  {
    hide PutChannel, RetireChannel, ChannelAt, StopThen;
  }

  lemma WireStatus(s: State, t: Thread, choice: bool)
    requires t.Publishing? || t.Starting?
    ensures ConnectStep(s, t, choice).state.status == s.status
  {
    hide PutBridge, RetireBridge, BridgeAt, NewBridge;
  }

  lemma ConnectStatus(s: State, t: Thread, choice: bool)
    requires ConnectThread(t) && Terminal(s.status)
    ensures ConnectStep(s, t, choice).state.status == s.status <==> !Overwrites(s.status, t, choice)
  {
    hide PutBridge, RetireBridge, BridgeAt, NewBridge;
    if t.Publishing? || t.Starting? {
      hide ConnectStep;
      WireStatus(s, t, choice);
    }
  }

  lemma EndStatus(s: State, t: Thread)
    requires EndThread(t) && Terminal(s.status)
    ensures EndStep(s, t).state.status == s.status <==> !Overwrites(s.status, t, false)
    ensures Overwrites(s.status, t, true) <==> Overwrites(s.status, t, false)
  {
    hide StopThen;
  }

  lemma CleanupStatus(s: State, t: Thread)
    requires CleanupThread(t) && Terminal(s.status)
    ensures CleanupStep(s, t).state.status == s.status
  {
    hide PutChannel, ChannelAt, StopThen;
  }

  lemma HoldStatus(s: State, t: Thread, choice: bool)
    requires HoldThread(t)
    ensures HoldStep(s, t, choice).state.status == s.status
  {
    hide StopThen;
  }

  /** One step keeps a terminal status exactly when it is none of these. */
  lemma StatusKeptIff(s: State, t: Thread, choice: bool)
    requires Terminal(s.status)
    ensures Act(s, t, choice).state.status == s.status <==> !Overwrites(s.status, t, choice)
  {
    hide LookStep, TrackStep, TransferStep, ConnectStep, EndStep, ReportStep, CleanupStep, HoldStep, BridgeStep;
    if LookThread(t) {
      LookStatus(s, t, choice);
    } else if TrackThread(t) {
      TrackStatus(s, t);
    } else if TransferThread(t) {
      TransferStatus(s, t, choice);
    } else if ConnectThread(t) {
      ConnectStatus(s, t, choice);
    } else if EndThread(t) {
      EndStatus(s, t);
    } else if ReportThread(t) {
      ReportStatus(s, t, choice);
    } else if CleanupThread(t) {
      CleanupStatus(s, t);
    } else if HoldThread(t) {
      HoldStatus(s, t, choice);
    } else if t.SlotWaiting? {
      ServeStatus(s, t, choice);
    } else if t.Stopping? {
      StopStatus(s, t, choice);
    }
  }

  predicate Overwriting(m: System, e: Event) {
    e.Go? && e.who < |m.threads| && Overwrites(m.state.status, m.threads[e.who], e.choice)
  }

  lemma StepKeepsIff(m: System, e: Event)
    requires Terminal(m.state.status)
    ensures Step(m, e).state.status == m.state.status <==> !Overwriting(m, e)
  {
    hide Act;
    if e.Go? && e.who < |m.threads| { StatusKeptIff(m.state, m.threads[e.who], e.choice); }
  }

  /** The status is the same after every event as it was in `m`. */
  predicate StaysThroughout(m: System, events: seq<Event>) {
    || events == []
    || (StaysThroughout(m, events[..|events| - 1]) && Run(m, events).state.status == m.state.status)
  }

  predicate NeverOverwritten(m: System, events: seq<Event>) {
    || events == []
    || (&& NeverOverwritten(m, events[..|events| - 1])
        && !Overwriting(Run(m, events[..|events| - 1]), events[|events| - 1]))
  }

  lemma {:induction false} StillTheSame(m: System, events: seq<Event>)
    requires StaysThroughout(m, events)
    ensures Run(m, events).state.status == m.state.status
  {
  }

  /** Over every continuation: a terminal status stays as it is exactly as long as none of those steps is taken. */
  lemma {:induction false} TerminalStaysIff(m: System, events: seq<Event>)
    requires Terminal(m.state.status)
    ensures StaysThroughout(m, events) <==> NeverOverwritten(m, events)
  {
    if events != [] {
      hide Step, Overwriting;
      var before := events[..|events| - 1];
      TerminalStaysIff(m, before);
      if StaysThroughout(m, before) {
        StillTheSame(m, before);
        StepKeepsIff(Run(m, before), events[|events| - 1]);
      }
    }
  }

  // ----- What the protocol does not promise -----

  lemma Extend(m: System, e: Event)
    requires Reachable(m)
    ensures Reachable(Step(m, e))
  {
    var incoming, events :| m == Run(Initial(incoming), events);
    assert (events + [e])[..|events|] == events;
    assert Step(m, e) == Run(Initial(incoming), events + [e]);
  }

  lemma Begun(incoming: bool)
    ensures Reachable(Initial(incoming))
  {
    assert Initial(incoming) == Run(Initial(incoming), []);
  }

  lemma Spawned(s: State, threads: seq<Thread>, t: Thread, after: seq<Thread>)
    requires Reachable(System(s, threads)) && IsEntry(t) && after == threads + [t]
    ensures Reachable(System(s, after))
  {
    Extend(System(s, threads), Spawn(t));
  }

  lemma Moved(s: State, threads: seq<Thread>, who: nat, s': State, after: seq<Thread>)
    requires Reachable(System(s, threads)) && who < |threads| && who < |after|
    requires Act(s, threads[who], false) == Stay(s', after[who]) && after == threads[who := after[who]]
    ensures Reachable(System(s', after))
  {
    hide Act;
    Extend(System(s, threads), Go(who, false));
    assert after + [] == after;
  }

  /** A call that finds its session, by its transfer where it names one. */
  lemma Called(s: State, threads: seq<Thread>, call: Call, after: seq<Thread>)
    requires Reachable(System(s, threads)) && s.inMap && (s.hasTransfer || !(call.CallEnd? || call.CallClaim?))
    requires after == threads + [Admitted(call)]
    ensures Reachable(System(s, after))
  {
    hide Reachable, Admitted;
    var n := |threads|;
    Spawned(s, threads, Looking(call), threads + [Looking(call)]);
    if call.CallEnd? || call.CallClaim? {
      Moved(s, threads + [Looking(call)], n, s, threads + [Matching(call)]);
      Moved(s, threads + [Matching(call)], n, s, after);
    } else {
      Moved(s, threads + [Looking(call)], n, s, after);
    }
  }

  function WaitingState(incoming: bool): State {
    Initial(incoming).state.(hold := true, hasTransfer := true, status := Waiting, log := [Entered])
  }

  /** Waiting for an agent, from scratch; the timeout is running. */
  lemma WaitingReachable(incoming: bool)
    ensures Reachable(System(WaitingState(incoming), [Finished, Timing]))
  {
    hide Reachable, LookStep, TrackStep, ConnectStep, EndStep, ReportStep, CleanupStep, HoldStep, BridgeStep;
    var s, w := Initial(incoming).state, WaitingState(incoming);
    Begun(incoming);
    Spawned(s, [], Initiating(None), [Initiating(None)]);
    Moved(s, [Initiating(None)], 0, s.(hold := true), [EnteringWaiting(None)]);
    Moved(s.(hold := true), [EnteringWaiting(None)], 0, w, [Arming(None)]);
    Extend(System(w, [Arming(None)]), Go(0, false));
    assert Step(System(w, [Arming(None)]), Go(0, false)) == System(w, [Finished, Timing]);
  }

  /** A terminal status is not final: the caller's hang-up read Waiting before no-answer won, and writes after it. */
  lemma TerminalStatusOverwritten() returns (m: System, e: Event)
    ensures Reachable(m) && m.state.status == NoAnswer
    ensures Step(m, e).state.status == Abandoned
  {
    hide Reachable, TrackStep, TransferStep, ConnectStep, ReportStep, CleanupStep, HoldStep, BridgeStep;
    WaitingReachable(true);
    var s := WaitingState(true);
    Called(s, [Finished, Timing], CallHangup, [Finished, Timing, HangupReading]);
    Moved(s, [Finished, Timing, HangupReading], 2, s, [Finished, Timing, HangupWriting]);
    Moved(s, [Finished, Timing, HangupWriting], 1, s, [Finished, Unanswering, HangupWriting]);
    var s' := s.(status := NoAnswer, log := [Entered, Unanswered]);
    Moved(s, [Finished, Unanswering, HangupWriting], 1, s', [Finished, Reporting(TransferNoAnswer), HangupWriting]);
    m := System(s', [Finished, Reporting(TransferNoAnswer), HangupWriting]);
    e := Go(2, false);
  }

  /** An agent (track 7) has claimed the transfer and the connecting thread has taken its snapshot; no caller track yet. */
  function SnapshotState(): State {
    WaitingState(true).(hold := false, status := Connected, agent := Some(7), log := [Entered, Claimed])
  }

  lemma SnapshotReachable()
    ensures Reachable(System(SnapshotState(), [Finished, Timing, Publishing(None, Some(7))]))
  {
    hide Reachable, LookStep, TrackStep, TransferStep, EndStep, ReportStep, CleanupStep, HoldStep, BridgeStep;
    WaitingReachable(true);
    var s0 := WaitingState(true);
    var s1 := s0.(status := Connected, log := [Entered, Claimed]);
    var s2 := s1.(agent := Some(7));
    Called(s0, [Finished, Timing], CallClaim(7), [Finished, Timing, Claiming(7)]);
    Moved(s0, [Finished, Timing, Claiming(7)], 2, s1, [Finished, Timing, Answering(7)]);
    Moved(s1, [Finished, Timing, Answering(7)], 2, s2, [Finished, Timing, Completing]);
    Moved(s2, [Finished, Timing, Completing], 2, SnapshotState(), [Finished, Timing, Snapshotting]);
    Moved(SnapshotState(), [Finished, Timing, Snapshotting], 2, SnapshotState(), [Finished, Timing, Publishing(None, Some(7))]);
  }

  /** The claimed agent starts a transfer of its own before the bridge is published; the bridge is published all the same. */
  function OrphanState(b: Bridge): State {
    SnapshotState().(hold := true, hasTransfer := false, status := Waiting, agent := None, log := [Entered, Claimed, Entered],
                     bridge := Some(0), bridges := [b])
  }

  lemma OrphanReachable()
    ensures Reachable(System(OrphanState(NewBridge(false)), [Finished, Timing, Rechecking(0, None, Some(7)), Registering]))
  {
    hide Reachable, LookStep, TrackStep, EndStep, ReportStep, CleanupStep, HoldStep, BridgeStep;
    SnapshotReachable();
    var s0 := SnapshotState();
    var t := Publishing(None, Some(7));
    var s1 := s0.(hold := true, hasTransfer := false, status := Waiting, agent := None, log := [Entered, Claimed, Entered]);
    Called(s0, [Finished, Timing, t], CallAgentTransfer, [Finished, Timing, t, AgentTransfer]);
    Moved(s0, [Finished, Timing, t, AgentTransfer], 3, s1, [Finished, Timing, t, Registering]);
    Moved(s1, [Finished, Timing, t, Registering], 2, OrphanState(NewBridge(false)),
          [Finished, Timing, Rechecking(0, None, Some(7)), Registering]);
  }

  lemma OrphanStarted()
    ensures Reachable(System(OrphanState(NewBridge(false).(launch := Reserved(true))),
                             [Finished, Timing, Finished, Registering, SlotWaiting(0)]))
  {
    hide Reachable, LookStep, TrackStep, TransferStep, EndStep, ReportStep, CleanupStep, HoldStep, BridgeStep;
    OrphanReachable();
    var s := OrphanState(NewBridge(false));
    var before := [Finished, Timing, Starting(0, None, Some(7)), Registering];
    Moved(s, [Finished, Timing, Rechecking(0, None, Some(7)), Registering], 2, s, before);
    Extend(System(s, before), Go(2, false));
    assert Step(System(s, before), Go(2, false))
        == System(OrphanState(NewBridge(false).(launch := Reserved(true))), [Finished, Timing, Finished, Registering, SlotWaiting(0)]);
  }

  /**
   Without the agent track at publication the promise fails: the bridge is current, Start has
   run with the connecting agent's track, the caller's track has arrived, and there is no leg.
   */
  lemma LegLost() returns (m: System)
    ensures Reachable(m) && |m.state.bridges| == 1 && m.state.incoming && m.state.bridge == Some(0)
    ensures m.state.bridges[0].launch == Reserved(true) && m.state.remote.Some?
    ensures Legs(m, 0) == 0 && (forall i :: 0 <= i < |m.threads| ==> !TrackThread(m.threads[i]))
  {
    hide Reachable, LookStep, TransferStep, ConnectStep, EndStep, ReportStep, CleanupStep, HoldStep, BridgeStep;
    OrphanStarted();
    var s := OrphanState(NewBridge(false).(launch := Reserved(true)));
    var others := [Finished, Timing, Finished, Registering, SlotWaiting(0)];
    Spawned(s, others, OnTrack(3), others + [OnTrack(3)]);
    Moved(s, others + [OnTrack(3)], 5, s.(remote := Some(3)), others + [Finished]);
    m := System(s.(remote := Some(3)), others + [Finished]);
  }
}
