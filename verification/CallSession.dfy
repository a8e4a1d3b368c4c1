/**
 The critical sections as the code writes them: assignments to the fields of a call session, of
 its bridges and of its channels. What the theorems also talk about (how often a channel was
 closed, who won a test) is ghost and kept beside them; `View` joins the two. Each method is one
 locked section or one channel operation and returns where its goroutine goes next. `Interleave`
 runs any schedule of goroutines on a live session; its state is that of the transition system,
 so the theorems about runs hold of it.
 */
module CallSession {
  import opened Wrappers
  import opened SessionProtocol
  import opened SessionSafety
  import opened SessionTheorems

  /** The fields of an AudioBridge that its steps look at. */
  datatype Cell = Cell(stopped: bool, stopClosed: bool, callerAttached: bool, callerSlot: Option<Leg>)

  /** What became of a bridge, for the proofs only. */
  datatype BridgePast = BridgePast(
    closes: nat, sends: nat, launch: Launch, picked: bool, released: bool,
    overwritten: bool, won: bool, offered: bool, agentAtBirth: bool)

  /** A TransferDone channel. */
  datatype Pipe = Pipe(buffer: Option<Outcome>, closed: bool)

  datatype PipePast = PipePast(settled: seq<Outcome>, resumes: nat, overwritten: bool)

  function Joined(x: Cell, y: BridgePast): Bridge {
    Bridge(x.stopped, y.closes, x.callerAttached, x.callerSlot, y.sends, y.launch, y.picked, y.released,
           y.overwritten, y.won, y.offered, y.agentAtBirth)
  }

  function JoinedPipe(x: Pipe, y: PipePast): Channel { Channel(x.buffer, x.closed, y.settled, y.resumes, y.overwritten) }

  const NewCell := Cell(false, false, false, None)

  function NewPast(agent: bool): BridgePast { BridgePast(0, 0, NotStarted, false, false, false, false, false, agent) }

  function AllJoined(xs: seq<Cell>, ys: seq<BridgePast>): (r: seq<Bridge>)
    requires |xs| == |ys|
    ensures |r| == |xs|
  {
    seq(|xs|, i requires 0 <= i < |xs| => Joined(xs[i], ys[i]))
  }

  function AllPipes(xs: seq<Pipe>, ys: seq<PipePast>): (r: seq<Channel>)
    requires |xs| == |ys|
    ensures |r| == |xs|
  {
    seq(|xs|, i requires 0 <= i < |xs| => JoinedPipe(xs[i], ys[i]))
  }

  /** The flag of the stop channel agrees with the number of its closes. */
  ghost predicate StopFlags(xs: seq<Cell>, ys: seq<BridgePast>) {
    |xs| == |ys| && forall b :: 0 <= b < |xs| ==> (xs[b].stopClosed <==> ys[b].closes > 0)
  }

  lemma PutJoined(xs: seq<Cell>, ys: seq<BridgePast>, b: nat, x: Cell, y: BridgePast)
    requires StopFlags(xs, ys) && b < |xs| && (x.stopClosed <==> y.closes > 0)
    ensures StopFlags(xs[b := x], ys[b := y])
    ensures AllJoined(xs[b := x], ys[b := y]) == AllJoined(xs, ys)[b := Joined(x, y)]
    ensures AllJoined(xs, ys)[b] == Joined(xs[b], ys[b])
  {
  }

  lemma JoinedAt(xs: seq<Cell>, ys: seq<BridgePast>, b: nat)
    requires StopFlags(xs, ys) && b < |xs|
    ensures AllJoined(xs, ys)[b] == Joined(xs[b], ys[b]) && (xs[b].stopClosed <==> ys[b].closes > 0)
  {
  }

  lemma PipeAt(xs: seq<Pipe>, ys: seq<PipePast>, c: nat)
    requires |xs| == |ys| && c < |xs|
    ensures AllPipes(xs, ys)[c] == JoinedPipe(xs[c], ys[c])
  {
  }

  lemma AddJoined(xs: seq<Cell>, ys: seq<BridgePast>, agent: bool)
    requires StopFlags(xs, ys)
    ensures StopFlags(xs + [NewCell], ys + [NewPast(agent)])
    ensures AllJoined(xs + [NewCell], ys + [NewPast(agent)]) == AllJoined(xs, ys) + [NewBridge(agent)]
  {
  }

  lemma PutPipe(xs: seq<Pipe>, ys: seq<PipePast>, c: nat, x: Pipe, y: PipePast)
    requires |xs| == |ys| && c < |xs|
    ensures AllPipes(xs[c := x], ys[c := y]) == AllPipes(xs, ys)[c := JoinedPipe(x, y)]
    ensures AllPipes(xs, ys)[c] == JoinedPipe(xs[c], ys[c])
  {
  }

  lemma AddPipe(xs: seq<Pipe>, ys: seq<PipePast>)
    requires |xs| == |ys|
    ensures AllPipes(xs + [Pipe(None, false)], ys + [PipePast([], 0, false)]) == AllPipes(xs, ys) + [NewChannel()]
  {
  }

  lemma ServeActs(s: State, b: nat, choice: bool)
    ensures Act(s, SlotWaiting(b), choice) ==
              var x := BridgeAt(s, b);
              if x.closes > 0 && (choice || x.slot.None?) then Stay(PutBridge(s, b, x.(released := true)), Finished)
              else if x.slot.Some? then Stay(PutBridge(s, b, x.(slot := None, picked := true)), Finished)
              else Stay(s, SlotWaiting(b))
  {
    hide PutBridge, BridgeAt;
  }

  lemma MarkActs(s: State, b: nat, after: Then)
    ensures Act(s, Stopping(b, MarkStopped, after), false)
            == Stay(PutBridge(s, b, BridgeAt(s, b).(stopped := true)), Stopping(b, TestStop, after))
  {
    hide PutBridge, BridgeAt;
  }

  lemma CloseActs(s: State, b: nat, after: Then)
    ensures Act(s, Stopping(b, CloseStop, after), false) ==
              var x := BridgeAt(s, b);
              if x.closes > 0 then Stay(s.(panicked := true), Finished)
              else Stay(PutBridge(s, b, x.(closes := x.closes + 1)), Proceed(after))
  {
    hide PutBridge, BridgeAt;
  }

  lemma PublishActs(s: State, callerRemote: Option<nat>, agentLocal: Option<nat>)
    ensures Act(s, Publishing(callerRemote, agentLocal), false) ==
              var left := RetireBridge(s);
              Stay(left.(bridge := Some(|s.bridges|), bridges := left.bridges + [NewBridge(s.agent.Some?)]),
                   Rechecking(|s.bridges|, callerRemote, agentLocal))
  {
    hide PutBridge, RetireBridge, NewBridge;
  }

  lemma TakeActs(s: State)
    ensures Act(s, CleanupTaking, false) ==
              var marked := if s.hasTransfer && s.status == Waiting then s.(status := Abandoned) else s;
              Stay(marked.(bridge := None, done := None, hold := false),
                   if s.done.Some? then ClosingDone(s.done.value, s.bridge) else StopThen(s.bridge, Nothing))
  {
    hide StopThen;
  }

  lemma AgentTransferActs(s: State, choice: bool)
    ensures Act(s, AgentTransfer, choice) ==
              if s.status == Waiting || choice then Stay(s, Finished)
              else Stay(s.(hold := true, bridge := None, agent := None, hasTransfer := false, status := Waiting,
                           log := s.log + [Entered]), StopThen(s.bridge, ThenRegister))
  {
    hide StopThen;
  }

  class Session {
    const incoming: bool
    var inMap: bool
    var status: Status
    var hasTransfer: bool
    var bridge: Option<nat>
    var done: Option<nat>
    var remote: Option<nat>
    var agent: Option<nat>
    var hold: bool
    var cells: seq<Cell>
    var pipes: seq<Pipe>
    ghost var past: seq<BridgePast>
    ghost var pipePast: seq<PipePast>
    ghost var log: seq<Mark>
    ghost var panicked: bool

    ghost predicate Valid()
      reads this
    {
      StopFlags(cells, past) && |pipes| == |pipePast|
    }

    ghost function View(): State
      reads this
      requires Valid()
    {
      State(incoming, inMap, status, hasTransfer, bridge, done, remote, agent, hold,
            AllJoined(cells, past), AllPipes(pipes, pipePast), log, panicked)
    }

    constructor (incoming: bool)
      ensures Valid() && View() == Initial(incoming).state
    {
      this.incoming := incoming;
      inMap, status, hasTransfer, hold := true, Idle, false, false;
      bridge, done, remote, agent := None, None, None, None;
      cells, pipes, past, pipePast, log, panicked := [], [], [], [], [], false;
    }

    /** A new value of one bridge's fields, and what it adds to its past. */
    method PutCell(b: nat, x: Cell, ghost y: BridgePast)
      requires Valid() && b < |cells| && (x.stopClosed <==> y.closes > 0)
      modifies this`cells, this`past
      ensures Valid() && View() == PutBridge(old(View()), b, Joined(x, y))
    {
      PutJoined(cells, past, b, x, y);
      cells, past := cells[b := x], past[b := y];
    }

    method PutDone(c: nat, x: Pipe, ghost y: PipePast)
      requires Valid() && c < |pipes|
      modifies this`pipes, this`pipePast
      ensures Valid() && View() == PutChannel(old(View()), c, JoinedPipe(x, y))
    {
      PutPipe(pipes, pipePast, c, x, y);
      pipes, pipePast := pipes[c := x], pipePast[c := y];
    }

    /** The lookup in the manager's map. */
    method LookUp(call: Call) returns (next: Thread)
      requires Valid()
      ensures Valid() && Stay(View(), next) == Act(View(), Looking(call), false)
    {
      hide AllJoined, AllPipes, PutBridge, PutChannel, TrackStep, TransferStep, ConnectStep, EndStep, ReportStep, CleanupStep, HoldStep, BridgeStep;
      if !inMap {
        return Finished;
      }
      if call.CallEnd? || call.CallClaim? {
        return Matching(call);
      }
      return Admitted(call);
    }

    /** The comparison of transfer ids; a stale one matches nothing. */
    method MatchTransfer(call: Call, stale: bool) returns (next: Thread)
      requires Valid()
      ensures Valid() && Stay(View(), next) == Act(View(), Matching(call), stale)
    {
      hide AllJoined, AllPipes, PutBridge, PutChannel, TrackStep, TransferStep, ConnectStep, EndStep, ReportStep, CleanupStep, HoldStep, BridgeStep;
      if !hasTransfer || stale {
        return Finished;
      }
      return Admitted(call);
    }

    /** The peer connection's OnTrack handler up to its decision. */
    method StoreTrack(track: nat) returns (next: Thread)
      requires Valid() && (bridge.Some? ==> bridge.value < |cells|)
      modifies this
      ensures Valid() && Stay(View(), next) == old(Act(View(), OnTrack(track), false))
    {
      hide AllJoined, AllPipes, PutBridge, PutChannel, LookStep, TransferStep, ConnectStep, EndStep, ReportStep, CleanupStep, HoldStep, BridgeStep;
      if bridge.Some? { JoinedAt(cells, past, bridge.value); }
      remote := Some(track);
      if incoming && bridge.Some? && agent.Some? {
        var b := bridge.value;
        PutCell(b, cells[b], past[b].(offered := true));
        return Attaching(b, Leg(track, agent.value));
      }
      return Finished;
    }

    /** AttachCaller's locked test-and-set. */
    method AttachCaller(b: nat, leg: Leg) returns (next: Thread)
      requires Valid() && b < |cells|
      modifies this
      ensures Valid() && Stay(View(), next) == old(Act(View(), Attaching(b, leg), false))
    {
      hide AllJoined, AllPipes, PutBridge, PutChannel, LookStep, TransferStep, ConnectStep, EndStep, ReportStep, CleanupStep, HoldStep, BridgeStep;
      JoinedAt(cells, past, b);
      if cells[b].stopped || cells[b].callerAttached {
        return Finished;
      }
      PutCell(b, cells[b].(callerAttached := true), past[b].(won := true));
      return Handing(b, leg);
    }

    /** AttachCaller's send to the slot; it blocks while the slot is full. */
    method FeedSlot(b: nat, leg: Leg) returns (next: Thread)
      requires Valid() && b < |cells|
      modifies this
      ensures Valid() && Stay(View(), next) == old(Act(View(), Handing(b, leg), false))
    {
      hide AllJoined, AllPipes, PutBridge, PutChannel, LookStep, TransferStep, ConnectStep, EndStep, ReportStep, CleanupStep, HoldStep, BridgeStep;
      JoinedAt(cells, past, b);
      if cells[b].callerSlot.Some? {
        return Handing(b, leg);
      }
      PutCell(b, cells[b].(callerSlot := Some(leg)), past[b].(sends := past[b].sends + 1));
      return Finished;
    }

    /** AudioBridge.Start: launch the caller leg, or reserve its slot. */
    method StartBridge(b: nat, callerRemote: Option<nat>, agentLocal: Option<nat>) returns (next: Thread, child: Thread)
      requires Valid() && b < |cells|
      modifies this
      ensures Valid() && Effect(View(), next, child) == old(Act(View(), Starting(b, callerRemote, agentLocal), false))
    {
      hide AllJoined, AllPipes, PutBridge, PutChannel, LookStep, TrackStep, TransferStep, EndStep, ReportStep, CleanupStep, HoldStep, BridgeStep;
      JoinedAt(cells, past, b);
      if callerRemote.Some? && agentLocal.Some? {
        PutCell(b, cells[b].(callerAttached := true), past[b].(launch := Direct));
        return Finished, Finished;
      }
      PutCell(b, cells[b], past[b].(launch := Reserved(agentLocal.Some?)));
      return Finished, SlotWaiting(b);
    }

    /** The slot goroutine's select; it blocks while neither channel is ready. */
    method ServeSlot(b: nat, preferStop: bool) returns (next: Thread)
      requires Valid() && b < |cells|
      modifies this
      ensures Valid() && Stay(View(), next) == old(Act(View(), SlotWaiting(b), preferStop))
    {
      ServeActs(View(), b, preferStop);
      hide Act, AllJoined, AllPipes, PutBridge, PutChannel, StopThen, Proceed;
      JoinedAt(cells, past, b);
      var x := cells[b];
      if x.stopClosed && (preferStop || x.callerSlot.None?) {
        PutCell(b, x, past[b].(released := true));
        return Finished;
      }
      if x.callerSlot.Some? {
        PutCell(b, x.(callerSlot := None), past[b].(picked := true));
        return Finished;
      }
      return SlotWaiting(b);
    }

    /** AudioBridge.Stop sets `stopped` under the bridge's lock ... */
    method MarkBridgeStopped(b: nat, after: Then) returns (next: Thread)
      requires Valid() && b < |cells|
      modifies this
      ensures Valid() && Stay(View(), next) == old(Act(View(), Stopping(b, MarkStopped, after), false))
    {
      MarkActs(View(), b, after);
      hide Act, AllJoined, AllPipes, PutBridge, PutChannel, StopThen, Proceed;
      JoinedAt(cells, past, b);
      PutCell(b, cells[b].(stopped := true), past[b]);
      return Stopping(b, TestStop, after);
    }

    /** ... safeClose tests the channel ... */
    method TestBridgeStop(b: nat, after: Then) returns (next: Thread)
      requires Valid() && b < |cells|
      ensures Valid() && Stay(View(), next) == Act(View(), Stopping(b, TestStop, after), false)
    {
      hide AllJoined, AllPipes, PutBridge, PutChannel, LookStep, TrackStep, TransferStep, ConnectStep, EndStep, ReportStep, CleanupStep, HoldStep;
      JoinedAt(cells, past, b);
      if cells[b].stopClosed {
        return Proceed(after);
      }
      return Stopping(b, CloseStop, after);
    }

    /** ... and closes it, which panics if it is closed by then. */
    method CloseBridgeStop(b: nat, after: Then) returns (next: Thread)
      requires Valid() && b < |cells|
      modifies this
      ensures Valid() && Stay(View(), next) == old(Act(View(), Stopping(b, CloseStop, after), false))
    {
      CloseActs(View(), b, after);
      hide Act, AllJoined, AllPipes, PutBridge, PutChannel, StopThen, Proceed;
      JoinedAt(cells, past, b);
      if cells[b].stopClosed {
        panicked := true;
        return Finished;
      }
      PutCell(b, cells[b].(stopClosed := true), past[b].(closes := past[b].closes + 1));
      return Proceed(after);
    }

    /** executeTransfer makes a fresh TransferDone channel. */
    method MakeTransferDone() returns (next: Thread)
      requires Valid() && (done.Some? ==> done.value < |pipes|)
      modifies this
      ensures Valid() && Stay(View(), next) == old(Act(View(), Visiting, false))
    {
      hide AllJoined, AllPipes, PutBridge, PutChannel, LookStep, TrackStep, ConnectStep, EndStep, ReportStep, CleanupStep, HoldStep, BridgeStep;
      if done.Some? { PipeAt(pipes, pipePast, done.value); }
      if done.Some? {
        PutDone(done.value, pipes[done.value], pipePast[done.value].(overwritten := true));
      }
      AddPipe(pipes, pipePast);
      done := Some(|pipes|);
      pipes, pipePast := pipes + [Pipe(None, false)], pipePast + [PipePast([], 0, false)];
      return Initiating(done);
    }

    /** initiateTransfer hands the IVR player over as hold player. */
    method TakeHoldPlayer(visit: Option<nat>) returns (next: Thread)
      requires Valid()
      modifies this
      ensures Valid() && Stay(View(), next) == old(Act(View(), Initiating(visit), false))
    {
      hide AllJoined, AllPipes, PutBridge, PutChannel, LookStep, TrackStep, ConnectStep, EndStep, ReportStep, CleanupStep, HoldStep, BridgeStep;
      hold := true;
      return EnteringWaiting(visit);
    }

    /** initiateTransfer's entry to Waiting; `createFailed` when the transfer row could not be written. */
    method EnterWaiting(visit: Option<nat>, createFailed: bool) returns (next: Thread)
      requires Valid()
      modifies this
      ensures Valid() && Stay(View(), next) == old(Act(View(), EnteringWaiting(visit), createFailed))
    {
      hide AllJoined, AllPipes, PutBridge, PutChannel, LookStep, TrackStep, ConnectStep, EndStep, ReportStep, CleanupStep, HoldStep, BridgeStep;
      if !createFailed {
        hasTransfer := true;
        status := Waiting;
        log := log + [Entered];
        return Arming(visit);
      }
      if visit.Some? {
        return Receiving(visit.value);
      }
      return Finished;
    }

    /** executeTransfer's receive; a closed channel reads as completed. */
    method ReceiveOutcome(c: nat) returns (next: Thread)
      requires Valid() && c < |pipes|
      modifies this
      ensures Valid() && Stay(View(), next) == old(Act(View(), Receiving(c), false))
    {
      hide AllJoined, AllPipes, PutBridge, PutChannel, LookStep, TrackStep, ConnectStep, EndStep, ReportStep, CleanupStep, HoldStep, BridgeStep;
      PipeAt(pipes, pipePast, c);
      var x := pipes[c];
      if x.buffer.Some? {
        PutDone(c, x.(buffer := None), pipePast[c].(resumes := pipePast[c].resumes + 1));
        return Resumed(c, x.buffer.value);
      }
      if x.closed {
        PutDone(c, x, pipePast[c].(resumes := pipePast[c].resumes + 1));
        return Resumed(c, TransferCompleted);
      }
      return Receiving(c);
    }

    method InitiateAgentTransfer(noHoldTrack: bool) returns (next: Thread)
      requires Valid()
      modifies this
      ensures Valid() && Stay(View(), next) == old(Act(View(), AgentTransfer, noHoldTrack))
    {
      AgentTransferActs(View(), noHoldTrack);
      hide Act, AllJoined, AllPipes, PutBridge, PutChannel, StopThen, Proceed;
      if status == Waiting || noHoldTrack {
        return Finished;
      }
      hold := true;
      var taken := bridge;
      bridge := None;
      agent := None;
      hasTransfer := false;
      status := Waiting;
      log := log + [Entered];
      return StopThen(taken, ThenRegister);
    }

    /** InitiateAgentTransfer stores the id of the row it created, if it could. */
    method StoreTransferId(createFailed: bool) returns (next: Thread)
      requires Valid()
      modifies this
      ensures Valid() && Stay(View(), next) == old(Act(View(), Registering, createFailed))
    {
      hide AllJoined, AllPipes, PutBridge, PutChannel, LookStep, TrackStep, ConnectStep, EndStep, ReportStep, CleanupStep, HoldStep, BridgeStep;
      if createFailed {
        return Finished;
      }
      hasTransfer := true;
      return Arming(None);
    }

    /** ConnectAgentToTransfer's claim. */
    method Claim(track: nat) returns (next: Thread)
      requires Valid()
      modifies this
      ensures Valid() && Stay(View(), next) == old(Act(View(), Claiming(track), false))
    {
      hide AllJoined, AllPipes, PutBridge, PutChannel, LookStep, TrackStep, TransferStep, EndStep, ReportStep, CleanupStep, HoldStep, BridgeStep;
      if status != Waiting {
        return Finished;
      }
      status := Connected;
      log := log + [Claimed];
      return Answering(track);
    }

    /** ConnectAgentToTransfer stores the agent's track once its connection is set up. */
    method StoreAgentTrack(track: nat, setupFailed: bool) returns (next: Thread)
      requires Valid()
      modifies this
      ensures Valid() && Stay(View(), next) == old(Act(View(), Answering(track), setupFailed))
    {
      hide AllJoined, AllPipes, PutBridge, PutChannel, LookStep, TrackStep, TransferStep, EndStep, ReportStep, CleanupStep, HoldStep, BridgeStep;
      if setupFailed {
        return Finished;
      }
      agent := Some(track);
      return Completing;
    }

    /** completeTransferConnection waits for the agent's microphone and takes the hold player. */
    method TakeHold(timedOut: bool) returns (next: Thread)
      requires Valid()
      modifies this
      ensures Valid() && Stay(View(), next) == old(Act(View(), Completing, timedOut))
    {
      hide AllJoined, AllPipes, PutBridge, PutChannel, LookStep, TrackStep, TransferStep, EndStep, ReportStep, CleanupStep, HoldStep, BridgeStep;
      if timedOut {
        return Looking(CallEnd);
      }
      hold := false;
      return Snapshotting;
    }

    /** It writes Connected whatever the status was, and snapshots the tracks. */
    method SnapshotTracks() returns (next: Thread)
      requires Valid()
      modifies this
      ensures Valid() && Stay(View(), next) == old(Act(View(), Snapshotting, false))
    {
      hide AllJoined, AllPipes, PutBridge, PutChannel, LookStep, TrackStep, TransferStep, EndStep, ReportStep, CleanupStep, HoldStep, BridgeStep;
      status := Connected;
      return Publishing(remote, agent);
    }

    /** setupAudioBridge publishes a new bridge. */
    method PublishBridge(callerRemote: Option<nat>, agentLocal: Option<nat>) returns (next: Thread)
      requires Valid() && (bridge.Some? ==> bridge.value < |cells|)
      modifies this
      ensures Valid() && Stay(View(), next) == old(Act(View(), Publishing(callerRemote, agentLocal), false))
    {
      PublishActs(View(), callerRemote, agentLocal);
      hide Act, AllJoined, AllPipes, PutBridge, PutChannel, StopThen, Proceed;
      RetireCurrent();
      hide RetireBridge;
      var b := |cells|;
      AddJoined(cells, past, agent.Some?);
      cells, past := cells + [NewCell], past + [NewPast(agent.Some?)];
      bridge := Some(b);
      return Rechecking(b, callerRemote, agentLocal);
    }

    /** History: the field that is about to be overwritten. */
    ghost method RetireCurrent()
      requires Valid() && (bridge.Some? ==> bridge.value < |cells|)
      modifies this`past
      ensures Valid() && View() == RetireBridge(old(View()))
    {
      hide AllJoined, AllPipes;
      if bridge.Some? {
        var b := bridge.value;
        JoinedAt(cells, past, b);
        PutJoined(cells, past, b, cells[b], past[b].(overwritten := true));
        assert cells[b := cells[b]] == cells;
        past := past[b := past[b].(overwritten := true)];
      }
    }

    /** lateCallerTrack; an outgoing bridge may skip it. */
    method RecheckTrack(b: nat, callerRemote: Option<nat>, agentLocal: Option<nat>, looks: bool) returns (next: Thread)
      requires Valid()
      ensures Valid() && Stay(View(), next) == Act(View(), Rechecking(b, callerRemote, agentLocal), looks)
    {
      hide AllJoined, AllPipes, PutBridge, PutChannel, LookStep, TrackStep, TransferStep, EndStep, ReportStep, CleanupStep, HoldStep, BridgeStep;
      var found := callerRemote;
      if callerRemote.None? && (incoming || looks) {
        found := remote;
      }
      return Starting(b, found, agentLocal);
    }

    method ResumeCall() returns (next: Thread)
      requires Valid()
      modifies this
      ensures Valid() && Stay(View(), next) == old(Act(View(), Resuming, false))
    {
      hide AllJoined, AllPipes, PutBridge, PutChannel, LookStep, TrackStep, TransferStep, EndStep, ReportStep, CleanupStep, HoldStep, BridgeStep;
      if !hold {
        return Finished;
      }
      hold := false;
      return Publishing(remote, agent);
    }

    method StartOutgoing(waRemote: Option<nat>, agentLocal: Option<nat>) returns (next: Thread)
      requires Valid()
      ensures Valid() && Stay(View(), next) == Act(View(), OutgoingBridge(waRemote, agentLocal), false)
    {
      hide AllJoined, AllPipes, PutBridge, PutChannel, LookStep, TrackStep, TransferStep, EndStep, ReportStep, CleanupStep, HoldStep, BridgeStep;
      if incoming {
        return Finished;
      }
      return Publishing(waRemote, agentLocal);
    }

    method EndTransfer() returns (next: Thread)
      requires Valid()
      modifies this
      ensures Valid() && Stay(View(), next) == old(Act(View(), Ending, false))
    {
      hide AllJoined, AllPipes, PutBridge, PutChannel, LookStep, TrackStep, TransferStep, ConnectStep, ReportStep, CleanupStep, HoldStep, BridgeStep;
      if status == Completed {
        return Finished;
      }
      status := Completed;
      var taken := bridge;
      bridge := None;
      hold := false;
      return StopThen(taken, ThenReport);
    }

    method NoAnswerGuard() returns (next: Thread)
      requires Valid()
      modifies this
      ensures Valid() && Stay(View(), next) == old(Act(View(), Unanswering, false))
    {
      hide AllJoined, AllPipes, PutBridge, PutChannel, LookStep, TrackStep, TransferStep, ConnectStep, ReportStep, CleanupStep, HoldStep, BridgeStep;
      if status != Waiting {
        return Finished;
      }
      status := NoAnswer;
      log := log + [Unanswered];
      return Reporting(TransferNoAnswer);
    }

    /** The caller's hang-up reads here ... */
    method HangupRead() returns (next: Thread)
      requires Valid()
      ensures Valid() && Stay(View(), next) == Act(View(), HangupReading, false)
    {
      hide AllJoined, AllPipes, PutBridge, PutChannel, LookStep, TrackStep, TransferStep, ConnectStep, ReportStep, CleanupStep, HoldStep, BridgeStep;
      if !hasTransfer || status != Waiting {
        return Finished;
      }
      return HangupWriting;
    }

    /** ... and writes here, in a later section, without looking again. */
    method HangupWrite() returns (next: Thread)
      requires Valid()
      modifies this
      ensures Valid() && Stay(View(), next) == old(Act(View(), HangupWriting, false))
    {
      hide AllJoined, AllPipes, PutBridge, PutChannel, LookStep, TrackStep, TransferStep, ConnectStep, ReportStep, CleanupStep, HoldStep, BridgeStep;
      status := Abandoned;
      return Reporting(TransferAbandoned);
    }

    /** The section that takes TransferDone in EndTransfer, no-answer and hang-up. */
    method TakeTransferDone(outcome: Outcome, loadFailed: bool) returns (next: Thread)
      requires Valid()
      modifies this
      ensures Valid() && Stay(View(), next) == old(Act(View(), Reporting(outcome), loadFailed))
    {
      hide AllJoined, AllPipes, PutBridge, PutChannel, LookStep, TrackStep, TransferStep, ConnectStep, EndStep, CleanupStep, HoldStep, BridgeStep;
      if outcome == TransferCompleted && loadFailed {
        return Finished;
      }
      var taken := done;
      done := None;
      if taken.Some? {
        return Sending(taken.value, outcome);
      }
      return Cleaning;
    }

    /** A send on a closed channel panics; on a full one it blocks. */
    method SendOutcome(c: nat, outcome: Outcome) returns (next: Thread)
      requires Valid() && c < |pipes|
      modifies this
      ensures Valid() && Stay(View(), next) == old(Act(View(), Sending(c, outcome), false))
    {
      hide AllJoined, AllPipes, PutBridge, PutChannel, LookStep, TrackStep, TransferStep, ConnectStep, EndStep, CleanupStep, HoldStep, BridgeStep;
      PipeAt(pipes, pipePast, c);
      var x := pipes[c];
      if x.closed {
        panicked := true;
        return Finished;
      }
      if x.buffer.Some? {
        return Sending(c, outcome);
      }
      PutDone(c, x.(buffer := Some(outcome)), pipePast[c].(settled := pipePast[c].settled + [outcome]));
      return Finished;
    }

    /** cleanupSession's first section, under the manager's and the session's lock. */
    method RemoveFromMap() returns (next: Thread)
      requires Valid()
      modifies this
      ensures Valid() && Stay(View(), next) == old(Act(View(), Cleaning, false))
    {
      hide AllJoined, AllPipes, PutBridge, PutChannel, LookStep, TrackStep, TransferStep, ConnectStep, EndStep, ReportStep, HoldStep, BridgeStep;
      if !inMap || status == Waiting {
        return Finished;
      }
      inMap := false;
      return CleanupTaking;
    }

    /** Its second section: snapshot and nil. */
    method TakeResources() returns (next: Thread)
      requires Valid()
      modifies this
      ensures Valid() && Stay(View(), next) == old(Act(View(), CleanupTaking, false))
    {
      TakeActs(View());
      hide Act, AllJoined, AllPipes, PutBridge, PutChannel, StopThen, Proceed;
      if hasTransfer && status == Waiting {
        status := Abandoned;
      }
      var takenBridge, takenDone := bridge, done;
      bridge, done, hold := None, None, false;
      if takenDone.Some? {
        return ClosingDone(takenDone.value, takenBridge);
      }
      return StopThen(takenBridge, Nothing);
    }

    method CloseTransferDone(c: nat, taken: Option<nat>) returns (next: Thread)
      requires Valid() && c < |pipes|
      modifies this
      ensures Valid() && Stay(View(), next) == old(Act(View(), ClosingDone(c, taken), false))
    {
      hide AllJoined, AllPipes, PutBridge, PutChannel, LookStep, TrackStep, TransferStep, ConnectStep, EndStep, ReportStep, HoldStep, BridgeStep;
      PipeAt(pipes, pipePast, c);
      var x := pipes[c];
      if x.closed {
        panicked := true;
        return Finished;
      }
      PutDone(c, x.(closed := true), pipePast[c].(settled := pipePast[c].settled + [TransferCompleted]));
      return StopThen(taken, Nothing);
    }

    method HoldCall(noCallerTrack: bool) returns (next: Thread)
      requires Valid()
      modifies this
      ensures Valid() && Stay(View(), next) == old(Act(View(), Holding, noCallerTrack))
    {
      hide AllJoined, AllPipes, PutBridge, PutChannel, LookStep, TrackStep, TransferStep, ConnectStep, EndStep, ReportStep, CleanupStep, BridgeStep;
      if hold || bridge.None? || noCallerTrack {
        return Finished;
      }
      var taken := bridge;
      bridge := None;
      return StopThen(taken, ThenPlayHold);
    }

    method StoreHoldPlayer() returns (next: Thread)
      requires Valid()
      modifies this
      ensures Valid() && Stay(View(), next) == old(Act(View(), PlayingHold, false))
    {
      hide AllJoined, AllPipes, PutBridge, PutChannel, LookStep, TrackStep, TransferStep, ConnectStep, EndStep, ReportStep, CleanupStep, BridgeStep;
      hold := true;
      return Finished;
    }

    method HangupOutgoing(noIvr: bool) returns (next: Thread)
      requires Valid()
      modifies this
      ensures Valid() && Stay(View(), next) == old(Act(View(), OutgoingHangup, noIvr))
    {
      hide AllJoined, AllPipes, PutBridge, PutChannel, LookStep, TrackStep, TransferStep, ConnectStep, EndStep, ReportStep, CleanupStep, BridgeStep;
      if incoming {
        return Finished;
      }
      if noIvr {
        return Cleaning;
      }
      var taken := bridge;
      bridge := None;
      return StopThen(taken, ThenDropAgent);
    }

    method DropAgentTrack() returns (next: Thread)
      requires Valid()
      modifies this
      ensures Valid() && Stay(View(), next) == old(Act(View(), DroppingAgent, false))
    {
      hide AllJoined, AllPipes, PutBridge, PutChannel, LookStep, TrackStep, TransferStep, ConnectStep, EndStep, ReportStep, CleanupStep, BridgeStep;
      agent := None;
      return Finished;
    }

    /** One step of a goroutine: the section its program counter stands at. */
    method Go(t: Thread, choice: bool) returns (next: Thread, child: Thread)
      requires Valid() && Ready(View(), t)
      modifies this
      ensures Valid() && Effect(View(), next, child) == old(Act(View(), t, choice))
    {
      hide LookStep, TrackStep, TransferStep, ConnectStep, EndStep, ReportStep, CleanupStep, HoldStep, BridgeStep;
      ChoiceIgnored(View(), t, choice);
      TimerActs(View(), t, choice);
      ghost var before := View();
      ReadyInRange(before, t);
      assert |before.bridges| == |cells| && |before.channels| == |pipes|;
      hide Act, AllJoined, AllPipes, StopFlags, Determined, Ready;
      child := Finished;
      match t
      case Finished => next := t;
      case Looking(call) => next := LookUp(call);
      case Matching(call) => next := MatchTransfer(call, choice);
      case Timing => next := if choice then Finished else Unanswering;
      case Arming(visit) => next, child := (if visit.Some? then Receiving(visit.value) else Finished), Timing;
      case Resumed(_, _) => next := t;
      case OnTrack(track) => next := StoreTrack(track);
      case Attaching(b, leg) => next := AttachCaller(b, leg);
      case Handing(b, leg) => next := FeedSlot(b, leg);
      case Visiting => next := MakeTransferDone();
      case Initiating(visit) => next := TakeHoldPlayer(visit);
      case EnteringWaiting(visit) => next := EnterWaiting(visit, choice);
      case Receiving(c) => next := ReceiveOutcome(c);
      case AgentTransfer => next := InitiateAgentTransfer(choice);
      case Registering => next := StoreTransferId(choice);
      case Claiming(track) => next := Claim(track);
      case Answering(track) => next := StoreAgentTrack(track, choice);
      case Completing => next := TakeHold(choice);
      case Snapshotting => next := SnapshotTracks();
      case Publishing(callerRemote, local) => next := PublishBridge(callerRemote, local);
      case Rechecking(b, callerRemote, local) => next := RecheckTrack(b, callerRemote, local, choice);
      case Starting(b, callerRemote, local) => next, child := StartBridge(b, callerRemote, local);
      case Resuming => next := ResumeCall();
      case OutgoingBridge(callerRemote, local) => next := StartOutgoing(callerRemote, local);
      case SlotWaiting(b) => next := ServeSlot(b, choice);
      case Ending => next := EndTransfer();
      case Unanswering => next := NoAnswerGuard();
      case HangupReading => next := HangupRead();
      case HangupWriting => next := HangupWrite();
      case Reporting(outcome) => next := TakeTransferDone(outcome, choice);
      case Sending(c, outcome) => next := SendOutcome(c, outcome);
      case Cleaning => next := RemoveFromMap();
      case CleanupTaking => next := TakeResources();
      case ClosingDone(c, taken) => next := CloseTransferDone(c, taken);
      case Holding => next := HoldCall(choice);
      case PlayingHold => next := StoreHoldPlayer();
      case OutgoingHangup => next := HangupOutgoing(choice);
      case DroppingAgent => next := DropAgentTrack();
      case Stopping(b, phase, after) =>
        match phase
        case MarkStopped => next := MarkBridgeStopped(b, after);
        case TestStop => next := TestBridgeStop(b, after);
        case CloseStop => next := CloseBridgeStop(b, after);
    }
  }

  /** The bridges and channels a thread is about to touch exist. */
  predicate InRange(s: State, t: Thread) {
    && (s.bridge.Some? ==> s.bridge.value < |s.bridges|)
    && (s.done.Some? ==> s.done.value < |s.channels|)
    && match t
       case Attaching(b, _) => b < |s.bridges|
       case Handing(b, _) => b < |s.bridges|
       case Receiving(c) => c < |s.channels|
       case Rechecking(b, _, _) => b < |s.bridges|
       case Starting(b, _, _) => b < |s.bridges|
       case SlotWaiting(b) => b < |s.bridges|
       case Sending(c, _) => c < |s.channels|
       case ClosingDone(c, _) => c < |s.channels|
       case Stopping(b, _, _) => b < |s.bridges|
       case _ => true
  }

  lemma ReadyInRange(s: State, t: Thread)
    requires Ready(s, t)
    ensures InRange(s, t)
  {
  }

  /** Steps that make no outside choice. */
  predicate Determined(t: Thread) {
    || t.Looking? || t.Arming? || TrackThread(t) || EndThread(t) || CleanupThread(t) || t.Sending? || t.Stopping?
    || t.Visiting? || t.Initiating? || t.Receiving? || t.Claiming? || t.Snapshotting? || t.Publishing? || t.Starting?
    || t.Resuming? || t.OutgoingBridge? || t.PlayingHold? || t.DroppingAgent? || t.Finished? || t.Resumed?
  }

  lemma TimerActs(s: State, t: Thread, choice: bool)
    ensures t.Timing? ==> Act(s, t, choice) == Stay(s, if choice then Finished else Unanswering)
    ensures t.Arming? ==> Act(s, t, choice) == Effect(s, if t.visit.Some? then Receiving(t.visit.value) else Finished, Timing)
  {
    hide TrackStep, ConnectStep, EndStep, ReportStep, CleanupStep, HoldStep, BridgeStep;
  }

  lemma ChoiceIgnored(s: State, t: Thread, choice: bool)
    ensures Determined(t) ==> Act(s, t, choice) == Act(s, t, false)
    ensures t.Finished? || t.Resumed? ==> Act(s, t, choice) == Stay(s, t)
  {
    if LookThread(t) || TransferThread(t) || ReportThread(t) || BridgeThread(t) {
      ChoiceIgnoredWaiting(s, t, choice);
    } else if ConnectThread(t) || HoldThread(t) {
      ChoiceIgnoredTalking(s, t, choice);
    } else {
      hide LookStep, TrackStep, TransferStep, ConnectStep, EndStep, ReportStep, CleanupStep, HoldStep, BridgeStep;
    }
  }

  lemma ChoiceIgnoredWaiting(s: State, t: Thread, choice: bool)
    requires LookThread(t) || TransferThread(t) || ReportThread(t) || BridgeThread(t)
    ensures Determined(t) ==> Act(s, t, choice) == Act(s, t, false)
  {
    hide PutBridge, PutChannel, BridgeAt, ChannelAt, RetireBridge, RetireChannel;
    hide TrackStep, ConnectStep, EndStep, CleanupStep, HoldStep, StopThen, Admitted;
  }

  lemma ChoiceIgnoredTalking(s: State, t: Thread, choice: bool)
    requires ConnectThread(t) || HoldThread(t)
    ensures Determined(t) ==> Act(s, t, choice) == Act(s, t, false)
  {
    hide PutBridge, BridgeAt, RetireBridge;
    hide LookStep, TrackStep, TransferStep, EndStep, ReportStep, CleanupStep, BridgeStep, StopThen;
  }

  /**
   Any schedule of any goroutines on one live session. The session ends in the state of the
   run, and in particular no channel was closed twice or written to after its close, every
   TransferDone channel was settled at most once, every bridge closed at most once, and no
   bridge has two caller legs.
   */
  method Interleave(incoming: bool, events: seq<Event>) returns (session: Session, threads: seq<Thread>)
    ensures fresh(session) && session.Valid()
    ensures System(session.View(), threads) == Run(Initial(incoming), events)
    ensures !session.panicked
    ensures forall c :: 0 <= c < |session.pipes| ==> |session.pipePast[c].settled| <= 1
    ensures forall b :: 0 <= b < |session.cells| ==> session.past[b].closes <= 1 && session.past[b].sends <= 1
  {
    hide Step;
    session := new Session(incoming);
    threads := [];
    for i := 0 to |events|
      invariant session.Valid()
      invariant System(session.View(), threads) == Run(Initial(incoming), events[..i])
    {
      assert events[..i + 1][..i] == events[..i];
      ghost var before := System(session.View(), threads);
      RunInv(incoming, events[..i]);
      StepUnfolds(before, events[i]);
      match events[i]
      case Spawn(entry) =>
        if IsEntry(entry) {
          threads := threads + [entry];
        }
      case Go(who, choice) =>
        if who < |threads| {
          ReadyFromInv(before, who);
          var next, child := session.Go(threads[who], choice);
          threads := threads[who := next];
          if !child.Finished? {
            threads := threads + [child];
          }
        }
    }
    assert events[..|events|] == events;
    SafeAtEnd(incoming, events);
    ghost var s := session.View();
    assert forall c :: 0 <= c < |session.pipes| ==> s.channels[c].settled == session.pipePast[c].settled;
    assert forall b :: 0 <= b < |session.cells| ==> s.bridges[b].closes == session.past[b].closes && s.bridges[b].sends == session.past[b].sends;
  }

  lemma StepUnfolds(m: System, e: Event)
    ensures match e
            case Spawn(entry) => Step(m, e) == if IsEntry(entry) then m.(threads := m.threads + [entry]) else m
            case Go(who, choice) =>
              if who >= |m.threads| then Step(m, e) == m
              else
                var x := Act(m.state, m.threads[who], choice);
                Step(m, e) == System(x.state, if x.child.Finished? then m.threads[who := x.thread] else m.threads[who := x.thread] + [x.child])
  {
    hide Act;
    if e.Go? && e.who < |m.threads| {
      var x := Act(m.state, m.threads[e.who], e.choice);
      assert m.threads[e.who := x.thread] + [] == m.threads[e.who := x.thread];
    }
  }

  lemma SafeAtEnd(incoming: bool, events: seq<Event>)
    ensures var s := Run(Initial(incoming), events).state;
            && !s.panicked
            && (forall c :: 0 <= c < |s.channels| ==> |s.channels[c].settled| <= 1)
            && (forall b :: 0 <= b < |s.bridges| ==> s.bridges[b].closes <= 1 && s.bridges[b].sends <= 1)
  {
    var m := Run(Initial(incoming), events);
    assert Reachable(m);
    hide Reachable, Run;
    NeverPanics(m);
    forall c | 0 <= c < |m.state.channels| ensures |m.state.channels[c].settled| <= 1 { SettledAtMostOnce(m, c); }
    forall b | 0 <= b < |m.state.bridges| ensures m.state.bridges[b].closes <= 1 && m.state.bridges[b].sends <= 1 {
      StoppedAtMostOnce(m, b);
      NeverTwoLegs(m, b);
    }
  }
}
