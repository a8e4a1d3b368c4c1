/**
 The call-session protocol (internal/calling: transfer.go, session.go, bridge.go, webrtc.go,
 ivr.go, outgoing.go) as a transition system.

 A session is shared by any number of goroutines. Each critical section of session.mu or
 bridge.mu, each channel operation and each half of the non-atomic safeClose is one step of one
 thread; an event says which thread moves and how an outside choice (a failed query, a missing
 track, a timeout, a select) falls. Every sequence of events is a run, so what is proved for
 all event sequences holds for all interleavings. A step that Go would block on leaves the
 state unchanged; a step that Go would panic on sets `panicked`.
 */
module SessionProtocol {
  import opened Wrappers

  datatype Status = Idle | Waiting | Connected | Completed | NoAnswer | Abandoned

  datatype Outcome = TransferCompleted | TransferNoAnswer | TransferAbandoned

  /** A caller-to-agent leg: a remote track and the agent's local track it is written to. */
  datatype Leg = Leg(src: nat, dst: nat)

  datatype Launch = NotStarted | Direct | Reserved(hasAgent: bool)

  /**
   AudioBridge. `closes` counts closes of its stop channel. The last four fields are history:
   whether session.Bridge was overwritten while it pointed here, whether AttachCaller won the
   attach test, whether OnTrack chose this bridge for a track, and whether the session had an
   agent track when the bridge was published.
   */
  datatype Bridge = Bridge(
    stopped: bool, closes: nat, attached: bool,
    slot: Option<Leg>, sends: nat, launch: Launch, picked: bool, released: bool,
    overwritten: bool, won: bool, offered: bool, agentAtBirth: bool)

  /**
   A TransferDone channel (capacity 1). `settled` lists its sends and closes, `resumes` counts
   what was received from it, `overwritten` as for bridges.
   */
  datatype Channel = Channel(
    buffer: Option<Outcome>, closed: bool, settled: seq<Outcome>, resumes: nat, overwritten: bool)

  /** What each entry to Waiting, agent claim and no-answer leaves in the history. */
  datatype Mark = Entered | Claimed | Unanswered

  datatype State = State(
    incoming: bool, inMap: bool, status: Status, hasTransfer: bool,
    bridge: Option<nat>, done: Option<nat>, remote: Option<nat>, agent: Option<nat>, hold: bool,
    bridges: seq<Bridge>, channels: seq<Channel>, log: seq<Mark>, panicked: bool)

  /** bridge.Stop: mark stopped under the lock, test the stop channel, close it. */
  datatype Phase = MarkStopped | TestStop | CloseStop

  /** What a thread does once its bridge is stopped. */
  datatype Then = Nothing | ThenRegister | ThenReport | ThenPlayHold | ThenDropAgent

  /** The calls that begin by looking the session up in the manager's map. */
  datatype Call =
    | CallEnd | CallHangup | CallClaim(track: nat) | CallHold | CallResume | CallAgentTransfer | CallOutgoingHangup

  /** A thread is its program counter with its local variables. */
  datatype Thread =
    | Finished
    // GetSessionByCallLogID, findSessionByTransferID, HandleCallEvent
    | Looking(call: Call)
    | Matching(call: Call)
    // OnTrack and AttachCaller
    | OnTrack(track: nat)
    | Attaching(b: nat, leg: Leg)
    | Handing(b: nat, leg: Leg)
    // executeTransfer and initiateTransfer
    | Visiting
    | Initiating(visit: Option<nat>)
    | EnteringWaiting(visit: Option<nat>)
    | Arming(visit: Option<nat>)
    | Timing
    | Receiving(c: nat)
    | Resumed(c: nat, outcome: Outcome)
    // InitiateAgentTransfer
    | AgentTransfer
    | Registering
    // ConnectAgentToTransfer, completeTransferConnection, ResumeCall, startOutgoingBridge
    | Claiming(track: nat)
    | Answering(track: nat)
    | Completing
    | Snapshotting
    | Publishing(remote: Option<nat>, local: Option<nat>)
    | Rechecking(b: nat, remote: Option<nat>, local: Option<nat>)
    | Starting(b: nat, remote: Option<nat>, local: Option<nat>)
    | Resuming
    | OutgoingBridge(remote: Option<nat>, local: Option<nat>)
    // the slot goroutine
    | SlotWaiting(b: nat)
    // EndTransfer, handleTransferNoAnswer, HandleCallerHangupDuringTransfer
    | Ending
    | Unanswering
    | HangupReading
    | HangupWriting
    | Reporting(outcome: Outcome)
    | Sending(c: nat, outcome: Outcome)
    // cleanupSession
    | Cleaning
    | CleanupTaking
    | ClosingDone(c: nat, bridge: Option<nat>)
    // HoldCall, HangupOutgoingCall
    | Holding
    | PlayingHold
    | OutgoingHangup
    | DroppingAgent
    // AudioBridge.Stop, called by several of the above
    | Stopping(b: nat, phase: Phase, next: Then)

  /** Where a goroutine of the program can begin; the timeout of a waiting transfer is started by the transfer itself. */
  predicate IsEntry(t: Thread) {
    t.Looking? || t.OnTrack? || t.Visiting? || t == Initiating(None) || t.Cleaning? || t.OutgoingBridge?
  }

  // Which source functions a thread is in.

  predicate TrackThread(t: Thread) {
    t.OnTrack? || t.Attaching? || t.Handing?
  }

  predicate LookThread(t: Thread) {
    t.Looking? || t.Matching? || t.Timing?
  }

  predicate TransferThread(t: Thread) {
    t.Visiting? || t.Initiating? || t.EnteringWaiting? || t.Arming? || t.Receiving? || t.AgentTransfer? || t.Registering?
  }

  predicate ConnectThread(t: Thread) {
    || t.Claiming? || t.Answering? || t.Completing? || t.Snapshotting? || t.Publishing? || t.Rechecking? || t.Starting?
    || t.Resuming? || t.OutgoingBridge?
  }

  predicate EndThread(t: Thread) {
    t.Ending? || t.Unanswering? || t.HangupReading? || t.HangupWriting?
  }

  predicate ReportThread(t: Thread) {
    t.Reporting? || t.Sending?
  }

  predicate CleanupThread(t: Thread) {
    t.Cleaning? || t.CleanupTaking? || t.ClosingDone?
  }

  predicate HoldThread(t: Thread) {
    t.Holding? || t.PlayingHold? || t.OutgoingHangup? || t.DroppingAgent?
  }

  predicate BridgeThread(t: Thread) {
    t.SlotWaiting? || t.Stopping?
  }

  datatype Effect = Effect(state: State, thread: Thread, child: Thread)

  // ----- Shared objects -----

  function NewBridge(agentAtBirth: bool): Bridge {
    Bridge(false, 0, false, None, 0, NotStarted, false, false, false, false, false, agentAtBirth)
  }

  function NewChannel(): Channel { Channel(None, false, [], 0, false) }

  function BridgeAt(s: State, b: nat): Bridge { if b < |s.bridges| then s.bridges[b] else NewBridge(false) }

  function PutBridge(s: State, b: nat, x: Bridge): (r: State)
    ensures r == s.(bridges := r.bridges) && |r.bridges| == |s.bridges|
  {
    if b < |s.bridges| then s.(bridges := s.bridges[b := x]) else s
  }

  function ChannelAt(s: State, c: nat): Channel { if c < |s.channels| then s.channels[c] else NewChannel() }

  function PutChannel(s: State, c: nat, x: Channel): (r: State)
    ensures r == s.(channels := r.channels) && |r.channels| == |s.channels|
  {
    if c < |s.channels| then s.(channels := s.channels[c := x]) else s
  }

  /** History only: the field is about to be overwritten. */
  function RetireBridge(s: State): (r: State)
    ensures r == s.(bridges := r.bridges) && |r.bridges| == |s.bridges|
  {
    if s.bridge.Some? then PutBridge(s, s.bridge.value, BridgeAt(s, s.bridge.value).(overwritten := true)) else s
  }

  function RetireChannel(s: State): (r: State)
    ensures r == s.(channels := r.channels) && |r.channels| == |s.channels|
  {
    if s.done.Some? then PutChannel(s, s.done.value, ChannelAt(s, s.done.value).(overwritten := true)) else s
  }

  // ----- The steps -----

  function Stay(s: State, t: Thread): Effect { Effect(s, t, Finished) }

  function Proceed(next: Then): Thread {
    match next
    case Nothing => Finished
    case ThenRegister => Registering
    case ThenReport => Reporting(TransferCompleted)
    case ThenPlayHold => PlayingHold
    case ThenDropAgent => DroppingAgent
  }

  function StopThen(bridge: Option<nat>, next: Then): Thread {
    if bridge.Some? then Stopping(bridge.value, MarkStopped, next) else Proceed(next)
  }

  /** Where a call goes once it has its session. */
  function Admitted(call: Call): Thread {
    match call
    case CallEnd => Ending
    case CallHangup => HangupReading
    case CallClaim(track) => Claiming(track)
    case CallHold => Holding
    case CallResume => Resuming
    case CallAgentTransfer => AgentTransfer
    case CallOutgoingHangup => OutgoingHangup
  }

  /**
   session.go:225-231, 280-289 and transfer.go:1151-1168: the map first, then, for the calls
   that name a transfer, its id (which may be out of date). transfer.go:1014-1023: the timeout
   passes, unless it was cancelled.
   */
  function LookStep(s: State, t: Thread, choice: bool): Effect
    requires LookThread(t)
  {
    match t
    case Looking(call) =>
      Stay(s, if !s.inMap then Finished else if call.CallEnd? || call.CallClaim? then Matching(call) else Admitted(call))
    case Matching(call) => Stay(s, if !s.hasTransfer || choice then Finished else Admitted(call))
    case Timing => Stay(s, if choice then Finished else Unanswering)
  }

  /** webrtc.go:66-85 and bridge.go:127-145 */
  function TrackStep(s: State, t: Thread): Effect
    requires TrackThread(t)
  {
    match t
    case OnTrack(track) =>
      var stored := s.(remote := Some(track));
      if s.incoming && s.bridge.Some? && s.agent.Some? then
        var b := s.bridge.value;
        Stay(PutBridge(stored, b, BridgeAt(s, b).(offered := true)), Attaching(b, Leg(track, s.agent.value)))
      else
        Stay(stored, Finished)
    case Attaching(b, leg) =>
      var x := BridgeAt(s, b);
      if x.stopped || x.attached then Stay(s, Finished)
      else Stay(PutBridge(s, b, x.(attached := true, won := true)), Handing(b, leg))
    case Handing(b, leg) =>
      var x := BridgeAt(s, b);
      if x.slot.Some? then Stay(s, t)
      else Stay(PutBridge(s, b, x.(slot := Some(leg), sends := x.sends + 1)), Finished)
  }

  /** ivr.go:442-471 and transfer.go:26-32, 73-96, 249-284, 380-383 */
  function TransferStep(s: State, t: Thread, choice: bool): Effect
    requires TransferThread(t)
  {
    match t
    case Visiting =>
      var c := |s.channels|;
      var left := RetireChannel(s);
      Stay(left.(done := Some(c), channels := left.channels + [NewChannel()]), Initiating(Some(c)))
    case Initiating(visit) => Stay(s.(hold := true), EnteringWaiting(visit))
    case EnteringWaiting(visit) =>
      var next := if visit.Some? then Receiving(visit.value) else Finished;
      if choice then Stay(s, next)
      else Stay(s.(hasTransfer := true, status := Waiting, log := s.log + [Entered]), Arming(visit))
    case Arming(visit) => Effect(s, if visit.Some? then Receiving(visit.value) else Finished, Timing)
    case Receiving(c) =>
      var x := ChannelAt(s, c);
      if x.buffer.Some? then
        Stay(PutChannel(s, c, x.(buffer := None, resumes := x.resumes + 1)), Resumed(c, x.buffer.value))
      else if x.closed then
        Stay(PutChannel(s, c, x.(resumes := x.resumes + 1)), Resumed(c, TransferCompleted))
      else Stay(s, t)
    case AgentTransfer =>
      if s.status == Waiting || choice then Stay(s, Finished)
      else
        Stay(s.(hold := true, bridge := None, agent := None, hasTransfer := false, status := Waiting,
                log := s.log + [Entered]),
             StopThen(s.bridge, ThenRegister))
    case Registering => if choice then Stay(s, Finished) else Stay(s.(hasTransfer := true), Arming(None))
  }

  /** transfer.go:464-475, 549-556, 576-699, 1383-1431, session.go:477-497, outgoing.go:557-572, bridge.go:77-105 */
  function ConnectStep(s: State, t: Thread, choice: bool): Effect
    requires ConnectThread(t)
  {
    match t
    case Claiming(track) =>
      if s.status != Waiting then Stay(s, Finished)
      else Stay(s.(status := Connected, log := s.log + [Claimed]), Answering(track))
    case Answering(track) =>
      if choice then Stay(s, Finished) else Stay(s.(agent := Some(track)), Completing)
    case Completing =>
      if choice then Stay(s, Looking(CallEnd)) else Stay(s.(hold := false), Snapshotting)
    case Snapshotting => Stay(s.(status := Connected), Publishing(s.remote, s.agent))
    case Resuming =>
      if !s.hold then Stay(s, Finished) else Stay(s.(hold := false), Publishing(s.remote, s.agent))
    case OutgoingBridge(remote, local) =>
      if s.incoming then Stay(s, Finished) else Stay(s, Publishing(remote, local))
    case Publishing(remote, local) =>
      var b := |s.bridges|;
      var left := RetireBridge(s);
      Stay(left.(bridge := Some(b), bridges := left.bridges + [NewBridge(s.agent.Some?)]), Rechecking(b, remote, local))
    case Rechecking(b, remote, local) =>
      Stay(s, Starting(b, if remote.None? && (s.incoming || choice) then s.remote else remote, local))
    case Starting(b, remote, local) =>
      var x := BridgeAt(s, b);
      if remote.Some? && local.Some? then
        Stay(PutBridge(s, b, x.(attached := true, launch := Direct)), Finished)
      else
        Effect(PutBridge(s, b, x.(launch := Reserved(local.Some?))), Finished, SlotWaiting(b))
  }

  /** transfer.go:709-725, 1028-1034, 1092-1099, 1115-1126 */
  function EndStep(s: State, t: Thread): Effect
    requires EndThread(t)
  {
    match t
    case Ending =>
      if s.status == Completed then Stay(s, Finished)
      else Stay(s.(status := Completed, bridge := None, hold := false), StopThen(s.bridge, ThenReport))
    case Unanswering =>
      if s.status != Waiting then Stay(s, Finished)
      else Stay(s.(status := NoAnswer, log := s.log + [Unanswered]), Reporting(TransferNoAnswer))
    case HangupReading => Stay(s, if !s.hasTransfer || s.status != Waiting then Finished else HangupWriting)
    case HangupWriting => Stay(s.(status := Abandoned), Reporting(TransferAbandoned))
  }

  /** transfer.go:760-763, 796-819, 1067-1087, 1137-1147 */
  function ReportStep(s: State, t: Thread, choice: bool): Effect
    requires ReportThread(t)
  {
    match t
    case Reporting(outcome) =>
      if outcome == TransferCompleted && choice then Stay(s, Finished)  // the transfer row could not be loaded
      else Stay(s.(done := None), if s.done.Some? then Sending(s.done.value, outcome) else Cleaning)
    case Sending(c, outcome) =>
      var x := ChannelAt(s, c);
      if x.closed then Stay(s.(panicked := true), Finished)
      else if x.buffer.Some? then Stay(s, t)
      else Stay(PutChannel(s, c, x.(buffer := Some(outcome), settled := x.settled + [outcome])), Finished)
  }

  /** session.go:324-344, 347-390, 412-414 */
  function CleanupStep(s: State, t: Thread): Effect
    requires CleanupThread(t)
  {
    match t
    case Cleaning =>
      if !s.inMap || s.status == Waiting then Stay(s, Finished)
      else Stay(s.(inMap := false), CleanupTaking)
    case CleanupTaking =>
      var marked := if s.hasTransfer && s.status == Waiting then s.(status := Abandoned) else s;
      Stay(marked.(bridge := None, done := None, hold := false),
           if s.done.Some? then ClosingDone(s.done.value, s.bridge) else StopThen(s.bridge, Nothing))
    case ClosingDone(c, bridge) =>
      var x := ChannelAt(s, c);
      if x.closed then Stay(s.(panicked := true), Finished)
      else Stay(PutChannel(s, c, x.(closed := true, settled := x.settled + [TransferCompleted])), StopThen(bridge, Nothing))
  }

  /** transfer.go:1291-1320, 1333-1335 and outgoing.go:424-457, 473-494 */
  function HoldStep(s: State, t: Thread, choice: bool): Effect
    requires HoldThread(t)
  {
    match t
    case Holding =>
      if s.hold || s.bridge.None? || choice then Stay(s, Finished)
      else Stay(s.(bridge := None), StopThen(s.bridge, ThenPlayHold))
    case PlayingHold => Stay(s.(hold := true), Finished)
    case OutgoingHangup =>
      if s.incoming then Stay(s, Finished)
      else if choice then Stay(s, Cleaning)
      else Stay(s.(bridge := None), StopThen(s.bridge, ThenDropAgent))
    case DroppingAgent => Stay(s.(agent := None), Finished)
  }

  /** bridge.go:97-104, 221-226 and session.go:500-506 */
  function BridgeStep(s: State, t: Thread, choice: bool): Effect
    requires BridgeThread(t)
  {
    match t
    case SlotWaiting(b) =>
      var x := BridgeAt(s, b);
      if x.closes > 0 && (choice || x.slot.None?) then Stay(PutBridge(s, b, x.(released := true)), Finished)
      else if x.slot.Some? then Stay(PutBridge(s, b, x.(slot := None, picked := true)), Finished)
      else Stay(s, t)
    case Stopping(b, MarkStopped, next) => Stay(PutBridge(s, b, BridgeAt(s, b).(stopped := true)), Stopping(b, TestStop, next))
    case Stopping(b, TestStop, next) =>
      Stay(s, if BridgeAt(s, b).closes > 0 then Proceed(next) else Stopping(b, CloseStop, next))
    case Stopping(b, CloseStop, next) =>
      var x := BridgeAt(s, b);
      if x.closes > 0 then Stay(s.(panicked := true), Finished)
      else Stay(PutBridge(s, b, x.(closes := x.closes + 1)), Proceed(next))
  }

  function Act(s: State, t: Thread, choice: bool): Effect {
    if LookThread(t) then LookStep(s, t, choice)
    else if TrackThread(t) then TrackStep(s, t)
    else if TransferThread(t) then TransferStep(s, t, choice)
    else if ConnectThread(t) then ConnectStep(s, t, choice)
    else if EndThread(t) then EndStep(s, t)
    else if ReportThread(t) then ReportStep(s, t, choice)
    else if CleanupThread(t) then CleanupStep(s, t)
    else if HoldThread(t) then HoldStep(s, t, choice)
    else if BridgeThread(t) then BridgeStep(s, t, choice)
    else Stay(s, t)
  }

  // ----- Runs -----

  datatype System = System(state: State, threads: seq<Thread>)

  datatype Event = Spawn(entry: Thread) | Go(who: nat, choice: bool)

  function Step(m: System, e: Event): System {
    match e
    case Spawn(entry) => if IsEntry(entry) then m.(threads := m.threads + [entry]) else m
    case Go(who, choice) =>
      if who < |m.threads| then
        var x := Act(m.state, m.threads[who], choice);
        System(x.state, m.threads[who := x.thread] + (if x.child.Finished? then [] else [x.child]))
      else m
  }

  function Initial(incoming: bool): System {
    System(State(incoming, true, Idle, false, None, None, None, None, false, [], [], [], false), [])
  }

  function Run(m: System, events: seq<Event>): System {
    if events == [] then m else Step(Run(m, events[..|events| - 1]), events[|events| - 1])
  }
}
