/**
 What every run of the session protocol keeps.

 The duties that the code passes around with "snapshot and nil under the lock" are tokens: the
 duty to stop a bridge, to settle a TransferDone channel, to call Start, to feed the caller
 slot, to serve it, and to wait on a channel. For each token, what the session holds, what the
 threads hold and what was spent always add up to what was issued. At most one stop, one
 settlement and one leg follow by counting.
 */
module SessionSafety {
  import opened Wrappers
  import opened SessionProtocol

  datatype Token =
    | Stop(b: nat)    // close the bridge's stop channel
    | Settle(c: nat)  // send on or close the channel
    | Launch(b: nat)  // call Start
    | Hand(b: nat)    // send on the caller slot
    | Serve(b: nat)   // receive from the caller slot
    | Visit(c: nat)   // receive from the channel
    | Attach(b: nat)  // a thread about to test `attached`; the only token that may be held twice

  function Bit(x: bool): nat { if x then 1 else 0 }

  /** The duties a thread has at its program counter. */
  function Duties(t: Thread): set<Token> {
    match t
    case Attaching(b, _) => {Attach(b)}
    case Handing(b, _) => {Hand(b)}
    case Initiating(visit) => if visit.Some? then {Visit(visit.value)} else {}
    case EnteringWaiting(visit) => if visit.Some? then {Visit(visit.value)} else {}
    case Arming(visit) => if visit.Some? then {Visit(visit.value)} else {}
    case Receiving(c) => {Visit(c)}
    case Rechecking(b, _, _) => {Launch(b)}
    case Starting(b, _, _) => {Launch(b)}
    case SlotWaiting(b) => {Serve(b)}
    case Sending(c, _) => {Settle(c)}
    case ClosingDone(c, bridge) => if bridge.Some? then {Settle(c), Stop(bridge.value)} else {Settle(c)}
    case Stopping(b, _, _) => {Stop(b)}
    case _ => {}
  }

  function Holds(t: Thread, k: Token): nat { Bit(k in Duties(t)) }

  function HeldBy(threads: seq<Thread>, k: Token): nat {
    if threads == [] then 0
    else HeldBy(threads[..|threads| - 1], k) + Holds(threads[|threads| - 1], k)
  }

  function InSession(s: State, k: Token): nat {
    match k
    case Stop(b) => Bit(s.bridge == Some(b))
    case Settle(c) => Bit(s.done == Some(c))
    case _ => 0
  }

  /** Tokens issued for a bridge, less those spent on it. */
  function BridgeOwes(x: Bridge, k: Token): int {
    match k
    case Stop(_) => 1 - x.closes - Bit(x.overwritten)
    case Launch(_) => 1 - Bit(!x.launch.NotStarted?)
    case Hand(_) => Bit(x.won) - x.sends
    case Serve(_) => Bit(x.launch.Reserved?) - Bit(x.picked) - Bit(x.released)
    case _ => 0
  }

  function ChannelOwes(x: Channel, k: Token): int {
    match k
    case Settle(_) => 1 - |x.settled| - Bit(x.overwritten)
    case Visit(_) => 1 - x.resumes
    case _ => 0
  }

  /** What the threads must hold between them. */
  function Owed(s: State, k: Token): int {
    if k.Settle? || k.Visit? then
      (if k.c < |s.channels| then ChannelOwes(s.channels[k.c], k) else 0) - InSession(s, k)
    else
      (if k.b < |s.bridges| then BridgeOwes(s.bridges[k.b], k) else 0) - InSession(s, k)
  }

  ghost predicate Balanced(m: System, k: Token) { HeldBy(m.threads, k) == Owed(m.state, k) }

  ghost predicate Conserved(m: System) { forall k: Token :: !k.Attach? ==> Balanced(m, k) }

  // ----- Counting -----

  lemma {:induction false} HeldByUpdate(threads: seq<Thread>, i: nat, t: Thread, k: Token)
    requires i < |threads|
    ensures HeldBy(threads[i := t], k) == HeldBy(threads, k) - Holds(threads[i], k) + Holds(t, k)
    ensures HeldBy(threads, k) >= Holds(threads[i], k)
    decreases |threads|
  {
    hide Holds;
    var n := |threads| - 1;
    if i == n {
      assert threads[i := t][..n] == threads[..n];
    } else {
      assert threads[i := t][..n] == threads[..n][i := t];
      HeldByUpdate(threads[..n], i, t, k);
    }
  }

  lemma HeldByAppend(threads: seq<Thread>, t: Thread, k: Token)
    ensures HeldBy(threads + [t], k) == HeldBy(threads, k) + Holds(t, k)
  {
    hide Holds;
    assert (threads + [t])[..|threads|] == threads;
  }

  lemma {:induction false} SomeoneHolds(threads: seq<Thread>, k: Token) returns (i: nat)
    requires HeldBy(threads, k) > 0
    ensures i < |threads| && Holds(threads[i], k) > 0
  {
    var n := |threads| - 1;
    if Holds(threads[n], k) > 0 { return n; }
    i := SomeoneHolds(threads[..n], k);
  }

  lemma {:induction false} TwoHolders(threads: seq<Thread>, i: nat, j: nat, k: Token)
    requires i < j < |threads| && Holds(threads[i], k) > 0 && Holds(threads[j], k) > 0
    ensures HeldBy(threads, k) >= 2
    decreases |threads|
  {
    hide Holds;
    var n := |threads| - 1;
    if j < n {
      TwoHolders(threads[..n], i, j, k);
    } else {
      HeldByUpdate(threads[..n], i, threads[i], k);
    }
  }

  /** What a Go event does to the count of one token. */
  lemma GoCount(m: System, who: nat, choice: bool, k: Token)
    requires who < |m.threads|
    ensures var x := Act(m.state, m.threads[who], choice);
            HeldBy(Step(m, Go(who, choice)).threads, k)
            == HeldBy(m.threads, k) - Holds(m.threads[who], k) + Holds(x.thread, k) + Holds(x.child, k)
    ensures HeldBy(m.threads, k) >= Holds(m.threads[who], k)
  {
    hide Act;
    var x := Act(m.state, m.threads[who], choice);
    HeldByUpdate(m.threads, who, x.thread, k);
    HeldByAppend(m.threads[who := x.thread], x.child, k);
    if x.child.Finished? { assert m.threads[who := x.thread] + [] == m.threads[who := x.thread]; }
  }

  // ----- Accounts over one step -----

  /** What the accounts say about the objects a thread refers to. */
  ghost predicate Ready(s: State, t: Thread) {
    && (s.bridge.Some? ==> s.bridge.value < |s.bridges| && !s.bridges[s.bridge.value].overwritten)
    && (s.done.Some? ==> s.done.value < |s.channels| && !s.channels[s.done.value].overwritten)
    && match t
       case Attaching(b, _) => b < |s.bridges| && s.bridges[b].offered && (s.bridges[b].won ==> s.bridges[b].attached)
       case Handing(b, _) => b < |s.bridges| && s.bridges[b].slot.None?
       case Receiving(c) => c < |s.channels|
       case Rechecking(b, _, _) => b < |s.bridges|
       case Starting(b, _, _) =>
         b < |s.bridges| && s.bridges[b].launch.NotStarted? && !s.bridges[b].picked && !s.bridges[b].released
       case SlotWaiting(b) => b < |s.bridges| && !s.bridges[b].picked && !s.bridges[b].released
       case Sending(c, _) => c < |s.channels| && !s.channels[c].closed && s.channels[c].buffer.None?
       case ClosingDone(c, bridge) =>
         c < |s.channels| && !s.channels[c].closed && (bridge.Some? ==> bridge.value < |s.bridges|)
       case Stopping(b, _, _) =>
         b < |s.bridges| && s.bridges[b].closes == 0 && s.bridge != Some(b) && !s.bridges[b].overwritten
       case _ => true
  }

  /** A step leaves a token's account as it was. */
  ghost predicate Accounted(s: State, t: Thread, x: Effect, k: Token) {
    Owed(x.state, k) - Holds(x.thread, k) - Holds(x.child, k) == Owed(s, k) - Holds(t, k)
  }

  predicate OfBridge(k: Token, b: nat) { !k.Settle? && !k.Visit? && k.b == b }

  predicate OfChannel(k: Token, c: nat) { (k.Settle? || k.Visit?) && k.c == c }

  /** Only the session's own holdings change. */
  lemma OwedFrame(s: State, s': State, k: Token)
    requires s'.bridges == s.bridges && s'.channels == s.channels
    ensures Owed(s', k) + InSession(s', k) == Owed(s, k) + InSession(s, k)
  {
    hide BridgeOwes, ChannelOwes, InSession;
  }

  lemma OwedPutBridge(s: State, b: nat, x: Bridge, k: Token)
    requires b < |s.bridges|
    ensures Owed(PutBridge(s, b, x), k)
            == Owed(s, k) + if OfBridge(k, b) then BridgeOwes(x, k) - BridgeOwes(s.bridges[b], k) else 0
  {
    hide BridgeOwes, ChannelOwes;
  }

  lemma OwedPutChannel(s: State, c: nat, x: Channel, k: Token)
    requires c < |s.channels|
    ensures Owed(PutChannel(s, c, x), k)
            == Owed(s, k) + if OfChannel(k, c) then ChannelOwes(x, k) - ChannelOwes(s.channels[c], k) else 0
  {
    hide BridgeOwes, ChannelOwes;
  }

  lemma OwedNewChannel(s: State, s': State, k: Token)
    requires s'.bridges == s.bridges && s'.channels == s.channels + [NewChannel()]
    ensures Owed(s', k) + InSession(s', k)
            == Owed(s, k) + InSession(s, k) + if OfChannel(k, |s.channels|) then ChannelOwes(NewChannel(), k) else 0
  {
    hide BridgeOwes, ChannelOwes, InSession;
  }

  lemma OwedNewBridge(s: State, s': State, agent: bool, k: Token)
    requires s'.channels == s.channels && s'.bridges == s.bridges + [NewBridge(agent)]
    ensures Owed(s', k) + InSession(s', k)
            == Owed(s, k) + InSession(s, k) + if OfBridge(k, |s.bridges|) then BridgeOwes(NewBridge(agent), k) else 0
  {
    hide BridgeOwes, ChannelOwes, InSession;
  }

  /** A new channel takes over the session's field; what the old one owed is written off. */
  lemma VisitAccounted(s: State, k: Token)
    requires Ready(s, Visiting)
    ensures Accounted(s, Visiting, TransferStep(s, Visiting, false), k)
  {
    hide Owed, PutChannel, BridgeOwes;
    var left := s;
    if s.done.Some? {
      var x := s.channels[s.done.value];
      left := PutChannel(s, s.done.value, x.(overwritten := true));
      OwedPutChannel(s, s.done.value, x.(overwritten := true), k);
    }
    OwedNewChannel(left, TransferStep(s, Visiting, false).state, k);
  }

  lemma PublishAccounted(s: State, remote: Option<nat>, local: Option<nat>, k: Token)
    requires Ready(s, Publishing(remote, local))
    ensures var t := Publishing(remote, local); Accounted(s, t, ConnectStep(s, t, false), k)
  {
    hide Owed, PutBridge, ChannelOwes;
    var left := s;
    if s.bridge.Some? {
      var x := s.bridges[s.bridge.value];
      left := PutBridge(s, s.bridge.value, x.(overwritten := true));
      OwedPutBridge(s, s.bridge.value, x.(overwritten := true), k);
    }
    OwedNewBridge(left, ConnectStep(s, Publishing(remote, local), false).state, s.agent.Some?, k);
  }

  lemma ArriveAccounted(s: State, track: nat, k: Token)
    requires Ready(s, OnTrack(track)) && !k.Attach?
    ensures Accounted(s, OnTrack(track), TrackStep(s, OnTrack(track)), k)
  {
    hide Owed, PutBridge, ChannelOwes;
    var stored := s.(remote := Some(track));
    OwedFrame(s, stored, k);
    if s.bridge.Some? {
      var b := s.bridge.value;
      OwedPutBridge(stored, b, s.bridges[b].(offered := true), k);
    }
  }

  lemma TrackAccounted(s: State, t: Thread, k: Token)
    requires TrackThread(t) && Ready(s, t)
    requires !k.Attach?
    ensures Accounted(s, t, TrackStep(s, t), k)
  {
    hide Owed, PutBridge, InSession;
    if t.OnTrack? {
      ArriveAccounted(s, t.track, k);
    } else if t.Attaching? {
      OwedPutBridge(s, t.b, s.bridges[t.b].(attached := true, won := true), k);
    } else {
      var x := s.bridges[t.b];
      OwedPutBridge(s, t.b, x.(slot := Some(t.leg), sends := x.sends + 1), k);
    }
  }

  /** The step moves no token. */
  lemma Untouched(s: State, t: Thread, x: Effect, k: Token)
    requires x.state.bridges == s.bridges && x.state.channels == s.channels
    requires x.state.bridge == s.bridge && x.state.done == s.done
    requires Duties(x.thread) == Duties(t) && Duties(x.child) == {}
    ensures Accounted(s, t, x, k)
  {
    hide Duties;
    OwedFrame(s, x.state, k);
  }

  lemma NoDuties() ensures Duties(Finished) == {} {}

  function StopDuty(bridge: Option<nat>): set<Token> { if bridge.Some? then {Stop(bridge.value)} else {} }

  function SettleDuty(done: Option<nat>): set<Token> { if done.Some? then {Settle(done.value)} else {} }

  lemma StopThenDuties(bridge: Option<nat>, next: Then)
    ensures Duties(StopThen(bridge, next)) == StopDuty(bridge)
  {
  }

  /** Snapshot and nil: what the session held, the thread now has as its duty. */
  lemma Taken(s: State, t: Thread, x: Effect, k: Token)
    requires x.state.bridges == s.bridges && x.state.channels == s.channels
    requires x.state.bridge == s.bridge || x.state.bridge == None
    requires x.state.done == s.done || x.state.done == None
    requires Duties(t) == {} && x.child == Finished
    requires Duties(x.thread) == (if x.state.bridge == s.bridge then {} else StopDuty(s.bridge))
                                 + (if x.state.done == s.done then {} else SettleDuty(s.done))
    ensures Accounted(s, t, x, k)
  {
    hide Duties, Owed;
    OwedFrame(s, x.state, k);
    NoDuties();
  }

  lemma ReceiveAccounted(s: State, c: nat, k: Token)
    requires c < |s.channels|
    ensures Accounted(s, Receiving(c), TransferStep(s, Receiving(c), false), k)
  {
    hide Owed, PutChannel;
    var x := s.channels[c];
    OwedPutChannel(s, c, x.(buffer := None, resumes := x.resumes + 1), k);
    OwedPutChannel(s, c, x.(resumes := x.resumes + 1), k);
  }

  lemma TransferAccounted(s: State, t: Thread, choice: bool, k: Token)
    requires TransferThread(t)
    requires Ready(s, t)
    ensures Accounted(s, t, TransferStep(s, t, choice), k)
  {
    hide Accounted;
    var x := TransferStep(s, t, choice);
    if t.Visiting? {
      VisitAccounted(s, k);
    } else if t.Receiving? {
      ReceiveAccounted(s, t.c, k);
    } else if t.AgentTransfer? {
      StopThenDuties(s.bridge, ThenRegister);
      Taken(s, t, x, k);
    } else {
      Untouched(s, t, x, k);
    }
  }

  lemma StartAccounted(s: State, t: Thread, k: Token)
    requires t.Starting? && Ready(s, t)
    ensures Accounted(s, t, ConnectStep(s, t, false), k)
  {
    hide Owed, PutBridge;
    var x := s.bridges[t.b];
    OwedPutBridge(s, t.b, x.(attached := true, launch := Direct), k);
    OwedPutBridge(s, t.b, x.(launch := Reserved(t.local.Some?)), k);
  }

  lemma ConnectAccounted(s: State, t: Thread, choice: bool, k: Token)
    requires ConnectThread(t)
    requires Ready(s, t)
    ensures Accounted(s, t, ConnectStep(s, t, choice), k)
  {
    hide Accounted;
    if t.Publishing? {
      PublishAccounted(s, t.remote, t.local, k);
    } else if t.Starting? {
      StartAccounted(s, t, k);
    } else {
      Untouched(s, t, ConnectStep(s, t, choice), k);
    }
  }

  lemma EndAccounted(s: State, t: Thread, k: Token)
    requires EndThread(t)
    ensures Accounted(s, t, EndStep(s, t), k)
  {
    hide Accounted;
    StopThenDuties(s.bridge, ThenReport);
    Taken(s, t, EndStep(s, t), k);
  }

  lemma ReportAccounted(s: State, t: Thread, choice: bool, k: Token)
    requires ReportThread(t) && Ready(s, t)
    ensures Accounted(s, t, ReportStep(s, t, choice), k)
  {
    hide Owed, PutChannel;
    if t.Sending? {
      var x := s.channels[t.c];
      OwedPutChannel(s, t.c, x.(buffer := Some(t.outcome), settled := x.settled + [t.outcome]), k);
    } else {
      Taken(s, t, ReportStep(s, t, choice), k);
    }
  }

  lemma CloseAccounted(s: State, t: Thread, k: Token)
    requires t.ClosingDone? && Ready(s, t)
    ensures Accounted(s, t, CleanupStep(s, t), k)
  {
    hide Owed, PutChannel, InSession;
    var x := s.channels[t.c];
    StopThenDuties(t.bridge, Nothing);
    OwedPutChannel(s, t.c, x.(closed := true, settled := x.settled + [TransferCompleted]), k);
  }

  lemma CleanupAccounted(s: State, t: Thread, k: Token)
    requires CleanupThread(t) && Ready(s, t)
    ensures Accounted(s, t, CleanupStep(s, t), k)
  {
    if t.ClosingDone? {
      CloseAccounted(s, t, k);
    } else {
      hide Accounted;
      StopThenDuties(s.bridge, Nothing);
      Taken(s, t, CleanupStep(s, t), k);
    }
  }

  lemma HoldAccounted(s: State, t: Thread, choice: bool, k: Token)
    requires HoldThread(t)
    ensures Accounted(s, t, HoldStep(s, t, choice), k)
  {
    hide Accounted;
    StopThenDuties(s.bridge, if t.Holding? then ThenPlayHold else ThenDropAgent);
    Taken(s, t, HoldStep(s, t, choice), k);
  }

  lemma ServeAccounted(s: State, t: Thread, choice: bool, k: Token)
    requires t.SlotWaiting? && Ready(s, t)
    ensures Accounted(s, t, BridgeStep(s, t, choice), k)
  {
    hide Owed, PutBridge, InSession;
    var x := s.bridges[t.b];
    OwedPutBridge(s, t.b, x.(released := true), k);
    OwedPutBridge(s, t.b, x.(slot := None, picked := true), k);
  }

  lemma StopAccounted(s: State, t: Thread, choice: bool, k: Token)
    requires t.Stopping? && Ready(s, t)
    ensures Accounted(s, t, BridgeStep(s, t, choice), k)
  {
    hide Owed, PutBridge, InSession;
    var x := s.bridges[t.b];
    OwedPutBridge(s, t.b, x.(stopped := true), k);
    OwedPutBridge(s, t.b, x.(closes := x.closes + 1), k);
  }

  // ----- What a step does to one bridge -----

  predicate Current(s: State, b: nat) { s.bridge == Some(b) }

  /** The bridge is the session's, and was published while the session had an agent track. */
  predicate Attended(s: State, b: nat)
    requires b < |s.bridges|
  {
    s.incoming && Current(s, b) && s.bridges[b].agentAtBirth
  }

  /** A bridge on its own: the caller flag, the slot, the stop channel. */
  ghost predicate BridgeOk(x: Bridge) {
    && x.attached == (x.won || x.launch.Direct?)
    && x.sends == (if x.slot.Some? then 1 else 0) + (if x.picked then 1 else 0)
    && (x.won ==> x.offered)
    && (x.closes > 0 ==> x.stopped)
    && (x.released ==> x.closes > 0)
    && (x.stopped ==> !x.overwritten)
  }

  /** A bridge in its session. */
  ghost predicate PlaceOk(s: State, b: nat)
    requires b < |s.bridges|
  {
    var x := s.bridges[b];
    && (x.stopped ==> !Current(s, b))
    && (Attended(s, b) ==> s.agent.Some?)
    && (Attended(s, b) && x.launch == Reserved(true) && s.remote.Some? ==> x.offered)
  }

  /** A track was offered to the bridge and nobody has tested `attached` for it yet. */
  predicate Pending(x: Bridge) { x.offered && !x.attached && !x.stopped }

  /** What any step keeps of a bridge that exists. */
  ghost predicate BridgeKept(s: State, s': State, b: nat)
    requires b < |s.bridges|
  {
    && b < |s'.bridges|
    && (s.bridges[b].offered ==> s'.bridges[b].offered)
    && (s.bridges[b].stopped ==> s'.bridges[b].stopped)
    && (Attended(s', b) ==> Attended(s, b))
    && (Attended(s', b) && s.remote.None? && s'.remote.Some? ==> s'.bridges[b].offered)
  }

  ghost predicate BridgeStepOk(s: State, t: Thread, x: Effect, b: nat)
    requires b < |s.bridges|
  {
    && BridgeKept(s, x.state, b)
    && BridgeOk(x.state.bridges[b]) && PlaceOk(x.state, b)
    && (Pending(x.state.bridges[b]) ==>
          Attach(b) in Duties(x.thread) || (Pending(s.bridges[b]) && Attach(b) !in Duties(t)))
  }

  /** Steps that leave this bridge alone; they may take the session's bridge or set its agent track. */
  lemma BridgeFrame(s: State, t: Thread, x: Effect, b: nat)
    requires b < |s.bridges| && BridgeOk(s.bridges[b]) && PlaceOk(s, b)
    requires b < |x.state.bridges| && x.state.bridges[b] == s.bridges[b]
    requires x.state.incoming == s.incoming && (x.state.remote == s.remote || !Attended(s, b))
    requires Current(x.state, b) ==> Current(s, b)
    requires x.state.agent == s.agent || x.state.agent.Some? || !Current(x.state, b) || !s.incoming
    requires Pending(s.bridges[b]) ==> Attach(b) !in Duties(t)
    ensures BridgeStepOk(s, t, x, b)
  {
    hide BridgeOk, Duties;
  }

  /** Steps that change one bridge and nothing else of the session. */
  lemma BridgePut(s: State, t: Thread, x: Effect, b: nat, y: Bridge)
    requires b < |s.bridges| && BridgeOk(s.bridges[b]) && PlaceOk(s, b)
    requires x.state == PutBridge(s, b, y) && BridgeOk(y) && y.agentAtBirth == s.bridges[b].agentAtBirth
    requires (s.bridges[b].offered ==> y.offered) && (s.bridges[b].stopped ==> y.stopped)
    requires y.stopped ==> !Current(s, b)
    requires Attended(s, b) && y.launch == Reserved(true) && s.remote.Some? ==> y.offered
    requires Pending(y) ==> Pending(s.bridges[b]) && Attach(b) !in Duties(t)
    ensures BridgeStepOk(s, t, x, b)
  {
    hide BridgeOk, Duties;
  }

  lemma OtherBridge(s: State, t: Thread, x: Effect, b0: nat, y: Bridge, b: nat)
    requires b < |s.bridges| && BridgeOk(s.bridges[b]) && PlaceOk(s, b)
    requires x.state == PutBridge(s, b0, y) && b != b0
    requires Attach(b) !in Duties(t)
    ensures BridgeStepOk(s, t, x, b)
  {
    hide BridgeOk, Duties;
  }

  lemma BridgeOffered(s: State, t: Thread, x: Effect, b: nat)
    requires b < |s.bridges| && BridgeOk(s.bridges[b]) && PlaceOk(s, b)
    requires b < |x.state.bridges| && x.state.bridges[b] == s.bridges[b].(offered := true)
    requires x.state.incoming == s.incoming && x.state.bridge == s.bridge && x.state.agent == s.agent
    requires Attach(b) in Duties(x.thread)
    ensures BridgeStepOk(s, t, x, b)
  {
    hide Duties;
  }

  lemma ArriveBridge(s: State, track: nat, b: nat)
    requires Ready(s, OnTrack(track))
    requires b < |s.bridges| && BridgeOk(s.bridges[b]) && PlaceOk(s, b)
    ensures BridgeStepOk(s, OnTrack(track), TrackStep(s, OnTrack(track)), b)
  {
    hide BridgeStepOk, BridgeOk;
    var t := OnTrack(track);
    if s.incoming && s.agent.Some? && Current(s, b) {
      BridgeOffered(s, t, TrackStep(s, t), b);
    } else {
      BridgeFrame(s, t, TrackStep(s, t), b);
    }
  }

  lemma AttachBridge(s: State, t: Thread, b: nat)
    requires (t.Attaching? || t.Handing?) && Ready(s, t)
    requires b < |s.bridges| && BridgeOk(s.bridges[b]) && PlaceOk(s, b)
    requires BridgeOk(s.bridges[t.b])
    ensures BridgeStepOk(s, t, TrackStep(s, t), b)
  {
    hide BridgeStepOk, PutBridge;
    var x, y := TrackStep(s, t), s.bridges[t.b];
    if t.Attaching? && (y.stopped || y.attached) {
      BridgeFrame(s, t, x, b);
    } else {
      var z := if t.Attaching? then y.(attached := true, won := true) else y.(slot := Some(t.leg), sends := y.sends + 1);
      if b == t.b { BridgePut(s, t, x, b, z); } else { OtherBridge(s, t, x, t.b, z, b); }
    }
  }

  lemma RetiredOk(y: Bridge)
    requires BridgeOk(y) && !y.stopped
    ensures BridgeOk(y.(overwritten := true))
  {
  }

  lemma PublishBridge(s: State, t: Thread, choice: bool, b: nat)
    requires t.Publishing? && Ready(s, t)
    requires b < |s.bridges| && BridgeOk(s.bridges[b]) && PlaceOk(s, b)
    ensures BridgeStepOk(s, t, ConnectStep(s, t, choice), b)
  {
    hide BridgeOk;
    if Current(s, b) {
      RetiredOk(s.bridges[b]);
      assert ConnectStep(s, t, choice).state.bridges[b] == s.bridges[b].(overwritten := true);
    } else {
      hide PlaceOk, BridgeStepOk;
      BridgeFrame(s, t, ConnectStep(s, t, choice), b);
    }
  }

  lemma NewBridgeOk(agent: bool)
    ensures BridgeOk(NewBridge(agent)) && !Pending(NewBridge(agent))
  {
  }

  lemma NewPlaceOk(s: State, b: nat)
    requires b < |s.bridges| && s.bridges[b] == NewBridge(s.agent.Some?)
    ensures PlaceOk(s, b)
  {
  }

  /** The bridge a step adds, if any, begins in good order. */
  ghost predicate AddedOk(s: State, s': State) {
    || |s'.bridges| == |s.bridges|
    || (&& |s'.bridges| == |s.bridges| + 1
        && BridgeOk(s'.bridges[|s.bridges|]) && PlaceOk(s', |s.bridges|) && !Pending(s'.bridges[|s.bridges|]))
  }

  lemma PublishAdds(s: State, t: Thread)
    requires t.Publishing?
    ensures AddedOk(s, ConnectStep(s, t, false).state)
  {
    hide BridgeOk, PlaceOk, Pending, NewBridge, RetireBridge;
    var s' := ConnectStep(s, t, false).state;
    assert s'.bridges == RetireBridge(s).bridges + [NewBridge(s.agent.Some?)];
    assert s'.bridges[|s.bridges|] == NewBridge(s.agent.Some?);
    NewBridgeOk(s.agent.Some?);
    NewPlaceOk(s', |s.bridges|);
  }

  lemma StartBridge(s: State, t: Thread, choice: bool, b: nat)
    requires t.Starting? && Ready(s, t) && ThreadOk(s, t)
    requires b < |s.bridges| && BridgeOk(s.bridges[b]) && PlaceOk(s, b)
    ensures BridgeStepOk(s, t, ConnectStep(s, t, choice), b)
  {
    hide BridgeStepOk, PutBridge;
    var x, y := ConnectStep(s, t, choice), s.bridges[t.b];
    var z := if t.remote.Some? && t.local.Some? then y.(attached := true, launch := Direct) else y.(launch := Reserved(t.local.Some?));
    if b == t.b { BridgePut(s, t, x, b, z); } else { OtherBridge(s, t, x, t.b, z, b); }
  }

  lemma ServeBridge(s: State, t: Thread, choice: bool, b: nat)
    requires t.SlotWaiting? && Ready(s, t)
    requires b < |s.bridges| && BridgeOk(s.bridges[b]) && PlaceOk(s, b)
    ensures BridgeStepOk(s, t, BridgeStep(s, t, choice), b)
  {
    hide BridgeStepOk, PutBridge;
    var x, y := BridgeStep(s, t, choice), s.bridges[t.b];
    if y.closes == 0 && y.slot.None? {
      BridgeFrame(s, t, x, b);
    } else {
      var z := if y.closes > 0 && (choice || y.slot.None?) then y.(released := true) else y.(slot := None, picked := true);
      if b == t.b { BridgePut(s, t, x, b, z); } else { OtherBridge(s, t, x, t.b, z, b); }
    }
  }

  lemma StopBridge(s: State, t: Thread, choice: bool, b: nat)
    requires t.Stopping? && Ready(s, t) && ThreadOk(s, t)
    requires b < |s.bridges| && BridgeOk(s.bridges[b]) && PlaceOk(s, b)
    ensures BridgeStepOk(s, t, BridgeStep(s, t, choice), b)
  {
    hide BridgeStepOk, PutBridge;
    var x, y := BridgeStep(s, t, choice), s.bridges[t.b];
    if t.phase == TestStop {
      BridgeFrame(s, t, x, b);
    } else {
      var z := if t.phase == MarkStopped then y.(stopped := true) else y.(closes := y.closes + 1);
      if b == t.b { BridgePut(s, t, x, b, z); } else { OtherBridge(s, t, x, t.b, z, b); }
    }
  }

  ghost predicate BridgeInv(s: State, b: nat)
    requires b < |s.bridges|
  {
    BridgeOk(s.bridges[b]) && PlaceOk(s, b)
  }

  /** All steps: an existing bridge, and the added one. */
  lemma BridgeLaw(s: State, t: Thread, choice: bool, b: nat)
    requires Ready(s, t) && ThreadOk(s, t)
    requires b < |s.bridges| && BridgeInv(s, b)
    requires t.Attaching? || t.Handing? ==> BridgeOk(s.bridges[t.b])
    ensures BridgeStepOk(s, t, Act(s, t, choice), b)
  {
    hide LookStep, BridgeStepOk, BridgeOk, PlaceOk, Pending, TrackStep, TransferStep, ConnectStep, EndStep, ReportStep, CleanupStep, HoldStep, BridgeStep;
    if t.OnTrack? {
      ArriveBridge(s, t.track, b);
    } else if t.Attaching? || t.Handing? {
      AttachBridge(s, t, b);
    } else if t.Publishing? {
      PublishBridge(s, t, choice, b);
    } else if t.Starting? {
      StartBridge(s, t, choice, b);
    } else if t.SlotWaiting? {
      ServeBridge(s, t, choice, b);
    } else if t.Stopping? {
      StopBridge(s, t, choice, b);
    } else {
      OthersAloof(s, t, choice);
      BridgeFrame(s, t, Act(s, t, choice), b);
    }
  }

  /** The step touches no bridge. */
  ghost predicate Aloof(s: State, s': State) {
    && s'.bridges == s.bridges && s'.incoming == s.incoming && s'.remote == s.remote
    && (s'.bridge == s.bridge || s'.bridge == None)
    && (s'.agent == s.agent || s'.agent.Some? || s'.bridge == None || !s.incoming)
  }

  lemma TransferAloof(s: State, t: Thread, choice: bool)
    requires TransferThread(t)
    ensures Aloof(s, TransferStep(s, t, choice).state)
  {
    hide PutChannel, RetireChannel;
  }

  lemma ConnectAloof(s: State, t: Thread, choice: bool)
    requires t.Claiming? || t.Answering? || t.Completing? || t.Snapshotting? || t.Rechecking? || t.Resuming? || t.OutgoingBridge?
    ensures Aloof(s, ConnectStep(s, t, choice).state)
  {
  }

  lemma EndAloof(s: State, t: Thread)
    requires EndThread(t)
    ensures Aloof(s, EndStep(s, t).state)
  {
  }

  lemma ReportAloof(s: State, t: Thread, choice: bool)
    requires ReportThread(t)
    ensures Aloof(s, ReportStep(s, t, choice).state)
  {
    hide PutChannel;
  }

  lemma CleanupAloof(s: State, t: Thread)
    requires CleanupThread(t)
    ensures Aloof(s, CleanupStep(s, t).state)
  {
    hide PutChannel;
  }

  lemma HoldAloof(s: State, t: Thread, choice: bool)
    requires t.Holding? || t.PlayingHold? || t.OutgoingHangup? || (t.DroppingAgent? && !s.incoming)
    ensures Aloof(s, HoldStep(s, t, choice).state)
  {
  }

  /** Looking up changes nothing and takes on no duty. */
  lemma LookSame(s: State, t: Thread, choice: bool)
    requires LookThread(t)
    ensures var x := LookStep(s, t, choice);
            x.state == s && Duties(t) == {} && Duties(x.thread) == {} && Duties(x.child) == {} && NextOk(x)
  {
  }

  /** Only these threads touch bridges. */
  predicate Hands(t: Thread) {
    t.OnTrack? || t.Attaching? || t.Handing? || t.Publishing? || t.Starting? || t.SlotWaiting? || t.Stopping?
  }

  lemma OthersAloof(s: State, t: Thread, choice: bool)
    requires !Hands(t) && ThreadOk(s, t)
    ensures Aloof(s, Act(s, t, choice).state)
  {
    hide Aloof, LookStep, TransferStep, ConnectStep, EndStep, ReportStep, CleanupStep, HoldStep;
    if t.Finished? || t.Resumed? {
      SameAloof(s);
    } else if LookThread(t) {
      LookSame(s, t, choice);
      SameAloof(s);
    } else if TransferThread(t) {
      TransferAloof(s, t, choice);
    } else if EndThread(t) {
      EndAloof(s, t);
    } else if ReportThread(t) {
      ReportAloof(s, t, choice);
    } else if CleanupThread(t) {
      CleanupAloof(s, t);
    } else if HoldThread(t) {
      HoldAloof(s, t, choice);
    } else {
      ConnectAloof(s, t, choice);
    }
  }

  lemma SameAloof(s: State) ensures Aloof(s, s) {}

  // ----- What is known about one thread -----

  ghost predicate ThreadOk(s: State, t: Thread) {
    match t
    case Attaching(b, _) => b < |s.bridges| && s.bridges[b].offered
    case Starting(b, remote, local) =>
      b < |s.bridges| && (remote.None? && local.Some? && s.remote.Some? && Attended(s, b) ==> s.bridges[b].offered)
    case Stopping(b, phase, next) =>
      && b < |s.bridges|
      && (phase != MarkStopped ==> s.bridges[b].stopped)
      && (s.incoming ==> next != ThenDropAgent)
    case DroppingAgent => !s.incoming
    case Resumed(c, outcome) => c < |s.channels| && outcome in s.channels[c].settled
    case _ => true
  }

  /** What each step does to a thread's own knowledge. */
  ghost predicate NextOk(x: Effect) { ThreadOk(x.state, x.thread) && ThreadOk(x.state, x.child) }

  lemma TrackNext(s: State, t: Thread)
    requires TrackThread(t) && Ready(s, t)
    ensures NextOk(TrackStep(s, t))
  {
  }

  lemma ReceiveNext(s: State, c: nat, choice: bool)
    requires c < |s.channels| && ChannelOk(s.channels[c])
    ensures NextOk(TransferStep(s, Receiving(c), choice))
  {
  }

  lemma TransferNext(s: State, t: Thread, choice: bool)
    requires TransferThread(t) && Ready(s, t)
    requires t.Receiving? ==> ChannelOk(s.channels[t.c])
    ensures NextOk(TransferStep(s, t, choice))
  {
    hide PutChannel, RetireChannel, ChannelOk;
    if t.Receiving? {
      ReceiveNext(s, t.c, choice);
    }
  }

  lemma ConnectNext(s: State, t: Thread, choice: bool)
    requires ConnectThread(t) && Ready(s, t)
    ensures NextOk(ConnectStep(s, t, choice))
  {
  }

  lemma EndNext(s: State, t: Thread)
    requires EndThread(t) && Ready(s, t)
    ensures NextOk(EndStep(s, t))
  {
  }

  lemma CleanupNext(s: State, t: Thread)
    requires CleanupThread(t) && Ready(s, t)
    ensures NextOk(CleanupStep(s, t))
  {
  }

  lemma HoldNext(s: State, t: Thread, choice: bool)
    requires HoldThread(t) && Ready(s, t)
    ensures NextOk(HoldStep(s, t, choice))
  {
  }

  lemma BridgeNext(s: State, t: Thread, choice: bool)
    requires BridgeThread(t) && Ready(s, t) && ThreadOk(s, t)
    ensures NextOk(BridgeStep(s, t, choice))
  {
  }

  lemma NextLaw(s: State, t: Thread, choice: bool)
    requires Ready(s, t) && ThreadOk(s, t)
    requires t.Receiving? ==> ChannelOk(s.channels[t.c])
    ensures NextOk(Act(s, t, choice))
  {
    hide NextOk, LookStep, TrackStep, TransferStep, ConnectStep, EndStep, CleanupStep, HoldStep, BridgeStep;
    if LookThread(t) {
      LookSame(s, t, choice);
    } else if TrackThread(t) {
      TrackNext(s, t);
    } else if TransferThread(t) {
      TransferNext(s, t, choice);
    } else if ConnectThread(t) {
      ConnectNext(s, t, choice);
    } else if EndThread(t) {
      EndNext(s, t);
    } else if CleanupThread(t) {
      CleanupNext(s, t);
    } else if HoldThread(t) {
      HoldNext(s, t, choice);
    } else if BridgeThread(t) {
      BridgeNext(s, t, choice);
    } else {
      PlainNext(s, t, choice);
    }
  }

  lemma PlainNext(s: State, t: Thread, choice: bool)
    requires t.Finished? || t.Resumed? || ReportThread(t)
    requires ThreadOk(s, t)
    ensures NextOk(Act(s, t, choice))
  {
    hide LookStep, TrackStep, TransferStep, ConnectStep, EndStep, CleanupStep, HoldStep, BridgeStep, PutChannel;
  }

  // ----- Channels, history -----

  ghost predicate ChannelOk(x: Channel) {
    && (x.buffer.Some? ==> x.buffer.value in x.settled)
    && (x.closed ==> TransferCompleted in x.settled)
  }

  ghost predicate ChannelStepOk(s: State, s': State, c: nat)
    requires c < |s.channels|
  {
    && c < |s'.channels|
    && ChannelOk(s'.channels[c])
    && forall o :: o in s.channels[c].settled ==> o in s'.channels[c].settled
  }

  /** How the status and the log may change. */
  ghost predicate Chronicled(s: State, s': State) {
    && s'.panicked == s.panicked && s'.incoming == s.incoming
    && (|| (s'.log == s.log && (s'.status == Waiting ==> s.status == Waiting))
        || s'.log == s.log + [Entered]
        || (s.status == Waiting && s'.status != Waiting && s'.log == s.log + [Claimed])
        || (s.status == Waiting && s'.status != Waiting && s'.log == s.log + [Unanswered]))
  }

  lemma TrackHistory(s: State, t: Thread)
    requires TrackThread(t)
    ensures Chronicled(s, TrackStep(s, t).state) && TrackStep(s, t).state.channels == s.channels
  {
    hide PutBridge;
  }

  lemma WireHistory(s: State, t: Thread, choice: bool)
    requires t.Publishing? || t.Starting?
    ensures Chronicled(s, ConnectStep(s, t, choice).state) && ConnectStep(s, t, choice).state.channels == s.channels
  {
    hide PutBridge, RetireBridge, NewBridge, BridgeAt, Chronicled;
    SameHistory(s, ConnectStep(s, t, choice).state);
  }

  lemma ConnectHistory(s: State, t: Thread, choice: bool)
    requires ConnectThread(t)
    ensures Chronicled(s, ConnectStep(s, t, choice).state) && ConnectStep(s, t, choice).state.channels == s.channels
  {
    hide PutBridge, RetireBridge, NewBridge, BridgeAt;
    if t.Publishing? || t.Starting? {
      hide ConnectStep, Chronicled;
      WireHistory(s, t, choice);
    }
  }

  lemma EndHistory(s: State, t: Thread)
    requires EndThread(t)
    ensures Chronicled(s, EndStep(s, t).state) && EndStep(s, t).state.channels == s.channels
  {
  }

  lemma HoldHistory(s: State, t: Thread, choice: bool)
    requires HoldThread(t)
    ensures Chronicled(s, HoldStep(s, t, choice).state) && HoldStep(s, t, choice).state.channels == s.channels
  {
  }

  lemma SameHistory(s: State, s': State)
    requires s'.panicked == s.panicked && s'.incoming == s.incoming && s'.log == s.log && s'.status == s.status
    ensures Chronicled(s, s')
  {
  }

  lemma ServeHistory(s: State, t: Thread, choice: bool)
    requires t.SlotWaiting?
    ensures Chronicled(s, BridgeStep(s, t, choice).state) && BridgeStep(s, t, choice).state.channels == s.channels
  {
    hide PutBridge, BridgeAt, Chronicled;
    SameHistory(s, BridgeStep(s, t, choice).state);
  }

  lemma StopHistory(s: State, t: Thread, choice: bool)
    requires t.Stopping? && BridgeAt(s, t.b).closes == 0
    ensures Chronicled(s, BridgeStep(s, t, choice).state) && BridgeStep(s, t, choice).state.channels == s.channels
  {
    hide PutBridge, BridgeAt, Chronicled;
    SameHistory(s, BridgeStep(s, t, choice).state);
  }

  lemma TransferHistory(s: State, t: Thread, choice: bool)
    requires TransferThread(t)
    ensures Chronicled(s, TransferStep(s, t, choice).state)
  {
    hide PutChannel, RetireChannel, NewChannel;
  }

  lemma ReportHistory(s: State, t: Thread, choice: bool)
    requires ReportThread(t) && Ready(s, t)
    ensures Chronicled(s, ReportStep(s, t, choice).state)
  {
    hide PutChannel;
  }

  lemma CleanupHistory(s: State, t: Thread)
    requires CleanupThread(t) && Ready(s, t)
    ensures Chronicled(s, CleanupStep(s, t).state)
  {
    hide PutChannel;
  }

  lemma HistoryLaw(s: State, t: Thread, choice: bool)
    requires Ready(s, t)
    ensures Chronicled(s, Act(s, t, choice).state)
    ensures !(TransferThread(t) || ReportThread(t) || CleanupThread(t)) ==> Act(s, t, choice).state.channels == s.channels
  {
    hide LookStep, TrackStep, TransferStep, ConnectStep, EndStep, ReportStep, CleanupStep, HoldStep, BridgeStep;
    if LookThread(t) {
      LookSame(s, t, choice);
    } else if TrackThread(t) {
      TrackHistory(s, t);
    } else if TransferThread(t) {
      TransferHistory(s, t, choice);
    } else if ConnectThread(t) {
      ConnectHistory(s, t, choice);
    } else if EndThread(t) {
      EndHistory(s, t);
    } else if ReportThread(t) {
      ReportHistory(s, t, choice);
    } else if CleanupThread(t) {
      CleanupHistory(s, t);
    } else if HoldThread(t) {
      HoldHistory(s, t, choice);
    } else if t.SlotWaiting? {
      ServeHistory(s, t, choice);
    } else if t.Stopping? {
      StopHistory(s, t, choice);
    }
  }

  lemma ReceiveChannel(s: State, r: nat, choice: bool, c: nat)
    requires c < |s.channels| && ChannelOk(s.channels[c])
    ensures ChannelStepOk(s, TransferStep(s, Receiving(r), choice).state, c)
  {
  }

  lemma VisitChannel(s: State, choice: bool, c: nat)
    requires c < |s.channels| && ChannelOk(s.channels[c])
    ensures ChannelStepOk(s, TransferStep(s, Visiting, choice).state, c)
  {
  }

  lemma TransferChannel(s: State, t: Thread, choice: bool, c: nat)
    requires TransferThread(t)
    requires c < |s.channels| && ChannelOk(s.channels[c])
    ensures ChannelStepOk(s, TransferStep(s, t, choice).state, c)
  {
    hide PutChannel, RetireChannel, ChannelOk;
    if t.Receiving? {
      ReceiveChannel(s, t.c, choice, c);
    } else if t.Visiting? {
      VisitChannel(s, choice, c);
    }
  }

  lemma ReportChannel(s: State, t: Thread, choice: bool, c: nat)
    requires ReportThread(t) && Ready(s, t)
    requires c < |s.channels| && ChannelOk(s.channels[c])
    ensures ChannelStepOk(s, ReportStep(s, t, choice).state, c)
  {
  }

  lemma CleanupChannel(s: State, t: Thread, c: nat)
    requires CleanupThread(t) && Ready(s, t)
    requires c < |s.channels| && ChannelOk(s.channels[c])
    ensures ChannelStepOk(s, CleanupStep(s, t).state, c)
  {
  }

  lemma ChannelLaw(s: State, t: Thread, choice: bool, c: nat)
    requires Ready(s, t)
    requires c < |s.channels| && ChannelOk(s.channels[c])
    ensures ChannelStepOk(s, Act(s, t, choice).state, c)
  {
    hide LookStep, TrackStep, TransferStep, ConnectStep, EndStep, ReportStep, CleanupStep, HoldStep, BridgeStep, Ready;
    if TransferThread(t) {
      TransferChannel(s, t, choice, c);
    } else if ReportThread(t) {
      ReportChannel(s, t, choice, c);
    } else if CleanupThread(t) {
      CleanupChannel(s, t, c);
    } else {
      HistoryLaw(s, t, choice);
    }
  }

  // ----- The invariant -----

  lemma AccountLaw(s: State, t: Thread, choice: bool, k: Token)
    requires Ready(s, t) && !k.Attach?
    ensures Accounted(s, t, Act(s, t, choice), k)
  {
    hide LookStep, TrackStep, TransferStep, ConnectStep, EndStep, ReportStep, CleanupStep, HoldStep, BridgeStep, Ready, Accounted;
    if LookThread(t) {
      LookSame(s, t, choice);
      Untouched(s, t, Act(s, t, choice), k);
    } else if TrackThread(t) {
      TrackAccounted(s, t, k);
    } else if TransferThread(t) {
      TransferAccounted(s, t, choice, k);
    } else if ConnectThread(t) {
      ConnectAccounted(s, t, choice, k);
    } else if EndThread(t) {
      EndAccounted(s, t, k);
    } else if ReportThread(t) {
      ReportAccounted(s, t, choice, k);
    } else if CleanupThread(t) {
      CleanupAccounted(s, t, k);
    } else if HoldThread(t) {
      HoldAccounted(s, t, choice, k);
    } else if t.SlotWaiting? {
      ServeAccounted(s, t, choice, k);
    } else if t.Stopping? {
      StopAccounted(s, t, choice, k);
    } else {
      Untouched(s, t, Act(s, t, choice), k);
    }
  }

  lemma AddLaw(s: State, t: Thread, choice: bool)
    requires Ready(s, t) && ThreadOk(s, t)
    ensures AddedOk(s, Act(s, t, choice).state)
  {
    hide LookStep, TransferStep, EndStep, ReportStep, CleanupStep, HoldStep, Ready, NewBridge;
    if t.Publishing? {
      PublishAdds(s, t);
    } else if !Hands(t) {
      OthersAloof(s, t, choice);
    }
  }

  /** Every claim and every no-answer comes right after an entry to Waiting. */
  ghost predicate LogOk(s: State) {
    && (s.status == Waiting ==> s.log != [] && s.log[|s.log| - 1] == Entered)
    && forall i :: 0 <= i < |s.log| && s.log[i] != Entered ==> i > 0 && s.log[i - 1] == Entered
  }

  lemma LogKept(s: State, s': State)
    requires LogOk(s) && Chronicled(s, s')
    ensures LogOk(s')
  {
  }

  ghost predicate BridgesOk(m: System) {
    forall b :: 0 <= b < |m.state.bridges| ==> BridgeInv(m.state, b) && (Pending(m.state.bridges[b]) ==> HeldBy(m.threads, Attach(b)) > 0)
  }

  ghost predicate ChannelsOk(s: State) { forall c :: 0 <= c < |s.channels| ==> ChannelOk(s.channels[c]) }

  ghost predicate ThreadsOk(m: System) { forall i :: 0 <= i < |m.threads| ==> ThreadOk(m.state, m.threads[i]) }

  ghost predicate Inv(m: System) {
    Conserved(m) && BridgesOk(m) && ChannelsOk(m.state) && ThreadsOk(m) && !m.state.panicked && LogOk(m.state)
  }

  lemma ReadyFromInv(m: System, i: nat)
    requires i < |m.threads| && Inv(m)
    ensures Ready(m.state, m.threads[i])
  {
    var s, t := m.state, m.threads[i];
    forall k: Token | !k.Attach? ensures Holds(t, k) <= Owed(s, k) {
      HeldByUpdate(m.threads, i, t, k);
      assert Balanced(m, k);
    }
    CurrentReady(s, t);
    OwnReady(m, i);
  }

  ghost predicate Fits(s: State, t: Thread) { forall k: Token :: !k.Attach? ==> Holds(t, k) <= Owed(s, k) }

  lemma CurrentReady(s: State, t: Thread)
    requires Fits(s, t)
    ensures s.bridge.Some? ==> s.bridge.value < |s.bridges| && !s.bridges[s.bridge.value].overwritten
    ensures s.done.Some? ==> s.done.value < |s.channels| && !s.channels[s.done.value].overwritten
  {
    if s.bridge.Some? { assert Holds(t, Stop(s.bridge.value)) >= 0; }
    if s.done.Some? { assert Holds(t, Settle(s.done.value)) >= 0; }
  }

  lemma OwnReady(m: System, i: nat)
    requires i < |m.threads| && Inv(m) && Fits(m.state, m.threads[i])
    requires var s := m.state; s.bridge.Some? ==> s.bridge.value < |s.bridges| && !s.bridges[s.bridge.value].overwritten
    requires var s := m.state; s.done.Some? ==> s.done.value < |s.channels| && !s.channels[s.done.value].overwritten
    ensures Ready(m.state, m.threads[i])
  {
    var s, t := m.state, m.threads[i];
    if t.Handing? { assert Holds(t, Hand(t.b)) == 1; }
    else if t.Receiving? { assert Holds(t, Visit(t.c)) == 1; }
    else if t.Rechecking? { assert Holds(t, Launch(t.b)) == 1; }
    else if t.Starting? { assert Holds(t, Launch(t.b)) == 1; assert Holds(t, Serve(t.b)) == 0; }
    else if t.SlotWaiting? { assert Holds(t, Serve(t.b)) == 1; }
    else if t.Sending? { assert Holds(t, Settle(t.c)) == 1; }
    else if t.ClosingDone? {
      assert Holds(t, Settle(t.c)) == 1;
      if t.bridge.Some? { assert Holds(t, Stop(t.bridge.value)) == 1; }
    }
    else if t.Stopping? { assert Holds(t, Stop(t.b)) == 1; }
  }

  lemma GoConserved(m: System, who: nat, choice: bool)
    requires who < |m.threads| && Conserved(m) && Ready(m.state, m.threads[who])
    ensures Conserved(Step(m, Go(who, choice)))
  {
    hide Act, Holds, Owed, Ready;
    var m', x := Step(m, Go(who, choice)), Act(m.state, m.threads[who], choice);
    forall k: Token | !k.Attach? ensures Balanced(m', k) {
      assert Balanced(m, k);
      AccountLaw(m.state, m.threads[who], choice, k);
      GoCount(m, who, choice, k);
    }
  }

  lemma GoBridges(m: System, who: nat, choice: bool)
    requires who < |m.threads| && BridgesOk(m) && Ready(m.state, m.threads[who]) && ThreadOk(m.state, m.threads[who])
    ensures BridgesOk(Step(m, Go(who, choice)))
    ensures forall b :: 0 <= b < |m.state.bridges| ==> BridgeKept(m.state, Act(m.state, m.threads[who], choice).state, b)
  {
    hide Act, Ready, BridgeOk, PlaceOk, BridgeKept, Pending, Duties;
    var s, t := m.state, m.threads[who];
    var m', x := Step(m, Go(who, choice)), Act(s, t, choice);
    AddLaw(s, t, choice);
    AttachSubject(s, t);
    forall b | 0 <= b < |s.bridges|
      ensures BridgeKept(s, x.state, b) && BridgeInv(x.state, b)
      ensures Pending(x.state.bridges[b]) ==> HeldBy(m'.threads, Attach(b)) > 0
    {
      assert BridgeInv(s, b);
      if t.Attaching? || t.Handing? { assert BridgeInv(s, t.b); }
      BridgeLaw(s, t, choice, b);
      GoCount(m, who, choice, Attach(b));
    }
  }

  lemma AttachSubject(s: State, t: Thread)
    requires Ready(s, t)
    ensures t.Attaching? || t.Handing? ==> t.b < |s.bridges|
  {
  }

  lemma VisitAdds(s: State, t: Thread, choice: bool)
    requires TransferThread(t)
    ensures var s' := TransferStep(s, t, choice).state;
            || |s'.channels| == |s.channels|
            || (|s'.channels| == |s.channels| + 1 && s'.channels[|s.channels|] == NewChannel())
  {
    hide PutChannel, RetireChannel, NewChannel;
  }

  lemma GrownChannels(s: State, t: Thread, choice: bool)
    requires Ready(s, t)
    ensures var s' := Act(s, t, choice).state;
            || |s'.channels| == |s.channels|
            || (|s'.channels| == |s.channels| + 1 && s'.channels[|s.channels|] == NewChannel())
  {
    hide LookStep, TransferStep, PutChannel, TrackStep, ConnectStep, EndStep, HoldStep, BridgeStep, NewChannel;
    if TransferThread(t) {
      VisitAdds(s, t, choice);
    } else if !ReportThread(t) && !CleanupThread(t) {
      HistoryLaw(s, t, choice);
    }
  }

  lemma GoChannels(m: System, who: nat, choice: bool)
    requires who < |m.threads| && ChannelsOk(m.state) && Ready(m.state, m.threads[who])
    ensures ChannelsOk(Step(m, Go(who, choice)).state)
    ensures forall c :: 0 <= c < |m.state.channels| ==> ChannelStepOk(m.state, Act(m.state, m.threads[who], choice).state, c)
  {
    hide Act, Ready;
    var s, t := m.state, m.threads[who];
    GrownChannels(s, t, choice);
    var s' := Act(s, t, choice).state;
    forall c | 0 <= c < |s.channels| ensures ChannelStepOk(s, s', c) {
      ChannelLaw(s, t, choice, c);
    }
    forall c | 0 <= c < |s'.channels| ensures ChannelOk(s'.channels[c]) {
      assert c < |s.channels| ==> ChannelStepOk(s, s', c);
    }
  }

  lemma ThreadKept(s: State, s': State, t: Thread)
    requires ThreadOk(s, t) && s'.incoming == s.incoming
    requires forall b :: 0 <= b < |s.bridges| ==> BridgeKept(s, s', b)
    requires forall c :: 0 <= c < |s.channels| ==> ChannelStepOk(s, s', c)
    ensures ThreadOk(s', t)
  {
    if t.Attaching? || t.Starting? || t.Stopping? {
      assert BridgeKept(s, s', t.b);
    } else if t.Resumed? {
      assert ChannelStepOk(s, s', t.c);
    }
  }

  lemma GoThreads(m: System, who: nat, choice: bool)
    requires who < |m.threads| && ThreadsOk(m) && ChannelsOk(m.state) && BridgesOk(m) && Ready(m.state, m.threads[who])
    ensures ThreadsOk(Step(m, Go(who, choice)))
  {
    hide Act, Ready, ThreadOk, BridgesOk, BridgeKept, ChannelStepOk, ChannelOk;
    var s, t := m.state, m.threads[who];
    var x := Act(s, t, choice);
    assert ThreadOk(s, t);
    GoBridges(m, who, choice);
    GoChannels(m, who, choice);
    ReceiveSubject(s, t);
    NextLaw(s, t, choice);
    HistoryLaw(s, t, choice);
    forall i | 0 <= i < |m.threads| ensures ThreadOk(x.state, m.threads[i]) {
      ThreadKept(s, x.state, m.threads[i]);
    }
  }

  lemma ReceiveSubject(s: State, t: Thread)
    requires Ready(s, t)
    ensures t.Receiving? ==> t.c < |s.channels|
  {
  }

  lemma GoInv(m: System, who: nat, choice: bool)
    requires who < |m.threads| && Inv(m)
    ensures Inv(Step(m, Go(who, choice)))
  {
    hide Act, Ready, ThreadOk, BridgesOk, ChannelsOk, Conserved, LogOk;
    ReadyFromInv(m, who);
    GoConserved(m, who, choice);
    GoBridges(m, who, choice);
    GoChannels(m, who, choice);
    GoThreads(m, who, choice);
    HistoryLaw(m.state, m.threads[who], choice);
    LogKept(m.state, Act(m.state, m.threads[who], choice).state);
  }

  lemma SpawnInv(m: System, t: Thread)
    requires Inv(m) && IsEntry(t)
    ensures Inv(Step(m, Spawn(t)))
  {
    var m' := Step(m, Spawn(t));
    forall k: Token ensures HeldBy(m'.threads, k) == HeldBy(m.threads, k) {
      HeldByAppend(m.threads, t, k);
    }
    hide BridgeInv, Pending, ChannelOk, LogOk;
    forall k: Token | !k.Attach? ensures Balanced(m', k) { assert Balanced(m, k); }
  }

  /** The invariant holds in every state of every run. */
  lemma {:induction false} RunInv(incoming: bool, events: seq<Event>)
    ensures Inv(Run(Initial(incoming), events))
  {
    if events == [] {
      InitialInv(incoming);
    } else {
      hide Inv, Act;
      var n := |events| - 1;
      RunInv(incoming, events[..n]);
      var m := Run(Initial(incoming), events[..n]);
      match events[n]
      case Spawn(t) => if IsEntry(t) { SpawnInv(m, t); }
      case Go(who, choice) => if who < |m.threads| { GoInv(m, who, choice); }
    }
  }

  lemma InitialInv(incoming: bool)
    ensures Inv(Initial(incoming))
  {
    var m := Initial(incoming);
    forall k: Token | !k.Attach? ensures Balanced(m, k) { }
  }
}
