/**
 The chatbot graph interpreter (internal/handlers/chatbot_graph_runner.go): one inbound
 message runs a chain of nodes until a node yields, the flow ends or 100 nodes have run.

 What node configuration, templates, regular expressions, HTTP calls, the clock and the
 database say is supplied by `Answers`, one record per executed node; every theorem is for
 all answers. Sessions are loaded from and saved to the database around each inbound.
 */
module GraphRunner {
  import opened Wrappers
  import opened FlowGraph
  import opened FlowMigration

  type FlowId = nat

  type ChatGraph = GraphData<NodeKind>

  /** `graph` is None when the flow has no graph at all. */
  datatype Flow = Flow(enabled: bool, account: string, graph: Option<ChatGraph>)

  type Flows = map<FlowId, Flow>

  // ----- Session -----

  datatype Entry = Visit(node: string, kind: NodeKind, outcome: string) | JumpTo(flow: FlowId)

  datatype Value = Scalar(s: string) | Trail(entries: seq<Entry>)

  datatype Session = Session(
    flow: FlowId,
    step: string,
    completed: bool,
    retries: int,
    account: string,
    data: map<string, Value>)

  const PATH := "__path__"
  const MAX_ITERATIONS := 100

  function Path(data: map<string, Value>): seq<Entry> {
    if PATH in data && data[PATH].Trail? then data[PATH].entries else []
  }

  function AppendPath(s: Session, e: Entry): Session { s.(data := s.data[PATH := Trail(Path(s.data) + [e])]) }

  function Store(s: Session, writes: map<string, string>): Session {
    s.(data := s.data + map k | k in writes :: Scalar(writes[k]))
  }

  /** API calls and webhooks renew the caller's number first. */
  function Renew(s: Session, i: Input): Session { s.(data := s.data["phone_number" := Scalar(i.phone)]) }

  /** The reply goes under the configured name, if there is one. */
  function StoreReply(s: Session, name: string, value: string): Session {
    if name == "" then s else s.(data := s.data[name := Scalar(value)])
  }

  // ----- One node -----

  /** The inbound message and its sender; `uses` counts the blocking nodes that took it as their answer. */
  datatype Input = Input(phone: string, text: string, button: string, hasForm: bool, consumed: bool, uses: nat)

  datatype Answers = Answers(
    skip: bool,               // the node has a skip_condition and it evaluated to true
    hasText: bool,            // message, end: there is something to send
    hasBody: bool,            // prompt
    hasButtons: bool,         // buttons
    hasFlowId: bool,          // whatsapp_flow
    sendFails: bool,
    writes: map<string, string>,
    storeAs: string,          // prompt, buttons: the variable that keeps the reply, or ""
    rejected: bool,           // prompt: a valid regular expression did not match
    maxRetries: int,
    http2xx: bool,
    holds: bool,              // condition
    inHours: bool,            // timing
    target: Option<FlowId>,   // goto_flow: None when flow_id is missing or malformed
    saveFails: bool)

  datatype Result = Failed | Yield | Advance(outcome: string)

  datatype Exec = Exec(s: Session, i: Input, r: Result)

  function Consume(i: Input): Input { i.(consumed := true, uses := i.uses + 1) }

  function Sent(s: Session, i: Input, a: Answers, r: Result): Exec { Exec(s, i, if a.sendFails then Failed else r) }

  function GotoTarget(flows: Flows, s: Session, a: Answers): Option<FlowId> {
    match a.target
    case None => None
    case Some(id) =>
      if id in flows && flows[id].enabled && flows[id].account == s.account && flows[id].graph.Some? then Some(id)
      else None
  }

  /** executeChatNode */
  function Execute(flows: Flows, kind: NodeKind, s: Session, i: Input, a: Answers): Exec {
    match kind
    case StartNode => Exec(s, i, Advance(DEFAULT))
    case MessageNode => if a.hasText then Sent(s, i, a, Advance(DEFAULT)) else Exec(s, i, Advance(DEFAULT))
    case ButtonsNode =>
      if !i.consumed && i.button != "" then
        Exec(StoreReply(s, a.storeAs, if i.text != "" then i.text else i.button), Consume(i), Advance("button:" + i.button))
      else if !a.hasButtons then Exec(s, i, Failed)
      else Sent(s, i, a, Yield)
    case PromptNode =>
      if !i.consumed && i.text == "" then
        if a.hasBody then Sent(s, i, a, Yield) else Exec(s, i, Failed)
      else if i.consumed then Exec(s, i, Yield)
      else if a.rejected then RejectInput(s, Consume(i), a)
      else Exec(StoreReply(s, a.storeAs, i.text).(retries := 0), Consume(i), Advance(DEFAULT))
    case ApiCallNode =>
      if a.http2xx then Exec(Store(Renew(s, i), a.writes), i, Advance("http:2xx"))
      else Exec(Renew(s, i), i, Advance("http:non2xx"))
    case ConditionNode => Exec(s, i, Advance(if a.holds then "true" else "false"))
    case TimingNode => Exec(s, i, Advance(if a.inHours then "in_hours" else "out_of_hours"))
    case SetVariableNode => Exec(Store(s, a.writes), i, Advance(DEFAULT))
    case AIResponseNode => if a.hasText then Sent(s, i, a, Advance(DEFAULT)) else Exec(s, i, Advance(DEFAULT))
    case TransferNode => Exec(s.(completed := true), i, Yield)
    case WebhookNode => Exec(Renew(s, i), i, Advance(DEFAULT))
    case GotoFlowNode =>
      (match GotoTarget(flows, s, a)
       case None => Exec(s, i, Advance(""))
       case Some(id) => Exec(AppendPath(s, JumpTo(id)).(flow := id), i, Advance("goto")))
    case WhatsAppFlowNode =>
      if !i.consumed && i.hasForm then Exec(Store(s, a.writes), Consume(i), Advance(DEFAULT))
      else if !a.hasFlowId then Exec(s, i, Advance(DEFAULT))
      else Sent(s, i, a, Yield)
    case EndNode => if a.hasText then Sent(s, i, a, Advance("")) else Exec(s, i, Advance(""))
    case UnknownNode(_) => Exec(s, i, Failed)
  }

  /** handleChatPromptInvalid */
  function RejectInput(s: Session, i: Input, a: Answers): Exec {
    if s.retries + 1 >= a.maxRetries then Exec(s.(retries := 0), i, Advance("max_retries"))
    else Sent(s.(retries := s.retries + 1), i, a, Yield)
  }

  // ----- One inbound -----

  datatype Halt = Running | Done | NodeMissing | NodeFailed | TargetUnparsable | Runaway | FlowUnparsable

  /**
   `flow` and `graph` are the interpreter's own view, `s` the session in memory, `saved` the
   session row in the database.
   */
  datatype Machine = Machine(s: Session, i: Input, flow: FlowId, graph: ChatGraph, saved: Session, halt: Halt, ran: nat)

  function Save(m: Machine, a: Answers, halt: Halt): Machine {
    m.(saved := if a.saveFails then m.saved else m.s, halt := halt)
  }

  /** Follow an edge out of the current node, or complete the session if there is none. */
  function Move(m: Machine, a: Answers, outcome: string): Machine {
    var next := Resolve(m.graph.edges, m.s.step, outcome);
    if next == "" then Save(m.(s := m.s.(completed := true)), a, Done) else m.(s := m.s.(step := next))
  }

  /** The body of the loop in runChatGraph. */
  function OneNode(flows: Flows, m: Machine, a: Answers): Machine {
    match FindNode(m.graph.nodes, m.s.step)
    case None => m.(halt := NodeMissing)
    case Some(node) =>
      if a.skip then
        Move(m.(s := AppendPath(m.s, Visit(node.id, node.kind, "skipped"))), a, DEFAULT)
      else
        var x := Execute(flows, node.kind, m.s, m.i, a);
        var m' := m.(s := x.s, i := x.i, ran := m.ran + 1);
        match x.r
        case Failed => Save(m', a, NodeFailed)
        case Yield => Save(m'.(s := AppendPath(x.s, Visit(node.id, node.kind, ""))), a, Done)
        case Advance(outcome) => Advanced(flows, m'.(s := AppendPath(x.s, Visit(node.id, node.kind, outcome))), a, outcome)
  }

  function Advanced(flows: Flows, m: Machine, a: Answers, outcome: string): Machine {
    if m.s.flow == m.flow then Move(m, a, outcome)
    else if m.s.flow in flows && flows[m.s.flow].graph.Some? && ParserAccepts(flows[m.s.flow].graph.value) then
      var g := flows[m.s.flow].graph.value;
      m.(flow := m.s.flow, graph := g, s := m.s.(step := g.entry))
    else Save(m, a, TargetUnparsable)
  }

  function Loop(flows: Flows, m: Machine, world: nat -> Answers, k: nat): Machine
    requires k <= MAX_ITERATIONS
    decreases MAX_ITERATIONS - k
  {
    if m.halt != Running then m
    else if k == MAX_ITERATIONS then Save(m, world(k), Runaway)
    else Loop(flows, OneNode(flows, m, world(k)), world, k + 1)
  }

  /** One inbound message; the caller's number and contact seed template variables. */
  datatype Message = Message(
    text: string, button: string, hasForm: bool, phone: string, contactName: Option<string>, world: nat -> Answers)

  function Seeds(msg: Message): map<string, Value> {
    map["phone_number" := Scalar(msg.phone)]
    + if msg.contactName.Some? then map["contact_name" := Scalar(msg.contactName.value)] else map[]
  }

  /** What runChatGraph starts with: `saved` is the session row as loaded for this inbound. */
  function Begin(flows: Flows, saved: Session, msg: Message): Machine
    requires saved.flow in flows && flows[saved.flow].graph.Some?
  {
    var g := flows[saved.flow].graph.value;
    var first := saved.step == "";
    var s := saved.(data := saved.data + Seeds(msg), step := if first then g.entry else saved.step);
    var i := Input(msg.phone, if first then "" else msg.text, if first then "" else msg.button, msg.hasForm, false, 0);
    if ParserAccepts(g) then Machine(s, i, saved.flow, g, saved, Running, 0)
    else Machine(saved, i, saved.flow, g, saved, FlowUnparsable, 0)
  }

  function Inbound(flows: Flows, saved: Session, msg: Message): Machine
    requires saved.flow in flows && flows[saved.flow].graph.Some?
  {
    Loop(flows, Begin(flows, saved, msg), msg.world, 0)
  }

  // ----- Replaying the recorded trail -----

  function Parsed(flows: Flows, f: FlowId): Option<ChatGraph> {
    if f in flows && flows[f].graph.Some? && ParserAccepts(flows[f].graph.value) then flows[f].graph else None
  }

  function EntryOf(flows: Flows, f: FlowId): string {
    match Parsed(flows, f) case Some(g) => g.entry case None => ""
  }

  /** Where a session stands; `running` is the flow whose graph is being followed. */
  datatype Place = Place(flow: FlowId, step: string, running: FlowId)

  function Follow(flows: Flows, p: Place, outcome: string): Place {
    match Parsed(flows, p.running)
    case None => p
    case Some(g) =>
      var next := Resolve(g.edges, p.step, outcome);
      if next == "" then p else p.(step := next)
  }

  predicate Yielded(kind: NodeKind, outcome: string) {
    outcome == "" && (kind == ButtonsNode || kind == PromptNode || kind == WhatsAppFlowNode || kind == TransferNode)
  }

  function ReplayEntry(flows: Flows, p: Place, e: Entry): Place {
    match e
    case JumpTo(f) => p.(flow := f)
    case Visit(_, kind, outcome) =>
      if outcome == "skipped" then Follow(flows, p, DEFAULT)
      else if Yielded(kind, outcome) then p
      else if p.flow == p.running then Follow(flows, p, outcome)
      else match Parsed(flows, p.flow)
           case Some(g) => Place(p.flow, g.entry, p.flow)
           case None => p.(running := p.flow)
  }

  /** Start at the entry node of flow `start` and follow the trail. */
  function Replay(flows: Flows, start: FlowId, path: seq<Entry>): Place {
    if path == [] then Place(start, EntryOf(flows, start), start)
    else ReplayEntry(flows, Replay(flows, start, path[..|path| - 1]), path[|path| - 1])
  }

  lemma ReplaySnoc(flows: Flows, start: FlowId, path: seq<Entry>, e: Entry)
    ensures Replay(flows, start, path + [e]) == ReplayEntry(flows, Replay(flows, start, path), e)
  {
    assert (path + [e])[..|path|] == path;
  }

  /** Node configurations and form fields that leave the reserved key alone. */
  predicate KeepsTrail(a: Answers) { PATH !in a.writes && a.storeAs != PATH }

  lemma ExecuteEffects(flows: Flows, kind: NodeKind, s: Session, i: Input, a: Answers)
    requires KeepsTrail(a)
    ensures var x := Execute(flows, kind, s, i, a);
            && x.s.step == s.step && x.s.account == s.account
            && ((x.s.flow == s.flow && Path(x.s.data) == Path(s.data))
                || (x.r.Advance? && kind == GotoFlowNode && Path(x.s.data) == Path(s.data) + [JumpTo(x.s.flow)]))
            && (x.r.Yield? ==> Yielded(kind, ""))
            && (x.r.Advance? ==> x.r.outcome != "skipped" && !Yielded(kind, x.r.outcome))
  {
    assert ("button:" + i.button)[0] == 'b' && "skipped"[0] == 's' && PATH[0] == '_' && "phone_number"[0] == 'p';
  }

  /** Something the executor of such a node reports, or a skip, or a yield. */
  ghost predicate Reportable(kind: NodeKind, outcome: string) {
    outcome == "skipped" || Yielded(kind, outcome) || exists o :: CanReport(kind, o) && OutcomeName(o) == outcome
  }

  /** The executors report what the compiler counts on. */
  lemma ReportsAreKnown(flows: Flows, kind: NodeKind, s: Session, i: Input, a: Answers)
    ensures var x := Execute(flows, kind, s, i, a); x.r.Advance? ==> Reportable(kind, x.r.outcome)
  {
    match kind
    case PromptNode =>
      assert CanReport(kind, Plain) && CanReport(kind, MaxRetries) && OutcomeName(Plain) == DEFAULT && OutcomeName(MaxRetries) == "max_retries";
    case ApiCallNode => assert CanReport(kind, Http2xx) && CanReport(kind, HttpNon2xx);
    case ButtonsNode =>
      if i.button != "" { assert CanReport(kind, ButtonPress(i.button)) && OutcomeName(ButtonPress(i.button)) == "button:" + i.button; }
    case ConditionNode => assert CanReport(kind, Branch(a.holds)) && OutcomeName(Branch(a.holds)) == if a.holds then "true" else "false";
    case TimingNode => assert CanReport(kind, Hours(a.inHours)) && OutcomeName(Hours(a.inHours)) == if a.inHours then "in_hours" else "out_of_hours";
    case GotoFlowNode => assert CanReport(kind, Jump) && CanReport(kind, Nothing) && OutcomeName(Jump) == "goto" && OutcomeName(Nothing) == "";
    case EndNode => assert CanReport(kind, Nothing) && OutcomeName(Nothing) == "";
    case TransferNode =>
    case UnknownNode(_) =>
    case _ => assert CanReport(kind, Plain) && OutcomeName(Plain) == DEFAULT;
  }

  /** A visit names the node replay stands at, with that node's kind and an outcome of that kind. */
  ghost predicate HonestEntry(flows: Flows, p: Place, e: Entry) {
    e.Visit? ==>
      && e.node == p.step
      && Parsed(flows, p.running).Some?
      && FindNode(Parsed(flows, p.running).value.nodes, e.node).Some?
      && FindNode(Parsed(flows, p.running).value.nodes, e.node).value.kind == e.kind
      && Reportable(e.kind, e.outcome)
  }

  ghost predicate HonestTrail(flows: Flows, start: FlowId, path: seq<Entry>) {
    || path == []
    || (&& HonestTrail(flows, start, path[..|path| - 1])
        && HonestEntry(flows, Replay(flows, start, path[..|path| - 1]), path[|path| - 1]))
  }

  lemma HonestSnoc(flows: Flows, start: FlowId, path: seq<Entry>, e: Entry)
    ensures HonestTrail(flows, start, path + [e])
            <==> HonestTrail(flows, start, path) && HonestEntry(flows, Replay(flows, start, path), e)
  {
    assert (path + [e])[..|path|] == path;
  }

  ghost predicate Replays(flows: Flows, start: FlowId, s: Session, running: FlowId) {
    Replay(flows, start, Path(s.data)) == Place(s.flow, s.step, running)
  }

  ghost predicate Tracks(flows: Flows, start: FlowId, s: Session, running: FlowId) {
    Replays(flows, start, s, running) && HonestTrail(flows, start, Path(s.data))
  }

  /** The database row agrees with its own trail, and the trail is honest. */
  ghost predicate RowTracks(flows: Flows, start: FlowId, row: Session) {
    && Replay(flows, start, Path(row.data))
      == Place(row.flow, if row.step == "" then EntryOf(flows, row.flow) else row.step, row.flow)
    && HonestTrail(flows, start, Path(row.data))
  }

  ghost predicate Good(flows: Flows, start: FlowId, m: Machine) {
    && RowTracks(flows, start, m.saved)
    && (m.halt == Running ==>
          && m.s.flow == m.flow && Parsed(flows, m.flow) == Some(m.graph)
          && m.s.step != "" && Tracks(flows, start, m.s, m.flow))
  }

  lemma MoveTracks(flows: Flows, start: FlowId, before: Session, m: Machine, a: Answers, e: Entry, outcome: string)
    requires RowTracks(flows, start, m.saved) && m.halt == Running
    requires before.step != "" && before.flow == m.flow && Parsed(flows, m.flow) == Some(m.graph)
    requires Tracks(flows, start, before, m.flow)
    requires m.s.flow == before.flow && m.s.step == before.step && Path(m.s.data) == Path(before.data) + [e]
    requires ReplayEntry(flows, Place(before.flow, before.step, m.flow), e)
          == Follow(flows, Place(before.flow, before.step, m.flow), outcome)
    requires HonestEntry(flows, Place(before.flow, before.step, m.flow), e)
    ensures Good(flows, start, Move(m, a, outcome))
  {
    HonestSnoc(flows, start, Path(before.data), e);
    ReplaySnoc(flows, start, Path(before.data), e);
  }

  lemma SaveTracks(flows: Flows, start: FlowId, m: Machine, a: Answers, halt: Halt)
    requires RowTracks(flows, start, m.saved) && halt != Running
    requires m.s.step != "" && Tracks(flows, start, m.s, m.s.flow)
    ensures Good(flows, start, Save(m, a, halt))
  {}

  lemma OneNodeGood(flows: Flows, start: FlowId, m: Machine, a: Answers)
    requires Good(flows, start, m) && m.halt == Running && KeepsTrail(a)
    ensures Good(flows, start, OneNode(flows, m, a))
  {
    hide Execute, Move, Advanced, FindNode, HonestTrail, Replay;
    var found := FindNode(m.graph.nodes, m.s.step);
    FindNodeIff(m.graph.nodes, m.s.step);
    if found.Some? {
      var node := found.value;
      if a.skip {
        var e := Visit(node.id, node.kind, "skipped");
        MoveTracks(flows, start, m.s, m.(s := AppendPath(m.s, e)), a, e, DEFAULT);
      } else {
        ExecuteEffects(flows, node.kind, m.s, m.i, a);
        ReportsAreKnown(flows, node.kind, m.s, m.i, a);
        var x := Execute(flows, node.kind, m.s, m.i, a);
        var m' := m.(s := x.s, i := x.i, ran := m.ran + 1);
        match x.r
        case Failed => SaveTracks(flows, start, m', a, NodeFailed);
        case Yield =>
          var e := Visit(node.id, node.kind, "");
          ReplaySnoc(flows, start, Path(m.s.data), e);
          HonestSnoc(flows, start, Path(m.s.data), e);
          SaveTracks(flows, start, m'.(s := AppendPath(x.s, e)), a, Done);
        case Advance(o) => AdvancedGood(flows, start, m, x.s, m'.(s := AppendPath(x.s, Visit(node.id, node.kind, o))), a, node, o);
      }
    }
  }

  lemma AdvancedGood(flows: Flows, start: FlowId, m: Machine, xs: Session, m': Machine, a: Answers, node: Node<NodeKind>, o: string)
    requires Good(flows, start, m) && m.halt == Running
    requires m' == m.(s := AppendPath(xs, Visit(node.id, node.kind, o)), i := m'.i, ran := m'.ran)
    requires xs.step == m.s.step && o != "skipped" && !Yielded(node.kind, o)
    requires FindNode(m.graph.nodes, m.s.step) == Some(node) && node.id == m.s.step && Reportable(node.kind, o)
    requires (xs.flow == m.s.flow && Path(xs.data) == Path(m.s.data))
          || Path(xs.data) == Path(m.s.data) + [JumpTo(xs.flow)]
    ensures Good(flows, start, Advanced(flows, m', a, o))
  {
    hide FindNode, HonestTrail, Reportable, Advanced, Replay;
    if Path(xs.data) == Path(m.s.data) + [JumpTo(xs.flow)] {
      ReplaySnoc(flows, start, Path(m.s.data), JumpTo(xs.flow));
      HonestSnoc(flows, start, Path(m.s.data), JumpTo(xs.flow));
    }
    LeftGood(flows, start, xs, m', a, node, o);
  }

  /** The visit itself, the session standing at the node in whatever flow it asks for now. */
  lemma LeftGood(flows: Flows, start: FlowId, xs: Session, m': Machine, a: Answers, node: Node<NodeKind>, o: string)
    requires RowTracks(flows, start, m'.saved) && m'.halt == Running && Parsed(flows, m'.flow) == Some(m'.graph)
    requires m'.s == AppendPath(xs, Visit(node.id, node.kind, o)) && xs.step != ""
    requires Replay(flows, start, Path(xs.data)) == Place(xs.flow, xs.step, m'.flow) && HonestTrail(flows, start, Path(xs.data))
    requires FindNode(m'.graph.nodes, xs.step) == Some(node) && node.id == xs.step && Reportable(node.kind, o)
    requires o != "skipped" && !Yielded(node.kind, o)
    ensures Good(flows, start, Advanced(flows, m', a, o))
  {
    hide FindNode, HonestTrail, Reportable, Replay, RowTracks, Move;
    var e := Visit(node.id, node.kind, o);
    HonestSnoc(flows, start, Path(xs.data), e);
    ReplaySnoc(flows, start, Path(xs.data), e);
    if xs.flow == m'.flow {
      MoveTracks(flows, start, xs, m', a, e, o);
    } else if Parsed(flows, xs.flow) == None {
      SaveTracks(flows, start, m', a, TargetUnparsable);
    }
  }

  ghost predicate WorldKeepsTrail(world: nat -> Answers) { forall k :: KeepsTrail(world(k)) }

  lemma {:induction false} LoopGood(flows: Flows, start: FlowId, m: Machine, world: nat -> Answers, k: nat)
    requires k <= MAX_ITERATIONS && Good(flows, start, m) && WorldKeepsTrail(world)
    ensures Good(flows, start, Loop(flows, m, world, k))
    decreases MAX_ITERATIONS - k
  {
    hide OneNode, HonestTrail, Replay;
    if m.halt == Running {
      if k == MAX_ITERATIONS {
        SaveTracks(flows, start, m, world(k), Runaway);
      } else {
        assert KeepsTrail(world(k));
        OneNodeGood(flows, start, m, world(k));
        LoopGood(flows, start, OneNode(flows, m, world(k)), world, k + 1);
      }
    }
  }

  /** The session row after a series of inbound messages. */
  function RowAfter(flows: Flows, row: Session, inbox: seq<Message>): Session {
    if inbox == [] then row
    else
      var r := RowAfter(flows, row, inbox[..|inbox| - 1]);
      var m := inbox[|inbox| - 1];
      if r.flow in flows && flows[r.flow].graph.Some?
      then Inbound(flows, r, m).saved
      else r
  }

  /**
   The trail replays. After any number of inbound messages, with any answers, failures and
   lost saves, following the trail in the session row from the entry node gives exactly the
   row's current flow and current step; and on the way every visit names the very node replay
   stands at, with its kind and an outcome its executor can report.
   */
  lemma {:induction false} TrailReplays(flows: Flows, row: Session, inbox: seq<Message>)
    requires row.step == "" && Path(row.data) == []
    requires forall n :: 0 <= n < |inbox| ==> WorldKeepsTrail(inbox[n].world)
    ensures RowTracks(flows, row.flow, RowAfter(flows, row, inbox))
  {
    if inbox != [] {
      var before := inbox[..|inbox| - 1];
      assert forall n :: 0 <= n < |before| ==> before[n] == inbox[n];
      TrailReplays(flows, row, before);
      var r := RowAfter(flows, row, before);
      var msg := inbox[|inbox| - 1];
      if r.flow in flows && flows[r.flow].graph.Some? {
        InboundGood(flows, row.flow, r, msg);
      }
    }
  }

  lemma SeedsKeepTrail(r: Session, msg: Message)
    ensures Path(r.data + Seeds(msg)) == Path(r.data)
  {
    assert PATH[0] == '_' && "phone_number"[0] == 'p' && "contact_name"[0] == 'c';
  }

  lemma InboundGood(flows: Flows, start: FlowId, r: Session, msg: Message)
    requires r.flow in flows && flows[r.flow].graph.Some? && RowTracks(flows, start, r) && WorldKeepsTrail(msg.world)
    ensures RowTracks(flows, start, Inbound(flows, r, msg).saved)
  {
    SeedsKeepTrail(r, msg);
    var m := Begin(flows, r, msg);
    LoopGood(flows, start, m, msg.world, 0);
  }

  // ----- What the premise of TrailReplays rules out -----

  /** The trail was right before this node ran and is wrong after it. */
  ghost predicate LosesTrail(flows: Flows, start: FlowId, m: Machine, a: Answers) {
    && Good(flows, start, m) && m.halt == Running
    && OneNode(flows, m, a).halt == Running
    && !Replays(flows, start, OneNode(flows, m, a).s, OneNode(flows, m, a).flow)
  }

  const LINE: ChatGraph :=
    GraphData(2, [Node("s", StartNode, ""), Node("v", SetVariableNode, ""), Node("e", EndNode, "")],
              [Edge("s", "v", DEFAULT), Edge("v", "e", DEFAULT)], "s")

  lemma LineFacts()
    ensures FindNode(LINE.nodes, "s") == Some(LINE.nodes[0]) && FindNode(LINE.nodes, "v") == Some(LINE.nodes[1])
    ensures Resolve(LINE.edges, "s", DEFAULT) == "v" && Resolve(LINE.edges, "v", DEFAULT) == "e"
  {
    assert "s" != "v" && "v" != "e" && "s" != "e";
    FindNodeIff(LINE.nodes, "s");
    assert LINE.nodes[0].id == "s";
    assert LINE.nodes[..2][1] == LINE.nodes[1];
    assert FindNode(LINE.nodes, "v") == FindNode(LINE.nodes[..2], "v");
    assert LINE.edges[1..] == [LINE.edges[1]];
    assert FirstExact(LINE.edges, "v", DEFAULT) == FirstExact(LINE.edges[1..], "v", DEFAULT);
  }

  const LINE_FLOWS: Flows := map[0 := Flow(true, "", Some(LINE))]

  const AT_V: Machine :=
    Machine(Session(0, "v", false, 0, "", map[PATH := Trail([Visit("s", StartNode, DEFAULT)])]),
            Input("", "", "", false, false, 0), 0, LINE, Session(0, "", false, 0, "", map[]), Running, 1)

  const CLOBBER: Answers :=
    Answers(false, false, false, false, false, false, map[PATH := ""], "", false, 0, false, false, false, None, false)

  lemma GoodAtV()
    ensures Parsed(LINE_FLOWS, 0) == Some(LINE)
    ensures Good(LINE_FLOWS, 0, AT_V)
  {
    LineFacts();
    hide FindNode;
    hide Resolve;
    var begun := Visit("s", StartNode, DEFAULT);
    ReplaySnoc(LINE_FLOWS, 0, [], begun);
    HonestSnoc(LINE_FLOWS, 0, [], begun);
    assert [] + [begun] == [begun];
    assert CanReport(StartNode, Plain) && OutcomeName(Plain) == DEFAULT;
    assert HonestEntry(LINE_FLOWS, Place(0, "s", 0), begun);
  }

  lemma AfterV()
    ensures var after := OneNode(LINE_FLOWS, AT_V, CLOBBER);
            && after.halt == Running && after.flow == 0 && after.s.flow == 0 && after.s.step == "e"
            && Path(after.s.data) == [Visit("v", SetVariableNode, DEFAULT)]
  {
    LineFacts();
    hide FindNode;
    hide Resolve;
    assert [] + [Visit("v", SetVariableNode, DEFAULT)] == [Visit("v", SetVariableNode, DEFAULT)];
  }

  /** A node that writes the reserved key replaces the trail; replaying it then goes astray. */
  lemma ClobberedTrail()
    ensures LosesTrail(LINE_FLOWS, 0, AT_V, CLOBBER) && !KeepsTrail(CLOBBER)
  {
    GoodAtV();
    AfterV();
    LineFacts();
    hide OneNode;
    hide Good;
    hide Parsed;
    hide Resolve;
    var left := Visit("v", SetVariableNode, DEFAULT);
    ReplaySnoc(LINE_FLOWS, 0, [], left);
    assert [] + [left] == [left];
    assert Replay(LINE_FLOWS, 0, [left]).step == "v" && "v" != "e";
  }

  // ----- Closed graphs, the iteration bound, the input -----

  /** Every graph that parses has only edges that lead to nodes. */
  ghost predicate AllClosed(flows: Flows) {
    forall f :: Parsed(flows, f).Some? ==> EdgesClosed(Parsed(flows, f).value)
  }

  /** The row's step is a node of the row's flow (or the flow has not started, or cannot be parsed). */
  predicate RowInside(flows: Flows, row: Session) {
    match Parsed(flows, row.flow)
    case None => true
    case Some(g) => row.step == "" || FindNode(g.nodes, row.step).Some?
  }

  ghost predicate Sound(flows: Flows, m: Machine, k: nat) {
    && RowInside(flows, m.saved)
    && m.ran <= k && m.i.uses == (if m.i.consumed then 1 else 0)
    && m.halt != NodeMissing
    && (m.halt == Running ==>
          && m.s.flow == m.flow && Parsed(flows, m.flow) == Some(m.graph)
          && FindNode(m.graph.nodes, m.s.step).Some?)
  }

  lemma ExecuteInput(flows: Flows, kind: NodeKind, s: Session, i: Input, a: Answers)
    requires i.uses == if i.consumed then 1 else 0
    ensures var x := Execute(flows, kind, s, i, a);
            && x.i.uses == (if x.i.consumed then 1 else 0) && (i.consumed ==> x.i.consumed)
            && x.s.step == s.step
            && (!x.r.Advance? ==> x.s.flow == s.flow)
  {}

  lemma MoveSound(flows: Flows, m: Machine, a: Answers, outcome: string, k: nat)
    requires Sound(flows, m, k) && m.halt == Running && AllClosed(flows)
    ensures Sound(flows, Move(m, a, outcome), k)
  {
    assert Parsed(flows, m.flow).Some?;
    ResolveStaysInside(m.graph, m.s.step, outcome);
  }

  lemma OneNodeSound(flows: Flows, m: Machine, a: Answers, k: nat)
    requires Sound(flows, m, k) && m.halt == Running && AllClosed(flows)
    ensures Sound(flows, OneNode(flows, m, a), k + 1)
  {
    var node := FindNode(m.graph.nodes, m.s.step).value;
    if a.skip {
      MoveSound(flows, m.(s := AppendPath(m.s, Visit(node.id, node.kind, "skipped"))), a, DEFAULT, k);
    } else {
      ExecuteInput(flows, node.kind, m.s, m.i, a);
      var x := Execute(flows, node.kind, m.s, m.i, a);
      var m' := m.(s := x.s, i := x.i, ran := m.ran + 1);
      if x.r.Advance? {
        var m'' := m'.(s := AppendPath(x.s, Visit(node.id, node.kind, x.r.outcome)));
        if m''.s.flow == m''.flow {
          MoveSound(flows, m'', a, x.r.outcome, k + 1);
        }
      }
    }
  }

  lemma {:induction false} LoopSound(flows: Flows, m: Machine, world: nat -> Answers, k: nat)
    requires k <= MAX_ITERATIONS && Sound(flows, m, k) && AllClosed(flows)
    ensures Sound(flows, Loop(flows, m, world, k), MAX_ITERATIONS)
    ensures Loop(flows, m, world, k).halt != Running
    decreases MAX_ITERATIONS - k
  {
    hide OneNode;
    if m.halt == Running && k < MAX_ITERATIONS {
      OneNodeSound(flows, m, world(k), k);
      LoopSound(flows, OneNode(flows, m, world(k)), world, k + 1);
    }
  }

  /**
   On closed graphs no inbound ends in "node not found", each runs at most 100 nodes, at most
   one blocking node takes the input, and the saved row is again a good starting point.
   */
  lemma InboundSound(flows: Flows, r: Session, msg: Message)
    requires r.flow in flows && flows[r.flow].graph.Some? && RowInside(flows, r) && AllClosed(flows)
    ensures var m := Inbound(flows, r, msg);
            && m.halt != Running && m.halt != NodeMissing
            && m.ran <= MAX_ITERATIONS && m.i.uses <= 1
            && RowInside(flows, m.saved)
  {
    var m := Begin(flows, r, msg);
    LoopSound(flows, m, msg.world, 0);
  }

  /** Every inbound of a conversation, from any start on closed graphs, and wherever it has got to. */
  lemma {:induction false} InboxSound(flows: Flows, row: Session, inbox: seq<Message>)
    requires RowInside(flows, row) && AllClosed(flows)
    ensures RowInside(flows, RowAfter(flows, row, inbox))
    ensures inbox != [] ==>
              var r, msg := RowAfter(flows, row, inbox[..|inbox| - 1]), inbox[|inbox| - 1];
              r.flow in flows && flows[r.flow].graph.Some? ==>
                var m := Inbound(flows, r, msg);
                m.halt != Running && m.halt != NodeMissing && m.ran <= MAX_ITERATIONS && m.i.uses <= 1
  {
    if inbox != [] {
      hide Inbound;
      InboxSound(flows, row, inbox[..|inbox| - 1]);
      var r, msg := RowAfter(flows, row, inbox[..|inbox| - 1]), inbox[|inbox| - 1];
      if r.flow in flows && flows[r.flow].graph.Some? { InboundSound(flows, r, msg); }
    }
  }

  /** Every flow of the table was migrated from legacy steps. */
  ghost predicate AllCompiled(flows: Flows) {
    forall f :: f in flows && flows[f].graph.Some? ==> Migrated(flows[f].graph.value)
  }

  ghost predicate Migrated(g: ChatGraph) {
    exists steps: seq<FlowStep>, keys: seq<seq<string>> ::
      steps != [] && |keys| == |steps| && g == Compile(steps, keys)
  }

  /** Tables of migrated flows are closed, so the above applies to all of them. */
  lemma CompiledFlowsClosed(flows: Flows)
    requires AllCompiled(flows)
    ensures AllClosed(flows)
  {
    forall f | Parsed(flows, f).Some? ensures EdgesClosed(Parsed(flows, f).value) {
      var steps: seq<FlowStep>, keys: seq<seq<string>> :|
        steps != [] && |keys| == |steps| && flows[f].graph.value == Compile(steps, keys);
      CompiledIsRunnable(steps, keys);
    }
  }

  // ----- On a migrated flow the visits are a walk over the legacy steps -----

  /** The step the flow moves to from `a`: its legacy successor, or it stays there, completed. */
  ghost predicate LegacyMove(steps: seq<FlowStep>, a: nat, from: string, outcome: string, to: string)
    requires a < |steps|
  {
    exists o :: CanReport(KindOf(steps[a]), o) && OutcomeName(o) == outcome
             && to == if LegacyNext(steps, a, o) == "" then from else LegacyNext(steps, a, o)
  }

  /**
   Any trail, at any point of it: when the flow being run was migrated from `steps` and the
   visit is of step `a`, not a skip, not a yield and not a jump elsewhere, replay goes on at the
   legacy successor of `a` for an outcome of that step.
   */
  lemma VisitsWalkTheSteps(flows: Flows, start: FlowId, path: seq<Entry>, steps: seq<FlowStep>, keys: seq<seq<string>>, a: nat)
    requires path != [] && HonestTrail(flows, start, path)
    requires a < |steps| && DistinctNames(steps) && !IsStep(steps, START_ID) && KeysListed(SortedSteps(steps), keys)
    requires var p, e := Replay(flows, start, path[..|path| - 1]), path[|path| - 1];
             && e.Visit? && e.node == steps[a].name && e.outcome != "skipped" && !Yielded(e.kind, e.outcome)
             && p.flow == p.running && Parsed(flows, p.running) == Some(Compile(steps, keys))
    ensures var p, e := Replay(flows, start, path[..|path| - 1]), path[|path| - 1];
            e.kind == KindOf(steps[a]) && LegacyMove(steps, a, p.step, e.outcome, Replay(flows, start, path).step)
  {
    var p, e := Replay(flows, start, path[..|path| - 1]), path[|path| - 1];
    CompiledNodeKind(steps, keys, a);
    hide FindNode, SortedSteps, LegacyNext, Resolve, Compile, CanReport, OutcomeName, HonestTrail;
    assert HonestEntry(flows, p, e) by { LastIsHonest(flows, start, path); }
    assert e.kind == KindOf(steps[a]);
    var o :| CanReport(e.kind, o) && OutcomeName(o) == e.outcome;
    CompiledSuccessor(steps, keys, a, o);
  }

  lemma LastIsHonest(flows: Flows, start: FlowId, path: seq<Entry>)
    requires path != [] && HonestTrail(flows, start, path)
    ensures HonestEntry(flows, Replay(flows, start, path[..|path| - 1]), path[|path| - 1])
    ensures HonestTrail(flows, start, path[..|path| - 1])
  {
  }

  lemma {:induction false} HonestPrefix(flows: Flows, start: FlowId, path: seq<Entry>, n: nat)
    requires n <= |path| && HonestTrail(flows, start, path)
    ensures HonestTrail(flows, start, path[..n])
    decreases |path|
  {
    if n == |path| {
      assert path[..n] == path;
    } else {
      HonestPrefix(flows, start, path[..|path| - 1], n);
      assert path[..|path| - 1][..n] == path[..n];
    }
  }

  /** The visits that move within a migrated flow. */
  predicate MovesWithin(flows: Flows, p: Place, e: Entry, g: ChatGraph) {
    && e.Visit? && e.outcome != "skipped" && !Yielded(e.kind, e.outcome)
    && p.flow == p.running && Parsed(flows, p.running) == Some(g)
  }

  /**
   Meaning preservation over whole conversations: after any inbox, every move the trail records
   from a step of a migrated flow is a legacy move of that step.
   */
  lemma ConversationWalksTheSteps(flows: Flows, row: Session, inbox: seq<Message>, steps: seq<FlowStep>, keys: seq<seq<string>>, n: nat, a: nat)
    requires row.step == "" && Path(row.data) == []
    requires forall k :: 0 <= k < |inbox| ==> WorldKeepsTrail(inbox[k].world)
    requires a < |steps| && DistinctNames(steps) && !IsStep(steps, START_ID) && KeysListed(SortedSteps(steps), keys)
    requires var path := Path(RowAfter(flows, row, inbox).data);
             && n < |path| && path[n].Visit? && path[n].node == steps[a].name
             && MovesWithin(flows, Replay(flows, row.flow, path[..n]), path[n], Compile(steps, keys))
    ensures var path := Path(RowAfter(flows, row, inbox).data);
            var from, to := Replay(flows, row.flow, path[..n]).step, Replay(flows, row.flow, path[..n + 1]).step;
            from == steps[a].name && LegacyMove(steps, a, from, path[n].outcome, to)
  {
    hide Compile, SortedSteps, RowAfter, LegacyMove, HonestTrail, Replay, WorldKeepsTrail, HonestEntry;
    var path := Path(RowAfter(flows, row, inbox).data);
    TrailReplays(flows, row, inbox);
    HonestPrefix(flows, row.flow, path, n + 1);
    assert path[..n + 1][..n] == path[..n] && path[..n + 1][n] == path[n];
    VisitsWalkTheSteps(flows, row.flow, path[..n + 1], steps, keys, a);
    LastIsHonest(flows, row.flow, path[..n + 1]);
    HonestStands(flows, Replay(flows, row.flow, path[..n]), path[n]);
  }

  lemma HonestStands(flows: Flows, p: Place, e: Entry)
    requires e.Visit? && HonestEntry(flows, p, e)
    ensures p.step == e.node
  {
  }

  // ----- The interpreter as code -----

  class ChatSession {
    var flow: FlowId
    var step: string
    var completed: bool
    var retries: int
    const account: string
    var data: map<string, Value>

    ghost function View(): Session
      reads this
    {
      Session(flow, step, completed, retries, account, data)
    }

    constructor (row: Session)
      ensures View() == row
    {
      flow, step, completed, retries, data := row.flow, row.step, row.completed, row.retries, row.data;
      account := row.account;
    }

    /** appendChatPath */
    method Append(e: Entry)
      modifies this
      ensures View() == AppendPath(old(View()), e)
    {
      data := data[PATH := Trail(Path(data) + [e])];
    }

    /** The template variables every run starts with. */
    method Seed(msg: Message)
      modifies this
      ensures View() == old(View()).(data := old(data) + Seeds(msg))
    {
      data := data["phone_number" := Scalar(msg.phone)];
      if msg.contactName.Some? {
        data := data["contact_name" := Scalar(msg.contactName.value)];
      }
    }

    method Load(s: Session)
      requires s.account == account
      modifies this
      ensures View() == s
    {
      flow, step, completed, retries, data := s.flow, s.step, s.completed, s.retries, s.data;
    }
  }

  lemma ExecuteKeepsAccount(flows: Flows, kind: NodeKind, s: Session, i: Input, a: Answers)
    ensures Execute(flows, kind, s, i, a).s.account == s.account
  {}

  /** The interpreter's local variables besides the session and the graph. */
  datatype Locals = Locals(input: Input, flow: FlowId, row: Session, ran: nat)

  ghost function MachineOf(session: ChatSession, graph: Graph<NodeKind>, v: Locals, halt: Halt): Machine
    reads session, graph
  {
    Machine(session.View(), v.input, v.flow, graph.data, v.row, halt, v.ran)
  }

  /** parseChatGraph on an accepted value: the graph with its indexes built. */
  method Index(data: ChatGraph) returns (graph: Graph<NodeKind>)
    ensures fresh(graph) && graph.data == data && graph.Indexed()
  {
    graph := new Graph<NodeKind>(data);
    graph.BuildMaps();
  }

  /** persistChatSession */
  method Persist(session: ChatSession, v: Locals, a: Answers) returns (w: Locals)
    ensures w == v.(row := if a.saveFails then v.row else session.View())
  {
    w := v;
    if !a.saveFails {
      w := v.(row := Session(session.flow, session.step, session.completed, session.retries, session.account, session.data));
    }
  }

  /** Follows an edge out of the current node (chatbot_graph_runner.go:127-132 and 175-181). */
  method MoveOn(session: ChatSession, graph: Graph<NodeKind>, v: Locals, a: Answers, outcome: string)
    returns (w: Locals, halt: Halt)
    requires graph.Indexed()
    modifies session
    ensures MachineOf(session, graph, w, halt) == Move(old(MachineOf(session, graph, v, Running)), a, outcome)
  {
    w, halt := v, Running;
    var next := graph.ResolveEdge(session.step, outcome);
    if next == "" {
      session.completed := true;
      w := Persist(session, v, a);
      halt := Done;
    } else {
      session.step := next;
    }
  }

  /** One turn of the loop in runChatGraph. */
  method RunNode(flows: Flows, session: ChatSession, graph: Graph<NodeKind>, v: Locals, a: Answers)
    returns (next: Graph<NodeKind>, w: Locals, halt: Halt)
    requires graph.Indexed()
    modifies session
    ensures next.Indexed()
    ensures MachineOf(session, next, w, halt) == OneNode(flows, old(MachineOf(session, graph, v, Running)), a)
  {
    hide Move, FindNode, Graph.Indexed;
    next, w, halt := graph, v, Running;
    var found := graph.NodeById(session.step);
    if found.None? {
      halt := NodeMissing;
      return;
    }
    var node := found.value;
    if a.skip {
      session.Append(Visit(node.id, node.kind, "skipped"));
      w, halt := MoveOn(session, graph, v, a, DEFAULT);
      return;
    }
    var x := Execute(flows, node.kind, Session(session.flow, session.step, session.completed, session.retries,
                                               session.account, session.data), v.input, a);
    ExecuteKeepsAccount(flows, node.kind, session.View(), v.input, a);
    hide Execute;
    session.Load(x.s);
    w := v.(input := x.i, ran := v.ran + 1);
    if x.r.Failed? {
      w := Persist(session, w, a);
      halt := NodeFailed;
      return;
    }
    var outcome := if x.r.Advance? then x.r.outcome else "";
    session.Append(Visit(node.id, node.kind, outcome));
    if x.r.Yield? {
      w := Persist(session, w, a);
      halt := Done;
      return;
    }
    if session.flow == w.flow {
      w, halt := MoveOn(session, graph, w, a, outcome);
    } else if session.flow in flows && flows[session.flow].graph.Some? && ParserAccepts(flows[session.flow].graph.value) {
      next := Index(flows[session.flow].graph.value);
      w := w.(flow := session.flow);
      session.step := next.data.entry;
    } else {
      w := Persist(session, w, a);
      halt := TargetUnparsable;
    }
  }

  /**
   runChatGraph. `session` is the in-memory session, changed in place; the returned row is
   what ends up in the database; `halt` says how the run ended.
   */
  method RunChatGraph(flows: Flows, session: ChatSession, saved: Session, msg: Message)
    returns (row: Session, halt: Halt, ran: nat)
    requires saved.flow in flows && flows[saved.flow].graph.Some?
    requires session.View() == saved
    modifies session
    ensures var m := Inbound(flows, saved, msg);
            row == m.saved && halt == m.halt && ran == m.ran && session.View() == m.s
  {
    hide OneNode, Graph.Indexed;
    var data := flows[session.flow].graph.value;
    if !ParserAccepts(data) {
      return saved, FlowUnparsable, 0;
    }
    var graph := Index(data);
    session.Seed(msg);
    var input := Input(msg.phone, msg.text, msg.button, msg.hasForm, false, 0);
    if session.step == "" {
      session.step := data.entry;
      input := input.(text := "", button := "");
    }
    var v := Locals(input, session.flow, saved, 0);
    halt := Running;
    ghost var final := Inbound(flows, saved, msg);
    assert MachineOf(session, graph, v, halt) == Begin(flows, saved, msg);
    var k := 0;
    while k < MAX_ITERATIONS && halt == Running
      invariant 0 <= k <= MAX_ITERATIONS && graph.Indexed()
      invariant final == Loop(flows, MachineOf(session, graph, v, halt), msg.world, k)
    {
      graph, v, halt := RunNode(flows, session, graph, v, msg.world(k));
      k := k + 1;
    }
    if halt == Running {
      v := Persist(session, v, msg.world(MAX_ITERATIONS));
      halt := Runaway;
    }
    return v.row, halt, v.ran;
  }
}
