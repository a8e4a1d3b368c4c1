/**
 What each node owes to the world's answers (internal/handlers/chatbot_graph_runner.go:191-932).

 `Answered` spells out, kind by kind and without the interpreter's own definitions, which
 outcome a reply, a form, an HTTP status, an expression or the clock calls for, and what the
 session keeps. Every turn of every inbound is shown to be one; on a migrated flow each turn
 then leads to the step the legacy list names for that very answer.
 */
module GraphAnswers {
  import opened Wrappers
  import opened FlowGraph
  import opened FlowMigration
  import opened GraphRunner

  // ----- One node -----

  /** The reply is kept under `name`, if there is one, and nothing else of the data changes. */
  predicate Kept(before: map<string, Value>, name: string, reply: string, after: map<string, Value>) {
    if name == "" then after == before
    else
      && after.Keys == before.Keys + {name}
      && after[name] == Scalar(reply)
      && forall k :: k in before && k != name ==> after[k] == before[k]
  }

  /** The values are kept under their names, and nothing else of the data changes. */
  predicate AllKept(before: map<string, Value>, writes: map<string, string>, after: map<string, Value>) {
    && after.Keys == before.Keys + writes.Keys
    && (forall k :: k in writes ==> after[k] == Scalar(writes[k]))
    && forall k :: k in before && k !in writes ==> after[k] == before[k]
  }

  /** Session and input stay as they were. */
  predicate Untouched(s: Session, i: Input, x: Exec) { x.s == s && x.i == i }

  /** One more node took the input as its answer. */
  predicate Taken(i: Input, i': Input) { i' == i.(consumed := true, uses := i.uses + 1) }

  /** The flow of this id can be entered from a session of this account. */
  predicate Enterable(flows: Flows, account: string, id: FlowId) {
    id in flows && flows[id].enabled && flows[id].account == account && flows[id].graph.Some?
  }

  /** The caller's number is renewed, then the response's values are kept. */
  predicate Fetched(s: Session, i: Input, writes: map<string, string>, x: Exec) {
    && x.i == i && x.s == s.(data := x.s.data)
    && x.s.data.Keys == s.data.Keys + {"phone_number"} + writes.Keys
    && (forall k :: k in writes ==> x.s.data[k] == Scalar(writes[k]))
    && ("phone_number" !in writes ==> x.s.data["phone_number"] == Scalar(i.phone))
    && forall k :: k in s.data && k != "phone_number" && k !in writes ==> x.s.data[k] == s.data[k]
  }

  predicate ButtonsAnswered(s: Session, i: Input, a: Answers, x: Exec) {
    if i.button != "" && !i.consumed then
      && x.r == Advance("button:" + i.button) && Taken(i, x.i) && x.s == s.(data := x.s.data)
      && Kept(s.data, a.storeAs, if i.text == "" then i.button else i.text, x.s.data)
    else Untouched(s, i, x) && x.r == if a.hasButtons && !a.sendFails then Yield else Failed
  }

  predicate PromptAnswered(s: Session, i: Input, a: Answers, x: Exec) {
    if i.consumed then Untouched(s, i, x) && x.r == Yield
    else if i.text == "" then Untouched(s, i, x) && x.r == if a.hasBody && !a.sendFails then Yield else Failed
    else if !a.rejected then
      && x.r == Advance("default") && Taken(i, x.i) && x.s == s.(data := x.s.data, retries := 0)
      && Kept(s.data, a.storeAs, i.text, x.s.data)
    else if s.retries + 1 < a.maxRetries then
      && x.r == (if a.sendFails then Failed else Yield) && Taken(i, x.i) && x.s == s.(retries := s.retries + 1)
    else x.r == Advance("max_retries") && Taken(i, x.i) && x.s == s.(retries := 0)
  }

  predicate FormAnswered(s: Session, i: Input, a: Answers, x: Exec) {
    if i.hasForm && !i.consumed then
      && x.r == Advance("default") && Taken(i, x.i) && x.s == s.(data := x.s.data)
      && AllKept(s.data, a.writes, x.s.data)
    else
      && Untouched(s, i, x)
      && x.r == if !a.hasFlowId then Advance("default") else if a.sendFails then Failed else Yield
  }

  predicate GotoAnswered(flows: Flows, s: Session, i: Input, a: Answers, x: Exec) {
    if a.target.Some? && Enterable(flows, s.account, a.target.value) then
      && x.r == Advance("goto") && x.i == i
      && x.s == s.(flow := a.target.value,
                   data := s.data["__path__" := Trail(Path(s.data) + [JumpTo(a.target.value)])])
    else Untouched(s, i, x) && x.r == Advance("")
  }

  predicate Answered(flows: Flows, kind: NodeKind, s: Session, i: Input, a: Answers, x: Exec) {
    match kind
    case StartNode => Untouched(s, i, x) && x.r == Advance("default")
    case WebhookNode => Fetched(s, i, map[], x) && x.r == Advance("default")
    case MessageNode | AIResponseNode =>
      Untouched(s, i, x) && x.r == if a.hasText && a.sendFails then Failed else Advance("default")
    case ButtonsNode => ButtonsAnswered(s, i, a, x)
    case PromptNode => PromptAnswered(s, i, a, x)
    case ApiCallNode =>
      if a.http2xx then x.r == Advance("http:2xx") && Fetched(s, i, a.writes, x)
      else x.r == Advance("http:non2xx") && Fetched(s, i, map[], x)
    case ConditionNode => Untouched(s, i, x) && x.r == if a.holds then Advance("true") else Advance("false")
    case TimingNode => Untouched(s, i, x) && x.r == if a.inHours then Advance("in_hours") else Advance("out_of_hours")
    case SetVariableNode =>
      x.r == Advance("default") && x.i == i && x.s == s.(data := x.s.data) && AllKept(s.data, a.writes, x.s.data)
    case TransferNode => x.r == Yield && x.i == i && x.s == s.(completed := true)
    case GotoFlowNode => GotoAnswered(flows, s, i, a, x)
    case WhatsAppFlowNode => FormAnswered(s, i, a, x)
    case EndNode => Untouched(s, i, x) && x.r == if a.hasText && a.sendFails then Failed else Advance("")
    case UnknownNode(_) => Untouched(s, i, x) && x.r == Failed
  }

  lemma StoreReplyKeeps(s: Session, name: string, reply: string)
    ensures StoreReply(s, name, reply) == s.(data := StoreReply(s, name, reply).data)
    ensures Kept(s.data, name, reply, StoreReply(s, name, reply).data)
  {
  }

  lemma StoreKeeps(s: Session, writes: map<string, string>)
    ensures Store(s, writes) == s.(data := Store(s, writes).data)
    ensures AllKept(s.data, writes, Store(s, writes).data)
  {
  }

  lemma RenewFetches(s: Session, i: Input, writes: map<string, string>, r: Result)
    ensures Fetched(s, i, writes, Exec(Store(Renew(s, i), writes), i, r))
    ensures Fetched(s, i, map[], Exec(Renew(s, i), i, r))
  {
  }

  /** The outcome of every executed node is the one its input and the world's answers call for. */
  lemma ExecutedAsAnswered(flows: Flows, kind: NodeKind, s: Session, i: Input, a: Answers)
    ensures Answered(flows, kind, s, i, a, Execute(flows, kind, s, i, a))
  {
    hide Kept, AllKept, Fetched, Store, StoreReply, Renew;
    match kind
    case ApiCallNode => RenewFetches(s, i, a.writes, Execute(flows, kind, s, i, a).r);
    case WebhookNode => RenewFetches(s, i, a.writes, Execute(flows, kind, s, i, a).r);
    case ButtonsNode => StoreReplyKeeps(s, a.storeAs, if i.text == "" then i.button else i.text);
    case PromptNode => StoreReplyKeeps(s, a.storeAs, i.text);
    case SetVariableNode => StoreKeeps(s, a.writes);
    case WhatsAppFlowNode => StoreKeeps(s, a.writes);
    case _ =>
  }

  /** A relation that leaves no choice: the answers determine the execution. */
  lemma AnswersDecide(flows: Flows, kind: NodeKind, s: Session, i: Input, a: Answers, x: Exec)
    ensures Answered(flows, kind, s, i, a, x) <==> x == Execute(flows, kind, s, i, a)
  {
    ExecutedAsAnswered(flows, kind, s, i, a);
    if Answered(flows, kind, s, i, a, x) {
      hide Execute;
      OneAnswer(flows, kind, s, i, a, x, Execute(flows, kind, s, i, a));
    }
  }

  lemma OneAnswer(flows: Flows, kind: NodeKind, s: Session, i: Input, a: Answers, x: Exec, y: Exec)
    requires Answered(flows, kind, s, i, a, x) && Answered(flows, kind, s, i, a, y)
    ensures x == y
  {
    assert x.s.data == y.s.data;
  }

  // ----- One turn -----

  /** One more entry at the end of the trail. */
  function Noted(s: Session, e: Entry): Session { s.(data := s.data["__path__" := Trail(Path(s.data) + [e])]) }

  /** The turn ends the run; the row is the session unless writing it fails. */
  predicate Ends(m: Machine, a: Answers, s: Session, halt: Halt, m': Machine) {
    m' == m.(s := s, halt := halt, saved := if a.saveFails then m.saved else s)
  }

  /** The run goes on at the node `next`, or the session is completed if there is none. */
  predicate GoesTo(m: Machine, a: Answers, s: Session, next: string, m': Machine) {
    if next != "" then m' == m.(s := s.(step := next)) else Ends(m, a, s.(completed := true), Done, m')
  }

  predicate Leaves(m: Machine, a: Answers, s: Session, outcome: string, m': Machine) {
    GoesTo(m, a, s, Resolve(m.graph.edges, m.s.step, outcome), m')
  }

  /** The node ran, with result x; the trail names it and its outcome. */
  predicate Recorded(flows: Flows, m: Machine, node: Node<NodeKind>, a: Answers, x: Exec, m': Machine) {
    var ran := m.(i := x.i, ran := m.ran + 1);
    match x.r
    case Failed => Ends(ran, a, x.s, NodeFailed, m')
    case Yield => Ends(ran, a, Noted(x.s, Visit(node.id, node.kind, "")), Done, m')
    case Advance(outcome) =>
      var s := Noted(x.s, Visit(node.id, node.kind, outcome));
      if x.s.flow == m.flow then Leaves(ran, a, s, outcome, m')
      else if Parsed(flows, x.s.flow).None? then Ends(ran, a, s, TargetUnparsable, m')
      else
        var g := Parsed(flows, x.s.flow).value;
        m' == ran.(flow := x.s.flow, graph := g, s := s.(step := g.entry))
  }

  /** One turn of the loop owes its result to the answers. */
  ghost predicate Turned(flows: Flows, m: Machine, a: Answers, m': Machine) {
    match FindNode(m.graph.nodes, m.s.step)
    case None => m' == m.(halt := NodeMissing)
    case Some(node) =>
      if a.skip then Leaves(m, a, Noted(m.s, Visit(node.id, node.kind, "skipped")), "default", m')
      else exists x :: Answered(flows, node.kind, m.s, m.i, a, x) && Recorded(flows, m, node, a, x, m')
  }

  lemma EveryTurn(flows: Flows, m: Machine, a: Answers)
    requires m.halt == Running && m.s.flow == m.flow
    ensures Turned(flows, m, a, OneNode(flows, m, a))
  {
    hide Answered, FindNode, Resolve, Execute;
    var found := FindNode(m.graph.nodes, m.s.step);
    if found.Some? && !a.skip {
      var node := found.value;
      ExecutedAsAnswered(flows, node.kind, m.s, m.i, a);
      StepStays(flows, node.kind, m.s, m.i, a);
      assert Recorded(flows, m, node, a, Execute(flows, node.kind, m.s, m.i, a), OneNode(flows, m, a));
    }
  }

  lemma StepStays(flows: Flows, kind: NodeKind, s: Session, i: Input, a: Answers)
    ensures Execute(flows, kind, s, i, a).s.step == s.step
  {
  }

  // ----- One inbound, and a conversation of them -----

  /**
   The start of an inbound: the built-in variables are set; a flow that has not started starts at
   its entry node, and what was typed to trigger it is no answer to that node.
   */
  predicate Begun(flows: Flows, saved: Session, msg: Message, m: Machine)
    requires saved.flow in flows && flows[saved.flow].graph.Some?
  {
    var g := flows[saved.flow].graph.value;
    && m.saved == saved && m.flow == saved.flow && m.graph == g && m.ran == 0
    && if g.version != 2 || g.entry == "" || FindNode(g.nodes, g.entry).None? then m.halt == FlowUnparsable && m.s == saved
       else
         && m.halt == Running && m.s == saved.(data := m.s.data, step := m.s.step)
         && (if saved.step == "" then m.s.step == g.entry && m.i.text == "" && m.i.button == ""
             else m.s.step == saved.step && m.i.text == msg.text && m.i.button == msg.button)
         && m.i.phone == msg.phone && m.i.hasForm == msg.hasForm && !m.i.consumed && m.i.uses == 0
         && m.s.data.Keys == saved.data.Keys + {"phone_number"} + (if msg.contactName.Some? then {"contact_name"} else {})
         && m.s.data["phone_number"] == Scalar(msg.phone)
         && (msg.contactName.Some? ==> m.s.data["contact_name"] == Scalar(msg.contactName.value))
         && forall k :: k in saved.data && k != "phone_number" && (msg.contactName.None? || k != "contact_name")
                        ==> m.s.data[k] == saved.data[k]
  }

  lemma EveryBeginning(flows: Flows, saved: Session, msg: Message)
    requires saved.flow in flows && flows[saved.flow].graph.Some?
    ensures Begun(flows, saved, msg, Begin(flows, saved, msg))
  {
    hide FindNode;
    assert "phone_number"[0] != "contact_name"[0];
  }

  /** A run of turns from the k-th on, each owed to its answers, until one halts or 100 have been taken. */
  ghost predicate Played(flows: Flows, world: nat -> Answers, k: nat, ms: seq<Machine>) {
    && 0 < |ms| <= 101 - k
    && (forall j :: 0 <= j < |ms| - 1 ==> RunsOn(ms[j]) && Turned(flows, ms[j], world(k + j), ms[j + 1]))
    && (ms[|ms| - 1].halt == Running ==> |ms| == 101 - k && RunsOn(ms[|ms| - 1]))
  }

  predicate RunsOn(m: Machine) { m.halt == Running && m.s.flow == m.flow }

  /** The last machine is the end, or after 100 turns the run is cut off and saved. */
  predicate Concluded(world: nat -> Answers, last: Machine, end: Machine) {
    if last.halt != Running then end == last else Ends(last, world(100), last.s, Runaway, end)
  }

  lemma TurnsStayTogether(flows: Flows, m: Machine, a: Answers)
    requires RunsOn(m) && OneNode(flows, m, a).halt == Running
    ensures RunsOn(OneNode(flows, m, a))
  {
    hide Execute, FindNode, Resolve;
  }

  lemma {:induction false} LoopIsPlayed(flows: Flows, m: Machine, world: nat -> Answers, k: nat) returns (ms: seq<Machine>)
    requires k <= MAX_ITERATIONS && (m.halt == Running ==> RunsOn(m))
    ensures Played(flows, world, k, ms) && ms[0] == m
    ensures Concluded(world, ms[|ms| - 1], Loop(flows, m, world, k))
    decreases MAX_ITERATIONS - k
  {
    hide OneNode, Turned;
    ms := [m];
    if m.halt == Running && k < MAX_ITERATIONS {
      var next := OneNode(flows, m, world(k));
      EveryTurn(flows, m, world(k));
      if next.halt == Running { TurnsStayTogether(flows, m, world(k)); }
      var rest := LoopIsPlayed(flows, next, world, k + 1);
      ms := [m] + rest;
      forall j | 0 <= j < |ms| - 1 ensures RunsOn(ms[j]) && Turned(flows, ms[j], world(k + j), ms[j + 1]) {
        if j > 0 {
          assert ms[j] == rest[j - 1] && ms[j + 1] == rest[j];
          assert world(k + j) == world(k + 1 + (j - 1));
        }
      }
    }
  }

  /**
   Every message of every conversation is a run of turns, each of which does what its answers
   call for, from the row as it then stands to the row it leaves.
   */
  lemma ConversationAnswered(flows: Flows, row: Session, inbox: seq<Message>, j: nat) returns (ms: seq<Machine>, end: Machine)
    requires j < |inbox|
    requires var r := RowAfter(flows, row, inbox[..j]); r.flow in flows && flows[r.flow].graph.Some?
    ensures Played(flows, inbox[j].world, 0, ms) && Concluded(inbox[j].world, ms[|ms| - 1], end)
    ensures Begun(flows, RowAfter(flows, row, inbox[..j]), inbox[j], ms[0])
    ensures RowAfter(flows, row, inbox[..j + 1]) == end.saved
  {
    hide Begun, Played, Concluded, Loop, Begin;
    assert inbox[..j + 1][..j] == inbox[..j];
    var r := RowAfter(flows, row, inbox[..j]);
    BeginningsRun(flows, r, inbox[j]);
    EveryBeginning(flows, r, inbox[j]);
    ms := LoopIsPlayed(flows, Begin(flows, r, inbox[j]), inbox[j].world, 0);
    end := Inbound(flows, r, inbox[j]);
  }

  lemma BeginningsRun(flows: Flows, saved: Session, msg: Message)
    requires saved.flow in flows && flows[saved.flow].graph.Some?
    ensures Begin(flows, saved, msg).halt == Running ==> RunsOn(Begin(flows, saved, msg))
  {
  }

  // ----- On a migrated flow the answers lead to the legacy steps they call for -----

  /** A text step that says what to expect, where to put it or how to check it asks for input. */
  predicate Asks(step: FlowStep) {
    step.messageType == Text
    && ((step.inputType != "" && step.inputType != "none") || step.storeAs != "" || step.validationRegex != "")
  }

  /** The step is done with, given the input, its answers and the rejections so far. */
  predicate Over(step: FlowStep, i: Input, a: Answers, retries: int) {
    match step.messageType
    case Text =>
      if Asks(step) then i.text != "" && !i.consumed && (!a.rejected || retries + 1 >= a.maxRetries)
      else !(a.hasText && a.sendFails)
    case Buttons => i.button != "" && !i.consumed
    case WhatsAppFlow => (i.hasForm && !i.consumed) || !a.hasFlowId
    case ApiFetch | Condition | Timing => true
    case End => !(a.hasText && a.sendFails)
    case Transfer | GotoFlow | Unsupported(_) => false
  }

  /** The branch the legacy step names under this key, unless it is no string. */
  function Named(step: FlowStep, key: string): string {
    if key in step.conditionalNext && step.conditionalNext[key].Str? then step.conditionalNext[key].s else ""
  }

  /** One of the step's buttons has this id. */
  predicate Offers(step: FlowStep, id: string) { exists k :: 0 <= k < |step.buttons| && step.buttons[k] == Object(Str(id)) }

  lemma OffersIff(step: FlowStep, id: string)
    requires id != ""
    ensures Offers(step, id) <==> HasButton(step, id)
  {
  }

  ghost function InSequence(steps: seq<FlowStep>, n: nat): string
    requires n < |steps|
  {
    IfStep(steps, if steps[n].nextStep != "" then steps[n].nextStep else NextByOrder(steps, n))
  }

  /** The step that comes next in the legacy list, "" if the flow ends. */
  ghost function Onward(steps: seq<FlowStep>, n: nat, i: Input, a: Answers): string
    requires n < |steps|
  {
    var step := steps[n];
    match step.messageType
    case Text | ApiFetch | WhatsAppFlow => InSequence(steps, n)
    case Buttons =>
      if Named(step, i.button) != "" then IfStep(steps, Named(step, i.button))
      else if Offers(step, i.button) then NextByOrder(steps, n)
      else ""
    case Condition => IfStep(steps, Named(step, if a.holds then "true" else "false"))
    case Timing => IfStep(steps, Named(step, if a.inHours then "in_hours" else "out_of_hours"))
    case End | GotoFlow | Transfer | Unsupported(_) => ""
  }

  /** The run is at step `next` of the same flow, or the session is completed if there is none. */
  predicate Proceeds(m: Machine, next: string, m': Machine) {
    if next != "" then RunsOn(m') && m'.flow == m.flow && m'.s.step == next && m'.s.completed == m.s.completed
    else m'.halt == Done && m'.s.completed && m'.s.step == m.s.step
  }

  /** The run ends at the step it is at. */
  predicate Rests(m: Machine, a: Answers, completed: bool, m': Machine) {
    && (m'.halt == Done || m'.halt == NodeFailed)
    && m'.s.step == m.s.step && m'.s.flow == m.s.flow && m'.s.completed == completed
    && m'.saved == if a.saveFails then m.saved else m'.s
  }

  /** The target takes over at its entry node; the same flow again ends the session. */
  predicate Jumps(flows: Flows, m: Machine, a: Answers, m': Machine) {
    if a.target.None? || !Enterable(flows, m.s.account, a.target.value) || a.target.value == m.flow then Proceeds(m, "", m')
    else
      && m'.s.flow == a.target.value
      && match Parsed(flows, a.target.value)
         case None => m'.halt == TargetUnparsable
         case Some(g) => RunsOn(m') && m'.graph == g && m'.s.step == g.entry
  }

  /** What becomes of a reply to a text step. */
  predicate ReplyHeeded(m: Machine, a: Answers, m': Machine) {
    if !a.rejected then
      && m'.s.retries == 0
      && (a.storeAs != "" && a.storeAs != "__path__" ==> a.storeAs in m'.s.data && m'.s.data[a.storeAs] == Scalar(m.i.text))
    else m'.s.retries == if m.s.retries + 1 < a.maxRetries then m.s.retries + 1 else 0
  }

  /** One turn at a legacy step. */
  ghost predicate LegacyTurn(flows: Flows, steps: seq<FlowStep>, n: nat, m: Machine, a: Answers, m': Machine)
    requires n < |steps|
  {
    var step := steps[n];
    if step.messageType == GotoFlow then Jumps(flows, m, a, m')
    else
      && (if Over(step, m.i, a, m.s.retries) then Proceeds(m, Onward(steps, n, m.i, a), m')
          else Rests(m, a, m.s.completed || step.messageType == Transfer, m'))
      && (Asks(step) && m.i.text != "" && !m.i.consumed ==> ReplyHeeded(m, a, m'))
  }

  /** The machine stands at step `n` of a flow migrated from `steps`. */
  ghost predicate AtStep(steps: seq<FlowStep>, keys: seq<seq<string>>, n: nat, m: Machine) {
    && n < |steps| && DistinctNames(steps) && !IsStep(steps, START_ID) && KeysListed(SortedSteps(steps), keys)
    && RunsOn(m) && m.graph == Compile(steps, keys) && m.s.step == steps[n].name
  }

  /** What FindNode gives at a step, without the compiler's own table of kinds. */
  lemma NodeAtStep(steps: seq<FlowStep>, keys: seq<seq<string>>, n: nat, m: Machine)
    requires AtStep(steps, keys, n, m)
    ensures var found := FindNode(m.graph.nodes, m.s.step); found.Some? && NodeFits(steps[n], found.value)
  {
    hide Compile, SortedSteps;
    CompiledKinds(steps, keys, n);
  }

  /** Reporting `outcome` from this step leads to `next`. */
  predicate LeadsTo(m: Machine, outcome: string, next: string) { Resolve(m.graph.edges, m.s.step, outcome) == next }

  /** The edges out of a step, by the outcomes its node reports. */
  lemma EdgesAtStep(steps: seq<FlowStep>, keys: seq<seq<string>>, n: nat, m: Machine, a: Answers)
    requires AtStep(steps, keys, n, m)
    ensures var next := Onward(steps, n, m.i, a);
            match steps[n].messageType
            case Text => LeadsTo(m, "default", next) && (Asks(steps[n]) ==> LeadsTo(m, "max_retries", next))
            case ApiFetch => LeadsTo(m, "http:2xx", next) && LeadsTo(m, "http:non2xx", next)
            case WhatsAppFlow => LeadsTo(m, "default", next)
            case Buttons => m.i.button != "" ==> LeadsTo(m, "button:" + m.i.button, next)
            case Condition => LeadsTo(m, if a.holds then "true" else "false", next)
            case Timing => LeadsTo(m, if a.inHours then "in_hours" else "out_of_hours", next)
            case GotoFlow => LeadsTo(m, "goto", "") && LeadsTo(m, "", "")
            case End => LeadsTo(m, "", "")
            case _ => true
  {
    hide Compile, SortedSteps, Resolve, NextByOrder, IfStep;
    match steps[n].messageType
    case Text =>
      CompiledSuccessor(steps, keys, n, Plain);
      if Asks(steps[n]) { CompiledSuccessor(steps, keys, n, MaxRetries); }
    case ApiFetch =>
      CompiledSuccessor(steps, keys, n, Http2xx);
      CompiledSuccessor(steps, keys, n, HttpNon2xx);
    case WhatsAppFlow => CompiledSuccessor(steps, keys, n, Plain);
    case Buttons =>
      if m.i.button != "" {
        OffersIff(steps[n], m.i.button);
        CompiledSuccessor(steps, keys, n, ButtonPress(m.i.button));
      }
    case Condition => CompiledSuccessor(steps, keys, n, Branch(a.holds));
    case Timing => CompiledSuccessor(steps, keys, n, Hours(a.inHours));
    case GotoFlow =>
      CompiledSuccessor(steps, keys, n, Jump);
      CompiledSuccessor(steps, keys, n, Nothing);
    case End => CompiledSuccessor(steps, keys, n, Nothing);
    case _ =>
  }

  lemma GoesOn(flows: Flows, m: Machine, node: Node<NodeKind>, a: Answers, x: Exec, m': Machine, next: string)
    requires Recorded(flows, m, node, a, x, m') && RunsOn(m) && x.r.Advance? && LeadsTo(m, x.r.outcome, next)
    requires x.s == m.s.(data := x.s.data, retries := x.s.retries)
    ensures Proceeds(m, next, m') && m'.s.retries == x.s.retries
    ensures forall k :: k in x.s.data && k != "__path__" ==> k in m'.s.data && m'.s.data[k] == x.s.data[k]
  {
    hide Resolve;
  }

  lemma StopsHere(flows: Flows, m: Machine, node: Node<NodeKind>, a: Answers, x: Exec, m': Machine)
    requires Recorded(flows, m, node, a, x, m') && RunsOn(m) && !x.r.Advance?
    requires x.s.step == m.s.step && x.s.flow == m.s.flow
    ensures Rests(m, a, x.s.completed, m') && m'.s.retries == x.s.retries
  {
  }

  /** The text steps: a prompt or a message. */
  lemma TextFollowed(flows: Flows, step: FlowStep, next: string, m: Machine, node: Node<NodeKind>, a: Answers, x: Exec, m': Machine)
    requires RunsOn(m) && step.messageType == Text && NodeFits(step, node)
    requires Answered(flows, node.kind, m.s, m.i, a, x) && Recorded(flows, m, node, a, x, m')
    requires LeadsTo(m, "default", next) && (Asks(step) ==> LeadsTo(m, "max_retries", next))
    ensures if Over(step, m.i, a, m.s.retries) then Proceeds(m, next, m') else Rests(m, a, m.s.completed, m')
    ensures Asks(step) && m.i.text != "" && !m.i.consumed ==> ReplyHeeded(m, a, m')
  {
    hide Recorded, Proceeds, Rests, LeadsTo;
    assert node.kind == if Asks(step) then PromptNode else MessageNode;
    if x.r.Advance? { GoesOn(flows, m, node, a, x, m', next); } else { StopsHere(flows, m, node, a, x, m'); }
  }

  lemma GotoFollowed(flows: Flows, m: Machine, node: Node<NodeKind>, a: Answers, x: Exec, m': Machine)
    requires RunsOn(m) && GotoAnswered(flows, m.s, m.i, a, x) && Recorded(flows, m, node, a, x, m')
    requires LeadsTo(m, "goto", "") && LeadsTo(m, "", "")
    ensures Jumps(flows, m, a, m')
  {
    hide Resolve, FindNode;
  }

  /** The other steps. */
  lemma BranchFollowed(flows: Flows, steps: seq<FlowStep>, keys: seq<seq<string>>, n: nat,
                       m: Machine, node: Node<NodeKind>, a: Answers, x: Exec, m': Machine)
    requires AtStep(steps, keys, n, m) && RunsOn(m) && NodeFits(steps[n], node)
    requires steps[n].messageType != Text && steps[n].messageType != GotoFlow
    requires Answered(flows, node.kind, m.s, m.i, a, x) && Recorded(flows, m, node, a, x, m')
    ensures if Over(steps[n], m.i, a, m.s.retries) then Proceeds(m, Onward(steps, n, m.i, a), m')
            else Rests(m, a, m.s.completed || steps[n].messageType == Transfer, m')
  {
    BranchReports(flows, steps, keys, n, m, node, a, x);
    hide AtStep, Recorded, Proceeds, Rests, LeadsTo, Onward, Answered, NodeFits, Over;
    if x.r.Advance? {
      GoesOn(flows, m, node, a, x, m', Onward(steps, n, m.i, a));
    } else {
      StopsHere(flows, m, node, a, x, m');
    }
  }

  /** Their nodes report an outcome exactly when the step is over, and its edge leads to the next step. */
  lemma BranchReports(flows: Flows, steps: seq<FlowStep>, keys: seq<seq<string>>, n: nat,
                      m: Machine, node: Node<NodeKind>, a: Answers, x: Exec)
    requires AtStep(steps, keys, n, m) && NodeFits(steps[n], node)
    requires steps[n].messageType != Text && steps[n].messageType != GotoFlow
    requires Answered(flows, node.kind, m.s, m.i, a, x)
    ensures x.r.Advance? <==> Over(steps[n], m.i, a, m.s.retries)
    ensures x.r.Advance? ==> LeadsTo(m, x.r.outcome, Onward(steps, n, m.i, a)) && x.s == m.s.(data := x.s.data)
    ensures !x.r.Advance? ==> x.s == m.s.(data := x.s.data, completed := m.s.completed || steps[n].messageType == Transfer)
  {
    EdgesAtStep(steps, keys, n, m, a);
    hide AtStep, LeadsTo, Onward, Kept, AllKept, Fetched, PromptAnswered, GotoAnswered;
    if steps[n].messageType == Buttons || steps[n].messageType == WhatsAppFlow {
      assert node.kind == if steps[n].messageType == Buttons then ButtonsNode else WhatsAppFlowNode;
    } else {
      hide ButtonsAnswered, FormAnswered;
    }
  }

  /**
   Meaning preservation, answer by answer: a turn at a migrated step does what the legacy list
   says for that very reply, press, form, status, expression or hour.
   */
  lemma LegacyFollowed(flows: Flows, steps: seq<FlowStep>, keys: seq<seq<string>>, n: nat, m: Machine, a: Answers, m': Machine)
    requires AtStep(steps, keys, n, m) && !a.skip
    requires Turned(flows, m, a, m')
    ensures LegacyTurn(flows, steps, n, m, a, m')
  {
    assert RunsOn(m) by { Standing(steps, keys, n, m); }
    NodeAtStep(steps, keys, n, m);
    hide AtStep, FindNode, Recorded, Answered, Onward, Proceeds, Rests, ReplyHeeded, LeadsTo, Over, Asks, Jumps;
    var node := FindNode(m.graph.nodes, m.s.step).value;
    var x :| Answered(flows, node.kind, m.s, m.i, a, x) && Recorded(flows, m, node, a, x, m');
    if steps[n].messageType == Text {
      EdgesAtStep(steps, keys, n, m, a);
      TextFollowed(flows, steps[n], Onward(steps, n, m.i, a), m, node, a, x, m');
    } else if steps[n].messageType == GotoFlow {
      EdgesAtStep(steps, keys, n, m, a);
      GotoIsGoto(flows, steps[n], m, node, a, x);
      GotoFollowed(flows, m, node, a, x, m');
    } else {
      AsksIsText(steps[n]);
      BranchFollowed(flows, steps, keys, n, m, node, a, x, m');
    }
  }

  lemma AsksIsText(step: FlowStep)
    ensures Asks(step) ==> step.messageType == Text
  {
  }

  lemma GotoIsGoto(flows: Flows, step: FlowStep, m: Machine, node: Node<NodeKind>, a: Answers, x: Exec)
    requires NodeFits(step, node) && step.messageType == GotoFlow && Answered(flows, node.kind, m.s, m.i, a, x)
    ensures GotoAnswered(flows, m.s, m.i, a, x)
  {
  }

  lemma Standing(steps: seq<FlowStep>, keys: seq<seq<string>>, n: nat, m: Machine)
    requires AtStep(steps, keys, n, m)
    ensures RunsOn(m)
  {
  }

  /** The same at every visit of a migrated step in any conversation. */
  lemma ConversationFollowsTheAnswers(flows: Flows, row: Session, inbox: seq<Message>, j: nat, steps: seq<FlowStep>, keys: seq<seq<string>>)
    returns (ms: seq<Machine>, end: Machine)
    requires j < |inbox|
    requires var r := RowAfter(flows, row, inbox[..j]); r.flow in flows && flows[r.flow].graph.Some?
    ensures Played(flows, inbox[j].world, 0, ms) && Concluded(inbox[j].world, ms[|ms| - 1], end)
    ensures Begun(flows, RowAfter(flows, row, inbox[..j]), inbox[j], ms[0])
    ensures RowAfter(flows, row, inbox[..j + 1]) == end.saved
    ensures forall k, n :: 0 <= k < |ms| - 1 && 0 <= n && AtStep(steps, keys, n, ms[k]) && !inbox[j].world(k).skip
                           ==> LegacyTurn(flows, steps, n, ms[k], inbox[j].world(k), ms[k + 1])
  {
    hide Begun, Concluded, Turned, LegacyTurn;
    ms, end := ConversationAnswered(flows, row, inbox, j);
    forall k, n | 0 <= k < |ms| - 1 && 0 <= n && AtStep(steps, keys, n, ms[k]) && !inbox[j].world(k).skip
      ensures LegacyTurn(flows, steps, n, ms[k], inbox[j].world(k), ms[k + 1])
    {
      hide AtStep;
      assert Turned(flows, ms[k], inbox[j].world(0 + k), ms[k + 1]);
      LegacyFollowed(flows, steps, keys, n, ms[k], inbox[j].world(k), ms[k + 1]);
    }
  }

  // ----- What text steps do -----

  /**
   An inbound that comes to a text step that asks for input, and brings none or has spent it,
   ends there: it is the step the row is left at, to be answered by the next inbound.
   */
  lemma AskingStepWaits(flows: Flows, world: nat -> Answers, ms: seq<Machine>, end: Machine,
                        steps: seq<FlowStep>, keys: seq<seq<string>>, n: nat, k: nat)
    requires Played(flows, world, 0, ms) && Concluded(world, ms[|ms| - 1], end)
    requires k < |ms| - 1 && AtStep(steps, keys, n, ms[k]) && !world(k).skip
    requires Asks(steps[n]) && (ms[k].i.text == "" || ms[k].i.consumed)
    ensures |ms| == k + 2 && end == ms[k + 1] && (end.halt == Done || end.halt == NodeFailed)
    ensures end.s.step == steps[n].name && end.s.completed == ms[k].s.completed
    ensures !world(k).saveFails ==> end.saved.step == steps[n].name && end.saved.flow == ms[k].s.flow
  {
    hide AtStep, Turned, Asks;
    assert Turned(flows, ms[k], world(0 + k), ms[k + 1]);
    AskingRests(flows, steps, keys, n, ms[k], world(k), ms[k + 1]);
    assert ms[k + 1].halt != Running;
  }

  lemma AskingRests(flows: Flows, steps: seq<FlowStep>, keys: seq<seq<string>>, n: nat, m: Machine, a: Answers, m': Machine)
    requires AtStep(steps, keys, n, m) && !a.skip && Turned(flows, m, a, m')
    requires Asks(steps[n]) && (m.i.text == "" || m.i.consumed)
    ensures Rests(m, a, m.s.completed, m') && m.s.step == steps[n].name
  {
    assert m.s.step == steps[n].name && Over(steps[n], m.i, a, m.s.retries) == false;
    hide AtStep, Turned, Onward, Rests, Proceeds, ReplyHeeded;
    LegacyFollowed(flows, steps, keys, n, m, a, m');
  }

  /** A text step that only says something never waits: it is recorded as "default" and the run goes on. */
  lemma PlainStepGoesOn(flows: Flows, steps: seq<FlowStep>, keys: seq<seq<string>>, n: nat, m: Machine, a: Answers, m': Machine)
    requires AtStep(steps, keys, n, m) && !a.skip && Turned(flows, m, a, m')
    requires steps[n].messageType == Text && !Asks(steps[n])
    ensures if a.hasText && a.sendFails then m'.halt == NodeFailed else Proceeds(m, InSequence(steps, n), m')
    ensures !(a.hasText && a.sendFails) ==>
              Path(m'.s.data) == Path(m.s.data) + [Visit(steps[n].name, MessageNode, "default")]
  {
    assert RunsOn(m) by { Standing(steps, keys, n, m); }
    NodeAtStep(steps, keys, n, m);
    EdgesAtStep(steps, keys, n, m, a);
    hide AtStep, FindNode, InSequence, Resolve;
    var node := FindNode(m.graph.nodes, m.s.step).value;
    assert node.kind == MessageNode;
    var x :| Answered(flows, node.kind, m.s, m.i, a, x) && Recorded(flows, m, node, a, x, m');
  }

  // ----- Rejections in a row -----

  /** The row waits at this prompt of its flow. */
  predicate AtPrompt(flows: Flows, row: Session, node: Node<NodeKind>) {
    && row.step != "" && node.kind == PromptNode && Parsed(flows, row.flow).Some?
    && FindNode(Parsed(flows, row.flow).value.nodes, row.step) == Some(node)
  }

  /** The reply does not match the prompt's expression; `limit` is its max_retries. */
  predicate Rejects(msg: Message, limit: int) {
    msg.text != "" && msg.world(0).rejected && msg.world(0).maxRetries == limit && !msg.world(0).skip && !msg.world(0).saveFails
  }

  /** What the turn at the prompt leaves after a reply that was rejected. */
  predicate AfterRejection(flows: Flows, row: Session, limit: int, fails: bool, m: Machine)
    requires Parsed(flows, row.flow).Some?
  {
    var edges := Parsed(flows, row.flow).value.edges;
    if row.retries + 1 < limit then
      && m.halt == (if fails then NodeFailed else Done) && m.saved == m.s
      && m.s.retries == row.retries + 1 && m.s.step == row.step && m.s.flow == row.flow && m.s.completed == row.completed
      && Path(m.s.data) == Path(row.data) + if fails then [] else [Visit(row.step, PromptNode, "")]
    else
      && m.s.retries == 0 && Path(m.s.data) == Path(row.data) + [Visit(row.step, PromptNode, "max_retries")]
      && (if Resolve(edges, row.step, "max_retries") != "" then m.halt == Running && m.s.step == Resolve(edges, row.step, "max_retries")
          else m.halt == Done && m.s.completed)
  }

  lemma PromptTurn(flows: Flows, row: Session, msg: Message, limit: int, node: Node<NodeKind>)
    requires AtPrompt(flows, row, node) && Rejects(msg, limit)
    ensures AfterRejection(flows, row, limit, msg.world(0).sendFails, OneNode(flows, Begin(flows, row, msg), msg.world(0)))
  {
    var m, a := Begin(flows, row, msg), msg.world(0);
    EveryBeginning(flows, row, msg);
    SeedsKeepTrail(row, msg);
    NodeNamed(flows, row, node);
    hide FindNode, Resolve;
    ExecutedAsAnswered(flows, PromptNode, m.s, m.i, a);
    hide Execute, Begun;
    assert m.s.step == row.step && m.i.text == msg.text && !m.i.consumed && m.s.retries == row.retries;
  }

  lemma NodeNamed(flows: Flows, row: Session, node: Node<NodeKind>)
    requires AtPrompt(flows, row, node)
    ensures node.id == row.step
  {
    FindNodeIff(Parsed(flows, row.flow).value.nodes, row.step);
  }

  /** While the limit is not reached the row counts the rejections and stays at the prompt. */
  lemma {:induction false} RejectionsCounted(flows: Flows, row: Session, inbox: seq<Message>, limit: int, node: Node<NodeKind>)
    requires AtPrompt(flows, row, node) && row.retries == 0 && (inbox == [] || |inbox| < limit)
    requires forall n :: 0 <= n < |inbox| ==> Rejects(inbox[n], limit)
    ensures var r := RowAfter(flows, row, inbox);
            r.retries == |inbox| && r.step == row.step && r.flow == row.flow && r.completed == row.completed
  {
    if inbox != [] {
      hide AfterRejection;
      var before, msg := inbox[..|inbox| - 1], inbox[|inbox| - 1];
      RejectionsCounted(flows, row, before, limit, node);
      var r := RowAfter(flows, row, before);
      hide RowAfter;
      PromptTurn(flows, r, msg, limit, node);
      StoppedAtOnce(flows, r, msg, limit, node);
    }
  }

  lemma StoppedAtOnce(flows: Flows, row: Session, msg: Message, limit: int, node: Node<NodeKind>)
    requires AtPrompt(flows, row, node) && Rejects(msg, limit) && row.retries + 1 < limit
    ensures var r := Inbound(flows, row, msg).saved;
            r.retries == row.retries + 1 && r.step == row.step && r.flow == row.flow && r.completed == row.completed
  {
    PromptTurn(flows, row, msg, limit, node);
    hide OneNode, FindNode;
  }

  /**
   Any run of rejections, sent or not: "max_retries" is reported at the rejection that reaches the
   limit and at none before, and the count starts over.
   */
  lemma NthRejection(flows: Flows, row: Session, inbox: seq<Message>, limit: int, node: Node<NodeKind>)
    requires AtPrompt(flows, row, node) && row.retries == 0 && inbox != []
    requires |inbox| == 1 || |inbox| <= limit
    requires forall n :: 0 <= n < |inbox| ==> Rejects(inbox[n], limit)
    ensures var r, last := RowAfter(flows, row, inbox[..|inbox| - 1]), inbox[|inbox| - 1];
            && r.retries == |inbox| - 1 && AtPrompt(flows, r, node)
            && AfterRejection(flows, r, limit, last.world(0).sendFails, OneNode(flows, Begin(flows, r, last), last.world(0)))
  {
    hide AfterRejection, RowAfter, OneNode, Begin;
    RejectionsCounted(flows, row, inbox[..|inbox| - 1], limit, node);
    assert |inbox| == 1 ==> inbox[..0] == [];
    PromptTurn(flows, RowAfter(flows, row, inbox[..|inbox| - 1]), inbox[|inbox| - 1], limit, node);
  }
}
