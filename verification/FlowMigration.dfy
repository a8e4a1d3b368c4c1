/**
 Compilation of a legacy chatbot flow (an ordered list of steps) into a flow graph
 (internal/handlers/chatbot_flow_migration.go).

 `LegacyNext` says, on the legacy step list alone, which step follows which. The main
 theorem, `CompiledSuccessor`, says that resolving an executor's outcome on the compiled
 graph gives that step, whatever order Go's map iteration happens to use.
 */
module FlowMigration {
  import opened Wrappers
  import opened FlowGraph

  // ----- Legacy steps -----

  datatype MessageType =
    | Text | Buttons | End | Condition | Timing | GotoFlow | ApiFetch | WhatsAppFlow | Transfer
    | Unsupported(name: string)

  datatype NodeKind =
    | StartNode | MessageNode | PromptNode | ButtonsNode | EndNode | ConditionNode | TimingNode
    | GotoFlowNode | ApiCallNode | WhatsAppFlowNode | TransferNode
    | SetVariableNode | AIResponseNode | WebhookNode | UnknownNode(name: string)

  /** A decoded JSON value, as far as the compiler looks at it. */
  datatype Json = Str(s: string) | OtherJson

  datatype Button = NotAnObject | Object(id: Json)

  datatype FlowStep = FlowStep(
    name: string,
    order: int,
    messageType: MessageType,
    inputType: string,
    storeAs: string,
    validationRegex: string,
    nextStep: string,
    conditionalNext: map<string, Json>,
    buttons: seq<Button>)

  const START_ID := "__start__"

  /** A failed type assertion to string yields "". */
  function AsString(j: Json): string { match j case Str(s) => s case OtherJson => "" }

  function ButtonId(b: Button): string { match b case Object(id) => AsString(id) case NotAnObject => "" }

  function BranchTarget(step: FlowStep, key: string): string {
    if key in step.conditionalNext then AsString(step.conditionalNext[key]) else ""
  }

  predicate Supported(m: MessageType) { !m.Unsupported? }

  predicate TextStepCapturesInput(step: FlowStep) {
    (step.inputType != "" && step.inputType != "none") || step.storeAs != "" || step.validationRegex != ""
  }

  function KindOf(step: FlowStep): NodeKind {
    match step.messageType
    case Text => if TextStepCapturesInput(step) then PromptNode else MessageNode
    case Buttons => ButtonsNode
    case End => EndNode
    case Condition => ConditionNode
    case Timing => TimingNode
    case GotoFlow => GotoFlowNode
    case ApiFetch => ApiCallNode
    case WhatsAppFlow => WhatsAppFlowNode
    case Transfer => TransferNode
    case Unsupported(n) => UnknownNode(n)
  }

  // ----- Reference: the legacy successor -----

  /** Step `a` comes before step `b`: smaller order, or the same order and listed earlier. */
  predicate Precedes(steps: seq<FlowStep>, a: nat, b: nat)
    requires a < |steps| && b < |steps|
  {
    steps[a].order < steps[b].order || (steps[a].order == steps[b].order && a < b)
  }

  /** `b` follows `a` with no step in between. */
  predicate Follows(steps: seq<FlowStep>, a: nat, b: nat)
    requires a < |steps| && b < |steps|
  {
    && Precedes(steps, a, b)
    && forall c :: 0 <= c < |steps| && Precedes(steps, a, c) ==> c == b || Precedes(steps, b, c)
  }

  ghost function NextByOrder(steps: seq<FlowStep>, a: nat): string
    requires a < |steps|
  {
    if exists b :: 0 <= b < |steps| && Follows(steps, a, b)
    then var b :| 0 <= b < |steps| && Follows(steps, a, b); steps[b].name
    else ""
  }

  predicate IsStep(steps: seq<FlowStep>, name: string) {
    exists i :: 0 <= i < |steps| && steps[i].name == name
  }

  ghost function IfStep(steps: seq<FlowStep>, name: string): string {
    if name != "" && IsStep(steps, name) then name else ""
  }

  predicate AmongButtons(buttons: seq<Button>, id: string) {
    exists k :: 0 <= k < |buttons| && ButtonId(buttons[k]) == id
  }

  predicate HasButton(step: FlowStep, id: string) { AmongButtons(step.buttons, id) }

  /** What an executor of the compiled node can report when it moves on. */
  datatype Outcome = Plain | MaxRetries | Http2xx | HttpNon2xx | ButtonPress(id: string)
                   | Branch(taken: bool) | Hours(inside: bool) | Jump | Nothing

  function OutcomeName(o: Outcome): string {
    match o
    case Plain => DEFAULT
    case MaxRetries => "max_retries"
    case Http2xx => "http:2xx"
    case HttpNon2xx => "http:non2xx"
    case ButtonPress(id) => "button:" + id
    case Branch(t) => if t then "true" else "false"
    case Hours(inside) => if inside then "in_hours" else "out_of_hours"
    case Jump => "goto"
    case Nothing => ""
  }

  /** The outcomes of each node kind (chatbot_graph_runner.go, executors that do not yield). */
  predicate CanReport(kind: NodeKind, o: Outcome) {
    match kind
    case StartNode | MessageNode | WhatsAppFlowNode | SetVariableNode | AIResponseNode | WebhookNode => o == Plain
    case PromptNode => o == Plain || o == MaxRetries
    case ApiCallNode => o == Http2xx || o == HttpNon2xx
    case ButtonsNode => o.ButtonPress? && o.id != ""
    case ConditionNode => o.Branch?
    case TimingNode => o.Hours?
    case GotoFlowNode => o == Jump || o == Nothing
    case EndNode => o == Nothing
    case TransferNode | UnknownNode(_) => false
  }

  ghost function LegacyNext(steps: seq<FlowStep>, a: nat, o: Outcome): string
    requires a < |steps|
  {
    var step := steps[a];
    match step.messageType
    case Text | ApiFetch | WhatsAppFlow =>
      IfStep(steps, if step.nextStep != "" then step.nextStep else NextByOrder(steps, a))
    case Buttons =>
      if !o.ButtonPress? then ""
      else if BranchTarget(step, o.id) != "" then IfStep(steps, BranchTarget(step, o.id))
      else if HasButton(step, o.id) then NextByOrder(steps, a)
      else ""
    case Condition | Timing => IfStep(steps, BranchTarget(step, OutcomeName(o)))
    case End | GotoFlow | Transfer | Unsupported(_) => ""
  }

  // ----- Compilation: ordering -----

  /** Inserts `i`, the newest index, after every index whose order is not larger. */
  function InsertIndex(steps: seq<FlowStep>, idx: seq<nat>, i: nat): seq<nat>
    requires i < |steps| && forall k :: 0 <= k < |idx| ==> idx[k] < |steps|
  {
    if idx == [] then [i]
    else if steps[idx[|idx| - 1]].order <= steps[i].order then idx + [i]
    else InsertIndex(steps, idx[..|idx| - 1], i) + [idx[|idx| - 1]]
  }

  predicate Ordered(steps: seq<FlowStep>, idx: seq<nat>) {
    && (forall k :: 0 <= k < |idx| ==> idx[k] < |steps|)
    && (forall j, k :: 0 <= j < k < |idx| ==> Precedes(steps, idx[j], idx[k]))
  }

  lemma {:induction false} InsertIndexContents(steps: seq<FlowStep>, idx: seq<nat>, i: nat)
    requires i < |steps| && forall k :: 0 <= k < |idx| ==> idx[k] < |steps|
    ensures |InsertIndex(steps, idx, i)| == |idx| + 1
    ensures forall x :: x in InsertIndex(steps, idx, i) <==> x in idx || x == i
  {
    if idx != [] {
      assert idx == idx[..|idx| - 1] + [idx[|idx| - 1]];
      InsertIndexContents(steps, idx[..|idx| - 1], i);
    }
  }

  lemma OrderedSnoc(steps: seq<FlowStep>, idx: seq<nat>, x: nat)
    requires Ordered(steps, idx) && x < |steps|
    requires forall y :: y in idx ==> Precedes(steps, y, x)
    ensures Ordered(steps, idx + [x])
  {
    var r := idx + [x];
    forall j, k | 0 <= j < k < |r| ensures Precedes(steps, r[j], r[k]) {
      assert r[j] == idx[j];
      assert idx[j] in idx;
    }
  }

  lemma {:induction false} InsertIndexOrdered(steps: seq<FlowStep>, idx: seq<nat>, i: nat)
    requires i < |steps| && Ordered(steps, idx) && forall k :: 0 <= k < |idx| ==> idx[k] < i
    ensures forall x :: x in InsertIndex(steps, idx, i) ==> x < |steps|
    ensures Ordered(steps, InsertIndex(steps, idx, i))
  {
    InsertIndexContents(steps, idx, i);
    if idx != [] {
      var n := |idx| - 1;
      if steps[idx[n]].order <= steps[i].order {
        forall y | y in idx ensures Precedes(steps, y, i) {
          var j :| 0 <= j < |idx| && idx[j] == y;
          assert j < n ==> Precedes(steps, idx[j], idx[n]);
        }
        OrderedSnoc(steps, idx, i);
      } else {
        assert Ordered(steps, idx[..n]);
        InsertIndexOrdered(steps, idx[..n], i);
        InsertIndexContents(steps, idx[..n], i);
        forall y | y in InsertIndex(steps, idx[..n], i) ensures Precedes(steps, y, idx[n]) {
          if y != i { var j :| 0 <= j < n && idx[j] == y; }
        }
        OrderedSnoc(steps, InsertIndex(steps, idx[..n], i), idx[n]);
      }
    }
  }

  /** sort.SliceStable by StepOrder, as the sequence of original positions. */
  function StableOrder(steps: seq<FlowStep>, n: nat): (idx: seq<nat>)
    requires n <= |steps|
    ensures |idx| == n && Ordered(steps, idx)
    ensures forall x :: x in idx <==> 0 <= x < n
  {
    if n == 0 then [] else
    var before := StableOrder(steps, n - 1);
    InsertIndexFacts(steps, before, n - 1);
    InsertIndex(steps, before, n - 1)
  }

  lemma InsertIndexFacts(steps: seq<FlowStep>, idx: seq<nat>, i: nat)
    requires i < |steps| && |idx| == i && Ordered(steps, idx) && forall x :: x in idx <==> 0 <= x < i
    ensures forall k :: 0 <= k < |idx| ==> idx[k] < |steps|
    ensures var r := InsertIndex(steps, idx, i);
            |r| == i + 1 && Ordered(steps, r) && forall x :: x in r <==> 0 <= x < i + 1
  {
    assert forall k :: 0 <= k < |idx| ==> idx[k] in idx;
    InsertIndexOrdered(steps, idx, i);
    InsertIndexContents(steps, idx, i);
    hide InsertIndex, Ordered;
  }

  lemma PlaceOf(steps: seq<FlowStep>, i: nat) returns (k: nat)
    requires i < |steps|
    ensures k < |steps| && StableOrder(steps, |steps|)[k] == i
  {
    var idx := StableOrder(steps, |steps|);
    assert i in idx;
    k :| 0 <= k < |idx| && idx[k] == i;
  }

  lemma PlacesOrdered(steps: seq<FlowStep>, j: nat, k: nat)
    requires j < |steps| && k < |steps|
    ensures var idx := StableOrder(steps, |steps|); Precedes(steps, idx[j], idx[k]) <==> j < k
  {
    OrderedPlaces(steps, StableOrder(steps, |steps|), j, k);
  }

  lemma OrderedPlaces(steps: seq<FlowStep>, idx: seq<nat>, j: nat, k: nat)
    requires Ordered(steps, idx) && j < |idx| && k < |idx|
    ensures Precedes(steps, idx[j], idx[k]) <==> j < k
  {}

  lemma NeighbourFollows(steps: seq<FlowStep>, k: nat)
    requires k + 1 < |steps|
    ensures var idx := StableOrder(steps, |steps|); Follows(steps, idx[k], idx[k + 1])
  {
    var idx := StableOrder(steps, |steps|);
    PlacesOrdered(steps, k, k + 1);
    forall c | 0 <= c < |steps| && Precedes(steps, idx[k], c)
      ensures c == idx[k + 1] || Precedes(steps, idx[k + 1], c)
    {
      var j := PlaceOf(steps, c);
      PlacesOrdered(steps, k, j);
      PlacesOrdered(steps, k + 1, j);
    }
  }

  lemma FollowerUnique(steps: seq<FlowStep>, a: nat, b: nat, c: nat)
    requires a < |steps| && b < |steps| && c < |steps|
    requires Follows(steps, a, b) && Follows(steps, a, c)
    ensures b == c
  {}

  /** The neighbour in the sorted list is the step that follows. */
  lemma SortedNeighbour(steps: seq<FlowStep>, k: nat)
    requires k < |steps|
    ensures var idx := StableOrder(steps, |steps|);
            NextByOrder(steps, idx[k]) == if k + 1 < |idx| then steps[idx[k + 1]].name else ""
  {
    var idx := StableOrder(steps, |steps|);
    var a := idx[k];
    if k + 1 < |idx| {
      NeighbourFollows(steps, k);
      forall b | 0 <= b < |steps| && Follows(steps, a, b) ensures b == idx[k + 1] {
        FollowerUnique(steps, a, b, idx[k + 1]);
      }
    } else {
      forall c | 0 <= c < |steps| ensures !Precedes(steps, a, c) {
        var j := PlaceOf(steps, c);
        PlacesOrdered(steps, k, j);
      }
    }
  }

  // ----- Compilation: edges -----

  /** Go iterates a map in an unspecified order: any listing of its keys. */
  ghost predicate Lists(keys: seq<string>, m: map<string, Json>) {
    forall k :: k in keys <==> k in m
  }

  function ButtonCondition(id: string): string { "button:" + id }

  /** Edges for buttons with a target of their own (lines 381-392). */
  function MappedEdges(step: FlowStep, names: set<string>, keys: seq<string>): seq<Edge> {
    if keys == [] then []
    else
      var k := keys[|keys| - 1];
      var before := MappedEdges(step, names, keys[..|keys| - 1]);
      var target := BranchTarget(step, k);
      if target != "" && target in names then before + [Edge(step.name, target, ButtonCondition(k))] else before
  }

  predicate FallsThrough(step: FlowStep, id: string) { id != "" && BranchTarget(step, id) == "" }

  /** Edges for the remaining buttons (lines 397-412). */
  function FallThroughEdges(step: FlowStep, next: string, buttons: seq<Button>): seq<Edge> {
    if buttons == [] then []
    else
      var id := ButtonId(buttons[|buttons| - 1]);
      var before := FallThroughEdges(step, next, buttons[..|buttons| - 1]);
      if FallsThrough(step, id) then before + [Edge(step.name, next, ButtonCondition(id))] else before
  }

  function ButtonsEdges(step: FlowStep, next: string, names: set<string>, keys: seq<string>): seq<Edge> {
    MappedEdges(step, names, keys)
    + if next != "" && next in names then FallThroughEdges(step, next, step.buttons) else []
  }

  function BranchEdges(step: FlowStep, handles: seq<string>, names: set<string>): seq<Edge> {
    if handles == [] then []
    else
      var h := handles[|handles| - 1];
      var before := BranchEdges(step, handles[..|handles| - 1], names);
      var target := BranchTarget(step, h);
      if target != "" && target in names then before + [Edge(step.name, target, h)] else before
  }

  function SequentialEdges(step: FlowStep, next: string, names: set<string>): seq<Edge> {
    var target := if step.nextStep == "" then next else step.nextStep;
    if target != "" && target in names then [Edge(step.name, target, DEFAULT)] else []
  }

  const BRANCH_HANDLES := ["true", "false"]
  const HOURS_HANDLES := ["in_hours", "out_of_hours"]

  function StepEdges(step: FlowStep, next: string, names: set<string>, keys: seq<string>): seq<Edge> {
    match step.messageType
    case Buttons => ButtonsEdges(step, next, names, keys)
    case Condition => BranchEdges(step, BRANCH_HANDLES, names)
    case Timing => BranchEdges(step, HOURS_HANDLES, names)
    case Transfer | End | GotoFlow => []
    case Text | ApiFetch | WhatsAppFlow | Unsupported(_) => SequentialEdges(step, next, names)
  }

  function NextName(sorted: seq<FlowStep>, i: nat): string { if i + 1 < |sorted| then sorted[i + 1].name else "" }

  /** `keys[i]` is the order in which step i's button targets are visited. */
  function BuildEdges(sorted: seq<FlowStep>, names: set<string>, keys: seq<seq<string>>, n: nat): seq<Edge>
    requires n <= |sorted| && |keys| == |sorted|
  {
    if n == 0 then []
    else BuildEdges(sorted, names, keys, n - 1)
         + StepEdges(sorted[n - 1], NextName(sorted, n - 1), names, keys[n - 1])
  }

  function NameSet(steps: seq<FlowStep>): set<string> { set s | s in steps :: s.name }

  function NodeOf(step: FlowStep): Node<NodeKind> { Node(step.name, KindOf(step), step.name) }

  function SortedSteps(steps: seq<FlowStep>): (r: seq<FlowStep>)
    ensures |r| == |steps|
  {
    var idx := StableOrder(steps, |steps|);
    seq(|idx|, k requires 0 <= k < |idx| => assert idx[k] in idx; steps[idx[k]])
  }

  const START_NODE: Node<NodeKind> := Node(START_ID, StartNode, "Start")

  function CompiledNodes(sorted: seq<FlowStep>): seq<Node<NodeKind>> {
    [START_NODE] + seq(|sorted|, i requires 0 <= i < |sorted| => NodeOf(sorted[i]))
  }

  predicate Compilable(steps: seq<FlowStep>) {
    steps != [] && forall i :: 0 <= i < |steps| ==> Supported(steps[i].messageType)
  }

  /** The kind of node each legacy step becomes; a text step asks for input when it says where to put or how to check it. */
  predicate NodeFits(step: FlowStep, node: Node<NodeKind>) {
    && node.id == step.name
    && (node.kind == PromptNode <==>
          step.messageType == Text
          && ((step.inputType != "" && step.inputType != "none") || step.storeAs != "" || step.validationRegex != ""))
    && (node.kind == MessageNode <==>
          step.messageType == Text
          && (step.inputType == "" || step.inputType == "none") && step.storeAs == "" && step.validationRegex == "")
    && (node.kind == ButtonsNode <==> step.messageType == Buttons)
    && (node.kind == EndNode <==> step.messageType == End)
    && (node.kind == ConditionNode <==> step.messageType == Condition)
    && (node.kind == TimingNode <==> step.messageType == Timing)
    && (node.kind == GotoFlowNode <==> step.messageType == GotoFlow)
    && (node.kind == ApiCallNode <==> step.messageType == ApiFetch)
    && (node.kind == WhatsAppFlowNode <==> step.messageType == WhatsAppFlow)
    && (node.kind == TransferNode <==> step.messageType == Transfer)
    && (node.kind.UnknownNode? <==> step.messageType.Unsupported?)
  }

  lemma NodesFit(sorted: seq<FlowStep>)
    ensures |CompiledNodes(sorted)| == |sorted| + 1 && CompiledNodes(sorted)[0] == START_NODE
    ensures forall k :: 0 <= k < |sorted| ==> NodeFits(sorted[k], CompiledNodes(sorted)[k + 1])
  {
    hide NodeFits, KindOf;
    forall k | 0 <= k < |sorted| ensures NodeFits(sorted[k], CompiledNodes(sorted)[k + 1]) { NodeOfFits(sorted[k]); }
  }

  lemma NodeOfFits(step: FlowStep)
    ensures NodeFits(step, NodeOf(step))
  {
  }

  /** The graph stepsToGraph stores; the caller's map iteration orders are `keys`. */
  function Compile(steps: seq<FlowStep>, keys: seq<seq<string>>): GraphData<NodeKind>
    requires steps != [] && |keys| == |steps|
  {
    var sorted := SortedSteps(steps);
    GraphData(2,
              CompiledNodes(sorted),
              [Edge(START_ID, sorted[0].name, DEFAULT)] + BuildEdges(sorted, NameSet(sorted), keys, |sorted|),
              START_ID)
  }

  ghost predicate KeysListed(sorted: seq<FlowStep>, keys: seq<seq<string>>) {
    |keys| == |sorted| && forall i :: 0 <= i < |sorted| ==> Lists(keys[i], sorted[i].conditionalNext)
  }

  // ----- Which edges belong to which step -----

  lemma {:induction false} MappedEdgesFrom(step: FlowStep, names: set<string>, keys: seq<string>)
    ensures forall e :: e in MappedEdges(step, names, keys) ==> e.from == step.name && e.to in names
  {
    if keys != [] { MappedEdgesFrom(step, names, keys[..|keys| - 1]); }
  }

  lemma {:induction false} FallThroughEdgesFrom(step: FlowStep, next: string, buttons: seq<Button>)
    ensures forall e :: e in FallThroughEdges(step, next, buttons) ==> e.from == step.name && e.to == next
  {
    if buttons != [] { FallThroughEdgesFrom(step, next, buttons[..|buttons| - 1]); }
  }

  lemma {:induction false} BranchEdgesFrom(step: FlowStep, handles: seq<string>, names: set<string>)
    ensures forall e :: e in BranchEdges(step, handles, names) ==> e.from == step.name && e.to in names
  {
    if handles != [] { BranchEdgesFrom(step, handles[..|handles| - 1], names); }
  }

  lemma StepEdgesFrom(step: FlowStep, next: string, names: set<string>, keys: seq<string>)
    ensures forall e :: e in StepEdges(step, next, names, keys) ==> e.from == step.name && e.to in names
  {
    MappedEdgesFrom(step, names, keys);
    FallThroughEdgesFrom(step, next, step.buttons);
    BranchEdgesFrom(step, BRANCH_HANDLES, names);
    BranchEdgesFrom(step, HOURS_HANDLES, names);
  }

  lemma {:induction false} OutOfAllOrNone(edges: seq<Edge>, owner: string, from: string)
    requires forall e :: e in edges ==> e.from == owner
    ensures OutOf(edges, from) == if from == owner then edges else []
  {
    if edges != [] {
      var n := |edges| - 1;
      assert edges[n] in edges && edges == edges[..n] + [edges[n]];
      OutOfAllOrNone(edges[..n], owner, from);
    }
  }

  predicate DistinctNames(steps: seq<FlowStep>) {
    forall i, j :: 0 <= i < j < |steps| ==> steps[i].name != steps[j].name
  }

  lemma NamesDiffer(steps: seq<FlowStep>, i: nat, j: nat)
    requires DistinctNames(steps) && i < |steps| && j < |steps| && i != j
    ensures steps[i].name != steps[j].name
  {
    if i < j { assert steps[i].name != steps[j].name; } else { assert steps[j].name != steps[i].name; }
  }

  lemma OutOfAppend(before: seq<Edge>, last: seq<Edge>, owner: string, name: string)
    requires forall e :: e in last ==> e.from == owner
    ensures OutOf(before + last, name) == if name == owner then OutOf(before, name) + last else OutOf(before, name)
  {
    OutOfConcat(before, last, name);
    OutOfAllOrNone(last, owner, name);
    assert OutOf(before, name) + [] == OutOf(before, name);
  }

  function EdgesAt(sorted: seq<FlowStep>, names: set<string>, keys: seq<seq<string>>, i: nat): seq<Edge>
    requires i < |sorted| && |keys| == |sorted|
  {
    StepEdges(sorted[i], NextName(sorted, i), names, keys[i])
  }

  lemma BuildEdgesStep(sorted: seq<FlowStep>, names: set<string>, keys: seq<seq<string>>, n: nat, name: string)
    requires 0 < n <= |sorted| && |keys| == |sorted|
    ensures var before := OutOf(BuildEdges(sorted, names, keys, n - 1), name);
            OutOf(BuildEdges(sorted, names, keys, n), name)
              == if name == sorted[n - 1].name then before + EdgesAt(sorted, names, keys, n - 1) else before
  {
    hide StepEdges;
    hide OutOf;
    StepEdgesFrom(sorted[n - 1], NextName(sorted, n - 1), names, keys[n - 1]);
    OutOfAppend(BuildEdges(sorted, names, keys, n - 1), EdgesAt(sorted, names, keys, n - 1), sorted[n - 1].name, name);
  }

  /** The edges of all steps called `name`, in sorted order. */
  function GroupEdges(sorted: seq<FlowStep>, names: set<string>, keys: seq<seq<string>>, n: nat, name: string): seq<Edge>
    requires n <= |sorted| && |keys| == |sorted|
  {
    if n == 0 then []
    else
      var before := GroupEdges(sorted, names, keys, n - 1, name);
      if name == sorted[n - 1].name then before + EdgesAt(sorted, names, keys, n - 1) else before
  }

  lemma {:induction false} OutOfBuildEdges(sorted: seq<FlowStep>, names: set<string>, keys: seq<seq<string>>, n: nat, name: string)
    requires n <= |sorted| && |keys| == |sorted|
    ensures OutOf(BuildEdges(sorted, names, keys, n), name) == GroupEdges(sorted, names, keys, n, name)
  {
    if n > 0 {
      hide BuildEdges, EdgesAt, OutOf;
      OutOfBuildEdges(sorted, names, keys, n - 1, name);
      BuildEdgesStep(sorted, names, keys, n, name);
    } else {
      assert BuildEdges(sorted, names, keys, 0) == [];
    }
  }

  /** With distinct names every group is one step. */
  lemma {:induction false} GroupOfOne(sorted: seq<FlowStep>, names: set<string>, keys: seq<seq<string>>, n: nat, i: nat)
    requires n <= |sorted| && i < |sorted| && |keys| == |sorted| && DistinctNames(sorted)
    ensures GroupEdges(sorted, names, keys, n, sorted[i].name) == if i < n then EdgesAt(sorted, names, keys, i) else []
  {
    hide DistinctNames, EdgesAt;
    if n > 0 {
      GroupOfOne(sorted, names, keys, n - 1, i);
      if i != n - 1 {
        NamesDiffer(sorted, i, n - 1);
      } else {
        assert [] + EdgesAt(sorted, names, keys, i) == EdgesAt(sorted, names, keys, i);
      }
    }
  }

  lemma {:induction false} BuildEdgesTargets(sorted: seq<FlowStep>, names: set<string>, keys: seq<seq<string>>, n: nat)
    requires n <= |sorted| && |keys| == |sorted|
    ensures forall e :: e in BuildEdges(sorted, names, keys, n) ==> e.to in names
    ensures forall e :: e in BuildEdges(sorted, names, keys, n) ==> e.from in NameSet(sorted)
  {
    if n > 0 {
      BuildEdgesTargets(sorted, names, keys, n - 1);
      StepEdgesFrom(sorted[n - 1], NextName(sorted, n - 1), names, keys[n - 1]);
    }
  }

  // ----- Resolving within one step's edges -----

  lemma ButtonConditions(a: string, b: string)
    ensures ButtonCondition(a) == ButtonCondition(b) <==> a == b
    ensures ButtonCondition(a) != DEFAULT
  {
    assert ButtonCondition(a)[0] == 'b' && DEFAULT[0] == 'd';
    assert ButtonCondition(a)[7..] == a && ButtonCondition(b)[7..] == b;
  }

  lemma {:induction false} MappedEdgesResolve(step: FlowStep, names: set<string>, keys: seq<string>, id: string)
    ensures LastDefault(MappedEdges(step, names, keys), step.name) == None
    ensures FirstExact(MappedEdges(step, names, keys), step.name, ButtonCondition(id))
         == if id in keys && BranchTarget(step, id) != "" && BranchTarget(step, id) in names
            then Some(BranchTarget(step, id)) else None
  {
    hide ButtonCondition;
    if keys != [] {
      var k := keys[|keys| - 1];
      var before := keys[..|keys| - 1];
      MappedEdgesResolve(step, names, before, id);
      assert keys == before + [k];
      ButtonConditions(k, id);
      var e := Edge(step.name, BranchTarget(step, k), ButtonCondition(k));
      FirstExactConcat(MappedEdges(step, names, before), [e], step.name, ButtonCondition(id));
      LastDefaultSnoc(MappedEdges(step, names, before), e, step.name);
    }
  }

  lemma AmongButtonsSnoc(buttons: seq<Button>, id: string)
    requires buttons != []
    ensures AmongButtons(buttons, id)
       <==> ButtonId(buttons[|buttons| - 1]) == id || AmongButtons(buttons[..|buttons| - 1], id)
  {
    var n := |buttons| - 1;
    if k :| 0 <= k < |buttons| && ButtonId(buttons[k]) == id { assert k < n ==> buttons[..n][k] == buttons[k]; }
    if k :| 0 <= k < n && ButtonId(buttons[..n][k]) == id { assert buttons[k] == buttons[..n][k]; }
  }

  lemma AmongNoButtons(id: string)
    ensures !AmongButtons([], id)
  {}

  lemma {:induction false} FallThroughResolve(step: FlowStep, next: string, buttons: seq<Button>, id: string)
    ensures LastDefault(FallThroughEdges(step, next, buttons), step.name) == None
    ensures FirstExact(FallThroughEdges(step, next, buttons), step.name, ButtonCondition(id))
         == if FallsThrough(step, id) && AmongButtons(buttons, id) then Some(next) else None
  {
    hide ButtonCondition;
    hide ButtonId;
    hide AmongButtons;
    AmongNoButtons(id);
    if buttons != [] {
      var n := |buttons| - 1;
      var last := ButtonId(buttons[n]);
      var before := buttons[..n];
      FallThroughResolve(step, next, before, id);
      ButtonConditions(last, id);
      var e := Edge(step.name, next, ButtonCondition(last));
      FirstExactConcat(FallThroughEdges(step, next, before), [e], step.name, ButtonCondition(id));
      LastDefaultSnoc(FallThroughEdges(step, next, before), e, step.name);
      AmongButtonsSnoc(buttons, id);
    }
  }

  lemma {:induction false} LastDefaultConcat(a: seq<Edge>, b: seq<Edge>, from: string)
    requires LastDefault(b, from) == None
    ensures LastDefault(a + b, from) == LastDefault(a, from)
    decreases |b|
  {
    if b == [] {
      assert a + b == a;
    } else {
      var n := |b| - 1;
      assert a + b == (a + b[..n]) + [b[n]];
      LastDefaultSnoc(a + b[..n], b[n], from);
      LastDefaultConcat(a, b[..n], from);
    }
  }

  /** A pressed button: its own target, else the next step, else nothing. */
  lemma ButtonsResolve(step: FlowStep, next: string, names: set<string>, keys: seq<string>, id: string)
    requires Lists(keys, step.conditionalNext) && id != "" && (next != "" ==> next in names)
    ensures Resolve(ButtonsEdges(step, next, names, keys), step.name, ButtonCondition(id))
         == if BranchTarget(step, id) != "" then
              (if BranchTarget(step, id) in names then BranchTarget(step, id) else "")
            else if HasButton(step, id) then next
            else ""
  {
    var mapped := MappedEdges(step, names, keys);
    var rest := if next != "" && next in names then FallThroughEdges(step, next, step.buttons) else [];
    MappedEdgesResolve(step, names, keys, id);
    FallThroughResolve(step, next, step.buttons, id);
    FirstExactConcat(mapped, rest, step.name, ButtonCondition(id));
    LastDefaultConcat(mapped, rest, step.name);
  }

  lemma BranchResolve(step: FlowStep, yes: string, no: string, names: set<string>, o: string)
    requires yes != no && yes != DEFAULT && no != DEFAULT && (o == yes || o == no)
    ensures Resolve(BranchEdges(step, [yes, no], names), step.name, o)
         == if BranchTarget(step, o) != "" && BranchTarget(step, o) in names then BranchTarget(step, o) else ""
  {
    assert [yes, no][..1] == [yes] && [yes][..0] == [];
    var first := BranchEdges(step, [yes], names);
    assert BranchEdges(step, [], names) == [];
    var e := Edge(step.name, BranchTarget(step, no), no);
    FirstExactConcat(first, [e], step.name, o);
    LastDefaultSnoc(first, e, step.name);
  }

  lemma SequentialResolve(step: FlowStep, next: string, names: set<string>, o: string)
    ensures var target := if step.nextStep != "" then step.nextStep else next;
            Resolve(SequentialEdges(step, next, names), step.name, o)
              == if target != "" && target in names then target else ""
  {
    var target := if step.nextStep == "" then next else step.nextStep;
    if target != "" && target in names {
      var e := Edge(step.name, target, DEFAULT);
      LastDefaultSnoc([], e, step.name);
      assert [] + [e] == [e];
      assert FirstExact([e], step.name, o) == if o == DEFAULT then Some(target) else FirstExact([e][1..], step.name, o);
    }
  }

  // ----- The compiled graph means the legacy flow -----

  lemma SortedNames(steps: seq<FlowStep>, name: string)
    ensures name in NameSet(SortedSteps(steps)) <==> IsStep(steps, name)
  {
    var idx := StableOrder(steps, |steps|);
    var sorted := SortedSteps(steps);
    if i :| 0 <= i < |steps| && steps[i].name == name {
      var k := PlaceOf(steps, i);
      assert sorted[k] == steps[i] && sorted[k] in sorted;
    }
    if name in NameSet(sorted) {
      var s :| s in sorted && s.name == name;
      var k :| 0 <= k < |sorted| && sorted[k] == s;
      assert idx[k] in idx && steps[idx[k]].name == name;
    }
  }

  lemma SortedDistinct(steps: seq<FlowStep>)
    requires DistinctNames(steps)
    ensures DistinctNames(SortedSteps(steps))
  {
    var idx := StableOrder(steps, |steps|);
    var sorted := SortedSteps(steps);
    forall i, j | 0 <= i < j < |sorted| ensures sorted[i].name != sorted[j].name {
      assert idx[i] in idx && idx[j] in idx;
      PlacesOrdered(steps, i, j);
      assert idx[i] != idx[j];
    }
  }

  /** The edges compiled for a name: the sentinel's own, then those of every step that bears it. */
  function CompiledGroup(steps: seq<FlowStep>, keys: seq<seq<string>>, name: string): seq<Edge>
    requires steps != [] && |keys| == |steps|
  {
    var sorted := SortedSteps(steps);
    (if name == START_ID then [Edge(START_ID, sorted[0].name, DEFAULT)] else [])
    + GroupEdges(sorted, NameSet(sorted), keys, |sorted|, name)
  }

  /**
   For every step list, repeated and reserved names included, resolution on the compiled graph
   is resolution within the name's group: the first exact edge of any step that bears the name,
   else the last default edge of any.
   */
  lemma CompiledResolution(steps: seq<FlowStep>, keys: seq<seq<string>>, name: string, o: string)
    requires steps != [] && |keys| == |steps|
    ensures OutOf(Compile(steps, keys).edges, name) == CompiledGroup(steps, keys, name)
    ensures Resolve(Compile(steps, keys).edges, name, o) == Resolve(CompiledGroup(steps, keys, name), name, o)
  {
    hide GroupEdges, BuildEdges, Resolve;
    var sorted := SortedSteps(steps);
    var start := [Edge(START_ID, sorted[0].name, DEFAULT)];
    var body := BuildEdges(sorted, NameSet(sorted), keys, |sorted|);
    ResolveLocal(start + body, name, o);
    OutOfConcat(start, body, name);
    OutOfAllOrNone(start, START_ID, name);
    OutOfBuildEdges(sorted, NameSet(sorted), keys, |sorted|, name);
  }

  /** With distinct names none of them reserved, a group is one step's edges. */
  lemma CompiledLocally(steps: seq<FlowStep>, keys: seq<seq<string>>, k: nat, o: string)
    requires steps != [] && |keys| == |steps| && k < |steps|
    requires DistinctNames(steps) && !IsStep(steps, START_ID)
    ensures var sorted := SortedSteps(steps);
            Resolve(Compile(steps, keys).edges, sorted[k].name, o)
              == Resolve(StepEdges(sorted[k], NextName(sorted, k), NameSet(sorted), keys[k]), sorted[k].name, o)
  {
    hide StepEdges, GroupEdges, Resolve, Compile;
    var sorted := SortedSteps(steps);
    assert sorted[k] in sorted;
    SortedNames(steps, START_ID);
    SortedDistinct(steps);
    CompiledResolution(steps, keys, sorted[k].name, o);
    GroupOfOne(sorted, NameSet(sorted), keys, |sorted|, k);
    var own := StepEdges(sorted[k], NextName(sorted, k), NameSet(sorted), keys[k]);
    assert [] + own == own;
  }

  /**
   Meaning preservation. For every legacy step and every outcome its compiled node can
   report, the compiled graph leads to the legacy successor. The right-hand side does not
   mention `keys`, so map iteration order never matters.
   */
  lemma CompiledSuccessor(steps: seq<FlowStep>, keys: seq<seq<string>>, i: nat, o: Outcome)
    requires steps != [] && i < |steps|
    requires DistinctNames(steps) && !IsStep(steps, START_ID)
    requires KeysListed(SortedSteps(steps), keys)
    requires CanReport(KindOf(steps[i]), o)
    ensures Resolve(Compile(steps, keys).edges, steps[i].name, OutcomeName(o)) == LegacyNext(steps, i, o)
  {
    var k := PlaceOf(steps, i);
    PlacedResolves(steps, keys, i, k, o);
    hide SortedSteps, LegacyNext;
    CompiledLocally(steps, keys, k, OutcomeName(o));
  }

  lemma {:induction false} EarlierExactWins(sorted: seq<FlowStep>, names: set<string>, keys: seq<seq<string>>, m: nat, n: nat, name: string, o: string)
    requires m <= n <= |sorted| && |keys| == |sorted| && FirstExact(GroupEdges(sorted, names, keys, m, name), name, o).Some?
    ensures FirstExact(GroupEdges(sorted, names, keys, n, name), name, o) == FirstExact(GroupEdges(sorted, names, keys, m, name), name, o)
    decreases n - m
  {
    hide EdgesAt, FirstExact;
    if m < n {
      EarlierExactWins(sorted, names, keys, m, n - 1, name, o);
      FirstExactConcat(GroupEdges(sorted, names, keys, n - 1, name), EdgesAt(sorted, names, keys, n - 1), name, o);
    }
  }

  lemma PlacedStep(steps: seq<FlowStep>, i: nat, k: nat)
    requires i < |steps| && k < |steps| && StableOrder(steps, |steps|)[k] == i
    ensures var sorted := SortedSteps(steps);
            && sorted[k] == steps[i] && NextName(sorted, k) == NextByOrder(steps, i)
            && (NextName(sorted, k) != "" ==> NextName(sorted, k) in NameSet(sorted))
  {
    hide NextByOrder, StableOrder, SortedSteps, NameSet;
    SortedNeighbour(steps, k);
    SortedAt(steps, k);
    if k + 1 < |steps| { SortedAt(steps, k + 1); }
    NextIsNamed(SortedSteps(steps), k);
  }

  lemma SortedAt(steps: seq<FlowStep>, k: nat)
    requires k < |steps|
    ensures StableOrder(steps, |steps|)[k] < |steps| && SortedSteps(steps)[k] == steps[StableOrder(steps, |steps|)[k]]
  {
    hide StableOrder;
    assert StableOrder(steps, |steps|)[k] in StableOrder(steps, |steps|);
  }

  lemma NextIsNamed(sorted: seq<FlowStep>, k: nat)
    requires k < |sorted|
    ensures NextName(sorted, k) != "" ==> NextName(sorted, k) in NameSet(sorted)
  {
    if k + 1 < |sorted| { assert sorted[k + 1] in sorted; }
  }

  /** A step's own edges lead to its legacy successor, whatever the other steps are called. */
  lemma PlacedResolves(steps: seq<FlowStep>, keys: seq<seq<string>>, i: nat, k: nat, o: Outcome)
    requires i < |steps| && k < |steps| && StableOrder(steps, |steps|)[k] == i
    requires KeysListed(SortedSteps(steps), keys) && CanReport(KindOf(steps[i]), o)
    ensures var sorted := SortedSteps(steps);
            sorted[k] == steps[i]
            && Resolve(EdgesAt(sorted, NameSet(sorted), keys, k), steps[i].name, OutcomeName(o)) == LegacyNext(steps, i, o)
  {
    hide SortedSteps, StableOrder, LegacyNext, StepEdges, OutcomeName, Resolve, CanReport, NextByOrder, NameSet, Lists, NextName, KindOf;
    PlacedStep(steps, i, k);
    var sorted := SortedSteps(steps);
    assert Lists(keys[k], sorted[k].conditionalNext);
    StepResolves(steps, i, NameSet(sorted), NextName(sorted, k), keys[k], o);
  }

  /** What the steps of the same name before place `k` have for an outcome. */
  function EarlierTarget(steps: seq<FlowStep>, keys: seq<seq<string>>, k: nat, name: string, o: Outcome): Option<string>
    requires |keys| == |steps| && k <= |steps|
  {
    var sorted := SortedSteps(steps);
    FirstExact(GroupEdges(sorted, NameSet(sorted), keys, k, name), name, OutcomeName(o))
  }

  /**
   Repeated names: a step that has an edge of its own for an outcome keeps its legacy successor
   if and only if no earlier step of the name has an edge for that outcome that leads elsewhere.
   */
  lemma RepeatedNameIff(steps: seq<FlowStep>, keys: seq<seq<string>>, i: nat, k: nat, o: Outcome)
    requires i < |steps| && k < |steps| && StableOrder(steps, |steps|)[k] == i && steps[i].name != START_ID
    requires KeysListed(SortedSteps(steps), keys) && CanReport(KindOf(steps[i]), o)
    requires var sorted := SortedSteps(steps);
             FirstExact(EdgesAt(sorted, NameSet(sorted), keys, k), steps[i].name, OutcomeName(o)).Some?
    ensures var earlier := EarlierTarget(steps, keys, k, steps[i].name, o);
            Resolve(Compile(steps, keys).edges, steps[i].name, OutcomeName(o)) == LegacyNext(steps, i, o)
            <==> earlier.None? || earlier.value == LegacyNext(steps, i, o)
  {
    PlacedResolves(steps, keys, i, k, o);
    hide SortedSteps, StableOrder, EdgesAt, LegacyNext, FirstExact, CanReport, OutcomeName, KeysListed, Compile, GroupEdges, Resolve;
    var sorted, name := SortedSteps(steps), steps[i].name;
    var all := GroupEdges(sorted, NameSet(sorted), keys, |sorted|, name);
    CompiledResolution(steps, keys, name, OutcomeName(o));
    assert [] + all == all;
    GroupIff(sorted, NameSet(sorted), keys, k, name, OutcomeName(o), LegacyNext(steps, i, o));
  }

  /** The edges of the steps called `name` from place `k` on. */
  function LaterEdges(sorted: seq<FlowStep>, names: set<string>, keys: seq<seq<string>>, k: nat, n: nat, name: string): seq<Edge>
    requires k <= n <= |sorted| && |keys| == |sorted|
    decreases n - k
  {
    if n == k then []
    else
      var before := LaterEdges(sorted, names, keys, k, n - 1, name);
      if name == sorted[n - 1].name then before + EdgesAt(sorted, names, keys, n - 1) else before
  }

  lemma {:induction false} GroupSplits(sorted: seq<FlowStep>, names: set<string>, keys: seq<seq<string>>, k: nat, n: nat, name: string)
    requires k <= n <= |sorted| && |keys| == |sorted|
    ensures GroupEdges(sorted, names, keys, n, name)
            == GroupEdges(sorted, names, keys, k, name) + LaterEdges(sorted, names, keys, k, n, name)
    decreases n - k
  {
    hide EdgesAt;
    if k < n { GroupSplits(sorted, names, keys, k, n - 1, name); }
  }

  function Either(a: Option<string>, b: Option<string>): Option<string> { if a.Some? then a else b }

  lemma {:induction false} LastDefaultAppend(a: seq<Edge>, b: seq<Edge>, from: string)
    ensures LastDefault(a + b, from) == Either(LastDefault(b, from), LastDefault(a, from))
    decreases |b|
  {
    if b == [] {
      assert a + b == a;
    } else {
      var n := |b| - 1;
      assert a + b == (a + b[..n]) + [b[n]];
      LastDefaultSnoc(a + b[..n], b[n], from);
      LastDefaultAppend(a, b[..n], from);
    }
  }

  /** The sentinel's edge, if the name is reserved, and the edges of the steps of that name before place `k`. */
  function EarlierEdges(steps: seq<FlowStep>, keys: seq<seq<string>>, k: nat, name: string): seq<Edge>
    requires steps != [] && |keys| == |steps| && k <= |steps|
  {
    var sorted := SortedSteps(steps);
    (if name == START_ID then [Edge(START_ID, sorted[0].name, DEFAULT)] else [])
    + GroupEdges(sorted, NameSet(sorted), keys, k, name)
  }

  /** The first exact edge of three lists, else the last default edge. */
  function FirstOfThree(before: seq<Edge>, own: seq<Edge>, after: seq<Edge>, name: string, o: string): string {
    var hit := Either(FirstExact(before, name, o), Either(FirstExact(own, name, o), FirstExact(after, name, o)));
    var fall := Either(LastDefault(after, name), Either(LastDefault(own, name), LastDefault(before, name)));
    if hit.Some? then hit.value else Target(fall)
  }

  /**
   Every step, name and reportable outcome, with or without an edge of the step's own, reserved
   name included. The step's own edges lead to its legacy successor; the compiled successor is
   the legacy one if and only if the first exact edge among the earlier, its own and the later
   steps of the name leads there too, or, if there is none, the last default edge among them.
   */
  lemma SharedNameIff(steps: seq<FlowStep>, keys: seq<seq<string>>, i: nat, k: nat, o: Outcome)
    requires i < |steps| && k < |steps| && StableOrder(steps, |steps|)[k] == i
    requires KeysListed(SortedSteps(steps), keys) && CanReport(KindOf(steps[i]), o)
    ensures var name, own := steps[i].name, OwnEdges(steps, keys, k);
            && Resolve(own, name, OutcomeName(o)) == LegacyNext(steps, i, o)
            && (Resolve(Compile(steps, keys).edges, name, OutcomeName(o)) == LegacyNext(steps, i, o)
                <==> FirstOfThree(EarlierEdges(steps, keys, k, name), own, RestEdges(steps, keys, k, name), name, OutcomeName(o))
                     == LegacyNext(steps, i, o))
  {
    PlacedResolves(steps, keys, i, k, o);
    GroupInThree(steps, keys, k, steps[i].name);
    CompiledResolution(steps, keys, steps[i].name, OutcomeName(o));
    hide SortedSteps, StableOrder, LegacyNext, CanReport, OutcomeName, KeysListed, Compile, Resolve, FirstOfThree, EarlierEdges, RestEdges, CompiledGroup;
    ResolveThree(EarlierEdges(steps, keys, k, steps[i].name), OwnEdges(steps, keys, k), RestEdges(steps, keys, k, steps[i].name),
                 steps[i].name, OutcomeName(o));
  }

  function OwnEdges(steps: seq<FlowStep>, keys: seq<seq<string>>, k: nat): seq<Edge>
    requires |keys| == |steps| && k < |steps|
  {
    var sorted := SortedSteps(steps);
    EdgesAt(sorted, NameSet(sorted), keys, k)
  }

  function RestEdges(steps: seq<FlowStep>, keys: seq<seq<string>>, k: nat, name: string): seq<Edge>
    requires |keys| == |steps| && k < |steps|
  {
    var sorted := SortedSteps(steps);
    LaterEdges(sorted, NameSet(sorted), keys, k + 1, |sorted|, name)
  }

  lemma GroupInThree(steps: seq<FlowStep>, keys: seq<seq<string>>, k: nat, name: string)
    requires |keys| == |steps| && k < |steps| && SortedSteps(steps)[k].name == name
    ensures CompiledGroup(steps, keys, name)
            == EarlierEdges(steps, keys, k, name) + (OwnEdges(steps, keys, k) + RestEdges(steps, keys, k, name))
  {
    hide SortedSteps, EdgesAt, LaterEdges;
    var sorted := SortedSteps(steps);
    GroupSplits(sorted, NameSet(sorted), keys, k + 1, |sorted|, name);
    OneMoreOfGroup(sorted, NameSet(sorted), keys, k, name);
    hide GroupEdges, NameSet;
  }

  lemma OneMoreOfGroup(sorted: seq<FlowStep>, names: set<string>, keys: seq<seq<string>>, k: nat, name: string)
    requires k < |sorted| && |keys| == |sorted| && sorted[k].name == name
    ensures GroupEdges(sorted, names, keys, k + 1, name) == GroupEdges(sorted, names, keys, k, name) + EdgesAt(sorted, names, keys, k)
  {
    hide EdgesAt;
  }

  lemma ResolveThree(before: seq<Edge>, own: seq<Edge>, after: seq<Edge>, name: string, o: string)
    ensures Resolve(before + (own + after), name, o) == FirstOfThree(before, own, after, name, o)
  {
    hide FirstExact, LastDefault;
    FirstExactConcat(before, own + after, name, o);
    FirstExactConcat(own, after, name, o);
    LastDefaultAppend(before, own + after, name);
    LastDefaultAppend(own, after, name);
  }

  lemma GroupIff(sorted: seq<FlowStep>, names: set<string>, keys: seq<seq<string>>, k: nat, name: string, o: string, next: string)
    requires k < |sorted| && |keys| == |sorted| && sorted[k].name == name
    requires FirstExact(EdgesAt(sorted, names, keys, k), name, o).Some?
    requires Resolve(EdgesAt(sorted, names, keys, k), name, o) == next
    ensures var earlier := FirstExact(GroupEdges(sorted, names, keys, k, name), name, o);
            Resolve(GroupEdges(sorted, names, keys, |sorted|, name), name, o) == next <==> earlier.None? || earlier.value == next
  {
    hide EdgesAt, FirstExact, LastDefault;
    FirstExactConcat(GroupEdges(sorted, names, keys, k, name), EdgesAt(sorted, names, keys, k), name, o);
    EarlierExactWins(sorted, names, keys, k + 1, |sorted|, name, o);
  }

  lemma StepResolves(steps: seq<FlowStep>, i: nat, names: set<string>, next: string, keys: seq<string>, o: Outcome)
    requires i < |steps| && names == NameSet(SortedSteps(steps))
    requires next == NextByOrder(steps, i) && (next != "" ==> next in names)
    requires Lists(keys, steps[i].conditionalNext)
    requires CanReport(KindOf(steps[i]), o)
    ensures Resolve(StepEdges(steps[i], next, names, keys), steps[i].name, OutcomeName(o)) == LegacyNext(steps, i, o)
  {
    var step := steps[i];
    match step.messageType
    case Buttons =>
      ButtonsResolve(step, next, names, keys, o.id);
      SortedNames(steps, BranchTarget(step, o.id));
    case Condition =>
      BranchResolve(step, "true", "false", names, OutcomeName(o));
      SortedNames(steps, BranchTarget(step, OutcomeName(o)));
    case Timing =>
      BranchResolve(step, "in_hours", "out_of_hours", names, OutcomeName(o));
      SortedNames(steps, BranchTarget(step, OutcomeName(o)));
    case Text | ApiFetch | WhatsAppFlow =>
      SequentialResolve(step, next, names, OutcomeName(o));
      SortedNames(steps, if step.nextStep != "" then step.nextStep else next);
    case _ =>
  }

  /** The sentinel leads to the first step by order. */
  lemma StartSuccessor(steps: seq<FlowStep>, keys: seq<seq<string>>, first: nat)
    requires steps != [] && |keys| == |steps| && first < |steps|
    requires forall c :: 0 <= c < |steps| && c != first ==> Precedes(steps, first, c)
    ensures Resolve(Compile(steps, keys).edges, START_ID, DEFAULT) == steps[first].name
  {
    var sorted := SortedSteps(steps);
    var k := PlaceOf(steps, first);
    PlacesOrdered(steps, k, 0);
    assert StableOrder(steps, |steps|)[0] == first;
    var start := [Edge(START_ID, sorted[0].name, DEFAULT)];
    FirstExactConcat(start, BuildEdges(sorted, NameSet(sorted), keys, |sorted|), START_ID, DEFAULT);
  }

  lemma CompiledNode(steps: seq<FlowStep>, keys: seq<seq<string>>, name: string)
    requires steps != [] && |keys| == |steps|
    requires name in NameSet(SortedSteps(steps)) || name == START_ID
    ensures FindNode(Compile(steps, keys).nodes, name).Some?
  {
    var sorted := SortedSteps(steps);
    var nodes := Compile(steps, keys).nodes;
    FindNodeIff(nodes, name);
    if name == START_ID {
      assert nodes[0].id == name;
    } else {
      var s :| s in sorted && s.name == name;
      var k :| 0 <= k < |sorted| && sorted[k] == s;
      assert nodes[k + 1].id == name;
    }
  }

  /** With distinct names, none reserved, a step's node is the one compiled from it. */
  lemma CompiledNodeKind(steps: seq<FlowStep>, keys: seq<seq<string>>, i: nat)
    requires steps != [] && |keys| == |steps| && i < |steps| && DistinctNames(steps) && !IsStep(steps, START_ID)
    ensures FindNode(Compile(steps, keys).nodes, steps[i].name) == Some(NodeOf(steps[i]))
  {
    var k := PlaceOf(steps, i);
    SortedAt(steps, k);
    SortedDistinct(steps);
    hide SortedSteps, StableOrder;
    LastOfName(SortedSteps(steps), |steps|, k);
  }

  /** The node found under a step's name is of the kind the step calls for. */
  lemma CompiledKinds(steps: seq<FlowStep>, keys: seq<seq<string>>, i: nat)
    requires steps != [] && |keys| == |steps| && i < |steps| && DistinctNames(steps) && !IsStep(steps, START_ID)
    ensures FindNode(Compile(steps, keys).nodes, steps[i].name).Some?
    ensures NodeFits(steps[i], FindNode(Compile(steps, keys).nodes, steps[i].name).value)
  {
    CompiledNodeKind(steps, keys, i);
    NodeOfFits(steps[i]);
  }

  lemma {:induction false} LastOfName(sorted: seq<FlowStep>, n: nat, k: nat)
    requires k < n <= |sorted| && DistinctNames(sorted)
    ensures FindNode(CompiledNodes(sorted)[..n + 1], sorted[k].name) == Some(NodeOf(sorted[k]))
    ensures CompiledNodes(sorted)[..|sorted| + 1] == CompiledNodes(sorted)
  {
    var nodes := CompiledNodes(sorted);
    assert nodes[..n + 1][..n] == nodes[..n];
    assert nodes[n] == NodeOf(sorted[n - 1]);
    if k < n - 1 {
      NamesDiffer(sorted, k, n - 1);
      LastOfName(sorted, n - 1, k);
    }
  }

  /** Every compiled graph is accepted by the graph parser and its edges never dangle. */
  lemma CompiledIsRunnable(steps: seq<FlowStep>, keys: seq<seq<string>>)
    requires steps != [] && |keys| == |steps|
    ensures ParserAccepts(Compile(steps, keys))
    ensures EdgesClosed(Compile(steps, keys))
  {
    var sorted := SortedSteps(steps);
    var g := Compile(steps, keys);
    CompiledNode(steps, keys, START_ID);
    BuildEdgesTargets(sorted, NameSet(sorted), keys, |sorted|);
    forall e | e in g.edges ensures FindNode(g.nodes, e.to).Some? {
      assert sorted[0] in sorted;
      CompiledNode(steps, keys, e.to);
    }
  }

  lemma {:induction false} AlreadySorted(steps: seq<FlowStep>, n: nat)
    requires n <= |steps| && forall i, j :: 0 <= i < j < |steps| ==> steps[i].order < steps[j].order
    ensures StableOrder(steps, n) == seq(n, i => i)
  {
    if n > 0 { AlreadySorted(steps, n - 1); }
  }

  /** The compiled graph and the legacy list disagree about this step and outcome. */
  ghost predicate Disagrees(steps: seq<FlowStep>, keys: seq<seq<string>>, i: nat, o: Outcome)
    requires steps != [] && i < |steps| && |keys| == |steps|
  {
    && !IsStep(steps, START_ID) && KeysListed(SortedSteps(steps), keys) && CanReport(KindOf(steps[i]), o)
    && Resolve(Compile(steps, keys).edges, steps[i].name, OutcomeName(o)) != LegacyNext(steps, i, o)
  }

  const TWINS: seq<FlowStep> :=
    [FlowStep("a", 1, Text, "", "", "", "b", map[], []),
     FlowStep("a", 2, Text, "", "", "", "a", map[], []),
     FlowStep("b", 3, End, "", "", "", "", map[], [])]

  lemma TwinsSorted()
    ensures SortedSteps(TWINS) == TWINS
  {
    AlreadySorted(TWINS, 3);
  }

  lemma FirstEdge(sorted: seq<FlowStep>, names: set<string>, keys: seq<seq<string>>, n: nat)
    requires 0 < n <= |sorted| && |keys| == |sorted|
    ensures StepEdges(sorted[0], NextName(sorted, 0), names, keys[0]) <= BuildEdges(sorted, names, keys, n)
  {
    hide StepEdges;
    if n > 1 { FirstEdge(sorted, names, keys, n - 1); }
  }

  lemma TwinsCompiled(keys: seq<seq<string>>)
    requires |keys| == 3
    ensures var edges := Compile(TWINS, keys).edges;
            |edges| >= 2 && edges[0] == Edge(START_ID, "a", DEFAULT) && edges[1] == Edge("a", "b", DEFAULT)
  {
    TwinsSorted();
    hide SortedSteps;
    var names := NameSet(TWINS);
    assert TWINS[2] in TWINS && "b" in names;
    FirstEdge(TWINS, names, keys, 3);
    hide BuildEdges;
    assert SequentialEdges(TWINS[0], "a", names) == [Edge("a", "b", DEFAULT)];
  }

  /** With two steps of the same name the edges of one shadow the other's: the premise is needed. */
  lemma DuplicateNamesBreakIt()
    ensures Disagrees(TWINS, [[], [], []], 1, Plain)
  {
    hide Compile;
    hide SortedSteps;
    var keys: seq<seq<string>> := [[], [], []];
    TwinsCompiled(keys);
    TwinsSorted();
    var edges := Compile(TWINS, keys).edges;
    assert edges == [edges[0]] + ([edges[1]] + edges[2..]);
    FirstExactConcat([edges[0]], [edges[1]] + edges[2..], "a", DEFAULT);
    FirstExactConcat([edges[1]], edges[2..], "a", DEFAULT);
    assert TWINS[0].name == "a" && LegacyNext(TWINS, 1, Plain) == "a";
    assert START_ID[0] == '_' && "a"[0] == 'a';
  }

  /** A step with the reserved name becomes its own successor when it comes first. */
  lemma ReservedNameBreaksIt()
    ensures DistinctNames(RESERVED) && CanReport(KindOf(RESERVED[0]), Plain)
    ensures Resolve(Compile(RESERVED, [[], []]).edges, RESERVED[0].name, OutcomeName(Plain)) != LegacyNext(RESERVED, 0, Plain)
  {
    assert "b" != START_ID by { assert START_ID[0] == '_'; }
    assert RESERVED[1].name == "b";
    StartSuccessor(RESERVED, [[], []], 0);
  }

  const RESERVED: seq<FlowStep> :=
    [FlowStep(START_ID, 1, Text, "", "", "", "b", map[], []),
     FlowStep("b", 2, End, "", "", "", "", map[], [])]

  // ----- The compiler as code -----

  /** buttonsEdges, lines 378-392; `keys` records the iteration order the loop took. */
  method EmitMappedEdges(step: FlowStep, names: set<string>)
    returns (edges: seq<Edge>, mapped: set<string>, ghost keys: seq<string>)
    ensures Lists(keys, step.conditionalNext)
    ensures edges == MappedEdges(step, names, keys)
    ensures forall k :: k in mapped <==> BranchTarget(step, k) != ""
  {
    hide ButtonCondition;
    edges, mapped, keys := [], {}, [];
    var pending := step.conditionalNext.Keys;
    while pending != {}
      invariant pending <= step.conditionalNext.Keys
      invariant forall k :: k in keys <==> k in step.conditionalNext && k !in pending
      invariant edges == MappedEdges(step, names, keys)
      invariant forall k :: k in mapped <==> k in keys && BranchTarget(step, k) != ""
    {
      var id :| id in pending;
      pending := pending - {id};
      assert (keys + [id])[..|keys|] == keys;
      keys := keys + [id];
      var target := AsString(step.conditionalNext[id]);
      if target != "" {
        mapped := mapped + {id};
        if target in names {
          edges := edges + [Edge(step.name, target, ButtonCondition(id))];
        }
      }
    }
  }

  /** buttonsEdges, lines 394-415 */
  method EmitFallThroughEdges(step: FlowStep, next: string, mapped: set<string>) returns (edges: seq<Edge>)
    requires forall k :: k in mapped <==> BranchTarget(step, k) != ""
    ensures edges == FallThroughEdges(step, next, step.buttons)
  {
    hide ButtonCondition;
    edges := [];
    for j := 0 to |step.buttons|
      invariant edges == FallThroughEdges(step, next, step.buttons[..j])
    {
      assert step.buttons[..j + 1][..j] == step.buttons[..j];
      var id := ButtonId(step.buttons[j]);
      if id != "" && id !in mapped {
        edges := edges + [Edge(step.name, next, ButtonCondition(id))];
      }
    }
    assert step.buttons[..|step.buttons|] == step.buttons;
  }

  /** buttonsEdges */
  method EmitButtonsEdges(step: FlowStep, next: string, names: set<string>)
    returns (edges: seq<Edge>, ghost keys: seq<string>)
    ensures Lists(keys, step.conditionalNext)
    ensures edges == ButtonsEdges(step, next, names, keys)
  {
    var mapped;
    edges, mapped, keys := EmitMappedEdges(step, names);
    if next != "" && next in names {
      var rest := EmitFallThroughEdges(step, next, mapped);
      edges := edges + rest;
    }
  }

  /** branchEdges */
  method EmitBranchEdges(step: FlowStep, handles: seq<string>, names: set<string>) returns (edges: seq<Edge>)
    ensures edges == BranchEdges(step, handles, names)
  {
    edges := [];
    for j := 0 to |handles|
      invariant edges == BranchEdges(step, handles[..j], names)
    {
      assert handles[..j + 1][..j] == handles[..j];
      var target := BranchTarget(step, handles[j]);
      if target != "" && target in names {
        edges := edges + [Edge(step.name, target, handles[j])];
      }
    }
    assert handles[..|handles|] == handles;
  }

  /** buildEdges */
  method EmitEdges(sorted: seq<FlowStep>, names: set<string>) returns (edges: seq<Edge>, ghost keys: seq<seq<string>>)
    ensures KeysListed(sorted, keys)
    ensures edges == BuildEdges(sorted, names, keys, |sorted|)
  {
    hide StepEdges;
    edges, keys := [], [];
    ghost var all: seq<seq<string>> := seq(|sorted|, _ => []);
    for i := 0 to |sorted|
      invariant |all| == |sorted|
      invariant forall j :: 0 <= j < i ==> Lists(all[j], sorted[j].conditionalNext)
      invariant edges == BuildEdges(sorted, names, all, i)
    {
      var step := sorted[i];
      var next := if i < |sorted| - 1 then sorted[i + 1].name else "";
      var own: seq<Edge>;
      ghost var order: seq<string>;
      own, order := EmitStepEdges(step, next, names);
      BuildEdgesPrefix(sorted, names, all, all[i := order], i);
      all := all[i := order];
      edges := edges + own;
      assert Lists(all[i], sorted[i].conditionalNext);
    }
    keys := all;
  }

  /** buildEdges, the switch on the message type */
  method EmitStepEdges(step: FlowStep, next: string, names: set<string>)
    returns (edges: seq<Edge>, ghost keys: seq<string>)
    ensures Lists(keys, step.conditionalNext)
    ensures edges == StepEdges(step, next, names, keys)
  {
    keys :| Lists(keys, step.conditionalNext) by { ListingExists(step.conditionalNext); }
    match step.messageType
    case Buttons => edges, keys := EmitButtonsEdges(step, next, names);
    case Condition => edges := EmitBranchEdges(step, BRANCH_HANDLES, names);
    case Timing => edges := EmitBranchEdges(step, HOURS_HANDLES, names);
    case Transfer | End | GotoFlow => edges := [];
    case _ =>
      var target := if step.nextStep == "" then next else step.nextStep;
      edges := if target != "" && target in names then [Edge(step.name, target, DEFAULT)] else [];
  }

  lemma ListingExists(m: map<string, Json>)
    ensures exists keys :: Lists(keys, m)
  {
    var keys := ListKeys(m.Keys);
    assert Lists(keys, m);
  }

  lemma {:induction false} ListKeys(s: set<string>) returns (keys: seq<string>)
    ensures forall k :: k in keys <==> k in s
  {
    if s == {} {
      keys := [];
    } else {
      var k :| k in s;
      var rest := ListKeys(s - {k});
      keys := rest + [k];
    }
  }

  lemma {:induction false} BuildEdgesPrefix(sorted: seq<FlowStep>, names: set<string>, a: seq<seq<string>>, b: seq<seq<string>>, n: nat)
    requires n <= |sorted| && |a| == |b| == |sorted| && a[..n] == b[..n]
    ensures BuildEdges(sorted, names, a, n) == BuildEdges(sorted, names, b, n)
  {
    hide StepEdges;
    if n > 0 {
      assert a[n - 1] == a[..n][n - 1] == b[..n][n - 1] == b[n - 1];
      assert a[..n - 1] == a[..n][..n - 1] == b[..n][..n - 1] == b[..n - 1];
      BuildEdgesPrefix(sorted, names, a, b, n - 1);
    }
  }

  /** stepsToGraph: None for an empty list or an unsupported message type, else the compiled graph. */
  method StepsToGraph(steps: seq<FlowStep>) returns (g: Option<GraphData<NodeKind>>, ghost keys: seq<seq<string>>)
    ensures g.Some? <==> Compilable(steps)
    ensures g.Some? ==> KeysListed(SortedSteps(steps), keys) && g.value == Compile(steps, keys)
    ensures g.Some? ==>
              && g.value.version == 2 && g.value.entry == "__start__"
              && |g.value.nodes| == |steps| + 1 && g.value.nodes[0] == Node("__start__", StartNode, "Start")
              && forall k :: 0 <= k < |steps| ==> NodeFits(SortedSteps(steps)[k], g.value.nodes[k + 1])
  {
    NodesFit(SortedSteps(steps));
    hide BuildEdges, NodeFits;
    g, keys := None, [];
    if |steps| == 0 {
      return;
    }
    for i := 0 to |steps|
      invariant forall j :: 0 <= j < i ==> Supported(steps[j].messageType)
    {
      if !Supported(steps[i].messageType) {
        return;
      }
    }
    hide SortedSteps;
    var sorted := SortedSteps(steps);
    var nodes := EmitNodes(sorted);
    var edges;
    edges, keys := EmitEdges(sorted, NameSet(sorted));
    g := Some(GraphData(2, nodes, [Edge(START_ID, sorted[0].name, DEFAULT)] + edges, START_ID));
  }

  /** stepsToGraph, lines 113-139 and 148-154 */
  method EmitNodes(sorted: seq<FlowStep>) returns (nodes: seq<Node<NodeKind>>)
    ensures nodes == CompiledNodes(sorted)
  {
    nodes := [START_NODE];
    for i := 0 to |sorted|
      invariant |nodes| == i + 1 && nodes[0] == START_NODE
      invariant forall j :: 0 <= j < i ==> nodes[j + 1] == NodeOf(sorted[j])
    {
      nodes := nodes + [NodeOf(sorted[i])];
    }
  }
}
