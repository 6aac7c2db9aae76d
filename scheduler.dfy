/** The orchestrator's scheduling semantics as functions on its state: one scheduling
    pass, the launch of a node, the settling of an agent call and the loop-back rules.
    The `async` agent calls are sequentialised: a pass launches every ready node at once,
    recording an in-flight entry with the context snapshot the agent receives, and each
    in-flight call later settles on its own, in an order chosen by the caller. */
module Scheduler {
  import opened Wrappers
  import opened Json
  import opened Graph

  /** The names the constructor registers, one per agent class. */
  predicate Registered(name: string) {
    || name == "PlanningAgent" || name == "MarketIntelligenceAgent" || name == "PersonaModelingAgent"
    || name == "CreativeGenerationAgent" || name == "DecisionAgent" || name == "GuardrailsAgent"
    || name == "LearningAgent" || name == "CTRAgent" || name == "MemorabilityAgent"
    || name == "BrandAlignmentAgent"
  }

  /** An agent call that has started and not yet settled. */
  datatype Launch = Launch(key: string, input: map<string, Value>)

  /** A database write `saveArtifact` issues. */
  datatype Write =
    | AgentOutput(campaignId: Value, nodeId: string, data: map<string, Value>)
    | CreativeVariant(campaignId: Value, variant: Value)

  /** One call of a subscriber callback with an event. */
  datatype Delivery = Delivery(subscriber: nat, event: GraphEvent)

  /** The orchestrator's state while a graph is installed. Subscriber callbacks are
      identified by numbers. */
  datatype State = State(
    graph: TaskGraph,
    inFlight: seq<Launch>,
    subscribers: seq<nat>,
    events: seq<GraphEvent>,
    deliveries: seq<Delivery>,
    writes: seq<Write>)

  const MaxRetries := 3

  // ---------------------------------------------------------------- events

  function NodeEvent(kind: EventType, nodeId: string, data: Payload, now: string): GraphEvent {
    GraphEvent(kind, Some(nodeId), None, data, now)
  }

  function Signal(kind: EventType, now: string): GraphEvent {
    GraphEvent(kind, None, None, NoData, now)
  }

  function Fanout(subscribers: seq<nat>, e: GraphEvent): seq<Delivery> {
    seq(|subscribers|, i requires 0 <= i < |subscribers| => Delivery(subscribers[i], e))
  }

  /** `emit`: the event is logged and handed to every current subscriber in order. */
  function Emit(s: State, e: GraphEvent): State {
    s.(events := s.events + [e], deliveries := s.deliveries + Fanout(s.subscribers, e))
  }

  /** `subscribers.filter(s => s !== callback)`. */
  function Without(subscribers: seq<nat>, cb: nat): seq<nat> {
    if subscribers == [] then []
    else Without(subscribers[..|subscribers| - 1], cb)
         + (if subscribers[|subscribers| - 1] == cb then [] else [subscribers[|subscribers| - 1]])
  }

  // ---------------------------------------------------------------- readiness

  /** `node.dependencies.every(depId => nodes[depId]?.status === 'completed')`. */
  predicate DepsMet(nodes: map<string, TaskNode>, deps: seq<string>) {
    forall i | 0 <= i < |deps| :: deps[i] in nodes && nodes[deps[i]].status == Completed
  }

  predicate Ready(nodes: map<string, TaskNode>, key: string) {
    key in nodes && nodes[key].status == Idle && DepsMet(nodes, nodes[key].dependencies)
  }

  /** The executable nodes a pass collects, in enumeration order. */
  function ReadyKeys(keys: seq<string>, nodes: map<string, TaskNode>): (r: seq<string>)
    ensures forall k | k in r :: k in nodes
  {
    if keys == [] then []
    else ReadyKeys(keys[..|keys| - 1], nodes)
         + (if Ready(nodes, keys[|keys| - 1]) then [keys[|keys| - 1]] else [])
  }

  /** No enumerated node has a status other than completed. */
  predicate AllDone(keys: seq<string>, nodes: map<string, TaskNode>) {
    forall i | 0 <= i < |keys| :: keys[i] in nodes ==> nodes[keys[i]].status == Completed
  }

  /** Every in-flight call names a node of the graph. */
  predicate Keyed(s: State) {
    forall l | l in s.inFlight :: l.key in s.graph.nodes
  }

  function SetNode(s: State, key: string, n: TaskNode): State {
    s.(graph := s.graph.(nodes := s.graph.nodes[key := n]))
  }

  // ---------------------------------------------------------------- launching

  /** `executeNode` up to the agent call: an unregistered agent fails the node silently;
      otherwise the node runs, `node_start` is emitted and the agent gets the context. */
  function LaunchOne(s: State, key: string, now: string): (r: State)
    requires key in s.graph.nodes
    ensures r.graph.nodes.Keys == s.graph.nodes.Keys && r.graph.context == s.graph.context
    ensures Keyed(s) ==> Keyed(r)
  {
    var n := s.graph.nodes[key];
    if !Registered(n.agentName) then SetNode(s, key, n.(status := Failed))
    else
      var s1 := Emit(SetNode(s, key, n.(status := Running)), NodeEvent(NodeStart, n.id, NoData, now));
      s1.(inFlight := s1.inFlight + [Launch(key, s.graph.context)])
  }

  function LaunchAll(s: State, keys: seq<string>, now: string): (r: State)
    requires forall k | k in keys :: k in s.graph.nodes
    ensures r.graph.nodes.Keys == s.graph.nodes.Keys && r.graph.context == s.graph.context
    ensures Keyed(s) ==> Keyed(r)
  {
    if keys == [] then s
    else LaunchOne(LaunchAll(s, keys[..|keys| - 1], now), keys[|keys| - 1], now)
  }

  /** `runExecutionLoop`: with every node completed it emits `graph_complete`; otherwise
      it launches the nodes that were ready at the start of the pass. */
  function Pass(s: State, now: string): (r: State)
    ensures r.graph.nodes.Keys == s.graph.nodes.Keys && r.graph.context == s.graph.context
    ensures Keyed(s) ==> Keyed(r)
  {
    if AllDone(s.graph.order, s.graph.nodes) then Emit(s, Signal(GraphComplete, now))
    else LaunchAll(s, ReadyKeys(s.graph.order, s.graph.nodes), now)
  }

  // ---------------------------------------------------------------- resetting

  function ResetOne(s: State, id: string, now: string): (r: State)
    ensures r.graph.nodes.Keys == s.graph.nodes.Keys && r.graph.context == s.graph.context
    ensures r.inFlight == s.inFlight
  {
    if id in s.graph.nodes then
      Emit(SetNode(s, id, s.graph.nodes[id].(status := Idle, result := Undefined)), NodeEvent(NodeReset, id, NoData, now))
    else s
  }

  /** `resetNodes(ids)`: present nodes become idle with no result, one `node_reset` each. */
  function ResetAll(s: State, ids: seq<string>, now: string): (r: State)
    ensures r.graph.nodes.Keys == s.graph.nodes.Keys && r.graph.context == s.graph.context
    ensures r.inFlight == s.inFlight
  {
    if ids == [] then s
    else ResetOne(ResetAll(s, ids[..|ids| - 1], now), ids[|ids| - 1], now)
  }

  /** The nodes a regeneration sends back to idle. */
  function Cohort(): seq<string> {
    ["creative_generation", "evaluation_ctr", "evaluation_mem", "evaluation_brand", "decision", "guardrails"]
  }

  // ---------------------------------------------------------------- persistence

  /** The variants before the first null or undefined one: reading `variant.headline`
      of that one throws, which ends the loop over the variants. */
  function UntilNullish(vs: seq<Value>): seq<Value>
    decreases |vs|
  {
    if vs == [] || Nullish(vs[0]) then [] else [vs[0]] + UntilNullish(vs[1..])
  }

  /** The variant writes: one per variant before the first null or undefined one. */
  function VariantArtifacts(cid: Value, vs: seq<Value>): seq<Write> {
    var ok := UntilNullish(vs);
    seq(|ok|, i requires 0 <= i < |ok| => CreativeVariant(cid, ok[i]))
  }

  /** The writes `saveArtifact` issues: none without a truthy campaign id, else the
      agent output and, for creative generation, one write per variant up to the first
      null or undefined one. Database errors are logged and swallowed, so they do not
      appear here. */
  function Artifacts(nodeId: string, data: map<string, Value>, context: map<string, Value>): seq<Write> {
    var cid := Or(Get(data, "campaignId"), Get(context, "campaignId"));
    var vs := Get(data, "variants");
    if !Truthy(cid) then []
    else [AgentOutput(cid, nodeId, data)]
         + if nodeId == "creative_generation" && vs.Arr?
           then VariantArtifacts(cid, vs.items)
           else []
  }

  // ---------------------------------------------------------------- settling

  function Remove(xs: seq<Launch>, k: nat): (r: seq<Launch>)
    requires k < |xs|
    ensures forall l | l in r :: l in xs
  {
    xs[..k] + xs[k + 1..]
  }

  /** A completed result: the node completes with the data as its result, the data is
      merged over the context, `node_complete` is emitted and the artifact is saved. */
  function Complete(s: State, key: string, data: map<string, Value>, now: string): (r: State)
    requires key in s.graph.nodes
    ensures r.graph.nodes.Keys == s.graph.nodes.Keys && r.inFlight == s.inFlight
  {
    var n := s.graph.nodes[key];
    var context := s.graph.context + data;
    var s1 := s.(graph := TaskGraph(s.graph.order, s.graph.nodes[key := n.(status := Completed, result := Obj(data))], context));
    var s2 := Emit(s1, NodeEvent(NodeComplete, n.id, Fields(data), now));
    s2.(writes := s2.writes + Artifacts(n.id, data, context))
  }

  /** A failed result or a thrown error: the node fails and `node_fail` is emitted. */
  function Fail(s: State, key: string, payload: Payload, now: string): (r: State)
    requires key in s.graph.nodes
    ensures r.graph.nodes.Keys == s.graph.nodes.Keys && r.inFlight == s.inFlight
    ensures r.graph.context == s.graph.context
  {
    var n := s.graph.nodes[key];
    Emit(SetNode(s, key, n.(status := Failed)), NodeEvent(NodeFail, n.id, payload, now))
  }

  /** `[...currentRejected, failedId]`; spreading a value that is not iterable throws,
      which the surrounding `try` turns into a node failure. */
  function Reject(s: State, key: string, data: map<string, Value>, now: string): (r: State)
    requires key in s.graph.nodes
    ensures r.graph.nodes.Keys == s.graph.nodes.Keys && r.inFlight == s.inFlight
  {
    var context := s.graph.context;
    match SpreadItems(Or(Get(context, "rejected_variants"), Arr([])))
    case None => Fail(s, key, Thrown("currentRejected is not iterable"), now)
    case Some(items) =>
      var rejected := Arr(items + [Get(data, "failed_variant_id")]);
      ResetAll(s.(graph := s.graph.(context := context["rejected_variants" := rejected])), ["decision", "guardrails"], now)
  }

  /** `context.loop_count || 0`, read as an integer. */
  function LoopCount(context: map<string, Value>): int {
    var v := Or(Get(context, "loop_count"), Num(0));
    if v.Num? then v.n else 0
  }

  /** The regeneration ceiling: the node fails, the context records the error and
      `node_fail` is emitted for `decision`. */
  function GiveUp(s: State, key: string, now: string): (r: State)
    requires key in s.graph.nodes
    ensures r.graph.nodes.Keys == s.graph.nodes.Keys && r.inFlight == s.inFlight
  {
    var context := s.graph.context["error" := Str("Max retries exceeded. Unable to generate compliant creatives.")];
    var s1 := SetNode(s, key, s.graph.nodes[key].(status := Failed));
    Emit(s1.(graph := s1.graph.(context := context)),
         NodeEvent(NodeFail, "decision", Fields(map["error" := Str("Max Retries Exceeded")]), now))
  }

  /** A regeneration: the loop count goes up, the rejections are cleared and the cohort
      is reset. */
  function Regenerate(s: State, now: string): (r: State)
    ensures r.graph.nodes.Keys == s.graph.nodes.Keys && r.inFlight == s.inFlight
  {
    var context := s.graph.context["loop_count" := Num(LoopCount(s.graph.context) + 1)]["rejected_variants" := Arr([])];
    ResetAll(s.(graph := s.graph.(context := context)), Cohort(), now)
  }

  /** The control points after a completed result, in source order: the creative
      generation stop, the guardrails rejection and the decision's regeneration. */
  function AfterCompletion(s: State, key: string, data: map<string, Value>, now: string): (r: State)
    requires key in s.graph.nodes
    ensures r.graph.nodes.Keys == s.graph.nodes.Keys
    ensures Keyed(s) ==> Keyed(r)
  {
    var id := s.graph.nodes[key].id;
    if id == "creative_generation" then Emit(s, Signal(GraphComplete, now))
    else
      var s1 := if id == "guardrails" && Get(data, "passed") == Bool(false) then Reject(s, key, data, now) else s;
      if id == "decision" && Truthy(Get(data, "trigger_regeneration")) then
        if LoopCount(s1.graph.context) >= MaxRetries then GiveUp(s1, key, now)
        else Pass(Regenerate(s1, now), now)
      else Pass(s1, now)
  }

  /** The rest of `executeNode` once in-flight call `k` settles with `outcome`. */
  function Settle(s: State, k: nat, outcome: Outcome, now: string): (r: State)
    requires k < |s.inFlight| && Keyed(s)
    ensures r.graph.nodes.Keys == s.graph.nodes.Keys && Keyed(r)
  {
    var key := s.inFlight[k].key;
    assert s.inFlight[k] in s.inFlight;
    var s0 := s.(inFlight := Remove(s.inFlight, k));
    match outcome
    case Threw(m) => Pass(Fail(s0, key, Thrown(m), now), now)
    case Returned(res) =>
      if res.status != Completed then Pass(Fail(s0, key, FailedResult(res), now), now)
      else AfterCompletion(Complete(s0, key, res.data, now), key, res.data, now)
  }
}
