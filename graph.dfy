/** The scheduler's data: task nodes, a task graph with its shared context, agent
    results and the events the orchestrator publishes. */
module Graph {
  import opened Wrappers
  import opened Json

  datatype AgentStatus = Idle | Running | Completed | Failed

  /** One unit of work. `result` is `Undefined` until the node completes. */
  datatype TaskNode = TaskNode(
    id: string,
    agentName: string,
    dependencies: seq<string>,
    status: AgentStatus,
    inputContextKeys: seq<string>,
    outputContextKeys: seq<string>,
    result: Value)

  /** The node record with its key enumeration order, and the shared blackboard. */
  datatype TaskGraph = TaskGraph(order: seq<string>, nodes: map<string, TaskNode>, context: map<string, Value>)

  predicate Distinct(xs: seq<string>) {
    forall i, j :: 0 <= i < j < |xs| ==> xs[i] != xs[j]
  }

  /** `order` enumerates each key of the node record exactly once. */
  predicate WellFormed(order: seq<string>, nodes: map<string, TaskNode>) {
    Distinct(order) && (set k | k in order) == nodes.Keys
  }

  datatype AgentResult = AgentResult(
    agentName: string,
    status: AgentStatus,
    data: map<string, Value>,
    timestamp: string,
    logs: seq<string>)

  /** How an agent's `execute` promise settles: with a result, or rejected with an error. */
  datatype Outcome = Returned(result: AgentResult) | Threw(message: string)

  datatype EventType = NodeStart | NodeComplete | NodeFail | GraphComplete | NodeReset | WorkflowCompleted

  /** What an event's `data` carries. */
  datatype Payload =
    | NoData
    | Fields(fields: map<string, Value>)
    | Planned(graph: TaskGraph, reasoning: string)
    | FailedResult(result: AgentResult)
    | Thrown(message: string)

  datatype GraphEvent = GraphEvent(kind: EventType, nodeId: Option<string>, stage: Option<string>, data: Payload, timestamp: string)
}
