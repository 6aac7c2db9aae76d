/** The campaign store: the UI's copy of the campaign input, its run status, a mirror of
    the orchestrator's task graph kept up to date from the orchestrator's events, the activity log and
    the archive of finished campaigns. The store owns the orchestrator and is its only
    subscriber, so its callback receives every event the orchestrator emits, once, in
    order. */
module CampaignStore {
  import opened Wrappers
  import opened Json
  import opened Graph
  import Strings
  import Binary64
  import Scheduler
  import SchedulerProperties
  import Planning
  import Orchestrator

  /** The store's `status`: 'idle', 'created', 'planned', 'running' or 'completed'. */
  datatype RunStatus = StatusIdle | StatusCreated | StatusPlanned | StatusRunning | StatusCompleted

  /** An archive record: `{ id, name, status, date, performance, audience }`. */
  datatype Campaign = Campaign(id: string, name: string, status: string, date: string, performance: string, audience: Value)

  /** The store's state. `graph` is `None` for `null`. */
  datatype View = View(
    input: map<string, Value>,
    status: RunStatus,
    graph: Option<TaskGraph>,
    logs: seq<string>,
    campaigns: seq<Campaign>)

  function InitialInput(): map<string, Value> {
    map["product" := Str(""), "audience" := Str(""), "goal" := Str(""), "budget" := Str(""),
        "platforms" := Arr([]), "brandGuidelines" := Str("")]
  }

  function Initial(): View {
    View(InitialInput(), StatusIdle, None, [], [])
  }

  // ---------------------------------------------------------------- the event subscriber

  /** `${event.nodeId}`. */
  function IdText(nodeId: Option<string>): string {
    if nodeId.Some? then nodeId.value else "undefined"
  }

  /** An activity line `[timestamp] text`. */
  function Line(timestamp: string, text: string): string {
    "[" + timestamp + "] " + text
  }

  /** `graph && event.nodeId && nodes[event.nodeId]`: a mirror exists and the event names
      one of its nodes. */
  predicate Addressed(graph: Option<TaskGraph>, nodeId: Option<string>) {
    graph.Some? && nodeId.Some? && nodeId.value != "" && nodeId.value in graph.value.nodes
  }

  /** `event.data && event.data.taskGraph`. */
  predicate CarriesGraph(p: Payload) {
    p.Planned? || (p.Fields? && Truthy(Get(p.fields, "taskGraph")))
  }

  /** The value of an event's `data`; the orchestrator's `node_complete` events carry a
      record of fields or the plan, and any other payload is read as a record with no
      enumerable fields. */
  function DataValue(p: Payload): Value {
    match p
    case NoData => Undefined
    case Fields(m) => Obj(m)
    case _ => Obj(map[])
  }

  /** The own fields `{ ...v }` copies from an event's data. */
  function Spread(v: Value): map<string, Value> {
    if v.Obj? then v.fields else map[]
  }

  /** `node_start`: the named node of the mirror becomes running. */
  function OnStart(v: View, e: GraphEvent): View {
    var v1 := v.(logs := v.logs + [Line(e.timestamp, "Started task: " + IdText(e.nodeId))]);
    if Addressed(v1.graph, e.nodeId) then
      var g := v1.graph.value;
      var id := e.nodeId.value;
      v1.(graph := Some(g.(nodes := g.nodes[id := g.nodes[id].(status := Running)])))
    else v1
  }

  /** `node_complete`: the plan replaces the mirror; any other completion marks the named
      node completed with the data as its result and merges the data over the context. */
  function OnComplete(v: View, e: GraphEvent): View {
    var v1 := v.(logs := v.logs + [Line(e.timestamp, "Completed task: " + IdText(e.nodeId))]);
    if CarriesGraph(e.data) then
      if e.data.Planned? then v1.(graph := Some(e.data.graph)) else v1
    else if Addressed(v1.graph, e.nodeId) then
      var g := v1.graph.value;
      var id := e.nodeId.value;
      var d := DataValue(e.data);
      v1.(graph := Some(TaskGraph(g.order, g.nodes[id := g.nodes[id].(status := Completed, result := d)], g.context + Spread(d))))
    else v1
  }

  /** `winner?.score ? 'Score: ' + Math.round(winner.score) : 'Completed'`. The decision
      agent's score is a double counted in 2^-55, so `Math.round` is the floor division
      `(n + 2^54) / 2^55`. */
  function Performance(score: Value): string {
    if !Truthy(score) then "Completed"
    else if score.Num? then "Score: " + Strings.IntToString((score.n + Binary64.Half) / Binary64.Scale)
    else "Score: NaN"
  }

  /** The archive record of a finished graph; the id and the date are the random id and
      the calendar date of the moment. */
  function Archive(g: TaskGraph, archiveId: string, date: string): Campaign {
    var winner := if "decision" in g.nodes then Field(g.nodes["decision"].result, "selected_creative") else Undefined;
    Campaign(archiveId, ToJsString(Get(g.context, "product")) + " Campaign", "Completed", date,
             Performance(Field(winner, "score")), Or(Get(g.context, "audience"), Str("General")))
  }

  /** `graph_complete`: the run is completed and a finished graph is archived, newest first. */
  function OnGraphComplete(v: View, e: GraphEvent, archiveId: string, date: string): View {
    var v1 := v.(logs := v.logs + [Line(e.timestamp, "Campaign optimization complete.")], status := StatusCompleted);
    if v1.graph.Some? then v1.(campaigns := [Archive(v1.graph.value, archiveId, date)] + v1.campaigns) else v1
  }

  /** `node_reset`: the named node becomes idle and loses its result. */
  function OnReset(v: View, e: GraphEvent): View {
    var v1 := v.(logs := v.logs + [Line(e.timestamp, "Resetting task: " + IdText(e.nodeId))]);
    if Addressed(v1.graph, e.nodeId) then
      var g := v1.graph.value;
      var id := e.nodeId.value;
      v1.(graph := Some(g.(nodes := g.nodes[id := g.nodes[id].(status := Idle, result := Undefined)])))
    else v1
  }

  /** The subscriber's reaction to one event; `node_fail` and `WORKFLOW_COMPLETED` have
      no branch. */
  function Reduce(v: View, e: GraphEvent, archiveId: string, date: string): View {
    match e.kind
    case NodeStart => OnStart(v, e)
    case NodeComplete => OnComplete(v, e)
    case GraphComplete => OnGraphComplete(v, e, archiveId, date)
    case NodeReset => OnReset(v, e)
    case NodeFail => v
    case WorkflowCompleted => v
  }

  /** The subscriber's reaction to a sequence of events, in order. */
  function ReduceAll(v: View, es: seq<GraphEvent>, archiveId: string, date: string): View {
    if es == [] then v else Reduce(ReduceAll(v, es[..|es| - 1], archiveId, date), es[|es| - 1], archiveId, date)
  }

  // ---------------------------------------------------------------- actions

  /** `setInput(updates)`: a shallow merge. */
  function AfterSetInput(v: View, updates: map<string, Value>): View {
    v.(input := v.input + updates)
  }

  /** `updateNodeStatus(nodeId, status, result)`: a no-op without a mirror or the node. */
  function AfterUpdateNodeStatus(v: View, nodeId: string, status: AgentStatus, result: Value): View {
    if v.graph.Some? && nodeId in v.graph.value.nodes then
      var g := v.graph.value;
      v.(graph := Some(g.(nodes := g.nodes[nodeId := g.nodes[nodeId].(status := status, result := result)])))
    else v
  }

  function AfterReset(v: View): View {
    v.(status := StatusIdle, graph := None, logs := [])
  }

  function AfterSaveCampaign(v: View): View {
    v.(status := StatusCreated, logs := v.logs + ["Campaign context saved successfully. Status: CREATED"])
  }

  /** `${error}` of a thrown `Error`. */
  function ErrorText(message: string): string {
    "Error: " + message
  }

  /** `'temp-' + Date.now()`. */
  function TempId(millis: nat): string {
    "temp-" + Strings.NatToString(millis)
  }

  /** A signed-in user (a truthy id) gets a database campaign; `created` is what
      `createCampaign` returned or threw. */
  predicate SignedIn(userId: Option<string>) {
    userId.Some? && userId.value != ""
  }

  /** The campaign id `planCampaign` tags the plan with. */
  function CampaignIdFor(userId: Option<string>, created: Result<string>, millis: nat): string {
    if SignedIn(userId) && created.Ok? then created.value else TempId(millis)
  }

  /** The line `planCampaign` logs about the database campaign; a failed insert is only
      reported on the console. */
  function SystemLog(userId: Option<string>, created: Result<string>): seq<string> {
    if !SignedIn(userId) then ["[System] Warning: No authenticated user. Campaign saved locally only."]
    else if created.Ok? then ["[System] Campaign initialized in DB: " + created.value]
    else []
  }

  /** `executeCampaign()` as a function of the store and the orchestrator: the status
      becomes running, then the orchestrator's pass plays its events into the store, or
      its refusal is logged. */
  function ExecuteFlow(v: View, s: Scheduler.State, planned: bool, now: string, archiveId: string, date: string): (r: (View, Scheduler.State))
  {
    var v1 := v.(status := StatusRunning);
    if !planned then
      (v1.(logs := v1.logs + ["Error starting execution: " + ErrorText("No plan generated. Run planCampaign first.")]), s)
    else
      var s1 := Scheduler.Pass(s, now);
      SchedulerProperties.PassExtends(s, now);
      (ReduceAll(v1, s1.events[|s.events|..], archiveId, date), s1)
  }

  /** The start of `planCampaign()`: the database line is logged, then the log and the
      mirror are cleared and the status becomes running. */
  function BeginPlan(v: View, userId: Option<string>, created: Result<string>): View {
    var v0 := v.(logs := v.logs + SystemLog(userId, created));
    v0.(status := StatusRunning, logs := [], graph := None)
  }

  /** The rest of `planCampaign()`: the orchestrator plans; a successful plan is mirrored,
      announced and executed, a failed one is logged and returns the store to idle. The
      third component is whether the orchestrator holds a graph afterwards. */
  function PlanRest(v: View, s: Scheduler.State, outcome: Planning.PlanOutcome,
                    now: string, archiveId: string, date: string): (r: (View, Scheduler.State, bool))
  {
    match outcome
    case PlanFailed(e) => PlanRejected(v, s, e)
    case PlanOk(g, reasoning) => PlanAccepted(v, s, g, reasoning, now, archiveId, date)
  }

  function PlanRejected(v: View, s: Scheduler.State, e: string): (r: (View, Scheduler.State, bool)) {
    (v.(logs := v.logs + ["Error during planning: " + ErrorText(Orchestrator.PlanFailure(e))], status := StatusIdle),
     s.(graph := TaskGraph([], map[], map[]), inFlight := []), false)
  }

  function PlanAccepted(v: View, s: Scheduler.State, g: TaskGraph, reasoning: string,
                        now: string, archiveId: string, date: string): (r: (View, Scheduler.State, bool))
  {
    var e := Scheduler.NodeEvent(NodeComplete, "planning", Planned(g, reasoning), now);
    var s1 := Scheduler.Emit(s.(graph := g, inFlight := []), e);
    var x := ExecuteFlow(Announced(v, [e], archiveId, date), s1, true, now, archiveId, date);
    (x.0, x.1, true)
  }

  /** The plan's events reach the subscriber, then the plan is reported. */
  function Announced(v: View, es: seq<GraphEvent>, archiveId: string, date: string): View {
    var v1 := ReduceAll(v, es, archiveId, date).(status := StatusPlanned);
    v1.(logs := v1.logs + ["Campaign execution plan generated. Initiating execution sequence..."])
  }

  /** `planCampaign()` as a function of the store and the orchestrator. */
  function PlanFlow(v: View, s: Scheduler.State, userId: Option<string>, created: Result<string>, millis: nat,
                    now: string, archiveId: string, date: string): (r: (View, Scheduler.State, bool))
  {
    PlanRest(BeginPlan(v, userId, created), s, Planning.Execute(v.input["campaignId" := Str(CampaignIdFor(userId, created, millis))]),
             now, archiveId, date)
  }

  // ---------------------------------------------------------------- the store

  class Store {
    const orchestrator: Orchestrator.AgentOrchestrator
    /** The store's own subscription. */
    const callback: nat
    var input: map<string, Value>
    var status: RunStatus
    var graph: Option<TaskGraph>
    var logs: seq<string>
    var campaigns: seq<Campaign>

    function Snapshot(): View
      reads this
    {
      View(input, status, graph, logs, campaigns)
    }

    /** The orchestrator is in a consistent state and the store is its only subscriber. */
    predicate Valid()
      reads this, orchestrator
    {
      orchestrator.Valid() && orchestrator.subscribers == [callback]
    }

    /** A fresh store with its own orchestrator, subscribed before anything is emitted. */
    constructor(callback: nat)
      ensures Valid() && Snapshot() == Initial() && fresh(orchestrator)
      ensures !orchestrator.planned && orchestrator.events == []
    {
      var o := new Orchestrator.AgentOrchestrator();
      o.Subscribe(callback);
      orchestrator := o;
      this.callback := callback;
      input := InitialInput();
      status := StatusIdle;
      graph := None;
      logs := [];
      campaigns := [];
    }

    method AddLog(msg: string)
      modifies this
      ensures Snapshot() == old(Snapshot()).(logs := old(logs) + [msg])
    {
      logs := logs + [msg];
    }

    /** The subscriber callback. */
    method OnEvent(e: GraphEvent, archiveId: string, date: string)
      modifies this
      ensures Snapshot() == Reduce(old(Snapshot()), e, archiveId, date)
    {
      match e.kind
      case NodeStart =>
        AddLog(Line(e.timestamp, "Started task: " + IdText(e.nodeId)));
        if Addressed(graph, e.nodeId) {
          var g := graph.value;
          var id := e.nodeId.value;
          graph := Some(g.(nodes := g.nodes[id := g.nodes[id].(status := Running)]));
        }
      case NodeComplete =>
        AddLog(Line(e.timestamp, "Completed task: " + IdText(e.nodeId)));
        if CarriesGraph(e.data) {
          if e.data.Planned? {
            graph := Some(e.data.graph);
          }
          return;
        }
        if Addressed(graph, e.nodeId) {
          var g := graph.value;
          var id := e.nodeId.value;
          var d := DataValue(e.data);
          graph := Some(TaskGraph(g.order, g.nodes[id := g.nodes[id].(status := Completed, result := d)], g.context + Spread(d)));
        }
      case GraphComplete =>
        AddLog(Line(e.timestamp, "Campaign optimization complete."));
        if graph.Some? {
          campaigns := [Archive(graph.value, archiveId, date)] + campaigns;
        }
        status := StatusCompleted;
      case NodeReset =>
        AddLog(Line(e.timestamp, "Resetting task: " + IdText(e.nodeId)));
        if Addressed(graph, e.nodeId) {
          var g := graph.value;
          var id := e.nodeId.value;
          graph := Some(g.(nodes := g.nodes[id := g.nodes[id].(status := Idle, result := Undefined)]));
        }
      case NodeFail =>
      case WorkflowCompleted =>
    }

    /** The callback called for each of `es`, in order. */
    method OnEvents(es: seq<GraphEvent>, archiveId: string, date: string)
      modifies this
      ensures Snapshot() == ReduceAll(old(Snapshot()), es, archiveId, date)
    {
      for i := 0 to |es|
        invariant Snapshot() == ReduceAll(old(Snapshot()), es[..i], archiveId, date)
      {
        assert es[..i + 1][..i] == es[..i];
        OnEvent(es[i], archiveId, date);
      }
      assert es[..|es|] == es;
    }

    method SetInput(updates: map<string, Value>)
      modifies this
      ensures Snapshot() == AfterSetInput(old(Snapshot()), updates)
    {
      input := input + updates;
    }

    method UpdateGraph(g: TaskGraph)
      modifies this
      ensures Snapshot() == old(Snapshot()).(graph := Some(g))
    {
      graph := Some(g);
    }

    method UpdateNodeStatus(nodeId: string, s: AgentStatus, result: Value)
      modifies this
      ensures Snapshot() == AfterUpdateNodeStatus(old(Snapshot()), nodeId, s, result)
    {
      if graph.None? {
        return;
      }
      var g := graph.value;
      if nodeId in g.nodes {
        graph := Some(g.(nodes := g.nodes[nodeId := g.nodes[nodeId].(status := s, result := result)]));
      }
    }

    method Reset()
      modifies this
      ensures Snapshot() == AfterReset(old(Snapshot()))
    {
      status, graph, logs := StatusIdle, None, [];
    }

    /** `saveCampaign()`, the deprecated manual save. */
    method SaveCampaign()
      modifies this
      ensures Snapshot() == AfterSaveCampaign(old(Snapshot()))
    {
      status := StatusCreated;
      AddLog("Campaign context saved successfully. Status: CREATED");
    }

    /** `executeCampaign()`. */
    method ExecuteCampaign(now: string, archiveId: string, date: string)
      requires Valid()
      modifies this, orchestrator
      ensures Valid() && orchestrator.planned == old(orchestrator.planned)
      ensures (Snapshot(), orchestrator.Snapshot())
              == ExecuteFlow(old(Snapshot()), old(orchestrator.Snapshot()), old(orchestrator.planned), now, archiveId, date)
    {
      status := StatusRunning;
      var n := |orchestrator.events|;
      ghost var s := orchestrator.Snapshot();
      SchedulerProperties.PassExtends(s, now);
      var err := orchestrator.StartExecution(now);
      if err.Some? {
        AddLog("Error starting execution: " + ErrorText(err.value));
      } else {
        OnEvents(orchestrator.events[n..], archiveId, date);
      }
    }

    /** `planCampaign()`: `userId` is the signed-in user's id, `created` the outcome of
        `createCampaign`, `millis` the clock reading for a local id. */
    method PlanCampaign(userId: Option<string>, created: Result<string>, millis: nat,
                        now: string, archiveId: string, date: string)
      requires Valid()
      modifies this, orchestrator
      ensures Valid()
      ensures (Snapshot(), orchestrator.Snapshot(), orchestrator.planned)
              == PlanFlow(old(Snapshot()), old(orchestrator.Snapshot()), userId, created, millis, now, archiveId, date)
    {
      ghost var v0 := Snapshot();
      var campaignId := BeginPlanning(userId, created, millis);
      var planInput := input["campaignId" := Str(campaignId)];
      assert planInput == v0.input["campaignId" := Str(CampaignIdFor(userId, created, millis))];
      RunPlan(planInput, now, archiveId, date);
    }

    method BeginPlanning(userId: Option<string>, created: Result<string>, millis: nat) returns (campaignId: string)
      modifies this
      ensures campaignId == CampaignIdFor(userId, created, millis)
      ensures Snapshot() == BeginPlan(old(Snapshot()), userId, created)
    {
      campaignId := TempId(millis);
      if SignedIn(userId) {
        if created.Ok? {
          campaignId := created.value;
          AddLog("[System] Campaign initialized in DB: " + campaignId);
        }
      } else {
        AddLog("[System] Warning: No authenticated user. Campaign saved locally only.");
      }
      status, logs, graph := StatusRunning, [], None;
    }

    method RunPlan(planInput: map<string, Value>, now: string, archiveId: string, date: string)
      requires Valid()
      modifies this, orchestrator
      ensures Valid()
      ensures var r := PlanRest(old(Snapshot()), old(orchestrator.Snapshot()), Planning.Execute(planInput), now, archiveId, date);
        Snapshot() == r.0 && orchestrator.Snapshot() == r.1 && orchestrator.planned == r.2
    {
      match Planning.Execute(planInput)
      case PlanFailed(e) => PlanFails(planInput, e, now);
      case PlanOk(g, reasoning) => PlanSucceeds(planInput, g, reasoning, now, archiveId, date);
    }

    /** A failed plan is logged and the store returns to idle. */
    method PlanFails(planInput: map<string, Value>, e: string, now: string)
      requires Valid() && Planning.Execute(planInput) == Planning.PlanFailed(e)
      modifies this, orchestrator
      ensures Valid()
      ensures var r := PlanRejected(old(Snapshot()), old(orchestrator.Snapshot()), e);
        Snapshot() == r.0 && orchestrator.Snapshot() == r.1 && orchestrator.planned == r.2
    {
      var err := orchestrator.PlanCampaign(planInput, now);
      AddLog("Error during planning: " + ErrorText(err.value));
      status := StatusIdle;
    }

    /** A successful plan is announced to the subscriber, then executed. */
    method PlanSucceeds(planInput: map<string, Value>, g: TaskGraph, reasoning: string,
                        now: string, archiveId: string, date: string)
      requires Valid() && Planning.Execute(planInput) == Planning.PlanOk(g, reasoning)
      modifies this, orchestrator
      ensures Valid()
      ensures var r := PlanAccepted(old(Snapshot()), old(orchestrator.Snapshot()), g, reasoning, now, archiveId, date);
        Snapshot() == r.0 && orchestrator.Snapshot() == r.1 && orchestrator.planned == r.2
    {
      ghost var v0 := Snapshot();
      ghost var s0 := orchestrator.Snapshot();
      var n := |orchestrator.events|;
      var err := orchestrator.PlanCampaign(planInput, now);
      PlanSucceeded(orchestrator.events[n..], v0, s0, g, reasoning, now, archiveId, date);
    }

    method PlanSucceeded(es: seq<GraphEvent>, ghost v0: View, ghost s0: Scheduler.State, g: TaskGraph, reasoning: string,
                         now: string, archiveId: string, date: string)
      requires Valid() && orchestrator.planned && Snapshot() == v0
      requires var e := Scheduler.NodeEvent(NodeComplete, "planning", Planned(g, reasoning), now);
        orchestrator.Snapshot() == Scheduler.Emit(s0.(graph := g, inFlight := []), e) && es == [e]
      modifies this, orchestrator
      ensures Valid()
      ensures var r := PlanAccepted(v0, s0, g, reasoning, now, archiveId, date);
        Snapshot() == r.0 && orchestrator.Snapshot() == r.1 && orchestrator.planned == r.2
    {
      OnEvents(es, archiveId, date);
      status := StatusPlanned;
      AddLog("Campaign execution plan generated. Initiating execution sequence...");
      ExecuteCampaign(now, archiveId, date);
    }

    /** An agent call of the orchestrator settling later on: the orchestrator applies the
        outcome and the store receives the events that follow. */
    method OnSettled(k: nat, outcome: Outcome, now: string, archiveId: string, date: string)
      requires Valid() && k < |orchestrator.inFlight|
      modifies this, orchestrator
      ensures Valid()
      ensures orchestrator.Snapshot() == Scheduler.Settle(old(orchestrator.Snapshot()), k, outcome, now)
      ensures old(orchestrator.events) <= orchestrator.events
      ensures Snapshot() == ReduceAll(old(Snapshot()), orchestrator.events[|old(orchestrator.events)|..], archiveId, date)
    {
      var n := |orchestrator.events|;
      SchedulerProperties.SettleExtends(orchestrator.Snapshot(), k, outcome, now);
      orchestrator.OnSettled(k, outcome, now);
      OnEvents(orchestrator.events[n..], archiveId, date);
    }
  }
}
