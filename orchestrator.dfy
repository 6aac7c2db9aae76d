/** The agent orchestrator: it owns a task graph, launches ready nodes, applies each
    agent result to the graph and the shared context, and publishes lifecycle events.
    Every method is proved to move the state exactly as the corresponding function of
    the `Scheduler` module says. */
module Orchestrator {
  import opened Wrappers
  import opened Json
  import opened Graph
  import opened Scheduler
  import Planning
  import SchedulerProperties

  /** The message `planCampaign` throws for a failed plan with error `e`; an empty or
      missing error reads as 'Unknown error'. */
  function PlanFailure(e: string): string {
    "Planning Phase Failed: " + (if e == "" then "Unknown error" else e)
  }

  /** The loop over `data.variants` in `saveArtifact`: one `saveCreativeVariant` write per
      variant, until a null or undefined variant throws and ends the loop. */
  method VariantWrites(campaignId: Value, variants: seq<Value>) returns (ws: seq<Write>)
    ensures ws == VariantArtifacts(campaignId, variants)
    ensures |ws| <= |variants|
    ensures forall i :: 0 <= i < |ws| ==> ws[i] == CreativeVariant(campaignId, variants[i]) && !Nullish(variants[i])
  {
    ghost var ok := UntilNullish(variants);
    ghost var all := VariantArtifacts(campaignId, variants);
    SchedulerProperties.UntilNullishPrefix(variants);
    ws := [];
    var i := 0;
    while i < |variants| && !Nullish(variants[i])
      invariant 0 <= i <= |ok|
      invariant ws == all[..i]
    {
      ws := ws + [CreativeVariant(campaignId, variants[i])];
      assert all[..i + 1] == all[..i] + [all[i]];
      i := i + 1;
    }
    assert all[..i] == all;
  }

  class AgentOrchestrator {
    /** `taskGraph !== null`; the three graph fields below mean nothing while it is false. */
    var planned: bool
    var order: seq<string>
    var nodes: map<string, TaskNode>
    var context: map<string, Value>
    var inFlight: seq<Launch>
    var subscribers: seq<nat>
    var events: seq<GraphEvent>
    var deliveries: seq<Delivery>
    var writes: seq<Write>

    function Snapshot(): State
      reads this
    {
      State(TaskGraph(order, nodes, context), inFlight, subscribers, events, deliveries, writes)
    }

    /** Calls are in flight only while a graph is installed, and each names one of its nodes. */
    predicate Valid()
      reads this
    {
      (!planned ==> inFlight == []) && Keyed(Snapshot())
    }

    constructor()
      ensures Valid() && !planned
      ensures subscribers == [] && events == [] && deliveries == [] && writes == []
    {
      planned := false;
      order := [];
      nodes := map[];
      context := map[];
      inFlight := [];
      subscribers := [];
      events := [];
      deliveries := [];
      writes := [];
    }

    /** `subscribe(callback)`. */
    method Subscribe(cb: nat)
      modifies this
      ensures subscribers == old(subscribers) + [cb]
      ensures Snapshot() == old(Snapshot()).(subscribers := subscribers) && planned == old(planned)
    {
      subscribers := subscribers + [cb];
    }

    /** The function `subscribe` returns: it filters that callback out. */
    method Unsubscribe(cb: nat)
      modifies this
      ensures subscribers == Without(old(subscribers), cb)
      ensures Snapshot() == old(Snapshot()).(subscribers := subscribers) && planned == old(planned)
    {
      subscribers := Without(subscribers, cb);
    }

    /** `emit(event)`: one call per subscriber, in subscription order. */
    method Emit(e: GraphEvent)
      modifies this
      ensures Snapshot() == Scheduler.Emit(old(Snapshot()), e) && planned == old(planned)
    {
      var ds := deliveries;
      var i := 0;
      while i < |subscribers|
        invariant 0 <= i <= |subscribers|
        invariant ds == deliveries + Fanout(subscribers[..i], e)
      {
        ds := ds + [Delivery(subscribers[i], e)];
        i := i + 1;
      }
      assert subscribers[..i] == subscribers;
      deliveries := ds;
      events := events + [e];
    }

    /** `planCampaign(input)`: the graph is cleared first; a completed plan installs its
        graph and announces it, a failed one leaves no graph and reports the error. */
    method PlanCampaign(input: map<string, Value>, now: string) returns (err: Option<string>)
      requires Valid()
      modifies this
      ensures Valid() && inFlight == []
      ensures match Planning.Execute(input)
        case PlanOk(g, reasoning) =>
          && err.None? && planned
          && Snapshot() == Scheduler.Emit(old(Snapshot()).(graph := g, inFlight := []),
                                          NodeEvent(NodeComplete, "planning", Planned(g, reasoning), now))
        case PlanFailed(e) =>
          && err == Some(PlanFailure(e)) && !planned
          && Snapshot() == old(Snapshot()).(graph := TaskGraph([], map[], map[]), inFlight := [])
    {
      err := InstallPlan(Planning.Execute(input), now);
    }

    /** The body of `planCampaign` once the planning agent has answered. */
    method InstallPlan(outcome: Planning.PlanOutcome, now: string) returns (err: Option<string>)
      requires Valid()
      modifies this
      ensures Valid() && inFlight == []
      ensures match outcome
        case PlanOk(g, reasoning) =>
          && err.None? && planned
          && Snapshot() == Scheduler.Emit(old(Snapshot()).(graph := g, inFlight := []),
                                          NodeEvent(NodeComplete, "planning", Planned(g, reasoning), now))
        case PlanFailed(e) =>
          && err == Some(PlanFailure(e)) && !planned
          && Snapshot() == old(Snapshot()).(graph := TaskGraph([], map[], map[]), inFlight := [])
    {
      planned := false;
      order, nodes, context := [], map[], map[];
      inFlight := [];
      match outcome
      case PlanOk(g, reasoning) =>
        planned := true;
        order, nodes, context := g.order, g.nodes, g.context;
        Emit(NodeEvent(NodeComplete, "planning", Planned(g, reasoning), now));
        err := None;
      case PlanFailed(e) =>
        err := Some(PlanFailure(e));
    }

    /** `startExecution()`: refused until a plan is installed, otherwise one pass. */
    method StartExecution(now: string) returns (err: Option<string>)
      requires Valid()
      modifies this
      ensures Valid() && planned == old(planned)
      ensures !old(planned) ==> err == Some("No plan generated. Run planCampaign first.") && Snapshot() == old(Snapshot())
      ensures old(planned) ==> err.None? && Snapshot() == Pass(old(Snapshot()), now)
    {
      if !planned {
        return Some("No plan generated. Run planCampaign first.");
      }
      RunExecutionLoop(now);
      err := None;
    }

    /** `runExecutionLoop()`: with every node completed, `graph_complete`; otherwise the
        executable nodes are launched. */
    method RunExecutionLoop(now: string)
      requires Valid()
      modifies this
      ensures Valid() && planned == old(planned)
      ensures Snapshot() == if old(planned) then Pass(old(Snapshot()), now) else old(Snapshot())
    {
      if !planned {
        return;
      }
      var allComplete, executable := CollectExecutable();
      if allComplete {
        Emit(Signal(GraphComplete, now));
      } else {
        LaunchEach(executable, now);
      }
    }

    /** The enumeration of the nodes in `runExecutionLoop`: completed nodes are skipped,
        an idle node whose dependencies have all completed is executable. */
    method CollectExecutable() returns (allComplete: bool, executable: seq<string>)
      ensures allComplete == AllDone(order, nodes)
      ensures executable == ReadyKeys(order, nodes)
    {
      allComplete := true;
      executable := [];
      var i := 0;
      while i < |order|
        invariant 0 <= i <= |order|
        invariant allComplete == AllDone(order[..i], nodes)
        invariant executable == ReadyKeys(order[..i], nodes)
      {
        var id := order[i];
        assert order[..i + 1][..i] == order[..i];
        if id in nodes {
          var node := nodes[id];
          if node.status != Completed {
            allComplete := false;
            if node.status == Idle && DepsMet(nodes, node.dependencies) {
              executable := executable + [id];
            }
          }
        }
        i := i + 1;
      }
      assert order[..i] == order;
    }

    /** `executableNodes.forEach(node => this.executeNode(node))`. */
    method LaunchEach(executable: seq<string>, now: string)
      requires Valid() && planned && forall k | k in executable :: k in nodes
      modifies this
      ensures Valid() && planned
      ensures Snapshot() == LaunchAll(old(Snapshot()), executable, now)
    {
      ghost var s0 := Snapshot();
      var j := 0;
      while j < |executable|
        invariant 0 <= j <= |executable|
        invariant Valid() && planned
        invariant Snapshot() == LaunchAll(s0, executable[..j], now)
      {
        assert executable[..j + 1][..j] == executable[..j];
        ExecuteNode(executable[j], now);
        j := j + 1;
      }
      assert executable[..j] == executable;
    }

    /** `executeNode(node)` up to the agent call. */
    method ExecuteNode(key: string, now: string)
      requires Valid() && planned && key in nodes
      modifies this
      ensures Valid() && planned
      ensures Snapshot() == LaunchOne(old(Snapshot()), key, now)
    {
      var node := nodes[key];
      if !Registered(node.agentName) {
        nodes := nodes[key := node.(status := Failed)];
        return;
      }
      nodes := nodes[key := node.(status := Running)];
      Emit(NodeEvent(NodeStart, node.id, NoData, now));
      inFlight := inFlight + [Launch(key, context)];
    }

    /** The rest of `executeNode` once in-flight call `k` settles: a completed result is
        applied and passed through the control points, anything else fails the node; a
        new pass follows unless a control point stops. */
    method OnSettled(k: nat, outcome: Outcome, now: string)
      requires Valid() && k < |inFlight|
      modifies this
      ensures Valid() && planned
      ensures Snapshot() == Settle(old(Snapshot()), k, outcome, now)
    {
      var key := inFlight[k].key;
      assert inFlight[k] in inFlight;
      inFlight := Remove(inFlight, k);
      match outcome
      case Threw(m) =>
        MarkFailed(key, Thrown(m), now);
        RunExecutionLoop(now);
      case Returned(res) =>
        if res.status != Completed {
          MarkFailed(key, FailedResult(res), now);
          RunExecutionLoop(now);
        } else {
          MarkCompleted(key, res.data, now);
          ApplyControlPoints(key, res.data, now);
        }
    }

    method MarkCompleted(key: string, data: map<string, Value>, now: string)
      requires Valid() && planned && key in nodes
      modifies this
      ensures Valid() && planned
      ensures Snapshot() == Complete(old(Snapshot()), key, data, now)
    {
      var node := nodes[key];
      nodes := nodes[key := node.(status := Completed, result := Obj(data))];
      context := context + data;
      Emit(NodeEvent(NodeComplete, node.id, Fields(data), now));
      SaveArtifact(node.id, data);
    }

    method MarkFailed(key: string, payload: Payload, now: string)
      requires Valid() && planned && key in nodes
      modifies this
      ensures Valid() && planned
      ensures Snapshot() == Fail(old(Snapshot()), key, payload, now)
    {
      var node := nodes[key];
      nodes := nodes[key := node.(status := Failed)];
      Emit(NodeEvent(NodeFail, node.id, payload, now));
    }

    /** The control points of `executeNode` after a completed result. */
    method ApplyControlPoints(key: string, data: map<string, Value>, now: string)
      requires Valid() && planned && key in nodes
      modifies this
      ensures Valid() && planned
      ensures Snapshot() == AfterCompletion(old(Snapshot()), key, data, now)
    {
      var id := nodes[key].id;
      if id == "creative_generation" {
        Emit(Signal(GraphComplete, now));
        return;
      }
      if id == "guardrails" && Get(data, "passed") == Bool(false) {
        RejectVariant(key, data, now);
      }
      if id == "decision" && Truthy(Get(data, "trigger_regeneration")) {
        var stop := Regeneration(key, now);
        if stop {
          return;
        }
      }
      RunExecutionLoop(now);
    }

    /** The decision's regeneration request: past the ceiling the node fails and the run
        stops; below it the loop count goes up and the cohort is reset. */
    method Regeneration(key: string, now: string) returns (stop: bool)
      requires Valid() && planned && key in nodes
      modifies this
      ensures Valid() && planned
      ensures stop == (LoopCount(old(context)) >= MaxRetries)
      ensures Snapshot() == if stop then GiveUp(old(Snapshot()), key, now) else Regenerate(old(Snapshot()), now)
    {
      var currentLoop := LoopCount(context);
      if currentLoop >= MaxRetries {
        nodes := nodes[key := nodes[key].(status := Failed)];
        context := context["error" := Str("Max retries exceeded. Unable to generate compliant creatives.")];
        Emit(NodeEvent(NodeFail, "decision", Fields(map["error" := Str("Max Retries Exceeded")]), now));
        return true;
      }
      context := context["loop_count" := Num(currentLoop + 1)]["rejected_variants" := Arr([])];
      ResetNodes(Cohort(), now);
      return false;
    }

    /** The guardrails rejection: the failed variant joins the rejected list and the
        decision and guardrails nodes are reset. */
    method RejectVariant(key: string, data: map<string, Value>, now: string)
      requires Valid() && planned && key in nodes
      modifies this
      ensures Valid() && planned
      ensures Snapshot() == Reject(old(Snapshot()), key, data, now)
    {
      match SpreadItems(Or(Get(context, "rejected_variants"), Arr([])))
      case None =>
        MarkFailed(key, Thrown("currentRejected is not iterable"), now);
      case Some(items) =>
        context := context["rejected_variants" := Arr(items + [Get(data, "failed_variant_id")])];
        ResetNodes(["decision", "guardrails"], now);
    }

    /** `resetNodes(ids)`. */
    method ResetNodes(ids: seq<string>, now: string)
      requires Valid() && planned
      modifies this
      ensures Valid() && planned
      ensures Snapshot() == ResetAll(old(Snapshot()), ids, now)
    {
      ghost var s0 := Snapshot();
      var i := 0;
      while i < |ids|
        invariant 0 <= i <= |ids|
        invariant Valid() && planned
        invariant Snapshot() == ResetAll(s0, ids[..i], now)
      {
        assert ids[..i + 1][..i] == ids[..i];
        var id := ids[i];
        if id in nodes {
          nodes := nodes[id := nodes[id].(status := Idle, result := Undefined)];
          Emit(NodeEvent(NodeReset, id, NoData, now));
        }
        i := i + 1;
      }
      assert ids[..i] == ids;
    }

    /** `saveArtifact(nodeId, data)`: the writes it issues, in order. */
    method SaveArtifact(nodeId: string, data: map<string, Value>)
      modifies this
      ensures Snapshot() == old(Snapshot()).(writes := old(writes) + Artifacts(nodeId, data, context))
      ensures planned == old(planned)
    {
      var campaignId := Or(Get(data, "campaignId"), Get(context, "campaignId"));
      if !Truthy(campaignId) {
        return;
      }
      var ws := writes + [AgentOutput(campaignId, nodeId, data)];
      var variants := Get(data, "variants");
      if nodeId == "creative_generation" && variants.Arr? {
        var vws := VariantWrites(campaignId, variants.items);
        ws := ws + vws;
      }
      writes := ws;
    }
  }
}
