/** What the campaign store's subscriber and actions guarantee on their own, whatever the
    orchestrator does. */
module StoreProperties {
  import opened Wrappers
  import opened Json
  import opened Graph
  import Strings
  import Binary64
  import Scheduler
  import Planning
  import Orchestrator
  import opened CampaignStore

  // ---------------------------------------------------------------- the activity log

  /** Every handled event appends exactly one activity line; `node_fail` and
      `WORKFLOW_COMPLETED` change nothing; only `graph_complete` touches the status and
      the archive; no event touches the input. */
  lemma ReduceLogs(v: View, e: GraphEvent, archiveId: string, date: string)
    ensures var r := Reduce(v, e, archiveId, date);
      && r.input == v.input
      && (e.kind == NodeFail || e.kind == WorkflowCompleted ==> r == v)
      && (e.kind != NodeFail && e.kind != WorkflowCompleted ==> |r.logs| == |v.logs| + 1 && r.logs[..|v.logs|] == v.logs)
      && (e.kind != GraphComplete ==> r.status == v.status && r.campaigns == v.campaigns)
  {
  }

  /** Over a run of events the log only grows and the input stays; without a
      `graph_complete` the status and the archive stay as well. */
  lemma {:induction false} ReduceAllKeeps(v: View, es: seq<GraphEvent>, archiveId: string, date: string)
    ensures var r := ReduceAll(v, es, archiveId, date);
      && r.input == v.input && v.logs <= r.logs && |r.logs| <= |v.logs| + |es|
      && ((forall i | 0 <= i < |es| :: es[i].kind != GraphComplete) ==> r.status == v.status && r.campaigns == v.campaigns)
  {
    if es != [] {
      var init := es[..|es| - 1];
      ReduceAllKeeps(v, init, archiveId, date);
      ReduceLogs(ReduceAll(v, init, archiveId, date), es[|es| - 1], archiveId, date);
    }
  }

  // ---------------------------------------------------------------- the mirror

  /** `node_start` for a mirrored node makes exactly that node running. */
  lemma StartMarksNode(v: View, e: GraphEvent, archiveId: string, date: string)
    requires e.kind == NodeStart && Addressed(v.graph, e.nodeId)
    ensures var r := Reduce(v, e, archiveId, date);
      var g := v.graph.value;
      var id := e.nodeId.value;
      && r.graph.Some? && r.graph.value.order == g.order && r.graph.value.context == g.context
      && r.graph.value.nodes.Keys == g.nodes.Keys
      && r.graph.value.nodes[id] == g.nodes[id].(status := Running)
      && (forall k | k in g.nodes && k != id :: r.graph.value.nodes[k] == g.nodes[k])
      && r.logs == v.logs + [Line(e.timestamp, "Started task: " + id)]
  {
  }

  /** `node_reset` for a mirrored node makes exactly that node idle with no result. */
  lemma ResetClearsNode(v: View, e: GraphEvent, archiveId: string, date: string)
    requires e.kind == NodeReset && Addressed(v.graph, e.nodeId)
    ensures var r := Reduce(v, e, archiveId, date);
      var g := v.graph.value;
      var id := e.nodeId.value;
      && r.graph.Some? && r.graph.value.order == g.order && r.graph.value.context == g.context
      && r.graph.value.nodes.Keys == g.nodes.Keys
      && r.graph.value.nodes[id].status == Idle && r.graph.value.nodes[id].result == Undefined
      && r.graph.value.nodes[id].dependencies == g.nodes[id].dependencies
      && (forall k | k in g.nodes && k != id :: r.graph.value.nodes[k] == g.nodes[k])
  {
  }

  /** The planning agent's completion replaces the mirror by the plan's graph, whatever
      was mirrored before. */
  lemma PlanReplacesMirror(v: View, e: GraphEvent, archiveId: string, date: string)
    requires e.kind == NodeComplete && e.data.Planned?
    ensures var r := Reduce(v, e, archiveId, date);
      r.graph == Some(e.data.graph) && r.status == v.status && r.campaigns == v.campaigns
  {
  }

  /** Any other completion of a mirrored node completes exactly that node with the data as
      its result, and merges the data over the mirrored context, field by field. */
  lemma CompletionMerges(v: View, e: GraphEvent, archiveId: string, date: string)
    requires e.kind == NodeComplete && e.data.Fields? && !Truthy(Get(e.data.fields, "taskGraph"))
    requires Addressed(v.graph, e.nodeId)
    ensures var r := Reduce(v, e, archiveId, date);
      var g := v.graph.value;
      var id := e.nodeId.value;
      var d := e.data.fields;
      && r.graph.Some? && r.graph.value.order == g.order && r.graph.value.nodes.Keys == g.nodes.Keys
      && r.graph.value.nodes[id] == g.nodes[id].(status := Completed, result := Obj(d))
      && (forall k | k in g.nodes && k != id :: r.graph.value.nodes[k] == g.nodes[k])
      && r.graph.value.context.Keys == g.context.Keys + d.Keys
      && (forall k | k in r.graph.value.context ::
            r.graph.value.context[k] == if k in d then d[k] else g.context[k])
  {
  }

  /** An event that names no mirrored node leaves the mirror alone (a plan aside). */
  lemma UnaddressedIgnored(v: View, e: GraphEvent, archiveId: string, date: string)
    requires !Addressed(v.graph, e.nodeId) && !e.data.Planned?
    ensures Reduce(v, e, archiveId, date).graph == v.graph
  {
  }

  /** Half a point rounds up: the reported score is the whole number of points nearest
      to the decision agent's score, which is counted in 2^-55. */
  lemma PerformanceRounds(n: int)
    requires n != 0
    ensures exists k :: Performance(Num(n)) == "Score: " + Strings.IntToString(k)
                        && k * Binary64.Scale - Binary64.Half <= n < k * Binary64.Scale + Binary64.Half
  {
    var k := (n + Binary64.Half) / Binary64.Scale;
    assert Performance(Num(n)) == "Score: " + Strings.IntToString(k);
  }

  /** `graph_complete` completes the run and, with a mirror, puts one record in front of
      the archive: the product's campaign, marked completed, for the mirrored audience or
      'General'. */
  lemma GraphCompleteArchives(v: View, e: GraphEvent, archiveId: string, date: string)
    requires e.kind == GraphComplete
    ensures var r := Reduce(v, e, archiveId, date);
      && r.status == StatusCompleted && r.graph == v.graph && r.input == v.input
      && (v.graph.None? ==> r.campaigns == v.campaigns)
      && (v.graph.Some? ==>
            var c := v.graph.value.context;
            && |r.campaigns| == |v.campaigns| + 1 && r.campaigns[1..] == v.campaigns
            && r.campaigns[0].id == archiveId && r.campaigns[0].date == date
            && r.campaigns[0].status == "Completed"
            && r.campaigns[0].name == ToJsString(Get(c, "product")) + " Campaign"
            && r.campaigns[0].audience == (if Truthy(Get(c, "audience")) then Get(c, "audience") else Str("General")))
  {
  }

  // ---------------------------------------------------------------- actions

  /** `setInput` overwrites the given fields and keeps the others. */
  lemma SetInputMerges(v: View, updates: map<string, Value>)
    ensures var r := AfterSetInput(v, updates);
      && r.input.Keys == v.input.Keys + updates.Keys
      && (forall k | k in r.input :: r.input[k] == if k in updates then updates[k] else v.input[k])
      && r.(input := v.input) == v
  {
  }

  /** `updateNodeStatus` touches at most the named node, and setting the same status and
      result twice is setting it once. */
  lemma UpdateNodeStatusLocal(v: View, nodeId: string, status: AgentStatus, result: Value)
    ensures var r := AfterUpdateNodeStatus(v, nodeId, status, result);
      && r.(graph := v.graph) == v
      && (v.graph.None? || nodeId !in v.graph.value.nodes ==> r == v)
      && (v.graph.Some? ==>
            && r.graph.Some? && r.graph.value.nodes.Keys == v.graph.value.nodes.Keys
            && (forall k | k in v.graph.value.nodes && k != nodeId :: r.graph.value.nodes[k] == v.graph.value.nodes[k]))
      && AfterUpdateNodeStatus(r, nodeId, status, result) == r
  {
    var r := AfterUpdateNodeStatus(v, nodeId, status, result);
    if v.graph.Some? && nodeId in v.graph.value.nodes {
      var g := r.graph.value;
      assert g.nodes[nodeId := g.nodes[nodeId].(status := status, result := result)] == g.nodes;
    }
  }

  /** `reset` forgets the run but keeps the input and the archive; resetting twice is
      resetting once. */
  lemma ResetKeepsInputAndArchive(v: View)
    ensures var r := AfterReset(v);
      && r.input == v.input && r.campaigns == v.campaigns
      && r.status == StatusIdle && r.graph.None? && r.logs == []
      && AfterReset(r) == r
  {
  }

  // ---------------------------------------------------------------- planning

  /** `planCampaign` clears the log after writing the database line, so that line never
      survives: the log after planning starts empty, whoever is signed in and whatever the
      insert did. */
  lemma BeginPlanDiscardsSystemLog(v: View, userId: Option<string>, created: Result<string>)
    ensures var r := BeginPlan(v, userId, created);
      && r.logs == [] && r.status == StatusRunning && r.graph.None?
      && r.input == v.input && r.campaigns == v.campaigns
  {
  }

  /** The plan is tagged with the database campaign's id when a signed-in user's insert
      succeeded, and with a temporary id otherwise. */
  lemma CampaignIdChoice(userId: Option<string>, created: Result<string>, millis: nat)
    ensures SignedIn(userId) && created.Ok? ==> CampaignIdFor(userId, created, millis) == created.value
    ensures !(SignedIn(userId) && created.Ok?) ==>
      var id := CampaignIdFor(userId, created, millis);
      |id| > 5 && id[..5] == "temp-"
  {
  }

  /** A rejected plan logs exactly one error line, returns the store to idle without a
      mirror, and leaves the orchestrator without a plan, with nothing in flight and no
      event emitted. */
  lemma PlanFlowRejected(v: View, s: Scheduler.State, userId: Option<string>, created: Result<string>, millis: nat,
                         now: string, archiveId: string, date: string)
    requires Planning.Execute(v.input["campaignId" := Str(CampaignIdFor(userId, created, millis))]).PlanFailed?
    ensures var e := Planning.Execute(v.input["campaignId" := Str(CampaignIdFor(userId, created, millis))]).error;
      var r := PlanFlow(v, s, userId, created, millis, now, archiveId, date);
      && r.0.logs == ["Error during planning: " + ErrorText(Orchestrator.PlanFailure(e))]
      && r.0.status == StatusIdle && r.0.graph.None? && r.0.input == v.input && r.0.campaigns == v.campaigns
      && !r.2 && r.1.inFlight == [] && r.1.graph.nodes == map[] && r.1.events == s.events
  {
    var outcome := Planning.Execute(v.input["campaignId" := Str(CampaignIdFor(userId, created, millis))]);
    assert PlanFlow(v, s, userId, created, millis, now, archiveId, date)
        == PlanRest(BeginPlan(v, userId, created), s, outcome, now, archiveId, date);
    RestRejected(v, s, userId, created, outcome, now, archiveId, date);
  }

  /** The same facts for any failed plan outcome. */
  lemma RestRejected(v: View, s: Scheduler.State, userId: Option<string>, created: Result<string>,
                     outcome: Planning.PlanOutcome, now: string, archiveId: string, date: string)
    requires outcome.PlanFailed?
    ensures var r := PlanRest(BeginPlan(v, userId, created), s, outcome, now, archiveId, date);
      && r.0.logs == ["Error during planning: " + ErrorText(Orchestrator.PlanFailure(outcome.error))]
      && r.0.status == StatusIdle && r.0.graph.None? && r.0.input == v.input && r.0.campaigns == v.campaigns
      && !r.2 && r.1.inFlight == [] && r.1.graph.nodes == map[] && r.1.events == s.events
  {
    var v0 := BeginPlan(v, userId, created);
    assert v0.logs == [] && v0.input == v.input && v0.campaigns == v.campaigns;
    assert PlanRest(v0, s, outcome, now, archiveId, date) == PlanRejected(v0, s, outcome.error);
  }
}
