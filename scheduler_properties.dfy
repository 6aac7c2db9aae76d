/** What a scheduling pass and the settling of an agent call do to the orchestrator's
    state: dependency gating, the completion signal, stalls, the creative-generation
    stop, the loop-back rules and the regeneration bound. */
module SchedulerProperties {
  import opened Wrappers
  import opened Json
  import opened Graph
  import opened Scheduler
  import Planning

  // ---------------------------------------------------------------- readiness

  /** A node is collected exactly when it is enumerated, idle, and every dependency names
      a completed node; a dependency on a missing id is never met. */
  lemma {:induction false} ReadyKeysExact(keys: seq<string>, nodes: map<string, TaskNode>, k: string)
    ensures k in ReadyKeys(keys, nodes) <==> k in keys && Ready(nodes, k)
  {
    if keys != [] {
      ReadyKeysExact(keys[..|keys| - 1], nodes, k);
      assert keys == keys[..|keys| - 1] + [keys[|keys| - 1]];
    }
  }

  lemma MissingDependencyBlocks(nodes: map<string, TaskNode>, key: string, d: string)
    requires key in nodes && d in nodes[key].dependencies && d !in nodes
    ensures !Ready(nodes, key)
  {
  }

  /** Enumerating distinct keys collects each at most once. */
  lemma {:induction false} ReadyKeysDistinct(keys: seq<string>, nodes: map<string, TaskNode>)
    requires Distinct(keys)
    ensures Distinct(ReadyKeys(keys, nodes))
  {
    if keys != [] {
      var init := keys[..|keys| - 1];
      var last := keys[|keys| - 1];
      ReadyKeysDistinct(init, nodes);
      ReadyKeysExact(init, nodes, last);
    }
  }

  // ---------------------------------------------------------------- launching

  /** What a launch status becomes: running, or failed for an agent the registry lacks. */
  function Launched(n: TaskNode): TaskNode {
    n.(status := if Registered(n.agentName) then Running else Failed)
  }

  /** The in-flight entry launching one node adds: none for an unregistered agent. */
  function StartedEntry(n: TaskNode, key: string, context: map<string, Value>): seq<Launch> {
    if Registered(n.agentName) then [Launch(key, context)] else []
  }

  /** The `node_start` event launching one node emits: none for an unregistered agent. */
  function StartEvent(n: TaskNode, now: string): seq<GraphEvent> {
    if Registered(n.agentName) then [NodeEvent(NodeStart, n.id, NoData, now)] else []
  }

  /** The in-flight entries and `node_start` events of launching `keys` in order. */
  function Started(nodes: map<string, TaskNode>, keys: seq<string>, context: map<string, Value>): seq<Launch>
    requires forall k | k in keys :: k in nodes
  {
    if keys == [] then []
    else Started(nodes, keys[..|keys| - 1], context) + StartedEntry(nodes[keys[|keys| - 1]], keys[|keys| - 1], context)
  }

  function StartEvents(nodes: map<string, TaskNode>, keys: seq<string>, now: string): seq<GraphEvent>
    requires forall k | k in keys :: k in nodes
  {
    if keys == [] then []
    else StartEvents(nodes, keys[..|keys| - 1], now) + StartEvent(nodes[keys[|keys| - 1]], now)
  }

  /** One launch: the node runs (or fails, if unregistered) and nothing else changes
      but the log of calls and events. */
  lemma LaunchOneEffect(s: State, key: string, now: string)
    requires key in s.graph.nodes
    ensures var r := LaunchOne(s, key, now);
      var n := s.graph.nodes[key];
      && r.graph == s.graph.(nodes := s.graph.nodes[key := Launched(n)])
      && r.inFlight == s.inFlight + StartedEntry(n, key, s.graph.context)
      && r.events == s.events + StartEvent(n, now)
      && r.writes == s.writes
  {
  }

  /** Dropping the last of distinct keys leaves distinct keys without it. */
  lemma DistinctInit(keys: seq<string>)
    requires keys != [] && Distinct(keys)
    ensures Distinct(keys[..|keys| - 1]) && keys[|keys| - 1] !in keys[..|keys| - 1]
    ensures forall k | k in keys[..|keys| - 1] :: k in keys
  {
  }

  /** Launching distinct keys changes exactly those nodes. */
  lemma {:induction false} LaunchAllNodes(s: State, keys: seq<string>, now: string)
    requires forall k | k in keys :: k in s.graph.nodes
    requires Distinct(keys)
    ensures var r := LaunchAll(s, keys, now);
      && r.graph.order == s.graph.order
      && forall x | x in s.graph.nodes ::
           r.graph.nodes[x] == if x in keys then Launched(s.graph.nodes[x]) else s.graph.nodes[x]
  {
    if keys != [] {
      var init := keys[..|keys| - 1];
      var last := keys[|keys| - 1];
      DistinctInit(keys);
      LaunchAllNodes(s, init, now);
      var m := LaunchAll(s, init, now);
      LaunchOneEffect(m, last, now);
      forall x | x in s.graph.nodes
        ensures LaunchAll(s, keys, now).graph.nodes[x] == if x in keys then Launched(s.graph.nodes[x]) else s.graph.nodes[x]
      {
        assert x in keys <==> x in init || x == last;
      }
    }
  }

  /** A node that is not launched is not touched. */
  lemma {:induction false} LaunchAllKeepsOthers(s: State, keys: seq<string>, now: string, x: string)
    requires forall k | k in keys :: k in s.graph.nodes
    requires x in s.graph.nodes && x !in keys
    ensures LaunchAll(s, keys, now).graph.nodes[x] == s.graph.nodes[x]
  {
    if keys != [] {
      var init := keys[..|keys| - 1];
      assert forall k | k in init :: k in keys;
      LaunchAllKeepsOthers(s, init, now, x);
    }
  }

  /** Launching appends one in-flight entry, carrying the context, per registered
      agent, in launch order. */
  lemma {:induction false} LaunchAllCalls(s: State, keys: seq<string>, now: string)
    requires forall k | k in keys :: k in s.graph.nodes
    requires Distinct(keys)
    ensures LaunchAll(s, keys, now).inFlight == s.inFlight + Started(s.graph.nodes, keys, s.graph.context)
  {
    if keys != [] {
      var init := keys[..|keys| - 1];
      var last := keys[|keys| - 1];
      DistinctInit(keys);
      LaunchAllCalls(s, init, now);
      LaunchAllKeepsOthers(s, init, now, last);
      var m := LaunchAll(s, init, now);
      LaunchOneEffect(m, last, now);
      var tail := StartedEntry(s.graph.nodes[last], last, s.graph.context);
      assert StartedEntry(m.graph.nodes[last], last, m.graph.context) == tail;
    }
  }

  /** Launching writes nothing. */
  lemma {:induction false} LaunchAllWrites(s: State, keys: seq<string>, now: string)
    requires forall k | k in keys :: k in s.graph.nodes
    ensures LaunchAll(s, keys, now).writes == s.writes
  {
    if keys != [] {
      var init := keys[..|keys| - 1];
      assert forall k | k in init :: k in keys;
      LaunchAllWrites(s, init, now);
      LaunchOneEffect(LaunchAll(s, init, now), keys[|keys| - 1], now);
    }
  }

  /** Launching appends one `node_start` per registered agent, in launch order. */
  lemma {:induction false} LaunchAllEvents(s: State, keys: seq<string>, now: string)
    requires forall k | k in keys :: k in s.graph.nodes
    requires Distinct(keys)
    ensures LaunchAll(s, keys, now).events == s.events + StartEvents(s.graph.nodes, keys, now)
    ensures LaunchAll(s, keys, now).writes == s.writes
  {
    LaunchAllWrites(s, keys, now);
    if keys != [] {
      var init := keys[..|keys| - 1];
      var last := keys[|keys| - 1];
      DistinctInit(keys);
      LaunchAllEvents(s, init, now);
      LaunchAllKeepsOthers(s, init, now, last);
      var m := LaunchAll(s, init, now);
      LaunchOneEffect(m, last, now);
      var n := s.graph.nodes[last];
      assert m.graph.nodes[last] == n;
      var tail := StartEvent(n, now);
      assert StartEvents(s.graph.nodes, keys, now) == StartEvents(s.graph.nodes, init, now) + tail;
      assert LaunchAll(s, keys, now).events == m.events + tail;
    }
  }

  /** One pass: with every node completed it emits only `graph_complete` and launches
      nothing; otherwise exactly the nodes ready at the start of the pass are launched,
      and a running, completed or failed node is left as it was. */
  lemma PassEffect(s: State, now: string)
    requires Distinct(s.graph.order)
    ensures var r := Pass(s, now);
      AllDone(s.graph.order, s.graph.nodes) ==>
        r.graph == s.graph && r.inFlight == s.inFlight && r.events == s.events + [Signal(GraphComplete, now)]
    ensures var r := Pass(s, now);
      !AllDone(s.graph.order, s.graph.nodes) ==>
        forall x | x in s.graph.nodes ::
          r.graph.nodes[x] == if x in s.graph.order && Ready(s.graph.nodes, x) then Launched(s.graph.nodes[x]) else s.graph.nodes[x]
  {
    if !AllDone(s.graph.order, s.graph.nodes) {
      var keys := ReadyKeys(s.graph.order, s.graph.nodes);
      ReadyKeysDistinct(s.graph.order, s.graph.nodes);
      LaunchAllNodes(s, keys, now);
      forall x | x in s.graph.nodes
        ensures x in keys <==> x in s.graph.order && Ready(s.graph.nodes, x)
      {
        ReadyKeysExact(s.graph.order, s.graph.nodes, x);
      }
    }
  }

  /** A pass never relaunches: a node that is not idle, or whose dependencies are not all
      completed, keeps its status. */
  lemma NoRelaunch(s: State, now: string, x: string)
    requires Distinct(s.graph.order) && x in s.graph.nodes
    requires !Ready(s.graph.nodes, x)
    ensures Pass(s, now).graph.nodes[x] == s.graph.nodes[x]
  {
    PassEffect(s, now);
  }

  lemma {:induction false} StartEventsAreStarts(nodes: map<string, TaskNode>, keys: seq<string>, now: string)
    requires forall k | k in keys :: k in nodes
    ensures forall e | e in StartEvents(nodes, keys, now) :: e.kind == NodeStart
  {
    if keys != [] {
      StartEventsAreStarts(nodes, keys[..|keys| - 1], now);
    }
  }

  /** A pass emits `graph_complete` exactly when no enumerated node has a status other
      than completed. */
  lemma GraphCompleteExactlyWhenAllDone(s: State, now: string)
    requires Distinct(s.graph.order)
    ensures var r := Pass(s, now);
      (exists i | |s.events| <= i < |r.events| :: r.events[i].kind == GraphComplete)
      <==> AllDone(s.graph.order, s.graph.nodes)
  {
    var r := Pass(s, now);
    if AllDone(s.graph.order, s.graph.nodes) {
      assert r.events[|s.events|] == Signal(GraphComplete, now);
    } else {
      var keys := ReadyKeys(s.graph.order, s.graph.nodes);
      ReadyKeysDistinct(s.graph.order, s.graph.nodes);
      LaunchAllEvents(s, keys, now);
      StartEventsAreStarts(s.graph.nodes, keys, now);
      var starts := StartEvents(s.graph.nodes, keys, now);
      forall i | |s.events| <= i < |r.events|
        ensures r.events[i].kind == NodeStart
      {
        assert r.events[i] == starts[i - |s.events|];
        assert starts[i - |s.events|] in starts;
      }
    }
  }

  /** A stall: with some node not completed and none ready, a pass changes nothing and
      emits nothing. */
  lemma StallIsSilent(s: State, now: string)
    requires !AllDone(s.graph.order, s.graph.nodes)
    requires forall k | k in s.graph.order :: !Ready(s.graph.nodes, k)
    ensures Pass(s, now) == s
  {
    var keys := ReadyKeys(s.graph.order, s.graph.nodes);
    if keys != [] {
      ReadyKeysExact(s.graph.order, s.graph.nodes, keys[0]);
    }
  }

  // ---------------------------------------------------------------- resetting

  function Idled(n: TaskNode): TaskNode {
    n.(status := Idle, result := Undefined)
  }

  /** The `node_reset` events of resetting `ids`: one per id present in the graph. */
  function ResetEvents(nodes: map<string, TaskNode>, ids: seq<string>, now: string): seq<GraphEvent> {
    if ids == [] then []
    else ResetEvents(nodes, ids[..|ids| - 1], now)
         + (if ids[|ids| - 1] in nodes then [NodeEvent(NodeReset, ids[|ids| - 1], NoData, now)] else [])
  }

  /** Resetting sends exactly the listed, present nodes back to idle with no result. */
  lemma {:induction false} ResetAllNode(s: State, ids: seq<string>, now: string, x: string)
    requires x in s.graph.nodes
    ensures ResetAll(s, ids, now).graph.nodes[x] == if x in ids then Idled(s.graph.nodes[x]) else s.graph.nodes[x]
  {
    if ids != [] {
      var init := ids[..|ids| - 1];
      ResetAllNode(s, init, now, x);
      assert x in ids <==> x in init || x == ids[|ids| - 1];
    }
  }

  /** Resetting emits one `node_reset` per present id, in list order; absent ids are
      skipped, and nothing else changes. */
  lemma {:induction false} ResetAllLog(s: State, ids: seq<string>, now: string)
    ensures var r := ResetAll(s, ids, now);
      && r.events == s.events + ResetEvents(s.graph.nodes, ids, now)
      && r.graph.order == s.graph.order && r.writes == s.writes && r.subscribers == s.subscribers
  {
    if ids != [] {
      ResetAllLog(s, ids[..|ids| - 1], now);
    }
  }

  // ---------------------------------------------------------------- settling

  /** A completed result: the node completes with the data as its result, the context is
      the old one overwritten key by key by the data, and `node_complete` is emitted. */
  lemma CompleteEffect(s: State, key: string, data: map<string, Value>, now: string)
    requires key in s.graph.nodes
    ensures var r := Complete(s, key, data, now);
      var n := s.graph.nodes[key];
      && r.graph.nodes == s.graph.nodes[key := n.(status := Completed, result := Obj(data))]
      && r.graph.context.Keys == s.graph.context.Keys + data.Keys
      && (forall x | x in data :: r.graph.context[x] == data[x])
      && (forall x | x in s.graph.context && x !in data :: r.graph.context[x] == s.graph.context[x])
      && r.events == s.events + [NodeEvent(NodeComplete, n.id, Fields(data), now)]
      && r.inFlight == s.inFlight
  {
  }

  /** A failed result or a thrown error fails the node, emits `node_fail` with the result
      or the error, resets nothing and leaves the context alone; a new pass follows. */
  lemma SettleFailure(s: State, k: nat, outcome: Outcome, now: string)
    requires k < |s.inFlight| && Keyed(s)
    requires outcome.Threw? || outcome.result.status != Completed
    ensures var key := s.inFlight[k].key;
      var n := s.graph.nodes[key];
      var payload := if outcome.Threw? then Thrown(outcome.message) else FailedResult(outcome.result);
      var failed := s.(inFlight := Remove(s.inFlight, k),
                       graph := s.graph.(nodes := s.graph.nodes[key := n.(status := Failed)]));
      Settle(s, k, outcome, now) == Pass(Emit(failed, NodeEvent(NodeFail, n.id, payload, now)), now)
  {
    assert s.inFlight[k] in s.inFlight;
  }

  /** The creative generation stop: after its `node_complete` comes `graph_complete`, and
      no pass follows, so no node is launched. */
  lemma CreativeGenerationStops(s: State, k: nat, res: AgentResult, now: string)
    requires k < |s.inFlight| && Keyed(s) && res.status == Completed
    requires s.graph.nodes[s.inFlight[k].key].id == "creative_generation"
    ensures var key := s.inFlight[k].key;
      var n := s.graph.nodes[key];
      var r := Settle(s, k, Returned(res), now);
      && r.inFlight == Remove(s.inFlight, k)
      && r.graph.nodes == s.graph.nodes[key := n.(status := Completed, result := Obj(res.data))]
      && r.events == s.events + [NodeEvent(NodeComplete, "creative_generation", Fields(res.data), now),
                                 Signal(GraphComplete, now)]
  {
    assert s.inFlight[k] in s.inFlight;
  }

  /** The guardrails rejection: the failed variant id is appended to the rejected list,
      and the decision and guardrails nodes, where present, go back to idle. */
  lemma RejectEffect(c: State, key: string, data: map<string, Value>, now: string, xs: seq<Value>, x: string)
    requires key in c.graph.nodes && x in c.graph.nodes
    requires Or(Get(c.graph.context, "rejected_variants"), Arr([])) == Arr(xs)
    ensures var r := Reject(c, key, data, now);
      && r.graph.context == c.graph.context["rejected_variants" := Arr(xs + [Get(data, "failed_variant_id")])]
      && r.graph.nodes[x] == (if x == "decision" || x == "guardrails" then Idled(c.graph.nodes[x]) else c.graph.nodes[x])
      && r.events == c.events + ResetEvents(c.graph.nodes, ["decision", "guardrails"], now)
  {
    var c1 := c.(graph := c.graph.(context := c.graph.context["rejected_variants" := Arr(xs + [Get(data, "failed_variant_id")])]));
    ResetAllNode(c1, ["decision", "guardrails"], now, x);
    ResetAllLog(c1, ["decision", "guardrails"], now);
  }

  /** Only a completed guardrails result with `passed === false` rejects; the failed result
      of a missing creative goes down the failure path instead. */
  lemma OnlyCompletedRejectionLoopsBack(s: State, k: nat, outcome: Outcome, now: string)
    requires k < |s.inFlight| && Keyed(s)
    requires s.graph.nodes[s.inFlight[k].key].id == "guardrails"
    ensures var key := s.inFlight[k].key;
      var s0 := s.(inFlight := Remove(s.inFlight, k));
      Settle(s, k, outcome, now) ==
        if outcome.Returned? && outcome.result.status == Completed then
          var c := Complete(s0, key, outcome.result.data, now);
          Pass(if Get(outcome.result.data, "passed") == Bool(false) then Reject(c, key, outcome.result.data, now) else c, now)
        else Pass(Fail(s0, key, if outcome.Threw? then Thrown(outcome.message) else FailedResult(outcome.result), now), now)
  {
    assert s.inFlight[k] in s.inFlight;
  }

  /** The regeneration ceiling: with the loop count at 3 or more the decision node fails,
      the context records the error, `node_fail` follows `node_complete`, and no pass
      follows. */
  lemma CeilingStops(s: State, k: nat, res: AgentResult, now: string)
    requires k < |s.inFlight| && Keyed(s) && res.status == Completed
    requires s.graph.nodes[s.inFlight[k].key].id == "decision"
    requires Truthy(Get(res.data, "trigger_regeneration"))
    requires LoopCount(s.graph.context + res.data) >= MaxRetries
    ensures var key := s.inFlight[k].key;
      var r := Settle(s, k, Returned(res), now);
      && r.inFlight == Remove(s.inFlight, k)
      && r.graph.nodes == s.graph.nodes[key := s.graph.nodes[key].(status := Failed, result := Obj(res.data))]
      && r.graph.context == (s.graph.context + res.data)["error" := Str("Max retries exceeded. Unable to generate compliant creatives.")]
      && r.events == s.events + [NodeEvent(NodeComplete, "decision", Fields(res.data), now),
                                 NodeEvent(NodeFail, "decision", Fields(map["error" := Str("Max Retries Exceeded")]), now)]
  {
    var key := s.inFlight[k].key;
    assert s.inFlight[k] in s.inFlight;
    var s0 := s.(inFlight := Remove(s.inFlight, k));
    var c := Complete(s0, key, res.data, now);
    assert Settle(s, k, Returned(res), now) == AfterCompletion(c, key, res.data, now);
    assert c.graph.nodes[key].id == "decision";
    assert c.graph.context == s.graph.context + res.data;
    assert AfterCompletion(c, key, res.data, now) == GiveUp(c, key, now);
    assert c.events == s.events + [NodeEvent(NodeComplete, "decision", Fields(res.data), now)];
  }

  /** Below the ceiling a regeneration bumps the loop count by one, clears the rejections
      and sends the six cohort nodes, where present, back to idle. */
  lemma RegenerateEffect(c: State, now: string, x: string)
    requires x in c.graph.nodes
    ensures var r := Regenerate(c, now);
      && LoopCount(r.graph.context) == LoopCount(c.graph.context) + 1
      && r.graph.context["rejected_variants"] == Arr([])
      && r.graph.nodes[x] == (if x in Cohort() then Idled(c.graph.nodes[x]) else c.graph.nodes[x])
      && r.events == c.events + ResetEvents(c.graph.nodes, Cohort(), now)
  {
    var context := c.graph.context["loop_count" := Num(LoopCount(c.graph.context) + 1)]["rejected_variants" := Arr([])];
    var c1 := c.(graph := c.graph.(context := context));
    ResetAllNode(c1, Cohort(), now, x);
    ResetAllLog(c1, Cohort(), now);
  }

  // ---------------------------------------------------------------- the event log only grows

  lemma {:induction false} LaunchAllExtends(s: State, keys: seq<string>, now: string)
    requires forall k | k in keys :: k in s.graph.nodes
    ensures var r := LaunchAll(s, keys, now); s.events <= r.events && r.subscribers == s.subscribers
  {
    if keys != [] {
      var init := keys[..|keys| - 1];
      assert forall k | k in init :: k in keys;
      LaunchAllExtends(s, init, now);
    }
  }

  /** A pass only appends to the event log, and keeps the subscribers. */
  lemma PassExtends(s: State, now: string)
    ensures var r := Pass(s, now); s.events <= r.events && r.subscribers == s.subscribers
  {
    if !AllDone(s.graph.order, s.graph.nodes) {
      LaunchAllExtends(s, ReadyKeys(s.graph.order, s.graph.nodes), now);
    }
  }

  lemma RejectExtends(c: State, key: string, data: map<string, Value>, now: string)
    requires key in c.graph.nodes
    ensures var r := Reject(c, key, data, now); c.events <= r.events && r.subscribers == c.subscribers
  {
    match SpreadItems(Or(Get(c.graph.context, "rejected_variants"), Arr([])))
    case None =>
    case Some(items) =>
      var c1 := c.(graph := c.graph.(context := c.graph.context["rejected_variants" := Arr(items + [Get(data, "failed_variant_id")])]));
      ResetAllLog(c1, ["decision", "guardrails"], now);
  }

  lemma RegenerateExtends(c: State, now: string)
    ensures var r := Pass(Regenerate(c, now), now); c.events <= r.events && r.subscribers == c.subscribers
  {
    var context := c.graph.context["loop_count" := Num(LoopCount(c.graph.context) + 1)]["rejected_variants" := Arr([])];
    ResetAllLog(c.(graph := c.graph.(context := context)), Cohort(), now);
    PassExtends(Regenerate(c, now), now);
  }

  lemma AfterCompletionExtends(c: State, key: string, data: map<string, Value>, now: string)
    requires key in c.graph.nodes
    ensures var r := AfterCompletion(c, key, data, now); c.events <= r.events && r.subscribers == c.subscribers
  {
    var id := c.graph.nodes[key].id;
    if id != "creative_generation" {
      var s1 := if id == "guardrails" && Get(data, "passed") == Bool(false) then Reject(c, key, data, now) else c;
      RejectExtends(c, key, data, now);
      assert c.events <= s1.events && s1.subscribers == c.subscribers;
      if id == "decision" && Truthy(Get(data, "trigger_regeneration")) {
        if LoopCount(s1.graph.context) < MaxRetries {
          RegenerateExtends(s1, now);
          assert AfterCompletion(c, key, data, now) == Pass(Regenerate(s1, now), now);
        } else {
          assert AfterCompletion(c, key, data, now) == GiveUp(s1, key, now);
        }
      } else {
        PassExtends(s1, now);
        assert AfterCompletion(c, key, data, now) == Pass(s1, now);
      }
    }
  }

  /** Settling an agent call only appends to the event log, and keeps the subscribers. */
  lemma SettleExtends(s: State, k: nat, outcome: Outcome, now: string)
    requires k < |s.inFlight| && Keyed(s)
    ensures var r := Settle(s, k, outcome, now); s.events <= r.events && r.subscribers == s.subscribers
  {
    var key := s.inFlight[k].key;
    assert s.inFlight[k] in s.inFlight;
    var s0 := s.(inFlight := Remove(s.inFlight, k));
    match outcome
    case Threw(m) =>
      PassExtends(Fail(s0, key, Thrown(m), now), now);
    case Returned(res) =>
      if res.status != Completed {
        PassExtends(Fail(s0, key, FailedResult(res), now), now);
      } else {
        AfterCompletionExtends(Complete(s0, key, res.data, now), key, res.data, now);
      }
  }

  // ---------------------------------------------------------------- subscribers

  /** Unsubscribing removes every registration of that callback and only those: the
      others stay, in their order, and a callback never registered changes nothing. */
  lemma {:induction false} WithoutExact(subscribers: seq<nat>, cb: nat)
    ensures forall x :: x in Without(subscribers, cb) <==> x in subscribers && x != cb
    ensures |Without(subscribers, cb)| <= |subscribers|
    ensures cb !in subscribers ==> Without(subscribers, cb) == subscribers
  {
    if subscribers != [] {
      var init := subscribers[..|subscribers| - 1];
      WithoutExact(init, cb);
      assert subscribers == init + [subscribers[|subscribers| - 1]];
    }
  }

  /** Unsubscribing keeps the relative order of the remaining callbacks: removing from a
      concatenation is removing from each part. */
  lemma {:induction false} WithoutAppend(a: seq<nat>, b: seq<nat>, cb: nat)
    ensures Without(a + b, cb) == Without(a, cb) + Without(b, cb)
  {
    if b != [] {
      var init := b[..|b| - 1];
      WithoutAppend(a, init, cb);
      assert (a + b)[..|a + b| - 1] == a + init;
    } else {
      assert a + b == a;
    }
  }

  /** Settling one call leaves every other call in flight, in its order: the calls
      before it keep their places, the later ones close up by one. */
  lemma RemoveKeepsOthers(xs: seq<Launch>, k: nat)
    requires k < |xs|
    ensures var r := Remove(xs, k);
      |r| == |xs| - 1
      && (forall i :: 0 <= i < k ==> r[i] == xs[i])
      && (forall i :: k <= i < |r| ==> r[i] == xs[i + 1])
      && multiset(r) + multiset{xs[k]} == multiset(xs)
  {
    assert xs == xs[..k] + [xs[k]] + xs[k + 1..];
  }

  // ---------------------------------------------------------------- persistence

  /** The variants written are the leading run of variants that are neither null nor
      undefined: the first variant after them, if any, is one of the two. */
  lemma {:induction false} UntilNullishPrefix(vs: seq<Value>)
    ensures var ok := UntilNullish(vs);
      |ok| <= |vs| && ok == vs[..|ok|]
      && (forall i :: 0 <= i < |ok| ==> !Nullish(ok[i]))
      && (|ok| < |vs| ==> Nullish(vs[|ok|]))
    decreases |vs|
  {
    if vs != [] && !Nullish(vs[0]) {
      UntilNullishPrefix(vs[1..]);
      var rest := UntilNullish(vs[1..]);
      assert vs[..1 + |rest|] == [vs[0]] + vs[1..][..|rest|];
    }
  }
}
