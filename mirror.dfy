/** How far the campaign store's graph mirror follows the orchestrator. The store learns
    about the graph only through events, so the mirror's nodes equal the orchestrator's
    exactly as long as every status change is announced: launches, completions and
    resets are, but a failure (`node_fail` has no branch in the subscriber) and the
    regeneration ceiling are not. */
module Mirror {
  import opened Wrappers
  import opened Json
  import opened Graph
  import opened Scheduler
  import SchedulerProperties
  import opened CampaignStore
  import StoreProperties
  import Planning

  /** The mirror holds the orchestrator's nodes, in the same enumeration order. */
  predicate Tracks(v: View, s: State) {
    v.graph.Some? && v.graph.value.order == s.graph.order && v.graph.value.nodes == s.graph.nodes
  }

  /** Every node is keyed by its own, non-empty id and runs a registered agent: the
      events a node's changes produce then name the node the store looks up. */
  predicate Wired(nodes: map<string, TaskNode>) {
    forall k | k in nodes :: nodes[k].id == k && k != "" && Registered(nodes[k].agentName)
  }

  /** Folding two stretches of events is folding their concatenation. */
  lemma {:induction false} ReduceAllAppend(v: View, a: seq<GraphEvent>, b: seq<GraphEvent>, archiveId: string, date: string)
    ensures ReduceAll(v, a + b, archiveId, date) == ReduceAll(ReduceAll(v, a, archiveId, date), b, archiveId, date)
  {
    if b == [] {
      assert a + b == a;
    } else {
      ReduceAllAppend(v, a, b[..|b| - 1], archiveId, date);
      assert (a + b)[..|a + b| - 1] == a + b[..|b| - 1];
      assert (a + b)[|a + b| - 1] == b[|b| - 1];
    }
  }

  /** If the mirror tracks through `s` to `m` and through `m` to `r`, it tracks from `s` to `r`. */
  lemma Chain(v: View, s: State, m: State, r: State, archiveId: string, date: string)
    requires s.events <= m.events && m.events <= r.events
    ensures s.events <= r.events
    ensures ReduceAll(v, r.events[|s.events|..], archiveId, date)
            == ReduceAll(ReduceAll(v, m.events[|s.events|..], archiveId, date), r.events[|m.events|..], archiveId, date)
  {
    assert r.events[|s.events|..] == m.events[|s.events|..] + r.events[|m.events|..];
    ReduceAllAppend(v, m.events[|s.events|..], r.events[|m.events|..], archiveId, date);
  }

  lemma ReduceOne(v: View, e: GraphEvent, archiveId: string, date: string)
    ensures ReduceAll(v, [e], archiveId, date) == Reduce(v, e, archiveId, date)
  {
    assert [e][..0] == [];
  }

  // ---------------------------------------------------------------- announced changes

  /** A launch of a wired node appends exactly its `node_start`. */
  lemma LaunchOneAnnounces(s: State, key: string, now: string)
    requires key in s.graph.nodes && Wired(s.graph.nodes)
    ensures var r := LaunchOne(s, key, now);
      Wired(r.graph.nodes) && r.events == s.events + [NodeEvent(NodeStart, key, NoData, now)]
  {
  }

  lemma LaunchOneTracks(v: View, s: State, key: string, now: string, archiveId: string, date: string)
    requires key in s.graph.nodes && Tracks(v, s) && Wired(s.graph.nodes)
    ensures s.events <= LaunchOne(s, key, now).events
    ensures var r := LaunchOne(s, key, now);
      Wired(r.graph.nodes) && Tracks(ReduceAll(v, r.events[|s.events|..], archiveId, date), r)
  {
    var r := LaunchOne(s, key, now);
    var e := NodeEvent(NodeStart, key, NoData, now);
    LaunchOneAnnounces(s, key, now);
    assert r.events[|s.events|..] == [e];
    ReduceOne(v, e, archiveId, date);
  }

  /** Launches are announced, so the mirror follows them. */
  lemma {:induction false} LaunchAllTracks(v: View, s: State, keys: seq<string>, now: string, archiveId: string, date: string)
    requires forall k | k in keys :: k in s.graph.nodes
    requires Tracks(v, s) && Wired(s.graph.nodes)
    ensures var r := LaunchAll(s, keys, now);
      s.events <= r.events && Wired(r.graph.nodes) && Tracks(ReduceAll(v, r.events[|s.events|..], archiveId, date), r)
  {
    if keys != [] {
      var init := keys[..|keys| - 1];
      assert forall k | k in init :: k in keys;
      LaunchAllTracks(v, s, init, now, archiveId, date);
      var m := LaunchAll(s, init, now);
      LaunchOneTracks(ReduceAll(v, m.events[|s.events|..], archiveId, date), m, keys[|keys| - 1], now, archiveId, date);
      Chain(v, s, m, LaunchAll(s, keys, now), archiveId, date);
    }
  }

  /** A scheduling pass keeps the mirror in step. */
  lemma PassTracks(v: View, s: State, now: string, archiveId: string, date: string)
    requires Tracks(v, s) && Wired(s.graph.nodes)
    ensures var r := Pass(s, now);
      s.events <= r.events && Wired(r.graph.nodes) && Tracks(ReduceAll(v, r.events[|s.events|..], archiveId, date), r)
  {
    if AllDone(s.graph.order, s.graph.nodes) {
      var e := Signal(GraphComplete, now);
      assert Pass(s, now).events[|s.events|..] == [e];
      ReduceOne(v, e, archiveId, date);
    } else {
      LaunchAllTracks(v, s, ReadyKeys(s.graph.order, s.graph.nodes), now, archiveId, date);
    }
  }

  lemma ResetOneTracks(v: View, s: State, id: string, now: string, archiveId: string, date: string)
    requires Tracks(v, s) && Wired(s.graph.nodes)
    ensures var r := ResetOne(s, id, now);
      s.events <= r.events && Wired(r.graph.nodes) && Tracks(ReduceAll(v, r.events[|s.events|..], archiveId, date), r)
  {
    var r := ResetOne(s, id, now);
    if id in s.graph.nodes {
      var e := NodeEvent(NodeReset, id, NoData, now);
      assert r.events[|s.events|..] == [e];
      ReduceOne(v, e, archiveId, date);
    } else {
      assert r.events[|s.events|..] == [];
    }
  }

  /** Resets are announced, so the mirror follows them. */
  lemma {:induction false} ResetAllTracks(v: View, s: State, ids: seq<string>, now: string, archiveId: string, date: string)
    requires Tracks(v, s) && Wired(s.graph.nodes)
    ensures var r := ResetAll(s, ids, now);
      s.events <= r.events && Wired(r.graph.nodes) && Tracks(ReduceAll(v, r.events[|s.events|..], archiveId, date), r)
  {
    if ids == [] {
      assert s.events[|s.events|..] == [];
    } else {
      var init := ids[..|ids| - 1];
      ResetAllTracks(v, s, init, now, archiveId, date);
      var m := ResetAll(s, init, now);
      ResetOneTracks(ReduceAll(v, m.events[|s.events|..], archiveId, date), m, ids[|ids| - 1], now, archiveId, date);
      Chain(v, s, m, ResetAll(s, ids, now), archiveId, date);
    }
  }

  /** A completion is announced with its data, so the mirror's node completes with the
      same result and the mirror's context takes the same merge. */
  lemma CompleteTracks(v: View, s: State, key: string, data: map<string, Value>, now: string, archiveId: string, date: string)
    requires key in s.graph.nodes && Tracks(v, s) && Wired(s.graph.nodes)
    requires !Truthy(Get(data, "taskGraph"))
    ensures var r := Complete(s, key, data, now);
      var w := ReduceAll(v, r.events[|s.events|..], archiveId, date);
      s.events <= r.events && Wired(r.graph.nodes) && Tracks(w, r)
      && w.graph.value.context == v.graph.value.context + data
  {
    var r := Complete(s, key, data, now);
    var e := NodeEvent(NodeComplete, key, Fields(data), now);
    assert r.events[|s.events|..] == [e];
    ReduceOne(v, e, archiveId, date);
  }

  // ---------------------------------------------------------------- the settling of a call

  /** The control points keep the mirror in step, except at the regeneration ceiling and
      when the rejected list cannot be spread (both end in an unannounced failure). */
  predicate FullyAnnounced(id: string, context: map<string, Value>, data: map<string, Value>) {
    && (id == "guardrails" && Get(data, "passed") == Bool(false) ==>
          SpreadItems(Or(Get(context, "rejected_variants"), Arr([]))).Some?)
    && (id == "decision" && Truthy(Get(data, "trigger_regeneration")) ==> LoopCount(context) < MaxRetries)
  }

  lemma RejectTracks(v: View, c: State, key: string, data: map<string, Value>, now: string, archiveId: string, date: string)
    requires key in c.graph.nodes && Tracks(v, c) && Wired(c.graph.nodes)
    requires SpreadItems(Or(Get(c.graph.context, "rejected_variants"), Arr([]))).Some?
    ensures var r := Reject(c, key, data, now);
      c.events <= r.events && Wired(r.graph.nodes) && Tracks(ReduceAll(v, r.events[|c.events|..], archiveId, date), r)
  {
    var items := SpreadItems(Or(Get(c.graph.context, "rejected_variants"), Arr([]))).value;
    var c1 := c.(graph := c.graph.(context := c.graph.context["rejected_variants" := Arr(items + [Get(data, "failed_variant_id")])]));
    ResetAllTracks(v, c1, ["decision", "guardrails"], now, archiveId, date);
  }

  lemma RegenerateTracks(v: View, c: State, now: string, archiveId: string, date: string)
    requires Tracks(v, c) && Wired(c.graph.nodes)
    ensures var r := Pass(Regenerate(c, now), now);
      c.events <= r.events && Wired(r.graph.nodes) && Tracks(ReduceAll(v, r.events[|c.events|..], archiveId, date), r)
  {
    var context := c.graph.context["loop_count" := Num(LoopCount(c.graph.context) + 1)]["rejected_variants" := Arr([])];
    var c1 := c.(graph := c.graph.(context := context));
    ResetAllTracks(v, c1, Cohort(), now, archiveId, date);
    var m := Regenerate(c, now);
    PassTracks(ReduceAll(v, m.events[|c.events|..], archiveId, date), m, now, archiveId, date);
    Chain(v, c, m, Pass(m, now), archiveId, date);
  }

  /** The guardrails' verdict: a rejection is announced through the resets it causes. */
  lemma ScreenTracks(v: View, c: State, key: string, data: map<string, Value>, now: string, archiveId: string, date: string)
    requires key in c.graph.nodes && Tracks(v, c) && Wired(c.graph.nodes)
    requires FullyAnnounced(c.graph.nodes[key].id, c.graph.context, data)
    ensures var s1 := if c.graph.nodes[key].id == "guardrails" && Get(data, "passed") == Bool(false)
                      then Reject(c, key, data, now) else c;
      c.events <= s1.events && Wired(s1.graph.nodes) && Tracks(ReduceAll(v, s1.events[|c.events|..], archiveId, date), s1)
  {
    if c.graph.nodes[key].id == "guardrails" && Get(data, "passed") == Bool(false) {
      RejectTracks(v, c, key, data, now, archiveId, date);
    } else {
      assert c.events[|c.events|..] == [];
    }
  }

  lemma AfterCompletionTracks(v: View, c: State, key: string, data: map<string, Value>, now: string, archiveId: string, date: string)
    requires key in c.graph.nodes && Tracks(v, c) && Wired(c.graph.nodes)
    requires FullyAnnounced(c.graph.nodes[key].id, c.graph.context, data)
    ensures var r := AfterCompletion(c, key, data, now);
      c.events <= r.events && Wired(r.graph.nodes) && Tracks(ReduceAll(v, r.events[|c.events|..], archiveId, date), r)
  {
    if c.graph.nodes[key].id == "creative_generation" {
      StopTracks(v, c, now, archiveId, date);
      assert AfterCompletion(c, key, data, now) == Emit(c, Signal(GraphComplete, now));
    } else {
      ScreenedTracks(v, c, key, data, now, archiveId, date);
    }
  }

  /** The creative generation stop announces `graph_complete` and changes no node. */
  lemma StopTracks(v: View, c: State, now: string, archiveId: string, date: string)
    requires Tracks(v, c) && Wired(c.graph.nodes)
    ensures var r := Emit(c, Signal(GraphComplete, now));
      c.events <= r.events && Wired(r.graph.nodes) && Tracks(ReduceAll(v, r.events[|c.events|..], archiveId, date), r)
  {
    var e := Signal(GraphComplete, now);
    assert Emit(c, e).events[|c.events|..] == [e];
    ReduceOne(v, e, archiveId, date);
  }

  lemma ScreenedTracks(v: View, c: State, key: string, data: map<string, Value>, now: string, archiveId: string, date: string)
    requires key in c.graph.nodes && Tracks(v, c) && Wired(c.graph.nodes)
    requires c.graph.nodes[key].id != "creative_generation"
    requires FullyAnnounced(c.graph.nodes[key].id, c.graph.context, data)
    ensures var r := AfterCompletion(c, key, data, now);
      c.events <= r.events && Wired(r.graph.nodes) && Tracks(ReduceAll(v, r.events[|c.events|..], archiveId, date), r)
  {
    var id := c.graph.nodes[key].id;
    var s1 := if id == "guardrails" && Get(data, "passed") == Bool(false) then Reject(c, key, data, now) else c;
    var regenerate := id == "decision" && Truthy(Get(data, "trigger_regeneration"));
    ScreenTracks(v, c, key, data, now, archiveId, date);
    ContinueTracks(v, c, s1, regenerate, now, archiveId, date);
    if regenerate {
      assert s1 == c;
    }
    assert AfterCompletion(c, key, data, now) == if regenerate then Pass(Regenerate(s1, now), now) else Pass(s1, now);
  }

  /** What follows the guardrails' verdict: a pass, after a regeneration when one was asked for. */
  lemma ContinueTracks(v: View, c: State, s1: State, regenerate: bool, now: string, archiveId: string, date: string)
    requires c.events <= s1.events && Wired(s1.graph.nodes) && Tracks(ReduceAll(v, s1.events[|c.events|..], archiveId, date), s1)
    ensures var r := if regenerate then Pass(Regenerate(s1, now), now) else Pass(s1, now);
      c.events <= r.events && Wired(r.graph.nodes) && Tracks(ReduceAll(v, r.events[|c.events|..], archiveId, date), r)
  {
    var v1 := ReduceAll(v, s1.events[|c.events|..], archiveId, date);
    if regenerate {
      RegenerateTracks(v1, s1, now, archiveId, date);
      Chain(v, c, s1, Pass(Regenerate(s1, now), now), archiveId, date);
    } else {
      PassTracks(v1, s1, now, archiveId, date);
      Chain(v, c, s1, Pass(s1, now), archiveId, date);
    }
  }

  /** A completed result whose consequences are all announced leaves the mirror in step
      with the orchestrator: the store's graph holds exactly the orchestrator's nodes. */
  lemma SettleTracks(v: View, s: State, k: nat, res: AgentResult, now: string, archiveId: string, date: string)
    requires k < |s.inFlight| && Keyed(s) && Tracks(v, s) && Wired(s.graph.nodes)
    requires res.status == Completed && !Truthy(Get(res.data, "taskGraph"))
    requires s.inFlight[k].key in s.graph.nodes
    requires FullyAnnounced(s.graph.nodes[s.inFlight[k].key].id, s.graph.context + res.data, res.data)
    ensures var r := Settle(s, k, Returned(res), now);
      s.events <= r.events && Wired(r.graph.nodes) && Tracks(ReduceAll(v, r.events[|s.events|..], archiveId, date), r)
  {
    var key := s.inFlight[k].key;
    assert s.inFlight[k] in s.inFlight;
    var s0 := s.(inFlight := Remove(s.inFlight, k));
    CompleteTracks(v, s0, key, res.data, now, archiveId, date);
    var c := Complete(s0, key, res.data, now);
    AfterCompletionTracks(ReduceAll(v, c.events[|s.events|..], archiveId, date), c, key, res.data, now, archiveId, date);
    Chain(v, s, c, AfterCompletion(c, key, res.data, now), archiveId, date);
  }

  // ---------------------------------------------------------------- unannounced changes

  /** A `node_start` for another node leaves a node's place in the mirror alone. */
  lemma StartSpares(v: View, id: string, key: string, now: string, archiveId: string, date: string)
    requires id != key && v.graph.Some? && key in v.graph.value.nodes
    ensures var w := Reduce(v, NodeEvent(NodeStart, id, NoData, now), archiveId, date);
      w.graph.Some? && key in w.graph.value.nodes && w.graph.value.nodes[key] == v.graph.value.nodes[key]
  {
  }

  /** A node the pass does not launch keeps its place in the mirror: launches announce
      only the launched nodes. */
  lemma {:induction false} LaunchAllSpares(v: View, s: State, keys: seq<string>, key: string, now: string, archiveId: string, date: string)
    requires forall k | k in keys :: k in s.graph.nodes
    requires key in s.graph.nodes && key !in keys && Wired(s.graph.nodes)
    requires v.graph.Some? && key in v.graph.value.nodes
    ensures s.events <= LaunchAll(s, keys, now).events
    ensures var r := LaunchAll(s, keys, now);
      var w := ReduceAll(v, r.events[|s.events|..], archiveId, date);
      Wired(r.graph.nodes) && w.graph.Some? && key in w.graph.value.nodes && w.graph.value.nodes[key] == v.graph.value.nodes[key]
  {
    if keys == [] {
      assert s.events[|s.events|..] == [];
    } else {
      var init := keys[..|keys| - 1];
      var last := keys[|keys| - 1];
      assert forall k | k in init :: k in keys;
      LaunchAllSpares(v, s, init, key, now, archiveId, date);
      var m := LaunchAll(s, init, now);
      var vm := ReduceAll(v, m.events[|s.events|..], archiveId, date);
      var e := NodeEvent(NodeStart, last, NoData, now);
      LaunchOneAnnounces(m, last, now);
      assert LaunchOne(m, last, now).events[|m.events|..] == [e];
      ReduceOne(vm, e, archiveId, date);
      StartSpares(vm, last, key, now, archiveId, date);
      Chain(v, s, m, LaunchOne(m, last, now), archiveId, date);
    }
  }

  /** A pass leaves a node that is not idle alone, in the orchestrator and in the mirror. */
  lemma PassSpares(v: View, s: State, key: string, now: string, archiveId: string, date: string)
    requires key in s.graph.nodes && s.graph.nodes[key].status != Idle && Wired(s.graph.nodes)
    requires v.graph.Some? && key in v.graph.value.nodes
    ensures s.events <= Pass(s, now).events
    ensures var r := Pass(s, now);
      var w := ReduceAll(v, r.events[|s.events|..], archiveId, date);
      r.graph.nodes[key] == s.graph.nodes[key]
      && w.graph.Some? && key in w.graph.value.nodes && w.graph.value.nodes[key] == v.graph.value.nodes[key]
  {
    if AllDone(s.graph.order, s.graph.nodes) {
      var e := Signal(GraphComplete, now);
      assert Pass(s, now).events[|s.events|..] == [e];
      ReduceOne(v, e, archiveId, date);
    } else {
      var keys := ReadyKeys(s.graph.order, s.graph.nodes);
      SchedulerProperties.ReadyKeysExact(s.graph.order, s.graph.nodes, key);
      SchedulerProperties.LaunchAllKeepsOthers(s, keys, now, key);
      LaunchAllSpares(v, s, keys, key, now, archiveId, date);
    }
  }

  /** A failure is not announced: the store ignores `node_fail`, while the orchestrator's
      node is failed. */
  lemma FailNotMirrored(v: View, s: State, key: string, payload: Payload, now: string, archiveId: string, date: string)
    requires key in s.graph.nodes
    ensures s.events <= Fail(s, key, payload, now).events
    ensures var r := Fail(s, key, payload, now);
      r.graph.nodes[key].status == Failed && ReduceAll(v, r.events[|s.events|..], archiveId, date) == v
  {
    var e := NodeEvent(NodeFail, s.graph.nodes[key].id, payload, now);
    assert Fail(s, key, payload, now).events[|s.events|..] == [e];
    ReduceOne(v, e, archiveId, date);
  }

  /** When an agent call fails or throws, the orchestrator fails the node while the store
      goes on showing the node as it was before the call settled: from then on the mirror
      is out of step. */
  lemma SettleFailureNotMirrored(v: View, s: State, k: nat, outcome: Outcome, now: string, archiveId: string, date: string)
    requires k < |s.inFlight| && Keyed(s) && Tracks(v, s) && Wired(s.graph.nodes)
    requires outcome.Threw? || outcome.result.status != Completed
    ensures s.events <= Settle(s, k, outcome, now).events
    ensures var key := s.inFlight[k].key;
      var r := Settle(s, k, outcome, now);
      var w := ReduceAll(v, r.events[|s.events|..], archiveId, date);
      && key in s.graph.nodes && r.graph.nodes[key].status == Failed
      && w.graph.Some? && key in w.graph.value.nodes && w.graph.value.nodes[key] == s.graph.nodes[key]
      && (s.graph.nodes[key].status != Failed ==> !Tracks(w, r))
  {
    var key := s.inFlight[k].key;
    assert s.inFlight[k] in s.inFlight;
    var s0 := s.(inFlight := Remove(s.inFlight, k));
    var payload := if outcome.Threw? then Thrown(outcome.message) else FailedResult(outcome.result);
    FailNotMirrored(v, s0, key, payload, now, archiveId, date);
    var f := Fail(s0, key, payload, now);
    assert Settle(s, k, outcome, now) == Pass(f, now);
    PassSpares(v, f, key, now, archiveId, date);
    Chain(v, s, f, Pass(f, now), archiveId, date);
  }

  /** Giving up is not announced either: `node_fail` for the decision node is ignored. */
  lemma GiveUpNotMirrored(v: View, c: State, key: string, now: string, archiveId: string, date: string)
    requires key in c.graph.nodes
    ensures c.events <= GiveUp(c, key, now).events
    ensures var r := GiveUp(c, key, now);
      r.graph.nodes[key].status == Failed && ReduceAll(v, r.events[|c.events|..], archiveId, date) == v
  {
    var e := NodeEvent(NodeFail, "decision", Fields(map["error" := Str("Max Retries Exceeded")]), now);
    assert GiveUp(c, key, now).events[|c.events|..] == [e];
    ReduceOne(v, e, archiveId, date);
  }

  lemma CeilingReached(v: View, c: State, key: string, data: map<string, Value>, now: string, archiveId: string, date: string)
    requires key in c.graph.nodes && c.graph.nodes[key].id == "decision"
    requires Truthy(Get(data, "trigger_regeneration")) && LoopCount(c.graph.context) >= MaxRetries
    ensures c.events <= AfterCompletion(c, key, data, now).events
    ensures var r := AfterCompletion(c, key, data, now);
      r.graph.nodes[key].status == Failed && ReduceAll(v, r.events[|c.events|..], archiveId, date) == v
  {
    assert AfterCompletion(c, key, data, now) == GiveUp(c, key, now);
    GiveUpNotMirrored(v, c, key, now, archiveId, date);
  }

  /** At the regeneration ceiling the decision node's completion is announced but its
      failure is not: the store shows the decision completed, the orchestrator failed. */
  lemma CeilingNotMirrored(v: View, s: State, k: nat, res: AgentResult, now: string, archiveId: string, date: string)
    requires k < |s.inFlight| && Keyed(s) && Tracks(v, s) && Wired(s.graph.nodes)
    requires s.inFlight[k].key in s.graph.nodes && s.graph.nodes[s.inFlight[k].key].id == "decision"
    requires res.status == Completed && !Truthy(Get(res.data, "taskGraph"))
    requires Truthy(Get(res.data, "trigger_regeneration")) && LoopCount(s.graph.context + res.data) >= MaxRetries
    ensures s.events <= Settle(s, k, Returned(res), now).events
    ensures var key := s.inFlight[k].key;
      var r := Settle(s, k, Returned(res), now);
      var w := ReduceAll(v, r.events[|s.events|..], archiveId, date);
      && r.graph.nodes[key].status == Failed
      && w.graph.Some? && key in w.graph.value.nodes && w.graph.value.nodes[key].status == Completed
      && !Tracks(w, r)
  {
    var key := s.inFlight[k].key;
    var s0 := s.(inFlight := Remove(s.inFlight, k));
    CompleteTracks(v, s0, key, res.data, now, archiveId, date);
    var c := Complete(s0, key, res.data, now);
    var vc := ReduceAll(v, c.events[|s.events|..], archiveId, date);
    CeilingReached(vc, c, key, res.data, now, archiveId, date);
    Chain(v, s, c, AfterCompletion(c, key, res.data, now), archiveId, date);
  }

  // ---------------------------------------------------------------- planning

  /** The planned pipeline is wired: each of its nodes is keyed by its id and runs a
      registered agent. */
  lemma PipelineWired(p: Planning.PlanningInput)
    ensures Wired(Planning.ConstructExecutionPipeline(p))
  {
    Planning.PipelineShape(p);
  }

  /** A pass over a graph with a node still to run announces only launches. */
  lemma PassOnlyStarts(v: View, s: State, now: string, archiveId: string, date: string)
    requires Distinct(s.graph.order) && !AllDone(s.graph.order, s.graph.nodes)
    ensures s.events <= Pass(s, now).events
    ensures var w := ReduceAll(v, Pass(s, now).events[|s.events|..], archiveId, date);
      w.status == v.status && w.campaigns == v.campaigns && w.input == v.input && v.logs <= w.logs
  {
    var keys := ReadyKeys(s.graph.order, s.graph.nodes);
    SchedulerProperties.ReadyKeysDistinct(s.graph.order, s.graph.nodes);
    SchedulerProperties.LaunchAllEvents(s, keys, now);
    SchedulerProperties.StartEventsAreStarts(s.graph.nodes, keys, now);
    var es := Pass(s, now).events[|s.events|..];
    assert es == SchedulerProperties.StartEvents(s.graph.nodes, keys, now);
    assert forall i | 0 <= i < |es| :: es[i] in es;
    StoreProperties.ReduceAllKeeps(v, es, archiveId, date);
  }

  /** An accepted plan is mirrored before anything runs: the store announces it, then the
      first pass's launches keep the mirror in step, and the store is running. */
  lemma PlanAcceptedTracks(v: View, s: State, g: TaskGraph, reasoning: string, now: string, archiveId: string, date: string)
    requires Wired(g.nodes) && Distinct(g.order) && !AllDone(g.order, g.nodes)
    ensures var r := PlanAccepted(v, s, g, reasoning, now, archiveId, date);
      && r.2 && Tracks(r.0, r.1) && r.0.status == StatusRunning
      && r.0.input == v.input && r.0.campaigns == v.campaigns
      && v.logs + [Line(now, "Completed task: " + "planning"), "Campaign execution plan generated. Initiating execution sequence..."] <= r.0.logs
  {
    var e := NodeEvent(NodeComplete, "planning", Planned(g, reasoning), now);
    var s1 := Emit(s.(graph := g, inFlight := []), e);
    ReduceOne(v, e, archiveId, date);
    var va := CampaignStore.Announced(v, [e], archiveId, date).(status := StatusRunning);
    assert Tracks(va, s1);
    PassTracks(va, s1, now, archiveId, date);
    PassOnlyStarts(va, s1, now, archiveId, date);
    var s2 := Pass(s1, now);
    var vb := ReduceAll(va, s2.events[|s1.events|..], archiveId, date);
    assert PlanAccepted(v, s, g, reasoning, now, archiveId, date) == (vb, s2, true);
    assert va.logs == v.logs + [Line(now, "Completed task: " + "planning"), "Campaign execution plan generated. Initiating execution sequence..."];
  }

  /** `planCampaign` on an input the planner accepts leaves the store running, its mirror
      holding the orchestrator's pipeline after the first pass, and its log starting with
      the plan's completion and announcement (the database line is gone). */
  lemma PlanFlowAccepted(v: View, s: State, userId: Option<string>, created: Result<string>, millis: nat,
                         now: string, archiveId: string, date: string)
    requires Planning.Execute(v.input["campaignId" := Str(CampaignIdFor(userId, created, millis))]).PlanOk?
    ensures var r := PlanFlow(v, s, userId, created, millis, now, archiveId, date);
      && r.2 && Tracks(r.0, r.1) && r.0.status == StatusRunning
      && r.0.input == v.input && r.0.campaigns == v.campaigns
      && [Line(now, "Completed task: " + "planning"), "Campaign execution plan generated. Initiating execution sequence..."] <= r.0.logs
  {
    var input := v.input["campaignId" := Str(CampaignIdFor(userId, created, millis))];
    var outcome := Planning.Execute(input);
    PlanOkShape(input);
    StoreProperties.BeginPlanDiscardsSystemLog(v, userId, created);
    PlanAcceptedTracks(BeginPlan(v, userId, created), s, outcome.graph, outcome.reasoning, now, archiveId, date);
    assert PlanFlow(v, s, userId, created, millis, now, archiveId, date)
        == PlanAccepted(BeginPlan(v, userId, created), s, outcome.graph, outcome.reasoning, now, archiveId, date);
  }

  /** An accepted plan is the wired pipeline with its first node still to run. */
  lemma PlanOkShape(input: map<string, Value>)
    requires Planning.Execute(input).PlanOk?
    ensures var g := Planning.Execute(input).graph;
      && Wired(g.nodes) && Distinct(g.order) && !AllDone(g.order, g.nodes) && g.order == Planning.PipelineOrder
  {
    Planning.ExecuteFailsOnlyOnBadGoal(input);
    var p := Planning.NormalizeInput(input).value;
    Planning.PipelineShape(p);
    PipelineWired(p);
    var g := Planning.Execute(input).graph;
    assert g.nodes == Planning.ConstructExecutionPipeline(p);
    assert g.nodes["market_research"].status == Idle;
    assert Planning.PipelineOrder[0] == "market_research";
  }
}
