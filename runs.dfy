/** Whole runs of the orchestrator: a sequence of settled agent calls after a pass, and
    the bound on the regeneration loop along any such run. */
module Runs {
  import opened Wrappers
  import opened Json
  import opened Graph
  import opened Scheduler
  import opened SchedulerProperties
  import Planning

  /** Which in-flight call settles next, how, and when. */
  datatype Step = Step(k: nat, outcome: Outcome, now: string)

  /** Settles the calls one after another; the run ends at the first step that names no
      in-flight call. */
  function RunSteps(s: State, steps: seq<Step>): (r: State)
    requires Keyed(s)
    ensures Keyed(r)
    decreases |steps|
  {
    if steps == [] || steps[0].k >= |s.inFlight| then s
    else RunSteps(Settle(s, steps[0].k, steps[0].outcome, steps[0].now), steps[1..])
  }

  // ---------------------------------------------------------------- regeneration bound

  /** A settle that takes the regeneration branch below the ceiling. */
  predicate Regenerates(s: State, step: Step)
    requires Keyed(s)
  {
    && step.k < |s.inFlight|
    && step.outcome.Returned? && step.outcome.result.status == Completed
    && (assert s.inFlight[step.k] in s.inFlight; s.graph.nodes[s.inFlight[step.k].key].id == "decision")
    && Truthy(Get(step.outcome.result.data, "trigger_regeneration"))
    && LoopCount(s.graph.context) < MaxRetries
  }

  /** The number of regenerations along a run. */
  function Regenerations(s: State, steps: seq<Step>): nat
    requires Keyed(s)
    decreases |steps|
  {
    if steps == [] || steps[0].k >= |s.inFlight| then 0
    else (if Regenerates(s, steps[0]) then 1 else 0)
         + Regenerations(Settle(s, steps[0].k, steps[0].outcome, steps[0].now), steps[1..])
  }

  /** Agents do not write the loop counter themselves. */
  predicate KeepsLoopCount(o: Outcome) {
    o.Threw? || "loop_count" !in o.result.data
  }

  lemma RegenerateCount(c: State, now: string)
    ensures LoopCount(Regenerate(c, now).graph.context) == LoopCount(c.graph.context) + 1
  {
  }

  lemma RejectKeepsLoopCount(c: State, key: string, data: map<string, Value>, now: string)
    requires key in c.graph.nodes
    ensures Get(Reject(c, key, data, now).graph.context, "loop_count") == Get(c.graph.context, "loop_count")
  {
  }

  lemma GiveUpKeepsLoopCount(c: State, key: string, now: string)
    requires key in c.graph.nodes
    ensures Get(GiveUp(c, key, now).graph.context, "loop_count") == Get(c.graph.context, "loop_count")
  {
  }

  /** The control points raise the loop count by one exactly on a regeneration. */
  lemma AfterCompletionLoopCount(c: State, key: string, data: map<string, Value>, now: string)
    requires key in c.graph.nodes
    ensures var id := c.graph.nodes[key].id;
      LoopCount(AfterCompletion(c, key, data, now).graph.context)
      == LoopCount(c.graph.context)
         + (if id == "decision" && Truthy(Get(data, "trigger_regeneration")) && LoopCount(c.graph.context) < MaxRetries then 1 else 0)
  {
    var id := c.graph.nodes[key].id;
    if id != "creative_generation" {
      var s1 := if id == "guardrails" && Get(data, "passed") == Bool(false) then Reject(c, key, data, now) else c;
      RejectKeepsLoopCount(c, key, data, now);
      assert LoopCount(s1.graph.context) == LoopCount(c.graph.context);
      if id == "decision" && Truthy(Get(data, "trigger_regeneration")) {
        if LoopCount(s1.graph.context) >= MaxRetries {
          GiveUpKeepsLoopCount(s1, key, now);
          assert AfterCompletion(c, key, data, now) == GiveUp(s1, key, now);
        } else {
          RegenerateCount(s1, now);
          assert AfterCompletion(c, key, data, now) == Pass(Regenerate(s1, now), now);
        }
      } else {
        assert AfterCompletion(c, key, data, now) == Pass(s1, now);
      }
    }
  }

  /** One settle raises the loop count by one exactly when it regenerates, and leaves it
      alone otherwise. */
  lemma SettleLoopCount(s: State, step: Step)
    requires Keyed(s) && step.k < |s.inFlight| && KeepsLoopCount(step.outcome)
    ensures LoopCount(Settle(s, step.k, step.outcome, step.now).graph.context)
            == LoopCount(s.graph.context) + (if Regenerates(s, step) then 1 else 0)
  {
    assert s.inFlight[step.k] in s.inFlight;
    var key := s.inFlight[step.k].key;
    var s0 := s.(inFlight := Remove(s.inFlight, step.k));
    if step.outcome.Returned? && step.outcome.result.status == Completed {
      var data := step.outcome.result.data;
      var c := Complete(s0, key, data, step.now);
      assert Get(c.graph.context, "loop_count") == Get(s.graph.context, "loop_count");
      assert c.graph.nodes[key].id == s.graph.nodes[key].id;
      AfterCompletionLoopCount(c, key, data, step.now);
    }
  }

  /** The regeneration loop is bounded: starting from a loop count between 0 and 3, a run
      regenerates at most 3 minus that count times, and the count records exactly how
      many regenerations happened. */
  lemma {:induction false} RegenerationsBounded(s: State, steps: seq<Step>)
    requires Keyed(s) && 0 <= LoopCount(s.graph.context) <= MaxRetries
    requires forall i | 0 <= i < |steps| :: KeepsLoopCount(steps[i].outcome)
    ensures LoopCount(RunSteps(s, steps).graph.context) == LoopCount(s.graph.context) + Regenerations(s, steps)
    ensures Regenerations(s, steps) <= MaxRetries - LoopCount(s.graph.context)
    decreases |steps|
  {
    if steps != [] && steps[0].k < |s.inFlight| {
      SettleLoopCount(s, steps[0]);
      var s' := Settle(s, steps[0].k, steps[0].outcome, steps[0].now);
      assert forall i | 0 <= i < |steps[1..]| :: KeepsLoopCount(steps[1..][i].outcome) by {
        forall i | 0 <= i < |steps[1..]| ensures KeepsLoopCount(steps[1..][i].outcome) {
          assert steps[1..][i] == steps[i + 1];
        }
      }
      RegenerationsBounded(s', steps[1..]);
    }
  }

  /** A freshly planned context has loop count 0, so a run regenerates at most 3 times. */
  lemma PlannedRunRegeneratesAtMostThrice(p: Planning.PlanningInput, s: State, steps: seq<Step>)
    requires s.graph.context == Planning.SeedContext(p) && Keyed(s)
    requires forall i | 0 <= i < |steps| :: KeepsLoopCount(steps[i].outcome)
    ensures Regenerations(s, steps) <= MaxRetries
  {
    assert Get(s.graph.context, "loop_count") == Num(0);
    RegenerationsBounded(s, steps);
  }
}
