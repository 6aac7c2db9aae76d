/** The planning agent: normalises the raw campaign input (strict goal enum, field
    defaults) and returns the fixed four-node execution pipeline with its seeded
    shared context. */
module Planning {
  import opened Wrappers
  import opened Json
  import opened Graph
  import Strings

  datatype Goal = Awareness | Conversions | Engagement

  function GoalName(g: Goal): string {
    match g
    case Awareness => "AWARENESS"
    case Conversions => "CONVERSIONS"
    case Engagement => "ENGAGEMENT"
  }

  /** The own entries of the goal table, keyed by the lowercased, trimmed goal. */
  function GoalTable(raw: string): Option<Goal> {
    if raw == "awareness" || raw == "brand awareness" then Some(Awareness)
    else if raw == "conversion" || raw == "conversions" then Some(Conversions)
    else if raw == "engagement" then Some(Engagement)
    else None
  }

  /** The normalised input record. Fields other than the goal keep whatever value the
      caller supplied when it is truthy. */
  datatype PlanningInput = PlanningInput(
    product: Value,
    audience: Value,
    brandGuidelines: Value,
    goal: Goal,
    platforms: Value,
    price: Value,
    campaignId: Value)

  /** The normalised record as the object it is spread into. */
  function ToRecord(p: PlanningInput): map<string, Value> {
    map["product" := p.product, "audience" := p.audience, "brandGuidelines" := p.brandGuidelines,
        "goal" := Str(GoalName(p.goal)), "platforms" := p.platforms, "price" := p.price,
        "campaignId" := p.campaignId]
  }

  /** `(input.goal || 'AWARENESS').toLowerCase().trim()`: a truthy non-string goal has no
      `toLowerCase` and throws. */
  function RawGoal(input: map<string, Value>): Result<string> {
    var g := Or(Get(input, "goal"), Str("AWARENESS"));
    if g.Str? then Ok(Strings.Trim(Strings.ToLower(g.s)))
    else Err("(input.goal || \"AWARENESS\").toLowerCase is not a function")
  }

  function InvalidGoalMessage(input: map<string, Value>): string {
    "Invalid Campaign Goal: \"" + ToJsString(Get(input, "goal")) + "\". Must be Awareness, Conversions, or Engagement."
  }

  function NormalizeInput(input: map<string, Value>): Result<PlanningInput> {
    match RawGoal(input)
    case Err(e) => Err(e)
    case Ok(raw) =>
      match GoalTable(raw)
      case None => Err(InvalidGoalMessage(input))
      case Some(goal) =>
        var platforms := Get(input, "platforms");
        Ok(PlanningInput(
          Or(Get(input, "product"), Str("Unknown Product")),
          Or(Get(input, "audience"), Str("General Audience")),
          Or(Get(input, "brandGuidelines"), Str("")),
          goal,
          if platforms.Arr? then platforms else StrArr(["LinkedIn", "Twitter"]),
          Or(Get(input, "price"), Str("Not specified")),
          Get(input, "campaignId")))
  }

  // ---------------------------------------------------------------- the pipeline

  const PipelineOrder: seq<string> := ["market_research", "persona_modeling", "creative_generation", "decision"]

  function IdleNode(id: string, agentName: string, deps: seq<string>, ins: seq<string>, outs: seq<string>): TaskNode {
    TaskNode(id, agentName, deps, Idle, ins, outs, Undefined)
  }

  function ConstructExecutionPipeline(input: PlanningInput): map<string, TaskNode> {
    map[
      "market_research" := IdleNode("market_research", "MarketIntelligenceAgent", [],
        ["product", "audience"],
        ["marketSummary", "keyOpportunities", "keyRisks", "recommendedPositioning", "suggestedMessagingAngles"]),
      "persona_modeling" := IdleNode("persona_modeling", "PersonaModelingAgent", ["market_research"],
        ["audience", "marketSummary", "industry"],
        ["personas", "primaryPersona", "creativeConstraints"]),
      "creative_generation" := IdleNode("creative_generation", "CreativeGenerationAgent", ["persona_modeling", "market_research"],
        ["product", "primaryPersona", "creativeConstraints", "goal", "brandGuidelines", "keyOpportunities", "campaignId"],
        ["variants"]),
      "decision" := IdleNode("decision", "DecisionAgent", ["creative_generation"],
        ["variants", "campaignId"],
        ["selected_creative", "bestCreativeId"])
    ]
  }

  /** The normalised fields plus the loop bookkeeping the orchestrator reads. */
  function SeedContext(p: PlanningInput): map<string, Value> {
    ToRecord(p) + map["rejected_variants" := Arr([]), "loop_count" := Num(0), "history" := Arr([]),
                      "campaignId" := p.campaignId]
  }

  /** What `execute` returns: a completed result carrying the graph and its reasoning,
      or a failed one carrying `data.error`. */
  datatype PlanOutcome = PlanOk(graph: TaskGraph, reasoning: string) | PlanFailed(error: string)

  function Execute(input: map<string, Value>): PlanOutcome {
    match NormalizeInput(input)
    case Err(e) => PlanFailed(e)
    case Ok(p) =>
      PlanOk(TaskGraph(PipelineOrder, ConstructExecutionPipeline(p), SeedContext(p)),
             "Selected standard pipeline for " + GoalName(p.goal) + ".")
  }

  // ---------------------------------------------------------------- properties

  /** The goal table accepts exactly five spellings, onto the three goals. */
  lemma GoalTableExact(raw: string)
    ensures GoalTable(raw) == Some(Awareness) <==> raw == "awareness" || raw == "brand awareness"
    ensures GoalTable(raw) == Some(Conversions) <==> raw == "conversion" || raw == "conversions"
    ensures GoalTable(raw) == Some(Engagement) <==> raw == "engagement"
    ensures GoalTable(raw).None? <==> raw !in {"awareness", "brand awareness", "conversion", "conversions", "engagement"}
  {
  }

  /** The goal is matched after lowercasing and trimming, so case and surrounding
      whitespace do not matter. */
  lemma GoalIsCaseAndSpaceInsensitive(input: map<string, Value>, s: string)
    requires Get(input, "goal") == Str(s) && s != ""
    ensures RawGoal(input) == Ok(Strings.Trim(Strings.ToLower(s)))
    ensures NormalizeInput(input).Ok? <==> GoalTable(Strings.Trim(Strings.ToLower(s))).Some?
  {
  }

  /** Computes the raw goal of an input whose goal is a literal. */
  lemma RawGoalIs(input: map<string, Value>, s: string, t: string)
    requires Get(input, "goal") == Str(s) && s != ""
    requires Strings.ToLower(s) == t
    requires t != [] ==> !Strings.IsJsWhitespace(t[0]) && !Strings.IsJsWhitespace(t[|t| - 1])
    ensures RawGoal(input) == Ok(t)
  {
    Strings.TrimUnchanged(t);
  }

  /** A missing or empty goal means awareness. */
  lemma MissingGoalIsAwareness(input: map<string, Value>)
    requires !Truthy(Get(input, "goal"))
    ensures NormalizeInput(input).Ok? && NormalizeInput(input).value.goal == Awareness
  {
    AwarenessKey();
  }

  /** 'Retention', which the product form offers, is not a planning goal: `execute`
      reports a failure carrying the validation message instead of throwing. */
  lemma RetentionIsRejected(input: map<string, Value>)
    requires Get(input, "goal") == Str("Retention")
    ensures Execute(input) == PlanFailed(InvalidGoalMessage(input))
  {
    RetentionKey();
    assert RawGoal(input) == Ok("retention");
    UnmappedGoalFails(input);
    ExecuteFailsOnlyOnBadGoal(input);
  }

  /** A goal outside the table is rejected with the validation message. */
  lemma UnmappedGoalFails(input: map<string, Value>)
    requires RawGoal(input).Ok? && GoalTable(RawGoal(input).value).None?
    ensures NormalizeInput(input) == Err(InvalidGoalMessage(input))
  {
  }

  lemma RetentionKey()
    ensures Strings.Trim(Strings.ToLower("Retention")) == "retention"
  {
    assert Strings.ToLower("Retention") == "retention";
    Strings.TrimUnchanged("retention");
  }

  /** Every accepted input gets the documented defaults. */
  lemma NormalizeDefaults(input: map<string, Value>)
    requires NormalizeInput(input).Ok?
    ensures var p := NormalizeInput(input).value;
      (!Truthy(Get(input, "product")) ==> p.product == Str("Unknown Product"))
      && (!Truthy(Get(input, "audience")) ==> p.audience == Str("General Audience"))
      && (!Truthy(Get(input, "brandGuidelines")) ==> p.brandGuidelines == Str(""))
      && (!Get(input, "platforms").Arr? ==> p.platforms == StrArr(["LinkedIn", "Twitter"]))
      && (Get(input, "platforms").Arr? ==> p.platforms == Get(input, "platforms"))
      && (!Truthy(Get(input, "price")) ==> p.price == Str("Not specified"))
      && p.campaignId == Get(input, "campaignId")
      && Truthy(p.product) && Truthy(p.audience) && Truthy(p.price)
  {
  }

  lemma AwarenessKey()
    ensures Strings.Trim(Strings.ToLower("AWARENESS")) == "awareness"
  {
    assert Strings.ToLower("AWARENESS") == "awareness";
    Strings.TrimUnchanged("awareness");
  }

  lemma ConversionsKey()
    ensures Strings.Trim(Strings.ToLower("CONVERSIONS")) == "conversions"
  {
    assert Strings.ToLower("CONVERSIONS") == "conversions";
    Strings.TrimUnchanged("conversions");
  }

  lemma EngagementKey()
    ensures Strings.Trim(Strings.ToLower("ENGAGEMENT")) == "engagement"
  {
    assert Strings.ToLower("ENGAGEMENT") == "engagement";
    Strings.TrimUnchanged("engagement");
  }

  /** The goal name written into the normalised record maps back onto the same goal. */
  lemma GoalNameRoundTrip(g: Goal)
    ensures GoalTable(Strings.Trim(Strings.ToLower(GoalName(g)))) == Some(g)
  {
    match g
    case Awareness => AwarenessKey();
    case Conversions => ConversionsKey();
    case Engagement => EngagementKey();
  }

  /** Normalising an already normalised record gives the same record. */
  lemma NormalizeIdempotent(input: map<string, Value>)
    requires NormalizeInput(input).Ok?
    ensures NormalizeInput(ToRecord(NormalizeInput(input).value)) == NormalizeInput(input)
  {
    var p := NormalizeInput(input).value;
    assert Truthy(p.product) && Truthy(p.audience) && Truthy(p.price) && p.platforms.Arr?;
    assert Or(p.brandGuidelines, Str("")) == p.brandGuidelines;
    RecordGoal(p);
  }

  /** The record's own goal key: present, a string, and mapped back onto its goal. */
  lemma RecordGoal(p: PlanningInput)
    ensures RawGoal(ToRecord(p)).Ok? && GoalTable(RawGoal(ToRecord(p)).value) == Some(p.goal)
    ensures var q := ToRecord(p);
      Get(q, "product") == p.product && Get(q, "audience") == p.audience
      && Get(q, "brandGuidelines") == p.brandGuidelines && Get(q, "platforms") == p.platforms
      && Get(q, "price") == p.price && Get(q, "campaignId") == p.campaignId
  {
    GoalNameRoundTrip(p.goal);
    assert Get(ToRecord(p), "goal") == Str(GoalName(p.goal));
  }

  /** The pipeline holds exactly four idle nodes, each keyed by its own id and with no
      result yet, enumerated in `PipelineOrder`. */
  lemma PipelineShape(p: PlanningInput)
    ensures var nodes := ConstructExecutionPipeline(p);
      WellFormed(PipelineOrder, nodes) && |nodes| == 4
      && (forall k :: k in nodes ==> nodes[k].id == k && nodes[k].status == Idle && nodes[k].result == Undefined)
  {
    PipelineKeys(p);
    PipelineNodesIdle(p);
    OrderDistinct();
  }

  lemma OrderDistinct()
    ensures Distinct(PipelineOrder)
  {
  }

  lemma PipelineKeys(p: PlanningInput)
    ensures ConstructExecutionPipeline(p).Keys == {"market_research", "persona_modeling", "creative_generation", "decision"}
    ensures (set k | k in PipelineOrder) == ConstructExecutionPipeline(p).Keys
    ensures |ConstructExecutionPipeline(p)| == 4
  {
    var keys := {"market_research", "persona_modeling", "creative_generation", "decision"};
    assert |keys| == 4;
  }

  lemma PipelineNodesIdle(p: PlanningInput)
    ensures var nodes := ConstructExecutionPipeline(p);
      forall k :: k in nodes ==> nodes[k].id == k && nodes[k].status == Idle && nodes[k].result == Undefined
  {
  }

  /** The dependencies are exactly the documented chain. */
  lemma PipelineDependencies(p: PlanningInput)
    ensures var nodes := ConstructExecutionPipeline(p);
      nodes["market_research"].dependencies == []
      && nodes["persona_modeling"].dependencies == ["market_research"]
      && nodes["creative_generation"].dependencies == ["persona_modeling", "market_research"]
      && nodes["decision"].dependencies == ["creative_generation"]
  {
  }

  /** Every dependency names a node of the graph that comes earlier in the
      enumeration order; hence the graph is acyclic and `PipelineOrder` is a
      topological order of it. */
  lemma PipelineIsTopologicallyOrdered(p: PlanningInput)
    ensures var nodes := ConstructExecutionPipeline(p);
      forall i :: 0 <= i < |PipelineOrder| ==>
        forall d :: d in nodes[PipelineOrder[i]].dependencies ==>
          d in nodes && exists j :: 0 <= j < i && PipelineOrder[j] == d
  {
    var nodes := ConstructExecutionPipeline(p);
    assert PipelineOrder[0] == "market_research";
    assert PipelineOrder[1] == "persona_modeling";
    assert PipelineOrder[2] == "creative_generation";
    assert PipelineOrder[3] == "decision";
  }

  /** The record of a normalised input holds its seven fields. */
  lemma ToRecordContents(p: PlanningInput)
    ensures var c := ToRecord(p);
      c.Keys == {"product", "audience", "brandGuidelines", "goal", "platforms", "price", "campaignId"}
      && c["campaignId"] == p.campaignId && c["goal"] == Str(GoalName(p.goal))
      && c["product"] == p.product && c["audience"] == p.audience && c["price"] == p.price
      && c["brandGuidelines"] == p.brandGuidelines && c["platforms"] == p.platforms
  {
  }

  /** The seeded context holds the normalised fields and the empty loop bookkeeping. */
  lemma SeedContextContents(p: PlanningInput)
    ensures var c := SeedContext(p);
      c.Keys == {"product", "audience", "brandGuidelines", "goal", "platforms", "price", "campaignId",
                 "rejected_variants", "loop_count", "history"}
      && c["rejected_variants"] == Arr([]) && c["loop_count"] == Num(0) && c["history"] == Arr([])
      && c["campaignId"] == p.campaignId && c["goal"] == Str(GoalName(p.goal))
      && c["product"] == p.product && c["audience"] == p.audience && c["price"] == p.price
      && c["brandGuidelines"] == p.brandGuidelines && c["platforms"] == p.platforms
  {
    ToRecordContents(p);
  }

  /** A successful normalisation yields a plan a caller can run at once: the four idle
      pipeline nodes, each keyed by its own id and enumerated in `PipelineOrder`; a
      context that carries the normalised goal, starts the regeneration count at 0 and
      rejects nothing; and a reasoning line naming the goal. */
  lemma ExecuteOnValidInput(input: map<string, Value>)
    requires NormalizeInput(input).Ok?
    ensures var p := NormalizeInput(input).value;
      var out := Execute(input);
      out.PlanOk? && out.graph.order == PipelineOrder
      && WellFormed(out.graph.order, out.graph.nodes) && |out.graph.nodes| == 4
      && (forall k :: k in out.graph.nodes ==>
            out.graph.nodes[k].id == k && out.graph.nodes[k].status == Idle && out.graph.nodes[k].result == Undefined)
      && out.graph.nodes["decision"].dependencies == ["creative_generation"]
      && out.graph.context["loop_count"] == Num(0) && out.graph.context["rejected_variants"] == Arr([])
      && out.graph.context["goal"] == Str(GoalName(p.goal))
      && GoalTable(Strings.Trim(Strings.ToLower(GoalName(p.goal)))) == Some(p.goal)
      && out.reasoning == "Selected standard pipeline for " + GoalName(p.goal) + "."
  {
    var p := NormalizeInput(input).value;
    PipelineShape(p);
    PipelineDependencies(p);
    SeedContextContents(p);
    GoalNameRoundTrip(p.goal);
  }

  /** `execute` fails exactly when normalisation throws, with its message. */
  lemma ExecuteFailsOnlyOnBadGoal(input: map<string, Value>)
    ensures Execute(input).PlanFailed? <==> NormalizeInput(input).Err?
    ensures Execute(input).PlanFailed? ==> Execute(input).error == NormalizeInput(input).error
    ensures NormalizeInput(input).Err? ==>
      (RawGoal(input).Err? || GoalTable(RawGoal(input).value).None?)
  {
  }

  // ---------------------------------------------------------------- inherited keys

  /** The goal table is a plain object literal, so a lookup also finds the members it
      inherits; after lowercasing, `constructor` and `__proto__` are the only
      reachable ones. */
  datatype GoalLookup = OwnEntry(goal: Goal) | Inherited(member: string) | NoEntry

  function GoalLookupAsWritten(raw: string): GoalLookup {
    match GoalTable(raw)
    case Some(g) => OwnEntry(g)
    case None => if raw == "constructor" || raw == "__proto__" then Inherited(raw) else NoEntry
  }

  /** As written, the `!mappedGoal` guard lets a goal of 'Constructor' through. */
  lemma InheritedGoalPassesGuard()
    ensures GoalLookupAsWritten(Strings.Trim(Strings.ToLower("Constructor"))) == Inherited("constructor")
    ensures GoalTable(Strings.Trim(Strings.ToLower("Constructor"))).None?
  {
    ConstructorKey();
  }

  lemma ConstructorKey()
    ensures Strings.Trim(Strings.ToLower("Constructor")) == "constructor"
  {
    assert Strings.ToLower("Constructor") == "constructor";
    Strings.TrimUnchanged("constructor");
  }

  /** The own-entry lookup the model uses agrees with the object lookup on every own
      key and rejects everything else. */
  lemma GoalLookupCorrected(raw: string)
    ensures GoalTable(raw).Some? <==> GoalLookupAsWritten(raw).OwnEntry?
    ensures GoalTable(raw).Some? ==> GoalLookupAsWritten(raw) == OwnEntry(GoalTable(raw).value)
    ensures GoalTable(raw).None? ==> raw !in {"awareness", "brand awareness", "conversion", "conversions", "engagement"}
  {
  }
}
