/** The four-stage LangChain workflow: planning, market research, persona modelling and
    creative generation run in sequence over one state record, each stage skipping when an
    earlier one has set `error`. The creative stage asks a language model for ideas, falls
    back to five fixed variants whenever that fails, and always produces exactly five. */
module Workflow {
  import opened Wrappers
  import opened Json
  import Strings
  import Graph

  // ---------------------------------------------------------------- state and events

  /** A variant in the UI format. A field the record lacks reads as `undefined`: the
      fallback variants pushed to pad the list have no body and no call to action. */
  datatype UiRecord = UiRecord(id: Value, headline: Value, body: Value, cta: Value, platform: Value, rationale: Value)

  /** `AbmelState`: the campaign input, each stage's output, and the fail-fast `error`. */
  datatype AbmelState = AbmelState(
    product: Value,
    goal: Value,
    brandGuidelines: Value,
    loopCount: Value,
    plan: Value,
    marketData: Value,
    personas: Value,
    creativeVariants: Option<seq<UiRecord>>,
    error: Option<string>)

  /** The payload of an event handed to `state.onEvent`. */
  datatype EventData =
    | NoData
    | Record(fields: map<string, Value>)
    | VariantList(variants: seq<UiRecord>)
    | ErrorMessage(message: string)

  /** An event handed to `state.onEvent` (its timestamp aside). */
  datatype WfEvent = WfEvent(kind: Graph.EventType, nodeId: string, data: EventData)

  /** Where a stage's `try` block throws: nowhere, in the `onEvent` callback that receives
      `node_start`, or in the one that receives `node_complete`. The message is the
      thrown error's `message`. */
  datatype Fault = NoFault | AtStart(message: string) | AtComplete(message: string)

  /** A stage's new state and the events it emitted, in order. */
  datatype StageResult = StageResult(state: AbmelState, events: seq<WfEvent>)

  /** `if (state.error) return state`: an empty message is falsy. */
  predicate HasError(state: AbmelState) {
    state.error.Some? && state.error.value != ""
  }

  function StartEvent(nodeId: string): WfEvent { WfEvent(Graph.NodeStart, nodeId, NoData) }

  function FailEvent(nodeId: string, message: string): WfEvent {
    WfEvent(Graph.NodeFail, nodeId, ErrorMessage(message))
  }

  /** The failed result of a stage: the prefixed message in `error`, everything else kept. */
  function Abort(state: AbmelState, prefix: string, message: string, events: seq<WfEvent>): StageResult {
    StageResult(state.(error := Some(prefix + message)), events)
  }

  /** The shape the first three stages share: announce the start, compute a fixed output,
      announce the completion with `completeData`, and return `next`, the state with the
      output spread in; a throw on the way sets the prefixed error and emits
      `node_fail`. */
  function Stage(state: AbmelState, nodeId: string, prefix: string, fault: Fault,
                 next: AbmelState, completeData: EventData): StageResult {
    if HasError(state) then StageResult(state, [])
    else
      var complete := WfEvent(Graph.NodeComplete, nodeId, completeData);
      match fault
      case NoFault => StageResult(next, [StartEvent(nodeId), complete])
      case AtStart(m) => Abort(state, prefix, m, [StartEvent(nodeId), FailEvent(nodeId, m)])
      case AtComplete(m) => Abort(state, prefix, m, [StartEvent(nodeId), complete, FailEvent(nodeId, m)])
  }

  // ---------------------------------------------------------------- the first three stages

  /** The plan, tagged with the clock's millisecond reading. */
  function Plan(millis: nat): Value {
    Obj(map["id" := Str("plan-" + Strings.NatToString(millis)),
            "steps" := StrArr(["Market Analysis", "Persona Creation", "Creative Ideation"]),
            "strategy" := Str("High-Velocity Viral Growth"),
            "status" := Str("success")])
  }

  function PlanningStage(state: AbmelState, millis: nat, fault: Fault): StageResult {
    Stage(state, "planning", "Planning Failed: ", fault,
          state.(plan := Plan(millis)), Record(map["taskGraph" := Plan(millis)]))
  }

  const MarketData := Obj(map["trends" := StrArr(["AI Adoption", "Privacy First"]), "competitors" := StrArr(["CompA", "CompB"])])

  function MarketStage(state: AbmelState, fault: Fault): StageResult {
    Stage(state, "market_research", "Market Research Failed: ", fault,
          state.(marketData := MarketData), Record(map["marketSummary" := Str("Growth Sector")]))
  }

  const Personas := Obj(map["primaryPersona" := Obj(map["name" := Str("The Tech Innovator"),
                                                         "traits" := StrArr(["Early Adopter", "High Spend"])])])

  function PersonaStage(state: AbmelState, fault: Fault): StageResult {
    Stage(state, "persona_modeling", "Persona Modeling Failed: ", fault,
          state.(personas := Personas), Record(map["personas" := Personas]))
  }

  // ---------------------------------------------------------------- the fallback

  const Headline1 := "Unlock Your Potential"
  const Headline2 := "Seamless Integration, Instant Results"
  const Headline3 := "Enterprise-Grade Security"
  const Headline4 := "Join the Revolution"
  const Headline5 := "Smart Solutions for Modern Problems"
  const Rationale1 := "Focus on user empowerment and growth."
  const Rationale2 := "Highlighting ease of use and efficiency."
  const Rationale3 := "Appealing to trust and safety concerns."
  const Rationale4 := "Creating a sense of movement and belonging."
  const Rationale5 := "Positioning as an innovative problem solver."

  function FallbackEntry(id: string, headline: string, rationale: string, platform: string): UiRecord {
    UiRecord(Str(id), Str(headline), Undefined, Undefined, Str(platform), Str(rationale))
  }

  /** `FALLBACK_VARIANTS[k]`: an id, a headline, a rationale and a platform. */
  function FallbackVariant(k: nat): (r: UiRecord)
    requires k < 5
    ensures r.id == Str(Strings.NatToString(k + 1))
    ensures r.headline.Str? && r.rationale.Str? && r.platform.Str? && r.body.Undefined? && r.cta.Undefined?
  {
    if k == 0 then FallbackEntry("1", Headline1, Rationale1, "LinkedIn")
    else if k == 1 then FallbackEntry("2", Headline2, Rationale2, "Twitter")
    else if k == 2 then FallbackEntry("3", Headline3, Rationale3, "Website")
    else if k == 3 then FallbackEntry("4", Headline4, Rationale4, "Display")
    else FallbackEntry("5", Headline5, Rationale5, "Instagram")
  }

  /** `FALLBACK_VARIANTS`. */
  function Fallback(): (r: seq<UiRecord>)
    ensures |r| == 5 && forall k | 0 <= k < 5 :: r[k] == FallbackVariant(k)
  {
    seq(5, k requires 0 <= k < 5 => FallbackVariant(k))
  }

  // ---------------------------------------------------------------- the model's answer

  /** The first index holding `c`, if any. */
  function FirstIndex(s: string, c: char): (r: Option<nat>)
    ensures r.Some? ==> r.value < |s| && s[r.value] == c && forall k | 0 <= k < r.value :: s[k] != c
    ensures r.None? ==> forall k | 0 <= k < |s| :: s[k] != c
  {
    if s == [] then None
    else if s[0] == c then Some(0)
    else match FirstIndex(s[1..], c)
      case None => None
      case Some(i) => Some(i + 1)
  }

  /** The last index holding `c`, if any. */
  function LastIndex(s: string, c: char): (r: Option<nat>)
    ensures r.Some? ==> r.value < |s| && s[r.value] == c && forall k | r.value < k < |s| :: s[k] != c
    ensures r.None? ==> forall k | 0 <= k < |s| :: s[k] != c
  {
    if s == [] then None
    else if s[|s| - 1] == c then Some(|s| - 1)
    else LastIndex(s[..|s| - 1], c)
  }

  /** `s.match(/\{[\s\S]*\}/)`: the leftmost, longest stretch from a '{' to a '}'. The
      search starts at the first '{' and the greedy middle runs to the last '}'; when no
      '}' follows the first '{', none follows any later one either. */
  function BraceMatch(s: string): (r: Option<string>)
    ensures r.Some? ==> |r.value| >= 2 && r.value[0] == '{' && r.value[|r.value| - 1] == '}'
  {
    match (FirstIndex(s, '{'), LastIndex(s, '}'))
    case (Some(i), Some(j)) => if i < j then Some(s[i..j + 1]) else None
    case _ => None
  }

  /** The model's `prompts`, or `None` when the fallback list is used: the product is not
      set, the call failed or timed out, no braced stretch was found, it did not parse, or
      it holds no `prompts` array. `llm` is the answer or the failure; `parsed` is what
      `JSON.parse` made of the braced stretch, `None` when it threw. */
  function Prompts(state: AbmelState, llm: Result<string>, parsed: Option<map<string, Value>>): Option<seq<Value>> {
    if !Truthy(state.product) then None
    else match llm
      case Err(_) => None
      case Ok(text) =>
        if BraceMatch(text).None? || parsed.None? then None
        else
          var prompts := Get(parsed.value, "prompts");
          if Truthy(prompts) && prompts.Arr? then Some(prompts.items) else None
  }

  // ---------------------------------------------------------------- mapping and padding

  /** The UI form of the `i`-th entry, from the fields read off it. */
  function UiFrom(headline: Value, rationale: Value, bodyCopy: Value, platform: Value, i: nat): UiRecord {
    var n := Strings.NatToString(i + 1);
    UiRecord(Str(n),
             Or(headline, Str("Creative Strategy " + n)),
             Or(rationale, Or(bodyCopy, Str("Optimized for target audience engagement."))),
             Str("Learn More"),
             Or(platform, Str("Omnichannel")),
             Or(rationale, Str("AI Generated Strategy")))
  }

  /** The UI form of a prompt that is neither `undefined` nor `null`. */
  function UiVariant(v: Value, i: nat): UiRecord {
    UiFrom(Field(v, "headline"), Field(v, "rationale"), Field(v, "body_copy"), Field(v, "platform"), i)
  }

  /** The UI form of a fallback variant, which has no `body_copy`. */
  function UiFallback(k: nat): UiRecord
    requires k < 5
  {
    var f := FallbackVariant(k);
    UiFrom(f.headline, f.rationale, Undefined, f.platform, k)
  }

  /** The first prompt whose `headline` read throws, if any: `map` visits the whole list
      before `slice` cuts it. */
  function FirstNullish(vs: seq<Value>): (r: Option<nat>)
    ensures r.Some? ==> r.value < |vs| && Nullish(vs[r.value])
  {
    if vs == [] then None
    else if Nullish(vs[0]) then Some(0)
    else match FirstNullish(vs[1..])
      case None => None
      case Some(i) => Some(i + 1)
  }

  /** The entry found is the first nullish one, and none is found exactly when there is
      none. */
  lemma {:induction false} FirstNullishExact(vs: seq<Value>)
    ensures FirstNullish(vs).Some? ==> forall k | 0 <= k < FirstNullish(vs).value :: !Nullish(vs[k])
    ensures FirstNullish(vs).None? <==> forall k | 0 <= k < |vs| :: !Nullish(vs[k])
  {
    if vs != [] && !Nullish(vs[0]) {
      FirstNullishExact(vs[1..]);
      assert forall k | 1 <= k < |vs| :: vs[k] == vs[1..][k - 1];
    }
  }

  /** The UI forms of `vs`, numbered from `start`. */
  function MapFrom(vs: seq<Value>, start: nat): (r: seq<UiRecord>)
    ensures |r| == |vs|
  {
    if vs == [] then [] else [UiVariant(vs[0], start)] + MapFrom(vs[1..], start + 1)
  }

  /** `variants.map(...).slice(0, 5)` over the model's prompts. Once no prompt throws,
      mapping the whole list and keeping five is mapping the first five. */
  function Mapped(vs: seq<Value>): (r: seq<UiRecord>)
    ensures |r| == (if |vs| <= 5 then |vs| else 5)
  {
    MapFrom(if |vs| <= 5 then vs else vs[..5], 0)
  }

  /** Each entry of the mapped list is the UI form of the prompt at its position. */
  lemma {:induction false} MapFromAt(vs: seq<Value>, start: nat, i: nat)
    requires i < |vs|
    ensures MapFrom(vs, start)[i] == UiVariant(vs[i], start + i)
  {
    if i > 0 {
      MapFromAt(vs[1..], start + 1, i - 1);
    }
  }

  /** `variants.map(...).slice(0, 5)` over the fallback list. */
  function MappedFallback(): (r: seq<UiRecord>)
    ensures |r| == 5
  {
    seq(5, k requires 0 <= k < 5 => UiFallback(k))
  }

  /** The mapped list followed by the fallback variants at the positions it did not reach. */
  function Padded(ui: seq<UiRecord>): seq<UiRecord>
    requires |ui| <= 5
  {
    ui + Fallback()[|ui|..]
  }

  /** `while (uiVariants.length < 5) uiVariants.push(FALLBACK_VARIANTS[uiVariants.length])`. */
  method PadToFive(ui: seq<UiRecord>) returns (r: seq<UiRecord>)
    requires |ui| <= 5
    ensures r == Padded(ui)
  {
    r := ui;
    while |r| < 5
      invariant |ui| <= |r| <= 5
      invariant r == ui + Fallback()[|ui|..|r|]
    {
      r := r + [Fallback()[|r|]];
    }
  }

  // ---------------------------------------------------------------- the creative stage

  const CreativeId := "creative_generation"

  const CreativePrefix := "Creative Generation Failed: "

  /** The field whose read throws on a nullish prompt. */
  const HeadlineKey := "headline"

  /** The stored list and the completion event of a creative stage that got this far. */
  function Complete(state: AbmelState, ui: seq<UiRecord>, fault: Fault): StageResult {
    var complete := WfEvent(Graph.NodeComplete, CreativeId, VariantList(ui));
    if fault.AtComplete? then Abort(state, CreativePrefix, fault.message, [StartEvent(CreativeId), complete, FailEvent(CreativeId, fault.message)])
    else StageResult(state.(creativeVariants := Some(ui)), [StartEvent(CreativeId), complete])
  }

  /** The creative stage once it has started on a healthy state, given the model's prompts
      or `None` for the fallback list. */
  function CreativeSettle(state: AbmelState, prompts: Option<seq<Value>>, fault: Fault): StageResult {
    if fault.AtStart? then Abort(state, CreativePrefix, fault.message, [StartEvent(CreativeId), FailEvent(CreativeId, fault.message)])
    else
      match prompts
      case None => Complete(state, MappedFallback(), fault)
      case Some(vs) => SettlePrompts(state, vs, Padded(Mapped(vs)), fault)
  }

  /** The creative stage on the model's prompts, `ui` being the list their mapping gives:
      the `headline` read of a `null` or `undefined` prompt throws. */
  function SettlePrompts(state: AbmelState, vs: seq<Value>, ui: seq<UiRecord>, fault: Fault): StageResult {
    match FirstNullish(vs)
    case Some(i) =>
      var m := ReadError(vs[i], HeadlineKey);
      Abort(state, CreativePrefix, m, [StartEvent(CreativeId), FailEvent(CreativeId, m)])
    case None => Complete(state, ui, fault)
  }

  function CreativeStage(state: AbmelState, llm: Result<string>, parsed: Option<map<string, Value>>, fault: Fault): StageResult {
    if HasError(state) then StageResult(state, [])
    else CreativeSettle(state, Prompts(state, llm, parsed), fault)
  }

  // ---------------------------------------------------------------- the sequence

  datatype Faults = Faults(planning: Fault, market: Fault, persona: Fault, creative: Fault)

  /** `abmelWorkflow.invoke(state)`: the stages in order, each on the state the one before
      returned. */
  function RunWorkflow(state: AbmelState, millis: nat, llm: Result<string>, parsed: Option<map<string, Value>>, faults: Faults): StageResult {
    var a := PlanningStage(state, millis, faults.planning);
    var b := MarketStage(a.state, faults.market);
    var c := PersonaStage(b.state, faults.persona);
    var d := CreativeStage(c.state, llm, parsed, faults.creative);
    StageResult(d.state, a.events + b.events + c.events + d.events)
  }

  // ---------------------------------------------------------------- stage properties

  /** A stage handed a failed state returns it untouched and emits nothing. */
  lemma StagesSkipOnError(state: AbmelState, millis: nat, llm: Result<string>, parsed: Option<map<string, Value>>, fault: Fault)
    requires HasError(state)
    ensures PlanningStage(state, millis, fault) == StageResult(state, [])
    ensures MarketStage(state, fault) == StageResult(state, [])
    ensures PersonaStage(state, fault) == StageResult(state, [])
    ensures CreativeStage(state, llm, parsed, fault) == StageResult(state, [])
  {
  }

  /** A fixed stage on a healthy state starts first; without a throw it completes and
      returns the next state; with one it keeps the state but for the prefixed `error`,
      and its last event is `node_fail` with the thrown message. */
  lemma StageOutcome(state: AbmelState, nodeId: string, prefix: string, fault: Fault,
                     next: AbmelState, completeData: EventData)
    requires !HasError(state) && !HasError(next) && prefix != ""
    ensures var r := Stage(state, nodeId, prefix, fault, next, completeData);
      && |r.events| >= 2 && r.events[0] == StartEvent(nodeId)
      && (r.events[1] == WfEvent(Graph.NodeComplete, nodeId, completeData) <==> !fault.AtStart?)
      && (HasError(r.state) <==> !fault.NoFault?)
      && (fault.NoFault? ==> r.state == next && |r.events| == 2)
      && (!fault.NoFault? ==>
            && r.state == state.(error := Some(prefix + fault.message))
            && r.events[|r.events| - 1] == FailEvent(nodeId, fault.message))
  {
  }

  // ---------------------------------------------------------------- creative properties

  /** The model's answer replaces the fallback exactly when the product is set, the call
      succeeded, a braced stretch was found and parsed, and it holds a `prompts` array;
      a failure anywhere on that way is swallowed in favour of the fallback. */
  lemma PromptsUsedOnlyWhenPresent(state: AbmelState, llm: Result<string>, parsed: Option<map<string, Value>>)
    ensures var ok := Truthy(state.product) && llm.Ok? && BraceMatch(llm.value).Some?
                      && parsed.Some? && Get(parsed.value, "prompts").Arr?;
      && (ok ==> Prompts(state, llm, parsed) == Some(Get(parsed.value, "prompts").items))
      && (!ok ==> Prompts(state, llm, parsed).None?)
  {
  }

  lemma FirstIndexAtMost(s: string, c: char, i: nat)
    requires i < |s| && s[i] == c
    ensures FirstIndex(s, c).Some? && FirstIndex(s, c).value <= i
  {
  }

  lemma LastIndexAtLeast(s: string, c: char, j: nat)
    requires j < |s| && s[j] == c
    ensures LastIndex(s, c).Some? && j <= LastIndex(s, c).value
  {
  }

  /** Some '{' before some '}' is enough for a braced stretch. */
  lemma BracePairMatches(s: string, i: nat, j: nat)
    requires i < j < |s| && s[i] == '{' && s[j] == '}'
    ensures BraceMatch(s).Some?
  {
    FirstIndexAtMost(s, '{', i);
    LastIndexAtLeast(s, '}', j);
  }

  /** A braced stretch runs from the first '{' to the last '}', which follows it. */
  lemma BraceMatchPair(s: string)
    requires BraceMatch(s).Some?
    ensures FirstIndex(s, '{').Some? && LastIndex(s, '}').Some?
    ensures FirstIndex(s, '{').value < LastIndex(s, '}').value
    ensures BraceMatch(s).value == s[FirstIndex(s, '{').value..LastIndex(s, '}').value + 1]
  {
  }

  /** A braced stretch is found exactly when some '{' precedes some '}', and it runs from
      the first '{' of the answer to its last '}'. */
  lemma BraceMatchExact(s: string)
    ensures BraceMatch(s).Some? <==> exists i, j | 0 <= i < j < |s| :: s[i] == '{' && s[j] == '}'
    ensures BraceMatch(s).Some? ==>
      && FirstIndex(s, '{').Some? && LastIndex(s, '}').Some?
      && BraceMatch(s).value == s[FirstIndex(s, '{').value..LastIndex(s, '}').value + 1]
  {
    if exists i, j | 0 <= i < j < |s| :: s[i] == '{' && s[j] == '}' {
      var i, j :| 0 <= i < j < |s| && s[i] == '{' && s[j] == '}';
      BracePairMatches(s, i, j);
    }
    if BraceMatch(s).Some? {
      BraceMatchPair(s);
    }
  }

  /** Each entry gets its position's id and the 'Learn More' call to action; a missing
      headline, body or platform gets its default, the body falling back on the rationale
      and then on `body_copy`. */
  lemma UiVariantFields(v: Value, i: nat)
    ensures var u := UiVariant(v, i);
      && u.id == Str(Strings.NatToString(i + 1))
      && u.cta == Str("Learn More")
      && u.headline == (if Truthy(Field(v, "headline")) then Field(v, "headline") else Str("Creative Strategy " + Strings.NatToString(i + 1)))
      && u.platform == (if Truthy(Field(v, "platform")) then Field(v, "platform") else Str("Omnichannel"))
      && u.body == (if Truthy(Field(v, "rationale")) then Field(v, "rationale")
                    else if Truthy(Field(v, "body_copy")) then Field(v, "body_copy")
                    else Str("Optimized for target audience engagement."))
      && u.rationale == (if Truthy(Field(v, "rationale")) then Field(v, "rationale") else Str("AI Generated Strategy"))
      && Truthy(u.headline) && Truthy(u.body) && Truthy(u.platform) && Truthy(u.rationale)
  {
  }

  /** Whatever the prompts, the final list has exactly five entries with ids "1" to "5":
      the first ones are the mapped prompts, the rest the fallback variants at the same
      positions. */
  lemma {:induction false} PaddedExactlyFive(vs: seq<Value>)
    ensures var ui := Padded(Mapped(vs));
      var n := |Mapped(vs)|;
      && |ui| == 5
      && ui[..n] == Mapped(vs) && ui[n..] == Fallback()[n..]
      && (forall k | 0 <= k < 5 :: ui[k].id == Str(Strings.NatToString(k + 1)))
  {
    var m := Mapped(vs);
    var ui := Padded(m);
    forall k | 0 <= k < 5
      ensures ui[k].id == Str(Strings.NatToString(k + 1))
    {
      if k < |m| {
        MapFromAt(if |vs| <= 5 then vs else vs[..5], 0, k);
        assert ui[k] == UiVariant(vs[k], k);
      } else {
        assert ui[k] == Fallback()[k];
      }
    }
  }

  /** The mapped fallback keeps each fallback variant's headline and platform and uses its
      rationale as the body, with ids "1" to "5". */
  lemma MappedFallbackFields()
    ensures forall k | 0 <= k < 5 ::
      && MappedFallback()[k].id == FallbackVariant(k).id
      && MappedFallback()[k].headline == FallbackVariant(k).headline
      && MappedFallback()[k].body == FallbackVariant(k).rationale
      && MappedFallback()[k].rationale == FallbackVariant(k).rationale
      && MappedFallback()[k].platform == FallbackVariant(k).platform
      && MappedFallback()[k].cta == Str("Learn More")
  {
    forall k | 0 <= k < 5
      ensures MappedFallback()[k].id == FallbackVariant(k).id
    {
      assert MappedFallback()[k] == UiFallback(k);
    }
  }

  /** A creative stage that completes emits `node_start` then `node_complete` carrying
      the five variants it stores, and leaves no error. */
  lemma CreativeCompletes(state: AbmelState, prompts: Option<seq<Value>>)
    requires !HasError(state) && (prompts.Some? ==> FirstNullish(prompts.value).None?)
    ensures var r := CreativeSettle(state, prompts, NoFault);
      var ui := if prompts.None? then MappedFallback() else Padded(Mapped(prompts.value));
      && r.state == state.(creativeVariants := Some(ui)) && |ui| == 5
      && (forall k | 0 <= k < 5 :: ui[k].id == Str(Strings.NatToString(k + 1)))
      && r.events == [StartEvent(CreativeId), WfEvent(Graph.NodeComplete, CreativeId, VariantList(ui))]
      && !HasError(r.state)
  {
    if prompts.Some? {
      PaddedExactlyFive(prompts.value);
    } else {
      MappedFallbackFields();
    }
  }

  /** A nullish entry at `k` means the first one is at `k` or before. */
  lemma FirstNullishAtMost(vs: seq<Value>, k: nat)
    requires k < |vs| && Nullish(vs[k])
    ensures FirstNullish(vs).Some? && FirstNullish(vs).value <= k
  {
    FirstNullishExact(vs);
  }

  /** Once started without a throw, the stage on the model's prompts is `SettlePrompts`. */
  lemma SettleUsesPrompts(state: AbmelState, vs: seq<Value>, fault: Fault)
    requires !fault.AtStart?
    ensures CreativeSettle(state, Some(vs), fault) == SettlePrompts(state, vs, Padded(Mapped(vs)), fault)
  {
  }

  /** The prompts with a first `null` or `undefined` entry at `i` fail on that entry with
      `m`, the TypeError the `headline` read raises. */
  lemma SettleOnNullish(state: AbmelState, vs: seq<Value>, ui: seq<UiRecord>, fault: Fault, i: nat, m: string)
    requires FirstNullish(vs) == Some(i) && i < |vs| && m == ReadError(vs[i], HeadlineKey)
    ensures SettlePrompts(state, vs, ui, fault) == Abort(state, CreativePrefix, m, [StartEvent(CreativeId), FailEvent(CreativeId, m)])
  {
  }

  /** A `null` or `undefined` prompt, at any position, even past the fifth, makes the
      `headline` read throw: the stage fails with the TypeError of the first such prompt
      and stores no variants, whatever their mapping would have given. With
      `SettleUsesPrompts` this is the creative stage's outcome once it has started. */
  lemma NullishPromptFails(state: AbmelState, vs: seq<Value>, ui: seq<UiRecord>, fault: Fault, k: nat)
    requires k < |vs| && Nullish(vs[k])
    ensures FirstNullish(vs).Some? && FirstNullish(vs).value <= k
    ensures FirstNullish(vs).Some? ==>
      var m := ReadError(vs[FirstNullish(vs).value], HeadlineKey);
      SettlePrompts(state, vs, ui, fault) == Abort(state, CreativePrefix, m, [StartEvent(CreativeId), FailEvent(CreativeId, m)])
  {
    FirstNullishAtMost(vs, k);
    var f := FirstNullish(vs);
    SettleOnNullish(state, vs, ui, fault, f.value, ReadError(vs[f.value], HeadlineKey));
  }

  /** A throw in the callback of either creative event fails the stage with the prefixed
      message, after `node_fail`, and stores no variants. */
  lemma CreativeFaultFails(state: AbmelState, prompts: Option<seq<Value>>, fault: Fault)
    requires !fault.NoFault?
    requires fault.AtComplete? && prompts.Some? ==> FirstNullish(prompts.value).None?
    ensures var r := CreativeSettle(state, prompts, fault);
      && r.state == state.(error := Some(CreativePrefix + fault.message)) && HasError(r.state)
      && r.events[0] == StartEvent(CreativeId) && r.events[|r.events| - 1] == FailEvent(CreativeId, fault.message)
  {
  }

  // ---------------------------------------------------------------- the sequence

  /** A run handed a failed state changes nothing and emits nothing. */
  lemma FailedRunIsInert(state: AbmelState, millis: nat, llm: Result<string>, parsed: Option<map<string, Value>>, faults: Faults)
    requires HasError(state)
    ensures RunWorkflow(state, millis, llm, parsed, faults) == StageResult(state, [])
  {
    StagesSkipOnError(state, millis, llm, parsed, faults.planning);
  }

  /** A throw in the planning stage stops the run there: the run's result is planning's
      failed result. */
  lemma PlanningFaultStops(state: AbmelState, millis: nat, llm: Result<string>, parsed: Option<map<string, Value>>, faults: Faults)
    requires !HasError(state) && !faults.planning.NoFault?
    ensures var r := RunWorkflow(state, millis, llm, parsed, faults);
      && r.state == state.(error := Some("Planning Failed: " + faults.planning.message))
      && r == PlanningStage(state, millis, faults.planning)
  {
    var a := PlanningStage(state, millis, faults.planning);
    StagesSkipOnError(a.state, millis, llm, parsed, faults.market);
    assert a.events + [] + [] + [] == a.events;
  }

  /** A throw in the persona stage, after two healthy stages, ends the run with that
      stage's error; the creative stage emits nothing. */
  lemma PersonaFaultStops(state: AbmelState, millis: nat, llm: Result<string>, parsed: Option<map<string, Value>>, faults: Faults)
    requires !HasError(state) && faults.planning.NoFault? && faults.market.NoFault? && !faults.persona.NoFault?
    ensures var r := RunWorkflow(state, millis, llm, parsed, faults);
      && r.state.error == Some("Persona Modeling Failed: " + faults.persona.message)
      && r.state.plan == Plan(millis) && r.state.marketData == MarketData && r.state.creativeVariants == state.creativeVariants
      && |r.events| >= 6 && r.events[|r.events| - 1] == FailEvent("persona_modeling", faults.persona.message)
  {
    var a := PlanningStage(state, millis, faults.planning);
    var b := MarketStage(a.state, faults.market);
    var c := PersonaStage(b.state, faults.persona);
    StageOutcome(b.state, "persona_modeling", "Persona Modeling Failed: ", faults.persona,
                 b.state.(personas := Personas), Record(map["personas" := Personas]));
    StagesSkipOnError(c.state, millis, llm, parsed, faults.creative);
  }

  /** The node ids of a list of events. */
  function NodeIds(es: seq<WfEvent>): (r: seq<string>)
    ensures |r| == |es|
  {
    seq(|es|, i requires 0 <= i < |es| => es[i].nodeId)
  }

  /** The kinds of a list of events. */
  function Kinds(es: seq<WfEvent>): (r: seq<Graph.EventType>)
    ensures |r| == |es|
  {
    seq(|es|, i requires 0 <= i < |es| => es[i].kind)
  }

  /** The state after the three fixed stages of a healthy run. */
  function AfterFixedStages(state: AbmelState, millis: nat): AbmelState {
    state.(plan := Plan(millis), marketData := MarketData, personas := Personas)
  }

  /** The events of the three fixed stages of a healthy run. */
  function FixedEvents(millis: nat): seq<WfEvent> {
    [StartEvent("planning"), WfEvent(Graph.NodeComplete, "planning", Record(map["taskGraph" := Plan(millis)])),
     StartEvent("market_research"), WfEvent(Graph.NodeComplete, "market_research", Record(map["marketSummary" := Str("Growth Sector")])),
     StartEvent("persona_modeling"), WfEvent(Graph.NodeComplete, "persona_modeling", Record(map["personas" := Personas]))]
  }

  /** On a healthy state the fixed stages each start and complete, in order, and leave
      their outputs and no error. */
  lemma FixedStagesHealthy(state: AbmelState, millis: nat)
    requires !HasError(state)
    ensures var a := PlanningStage(state, millis, NoFault);
      var b := MarketStage(a.state, NoFault);
      var c := PersonaStage(b.state, NoFault);
      && c.state == AfterFixedStages(state, millis) && !HasError(c.state)
      && a.events + b.events + c.events == FixedEvents(millis)
  {
  }

  /** On a healthy state, a run without throws is the fixed stages followed by the
      creative stage on their result. */
  lemma HealthyRunSplits(state: AbmelState, millis: nat, llm: Result<string>, parsed: Option<map<string, Value>>)
    requires !HasError(state)
    ensures var r := RunWorkflow(state, millis, llm, parsed, Faults(NoFault, NoFault, NoFault, NoFault));
      var c := AfterFixedStages(state, millis);
      var d := CreativeSettle(c, Prompts(c, llm, parsed), NoFault);
      && r.state == d.state && r.events == FixedEvents(millis) + d.events
  {
    FixedStagesHealthy(state, millis);
  }

  /** The node ids and kinds of the events of a healthy run that stores `ui`. */
  lemma HealthyEvents(millis: nat, ui: seq<UiRecord>)
    ensures var es := FixedEvents(millis) + [StartEvent(CreativeId), WfEvent(Graph.NodeComplete, CreativeId, VariantList(ui))];
      && NodeIds(es) == ["planning", "planning", "market_research", "market_research",
                         "persona_modeling", "persona_modeling", CreativeId, CreativeId]
      && Kinds(es) == [Graph.NodeStart, Graph.NodeComplete, Graph.NodeStart, Graph.NodeComplete,
                       Graph.NodeStart, Graph.NodeComplete, Graph.NodeStart, Graph.NodeComplete]
  {
  }

  /** A healthy run starts and completes the stages in the order planning, market
      research, persona modelling, creative generation, and leaves every stage's output,
      five variants among them, and no error. */
  lemma HealthyRunInOrder(state: AbmelState, millis: nat, llm: Result<string>, parsed: Option<map<string, Value>>)
    requires !HasError(state)
    requires var p := Prompts(AfterFixedStages(state, millis), llm, parsed); p.Some? ==> FirstNullish(p.value).None?
    ensures var r := RunWorkflow(state, millis, llm, parsed, Faults(NoFault, NoFault, NoFault, NoFault));
      && NodeIds(r.events) == ["planning", "planning", "market_research", "market_research",
                               "persona_modeling", "persona_modeling", CreativeId, CreativeId]
      && Kinds(r.events) == [Graph.NodeStart, Graph.NodeComplete, Graph.NodeStart, Graph.NodeComplete,
                             Graph.NodeStart, Graph.NodeComplete, Graph.NodeStart, Graph.NodeComplete]
      && !HasError(r.state)
      && r.state.plan == Plan(millis) && r.state.marketData == MarketData && r.state.personas == Personas
      && r.state.creativeVariants.Some? && |r.state.creativeVariants.value| == 5
  {
    HealthyRunSplits(state, millis, llm, parsed);
    var c := AfterFixedStages(state, millis);
    var p := Prompts(c, llm, parsed);
    CreativeCompletes(c, p);
    var ui := if p.None? then MappedFallback() else Padded(Mapped(p.value));
    var r := RunWorkflow(state, millis, llm, parsed, Faults(NoFault, NoFault, NoFault, NoFault));
    HealthyEvents(millis, ui);
  }
}
