/** The creative generation agent: up to two attempts at asking the language model for
    five creatives, each reply stripped of Markdown fences, parsed, checked for shape and
    mapped onto variants with fixed ids and defaulted fields. The model's reply for each
    attempt (`generate`) and `JSON.parse` (`parse`) are inputs. */
module CreativeGeneration {
  import opened Wrappers
  import opened Json
  import opened Graph
  import opened Strings
  import opened BaseAgent

  const AgentName := "CreativeGenerationAgent"
  const MaxAttempts := 2

  /** `validStrategies[i]`. */
  function StrategyAt(i: nat): string
    requires i < 5
  {
    match i
    case 0 => "FEATURE"
    case 1 => "EMOTIONAL"
    case 2 => "SOCIAL_PROOF"
    case 3 => "PRICE"
    case _ => "LIFESTYLE"
  }

  /** `validStrategies.includes(s)`. */
  predicate IsStrategy(s: string) {
    s == StrategyAt(0) || s == StrategyAt(1) || s == StrategyAt(2) || s == StrategyAt(3) || s == StrategyAt(4)
  }

  /** The free-text fields of a creative, with their keys and defaults. */
  datatype TextField = Headline | BodyCopy | VisualPrompt | Tone | Platform

  function Key(f: TextField): string {
    match f
    case Headline => "headline"
    case BodyCopy => "body_copy"
    case VisualPrompt => "visual_prompt"
    case Tone => "tone"
    case Platform => "platform"
  }

  function Default(f: TextField): string {
    match f
    case Headline => "Untitled Creative"
    case BodyCopy => ""
    case VisualPrompt => "No visual description provided."
    case Tone => "Neutral"
    case Platform => "General"
  }

  /** `c.<field> || <default>`. */
  function Text(c: Value, f: TextField): Value {
    Or(Field(c, Key(f)), Str(Default(f)))
  }

  // ---------------------------------------------------------------- one reply

  /** A creative variant as `generateCreatives` builds it: its id is the decimal text of
      `ordinal`, and the text fields keep whatever value the reply carried when it was
      truthy. */
  datatype Variant = Variant(
    ordinal: nat,
    strategyType: string,
    headline: Value,
    bodyCopy: Value,
    visualPrompt: Value,
    tone: Value,
    platform: Value,
    isBestCreative: bool)

  /** The variant as the record the agent returns. */
  function AsValue(v: Variant): Value {
    Obj(map[
      "id" := Str(NatToString(v.ordinal)),
      "strategy_type" := Str(v.strategyType),
      "headline" := v.headline,
      "body_copy" := v.bodyCopy,
      "visual_prompt" := v.visualPrompt,
      "tone" := v.tone,
      "platform" := v.platform,
      "is_best_creative" := Bool(v.isBestCreative)])
  }

  function AsValues(vs: seq<Variant>): seq<Value> {
    seq(|vs|, i requires 0 <= i < |vs| => AsValue(vs[i]))
  }

  /** The reply with every "```json" and then every "```" removed, and trimmed. */
  function Clean(text: string): string {
    Trim(RemoveAll(RemoveAll(text, "```json"), Fence))
  }

  /** A `strategy_type` from the enum is kept; anything else is replaced by the enum
      value at the creative's position modulo 5. */
  function Strategy(st: Value, index: nat): string {
    if st.Str? && IsStrategy(st.s) then st.s else StrategyAt(index % 5)
  }

  /** The variant built from the present creative at `index`. */
  function Build(c: Value, index: nat): Variant {
    Variant(
      index + 1,
      Strategy(Field(c, "strategy_type"), index),
      Text(c, Headline),
      Text(c, BodyCopy),
      Text(c, VisualPrompt),
      Text(c, Tone),
      Text(c, Platform),
      false)
  }

  /** The mapping callback: reading `c.strategy_type` from `undefined` or `null` throws. */
  function MapCreative(c: Value, index: nat): Result<Variant> {
    if Nullish(c) then Err(ReadError(c, "strategy_type")) else Ok(Build(c, index))
  }

  /** The position of the first absent creative, or `|cs|` when all are present. */
  function FirstAbsent(cs: seq<Value>): (i: nat)
    ensures i <= |cs|
    ensures i < |cs| ==> Nullish(cs[i])
    ensures forall k :: 0 <= k < i ==> !Nullish(cs[k])
  {
    if cs == [] || Nullish(cs[0]) then 0 else 1 + FirstAbsent(cs[1..])
  }

  /** `creatives.map(...)` with positions counted from `start`: the callback runs left
      to right, so the first absent creative's throw ends the map; otherwise there is
      one variant per creative, built at its own position. */
  function MapAll(cs: seq<Value>, start: nat): Result<seq<Variant>> {
    var i := FirstAbsent(cs);
    if i < |cs| then Err(ReadError(cs[i], "strategy_type"))
    else Ok(Builds(cs, start))
  }

  /** One variant per creative, each built at its own position. */
  function Builds(cs: seq<Value>, start: nat): seq<Variant> {
    seq(|cs|, k requires 0 <= k < |cs| => Build(cs[k], start + k))
  }

  /** The errors `generateCreatives` throws on a reply it cannot use. */
  datatype ShapeError = InvalidJson | MissingCreatives | WrongCount(n: nat)

  function ShapeMessage(e: ShapeError): string {
    match e
    case InvalidJson => "Invalid JSON response from LLM"
    case MissingCreatives => "Response missing 'creatives' array"
    case WrongCount(n) => "Expected 5 creatives, got " + NatToString(n)
  }

  /** The checks on the parsed reply, then the mapping. */
  function Validate(parsed: Value): Result<seq<Variant>> {
    match Prop(parsed, "creatives")
    case Err(e) => Err(e)
    case Ok(cs) =>
      if !Truthy(cs) || !cs.Arr? then Err(ShapeMessage(MissingCreatives))
      else if |cs.items| != 5 then Err(ShapeMessage(WrongCount(|cs.items|)))
      else MapAll(cs.items, 0)
  }

  /** One call of `generateCreatives`: the model's reply (or the error it threw), then
      cleaning, parsing, shape validation and mapping. */
  function Attempt(reply: Result<string>, parse: string -> Option<Value>): Result<seq<Variant>> {
    match reply
    case Err(e) => Err(e)
    case Ok(text) =>
      match parse(Clean(text))
      case None => Err(ShapeMessage(InvalidJson))
      case Some(parsed) => Validate(parsed)
  }

  // ---------------------------------------------------------------- properties of one reply

  /** The cleaned reply contains no Markdown fence at all, not even one that removing
      inner fences brought together. */
  lemma CleanedReplyHasNoFence(text: string)
    ensures !Contains(Clean(text), Fence) && !Contains(Clean(text), "```json")
  {
    var stripped := RemoveAll(RemoveAll(text, "```json"), Fence);
    RemoveFenceComplete(RemoveAll(text, "```json"));
    TrimShape(stripped);
    var i, j :| 0 <= i <= j <= |stripped| && Clean(text) == stripped[i..j];
    if Contains(Clean(text), Fence) {
      InfixContains(stripped, Fence, i, j);
    }
    if Contains(Clean(text), "```json") {
      PrefixContains(Clean(text), "```json", Fence);
    }
  }

  /** The chosen strategy is always one of the five, and a valid one is kept. */
  lemma StrategyInEnum(st: Value, index: nat)
    ensures IsStrategy(Strategy(st, index))
    ensures st.Str? && IsStrategy(st.s) ==> Strategy(st, index) == st.s
    ensures !(st.Str? && IsStrategy(st.s)) ==> Strategy(st, index) == StrategyAt(index % 5)
  {
    var k := index % 5;
    assert k == 0 || k == 1 || k == 2 || k == 3 || k == 4;
  }

  /** A text field keeps a truthy value and takes its default otherwise. */
  lemma TextDefaults(c: Value, f: TextField)
    ensures Truthy(Field(c, Key(f))) ==> Text(c, f) == Field(c, Key(f))
    ensures !Truthy(Field(c, Key(f))) ==> Text(c, f) == Str(Default(f))
    ensures Default(Headline) == "Untitled Creative" && Default(VisualPrompt) == "No visual description provided."
  {
  }

  /** A present creative maps to a variant with the next ordinal, `is_best_creative`
      false, an enum strategy and its defaulted text fields; an absent one throws on
      reading `strategy_type`. */
  lemma MapCreativeShape(c: Value, index: nat)
    ensures MapCreative(c, index).Err? <==> Nullish(c)
    ensures Nullish(c) ==> MapCreative(c, index) == Err(ReadError(c, "strategy_type"))
    ensures !Nullish(c) ==>
      var v := MapCreative(c, index).value;
      && v.ordinal == index + 1
      && !v.isBestCreative
      && IsStrategy(v.strategyType)
      && v.headline == Text(c, Headline) && v.bodyCopy == Text(c, BodyCopy)
      && v.visualPrompt == Text(c, VisualPrompt) && v.tone == Text(c, Tone) && v.platform == Text(c, Platform)
  {
    if !Nullish(c) {
      StrategyInEnum(Field(c, "strategy_type"), index);
    }
  }

  lemma SmallId(i: nat)
    requires i < 5
    ensures NatToString(i + 1) == ["1", "2", "3", "4", "5"][i]
  {
    if i == 0 {
    } else if i == 1 {
    } else if i == 2 {
    } else if i == 3 {
    } else {
      assert NatToString(5) == "5";
    }
  }

  /** The map succeeds exactly when every creative is present. */
  lemma MapAllShape(cs: seq<Value>, start: nat)
    ensures MapAll(cs, start).Ok? <==> forall k :: 0 <= k < |cs| ==> !Nullish(cs[k])
    ensures MapAll(cs, start).Ok? ==> MapAll(cs, start).value == Builds(cs, start)
  {
    var i := FirstAbsent(cs);
    if i < |cs| {
      assert Nullish(cs[i]);
    }
  }

  lemma BuildsAt(cs: seq<Value>, start: nat, k: nat)
    requires k < |cs|
    ensures |Builds(cs, start)| == |cs| && Builds(cs, start)[k] == Build(cs[k], start + k)
  {
  }

  /** The parsed reply that `generateCreatives` accepts: a record whose `creatives` is an
      array of exactly five present items. */
  predicate Acceptable(parsed: Value) {
    && !Nullish(parsed)
    && Field(parsed, "creatives").Arr?
    && |Field(parsed, "creatives").items| == 5
    && forall i :: 0 <= i < 5 ==> !Nullish(Field(parsed, "creatives").items[i])
  }

  /** Validation succeeds exactly on an acceptable reply, and then returns five variants
      with ids "1" to "5" in order, none marked best, each with an enum strategy. */
  lemma ValidateAcceptsExactlyFive(parsed: Value)
    ensures Validate(parsed).Ok? <==> Acceptable(parsed)
    ensures Validate(parsed).Ok? ==>
      var vs := Validate(parsed).value;
      && |vs| == 5
      && (forall i :: 0 <= i < 5 ==> NatToString(vs[i].ordinal) == ["1", "2", "3", "4", "5"][i])
      && (forall i :: 0 <= i < 5 ==> !vs[i].isBestCreative && IsStrategy(vs[i].strategyType))
  {
    ValidateErrors(parsed);
    var f := Field(parsed, "creatives");
    if !Nullish(parsed) && f.Arr? && |f.items| == 5 {
      MapAllShape(f.items, 0);
    }
    if Acceptable(parsed) {
      var vs := MapAll(f.items, 0).value;
      forall i | 0 <= i < 5
        ensures NatToString(vs[i].ordinal) == ["1", "2", "3", "4", "5"][i]
        ensures !vs[i].isBestCreative && IsStrategy(vs[i].strategyType)
      {
        BuildsAt(f.items, 0, i);
        SmallId(i);
        StrategyInEnum(Field(f.items[i], "strategy_type"), i);
      }
    }
  }

  /** An attempt succeeds exactly when the model answered and the cleaned answer parses
      to an acceptable reply. */
  lemma AttemptSucceeds(reply: Result<string>, parse: string -> Option<Value>)
    ensures Attempt(reply, parse).Ok? <==>
      reply.Ok? && parse(Clean(reply.value)).Some? && Acceptable(parse(Clean(reply.value)).value)
    ensures Attempt(reply, parse).Ok? ==> Attempt(reply, parse) == Validate(parse(Clean(reply.value)).value)
    ensures reply.Err? ==> Attempt(reply, parse) == Err(reply.error)
    ensures reply.Ok? && parse(Clean(reply.value)).None? ==> Attempt(reply, parse) == Err(ShapeMessage(InvalidJson))
  {
    if reply.Ok? && parse(Clean(reply.value)).Some? {
      ValidateAcceptsExactlyFive(parse(Clean(reply.value)).value);
    }
  }

  /** The error of each rejected parsed reply. */
  lemma ValidateErrors(parsed: Value)
    ensures Nullish(parsed) ==> Validate(parsed) == Err(ReadError(parsed, "creatives"))
    ensures !Nullish(parsed) && !Field(parsed, "creatives").Arr? ==> Validate(parsed) == Err(ShapeMessage(MissingCreatives))
    ensures !Nullish(parsed) && Field(parsed, "creatives").Arr? && |Field(parsed, "creatives").items| != 5 ==>
      Validate(parsed) == Err(ShapeMessage(WrongCount(|Field(parsed, "creatives").items|)))
    ensures Acceptable(parsed) ==> Validate(parsed) == MapAll(Field(parsed, "creatives").items, 0)
  {
  }

  // ---------------------------------------------------------------- the retry loop

  /* The loop is stated over `outcome(k)`, the result of the k-th call of
     `generateCreatives`; `execute` instantiates it with `Attempt(generate(k), parse)`. */

  /** The outcome of `execute`'s loop: the first successful attempt, or the last error. */
  function Generation(outcome: nat -> Result<seq<Variant>>): Result<seq<Variant>> {
    if outcome(1).Ok? then outcome(1) else outcome(2)
  }

  function ResultOf(name: string, g: Result<seq<Variant>>, now: string, logs: seq<string>): AgentResult {
    match g
    case Ok(vs) => AgentResult(name, Completed, map["variants" := Arr(AsValues(vs))], now, logs)
    case Err(e) => AgentResult(name, Failed, map["error" := Str(FinalError(e))], now, logs)
  }

  function FinalError(message: string): string {
    "Final Error after " + NatToString(MaxAttempts) + " attempts: " + message
  }

  lemma FinalErrorText(message: string)
    ensures FinalError(message) == "Final Error after 2 attempts: " + message
  {
    assert NatToString(MaxAttempts) == "2";
  }

  function AttemptLine(k: nat): string {
    "Attempt " + NatToString(k) + "/" + NatToString(MaxAttempts) + ": Generating Creatives..."
  }

  function FailLine(k: nat, message: string): string {
    "Attempt " + NatToString(k) + " failed: " + message
  }

  /** The lines one attempt logs: its announcement, and its error when it fails. */
  function AttemptLines(k: nat, outcome: Result<seq<Variant>>): seq<string> {
    [AttemptLine(k)] + (if outcome.Ok? then [] else [FailLine(k, outcome.error)])
  }

  /** Every log line one `execute` call adds, in order. */
  function Messages(outcome: nat -> Result<seq<Variant>>): seq<string> {
    ["Initializing Creative Synthesis Module..."] + AttemptLines(1, outcome(1))
    + (if outcome(1).Ok? then [] else AttemptLines(2, outcome(2)))
  }

  /** One pass of the loop body up to the decision to return or retry. */
  method RunAttempt(agent: Agent, k: nat, outcome: nat -> Result<seq<Variant>>, now: string)
    returns (variants: Result<seq<Variant>>)
    modifies agent
    ensures variants == outcome(k)
    ensures agent.status == old(agent.status)
    ensures agent.logs == old(agent.logs) + Entries(agent.name, now, AttemptLines(k, variants))
  {
    agent.Log(AttemptLine(k), now);
    variants := outcome(k);
    if variants.Err? {
      agent.Log(FailLine(k, variants.error), now);
    }
  }

  /** The `while` loop of `execute`: at most two attempts, the first success returns its
      variants, and the second failure returns the error of that attempt. */
  method Retry(agent: Agent, outcome: nat -> Result<seq<Variant>>, now: string) returns (r: AgentResult)
    modifies agent
    ensures r == ResultOf(agent.name, Generation(outcome), now, agent.logs)
    ensures agent.status == r.status
    ensures agent.logs == old(agent.logs) + Entries(agent.name, now, Messages(outcome))
  {
    var init := ["Initializing Creative Synthesis Module..."];
    agent.SetStatus(Running);
    agent.Log(init[0], now);
    ghost var lines := init;
    var attempt := 0;
    while attempt < MaxAttempts
      invariant 0 <= attempt < MaxAttempts
      invariant attempt == 0 ==> lines == init
      invariant attempt == 1 ==> outcome(1).Err? && lines == init + AttemptLines(1, outcome(1))
      invariant agent.logs == old(agent.logs) + Entries(agent.name, now, lines)
      decreases MaxAttempts - attempt
    {
      attempt := attempt + 1;
      var variants := RunAttempt(agent, attempt, outcome, now);
      EntriesAppend(agent.name, now, lines, AttemptLines(attempt, variants));
      lines := lines + AttemptLines(attempt, variants);
      if variants.Ok? {
        agent.SetStatus(Completed);
        r := AgentResult(agent.name, Completed, map["variants" := Arr(AsValues(variants.value))], now, agent.logs);
        return;
      }
      if attempt >= MaxAttempts {
        agent.SetStatus(Failed);
        r := AgentResult(agent.name, Failed, map["error" := Str(FinalError(variants.error))], now, agent.logs);
        return;
      }
    }
    assert false;
    r := AgentResult(AgentName, Failed, map["error" := Str("Unknown failure")], now, []);
  }

  /** At most two attempts are consulted: two oracles that agree on attempts 1 and 2
      give the same result and the same log. */
  lemma AtMostTwoAttempts(o1: nat -> Result<seq<Variant>>, o2: nat -> Result<seq<Variant>>)
    requires o1(1) == o2(1) && o1(2) == o2(2)
    ensures Generation(o1) == Generation(o2) && Messages(o1) == Messages(o2)
  {
  }

  /** The first success is returned and no second attempt is made; the loop fails only
      when both attempts fail, with the second attempt's error. */
  lemma RetryOutcome(outcome: nat -> Result<seq<Variant>>, name: string, now: string, logs: seq<string>)
    ensures outcome(1).Ok? ==> Generation(outcome) == outcome(1) && |Messages(outcome)| == 2
    ensures outcome(1).Err? && outcome(2).Ok? ==> Generation(outcome) == outcome(2) && |Messages(outcome)| == 4
    ensures ResultOf(name, Generation(outcome), now, logs).status == Failed <==> outcome(1).Err? && outcome(2).Err?
    ensures outcome(1).Err? && outcome(2).Err? ==>
      ResultOf(name, Generation(outcome), now, logs).data
        == map["error" := Str("Final Error after 2 attempts: " + outcome(2).error)]
      && |Messages(outcome)| == 5
    ensures Generation(outcome).Ok? ==>
      ResultOf(name, Generation(outcome), now, logs).status == Completed
      && ResultOf(name, Generation(outcome), now, logs).data == map["variants" := Arr(AsValues(Generation(outcome).value))]
  {
    if outcome(1).Err? && outcome(2).Err? {
      FinalErrorText(outcome(2).error);
    }
  }

  /** `execute`: the retry loop over `generateCreatives`. */
  method Execute(agent: Agent, generate: nat -> Result<string>, parse: string -> Option<Value>, now: string) returns (r: AgentResult)
    modifies agent
    ensures r == ResultOf(agent.name, Generation((k: nat) => Attempt(generate(k), parse)), now, agent.logs)
    ensures agent.status == r.status
    ensures agent.logs == old(agent.logs) + Entries(agent.name, now, Messages((k: nat) => Attempt(generate(k), parse)))
  {
    r := Retry(agent, (k: nat) => Attempt(generate(k), parse), now);
  }
}
