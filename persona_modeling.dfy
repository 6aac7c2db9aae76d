/** The persona modeling agent: picks one of four fixed archetypes from the industry
    signal by strict string equality and returns it as the primary persona. */
module PersonaModeling {
  import opened Json
  import opened Graph
  import MarketIntelligence

  const AgentName := "PersonaModelingAgent"

  datatype Mindset = Impulsive | Considered | ResearchHeavy

  function MindsetName(m: Mindset): string {
    match m
    case Impulsive => "impulsive"
    case Considered => "considered"
    case ResearchHeavy => "research-heavy"
  }

  datatype Traits = Traits(attentionSpan: string, purchaseMindset: Mindset, contentPreference: seq<string>)

  datatype Constraints = Constraints(tone: string, visualStyle: string, copyDo: seq<string>, copyDont: seq<string>)

  datatype Persona = Persona(
    id: string,
    name: string,
    descriptor: string,
    motivations: seq<string>,
    painPoints: seq<string>,
    behavioralTraits: Traits,
    preferredPlatforms: seq<string>,
    creativeConstraints: Constraints)

  /** The keys of the archetype table. */
  datatype ArchetypeKey = SaasPrimary | FashionPrimary | HealthPrimary | GeneralPrimary

  function Archetype(k: ArchetypeKey): Persona {
    match k
    case SaasPrimary => Persona("p_saas_1", "The Efficiency Optimizer", "Operations Manager / CTO seeking ROI",
      ["Streamlining workflows", "Reducing overhead", "Scalability"],
      ["Complex integrations", "Hidden costs", "Downtime"],
      Traits("Short (skims for specs)", Considered, ["Case Studies", "Demos", "Spec Sheets"]),
      ["LinkedIn", "Twitter", "Desktop Web"],
      Constraints("Professional, Direct, Authoritative", "Clean, minimalist UI shots, Data visualizations",
        ["Focus on ROI", "Use specific metrics", "Highlight integration"],
        ["Use fluffy adjectives", "Over-promise", "Use slang"]))
    case FashionPrimary => Persona("p_fash_1", "The Visual Curator", "Gen Z / Millennial seeking identity expression",
      ["Self-expression", "Social validation", "Aesthetics"],
      ["Generic styles", "Poor fit", "Fast fashion guilt"],
      Traits("Low (visual first)", Impulsive, ["Short Video", "Lookbooks", "Influencer Content"]),
      ["Instagram", "TikTok", "Pinterest"],
      Constraints("Aspirational, Cool, Confident", "High-contrast, Lifestyle-focused, Dynamic motion",
        ["Evoke emotion", "Focus on \"You\"", "Create urgency"],
        ["Be boring", "Focus on technical fabric specs (unless eco)", "Be text-heavy"]))
    case HealthPrimary => Persona("p_health_1", "The Wellness Seeker", "Health-conscious individual prioritizing longevity",
      ["Vitality", "Mental clarity", "Prevention"],
      ["Side effects", "Ineffective products", "Lack of science"],
      Traits("High (reads labels)", ResearchHeavy, ["Educational Video", "Testimonials", "Science breakdowns"]),
      ["Instagram", "Google Search", "YouTube"],
      Constraints("Empathetic, Trustworthy, Educational", "Natural light, Human connection, Clean/Clinical",
        ["Cite science/ingredients", "Show benefits", "Be transparent"],
        ["Fear-monger", "Make medical claims", "Use chaotic visuals"]))
    case GeneralPrimary => Persona("p_gen_1", "The Modern Consumer", "Value-driven shopper",
      ["Quality", "Convenience", "Social Proof"],
      ["Wasted money", "Poor service", "Obsolescence"],
      Traits("Medium", Considered, ["Reviews", "Comparison Videos"]),
      ["Facebook", "Instagram", "Search"],
      Constraints("Helpful, Clear, Friendly", "Product-hero, Lifestyle context",
        ["Focus on benefits", "Use social proof", "Clear CTA"],
        ["Be vague", "Hide pricing"]))
  }

  /** The primary-key selection: three successive `if`s with `===`, so a later match
      overrides an earlier one and anything that is not one of the literal strings keeps
      the general default. */
  function SelectKey(industry: Value): ArchetypeKey {
    var k := GeneralPrimary;
    var k := if industry == Str("saas") || industry == Str("tech") then SaasPrimary else k;
    var k := if industry == Str("fashion") then FashionPrimary else k;
    if industry == Str("health") then HealthPrimary else k
  }

  function ConstraintsValue(c: Constraints): Value {
    Obj(map["tone" := Str(c.tone), "visualStyle" := Str(c.visualStyle),
            "copyDo" := StrArr(c.copyDo), "copyDont" := StrArr(c.copyDont)])
  }

  function PersonaValue(p: Persona): Value {
    var t := p.behavioralTraits;
    Obj(map["id" := Str(p.id), "name" := Str(p.name), "descriptor" := Str(p.descriptor),
            "motivations" := StrArr(p.motivations), "painPoints" := StrArr(p.painPoints),
            "behavioralTraits" := Obj(map["attentionSpan" := Str(t.attentionSpan),
                                          "purchaseMindset" := Str(MindsetName(t.purchaseMindset)),
                                          "contentPreference" := StrArr(t.contentPreference)]),
            "preferredPlatforms" := StrArr(p.preferredPlatforms),
            "creativeConstraints" := ConstraintsValue(p.creativeConstraints)])
  }

  /** `input.industry || 'general'`. */
  function Industry(input: map<string, Value>): Value {
    Or(Get(input, "industry"), Str("general"))
  }

  /** `input.audience || 'General Audience'`; it reaches only the log. */
  function Audience(input: map<string, Value>): Value {
    Or(Get(input, "audience"), Str("General Audience"))
  }

  /** The flattened persona list (primary first, no secondaries), the primary persona and
      its creative constraints. */
  function Data(p: Persona): map<string, Value> {
    map["personas" := Arr([PersonaValue(p)]),
        "primaryPersona" := PersonaValue(p),
        "creativeConstraints" := ConstraintsValue(p.creativeConstraints)]
  }

  /** `execute`: nothing in the body can throw for a record input, so it always completes. */
  function Execute(input: map<string, Value>, now: string, logs: seq<string>): AgentResult {
    AgentResult(AgentName, Completed, Data(Archetype(SelectKey(Industry(input)))), now, logs)
  }

  /** The log lines of one `execute` call. */
  function Messages(input: map<string, Value>): seq<string> {
    ["Synthesizing Audience Personas...",
     "Context: " + ToJsString(Industry(input)) + " | Audience: " + ToJsString(Audience(input))]
  }

  // ---------------------------------------------------------------- properties

  /** Each archetype is selected by exactly its industry strings; everything else,
      including a different capitalisation, falls to the general archetype. */
  lemma SelectKeyExact(industry: Value)
    ensures SelectKey(industry) == SaasPrimary <==> industry in {Str("saas"), Str("tech")}
    ensures SelectKey(industry) == FashionPrimary <==> industry == Str("fashion")
    ensures SelectKey(industry) == HealthPrimary <==> industry == Str("health")
    ensures SelectKey(industry) == GeneralPrimary <==>
      industry !in {Str("saas"), Str("tech"), Str("fashion"), Str("health")}
  {
  }

  /** The industries the market intelligence agent emits: fintech, fmcg and general_tech
      all land on the general archetype, and "tech" is never produced. */
  lemma MarketIndustriesSelect(ind: MarketIntelligence.Industry)
    ensures SelectKey(Str(MarketIntelligence.Name(ind))) ==
      match ind
      case Saas => SaasPrimary
      case Fashion => FashionPrimary
      case Health => HealthPrimary
      case _ => GeneralPrimary
  {
  }

  /** A missing industry selects the general archetype. */
  lemma MissingIndustryIsGeneral(input: map<string, Value>)
    requires !Truthy(Get(input, "industry"))
    ensures SelectKey(Industry(input)) == GeneralPrimary
  {
  }

  /** The result always completes; its persona list is the primary persona alone, and the
      top-level constraints are the primary persona's. The audience does not affect it. */
  lemma ExecuteShape(input: map<string, Value>, now: string, logs: seq<string>)
    ensures var r := Execute(input, now, logs);
      && r.status == Completed
      && r.data["personas"] == Arr([r.data["primaryPersona"]])
      && r.data["creativeConstraints"] == Field(r.data["primaryPersona"], "creativeConstraints")
      && r.data["primaryPersona"] == PersonaValue(Archetype(SelectKey(Industry(input))))
    ensures Execute(input["audience" := Str("anyone")], now, logs) == Execute(input, now, logs)
  {
    assert Get(input["audience" := Str("anyone")], "industry") == Get(input, "industry");
  }
}
