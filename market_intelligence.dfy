/** The market intelligence agent: detects an industry from keywords in the product
    name, then reads a fixed strategy table, falling back to the general-tech entry. */
module MarketIntelligence {
  import opened Wrappers
  import opened Json
  import opened Graph
  import opened Strings

  const AgentName := "MarketIntelligenceAgent"

  datatype Industry = Saas | Fashion | Fintech | Fmcg | Health | GeneralTech

  function Name(ind: Industry): string {
    match ind
    case Saas => "saas"
    case Fashion => "fashion"
    case Fintech => "fintech"
    case Fmcg => "fmcg"
    case Health => "health"
    case GeneralTech => "general_tech"
  }

  /** The position of an industry's keyword test in `detectIndustry`; the fallback is last. */
  function Rank(ind: Industry): nat {
    match ind
    case Saas => 0
    case Fashion => 1
    case Fintech => 2
    case Fmcg => 3
    case Health => 4
    case GeneralTech => 5
  }

  function Keywords(ind: Industry): seq<string> {
    match ind
    case Saas => ["ai", "software", "app", "platform", "cloud"]
    case Fashion => ["shoe", "wear", "shirt", "dress", "fashion"]
    case Fintech => ["coin", "bank", "invest", "card", "wallet"]
    case Fmcg => ["tea", "drink", "food", "snack"]
    case Health => ["health", "med", "care", "supplement"]
    case GeneralTech => []
  }

  /** Some keyword of the industry occurs in `p`. */
  predicate Matches(p: string, ind: Industry) {
    exists i | 0 <= i < |Keywords(ind)| :: Contains(p, Keywords(ind)[i])
  }

  /** `detectIndustry(product)`: the keyword groups are tried in a fixed order on the
      lowercased product, and the first group with a substring match wins. */
  function DetectIndustry(product: string): Industry {
    var p := ToLower(product);
    if Matches(p, Saas) then Saas
    else if Matches(p, Fashion) then Fashion
    else if Matches(p, Fintech) then Fintech
    else if Matches(p, Fmcg) then Fmcg
    else if Matches(p, Health) then Health
    else GeneralTech
  }

  /** One entry of the strategy table. */
  datatype Strategy = Strategy(
    maturity: string,
    narratives: seq<string>,
    competitorMessaging: seq<string>,
    opportunities: seq<string>,
    risks: seq<string>,
    positioning: string,
    angles: seq<string>)

  /** `strategies[industry]`: the table has no entry for fmcg. */
  function Entry(ind: Industry): Option<Strategy> {
    if ind == Fmcg then None else Some(Table(ind))
  }

  /** The table's rows. */
  function Table(ind: Industry): Strategy
    requires ind != Fmcg
  {
    match ind
    case Saas => Strategy("growing",
      ["Efficiency at scale", "AI-powered automation", "Seamless integration"],
      ["\"The #1 Platform for X\"", "\"Automate everything\"", "\"Built for scale\""],
      ["Focus on specific pain-point resolution", "Human-centric AI benefits", "Time-to-value speed"],
      ["Buzzword fatigue (too much \"AI\")", "Feature complexity", "Lack of trust"],
      "The Intelligent Enabler",
      ["The \"New Way\" vs Old Way", "Proof of Efficiency", "Empowerment"])
    case Fashion => Strategy("saturated",
      ["Sustainability", "Self-expression", "Dopamine dressing"],
      ["\"Wear your vibe\"", "\"Timeless classics\"", "\"Comfort meets style\""],
      ["Radical transparency", "Digital-only fashion", "Nostalgia remix"],
      ["Greenwashing accusations", "Trend obsolescence", "Generic imagery"],
      "The Identity Shaper",
      ["Visual Impact", "Ethical Luxury", "Exclusive Access"])
    case Fintech => Strategy("mature",
      ["Democratizing finance", "Crypto future", "Frictionless payments"],
      ["\"Banking without borders\"", "\"Invest in your future\"", "\"Fast, secure, simple\""],
      ["Financial wellness/education", "Community-driven wealth", "Transparent fees"],
      ["Regulatory fears", "Security doubts", "Cold/impersonal feel"],
      "The Trusted Partner",
      ["Freedom & Control", "Security First", "Smart Growth"])
    case Health => Strategy("growing",
      ["Holistic wellness", "Science-backed", "Personalized care"],
      ["\"Clinically proven\"", "\"Nature meets science\"", "\"Unlock your potential\""],
      ["Mental health integration", "Preventative lifestyle", "Community support"],
      ["Pseudoscientific claims", "Over-promising", "Medical jargon"],
      "The Wellness Companion",
      ["Evidence-Based", "Empathy & Care", "Holistic Balance"])
    case GeneralTech => Strategy("competitive",
      ["Innovation", "Performance", "Design"],
      ["\"The world's most powerful X\"", "\"Designed for Pro\"", "\"Experience the future\""],
      ["Niche feature focus", "Design aesthetics", "Customer support excellence"],
      ["Commoditization", "Spec wars", "Design copycats"],
      "The Premium Choice",
      ["Performance Leader", "Design Focused", "User Experience"])
  }

  /** `strategies[industry] || strategies['general_tech']`. */
  function StrategyFor(ind: Industry): Strategy {
    match Entry(ind)
    case Some(s) => s
    case None => Entry(GeneralTech).value
  }

  datatype Intelligence = Intelligence(
    marketSummary: string,
    industry: string,
    keyOpportunities: seq<string>,
    keyRisks: seq<string>,
    competitorMessaging: seq<string>,
    recommendedPositioning: string,
    suggestedMessagingAngles: seq<string>)

  /** The summary sentence; `narratives[0]` of an empty list would print "undefined". */
  function Summary(industry: string, product: string, s: Strategy): string {
    "The " + industry + " market for " + product + " is currently " + s.maturity
    + ". Key players focus on " + (if s.narratives == [] then "undefined" else s.narratives[0]) + "."
  }

  /** `generateIntelligence(industry, product)`. */
  function GenerateIntelligence(ind: Industry, product: string): Intelligence {
    var s := StrategyFor(ind);
    Intelligence(Summary(Name(ind), product, s), Name(ind), s.opportunities, s.risks,
                 s.competitorMessaging, s.positioning, s.angles)
  }

  /** The agent's output record. */
  function ToData(i: Intelligence): map<string, Value> {
    map["marketSummary" := Str(i.marketSummary),
        "industry" := Str(i.industry),
        "keyOpportunities" := StrArr(i.keyOpportunities),
        "keyRisks" := StrArr(i.keyRisks),
        "competitorMessaging" := StrArr(i.competitorMessaging),
        "recommendedPositioning" := Str(i.recommendedPositioning),
        "suggestedMessagingAngles" := StrArr(i.suggestedMessagingAngles)]
  }

  /** `input.product || "Generic Product"`. */
  function Product(input: map<string, Value>): Value {
    Or(Get(input, "product"), Str("Generic Product"))
  }

  /** `execute`: a product that is not a string makes `toLowerCase` throw, which the
      agent reports as a failed result. */
  function Execute(input: map<string, Value>, now: string, logs: seq<string>): AgentResult {
    var product := Product(input);
    if !product.Str? then
      AgentResult(AgentName, Failed, map["error" := Str("product.toLowerCase is not a function")], now, logs)
    else
      AgentResult(AgentName, Completed, ToData(GenerateIntelligence(DetectIndustry(product.s), product.s)), now, logs)
  }

  /** The log lines of one `execute` call. */
  function Messages(input: map<string, Value>): seq<string> {
    var product := Product(input);
    ["Initializing Market Domain Analysis..."]
    + if product.Str? then ["Detected Domain Context: " + ToUpper(Name(DetectIndustry(product.s)))] else []
  }

  // ---------------------------------------------------------------- properties

  /** The detected industry is the first group, in the fixed order, with a keyword in the
      lowercased product; the general-tech fallback is taken exactly when no group matches. */
  lemma DetectIsFirstMatch(product: string, ind: Industry)
    ensures DetectIndustry(product) == ind <==>
      (ind == GeneralTech || Matches(ToLower(product), ind))
      && forall g: Industry :: Rank(g) < Rank(ind) ==> !Matches(ToLower(product), g)
  {
  }

  /** Precedence: a saas keyword wins over every other group, so a product mentioning both
      an app and a shoe is saas. */
  lemma SaasWinsTies(product: string)
    requires Contains(ToLower(product), "app")
    ensures DetectIndustry(product) == Saas
  {
    assert Keywords(Saas)[2] == "app";
  }

  /** Matching is on substrings: "ai" inside "Chair" makes it saas. */
  lemma SubstringMatch()
    ensures DetectIndustry("Chair") == Saas
  {
    assert ToLower("Chair") == "chair";
    assert OccursAt("chair", "ai", 2);
    ContainsWitness("chair", "ai", 2);
    assert Keywords(Saas)[0] == "ai";
  }

  /** The industry is echoed into the output. */
  lemma IndustryEchoed(ind: Industry, product: string)
    ensures GenerateIntelligence(ind, product).industry == Name(ind)
  {
  }

  /** fmcg gets the general-tech content under its own name. */
  lemma FmcgFallsBack(product: string)
    ensures var i := GenerateIntelligence(Fmcg, product);
      var g := GenerateIntelligence(GeneralTech, product);
      && i.industry == "fmcg"
      && i.keyOpportunities == g.keyOpportunities && i.keyRisks == g.keyRisks
      && i.competitorMessaging == g.competitorMessaging
      && i.recommendedPositioning == g.recommendedPositioning
      && i.suggestedMessagingAngles == g.suggestedMessagingAngles
  {
  }

  /** The summary names the industry right after "The " and the product right after
      " market for ". */
  lemma SummaryNamesIndustryAndProduct(industry: string, product: string, s: Strategy)
    ensures var sum := Summary(industry, product, s);
      var n := |industry|;
      && StartsWith(sum, "The ")
      && sum[4..4 + n] == industry
      && sum[4 + n..16 + n] == " market for "
      && sum[16 + n..16 + n + |product|] == product
  {
  }

  /** A string product always completes, and the output depends on the product alone. */
  lemma ExecuteOnStringProduct(input: map<string, Value>, other: map<string, Value>, now: string, logs: seq<string>)
    requires Product(input).Str?
    requires Get(other, "product") == Get(input, "product")
    ensures Execute(input, now, logs).status == Completed
    ensures Execute(input, now, logs).data["industry"] == Str(Name(DetectIndustry(Product(input).s)))
    ensures Execute(other, now, logs) == Execute(input, now, logs)
  {
  }

  /** A missing product is analysed as "Generic Product". */
  lemma MissingProductDefaults(input: map<string, Value>)
    requires !Truthy(Get(input, "product"))
    ensures Product(input) == Str("Generic Product")
  {
  }
}
