/** The mock data service: canned competitors, trends, personas and creative templates
    per industry, with the industry held in one static field that every getter reads. */
module MockData {
  import opened Wrappers
  import opened Strings

  /** `'tech' | 'fashion' | 'finance' | 'health' | 'generic'`. */
  datatype Industry = Tech | Fashion | Finance | Health | Generic

  datatype Persona = Persona(name: string, traits: seq<string>)

  /** A persona as `getPersonas` returns it, with its random id. */
  datatype IdentifiedPersona = IdentifiedPersona(name: string, traits: seq<string>, id: string)

  datatype Template = Template(headline: string, body: string, visualDescription: string, rationale: string)

  datatype MockVariant = MockVariant(
    id: string, headline: string, body: string, cta: string, visualDescription: string,
    platform: string, rationale: string, imageUrl: string)

  // ---------------------------------------------------------------- the tables

  function CompetitorsOf(ind: Industry): seq<string> {
    match ind
    case Tech => ["Cyberdyne Systems", "Hooli", "Massive Dynamic"]
    case Fashion => ["Derelicte", "Mugatu", "Runway"]
    case Finance => ["Gekko & Co", "Duke & Duke", "Pierce & Pierce"]
    case Health => ["Umbrella Corp", "InGen", "Oscorp"]
    case Generic => ["Competitor A", "Competitor B", "Competitor C"]
  }

  function TrendsOf(ind: Industry): seq<string> {
    match ind
    case Tech => ["AI is rising", "Privacy concerns", "Cloud adoption"]
    case Fashion => ["Sustainability", "Retro revival", "Digital fashion"]
    case Finance => ["Crypto regulation", "Mobile banking", "ESG investing"]
    case Health => ["Telehealth", "Personalized medicine", "Wearables"]
    case Generic => ["Rising demand", "Cost efficiency", "Digital transformation"]
  }

  /** The persona table has entries for tech, fashion and generic only. */
  function PersonaEntry(ind: Industry): Option<seq<Persona>> {
    match ind
    case Tech => Some([Persona("DevOps Dave", ["Efficiency-focused", "Skeptical of hype"]),
                       Persona("CTO Sarah", ["Strategic", "Budget-conscious"])])
    case Fashion => Some([Persona("Trendsetter Tina", ["Visual-first", "Early adopter"]),
                          Persona("Eco-conscious Earl", ["Ethical sourcing", "Quality over quantity"])])
    case Generic => Some([Persona("Value Victor", ["Price sensitive"]), Persona("Quality Quinn", ["Performance focused"])])
    case _ => None
  }

  /** `data[this.industry] || data.generic`. */
  function PersonasOf(ind: Industry): seq<Persona> {
    var e := PersonaEntry(ind);
    if e.Some? then e.value else PersonaEntry(Generic).value
  }

  /** The five creative templates of an industry, for product `p` and audience `a`. */
  function TemplateOf(ind: Industry, i: nat, p: string, a: string): Template
    requires i < 5
  {
    match ind
    case Tech => TechTemplate(i, p, a)
    case Fashion => FashionTemplate(i, p, a)
    case Finance => FinanceTemplate(i, p, a)
    case Health => HealthTemplate(i, p, a)
    case Generic => GenericTemplate(i, p, a)
  }

  function TechTemplate(i: nat, p: string, a: string): Template
    requires i < 5
  {
    if i == 0 then Template("Build the Future with " + p + ".", "The ultimate tool for " + a + " who demand precision and performance.",
                            "Close-up macro shot of " + p + " showing intricate circuits or metallic details. " + "Dark blue background, calm mood, premium feel.",
                            "Feature-led: Emphasis on technical specs and build quality.")
    else if i == 1 then Template("Seamless Integration. Zero Friction.", p + " connects your workflow instantly. Stop fighting your tools.",
                                 "Split screen: Complex wireframe vs Clean UI of " + p + " on a floating screen.",
                                 "Problem-solution: Addressing integration pain points.")
    else if i == 2 then Template("Code Less. Create More.", "Unleash your potential with " + p + "'s automated intelligence.",
                                 "Developer typing on a holographic keyboard with " + p + " glow in background.",
                                 "Benefit-led: Focusing on productivity and creative output.")
    else if i == 3 then Template("Trusted by the Fortune 500.", "Join the elite teams deployment " + p + " at scale.",
                                 "Logo wall overlay on a server room background with " + p + " icon pulsing.",
                                 "Social Proof: Enterprise reliability and trust.")
    else Template("The New Standard in Tech.", "Don't get left behind. Upgrade to " + p + " today.",
                  "Futuristic city skyline with " + p + " projected on a skyscraper.",
                  "FOMO/Trend: Positioning as the industry standard.")
  }

  function FashionTemplate(i: nat, p: string, a: string): Template
    requires i < 5
  {
    if i == 0 then Template("Wear Your Story with " + p + ".", "For " + a + " who speak without saying a word.",
                            "Model wearing " + p + " in a sunlit urban street, confident pose.",
                            "Identity-led: Fashion as self-expression.")
    else if i == 1 then Template("Sustainable Luxury: " + p + ".", "Crafted with care, designed for forever.",
                                 "Close up of fabric texture of " + p + " with natural lighting and green leaf shadow.",
                                 "Values-led: Emphasis on sustainability and quality.")
    else if i == 2 then Template("The " + p + " Collection Drop.", "Limited edition. Exclusive access. Get it before it's gone.",
                                 "Silhouette of " + p + " with countdown timer and neon accents.",
                                 "Scarcity: Creating urgency for the drop.")
    else if i == 3 then Template("Seen on the Runway.", "The piece everyone is talking about. Make it yours.",
                                 "Paparazzi flash style photo of " + p + " being worn at a gala.",
                                 "Social Proof: High-status validation.")
    else Template("Effortless Style.", "Morning meetings to evening drinks. " + p + " does it all.",
                  "Day-to-night transition animation split of " + p + ".",
                  "Utility/Versatility: showcasing practical usage.")
  }

  function FinanceTemplate(i: nat, p: string, a: string): Template
    requires i < 5
  {
    if i == 0 then Template("Grow Wealth with " + p + ".", "Smart automated investing for " + a + ".",
                            "Rising graph curve overlaid on " + p + " interface.", "Benefit: Wealth generation.")
    else if i == 1 then Template("Secure Your Future.", "Bank-grade security meets user-friendly design in " + p + ".",
                                 "Shield icon morphing into " + p + " logo.", "Trust: Security focus.")
    else if i == 2 then Template("Market Mastery.", "Trade like a pro with real-time insights from " + p + ".",
                                 "Trader with multiple monitors showing green signals on " + p + ".", "Competence: Professional tools.")
    else if i == 3 then Template("Fees are History.", "Keep more of what you earn with " + p + ".",
                                 "Percent sign shattering into dust revealing " + p + ".", "Cost-saving: Direct value prop.")
    else Template("Join the 1%.", "Exclusive access to premium assets via " + p + ".",
                  "Gold card texture background with " + p + " embossed.", "Status: Exclusivity.")
  }

  function HealthTemplate(i: nat, p: string, a: string): Template
    requires i < 5
  {
    if i == 0 then Template("Vitality Reimagined: " + p + ".", "Your daily dose of wellness.",
                            "Fresh water splash or organic ingredients surrounding " + p + ".", "Wellness: Health focus.")
    else if i == 1 then Template("Doctor Recommended.", "The #1 choice for " + a + " seeking recovery.",
                                 "Stethoscope next to " + p + " on a clean white surface.", "Authority: Medical trust.")
    else if i == 2 then Template("Feel Better, Faster.", "Proven results in just 7 days with " + p + ".",
                                 "Time-lapse of recovery/improvement graph with " + p + ".", "Efficacy: Speed of results.")
    else if i == 3 then Template("Nature x Science.", "The best of both worlds in " + p + ".",
                                 "DNA helix intertwining with a leaf around " + p + ".", "Ingredients: Natural + Effective.")
    else Template("Your Health Partner.", "24/7 monitoring and support with " + p + ".",
                  "Smart watch interface showing heart rate synced to " + p + ".", "Support: Always on.")
  }

  function GenericTemplate(i: nat, p: string, a: string): Template
    requires i < 5
  {
    if i == 0 then Template("Experience " + p + ".", "The ultimate solution for " + a + " demanding quality.",
                            "Product hero shot of " + p + " on dark background.", "Generic Quality")
    else if i == 1 then Template("Why Settle? Choose " + p + ".", "Upgrade your experience today.",
                                 "Comparison checkmarks showing " + p + " winning.", "Comparison")
    else if i == 2 then Template(p + ": Validated by Experts.", "Join thousands of satisfied customers.",
                                 "5-star rating overlay on " + p + ".", "Social Proof")
    else if i == 3 then Template("The Future is " + p + ".", "Innovation at your fingertips.",
                                 "Glowing futuristic lines forming " + p + ".", "Innovation")
    else Template("Simplifying Life with " + p + ".", "More time for what matters.",
                  "Calm, organized lifestyle shot with " + p + ".", "Simplicity/Lifestyle")
  }

  // ---------------------------------------------------------------- stock images

  function Unsplash(photo: string): string {
    "https://images.unsplash.com/photo-" + photo + "?auto=format&fit=crop&w=1200&q=80"
  }

  // The keyword groups' images do not depend on the industry. They still take it as a
  // parameter so that a proof meets their URLs only where an image is looked up for
  // some industry, instead of every proof carrying the literals as ground facts.

  /** The five images of a footwear product. */
  function ShoeImages(u: Industry): (r: seq<string>)
    ensures |r| == 5
  {
    [Unsplash("1542291026-7eec264c27ff"), Unsplash("1606107557195-0e29a4b5b4aa"), Unsplash("1491553895911-0055eca6402d"),
     Unsplash("1595950653106-6c9ebd614d3a"), Unsplash("1543508282-6319a3e2621f")]
  }

  /** The four images of an audio product. */
  function AudioImages(u: Industry): (r: seq<string>)
    ensures |r| == 4
  {
    [Unsplash("1505740420928-5e560c06d30e"), Unsplash("1583394838336-acd977736f90"),
     Unsplash("1484704849700-f032a568e944"), Unsplash("1546435770-a3e426bf472b")]
  }

  /** The one image of a watch or time product. */
  function WatchImage(u: Industry): string {
    Unsplash("1523275335684-37898b6baf30")
  }

  /** The industry collections; every industry has one. */
  function ImageCollection(ind: Industry): (r: seq<string>)
    ensures |r| == 5
  {
    match ind
    case Tech => [Unsplash("1519389950473-47ba0277781c"), Unsplash("1550751827-4bd374c3f58b"), Unsplash("1518770660439-4636190af475"),
                  Unsplash("1581091226825-a6a2a5aee158"), Unsplash("1526374965328-7f61d4dc18c5")]
    case Fashion => [Unsplash("1483985988355-763728e1935b"), Unsplash("1529139574466-a302c2d56aee"), Unsplash("1515886657613-9f3515b0c78f"),
                     Unsplash("1539008835657-9e8e9680c956"), Unsplash("1490481651871-ab68de25d43d")]
    case Finance => [Unsplash("1590283603385-17ffb3a7f29f"), Unsplash("1565514020176-db792f0b65f7"), Unsplash("1554224155-9736b5cb7a55"),
                     Unsplash("1620714223084-8fcacc6dfd8d"), Unsplash("1579621970563-ebec7560ff3e")]
    case Health => [Unsplash("1505751172876-fa1923c5c528"), Unsplash("1544367563-12123d8965cd"), Unsplash("1571019614242-c5c5dee9f50b"),
                    Unsplash("1532938911079-1b06ac7ceec7"), Unsplash("1511688878353-3a2f5be94cd7")]
    case Generic => [Unsplash("1493612276216-9c78370631f3"), Unsplash("1505740420928-5e560c06d30e"), Unsplash("1523275335684-37898b6baf30"),
                     Unsplash("1542291026-7eec264c27ff"), Unsplash("1583394838336-acd977736f90")]
  }

  predicate IsShoe(lower: string) {
    Contains(lower, "shoe") || Contains(lower, "sneaker") || Contains(lower, "boot") || Contains(lower, "footwear")
  }

  predicate IsAudio(lower: string) {
    Contains(lower, "headphone") || Contains(lower, "audio") || Contains(lower, "sound") || Contains(lower, "ear")
  }

  predicate IsWatch(lower: string) {
    Contains(lower, "watch") || Contains(lower, "time")
  }

  /** `getRealStockImage`: product keywords first, in a fixed order, then the industry's
      collection; a list is indexed cyclically. */
  function StockImage(ind: Industry, variantIndex: nat, productName: string): string {
    var lower := ToLower(productName);
    if IsShoe(lower) then ShoeImages(ind)[variantIndex % 5]
    else if IsAudio(lower) then AudioImages(ind)[variantIndex % 4]
    else if IsWatch(lower) then WatchImage(ind)
    else ImageCollection(ind)[variantIndex % 5]
  }

  // ---------------------------------------------------------------- variants

  /** `product || "Product"`. */
  function ProductOr(product: string): string {
    if product == "" then "Product" else product
  }

  /** `audience || "Customers"`. */
  function AudienceOr(audience: string): string {
    if audience == "" then "Customers" else audience
  }

  function VariantAt(ind: Industry, i: nat, p: string, a: string, platform: string): MockVariant
    requires i < 5
  {
    var t := TemplateOf(ind, i, p, a);
    MockVariant(NatToString(i + 1), t.headline, t.body, "Learn More", t.visualDescription, platform, t.rationale,
                StockImage(ind, i, p))
  }

  /** `generateCreativeVariants(product, audience, platform)`. */
  function CreativeVariants(ind: Industry, product: string, audience: string, platform: string): seq<MockVariant> {
    var p := ProductOr(product);
    var a := AudienceOr(audience);
    seq(5, i requires 0 <= i < 5 => VariantAt(ind, i, p, a, platform))
  }

  // ---------------------------------------------------------------- the service

  /** The service's one piece of state: `private static industry`, initially generic. */
  class MockDataService {
    var industry: Industry

    constructor()
      ensures industry == Generic
    {
      industry := Generic;
    }

    /** Every later read sees the new industry. */
    method SetIndustry(ind: Industry)
      modifies this
      ensures industry == ind
      ensures Competitors() == CompetitorsOf(ind) && Trends() == TrendsOf(ind)
    {
      industry := ind;
    }

    function Competitors(): seq<string>
      reads this
    {
      CompetitorsOf(industry)
    }

    function Trends(): seq<string>
      reads this
    {
      TrendsOf(industry)
    }

    /** `getPersonas()`: the industry's personas, each given the next random id. */
    method GetPersonas(ids: seq<string>) returns (r: seq<IdentifiedPersona>)
      requires |ids| == |PersonasOf(industry)|
      ensures |r| == |ids|
      ensures forall i | 0 <= i < |r| ::
        r[i] == IdentifiedPersona(PersonasOf(industry)[i].name, PersonasOf(industry)[i].traits, ids[i])
    {
      var ps := PersonasOf(industry);
      r := [];
      var i := 0;
      while i < |ps|
        invariant 0 <= i <= |ps|
        invariant |r| == i
        invariant forall j | 0 <= j < i :: r[j] == IdentifiedPersona(ps[j].name, ps[j].traits, ids[j])
      {
        r := r + [IdentifiedPersona(ps[i].name, ps[i].traits, ids[i])];
        i := i + 1;
      }
    }

    method GenerateCreativeVariants(product: string, audience: string, platform: string) returns (r: seq<MockVariant>)
      ensures r == CreativeVariants(industry, product, audience, platform)
    {
      r := CreativeVariants(industry, product, audience, platform);
    }
  }

  // ---------------------------------------------------------------- properties

  /** Every industry has its own competitors and trends, three of each, so the generic
      fallback is never taken. */
  lemma CompetitorsAndTrendsPerIndustry(ind: Industry)
    ensures |CompetitorsOf(ind)| == 3 && |TrendsOf(ind)| == 3
    ensures ind != Generic ==> CompetitorsOf(ind) != CompetitorsOf(Generic) && TrendsOf(ind) != TrendsOf(Generic)
  {
    match ind
    case Tech => assert CompetitorsOf(Tech)[0] != CompetitorsOf(Generic)[0] && TrendsOf(Tech)[0] != TrendsOf(Generic)[0];
    case Fashion => assert CompetitorsOf(Fashion)[0] != CompetitorsOf(Generic)[0] && TrendsOf(Fashion)[0] != TrendsOf(Generic)[0];
    case Finance => assert CompetitorsOf(Finance)[0] != CompetitorsOf(Generic)[0] && TrendsOf(Finance)[0] != TrendsOf(Generic)[0];
    case Health => assert CompetitorsOf(Health)[0] != CompetitorsOf(Generic)[0] && TrendsOf(Health)[0] != TrendsOf(Generic)[0];
    case Generic =>
  }

  /** Finance and health have no persona entry and get the generic personas; the others
      get their own. Every industry has two personas. */
  lemma PersonasFallback(ind: Industry)
    ensures PersonasOf(ind) == if ind == Finance || ind == Health then PersonasOf(Generic) else PersonaEntry(ind).value
    ensures |PersonasOf(ind)| == 2
  {
  }

  /** Five variants, numbered "1".."5" in template order, with the fixed call to action,
      the given platform, the template's texts and the stock image for the defaulted product. */
  lemma CreativeVariantsShape(ind: Industry, product: string, audience: string, platform: string)
    ensures var r := CreativeVariants(ind, product, audience, platform);
      && |r| == 5
      && (forall i | 0 <= i < 5 ::
            && r[i].id == NatToString(i + 1) && r[i].cta == "Learn More" && r[i].platform == platform
            && r[i].headline == TemplateOf(ind, i, ProductOr(product), AudienceOr(audience)).headline
            && r[i].imageUrl == StockImage(ind, i, ProductOr(product)))
  {
    var r := CreativeVariants(ind, product, audience, platform);
    forall i | 0 <= i < 5
      ensures && r[i].id == NatToString(i + 1) && r[i].cta == "Learn More" && r[i].platform == platform
              && r[i].headline == TemplateOf(ind, i, ProductOr(product), AudienceOr(audience)).headline
              && r[i].imageUrl == StockImage(ind, i, ProductOr(product))
    {
      VariantAtFields(ind, i, ProductOr(product), AudienceOr(audience), platform);
    }
  }

  /** The ids are "1" to "5". */
  lemma CreativeVariantIds(ind: Industry, product: string, audience: string, platform: string)
    ensures var r := CreativeVariants(ind, product, audience, platform);
      |r| == 5 && r[0].id == "1" && r[1].id == "2" && r[2].id == "3" && r[3].id == "4" && r[4].id == "5"
  {
    CreativeVariantsShape(ind, product, audience, platform);
    Numerals();
  }

  lemma VariantAtFields(ind: Industry, i: nat, p: string, a: string, platform: string)
    requires i < 5
    ensures var v := VariantAt(ind, i, p, a, platform);
      && v.id == NatToString(i + 1) && v.cta == "Learn More" && v.platform == platform
      && v.headline == TemplateOf(ind, i, p, a).headline && v.imageUrl == StockImage(ind, i, p)
  {
  }

  lemma Numerals()
    ensures NatToString(1) == "1" && NatToString(2) == "2" && NatToString(3) == "3"
    ensures NatToString(4) == "4" && NatToString(5) == "5"
  {
  }

  /** An empty product or audience is replaced by 'Product' or 'Customers'. */
  lemma EmptyDefaults(ind: Industry, audience: string, platform: string)
    ensures CreativeVariants(ind, "", audience, platform) == CreativeVariants(ind, "Product", audience, platform)
    ensures CreativeVariants(ind, "Product", "", platform) == CreativeVariants(ind, "Product", "Customers", platform)
  {
  }

  /** The keyword groups are tried in order, and the pick is always one of the group's
      images: a shoe keyword wins over an audio one, and so on down to the industry. */
  lemma StockImagePrecedence(ind: Industry, variantIndex: nat, productName: string)
    ensures var lower := ToLower(productName);
      var r := StockImage(ind, variantIndex, productName);
      && (IsShoe(lower) ==> r in ShoeImages(ind))
      && (!IsShoe(lower) && IsAudio(lower) ==> r in AudioImages(ind))
      && (!IsShoe(lower) && !IsAudio(lower) && IsWatch(lower) ==> r == WatchImage(ind))
      && (!IsShoe(lower) && !IsAudio(lower) && !IsWatch(lower) ==> r in ImageCollection(ind))
  {
  }

  /** The pick is cyclic in the variant index. */
  lemma StockImageCyclic(ind: Industry, variantIndex: nat, productName: string)
    ensures StockImage(ind, variantIndex + 20, productName) == StockImage(ind, variantIndex, productName)
  {
    assert (variantIndex + 20) % 5 == variantIndex % 5;
    assert (variantIndex + 20) % 4 == variantIndex % 4;
  }
}
