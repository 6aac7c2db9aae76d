/** The database service: the rows it writes for campaigns, guidelines, agent outputs and
    creative variants, the campaign-goal enum mapping it enforces before inserting, the
    fold of stored agent outputs, and its single shared instance. Every call into the
    database client is an oracle: the model is given what the client answered. */
module Supabase {
  import opened Wrappers
  import opened Json
  import Strings

  // ---------------------------------------------------------------- the goal enum

  /** The database's `campaign_goal` enum. */
  datatype DbGoal = DbAwareness | DbConversion | DbRetention | DbOther

  function DbGoalName(g: DbGoal): string {
    match g
    case DbAwareness => "Awareness"
    case DbConversion => "Conversion"
    case DbRetention => "Retention"
    case DbOther => "Other"
  }

  /** The own entries of `GOAL_MAP`, keyed by the lowercased, trimmed goal. */
  function GoalMap(raw: string): Option<DbGoal> {
    if raw == "awareness" || raw == "brand awareness" then Some(DbAwareness)
    else if raw == "conversion" || raw == "sales" || raw == "conversions" || raw == "drive conversions" then Some(DbConversion)
    else if raw == "retention" || raw == "customer retention" || raw == "loyalty" then Some(DbRetention)
    else if raw == "other" then Some(DbOther)
    else None
  }

  /** `(input.goal || 'Awareness').toLowerCase().trim()`: a truthy goal that is not a
      string has no `toLowerCase` and throws. */
  function RawGoal(input: map<string, Value>): Result<string> {
    var g := Or(Get(input, "goal"), Str("Awareness"));
    if g.Str? then Ok(Strings.Trim(Strings.ToLower(g.s)))
    else Err("(input.goal || \"Awareness\").toLowerCase is not a function")
  }

  function InvalidGoalMessage(input: map<string, Value>): string {
    "Invalid Campaign Goal: \"" + ToJsString(Get(input, "goal")) + "\". Supported: Awareness, Conversion, Retention."
  }

  /** The goal stored for an input, or the error thrown before anything is inserted. */
  function MappedGoal(input: map<string, Value>): Result<DbGoal> {
    match RawGoal(input)
    case Err(e) => Err(e)
    case Ok(raw) =>
      match GoalMap(raw)
      case None => Err(InvalidGoalMessage(input))
      case Some(g) => Ok(g)
  }

  // ---------------------------------------------------------------- rows

  datatype CampaignRow = CampaignRow(userId: string, product: Value, targetAudience: Value, campaignGoal: string, status: string)

  datatype GuidelineRow = GuidelineRow(campaignId: string, fileName: string, storagePath: string, extractedText: string, fileType: string)

  datatype AgentOutputRow = AgentOutputRow(campaignId: string, agentName: string, outputJson: Value)

  /** A `creative_variants` row; the temperature 0.7 is kept in tenths. */
  datatype CreativeVariantRow = CreativeVariantRow(campaignId: string, strategyName: Value, targetPersona: Value, promptText: string, temperatureTenths: int)

  /** How an async call settled. */
  datatype Completion<T> = Returned(value: T) | Threw(message: string)

  /** A call that may insert one row: the row handed to the client, if any, how the call
      settled, and the line it wrote to the error console, if any. */
  datatype Call<R, T> = Call(inserted: Option<R>, completion: Completion<T>, consoleError: Option<string>)

  // ---------------------------------------------------------------- campaigns

  function CampaignPayload(userId: string, input: map<string, Value>, goal: DbGoal): CampaignRow {
    CampaignRow(userId, Get(input, "product"), Or(Get(input, "audience"), Str("General")), DbGoalName(goal), "Planning")
  }

  /** `createCampaign(userId, input)`. `db` is what the insert returned: the new row's id or
      the client's error message. */
  function CreateCampaign(userId: string, input: map<string, Value>, db: Result<string>): (r: Call<CampaignRow, string>)
    ensures r.consoleError.None?
    ensures MappedGoal(input).Err? <==> r.inserted.None?
    ensures r.inserted.None? ==> r.completion == Threw(MappedGoal(input).error)
  {
    match MappedGoal(input)
    case Err(e) => Call(None, Threw(e), None)
    case Ok(g) =>
      var row := CampaignPayload(userId, input, g);
      match db
      case Err(m) => Call(Some(row), Threw("DB Error: " + m), None)
      case Ok(id) => Call(Some(row), Returned(id), None)
  }

  /** The goal table, entry by entry: exactly ten strings map, onto the four enum values. */
  lemma GoalMapExact(raw: string)
    ensures GoalMap(raw) == Some(DbAwareness) <==> raw in {"awareness", "brand awareness"}
    ensures GoalMap(raw) == Some(DbConversion) <==> raw in {"conversion", "sales", "conversions", "drive conversions"}
    ensures GoalMap(raw) == Some(DbRetention) <==> raw in {"retention", "customer retention", "loyalty"}
    ensures GoalMap(raw) == Some(DbOther) <==> raw == "other"
  {
  }

  /** A string goal is looked up after lowercasing and trimming, so case and surrounding
      white space do not matter; a missing or empty goal is 'Awareness'. */
  lemma GoalIsCaseAndSpaceInsensitive(input: map<string, Value>, s: string)
    requires Get(input, "goal") == Str(s) && s != ""
    ensures RawGoal(input) == Ok(Strings.Trim(Strings.ToLower(s)))
    ensures MappedGoal(input).Ok? <==> GoalMap(Strings.Trim(Strings.ToLower(s))).Some?
  {
  }

  lemma MissingGoalIsAwareness(input: map<string, Value>)
    requires !Truthy(Get(input, "goal"))
    ensures MappedGoal(input) == Ok(DbAwareness)
  {
    AwarenessKey();
  }

  lemma AwarenessKey()
    ensures Strings.Trim(Strings.ToLower("Awareness")) == "awareness"
  {
    assert Strings.ToLower("Awareness") == "awareness";
    Strings.TrimUnchanged("awareness");
  }

  /** An accepted campaign is inserted with the mapped enum name, the audience or
      'General', and status 'Planning'; the call returns the id the database assigned, or
      throws the database's message with a 'DB Error: ' prefix. */
  lemma CreateCampaignInserts(userId: string, input: map<string, Value>, db: Result<string>)
    requires MappedGoal(input).Ok?
    ensures var r := CreateCampaign(userId, input, db);
      var row := r.inserted.value;
      && r.inserted.Some?
      && row.userId == userId && row.product == Get(input, "product")
      && row.campaignGoal in {"Awareness", "Conversion", "Retention", "Other"}
      && row.campaignGoal == DbGoalName(MappedGoal(input).value)
      && row.targetAudience == (if Truthy(Get(input, "audience")) then Get(input, "audience") else Str("General"))
      && row.status == "Planning"
      && (db.Ok? ==> r.completion == Returned(db.value))
      && (db.Err? ==> r.completion == Threw("DB Error: " + db.error))
  {
  }

  /** An unmapped goal throws the invalid-goal message and inserts nothing, whatever the
      database would have said. */
  lemma UnmappedGoalInsertsNothing(userId: string, input: map<string, Value>, db: Result<string>)
    requires RawGoal(input).Ok? && GoalMap(RawGoal(input).value).None?
    ensures CreateCampaign(userId, input, db) == Call(None, Threw(InvalidGoalMessage(input)), None)
  {
  }

  /** 'Engagement', which the planning agent accepts, is not a database goal. */
  lemma EngagementRejected(userId: string, input: map<string, Value>, db: Result<string>)
    requires Get(input, "goal") == Str("Engagement")
    ensures CreateCampaign(userId, input, db).inserted.None?
    ensures CreateCampaign(userId, input, db).completion == Threw(InvalidGoalMessage(input))
  {
    EngagementKey();
    assert RawGoal(input) == Ok("engagement");
    UnmappedGoalInsertsNothing(userId, input, db);
  }

  lemma EngagementKey()
    ensures Strings.Trim(Strings.ToLower("Engagement")) == "engagement"
  {
    assert Strings.ToLower("Engagement") == "engagement";
    Strings.TrimUnchanged("engagement");
  }

  // ---------------------------------------------------------------- the goal lookup as written

  /** What `GOAL_MAP[rawGoal]` finds on a plain object: an own entry, a member every
      object inherits, or nothing. After lowercasing, the inherited members a goal can
      name are `constructor` and `__proto__`, both truthy. */
  datatype GoalLookup = OwnEntry(goal: DbGoal) | Inherited(member: string) | NoEntry

  function GoalLookupAsWritten(raw: string): GoalLookup {
    match GoalMap(raw)
    case Some(g) => OwnEntry(g)
    case None => if raw == "constructor" || raw == "__proto__" then Inherited(raw) else NoEntry
  }

  /** As written, the `!mappedGoal` guard lets a goal of 'Constructor' through to the
      insert, with a function where the enum name belongs. */
  lemma InheritedGoalPassesGuard()
    ensures GoalLookupAsWritten(Strings.Trim(Strings.ToLower("Constructor"))) == Inherited("constructor")
    ensures GoalMap(Strings.Trim(Strings.ToLower("Constructor"))).None?
  {
    ConstructorKey();
  }

  lemma ConstructorKey()
    ensures Strings.Trim(Strings.ToLower("Constructor")) == "constructor"
  {
    assert Strings.ToLower("Constructor") == "constructor";
    Strings.TrimUnchanged("constructor");
  }

  /** The own-entry lookup the model uses agrees with the object lookup on every own key
      and finds nothing for an inherited member. */
  lemma GoalLookupCorrected(raw: string)
    ensures GoalMap(raw).Some? <==> GoalLookupAsWritten(raw).OwnEntry?
    ensures GoalMap(raw).Some? ==> GoalLookupAsWritten(raw) == OwnEntry(GoalMap(raw).value)
    ensures GoalLookupAsWritten(raw).Inherited? ==> GoalMap(raw).None?
  {
  }

  /** With the own-entry lookup a goal of 'Constructor' throws before any insert. */
  lemma ConstructorGoalRejected(userId: string, input: map<string, Value>, db: Result<string>)
    requires Get(input, "goal") == Str("Constructor")
    ensures CreateCampaign(userId, input, db) == Call(None, Threw(InvalidGoalMessage(input)), None)
  {
    ConstructorKey();
    assert RawGoal(input) == Ok("constructor");
    UnmappedGoalInsertsNothing(userId, input, db);
  }

  // ---------------------------------------------------------------- guidelines

  function GuidelineRowFor(campaignId: string, text: string, fileName: string): GuidelineRow {
    GuidelineRow(campaignId, fileName, "brand-assets/" + campaignId + "/" + fileName, text,
                 if Strings.EndsWith(fileName, ".pdf") then "application/pdf" else "text/plain")
  }

  /** `saveGuideline(campaignId, text, fileName)`. `dbError` is the insert's error, if any,
      which is rethrown. */
  function SaveGuideline(campaignId: string, text: string, fileName: string, dbError: Option<string>): (r: Call<GuidelineRow, ()>)
    ensures r.inserted == Some(GuidelineRowFor(campaignId, text, fileName))
    ensures r.completion.Returned? <==> dbError.None?
    ensures dbError.Some? ==> r.completion == Threw("DB Error: " + dbError.value)
  {
    match dbError
    case Some(m) => Call(Some(GuidelineRowFor(campaignId, text, fileName)), Threw("DB Error: " + m), None)
    case None => Call(Some(GuidelineRowFor(campaignId, text, fileName)), Returned(()), None)
  }

  /** The storage path is the campaign's folder under 'brand-assets' followed by the file
      name, so both can be read back from it; the file is a PDF exactly when its name ends
      in '.pdf', and plain text otherwise. */
  lemma GuidelinePathAndType(campaignId: string, text: string, fileName: string)
    ensures var row := GuidelineRowFor(campaignId, text, fileName);
      var p := row.storagePath;
      && Strings.StartsWith(p, "brand-assets/" + campaignId + "/")
      && Strings.EndsWith(p, "/" + fileName)
      && p[|"brand-assets/"|..|p| - |fileName| - 1] == campaignId
      && (row.fileType == "application/pdf" <==> Strings.EndsWith(fileName, ".pdf"))
      && (row.fileType != "application/pdf" ==> row.fileType == "text/plain")
      && row.extractedText == text && row.fileName == fileName && row.campaignId == campaignId
  {
    var p := GuidelineRowFor(campaignId, text, fileName).storagePath;
    assert p == "brand-assets/" + (campaignId + "/" + fileName);
    assert p == ("brand-assets/" + campaignId) + ("/" + fileName);
  }

  // ---------------------------------------------------------------- agent outputs and variants

  /** `saveAgentOutput(campaignId, agentName, json)`: a failed insert is written to the
      console and the call still returns. */
  function SaveAgentOutput(campaignId: string, agentName: string, json: Value, dbError: Option<string>): (r: Call<AgentOutputRow, ()>)
    ensures r.completion == Returned(())
    ensures r.inserted == Some(AgentOutputRow(campaignId, agentName, json))
    ensures r.consoleError.Some? <==> dbError.Some?
  {
    Call(Some(AgentOutputRow(campaignId, agentName, json)), Returned(()),
         if dbError.Some? then Some("Failed to log agent output to DB") else None)
  }

  /** `saveCreativeVariant(campaignId, variant)`. `serialized` is what `JSON.stringify`
      makes of the variant. Building the row reads `variant.headline` first, so a null or
      undefined variant throws before anything is inserted. */
  function SaveCreativeVariant(campaignId: string, variant: Value, serialized: string, dbError: Option<string>): (r: Call<CreativeVariantRow, ()>)
    ensures Nullish(variant) ==> r == Call(None, Threw(ReadError(variant, "headline")), None)
    ensures !Nullish(variant) ==> r.completion == Returned(())
    ensures !Nullish(variant) ==> (r.consoleError.Some? <==> dbError.Some?)
    ensures !Nullish(variant) ==>
      r.inserted.Some? && r.inserted.value.promptText == serialized && r.inserted.value.temperatureTenths == 7
  {
    if Nullish(variant) then Call(None, Threw(ReadError(variant, "headline")), None)
    else
      var fields := if variant.Obj? then variant.fields else map[];
      var row := CreativeVariantRow(campaignId, Get(fields, "headline"), Or(Get(fields, "target_persona"), Str("Primary")), serialized, 7);
      Call(Some(row), Returned(()), if dbError.Some? then Some("Failed to save creative variant") else None)
  }

  /** The variant row is named after the headline and aimed at the variant's persona, or
      at 'Primary' when it names none. */
  lemma CreativeVariantRowFields(campaignId: string, fields: map<string, Value>, serialized: string, dbError: Option<string>)
    ensures var row := SaveCreativeVariant(campaignId, Obj(fields), serialized, dbError).inserted.value;
      && row.campaignId == campaignId && row.strategyName == Get(fields, "headline")
      && (Truthy(Get(fields, "target_persona")) ==> row.targetPersona == fields["target_persona"])
      && (!Truthy(Get(fields, "target_persona")) ==> row.targetPersona == Str("Primary"))
  {
  }

  /** A row of `agent_outputs` as it is read back. */
  datatype StoredOutput = StoredOutput(agentName: string, outputJson: Value)

  /** The record the rows fold into: each agent's entry is the output of its last row. */
  function Outputs(rows: seq<StoredOutput>): map<string, Value> {
    if rows == [] then map[]
    else Outputs(rows[..|rows| - 1])[rows[|rows| - 1].agentName := rows[|rows| - 1].outputJson]
  }

  /** `getAgentOutputs(campaignId)`. `rows` is what the select returned, or `None` when it
      returned an error, which is written to the console and answered with `{}`. */
  method GetAgentOutputs(rows: Option<seq<StoredOutput>>) returns (outputs: map<string, Value>)
    ensures rows.None? ==> outputs == map[]
    ensures rows.Some? ==> outputs == Outputs(rows.value)
  {
    outputs := map[];
    if rows.None? {
      return;
    }
    var data := rows.value;
    var i := 0;
    while i < |data|
      invariant 0 <= i <= |data|
      invariant outputs == Outputs(data[..i])
    {
      assert data[..i + 1][..i] == data[..i];
      outputs := outputs[data[i].agentName := data[i].outputJson];
      i := i + 1;
    }
    assert data[..i] == data;
  }

  /** The folded record has one entry per agent named in the rows, and that entry is the
      output of the last row naming the agent: later rows overwrite earlier ones. */
  lemma {:induction false} OutputsLastWins(rows: seq<StoredOutput>, k: string)
    ensures k in Outputs(rows) <==> exists j | 0 <= j < |rows| :: rows[j].agentName == k
    ensures k in Outputs(rows) ==>
      exists j | 0 <= j < |rows| ::
        && rows[j].agentName == k && Outputs(rows)[k] == rows[j].outputJson
        && forall j' | j < j' < |rows| :: rows[j'].agentName != k
  {
    if rows != [] {
      var init := rows[..|rows| - 1];
      var last := |rows| - 1;
      OutputsLastWins(init, k);
      assert forall j | 0 <= j < |init| :: init[j] == rows[j];
      if rows[last].agentName == k {
        assert rows[last].agentName == k && Outputs(rows)[k] == rows[last].outputJson;
      } else if k in Outputs(init) {
        var j :| 0 <= j < |init| && init[j].agentName == k && Outputs(init)[k] == init[j].outputJson
                 && forall j' | j < j' < |init| :: init[j'].agentName != k;
        assert rows[j].agentName == k && Outputs(rows)[k] == rows[j].outputJson;
      }
    }
  }

  /** The fold does not depend on the order of rows for different agents: only each
      agent's last row counts. */
  lemma {:induction false} OutputsSwapDistinct(a: seq<StoredOutput>, x: StoredOutput, y: StoredOutput, b: seq<StoredOutput>)
    requires x.agentName != y.agentName
    ensures Outputs(a + [x, y] + b) == Outputs(a + [y, x] + b)
  {
    if b == [] {
      assert (a + [x, y] + b)[..|a + [x, y] + b| - 1] == a + [x];
      assert (a + [y, x] + b)[..|a + [y, x] + b| - 1] == a + [y];
      assert (a + [x]) [..|a + [x]| - 1] == a;
      assert (a + [y]) [..|a + [y]| - 1] == a;
    } else {
      var init := b[..|b| - 1];
      OutputsSwapDistinct(a, x, y, init);
      assert (a + [x, y] + b)[..|a + [x, y] + b| - 1] == a + [x, y] + init;
      assert (a + [y, x] + b)[..|a + [y, x] + b| - 1] == a + [y, x] + init;
    }
  }

  // ---------------------------------------------------------------- the shared instance

  class Service {
    constructor() { }
  }

  /** The class-level slot `getInstance` fills on its first call. */
  class Registry {
    var instance: Option<Service>

    constructor()
      ensures instance.None?
    {
      instance := None;
    }

    /** `getInstance()`: creates the service on the first call and returns the stored one
        on every call after it. */
    method GetInstance() returns (s: Service)
      modifies this
      ensures instance == Some(s)
      ensures old(instance).Some? ==> s == old(instance).value
      ensures old(instance).None? ==> fresh(s)
    {
      if instance.None? {
        var created := new Service();
        instance := Some(created);
      }
      s := instance.value;
    }

    /** Any two calls return the same service. */
    method GetInstanceTwice() returns (a: Service, b: Service)
      modifies this
      ensures a == b && instance == Some(a)
    {
      a := GetInstance();
      b := GetInstance();
    }
  }
}
