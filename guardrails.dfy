/** The guardrails agent: fails without a creative, otherwise passes or rejects the
    selected creative; whether it is unsafe is an input (the source draws it at random). */
module Guardrails {
  import opened Json
  import opened Graph

  const AgentName := "GuardrailsAgent"

  const Checks: seq<string> := ["Brand Safety Policy", "Regulatory Compliance (FTC)", "Tone & Voice Check", "Visual Integrity"]

  function Check(name: string): Value {
    Obj(map["name" := Str(name), "status" := Str("PASS")])
  }

  function ComplianceReport(now: string): Value {
    Obj(map["overall_score" := Num(98),
            "checks" := Arr([Check(Checks[0]), Check(Checks[1]), Check(Checks[2]), Check(Checks[3])]),
            "certified_at" := Str(now)])
  }

  function Execute(input: map<string, Value>, isUnsafe: bool, now: string, logs: seq<string>): AgentResult {
    var creative := Get(input, "selected_creative");
    if !Truthy(creative) then
      AgentResult(AgentName, Failed, map["passed" := Bool(false), "error" := Str("No creative provided for validation")], now, logs)
    else if isUnsafe then
      AgentResult(AgentName, Completed,
        map["passed" := Bool(false),
            "issues" := StrArr(["Tone mismatch", "Prohibited visual element detected"]),
            "failed_variant_id" := Field(creative, "id")], now, logs)
    else
      AgentResult(AgentName, Completed,
        map["passed" := Bool(true), "issues" := Arr([]), "selected_creative" := creative,
            "compliance_report" := ComplianceReport(now)], now, logs)
  }

  /** Without a selected creative the result is a failure that also says it did not pass. */
  lemma MissingCreativeFails(input: map<string, Value>, isUnsafe: bool, now: string, logs: seq<string>)
    requires !Truthy(Get(input, "selected_creative"))
    ensures var r := Execute(input, isUnsafe, now, logs);
      r.status == Failed && r.data["passed"] == Bool(false)
      && r.data["error"] == Str("No creative provided for validation")
  {
  }

  /** An unsafe creative is rejected: the result completes with two issues and names
      the creative's id as the failed variant. */
  lemma UnsafeCreativeRejected(input: map<string, Value>, now: string, logs: seq<string>)
    requires Truthy(Get(input, "selected_creative"))
    ensures var r := Execute(input, true, now, logs);
      r.status == Completed && r.data["passed"] == Bool(false)
      && r.data["issues"].Arr? && |r.data["issues"].items| == 2
      && r.data["failed_variant_id"] == Field(Get(input, "selected_creative"), "id")
      && "selected_creative" !in r.data
  {
  }

  /** A safe creative passes with no issues, is echoed back unchanged, and carries a
      report of score 98 with four passing checks. */
  lemma SafeCreativePasses(input: map<string, Value>, now: string, logs: seq<string>)
    requires Truthy(Get(input, "selected_creative"))
    ensures var r := Execute(input, false, now, logs);
      r.status == Completed && r.data["passed"] == Bool(true) && r.data["issues"] == Arr([])
      && r.data["selected_creative"] == Get(input, "selected_creative")
      && r.data["compliance_report"].Obj?
      && r.data["compliance_report"].fields["overall_score"] == Num(98)
      && r.data["compliance_report"].fields["checks"].Arr?
      && |r.data["compliance_report"].fields["checks"].items| == 4
      && (forall c :: c in r.data["compliance_report"].fields["checks"].items ==>
            c.Obj? && c.fields["status"] == Str("PASS"))
  {
  }

  /** `passed === false` holds exactly on the rejection branch and on the failure branch,
      and only the rejection branch completes. */
  lemma PassedFalseOnlyWhenRejectedOrMissing(input: map<string, Value>, isUnsafe: bool, now: string, logs: seq<string>)
    ensures var r := Execute(input, isUnsafe, now, logs);
      && "passed" in r.data
      && ((r.status == Completed && r.data["passed"] == Bool(false)) <==> (Truthy(Get(input, "selected_creative")) && isUnsafe))
      && (r.status == Failed <==> !Truthy(Get(input, "selected_creative")))
  {
  }
}
