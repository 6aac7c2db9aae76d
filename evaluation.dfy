/** The three evaluation agents (CTR, memorability, brand alignment): each draws one
    random score per variant and returns the scores keyed by variant id. `Math.random`
    is the input `draw`, its k-th call returning `draw(k)`. */
module Evaluation {
  import opened Wrappers
  import opened Json
  import opened Graph
  import opened Strings
  import opened BaseAgent

  /** `randomScore(min, max)` for a draw `r` of `Math.random()`. */
  function RandomScore(min: int, max: int, r: real): int {
    (r * (max - min + 1) as real).Floor + min
  }

  /** For `min <= max` and a draw in [0, 1), the score is an integer in [min, max]. */
  lemma RandomScoreInRange(min: int, max: int, r: real)
    requires min <= max && 0.0 <= r < 1.0
    ensures min <= RandomScore(min, max, r) <= max
  {
    var n := (max - min + 1) as real;
    assert 0.0 <= r * n;
    assert r * n < n by {
      assert n - r * n == (1.0 - r) * n;
    }
  }

  /** The three agents differ only in these constants. */
  datatype Metric = Ctr | Memorability | BrandAlignment {
    function Name(): string {
      match this
      case Ctr => "CTRAgent"
      case Memorability => "MemorabilityAgent"
      case BrandAlignment => "BrandAlignmentAgent"
    }
    function OutputKey(): string {
      match this
      case Ctr => "ctr_scores"
      case Memorability => "mem_scores"
      case BrandAlignment => "brand_scores"
    }
    function Min(): int {
      match this
      case Ctr => 75
      case Memorability => 70
      case BrandAlignment => 85
    }
    function Max(): int {
      match this
      case Ctr => 98
      case Memorability => 95
      case BrandAlignment => 99
    }
    function Opening(): string {
      match this
      case Ctr => "Predicting CTR for generated variants..."
      case Memorability => "Predicting Memorability..."
      case BrandAlignment => "Checking Brand Alignment..."
    }
    function Label(): string {
      match this
      case Ctr => "CTR"
      case Memorability => "Memorability"
      case BrandAlignment => "Brand Alignment"
    }
  }

  /** `input.variants || []`. */
  function Variants(input: map<string, Value>): Value {
    Or(Get(input, "variants"), Arr([]))
  }

  /** The record key `scores[v.id]` writes to. */
  function ScoreKey(v: Value): string {
    ToJsString(Field(v, "id"))
  }

  /** The score map after the `forEach` callback has run on `items`: one draw per item,
      a later item overwriting an earlier one with the same id, and a throw on the first
      absent item. */
  function Scores(m: Metric, items: seq<Value>, draw: nat -> real): Result<map<string, Value>> {
    if items == [] then Ok(map[])
    else
      var n := |items| - 1;
      match Scores(m, items[..n], draw)
      case Err(e) => Err(e)
      case Ok(s) =>
        if Nullish(items[n]) then Err(ReadError(items[n], "id"))
        else Ok(s[ScoreKey(items[n]) := Num(RandomScore(m.Min(), m.Max(), draw(n)))])
  }

  /** What `execute` settles with: a completed result, or the rejection `forEach` on a
      non-array or `v.id` on an absent variant causes. */
  function Evaluate(m: Metric, input: map<string, Value>, draw: nat -> real, now: string, logs: seq<string>): Outcome {
    var variants := Variants(input);
    if !variants.Arr? then Threw("variants.forEach is not a function")
    else
      match Scores(m, variants.items, draw)
      case Err(e) => Threw(e)
      case Ok(s) => Returned(AgentResult(m.Name(), Completed, map[m.OutputKey() := Obj(s)], now, logs))
  }

  function Tally(m: Metric, count: nat): string {
    "Scored " + NatToString(count) + " variants for " + m.Label() + "."
  }

  /** The log lines `execute` adds: the opening line, and the tally when scoring ends. */
  function Messages(m: Metric, input: map<string, Value>, draw: nat -> real): seq<string> {
    var variants := Variants(input);
    if variants.Arr? && Scores(m, variants.items, draw).Ok? then
      [m.Opening(), Tally(m, |variants.items|)]
    else [m.Opening()]
  }

  /** A throw part-way stays the outcome of every longer prefix. */
  lemma {:induction false} ScoresErrPersists(m: Metric, items: seq<Value>, j: nat, draw: nat -> real)
    requires j <= |items| && Scores(m, items[..j], draw).Err?
    ensures Scores(m, items, draw) == Scores(m, items[..j], draw)
    decreases |items| - j
  {
    if j < |items| {
      var n := |items| - 1;
      assert items[..n][..j] == items[..j];
      ScoresErrPersists(m, items[..n], j, draw);
      assert items[..n] == items[..|items| - 1];
    } else {
      assert items[..j] == items;
    }
  }

  /** The `forEach` loop: scores each variant in order with the next draw, and stops at
      the first absent one. */
  method ScoreEach(m: Metric, items: seq<Value>, draw: nat -> real) returns (res: Result<map<string, Value>>)
    ensures res == Scores(m, items, draw)
  {
    var scores: map<string, Value> := map[];
    var i := 0;
    while i < |items|
      invariant 0 <= i <= |items|
      invariant Scores(m, items[..i], draw) == Ok(scores)
    {
      var v := items[i];
      assert items[..i + 1][..i] == items[..i];
      if Nullish(v) {
        ScoresErrPersists(m, items, i + 1, draw);
        return Err(ReadError(v, "id"));
      }
      scores := scores[ScoreKey(v) := Num(RandomScore(m.Min(), m.Max(), draw(i)))];
      i := i + 1;
    }
    assert items[..i] == items;
    return Ok(scores);
  }

  /** `execute`: logs, scores, logs the tally and returns the scores under the agent's key. */
  method Execute(m: Metric, agent: Agent, input: map<string, Value>, draw: nat -> real, now: string) returns (r: Outcome)
    requires agent.name == m.Name()
    modifies agent
    ensures r == Evaluate(m, input, draw, now, agent.logs)
    ensures agent.logs == old(agent.logs) + Entries(agent.name, now, Messages(m, input, draw))
  {
    agent.SetStatus(Running);
    agent.Log(m.Opening(), now);
    var variants := Variants(input);
    if !variants.Arr? {
      return Threw("variants.forEach is not a function");
    }
    var scores := ScoreEach(m, variants.items, draw);
    if scores.Err? {
      return Threw(scores.error);
    }
    agent.Log(Tally(m, |variants.items|), now);
    r := Returned(AgentResult(agent.name, Completed, map[m.OutputKey() := Obj(scores.value)], now, agent.logs));
  }

  // ---------------------------------------------------------------- properties

  lemma {:induction false} ScoresOkExactly(m: Metric, items: seq<Value>, draw: nat -> real)
    ensures Scores(m, items, draw).Ok? <==> forall i :: 0 <= i < |items| ==> !Nullish(items[i])
  {
    if items != [] {
      var n := |items| - 1;
      ScoresOkExactly(m, items[..n], draw);
      assert forall i :: 0 <= i < n ==> items[..n][i] == items[i];
    }
  }

  lemma {:induction false} ScoresKeys(m: Metric, items: seq<Value>, draw: nat -> real)
    requires Scores(m, items, draw).Ok?
    ensures Scores(m, items, draw).value.Keys == set i | 0 <= i < |items| :: ScoreKey(items[i])
  {
    if items != [] {
      var n := |items| - 1;
      var p := items[..n];
      assert Scores(m, p, draw).Ok?;
      ScoresKeys(m, p, draw);
      var key := ScoreKey(items[n]);
      assert Scores(m, items, draw).value.Keys == Scores(m, p, draw).value.Keys + {key};
      assert forall i :: 0 <= i < n ==> p[i] == items[i];
      assert (set i | 0 <= i < |items| :: ScoreKey(items[i]))
          == (set i | 0 <= i < n :: ScoreKey(p[i])) + {key};
    }
  }

  /** Scoring succeeds exactly when every variant is present, and then the keys are
      exactly the variants' ids. */
  lemma ScoreKeysAreIds(m: Metric, items: seq<Value>, draw: nat -> real)
    ensures Scores(m, items, draw).Ok? <==> forall i :: 0 <= i < |items| ==> !Nullish(items[i])
    ensures Scores(m, items, draw).Ok? ==>
      Scores(m, items, draw).value.Keys == set i | 0 <= i < |items| :: ScoreKey(items[i])
  {
    ScoresOkExactly(m, items, draw);
    if Scores(m, items, draw).Ok? {
      ScoresKeys(m, items, draw);
    }
  }

  /** The score stored under an id is the draw of the last variant carrying that id. */
  lemma {:induction false} LastWriteWins(m: Metric, items: seq<Value>, draw: nat -> real, j: nat)
    requires j < |items| && Scores(m, items, draw).Ok?
    requires forall k :: j < k < |items| ==> ScoreKey(items[k]) != ScoreKey(items[j])
    ensures ScoreKey(items[j]) in Scores(m, items, draw).value
    ensures Scores(m, items, draw).value[ScoreKey(items[j])] == Num(RandomScore(m.Min(), m.Max(), draw(j)))
  {
    var n := |items| - 1;
    if j < n {
      assert forall k :: j < k < n ==> items[..n][k] == items[k];
      LastWriteWins(m, items[..n], draw, j);
    }
  }

  /** Every stored score lies in the agent's range. */
  lemma {:induction false} ScoresInRange(m: Metric, items: seq<Value>, draw: nat -> real)
    requires forall k: nat :: 0.0 <= draw(k) < 1.0
    requires Scores(m, items, draw).Ok?
    ensures forall key :: key in Scores(m, items, draw).value ==>
      var s := Scores(m, items, draw).value[key]; s.Num? && m.Min() <= s.n <= m.Max()
  {
    if items != [] {
      var n := |items| - 1;
      ScoresInRange(m, items[..n], draw);
      RandomScoreInRange(m.Min(), m.Max(), draw(n));
    }
  }

  /** Without a `variants` entry the agent completes with an empty score map. */
  lemma AbsentVariantsGiveEmptyMap(m: Metric, input: map<string, Value>, draw: nat -> real, now: string, logs: seq<string>)
    requires !Truthy(Get(input, "variants"))
    ensures Evaluate(m, input, draw, now, logs) == Returned(AgentResult(m.Name(), Completed, map[m.OutputKey() := Obj(map[])], now, logs))
  {
  }

  /** On an array of present variants the agent always completes, under its own key. */
  lemma AlwaysCompletes(m: Metric, input: map<string, Value>, draw: nat -> real, now: string, logs: seq<string>)
    requires Variants(input).Arr?
    requires forall i :: 0 <= i < |Variants(input).items| ==> !Nullish(Variants(input).items[i])
    ensures var r := Evaluate(m, input, draw, now, logs);
      && r.Returned? && r.result.status == Completed && r.result.data.Keys == {m.OutputKey()}
      && r.result.data[m.OutputKey()].Obj?
      && r.result.data[m.OutputKey()].fields.Keys == set i | 0 <= i < |Variants(input).items| :: ScoreKey(Variants(input).items[i])
  {
    ScoreKeysAreIds(m, Variants(input).items, draw);
  }
}
