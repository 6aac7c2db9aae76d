/** The decision agent: drops rejected variants, ranks the rest by a weighted score and
    picks the winner, or asks for regeneration when nothing is left. The score is the
    double JavaScript computes for 0.5·ctr + 0.3·mem + 0.2·brand, counted in 2^-55
    (module Binary64); the exact sum, in tenths, is the reference it is compared with. */
module Decision {
  import opened Wrappers
  import opened Json
  import opened Graph
  import opened Binary64
  import Strings

  const AgentName := "DecisionAgent"

  /** `v.id`, read only where `v` is neither `undefined` nor `null`. */
  function IdOf(v: Value): Value {
    Field(v, "id")
  }

  /** `list.includes(x)` on the array or the string the rejected list holds. */
  predicate Includes(list: Value, x: Value)
    requires list.Arr? || list.Str?
  {
    if list.Arr? then x in list.items else Strings.Contains(list.s, ToJsString(x))
  }

  /** `variants.filter(v => !rejectedIds.includes(v.id))`, with the TypeErrors of a
      `null` variant or of a rejected list that has no `includes`. */
  function Candidates(variants: seq<Value>, rejected: Value): Result<seq<Value>>
  {
    if variants == [] then Ok([])
    else
      var v := variants[0];
      if Nullish(v) then Err(if v.Null? then "Cannot read properties of null (reading 'id')"
                             else "Cannot read properties of undefined (reading 'id')")
      else if !(rejected.Arr? || rejected.Str?) then Err("rejectedIds.includes is not a function")
      else
        match Candidates(variants[1..], rejected)
        case Err(e) => Err(e)
        case Ok(rest) => if Includes(rejected, IdOf(v)) then Ok(rest) else Ok([v] + rest)
  }

  /** `a` is `b` with some elements left out, the rest in their order. */
  predicate IsSubsequence<T(==)>(a: seq<T>, b: seq<T>)
    decreases |b|
  {
    if a == [] then true
    else if b == [] then false
    else if a[0] == b[0] then IsSubsequence(a[1..], b[1..])
    else IsSubsequence(a, b[1..])
  }

  /** The candidates are exactly the variants whose id is not rejected, in order. */
  lemma {:induction false} CandidatesExact(variants: seq<Value>, rejected: Value)
    requires Candidates(variants, rejected).Ok?
    ensures var cs := Candidates(variants, rejected).value;
      (variants != [] ==> rejected.Arr? || rejected.Str?)
      && (forall v :: v in variants ==> !Nullish(v))
      && IsSubsequence(cs, variants)
      && (forall c :: c in cs ==> c in variants && !Includes(rejected, IdOf(c)))
      && (forall v :: v in variants && !Includes(rejected, IdOf(v)) ==> v in cs)
  {
    if variants != [] {
      CandidatesExact(variants[1..], rejected);
      var cs := Candidates(variants, rejected).value;
      var rest := Candidates(variants[1..], rejected).value;
      assert forall v :: v in variants ==> v == variants[0] || v in variants[1..];
      if !Includes(rejected, IdOf(variants[0])) {
        assert cs == [variants[0]] + rest;
        assert cs[1..] == rest;
      } else {
        assert cs == rest;
        SubsequenceSkip(rest, variants);
      }
    }
  }

  lemma SubsequenceSkip<T>(a: seq<T>, b: seq<T>)
    requires b != [] && IsSubsequence(a, b[1..])
    ensures IsSubsequence(a, b)
    decreases |b|, 0
  {
    if a != [] && a[0] == b[0] {
      SubsequenceTail(a, b[1..]);
    }
  }

  lemma {:induction false} SubsequenceTail<T>(a: seq<T>, b: seq<T>)
    requires a != [] && IsSubsequence(a, b)
    ensures IsSubsequence(a[1..], b)
    decreases |b|, 1
  {
    if b != [] {
      if a[0] != b[0] {
        SubsequenceTail(a, b[1..]);
      }
      if a[1..] != [] {
        SubsequenceSkip(a[1..], b);
      }
    }
  }

  // ---------------------------------------------------------------- scoring

  /** `table[key]` on the score table; a table that is not a plain object reads as empty. */
  function Lookup(table: Value, key: string): Value {
    if table.Obj? then Get(table.fields, key) else Undefined
  }

  /** `table[id] || fallback` for a numeric table entry. */
  function Metric(table: Value, id: Value, fallback: int): int {
    var v := Lookup(table, ToJsString(id));
    if v.Num? && v.n != 0 then v.n else fallback
  }

  /** `(s1 * 0.5) + (s2 * 0.3) + (s3 * 0.2)`: three rounded products and two rounded
      additions, left to right. */
  function Weighted(s1: int, s2: int, s3: int): int {
    Add(Add(Mul(s1, Half), Mul(s2, Point3)), Mul(s3, Point2))
  }

  /** The same weighted sum computed exactly, in tenths of a point. */
  function Tenths(s1: int, s2: int, s3: int): int {
    5 * s1 + 3 * s2 + 2 * s3
  }

  /** A candidate's score, a missing or zero metric counting as 50. */
  function WeightedScore(ctr: Value, mem: Value, brand: Value, id: Value): int {
    Weighted(Metric(ctr, id, 50), Metric(mem, id, 50), Metric(brand, id, 50))
  }

  /** The candidate's exact score in tenths. */
  function TenthsScore(ctr: Value, mem: Value, brand: Value, id: Value): int {
    Tenths(Metric(ctr, id, 50), Metric(mem, id, 50), Metric(brand, id, 50))
  }

  /** Metrics no larger than a million in magnitude, far beyond the 0-100 scale the
      scoring agent uses. */
  predicate Moderate(s1: int, s2: int, s3: int) {
    -1000000 <= s1 <= 1000000 && -1000000 <= s2 <= 1000000 && -1000000 <= s3 <= 1000000
  }

  /** For moderate metrics the double is within a twentieth of a point of the exact sum:
      five roundings, each off by at most 2^-53 of its operand, and the 0.3 and 0.2
      constants, each off by 0.4 counts. */
  lemma WeightedNearTenths(s1: int, s2: int, s3: int)
    requires Moderate(s1, s2, s3)
    ensures -Scale / 2 < 10 * Weighted(s1, s2, s3) - Tenths(s1, s2, s3) * Scale < Scale / 2
  {
    MulClose(s1, Half, 2000000);
    MulClose(s2, Point3, 2000000);
    MulClose(s3, Point2, 2000000);
    var a, b, c := Mul(s1, Half), Mul(s2, Point3), Mul(s3, Point2);
    AddClose(a, b, 4000000);
    AddClose(Add(a, b), c, 6000000);
  }

  /** A strictly better exact score is a strictly better double: the two orders differ
      only where the exact scores tie. */
  lemma TenthsOrderKept(a1: int, a2: int, a3: int, b1: int, b2: int, b3: int)
    requires Moderate(a1, a2, a3) && Moderate(b1, b2, b3)
    requires Tenths(a1, a2, a3) < Tenths(b1, b2, b3)
    ensures Weighted(a1, a2, a3) < Weighted(b1, b2, b3)
  {
    WeightedNearTenths(a1, a2, a3);
    WeightedNearTenths(b1, b2, b3);
  }

  // The roundings of two sums that tie in tenths, one operation at a time.
  lemma Tie75() ensures Mul(75, Half) == 1351079888211148800 {}
  lemma Tie72() ensures Mul(72, Point3) == 778222015609621632 {}
  lemma Tie88() ensures Mul(88, Point2) == 634106827533765888 {}
  lemma Tie70() ensures Mul(70, Point3) == 756604737398243328 {}
  lemma Tie91() ensures Mul(91, Point2) == 655724105745144192 {}
  lemma TieSumA() ensures Add(1351079888211148800, 778222015609621632) == 2129301903820770304 {}
  lemma TieTotalA() ensures Add(2129301903820770304, 634106827533765888) == 2763408731354535936 {}
  lemma TieSumB() ensures Add(1351079888211148800, 756604737398243328) == 2107684625609392128 {}
  lemma TieTotalB() ensures Add(2107684625609392128, 655724105745144192) == 2763408731354536448 {}

  /** Equal exact scores can still be ordered: 75, 72, 88 and 75, 70, 91 both weigh
      76.7, but the first sum comes out as 76.69999999999999 and the second as 76.7. */
  lemma TenthsTieSplit()
    ensures Tenths(75, 72, 88) == Tenths(75, 70, 91) == 767
    ensures Weighted(75, 72, 88) < Weighted(75, 70, 91)
  {
    TieValues();
  }

  /** The two doubles, counted in 2^-55. */
  lemma TieValues()
    ensures Weighted(75, 72, 88) == 2763408731354535936
    ensures Weighted(75, 70, 91) == 2763408731354536448
  {
    Tie75();
    Tie72();
    Tie88();
    Tie70();
    Tie91();
    TieSumA();
    TieTotalA();
    TieSumB();
    TieTotalB();
  }

  datatype Scored = Scored(item: Value, id: Value, score: int)

  /** `candidates.map(v => ({...v, score}))`, keeping the candidate, its id and its score. */
  function ScoreAll(cs: seq<Value>, ctr: Value, mem: Value, brand: Value): (r: seq<Scored>)
    ensures |r| == |cs|
  {
    if cs == [] then []
    else [Scored(cs[0], IdOf(cs[0]), WeightedScore(ctr, mem, brand, IdOf(cs[0])))] + ScoreAll(cs[1..], ctr, mem, brand)
  }

  /** Each candidate is paired with its id and its score, in place. */
  lemma {:induction false} ScoreAllAt(cs: seq<Value>, ctr: Value, mem: Value, brand: Value, i: int)
    requires 0 <= i < |cs|
    ensures ScoreAll(cs, ctr, mem, brand)[i] == Scored(cs[i], IdOf(cs[i]), WeightedScore(ctr, mem, brand, IdOf(cs[i])))
  {
    if i > 0 {
      ScoreAllAt(cs[1..], ctr, mem, brand, i - 1);
    }
  }

  // ---------------------------------------------------------------- ranking

  predicate SortedDesc(xs: seq<Scored>) {
    forall i, j :: 0 <= i < j < |xs| ==> xs[i].score >= xs[j].score
  }

  /** Places `x` before the first element scoring no more than it. */
  function Insert(x: Scored, ys: seq<Scored>): seq<Scored> {
    if ys == [] || x.score >= ys[0].score then [x] + ys
    else [ys[0]] + Insert(x, ys[1..])
  }

  /** The ranking `sort((a, b) => b.score - a.score)` produces: descending and stable. */
  function Rank(xs: seq<Scored>): seq<Scored> {
    if xs == [] then [] else Insert(xs[0], Rank(xs[1..]))
  }

  lemma {:induction false} InsertPermutes(x: Scored, ys: seq<Scored>)
    ensures multiset(Insert(x, ys)) == multiset(ys) + multiset{x}
    ensures |Insert(x, ys)| == |ys| + 1
  {
    if ys != [] && x.score < ys[0].score {
      InsertPermutes(x, ys[1..]);
      assert ys == [ys[0]] + ys[1..];
    }
  }

  /** A head no lower than every element keeps a descending sequence descending. */
  lemma ConsSorted(h: Scored, r: seq<Scored>)
    requires SortedDesc(r)
    requires forall k :: 0 <= k < |r| ==> r[k].score <= h.score
    ensures SortedDesc([h] + r)
  {
    var z := [h] + r;
    forall i, j | 0 <= i < j < |z|
      ensures z[i].score >= z[j].score
    {
      assert z[j] == r[j - 1];
      if i > 0 {
        assert z[i] == r[i - 1];
      }
    }
  }

  lemma TailSorted(ys: seq<Scored>)
    requires ys != [] && SortedDesc(ys)
    ensures SortedDesc(ys[1..])
    ensures forall k :: 0 <= k < |ys| ==> ys[k].score <= ys[0].score
  {
    var t := ys[1..];
    forall i, j | 0 <= i < j < |t|
      ensures t[i].score >= t[j].score
    {
      assert t[i] == ys[i + 1] && t[j] == ys[j + 1];
    }
  }

  /** Inserting under a bound keeps every element under it. */
  lemma {:induction false} InsertBelow(x: Scored, ys: seq<Scored>, b: int)
    requires x.score <= b
    requires forall k :: 0 <= k < |ys| ==> ys[k].score <= b
    ensures forall k :: 0 <= k < |Insert(x, ys)| ==> Insert(x, ys)[k].score <= b
  {
    if ys != [] && x.score < ys[0].score {
      var t := ys[1..];
      assert forall k :: 0 <= k < |t| ==> t[k] == ys[k + 1];
      InsertBelow(x, t, b);
      var z := [ys[0]] + Insert(x, t);
      assert Insert(x, ys) == z;
      assert forall k :: 1 <= k < |z| ==> z[k] == Insert(x, t)[k - 1];
    } else {
      var z := [x] + ys;
      assert forall k :: 1 <= k < |z| ==> z[k] == ys[k - 1];
    }
  }

  lemma {:induction false} InsertSorted(x: Scored, ys: seq<Scored>)
    requires SortedDesc(ys)
    ensures SortedDesc(Insert(x, ys))
  {
    if ys != [] && x.score < ys[0].score {
      TailSorted(ys);
      var t := ys[1..];
      InsertSorted(x, t);
      assert forall k :: 0 <= k < |t| ==> t[k] == ys[k + 1];
      InsertBelow(x, t, ys[0].score);
      ConsSorted(ys[0], Insert(x, t));
    } else if ys != [] {
      TailSorted(ys);
      ConsSorted(x, ys);
    } else {
      ConsSorted(x, ys);
    }
  }

  lemma InsertFacts(x: Scored, ys: seq<Scored>)
    requires SortedDesc(ys)
    ensures SortedDesc(Insert(x, ys))
    ensures multiset(Insert(x, ys)) == multiset(ys) + multiset{x}
    ensures |Insert(x, ys)| == |ys| + 1
  {
    InsertSorted(x, ys);
    InsertPermutes(x, ys);
  }

  lemma {:induction false} RankSorted(xs: seq<Scored>)
    ensures SortedDesc(Rank(xs))
  {
    if xs != [] {
      RankSorted(xs[1..]);
      InsertSorted(xs[0], Rank(xs[1..]));
    }
  }

  lemma {:induction false} RankPermutes(xs: seq<Scored>)
    ensures multiset(Rank(xs)) == multiset(xs)
    ensures |Rank(xs)| == |xs|
  {
    if xs != [] {
      RankPermutes(xs[1..]);
      InsertPermutes(xs[0], Rank(xs[1..]));
      assert xs == [xs[0]] + xs[1..];
    }
  }

  lemma {:induction false} InsertLength(x: Scored, ys: seq<Scored>)
    ensures |Insert(x, ys)| == |ys| + 1
  {
    if ys != [] && x.score < ys[0].score {
      InsertLength(x, ys[1..]);
    }
  }

  lemma {:induction false} RankLength(xs: seq<Scored>)
    ensures |Rank(xs)| == |xs|
  {
    if xs != [] {
      RankLength(xs[1..]);
      InsertLength(xs[0], Rank(xs[1..]));
    }
  }

  /** The ranking is a permutation of its input in non-increasing score order. */
  lemma RankSortedPermutation(xs: seq<Scored>)
    ensures SortedDesc(Rank(xs))
    ensures multiset(Rank(xs)) == multiset(xs)
    ensures |Rank(xs)| == |xs|
  {
    RankSorted(xs);
    RankPermutes(xs);
  }

  /** The elements of one score, in order. */
  function WithScore(xs: seq<Scored>, s: int): seq<Scored> {
    if xs == [] then []
    else (if xs[0].score == s then [xs[0]] else []) + WithScore(xs[1..], s)
  }

  lemma {:induction false} InsertStable(x: Scored, ys: seq<Scored>, s: int)
    ensures WithScore(Insert(x, ys), s) == (if x.score == s then [x] else []) + WithScore(ys, s)
  {
    if ys != [] && x.score < ys[0].score {
      InsertStable(x, ys[1..], s);
      var r := Insert(x, ys[1..]);
      var z := [ys[0]] + r;
      assert Insert(x, ys) == z;
      assert z[0] == ys[0] && z[1..] == r;
      assert WithScore(z, s) == (if ys[0].score == s then [ys[0]] else []) + WithScore(r, s);
    } else {
      assert ([x] + ys)[1..] == ys;
    }
  }

  /** Stability: candidates with equal scores keep their input order. */
  lemma {:induction false} RankStable(xs: seq<Scored>, s: int)
    ensures WithScore(Rank(xs), s) == WithScore(xs, s)
  {
    if xs != [] {
      RankStable(xs[1..], s);
      InsertStable(xs[0], Rank(xs[1..]), s);
    }
  }

  // ---------------------------------------------------------------- the result

  /** `{...v, score}`, the score counted in 2^-55 like every double here. */
  function WithScoreField(v: Value, score: int): Value {
    if v.Obj? then Obj(v.fields["score" := Num(score)]) else Obj(map["score" := Num(score)])
  }

  function Ids(xs: seq<Scored>): (r: seq<Value>)
    ensures |r| == |xs| && forall i :: 0 <= i < |xs| ==> r[i] == xs[i].id
  {
    if xs == [] then [] else [xs[0].id] + Ids(xs[1..])
  }

  /** `list.length` for the rejected list. */
  function LengthOf(v: Value): Value {
    match v
    case Arr(xs) => Num(|xs|)
    case Str(s) => Num(|s|)
    case _ => Undefined
  }

  function Breakdown(name: string, weight: string, table: Value, id: Value): Value {
    Obj(map["name" := Str(name), "weight" := Str(weight), "score" := Or(Lookup(table, ToJsString(id)), Num(0))])
  }

  function RegenerationData(rejected: Value): map<string, Value> {
    map["trigger_regeneration" := Bool(true), "rejected_count" := LengthOf(rejected)]
  }

  /** The summary's first sentence: the winner's headline and its score to one decimal. */
  function Lead(w: Scored): string {
    "Variant \"" + ToJsString(Field(WithScoreField(w.item, w.score), "headline"))
    + "\" was selected as the winner with a weighted score of " + ToFixed1(w.score) + "/100. "
  }

  /** The second sentence: the winner's strongest metric. */
  function Strength(w: Scored, ctr: Value, mem: Value, brand: Value): string {
    "It performed strongest in " + GetTopMetric(w.id, ctr, mem, brand) + ". "
  }

  /** The third sentence, present only when there is a runner-up: its id and the margin,
      a double difference, to one decimal. */
  function RunnerUp(ranked: seq<Scored>): string
    requires ranked != []
  {
    if |ranked| > 1 then
      "It outperformed the runner-up (Variant " + ToJsString(ranked[1].id) + ") by "
      + ToFixed1(Sub(ranked[0].score, ranked[1].score)) + " points."
    else ""
  }

  /** `reason`, the summary of the decision. */
  function Summary(ranked: seq<Scored>, ctr: Value, mem: Value, brand: Value): string
    requires ranked != []
  {
    Lead(ranked[0]) + Strength(ranked[0], ctr, mem, brand) + RunnerUp(ranked)
  }

  function WinnerData(ranked: seq<Scored>, ctr: Value, mem: Value, brand: Value): map<string, Value>
    requires ranked != []
  {
    var w := ranked[0];
    map["selected_creative" := WithScoreField(w.item, w.score),
        "recommendedVariant" := w.id,
        "ranking" := Arr(Ids(ranked)),
        "reasoning" := Obj(map["summary" := Str(Summary(ranked, ctr, mem, brand)), "metrics_breakdown" := Arr([
          Breakdown("CTR Prediction", "50%", ctr, w.id),
          Breakdown("Memorability", "30%", mem, w.id),
          Breakdown("Brand Check", "20%", brand, w.id)])])]
  }

  function Execute(input: map<string, Value>, now: string, logs: seq<string>): Outcome {
    var variants := Or(Get(input, "variants"), Arr([]));
    var ctr := Or(Get(input, "ctr_scores"), Obj(map[]));
    var mem := Or(Get(input, "mem_scores"), Obj(map[]));
    var brand := Or(Get(input, "brand_scores"), Obj(map[]));
    var rejected := Or(Get(input, "rejected_variants"), Arr([]));
    if !variants.Arr? then Threw("variants.filter is not a function")
    else
      match Candidates(variants.items, rejected)
      case Err(e) => Threw(e)
      case Ok(cs) =>
        if cs == [] then Returned(AgentResult(AgentName, Completed, RegenerationData(rejected), now, logs))
        else
          var ranked := Rank(ScoreAll(cs, ctr, mem, brand));
          RankLength(ScoreAll(cs, ctr, mem, brand));
          Returned(AgentResult(AgentName, Completed, WinnerData(ranked, ctr, mem, brand), now, logs))
  }

  // ---------------------------------------------------------------- properties

  /** A missing or zero metric counts as 50 in the weighted score. */
  lemma MissingMetricCountsAsFifty(ctr: Value, mem: Value, brand: Value, id: Value)
    requires !Lookup(ctr, ToJsString(id)).Num? || Lookup(ctr, ToJsString(id)).n == 0
    requires !Lookup(mem, ToJsString(id)).Num? || Lookup(mem, ToJsString(id)).n == 0
    requires !Lookup(brand, ToJsString(id)).Num? || Lookup(brand, ToJsString(id)).n == 0
    ensures WeightedScore(ctr, mem, brand, id) == 50 * Scale
  {
    FiftyCtr();
    FiftyMem();
    FiftyBrand();
    FiftySum();
    FiftyTotal();
  }

  // 50 · 0.5 + 50 · 0.3 + 50 · 0.2 is exactly 50.
  lemma FiftyCtr() ensures Mul(50, Half) == 900719925474099200 {}
  lemma FiftyMem() ensures Mul(50, Point3) == 540431955284459520 {}
  lemma FiftyBrand() ensures Mul(50, Point2) == 360287970189639680 {}
  lemma FiftySum() ensures Add(900719925474099200, 540431955284459520) == 1441151880758558720 {}
  lemma FiftyTotal() ensures Add(1441151880758558720, 360287970189639680) == 1801439850948198400 {}

  /** The agent never throws on well-shaped input, and it asks for regeneration exactly
      when no candidate is left, reporting how many ids were rejected. */
  lemma RegenerationExactlyWhenNoCandidates(input: map<string, Value>, now: string, logs: seq<string>)
    requires Get(input, "variants").Arr? && Candidates(Get(input, "variants").items, Or(Get(input, "rejected_variants"), Arr([]))).Ok?
    ensures var rejected := Or(Get(input, "rejected_variants"), Arr([]));
      var cs := Candidates(Get(input, "variants").items, rejected).value;
      var out := Execute(input, now, logs);
      out.Returned? && out.result.status == Completed
      && (cs == [] <==> "trigger_regeneration" in out.result.data)
      && (cs == [] ==> out.result.data == RegenerationData(rejected)
                       && out.result.data["rejected_count"] == LengthOf(rejected))
  {
    var variants := Get(input, "variants");
    assert Or(variants, Arr([])) == variants;
    var cs := Candidates(variants.items, Or(Get(input, "rejected_variants"), Arr([]))).value;
    if cs != [] {
      ExecuteSelectsWinner(input, now, logs);
    }
  }

  /** The first-ranked element is one of the input with the highest score. */
  lemma RankHeadIsMax(xs: seq<Scored>)
    requires xs != []
    ensures Rank(xs) != [] && Rank(xs)[0] in xs
    ensures forall x :: x in xs ==> x.score <= Rank(xs)[0].score
  {
    RankSortedPermutation(xs);
    var r := Rank(xs);
    assert r[0] in multiset(xs);
    forall x | x in xs
      ensures x.score <= r[0].score
    {
      assert x in multiset(r);
      var j :| 0 <= j < |r| && r[j] == x;
      if j > 0 {
        assert r[0].score >= r[j].score;
      }
    }
  }

  /** With candidates left, the result carries the ranked winner. */
  lemma ExecuteSelectsWinner(input: map<string, Value>, now: string, logs: seq<string>)
    requires Get(input, "variants").Arr?
    requires Candidates(Get(input, "variants").items, Or(Get(input, "rejected_variants"), Arr([]))).Ok?
    requires Candidates(Get(input, "variants").items, Or(Get(input, "rejected_variants"), Arr([]))).value != []
    ensures var ctr := Or(Get(input, "ctr_scores"), Obj(map[]));
      var mem := Or(Get(input, "mem_scores"), Obj(map[]));
      var brand := Or(Get(input, "brand_scores"), Obj(map[]));
      var cs := Candidates(Get(input, "variants").items, Or(Get(input, "rejected_variants"), Arr([]))).value;
      var ranked := Rank(ScoreAll(cs, ctr, mem, brand));
      ranked != [] && Execute(input, now, logs) == Returned(AgentResult(AgentName, Completed, WinnerData(ranked, ctr, mem, brand), now, logs))
  {
    var variants := Get(input, "variants");
    assert Or(variants, Arr([])) == variants;
    var cs := Candidates(variants.items, Or(Get(input, "rejected_variants"), Arr([]))).value;
    RankLength(ScoreAll(cs, Or(Get(input, "ctr_scores"), Obj(map[])), Or(Get(input, "mem_scores"), Obj(map[])), Or(Get(input, "brand_scores"), Obj(map[]))));
  }

  /** The first-ranked candidate is one of the candidates, paired with its id and its
      score, and no candidate scores higher. */
  lemma RankedHeadIsBestCandidate(cs: seq<Value>, ctr: Value, mem: Value, brand: Value)
    requires cs != []
    ensures var ranked := Rank(ScoreAll(cs, ctr, mem, brand));
      ranked != [] && ranked[0].item in cs
      && ranked[0].id == IdOf(ranked[0].item)
      && ranked[0].score == WeightedScore(ctr, mem, brand, ranked[0].id)
      && (forall c :: c in cs ==> WeightedScore(ctr, mem, brand, IdOf(c)) <= ranked[0].score)
  {
    var scored := ScoreAll(cs, ctr, mem, brand);
    RankHeadIsMax(scored);
    var w := Rank(scored)[0];
    var i :| 0 <= i < |scored| && scored[i] == w;
    ScoreAllAt(cs, ctr, mem, brand, i);
    forall c | c in cs
      ensures WeightedScore(ctr, mem, brand, IdOf(c)) <= w.score
    {
      var k :| 0 <= k < |cs| && cs[k] == c;
      ScoreAllAt(cs, ctr, mem, brand, k);
      assert scored[k] in scored;
    }
  }

  /** The winner is a candidate with the highest weighted score, it is not among the
      rejected ids, and its id is the recommended variant. */
  lemma WinnerIsBestUnrejected(variants: seq<Value>, rejected: Value, ctr: Value, mem: Value, brand: Value)
    requires Candidates(variants, rejected).Ok? && Candidates(variants, rejected).value != []
    ensures var cs := Candidates(variants, rejected).value;
      var ranked := Rank(ScoreAll(cs, ctr, mem, brand));
      ranked != []
      && ranked[0].item in cs && ranked[0].item in variants
      && ranked[0].id == IdOf(ranked[0].item)
      && !Includes(rejected, ranked[0].id)
      && WinnerData(ranked, ctr, mem, brand)["recommendedVariant"] == ranked[0].id
      && ranked[0].score == WeightedScore(ctr, mem, brand, ranked[0].id)
      && (forall c :: c in cs ==> WeightedScore(ctr, mem, brand, IdOf(c)) <= ranked[0].score)
  {
    var cs := Candidates(variants, rejected).value;
    CandidatesExact(variants, rejected);
    RankedHeadIsBestCandidate(cs, ctr, mem, brand);
  }

  /** The metrics a candidate is scored on are moderate. */
  predicate ModerateMetrics(ctr: Value, mem: Value, brand: Value, id: Value) {
    Moderate(Metric(ctr, id, 50), Metric(mem, id, 50), Metric(brand, id, 50))
  }

  /** With moderate metrics the winner also has the best exact score: the doubles only
      reorder candidates whose exact scores tie. */
  lemma WinnerHasBestTenths(variants: seq<Value>, rejected: Value, ctr: Value, mem: Value, brand: Value)
    requires Candidates(variants, rejected).Ok? && Candidates(variants, rejected).value != []
    requires forall c :: c in Candidates(variants, rejected).value ==> ModerateMetrics(ctr, mem, brand, IdOf(c))
    ensures var cs := Candidates(variants, rejected).value;
      var ranked := Rank(ScoreAll(cs, ctr, mem, brand));
      ranked != [] && ranked[0].item in cs
      && forall c :: c in cs ==> TenthsScore(ctr, mem, brand, IdOf(c)) <= TenthsScore(ctr, mem, brand, ranked[0].id)
  {
    var cs := Candidates(variants, rejected).value;
    WinnerIsBestUnrejected(variants, rejected, ctr, mem, brand);
    var w := Rank(ScoreAll(cs, ctr, mem, brand))[0];
    forall c | c in cs
      ensures TenthsScore(ctr, mem, brand, IdOf(c)) <= TenthsScore(ctr, mem, brand, w.id)
    {
      if TenthsScore(ctr, mem, brand, IdOf(c)) > TenthsScore(ctr, mem, brand, w.id) {
        TenthsOrderKept(Metric(ctr, w.id, 50), Metric(mem, w.id, 50), Metric(brand, w.id, 50),
                        Metric(ctr, IdOf(c), 50), Metric(mem, IdOf(c), 50), Metric(brand, IdOf(c), 50));
      }
    }
  }

  /** Two candidates are ranked by their scores, the first kept in front on a tie. */
  lemma RankPair(x: Scored, y: Scored)
    ensures Rank([x, y]) == if x.score >= y.score then [x, y] else [y, x]
  {
    assert [x, y][1..] == [y] && [y][1..] == [];
    assert Rank([y]) == Insert(y, []) == [y];
    assert Insert(x, []) == [x];
    assert Rank([x, y]) == Insert(x, [y]);
  }

  /** On a tie in tenths the doubles decide: of two candidates weighing 76.7, the one
      whose sum comes out exactly 76.7 is ranked first, although it comes second. */
  lemma TieRankedByDoubles(v1: Value, v2: Value, id1: Value, id2: Value)
    ensures var x, y := Scored(v1, id1, Weighted(75, 72, 88)), Scored(v2, id2, Weighted(75, 70, 91));
      Rank([x, y]) == [y, x]
  {
    TenthsTieSplit();
    RankPair(Scored(v1, id1, Weighted(75, 72, 88)), Scored(v2, id2, Weighted(75, 70, 91)));
  }

  /** The ranking lists every candidate's id once, in rank order. */
  lemma RankingCoversCandidates(cs: seq<Value>, ctr: Value, mem: Value, brand: Value)
    ensures var ranked := Rank(ScoreAll(cs, ctr, mem, brand));
      multiset(ranked) == multiset(ScoreAll(cs, ctr, mem, brand)) && SortedDesc(ranked)
      && |Ids(ranked)| == |cs|
  {
    RankSortedPermutation(ScoreAll(cs, ctr, mem, brand));
  }

  /** The breakdown reports the winner's raw metrics with 0, not 50, for a missing one. */
  lemma BreakdownDefaultsToZero(table: Value, id: Value, name: string, weight: string)
    requires !Truthy(Lookup(table, ToJsString(id)))
    ensures Breakdown(name, weight, table, id).fields["score"] == Num(0)
  {
  }

  /** The metric the summary names: the strongest one, ties going to CTR, then to
      memorability. */
  function GetTopMetric(id: Value, ctr: Value, mem: Value, brand: Value): string {
    var s1 := Raw(ctr, id);
    var s2 := Raw(mem, id);
    var s3 := Raw(brand, id);
    if s1 >= s2 && s1 >= s3 then "Click-Through Rate"
    else if s2 >= s1 && s2 >= s3 then "Memorability"
    else "Brand Alignment"
  }

  /** `table[id] || 0` for a numeric entry. */
  function Raw(table: Value, id: Value): int {
    var v := Lookup(table, ToJsString(id));
    if v.Num? then v.n else 0
  }

  lemma TopMetricIsMaximal(id: Value, ctr: Value, mem: Value, brand: Value)
    ensures var s1, s2, s3 := Raw(ctr, id), Raw(mem, id), Raw(brand, id);
      var top := GetTopMetric(id, ctr, mem, brand);
      (top == "Click-Through Rate" <==> s1 >= s2 && s1 >= s3)
      && (top == "Memorability" <==> !(s1 >= s2 && s1 >= s3) && s2 >= s3)
      && (top == "Brand Alignment" <==> s3 > s1 && s3 > s2)
      && (top == "Memorability" ==> s2 > s1)
  {
  }

  lemma SplitAfter(a: string, b: string, c: string)
    ensures a <= a + b + c && (a + b + c)[|a|..] == b + c
  {
    assert a + b + c == a + (b + c);
  }

  /** The summary opens with the winner's headline and score, followed by its strongest
      metric and then the runner-up sentence. */
  lemma SummaryStartsWithLead(ranked: seq<Scored>, ctr: Value, mem: Value, brand: Value)
    requires ranked != []
    ensures Lead(ranked[0]) <= Summary(ranked, ctr, mem, brand)
    ensures Summary(ranked, ctr, mem, brand)[|Lead(ranked[0])|..] == Strength(ranked[0], ctr, mem, brand) + RunnerUp(ranked)
  {
    SplitAfter(Lead(ranked[0]), Strength(ranked[0], ctr, mem, brand), RunnerUp(ranked));
  }

  /** A runner-up is reported exactly when there is one, by a margin that is never
      negative in a ranking sorted by descending score. */
  lemma RunnerUpReported(ranked: seq<Scored>)
    requires ranked != [] && SortedDesc(ranked)
    ensures RunnerUp(ranked) == "" <==> |ranked| == 1
    ensures |ranked| > 1 ==>
      Sub(ranked[0].score, ranked[1].score) >= 0 && ToFixed1(Sub(ranked[0].score, ranked[1].score))[0] != '-'
  {
    if |ranked| > 1 {
      SubNonNegative(ranked[0].score, ranked[1].score);
    }
  }

  /** The first tied candidate's 76.69999999999999 is written as 76.7 all the same. */
  lemma TieWrittenAlike()
    ensures ToFixed1(Weighted(75, 72, 88)) == ToFixed1(Weighted(75, 70, 91)) == "76.7"
  {
    TieValues();
    Fixed767A();
    Fixed767B();
  }

  lemma Fixed767A() ensures ToFixed1(2763408731354535936) == "76.7" {}
  lemma Fixed767B() ensures ToFixed1(2763408731354536448) == "76.7" {}
}
