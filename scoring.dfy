/**
 * The sum-based sovereignty scorer (`calculateScore`): it walks each criteria
 * table, adds the score of every answered criterion to the table's score and
 * the criterion's maximum to the table's maximum, keeps a details entry per
 * answered criterion, and rates the overall percentage.
 */
module Scoring {
  import opened Wrappers
  import opened Catalog
  import Decimal
  import Rating

  /**
   * The request's `criteria`: criterion key to the option key chosen or the
   * number typed. A key that is missing is read as the empty answer.
   */
  type Selections = map<string, string>

  /** A details entry: the criterion's name, the caption of the answer, the weighted score. */
  datatype Detail = Detail(name: string, selection: string, score: int)

  /**
   * How a table counts its maximum. Tables 1 and 2 count 3 points per criterion
   * whether or not it was answered; the SLC table counts each option criterion's
   * best option, answered or not, and its numeric criterion only when answered.
   */
  datatype TableRule = ThreePerCriterion | SlcRule

  /** What one criterion adds to its table. */
  datatype Contribution = Contribution(score: int, max: int, detail: Option<Detail>)

  /** The running figures of one table: score, maximum and details by criterion key. */
  datatype Tally = Tally(score: int, max: int, details: map<string, Detail>)

  datatype Section = Section(score: int, maxScore: int, percentage: real, details: map<string, Detail>)

  datatype Report = Report(
    totalScore: int,
    maxScore: int,
    percentageScore: real,
    technical: Section,
    legal: Section,
    slc: Section,
    rating: string)

  /** The answer given for `key`; a missing key reads as the empty answer. */
  function SelectionOf(x: Selections, key: string): string {
    if key in x then x[key] else ""
  }

  /** A non-empty answer to a numeric criterion is an integer literal. */
  predicate Parses(c: Criterion, x: Selections) {
    c.kind.Number? && SelectionOf(x, c.key) != "" ==> Decimal.IsIntLiteral(SelectionOf(x, c.key))
  }

  predicate AllParse(cs: seq<Criterion>, x: Selections) {
    forall i :: 0 <= i < |cs| ==> Parses(cs[i], x)
  }

  /** The scorer's demand on a request: a typed `slc5` is a number. */
  predicate NumericAnswersParse(x: Selections) {
    SelectionOf(x, "slc5") != "" ==> Decimal.IsIntLiteral(SelectionOf(x, "slc5"))
  }

  /** A criterion the table rule can score: well formed, and an option criterion worth at most 3 under the three-point rule. */
  predicate Scorable(rule: TableRule, c: Criterion) {
    WellFormed(c)
    && (rule == ThreePerCriterion ==> c.kind.Options? && MaxChoiceScore(c.kind.choices) <= 3)
  }

  predicate ScorableTable(rule: TableRule, cs: seq<Criterion>) {
    forall i :: 0 <= i < |cs| ==> Scorable(rule, cs[i])
  }

  /** A criterion counts as answered when its answer is non-empty and, for an option criterion, names one of its options. */
  predicate Answered(c: Criterion, x: Selections) {
    var sel := SelectionOf(x, c.key);
    sel != "" && (c.kind.Options? ==> Lookup(c.kind.choices, sel).Some?)
  }

  function Min(a: int, b: int): int {
    if a <= b then a else b
  }

  function Max(a: int, b: int): int {
    if a >= b then a else b
  }

  /** `Math.min(Math.max(v, lo), hi)`: the point of [lo, hi] nearest to `v`. */
  function Clamp(v: int, lo: int, hi: int): (r: int)
    requires lo <= hi
    ensures lo <= r <= hi
    ensures lo <= v <= hi ==> r == v
    ensures v < lo ==> r == lo
    ensures hi < v ==> r == hi
  {
    Min(Max(v, lo), hi)
  }

  /** What the numeric criterion adds: its clamped, weighted value, and its maximum only when an answer was typed. */
  function NumericContribution(c: Criterion, x: Selections): Contribution
    requires c.kind.Number? && WellFormed(c) && Parses(c, x)
  {
    var sel := SelectionOf(x, c.key);
    if sel != "" then
      var v := Clamp(Decimal.ParseInt(sel), c.kind.min, c.kind.max);
      Contribution(v * c.weight, c.kind.max * c.weight,
                   Some(Detail(c.name, Decimal.NatToString(v) + " months", v * c.weight)))
    else
      Contribution(0, 0, None)
  }

  /** What an option criterion adds: the chosen option's weighted score, if any, and its weighted best score always. */
  function OptionContribution(rule: TableRule, c: Criterion, x: Selections): Contribution
    requires c.kind.Options? && WellFormed(c)
  {
    var sel := SelectionOf(x, c.key);
    var best := if rule == ThreePerCriterion then 3 else MaxChoiceScore(c.kind.choices);
    var found := if sel != "" then Lookup(c.kind.choices, sel) else None;
    if found.Some? then
      Contribution(found.value.score * c.weight, best * c.weight,
                   Some(Detail(c.name, found.value.caption, found.value.score * c.weight)))
    else
      Contribution(0, best * c.weight, None)
  }

  /** What criterion `c` adds to its table under `rule` (one loop iteration). */
  function Contribute(rule: TableRule, c: Criterion, x: Selections): Contribution
    requires Scorable(rule, c) && Parses(c, x)
  {
    if c.kind.Number? then NumericContribution(c, x) else OptionContribution(rule, c, x)
  }

  /** The figures of a table after walking all of `cs`, in order. */
  function TallyOf(rule: TableRule, cs: seq<Criterion>, x: Selections): Tally
    requires ScorableTable(rule, cs) && AllParse(cs, x)
    decreases |cs|
  {
    if cs == [] then Tally(0, 0, map[])
    else
      var c := cs[|cs| - 1];
      Add(TallyOf(rule, cs[..|cs| - 1], x), c.key, Contribute(rule, c, x))
  }

  /** The figures after adding one criterion's contribution, its entry filed under `key`. */
  function Add(t: Tally, key: string, k: Contribution): Tally {
    Tally(t.score + k.score, t.max + k.max,
          if k.detail.Some? then t.details[key := k.detail.value] else t.details)
  }

  lemma TallyStep(rule: TableRule, cs: seq<Criterion>, x: Selections, i: nat)
    requires ScorableTable(rule, cs) && AllParse(cs, x) && i < |cs|
    ensures TallyOf(rule, cs[..i + 1], x) == Add(TallyOf(rule, cs[..i], x), cs[i].key, Contribute(rule, cs[i], x))
  {
    assert cs[..i + 1][..i] == cs[..i];
  }

  /** The keys of the answered criteria of `cs`. */
  function AnsweredKeys(cs: seq<Criterion>, x: Selections): set<string> {
    set i | 0 <= i < |cs| && Answered(cs[i], x) :: cs[i].key
  }

  /**
   * One loop of `calculateScore` over one table: the score, the maximum and
   * the details it accumulates.
   */
  method WalkTable(rule: TableRule, cs: seq<Criterion>, x: Selections)
    returns (score: int, maxScore: int, details: map<string, Detail>)
    requires ScorableTable(rule, cs) && AllParse(cs, x)
    ensures Tally(score, maxScore, details) == TallyOf(rule, cs, x)
    ensures 0 <= score <= maxScore
    ensures details.Keys == AnsweredKeys(cs, x)
  {
    score, maxScore, details := 0, 0, map[];
    var i := 0;
    while i < |cs|
      invariant 0 <= i <= |cs|
      invariant Tally(score, maxScore, details) == TallyOf(rule, cs[..i], x)
    {
      score, maxScore, details := ScoreCriterion(rule, cs[i], x, score, maxScore, details);
      TallyStep(rule, cs, x, i);
      i := i + 1;
    }
    assert cs[..|cs|] == cs;
    TallyBounds(rule, cs, x);
    TallyDetailKeys(rule, cs, x);
  }

  /** The body of the loop: fold criterion `c` into the running figures. */
  method ScoreCriterion(rule: TableRule, c: Criterion, x: Selections,
                        score0: int, maxScore0: int, details0: map<string, Detail>)
    returns (score: int, maxScore: int, details: map<string, Detail>)
    requires Scorable(rule, c) && Parses(c, x)
    ensures Tally(score, maxScore, details) == Add(Tally(score0, maxScore0, details0), c.key, Contribute(rule, c, x))
  {
    score, maxScore, details := score0, maxScore0, details0;
    var sel := SelectionOf(x, c.key);
    if rule == ThreePerCriterion {
      var found := if sel != "" then Lookup(c.kind.choices, sel) else None;
      if found.Some? {
        var s := found.value.score * c.weight;
        score := score + s;
        details := details[c.key := Detail(c.name, found.value.caption, s)];
      }
      maxScore := maxScore + 3 * c.weight;
    } else if c.kind.Number? && sel != "" {
      var v := Clamp(Decimal.ParseInt(sel), c.kind.min, c.kind.max);
      var s := v * c.weight;
      score := score + s;
      details := details[c.key := Detail(c.name, Decimal.NatToString(v) + " months", s)];
      maxScore := maxScore + c.kind.max * c.weight;
    } else if sel != "" && c.kind.Options? && Lookup(c.kind.choices, sel).Some? {
      var found := Lookup(c.kind.choices, sel).value;
      var s := found.score * c.weight;
      score := score + s;
      details := details[c.key := Detail(c.name, found.caption, s)];
      maxScore := maxScore + MaxChoiceScore(c.kind.choices) * c.weight;
    } else if c.kind.Options? {
      maxScore := maxScore + MaxChoiceScore(c.kind.choices) * c.weight;
    }
  }

  /** A property every contribution has: score within [0, max], and an entry exactly when answered. */
  predicate ContributionOk(c: Criterion, x: Selections, k: Contribution) {
    && 0 <= k.score <= k.max
    && (k.detail.Some? <==> Answered(c, x))
    && (k.detail.Some? ==> k.detail.value.name == c.name && k.detail.value.score == k.score)
  }

  lemma NumericContributionBounds(c: Criterion, x: Selections)
    requires c.kind.Number? && WellFormed(c) && Parses(c, x)
    ensures ContributionOk(c, x, NumericContribution(c, x))
  {
    var sel := SelectionOf(x, c.key);
    if sel != "" {
      var v := Clamp(Decimal.ParseInt(sel), c.kind.min, c.kind.max);
      MulMonotone(v, c.kind.max, c.weight);
    }
  }

  lemma OptionContributionBounds(rule: TableRule, c: Criterion, x: Selections)
    requires c.kind.Options? && WellFormed(c)
    requires rule == ThreePerCriterion ==> MaxChoiceScore(c.kind.choices) <= 3
    ensures ContributionOk(c, x, OptionContribution(rule, c, x))
  {
    var sel := SelectionOf(x, c.key);
    var best := if rule == ThreePerCriterion then 3 else MaxChoiceScore(c.kind.choices);
    var found := if sel != "" then Lookup(c.kind.choices, sel) else None;
    if found.Some? {
      assert found.value.score <= best;
      MulMonotone(found.value.score, best, c.weight);
    } else {
      assert 0 <= MaxChoiceScore(c.kind.choices) <= best;
      MulMonotone(0, best, c.weight);
    }
  }

  /** Each criterion adds between 0 and its own maximum, and a details entry exactly when answered. */
  lemma ContributionBounds(rule: TableRule, c: Criterion, x: Selections)
    requires Scorable(rule, c) && Parses(c, x)
    ensures ContributionOk(c, x, Contribute(rule, c, x))
  {
    if c.kind.Number? {
      NumericContributionBounds(c, x);
    } else {
      OptionContributionBounds(rule, c, x);
    }
  }

  /**
   * An unanswered criterion (empty answer, or one naming no option) adds nothing
   * to the score and no details entry; an option criterion still adds its best
   * score to the maximum, a numeric one adds nothing.
   */
  lemma UnansweredContribution(rule: TableRule, c: Criterion, x: Selections)
    requires Scorable(rule, c) && Parses(c, x) && !Answered(c, x)
    ensures Contribute(rule, c, x).score == 0 && Contribute(rule, c, x).detail.None?
    ensures c.kind.Number? ==> Contribute(rule, c, x).max == 0
    ensures c.kind.Options? ==>
      Contribute(rule, c, x).max == (if rule == ThreePerCriterion then 3 else MaxChoiceScore(c.kind.choices)) * c.weight
  {
  }

  lemma MulMonotone(a: int, b: int, w: nat)
    requires 0 <= a <= b
    ensures 0 <= a * w <= b * w
  {
  }

  /** A table's score lies between 0 and its maximum. */
  lemma {:induction false} TallyBounds(rule: TableRule, cs: seq<Criterion>, x: Selections)
    requires ScorableTable(rule, cs) && AllParse(cs, x)
    ensures 0 <= TallyOf(rule, cs, x).score <= TallyOf(rule, cs, x).max
    decreases |cs|
  {
    if cs != [] {
      TallyBounds(rule, cs[..|cs| - 1], x);
      ContributionBounds(rule, cs[|cs| - 1], x);
    }
  }

  /** The details of a table hold exactly its answered criteria. */
  lemma {:induction false} TallyDetailKeys(rule: TableRule, cs: seq<Criterion>, x: Selections)
    requires ScorableTable(rule, cs) && AllParse(cs, x)
    ensures TallyOf(rule, cs, x).details.Keys == AnsweredKeys(cs, x)
    decreases |cs|
  {
    if cs != [] {
      var n := |cs| - 1;
      TallyDetailKeys(rule, cs[..n], x);
      ContributionBounds(rule, cs[n], x);
      AnsweredKeysStep(cs, x);
    }
  }

  lemma AnsweredKeysStep(cs: seq<Criterion>, x: Selections)
    requires cs != []
    ensures var n := |cs| - 1;
      AnsweredKeys(cs, x) == AnsweredKeys(cs[..n], x) + (if Answered(cs[n], x) then {cs[n].key} else {})
  {
    var n := |cs| - 1;
    var front := cs[..n];
    var extra: set<string> := if Answered(cs[n], x) then {cs[n].key} else {};
    forall key | key in AnsweredKeys(cs, x) ensures key in AnsweredKeys(front, x) + extra {
      var i :| 0 <= i < |cs| && Answered(cs[i], x) && cs[i].key == key;
      if i < n {
        assert front[i] == cs[i];
      }
    }
    forall key | key in AnsweredKeys(front, x) ensures key in AnsweredKeys(cs, x) {
      var i :| 0 <= i < n && Answered(front[i], x) && front[i].key == key;
      assert cs[i] == front[i];
    }
  }

  /** Each answered criterion's details entry is its own: its name, its caption and its weighted score. */
  lemma {:induction false} TallyDetailEntries(rule: TableRule, cs: seq<Criterion>, x: Selections, j: nat)
    requires ScorableTable(rule, cs) && AllParse(cs, x) && DistinctKeys(cs)
    requires j < |cs| && Answered(cs[j], x)
    ensures cs[j].key in TallyOf(rule, cs, x).details
    ensures ContributionOk(cs[j], x, Contribute(rule, cs[j], x))
    ensures TallyOf(rule, cs, x).details[cs[j].key] == Contribute(rule, cs[j], x).detail.value
    decreases |cs|
  {
    var n := |cs| - 1;
    ContributionBounds(rule, cs[j], x);
    if j < n {
      var front := cs[..n];
      assert front[j] == cs[j];
      assert DistinctKeys(front);
      TallyDetailEntries(rule, front, x, j);
      assert cs[n].key != cs[j].key;
    }
  }

  /** The sum of the weights of `cs`. */
  function WeightSum(cs: seq<Criterion>): nat
    decreases |cs|
  {
    if cs == [] then 0 else WeightSum(cs[..|cs| - 1]) + cs[|cs| - 1].weight
  }

  /** Under the three-point rule the maximum is 3 points per unit of weight, whatever was answered. */
  lemma {:induction false} ThreePointMax(cs: seq<Criterion>, x: Selections)
    requires ScorableTable(ThreePerCriterion, cs) && AllParse(cs, x)
    ensures TallyOf(ThreePerCriterion, cs, x).max == 3 * WeightSum(cs)
    decreases |cs|
  {
    if cs != [] {
      ThreePointMax(cs[..|cs| - 1], x);
    }
  }

  /** The weighted best scores of the option criteria of `cs`: what they add to the maximum answered or not. */
  function BestSum(cs: seq<Criterion>): int
    decreases |cs|
  {
    if cs == [] then 0
    else
      BestSum(cs[..|cs| - 1]) + Best(cs[|cs| - 1])
  }

  /** What an option criterion adds to the maximum answered or not: its best option, weighted. */
  function Best(c: Criterion): int {
    if c.kind.Options? && c.kind.choices != [] then MaxChoiceScore(c.kind.choices) * c.weight else 0
  }

  /** The weighted upper bounds of the numeric criteria of `cs` that received a non-empty answer. */
  function TypedNumericMax(cs: seq<Criterion>, x: Selections): int
    decreases |cs|
  {
    if cs == [] then 0
    else
      var c := cs[|cs| - 1];
      TypedNumericMax(cs[..|cs| - 1], x)
        + (if c.kind.Number? && SelectionOf(x, c.key) != "" then c.kind.max * c.weight else 0)
  }

  /**
   * The SLC maximum: every option criterion's best option, answered or not, plus
   * the bound of each numeric criterion only when it was given a value.
   */
  lemma {:induction false} SlcMaxSplit(cs: seq<Criterion>, x: Selections)
    requires ScorableTable(SlcRule, cs) && AllParse(cs, x)
    ensures TallyOf(SlcRule, cs, x).max == BestSum(cs) + TypedNumericMax(cs, x)
    decreases |cs|
  {
    if cs != [] {
      SlcMaxSplit(cs[..|cs| - 1], x);
    }
  }

  /**
   * An answer that is empty or names no option of its criterion changes nothing:
   * the table is scored as if the key were missing.
   */
  lemma {:induction false} UnansweredSameAsMissing(rule: TableRule, cs: seq<Criterion>, x: Selections, k: string)
    requires ScorableTable(rule, cs) && AllParse(cs, x)
    requires forall i :: 0 <= i < |cs| && cs[i].key == k ==> !Answered(cs[i], x)
    ensures AllParse(cs, x - {k})
    ensures TallyOf(rule, cs, x) == TallyOf(rule, cs, x - {k})
    decreases |cs|
  {
    var y := x - {k};
    assert forall i :: 0 <= i < |cs| ==> Parses(cs[i], y) by {
      forall i | 0 <= i < |cs| ensures Parses(cs[i], y) {
        assert SelectionOf(y, cs[i].key) == "" || SelectionOf(y, cs[i].key) == SelectionOf(x, cs[i].key);
      }
    }
    if cs != [] {
      var n := |cs| - 1;
      var front := cs[..n];
      assert forall i :: 0 <= i < n ==> front[i] == cs[i];
      UnansweredSameAsMissing(rule, front, x, k);
      var c := cs[n];
      if c.key == k {
        assert !Answered(c, x);
        assert SelectionOf(y, c.key) == "";
      } else {
        assert SelectionOf(y, c.key) == SelectionOf(x, c.key);
      }
      assert Contribute(rule, c, x) == Contribute(rule, c, y);
    }
  }

  /** With no criterion answered, a table scores 0 and has no details. */
  lemma {:induction false} NothingAnswered(rule: TableRule, cs: seq<Criterion>, x: Selections)
    requires ScorableTable(rule, cs) && AllParse(cs, x)
    requires forall i :: 0 <= i < |cs| ==> !Answered(cs[i], x)
    ensures TallyOf(rule, cs, x).score == 0 && TallyOf(rule, cs, x).details == map[]
    decreases |cs|
  {
    if cs != [] {
      var n := |cs| - 1;
      NothingAnswered(rule, cs[..n], x);
      ContributionBounds(rule, cs[n], x);
    }
  }

  /** An unanswered last criterion adds nothing to the score. */
  lemma LastUnanswered(rule: TableRule, cs: seq<Criterion>, x: Selections)
    requires ScorableTable(rule, cs) && AllParse(cs, x)
    requires cs != [] && !Answered(cs[|cs| - 1], x)
    ensures TallyOf(rule, cs, x).score == TallyOf(rule, cs[..|cs| - 1], x).score
  {
    ContributionBounds(rule, cs[|cs| - 1], x);
  }

  /** With only criterion `j` answered, the table's score is that criterion's score alone. */
  lemma {:induction false} OnlyAnswered(rule: TableRule, cs: seq<Criterion>, x: Selections, j: nat)
    requires ScorableTable(rule, cs) && AllParse(cs, x)
    requires j < |cs| && forall i :: 0 <= i < |cs| && i != j ==> !Answered(cs[i], x)
    ensures TallyOf(rule, cs, x).score == Contribute(rule, cs[j], x).score
    decreases |cs|
  {
    var n := |cs| - 1;
    if j == n {
      NothingAnswered(rule, cs[..n], x);
    } else {
      OnlyAnswered(rule, cs[..n], x, j);
      LastUnanswered(rule, cs, x);
    }
  }

  /** The two numeric-free tables read every request. */
  lemma {:induction false} NoNumericAllParse(cs: seq<Criterion>, x: Selections)
    requires forall i :: 0 <= i < |cs| ==> cs[i].kind.Options?
    ensures AllParse(cs, x)
  {
  }

  /** A table whose criteria all have options adds nothing for typed numbers. */
  lemma {:induction false} NoNumericMax(cs: seq<Criterion>, x: Selections)
    requires forall i :: 0 <= i < |cs| ==> cs[i].kind.Options?
    ensures TypedNumericMax(cs, x) == 0
    decreases |cs|
  {
    if cs != [] {
      NoNumericMax(cs[..|cs| - 1], x);
    }
  }

  /** A table with one numeric criterion, at `j`, adds that criterion's weighted bound when it was given a value. */
  lemma {:induction false} OneNumericMax(cs: seq<Criterion>, x: Selections, j: nat)
    requires j < |cs| && forall i :: 0 <= i < |cs| && i != j ==> cs[i].kind.Options?
    ensures TypedNumericMax(cs, x)
         == if cs[j].kind.Number? && SelectionOf(x, cs[j].key) != "" then cs[j].kind.max * cs[j].weight else 0
    decreases |cs|
  {
    var n := |cs| - 1;
    if j == n {
      NoNumericMax(cs[..n], x);
    } else {
      OneNumericMax(cs[..n], x, j);
    }
  }

  /** Unit weights make the weight sum the table's length. */
  lemma {:induction false} UnitWeightSum(cs: seq<Criterion>)
    requires forall i :: 0 <= i < |cs| ==> cs[i].weight == 1
    ensures WeightSum(cs) == |cs|
    decreases |cs|
  {
    if cs != [] {
      UnitWeightSum(cs[..|cs| - 1]);
    }
  }

  /** The sum of the first `n` numbers of `s`. */
  function SumTo(s: seq<int>, n: nat): int
    requires n <= |s|
  {
    if n == 0 then 0 else SumTo(s, n - 1) + s[n - 1]
  }

  /** The best-option sum of a prefix of `cs` adds up the per-criterion bests `b`. */
  lemma {:induction false} BestSumOf(cs: seq<Criterion>, b: seq<int>, n: nat)
    requires n <= |b| == |cs| && forall i :: 0 <= i < |cs| ==> Best(cs[i]) == b[i]
    ensures BestSum(cs[..n]) == SumTo(b, n)
  {
    if n > 0 {
      BestSumOf(cs, b, n - 1);
      assert cs[..n][..n - 1] == cs[..n - 1];
    }
  }

  /** Best weighted option of each SLC criterion, in table order (0 for the numeric `slc5`). */
  const SlcBestScores: seq<int> := [3, 10, 5, 0, 10, 5, 4, 5, 4, 5, 4, 3, 4, 3]

  lemma SlcBestA()
    ensures forall i :: 0 <= i < 3 ==> Best(SlcCriteria[i]) == SlcBestScores[i]
  {
  }

  lemma SlcBestB()
    ensures forall i :: 3 <= i < 6 ==> Best(SlcCriteria[i]) == SlcBestScores[i]
  {
  }

  lemma SlcBestC()
    ensures forall i :: 6 <= i < 9 ==> Best(SlcCriteria[i]) == SlcBestScores[i]
  {
  }

  lemma SlcBestD()
    ensures forall i :: 9 <= i < 12 ==> Best(SlcCriteria[i]) == SlcBestScores[i]
  {
  }

  lemma SlcBestE()
    ensures forall i :: 12 <= i < 14 ==> Best(SlcCriteria[i]) == SlcBestScores[i]
  {
  }

  lemma SlcBestScoresSum()
    ensures SumTo(SlcBestScores, 14) == 65
  {
    var s := SlcBestScores;
    assert SumTo(s, 1) == 3;
    assert SumTo(s, 2) == 13;
    assert SumTo(s, 3) == 18;
    assert SumTo(s, 4) == 18;
    assert SumTo(s, 5) == 28;
    assert SumTo(s, 6) == 33;
    assert SumTo(s, 7) == 37;
    assert SumTo(s, 8) == 42;
    assert SumTo(s, 9) == 46;
    assert SumTo(s, 10) == 51;
    assert SumTo(s, 11) == 55;
    assert SumTo(s, 12) == 58;
    assert SumTo(s, 13) == 62;
    assert SumTo(s, 14) == 65;
  }

  /** The option criteria of the SLC table are worth 65 weighted points at best. */
  lemma SlcBestSum()
    ensures BestSum(SlcCriteria) == 65
  {
    SlcBestA(); SlcBestB(); SlcBestC(); SlcBestD(); SlcBestE();
    var cs := SlcCriteria;
    BestSumOf(cs, SlcBestScores, |cs|);
    assert cs[..|cs|] == cs;
    SlcBestScoresSum();
  }

  /** `slc2` is at index 1 of the SLC table; `slc5`, at index 3, is its one numeric criterion; Tables 1 and 2 have none, and all weights are 1. */
  lemma CatalogShape()
    ensures |TechnicalCriteria| == 5 && forall i :: 0 <= i < 5 ==> TechnicalCriteria[i].kind.Options? && TechnicalCriteria[i].weight == 1
    ensures |LegalCriteria| == 5 && forall i :: 0 <= i < 5 ==> LegalCriteria[i].kind.Options? && LegalCriteria[i].weight == 1
    ensures |SlcCriteria| == 14 && SlcCriteria[1] == Slc2 && SlcCriteria[3] == Slc5
    ensures forall i :: 0 <= i < 14 && i != 3 ==> SlcCriteria[i].kind.Options?
  {
  }

  /**
   * A typed `slc5` is clamped into [0, 12] and scored at weight 1; its maximum
   * of 12 counts; and its details entry shows the clamped number of months.
   */
  lemma Slc5Clamped(x: Selections)
    requires NumericAnswersParse(x) && SelectionOf(x, "slc5") != ""
    ensures var v := Decimal.ParseInt(SelectionOf(x, "slc5"));
      var clamped := if v < 0 then 0 else if v > 12 then 12 else v;
      var k := Contribute(SlcRule, Slc5, x);
      && k.score == clamped && k.max == 12
      && k.detail.Some? && k.detail.value.score == clamped
      && exists n: string :: k.detail.value.selection == n + " months" && Decimal.IsIntLiteral(n) && Decimal.ParseInt(n) == clamped
  {
    var v := Decimal.ParseInt(SelectionOf(x, "slc5"));
    var clamped := if v < 0 then 0 else if v > 12 then 12 else v;
    Decimal.ParseNatToString(clamped);
    var n := Decimal.NatToString(clamped);
    assert Contribute(SlcRule, Slc5, x).detail.value.selection == n + " months";
  }

  /** An empty or missing `slc5` adds nothing to the SLC score or maximum. */
  lemma Slc5Empty(x: Selections)
    requires SelectionOf(x, "slc5") == ""
    ensures Contribute(SlcRule, Slc5, x) == Contribution(0, 0, None)
  {
  }

  /** Tables 1 and 2 can be walked under the three-point rule for any request, and each has a maximum of 15. */
  lemma TechnicalTable(x: Selections)
    ensures ScorableTable(ThreePerCriterion, TechnicalCriteria) && AllParse(TechnicalCriteria, x)
    ensures TallyOf(ThreePerCriterion, TechnicalCriteria, x).max == 15
  {
    TechnicalWellFormed();
    CatalogShape();
    NoNumericAllParse(TechnicalCriteria, x);
    UnitWeightSum(TechnicalCriteria);
    ThreePointMax(TechnicalCriteria, x);
  }

  lemma LegalTable(x: Selections)
    ensures ScorableTable(ThreePerCriterion, LegalCriteria) && AllParse(LegalCriteria, x)
    ensures TallyOf(ThreePerCriterion, LegalCriteria, x).max == 15
  {
    LegalWellFormed();
    CatalogShape();
    NoNumericAllParse(LegalCriteria, x);
    UnitWeightSum(LegalCriteria);
    ThreePointMax(LegalCriteria, x);
  }

  /**
   * The SLC table can be walked for any request whose `slc5` parses; its maximum
   * is 65, plus 12 when `slc5` was given a value.
   */
  lemma SlcTable(x: Selections)
    requires NumericAnswersParse(x)
    ensures ScorableTable(SlcRule, SlcCriteria) && AllParse(SlcCriteria, x)
    ensures TallyOf(SlcRule, SlcCriteria, x).max == 65 + if SelectionOf(x, "slc5") != "" then 12 else 0
  {
    SlcScorable(x);
    SlcMaxSplit(SlcCriteria, x);
    SlcBestSum();
    CatalogShape();
    OneNumericMax(SlcCriteria, x, 3);
  }

  lemma SlcScorable(x: Selections)
    requires NumericAnswersParse(x)
    ensures ScorableTable(SlcRule, SlcCriteria) && AllParse(SlcCriteria, x)
  {
    SlcWellFormed();
    CatalogShape();
    assert forall i :: 0 <= i < |SlcCriteria| && i != 3 ==> Parses(SlcCriteria[i], x);
  }

  /** `Math.round`: the nearest integer, halves rounded up. */
  function Round(y: real): (n: int)
    ensures y - 0.5 < n as real <= y + 0.5
  {
    (y + 0.5).Floor
  }

  /** `max > 0 ? score / max * 100 : 0`, before any rounding. */
  function Percentage(score: int, max: int): (p: real)
    ensures max > 0 ==> p * (max as real) == (score as real) * 100.0
    ensures max <= 0 ==> p == 0.0
    ensures 0 <= score <= max ==> 0.0 <= p <= 100.0
  {
    if max > 0 then (score as real / max as real) * 100.0 else 0.0
  }

  /** `Math.round(y * 10) / 10`: `y` to the nearest tenth. */
  function RoundTenth(y: real): (r: real)
    ensures (r * 10.0).Floor as real == r * 10.0
    ensures y - 0.05 < r <= y + 0.05
    ensures 0.0 <= y <= 100.0 ==> 0.0 <= r <= 100.0
  {
    Round(y * 10.0) as real / 10.0
  }

  /** The section a table reports: its tally and its percentage to one decimal, 0 for an empty maximum. */
  function SectionOf(rule: TableRule, cs: seq<Criterion>, x: Selections): Section
    requires ScorableTable(rule, cs) && AllParse(cs, x)
  {
    var t := TallyOf(rule, cs, x);
    Section(t.score, t.max, RoundTenth(Percentage(t.score, t.max)), t.details)
  }

  /** A section's figures are bounded: 0 <= score <= maximum and 0 <= percentage <= 100. */
  lemma SectionBounds(rule: TableRule, cs: seq<Criterion>, x: Selections)
    requires ScorableTable(rule, cs) && AllParse(cs, x)
    ensures var s := SectionOf(rule, cs, x); 0 <= s.score <= s.maxScore && 0.0 <= s.percentage <= 100.0
  {
    TallyBounds(rule, cs, x);
  }

  /** The report built from the three sections: totals, the overall percentage to one decimal, the rating of the unrounded percentage. */
  function ReportFrom(technical: Section, legal: Section, slc: Section): Report {
    var total := technical.score + legal.score + slc.score;
    var max := technical.maxScore + legal.maxScore + slc.maxScore;
    var percentage := Percentage(total, max);
    Report(total, max, RoundTenth(percentage), technical, legal, slc, Rating.SovereigntyRating(percentage))
  }

  /** The report `calculateScore` returns for `x`. */
  function ReportOf(x: Selections): Report
    requires NumericAnswersParse(x)
  {
    TechnicalTable(x);
    LegalTable(x);
    SlcTable(x);
    ReportFrom(SectionOf(ThreePerCriterion, TechnicalCriteria, x),
               SectionOf(ThreePerCriterion, LegalCriteria, x),
               SectionOf(SlcRule, SlcCriteria, x))
  }

  /** One table's section: the walk, then `max > 0 ? Math.round(score / max * 1000) / 10 : 0`. */
  method ScoreSection(rule: TableRule, cs: seq<Criterion>, x: Selections) returns (s: Section)
    requires ScorableTable(rule, cs) && AllParse(cs, x)
    ensures s == SectionOf(rule, cs, x)
  {
    var score, maxScore, details := WalkTable(rule, cs, x);
    var percentage := if maxScore > 0 then Round((score as real / maxScore as real) * 1000.0) as real / 10.0 else 0.0;
    assert maxScore > 0 ==> (score as real / maxScore as real) * 1000.0 == Percentage(score, maxScore) * 10.0;
    s := Section(score, maxScore, percentage, details);
  }

  /** The closing step of `calculateScore`: add up the sections and rate the unrounded percentage. */
  method Summarise(technical: Section, legal: Section, slc: Section) returns (r: Report)
    ensures r == ReportFrom(technical, legal, slc)
  {
    var totalScore := technical.score + legal.score + slc.score;
    var maxScore := technical.maxScore + legal.maxScore + slc.maxScore;
    var percentageScore := if maxScore > 0 then (totalScore as real / maxScore as real) * 100.0 else 0.0;
    r := Report(totalScore, maxScore, Round(percentageScore * 10.0) as real / 10.0,
                technical, legal, slc, Rating.SovereigntyRating(percentageScore));
  }

  /** `calculateScore`: score the three tables in turn, then summarise. */
  method CalculateScore(criteria: Selections) returns (r: Report)
    requires NumericAnswersParse(criteria)
    ensures r == ReportOf(criteria)
  {
    TechnicalTable(criteria);
    LegalTable(criteria);
    SlcTable(criteria);
    var technical := ScoreSection(ThreePerCriterion, TechnicalCriteria, criteria);
    var legal := ScoreSection(ThreePerCriterion, LegalCriteria, criteria);
    var slc := ScoreSection(SlcRule, SlcCriteria, criteria);
    r := Summarise(technical, legal, slc);
  }

  /** Bounded sections make a bounded report, rated by the band of its unrounded percentage. */
  lemma ReportFromBounds(technical: Section, legal: Section, slc: Section)
    requires 0 <= technical.score <= technical.maxScore
    requires 0 <= legal.score <= legal.maxScore
    requires 0 <= slc.score <= slc.maxScore
    ensures var r := ReportFrom(technical, legal, slc);
      && 0 <= r.totalScore <= r.maxScore == technical.maxScore + legal.maxScore + slc.maxScore
      && 0.0 <= r.percentageScore <= 100.0
      && r.rating == Rating.Label(Rating.BandOf(Percentage(r.totalScore, r.maxScore)))
  {
    var r := ReportFrom(technical, legal, slc);
    Rating.SovereigntyRatingBands(Percentage(r.totalScore, r.maxScore));
  }

  /**
   * Every report is bounded: each section and the total lie between 0 and their
   * maximum; the maximum is 95, plus 12 when `slc5` was given a value; the
   * overall percentage lies in [0, 100]; and the rating is the band of the
   * unrounded percentage.
   */
  lemma ReportBounds(x: Selections)
    requires NumericAnswersParse(x)
    ensures var r := ReportOf(x);
      && 0 <= r.technical.score <= r.technical.maxScore == 15
      && 0 <= r.legal.score <= r.legal.maxScore == 15
      && 0 <= r.slc.score <= r.slc.maxScore
      && 0 <= r.totalScore <= r.maxScore
      && r.maxScore == 95 + (if SelectionOf(x, "slc5") != "" then 12 else 0)
      && 0.0 <= r.percentageScore <= 100.0
      && r.rating == Rating.Label(Rating.BandOf(Percentage(r.totalScore, r.maxScore)))
  {
    TechnicalTable(x);
    LegalTable(x);
    SlcTable(x);
    SectionBounds(ThreePerCriterion, TechnicalCriteria, x);
    SectionBounds(ThreePerCriterion, LegalCriteria, x);
    SectionBounds(SlcRule, SlcCriteria, x);
    ReportFromBounds(SectionOf(ThreePerCriterion, TechnicalCriteria, x),
                     SectionOf(ThreePerCriterion, LegalCriteria, x),
                     SectionOf(SlcRule, SlcCriteria, x));
  }

  /** A rounded percentage reaches a whole-number threshold exactly when the percentage is at most 0.05 below it. */
  lemma RoundTenthReaches(p: real, n: int)
    ensures RoundTenth(p) >= n as real <==> p >= n as real - 0.05
  {
    var k := Round(p * 10.0);
    assert RoundTenth(p) == k as real / 10.0;
    assert RoundTenth(p) >= n as real <==> k >= 10 * n;
    if p >= n as real - 0.05 {
      assert (k as real) > p * 10.0 - 0.5 >= (10 * n) as real - 1.0;
    }
  }

  /** Rounding can lift a percentage into the next band: 89.96 is shown as 90.0 but rated High. */
  lemma RoundingCanCrossABand()
    ensures RoundTenth(89.96) == 90.0
    ensures Rating.SovereigntyRating(89.96) == "High Sovereignty"
    ensures Rating.SovereigntyRating(RoundTenth(89.96)) == "Excellent Sovereignty"
  {
    RoundTenthReaches(89.96, 90);
    assert Round(899.6) == 900;
  }

  /**
   * A fractional `slc5` can lift the shown percentage into the next band: every
   * option at its best (95 points) with `slc5 = "1.25"` scores 96.25 of 107,
   * which is shown as 90.0 yet rated High. The model reads integer answers only.
   */
  lemma FractionalAnswerCrossesABand()
    ensures RoundTenth(96.25 / 107.0 * 100.0) == 90.0
    ensures Rating.SovereigntyRating(96.25 / 107.0 * 100.0) == "High Sovereignty"
    ensures Rating.SovereigntyRating(RoundTenth(96.25 / 107.0 * 100.0)) == "Excellent Sovereignty"
  {
    var p := 96.25 / 107.0 * 100.0;
    assert 89.95 < p < 90.0;
    RoundTenthReaches(p, 90);
    assert Round(p * 10.0) == 900;
  }

  /** No whole score out of 95 or 107 lies in the last 0.05 below a band threshold. */
  lemma NoPercentageJustBelow(t: int, m: int, n: int)
    requires m == 95 || m == 107
    requires n == 40 || n == 60 || n == 75 || n == 90
    ensures !(n as real - 0.05 <= Percentage(t, m) < n as real)
  {
  }

  /** For the maxima of this catalog, the rounded percentage gets the same rating as the unrounded one. */
  lemma RoundedRatingAgrees(t: int, m: int)
    requires m == 95 || m == 107
    ensures Rating.SovereigntyRating(RoundTenth(Percentage(t, m))) == Rating.SovereigntyRating(Percentage(t, m))
  {
    var p := Percentage(t, m);
    RoundTenthReaches(p, 40);
    RoundTenthReaches(p, 60);
    RoundTenthReaches(p, 75);
    RoundTenthReaches(p, 90);
    NoPercentageJustBelow(t, m, 40);
    NoPercentageJustBelow(t, m, 60);
    NoPercentageJustBelow(t, m, 75);
    NoPercentageJustBelow(t, m, 90);
  }

  lemma ReportFromRatingAgrees(technical: Section, legal: Section, slc: Section)
    requires var m := technical.maxScore + legal.maxScore + slc.maxScore; m == 95 || m == 107
    ensures ReportFrom(technical, legal, slc).rating
         == Rating.SovereigntyRating(ReportFrom(technical, legal, slc).percentageScore)
  {
    var t := technical.score + legal.score + slc.score;
    var m := technical.maxScore + legal.maxScore + slc.maxScore;
    var p := Percentage(t, m);
    assert ReportFrom(technical, legal, slc) == Report(t, m, RoundTenth(p), technical, legal, slc, Rating.SovereigntyRating(p));
    RoundedRatingAgrees(t, m);
  }

  /**
   * The rating is taken from the unrounded percentage, yet for every request it
   * is also the rating of the percentage the report shows.
   */
  lemma ReportRatingMatchesShownPercentage(x: Selections)
    requires NumericAnswersParse(x)
    ensures ReportOf(x).rating == Rating.SovereigntyRating(ReportOf(x).percentageScore)
  {
    TechnicalTable(x);
    LegalTable(x);
    SlcTable(x);
    ReportFromRatingAgrees(SectionOf(ThreePerCriterion, TechnicalCriteria, x),
                           SectionOf(ThreePerCriterion, LegalCriteria, x),
                           SectionOf(SlcRule, SlcCriteria, x));
  }
}
