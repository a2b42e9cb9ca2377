/**
 * The weighted relevance score of a professor for a candidate: each weighted
 * column's similarity times its weight, summed, over the total weight.
 */
module Scoring {
  import opened Cells
  import opened Similarity
  import opened Domain

  /** A column name and its weight. */
  type Weight = (string, real)

  /** `weight_mapping`, in its declaration order. */
  const WeightMapping: seq<Weight> := [
    ("Diploma", 1.0),
    ("Bachelors Degree", 1.5),
    ("Masters Degree", 2.0),
    ("PhD Field", 3.0),
    ("Years of Experience", 2.0),
    ("Current Department of Work", 2.0)
  ]

  function SumWeights(ws: seq<Weight>): real {
    if ws == [] then 0.0 else SumWeights(ws[..|ws| - 1]) + ws[|ws| - 1].1
  }

  /** `sum(weight_mapping.values())`, the normalising denominator. */
  function TotalWeight(): (t: real)
    ensures t == 11.5
  {
    PrefixSums();
    SumWeights(WeightMapping)
  }

  lemma PrefixSums()
    ensures SumWeights(WeightMapping[..1]) == 1.0
    ensures SumWeights(WeightMapping[..2]) == 2.5
    ensures SumWeights(WeightMapping[..3]) == 4.5
    ensures SumWeights(WeightMapping[..4]) == 7.5
    ensures SumWeights(WeightMapping[..5]) == 9.5
    ensures SumWeights(WeightMapping) == 11.5
  {
    var w := WeightMapping;
    assert w[..1][..0] == [];
    assert w[..2][..1] == w[..1];
    assert w[..3][..2] == w[..2];
    assert w[..4][..3] == w[..3];
    assert w[..5][..4] == w[..4];
    assert w[..5] == w[..|w| - 1];
  }

  /** The similarity of one column between the two rows, missing columns read as `''`. */
  function FieldScore(cfg: Config, field: string, candidate: Row, professor: Row): real {
    CellSimilarity(cfg, field, Get(candidate, field), Get(professor, field))
  }

  function Contribution(cfg: Config, w: Weight, candidate: Row, professor: Row): real {
    FieldScore(cfg, w.0, candidate, professor) * w.1
  }

  /** The accumulated `similarity * weight` over the columns of `ws`, in order. */
  function WeightedSum(cfg: Config, ws: seq<Weight>, candidate: Row, professor: Row): real {
    if ws == [] then 0.0
    else WeightedSum(cfg, ws[..|ws| - 1], candidate, professor) + Contribution(cfg, ws[|ws| - 1], candidate, professor)
  }

  /** The relevance score `calculate_weighted_score` returns. */
  function Score(cfg: Config, candidate: Row, professor: Row): real {
    WeightedSum(cfg, WeightMapping, candidate, professor) / TotalWeight()
  }

  /** One more column of the walk adds its contribution. */
  lemma WeightedSumStep(cfg: Config, ws: seq<Weight>, i: nat, c: Row, p: Row)
    requires i < |ws|
    ensures WeightedSum(cfg, ws[..i + 1], c, p) == WeightedSum(cfg, ws[..i], c, p) + Contribution(cfg, ws[i], c, p)
  {
    assert ws[..i + 1][..i] == ws[..i];
  }

  /** `calculate_weighted_score`: one pass over the weight table, accumulating the weighted similarities. */
  method CalculateWeightedScore(cfg: Config, candidateRow: Row, professorRow: Row) returns (score: real)
    ensures score == Score(cfg, candidateRow, professorRow)
  {
    var totalWeight := TotalWeight();
    var weightedScoreSum := 0.0;
    var i := 0;
    while i < |WeightMapping|
      invariant 0 <= i <= |WeightMapping|
      invariant weightedScoreSum == WeightedSum(cfg, WeightMapping[..i], candidateRow, professorRow)
    {
      var (field, weight) := WeightMapping[i];
      var candidateField := Get(candidateRow, field);
      var professorField := Get(professorRow, field);
      ghost var expected := CellSimilarity(cfg, field, candidateField, professorField);
      var similarityScore: real;
      if candidateField.Str? && professorField.Str? {
        similarityScore := FieldSimilarity(cfg, candidateField.s, professorField.s);
      } else if field == ExperienceField {
        similarityScore := ExperienceSimilarity(candidateField, professorField);
      } else {
        similarityScore := 0.0;
      }
      assert similarityScore == expected;
      WeightedSumStep(cfg, WeightMapping, i, candidateRow, professorRow);
      weightedScoreSum := weightedScoreSum + similarityScore * weight;
      i := i + 1;
    }
    assert WeightMapping[..i] == WeightMapping;
    score := weightedScoreSum / totalWeight;
  }

  /** The score written out: the six weighted similarities over 11.5. */
  lemma ScoreFormula(cfg: Config, c: Row, p: Row)
    ensures Score(cfg, c, p) ==
      (1.0 * FieldScore(cfg, "Diploma", c, p)
       + 1.5 * FieldScore(cfg, "Bachelors Degree", c, p)
       + 2.0 * FieldScore(cfg, "Masters Degree", c, p)
       + 3.0 * FieldScore(cfg, "PhD Field", c, p)
       + 2.0 * FieldScore(cfg, "Years of Experience", c, p)
       + 2.0 * FieldScore(cfg, "Current Department of Work", c, p)) / 11.5
  {
    var w := WeightMapping;
    assert w[..1][..0] == [];
    assert w[..2][..1] == w[..1];
    assert w[..3][..2] == w[..2];
    assert w[..4][..3] == w[..3];
    assert w[..5][..4] == w[..4];
    assert w[..5] == w[..|w| - 1];
    var d := FieldScore(cfg, "Diploma", c, p);
    var b := FieldScore(cfg, "Bachelors Degree", c, p);
    var m := FieldScore(cfg, "Masters Degree", c, p);
    var h := FieldScore(cfg, "PhD Field", c, p);
    var y := FieldScore(cfg, "Years of Experience", c, p);
    var e := FieldScore(cfg, "Current Department of Work", c, p);
    assert WeightedSum(cfg, w[..1], c, p) == d * 1.0;
    assert WeightedSum(cfg, w[..2], c, p) == d * 1.0 + b * 1.5;
    assert WeightedSum(cfg, w[..3], c, p) == d * 1.0 + b * 1.5 + m * 2.0;
    assert WeightedSum(cfg, w[..4], c, p) == d * 1.0 + b * 1.5 + m * 2.0 + h * 3.0;
    assert WeightedSum(cfg, w[..5], c, p) == d * 1.0 + b * 1.5 + m * 2.0 + h * 3.0 + y * 2.0;
  }

  lemma {:induction false} WeightedSumAppend(cfg: Config, a: seq<Weight>, b: seq<Weight>, c: Row, p: Row)
    ensures WeightedSum(cfg, a + b, c, p) == WeightedSum(cfg, a, c, p) + WeightedSum(cfg, b, c, p)
    decreases |b|
  {
    if b == [] {
      assert a + b == a;
    } else {
      var b' := b[..|b| - 1];
      assert (a + b)[..|a + b| - 1] == a + b';
      assert (a + b)[|a + b| - 1] == b[|b| - 1];
      WeightedSumAppend(cfg, a, b', c, p);
    }
  }

  /** Taking one column out of the walk subtracts exactly its contribution. */
  lemma WeightedSumRemove(cfg: Config, ws: seq<Weight>, j: nat, c: Row, p: Row)
    requires j < |ws|
    ensures WeightedSum(cfg, ws, c, p)
         == WeightedSum(cfg, ws[..j] + ws[j + 1..], c, p) + Contribution(cfg, ws[j], c, p)
  {
    var pre, post := ws[..j], ws[j + 1..];
    assert ws == pre + ([ws[j]] + post);
    WeightedSumAppend(cfg, pre, [ws[j]] + post, c, p);
    WeightedSumAppend(cfg, [ws[j]], post, c, p);
    WeightedSumAppend(cfg, pre, post, c, p);
    assert [ws[j]][..0] == [];
  }

  lemma MultisetRemove(ws: seq<Weight>, j: nat)
    requires j < |ws|
    ensures multiset(ws[..j] + ws[j + 1..]) == multiset(ws) - multiset{ws[j]}
  {
    assert ws == ws[..j] + [ws[j]] + ws[j + 1..];
  }

  /** The sum does not depend on the order the weight table is walked in. */
  lemma {:induction false} WeightedSumPermutation(cfg: Config, ws1: seq<Weight>, ws2: seq<Weight>, c: Row, p: Row)
    requires multiset(ws1) == multiset(ws2)
    ensures WeightedSum(cfg, ws1, c, p) == WeightedSum(cfg, ws2, c, p)
    decreases |ws1|
  {
    if ws1 == [] {
      assert |ws2| == |multiset(ws2)| == 0;
    } else {
      var i := |ws1| - 1;
      var x := ws1[i];
      assert x in multiset(ws2) by {
        assert x in multiset(ws1);
      }
      var j :| 0 <= j < |ws2| && ws2[j] == x;
      var rest1 := ws1[..i] + ws1[i + 1..];
      var rest2 := ws2[..j] + ws2[j + 1..];
      MultisetRemove(ws1, i);
      MultisetRemove(ws2, j);
      WeightedSumPermutation(cfg, rest1, rest2, c, p);
      WeightedSumRemove(cfg, ws1, i, c, p);
      WeightedSumRemove(cfg, ws2, j, c, p);
    }
  }

  /** Walking the weight table in any order gives the same score. */
  lemma ScoreOrderIndependent(cfg: Config, order: seq<Weight>, c: Row, p: Row)
    requires multiset(order) == multiset(WeightMapping)
    ensures WeightedSum(cfg, order, c, p) / TotalWeight() == Score(cfg, c, p)
  {
    WeightedSumPermutation(cfg, order, WeightMapping, c, p);
  }

  lemma ScaledBounds(x: real, w: real)
    requires 0.0 <= x <= 1.0 && 0.0 <= w
    ensures 0.0 <= x * w <= w
  {
    assert x * w <= 1.0 * w;
  }

  /** When every column contributes between 0 and its weight, the sum lies between 0 and the total weight. */
  lemma {:induction false} WeightedSumBounds(cfg: Config, ws: seq<Weight>, c: Row, p: Row)
    requires forall k :: 0 <= k < |ws| ==> 0.0 <= Contribution(cfg, ws[k], c, p) <= ws[k].1
    ensures 0.0 <= WeightedSum(cfg, ws, c, p) <= SumWeights(ws)
  {
    if ws != [] {
      var init := ws[..|ws| - 1];
      assert forall k :: 0 <= k < |init| ==> init[k] == ws[k];
      WeightedSumBounds(cfg, init, c, p);
    }
  }

  /** If every weighted column's similarity is in [0, 1], so is the score. */
  lemma ScoreBounds(cfg: Config, c: Row, p: Row)
    requires forall k :: 0 <= k < |WeightMapping| ==> 0.0 <= FieldScore(cfg, WeightMapping[k].0, c, p) <= 1.0
    ensures 0.0 <= Score(cfg, c, p) <= 1.0
  {
    forall k | 0 <= k < |WeightMapping|
      ensures 0.0 <= Contribution(cfg, WeightMapping[k], c, p) <= WeightMapping[k].1
    {
      ScaledBounds(FieldScore(cfg, WeightMapping[k].0, c, p), WeightMapping[k].1);
    }
    WeightedSumBounds(cfg, WeightMapping, c, p);
  }

  lemma ContributionReadsOwnColumn(cfg: Config, w: Weight, c1: Row, c2: Row, p1: Row, p2: Row)
    requires Get(c1, w.0) == Get(c2, w.0) && Get(p1, w.0) == Get(p2, w.0)
    ensures Contribution(cfg, w, c1, p1) == Contribution(cfg, w, c2, p2)
  {
  }

  /**
   * Columns outside the weight table play no part: candidate rows that agree on
   * the weighted columns, scored against professor rows that agree on them too,
   * accumulate the same sum.
   */
  lemma {:induction false} WeightedSumIgnoresOtherFields(cfg: Config, ws: seq<Weight>, c1: Row, c2: Row, p1: Row, p2: Row)
    requires forall k :: 0 <= k < |ws| ==> Get(c1, ws[k].0) == Get(c2, ws[k].0)
    requires forall k :: 0 <= k < |ws| ==> Get(p1, ws[k].0) == Get(p2, ws[k].0)
    ensures WeightedSum(cfg, ws, c1, p1) == WeightedSum(cfg, ws, c2, p2)
  {
    if ws != [] {
      var init, last := ws[..|ws| - 1], ws[|ws| - 1];
      assert forall k :: 0 <= k < |init| ==> init[k] == ws[k];
      WeightedSumIgnoresOtherFields(cfg, init, c1, c2, p1, p2);
      ContributionReadsOwnColumn(cfg, last, c1, c2, p1, p2);
    }
  }

  /** The score reads only the six weighted columns of either row; `Name` and any other column are ignored. */
  lemma ScoreIgnoresOtherFields(cfg: Config, c1: Row, c2: Row, p1: Row, p2: Row)
    requires forall k :: 0 <= k < |WeightMapping| ==> Get(c1, WeightMapping[k].0) == Get(c2, WeightMapping[k].0)
    requires forall k :: 0 <= k < |WeightMapping| ==> Get(p1, WeightMapping[k].0) == Get(p2, WeightMapping[k].0)
    ensures Score(cfg, c1, p1) == Score(cfg, c2, p2)
  {
    WeightedSumIgnoresOtherFields(cfg, WeightMapping, c1, c2, p1, p2);
  }

  /** A column whose value compares fully with itself: text, or parsable experience. */
  predicate SelfComparable(field: string, row: Row) {
    Get(row, field).Str? || (field == ExperienceField && AsInt(Get(row, field)).Some?)
  }

  lemma {:induction false} WeightedSumSelf(cfg: Config, ws: seq<Weight>, row: Row)
    requires Irreflexive(cfg.domains)
    requires forall k :: 0 <= k < |ws| ==> SelfComparable(ws[k].0, row)
    ensures WeightedSum(cfg, ws, row, row) == SumWeights(ws)
  {
    if ws != [] {
      var last := ws[|ws| - 1];
      WeightedSumSelf(cfg, ws[..|ws| - 1], row);
      assert SelfComparable(last.0, row);
      if Get(row, last.0).Str? {
        ExactMatch(cfg, Get(row, last.0).s);
      }
      assert FieldScore(cfg, last.0, row, row) == 1.0;
    }
  }

  /**
   * A profile scored against itself gets 1.0 when every weighted column is
   * text or parsable experience, for any table in which no field lists itself
   * (`domain_mapping` is one, by `NotSelfRelated`).
   */
  lemma SelfScore(cfg: Config, row: Row)
    requires Irreflexive(cfg.domains)
    requires forall k :: 0 <= k < |WeightMapping| ==> SelfComparable(WeightMapping[k].0, row)
    ensures Score(cfg, row, row) == 1.0
  {
    WeightedSumSelf(cfg, WeightMapping, row);
  }
}
