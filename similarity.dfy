/**
 * Per-field similarity: the domain-table / exact-match / embedding policy for
 * text, and the linear experience decay for the experience column.
 */
module Similarity {
  import opened Wrappers
  import opened Cells
  import opened Domain

  /** The sentence-embedding cosine, an external model call; nothing is assumed about its range. */
  type Cosine = (string, string) -> real

  /**
   * The two process-wide values the scoring reads: the relatedness table
   * (the program uses `DomainMapping`) and the embedding cosine.
   */
  datatype Config = Config(domains: Table, cosine: Cosine)

  /** The configuration the program runs with, for a given embedding. */
  function Program(cosine: Cosine): Config {
    Config(DomainMapping, cosine)
  }

  /** The one column with a numeric rule. */
  const ExperienceField := "Years of Experience"

  /** `get_field_similarity`: related fields first, then exact match, then the embedding cosine. */
  function FieldSimilarity(cfg: Config, field1: string, field2: string): real {
    if Related(cfg.domains, field1, field2) then 0.8
    else if field1 == field2 then 1.0
    else cfg.cosine(field1, field2)
  }

  /** Equal texts score 1.0 whatever the embedding says, including two empty (missing) fields. */
  lemma ExactMatch(cfg: Config, v: string)
    requires Irreflexive(cfg.domains)
    ensures FieldSimilarity(cfg, v, v) == 1.0
  {
    assert !Related(cfg.domains, v, v) by {
      if v in cfg.domains {
        assert v !in cfg.domains[v];
      }
    }
  }

  /** With the program's table, equal texts always score 1.0. */
  lemma ProgramExactMatch(cosine: Cosine, v: string)
    ensures FieldSimilarity(Program(cosine), v, v) == 1.0
  {
    NotSelfRelated(v);
    ExactMatch(Program(cosine), v);
  }

  /** A field listed under the other's key scores exactly 0.8, even when the two are equal. */
  lemma RelatedScoresBonus(cfg: Config, field1: string, field2: string)
    requires Related(cfg.domains, field1, field2)
    ensures FieldSimilarity(cfg, field1, field2) == 0.8
  {
  }

  /** Distinct unrelated texts get the cosine unchanged, with no clamping. */
  lemma UnrelatedUsesCosine(cfg: Config, field1: string, field2: string)
    requires !Related(cfg.domains, field1, field2) && field1 != field2
    ensures FieldSimilarity(cfg, field1, field2) == cfg.cosine(field1, field2)
  {
  }

  /** The lookup direction matters: the swapped pair falls through to the embedding. */
  lemma SimilarityIsAsymmetric(cosine: Cosine)
    ensures FieldSimilarity(Program(cosine), "Mechanical Engineering", "Automobile Engineering") == 0.8
    ensures FieldSimilarity(Program(cosine), "Automobile Engineering", "Mechanical Engineering")
         == cosine("Automobile Engineering", "Mechanical Engineering")
  {
    RelatedIsAsymmetric();
  }

  /** A negative cosine comes out negative: the result is not clamped to [0, 1]. */
  lemma NegativeCosinePassesThrough()
    ensures FieldSimilarity(Program((a, b) => -0.25), "History", "Robotics") == -0.25
  {
    assert "History" !in DomainMapping;
  }

  function Abs(n: int): nat {
    if n < 0 then -n else n
  }

  /**
   * The experience rule: both values go through `int(v or 0)`; if either
   * fails the similarity is 0, otherwise `1 - |a - b| / 30`.
   */
  function ExperienceSimilarity(candidate: Cell, professor: Cell): real {
    match (AsInt(candidate), AsInt(professor))
    case (Some(a), Some(b)) => 1.0 - (Abs(a - b) as real) / 30.0
    case _ => 0.0
  }

  /** Within a 30-year gap the experience similarity lies in [0, 1]; beyond it, it is negative. */
  lemma ExperienceRange(candidate: Cell, professor: Cell, a: int, b: int)
    requires AsInt(candidate) == Some(a) && AsInt(professor) == Some(b)
    ensures ExperienceSimilarity(candidate, professor) == 1.0 - (Abs(a - b) as real) / 30.0
    ensures Abs(a - b) <= 30 <==> 0.0 <= ExperienceSimilarity(candidate, professor) <= 1.0
    ensures Abs(a - b) > 30 <==> ExperienceSimilarity(candidate, professor) < 0.0
    ensures a == b <==> ExperienceSimilarity(candidate, professor) == 1.0
  {
  }

  /** A value `int()` rejects on either side gives 0, never an error. */
  lemma ExperienceParseFailure(candidate: Cell, professor: Cell)
    requires AsInt(candidate).None? || AsInt(professor).None?
    ensures ExperienceSimilarity(candidate, professor) == 0.0
  {
  }

  /** The comparison does not depend on which side is the candidate. */
  lemma ExperienceSymmetric(candidate: Cell, professor: Cell)
    ensures ExperienceSimilarity(candidate, professor) == ExperienceSimilarity(professor, candidate)
  {
  }

  /**
   * The similarity of one weighted column: two texts use the text policy
   * (even in the experience column), any other pair uses the experience rule
   * in the experience column and scores 0 elsewhere.
   */
  function CellSimilarity(cfg: Config, field: string, candidate: Cell, professor: Cell): real {
    if candidate.Str? && professor.Str? then FieldSimilarity(cfg, candidate.s, professor.s)
    else if field == ExperienceField then ExperienceSimilarity(candidate, professor)
    else 0.0
  }

  /** Two text cells take the text path in every column, the experience column included. */
  lemma TextCellsUseText(cfg: Config, field: string, candidate: string, professor: string)
    ensures CellSimilarity(cfg, field, Str(candidate), Str(professor)) == FieldSimilarity(cfg, candidate, professor)
  {
  }

  /** Outside the experience column a pair that is not two texts scores 0, even equal numbers. */
  lemma NonTextScoresZero(cfg: Config, field: string, candidate: Cell, professor: Cell)
    requires field != ExperienceField && !(candidate.Str? && professor.Str?)
    ensures CellSimilarity(cfg, field, candidate, professor) == 0.0
  {
  }

  /** A Computer Science bachelor against an Artificial Intelligence one scores the 0.8 bonus. */
  lemma RelatedDegreesExample(cosine: Cosine)
    ensures CellSimilarity(Program(cosine), "Bachelors Degree", Str("Computer Science"), Str("Artificial Intelligence")) == 0.8
  {
  }

  /** Numeric experience 5 against 10 scores 1 - 5/30; a missing value counts as 0 years. */
  lemma NumericExperienceExample(cfg: Config)
    ensures CellSimilarity(cfg, ExperienceField, Int(5), Int(10)) == 1.0 - 5.0 / 30.0
    ensures CellSimilarity(cfg, ExperienceField, Str(""), Int(6)) == 0.8
  {
  }

  /** Experience written as text on both sides is compared as text, not as numbers. */
  lemma TextExperienceExample(cosine: Cosine)
    ensures CellSimilarity(Program(cosine), ExperienceField, Str("5"), Str("10")) == cosine("5", "10")
  {
    assert "5" !in DomainMapping;
  }

  /** Unparsable or empty experience contributes 0; so do equal numbers in a text column. */
  lemma ZeroSimilarityExamples(cfg: Config)
    ensures CellSimilarity(cfg, ExperienceField, Str("N/A"), Int(5)) == 0.0
    ensures CellSimilarity(cfg, ExperienceField, Int(5), NaN) == 0.0
    ensures CellSimilarity(cfg, "PhD Field", Int(3), Int(3)) == 0.0
  {
    AsIntRejects();
  }
}
