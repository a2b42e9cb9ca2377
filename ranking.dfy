/**
 * Candidate lookup and the ranked panel: score every professor, sort by
 * relevance score descending and then by experience descending, keep the
 * first `panel_count`.
 */
module Ranking {
  import opened Wrappers
  import opened Cells
  import opened Similarity
  import Scoring

  const NameField := "Name"

  /** One row of the result: the professor's name, the score, the experience cell (or "N/A"). */
  datatype Scored = Scored(professor: Cell, score: real, experience: Cell)

  /** What the lookup-and-rank step answers: a panel, a 404, or the generic failure (a missing `Name` column, or an empty professor sheet). */
  datatype Outcome = Panel(entries: seq<Scored>) | NotFound | Failed

  /** `professor_row.get('Years of Experience', 'N/A')` */
  function ExperienceOf(professor: Row): Cell {
    if ExperienceField in professor then professor[ExperienceField] else Str("N/A")
  }

  // ---- The experience sort key -------------------------------------------

  /** Python's `a <= b` on strings: code-point lexicographic order. */
  predicate LexAtMost(a: string, b: string)
    decreases |a|
  {
    |a| == 0 || (|b| > 0 && (a[0] < b[0] || (a[0] == b[0] && LexAtMost(a[1..], b[1..]))))
  }

  lemma {:induction false} LexTotal(a: string, b: string)
    ensures LexAtMost(a, b) || LexAtMost(b, a)
    decreases |a|
  {
    if |a| > 0 && |b| > 0 && a[0] == b[0] {
      LexTotal(a[1..], b[1..]);
    }
  }

  lemma {:induction false} LexTransitive(a: string, b: string, c: string)
    requires LexAtMost(a, b) && LexAtMost(b, c)
    ensures LexAtMost(a, c)
    decreases |a|
  {
    if |a| > 0 && a[0] == b[0] && b[0] == c[0] {
      LexTransitive(a[1..], b[1..], c[1..]);
    }
  }

  /**
   * Where a kind of cell sorts in a descending sort with empty cells last:
   * text above numbers (numbers sort before text ascending), NaN at the end.
   */
  function KindRank(c: Cell): nat {
    match c
    case Str(_) => 2
    case Int(_) => 1
    case Float(_) => 1
    case NaN => 0
  }

  function NumericValue(c: Cell): real
    requires c.Int? || c.Float?
  {
    if c.Int? then c.i as real else c.x
  }

  /** `a` may precede `b` when experience is sorted descending. */
  predicate ExperienceAtLeast(a: Cell, b: Cell) {
    if KindRank(a) != KindRank(b) then KindRank(a) > KindRank(b)
    else if a.Str? then LexAtMost(b.s, a.s)
    else if a.NaN? then true
    else NumericValue(b) <= NumericValue(a)
  }

  lemma ExperienceTotal(a: Cell, b: Cell)
    ensures ExperienceAtLeast(a, b) || ExperienceAtLeast(b, a)
  {
    if a.Str? && b.Str? {
      LexTotal(a.s, b.s);
    }
  }

  lemma ExperienceTransitive(a: Cell, b: Cell, c: Cell)
    requires ExperienceAtLeast(a, b) && ExperienceAtLeast(b, c)
    ensures ExperienceAtLeast(a, c)
  {
    if a.Str? && b.Str? && c.Str? {
      LexTransitive(c.s, b.s, a.s);
    }
  }

  // ---- The ranking order ---------------------------------------------------

  /** `x` may precede `y`: a higher score, or an equal score and at least as much experience. */
  predicate RankedBefore(x: Scored, y: Scored) {
    x.score > y.score || (x.score == y.score && ExperienceAtLeast(x.experience, y.experience))
  }

  lemma RankedTotal(x: Scored, y: Scored)
    ensures RankedBefore(x, y) || RankedBefore(y, x)
  {
    ExperienceTotal(x.experience, y.experience);
  }

  lemma RankedTransitive(x: Scored, y: Scored, z: Scored)
    requires RankedBefore(x, y) && RankedBefore(y, z)
    ensures RankedBefore(x, z)
  {
    if x.score == y.score == z.score {
      ExperienceTransitive(x.experience, y.experience, z.experience);
    }
  }

  /** Score non-increasing, and experience non-increasing among equal scores. */
  predicate Sorted(s: seq<Scored>) {
    forall i, j :: 0 <= i < j < |s| ==> RankedBefore(s[i], s[j])
  }

  /** Puts `x` in front of the first element it may precede. */
  function Insert(x: Scored, s: seq<Scored>): (r: seq<Scored>)
    ensures multiset(r) == multiset(s) + multiset{x}
    decreases |s|
  {
    if s == [] then [x]
    else if RankedBefore(x, s[0]) then [x] + s
    else
      assert s == [s[0]] + s[1..];
      [s[0]] + Insert(x, s[1..])
  }

  lemma {:induction false} InsertSorted(x: Scored, s: seq<Scored>)
    requires Sorted(s)
    ensures Sorted(Insert(x, s))
    decreases |s|
  {
    if s == [] {
    } else if RankedBefore(x, s[0]) {
      var r := [x] + s;
      forall i, j | 0 <= i < j < |r|
        ensures RankedBefore(r[i], r[j])
      {
        if i == 0 && j > 1 {
          RankedTransitive(x, s[0], s[j - 1]);
        }
      }
    } else {
      RankedTotal(x, s[0]);
      var t := Insert(x, s[1..]);
      InsertSorted(x, s[1..]);
      forall k | 0 <= k < |t|
        ensures RankedBefore(s[0], t[k])
      {
        assert t[k] in multiset(t);
        if t[k] != x {
          assert t[k] in multiset(s[1..]);
          var m :| 0 <= m < |s[1..]| && s[1..][m] == t[k];
          assert s[m + 1] == t[k];
        }
      }
      var r := [s[0]] + t;
      forall i, j | 0 <= i < j < |r|
        ensures RankedBefore(r[i], r[j])
      {
        if i > 0 {
          assert r[i] == t[i - 1] && r[j] == t[j - 1];
        } else {
          assert r[j] == t[j - 1];
        }
      }
    }
  }

  /** The sort: a sorted permutation of its input (equal keys keep their input order). */
  function SortRanked(s: seq<Scored>): (r: seq<Scored>)
    ensures Sorted(r)
    ensures multiset(r) == multiset(s)
    decreases |s|
  {
    if s == [] then []
    else
      var t := SortRanked(s[1..]);
      InsertSorted(s[0], t);
      assert s == [s[0]] + s[1..];
      Insert(s[0], t)
  }

  /** How many rows `head(n)` keeps of `len`: the first n, or for negative n all but the last -n. */
  function HeadLength(len: nat, n: int): (m: nat)
    ensures m <= len
  {
    if 0 <= n then (if n <= len then n else len)
    else if len + n >= 0 then len + n else 0
  }

  /** `DataFrame.head(n)`, which is `iloc[:n]`. */
  function Head(s: seq<Scored>, n: int): (r: seq<Scored>)
    ensures r <= s
    ensures 0 <= n ==> |r| == (if n <= |s| then n else |s|)
    ensures n < 0 ==> |r| == (if |s| + n >= 0 then |s| + n else 0)
  {
    s[..HeadLength(|s|, n)]
  }

  // ---- Scoring every professor ----------------------------------------------

  predicate AllNamed(rows: seq<Row>) {
    forall k :: 0 <= k < |rows| ==> NameField in rows[k]
  }

  /** The record built for one professor. */
  function EntryFor(cfg: Config, candidate: Row, professor: Row): Scored
    requires NameField in professor
  {
    Scored(professor[NameField], Scoring.Score(cfg, candidate, professor), ExperienceOf(professor))
  }

  /** `relevance_scores_list`: one record per professor, in sheet order. */
  function Entries(cfg: Config, candidate: Row, professors: seq<Row>): (r: seq<Scored>)
    requires AllNamed(professors)
    ensures |r| == |professors|
    ensures forall k :: 0 <= k < |professors| ==> r[k] == EntryFor(cfg, candidate, professors[k])
  {
    if professors == [] then []
    else
      var n := |professors| - 1;
      Entries(cfg, candidate, professors[..n]) + [EntryFor(cfg, candidate, professors[n])]
  }

  // ---- Candidate lookup -------------------------------------------------

  predicate NameIs(row: Row, name: string) {
    NameField in row && row[NameField] == Str(name)
  }

  /** `candidates[candidates['Name'] == name].iloc[0]`: the index of the first row with that name. */
  function FindCandidate(rows: seq<Row>, name: string): (r: Option<nat>)
    ensures r.Some? ==> r.value < |rows| && NameIs(rows[r.value], name)
    ensures r.Some? ==> forall k :: 0 <= k < r.value ==> !NameIs(rows[k], name)
    ensures r.None? ==> forall k :: 0 <= k < |rows| ==> !NameIs(rows[k], name)
    decreases |rows|
  {
    if rows == [] then None
    else if NameIs(rows[0], name) then Some(0)
    else match FindCandidate(rows[1..], name)
      case None => None
      case Some(i) => Some(i + 1)
  }

  // ---- The whole step as a specification --------------------------------

  /**
   * The ranked panel for one resolved candidate, or the failure. A professor
   * without a name fails in the loop; an empty professor sheet builds a table
   * with no columns at all, and sorting it by the score column fails.
   */
  function RankSpec(cfg: Config, candidate: Row, professors: seq<Row>, panelCount: int): Outcome {
    if professors != [] && AllNamed(professors) then Panel(Head(SortRanked(Entries(cfg, candidate, professors)), panelCount))
    else Failed
  }

  /** Lines 121-137 of `get_interviewers`: look the candidate up, then rank. */
  function Interviewers(cfg: Config, candidates: seq<Row>, professors: seq<Row>, name: string, panelCount: int): Outcome {
    if !AllNamed(candidates) then Failed
    else match FindCandidate(candidates, name)
      case None => NotFound
      case Some(i) => RankSpec(cfg, candidates[i], professors, panelCount)
  }

  /** A prefix of a sorted permutation is sorted, drawn from the input, and ranked ahead of the rest. */
  lemma {:induction false} SortedPrefixIsTop(all: seq<Scored>, sorted: seq<Scored>, m: nat)
    requires Sorted(sorted) && multiset(sorted) == multiset(all) && m <= |sorted|
    ensures Sorted(sorted[..m])
    ensures multiset(sorted[..m]) <= multiset(all)
    ensures forall e | e in multiset(all) - multiset(sorted[..m]) ::
              forall i | 0 <= i < m :: RankedBefore(sorted[..m][i], e)
  {
    var panel := sorted[..m];
    assert sorted == panel + sorted[m..];
    assert multiset(sorted) == multiset(panel) + multiset(sorted[m..]);
    forall e | e in multiset(all) - multiset(panel)
      ensures forall i | 0 <= i < m :: RankedBefore(panel[i], e)
    {
      assert e in multiset(sorted[m..]);
      var j :| 0 <= j < |sorted[m..]| && sorted[m..][j] == e;
      assert sorted[m + j] == e;
    }
  }

  /** Every record in a sub-multiset of the scored list is the record of some professor row. */
  lemma DrawnFromProfessors(cfg: Config, candidate: Row, professors: seq<Row>, panel: seq<Scored>)
    requires AllNamed(professors)
    requires multiset(panel) <= multiset(Entries(cfg, candidate, professors))
    ensures forall e | e in panel ::
              exists k :: 0 <= k < |professors| && e == EntryFor(cfg, candidate, professors[k])
  {
    var all := Entries(cfg, candidate, professors);
    forall e | e in panel
      ensures exists k :: 0 <= k < |professors| && e == EntryFor(cfg, candidate, professors[k])
    {
      assert e in multiset(panel);
      assert e in multiset(all);
      var k :| 0 <= k < |all| && all[k] == e;
    }
  }

  /** What a panel guarantees: sorted, drawn from the scored professors, the best ones, `head`'s length. */
  lemma PanelProperties(cfg: Config, candidate: Row, professors: seq<Row>, panelCount: int)
    requires AllNamed(professors)
    ensures var all := Entries(cfg, candidate, professors);
            var panel := Head(SortRanked(all), panelCount);
            && Sorted(panel)
            && |panel| == HeadLength(|professors|, panelCount)
            && multiset(panel) <= multiset(all)
            && (forall e | e in multiset(all) - multiset(panel) ::
                  forall i | 0 <= i < |panel| :: RankedBefore(panel[i], e))
            && (forall e | e in panel ::
                  exists k :: 0 <= k < |professors| && e == EntryFor(cfg, candidate, professors[k]))
  {
    var all := Entries(cfg, candidate, professors);
    var sorted := SortRanked(all);
    SortedPrefixIsTop(all, sorted, HeadLength(|professors|, panelCount));
    DrawnFromProfessors(cfg, candidate, professors, Head(sorted, panelCount));
  }

  /** Scoring one more professor appends its record. */
  lemma EntriesStep(cfg: Config, candidate: Row, professors: seq<Row>, i: nat)
    requires i < |professors| && AllNamed(professors[..i]) && NameField in professors[i]
    ensures AllNamed(professors[..i + 1])
    ensures Entries(cfg, candidate, professors[..i + 1])
         == Entries(cfg, candidate, professors[..i]) + [EntryFor(cfg, candidate, professors[i])]
  {
    assert professors[..i + 1][..i] == professors[..i];
  }

  /**
   * The loop of `get_interviewers`: score each professor and append its
   * record (a professor row without `Name` raises), then sort and take the
   * head; sorting the column-less table an empty sheet gives raises too.
   */
  method Rank(cfg: Config, candidate: Row, professors: seq<Row>, panelCount: int) returns (out: Outcome)
    ensures out == RankSpec(cfg, candidate, professors, panelCount)
    ensures out.Failed? <==> professors == [] || !AllNamed(professors)
    ensures out.Panel? ==> Sorted(out.entries)
    ensures out.Panel? ==> |out.entries| == HeadLength(|professors|, panelCount)
    ensures out.Panel? ==> multiset(out.entries) <= multiset(Entries(cfg, candidate, professors))
    ensures out.Panel? ==>
      forall e | e in multiset(Entries(cfg, candidate, professors)) - multiset(out.entries) ::
        forall i | 0 <= i < |out.entries| :: RankedBefore(out.entries[i], e)
    ensures out.Panel? ==>
      forall e | e in out.entries ::
        exists k :: 0 <= k < |professors| && e == EntryFor(cfg, candidate, professors[k])
  {
    var relevanceScores: seq<Scored> := [];
    var i := 0;
    while i < |professors|
      invariant 0 <= i <= |professors|
      invariant AllNamed(professors[..i])
      invariant relevanceScores == Entries(cfg, candidate, professors[..i])
    {
      var professorRow := professors[i];
      var score := Scoring.CalculateWeightedScore(cfg, candidate, professorRow);
      if NameField !in professorRow {
        return Failed;
      }
      EntriesStep(cfg, candidate, professors, i);
      relevanceScores := relevanceScores + [Scored(professorRow[NameField], score, ExperienceOf(professorRow))];
      i := i + 1;
    }
    assert professors[..i] == professors;
    if |relevanceScores| == 0 {
      return Failed;
    }
    PanelProperties(cfg, candidate, professors, panelCount);
    out := Panel(Head(SortRanked(relevanceScores), panelCount));
  }

  /** Lines 121-137 of `get_interviewers`, from the parsed sheets to the outcome. */
  method GetInterviewers(cosine: Cosine, candidates: seq<Row>, professors: seq<Row>, candidateName: string, panelCount: int)
    returns (out: Outcome)
    ensures out == Interviewers(Program(cosine), candidates, professors, candidateName, panelCount)
    ensures out == NotFound <==>
      AllNamed(candidates) && forall k :: 0 <= k < |candidates| ==> !NameIs(candidates[k], candidateName)
    ensures out.Failed? <==>
      !AllNamed(candidates)
      || ((exists k :: 0 <= k < |candidates| && NameIs(candidates[k], candidateName))
          && (professors == [] || !AllNamed(professors)))
    ensures out.Panel? ==>
      exists k :: 0 <= k < |candidates| && NameIs(candidates[k], candidateName)
        && out == RankSpec(Program(cosine), candidates[k], professors, panelCount)
        && (forall j :: 0 <= j < k ==> !NameIs(candidates[j], candidateName))
  {
    if !AllNamed(candidates) {
      return Failed;
    }
    var found := FindCandidate(candidates, candidateName);
    if found.None? {
      return NotFound;
    }
    out := Rank(Program(cosine), candidates[found.value], professors, panelCount);
  }

  /** Scores 0.9, 0.7, 0.9 with experience 5, 8, 3 and a panel of two: the two 0.9s, 5 years before 3. */
  lemma RankingExample()
    ensures Head(SortRanked([Scored(Str("A"), 0.9, Int(5)), Scored(Str("B"), 0.7, Int(8)), Scored(Str("C"), 0.9, Int(3))]), 2)
         == [Scored(Str("A"), 0.9, Int(5)), Scored(Str("C"), 0.9, Int(3))]
  {
    var a, b, c := Scored(Str("A"), 0.9, Int(5)), Scored(Str("B"), 0.7, Int(8)), Scored(Str("C"), 0.9, Int(3));
    assert !RankedBefore(b, c) && RankedBefore(a, c);
    assert Insert(b, [c]) == [c, b] by {
      assert [c][1..] == [];
    }
    assert Insert(a, [c, b]) == [a, c, b];
    assert SortRanked([c]) == [c] by {
      assert [c][1..] == [];
    }
    assert SortRanked([b, c]) == [c, b] by {
      assert [b, c][1..] == [c];
    }
    assert SortRanked([a, b, c]) == [a, c, b] by {
      assert [a, b, c][1..] == [b, c];
    }
    assert [a, c, b][..2] == [a, c];
  }

  /** An empty professor sheet is an error once the candidate is found, whatever the panel size. */
  lemma NoProfessorsFails(cfg: Config, candidates: seq<Row>, name: string, panelCount: int)
    ensures forall candidate :: RankSpec(cfg, candidate, [], panelCount) == Failed
    ensures Interviewers(cfg, candidates, [], name, panelCount) == Failed
         || Interviewers(cfg, candidates, [], name, panelCount) == NotFound
  {
  }
}
