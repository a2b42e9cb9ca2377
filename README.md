# Interviewer-panel matching engine, modelled in Dafny

The system is a small Flask service. A user uploads a spreadsheet with a
`Candidates` sheet and a `Professors` sheet and names one candidate. The
service scores every professor against that candidate and returns the
`panel_count` best-ranked professors.

This project models the matching engine in `app.py`:

- **Tables.** `domain_mapping` maps a field of study to the fields listed as
  close to it (module `Domain`). `weight_mapping` gives six columns their
  weights 1, 1.5, 2, 3, 2 and 2, for a total of 11.5 (module `Scoring`).
- **Per-field similarity.** `get_field_similarity` checks its cases in this
  order: a listed related field gives 0.8, equal text gives 1.0, anything
  else gives the embedding cosine. Experience uses `int(v or 0)` parsing with
  linear decay over 30 years, and a failed parse gives 0. Every other
  non-text pair gives 0 (module `Similarity`).
- **Python's `int()`.** Module `PyInt` models it on strings, and module
  `Cells` models `int(v or 0)` on cells.
- **Weighted score.** `calculate_weighted_score` is a method whose loop
  accumulates `similarity * weight`. It is proved equal to the function
  `Scoring.Score`, and the properties of the score are proved as lemmas about
  that function.
- **Lookup and ranking.** This is lines 121-137 of `get_interviewers`: take
  the first candidate row with the given `Name` or answer "not found"; score
  every professor in a loop; sort by score descending, then by experience
  descending; keep `head(panel_count)` (module `Ranking`).
- **Upload check.** `validate_file` (module `Upload`).

Modelling choices:

- **Cells.** A cell is `Str`, `Int`, `Float` or `NaN`, the kinds pandas delivers for text and numeric columns.
  `NaN` is an empty cell. `Float` is there because pandas reads an integer
  column that has a blank as floats.
- **Rows.** A row is a `map` from column name to cell. A key missing from the
  map stands for a column the sheet does not have, so `row.get(field, '')`
  gives `Str("")`.
- **Embedding.** The sentence-embedding cosine is a parameter
  `cosine: (string, string) -> real`. Nothing is assumed about its range: the
  code never clamps it, so neither does the model.
- **Configuration.** The scoring members take a `Similarity.Config` holding
  the relatedness table and the cosine. The program's own configuration is
  `Similarity.Program(cosine)`, whose table is `Domain.DomainMapping`; the
  lemmas that depend on the table's contents say so by taking that
  configuration or by requiring the property of the table they use.
- **Arithmetic.** All arithmetic is exact `real`.
- **Experience as a sort key.** `Ranking.ExperienceAtLeast` orders it the way
  pandas' descending sort with `na_position='last'` does. Numbers compare by
  value. Text compares lexicographically by code point and comes before
  numbers, which is how pandas sorts mixed integer/text keys. Empty cells
  always come last.
- **Failed outcome.** `Ranking.Outcome.Failed` is the generic-error response.
  It comes in two cases. In the first, a sheet has no `Name` column, so
  looking up `Name` raises `KeyError`. In the second, the professor sheet is
  empty: the loop collects no records, the resulting table has no columns at
  all, and sorting it by `Relevance Score` raises `KeyError`. The handler's
  catch-all turns either into the error response.
- **Whitespace in `int()`.** Python's `int()` on text skips only the C-locale
  blanks (tab, line feed, vertical tab, form feed, carriage return, space) and
  the non-ASCII characters `str.isspace` accepts. The separators U+001C to
  U+001F count as whitespace for `str.isspace` but not for `int()`
  (`PyInt.SeparatorIsNotSkipped`).

## Behaviour worth noting

- **Text-valued experience.** Two experience cells that are both text (for
  example `"5"` and `"10"`) take the text path, that is the embedding cosine,
  not the numeric rule (`Similarity.TextExperienceExample`). The numeric rule
  applies only when at least one side is not a string.
- **Zero or negative panel size.** A panel size of 0 or less does not always
  give an empty panel. `head(n)` with negative `n` keeps all but the last
  `-n` rows (`Ranking.Head`).
- **Relatedness in every text column.** Relatedness applies to the values of
  every text column, not only the degree columns: two department names
  listed in the table also score 0.8.

## Model

| member | source | states |
|---|---|---|
| `Domain.DomainMapping` | app.py:21-41 | `domain_mapping`, entry for entry; its properties are `Domain.NotSelfRelated` and `Domain.RelatedIsAsymmetric` |
| `Domain.Related` | app.py:69 | `field1 in domain_mapping and field2 in domain_mapping[field1]`, for any table; used by `Similarity.RelatedScoresBonus` |
| `Similarity.FieldSimilarity` | app.py:67-74 | `get_field_similarity`: 0.8 for a related pair, else 1.0 for equal texts, else the cosine; its properties are `ExactMatch`, `ProgramExactMatch`, `RelatedScoresBonus`, `UnrelatedUsesCosine`, `SimilarityIsAsymmetric` and `NegativeCosinePassesThrough` |
| `Similarity.ExperienceSimilarity` | app.py:88-94 | the experience rule: `1 - abs(a-b)/30` when both sides parse with `int(v or 0)`, else 0; its properties are `ExperienceRange`, `ExperienceParseFailure` and `ExperienceSymmetric` |
| `Similarity.CellSimilarity` | app.py:86-96 | the per-column dispatch: two texts take `get_field_similarity`, otherwise the experience column takes the experience rule and every other column scores 0; its properties are `TextCellsUseText` and `NonTextScoresZero` |
| `PyInt.ParseInt` | app.py:90-91 | `int()` on text: skip surrounding whitespace, an optional sign, decimal digits with single underscores, else `ValueError`; its properties are `ParseShow`, `ParsePadded`, `ParsedHasDigit` and `SeparatorIsNotSkipped` |
| `Cells.AsInt` | app.py:90-91 | `int(v or 0)` on a cell: falsy values give 0, text goes through `int()`, floats truncate, NaN fails; its properties are the `Cells.AsInt*` lemmas |
| `Cells.Get` | app.py:82-83 | `row.get(field, '')`: the cell if the column exists, else `Str("")`; `Scoring.WeightedSumIgnoresOtherFields` relies on it reading only its own column |
| `Scoring.FieldScore` | app.py:82-96 | one column's similarity, missing columns read as `''`; `Similarity.CellSimilarity`'s lemmas state its cases |
| `Scoring.WeightedSum` | app.py:79-98 | the accumulated `similarity * weight` over a walk of the weight table, the quantity the loop of `CalculateWeightedScore` keeps; its properties are `WeightedSumPermutation`, `WeightedSumBounds` and `WeightedSumIgnoresOtherFields` |
| `PyInt.DigitStringShape` | app.py:90-91 | a digit string `int()` accepts ends in a digit and never has two underscores in a row |
| `Scoring.WeightMapping` | app.py:42-49 | `weight_mapping`, in declaration order; its total is `Scoring.TotalWeight` |
| `Scoring.Score` | app.py:76-100 | the weighted similarity sum over the total weight; computed by `CalculateWeightedScore`, with `ScoreFormula`, `ScoreOrderIndependent`, `ScoreBounds`, `ScoreIgnoresOtherFields` and `SelfScore` |
| `Ranking.ExperienceOf` | app.py:133 | `professor_row.get('Years of Experience', 'N/A')` |
| `Ranking.EntryFor` | app.py:129-134 | one professor's record: its `Name`, its score and its experience; `Ranking.Entries` builds one per row |
| `Ranking.ExperienceAtLeast` | app.py:137 | the descending experience key: text above numbers above empty cells, text by code point and numbers by value; total and transitive by `ExperienceTotal` and `ExperienceTransitive` |
| `Ranking.RankedBefore` | app.py:137 | score descending, then experience descending; total and transitive by `RankedTotal` and `RankedTransitive` |
| `Ranking.RankSpec` | app.py:126-137 | score every professor, sort, take `head(panel_count)`; an empty or unnamed professor sheet fails; `Rank` computes it and `PanelProperties` states what its panel guarantees |
| `Ranking.Interviewers` | app.py:121-137 | look up the first candidate named, then rank; `GetInterviewers` computes it and characterises each outcome |
| `Upload.EndsWith` | app.py:55 | `str.endswith`: the last characters are exactly the suffix; used by `Upload.AcceptedNames` and `Upload.WrongFormat` |
| `PyInt.ParsedHasDigit` | app.py:90-91 | a string `int()` accepts contains at least one decimal digit |
| `PyInt.StripSpec` | app.py:90-91 | the whitespace skipping of `int()` keeps only characters of its input, and its result neither starts nor ends with whitespace |
| `PyInt.SeparatorIsNotSkipped` | app.py:90-91 | U+001C is not whitespace to `int()`, so `int("\x1c5")` fails |
| `PyInt.ParseShow` | app.py:90-91 | `int(str(i)) == i` for every integer: parsing inverts printing, negatives included |
| `PyInt.ParsePadded` | app.py:90-91 | whitespace that `int()` skips (C-locale blanks and non-ASCII spaces) around a printed integer is ignored |
| `PyInt.StripPadded` | app.py:90-91 | the skipping removes exactly the whitespace around a text that does not start or end with whitespace |
| `Cells.Truncate` | app.py:90-91 | `int()` of a float truncates toward zero: the result has the float's sign and is within 1 of it |
| `Cells.AsIntFalsy` | app.py:90-91 | `int(v or 0)`: `''`, `0` and `0.0` give 0; NaN fails |
| `Cells.AsIntNeedsDigit` | app.py:90-94 | any non-empty text without a digit fails to parse |
| `Cells.AsIntRejects` | app.py:90-94 | `"N/A"` and an all-blank text fail to parse |
| `Cells.AsIntStrips` | app.py:90-91 | `" 12\n"` parses to 12 |
| `Cells.AsIntUnderscores` | app.py:90-91 | `"1_000"` parses to 1000 |
| `Cells.AsIntTruncates` | app.py:90-91 | 7.9 gives 7 and -7.9 gives -7 |
| `Cells.AsIntShow` | app.py:90-91 | a cell holding an integer's decimal text parses back to that integer |
| `Domain.NotSelfRelated` | app.py:21-41 | no field is related to itself |
| `Domain.RelatedIsAsymmetric` | app.py:23-36 | Mechanical Engineering lists Automobile Engineering, but not the reverse |
| `Similarity.ExactMatch` | app.py:67-72 | in any table where no key lists itself, equal texts score 1.0 whatever the cosine |
| `Similarity.ProgramExactMatch` | app.py:67-72 | with `domain_mapping`, every text scores 1.0 against itself, including two missing fields (`''`) |
| `Similarity.RelatedScoresBonus` | app.py:69-70 | a pair related in the table scores exactly 0.8 |
| `Similarity.UnrelatedUsesCosine` | app.py:71-74 | distinct unrelated texts score the cosine unchanged |
| `Similarity.SimilarityIsAsymmetric` | app.py:69-74 | Mechanical-to-Automobile scores 0.8; the reverse direction scores the cosine |
| `Similarity.NegativeCosinePassesThrough` | app.py:73-74 | a negative cosine gives a negative similarity: no clamping |
| `Similarity.ExperienceRange` | app.py:88-92 | parsed years a and b give `1 - abs(a-b)/30`: in [0,1] iff the gap is at most 30, negative iff above 30, 1.0 iff equal |
| `Similarity.ExperienceParseFailure` | app.py:89-94 | a failed parse on either side gives 0, not an error |
| `Similarity.ExperienceSymmetric` | app.py:90-92 | swapping candidate and professor does not change the experience similarity |
| `Similarity.TextCellsUseText` | app.py:86-87 | two text cells use the text policy in every column, the experience column included |
| `Similarity.NonTextScoresZero` | app.py:95-96 | outside the experience column a pair that is not two texts scores 0, even two equal numbers |
| `Similarity.RelatedDegreesExample` | app.py:27 | Computer Science against Artificial Intelligence scores 0.8 |
| `Similarity.NumericExperienceExample` | app.py:88-92 | 5 against 10 years scores 1 - 5/30; a missing value against 6 years scores 0.8 |
| `Similarity.TextExperienceExample` | app.py:86-87 | `"5"` against `"10"`, both text, scores the cosine |
| `Similarity.ZeroSimilarityExamples` | app.py:88-96 | `"N/A"` or NaN experience gives 0; equal numbers in the PhD column give 0 |
| `Scoring.TotalWeight` | app.py:42-49 | the weights sum to 11.5 |
| `Scoring.CalculateWeightedScore` | app.py:76-100 | the loop's result equals `Score`: the weighted sum over the total weight |
| `Scoring.ScoreFormula` | app.py:76-100 | the score is `(1·s_Diploma + 1.5·s_Bachelors + 2·s_Masters + 3·s_PhD + 2·s_Experience + 2·s_Department) / 11.5` |
| `Scoring.WeightedSumPermutation` | app.py:81-98 | the accumulated sum is the same for any order of the same weight entries |
| `Scoring.ScoreOrderIndependent` | app.py:78-100 | walking `weight_mapping` in any order gives the same score |
| `Scoring.WeightedSumBounds` | app.py:81-98 | when each column adds between 0 and its weight, the sum lies between 0 and the total weight |
| `Scoring.ScoreBounds` | app.py:76-100 | if every weighted column's similarity is in [0,1], the score is in [0,1] |
| `Scoring.WeightedSumIgnoresOtherFields` | app.py:81-83 | the sum depends only on the visited columns of both the candidate row and the professor row |
| `Scoring.ScoreIgnoresOtherFields` | app.py:81-83 | candidate rows that agree on the six weighted columns, scored against professor rows that agree on them, get the same score; `Name` and every other column are ignored |
| `Scoring.SelfScore` | app.py:76-100 | for a table where no key lists itself, a profile scored against itself gets 1.0 when each weighted column is text or parsable experience |
| `Ranking.ExperienceTransitive` | app.py:137 | the experience sort key is transitive |
| `Ranking.ExperienceTotal` | app.py:137 | any two experience cells are comparable as sort keys |
| `Ranking.RankedTotal` | app.py:137 | any two scored records are ordered one way or the other by (score desc, experience desc) |
| `Ranking.RankedTransitive` | app.py:137 | the (score desc, experience desc) order is transitive |
| `Ranking.Insert` | app.py:137 | inserting adds exactly the one record (multiset) |
| `Ranking.InsertSorted` | app.py:137 | inserting into a sorted list keeps it sorted |
| `Ranking.SortRanked` | app.py:137 | the sort yields a permutation of its input ordered by score desc, then experience desc |
| `Ranking.Head` | app.py:137 | `head(n)` is a prefix of its input, of length `min(n, len)` for n >= 0 and `max(0, len + n)` for n < 0 |
| `Ranking.Entries` | app.py:126-134 | one record per professor, in sheet order, holding its name, `calculate_weighted_score` and experience (or `"N/A"`) |
| `Ranking.FindCandidate` | app.py:121-125 | the index of the first row whose `Name` equals the requested name, or none when no row matches |
| `Ranking.SortedPrefixIsTop` | app.py:137 | a prefix of a sorted permutation is sorted, comes from the input, and ranks ahead of every row left out |
| `Ranking.DrawnFromProfessors` | app.py:128-134 | every panel record is the record of some professor row |
| `Ranking.PanelProperties` | app.py:126-137 | the panel is sorted, has `head`'s length, is a sub-multiset of the scored records, ranks ahead of every record left out, and every entry's score is that professor's weighted score |
| `Ranking.Rank` | app.py:126-137 | the loop-and-sort fails exactly when the professor sheet is empty or a professor row has no `Name`; otherwise the panel has every property above |
| `Ranking.GetInterviewers` | app.py:121-137 | "not found" exactly when the sheet has names and no row carries the requested one; an error exactly when a sheet lacks names or the candidate is found and the professor sheet is empty or has an unnamed row; a panel is the ranking for the first matching candidate row |
| `Ranking.RankingExample` | app.py:137 | scores 0.9, 0.7, 0.9 with 5, 8, 3 years and a panel of 2 give the two 0.9 entries, 5 years first |
| `Ranking.NoProfessorsFails` | app.py:126-142 | an empty professor sheet gives the error response for a found candidate, and never a panel, for any panel size |
| `Upload.ValidateFile` | app.py:51-57 | the answer is one of: the missing-file message, the format message, or acceptance |
| `Upload.AcceptedNames` | app.py:55-57 | a name is accepted iff it is some (possibly empty) stem followed by `.xlsx` |
| `Upload.MissingFirst` | app.py:53-54 | the missing-file message comes exactly for no file or an empty name, ahead of the format check |
| `Upload.WrongFormat` | app.py:55-56 | a non-empty name gets the format message iff it lacks the exact, case-sensitive `.xlsx` ending |
| `Upload.ValidateExamples` | app.py:51-57 | no file and `""` are missing; `panel.xlsx` passes; `panel.XLSX` and `panel.xls` are format errors |

## Left out

- HTTP routing, `render_template`, `jsonify` and status codes (app.py:102-111, 138-147): transport. The outcome datatype stands in for the 200, 404 and error responses.
- `save_file`, `os.path.join` and `os.makedirs` (app.py:59-65, 146): filesystem I/O.
- `pd.read_excel` and the parsing of form fields, including `int(request.form['panel_count'])` (app.py:115-119): foreign library and transport. The model takes parsed rows and an integer panel size.
- Loading the sentence-transformer model and computing the cosine (app.py:18, 73-74): machine-learning numerics. The cosine is a parameter of every scoring member.
- IEEE-754 floating point: every score and weight is an exact `real`, with no rounding, infinities or NaN scores. In particular, experience text of 309 or more digits parses, but converting the gap to a float for `abs(a-b) / 30.0` (app.py:92) raises `OverflowError`, which `except ValueError` does not catch, so the request gets the error response; the model gives a finite similarity.
- The remaining causes of the catch-all error response (app.py:140-142): a failing embedding call, and a failing sort, where pandas raises on keys it cannot order at all (such as dates mixed with numbers, a cell kind the model lacks). On the four modelled cell kinds the sort cannot fail: pandas orders mixed numbers and text (numbers, then text, then empty cells), and `Ranking.ExperienceTotal` and `Ranking.ExperienceTransitive` show the key is a total order. Only the missing `Name` column and the empty professor sheet are modelled (`Outcome.Failed`).
- A sheet is a sequence of maps, so the model cannot tell an empty sheet that lacks `Name` from one that has it. The model treats an empty candidate sheet as "not found".
- Ranking.Rank: the full tie order is not promised. Where both score and experience tie, the model's sort keeps sheet order, and the contract promises only the two sort keys.
- Other cell kinds `read_excel` can deliver, booleans and dates, are not modelled. `int(True or 0)` would be 1, and `int()` of a date raises `TypeError`, which the experience rule's `except ValueError` (app.py:93) does not catch, so the request would get the error response.
- Python's `int()` on text also accepts non-ASCII decimal digits, and refuses texts of more than 4300 digits. Neither is modelled.
- Logging (app.py:13-15, 64, 141).
