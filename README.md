# A verified model of the coordinate-extraction QA pipeline

The pipeline reads Hebrew free-text intelligence reports and pulls out
6-digit grid coordinates (נ.צ). It then checks the extractor's quality
against a manual tagging of a stratified sample. This project models its
five computational stages in Dafny and proves facts about each one:

1. **Cleansing** (`clean_data`, module `Cleansing`, `cleansing.dfy`). Three
   successive row filters run over the raw reports: a present `Report_ID`,
   a `Content_Body` of at least 5 characters, and a `Reliability_Score`
   without an F. The removal counts are collected along the way.
2. **Coordinate extraction** (`CoordinateExtractor`; modules `Patterns`
   and `Extraction`, `patterns.dfy` and `extraction.dfy`). Five anchor
   rules are tried in order. Each rule is a regex of the form
   anchor + `(\d{6})`. The first rule that matches anywhere wins, and
   `re.search` takes its leftmost match. The extractor object keeps the
   statistics of a run.
3. **Tagging sample** (`TaggingSampleGenerator`; modules `Scoring`,
   `Selection`, `Sampler` and `Tagging`). Each report gets an edge-case
   score from ten weighted conditions. The sampler then makes three draws
   (40 positive, 40 negative, 20 edge cases), each avoiding the IDs already
   taken. Repeated IDs are dropped, the shortfall is refilled by score, and
   the result is shuffled. The `Y_N_MODEL` and `Is_Edge_Case` columns of the
   tagging file are derived from the sample, and the tagging report tallies
   the reasons.
4. **Evaluation** (`PerformanceEvaluator`, module `Evaluation`,
   `evaluation.dfy`). The tagged file is cleaned to records whose two
   answers are YES or NO. From these the model computes the confusion
   matrix and five metrics, the sector and reliability breakdowns, the
   worst sector and the sector × reliability cross analysis. It also
   models the verdicts that the console and the saved report print.
5. **Error extraction** (`extract_errors`, module `ErrorExtraction`,
   `errors.dfy`). The false positives and false negatives are labelled
   with their type and sorted by (reliability, sector). A file with no
   error makes the labelling step raise, and nothing is saved.

Shared modules:
- `Wrappers` holds `Option` and `Result`.
- `Seqs` holds filters, subsequences and distinct values.
- `Ratios` holds the zero-guarded ratios.
- `Text` holds digit runs, the `findall` counts, find, strip, case and
  join/split.
- `Ordering` holds Python's string order, a stable sort, and the first and
  last maximum.
- `Reports` holds the report record of the sampler and its ID column.

Modelling choices:
- **Dataframes** are sequences of records. A missing cell is `None`,
  including a missing `Sector` in the sampler. `unique()` lists the
  missing sector once, so it counts in `len(sectors)` for the per-sector
  quota. But `Sector == NaN` holds for no row, so those rows are never
  drawn in the per-sector stage. They only arrive through the top-up
  (`Sampler.InSector`, `Sampler.DrawBySector`).
- **`Extracted_Coordinate`** in the sampler (`Report.coordinate`) stands
  for the text of the cell as loaded. `str(row['Extracted_Coordinate'])`
  searches for that text in the body. When `main` reads the extraction CSV
  with `pd.read_csv`, pandas parses the column as floats. The cell's text
  is then `"123456.0"`, which seldom occurs in a report, so
  `coord_at_edge` (condition 10) seldom fires in the program as it runs.
  The lines at src/tagging_generator.py:435-438 treat the column as
  numeric for the same reason. The model takes the cell text as given.
- **Ratios** use exact `real` arithmetic.
- **`re.search`** is a greedy scanner for each rule. The model proves that
  the scanner finds exactly the regex's matches, because none of the five
  anchors leaves the extent of an element in doubt.
  (`Patterns.RulesDeterministic`, `Patterns.ScanAtIsMatch`).
- **`sample(random_state=42)`** re-seeds `RandomState(42)` on every call
  and takes the front of `permutation(n)`, which depends only on the
  frame's size `n`. The seed is an oracle `pick` passed in explicitly:
  `pick(n)` is the permutation of `n` rows as a sequence of choices (its
  Lehmer code), so every seed is one oracle. A draw is the front of the
  shuffle that the oracle gives the frame's size.
- **`nlargest(k, 'edge_score')`** is a stable sort by descending score,
  followed by taking the first k rows.
- **Report IDs** in the sampler are a precondition: they must be unique.
  The deduplication step is still modelled in general.

Places where the documentation and the code disagree; the model follows
the code:
- The docstring of `clean_data` says that empty `Report_ID`s are removed.
  The code only tests `notna()`, so an empty ID is kept
  (`Cleansing.EmptyIdKept`).
- The evaluator strips and upper-cases the answers before comparing them.
  `extract_errors` only upper-cases them, so a padded `" YES"` is no error
  there (`ErrorExtraction.PaddedAnswerIsNoError`).
- The ten `if`s of the scorer are modelled as the conditions of a rule
  table, evaluated one after the other in source order.
- The saved report's observations use FP and FN counts that the loop of
  the cross analysis has overwritten (see "## Findings").

## Model

| member | source | states |
|---|---|---|
| Cleansing.HasLetterFIff | src/data_cleansing.py:92 | the reliability test finds an F exactly when some character of the label is `F` or `f` |
| Cleansing.StepsShrink | src/data_cleansing.py:66-94 | each filter step keeps an order-preserving subsequence of the rows of the step before |
| Cleansing.CountsAddUp | src/data_cleansing.py:49-99 | the initial count is the three removal counts plus the final count |
| Cleansing.KeptRows | src/data_cleansing.py:66-94 | a row survives exactly when it has an ID, content of at least 5 characters, and no F in a present reliability label |
| Cleansing.EmptyIdKept | src/data_cleansing.py:66-67 | a report whose ID is the empty string survives the cleansing, contrary to the docstring (the docstring at line 7 says otherwise) |
| Cleansing.CleansingIdempotent | src/data_cleansing.py:66-94 | cleansing an already cleansed frame changes nothing |
| Cleansing.CleanData | src/data_cleansing.py:38-109 | an empty frame fails with a division by zero; otherwise the kept rows are the survivors of the three steps, the counts describe them, and the retention rate is `final / initial * 100`, which lies in [0, 100] |
| Patterns.RunEnd | src/feature_engineering.py:44-52 | the greedy run of a character class stops at the first character outside it |
| Patterns.ScanComplete | src/feature_engineering.py:44-52 | for a deterministic anchor, when the anchor's regex matches from p to a position j that holds a digit, the greedy scan from p stops at exactly j |
| Patterns.Rule1Deterministic | src/feature_engineering.py:44 | rule 1 (`נ\.צ\.?\s*`) never leaves the extent of an element in doubt before the digits |
| Patterns.Rule2Deterministic | src/feature_engineering.py:46 | rule 2 (`נקודת\s+ציון\s*[:\s]*`) is deterministic before the digits |
| Patterns.Rule3Deterministic | src/feature_engineering.py:48 | rule 3 (`מיקום\s*[:\s]*`) is deterministic before the digits |
| Patterns.Rule4Deterministic | src/feature_engineering.py:50 | rule 4 (`נ\s*צ\s*[:\s]*`) is deterministic before the digits |
| Patterns.Rule5Deterministic | src/feature_engineering.py:52 | rule 5 (`קו[אר]*[דד]*ינט[הא]*\s*[:\s]*`) is deterministic before the digits |
| Patterns.RulesDeterministic | src/feature_engineering.py:42-53 | all five rules of the list are deterministic |
| Patterns.ScanAtIsMatch | src/feature_engineering.py:42-53 | at a given start, the greedy scan of a deterministic rule succeeds with capture position j exactly when the rule's regex matches there with its six digits at j |
| Patterns.SearchFromSpec | src/feature_engineering.py:79-81 | the search from position i returns the leftmost start at or after i where the rule matches, or none when it matches nowhere |
| Patterns.SearchSpec | src/feature_engineering.py:79-81 | `re.search` of each rule gives its leftmost match, and the capture is six ASCII digits |
| Patterns.PatternName | src/feature_engineering.py:82 | the label of rule i is `Pattern_` followed by the digit i |
| Patterns.PatternNameInjective | src/feature_engineering.py:82 | different rules get different labels |
| Patterns.FirstMatchSpec | src/feature_engineering.py:78-84 | the cascade returns the capture of the first rule whose search succeeds, and every earlier rule fails; no result means every rule fails |
| Patterns.ExtractCoordinate | src/feature_engineering.py:63-84 | a missing text gives `(None, None)`; a coordinate is returned exactly when a label is |
| Patterns.ExtractCoordinateSpec | src/feature_engineering.py:63-84 | the label is `Pattern_i` of the lowest-numbered rule that matches anywhere, and the coordinate is that rule's leftmost capture of six digits; no coordinate means no rule matches anywhere |
| Patterns.ExtractedCoordinateOccurs | src/feature_engineering.py:80-82 | an extracted coordinate is six digits that occur in the text |
| Patterns.ExampleRule1 | src/feature_engineering.py:78-82 | `נ.צ. 123456 בשטח` gives `("123456", "Pattern_1")` |
| Extraction.Annotate | src/feature_engineering.py:105-112 | a row's new columns are the extraction result, `Has_Coordinate` is 1 exactly when a coordinate was found, and the label is `Pattern_i` of one of the five rules |
| Extraction.SumHasCounts | src/feature_engineering.py:112-122 | with 0/1 flags, the flag sum is the number of rows with a coordinate and the number of non-null labels |
| Extraction.PatternCountsSum | src/feature_engineering.py:131-132 | the per-pattern counts have one key per label used, and they add up to `reports_with_coordinates` |
| Extraction.StatisticsMeaning | src/feature_engineering.py:121-128 | with and without a coordinate add up to the total, and the rate lies in [0, 100] |
| Extraction.CoordinateExtractor.constructor | src/feature_engineering.py:55-61 | all statistics start at zero and the pattern counts are empty |
| Extraction.CoordinateExtractor.CalculateStatistics | src/feature_engineering.py:119-132 | sets the total, the with and without counts, the pattern counts, and the rate (only when the total is positive, otherwise the old rate stays), and keeps the statistics consistent |
| Extraction.CoordinateExtractor.ProcessDataframe | src/feature_engineering.py:86-117 | annotates every row by the cascade, in order, with well-formed flags, then computes the statistics of the result |
| Text.FiveOrSevenIsFive | src/tagging_generator.py:67-69 | `findall(r'\d{5}\|\d{7}')` counts exactly the non-overlapping 5-digit chunks, because `\d{7}` never wins |
| Text.CountFixedPositive | src/tagging_generator.py:62-64 | `findall(r'\d{w}')` finds something exactly when w digits stand in a row somewhere |
| Text.NoDigitRuns | src/tagging_generator.py:57-59 | `num_count` is 0 exactly when the text has no digit |
| Text.SplitJoin | src/tagging_generator.py:547-549 | splitting a join of a nonempty list of parts on the separator gives the parts back, when no part contains the separator's first character |
| Scoring.FeaturesOf | src/tagging_generator.py:54-69 | a missing body has no length and zero counts; a present one has its own length |
| Scoring.PicksAreFilter | src/tagging_generator.py:73-131 | testing the ten conditions one after the other keeps exactly the table rows that hold, in table order |
| Scoring.ScoreRow | src/tagging_generator.py:73-134 | the loop body's score is the sum of the weights of the conditions that hold, and its reasons are their tags in table order |
| Scoring.TableGains | src/tagging_generator.py:73-131 | the score is the sum over the ten conditions of each one's weight when it holds |
| Scoring.TableScoreBound | src/tagging_generator.py:73-131 | `edge_score` lies in [0, 26], because short and long text exclude each other, and so do the `Has_Coordinate` 0 and 1 conditions |
| Scoring.ScoreOrderIndependent | src/tagging_generator.py:73-131 | testing the conditions in any other order gives the same score |
| Scoring.TriggeredInOrder | src/tagging_generator.py:73-134 | the reasons are a subsequence of the table and hold exactly the conditions that hold |
| Scoring.SameCellsSameTriggered | src/tagging_generator.py:73-131 | the conditions depend only on the content, the flag, the reliability and the coordinate |
| Scoring.Near6DigitIff | src/tagging_generator.py:66-95 | `near_6_digit` fires exactly when the text holds five digits in a row |
| Scoring.SixDigitsFireNear6 | src/tagging_generator.py:61-95 | every text with a 6-digit chunk also fires `near_6_digit` |
| Scoring.ReasonOfTag | src/tagging_generator.py:80-131 | each tag names its own condition, so no two conditions share a tag |
| Scoring.TagHasNoComma | src/tagging_generator.py:80-131 | no tag contains a comma |
| Scoring.TagsRoundTrip | src/tagging_generator.py:547-549 | splitting the joined tags on `", "` gives back the list of tags, undoing the join at line 134 |
| Scoring.ReasonsRoundTrip | src/tagging_generator.py:547-549 | splitting a row's `edge_reasons` gives back the tags of the conditions that hold, in order, undoing the join at line 134 |
| Scoring.TagCount | src/tagging_generator.py:73-134 | a tag occurs once among a row's reasons when its condition holds, and not at all otherwise |
| Selection.Draw | src/tagging_generator.py:177-178 | a draw of k rows from a frame of n rows is the first `min(k, n)` rows of the seed's permutation of n rows (the same draw is used at lines 190, 235 and 246) |
| Selection.DrawPrefix | src/tagging_generator.py:177-178 | with the same seed, a smaller draw is a prefix of a larger one |
| Selection.DrawAlike | src/tagging_generator.py:177-178 | the re-seeded generator permutes positions, not values: frames of one size are drawn from at the same positions |
| Selection.SizesDrawIndependently | src/tagging_generator.py:177-178 | the permutations of different frame sizes are independent: one seed can reverse 2-row frames and keep 3-row frames in order |
| Selection.ShufflePermutes | src/tagging_generator.py:405 | the final shuffle is a permutation of the rows |
| Selection.DrawIsShuffleFront | src/tagging_generator.py:177-178 | a draw is the front of the shuffle with the same seed |
| Selection.DrawAndRest | src/tagging_generator.py:177-178 | a draw and the rows it leaves together are the frame rearranged |
| Selection.DrawFromFrame | src/tagging_generator.py:177-178 | a draw takes rows of the frame, each at most as often as it occurs |
| Selection.TopK | src/tagging_generator.py:177-178 | `nlargest(k)` has `min(k, len)` rows (also at lines 256 and 308) |
| Selection.SortPermutes | src/tagging_generator.py:177-178 | the descending sort rearranges the frame |
| Selection.SortDescending | src/tagging_generator.py:177-178 | the descending sort never lets a score rise |
| Selection.TopKIsTop | src/tagging_generator.py:177-178 | `nlargest(k)` and the rows it leaves make up the frame, it is descending, and no row left out scores above one taken |
| Selection.WithinTopRanks | src/tagging_generator.py:175-177 | rows taken from among `nlargest(k)` score at least as high as every row `nlargest(k)` leaves out |
| Selection.TopKRanks | src/tagging_generator.py:256 | no row of the frame outside `nlargest(k)` scores above a row inside it (also at lines 308 and 331) |
| Selection.SubFrameUnique | src/tagging_generator.py:152-153 | rows taken from a frame with unique IDs have unique IDs |
| Selection.IdSetSize | src/tagging_generator.py:365 | a frame with unique IDs has as many IDs as rows |
| Selection.ExcludeSize | src/tagging_generator.py:152-153 | excluding k IDs of a frame with unique IDs removes exactly k rows |
| Selection.ExcludeMembers | src/tagging_generator.py:152-153 | `~isin(ids)` keeps exactly the rows whose ID is not in `ids` |
| Selection.DrawnAfterExclude | src/tagging_generator.py:362-373 | a row drawn after excluding the IDs of earlier draws has none of their IDs |
| Selection.AppendDraws | src/tagging_generator.py:362-373 | two draws where the second avoids the first's IDs share no ID, and together they are rows of the frame |
| Selection.ExcludeIdSet | src/tagging_generator.py:152-153 | excluding IDs removes exactly those IDs from the frame's ID set |
| Selection.ExcludeTwice | src/tagging_generator.py:362-373 | excluding two ID sets in turn is excluding their union |
| Selection.DedupIds | src/tagging_generator.py:388 | `drop_duplicates` never lengthens the frame |
| Selection.DedupIsKeepFirst | src/tagging_generator.py:388 | the scan that keeps a row only when its ID is new (`keep='first'`) gives the same rows as excluding the IDs seen so far and then dropping duplicates |
| Selection.DedupUnique | src/tagging_generator.py:388 | after dropping duplicates no ID repeats, and every ID is still present |
| Selection.DedupInOrder | src/tagging_generator.py:388 | the rows kept are a subsequence of the frame |
| Selection.DedupKeepsUnique | src/tagging_generator.py:388 | a frame whose IDs are already unique loses nothing |
| Sampler.ScoredRow | src/tagging_generator.py:133-136 | scoring changes only `edge_score` and `edge_reasons` |
| Sampler.ScoreRowIsScored | src/tagging_generator.py:73-136 | writing the loop body's score and joined reasons into a row gives the scored row |
| Sampler.ScoreOne | src/tagging_generator.py:73-136 | one pass of the scorer's loop computes the scored row |
| Sampler.ScoredRowFacts | src/tagging_generator.py:73-136 | a scored row's score is the table score, lies in [0, 26], and its reasons split back into the tags of the conditions that hold |
| Sampler.ScoringIdempotent | src/tagging_generator.py:73-136 | scoring a scored row again changes nothing |
| Sampler.ScoringKeepsIds | src/tagging_generator.py:50-136 | scoring keeps the ID column, its set and its uniqueness |
| Sampler.PoolFacts | src/tagging_generator.py:149-153 | a pool holds exactly the rows with the wanted label whose ID is not excluded (the negative pool of lines 214-218 is the same with label 0) |
| Sampler.DrawnFromPool | src/tagging_generator.py:149-153 | rows drawn from a pool have its label, no excluded ID, unique IDs, and are rows of the frame |
| Sampler.Quota | src/tagging_generator.py:166 | the per-sector quota `n // len(sectors)` times the number of sectors is at most n |
| Sampler.SectorSample | src/tagging_generator.py:175-179 | a sector's share has `min(quota, rows of the sector)` rows |
| Sampler.SectorSampleWithin | src/tagging_generator.py:175-179 | a sector's share is drawn from the sector's `nlargest(2 × size)` rows, so no row of the sector left out of those scores above a row of the share; it has at most `quota` rows |
| Sampler.UntouchedSector | src/tagging_generator.py:169-172 | with unique IDs, excluding the IDs already drawn from other sectors leaves a sector's rows whole |
| Sampler.TopStep | src/tagging_generator.py:169-181 | a round on a sector not visited before draws rows of that sector from its `nlargest(2 × size)` rows of the pool |
| Sampler.AddSectorTops | src/tagging_generator.py:168-181 | adding one sector's round keeps every sector's rows inside its best-scoring rows of the pool |
| Sampler.SectorStageRanks | src/tagging_generator.py:175-177 | no row of a sector in the pool that is left out of its `nlargest(2 × size)` scores above a row the stage drew for that sector |
| Sampler.QuotaBound | src/tagging_generator.py:165-181 | once every sector has been visited within the quota, no sector exceeds it |
| Sampler.SectorRound | src/tagging_generator.py:168-181 | one pass of the sector loop draws that sector's share from its rows not selected yet, or nothing when there are none |
| Sampler.TopRound | src/tagging_generator.py:168-181 | a round on the next sector in first-appearance order keeps every sector's rows inside its best-scoring rows of the pool |
| Sampler.RoundStep | src/tagging_generator.py:168-181 | one round keeps the stage's invariant: rows of the pool, new IDs recorded, quotas kept, sectors' rows from their best-scoring rows |
| Sampler.DrawBySector | src/tagging_generator.py:161-183 | the per-sector stage takes rows of the pool, at most the quota from each sector and at most n in all, so the cut at lines 194-195 never fires; with unique IDs, each sector's rows come from that sector's `nlargest(2 × size)` rows of the pool |
| Sampler.TopUpFacts | src/tagging_generator.py:186-191 | the top-up keeps the draw inside the pool and brings it to `min(n, pool)` rows when it was short |
| Sampler.SelectPositiveSamples | src/tagging_generator.py:139-202 | only rows with a coordinate and an ID not excluded, with unique IDs, `min(n, available)` of them; the whole pool when it has fewer than n rows; otherwise the result is the per-sector stage topped up from the rest of the pool, where the stage holds at most n rows of the pool, at most the quota from any sector, and (the pool's IDs being unique) only rows from each sector's top 2×quota by edge score; the final cut at lines 194-195 never fires |
| Sampler.BucketsPartition | src/tagging_generator.py:230-256 | every report falls in exactly one of the three negative buckets |
| Sampler.RandomBucket | src/tagging_generator.py:230-248 | a random bucket has `min(quota, rows)` rows |
| Sampler.SixDigitBucketIsTop | src/tagging_generator.py:251-256 | bucket 3 has `min(10, candidates)` rows, and no candidate it leaves out scores above one it takes |
| Sampler.BucketWithin | src/tagging_generator.py:230-248 | a random bucket takes rows that pass its test, among the rows not taken yet |
| Sampler.NegativeBucketsFacts | src/tagging_generator.py:225-260 | the three buckets take at most 40 rows of the pool, with unique IDs, and bucket 1 holds only rows without numbers |
| Sampler.NegativeSamplesFacts | src/tagging_generator.py:204-279 | only rows without a coordinate and with an ID not excluded, with unique IDs, `min(n, available)` of them |
| Sampler.EdgePartIsTop | src/tagging_generator.py:300-319 | each side holds `min(n // 2, rows of its label)` rows of that label, and no row of that label left out scores above one taken |
| Sampler.LabelsApart | src/tagging_generator.py:362-373 | with unique IDs, excluding the IDs of rows of one label leaves the rows of the other label whole |
| Sampler.ScoreFillFacts | src/tagging_generator.py:326-332 | the fill by score adds `min(k, rows left)` rows of the pool without repeating an ID |
| Sampler.EdgeSidesWithin | src/tagging_generator.py:300-323 | the two sides together are rows of the available frame, with unique IDs, as many as both sides found |
| Sampler.EdgeCasesOrder | src/tagging_generator.py:323-332 | the edge cases start with the positive side and then the negative side, and any fill comes after them |
| Sampler.FillTo | src/tagging_generator.py:326-332 | filling a short draw by score brings it to `min(n, available)` rows with unique IDs |
| Sampler.EdgeCasesFacts | src/tagging_generator.py:281-347 | no excluded ID, rows of the frame, unique IDs, `min(n, available)` of them |
| Tagging.TaggingSampleGenerator.constructor | src/tagging_generator.py:34-41 | the generator holds the frame, an empty sample and no edge-case IDs |
| Tagging.TaggingSampleGenerator.CalculateEdgeCaseScores | src/tagging_generator.py:43-136 | every row of the frame is replaced by its scored version, and nothing else changes |
| Tagging.TaggingSampleGenerator.GenerateSample | src/tagging_generator.py:349-414 | the frame is scored; the sample holds rows of it with unique IDs, `min(P + N + 20, rows)` of them, where P and N are `min(40, ...)` of the rows with and without a coordinate; the edge-case IDs are `min(20, rows - P - N)` IDs of the sample |
| Tagging.DrawSample | src/tagging_generator.py:359-405 | the three draws, the deduplication with refill and the shuffle give rows of the frame with unique IDs, `min(P + N + 20, rows)` of them, and the edge-case IDs are `min(20, rows - P - N)` IDs of the sample |
| Tagging.AllDraws | src/tagging_generator.py:362-384 | the three draws share no ID, have the sizes the frame allows, and include every edge case once |
| Tagging.ShuffledDraws | src/tagging_generator.py:388-405 | shuffling the three draws keeps them rows of the frame with unique IDs, edge cases included |
| Tagging.DrawSizes | src/tagging_generator.py:362-367 | the positive draw takes `min(40, positives)` rows, and the negative draw takes `min(40, negatives)` rows avoiding them |
| Tagging.ThreeDraws | src/tagging_generator.py:362-384 | the edge cases avoid both earlier draws, so the three together are rows of the frame with unique IDs, and there are `min(20, rows left)` edge cases |
| Tagging.TaggingFile | src/tagging_generator.py:416-467 | the tagging file has one row per sampled report |
| Tagging.TaggingColumns | src/tagging_generator.py:423-453 | each row keeps its report's ID and content; `Y_N_MODEL` is "Yes" exactly when `Has_Coordinate == 1`; `Is_Edge_Case` is "Yes" exactly for edge-case IDs; the two tag columns start empty |
| Tagging.ModelYesCount | src/tagging_generator.py:441-443 | the file says "Yes" for exactly as many reports as the sample has with a coordinate |
| Tagging.FlaggedCount | src/tagging_generator.py:447-449 | the file flags exactly as many rows as there are edge-case IDs |
| Tagging.AllReasons | src/tagging_generator.py:546-549 | the report's loop gathers each sampled row's reasons split on `", "`, in sample order |
| Tagging.SampleCarriesReasons | src/tagging_generator.py:133-136 | every sampled row's reasons cell is the one scoring wrote for it |
| Tagging.ReasonTally | src/tagging_generator.py:546-554 | in the reason tally, each tag occurs once for every sampled report whose condition holds |
| Evaluation.CleanAll | src/performance_eval.py:90-91 | both answer columns are stripped and upper-cased row by row |
| Evaluation.LoadedRows | src/performance_eval.py:90-111 | loading keeps in order exactly the rows whose cleaned answers are both YES or NO, and the kept and dropped rows add up to the file |
| Evaluation.CellsCoverFrame | src/performance_eval.py:128-131 | every valid record lies in exactly one cell, so TP + FP + TN + FN is the number of records |
| Evaluation.ErrorListsExact | src/performance_eval.py:141-147 | the stored false positives are exactly the YES/NO records and the false negatives exactly the NO/YES ones, and there are as many as the matrix counts |
| Evaluation.PartRatio | src/performance_eval.py:182-188 | a guarded ratio of a part lies in [0, 1], is 1 exactly for the whole of a nonempty set, and is 0 exactly for an empty part |
| Evaluation.F1Between | src/performance_eval.py:184 | when precision and recall are both positive, F1 lies between them |
| Evaluation.MetricsMeaning | src/performance_eval.py:179-188 | all five metrics lie in [0, 1]; precision is 1 exactly when TP > 0 and FP = 0, recall is 1 exactly when TP > 0 and FN = 0, accuracy is 1 exactly when there are no errors; F1 is 0 exactly when P + R = 0, that is when TP = 0 |
| Evaluation.SegmentTable | src/performance_eval.py:232-241 | the breakdown has one line per key, each the counts of that key's records (and the reliability table at lines 279-288) |
| Evaluation.SegmentSums | src/performance_eval.py:233-241 | each segment's four counts add up to its total, and its accuracy is `(tp + tn) / total`, 0 for an empty segment |
| Evaluation.SortedValues | src/performance_eval.py:232 | `sorted(unique())` lists every value of the column once |
| Evaluation.SectorTableCovers | src/performance_eval.py:232-241 | the sector segments cover the frame: their sizes add up to the number of records |
| Evaluation.SectorsOfFrame | src/performance_eval.py:227-248 | there is a sector exactly when the frame is not empty |
| Evaluation.SectorErrorList | src/performance_eval.py:249-254 | the loop lists each given sector, in the given order, with its FP + FN count |
| Evaluation.SectorErrorsAgree | src/performance_eval.py:360-363 | a sector's FP + FN equals the number of its rows in the frame of errors |
| Evaluation.WorstErrorSector | src/performance_eval.py:360-366 | the worst sector of the cross analysis is a sector of the frame with the most errors, and every sector before it in first-appearance order has fewer, as the stable reverse sort and `[0]` give |
| Evaluation.SplitsAreGroups | src/performance_eval.py:374-380 | the error counts of the cross-analysis lines are the sizes of the reliability groups of the worst sector's errors |
| Evaluation.SplitAddsUp | src/performance_eval.py:374-380 | for each reliability, fp + fn is the line's error count, and that is at most the number of reports |
| Evaluation.SplitsAddUp | src/performance_eval.py:374-380 | every line of the cross analysis has fp + fn equal to its error count |
| Evaluation.CrossAddsUp | src/performance_eval.py:348-380 | the lines' error counts add up to the worst sector's error count, which no sector exceeds, and every line has fp + fn equal to its error count |
| Evaluation.GradeMonotone | src/performance_eval.py:516-524 | a higher accuracy never gets a lower grade |
| Evaluation.GradeOfCounts | src/performance_eval.py:516-524 | EXCELLENT exactly when 20(TP + TN) ≥ 19 · total (accuracy ≥ 0.95) for a nonempty frame; POOR exactly when the frame is empty or 4(TP + TN) < 3 · total |
| Evaluation.ToneMonotone | src/performance_eval.py:426-431 | a higher accuracy never gets a more doubtful tone; an EXCELLENT accuracy gets the promising tone, and the questionable tone comes only with FAIR or POOR (the saved report repeats the thresholds at lines 742-747) |
| Evaluation.BalanceByCounts | src/performance_eval.py:452-459 | no ratio remark unless FP and FN are both positive; over-extraction exactly when FP > 2 · FN, under-extraction exactly when 2 · FP < FN, and balanced otherwise (repeated at lines 773-780) |
| Evaluation.BalanceMirror | src/performance_eval.py:452-459 | swapping FP and FN swaps over- and under-extraction and keeps the balanced remark |
| Evaluation.AllFpFromD4Meaning | src/performance_eval.py:438-445 | the D4 warning fires exactly when there is a false positive and every false positive's reliability contains D4 (the saved report repeats the test at lines 754-761) |
| Evaluation.ObservationsOf | src/performance_eval.py:402-462 | the FP remark appears exactly when FP > 0 and the FN remark exactly when FN > 0; the D4 warning comes only with the FP remark; the ratio remark appears exactly when both do |
| Evaluation.SavedObservations | src/performance_eval.py:740-780 | with the confusion counts, the saved observations are the printed ones: an FP remark exactly when the frame has a YES/NO record, an FN remark exactly when it has a NO/YES record |
| Evaluation.AsWrittenWithoutFocus | src/performance_eval.py:750-780 | when the cross analysis does not focus on a sector, the saved observations as written agree with the printed ones |
| Evaluation.LeakShapeDropsNotes | src/performance_eval.py:670-673 | on a frame with two false positives in one sector and one false negative in another, all with one reliability, the printed observations have the FN and ratio remarks but the saved ones as written have neither |
| Evaluation.LeakCounterexample | src/performance_eval.py:670-673 | on a concrete three-record frame, the printed observations have the FN remark and the saved ones as written do not |
| Evaluation.SectorVerdictOf | src/performance_eval.py:553-559 | an empty table fails (`sector_errors[0]`); otherwise the best sector is the first with the fewest errors, and a worst sector is reported exactly when some sector has errors, namely the first with the most |
| Evaluation.SectorFindings | src/performance_eval.py:532-559 | the sector verdict fails exactly on an empty frame |
| Evaluation.ReliabilityVerdictOf | src/performance_eval.py:589-598 | no verdict for an empty table; otherwise the best label is the first with the fewest errors and the worst the last with the most |
| Evaluation.ReliabilityFindings | src/performance_eval.py:569-598 | there is a reliability verdict exactly when the frame is not empty |
| Evaluation.D4Errors | src/performance_eval.py:397 | the D4 error count is at most the number of errors, and equals it exactly when every error's reliability contains D4 (the saved report counts the same at line 694) |
| Evaluation.PerformanceEvaluator.constructor | src/performance_eval.py:37-48 | the evaluator starts with no records, no matrix, no metrics and empty error lists |
| Evaluation.PerformanceEvaluator.LoadTaggedData | src/performance_eval.py:56-114 | the frame becomes the valid cleaned rows, and nothing else changes |
| Evaluation.PerformanceEvaluator.CalculateConfusionMatrix | src/performance_eval.py:116-147 | stores the matrix of the frame and the FP and FN lists, and changes nothing else |
| Evaluation.PerformanceEvaluator.CalculateMetrics | src/performance_eval.py:162-196 | stores the five metrics of the stored matrix, and changes nothing else |
| Evaluation.PerformanceEvaluator.AnalyzeErrorsBySector | src/performance_eval.py:216-261 | no worst sector exactly when the frame is empty; otherwise the first sector, in first-appearance order, with the most FP + FN, and its count |
| Evaluation.PerformanceEvaluator.GenerateObservations | src/performance_eval.py:402-462 | the observations of the stored metrics and counts, which are those of the frame when the stored state is consistent |
| Evaluation.RunEvaluation | src/performance_eval.py:794-833 | the run reports success exactly when the loaded frame has a valid record (otherwise `save_report` raises `IndexError` at line 556 and the `except` returns `False`); the run's observations are those of the loaded frame, and its worst sector exists exactly when the frame is not empty and carries that sector's error count |
| ErrorExtraction.MasksDisjoint | src/extract_errors.py:38-41 | no record is both a false positive and a false negative |
| ErrorExtraction.PaddedAnswerIsNoError | src/extract_errors.py:38-44 | the masks do not strip, so a model answer `" YES"` is no error |
| ErrorExtraction.ErrorCountSplits | src/extract_errors.py:38-48 | the number of errors is the FP count plus the FN count |
| ErrorExtraction.ErrorTypeOf | src/extract_errors.py:51-54 | `Error_Type` is FP exactly for the false positives and FN exactly for the false negatives |
| ErrorExtraction.LabelAll | src/extract_errors.py:51-54 | every error gets its type, in order |
| ErrorExtraction.RecordLeTotal | src/extract_errors.py:57 | any two records are ordered by (reliability, sector), with missing cells last |
| ErrorExtraction.RecordLeTrans | src/extract_errors.py:57 | the (reliability, sector) order is transitive |
| ErrorExtraction.SortErrors | src/extract_errors.py:57 | the sorted table is a permutation of the labelled errors, ordered by (reliability, sector) |
| ErrorExtraction.ExtractErrors | src/extract_errors.py:44-54 | fails (the `ValueError` of the `Error_Type` assignment) exactly when no record is an error; otherwise yields the error table, which is not empty |
| ErrorExtraction.ErrorTable | src/extract_errors.py:38-57 | the table is a permutation of the labelled errors: every line is an error of the frame with the right type, every error is on a line, the table is as long as the list of errors, and it is ordered by (reliability, sector) |
| ErrorExtraction.ErrorTableStable | src/extract_errors.py:57 | the sort is stable: for every (reliability, sector) pair, the table's lines with that pair are the labelled errors with that pair in file order |
| Ordering.SortByStable | src/extract_errors.py:57 | the insertion sort keeps the elements that the order ties in their input order |
| ErrorExtraction.TableCountsMasks | src/extract_errors.py:47-57 | the table has exactly as many FP lines as the FP mask selects |
| ErrorExtraction.ReliabilityBreakdown | src/extract_errors.py:81-85 | for every reliability, its error count is its FP count plus its FN count |
| ErrorExtraction.SectorBreakdown | src/extract_errors.py:89-93 | for every sector, its error count is its FP count plus its FN count |

## Left out

- I/O: file reading, the encoding fallbacks, CSV writing, the
  `FileNotFoundError` branches, console printing and every report text
  writer (`generate_quality_report`, the text of `generate_tagging_report`
  and `save_report`, `analyze_error_examples`). These only move data in
  and out.
- CSV dtype inference. It is not only plumbing: it turns the coordinate
  column into floats, which changes what condition 10 searches for (see
  the modelling choices above). The model's cells are the texts as loaded.
- The branches for missing columns (`'Sector' not in self.df.columns`
  and the like). The model's records always have every column.
- Characters: `\d` and `\s` are the ASCII digits and the ASCII whitespace
  characters. `re.IGNORECASE` and `.lower()` have no effect on Hebrew
  letters and are not modelled. `upper()` maps only ASCII letters.
- Floating point: ratios are exact reals, so rounding and percent
  formatting are not modelled.
- numpy's Mersenne Twister behind `random_state=42` is not reproduced:
  which permutation of n rows the seed gives is left to the oracle `pick`,
  and the properties hold for every oracle.
- The coordinate serialisation `str(int(x))` of the tagging file
  (src/tagging_generator.py:436-438) drops leading zeros. It is CSV
  preparation and is not modelled. No claim is made about that column.
- `Report_Urgency`, the helper columns written only for printing, and the
  urgency breakdowns.
- The "All Sectors" breakdown of the cross analysis and the D4 examples of
  the saved report print only.
- Evaluation.RunEvaluation reports `False` only for the one failure the
  model has, a frame with no valid record. Other exceptions the `except`
  at src/performance_eval.py:829-833 would catch (file I/O, a missing
  column) come from I/O and pandas and are not modelled.
- Extraction.CoordinateExtractor.ProcessDataframe takes only the
  `Content_Body` column and returns the three new columns, not the whole
  frame written in place.
- Sampler.SelectPositiveSamples requires `n > 0` or a non-empty pool.
  With `n == 0` and no positive rows, the source divides by
  `len(sectors) == 0` at src/tagging_generator.py:166 and raises.
- Tagging.TaggingSampleGenerator.GenerateSample requires unique Report IDs
  in the frame. The size and edge-case claims need this. This captures the
  data invariant of the reports; the deduplication itself is modelled for
  any frame (`Selection.DedupUnique`).
- Tagging.DrawSample requires unique Report IDs, for the same reason.
- Evaluation.WorstErrorSector requires a nonempty frame. The source only
  looks for the worst sector when there are errors.
- Evaluation.PerformanceEvaluator.CalculateMetrics requires a stored
  matrix. Without one, the source's dictionary lookup raises `KeyError`.
- Evaluation.PerformanceEvaluator.GenerateObservations requires stored
  metrics and a stored matrix, for the same reason.
- Evaluation.PerformanceEvaluator.AnalyzeErrorsBySector returns the worst
  sector even when its count is 0. The source returns nothing, and prints
  the worst sector only when its count is positive. The sector and
  reliability tables it prints are modelled by `SegmentTable`.
- The evaluator takes the sector and reliability cells as strings. A
  missing cell would make the source's `sorted(...)` raise a `TypeError`.
- The `self.stats` lists of the sampler and the count of removed
  duplicates are printing aids and are not modelled.

## Findings

| source | as written | input that shows it | evidently intended | confidence | as-written member | corrected member |
|---|---|---|---|---|---|---|
| src/performance_eval.py:672-673 | `save_report` reuses the names `fp` and `fn` in the cross-analysis loop over the worst sector's reliabilities. The observations section (lines 750-780) then reads the last reliability's counts instead of the confusion-matrix counts. | three records: two YES/NO in sector A and one NO/YES in sector B, all with one reliability. The cross analysis leaves `fp = 2, fn = 0`, so the saved report omits the FN remark and the FP:FN ratio remark. | the observations use the confusion-matrix FP and FN, as `generate_observations` does | not executed | Evaluation.LeakCounterexample | Evaluation.SavedObservations |
