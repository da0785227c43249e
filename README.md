# clueminer-cli core in Dafny

This project models the sequential logic of clueminer-cli, the command-line front end of the Clueminer clustering
library. It proves properties of that model. The external clustering libraries are not modelled. Each collaborator
becomes a parameter of the operation that calls it:

- the algorithm run;
- a criterion's `score` and `isBetter`;
- the JSON parser for configuration overrides;
- `rank.sort`;
- the correlations;
- number formatting;
- the clock;
- the random index choice.

The modules follow the source files:

| module | models |
|---|---|
| `Model` | A configuration (`Props`) as a map updated in place by `put` and `merge`. Also clusterings, scores (NaN when a `ScoreException` is thrown) and criteria. |
| `Search` | The best-so-far tracker shared by every configuration search in `Runner.java`. It starts at `maxScore = 0.0` and replaces the best only on `isBetter`. |
| `Runner` | The override catalogues of `findBestHclust` and of the Cluto / Affinity Propagation branches. Also the cartesian "Ch2-hmetis" catalogue filled through `configs[i++]`, the cutoff default of `hierachical` and `safeName`. |
| `Dbscan` | The DBSCAN branch of `optFlatPartitioning`: the "sp" grid over minPts 4..10 with eps scans, and the default strategy as written. eps is the step index t, with eps = epsMax − t·(epsMax − epsMin)/10, in exact arithmetic. |
| `Rankings` | `evaluateRankings` and its size 1/2/3 objective enumeration, `rankingStrategyName`, `moName`, `shuffleArray` (Fisher–Yates on an array), `evaluateRanking`, `evaluateMOrank` and `correlation`. |
| `ResultsExporter` | Both `evaluate` overloads, the criteria.csv log, `writeMeta` and `clusterings`. |
| `Files` | The file system as a map from path to rows of cells. Unset `String[]` slots are null cells. It also holds `writeCsvLine` and the "header only when the file is absent, then one row" discipline. |
| `GnuplotScatter` | `triangleSize`, the plot-index loops of `plot`, script and data file names, the clause joining of `plotTemplate`, `toCsv` and `appendClass`. |
| `BasePlot` | `getDataDir` and `bashPlotScript`: extension stripping and one gnuplot line per plot. |
| `CliParams` | The option defaults, `concat`, and the memoised `getParams` / `getMetaParams`. |
| `RandomString` | The 36-symbol alphabet built by the static initialiser, the constructor guard, and `nextString` refilling its buffer in place. |
| `Text`, `TreeMaps`, `Combinations` | Shared definitions: joins, decimal digits and `%02d`, `indexOf`; `java.util.TreeMap` as a sorted association list; the index combinations the nested loops enumerate. |

Where the source updates state, the model does too:

- the search loops are methods with loop invariants;
- `prop` is a `Props` object written by `putInt` / `putDouble`;
- the hmetis catalogue, the `plots` array, the `mo` array of `evaluateMOrank` and the random-string buffer are arrays or sequences filled position by position;
- the `Clustering[]` array of `evaluateRanking` is shuffled in place by swaps;
- the exporters change a `FileSystem` object.

Each such method is proved against a specification function. Further lemmas state what those functions promise.

Where a comment in the source disagrees with its code, the model follows the code. The comment at ResultsExporter.java line 493 says only external criteria are exported to criteria.csv, but the code writes a line for each criterion that is not external; `ResultsExporter.CriteriaRowsMember` states what the code does.

## Model

| member | source | states |
|---|---|---|
| Model.Merge | src/main/java/org/clueminer/cli/Runner.java:525-526 | The merged configuration holds the keys of both; every key of the override takes the override's value and every other key keeps the base value. |
| Model.MergeIdempotent | src/main/java/org/clueminer/cli/Runner.java:525-526 | Merging the same override a second time changes nothing. |
| Model.Props.Copy | src/main/java/org/clueminer/cli/Runner.java:525 | `copy()` gives a fresh object with the same entries, so the catalogue never writes into `def`. |
| Model.Props.MergeWith | src/main/java/org/clueminer/cli/Runner.java:526 | `merge` in place: the new entries are the override-wins union of the old entries and the override. |
| Model.Props.Put | src/main/java/org/clueminer/cli/Runner.java:597-600 | `putInt`/`putDouble`: one key set to the new value, every other key unchanged. |
| Model.ScoreOf | src/main/java/org/clueminer/cli/Runner.java:532-537 | The score is NaN exactly when the criterion throws a ScoreException, otherwise the criterion's own value. |
| Search.TrackSnoc | src/main/java/org/clueminer/cli/Runner.java:538-541 | Scoring one more candidate is one more step of the best-so-far tracker. |
| Search.TrackShape | src/main/java/org/clueminer/cli/Runner.java:518-544 | The kept best is one of the candidates and `maxScore` is its score; with no best, `maxScore` is still 0.0. |
| Search.TrackNoWinner | src/main/java/org/clueminer/cli/Runner.java:518-544 | The search returns null exactly when no candidate's score `isBetter` than 0.0 (both directions). |
| Search.TrackLastImprovement | src/main/java/org/clueminer/cli/Runner.java:538-541 | The kept candidate beat the running maximum when it was scored, and no later candidate beats its score. |
| Search.TrackUnbeaten | src/main/java/org/clueminer/cli/Runner.java:538-541 | When `isBetter` is a strict order, no candidate's score is better than the final `maxScore`. |
| Search.TrackWinnerScored | src/main/java/org/clueminer/cli/Runner.java:532-541 | When NaN never wins under `isBetter`, the kept candidate's scoring did not fail. |
| Runner.CandidateConfigs | src/main/java/org/clueminer/cli/Runner.java:524-526 | One configuration per catalogue entry, in catalogue order, each the base merged with the parsed entry. |
| Runner.ScoresOf | src/main/java/org/clueminer/cli/Runner.java:532-537 | One score per candidate configuration, in order. |
| Runner.RunCandidate | src/main/java/org/clueminer/cli/Runner.java:524-537 | A candidate is clustered and scored on `def` merged with the parsed override; `def` itself is not written. |
| Runner.FindBestHclust | src/main/java/org/clueminer/cli/Runner.java:517-545 | Every catalogue entry is clustered on its merged configuration and exported, in order; the result is the tracker's winner over their scores (none when no score beats 0.0). |
| Runner.OptCatalogue | src/main/java/org/clueminer/cli/Runner.java:680-754 | Cluto / Affinity Propagation: `cnt` equals the catalogue size; every candidate is exported; the result is the tracker's winner and `bestConf` its override string, or "" when none wins. |
| Runner.Pairings | src/main/java/org/clueminer/cli/Runner.java:439-441 | One row of the cartesian catalogue has one entry per second-catalogue string. |
| Runner.CartesianLength | src/main/java/org/clueminer/cli/Runner.java:436 | The cartesian catalogue has as many entries as the product of the two catalogue sizes. |
| Runner.CartesianAt | src/main/java/org/clueminer/cli/Runner.java:438-441 | Entry a·m + b, for m second-catalogue strings, is `"{" + ch1 + ch1c[a] + "," + ch2c[b] + "}"`: outer loop over ch1c, inner over ch2c. |
| Runner.BuildCartesian | src/main/java/org/clueminer/cli/Runner.java:436-442 | The `configs[i++]` loops fill a fresh array with exactly the cartesian catalogue. |
| Runner.FillRow | src/main/java/org/clueminer/cli/Runner.java:439-441 | The inner loop writes one row after the cells already filled and leaves those cells as they were. |
| Runner.HmetisEntry | src/main/java/org/clueminer/cli/Runner.java:411-443 | "Ch2-hmetis" has 11·7 = 77 entries and entry a·7 + b combines ch1c[a] with ch2c[b]. |
| Runner.OptHierarchical | src/main/java/org/clueminer/cli/Runner.java:388-515 | A non-Chameleon algorithm gets one plain run and nothing is exported; Chameleon searches the catalogue its method names (the cartesian one built by its loops) with `findBestHclust`. |
| Runner.DefaultCutoff | src/main/java/org/clueminer/cli/Runner.java:311-313 | A configuration without a cutoff strategy gets the command-line one; one that has a cutoff strategy keeps it unchanged. |
| Runner.SafeName | src/main/java/org/clueminer/cli/Runner.java:803-805 | `safeName` keeps the length of the name. |
| Runner.SafeNameClean | src/main/java/org/clueminer/cli/Runner.java:803-805 | A safe name holds no space and no ASCII capital: each space becomes '_', each capital its lower-case letter, and every other character is kept in place. |
| Runner.SafeNameIdempotent | src/main/java/org/clueminer/cli/Runner.java:803-805 | Applying `safeName` twice gives the same result as once. |
| Dbscan.EpsDecrement | src/main/java/org/clueminer/cli/Runner.java:598-616 | eps starts at epsMax, and each `eps -= step` takes step t to step t + 1. |
| Dbscan.EpsGuard | src/main/java/org/clueminer/cli/Runner.java:599 | The guard `eps > epsMin` holds at step t exactly when the range is non-empty and t < 10; eps then lies in (epsMin, epsMax]. |
| Dbscan.EpsDecreasing | src/main/java/org/clueminer/cli/Runner.java:625-648 | Along a scan, eps strictly decreases, so no eps value is tried twice. |
| Dbscan.FloorSqrt | src/main/java/org/clueminer/cli/Runner.java:577 | `(int) Math.sqrt(n)` is the m with m·m ≤ n < (m+1)·(m+1). |
| Dbscan.TrialScores | src/main/java/org/clueminer/cli/Runner.java:600-607 | Each grid point is scored on `prop` with that minPts and eps written into it; a failing score is NaN. |
| Dbscan.RowLength | src/main/java/org/clueminer/cli/Runner.java:599-620 | An eps scan from step t makes at most 10 − t trials, and none exactly when eps starts at or below epsMin. |
| Dbscan.RowAt | src/main/java/org/clueminer/cli/Runner.java:598-616 | Trial k of an eps scan from step t is at (minPts, t + k), with eps still above epsMin. |
| Dbscan.RowAtK | src/main/java/org/clueminer/cli/Runner.java:598-616 | The same for one k. |
| Dbscan.RowEnds | src/main/java/org/clueminer/cli/Runner.java:616-619 | Every trial of a scan but the last lets it continue; the last trial has a degenerate result (size 1 or at least ⌊√n⌋) or leaves eps at or below epsMin. |
| Dbscan.SearchGridLength | src/main/java/org/clueminer/cli/Runner.java:596-621 | The "sp" grid makes at most ten trials per minPts, and none exactly when the eps range is empty. |
| Dbscan.SearchGridAt | src/main/java/org/clueminer/cli/Runner.java:596-621 | Every "sp" trial has minPts in 4..10 and eps in (epsMin, epsMax]. |
| Dbscan.RoundsShape | src/main/java/org/clueminer/cli/Runner.java:624-650 | In the default strategy eps is never reset: trial k is at step k, so at most ten trials happen in all; minPts never decreases and stays in 4..4 + rounds − 1. |
| Dbscan.RowBridge | src/main/java/org/clueminer/cli/Runner.java:599-620 | An eps scan depends on the results only through which trials stop it early. |
| Dbscan.RoundsBridge | src/main/java/org/clueminer/cli/Runner.java:626-650 | The same for the rounds of the default strategy. |
| Dbscan.RowByAtK | src/main/java/org/clueminer/cli/Runner.java:599-620 | The position of trial k of an eps scan, over the abstract shape. |
| Dbscan.RoundsAtK | src/main/java/org/clueminer/cli/Runner.java:626-650 | Trial k of the default strategy is at step k with minPts of one of the rounds so far. |
| Dbscan.RoundsMonoK | src/main/java/org/clueminer/cli/Runner.java:626-650 | Consecutive trials of the default strategy never go down in minPts. |
| Dbscan.RoundsBound | src/main/java/org/clueminer/cli/Runner.java:626-650 | The default strategy makes at most ten trials, and makes any only when the eps range is non-empty. |
| Dbscan.ScanFromStep | src/main/java/org/clueminer/cli/Runner.java:599-619 | One pass of the inner loop: the trial, then the rest of the scan unless that trial stops it. |
| Dbscan.StartTracks | src/main/java/org/clueminer/cli/Runner.java:575-578 | Before the first trial the locals are the tracker's start: maxScore 0.0, no result. |
| Dbscan.VisitTracks | src/main/java/org/clueminer/cli/Runner.java:609-615 | One pass of the loop body is one step of the best-so-far tracker, and `cnt` counts it. |
| Dbscan.VisitsTracks | src/main/java/org/clueminer/cli/Runner.java:599-620 | The locals after any run of trials are the tracker's state over their scores: the kept clustering, eps and minPts are the winner's, and `cnt` is the number of trials. |
| Dbscan.ScanFromVisits | src/main/java/org/clueminer/cli/Runner.java:599-620 | A whole eps scan continues the passes over its row of trials. |
| Dbscan.ScanFromKeeps | src/main/java/org/clueminer/cli/Runner.java:628-648 | An eps scan at minPts `pts` either keeps the earlier best or ends with a best found at `pts`. |
| Dbscan.PutKeepsAgreement | src/main/java/org/clueminer/cli/Runner.java:597-600 | Writing MIN_PTS or EPS leaves every other key of `prop` as it was on entry. |
| Dbscan.SelfAgrees | src/main/java/org/clueminer/cli/Runner.java:580 | `prop` agrees with itself outside the scan keys. |
| Dbscan.AgreeEverywhere | src/main/java/org/clueminer/cli/Runner.java:654-655 | Two configurations that agree outside the scan keys and on both scan keys are equal. |
| Dbscan.FinalPoint | src/main/java/org/clueminer/cli/Runner.java:654-655 | Writing EPS and then MIN_PTS gives the grid point's configuration. |
| Dbscan.PutEpsAtMinPts | src/main/java/org/clueminer/cli/Runner.java:600 | Writing EPS during a scan at minPts `pts` gives the grid point's configuration. |
| Dbscan.PutMinPts | src/main/java/org/clueminer/cli/Runner.java:597 | Writing MIN_PTS starts a scan at that minPts. |
| Dbscan.ScanOnce | src/main/java/org/clueminer/cli/Runner.java:600-619 | One pass: EPS is written, the algorithm is run on `prop` and scored, and the locals change as the tracker says. |
| Dbscan.ScanEps | src/main/java/org/clueminer/cli/Runner.java:598-620 | The inner `while (eps > epsMin)` loop performs exactly the trials of one eps scan; the step reached is the start plus their number, eps is above epsMin there exactly when steps remain, and `prop` differs from its entry value only in EPS. |
| Dbscan.DbscanSearchParams | src/main/java/org/clueminer/cli/Runner.java:595-655 | "sp": the trials are the grid over minPts 4..10 with full eps scans; `cnt` is their number; the result, bestEps and bestPts are those of the tracker's winner (none, 0.0 and 0 without one); `prop` ends as the winner's configuration. |
| Dbscan.ScanRound | src/main/java/org/clueminer/cli/Runner.java:597-620 | One round writes MIN_PTS and scans eps from where the previous round stopped. |
| Dbscan.ScanGrid | src/main/java/org/clueminer/cli/Runner.java:596-621 | The outer "sp" loop performs exactly the "sp" grid. |
| Dbscan.GridRound | src/main/java/org/clueminer/cli/Runner.java:597-620 | One pass of the outer "sp" loop extends the grid by one minPts. |
| Dbscan.DbscanIncremental | src/main/java/org/clueminer/cli/Runner.java:623-655 | The default strategy as written: eps carried across rounds; when it leaves the loop, bestPts written back is one more than the winner's minPts; when no score beats 0.0 it never leaves the loop. |
| Dbscan.DbscanIncrementalFixed | src/main/java/org/clueminer/cli/Runner.java:623-655 | The default strategy with its loop ending when eps is used up and the winner's own minPts written back: at most ten trials, and `prop` ends as the configuration that produced the result. |
| Dbscan.ScanRounds | src/main/java/org/clueminer/cli/Runner.java:626-650 | The corrected rounds: eps scans at minPts 4, 5, … from where the last one stopped, until a result is kept or eps reaches epsMin. |
| Dbscan.NextRound | src/main/java/org/clueminer/cli/Runner.java:627-649 | One round of the corrected loop, reporting whether eps is still above epsMin. |
| Rankings.ObjectiveSetsExact | src/main/java/org/clueminer/cli/ResultsExporter.java:168-198 | For minObjectives 1, 2 and 3 the objective lists are exactly the strictly increasing index lists of that length below n. |
| Rankings.ObjectiveSetsCount | src/main/java/org/clueminer/cli/ResultsExporter.java:168-198 | There are n singletons, C(n,2) pairs and C(n,3) triples. |
| Rankings.CallsOf | src/main/java/org/clueminer/cli/ResultsExporter.java:172-194 | One `evaluateRanking` call per objective list. |
| Rankings.FirstUnsupported | src/main/java/org/clueminer/cli/ResultsExporter.java:164-202 | The first rank the loop cannot serve (unsupported minObjectives, or no criteria at all) or the number of ranks. |
| Rankings.RankingCallsShape | src/main/java/org/clueminer/cli/ResultsExporter.java:164-202 | Every call made uses a supported rank, and its objective list has exactly minObjectives strictly increasing criterion indices. |
| Rankings.EnumerateSingles | src/main/java/org/clueminer/cli/ResultsExporter.java:169-174 | The singleton loop yields exactly the singletons, in order. |
| Rankings.EnumeratePairs | src/main/java/org/clueminer/cli/ResultsExporter.java:175-184 | The pair loops yield exactly the pairs i < j, in loop order, with `obj` updated in place. |
| Rankings.EnumerateTripleRow | src/main/java/org/clueminer/cli/ResultsExporter.java:192-195 | The innermost triple loop yields the triples (i, j, k) for k > j. |
| Rankings.EnumeratePlane | src/main/java/org/clueminer/cli/ResultsExporter.java:190-196 | The middle triple loop yields the triples with first index i. |
| Rankings.TriplesTail | src/main/java/org/clueminer/cli/ResultsExporter.java:188 | Stopping the outer loop at n − 2 loses no triple. |
| Rankings.EnumerateTriples | src/main/java/org/clueminer/cli/ResultsExporter.java:185-198 | The triple loops yield exactly the triples i < j < k, in loop order. |
| Rankings.EnumerateObjectives | src/main/java/org/clueminer/cli/ResultsExporter.java:168-201 | The switch on minObjectives: the objective lists of that size, or None for the default branch, which throws. |
| Rankings.EvaluateRankings | src/main/java/org/clueminer/cli/ResultsExporter.java:144-203 | The calls made are those for every rank before the first unsupported one, every objective list of its size, in loop order; the loop stops there. |
| Rankings.FirstUnsupportedAt | src/main/java/org/clueminer/cli/ResultsExporter.java:164-201 | A rank at or before the first unsupported one is that one exactly when it is unsupported. |
| Rankings.RankingCallsStep | src/main/java/org/clueminer/cli/ResultsExporter.java:164-201 | A supported rank appends its own calls to those of the earlier ranks. |
| Rankings.Labels | src/main/java/org/clueminer/cli/ResultsExporter.java:281-292 | One label per objective. |
| Rankings.RankingStrategyName | src/main/java/org/clueminer/cli/ResultsExporter.java:277-295 | The name is the rank name, "-", then the labels with a comma before every label but the first. |
| Rankings.StrategyNameCommas | src/main/java/org/clueminer/cli/ResultsExporter.java:277-295 | With labels free of commas, the name holds exactly one comma fewer than the objectives and no trailing comma. |
| Rankings.MoName | src/main/java/org/clueminer/cli/ResultsExporter.java:418-425 | Each objective's name followed by " & ", then the sorting objective's name. |
| Rankings.MoNameOfThree | src/main/java/org/clueminer/cli/ResultsExporter.java:418-425 | Two objectives and a sorting criterion read "A & B & C". |
| Rankings.Shuffle | src/main/java/org/clueminer/cli/ResultsExporter.java:266-275 | Fisher–Yates keeps the multiset of the array's elements: the result is a permutation. |
| Rankings.RankingRecordKeys | src/main/java/org/clueminer/cli/ResultsExporter.java:245-253 | The ranking row's TreeMap is sorted and holds exactly the five keys put. |
| Rankings.KeysAfterPuts | src/main/java/org/clueminer/cli/ResultsExporter.java:245-253 | Five puts into a sorted map keep it sorted and add exactly their keys. |
| Rankings.KeySetAfterPuts | src/main/java/org/clueminer/cli/ResultsExporter.java:245-253 | Five puts add exactly their five keys. |
| Rankings.RankingRecordValues | src/main/java/org/clueminer/cli/ResultsExporter.java:249-253 | Each key of the ranking row maps to the value put under it; the comparator's name wins on a clash. |
| Rankings.GetAfterPuts | src/main/java/org/clueminer/cli/ResultsExporter.java:249-253 | Looking up each of five keys after five puts gives the last value put under it. |
| Rankings.EvaluateRanking | src/main/java/org/clueminer/cli/ResultsExporter.java:235-263 | A multi-objective rank shuffles the shared array (a permutation), any other leaves it; when sorting succeeds one record is written under the header discipline, else nothing is written. |
| Rankings.NamesOf | src/main/java/org/clueminer/cli/ResultsExporter.java:378-389 | One name per criterion. |
| Rankings.MoEntries | src/main/java/org/clueminer/cli/ResultsExporter.java:405-412 | One entry per Pareto combination. |
| Rankings.Corrs | src/main/java/org/clueminer/cli/ResultsExporter.java:405 | One correlation per Pareto combination. |
| Rankings.EntriesSnoc | src/main/java/org/clueminer/cli/ResultsExporter.java:405-412 | One more combination adds its own entry and correlation. |
| Rankings.TripleLabel | src/main/java/org/clueminer/cli/ResultsExporter.java:418-425 | The label of (i, j, k) names the three criteria in order. |
| Rankings.MaxFromBounds | src/main/java/org/clueminer/cli/ResultsExporter.java:377-411 | The running maximum from -1.0 is the largest of -1.0 and the correlations, and is one of them. |
| Rankings.MaxFromSnoc | src/main/java/org/clueminer/cli/ResultsExporter.java:408-411 | A correlation replaces the maximum exactly when it is strictly greater. |
| Rankings.MaxFromAppend | src/main/java/org/clueminer/cli/ResultsExporter.java:408-411 | The running maximum over two runs continues from the first. |
| Rankings.MoCombosExact | src/main/java/org/clueminer/cli/ResultsExporter.java:378-380 | The combinations tried are exactly [i, j, k] with i < j < n and k < n, n·C(n,2) of them. |
| Rankings.MoAppend | src/main/java/org/clueminer/cli/ResultsExporter.java:378-380 | Two runs of pairs crossed in turn are their concatenation crossed. |
| Rankings.SortCriteria | src/main/java/org/clueminer/cli/ResultsExporter.java:380-413 | For a pair (i, j), every sorting criterion k puts its label and formatted correlation, and `maxCorr` moves only on a strictly greater correlation. |
| Rankings.SortStep | src/main/java/org/clueminer/cli/ResultsExporter.java:405-412 | One sorting criterion extends the result map and the maximum by its own entry. |
| Rankings.PairRowStep | src/main/java/org/clueminer/cli/ResultsExporter.java:379-414 | The next pair of a row extends the state by its sorting criteria. |
| Rankings.SecondObjectives | src/main/java/org/clueminer/cli/ResultsExporter.java:379-414 | The middle loop covers every j > i. |
| Rankings.EvaluateMORank | src/main/java/org/clueminer/cli/ResultsExporter.java:359-416 | The result map receives every Pareto combination's label and correlation in loop order, and `maxCorr` is the running maximum of their correlations from -1.0. |
| Rankings.SharedBuffer | src/main/java/org/clueminer/cli/ResultsExporter.java:374-400 | The single `mo` array keeps its n cells through every combination, each ranking stored over what the earlier ones left. |
| Rankings.MoCorrelationsAsWritten | src/main/java/org/clueminer/cli/ResultsExporter.java:374-405 | As written: combination t is correlated on the shared `mo` array after the rankings of combinations 0 … t were copied into it, in loop order. |
| Rankings.MoCorrelations | src/main/java/org/clueminer/cli/ResultsExporter.java:374-405 | Corrected: combination t is correlated on a fresh buffer holding its own ranking only. |
| Rankings.FreshBufferOwn | src/main/java/org/clueminer/cli/ResultsExporter.java:374-400 | A fresh buffer holds exactly its ranking, then nulls. |
| Rankings.SharedBufferTail | src/main/java/org/clueminer/cli/ResultsExporter.java:396-405 | After a combination, the shared array matches its fresh buffer in the cells its ranking fills and keeps the earlier cells after them; the two agree exactly when those kept cells are null. |
| Rankings.ShortRankingReadsStale | src/main/java/org/clueminer/cli/ResultsExporter.java:396-405 | Rankings [a, b] then [a]: the second correlation reads [a, b] where a fresh buffer holds [a, null]. |
| Rankings.EvalEntries | src/main/java/org/clueminer/cli/ResultsExporter.java:336-341 | One entry per criterion: its name and formatted correlation. |
| Rankings.EvalEntriesKeys | src/main/java/org/clueminer/cli/ResultsExporter.java:336-341 | The criterion names are the keys of their entries. |
| Rankings.MoEntriesKeys | src/main/java/org/clueminer/cli/ResultsExporter.java:405-412 | The Pareto labels are the keys of their entries. |
| Rankings.CorrelationRecordShape | src/main/java/org/clueminer/cli/ResultsExporter.java:333-348 | The correlation row has one column per distinct label (method name, criterion names, Pareto labels), in key order, with each header cell above its own value. |
| Rankings.Correlation | src/main/java/org/clueminer/cli/ResultsExporter.java:307-349 | `correlation` writes one record, built from the method's, each criterion's and each Pareto combination's correlation, under the header discipline. |
| ResultsExporter.Names | src/main/java/org/clueminer/cli/ResultsExporter.java:541-543 | One header name per criterion. |
| ResultsExporter.ScoreTexts | src/main/java/org/clueminer/cli/ResultsExporter.java:567-571 | One score text per criterion. |
| ResultsExporter.FirstFailure | src/main/java/org/clueminer/cli/ResultsExporter.java:566-575 | The criteria before the first that throws are all scored; that one is not. |
| ResultsExporter.EvalRowLayout | src/main/java/org/clueminer/cli/ResultsExporter.java:535-581 | Header and data line both have evals.length + 5 cells; when every criterion is scored, each score sits under its criterion's name and the template and algorithm time under theirs. |
| ResultsExporter.EvalHeaderCells | src/main/java/org/clueminer/cli/ResultsExporter.java:535-547 | The header names criterion e in column 3 + e, between "dataset", "clusters", "time (ms)" and "template", "alg time". |
| ResultsExporter.EvalRowShifts | src/main/java/org/clueminer/cli/ResultsExporter.java:566-581 | As written, a criterion that throws puts the template under that criterion's header and leaves "alg time" null. |
| ResultsExporter.EvalRowAligned | src/main/java/org/clueminer/cli/ResultsExporter.java:549-581 | The corrected line keeps every cell under its header whatever throws. |
| ResultsExporter.HeaderLine | src/main/java/org/clueminer/cli/ResultsExporter.java:536-546 | The header loop yields the leading names, the criterion names and the trailing names. |
| ResultsExporter.ScoreCells | src/main/java/org/clueminer/cli/ResultsExporter.java:566-575 | The scoring loop yields the scores of the criteria before the first that throws. |
| ResultsExporter.DataLineAsWritten | src/main/java/org/clueminer/cli/ResultsExporter.java:549-580 | The data line as written: the cells filled with `line[i++]`, then the unset slots. |
| ResultsExporter.DataLine | src/main/java/org/clueminer/cli/ResultsExporter.java:549-580 | The corrected data line. |
| ResultsExporter.EvaluateAsWritten | src/main/java/org/clueminer/cli/ResultsExporter.java:518-582 | A missing clustering or dataset throws and a missing criteria array writes nothing; otherwise the header is written if the file is absent, then the data line as written. |
| ResultsExporter.Evaluate | src/main/java/org/clueminer/cli/ResultsExporter.java:518-582 | The same outcomes, with the corrected data line. |
| ResultsExporter.KeysOf | src/main/java/org/clueminer/cli/ResultsExporter.java:446-448 | The loop over `keySet()` collects the keys in iteration order. |
| ResultsExporter.ValuesOf | src/main/java/org/clueminer/cli/ResultsExporter.java:473-475 | The loop over `values()` collects the values in iteration order. |
| ResultsExporter.CriteriaRowsMember | src/main/java/org/clueminer/cli/ResultsExporter.java:494-500 | A criteria.csv line is written for a scored criterion exactly when it is internal. |
| ResultsExporter.CriteriaRowsExact | src/main/java/org/clueminer/cli/ResultsExporter.java:486-505 | criteria.csv gains one line per internal criterion scored before the first that throws, in order, and nothing else. |
| ResultsExporter.MetaRowLayout | src/main/java/org/clueminer/cli/ResultsExporter.java:443-508 | Header and data line have meta.size() + evals.length + 3 cells; "alg time" is never filled; with every criterion scored each score sits under its criterion's name and the template under "template". |
| ResultsExporter.MetaHeaderCells | src/main/java/org/clueminer/cli/ResultsExporter.java:443-456 | The meta keys, "time (ms)", the criterion names, "template", "alg time", in that order. |
| ResultsExporter.MetaRowCells | src/main/java/org/clueminer/cli/ResultsExporter.java:471-507 | The meta values, the run time, the scores, the template, then nulls, in that order. |
| ResultsExporter.MetaRowShifts | src/main/java/org/clueminer/cli/ResultsExporter.java:486-507 | As written, a criterion that throws puts the template under that criterion's header and leaves the "template" column null. |
| ResultsExporter.PaddedRow | src/main/java/org/clueminer/cli/ResultsExporter.java:471-507 | Where the parts of a row filled by `line[i++]` and left unset sit. |
| ResultsExporter.CriteriaLogStep | src/main/java/org/clueminer/cli/ResultsExporter.java:494-500 | Scoring criterion e appends its criteria.csv line exactly when it is internal. |
| ResultsExporter.LogCriterion | src/main/java/org/clueminer/cli/ResultsExporter.java:494-500 | The criteria.csv line is written only for an internal criterion. |
| ResultsExporter.ScoreAndLog | src/main/java/org/clueminer/cli/ResultsExporter.java:486-505 | The scoring loop yields the scores before the first failure and appends exactly their criteria.csv lines. |
| ResultsExporter.EvaluateWithMeta | src/main/java/org/clueminer/cli/ResultsExporter.java:435-509 | The results header and the criteria.csv header are written only when their files are absent; then the criteria.csv lines and the data line are appended. |
| ResultsExporter.MetaRowFilled | src/main/java/org/clueminer/cli/ResultsExporter.java:471-508 | The filled slots followed by the unset ones make up the data line. |
| ResultsExporter.Formatted | src/main/java/org/clueminer/cli/ResultsExporter.java:113-115 | One formatted value per meta feature, in iteration order. |
| ResultsExporter.WriteMeta | src/main/java/org/clueminer/cli/ResultsExporter.java:101-117 | The meta file is overwritten with two lines: "dataset" and the feature names, then the dataset's name and the formatted values; no other file changes. |
| ResultsExporter.ClusteringRecordLayout | src/main/java/org/clueminer/cli/ResultsExporter.java:210-213 | The TreeMap orders the columns fingerprint, params, size, whatever the clustering. |
| ResultsExporter.ClusteringRows | src/main/java/org/clueminer/cli/ResultsExporter.java:208-219 | One data line per clustering. |
| ResultsExporter.ClusteringLine | src/main/java/org/clueminer/cli/ResultsExporter.java:210-213 | The record of one clustering: the fixed header and its fingerprint, params and size. |
| ResultsExporter.Clusterings | src/main/java/org/clueminer/cli/ResultsExporter.java:205-222 | One line per clustering in list order, the header only when the file was absent; an empty list writes nothing; a new file holds the header once, then the lines. |
| Files.Texts | src/main/java/org/clueminer/cli/ResultsExporter.java:599-605 | A row of strings, one cell each, in order. |
| Files.Nulls | src/main/java/org/clueminer/cli/ResultsExporter.java:536 | Unset slots of a `String[]` are null cells. |
| Files.TextsMiddle | src/main/java/org/clueminer/cli/ResultsExporter.java:536-546 | Where the cells of each part of a concatenated row sit. |
| Files.TextsThenNulls | src/main/java/org/clueminer/cli/ResultsExporter.java:549-581 | The filled slots of a line followed by its unset ones. |
| Files.HeaderOr | src/main/java/org/clueminer/cli/ResultsExporter.java:256-259 | A file starts from its old rows, or from the header when absent. |
| Files.Append | src/main/java/org/clueminer/cli/ResultsExporter.java:599-611 | Appending adds the row at the end of the file (creating it when absent) and changes no other file. |
| Files.AppendAllRows | src/main/java/org/clueminer/cli/ResultsExporter.java:599-611 | Appending rows one by one appends them all, in order, and changes no other file. |
| Files.HeaderIfAbsent | src/main/java/org/clueminer/cli/ResultsExporter.java:256-258 | The header is written only when the file is absent; no other file changes. |
| Files.RecordsKeepOneHeader | src/main/java/org/clueminer/cli/ResultsExporter.java:215-219 | A file written only under the header discipline holds its header exactly once, as its first row, followed by the data rows in order. |
| Files.RecordStep | src/main/java/org/clueminer/cli/ResultsExporter.java:215-219 | One more record extends the data rows after the header by one. |
| Files.FileSystem.WriteCsvLine | src/main/java/org/clueminer/cli/ResultsExporter.java:599-611 | `writeCsvLine(file, columns, append)`: append mode adds the line, otherwise the file becomes that one line. |
| Files.FileSystem.WriteRecord | src/main/java/org/clueminer/cli/ResultsExporter.java:256-259 | The header only when the file is absent, then the data row. |
| GnuplotScatter.TriangleSizeCountsPairs | src/main/java/org/clueminer/cli/GnuplotScatter.java:80-82 | `triangleSize(n)` is C(n,2): the number of pairs i < j < n, and twice it is n·(n − 1). |
| GnuplotScatter.ScriptNamesDistinct | src/main/java/org/clueminer/cli/GnuplotScatter.java:92-93 | Different plot indices give different script names. |
| GnuplotScatter.DataFileNameRoundTrip | src/main/java/org/clueminer/cli/GnuplotScatter.java:156 | The dataset name is recovered from "data-" + name + ".csv", so different datasets use different data files. |
| GnuplotScatter.ScriptsAt | src/main/java/org/clueminer/cli/GnuplotScatter.java:60 | One script per pair of attributes. |
| GnuplotScatter.ScriptsAtAppend | src/main/java/org/clueminer/cli/GnuplotScatter.java:58-62 | The scripts of two runs of pairs continue each other's indices. |
| GnuplotScatter.ScriptsAtPrefix | src/main/java/org/clueminer/cli/GnuplotScatter.java:58-62 | The scripts of a prefix of the pairs are a prefix of the scripts. |
| GnuplotScatter.ScriptNames | src/main/java/org/clueminer/cli/GnuplotScatter.java:60 | The stored names are the scripts' names, in slot order. |
| GnuplotScatter.PlotRow | src/main/java/org/clueminer/cli/GnuplotScatter.java:59-61 | The inner loop writes a plot per pair of the row, each naming attributes the dataset has; a missing second attribute throws before its script is written, and a store past the end throws after it was written. |
| GnuplotScatter.RowFull | src/main/java/org/clueminer/cli/GnuplotScatter.java:59-61 | A finished row i adds N − 1 − i scripts to those written before it. |
| GnuplotScatter.RowFullShaped | src/main/java/org/clueminer/cli/GnuplotScatter.java:59-61 | A finished row writes exactly its pairs under consecutive indices. |
| GnuplotScatter.PlotLoop | src/main/java/org/clueminer/cli/GnuplotScatter.java:57-62 | The nested loops write the scripts of the pairs in loop order, a prefix of them all, until an attribute is missing or a store overflows. |
| GnuplotScatter.PlotStep | src/main/java/org/clueminer/cli/GnuplotScatter.java:58-62 | One more row extends the scripts written, which stay a prefix of all the loop's scripts. |
| GnuplotScatter.PairsPrefix | src/main/java/org/clueminer/cli/GnuplotScatter.java:58-62 | The pairs with smaller first index come first. |
| GnuplotScatter.PlotAsWritten | src/main/java/org/clueminer/cli/GnuplotScatter.java:50-62 | As written, the pairs i < j ≤ n with i < n, n = triangleSize(attributeCount), fill n slots. The loop completes exactly when there are at most two attributes. Otherwise it writes the scripts of (0, 1) … (0, attributeCount − 1), then throws on pair (0, attributeCount), whose attribute the dataset lacks. |
| GnuplotScatter.SmallPairsPlottable | src/main/java/org/clueminer/cli/GnuplotScatter.java:58-61 | With at most two attributes, every pair the loop as written reaches names attributes the dataset has. |
| GnuplotScatter.FirstRowAsWritten | src/main/java/org/clueminer/cli/GnuplotScatter.java:58-61 | With three or more attributes, the first attributeCount − 1 plots are (0, 1) … (0, attributeCount − 1), and plot attributeCount − 1 is pair (0, attributeCount), past the last attribute. |
| GnuplotScatter.PlotOverflows | src/main/java/org/clueminer/cli/GnuplotScatter.java:55-61 | As written, the loop's pairs fit the triangleSize(attributeCount) slots exactly when the dataset has at most two attributes. |
| GnuplotScatter.ThreeAttributesOverflow | src/main/java/org/clueminer/cli/GnuplotScatter.java:55-61 | Three attributes: three slots against six pairs in the loop. |
| GnuplotScatter.Plot | src/main/java/org/clueminer/cli/GnuplotScatter.java:50-62 | Corrected: one script per attribute pair i < j < attributeCount, filling the triangleSize(attributeCount) slots exactly, slot s holding plot s. |
| GnuplotScatter.PlotCovers | src/main/java/org/clueminer/cli/GnuplotScatter.java:58-61 | The corrected loop plots each attribute pair i < j < attributeCount and nothing else. |
| GnuplotScatter.PlotNamesDistinct | src/main/java/org/clueminer/cli/GnuplotScatter.java:60 | Every plot is written under a name of its own. |
| GnuplotScatter.Clauses | src/main/java/org/clueminer/cli/GnuplotScatter.java:131-143 | One clause per cluster. |
| GnuplotScatter.PartialStep | src/main/java/org/clueminer/cli/GnuplotScatter.java:131-143 | One more cluster appends its clause, preceded by "plot " for the first and followed by a continuation or the final newline. |
| GnuplotScatter.PlotTemplate | src/main/java/org/clueminer/cli/GnuplotScatter.java:104-145 | The preamble, then "plot " once before the first clause, clauses separated by ", \" line breaks, a newline after the last. |
| GnuplotScatter.AppendClauses | src/main/java/org/clueminer/cli/GnuplotScatter.java:128-143 | The cluster loop appends exactly the plot command. |
| GnuplotScatter.PlotCommandLinesOf | src/main/java/org/clueminer/cli/GnuplotScatter.java:131-143 | A plot command spans one line per clause when no clause holds a line break. |
| GnuplotScatter.PlotCommandLines | src/main/java/org/clueminer/cli/GnuplotScatter.java:131-143 | With no line break in the names, the plot command spans exactly one line per cluster. |
| GnuplotScatter.ClauseHasNoBreak | src/main/java/org/clueminer/cli/GnuplotScatter.java:135 | A clause holds no line break when its parts hold none. |
| GnuplotScatter.AppendClass | src/main/java/org/clueminer/cli/GnuplotScatter.java:181-190 | The values separated by commas, then a comma and the cluster's name. |
| GnuplotScatter.AppendClassCommas | src/main/java/org/clueminer/cli/GnuplotScatter.java:181-190 | A data line holds one comma per value (one when there is none), given comma-free values and name. |
| GnuplotScatter.CsvWriter.WriteNext | src/main/java/org/clueminer/cli/GnuplotScatter.java:173 | The header row is appended to what the writer holds. |
| GnuplotScatter.CsvWriter.WriteLine | src/main/java/org/clueminer/cli/GnuplotScatter.java:176 | A data line is appended to what the writer holds. |
| GnuplotScatter.ClusterLines | src/main/java/org/clueminer/cli/GnuplotScatter.java:175-177 | One data line per instance of a cluster, in order. |
| GnuplotScatter.CsvLinesCount | src/main/java/org/clueminer/cli/GnuplotScatter.java:174-178 | The data file has exactly one line per instance. |
| GnuplotScatter.CsvLinesMember | src/main/java/org/clueminer/cli/GnuplotScatter.java:174-178 | Each line is an instance labelled with its own cluster's name, and every instance has one. |
| GnuplotScatter.WriteCluster | src/main/java/org/clueminer/cli/GnuplotScatter.java:175-177 | The inner loop writes one cluster's lines. |
| GnuplotScatter.ToCsv | src/main/java/org/clueminer/cli/GnuplotScatter.java:166-179 | A header of the attribute names then "label" (attributeCount + 1 cells), then one line per instance, cluster by cluster. |
| BasePlot.BasePlot.constructor | src/main/java/org/clueminer/plot/BasePlot.java:34-39 | A new exporter keeps its base folder, and its data sub-folder is "data". |
| BasePlot.BasePlot.DataDir | src/main/java/org/clueminer/plot/BasePlot.java:41-44 | `getDataDir(dir)` is dir, a separator, then the data folder. |
| BasePlot.StemShape | src/main/java/org/clueminer/plot/BasePlot.java:65-70 | A stem is the name itself, or the proper prefix before the first '.' when that dot is not the first character; cutting again changes nothing. |
| BasePlot.StemKeeps | src/main/java/org/clueminer/plot/BasePlot.java:66-67 | Dotless names and names starting with a dot are kept whole. |
| BasePlot.ScriptLines | src/main/java/org/clueminer/plot/BasePlot.java:65-73 | One render command per plot, in input order. |
| BasePlot.BashPlotScript | src/main/java/org/clueminer/plot/BasePlot.java:57-76 | The script file is dir + "/_plot-" + ext, and what is written is the bash template, the TERM line, then one gnuplot line per plot stem, in order. |
| BasePlot.NoBreakInLine | src/main/java/org/clueminer/plot/BasePlot.java:71-72 | A render command is one line ending in a newline. |
| BasePlot.ScriptLinesCount | src/main/java/org/clueminer/plot/BasePlot.java:65-73 | The render commands form exactly one text line per plot. |
| CliParams.Concat | src/main/java/org/clueminer/cli/CliParams.java:150-156 | Every word followed by one space, in list order. |
| CliParams.ConcatShape | src/main/java/org/clueminer/cli/CliParams.java:150-156 | The length is the sum of (length + 1); there is one more space per word than inside the words; the empty list gives "" and only it does. |
| CliParams.CliParams.constructor | src/main/java/org/clueminer/cli/CliParams.java:40-134 | The option defaults: separator ",", clsIndex −1, cluster "rows", repeat 1, optEval "NMI-sqrt", and the others. |
| CliParams.CliParams.GetParams | src/main/java/org/clueminer/cli/CliParams.java:136-141 | The first call joins `params` and caches it in `p`; later calls return the cached string whatever `params` holds then. |
| CliParams.CliParams.GetMetaParams | src/main/java/org/clueminer/cli/CliParams.java:143-148 | The same cache for `metaParams` in `meta`. |
| RandomString.Symbols | src/main/java/org/clueminer/cli/RandomString.java:32-41 | The static initialiser builds exactly the 36 symbols, the digits then the letters a–z. |
| RandomString.AlphabetMembers | src/main/java/org/clueminer/cli/RandomString.java:32-41 | A character is a symbol exactly when it is a decimal digit or a lower-case Latin letter. |
| RandomString.RandomString.constructor | src/main/java/org/clueminer/cli/RandomString.java:47 | The buffer has the requested length. |
| RandomString.RandomString.NextString | src/main/java/org/clueminer/cli/RandomString.java:50-55 | The result is the buffer, of the constructor's length; every character is the symbol at the index chosen for its position. |
| RandomString.Create | src/main/java/org/clueminer/cli/RandomString.java:43-48 | A length below 1 throws; otherwise a generator with a buffer of that length. |
| Text.JoinSnoc | src/main/java/org/clueminer/cli/ResultsExporter.java:281-292 | Appending a separator and one more item extends a join. |
| Text.TerminatedThenLastIsJoin | src/main/java/org/clueminer/cli/ResultsExporter.java:418-425 | Each item followed by the separator and then a last item is the join of all of them. |
| Text.TerminatedLength | src/main/java/org/clueminer/cli/CliParams.java:150-156 | Each item contributes its length plus the terminator's length. |
| Text.JoinCount | src/main/java/org/clueminer/cli/ResultsExporter.java:281-292 | A join of n separator-free items holds n − 1 separators. |
| Text.JoinCountIn | src/main/java/org/clueminer/cli/GnuplotScatter.java:131-143 | A join of n items holds n − 1 copies of a character the separator holds once and the items never. |
| Text.DigitChar | src/main/java/org/clueminer/cli/ResultsExporter.java:251 | The character of a digit 0..9 is a decimal digit. |
| Text.Digits | src/main/java/org/clueminer/cli/ResultsExporter.java:251 | `String.valueOf(n)` for n ≥ 0 is a non-empty string of decimal digits. |
| Text.Pad2 | src/main/java/org/clueminer/cli/GnuplotScatter.java:92 | "%02d" renders only decimal digits. |
| Text.ParseDigitsOfDigits | src/main/java/org/clueminer/cli/ResultsExporter.java:251 | Parsing a rendered number gives it back. |
| Text.Pad2RoundTrip | src/main/java/org/clueminer/cli/GnuplotScatter.java:92 | Parsing a padded index gives the index back; it has two characters below 100 and at least three otherwise. |
| Text.Pad2Injective | src/main/java/org/clueminer/cli/GnuplotScatter.java:92 | Distinct indices are padded differently. |
| Text.IndexOf | src/main/java/org/clueminer/plot/BasePlot.java:66 | `indexOf(c)`: −1 when absent, otherwise the first position holding c. |
| TreeMaps.StrLessIrreflexive | src/main/java/org/clueminer/cli/ResultsExporter.java:210 | The key order is irreflexive. |
| TreeMaps.StrLessTransitive | src/main/java/org/clueminer/cli/ResultsExporter.java:210 | The key order is transitive. |
| TreeMaps.StrLessTotal | src/main/java/org/clueminer/cli/ResultsExporter.java:210 | Any two different keys are ordered one way or the other. |
| TreeMaps.Keys | src/main/java/org/clueminer/cli/ResultsExporter.java:217 | `keySet()` in iteration order, one per entry. |
| TreeMaps.Values | src/main/java/org/clueminer/cli/ResultsExporter.java:219 | `values()` in iteration order, one per entry. |
| TreeMaps.PutKeys | src/main/java/org/clueminer/cli/ResultsExporter.java:211-213 | A put adds its key to the key set and nothing else. |
| TreeMaps.PutSorted | src/main/java/org/clueminer/cli/ResultsExporter.java:211-213 | A put keeps the entries sorted by key, so keys stay unique and in order. |
| TreeMaps.PutGet | src/main/java/org/clueminer/cli/ResultsExporter.java:211-213 | After a put the key maps to the new value and every other key to its old value. |
| TreeMaps.GetAbsentFirst | src/main/java/org/clueminer/cli/ResultsExporter.java:210-213 | In a sorted map a key does not occur again after its entry. |
| TreeMaps.ColumnsAlign | src/main/java/org/clueminer/cli/ResultsExporter.java:216-219 | Column i of the header is the key whose value is in column i of the row. |
| TreeMaps.GetAt | src/main/java/org/clueminer/cli/ResultsExporter.java:216-219 | The value in column i is what the map holds for the key in column i. |
| TreeMaps.PutAllSnoc | src/main/java/org/clueminer/cli/ResultsExporter.java:336-341 | One more put extends a run of puts. |
| TreeMaps.PutAllAppend | src/main/java/org/clueminer/cli/ResultsExporter.java:333-342 | Two runs of puts are one run. |
| TreeMaps.PutAllSorted | src/main/java/org/clueminer/cli/ResultsExporter.java:333-342 | Puts keep the map sorted, and its keys are the old keys plus those put. |
| Combinations.SinglesMembers | src/main/java/org/clueminer/cli/ResultsExporter.java:170-173 | Each singleton below n occurs, and nothing else. |
| Combinations.PairRowMember | src/main/java/org/clueminer/cli/ResultsExporter.java:179-182 | The row of i holds exactly the pairs (i, j) with i < j < n. |
| Combinations.PairsMember | src/main/java/org/clueminer/cli/ResultsExporter.java:177-183 | The pairs below row i are exactly those with first index below i. |
| Combinations.PairsMembers | src/main/java/org/clueminer/cli/ResultsExporter.java:177-183 | Exactly the pairs i < j < n occur. |
| Combinations.PairsCount | src/main/java/org/clueminer/cli/ResultsExporter.java:177-183 | There are C(n,2) − C(n−i,2) of them; C(n,2) in all. |
| Combinations.TripleRowMember | src/main/java/org/clueminer/cli/ResultsExporter.java:192-195 | The row of (i, j) holds exactly the triples (i, j, k) with j < k < n. |
| Combinations.PlaneMember | src/main/java/org/clueminer/cli/ResultsExporter.java:190-196 | The plane of i holds exactly the triples with first index i. |
| Combinations.TriplesMember | src/main/java/org/clueminer/cli/ResultsExporter.java:188-197 | The triples below plane i are exactly those with first index below i. |
| Combinations.TriplesMembers | src/main/java/org/clueminer/cli/ResultsExporter.java:188-197 | Exactly the triples i < j < k < n occur. |
| Combinations.PlaneCount | src/main/java/org/clueminer/cli/ResultsExporter.java:190-196 | The plane of i, up to second index j, holds C(n−1−i, 2) − C(n−j, 2) triples. |
| Combinations.TriplesCount | src/main/java/org/clueminer/cli/ResultsExporter.java:188-197 | There are C(n,3) − C(n−i,3) of them; C(n,3) in all. |
| Combinations.CrossedAppend | src/main/java/org/clueminer/cli/ResultsExporter.java:378-380 | Crossing two runs of pairs is crossing their concatenation. |
| Combinations.SortRowMember | src/main/java/org/clueminer/cli/ResultsExporter.java:380 | A pair's row holds the pair extended by each k < n. |
| Combinations.CrossedMember | src/main/java/org/clueminer/cli/ResultsExporter.java:378-380 | A crossed list holds exactly the listed pairs each extended by a k < n. |
| Combinations.CrossedCount | src/main/java/org/clueminer/cli/ResultsExporter.java:378-380 | Each listed pair gives n combinations. |
| Combinations.CrossedMembers | src/main/java/org/clueminer/cli/ResultsExporter.java:378-380 | n combinations per listed pair: each listed pair extended by each k < n, and nothing else. |

## Left out

- Dataset loading, JSON configuration parsing and the command-line parsing of `Main`, `Run` and `Params` are not part of this model. An override string becomes a configuration through the `parse` parameter.
- The meta-search thread pool and the background executor are left out: they are concurrency and orchestration.
- Console output and logging are left out, as are the `StopWatch` timing of `cluster` (the clustering's run time is an input) and the progress printouts.
- Floating point is not modelled. `eps -= step` is exact step arithmetic, so IEEE rounding of eps is not captured. Scores and correlations are uninterpreted reals compared only through `isBetter` and `>`. `DecimalFormat`, `%.2f` and `String.valueOf(double)` are the formatting parameters of `Formats`.
- The CURE branch of `optFlatPartitioning` is left out: its `shrink += 0.1` loop runs a number of times that depends on rounding.
- The internals of `stdHierarchical`, the heatmap rendering, `GnuplotLinePlot`, `DataGenerator` and `FileUtil` (directory creation) are not part of this model.
- BasePlot.BasePlot.constructor: `FileUtil.mkdir(folder)` is modelled as returning its argument unchanged, so `baseFolder == folder`. The source stores the absolute, normalised path of the created directory, and throws a `RuntimeException` when `mkdirs()` fails; neither the normalisation nor the exception is captured. The callers in `Runner` pass paths that `mkdir` has already made absolute.
- BasePlot.BasePlot.DataDir: `FileUtil.mkdir(dir + "/data")` is modelled as returning its argument unchanged, so the result is `dir + "/" + dataFolder`. The absolute-path normalisation and the `RuntimeException` when `mkdirs()` fails are not captured.
- Rankings.Correlation: each criterion's correlation is an independent input, taken in evaluator order. In the source, `Arrays.sort(mo, comp)` re-sorts the same `mo` array in place for each evaluator. The sort is stable, so ties keep the order the previous criterion left, and each correlation can depend on the criteria sorted before it. That chained in-place sort, done by the foreign `ClusteringComparator`, is not modelled.
- `exportFront` is not part of this model. It formats floating-point front values, and its header line appends the builder to itself (ResultsExporter.java line 637).
- `ranking()`, `resultsFile` and `createNewFile` are left out: they are file-name and file-creation plumbing, and the file system map stands in for them.
- `ParetoFrontQueue`, the mo-criteria provider lookup, `numFronts`, `Correlation` and `ClusteringComparator` are foreign calls. The Pareto rankings are a function from a combination to a sequence of clusterings, the correlation is a function of the buffer it reads, and `rank.sort` is a parameter that may fail.
- `HashMap` iteration order (meta features, `keySet()`, `values()`) is an input sequence, not derived from hashing.
- CSV quoting and the separator of the CSV writer are left out: a row is a sequence of cells.
- Rankings.EvaluateMORank: takes each combination's correlation as a function of that combination alone, which is the fresh-buffer behaviour of Rankings.MoCorrelations. The source's reuse of one `mo` array, where a ranking shorter than `ref` is correlated together with stale entries, is modelled by Rankings.MoCorrelationsAsWritten and is not threaded through EvaluateMORank.
- ResultsExporter.EvaluateWithMeta: writes the data line as the source does, with the shift that ResultsExporter.MetaRowShifts states after a throwing criterion. The Findings row for ResultsExporter.java:566-581 describes the same defect; no aligned version of this overload is modelled.
- Files.FileSystem.WriteCsvLine: always writes. The source catches the FileNotFoundException of opening the writer and only logs it, so a file that cannot be opened loses the line silently; that failure is not modelled.
- CliParams.CliParams.constructor: the `home` field is left out. Its default is built from the `user.home` system property and a resource bundle, both outside this model.
- TreeMaps.StrLess: compares characters by Unicode scalar value, whereas `String.compareTo` compares UTF-16 code units. The two orders differ only for characters outside the Basic Multilingual Plane.
- GnuplotScatter.PlotAsWritten: `Dataset.getAttribute` is assumed to throw for an attribute index at or past attributeCount. The empty script file that `writePlot` opens before `plotTemplate` throws is not modelled.
- The `chmod` process call and the file write of `bashPlotScript` are left out. The script is the text written, and the bash template is a parameter.
- `PointTypeIterator` is a given sequence of point types, one per cluster.
- The min/max axis ranges of `plotTemplate` are opaque strings in its preamble.
- `GnuplotScatter`'s constructor and `getDataDir` repeat `BasePlot`'s, so they are modelled once, in `BasePlot`.
- GnuplotScatter.Plot: the two closing calls of `plot` (pdf and png) go to `GnuplotHelper.bashPlotScript`, a static method of the foreign class `org.clueminer.gnuplot.GnuplotHelper`, and are left out. `BasePlot.BashPlotScript` models `BasePlot`'s own `bashPlotScript`, which `GnuplotLinePlot` inherits; it is not what the scatter plot calls.
- GnuplotScatter.TriangleSize: `n*(n-1)/2` is computed on unbounded integers, so the 32-bit overflow for attribute counts above 46341 is not modelled.
- Runner.SafeName: lowers ASCII capitals only, whereas `String.toLowerCase` also lowers other Unicode letters.
- Model.Key: the keys the search writes (MIN_PTS, EPS, cutoff strategy) are constructors of their own, so a parsed override key spelled the same way is not identified with them.
- Dbscan.DbscanIncremental: the source's `do … while (bestEps == 0.0)` may never end. The model runs at most `fuel` rounds, and `done` false says the source would still be looping. Rounds beyond the fuel are not modelled.
- Rankings.Shuffle: the random index is a nondeterministic choice in 0..i. No distribution is modelled.
- RandomString.RandomString.NextString: each random symbol index is a nondeterministic choice below 36. No distribution is modelled.
- ResultsExporter.Evaluate: the algorithm time cell is the `perfTime` formatting parameter applied to the clustering's parameters, not a `PERFORMANCE` property lookup.

## Findings

| source | as written | input that shows it | evidently intended | confidence | as-written member | corrected member |
|---|---|---|---|---|---|---|
| src/main/java/org/clueminer/cli/GnuplotScatter.java:55-62 | The loops run over i < n and i < j ≤ n, where n = triangleSize(attributeCount) is also the size of `plots`. | A dataset with 3 attributes: the loop's third pair is (0, 3), so `plotTemplate` asks for attribute 3, which does not exist, and throws. Its 6 pairs would not fit the 3 slots either. | One plot per attribute pair i < j < attributeCount, which fills the triangleSize(attributeCount) slots exactly. | not executed | GnuplotScatter.PlotAsWritten | GnuplotScatter.PlotCovers |
| src/main/java/org/clueminer/cli/ResultsExporter.java:566-581 | When a score throws, `i` stops short, so the template and the algorithm time are written into score columns. | A criterion whose `getScore` throws: the template sits under that criterion's header, and "alg time" is null. | Every cell stays under its own header; unscored criteria are left empty. | not executed | ResultsExporter.EvalRowShifts | ResultsExporter.EvalRowAligned |
| src/main/java/org/clueminer/cli/Runner.java:624-655 | `bestPts++` runs after the round that found the best eps, and that value is what gets written back as MIN_PTS. | A first trial at minPts 4 that beats 0.0: the loop ends with bestPts 5, and MIN_PTS 5 is written next to the eps found at minPts 4. | The MIN_PTS written back is the minPts that produced the kept clustering. | not executed | Dbscan.DbscanIncremental | Dbscan.DbscanIncrementalFixed |
| src/main/java/org/clueminer/cli/Runner.java:626-650 | The do-loop repeats while `bestEps == 0.0`. eps is never reset, so once eps reaches epsMin every round makes no trial. | A criterion under which no score beats 0.0: the loop never ends. | The loop stops once eps is used up, after at most ten trials. | not executed | Dbscan.DbscanIncremental | Dbscan.DbscanIncrementalFixed |
| src/main/java/org/clueminer/cli/ResultsExporter.java:374-405 | `mo` is allocated once, before the loops, and each ranking is copied over its first cells, so a ranking shorter than `ref` leaves the earlier combinations' clusterings in the tail that `correlation` reads. | Two combinations whose rankings hold [a, b] and then [a] (a Pareto queue that drops a clustering, or equal keys merged by the SortedMap): the second correlation reads [a, b] instead of [a, null]. | Each combination is correlated on its own ranking only. | not executed | Rankings.MoCorrelationsAsWritten | Rankings.MoCorrelations |
