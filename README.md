# League of Legends match-up statistics engine, modelled in Dafny

This project models the statistics engine of a scraper for per-champion,
per-lane League of Legends statistics. It covers three parts.

1. **Snapshot loading** (`format_lolalytics_data`), in module `LoadData`.
   Each patch's raw records have their `[enemy_id, matches, wins, _]` tuples
   expanded into match-up records. The records are then regrouped by champion
   id, lane and patch. A champion-lane seen in several patches is merged:
   - sample sizes are summed;
   - the pick rate is recomputed;
   - lane rates and the average win rate become n-weighted means;
   - match-up matches and wins are summed and their win rates recomputed.

   A champion-lane seen in only one patch passes through as it is.
2. **Champions**, in modules `ChampionData` and `BlindPick`.
   - A Champion is one champion in one lane, built from its record.
   - Derived metrics:
     - rank-normalised win rate;
     - raw and normalised match-up win rates;
     - match-up pick rate;
     - win rate without one opponent;
     - match-up-normalised win rate.
   - The blind-pick simulation walks the same-lane opponents from the worst
     match-up up, draining a mass of remaining probability.
   - The ban search is an arg-max over hypothetical bans, with a matching
     sorted ban table.
3. **The roster**, in modules `RosterTable`, `RosterFilter` and `PoolAnalysis`.
   - The roster is built as a table `id → lane → Champion`, stopping at the
     first failed construction.
   - It provides the flat `champions` tuple, lookup by id, and the
     valid-champion filter with its boolean mask.
   - It analyses a pool of same-lane champions. For each valid opponent this
     gives the best and second-best counter-pick. It then gives:
     - normalised opponent pick rates;
     - an impact-sorted match-up table;
     - per-pool-champion counter-pick figures;
     - the candidate additions.

**How the Python is represented.**
- Python dicts whose order is observable are association lists (module
  `Dict`); dicts used only by key are maps.
- Rates are exact `real`s. NaN is `None`.
- Every exception the code can raise is an `Err` value: `KeyError`,
  `ZeroDivisionError`, `IndexError`, `AssertionError`, `ValueError`,
  `TypeError` or `AttributeError`.
- Loops that update variables are methods proved equal to a specification
  function. The properties themselves are lemmas about those functions.
- The roster is a class whose table field `CreateChampions` fills in place.

**Error cases the model returns as values.** The code raises in three
situations, and the model returns each error rather than excluding the input:
- A match-up tuple with zero matches raises `ZeroDivisionError` at
  `wins / matches`. This happens at expansion (champion.py:41,
  load_data.py:164) and again when the merged win rates are computed
  (load_data.py:232) (`Snapshot.ExpandTuples`, `LoadData.WinRates`).
- A pool of exactly one valid champion fails with `IndexError` at
  `opponent_win_rates.index[0]` (roster.py:211) when that champion is the
  opponent (`PoolAnalysis.MatchupOfFails`).
- Zero merged totals raise `ZeroDivisionError` (load_data.py:181, 187 and
  195). An enemy lane that no patch has a record for raises `KeyError` in the
  win-rate loop (load_data.py:229-231) (`LoadData.MergeOutcome`,
  `LoadData.MergedEnemiesErrors`).

## Model

| member | source | states |
|---|---|---|
| `Snapshot.ExpandTuples` | lolalytics_scraper/champion.py:40-43 | expanding match-up tuples succeeds exactly when every tuple has a non-zero match count, and otherwise raises ZeroDivisionError |
| `Snapshot.ExpandTuplesKeys` | src/lolalytics_scraper/load_data.py:163-166 | the expanded dict has exactly the enemy ids the tuples mention, and each record's win rate is its wins over its matches |
| `Snapshot.ExpandTuplesLastWins` | lolalytics_scraper/champion.py:40-43 | an enemy id listed twice keeps the record of its last tuple |
| `Snapshot.ExpandIgnoresUnused` | lolalytics_scraper/champion.py:42 | the unused fourth tuple element has no influence on the result |
| `Snapshot.ExpandedRatesInUnit` | lolalytics_scraper/champion.py:41 | with wins never above matches, every expanded win rate lies in [0, 1] |
| `ChampionData.FormatLolalyticData` | lolalytics_scraper/champion.py:37-43 | the in-place loop over the five enemy roles computes the formatted record, or the first exception |
| `ChampionData.FormatRolesErrorPersists` | lolalytics_scraper/champion.py:38-43 | an exception on one role is the exception of the whole loop |
| `ChampionData.FormatRolesPointwise` | lolalytics_scraper/champion.py:38-43 | formatting succeeds exactly when each listed field expands; a list field becomes its records, a dict field stays as it is, and other fields are untouched |
| `ChampionData.FormattedDataShape` | lolalytics_scraper/champion.py:37-43 | a formatted record has all five enemy fields as dicts; a missing field raises KeyError; header, lanes and rates are unchanged |
| `ChampionData.FormatIdempotent` | lolalytics_scraper/champion.py:37-43 | formatting a formatted record changes nothing |
| `ChampionData.ChampionOfFields` | lolalytics_scraper/champion.py:31-73 | construction succeeds exactly when formatting succeeds and the header, `avgWinRate` and the header lane's share exist; the Champion then carries the id, lane, n, wr, pr, average, lane share and formatted tables of the record |
| `ChampionData.NewChampion` | lolalytics_scraper/champion.py:31-35 | the constructor, with its formatting loop, returns the Champion of the record or its exception |
| `ChampionData.RankNormalizedWinRate` | lolalytics_scraper/champion.py:57-63 | the rank-normalised rate is the raw rate shifted by the tier average's distance from 50%; an average of 50 leaves the raw rate unchanged, and a champion at the average gets exactly 0.5 |
| `ChampionData.RankNormalizationKeepsGaps` | lolalytics_scraper/champion.py:61-63 | two champions of one snapshot keep the difference between their raw win rates |
| `ChampionData.RawMatchupWinRate` | lolalytics_scraper/champion.py:81-82 | the match-up win rate is defined exactly when the opponent's id has an entry in the opponent lane's table, and it is that entry's win rate |
| `ChampionData.NormalizedMatchupWinRate` | lolalytics_scraper/champion.py:90-94 | the normalised rate is defined exactly when both viewpoints' raw rates are |
| `ChampionData.NormalizedComplement` | lolalytics_scraper/champion.py:90-94 | when defined, normalised(A, B) + normalised(B, A) = 1 exactly |
| `ChampionData.NormalizedInUnit` | lolalytics_scraper/champion.py:90-94 | with raw rates in [0, 1] the normalised rate is in [0, 1] |
| `ChampionData.MatchupPickRate` | lolalytics_scraper/champion.py:123-131 | the match-up pick rate is defined exactly when there is an entry, and then it times n is the entry's match count |
| `ChampionData.WinRateWithoutOpponent` | lolalytics_scraper/champion.py:110-114 | the rate without an opponent is defined exactly when the normalised rate and the pick rate m are defined and m is not 1; it then recomposes the overall rate: m * normalised + (1 - m) * w = rank-normalised rate |
| `ChampionData.PickRates` | lolalytics_scraper/roster.py:55-57 | one pick rate per roster champion, in roster order |
| `ChampionData.MatchupNormalizedWinRate` | lolalytics_scraper/champion.py:116-121 | the pick-rate-weighted mean of the normalised match-ups is defined exactly when the pick-rate total is non-zero |
| `ChampionData.WeightedMatchupsBounds` | lolalytics_scraper/champion.py:119-121 | with probabilities as inputs, the weighted sum of match-ups (NaN skipped) lies between 0 and the pick-rate total |
| `ChampionData.MatchupNormalizedInUnit` | lolalytics_scraper/champion.py:116-121 | with probabilities as inputs, the match-up-normalised win rate lies in [0, 1] |
| `RosterFilter.ValidChampions` | lolalytics_scraper/roster.py:37-46 | a champion is kept exactly when it is in the roster and passes the lane, pick-rate and role-assignment tests |
| `RosterFilter.ValidChampionsAppend` | lolalytics_scraper/roster.py:40-46 | the filter keeps roster order: filtering a concatenation concatenates the results |
| `RosterFilter.ValidChampionsSingle` | lolalytics_scraper/roster.py:43-45 | a single champion is kept exactly when it passes all three tests |
| `RosterFilter.ValidChampionsMonotone` | lolalytics_scraper/roster.py:43-45 | raising a threshold or fixing the lane gives the looser result filtered again, hence a subset of it |
| `RosterFilter.ValidChampionIndex` | lolalytics_scraper/roster.py:48-53 | the mask has one flag per roster champion, true exactly for the valid ones |
| `RosterFilter.FlagsIn` | lolalytics_scraper/roster.py:52-53 | one flag per champion, true exactly when it is in the valid tuple |
| `BlindPick.OpponentsSortedPermutation` | lolalytics_scraper/champion.py:159-166 | the opponent list is sorted ascending by our raw match-up rate, and is the valid same-lane champions less one copy of ourselves and one of the ignored champion |
| `BlindPick.OpponentsMembers` | lolalytics_scraper/champion.py:159-166 | no valid same-lane champion other than ourselves and the ignored one is dropped |
| `BlindPick.StepAppend` | lolalytics_scraper/champion.py:171-179 | one loop step: the picked probability is the presence times the remaining mass, the remaining mass drops by it, and the win-rate sum grows by it times the match-up rate |
| `BlindPick.PickedTotalTelescopes` | lolalytics_scraper/champion.py:169-179 | the picked probabilities always sum to 1 minus the remaining mass |
| `BlindPick.PresenceInUnit` | lolalytics_scraper/champion.py:175 | the chance an opponent is in the enemy's pool is a probability |
| `BlindPick.RemainingInUnit` | lolalytics_scraper/champion.py:169-179 | the remaining mass stays in [0, 1] and never increases |
| `BlindPick.CumulativeBounds` | lolalytics_scraper/champion.py:169-181 | with match-up rates in [0, 1], the result lies in [0, 1 - remaining] |
| `BlindPick.CumulativeDefined` | lolalytics_scraper/champion.py:178 | the result is NaN exactly when some opponent's match-up rate is missing |
| `BlindPick.CumulativeNoPool` | lolalytics_scraper/champion.py:175-178 | with `num_opponent_champions = 0` the result is 0 (or NaN) and no mass is drained |
| `BlindPick.WalkOpponents` | lolalytics_scraper/champion.py:168-181 | the loop computes the specified win-rate sum |
| `BlindPick.BlindExpectedWinRate` | lolalytics_scraper/champion.py:152-181 | the method computes the blind-pick value over the sorted, reduced opponent list |
| `BlindPick.BanValues` | lolalytics_scraper/champion.py:196-202 | one blind-pick value per candidate ban, each with that candidate ignored |
| `BlindPick.BestAmongProperties` | lolalytics_scraper/champion.py:192-207 | the search never bans ourselves; it finds no ban (score minus infinity) exactly when no ban has a rate; otherwise its ban's rate is the score, no candidate rates higher, and every earlier candidate rates strictly lower |
| `BlindPick.BestAmongWitness` | lolalytics_scraper/champion.py:203-205 | the ban found is a rated candidate whose rate is the score |
| `BlindPick.BestAmongUpper` | lolalytics_scraper/champion.py:203-205 | no rated candidate beats the score |
| `BlindPick.BestAmongAppend` | lolalytics_scraper/champion.py:196-205 | one more candidate replaces the best exactly when it is not ourselves and beats the score strictly |
| `BlindPick.BestBanStep` | lolalytics_scraper/champion.py:196-205 | one visit of the ban loop extends the values and the best so far |
| `BlindPick.BestBlindBan` | lolalytics_scraper/champion.py:192-207 | the loop returns the specified best ban and its score |
| `BlindPick.Entries` | lolalytics_scraper/champion.py:184-189 | the ban dict holds exactly the candidates other than ourselves, each with its value |
| `BlindPick.BanTable` | lolalytics_scraper/champion.py:183-190 | the ban table is sorted by rate, highest first, and is a permutation of the ban dict |
| `BlindPick.BanTableHeadIsBest` | lolalytics_scraper/champion.py:183-207 | when the best ban has a rate, the ban table is headed by that rate |
| `RosterTable.OutcomesAt` | lolalytics_scraper/roster.py:28-30 | the outcome recorded for each visited record is the Champion constructor applied to that record's id and data |
| `RosterTable.BuildErrorPersists` | lolalytics_scraper/roster.py:27-31 | after a failed construction, later records change nothing |
| `RosterTable.BuildStopsAtFirstError` | lolalytics_scraper/roster.py:27-31 | building raises nothing exactly when every record constructs; it then stores every Champion; otherwise it raises the first exception and has stored the Champions before it |
| `RosterTable.PlaceLookup` | lolalytics_scraper/roster.py:31 | storing a Champion makes it the answer for its id and lane and changes no other answer |
| `RosterTable.PlaceAllLookup` | lolalytics_scraper/roster.py:28-31 | the table answers each id and lane with the last Champion stored for them, or its earlier answer |
| `RosterTable.LastAcceptedIsStored` | lolalytics_scraper/roster.py:27-31 | a record's Champion carries the record's id, and when no later record builds a Champion for the same id and lane, it is the last one built for them |
| `RosterTable.PlaceWellFormed` | lolalytics_scraper/roster.py:31 | `setdefault` keeps every id once, with each Champion stored under its own id and lane |
| `RosterTable.PlaceAllWellFormed` | lolalytics_scraper/roster.py:28-31 | storing any sequence of Champions keeps the table well formed |
| `RosterTable.FlattenMembers` | lolalytics_scraper/roster.py:34-35 | a Champion is listed exactly when the table stores it for its id and lane |
| `RosterTable.FlattenDistinct` | lolalytics_scraper/roster.py:34-35 | no Champion is listed twice |
| `RosterTable.VisitStep` | lolalytics_scraper/roster.py:29-31 | one record visited extends the items, outcomes and table as specified |
| `RosterTable.StopEarly` | lolalytics_scraper/roster.py:27-31 | leaving the loops at an exception gives the outcome of visiting every record |
| `RosterTable.Roster.Empty` | lolalytics_scraper/roster.py:24 | a fresh roster has an empty, well-formed table |
| `RosterTable.Roster.CreateChampions` | lolalytics_scraper/roster.py:27-31 | the nested loops leave the table and exception that building from every record gives, and keep the table well formed |
| `RosterTable.Roster.Champions` | lolalytics_scraper/roster.py:33-35 | each stored Champion is listed once, and only stored ones |
| `RosterTable.Roster.GetChampionById` | lolalytics_scraper/roster.py:71-75 | with a lane: the stored Champion, or KeyError for the missing id or lane; without: the id's whole lane dict, or KeyError |
| `RosterTable.NewRoster` | lolalytics_scraper/roster.py:19-25 | empty data raises ValueError; otherwise the roster holds what building from an empty table gives, or its exception |
| `PoolAnalysis.Ranked` | lolalytics_scraper/roster.py:204-210 | the counter-pick Series holds each pool champion other than the opponent once, sorted by normalised rate, highest first |
| `PoolAnalysis.RankedHeadBeats` | lolalytics_scraper/roster.py:210-216 | the first (second) ranked counter-pick rates at least every rated member (but the first) |
| `PoolAnalysis.MatchupOfProperties` | lolalytics_scraper/roster.py:203-222 | the best counter-pick is a pool member other than the opponent with the highest rate; a second best exists exactly when the counter-pick pool has several entries, and is the best of the rest; the improvement is their difference and never negative |
| `PoolAnalysis.MatchupOfFails` | lolalytics_scraper/roster.py:211-215 | the opponent's row fails exactly when the pool holds only the opponent, or several entries that are all one champion, and then raises IndexError |
| `PoolAnalysis.MatchupOutcomes` | lolalytics_scraper/roster.py:203-254 | one outcome per opponent, in opponent order |
| `PoolAnalysis.MatchupRowsPointwise` | lolalytics_scraper/roster.py:202-254 | the loop fails exactly when some opponent fails, with that opponent's exception, and otherwise records every opponent's match-up |
| `PoolAnalysis.CollectMatchups` | lolalytics_scraper/roster.py:202-254 | the loop over the valid opponents computes the specified records or exception |
| `PoolAnalysis.Shares` | lolalytics_scraper/roster.py:260 | each row's share is its opponent's pick rate over the total |
| `PoolAnalysis.WithImpact` | lolalytics_scraper/roster.py:264-267 | each row's impact is its share times its best rate minus the mean |
| `PoolAnalysis.ImpactRows` | lolalytics_scraper/roster.py:259-267 | one row per record, in opponent order, holding that record and its pick rate over the total |
| `PoolAnalysis.ImpactAgainstMean` | lolalytics_scraper/roster.py:263-267 | the mean is the share-weighted best rate of the table's own rows |
| `PoolAnalysis.MatchupTable` | lolalytics_scraper/roster.py:268 | the table is sorted by impact and is a permutation of the unsorted rows |
| `PoolAnalysis.MatchupTableRows` | lolalytics_scraper/roster.py:256-268 | the table has one row per record and exactly the unsorted rows |
| `PoolAnalysis.SharesSumToOne` | lolalytics_scraper/roster.py:260 | the normalised opponent pick rates sum to 1 |
| `PoolAnalysis.ImpactRowsSharesSumToOne` | lolalytics_scraper/roster.py:260-267 | the shares still sum to 1 once impacts are added |
| `PoolAnalysis.MatchupTableSharesSumToOne` | lolalytics_scraper/roster.py:260-268 | the shares of the sorted table sum to 1 |
| `PoolAnalysis.MatchupTableSharesPositive` | lolalytics_scraper/roster.py:260 | positive pick rates give every row a positive share |
| `PoolAnalysis.GainOverSecondNonNegative` | lolalytics_scraper/roster.py:222 | every row's gain over the second best is non-negative |
| `PoolAnalysis.MarginalNonNegative` | lolalytics_scraper/roster.py:281-291 | a pool champion's marginal improvement is non-negative |
| `PoolAnalysis.PoolFiguresProperties` | lolalytics_scraper/roster.py:271-318 | the counter-pick rate is the share of the rows the champion is best in, and it and the within-1% rate lie between 0 and the total share; the counter-pick win rate, the marginal figures and the gain over base are defined exactly when that rate is positive; the win rate times the rate is the share-weighted best rate of those rows, and the marginal figures are non-negative |
| `PoolAnalysis.PoolResults` | lolalytics_scraper/roster.py:270-329 | one entry per distinct pool champion, in first-occurrence order, with its figures |
| `PoolAnalysis.CollectPoolResults` | lolalytics_scraper/roster.py:270-329 | the loop over the pool computes the specified entries |
| `PoolAnalysis.CounterpickRatesPartition` | lolalytics_scraper/roster.py:271-274 | when every best counter-pick is a pool champion, the pool's counter-pick rates add up to the total share |
| `PoolAnalysis.GainsAgainst` | lolalytics_scraper/roster.py:367-370 | one entry per row: its opponent, with the candidate's gain against it (zero where the candidate does not improve) |
| `PoolAnalysis.CandidateWithoutImprovement` | lolalytics_scraper/roster.py:375-380 | a candidate improving on no match-up gets zero figures and no opponents |
| `PoolAnalysis.CandidateFiguresProperties` | lolalytics_scraper/roster.py:344-374 | a candidate is counter-picked exactly when it improves on some match-up, never above the total share; its marginal figures are then positive, and it names at most three opponents, each one it improves against by a positive gain |
| `PoolAnalysis.ImprovingGains` | lolalytics_scraper/roster.py:346-361 | in an improving row the gain and the share-weighted gain are positive |
| `PoolAnalysis.ImpactFromImproving` | lolalytics_scraper/roster.py:367-374 | "Biggest Impact Against" names improving rows' opponents only, with their gains |
| `PoolAnalysis.CandidateKeys` | lolalytics_scraper/roster.py:340-342 | candidates are the opponents outside the pool, each once |
| `PoolAnalysis.Candidates` | lolalytics_scraper/roster.py:339-398 | one entry per candidate, with its figures |
| `PoolAnalysis.CollectCandidates` | lolalytics_scraper/roster.py:339-398 | the loop over the valid lane champions computes the specified entries |
| `PoolAnalysis.LaneOpponents` | lolalytics_scraper/roster.py:203 | the opponents are exactly the valid champions of the pool's lane |
| `PoolAnalysis.MatchupPickRatesPositive` | lolalytics_scraper/roster.py:245-260 | valid opponents have positive pick rates, so the normalisation never divides by zero |
| `PoolAnalysis.AnalysisOutcome` | lolalytics_scraper/roster.py:196-268 | an empty pool raises IndexError; a mixed-lane pool raises AssertionError; no valid opponent raises KeyError; otherwise the analysis succeeds exactly when every opponent has a counter-pick, else IndexError |
| `PoolAnalysis.AnalysisUnfold` | lolalytics_scraper/roster.py:195-405 | a successful analysis is the three tables built from the opponents' records |
| `PoolAnalysis.RecordsOrigin` | lolalytics_scraper/roster.py:244-254 | every recorded match-up is the record of one of the opponents |
| `PoolAnalysis.TableRowsFromRecords` | lolalytics_scraper/roster.py:256-268 | every row of the table holds one of the records |
| `PoolAnalysis.TableProperties` | lolalytics_scraper/roster.py:256-268 | one row per opponent with its record; positive shares summing to 1; best rates never below second-best ones; best counter-picks from the pool |
| `PoolAnalysis.AnalysisMatchups` | lolalytics_scraper/roster.py:202-268 | the returned match-up table is sorted by impact, has one row per valid opponent with that opponent's record, and its shares are positive and sum to 1 |
| `PoolAnalysis.SortedPoolResults` | lolalytics_scraper/roster.py:331-335 | sorting the pool table keeps each pool champion once with its figures and keeps the counter-pick rate total |
| `PoolAnalysis.AnalysisPool` | lolalytics_scraper/roster.py:270-336 | the returned pool table has each distinct pool champion once, sorted by marginal improvement, with its figures, and the counter-pick rates sum to 1 |
| `PoolAnalysis.CandidateCounterpicked` | lolalytics_scraper/roster.py:345-349 | a candidate's counter-pick rate is positive exactly when it beats the best counter-pick against some opponent |
| `PoolAnalysis.SortedCandidates` | lolalytics_scraper/roster.py:400-402 | sorting the candidate table keeps each candidate once with its figures |
| `PoolAnalysis.AnalysisCandidates` | lolalytics_scraper/roster.py:339-403 | the returned candidate table holds every valid lane champion outside the pool once, sorted by counter-pick rate, each counter-picked exactly when it improves somewhere |
| `PoolAnalysis.AnalyzeChampionPool` | lolalytics_scraper/roster.py:195-405 | the method, with its three loops, returns the specified analysis of the roster's champions |
| `PoolAnalysis.AsWrittenNeverReports` | lolalytics_scraper/roster.py:213 | as written, the analysis never reports, and raises AttributeError wherever the intended analysis reports |
| `PoolAnalysis.TwoChampionPool` | lolalytics_scraper/roster.py:213-217 | a pool of two different valid same-lane champions gets a report from the intended analysis, while the code as written raises AttributeError |
| `PoolAnalysis.SampleChampionsQualify` | lolalytics_scraper/roster.py:213 | a concrete pair of champions meets the conditions of the two-champion case |
| `LoadData.LoadFieldsPointwise` | src/lolalytics_scraper/load_data.py:161-166 | the field loop succeeds exactly when every present field expands; each present field becomes its records; absent fields stay absent |
| `LoadData.ReformattedShape` | src/lolalytics_scraper/load_data.py:161-166 | a record is reformatted exactly when every present enemy field expands, and only its enemy fields change |
| `LoadData.ReformatRecord` | src/lolalytics_scraper/load_data.py:161-166 | the in-place loop over the five roles computes the reformatted record, or its exception |
| `LoadData.LoadFieldsErrorPersists` | src/lolalytics_scraper/load_data.py:161-166 | an exception on one role is the exception of the whole loop |
| `LoadData.InsertFind` | src/lolalytics_scraper/load_data.py:168-170 | filing a record under id, lane and patch makes it the one found there and changes nothing else |
| `LoadData.RegroupVisitOk` | src/lolalytics_scraper/load_data.py:160-170 | one visit succeeds exactly when the record expands, and files the expanded record |
| `LoadData.RegroupOk` | src/lolalytics_scraper/load_data.py:156-170 | the regrouping succeeds exactly when every visited record expands |
| `LoadData.RegroupFind` | src/lolalytics_scraper/load_data.py:156-170 | under each id, lane and patch the regrouping holds the last record visited for them, expanded |
| `LoadData.RegroupRoles` | src/lolalytics_scraper/load_data.py:159-170 | the loop over one champion's lanes files each as specified |
| `LoadData.RegroupPatch` | src/lolalytics_scraper/load_data.py:158-170 | the loop over one patch's champions files each as specified |
| `LoadData.RegroupAll` | src/lolalytics_scraper/load_data.py:156-170 | the three nested loops compute the specified regrouping, or the first exception |
| `LoadData.InsertNested` | src/lolalytics_scraper/load_data.py:168-170 | `setdefault` keeps each level a dict |
| `LoadData.RegroupNested` | src/lolalytics_scraper/load_data.py:156-170 | the regrouping keeps each level a dict |
| `LoadData.RegroupPatchKeys` | src/lolalytics_scraper/load_data.py:156-170 | no record is lost and none invented: a patch is filed under an id and lane exactly when some record of that patch was visited with them |
| `LoadData.InsertPresent` | src/lolalytics_scraper/load_data.py:168 | filing a record creates its champion-lane and no other |
| `LoadData.RegroupPresent` | src/lolalytics_scraper/load_data.py:156-170 | a champion-lane is in the regrouping exactly when some record was visited for it |
| `LoadData.AddTableAt` | src/lolalytics_scraper/load_data.py:209-226 | adding a patch's records adds its matches and wins to each enemy's counts and creates entries for its enemies |
| `LoadData.TallyRolesPointwise` | src/lolalytics_scraper/load_data.py:207-226 | one patch's role loop adds each listed role's records and touches no other role; it fails with AttributeError exactly when a listed field is still a list |
| `LoadData.TallyRecordPointwise` | src/lolalytics_scraper/load_data.py:207-226 | adding one patch succeeds exactly when all its fields are dicts, and adds each enemy role's records |
| `LoadData.TallyFromOk` | src/lolalytics_scraper/load_data.py:206-226 | the tally fails, with AttributeError, exactly when some patch's field is not a dict |
| `LoadData.TallyRecordCounts` | src/lolalytics_scraper/load_data.py:207-226 | one patch adds its counts for each enemy |
| `LoadData.TallyRolesFrom` | src/lolalytics_scraper/load_data.py:206-226 | an enemy role's dict is created exactly when some patch has a record in that role |
| `LoadData.TallyCountsFrom` | src/lolalytics_scraper/load_data.py:206-226 | each enemy's merged matches and wins are the sums over the patches |
| `LoadData.TallyIdsFrom` | src/lolalytics_scraper/load_data.py:206-226 | an enemy id gets an entry exactly when some patch has a record against it |
| `LoadData.CountsSumSingle` | src/lolalytics_scraper/load_data.py:206-226 | an enemy only one patch has keeps that patch's counts |
| `LoadData.TallyFacts` | src/lolalytics_scraper/load_data.py:206-226 | the full tally, role by role and enemy by enemy |
| `LoadData.WinRatesShape` | src/lolalytics_scraper/load_data.py:229-232 | each entry's win rate becomes wins over matches; an entry with no matches raises ZeroDivisionError |
| `LoadData.FinishPointwise` | src/lolalytics_scraper/load_data.py:228-232 | the loop over the roles succeeds exactly when each role was created and rates; a missing role raises KeyError |
| `LoadData.FinishShape` | src/lolalytics_scraper/load_data.py:228-232 | the merged record has all five enemy dicts, each of rated records; failures are KeyError or ZeroDivisionError |
| `LoadData.FinishOk` | src/lolalytics_scraper/load_data.py:228-232 | finishing succeeds exactly when every role was supplied and no entry has zero matches |
| `LoadData.EnemiesOk` | src/lolalytics_scraper/load_data.py:206-232 | the enemy dicts are built exactly when every role has records in some patch and every merged entry has matches |
| `LoadData.MergedEnemiesOk` | src/lolalytics_scraper/load_data.py:206-232 | the enemy dicts are built exactly when every field is a dict, every role is supplied and no merged entry has zero matches |
| `LoadData.MergedEnemiesErrors` | src/lolalytics_scraper/load_data.py:206-232 | a patch field that is still a list raises AttributeError; every failure is AttributeError, ZeroDivisionError, or KeyError for a role no patch supplies |
| `LoadData.MergeOutcome` | src/lolalytics_scraper/load_data.py:178-232 | the merge succeeds exactly when both totals are positive and the enemy dicts build; a zero total raises ZeroDivisionError first |
| `LoadData.MergeTotals` | src/lolalytics_scraper/load_data.py:179-204 | merged n and analysed are the per-patch sums (missing as 0), pr = 1000 n / analysed, all five lanes are present, and there is no header |
| `LoadData.MergeLaneBounds` | src/lolalytics_scraper/load_data.py:182-189 | each merged lane rate, an n-weighted mean, lies between the smallest and largest per-patch lane rate |
| `LoadData.MergeAvgBounds` | src/lolalytics_scraper/load_data.py:190-196 | the merged average win rate, an n-weighted mean, lies between the smallest and largest per-patch average |
| `LoadData.MergeMatchups` | src/lolalytics_scraper/load_data.py:206-232 | each merged match-up holds the summed matches and wins of the patches that have it, its win rate is wins over matches, and an enemy has an entry exactly when some patch has it |
| `LoadData.MergeSingleEnemy` | src/lolalytics_scraper/load_data.py:206-226 | an enemy seen in one patch keeps that patch's counts |
| `LoadData.AddItems` | src/lolalytics_scraper/load_data.py:209-226 | the loop over one field's items computes the specified sum |
| `LoadData.TallyOne` | src/lolalytics_scraper/load_data.py:207-226 | the loop over one patch's roles computes the specified tally |
| `LoadData.TallyAll` | src/lolalytics_scraper/load_data.py:206-226 | the loops over every patch compute the specified tally |
| `LoadData.RateRow` | src/lolalytics_scraper/load_data.py:229-232 | the loop over one role's dict computes the specified win rates |
| `LoadData.FinishAll` | src/lolalytics_scraper/load_data.py:228-232 | the loop over the five roles computes the specified enemy dicts |
| `LoadData.SettleRecord` | src/lolalytics_scraper/load_data.py:177-235 | one champion-lane's record: the merge of several patches, or the only one |
| `LoadData.PutRecordFind` | src/lolalytics_scraper/load_data.py:235 | storing a record makes it the one found under its champion-lane and changes no other |
| `LoadData.MergeGroupOk` | src/lolalytics_scraper/load_data.py:177-235 | one champion-lane succeeds exactly when its patches settle, and stores the settled record |
| `LoadData.MergeOk` | src/lolalytics_scraper/load_data.py:172-235 | the merge loops succeed exactly when every champion-lane settles |
| `LoadData.MergeFind` | src/lolalytics_scraper/load_data.py:172-235 | under each champion-lane the output holds what the last group for it settled to |
| `LoadData.GroupsMembers` | src/lolalytics_scraper/load_data.py:173-174 | the loops visit exactly the champion-lanes of the regrouping, each with its patches |
| `LoadData.MergeAllFind` | src/lolalytics_scraper/load_data.py:172-235 | the merge succeeds exactly when every champion-lane settles, and then each holds what its patches settle to; nothing else is there |
| `LoadData.MergeRoles` | src/lolalytics_scraper/load_data.py:174-235 | the loop over one champion's lanes computes the specified output |
| `LoadData.MergeChampions` | src/lolalytics_scraper/load_data.py:172-235 | the merge loops compute the specified output |
| `LoadData.FormatRecord` | src/lolalytics_scraper/load_data.py:155-237 | the result has a record for a champion-lane exactly when some patch had one, and it is what its patches settle to |
| `LoadData.SinglePatchAt` | src/lolalytics_scraper/load_data.py:156-170 | a champion-lane seen in one patch only has exactly that patch after regrouping |
| `LoadData.FormatSinglePatch` | src/lolalytics_scraper/load_data.py:234-235 | a champion-lane seen in one patch only comes out as that patch's record, with its tuples expanded and nothing else changed |
| `LoadData.FormatMerged` | src/lolalytics_scraper/load_data.py:178-232 | a champion-lane seen in two or more patches comes out as the merge of its patches' records |
| `LoadData.FormatLolalyticsData` | src/lolalytics_scraper/load_data.py:155-237 | the whole function computes the specified output, or the first exception |
| `LoadData.MergedRecordLacksHeader` | src/lolalytics_scraper/load_data.py:197-203 | a merged record has only dict match-up fields but no `header`, so building a Champion from it raises KeyError('header') at `champion.role` |
| `LoadData.FormatMergedLacksHeader` | src/lolalytics_scraper/load_data.py:178-203 | every champion-lane recorded in two different patches comes out of the loader as a record from which no Champion can be built: KeyError('header') |
| `LoadData.MergeWithHeaderBuildsChampion` | src/lolalytics_scraper/load_data.py:197-203 | a merged record with the header added builds a Champion of its own lane, with the summed sample size, the merged pick rate, average win rate and lane share, and the merged match-up dicts |

## Left out

- Scraping, HTTP requests, the on-disk cache, patch discovery and JSON loading are left out. They are network and file I/O.
- Plotting and hover annotations are left out (matplotlib presentation).
- The Elo conversions are left out, both `win_rate_to_elo` and `elo_to_win_rate`. So is `expected_matchup_win_rates`, which is built on them. They need logarithms and real exponents.
- `pick_rate_delta` is left out. Its meaning rests on pandas boolean-mask assignment; it is used only by plotting.
- The report strings are left out:
  - the `Best Bans` and `Biggest Impact Against` strings are modelled as the numbers behind them (the first three entries);
  - the `Remaining Possible Improvement` column is not modelled, nor the `best_counterpick_of_them_all` search that feeds only that string (roster.py:224-242).
- The `Best Counterpick N` and `Second Best Counterpick N` columns are left out. They read `normalized_matchup_N`, which nothing defines (see Findings).
- Float behaviour is out of scope. Rates are exact reals and NaN is `None`, so:
  - sorts place absent keys last (as pandas does), and ties keep their earlier order;
  - Python's `sorted` order among NaN keys is unspecified and not modelled;
  - sums skip NaN, as pandas does.
- Lane names are the datatype `Role`, and champion ids are `int`. Parsing the id with `int()` is left out, and so is lowercasing the lane name in `get_champion_by_id`.
- `format_lolalytics_data` mutates the raw records in place, and the regrouped data aliases them. The model works on values, so this mutation and aliasing are not captured.
- The module-level `LOLALYTICS_DATA` that `Roster()` reads is the parameter `data` of `RosterTable.NewRoster`. Each Champion's back-reference to its roster is not stored; the roster's champion tuple is passed to the operations that need it.
- The `cached_property` memoisation is left out. Every cached value is recomputed from unchanging data, so caching cannot change a result.
- `main.py`, `setup.py` and the update entry points are left out. They only wire up I/O.
- Merged enemy dicts are maps, so the model does not keep their item order.
- The loader (`LoadData.FormatSnapshots`) keeps the merge as the code writes it, without a header. The header-carrying `LoadData.MergeWithHeader` stands beside it and is not used inside the loader, because nothing else in the model reads the loader's output: the roster takes its data as a parameter.
- `ChampionData.ChampionOfFields`: a Champion needs `avgWinRate` and the header lane's `nav.lanes` share when it is built. The source reads them only when an accessor first needs them, so this contract is stricter than the source.
- `ChampionData.MatchupPickRate`: requires `n > 0`. The source does not check this, and with `n = 0` it would raise ZeroDivisionError. Every stored champion-lane in practice has games.
- `ChampionData.WinRateWithoutOpponent`: requires `n > 0`, for the same reason, because it uses the match-up pick rate. Where the opponent's match-up pick rate is exactly 1, the source's float division by `1 - 1` gives ±inf, or NaN when the numerator is also 0, with only a RuntimeWarning. The model returns `None` in all those cases.
- `BlindPick.BlindExpectedWinRate` and the ban search take `num_opponent_champions` as a `nat`. In the source it is an `int`: a negative count would still compute `1 - (1 - pr) ** k`, and would raise ZeroDivisionError when `pr == 1`. Every caller passes the default 5.
- `PoolAnalysis.AnalyzeChampionPool`: models the analysis without the two `N` columns, as the code is evidently meant to run. The code as written is `PoolAnalysis.AnalysisAsWritten`.

## Findings

| source | as written | input that shows it | evidently intended | confidence | as-written member | corrected member |
|---|---|---|---|---|---|---|
| lolalytics_scraper/roster.py:213 | every opponent reads `opponent_champion.normalized_matchup_N[best_counterpick]` (and line 217 its second-best twin), but no code defines `normalized_matchup_N`, so the first opponent raises AttributeError | a pool equal to the roster, made of two different valid champions of one lane (`SampleChampion(1)`, `SampleChampion(2)`) | the match-up table, pool table and candidate table, with the N columns either defined or dropped | not executed | `PoolAnalysis.AnalysisAsWritten` | `PoolAnalysis.Analysis` |
| src/lolalytics_scraper/load_data.py:197-203 | the merged record of a champion-lane seen in several patches gets `n`, `analysed`, `pr`, `avgWinRate`, `nav` and the `enemy_<role>` dicts, but no `header`; `Champion.role` (champion.py:50-51) reads `header.lane`, so `Roster._create_champions` (roster.py:31) raises KeyError('header') on that output | a snapshot in which one champion-lane is recorded in two different patches and the load succeeds (`FormatMergedLacksHeader`) | the merged record carries a header with its lane, the summed `n`, the n-weighted win rate and the merged pick rate | not executed | `LoadData.Merge` (with `LoadData.MergedRecordLacksHeader`) | `LoadData.MergeWithHeader` (with `LoadData.MergeWithHeaderBuildsChampion`) |
