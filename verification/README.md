# Decision-engine ranker and monitor registry, modelled in Dafny

This project models the two parts of the MCP AI toolkit servers that hold real logic:

- **The multi-criteria task ranker** (`intelligent_priority_ranking` in the decision engine server).
  Each task gets five component scores derived from its input position: impact, urgency, effort,
  feasibility and alignment. These are combined into a weighted total. Missing weights fall back to
  0.3 / 0.25 / 0.2 / 0.15 / 0.1, and effort is scored as `10 - effort`. The total is bucketed into
  HIGH / MEDIUM / LOW with strict thresholds 8.5 and 7.0. The ranker then sorts the list stably by
  the rounded score, highest first, renumbers ranks 1..N and derives three insights by filtering.
- **The monitor registry and check cycle** (the monitoring server). `MonitoringManager` holds a
  dictionary of monitors keyed by id. It is a class with a `map` and the dictionary's insertion
  order as a `seq`. The three `create_*_monitor` tools store a config and return a simulated first
  batch. `check_all_monitors` walks the registry in insertion order, skips monitors marked inactive,
  and reports one fixed finding, one alert and one status entry per remaining monitor. It writes
  nothing back to the registry.

Files:

- `numerics.dfy` (module `Numerics`): exact-real versions of `round(x, 2)` (round half to even)
  and `int(x)` (truncation toward zero).
- `decision_engine.dfy` (module `DecisionEngine`): scoring, buckets, and the item record. It also
  has the in-place stable insertion sort on an `array`, the renumbering loop, the insight filters,
  and the tool itself as a method.
- `monitoring.dfy` (module `Monitoring`): the registry class, the creation tools, the match, paper
  and news builders, and the check cycle.

The ranker's sort returns a ghost permutation `perm`: the item now at position `k` came from input
position `perm[k]`. Stability means that items with equal scores keep `perm` increasing. The tool's
contract says that the output is exactly the input tasks' records, permuted by that `perm`,
non-increasing by rounded score, stable, and ranked 1..N.

What the code does, and the model with it:

- `check_all_monitors` implements no deduplication, no scheduling, no per-monitor errors and no
  digests. It returns one fixed finding per active monitor on every call, and it never updates
  `last_checked` (servers/monitoring_server.py:188-258).
- Component scores come from the task's index, not from the task itself
  (servers/decision_engine_server.py:302-306). A missing weight falls back to its default, so
  `{impact: 0.5, urgency: 0.5}` still adds effort, feasibility and alignment terms. With those
  weights the second task outranks the first, 10.67 against 10.65 (`PartialWeightsScenario`).
- The code buckets the unrounded total (servers/decision_engine_server.py:324). It sorts by the
  rounded total and counts top priorities by the rounded total (lines 338 and 346).

## Model

| member | source | states |
|---|---|---|
| `Numerics.RoundHalfEven` | servers/decision_engine_server.py:321 | the result is within 1/2 of the input, and a tie goes to the even integer |
| `Numerics.Round2` | servers/decision_engine_server.py:321 | `round(x, 2)` is a whole number of hundredths within 0.005 of `x`; on a tie the result is the even hundredth |
| `Numerics.TruncateTowardZero` | servers/decision_engine_server.py:326 | `int(x)` truncates toward zero: for `x >= 0` it is at most `x` and within 1 below it; for `x < 0` it is at least `x` and within 1 above it |
| `Numerics.Round2Monotone` | servers/decision_engine_server.py:321 | rounding never reverses the order of two scores |
| `Numerics.Round2OfHundredths` | servers/decision_engine_server.py:321 | a value that already has two decimals, such as 8.5, is unchanged by rounding |
| `DecisionEngine.ComponentScores` | servers/decision_engine_server.py:301-307 | impact is in [8.5, 10], urgency in [1, 9], effort in [1, 7], feasibility in [8, 10], and alignment is at most 1 |
| `DecisionEngine.Weight` | servers/decision_engine_server.py:311-315 | `criteria.get(name, default)`: the supplied weight when the name is present, the default otherwise; its use is characterised by `DefaultWeightsApply` and `SuppliedWeightOverrides` |
| `DecisionEngine.WeightedScore` | servers/decision_engine_server.py:310-316 | the weighted sum with effort scored as `10 - effort`; its properties are proved in `DefaultWeightsApply`, `SuppliedWeightOverrides` and `LessEffortNeverLowersScore` |
| `DecisionEngine.DefaultWeightsApply` | servers/decision_engine_server.py:310-316 | with no weights supplied the score is `0.3*impact + 0.25*urgency + 0.2*(10-effort) + 0.15*feasibility + 0.1*alignment` |
| `DecisionEngine.SuppliedWeightOverrides` | servers/decision_engine_server.py:310-316 | for any weight map, supplying weight `w` under one criterion's name changes the score by that criterion's term alone, `value * (w - previous weight)`; a weight under any other name changes nothing |
| `DecisionEngine.LessEffortNeverLowersScore` | servers/decision_engine_server.py:313 | effort is scored inversely: with a non-negative effort weight, lowering effort never lowers the score |
| `DecisionEngine.PriorityOf` | servers/decision_engine_server.py:324 | HIGH iff score > 8.5, MEDIUM iff 7.0 < score <= 8.5, LOW iff score <= 7.0 |
| `DecisionEngine.RecommendedAction` | servers/decision_engine_server.py:325 | the action text follows the same three buckets as the priority level |
| `DecisionEngine.SuccessProbability` | servers/decision_engine_server.py:326 | never above 95; exactly 95 from score 9.5 up; below that it is `score*10` truncated toward zero, for negative scores as well |
| `DecisionEngine.MakeItem` | servers/decision_engine_server.py:318-333 | the record for position `i` has rank `i+1`, the task, the component scores, a rounded score within 0.005 of the weighted score, and the bucket of the unrounded score; a rounded score above 8.5 implies HIGH |
| `DecisionEngine.RoundedAboveHighIsHigh` | servers/decision_engine_server.py:321-324 | a score whose rounding exceeds 8.5 itself exceeds 8.5 |
| `DecisionEngine.RoundedTestMissesSomeHigh` | servers/decision_engine_server.py:324-346 | 8.502 is HIGH but rounds to 8.5, so the rounded top-priority test misses it |
| `DecisionEngine.DefaultWeightsRankEverythingLow` | servers/decision_engine_server.py:302-324 | under the default weights no task scores above 7.0, so every task is LOW; position 5 scores exactly 7.0 |
| `DecisionEngine.PartialWeightsScenario` | servers/decision_engine_server.py:302-316 | with weights {impact 0.5, urgency 0.5} the first two tasks round to 10.65 and 10.67, and both are HIGH |
| `DecisionEngine.LowEffortOnlyLate` | servers/decision_engine_server.py:304 | a derived effort is below 3 iff the task's position is above 20 |
| `DecisionEngine.SortByScoreDesc` | servers/decision_engine_server.py:338 | the array is rearranged in place by a permutation; it ends non-increasing by rounded score, and equal scores keep their original order |
| `DecisionEngine.InsertDown` | servers/decision_engine_server.py:338 | one insertion extends the sorted prefix by one item, keeping the permutation and stability |
| `DecisionEngine.SwapAdjacent` | servers/decision_engine_server.py:338 | swapping two strictly out-of-order neighbours keeps the permutation and stability |
| `DecisionEngine.RenumberRanks` | servers/decision_engine_server.py:341-342 | afterwards the item at position `k` has rank `k+1`, and nothing else changed |
| `DecisionEngine.Filter` | servers/decision_engine_server.py:346-348 | the comprehension keeps only items passing the test, keeps every such item, and is no longer than the list |
| `DecisionEngine.IsTopPriority` | servers/decision_engine_server.py:346 | the top-priority test on the rounded score, `overall_score > 8.5`; related to the HIGH bucket by `TopCountAtMostHigh` and `RoundedTestMissesSomeHigh` |
| `DecisionEngine.IsQuickWin` | servers/decision_engine_server.py:347 | the quick-win test, `effort < 3 and overall_score > 7`; `LowEffortOnlyLate` shows only input positions after 20 can pass it |
| `DecisionEngine.IsHighImpact` | servers/decision_engine_server.py:348 | the high-impact test, `impact > 8`; `HighImpactIsEverything` shows every derived item passes it |
| `DecisionEngine.InsightsOf` | servers/decision_engine_server.py:345-350 | the three insights as the count and the two order-preserving filters of the ranked list; `IntelligentPriorityRanking` ensures the tool returns exactly this |
| `DecisionEngine.FilterAppend` | servers/decision_engine_server.py:347-348 | filtering distributes over concatenation, so the filtered list keeps the ranked order |
| `DecisionEngine.HighImpactIsEverything` | servers/decision_engine_server.py:348 | every derived impact is at least 8.5 > 8, so `high_impact_projects` is the whole ranked list |
| `DecisionEngine.TopCountAtMostHigh` | servers/decision_engine_server.py:346 | `top_priority_count`, which tests rounded scores, never exceeds the number of HIGH items |
| `DecisionEngine.BuildRankedItems` | servers/decision_engine_server.py:299-335 | one record per task in input order; the record at position `i` is built from task `i` at position `i` |
| `DecisionEngine.IntelligentPriorityRanking` | servers/decision_engine_server.py:279-352 | N items, a permutation of the input tasks with their own scores, ranks 1..N, non-increasing rounded scores, stable on ties; the insights are the filters of the ranked list; high-impact is everything; quick wins come only from positions above 20 |
| `Monitoring.MonitoringManager.constructor` | servers/monitoring_server.py:13-16 | the registry starts empty |
| `Monitoring.MonitoringManager.Store` | servers/monitoring_server.py:64 | dictionary assignment: the entry is set and the others are kept; a new id is appended to the iteration order, and an existing id keeps its position |
| `Monitoring.ToLower` | servers/monitoring_server.py:58-60 | same length; each character is lowercased |
| `Monitoring.ToLowerIdempotent` | servers/monitoring_server.py:58-60 | lowercasing twice is lowercasing once |
| `Monitoring.Contains` | servers/monitoring_server.py:60 | true iff `sub` occurs at some position of `s` |
| `Monitoring.MissingFirstCharNotContained` | servers/monitoring_server.py:60 | a string lacking `sub`'s first character does not contain `sub` |
| `Monitoring.MatchPriorityOf` | servers/monitoring_server.py:60 | HIGH when the lowercased keyword contains "ai", "ml" or "data" as a substring, MEDIUM otherwise; its behaviour is pinned by `MatchPriorityIgnoresCase`, `KeywordAIIsHigh`, `KeywordEmailIsHigh` and `KeywordPythonIsMedium` |
| `Monitoring.MatchPriorityIgnoresCase` | servers/monitoring_server.py:60 | a match's priority does not depend on the keyword's case |
| `Monitoring.KeywordAIIsHigh` | servers/monitoring_server.py:60 | keyword "AI" gives HIGH |
| `Monitoring.KeywordEmailIsHigh` | servers/monitoring_server.py:60 | keyword "Email" gives HIGH, because the rule is a substring test and "email" contains "ai" |
| `Monitoring.KeywordPythonIsMedium` | servers/monitoring_server.py:60 | keyword "Python" gives MEDIUM |
| `Monitoring.MakeMatch` | servers/monitoring_server.py:53-61 | the simulated posting for one company and keyword: title, location, URL built from the lowercased company and keyword, the keyword itself, and `MatchPriorityOf(keyword)`; `JobMatchAt` places it in the match list |
| `Monitoring.FirstKeywords` | servers/monitoring_server.py:52 | `keywords[:2]`: a prefix of the keywords of length 2, or all of them when there are fewer |
| `Monitoring.CompanyMatches` | servers/monitoring_server.py:52-62 | one match per keyword for a company |
| `Monitoring.JobMatches` | servers/monitoring_server.py:50-62 | there are `|companies| * |keywords|` matches |
| `Monitoring.JobMatchAt` | servers/monitoring_server.py:51-62 | company-major order: the match at `c*|kws| + k` is company `c` with keyword `k` |
| `Monitoring.BuildJobMatches` | servers/monitoring_server.py:50-62 | the nested loops produce exactly `JobMatches` over the first two keywords, `|companies| * min(|keywords|, 2)` of them |
| `Monitoring.CreateJobMonitor` | servers/monitoring_server.py:20-74 | stores a job config (active, `last_checked` None, `matches_found` 0, `check_frequency` defaulting to `"daily"`) under the id; other entries are unchanged and a repeated id overwrites; the response counts `|companies| * min(|keywords|,2)` matches and samples the first `min(3, n)` |
| `Monitoring.PaperFor` | servers/monitoring_server.py:106-114 | the simulated paper for one topic; `BuildRecentPapers` ensures one per topic in topic order |
| `Monitoring.BuildRecentPapers` | servers/monitoring_server.py:104-115 | one paper per topic, in topic order |
| `Monitoring.CreateResearchMonitor` | servers/monitoring_server.py:76-127 | stores a research config under the id with no `active` key (`min_relevance` defaulting to `"high"`); other entries are unchanged; the response holds one paper per topic |
| `Monitoring.RecentNews` | servers/monitoring_server.py:156-174 | exactly two items; only the first has `relevance_to_keywords`, which is `keywords[:2]` |
| `Monitoring.CreateIndustryNewsMonitor` | servers/monitoring_server.py:129-186 | stores a news config under the id with no `active` key; other entries are unchanged; the response carries the two news items |
| `Monitoring.KindOf` | servers/monitoring_server.py:208 | the config's `type`, one per constructor; `OnlyJobMonitorsCanBeSkipped` relates it to `IsActive` |
| `Monitoring.IsActive` | servers/monitoring_server.py:205 | `config.get("active", True)`: only a job config can be inactive, as `OnlyJobMonitorsCanBeSkipped` states |
| `Monitoring.NewFindingsFor` | servers/monitoring_server.py:211-249 | the simulated findings of every monitor kind are one fixed item |
| `Monitoring.ActiveIds` | servers/monitoring_server.py:204-206 | the visited ids are registered and no more numerous than the registry's |
| `Monitoring.ActiveIdsExactlyActive` | servers/monitoring_server.py:204-206 | the visited ids are exactly the ids whose monitor is active |
| `Monitoring.ActiveIdsAppend` | servers/monitoring_server.py:204-206 | the visited ids of a concatenation are those of each part, in order, so the visited ids are an order-preserving sub-list of the registry order |
| `Monitoring.ActiveIdsDistinct` | servers/monitoring_server.py:204-256 | distinct registry ids give distinct visited ids, so no `monitor_status` key repeats |
| `Monitoring.CycleFindings` | servers/monitoring_server.py:211-249 | `new_findings` as the visited monitors' findings concatenated in visiting order; `CycleCounts` gives one per visited monitor |
| `Monitoring.CycleAlerts` | servers/monitoring_server.py:221-248 | `alerts_generated` as one per visited monitor with non-empty findings; `CycleCounts` shows it equals the number visited |
| `Monitoring.StatusOf` | servers/monitoring_server.py:251-256 | `monitor_status` as one entry per visited id, in visiting order; `CheckAllMonitors` ensures its keys are the active ids, distinct |
| `Monitoring.CycleCounts` | servers/monitoring_server.py:221-249 | each visited monitor adds one finding and one alert |
| `Monitoring.ActiveIdsAllActive` | servers/monitoring_server.py:205 | when no monitor is marked inactive, every registered monitor is visited |
| `Monitoring.OnlyJobMonitorsCanBeSkipped` | servers/monitoring_server.py:205 | only a job monitor with `active` false is skipped; research and news configs lack the key |
| `Monitoring.CheckAllMonitors` | servers/monitoring_server.py:188-258 | `monitors_checked` is the registry size, inactive monitors included; findings, alerts and status are determined by the active ids in insertion order; `alerts_generated == len(new_findings)` == number of active monitors; the status keys are the active ids in order, with no key repeated; the registry is not modified |

## Left out

- Wall-clock time: `datetime.now()`, `isoformat()` and `timedelta` are replaced by string parameters (`now`, and `earlier` for the news item stamped six hours back). Timestamp-derived monitor ids are a parameter. Each kind prefixes its id (`job_monitor_`, `research_monitor_`, `news_monitor_`, servers/monitoring_server.py:34, 89, 142), so two monitors of the same kind created in the same second share an id, and the later one overwrites the earlier; `Store` models that overwrite. Because the model takes `monitorId` as a free parameter, it also admits two creations of different kinds under one id, which the source cannot produce.
- `next_check` in the job monitor response (servers/monitoring_server.py:72) and `ranking_id`/`ranked_at` (servers/decision_engine_server.py:291-292) are timestamps and are not modelled.
- The constant payload lists `optimization_suggestions` and `bottlenecks_to_address` (servers/decision_engine_server.py:328-332, 349) carry no decision logic and are not modelled.
- String formatting: `success_probability` is kept as the integer before `"%"` is appended. The `"monitoring"` summary is kept as the two counts it formats.
- `str.title()` on the industry name (servers/monitoring_server.py:158, 167) is not modelled: headlines use the industry name as given.
- `Monitoring.ToLower`: lowercases ASCII letters only, while Python's `str.lower()` covers all of Unicode.
- `Numerics.Round2`: exact-real round-half-to-even. Binary floating-point effects are not modelled, so the exact digits Python's `round` gives on IEEE doubles are not reproduced. `8.5 + i*0.3` and the other component formulas are exact reals too.
- `MonitoringManager.alerts_sent` is created empty and never read or written by the modelled code, so it is not modelled.
- `check_all_monitors` has a path for a monitor whose `type` is none of the three kinds. Such a monitor gets a status entry and no finding. Every config the creation tools store has one of the three kinds, so `MonitorConfig` has no such value.
- `Monitoring.MonitoringManager.Store` requires the stored config's `monitorId` to equal its key. Every creation tool passes such a config; the invariant `Valid` relies on it.
- Tasks are opaque records (`map<string, string>`) passed through unchanged. Their own content never influences ranking.
- The canned-payload tools are not part of this model: the other decision-engine tools, the content aggregator, `get_personalized_alerts` and `create_smart_digest`. Neither are the insurance server (HTTP upload plumbing), the example driver, or the MCP transport.
- `check_all_monitors` has no deduplication, scheduling, provider errors, alerts or digests (servers/monitoring_server.py:188-258), so the model has none either.
