# Nimbus FinOps core, modelled in Dafny

Nimbus is a cloud cost (FinOps) dashboard. It asks AWS Cost Explorer,
Compute Optimizer and Resource Explorer for data. Deterministic code then
turns the answers into the views the dashboard and its chat assistant show.
This project models that code and proves what it promises:

- Cost Explorer post-processing: the previous-period lookup, the
  month-over-month (MoM) change and its divide-by-zero guard, top services,
  data-transfer rows, commitment coverage, rightsizing, native anomalies,
  and the dashboard's previous-month and forecast figures.
- Compute Optimizer normalisation: the four resource mappers, savings and
  risk extraction, ARN splitting, per-type aggregation, the status reported
  when every request fails, and the four-hour cache.
- The resource inventory: ARN parsing, the property dictionary, the
  three-page pagination loop, per-service and per-region counts, and the
  cache.
- The local chat engine: intent routing in list order, the figures its
  handlers compute, and the budget thresholds.
- The chat route's request schema and `buildLiveCostSummary`.
- The USD to INR exchange-rate chain and its cache.
- The dashboard payload loader and its cache.
- The decidable formatting helpers.

Conventions:

- Costs are `real`.
- AWS responses come in as already-decoded values. A call that may throw
  is an `Outcome`: a value, or what was thrown.
- Clock readings are integer parameters.
- Regular expressions are predicates.
- Rendered text (`toFixed`, `toISOString`) is a string parameter.
- JavaScript's `||` fallback is `Strings.Or`: `undefined` and `''` both fall
  through. `??` is modelled apart, where only absence falls through.
- `Array.prototype.sort` is stable, so sorting is a stable insertion sort
  (`Ranking.SortDesc`).
- A `Map` filled in a loop is an insertion-ordered bucket list (`Tally`).
- A plain object filled in a loop is `Records.Assign`, where the last
  write wins.
- Module-level caches are classes with `modifies` clauses.
- Loops in the source are methods with loop invariants, proved equal to a
  specification function.

What the code does in a few places worth knowing:

- A recommendation category is kept as soon as it holds one service.
- Recommendations keep declaration order. They are not re-sorted by savings.
- The chat budget's limit is 110% of the forecast only. It never uses the
  previous month's total.
- The four recommendation categories are compute, storage, stable and
  tiny.
- A division by a zero budget limit follows JavaScript: a positive amount
  gives Infinity and zero gives NaN.

## Model

| member | source | states |
|---|---|---|
| Strings.Or | apps/web/src/lib/cloud/aws-costs.ts:135 | `a \|\| d` on an optional string: an absent or empty value gives the default, anything else is kept; the result is never empty when the default is not |
| Strings.Split | apps/web/src/lib/cloud/aws-resources.ts:42 | `split(sep)` gives at least one piece and no piece contains the separator |
| Strings.SplitJoin | apps/web/src/lib/cloud/aws-resources.ts:42 | joining the pieces of a split with the separator gives back the original string |
| Strings.SplitLast | apps/web/src/lib/cloud/aws-compute-optimizer.ts:99 | for a string holding the separator, `split(sep).pop()` is the text after the last separator, empty exactly when the string ends with the separator |
| Strings.SplitNoSeparator | apps/web/src/lib/cloud/aws-compute-optimizer.ts:61 | a string without the separator splits into itself alone |
| Strings.ContainsWitness | apps/web/src/lib/cloud/aws-costs.ts:276 | `includes` holds exactly when the substring occurs at some position |
| Seqs.FilterPositions | apps/web/src/app/api/chat/route.ts:29-32 | `filter` is an order-preserving selection: the k-th survivor is the element at increasing position idx[k], and every element satisfying the predicate is selected |
| Seqs.FilterMultiset | apps/web/src/app/api/chat/route.ts:29-32 | `filter` keeps each satisfying element as often as it occurs and drops every other one |
| Seqs.FindFirst | apps/web/src/lib/ai/local-engine.ts:31-32 | `find` returns nothing exactly when no element satisfies the predicate, else the first element that does |
| Seqs.SumPermutation | apps/web/src/lib/cloud/aws-compute-optimizer.ts:250 | a `reduce` sum does not depend on element order |
| Ranking.SortDesc | apps/web/src/lib/cloud/aws-costs.ts:153 | sorting by a key descending yields a permutation of the input, sorted descending |
| Ranking.TopN | apps/web/src/lib/cloud/aws-costs.ts:153 | `sort(...).slice(0, n)`: at most n elements, sorted descending, drawn from the input |
| Ranking.TopNDominates | apps/web/src/lib/cloud/aws-costs.ts:153 | an element left out of the top n is no larger than every element kept |
| Ranking.SortDescDistinct | apps/web/src/lib/cloud/aws-compute-optimizer.ts:246-248 | sorting keeps entries with distinct keys distinct |
| Tally.Count | apps/web/src/lib/cloud/aws-compute-optimizer.ts:239-245 | the `Map` counting loop (get or default, increment, add, set) computes the insertion-ordered aggregate |
| Tally.AggregateSums | apps/web/src/lib/cloud/aws-compute-optimizer.ts:239-245 | the bucket counts add up to the number of items and the bucket totals to the summed weights |
| Tally.AggregateContents | apps/web/src/lib/cloud/aws-compute-optimizer.ts:239-245 | the buckets have distinct keys, each holds its key's item count and weight total, and every item's key has a bucket |
| Tally.RankedTally | apps/web/src/lib/cloud/aws-compute-optimizer.ts:246-248 | after sorting the buckets they still have distinct keys, are sorted, their counts add up to the item count and their totals to the summed weights, and each bucket holds its key's count (positive) and total |
| Records.AssignKeys | apps/web/src/lib/cloud/aws-costs.ts:133-137 | an object filled in a loop has a key for each kept item and no other key |
| Records.AssignLast | apps/web/src/lib/cloud/aws-costs.ts:133-137 | a key holds the value of the last kept item with that key |
| Format.ParseCode | apps/web/src/lib/utils/format.ts:3-8 | the currency table's codes and currencies are inverse |
| Format.ConfigDistinct | apps/web/src/lib/utils/format.ts:3-8 | the four currencies have pairwise different symbols and locales |
| Format.GetConfig | apps/web/src/lib/utils/format.ts:10-16 | an explicit currency selects its entry; otherwise the environment's default, or INR when it is unset or empty; an entry exists exactly when the code is in the table |
| Format.GetCurrencySymbol | apps/web/src/lib/utils/format.ts:39-41 | INR gives ₹, USD gives $, EUR gives €, GBP gives £; no argument gives the default currency's symbol, ₹ when the environment sets none |
| Format.FormatPercentage | apps/web/src/lib/utils/format.ts:43-45 | a '+' is prefixed exactly when the value is not negative, and the fixed-point text is followed by '%' |
| Format.RelativeTimeBuckets | apps/web/src/lib/utils/format.ts:60-73 | below one minute (including any future date) gives 'just now'; then minutes, hours and days, each shown as the elapsed time rounded down in that unit; from 30 days on, the absolute date |
| Format.RelativeTimeMonotone | apps/web/src/lib/utils/format.ts:66-72 | more elapsed time never selects a finer unit, nor a smaller number within the same unit |
| AwsCosts.PreviousLookupContents | apps/web/src/lib/cloud/aws-costs.ts:133-137 | the lookup has a key for every previous-period group (a missing key is ''), and a later group with the same key overwrites an earlier one |
| AwsCosts.BuildPreviousLookup | apps/web/src/lib/cloud/aws-costs.ts:133-137 | the lookup loop computes that lookup |
| AwsCosts.MomChange | apps/web/src/lib/cloud/aws-costs.ts:146-147 | with a positive previous cost, applying the change percentage to it gives the current cost, and the change is positive or zero exactly when the cost rose or stayed equal; otherwise the change is 0 |
| AwsCosts.PricedRows | apps/web/src/lib/cloud/aws-costs.ts:140-150 | every row kept costs at least 0.01 and carries the MoM change against its previous cost |
| AwsCosts.PricedRowsAreKeptGroups | apps/web/src/lib/cloud/aws-costs.ts:143-148 | the rows are exactly the groups not below 0.01, in input order, each priced against the lookup |
| AwsCosts.ComputeRows | apps/web/src/lib/cloud/aws-costs.ts:133-150 | the two loops compute those rows |
| AwsCosts.GetTopServicesCurrent | apps/web/src/lib/cloud/aws-costs.ts:133-153 | at most 10 services, sorted by cost descending, each from provider 'AWS', costing at least 0.01, with its MoM change; the top 10 of all priced rows |
| AwsCosts.GetDataTransferCosts | apps/web/src/lib/cloud/aws-costs.ts:222-242 | a permutation of all priced rows (none dropped beyond the 0.01 rule, no truncation), sorted by cost descending |
| AwsCosts.OnDemandIsFilteredSum | apps/web/src/lib/cloud/aws-costs.ts:272-281 | the on-demand total sums exactly the groups whose purchase type contains 'On Demand' or is '' |
| AwsCosts.CommittedIsFilteredSum | apps/web/src/lib/cloud/aws-costs.ts:272-281 | the committed total sums exactly the other groups |
| AwsCosts.CommitmentPartition | apps/web/src/lib/cloud/aws-costs.ts:272-283 | on-demand plus committed equals the total of all group costs |
| AwsCosts.PercentShare | apps/web/src/lib/cloud/aws-costs.ts:284 | a part between 0 and a positive total is between 0 and 100 percent of it |
| AwsCosts.Coverage | apps/web/src/lib/cloud/aws-costs.ts:283-292 | coverage is the committed share of the total in percent, 0 when the total is not positive, within [0,100] for non-negative costs; utilisation is 85 exactly when committed > 0, else 0; savings are a quarter of committed when positive, else 0 |
| AwsCosts.SplitByPurchaseType | apps/web/src/lib/cloud/aws-costs.ts:268-281 | the accumulation loop computes the on-demand and committed totals |
| AwsCosts.GetCommitmentCoverage | apps/web/src/lib/cloud/aws-costs.ts:268-302 | a thrown request gives all zeros; otherwise the totals are the filtered sums, they partition the total, and the coverage figures follow |
| AwsCosts.MapRightsizing | apps/web/src/lib/cloud/aws-costs.ts:330-354 | the target type is 'N/A' for TERMINATE or when there is no target, and otherwise the first target's type (or 'N/A' when that is empty); savings are the modify savings, falling back to the terminate savings when those are 0 or absent |
| AwsCosts.GetCERightsizingRecommendations | apps/web/src/lib/cloud/aws-costs.ts:329-360 | a thrown request gives []; otherwise one mapped entry per recommendation, in order |
| AwsCosts.GetNativeAnomalies | apps/web/src/lib/cloud/aws-costs.ts:454-532 | no monitors gives 'no-monitors' with empty lists and zero totals; a thrown request gives 'error' with its message or 'Unknown error'; otherwise every monitor mapped in order, the anomalies with nonzero impact, sorted by impact descending, their count and their impact sum |
| AwsCosts.ImpactfulAnomalies | apps/web/src/lib/cloud/aws-costs.ts:509-510 | the kept anomalies are a permutation of those with nonzero impact, sorted by impact descending |
| AwsCosts.NativeAnomaliesTotal | apps/web/src/lib/cloud/aws-costs.ts:490-513 | the total impact equals the impact sum over all fetched anomalies |
| AwsCosts.AssembleDashboard | apps/web/src/lib/cloud/aws-costs.ts:557-575 | the previous month is the last trend entry when there are at least two, else 0; the change is the MoM change against it; the forecast is MTD + forecast when the forecast is positive, else MTD scaled to 30 days; account 'unknown' when absent; currency 'USD' |
| AwsCosts.ForecastCoversSpend | apps/web/src/lib/cloud/aws-costs.ts:570 | the forecast is at least the month-to-date spend, except on the 31st without a Cost Explorer forecast, where the 30-day extrapolation falls below it |
| ComputeOptimizer.ExtractSavings | apps/web/src/lib/cloud/aws-compute-optimizer.ts:50-52 | the direct savings value, else the savings-opportunity value, else 0; only absence falls through |
| ComputeOptimizer.MapRisk | apps/web/src/lib/cloud/aws-compute-optimizer.ts:131-139 | VeryLow, Medium and High map to themselves; every other value, including none, maps to Low |
| ComputeOptimizer.ArnRegion | apps/web/src/lib/cloud/aws-compute-optimizer.ts:70 | the region is the fourth ':' field of the ARN when non-empty, else 'ap-south-1' |
| ComputeOptimizer.LastSegment | apps/web/src/lib/cloud/aws-compute-optimizer.ts:99 | the last segment holds no separator and is what follows the last separator of the ARN; it is empty exactly when the ARN ends with the separator; an ARN without the separator is its own last segment; no ARN gives '' |
| ComputeOptimizer.InstanceId | apps/web/src/lib/cloud/aws-compute-optimizer.ts:61 | the resource id is the text after the ARN's last '/'; an ARN ending in '/' (empty last segment) or without '/' gives the whole ARN; no ARN gives '' |
| ComputeOptimizer.Ec2SavingsPercentage | apps/web/src/lib/cloud/aws-compute-optimizer.ts:57-67 | because the current cost is set to the savings, the EC2 percentage is 100 when there are savings and 0 otherwise |
| ComputeOptimizer.MapEC2 | apps/web/src/lib/cloud/aws-compute-optimizer.ts:54-72 | null exactly when the finding is 'Optimized'; otherwise type EC2 with the extracted savings, the 100/0 percentage, the ARN's region and id, the first option's risk, the current type or 'Unknown', and the first option's type or 'N/A' |
| ComputeOptimizer.MapAutoScaling | apps/web/src/lib/cloud/aws-compute-optimizer.ts:74-91 | null exactly when the finding is 'Optimized'; otherwise type AutoScaling with the group name or '' as id, percentage 0, the extracted savings, the ARN's region, the risk mapped from the first option's migration effort, the current type or 'Unknown', and the first option's type or 'N/A' |
| ComputeOptimizer.MapLambda | apps/web/src/lib/cloud/aws-compute-optimizer.ts:93-109 | null exactly when the finding is 'Optimized'; otherwise type Lambda with the last ':' segment as id, percentage 0, Low risk, the extracted savings, the current memory size (or 0) in MB, and the first option's non-zero memory size in MB or 'N/A' |
| ComputeOptimizer.MapEBS | apps/web/src/lib/cloud/aws-compute-optimizer.ts:111-129 | null exactly when the finding is 'Optimized'; otherwise type EBS with the last '/' segment as id, percentage 0, Low risk, the extracted savings, the current volume text, and the first option's volume text or 'N/A' when it has no configuration |
| ComputeOptimizer.PushMapped | apps/web/src/lib/cloud/aws-compute-optimizer.ts:166-196 | each push loop appends the non-null mapped recommendations, in order |
| ComputeOptimizer.SomesNotOptimized | apps/web/src/lib/cloud/aws-compute-optimizer.ts:166-196 | no collected recommendation has the finding 'Optimized' |
| ComputeOptimizer.AllRecsNotOptimized | apps/web/src/lib/cloud/aws-compute-optimizer.ts:166-196 | the combined list of all four resource types holds no 'Optimized' finding |
| ComputeOptimizer.FailureSummary | apps/web/src/lib/cloud/aws-compute-optimizer.ts:199-232 | when every request failed: empty lists and zero savings; 'not-enrolled' with the enable-it message exactly when the first error mentions OptInRequired or 'not opted in'; otherwise 'collecting' with the 14-day message exactly when the error is an InternalServerException or nothing was collected; else 'error' with the error's text |
| ComputeOptimizer.OutcomeStatus | apps/web/src/lib/cloud/aws-compute-optimizer.ts:199-257 | the 'error' status is unreachable; the status is 'active' exactly when some request succeeded; otherwise 'not-enrolled' or 'collecting' by the first error's message |
| ComputeOptimizer.ActiveSummaryProperties | apps/web/src/lib/cloud/aws-compute-optimizer.ts:236-250 | recommendations are a permutation sorted by savings descending; the total is their savings sum; byType has one entry per type, sorted by savings, whose counts add up to the number of recommendations and whose savings add up to the total |
| ComputeOptimizer.Compute | apps/web/src/lib/cloud/aws-compute-optimizer.ts:155-257 | the collection, sort and aggregation code computes the summary specified by the four settled responses |
| ComputeOptimizer.OptimizerCache.Fetch | apps/web/src/lib/cloud/aws-compute-optimizer.ts:143-152 | a summary younger than 4 hours is returned and nothing changes; otherwise the computed summary is returned, and only an 'active' one is stored with its time |
| AwsResources.ResourceService | apps/web/src/lib/cloud/aws-resources.ts:43 | the service is the third ':' field of the ARN, else the first ':' field of the resource type, else 'unknown'; empty fields fall through and it is never empty |
| AwsResources.ResourceRegion | apps/web/src/lib/cloud/aws-resources.ts:44 | the region is the reported region, else the fourth ARN field, else 'unknown'; never empty |
| AwsResources.PropertiesContents | apps/web/src/lib/cloud/aws-resources.ts:46-56 | only properties with a name and truthy data are recorded, string data verbatim, and a later property with the same name overwrites |
| AwsResources.BuildProperties | apps/web/src/lib/cloud/aws-resources.ts:46-56 | the property loop computes that dictionary |
| AwsResources.MapResource | apps/web/src/lib/cloud/aws-resources.ts:39-65 | the mapped resource has the ARN or '', a resource type defaulting to 'unknown', and a non-empty service and region |
| AwsResources.Crawl | apps/web/src/lib/cloud/aws-resources.ts:86-102 | a crawl makes between one and three requests and only appends the search results it receives to those received before |
| AwsResources.StopPage | apps/web/src/lib/cloud/aws-resources.ts:95-102 | a response without a next token, or the third response, ends the loop: its results are appended and no further request is made |
| AwsResources.CrawlFollowsTrail | apps/web/src/lib/cloud/aws-resources.ts:86-102 | whenever the responses form a chain of pages, each requested with the previous page's token, ending at the first tokenless page or the third request, the crawl returns those pages' results concatenated in order after one request per page |
| AwsResources.CrawlTrail | apps/web/src/lib/cloud/aws-resources.ts:86-102 | conversely, every successful crawl followed such a chain: its result is its pages' results in order, it stopped at the first tokenless page or the third request, and it never made more than three requests |
| AwsResources.ResourcesOfAppend | apps/web/src/lib/cloud/aws-resources.ts:95-97 | mapping the results page by page equals mapping all the results at once |
| AwsResources.PushAll | apps/web/src/lib/cloud/aws-resources.ts:95-97 | the push loop appends one mapped resource per search result, in order |
| AwsResources.Paginate | apps/web/src/lib/cloud/aws-resources.ts:82-102 | the do-while loop leaves the mapped results of the crawl and its request count, or what a request threw |
| AwsResources.CountByProperties | apps/web/src/lib/cloud/aws-resources.ts:105-120 | each service (or region) is listed once, sorted by count descending, the counts add up to the number of resources, each count is that key's number of resources, and every resource's key is listed |
| AwsResources.Collect | apps/web/src/lib/cloud/aws-resources.ts:82-127 | pagination then the two counting loops compute the summary; totalCount is the number of resources |
| AwsResources.ResourceCache.Fetch | apps/web/src/lib/cloud/aws-resources.ts:69-79 | a summary younger than 4 hours is returned without requests; otherwise the new summary replaces the cache and its time; a thrown request leaves the cache alone |
| LocalEngine.Pct | apps/web/src/lib/ai/local-engine.ts:12 | '+' is prefixed exactly when n is not negative, then the one-decimal text and '%' |
| LocalEngine.FirstMatchIsFirst | apps/web/src/lib/ai/local-engine.ts:105-112 | the chosen intent is the first in list order with a matching pattern; none is chosen exactly when no pattern matches |
| LocalEngine.SelectedIntent | apps/web/src/lib/ai/local-engine.ts:105-112 | intent k answers exactly when one of its patterns matches and no earlier intent's pattern does |
| LocalEngine.GenerateLocalResponse | apps/web/src/lib/ai/local-engine.ts:105-116 | the nested search returns the first matching intent's reply, else the fallback reply |
| LocalEngine.HandlersNeverFallBack | apps/web/src/lib/ai/local-engine.ts:14-103 | no intent handler produces the fallback reply |
| LocalEngine.FallbackExactlyWhenNoMatch | apps/web/src/lib/ai/local-engine.ts:105-116 | the fallback reply is given if and only if no pattern of any intent matches |
| LocalEngine.StatusAgrees | apps/web/src/lib/ai/local-engine.ts:73-77 | for a non-negative limit, OVER exactly when spent > limit and WARNING exactly when at risk; no budget is both exceeded and at risk |
| LocalEngine.BudgetView | apps/web/src/lib/ai/local-engine.ts:73-79 | one status per budget, in order; the exceeded list is `filter(spent > limit)` and the at-risk list `filter(above 80% and not exceeded)` positionally, each holding its budgets as often as listed, and the two never share a budget |
| LocalEngine.BudgetLists | apps/web/src/lib/ai/local-engine.ts:73-74 | the exceeded and at-risk lists hold exactly the matching budgets with their multiplicities, and are disjoint |
| LocalEngine.SavingsView | apps/web/src/lib/ai/local-engine.ts:57-59 | the total is the savings sum, the annual figure 12 times it, and the categories a permutation sorted by savings descending; no recommendations means a crash on `sorted[0]` |
| LocalEngine.AnomalyView | apps/web/src/lib/ai/local-engine.ts:65-67 | the listed anomalies are `filter(status === 'open')` in input order, each as often as listed, and only they are summed |
| LocalEngine.ProviderView | apps/web/src/lib/ai/local-engine.ts:29-51 | a provider missing from the list crashes the handler; otherwise its first entry (`find`), its services as `filter(provider)` in input order, its first budget (`find`) if any, and for AWS the open-anomaly count |
| LocalEngine.Fallback | apps/web/src/lib/ai/local-engine.ts:114-115 | the fallback quotes the query, the MTD spend, the first top service, the number of open anomalies and the savings total, and crashes when there is no top service |
| LocalEngine.Handle | apps/web/src/lib/ai/local-engine.ts:14-103 | total spend and summary crash exactly when no provider is listed and lead with the first provider's spend; top services are the first five, crash exactly when there are none, and name the first with change > 10 if any; the forecast's annual figure is 12 times the savings total and the optimised spend plus a month of savings is the forecast; the summary counts the open anomalies, their impact and the exceeded budgets |
| LocalEngine.RepliesAgree | apps/web/src/lib/ai/local-engine.ts:60-115 | the summary and fallback figures agree with the anomaly, budget and savings replies |
| ChatRoute.ParseRequest | apps/web/src/app/api/chat/route.ts:8-19 | a request is accepted exactly when the message has 1 to 1000 characters and the history, if present, has at most 20 entries with role 'user' or 'assistant' and string content; accepted fields are kept |
| ChatRoute.ParseRequestRoundTrip | apps/web/src/app/api/chat/route.ts:8-19 | an accepted request written back out parses to itself |
| ChatRoute.Categorise | apps/web/src/app/api/chat/route.ts:29-32 | each category is `services.filter(test)` positionally and holds exactly the services meeting its test (compute pattern, storage pattern, \|change\| < 20 and cost > 1, 0 < cost < 1% of MTD); a service may be in several |
| ChatRoute.CategoryCounts | apps/web/src/app/api/chat/route.ts:29-32 | each category lists a passing service as often as the input does, and no other service |
| ChatRoute.RecommendationsShape | apps/web/src/app/api/chat/route.ts:34-39 | a category is recommended exactly when it selected some service; survivors keep the order Rightsizing, Savings Plans, Storage Optimization, Idle Resources |
| ChatRoute.RecommendationSavings | apps/web/src/app/api/chat/route.ts:34-39 | the savings add up to 0.15, 0.30, 0.20 and 0.50 times the compute, stable, storage and tiny costs |
| ChatRoute.ToAnomaly | apps/web/src/app/api/chat/route.ts:44-50 | the anomaly keeps the service's provider and name, is open, and its impact is cost times change over 100 |
| ChatRoute.SpikeImpactPositive | apps/web/src/app/api/chat/route.ts:42-50 | a spiking service with positive cost yields an anomaly of positive impact |
| ChatRoute.AnomaliesAreSpikes | apps/web/src/app/api/chat/route.ts:42-50 | the anomalies are exactly the services with change > 20, in input order, each open, with positive impact when the cost is positive |
| ChatRoute.DerivedAnomaliesAllOpen | apps/web/src/app/api/chat/route.ts:49 | filtering all-open anomalies by status keeps them all |
| ChatRoute.LiveBudgetStatus | apps/web/src/app/api/chat/route.ts:52-56 | with a positive forecast the single budget is OVER exactly when MTD exceeds 110% of the forecast, and at risk exactly when MTD lies above 88% and not above 110% of it |
| ChatRoute.BuildLiveCostSummary | apps/web/src/app/api/chat/route.ts:22-73 | the summary has one AWS provider with the MTD and change, one budget at 110% of the forecast, savingsIdentified equal to the recommendations' savings sum, and activeAnomalies equal to the number of anomalies |
| ChatRoute.LiveSummaryConsistent | apps/web/src/app/api/chat/route.ts:58-71 | the chat engine's anomaly reply lists all derived anomalies, matching activeAnomalies, and its savings total equals savingsIdentified |
| ExchangeRate.Accepted | apps/web/src/lib/cloud/exchangeRate.ts:45-52 | a source counts only with an ok response and a numeric rate above 0 |
| ExchangeRate.Chain | apps/web/src/lib/cloud/exchangeRate.ts:39-105 | the primary source's rate, else the fallback source's, else the stale cache, else 83 'fallback (offline)'; the rate is always above 0 |
| ExchangeRate.RateCache.GetExchangeRateInfo | apps/web/src/lib/cloud/exchangeRate.ts:33-106 | a rate younger than 24 hours is returned as cached; a rate from either source replaces the cache with its time and source name; when both fail the cache is untouched; the rate returned is above 0 |
| ExchangeRate.RateCache.GetUsdToInrRate | apps/web/src/lib/cloud/exchangeRate.ts:24-27 | returns the rate of the info call, always above 0 |
| DashboardData.FallbackData | apps/web/src/lib/cloud/fetchDashboardData.ts:83-100 | all figures 0, all lists empty, account 'not-connected', currency 'USD', status 'error', carrying the error |
| DashboardData.Merge | apps/web/src/lib/cloud/fetchDashboardData.ts:56-70 | the Cost Explorer fields pass through; a failed data-transfer fetch gives [], a failed commitment fetch all zeros, a failed optimizer 0, 'error' and [] |
| DashboardData.DashboardCache.GetDashboardData | apps/web/src/lib/cloud/fetchDashboardData.ts:43-81 | a payload younger than 4 hours is returned as cached; missing credentials give the fallback payload without touching the cache; a success is stored with its time; a failure returns the stale cache if any, else the fallback with the error's message |

## Left out

- AWS SDK clients, credentials, `client.send` and `parseFloat` of amount strings: the model starts from decoded responses.
- `Promise.all` and `Promise.allSettled` timing: each settled result is an input.
- `Date`, month boundaries, `toISOString`, `toLocaleString`, `Intl.NumberFormat` and `toFixed` output: the clock is an integer and rendered text is a parameter.
- The regular-expression engine: the patterns are predicates on the text.
- IEEE doubles, NaN, negative zero and rounding: costs are exact reals. A division by zero is modelled only where its outcome changes a choice (the budget thresholds).
- `getMonthlyTrend`, `getCurrentMonthForecast`, `validateAwsCredentials` and the Reserved Instance and Savings Plans purchase recommendations in aws-costs.ts: they only reshape SDK responses. Their results are inputs to `AwsCosts.AssembleDashboard`.
- The optimizer's outer `catch` (aws-compute-optimizer.ts:262-282): once the requests are settled, nothing left in the block can throw.
- The `String(p.Data)` branch for a property that `JSON.stringify` cannot render: decoded JSON always renders.
- Property names such as `__proto__`, which a plain JavaScript object treats specially.
- ChatRoute.ParseRequest: measures the message in Unicode characters, not the UTF-16 code units zod counts.
- LocalEngine.Handle and LocalEngine.Fallback: the models keep only the figures and choices that feed each reply template, not the template text. The forecast reply's reduction percentage is not modelled.
- The chat route's `POST` handler, the `auth()` session check and the external model call are network I/O.
- apps/web/src/lib/ai/cost-context.ts is not part of this model beyond its `CostSummary` shape. Its prompt text and sample data are left out.
- AwsResources.Crawl: the page token is passed to the request unchanged. The source leaves out an empty token, and the loop never sends one after the first request.
- ChatRoute.ParseRequest: a `history` that is present but not an array, and an entry that is not an object, are outside `RawRequest`; zod rejects both, as the model rejects an entry with no role or content.
