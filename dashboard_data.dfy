/** The server-side dashboard loader of
    apps/web/src/lib/cloud/fetchDashboardData.ts: a four-hour module-level
    cache, the credential check, the merge of the four parallel fetches
    (three of which degrade to defaults), and the fallback payload. The
    fetches' settled results, the credentials and the clock are inputs. */
module DashboardData {
  import opened Seqs
  import opened Tally
  import AwsCosts
  import ComputeOptimizer

  /** `DashboardPayload` */
  datatype DashboardPayload = DashboardPayload(
    totalSpendMTD: real,
    previousMonthTotal: real,
    changePercentage: real,
    forecastedSpend: real,
    monthlyCosts: seq<AwsCosts.MonthlyCost>,
    topServices: seq<AwsCosts.ServiceCost>,
    accountId: string,
    currency: string,
    error: Option<string>,
    dataTransfer: seq<AwsCosts.DataTransferCost>,
    commitment: AwsCosts.CommitmentCoverage,
    optimizerSavings: real,
    optimizerStatus: ComputeOptimizer.OptimizerStatus,
    optimizerByType: seq<Bucket>)

  /** `CACHE_TTL_MS`: four hours. */
  const CacheTtlMs := 4 * 60 * 60 * 1000

  const CredentialsMessage := "AWS credentials not configured. Set AWS_ACCESS_KEY_ID and AWS_SECRET_ACCESS_KEY."

  /** `defaultCommitment`: every figure 0. */
  const DefaultCommitment := AwsCosts.NoCoverage

  /** `fallbackData(error)`: an empty, disconnected payload carrying the
      error text. */
  function FallbackData(error: string): (p: DashboardPayload)
    ensures p.totalSpendMTD == 0.0 && p.previousMonthTotal == 0.0 && p.changePercentage == 0.0
    ensures p.forecastedSpend == 0.0 && p.optimizerSavings == 0.0
    ensures p.monthlyCosts == [] && p.topServices == [] && p.dataTransfer == [] && p.optimizerByType == []
    ensures p.accountId == "not-connected" && p.currency == "USD" && p.error == Some(error)
    ensures p.commitment == DefaultCommitment && p.optimizerStatus == ComputeOptimizer.Error
  {
    DashboardPayload(0.0, 0.0, 0.0, 0.0, [], [], "not-connected", "USD", Some(error), [], DefaultCommitment,
      0.0, ComputeOptimizer.Error, [])
  }

  /** `!process.env.X`: unset or empty. */
  predicate Missing(v: Option<string>)
  {
    v.None? || v.value == ""
  }

  /** The payload built from the four settled fetches once the Cost
      Explorer data arrived: a failed data-transfer, commitment or optimizer
      fetch is replaced by its default instead of failing the payload. */
  function Merge(aws: AwsCosts.DashboardData, dataTransfer: Outcome<seq<AwsCosts.DataTransferCost>>,
                 commitment: Outcome<AwsCosts.CommitmentCoverage>, optimizer: Outcome<ComputeOptimizer.Summary>)
    : (p: DashboardPayload)
    ensures p.totalSpendMTD == aws.totalSpendMTD && p.previousMonthTotal == aws.previousMonthTotal
    ensures p.changePercentage == aws.changePercentage && p.forecastedSpend == aws.forecastedSpend
    ensures p.monthlyCosts == aws.monthlyCosts && p.topServices == aws.topServices
    ensures p.accountId == aws.accountId && p.currency == aws.currency && p.error.None?
    ensures p.dataTransfer == if dataTransfer.Ok? then dataTransfer.value else []
    ensures p.commitment == if commitment.Ok? then commitment.value else DefaultCommitment
    ensures optimizer.Thrown? ==> p.optimizerSavings == 0.0 && p.optimizerStatus == ComputeOptimizer.Error && p.optimizerByType == []
    ensures optimizer.Ok? ==> (p.optimizerSavings == optimizer.value.totalEstimatedSavings &&
      p.optimizerStatus == optimizer.value.optimizerStatus && p.optimizerByType == optimizer.value.byType)
  {
    DashboardPayload(
      aws.totalSpendMTD, aws.previousMonthTotal, aws.changePercentage, aws.forecastedSpend,
      aws.monthlyCosts, aws.topServices, aws.accountId, aws.currency, None,
      match dataTransfer case Ok(rows) => rows case Thrown(_) => [],
      match commitment case Ok(c) => c case Thrown(_) => DefaultCommitment,
      match optimizer case Ok(s) => s.totalEstimatedSavings case Thrown(_) => 0.0,
      match optimizer case Ok(s) => s.optimizerStatus case Thrown(_) => ComputeOptimizer.Error,
      match optimizer case Ok(s) => s.byType case Thrown(_) => [])
  }

  /** `error instanceof Error ? error.message : 'Failed to fetch data'` */
  function FailureText(message: Option<string>): string
  {
    if message.Some? then message.value else "Failed to fetch data"
  }

  /** The module-level `cachedData` / `cachedAt` pair. */
  class DashboardCache {
    var cachedData: Option<DashboardPayload>
    var cachedAt: int

    /** Only merged payloads are cached, never a fallback one. */
    predicate Valid()
      reads this
    {
      cachedData.Some? ==> cachedData.value.error.None?
    }

    constructor()
      ensures Valid() && cachedData.None? && cachedAt == 0
    {
      cachedData := None;
      cachedAt := 0;
    }

    predicate Fresh(now: int)
      reads this
    {
      cachedData.Some? && now - cachedAt < CacheTtlMs
    }

    /** `getDashboardData` at time `now`; `storedAt` is the clock read when
        the merged payload is cached. `aws` is the settled
        `fetchAwsDashboardData`, whose failure rejects the whole
        `Promise.all`; the other three carry their own defaults. */
    method GetDashboardData(now: int, storedAt: int, accessKey: Option<string>, secretKey: Option<string>,
                            aws: Outcome<AwsCosts.DashboardData>,
                            dataTransfer: Outcome<seq<AwsCosts.DataTransferCost>>,
                            commitment: Outcome<AwsCosts.CommitmentCoverage>,
                            optimizer: Outcome<ComputeOptimizer.Summary>) returns (p: DashboardPayload)
      requires Valid()
      modifies this
      ensures Valid()
      ensures old(Fresh(now)) ==> p == old(cachedData).value && unchanged(this)
      ensures !old(Fresh(now)) && (Missing(accessKey) || Missing(secretKey)) ==>
        p == FallbackData(CredentialsMessage) && unchanged(this)
      ensures !old(Fresh(now)) && !Missing(accessKey) && !Missing(secretKey) && aws.Ok? ==>
        p == Merge(aws.value, dataTransfer, commitment, optimizer) && cachedData == Some(p) && cachedAt == storedAt
      ensures !old(Fresh(now)) && !Missing(accessKey) && !Missing(secretKey) && aws.Thrown? ==>
        unchanged(this) &&
        p == if old(cachedData).Some? then old(cachedData).value else FallbackData(FailureText(aws.message))
    {
      if cachedData.Some? && now - cachedAt < CacheTtlMs {
        return cachedData.value;
      }
      if accessKey.None? || accessKey.value == "" || secretKey.None? || secretKey.value == "" {
        return FallbackData(CredentialsMessage);
      }
      match aws
      case Thrown(message) =>
        if cachedData.Some? {
          return cachedData.value;
        }
        return FallbackData(FailureText(message));
      case Ok(awsData) =>
        var data := Merge(awsData, dataTransfer, commitment, optimizer);
        cachedData := Some(data);
        cachedAt := storedAt;
        return data;
    }
  }
}
