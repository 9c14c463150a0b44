/** The `CostSummary` shape of apps/web/src/lib/ai/cost-context.ts: the cost
    snapshot the chat assistant reasons over. */
module CostContext {

  datatype Provider = Provider(name: string, spend: real, change: real)

  datatype TopService = TopService(name: string, provider: string, cost: real, change: real)

  datatype Budget = Budget(name: string, limit: real, spent: real, provider: string)

  datatype Recommendation = Recommendation(category: string, count: nat, savings: real)

  datatype Anomaly = Anomaly(title: string, provider: string, service: string, impact: real, status: string)

  datatype CostSummary = CostSummary(
    totalSpendMTD: real,
    forecastedSpend: real,
    savingsIdentified: real,
    activeAnomalies: nat,
    providers: seq<Provider>,
    topServices: seq<TopService>,
    budgets: seq<Budget>,
    recommendations: seq<Recommendation>,
    anomalies: seq<Anomaly>)

  function ServiceCost(s: TopService): real
  {
    s.cost
  }

  function SavingsOf(r: Recommendation): real
  {
    r.savings
  }

  function RecommendationCount(r: Recommendation): real
  {
    r.count as real
  }

  function Impact(a: Anomaly): real
  {
    a.impact
  }

  /** `a.status === 'open'` */
  predicate IsOpen(a: Anomaly)
  {
    a.status == "open"
  }
}
