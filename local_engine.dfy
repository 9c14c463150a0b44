/** The rule-based chat engine of apps/web/src/lib/ai/local-engine.ts: the
    intent list searched in order, and the figures and choices each
    handler feeds its reply template. The regular expressions are
    predicates on the query; the template text, `toLocaleString` and
    `toFixed` are not modelled. */
module LocalEngine {
  import opened Seqs
  import opened Ranking
  import opened CostContext
  import Format

  /** `pct(n)`, given `fixed`, the text of `n.toFixed(1)`: the same sign
      rule as `formatPercentage`. */
  function Pct(n: real, fixed: string): (r: string)
    ensures |r| >= 1 && r[|r| - 1] == '%'
    ensures r[0] == '+' <==> n >= 0.0 || (|fixed| > 0 && fixed[0] == '+')
    ensures n >= 0.0 ==> r == "+" + fixed + "%"
    ensures n < 0.0 ==> r == fixed + "%"
  {
    var r := Format.FormatPercentage(n, fixed);
    assert n >= 0.0 ==> r == "+" + fixed + "%";
    r
  }

  /** The entries of `intents`, in list order. */
  datatype Intent =
    | TotalSpend | TopServices | AwsSpend | AzureSpend | GcpSpend
    | Savings | Anomalies | Budgets | Forecast | Summary | Greeting

  const Intents: seq<Intent> :=
    [TotalSpend, TopServices, AwsSpend, AzureSpend, GcpSpend, Savings, Anomalies, Budgets, Forecast, Summary, Greeting]

  /** `pattern.test(query)` for some pattern of the list. */
  predicate AnyMatch(patterns: seq<string -> bool>, query: string)
  {
    exists k :: 0 <= k < |patterns| && patterns[k](query)
  }

  /** The first intent of `intents` with a matching pattern. */
  function FirstMatch(intents: seq<Intent>, patterns: Intent -> seq<string -> bool>, query: string): Option<Intent>
  {
    if |intents| == 0 then None
    else if AnyMatch(patterns(intents[0]), query) then Some(intents[0])
    else FirstMatch(intents[1..], patterns, query)
  }

  /** The selected intent is the first one in list order whose patterns
      match, and no intent is selected exactly when none matches. */
  lemma {:induction false} FirstMatchIsFirst(intents: seq<Intent>, patterns: Intent -> seq<string -> bool>, query: string)
    ensures FirstMatch(intents, patterns, query).None? <==>
      forall k :: 0 <= k < |intents| ==> !AnyMatch(patterns(intents[k]), query)
    ensures FirstMatch(intents, patterns, query).Some? ==>
      exists k :: 0 <= k < |intents| && intents[k] == FirstMatch(intents, patterns, query).value &&
        AnyMatch(patterns(intents[k]), query) &&
        forall j :: 0 <= j < k ==> !AnyMatch(patterns(intents[j]), query)
  {
    if |intents| > 0 && !AnyMatch(patterns(intents[0]), query) {
      var rest := intents[1..];
      FirstMatchIsFirst(rest, patterns, query);
      forall k | 0 < k < |intents| ensures intents[k] == rest[k - 1] {
      }
      if FirstMatch(rest, patterns, query).Some? {
        var k :| 0 <= k < |rest| && rest[k] == FirstMatch(rest, patterns, query).value &&
          AnyMatch(patterns(rest[k]), query) && forall j :: 0 <= j < k ==> !AnyMatch(patterns(rest[j]), query);
        assert intents[k + 1] == rest[k];
        forall j | 0 <= j < k + 1 ensures !AnyMatch(patterns(intents[j]), query) {
          if j > 0 { assert intents[j] == rest[j - 1]; }
        }
      }
    }
  }

  /** The position of an intent in `Intents`. */
  function IntentIndex(x: Intent): nat
  {
    match x
    case TotalSpend => 0 case TopServices => 1 case AwsSpend => 2 case AzureSpend => 3
    case GcpSpend => 4 case Savings => 5 case Anomalies => 6 case Budgets => 7
    case Forecast => 8 case Summary => 9 case Greeting => 10
  }

  /** No intent is listed twice. */
  lemma IntentsDistinct(i: nat, k: nat)
    requires i < |Intents| && k < |Intents|
    ensures Intents[i] == Intents[k] <==> i == k
  {
    assert forall j :: 0 <= j < |Intents| ==> IntentIndex(Intents[j]) == j;
  }

  /** Each intent appears once in the list, so the first match names a
      position: intent number k answers exactly when its patterns match and
      no earlier intent's do. */
  lemma SelectedIntent(patterns: Intent -> seq<string -> bool>, query: string, k: nat)
    requires k < |Intents|
    ensures FirstMatch(Intents, patterns, query) == Some(Intents[k]) <==>
      AnyMatch(patterns(Intents[k]), query) && forall j :: 0 <= j < k ==> !AnyMatch(patterns(Intents[j]), query)
  {
    FirstMatchIsFirst(Intents, patterns, query);
    if FirstMatch(Intents, patterns, query).Some? {
      var i :| 0 <= i < |Intents| && Intents[i] == FirstMatch(Intents, patterns, query).value &&
        AnyMatch(patterns(Intents[i]), query) && forall j :: 0 <= j < i ==> !AnyMatch(patterns(Intents[j]), query);
      IntentsDistinct(i, k);
    }
  }

  /** Per-budget label: 'OVER', 'WARNING' or 'OK'. */
  datatype BudgetStatus = StatusOver | StatusWarning | StatusOk

  /** `(spent / limit) * 100 > t` for a threshold t >= 0, with the
      division by a zero limit evaluated as in JavaScript: a positive
      amount gives Infinity (above every threshold), zero gives NaN and a
      negative amount -Infinity (below every threshold). */
  predicate PercentAbove(spent: real, limit: real, t: real)
  {
    if limit != 0.0 then spent / limit * 100.0 > t else spent > 0.0
  }

  /** The status of one budget by its percentage used. */
  function Status(b: Budget): BudgetStatus
  {
    if PercentAbove(b.spent, b.limit, 100.0) then StatusOver
    else if PercentAbove(b.spent, b.limit, 80.0) then StatusWarning
    else StatusOk
  }

  /** `b.spent > b.limit` */
  predicate IsOver(b: Budget)
  {
    b.spent > b.limit
  }

  /** `b.spent / b.limit > 0.8 && b.spent <= b.limit` */
  predicate AtRisk(b: Budget)
  {
    PercentAbove(b.spent, b.limit, 80.0) && b.spent <= b.limit
  }

  /** For a positive or zero limit the label agrees with the two lists: a
      budget is OVER exactly when it is exceeded, and WARNING exactly when
      it is at risk; no budget is both exceeded and at risk. */
  lemma StatusAgrees(b: Budget)
    ensures !(IsOver(b) && AtRisk(b))
    ensures b.limit >= 0.0 ==> (Status(b) == StatusOver <==> IsOver(b))
    ensures b.limit >= 0.0 ==> (Status(b) == StatusWarning <==> AtRisk(b))
  {
    if b.limit > 0.0 {
      var q := b.spent / b.limit;
      assert q * b.limit == b.spent;
      assert q * 100.0 > 100.0 <==> q > 1.0;
      assert q > 1.0 <==> b.spent > b.limit;
    }
  }

  /** What the handlers compute for their templates. `Crash` is the
      TypeError thrown when a handler reads a field of a missing element
      (`providers[0]`, `top5[0]`, `sorted[0]`, `topServices[0]`, or the
      `find(...)!` of a provider that is not listed). */
  datatype Reply =
    | SpendReply(totalSpendMTD: real, forecastedSpend: real, providers: seq<Provider>, leadSpend: real)
    | TopServicesReply(top5: seq<TopService>, spike: Option<TopService>)
    | ProviderReply(provider: Provider, services: seq<TopService>, budget: Option<Budget>, openAnomalies: Option<nat>)
    | SavingsReply(total: real, annual: real, ranked: seq<Recommendation>)
    | AnomalyReply(open: seq<Anomaly>, totalImpact: real, leadImpact: real)
    | BudgetReply(statuses: seq<BudgetStatus>, over: seq<Budget>, atRisk: seq<Budget>)
    | ForecastReply(totalSpendMTD: real, forecastedSpend: real, optimized: real, annual: real, recommendationCount: real)
    | SummaryReply(totalSpendMTD: real, forecastedSpend: real, leadSpend: real, openCount: nat, openImpact: real,
                   overCount: nat, savings: real)
    | GreetingReply
    | FallbackReply(query: string, totalSpendMTD: real, topService: TopService, openCount: nat, savings: real)
    | Crash

  /** The savings handler: total, its annual figure, and the categories by
      savings descending (a stable sort). */
  function SavingsView(recs: seq<Recommendation>): (r: Reply)
    ensures |recs| == 0 <==> r.Crash?
    ensures r.SavingsReply? ==> r.total == Sum(recs, SavingsOf) && r.annual == 12.0 * r.total
    ensures r.SavingsReply? ==> multiset(r.ranked) == multiset(recs) && SortedDesc(r.ranked, SavingsOf)
    ensures r.SavingsReply? ==> Sum(r.ranked, SavingsOf) == r.total
  {
    var total := Sum(recs, SavingsOf);
    var sorted := SortDesc(recs, SavingsOf);
    SortDescSum(recs, SavingsOf, SavingsOf);
    if |sorted| == 0 then Crash else SavingsReply(total, total * 12.0, sorted)
  }

  /** The anomaly handler: only open anomalies are counted and summed;
      the lead impact is the first open one's, or 0. */
  function AnomalyView(anomalies: seq<Anomaly>): (r: Reply)
    ensures r.AnomalyReply?
    ensures r.open == Filter(anomalies, IsOpen)
    ensures forall a :: a in r.open <==> a in anomalies && IsOpen(a)
    ensures forall a :: multiset(r.open)[a] == if IsOpen(a) then multiset(anomalies)[a] else 0
    ensures r.totalImpact == Sum(r.open, Impact)
    ensures r.leadImpact == if |r.open| > 0 then r.open[0].impact else 0.0
  {
    var open := Filter(anomalies, IsOpen);
    FilterMembers(anomalies, IsOpen);
    FilterMultiset(anomalies, IsOpen);
    AnomalyReply(open, Sum(open, Impact), if |open| > 0 then open[0].impact else 0.0)
  }

  /** `Filter` keeps exactly the elements that satisfy the predicate. */
  lemma {:induction false} FilterMembers<T>(s: seq<T>, p: T -> bool)
    ensures forall x :: x in Filter(s, p) <==> x in s && p(x)
  {
    if |s| > 0 {
      var n := |s| - 1;
      FilterMembers(s[..n], p);
      assert s == s[..n] + [s[n]];
    }
  }

  /** The exceeded and the at-risk budgets: each list holds every matching
      budget as often as it occurs and nothing else, and no budget is in both. */
  lemma BudgetLists(budgets: seq<Budget>)
    ensures forall b :: b in Filter(budgets, IsOver) <==> b in budgets && IsOver(b)
    ensures forall b :: b in Filter(budgets, AtRisk) <==> b in budgets && AtRisk(b)
    ensures forall b :: multiset(Filter(budgets, IsOver))[b] == if IsOver(b) then multiset(budgets)[b] else 0
    ensures forall b :: multiset(Filter(budgets, AtRisk))[b] == if AtRisk(b) then multiset(budgets)[b] else 0
    ensures forall i, j :: 0 <= i < |Filter(budgets, IsOver)| && 0 <= j < |Filter(budgets, AtRisk)| ==>
      Filter(budgets, IsOver)[i] != Filter(budgets, AtRisk)[j]
  {
    FilterMembers(budgets, IsOver);
    FilterMembers(budgets, AtRisk);
    FilterMultiset(budgets, IsOver);
    FilterMultiset(budgets, AtRisk);
  }

  /** The budget handler: a label per budget, the exceeded budgets and
      the budgets at risk, the two lists being disjoint. */
  function BudgetView(budgets: seq<Budget>): (r: Reply)
    ensures r.BudgetReply?
    ensures |r.statuses| == |budgets| && forall i :: 0 <= i < |budgets| ==> r.statuses[i] == Status(budgets[i])
    ensures r.over == Filter(budgets, IsOver) && r.atRisk == Filter(budgets, AtRisk)
    ensures forall b :: b in r.over <==> b in budgets && IsOver(b)
    ensures forall b :: b in r.atRisk <==> b in budgets && AtRisk(b)
    ensures forall b :: multiset(r.over)[b] == if IsOver(b) then multiset(budgets)[b] else 0
    ensures forall b :: multiset(r.atRisk)[b] == if AtRisk(b) then multiset(budgets)[b] else 0
    ensures forall i, j :: 0 <= i < |r.over| && 0 <= j < |r.atRisk| ==> r.over[i] != r.atRisk[j]
  {
    BudgetLists(budgets);
    BudgetReply(seq(|budgets|, i requires 0 <= i < |budgets| => Status(budgets[i])),
      Filter(budgets, IsOver), Filter(budgets, AtRisk))
  }

  function ProviderNamed(name: string): Provider -> bool
  {
    (p: Provider) => p.name == name
  }

  function ServiceOf(name: string): TopService -> bool
  {
    (s: TopService) => s.provider == name
  }

  function BudgetOf(name: string): Budget -> bool
  {
    (b: Budget) => b.provider == name
  }

  function OpenAnomalyOf(name: string): Anomaly -> bool
  {
    (a: Anomaly) => a.provider == name && a.status == "open"
  }

  /** The AWS, Azure and GCP handlers: the provider entry (which must be
      listed), its services in input order and its first budget; the AWS
      handler also counts its open anomalies. */
  function ProviderView(d: CostSummary, name: string, countAnomalies: bool): (r: Reply)
    ensures r.Crash? <==> forall i :: 0 <= i < |d.providers| ==> d.providers[i].name != name
    ensures r.ProviderReply? ==> r.provider in d.providers && r.provider.name == name
    ensures r.ProviderReply? ==> r.provider == FindFirst(d.providers, ProviderNamed(name)).value
    ensures r.ProviderReply? ==> r.services == Filter(d.topServices, ServiceOf(name))
    ensures r.ProviderReply? ==> forall s :: s in r.services <==> s in d.topServices && s.provider == name
    ensures r.ProviderReply? ==> r.budget == FindFirst(d.budgets, BudgetOf(name))
    ensures r.ProviderReply? ==> (r.budget.Some? <==> exists b :: b in d.budgets && b.provider == name)
    ensures r.ProviderReply? && r.budget.Some? ==> r.budget.value in d.budgets && r.budget.value.provider == name
    ensures r.ProviderReply? ==> (r.openAnomalies.Some? <==> countAnomalies)
    ensures r.ProviderReply? && countAnomalies ==>
      r.openAnomalies.value == |Filter(d.anomalies, OpenAnomalyOf(name))|
  {
    FilterMembers(d.topServices, ServiceOf(name));
    var budget := FindFirst(d.budgets, BudgetOf(name));
    match FindFirst(d.providers, ProviderNamed(name))
    case None => Crash
    case Some(p) =>
      ProviderReply(p, Filter(d.topServices, ServiceOf(name)), budget,
        if countAnomalies then Some(|Filter(d.anomalies, OpenAnomalyOf(name))|) else None)
  }

  function SpikeOf(s: TopService): bool
  {
    s.change > 10.0
  }

  /** The reply template and its figures for a selected intent. The
      total-spend and summary handlers read `providers[0]` and the
      top-services handler `top5[0]`, so each crashes exactly on an empty
      list; the forecast's optimised spend and the annual figure come from
      the same savings total. */
  function Handle(intent: Intent, d: CostSummary): (r: Reply)
    ensures intent == TotalSpend ==>
      (r.Crash? <==> |d.providers| == 0) &&
      (r.SpendReply? ==>
        && r.totalSpendMTD == d.totalSpendMTD && r.forecastedSpend == d.forecastedSpend
        && r.providers == d.providers && r.leadSpend == d.providers[0].spend)
    ensures intent == TopServices ==>
      (r.Crash? <==> |d.topServices| == 0) &&
      (r.TopServicesReply? ==>
        && r.top5 <= d.topServices && |r.top5| == (if |d.topServices| < 5 then |d.topServices| else 5)
        && (r.spike.None? <==> forall i :: 0 <= i < |r.top5| ==> r.top5[i].change <= 10.0)
        && (r.spike.Some? ==>
              exists i :: 0 <= i < |r.top5| && r.top5[i] == r.spike.value && r.top5[i].change > 10.0
                && forall j :: 0 <= j < i ==> r.top5[j].change <= 10.0))
    ensures intent == Forecast ==>
      r.ForecastReply? && r.totalSpendMTD == d.totalSpendMTD && r.forecastedSpend == d.forecastedSpend &&
      r.annual == 12.0 * Sum(d.recommendations, SavingsOf) && r.optimized + r.annual / 12.0 == d.forecastedSpend &&
      r.recommendationCount == Sum(d.recommendations, RecommendationCount)
    ensures intent == Summary ==>
      (r.Crash? <==> |d.providers| == 0) &&
      (r.SummaryReply? ==>
        && r.totalSpendMTD == d.totalSpendMTD && r.forecastedSpend == d.forecastedSpend
        && r.leadSpend == d.providers[0].spend
        && r.openCount == |Filter(d.anomalies, IsOpen)| && r.openImpact == Sum(Filter(d.anomalies, IsOpen), Impact)
        && r.overCount == |Filter(d.budgets, IsOver)| && r.savings == Sum(d.recommendations, SavingsOf))
    ensures intent == Greeting ==> r.GreetingReply?
  {
    match intent
    case TotalSpend =>
      if |d.providers| == 0 then Crash
      else SpendReply(d.totalSpendMTD, d.forecastedSpend, d.providers, d.providers[0].spend)
    case TopServices =>
      var top5 := Take(d.topServices, 5);
      if |top5| == 0 then Crash else TopServicesReply(top5, FindFirst(top5, SpikeOf))
    case AwsSpend => ProviderView(d, "AWS", true)
    case AzureSpend => ProviderView(d, "Azure", false)
    case GcpSpend => ProviderView(d, "GCP", false)
    case Savings => SavingsView(d.recommendations)
    case Anomalies => AnomalyView(d.anomalies)
    case Budgets => BudgetView(d.budgets)
    case Forecast =>
      var total := Sum(d.recommendations, SavingsOf);
      ForecastReply(d.totalSpendMTD, d.forecastedSpend, d.forecastedSpend - total, total * 12.0,
        Sum(d.recommendations, RecommendationCount))
    case Summary =>
      var open := Filter(d.anomalies, IsOpen);
      if |d.providers| == 0 then Crash
      else SummaryReply(d.totalSpendMTD, d.forecastedSpend, d.providers[0].spend, |open|, Sum(open, Impact),
        |Filter(d.budgets, IsOver)|, Sum(d.recommendations, SavingsOf))
    case Greeting => GreetingReply
  }

  /** The fallback reply when no intent matches. */
  function Fallback(query: string, d: CostSummary): (r: Reply)
    ensures r.Crash? <==> |d.topServices| == 0
    ensures r.FallbackReply? ==> r.query == query && r.topService == d.topServices[0]
    ensures r.FallbackReply? ==>
      r.totalSpendMTD == d.totalSpendMTD && r.openCount == |Filter(d.anomalies, IsOpen)|
      && r.savings == Sum(d.recommendations, SavingsOf)
  {
    if |d.topServices| == 0 then Crash
    else FallbackReply(query, d.totalSpendMTD, d.topServices[0], |Filter(d.anomalies, IsOpen)|,
      Sum(d.recommendations, SavingsOf))
  }

  /** The replies agree with one another: the summary and the fallback
      count the anomalies the anomaly reply lists and quote its impact, the
      summary counts the budgets the budget reply lists as exceeded, and
      the summary, forecast and fallback savings are the savings reply's
      total and annual figure. */
  lemma RepliesAgree(d: CostSummary, query: string)
    ensures var a := AnomalyView(d.anomalies); var s := Handle(Summary, d);
      s.SummaryReply? ==>
        s.openCount == |a.open| && s.openImpact == a.totalImpact && s.overCount == |BudgetView(d.budgets).over|
    ensures var f := Fallback(query, d);
      f.FallbackReply? ==> f.openCount == |AnomalyView(d.anomalies).open|
    ensures var v := SavingsView(d.recommendations);
      v.SavingsReply? ==>
        && Handle(Forecast, d).annual == v.annual
        && (Handle(Summary, d).SummaryReply? ==> Handle(Summary, d).savings == v.total)
        && (Fallback(query, d).FallbackReply? ==> Fallback(query, d).savings == v.total)
  {
  }

  /** No handler produces the fallback reply. */
  lemma HandlersNeverFallBack(intent: Intent, d: CostSummary)
    ensures !Handle(intent, d).FallbackReply?
  {
    match intent
    case AwsSpend =>
    case AzureSpend =>
    case GcpSpend =>
    case Savings =>
    case Anomalies =>
    case Budgets =>
    case _ =>
  }

  /** `generateLocalResponse`: the nested search over intents and their
      patterns returns the first matching intent's reply, or the fallback. */
  method GenerateLocalResponse(query: string, d: CostSummary, patterns: Intent -> seq<string -> bool>) returns (r: Reply)
    ensures FirstMatch(Intents, patterns, query).Some? ==> r == Handle(FirstMatch(Intents, patterns, query).value, d)
    ensures FirstMatch(Intents, patterns, query).None? ==> r == Fallback(query, d)
  {
    var i := 0;
    while i < |Intents|
      invariant 0 <= i <= |Intents|
      invariant FirstMatch(Intents, patterns, query) == FirstMatch(Intents[i..], patterns, query)
    {
      var intent := Intents[i];
      var ps := patterns(intent);
      var j := 0;
      while j < |ps|
        invariant 0 <= j <= |ps|
        invariant forall k :: 0 <= k < j ==> !ps[k](query)
      {
        if ps[j](query) {
          assert AnyMatch(ps, query);
          return Handle(intent, d);
        }
        j := j + 1;
      }
      assert Intents[i..][1..] == Intents[i + 1..];
      i := i + 1;
    }
    r := Fallback(query, d);
  }

  /** The fallback reply is given if and only if no pattern of any intent
      matches the query (when a top service exists to quote). */
  lemma FallbackExactlyWhenNoMatch(query: string, d: CostSummary, patterns: Intent -> seq<string -> bool>)
    requires |d.topServices| > 0
    ensures var r := if FirstMatch(Intents, patterns, query).Some?
                     then Handle(FirstMatch(Intents, patterns, query).value, d) else Fallback(query, d);
      r.FallbackReply? <==> forall k :: 0 <= k < |Intents| ==> !AnyMatch(patterns(Intents[k]), query)
  {
    FirstMatchIsFirst(Intents, patterns, query);
    if FirstMatch(Intents, patterns, query).Some? {
      HandlersNeverFallBack(FirstMatch(Intents, patterns, query).value, d);
    }
  }
}
