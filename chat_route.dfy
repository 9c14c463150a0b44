/** The data side of apps/web/src/app/api/chat/route.ts: the request schema
    and `buildLiveCostSummary`, which derives the chat assistant's cost
    snapshot (categories, recommendations, anomalies, budget, totals) from
    the dashboard payload. The two category regular expressions are
    predicates on the service name, and `render` gives the text of
    `change.toFixed(0)`. */
module ChatRoute {
  import opened Seqs
  import opened CostContext
  import AwsCosts
  import DashboardData
  import LocalEngine

  // ---------------------------------------------------------------------
  // Request schema
  // ---------------------------------------------------------------------

  datatype Role = User | Assistant

  function RoleName(r: Role): string
  {
    match r
    case User => "user"
    case Assistant => "assistant"
  }

  /** `z.enum(['user', 'assistant'])` */
  function ParseRole(s: string): (r: Option<Role>)
    ensures r.Some? <==> s == "user" || s == "assistant"
    ensures r.Some? ==> RoleName(r.value) == s
  {
    if s == "user" then Some(User) else if s == "assistant" then Some(Assistant) else None
  }

  /** A history entry as received: fields that are not strings are None. */
  datatype RawEntry = RawEntry(role: Option<string>, content: Option<string>)

  /** A request body as received; `history` is None when absent. */
  datatype RawRequest = RawRequest(message: Option<string>, history: Option<seq<RawEntry>>)

  datatype Entry = Entry(role: Role, content: string)

  datatype ChatRequest = ChatRequest(message: string, history: seq<Entry>)

  const MaxMessageLength := 1000
  const MaxHistory := 20

  predicate EntryValid(e: RawEntry)
  {
    e.role.Some? && ParseRole(e.role.value).Some? && e.content.Some?
  }

  /** `requestSchema.safeParse(body)`: accepted only when the message has
      1 to 1000 characters and the history, when present, has at most 20
      entries, each with role 'user' or 'assistant' and a content string.
      An absent history is read as an empty one. */
  function ParseRequest(raw: RawRequest): (r: Option<ChatRequest>)
    ensures r.Some? <==>
      raw.message.Some? && 1 <= |raw.message.value| <= MaxMessageLength &&
      (raw.history.Some? ==>
        |raw.history.value| <= MaxHistory && forall i :: 0 <= i < |raw.history.value| ==> EntryValid(raw.history.value[i]))
    ensures r.Some? ==> r.value.message == raw.message.value
    ensures r.Some? && raw.history.Some? ==>
      |r.value.history| == |raw.history.value| &&
      forall i :: 0 <= i < |raw.history.value| ==>
        Some(RoleName(r.value.history[i].role)) == raw.history.value[i].role &&
        Some(r.value.history[i].content) == raw.history.value[i].content
    ensures r.Some? && raw.history.None? ==> r.value.history == []
  {
    if raw.message.None? || !(1 <= |raw.message.value| <= MaxMessageLength) then None
    else if raw.history.None? then Some(ChatRequest(raw.message.value, []))
    else
      var h := raw.history.value;
      if |h| > MaxHistory || !(forall i :: 0 <= i < |h| ==> EntryValid(h[i])) then None
      else Some(ChatRequest(raw.message.value,
        seq(|h|, i requires 0 <= i < |h| && EntryValid(h[i]) => Entry(ParseRole(h[i].role.value).value, h[i].content.value))))
  }

  /** Writing an accepted request back out and parsing it again gives the
      same request. */
  lemma ParseRequestRoundTrip(req: ChatRequest)
    requires 1 <= |req.message| <= MaxMessageLength && |req.history| <= MaxHistory
    ensures var raw := RawRequest(Some(req.message),
        Some(seq(|req.history|, i requires 0 <= i < |req.history| =>
          RawEntry(Some(RoleName(req.history[i].role)), Some(req.history[i].content)))));
      ParseRequest(raw) == Some(req)
  {
    var raw := RawRequest(Some(req.message),
        Some(seq(|req.history|, i requires 0 <= i < |req.history| =>
          RawEntry(Some(RoleName(req.history[i].role)), Some(req.history[i].content)))));
    var r := ParseRequest(raw);
    assert forall i :: 0 <= i < |req.history| ==> EntryValid(raw.history.value[i]);
    assert r.Some?;
    forall i | 0 <= i < |req.history| ensures r.value.history[i] == req.history[i] {
      assert Some(RoleName(r.value.history[i].role)) == Some(RoleName(req.history[i].role));
      assert r.value.history[i].role == req.history[i].role;
    }
    assert r.value.history == req.history;
  }

  // ---------------------------------------------------------------------
  // Categories
  // ---------------------------------------------------------------------

  function ToTopService(s: AwsCosts.ServiceCost): TopService
  {
    TopService(s.name, s.provider, s.cost, s.change)
  }

  function Services(data: DashboardData.DashboardPayload): (r: seq<TopService>)
    ensures |r| == |data.topServices|
    ensures forall i :: 0 <= i < |r| ==> r[i] == ToTopService(data.topServices[i])
  {
    seq(|data.topServices|, i requires 0 <= i < |data.topServices| => ToTopService(data.topServices[i]))
  }

  function Abs(x: real): real
  {
    if x < 0.0 then -x else x
  }

  /** `Math.abs(s.change) < 20 && s.cost > 1` */
  predicate Stable(s: TopService)
  {
    Abs(s.change) < 20.0 && s.cost > 1.0
  }

  /** `s.cost > 0 && s.cost < totalMTD * 0.01` */
  predicate Tiny(s: TopService, totalMTD: real)
  {
    s.cost > 0.0 && s.cost < totalMTD * 0.01
  }

  /** The four service selections; a service may be in several. */
  datatype Categories = Categories(
    compute: seq<TopService>, storage: seq<TopService>, stable: seq<TopService>, tiny: seq<TopService>)

  /** `pattern.test(s.name)` as a test on a service. */
  function NameTest(pattern: string -> bool): TopService -> bool
  {
    (s: TopService) => pattern(s.name)
  }

  function TinyIn(totalMTD: real): TopService -> bool
  {
    (s: TopService) => Tiny(s, totalMTD)
  }

  /** Each category is `services.filter(test)`: the services passing its
      test, in input order, each as often as it is listed. */
  function Categorise(services: seq<TopService>, totalMTD: real, isCompute: string -> bool, isStorage: string -> bool)
    : (c: Categories)
    ensures c.compute == Filter(services, NameTest(isCompute)) && c.storage == Filter(services, NameTest(isStorage))
    ensures c.stable == Filter(services, Stable) && c.tiny == Filter(services, TinyIn(totalMTD))
    ensures forall s :: s in c.compute <==> s in services && isCompute(s.name)
    ensures forall s :: s in c.storage <==> s in services && isStorage(s.name)
    ensures forall s :: s in c.stable <==> s in services && Stable(s)
    ensures forall s :: s in c.tiny <==> s in services && Tiny(s, totalMTD)
  {
    var compute := NameTest(isCompute);
    var storage := NameTest(isStorage);
    var tiny := TinyIn(totalMTD);
    LocalEngine.FilterMembers(services, compute);
    LocalEngine.FilterMembers(services, storage);
    LocalEngine.FilterMembers(services, Stable);
    LocalEngine.FilterMembers(services, tiny);
    Categories(Filter(services, compute), Filter(services, storage), Filter(services, Stable), Filter(services, tiny))
  }

  /** Each category lists a passing service as often as `services` does,
      so its length, the recommendation's `count`, is the number of
      passing entries. */
  lemma CategoryCounts(services: seq<TopService>, totalMTD: real, isCompute: string -> bool, isStorage: string -> bool)
    ensures var c := Categorise(services, totalMTD, isCompute, isStorage);
      && (forall s :: multiset(c.compute)[s] == if isCompute(s.name) then multiset(services)[s] else 0)
      && (forall s :: multiset(c.storage)[s] == if isStorage(s.name) then multiset(services)[s] else 0)
      && (forall s :: multiset(c.stable)[s] == if Stable(s) then multiset(services)[s] else 0)
      && (forall s :: multiset(c.tiny)[s] == if Tiny(s, totalMTD) then multiset(services)[s] else 0)
  {
    FilterMultiset(services, NameTest(isCompute));
    FilterMultiset(services, NameTest(isStorage));
    FilterMultiset(services, Stable);
    FilterMultiset(services, TinyIn(totalMTD));
  }

  // ---------------------------------------------------------------------
  // Recommendations
  // ---------------------------------------------------------------------

  /** One entry of the recommendation literal: the category's size and its
      summed cost times the category's rate. */
  function Candidate(category: string, members: seq<TopService>, rate: real): Recommendation
  {
    Recommendation(category, |members|, Sum(members, ServiceCost) * rate)
  }

  /** `[x].filter((r) => r.count > 0)` for one entry of the literal. */
  function Keep(r: Recommendation): (k: seq<Recommendation>)
    ensures |k| <= 1 && (|k| == 1 <==> r.count > 0) && (|k| == 1 ==> k[0] == r)
  {
    if r.count > 0 then [r] else []
  }

  /** The declaration order of the four categories. */
  function Rank(category: string): nat
  {
    if category == "Rightsizing" then 0
    else if category == "Savings Plans" then 1
    else if category == "Storage Optimization" then 2
    else 3
  }

  function Rightsizing(c: Categories): Recommendation
  {
    Candidate("Rightsizing", c.compute, 0.15)
  }

  function SavingsPlans(c: Categories): Recommendation
  {
    Candidate("Savings Plans", c.stable, 0.30)
  }

  function StorageOptimization(c: Categories): Recommendation
  {
    Candidate("Storage Optimization", c.storage, 0.20)
  }

  function IdleResources(c: Categories): Recommendation
  {
    Candidate("Idle Resources", c.tiny, 0.50)
  }

  /** The four-entry recommendation literal, in declaration order. */
  function Candidates(c: Categories): (r: seq<Recommendation>)
    ensures |r| == 4 && forall i :: 0 <= i < 4 ==> Rank(r[i].category) == i
  {
    [Rightsizing(c), SavingsPlans(c), StorageOptimization(c), IdleResources(c)]
  }

  /** `r.count > 0` */
  predicate HasItems(r: Recommendation)
  {
    r.count > 0
  }

  /** The recommendation list: the literal filtered to the non-empty
      categories, and never re-sorted. */
  function Recommendations(c: Categories): seq<Recommendation>
  {
    Filter(Candidates(c), HasItems)
  }

  /** A category is recommended exactly when it selected some service, and
      the survivors keep the declaration order Rightsizing, Savings Plans,
      Storage Optimization, Idle Resources. */
  lemma RecommendationsShape(c: Categories)
    ensures var r := Recommendations(c);
      && |r| <= 4
      && (forall i :: 0 <= i < |r| ==> r[i].count > 0)
      && (forall i, j :: 0 <= i < j < |r| ==> Rank(r[i].category) < Rank(r[j].category))
      && (Rightsizing(c) in r <==> |c.compute| > 0)
      && (SavingsPlans(c) in r <==> |c.stable| > 0)
      && (StorageOptimization(c) in r <==> |c.storage| > 0)
      && (IdleResources(c) in r <==> |c.tiny| > 0)
      && (forall x :: x in r ==> x in Candidates(c))
  {
    var cands := Candidates(c);
    var r := Recommendations(c);
    var idx := FilterPositions(cands, HasItems);
    LocalEngine.FilterMembers(cands, HasItems);
    assert forall k :: 0 <= k < |r| ==> Rank(r[k].category) == idx[k];
  }

  /** The savings identified add up to the rate-weighted category costs:
      a dropped category is empty and would have contributed nothing. */
  lemma RecommendationSavings(c: Categories)
    ensures Sum(Recommendations(c), SavingsOf) ==
      Sum(c.compute, ServiceCost) * 0.15 + Sum(c.stable, ServiceCost) * 0.30 +
      Sum(c.storage, ServiceCost) * 0.20 + Sum(c.tiny, ServiceCost) * 0.50
  {
    var cands := Candidates(c);
    forall i | 0 <= i < |cands| && !HasItems(cands[i]) ensures SavingsOf(cands[i]) == 0.0 {
      assert i == 0 ==> c.compute == [];
      assert i == 1 ==> c.stable == [];
      assert i == 2 ==> c.storage == [];
      assert i == 3 ==> c.tiny == [];
    }
    SumFilterZero(cands, HasItems, SavingsOf);
    assert cands[..3] == [Rightsizing(c), SavingsPlans(c), StorageOptimization(c)];
    assert cands[..3][..2] == [Rightsizing(c), SavingsPlans(c)];
    assert cands[..3][..2][..1] == [Rightsizing(c)];
    SumSingleton(Rightsizing(c), SavingsOf);
    assert Sum(cands, SavingsOf) == Sum(cands[..3], SavingsOf) + SavingsOf(IdleResources(c));
    assert Sum(cands[..3], SavingsOf) == Sum(cands[..3][..2], SavingsOf) + SavingsOf(StorageOptimization(c));
    assert Sum(cands[..3][..2], SavingsOf) == Sum(cands[..3][..2][..1], SavingsOf) + SavingsOf(SavingsPlans(c));
  }

  /** Dropping elements worth nothing does not change a sum. */
  lemma {:induction false} SumFilterZero<T>(s: seq<T>, p: T -> bool, f: T -> real)
    requires forall i :: 0 <= i < |s| && !p(s[i]) ==> f(s[i]) == 0.0
    ensures Sum(Filter(s, p), f) == Sum(s, f)
  {
    if |s| > 0 {
      var n := |s| - 1;
      SumFilterZero(s[..n], p, f);
      if p(s[n]) {
        SumAppend(Filter(s[..n], p), [s[n]], f);
        SumSingleton(s[n], f);
      } else {
        assert Filter(s, p) == Filter(s[..n], p) + [];
        assert Filter(s, p) == Filter(s[..n], p);
        assert f(s[n]) == 0.0;
      }
    }
  }

  // ---------------------------------------------------------------------
  // Anomalies and budget
  // ---------------------------------------------------------------------

  /** `s.change > 20` */
  predicate Spiking(s: TopService)
  {
    s.change > 20.0
  }

  /** The anomaly derived from a spiking service. */
  function ToAnomaly(s: TopService, render: real -> string): (a: Anomaly)
    ensures a.provider == s.provider && a.service == s.name && IsOpen(a)
    ensures a.impact * 100.0 == s.cost * s.change
  {
    Anomaly(s.name + " cost spike (" + render(s.change) + "% MoM increase)", s.provider, s.name,
      s.cost * (s.change / 100.0), "open")
  }

  function DerivedAnomalies(services: seq<TopService>, render: real -> string): (r: seq<Anomaly>)
    ensures |r| == |Filter(services, Spiking)|
    ensures forall k :: 0 <= k < |r| ==> r[k] == ToAnomaly(Filter(services, Spiking)[k], render)
  {
    var spikes := Filter(services, Spiking);
    seq(|spikes|, k requires 0 <= k < |spikes| => ToAnomaly(spikes[k], render))
  }

  /** The anomalies are exactly the spiking services, in input order: the
      k-th anomaly comes from the service at position idx[k], the positions
      increase, and every spiking service is one of them. Each is open, and
      its impact is positive when the service's cost is. */
  lemma AnomaliesAreSpikes(services: seq<TopService>, render: real -> string) returns (idx: seq<nat>)
    ensures var r := DerivedAnomalies(services, render);
      && |idx| == |r|
      && (forall k :: 0 <= k < |idx| ==>
            (idx[k] < |services| && Spiking(services[idx[k]]) && r[k] == ToAnomaly(services[idx[k]], render)))
      && (forall k, l :: 0 <= k < l < |idx| ==> idx[k] < idx[l])
      && (forall i :: 0 <= i < |services| && Spiking(services[i]) ==> i in idx)
      && (forall k :: 0 <= k < |r| ==> IsOpen(r[k]) && (services[idx[k]].cost > 0.0 ==> r[k].impact > 0.0))
  {
    idx := FilterPositions(services, Spiking);
    var r := DerivedAnomalies(services, render);
    forall k | 0 <= k < |idx| ensures Spiking(services[idx[k]]) {
      assert Filter(services, Spiking)[k] == services[idx[k]];
    }
    forall k | 0 <= k < |r| ensures services[idx[k]].cost > 0.0 ==> r[k].impact > 0.0 {
      var s := services[idx[k]];
      if s.cost > 0.0 {
        SpikeImpactPositive(s, render);
      }
    }
  }

  lemma SpikeImpactPositive(s: TopService, render: real -> string)
    requires Spiking(s) && s.cost > 0.0
    ensures ToAnomaly(s, render).impact > 0.0
  {
    assert s.cost * s.change > 0.0;
  }

  /** Every derived anomaly is open, so the local engine's anomaly reply
      counts all of them, matching `activeAnomalies`. */
  lemma {:induction false} DerivedAnomaliesAllOpen(anomalies: seq<Anomaly>)
    requires forall k :: 0 <= k < |anomalies| ==> IsOpen(anomalies[k])
    ensures Filter(anomalies, IsOpen) == anomalies
  {
    if |anomalies| > 0 {
      var n := |anomalies| - 1;
      DerivedAnomaliesAllOpen(anomalies[..n]);
      assert anomalies == anomalies[..n] + [anomalies[n]];
    }
  }

  /** The single derived budget: 110% of the forecast, spent = MTD. */
  function LiveBudget(forecastedSpend: real, totalMTD: real): Budget
  {
    Budget("AWS Monthly Budget", forecastedSpend * 1.1, totalMTD, "AWS")
  }

  /** With a positive forecast the derived budget reads OVER exactly when
      the month-to-date spend exceeds 110% of the forecast, and is at risk
      exactly when it lies above 88% of the forecast but not above 110%. */
  lemma LiveBudgetStatus(forecastedSpend: real, totalMTD: real)
    requires forecastedSpend > 0.0
    ensures var b := LiveBudget(forecastedSpend, totalMTD);
      && (LocalEngine.Status(b) == LocalEngine.StatusOver <==> totalMTD > forecastedSpend * 1.1)
      && (LocalEngine.AtRisk(b) <==> forecastedSpend * 0.88 < totalMTD <= forecastedSpend * 1.1)
  {
    var b := LiveBudget(forecastedSpend, totalMTD);
    LocalEngine.StatusAgrees(b);
    ShareAbove(totalMTD, forecastedSpend);
  }

  lemma ShareAbove(t: real, f: real)
    requires f > 0.0
    ensures t / (f * 1.1) * 100.0 > 80.0 <==> t > f * 0.88
  {
    var L := f * 1.1;
    assert t / L > 0.8 <==> t > 0.8 * L;
  }

  // ---------------------------------------------------------------------
  // The summary
  // ---------------------------------------------------------------------

  /** `buildLiveCostSummary` over the dashboard payload it awaited. */
  function BuildLiveCostSummary(data: DashboardData.DashboardPayload, isCompute: string -> bool, isStorage: string -> bool,
                                render: real -> string): (d: CostSummary)
    ensures d.totalSpendMTD == data.totalSpendMTD && d.forecastedSpend == data.forecastedSpend
    ensures d.topServices == Services(data)
    ensures d.recommendations == Recommendations(Categorise(Services(data), data.totalSpendMTD, isCompute, isStorage))
    ensures d.savingsIdentified == Sum(d.recommendations, SavingsOf)
    ensures d.anomalies == DerivedAnomalies(Services(data), render) && d.activeAnomalies == |d.anomalies|
    ensures d.budgets == [Budget("AWS Monthly Budget", data.forecastedSpend * 1.1, data.totalSpendMTD, "AWS")]
    ensures d.providers == [Provider("AWS", data.totalSpendMTD, data.changePercentage)]
  {
    var services := Services(data);
    var recommendations := Recommendations(Categorise(services, data.totalSpendMTD, isCompute, isStorage));
    var anomalies := DerivedAnomalies(services, render);
    var budget := LiveBudget(data.forecastedSpend, data.totalSpendMTD);
    assert budget == Budget("AWS Monthly Budget", data.forecastedSpend * 1.1, data.totalSpendMTD, "AWS");
    CostSummary(
      data.totalSpendMTD,
      data.forecastedSpend,
      Sum(recommendations, SavingsOf),
      |anomalies|,
      [Provider("AWS", data.totalSpendMTD, data.changePercentage)],
      services,
      [budget],
      recommendations,
      anomalies)
  }

  /** What the chat engine reads back from a live summary agrees with how
      it was built: every anomaly is open, so the anomaly reply lists them
      all, and the savings reply's total is the savings identified. */
  lemma LiveSummaryConsistent(data: DashboardData.DashboardPayload, isCompute: string -> bool, isStorage: string -> bool,
                              render: real -> string)
    ensures var d := BuildLiveCostSummary(data, isCompute, isStorage, render);
      && LocalEngine.AnomalyView(d.anomalies).open == d.anomalies
      && |LocalEngine.AnomalyView(d.anomalies).open| == d.activeAnomalies
      && (|d.recommendations| > 0 ==> LocalEngine.SavingsView(d.recommendations).total == d.savingsIdentified)
  {
    var d := BuildLiveCostSummary(data, isCompute, isStorage, render);
    DerivedAnomaliesAllOpen(d.anomalies);
  }
}
