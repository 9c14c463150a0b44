/** The deterministic post-processing in apps/web/src/lib/cloud/aws-costs.ts,
    taken over Cost Explorer responses that have already arrived. Each
    response group is read as `Keys?.[0]` and the parsed
    `UnblendedCost.Amount`; the SDK calls and the date arithmetic are inputs. */
module AwsCosts {
  import opened Seqs
  import opened Strings
  import opened Ranking
  import opened Records

  /** One entry of `ResultsByTime[0].Groups`: its first key, if any, and
      `parseFloat(Amount || '0')`. */
  datatype CostGroup = CostGroup(key: Option<string>, amount: real)

  /** `group.Keys?.[0] || ''` */
  function GroupKey(g: CostGroup): string
  {
    Or(g.key, "")
  }

  function Amount(g: CostGroup): real
  {
    g.amount
  }

  // ---------------------------------------------------------------------
  // Previous-period lookup and month-over-month change
  // ---------------------------------------------------------------------

  predicate EveryGroup(g: CostGroup)
  {
    true
  }

  /** `previousCosts` once the lookup loop has visited `groups`: every
      group's key is assigned its amount, a later duplicate overwriting. */
  function PreviousLookup(groups: seq<CostGroup>): map<string, real>
  {
    Assign(groups, EveryGroup, GroupKey, Amount)
  }

  /** The lookup has a key for every group and for nothing else, and a key
      holds the amount of the last group carrying it. */
  lemma PreviousLookupContents(groups: seq<CostGroup>, i: nat)
    requires i < |groups|
    requires forall j :: i < j < |groups| ==> GroupKey(groups[j]) != GroupKey(groups[i])
    ensures forall k :: k in PreviousLookup(groups) <==> exists j :: 0 <= j < |groups| && GroupKey(groups[j]) == k
    ensures PreviousLookup(groups)[GroupKey(groups[i])] == groups[i].amount
  {
    AssignKeys(groups, EveryGroup, GroupKey, Amount);
    AssignLast(groups, EveryGroup, GroupKey, Amount, i);
  }

  /** The lookup loop of `getTopServicesCurrent` and `getDataTransferCosts`. */
  method BuildPreviousLookup(groups: seq<CostGroup>) returns (m: map<string, real>)
    ensures m == PreviousLookup(groups)
  {
    m := map[];
    var i := 0;
    while i < |groups|
      invariant 0 <= i <= |groups|
      invariant m == PreviousLookup(groups[..i])
    {
      assert groups[..i + 1][..i] == groups[..i];
      m := m[GroupKey(groups[i]) := groups[i].amount];
      i := i + 1;
    }
    assert groups[..|groups|] == groups;
  }

  /** `previousCosts[name] || 0` */
  function PrevCost(lookup: map<string, real>, k: string): real
  {
    if k in lookup then lookup[k] else 0.0
  }

  /** `prev > 0 ? ((cost - prev) / prev) * 100 : 0`: the change in percent,
      which applied to `prev` gives back `cost`; 0 when there is no positive
      previous value to divide by. */
  function MomChange(cost: real, prev: real): (r: real)
    ensures prev > 0.0 ==> prev + prev * r / 100.0 == cost
    ensures prev > 0.0 ==> (r > 0.0 <==> cost > prev) && (r == 0.0 <==> cost == prev)
    ensures prev <= 0.0 ==> r == 0.0
  {
    if prev > 0.0 then (cost - prev) / prev * 100.0 else 0.0
  }

  // ---------------------------------------------------------------------
  // Rows with change: top services and data transfer
  // ---------------------------------------------------------------------

  /** Rows below one cent are skipped. */
  const MinCost: real := 0.01

  /** A current-period group that the second loop keeps, with its change.
      For `getDataTransferCosts` this is the `DataTransferCost` record,
      `key` being its `category`. */
  datatype CostRow = CostRow(key: string, cost: real, change: real)

  type DataTransferCost = CostRow

  function RowCost(r: CostRow): real
  {
    r.cost
  }

  predicate Kept(g: CostGroup)
  {
    !(g.amount < MinCost)
  }

  function ToRow(g: CostGroup, lookup: map<string, real>): CostRow
  {
    CostRow(GroupKey(g), g.amount, MomChange(g.amount, PrevCost(lookup, GroupKey(g))))
  }

  /** The rows the second loop pushes, in group order. */
  function PricedRows(current: seq<CostGroup>, lookup: map<string, real>): (r: seq<CostRow>)
    ensures |r| <= |current|
    ensures forall i :: 0 <= i < |r| ==>
      r[i].cost >= MinCost && r[i].change == MomChange(r[i].cost, PrevCost(lookup, r[i].key))
  {
    if |current| == 0 then []
    else
      var n := |current| - 1;
      var rest := PricedRows(current[..n], lookup);
      if Kept(current[n]) then rest + [ToRow(current[n], lookup)] else rest
  }

  /** The rows are exactly the kept groups, in order, each priced. */
  lemma {:induction false} PricedRowsAreKeptGroups(current: seq<CostGroup>, lookup: map<string, real>)
    ensures var kept := Filter(current, Kept);
      |PricedRows(current, lookup)| == |kept| &&
      forall i :: 0 <= i < |kept| ==> PricedRows(current, lookup)[i] == ToRow(kept[i], lookup)
  {
    if |current| > 0 {
      PricedRowsAreKeptGroups(current[..|current| - 1], lookup);
    }
  }

  /** Both loops of `getTopServicesCurrent` / `getDataTransferCosts`. */
  method ComputeRows(previous: seq<CostGroup>, current: seq<CostGroup>) returns (rows: seq<CostRow>)
    ensures rows == PricedRows(current, PreviousLookup(previous))
  {
    var lookup := BuildPreviousLookup(previous);
    rows := [];
    var i := 0;
    while i < |current|
      invariant 0 <= i <= |current|
      invariant rows == PricedRows(current[..i], lookup)
    {
      assert current[..i + 1][..i] == current[..i];
      var g := current[i];
      if !(g.amount < MinCost) {
        var name := GroupKey(g);
        var prev := PrevCost(lookup, name);
        rows := rows + [CostRow(name, g.amount, MomChange(g.amount, prev))];
      }
      i := i + 1;
    }
    assert current[..|current|] == current;
  }

  /** `ServiceCost` of aws-costs.ts. */
  datatype ServiceCost = ServiceCost(name: string, provider: string, cost: real, change: real)

  function ServiceCostOf(s: ServiceCost): real
  {
    s.cost
  }

  function Services(rows: seq<CostRow>): (r: seq<ServiceCost>)
    ensures |r| == |rows|
    ensures forall i :: 0 <= i < |r| ==>
      r[i].name == rows[i].key && r[i].provider == "AWS" && r[i].cost == rows[i].cost && r[i].change == rows[i].change
  {
    seq(|rows|, i requires 0 <= i < |rows| => ServiceCost(rows[i].key, "AWS", rows[i].cost, rows[i].change))
  }

  const TopServicesLimit: nat := 10

  /** `getTopServicesCurrent` after both responses arrived: the ten most
      expensive services of at least one cent, in descending cost order. */
  method GetTopServicesCurrent(previous: seq<CostGroup>, current: seq<CostGroup>) returns (top: seq<ServiceCost>)
    ensures top == TopN(Services(PricedRows(current, PreviousLookup(previous))), ServiceCostOf, TopServicesLimit)
    ensures |top| <= TopServicesLimit
    ensures SortedDesc(top, ServiceCostOf)
    ensures forall i :: 0 <= i < |top| ==>
      top[i].cost >= MinCost && top[i].provider == "AWS" &&
      top[i].change == MomChange(top[i].cost, PrevCost(PreviousLookup(previous), top[i].name))
  {
    var rows := ComputeRows(previous, current);
    var services := Services(rows);
    top := TopN(services, ServiceCostOf, TopServicesLimit);
    forall i | 0 <= i < |top|
      ensures top[i].cost >= MinCost && top[i].provider == "AWS"
      ensures top[i].change == MomChange(top[i].cost, PrevCost(PreviousLookup(previous), top[i].name))
    {
      assert top[i] in multiset(services);
      var j :| 0 <= j < |services| && services[j] == top[i];
    }
  }

  /** `getDataTransferCosts` after both responses arrived: every category of
      at least one cent, sorted by cost descending, nothing dropped. */
  method GetDataTransferCosts(previous: seq<CostGroup>, current: seq<CostGroup>) returns (r: seq<DataTransferCost>)
    ensures r == SortDesc(PricedRows(current, PreviousLookup(previous)), RowCost)
    ensures multiset(r) == multiset(PricedRows(current, PreviousLookup(previous)))
    ensures SortedDesc(r, RowCost)
    ensures forall i :: 0 <= i < |r| ==> r[i].cost >= MinCost
  {
    var rows := ComputeRows(previous, current);
    r := SortDesc(rows, RowCost);
    forall i | 0 <= i < |r| ensures r[i].cost >= MinCost {
      assert r[i] in multiset(rows);
    }
  }

  // ---------------------------------------------------------------------
  // Commitment coverage
  // ---------------------------------------------------------------------

  datatype CommitmentCoverage = CommitmentCoverage(
    savingsPlansCoveragePercent: real,
    savingsPlansUtilizationPercent: real,
    totalOnDemandCost: real,
    totalCommittedCost: real,
    estimatedSavingsFromCommitments: real)

  /** What the `catch` returns. */
  const NoCoverage := CommitmentCoverage(0.0, 0.0, 0.0, 0.0, 0.0)

  /** `purchaseType.includes('On Demand') || purchaseType === ''` */
  predicate IsOnDemand(g: CostGroup)
  {
    Contains(GroupKey(g), "On Demand") || GroupKey(g) == ""
  }

  predicate IsCommitted(g: CostGroup)
  {
    !IsOnDemand(g)
  }

  /** The summed amount of the groups on one side of the split. */
  function PurchaseTotal(groups: seq<CostGroup>, onDemand: bool): real
  {
    if |groups| == 0 then 0.0
    else
      var g := groups[|groups| - 1];
      PurchaseTotal(groups[..|groups| - 1], onDemand) + (if IsOnDemand(g) == onDemand then g.amount else 0.0)
  }

  /** The on-demand side is the sum over the groups the split sends there. */
  lemma {:induction false} OnDemandIsFilteredSum(groups: seq<CostGroup>)
    ensures PurchaseTotal(groups, true) == Sum(Filter(groups, IsOnDemand), Amount)
  {
    if |groups| > 0 {
      var n := |groups| - 1;
      OnDemandIsFilteredSum(groups[..n]);
      var kept := Filter(groups[..n], IsOnDemand);
      if IsOnDemand(groups[n]) {
        SumAppend(kept, [groups[n]], Amount);
        SumSingleton(groups[n], Amount);
      } else {
        assert kept + [] == kept;
      }
    }
  }

  /** So is the committed side. */
  lemma {:induction false} CommittedIsFilteredSum(groups: seq<CostGroup>)
    ensures PurchaseTotal(groups, false) == Sum(Filter(groups, IsCommitted), Amount)
  {
    if |groups| > 0 {
      var n := |groups| - 1;
      CommittedIsFilteredSum(groups[..n]);
      var kept := Filter(groups[..n], IsCommitted);
      if IsCommitted(groups[n]) {
        SumAppend(kept, [groups[n]], Amount);
        SumSingleton(groups[n], Amount);
      } else {
        assert kept + [] == kept;
      }
    }
  }

  /** Every group is on-demand or committed, never both: the two sides add
      up to the total. */
  lemma {:induction false} CommitmentPartition(groups: seq<CostGroup>)
    ensures PurchaseTotal(groups, true) + PurchaseTotal(groups, false) == Sum(groups, Amount)
  {
    if |groups| > 0 {
      CommitmentPartition(groups[..|groups| - 1]);
    }
  }

  /** A share of a positive total, in percent, lies in [0, 100]. */
  lemma PercentShare(part: real, total: real)
    ensures 0.0 <= part <= total && total > 0.0 ==> 0.0 <= part / total * 100.0 <= 100.0
  {
    if 0.0 <= part <= total && total > 0.0 {
      assert part / total * total == part;
    }
  }

  /** The record built from the two sums. Utilisation is the constant 85
      whenever anything is committed; savings are a quarter of the
      committed cost. */
  function Coverage(onDemand: real, committed: real): (c: CommitmentCoverage)
    ensures c.totalOnDemandCost == onDemand && c.totalCommittedCost == committed
    ensures onDemand + committed > 0.0 ==> c.savingsPlansCoveragePercent * (onDemand + committed) == committed * 100.0
    ensures onDemand + committed <= 0.0 ==> c.savingsPlansCoveragePercent == 0.0
    ensures onDemand >= 0.0 && committed >= 0.0 ==> 0.0 <= c.savingsPlansCoveragePercent <= 100.0
    ensures c.savingsPlansUtilizationPercent == 85.0 <==> committed > 0.0
    ensures c.savingsPlansUtilizationPercent != 85.0 ==> c.savingsPlansUtilizationPercent == 0.0
    ensures committed > 0.0 ==> c.estimatedSavingsFromCommitments * 4.0 == committed
    ensures committed <= 0.0 ==> c.estimatedSavingsFromCommitments == 0.0
  {
    var total := onDemand + committed;
    PercentShare(committed, total);
    CommitmentCoverage(
      if total > 0.0 then committed / total * 100.0 else 0.0,
      if committed > 0.0 then 85.0 else 0.0,
      onDemand,
      committed,
      if committed > 0.0 then committed * 0.25 else 0.0)
  }

  /** The loop of `getCommitmentCoverage`: the on-demand and committed sums. */
  method SplitByPurchaseType(groups: seq<CostGroup>) returns (onDemandCost: real, committedCost: real)
    ensures onDemandCost == PurchaseTotal(groups, true)
    ensures committedCost == PurchaseTotal(groups, false)
  {
    onDemandCost := 0.0;
    committedCost := 0.0;
    var i := 0;
    while i < |groups|
      invariant 0 <= i <= |groups|
      invariant onDemandCost == PurchaseTotal(groups[..i], true)
      invariant committedCost == PurchaseTotal(groups[..i], false)
    {
      assert groups[..i + 1][..i] == groups[..i];
      var purchaseType := GroupKey(groups[i]);
      if Contains(purchaseType, "On Demand") || purchaseType == "" {
        onDemandCost := onDemandCost + groups[i].amount;
      } else {
        committedCost := committedCost + groups[i].amount;
      }
      i := i + 1;
    }
    assert groups[..|groups|] == groups;
  }

  /** `getCommitmentCoverage` given the settled response. */
  method GetCommitmentCoverage(response: Outcome<seq<CostGroup>>) returns (c: CommitmentCoverage)
    ensures response.Thrown? ==> c == NoCoverage
    ensures response.Ok? ==>
      && c.totalOnDemandCost == Sum(Filter(response.value, IsOnDemand), Amount)
      && c.totalCommittedCost == Sum(Filter(response.value, IsCommitted), Amount)
      && c.totalOnDemandCost + c.totalCommittedCost == Sum(response.value, Amount)
      && c == Coverage(c.totalOnDemandCost, c.totalCommittedCost)
  {
    match response {
      case Thrown(_) =>
        c := NoCoverage;
      case Ok(groups) =>
        var onDemandCost, committedCost := SplitByPurchaseType(groups);
        CommitmentPartition(groups);
        OnDemandIsFilteredSum(groups);
        CommittedIsFilteredSum(groups);
        c := Coverage(onDemandCost, committedCost);
    }
  }

  // ---------------------------------------------------------------------
  // Rightsizing recommendations
  // ---------------------------------------------------------------------

  /** One of `ModifyRecommendationDetail.TargetInstances`: its instance type
      and its parsed `EstimatedMonthlySavings`, if present. */
  datatype TargetInstance = TargetInstance(instanceType: Option<string>, savings: Option<real>)

  /** A rightsizing recommendation as the SDK returns it; `targets` is empty
      when there is no modify detail. */
  datatype RawRightsizing = RawRightsizing(
    resourceId: Option<string>,
    instanceType: Option<string>,
    rightsizingType: Option<string>,
    targets: seq<TargetInstance>,
    terminateSavings: Option<real>)

  datatype RightsizingRecommendation = RightsizingRecommendation(
    instanceId: string,
    instanceType: string,
    action: string,
    targetInstanceType: string,
    estimatedMonthlySavings: real)

  /** `parseFloat(x || '0')` on an amount that is present or not. */
  function OrZero(x: Option<real>): real
  {
    if x.Some? then x.value else 0.0
  }

  /** The savings of the first target, falling back (`||`) to the terminate
      savings when that is 0 or absent. */
  function RightsizingSavings(rec: RawRightsizing): real
  {
    var modifySavings := if |rec.targets| > 0 then OrZero(rec.targets[0].savings) else 0.0;
    if modifySavings != 0.0 then modifySavings else OrZero(rec.terminateSavings)
  }

  /** The callback of `getCERightsizingRecommendations`. */
  function MapRightsizing(rec: RawRightsizing): (r: RightsizingRecommendation)
    ensures r.instanceId == Or(rec.resourceId, "") && r.instanceType == Or(rec.instanceType, "")
    ensures r.action == Or(rec.rightsizingType, "")
    ensures r.targetInstanceType != "N/A" ==>
      r.action != "TERMINATE" && |rec.targets| > 0 && rec.targets[0].instanceType == Some(r.targetInstanceType)
    ensures r.action == "TERMINATE" || |rec.targets| == 0 ==> r.targetInstanceType == "N/A"
    ensures r.action != "TERMINATE" && |rec.targets| > 0 ==> r.targetInstanceType == Or(rec.targets[0].instanceType, "N/A")
    ensures |rec.targets| > 0 && rec.targets[0].savings.Some? && rec.targets[0].savings.value != 0.0 ==>
      r.estimatedMonthlySavings == rec.targets[0].savings.value
    ensures (|rec.targets| == 0 || OrZero(rec.targets[0].savings) == 0.0) ==>
      r.estimatedMonthlySavings == OrZero(rec.terminateSavings)
  {
    var action := Or(rec.rightsizingType, "");
    var target := if action != "TERMINATE" && |rec.targets| > 0 then Or(rec.targets[0].instanceType, "N/A") else "N/A";
    RightsizingRecommendation(Or(rec.resourceId, ""), Or(rec.instanceType, ""), action, target, RightsizingSavings(rec))
  }

  /** `getCERightsizingRecommendations` given the settled response: one
      recommendation per raw one, in order, and none when the call threw. */
  function GetCERightsizingRecommendations(response: Outcome<seq<RawRightsizing>>): (r: seq<RightsizingRecommendation>)
    ensures response.Thrown? ==> r == []
    ensures response.Ok? ==>
      |r| == |response.value| && (forall i :: 0 <= i < |r| ==> r[i] == MapRightsizing(response.value[i]))
  {
    match response
    case Thrown(_) => []
    case Ok(recs) => seq(|recs|, i requires 0 <= i < |recs| => MapRightsizing(recs[i]))
  }

  // ---------------------------------------------------------------------
  // Native anomalies
  // ---------------------------------------------------------------------

  datatype RawMonitor = RawMonitor(arn: Option<string>, name: Option<string>, monitorType: Option<string>)

  datatype Monitor = Monitor(monitorArn: string, monitorName: string, monitorType: string)

  datatype RawRootCause = RawRootCause(service: Option<string>, region: Option<string>, usageType: Option<string>)

  datatype RootCause = RootCause(service: string, region: string, usageType: string)

  /** `a.Impact`; an absent impact has every figure absent. */
  datatype RawImpact = RawImpact(
    maxImpact: Option<real>, totalImpact: Option<real>,
    totalActualSpend: Option<real>, totalExpectedSpend: Option<real>)

  datatype Impact = Impact(maxImpact: real, totalImpact: real, totalActualSpend: real, totalExpectedSpend: real)

  datatype RawAnomaly = RawAnomaly(
    anomalyId: Option<string>, startDate: Option<string>, endDate: Option<string>,
    dimensionValue: Option<string>, rootCauses: seq<RawRootCause>, impact: RawImpact,
    feedback: Option<string>)

  datatype AwsAnomaly = AwsAnomaly(
    anomalyId: string, startDate: string, endDate: string, dimensionValue: string,
    rootCauses: seq<RootCause>, impact: Impact, feedback: string)

  datatype AnomalyStatus = Active | NoMonitors | Error

  datatype NativeAnomalySummary = NativeAnomalySummary(
    anomalies: seq<AwsAnomaly>,
    monitors: seq<Monitor>,
    totalImpact: real,
    activeAnomalies: nat,
    status: AnomalyStatus,
    errorMessage: Option<string>)

  function MapMonitor(m: RawMonitor): Monitor
  {
    Monitor(Or(m.arn, ""), Or(m.name, ""), Or(m.monitorType, ""))
  }

  function MapRootCause(rc: RawRootCause): RootCause
  {
    RootCause(Or(rc.service, ""), Or(rc.region, ""), Or(rc.usageType, ""))
  }

  function MapAnomaly(a: RawAnomaly): AwsAnomaly
  {
    AwsAnomaly(
      Or(a.anomalyId, ""), Or(a.startDate, ""), Or(a.endDate, ""), Or(a.dimensionValue, ""),
      seq(|a.rootCauses|, i requires 0 <= i < |a.rootCauses| => MapRootCause(a.rootCauses[i])),
      Impact(OrZero(a.impact.maxImpact), OrZero(a.impact.totalImpact),
             OrZero(a.impact.totalActualSpend), OrZero(a.impact.totalExpectedSpend)),
      Or(a.feedback, ""))
  }

  function AnomalyImpact(a: AwsAnomaly): real
  {
    a.impact.totalImpact
  }

  predicate HasImpact(a: AwsAnomaly)
  {
    a.impact.totalImpact != 0.0
  }

  /** `error instanceof Error ? error.message : 'Unknown error'` */
  function ErrorText(message: Option<string>): string
  {
    if message.Some? then message.value else "Unknown error"
  }

  function ErrorSummary(message: Option<string>): NativeAnomalySummary
  {
    NativeAnomalySummary([], [], 0.0, 0, Error, Some(ErrorText(message)))
  }

  /** The mapped monitors, one per monitor received, in order. */
  function Monitors(raw: seq<RawMonitor>): (r: seq<Monitor>)
    ensures |r| == |raw| && forall i :: 0 <= i < |raw| ==> r[i] == MapMonitor(raw[i])
  {
    seq(|raw|, i requires 0 <= i < |raw| => MapMonitor(raw[i]))
  }

  /** The anomalies with a non-zero impact, by impact descending. */
  function ImpactfulAnomalies(raw: seq<RawAnomaly>): (r: seq<AwsAnomaly>)
    ensures multiset(r) == multiset(Filter(seq(|raw|, i requires 0 <= i < |raw| => MapAnomaly(raw[i])), HasImpact))
    ensures forall i :: 0 <= i < |r| ==> r[i].impact.totalImpact != 0.0
    ensures SortedDesc(r, AnomalyImpact)
  {
    var all := seq(|raw|, i requires 0 <= i < |raw| => MapAnomaly(raw[i]));
    var kept := Filter(all, HasImpact);
    var sorted := SortDesc(kept, AnomalyImpact);
    assert forall i :: 0 <= i < |sorted| ==> sorted[i].impact.totalImpact != 0.0 by {
      forall i | 0 <= i < |sorted| ensures sorted[i].impact.totalImpact != 0.0 {
        assert sorted[i] in multiset(kept);
        assert HasImpact(sorted[i]);
      }
    }
    sorted
  }

  /** `getNativeAnomalies` given the settled monitor and anomaly responses;
      the anomaly request is only made when there is a monitor. */
  function GetNativeAnomalies(monitors: Outcome<seq<RawMonitor>>, anomalies: Outcome<seq<RawAnomaly>>): (r: NativeAnomalySummary)
    ensures monitors.Thrown? ==> r == ErrorSummary(monitors.message)
    ensures monitors.Ok? && |monitors.value| == 0 ==>
      r.status == NoMonitors && r.anomalies == [] && r.monitors == [] &&
      r.totalImpact == 0.0 && r.activeAnomalies == 0 && r.errorMessage.None?
    ensures monitors.Ok? && |monitors.value| > 0 && anomalies.Thrown? ==> r == ErrorSummary(anomalies.message)
    ensures r.status == Active <==> monitors.Ok? && |monitors.value| > 0 && anomalies.Ok?
    ensures r.status == Error <==> r.errorMessage.Some?
    ensures r.status == Active ==>
      && |r.monitors| == |monitors.value|
      && (forall i :: 0 <= i < |r.monitors| ==> r.monitors[i] == MapMonitor(monitors.value[i]))
      && multiset(r.anomalies) == multiset(Filter(seq(|anomalies.value|, i requires 0 <= i < |anomalies.value| => MapAnomaly(anomalies.value[i])), HasImpact))
      && (forall i :: 0 <= i < |r.anomalies| ==> r.anomalies[i].impact.totalImpact != 0.0)
      && SortedDesc(r.anomalies, AnomalyImpact)
      && r.activeAnomalies == |r.anomalies|
      && r.totalImpact == Sum(r.anomalies, AnomalyImpact)
  {
    match monitors
    case Thrown(m) => ErrorSummary(m)
    case Ok(raw) =>
      var mapped := Monitors(raw);
      if |mapped| == 0 then NativeAnomalySummary([], [], 0.0, 0, NoMonitors, None)
      else match anomalies
        case Thrown(m) => ErrorSummary(m)
        case Ok(rawAnomalies) =>
          var sorted := ImpactfulAnomalies(rawAnomalies);
          NativeAnomalySummary(sorted, mapped, Sum(sorted, AnomalyImpact), |sorted|, Active, None)
  }

  /** The impact total does not depend on the order: it is the sum over the
      anomalies with non-zero impact as they arrived. */
  lemma NativeAnomaliesTotal(monitors: Outcome<seq<RawMonitor>>, anomalies: seq<RawAnomaly>)
    requires monitors.Ok? && |monitors.value| > 0
    ensures GetNativeAnomalies(monitors, Ok(anomalies)).totalImpact ==
      Sum(Filter(seq(|anomalies|, i requires 0 <= i < |anomalies| => MapAnomaly(anomalies[i])), HasImpact), AnomalyImpact)
  {
    var all := seq(|anomalies|, i requires 0 <= i < |anomalies| => MapAnomaly(anomalies[i]));
    SortDescSum(Filter(all, HasImpact), AnomalyImpact, AnomalyImpact);
  }

  // ---------------------------------------------------------------------
  // Dashboard figures
  // ---------------------------------------------------------------------

  datatype MonthlyCost = MonthlyCost(month: string, cost: real)

  datatype DashboardData = DashboardData(
    totalSpendMTD: real,
    previousMonthTotal: real,
    changePercentage: real,
    forecastedSpend: real,
    monthlyCosts: seq<MonthlyCost>,
    topServices: seq<ServiceCost>,
    accountId: string,
    currency: string)

  /** The trend ends at the start of the current month, so its last entry is
      the previous month; with fewer than two entries it is taken as 0. */
  function PreviousMonthTotal(trend: seq<MonthlyCost>): real
  {
    if |trend| >= 2 then trend[|trend| - 1].cost else 0.0
  }

  /** `fetchAwsDashboardData` once its requests have settled: `accountId`
      from the credential check, the 13-month trend, the top services, the
      Cost Explorer forecast, the month-to-date total and the day of the
      month. */
  function AssembleDashboard(
    accountId: Option<string>, trend: seq<MonthlyCost>, topServices: seq<ServiceCost>,
    forecast: real, totalSpendMTD: real, dayOfMonth: int): (d: DashboardData)
    requires 1 <= dayOfMonth <= 31
    ensures d.totalSpendMTD == totalSpendMTD && d.monthlyCosts == trend && d.topServices == topServices
    ensures d.previousMonthTotal == PreviousMonthTotal(trend)
    ensures d.changePercentage == MomChange(totalSpendMTD, d.previousMonthTotal)
    ensures forecast > 0.0 ==> d.forecastedSpend == totalSpendMTD + forecast
    ensures forecast <= 0.0 ==> d.forecastedSpend * (dayOfMonth as real) == totalSpendMTD * 30.0
    ensures d.accountId == Or(accountId, "unknown") && d.currency == "USD"
  {
    var previous := PreviousMonthTotal(trend);
    DashboardData(
      totalSpendMTD,
      previous,
      MomChange(totalSpendMTD, previous),
      if forecast > 0.0 then totalSpendMTD + forecast else totalSpendMTD * (30.0 / dayOfMonth as real),
      trend,
      topServices,
      Or(accountId, "unknown"),
      "USD")
  }

  /** The forecast is never below the month-to-date spend, except when the
      linear extrapolation over 30 days runs on the 31st. */
  lemma ForecastCoversSpend(
    accountId: Option<string>, trend: seq<MonthlyCost>, topServices: seq<ServiceCost>,
    forecast: real, totalSpendMTD: real, dayOfMonth: int)
    requires 1 <= dayOfMonth <= 31 && totalSpendMTD >= 0.0
    ensures forecast > 0.0 || dayOfMonth <= 30 ==>
      AssembleDashboard(accountId, trend, topServices, forecast, totalSpendMTD, dayOfMonth).forecastedSpend >= totalSpendMTD
    ensures forecast <= 0.0 && dayOfMonth == 31 && totalSpendMTD > 0.0 ==>
      AssembleDashboard(accountId, trend, topServices, forecast, totalSpendMTD, dayOfMonth).forecastedSpend < totalSpendMTD
  {
    if forecast <= 0.0 {
      var d := AssembleDashboard(accountId, trend, topServices, forecast, totalSpendMTD, dayOfMonth);
      assert d.forecastedSpend == totalSpendMTD * (30.0 / dayOfMonth as real);
      if dayOfMonth <= 30 {
        ScaleAtLeast(totalSpendMTD, dayOfMonth as real);
      } else if totalSpendMTD > 0.0 {
        ScaleBelow(totalSpendMTD);
      }
    }
  }

  /** Extrapolating to 30 days on day k <= 30 never lowers the spend. */
  lemma ScaleAtLeast(m: real, k: real)
    requires 0.0 < k <= 30.0 && m >= 0.0
    ensures m * (30.0 / k) >= m
  {
    var q := 30.0 / k;
    assert q * k == 30.0;
    assert q >= 1.0;
    assert m * q >= m * 1.0;
  }

  /** On the 31st the extrapolation falls below a positive spend. */
  lemma ScaleBelow(m: real)
    requires m > 0.0
    ensures m * (30.0 / 31.0) < m
  {
  }
}
