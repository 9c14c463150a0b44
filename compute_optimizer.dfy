/** apps/web/src/lib/cloud/aws-compute-optimizer.ts: normalisation of the
    four Compute Optimizer recommendation lists, their aggregation per
    resource type, the classification of a run in which every request
    failed, and the module-level four-hour cache. The four requests'
    settled results and the clock are inputs. */
module ComputeOptimizer {
  import opened Seqs
  import opened Strings
  import opened Ranking
  import opened Tally

  datatype ResourceType = EC2 | AutoScaling | Lambda | EBS

  function TypeName(t: ResourceType): string
  {
    match t
    case EC2 => "EC2"
    case AutoScaling => "AutoScaling"
    case Lambda => "Lambda"
    case EBS => "EBS"
  }

  datatype Risk = VeryLow | Low | Medium | High

  /** `OptimizationRecommendation` */
  datatype Recommendation = Recommendation(
    resourceId: string,
    resourceType: ResourceType,
    finding: string,
    currentConfig: string,
    recommendedConfig: string,
    estimatedMonthlySavings: real,
    estimatedSavingsPercentage: real,
    risk: Risk,
    region: string)

  function Savings(r: Recommendation): real
  {
    r.estimatedMonthlySavings
  }

  function TypeKey(r: Recommendation): string
  {
    TypeName(r.resourceType)
  }

  // ---------------------------------------------------------------------
  // Helpers
  // ---------------------------------------------------------------------

  /** The two places a recommendation option may carry its savings:
      `estimatedMonthlySavings.value` and
      `savingsOpportunity.estimatedMonthlySavings.value`. */
  datatype SavingsFields = SavingsFields(direct: Option<real>, opportunity: Option<real>)

  /** `extractSavings(option)`: `??` falls through only on a missing value,
      so a present 0 is kept. */
  function ExtractSavings(option: Option<SavingsFields>): (r: real)
    ensures option.Some? && option.value.direct.Some? ==> r == option.value.direct.value
    ensures option.Some? && option.value.direct.None? && option.value.opportunity.Some? ==>
      r == option.value.opportunity.value
    ensures option.None? || (option.value.direct.None? && option.value.opportunity.None?) ==> r == 0.0
  {
    match option
    case None => 0.0
    case Some(o) =>
      if o.direct.Some? then o.direct.value
      else if o.opportunity.Some? then o.opportunity.value
      else 0.0
  }

  /** `mapRisk(effort)`: the four known levels map to themselves, anything
      else (including no value) to `Low`. */
  function MapRisk(effort: Option<string>): (r: Risk)
    ensures effort == Some("VeryLow") <==> r == VeryLow
    ensures effort == Some("Medium") <==> r == Medium
    ensures effort == Some("High") <==> r == High
    ensures r == Low <==> effort !in {Some("VeryLow"), Some("Medium"), Some("High")}
  {
    if effort == Some("VeryLow") then VeryLow
    else if effort == Some("Low") then Low
    else if effort == Some("Medium") then Medium
    else if effort == Some("High") then High
    else Low
  }

  const DefaultRegion := "ap-south-1"

  /** `arn?.split(':')[3] || 'ap-south-1'` */
  function ArnRegion(arn: Option<string>): (r: string)
    ensures r != ""
    ensures arn.Some? && |Split(arn.value, ':')| > 3 && Split(arn.value, ':')[3] != "" ==>
      r == Split(arn.value, ':')[3]
    ensures arn.None? || |Split(arn.value, ':')| <= 3 || Split(arn.value, ':')[3] == "" ==> r == DefaultRegion
  {
    if arn.None? then DefaultRegion else Or(At(Split(arn.value, ':'), 3), DefaultRegion)
  }

  /** `arn?.split(sep).pop() || ''`: the text after the last separator
      (the whole ARN when it has none), or '' without an ARN. */
  function LastSegment(arn: Option<string>, sep: char): (r: string)
    ensures sep !in r
    ensures arn.Some? && sep !in arn.value ==> r == arn.value
    ensures arn.Some? && sep in arn.value ==> exists p :: arn.value == p + [sep] + r
    ensures arn.Some? && |arn.value| > 0 ==> (r == "" <==> arn.value[|arn.value| - 1] == sep)
    ensures arn.None? ==> r == ""
  {
    if arn.None? then ""
    else
      var parts := Split(arn.value, sep);
      if sep !in arn.value then (SplitNoSeparator(arn.value, sep); Last(parts)) else (SplitLast(arn.value, sep); Last(parts))
  }

  /** `String(finding) === 'Optimized'`: an absent finding reads 'undefined'. */
  predicate IsOptimized(finding: Option<string>)
  {
    finding == Some("Optimized")
  }

  /** `String(finding || 'Unknown')` */
  function FindingText(finding: Option<string>): (r: string)
    ensures !IsOptimized(finding) ==> r != "Optimized"
  {
    Or(finding, "Unknown")
  }

  /** `${n || 0}` on an optional whole number. */
  function CountText(n: Option<nat>): string
  {
    NatToString(if n.Some? then n.value else 0)
  }

  function First<T>(s: seq<T>): (r: Option<T>)
    ensures r.Some? <==> |s| > 0
  {
    if |s| > 0 then Some(s[0]) else None
  }

  // ---------------------------------------------------------------------
  // The four mappers
  // ---------------------------------------------------------------------

  datatype InstanceOption = InstanceOption(savings: SavingsFields, instanceType: Option<string>, migrationEffort: Option<string>)

  datatype InstanceRec = InstanceRec(
    instanceArn: Option<string>, finding: Option<string>, currentInstanceType: Option<string>,
    options: seq<InstanceOption>)

  function OptionSavings<T>(option: Option<T>, fields: T -> SavingsFields): Option<SavingsFields>
  {
    if option.Some? then Some(fields(option.value)) else None
  }

  function InstanceSavings(o: InstanceOption): SavingsFields
  {
    o.savings
  }

  /** `instanceArn?.split('/').pop() || instanceArn || ''`: the last '/'
      segment of the ARN, else the whole ARN. */
  function InstanceId(arn: Option<string>): (id: string)
    ensures arn.Some? && '/' !in arn.value ==> id == arn.value
    ensures arn.Some? && '/' in arn.value && arn.value[|arn.value| - 1] != '/' ==>
      '/' !in id && exists p :: arn.value == p + "/" + id
    ensures arn.Some? && |arn.value| > 0 && arn.value[|arn.value| - 1] == '/' ==> id == arn.value
    ensures arn.None? ==> id == ""
  {
    var lastPart := LastSegment(arn, '/');
    if lastPart != "" then lastPart else Or(arn, "")
  }

  /** The EC2 percentage: `currentCost` is the savings themselves, so it is
      100 whenever there are savings and 0 otherwise. */
  function Ec2SavingsPercentage(savings: real): (p: real)
    ensures p == (if savings > 0.0 then 100.0 else 0.0)
  {
    var currentCost := if savings > 0.0 then savings else 0.0;
    if currentCost > 0.0 then
      assert currentCost == savings;
      assert savings / savings == 1.0;
      savings / currentCost * 100.0
    else 0.0
  }

  /** `mapEC2` */
  function MapEC2(r: InstanceRec): (m: Option<Recommendation>)
    ensures m.None? <==> IsOptimized(r.finding)
    ensures m.Some? ==>
      && m.value.resourceType == EC2
      && m.value.finding == FindingText(r.finding)
      && m.value.estimatedMonthlySavings == ExtractSavings(OptionSavings(First(r.options), InstanceSavings))
      && m.value.estimatedSavingsPercentage == (if m.value.estimatedMonthlySavings > 0.0 then 100.0 else 0.0)
      && m.value.region == ArnRegion(r.instanceArn)
      && m.value.resourceId == InstanceId(r.instanceArn)
      && m.value.risk == MapRisk(if |r.options| > 0 then r.options[0].migrationEffort else None)
      && m.value.currentConfig == Or(r.currentInstanceType, "Unknown")
      && m.value.recommendedConfig == (if |r.options| > 0 then Or(r.options[0].instanceType, "N/A") else "N/A")
  {
    if IsOptimized(r.finding) then None
    else
      var best := First(r.options);
      var savings := ExtractSavings(OptionSavings(best, InstanceSavings));
      Some(Recommendation(
        InstanceId(r.instanceArn),
        EC2,
        FindingText(r.finding),
        Or(r.currentInstanceType, "Unknown"),
        if best.Some? then Or(best.value.instanceType, "N/A") else "N/A",
        savings,
        Ec2SavingsPercentage(savings),
        MapRisk(if best.Some? then best.value.migrationEffort else None),
        ArnRegion(r.instanceArn)))
  }

  datatype GroupOption = GroupOption(savings: SavingsFields, instanceType: Option<string>, migrationEffort: Option<string>)

  datatype GroupRec = GroupRec(
    groupName: Option<string>, groupArn: Option<string>, finding: Option<string>,
    currentInstanceType: Option<string>, options: seq<GroupOption>)

  function GroupSavings(o: GroupOption): SavingsFields
  {
    o.savings
  }

  /** `mapAutoScaling` */
  function MapAutoScaling(r: GroupRec): (m: Option<Recommendation>)
    ensures m.None? <==> IsOptimized(r.finding)
    ensures m.Some? ==>
      && m.value.resourceType == AutoScaling
      && m.value.resourceId == Or(r.groupName, "")
      && m.value.finding == FindingText(r.finding)
      && m.value.estimatedMonthlySavings == ExtractSavings(OptionSavings(First(r.options), GroupSavings))
      && m.value.estimatedSavingsPercentage == 0.0
      && m.value.region == ArnRegion(r.groupArn)
      && m.value.risk == MapRisk(if |r.options| > 0 then r.options[0].migrationEffort else None)
      && m.value.currentConfig == Or(r.currentInstanceType, "Unknown")
      && m.value.recommendedConfig == (if |r.options| > 0 then Or(r.options[0].instanceType, "N/A") else "N/A")
  {
    if IsOptimized(r.finding) then None
    else
      var best := First(r.options);
      Some(Recommendation(
        Or(r.groupName, ""),
        AutoScaling,
        FindingText(r.finding),
        Or(r.currentInstanceType, "Unknown"),
        if best.Some? then Or(best.value.instanceType, "N/A") else "N/A",
        ExtractSavings(OptionSavings(best, GroupSavings)),
        0.0,
        MapRisk(if best.Some? then best.value.migrationEffort else None),
        ArnRegion(r.groupArn)))
  }

  datatype MemoryOption = MemoryOption(savings: SavingsFields, memorySize: Option<nat>)

  datatype FunctionRec = FunctionRec(
    functionArn: Option<string>, finding: Option<string>, currentMemorySize: Option<nat>,
    options: seq<MemoryOption>)

  function MemorySavings(o: MemoryOption): SavingsFields
  {
    o.savings
  }

  /** `mapLambda`: the id is the last ':' segment of the ARN; risk is always `Low`. */
  function MapLambda(r: FunctionRec): (m: Option<Recommendation>)
    ensures m.None? <==> IsOptimized(r.finding)
    ensures m.Some? ==>
      && m.value.resourceType == Lambda
      && m.value.resourceId == LastSegment(r.functionArn, ':')
      && ':' !in m.value.resourceId
      && m.value.finding == FindingText(r.finding)
      && m.value.estimatedMonthlySavings == ExtractSavings(OptionSavings(First(r.options), MemorySavings))
      && m.value.estimatedSavingsPercentage == 0.0
      && m.value.risk == Low
      && m.value.region == ArnRegion(r.functionArn)
      && m.value.currentConfig == NatToString(if r.currentMemorySize.Some? then r.currentMemorySize.value else 0) + " MB"
      && (if |r.options| > 0 && r.options[0].memorySize.Some? && r.options[0].memorySize.value != 0
          then m.value.recommendedConfig == NatToString(r.options[0].memorySize.value) + " MB"
          else m.value.recommendedConfig == "N/A")
  {
    if IsOptimized(r.finding) then None
    else
      var best := First(r.options);
      Some(Recommendation(
        LastSegment(r.functionArn, ':'),
        Lambda,
        FindingText(r.finding),
        CountText(r.currentMemorySize) + " MB",
        if best.Some? && best.value.memorySize.Some? && best.value.memorySize.value != 0
        then NatToString(best.value.memorySize.value) + " MB" else "N/A",
        ExtractSavings(OptionSavings(best, MemorySavings)),
        0.0,
        Low,
        ArnRegion(r.functionArn)))
  }

  datatype VolumeConfig = VolumeConfig(volumeType: Option<string>, volumeSize: Option<nat>)

  datatype VolumeOption = VolumeOption(savings: SavingsFields, configuration: Option<VolumeConfig>)

  datatype VolumeRec = VolumeRec(
    volumeArn: Option<string>, finding: Option<string>, current: Option<VolumeConfig>,
    options: seq<VolumeOption>)

  function VolumeSavings(o: VolumeOption): SavingsFields
  {
    o.savings
  }

  /** `${type || noType} ${size || 0}GB` for an optional volume configuration. */
  function VolumeText(c: Option<VolumeConfig>, noType: string): string
  {
    var t := if c.Some? then Or(c.value.volumeType, noType) else noType;
    var n := if c.Some? then c.value.volumeSize else None;
    t + " " + CountText(n) + "GB"
  }

  /** `mapEBS`: the id is the last '/' segment of the ARN; risk is always `Low`. */
  function MapEBS(r: VolumeRec): (m: Option<Recommendation>)
    ensures m.None? <==> IsOptimized(r.finding)
    ensures m.Some? ==>
      && m.value.resourceType == EBS
      && m.value.resourceId == LastSegment(r.volumeArn, '/')
      && m.value.finding == FindingText(r.finding)
      && m.value.estimatedMonthlySavings == ExtractSavings(OptionSavings(First(r.options), VolumeSavings))
      && m.value.estimatedSavingsPercentage == 0.0
      && m.value.risk == Low
      && m.value.region == ArnRegion(r.volumeArn)
      && m.value.currentConfig == VolumeText(r.current, "Unknown")
      && (if |r.options| > 0 && r.options[0].configuration.Some?
          then m.value.recommendedConfig == VolumeText(r.options[0].configuration, "N/A")
          else m.value.recommendedConfig == "N/A")
  {
    if IsOptimized(r.finding) then None
    else
      var best := First(r.options);
      Some(Recommendation(
        LastSegment(r.volumeArn, '/'),
        EBS,
        FindingText(r.finding),
        VolumeText(r.current, "Unknown"),
        if best.Some? && best.value.configuration.Some? then VolumeText(best.value.configuration, "N/A") else "N/A",
        ExtractSavings(OptionSavings(best, VolumeSavings)),
        0.0,
        Low,
        ArnRegion(r.volumeArn)))
  }

  // ---------------------------------------------------------------------
  // Collecting, classifying and aggregating
  // ---------------------------------------------------------------------

  /** The recommendations one push loop adds: the mapped items that are not null. */
  function Somes<T>(items: seq<T>, f: T -> Option<Recommendation>): (r: seq<Recommendation>)
    ensures |r| <= |items|
  {
    if |items| == 0 then []
    else
      var n := |items| - 1;
      Somes(items[..n], f) + (if f(items[n]).Some? then [f(items[n]).value] else [])
  }

  /** One of the four push loops, appending to `allRecs`. */
  method PushMapped<T>(allRecs: seq<Recommendation>, items: seq<T>, f: T -> Option<Recommendation>)
    returns (out: seq<Recommendation>)
    ensures out == allRecs + Somes(items, f)
  {
    out := allRecs;
    var i := 0;
    while i < |items|
      invariant 0 <= i <= |items|
      invariant out == allRecs + Somes(items[..i], f)
    {
      assert items[..i + 1][..i] == items[..i];
      var mapped := f(items[i]);
      if mapped.Some? {
        out := out + [mapped.value];
      }
      i := i + 1;
    }
    assert items[..|items|] == items;
  }

  /** A request that was rejected contributes nothing. */
  function Pushed<T>(res: Outcome<seq<T>>, f: T -> Option<Recommendation>): seq<Recommendation>
  {
    if res.Ok? then Somes(res.value, f) else []
  }

  function AllRecs(ec2: Outcome<seq<InstanceRec>>, asg: Outcome<seq<GroupRec>>,
                   lambda: Outcome<seq<FunctionRec>>, ebs: Outcome<seq<VolumeRec>>): seq<Recommendation>
  {
    Pushed(ec2, MapEC2) + Pushed(asg, MapAutoScaling) + Pushed(lambda, MapLambda) + Pushed(ebs, MapEBS)
  }

  datatype OptimizerStatus = Active | Collecting | NotEnrolled | Error

  /** `ComputeOptimizerSummary`; `byType` entries are (type, count, savings). */
  datatype Summary = Summary(
    recommendations: seq<Recommendation>,
    totalEstimatedSavings: real,
    byType: seq<Bucket>,
    optimizerStatus: OptimizerStatus,
    errorMessage: Option<string>)

  const NotEnabledMessage := "AWS Compute Optimizer is not enabled. Enable it from the AWS Console."
  const CollectingMessage := "Compute Optimizer is collecting utilization data. Results will be available after ~14 days."

  predicate MentionsOptIn(msg: string)
  {
    Contains(msg, "OptInRequired") || Contains(msg, "not opted in")
  }

  /** The `allFailed` branch, given the first request's error message and
      the number of recommendations collected. */
  function FailureSummary(message: Option<string>, collected: nat): (r: Summary)
    ensures r.recommendations == [] && r.byType == [] && r.totalEstimatedSavings == 0.0
    ensures r.optimizerStatus == NotEnrolled <==> MentionsOptIn(Or(message, "Unknown error"))
    ensures r.optimizerStatus == Error ==> collected > 0 && r.errorMessage == Some(Or(message, "Unknown error"))
    ensures r.optimizerStatus != Active && r.errorMessage.Some?
    ensures r.optimizerStatus == Collecting <==>
      !MentionsOptIn(Or(message, "Unknown error")) && (Contains(Or(message, "Unknown error"), "InternalServerException") || collected == 0)
    ensures r.optimizerStatus == NotEnrolled ==> r.errorMessage == Some(NotEnabledMessage)
    ensures r.optimizerStatus == Collecting ==> r.errorMessage == Some(CollectingMessage)
  {
    var errorMsg := Or(message, "Unknown error");
    if MentionsOptIn(errorMsg) then Summary([], 0.0, [], NotEnrolled, Some(NotEnabledMessage))
    else if Contains(errorMsg, "InternalServerException") || collected == 0 then
      Summary([], 0.0, [], Collecting, Some(CollectingMessage))
    else Summary([], 0.0, [], Error, Some(errorMsg))
  }

  /** The success path: recommendations sorted by savings, `byType` from the
      per-type map sorted by savings, and the total. */
  function ActiveSummary(allRecs: seq<Recommendation>): Summary
  {
    var sorted := SortDesc(allRecs, Savings);
    Summary(sorted, Sum(sorted, Savings), SortDesc(Aggregate(sorted, TypeKey, Savings), BucketTotal), Active, None)
  }

  predicate AllRejected(ec2: Outcome<seq<InstanceRec>>, asg: Outcome<seq<GroupRec>>,
                        lambda: Outcome<seq<FunctionRec>>, ebs: Outcome<seq<VolumeRec>>)
  {
    ec2.Thrown? && asg.Thrown? && lambda.Thrown? && ebs.Thrown?
  }

  /** What a fetch computes when the cache is not used. */
  function Outcome4(ec2: Outcome<seq<InstanceRec>>, asg: Outcome<seq<GroupRec>>,
                    lambda: Outcome<seq<FunctionRec>>, ebs: Outcome<seq<VolumeRec>>): Summary
  {
    if AllRejected(ec2, asg, lambda, ebs) then FailureSummary(ec2.message, |AllRecs(ec2, asg, lambda, ebs)|)
    else ActiveSummary(AllRecs(ec2, asg, lambda, ebs))
  }

  /** When every request is rejected nothing was collected, so the `error`
      status is never produced: the first error's message decides between
      `not-enrolled` and `collecting`. Otherwise the run is `active`. */
  lemma OutcomeStatus(ec2: Outcome<seq<InstanceRec>>, asg: Outcome<seq<GroupRec>>,
                      lambda: Outcome<seq<FunctionRec>>, ebs: Outcome<seq<VolumeRec>>)
    ensures Outcome4(ec2, asg, lambda, ebs).optimizerStatus != Error
    ensures Outcome4(ec2, asg, lambda, ebs).optimizerStatus == Active <==> !AllRejected(ec2, asg, lambda, ebs)
    ensures AllRejected(ec2, asg, lambda, ebs) ==>
      (Outcome4(ec2, asg, lambda, ebs).optimizerStatus == NotEnrolled <==> MentionsOptIn(Or(ec2.message, "Unknown error"))) &&
      (Outcome4(ec2, asg, lambda, ebs).optimizerStatus == Collecting <==> !MentionsOptIn(Or(ec2.message, "Unknown error")))
  {
    if AllRejected(ec2, asg, lambda, ebs) {
      assert AllRecs(ec2, asg, lambda, ebs) == [];
    }
  }

  /** The success path keeps every collected recommendation, sorted by
      savings; `byType` has one entry per type, sorted by savings, whose
      counts add up to the number of recommendations and whose savings add
      up to the total; each entry holds its type's count and savings. */
  lemma ActiveSummaryProperties(allRecs: seq<Recommendation>)
    ensures var s := ActiveSummary(allRecs);
      && multiset(s.recommendations) == multiset(allRecs)
      && SortedDesc(s.recommendations, Savings)
      && s.totalEstimatedSavings == Sum(allRecs, Savings)
      && DistinctBy(s.byType, BucketKey)
      && SortedDesc(s.byType, BucketTotal)
      && Sum(s.byType, BucketCount) == |allRecs| as real
      && Sum(s.byType, BucketTotal) == s.totalEstimatedSavings
      && (forall j :: 0 <= j < |s.byType| ==>
            s.byType[j].count == Occurrences(s.recommendations, TypeKey, s.byType[j].key) &&
            s.byType[j].total == KeyTotal(s.recommendations, TypeKey, Savings, s.byType[j].key))
  {
    var sorted := SortDesc(allRecs, Savings);
    SortDescSum(allRecs, Savings, Savings);
    RankedTally(sorted, TypeKey, Savings, BucketTotal);
  }

  /** Only actual recommendations are collected: none is `Optimized`. */
  lemma {:induction false} SomesNotOptimized<T>(items: seq<T>, f: T -> Option<Recommendation>)
    requires forall x :: f(x).Some? ==> f(x).value.finding != "Optimized"
    ensures forall i :: 0 <= i < |Somes(items, f)| ==> Somes(items, f)[i].finding != "Optimized"
  {
    if |items| > 0 {
      SomesNotOptimized(items[..|items| - 1], f);
    }
  }

  /** None of the recommendations the four push loops collect is `Optimized`. */
  lemma AllRecsNotOptimized(ec2: Outcome<seq<InstanceRec>>, asg: Outcome<seq<GroupRec>>,
                            lambda: Outcome<seq<FunctionRec>>, ebs: Outcome<seq<VolumeRec>>)
    ensures forall i :: 0 <= i < |AllRecs(ec2, asg, lambda, ebs)| ==> AllRecs(ec2, asg, lambda, ebs)[i].finding != "Optimized"
  {
    if ec2.Ok? { SomesNotOptimized(ec2.value, MapEC2); }
    if asg.Ok? { SomesNotOptimized(asg.value, MapAutoScaling); }
    if lambda.Ok? { SomesNotOptimized(lambda.value, MapLambda); }
    if ebs.Ok? { SomesNotOptimized(ebs.value, MapEBS); }
    var a := Pushed(ec2, MapEC2);
    var b := Pushed(asg, MapAutoScaling);
    var c := Pushed(lambda, MapLambda);
    var d := Pushed(ebs, MapEBS);
    forall i | 0 <= i < |a + b + c + d| ensures (a + b + c + d)[i].finding != "Optimized" {
      assert (a + b + c + d)[i] in a || (a + b + c + d)[i] in b || (a + b + c + d)[i] in c || (a + b + c + d)[i] in d;
    }
  }

  /** `fetchComputeOptimizerRecommendations` past the cache check: the four
      push loops, the all-failed classification, the sort, the per-type map
      and the total. */
  method Compute(ec2: Outcome<seq<InstanceRec>>, asg: Outcome<seq<GroupRec>>,
                 lambda: Outcome<seq<FunctionRec>>, ebs: Outcome<seq<VolumeRec>>) returns (r: Summary)
    ensures r == Outcome4(ec2, asg, lambda, ebs)
  {
    var allRecs: seq<Recommendation> := [];
    if ec2.Ok? {
      allRecs := PushMapped(allRecs, ec2.value, MapEC2);
    }
    assert allRecs == Pushed(ec2, MapEC2);
    if asg.Ok? {
      allRecs := PushMapped(allRecs, asg.value, MapAutoScaling);
    }
    assert allRecs == Pushed(ec2, MapEC2) + Pushed(asg, MapAutoScaling);
    if lambda.Ok? {
      allRecs := PushMapped(allRecs, lambda.value, MapLambda);
    }
    assert allRecs == Pushed(ec2, MapEC2) + Pushed(asg, MapAutoScaling) + Pushed(lambda, MapLambda);
    if ebs.Ok? {
      allRecs := PushMapped(allRecs, ebs.value, MapEBS);
    }
    assert allRecs == AllRecs(ec2, asg, lambda, ebs);
    if ec2.Thrown? && asg.Thrown? && lambda.Thrown? && ebs.Thrown? {
      return FailureSummary(ec2.message, |allRecs|);
    }
    var sorted := SortDesc(allRecs, Savings);
    var typeMap := Count(sorted, TypeKey, Savings);
    var byType := SortDesc(typeMap, BucketTotal);
    r := Summary(sorted, Sum(sorted, Savings), byType, Active, None);
  }

  /** `CACHE_TTL_MS`: four hours. */
  const CacheTtlMs := 4 * 60 * 60 * 1000

  /** The module-level `cachedData` / `cachedAt` pair. */
  class OptimizerCache {
    var cachedData: Option<Summary>
    var cachedAt: int

    /** Only successful summaries are ever cached. */
    ghost predicate Valid()
      reads this
    {
      cachedData.Some? ==> cachedData.value.optimizerStatus == Active
    }

    constructor()
      ensures cachedData.None? && cachedAt == 0 && Valid()
    {
      cachedData := None;
      cachedAt := 0;
    }

    predicate Fresh(now: int)
      reads this
    {
      cachedData.Some? && now - cachedAt < CacheTtlMs
    }

    /** `fetchComputeOptimizerRecommendations` at time `now`; `storedAt` is
        the clock read when a successful summary is cached. */
    method Fetch(now: int, storedAt: int,
                 ec2: Outcome<seq<InstanceRec>>, asg: Outcome<seq<GroupRec>>,
                 lambda: Outcome<seq<FunctionRec>>, ebs: Outcome<seq<VolumeRec>>) returns (r: Summary)
      requires Valid()
      modifies this
      ensures Valid()
      ensures old(Fresh(now)) ==> r == old(cachedData).value && unchanged(this)
      ensures !old(Fresh(now)) ==> r == Outcome4(ec2, asg, lambda, ebs)
      ensures !old(Fresh(now)) && r.optimizerStatus == Active ==> cachedData == Some(r) && cachedAt == storedAt
      ensures !old(Fresh(now)) && r.optimizerStatus != Active ==> unchanged(this)
    {
      if cachedData.Some? && now - cachedAt < CacheTtlMs {
        return cachedData.value;
      }
      r := Compute(ec2, asg, lambda, ebs);
      if r.optimizerStatus == Active {
        cachedData := Some(r);
        cachedAt := storedAt;
      }
    }
  }
}
