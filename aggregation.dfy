/** The metric registry and the aggregated-data query of the Android bridge
    (`getMetricAndMapper`, `queryAggregated`, `queryAggregatedMetric`) and
    the permission check they rely on (`hasPermission`). */
module Aggregation {
  import opened Results
  import opened PermissionCatalog
  import opened PermissionGate
  import opened PermissionGateFacts
  import opened Platform

  /** `hasPermission`: asks the platform for the granted strings and applies
      the suffix test to `p`'s native string. The platform call may throw. */
  function HasPermission(hc: HealthConnect, p: Permission): (r: Result<bool>)
    ensures r.Failure? <==> hc.grantedPermissions.Failure?
    ensures r.Failure? ==> r.error == hc.grantedPermissions.error
    ensures r.Success? ==>
      (r.value <==> exists g :: g in hc.grantedPermissions.value && AfterLastDot(g) == NativeName(p))
  {
    match hc.grantedPermissions
    case Failure(e) => Failure(e)
    case Success(granted) =>
      IsGrantedIff(p, granted);
      Success(IsGranted(p, granted))
  }

  /** The record type each aggregate metric is computed from determines the
      read permission it needs. */
  function RequiredPermission(m: AggregateMetric): Permission
  {
    match m
    case StepsCountTotal => ReadSteps
    case BasalCaloriesTotal => ReadBasalMetabolicRate
    case ActiveCaloriesTotal => ReadActiveCalories
    case EnergyTotal => ReadTotalCalories
    case DistanceTotal => ReadDistance
  }

  /** The output field a metric's value is reported under: all three energy
      metrics share "calories". */
  function OutputField(m: AggregateMetric): string
  {
    match m
    case StepsCountTotal => "steps"
    case BasalCaloriesTotal => "calories"
    case ActiveCaloriesTotal => "calories"
    case EnergyTotal => "calories"
    case DistanceTotal => "distance"
  }

  /** `MetricAndMapper`: the output field, the permission that gates the
      read and the metric to aggregate. The unit conversion of the mapper
      is folded into the platform's values. */
  datatype MetricAndMapper = MetricAndMapper(name: string, permission: Permission, metric: AggregateMetric)
  {
    /** `getValue`: the metric's value in a result, null when it has none. */
    function GetValue(a: AggregationResult): Option<real>
    {
      if metric in a then Some(a[metric]) else None
    }
  }

  /** The data types `getMetricAndMapper` knows. */
  const SupportedDataTypes: set<string> :=
    {"steps", "basal-calories", "active-calories", "total-calories", "distance"}

  /** The aggregate metric each data-type name stands for. */
  function DataTypeMetric(dataType: string): Option<AggregateMetric>
  {
    if dataType == "steps" then Some(StepsCountTotal)
    else if dataType == "basal-calories" then Some(BasalCaloriesTotal)
    else if dataType == "active-calories" then Some(ActiveCaloriesTotal)
    else if dataType == "total-calories" then Some(EnergyTotal)
    else if dataType == "distance" then Some(DistanceTotal)
    else None
  }

  /** `getMetricAndMapper`: five names succeed, each with the metric the
      name stands for, gated by the permission of that metric's record
      type and reported under its output field; any other name throws
      "Unsupported dataType: …". */
  function GetMetricAndMapper(dataType: string): (r: Result<MetricAndMapper>)
    ensures r.Success? <==> dataType in SupportedDataTypes
    ensures r.Success? <==> DataTypeMetric(dataType).Some?
    ensures r.Success? ==> Some(r.value.metric) == DataTypeMetric(dataType)
    ensures r.Success? ==> r.value.permission == RequiredPermission(r.value.metric)
    ensures r.Success? ==> r.value.name == OutputField(r.value.metric)
    ensures r.Failure? ==> r.error == "Unsupported dataType: " + dataType
  {
    match dataType
    case "steps" => Success(MetricAndMapper("steps", ReadSteps, StepsCountTotal))
    case "basal-calories" => Success(MetricAndMapper("calories", ReadBasalMetabolicRate, BasalCaloriesTotal))
    case "active-calories" => Success(MetricAndMapper("calories", ReadActiveCalories, ActiveCaloriesTotal))
    case "total-calories" => Success(MetricAndMapper("calories", ReadTotalCalories, EnergyTotal))
    case "distance" => Success(MetricAndMapper("distance", ReadDistance, DistanceTotal))
    case _ => Failure("Unsupported dataType: " + dataType)
  }

  /** Basal calories are read from the basal metabolic rate records, need
      that permission, and are reported under "calories" like the other
      two energy metrics. */
  lemma BasalCaloriesFromMetabolicRate()
    ensures GetMetricAndMapper("basal-calories") ==
      Success(MetricAndMapper("calories", ReadBasalMetabolicRate, BasalCaloriesTotal))
    ensures GetMetricAndMapper("basal-calories").value.name == GetMetricAndMapper("active-calories").value.name
      == GetMetricAndMapper("total-calories").value.name
  {
    var r := GetMetricAndMapper("basal-calories");
    assert DataTypeMetric("basal-calories") == Some(BasalCaloriesTotal);
    assert r.value.metric == BasalCaloriesTotal;
  }

  /** The bucket `when` of `queryAggregated`: only "day", as one day. */
  function ParseBucket(bucket: string): (r: Result<Period>)
    ensures r.Success? <==> bucket == "day"
    ensures r.Success? ==> r.value == Days(1)
    ensures r.Failure? ==> r.error == "Unsupported bucket: " + bucket
  {
    if bucket == "day" then Success(Days(1)) else Failure("Unsupported bucket: " + bucket)
  }

  const MissingAggregatedParameters: string :=
    "Missing required parameters: startDate, endDate, dataType, or bucket"

  /** A `queryAggregated` request whose parameters passed validation. */
  datatype AggregatedQuery = AggregatedQuery(range: TimeRange, metric: MetricAndMapper, period: Period)

  /** The synchronous part of `queryAggregated`: all four parameters must be
      present, then the data type is looked up, then the bucket. The dates
      are not compared with each other. */
  function ValidateAggregated(startDate: Option<Instant>, endDate: Option<Instant>,
                              dataType: Option<string>, bucket: Option<string>): (r: Result<AggregatedQuery>)
    ensures r.Success? <==>
      && startDate.Some? && endDate.Some? && dataType.Some? && bucket.Some?
      && dataType.value in SupportedDataTypes && bucket.value == "day"
    ensures (startDate.None? || endDate.None? || dataType.None? || bucket.None?) ==>
      r == Failure(MissingAggregatedParameters)
    ensures (startDate.Some? && endDate.Some? && dataType.Some? && bucket.Some? &&
             dataType.value !in SupportedDataTypes) ==>
      r == Failure("Unsupported dataType: " + dataType.value)
    ensures r.Success? ==>
      r.value.range == TimeRange(startDate.value, endDate.value) &&
      r.value.metric == GetMetricAndMapper(dataType.value).value &&
      r.value.period == Days(1)
  {
    if startDate.None? || endDate.None? || dataType.None? || bucket.None? then
      Failure(MissingAggregatedParameters)
    else
      var metric :- GetMetricAndMapper(dataType.value);
      var period :- ParseBucket(bucket.value);
      Success(AggregatedQuery(TimeRange(startDate.value, endDate.value), metric, period))
  }

  /** `AggregatedSample`: one reported window. */
  datatype AggregatedSample = AggregatedSample(startDate: Instant, endDate: Instant, value: Option<real>)

  /** `queryAggregatedMetric`: nothing, and no aggregation request, when the
      metric's permission is not granted; otherwise one sample per platform
      window, in the platform's order. */
  function QueryAggregatedMetric(hc: HealthConnect, q: AggregatedQuery): (r: Result<seq<AggregatedSample>>)
    ensures hc.grantedPermissions.Failure? ==> r == Failure(hc.grantedPermissions.error)
    ensures HasPermission(hc, q.metric.permission) == Success(false) ==> r == Success([])
    ensures HasPermission(hc, q.metric.permission) == Success(true) ==>
      var response := hc.aggregateGroupByPeriod(q.metric.metric, q.range, q.period);
      (response.Failure? ==> r == Failure(response.error)) &&
      (response.Success? ==>
        && r.Success? && |r.value| == |response.value|
        && forall i :: 0 <= i < |r.value| ==>
             && r.value[i].startDate == response.value[i].startTime
             && r.value[i].endDate == response.value[i].endTime
             && r.value[i].value == q.metric.GetValue(response.value[i].result))
  {
    var granted :- HasPermission(hc, q.metric.permission);
    if !granted then Success([])
    else
      var response :- hc.aggregateGroupByPeriod(q.metric.metric, q.range, q.period);
      Success(seq(|response|, i requires 0 <= i < |response| =>
        AggregatedSample(response[i].startTime, response[i].endTime, q.metric.GetValue(response[i].result))))
  }

  /** Without the permission the platform's aggregation is never consulted:
      two platforms that differ only in their aggregations give the same
      answer. */
  lemma NoAggregationWithoutPermission(hc: HealthConnect, other: HealthConnect, q: AggregatedQuery)
    requires HasPermission(hc, q.metric.permission) == Success(false)
    requires other.grantedPermissions == hc.grantedPermissions
    ensures QueryAggregatedMetric(other, q) == QueryAggregatedMetric(hc, q) == Success([])
  {
  }

  /** `queryAggregated` as the caller sees it: a validation error as thrown,
      or the query's result, whose errors are reported as "Error querying
      aggregated data: …". */
  function QueryAggregated(hc: HealthConnect, startDate: Option<Instant>, endDate: Option<Instant>,
                           dataType: Option<string>, bucket: Option<string>): (r: Result<seq<AggregatedSample>>)
    ensures ValidateAggregated(startDate, endDate, dataType, bucket).Failure? ==>
      r == Failure(ValidateAggregated(startDate, endDate, dataType, bucket).error)
    ensures ValidateAggregated(startDate, endDate, dataType, bucket).Success? ==>
      var q := ValidateAggregated(startDate, endDate, dataType, bucket).value;
      (QueryAggregatedMetric(hc, q).Success? ==> r == QueryAggregatedMetric(hc, q)) &&
      (QueryAggregatedMetric(hc, q).Failure? ==>
        r == Failure("Error querying aggregated data: " + QueryAggregatedMetric(hc, q).error))
  {
    var q :- ValidateAggregated(startDate, endDate, dataType, bucket);
    match QueryAggregatedMetric(hc, q)
    case Success(samples) => Success(samples)
    case Failure(e) => Failure("Error querying aggregated data: " + e)
  }

  /** "mindfulness" is not among the data types the bridge aggregates. */
  lemma MindfulnessIsRejected(hc: HealthConnect, startDate: Instant, endDate: Instant)
    ensures QueryAggregated(hc, Some(startDate), Some(endDate), Some("mindfulness"), Some("day")) ==
      Failure("Unsupported dataType: mindfulness")
  {
    assert "mindfulness" !in SupportedDataTypes;
  }

  /** Any bucket but "day" is refused, once the data type is known. */
  lemma OnlyDailyBuckets(hc: HealthConnect, startDate: Instant, endDate: Instant, dataType: string, bucket: string)
    requires dataType in SupportedDataTypes
    requires bucket != "day"
    ensures QueryAggregated(hc, Some(startDate), Some(endDate), Some(dataType), Some(bucket)) ==
      Failure("Unsupported bucket: " + bucket)
  {
  }

  /** Validation never compares the dates: any pair, even a range that ends
      before it starts, is passed on unchecked to the platform's range
      filter. */
  lemma ReversedRangeIsQueried(hc: HealthConnect, startDate: Instant, endDate: Instant, dataType: string)
    requires dataType in SupportedDataTypes
    ensures ValidateAggregated(Some(startDate), Some(endDate), Some(dataType), Some("day")).Success?
    ensures ValidateAggregated(Some(startDate), Some(endDate), Some(dataType), Some("day")).value.range ==
      TimeRange(startDate, endDate)
  {
  }
}
