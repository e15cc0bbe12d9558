/** What the Android bridge reads from Health Connect, as plain values.
    Every client call the bridge makes becomes a field of `HealthConnect`
    holding its answer; a call that throws becomes a `Failure` carrying the
    exception's message. Floating-point quantities already converted to the
    unit the bridge asks for (kilocalories, metres, degrees Celsius,
    milligrams per decilitre) are `real`s. */
module Platform {
  import opened Results

  /** `java.time.Instant`: seconds since the epoch and the nanoseconds
      within that second. */
  datatype Instant = Instant(epochSecond: int, nano: int)

  datatype Device = Device(model: Option<string>)

  /** A record's metadata: `id`, the optional `device` and the package of
      its `dataOrigin`. */
  datatype Metadata = Metadata(id: string, device: Option<Device>, packageName: string)

  datatype Segment = Segment(startTime: Instant, endTime: Instant)

  datatype RoutePoint = RoutePoint(time: Instant, latitude: real, longitude: real, altitude: Option<real>)

  /** `ExerciseRouteResult`: only `Data` carries a route. */
  datatype RouteResult = RouteData(route: seq<RoutePoint>) | NoData | ConsentRequired

  /** `ExerciseSessionRecord`. */
  datatype ExerciseSession = ExerciseSession(
    metadata: Metadata,
    startTime: Instant,
    endTime: Instant,
    exerciseType: int,
    title: Option<string>,
    segments: seq<Segment>,
    routeResult: RouteResult)

  datatype HeartRateSample = HeartRateSample(time: Instant, beatsPerMinute: int)

  datatype HeartRateRecord = HeartRateRecord(
    metadata: Metadata, startTime: Instant, endTime: Instant, samples: seq<HeartRateSample>)

  datatype SleepStage = SleepStage(startTime: Instant, endTime: Instant, stage: int)

  datatype SleepSession = SleepSession(
    metadata: Metadata, startTime: Instant, endTime: Instant, stages: seq<SleepStage>)

  datatype BasalBodyTemperatureRecord = BasalBodyTemperatureRecord(
    metadata: Metadata, time: Instant, temperatureCelsius: real)

  datatype BloodGlucoseRecord = BloodGlucoseRecord(
    metadata: Metadata, time: Instant, levelMgPerDl: real,
    specimenSource: int, mealType: int, relationToMeal: int)

  datatype OxygenSaturationRecord = OxygenSaturationRecord(
    metadata: Metadata, time: Instant, percentage: real)

  /** The five aggregate metrics the bridge asks for. */
  datatype AggregateMetric =
    | StepsCountTotal
    | BasalCaloriesTotal
    | ActiveCaloriesTotal
    | EnergyTotal
    | DistanceTotal

  /** `AggregationResult`: the metrics the platform has a value for, each
      already in the unit the bridge's mapper converts it to. */
  type AggregationResult = map<AggregateMetric, real>

  /** One window of `aggregateGroupByPeriod`. The local date-times of the
      windows are kept as instants: time-zone conversion is not modelled. */
  datatype PeriodGroup = PeriodGroup(startTime: Instant, endTime: Instant, result: AggregationResult)

  /** The time range handed to a request. */
  datatype TimeRange = TimeRange(startTime: Instant, endTime: Instant)

  /** `java.time.Period`, as far as the bridge builds one: a number of days. */
  datatype Period = Days(days: nat)

  /** The Health Connect client as the bridge sees it during one plugin
      call: the answer of each call it makes, or the message of the
      exception that call throws. */
  datatype HealthConnect = HealthConnect(
    grantedPermissions: Result<set<string>>,
    aggregate: (AggregateMetric, TimeRange) -> Result<AggregationResult>,
    aggregateGroupByPeriod: (AggregateMetric, TimeRange, Period) -> Result<seq<PeriodGroup>>,
    exerciseSessions: Result<seq<ExerciseSession>>,
    heartRateRecords: TimeRange -> Result<seq<HeartRateRecord>>,
    sleepSessions: Result<seq<SleepSession>>,
    basalBodyTemperatures: Result<seq<BasalBodyTemperatureRecord>>,
    bloodGlucose: Result<seq<BloodGlucoseRecord>>,
    oxygenSaturation: Result<seq<OxygenSaturationRecord>>)
}
