/** The workout normalizer of the Android bridge (`queryWorkouts` and the
    helpers it calls): each exercise session becomes one JavaScript object
    with its identity, labels and duration, the aggregate metrics the user
    has granted, and optionally its heart-rate samples and route. */
module Workouts {
  import opened Results
  import opened PermissionCatalog
  import opened Platform
  import opened Aggregation
  import opened Json
  import opened Labels

  // ---------------------------------------------------------------------
  // Duration
  // ---------------------------------------------------------------------

  /** The sum over segments of (end − start), in whole epoch seconds. */
  function SegmentSeconds(segments: seq<Segment>): int
  {
    if segments == [] then 0
    else (segments[0].endTime.epochSecond - segments[0].startTime.epochSecond) + SegmentSeconds(segments[1..])
  }

  /** The reported duration: the session's span when it has no segments,
      otherwise the time inside its segments. */
  function Duration(w: ExerciseSession): int
  {
    if w.segments == [] then w.endTime.epochSecond - w.startTime.epochSecond
    else SegmentSeconds(w.segments)
  }

  /** The seconds between `from` and the first segment, and between each
      segment and the next. */
  function GapSeconds(segments: seq<Segment>, from: int): int
  {
    if segments == [] then 0
    else (segments[0].startTime.epochSecond - from) + GapSeconds(segments[1..], segments[0].endTime.epochSecond)
  }

  /** The end of the last segment, or `from` when there is none. */
  function LastEnd(segments: seq<Segment>, from: int): int
  {
    if segments == [] then from else LastEnd(segments[1..], segments[0].endTime.epochSecond)
  }

  /** Segment time and gap time together make up the span up to the last
      segment's end. */
  lemma {:induction false} SegmentsAndGapsFillSpan(segments: seq<Segment>, from: int)
    ensures SegmentSeconds(segments) + GapSeconds(segments, from) == LastEnd(segments, from) - from
  {
    if segments != [] {
      SegmentsAndGapsFillSpan(segments[1..], segments[0].endTime.epochSecond);
    }
  }

  /** With segments, the duration is the span from the session's start to
      its last segment's end less every gap: pauses are not counted, and
      the session's own end time plays no part. */
  lemma DurationLeavesOutGaps(w: ExerciseSession)
    requires w.segments != []
    ensures Duration(w) ==
      LastEnd(w.segments, w.startTime.epochSecond) - w.startTime.epochSecond
      - GapSeconds(w.segments, w.startTime.epochSecond)
  {
    SegmentsAndGapsFillSpan(w.segments, w.startTime.epochSecond);
  }

  /** An hour-long session with thirty active minutes, a fifteen-minute
      pause and fifteen more active minutes lasts 2700 seconds, not 3600. */
  lemma PausedWorkoutLasts2700Seconds(w: ExerciseSession)
    requires w.startTime.epochSecond == 0 && w.endTime.epochSecond == 3600
    requires |w.segments| == 2
    requires w.segments[0].startTime.epochSecond == 0 && w.segments[0].endTime.epochSecond == 1800
    requires w.segments[1].startTime.epochSecond == 2700 && w.segments[1].endTime.epochSecond == 3600
    ensures Duration(w) == 2700
  {
    assert w.segments[1..][1..] == [];
    assert SegmentSeconds(w.segments[1..]) == 900;
  }

  // ---------------------------------------------------------------------
  // The fields every workout carries
  // ---------------------------------------------------------------------

  /** `Optional.ofNullable(workout.metadata.device?.model).getOrDefault("")`. */
  function DeviceModel(w: ExerciseSession): string
  {
    match w.metadata.device
    case None => ""
    case Some(device) => if device.model.Some? then device.model.value else ""
  }

  /** `sourceName`: the device model, written twice over. */
  function SourceName(w: ExerciseSession): (name: string)
    ensures |name| == 2 * |DeviceModel(w)|
    ensures name[..|DeviceModel(w)|] == DeviceModel(w) && name[|DeviceModel(w)|..] == DeviceModel(w)
  {
    DeviceModel(w) + DeviceModel(w)
  }

  function TitleValue(title: Option<string>): JsValue
  {
    if title.Some? then JStr(title.value) else JNull
  }

  /** The fields put before any metric, in the order the bridge puts them. */
  function BaseEntries(w: ExerciseSession): map<string, JsValue>
  {
    map[
      "id" := JStr(w.metadata.id),
      "sourceName" := JStr(SourceName(w)),
      "sourceBundleId" := JStr(w.metadata.packageName),
      "startDate" := JTime(w.startTime),
      "endDate" := JTime(w.endTime),
      "workoutType" := JStr(ExerciseTypeLabel(w.exerciseType)),
      "title" := TitleValue(w.title),
      "duration" := JInt(Duration(w))
    ]
  }

  // ---------------------------------------------------------------------
  // Metrics
  // ---------------------------------------------------------------------

  function SessionRange(w: ExerciseSession): TimeRange
  {
    TimeRange(w.startTime, w.endTime)
  }

  /** What `addWorkoutMetric` does with one metric: the permission query is
      outside its `try`, so its exception escapes; an aggregation that
      throws is logged and swallowed. `Some(v)` is the value it puts,
      `None` that it puts nothing. */
  function MetricOutcome(hc: HealthConnect, w: ExerciseSession, mm: MetricAndMapper): (r: Result<Option<real>>)
    ensures r.Failure? <==> hc.grantedPermissions.Failure?
    ensures r.Failure? ==> r.error == hc.grantedPermissions.error
    ensures r.Success? ==>
      (r.value.Some? <==>
        && HasPermission(hc, mm.permission) == Success(true)
        && hc.aggregate(mm.metric, SessionRange(w)).Success?
        && mm.GetValue(hc.aggregate(mm.metric, SessionRange(w)).value).Some?)
    ensures r.Success? && r.value.Some? ==>
      r.value == mm.GetValue(hc.aggregate(mm.metric, SessionRange(w)).value)
  {
    var granted :- HasPermission(hc, mm.permission);
    if !granted then Success(None)
    else
      match hc.aggregate(mm.metric, SessionRange(w))
      case Failure(_) => Success(None)
      case Success(aggregation) => Success(mm.GetValue(aggregation))
  }

  /** The object after a metric's outcome: its field set, or untouched. */
  function WithMetric(entries: map<string, JsValue>, name: string, value: Option<real>): map<string, JsValue>
  {
    if value.Some? then entries[name := JNum(value.value)] else entries
  }

  /** `addWorkoutMetric`: reports whether it wrote the metric's field, and
      writes nothing else. */
  method AddWorkoutMetric(hc: HealthConnect, w: ExerciseSession, jsWorkout: JsObject, mm: MetricAndMapper)
    returns (r: Result<bool>)
    modifies jsWorkout
    ensures MetricOutcome(hc, w, mm).Failure? ==>
      r == Failure(MetricOutcome(hc, w, mm).error) && jsWorkout.entries == old(jsWorkout.entries)
    ensures MetricOutcome(hc, w, mm).Success? ==>
      r == Success(MetricOutcome(hc, w, mm).value.Some?) &&
      jsWorkout.entries == WithMetric(old(jsWorkout.entries), mm.name, MetricOutcome(hc, w, mm).value)
  {
    var granted :- HasPermission(hc, mm.permission);
    if granted {
      var aggregation := hc.aggregate(mm.metric, SessionRange(w));
      if aggregation.Success? {
        var value := mm.GetValue(aggregation.value);
        if value.Some? {
          jsWorkout.Put(mm.name, JNum(value.value));
          return Success(true);
        }
      }
    }
    return Success(false);
  }

  /** The four metrics of a workout, as `getMetricAndMapper` builds them. */
  const StepsMetric: MetricAndMapper := MetricAndMapper("steps", ReadSteps, StepsCountTotal)
  const TotalCaloriesMetric: MetricAndMapper := MetricAndMapper("calories", ReadTotalCalories, EnergyTotal)
  const ActiveCaloriesMetric: MetricAndMapper := MetricAndMapper("calories", ReadActiveCalories, ActiveCaloriesTotal)
  const DistanceMetric: MetricAndMapper := MetricAndMapper("distance", ReadDistance, DistanceTotal)

  /** The workout's metrics are the registry's entries for "steps",
      "total-calories", "active-calories" and "distance". */
  lemma WorkoutMetricsAreRegistered()
    ensures GetMetricAndMapper("steps") == Success(StepsMetric)
    ensures GetMetricAndMapper("total-calories") == Success(TotalCaloriesMetric)
    ensures GetMetricAndMapper("active-calories") == Success(ActiveCaloriesMetric)
    ensures GetMetricAndMapper("distance") == Success(DistanceMetric)
  {
  }

  /** One field the metric steps put, with its value. */
  datatype Write = Write(field: string, value: real)

  function WritesOf(name: string, value: Option<real>): seq<Write>
  {
    if value.Some? then [Write(name, value.value)] else []
  }

  /** The metric steps of `queryWorkouts` given the outcome each
      `addWorkoutMetric` call would have: steps only when asked for, total
      calories, active calories only when total calories put nothing, and
      distance. The first outcome that throws ends the workout. */
  function MetricWritesFrom(includeSteps: bool, steps: Result<Option<real>>, total: Result<Option<real>>,
                            active: Result<Option<real>>, distance: Result<Option<real>>): Result<seq<Write>>
  {
    var s :- if includeSteps then steps else Success(None);
    var t :- total;
    var a :- if t.None? then active else Success(None);
    var d :- distance;
    Success(WritesOf(StepsMetric.name, s) + WritesOf(TotalCaloriesMetric.name, t)
      + WritesOf(ActiveCaloriesMetric.name, a) + WritesOf(DistanceMetric.name, d))
  }

  /** The metric steps of one workout, as the fields they put. */
  function MetricWrites(hc: HealthConnect, w: ExerciseSession, includeSteps: bool): Result<seq<Write>>
  {
    MetricWritesFrom(includeSteps, MetricOutcome(hc, w, StepsMetric), MetricOutcome(hc, w, TotalCaloriesMetric),
                     MetricOutcome(hc, w, ActiveCaloriesMetric), MetricOutcome(hc, w, DistanceMetric))
  }

  /** The object after its puts, applied in order. */
  function ApplyWrites(entries: map<string, JsValue>, writes: seq<Write>): map<string, JsValue>
  {
    if writes == [] then entries
    else ApplyWrites(entries, writes[..|writes| - 1])[writes[|writes| - 1].field := JNum(writes[|writes| - 1].value)]
  }

  /** Applying one more outcome is one more `WithMetric`. */
  lemma ApplyOneMore(entries: map<string, JsValue>, writes: seq<Write>, name: string, value: Option<real>)
    ensures ApplyWrites(entries, writes + WritesOf(name, value)) ==
      WithMetric(ApplyWrites(entries, writes), name, value)
  {
    if value.Some? {
      assert (writes + WritesOf(name, value))[..|writes|] == writes;
    } else {
      assert writes + WritesOf(name, value) == writes;
    }
  }

  /** How many of the puts set `field`. */
  function CountWrites(writes: seq<Write>, field: string): nat
  {
    if writes == [] then 0
    else (if writes[0].field == field then 1 else 0) + CountWrites(writes[1..], field)
  }

  lemma {:induction false} CountWritesAppend(a: seq<Write>, b: seq<Write>, field: string)
    ensures CountWrites(a + b, field) == CountWrites(a, field) + CountWrites(b, field)
  {
    if a == [] {
      assert a + b == b;
    } else {
      assert (a + b)[0] == a[0];
      assert (a + b)[1..] == a[1..] + b;
      CountWritesAppend(a[1..], b, field);
    }
  }

  /** The four outcomes' puts, in order, once none of them throws. */
  lemma MetricWritesFromShape(includeSteps: bool, steps: Result<Option<real>>, total: Result<Option<real>>,
                              active: Result<Option<real>>, distance: Result<Option<real>>)
    requires MetricWritesFrom(includeSteps, steps, total, active, distance).Success?
    ensures total.Success? && distance.Success?
    ensures includeSteps ==> steps.Success?
    ensures total.value.None? ==> active.Success?
    ensures MetricWritesFrom(includeSteps, steps, total, active, distance).value ==
      WritesOf("steps", if includeSteps then steps.value else None)
      + WritesOf("calories", total.value)
      + WritesOf("calories", if total.value.None? then active.value else None)
      + WritesOf("distance", distance.value)
  {
  }

  /** Four puts in a row. */
  lemma ApplyFour(entries: map<string, JsValue>, n1: string, v1: Option<real>, n2: string, v2: Option<real>,
                  n3: string, v3: Option<real>, n4: string, v4: Option<real>)
    ensures ApplyWrites(entries, WritesOf(n1, v1) + WritesOf(n2, v2) + WritesOf(n3, v3) + WritesOf(n4, v4)) ==
      WithMetric(WithMetric(WithMetric(WithMetric(entries, n1, v1), n2, v2), n3, v3), n4, v4)
  {
    ApplyOneMore(entries, [], n1, v1);
    assert [] + WritesOf(n1, v1) == WritesOf(n1, v1);
    ApplyOneMore(entries, WritesOf(n1, v1), n2, v2);
    ApplyOneMore(entries, WritesOf(n1, v1) + WritesOf(n2, v2), n3, v3);
    ApplyOneMore(entries, WritesOf(n1, v1) + WritesOf(n2, v2) + WritesOf(n3, v3), n4, v4);
  }

  /** "calories" is put at most once per workout, whatever each metric
      yields: active calories are only read when total calories put
      nothing. */
  lemma CaloriesWrittenAtMostOnce(includeSteps: bool, steps: Result<Option<real>>, total: Result<Option<real>>,
                                  active: Result<Option<real>>, distance: Result<Option<real>>)
    requires MetricWritesFrom(includeSteps, steps, total, active, distance).Success?
    ensures CountWrites(MetricWritesFrom(includeSteps, steps, total, active, distance).value, "calories") <= 1
  {
    MetricWritesFromShape(includeSteps, steps, total, active, distance);
    var a := WritesOf("steps", if includeSteps then steps.value else None);
    var b := WritesOf("calories", total.value);
    var c := WritesOf("calories", if total.value.None? then active.value else None);
    var d := WritesOf("distance", distance.value);
    CountWritesAppend(a + b + c, d, "calories");
    CountWritesAppend(a + b, c, "calories");
    CountWritesAppend(a, b, "calories");
  }

  /** Total calories win whenever they yield a value; active calories are
      the fallback; with neither, the "calories" field is left as it was. */
  lemma CaloriesPrecedence(includeSteps: bool, steps: Result<Option<real>>, total: Result<Option<real>>,
                           active: Result<Option<real>>, distance: Result<Option<real>>,
                           entries: map<string, JsValue>)
    requires MetricWritesFrom(includeSteps, steps, total, active, distance).Success?
    ensures var result := ApplyWrites(entries, MetricWritesFrom(includeSteps, steps, total, active, distance).value);
      && (total.value.Some? ==> "calories" in result && result["calories"] == JNum(total.value.value))
      && (total.value.None? && active.value.Some? ==>
            "calories" in result && result["calories"] == JNum(active.value.value))
      && (total.value.None? && active.value.None? ==>
            ("calories" in result <==> "calories" in entries) &&
            ("calories" in entries ==> result["calories"] == entries["calories"]))
  {
    MetricWritesFromShape(includeSteps, steps, total, active, distance);
    var s := if includeSteps then steps.value else None;
    var c := if total.value.None? then active.value else None;
    ApplyFour(entries, "steps", s, "calories", total.value, "calories", c, "distance", distance.value);
  }

  /** The metric steps of `queryWorkouts`, on the object built so far. */
  method AddMetrics(hc: HealthConnect, w: ExerciseSession, workoutObject: JsObject, includeSteps: bool)
    returns (r: Result<()>)
    modifies workoutObject
    ensures MetricWrites(hc, w, includeSteps).Failure? ==> r == Failure(MetricWrites(hc, w, includeSteps).error)
    ensures MetricWrites(hc, w, includeSteps).Success? ==>
      r.Success? && workoutObject.entries == ApplyWrites(old(workoutObject.entries), MetricWrites(hc, w, includeSteps).value)
  {
    ghost var entries := workoutObject.entries;
    ghost var steps := MetricOutcome(hc, w, StepsMetric);
    ghost var total := MetricOutcome(hc, w, TotalCaloriesMetric);
    ghost var active := MetricOutcome(hc, w, ActiveCaloriesMetric);
    ghost var distance := MetricOutcome(hc, w, DistanceMetric);
    ghost var writes: seq<Write> := [];
    if includeSteps {
      var added := AddWorkoutMetric(hc, w, workoutObject, StepsMetric);
      if added.Failure? {
        return Failure(added.error);
      }
      ApplyOneMore(entries, writes, StepsMetric.name, steps.value);
      writes := writes + WritesOf(StepsMetric.name, steps.value);
    }
    var readTotalCaloriesResult := AddWorkoutMetric(hc, w, workoutObject, TotalCaloriesMetric);
    if readTotalCaloriesResult.Failure? {
      return Failure(readTotalCaloriesResult.error);
    }
    ApplyOneMore(entries, writes, TotalCaloriesMetric.name, total.value);
    writes := writes + WritesOf(TotalCaloriesMetric.name, total.value);
    // The permission query already answered for total calories, so the
    // two calls below cannot throw.
    if !readTotalCaloriesResult.value {
      var _ := AddWorkoutMetric(hc, w, workoutObject, ActiveCaloriesMetric);
      ApplyOneMore(entries, writes, ActiveCaloriesMetric.name, active.value);
      writes := writes + WritesOf(ActiveCaloriesMetric.name, active.value);
    } else {
      assert writes + WritesOf(ActiveCaloriesMetric.name, None) == writes;
    }
    var _ := AddWorkoutMetric(hc, w, workoutObject, DistanceMetric);
    ApplyOneMore(entries, writes, DistanceMetric.name, distance.value);
    writes := writes + WritesOf(DistanceMetric.name, distance.value);
    assert MetricWrites(hc, w, includeSteps) == Success(writes);
    return Success(());
  }

  // ---------------------------------------------------------------------
  // Heart rate and route
  // ---------------------------------------------------------------------

  /** `records.flatMap { it.samples }`. */
  function FlattenSamples(records: seq<HeartRateRecord>): seq<HeartRateSample>
  {
    if records == [] then [] else records[0].samples + FlattenSamples(records[1..])
  }

  function TotalSamples(records: seq<HeartRateRecord>): nat
  {
    if records == [] then 0 else |records[0].samples| + TotalSamples(records[1..])
  }

  /** Flattening keeps every sample of every record. */
  lemma {:induction false} FlattenKeepsEverySample(records: seq<HeartRateRecord>)
    ensures |FlattenSamples(records)| == TotalSamples(records)
  {
    if records != [] {
      FlattenKeepsEverySample(records[1..]);
    }
  }

  /** Flattening keeps the records' order: the samples of earlier records
      come first. */
  lemma {:induction false} FlattenKeepsOrder(a: seq<HeartRateRecord>, b: seq<HeartRateRecord>)
    ensures FlattenSamples(a + b) == FlattenSamples(a) + FlattenSamples(b)
  {
    if a == [] {
      assert a + b == b;
    } else {
      assert (a + b)[0] == a[0];
      assert (a + b)[1..] == a[1..] + b;
      FlattenKeepsOrder(a[1..], b);
    }
  }

  function SampleJs(s: HeartRateSample): JsValue
  {
    JObj(map["timestamp" := JTime(s.time), "bpm" := JInt(s.beatsPerMinute)])
  }

  /** The heart-rate array of a workout: one object per sample, flattened
      across records. */
  function HeartRateJs(records: seq<HeartRateRecord>): (arr: seq<JsValue>)
  {
    var samples := FlattenSamples(records);
    seq(|samples|, i requires 0 <= i < |samples| => SampleJs(samples[i]))
  }

  /** The body of `queryHeartRateForWorkout` once the records are read. */
  method HeartRateArray(records: seq<HeartRateRecord>) returns (arr: seq<JsValue>)
    ensures arr == HeartRateJs(records)
  {
    var samples := FlattenSamples(records);
    arr := [];
    var i := 0;
    while i < |samples|
      invariant 0 <= i <= |samples|
      invariant arr == HeartRateJs(records)[..i]
    {
      var heartRateObject := new JsObject();
      heartRateObject.Put("timestamp", JTime(samples[i].time));
      heartRateObject.Put("bpm", JInt(samples[i].beatsPerMinute));
      arr := arr + [JObj(heartRateObject.entries)];
      i := i + 1;
    }
  }

  /** One heart-rate entry per sample of every record, in order. */
  lemma HeartRateArrayLength(records: seq<HeartRateRecord>)
    ensures |HeartRateJs(records)| == TotalSamples(records)
  {
    FlattenKeepsEverySample(records);
  }

  function PointJs(p: RoutePoint): JsValue
  {
    JObj(map[
      "timestamp" := JTime(p.time),
      "lat" := JNum(p.latitude),
      "lng" := JNum(p.longitude),
      "alt" := if p.altitude.Some? then JNum(p.altitude.value) else JNull])
  }

  /** `queryRouteForWorkout`: the route copied point for point. */
  method RouteArray(route: seq<RoutePoint>) returns (arr: seq<JsValue>)
    ensures |arr| == |route|
    ensures forall i :: 0 <= i < |route| ==> arr[i] == PointJs(route[i])
  {
    arr := [];
    var i := 0;
    while i < |route|
      invariant 0 <= i <= |route|
      invariant |arr| == i
      invariant forall j :: 0 <= j < i ==> arr[j] == PointJs(route[j])
    {
      var routeObject := new JsObject();
      routeObject.Put("timestamp", JTime(route[i].time));
      routeObject.Put("lat", JNum(route[i].latitude));
      routeObject.Put("lng", JNum(route[i].longitude));
      routeObject.Put("alt", if route[i].altitude.Some? then JNum(route[i].altitude.value) else JNull);
      arr := arr + [JObj(routeObject.entries)];
      i := i + 1;
    }
  }

  function RouteJs(route: seq<RoutePoint>): seq<JsValue>
  {
    seq(|route|, i requires 0 <= i < |route| => PointJs(route[i]))
  }

  // ---------------------------------------------------------------------
  // Whole workouts
  // ---------------------------------------------------------------------

  datatype WorkoutOptions = WorkoutOptions(includeHeartRate: bool, includeRoute: bool, includeSteps: bool)

  /** The heart-rate field: only when asked for and granted; both the
      permission query and the read may throw. */
  function HeartRateEntry(hc: HealthConnect, w: ExerciseSession, wanted: bool): Result<Option<JsValue>>
  {
    if !wanted then Success(None)
    else
      var granted :- HasPermission(hc, ReadHeartRate);
      if !granted then Success(None)
      else
        var records :- hc.heartRateRecords(SessionRange(w));
        Success(Some(JArr(HeartRateJs(records))))
  }

  /** The object `queryWorkouts` builds for one session. */
  function WorkoutEntries(hc: HealthConnect, w: ExerciseSession, opts: WorkoutOptions): Result<map<string, JsValue>>
  {
    var writes :- MetricWrites(hc, w, opts.includeSteps);
    var withMetrics := ApplyWrites(BaseEntries(w), writes);
    var heartRate :- HeartRateEntry(hc, w, opts.includeHeartRate);
    var withHeartRate := if heartRate.Some? then withMetrics["heartRate" := heartRate.value] else withMetrics;
    if opts.includeRoute && w.routeResult.RouteData? then
      Success(withHeartRate["route" := JArr(RouteJs(w.routeResult.route))])
    else
      Success(withHeartRate)
  }

  /** The fields put before any metric, in the order the bridge puts them. */
  method NewWorkoutObject(w: ExerciseSession) returns (workoutObject: JsObject)
    ensures fresh(workoutObject)
    ensures workoutObject.entries == BaseEntries(w)
  {
    workoutObject := new JsObject();
    workoutObject.Put("id", JStr(w.metadata.id));
    workoutObject.Put("sourceName", JStr(DeviceModel(w) + DeviceModel(w)));
    workoutObject.Put("sourceBundleId", JStr(w.metadata.packageName));
    workoutObject.Put("startDate", JTime(w.startTime));
    workoutObject.Put("endDate", JTime(w.endTime));
    workoutObject.Put("workoutType", JStr(ExerciseTypeLabel(w.exerciseType)));
    workoutObject.Put("title", TitleValue(w.title));
    var duration := if w.segments == [] then w.endTime.epochSecond - w.startTime.epochSecond
                    else SegmentSeconds(w.segments);
    workoutObject.Put("duration", JInt(duration));
  }

  /** The heart-rate step of `queryWorkouts` (`queryHeartRateForWorkout`
      when asked for and granted). */
  method AddHeartRate(hc: HealthConnect, w: ExerciseSession, workoutObject: JsObject, wanted: bool)
    returns (r: Result<()>)
    modifies workoutObject
    ensures HeartRateEntry(hc, w, wanted).Failure? ==> r == Failure(HeartRateEntry(hc, w, wanted).error)
    ensures HeartRateEntry(hc, w, wanted).Success? ==>
      && r.Success?
      && workoutObject.entries ==
           (if HeartRateEntry(hc, w, wanted).value.Some?
            then old(workoutObject.entries)["heartRate" := HeartRateEntry(hc, w, wanted).value.value]
            else old(workoutObject.entries))
  {
    if wanted {
      var granted :- HasPermission(hc, ReadHeartRate);
      if granted {
        var records := hc.heartRateRecords(SessionRange(w));
        if records.Failure? {
          return Failure(records.error);
        }
        var heartRates := HeartRateArray(records.value);
        workoutObject.Put("heartRate", JArr(heartRates));
      }
    }
    return Success(());
  }

  /** The loop body of `queryWorkouts`: puts the base fields, adds the
      metrics, then the heart rate and the route. */
  method BuildWorkout(hc: HealthConnect, w: ExerciseSession, opts: WorkoutOptions)
    returns (r: Result<map<string, JsValue>>)
    ensures r == WorkoutEntries(hc, w, opts)
    ensures r == BuildSession(hc, opts)(w)
  {
    var workoutObject := NewWorkoutObject(w);
    var metrics := AddMetrics(hc, w, workoutObject, opts.includeSteps);
    if metrics.Failure? {
      return Failure(metrics.error);
    }
    var heartRate := AddHeartRate(hc, w, workoutObject, opts.includeHeartRate);
    if heartRate.Failure? {
      return Failure(heartRate.error);
    }
    if opts.includeRoute && w.routeResult.RouteData? {
      var route := RouteArray(w.routeResult.route);
      assert route == RouteJs(w.routeResult.route);
      workoutObject.Put("route", JArr(route));
    }
    return Success(workoutObject.entries);
  }

  /** Builds one item after another in order: all of them, or the failure
      of the first one that fails. */
  function BuildEach<T, U>(build: T -> Result<U>, items: seq<T>): Result<seq<U>>
  {
    if items == [] then Success([])
    else
      var built :- BuildEach(build, items[..|items| - 1]);
      var last :- build(items[|items| - 1]);
      Success(built + [last])
  }

  /** When every item builds, the result holds each item's value in order;
      and conversely. */
  lemma {:induction false} BuildEachSucceeds<T, U>(build: T -> Result<U>, items: seq<T>)
    ensures BuildEach(build, items).Success? <==> forall j :: 0 <= j < |items| ==> build(items[j]).Success?
    ensures BuildEach(build, items).Success? ==>
      |BuildEach(build, items).value| == |items| &&
      forall j :: 0 <= j < |items| ==> build(items[j]) == Success(BuildEach(build, items).value[j])
  {
    if items != [] {
      var init := items[..|items| - 1];
      BuildEachSucceeds(build, init);
      assert forall j :: 0 <= j < |init| ==> items[j] == init[j];
    }
  }

  /** The failure is that of the first item that fails. */
  lemma {:induction false} BuildEachFirstFailure<T, U>(build: T -> Result<U>, items: seq<T>, k: nat)
    requires k < |items|
    requires forall j :: 0 <= j < k ==> build(items[j]).Success?
    requires build(items[k]).Failure?
    ensures BuildEach(build, items) == Failure(build(items[k]).error)
  {
    var init := items[..|items| - 1];
    if k < |items| - 1 {
      assert forall j :: 0 <= j <= k ==> init[j] == items[j];
      BuildEachFirstFailure(build, init, k);
    } else {
      BuildEachSucceeds(build, init);
      assert forall j :: 0 <= j < |init| ==> init[j] == items[j];
    }
  }

  /** A failure right after a prefix that builds is the result's failure. */
  lemma BuildEachFailsAt<T, U>(build: T -> Result<U>, items: seq<T>, k: nat)
    requires k < |items|
    requires BuildEach(build, items[..k]).Success?
    requires build(items[k]).Failure?
    ensures BuildEach(build, items) == Failure(build(items[k]).error)
  {
    BuildEachSucceeds(build, items[..k]);
    assert forall j :: 0 <= j < k ==> items[..k][j] == items[j];
    BuildEachFirstFailure(build, items, k);
  }

  /** One more item that builds extends the result by its value. */
  lemma BuildEachStep<T, U>(build: T -> Result<U>, items: seq<T>, k: nat, built: seq<U>, last: U)
    requires k < |items|
    requires BuildEach(build, items[..k]) == Success(built)
    requires build(items[k]) == Success(last)
    ensures BuildEach(build, items[..k + 1]) == Success(built + [last])
  {
    assert items[..k + 1][..k] == items[..k];
  }

  /** One session's object, as a function of the session. */
  function BuildSession(hc: HealthConnect, opts: WorkoutOptions): ExerciseSession -> Result<map<string, JsValue>>
  {
    w => WorkoutEntries(hc, w, opts)
  }

  const MissingDates: string := "Missing required parameters: startDate or endDate"

  /** `queryWorkouts` as the caller sees it: missing dates are refused
      before anything is read; any exception while reading or building is
      reported as "Error querying workouts: …". */
  function QueryWorkoutsResult(hc: HealthConnect, startDate: Option<Instant>, endDate: Option<Instant>,
                               opts: WorkoutOptions): Result<seq<map<string, JsValue>>>
  {
    if startDate.None? || endDate.None? then Failure(MissingDates)
    else if hc.exerciseSessions.Failure? then Failure("Error querying workouts: " + hc.exerciseSessions.error)
    else
      match BuildEach(BuildSession(hc, opts), hc.exerciseSessions.value)
      case Failure(e) => Failure("Error querying workouts: " + e)
      case Success(workouts) => Success(workouts)
  }

  /** `queryWorkouts`: one object per session, in the platform's order. */
  method QueryWorkouts(hc: HealthConnect, startDate: Option<Instant>, endDate: Option<Instant>,
                       opts: WorkoutOptions) returns (r: Result<seq<map<string, JsValue>>>)
    ensures r == QueryWorkoutsResult(hc, startDate, endDate, opts)
  {
    if startDate.None? || endDate.None? {
      return Failure(MissingDates);
    }
    if hc.exerciseSessions.Failure? {
      return Failure("Error querying workouts: " + hc.exerciseSessions.error);
    }
    var sessions := hc.exerciseSessions.value;
    ghost var build := BuildSession(hc, opts);
    var workoutsArray: seq<map<string, JsValue>> := [];
    var i := 0;
    while i < |sessions|
      invariant 0 <= i <= |sessions|
      invariant BuildEach(build, sessions[..i]) == Success(workoutsArray)
    {
      var workout := BuildWorkout(hc, sessions[i], opts);
      if workout.Failure? {
        BuildEachFailsAt(build, sessions, i);
        return Failure("Error querying workouts: " + workout.error);
      }
      BuildEachStep(build, sessions, i, workoutsArray, workout.value);
      workoutsArray := workoutsArray + [workout.value];
      i := i + 1;
    }
    assert sessions[..i] == sessions;
    return Success(workoutsArray);
  }

  /** Every session yields exactly one workout, in order, when nothing
      throws; the first session that throws decides the error. */
  lemma OneWorkoutPerSession(hc: HealthConnect, startDate: Instant, endDate: Instant, opts: WorkoutOptions)
    requires hc.exerciseSessions.Success?
    ensures var sessions := hc.exerciseSessions.value;
      var r := QueryWorkoutsResult(hc, Some(startDate), Some(endDate), opts);
      r.Success? ==>
        |r.value| == |sessions| &&
        forall j :: 0 <= j < |sessions| ==> WorkoutEntries(hc, sessions[j], opts) == Success(r.value[j])
  {
    BuildEachSucceeds(BuildSession(hc, opts), hc.exerciseSessions.value);
  }
}
