/** The record queries of the Android bridge that copy Health Connect
    records into JavaScript objects one by one: sleep sessions with their
    stages, basal body temperature, blood glucose, oxygen saturation and
    heart rate. */
module Vitals {
  import opened Results
  import opened Platform
  import opened Json
  import opened Labels
  import opened Workouts

  // ---------------------------------------------------------------------
  // The shape every record query shares
  // ---------------------------------------------------------------------

  /** What a record query resolves with or rejects: missing dates are
      refused before anything is read; a read that throws is reported
      under the query's own prefix; otherwise the records' objects, in
      the platform's order, under the query's one key. */
  function RecordQuery<R>(startDate: Option<Instant>, endDate: Option<Instant>, records: Result<seq<R>>,
                          errorPrefix: string, key: string, project: R -> JsValue): (r: Result<map<string, JsValue>>)
  {
    if startDate.None? || endDate.None? then Failure(MissingDates)
    else if records.Failure? then Failure(errorPrefix + records.error)
    else Success(map[key := JArr(Project(project, records.value))])
  }

  function Project<R>(project: R -> JsValue, records: seq<R>): seq<JsValue>
  {
    seq(|records|, i requires 0 <= i < |records| => project(records[i]))
  }

  /** A record query answers with exactly one key holding one object per
      record, in order; it rejects with the missing-dates message or with
      its prefix and the platform's message, and with nothing else. */
  lemma RecordQueryOutcomes<R>(startDate: Option<Instant>, endDate: Option<Instant>, records: Result<seq<R>>,
                               errorPrefix: string, key: string, project: R -> JsValue)
    ensures var r := RecordQuery(startDate, endDate, records, errorPrefix, key, project);
      && (r.Success? <==> startDate.Some? && endDate.Some? && records.Success?)
      && (startDate.None? || endDate.None? ==> r == Failure(MissingDates))
      && (startDate.Some? && endDate.Some? && records.Failure? ==> r == Failure(errorPrefix + records.error))
      && (r.Success? ==>
            && r.value.Keys == {key}
            && r.value[key].JArr?
            && |r.value[key].items| == |records.value|
            && forall i :: 0 <= i < |records.value| ==> r.value[key].items[i] == project(records.value[i]))
  {
  }

  /** One more record's object extends the prefix built so far. */
  lemma ProjectPrefix<R>(project: R -> JsValue, records: seq<R>, i: nat)
    requires i < |records|
    ensures Project(project, records)[..i + 1] == Project(project, records)[..i] + [project(records[i])]
  {
  }

  /** Records split in two pages give the pages' objects one after the
      other. */
  lemma ProjectAppend<R>(project: R -> JsValue, a: seq<R>, b: seq<R>)
    ensures Project(project, a + b) == Project(project, a) + Project(project, b)
  {
  }

  // ---------------------------------------------------------------------
  // Sleep
  // ---------------------------------------------------------------------

  function StageEntries(stage: SleepStage): map<string, JsValue>
  {
    map["startDate" := JTime(stage.startTime), "endDate" := JTime(stage.endTime),
        "stage" := JStr(SleepStageLabel(stage.stage))]
  }

  function StageJs(stage: SleepStage): JsValue
  {
    JObj(StageEntries(stage))
  }

  function SleepEntries(s: SleepSession): map<string, JsValue>
  {
    map["id" := JStr(s.metadata.id), "startDate" := JTime(s.startTime), "endDate" := JTime(s.endTime),
        "stages" := JArr(Project(StageJs, s.stages))]
  }

  function SleepJs(s: SleepSession): JsValue
  {
    JObj(SleepEntries(s))
  }

  /** The stages of one session, as the inner loop of `querySleep` builds
      them. */
  method StagesArray(stages: seq<SleepStage>) returns (stagesArr: seq<JsValue>)
    ensures stagesArr == Project(StageJs, stages)
  {
    stagesArr := [];
    var k := 0;
    while k < |stages|
      invariant 0 <= k <= |stages|
      invariant stagesArr == Project(StageJs, stages)[..k]
    {
      var stageObj := new JsObject();
      stageObj.Put("startDate", JTime(stages[k].startTime));
      stageObj.Put("endDate", JTime(stages[k].endTime));
      stageObj.Put("stage", JStr(SleepStageLabel(stages[k].stage)));
      ProjectPrefix(StageJs, stages, k);
      stagesArr := stagesArr + [JObj(stageObj.entries)];
      k := k + 1;
    }
  }

  function QuerySleepResult(hc: HealthConnect, startDate: Option<Instant>, endDate: Option<Instant>)
    : Result<map<string, JsValue>>
  {
    RecordQuery(startDate, endDate, hc.sleepSessions, "Error querying sleep sessions: ", "sleepSessions", SleepJs)
  }

  /** `querySleep`. */
  method QuerySleep(hc: HealthConnect, startDate: Option<Instant>, endDate: Option<Instant>)
    returns (r: Result<map<string, JsValue>>)
    ensures r == QuerySleepResult(hc, startDate, endDate)
  {
    if startDate.None? || endDate.None? {
      return Failure(MissingDates);
    }
    if hc.sleepSessions.Failure? {
      return Failure("Error querying sleep sessions: " + hc.sleepSessions.error);
    }
    var records := hc.sleepSessions.value;
    var arr: seq<JsValue> := [];
    var i := 0;
    while i < |records|
      invariant 0 <= i <= |records|
      invariant arr == Project(SleepJs, records)[..i]
    {
      var s := records[i];
      var obj := new JsObject();
      obj.Put("id", JStr(s.metadata.id));
      obj.Put("startDate", JTime(s.startTime));
      obj.Put("endDate", JTime(s.endTime));
      var stagesArr := StagesArray(s.stages);
      obj.Put("stages", JArr(stagesArr));
      ProjectPrefix(SleepJs, records, i);
      arr := arr + [JObj(obj.entries)];
      i := i + 1;
    }
    assert arr == Project(SleepJs, records);
    return Success(map["sleepSessions" := JArr(arr)]);
  }

  /** Every stage of a session is reported, in order, with its times and
      its label; a known label gives the stage's code back, and "UNKNOWN"
      stands both for code 0 and for every code the table lacks. */
  lemma SleepStagesReported(s: SleepSession, k: nat)
    requires k < |s.stages|
    ensures SleepEntries(s)["stages"].JArr? && |SleepEntries(s)["stages"].items| == |s.stages|
    ensures SleepEntries(s)["stages"].items[k] == JObj(StageEntries(s.stages[k]))
    ensures var stage := s.stages[k];
      var reported := StageEntries(stage);
      && reported["startDate"] == JTime(stage.startTime)
      && reported["endDate"] == JTime(stage.endTime)
      && (reported["stage"] == JStr("UNKNOWN") <==> stage.stage == 0 || stage.stage !in SleepTypeMapping)
      && (forall code ::
            (code in SleepTypeMapping && stage.stage in SleepTypeMapping &&
             reported["stage"] == JStr(SleepStageLabel(code))) ==> code == stage.stage)
  {
    var stage := s.stages[k];
    assert Project(StageJs, s.stages)[k] == StageJs(stage);
    SleepStageUnknownIff(stage.stage);
    forall code | code in SleepTypeMapping && stage.stage in SleepTypeMapping && code != stage.stage
      ensures SleepStageLabel(code) != SleepStageLabel(stage.stage)
    {
      SleepStageLabelsDistinct(code, stage.stage);
    }
  }

  // ---------------------------------------------------------------------
  // Basal body temperature, blood glucose, oxygen saturation
  // ---------------------------------------------------------------------

  function BasalBodyTemperatureJs(s: BasalBodyTemperatureRecord): JsValue
  {
    JObj(map["id" := JStr(s.metadata.id), "sampleDate" := JTime(s.time),
             "temperatureCelsius" := JNum(s.temperatureCelsius)])
  }

  function QueryBasalBodyTemperatureResult(hc: HealthConnect, startDate: Option<Instant>, endDate: Option<Instant>)
    : Result<map<string, JsValue>>
  {
    RecordQuery(startDate, endDate, hc.basalBodyTemperatures, "Error querying basal body temperature: ",
                "basalBodyTemperatureSessions", BasalBodyTemperatureJs)
  }

  /** `queryBasalBodyTemperature`. */
  method QueryBasalBodyTemperature(hc: HealthConnect, startDate: Option<Instant>, endDate: Option<Instant>)
    returns (r: Result<map<string, JsValue>>)
    ensures r == QueryBasalBodyTemperatureResult(hc, startDate, endDate)
  {
    if startDate.None? || endDate.None? {
      return Failure(MissingDates);
    }
    if hc.basalBodyTemperatures.Failure? {
      return Failure("Error querying basal body temperature: " + hc.basalBodyTemperatures.error);
    }
    var records := hc.basalBodyTemperatures.value;
    var arr: seq<JsValue> := [];
    var i := 0;
    while i < |records|
      invariant 0 <= i <= |records|
      invariant arr == Project(BasalBodyTemperatureJs, records)[..i]
    {
      var obj := new JsObject();
      obj.Put("id", JStr(records[i].metadata.id));
      obj.Put("sampleDate", JTime(records[i].time));
      obj.Put("temperatureCelsius", JNum(records[i].temperatureCelsius));
      ProjectPrefix(BasalBodyTemperatureJs, records, i);
      arr := arr + [JObj(obj.entries)];
      i := i + 1;
    }
    assert arr == Project(BasalBodyTemperatureJs, records);
    return Success(map["basalBodyTemperatureSessions" := JArr(arr)]);
  }

  function BloodGlucoseJs(s: BloodGlucoseRecord): JsValue
  {
    JObj(map["id" := JStr(s.metadata.id), "sampleDate" := JTime(s.time), "level" := JNum(s.levelMgPerDl),
             "specimenSource" := JStr(SpecimenSourceLabel(s.specimenSource)),
             "mealType" := JStr(MealTypeLabel(s.mealType)),
             "relationToMeal" := JStr(RelationToMealLabel(s.relationToMeal))])
  }

  function QueryBloodGlucoseResult(hc: HealthConnect, startDate: Option<Instant>, endDate: Option<Instant>)
    : Result<map<string, JsValue>>
  {
    RecordQuery(startDate, endDate, hc.bloodGlucose, "Error querying blood glucose: ",
                "bloodGlucoseSessions", BloodGlucoseJs)
  }

  /** `queryBloodGlucose`. */
  method QueryBloodGlucose(hc: HealthConnect, startDate: Option<Instant>, endDate: Option<Instant>)
    returns (r: Result<map<string, JsValue>>)
    ensures r == QueryBloodGlucoseResult(hc, startDate, endDate)
  {
    if startDate.None? || endDate.None? {
      return Failure(MissingDates);
    }
    if hc.bloodGlucose.Failure? {
      return Failure("Error querying blood glucose: " + hc.bloodGlucose.error);
    }
    var records := hc.bloodGlucose.value;
    var arr: seq<JsValue> := [];
    var i := 0;
    while i < |records|
      invariant 0 <= i <= |records|
      invariant arr == Project(BloodGlucoseJs, records)[..i]
    {
      var s := records[i];
      var obj := new JsObject();
      obj.Put("id", JStr(s.metadata.id));
      obj.Put("sampleDate", JTime(s.time));
      obj.Put("level", JNum(s.levelMgPerDl));
      obj.Put("specimenSource", JStr(SpecimenSourceLabel(s.specimenSource)));
      obj.Put("mealType", JStr(MealTypeLabel(s.mealType)));
      obj.Put("relationToMeal", JStr(RelationToMealLabel(s.relationToMeal)));
      ProjectPrefix(BloodGlucoseJs, records, i);
      arr := arr + [JObj(obj.entries)];
      i := i + 1;
    }
    assert arr == Project(BloodGlucoseJs, records);
    return Success(map["bloodGlucoseSessions" := JArr(arr)]);
  }

  /** The three codes of a glucose reading are reported as labels that give
      each known code back; "UNKNOWN" stands for code 0 and for codes the
      tables lack. */
  lemma GlucoseCodesReported(s: BloodGlucoseRecord, specimenSource: int, mealType: int, relationToMeal: int)
    ensures var reported := BloodGlucoseJs(s).fields;
      && (reported["specimenSource"] == JStr("UNKNOWN") <==>
            s.specimenSource == 0 || s.specimenSource !in SpecimenSourceMapping)
      && (reported["mealType"] == JStr("UNKNOWN") <==> s.mealType == 0 || s.mealType !in MealTypeMapping)
      && (reported["relationToMeal"] == JStr("UNKNOWN") <==>
            s.relationToMeal == 0 || s.relationToMeal !in RelationToMealMapping)
      && ((specimenSource in SpecimenSourceMapping && s.specimenSource in SpecimenSourceMapping &&
           reported["specimenSource"] == JStr(SpecimenSourceLabel(specimenSource))) ==>
            specimenSource == s.specimenSource)
      && ((mealType in MealTypeMapping && s.mealType in MealTypeMapping &&
           reported["mealType"] == JStr(MealTypeLabel(mealType))) ==> mealType == s.mealType)
      && ((relationToMeal in RelationToMealMapping && s.relationToMeal in RelationToMealMapping &&
           reported["relationToMeal"] == JStr(RelationToMealLabel(relationToMeal))) ==>
            relationToMeal == s.relationToMeal)
  {
    GlucoseUnknownIff(s.specimenSource);
    GlucoseUnknownIff(s.mealType);
    GlucoseUnknownIff(s.relationToMeal);
    if specimenSource in SpecimenSourceMapping && s.specimenSource in SpecimenSourceMapping &&
       specimenSource != s.specimenSource {
      SpecimenSourceLabelsDistinct(specimenSource, s.specimenSource);
    }
    if mealType in MealTypeMapping && s.mealType in MealTypeMapping && mealType != s.mealType {
      MealTypeLabelsDistinct(mealType, s.mealType);
    }
    if relationToMeal in RelationToMealMapping && s.relationToMeal in RelationToMealMapping &&
       relationToMeal != s.relationToMeal {
      RelationToMealLabelsDistinct(relationToMeal, s.relationToMeal);
    }
  }

  function OxygenSaturationJs(s: OxygenSaturationRecord): JsValue
  {
    JObj(map["id" := JStr(s.metadata.id), "sampleDate" := JTime(s.time), "percentage" := JNum(s.percentage)])
  }

  function QueryOxygenSaturationResult(hc: HealthConnect, startDate: Option<Instant>, endDate: Option<Instant>)
    : Result<map<string, JsValue>>
  {
    RecordQuery(startDate, endDate, hc.oxygenSaturation, "Error querying oxygen saturation: ",
                "oxygenSaturationSessions", OxygenSaturationJs)
  }

  /** `queryOxygenSaturation`. */
  method QueryOxygenSaturation(hc: HealthConnect, startDate: Option<Instant>, endDate: Option<Instant>)
    returns (r: Result<map<string, JsValue>>)
    ensures r == QueryOxygenSaturationResult(hc, startDate, endDate)
  {
    if startDate.None? || endDate.None? {
      return Failure(MissingDates);
    }
    if hc.oxygenSaturation.Failure? {
      return Failure("Error querying oxygen saturation: " + hc.oxygenSaturation.error);
    }
    var records := hc.oxygenSaturation.value;
    var arr: seq<JsValue> := [];
    var i := 0;
    while i < |records|
      invariant 0 <= i <= |records|
      invariant arr == Project(OxygenSaturationJs, records)[..i]
    {
      var obj := new JsObject();
      obj.Put("id", JStr(records[i].metadata.id));
      obj.Put("sampleDate", JTime(records[i].time));
      obj.Put("percentage", JNum(records[i].percentage));
      ProjectPrefix(OxygenSaturationJs, records, i);
      arr := arr + [JObj(obj.entries)];
      i := i + 1;
    }
    assert arr == Project(OxygenSaturationJs, records);
    return Success(map["oxygenSaturationSessions" := JArr(arr)]);
  }

  // ---------------------------------------------------------------------
  // Heart rate
  // ---------------------------------------------------------------------

  /** A heart-rate record's object once its loop iteration is over. */
  function MeasurementEntries(s: HeartRateRecord): map<string, JsValue>
  {
    map["id" := JStr(s.metadata.id), "startDate" := JTime(s.startTime), "endDate" := JTime(s.endTime),
        "HeartRateSamples" := JArr(Project(SampleJs, s.samples))]
  }

  /** `queryHeartRate`'s array as written: each record's object is put
      twice, and since both entries are the same object, both show the
      samples added after the first put. */
  function MeasurementsJs(records: seq<HeartRateRecord>): seq<JsValue>
  {
    seq(2 * |records|, j requires 0 <= j < 2 * |records| => JObj(MeasurementEntries(records[j / 2])))
  }

  /** What the array holds once serialized: each object's current fields. */
  function Snapshot(objs: seq<JsObject>): seq<JsValue>
    reads objs
  {
    seq(|objs|, j reads objs requires 0 <= j < |objs| => JObj(objs[j].entries))
  }

  /** The samples of one heart-rate record, as the inner loop of
      `queryHeartRate` builds them. */
  method SamplesArray(samples: seq<HeartRateSample>) returns (stagesArr: seq<JsValue>)
    ensures stagesArr == Project(SampleJs, samples)
  {
    stagesArr := [];
    var k := 0;
    while k < |samples|
      invariant 0 <= k <= |samples|
      invariant stagesArr == Project(SampleJs, samples)[..k]
    {
      var stageObj := new JsObject();
      stageObj.Put("timestamp", JTime(samples[k].time));
      stageObj.Put("bpm", JInt(samples[k].beatsPerMinute));
      ProjectPrefix(SampleJs, samples, k);
      stagesArr := stagesArr + [JObj(stageObj.entries)];
      k := k + 1;
    }
  }

  /** The body of `queryHeartRate` once the records are read. The array
      holds references, so an object put before its last field is set
      shows that field. */
  method HeartRateMeasurements(records: seq<HeartRateRecord>) returns (out: seq<JsValue>)
    ensures out == MeasurementsJs(records)
  {
    var arr: seq<JsObject> := [];
    var i := 0;
    while i < |records|
      invariant 0 <= i <= |records|
      invariant |arr| == 2 * i
      invariant forall j :: 0 <= j < 2 * i ==> allocated(arr[j])
      invariant forall j :: 0 <= j < 2 * i ==> arr[j].entries == MeasurementEntries(records[j / 2])
    {
      var s := records[i];
      var obj := new JsObject();
      obj.Put("id", JStr(s.metadata.id));
      obj.Put("startDate", JTime(s.startTime));
      obj.Put("endDate", JTime(s.endTime));
      arr := arr + [obj];
      var stagesArr := SamplesArray(s.samples);
      obj.Put("HeartRateSamples", JArr(stagesArr));
      arr := arr + [obj];
      assert (2 * i) / 2 == i && (2 * i + 1) / 2 == i;
      i := i + 1;
    }
    out := Snapshot(arr);
  }

  function QueryHeartRateResult(hc: HealthConnect, startDate: Option<Instant>, endDate: Option<Instant>)
    : Result<map<string, JsValue>>
  {
    if startDate.None? || endDate.None? then Failure(MissingDates)
    else
      match hc.heartRateRecords(TimeRange(startDate.value, endDate.value))
      case Failure(e) => Failure("Error querying heart rate: " + e)
      case Success(records) => Success(map["heartRateMeasurements" := JArr(MeasurementsJs(records))])
  }

  /** `queryHeartRate`: the records of the requested range, each listed
      twice. */
  method QueryHeartRate(hc: HealthConnect, startDate: Option<Instant>, endDate: Option<Instant>)
    returns (r: Result<map<string, JsValue>>)
    ensures r == QueryHeartRateResult(hc, startDate, endDate)
  {
    if startDate.None? || endDate.None? {
      return Failure(MissingDates);
    }
    var response := hc.heartRateRecords(TimeRange(startDate.value, endDate.value));
    if response.Failure? {
      return Failure("Error querying heart rate: " + response.error);
    }
    var arr := HeartRateMeasurements(response.value);
    return Success(map["heartRateMeasurements" := JArr(arr)]);
  }

  /** The intended array: one object per record, in order. */
  function IntendedMeasurementsJs(records: seq<HeartRateRecord>): seq<JsValue>
  {
    Project(s => JObj(MeasurementEntries(s)), records)
  }

  /** Every record is listed twice in a row, both times with its samples:
      the array is the intended one with each entry doubled. */
  lemma EachMeasurementListedTwice(records: seq<HeartRateRecord>)
    ensures |MeasurementsJs(records)| == 2 * |IntendedMeasurementsJs(records)|
    ensures forall i :: 0 <= i < |records| ==>
      MeasurementsJs(records)[2 * i] == MeasurementsJs(records)[2 * i + 1] == IntendedMeasurementsJs(records)[i]
  {
    forall i | 0 <= i < |records|
      ensures MeasurementsJs(records)[2 * i] == MeasurementsJs(records)[2 * i + 1] == IntendedMeasurementsJs(records)[i]
    {
      assert (2 * i) / 2 == i && (2 * i + 1) / 2 == i;
    }
  }

  /** A single record already yields two measurements, the second one a
      full copy of the record. */
  lemma OneRecordTwoMeasurements(s: HeartRateRecord)
    ensures |MeasurementsJs([s])| == 2 != |IntendedMeasurementsJs([s])|
    ensures MeasurementsJs([s])[1].fields["id"] == JStr(s.metadata.id)
  {
  }

  /** The intended array has one object per record, each with the
      record's identity and every one of its samples in order. */
  lemma IntendedOnePerRecord(records: seq<HeartRateRecord>)
    ensures |IntendedMeasurementsJs(records)| == |records|
    ensures forall i :: 0 <= i < |records| ==>
      && IntendedMeasurementsJs(records)[i].fields["id"] == JStr(records[i].metadata.id)
      && |IntendedMeasurementsJs(records)[i].fields["HeartRateSamples"].items| == |records[i].samples|
      && forall k :: 0 <= k < |records[i].samples| ==>
           IntendedMeasurementsJs(records)[i].fields["HeartRateSamples"].items[k] == SampleJs(records[i].samples[k])
  {
  }
}
