# Health bridge (Android side) — a Dafny model

This project models the Android half of a Capacitor plugin that exposes
Google Health Connect to a web app: `HealthPlugin.kt`. The plugin

- names 39 read permissions (`CapHealthPermission`), parses the names a
  JavaScript caller sends, maps each one to its native
  `android.permission.health.*` string, and answers permission checks by
  comparing the text after the last `.` of each string;
- keeps one slot for the permission request whose system dialog is open,
  and answers that request from the dialog's callback;
- answers aggregated queries (steps, calories, distance per day) from a
  registry of metrics, each gated by its own permission;
- turns exercise sessions into workout objects: identity, labels, a
  duration that leaves out pauses, the metrics the user granted (total
  calories first, active calories as the fallback), and optionally heart
  rate and route;
- turns sleep sessions, basal body temperature, blood glucose, oxygen
  saturation and heart-rate records into JavaScript arrays.

The Health Connect client is a value (`Platform.HealthConnect`) whose
fields are the answers each platform call would give (a `Result`, since
every call may throw). JavaScript objects are `Json.JsValue`. The workout
object, which the source fills field by field, is a `Json.JsObject`
class. The plugin itself is the `Plugin.HealthPlugin` class. Its fields
are the availability flag, the client, the request slot, the log of
answers given to calls, and the permission sets handed to the dialog.

Modules, one per file: `Results`, `PermissionCatalog` (catalog.dfy),
`PermissionLookup` (lookup.dfy), `PermissionGate` (gate.dfy),
`PermissionGateFacts` (gate_facts.dfy), `Platform`, `Json`, `Labels`,
`Aggregation`, `Workouts`, `Vitals`, `Plugin`.

Behaviour kept as the code has it:
- `sourceName` is the device model written twice.
- Start and end dates are never compared with each other: the plugin
  passes them on unchecked to the platform's range filter.
- "mindfulness" is not an aggregated data type.
- The name `READ_TOTAL_CALORIES_BURNED` is no enum constant, so a request
  for it is silently dropped. The TypeScript declarations offer that
  name; the Kotlin enum calls the permission `READ_TOTAL_CALORIES`.
- The permission callback answers the waiting call but does not empty the
  slot, and a second request replaces the first one without answering it.
- `queryHeartRate` lists every record twice (see Findings).

## Model

| member | source | states |
|---|---|---|
| PermissionCatalog.EntryIsWellFormed | android/src/main/java/com/fit_up/health/capacitor/HealthPlugin.kt:260-301 | each constant's enum name and native name are keyed by length and two characters, and its native name has no '.' |
| PermissionCatalog.NameInjective | android/src/main/java/com/fit_up/health/capacitor/HealthPlugin.kt:36-37 | no two enum constants share a name, so `valueOf` is well defined |
| PermissionCatalog.NativeNameInjective | android/src/main/java/com/fit_up/health/capacitor/HealthPlugin.kt:260-301 | no two permissions map to the same native permission |
| PermissionCatalog.NoNameWithKey | android/src/main/java/com/fit_up/health/capacitor/HealthPlugin.kt:41-47 | a string whose key no constant owns is no enum name |
| PermissionCatalog.NativeNameUndotted | android/src/main/java/com/fit_up/health/capacitor/HealthPlugin.kt:260-301 | no native name contains '.', so the namespace ends at the last '.' |
| PermissionLookup.EveryPermissionListed | android/src/main/java/com/fit_up/health/capacitor/HealthPlugin.kt:36-37 | the list of values holds every constant |
| PermissionLookup.From | android/src/main/java/com/fit_up/health/capacitor/HealthPlugin.kt:41-47 | `from(s)` finds the constant named `s`, and gives null exactly when no constant has that name |
| PermissionLookup.FromName | android/src/main/java/com/fit_up/health/capacitor/HealthPlugin.kt:41-47 | every constant parses back from its own name |
| PermissionLookup.ParsePermissions | android/src/main/java/com/fit_up/health/capacitor/HealthPlugin.kt:312-313 | a permission is in the parsed set iff its name is among the requested strings; other strings are dropped |
| PermissionLookup.TotalCaloriesBurnedIsNoName | android/src/main/java/com/fit_up/health/capacitor/HealthPlugin.kt:36-37 | "READ_TOTAL_CALORIES_BURNED" is no enum name |
| PermissionLookup.TotalCaloriesBurnedIsDropped | android/src/main/java/com/fit_up/health/capacitor/HealthPlugin.kt:312-313 | a request for "READ_TOTAL_CALORIES_BURNED" parses to nothing |
| PermissionLookup.MappingIsTotal | android/src/main/java/com/fit_up/health/capacitor/HealthPlugin.kt:260-301 | every permission has a native string: the namespace plus its native name |
| PermissionGate.LastIndexOfDot | android/src/main/java/com/fit_up/health/capacitor/HealthPlugin.kt:332 | the index found holds '.', and no '.' follows it; -1 when there is none |
| PermissionGate.AfterLastDotOfQualified | android/src/main/java/com/fit_up/health/capacitor/HealthPlugin.kt:337 | whatever namespace precedes the last '.', the text after it is the undotted name |
| PermissionGate.GrantedPermissionResult | android/src/main/java/com/fit_up/health/capacitor/HealthPlugin.kt:330-345 | one entry per requested permission, under its name and no other key, telling whether the suffix test grants it |
| PermissionGateFacts.NativeIsQualified | android/src/main/java/com/fit_up/health/capacitor/HealthPlugin.kt:260-301 | each native string is the namespace, '.', and an undotted name |
| PermissionGateFacts.SuffixGrantedIff | android/src/main/java/com/fit_up/health/capacitor/HealthPlugin.kt:332-337 | for a qualified string, the suffix test holds iff some granted string has the same text after its last '.' |
| PermissionGateFacts.IsGrantedIff | android/src/main/java/com/fit_up/health/capacitor/HealthPlugin.kt:330-340 | a permission is reported granted iff some granted string's suffix is its native name |
| PermissionGateFacts.GrantedFromAnyNamespace | android/src/main/java/com/fit_up/health/capacitor/HealthPlugin.kt:525-528 | a granted string from any namespace that ends in the native name grants the permission |
| PermissionGateFacts.SuffixTestIsMembership | android/src/main/java/com/fit_up/health/capacitor/HealthPlugin.kt:525-528 | within one namespace, the suffix test is plain membership of the qualified string |
| PermissionGateFacts.GrantedIffNativeGranted | android/src/main/java/com/fit_up/health/capacitor/HealthPlugin.kt:330-340 | for strings the platform reports (all in the Health Connect namespace), a permission is granted iff its own native string is granted |
| PermissionGateFacts.SingleGrantSuffix | android/src/main/java/com/fit_up/health/capacitor/HealthPlugin.kt:332-337 | a single qualified grant matches exactly its own undotted suffix |
| PermissionGateFacts.SingleGrantMatchesName | android/src/main/java/com/fit_up/health/capacitor/HealthPlugin.kt:330-340 | one granted native string grants a permission iff the two native names are equal |
| PermissionGateFacts.OneGrantOnePermission | android/src/main/java/com/fit_up/health/capacitor/HealthPlugin.kt:330-340 | one granted native string grants exactly one permission |
| Aggregation.HasPermission | android/src/main/java/com/fit_up/health/capacitor/HealthPlugin.kt:525-528 | fails exactly when the granted-permissions query throws, with its message; otherwise true iff some granted string's suffix is the native name |
| Aggregation.GetMetricAndMapper | android/src/main/java/com/fit_up/health/capacitor/HealthPlugin.kt:400-422 | succeeds exactly for the five supported names; each selects the metric `DataTypeMetric` assigns to it (steps, basal calories, active calories, total energy, distance), gated by that metric's record permission and reported under its output field; otherwise "Unsupported dataType: …" |
| Aggregation.BasalCaloriesFromMetabolicRate | android/src/main/java/com/fit_up/health/capacitor/HealthPlugin.kt:404-408 | "basal-calories" is the basal calories total, gated by READ_BASAL_METABOLIC_RATE and reported under "calories", the same field as active and total calories |
| Aggregation.ParseBucket | android/src/main/java/com/fit_up/health/capacitor/HealthPlugin.kt:442-445 | only "day" is accepted, as a period of one day; otherwise "Unsupported bucket: …" |
| Aggregation.ValidateAggregated | android/src/main/java/com/fit_up/health/capacitor/HealthPlugin.kt:425-445 | valid iff all four parameters are present, the type is supported and the bucket is "day"; a missing one gives the missing-parameters message, checked before the type |
| Aggregation.QueryAggregatedMetric | android/src/main/java/com/fit_up/health/capacitor/HealthPlugin.kt:503-523 | without the permission, no samples; with it, one sample per platform window with its times and mapped value; platform errors propagate |
| Aggregation.NoAggregationWithoutPermission | android/src/main/java/com/fit_up/health/capacitor/HealthPlugin.kt:506-508 | without the permission, the platform's aggregation is never consulted |
| Aggregation.QueryAggregated | android/src/main/java/com/fit_up/health/capacitor/HealthPlugin.kt:425-466 | validation errors are rejected as thrown; query errors get the "Error querying aggregated data: " prefix; otherwise the query's samples |
| Aggregation.MindfulnessIsRejected | android/src/main/java/com/fit_up/health/capacitor/HealthPlugin.kt:400-422 | "mindfulness" is rejected as an unsupported data type |
| Aggregation.OnlyDailyBuckets | android/src/main/java/com/fit_up/health/capacitor/HealthPlugin.kt:442-445 | any bucket but "day" is rejected once the type is valid |
| Aggregation.ReversedRangeIsQueried | android/src/main/java/com/fit_up/health/capacitor/HealthPlugin.kt:437-451 | the plugin's own validation never compares the dates: any pair, even one ending before it starts, is passed on unchecked to the platform's range filter |
| Labels.UnknownExerciseTypeIsOther | android/src/main/java/com/fit_up/health/capacitor/HealthPlugin.kt:673-735 | an exercise type the table lacks is labelled "OTHER" |
| Labels.SleepStageUnknownIff | android/src/main/java/com/fit_up/health/capacitor/HealthPlugin.kt:781-790 | a stage is labelled "UNKNOWN" iff it is code 0 or missing from the table |
| Labels.SleepStageLabelsDistinct | android/src/main/java/com/fit_up/health/capacitor/HealthPlugin.kt:781-790 | different known stages get different labels |
| Labels.GlucoseUnknownIff | android/src/main/java/com/fit_up/health/capacitor/HealthPlugin.kt:899-921 | each of the three glucose codes is labelled "UNKNOWN" iff it is 0 or missing from its table |
| Labels.SpecimenSourceLabelsDistinct | android/src/main/java/com/fit_up/health/capacitor/HealthPlugin.kt:899-907 | different known specimen sources get different labels |
| Labels.MealTypeLabelsDistinct | android/src/main/java/com/fit_up/health/capacitor/HealthPlugin.kt:908-914 | different known meal types get different labels |
| Labels.RelationToMealLabelsDistinct | android/src/main/java/com/fit_up/health/capacitor/HealthPlugin.kt:915-921 | different known relations to a meal get different labels |
| Workouts.SegmentsAndGapsFillSpan | android/src/main/java/com/fit_up/health/capacitor/HealthPlugin.kt:570-575 | segment time plus gap time is the span up to the last segment's end |
| Workouts.DurationLeavesOutGaps | android/src/main/java/com/fit_up/health/capacitor/HealthPlugin.kt:570-575 | with segments, the duration is the span to the last segment's end less every pause; the session's own end plays no part |
| Workouts.PausedWorkoutLasts2700Seconds | android/src/main/java/com/fit_up/health/capacitor/HealthPlugin.kt:570-575 | an hour with a 15-minute pause lasts 2700 seconds |
| Workouts.SourceName | android/src/main/java/com/fit_up/health/capacitor/HealthPlugin.kt:560-564 | the source name is the device model (or "") twice over: twice as long, both halves equal to the model |
| Workouts.MetricOutcome | android/src/main/java/com/fit_up/health/capacitor/HealthPlugin.kt:615-639 | a failed permission query escapes; a value is put iff the permission is granted and the aggregation succeeds with a value, which is the value put; aggregation errors are swallowed |
| Workouts.AddWorkoutMetric | android/src/main/java/com/fit_up/health/capacitor/HealthPlugin.kt:615-639 | returns whether it put the metric's field; puts that one field or nothing |
| Workouts.WorkoutMetricsAreRegistered | android/src/main/java/com/fit_up/health/capacitor/HealthPlugin.kt:577-585 | the four workout metrics are the registry's entries for their names |
| Workouts.MetricWritesFromShape | android/src/main/java/com/fit_up/health/capacitor/HealthPlugin.kt:577-587 | when no metric step throws, the puts are steps (if asked), total calories, active calories only without total calories, then distance |
| Workouts.CaloriesWrittenAtMostOnce | android/src/main/java/com/fit_up/health/capacitor/HealthPlugin.kt:582-585 | "calories" is put at most once per workout |
| Workouts.CaloriesPrecedence | android/src/main/java/com/fit_up/health/capacitor/HealthPlugin.kt:582-585 | total calories win when they have a value, active calories are the fallback, and with neither the field is untouched |
| Workouts.AddMetrics | android/src/main/java/com/fit_up/health/capacitor/HealthPlugin.kt:577-587 | the object after the metric steps is the old one with exactly those puts applied in order, or the escaped error |
| Workouts.FlattenKeepsEverySample | android/src/main/java/com/fit_up/health/capacitor/HealthPlugin.kt:648 | flattening keeps every sample of every record |
| Workouts.FlattenKeepsOrder | android/src/main/java/com/fit_up/health/capacitor/HealthPlugin.kt:648 | flattening keeps the records' order |
| Workouts.HeartRateArray | android/src/main/java/com/fit_up/health/capacitor/HealthPlugin.kt:642-656 | the array holds one timestamp/bpm object per flattened sample, in order |
| Workouts.HeartRateArrayLength | android/src/main/java/com/fit_up/health/capacitor/HealthPlugin.kt:648-654 | the array's length is the total sample count over all records |
| Workouts.RouteArray | android/src/main/java/com/fit_up/health/capacitor/HealthPlugin.kt:658-669 | one object per route point, in order, with its time, coordinates and altitude |
| Workouts.AddHeartRate | android/src/main/java/com/fit_up/health/capacitor/HealthPlugin.kt:589-594 | puts "heartRate" only when asked for and granted; permission and read errors escape |
| Workouts.BuildWorkout | android/src/main/java/com/fit_up/health/capacitor/HealthPlugin.kt:557-603 | the loop body builds exactly the object that the base fields, metrics, heart rate and route describe |
| Workouts.BuildEachSucceeds | android/src/main/java/com/fit_up/health/capacitor/HealthPlugin.kt:557-603 | the loop succeeds iff every session builds, and then yields each session's object at its index |
| Workouts.BuildEachFirstFailure | android/src/main/java/com/fit_up/health/capacitor/HealthPlugin.kt:557-611 | the loop's error is that of the first session that fails |
| Workouts.QueryWorkouts | android/src/main/java/com/fit_up/health/capacitor/HealthPlugin.kt:532-612 | missing dates are refused first; read or build errors get the "Error querying workouts: " prefix; otherwise one object per session, in order |
| Workouts.OneWorkoutPerSession | android/src/main/java/com/fit_up/health/capacitor/HealthPlugin.kt:555-606 | a successful query has exactly one workout per session, each the session's own object |
| Vitals.RecordQueryOutcomes | android/src/main/java/com/fit_up/health/capacitor/HealthPlugin.kt:831-862 | a record query succeeds iff dates are present and the read succeeds; it then has one key holding one object per record in order; errors are the missing-dates message or the query's prefix and the platform's message |
| Vitals.ProjectAppend | android/src/main/java/com/fit_up/health/capacitor/HealthPlugin.kt:848-854 | records read in two pages give their objects one after the other |
| Vitals.StagesArray | android/src/main/java/com/fit_up/health/capacitor/HealthPlugin.kt:762-769 | one object per sleep stage, in order |
| Vitals.QuerySleep | android/src/main/java/com/fit_up/health/capacitor/HealthPlugin.kt:738-779 | the sleep query answers as a record query under "sleepSessions" with the "Error querying sleep sessions: " prefix |
| Vitals.SleepStagesReported | android/src/main/java/com/fit_up/health/capacitor/HealthPlugin.kt:762-770 | every stage is reported at its index with its times; "UNKNOWN" iff code 0 or unlisted; a known label gives its code back |
| Vitals.QueryBasalBodyTemperature | android/src/main/java/com/fit_up/health/capacitor/HealthPlugin.kt:831-862 | answers as a record query under "basalBodyTemperatureSessions" with its prefix |
| Vitals.QueryBloodGlucose | android/src/main/java/com/fit_up/health/capacitor/HealthPlugin.kt:864-898 | answers as a record query under "bloodGlucoseSessions" with its prefix |
| Vitals.GlucoseCodesReported | android/src/main/java/com/fit_up/health/capacitor/HealthPlugin.kt:883-888 | each glucose code is "UNKNOWN" iff 0 or unlisted, and a known label gives its code back |
| Vitals.QueryOxygenSaturation | android/src/main/java/com/fit_up/health/capacitor/HealthPlugin.kt:924-955 | answers as a record query under "oxygenSaturationSessions" with its prefix |
| Vitals.SamplesArray | android/src/main/java/com/fit_up/health/capacitor/HealthPlugin.kt:981-987 | one timestamp/bpm object per sample of a record, in order |
| Vitals.HeartRateMeasurements | android/src/main/java/com/fit_up/health/capacitor/HealthPlugin.kt:973-990 | the array the loop builds as written: each record's object appears twice, and both entries show its samples, because the one object is appended before and after the samples are put |
| Vitals.QueryHeartRate | android/src/main/java/com/fit_up/health/capacitor/HealthPlugin.kt:958-998 | missing dates are refused; read errors get the "Error querying heart rate: " prefix; otherwise the measurements under "heartRateMeasurements" |
| Vitals.EachMeasurementListedTwice | android/src/main/java/com/fit_up/health/capacitor/HealthPlugin.kt:973-990 | the array as written is the intended one with each entry doubled in place |
| Vitals.OneRecordTwoMeasurements | android/src/main/java/com/fit_up/health/capacitor/HealthPlugin.kt:980-989 | a single record yields two measurements |
| Vitals.IntendedOnePerRecord | android/src/main/java/com/fit_up/health/capacitor/HealthPlugin.kt:973-990 | the intended array has one object per record, with its id and all its samples in order |
| Plugin.HealthPlugin.constructor | android/src/main/java/com/fit_up/health/capacitor/HealthPlugin.kt:219-236 | after `load`: not available, no client, no waiting request, nothing answered |
| Plugin.HealthPlugin.IsHealthAvailable | android/src/main/java/com/fit_up/health/capacitor/HealthPlugin.kt:241-257 | connects only once; a failed connection leaves the plugin unavailable; always resolves with the availability |
| Plugin.HealthPlugin.CheckHealthPermissions | android/src/main/java/com/fit_up/health/capacitor/HealthPlugin.kt:305-327 | no list: rejected; a failed granted query: rejected with "Checking permissions failed: "; otherwise resolved with one boolean per parsed permission, as the gate decides |
| Plugin.HealthPlugin.RequestHealthPermissions | android/src/main/java/com/fit_up/health/capacitor/HealthPlugin.kt:353-373 | the request replaces whatever waits in the slot, and the dialog gets the native strings; a launch failure rejects the call and empties the slot |
| Plugin.HealthPlugin.OnPermissionResult | android/src/main/java/com/fit_up/health/capacitor/HealthPlugin.kt:229-235 | a waiting request is answered with its permissions as the gate decides, and stays in the slot; without one nothing is answered |
| Plugin.HealthPlugin.QueryAggregated | android/src/main/java/com/fit_up/health/capacitor/HealthPlugin.kt:425-466 | answers with the aggregated query's samples under "aggregatedData", or rejects with its error |
| Plugin.HealthPlugin.QueryWorkouts | android/src/main/java/com/fit_up/health/capacitor/HealthPlugin.kt:532-612 | answers with the workouts under "workouts", or rejects with the query's error |
| Plugin.HealthPlugin.QuerySleep | android/src/main/java/com/fit_up/health/capacitor/HealthPlugin.kt:738-779 | answers the call with the sleep query's outcome |
| Plugin.HealthPlugin.QueryBasalBodyTemperature | android/src/main/java/com/fit_up/health/capacitor/HealthPlugin.kt:831-862 | answers the call with the basal body temperature query's outcome |
| Plugin.HealthPlugin.QueryBloodGlucose | android/src/main/java/com/fit_up/health/capacitor/HealthPlugin.kt:864-898 | answers the call with the blood glucose query's outcome |
| Plugin.HealthPlugin.QueryOxygenSaturation | android/src/main/java/com/fit_up/health/capacitor/HealthPlugin.kt:924-955 | answers the call with the oxygen saturation query's outcome |
| Plugin.HealthPlugin.QueryHeartRate | android/src/main/java/com/fit_up/health/capacitor/HealthPlugin.kt:958-998 | answers the call with the heart-rate query's outcome |
| Plugin.UnconnectedQueriesFail | android/src/main/java/com/fit_up/health/capacitor/HealthPlugin.kt:219 | before a client is connected, workout, sleep and heart-rate queries reject with the uninitialised-client error under their prefixes |
| Plugin.UnconnectedAggregationFails | android/src/main/java/com/fit_up/health/capacitor/HealthPlugin.kt:503-528 | a valid aggregated query before a client is connected rejects with the uninitialised-client error under its prefix |
| Plugin.SecondRequestTakesTheSlot | android/src/main/java/com/fit_up/health/capacitor/HealthPlugin.kt:229-235 | after two requests and two callbacks, both answers go to the second call and the first is never answered |
| Plugin.FailedLaunchLeavesNothingWaiting | android/src/main/java/com/fit_up/health/capacitor/HealthPlugin.kt:365-371 | after a failed launch, the only answer is the rejection, and a later callback answers nothing |

## Left out

- `TimeRangeFilter.between` (line 451) is platform code. Any check of its
  own on the two dates, such as refusing a start that is not before the
  end, is not modelled: the model goes on to the permission check and the
  query for every range.

- Instant parsing and time zones: dates arrive already parsed, as optional
  `Instant`s. A malformed date is not modelled. In `queryAggregated` it is
  parsed inside the outer `try` and the call is rejected with the parse
  error's message (lines 426-438). The other six queries parse it before
  their `try` opens (for example lines 543-544 against 551 in
  `queryWorkouts`). There the exception escapes the plugin method, and
  that method never answers the call. Conversion to local date-time before
  filtering is not modelled either.
- Unit conversions (kilocalories, metres, °C, mg/dL): the platform's
  values are taken in the reported unit.
- JSON serialisation: key order in objects, and `toString()` of instants
  (kept as `JTime`).
- Null puts: `JSONObject.put(key, null)` removes the key, so in the source
  the key is absent. This happens for a workout without a title, a route
  point without altitude, and an aggregated window without a value. The
  model keeps the key with the value `JNull` instead.
- Coroutines, dispatchers and the atomicity of the request slot: every
  call runs to completion, one after another. The platform answers each
  kind of query the same way throughout one call.
- The platform's own filtering by time range and its 1000-record page
  size: the records a read returns are a parameter. Only heart-rate reads
  take their range explicitly, because the workout query reads them per
  session.
- Workouts.Duration: does not model the overflow of the Kotlin `Long`
  sum (integers are unbounded).
- Labels.ExerciseTypeLabel: the full 61-entry table is present, but no
  lemma is stated about single known entries. Only the "OTHER" default
  for unlisted types is proved.
- `openHealthConnectSettings` and `showHealthConnectInPlayStore`: intents
  and activities, with nothing to compute.
- The `@CapacitorPlugin` permission annotation and the manifest: Android
  configuration, with no behaviour of its own.
- The log message written when connecting fails.
- `isHealthAvailable` models `getOrCreate`'s outcome as a parameter.
  `requestHealthPermissions` models whether launching the dialog throws as
  a parameter, and the dialog's answer as the callback's parameter.
- definitions.ts and the web and iOS sides are not part of this model.

## Findings

| source | as written | input that shows it | evidently intended | confidence | as-written member | corrected member |
|---|---|---|---|---|---|---|
| android/src/main/java/com/fit_up/health/capacitor/HealthPlugin.kt:980-989 | `arr.put(obj)` runs both before the samples are read and after "HeartRateSamples" is put, on the same object | one heart-rate record: the array has two entries, both the record with its samples | one entry per record, with its samples | high, not executed | Vitals.OneRecordTwoMeasurements | Vitals.IntendedOnePerRecord |

The model keeps the code's behaviour in `Vitals.QueryHeartRate`, which is
what callers observe. `Vitals.EachMeasurementListedTwice` relates it to
the corrected `Vitals.IntendedMeasurementsJs`: the array as written is
the intended array with every entry doubled in place.
