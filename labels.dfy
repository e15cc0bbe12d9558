/** The code-to-label tables of the Android bridge. Every lookup goes
    through `getOrDefault`, so an unknown code yields the table's default
    label instead of an error. */
module Labels {

  /** Kotlin's `Map.getOrDefault`: the entry for `key`, or `default`. */
  function GetOrDefault<K, V>(m: map<K, V>, key: K, default: V): V
  {
    if key in m then m[key] else default
  }

  /** `exerciseTypeMapping`: Health Connect exercise types to labels. */
  const ExerciseTypeMapping: map<int, string> := map[
    0 := "OTHER",
    2 := "BADMINTON",
    4 := "BASEBALL",
    5 := "BASKETBALL",
    8 := "BIKING",
    9 := "BIKING_STATIONARY",
    10 := "BOOT_CAMP",
    11 := "BOXING",
    13 := "CALISTHENICS",
    14 := "CRICKET",
    16 := "DANCING",
    25 := "ELLIPTICAL",
    26 := "EXERCISE_CLASS",
    27 := "FENCING",
    28 := "FOOTBALL_AMERICAN",
    29 := "FOOTBALL_AUSTRALIAN",
    31 := "FRISBEE_DISC",
    32 := "GOLF",
    33 := "GUIDED_BREATHING",
    34 := "GYMNASTICS",
    35 := "HANDBALL",
    36 := "HIGH_INTENSITY_INTERVAL_TRAINING",
    37 := "HIKING",
    38 := "ICE_HOCKEY",
    39 := "ICE_SKATING",
    44 := "MARTIAL_ARTS",
    46 := "PADDLING",
    47 := "PARAGLIDING",
    48 := "PILATES",
    50 := "RACQUETBALL",
    51 := "ROCK_CLIMBING",
    52 := "ROLLER_HOCKEY",
    53 := "ROWING",
    54 := "ROWING_MACHINE",
    55 := "RUGBY",
    56 := "RUNNING",
    57 := "RUNNING_TREADMILL",
    58 := "SAILING",
    59 := "SCUBA_DIVING",
    60 := "SKATING",
    61 := "SKIING",
    62 := "SNOWBOARDING",
    63 := "SNOWSHOEING",
    64 := "SOCCER",
    65 := "SOFTBALL",
    66 := "SQUASH",
    68 := "STAIR_CLIMBING",
    69 := "STAIR_CLIMBING_MACHINE",
    70 := "STRENGTH_TRAINING",
    71 := "STRETCHING",
    72 := "SURFING",
    73 := "SWIMMING_OPEN_WATER",
    74 := "SWIMMING_POOL",
    75 := "TABLE_TENNIS",
    76 := "TENNIS",
    78 := "VOLLEYBALL",
    79 := "WALKING",
    80 := "WATER_POLO",
    81 := "WEIGHTLIFTING",
    82 := "WHEELCHAIR",
    83 := "YOGA"
  ]

  /** The workout type reported for an exercise type; "OTHER" for a type
      the table does not know. */
  function ExerciseTypeLabel(exerciseType: int): string
  {
    GetOrDefault(ExerciseTypeMapping, exerciseType, "OTHER")
  }

  /** `sleepTypeMapping`: sleep stage types to labels. */
  const SleepTypeMapping: map<int, string> := map[
    0 := "UNKNOWN",
    1 := "AWAKE",
    2 := "SLEEPING",
    3 := "OUT_OF_BED",
    4 := "LIGHT",
    5 := "DEEP",
    6 := "REM",
    7 := "AWAKE_IN_BED"
  ]

  function SleepStageLabel(stage: int): string
  {
    GetOrDefault(SleepTypeMapping, stage, "UNKNOWN")
  }

  /** `specimmenSourceMapping` (sic): blood-glucose specimen sources. */
  const SpecimenSourceMapping: map<int, string> := map[
    0 := "UNKNOWN",
    1 := "INTERSTITIAL_FLUID",
    2 := "CAPILLARY_BLOOD",
    3 := "PLASMA",
    4 := "SERUM",
    5 := "TEARS",
    6 := "WHOLE_BLOOD"
  ]

  function SpecimenSourceLabel(source: int): string
  {
    GetOrDefault(SpecimenSourceMapping, source, "UNKNOWN")
  }

  /** `mealTypeMapping`. */
  const MealTypeMapping: map<int, string> := map[
    0 := "UNKNOWN",
    1 := "BREAKFAST",
    2 := "LUNCH",
    3 := "DINNER",
    4 := "SNACK"
  ]

  function MealTypeLabel(mealType: int): string
  {
    GetOrDefault(MealTypeMapping, mealType, "UNKNOWN")
  }

  /** `relationToMealMapping`. */
  const RelationToMealMapping: map<int, string> := map[
    0 := "UNKNOWN",
    1 := "GENERAL",
    2 := "FASTING",
    3 := "BEFORE_MEAL",
    4 := "AFTER_MEAL"
  ]

  function RelationToMealLabel(relation: int): string
  {
    GetOrDefault(RelationToMealMapping, relation, "UNKNOWN")
  }

  /** An exercise type outside the table is reported as "OTHER". */
  lemma UnknownExerciseTypeIsOther(exerciseType: int)
    requires exerciseType !in ExerciseTypeMapping
    ensures ExerciseTypeLabel(exerciseType) == "OTHER"
  {
  }

  /** A sleep stage reads "UNKNOWN" exactly when its code is 0 or missing
      from the table. */
  lemma SleepStageUnknownIff(stage: int)
    ensures SleepStageLabel(stage) == "UNKNOWN" <==> (stage == 0 || stage !in SleepTypeMapping)
  {
  }

  /** Distinct known sleep stages get distinct labels, so a known label
      gives its stage back. */
  lemma SleepStageLabelsDistinct(a: int, b: int)
    requires a in SleepTypeMapping && b in SleepTypeMapping && a != b
    ensures SleepStageLabel(a) != SleepStageLabel(b)
  {
  }

  /** The three blood-glucose tables read "UNKNOWN" exactly for code 0 and
      for codes they do not know. */
  lemma GlucoseUnknownIff(code: int)
    ensures SpecimenSourceLabel(code) == "UNKNOWN" <==> (code == 0 || code !in SpecimenSourceMapping)
    ensures MealTypeLabel(code) == "UNKNOWN" <==> (code == 0 || code !in MealTypeMapping)
    ensures RelationToMealLabel(code) == "UNKNOWN" <==> (code == 0 || code !in RelationToMealMapping)
  {
  }

  /** Distinct known specimen sources get distinct labels. */
  lemma SpecimenSourceLabelsDistinct(a: int, b: int)
    requires a in SpecimenSourceMapping && b in SpecimenSourceMapping && a != b
    ensures SpecimenSourceLabel(a) != SpecimenSourceLabel(b)
  {
  }

  /** Distinct known meal types get distinct labels. */
  lemma MealTypeLabelsDistinct(a: int, b: int)
    requires a in MealTypeMapping && b in MealTypeMapping && a != b
    ensures MealTypeLabel(a) != MealTypeLabel(b)
  {
  }

  /** Distinct known relations to a meal get distinct labels. */
  lemma RelationToMealLabelsDistinct(a: int, b: int)
    requires a in RelationToMealMapping && b in RelationToMealMapping && a != b
    ensures RelationToMealLabel(a) != RelationToMealLabel(b)
  {
  }
}
