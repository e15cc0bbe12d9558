/** The abstract permissions of the Android bridge (HealthPlugin.kt) and
    the two string tables attached to them: each constant's enum name, and
    the native Health Connect permission it stands for. */
module PermissionCatalog {
  import opened Results

  /** `CapHealthPermission`: the 39 abstract read permissions, in the order
      of the enum's declaration. */
  datatype Permission =
    ReadSteps
    | ReadWorkouts
    | ReadHeartRate
    | ReadRoute
    | ReadActivityIntensity
    | ReadActiveCalories
    | ReadTotalCalories
    | ReadDistance
    | ReadBloodGlucose
    | ReadBloodPressure
    | ReadBodyFat
    | ReadBodyTemperature
    | ReadBodyWaterMass
    | ReadBodyBoneMass
    | ReadBasalBodyTemperature
    | ReadBasalMetabolicRate
    | ReadCervicalMucus
    | ReadElevationGained
    | ReadFloorsClimbed
    | ReadHeartRateVariability
    | ReadHeight
    | ReadHydration
    | ReadIntermenstrualBleeding
    | ReadLeanBodyMass
    | ReadMenstruation
    | ReadMindfulness
    | ReadNutrition
    | ReadOvulationTest
    | ReadOxygenSaturation
    | ReadPlannedExercise
    | ReadPower
    | ReadRespiratoryRate
    | ReadRestingHeartRate
    | ReadSleep
    | ReadSpeed
    | ReadStepsCadence
    | ReadVo2Max
    | ReadWeight
    | ReadWheelchairPushes

  /** The enum constant's `name`: what `valueOf` accepts and the key under
      which a permission is reported back. */
  function Name(p: Permission): string
  {
    match p
    case ReadSteps => "READ_STEPS"
    case ReadWorkouts => "READ_WORKOUTS"
    case ReadHeartRate => "READ_HEART_RATE"
    case ReadRoute => "READ_ROUTE"
    case ReadActivityIntensity => "READ_ACTIVITY_INTENSITY"
    case ReadActiveCalories => "READ_ACTIVE_CALORIES"
    case ReadTotalCalories => "READ_TOTAL_CALORIES"
    case ReadDistance => "READ_DISTANCE"
    case ReadBloodGlucose => "READ_BLOOD_GLUCOSE"
    case ReadBloodPressure => "READ_BLOOD_PRESSURE"
    case ReadBodyFat => "READ_BODY_FAT"
    case ReadBodyTemperature => "READ_BODY_TEMPERATURE"
    case ReadBodyWaterMass => "READ_BODY_WATER_MASS"
    case ReadBodyBoneMass => "READ_BODY_BONE_MASS"
    case ReadBasalBodyTemperature => "READ_BASAL_BODY_TEMPERATURE"
    case ReadBasalMetabolicRate => "READ_BASAL_METABOLIC_RATE"
    case ReadCervicalMucus => "READ_CERVICAL_MUCUS"
    case ReadElevationGained => "READ_ELEVATION_GAINED"
    case ReadFloorsClimbed => "READ_FLOORS_CLIMBED"
    case ReadHeartRateVariability => "READ_HEART_RATE_VARIABILITY"
    case ReadHeight => "READ_HEIGHT"
    case ReadHydration => "READ_HYDRATION"
    case ReadIntermenstrualBleeding => "READ_INTERMENSTRUAL_BLEEDING"
    case ReadLeanBodyMass => "READ_LEAN_BODY_MASS"
    case ReadMenstruation => "READ_MENSTRUATION"
    case ReadMindfulness => "READ_MINDFULNESS"
    case ReadNutrition => "READ_NUTRITION"
    case ReadOvulationTest => "READ_OVULATION_TEST"
    case ReadOxygenSaturation => "READ_OXYGEN_SATURATION"
    case ReadPlannedExercise => "READ_PLANNED_EXERCISE"
    case ReadPower => "READ_POWER"
    case ReadRespiratoryRate => "READ_RESPIRATORY_RATE"
    case ReadRestingHeartRate => "READ_RESTING_HEART_RATE"
    case ReadSleep => "READ_SLEEP"
    case ReadSpeed => "READ_SPEED"
    case ReadStepsCadence => "READ_STEPS_CADENCE"
    case ReadVo2Max => "READ_VO2_MAX"
    case ReadWeight => "READ_WEIGHT"
    case ReadWheelchairPushes => "READ_WHEELCHAIR_PUSHES"
  }

  /** The namespace shared by every native Health Connect read permission. */
  const HealthPrefix: string := "android.permission.health."

  /** The right-hand sides of `permissionMapping` without `HealthPrefix`.
      Five differ from the enum name: READ_WORKOUTS, READ_ROUTE,
      READ_ACTIVE_CALORIES, READ_TOTAL_CALORIES and READ_BODY_BONE_MASS. */
  function NativeName(p: Permission): string
  {
    match p
    case ReadWorkouts => "READ_EXERCISE"
    case ReadRoute => "READ_EXERCISE_ROUTE"
    case ReadHeartRate => "READ_HEART_RATE"
    case ReadActiveCalories => "READ_ACTIVE_CALORIES_BURNED"
    case ReadTotalCalories => "READ_TOTAL_CALORIES_BURNED"
    case ReadDistance => "READ_DISTANCE"
    case ReadSteps => "READ_STEPS"
    case ReadActivityIntensity => "READ_ACTIVITY_INTENSITY"
    case ReadBloodGlucose => "READ_BLOOD_GLUCOSE"
    case ReadBloodPressure => "READ_BLOOD_PRESSURE"
    case ReadBodyFat => "READ_BODY_FAT"
    case ReadBodyTemperature => "READ_BODY_TEMPERATURE"
    case ReadBodyWaterMass => "READ_BODY_WATER_MASS"
    case ReadBodyBoneMass => "READ_BONE_MASS"
    case ReadBasalBodyTemperature => "READ_BASAL_BODY_TEMPERATURE"
    case ReadBasalMetabolicRate => "READ_BASAL_METABOLIC_RATE"
    case ReadCervicalMucus => "READ_CERVICAL_MUCUS"
    case ReadElevationGained => "READ_ELEVATION_GAINED"
    case ReadFloorsClimbed => "READ_FLOORS_CLIMBED"
    case ReadHeartRateVariability => "READ_HEART_RATE_VARIABILITY"
    case ReadHeight => "READ_HEIGHT"
    case ReadHydration => "READ_HYDRATION"
    case ReadIntermenstrualBleeding => "READ_INTERMENSTRUAL_BLEEDING"
    case ReadLeanBodyMass => "READ_LEAN_BODY_MASS"
    case ReadMenstruation => "READ_MENSTRUATION"
    case ReadMindfulness => "READ_MINDFULNESS"
    case ReadNutrition => "READ_NUTRITION"
    case ReadOvulationTest => "READ_OVULATION_TEST"
    case ReadOxygenSaturation => "READ_OXYGEN_SATURATION"
    case ReadPlannedExercise => "READ_PLANNED_EXERCISE"
    case ReadPower => "READ_POWER"
    case ReadRespiratoryRate => "READ_RESPIRATORY_RATE"
    case ReadRestingHeartRate => "READ_RESTING_HEART_RATE"
    case ReadSleep => "READ_SLEEP"
    case ReadSpeed => "READ_SPEED"
    case ReadStepsCadence => "READ_STEPS_CADENCE"
    case ReadVo2Max => "READ_VO2_MAX"
    case ReadWeight => "READ_WEIGHT"
    case ReadWheelchairPushes => "READ_WHEELCHAIR_PUSHES"
  }

  // Proof machinery only: it lets injectivity be proved without comparing
  // all 39 string literals pairwise. Both tables are told apart by each
  // string's length and its sixth and seventh characters; decoding that key
  // shows that no two constants share a string. The solver reads a literal
  // string character by character, so the entries are checked three at a
  // time.

  /** The constant whose name has this length and sixth and seventh characters. */
  ghost function NameKeyOwner(len: int, c5: char, c6: char): Option<Permission>
  {
    match len
    case 10 => if c5 == 'S' && c6 == 'T' then Some(ReadSteps) else if c5 == 'R' && c6 == 'O' then Some(ReadRoute) else if c5 == 'P' && c6 == 'O' then Some(ReadPower) else if c5 == 'S' && c6 == 'L' then Some(ReadSleep) else if c5 == 'S' && c6 == 'P' then Some(ReadSpeed) else None
    case 11 => if c5 == 'H' && c6 == 'E' then Some(ReadHeight) else if c5 == 'W' && c6 == 'E' then Some(ReadWeight) else None
    case 12 => if c5 == 'V' && c6 == 'O' then Some(ReadVo2Max) else None
    case 13 => if c5 == 'W' && c6 == 'O' then Some(ReadWorkouts) else if c5 == 'D' && c6 == 'I' then Some(ReadDistance) else if c5 == 'B' && c6 == 'O' then Some(ReadBodyFat) else None
    case 14 => if c5 == 'H' && c6 == 'Y' then Some(ReadHydration) else if c5 == 'N' && c6 == 'U' then Some(ReadNutrition) else None
    case 15 => if c5 == 'H' && c6 == 'E' then Some(ReadHeartRate) else None
    case 16 => if c5 == 'M' && c6 == 'I' then Some(ReadMindfulness) else None
    case 17 => if c5 == 'M' && c6 == 'E' then Some(ReadMenstruation) else None
    case 18 => if c5 == 'B' && c6 == 'L' then Some(ReadBloodGlucose) else if c5 == 'S' && c6 == 'T' then Some(ReadStepsCadence) else None
    case 19 => if c5 == 'T' && c6 == 'O' then Some(ReadTotalCalories) else if c5 == 'B' && c6 == 'L' then Some(ReadBloodPressure) else if c5 == 'B' && c6 == 'O' then Some(ReadBodyBoneMass) else if c5 == 'C' && c6 == 'E' then Some(ReadCervicalMucus) else if c5 == 'F' && c6 == 'L' then Some(ReadFloorsClimbed) else if c5 == 'L' && c6 == 'E' then Some(ReadLeanBodyMass) else if c5 == 'O' && c6 == 'V' then Some(ReadOvulationTest) else None
    case 20 => if c5 == 'A' && c6 == 'C' then Some(ReadActiveCalories) else if c5 == 'B' && c6 == 'O' then Some(ReadBodyWaterMass) else None
    case 21 => if c5 == 'B' && c6 == 'O' then Some(ReadBodyTemperature) else if c5 == 'E' && c6 == 'L' then Some(ReadElevationGained) else if c5 == 'P' && c6 == 'L' then Some(ReadPlannedExercise) else if c5 == 'R' && c6 == 'E' then Some(ReadRespiratoryRate) else None
    case 22 => if c5 == 'O' && c6 == 'X' then Some(ReadOxygenSaturation) else if c5 == 'W' && c6 == 'H' then Some(ReadWheelchairPushes) else None
    case 23 => if c5 == 'A' && c6 == 'C' then Some(ReadActivityIntensity) else if c5 == 'R' && c6 == 'E' then Some(ReadRestingHeartRate) else None
    case 25 => if c5 == 'B' && c6 == 'A' then Some(ReadBasalMetabolicRate) else None
    case 27 => if c5 == 'B' && c6 == 'A' then Some(ReadBasalBodyTemperature) else if c5 == 'H' && c6 == 'E' then Some(ReadHeartRateVariability) else None
    case 28 => if c5 == 'I' && c6 == 'N' then Some(ReadIntermenstrualBleeding) else None
    case _ => None
  }

  /** The constant whose native name has this length and sixth and seventh characters. */
  ghost function NativeNameKeyOwner(len: int, c5: char, c6: char): Option<Permission>
  {
    match len
    case 10 => if c5 == 'S' && c6 == 'T' then Some(ReadSteps) else if c5 == 'P' && c6 == 'O' then Some(ReadPower) else if c5 == 'S' && c6 == 'L' then Some(ReadSleep) else if c5 == 'S' && c6 == 'P' then Some(ReadSpeed) else None
    case 11 => if c5 == 'H' && c6 == 'E' then Some(ReadHeight) else if c5 == 'W' && c6 == 'E' then Some(ReadWeight) else None
    case 12 => if c5 == 'V' && c6 == 'O' then Some(ReadVo2Max) else None
    case 13 => if c5 == 'E' && c6 == 'X' then Some(ReadWorkouts) else if c5 == 'D' && c6 == 'I' then Some(ReadDistance) else if c5 == 'B' && c6 == 'O' then Some(ReadBodyFat) else None
    case 14 => if c5 == 'B' && c6 == 'O' then Some(ReadBodyBoneMass) else if c5 == 'H' && c6 == 'Y' then Some(ReadHydration) else if c5 == 'N' && c6 == 'U' then Some(ReadNutrition) else None
    case 15 => if c5 == 'H' && c6 == 'E' then Some(ReadHeartRate) else None
    case 16 => if c5 == 'M' && c6 == 'I' then Some(ReadMindfulness) else None
    case 17 => if c5 == 'M' && c6 == 'E' then Some(ReadMenstruation) else None
    case 18 => if c5 == 'B' && c6 == 'L' then Some(ReadBloodGlucose) else if c5 == 'S' && c6 == 'T' then Some(ReadStepsCadence) else None
    case 19 => if c5 == 'E' && c6 == 'X' then Some(ReadRoute) else if c5 == 'B' && c6 == 'L' then Some(ReadBloodPressure) else if c5 == 'C' && c6 == 'E' then Some(ReadCervicalMucus) else if c5 == 'F' && c6 == 'L' then Some(ReadFloorsClimbed) else if c5 == 'L' && c6 == 'E' then Some(ReadLeanBodyMass) else if c5 == 'O' && c6 == 'V' then Some(ReadOvulationTest) else None
    case 20 => if c5 == 'B' && c6 == 'O' then Some(ReadBodyWaterMass) else None
    case 21 => if c5 == 'B' && c6 == 'O' then Some(ReadBodyTemperature) else if c5 == 'E' && c6 == 'L' then Some(ReadElevationGained) else if c5 == 'P' && c6 == 'L' then Some(ReadPlannedExercise) else if c5 == 'R' && c6 == 'E' then Some(ReadRespiratoryRate) else None
    case 22 => if c5 == 'O' && c6 == 'X' then Some(ReadOxygenSaturation) else if c5 == 'W' && c6 == 'H' then Some(ReadWheelchairPushes) else None
    case 23 => if c5 == 'A' && c6 == 'C' then Some(ReadActivityIntensity) else if c5 == 'R' && c6 == 'E' then Some(ReadRestingHeartRate) else None
    case 25 => if c5 == 'B' && c6 == 'A' then Some(ReadBasalMetabolicRate) else None
    case 26 => if c5 == 'T' && c6 == 'O' then Some(ReadTotalCalories) else None
    case 27 => if c5 == 'A' && c6 == 'C' then Some(ReadActiveCalories) else if c5 == 'B' && c6 == 'A' then Some(ReadBasalBodyTemperature) else if c5 == 'H' && c6 == 'E' then Some(ReadHeartRateVariability) else None
    case 28 => if c5 == 'I' && c6 == 'N' then Some(ReadIntermenstrualBleeding) else None
    case _ => None
  }

  ghost predicate EntryWellFormed(p: Permission)
  {
    var n := Name(p);
    var native := NativeName(p);
    && |n| > 6 && NameKeyOwner(|n|, n[5], n[6]) == Some(p)
    && |native| > 6 && NativeNameKeyOwner(|native|, native[5], native[6]) == Some(p)
    && '.' !in native
  }

  lemma EntryIsWellFormed(p: Permission)
    ensures EntryWellFormed(p)
  {
    match p
    case ReadSteps | ReadWorkouts | ReadHeartRate =>
      EntriesWellFormed1(p);
    case ReadRoute | ReadActivityIntensity | ReadActiveCalories =>
      EntriesWellFormed2(p);
    case ReadTotalCalories | ReadDistance | ReadBloodGlucose =>
      EntriesWellFormed3(p);
    case ReadBloodPressure | ReadBodyFat | ReadBodyTemperature =>
      EntriesWellFormed4(p);
    case ReadBodyWaterMass | ReadBodyBoneMass | ReadBasalBodyTemperature =>
      EntriesWellFormed5(p);
    case ReadBasalMetabolicRate | ReadCervicalMucus | ReadElevationGained =>
      EntriesWellFormed6(p);
    case ReadFloorsClimbed | ReadHeartRateVariability | ReadHeight =>
      EntriesWellFormed7(p);
    case ReadHydration | ReadIntermenstrualBleeding | ReadLeanBodyMass =>
      EntriesWellFormed8(p);
    case ReadMenstruation | ReadMindfulness | ReadNutrition =>
      EntriesWellFormed9(p);
    case ReadOvulationTest | ReadOxygenSaturation | ReadPlannedExercise =>
      EntriesWellFormed10(p);
    case ReadPower | ReadRespiratoryRate | ReadRestingHeartRate =>
      EntriesWellFormed11(p);
    case ReadSleep | ReadSpeed | ReadStepsCadence =>
      EntriesWellFormed12(p);
    case ReadVo2Max | ReadWeight | ReadWheelchairPushes =>
      EntriesWellFormed13(p);
  }

  lemma EntriesWellFormed1(p: Permission)
    requires p in {ReadSteps, ReadWorkouts, ReadHeartRate}
    ensures EntryWellFormed(p)
  {
  }

  lemma EntriesWellFormed2(p: Permission)
    requires p in {ReadRoute, ReadActivityIntensity, ReadActiveCalories}
    ensures EntryWellFormed(p)
  {
  }

  lemma EntriesWellFormed3(p: Permission)
    requires p in {ReadTotalCalories, ReadDistance, ReadBloodGlucose}
    ensures EntryWellFormed(p)
  {
  }

  lemma EntriesWellFormed4(p: Permission)
    requires p in {ReadBloodPressure, ReadBodyFat, ReadBodyTemperature}
    ensures EntryWellFormed(p)
  {
  }

  lemma EntriesWellFormed5(p: Permission)
    requires p in {ReadBodyWaterMass, ReadBodyBoneMass, ReadBasalBodyTemperature}
    ensures EntryWellFormed(p)
  {
  }

  lemma EntriesWellFormed6(p: Permission)
    requires p in {ReadBasalMetabolicRate, ReadCervicalMucus, ReadElevationGained}
    ensures EntryWellFormed(p)
  {
  }

  lemma EntriesWellFormed7(p: Permission)
    requires p in {ReadFloorsClimbed, ReadHeartRateVariability, ReadHeight}
    ensures EntryWellFormed(p)
  {
  }

  lemma EntriesWellFormed8(p: Permission)
    requires p in {ReadHydration, ReadIntermenstrualBleeding, ReadLeanBodyMass}
    ensures EntryWellFormed(p)
  {
  }

  lemma EntriesWellFormed9(p: Permission)
    requires p in {ReadMenstruation, ReadMindfulness, ReadNutrition}
    ensures EntryWellFormed(p)
  {
  }

  lemma EntriesWellFormed10(p: Permission)
    requires p in {ReadOvulationTest, ReadOxygenSaturation, ReadPlannedExercise}
    ensures EntryWellFormed(p)
  {
  }

  lemma EntriesWellFormed11(p: Permission)
    requires p in {ReadPower, ReadRespiratoryRate, ReadRestingHeartRate}
    ensures EntryWellFormed(p)
  {
  }

  lemma EntriesWellFormed12(p: Permission)
    requires p in {ReadSleep, ReadSpeed, ReadStepsCadence}
    ensures EntryWellFormed(p)
  {
  }

  lemma EntriesWellFormed13(p: Permission)
    requires p in {ReadVo2Max, ReadWeight, ReadWheelchairPushes}
    ensures EntryWellFormed(p)
  {
  }
  /** No two constants share a name. */
  lemma NameInjective(p: Permission, q: Permission)
    requires Name(p) == Name(q)
    ensures p == q
  {
    EntryIsWellFormed(p);
    EntryIsWellFormed(q);
  }

  /** No two constants share a native permission. */
  lemma NativeNameInjective(p: Permission, q: Permission)
    requires NativeName(p) == NativeName(q)
    ensures p == q
  {
    EntryIsWellFormed(p);
    EntryIsWellFormed(q);
  }

  /** The prefix is the Health Connect namespace followed by its '.'. */
  lemma HealthPrefixIsNamespace()
    ensures HealthPrefix == "android.permission.health" + ['.']
  {
  }

  /** A string whose key no constant owns is no constant's name. */
  lemma NoNameWithKey(s: string)
    requires |s| > 6 && NameKeyOwner(|s|, s[5], s[6]).None?
    ensures forall p :: Name(p) != s
  {
    forall p ensures Name(p) != s {
      EntryIsWellFormed(p);
    }
  }

  /** No native name contains a '.', so the namespace ends right before it. */
  lemma NativeNameUndotted(p: Permission)
    ensures '.' !in NativeName(p)
  {
    EntryIsWellFormed(p);
  }
}
