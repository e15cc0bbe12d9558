/** Parsing of requested permission names and the abstract-to-native
    permission table of the Android bridge (HealthPlugin.kt). */
module PermissionLookup {
  import opened Results
  import opened PermissionCatalog

  /** `CapHealthPermission.values()`, in declaration order. */
  const AllPermissions: seq<Permission> := [
    ReadSteps, ReadWorkouts, ReadHeartRate, ReadRoute,
    ReadActivityIntensity, ReadActiveCalories, ReadTotalCalories, ReadDistance,
    ReadBloodGlucose, ReadBloodPressure, ReadBodyFat, ReadBodyTemperature,
    ReadBodyWaterMass, ReadBodyBoneMass, ReadBasalBodyTemperature, ReadBasalMetabolicRate,
    ReadCervicalMucus, ReadElevationGained, ReadFloorsClimbed, ReadHeartRateVariability,
    ReadHeight, ReadHydration, ReadIntermenstrualBleeding, ReadLeanBodyMass,
    ReadMenstruation, ReadMindfulness, ReadNutrition, ReadOvulationTest,
    ReadOxygenSaturation, ReadPlannedExercise, ReadPower, ReadRespiratoryRate,
    ReadRestingHeartRate, ReadSleep, ReadSpeed, ReadStepsCadence,
    ReadVo2Max, ReadWeight, ReadWheelchairPushes
  ]

  lemma Listed(p: Permission)
    ensures p in AllPermissions
  {
    match p
    case _ => {}
  }

  lemma EveryPermissionListed()
    ensures forall p :: p in AllPermissions
  {
    forall p ensures p in AllPermissions {
      Listed(p);
    }
  }

  /** The first permission of `ps` whose name is `s`, if any. */
  function FindByName(ps: seq<Permission>, s: string): (r: Option<Permission>)
    ensures r.Some? ==> r.value in ps && Name(r.value) == s
    ensures r.None? ==> forall p :: p in ps ==> Name(p) != s
  {
    if ps == [] then None
    else if Name(ps[0]) == s then Some(ps[0])
    else FindByName(ps[1..], s)
  }

  /** `CapHealthPermission.from`: `valueOf(s)`, with the exception thrown
      for a string that names no constant turned into null. */
  function From(s: string): (r: Option<Permission>)
    ensures r.Some? ==> Name(r.value) == s
    ensures r.None? <==> forall p :: Name(p) != s
  {
    EveryPermissionListed();
    FindByName(AllPermissions, s)
  }

  /** Every constant parses back from its own name. */
  lemma FromName(p: Permission)
    ensures From(Name(p)) == Some(p)
  {
    var r := From(Name(p));
    assert r.Some?;
    NameInjective(p, r.value);
  }

  /** `permissions.mapNotNull { CapHealthPermission.from(it) }.toSet()`: the
      requested names that are enum names, as a set; anything else is
      dropped without an error, and repeated names collapse. */
  function ParsePermissions(names: seq<string>): (r: set<Permission>)
    ensures forall p :: p in r <==> Name(p) in names
  {
    var r := set i | 0 <= i < |names| && From(names[i]).Some? :: From(names[i]).value;
    forall p | Name(p) in names ensures p in r {
      var i :| 0 <= i < |names| && names[i] == Name(p);
      FromName(p);
    }
    r
  }

  /** The permission name that the TypeScript declarations offer for total
      calories is the native name, not an enum name. */
  lemma TotalCaloriesBurnedIsNoName()
    ensures forall p :: Name(p) != "READ_TOTAL_CALORIES_BURNED"
  {
    var s := "READ_TOTAL_CALORIES_BURNED";
    assert |s| > 6 && NameKeyOwner(|s|, s[5], s[6]).None?;
    NoNameWithKey(s);
  }

  /** So `from` finds no constant for it, and a request for it alone asks
      for nothing. */
  lemma TotalCaloriesBurnedIsDropped()
    ensures From("READ_TOTAL_CALORIES_BURNED") == None
    ensures ParsePermissions(["READ_TOTAL_CALORIES_BURNED"]) == {}
  {
    TotalCaloriesBurnedIsNoName();
  }

  /** `permissionMapping`: abstract permission to native permission string. */
  const PermissionMapping: imap<Permission, string> :=
    imap p: Permission :: HealthPrefix + NativeName(p)

  /** `permissionMapping[p]`, null when `p` has no entry. */
  function NativePermission(p: Permission): Option<string>
  {
    if p in PermissionMapping then Some(PermissionMapping[p]) else None
  }

  /** Every abstract permission has a native counterpart. */
  lemma MappingIsTotal(p: Permission)
    ensures NativePermission(p) == Some(HealthPrefix + NativeName(p))
  {
  }
}
