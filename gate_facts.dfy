/** Properties of the permission gate: what the suffix comparison grants,
    and that for Health Connect's own strings it is exact. */
module PermissionGateFacts {
  import opened Results
  import opened PermissionCatalog
  import opened PermissionLookup
  import opened PermissionGate

  /** Every permission's native string is its native name in the Health
      Connect namespace, and the name has no '.' of its own. */
  lemma NativeIsQualified(p: Permission)
    ensures NativePermission(p) == Some("android.permission.health" + ['.'] + NativeName(p))
    ensures '.' !in NativeName(p)
  {
    MappingIsTotal(p);
    NativeNameUndotted(p);
    HealthPrefixIsNamespace();
  }

  /** For a qualified native string, the suffix test asks whether some
      granted string has the same text after its last '.'. */
  lemma SuffixGrantedIff(native: Option<string>, namespace: string, name: string, granted: set<string>)
    requires native == Some(namespace + ['.'] + name)
    requires '.' !in name
    ensures SuffixGranted(native, granted) <==>
      exists g :: g in granted && AfterLastDot(g) == name
  {
    AfterLastDotOfQualified(namespace, name);
  }

  /** `p` is granted exactly when some granted string ends in '.' followed
      by `p`'s native name, or is that name itself. */
  lemma IsGrantedIff(p: Permission, granted: set<string>)
    ensures IsGranted(p, granted) <==>
      exists g :: g in granted && AfterLastDot(g) == NativeName(p)
  {
    NativeIsQualified(p);
    var native := NativePermission(p);
    assert IsGranted(p, granted) <==> SuffixGranted(native, granted);
    SuffixGrantedIff(native, "android.permission.health", NativeName(p), granted);
  }

  /** The suffix test ignores the namespace: a string from any namespace
      that ends in `p`'s native name grants `p`. */
  lemma GrantedFromAnyNamespace(p: Permission, namespace: string, granted: set<string>)
    requires namespace + ['.'] + NativeName(p) in granted
    ensures IsGranted(p, granted)
  {
    NativeNameUndotted(p);
    AfterLastDotOfQualified(namespace, NativeName(p));
    IsGrantedIff(p, granted);
  }

  /** A set of strings that are all Health Connect permissions, as the
      platform reports them. */
  ghost predicate InHealthNamespace(granted: set<string>)
  {
    forall g :: g in granted ==> exists name :: '.' !in name && g == HealthPrefix + name
  }

  /** Within one namespace, the suffix test is exact membership. */
  lemma SuffixTestIsMembership(namespace: string, name: string, granted: set<string>)
    requires '.' !in name
    requires forall g :: g in granted ==> exists n :: '.' !in n && g == namespace + ['.'] + n
    ensures (exists g :: g in granted && AfterLastDot(g) == name) <==>
      namespace + ['.'] + name in granted
  {
    if exists g :: g in granted && AfterLastDot(g) == name {
      var g :| g in granted && AfterLastDot(g) == name;
      var n :| '.' !in n && g == namespace + ['.'] + n;
      AfterLastDotOfQualified(namespace, n);
    } else {
      AfterLastDotOfQualified(namespace, name);
    }
  }

  /** For strings in the Health Connect namespace the suffix test is exact:
      `p` is granted iff its own native permission is among them. */
  lemma GrantedIffNativeGranted(p: Permission, granted: set<string>)
    requires InHealthNamespace(granted)
    ensures IsGranted(p, granted) <==> HealthPrefix + NativeName(p) in granted
  {
    IsGrantedIff(p, granted);
    NativeNameUndotted(p);
    HealthPrefixIsNamespace();
    SuffixTestIsMembership("android.permission.health", NativeName(p), granted);
  }

  /** A single qualified grant has exactly one undotted suffix. */
  lemma SingleGrantSuffix(grant: string, namespace: string, name: string, other: string)
    requires grant == namespace + ['.'] + other
    requires '.' !in other
    ensures (exists g :: g in {grant} && AfterLastDot(g) == name) <==> name == other
  {
    AfterLastDotOfQualified(namespace, other);
  }

  /** Granting `q`'s native permission alone grants `p` iff the two share
      a native name. */
  lemma SingleGrantMatchesName(p: Permission, q: Permission)
    ensures IsGranted(p, {HealthPrefix + NativeName(q)}) <==> NativeName(p) == NativeName(q)
  {
    var grant := HealthPrefix + NativeName(q);
    HealthPrefixIsNamespace();
    IsGrantedIff(p, {grant});
    NativeNameUndotted(q);
    SingleGrantSuffix(grant, "android.permission.health", NativeName(p), NativeName(q));
  }

  /** Granting one native permission grants exactly one abstract permission:
      suffixes never make two permissions share a grant. */
  lemma OneGrantOnePermission(p: Permission, q: Permission)
    ensures IsGranted(p, {HealthPrefix + NativeName(q)}) <==> p == q
  {
    SingleGrantMatchesName(p, q);
    if NativeName(p) == NativeName(q) {
      NativeNameInjective(p, q);
    }
  }
}
