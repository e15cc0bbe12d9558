/** The permission gate of the Android bridge (HealthPlugin.kt): whether a
    permission counts as granted is decided by comparing the text after the
    last '.' of its native string with that of each granted string. */
module PermissionGate {
  import opened Results
  import opened PermissionCatalog
  import opened PermissionLookup

  /** Kotlin's `lastIndexOf('.')`: the index of the last '.', or -1. */
  function LastIndexOfDot(s: string): (k: int)
    ensures -1 <= k < |s|
    ensures k >= 0 ==> s[k] == '.'
    ensures forall j :: k < j < |s| ==> s[j] != '.'
  {
    if s == [] then -1
    else if s[|s| - 1] == '.' then |s| - 1
    else LastIndexOfDot(s[..|s| - 1])
  }

  /** Kotlin's `substringAfterLast('.')`: the text after the last '.', or the
      whole string when it has none. */
  function AfterLastDot(s: string): string
  {
    var k := LastIndexOfDot(s);
    if k < 0 then s else s[k + 1..]
  }

  /** Whatever namespace precedes the last '.', the suffix is what follows. */
  lemma AfterLastDotOfQualified(namespace: string, name: string)
    requires '.' !in name
    ensures AfterLastDot(namespace + ['.'] + name) == name
  {
    var s := namespace + ['.'] + name;
    var k := LastIndexOfDot(s);
    assert s[|namespace|] == '.';
    assert s[|namespace| + 1..] == name;
  }

  /** The native permission strings of the platform with their namespace
      stripped (`grantedPermissions.map { it.substringAfterLast('.') }`). */
  function WithoutPrefix(granted: set<string>): set<string>
  {
    set g | g in granted :: AfterLastDot(g)
  }

  /** The suffix test on a native string that may be missing: the suffix
      is the suffix of some granted string; a missing native string is
      compared as null against the list, so it is never found. */
  predicate SuffixGranted(native: Option<string>, granted: set<string>)
  {
    match native
    case None => false
    case Some(n) => AfterLastDot(n) in WithoutPrefix(granted)
  }

  /** The test shared by `grantedPermissionResult` and `hasPermission`,
      applied to `p`'s entry in the mapping. */
  predicate IsGranted(p: Permission, granted: set<string>)
  {
    SuffixGranted(NativePermission(p), granted)
  }

  /** `grantedPermissionResult`: one entry per requested permission, keyed
      by its enum name, saying whether the suffix test finds it among the
      granted strings. (The source wraps this object under "permissions".) */
  method GrantedPermissionResult(requested: set<Permission>, granted: set<string>)
    returns (result: map<string, bool>)
    ensures result.Keys == set p | p in requested :: Name(p)
    ensures forall p :: p in requested ==> result[Name(p)] == IsGranted(p, granted)
  {
    var withoutPrefix := set g | g in granted :: AfterLastDot(g);
    result := map[];
    var todo := requested;
    while todo != {}
      invariant todo <= requested
      invariant result.Keys == set p | p in requested - todo :: Name(p)
      invariant forall p :: p in requested - todo ==> result[Name(p)] == IsGranted(p, granted)
      decreases todo
    {
      var p :| p in todo;
      var native := NativePermission(p);
      var isGranted := native.Some? && AfterLastDot(native.value) in withoutPrefix;
      assert isGranted == IsGranted(p, granted);
      forall q | Name(q) == Name(p) ensures q == p {
        NameInjective(p, q);
      }
      result := result[Name(p) := isGranted];
      todo := todo - {p};
    }
  }
}
