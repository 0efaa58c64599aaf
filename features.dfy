/** ONTAPI versions and the version-gated feature table. A version is a
    (major, minor, patch) triple compared lexicographically; the client renders
    the controller's ONTAPI version as "major.minor", appends ".0" and parses
    the result before comparing it with a feature's minimum. */
module Features {
  import opened Wrappers
  import opened Strs

  datatype Version = Version(major: nat, minor: nat, patch: nat)

  /** `Version.AtLeast`: lexicographic order on the triple. */
  predicate AtLeast(v: Version, min: Version)
  {
    v.major > min.major
    || (v.major == min.major && v.minor > min.minor)
    || (v.major == min.major && v.minor == min.minor && v.patch >= min.patch)
  }

  /** AtLeast is a total order: reflexive, transitive, total and antisymmetric. */
  lemma AtLeastIsTotalOrder(a: Version, b: Version, c: Version)
    ensures AtLeast(a, a)
    ensures AtLeast(a, b) && AtLeast(b, c) ==> AtLeast(a, c)
    ensures AtLeast(a, b) || AtLeast(b, a)
    ensures AtLeast(a, b) && AtLeast(b, a) ==> a == b
  {
  }

  /** The feature names the drivers ask about. */
  const MinimumONTAPIVersion := "MINIMUM_ONTAPI_VERSION"
  const NetAppFlexGroups := "NETAPP_FLEXGROUPS"
  const NetAppFlexGroupsClone := "NETAPP_FLEXGROUPS_CLONE_ONTAPI_MINIMUM"
  const NetAppFabricPoolFlexVol := "NETAPP_FABRICPOOL_FLEXVOL"
  const NetAppFabricPoolFlexGroup := "NETAPP_FABRICPOOL_FLEXGROUP"
  const LunGeometrySkip := "LUN_GEOMETRY_SKIP"
  const FabricPoolForSVMDR := "FABRICPOOL_FOR_SVMDR"
  const QosPolicies := "QOS_POLICIES"
  const LIFServices := "LIF_SERVICES"

  /** The minimum ONTAPI version of each feature. */
  const FeatureTable: map<string, Version> := map[
    MinimumONTAPIVersion := Version(1, 130, 0),
    NetAppFlexGroups := Version(1, 120, 0),
    NetAppFlexGroupsClone := Version(1, 170, 0),
    NetAppFabricPoolFlexVol := Version(1, 120, 0),
    NetAppFabricPoolFlexGroup := Version(1, 150, 0),
    LunGeometrySkip := Version(1, 150, 0),
    FabricPoolForSVMDR := Version(1, 150, 0),
    QosPolicies := Version(1, 180, 0),
    LIFServices := Version(1, 160, 0)
  ]

  /** `utils.ParseSemantic` restricted to what the client hands it: three
      dot-separated decimal fields. Anything else does not parse. */
  function ParseVersion(s: string): (v: Option<Version>)
  {
    var parts := SplitOn(s, '.');
    if |parts| == 3 && IsDecimal(parts[0]) && IsDecimal(parts[1]) && IsDecimal(parts[2])
    then Some(Version(DecimalValue(parts[0]), DecimalValue(parts[1]), DecimalValue(parts[2])))
    else None
  }

  /** How the client stores an ONTAPI version: `fmt.Sprintf("%d.%d", major, minor)`. */
  function OntapiVersionString(major: nat, minor: nat): string
  {
    NatToString(major) + "." + NatToString(minor)
  }

  /** The ".0"-suffixed cache string parses back to exactly (major, minor, 0). */
  lemma OntapiVersionRoundTrip(major: nat, minor: nat)
    ensures ParseVersion(OntapiVersionString(major, minor) + ".0") == Some(Version(major, minor, 0))
  {
    var a, b := NatToString(major), NatToString(minor);
    NatToStringRoundTrip(major);
    NatToStringRoundTrip(minor);
    assert OntapiVersionString(major, minor) + ".0" == a + ['.'] + (b + ['.'] + "0");
    SplitOnField(a, '.', b + ['.'] + "0");
    SplitOnField(b, '.', "0");
    SplitOnNoSep("0", '.');
    assert DecimalValue("0") == 0 by {
      assert "0"[..0] == "";
    }
  }

  /** Whether a controller whose cached version string is `ontapiVersion`
      supports the feature: the string must parse once ".0" is appended, the
      feature must be in the table, and the version must reach its minimum. */
  function SupportsFeatureAt(ontapiVersion: string, feature: string): (r: bool)
    ensures r ==> feature in FeatureTable
  {
    match ParseVersion(ontapiVersion + ".0")
    case None => false
    case Some(v) => feature in FeatureTable && AtLeast(v, FeatureTable[feature])
  }

  /** For a version the client itself rendered, support is exactly the table
      comparison; a feature outside the table is never supported. */
  lemma SupportsFeatureOfRenderedVersion(major: nat, minor: nat, feature: string)
    ensures SupportsFeatureAt(OntapiVersionString(major, minor), feature)
            <==> feature in FeatureTable && AtLeast(Version(major, minor, 0), FeatureTable[feature])
  {
    OntapiVersionRoundTrip(major, minor);
  }

  /** The tiering policy rule: "snapshot-only" only for an SVM in an SVM-DR
      relationship on a controller older than the FabricPool-for-SVM-DR release;
      "none" otherwise. */
  function TieringPolicyFor(supportsFabricPoolForSVMDR: bool, inSVMDR: bool): (p: string)
    ensures p == "snapshot-only" <==> !supportsFabricPoolForSVMDR && inSVMDR
    ensures p == "none" <==> !(!supportsFabricPoolForSVMDR && inSVMDR)
  {
    if !supportsFabricPoolForSVMDR && inSVMDR then "snapshot-only" else "none"
  }

  /** ONTAPI 1.150 (ONTAP 9.5) and later always get "none", SVM-DR or not;
      before it an SVM-DR member gets "snapshot-only". */
  lemma TieringPolicyByVersion(major: nat, minor: nat, inSVMDR: bool)
    ensures var supported := SupportsFeatureAt(OntapiVersionString(major, minor), FabricPoolForSVMDR);
            TieringPolicyFor(supported, inSVMDR) == "none"
            <==> AtLeast(Version(major, minor, 0), Version(1, 150, 0)) || !inSVMDR
  {
    SupportsFeatureOfRenderedVersion(major, minor, FabricPoolForSVMDR);
  }
}
