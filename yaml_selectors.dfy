/** The choices the manifest factory makes before it substitutes into a
    template: the CSI sidecar registry, which versioned Deployment and
    DaemonSet template to use, the API versions and template variants for
    OpenShift, the privileged or unprivileged SCC, the installer pod command,
    the Deployment's command-line settings, and the label the CSI Deployment
    and DaemonSet add to the caller's labels map. Templates are tags; their
    text is not modelled. */
module ManifestSelectors {
  import opened Wrappers
  import opened Strs

  // ---------------------------------------------------------------------
  // Sidecar registry

  /** The default sidecar registries, before and from Kubernetes 1.17. */
  const KubernetesCSISidecarRegistryPre117 := "quay.io/k8scsi"
  const KubernetesCSISidecarRegistry117Plus := "k8s.gcr.io/sig-storage"

  /** `strings.TrimSuffix`: removes one occurrence of suffix at the end. */
  function TrimSuffix(s: string, suffix: string): (r: string)
    ensures HasSuffix(s, suffix) ==> r + suffix == s
    ensures !HasSuffix(s, suffix) ==> r == s
  {
    if HasSuffix(s, suffix) then s[..|s| - |suffix|] else s
  }

  /** `getRegistryVal`: a custom registry is kept, less one trailing slash;
      without one, the default of the Kubernetes generation. */
  function GetRegistryVal(registry: string, isGCRRegistryVersion: bool): (r: string)
    ensures registry != "" && HasSuffix(registry, "/") ==> r + "/" == registry
    ensures registry != "" && !HasSuffix(registry, "/") ==> r == registry
    ensures registry == "" ==> (r == KubernetesCSISidecarRegistry117Plus <==> isGCRRegistryVersion)
    ensures registry == "" ==> (r == KubernetesCSISidecarRegistryPre117 <==> !isGCRRegistryVersion)
  {
    if registry != "" then TrimSuffix(registry, "/")
    else if isGCRRegistryVersion then KubernetesCSISidecarRegistry117Plus
    else KubernetesCSISidecarRegistryPre117
  }

  /** Only one slash is removed: a registry given with two keeps the second. */
  lemma RegistryKeepsInnerSlash(registry: string)
    requires HasSuffix(registry, "//")
    ensures HasSuffix(GetRegistryVal(registry, true), "/")
    ensures HasSuffix(GetRegistryVal(registry, false), "/")
  {
    var r := GetRegistryVal(registry, true);
    assert registry[|registry| - 1] == '/' && registry[|registry| - 2] == '/';
    assert HasSuffix(registry, "/");
    assert r == registry[..|registry| - 1];
    assert r[|r| - 1..] == "/";
  }

  // ---------------------------------------------------------------------
  // Versioned templates

  datatype DeploymentTemplate = CSIDeployment113 | CSIDeployment114 | CSIDeployment116 | CSIDeployment117 | CSIDeployment120

  datatype DaemonSetTemplate = DaemonSet113 | DaemonSet114 | DaemonSet118

  /** The mutually dependent outputs of the version switch: template and
      whether the 1.17+ registry applies. */
  datatype Choice<T> = Choice(template: T, isGCRRegistryVersion: bool)

  /** The version switch of `GetCSIDeploymentYAML`, on the minor version
      only. */
  function DeploymentTemplateFor(minor: nat): (c: Choice<DeploymentTemplate>)
    ensures c.isGCRRegistryVersion <==> !(13 <= minor <= 16)
    ensures minor == 13 <==> c.template == CSIDeployment113
    ensures (minor == 14 || minor == 15) <==> c.template == CSIDeployment114
    ensures minor == 16 <==> c.template == CSIDeployment116
    ensures (17 <= minor <= 19) <==> c.template == CSIDeployment117
    ensures (minor < 13 || minor >= 20) <==> c.template == CSIDeployment120
  {
    match minor
    case 13 => Choice(CSIDeployment113, false)
    case 14 => Choice(CSIDeployment114, false)
    case 15 => Choice(CSIDeployment114, false)
    case 16 => Choice(CSIDeployment116, false)
    case 17 => Choice(CSIDeployment117, true)
    case 18 => Choice(CSIDeployment117, true)
    case 19 => Choice(CSIDeployment117, true)
    case _ => Choice(CSIDeployment120, true)
  }

  /** The version switch of `GetCSIDaemonSetYAML`: only a 1.x version picks
      an older template; 1.17 keeps the 1.14 template with the new registry. */
  function DaemonSetTemplateFor(major: nat, minor: nat): (c: Choice<DaemonSetTemplate>)
    ensures major != 1 ==> c == Choice(DaemonSet118, true)
    ensures major == 1 ==> (c.template == DaemonSet113 <==> minor == 13)
    ensures major == 1 ==> (c.template == DaemonSet114 <==> 14 <= minor <= 17)
    ensures c.isGCRRegistryVersion <==> !(major == 1 && 13 <= minor <= 16)
  {
    if major == 1 then
      match minor
      case 13 => Choice(DaemonSet113, false)
      case 14 => Choice(DaemonSet114, false)
      case 15 => Choice(DaemonSet114, false)
      case 16 => Choice(DaemonSet114, false)
      case 17 => Choice(DaemonSet114, true)
      case _ => Choice(DaemonSet118, true)
    else Choice(DaemonSet118, true)
  }

  /** On Kubernetes 1.x the Deployment and the DaemonSet always pull their
      sidecars from the same default registry. */
  lemma RegistryGenerationsAgree(minor: nat, registry: string)
    ensures DeploymentTemplateFor(minor).isGCRRegistryVersion == DaemonSetTemplateFor(1, minor).isGCRRegistryVersion
    ensures GetRegistryVal(registry, DeploymentTemplateFor(minor).isGCRRegistryVersion)
            == GetRegistryVal(registry, DaemonSetTemplateFor(1, minor).isGCRRegistryVersion)
  {
  }

  /** The Deployment switch ignores the major version, the DaemonSet switch
      does not: for a major version other than 1 with minor 13 to 16 they
      choose different registries. */
  lemma RegistryGenerationsDifferBeyondMajorOne(major: nat, minor: nat)
    requires major != 1 && 13 <= minor <= 16
    ensures !DeploymentTemplateFor(minor).isGCRRegistryVersion
    ensures DaemonSetTemplateFor(major, minor).isGCRRegistryVersion
  {
  }

  function DeploymentRank(t: DeploymentTemplate): nat
  {
    match t
    case CSIDeployment113 => 0
    case CSIDeployment114 => 1
    case CSIDeployment116 => 2
    case CSIDeployment117 => 3
    case CSIDeployment120 => 4
  }

  /** From 1.13 on, a newer Kubernetes never gets an older Deployment template. */
  lemma DeploymentTemplateMonotone(a: nat, b: nat)
    requires 13 <= a <= b
    ensures DeploymentRank(DeploymentTemplateFor(a).template) <= DeploymentRank(DeploymentTemplateFor(b).template)
  {
  }

  // ---------------------------------------------------------------------
  // Flavours and RBAC

  datatype OrchestratorFlavor = FlavorKubernetes | FlavorOpenShift

  const OpenShiftAuthorizationAPI := "authorization.openshift.io/v1"
  const RbacAPI := "rbac.authorization.k8s.io/v1"

  datatype ClusterRoleTemplate = ClusterRoleCSI | ClusterRoleLegacy

  /** `GetClusterRoleYAML`: the template follows the CSI flag; the OpenShift
      3.x API group only for a non-CSI OpenShift install. */
  function ClusterRoleChoice(flavor: OrchestratorFlavor, csi: bool): (c: (ClusterRoleTemplate, string))
    ensures c.0 == ClusterRoleCSI <==> csi
    ensures c.1 == OpenShiftAuthorizationAPI <==> flavor == FlavorOpenShift && !csi
    ensures c.1 == RbacAPI <==> !(flavor == FlavorOpenShift && !csi)
  {
    (if csi then ClusterRoleCSI else ClusterRoleLegacy,
     if flavor == FlavorOpenShift && !csi then OpenShiftAuthorizationAPI else RbacAPI)
  }

  datatype ClusterRoleBindingTemplate = ClusterRoleBindingOpenShift | ClusterRoleBindingKubernetesV1

  /** `GetClusterRoleBindingYAML`. */
  function ClusterRoleBindingChoice(flavor: OrchestratorFlavor, csi: bool): (t: ClusterRoleBindingTemplate)
    ensures t == ClusterRoleBindingOpenShift <==> flavor == FlavorOpenShift && !csi
  {
    if flavor == FlavorOpenShift && !csi then ClusterRoleBindingOpenShift else ClusterRoleBindingKubernetesV1
  }

  /** The binding uses the OpenShift template exactly when the role uses the
      OpenShift API group, so role and binding always agree. */
  lemma RoleAndBindingAgree(flavor: OrchestratorFlavor, csi: bool)
    ensures (ClusterRoleBindingChoice(flavor, csi) == ClusterRoleBindingOpenShift)
            <==> ClusterRoleChoice(flavor, csi).1 == OpenShiftAuthorizationAPI
  {
  }

  datatype InstallerTemplate = InstallerOpenShift | InstallerKubernetes

  /** `GetInstallerClusterRoleYAML` and `GetInstallerClusterRoleBindingYAML`:
      OpenShift has its own variant; any other flavour falls through to the
      Kubernetes one. */
  function InstallerRbacChoice(flavor: OrchestratorFlavor): (t: InstallerTemplate)
    ensures t == InstallerOpenShift <==> flavor == FlavorOpenShift
  {
    match flavor
    case FlavorOpenShift => InstallerOpenShift
    case FlavorKubernetes => InstallerKubernetes
  }

  datatype ServiceAccountTemplate = ServiceAccountPlain | ServiceAccountWithSecrets

  /** `GetServiceAccountYAML`: the variant with a secrets block exactly when
      there are secrets. */
  function ServiceAccountChoice(secrets: seq<string>): (t: ServiceAccountTemplate)
    ensures t == ServiceAccountWithSecrets <==> |secrets| > 0
  {
    if |secrets| > 0 then ServiceAccountWithSecrets else ServiceAccountPlain
  }

  const TridentAppLabelKey := "app"
  const DefaultContainerLabelKey := "kubectl.kubernetes.io/default-container"

  /** Reading a Go map: a nil map or a missing key gives "". */
  function Lookup(m: Option<map<string, string>>, key: string): (v: string)
    ensures m.Some? && key in m.value ==> v == m.value[key]
    ensures !(m.Some? && key in m.value) ==> v == ""
  {
    if m.Some? && key in m.value then m.value[key] else ""
  }

  datatype SCCTemplate = SCCPrivileged | SCCUnprivileged

  /** `GetOpenShiftSCCYAML`: the privileged SCC goes to CSI apps and to the
      installer user; everyone else gets the unprivileged one. */
  function SCCChoice(labels: Option<map<string, string>>, user: string): (t: SCCTemplate)
    ensures t == SCCPrivileged <==> Contains(Lookup(labels, TridentAppLabelKey), "csi") || user == "trident-installer"
  {
    if !Contains(Lookup(labels, TridentAppLabelKey), "csi") && user != "trident-installer" then SCCUnprivileged
    else SCCPrivileged
  }

  /** An app label embedding "csi" anywhere makes the SCC privileged. */
  lemma CsiAppLabelIsPrivileged(labels: map<string, string>, before: string, after: string, user: string)
    requires TridentAppLabelKey in labels && labels[TridentAppLabelKey] == before + "csi" + after
    ensures SCCChoice(Some(labels), user) == SCCPrivileged
  {
    ContainsMiddle(before, "csi", after);
  }

  // ---------------------------------------------------------------------
  // Installer command

  /** The `command:` value of the installer and uninstaller pods: a JSON-like
      list of the arguments, each in double quotes. */
  function PodCommand(commandArgs: seq<string>): (command: string)
    ensures HasPrefix(command, "[\"") && HasSuffix(command, "\"]")
    ensures |commandArgs| == 1 ==> command == "[\"" + commandArgs[0] + "\"]"
  {
    "[\"" + Join(commandArgs, "\", \"") + "\"]"
  }

  /** No arguments still give one empty quoted argument. */
  lemma PodCommandEmpty()
    ensures PodCommand([]) == "[\"\"]"
  {
  }

  /** Appending an argument adds one quoted, comma-separated entry before the
      closing bracket. */
  lemma PodCommandSnoc(commandArgs: seq<string>, arg: string)
    requires |commandArgs| > 0
    ensures PodCommand(commandArgs + [arg])
            == PodCommand(commandArgs)[..|PodCommand(commandArgs)| - 2] + "\", \"" + arg + "\"]"
  {
    JoinSnoc(commandArgs, arg, "\", \"");
    var j := Join(commandArgs, "\", \"");
    assert PodCommand(commandArgs) == "[\"" + j + "\"]";
    assert PodCommand(commandArgs)[..|PodCommand(commandArgs)| - 2] == "[\"" + j;
  }

  /** The length of the command: the arguments, two quotes each, a ", "
      between neighbours and the brackets. */
  lemma PodCommandLength(commandArgs: seq<string>)
    requires |commandArgs| > 0
    ensures |PodCommand(commandArgs)| == TotalLength(commandArgs) + 4 * |commandArgs|
  {
    JoinLength(commandArgs, "\", \"");
  }

  /** Arguments without a double quote give exactly two quote characters per
      argument. */
  lemma {:induction false} PodCommandQuotes(commandArgs: seq<string>)
    requires |commandArgs| > 0
    requires forall i :: 0 <= i < |commandArgs| ==> forall k :: 0 <= k < |commandArgs[i]| ==> commandArgs[i][k] != '"'
    ensures CountChar(PodCommand(commandArgs), '"') == 2 * |commandArgs|
    decreases |commandArgs|
  {
    var sep := "\", \"";
    if |commandArgs| == 1 {
      assert Join(commandArgs, sep) == commandArgs[0];
      CountCharAbsent(commandArgs[0], '"');
      CountCharAppend("[\"", commandArgs[0], '"');
      CountCharAppend("[\"" + commandArgs[0], "\"]", '"');
      assert CountChar("[\"", '"') == 1;
      assert CountChar("\"]", '"') == 1;
    } else {
      var init := commandArgs[..|commandArgs| - 1];
      var last := commandArgs[|commandArgs| - 1];
      assert commandArgs == init + [last];
      PodCommandQuotes(init);
      PodCommandSnoc(init, last);
      var p := PodCommand(init);
      var head := p[..|p| - 2];
      assert p == head + "\"]";
      CountCharAppend(head, "\"]", '"');
      assert CountChar("\"]", '"') == 1;
      CountCharAbsent(last, '"');
      assert CountChar(sep, '"') == 2;
      CountCharAppend(head, sep, '"');
      CountCharAppend(head + sep, last, '"');
      CountCharAppend(head + sep + last, "\"]", '"');
    }
  }

  // ---------------------------------------------------------------------
  // Deployment settings

  /** The single-line substitutions of `GetCSIDeploymentYAML`. */
  datatype DeploymentSettings = DeploymentSettings(
    debugLine: string,
    logLevel: string,
    ipLocalhost: string,
    autosupportImage: string,
    autosupportProxyLine: string,
    autosupportCustomURLLine: string,
    autosupportSerialNumberLine: string,
    autosupportHostnameLine: string,
    autosupportSilence: string,
    provisionerFeatureGates: string)

  /** An optional command-line flag: absent for an empty value. */
  function OptionalFlag(flag: string, value: string): (line: string)
    ensures value == "" <==> line == ""
    ensures value != "" ==> HasPrefix(line, flag) && line[|flag|..] == value
  {
    if value == "" then "" else flag + value
  }

  /** `strconv.FormatBool`. */
  function FormatBool(b: bool): (s: string)
    ensures s == "true" <==> b
    ensures s == "false" <==> !b
  {
    if b then "true" else "false"
  }

  /** The settings computed from the Deployment's arguments; the default
      autosupport image is the configuration constant `defaultAutosupportImage`. */
  function GetDeploymentSettings(debug: bool, useIPv6: bool, silenceAutosupport: bool, topologyEnabled: bool,
                                 autosupportImage: string, defaultAutosupportImage: string,
                                 autosupportProxy: string, autosupportCustomURL: string,
                                 autosupportSerialNumber: string, autosupportHostname: string): (s: DeploymentSettings)
    ensures s.debugLine == "- -debug" <==> debug
    ensures s.debugLine == "#- -debug" <==> !debug
    ensures s.logLevel == "9" <==> debug
    ensures s.logLevel == "2" <==> !debug
    ensures s.ipLocalhost == "[::1]" <==> useIPv6
    ensures s.ipLocalhost == "127.0.0.1" <==> !useIPv6
    ensures autosupportImage != "" ==> s.autosupportImage == autosupportImage
    ensures autosupportImage == "" ==> s.autosupportImage == defaultAutosupportImage
    ensures s.autosupportProxyLine == OptionalFlag("- -proxy-url=", autosupportProxy)
    ensures s.autosupportCustomURLLine == OptionalFlag("- -custom-url=", autosupportCustomURL)
    ensures s.autosupportSerialNumberLine == OptionalFlag("- -serial-number=", autosupportSerialNumber)
    ensures s.autosupportHostnameLine == OptionalFlag("- -hostname=", autosupportHostname)
    ensures s.autosupportSilence == FormatBool(silenceAutosupport)
    ensures topologyEnabled ==> s.provisionerFeatureGates == "- --feature-gates=Topology=True"
    ensures !topologyEnabled ==> s.provisionerFeatureGates == ""
  {
    DeploymentSettings(
      if debug then "- -debug" else "#- -debug",
      if debug then "9" else "2",
      if useIPv6 then "[::1]" else "127.0.0.1",
      if autosupportImage == "" then defaultAutosupportImage else autosupportImage,
      OptionalFlag("- -proxy-url=", autosupportProxy),
      OptionalFlag("- -custom-url=", autosupportCustomURL),
      OptionalFlag("- -serial-number=", autosupportSerialNumber),
      OptionalFlag("- -hostname=", autosupportHostname),
      FormatBool(silenceAutosupport),
      if topologyEnabled then "- --feature-gates=Topology=True" else "")
  }

  /** `strings.TrimRight(kubeletDir, "/")`: every trailing slash goes. */
  function TrimTrailingSlashes(s: string): (r: string)
    ensures |r| <= |s| && s[..|r|] == r
    ensures r == "" || r[|r| - 1] != '/'
    ensures forall i :: |r| <= i < |s| ==> s[i] == '/'
    decreases |s|
  {
    if s != [] && s[|s| - 1] == '/' then TrimTrailingSlashes(s[..|s| - 1]) else s
  }

  /** Trimming is idempotent, and a directory given with any number of
      trailing slashes trims to the same path. */
  lemma {:induction false} TrimTrailingSlashesIdempotent(s: string, n: nat)
    ensures TrimTrailingSlashes(TrimTrailingSlashes(s)) == TrimTrailingSlashes(s)
    ensures TrimTrailingSlashes(s + Repeat('/', n)) == TrimTrailingSlashes(s)
    decreases n
  {
    if n > 0 {
      var t := s + Repeat('/', n);
      assert t[..|t| - 1] == s + Repeat('/', n - 1);
      TrimTrailingSlashesIdempotent(s, n - 1);
    } else {
      assert s + Repeat('/', 0) == s;
    }
  }

  // ---------------------------------------------------------------------
  // The labels map

  /** A Go map the caller may share with the factory; `GetCSIDeploymentYAML`
      and `GetCSIDaemonSetYAML` write into it. */
  class LabelMap {
    var entries: map<string, string>

    constructor ()
      ensures entries == map[]
    {
      entries := map[];
    }
  }

  /** The labels with the default-container label set: that key maps to
      "trident-main" and every other entry is kept. */
  function WithDefaultContainer(labels: map<string, string>): (r: map<string, string>)
    ensures DefaultContainerLabelKey in r && r[DefaultContainerLabelKey] == "trident-main"
    ensures forall k :: k != DefaultContainerLabelKey ==> (k in r <==> k in labels)
    ensures forall k :: k != DefaultContainerLabelKey && k in labels ==> r[k] == labels[k]
  {
    labels[DefaultContainerLabelKey := "trident-main"]
  }

  /** Adding the default-container label never changes the app label that
      the templates and the SCC choice read. */
  lemma AppLabelUnaffected(labels: map<string, string>)
    ensures Lookup(Some(WithDefaultContainer(labels)), TridentAppLabelKey) == Lookup(Some(labels), TridentAppLabelKey)
  {
    assert TridentAppLabelKey != DefaultContainerLabelKey;
  }

  /** The label mutation of `GetCSIDeploymentYAML`: a nil map is replaced by a
      fresh local one (the caller's stays nil), a non-nil map is the caller's
      own and gains the label in place. Returns the map the YAML is built from. */
  method LabelDeployment(labels: LabelMap?) returns (used: LabelMap)
    modifies labels
    ensures labels != null ==> used == labels && labels.entries == WithDefaultContainer(old(labels.entries))
    ensures labels == null ==> fresh(used) && used.entries == WithDefaultContainer(map[])
  {
    if labels == null {
      used := new LabelMap();
    } else {
      used := labels;
    }
    used.entries := used.entries[DefaultContainerLabelKey := "trident-main"];
  }

  /** The label mutation of `GetCSIDaemonSetYAML`, which writes without a nil
      check and so needs a map. */
  method LabelDaemonSet(labels: LabelMap)
    modifies labels
    ensures labels.entries == WithDefaultContainer(old(labels.entries))
  {
    labels.entries := labels.entries[DefaultContainerLabelKey := "trident-main"];
  }
}
