/** The ONTAP client object: its configuration, the ZAPI runner it shares with
    every copy of itself, the clones handed to callers, and the ONTAPI version
    it caches in that runner. */
module OntapClient {
  import opened Wrappers
  import opened Strs
  import opened ZapiErrors
  import opened Features
  import opened Records

  /** Page sizes for iterative ZAPI queries. */
  const DefaultZapiRecords := 100
  const MaxZapiRecords := 0xfffffffe

  /** The frontends a driver runs under; only Docker changes the client. */
  datatype DriverContext = ContextDocker | ContextCSI

  datatype ClientConfig = ClientConfig(
    managementLIF: string,
    svm: string,
    username: string,
    password: string,
    clientPrivateKey: string,
    clientCertificate: string,
    trustedCACertificate: string,
    driverContext: DriverContext,
    contextBasedZapiRecords: int,
    debugTraceFlags: map<string, bool>)

  /** The record count NewClient chooses: the maximum under Docker, so that
      volume, LUN and qtree listings come back in one page, the default
      otherwise. */
  function RecordsFor(driverContext: DriverContext): (n: int)
    ensures n == MaxZapiRecords <==> driverContext == ContextDocker
    ensures n == DefaultZapiRecords <==> driverContext != ContextDocker
    ensures 0 < n <= MaxZapiRecords
  {
    if driverContext == ContextDocker then MaxZapiRecords else DefaultZapiRecords
  }

  /** Every field of a ZAPI runner, as one value. */
  datatype RunnerState = RunnerState(
    managementLIF: string,
    svm: string,
    username: string,
    password: string,
    clientPrivateKey: string,
    clientCertificate: string,
    trustedCACertificate: string,
    secure: bool,
    ontapiVersion: string,
    debugTraceFlags: map<string, bool>)

  /** The runner NewClient builds from a configuration: TLS always on, no
      ONTAPI version cached yet. */
  function InitialRunner(config: ClientConfig): (s: RunnerState)
    ensures s.secure && s.ontapiVersion == ""
    ensures s.managementLIF == config.managementLIF && s.svm == config.svm
    ensures s.username == config.username && s.password == config.password
    ensures s.clientPrivateKey == config.clientPrivateKey && s.clientCertificate == config.clientCertificate
    ensures s.trustedCACertificate == config.trustedCACertificate && s.debugTraceFlags == config.debugTraceFlags
  {
    RunnerState(config.managementLIF, config.svm, config.username, config.password, config.clientPrivateKey,
                config.clientCertificate, config.trustedCACertificate, true, "", config.debugTraceFlags)
  }

  /** A runner whose calls are not tunneled to an SVM: only the SVM is cleared. */
  function Nontunneled(s: RunnerState): (r: RunnerState)
    ensures r.svm == ""
    ensures r.(svm := s.svm) == s
  {
    s.(svm := "")
  }

  /** The connection settings of one ONTAP endpoint. */
  class ZapiRunner {
    var managementLIF: string
    var svm: string
    var username: string
    var password: string
    var clientPrivateKey: string
    var clientCertificate: string
    var trustedCACertificate: string
    var secure: bool
    var ontapiVersion: string
    var debugTraceFlags: map<string, bool>

    function State(): RunnerState
      reads this
    {
      RunnerState(managementLIF, svm, username, password, clientPrivateKey, clientCertificate,
                  trustedCACertificate, secure, ontapiVersion, debugTraceFlags)
    }

    /** A runner holding exactly `s`; both `new(ZapiRunner)` followed by a
        struct copy and the literal in NewClient are this. */
    constructor (s: RunnerState)
      ensures State() == s
    {
      managementLIF := s.managementLIF;
      svm := s.svm;
      username := s.username;
      password := s.password;
      clientPrivateKey := s.clientPrivateKey;
      clientCertificate := s.clientCertificate;
      trustedCACertificate := s.trustedCACertificate;
      secure := s.secure;
      ontapiVersion := s.ontapiVersion;
      debugTraceFlags := s.debugTraceFlags;
    }
  }

  /** The answer of system-get-ontapi-version. */
  datatype VersionResponse = VersionResponse(callErr: Option<Error>, result: ZapiError, majorVersion: nat, minorVersion: nat)

  /** Reference definition of the cached version lookup: a cached version is
      returned as is; otherwise the controller's answer is rendered as
      "major.minor", or its failure reported. */
  function OntapiVersionOf(cached: string, answer: VersionResponse): (r: Result<string, Error>)
    ensures cached != "" ==> r == Success(cached)
    ensures r.Success? ==> r.value != ""
    ensures cached == "" ==> (r.Success? <==> answer.callErr.None? && answer.result.IsPassed())
    ensures cached == "" && r.Success? ==> r.value == OntapiVersionString(answer.majorVersion, answer.minorVersion)
    ensures r.Failure? ==> r.error.Message? && HasPrefix(r.error.text, "could not read ONTAPI version: ")
  {
    if cached != "" then Success(cached)
    else
      var err := GetError(Some(answer.result), answer.callErr);
      if err.Some? then Failure(Message("could not read ONTAPI version: " + ErrorText(err.value)))
      else Success(OntapiVersionString(answer.majorVersion, answer.minorVersion))
  }

  /** Reference definition of SupportsFeature: any failure to learn or parse
      the version means "not supported". */
  function SupportedBy(cached: string, answer: VersionResponse, feature: string): bool
  {
    match OntapiVersionOf(cached, answer)
    case Success(v) => SupportsFeatureAt(v, feature)
    case Failure(_) => false
  }

  /** On a first lookup that succeeds, support is the feature table's
      comparison against (major, minor, 0); a failed lookup supports nothing. */
  lemma SupportOnFirstLookup(answer: VersionResponse, feature: string)
    ensures SupportedBy("", answer, feature) <==>
              answer.callErr.None? && answer.result.IsPassed() && feature in FeatureTable
              && AtLeast(Version(answer.majorVersion, answer.minorVersion, 0), FeatureTable[feature])
  {
    SupportsFeatureOfRenderedVersion(answer.majorVersion, answer.minorVersion, feature);
  }

  /** The tiering policy a client picks on its first version lookup. */
  lemma TieringPolicyOnFirstLookup(answer: VersionResponse, inSVMDR: bool)
    requires answer.callErr.None? && answer.result.IsPassed()
    ensures TieringPolicyFor(SupportedBy("", answer, FabricPoolForSVMDR), inSVMDR) == "none"
            <==> AtLeast(Version(answer.majorVersion, answer.minorVersion, 0), Version(1, 150, 0)) || !inSVMDR
  {
    TieringPolicyByVersion(answer.majorVersion, answer.minorVersion, inSVMDR);
  }

  /** Once a lookup succeeds, the version it cached answers every later lookup
      without another query. */
  lemma CachedLookupIsStable(cached: string, first: VersionResponse, second: VersionResponse)
    requires OntapiVersionOf(cached, first).Success?
    ensures OntapiVersionOf(OntapiVersionOf(cached, first).value, second) == OntapiVersionOf(cached, first)
  {
  }

  class Client {
    const config: ClientConfig
    const zr: ZapiRunner

    /** `NewClient`. */
    constructor (config: ClientConfig)
      ensures this.config == config.(contextBasedZapiRecords := RecordsFor(config.driverContext))
      ensures fresh(zr) && zr.State() == InitialRunner(config)
    {
      this.config := config.(contextBasedZapiRecords := RecordsFor(config.driverContext));
      zr := new ZapiRunner(InitialRunner(config));
    }

    /** `GetClonedZapiRunner`: an independent copy of the shared runner. */
    method GetClonedZapiRunner() returns (clone: ZapiRunner)
      ensures fresh(clone) && clone.State() == zr.State()
    {
      clone := new ZapiRunner(zr.State());
    }

    /** `GetNontunneledZapiRunner`: an independent copy with the SVM cleared;
        the shared runner keeps its SVM. */
    method GetNontunneledZapiRunner() returns (clone: ZapiRunner)
      ensures fresh(clone) && clone.State() == Nontunneled(zr.State())
    {
      clone := new ZapiRunner(zr.State());
      clone.svm := "";
    }

    /** `SystemGetOntapiVersion`: asks the controller only while nothing is
        cached, and caches a successful answer in the shared runner. */
    method SystemGetOntapiVersion(answer: VersionResponse) returns (version: string, err: Option<Error>)
      modifies zr
      ensures var r := OntapiVersionOf(old(zr.ontapiVersion), answer);
              (r.Success? ==> version == r.value && err.None? && zr.State() == old(zr.State()).(ontapiVersion := r.value))
              && (r.Failure? ==> version == "" && err == Some(r.error) && zr.State() == old(zr.State()))
    {
      if zr.ontapiVersion == "" {
        var gerr := GetError(Some(answer.result), answer.callErr);
        if gerr.Some? {
          return "", Some(Message("could not read ONTAPI version: " + ErrorText(gerr.value)));
        }
        zr.ontapiVersion := OntapiVersionString(answer.majorVersion, answer.minorVersion);
      }
      version, err := zr.ontapiVersion, None;
    }

    /** `SupportsFeature`. */
    method SupportsFeature(feature: string, answer: VersionResponse) returns (supported: bool)
      modifies zr
      ensures supported == SupportedBy(old(zr.ontapiVersion), answer, feature)
      ensures var r := OntapiVersionOf(old(zr.ontapiVersion), answer);
              zr.State() == if r.Success? then old(zr.State()).(ontapiVersion := r.value) else old(zr.State())
    {
      var version, err := SystemGetOntapiVersion(answer);
      if err.Some? {
        return false;
      }
      supported := SupportsFeatureAt(version, feature);
    }

    /** `TieringPolicyValue`: the SVM-DR queries are made only for a
        controller without FabricPool support for SVM-DR. */
    method TieringPolicyValue(answer: VersionResponse, sourceResp: IterResponse<SnapmirrorEntry>,
                              destinationResp: IterResponse<SnapmirrorEntry>) returns (policy: string)
      modifies zr
      ensures policy == TieringPolicyFor(
                SupportedBy(old(zr.ontapiVersion), answer, FabricPoolForSVMDR),
                (CallError(sourceResp).None? && exists i :: 0 <= i < |Entries(sourceResp)| && IsSVMDREntry(Entries(sourceResp)[i]))
                || (CallError(destinationResp).None? &&
                    exists i :: 0 <= i < |Entries(destinationResp)| && IsSVMDREntry(Entries(destinationResp)[i])))
    ensures var r := OntapiVersionOf(old(zr.ontapiVersion), answer);
            zr.State() == if r.Success? then old(zr.State()).(ontapiVersion := r.value) else old(zr.State())
    {
      policy := "none";
      var supported := SupportsFeature(FabricPoolForSVMDR, answer);
      if !supported {
        var inSVMDR := IsVserverInSVMDR(sourceResp, destinationResp);
        if inSVMDR {
          policy := "snapshot-only";
        }
      }
    }
  }
}
