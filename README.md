# Trident ONTAP client and manifest factory, modelled in Dafny

This project models two parts of Trident, NetApp's storage orchestrator for containers.

**The ONTAP client** (`storage_drivers/ontap/api/ontap.go`) is the layer through which
the ONTAP drivers talk to a controller over ZAPI. The model covers:
- how a ZAPI outcome is classified (`ZapiError`, `GetError`);
- QoS policy-group validation;
- waiting for asynchronous jobs, including the retry loop of `checkForJobCompletion`;
- the single-record lookups and the existence tests;
- the Qtree count and the LUN resize size check;
- the SVM-DR scans, the data-LIF, serial-number and aggregate filters;
- `LunMapIfNotMapped`, over a mutable LUN mapping table;
- the client object: `NewClient`, the runner clones, the ONTAPI version cache, `SupportsFeature` and `TieringPolicyValue`.

**The manifest factory** (`cli/k8s_client/yaml_factory.go`) is the code that builds the YAML
of Trident's Kubernetes objects. The model covers:
- the multi-line fragments it splices into templates;
- the sidecar-registry rule;
- the choice of versioned Deployment and DaemonSet templates;
- the OpenShift and RBAC selectors;
- the installer pod command;
- the Deployment's single-line settings;
- the label it writes into the caller's labels map.

Every remote call is replaced by its answer, given as an input value:
- a response record with the transport error, the status triple and the attribute list;
- a sequence of job-status answers;
- one unmap answer per listed igroup.

The exponential backoff is replaced by a retry budget: `retries` further attempts after the
first. A Go map is modelled as `Option<map>`, with `None` standing for nil, together with
the order in which `range` visits its keys. That order may be any enumeration of the keys,
and every property is proved for all of them.

Modules:
- `Wrappers`: `Option` and `Result`.
- `Strs`: decimal rendering and parsing, prefix, suffix and substring tests, `Join`, `SplitOn`, character counts.
- `ZapiErrors`: the status triple, its predicates and text, `NewZapiError`, `GetError`.
- `Qos`: `NewQosPolicyGroup`.
- `Features`: versions, the feature table, `SupportsFeature`'s comparison, the tiering rule.
- `Records`: the single-record lookups, `QtreeCount`, `VolumeExists`, `LunResize` and the scans over attribute lists.
- `AsyncJobs`: `WaitForAsyncResponse`, `checkForJobCompletion` and `FlexGroupExists`.
- `LunMapping`: `LunMapIfNotMapped` and the array's mapping table.
- `OntapClient`: the `Client` and `ZapiRunner` classes.
- `ManifestLines`: `createSpaces` and the `construct*` builders, plus the data sections of `GetSecretYAML`.
- `ManifestSelectors`: the registry, template, RBAC, SCC, command, settings and label choices.

## Model

| member | source | states |
|---|---|---|
| ZapiErrors.ZapiError.IsPrivilegeError | storage_drivers/ontap/api/ontap.go:239-244 | a privilege error is always also a scope error |
| ZapiErrors.ZapiError.IsFailedToLoadJobError | storage_drivers/ontap/api/ontap.go:239-247 | a job that failed to load is never a scope error nor a privilege error |
| ZapiErrors.PassedDependsOnStatusOnly | storage_drivers/ontap/api/ontap.go:230-247 | passing depends on the status alone, and the scope, privilege and failed-to-load-job classes depend only on the code and reason, whatever the status |
| ZapiErrors.ScopeErrorCases | storage_drivers/ontap/api/ontap.go:239-244 | a scope error is exactly a privilege error or an unknown-API error |
| ZapiErrors.ZapiErrorText | storage_drivers/ontap/api/ontap.go:233-238 | the text is exactly "API status: passed" if and only if the status is "passed" |
| ZapiErrors.ZapiErrorTextEmbeds | storage_drivers/ontap/api/ontap.go:233-238 | the text of a failed status contains its status, its reason and its code |
| ZapiErrors.NewZapiError | storage_drivers/ontap/api/ontap.go:113-139 | a nil result becomes the triple ("failed", "unexpected nil ZAPI result", internal error), which is not passed; a present result contributes its own triple |
| ZapiErrors.GetError | storage_drivers/ontap/api/ontap.go:264-296 | an incoming error is returned unchanged; otherwise there is an error exactly when the result is nil or not passed, and it is the result's own triple |
| Qos.NewQosPolicyGroup | storage_drivers/ontap/api/ontap.go:311-330 | two names fail with the one-kind error; exactly one name gives that name with its kind; no name gives the Invalid kind without error |
| Qos.QosPolicyGroupRoundTrip | storage_drivers/ontap/api/ontap.go:311-330 | every accepted pair of names is recovered from the group it builds; a group has a valid kind exactly when it has a name |
| Features.AtLeastIsTotalOrder | storage_drivers/ontap/api/ontap.go:379-383 | the version comparison is reflexive, transitive, total and antisymmetric |
| Features.OntapiVersionRoundTrip | storage_drivers/ontap/api/ontap.go:367-377 | the cached "major.minor" string with ".0" appended parses back to exactly (major, minor, 0) |
| Features.SupportsFeatureAt | storage_drivers/ontap/api/ontap.go:367-384 | a feature outside the table is never supported |
| Features.SupportsFeatureOfRenderedVersion | storage_drivers/ontap/api/ontap.go:353-384 | for a version the client rendered, support holds exactly when the feature is in the table and (major, minor, 0) reaches its minimum |
| Features.TieringPolicyFor | storage_drivers/ontap/api/ontap.go:2781-2791 | "snapshot-only" exactly for an SVM-DR member on a controller without FabricPool for SVM-DR; "none" otherwise |
| Features.TieringPolicyByVersion | storage_drivers/ontap/api/ontap.go:2781-2791 | the policy is "none" exactly when the ONTAPI version is at least 1.150 or the SVM is not in SVM-DR |
| Records.SingleRecord | storage_drivers/ontap/api/ontap.go:440-461 | success exactly when the call went through, one record was reported and the list is non-empty, and then it is the first record; otherwise the transport error, "more than one ... found" for several records, "... not found" for none or an empty list |
| Records.IgroupGet | storage_drivers/ontap/api/ontap.go:440-461 | the igroup lookup succeeds only on one reported record, returning the first; other failures carry the igroup texts |
| Records.LunGet | storage_drivers/ontap/api/ontap.go:699-736 | the same rule with the LUN texts |
| Records.VolumeGetIterCommon | storage_drivers/ontap/api/ontap.go:1516-1544 | the same rule with the Flexvol texts |
| Records.QtreeGet | storage_drivers/ontap/api/ontap.go:1890-1914 | the same rule with the qtree texts |
| Records.QuotaGetEntry | storage_drivers/ontap/api/ontap.go:2009-2038 | the same rule with the tree-quota texts |
| Records.QtreeCount | storage_drivers/ontap/api/ontap.go:1816-1847 | fails exactly when GetError does; otherwise the count is never negative, never above the records, and is one less than the records when there is at least one |
| Records.VolumeExists | storage_drivers/ontap/api/ontap.go:1428-1447 | true exactly for a passed call; false exactly for a failed status with a not-found code; any other failed status is reported; a transport error is reported |
| Records.LunResize | storage_drivers/ontap/api/ontap.go:763-789 | the size is returned exactly when the call passed and a non-negative size came back; each other case has its specific error |
| Records.AnySVMDREntry | storage_drivers/ontap/api/ontap.go:2534-2543 | the flag is raised exactly when some relationship's destination location is its destination vserver followed by ':' |
| Records.ScanSVMDR | storage_drivers/ontap/api/ontap.go:2519-2545 | a transport error is returned as is; a failed status is wrapped with the query's prefix; otherwise the result is the SVM-DR test over the attribute list |
| Records.IsVserverDRDestination | storage_drivers/ontap/api/ontap.go:2519-2545 | an error exactly when GetError reports one, "error getting snapmirror info: " for a failed status; otherwise the SVM-DR test over the relationships |
| Records.IsVserverDRSource | storage_drivers/ontap/api/ontap.go:2548-2574 | the same over the destination relationships, with "error getting snapmirror destination info: " |
| Records.IsVserverInSVMDR | storage_drivers/ontap/api/ontap.go:2577-2582 | in SVM-DR exactly when either query succeeded and found an SVM-DR relationship; errors count as "no" |
| Records.AddressPerMatchMembers | storage_drivers/ontap/api/ontap.go:2642-2648 | an interface contributes its address exactly when it lists the protocol |
| Records.DataLIFsMembers | storage_drivers/ontap/api/ontap.go:2640-2650 | an address is reported exactly when some interface with that address lists the protocol |
| Records.NetInterfaceGetDataLIFs | storage_drivers/ontap/api/ontap.go:2630-2654 | success exactly when the call passed and some LIF serves the protocol, and then the addresses are those of the reference filter; each failure has its own text |
| Records.SetSerialNumbersMembers | storage_drivers/ontap/api/ontap.go:2711-2725 | the kept serial numbers are exactly the non-empty ones |
| Records.NodeListSerialNumbers | storage_drivers/ontap/api/ontap.go:2680-2730 | the call error, "could not get node info" for no records, "could not get node serial numbers" when none is set; otherwise the set serial numbers in node order |
| Records.AggregateNamesMembers | storage_drivers/ontap/api/ontap.go:2299-2309 | a name is reported exactly when some vserver record's aggregate list holds it |
| Records.VserverGetAggregateNames | storage_drivers/ontap/api/ontap.go:2280-2312 | fails exactly on a transport error or a record count other than one ("could not find SVM ..."); otherwise all aggregate names, record by record |
| AsyncJobs.Classify | storage_drivers/ontap/api/ontap.go:1178-1205 | a query completes exactly on a passed answer whose first job is "success", fails permanently exactly on failure/error/quit/dead, and is retried otherwise |
| AsyncJobs.PollCharacterized | storage_drivers/ontap/api/ontap.go:1176-1222 | the reference poll issues between 1 and retries+1 queries, all but the last retryable, succeeds exactly when the last completed, and ends on a retryable answer only when the budget is spent; nothing else satisfies this |
| AsyncJobs.FirstTerminalFailureStops | storage_drivers/ontap/api/ontap.go:1196-1199 | a terminal-failure state at query k within the budget, after retryable answers only, ends the wait unsuccessfully after exactly k+1 queries |
| AsyncJobs.NoSuccessAfterTerminalFailure | storage_drivers/ontap/api/ontap.go:1196-1221 | the wait never reports success once one of its queries met a terminal-failure state |
| AsyncJobs.SuccessIffCompletedWithinBudget | storage_drivers/ontap/api/ontap.go:1176-1222 | success exactly when some answer within the budget is "success" and every answer before it was retryable |
| AsyncJobs.FirstAnswerSuccess | storage_drivers/ontap/api/ontap.go:1200-1204 | a job whose first answer is "success" costs exactly one query |
| AsyncJobs.CheckForJobCompletion | storage_drivers/ontap/api/ontap.go:1176-1222 | the loop meets the reference poll; every failure is the single error "job Id N failed to complete successfully" |
| AsyncJobs.WaitForAsyncResponse | storage_drivers/ontap/api/ontap.go:1154-1173 | queries happen exactly for an "in_progress" submission, which follows the poll; "failed" reports its errorCode; any other status succeeds without a query; an extraction error is passed on |
| AsyncJobs.FlexGroupExists | storage_drivers/ontap/api/ontap.go:980-1005 | a failed status with a not-found code means "does not exist" without waiting; another failed status, or a transport error, is reported; after a passed submission: an extraction error or a "failed" job status gives "error waiting for response: ..." without a query, another non-in-progress status gives "exists" without a query, and an in-progress job exists exactly when the reference poll succeeds, with the poll's query count and the job-failed text otherwise |
| LunMapping.LunMapTable.Unmap | storage_drivers/ontap/api/ontap.go:866-873 | an accepted unmap drops the LUN's mappings into that igroup and nothing else; a refused one changes nothing |
| LunMapping.LunMapTable.MapAutoID | storage_drivers/ontap/api/ontap.go:569-575 | an accepted map adds the mapping with the id the array assigned; a refused one changes nothing |
| LunMapping.ScanFrom | storage_drivers/ontap/api/ontap.go:589-613 | the scan never unmaps the requested igroup, unmaps nothing when importing unmanaged, and a reused id is the id of an acceptable entry |
| LunMapping.ScanRemovesPassedUnmaps | storage_drivers/ontap/api/ontap.go:589-598 | the scan drops exactly the foreign igroups it meets before it ends (end of list, first acceptable entry or a transport-failed unmap) whose unmap the array accepted |
| LunMapping.ScanFailsOnUnmapTransportError | storage_drivers/ontap/api/ontap.go:594-597 | an unmap that fails in transport before any acceptable entry aborts the scan with that answer's status, after the unmaps accepted before it |
| LunMapping.ReadFailureAborts | storage_drivers/ontap/api/ontap.go:583-587 | a transport or status failure of the mapping list gives -1 and "problem reading maps for LUN ...", and unmaps and maps nothing |
| LunMapping.UnmapTransportFailureAborts | storage_drivers/ontap/api/ontap.go:589-598 | an unmap failing in transport at position k before any acceptable mapping gives -1 and "problem deleting map for LUN ..." with that answer's status; the earlier accepted unmaps stay done and nothing is mapped |
| LunMapping.UnmapsForeignIgroupsBeforeStop | storage_drivers/ontap/api/ontap.go:589-634 | after a successful read the table loses exactly the LUN's mappings into the accepted foreign igroups met before the scan ended, and gains at most the requested mapping |
| LunMapping.MapIfNotMapped | storage_drivers/ontap/api/ontap.go:577-635 | every error comes with id -1 and no new mapping; a new mapping happens only on success and its id is returned; the requested igroup is never unmapped |
| LunMapping.ScanStopsAtFirstMatch | storage_drivers/ontap/api/ontap.go:589-613 | the scan stops at the first acceptable entry and returns its id when no earlier unmap failed |
| LunMapping.ScanWithoutMatch | storage_drivers/ontap/api/ontap.go:589-613 | foreign igroups only, with successful unmaps, give neither a match nor a failure |
| LunMapping.ReusesFirstMatch | storage_drivers/ontap/api/ontap.go:600-612 | an existing acceptable mapping's id is returned and no map call takes effect |
| LunMapping.ImportKeepsFirstMapping | storage_drivers/ontap/api/ontap.go:590-612 | with unmanaged import, the first listed mapping's id is returned and nothing is unmapped or mapped |
| LunMapping.MapsWhenNothingMatches | storage_drivers/ontap/api/ontap.go:615-632 | no acceptable mapping means the LUN is mapped with the assigned id, or the map failure is reported |
| LunMapping.RequestedMappingSurvives | storage_drivers/ontap/api/ontap.go:593-600 | a mapping into the requested igroup is still in the table after the call |
| LunMapping.LunMapIfNotMapped | storage_drivers/ontap/api/ontap.go:577-635 | the loop returns the reference id and error and leaves the table with exactly the reference's unmaps and map applied |
| OntapClient.RecordsFor | storage_drivers/ontap/api/ontap.go:67-73 | the maximum record count exactly under Docker, the default otherwise |
| OntapClient.InitialRunner | storage_drivers/ontap/api/ontap.go:75-88 | the runner copies the connection settings and trace flags from the configuration, always uses TLS, and has no cached version |
| OntapClient.Nontunneled | storage_drivers/ontap/api/ontap.go:103-108 | the SVM is cleared and every other field is kept |
| OntapClient.ZapiRunner.constructor | storage_drivers/ontap/api/ontap.go:94-98 | a new runner holds exactly the given state |
| OntapClient.OntapiVersionOf | storage_drivers/ontap/api/ontap.go:2664-2678 | a cached version is returned as is; otherwise success exactly for a passed answer, rendered as "major.minor"; a failure is "could not read ONTAPI version: ..." |
| OntapClient.SupportOnFirstLookup | storage_drivers/ontap/api/ontap.go:367-384 | on the first lookup, support is the feature table's comparison against (major, minor, 0); a failed lookup supports nothing |
| OntapClient.TieringPolicyOnFirstLookup | storage_drivers/ontap/api/ontap.go:2781-2791 | the client's policy is "none" exactly from ONTAPI 1.150 on, or outside SVM-DR |
| OntapClient.CachedLookupIsStable | storage_drivers/ontap/api/ontap.go:2666-2677 | once a lookup succeeds, the cached version answers every later lookup unchanged |
| OntapClient.Client.constructor | storage_drivers/ontap/api/ontap.go:67-91 | the stored configuration carries the record count for its context, and the fresh runner is the initial runner of the configuration |
| OntapClient.Client.GetClonedZapiRunner | storage_drivers/ontap/api/ontap.go:94-98 | a fresh runner equal to the shared one |
| OntapClient.Client.GetNontunneledZapiRunner | storage_drivers/ontap/api/ontap.go:103-108 | a fresh runner equal to the shared one with the SVM cleared; the shared runner is untouched |
| OntapClient.Client.SystemGetOntapiVersion | storage_drivers/ontap/api/ontap.go:2664-2678 | returns the cached or fetched version and caches it in the shared runner, changing nothing else; a failure leaves the runner unchanged |
| OntapClient.Client.SupportsFeature | storage_drivers/ontap/api/ontap.go:367-384 | the answer is the reference support test on the runner's cached version, and the version is cached on success |
| OntapClient.Client.TieringPolicyValue | storage_drivers/ontap/api/ontap.go:2781-2791 | the policy is the tiering rule applied to feature support and SVM-DR membership; the shared runner caches the version when the lookup succeeds and is otherwise unchanged |
| ManifestLines.CreateSpaces | cli/k8s_client/yaml_factory.go:3091-3093 | exactly spaceCount spaces |
| ManifestLines.UnlinesSplit | cli/k8s_client/yaml_factory.go:3128-3139 | text built from newline-free lines splits back into exactly those lines |
| ManifestLines.AppendNameLines | cli/k8s_client/yaml_factory.go:3134-3136 | the loop appends one prefixed line per name, in order |
| ManifestLines.ConstructImagePullSecrets | cli/k8s_client/yaml_factory.go:3128-3139 | "" for no secrets; otherwise the indented header and one "- name: X" line per secret, in input order |
| ManifestLines.ConstructServiceAccountSecrets | cli/k8s_client/yaml_factory.go:3141-3152 | "" for no secrets; otherwise "secrets:" and one unindented "- name: X" line per secret |
| ManifestLines.ImagePullSecretsRecovered | cli/k8s_client/yaml_factory.go:3128-3139 | the emitted text splits into the header, one line per secret from which the secret name is read back, and the empty rest |
| ManifestLines.ImagePullSecretsNewlines | cli/k8s_client/yaml_factory.go:3128-3139 | the text has no newline for an empty list and otherwise one per secret plus the header's |
| ManifestLines.EntryLinesMembers | cli/k8s_client/yaml_factory.go:3100-3103 | whatever the visiting order, a line is emitted exactly when it renders some entry of the map |
| ManifestLines.EnumerationLength | cli/k8s_client/yaml_factory.go:3101 | a visiting order lists exactly as many keys as the map has |
| ManifestLines.AppendEntryLines | cli/k8s_client/yaml_factory.go:3101-3103 | the loop appends one "key: value" line per key, in visiting order |
| ManifestLines.AppendSection | cli/k8s_client/yaml_factory.go:3099-3104 | nothing for a nil map; otherwise the header and one line per entry |
| ManifestLines.ConstructLabels | cli/k8s_client/yaml_factory.go:3095-3107 | "" for a nil map; otherwise "labels:" and one indented line per label |
| ManifestLines.LabelBlockShape | cli/k8s_client/yaml_factory.go:3095-3107 | a labels block has one line more than the map has labels, its header first, and its other lines are exactly the renderings of the labels |
| ManifestLines.ConstructOwnerRef | cli/k8s_client/yaml_factory.go:3109-3126 | "" for a nil map; otherwise the header, a "- " before the first entry emitted and two spaces before every later one |
| ManifestLines.OwnerRefSingleListItem | cli/k8s_client/yaml_factory.go:3109-3126 | exactly one owner-reference line opens a list item, and it is the first entry line |
| ManifestLines.GetSecretYAML | cli/k8s_client/yaml_factory.go:2061-2082 | the substituted template, then a "data:" section when data is non-nil and a "stringData:" section when stringData is non-nil |
| ManifestSelectors.TrimSuffix | cli/k8s_client/yaml_factory.go:3157-3158 | the suffix is removed once when present, and the string kept otherwise |
| ManifestSelectors.GetRegistryVal | cli/k8s_client/yaml_factory.go:3156-3163 | a custom registry loses one trailing slash; without one, the 1.17+ registry exactly when isGCRRegistryVersion holds and the pre-1.17 registry otherwise |
| ManifestSelectors.RegistryKeepsInnerSlash | cli/k8s_client/yaml_factory.go:3157-3158 | a registry ending in two slashes keeps one |
| ManifestSelectors.DeploymentTemplateFor | cli/k8s_client/yaml_factory.go:367-386 | minor 13, 14-15, 16, 17-19 and everything else select the 1.13, 1.14, 1.16, 1.17 and 1.20 templates; the 1.17+ registry exactly outside 13-16 |
| ManifestSelectors.DaemonSetTemplateFor | cli/k8s_client/yaml_factory.go:1177-1192 | major other than 1 selects 1.18 with the 1.17+ registry; 1.13 and 1.14-1.17 select their templates; the 1.17+ registry exactly outside 1.13-1.16 |
| ManifestSelectors.RegistryGenerationsAgree | cli/k8s_client/yaml_factory.go:1177-1192 | on Kubernetes 1.x the Deployment and the DaemonSet resolve the same sidecar registry |
| ManifestSelectors.RegistryGenerationsDifferBeyondMajorOne | cli/k8s_client/yaml_factory.go:369-386 | for a major version other than 1 with minor 13-16, the Deployment keeps the pre-1.17 registry while the DaemonSet uses the 1.17+ one |
| ManifestSelectors.DeploymentTemplateMonotone | cli/k8s_client/yaml_factory.go:369-384 | from minor 13 on, a newer minor never selects an older Deployment template |
| ManifestSelectors.ClusterRoleChoice | cli/k8s_client/yaml_factory.go:67-89 | the CSI template exactly for CSI; the OpenShift authorization API exactly for non-CSI OpenShift, RBAC v1 otherwise |
| ManifestSelectors.ClusterRoleBindingChoice | cli/k8s_client/yaml_factory.go:201-216 | the OpenShift binding exactly for non-CSI OpenShift |
| ManifestSelectors.RoleAndBindingAgree | cli/k8s_client/yaml_factory.go:201-216 | the binding is the OpenShift one exactly when the role uses the OpenShift API |
| ManifestSelectors.InstallerRbacChoice | cli/k8s_client/yaml_factory.go:1697-1706 | the OpenShift installer role and binding exactly for OpenShift |
| ManifestSelectors.ServiceAccountChoice | cli/k8s_client/yaml_factory.go:30-46 | the template with a secrets block exactly when there are secrets |
| ManifestSelectors.Lookup | cli/k8s_client/yaml_factory.go:1956 | a nil map or a missing key reads as "" |
| ManifestSelectors.SCCChoice | cli/k8s_client/yaml_factory.go:1954-1964 | the privileged SCC exactly when the app label contains "csi" or the user is "trident-installer" |
| ManifestSelectors.CsiAppLabelIsPrivileged | cli/k8s_client/yaml_factory.go:1956-1958 | an app label with "csi" anywhere in it always gets the privileged SCC |
| ManifestSelectors.PodCommand | cli/k8s_client/yaml_factory.go:1836 | the command is bracketed and quoted, and a single argument gives exactly ["arg"] |
| ManifestSelectors.PodCommandEmpty | cli/k8s_client/yaml_factory.go:1836 | no arguments give one empty quoted argument |
| ManifestSelectors.PodCommandSnoc | cli/k8s_client/yaml_factory.go:1836 | one more argument adds one quoted, comma-separated entry before the closing bracket |
| ManifestSelectors.PodCommandLength | cli/k8s_client/yaml_factory.go:1873 | the command is as long as its arguments plus four characters per argument |
| ManifestSelectors.PodCommandQuotes | cli/k8s_client/yaml_factory.go:1836 | arguments without quotes give exactly two quote characters per argument |
| ManifestSelectors.OptionalFlag | cli/k8s_client/yaml_factory.go:392-410 | an empty value gives no line; otherwise the flag followed by exactly the value |
| ManifestSelectors.FormatBool | cli/k8s_client/yaml_factory.go:434 | "true" exactly for true and "false" exactly for false |
| ManifestSelectors.GetDeploymentSettings | cli/k8s_client/yaml_factory.go:354-414 | debug line and log level follow the debug flag, the localhost address the IPv6 flag, the autosupport image its default, each autosupport line its value, and the feature gates are "- --feature-gates=Topology=True" with topology and empty without |
| ManifestSelectors.TrimTrailingSlashes | cli/k8s_client/yaml_factory.go:1196 | what is left is a prefix not ending in '/', and everything removed was '/' |
| ManifestSelectors.TrimTrailingSlashesIdempotent | cli/k8s_client/yaml_factory.go:1196 | trimming is idempotent, and any number of extra trailing slashes trims to the same directory |
| ManifestSelectors.WithDefaultContainer | cli/k8s_client/yaml_factory.go:416-419 | the default-container key maps to "trident-main" and every other entry is kept |
| ManifestSelectors.AppLabelUnaffected | cli/k8s_client/yaml_factory.go:419-425 | adding the default-container label leaves the app label read afterwards unchanged |
| ManifestSelectors.LabelDeployment | cli/k8s_client/yaml_factory.go:416-419 | a non-nil caller map gains the label in place; a nil one is replaced by a fresh local map holding only the label |
| ManifestSelectors.LabelDaemonSet | cli/k8s_client/yaml_factory.go:1194 | the caller's map gains the label in place |

## Left out

- Generated ZAPI calls. The `azgo` request builders, `ExecuteUsing` and the network I/O are replaced by their answers as inputs. The `azgo` package is not part of this model, so its errno constants are ONTAP's errno numbers here; the proofs use only that they are distinct.
- Reflection. `NewZapiResultValue`, the field extraction in `NewZapiAsyncResult` and the `recover()` guards depend on runtime type inspection. A response is a plain record here, and `NewZapiAsyncResult`'s output (job id, status, error code) is an input.
- Transport failure with a response. Every modelled response carries a status triple, even when the transport failed. The source may hold a nil response there and dereference it.
- Backoff timing. The 1 s initial interval, the multiplier of 2, the 10 percent jitter and the maximum wait are wall-clock behaviour of a foreign library. They become a number of allowed retries.
- The per-attempt messages of `checkJobFinished`. They go only to the backoff library and the log, so only the verdict of each attempt is modelled.
- AsyncJobs.Classify: the source indexes the first job of a present list without a length check and panics on an empty one. That input is excluded by `AllWellFormed`.
- `%+v` renderings. `LunMapIfNotMapped` formats a response's result struct with `%+v`. The model renders it with `ZapiErrorText`, so those messages keep their prefixes but not the exact struct dump.
- LunMapping.LunMapIfNotMapped: on a failed unmap the source dereferences the unmap response's result. The model uses that answer's status triple, and it ignores the status of an unmap whose transport succeeded, as the source does.
- `LunMapListInfo` is a remote call. The model receives its list answer as an input and does not capture which LUN that answer describes.
- Records.SingleRecord: a count of one with a non-nil but empty list would panic in the source; the model reports "not found" there.
- OntapClient.VersionResponse: the major and minor versions are natural numbers; a negative value from the controller is not modelled.
- Records.IterResponse: the reported record count is a natural number, although Go's `NumRecords()` is an `int`. A negative count from the controller is not modelled, so the 0 / one / several split of the single-record getters and the non-negative result of `QtreeCount` need no sign case.
- ManifestLines.CreateSpaces: the count is a natural number. Go's `createSpaces` takes an `int`, and `strings.Repeat` panics on a negative count; the factory always passes a fixed non-negative indentation.
- OntapClient.DriverContext: the configuration package defining the contexts is not part of this model. Only Docker versus anything else matters, and "anything else" is one constructor.
- Features.ParseVersion: `utils.ParseSemantic` is not part of this model. The parser accepts exactly three dot-separated decimal fields, which covers every string the client hands it.
- `AggregateCommitment` and its percentages. This is floating-point arithmetic.
- The mutex and all logging.
- The other ONTAP operations that only forward to a generated call: create, destroy, modify, list, rename, export, snapshot, iSCSI and quota requests. The same goes for `NetInterfaceGetDataLIFsNode`, `QtreeExists`, `FlexGroupDestroy` and `FlexGroupSize`.
- `replaceMultiline`. It depends on `utils.GetYAMLTagWithSpaceCount`, which is not part of this model. The fragments the builders produce for it are modelled.
- The literal YAML and CRD templates and their `strings.ReplaceAll` substitutions. Templates are tags, and the substituted single-line values are modelled.
- ManifestSelectors.GetDeploymentSettings: `commonconfig.DefaultAutosupportImage` is not part of this model; it is a parameter.
- ManifestSelectors.GetRegistryVal: the sidecar registry constants are taken from the comment above `getRegistryVal`, because the configuration package is not part of this model.
- ManifestSelectors.LabelDaemonSet: the source writes into the labels map without a nil check and panics on a nil one. The model requires a map.
- `storage_drivers/ontap/ontap_san_test.go` drives a fake vserver through code that is not part of this model.
- `frontend/csi/identity_server.go` is gRPC boilerplate that forwards to the orchestrator, which is not part of this model.
