# Operating system manager: a verified model

The operating system manager keeps, for every MachineDeployment, several objects in step: an immutable
OperatingSystemConfig (OSC), two immutable cloud-config secrets, a kubelet bootstrap kubeconfig, a bootstrap
token, and a cleanup finalizer. It does so with separate API requests that can each fail, from several parallel
workers. This project models that protocol and three smaller parts (profile admission, the containerd registry
compiler, the rendering of cloud configs and files) and proves what they keep. `dafny verify dfyconfig.toml` checks
everything.

## How the model is built

**Cluster and protocol** (`Names`, `Finalizers`, `Cluster`, `Protocol`). A `World` holds the API server's objects and
the clock. A worker is a program counter `PC`; each step issues one `Request`, which succeeds, fails without effect, or
takes effect and is reported as failed (`Fault`). Create never overwrites, an update of a deployment, token or
kubeconfig needs the stored resource version. A `System` interleaves one worker per deployment with user edits and
deletes, profile changes, removal of tokens, crashes and the clock, one request at a time; `Exec` runs a list of events.

**Code** (`Reconciler`). The controller and bootstrap methods are written as classes that send requests to `Api`. Each
method is proved equal, under any interference and any faults, to the part of the step machine between the counter it
starts at and the counter it ends at. `Observed.InterleavedPassIsRun` closes the circle: every pass that completes in a
run of the system is such a method call. So what is proved about runs is about these methods.

**Runs**: `NoOrphans`, `Coherence`, `TokenLifetime`, `TokenAgreement`, `TokenLease`, `Cleanup` hold over every run and
interleaving; `Pass`, `Phases`, `Convergence` say what a failure-free pass achieves; `Scenarios` exhibits the runs
that the conditions exclude, and joins both into one statement about reachable states; `Outcomes` says, field by
field, what a pass reports and leaves behind; `Collisions` is about deployments that share a bootstrap key.

**Other parts**: `Versions` (admission and the profile controller as a history), `Query`, `MirrorURL`, `Registry`,
`MirrorFlags` (containerd mirrors), `Ini`, `CloudConfig` (cloud configs), `Files` (rendered files), `Sorting`.

## What is assumed of the environment

- One reconcile at a time for one deployment; workers of different deployments run in parallel.
- Reads are linearizable and may fail; a failed read says so. A missing object may also be reported as a failure.
- Nobody else writes the owned objects or takes the cleanup finalizer off; deletion marks stick, and a deleting
  deployment gains no finalizers. Tokens may disappear at any time.
- Workers start on a cluster without owned objects (`Protocol.Initial`).
- The annotation hash, `GenerateOperatingSystemConfig` and the user-data generator are free terms of what they depend
  on: equal results mean equal inputs. Whether a local computation fails is chance (`Choice.broken`) or a property of
  the template.
- Secret names follow `name-namespace-type-config`, the form that `pkg/controllers/osc/osc_controller.go:524` spells
  out. The annotation that holds the revision is named in the machine-controller SDK, which is not part of this model.
- Strings are Go strings: a character is a byte, and `Less` is the byte-wise order.

## What the proofs found

- **Rotation window.** A rotation deletes the OSC first. If it is cut before both secrets are gone, the next pass sees
  no OSC, skips the rotation, makes a new OSC and keeps the old secret; a further pass at the same clock reports
  success and changes nothing (`Scenarios.InterruptedRotationSticks`). `Coherence.Harms` is exactly when this happens:
  a cut of the deployment's own rotation while a secret is left behind. Without such an event, and only then, the
  deployment is coherent along the whole run, whatever happens to others (`Coherence.CoherentRuns`). The next change
  of the stamp repairs it (`Convergence.RotationHeals`).
- **Token window.** If a pass is cut between creating a token and writing the kubeconfig, a later pass that finds the
  token takes the early return and does not write the kubeconfig (`Scenarios.InterruptedTokenSticks`,
  `Scenarios.StaleKubeconfigStays`). `TokenAgreement.Harms` is exactly when token and kubeconfig part: such a cut
  while an older kubeconfig with another token is in place (`TokenAgreement.AgreementRuns`).
- **Edge deployments** cannot be rotated: the script secret is never deleted and always created, so after a rotation
  every failure-free pass, and any number of them, fails and leaves no OSC (`Scenarios.EdgeNeverRecovers`,
  `Scenarios.EdgeStaysStuck`).
- **Bootstrap keys** of two deployments in namespace `N` coincide exactly when one is named `N-` followed by the name
  of the other and only the longer joined key reaches 63 bytes (`Names.BootstrapKeyCollision`). A key of its own is
  exactly what a deployment needs to have one token at most (`Collisions.OneTokenIffOwnKey`). Two deployments that
  share a key can make two tokens; as long as neither is removed, no later pass of either gets past its token listing
  (`Collisions.CollidingKeysRace`, `Collisions.JamBars`), and the removal of one of them, such as on its expiry, is
  the only event that unblocks them (`Collisions.RemovalUnblocks`).
- **Mirror markers.** A mirror URL that does not parse keeps its `kubermatic` parameter, so the parameter reaches the
  hosts file; that is the only way it does (`Registry.MarkerLeaks`).
- **Versions.** Admission only compares neighbouring versions, so a detour over another version can bring an old
  version back with another spec (`Versions.DetourDrifts`); the exact condition is `Versions.Disciplined`.
- **`BuildConfig`** appends to the map of the flags, so building twice from one flag set doubles the comma list
  (`MirrorFlags.BuildingTwiceDoubles`).
- **Template order.** Whether the order of the template map can show in what the names of a template set mean is
  decided exactly by `Files.Settled` (`Files.OrderIrrelevantIffSettled`). If it cannot, it does not show in a file; if
  it can, a file may still not show it, because nothing in it invokes the name.

## Model

| member | source | states |
|---|---|---|
| Names.BootstrapKeyCollision | pkg/controllers/osc/osc_controller.go:227-232 | Two deployments of one namespace share a bootstrap key, and a kubeconfig name, if and only if one straddles the 63-byte limit onto the other |
| Names.JoinedNames | pkg/controllers/osc/osc_controller.go:240 | OSC and cloud-config secret names coincide exactly when the joined strings do; within a namespace exactly for one deployment |
| Names.ProvisioningApart | pkg/controllers/osc/osc_controller.go:417-455 | A provisioning secret never carries the name of a bootstrap or kubelet secret, for any two deployments |
| Names.KubeletNamespace | pkg/bootstrap/kubeconfig.go:108 | Bootstrap and kubelet secret names of a namespace can collide if and only if its last word is "kubelet" |
| Names.EdgeApart | pkg/controllers/osc/osc_controller.go:528 | An edge script shares no name with an owned secret of any deployment, unless its namespace is "config" or ends in "provisioning-config" or "bootstrap-config" |
| Names.EdgeNamespace | pkg/controllers/osc/osc_controller.go:528 | Such a collision exists for some names if and only if the namespace is of that kind |
| Names.NameTellsOwner | pkg/controllers/osc/osc_controller.go:417-455 | If a deployment's secret name is its own among the others, the name determines deployment and slot, and no edge script has it |
| Names.OneNamespaceOwn | pkg/controllers/osc/osc_controller.go:227-232 | In a namespace not of the kinds above, a deployment's cloud names are its own, and its bootstrap key and kubelet name are if and only if it straddles the limit with no other |
| Names.NamesOf | pkg/controllers/osc/osc_controller.go:417-455 | The names of a deployment's objects, in full, on both sides of the 63-byte limit |
| Names.KeyFits | pkg/controllers/osc/osc_controller.go:227-232 | The bootstrap key of a name of at most 62 bytes has at most 62; it carries the namespace exactly if the joined key does |
| Finalizers.AddFinalizer | pkg/kubernetes/helper.go:30-35 | Result has exactly the old finalizers and the new one, strictly sorted |
| Finalizers.RemoveFinalizer | pkg/kubernetes/helper.go:37-41 | Result has exactly the other finalizers, strictly sorted |
| Finalizers.RemoveUndoesAdd | pkg/kubernetes/helper.go:30-41 | Removing what was added equals never having added it |
| Protocol.WorkerStep | pkg/controllers/osc/osc_controller.go:141-203 | Every request, whatever its answer, lowers the rank of the counter, so every pass is finite |
| Protocol.RankDecreases | pkg/controllers/osc/osc_controller.go:141-203 | The same for every possible answer, even one the server would not give |
| Pass.PassIsShort | pkg/controllers/osc/osc_controller.go:141-203 | No pass makes more than twenty-five modelled requests under any interference and faults |
| Pass.CalmRun | pkg/controllers/osc/osc_controller.go:141-203 | With no interference and no fault a pass is the failure-free pass |
| Reconciler.Api.Ask | pkg/controllers/osc/osc_controller.go:141-203 | One request carries the remaining pass one step on, after arbitrary moves of others |
| Reconciler.OscReconciler.Reconcile | pkg/controllers/osc/osc_controller.go:141-177 | A call has the world, error and request count of the whole pass of the step machine, for every oracle |
| Reconciler.OscReconciler.ReconcileMachineDeployment | pkg/controllers/osc/osc_controller.go:179-203 | Fetch, check, rotation, OSC and secrets in this order equal the machine from the profile read to the end |
| Reconciler.OscReconciler.HandleOSCAndSecretsRotation | pkg/controllers/osc/osc_controller.go:457-493 | Equals the rotation part: skipped without an OSC or with a current stamp, else OSC first, then the three secrets |
| Reconciler.OscReconciler.DeleteGeneratedSecrets | pkg/controllers/osc/osc_controller.go:417-455 | The three secret deletes in order, absent ones tolerated, for rotation and cleanup alike |
| Reconciler.OscReconciler.DeleteOperatingSystemConfig | pkg/controllers/osc/osc_controller.go:401-414 | The OSC delete of a cleanup; an absent OSC is fine |
| Reconciler.OscReconciler.ReconcileOperatingSystemConfigs | pkg/controllers/osc/osc_controller.go:226-320 | Token and kubeconfig first, then an OSC is made unless one can be read |
| Reconciler.OscReconciler.EnsureOperatingSystemConfig | pkg/controllers/osc/osc_controller.go:239-254 | A readable OSC is kept; any failed read leads to generation, after the provisioning-utility check |
| Reconciler.OscReconciler.CreateOperatingSystemConfig | pkg/controllers/osc/osc_controller.go:256-297 | External token, generation and, for edge, the script, before the OSC is stored |
| Reconciler.OscReconciler.StoreOperatingSystemConfig | pkg/controllers/osc/osc_controller.go:299-320 | The OSC is created under the stamp of deployment and profile |
| Reconciler.OscReconciler.GenerateEdgeScript | pkg/controllers/osc/osc_controller.go:516-545 | The script secret is looked up and then created in any case |
| Reconciler.OscReconciler.ReconcileSecrets | pkg/controllers/osc/osc_controller.go:322-339 | Both secrets are made from the OSC as it is read back, provisioning first |
| Reconciler.OscReconciler.EnsureCloudConfigSecret | pkg/controllers/osc/osc_controller.go:341-374 | A readable secret is left alone; otherwise it is generated and created |
| Reconciler.OscReconciler.HandleMachineDeploymentCleanup | pkg/controllers/osc/osc_controller.go:376-398 | OSC, secrets, finalizer, in this order, each needing the one before |
| Reconciler.Bootstrap.CreateBootstrapToken | pkg/bootstrap/kubeconfig.go:222-262 | The only token is renewed or reused, none leads to a new one, several to an error |
| Reconciler.Bootstrap.UpdateSecretExpirationAndGetToken | pkg/bootstrap/kubeconfig.go:264-288 | The expiry is pushed to an hour from now exactly when less than thirty minutes are left |
| Reconciler.Bootstrap.CreateBootstrapKubeconfig | pkg/bootstrap/kubeconfig.go:79-144 | Token, then kubeconfig, equal to this part of the machine |
| Reconciler.Bootstrap.StoreKubeconfig | pkg/bootstrap/kubeconfig.go:108-143 | Created if absent, left alone after a renewal, otherwise overwritten |
| Observed.InterleavedPassIsRun | pkg/controllers/osc/osc_controller.go:130-141 | Any pass completed in any interleaving of workers, users and faults ends as the method call under the oracle that replays what it saw |
| Observed.UndisturbedPasses | pkg/controllers/osc/osc_controller.go:141-203 | The method itself converges from any coherent, agreeing state if and only if its tokens are usable and it is ready, and a second call then changes nothing |
| NoOrphans.EveryObjectHasAnOwner | pkg/controllers/osc/osc_controller.go:141-177 | In every reachable state each OSC, cloud-config or kubelet secret has the name of an existing deployment that holds the finalizer, for any names |
| NoOrphans.OwnedExec | pkg/controllers/osc/osc_controller.go:141-177 | Ownership, counters and the kind of every stored secret are kept along every run |
| NoOrphans.NoOrphan | pkg/controllers/osc/osc_controller.go:376-455 | An object under a name that is a deployment's own exists only while that deployment exists and holds the finalizer, whatever names of others collide |
| Coherence.CoherentRuns | pkg/controllers/osc/osc_controller.go:226-374 | For every run and deployment with its own names: in every state outside the rotation window no OSC means no cloud-config secrets and each secret carries stamp, key, slot and spec of the stored OSC, if and only if no event harms that deployment |
| Coherence.HarmsExactly | pkg/controllers/osc/osc_controller.go:457-493 | One event leaves a deployment incoherent if and only if it cuts that deployment's rotation while a secret is left behind |
| Coherence.FineNext | pkg/controllers/osc/osc_controller.go:226-374 | Every event that does not harm a deployment, interruptions of others included, keeps its step-by-step invariant |
| TokenLifetime.RenewalGains | pkg/bootstrap/kubeconfig.go:264-288 | A written expiry is whole seconds, over thirty minutes and at most an hour away, and later than any expiry close enough to be renewed |
| TokenLifetime.NoTokenOutlivesTheHour | pkg/bootstrap/kubeconfig.go:250 | In every reachable state every token has a readable expiry at most an hour ahead |
| TokenLifetime.ExpiryNeverMovesBack | pkg/bootstrap/kubeconfig.go:264-288 | No event moves the expiry of a surviving token back or changes its text or owner, stale renewals included |
| TokenLease.TokenCovered | pkg/bootstrap/kubeconfig.go:222-288 | After a pass of a deployment with its own key got past its token requests, whatever follows, no token of the key is past its expiry until thirty minutes after the listing |
| TokenLease.SecuredOnTheWay | pkg/bootstrap/kubeconfig.go:222-288 | Between listing and the end of the token requests the promise is pending or met, with anything interleaved |
| TokenLease.NoGap | pkg/bootstrap/kubeconfig.go:222-288 | If each pass is past its token requests at most thirty minutes after the listing of the one before, no token of the key is ever past its expiry, over any number of passes |
| TokenAgreement.OneTokenPerKey | pkg/bootstrap/kubeconfig.go:290-311 | A bootstrap key that is a deployment's own has at most one token, in every interleaving and under all faults, so the branch for several is dead for it |
| TokenAgreement.UniqueInvExec | pkg/bootstrap/kubeconfig.go:222-262 | A key of its own is enough to keep a deployment's one-token invariant along every run, whatever collides elsewhere |
| Collisions.OneTokenIffOwnKey | pkg/bootstrap/kubeconfig.go:290-311 | A deployment's key has at most one token in every reachable state of every run if and only if no other deployment has that key |
| TokenAgreement.AgreementRuns | pkg/bootstrap/kubeconfig.go:79-144 | For every run and deployment with its own kubelet name: token and kubeconfig agree in every state in which its worker is not between the two writes, if and only if no event harms that deployment |
| TokenAgreement.HarmsExactly | pkg/bootstrap/kubeconfig.go:79-144 | One event ends in disagreement if and only if it cuts the deployment's pair of requests while the stored kubeconfig carries another token than the fresh one |
| Cleanup.NothingComesBack | pkg/controllers/osc/osc_controller.go:376-455 | Once a deployment is leaving, no event of anybody brings one of its objects back or raises what remains |
| Cleanup.DeletesCount | pkg/controllers/osc/osc_controller.go:401-455 | A delete that takes effect lowers what remains, even if its answer is lost |
| Cleanup.FinalizerGoesLast | pkg/controllers/osc/osc_controller.go:376-398 | When the finalizer goes, all four objects are gone and exactly the other finalizers stay |
| Cleanup.CleanupIsResumable | pkg/controllers/osc/osc_controller.go:376-455 | Over runs of any length, however often cleanup is cut and restarted, nothing returns and the measure never rises |
| Cleanup.CleanupEndsClean | pkg/controllers/osc/osc_controller.go:376-398 | The same end state from every reachable state |
| Scenarios.CleanupPass | pkg/controllers/osc/osc_controller.go:376-455 | One undisturbed cleanup removes whichever of the four objects are left and releases the deployment |
| Outcomes.CleanupSuccessMeansReleased | pkg/controllers/osc/osc_controller.go:376-398 | Under any interference and faults, a cleanup that reports success has taken the finalizer off |
| Outcomes.NothingToDo | pkg/controllers/osc/osc_controller.go:145-161 | A deployment that is gone, or is leaving without the finalizer, is reported as done and nothing is touched |
| Outcomes.SuccessMeansStored | pkg/controllers/osc/osc_controller.go:141-203 | A pass of a live deployment that reports success, whatever its profile, whatever failed and whatever others did that spared it, has left finalizer, OSC, both cloud-config secrets and kubelet secret |
| Outcomes.PassSucceedsIff | pkg/controllers/osc/osc_controller.go:141-203 | A failure-free pass of a live deployment succeeds if and only if a profile serves it, its tokens are usable and the world is ready |
| Outcomes.UnservedFails | pkg/controllers/osc/osc_controller.go:179-224 | A missing or unsupporting profile fails the pass, which does no more than add the finalizer |
| Outcomes.OspKeyIs | pkg/controllers/osc/osc_controller.go:205-224 | The profile is the annotated one, in the annotated namespace or, if that is missing or empty, the controller's |
| Outcomes.ServedIs | pkg/controllers/osc/osc_controller.go:566-594 | A profile serves a deployment exactly if the template decodes, to its operating system and one of its providers |
| Outcomes.UtilityIs | pkg/generator/provisioner.go:30-51 | cloud-init except on Flatcar; there what the template names, ignition if it names none, an error if it does not decode |
| Outcomes.RefusedUtility | pkg/controllers/osc/osc_controller.go:247-254 | A profile that names a utility refuses machines of another; one that names none refuses only unknown ones |
| Outcomes.EdgeIs | pkg/controllers/osc/osc_controller.go:293-297 | Edge deployments are those of the provider "edge" |
| Outcomes.RotatesIs | pkg/controllers/osc/osc_controller.go:472-484 | A rotation is due exactly if revision, annotations or profile version differ from the stored ones |
| Outcomes.WhatAPassMakes | pkg/controllers/osc/osc_controller.go:270-316 | The OSC a pass makes has key, annotations, template, profile, utility and stamp of this deployment and the text of its one token; each secret it makes has that stamp, its slot, the stored spec and the template |
| Outcomes.RenewalLimit | pkg/bootstrap/kubeconfig.go:264-288 | A token with at least thirty minutes left is used without a write; any other is pushed to the last full second within an hour |
| Outcomes.NewTokenIs | pkg/bootstrap/kubeconfig.go:236-261 | A new token is named, labelled and filled as the code does, and lives until the last full second within an hour |
| Phases.RotationPhase | pkg/controllers/osc/osc_controller.go:457-493 | A failure-free pass comes out of the rotation check with OSC and secrets kept, or all of them cleared |
| Phases.TokenSecured | pkg/bootstrap/kubeconfig.go:222-288 | After the token requests there is exactly one token of the key, it carries the returned text and lasts thirty minutes |
| Convergence.FailureFreePass | pkg/controllers/osc/osc_controller.go:179-203 | A failure-free pass succeeds exactly when the tokens are usable and the checked world is ready, and ends in the computed outcome |
| Convergence.OnePassConverges | pkg/controllers/osc/osc_controller.go:179-374 | From any coherent, agreeing state one failure-free pass converges if and only if there is at most one token, with a readable expiry, and the world is ready |
| Scenarios.ReachablePassConverges | pkg/controllers/osc/osc_controller.go:141-374 | From the start, over any run that does not harm the deployment, its next undisturbed pass, if it is idle and supported, converges if and only if the world is ready |
| Scenarios.FirstPassConverges | pkg/controllers/osc/osc_controller.go:179-374 | On an untouched cluster the first pass of a supported deployment converges if and only if its utility is accepted and its user data generates |
| Convergence.RotationHeals | pkg/controllers/osc/osc_controller.go:417-493 | From any state with an OSC of another stamp one failure-free pass converges if and only if there is at most one token, with a readable expiry, user data generates, and no edge script is in the way |
| Phases.TokenPhaseFails | pkg/bootstrap/kubeconfig.go:290-311 | Several tokens, or an unreadable expiry, fail the pass at its listing |
| Convergence.SettledIsFixpoint | pkg/controllers/osc/osc_controller.go:179-374 | A further pass at the same clock changes nothing, token and kubeconfig included |
| Scenarios.StaleSecretStays | pkg/controllers/osc/osc_controller.go:460-464 | Without an OSC the next pass keeps an old secret, settles, and is a fixpoint |
| Scenarios.InterruptedRotationSticks | pkg/controllers/osc/osc_controller.go:487-492 | From every converged deployment an edit and one crash between the deletes lead to a settled, incoherent fixpoint |
| Scenarios.StaleKubeconfigStays | pkg/bootstrap/kubeconfig.go:130-132 | A pass that finds a token leaves a disagreeing kubeconfig as it is |
| Scenarios.InterruptedTokenSticks | pkg/bootstrap/kubeconfig.go:130-132 | From every converged deployment a token expiry and one crash after the create lead to a settled state in disagreement |
| Scenarios.EdgeNeverRecovers | pkg/controllers/osc/osc_controller.go:528-544 | With a script and no OSC a failure-free pass fails, makes none, and leaves a state of the same kind |
| Scenarios.EdgeStaysStuck | pkg/controllers/osc/osc_controller.go:528-544 | So do any number of failure-free passes one after the other |
| Collisions.CollidingKeysRace | pkg/bootstrap/kubeconfig.go:290-311 | Two deployments of one bootstrap key can make two tokens; over every run in which neither is removed every listing for the key fails, under any fault |
| Collisions.JamBars | pkg/bootstrap/kubeconfig.go:290-311 | While two tokens of a key stay, no later pass of a deployment with that key gets past its listing |
| Collisions.JammedPassFails | pkg/controllers/osc/osc_controller.go:226-237 | A whole undisturbed pass of such a deployment ends in an error right after its rotation check |
| Collisions.RemovalUnblocks | pkg/bootstrap/kubeconfig.go:290-311 | Of all events exactly the removal of one of the two tokens leaves at most one |
| Versions.OperatingSystemProfile.ReconcileSpec | pkg/controllers/osp/osp_controller.go:134-145 | The stored spec ends at the shipped version, is the shipped spec or the old one, and is the old one exactly if that had the version already |
| Versions.CreateStoresIff | pkg/admission/operatingsystemprofile/validation/validation.go:90-101 | A new profile is stored if and only if it is for Flatcar or declares no units |
| Versions.UpdateStoresIff | pkg/admission/operatingsystemprofile/validation/validation.go:103-120 | An update to another spec is stored if and only if it is that and has another version; else nothing changes |
| Versions.NoForbiddenUnits | pkg/admission/operatingsystemprofile/validation/validation.go:90-101 | Along any history of users' and controller's writes only Flatcar profiles ever have units |
| Versions.ChangeBumpsVersion | pkg/admission/operatingsystemprofile/validation/validation.go:103-120 | A write that replaces one spec by another changes the version |
| Versions.ControllerWriteAdmitted | pkg/controllers/osp/osp_controller.go:134-145 | The controller's write is never refused for immutability, and installs the shipped version if the shipped profile is valid |
| Versions.VersionEqualityRefinesSpecEquality | pkg/controllers/osc/osc_controller.go:481 | Along any history versions tell specs apart if and only if every write that takes up an old version restores its spec; in particular without reuse |
| Versions.DetourDrifts | pkg/admission/operatingsystemprofile/validation/validation.go:103-120 | Over any other version a profile can come back under its old version with any other valid spec |
| Versions.CurrentStampMeansCurrentInputs | pkg/controllers/osc/osc_controller.go:478-485 | Under that condition equal stamps mean equal profile spec, and generated OSCs that differ at most by the template |
| Versions.ConfigNeverChanges | pkg/admission/operatingsystemconfig/validation/validation.go:81-87 | No sequence of update attempts changes a stored OSC |
| Versions.ConfigUpdateAllowedIff | pkg/admission/operatingsystemconfig/validation/validation.go:81-87 | An update of an OSC is allowed if and only if it leaves the spec as it is |
| Query.EscapeRoundTrip | pkg/containerruntime/containerd.go:354-366 | Unescaping undoes query escaping on every byte string |
| Query.LowerCaseDecodes | pkg/containerruntime/containerd.go:354-366 | Percent escapes decode alike in either case |
| Query.PartIs | pkg/containerruntime/containerd.go:354-366 | A query part with a semicolon is dropped; one without an equals sign is a key with an empty value |
| Query.EncodeRoundTrip | pkg/containerruntime/containerd.go:354-366 | Parsing an encoded map yields exactly its non-empty value lists, in order |
| Query.EncodeValues | pkg/containerruntime/containerd.go:363 | The text is that of the keys in sorted order whatever order the map is iterated in |
| MirrorURL.StripKubermaticParam | pkg/containerruntime/containerd.go:354-366 | Returns the stripped URL; untouched if it does not parse or carries no marker |
| MirrorURL.StripRemovesMarker | pkg/containerruntime/containerd.go:354-366 | The decoded query loses exactly the marker; all other keys keep their values in order |
| MirrorURL.StripIdempotent | pkg/containerruntime/containerd.go:354-366 | Stripping twice is stripping once |
| MirrorURL.MarkedMirror | pkg/containerruntime/containerd.go:243-252 | The override flag of a plainly marked mirror is on exactly if its setting is one of Go's six spellings of true; stripping leaves the bare URL |
| MirrorURL.UnmarkedMirror | pkg/containerruntime/containerd.go:243-252 | Without the marker, or with a URL that does not parse, the flag is off and the URL untouched |
| Registry.Containerd.BuildRegistryHostConfigs | pkg/containerruntime/containerd.go:221-268 | Returns the declarative settings of all registries, in any iteration order, writing nothing |
| Registry.ConfigOf | pkg/containerruntime/containerd.go:221-268 | Each registry has its own mirrors and its own insecure mark; only the default one falls back to its upstream |
| Registry.Containerd.RegistryHostConfigs | pkg/containerruntime/containerd.go:274-349 | Returns the compiled files, in any iteration order, writing nothing |
| Registry.FileSays | pkg/containerruntime/containerd.go:285-346 | A registry that alone uses its directory has a file exactly if it has mirrors, is insecure, or is docker.io left alone; its server is its name, Docker's upstream for docker.io, nothing for the catch-alls; an insecure one without mirrors has exactly one host, its server, skip-verify and no override |
| Registry.WrittenIsCompiled | pkg/containerruntime/containerd.go:274-349 | Visiting the registries in sorted order leaves each path with the byte-wise greatest active registry of its directory |
| Registry.CompiledUnique | pkg/containerruntime/containerd.go:274-349 | The compiled files are determined by the settings |
| Registry.CompileTwice | pkg/containerruntime/containerd_test.go:262-300 | Compiling twice with one engine gives equal files and leaves the shared mirrors as they are |
| Registry.LastDuplicateDecides | pkg/containerruntime/containerd.go:274-349 | Hosts are exactly the mirror URLs, with the override flag of the last duplicate and the registry's insecure mark |
| Registry.PathTellsDirectory | pkg/containerruntime/containerd.go:274-349 | Two registries share a file exactly when they share a directory |
| Registry.DefaultBeatsStar | pkg/containerruntime/containerd.go:274-349 | With an active `_default`, `*` never owns the shared file |
| Registry.MarkerLeaks | pkg/containerruntime/containerd.go:354-366 | A host URL carries the marker if and only if it is one of the mirrors, carries the marker and does not parse |
| Registry.NoMarkerIffMarkedParse | pkg/containerruntime/containerd.go:354-366 | A file is free of markers if and only if every marked mirror of the registry parses |
| Registry.SpaceLeaksMarker | pkg/containerruntime/containerd.go:354-366 | A marked mirror with a space in its host name, which does not parse, reaches the file with its marker |
| MirrorFlags.RegistryMirrorsFlags.Set | pkg/containerruntime/flags.go:27-39 | Appends the mirror to the registry before the first equals sign; refuses a value without one and changes nothing |
| MirrorFlags.FlagSays | pkg/containerruntime/flags.go:27-39 | A flag is split at its first equals sign and appended; without one it is refused and changes nothing |
| MirrorFlags.RegistryMirrorsFlags.List | pkg/containerruntime/flags.go:41-60 | Lists registries in sorted order, each with its mirrors in order |
| MirrorFlags.ListedFlagsRebuild | pkg/containerruntime/flags.go:27-60 | A map is reachable by flags if and only if it is regular, and setting its listed entries rebuilds it |
| MirrorFlags.BuildConfig | pkg/containerruntime/config.go:47-104 | Appends the parsed comma list to the very map of the flags, and fails exactly on an unparsable mirror or a malformed secret reference |
| MirrorFlags.AddMirrors | pkg/containerruntime/config.go:63-87 | Mirrors before the first unparsable one are appended in order; the error says whether there was one |
| MirrorFlags.ItemsAre | pkg/containerruntime/config.go:49-64 | Items are what is between commas, trimmed, without blank ones, in order |
| MirrorFlags.NamedItem | pkg/containerruntime/config.go:57-74 | An item whose text before the equals sign is a registry name is a mirror of that registry |
| MirrorFlags.BareItem | pkg/containerruntime/config.go:57-74 | An item without an equals sign is a mirror of the default registry |
| MirrorFlags.OddItem | pkg/containerruntime/config.go:57-74 | So is, as a whole, one whose name part is empty or holds another character |
| MirrorFlags.SchemeIs | pkg/containerruntime/config.go:72-74 | Only a mirror that does not start with "http" gets "https://" in front |
| MirrorFlags.SecretRefIs | pkg/containerruntime/config.go:90-94 | A credentials reference is empty or has exactly one slash |
| MirrorFlags.TrimSpaceTrims | pkg/containerruntime/config.go:50-64 | Trimming cuts nothing but white space, as UTF-8 characters, off both ends of an item, and leaves none there |
| MirrorFlags.MirrorsConserved | pkg/containerruntime/config.go:47-104 | Every registry gets the flags' mirrors followed by its comma-list mirrors in order, none lost or added |
| MirrorFlags.ListMirrorsHaveScheme | pkg/containerruntime/config.go:47-104 | Every comma-list mirror starts with "http" |
| MirrorFlags.BuildingTwiceDoubles | pkg/containerruntime/config.go:47-104 | Building again from the same flags appends the comma list a second time |
| Ini.EscapeReadsBack | pkg/util/ini/escape.go:24-32 | Reading an escaped value returns it and stops at its end, for every string and whatever follows |
| Ini.OnlyOuterQuotesOpen | pkg/util/ini/escape.go:24-32 | The only unescaped quotes are the first and the last character |
| Ini.EscapeIs | pkg/util/ini/escape.go:24-32 | A text without backslash and quote is only quoted; each of those gets one backslash |
| Ini.DocumentReadsIffOneLine | pkg/util/ini/escape.go:24-32 | A rendered document reads exactly when no text in it holds a line break, and then yields every setting under its section |
| CloudConfig.BlocksReadBack | pkg/cloudprovider/vsphere/types/cloudconfig.go:30-58 | The same for sections, subsections and blank lines as the templates lay them out |
| CloudConfig.GceTextIsTemplate | pkg/cloudprovider/gce/types/cloudconfig.go:31-38 | The blocks that are read back render to the template's text, line by line, one node-tags line per tag |
| CloudConfig.GceReadsBack | pkg/cloudprovider/gce/types/cloudconfig.go:31-38 | A rendered GCE config reads if and only if no value has a line break, and then gives every field and all node tags back |
| CloudConfig.VsphereTextIsTemplate | pkg/cloudprovider/vsphere/types/cloudconfig.go:30-58 | The same for the vSphere template: padding, blank lines, optional address family, subsections in name order |
| CloudConfig.VsphereReadsBack | pkg/cloudprovider/vsphere/types/cloudconfig.go:30-58 | The same for vSphere, any number of subsections, whose ports need no quotes; numeric ones are such |
| Files.DefinitionOf | pkg/controllers/osc/resources/operating_system_config.go:504-534 | A name means its last definition that is not empty, else what the file defines, else the first empty one |
| Files.OrderIrrelevantIffSettled | pkg/controllers/osc/resources/operating_system_config.go:549-585 | All orders of adding the templates agree if and only if no two of them define one name differently in a way that counts |
| Files.FilesForgetOrder | pkg/controllers/osc/resources/operating_system_config.go:549-585 | Then all files, errors included, are the same whatever order the template map is iterated in |
| Files.PlainBodiesUnambiguous | pkg/controllers/osc/resources/operating_system_config.go:587-589 | Rendered bodies without further definitions are settled |
| Files.SelectAdditionalFiles | pkg/controllers/osc/resources/operating_system_config.go:536-547 | Appends the files of the first matching runtime to the profile's |
| Files.SelectAdditionalTemplates | pkg/controllers/osc/resources/operating_system_config.go:549-585 | The names are those of the profile and of the first matching runtime, the profile's text wins; each is defined by its rendered body, in some order; an error exactly if one does not render |
| Files.PopulateFilesList | pkg/controllers/osc/resources/operating_system_config.go:504-534 | Every file in its place with all definitions in scope; an error exactly if one fails |
| Files.RenderedFiles | pkg/controllers/osc/resources/operating_system_config.go:491-502 | The result comes from some order of the templates, and is the one function of the inputs when the definitions are settled |
| Files.ClearRendersOnce | pkg/controllers/osc/resources/operating_system_config.go:491-502 | A profile whose definitions are settled has exactly one possible result |
| Files.RenderOSPFiles | pkg/controllers/osc/resources/operating_system_config.go:365-382 | Each half is rendered in some order of its templates, an error if one does not render, and in the only possible way if settled; provisioning files are followed by one hosts file per path in sorted order |
| Files.InjectRegistryHostConfigs | pkg/controllers/osc/resources/operating_system_config.go:385-406 | Appends the hosts files in the order of their paths, in any iteration order |
| Files.Layout | pkg/controllers/osc/resources/operating_system_config.go:491-502 | Base files come first, then those of the runtime |
| Files.HostsLayout | pkg/controllers/osc/resources/operating_system_config.go:385-406 | Exactly one file per path with its content and permissions 600, in increasing path order |
| Files.FilesKeepPlace | pkg/controllers/osc/resources/operating_system_config.go:523-531 | Rendering keeps number, order and paths, and gives 644 to files without permissions |
| Files.ContentIsRun | pkg/controllers/osc/resources/operating_system_config.go:504-534 | The content of each rendered file is the run of its own template with all definitions parsed into it |

## Left out

- Service account tokens for bootstrapping (`pkg/bootstrap/kubeconfig.go:192-220`): the kubeconfig then carries a
  long-lived token and none of the token protocol runs.
- Contents of the kubeconfig other than its token: cluster address and CA are copied from the cluster info.
- The registry credentials field that `reconcileOperatingSystemConfigs` writes without a lock, and the containerd
  authentication keys: two entries for one host depend on map order, so there is no function to state.
- Generation of OSCs and user data (templates' data, ignition, cloud-init): free terms, except for the file list.
- Profile decoding, provider config loaders and credential lookup; whether a template decodes is part of the template.
- Contents of the edge script, and its cleanup: the code never deletes it.
- The deployment webhook, the predicate that skips deployments without a profile annotation, and reading the default
  profiles from disk.
- Duplicate SSH keys (`pkg/generator/generator.go:171-186`): a loop over one list.
- Reads through a cache that lags behind; the model's reads are linearizable.
- Retries and back-off: a pass may begin at any time, and it is not assumed that one does.
- Error texts; an error is reported or not.
- Printing of hosts.toml by the TOML library: a file is its server and host table.
- Pass.PassIsShort: reads of the cluster info, and of registry credentials beside the API server token, are not
  counted as requests of their own.
- Reconciler.OscReconciler.CreateOperatingSystemConfig: the reads of the registry credentials and of the API server
  token are one request, since neither changes anything and either failure ends the pass; the field the credentials
  are kept in is not modelled.
- Reconciler.OscReconciler.GenerateEdgeScript: what the script says is not modelled, only that it is created.
- Reconciler.Bootstrap.CreateBootstrapKubeconfig: no service account tokens, and of the kubeconfig only its token.
- Registry.CompileTwice: that two calls see the same mirror map holds by the map being a constant of the engine; what
  is proved is that the lists in it are not written and the files agree.
- MirrorURL.StripRemovesMarker: `url.Parse` and the printing of the part before the query stay a parameter, of which
  only is asked that printing escapes `?` and `#`.
- MirrorFlags.RegistryMirrorsFlags.List: gives the entries String joins, not the brackets and the separator, which no
  reader can undo when a mirror holds a comma.
- CloudConfig.VsphereReadsBack: a subsection port that starts with a space or a quote or holds a line break is not
  covered, because the template writes it without quotes; the reader follows the escape rules of `pkg/util/ini`, not
  every dialect rule of the consumer; the cluster id is never rendered, so it is not a field here.
- Registry.Containerd.RegistryHostConfigs: printing by the TOML library, and its error, are left out; mirror lists are
  arrays that are only read; that the engine's map itself is shared between calls is modelled by its being a constant.
- Reconciler.OscReconciler.Reconcile: a local computation, and reading the clock, happen at the instant of the request
  they belong to.
