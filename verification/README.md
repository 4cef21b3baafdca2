# Karpenter provider for UpCloud: a verified model

The provider runs Kubernetes nodes on UpCloud servers. This project models the parts of it whose
correctness spans several functions or a whole history of events, in Dafny, and proves what they
are for:

- **Drift.** A node class's spec is hashed onto every claim made from it; a claim is drifted when the
  live spec hashes differently. `NodeClassSpecs` holds the spec as Go does (struct, slices, map and
  pointers on the heap), with `DeepCopy` and `Hash` as in-place code; `HashDetection` what the digest sees; `Drift` the
  stamping and judging of claims; `DriftRuns` the protocol as a state machine (spec edits, provisioning, re-baseline passes
  that patch claims one by one from copies listed earlier, operator upgrades and rollbacks);
  `RebaselinePass` what one undisturbed pass computes and what passes do to a claim's stamp; `ClusterApi`
  a cluster that moves between any two API calls; `NodeClassController` and `Provisioning` the
  controller's and the cloud provider's code over it.
- **Node lifetime.** `PodMatching` holds the loops that decide whether a node is busy or wanted,
  against declarative statements and against Kubernetes' scheduling rules; `TtlRuns` the TTL
  controller as a timed state machine; `TtlController` its code, proved to be a run of that machine.
- **Boot data.** `Utf8`, `ShellQuoting`, `NodeLabels`, `Layout`, `Templates` and `Userdata` cover
  validation, quoting, label serialisation, indentation and the two templates, each with the reader
  on the other side: UTF-8 decoding, the shell's quoting rules (POSIX.1-2017, Shell Command Language,
  sections 2.2.1 to 2.2.3), the kubelet's label list, and YAML literal scalars (YAML 1.2.2, sections
  8.1.1.1 and 8.1.2). A Go string is a sequence of bytes, each byte one `char`.
- **Servers.** `InstanceProvider` and `CloudProvider` model creation, `ServerDeletion` the
  stop-wait-delete protocol against a server that lives at the cloud.
- **Catalogue.** `InstanceTypes` models the plan and price cache with Go's 64-bit arithmetic
  (`Int64`) and unordered maps.

A run is any sequence of steps, and a step whose guard fails does nothing, so a statement about
`Exec` of any step sequence is a statement about every interleaving. Methods that call an API let
"the rest of the world" take arbitrary steps first and may fail, with or without the call having
reached the server. Go's map iteration is a choice of any remaining key.

Where the code and its comments differ, the model follows the code:

- Claims evaluated as Drifted are said to keep their stored hash (pkg/controllers/nodeclass/controller.go:87).
  The guard looks at the listed copy, so a claim that turns Drifted after the list is re-stamped
  (`RebaselinePass.DriftedAfterListingIsRestamped`). The stamp survives every continuation exactly
  when no running pass listed the claim before it turned Drifted (`RebaselinePass.DriftSurvivesExactly`).
- Claims that have not launched are said to be skipped because stamping them would race with their
  provisioning (pkg/controllers/nodeclass/controller.go:88-89). Only those without a hash are skipped, so a
  pass that listed a hashed unlaunched claim can overwrite the stamp of its provisioning with an older
  digest, and an up-to-date node is reported as drifted (`RebaselinePass.StalePassOverwritesCreate`;
  exactly when, `RebaselinePass.StampSurvivesExactly`).
- A required node affinity is not read as "any term suffices" (`PodMatching.AffinityAgreesExactly`). A term
  without an `In` or `Exists` on the instance type is skipped, even if it allows the node, and once any
  term mentions the instance type a skipped term no longer helps: a lone exclusion (`NotIn`) refuses
  every plan (`PodMatching.NotInNeverFits`). Next to an `In` or `Exists`, an exclusion is not read at
  all, and the excluded plan is accepted (`PodMatching.NotInIsIgnored`).
- A pending pod without any PodScheduled condition matches, although the comment asks for the reason
  Unschedulable (`PodMatching.MatchesAsDocumentedExactly`, `PodMatching.UnseenPodMatches`).
- Toleration matching accepts unknown operators as Equal (`PodMatching.CoversIsToleratesExactly`).
- The decommissioning patch carries the whole taint list, so a concurrent edit of other taints is
  lost (`TtlRuns.TaintPatchLosesNothingExactly`).

## Model

| member | source | states |
|---|---|---|
| `NodeClassSpecs.NodeClassSpec.DeepCopy` | apis/v1alpha2/zz_generated.deepcopy.go:62-100 | the copy says the same, shares no slice, map or flag, and does share the Storage object |
| `NodeClassSpecs.CopySlice` | apis/v1alpha2/zz_generated.deepcopy.go:64-68 | nil stays nil, anything else gets a fresh array with the same elements |
| `NodeClassSpecs.CopyMap` | apis/v1alpha2/zz_generated.deepcopy.go:74-80 | the same for a map, in any iteration order |
| `NodeClassSpecs.NodeClassSpec.ClearEmpty` | apis/v1alpha2/upcloudnodeclass_hash.go:30-41 | afterwards exactly the empty collections have become absent |
| `NodeClassSpecs.NodeClassSpec.Hash` | apis/v1alpha2/upcloudnodeclass_hash.go:28-50 | returns the digest of the spec's value and changes nothing, although the copy it edits aliases Storage |
| `NodeClassSpecs.SetDigestPermutation` | apis/v1alpha2/upcloudnodeclass_hash.go:42-45 | a slice hashed as a set has one digest for all its permutations |
| `NodeClassSpecs.HashRespectsNormalForm` | apis/v1alpha2/upcloudnodeclass_hash.go:25-45 | specs equal up to list order and empty-versus-absent collections have equal hashes |
| `NodeClassSpecs.ExplicitFalseIsAField` | apis/v1alpha2/upcloudnodeclass_hash.go:42-45 | an explicit false is hashed as a field, an omitted flag is not |
| `HashDetection.DigestSeesNormalFormExactly` | apis/v1alpha2/upcloudnodeclass_hash.go:25-45 | all order-insensitive hashing libraries agree on two specs exactly when every field agrees, lists as multisets and empty as absent; so any other edit is seen by some library |
| `HashDetection.PresentInjective` | apis/v1alpha2/upcloudnodeclass_hash.go:42-45 | leaving out zero-valued fields loses nothing: the named fields that remain determine all of them |
| `Drift.VerdictExactly` | pkg/cloudprovider/cloudprovider.go:247-276 | an error exactly when the class lookup failed; drift exactly when it was found and the claim has a stamp of the running version other than the spec's digest |
| `Drift.MergePatchOnFreshCopy` | pkg/controllers/nodeclass/controller.go:109-115 | a merge patch applied to the copy it was computed from yields the edited copy |
| `Drift.RebaselinePreservesVerdict` | pkg/controllers/nodeclass/controller.go:96-118 | from a copy that is still current: against the spec the pass read, the claim's drift verdict does not change |
| `Drift.RestampedClaimDetectsEveryEdit` | pkg/cloudprovider/cloudprovider.go:259-275 | a re-stamped claim is drifted exactly when the live spec's digest differs from the stamp |
| `Drift.CurrentHashSeesNormalForm` | apis/v1alpha2/upcloudnodeclass_hash.go:25-50 | the current hash version is a function of the spec's normal form |
| `DriftRuns.PatchedClaimGenuine` | pkg/controllers/nodeclass/controller.go:109-117 | a patch computed from a copy that fell behind still leaves a genuine stamp |
| `DriftRuns.StepInv` | pkg/controllers/nodeclass/controller.go:90-120 | every step keeps: a versioned stamp is the digest, under that version, of a spec the class really had |
| `DriftRuns.ExecInv` | pkg/cloudprovider/cloudprovider.go:247-276 | so does every run, wherever it starts |
| `DriftRuns.HistoryIsReal` | pkg/cloudprovider/cloudprovider.go:247-276 | every recorded (class, spec) was live after some step of the run |
| `DriftRuns.NoFalseDrift` | pkg/cloudprovider/cloudprovider.go:247-276 | after any run, a drifted claim carries the digest of a spec its class really had after some step of that run, and that spec's normal form differs from the live one's |
| `DriftRuns.UnchangedClassNeverDrifts` | apis/v1alpha2/upcloudnodeclass_hash.go:13-16 | a class whose spec keeps its meaning never has a drifted claim, through upgrades, rollbacks, failed passes and stale reads |
| `DriftRuns.FirstUpgradeReportsNothing` | pkg/cloudprovider/cloudprovider.go:266-270 | when a new hash version first runs, no claim is reported as drifted |
| `RebaselinePass.CompletePass` | pkg/controllers/nodeclass/controller.go:80-120 | which claims a complete pass stamps, and that all others, and the claim set, are unchanged |
| `RebaselinePass.SecondPassWritesNothing` | pkg/controllers/nodeclass/controller.go:98-107 | what a pass has visited a later pass leaves alone, whatever spec it reads |
| `RebaselinePass.PassShrinksStale` | pkg/controllers/nodeclass/controller.go:96-118 | an interrupted pass takes exactly the visited claims off the stale set and writes no others |
| `RebaselinePass.RetriesTerminate` | pkg/controllers/nodeclass/controller.go:115-117 | over any number of failed attempts, patches issued plus claims still stale equals claims stale at the start |
| `RebaselinePass.QuietPass` | pkg/controllers/nodeclass/controller.go:90-120 | the protocol's steps, undisturbed and in any listing order, compute the pass function |
| `RebaselinePass.PatchSparesExactly` | pkg/controllers/nodeclass/controller.go:105-117 | a patch leaves a hashed, outdated, Drifted claim as it was exactly when the listed copy was Drifted already |
| `RebaselinePass.DriftSurvivesExactly` | pkg/controllers/nodeclass/controller.go:87-117 | such a claim keeps its stamp in every continuation, whatever passes, edits, failures and upgrades, exactly when no running pass listed it before it turned Drifted |
| `RebaselinePass.PatchKeepsStampExactly` | pkg/controllers/nodeclass/controller.go:96-117 | a patch leaves a current stamp exactly when its pass skips the copy, read a spec of that digest, or listed the digest it would write |
| `RebaselinePass.StampSurvivesExactly` | pkg/controllers/nodeclass/controller.go:87-117 | a current stamp survives every continuation under one version exactly when all passes holding a copy of the claim are such |
| `RebaselinePass.StalePassOverwritesCreate` | pkg/controllers/nodeclass/controller.go:87-101 | the input that loses it: a hashed unlaunched claim, listed before it is provisioned from an edited spec, is re-stamped with the older digest and reported as drifted |
| `RebaselinePass.DriftedAfterListingIsRestamped` | pkg/controllers/nodeclass/controller.go:105-117 | the input that shows it: a claim that turns Drifted between list and patch is re-stamped and no longer reported |
| `NodeClassController.RestampClaim` | pkg/controllers/nodeclass/controller.go:109-117 | the edited copy is the re-baselined claim, and the run gains its patch unless the call failed |
| `NodeClassController.VisitClaim` | pkg/controllers/nodeclass/controller.go:96-118 | the loop body leaves the listed copy re-baselined, and patches it exactly when the claim is eligible, unless the call failed |
| `NodeClassController.VisitClaims` | pkg/controllers/nodeclass/controller.go:96-118 | the loop adds to the run the patches of the eligible claims among those visited, in order: all claims, or a prefix when a patch failed |
| `NodeClassController.RebaselineClaimHashes` | pkg/controllers/nodeclass/controller.go:90-120 | under any interference the pass is a run whose own steps are one list and the patches of the eligible listed claims, in order: all, or those of a prefix on error |
| `NodeClassController.EligibleIdsExact` | pkg/controllers/nodeclass/controller.go:96-107 | those patches hit each eligible listed claim exactly once and no other |
| `NodeClassController.DeleteFinalizer` | pkg/controllers/nodeclass/controller.go:129-131 | the loop removes the provider's finalizer |
| `NodeClassController.WithoutExact` | pkg/controllers/nodeclass/controller.go:129-131 | all occurrences go, every other finalizer keeps its multiplicity |
| `NodeClassController.WithoutAppend` | pkg/controllers/nodeclass/controller.go:129-131 | the other finalizers keep their order |
| `NodeClassController.ResultTells` | pkg/controllers/nodeclass/controller.go:35-78 | what each result tells about the class as it is left, and which results are possible for which class |
| `NodeClassController.Publish` | pkg/controllers/nodeclass/controller.go:62-72 | the status ends up ready with the spec's digest, or the call failed; a conflict leaves it unwritten and is retried |
| `NodeClassController.Prepare` | pkg/controllers/nodeclass/controller.go:39-69 | for each of deletion, missing finalizer, invalid spec and status: which result goes with which metadata; the pass is only reached by a serviceable class once its digest is published |
| `NodeClassController.Reconcile` | pkg/controllers/nodeclass/controller.go:27-78 | result and metadata go together case by case (`ResultTells`); claims are written only for a valid, finalized, undeleted class whose published digest is the one stamped; the long requeue means that every eligible claim of the list was patched; the whole is a run of the protocol |
| `InstanceProvider.Provider.Create` | pkg/providers/instance/instance.go:38-106 | the handed-in map gains exactly the four markers, the request lists each entry once and carries the disk of the storage spec, the three interfaces and the metadata flag; the server is recognised as managed |
| `InstanceProvider.MarkedExactly` | pkg/providers/instance/instance.go:42-45 | the four markers by name and value; every other label is the user's |
| `InstanceProvider.DeviceExactly` | pkg/providers/instance/instance.go:52-67 | the disk is cloned from the template, with the size, tier and encryption the storage spec sets |
| `InstanceProvider.MarkedIsManaged` | pkg/providers/instance/instance.go:42-50 | whatever labels the user set, the created server carries the managed marker |
| `InstanceProvider.Provider.IsManaged` | pkg/providers/instance/instance.go:173-180 | true exactly when some label is the managed marker |
| `InstanceProvider.Provider.List` | pkg/providers/instance/instance.go:123-142 | fails exactly when the listing fails; otherwise the managed servers whose details were readable, in order |
| `InstanceProvider.ManagedAmongExact` | pkg/providers/instance/instance.go:130-141 | a server is in the result exactly when it is managed and some listed one was read as it |
| `InstanceProvider.ManagedAmongAppend` | pkg/providers/instance/instance.go:130-141 | in listing order |
| `CloudProvider.InstanceTypeRequirement` | pkg/cloudprovider/cloudprovider.go:340-347 | the first requirement on the instance type, or none if there is none |
| `CloudProvider.OverrideStorage` | pkg/cloudprovider/cloudprovider.go:141-157 | bundled size without tier, encryption kept; the class's Storage object is shared or left, never written |
| `CloudProvider.Create` | pkg/cloudprovider/cloudprovider.go:70-191 | for a class that resolves, the stamp is the digest of the spec as read, the request and user data are those of that spec, plan and claim, the class is left unchanged, and it fails only when one of its calls fails, the last on that same request; otherwise it fails |
| `CloudProvider.LabelPrecedence` | pkg/cloudprovider/cloudprovider.go:102-115 | claim labels win over class labels, those over computed ones |
| `CloudProvider.NodeLabelsTell` | pkg/cloudprovider/cloudprovider.go:102-115 | of every claim Create returns: the claim's labels with their values, then the class's, then the eight computed ones by name, and no others |
| `CloudProvider.CreatedTells` | pkg/cloudprovider/cloudprovider.go:122-190 | the stamp, the taint groups in order, the disk, and the report of the server |
| `CloudProvider.RequestLabelsTell` | pkg/cloudprovider/cloudprovider.go:120 | the server labels are the four markers and, beside them, the class's own |
| `CloudProvider.PlanTells` | pkg/cloudprovider/cloudprovider.go:79-82 | the plan is the first value of the first instance-type requirement, or else the class's |
| `CloudProvider.JudgeDrift` | pkg/cloudprovider/cloudprovider.go:247-276 | the code's verdict is IsDrifted's, and a missing class is reported as an event |
| `CloudProvider.CreatedClaimIsNotDrifted` | pkg/cloudprovider/cloudprovider.go:172-178 | what Create stamped is not drifted against any rewriting of the same spec |
| `Provisioning.Provision` | pkg/cloudprovider/cloudprovider.go:70-191 | under any interference, provisioning is a run of the drift protocol whose own steps are the read of the class and, only after a successful Create, the stamp, which is the digest of the spec that was read |
| `ServerDeletion.Delete` | pkg/cloudprovider/cloudprovider.go:193-220 | the code is a deletion run, and no error, or not-found, means the server is gone |
| `ServerDeletion.ReportsExactly` | pkg/cloudprovider/cloudprovider.go:193-220 | when Delete waits, goes on, reports the deletion, an unknown server or an error, by the replies it got |
| `ServerDeletion.DeleteIsSafe` | pkg/cloudprovider/cloudprovider.go:196-219 | the delete request only reaches a stopped or vanished server |
| `ServerDeletion.UnsafeExactlyWhenDishonest` | pkg/cloudprovider/cloudprovider.go:201-204 | an unstopped server can be hit exactly when the stop was answered SERVER_STATE_ILLEGAL for one |
| `ServerDeletion.RetryCanFinish` | pkg/cloudprovider/cloudprovider.go:193-220 | from whatever state failures left, one more Delete can finish |
| `ServerDeletion.AttemptsAreSafe` | pkg/cloudprovider/cloudprovider.go:193-220 | the same safety over any number of attempts, with at most one reporting a deletion |
| `InstanceTypes.SaturatingBytesExact` | pkg/providers/instancetypes/instancetypes.go:161-166 | the memory conversion is max(m,0) times 2^20 cut off at 2^63-1, without overflow |
| `InstanceTypes.SaturatingBytesMonotone` | pkg/providers/instancetypes/instancetypes.go:161-166 | more memory never shows as less |
| `InstanceTypes.MemoryAgreesExactly` | pkg/cloudprovider/cloudprovider.go:282-287 | catalogue and built claims agree exactly in the exact range and on negatives that wrap to zero |
| `InstanceTypes.Provider.EntriesTell` | pkg/providers/instancetypes/instancetypes.go:84-106 | after any Refresh, the entries are the names of the last list, each with its last plan, offered and labelled as that plan and the cached prices say: capacity type by the letters of the name, price, clamped numbers, every label |
| `InstanceTypes.BuildOffers` | pkg/providers/instancetypes/instancetypes.go:157-206 | what the scheduler is told about a plan |
| `InstanceTypes.BuildSelectedBy` | pkg/providers/instancetypes/instancetypes.go:192-214 | by which labels it can be selected; printed numbers parse back |
| `GoStrings.SpotExactly` | pkg/util/helpers.go:5-9 | a plan is a spot plan exactly when its name has the four letters in a row, in either case |
| `InstanceTypes.IndexExact` | pkg/providers/instancetypes/instancetypes.go:129-138 | the keys are each item's bare name and, for an item without the prefix, also the prefixed one; a key holds the price of the last item filed under it |
| `InstanceTypes.OrderInvisibleExactly` | pkg/providers/instancetypes/instancetypes.go:129-138 | map order does not show in the price index exactly when no two items file different prices under one key |
| `InstanceTypes.ByNameExact` | pkg/providers/instancetypes/instancetypes.go:89-97 | of several plans with one name the last is kept |
| `InstanceTypes.Provider.RefreshPrices` | pkg/providers/instancetypes/instancetypes.go:110-153 | when prices are refetched and what they become; a failed or early refresh changes nothing |
| `InstanceTypes.PricesTell` | pkg/providers/instancetypes/instancetypes.go:110-146 | prices are replaced exactly when a reply came and the cache was empty or old, by the zone's own items if it has any |
| `InstanceTypes.Provider.Refresh` | pkg/providers/instancetypes/instancetypes.go:66-106 | both maps are always the catalogue of the last fetched plan list at the prices cached then; prices are refetched when they are old; a failed plan fetch changes nothing |
| `InstanceTypes.SpacedApart` | pkg/providers/instancetypes/instancetypes.go:108-113 | any two successful price fetches are at least cacheTTL apart |
| `PodMatching.HasNonDSPods` | pkg/controllers/nodeclaimttl/controller.go:114-122 | exactly when a live pod on the node is not owned by a DaemonSet |
| `PodMatching.TolerationMatches` | pkg/controllers/nodeclaimttl/controller.go:181-197 | some toleration covers the taint |
| `PodMatching.CoversIsToleratesExactly` | pkg/controllers/nodeclaimttl/controller.go:179-197 | covering is Kubernetes' rule exactly for operators Kubernetes knows |
| `PodMatching.PodToleratesNodeTaints` | pkg/controllers/nodeclaimttl/controller.go:167-177 | every hard taint is tolerated |
| `PodMatching.ScanTerm` | pkg/controllers/nodeclaimttl/controller.go:209-223 | the flags after the loop with its early break, as statements about the term |
| `PodMatching.PodFitsInstanceType` | pkg/controllers/nodeclaimttl/controller.go:200-249 | the selector agrees, and no term mentions the instance type or some term accepts the plan |
| `PodMatching.TermMatchesExactly` | pkg/controllers/nodeclaimttl/controller.go:206-231 | a term matches in Kubernetes' sense exactly when the source accepts it and passed over nothing, or wrongly skips it |
| `PodMatching.AffinityAgreesExactly` | pkg/controllers/nodeclaimttl/controller.go:206-246 | for pods without a node selector on the instance type, all terms, operators and nodes: the exact condition for the source's answer to be Kubernetes' |
| `PodMatching.WronglyAllowedExactly` | pkg/controllers/nodeclaimttl/controller.go:206-246 | for any pod and node, when the source fits a pod that Kubernetes would not put there: it accepts some term, each only past an ignored expression, and skips none that would do; or all terms are empty; or the selector only seems to agree |
| `PodMatching.WronglyRefusedExactly` | pkg/controllers/nodeclaimttl/controller.go:206-246 | and when it refuses a pod that Kubernetes would put there: it accepts no term, some term mentions the instance type, and one it skips would do |
| `PodMatching.UniformAffinityAgrees` | pkg/controllers/nodeclaimttl/controller.go:206-246 | with In and Exists only, they agree when the terms are non-empty and all or none mention the instance type |
| `PodMatching.NotInNeverFits` | pkg/controllers/nodeclaimttl/controller.go:224-244 | a lone exclusion refuses every plan, unlike Kubernetes |
| `PodMatching.NotInIsIgnored` | pkg/controllers/nodeclaimttl/controller.go:216-223 | next to an Exists, an excluded plan is accepted, unlike in Kubernetes |
| `PodMatching.IsMatchingPending` | pkg/controllers/nodeclaimttl/controller.go:141-163 | pending, unbound, not reported otherwise than Unschedulable, fitting and tolerating |
| `PodMatching.HasMatchingPendingPod` | pkg/controllers/nodeclaimttl/controller.go:126-135 | some pod matches the node's plan and taints |
| `PodMatching.MatchesAsDocumentedExactly` | pkg/controllers/nodeclaimttl/controller.go:137-155 | a match is reported as unschedulable exactly when the pod has a PodScheduled condition |
| `PodMatching.UnseenPodMatches` | pkg/controllers/nodeclaimttl/controller.go:145-155 | a pending pod without conditions matches and is not reported as unschedulable |
| `PodMatching.MatchingIsAntitone` | pkg/controllers/nodeclaimttl/controller.go:167-177 | more taints never make more pods match |
| `TtlRuns.TaintingExact` | pkg/controllers/nodeclaimttl/controller.go:260-270 | the one NoSchedule taint is appended where the key was missing, the others keep their order |
| `TtlRuns.StepInv` | pkg/controllers/nodeclaimttl/controller.go:35-83 | every step keeps the invariant over clock, claim, node, held copies and deletion |
| `TtlRuns.NeverDeletedEarly` | pkg/controllers/nodeclaimttl/controller.go:46-50 | no run deletes a claim before a full TTL from the last reset, rounded down to the second, or from creation |
| `TtlRuns.StartNeverMovesBack` | pkg/controllers/nodeclaimttl/controller.go:88-111 | the start of the TTL never moves backwards along a run |
| `TtlRuns.StartIsLastReset` | pkg/controllers/nodeclaimttl/controller.go:100-111 | in every run, the start is the last reset rounded down to the second, or else the creation |
| `TtlRuns.TakenUpExactly` | pkg/controllers/nodeclaimttl/controller.go:41-50 | a reconcile takes up exactly the claims that exist, are not being deleted and have a node, and goes on exactly when a full TTL has passed since the start |
| `TtlRuns.CopiesAreReal` | pkg/controllers/nodeclaimttl/controller.go:54-72 | the pods and node a reconcile decides on were the cluster's at two points of the run, in this order |
| `TtlRuns.DeletionIsJustified` | pkg/controllers/nodeclaimttl/controller.go:54-82 | every deletion followed an observation of the pods with nobody on the node, then one of the node that none of those pods matched, and the node carries exactly one NoSchedule decommissioning taint |
| `TtlRuns.NodeStaysClean` | pkg/controllers/nodeclaimttl/controller.go:260-272 | at any time the node has at most one such taint |
| `TtlRuns.TaintPatchLosesNothingExactly` | pkg/controllers/nodeclaimttl/controller.go:266-271 | the patch keeps the other taints exactly when nobody edited them since the read |
| `TtlRuns.OnlyToleratingPodsReset` | pkg/controllers/nodeclaimttl/controller.go:126-177 | on a tainted node only a pending, unbound pod tolerating the taint can cause a reset |
| `TtlRuns.AfterTaintOnlyToleratingPodsReset` | pkg/controllers/nodeclaimttl/controller.go:52-72 | in every continuation after the taint, under any interference, a reset is decided only for a live pod on the node or a listed pod that tolerates the taint |
| `TtlRuns.InterruptedDecommissionResumes` | pkg/controllers/nodeclaimttl/controller.go:52-82 | after a failed delete the next reconcile deletes exactly when the node is still empty and unwanted, and resets otherwise |
| `TtlController.TaintNode` | pkg/controllers/nodeclaimttl/controller.go:260-272 | the key loop and the patch are the protocol's taint step |
| `TtlController.Reconcile` | pkg/controllers/nodeclaimttl/controller.go:35-83 | the code is a run of the timed machine; its outcome determines its own steps and their order, how long is left to wait, and that the claim is gone or its mark is the time of this reset |
| `Utf8.ValidateSingleLine` | pkg/providers/userdata/userdata.go:37-47 | accepts exactly valid UTF-8 without disallowed code points |
| `Utf8.SingleLineExactly` | pkg/providers/userdata/userdata.go:31-47 | which are exactly the encodings of sequences of allowed Unicode scalar values |
| `Utf8.SingleLineHasNoLineBreak` | pkg/providers/userdata/userdata.go:31-36 | nothing accepted contains a line feed, carriage return or NUL byte |
| `ShellQuoting.QuoteRoundTrip` | pkg/providers/userdata/userdata.go:49-54 | the shell reads any quoted text as one word equal to it |
| `ShellQuoting.QuoteAddsNoNewline` | pkg/providers/userdata/userdata.go:49-54 | quoting adds no line break |
| `ShellQuoting.PiecesRead` | pkg/providers/userdata/userdata.go:278-283 | the script's double-quoted words read as their texts with parameters replaced once, up to the closing quote |
| `ShellQuoting.LabelsReachKubelet` | pkg/providers/userdata/userdata.go:56-65 | the quoted assignment yields the labels; and with them set, and anything else set, the kubelet commands write a file whose flags carry the same bytes, or only the first flag when there are none |
| `ShellQuoting.BootSound` | pkg/providers/userdata/userdata.go:269-283 | the script's own names and texts meet what that needs |
| `ShellQuoting.KubeletText` | pkg/providers/userdata/userdata.go:278-283 | the six lines as they stand in the script, of the commands that are run |
| `NodeLabels.SerializeLabels` | pkg/providers/userdata/userdata.go:124-138 | the entries joined in increasing key order |
| `NodeLabels.LessExactly` | pkg/providers/userdata/userdata.go:132 | the order of keys is byte order |
| `NodeLabels.SerializedUnique` | pkg/providers/userdata/userdata.go:128-132 | there is one such text, so map order does not show |
| `NodeLabels.LabelsRoundTripExactly` | pkg/providers/userdata/userdata.go:124-138 | splitting recovers the labels exactly when no key contains ',' or '=' and no value ',' |
| `Layout.IndentLines` | pkg/providers/userdata/userdata.go:170-179 | every non-empty line is moved right, empty ones stay |
| `Layout.IndentExactly` | pkg/providers/userdata/userdata.go:170-179 | line by line: n spaces before a non-empty line, an empty one stays, none is added or lost |
| `Layout.IndentRoundTrip` | pkg/providers/userdata/userdata.go:170-179 | removing up to n leading spaces from each line gives every text back |
| `Layout.BlockScalarRoundTrip` | pkg/providers/userdata/userdata.go:170-179 | a YAML reader detects the indentation and returns the text up to clipping |
| `Userdata.ValidateTaints` | pkg/providers/userdata/userdata.go:81-91 | all three fields of every taint are held to the single-line contract |
| `Userdata.Fill` | pkg/providers/userdata/userdata.go:67-122 | succeeds exactly for accepted options whose taints render, and then yields the filled template |
| `Userdata.Generate` | pkg/providers/userdata/userdata.go:67-122 | the same with the repository's own templates |
| `Userdata.AcceptedExactly` | pkg/providers/userdata/userdata.go:67-101 | a document comes back exactly for a single-line endpoint, single-line and shell-safe labels, single-line taint fields, and taints that render |
| `Userdata.OnlyTaintsChangeTheLineCount` | pkg/providers/userdata/userdata.go:31-36 | endpoint, certificates and labels never change the document's number of lines |
| `Userdata.KubeletConfigSurvives` | pkg/providers/userdata/userdata.go:102-116 | the document's block scalar under that path reads back as the kubelet configuration, clipped |
| `Userdata.ScriptSurvives` | pkg/providers/userdata/userdata.go:253-287 | the block scalar under runcmd reads back as the boot script, exactly |
| `Userdata.SlotsSurvive` | pkg/providers/userdata/userdata.go:108-117 | each of CA, client certificate, client key and endpoint is on its own slot's line, below its path |
| `Userdata.MiddleIsPassive` | pkg/providers/userdata/userdata.go:269-277 | no line between the assignment and the kubelet lines assigns to the labels variable |
| `Userdata.LabelsSurvive` | pkg/providers/userdata/userdata.go:253-287 | that script assigns the labels and, after lines that leave them alone, runs the kubelet lines, whose file carries the labels in its flags |
| `Userdata.GeneratedBoots` | pkg/providers/userdata/userdata.go:67-122 | end to end, for every document Generate returns: certificates, key and endpoint stand below their paths, configuration and script read back, the flags list the labels, and that list splits into the label map exactly when the labels are separable |

## Left out

- Internals of the hashing library: a hash is a parameter whose set combination does not see order; leaf digests and struct digests are arbitrary functions.
- That distinct specs have distinct digests: not promised by a hash; drift is stated in terms of digests and normal forms.
- API caches: a read returns the server's current object at some moment of the call; informer lag is not modelled, apart from a pass working from the specs and claims it listed earlier.
- Concurrent writers of a node class's finalizers and status: the source writes them under a resource version, so a write here is applied to what was read, or fails.
- Provisioning.Provision: the claim that Create is called with refers to the class it names in the cluster; the result is stored by Karpenter, whose merge of the returned annotations is modelled as it is used here.
- NodeClassController.Reconcile: error values are reduced to the kind of result; logging and events are not modelled.
- TtlRuns.NeverDeletedEarly: assumes a clock that does not go back and that only this controller writes the reset annotation.
- TtlRuns.DeletionIsJustified: assumes that nobody else uses the decommissioning key and that a removed node does not return under its name; one claim and its node are modelled.
- Time zones and the full RFC 3339 grammar: an annotation is a whole second, unparsable, or missing.
- NodeLabels.SerializeLabels: sorting is an insertion sort; only its result matters.
- Userdata.Generate: base64 and the taint YAML encoder are parameters, the former assumed free of newlines; which validation error is returned is not stated beyond its subject.
- Userdata.LabelsSurvive: command syntax is given, the words in it are read as text; of the script's other commands only assignments are taken to change the labels variable; cloud-init, systemd, the kubelet's trimming of blanks and the network are not part of this model.
- Unquoted expansions, patterns and here-documents of the shell: reading one of them yields no value in the model.
- PodMatching.AffinityAgreesExactly: compares the instance type only; other keys and matchFields are taken to hold.
- CloudProvider.Create: reading the class, certificate generation and the CA lookup are parameters that may fail; the server name is given; error kinds are not told apart.
- InstanceTypes.Provider.Refresh: calls are sequential.
- ToUpper is modelled on ASCII letters, which decides whether a plan name contains SPOT.
- buildNodeClaim, Get and List of the cloud provider apart from the memory conversion: field-by-field copies.
- Environment options, Helm chart, CRDs, repair policies and controller registration: wiring.
