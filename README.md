# tarantool-operator: the reconciliation core in Dafny

This project models the orchestration core of tarantool-operator. The operator is a Kubernetes operator that runs Tarantool Cartridge clusters. It watches three custom resources:

- a **Cluster**, which owns a headless service and is bootstrapped through one elected leader pod;
- a **Role**, which is a set of replica sets, each backed by a StatefulSet whose pods join the cluster;
- a **CartridgeConfig**, a YAML document uploaded to the running cluster.

Every resource kind has a controller. Each controller reconciles one request by running a fixed list of steps against a mutable context. A step answers with Go's `(*Result, error)` pair, and the first step that returns a non-nil side stops the pass. The status of the requested object is then written back. The model keeps that pair as two `Option`s, so `Error(nil)` and `NextStep()` are the same value, as they are in the operator.

What the model covers:

- **Engine** (`engine.dfy`, `reconciliation.dfy`, `contexts.dfy`). The step loop and the status write, the outcome constructors, and the three context classes. The contexts' setters update their fields in place.
- **Leader election** (`election.dfy`). The safety rule, the candidate order (pod ordinal, then replica-set ordinal, then role), the status write with its conflict, and the swallowed lookup errors.
- **Topology driver and transcript codec** (`topology.dfy`, `tarantoolctl.dfy`, `base64.dfy`, `errors.dfy`).
  - Edit requests, and the mapping of remote errors to the sentinel errors.
  - The reserved-section filter and the instance-state predicates.
  - The `tarantoolctl` command and the decoding of its output.
  - Standard base64 as defined in section 4 of RFC 4648.
- **Replica-set identity and StatefulSet sync** (`uuid.dfy`, `replicasets.dfy`, `labels.dfy`, `strconv.dfy`).
  - Name-based version-5 UUIDs as defined in section 4.3 of RFC 4122, with SHA-1 left uninterpreted.
  - Advertise URIs and the label keys and selectors.
  - The field-by-field in-place StatefulSet sync and its `changed` flag.
- **Helpers** (`utils.dfy`). Hierarchy-aware role-set equality, map subset and merge, pod predicates, slice membership and pod naming.
- **Steps and pipelines** (`steps_common.dfy`, `steps_cluster.dfy`, `steps_role.dfy`, `steps_cartridge.dfy`, `controllers.dfy`). Every step of the three controllers, the three ordered pipelines, and the cluster controller's watch on roles.

How the model is built:

- **Oracles.** The Kubernetes API server and the Tarantool instances are oracles held by `Environment.Controller`. Their answers may depend on every call made so far, and the controller records each call in a log.
- **Steps.** Every step is a method proved equal to a specification function over the abstract context state and the call log. Properties of whole passes are lemmas over `Engine.RunStepsSpec` and `Engine.RunSpec`.
- **Panics.** A Go nil dereference, such as a nil leader, a nil related cluster or an election without a Topology, is modelled as a separate `Panic` outcome. No status is written after one.

The model reproduces the operator as written, including behaviour that looks unintended:

- `EnsureCartridgeReady` and `ConfigureCartridge` return `Error(nil)` when they are not ready or already configured. That value is `NextStep()`, so readiness never holds a pass (`RoleSteps.ReadinessNeverHoldsThePass`). The role step around `UpdateStatefulSets` would do the same when the update is incomplete, but `UpdateStatefulSets` never reports an incomplete update without an error (`Replicasets.UpdateNeverIncompleteWithoutError`).
- The cluster controller builds its leader election without a Topology, so it never stores a leader. Its pass therefore always stops before the phase is set to Ready (`Controllers.ClusterPassNeverReachesReady`).
- `WaitForRolesPhases` completes the pass when the roles are split between the two expected phases (`ClusterSteps.SplitRolesComplete`).
- `JoinInstances` treats an "already joined" answer as an ordinary error.
- The NotFound branch after `GetCluster` in `GetClusterByLabels` is unreachable, because every error has already been returned.
- `ConfigureCartridge` compares the whole configuration maps for equality, not for inclusion.

## Model

| member | source | states |
|---|---|---|
| Api.ClusterPhases | apis/v1alpha2/cluster_types.go:180-188 | the seven declared cluster phases are distinct and none is empty |
| Api.ClusterValue.GetLeader | apis/v1alpha2/cluster_types.go:240-246 | a non-empty foreign leader overrides the elected leader; otherwise the elected one is returned |
| Api.ClusterValue.SetLeader | apis/v1alpha2/cluster_types.go:236-238 | only the elected leader changes; with a foreign leader set, GetLeader is unchanged |
| Api.ClusterValue.MarkBootstrapped | apis/v1alpha2/cluster_types.go:248-250 | the cluster is bootstrapped afterwards; spec, phase and leader are unchanged |
| Api.ClusterValue.ResetStatus | apis/v1alpha2/cluster_types.go:256-262 | the phase is cleared while the bootstrapped flag and the elected leader are kept |
| Api.ClusterValue.SetPhase | apis/v1alpha2/cluster_types.go:264-266 | the phase is set; the bootstrapped flag, leader, meta and spec are kept |
| Api.BootstrappedIsSticky | apis/v1alpha2/cluster_types.go:236-266 | no status transform of a Cluster clears the bootstrapped flag |
| Api.ClusterTransformsIdempotent | apis/v1alpha2/cluster_types.go:248-266 | MarkBootstrapped, ResetStatus and SetPhase are idempotent |
| Api.Cluster.constructor | apis/v1alpha2/cluster_types.go:216-222 | a fresh Cluster object holds exactly the given contents |
| Api.Cluster.Load | apis/v1alpha2/cluster_types.go:216-222 | a Get into an existing object overwrites all of it |
| Api.Cluster.SetLeader | apis/v1alpha2/cluster_types.go:236-238 | the object changes in place as ClusterValue.SetLeader says |
| Api.Cluster.MarkBootstrapped | apis/v1alpha2/cluster_types.go:248-250 | the object changes in place as ClusterValue.MarkBootstrapped says |
| Api.Cluster.ResetStatus | apis/v1alpha2/cluster_types.go:256-262 | the object changes in place as ClusterValue.ResetStatus says |
| Api.Cluster.SetPhase | apis/v1alpha2/cluster_types.go:264-266 | the object changes in place as ClusterValue.SetPhase says |
| Api.RolePhases | apis/v1alpha2/role_types.go:107-119 | the ten declared role phases are distinct, none is empty, and ConfigError is one of them |
| Api.RoleValue.GetReplicasetName | apis/v1alpha2/role_types.go:154-156 | the name is the role name, "-", then the decimal ordinal; the error is always nil |
| Api.RoleValue.ResetStatus | apis/v1alpha2/role_types.go:170-172 | the status becomes empty; meta and spec are kept |
| Api.RoleValue.SetPhase | apis/v1alpha2/role_types.go:174-176 | the phase is set; meta and spec are kept |
| Api.ReplicasetNamesDistinct | apis/v1alpha2/role_types.go:154-156 | distinct ordinals give distinct replica-set names |
| Api.Role.constructor | apis/v1alpha2/role_types.go:142-148 | a fresh Role object holds exactly the given contents |
| Api.Role.Load | apis/v1alpha2/role_types.go:142-148 | a Get into an existing object overwrites all of it |
| Api.Role.ResetStatus | apis/v1alpha2/role_types.go:170-172 | the object changes in place as RoleValue.ResetStatus says |
| Api.Role.SetPhase | apis/v1alpha2/role_types.go:174-176 | the object changes in place as RoleValue.SetPhase says |
| Api.CartridgeConfigPhases | apis/v1beta1/cartridgeconfig_types.go:18-23 | the four declared config phases are distinct and none is empty |
| Api.ConfigValue.ResetStatus | apis/v1beta1/cartridgeconfig_types.go:47-49 | the status becomes empty; meta and spec are kept |
| Api.ConfigValue.SetPhase | apis/v1beta1/cartridgeconfig_types.go:51-53 | the phase is set; meta and spec are kept |
| Api.CartridgeConfig.constructor | apis/v1beta1/cartridgeconfig_types.go:39-45 | a fresh CartridgeConfig object holds exactly the given contents |
| Api.CartridgeConfig.Load | apis/v1beta1/cartridgeconfig_types.go:39-45 | a Get into an existing object overwrites all of it |
| Api.CartridgeConfig.ResetStatus | apis/v1beta1/cartridgeconfig_types.go:47-49 | the object changes in place as ConfigValue.ResetStatus says |
| Api.CartridgeConfig.SetPhase | apis/v1beta1/cartridgeconfig_types.go:51-53 | the object changes in place as ConfigValue.SetPhase says |
| Api.StatusTransformsIdempotent | apis/v1alpha2/role_types.go:170-176 | ResetStatus and SetPhase are idempotent on roles and configs |
| Text.ContainsAt | pkg/topology/errors.go:26-29 | an occurrence of the needle at any offset makes strings.Contains report true |
| Text.ContainsWitness | pkg/topology/errors.go:26-29 | strings.Contains is true exactly when some offset holds the needle |
| Text.ContainsInContext | pkg/topology/common.go:58-66 | a Lua error text still contains a phrase after text is added on either side, as in the "<class>: <err>" form |
| Text.NatToDecimal | apis/v1alpha2/role_types.go:154-156 | the %d text of a natural number is non-empty and made only of decimal digits, and is one character long exactly when the number is below 10 |
| Text.IntToDecimal | pkg/k8s/labels_manager.go:85 | the %d text of an integer is non-empty and made of decimal digits, except for a leading '-' that appears only for negative values |
| Text.NatToDecimalInjective | apis/v1alpha2/role_types.go:154-156 | distinct numbers print as distinct decimal texts |
| Text.IntToDecimalInjective | pkg/k8s/labels_manager.go:85 | distinct integers print as distinct decimal texts |
| Errors.WrapKeepsClassification | pkg/topology/common.go:215-219 | errors.Wrap keeps errors.Is, errors.As, IsNotFound and IsConflict of the cause, and prefixes the message with "<context>: " |
| Errors.SentinelMessagesDistinct | pkg/topology/errors.go:9-14 | the package-level sentinel errors have pairwise distinct texts |
| Errors.IsIdentifiesOneSentinel | pkg/election/election.go:45-52 | errors.Is recognises an error as at most one sentinel |
| K8s.Wrap32 | pkg/reconciliation/steps/role/ensure_cartridge_ready.go:37-38 | an int32 result equals the mathematical value when it fits, and is congruent to it modulo 2^32 otherwise |
| Labels.LabelsManager.Key | pkg/k8s/labels_manager.go:29-31 | a label key is the namespace, then '/', then the suffix |
| Labels.LabelsManager.ClusterNameFromLabels | pkg/k8s/labels_manager.go:33-42 | the cluster-name label of the object, or "" when that label is absent or the label map is nil |
| Labels.LabelsManager.SelectorByClusterName | pkg/k8s/labels_manager.go:68-72 | the selector has only the cluster-name key, set to the cluster's name |
| Labels.LabelsManager.SelectorByRoleName | pkg/k8s/labels_manager.go:74-79 | the selector has exactly the cluster-name and role-name keys: the role's cluster label and the role's name |
| Labels.LabelsManager.SelectorByReplicasetOrdinal | pkg/k8s/labels_manager.go:81-87 | the role selector plus the replicaset-ordinal key set to the ordinal's decimal text, and nothing else |
| Labels.LabelsManager.SelectorByReplicasetName | pkg/k8s/labels_manager.go:89-95 | the role selector plus the replicaset-name key set to the given name, and nothing else |
| Labels.KeyInjective | pkg/k8s/labels_manager.go:29-31 | two keys of one manager are equal only when their suffixes are |
| Labels.LabelKeysDistinct | pkg/k8s/labels_manager.go:44-66 | the six label keys are pairwise distinct for every namespace |
| Labels.OrdinalSelectorsDistinct | pkg/k8s/labels_manager.go:81-87 | selectors of one role for two different ordinals differ |
| Uuid.Utf8Char | internal/implementation/replicasets_manger.go:28 | one character converts to one to four bytes, and to its own code alone exactly when it is ASCII |
| Uuid.Utf8Ascii | internal/implementation/replicasets_manger.go:28 | an ASCII name converts to bytes equal to its character codes, one per character |
| Uuid.NewSHA1 | internal/implementation/replicasets_manger.go:26-29 | the result is the first sixteen SHA-1 bytes of namespace plus name, with version nibble 5 in byte 6 and variant bits 10 in byte 8 and every other byte kept |
| Uuid.HexValueOfDigit | internal/implementation/replicasets_manger.go:31 | reading a printed hex digit gives back its value |
| Uuid.Hex | internal/implementation/replicasets_manger.go:31 | each byte prints as two characters |
| Uuid.HexAt | internal/implementation/replicasets_manger.go:31 | byte k prints as its high nibble, then its low nibble |
| Uuid.ToString | internal/implementation/replicasets_manger.go:31 | the text form has 36 characters with dashes at positions 8, 13, 18 and 23 |
| Uuid.ToStringAt | internal/implementation/replicasets_manger.go:31 | byte i of the UUID appears as its two hex digits at its place in the text form |
| Uuid.Parse | controllers/role_controller.go:72 | a text accepted as a UUID has 36 characters with dashes at positions 8, 13, 18 and 23 |
| Uuid.ParseBytesOfDigits | controllers/role_controller.go:72 | a text whose digit pairs spell the bytes of a UUID parses back to those bytes |
| Uuid.ParseToString | controllers/role_controller.go:72 | parsing the printed form of a UUID gives the same UUID back |
| Uuid.ToStringInjective | internal/implementation/replicasets_manger.go:31 | distinct UUIDs print differently |
| Uuid.VersionAndVariantDigits | internal/implementation/replicasets_manger.go:25-32 | a name-based UUID prints '5' as its version digit and one of 8, 9, a, b as its variant digit |
| Replicasets.SpaceText | controllers/role_controller.go:71-72 | the fixed namespace UUID prints as "8601615b-c39f-4fd9-a88b-9df688656cbd" |
| Replicasets.SpaceParses | controllers/role_controller.go:71-72 | uuid.MustParse of the namespace text succeeds and yields the namespace UUID, so it never panics |
| Replicasets.ReplicasetUUIDParses | internal/implementation/replicasets_manger.go:25-32 | the replica-set UUID text parses back to the version 5 UUID of "<role>-<ordinal>" in the namespace, with version digit 5 and an RFC 4122 variant digit |
| Replicasets.ReplicasetUUIDsDiffer | internal/implementation/replicasets_manger.go:25-32 | two ordinals of one role get different UUID texts whenever their name-based UUIDs differ |
| Replicasets.AdvertiseURIIsStaticAddress | internal/implementation/replicasets_manger.go:34-43 | the advertise URI equals the static pod address of controllers/utils whenever the cluster sets its domain and port, since only that helper fills in defaults |
| Replicasets.LabelOf | internal/implementation/replicasets_manger.go:245 | a label is its value in the map, or "" when absent or the map is nil |
| Replicasets.StatefulSetLabelsContent | internal/implementation/replicasets_manger.go:184-195 | the StatefulSet labels hold the six required values, and every other key exactly as the role's labels hold it |
| Replicasets.StatefulSet.constructor | internal/implementation/replicasets_manger.go:117-137 | a fresh StatefulSet object holds exactly the given value |
| Replicasets.ReconciledHashLabel | internal/implementation/replicasets_manger.go:242-257 | after a sync the pod-template-hash label holds the current template hash |
| Replicasets.ReconciledChangedIff | internal/implementation/replicasets_manger.go:208-274 | the sync reports a change exactly when it rewrote some field |
| Replicasets.ReconciledIdempotent | internal/implementation/replicasets_manger.go:208-274 | syncing an already synced StatefulSet again changes nothing and reports no change |
| Replicasets.SyncChangedIff | internal/implementation/replicasets_manger.go:165-275 | a successful sync reports a change exactly when it took control or rewrote the object; a failed one changes nothing; a second sync after a successful one reports no change |
| Replicasets.SyncSettings | internal/implementation/replicasets_manger.go:208-240 | replicas only grow to the role's, the minimum ready time and update strategy become the role's, metadata is kept, and the change flag is set exactly when one of those differed |
| Replicasets.SyncTemplateAndLabels | internal/implementation/replicasets_manger.go:242-272 | the template is replaced exactly when the stored hash differs, labels, pod-template labels and annotations become the wanted ones, and the change flag is set exactly when one of those differed |
| Replicasets.SyncStatefulSet | internal/implementation/replicasets_manger.go:165-275 | the in-place sync leaves the object, the change flag, the error and the call log that SyncSpec gives |
| Replicasets.ReplicasetSelector | internal/implementation/replicasets_manger.go:110-115 | the selector has exactly the cluster-name, role-name, replicaset-name and replicaset-uuid keys |
| Replicasets.SelectorInPodLabels | internal/implementation/replicasets_manger.go:110-115 | every selector pair appears in the pod-template labels a sync writes, so the StatefulSet selects its own pods |
| Replicasets.NewStatefulSet | internal/implementation/replicasets_manger.go:117-137 | the declared StatefulSet has the replica-set name, the role's namespace and the replica-set selector |
| Replicasets.UpdateStatefulSetSpec | internal/implementation/replicasets_manger.go:147-163 | updateStatefulSet reports updated exactly when it returns no error |
| Replicasets.UpdateLoopComplete | internal/implementation/replicasets_manger.go:80-98 | the update loop started as complete reports incomplete only together with an error |
| Replicasets.UpdateNeverIncompleteWithoutError | internal/implementation/replicasets_manger.go:67-99 | UpdateStatefulSets reports an incomplete update exactly when it fails |
| Replicasets.WritesChain | internal/implementation/replicasets_manger.go:45-65 | writes that follow the role over two consecutive stretches of the log follow it over both |
| Replicasets.CreatesChain | internal/implementation/replicasets_manger.go:45-65 | creates of replica sets from a given ordinal on, over two consecutive stretches, combine |
| Replicasets.SyncFollowsRole | internal/implementation/replicasets_manger.go:165-275 | a sync adds at most one control-object call and, when it succeeds, leaves a StatefulSet that follows the role |
| Replicasets.DeclaredSelectsOwnPods | internal/implementation/replicasets_manger.go:101-139 | a declared StatefulSet, once synced, keeps its name and namespace and selects its own pods |
| Replicasets.SyncCallsAreQuiet | internal/implementation/replicasets_manger.go:203-206 | the calls a sync adds neither write nor create |
| Replicasets.CreateAfterSync | internal/implementation/replicasets_manger.go:139-144 | creating a synced StatefulSet of replica set `ordinal` writes only what follows the role and creates only that replica set |
| Replicasets.CreatedStatefulSet | internal/implementation/replicasets_manger.go:101-145 | createStatefulSet only extends the log, and what it writes follows the role and is the StatefulSet of replica set `ordinal` selecting its own pods |
| Replicasets.CreateStepWrites | internal/implementation/replicasets_manger.go:46-61 | one round of the create loop only extends the log, and what it writes and creates is as above |
| Replicasets.CreateLoopWrites | internal/implementation/replicasets_manger.go:46-64 | the create loop only extends the log, writes only what follows the role, and creates only StatefulSets of the role's replica sets |
| Replicasets.CreateStatefulSetsWrites | internal/implementation/replicasets_manger.go:45-65 | CreateStatefulSets writes only StatefulSets that follow the role and creates only those of its replica sets; it creates a replica set's StatefulSet exactly when that replica set's listing found none (an empty list or NotFound), right after the listing; any other listing error or a failed create is returned with no later call; on success every replica set was listed and found present or created |
| Replicasets.CreateStepDecides | internal/implementation/replicasets_manger.go:47-61 | one round of the create loop lists its replica set and creates it exactly when the listing found none; a failure ends the round with that error; a round without error leaves the replica set listed and present or created |
| Replicasets.CreateLoopDecides | internal/implementation/replicasets_manger.go:46-64 | the create loop from an ordinal on creates exactly the replica sets whose listing found none; the first other listing error or failed create ends it with no later call; without error every replica set from that ordinal on is present or created |
| Replicasets.UpdateWritesFollowRole | internal/implementation/replicasets_manger.go:147-163 | updateStatefulSet only extends the log, and whatever it writes follows the role |
| Replicasets.UpdateLoopWrites | internal/implementation/replicasets_manger.go:80-98 | the update loop only extends the log, and everything it writes follows the role |
| Replicasets.UpdateStatefulSetsWrites | internal/implementation/replicasets_manger.go:67-99 | whatever UpdateStatefulSets writes follows the role |
| Replicasets.UpdateOnlyWhenChanged | internal/implementation/replicasets_manger.go:147-163 | an update is sent exactly when the sync succeeded and reported a change (control taken or StatefulSet rewritten); the update is the last call, carries the synced StatefulSet, and its error is returned; a failed sync is returned unchanged |
| Replicasets.UpdateLoopStopsAtBadOrdinal | internal/implementation/replicasets_manger.go:80-87 | the update loop reaching an item whose ordinal label does not parse returns that parse error, after updating only the items before it |
| Replicasets.BadOrdinalStopsUpdates | internal/implementation/replicasets_manger.go:67-99 | UpdateStatefulSets fails on a listed StatefulSet whose ordinal label does not parse, having written nothing for it or any StatefulSet after it |
| Replicasets.UpdatesParseEveryOrdinal | internal/implementation/replicasets_manger.go:75-86 | UpdateStatefulSets succeeds only when the listing succeeded and every listed ordinal label parses |
| Replicasets.CreateStatefulSet | internal/implementation/replicasets_manger.go:101-145 | the method leaves the error and call log that CreateStatefulSetSpec gives |
| Replicasets.CreateStatefulSets | internal/implementation/replicasets_manger.go:45-65 | the loop leaves the error and call log that CreateStatefulSetsSpec gives; it creates exactly the replica sets whose listing found none, stops on the first other failure, and on success leaves every replica set present or created |
| Replicasets.UpdateStatefulSet | internal/implementation/replicasets_manger.go:147-163 | the method leaves the updated flag, error and call log that UpdateStatefulSetSpec gives, and sends an update exactly when the sync succeeded and reported a change |
| Replicasets.UpdateStatefulSets | internal/implementation/replicasets_manger.go:67-99 | the loop leaves the completion flag, error and call log that UpdateStatefulSetsSpec gives, and succeeds only when the listing succeeded and every ordinal label parsed |
| Utils.VShardRolesToMap | pkg/utils/vshard.go:9-21 | the map holds true at exactly the listed roles and their direct dependencies, and at no other key |
| Utils.ExpandedRolesStep | pkg/utils/vshard.go:12-18 | each round of the outer loop adds the role and its direct dependencies, and nothing else |
| Utils.VShardEqualsIgnoresOrder | pkg/utils/vshard.go:5-7 | the comparison depends only on which roles are listed, not on order or repetition |
| Utils.UnlistedRoleContributesItself | pkg/utils/vshard.go:15-17 | a role the hierarchy does not mention contributes only itself |
| Utils.ParentImpliesChildren | pkg/utils/vshard.go:5-21 | under C -> {C1, C2}, the list ["C", "C1", "C2"] compares equal to ["C"] |
| Utils.ChildrenDoNotImplyParent | pkg/utils/vshard.go:5-21 | under C -> {C1, C2}, the list ["C1", "C2"] does not compare equal to ["C"] |
| Utils.IsMapSubsetMeansEntryInclusion | pkg/utils/cmp.go:5-22 | the answer is true exactly when every entry of the subset is in the superset with an equal value; the length check never changes it |
| Utils.KeysSubsetCardinality | pkg/utils/cmp.go:6-8 | a subset of keys is no larger than the set holding it, which is why the length check never rejects a real subset |
| Utils.EmptyIsMapSubset | pkg/utils/cmp.go:5-22 | the empty map is a subset of every map |
| Utils.MergeMaps | pkg/utils/maps.go:3-17 | the inserting loops build exactly the left-to-right merge of the inputs |
| Utils.MergedKeys | pkg/utils/maps.go:3-17 | the merged key set is the union of the inputs' key sets |
| Utils.MergedLastWins | pkg/utils/maps.go:11-13 | where several inputs hold a key, the merged value comes from the last of them |
| Utils.GetPodConditionFromList | pkg/utils/pods.go:57-72 | (-1, nil) exactly when no condition has the type; otherwise the index and value of the first condition with that type |
| Utils.GetPodCondition | pkg/utils/pods.go:47-53 | a nil status gives (-1, nil) |
| Utils.IsPodReadyMeansFirstReadyConditionTrue | pkg/utils/pods.go:26-43 | a pod is ready exactly when its first Ready condition has status True |
| Utils.SliceContains | pkg/utils/slice.go:3-11 | the scan reports true exactly when the element occurs in the slice |
| Utils.PodNamesDistinct | pkg/utils/statefulsets.go:7-9 | pod names of one StatefulSet start with "<sts>-", and distinct ordinals give distinct names |
| ControllerUtils.IsRolesEqualsMeansSameSet | controllers/utils/utils.go:7-24 | two role lists compare equal exactly when they list the same set of roles, so the comparison is symmetric and ignores order and repeats |
| ControllerUtils.StaticPodAddrDefaults | controllers/utils/utils.go:26-36 | an empty domain means "cluster.local" and port 0 means 8081 |
| Base64.SextetChar | pkg/topology/transport/podexec/cli/tarantoolctl.go:83 | an alphabet character is never the pad sign or a newline |
| Base64.CharSextet | pkg/topology/transport/podexec/cli/tarantoolctl.go:83 | a character read as a 6-bit value is the character of that value |
| Base64.CharSextetInverse | pkg/topology/transport/podexec/cli/tarantoolctl.go:83 | reading the character of a 6-bit value gives the value back |
| Base64.Encode | pkg/topology/transport/podexec/cli/tarantoolctl.go:34 | the encoding has four characters per started group of three bytes and no newline |
| Base64.WithoutNewlines | pkg/topology/transport/podexec/cli/tarantoolctl.go:83 | the decoder's input after dropping '\r' and '\n' is no longer than before and holds neither |
| Base64.WithoutNewlinesIdentity | pkg/topology/transport/podexec/cli/tarantoolctl.go:83 | a text without newlines is left as it is |
| Base64.GroupRoundTrip | pkg/topology/transport/podexec/cli/tarantoolctl.go:34-83 | the four characters of a full group read back as the sextets that give its three bytes again |
| Base64.OneByteRoundTrip | pkg/topology/transport/podexec/cli/tarantoolctl.go:34-83 | a one-byte input encodes with "==" and decodes back |
| Base64.TwoBytesRoundTrip | pkg/topology/transport/podexec/cli/tarantoolctl.go:34-83 | a two-byte input encodes with "=" and decodes back |
| Base64.DecodeQuantaEncode | pkg/topology/transport/podexec/cli/tarantoolctl.go:34-83 | decoding the quanta of any encoding gives the bytes back |
| Base64.GroupDecodes | pkg/topology/transport/podexec/cli/tarantoolctl.go:34-83 | the characters of a full group decode to its three bytes and hold no pad sign |
| Base64.LastGroup | pkg/topology/transport/podexec/cli/tarantoolctl.go:34-83 | a full group at the end of the input decodes back |
| Base64.GroupStep | pkg/topology/transport/podexec/cli/tarantoolctl.go:34-83 | one full group in front of a correctly decoding encoding still decodes correctly |
| Base64.DecodeEncode | pkg/topology/transport/podexec/cli/tarantoolctl.go:34-83 | StdEncoding.DecodeString inverts the encoding the Lua side applies (RFC 4648, section 4) |
| Base64.DecodeRejectsPartialQuantum | pkg/topology/transport/podexec/cli/tarantoolctl.go:83-86 | an input that is not a whole number of four-character quanta is a CorruptInputError |
| Tarantoolctl.StripTabs | pkg/topology/transport/podexec/cli/tarantoolctl.go:49 | the result holds no tab and is no longer than the input |
| Tarantoolctl.StripTabsConcat | pkg/topology/transport/podexec/cli/tarantoolctl.go:49 | removing tabs distributes over concatenation |
| Tarantoolctl.StripTabsNoTabs | pkg/topology/transport/podexec/cli/tarantoolctl.go:49 | text without tabs is left as it is |
| Tarantoolctl.CreateCommand | pkg/topology/transport/podexec/cli/tarantoolctl.go:22-59 | the command is the fixed shell vector; it fails exactly when arguments are given and marshalling fails, with that error; the script holds no tab and contains the tab-stripped Lua body and json.decode of the quoted arguments, or of '{}' without arguments |
| Tarantoolctl.ScriptShape | pkg/topology/transport/podexec/cli/tarantoolctl.go:25-49 | the tab-stripped script contains the tab-stripped Lua body and json.decode( ) around the whole argument literal |
| Tarantoolctl.WrapperShape | pkg/topology/transport/podexec/cli/tarantoolctl.go:25-49 | the same holds for any text around the two holes of the template |
| Tarantoolctl.DecodeCallShape | pkg/topology/transport/podexec/cli/tarantoolctl.go:28 | stripping tabs leaves the json.decode( ) wrapper intact around the stripped literal |
| Tarantoolctl.BodyShape | pkg/topology/transport/podexec/cli/tarantoolctl.go:29-35 | the stripped text after the argument hole contains the stripped Lua body |
| Tarantoolctl.StripTabsThree | pkg/topology/transport/podexec/cli/tarantoolctl.go:49 | removing tabs distributes over three concatenated parts |
| Tarantoolctl.SpaceRunEnd | pkg/topology/transport/podexec/cli/tarantoolctl.go:63-65 | the run of RE2 \s characters from a position ends at the first non-space character or the end of the text |
| Tarantoolctl.MatchAt | pkg/topology/transport/podexec/cli/tarantoolctl.go:63-65 | a match stays inside the text and starts with '-' for the leading pattern and with a newline for the other two |
| Tarantoolctl.ReplaceCopiesOne | pkg/topology/transport/podexec/cli/tarantoolctl.go:68-70 | where the pattern does not match, ReplaceAllString copies the character and moves on by one |
| Tarantoolctl.ReplaceCopies | pkg/topology/transport/podexec/cli/tarantoolctl.go:68-70 | a stretch of text where the pattern never matches is copied unchanged |
| Tarantoolctl.Unmarshal | pkg/topology/transport/podexec/cli/tarantoolctl.go:61-105 | a YAML error is returned as is, a nil record gives "can't parse tarantool output", a bad base64 field gives a decoding error, and success needs a record whose ok flag is true |
| Tarantoolctl.StripLeadingOfTranscript | pkg/topology/transport/podexec/cli/tarantoolctl.go:63-68 | on a console transcript the leading "---\n- " is removed and nothing else is touched |
| Tarantoolctl.StripTrailingOfTranscript | pkg/topology/transport/podexec/cli/tarantoolctl.go:64-69 | the trailing "\n...\n" is removed and nothing else is touched |
| Tarantoolctl.StripIndentOfTranscript | pkg/topology/transport/podexec/cli/tarantoolctl.go:65-70 | the indentation before "res:" is removed and nothing else is touched |
| Tarantoolctl.PreprocessTranscript | pkg/topology/transport/podexec/cli/tarantoolctl.go:63-70 | the three replacements turn the console transcript into a flat two-key mapping |
| Tarantoolctl.UnmarshalSuccessfulCall | pkg/topology/transport/podexec/cli/tarantoolctl.go:61-105 | for a successful call, Unmarshal decodes into the target exactly the bytes the script encoded |
| Tarantoolctl.UnmarshalFailedCall | pkg/topology/transport/podexec/cli/tarantoolctl.go:88-97 | for a failed call, Unmarshal returns the JSON-decoded message as a plain error |
| Topology.JoinServersOfEntries | pkg/topology/common.go:35-39 | there is one join-server entry per advertise URI, in order, carrying that URI and no UUID |
| Topology.BuildJoinServers | pkg/topology/common.go:35-39 | the filling loop builds exactly the join-server list of the URIs |
| Topology.JoinRequest | pkg/topology/common.go:41-53 | the edit carries one replica set with the given UUID, alias, roles, weight, vshard group, all-rw flag and join servers, no failover priority and no servers |
| Topology.AdminEditTopology | pkg/topology/common.go:248-269 | a transport error is wrapped with "unable to edit topology" and the flag is false; otherwise the flag is the Lua answer's, and the error is set exactly when the Lua side reported one, which errors.As still finds |
| Topology.JoinError | pkg/topology/common.go:55-75 | without an edit error, Join succeeds exactly when the flag is true and otherwise fails with ErrTopologyIsDown; an edit error always makes Join fail |
| Topology.JoinErrorClassification | pkg/topology/common.go:56-68 | a Lua error mentioning "is already joined" becomes ErrAlreadyJoined; otherwise one mentioning "can not enable unknown role" becomes an UnknownRoleError with the same text; any other passes through |
| Topology.JoinPassesOtherErrors | pkg/topology/common.go:56-68 | an error that holds no Lua error passes through Join untouched |
| Topology.JoinAlreadyJoinedIff | pkg/topology/common.go:55-61 | Join fails with ErrAlreadyJoined exactly when the Lua answer carries an error whose text says the server is already joined |
| Topology.SetWeightError | pkg/topology/common.go:129-146 | SetWeight succeeds exactly when the call and the Lua side report no error; a transport error is returned as is; a Lua error becomes ErrNotInConfig, ErrLastStorageWeight or itself, by its text, in that order |
| Topology.SetWeightIgnoresFlag | pkg/topology/common.go:129-146 | the flag of the weight call never changes the outcome |
| Topology.SetReplicasetRolesRequest | pkg/topology/common.go:151-158 | the edit carries one replica set holding only the UUID and the roles |
| Topology.SetReplicasetRolesError | pkg/topology/common.go:160-169 | success exactly when the edit has no error and a true flag; the edit error as is; ErrTopologyIsDown on a false flag |
| Topology.GetReplicasetRolesAnswer | pkg/topology/common.go:187-199 | an error is wrapped with "failed to retrieve cartridge replicasets params"; a nil list becomes an empty one; otherwise the list is returned |
| Topology.GetRolesHierarchyAnswer | pkg/topology/common.go:240-245 | the hierarchy is returned as received, or the error with the "unable to retrieve roles hierarchy: " prefix |
| Topology.BootstrapVshardError | pkg/topology/common.go:213-222 | a transport error is wrapped with "unable to bootstrap cluster"; a Lua error is ignored exactly when it is the "already bootstrapped" one, and wrapped otherwise |
| Topology.AlreadyBootstrappedNeedsClass | pkg/topology/errors.go:26-29 | the "already bootstrapped" text under any class other than "Bootstrapping vshard failed" is a real failure |
| Topology.SetFailoverParamsError | pkg/topology/common.go:283-292 | success exactly when the call and the Lua side report no error; otherwise the transport error or the Lua error, unwrapped |
| Topology.GetFailoverParamsAnswer | pkg/topology/common.go:305-310 | the parameters as received, or the error wrapped with "failed to retrieve cartridge failover params" |
| Topology.SafeConfig | pkg/topology/common.go:318-338 | the filtered configuration holds every section but the eleven reserved ones, with unchanged values |
| Topology.SafeConfigIdempotent | pkg/topology/common.go:318-338 | filtering a filtered configuration changes nothing |
| Topology.SafeConfigIgnoresReserved | pkg/topology/common.go:318-338 | adding or changing a reserved section makes no difference to what is read |
| Topology.GetCartridgeConfigAnswer | pkg/topology/common.go:346-356 | a JSON type error reads as an empty configuration; any other error is wrapped with "failed to download cartridge config"; a success is returned as is |
| Topology.UploadedConfig | pkg/topology/common.go:363-385 | the clusterwide patch receives exactly the non-reserved sections of the desired configuration, and nothing for a nil one |
| Topology.ApplyCartridgeConfigError | pkg/topology/common.go:390-399 | success exactly when the patch answers true; a transport error is wrapped and a false answer is an error of its own |
| Topology.UploadDownloadedConfig | pkg/topology/common.go:313-385 | uploading what was downloaded sends the same sections again |
| Topology.StateResult | pkg/topology/common.go:404-444 | both state scripts answer without error, with the started or the configured predicate of the state |
| Topology.ConfiguredButNotStarted | pkg/topology/common.go:404-444 | the two probes disagree exactly on OperationError, which counts as configured but not started; RolesConfigured is both |
| Topology.InstanceStateAnswer | pkg/topology/common.go:419-430 | a transport error is wrapped with "unable to retrieve instance state" and the flag is false; otherwise the flag is the Lua answer's, and the error is set exactly when the Lua side reported one |
| Topology.ProbeReportsState | pkg/topology/common.go:402-458 | a probe that reaches the instance reports the state predicate with no error |
| Strconv.DigitValue | internal/implementation/replicasets_manger.go:83 | a digit's value is below 10 |
| Strconv.ScanUint32 | internal/implementation/replicasets_manger.go:83 | a scanned value never exceeds 2^32 - 1 |
| Strconv.ParseInt32 | internal/implementation/replicasets_manger.go:83 | a parse succeeds only on a non-empty text, and fails only with a syntax or range NumError naming the text |
| Strconv.DecimalValueOfNat | internal/implementation/replicasets_manger.go:83 | the decimal text of a number spells that number |
| Strconv.DecimalValuePrefix | internal/implementation/replicasets_manger.go:83 | a prefix of a digit string spells no more than the whole |
| Strconv.ScanDigits | internal/implementation/replicasets_manger.go:83 | scanning digits whose value stays within bounds yields that value |
| Strconv.ParseFormatted | internal/implementation/replicasets_manger.go:83 | parsing the ordinal label that %d wrote gives the int32 ordinal back |
| Environment.ProbeAnswer | pkg/topology/common.go:402-458 | a probe that reaches the instance answers the state predicate without error; a failed one answers false with an error |
| Environment.Controller.constructor | pkg/reconciliation/common_controller.go:12-21 | a fresh controller has the given world and election setting and an empty call log |
| Environment.Controller.GetCluster | internal/implementation/resources_manager.go:19-32 | the call is logged and answered by the world |
| Environment.Controller.GetRole | pkg/reconciliation/steps/common/get_requested_object.go:26-39 | the call is logged and answered by the world |
| Environment.Controller.GetConfig | pkg/reconciliation/steps/common/get_requested_object.go:26-39 | the call is logged and answered by the world |
| Environment.Controller.GetPod | pkg/k8s/resources_manager.go:71-80 | the call is logged and answered by the world |
| Environment.Controller.GetService | pkg/k8s/resources_manager.go:82-91 | the call is logged and answered by the world |
| Environment.Controller.GetSecret | pkg/k8s/resources_manager.go:135-144 | the call is logged and answered by the world |
| Environment.Controller.ListRoles | internal/implementation/resources_manager.go:34-51 | the call is logged and answered by the world |
| Environment.Controller.ListPods | pkg/k8s/resources_manager.go:104-113 | the call is logged and answered by the world |
| Environment.Controller.ListStatefulSets | pkg/k8s/resources_manager.go:93-102 | the call is logged and answered by the world |
| Environment.Controller.Write | pkg/k8s/resources_manager.go:40-56 | the write is logged and its error is the world's answer |
| Environment.Controller.ControlObject | pkg/k8s/resources_manager.go:58-69 | the call is logged and answers whether the controller reference was taken |
| Environment.Controller.EditTopology | pkg/topology/common.go:248-259 | the edit is logged with the leader and answered by the world |
| Environment.Controller.SetWeight | pkg/topology/common.go:99-129 | the call is logged with the leader, UUID and weight and answered by the world |
| Environment.Controller.GetReplicasetRoles | pkg/topology/common.go:173-190 | the call is logged and answered by the world |
| Environment.Controller.GetRolesHierarchy | pkg/topology/common.go:225-240 | the call is logged and answered by the world |
| Environment.Controller.BootstrapVshard | pkg/topology/common.go:203-213 | the call is logged and answered by the world |
| Environment.Controller.GetFailoverParams | pkg/topology/common.go:296-305 | the call is logged and answered by the world |
| Environment.Controller.SetFailoverParams | pkg/topology/common.go:272-283 | the call is logged with the parameters and answered by the world |
| Environment.Controller.GetCartridgeConfig | pkg/topology/common.go:313-346 | the call is logged and answered by the world |
| Environment.Controller.ApplyCartridgeConfig | pkg/topology/common.go:359-390 | the patch logged and sent holds exactly the non-reserved sections of the desired configuration |
| Environment.Controller.InstanceState | pkg/topology/common.go:402-458 | the probe is logged and its answer is ProbeAnswer of the instance's state |
| Environment.Controller.GetInstanceUUID | pkg/topology/common.go:78-96 | the call is logged and answered by the world |
| Reconciliation.Requeue | pkg/reconciliation/aliases.go:17-19 | the step stops the pass with no error and a result asking for a retry after the given delay |
| Reconciliation.ErrorOf | pkg/reconciliation/aliases.go:21-23 | the result is nil and the error is passed through; the pass stops exactly when the error is not nil |
| Reconciliation.Break | pkg/reconciliation/aliases.go:25-27 | the step stops the pass with an empty result and the given error |
| Reconciliation.NextStep | pkg/reconciliation/aliases.go:29-31 | the pass goes on to the next step |
| Reconciliation.Complete | pkg/reconciliation/aliases.go:33-35 | the step stops the pass with an empty result and no error |
| Reconciliation.ErrorOfNilIsNextStep | pkg/reconciliation/aliases.go:21-31 | Error(nil) is NextStep, and Error of a real error always stops the pass |
| Reconciliation.BreakOfNilIsComplete | pkg/reconciliation/aliases.go:25-35 | Break(nil) is Complete, and Break of a real error carries the same empty result |
| Reconciliation.CommonContext.constructor | pkg/reconciliation/common_context.go:12-20 | a fresh context holds the request, no related cluster and no leader |
| Reconciliation.CommonContext.GetRequest | pkg/reconciliation/common_context.go:22-24 | the request is the one the context was built with |
| Reconciliation.CommonContext.SetRelatedCluster | pkg/reconciliation/common_context.go:30-32 | the related cluster is replaced and the leader kept |
| Reconciliation.CommonContext.SetLeader | pkg/reconciliation/common_context.go:38-40 | the leader is replaced and the related cluster kept |
| Contexts.ClusterContext.constructor | internal/context/cluster.go:10-14 | a fresh cluster context shares the given common context and holds no cluster |
| Contexts.ClusterContext.SetCluster | internal/context/cluster.go:16-19 | the cluster becomes both the requested object and the related cluster; the leader is kept |
| Contexts.ClusterContext.SetRequestedObject | internal/context/cluster.go:29-38 | a Cluster is stored as with SetCluster and no error; any other object gives "ClusterContext used with wrong k8s object" and changes nothing |
| Contexts.RoleContext.constructor | internal/context/role.go:10-14 | a fresh role context shares the given common context and holds no role |
| Contexts.RoleContext.SetRole | internal/context/role.go:16-18 | the role is replaced |
| Contexts.RoleContext.SetRequestedObject | internal/context/role.go:28-37 | a Role is stored with no error; any other object gives "RoleContext used with wrong k8s object" and changes nothing |
| Contexts.CartridgeConfigContext.constructor | internal/context/cartridge_config.go:10-14 | a fresh config context shares the given common context and holds no config |
| Contexts.CartridgeConfigContext.SetCartridgeConfig | internal/context/cartridge_config.go:16-18 | the config is replaced |
| Contexts.CartridgeConfigContext.SetRequestedObject | internal/context/cartridge_config.go:28-37 | a CartridgeConfig is stored with no error; any other object gives "CartridgeConfigContext used with wrong k8s object" and changes nothing |
| Contexts.State.UpdateRelated | internal/context/cluster.go:16-19 | updating the related cluster in place changes only the related cluster, and also the requested object when the two are one pointer |
| Contexts.State.UpdateObject | internal/context/cluster.go:16-19 | updating the requested object in place keeps kind, request and leader, and keeps a separate related cluster |
| Contexts.Context.Abs | internal/context/cluster.go:25-27 | the abstract state of any context is well formed, of the context's kind, and has no object exactly when HasRequestedObject is false |
| Contexts.RelatedUpdatedInPlace | pkg/reconciliation/common_context.go:30-36 | a change of the related cluster object alone is the UpdateRelated of the abstract state |
| Contexts.NewContext | controllers/cluster_controller.go:112-119 | a pass starts from a fresh context holding only the request: no object, no related cluster, no leader |
| Contexts.TargetValue | pkg/reconciliation/steps/common/get_requested_object.go:26-39 | a fetched target is always some requested object |
| Contexts.Stored | internal/context/cluster.go:29-38 | an object of the context's kind is stored, a cluster also becoming the related cluster; any other object gives the context's error and changes nothing |
| Contexts.SetRequested | pkg/reconciliation/steps/common/get_requested_object.go:34-38 | the context's SetRequestedObject leaves the error and abstract state that Stored gives |
| Election.CanBeLeaderSpec | pkg/election/election.go:189-213 | a deleting or not running pod cannot lead, with no call; a live pod needs a Topology; an error always means no; a yes was decided by the started probe before bootstrap and the configured probe after |
| Election.CanBeLeader | pkg/election/election.go:189-213 | the method leaves the verdict and call log that CanBeLeaderSpec gives |
| Election.MaxReplicasets | pkg/election/election.go:127-135 | the result bounds every role's replica-set count from 0 up and is 0 or reached by some role |
| Election.MaxReplicas | pkg/election/election.go:127-135 | the result bounds every role's replica count from 0 up and is 0 or reached by some role |
| Election.MaxStep | pkg/election/election.go:127-135 | one more role raises each maximum to that role's count when it is larger |
| Election.MaxCounts | pkg/election/election.go:118-135 | the loop computes both maxima |
| Election.InnerFrom | pkg/election/election.go:146-153 | the innermost loop visits only candidates whose role has that replica set and pod |
| Election.MidFrom | pkg/election/election.go:145-153 | the middle loop visits only eligible candidates |
| Election.OuterFrom | pkg/election/election.go:144-153 | the outer loop visits only eligible candidates |
| Election.LoadLeaderSpec | pkg/election/election.go:83-103 | loadLeaderInstance returns a leader exactly when it returns no error |
| Election.RecordLeaderSpec | pkg/election/election.go:67-69 | the cluster gets the pod as leader and the status update of that cluster is logged |
| Election.TryCandidate | pkg/election/election.go:146-181 | the method leaves the search state and call log that TryCandidateSpec gives |
| Election.FindNewLeaderInstance | pkg/election/election.go:114-187 | the triple loop leaves the search state and call log that FindNewLeaderSpec gives |
| Election.LoadLeaderInstance | pkg/election/election.go:83-103 | the method leaves the answer and call log that LoadLeaderSpec gives |
| Election.ElectLeaderInstance | pkg/election/election.go:61-81 | the method leaves the answer, cluster and call log that ElectSpec gives |
| Election.GetLeaderInstance | pkg/election/election.go:42-59 | the method leaves the answer, cluster and call log that GetLeaderInstanceSpec gives |
| Election.InnerFromMembers | pkg/election/election.go:146-153 | the innermost loop visits exactly the eligible candidates of that pod and replica set, from the role index on |
| Election.MidFromMembers | pkg/election/election.go:145-153 | the middle loop visits exactly the eligible candidates of that pod, from the replica-set ordinal on |
| Election.OuterFromMembers | pkg/election/election.go:144-153 | the outer loop visits exactly the eligible candidates from the pod ordinal on |
| Election.CandidatesAreEligible | pkg/election/election.go:144-153 | exactly the (role, replica set, pod) triples within that role's own counts are tried |
| Election.OrderedAppend | pkg/election/election.go:110-113 | two ordered runs, the first wholly before the second, form an ordered run |
| Election.InnerFromOrdered | pkg/election/election.go:146 | the innermost loop goes by role position |
| Election.MidFromOrdered | pkg/election/election.go:145-146 | the middle loop goes by replica-set ordinal, then role position |
| Election.OuterFromOrdered | pkg/election/election.go:144-146 | the outer loop goes by pod ordinal, then replica-set ordinal, then role position |
| Election.CandidatesInScanOrder | pkg/election/election.go:110-113 | candidates are tried by pod ordinal, then replica-set ordinal, then role position |
| Election.FirstCandidate | pkg/election/election.go:32 | the first pod of the first replica set of the first role is tried first |
| Election.ScanAppend | pkg/election/election.go:144-186 | scanning two runs is scanning the first and, while still searching, the second |
| Election.EligibleAppend | pkg/election/election.go:144-153 | two runs of eligible candidates form one |
| Election.ScanCons | pkg/election/election.go:146-181 | scanning a run is trying its first candidate and, while still searching, the rest |
| Election.SearchInnerIsScan | pkg/election/election.go:146-181 | the innermost loop with the loops around it is the reference scan of the remaining candidates |
| Election.SearchMidIsScan | pkg/election/election.go:145-183 | the middle loop with the outer one is the reference scan of the remaining candidates |
| Election.SearchOuterIsScan | pkg/election/election.go:144-184 | the outer loop is the reference scan of the remaining candidates |
| Election.FindNewLeaderScansCandidates | pkg/election/election.go:114-187 | findNewLeaderInstance tries the candidates in scan order and stops at the first decision; no decision is ErrNoAvailableLeader |
| Election.ScanCallsNoWrites | pkg/election/election.go:144-186 | the calls a scan makes are no writes |
| Election.ScanCallsAppend | pkg/election/election.go:144-186 | scan calls over two stretches are scan calls over both |
| Election.TryCandidateFacts | pkg/election/election.go:146-181 | one candidate only looks up a pod other than the current leader and probes it; a chosen pod is running, not being deleted, and was probed |
| Election.ScanExtendsTrans | pkg/election/election.go:144-186 | scan-call extensions of the log compose |
| Election.ScanFacts | pkg/election/election.go:144-186 | the whole scan makes no write, never looks up the current leader, and only chooses a pod that can lead |
| Election.ScanWithoutTopologyNeverFinds | pkg/election/election.go:189-212 | without a Topology no candidate is ever chosen |
| Election.KeepsUsableLeader | pkg/election/election.go:42-59 | a recorded leader that can lead is returned as it is, with no election and no write |
| Election.ElectsWhenNoneRecorded | pkg/election/election.go:43-47 | with no recorded leader, a new one is elected |
| Election.BootstrappedReElects | pkg/election/election.go:49-52 | a bootstrapped cluster whose recorded leader cannot lead elects another one |
| Election.NotBootstrappedKeepsLeader | pkg/election/election.go:36-55 | before bootstrap the recorded leader is never replaced and nothing is written, whatever the environment answers |
| Election.NotReadyBeforeBootstrap | pkg/election/election.go:49-55 | before bootstrap a recorded leader that cannot lead is reported as ErrLeaderNotReady |
| Election.SwallowsLookupError | pkg/election/election.go:43-58 | a failed lookup of the recorded leader's pod is dropped: no leader and no error |
| Election.ElectionRecordsLeader | pkg/election/election.go:61-81 | an elected pod is written into the status even when the write fails; a conflict becomes ErrLeaderElectionConflict and any other error is passed on |
| Election.ElectedIsLeader | pkg/election/election.go:215-217 | after a successful election of a pod of the cluster's namespace, IsLeader holds for that pod |
| Election.FindNewLeaderFacts | pkg/election/election.go:114-187 | the search lists the roles, makes no write, and only chooses a running pod that is not being deleted |
| Election.NoWritesAppend | pkg/election/election.go:42-81 | stretches of the log without writes compose |
| Election.LeaderIsRunning | pkg/election/election.go:42-59 | whatever pod GetLeaderInstance returns is running and not being deleted |
| Election.NoTopologyNoLeader | pkg/election/election.go:189-212 | without a Topology, GetLeaderInstance never returns a pod |
| Election.ElectionKeepsCluster | pkg/election/election.go:42-81 | the election changes at most the recorded leader: phase, bootstrapped flag, metadata and spec are kept |
| CommonSteps.Info | pkg/reconciliation/steps/common/info.go:21-25 | the step always lets the pass go on |
| CommonSteps.Fetch | pkg/reconciliation/steps/common/get_requested_object.go:25 | a successful Get yields an object of the kind asked for |
| CommonSteps.FetchFailure | pkg/reconciliation/steps/common/get_requested_object.go:26-32 | a failed Get stops the pass: NotFound completes it quietly, anything else is an error wrapped with "unable to retrieve object for reconcile" |
| CommonSteps.GetRequestedObjectSpec | pkg/reconciliation/steps/common/get_requested_object.go:24-40 | one Get is made; a failed Get stops the pass and changes nothing; the pass goes on exactly when the Get succeeds and the object has the context's kind, and then the context holds that object |
| CommonSteps.FetchTarget | pkg/reconciliation/steps/common/get_requested_object.go:25 | the Get is logged, fails exactly when the world's answer does, with its error, and otherwise fills a fresh object with the answer |
| CommonSteps.GetRequestedObject | pkg/reconciliation/steps/common/get_requested_object.go:24-40 | the step leaves the answer, context state and call log that GetRequestedObjectSpec gives |
| CommonSteps.ClusterNameLabel | pkg/reconciliation/steps/common/get_cluster_by_labels.go:27-36 | the label is usable exactly when the labels are set and hold a non-empty cluster-name value |
| CommonSteps.GetClusterByLabelsSpec | pkg/reconciliation/steps/common/get_cluster_by_labels.go:21-54 | a context with a related cluster goes on untouched; going on otherwise means a related cluster was stored; a missing or empty label breaks with "label is required" and no call; the requested object and leader are kept |
| CommonSteps.RequestedMeta | pkg/reconciliation/steps/common/get_cluster_by_labels.go:26-27 | the metadata read is that of the requested object the context holds |
| CommonSteps.GetClusterByLabels | pkg/reconciliation/steps/common/get_cluster_by_labels.go:21-54 | the step leaves the answer, context state and call log that GetClusterByLabelsSpec gives |
| CommonSteps.GetLeaderSpec | pkg/reconciliation/steps/common/get_leader.go:23-40 | without a related cluster the step panics; otherwise it runs the election, keeps the cluster it leaves, goes on exactly when the election returns no error, and then stores the leader it returned |
| CommonSteps.GetLeader | pkg/reconciliation/steps/common/get_leader.go:23-40 | the step leaves the answer, context state and call log that GetLeaderSpec gives |
| CommonSteps.WaitForClusterBootstrappedSpec | pkg/reconciliation/steps/common/wait_for_cluster_bootstrapped.go:19-26 | the pass goes on exactly when the related cluster exists and is bootstrapped, and is retried after 10 otherwise; nothing changes |
| CommonSteps.WaitForClusterBootstrapped | pkg/reconciliation/steps/common/wait_for_cluster_bootstrapped.go:19-26 | the step answers as WaitForClusterBootstrappedSpec and changes nothing |
| CommonSteps.GetLeaderRequeuesOnConflict | pkg/reconciliation/steps/common/get_leader.go:26-28 | an election conflict is retried after 10, whatever the cluster |
| CommonSteps.GetLeaderNoLeader | pkg/reconciliation/steps/common/get_leader.go:30-34 | no available leader is retried only before bootstrap; once bootstrapped it is an error |
| CommonSteps.GetLeaderStoresRunningPod | pkg/reconciliation/steps/common/get_leader.go:24-39 | a leader the step stores is a running pod that is not being deleted |
| CommonSteps.GetLeaderWithoutTopology | pkg/reconciliation/steps/common/get_leader.go:24-39 | without a Topology in the election, the step never stores a leader |
| ClusterSteps.SetClusterPhaseSpec | pkg/reconciliation/steps/cluster/set_phase.go:16-20 | the cluster's phase becomes the step's phase; bootstrapped flag, metadata, spec, related cluster and leader are kept; no call is made; it panics without a cluster |
| ClusterSteps.SetClusterPhase | pkg/reconciliation/steps/cluster/set_phase.go:16-20 | the step leaves the answer and state SetClusterPhaseSpec gives |
| ClusterSteps.ResetClusterStatusSpec | pkg/reconciliation/steps/cluster/reset_status.go:14-18 | the phase is cleared while the bootstrapped flag and the elected leader stay; nothing else changes |
| ClusterSteps.ResetClusterStatus | pkg/reconciliation/steps/cluster/reset_status.go:14-18 | the step leaves the answer and state ResetClusterStatusSpec gives |
| ClusterSteps.CheckClusterDeletionSpec | pkg/reconciliation/steps/cluster/check_deletion.go:14-20 | the pass completes exactly when the cluster carries a deletion timestamp and goes on exactly when it does not; nothing changes |
| ClusterSteps.CheckClusterDeletion | pkg/reconciliation/steps/cluster/check_deletion.go:14-20 | the step answers as CheckClusterDeletionSpec |
| ClusterSteps.DesiredServiceSpec | pkg/reconciliation/steps/cluster/sync_cluster_wide_service.go:47-77 | the managed fields: selector by cluster name, not-ready addresses published, headless, two distinct ports both on the listen port |
| ClusterSteps.NewService | pkg/reconciliation/steps/cluster/sync_cluster_wide_service.go:33-38 | a service built from scratch has the cluster's name and namespace and does not yet carry the managed fields |
| ClusterSteps.SyncServiceFields | pkg/reconciliation/steps/cluster/sync_cluster_wide_service.go:42-78 | after the field checks the service carries the managed fields, and it is marked changed exactly when the reference was taken or some managed field differed |
| ClusterSteps.SaveCall | pkg/reconciliation/steps/cluster/sync_cluster_wide_service.go:24-88 | the save is a create exactly for a service that was not found, and an update otherwise |
| ClusterSteps.SyncClusterWideServiceSpec | pkg/reconciliation/steps/cluster/sync_cluster_wide_service.go:20-91 | the state is kept; the first call is the Get of the cluster's service; the step goes on or returns an error, and panics only without a cluster |
| ClusterSteps.SyncClusterWideService | pkg/reconciliation/steps/cluster/sync_cluster_wide_service.go:20-91 | the step leaves the answer, state and call log SyncClusterWideServiceSpec gives |
| ClusterSteps.SyncServiceWritesOnlyTheService | pkg/reconciliation/steps/cluster/sync_cluster_wide_service.go:80-88 | the only write is the last call, a create or update of a service carrying the managed fields |
| ClusterSteps.MissingServiceIsCreated | pkg/reconciliation/steps/cluster/sync_cluster_wide_service.go:27-88 | a NotFound service is created, named after the cluster and carrying the managed fields |
| ClusterSteps.SyncedServiceIsNotWritten | pkg/reconciliation/steps/cluster/sync_cluster_wide_service.go:42-88 | a service already in line whose reference was already held is not written |
| ClusterSteps.AllRolesAtPhase | internal/controller/cluster.go:17-36 | true exactly when the listing holds at least one role and every role is at the phase |
| ClusterSteps.WaitFrom | pkg/reconciliation/steps/cluster/wait_for_roles_phase.go:22-33 | one roles listing per phase tried, only listings, at most one per phase; going on means the last listing found every role at its phase |
| ClusterSteps.WaitFromLastListing | pkg/reconciliation/steps/cluster/wait_for_roles_phase.go:22-33 | the wait goes on exactly when its last listing found every role at that listing's phase, and returns an error exactly when the last listing failed, and then that listing's error |
| ClusterSteps.WaitFromMissed | pkg/reconciliation/steps/cluster/wait_for_roles_phase.go:22-33 | every listing before the last succeeded and did not find every role at its phase, so the first shared phase ends the wait; the pass completes exactly when every phase was listed and missed |
| ClusterSteps.WaitForRolesPhasesSpec | pkg/reconciliation/steps/cluster/wait_for_roles_phase.go:21-34 | the state is kept, no write is made, and the step panics only without a cluster |
| ClusterSteps.WaitForRolesPhases | pkg/reconciliation/steps/cluster/wait_for_roles_phase.go:21-34 | the loop over the expected phases leaves the answer and call log WaitForRolesPhasesSpec gives |
| ClusterSteps.NoRolesNeverReady | internal/controller/cluster.go:27-29 | with no role labelled for the cluster, the wait completes the pass without going on |
| ClusterSteps.SplitRolesComplete | pkg/reconciliation/steps/cluster/wait_for_roles_phase.go:22-33 | roles split between two different expected phases make the wait complete the pass after one listing per phase, without going on |
| ClusterSteps.NoRolesNoError | pkg/reconciliation/steps/cluster/wait_for_roles_phase.go:22-33 | listings that never fail never make the wait return an error |
| ClusterSteps.BootstrapSpec | pkg/reconciliation/steps/cluster/bootstrap.go:23-45 | a bootstrapped cluster goes on untouched; the step goes on exactly when the cluster ends bootstrapped; completing sets the error phase; metadata, spec, related cluster and leader are kept; it panics without a leader to bootstrap through |
| ClusterSteps.Bootstrap | pkg/reconciliation/steps/cluster/bootstrap.go:23-45 | the step leaves the answer, state and call log BootstrapSpec gives |
| ClusterSteps.BootstrapErrorsAreWrapped | pkg/topology/common.go:213-222 | every failure returned is wrapped "unable to bootstrap cluster" and is not a missing-remotes failure |
| ClusterSteps.AlreadyBootstrappedMarksCluster | pkg/topology/common.go:213-222 | an "already bootstrapped" answer marks the cluster bootstrapped and goes on |
| ClusterSteps.BaseFailoverParams | pkg/reconciliation/steps/cluster/conifgure_failover.go:60-68 | mode, state provider, timeout and fencing settings are copied from the config, with no provider parameters |
| ClusterSteps.PasswordKey | pkg/reconciliation/steps/cluster/conifgure_failover.go:89-124 | the reference's key when set, the provider's default key otherwise |
| ClusterSteps.ReadPasswordSpec | pkg/reconciliation/steps/cluster/conifgure_failover.go:83-130 | an empty secret name reads nothing and gives an empty password; otherwise the secret is read once, and a password taken from it is its value under the chosen key |
| ClusterSteps.ReadPassword | pkg/reconciliation/steps/cluster/conifgure_failover.go:83-130 | the read leaves the answer and call log ReadPasswordSpec gives |
| ClusterSteps.ProviderSpec | pkg/reconciliation/steps/cluster/conifgure_failover.go:78-136 | the provider block is dereferenced exactly when the chosen provider's config is missing |
| ClusterSteps.LoadFailoverParamsSpec | pkg/reconciliation/steps/cluster/conifgure_failover.go:59-152 | outside stateful mode the base parameters are loaded with no call; loaded parameters keep the config's mode and provider |
| ClusterSteps.LoadFailoverParams | pkg/reconciliation/steps/cluster/conifgure_failover.go:59-152 | the load leaves the answer and call log LoadFailoverParamsSpec gives |
| ClusterSteps.ConfigureFailoverSpec | pkg/reconciliation/steps/cluster/conifgure_failover.go:19-57 | the state is kept; a failed load, a failed read of the leader's parameters and a failed set are each returned as the error; the step panics exactly on a nil provider block or a nil leader; it goes on exactly when the leader's parameters equal the loaded ones or the set succeeded; the comparison is `cmp.Equal`, under which a nil etcd2 endpoints list differs from an empty one |
| ClusterSteps.ConfigureFailover | pkg/reconciliation/steps/cluster/conifgure_failover.go:19-57 | the step leaves the answer and call log ConfigureFailoverSpec gives |
| ClusterSteps.SameFailoverParamsNotSet | pkg/reconciliation/steps/cluster/conifgure_failover.go:43-46 | parameters equal to the leader's current ones are not set again: the step writes nothing after loading |
| ClusterSteps.NilEndpointsAreSet | pkg/reconciliation/steps/cluster/conifgure_failover.go:41-51 | loaded parameters whose etcd2 endpoints list is nil (omitted) differ from the leader's parameters with an empty list and are otherwise equal; in that case the step reads the current parameters and then sets the loaded ones |
| ClusterSteps.SetParamsAreLoaded | pkg/reconciliation/steps/cluster/conifgure_failover.go:48-52 | any parameters set are exactly the loaded ones, and are sent to the leader |
| ClusterSteps.LoadLogHasNoSetParams | pkg/reconciliation/steps/cluster/conifgure_failover.go:59-152 | loading extends the log without ever setting failover parameters |
| ClusterSteps.Etcd2PasswordFromSecret | pkg/reconciliation/steps/cluster/conifgure_failover.go:80-105 | with a named etcd2 secret, loaded parameters carry the endpoints, username, lock delay and prefix of the config and the secret's value under the chosen key as password |
| RoleSteps.SetRolePhaseSpec | pkg/reconciliation/steps/role/set_phase.go:16-20 | the role's phase becomes the step's phase; metadata, spec, related cluster and leader are kept; no call is made; it panics without a role |
| RoleSteps.SetRolePhase | pkg/reconciliation/steps/role/set_phase.go:16-20 | the step leaves the answer and state SetRolePhaseSpec gives |
| RoleSteps.ResetRoleStatusSpec | pkg/reconciliation/steps/role/reset_status.go:15-19 | the role's phase is cleared; metadata, spec, related cluster and leader are kept; no call is made |
| RoleSteps.ResetRoleStatus | pkg/reconciliation/steps/role/reset_status.go:15-19 | the step leaves the answer and state ResetRoleStatusSpec gives |
| RoleSteps.CreateStatefulSetsStepSpec | pkg/reconciliation/steps/role/create_stateful_sets.go:14-28 | a role being deleted goes on with no call; the step never requeues, keeps the state, and panics only without a role or, when it creates, without a related cluster |
| RoleSteps.CreateStatefulSetsStep | pkg/reconciliation/steps/role/create_stateful_sets.go:14-28 | the step leaves the answer and call log CreateStatefulSetsStepSpec gives |
| RoleSteps.UpdateStatefulSetsStepSpec | pkg/reconciliation/steps/role/update_stateful_sets.go:14-24 | the state is kept, no requeue is asked, and the step panics exactly without a role or a related cluster |
| RoleSteps.UpdateStatefulSetsStep | pkg/reconciliation/steps/role/update_stateful_sets.go:14-24 | the step leaves the answer and call log UpdateStatefulSetsStepSpec gives |
| RoleSteps.UpdateStepStopsIffError | pkg/reconciliation/steps/role/update_stateful_sets.go:18-23 | the step goes on exactly when the update reported no error, and otherwise returns that error |
| RoleSteps.ReadyPods | pkg/reconciliation/steps/role/ensure_cartridge_ready.go:44-54 | the count of ready pods is at most the number of pods |
| RoleSteps.ReadyCountFromCounts | pkg/reconciliation/steps/role/ensure_cartridge_ready.go:42-54 | below 2^31 pods the int32 counter holds exactly the number of pods not being deleted whose default container is ready |
| RoleSteps.CountReadyPods | pkg/reconciliation/steps/role/ensure_cartridge_ready.go:42-54 | the counting loop gives the int32 count ReadyCountFrom defines |
| RoleSteps.IsCartridgeReadySpec | pkg/reconciliation/steps/role/ensure_cartridge_ready.go:26-57 | one listing of the role's pods in the cluster's namespace; the answer fails exactly when the listing does |
| RoleSteps.IsCartridgeReadyMeans | pkg/reconciliation/steps/role/ensure_cartridge_ready.go:37-56 | without overflow, ready means at least replicasets times replicas pods that count as ready |
| RoleSteps.IsCartridgeReady | pkg/reconciliation/steps/role/ensure_cartridge_ready.go:26-57 | the check leaves the answer and call log IsCartridgeReadySpec gives |
| RoleSteps.EnsureCartridgeReadySpec | pkg/reconciliation/steps/role/ensure_cartridge_ready.go:15-24 | the state is kept, no requeue is asked, and the step panics exactly without a role or a related cluster |
| RoleSteps.ReadinessNeverHoldsThePass | pkg/reconciliation/steps/role/ensure_cartridge_ready.go:16-23 | the step goes on exactly when the pods could be listed, ready or not, and otherwise returns the listing error |
| RoleSteps.EnsureCartridgeReady | pkg/reconciliation/steps/role/ensure_cartridge_ready.go:15-24 | the step leaves the answer and call log EnsureCartridgeReadySpec gives |
| RoleSteps.Join | pkg/topology/common.go:35-75 | one topology edit through the leader, joining the URIs to the replica set; its error is the edit's, classified by JoinError |
| RoleSteps.SetReplicasetRoles | pkg/topology/common.go:151-169 | one topology edit through the leader setting the replica set's roles; its error is the edit's |
| RoleSteps.PodsFromFacts | pkg/reconciliation/steps/role/join_instances.go:54-86 | the pod loop only reads, never turns allJoined back on, keeps it on only when every pod it looked up was running, and panics only on a nil cluster |
| RoleSteps.ItemsFromFacts | pkg/reconciliation/steps/role/join_instances.go:48-87 | the StatefulSet loop keeps the same promises as the pod loop |
| RoleSteps.JoinEdit | pkg/reconciliation/steps/role/join_instances.go:108-125 | the edit adds one replica set with the role's UUID, alias, roles, weight, group and all-rw flag, and one join server per URI |
| RoleSteps.JoinThroughLeaderFacts | pkg/reconciliation/steps/role/join_instances.go:115-138 | a join round writes only joins of the role through the leader, and stops only on a join failure |
| RoleSteps.JoinBatchFacts | pkg/reconciliation/steps/role/join_instances.go:93-138 | a leader not in the batch that reports no UUID clears allJoined and skips the join; the round writes only joins of the role |
| RoleSteps.ReplicasetJoinFacts | pkg/reconciliation/steps/role/join_instances.go:39-138 | one replica set's round writes only joins of the role through the leader, and keeps allJoined on only when every pod looked up was running |
| RoleSteps.OrdinalsFromFacts | pkg/reconciliation/steps/role/join_instances.go:38-139 | the ordinal loop keeps the same promises over all replica sets |
| RoleSteps.JoinInstancesSpec | pkg/reconciliation/steps/role/join_instances.go:29-148 | only a completed pass changes the state, and then the role's phase is the configuration-error phase |
| RoleSteps.PodsDecided | pkg/reconciliation/steps/role/join_instances.go:54-86 | the pod loop fails only on its last call (a pod lookup other than NotFound, or a UUID probe), clears allJoined exactly when a pod is missing, not running or being deleted, and gathers only URIs of ready pods that report no UUID |
| RoleSteps.PodsGoOnDecided | pkg/reconciliation/steps/role/join_instances.go:76-86 | a ready pod whose probe answers adds its URI when it has no UUID and goes on to the next pod, keeping the decision rules |
| RoleSteps.PodMissingDecided | pkg/reconciliation/steps/role/join_instances.go:57-74 | a pod lookup that finds no ready pod clears allJoined and the gathered URIs when the pod is missing, not running or being deleted, and stops the walk with any other lookup error |
| RoleSteps.PodProbedDecided | pkg/reconciliation/steps/role/join_instances.go:76-85 | the UUID probe of a ready pod stops the walk with its error when it fails, panics on a nil cluster when the pod has no UUID, and leaves allJoined alone |
| RoleSteps.ItemsDecided | pkg/reconciliation/steps/role/join_instances.go:48-87 | the StatefulSet loop keeps the same decisions over every StatefulSet not being deleted |
| RoleSteps.JoinBatchDecided | pkg/reconciliation/steps/role/join_instances.go:93-138 | a leader whose URI is not in the batch is probed first: a failed probe stops the walk, no UUID clears allJoined and skips the join; a failed join stops the walk, as the configuration error exactly for an unknown vshard role; every URI joined was gathered |
| RoleSteps.LeaderProbeDecided | pkg/reconciliation/steps/role/join_instances.go:96-105 | the leader's own probe stops the walk with its error when it fails, and clears allJoined when the leader has no UUID |
| RoleSteps.JoinThroughLeaderDecided | pkg/reconciliation/steps/role/join_instances.go:115-138 | the join through the leader fails only as the last call; the step completes with the configuration phase exactly when the failure is an unknown vshard role, and otherwise stops with the join's error; with a cluster it joins only URIs gathered from pods without a UUID |
| RoleSteps.JoinCallGathered | pkg/reconciliation/steps/role/join_instances.go:115-125 | a join names at least one server, and each server URI it names was gathered earlier in the step |
| RoleSteps.ReplicasetJoinDecided | pkg/reconciliation/steps/role/join_instances.go:39-138 | one replica set's round keeps the same decisions, from its listing to its join |
| RoleSteps.OrdinalsDecided | pkg/reconciliation/steps/role/join_instances.go:38-139 | the ordinal loop keeps the same decisions over all replica sets |
| RoleSteps.JoinInstancesFacts | pkg/reconciliation/steps/role/join_instances.go:29-148 | the step writes nothing but joins of the role's instances through the leader, and panics only on a nil leader or cluster; only its last call can have failed; it completes exactly when that call is a join failing with an unknown vshard role, and returns any other failure, an "already joined" answer included, as the error; with no failure it goes on exactly when every pod looked up was running and not being deleted and the leader never lacked a UUID, and requeues otherwise; every join names at least one server, and every URI it names was gathered from a ready pod with no UUID, so a replica set with nothing to join makes no join |
| RoleSteps.JoinInstancesShape | pkg/reconciliation/steps/role/join_instances.go:29-148 | the step writes nothing but joins of the role's instances through the leader; it panics only on a nil leader or cluster, and goes on only when every pod looked up was ready |
| RoleSteps.JoinInstancesDecided | pkg/reconciliation/steps/role/join_instances.go:29-148 | the outcome of the step follows from the answers: only the last call can have failed; an unknown vshard role completes the step, any other failure is returned; without a failure it goes on or requeues as the pods and the leader were ready and joined |
| RoleSteps.JoinOutcomeOfWalk | pkg/reconciliation/steps/role/join_instances.go:126-147 | an unknown vshard role completes the step, any other failure is its error, a nil leader or cluster panics, and otherwise it goes on when all were joined and requeues after 10 seconds when not |
| RoleSteps.JoinPods | pkg/reconciliation/steps/role/join_instances.go:54-86 | the pod loop leaves the walk PodsFrom gives |
| RoleSteps.JoinItems | pkg/reconciliation/steps/role/join_instances.go:46-87 | the StatefulSet loop leaves the walk ItemsFrom gives |
| RoleSteps.JoinBatchThroughLeader | pkg/reconciliation/steps/role/join_instances.go:93-138 | the batch join leaves the walk JoinBatch gives |
| RoleSteps.JoinReplicaset | pkg/reconciliation/steps/role/join_instances.go:39-138 | one replica set's round leaves the walk ReplicasetJoin gives |
| RoleSteps.JoinOrdinals | pkg/reconciliation/steps/role/join_instances.go:34-139 | the ordinal loop leaves the walk OrdinalsFrom gives from ordinal 0 with allJoined on |
| RoleSteps.JoinInstances | pkg/reconciliation/steps/role/join_instances.go:29-148 | the step leaves the answer, state and call log JoinInstancesSpec gives |
| RoleSteps.ReconcileReplicasetRolesFacts | pkg/reconciliation/steps/role/configure_vshard_roles.go:47-65 | reading and setting one replica set's roles writes only the role's roles through the leader |
| RoleSteps.RolesItemsFromFacts | pkg/reconciliation/steps/role/configure_vshard_roles.go:35-67 | the StatefulSet loop writes only the role's roles, never turns allRolesConfigured back on, and panics only on a nil leader |
| RoleSteps.RolesOrdinalsFromFacts | pkg/reconciliation/steps/role/configure_vshard_roles.go:23-68 | the ordinal loop keeps the same promises over all replica sets |
| RoleSteps.ConfigureVShardRolesSpec | pkg/reconciliation/steps/role/configure_vshard_roles.go:17-77 | the state is kept, and the step either goes on or requeues after 10 seconds |
| RoleSteps.RolesOrdinalsDecided | pkg/reconciliation/steps/role/configure_vshard_roles.go:23-68 | the ordinal loop clears configured exactly when some listing, hierarchy read, roles read or edit failed; every roles read names the UUID of the replica set whose listing came last before it; a replica set is edited exactly when its roles read succeeded and differs from the role's under the hierarchy read before it, and every edit follows a read; it panics only without a leader and lists every replica set when it does not panic; with a leader, every StatefulSet that a successful listing found and that is not being deleted gets the hierarchy read and, when that succeeds, the roles read under its replica set's own UUID |
| RoleSteps.RolesOrdinalDecided | pkg/reconciliation/steps/role/configure_vshard_roles.go:24-67 | one replica set's round opens with its listing; it stays configured exactly when none of its calls failed; every roles read after the listing names that replica set's UUID; without a leader it makes only the listing; with a leader and a successful listing, every StatefulSet found and not being deleted gets its hierarchy read and, when that succeeds, its roles read |
| RoleSteps.RolesItemsDecided | pkg/reconciliation/steps/role/configure_vshard_roles.go:35-66 | over the StatefulSets found, the walk stays configured exactly when none of the calls failed, it makes no listing, every roles read names the replica set's own UUID, and it panics only without a leader; with a leader, each StatefulSet not being deleted gets, one after the other, the hierarchy read and, when that succeeds, the roles read, then the edit exactly when the roles differ |
| RoleSteps.RolesRoundDecided | pkg/reconciliation/steps/role/configure_vshard_roles.go:40-65 | one StatefulSet's round with a leader reads the hierarchy and, when that succeeds, the replica set's roles under its own UUID, then edits exactly when those roles differ from the role's under the hierarchy; it makes no listing, never panics, clears configured exactly when one of its calls failed, and ends where RoundEnd says |
| RoleSteps.ConfigureVShardRolesFacts | pkg/reconciliation/steps/role/configure_vshard_roles.go:17-77 | the step only sets the role's vshard roles through the leader, panics only on a nil leader, and a role with no replica sets goes on with no call; it goes on exactly when no listing, hierarchy read, roles read or edit failed, and requeues otherwise; every replica set is listed; every roles read names the UUID of the replica set whose listing came last before it; an edit follows a read exactly when the read succeeded and the roles differ, and every edit follows a read; with a leader, every StatefulSet found and not being deleted gets its hierarchy read and, when that succeeds, its roles read |
| RoleSteps.ConfigureReplicasetRoles | pkg/reconciliation/steps/role/configure_vshard_roles.go:40-65 | one StatefulSet's round leaves the walk RolesOfReplicaset gives |
| RoleSteps.VShardRolesEqual | pkg/utils/vshard.go:5-21 | true exactly when IsVShardRolesEquals holds for the two role lists under the hierarchy |
| RoleSteps.ConfigureOrdinalRoles | pkg/reconciliation/steps/role/configure_vshard_roles.go:24-67 | one replica set's round leaves the walk RolesOfOrdinal gives |
| RoleSteps.ConfigureVShardRoles | pkg/reconciliation/steps/role/configure_vshard_roles.go:17-77 | the step leaves the answer and call log ConfigureVShardRolesSpec gives |
| RoleSteps.WeightsItemsFromFacts | pkg/reconciliation/steps/role/set_vshard_weights.go:30-42 | the StatefulSet loop writes only the role's weight through the leader and panics only on a nil leader |
| RoleSteps.WeightsOrdinalsFromFacts | pkg/reconciliation/steps/role/set_vshard_weights.go:20-43 | the ordinal loop keeps the same promises over all replica sets |
| RoleSteps.SetVShardWeightsSpec | pkg/reconciliation/steps/role/set_vshard_weights.go:14-46 | the state is kept, and the step either goes on or returns an error |
| RoleSteps.WeightsOrdinalsSent | pkg/reconciliation/steps/role/set_vshard_weights.go:20-43 | only the last call of the weights loop can have failed and its error is the loop's, so nothing is called after the first failure; a panic comes only without a leader; a loop that did not stop gave every replica set, right after its listing, a weight call for each StatefulSet found that is not being deleted, under its UUID label |
| RoleSteps.WeightsOfOrdinalSent | pkg/reconciliation/steps/role/set_vshard_weights.go:21-42 | one replica set's round starts with its listing; only its last call can have failed, with the round's error; without a failure it sends the weight calls of every StatefulSet found |
| RoleSteps.WeightsItemsSent | pkg/reconciliation/steps/role/set_vshard_weights.go:30-42 | with a leader the StatefulSet loop sends, in order, a weight call for each StatefulSet not being deleted under its UUID label, stops at the first failure, and never panics |
| RoleSteps.SetVShardWeightsFacts | pkg/reconciliation/steps/role/set_vshard_weights.go:14-46 | the step only sets the role's weight through the leader and panics only on a nil leader; it goes on exactly when every listing and weight call succeeded; an error is the first failing call's, with nothing called after it; going on means every replica set's StatefulSets not being deleted got the weight under their UUID label |
| RoleSteps.SetOrdinalWeights | pkg/reconciliation/steps/role/set_vshard_weights.go:21-42 | one replica set's round leaves the walk WeightsOfOrdinal gives |
| RoleSteps.SetVShardWeights | pkg/reconciliation/steps/role/set_vshard_weights.go:14-46 | the step leaves the answer and call log SetVShardWeightsSpec gives |
| CartridgeSteps.SetConfigPhaseSpec | pkg/reconciliation/steps/cartridge/set_phase.go:16-20 | the configuration's phase becomes the step's phase; metadata, spec, related cluster and leader are kept; no call is made; it panics without a configuration |
| CartridgeSteps.ResetConfigStatusSpec | pkg/reconciliation/steps/cartridge/reset_status.go:14-18 | the configuration's phase is cleared; metadata, spec, related cluster and leader are kept; no call is made |
| CartridgeSteps.SetConfigPhase | pkg/reconciliation/steps/cartridge/set_phase.go:16-20 | the step leaves the answer and state SetConfigPhaseSpec gives |
| CartridgeSteps.ResetConfigStatus | pkg/reconciliation/steps/cartridge/reset_status.go:14-18 | the step leaves the answer and state ResetConfigStatusSpec gives |
| CartridgeSteps.ConfigureSpec | pkg/reconciliation/steps/cartridge/configure.go:16-43 | the state is kept, no requeue is asked, and the step panics exactly on a nil leader, or on a missing configuration once the download succeeded |
| CartridgeSteps.Configure | pkg/reconciliation/steps/cartridge/configure.go:16-43 | the step leaves the answer and call log ConfigureSpec gives |
| CartridgeSteps.ConfigureUploadsOnlyDifferences | pkg/reconciliation/steps/cartridge/configure.go:17-42 | one download through the leader, then at most one upload, made exactly when both documents were read and differ, and carrying the parsed document; the pass goes on exactly when they agreed or the upload succeeded |
| CartridgeSteps.ConfigureIsIdempotent | pkg/reconciliation/steps/cartridge/configure.go:29-33 | once the cluster reports the requested configuration, the step writes nothing and the pass goes on |
| Engine.StepSpec | pkg/reconciliation/steps.go:5-8 | one step keeps the pass's state well formed and of the controller's kind |
| Engine.RunStepsSpec | pkg/reconciliation/reconciler.go:29-38 | the loop ends well formed, either stopped by a step or having gone on through every step |
| Engine.RunStepsAppend | pkg/reconciliation/reconciler.go:29-38 | running a then b is running a + b: the loop reaches b exactly when no step of a stopped it |
| Engine.WentOnThrough | pkg/reconciliation/reconciler.go:29-38 | a run that went on to its end went on at every prefix and every step |
| Engine.StatusObject | pkg/reconciliation/reconciler.go:68-71 | the object sent to the status subresource is the requested object of whichever kind, and there is none without one |
| Engine.UpdateStatusSpec | pkg/reconciliation/reconciler.go:66-76 | one status update of the pass's final object when it is held and not being deleted or still has finalizers; otherwise no call and no error |
| Engine.UpdateStatus | pkg/reconciliation/reconciler.go:66-76 | the update leaves the error and call log UpdateStatusSpec gives |
| Engine.RunSpec | pkg/reconciliation/reconciler.go:22-64 | a panic skips the status update; a status-update error replaces the steps' outcome with a retry after ErrorTimeout; otherwise the step error is kept, an explicit result is kept, an error without one is retried after ErrorTimeout, and a pass that went on everywhere ends with an empty result |
| Engine.Execute | pkg/reconciliation/reconciler.go:33 | one step's method leaves the answer, state and call log StepSpec gives |
| Engine.RunStepsCons | pkg/reconciliation/reconciler.go:29-38 | the loop takes its first step and goes on with the rest unless that step stopped it |
| Engine.RunStepsSnoc | pkg/reconciliation/reconciler.go:29-38 | one more step after a prefix that went on is that step applied to the prefix's outcome |
| Engine.RunStepsNext | pkg/reconciliation/reconciler.go:29-38 | the loop's next round applies the next step to the prefix's outcome |
| Engine.RunStepsDone | pkg/reconciliation/reconciler.go:35-37 | once a prefix stopped the loop, the whole run is that prefix's |
| Engine.RunSteps | pkg/reconciliation/reconciler.go:29-38 | the step loop leaves the answer, state and call log RunStepsSpec gives |
| Engine.Run | pkg/reconciliation/reconciler.go:22-64 | the run leaves the result, state and call log RunSpec gives |
| Controllers.Initial | controllers/cluster_controller.go:112-119 | a pass starts from a well-formed context of the controller's kind holding no object and no leader |
| Controllers.ClusterPipeline | controllers/cluster_controller.go:120-138 | seventeen steps for cluster contexts, starting with Info and the fetch of the cluster |
| Controllers.RolePipeline | controllers/role_controller.go:109-141 | twenty-two steps for role contexts, starting with Info and the fetch of the role |
| Controllers.ConfigPipeline | controllers/cartridgeconfig_controller.go:108-119 | twelve steps for configuration contexts, starting with Info and the fetch of the configuration |
| Controllers.Reconcile | controllers/cluster_controller.go:111-140 | Reconcile runs the controller's steps from a fresh context and returns the result and calls ReconcileSpec gives |
| Controllers.FetchFailureEndsPass | pkg/reconciliation/steps/common/get_requested_object.go:26-32 | a failed fetch ends the pass with no status write: NotFound with an empty result, any other failure wrapped and retried after ErrorTimeout |
| Controllers.DeletedObjectIsIgnored | pkg/reconciliation/steps/common/get_requested_object.go:26-31 | an object that no longer exists costs one Get and returns an empty result with no error |
| Controllers.StepKeepsNoLeader | controllers/cluster_controller.go:88-92 | with an election without a Topology, no step that goes on stores a leader |
| Controllers.RunKeepsNoLeader | controllers/cluster_controller.go:88-92 | with an election without a Topology, a run of steps that went on still has no leader |
| Controllers.ClusterPassNeverReachesReady | controllers/cluster_controller.go:130-138 | the cluster pass always stops before SetPhase(Ready): with no leader ConfigureFailover cannot go on, so the last two steps never run |
| Controllers.RoleTail | controllers/role_controller.go:135-141 | the role pipeline is its first seventeen steps, WaitForClusterBootstrapped, then the tail |
| Controllers.SetRolePhaseStep | pkg/reconciliation/steps/role/set_phase.go:16-20 | SetRolePhase going on sets the phase and keeps the related cluster |
| Controllers.ReadyThenInfo | controllers/role_controller.go:140-141 | the last two role steps end with the role Ready and the related cluster kept |
| Controllers.WeightsThenReady | controllers/role_controller.go:137-141 | from SetVShardWeights on, a run that goes on ends with the role Ready and the related cluster kept |
| Controllers.RoleTailEndsReady | controllers/role_controller.go:137-141 | the tail of the role pipeline, when it goes on, leaves the role Ready and keeps the related cluster |
| Controllers.RoleReadyOnlyAfterBootstrap | controllers/role_controller.go:109-141 | a role pass that went through every step leaves the role Ready with a bootstrapped related cluster |
| Controllers.GetLeaderKeepsBootstrapped | pkg/reconciliation/steps/common/get_leader.go:23-40 | GetLeader keeps a bootstrapped related cluster bootstrapped |
| Controllers.ConfigGate | controllers/cartridgeconfig_controller.go:113-116 | the configuration pipeline's first nine steps are its first five, WaitForClusterBootstrapped, then the gate |
| Controllers.ConfigGateKeepsBootstrapped | controllers/cartridgeconfig_controller.go:114-116 | from a bootstrapped cluster, the steps before ConfigureCartridge keep it bootstrapped |
| Controllers.LeaderThenApplying | controllers/cartridgeconfig_controller.go:115-116 | GetLeader then SetPhase(Applying) keep a bootstrapped related cluster bootstrapped |
| Controllers.ConfigAppliedOnlyAfterBootstrap | controllers/cartridgeconfig_controller.go:108-117 | a pass that reaches ConfigureCartridge has a bootstrapped related cluster, and without a leader that step panics before any call |
| Controllers.ConfigPipelineHead | controllers/cartridgeconfig_controller.go:108-112 | the steps before WaitForClusterBootstrapped, with ConfigureCartridge as the tenth step |
| Controllers.WaitThenGate | controllers/cartridgeconfig_controller.go:113-116 | past WaitForClusterBootstrapped and the gate, the related cluster is bootstrapped |
| Controllers.ClusterPipelineHead | controllers/cluster_controller.go:120-138 | the cluster pipeline is Info, the fetch, SetPhase(Pending), CheckDeletion, then the rest |
| Controllers.ClusterFetched | controllers/cluster_controller.go:120-121 | a found cluster is held in the context after one Get, and the pass goes on with the rest |
| Controllers.DeletingStopsAtCheck | controllers/cluster_controller.go:122-123 | a cluster being deleted is set Pending and CheckDeletion completes the pass with no call |
| Controllers.DeletingClusterSteps | controllers/cluster_controller.go:120-123 | the steps over a cluster being deleted make one Get and complete with the cluster Pending |
| Controllers.DeletingClusterStopsPending | pkg/reconciliation/reconciler.go:40-76 | a cluster being deleted ends Pending with an empty result; its status is written only while it has finalizers, and a failed write is retried after ErrorTimeout |
| Controllers.RoleToClusterRequests | controllers/cluster_controller.go:147-165 | a role waiting for bootstrap and carrying labels enqueues one request for the cluster its label names, in its namespace; any other role enqueues nothing |
| Controllers.WatchWakesTheRolesCluster | controllers/cluster_controller.go:147-165 | the watch wakes exactly the cluster the role's own GetClusterByLabels fetches |

## Left out

- Logging, the events recorder and the step names are left out. They produce audit output only and never change an outcome.
- Transport I/O is left out: pod-exec streaming, its timeouts and retries. Every remote call is an oracle answer, and so is every Kubernetes get, list and write.
- The Lua bodies sent to the instances are oracles. Only two pure pieces of them are modelled: the reserved-section filter and the confapplier-state predicates.
- YAML and JSON decoding and encoding, SHA-1, and the pod-template hash (`utils.HashObject`) are deterministic but uninterpreted parameters of the world. Regular expressions are modelled only as the three fixed rewrites they perform.
- Go panics are modelled as a separate `Panic` outcome that skips the status write. The recovery of a panic by the controller runtime is not modelled.
- Requeue delays are natural numbers of seconds (`ErrorTimeout` is 10). The `Requeue` flag of the Result is not modelled, because no step sets it.
- Optimistic concurrency is modelled only as an oracle outcome: a write succeeds, conflicts or fails. There is no real concurrency.
- The API server's defaulting of Service ports is not modelled. On a real server, a stored port also carries a target port, so the port comparison in `SyncClusterWideService` may report a change on every pass. In the model, a service already in line is not written again.
- `controllerutil.SetOwnerReference` on a failover secret is an oracle call recorded in the log. The secret written afterwards does not carry an owner-reference field.
- Environment.Controller.ControlObject: the call is logged and its answer is an oracle, indexed by log position. `Meta` holds no owner references, so `metav1.IsControlledBy` (pkg/k8s/resources_manager.go:59) is not read from the target's metadata, and the controller reference that `controllerutil.SetControllerReference` (pkg/k8s/resources_manager.go:63) sets on the target is not carried on the StatefulSets and the cluster-wide Service that are written afterwards. `Replicasets.SyncChangedIff` and `ClusterSteps.SyncedServiceIsNotWritten` therefore take "the reference is already held" (`Ok(false)`) as a hypothesis about the oracle.
- Replicasets.SyncStatefulSet: the StatefulSet it leaves is the one `SyncSpec` gives, without the controller reference that `ControlObject` sets in place (internal/implementation/replicasets_manger.go:203), for the reason above. Every other field the sync rewrites is stated.
- ClusterSteps.SyncClusterWideServiceSpec: likewise, the Service created or updated does not carry the controller reference set at pkg/reconciliation/steps/cluster/sync_cluster_wide_service.go:42.
- The reconciler constructors and `SetupWithManager` are left out, except for the role-to-cluster watch function.
- The getter-only interfaces and the generic step factories are left out: they declare signatures or copy one parameter.
- `uuid.MustParse` is modelled as `Uuid.Parse` on the canonical 36-character form only. The URN and braced forms are not parsed, because the operator uses only a canonical constant.
- The error for a `res` field that is not valid base64 carries no byte offset. The model keeps only its text prefix.
- In the `strconv` error text, `strconv.Quote` is simplified to surrounding double quotes. This is exact for labels made of printable ASCII.
- The error that `GetReplicasetName` returns is always nil. The model returns it as a second component, and the join step uses only the name, since the check in the operator can never fail.
- A Role's `Spec.Replicasets` and `Spec.ReplicasetTemplate.Replicas` are `*int32` pointers that `GetReplicasets` and `GetReplicas` dereference (apis/v1alpha2/role_types.go:158-164), and `Spec.ReplicasetTemplate` is itself a `*ReplicasetTemplate` pointer that `GetReplicas` dereferences first (apis/v1alpha2/role_types.go:22). The model holds the two counts as plain `int32` values and the template as a plain value. The nil cases, which would panic, are not modelled: the CRD defaults both counts to 1 (apis/v1alpha2/role_types.go:14 and :42), and it requires the template field, which is neither optional nor defaulted.
- RoleSteps.CreateStatefulSetsStepSpec: a missing related cluster panics before any call. In Go the cluster is dereferenced only when a StatefulSet is built (internal/implementation/replicasets_manger.go:111), so a role with nothing to create would not panic. The two cannot differ in `RolePipeline`: `GetClusterByLabels` runs before this step, and `CommonSteps.GetClusterByLabelsSpec` goes on only with a related cluster stored.
- RoleSteps.UpdateStatefulSetsStepSpec: likewise, a missing related cluster panics before the listing. In Go the cluster is dereferenced only when a StatefulSet is synced (internal/implementation/replicasets_manger.go:185). The same pipeline order makes this unreachable.
- `GetFailoverConfig` returns a pointer into the spec, which is never nil. So the nil-config branch of `ConfigureFailover` cannot be reached and is not modelled.
- Election.NotBootstrappedKeepsLeader: stated under `LookupsCarryNoSentinel`, the assumption that Kubernetes lookup and transport errors are never the election's own sentinel errors. This holds in the operator because those errors come from other packages.
- Election.SwallowsLookupError: stated under the same `LookupsCarryNoSentinel` assumption.
- RoleSteps.IsCartridgeReadyMeans: the readiness count is stated only when fewer than 2^31 pods are listed and replicasets times replicas fits in an int32. The computation itself keeps Go's int32 wrap-around (`K8s.Wrap32`) for every input.
- RoleSteps.ReadyCountFromCounts: stated only below 2^31 pods, for the same reason.
- The "role with no running pods stalls in WaitingForLeader" scenario is not stated as a lemma. Its outcome depends on the election's oracle answers for every candidate, so what the model proves is the per-step behaviour of `GetLeader` and the election.
