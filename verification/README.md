# SpiceDB operator: a verified model

The operator keeps SpiceDB clusters running and walks them from release to release along an update
graph. This project models, in Dafny, the parts of it where a mistake costs data: how the next release
is chosen, when a migration job has to run before a deployment may claim it, and how one reconcile
after another gets a cluster to its pin or to the head of its channel. It proves properties of that model for every
graph, every spec and every run.

`dafny verify dfyconfig.toml` checks everything.

## How the model is laid out

| files | what they hold |
|---|---|
| `Seqs` | options, results and sequence lemmas |
| `UpdateSource`, `Validation`, `Walks` | a channel as a source of updates, its validation, and walks along its edges |
| `UpdateGraph`, `TargetMeaning`, `TargetProperties`, `AvailableVersions` | the graph of channels, the choice of the next release case by case and over several steps, the advertised updates |
| `WalkEnding`, `UpgradePath`, `EdgeGenerator` | whether a walk towards a pin ends, and the two tools around the graph: upgrade paths and generated edges |
| `GraphDifference`, `NodeRemoval` | editing a graph: difference, and removal in place on slices that share arrays |
| `SchemaCache`, `Credentials` | the concurrent schema cache; credential resolution and the secret hash |
| `Cluster`, `Controller`, `Handlers`, `Cleanup`, `PlanMeaning` | status, configuration and managed objects; a reconcile as a plan of writes; the handlers that carry it out step by step; what gets deleted; what each part of a plan says, told from what was read |
| `Runs`, `MigrationSafety`, `OnRails`, `EdgeByEdge`, `SingleMigration` | runs of the operator against an API server and what every run keeps |
| `Progress`, `Interruption`, `Acceptance` | the stages of a release, what is left of a reconcile wherever it is cut short, and what it achieves with the writes the API server accepts |
| `Convergence`, `Feasibility` | that a cluster gets to its pin or to the head, and that it always can |
| `StaleReads`, `Stranded`, `Pausing` | what a stale read does, what becomes of a cluster whose release is not in the channel asked for, and of one whose migration fails |

A reconcile is a *plan*: the writes it issues, in order, as a function of what it read. `Handlers` holds
the same chain in the form the code has, a class whose methods change the status in place and attempt
one write after another; each method is proved to attempt exactly its plan, up to the write the API
server refuses. `Runs` then lets plans be made from caches of any age, carried out one write at a time,
abandoned anywhere, and interleaved with whatever users and Kubernetes controllers do. Every status but
the notice of a change is sent with the resource version of the cluster that was read
(pkg/controller/client.go:13-25): it is carried out only while the cluster is that one. The safety results
hold of all these runs.

Hashes are taken to be injective: a configuration stands for its own migration hash, a rendered
deployment for its own hash, the sorted credential data for the secret hash. The version order and the
version ranges of the edge generator are a `rank` and an `admits` function.

## What the code does that one might not expect

- The Migration mark of a recorded version is never taken off: a migration-free edge keeps the attributes
  it starts from (`TargetProperties.MarkIsSticky`, `OnRails.MarkNeverLeaves`).
- An accepted channel can hold a pin that older releases never get to (`TargetProperties.PinOutOfReach`);
  `TargetProperties.PinIsReached` says exactly when they do.
- A head with outgoing edges is accepted, and a cluster at such a head leaves it again
  (`Feasibility.HeadIsLeft`); `Convergence.HeadIsKept` says exactly when it stays.
- After its first change of the cluster a reconcile is refused the next one, because it still sends the
  resource version it read; it starts over, and gets on all the same (`Acceptance.PlanEffect`,
  `Convergence.RoundProgress`).
- The notice of a change is sent without a resource version. A reconcile that reads an old state and notices a
  change, for example a new secret, puts the version of that state back, along no edge
  (`StaleReads.StaleNoticeGoesBack`, with a run in `StaleReads.StaleNoticeLeavesTheRails`);
  `StaleReads.StaleNoticeKeepsLine` says exactly when it does not. No other write of the model takes a cluster
  off the edges, however stale the reads (`EdgeByEdge.ChangesFollowEdges`, `StaleReads.StaleReadIsLockedOut`).
- A cluster moved to a channel that lacks its release is stranded: each choice of a target adds another
  NotInChannel attribute to the recorded version (`Stranded.StuckTarget`), so no reconcile finds its own
  hash recorded (`Stranded.HashIsNeverFound`), and each is over after that one write
  (`Stranded.OneWriteAtMost`). Marked or not, such a cluster applies no deployment and starts no job any more
  (`Stranded.StrandedNeverDeploys`).
- On an accepted channel with backward edges the walk of the upgrade tool, and a pinned cluster with it, can
  go back and forth for ever (`WalkEnding.WalkNeverEnds`); `WalkEnding.WalkEndsInTime` says exactly when it
  ends.
- A release that is not in the channel is told of the channel's head although no edge leads there
  (`AvailableVersions.AdvertisedIsReachable`).
- A head one migration-free edge away is advertised as a sequence of updates with a migration where the edge list
  does not go from oldest to newest (`AvailableVersions.DirectHeadIsNotTold`); `AvailableVersions.EntryMeaning`
  says exactly what is told.
- `RemoveNodes` ranges over an old slice header while deleting, so of two adjacent equal edges one survives
  (`NodeRemoval.AdjacentSurvives`, `NodeRemoval.SweepIsExact`). Freed places hold the empty name, so removing a
  release without a name can delete past the end of the slice and panic (`NodeRemoval.RemoveNodes`).
- Credential resolution accepts a reference without a secret name, whose secret is then not watched; the
  earlier check of the spec closes that gap (`Credentials.UnnamedRefIsNotWatched`,
  `Credentials.ResolvedSecretsAreWatched`).
- A graph minus itself keeps channels that carry no metadata (`GraphDifference.SelfDifference`).
- The comparison of statuses compares the current hash of one side with the target hash of the other, so a
  status in transition does not equal itself (`Cluster.StatusEqualsItself`); the model follows the code.
- The comment on `DefaultChannelForDatastore` speaks of the first channel of a datastore; the code takes the
  first one marked as default, and the model follows the code.

## Model

| member | source | states |
|---|---|---|
| `UpdateSource.Source.NextVersionWithoutMigrations` | pkg/updates/memory.go:35-51 | found is nothing unless the first edge keeps migration and phase of the start; otherwise it is an edge up to which every one keeps them, and which is the last of the list or is followed by one that does not |
| `UpdateSource.DirectMeaning` | pkg/updates/memory.go:35-51 | the same of the function the choice of a target uses, and such an edge is the only one |
| `UpdateSource.Source.Subgraph` | pkg/updates/memory.go:68-106 | fails exactly for an unknown head; otherwise the node suffix, the shifted index and the order-preserving restriction of the edges |
| `UpdateSource.RestrictEdges` | pkg/updates/memory.go:86-103 | the loop drops exactly the edges that leave or enter a node outside the suffix, and start nodes outside it |
| `UpdateSource.SubgraphOfSubgraph` | pkg/updates/memory.go:68-106 | re-rooting at one release and then at an older one is re-rooting at the older one |
| `UpdateSource.SubgraphAtHead` | pkg/updates/memory.go:68-106 | re-rooting at the head is the identity |
| `UpdateSource.SubgraphEdges` | pkg/updates/memory.go:68-106 | an edge survives exactly when both ends are no newer than the new head |
| `UpdateSource.SubgraphStates` | pkg/updates/memory.go:68-106 | a kept release keeps its state and shifts its position; a newer one is unknown |
| `Validation.NewMemorySource` | pkg/updates/memory.go:129-178 | accepts exactly the channels with nodes, edges, unique identifiers, known edge ends, no empty list but the head's, and every release led to the head; each error names a real defect |
| `Validation.CheckEdges` | pkg/updates/memory.go:144-163 | finds a defect exactly when an edge end is unknown or a list below the head is empty |
| `Validation.ValidateAllNodesPathToHead` | pkg/updates/memory.go:108-127 | terminates, and finds no defect exactly when chasing the greedy successor from every release meets the head |
| `Validation.CycleNeverReaches` | pkg/updates/memory.go:114-124 | stopping at the first repeat is right: a chase that repeats before the head never meets it |
| `Validation.DeadEndNeverReaches` | pkg/updates/memory.go:116-124 | stopping at a dead end is right: the head is not met later |
| `Walks.AcceptedSources` | pkg/updates/memory.go:129-178 | the sources the constructor builds are exactly the valid ones from which every release is led to the head |
| `Walks.StepCloser` | pkg/updates/memory.go:28-33 | each greedy step shortens the distance to the head by one |
| `Walks.DistanceBound` | pkg/updates/memory.go:108-127 | every greedy path has fewer steps than there are nodes |
| `Walks.GreedyPathWalks` | pkg/updates/memory.go:28-33 | the greedy path is a walk along edges from the release to the head |
| `Walks.FewestUpdates` | pkg/updates/source.go:9-21 | where the last edge is the newest and newer releases have at least as new updates, no walk along edges reaches the head in fewer steps than the greedy one |
| `UpdateGraph.SourceForChannel` | pkg/updates/file.go:110-118 | no source without a channel that matches name and engine up to case; otherwise the source of the first such channel, if its nodes and edges are accepted |
| `UpdateGraph.LookupIgnoresCase` | pkg/updates/file.go:110-118 | names and engines that differ in upper and lower case only lead to the same source |
| `UpdateGraph.FoldMeaning` | pkg/updates/file.go:98-118 | folding makes two strings equal exactly if they differ at most in capital and small forms of the same letters |
| `UpdateGraph.DefaultChannelForDatastore` | pkg/updates/file.go:98-108 | the name of the first channel of the engine marked as default, and none only if there is no such channel |
| `UpdateGraph.Cut` | pkg/updates/file.go:210-220 | splits at the first separator, and puts back together to the input |
| `UpdateGraph.ComputeTarget` | pkg/updates/file.go:224-263 | image overrides, base image, channel fallback and every error, and then the choice within the channel, as the decision table `Resolve` has them |
| `UpdateGraph.TargetInSource` | pkg/updates/file.go:265-365 | the assignments through all branches give the choice of the decision table |
| `TargetProperties.TargetFollowsEdge` | pkg/updates/file.go:287-365 | a target is the current release or one edge of the wanted channel away, only when nothing rolls out, and an edge across a migration or phase is marked, also below a pin |
| `TargetProperties.FollowMarks` | pkg/updates/file.go:344-359 | within any source, also a re-rooted one, a step to another migration or phase carries exactly the Migration mark |
| `TargetProperties.MarkIsSticky` | pkg/updates/file.go:344-364 | a target chosen from a marked version is marked |
| `TargetProperties.OperatorFollowsPin` | pkg/updates/file.go:336-365 | repeated choices with a pin record the releases of the greedy walk of the channel re-rooted at the pin |
| `TargetProperties.PinnedConvergence` | pkg/updates/file.go:287-365 | with a pin and forward edges the recorded releases get strictly newer until they stop, never pass the pin, stay put if newer than it, stop within as many steps as there are releases in between, and stop at the pin if older releases keep their updates |
| `TargetProperties.PinIsReached` | pkg/updates/memory.go:68-106 | every older release ends at the pin if and only if each keeps an edge to a release no newer than the pin |
| `TargetProperties.PinOutOfReach` | pkg/updates/file.go:336-365 | an accepted channel whose oldest release never gets to a pin |
| `TargetMeaning.ExplodeMeaning` | pkg/updates/file.go:210-220 | name, tag and digest are put back together as they are written, whichever of them are there |
| `TargetMeaning.ForcedImage` | pkg/updates/file.go:225-232 | an image with a tag or a digest is the target, whatever the graph and the status say |
| `TargetMeaning.BaseMeaning` | pkg/updates/file.go:234-240 | the base image of every other target is the name in the image of the cluster, or else its base image, or else that of the operator |
| `TargetMeaning.EarlyErrors` | pkg/updates/file.go:225-254 | there is no base image exactly if none of the three is set, and no channel exactly if none is asked for or recorded and none is marked as default |
| `TargetMeaning.NoSourceMeaning` | pkg/updates/file.go:256-263 | a channel without a source is an error |
| `TargetMeaning.NamelessDefault` | pkg/updates/file.go:256-285 | a default channel without a name leaves no source: an error in every case |
| `TargetMeaning.InstallMeaning` | pkg/updates/file.go:265-364 | with nothing installed the release asked for, or else the head, is installed and marked; the only error is a release the channel does not have |
| `TargetMeaning.RollingWithNothing` | pkg/updates/file.go:315-328 | with nothing installed or asked for, a rollout under way is an error |
| `TargetMeaning.NamelessInstall` | pkg/updates/file.go:265-285 | a recorded version without a name does not hinder a release asked for |
| `TargetMeaning.NamelessMeaning` | pkg/updates/file.go:287-364 | without one it is kept in its channel, with no release; from another channel the head is installed, still under the name of the old one |
| `TargetMeaning.InstalledErrors` | pkg/updates/file.go:287-342 | for a release of the channel the only error is a pin the channel does not have, and that exactly when nothing rolls out; while it rolls out the target is that release |
| `TargetMeaning.StrangerErrors` | pkg/updates/file.go:294-328 | for a release that is not in the channel it is an error exactly if its own channel has no source, or does not have it either while it rolls out |
| `TargetMeaning.ImageMeaning` | pkg/config/config.go:267-290 | the image of a configuration comes apart into the base image of the target and the digest of the release, or else its tag |
| `TargetMeaning.ConfigImage` | pkg/config/config.go:267-290 | every valid configuration runs the base image chosen in that order, with the digest or tag of the release |
| `AvailableVersions.AvailableVersions` | pkg/updates/file.go:126-208 | the advertised list, none without a source; `AdvertisedInOrder`, `ListedExactly`, `EntryMeaning` and `OtherEntryMeaning` tell what is in it from the edges |
| `AvailableVersions.ListOwn` | pkg/updates/file.go:134-173 | the entries of the own channel, as `ListedExactly` and `EntryMeaning` tell them from the edges |
| `AvailableVersions.ListedExactly` | pkg/updates/file.go:134-173 | a cluster is told of exactly these releases of its channel: the last edge before the first that changes migration or phase, the last edge, and the head unless it runs |
| `AvailableVersions.EntryMeaning` | pkg/updates/file.go:134-173 | an entry says nothing of a migration exactly when it is that last edge before a change, is called next exactly when it is that or the last edge, and latest exactly when it is the head; each phrase is there exactly when the attributes say so |
| `AvailableVersions.OrderedEntryMeaning` | pkg/updates/file.go:134-173 | with edge lists from oldest to newest, no migration is told exactly when an edge leads to the entry past none that changes migration or phase, and it is called next exactly when it is an edge |
| `AvailableVersions.DirectHeadIsNotTold` | pkg/updates/file.go:134-173 | without that order: an accepted channel whose head is one edge without a migration away and is advertised as a sequence of updates with one |
| `AvailableVersions.OtherEntryMeaning` | pkg/updates/file.go:175-205 | another channel of the engine contributes one entry exactly if the release has an edge in it: without a migration if the first edge needs none, else the last edge, said to be in that channel and in a different one |
| `AvailableVersions.NoOtherEntry` | pkg/updates/file.go:177-187 | the own channel, channels of other engines and channels without a source contribute nothing |
| `AvailableVersions.AdvertisedInOrder` | pkg/updates/file.go:126-208 | the list is that of the own channel and then the entry of each channel that has one, in the order of the channels |
| `AvailableVersions.OwnEntriesDistinct` | pkg/updates/file.go:128-208 | no release is advertised twice within the channel, and the greedy successor is advertised |
| `AvailableVersions.ChoiceIsAdvertised` | pkg/updates/file.go:128-208 | the release the unpinned choice of a target moves to is among the advertised ones |
| `AvailableVersions.AdvertisedIsReachable` | pkg/updates/file.go:128-208 | everything advertised within an accepted channel is reachable along its edges exactly when the running release is in the channel |
| `AvailableVersions.DirectUpdateLands` | pkg/updates/file.go:336-365 | pinning to the advertised migration-free update lands on it in one step and leaves the attributes alone |
| `WalkEnding.WalkEndsInTime` | tools/validate-upgrade-path/main.go:255-279 | the walk ends if and only if it has ended within as many steps as the channel has releases |
| `WalkEnding.OneStepLess` | tools/validate-upgrade-path/main.go:255-279 | a step of a walk that ends leaves one step less to the same end |
| `WalkEnding.StepsBound` | tools/validate-upgrade-path/main.go:255-279 | a walk that ends has fewer steps left than there are releases |
| `WalkEnding.WalkEndsAtHead` | pkg/updates/memory.go:108-127 | on an accepted channel the walk towards the head ends there |
| `WalkEnding.WalkEndsAtPin` | pkg/updates/memory.go:68-106 | with forward edges and older releases that keep their updates the walk towards a pin ends there |
| `WalkEnding.ForwardWalkEnds` | tools/validate-upgrade-path/main.go:255-279 | with forward edges every walk ends |
| `WalkEnding.WalkNeverEnds` | tools/validate-upgrade-path/main.go:255-279 | an accepted channel on which the walk towards a release goes back and forth for ever |
| `UpgradePath.ValidateUpgrade` | tools/validate-upgrade-path/main.go:218-292 | whenever the walk ends the verdict is right: a supported path is the pinned run up to the target with the number of its migrations, and unsupported means the target is never met |
| `UpgradePath.CountMigrations` | tools/validate-upgrade-path/main.go:287-292 | the number of steps of the path that change the migration or the phase |
| `UpgradePath.ToolPredictsOperator` | tools/validate-upgrade-path/main.go:239-292 | a cluster pinned at the target records exactly the releases of a supported path and then stays; it never gets there when the tool says so |
| `EdgeGenerator.EdgesFromPatterns` | tools/generate-update-graph/main.go:552-572 | a key for each pattern with a match, and under it a sorted arrangement of exactly the matching releases |
| `EdgeGenerator.SortByRank` | tools/generate-update-graph/main.go:565-569 | sorts: ascending and a permutation |
| `EdgeGenerator.GeneratedExactly` | tools/generate-update-graph/main.go:552-572 | an edge is generated if and only if the range of its start admits a release that is not deprecated |
| `EdgeGenerator.GeneratedEdgesAreSafe` | tools/generate-update-graph/main.go:552-572 | no edge enters a deprecated release, every edge goes to a newer one, the greedy successor is the newest match |
| `EdgeGenerator.GeneratorFeedsValidator` | tools/generate-update-graph/main.go:552-572 | the generated channel is accepted if and only if there are two releases and each but the head matches a release that is not deprecated |
| `EdgeGenerator.GeneratedShape` | tools/generate-update-graph/main.go:552-572 | the accepted source has forward edges, listed from oldest to newest |
| `GraphDifference.Difference` | pkg/updates/file.go:371-436 | panics exactly when a kept edge touches an unknown node; otherwise each channel contributes what each match lacks, or itself without a match |
| `GraphDifference.DiffMatch` | pkg/updates/file.go:379-427 | against one match: exactly the edges it lacks, the nodes they touch, nothing when nothing is left |
| `GraphDifference.EdgesConserved` | pkg/updates/file.go:371-436 | with distinct identities each edge of a channel is in exactly one of the difference and the other graph |
| `GraphDifference.SelfDifference` | pkg/updates/file.go:35-42 | a graph minus itself is empty if and only if every channel carries metadata |
| `NodeRemoval.DeleteAt` | pkg/updates/file.go:65 | deleting from a slice moves the tail left in the shared array and zeroes the freed place |
| `NodeRemoval.SweepSlice` | pkg/updates/file.go:63-67 | ranging over the old header while deleting from the live one leaves the swept list, and panics exactly when an empty name is removed that stands before the last place |
| `NodeRemoval.SweepIsExact` | pkg/updates/file.go:63-67 | the sweep removes every occurrence if and only if no two are adjacent |
| `NodeRemoval.AdjacentSurvives` | pkg/updates/file.go:63-67 | of two adjacent occurrences one survives |
| `NodeRemoval.EdgeMap.RemoveEdges` | pkg/updates/file.go:60-68 | one release goes from the shared edge map in place: its own list is dropped and all others are swept, in the same arrays, or the sweep of one of them panics |
| `NodeRemoval.RemoveNodes` | pkg/updates/file.go:58-78 | the whole removal in place: edges and nodes of the channel become those left after each release in turn, and it panics exactly when a sweep on the way does |
| `NodeRemoval.NamedNeverOverruns` | pkg/updates/file.go:58-78 | removing releases with a name never panics |
| `NodeRemoval.RemovalIsRestriction` | pkg/updates/file.go:56-78 | removing members of a duplicate-free channel leaves exactly the other nodes, in order, and the edges among them, in order |
| `NodeRemoval.Clone` | pkg/updates/file.go:44-54 | equal contents in a new map, new edge lists and a new node array |
| `NodeRemoval.RemoveFromClone` | pkg/updates/file.go:44-78 | removing from a clone leaves every array and the map of the original unchanged |
| `SchemaCache.DescribedGvks` | pkg/config/patchmeta.go:112-142 | the kinds the extension names, and no others: of a list every entry that has a kind, of one object its own |
| `SchemaCache.Load` | pkg/config/patchmeta.go:92-110 | an index with an entry for exactly the described kinds, each a schema that describes it; the errors of the fetch |
| `SchemaCache.ReachableInv` | pkg/config/patchmeta.go:62-73 | the invariant of map, entries, mutex and lookups over every interleaving |
| `SchemaCache.EntriesAreNeverReplaced` | pkg/config/patchmeta.go:62-73 | no action replaces a map entry, changes a loaded entry or forgets a fetch |
| `SchemaCache.OneFetchForAll` | pkg/config/patchmeta.go:50-73 | in every interleaving each group-version is fetched at most once, failures included, an entry is read only after its load, and each answer is that of a linear scan of the one response |
| `SchemaCache.LookupsAgree` | pkg/config/patchmeta.go:50-60 | finished lookups of one kind have one answer |
| `Credentials.ValidateSpec` | pkg/controller/validate_spec.go:27-81 | which fault is found, for each of them: a secret name beside credentials, and else the first of the three references that is active and has no secret name |
| `Credentials.ResolveCredentials` | pkg/config/config.go:311-396 | every kind of error, exactly when a reference, secret or key is missing that the engine needs; without one, each reference by name: its own secret, its own key or the default of that reference, and the migration secret of the datastore if it has none of its own |
| `Credentials.ResolvedMeaning` | pkg/config/config.go:311-396 | the same of the references the hash is proved about |
| `Credentials.CredErrorsMeaning` | pkg/config/config.go:311-396 | the same of the errors |
| `Credentials.CollectCredKeys` | pkg/controller/config_change.go:27-68 | the pairs of secret and key that are hashed, in order |
| `Credentials.HashedKeysAreResolved` | pkg/controller/config_change.go:32-68 | for every spec that resolves, the hashed pairs are exactly the resolved references that are not skipped |
| `Credentials.CredentialSecretNames` | pkg/controller/controller.go:415-436 | the distinct named secrets of the hashed pairs |
| `Credentials.ResolvedSecretsAreWatched` | pkg/controller/controller.go:415-436 | every resolved secret is watched if and only if active references are named, which the spec check ensures |
| `Credentials.UnnamedRefIsNotWatched` | pkg/config/config.go:384-395 | a spec that resolves with a reference nobody watches |
| `Credentials.SortCredKeys` | pkg/controller/config_change.go:70-76 | sorts by secret and key: ordered and a permutation |
| `Credentials.ComputeHashData` | pkg/controller/config_change.go:70-94 | the sorted pairs whose secret exists, with their values, missing ones empty |
| `Credentials.HashTracksReferencedValues` | pkg/controller/config_change.go:27-94 | the hash changes if and only if a referenced value does; other keys and secrets have no effect |
| `Credentials.HashIgnoresCollectionOrder` | pkg/controller/config_change.go:70-94 | the order of collection does not matter |
| `Cluster.NewConfig` | pkg/config/config.go:262-290 | the configuration for the computed target, with the rollout flag taken from the status, or all errors |
| `Cluster.CheckConfig` | pkg/config/config.go:267-290 | every error is there exactly when its cause is, and all are collected; otherwise the image is the base image with the digest of the release or else its tag, and migration, phase and version are those of the target |
| `Cluster.StatusEqualsItself` | pkg/apis/authzed/v1alpha1/types.go:204-222 | a status equals itself if and only if its current and target hashes are equal |
| `Cluster.FindJobCondition` | pkg/controller/wait_for_migrations.go:52-63 | none without a condition of the kind, and otherwise the one that no condition of the kind precedes |
| `Handlers.Reconciler.Handle` | pkg/controller/controller.go:266-293 | the chain attempts exactly the writes of the plan, in order, up to the one that is refused, with the outcome of the plan or a requeue |
| `Handlers.Reconciler.CheckSpec` | pkg/controller/validate_spec.go:27-81 | a faulty spec is recorded, once, and stops the chain before anything else is written |
| `Handlers.Reconciler.NoticeConfigChange` | pkg/controller/config_change.go:95-119 | a changed generation, secret hash or missing secret is recorded before anything else, without a resource version |
| `Handlers.Reconciler.ValidateConfig` | pkg/controller/validate_config.go:27-99 | reports the errors, requeues without a source, or records the computed status and goes on |
| `Handlers.Reconciler.DispatchMigrations` | pkg/controller/check_migrations.go:33-81 | deploys when exempt or stamped, waits for a job, or starts one |
| `Handlers.Reconciler.StartMigration` | pkg/controller/run_migration.go:25-82 | sets Migrating, applies the missing job, deletes every job of another hash, requeues or waits |
| `Handlers.Reconciler.AwaitMigration` | pkg/controller/wait_for_migrations.go:26-50 | attempts the writes of the plan for a job that is there, which `PlanMeaning.WaitMeaning` tells from the conditions of the job |
| `Handlers.Reconciler.EnsureDeployment` | pkg/controller/ensure_deployment.go:29-119 | records the end of the migration, then applies, waits or rolls out |
| `Handlers.Reconciler.AwaitRollout` | pkg/controller/ensure_deployment.go:121-176 | attempts the writes of the plan for a rollout, which `PlanMeaning.RollMeaning` and `PlanMeaning.PodFailureMeaning` tell from the counts of the deployment and its pods |
| `Handlers.Reconciler.CleanUpJobs` | pkg/controller/cleanup_job.go:24-78 | deletes completed jobs of the deployed hash, then orphaned pods until one of a listed job is met |
| `Handlers.FindPodFailure` | pkg/controller/ensure_deployment.go:128-140 | the message of the first terminated container of the first pod that has one |
| `Handlers.SplitJobs` | pkg/controller/run_migration.go:39-51 | finds the first job of the hash and names the others, an unannotated one twice |
| `Handlers.SplitDeployments` | pkg/controller/ensure_deployment.go:54-66 | the deployments of the rendered hash and the names of the others |
| `PlanMeaning.NoticeMeaning` | pkg/controller/config_change.go:95-119 | a reconcile starts with a notice exactly if the generation, the secret hash or a missing secret tells of a change, and the notice records it, sets Validating and leaves every other condition |
| `PlanMeaning.FaultMeaning` | pkg/controller/validate_spec.go:27-81 | a faulty spec is all a reconcile reports, and only if it has not been reported |
| `PlanMeaning.RejectMeaning` | pkg/controller/validate_config.go:33-50 | a failed validation is written exactly if it is not recorded yet, ends Validating and asks for no repetition |
| `PlanMeaning.InvalidIsReportedOnce` | pkg/controller/validate_config.go:33-50 | with the report of an invalid configuration recorded, the next reconcile writes nothing |
| `PlanMeaning.UnknownUpdatesMeaning` | pkg/controller/validate_config.go:72-78 | without a source for the version of the target nothing but the notice is written, and the reconcile is repeated |
| `PlanMeaning.ForcedImageIsRecorded` | pkg/controller/validate_config.go:61-94 | a forced image takes the place of the recorded version, and no updates are advertised with it |
| `PlanMeaning.ReadyMeaning` | pkg/controller/check_migrations.go:33-81 | with migrations switched off, a datastore in memory, a version without the mark or a deployment of the hash, the deployment is next |
| `PlanMeaning.RunMeaning` | pkg/controller/run_migration.go:25-82 | else, without a job of the hash, the status says which migration runs, the job is applied, and all other writes delete jobs |
| `PlanMeaning.WaitMeaning` | pkg/controller/wait_for_migrations.go:26-50 | else the first job of the hash decides: failed, the one write pauses the cluster, with Migrating false and the message of the job, and nothing is repeated; completed, the deployment is next; otherwise nothing is written and it is waited for |
| `PlanMeaning.JobIsAppliedExactly` | pkg/controller/check_migrations.go:33-81 | a job is applied if and only if it is that of the configuration, one is needed, and neither a job nor a deployment of the hash is in view |
| `PlanMeaning.ExemptStartsNoJob` | pkg/controller/check_migrations.go:53-63 | a reconcile for a configuration that needs no migration applies no job, whatever it reads |
| `PlanMeaning.RenderMeaning` | pkg/config/config.go:1004-1030 | the rendered deployment carries image, migration, replicas and version of the configuration, the secret hash, and its migration hash unless migrations are skipped |
| `PlanMeaning.DeployMeaning` | pkg/controller/ensure_deployment.go:29-43 | the end of a migration is recorded first, exactly if there is one to record: current hash the target, no Migrating, Rolling set |
| `PlanMeaning.ApplyMeaning` | pkg/controller/ensure_deployment.go:83-119 | without a deployment of the rendered hash it is applied, a refusal is told, and the end of a former refusal, too |
| `PlanMeaning.ReplaceMeaning` | pkg/controller/ensure_deployment.go:54-81 | with exactly one, every other is deleted and no other write comes before its rollout is looked at |
| `PlanMeaning.AmbiguousMeaning` | pkg/controller/ensure_deployment.go:54-119 | with more than one nothing is written, and the reconcile is repeated |
| `PlanMeaning.RollMeaning` | pkg/controller/ensure_deployment.go:121-203 | without a failing pod a rollout is reported, with its counts, and waited for if and only if the latest generation is not observed, or updated, total and available replicas are not all the number the deployment asks for, or else the configured one; otherwise Rolling and RolloutError are cleared, exactly if one of them is set |
| `PlanMeaning.PodFailureMeaning` | pkg/controller/ensure_deployment.go:121-141 | the message of the first terminated container of the first pod with one is all that is written |
| `PlanMeaning.CleanUpMeaning` | pkg/controller/cleanup_job.go:24-78 | a job is deleted if and only if it carries the migration hash of the deployment and its first condition of completion holds; the reconcile is repeated exactly if a pod belongs to a listed job |
| `PlanMeaning.RolloutEndsWhenDone` | pkg/controller/ensure_deployment.go:143-176 | no write of a whole reconcile takes Rolling back unless a deployment rendered from its configuration is in view whose replicas all run |
| `Cleanup.OtherJobsAreDeleted` | pkg/controller/run_migration.go:39-71 | starting a migration deletes a job if and only if it carries another hash or none |
| `Cleanup.ReplacedExactly` | pkg/controller/ensure_deployment.go:54-81 | the deployments to delete are exactly those not rendered from the configuration |
| `Cleanup.SpentJobsAreDeleted` | pkg/controller/cleanup_job.go:33-51 | cleanup deletes a job if and only if it completed the migration the deployment carries |
| `Cleanup.OrphansAreDeleted` | pkg/controller/cleanup_job.go:53-77 | a pod of a listed job asks for another go; without one exactly the orphaned pods are deleted |
| `MigrationSafety.PlanStamps` | pkg/controller/check_migrations.go:33-81 | a plan stamps a hash only with a deployment of that hash, a succeeded job of it, or an exemption of its configuration in view |
| `MigrationSafety.UnprovenRunsJob` | pkg/config/config.go:1004-1019 | without proof in view, and whatever deployments of skipped migrations exist, nothing is deployed, and the job is created exactly if it is missing and the cluster is neither paused nor faulty |
| `MigrationSafety.MigrationsPrecedeStamps` | pkg/controller/ensure_deployment.go:29-112 | over every run, also when the operator is reconfigured: a deployment carries a migration hash only if a job of that hash had succeeded or its configuration needs none |
| `OnRails.PlanStaysOnRails` | pkg/controller/validate_config.go:58-98 | every status a plan writes keeps the version or takes one edge of the wanted channel, the latter only if nothing migrates, nothing rolls out and the hashes are equal |
| `OnRails.UpdatesStayOnRails` | pkg/controller/validate_config.go:58-98 | over every run, with stale caches and abandoned plans, each recorded version is that of a state some reconcile read or one edge further, the edge taken only if that state had nothing in progress |
| `OnRails.NothingIsSkipped` | pkg/updates/file.go:287-365 | on a fixed channel and over every run, however stale the reads, a release that cuts the first recorded release from a later one has been recorded by then |
| `OnRails.NothingIsSkippedAnywhere` | pkg/updates/file.go:287-365 | the same for the whole graph when users switch channels |
| `OnRails.MarkNeverLeaves` | pkg/updates/file.go:344-364 | over every run, also with forced images and a reconfigured operator, a cluster that carries the Migration mark never records a version without it |
| `EdgeByEdge.PlanSwitchesOnce` | pkg/controller/validate_config.go:58-98 | the statuses of a plan carry the version read and, from one write on, that of the target |
| `EdgeByEdge.ChangesFollowEdges` | pkg/controller/client.go:13-25 | over every run, however stale the reads and wherever reconciles are cut short: every change of the recorded version, from one state to the next, follows one edge from that very state, with nothing migrating, nothing rolling out and equal hashes, if and only if each notice carried out is one step at most from the version recorded last |
| `EdgeByEdge.NothingIsSkippedBetween` | pkg/updates/file.go:287-365 | then, on a fixed channel, a release that cuts one recorded release from a later one has been recorded between them |
| `EdgeByEdge.NothingIsSkippedBetweenAnywhere` | pkg/updates/file.go:287-365 | the same for the whole graph when users switch channels |
| `SingleMigration.PlanIsCareful` | pkg/controller/cleanup_job.go:24-51 | a plan creates only the job of its target and only without the stamp in view, and deletes jobs only when obsolete or spent on a rendered deployment |
| `SingleMigration.JobIsCreatedOnce` | pkg/controller/cleanup_job.go:24-51 | while a hash stays the target its job is created at most once; its deletion is planned only with the stamp in the cache, and with the stamp in the cache it is not applied again |
| `SingleMigration.StampStaysInCache` | pkg/controller/ensure_deployment.go:68-119 | once the cache shows the stamp it goes on showing it |
| `Progress.StatusTellsConfig` | pkg/controller/validate_config.go:58-94 | written or found equal, the status tells the hash, image, migration, phase, version and updates of the configuration, the warning is set exactly if the spec calls for one, validation is over, and hashes and conditions of the rollout are as they were |
| `Acceptance.CheckEffect` | pkg/controller/check_migrations.go:33-81 | from the migration check on, what the API server accepts of a reconcile with fresh caches ends the stage it finds unless it has to wait, and loses none, whatever pods have failed and whether or not the deployment is accepted |
| `Acceptance.DeployEffect` | pkg/controller/ensure_deployment.go:29-177 | a deployment step applies a missing deployment, waits or reports a failed pod, or records the end of the migration or else of the rollout, though only its first change of the status is accepted |
| `Acceptance.PlanEffect` | pkg/controller/client.go:13-25 | of a reconcile with fresh caches the API server accepts the notice of a change and no more; or else the configuration is recorded, and if it was before, the stage moves on |
| `TargetProperties.UnpinnedTarget` | pkg/updates/file.go:315-365 | without a pin the target is the current release while rolling or without a next one, else its greedy successor |
| `TargetProperties.PinnedTargetInFull` | pkg/updates/file.go:315-365 | with a pin, rolling or not, the target with all its marks is that of the channel re-rooted at the pin, and the pin itself is kept |
| `Progress.WaitEffect` | pkg/controller/wait_for_migrations.go:41-49 | while a job or a rollout is under way no stage is lost |
| `Progress.ToldStays` | pkg/controller/validate_config.go:58-94 | once the status tells of the configuration, progress of migrations and rollouts does not make it differ again |
| `Interruption.CheckSteady` | pkg/controller/check_migrations.go:33-81 | after each write from the migration check on, no stage has been lost |
| `Interruption.CutPlan` | pkg/controller/controller.go:266-293 | wherever a reconcile is cut short by a refused write, nothing has changed, the change has been noticed, or its configuration is recorded, and no stage of it has been lost |
| `Convergence.WantedTarget` | pkg/updates/file.go:315-365 | an unhindered cluster, pinned or not, moves to the next release of its walk, and to its own while rolling |
| `Convergence.RoundProgress` | pkg/controller/run_migration.go:25-82 | the measure of seven for every update left, the stage of the recorded version and the statuses to be written before never rises in a round, cut short or not, with failed pods or a refused deployment, and drops, down to zero, in each round after which there is nothing to wait for, also when the lock of the operator has cut it short |
| `Convergence.ClusterConverges` | pkg/controller/ensure_deployment.go:31-176 | a cluster whose walk ends runs the release at its end: its one deployment is rendered with base image, digest or tag, migration, secret hash and replicas of that release and spec, and all its replicas are updated and available; hashes are equal, neither Migrating nor Rolling is set and no status is left to write; this once seven rounds that only the lock may have cut short have settled for every release and one more, however many are cut short, refused or spent waiting between them, and stays there |
| `Convergence.UnpinnedDestination` | pkg/updates/memory.go:108-127 | without a pin the walk on an accepted channel ends at the head |
| `Convergence.PinnedDestination` | pkg/updates/memory.go:68-106 | with a pin and forward edges the walk of an older release ends at the pin if older releases keep their updates |
| `Convergence.NewClusterStartsAtPin` | pkg/updates/file.go:355-364 | the first round of a new cluster, if it is not cut short before, notices it, and the next records its pin, or the head of its channel |
| `Convergence.HeadIsKept` | pkg/updates/file.go:344-351 | a quiet cluster at the head stays there if and only if the head leads nowhere else |
| `Convergence.RoundIsRun` | pkg/controller/controller.go:255-293 | a round, waiting or cut short or not, is a stretch of a run: begin, each write carried out, then jobs and deployments go on |
| `Feasibility.RoundIsPossible` | pkg/controller/controller.go:255-293 | from every world the convergence theorem starts from there is a round that only the lock may cut short, and that settles |
| `Feasibility.RoundMayStop` | pkg/controller/wait_for_migrations.go:48-49 | and, for every write that is accepted, one that is cut short after it and ends with everything still under way |
| `Feasibility.EndIsReachable` | pkg/controller/controller.go:266-293 | from every such world the operator has a run, event by event, that ends with the release at the end of the walk rolled out and nothing in progress |
| `Feasibility.ExampleCruises` | pkg/updates/file.go:110-118 | the hypotheses can be met: a cluster on the older of two releases of a channel |
| `Feasibility.HeadIsLeft` | pkg/updates/file.go:344-351 | an accepted channel whose head has an edge, and a quiet cluster that leaves it |
| `StaleReads.StaleReadIsLockedOut` | pkg/controller/client.go:13-25 | a reconcile that has read an old state changes the cluster if and only if it notices a change |
| `StaleReads.StaleNoticeGoesBack` | pkg/controller/config_change.go:95-112 | whatever is recorded by now, a reconcile that reads an old state and notices a change puts the version of that state back |
| `StaleReads.StaleNoticeKeepsLine` | pkg/controller/config_change.go:95-112 | that change keeps to a line of edges if and only if the release of the old state is the one recorded last or one edge from it |
| `StaleReads.StaleNoticeLeavesTheRails` | pkg/controller/config_change.go:95-112 | a run on a channel that only leads from v1 to v2 to v3 in which a changed secret takes the recorded version from v3 to v1 |
| `Stranded.StuckTarget` | pkg/updates/file.go:294-328 | the target of a cluster whose release is not in the wanted channel is the recorded version with one more attribute, rolling or not |
| `Stranded.HashIsNeverFound` | pkg/updates/file.go:294-328 | over every run, however stale the reads, a reconcile of a stranded cluster works towards a hash that is not the recorded one |
| `Stranded.OneWriteAtMost` | pkg/controller/client.go:13-25 | of a reconcile that has read a stranded cluster, now or long ago, one write at most is accepted, and it is to the status |
| `Stranded.StrandedNeverDeploys` | pkg/controller/run_migration.go:29-33 | over every run, however stale the reads and whatever others do to jobs and deployments, a stranded cluster, marked or not, stays stranded, and the operator applies no deployment, starts no job and does not pause it |
| `Stranded.EachAddsOne` | pkg/controller/validate_config.go:58-94 | each reconcile that reads the cluster as it is and gets past its checks records one more attribute |
| `Pausing.PausedIsNotReconciled` | pkg/controller/controller.go:266-293 | a reconcile that reads a paused cluster writes nothing and is not repeated |
| `Pausing.FailedMigrationPauses` | pkg/controller/wait_for_migrations.go:30-39 | what the API server accepts of a reconcile that finds its job failed leaves the cluster paused, with Migrating false and the message of the job, and the next reconcile writes nothing |
| `Pausing.PausedIsLeftAlone` | pkg/controller/client.go:13-25 | over every run, however stale the reads: while a cluster is paused no write that carries a resource version is accepted, and only a user resumes it |
| `Pausing.PausedUntilResumed` | pkg/controller/wait_for_migrations.go:30-39 | over every run, a cluster the operator has paused stays paused until a user resumes it |

## Left out

- Kubernetes clients, informers, server-side apply merging, events, queue timing and logging: writes and caches stand for them, and any write can be refused.
- Pause, self-pause and secret adoption handlers: their logic is in a library that is not part of this repository; a paused cluster stops the chain and a failed job pauses it; the status that adoption writes about a missing secret, which is not locked either, is not modelled.
- Service, role, service account and pod disruption budget handlers: they write nothing the results speak of.
- Rendering of the deployment beyond its hash, image, replicas and annotations, and patches to it: wide but shallow record building and thin calls into libraries.
- The configuration keys other than engine, image, replicas and skipMigrations: they enter as `settings`, `rendering`, `problem` and `warning`.
- The order of pods: the list of the pods of a deployment is taken as it is read; the source sorts a copy it does not use.
- Conditions are a map by type: their order, transition times and observed generations are not modelled.
- Semantic version parsing and hash functions: a total order by rank, an admission function and injectivity stand for them.
- The schema cache is a state machine over values: the mutex and the once are steps, not threads.
- UpgradePath.ValidateUpgrade: asks that the walk of the tool ends on the default channel, because there is no outcome otherwise; `WalkEnding.WalkEndsInTime` is the exact condition.
- NodeRemoval.RemoveNodes: asks for edge lists in arrays of their own, as channels decoded from JSON have them; a list that shares its array with another is not modelled.
- NodeRemoval.EdgeMap.RemoveEdges: asks for edge lists in arrays of their own, for the same reason.
- NodeRemoval.RemoveFromClone: asks for edge lists in arrays of their own, for the same reason.
- SingleMigration.JobIsCreatedOnce: assumes a deployment cache that only moves forward, jobs and deployments that no one else creates, deletes or relabels, and a target that stays.
- Convergence.ClusterConverges: assumes fresh caches in every round, no job that fails, and no finished rollout that comes undone; refused writes, refused deployments and failing pods are covered.
- Stranded.StrandedNeverDeploys: assumes that the spec stays, that reconciles read states with that spec, and that the running hash is not that of the release with more attributes than recorded.
- EdgeByEdge.NothingIsSkippedBetween: asks that notices carried out are in step; without it the property is false (`StaleReads.StaleNoticeLeavesTheRails`).
- EdgeByEdge.NothingIsSkippedBetweenAnywhere: asks for the same, for the same reason.
- The resource version of a cluster is the cluster itself: one that has been changed and changed back counts as the one that was read, so the results over all runs speak of a few more runs than there are.
- UpdateGraph.SourceForChannel: folds case in ASCII only, where the source folds Unicode.
- UpdateGraph.DefaultChannelForDatastore: folds case in ASCII only, where the source folds Unicode.
- UpdateGraph.FoldMeaning: speaks of ASCII letters, for the same reason.
- UpdateGraph.LookupIgnoresCase: speaks of ASCII letters, for the same reason.
- Cluster.NewConfig: keeps the other configuration keys and their errors as opaque fields, because parsing them only adds easy members.
- Cluster.CheckConfig: keeps the other configuration errors as one opaque field, for the same reason.
- Convergence.HeadIsKept: speaks of one quiet reconcile; a head with an edge to itself is kept, but outside the convergence theorem.
- The release tables of the generator, the end-to-end suite, the build files and the generated code.
