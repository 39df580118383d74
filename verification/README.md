# Collection, publication and export, verified

The exporter polls a fleet of PowerStore arrays, publishes one immutable snapshot per cycle, and
shows each snapshot on two export paths: a Prometheus scrape (pull) and OTLP gauges (push). While it
runs, a file watcher and SIGHUP may reload the configuration and swap the client pool. This project
is a Dafny model of that pipeline, and proves what it keeps. `dafny verify dfyconfig.toml` checks
everything.

## How the model is laid out

**Pools** (`Pools`, `PoolConservation`, `PoolAgreement`, `PoolHandover`, `PoolLifetime`, `PoolLedger`,
`PoolShutdown`, `PoolNames`, `PoolRace`, `PoolWitness`): start-up, any number of concurrent reloads, and shutdown, as a
state machine with one atomic step per critical section. `Servers` is the same code as a class whose
methods run undisturbed; start-up, reload and shutdown are shown to be runs of the machine.

**The running exporter** (`Cycle`, `Exporter`, `ExporterProofs`, `ExporterHistory`, `ExporterExports`,
`ExporterLifetime`, `ExporterWitness`): the pools together with the collection loop, the snapshot store and its readers, the
post-cycle hook and every other caller of `EnsureInstruments`. All theorems are about every run of that
machine.

**Index and export** (`Snapshots`, `Pull`, `PullProofs`, `SignatureProofs`, `Push`, `ExportParity`,
`Completeness`): a snapshot as an index over a flat list, the deduplicating scrape, the gauges, and exactly
when the two show the same.

**Derivations** (`Topologies`, `TopologyLookups`, `Inventories`, `Metrics`, `Blocks`, `PerEntity`, `Bulk`, `Parity`,
`Paths`, `Fields`, `ParityWitness`, `Alerts`, `Replication`, `Common`, `SharedFields`, `Clients`): the two metric
paths and what they share, their parity, one label schema per metric name, and which field of the input ends up
under which name and labels.

**Loops and configuration** (`Fanout`, `Pagination`, `EnvExpand`, `Configs`): the bounded fan-out under
every schedule, the page loop against any server list, the `${VAR:-default}` scanner, and the guarded
configuration swap.

Inputs from outside (files, HTTP answers, `ParseFloat`, `ParseBool`, which clients can be built, which names
the meter accepts, the order a Go map is ranged over) are parameters or free choices.

## What turned out not to hold

Each point names the exact condition and a concrete input or run.

- *Overlapping reloads.* `ReloadConfig` releases the server lock before it calls `SetClients`. The lists of
  server and collector agree exactly when the last swap has been followed by its own `SetClients` call and
  by no other one (`PoolHandover.PoolsAgreeIff`). From every state in which an overlap is about to happen,
  some schedule leaves the collector with closed clients only (`PoolRace.OverlapCanLosePool`), and such a
  state is reached (`PoolWitness.OverlapHappens`). ADR 0010 promises a hot reload without leaks or torn state.
- *Reloads around start-up and shutdown.* A pool stored before `startCollection` has stored its own, or after
  `stopCollection` took the current one, is never closed; otherwise everything is closed exactly once
  (`PoolShutdown.ShutdownClosesEverything`, and `FailedStartClosesIff` when start-up built no client;
  `PoolWitness.EarlyReloadLeaks`).
- *Failed rebuilds stick.* The configuration is swapped before `buildClients` can fail, so loading the same
  array set again is "no change" and the old clients stay (`PoolNames.FailedRebuildSticks`). With serial reloads
  the arrays served are the configured ones that could be created at the last build exactly when the run does not
  end after such a failure (`PoolNames.SerialReloadsTrackConfig`; `PoolWitness.FailedRebuildHappens`).
- *Shutdown against the loop.* The loop may pick a tick over its cancelled context. In every run a cycle begins
  with a closed client exactly when its list has been taken out of the server, by a reload or by shutdown, and
  whoever took it has closed a client since (`ExporterLifetime.CycleUsesClosedIffTaken`). Without misplaced or
  overlapping swaps: exactly when shutdown has closed one and no reload still has to call `SetClients`
  (`ExporterLifetime.CycleUsesClosedIff`, `ExporterWitness.LateCycleHappens`).
- *NUL in label values* can make a scrape hide a series (`SignatureProofs.NulCanHideSeries`); all tuples are
  shown exactly when signatures tell them apart (`PullProofs.AllTuplesEmittedIff`).
- *Parity of the two metric paths* needs unique ids in the CSV files, because only the per-entity path
  deduplicates, and rows that do not name an appliance for a volume of which the inventory lists none, because only the bulk
  path falls back to the row (`Paths.PathsAgreeIff`; `ParityWitness.RepeatedRowDiffers`, `FallbackDiffers`).
- *`passwordFile` and `insecureSkipVerify`.* With a password file the flag's reference is never looked at
  (`Configs.FlagHonouredIff`, `BadFlagAcceptedIff`; `FlagIgnored`).

## Model

| member | source | states |
|---|---|---|
| Pools.FlagsDescribeRun | main.go:289-346 | the history flags say exactly whether, somewhere in the run, a pool was stored outside start-up and shutdown, swapped into another reload's window, a reload began inside another, or the run ends after a reload without usable client and no later swap |
| Pools.BuildPoolNames | main.go:246-261 | the pool serves exactly the configured arrays whose client can be built, and is empty (an error) exactly when there is none |
| PoolConservation.ConservedStep | main.go:289-346 | every step keeps each client ever built in exactly one place: server list, closed, lost at start-up, or held by one goroutine |
| PoolConservation.NeverClosedTwice | main.go:313-317 | over every interleaving of start-up, any number of reloads and shutdown, no client is closed twice and only built clients are closed |
| PoolHandover.PoolsAgreeIff | main.go:304-312 | in every run, overlaps included: while the server is open both lists are equal if and only if the last pool swap has been followed by its own SetClients call and by no other one |
| PoolAgreement.PoolsAgree | main.go:304-312 | runs without swaps into a window: lists equal outside windows, and inside one the collector still has exactly the list to be retired |
| PoolAgreement.CollectorClientsAreOpen | main.go:304-317 | in such runs no client of the collector is closed or waiting to be closed |
| PoolShutdown.ShutdownClosesEverything | main.go:329-346 | when start-up, shutdown and all reloads are over, every client was closed exactly once if and only if no pool was stored before start-up ended or after shutdown began |
| PoolShutdown.FailedStartClosesIff | main.go:329-346 | when start-up built no client, everything reloads built is closed exactly once if and only if none stored its pool after shutdown began |
| PoolShutdown.CollectorLeftWithClosed | main.go:329-346 | after a well-placed shutdown the collector still holds a list, all of it closed |
| PoolLifetime.CollectorUsesClosedIff | main.go:329-346 | at every moment of a run without misplaced or overlapping swaps: the collector's list holds a closed client if and only if shutdown has closed one and no reload still has to call SetClients |
| PoolLedger.UsesClosedIffTaken | main.go:304-346 | in every run and at every moment of it: the collector's list holds a closed client if and only if that list was taken out of the server, by a reload or by shutdown, and whoever took it has closed a client since |
| PoolLifetime.HandedOverIsOpen | main.go:304-317 | overlaps included: while the server is open and the last swap has been handed over, no client of the collector is closed |
| PoolNames.SerialReloadsTrackConfig | main.go:289-312 | serial reloads between start-up and shutdown, at rest: both lists are equal, and they serve exactly the configured arrays that could be created at the last build if and only if the last array-set change could be built |
| PoolNames.InstalledAreDistinct | main.go:246-261 | whatever reloads do, no list the collector has ever held names one array twice |
| PoolNames.BuildPoolInOrder | main.go:246-261 | the clients come in the order of the configuration |
| PoolNames.FailedRebuildSticks | internal/models/safe_config.go:77-86 | after a rebuild that found no usable client, reloading the same names changes neither list |
| PoolRace.OverlapCanLosePool | main.go:304-317 | from every reachable state with one reload in its window and another ready to swap, a schedule leaves the collector with only closed clients the server no longer holds |
| PoolWitness.OverlapHappens | main.go:304-317 | a run of two overlapping reloads that ends that way |
| PoolWitness.EarlyReloadLeaks | main.go:202-206 | a run in which a reload ends before start-up stores its pool, and its client is never closed |
| PoolWitness.FailedRebuildHappens | main.go:298-302 | a run after which the server keeps serving an array that the configuration no longer has |
| Servers.Server.BuildClients | main.go:246-261 | the appending loop builds the specified pool, or fails when it is empty |
| Servers.Server.StartCollection | main.go:179-208 | the whole new state of a start-up |
| Servers.Server.ReloadConfig | main.go:289-326 | the whole new state of an undisturbed reload: unchanged when rejected, only the configuration when the set is the same or nothing can be built, else both lists swapped and the old clients closed |
| Servers.Server.StopCollection | main.go:329-346 | the whole new state of a shutdown: lists dropped, every current client closed in order |
| Servers.ReloadIsRun | main.go:289-326 | an undisturbed reload is a run of the protocol with the same effect |
| Servers.StartIsRun | main.go:179-208 | an undisturbed start-up that succeeds is a run of the protocol with the same effect |
| Servers.StopIsRun | main.go:329-346 | an undisturbed shutdown is a run of the protocol with the same effect |
| Cycle.CollectArray | internal/powerstore/collector.go:108-139 | one array's result: bulk only if capable, per-entity as fallback, the error and no samples otherwise |
| Cycle.Collected | internal/powerstore/collector.go:108-139 | in terms of the answers alone: bulk samples exactly when the array is capable and the bulk path succeeds, else up exactly when the per-entity path succeeds, with its samples or its error; the inventory error when that call fails |
| Cycle.CollectAll | internal/powerstore/collector.go:87-106 | in whatever order the goroutines finish, the snapshot is that of one result per client, result i from client i's answers alone |
| Cycle.EveryCycleExportsCleanly | internal/powerstore/prometheus.go:48-85 | for all answers: a scrape shows no series twice, and gauges and scrape show the same samples, equally often, if and only if no metric repeats a signature |
| Cycle.ArraysKeepTheirSeries | internal/powerstore/prometheus.go:65-76 | arrays with different NUL-free names never suppress each other's samples |
| Completeness.ScrapeIsComplete | internal/powerstore/prometheus.go:48-85 | with NUL-free values every series a cycle collects is in the scrape exactly once, with the value of its first sample |
| Completeness.ScrapeIsSound | internal/powerstore/prometheus.go:48-85 | nothing else is shown: every metric is some array's health, or a collected sample with its own name, labels and value |
| Completeness.UpIffDelivered | internal/powerstore/prometheus.go:51-60 | for each client of a cycle exactly one up metric, 1 if and only if it got its inventory and samples on one of the paths |
| Completeness.CycleNeverRepeats | internal/powerstore/prometheus.go:65-76 | with distinct NUL-free array names a cycle repeats no signature unless some array's own answer does |
| ExporterProofs.SnapshotsAreWhole | internal/powerstore/collector.go:65-106 | in every run each snapshot a reader loads is the seed or belongs to one installed list as a whole, and no reader goes back to an earlier one |
| ExporterHistory.LoadsAreFresh | internal/powerstore/snapshot.go:63-75 | in every run a reader gets the snapshot published last before its load, or the seed when there has been no publication |
| ExporterHistory.CyclePublishesItsAnswers | internal/powerstore/collector.go:87-106 | in every run what a cycle publishes is about the list the collector held when the cycle began, with one result per client, each from an answer that client gave during this cycle |
| ExporterHistory.HookRunsEveryCycle | internal/powerstore/collector.go:73-85 | once the hook is set it is run after every publication, before the next cycle begins |
| ExporterHistory.CoveredDescribesRun | internal/powerstore/collector.go:44-51 | the history flag says exactly whether a hook call has got to its end since the last publication |
| ExporterHistory.RegistrarCovers | internal/powerstore/otlp.go:71-95 | any other caller registers all names of the snapshot that was current when it loaded one, if the meter accepts those that are new |
| ExporterHistory.LoopOutlivesServer | internal/powerstore/collector.go:73-85 | the loop never ends before shutdown has begun |
| ExporterProofs.RegistrationsOnlyGrow | internal/powerstore/otlp.go:71-95 | in every run publications and registrations only grow, and no name ever gets two instruments, however hook and reloads race |
| ExporterProofs.HookCovers | internal/powerstore/collector.go:44-51 | after a hook call that succeeded every name of the current snapshot is registered, until the next publication |
| ExporterExports.CoveredExportsAgree | internal/powerstore/otlp.go:82-87 | in every run with well-labelled answers, once covered: no series twice, and push equals pull on the current snapshot if and only if no metric repeats a signature |
| ExporterExports.DistinctArraysExportEqually | internal/powerstore/otlp.go:82-87 | with NUL-free array names and no array repeating a series, push equals pull in every run |
| ExporterExports.UpTellsDelivery | internal/powerstore/prometheus.go:48-60 | in every run, of the snapshot published last: for each client of its cycle a scrape says once whether it is up, 1 exactly when the client delivered samples |
| ExporterLifetime.CycleUsesClosedIff | internal/powerstore/collector.go:73-101 | in every run without misplaced or overlapping swaps, shutdown included: some cycle has begun with a closed client if and only if one began after shutdown had closed a client and while no reload still had to call SetClients |
| ExporterLifetime.CycleUsesClosedIffTaken | internal/powerstore/collector.go:87-101 | in every run: some cycle has begun with a closed client if and only if some cycle began with a list that a reload or shutdown had taken out of the server and begun to close |
| ExporterLifetime.NoCycleUsesClosedClients | internal/powerstore/collector.go:87-101 | hence none before shutdown begins |
| ExporterLifetime.ShutdownCanLoseRace | internal/powerstore/collector.go:73-85 | after any well-placed shutdown a loop that has not ended can begin a cycle, and all its clients are closed |
| ExporterWitness.LateCycleHappens | internal/powerstore/collector.go:73-85 | a run in which it does |
| ExporterLifetime.PoolsRunAlone | internal/powerstore/collector.go:28-32 | collection, publication and registration never disturb the pools: every theorem about their runs carries over |
| Snapshots.BuildSnapshot | internal/powerstore/snapshot.go:26-45 | the maps answer as a linear search does: last result per array, order-preserving filter per name, each name once |
| Snapshots.PerArrayIsLast | internal/powerstore/snapshot.go:31-37 | an array is told by its last result, and one without a result is absent |
| Snapshots.AllSamplesConcat | internal/powerstore/snapshot.go:31-38 | samples come result by result, in order; a slot without a result has none |
| Snapshots.NothingLostByIndexing | internal/powerstore/snapshot.go:26-51 | reading all names gives back every collected sample exactly as often as it was collected |
| Snapshots.NamesAreTheOccurringOnes | internal/powerstore/snapshot.go:39-43 | the name list holds each occurring name once and no other |
| Snapshots.PerArrayAgreesWithIndex | internal/powerstore/snapshot.go:31-38 | with distinct array names the per-array view and the index hold the same samples in the same order |
| Pull.Collect | internal/powerstore/prometheus.go:48-85 | the loop emits the health metrics and, per name, the first sample of each signature under the first sample's label names |
| PullProofs.AllTuplesEmittedIff | internal/powerstore/prometheus.go:65-84 | every label tuple of a metric is emitted if and only if different tuples have different signatures |
| PullProofs.FirstSampleWins | internal/powerstore/prometheus.go:72-76 | an emitted tuple carries the value of the first sample that has it |
| PullProofs.NoTupleTwice | internal/powerstore/prometheus.go:72-76 | no metric ever emits one tuple twice, whatever the label values |
| SignatureProofs.JoinInjective | internal/powerstore/prometheus.go:71 | the NUL-join of equally many NUL-free values is injective |
| SignatureProofs.NulFreeIsFaithful | internal/powerstore/prometheus.go:69-76 | NUL-free samples of one metric have faithful signatures |
| SignatureProofs.NulCanHideSeries | internal/powerstore/prometheus.go:71 | two samples with a NUL inside a value, of which one is never shown |
| SignatureProofs.CollectNeverRepeats | internal/powerstore/prometheus.go:48-85 | a whole scrape, health metrics included, shows no series twice |
| SignatureProofs.HealthIsTold | internal/powerstore/prometheus.go:51-60 | the health metrics of a scrape are exactly: up and bulk capability of each array, and its scrape time if it is up and has one |
| Push.OTLPExporter.EnsureInstruments | internal/powerstore/otlp.go:71-95 | exactly the new names are created, in order, up to the first one the meter refuses |
| Push.EnsureSucceedsIff | internal/powerstore/otlp.go:76-94 | the pass succeeds if and only if the meter accepts every name that is new |
| Push.EnsureCreatesIff | internal/powerstore/otlp.go:76-94 | exactly the new names up to the first one the meter refuses are created |
| ExportParity.PushPullAgreeIff | internal/powerstore/otlp.go:82-87 | on one snapshot with all names registered, gauges and scrape show the same multiset if and only if no metric repeats a signature |
| Topologies.NewTopology | internal/powerstore/topology.go:35-100 | every index equals the linear search: last entry wins, volume-side membership overrides, empty group ids ignored, a volume's name for a group only fills a gap |
| Topologies.NoMembershipDangles | internal/powerstore/topology.go:76-92 | every group a volume is in has a name entry |
| Topologies.VolumeGroupOfIsSearch | internal/powerstore/topology.go:109-112 | id and name returned are those of the volume's own last statement, else of the groups' |
| Topologies.ResourceNameIsSearch | internal/powerstore/topology.go:134-150 | the name the inventory lists for that type of resource, else or when it is empty the id |
| TopologyLookups.VolumeInfoIsListed | internal/powerstore/topology.go:124-127 | name and appliance are those of the last volume with the id; an id that is not listed is unknown |
| TopologyLookups.ApplianceIsListed | internal/powerstore/topology.go:106-118 | name and service tag are those of the last appliance with the id, else empty |
| TopologyLookups.NasIsListed | internal/powerstore/topology.go:115 | the name is that of the last NAS server with the id, else empty |
| TopologyLookups.MembershipIsListed | internal/powerstore/topology.go:69-92 | a volume is in the group it names last, else in the last group that lists it, else in none |
| TopologyLookups.GroupNameIsListed | internal/powerstore/topology.go:69-92 | a group has the name of its last entry, and one that is not listed the first name a volume gives it |
| Inventories.GetTopology | internal/powerstore/client.go:143-231 | only the cluster call is fatal; other failures leave their list empty; each referenced appliance is fetched once |
| Inventories.TopologyIsServed | internal/powerstore/client.go:143-286 | every list is the one its own call answered, and empty when that call failed; the appliances are those served under an id that a volume or port names |
| Inventories.ApplianceNamesAreTheServers | internal/powerstore/client.go:236-286 | appliance names do not depend on the order of the queries |
| Metrics.VolumeLabels | internal/powerstore/metrics.go:28-37 | the labels have the family's keys in order and the arguments as their values, the array first (each other builder likewise) |
| PerEntity.DeriveVolumePerf | internal/powerstore/derive_perentity.go:13-36 | eight samples per volume from its newest response, volumes in any order |
| PerEntity.DeriveAppliancePerf | internal/powerstore/derive_perentity.go:39-57 | the same for appliance performance |
| PerEntity.DeriveApplianceSpace | internal/powerstore/derive_perentity.go:60-78 | the same for appliance space, an absent value reading as zero |
| PerEntity.LatestIsLast | internal/powerstore/derive_perentity.go:123-129 | each occurring id keeps its last item, and no other id is present |
| PerEntity.OneByOneIsAtOnce | internal/powerstore/perentity.go:16-35 | deriving answer by answer equals deriving all answers at once when no id is answered about twice |
| Fields.VolumesAreShown | internal/powerstore/derive_perentity.go:13-36 | of each reply the newest item about a volume is shown: each reading under its full metric name, with the labels of that volume |
| Fields.AppliancesAreShown | internal/powerstore/derive_perentity.go:39-57 | the same for appliance performance |
| Fields.SpacesAreShown | internal/powerstore/derive_perentity.go:60-78 | the same for appliance space, a missing amount as zero |
| Bulk.RowIsLastCell | internal/powerstore/bulk.go:148-170 | a row has exactly the columns its record reaches, and a repeated column keeps its last cell |
| Bulk.ParseCsv | internal/powerstore/bulk.go:148-170 | row k is record k + 1 under the header: exactly the columns for which the record has a cell, each with the last such cell; a file without lines has no rows |
| Bulk.CsvValue | internal/powerstore/derive_bulk.go:16-29 | the first column that is present, non-empty and parses decides; without one the value is zero |
| Bulk.CsvValueByCell | internal/powerstore/derive_bulk.go:16-29 | column by column: absent, empty and unparsable cells are passed over, and the next one decides |
| Bulk.CsvFloat | internal/powerstore/derive_bulk.go:16-29 | the loop with its early return computes that value |
| Bulk.DeriveBulkVolumePerf | internal/powerstore/derive_bulk.go:34-67 | eight samples per row in row order, with the appliance fallback |
| Bulk.DeriveBulkAppliancePerf | internal/powerstore/derive_bulk.go:71-89 | eight samples per row in row order |
| Bulk.DeriveBulkApplianceSpace | internal/powerstore/derive_bulk.go:93-111 | eight samples per row in row order |
| Fields.VolumeRowsAreShown | internal/powerstore/derive_bulk.go:34-67 | every record of the volume file is shown: each column under its full metric name, with the labels of that volume and the inventory's appliance or else the row's |
| Fields.ApplianceRowsAreShown | internal/powerstore/derive_bulk.go:71-89 | every record of the appliance performance file likewise |
| Fields.SpaceRowsAreShown | internal/powerstore/derive_bulk.go:93-111 | every record of the appliance space file likewise |
| Blocks.RenderAgreesIff | internal/powerstore/derive_bulk.go:31-33 | samples of distinct entities can be told apart again: two renderings are equal multisets if and only if their entities correspond |
| Parity.VolumeParityIff | internal/powerstore/derive_bulk.go:34-67 | bulk and per-entity volume samples are equal multisets if and only if the rows match the newest responses |
| Paths.ParseBulkArchive | internal/powerstore/bulk.go:119-146 | fails exactly when some file does not parse; otherwise the last file of each name |
| Paths.FileRowsOfLast | internal/powerstore/bulk.go:129-143 | a later file of one base name replaces an earlier one; a missing file has no rows |
| Paths.BulkMetrics | internal/powerstore/client.go:560-575 | fails exactly when download or parsing does; otherwise three families and the common part in order |
| Paths.PerEntityMetrics | internal/powerstore/perentity.go:13-40 | the same three families and the common part; a failed query contributes nothing |
| Paths.PathsAgreeIff | internal/powerstore/client.go:556-575 | metric parity: both whole paths give the same samples, equally often, if and only if each file holds the newest response of each answered entity, once, and nothing else, and no row names an appliance the inventory is silent about |
| ParityWitness.InputIsReal | internal/powerstore/perentity.go:16-35 | the inventory, indices and replies of these examples are ones the per-entity path can get |
| ParityWitness.AnswersYield | internal/powerstore/perentity.go:16-35 | and it yields samples for them |
| ParityWitness.SingleRowAgrees | internal/powerstore/derive_bulk.go:34-67 | one matching volume row, and the paths agree |
| ParityWitness.RepeatedRowDiffers | internal/powerstore/derive_bulk.go:39-62 | the same row twice, and they differ |
| ParityWitness.FallbackDiffers | internal/powerstore/derive_bulk.go:48-50 | a row that names an appliance for a volume that the inventory lists without one, and they differ |
| Paths.AskedEntitiesOnly | internal/powerstore/perentity.go:16-35 | no id is answered about twice if ids are unique and replies are about the entity asked for |
| Paths.SchemasAlwaysAgree | internal/powerstore/derive_bulk.go:31-33 | metric names with their label keys agree on both paths whatever rows and replies hold |
| Paths.PerEntityConforms | internal/powerstore/metrics.go:19-157 | every per-entity sample carries its family's label keys and the array's name |
| Paths.BulkConforms | internal/powerstore/metrics.go:19-157 | every bulk sample carries the very same ones |
| Common.CommonConforms | internal/powerstore/client.go:583-595 | so does every sample of the nine shared parts |
| Common.CommonMetrics | internal/powerstore/client.go:583-595 | the nine parts in order, fan-outs in item order |
| SharedFields.CommonIsTold | internal/powerstore/client.go:583-595 | the shared samples are exactly those told by file systems, ports, alerts, replication, performance answers, cluster space, drives and witnesses, each under its full name and labels |
| Clients.ClientReply | internal/powerstore/interface.go:7-20 | from what an array serves to what the collector gets: the inventory with all alerts, the bulk path over the whole archive, the per-entity path over one query per entity, each with the shared part; always well labelled |
| Alerts.DeriveAlerts | internal/powerstore/derive_alerts.go:17-45 | the five known severities first and always, then each other severity with an active alert, each once with its count |
| Alerts.AlertsConserved | internal/powerstore/derive_alerts.go:17-45 | the emitted values add up to the number of active alerts |
| Alerts.AlertsAreCounted | internal/powerstore/derive_alerts.go:17-45 | exactly one gauge for each documented severity and each other one with an active alert, saying how many alerts of it are active in whatever case the state is written |
| Alerts.AlertGauges | internal/powerstore/client.go:106-125 | end to end over all pages: every active alert of the server's list is counted, and a failing page drops all of them |
| Replication.ReplicatedVolumeResources | internal/powerstore/derive_replication.go:83-97 | the loop with its seen set yields the wanted ids at their first occurrences |
| Replication.FirstIds | internal/powerstore/derive_replication.go:83-97 | no id twice, and exactly the non-empty ids of volume sessions |
| Replication.IdsInFirstOrder | internal/powerstore/derive_replication.go:71-82 | the ids keep the order of their first sessions |
| Replication.TransfersNeverCollide | internal/powerstore/client.go:330-341 | for all sessions and answers no two transfer samples have the same name and labels |
| Replication.ReplicationMetrics | internal/powerstore/client.go:298-325 | a failed rule query costs the rules only, a failed session query sessions and transfers |
| Replication.ReplicationIsTold | internal/powerstore/derive_replication.go:23-97 | the samples are exactly those of the rules with a known objective, of the sessions with an id, and of the newest transfer answer about each replicated volume |
| Replication.RpoInSeconds | internal/powerstore/derive_replication.go:8-17 | the objectives in seconds, and none for an unknown one |
| Fanout.EverySchedule | internal/powerstore/client.go:384-404 | for every schedule: at most limit callbacks at once, the end after exactly two events per item, and then the sequential concatenation |
| Fanout.NeverStuckIff | internal/powerstore/client.go:384-404 | the fan-out can always go on if and only if the limit is at least one or there is nothing to do |
| Fanout.ParallelSamples | internal/powerstore/client.go:384-404 | under any scheduler the slots join to the sequential result |
| Configs.ConfiguredFanOutEnds | internal/models/config.go:280-294 | through configuration and constructor every client's limit is at least one, so its fan-outs never get stuck |
| Pagination.CollectPages | internal/powerstore/client.go:106-125 | the whole list in order after N/p + 1 requests, if and only if no request of those fails; no partial list otherwise |
| EnvExpand.MatchIsUnique | internal/utils/env.go:12 | at each position the pattern matches at most one length, and exactly when the scanner says so |
| EnvExpand.ScanPrint | internal/utils/env.go:12 | scanning the printed form of a canonical template gives the template back |
| EnvExpand.PrintScan | internal/utils/env.go:12 | printing what was scanned gives the text back |
| EnvExpand.ExpandEnv | internal/utils/env.go:27-48 | one pass from left to right computes what the text expands to; inserted text is never rescanned |
| EnvExpand.ExpandPrinted | internal/utils/env.go:27-48 | expanding a printed template gives exactly its meaning |
| EnvExpand.ExpandReference | internal/utils/env.go:29-44 | a reference expands to the value of a set, non-empty variable; else to its fallback; else to nothing if the variable is empty, and is an error if it is unset |
| EnvExpand.ExpandConcat | internal/utils/env.go:27-48 | text after text expands to expansion after expansion, and the errors of both are reported |
| EnvExpand.FallbackIgnored | internal/utils/env.go:33-36 | anywhere in a text, dropping or changing the fallback of a set, non-empty variable changes nothing |
| EnvExpand.FallbackTaken | internal/utils/env.go:37-39 | anywhere in a text, a reference to an unset or empty variable may be replaced by its own fallback |
| EnvExpand.FailsIff | internal/utils/env.go:27-48 | it fails if and only if some bare reference is to an unset variable |
| EnvExpand.ErrorListsUnset | internal/utils/env.go:40-46 | the error lists the bare references to unset variables, all of them and in the order they are written |
| EnvExpand.NameChars | internal/utils/env.go:12 | the character classes of the pattern |
| EnvExpand.SecretNeverBlank | internal/utils/env.go:58-72 | a credential comes out empty if and only if it was left out, and one without references is untouched |
| EnvExpand.SecretIsExpansion | internal/utils/env.go:58-72 | a credential is what its text expands to, and refused as empty exactly when something written comes out as nothing |
| Configs.ResolveSecrets | internal/utils/env.go:76-112 | in place: all entries resolved; or, on the first failure, those before it resolved, the failing one as far as it got, those after it untouched |
| Configs.ResolveEntry | internal/utils/env.go:78-109 | one entry, field by field, and what stays of it on an error |
| Configs.ResolvedArray | internal/utils/env.go:76-112 | resolution keeps names and limits and never blanks a credential |
| Configs.ResolvedFields | internal/utils/env.go:76-112 | each credential of a resolved entry is what its own text resolves to, or the password file's text; an entry fails with its first field that cannot be resolved |
| Configs.FlagIsParsed | internal/models/config.go:51-70 | a flag without text is left alone; text is expanded and parsed, and what it parses to, true or false, is kept |
| Configs.FlagHonouredIff | internal/utils/env.go:92-109 | for every accepted entry: the flag ends as its text resolves if and only if the password is not read from a file, or the flag already had that value |
| Configs.BadFlagAcceptedIff | internal/utils/env.go:92-109 | a flag whose text does not resolve is accepted if and only if the password is read from a file |
| Configs.FlagIgnored | internal/utils/env.go:92-99 | a password file beside a flag reference: accepted while unset, and false while set to true |
| Configs.ValidateArrays | internal/models/config.go:211-238 | accepts exactly the non-empty lists with distinct names and complete entries |
| Configs.NameSetsEqual | internal/models/safe_config.go:90-100 | size and one inclusion decide set equality |
| Configs.AcceptedIff | internal/models/safe_config.go:57-69 | resolution and validation together: a file is accepted if and only if it has entries with distinct names, each complete as written and with every reference and password file it uses resolving to something; resolution never renames an entry |
| Configs.SafeConfig.ReloadConfig | internal/models/safe_config.go:41-87 | replaced exactly by an accepted file, and a change is reported exactly when the name sets differ |
| Configs.LastAcceptedWins | internal/models/safe_config.go:41-87 | after any series of attempts the configuration is the one accepted last |
| Configs.AlwaysValid | internal/models/safe_config.go:41-87 | it is always valid, and untouched when every attempt was rejected |

## Left out

- HTTP, TLS, gzip and tar decoding, YAML, godotenv, fsnotify, signals, logging, tracing, health
  handlers, build info and the `--once` mode: their outcomes are inputs where they matter.
- Floating point: sample values are real numbers, so NaN, infinities and rounding are not modelled.
- Prometheus and OTel internals: `NewConstMetric` is an arity check (invalid UTF-8 or label names are
  not), an instrument is its name, and `attrsFor` is the list of labels.
- Wall-clock time: `LastScrape` is a number the client brings, and a timeout is a failed answer.
- Version detection for the bulk path and its cache: `bulkCapable` is an answer of the client. (ADR 0004
  places the detection at start-up; the code asks during a cycle and keeps the first answer.)
- The initial synchronous cycle is an ordinary cycle of the loop; the model also allows start-up to
  finish before it, and any number of `EnsureInstruments` callers, which is more than the code does.
- One push reads the store once per gauge, so gauges of different names may show different
  snapshots; push and pull are compared on one snapshot.
- `Server.otlp` is read by reloads without a lock; whether a reload sees it is left open by letting
  registrations happen at any time.
- ADR 0002 says a failed array keeps a stale snapshot; the code publishes it without samples, and so
  does the model.
- What a cycle already in progress does with clients a reload closes meanwhile: `Close` has no effect
  in the code, and the theorems are about the clients a cycle begins with.
- Common.ClusterSamples: the thin derivers (cluster space, drives, witness, volume-group and
  file-system performance) are functions on values, of which `SharedFields` says what they show.
- Common.CommonMetrics: `preferNonZero` and the choice of the last response belong to those thin
  derivers and are part of the answers given.
- Bulk.DeriveBulkVolumePerf: the count of rows unknown to the inventory is only logged and not modelled.
- Pagination.CollectPages: the four loops of client.go share one model; only the alert loop can see a nil response.
- Paths.PathsAgreeIff: assumes that no entity is answered about in two replies, as `AskedEntitiesOnly` gives; otherwise
  the per-entity path itself repeats series.
- PoolAgreement.PoolsAgree: one direction, for runs without overlap; `PoolHandover.PoolsAgreeIff` has the exact
  condition for every run.
- ExporterLifetime.CycleUsesClosedIff: about runs without misplaced or overlapping swaps; `CycleUsesClosedIffTaken`
  has the exact condition for every run.
- ExporterExports.CoveredExportsAgree: assumes that the run's answers are well labelled, which `Clients.ClientReply`
  gives for every client of the program.
- Configs.ValidateArrays: endpoint syntax, ports, intervals and the OTel sections are one input, `restValid`.
- A client that cannot be built is decided by its array's name, which is unique in a valid configuration.
- Overlapping reloads as a positive claim, and reloads before start-up has finished: stated as the conditions above.
