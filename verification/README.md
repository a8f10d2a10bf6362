# Buckle: correlation, replication and argument parsing, verified

Buckle watches sandboxed processes on an endpoint, stores what it sees in a local database and ships that
database to a report server. This project models three of its parts in Dafny and proves what they promise.

**The correlator** (`Events`, `Tables`, `Model`, `Handlers`, `Sinks`, `Correlator`) joins two independent
streams: process events (fork, exec, exit) and Sandbox denial lines. `Correlator.dfy` has its fields and methods
as the program has them: maps and lists that are updated in place, loops that walk parent and predecessor
pointers, lists compacted to their front. Each method is proved to have the effect of a function of `Model` or
`Handlers` on the state as a value, and `Correlators.Watch` ties a whole watch to a run of `Behaviour`, where an
arbitrary interleaving of calls and an arbitrary order of every map iteration is possible. The theorems are about
all such runs:

- `Invariant`, with `GraphInvariants`, `IndexInvariants`, `RoutingInvariants` and `BufferInvariants`: one
  invariant of the whole state that every operation keeps.
- `Conservation`, `Fates`, `Shutdown`: no count is lost or invented, rows and decided denials correspond one to
  one, decisions are final, and shutdown closes everything exactly once.
- `Routing`: a repeat report is only ever added to a row of the process its pid still refers to.
- `Membership`: sandbox-exec runs are the trees of nearest descendants over the recorded edges.
- `Decisions`: runs are inferred from denials only on complete evidence, and nothing waits too long.
- `Finality`, `Timeline`, `Settled`, `Attributions`: who a pid was at a settled time no longer changes, exactly
  when a later event still can change it, why eviction does not show, and whose row a stored denial gets.
- `Idle`, `Exits`, `Latecomers`, `Outliving`: when a run is marked exited, and exactly how an exited run can still run.
- `Links`: exactly which rows a process row names as its parent and its predecessor.
- `Witnesses`: runs that show where natural expectations fail.

`Traversal` carries any property that a single decision keeps through the visits of a tick and of shutdown, and
`Chains` says what no operation changes about an image.

**Replication** (`Wire`, `Endpoint`, `Revisions`, `Changes`, `References`, `Prune`, `Server`, `ServerLaws`,
`Protocol`, `Ship`). The endpoint stamps every written row with the next revision; a shipper reads the lowest
revisions above the server's cursor; the server merges them, the newest revision winning, and keeps references. The
model has the triggers with their guard, the limited reads and their merge, the cascades of pruning, the upsert
rule with SQLite's comparison of values, and the protocol as a step system in which batches are read from stale
cursors, delivered late, repeatedly, out of order or never.

**The argument parser** (`SandboxArgs`) is the option scanner for sandbox-exec's command line, proved against a
printer in both directions.

## Assumptions

- Writes to the sink succeed. The program's `Tick` returns early on a failed write and leaves a half-compacted
  list; that is not modelled.
- Properties of ordered streams say so: `Timeline.Ordered` is the assumption on one event, and it is needed only by
  `Timeline.EventTimely`, `Settled.ImagesRunInTurn`, `Settled.AttributionIsStable`, `Attributions.StoredWhereSettled`
  and `Attributions.StoredOnArrival`. `Finality.WatermarkIsFinal` needs only that event times do not decrease.
- That a run which was not adopted is exited once none of its images runs holds in every run of the model
  (`Idle.IdleRunsAreExited`). The converse is false. `Witnesses.LateForkRuns` is a run in which a fork is reported
  after the exit of its parent, and in `Witnesses.ExitedRunCanRun` every event comes in order, but a candidate joins
  the run of its root after that run has ended. `Outliving.ExitedRunsRunExactly` says in which states an exited run
  has a running image, `Outliving.EventOutlives` and `Latecomers.VisitOutlives` which events and which visits lead
  there, each by a condition on the state before. If only running processes fork and exec, sandbox-exec runs never get
  there (`Exits.RunsExitWithTheirLastImage`) and others only by such visits (`Latecomers.ExitedRunsRunOnByLateJoins`).
- The claim that rows name the parent and the predecessor of their image if these are in the same run is false for
  adopted runs (`Witnesses.AdoptedParentCanBeMissing`). `Links.RowLinksAreExact` gives the exact condition for runs of
  every kind, and `Links.RowLinksAreComplete` shows that only adopted runs can miss a link.
- The claim that a settled resolution is final for any event is false: `Witnesses.SettledTimeCanChange` is a run, in
  order, in which the first event of a process that predates the watch changes it. `Finality.WatermarkIsFinal` gives
  the exact condition.
- Row ids may be reused after pruning. The replication theorems hold regardless: a reused key is a row with a new
  revision.

## Model

| member | source | states |
|---|---|---|
| Correlators.Correlator.HandleES | internal/correlate/correlator.go:167-180 | raises the watermark and dispatches; the whole new state is that of `Handlers.HandleES` |
| Correlators.Correlator.HandleFork | internal/correlate/correlator.go:182-195 | tracks the actor, sees both processes, registers the child with its parent's arguments and joins the parent's run |
| Correlators.Correlator.HandleExec | internal/correlate/correlator.go:197-222 | registers the new image with its predecessor, joins it before the old one ends |
| Correlators.Correlator.HandleExit | internal/correlate/correlator.go:224-231 | ends a tracked image with its exit status; unknown tokens change nothing |
| Correlators.Correlator.StartSandboxExecRun | internal/correlate/correlator.go:233-284 | captures the profile by source, detects a session and creates the run row |
| Correlators.Correlator.ImageFor | internal/correlate/correlator.go:286-295 | finds or starts tracking an actor |
| Correlators.Correlator.Register | internal/correlate/correlator.go:297-305 | adds an image to both indexes, the list staying sorted by start |
| IndexInvariants.InsertPoint | internal/correlate/correlator.go:301-304 | the sort is stable: a new image goes behind every image that does not start later |
| Correlators.Correlator.MarkSeen | internal/correlate/correlator.go:307-316 | a changed pidversion drops exactly that pid's orphan routes |
| Correlators.Correlator.IsCurrent | internal/correlate/correlator.go:318-331 | the predecessor walk decides membership in the exec chain of the pid's newest image, and ends |
| Correlators.Correlator.Join | internal/correlate/correlator.go:333-379 | writes one process row, once per image, and keeps live set and last end |
| Correlators.Correlator.EndImage | internal/correlate/correlator.go:381-398 | ends an image at most once and then decides whether its run ends |
| Correlators.Correlator.MaybeEndRun | internal/correlate/correlator.go:400-409 | ends a run that has no live member, except adopted ones, at its last end |
| Correlators.Correlator.Resolve | internal/correlate/correlator.go:411-425 | the backward scan finds the image that was the pid at a time |
| Correlators.Correlator.HandleDenial | internal/correlate/correlator.go:427-456 | routes a repeat to a buffered denial, a denial row or an orphan row, in this order |
| Correlators.Correlator.Take | internal/correlate/correlator.go:444-455 | attributes a new denial at once if process events are complete, otherwise buffers it |
| Correlators.Correlator.Attribute | internal/correlate/correlator.go:458-497 | writes the denial row, remembers the route, attaches a session once |
| Correlators.Correlator.SetPending | internal/correlate/correlator.go:503-509 | stores a list or forgets an empty one |
| Correlators.Correlator.TickOne | internal/correlate/correlator.go:522-547 | the four-way decision on one buffered denial |
| Correlators.Correlator.Compact | internal/correlate/correlator.go:519-549 | the list is compacted in place: whatever relation each visit keeps between the denials visited, the state and those kept holds for the whole list |
| Correlators.Correlator.TickList | internal/correlate/correlator.go:519-549 | visiting a pid's list keeps exactly the undecided denials, in order |
| Correlators.Correlator.Tick | internal/correlate/correlator.go:518-553 | all pids in some order, then eviction; the order is returned |
| Correlators.Correlator.Finalize | internal/correlate/correlator.go:557-613 | attribute, adopt, candidate, orphan or drop, in this order |
| Correlators.Correlator.StoreOrphan | internal/correlate/correlator.go:588-612 | an orphan row for a pid that was seen, remembered by key and pid |
| Correlators.Correlator.Adopt | internal/correlate/correlator.go:615-641 | one adopted run per detector kind and tag |
| Correlators.Correlator.Eligible | internal/correlate/candidate.go:12-25 | the fork-chain walk decides whether an image may be a sandbox_init user |
| Correlators.Correlator.ForkChain | internal/correlate/candidate.go:33-41 | the path up to the exec'd root, which exists because the image is eligible |
| Correlators.Correlator.AppSandboxed | internal/correlate/candidate.go:44-57 | the entitlement check runs at most once per key; a failed check counts as no |
| Correlators.Correlator.CandidateRun | internal/correlate/candidate.go:29-81 | joins the chain root first to the root's run, created if needed, and yields a run exactly for candidates |
| Correlators.Correlator.EvictImages | internal/correlate/correlator.go:643-653 | deletes from `images` exactly the images that ended before the cutoff |
| Correlators.Correlator.EvictPid | internal/correlate/correlator.go:654-672 | compacts one pid's list in place and forgets the routes to released images |
| Correlators.Correlator.Evict | internal/correlate/correlator.go:643-673 | retention, cutoff and both indexes, in any order of pids |
| Correlators.Correlator.Shutdown | internal/correlate/correlator.go:675-700 | finalizes every buffered denial and closes open runs and processes |
| Correlators.Watch | internal/correlate/correlator.go:1-5 | a watch from construction to shutdown goes through the states of one run of the model |
| Sinks.Sink.EnsureSession | internal/store/write.go:131-140 | finds or creates a session and widens its seen interval |
| Sinks.Sink.SetRunSession | internal/store/write.go:185-190 | attaches a session only to a run that has none |
| Sinks.Sink.EndRun | internal/store/write.go:192-196 | final status and end; an unknown end is NULL |
| Sinks.Sink.InsertProcess | internal/store/write.go:198-212 | a fresh row id |
| Sinks.Sink.EndProcess | internal/store/write.go:214-219 | end, reason and exit status of one row |
| Sinks.Sink.AddDenialCount | internal/store/write.go:231-234 | adds to one row's count |
| Behaviour.InvHolds | internal/correlate/correlator.go:118-140 | the invariant of all fields holds in every state of every run, for any order of map iteration |
| Behaviour.RowGraphIsForest | internal/correlate/correlator.go:334-379 | parent and exec-prev ids name strictly earlier rows of the same run, the rows of the image's own parent and predecessor; denial rows name a process row of their run and pid |
| Links.RowLinksAreExact | internal/correlate/correlator.go:355-360 | in a run of any kind, a row names the row of its image's parent, and of its predecessor, exactly if that image joined the run before |
| Links.RowLinksAreComplete | internal/correlate/correlator.go:334-363 | in a run that was not adopted, being in the run is enough: nobody joins it after an image that it forked or exec'd |
| Witnesses.AdoptedParentCanBeMissing | internal/correlate/correlator.go:615-641 | a run, in order, in which a parent is adopted after its child, whose row then names no parent although both are in the same adopted run |
| Behaviour.IndexesAgree | internal/correlate/correlator.go:297-305 | an image is found by token exactly if it is listed under its pid |
| Conservation.CountsAreConserved | internal/correlate/correlator.go:428-497 | for every set of keys, counts in rows, buffered and dropped add up to the weights handled |
| Conservation.RouteHasKey | internal/correlate/correlator.go:431-443 | a repeat is only routed to a denial or row with its own key |
| Fates.RowsMatchDenials | internal/correlate/correlator.go:458-497 | denial and orphan rows correspond one to one to the denials stored and orphaned, field by field |
| Fates.DecisionsAreFinal | internal/correlate/correlator.go:518-613 | each denial is decided at most once and its fate never changes |
| Shutdown.ShutdownCompletes | internal/correlate/correlator.go:675-700 | after shutdown nothing is buffered, every run and process row is ended exactly once, and all counts are in rows or dropped |
| Shutdown.CloseRunsCloses | internal/correlate/correlator.go:685-698 | runs already ended keep their end; all others are watch_stopped with an unknown end |
| Routing.RepeatsFollowTheirProcess | internal/correlate/correlator.go:428-443 | an existing row changes only by a repeat of its key whose pid still is the row's process; stored routes name tracked images; orphan keys partition by pid |
| RoutingInvariants.EvictKeeps | internal/correlate/correlator.go:654-672 | after eviction the routes left are exactly those to images still listed |
| Membership.RunsAreNearestTrees | internal/correlate/correlator.go:182-222 | an image is in a sandbox-exec run exactly if the run's root is its nearest sandbox-exec ancestor; nested runs point at the earlier enclosing run |
| Membership.CandidatePathJoined | internal/correlate/candidate.go:42-80 | a candidate never drags an image into a sandbox-exec run |
| Decisions.RunsNeedEvidence | internal/correlate/correlator.go:511-517 | process events create only sandbox-exec runs, for a sandbox-exec exec; each run a tick creates is for a denial that the watermark had passed and that had waited its window, and that denial is stored in it; denial lines create none |
| Decisions.NothingWaitsTooLong | internal/correlate/correlator.go:518-552 | after each tick what is still buffered has waited less than ten windows, and less than one if process events have passed it |
| Finality.WatermarkIsFinal | internal/correlate/correlator.go:411-425 | once the watermark has passed t, an event that is not older changes who a pid was at t if and only if it is the first event of a process that ran then |
| Finality.InsertedResolves | internal/correlate/correlator.go:297-305 | a newly listed image is what a time resolves to exactly when it covers that time |
| Timeline.EventTimely | internal/correlate/correlator.go:182-231 | events in order keep each pid's images one after the other in time |
| Settled.ImagesRunInTurn | internal/correlate/correlator.go:297-305 | over whole ordered runs, the images of a pid without an adoption stub never overlap |
| Settled.EvictionIsTransparent | internal/correlate/correlator.go:643-673 | eviction changes no resolution at or after now minus retention plus slack |
| Settled.AttributionIsStable | internal/correlate/correlator.go:499-501 | over whole ordered runs, a settled time resolves to the same image ever after, up to the retention window |
| Settled.VisitResolves | internal/correlate/correlator.go:557-613 | in any state, the visit of a buffered denial changes who a pid was at a time if and only if it creates a stub for the pid and nothing of the pid is known to have started by then |
| Attributions.StoredWhereSettled | internal/correlate/correlator.go:518-552 | a denial stored by any later tick gets the run and the process row of the image its settled time resolved to |
| Attributions.StoredOnArrival | internal/correlate/correlator.go:444-455 | the same for a denial stored when it arrives |
| Witnesses.SettledTimeCanChange | internal/correlate/correlator.go:286-295 | a run, in order, in which the first event of a process that predates the watch changes who a pid was at a settled time |
| Idle.IdleRunsAreExited | internal/correlate/correlator.go:381-409 | in every run, whatever the order of events, a run that was not adopted and has no running image is exited |
| Exits.RunsExitWithTheirLastImage | internal/correlate/correlator.go:381-409 | a sandbox-exec run is exited if and only if none of its images runs, and its recorded end is then their latest end |
| Exits.OrdinaryExecKeepsRuns | internal/correlate/correlator.go:205-222 | an exec of anything but sandbox-exec neither starts nor ends a run, in any state |
| Exits.CandidateJoinsEndedRun | internal/correlate/candidate.go:42-80 | an ended run stays ended, and its row stays, when a candidate joins; its running members are then the old ones and those of the chain that ran in no run |
| Latecomers.VisitOutlives | internal/correlate/correlator.go:557-613 | in any state, the visit of a buffered denial makes an image run in an ended run if and only if, before the visit, the denial is due, has no session tag and resolves to an image in no run that is a candidate for that run, and the image is a running one on its chain in no run |
| Latecomers.TickOutlives | internal/correlate/correlator.go:518-553 | a whole tick does so exactly through such visits, each judged in the state that the visits before it lead to |
| Latecomers.ExitedRunsRunOnByLateJoins | internal/correlate/candidate.go:42-80 | if only running processes act, an exited run has or once had a running image if and only if some visit met that condition |
| Latecomers.RunningInExitedCameLate | internal/correlate/candidate.go:42-80 | the images running in an exited run are those that came late and what they forked and exec'd |
| Outliving.EventOutlives | internal/correlate/correlator.go:182-231 | in any state, a process event makes an image run in an ended run if and only if the image is new and an image of that run forked it or exec'd into it; it takes one away if and only if it ends it |
| Outliving.ExitedRunsRunExactly | internal/correlate/correlator.go:381-409 | in every run, whatever the order of events, an exited run has a running image exactly if some image that one of these conditions once put there has not ended |
| Witnesses.LateForkRuns | internal/correlate/correlator.go:182-195 | a run, out of order, that ends with an exited sandbox-exec run in which a process runs |
| Witnesses.ExitedRunCanRun | internal/correlate/candidate.go:42-80 | a run, in order, that ends with an exited sandbox-init run in which a process runs |
| SandboxArgs.ParseArgs | internal/sbx/args.go:29-74 | the two nested loops compute `Parsed`, for every argument vector |
| SandboxArgs.ParseUndoesPrint | internal/sbx/args.go:31-90 | parsing undoes printing any mix of clustered, attached and detached options, then `--` and a command |
| SandboxArgs.ParseUndoesPrintWithoutDashes | internal/sbx/args.go:40-42 | the same without `--`, if the command does not look like an option |
| SandboxArgs.ParseReportsMissingValue | internal/sbx/args.go:50-56 | a last option whose value is missing is the one error that stops the scan |
| SandboxArgs.AcceptedIsPrinted | internal/sbx/args.go:31-74 | whatever the scanner accepts is the printed form of some options followed by the command; a missing value is reported exactly for a last cluster that awaits one |
| SandboxArgs.CommandIsSuffix | internal/sbx/args.go:67-73 | the command is always a suffix of the argument vector, and an error is reported exactly without a profile option |
| Endpoint.Database.Update | internal/store/schema.go:142-154 | an update with the trigger it fires, nested update included |
| Endpoint.Database.Insert | internal/store/schema.go:142-154 | an insert with the trigger it fires: one new revision |
| Endpoint.UpdateStampsOnce | internal/store/schema.go:142-154 | the guard stops the nested update: an update uses exactly one new revision |
| Endpoint.InsertStampsOnce | internal/store/schema.go:142-154 | an insert uses exactly one new revision although its own update fires the update trigger |
| Revisions.RevisionsStayUnique | internal/store/schema.go:142-154 | after any statements revisions are unique and issued, and the counter advanced once per row written |
| Revisions.UpgradeV2 | internal/store/schema.go:158-189 | the backfill numbers all rows, table by table and by rowid, into disjoint ranges below the counter |
| Revisions.MigratedIsRevisioned | internal/store/schema.go:156-189 | a migrated database has unique, issued revisions |
| Changes.Query | internal/store/changes.go:21-26 | one table's rows above the cursor, lowest revision first, at most the limit |
| Changes.ChangesSince | internal/store/changes.go:10-55 | the limit lowest revisions above the cursor over all tables |
| Changes.MergedIsBatch | internal/store/changes.go:51-55 | sorting and truncating the limited reads loses none of the lowest revisions |
| Changes.BatchIsUnique | internal/store/changes.go:10-12 | there is only one such batch |
| References.NulledRowsAreRestamped | internal/store/schema.go:37-102 | a row that referred to a deleted row with ON DELETE SET NULL has NULL and a new revision |
| Pruning.DeleteRow | internal/store/schema.go:37-102 | deleting a row removes exactly what cascades from it, in any order of actions |
| Pruning.Prune | internal/store/prune.go:11-42 | exactly the recent runs and orphans, their dependents, used sessions and profiles and recent or used watches stay; no reference dangles; the counts are those of deleted rows |
| Pruning.PruneRestamps | internal/store/prune.go:9-42 | rows that lost a reference have a revision not issued before |
| Pruning.PruneTwice | internal/store/prune.go:11-42 | a second prune at the same cutoff changes nothing |
| Pruning.PruneKeepsColumns | internal/store/prune.go:11-42 | the pruned database is referentially intact and may be pruned again |
| Ship.PruneIsAStep | internal/store/prune.go:11-42 | pruning is one of the steps under which replication is proved correct |
| Server.ReportServer.Validate | internal/serverdb/ingest.go:47-76 | a batch passes exactly if every row is valid |
| Server.ReportServer.UpsertRow | internal/serverdb/ingest.go:21-45 | insert, or merge if the revision is greater by SQL's comparison |
| Server.ReportServer.Apply | internal/serverdb/ingest.go:78-134 | a batch is stored as a whole or refused without any effect; the reply is the new cursor |
| Server.ReportServer.Cursor | internal/serverdb/ingest.go:136-144 | the cursor of an endpoint database, 0 if unknown |
| ServerLaws.RepeatedRowsAreIdle | internal/serverdb/ingest.go:78-134 | rows of a stored batch change neither mirror nor cursor again, in any order, also after other batches |
| ServerLaws.BatchAdvances | internal/serverdb/ingest.go:21-45 | no mirrored row goes back, disappears or loses a reference, no cursor goes back, other endpoint databases are untouched |
| ServerLaws.OrderDoesNotMatter | internal/serverdb/ingest.go:21-45 | plain columns depend only on the set of rows an endpoint database delivered, not on batches, order, repetition, time, or what others delivered in between |
| ServerLaws.OwnRowsCount | internal/serverdb/ingest.go:78-134 | a mirrored row is what its own endpoint database's batches alone would make of it |
| Protocol.StepKeeps | internal/ship/ship.go:94-124 | every endpoint write, read, delivery, repeated delivery and foreign batch keeps the replication invariant |
| Protocol.CoverageAlways | internal/wire/wire.go:36-40 | in every reachable state each endpoint row up to the cursor is mirrored at its revision, equal but for references pruned to NULL |
| Ship.BatchIsAccepted | internal/serverdb/ingest.go:47-76 | the server never refuses what the shipper reads |
| Ship.ReachableIsReady | internal/ship/ship.go:42-44 | a sync can start in every reachable state, whatever was lost or repeated before |
| Ship.SyncOnce | internal/ship/ship.go:82-125 | ends, never reports a cursor that did not advance, advances by a full batch each time, sends each newer row exactly once, and leaves everything mirrored |

## Left out

- Images, runs and buffered denials are records in growing sequences, and pointers are positions in them; garbage
  collection and the identity of heap objects are not modelled.
- A run's row id is the number of rows before it; the correlator's theorems are about one watch on fresh tables.
- `fate` of a buffered denial and `ends` of a row are history that the program does not store; no operation reads them.
- `sort.SliceStable` and `sort.Slice` are functions with the proved properties of a stable insertion sort.
- Failed sink writes, warnings and the watch id column.
- A run's profile text and environment are fields of its row; the program stores them in rows of their own.
- The time a cursor was last updated.
- Session detection, the entitlement checker, reading profile files, path joining and the choice of environment
  variables are arbitrary functions of their inputs.
- `internal/watch`: processes, signals and timers; only the order of calls matters and it is arbitrary.
- Decoding of events, denial lines and JSON batches; the model starts from parsed values.
- SQL text, indexes, WAL, file ownership and schema-version checks; each transaction is one atomic step.
- Column types and CHECK constraints of the endpoint tables, except that the columns cascades follow are not NULL.
- Integers of columns, counters and revisions are unbounded; floating-point values are real numbers.
- `ship.Run`: its backoff times. What it retries is a step of `Protocol`, where any batch may be sent again.
- Pages, reports, queries and the command line.
- Links.RowLinksAreComplete: is about runs that were not adopted; it is false for adopted ones, of which
  `Links.RowLinksAreExact` says what their rows name.
- Settled.AttributionIsStable: assumes a pid without adoption stub, because a stub stands for all times of its pid; so do
  the two theorems of `Attributions`. `Settled.VisitResolves` says exactly when a stub changes a resolution.
