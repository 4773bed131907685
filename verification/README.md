# A verified model of crowdshield

crowdshield turns public block lists into CrowdSec decisions. It fetches feeds, plans which
prefixes to ban, and reconciles that plan with a remote CrowdSec LAPI through a write-ahead
journal, so that a crash or a lost reply at any point leaks no decision, and a wanted prefix
stays banned across refreshes.

This project models that logic in Dafny and proves what it promises, or exactly when it holds. `dafny verify dfyconfig.toml`
checks everything.

## How it is laid out

| file | what it holds |
|---|---|
| `Collections.dfy`, `Prefixes.dfy`, `Safety.dfy`, `Special.dfy`, `Orders.dfy` | finite sets, CIDR prefixes as sets of addresses, the special-purpose table and its blocks by first and last address, strict orders and sorting |
| `Planner.dfy`, `PlannerLaws.dfy`, `Provenance.dfy`, `Intake.dfy`, `Pipeline.dfy`, `Explain.dfy` | the planner as it runs, what its plans mean, where each object comes from, the entries it is fed, the way from snapshots to bans, and the operator's lookup |
| `Database.dfy`, `Invariants.dfy`, `Prune.dfy`, `Retention.dfy`, `Grace.dfy`, `StateStore.dfy` | the tables, the journal's invariant, pruning and what it keeps, feed snapshots, and the store class that carries out each transaction |
| `Remote.dfy`, `Lapi.dfy` | the LAPI server and the client class |
| `Protocol.dfy`, `ProtocolLaws.dfy`, `Gaps.dfy` | the protocol as a step relation, its laws over all histories, and where a ban can be missing |
| `Verification.dfy`, `Effects.dfy`, `Workload.dfy`, `OperationFacts.dfy`, `RunFacts.dfy`, `Reconciler.dfy` | the reconciler class; every call it makes is logged as a step of the protocol |
| `Prediction.dfy`, `Convergence.dfy`, `Witnesses.dfy` | the dry run, the second run, and concrete histories for two expectations that fail |
| `FeedFiles.dfy`, `Scheduler.dfy`, `Notify.dfy`, `Duty.dfy` | feed files, the scheduler's deadlines and backoff, the notification record, and which notices must go out |

## What is assumed

- One reconciler works on a database at a time. Each store call is one atomic transaction that
  commits or leaves the tables alone; it may find the database unavailable.
- A LAPI call has taken effect, or never will, by the time its reply or error is seen. Against an
  honest remote (`honest` in the configuration) the server behaves as `internal/lapi/mock/server.go`
  does, with the client's own search limit, and others may add, change or remove their own alerts at
  any time, but do not write this program's hashes under its machine id; ids are never reused.
  With `honest` false the server's state and every reply are arbitrary; the journal's laws, convergence and the counters
  hold all the same.
- The process and the remote read one clock, in whole seconds. A drawn operation token that was
  drawn before counts as a failed draw.
- Rendering an address or a prefix as text is injective. Ratios are real numbers.

## Three results that differ from what one would expect

- An interrupted removal. If an expire request takes effect but its reply or the following mark is lost, the row
  stays active. If the object is wanted again before the row runs out, the next run finds an active
  row that serves it, keeps it, and sends nothing: the prefix has no live ban behind its row.
  `Gaps.RemovalGap` extends any history into one like that, and `Witnesses.InterruptedRemoval` is one from
  an empty journal on. `ProtocolLaws.ActiveRowLiveIff` gives the exact condition, and
  `ProtocolLaws.NoGap` the guarantee outside it.
- A quiet second run. A run shortly after a successful one is not quiet just because less than
  duration minus refreshBefore has passed: a row that the first run kept may have been a second
  above the threshold (`Witnesses.KeptThenDue`). `Convergence.SecondRunQuietIff` gives the
  exact condition, and `Convergence.SecondRunQuietSoon` what remains of the simpler claim.
- A recovery announced twice. If a delivered recovery could not be recorded, the next success announces it
  again (`Notify.RecoveryRepeats`). `Notify.RecoveriesApartIff` gives the exact condition.

## Model

| member | source | states |
|---|---|---|
| `ProtocolLaws.OneOwnerPerObject` | internal/reconcile/reconcile.go:438-476 | in every world reachable through any runs, LAPI failures, crashes and prunes, each object has at most one active decision and sits in at most one open operation; an unrecorded create has no active decision and an unrecorded refresh still has the row it replaces active |
| `ProtocolLaws.NoLeakedReplacement` | internal/reconcile/reconcile.go:372-399 | in every reachable world each expiring row is named by an open verified operation, each completed operation has retired every row it replaced, and with nothing open nothing is expiring |
| `ProtocolLaws.RecordedRowsSound` | internal/state/enforcement_repository.go:503-564 | in every reachable world each recorded decision is for a stored object under its alert's scenario, carries that object's own value, ends after it was recorded and at most ten minutes past the longest duration, and bans no special-purpose address |
| `ProtocolLaws.NoOrphanBan` | internal/reconcile/reconcile.go:438-476 | in every reachable world against an honest remote, whatever replies were lost and wherever the process was cut off, every ban of this program in force has a live row recorded from its very alert, or its alert carries the token of an open operation still to be recorded |
| `ProtocolLaws.RetiredRowIsLifted` | internal/reconcile/reconcile.go:361-369 | in every reachable world against an honest remote, a row that is no longer live has no ban in force: a ban is lifted before its row is retired |
| `ProtocolLaws.QuietBansHeld` | internal/reconcile/reconcile.go:438-476 | in every sound world with nothing open, every ban of this program in force is that of an active row, which it matches |
| `ProtocolLaws.MakeBeforeBreak` | internal/reconcile/reconcile.go:372-436 | at every expire request of every history, against any remote, the target is a live row whose object is not wanted, or for which another active row of the same object has been verified and durably recorded |
| `ProtocolLaws.ExpireFollowsRead` | internal/reconcile/reconcile.go:321-370 | at every expire request of every history, against any remote, the same process has read the alert the row was recorded from, nothing was read, expired or restarted since, and the reply showed the row once, unchanged and under this machine's name; against an honest remote the reply was the server's view and still is |
| `ProtocolLaws.NoGap` | internal/reconcile/reconcile.go:401-436 | from a shielded world, for as long as the object stays wanted and its active row has not run out, the server holds a live ban of this program for exactly that prefix at every step |
| `ProtocolLaws.RecordingShields` | internal/state/enforcement_repository.go:541-588 | recording a verified alert shields every object of its operation |
| `ProtocolLaws.ActiveRowLiveIff` | internal/reconcile/reconcile.go:321-370 | an active row in time has a live ban behind it if and only if no removal of that row took effect earlier while its object was not wanted |
| `ProtocolLaws.EndedOnlyByRemoval` | internal/reconcile/reconcile.go:638-648 | if an active row's ban was expired by id, the step that did it was a removal at a time its object was not wanted |
| `Gaps.RemovalGap` | internal/reconcile/reconcile.go:361-369 | from any history that ends with nothing open and an active row in time for a planned object, five legal steps (the plan drops the object, the alert is read, the expire takes effect, the process dies, a plan wants the object again) lead, with nothing open at any of them, to the same rows, the object wanted, and no live ban behind the row |
| `Witnesses.InterruptedRemoval` | internal/reconcile/reconcile.go:638-648 | a concrete history from an empty journal, with nothing open at any plan, ends with a wanted object, its row active, in time and as planned, nothing for a run on that plan to do, and no live ban for the object on the server |
| `ProtocolLaws.OnlyOwnDecisionsRecorded` | internal/reconcile/reconcile.go:281-319 | every row of every reachable world comes from an alert that this program's own create call made, under its machine id and bearing the operation's token |
| `ProtocolLaws.ForeignAlertsUntouched` | internal/reconcile/reconcile.go:321-370 | whatever this program does, every alert it did not make stays as it is |
| `ProtocolLaws.AtMostOneLiveAlertPerToken` | internal/reconcile/reconcile.go:451-472 | in every reachable world at most one alert with a live ban carries a given token |
| `ProtocolLaws.HistoryInv` | internal/reconcile/reconcile.go:504-650 | the invariant of journal, catalogue, ownership and remote holds in every world of every history |
| `Protocol.NextKeepsInv` | internal/reconcile/reconcile.go:504-650 | every step, whatever its outcome, keeps that invariant |
| `Invariants.BeginKeeps` | internal/state/enforcement_repository.go:257-298 | opening an operation on idle objects keeps the journal's invariant |
| `Invariants.RecordKeeps` | internal/state/enforcement_repository.go:443-589 | recording a verified alert keeps the journal's invariant |
| `Invariants.CloseKeeps` | internal/state/enforcement_repository.go:591-626 | completing an operation whose replaced rows are retired, or marking one ambiguous or failed, keeps the journal's invariant |
| `Invariants.MarkKeeps` | internal/state/enforcement_repository.go:726-739 | marking a replaced row, or an active row no open operation needs, keeps the journal's invariant |
| `Invariants.EveryItemDecided` | internal/reconcile/reconcile.go:298-318 | equally many verified decisions with distinct objects, all among the items, are in bijection with the items |
| `Invariants.PlanKeepsCatalog` | internal/state/enforcement_repository.go:59-118 | a validated plan leaves every stored object safe, and every wanted one with its primary feed among its sources |
| `StateStore.Store.ApplyEnforcementPlan` | internal/state/enforcement_repository.go:59-118 | refuses exactly plans that fail validation or name unknown feeds; otherwise planned objects take the plan's row, all others become unwanted and stale without a primary feed, and every row is dated; a failure before the commit changes nothing |
| `StateStore.Store.BeginOperation` | internal/state/enforcement_repository.go:257-298 | refuses exactly operations that fail the journal's checks, so that a stored one is on objects led by its feed, a create replaces nothing and a refresh an active row of its object; otherwise adds the operation as pending and changes nothing else |
| `StateStore.Store.OpenOperations` | internal/state/enforcement_repository.go:300-363 | lists exactly the open operations, each once and as stored |
| `StateStore.Store.ListDecisions` | internal/state/enforcement_repository.go:666-710 | lists exactly the rows with the given statuses, each once and with its alert |
| `StateStore.Store.CheckDecisions` | internal/state/enforcement_repository.go:503-539 | accepts exactly when objects and ids are distinct and every decision is for an item, new, of the object's scope and value, and in time |
| `StateStore.Store.RecordVerifiedOperation` | internal/state/enforcement_repository.go:443-589 | on success every verified decision has one new active row, dated now, ending after now and at most ten minutes past the operation's duration; every replaced row is expiring and points at its replacement; nothing else changed; an operation already recorded is left alone; any refusal changes nothing |
| `StateStore.Store.RetirePriors` | internal/state/enforcement_repository.go:565-588 | the loop over the items marks exactly the replaced rows and links each to the new row of the same object |
| `StateStore.Store.CompleteOperation` | internal/state/enforcement_repository.go:591-604 | completing a verified operation whose replaced rows are retired keeps the journal sound and makes exactly its objects idle again; any other operation than a verified or completed one is refused, and a refusal changes nothing |
| `StateStore.Store.SetOperationStatus` | internal/state/enforcement_repository.go:606-626 | keeps the journal sound; a failed operation can never be recorded or completed again, and exactly its objects become idle; an ambiguous one stays recordable, and no object becomes idle or busy |
| `StateStore.Store.MarkDecisionExpired` | internal/state/enforcement_repository.go:726-739 | an object whose active row is marked has no active row left, no other row gains or loses its hold, a second mark is refused, and the journal stays sound when no open operation needs the row |
| `StateStore.Store.ListActiveEntries` | internal/state/feed_repository.go:475-480 | lists exactly the entries whose row is active and whose feed is enabled, each once and with its feed's name, in one fixed order by feed name first |
| `StateStore.EntriesDetermined` | internal/state/feed_repository.go:475-480 | the same feeds and entries are listed as the same sequence |
| `StateStore.Store.PruneHistory` | internal/state/prune.go:18-211 | refuses exactly a retention or count out of range. Otherwise, of the tables before and after: an unfinished run stays, and a finished one exactly when it is no older than the retention and fewer than the given number of finished runs started later; an operation, row, alert, object or entry goes exactly when it is old, ended or unwanted, and nothing left refers to it; what stays is unchanged but for links to deleted rows; each count is what its table lost; and for the entries that is the prune event of a feed history |
| `Retention.PruneRetains` | internal/state/prune.go:138-211 | those facts about every table, with at most the given number of finished runs left, for what the plan of a prune leaves of any tables |
| `Retention.PlanCounts` | internal/state/prune.go:37-117 | the counts a prune plan reports without modifying anything are the numbers of rows a prune removes |
| `Prune.PruneIdempotent` | internal/state/prune.go:37-117 | an immediate second prune removes nothing |
| `Prune.PruneKeepsJournal` | internal/state/prune.go:131-211 | pruning any tables keeps the journal's invariant, and with it every reference: of rows to objects, alerts and replacing rows, and of operations to feeds, objects and replaced rows |
| `StateStore.Store.CheckSnapshot` | internal/state/feed_repository.go:232-250 | accepts exactly snapshots with a grace from 1 to 100 whose entries hold no special-purpose address, are single addresses if they call themselves so, and repeat no key |
| `StateStore.Store.ApplyFeedSnapshot` | internal/state/feed_repository.go:252-366 | present entries are active, seen now and without a missed run; an active entry of the feed that is missing has missed one run more and goes inactive at the grace; every other row is as it was; the four counters are the numbers of such rows; and for the entries that is the snapshot event of a feed history |
| `Grace.ActiveCount` | internal/state/feed_repository.go:309-347 | the number of active entries changes by added plus reactivated minus deactivated |
| `Grace.GraceWindow` | internal/state/feed_repository.go:252-413 | after any history of snapshots of any feeds, failures, unmodified results and prunes, a feed's active entries are exactly the union of its last grace accepted snapshots |
| `Remote.CreateKeepsServer` | internal/lapi/mock/server.go:249-280 | a create hands out fresh ids and keeps the server well formed |
| `Remote.EndKeepsServer` | internal/lapi/mock/server.go:313-330 | an expire ends one ban now and keeps the server well formed |
| `Lapi.BuildWireAlert` | internal/lapi/client.go:365-398 | gives the canonical decisions if every one has a canonical form, no two coincide and the header fits, and fails exactly otherwise; what it gives has 1 to 500 decisions for a minute to seven days, none on a special-purpose address, each for the addresses its input stands for |
| `Lapi.CanonicalMeans` | internal/lapi/client.go:330-363 | a decision is sent in normal form, on no special-purpose address and for just the addresses it was given, or not at all; an IPv4-mapped input stands for IPv4 addresses |
| `Lapi.StoredIsCanonical` | internal/lapi/client.go:330-363 | the value written for a stored object is its own canonical form |
| `Lapi.BatchPassesWire` | internal/lapi/client.go:365-398 | a batch of distinct stored objects passes the wire builder unchanged |
| `Lapi.Client.CreateAlert` | internal/lapi/client.go:400-421 | sends nothing unless the request fits; may take effect without a reply; an honest reply names the alert it made |
| `Lapi.Client.ExpireDecision` | internal/lapi/client.go:441-448 | may take effect without a reply; not-found means the server does not know the id |
| `Lapi.Client.FindOperation` | internal/lapi/client.go:450-484 | finds only an alert with the feed's scenario and the token's hash, and against an honest server only if no other alert of the search window carries the token; absent means that none does; and with more alerts in the window than a search may return it fails |
| `Verification.VerifyAlert` | internal/reconcile/reconcile.go:253-319 | for records as the catalogue holds them, succeeds exactly for an alert of this machine, feed and token whose decisions are bans of this program in bijection with the operation's items, with each object's scope and value, ending in the future; the end recorded is the time the response gives or, if it gives a remaining length no longer than the duration, now plus that length |
| `Verification.LengthsVerify` | internal/reconcile/reconcile.go:253-279 | remaining lengths read some time after the run began verify exactly when the ends themselves would at that time, none further off than the duration; each end is then recorded early, never late, by just the time that had passed |
| `Verification.CreatedVerifies` | internal/reconcile/reconcile.go:401-436 | the alert an honest server makes of a journalled operation verifies for as long as its decisions are in time |
| `Verification.ActiveByObject` | internal/reconcile/reconcile.go:158-167 | never fails on a sound journal, and maps each object to its only active row |
| `Intake.BuildObjects` | internal/reconcile/reconcile.go:111-137 | fails exactly on an invalid or unmasked allowlist entry; otherwise gives the plan of the entries, with feeds lacking an order numbered by first appearance |
| `Intake.PlanRepeats` | internal/reconcile/reconcile.go:111-137 | unchanged feeds and entries give the same plan, object for object, in every run |
| `Intake.PlanMeetsStore` | internal/state/enforcement_repository.go:31-72 | every plan made from stored entries passes the store's validation, and names feeds as the store does |
| `Pipeline.ListedIsCurrent` | internal/state/feed_repository.go:475-480 | after any history of the feeds, a run reads exactly the entries that are in one of the last grace accepted snapshots of their feed, if that feed is enabled |
| `Pipeline.FeedContributes` | internal/reconcile/reconcile.go:111-137 | after any history of the feeds, a feed is a source of a planned block, with a kind, if and only if it is enabled and one of its last grace accepted snapshots lists the block with that kind and it may be banned; a disabled feed contributes nothing |
| `Pipeline.DerivedIsRank` | internal/reconcile/reconcile.go:118-134 | the order derived for a feed without a configured one is the number of such feeds whose names come before its own |
| `Pipeline.StoredPrimary` | internal/network/dedupe.go:71-82 | the stored sources of a planned object are exactly the enabled feeds with an active entry for its block, and its stored primary is the one with the least configured or derived order, ties going to the earlier name |
| `Pipeline.PlanBans` | internal/network/dedupe.go:108-193 | after any history of the feeds, the plan bans exactly the addresses of the entries in the last grace snapshots of the enabled feeds that may be banned and share no address with the allowlist |
| `Reconciliation.Reconciler.constructor` | internal/reconcile/reconcile.go:92-109 | a reconciler on an empty journal starts a history |
| `Reconciliation.Reconciler.Resume` | internal/reconcile/reconcile.go:92-109 | a reconciler started on what an earlier process left, wherever that one was cut off, goes on with the same history, and has been shown nothing yet |
| `Reconciliation.Reconciler.ExpireOwned` | internal/reconcile/reconcile.go:321-370 | on success the row is marked and, against an honest remote, its ban is in force no longer; on failure no table changes; if it sent the expire, it read within this call an alert that still showed the row once, unchanged and under this machine's name |
| `Reconciliation.Reconciler.FinishVerified` | internal/reconcile/reconcile.go:372-399 | replaced rows go from expiring to expired one by one, nothing else changes, and the operation completes only when all are gone; against an honest remote none of the replaced bans is then in force |
| `Reconciliation.Reconciler.CreateForOperation` | internal/reconcile/reconcile.go:401-436 | touches only its own operation and objects; on success the operation is closed and, if all its objects are wanted, each has a new active row of the right scope, value and scenario that, against an honest remote, lasts a full duration |
| `Reconciliation.Reconciler.AbsentIsNotLive` | internal/lapi/client.go:450-484 | because the search window is the longest duration, an alert that the search misses has no live ban |
| `Reconciliation.Reconciler.RecoverOne` | internal/reconcile/reconcile.go:443-474 | on success the operation is closed and, against an honest remote, every ban in force of an alert that carries its token has a live row recorded from that alert, so that none left by a lost reply is forgotten; the operation stays open in every world passed through before, and no other operation or object is touched |
| `Reconciliation.Reconciler.Recover` | internal/reconcile/reconcile.go:438-476 | on success no operation is open, no row is expiring and, against an honest remote, every ban of this program in force is that of an active row; every world passed through before had something open, and the counter is the number of objects that were in open operations; with nothing open it sends and changes nothing |
| `Reconciliation.Reconciler.Choose` | internal/reconcile/reconcile.go:556-586 | each object is put under exactly the heading its desired flag, its active row and the time call for |
| `Reconciliation.Reconciler.PlanActions` | internal/reconcile/reconcile.go:554-586 | the groups hold one item for each object that needs creating or refreshing, under its primary feed; the removals are exactly the active rows of unwanted objects; exactly the run-out rows of wanted objects are marked |
| `Reconciliation.Reconciler.RunBatch` | internal/reconcile/reconcile.go:609-636 | one batch touches only its own objects, and on success leaves each served and nothing new open |
| `Reconciliation.Reconciler.RunGroups` | internal/reconcile/reconcile.go:606-637 | whatever order the groups come in and whichever batches fail, only planned objects are touched; if none fails, every planned object is served and the counters are the numbers of objects added and refreshed |
| `Reconciliation.Reconciler.RunRemovals` | internal/reconcile/reconcile.go:638-648 | only removed objects are touched; if none fails, none of them has an active row or, against an honest remote, a ban in force for the removed row, and the counter is their number |
| `Reconciliation.Reconciler.Enforce` | internal/reconcile/reconcile.go:532-650 | a run without error has converged, against any remote: nothing open, each wanted object served, no other object active; against an honest remote every ban of this program in force is that of a row serving a wanted object; every counter is exact for the first world of the run, after the plan was posted, with nothing open; and with nothing open at the start, no request is sent if and only if nothing is to do |
| `Reconciliation.Reconciler.DryRun` | internal/reconcile/reconcile.go:169-214 | reports the numbers of wanted objects without an active row, of wanted objects whose row may not stay, and of active rows not wanted; the first two and the skipped add up to the plan |
| `Reconciliation.Reconciler.Run` | internal/reconcile/reconcile.go:504-650 | whatever it returns, the trace is still a history; a dry run changes nothing; an enforcing run without error has posted the plan of the entries stored at its start and converged on it, leaving against an honest remote no ban in force but those of rows serving wanted objects, with every counter exact for the world planning began from, and added plus refreshed plus skipped is the number of stored objects |
| `RunFacts.ObjectSettles` | internal/reconcile/reconcile.go:554-648 | after planning, batches and removals each wanted object is served and each other has no active row |
| `Effects.PartitionCounts` | internal/reconcile/reconcile.go:536-586 | every object is added, refreshed, kept or unwanted, and only one of them |
| `Workload.PlannedBatchAccepted` | internal/reconcile/reconcile.go:606-637 | every planned batch with a fresh well-formed token passes all checks of the journal's begin and of the wire builder |
| `Convergence.ConvergedBijection` | internal/reconcile/reconcile.go:504-650 | after a run without error active rows and wanted objects are in bijection, with equal scope, value and scenario, and so equally many |
| `Convergence.RunOnFeeds` | internal/reconcile/reconcile.go:504-650 | a run as it is carried out, on tables left by any history of the feeds: if it returns no error, the active rows in time ban exactly the addresses that the last grace snapshots of the enabled feeds report, off the allowlist and the special-purpose blocks |
| `Convergence.RowNamesLeader` | internal/reconcile/reconcile.go:281-284 | after a run without error, each active row is for an object whose primary is the source in the first place, and its scenario is that of this feed and of no other |
| `Convergence.SecondRunQuietIff` | internal/reconcile/reconcile.go:568-586 | after a run without error, a run on unchanged entries sends no request if and only if every active row is further from its end than refreshBefore |
| `Convergence.SecondRunQuietSoon` | internal/reconcile/reconcile.go:568-586 | against an honest remote and within duration minus refreshBefore of the first run, only rows that the first run kept can make the second one send anything |
| `Convergence.RunTwice` | internal/reconcile/reconcile.go:504-650 | two runs in a row as they are carried out, both posting the plan of the stored entries: in the world the second starts from, it sends no request, and leaves the log of requests as it was, if and only if every active row is further from its end than refreshBefore |
| `Witnesses.KeptThenDue` | internal/reconcile/reconcile.go:579-585 | for every configuration with more than a second between duration and refreshBefore: on the tables of a concrete history a first run succeeds and sends nothing, a second one a second later succeeds and replaces the row, and no successful run at that time sends nothing |
| `Prediction.DryRunPredicts` | internal/reconcile/reconcile.go:169-214 | with nothing open, dry and real run agree on removals and on additions plus refreshes, and on the latter two separately if and only if no active row of a wanted object has run out |
| `Convergence.DryThenEnforce` | internal/reconcile/reconcile.go:169-214 | the same for a dry run followed by the real one as they are carried out, on the plan of the stored entries |
| `Planner.BuildDesired` | internal/network/dedupe.go:108-193 | the result is a plan: one object for each accepted prefix with all its distinct sources, suppressed on the allowlist or when a wider wanted range holds it; input = rejected + objects + duplicates and objects = desired + allowlisted + covered |
| `Planner.Gather` | internal/network/dedupe.go:108-133 | accepted candidates are grouped by masked prefix with each source once; every candidate is rejected, first of its prefix or a duplicate |
| `Planner.FindCover` | internal/network/dedupe.go:161-184 | finds the longest wanted range around a host, if there is one |
| `Planner.SuppressCovered` | internal/network/dedupe.go:161-184 | flipping hosts in place from left to right gives what the untouched plan calls for |
| `Provenance.PlanCatalogs` | internal/network/dedupe.go:108-156 | a plan has an object for each block named by a candidate that holds no special-purpose address, is a single address if it calls itself one, and comes from a named feed; and no other object |
| `Provenance.SourcesExact` | internal/network/dedupe.go:111-133 | the sources of an object are exactly the feeds and kinds of the candidates that name its block, each once |
| `Provenance.PrimaryLeads` | internal/network/dedupe.go:71-82 | the sources of an object are in order, and its primary comes before every other one: by feed order, then by name up to the first difference, then by feed id, then single addresses before ranges |
| `Provenance.ObjectJustified` | internal/network/dedupe.go:136-188 | an object is a single address exactly when a candidate says so; it is suppressed for the allowlist exactly when they share an address, and as covered exactly when it is a single address inside a wanted range, of which the longest is recorded; otherwise it is wanted |
| `Provenance.PlanInOrder` | internal/network/dedupe.go:84-95 | IPv4 comes first, then the lower address, then the wider block, and no block comes twice |
| `Provenance.SummaryMeans` | internal/network/dedupe.go:108-193 | the summary counts the candidates that name no block and the objects of each verdict; all others are duplicates |
| `PlannerLaws.PlanPreservesMeaning` | internal/network/dedupe.go:108-193 | the addresses a plan bans are exactly those of the safe, well-kinded candidates whose prefix overlaps no allowlist entry |
| `PlannerLaws.PlanSparesProtected` | internal/network/dedupe.go:97-106 | no plan bans an allowlisted address, one of the table, or one between the first and last address of a special-purpose block |
| `PlannerLaws.PlanDeterministic` | internal/network/dedupe.go:71-95 | any order of candidates and of map iteration gives the same plan, if feed name and order are functions of feed id |
| `PlannerLaws.LongestCoverUnique` | internal/network/dedupe.go:161-184 | the longest covering range of a host is unique |
| `Intake.ListedFeedsAgree` | internal/reconcile/reconcile.go:117-134 | the candidates made from stored entries meet that condition |
| `Explain.Lookup` | internal/app/operator_read.go:232-248 | finds the last object with the target's prefix and a longest stored range around it |
| `Explain.ExplainTarget` | internal/app/operator_read.go:232-260 | fails exactly when a covered object has no stored range around it |
| `Explain.PlanStaysStored` | internal/state/prune.go:131-211 | until the next plan every world of a history holds the planned objects as posted, less some that were not wanted, and stale ones beside them |
| `Explain.ExplainAgrees` | internal/app/operator_read.go:232-260 | in every world of every history, whatever was recorded, expired or pruned since the plan in force was posted, a longest stored cover of an object that plan suppressed is exactly the prefix the planner recorded |
| `Explain.ExplainNeverInconsistent` | internal/app/operator_read.go:258-260 | in every such world the inconsistency exit is unreachable, for every target |
| `Prefixes.OverlapMeansSharing` | internal/network/dedupe.go:97-106 | the overlap test holds exactly when two blocks share an address |
| `Prefixes.NestedOrDisjoint` | internal/network/dedupe.go:161-184 | blocks are nested or disjoint (section 3.1 of RFC 4632) |
| `Safety.SafeMissesSpecial` | internal/network/safety.go:57-67 | a safe prefix holds no address of the special-purpose table |
| `Special.SafeIffNoSpecial` | internal/network/safety.go:15-67 | a prefix is safe if and only if it is valid, masked and holds no address between the first and last address of one of the special-purpose blocks |
| `Special.NormalizeKeepsAddresses` | internal/network/normalize.go:33-51 | normalizing gives a masked prefix with the same addresses; a prefix of IPv4-mapped addresses becomes the IPv4 prefix with just the addresses that those stand for |
| `Special.NormalizeRefuses` | internal/network/normalize.go:33-51 | normalizing fails exactly on an invalid prefix and on an IPv4-mapped one shorter than the mapped block |
| `Prefixes.MaskedIsLeast` | internal/network/dedupe.go:112-112 | masking keeps the length of a prefix and takes the least of its addresses |
| `Safety.SafeReadsBack` | internal/network/normalize.go:33-51 | a safe prefix is never IPv4-mapped, and normalizing it changes nothing |
| `FeedFiles.ParseSpamhaus` | internal/feed/parser.go:97-194 | entries plus malformed is the number of records; accepts exactly files with one well-formed metadata line declaring that number, no record after it, and few enough malformed records |
| `FeedFiles.ParseNetset` | internal/feed/parser.go:207-238 | entries plus malformed is the number of non-blank lines; accepts exactly non-empty files with few enough malformed lines |
| `FeedFiles.Parse` | internal/feed/parser.go:241-253 | on each format, accepts exactly the files its parser accepts, and entries plus malformed is the number of records |
| `FeedFiles.Validate` | internal/feed/validate.go:58-99 | the entries are the safe, well-kinded ones, masked, each once, in one fixed order; the rejected are the others, and accepted plus rejected plus duplicates is the input; fails exactly on policy, age, count or ratio |
| `FeedFiles.ParseFetched` | internal/syncer/dryrun.go:14-33 | for every format accepted plus rejected is the number of records in the file, and what is accepted is exactly the file's safe, well-kinded entries, masked, each once, IPv4 first, then by address and length; a file is accepted if and only if its parser accepts it, the policy is valid, its metadata is neither too old nor too far ahead, and the number of its entries lies within its bounds and, after a previous snapshot, between the allowed shrinking and growth of that one; malformed records stay within their number and share |
| `FeedFiles.FileContributes` | internal/feed/validate.go:69-85 | what a file contributes is exactly its listed blocks of a wanted family that hold no special-purpose address and are single addresses if they call themselves so; every prefix of a Spamhaus file is a range |
| `FeedFiles.ParsesMeans` | internal/feed/parser.go:41-49 | a file parses if and only if its form is right and its malformed records are at most the allowed number and the allowed share of all |
| `FeedFiles.SnapshotMeetsStore` | internal/state/feed_repository.go:232-250 | every validated snapshot passes the store's own validation |
| `Scheduling.RetryDelay` | internal/scheduler/scheduler.go:173-186 | the delay after the n-th failure is min(initial * 2^(n-1), maximum); the values of the loop variable climb from the initial one to the n-th or the first at the maximum, and none passes it |
| `Scheduling.SyncerDelay` | internal/syncer/engine.go:155-172 | the same backoff counted from zero, or the server's request if that is longer |
| `Scheduling.BackoffsAgree` | internal/syncer/engine.go:155-172 | without a server request the syncer's backoff after k failures is the scheduler's after attempt k + 1 |
| `Scheduling.NextDeadline` | internal/scheduler/scheduler.go:258-264 | the next deadline is the least tick of the schedule after both the last deadline and now |
| `Scheduling.Run` | internal/scheduler/scheduler.go:227-271 | the first deadline is the start plus jitter, plus one interval unless the run begins at once; every later one is that next tick after the one before; each deadline has exactly one cycle, with the attempts its results call for, unless its wait is cut short; and the run ends early only so or by an invalid result |
| `Scheduling.DeadlinesAnchored` | internal/scheduler/scheduler.go:258-264 | every deadline is first + k * interval, with k growing from each deadline to the next |
| `Scheduling.ExecuteCycle` | internal/scheduler/scheduler.go:188-222 | at most maxAttempts runs; all but the last were failures worth retrying, followed by the n-th backoff; recovery is announced exactly when a success follows a failure |
| `Notify.Manager.Attempt` | internal/notify/manager.go:223-245 | sends exactly when the severity reaches the minimum, the last attempt on the record is at least a cooldown ago, the attempt can be noted and the transport accepts; a send that could not be recorded as done still keeps the next one a cooldown away |
| `Notify.Manager.HandleFailure` | internal/notify/manager.go:256-282 | delivers only when the count has reached the threshold and this failure was not yet announced, with that count; once recorded as announced it stays so, and is not announced again |
| `Notify.Manager.ClearFailure` | internal/notify/manager.go:284-316 | an owed recovery is never dropped before it was delivered and recorded; what is delivered names the announced failure; everything not owed is forgotten |
| `Notify.Manager.HandleSync` | internal/notify/manager.go:356-379 | the stored record stays faithful to the history of results, across restarts, and each result takes one step of that history |
| `Notify.NoticesEarned` | internal/notify/manager.go:223-316 | over every history of results and of storage and transport failures, a failure notice follows threshold failures in a row of one category and feed, no streak is announced twice, and two delivered recoveries have a delivered failure notice between them, as far as the record could be kept |
| `Duty.CountIsStreak` | internal/notify/manager.go:262-267 | over every history in which the record was read and written, it is of the present streak of failures of one category and feed and counts it exactly, up to 100 |
| `Duty.LastingFailureAnnounced` | internal/notify/manager.go:256-282 | over every such history, once the last threshold results have failed with one category and feed, and at the last of them the notice can be sent and the cooldown since the others is over, the streak has been announced, then or before |
| `Duty.AlarmAtThreshold` | internal/notify/manager.go:256-282 | over every history in which nothing goes wrong, a failure notice goes out if and only if a streak of one category and feed just reached the threshold, and names them and the count |
| `Duty.RecoveryFollows` | internal/notify/manager.go:284-316 | over every history in which what was announced was recorded, a success after an announced failure delivers the recovery of just that failure, if it can be sent |
| `Duty.RecoveryAtSuccess` | internal/notify/manager.go:284-316 | over every history in which nothing goes wrong, a success delivers a recovery if and only if the streak it ends had reached the threshold, and names its category and feed |
| `Duty.MutedBySeverity` | internal/notify/manager.go:153-168 | over every history, nothing is sent under the highest minimum severity, and no recovery under any but the lowest |
| `Duty.FirstFailedFeed` | internal/notify/manager.go:247-254 | the feed named is the first that failed for the run's own reason, and none if there is none |
| `Notify.RecoveriesApartIff` | internal/notify/manager.go:284-316 | over every history, between two delivered recoveries there is a delivered failure notice if and only if the first recovery was recorded as delivered, or some failure between them was kept in the record |
| `Notify.RecoveryRepeats` | internal/notify/manager.go:238-243 | the failing instance: a concrete history in which a delivered recovery whose final save failed is delivered again, with no failure notice and no failure between |

## Left out

- HTTP, TLS, JSON, credentials, the login token and its renewal, and response size limits.
- SQL and its driver: tables are finite maps, and a surrogate row id is replaced by the UNIQUE column it stands for. A commit that reports an error after it took effect is not modelled.
- The order of rows returned by queries, of objects in the planning loop and of groups: arbitrary here, except for active entries, whose order matters.
- The payload hash of an operation, and the token generator beyond the freshness of its tokens.
- The busy flags of the reconciler and the scheduler, context cancellation apart from the failures it causes, and the zero-time checks.
- Liveness of recovery: a found alert whose decisions have run out, or whose object changed scope, makes recovery return an error; only what holds on success is stated.
- Remote alerts are never flushed by an honest server, as in the mock, and its responses give the end of a ban as a time. A response with remaining lengths is covered by Verification.LengthsVerify, but not by the laws over histories against an honest remote.
- Splitting and decoding of feed lines, and the byte and line limits of the reader.
- StateStore.Store.ListActiveEntries: orders prefixes within a feed by number where the query orders their text, because only that the order is fixed matters to the callers.
- FeedFiles.Validate: compares ratios of real numbers, because rounding of floating-point ratios is not modelled.
- FeedFiles.ParseSpamhaus: does not say which error category a refused file gets, because its caller only asks whether there is an error.
- Scheduling.Run: does not model the emitted start and stop events, because nothing depends on them.
- Validators, versions and failure counters of the feeds table, and which error category a failure records.
- The stale-sync, first-success, routine-success, startup and suspicious-change notices, and the manager's switches.
- The rest of the explain command: contributors, ownership and conflicts, which only read lists.
- Configuration, the command line, logging, metrics, health, retention settings, and the wiring of the engine.
