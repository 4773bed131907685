/**
 internal/state/prune.go: what history pruning plans to remove, and what is left once it is
 removed. The sequence of deletes that carries it out is `StateStore.Store.PruneHistory`.
 */
module Prune {
  import opened Collections
  import opened Prefixes
  import opened Database
  import opened Invariants

  datatype PruneResult = PruneResult(
    syncRuns: nat, operations: nat, decisions: nat, alerts: nat, objects: nat, entries: nat)

  predicate Finished(run: SyncRun) { run.completedAt.Some? && run.terminal }

  /** Newer in the order `started_at DESC, id DESC`. */
  predicate Newer(runs: map<int, SyncRun>, i: int, j: int)
    requires i in runs && j in runs
  {
    runs[i].startedAt > runs[j].startedAt || (runs[i].startedAt == runs[j].startedAt && i > j)
  }

  /** The finished runs that come before `id` in that order. */
  function Ahead(runs: map<int, SyncRun>, id: int): set<int>
    requires id in runs
  {
    set i | i in runs && Finished(runs[i]) && Newer(runs, i, id)
  }

  /** A finished run goes when it is too old or not among the newest `keep`. */
  function OldRuns(runs: map<int, SyncRun>, cutoff: Seconds, keep: nat): set<int> {
    set id | id in runs && Finished(runs[id]) &&
             (runs[id].completedAt.value < cutoff || |Ahead(runs, id)| >= keep)
  }

  predicate OldOperation(op: OperationRow, cutoff: Seconds) {
    op.completedAt.Some? && op.completedAt.value < cutoff && (op.status == Completed || op.status == Failed)
  }

  function OldOperations(db: Tables, cutoff: Seconds): set<Token> {
    set t | t in db.operations && OldOperation(db.operations[t], cutoff)
  }

  predicate OldDecision(d: DecisionRow, cutoff: Seconds) {
    (d.status == Expired || d.status == Orphaned) && d.verifiedAt < cutoff && d.expiresAt < cutoff
  }

  /** Some item of an operation outside `gone` still names the row `r` as the one it replaces. */
  predicate Named(db: Tables, gone: set<Token>, r: int) {
    exists t :: t in db.operations && t !in gone && exists it :: it in db.operations[t].items && it.prior == Some(r)
  }

  function OldDecisions(db: Tables, cutoff: Seconds): set<int> {
    set r | r in db.decisions && OldDecision(db.decisions[r], cutoff) && !Named(db, OldOperations(db, cutoff), r)
  }

  predicate AlertUsed(db: Tables, gone: set<int>, t: Token) {
    exists r :: r in db.decisions && r !in gone && db.decisions[r].token == t
  }

  function OldAlerts(db: Tables, cutoff: Seconds): set<Token> {
    set t | t in db.alerts && db.alerts[t].createdAt < cutoff && !AlertUsed(db, OldDecisions(db, cutoff), t)
  }

  predicate ObjectUsed(db: Tables, goneOperations: set<Token>, goneDecisions: set<int>, p: Prefix) {
    (exists r :: r in db.decisions && r !in goneDecisions && db.decisions[r].target == p) ||
    (exists t :: t in db.operations && t !in goneOperations &&
                 exists it :: it in db.operations[t].items && it.target == p)
  }

  function OldObjects(db: Tables, cutoff: Seconds): set<Prefix> {
    set p | p in db.objects && !db.objects[p].desired && db.objects[p].updatedAt < cutoff &&
            !ObjectUsed(db, OldOperations(db, cutoff), OldDecisions(db, cutoff), p)
  }

  function OldEntries(db: Tables, cutoff: Seconds): set<EntryKey> {
    set k | k in db.entries && !db.entries[k].active && db.entries[k].lastSeen < cutoff
  }

  /** `PlanPruneHistory`: one query, nothing modified. */
  function PlanPrune(db: Tables, cutoff: Seconds, keep: nat): PruneResult {
    PruneResult(
      |OldRuns(db.syncRuns, cutoff, keep)|, |OldOperations(db, cutoff)|, |OldDecisions(db, cutoff)|,
      |OldAlerts(db, cutoff)|, |OldObjects(db, cutoff)|, |OldEntries(db, cutoff)|)
  }

  /** Deleting a row clears the references to it (ON DELETE SET NULL). */
  function Cleared(d: DecisionRow, gone: set<int>): DecisionRow {
    if d.replacedBy.Some? && d.replacedBy.value in gone then d.(replacedBy := None) else d
  }

  function DecisionsWithout(decisions: map<int, DecisionRow>, gone: set<int>): map<int, DecisionRow> {
    map r | r in decisions && r !in gone :: Cleared(decisions[r], gone)
  }

  function Pruned(db: Tables, cutoff: Seconds, keep: nat): Tables {
    Tables(
      db.feeds, db.entries - OldEntries(db, cutoff), db.objects - OldObjects(db, cutoff),
      db.operations - OldOperations(db, cutoff), db.alerts - OldAlerts(db, cutoff),
      DecisionsWithout(db.decisions, OldDecisions(db, cutoff)), db.syncRuns - OldRuns(db.syncRuns, cutoff, keep))
  }

  // ----- The ordered deletes find exactly the planned rows -----

  /** With the old operations gone, "named by an item" needs no exception list. */
  lemma NamedAfterDelete(db: Tables, cutoff: Seconds, r: int)
    ensures Named(db.(operations := db.operations - OldOperations(db, cutoff)), {}, r)
            <==> Named(db, OldOperations(db, cutoff), r)
  {
    var db' := db.(operations := db.operations - OldOperations(db, cutoff));
    if Named(db, OldOperations(db, cutoff), r) {
      var t :| t in db.operations && t !in OldOperations(db, cutoff) &&
               exists it :: it in db.operations[t].items && it.prior == Some(r);
      assert t in db'.operations && db'.operations[t] == db.operations[t];
    }
  }

  lemma AlertUsedAfterDelete(db: Tables, decisions: map<int, DecisionRow>, gone: set<int>, t: Token)
    requires decisions == DecisionsWithout(db.decisions, gone)
    ensures (exists r :: r in decisions && decisions[r].token == t) <==> AlertUsed(db, gone, t)
  {
    if AlertUsed(db, gone, t) {
      var r :| r in db.decisions && r !in gone && db.decisions[r].token == t;
      assert r in decisions && decisions[r].token == t;
    }
  }

  lemma ObjectUsedAfterDelete(db: Tables, db': Tables, goneOperations: set<Token>, goneDecisions: set<int>, p: Prefix)
    requires db'.operations == db.operations - goneOperations
    requires db'.decisions == DecisionsWithout(db.decisions, goneDecisions)
    ensures ObjectUsed(db', {}, {}, p) <==> ObjectUsed(db, goneOperations, goneDecisions, p)
  {
    if r :| r in db.decisions && r !in goneDecisions && db.decisions[r].target == p {
      assert r in db'.decisions && db'.decisions[r].target == p;
    }
    if t :| t in db.operations && t !in goneOperations && exists it :: it in db.operations[t].items && it.target == p {
      assert t in db'.operations;
    }
  }

  // ----- Idempotence -----

  lemma RunsSettled(runs: map<int, SyncRun>, cutoff: Seconds, keep: nat)
    ensures OldRuns(runs - OldRuns(runs, cutoff, keep), cutoff, keep) == {}
  {
    var left := runs - OldRuns(runs, cutoff, keep);
    forall id | id in left && Finished(left[id])
      ensures left[id].completedAt.value >= cutoff && |Ahead(left, id)| < keep
    {
      assert Ahead(left, id) <= Ahead(runs, id);
      SubsetSize(Ahead(left, id), Ahead(runs, id));
    }
  }

  lemma PrunedOperations(db: Tables, cutoff: Seconds, keep: nat)
    ensures OldOperations(Pruned(db, cutoff, keep), cutoff) == {}
  {
  }

  lemma PrunedDecisions(db: Tables, cutoff: Seconds, keep: nat)
    ensures OldDecisions(Pruned(db, cutoff, keep), cutoff) == {}
  {
    hide OldRuns, OldObjects, OldAlerts, OldEntries;
    var db' := Pruned(db, cutoff, keep);
    PrunedOperations(db, cutoff, keep);
    forall r | r in db'.decisions && OldDecision(db'.decisions[r], cutoff)
      ensures Named(db', {}, r)
    {
      NamedAfterDelete(db, cutoff, r);
      assert Named(db, OldOperations(db, cutoff), r);
      NamedDependsOnOperations(db.(operations := db.operations - OldOperations(db, cutoff)), db', r);
    }
  }

  lemma NamedDependsOnOperations(db: Tables, db': Tables, r: int)
    requires db.operations == db'.operations
    ensures Named(db, {}, r) <==> Named(db', {}, r)
  {
  }

  lemma PrunedAlerts(db: Tables, cutoff: Seconds, keep: nat)
    ensures OldAlerts(Pruned(db, cutoff, keep), cutoff) == {}
  {
    hide OldRuns, OldObjects, OldDecisions, OldEntries, OldOperations;
    var db' := Pruned(db, cutoff, keep);
    PrunedDecisions(db, cutoff, keep);
    forall t | t in db'.alerts && db'.alerts[t].createdAt < cutoff
      ensures AlertUsed(db', {}, t)
    {
      AlertUsedAfterDelete(db, db'.decisions, OldDecisions(db, cutoff), t);
    }
  }

  lemma PrunedObjects(db: Tables, cutoff: Seconds, keep: nat)
    ensures OldObjects(Pruned(db, cutoff, keep), cutoff) == {}
  {
    hide OldRuns, OldAlerts, OldDecisions, OldEntries, OldOperations;
    var db' := Pruned(db, cutoff, keep);
    PrunedDecisions(db, cutoff, keep);
    PrunedOperations(db, cutoff, keep);
    forall p | p in db'.objects && !db'.objects[p].desired && db'.objects[p].updatedAt < cutoff
      ensures ObjectUsed(db', {}, {}, p)
    {
      ObjectUsedAfterDelete(db, db', OldOperations(db, cutoff), OldDecisions(db, cutoff), p);
    }
  }

  /** An immediate second prune finds nothing. */
  lemma PruneIdempotent(db: Tables, cutoff: Seconds, keep: nat)
    ensures PlanPrune(Pruned(db, cutoff, keep), cutoff, keep) == PruneResult(0, 0, 0, 0, 0, 0)
  {
    hide OldRuns, OldAlerts, OldDecisions, OldOperations, OldObjects;
    RunsSettled(db.syncRuns, cutoff, keep);
    PrunedOperations(db, cutoff, keep);
    PrunedDecisions(db, cutoff, keep);
    PrunedAlerts(db, cutoff, keep);
    PrunedObjects(db, cutoff, keep);
    assert OldEntries(Pruned(db, cutoff, keep), cutoff) == {};
  }

  // ----- Pruning keeps the journal invariant -----

  /** A kept row is unchanged, except that a reference to a deleted row is cleared. */
  lemma PruneRow(db: Tables, cutoff: Seconds, keep: nat, r: int)
    ensures var db' := Pruned(db, cutoff, keep);
            r in db'.decisions ==>
              r in db.decisions && r !in OldDecisions(db, cutoff) &&
              AlertUsed(db, OldDecisions(db, cutoff), db.decisions[r].token) &&
              db'.decisions[r] == Cleared(db.decisions[r], OldDecisions(db, cutoff))
    ensures r in db.decisions && IsLive(db.decisions[r].status) ==> r in Pruned(db, cutoff, keep).decisions
    ensures r in db.decisions && Named(db, OldOperations(db, cutoff), r) ==> r in Pruned(db, cutoff, keep).decisions
  {
    hide OldRuns, OldAlerts, OldOperations, OldObjects, Named;
  }

  lemma PruneHolds(db: Tables, cutoff: Seconds, keep: nat, p: Prefix, r: int)
    ensures Holds(Pruned(db, cutoff, keep), p, r) <==> Holds(db, p, r)
  {
    hide OldRuns, OldAlerts, OldOperations, OldObjects, OldDecisions, Pruned;
    PruneRow(db, cutoff, keep, r);
  }

  lemma PruneOperation(db: Tables, cutoff: Seconds, keep: nat, t: Token)
    ensures var db' := Pruned(db, cutoff, keep);
            t in db'.operations ==>
                t in db.operations && t !in OldOperations(db, cutoff) && db'.operations[t] == db.operations[t]
    ensures t in db.operations && IsOpen(db.operations[t].status) ==> t in Pruned(db, cutoff, keep).operations
  {
    hide OldRuns, OldAlerts, OldObjects, OldDecisions, OldEntries;
  }

  lemma PruneItem(db: Tables, cutoff: Seconds, keep: nat, t: Token, it: Item)
    requires t in db.operations && t !in OldOperations(db, cutoff) && it in db.operations[t].items
    requires it.target in db.objects && PriorOk(db, it)
    ensures it.target in Pruned(db, cutoff, keep).objects && PriorOk(Pruned(db, cutoff, keep), it)
  {
    hide OldRuns, OldAlerts, OldOperations, OldDecisions, OldEntries;
    assert ObjectUsed(db, OldOperations(db, cutoff), OldDecisions(db, cutoff), it.target);
    if it.prior.Some? {
      assert Named(db, OldOperations(db, cutoff), it.prior.value);
      PruneRow(db, cutoff, keep, it.prior.value);
    }
  }

  lemma PruneRows(db: Tables, cutoff: Seconds, keep: nat)
    requires RowsOk(db) && OperationsOk(db) && AlertIdsUnique(db)
    ensures var db' := Pruned(db, cutoff, keep); RowsOk(db') && OperationsOk(db') && AlertIdsUnique(db')
  {
    hide OldRuns, OldOperations, OldDecisions, OldEntries, AlertUsed;
    var db' := Pruned(db, cutoff, keep);
    forall r | r in db'.decisions
      ensures r > 0 && db'.decisions[r].target in db'.objects && db'.decisions[r].token in db'.alerts &&
              db'.decisions[r].scenario == db'.alerts[db'.decisions[r].token].scenario &&
              db'.decisions[r].value == ObjectValue(db'.decisions[r].target, db'.decisions[r].scope)
    {
      PruneRow(db, cutoff, keep, r);
      assert ObjectUsed(db, OldOperations(db, cutoff), OldDecisions(db, cutoff), db.decisions[r].target);
    }
    PruneOperationsOk(db, cutoff, keep);
  }

  lemma PruneOperationsOk(db: Tables, cutoff: Seconds, keep: nat)
    requires OperationsOk(db)
    ensures OperationsOk(Pruned(db, cutoff, keep))
  {
    hide OldRuns, OldOperations, OldDecisions, OldEntries, OldAlerts, OldObjects;
    var db' := Pruned(db, cutoff, keep);
    forall t, it | t in db'.operations && it in db'.operations[t].items
      ensures it.target in db'.objects && PriorOk(db', it)
    {
      PruneOperation(db, cutoff, keep, t);
      PruneItem(db, cutoff, keep, t, it);
    }
  }

  lemma PruneOne(db: Tables, cutoff: Seconds, keep: nat)
    requires OneActive(db) && OneOpen(db)
    ensures var db' := Pruned(db, cutoff, keep); OneActive(db') && OneOpen(db')
  {
    hide Pruned;
    var db' := Pruned(db, cutoff, keep);
    forall p, r ensures Holds(db', p, r) <==> Holds(db, p, r) { PruneHolds(db, cutoff, keep, p, r); }
    forall s, p | OpenFor(db', s, p) ensures OpenFor(db, s, p) { PruneOperation(db, cutoff, keep, s); }
  }

  lemma PruneWaits(db: Tables, cutoff: Seconds, keep: nat)
    requires UnrecordedOk(db)
    ensures UnrecordedOk(Pruned(db, cutoff, keep))
  {
    hide Pruned;
    var db' := Pruned(db, cutoff, keep);
    forall p, r ensures Holds(db', p, r) <==> Holds(db, p, r) { PruneHolds(db, cutoff, keep, p, r); }
    forall t | t in db'.operations && IsUnrecorded(db'.operations[t].status)
      ensures t !in db'.alerts && forall it :: it in db'.operations[t].items ==> ItemWaits(db', it)
    {
      PruneOperation(db, cutoff, keep, t);
      PruneAlerts(db, cutoff, keep, t);
      forall it | it in db'.operations[t].items ensures ItemWaits(db', it) { assert ItemWaits(db, it); }
    }
  }

  /** Some live row was recorded from the alert. */
  ghost predicate LiveUnder(db: Tables, t: Token) {
    exists r :: r in db.decisions && IsLive(db.decisions[r].status) && db.decisions[r].token == t
  }

  lemma PruneAlerts(db: Tables, cutoff: Seconds, keep: nat, t: Token)
    ensures t in Pruned(db, cutoff, keep).alerts ==>
            t in db.alerts && Pruned(db, cutoff, keep).alerts[t] == db.alerts[t]
    ensures t in db.alerts && LiveUnder(db, t) ==> t in Pruned(db, cutoff, keep).alerts
  {
    hide OldRuns, OldOperations, OldEntries, OldObjects, Named;
  }

  lemma PruneReplaced(db: Tables, cutoff: Seconds, keep: nat)
    requires VerifiedOk(db) && OperationsOk(db)
    ensures VerifiedOk(Pruned(db, cutoff, keep))
  {
    hide Pruned, OldDecisions, OldOperations;
    var db' := Pruned(db, cutoff, keep);
    forall t, it | t in db'.operations && db'.operations[t].status == Verified && it in db'.operations[t].items
      ensures t in db'.alerts && ItemReplaced(db', t, it)
    {
      PruneOperation(db, cutoff, keep, t);
      assert ItemReplaced(db, t, it);
      PruneItemReplaced(db, cutoff, keep, t, it);
    }
    forall t | t in db'.operations && db'.operations[t].status == Verified
      ensures t in db'.alerts
    {
      PruneOperation(db, cutoff, keep, t);
      assert db'.operations[t].items != [];
      assert db'.operations[t].items[0] in db'.operations[t].items;
    }
  }

  lemma PruneItemReplaced(db: Tables, cutoff: Seconds, keep: nat, t: Token, it: Item)
    requires t in db.operations && t !in OldOperations(db, cutoff) && it in db.operations[t].items
    requires it.target in db.objects && PriorOk(db, it) && ItemReplaced(db, t, it) && t in db.alerts
    ensures ItemReplaced(Pruned(db, cutoff, keep), t, it) && t in Pruned(db, cutoff, keep).alerts
  {
    hide Pruned, OldOperations, OldDecisions;
    var db' := Pruned(db, cutoff, keep);
    forall n | IsReplacement(db, t, it.target, n)
      ensures IsReplacement(db', t, it.target, n)
    {
      PruneHolds(db, cutoff, keep, it.target, n);
      PruneRow(db, cutoff, keep, n);
    }
    var n :| IsReplacement(db, t, it.target, n);
    assert IsReplacement(db', t, it.target, n);
    PruneAlerts(db, cutoff, keep, t);
    PruneItem(db, cutoff, keep, t, it);
    if it.prior.Some? {
      PruneRow(db, cutoff, keep, it.prior.value);
      if db.decisions[it.prior.value].replacedBy.Some? {
        PruneRow(db, cutoff, keep, db.decisions[it.prior.value].replacedBy.value);
      }
    }
  }

  lemma PruneExpiring(db: Tables, cutoff: Seconds, keep: nat)
    requires ExpiringOk(db) && CompletedOk(db) && OperationsOk(db)
    ensures var db' := Pruned(db, cutoff, keep); ExpiringOk(db') && CompletedOk(db')
  {
    hide Pruned, OldOperations, OldDecisions;
    var db' := Pruned(db, cutoff, keep);
    forall r | r in db'.decisions && db'.decisions[r].status == Expiring
      ensures exists t :: Retires(db', t, r)
    {
      PruneRow(db, cutoff, keep, r);
      var t :| Retires(db, t, r);
      PruneOperation(db, cutoff, keep, t);
      assert Retires(db', t, r);
    }
    forall t | t in db'.operations && db'.operations[t].status == Completed
      ensures PriorsRetired(db', db'.operations[t].items)
    {
      PruneOperation(db, cutoff, keep, t);
      assert PriorsRetired(db, db.operations[t].items);
      forall it | it in db.operations[t].items && it.prior.Some?
        ensures it.prior.value in db'.decisions && !IsLive(db'.decisions[it.prior.value].status)
      {
        PruneItem(db, cutoff, keep, t, it);
        PruneRow(db, cutoff, keep, it.prior.value);
      }
    }
  }

  /** Pruning leaves no dangling reference and keeps one owner, make before break, and no leak. */
  lemma PruneKeepsJournal(db: Tables, cutoff: Seconds, keep: nat)
    requires Journal(db)
    ensures Journal(Pruned(db, cutoff, keep))
  {
    hide RowsOk, OperationsOk, AlertIdsUnique, OneActive, OneOpen, UnrecordedOk, VerifiedOk, ExpiringOk, CompletedOk,
         Pruned;
    PruneRows(db, cutoff, keep);
    PruneOne(db, cutoff, keep);
    PruneWaits(db, cutoff, keep);
    PruneReplaced(db, cutoff, keep);
    PruneExpiring(db, cutoff, keep);
  }
}
