/**
 Which rows pruning keeps and which it removes, said of the tables before and after: nothing young, unfinished or
 still referred to goes, nothing old and unreferenced stays, and of the finished runs the newest stay.
 */
module Retention {
  import opened Collections
  import opened Prefixes
  import opened Database
  import opened Prune

  /** The finished runs that started after run `id`, or at the same time under a greater id. */
  ghost function Later(runs: map<int, SyncRun>, id: int): set<int>
    requires id in runs
  {
    set i | i in runs && runs[i].completedAt.Some? && runs[i].terminal &&
      (runs[i].startedAt > runs[id].startedAt || (runs[i].startedAt == runs[id].startedAt && i > id))
  }

  ghost function Done(runs: map<int, SyncRun>): set<int> {
    set i | i in runs && runs[i].completedAt.Some? && runs[i].terminal
  }

  /**
   An unfinished run stays; a finished one stays exactly when it is young enough and fewer than `keep` finished runs
   are later; so at most `keep` are left.
   */
  ghost predicate RunsRetained(before: map<int, SyncRun>, after: map<int, SyncRun>, cutoff: Seconds, keep: nat) {
    (forall id :: id in after ==> id in before && after[id] == before[id]) &&
    (forall id :: id in before && !(before[id].completedAt.Some? && before[id].terminal) ==> id in after) &&
    (forall id :: id in before && before[id].completedAt.Some? && before[id].terminal ==>
       (id in after <==> before[id].completedAt.value >= cutoff && |Later(before, id)| < keep)) &&
    |Done(after)| <= keep
  }

  ghost predicate OperationsRetained(before: Tables, after: Tables, cutoff: Seconds) {
    (forall t :: t in after.operations ==> t in before.operations && after.operations[t] == before.operations[t]) &&
    forall t :: t in before.operations ==>
      var op := before.operations[t];
      t !in after.operations <==>
        op.completedAt.Some? && op.completedAt.value < cutoff && (op.status == Completed || op.status == Failed)
  }

  /** A row that goes has ended, was last checked before the cutoff, and no remaining operation replaces it. */
  ghost predicate DecisionsRetained(before: Tables, after: Tables, cutoff: Seconds) {
    (forall r :: r in after.decisions ==> r in before.decisions) &&
    (forall r :: r in before.decisions ==>
       var d := before.decisions[r];
       r !in after.decisions <==>
         (d.status == Expired || d.status == Orphaned) && d.verifiedAt < cutoff && d.expiresAt < cutoff &&
         forall t, it :: t in after.operations && it in after.operations[t].items ==> it.prior != Some(r)) &&
    forall r :: r in after.decisions && r in before.decisions ==>
      var n := before.decisions[r].replacedBy;
      after.decisions[r] == before.decisions[r].(
        replacedBy := if n.Some? && n.value in before.decisions && n.value !in after.decisions then None else n)
  }

  ghost predicate AlertsRetained(before: Tables, after: Tables, cutoff: Seconds) {
    (forall t :: t in after.alerts ==> t in before.alerts && after.alerts[t] == before.alerts[t]) &&
    forall t :: t in before.alerts ==>
      (t !in after.alerts <==>
         before.alerts[t].createdAt < cutoff && forall r :: r in after.decisions ==> after.decisions[r].token != t)
  }

  ghost predicate ObjectsRetained(before: Tables, after: Tables, cutoff: Seconds) {
    (forall p :: p in after.objects ==> p in before.objects && after.objects[p] == before.objects[p]) &&
    forall p :: p in before.objects ==>
      (p !in after.objects <==>
         !before.objects[p].desired && before.objects[p].updatedAt < cutoff &&
         (forall r :: r in after.decisions ==> after.decisions[r].target != p) &&
         forall t, it :: t in after.operations && it in after.operations[t].items ==> it.target != p)
  }

  ghost predicate EntriesRetained(before: Tables, after: Tables, cutoff: Seconds) {
    (forall k :: k in after.entries ==> k in before.entries && after.entries[k] == before.entries[k]) &&
    forall k :: k in before.entries ==>
      (k !in after.entries <==> !before.entries[k].active && before.entries[k].lastSeen < cutoff)
  }

  ghost predicate Retained(before: Tables, after: Tables, cutoff: Seconds, keep: nat) {
    after.feeds == before.feeds && RunsRetained(before.syncRuns, after.syncRuns, cutoff, keep) &&
    OperationsRetained(before, after, cutoff) && DecisionsRetained(before, after, cutoff) &&
    AlertsRetained(before, after, cutoff) && ObjectsRetained(before, after, cutoff) &&
    EntriesRetained(before, after, cutoff)
  }

  /** Each count is the number of rows its table lost. */
  ghost predicate CountsLost(before: Tables, after: Tables, result: PruneResult) {
    result.syncRuns == |before.syncRuns| - |after.syncRuns| &&
    result.operations == |before.operations| - |after.operations| &&
    result.decisions == |before.decisions| - |after.decisions| &&
    result.alerts == |before.alerts| - |after.alerts| &&
    result.objects == |before.objects| - |after.objects| &&
    result.entries == |before.entries| - |after.entries|
  }

  // ----- Finished runs -----

  lemma AheadIsLater(runs: map<int, SyncRun>, id: int)
    requires id in runs
    ensures Ahead(runs, id) == Later(runs, id)
  {
    forall i ensures i in Ahead(runs, id) <==> i in Later(runs, id) {}
  }

  /** The run of a set that comes last in the order newest first. */
  lemma {:induction false} Oldest(runs: map<int, SyncRun>, s: set<int>) returns (m: int)
    requires s != {} && forall i :: i in s ==> i in runs
    ensures m in s && forall i :: i in s ==> i == m || Newer(runs, i, m)
  {
    m := PickOne(s);
    var rest := s - {m};
    assert forall i :: i in s ==> i == m || i in rest;
    if rest != {} {
      var other := Oldest(runs, rest);
      if Newer(runs, m, other) { m := other; }
    }
  }

  lemma PickOne<T>(s: set<T>) returns (x: T)
    requires s != {}
    ensures x in s
  {
    x :| x in s;
  }

  /** If fewer than `keep` finished runs are ahead of each of them, they are at most `keep`. */
  lemma FewStay(runs: map<int, SyncRun>, s: set<int>, keep: nat)
    requires forall i :: i in s ==> i in runs && Finished(runs[i]) && |Ahead(runs, i)| < keep
    ensures |s| <= keep
  {
    if s != {} {
      var m := Oldest(runs, s);
      forall i | i in s - {m} ensures i in Ahead(runs, m) {}
      SubsetSize(s - {m}, Ahead(runs, m));
    }
  }

  lemma PrunedRunsRetained(runs: map<int, SyncRun>, cutoff: Seconds, keep: nat)
    ensures RunsRetained(runs, runs - OldRuns(runs, cutoff, keep), cutoff, keep)
  {
    hide Newer, Ahead, Later;
    var left := runs - OldRuns(runs, cutoff, keep);
    forall id | id in runs ensures Ahead(runs, id) == Later(runs, id) { AheadIsLater(runs, id); }
    FewStay(runs, Done(left), keep);
  }

  // ----- The other tables -----

  lemma PrunedOperationsRetained(db: Tables, cutoff: Seconds, keep: nat)
    ensures OperationsRetained(db, Pruned(db, cutoff, keep), cutoff)
  {
    hide OldRuns, OldDecisions, OldAlerts, OldObjects, OldEntries;
  }

  lemma NamedMeans(db: Tables, cutoff: Seconds, keep: nat, r: int)
    ensures var after := Pruned(db, cutoff, keep);
            !Named(db, OldOperations(db, cutoff), r) <==>
            forall t, it :: t in after.operations && it in after.operations[t].items ==> it.prior != Some(r)
  {
    hide OldRuns, OldDecisions, OldAlerts, OldObjects, OldEntries, OldOperations;
    var after := Pruned(db, cutoff, keep);
    assert after.operations == db.operations - OldOperations(db, cutoff);
    if Named(db, OldOperations(db, cutoff), r) {
      var t :| t in db.operations && t !in OldOperations(db, cutoff) &&
        exists it :: it in db.operations[t].items && it.prior == Some(r);
      assert t in after.operations && after.operations[t] == db.operations[t];
    }
  }

  lemma PrunedDecisionsRetained(db: Tables, cutoff: Seconds, keep: nat)
    ensures DecisionsRetained(db, Pruned(db, cutoff, keep), cutoff)
  {
    hide OldRuns, OldAlerts, OldObjects, OldEntries, OldOperations, Named;
    forall r { NamedMeans(db, cutoff, keep, r); }
  }

  lemma PrunedAlertsRetained(db: Tables, cutoff: Seconds, keep: nat)
    ensures AlertsRetained(db, Pruned(db, cutoff, keep), cutoff)
  {
    hide OldRuns, OldDecisions, OldObjects, OldEntries, OldOperations, AlertUsed;
    var after := Pruned(db, cutoff, keep);
    forall t { AlertUsedAfterDelete(db, after.decisions, OldDecisions(db, cutoff), t); }
  }

  lemma PrunedObjectsRetained(db: Tables, cutoff: Seconds, keep: nat)
    ensures ObjectsRetained(db, Pruned(db, cutoff, keep), cutoff)
  {
    hide OldRuns, OldDecisions, OldAlerts, OldEntries, OldOperations, ObjectUsed;
    var after := Pruned(db, cutoff, keep);
    forall p
      ensures !ObjectUsed(db, OldOperations(db, cutoff), OldDecisions(db, cutoff), p) <==>
              (forall r :: r in after.decisions ==> after.decisions[r].target != p) &&
              forall t, it :: t in after.operations && it in after.operations[t].items ==> it.target != p
    {
      ObjectUsedAfterDelete(db, after, OldOperations(db, cutoff), OldDecisions(db, cutoff), p);
      UsedMeans(after, p);
    }
  }

  lemma UsedMeans(db: Tables, p: Prefix)
    ensures !ObjectUsed(db, {}, {}, p) <==>
            (forall r :: r in db.decisions ==> db.decisions[r].target != p) &&
            forall t, it :: t in db.operations && it in db.operations[t].items ==> it.target != p
  {
  }

  lemma PrunedEntriesRetained(db: Tables, cutoff: Seconds, keep: nat)
    ensures EntriesRetained(db, Pruned(db, cutoff, keep), cutoff)
  {
    hide OldRuns, OldDecisions, OldAlerts, OldObjects, OldOperations;
  }

  lemma PruneRetains(db: Tables, cutoff: Seconds, keep: nat)
    ensures Retained(db, Pruned(db, cutoff, keep), cutoff, keep)
  {
    hide RunsRetained, OperationsRetained, DecisionsRetained, AlertsRetained, ObjectsRetained, EntriesRetained;
    hide OldRuns, OldDecisions, OldAlerts, OldObjects, OldEntries, OldOperations;
    PrunedRunsRetained(db.syncRuns, cutoff, keep);
    PrunedOperationsRetained(db, cutoff, keep);
    PrunedDecisionsRetained(db, cutoff, keep);
    PrunedAlertsRetained(db, cutoff, keep);
    PrunedObjectsRetained(db, cutoff, keep);
    PrunedEntriesRetained(db, cutoff, keep);
  }

  lemma WithoutSize<K, V>(m: map<K, V>, gone: set<K>)
    requires gone <= m.Keys
    ensures |m - gone| == |m| - |gone|
  {
    assert (m - gone).Keys == m.Keys - gone;
  }

  /** The plan's counts are the rows that go. */
  lemma PlanCounts(db: Tables, cutoff: Seconds, keep: nat)
    ensures CountsLost(db, Pruned(db, cutoff, keep), PlanPrune(db, cutoff, keep))
  {
    hide OldRuns, OldDecisions, OldAlerts, OldObjects, OldEntries, OldOperations, DecisionsWithout;
    OldRowsListed(db, cutoff, keep);
    WithoutSize(db.syncRuns, OldRuns(db.syncRuns, cutoff, keep));
    WithoutSize(db.operations, OldOperations(db, cutoff));
    WithoutSize(db.alerts, OldAlerts(db, cutoff));
    WithoutSize(db.objects, OldObjects(db, cutoff));
    WithoutSize(db.entries, OldEntries(db, cutoff));
    WithoutSize(db.decisions, OldDecisions(db, cutoff));
  }

  lemma OldRowsListed(db: Tables, cutoff: Seconds, keep: nat)
    ensures OldRuns(db.syncRuns, cutoff, keep) <= db.syncRuns.Keys && OldOperations(db, cutoff) <= db.operations.Keys
    ensures OldAlerts(db, cutoff) <= db.alerts.Keys && OldObjects(db, cutoff) <= db.objects.Keys
    ensures OldEntries(db, cutoff) <= db.entries.Keys && OldDecisions(db, cutoff) <= db.decisions.Keys
    ensures |DecisionsWithout(db.decisions, OldDecisions(db, cutoff))| == |db.decisions - OldDecisions(db, cutoff)|
  {
    hide Newer, Ahead, Named, AlertUsed, ObjectUsed, OldOperation, OldDecision;
    SameKeys(DecisionsWithout(db.decisions, OldDecisions(db, cutoff)), db.decisions - OldDecisions(db, cutoff));
  }

  lemma SameKeys<K, V>(m: map<K, V>, n: map<K, V>)
    requires forall k :: k in m <==> k in n
    ensures |m| == |n|
  {
    assert m.Keys == n.Keys;
  }
}
