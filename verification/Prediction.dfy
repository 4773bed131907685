/**
 `dryRun` of internal/reconcile/reconcile.go, and why it predicts an enforcing run.
 */
module Prediction {
  import opened Collections
  import opened Prefixes
  import opened Planner
  import opened Database
  import opened Invariants
  import opened Protocol
  import opened StateStore
  import opened Verification
  import opened Effects
  import opened RunFacts

  /** The dry run's own test that an active row may stay. */
  predicate DryKeeps(row: DecisionRow, o: Object, now: Seconds, refreshBefore: Seconds) {
    o.primary.feedName != "" && row.expiresAt - now > refreshBefore && row.scope == o.scope &&
    row.value == ObjectValue(o.prefix, o.scope) && row.scenario == Scenario(o.primary.feedName)
  }

  ghost predicate DryMissing(db: Tables, o: Object) { o.desired && NoActive(db, o.prefix) }

  ghost predicate DryDue(db: Tables, o: Object, now: Seconds, refreshBefore: Seconds) {
    o.desired && exists r :: Holds(db, o.prefix, r) && !DryKeeps(db.decisions[r], o, now, refreshBefore)
  }

  ghost predicate Wants(objects: seq<Object>, p: Prefix) { exists o :: o in objects && o.desired && o.prefix == p }

  ghost predicate DryExtra(db: Tables, objects: seq<Object>, p: Prefix) { !Wants(objects, p) &&
                           exists r :: Holds(db, p, r) }

  ghost function DryAdd(db: Tables, objects: seq<Object>): set<Prefix> {
    set o | o in objects && DryMissing(db, o) :: o.prefix
  }

  ghost function DryRefresh(db: Tables, objects: seq<Object>, now: Seconds, refreshBefore: Seconds): set<Prefix> {
    set o | o in objects && DryDue(db, o, now, refreshBefore) :: o.prefix
  }

  ghost function DryRemove(db: Tables, objects: seq<Object>): set<Prefix> {
    set p | p in db.objects && DryExtra(db, objects, p)
  }

  /** The counts a dry run reports. */
  ghost predicate DryCounted(db: Tables, objects: seq<Object>, now: Seconds, refreshBefore: Seconds, report: Report,
                             report': Report) {
    report'.added == report.added + |DryAdd(db, objects)| &&
    report'.refreshed == report.refreshed + |DryRefresh(db, objects, now, refreshBefore)| &&
    report'.removed == report.removed + |DryRemove(db, objects)| &&
    report'.added + report'.refreshed + report'.skipped ==
    report.added + report.refreshed + report.skipped + |objects| &&
    report' == report.(added := report'.added, refreshed := report'.refreshed, removed := report'.removed,
        skipped := report'.skipped)
  }

  lemma DryStep(db: Tables, objects: seq<Object>, i: nat, now: Seconds, refreshBefore: Seconds)
    requires i < |objects| && DistinctPrefixes(objects)
    ensures var o := objects[i];
            DryAdd(db, objects[..i + 1]) == DryAdd(db, objects[..i]) + (if DryMissing(db, o) then {o.prefix} else {}) &&
            DryRefresh(db, objects[..i + 1], now, refreshBefore) ==
            DryRefresh(db, objects[..i], now, refreshBefore) +
            (if DryDue(db, o, now, refreshBefore) then {o.prefix} else {}) &&
            o.prefix !in DryAdd(db, objects[..i]) && o.prefix !in DryRefresh(db, objects[..i], now, refreshBefore)
  {
    hide DryMissing, DryDue;
    assert objects[..i + 1] == objects[..i] + [objects[i]];
    forall o | o in objects[..i]
      ensures o.prefix != objects[i].prefix
    {
      var j :| 0 <= j < i && objects[j] == o;
    }
  }

  /** One object of the plan. */
  method DryOne(ghost db: Tables, o: Object, existing: RecordMap, active: ActiveMap, report: Report, now: Seconds,
                refreshBefore: Seconds)
    returns (report': Report)
    requires Journal(db) && existing == ReadObjects(db) && IsActiveMap(db, active)
    ensures report' ==
            if DryMissing(db, o) then report.(added := report.added + 1)
            else if DryDue(db, o, now, refreshBefore) then report.(refreshed := report.refreshed + 1)
            else report.(skipped := report.skipped + 1)
    ensures !(DryMissing(db, o) && DryDue(db, o, now, refreshBefore))
  {
    hide OperationsOk, AlertIdsUnique, OneOpen, UnrecordedOk, VerifiedOk, ExpiringOk, CompletedOk;
    if !o.desired {
      return report.(skipped := report.skipped + 1);
    }
    if o.prefix !in existing {
      return report.(added := report.added + 1);
    }
    if o.prefix !in active {
      return report.(added := report.added + 1);
    }
    assert Holds(db, o.prefix, active[o.prefix].id);
    if !DryKeeps(active[o.prefix].row, o, now, refreshBefore) {
      return report.(refreshed := report.refreshed + 1);
    }
    return report.(skipped := report.skipped + 1);
  }

  /** The counters after the first `n` objects of the plan. */
  ghost predicate DrySoFar(db: Tables, objects: seq<Object>, n: nat, now: Seconds, refreshBefore: Seconds,
                           report: Report, report': Report)
    requires n <= |objects|
  {
    report'.added == report.added + |DryAdd(db, objects[..n])| &&
    report'.refreshed == report.refreshed + |DryRefresh(db, objects[..n], now, refreshBefore)| &&
    report'.added + report'.refreshed + report'.skipped == report.added + report.refreshed + report.skipped + n &&
    report' == report.(added := report'.added, refreshed := report'.refreshed, skipped := report'.skipped)
  }

  lemma DryCountStep(db: Tables, objects: seq<Object>, i: nat, now: Seconds, refreshBefore: Seconds, report: Report,
                     was: Report, report': Report)
    requires i < |objects| && DistinctPrefixes(objects) && DrySoFar(db, objects, i, now, refreshBefore, report, was)
    requires !(DryMissing(db, objects[i]) && DryDue(db, objects[i], now, refreshBefore))
    requires report' ==
             if DryMissing(db, objects[i]) then was.(added := was.added + 1)
             else if DryDue(db, objects[i], now, refreshBefore) then was.(refreshed := was.refreshed + 1)
             else was.(skipped := was.skipped + 1)
    ensures DrySoFar(db, objects, i + 1, now, refreshBefore, report, report')
  {
    hide DryMissing, DryDue, DryAdd, DryRefresh, DistinctPrefixes;
    DryStep(db, objects, i, now, refreshBefore);
  }

  method DryCounts(ghost db: Tables, objects: seq<Object>, existing: RecordMap, active: ActiveMap, report: Report,
                   now: Seconds, refreshBefore: Seconds)
    returns (report': Report)
    requires Journal(db) && existing == ReadObjects(db) && IsActiveMap(db, active) && DistinctPrefixes(objects)
    ensures DryCounted(db, objects, now, refreshBefore, report, report')
  {
    hide Journal, ReadObjects, IsActiveMap, DistinctPrefixes, DryMissing, DryDue, DryExtra, Wants, DryAdd, DryRefresh,
         DryRemove, DrySoFar, DryCounted;
    report' := report;
    var wanted: set<Prefix> := {};
    DryEmpty(db, objects, now, refreshBefore, report);
    for i := 0 to |objects|
      invariant DrySoFar(db, objects, i, now, refreshBefore, report, report')
      invariant forall p :: p in wanted <==> p in existing && Wants(objects[..i], p)
    {
      WantsStep(objects, i);
      if objects[i].desired && objects[i].prefix in existing { wanted := wanted + {objects[i].prefix}; }
      ghost var was := report';
      report' := DryOne(db, objects[i], existing, active, report', now, refreshBefore);
      DryCountStep(db, objects, i, now, refreshBefore, report, was, report');
    }
    assert objects[..|objects|] == objects;
    var removed := DryExtras(db, objects, existing, active, wanted);
    DryDone(db, objects, now, refreshBefore, report, report');
    report' := report'.(removed := report'.removed + removed);
  }

  lemma DryDone(db: Tables, objects: seq<Object>, now: Seconds, refreshBefore: Seconds, report: Report, report': Report)
    requires DrySoFar(db, objects, |objects|, now, refreshBefore, report, report')
    ensures DryCounted(db, objects, now, refreshBefore, report,
            report'.(removed := report'.removed + |DryRemove(db, objects)|))
  {
    hide DryAdd, DryRefresh, DryRemove;
    assert objects[..|objects|] == objects;
  }

  lemma DryEmpty(db: Tables, objects: seq<Object>, now: Seconds, refreshBefore: Seconds, report: Report)
    ensures DrySoFar(db, objects, 0, now, refreshBefore, report, report)
    ensures forall p :: !Wants(objects[..0], p)
  {
    assert DryAdd(db, objects[..0]) == {} && DryRefresh(db, objects[..0], now, refreshBefore) == {};
  }

  lemma WantsStep(objects: seq<Object>, i: nat)
    requires i < |objects|
    ensures forall p :: Wants(objects[..i + 1], p) <==>
            Wants(objects[..i], p) || (objects[i].desired && objects[i].prefix == p)
  {
    assert objects[..i + 1] == objects[..i] + [objects[i]];
  }

  /** Active rows whose object the plan does not want. */
  method DryExtras(ghost db: Tables, ghost objects: seq<Object>, ghost existing: RecordMap, active: ActiveMap,
                   wanted: set<Prefix>)
    returns (n: nat)
    requires Journal(db) && existing == ReadObjects(db) && IsActiveMap(db, active)
    requires forall p :: p in wanted <==> p in existing && Wants(objects, p)
    ensures n == |DryRemove(db, objects)|
  {
    hide Journal, ReadObjects, Wants, IsActiveMap, DryRemove;
    n := 0;
    var left := active.Keys;
    ghost var extra: set<Prefix> := {};
    while left != {}
      invariant left <= active.Keys
      invariant extra == set p | p in active && p !in left && p !in wanted
      invariant n == |extra|
    {
      var p := Pick(left);
      left := left - {p};
      if p !in wanted {
        n := n + 1;
        extra := extra + {p};
      }
    }
    assert extra == set p | p in active && p !in wanted;
    ExtrasAre(db, objects, active, wanted);
  }

  lemma ExtrasAre(db: Tables, objects: seq<Object>, active: ActiveMap, wanted: set<Prefix>)
    requires Journal(db) && IsActiveMap(db, active)
    requires forall p :: p in wanted <==> p in ReadObjects(db) && Wants(objects, p)
    ensures (set p | p in active && p !in wanted) == DryRemove(db, objects)
  {
    hide Journal, ReadObjects, Wants;
    ActiveIsKnown(db, active);
  }

  lemma ActiveIsKnown(db: Tables, active: ActiveMap)
    requires Journal(db) && IsActiveMap(db, active)
    ensures active.Keys <= db.objects.Keys && ReadObjects(db).Keys == db.objects.Keys
  {
    hide OperationsOk, AlertIdsUnique, OneActive, OneOpen, UnrecordedOk, VerifiedOk, ExpiringOk, CompletedOk;
  }

  // ----- Prediction -----

  /** Objects name their primary feed as the store does. */
  ghost predicate NamesAgree(db: Tables, objects: seq<Object>) {
    forall o :: o in objects ==> o.primary.feedId in db.feeds && o.primary.feedName == db.feeds[o.primary.feedId].name
  }

  /** An active row of a wanted object has run out. */
  ghost predicate SomeRunOut(db: Tables, objects: seq<Object>, now: Seconds) {
    exists p, r :: Wants(objects, p) && Holds(db, p, r) && db.decisions[r].expiresAt <= now
  }

  lemma PlannedTables(db: Tables, objects: seq<Object>, now: Seconds, planned: Tables, p: Prefix)
    requires PlanApplied(db, objects, now, planned)
    ensures IsWanted(planned, p) <==> Wants(objects, p)
    ensures forall r :: Holds(planned, p, r) <==> Holds(db, p, r)
  {
    if IsWanted(planned, p) {
      var o :| o in objects && o.prefix == p;
    }
  }

  /** The dry run's test and the real one agree on every wanted object. */
  lemma KeepsAgree(db: Tables, objects: seq<Object>, now: Seconds, planned: Tables, refreshBefore: Seconds, o: Object,
                   r: int)
    requires FeedsOk(db.feeds) && PlanApplied(db, objects, now, planned) && NamesAgree(db, objects) && o in objects &&
             Holds(db, o.prefix, r)
    ensures Keeps(planned, o.prefix, r, now, refreshBefore) <==> DryKeeps(db.decisions[r], o, now, refreshBefore)
  {
  }

  lemma RemovalsPredicted(db: Tables, objects: seq<Object>, now: Seconds, planned: Tables)
    requires RowsOk(db) && PlanApplied(db, objects, now, planned)
    ensures ToRemove(planned) == DryRemove(db, objects)
  {
    hide PlanApplied, Wants;
    PlanKeepsObjects(db, objects, now, planned);
    forall p
      ensures p in ToRemove(planned) <==> p in DryRemove(db, objects)
    {
      PlannedTables(db, objects, now, planned, p);
    }
  }

  lemma PlanKeepsObjects(db: Tables, objects: seq<Object>, now: Seconds, planned: Tables)
    requires PlanApplied(db, objects, now, planned)
    ensures db.objects.Keys <= planned.objects.Keys
    ensures forall p :: Wants(objects, p) ==> p in planned.objects
  {
  }

  lemma WorkPredicted(db: Tables, objects: seq<Object>, now: Seconds, planned: Tables, refreshBefore: Seconds,
                      p: Prefix)
    requires FeedsOk(db.feeds) && OneActive(db) && PlanApplied(db, objects, now, planned) &&
             NamesAgree(db, objects) && refreshBefore > 0
    requires DistinctPrefixes(objects)
    ensures p in ToAdd(planned, now) <==>
              p in DryAdd(db, objects) ||
              (p in DryRefresh(db, objects, now, refreshBefore) &&
               forall r :: Holds(db, p, r) ==> db.decisions[r].expiresAt <= now)
    ensures p in ToRefresh(planned, now, refreshBefore) <==>
              p in DryRefresh(db, objects, now, refreshBefore) &&
              exists r :: Holds(db, p, r) && db.decisions[r].expiresAt > now
  {
    hide PlanApplied, Keeps, FeedsOk;
    PlanKeepsObjects(db, objects, now, planned);
    PlannedTables(db, objects, now, planned, p);
    if Wants(objects, p) {
      var o :| o in objects && o.desired && o.prefix == p;
      forall q | q in objects && q.prefix == p ensures q == o { SamePrefix(objects, o, q); }
      forall r | Holds(db, p, r)
        ensures Keeps(planned, p, r, now, refreshBefore) <==> DryKeeps(db.decisions[r], o, now, refreshBefore)
        ensures planned.decisions[r] == db.decisions[r]
      {
        KeepsAgree(db, objects, now, planned, refreshBefore, o, r);
        PlanKeepsRows(db, objects, now, planned);
      }
    }
  }

  lemma PlanKeepsRows(db: Tables, objects: seq<Object>, now: Seconds, planned: Tables)
    requires PlanApplied(db, objects, now, planned)
    ensures planned.decisions == db.decisions
  {
  }

  lemma SamePrefix(objects: seq<Object>, a: Object, b: Object)
    requires DistinctPrefixes(objects) && a in objects && b in objects && a.prefix == b.prefix
    ensures a == b
  {
    var i :| 0 <= i < |objects| && objects[i] == a;
    var j :| 0 <= j < |objects| && objects[j] == b;
  }

  /**
   A dry run and an enforcing run on the same tables, plan and time, with nothing open: they agree on
   what is removed and on what is added or refreshed, and on each of the two exactly when no active row
   of a wanted object has run out.
   */
  lemma DryRunPredicts(cfg: Config, db: Tables, objects: seq<Object>, planned: Tables, now: Seconds, report: Report,
                       dry: Report, done: Report, db': Tables)
    requires Journal(db) && FeedsOk(db.feeds) && Quiescent(db) && NamesAgree(db, objects) && cfg.refreshBefore > 0
    requires DryCounted(db, objects, now, cfg.refreshBefore, report, dry) &&
             Enforced(cfg, db, objects, planned, now, report, done, db')
    ensures dry.removed == done.removed && dry.added + dry.refreshed == done.added + done.refreshed
    ensures dry.added == done.added && dry.refreshed == done.refreshed <==> !SomeRunOut(db, objects, now)
  {
    hide FeedsOk, OneActive, RowsOk, OperationsOk, AlertIdsUnique, OneOpen, UnrecordedOk, VerifiedOk, ExpiringOk,
         CompletedOk;
    hide NamesAgree, PlanApplied, NeedsCreate, NeedsRefresh, NeedsRemoval, DryMissing, DryDue, DryExtra, ValidObject,
         SourcesFit, Converged, SomeRunOut;
    var rb := cfg.refreshBefore;
    RemovalsPredicted(db, objects, now, planned);
    SetsPredicted(db, objects, now, planned, rb);
    SetsSplit(ToAdd(planned, now), ToRefresh(planned, now, rb), DryAdd(db, objects), DryRefresh(db, objects, now, rb));
  }

  lemma SetsPredicted(db: Tables, objects: seq<Object>, now: Seconds, planned: Tables, refreshBefore: Seconds)
    requires FeedsOk(db.feeds) && OneActive(db) && PlanApplied(db, objects, now, planned) &&
             NamesAgree(db, objects) && refreshBefore > 0
    requires DistinctPrefixes(objects)
    ensures var a, f, d, e := ToAdd(planned, now), ToRefresh(planned, now, refreshBefore), DryAdd(db, objects),
              DryRefresh(db, objects, now, refreshBefore);
            d <= a && f <= e && a + f == d + e && a !! f && d !! e &&
            (a == d <==> !SomeRunOut(db, objects, now))
  {
    hide FeedsOk, PlanApplied, NamesAgree, NeedsCreate, NeedsRefresh;
    forall p
      ensures p in ToAdd(planned, now) <==>
                p in DryAdd(db, objects) ||
                (p in DryRefresh(db, objects, now, refreshBefore) &&
                 forall r :: Holds(db, p, r) ==> db.decisions[r].expiresAt <= now)
      ensures p in ToRefresh(planned, now, refreshBefore) <==>
                p in DryRefresh(db, objects, now, refreshBefore) &&
                exists r :: Holds(db, p, r) && db.decisions[r].expiresAt > now
      ensures !(p in DryAdd(db, objects) && p in DryRefresh(db, objects, now, refreshBefore))
      ensures Wants(objects, p) && (exists r :: Holds(db, p, r) && db.decisions[r].expiresAt <= now) ==>
              p in DryRefresh(db, objects, now, refreshBefore)
    {
      WorkPredicted(db, objects, now, planned, refreshBefore, p);
      DryApart(db, objects, now, refreshBefore, p);
    }
    if SomeRunOut(db, objects, now) {
      var p, r :| Wants(objects, p) && Holds(db, p, r) && db.decisions[r].expiresAt <= now;
      assert p in DryRefresh(db, objects, now, refreshBefore);
    }
    RunOutWitness(db, objects, now, refreshBefore);
  }

  lemma DryApart(db: Tables, objects: seq<Object>, now: Seconds, refreshBefore: Seconds, p: Prefix)
    requires DistinctPrefixes(objects) && OneActive(db) && refreshBefore > 0
    ensures !(p in DryAdd(db, objects) && p in DryRefresh(db, objects, now, refreshBefore))
    ensures Wants(objects, p) && (exists r :: Holds(db, p, r) && db.decisions[r].expiresAt <= now) ==>
            p in DryRefresh(db, objects, now, refreshBefore)
  {
    if Wants(objects, p) && exists r :: Holds(db, p, r) && db.decisions[r].expiresAt <= now {
      var o :| o in objects && o.desired && o.prefix == p;
      var r :| Holds(db, p, r) && db.decisions[r].expiresAt <= now;
      assert DryDue(db, o, now, refreshBefore);
    }
  }

  lemma RunOutWitness(db: Tables, objects: seq<Object>, now: Seconds, refreshBefore: Seconds)
    ensures forall p :: p in DryRefresh(db, objects, now, refreshBefore) && (forall r :: Holds(db, p, r) ==>
            db.decisions[r].expiresAt <= now) ==>
              SomeRunOut(db, objects, now)
  {
    forall p | p in DryRefresh(db, objects, now, refreshBefore) && forall r :: Holds(db, p, r) ==>
        db.decisions[r].expiresAt <= now
      ensures SomeRunOut(db, objects, now)
    {
      var o :| o in objects && DryDue(db, o, now, refreshBefore) && o.prefix == p;
      var r :| Holds(db, p, r) && !DryKeeps(db.decisions[r], o, now, refreshBefore);
      assert Wants(objects, p);
    }
  }

  lemma SetsSplit(a: set<Prefix>, f: set<Prefix>, d: set<Prefix>, e: set<Prefix>)
    requires d <= a && f <= e && a + f == d + e && a !! f && d !! e
    ensures |a| + |f| == |d| + |e|
    ensures |a| == |d| <==> a == d
  {
    assert |a + f| == |a| + |f| && |d + e| == |d| + |e|;
    if |a| == |d| { Pigeonhole(a, d); }
  }
}
