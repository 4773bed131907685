/**
 What a whole run adds up to: how planning, batches and removals compose, and what a run that
 returns no error has achieved.
 */
module RunFacts {
  import opened Collections
  import opened Prefixes
  import opened Planner
  import opened Database
  import opened Invariants
  import opened Protocol
  import opened ProtocolLaws
  import opened StateStore
  import opened Verification
  import opened Effects
  import opened Workload
  import opened OperationFacts

  method CountUnwanted(records: RecordMap) returns (n: nat)
    ensures n == |set p | p in records && !records[p].desired|
  {
    n := 0;
    var left := records.Keys;
    ghost var seen: set<Prefix> := {};
    while left != {}
      invariant left <= records.Keys
      invariant seen == set p | p in records && p !in left && !records[p].desired
      invariant n == |seen|
    {
      var p := Pick(left);
      left := left - {p};
      if !records[p].desired {
        n := n + 1;
        seen := seen + {p};
      }
    }
    assert seen == set p | p in records && !records[p].desired;
  }

  // ----- What a successful run leaves -----

  /** Nothing is open; wanted objects have a row that serves them, and no other object has an active row. */
  ghost predicate Converged(db: Tables, now: Seconds) {
    Quiescent(db) &&
    forall p :: p in db.objects ==> if db.objects[p].desired then Served(db, p, now) else NoActive(db, p)
  }

  /** In converged tables an active row is for a wanted object, and serves it. */
  lemma ConvergedServes(db: Tables, now: Seconds, p: Prefix, r: int)
    requires Journal(db) && Converged(db, now) && Holds(db, p, r)
    ensures IsWanted(db, p) && Serves(db, p, r)
  {
    hide OperationsOk, AlertIdsUnique, OneOpen, UnrecordedOk, VerifiedOk, ExpiringOk, CompletedOk;
    assert p in db.objects;
    var q :| Serves(db, p, q);
  }

  /** Every ban of this program in force is that of an active row that serves a wanted object, and bans that object. */
  ghost predicate BansServed(w: World) {
    forall a, b :: LiveBanIn(w.server, w.clock, a, b) ==>
      b.id in w.db.decisions &&
      var p := w.db.decisions[b.id].target;
      IsWanted(w.db, p) && Serves(w.db, p, b.id) && BansPrefix(b, p)
  }

  lemma ConvergedBansServed(cfg: Config, w: World, now: Seconds)
    requires Inv(cfg, w) && cfg.honest && Converged(w.db, now)
    ensures BansServed(w)
  {
    hide Journal, Catalog, Owned, Ledger, NoOrphans, Serves, BackedBy, BansPrefix, Converged;
    ConvergedQuiet(w.db, now);
    QuietBansHeld(cfg, w);
    forall a, b | LiveBanIn(w.server, w.clock, a, b)
      ensures b.id in w.db.decisions
      ensures IsWanted(w.db, w.db.decisions[b.id].target) && Serves(w.db, w.db.decisions[b.id].target, b.id)
      ensures BansPrefix(b, w.db.decisions[b.id].target)
    {
      ConvergedServes(w.db, now, w.db.decisions[b.id].target, b.id);
      RowBans(cfg, w, w.db.decisions[b.id].target, b.id, b);
    }
  }

  lemma ConvergedQuiet(db: Tables, now: Seconds)
    requires Converged(db, now)
    ensures Quiescent(db)
  {
  }

  /** From the planned tables to the end of the run: convergence, and counters that say what was done. */
  ghost predicate Settles(cfg: Config, planned: Tables, now: Seconds, report: Report, report': Report, db': Tables) {
    Converged(db', now) && SameCatalog(planned, db') &&
    AllServed(db', Work(planned, now, cfg.refreshBefore), Floor(cfg, now, cfg.duration)) &&
    report' == report.(
      added := report.added + |ToAdd(planned, now)|,
      refreshed := report.refreshed + |ToRefresh(planned, now, cfg.refreshBefore)|,
      removed := report.removed + |ToRemove(planned)|,
      skipped := report.skipped + |ToKeep(planned, now, cfg.refreshBefore)|, requests := report'.requests) &&
    (report'.requests == report.requests <==>
       ToAdd(planned, now) == {} && ToRefresh(planned, now, cfg.refreshBefore) == {} && ToRemove(planned) == {})
  }

  /**
   A successful enforcing run. `planned` is what the store held once the plan was posted and
   recovery was done; with nothing open at the start, that is the old tables with the new plan.
   */
  ghost predicate Enforced(cfg: Config, db: Tables, objects: seq<Object>, planned: Tables, now: Seconds,
                           report: Report, report': Report, db': Tables) {
    PlanFits(db, objects) && PlanApplied(db, objects, now, db.(objects := db'.objects)) &&
    planned.objects == db'.objects && planned.feeds == db.feeds && OneActive(planned) && Quiescent(planned) &&
    (Quiescent(db) ==> planned == db.(objects := db'.objects)) &&
    Converged(db', now) && AllServed(db', Work(planned, now, cfg.refreshBefore), Floor(cfg, now, cfg.duration)) &&
    report'.rejected == report.rejected && report'.recovered == report.recovered + |BusyObjects(db)| &&
    report'.added == report.added + |ToAdd(planned, now)| &&
    report'.refreshed == report.refreshed + |ToRefresh(planned, now, cfg.refreshBefore)| &&
    report'.removed == report.removed + |ToRemove(planned)| &&
    report'.skipped == report.skipped + |Unwanted(planned)| + |ToKeep(planned, now, cfg.refreshBefore)| &&
    (Quiescent(db) ==>
       (report'.requests == 0 <==>
          ToAdd(planned, now) == {} && ToRefresh(planned, now, cfg.refreshBefore) == {} && ToRemove(planned) == {}))
  }

  lemma PostedCatalog(db: Tables, objects: seq<Object>, now: Seconds, posted: Tables)
    requires posted == db || PlanApplied(db, objects, now, posted)
    ensures posted == db.(objects := posted.objects)
  {
  }

  lemma SameRecords(db: Tables, db': Tables)
    requires SameCatalog(db, db')
    ensures ReadObjects(db') == ReadObjects(db)
  {
    forall p | p in db.objects ensures ReadObject(db', p) == ReadObject(db, p) {}
  }

  lemma WithinCatalog(db: Tables, db': Tables, targets: set<Prefix>)
    requires Within(db, db', targets)
    ensures SameCatalog(db, db')
  {
  }

  lemma EnforcedIs(cfg: Config, db: Tables, objects: seq<Object>, posted: Tables, planned: Tables, now: Seconds,
                   report: Report, unwanted: nat, recovered: Report, report': Report, db': Tables)
    requires PlanFits(db, objects) && PlanApplied(db, objects, now, posted) && SameCatalog(posted, planned)
    requires Journal(planned) && Quiescent(planned) && Settles(cfg, planned, now, recovered, report', db')
    requires report.requests == 0 && unwanted == |set p | p in ReadObjects(planned) && !ReadObjects(planned)[p].desired|
    requires recovered == report.(skipped := report.skipped + unwanted, recovered := recovered.recovered,
             requests := recovered.requests)
    requires Quiescent(posted) ==> planned == posted && recovered.requests == 0
    requires recovered.recovered == report.recovered + |BusyObjects(posted)|
    requires Journal(db)
    ensures Enforced(cfg, db, objects, planned, now, report, report', db')
  {
    hide PlanFits, Journal, Converged, ToAdd, ToRefresh, ToKeep, ToRemove, ReadObject, BusyObjects;
    PostedCatalog(db, objects, now, posted);
    PostedQuiescent(db, posted);
    PostedBusy(db, posted);
    JournalOneActive(planned);
    UnwantedRecords(planned);
  }

  lemma PostedQuiescent(db: Tables, posted: Tables)
    requires posted.operations == db.operations
    ensures Quiescent(posted) <==> Quiescent(db)
  {
  }

  lemma PostedBusy(db: Tables, posted: Tables)
    requires Journal(db) && posted.operations == db.operations && db.objects.Keys <= posted.objects.Keys
    ensures BusyObjects(posted) == BusyObjects(db)
  {
    hide RowsOk, AlertIdsUnique, OneActive, OneOpen, UnrecordedOk, VerifiedOk, ExpiringOk, CompletedOk;
    forall p
      ensures p in BusyObjects(posted) <==> p in BusyObjects(db)
    {
      if Busy(posted, p) {
        var t :| OpenFor(posted, t, p);
        assert OpenFor(db, t, p);
        var it :| it in db.operations[t].items && it.target == p;
        assert p in db.objects;
      }
      if Busy(db, p) {
        var t :| OpenFor(db, t, p);
        assert OpenFor(posted, t, p);
      }
    }
  }

  lemma UnwantedRecords(db: Tables)
    ensures (set p | p in ReadObjects(db) && !ReadObjects(db)[p].desired) == Unwanted(db)
  {
  }

  lemma RemovalsReady(planned: Tables, now: Seconds, refreshBefore: Seconds, removals: seq<DecisionRecord>,
                      lapsed: Tables, served: Tables)
    requires RemovalsOk(planned, planned.objects.Keys, removals) && Lapsed(planned, now, planned.objects.Keys, lapsed)
    requires Within(lapsed, served, Work(planned, now, refreshBefore))
    ensures forall d :: d in removals ==> RemovalReady(served, d)
    ensures forall i, j :: 0 <= i < j < |removals| ==> removals[i].row.target != removals[j].row.target
  {
    hide Work, NeedsRemoval;
    forall d | d in removals
      ensures RemovalReady(served, d)
    {
      assert RemovalReady(planned, d);
      WorkIsWanted(planned, now, refreshBefore, d.row.target);
      assert RemovalReady(lapsed, d);
    }
  }

  lemma WorkIsWanted(planned: Tables, now: Seconds, refreshBefore: Seconds, p: Prefix)
    ensures p in Work(planned, now, refreshBefore) ==> IsWanted(planned, p)
  {
  }

  lemma RunSettles(cfg: Config, planned: Tables, now: Seconds, removals: seq<DecisionRecord>, lapsed: Tables,
                   served: Tables, db': Tables,
                   report: Report, sifted: Report, credited: Report, report': Report)
    requires Journal(planned) && ValidConfig(cfg)
    requires RemovalsOk(planned, planned.objects.Keys, removals) && Lapsed(planned, now, planned.objects.Keys, lapsed)
    requires Within(lapsed, served, Work(planned, now, cfg.refreshBefore))
    requires AllServed(served, Work(planned, now, cfg.refreshBefore), Floor(cfg, now, cfg.duration))
    requires Within(served, db', RemovalTargets(removals)) && Quiescent(db')
    requires forall p :: p in RemovalTargets(removals) ==> NoActive(db', p)
    requires sifted == report.(skipped := report.skipped + |ToKeep(planned, now, cfg.refreshBefore)|)
    requires credited == sifted.(
               added := sifted.added + |ToAdd(planned, now)|,
               refreshed := sifted.refreshed + |ToRefresh(planned, now, cfg.refreshBefore)|,
               requests := credited.requests)
    requires credited.requests >= sifted.requests &&
             (credited.requests == sifted.requests <==> Work(planned, now, cfg.refreshBefore) == {})
    requires report' == credited.(removed := credited.removed + |removals|, requests := report'.requests)
    requires report'.requests >= credited.requests && (report'.requests == credited.requests <==> removals == [])
    ensures Settles(cfg, planned, now, report, report', db')
  {
    hide Journal, Lapsed, AllServed, NoActive, Quiescent, ToKeep, ToAdd, ToRefresh, Served, RemovalReady, NeedsRemoval;
    JournalOneActive(planned);
    assert RemovalTargets(removals) == ToRemove(planned);
    RemovalCount(removals);
    ServedLater(served, Work(planned, now, cfg.refreshBefore), now, Floor(cfg, now, cfg.duration));
    WorkStaysServed(planned, now, cfg.refreshBefore, served, db', Floor(cfg, now, cfg.duration));
    forall p | p in db'.objects
      ensures if db'.objects[p].desired then Served(db', p, now) else NoActive(db', p)
    {
      ObjectSettles(cfg, planned, now, lapsed, served, db', p);
    }
    LapsedCatalog(planned, now, planned.objects.Keys, lapsed);
  }

  lemma ServedLater(db: Tables, targets: set<Prefix>, now: Seconds, floor: Seconds)
    requires AllServed(db, targets, floor) && now <= floor
    ensures AllServed(db, targets, now)
  {
    forall p | p in targets
      ensures Served(db, p, now)
    {
      assert Served(db, p, floor);
    }
  }

  lemma WorkStaysServed(planned: Tables, now: Seconds, refreshBefore: Seconds, served: Tables, db': Tables,
                        floor: Seconds)
    requires Within(served, db', ToRemove(planned)) && AllServed(served, Work(planned, now, refreshBefore), floor)
    ensures AllServed(db', Work(planned, now, refreshBefore), floor)
  {
    hide Within, Served, Work;
    forall p | p in Work(planned, now, refreshBefore)
      ensures Served(db', p, floor)
    {
      WorkIsWanted(planned, now, refreshBefore, p);
      WithinServes(served, db', ToRemove(planned), p, floor);
    }
  }

  lemma LapsedCatalog(db: Tables, now: Seconds, done: set<Prefix>, db': Tables)
    requires Lapsed(db, now, done, db')
    ensures SameCatalog(db, db')
  {
  }

  /** Each object ends as the plan wants it. */
  lemma ObjectSettles(cfg: Config, planned: Tables, now: Seconds, lapsed: Tables, served: Tables, db': Tables,
                      p: Prefix)
    requires OneActive(planned) && cfg.refreshBefore > 0 && Lapsed(planned, now, planned.objects.Keys, lapsed)
    requires Within(lapsed, served, Work(planned, now, cfg.refreshBefore)) &&
             AllServed(served, Work(planned, now, cfg.refreshBefore), now)
    requires Within(served, db', ToRemove(planned)) && p in db'.objects
    requires forall q :: q in ToRemove(planned) ==> NoActive(db', q)
    ensures if db'.objects[p].desired then Served(db', p, now) else NoActive(db', p)
  {
    hide OneActive, Lapsed, Within, AllServed, NoActive, ToKeep, ToAdd, ToRefresh, Served, NeedsRemoval, Work, ToRemove;
    LapsedCatalog(planned, now, planned.objects.Keys, lapsed);
    WithinCatalog(lapsed, served, Work(planned, now, cfg.refreshBefore));
    WithinCatalog(served, db', ToRemove(planned));
    if planned.objects[p].desired {
      WantedSettles(cfg, planned, now, lapsed, served, db', p);
    } else {
      UnwantedSettles(cfg, planned, now, lapsed, served, db', p);
    }
  }

  lemma WantedSettles(cfg: Config, planned: Tables, now: Seconds, lapsed: Tables, served: Tables, db': Tables,
                      p: Prefix)
    requires OneActive(planned) && cfg.refreshBefore > 0 && Lapsed(planned, now, planned.objects.Keys, lapsed)
    requires Within(lapsed, served, Work(planned, now, cfg.refreshBefore)) &&
             AllServed(served, Work(planned, now, cfg.refreshBefore), now)
    requires Within(served, db', ToRemove(planned)) && p in planned.objects && planned.objects[p].desired
    ensures Served(db', p, now)
  {
    hide OneActive, Lapsed, Within, ToAdd, ToRefresh, Served, NeedsRefresh, NeedsCreate;
    Partition(planned, p, now, cfg.refreshBefore);
    if p !in Work(planned, now, cfg.refreshBefore) {
      KeptIsServed(planned, now, cfg.refreshBefore, lapsed, p);
      WithinServes(lapsed, served, Work(planned, now, cfg.refreshBefore), p, now);
    }
    WithinServes(served, db', ToRemove(planned), p, now);
  }

  lemma KeptIsServed(planned: Tables, now: Seconds, refreshBefore: Seconds, lapsed: Tables, p: Prefix)
    requires refreshBefore > 0 && Lapsed(planned, now, planned.objects.Keys, lapsed) &&
             p in ToKeep(planned, now, refreshBefore)
    ensures Served(lapsed, p, now)
  {
    var r :| Keeps(planned, p, r, now, refreshBefore);
    assert Serves(lapsed, p, r);
  }

  lemma UnwantedSettles(cfg: Config, planned: Tables, now: Seconds, lapsed: Tables, served: Tables, db': Tables,
                        p: Prefix)
    requires Lapsed(planned, now, planned.objects.Keys, lapsed) &&
             Within(lapsed, served, Work(planned, now, cfg.refreshBefore))
    requires Within(served, db', ToRemove(planned)) && p in planned.objects && !planned.objects[p].desired
    requires forall q :: q in ToRemove(planned) ==> NoActive(db', q)
    ensures NoActive(db', p)
  {
    hide Lapsed, Within, Work;
    WorkIsWanted(planned, now, cfg.refreshBefore, p);
    if p !in ToRemove(planned) {
      WithinHolds(lapsed, served, Work(planned, now, cfg.refreshBefore), p);
      WithinHolds(served, db', ToRemove(planned), p);
      LapsedHolds(planned, now, planned.objects.Keys, lapsed, p);
    }
  }

  lemma LapsedHolds(db: Tables, now: Seconds, done: set<Prefix>, db': Tables, p: Prefix)
    requires Lapsed(db, now, done, db')
    ensures forall r :: Holds(db', p, r) ==> Holds(db, p, r)
  {
  }

  // ----- Group bookkeeping -----

  ghost function Work(db: Tables, now: Seconds, refreshBefore: Seconds): set<Prefix> {
    ToAdd(db, now) + ToRefresh(db, now, refreshBefore)
  }

  ghost function Both(groups: Groups, keys: set<GroupKey>): set<Prefix> {
    Targets(groups, keys, Create) + Targets(groups, keys, Refresh)
  }

  /** The counters have risen by the sizes of the groups done. */
  ghost predicate Credited(report: Report, groups: Groups, keys: set<GroupKey>, report': Report) {
    report' == report.(
      added := report.added + |Targets(groups, keys, Create)|,
      refreshed := report.refreshed + |Targets(groups, keys, Refresh)|, requests := report'.requests) &&
    report'.requests >= report.requests && (report'.requests == report.requests <==> Both(groups, keys) == {})
  }

  lemma WorkDone(planned: Tables, now: Seconds, refreshBefore: Seconds, groups: Groups, report: Report, report': Report)
    requires OneActive(planned) && refreshBefore > 0 &&
             Planned(planned, now, refreshBefore, planned.objects.Keys, groups)
    ensures Both(groups, groups.Keys) == Work(planned, now, refreshBefore)
    ensures Credited(report, groups, groups.Keys, report') ==>
              report' == report.(
                added := report.added + |ToAdd(planned, now)|,
                refreshed := report.refreshed + |ToRefresh(planned, now, refreshBefore)|,
                requests := report'.requests) &&
              (report'.requests == report.requests <==> Work(planned, now, refreshBefore) == {})
  {
    hide OneActive, Planned, Targets, ToAdd, ToRefresh;
    GroupsAreWork(planned, now, refreshBefore, groups);
  }

  lemma RefreshPositive(cfg: Config)
    requires ValidConfig(cfg)
    ensures cfg.refreshBefore > 0
  {
  }

  lemma GroupsBegin(groups: Groups, db: Tables, now: Seconds)
    ensures Both(groups, {}) == {} && Within(db, db, Both(groups, {})) && AllServed(db, Both(groups, {}), now)
    ensures forall report :: Credited(report, groups, {}, report)
  {
    assert Targets(groups, {}, Create) == {} && Targets(groups, {}, Refresh) == {};
    WithinSelf(db, {});
  }

  lemma GroupIsReady(planned: Tables, now: Seconds, refreshBefore: Seconds, groups: Groups, done: set<GroupKey>,
                     key: GroupKey, db: Tables, before: Tables)
    requires Quiescent(planned) && OneActive(planned) && refreshBefore > 0 && key in groups && key !in done
    requires Planned(planned, now, refreshBefore, planned.objects.Keys, groups) &&
             Lapsed(planned, now, planned.objects.Keys, db)
    requires Within(db, before, Both(groups, done))
    ensures GroupReady(before, key, groups[key]) && groups[key] != []
  {
    hide Planned, Lapsed, Within, ItemReady, Quiescent, OneActive;
    PlannedIsReady(planned, now, refreshBefore, planned.objects.Keys, groups, db, key);
    PlannedDistinct(planned, now, refreshBefore, planned.objects.Keys, groups, key);
    GroupsDisjoint(planned, now, refreshBefore, planned.objects.Keys, groups, done, key);
    forall it | it in groups[key]
      ensures ItemReady(before, key, it)
    {
      assert it.target in ItemObjects(groups[key]);
      ReadyStays(db, before, Both(groups, done), key, it);
    }
  }

  lemma PlannedWanted(planned: Tables, now: Seconds, refreshBefore: Seconds, groups: Groups, key: GroupKey)
    requires Planned(planned, now, refreshBefore, planned.objects.Keys, groups) && key in groups
    ensures AllWanted(ReadObjects(planned), groups[key])
  {
    hide Planned;
    forall it | it in groups[key]
      ensures it.target in ReadObjects(planned) && ReadObjects(planned)[it.target].desired
    {
      PlannedHere(planned, now, refreshBefore, planned.objects.Keys, groups, key, it);
    }
  }

  lemma KindIsEither(planned: Tables, now: Seconds, refreshBefore: Seconds, groups: Groups, key: GroupKey)
    requires Planned(planned, now, refreshBefore, planned.objects.Keys, groups) && key in groups
    ensures key.kind == Create || key.kind == Refresh
  {
    hide Planned;
    PlannedDistinct(planned, now, refreshBefore, planned.objects.Keys, groups, key);
    PlannedHere(planned, now, refreshBefore, planned.objects.Keys, groups, key, groups[key][0]);
  }

  lemma BothStep(planned: Tables, now: Seconds, refreshBefore: Seconds, groups: Groups, done: set<GroupKey>,
                 key: GroupKey)
    requires Planned(planned, now, refreshBefore, planned.objects.Keys, groups) && key in groups
    ensures Both(groups, done + {key}) == Both(groups, done) + ItemObjects(groups[key])
  {
    hide Planned, Targets;
    KindIsEither(planned, now, refreshBefore, groups, key);
    TargetsStep(groups, done, Create, key);
    TargetsStep(groups, done, Refresh, key);
  }

  lemma GroupJoins(planned: Tables, now: Seconds, refreshBefore: Seconds, groups: Groups, done: set<GroupKey>,
                   key: GroupKey,
                   db: Tables, before: Tables, db': Tables, floor: Seconds)
    requires OneActive(planned) && refreshBefore > 0 && key in groups && key !in done
    requires Planned(planned, now, refreshBefore, planned.objects.Keys, groups)
    requires Within(db, before, Both(groups, done)) && Within(before, db', ItemObjects(groups[key]))
    ensures Within(db, db', Both(groups, done + {key}))
    ensures AllServed(before, Both(groups, done), floor) && AllServed(db', ItemObjects(groups[key]), floor) ==>
              AllServed(db', Both(groups, done + {key}), floor)
  {
    hide Planned, Within, Served, OneActive, Targets;
    BothStep(planned, now, refreshBefore, groups, done, key);
    GroupsDisjoint(planned, now, refreshBefore, planned.objects.Keys, groups, done, key);
    WithinTrans(db, before, db', Both(groups, done), ItemObjects(groups[key]));
    if AllServed(before, Both(groups, done), floor) {
      forall p | p in Both(groups, done)
        ensures Served(db', p, floor)
      {
        WithinServes(before, db', ItemObjects(groups[key]), p, floor);
      }
    }
  }

  lemma CreditGroup(planned: Tables, now: Seconds, refreshBefore: Seconds, groups: Groups, done: set<GroupKey>,
                    key: GroupKey,
                    report: Report, spent: Report, report': Report)
    requires OneActive(planned) && refreshBefore > 0 && key in groups && key !in done
    requires Planned(planned, now, refreshBefore, planned.objects.Keys, groups) && Credited(report, groups, done, spent)
    requires report' == Credit(spent, key.kind, |groups[key]|).(requests := report'.requests) &&
             report'.requests > spent.requests
    ensures Credited(report, groups, done + {key}, report')
  {
    hide Planned, OneActive, Targets;
    KindIsEither(planned, now, refreshBefore, groups, key);
    CountGroup(planned, now, refreshBefore, groups, done, key, Create);
    CountGroup(planned, now, refreshBefore, groups, done, key, Refresh);
    BothStep(planned, now, refreshBefore, groups, done, key);
    PlannedDistinct(planned, now, refreshBefore, planned.objects.Keys, groups, key);
    assert groups[key][0] in groups[key] && groups[key][0].target in ItemObjects(groups[key]);
  }

  lemma CountGroup(planned: Tables, now: Seconds, refreshBefore: Seconds, groups: Groups, done: set<GroupKey>,
                   key: GroupKey, kind: OperationKind)
    requires OneActive(planned) && refreshBefore > 0 && key in groups && key !in done &&
             (kind == Create || kind == Refresh)
    requires Planned(planned, now, refreshBefore, planned.objects.Keys, groups)
    ensures |Targets(groups, done + {key}, kind)| ==
            |Targets(groups, done, kind)| + if key.kind == kind then |groups[key]| else 0
  {
    hide Planned, OneActive, Targets;
    TargetsStep(groups, done, kind, key);
    GroupsDisjoint(planned, now, refreshBefore, planned.objects.Keys, groups, done, key);
    PlannedDistinct(planned, now, refreshBefore, planned.objects.Keys, groups, key);
    ItemCount(groups[key]);
  }

  // ----- Removal bookkeeping -----

  lemma NothingRemoved(removals: seq<DecisionRecord>)
    ensures RemovalTargets(removals[..0]) == {}
  {
  }

  lemma RemovalStillReady(db: Tables, before: Tables, removals: seq<DecisionRecord>, i: nat, now: Seconds)
    requires i < |removals| && Quiescent(before) && Within(db, before, RemovalTargets(removals[..i]))
    requires forall d :: d in removals ==> RemovalReady(db, d)
    requires forall j, k :: 0 <= j < k < |removals| ==> removals[j].row.target != removals[k].row.target
    ensures RemovalReady(before, removals[i])
    ensures ExpireGuard(before, removals[i].id) && GiveUpGuard(before, removals[i].id, now)
    ensures before.decisions[removals[i].id].token in before.alerts &&
            removals[i] == ReadDecision(before, removals[i].id)
  {
    var d := removals[i];
    assert d in removals;
    assert RemovalReady(db, d);
    assert d.row.target !in RemovalTargets(removals[..i]);
    WithinHolds(db, before, RemovalTargets(removals[..i]), d.row.target);
    QuiescentNotBusy(before, d.row.target);
  }

  lemma RemovedIsRetired(db: Tables, db': Tables, removals: seq<DecisionRecord>, d: DecisionRecord)
    requires d in removals && RemovalReady(db, d) && Within(db, db', RemovalTargets(removals))
    requires forall p :: p in RemovalTargets(removals) ==> NoActive(db', p)
    requires forall r :: r in db'.decisions ==> db'.decisions[r].status != Expiring
    ensures d.id in db'.decisions && !IsLive(db'.decisions[d.id].status)
  {
    assert d.row.target in RemovalTargets(removals);
  }

  lemma RemovalStep(db: Tables, before: Tables, removals: seq<DecisionRecord>, i: nat, now: Seconds)
    requires Journal(before) && i < |removals| && Quiescent(before) && RemovalReady(before, removals[i])
    requires Within(db, before, RemovalTargets(removals[..i]))
    ensures RemovalTargets(removals[..i + 1]) == RemovalTargets(removals[..i]) + {removals[i].row.target}
    ensures Within(db, before, RemovalTargets(removals[..i + 1]))
    ensures var db' := Marked(before, removals[i].id, now);
            Within(db, db', RemovalTargets(removals[..i + 1])) && Quiescent(db') &&
            NoActive(db', removals[i].row.target) &&
            forall p :: NoActive(before, p) ==> NoActive(db', p)
  {
    hide Within, RowsOk, OperationsOk, AlertIdsUnique, OneOpen, UnrecordedOk, VerifiedOk, ExpiringOk, CompletedOk;
    var id, p := removals[i].id, removals[i].row.target;
    assert removals[..i + 1] == removals[..i] + [removals[i]];
    MarkWithin(before, id, now);
    WithinTrans(db, before, Marked(before, id, now), RemovalTargets(removals[..i]), {p});
    WithinMore(db, before, RemovalTargets(removals[..i]), RemovalTargets(removals[..i + 1]));
    assert forall q, r :: Holds(Marked(before, id, now), q, r) ==> Holds(before, q, r) && r != id;
  }

  // ----- Batch bookkeeping -----

  function Credit(report: Report, kind: OperationKind, n: nat): Report {
    if kind == Create then report.(added := report.added + n) else report.(refreshed := report.refreshed + n)
  }

  /** The report with the two counters that batches raise set back. */
  ghost function Uncredited(report: Report, base: Report): Report {
    report.(added := base.added, refreshed := base.refreshed)
  }

  ghost predicate AllServed(db: Tables, targets: set<Prefix>, now: Seconds) {
    forall p :: p in targets ==> Served(db, p, now)
  }

  lemma NothingServed(db: Tables, now: Seconds)
    ensures forall items: seq<Item> :: items == [] ==> AllServed(db, ItemObjects(items), now)
  {
  }

  lemma BatchSizePositive(cfg: Config)
    requires ValidConfig(cfg)
    ensures cfg.batchSize >= 1
  {
  }

  lemma ReadyMayBegin(db: Tables, key: GroupKey, batch: seq<Item>)
    requires GroupReady(db, key, batch)
    ensures forall it :: it in batch ==> !Busy(db, it.target) && (it.prior == None ==> NoActive(db, it.target))
  {
    hide Busy, NoActive;
    forall it | it in batch
      ensures !Busy(db, it.target) && (it.prior == None ==> NoActive(db, it.target))
    {
      assert ItemReady(db, key, it);
    }
  }

  lemma BegunIsCurrent(db: Tables, key: GroupKey, op: Operation)
    requires GroupReady(db, key, op.items) && op.items != [] && op.status == Pending
    requires op.kind == key.kind && op.feedId == key.feedId && op.feedName == key.feedName
    ensures IsCurrent(Begun(db, op), op) && StatusFits(Begun(db, op), op.token)
  {
    assert ItemReady(db, key, op.items[0]);
  }

  lemma BatchWithin(db: Tables, op: Operation, begun: Tables, db': Tables)
    requires BeginFits(db, op) && begun == Begun(db, op) && Handled(begun, op, db')
    ensures Within(db, db', ItemObjects(op.items)) && OthersSame(db, db', op.token)
  {
    hide Within;
    BeginWithin(db, op);
    WithinTrans(db, begun, db', ItemObjects(op.items), ItemObjects(op.items));
    assert ItemObjects(op.items) + ItemObjects(op.items) == ItemObjects(op.items);
  }

  lemma BatchServes(db: Tables, key: GroupKey, op: Operation, begun: Tables, db': Tables, now: Seconds)
    requires GroupReady(db, key, op.items) && op.feedName == key.feedName && BeginFits(db, op) && begun == Begun(db, op)
    requires Handled(begun, op, db') && AllDone(db', op, now) && !IsOpen(db'.operations[op.token].status)
    ensures AllServed(db', ItemObjects(op.items), now) && (Quiescent(db) ==> Quiescent(db'))
  {
    hide BeginFits, Busy;
    forall p | p in ItemObjects(op.items)
      ensures Served(db', p, now)
    {
      var it :| it in op.items && it.target == p;
      assert ItemReady(db, key, it);
      DoneIsServed(db', key, op.token, it, now);
    }
  }

  lemma DoneIsServed(db: Tables, key: GroupKey, token: Token, it: Item, now: Seconds)
    requires KeyFor(db, it.target, key) && ItemDone(db, token, key.feedName, it, now)
    ensures Served(db, it.target, now)
  {
    var r :| IsReplacement(db, token, it.target, r) && db.decisions[r].scenario == Scenario(key.feedName) &&
             db.decisions[r].scope == db.objects[it.target].scope &&
             db.decisions[r].value == ObjectValue(it.target, db.objects[it.target].scope) &&
             db.decisions[r].expiresAt > now;
    assert Serves(db, it.target, r);
  }

  lemma ItemsApart(actions: seq<Item>, start: nat, end: nat)
    requires DistinctObjects(actions) && start <= end <= |actions|
    ensures DistinctObjects(actions[start..end])
    ensures ItemObjects(actions[..end]) == ItemObjects(actions[..start]) + ItemObjects(actions[start..end])
    ensures ItemObjects(actions[..start]) !! ItemObjects(actions[start..end])
  {
    hide ItemObjects;
    assert actions[..end] == actions[..start] + actions[start..end];
    ItemsJoin(actions[..start], actions[start..end]);
    forall p | p in ItemObjects(actions[..start]) && p in ItemObjects(actions[start..end])
      ensures false
    {
      var i := ItemAt(actions, 0, start, p);
      var j := ItemAt(actions, start, end, p);
    }
  }

  lemma ItemsJoin(a: seq<Item>, b: seq<Item>)
    ensures ItemObjects(a + b) == ItemObjects(a) + ItemObjects(b)
  {
  }

  lemma ItemAt(actions: seq<Item>, start: nat, end: nat, p: Prefix) returns (i: nat)
    requires start <= end <= |actions| && p in ItemObjects(actions[start..end])
    ensures start <= i < end && actions[i].target == p
  {
    var it :| it in actions[start..end] && it.target == p;
    i :| start <= i < end && actions[i] == it;
  }

  lemma BatchReady(db: Tables, key: GroupKey, actions: seq<Item>, start: nat, end: nat, db': Tables, records: RecordMap)
    requires GroupReady(db, key, actions) && start <= end <= |actions| &&
             Within(db, db', ItemObjects(actions[..start])) && AllWanted(records, actions)
    ensures GroupReady(db', key, actions[start..end]) && AllWanted(records, actions[start..end]) &&
            DistinctObjects(actions)
  {
    hide Within, ItemReady;
    ItemsApart(actions, start, end);
    forall it | it in actions[start..end]
      ensures ItemReady(db', key, it) && it in actions
    {
      assert it.target in ItemObjects(actions[start..end]);
      ReadyStays(db, db', ItemObjects(actions[..start]), key, it);
    }
  }

  lemma BatchJoins(db: Tables, actions: seq<Item>, start: nat, end: nat, before: Tables, db': Tables, now: Seconds)
    requires DistinctObjects(actions) && start <= end <= |actions|
    requires Within(db, before, ItemObjects(actions[..start])) && Within(before, db', ItemObjects(actions[start..end]))
    ensures Within(db, db', ItemObjects(actions[..end]))
    ensures AllServed(before, ItemObjects(actions[..start]), now) && AllServed(db', ItemObjects(actions[start..end]),
            now) ==>
              AllServed(db', ItemObjects(actions[..end]), now)
  {
    hide Within, Served;
    ItemsApart(actions, start, end);
    WithinTrans(db, before, db', ItemObjects(actions[..start]), ItemObjects(actions[start..end]));
    if AllServed(before, ItemObjects(actions[..start]), now) {
      forall p | p in ItemObjects(actions[..start])
        ensures Served(db', p, now)
      {
        WithinServes(before, db', ItemObjects(actions[start..end]), p, now);
      }
    }
  }

  datatype Choice = Stop | Remove | Leave | MarkAndAdd | Add | Replace | Keep

  /** The choice says what the object needs, and against which row and feed. */
  ghost predicate Fits(db: Tables, p: Prefix, choice: Choice, feed: Feed, decision: Option<DecisionRecord>,
                       now: Seconds, refreshBefore: Seconds) {
    match choice
    case Stop => false
    case Remove => decision.Some? && RemovalReady(db, decision.value) && decision.value.row.target == p &&
        NeedsNothing(db, p, now, refreshBefore)
    case Leave => NeedsNothing(db, p, now, refreshBefore) && !NeedsRemoval(db, p) && !IsWanted(db, p)
    case MarkAndAdd =>
      decision.Some? && Holds(db, p, decision.value.id) && IsWanted(db, p) &&
      db.decisions[decision.value.id].expiresAt <= now &&
      PlannedItem(db, now, refreshBefore, GroupKey(Create, feed.id, feed.name), Item(p, None)) &&
      !IsKept(db, p, now, refreshBefore) && !NeedsRemoval(db, p)
    case Add =>
      NoActive(db, p) && PlannedItem(db, now, refreshBefore, GroupKey(Create, feed.id, feed.name), Item(p, None)) &&
      !IsKept(db, p, now, refreshBefore) && !NeedsRemoval(db, p)
    case Replace =>
      decision.Some? && (forall r :: Holds(db, p, r) ==> db.decisions[r].expiresAt > now) &&
      PlannedItem(db, now, refreshBefore, GroupKey(Refresh, feed.id, feed.name), Item(p, Some(decision.value.id))) &&
      !IsKept(db, p, now, refreshBefore) && !NeedsRemoval(db, p)
    case Keep =>
      (forall r :: Holds(db, p, r) ==> db.decisions[r].expiresAt > now) && IsKept(db, p, now, refreshBefore) &&
      !NeedsRemoval(db, p) &&
      !NeedsCreate(db, p, now) && !NeedsRefresh(db, p, now, refreshBefore)
  }

  ghost predicate NeedsNothing(db: Tables, p: Prefix, now: Seconds, refreshBefore: Seconds) {
    !IsWanted(db, p) && !NeedsCreate(db, p, now) && !NeedsRefresh(db, p, now, refreshBefore) &&
    !IsKept(db, p, now, refreshBefore)
  }

  /** The planning loop has dealt with the objects of `done`. */
  ghost predicate Sifted(db: Tables, now: Seconds, refreshBefore: Seconds, done: set<Prefix>, groups: Groups,
                         removals: seq<DecisionRecord>, kept: set<Prefix>, db': Tables)
  {
    Planned(db, now, refreshBefore, done, groups) && Lapsed(db, now, done, db') && RemovalsOk(db, done, removals) &&
    kept == set p | p in done && IsKept(db, p, now, refreshBefore)
  }

  lemma SiftNothing(db: Tables, now: Seconds, refreshBefore: Seconds)
    ensures Sifted(db, now, refreshBefore, {}, map[], [], {}, db)
  {
    PlannedNothing(db, now, refreshBefore);
    LapsedNothing(db, now);
    RemovalsNothing(db);
  }

  lemma SiftedAll(db: Tables, now: Seconds, refreshBefore: Seconds, groups: Groups, removals: seq<DecisionRecord>,
                  kept: set<Prefix>, db': Tables)
    requires Sifted(db, now, refreshBefore, db.objects.Keys, groups, removals, kept, db')
    ensures Planned(db, now, refreshBefore, db.objects.Keys, groups) && Lapsed(db, now, db.objects.Keys, db')
    ensures RemovalsOk(db, db.objects.Keys, removals) && kept == ToKeep(db, now, refreshBefore)
  {
    hide Planned, Lapsed, RemovalsOk, IsKept;
  }

  /** Every branch but the one that marks a row. */
  lemma SiftStep(db: Tables, now: Seconds, refreshBefore: Seconds, done: set<Prefix>, groups: Groups,
                 removals: seq<DecisionRecord>, kept: set<Prefix>, db': Tables, p: Prefix, choice: Choice, feed: Feed,
                 decision: Option<DecisionRecord>)
    requires Sifted(db, now, refreshBefore, done, groups, removals, kept, db') && p !in done
    requires choice != MarkAndAdd && choice != Stop && Fits(db, p, choice, feed, decision, now, refreshBefore)
    ensures choice == Remove ==>
            Sifted(db, now, refreshBefore, done + {p}, groups, removals + [decision.value], kept, db')
    ensures choice == Leave ==> Sifted(db, now, refreshBefore, done + {p}, groups, removals, kept, db')
    ensures choice == Add ==>
              Sifted(db, now, refreshBefore, done + {p},
                  AddAction(groups, GroupKey(Create, feed.id, feed.name), Item(p, None)), removals, kept, db')
    ensures choice == Replace ==>
              Sifted(db, now, refreshBefore, done + {p},
                  AddAction(groups, GroupKey(Refresh, feed.id, feed.name),
                      Item(p, Some(decision.value.id))), removals, kept, db')
    ensures choice == Keep ==>
            p !in kept && Sifted(db, now, refreshBefore, done + {p}, groups, removals, kept + {p}, db')
  {
    hide Planned, Lapsed, RemovalsOk, IsKept, NeedsCreate, NeedsRefresh, NeedsRemoval, PlannedItem, AddAction,
         RemovalReady;
    LapsedSkip(db, now, done, db', p);
    match choice
    case Remove =>
      PlannedSkip(db, now, refreshBefore, done, groups, p);
      RemovalsAdd(db, done, removals, decision.value);
    case Leave =>
      PlannedSkip(db, now, refreshBefore, done, groups, p);
      RemovalsSkip(db, done, removals, p);
    case Add =>
      PlannedAdd(db, now, refreshBefore, done, groups, GroupKey(Create, feed.id, feed.name), Item(p, None));
      RemovalsSkip(db, done, removals, p);
    case Replace =>
      PlannedAdd(db, now, refreshBefore, done, groups, GroupKey(Refresh, feed.id, feed.name),
          Item(p, Some(decision.value.id)));
      RemovalsSkip(db, done, removals, p);
    case Keep =>
      PlannedSkip(db, now, refreshBefore, done, groups, p);
      RemovalsSkip(db, done, removals, p);
  }

  lemma SiftedMayMark(db: Tables, now: Seconds, refreshBefore: Seconds, done: set<Prefix>, groups: Groups,
                      removals: seq<DecisionRecord>,
                      kept: set<Prefix>, db': Tables, p: Prefix, feed: Feed, decision: Option<DecisionRecord>)
    requires Quiescent(db) && OneActive(db) && Sifted(db, now, refreshBefore, done, groups, removals, kept, db') &&
             p !in done
    requires Fits(db, p, MarkAndAdd, feed, decision, now, refreshBefore)
    ensures GiveUpGuard(db', decision.value.id, now)
    ensures decision.value.id in db'.decisions && db'.decisions[decision.value.id].expiresAt <= now
    ensures Sifted(db, now, refreshBefore, done + {p},
            AddAction(groups, GroupKey(Create, feed.id, feed.name), Item(p, None)),
                   removals, kept, Marked(db', decision.value.id, now))
  {
    hide Planned, Lapsed, RemovalsOk, IsKept, NeedsCreate, NeedsRefresh, NeedsRemoval, PlannedItem, AddAction,
         Quiescent, OneActive;
    LapsedRow(db, now, done, db', p, decision.value.id);
    QuiescentNotBusy(db, p);
    LapsedMark(db, now, done, db', p, decision.value.id);
    PlannedAdd(db, now, refreshBefore, done, groups, GroupKey(Create, feed.id, feed.name), Item(p, None));
    RemovalsSkip(db, done, removals, p);
  }

  /** The only active row of an object is the one in the map. */
  lemma HolderIs(db: Tables, active: ActiveMap, p: Prefix)
    requires IsActiveMap(db, active)
    ensures p in active ==>
            Holds(db, p, active[p].id) && db.decisions[active[p].id].token in db.alerts &&
            active[p] == ReadDecision(db, active[p].id)
    ensures forall r :: Holds(db, p, r) ==> p in active && r == active[p].id
  {
  }

  lemma JournalOneActive(db: Tables)
    requires Journal(db)
    ensures OneActive(db)
  {
  }

  lemma RecordKeys(db: Tables)
    ensures ReadObjects(db).Keys == db.objects.Keys
  {
  }

  lemma RecordAt(db: Tables, p: Prefix)
    requires p in ReadObjects(db)
    ensures p in db.objects && ReadObjects(db)[p] == ReadObject(db, p)
  {
  }

  lemma LapsedQuiescent(db: Tables, now: Seconds, done: set<Prefix>, db': Tables)
    requires Lapsed(db, now, done, db') && Quiescent(db)
    ensures Quiescent(db')
  {
  }
}
