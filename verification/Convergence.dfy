/**
 What a successful run means for the next one, and for the objects it leaves alone.
 */
module Convergence {
  import opened Collections
  import opened Prefixes
  import opened Planner
  import opened Database
  import opened Invariants
  import opened Protocol
  import opened ProtocolLaws
  import opened StateStore
  import opened Verification
  import opened Effects
  import opened Intake
  import opened OperationFacts
  import opened RunFacts
  import opened Prediction
  import opened Reconciliation
  import opened Pipeline
  import PlannerLaws
  import Grace

  /** Active rows and wanted objects are in bijection, and each row enforces its object as planned. */
  lemma ConvergedBijection(db: Tables, now: Seconds)
    requires Journal(db) && Converged(db, now)
    ensures forall p, r :: Holds(db, p, r) ==> IsWanted(db, p) && Serves(db, p, r)
    ensures forall p :: IsWanted(db, p) ==> exists r :: Holds(db, p, r)
    ensures forall p, q, r :: Holds(db, p, q) && Holds(db, p, r) ==> q == r
    ensures |ActiveRows(db)| == |WantedObjects(db)|
  {
    hide OperationsOk, AlertIdsUnique, OneOpen, UnrecordedOk, VerifiedOk, ExpiringOk, CompletedOk;
    forall p, r | Holds(db, p, r)
      ensures IsWanted(db, p) && Serves(db, p, r)
    {
      assert p in db.objects;
      var q :| Serves(db, p, q);
    }
    forall p | IsWanted(db, p)
      ensures exists r :: Holds(db, p, r)
    {
      var r :| Serves(db, p, r) && db.decisions[r].expiresAt > now;
    }
    var targets := map r | r in ActiveRows(db) :: db.decisions[r].target;
    forall q, r | q in targets && r in targets && targets[q] == targets[r]
      ensures q == r
    {
      assert Holds(db, targets[q], q) && Holds(db, targets[q], r);
    }
    InjectiveSize(targets);
    TargetsAreWanted(db, targets);
  }

  ghost function ActiveRows(db: Tables): set<int> {
    set r | r in db.decisions && db.decisions[r].status == Active
  }

  ghost function WantedObjects(db: Tables): set<Prefix> {
    set p | p in db.objects && db.objects[p].desired
  }

  lemma TargetsAreWanted(db: Tables, targets: map<int, Prefix>)
    requires targets.Keys == ActiveRows(db) && forall r :: r in targets ==> targets[r] == db.decisions[r].target
    requires forall p, r :: Holds(db, p, r) ==> IsWanted(db, p)
    requires forall p :: IsWanted(db, p) ==> exists r :: Holds(db, p, r)
    ensures targets.Values == WantedObjects(db)
  {
    forall p | p in targets.Values
      ensures p in WantedObjects(db)
    {
      var r := KeyWith(targets, p);
      assert Holds(db, p, r);
    }
    forall p | p in WantedObjects(db)
      ensures p in targets.Values
    {
      assert IsWanted(db, p);
      var r :| Holds(db, p, r);
      assert targets[r] == p;
    }
  }

  /** No active row is close to its end. */
  ghost predicate AllFar(db: Tables, now: Seconds, refreshBefore: Seconds) {
    forall p, r :: Holds(db, p, r) ==> db.decisions[r].expiresAt - now > refreshBefore
  }

  /** Posting the plan that is already in force changes no object but its time stamp. */
  lemma SamePlanAgain(db0: Tables, db: Tables, objects: seq<Object>, now: Seconds, planned: Tables, now': Seconds,
                      p: Prefix)
    requires PlanApplied(db0, objects, now, db0.(objects := db.objects)) && PlanApplied(db, objects, now', planned)
    ensures planned.objects.Keys == db.objects.Keys
    ensures IsWanted(planned, p) <==> IsWanted(db, p)
    ensures IsWanted(db, p) ==> forall r :: Serves(planned, p, r) <==> Serves(db, p, r)
  {
    PlannedTables(db0, objects, now, db0.(objects := db.objects), p);
    PlannedTables(db, objects, now', planned, p);
    if IsWanted(db, p) {
      var o :| o in objects && o.desired && o.prefix == p;
    }
  }

  lemma QuietWork(cfg: Config, db0: Tables, db: Tables, objects: seq<Object>, now: Seconds, planned: Tables,
                  now': Seconds)
    requires Journal(db) && Converged(db, now) && cfg.refreshBefore > 0
    requires PlanApplied(db0, objects, now, db0.(objects := db.objects)) && PlanApplied(db, objects, now', planned)
    ensures ToRemove(planned) == {}
    ensures ToAdd(planned, now') == {} && ToRefresh(planned, now', cfg.refreshBefore) == {} <==>
            AllFar(db, now', cfg.refreshBefore)
  {
    hide PlanApplied, Journal, Converged, Serves;
    ConvergedBijection(db, now);
    PlanKeepsRows(db, objects, now', planned);
    assert forall p, r :: Holds(planned, p, r) <==> Holds(db, p, r);
    assert OneActive(planned);
    forall p
      ensures planned.objects.Keys == db.objects.Keys && (IsWanted(planned, p) <==> IsWanted(db, p))
      ensures forall r :: Holds(planned, p, r) <==> Holds(db, p, r)
      ensures forall r :: Holds(db, p, r) ==> Serves(planned, p, r)
      ensures p in planned.objects ==> p !in ToRemove(planned)
    {
      SamePlanAgain(db0, db, objects, now, planned, now', p);
      assert forall r :: Holds(planned, p, r) <==> Holds(db, p, r);
    }
    if AllFar(db, now', cfg.refreshBefore) {
      forall p | p in planned.objects
        ensures p !in ToAdd(planned, now') && p !in ToRefresh(planned, now', cfg.refreshBefore)
      {
        if IsWanted(db, p) {
          var r :| Holds(db, p, r);
          assert Keeps(planned, p, r, now', cfg.refreshBefore);
          assert p in ToKeep(planned, now', cfg.refreshBefore);
          Partition(planned, p, now', cfg.refreshBefore);
        }
      }
    }
    if ToAdd(planned, now') == {} && ToRefresh(planned, now', cfg.refreshBefore) == {} {
      forall p, r | Holds(db, p, r)
        ensures db.decisions[r].expiresAt - now' > cfg.refreshBefore
      {
        Partition(planned, p, now', cfg.refreshBefore);
        KeptIsFar(planned, p, r, now', cfg.refreshBefore);
      }
    }
  }

  lemma KeptIsFar(db: Tables, p: Prefix, r: int, now: Seconds, refreshBefore: Seconds)
    requires OneActive(db) && Holds(db, p, r) && p in ToKeep(db, now, refreshBefore)
    ensures db.decisions[r].expiresAt - now > refreshBefore
  {
    var q :| Keeps(db, p, q, now, refreshBefore);
  }

  /**
   After a successful run, an enforcing run on unchanged entries sends nothing exactly when no
   active row is close to its end.
   */
  lemma SecondRunQuietIff(cfg: Config, db0: Tables, objects: seq<Object>, planned: Tables, now: Seconds,
                          blank: Report, report: Report, db: Tables,
                          planned': Tables, now': Seconds, blank': Report, report': Report, db': Tables)
    requires Journal(db) && cfg.refreshBefore > 0
    requires Enforced(cfg, db0, objects, planned, now, blank, report, db) &&
             Enforced(cfg, db, objects, planned', now', blank', report', db')
    ensures Converged(db, now)
    ensures report'.requests == 0 <==> AllFar(db, now', cfg.refreshBefore)
  {
    hide Journal, PlanFits, PlanApplied, ToAdd, ToRefresh, ToRemove, ToKeep, AllServed, Quiescent, OneActive, AllFar;
    ConvergedQuiescent(db, now);
    QuietWork(cfg, db0, db, objects, now, planned', now');
  }

  lemma ConvergedQuiescent(db: Tables, now: Seconds)
    requires Converged(db, now)
    ensures Quiescent(db)
  {
  }

  /**
   Against the mock's remote, rows the first run made last a full duration. So within
   duration - refreshBefore of the first run, only rows that the first run kept can make the
   second one send anything.
   */
  lemma SecondRunQuietSoon(cfg: Config, db0: Tables, objects: seq<Object>, planned: Tables, now: Seconds,
                           blank: Report, report: Report, db: Tables,
                           planned': Tables, now': Seconds, blank': Report, report': Report, db': Tables)
    requires Journal(db) && cfg.honest && cfg.refreshBefore > 0 && now' - now < cfg.duration - cfg.refreshBefore
    requires Enforced(cfg, db0, objects, planned, now, blank, report, db) &&
             Enforced(cfg, db, objects, planned', now', blank', report', db')
    ensures report'.requests == 0 <==>
              forall p, r :: p in ToKeep(planned, now, cfg.refreshBefore) && Holds(db, p, r) ==>
                  db.decisions[r].expiresAt - now' > cfg.refreshBefore
  {
    hide Journal, PlanFits, PlanApplied, ToRemove, AllServed, Quiescent, OneActive, Converged, Serves, Served, ToAdd,
         ToRefresh, ToKeep, Enforced;
    SecondRunQuietIff(cfg, db0, objects, planned, now, blank, report, db, planned', now', blank', report', db');
    forall p, r | Holds(db, p, r) && p !in ToKeep(planned, now, cfg.refreshBefore)
      ensures db.decisions[r].expiresAt - now' > cfg.refreshBefore
    {
      NewRowLasts(cfg, db0, objects, planned, now, blank, report, db, p, r);
    }
  }

  lemma NewRowLasts(cfg: Config, db0: Tables, objects: seq<Object>, planned: Tables, now: Seconds, blank: Report,
                    report: Report, db: Tables, p: Prefix, r: int)
    requires Journal(db) && cfg.honest && cfg.refreshBefore > 0 &&
             Enforced(cfg, db0, objects, planned, now, blank, report, db)
    requires Holds(db, p, r) && p !in ToKeep(planned, now, cfg.refreshBefore)
    ensures db.decisions[r].expiresAt >= now + cfg.duration
  {
    hide Journal, PlanFits, PlanApplied, ToRemove, Quiescent, Converged, ToAdd, ToRefresh, ToKeep, OneActive;
    ConvergedBijection(db, now);
    Partition(planned, p, now, cfg.refreshBefore);
    assert p in Work(planned, now, cfg.refreshBefore);
    assert Served(db, p, Floor(cfg, now, cfg.duration));
    var q :| Serves(db, p, q) && db.decisions[q].expiresAt > Floor(cfg, now, cfg.duration);
  }

  /**
   Two runs in a row, with time passing and others acting in between but the feeds left alone. `mid` is the world
   the second run starts from. The second run sends no request, and so changes nothing remotely, exactly when no
   active row is close to its end in that world.
   */
  method RunTwice(rec: Reconciler, options: RunOptions)
    returns (first: Outcome, second: Outcome, report: Report, ghost mid: nat, ghost objects: seq<Object>)
    requires rec.Valid() && !options.dryRun
    modifies rec, rec.store, rec.lapi
    ensures rec.Valid() && Extends(old(rec.trace), rec.trace)
    ensures first.Ok? && second.Ok? ==>
              |old(rec.trace)| <= mid < |rec.trace| - 1 &&
              PlanOf(old(rec.store.db), options.allowlist, options.feedOrder, objects) &&
              rec.trace[|old(rec.trace)|].action == ApplyPlan(objects, old(rec.lapi.clock)) &&
              rec.trace[mid + 1].action == ApplyPlan(objects, rec.trace[mid].world.clock)
    ensures first.Ok? && second.Ok? ==>
              var w := rec.trace[mid].world;
              Converged(w.db, old(rec.lapi.clock)) &&
              (report.requests == 0 <==> AllFar(w.db, w.clock, rec.cfg.refreshBefore)) &&
              (report.requests == 0 ==> rec.lapi.writes == w.writes)
  {
    hide BansServed, ValidConfig, CandidatesOf, AllowlistOk, Rejections, Steps;
    hide History, IsPlan, ListsEntries, Enforced, Journal, Catalog, AllFar, Converged, DryCounted, Extends, FirstQuiet;
    ghost var start := rec.trace;
    ghost var now := rec.lapi.clock;
    ghost var db0 := rec.store.db;
    var earlier;
    ghost var entries, at;
    first, earlier, entries, objects, at := rec.Run(options);
    ghost var db, ran := rec.store.db, rec.trace;
    rec.JournalHere();
    rec.Wait();
    ExtendsTrans(start, ran, rec.trace);
    ghost var waited := rec.trace;
    mid := |rec.trace| - 1;
    ghost var restart := rec.lapi.clock;
    ghost var entries', objects', at';
    second, report, entries', objects', at' := rec.Run(options);
    ExtendsTrans(start, waited, rec.trace);
    ExtendsAt(ran, waited);
    ExtendsAt(waited, rec.trace);
    if first.Ok? && second.Ok? {
      FirstQuietInside(ran, |start|, at);
      FirstQuietInside(rec.trace, |waited|, at');
      PlanRepeats(db0, db, options.allowlist, options.feedOrder, objects, objects');
      RefreshPositive(rec.cfg);
      SecondRunQuietIff(
        rec.cfg, db0, objects, ran[at].world.db, now, Blank(earlier.rejected), earlier, db,
        rec.trace[at'].world.db, restart, Blank(report.rejected), report, rec.store.db);
    }
  }

  /**
   A dry run, then the real one on the same entries at the same time. With nothing open at the start, they agree on
   removals and on additions plus refreshes, and on the latter two separately exactly when no active
   row of a wanted object has run out.
   */
  method DryThenEnforce(rec: Reconciler, allowlist: seq<Prefix>, order: map<int, int>)
    returns (first: Outcome, second: Outcome, dry: Report, report: Report, ghost objects: seq<Object>)
    requires rec.Valid()
    modifies rec, rec.store, rec.lapi
    ensures rec.Valid() && Extends(old(rec.trace), rec.trace)
    ensures first.Ok? ==>
              PlanOf(old(rec.store.db), allowlist, order, objects) &&
              DryCounted(old(rec.store.db), objects, old(rec.lapi.clock), rec.cfg.refreshBefore, Blank(dry.rejected),
                  dry)
    ensures first.Ok? && second.Ok? ==>
              |old(rec.trace)| < |rec.trace| &&
              rec.trace[|old(rec.trace)|].action == ApplyPlan(objects, old(rec.lapi.clock)) &&
              Converged(rec.store.db, old(rec.lapi.clock))
    ensures first.Ok? && second.Ok? && Quiescent(old(rec.store.db)) ==>
              dry.removed == report.removed && dry.added + dry.refreshed == report.added + report.refreshed &&
              dry.rejected == report.rejected &&
              (dry.added == report.added && dry.refreshed == report.refreshed <==>
                  !SomeRunOut(old(rec.store.db), objects, old(rec.lapi.clock)))
  {
    hide BansServed, ValidConfig, CandidatesOf, AllowlistOk, Rejections, Steps;
    hide History, IsPlan, ListsEntries, Enforced, Journal, Catalog, DryCounted, Quiescent, SomeRunOut, FeedsOk,
         Converged, Extends, FirstQuiet;
    ghost var db, now, start := rec.store.db, rec.lapi.clock, rec.trace;
    ExtendsSelf(start);
    rec.JournalHere();
    ghost var entries, at;
    first, dry, entries, objects, at := rec.Run(RunOptions(allowlist, order, true, None));
    if !first.Ok? {
      return first, first, dry, dry, objects;
    }
    SameClock(rec, db, now);
    ghost var entries', objects';
    second, report, entries', objects', at := rec.Run(RunOptions(allowlist, order, false, None));
    if second.Ok? {
      FirstQuietInside(rec.trace, |start|, at);
      EntriesDetermined(db, db, entries, entries');
      PlanRepeats(db, db, allowlist, order, objects, objects');
      EnforcedConverges(rec.cfg, db, objects, rec.trace[at].world.db, now, Blank(report.rejected), report,
          rec.store.db);
      if Quiescent(db) {
        PredictionHolds(rec.cfg, db, allowlist, order, objects, rec.trace[at].world.db, now, dry, report, rec.store.db);
      }
    }
  }

  // ----- What the feeds get -----

  /** Some active row that has not run out bans the address. */
  ghost predicate RowBans(db: Tables, now: Seconds, a: Addr) {
    exists r :: r in db.decisions && db.decisions[r].status == Active && db.decisions[r].expiresAt > now &&
      Contains(db.decisions[r].target, a)
  }

  lemma RowsBanPlan(cfg: Config, db: Tables, objects: seq<Object>, planned: Tables, now: Seconds, blank: Report,
                    report: Report, db': Tables, a: Addr)
    requires Journal(db') && Enforced(cfg, db, objects, planned, now, blank, report, db')
    ensures RowBans(db', now, a) <==> PlannerLaws.Bans(objects, a)
  {
    hide Journal, PlanFits, PlanApplied, AllServed, Quiescent, OneActive, Contains, Serves, ToAdd, ToRefresh, ToRemove,
         ToKeep;
    ConvergedBijection(db', now);
    forall p ensures IsWanted(db', p) <==> Wants(objects, p) {
      PlannedTables(db, objects, now, db.(objects := db'.objects), p);
    }
    if RowBans(db', now, a) {
      var r :| r in db'.decisions && db'.decisions[r].status == Active && db'.decisions[r].expiresAt > now &&
        Contains(db'.decisions[r].target, a);
      assert Holds(db', db'.decisions[r].target, r);
    }
    if PlannerLaws.Bans(objects, a) {
      var o :| o in objects && o.desired && Contains(o.prefix, a);
      assert Wants(objects, o.prefix);
      assert IsWanted(db', o.prefix);
      var r := ServingRow(db', o.prefix, now);
    }
  }

  lemma ServingRow(db: Tables, p: Prefix, now: Seconds) returns (r: int)
    requires Served(db, p, now)
    ensures Holds(db, p, r) && db.decisions[r].expiresAt > now
  {
    r :| Serves(db, p, r) && db.decisions[r].expiresAt > now;
  }

  /** Each active row is led by the source in the first place, and its scenario names that feed and no other. */
  lemma RowNamesLeader(cfg: Config, db: Tables, allowlist: seq<Prefix>, order: map<int, int>, objects: seq<Object>,
                       planned: Tables, now: Seconds, blank: Report, report: Report, db': Tables, r: int)
    requires Journal(db') && db'.feeds == db.feeds && FeedsOk(db.feeds) && PlanOf(db, allowlist, order, objects)
    requires Enforced(cfg, db, objects, planned, now, blank, report, db')
    requires r in db'.decisions && db'.decisions[r].status == Active
    ensures var p := db'.decisions[r].target;
            p in db'.objects && WellLed(db, order, p, db'.objects[p]) &&
            forall f :: f in db.feeds ==>
              (db'.decisions[r].scenario == "crowdshield/" + db.feeds[f].name <==> db'.objects[p].primary == Some(f))
  {
    hide Journal, PlanFits, AllServed, Quiescent, OneActive, WellLed, PlanOf, Scenario, ToAdd, ToRefresh, ToRemove,
         ToKeep, FeedNameOk;
    var p := db'.decisions[r].target;
    ConvergedBijection(db', now);
    assert Holds(db', p, r);
    PlannedTables(db, objects, now, db.(objects := db'.objects), p);
    StoredPrimary(db, allowlist, order, objects, now, db.(objects := db'.objects), p);
    var lead := db'.objects[p].primary.value;
    forall f | f in db.feeds
      ensures db'.decisions[r].scenario == "crowdshield/" + db.feeds[f].name <==> lead == f
    {
      ScenarioNamesFeed(db.feeds[f].name, db.feeds[lead].name);
    }
  }

  /**
   A run on tables that the feeds' history left. When it returns no error, the active rows ban exactly the addresses
   that the last `grace` snapshots of the enabled feeds report, off the allowlist and off the special-purpose blocks.
   */
  method RunOnFeeds(rec: Reconciler, options: RunOptions, ghost events: seq<Grace.FeedEvent>, ghost grace: nat)
    returns (r: Outcome)
    requires rec.Valid() && !options.dryRun && Follows(rec.store.db, events, grace)
    modifies rec, rec.store, rec.lapi
    ensures rec.Valid() && Extends(old(rec.trace), rec.trace) && Follows(rec.store.db, events, grace)
    ensures r.Ok? ==> forall a :: RowBans(rec.store.db, old(rec.lapi.clock), a) <==>
              Reports(rec.store.db.feeds, events, grace, options.allowlist, a)
  {
    hide BansServed, ValidConfig, CandidatesOf, AllowlistOk, Rejections, Steps, RowBans, Reports;
    hide History, IsPlan, ListsEntries, Enforced, Journal, DryCounted, Extends, FirstQuiet;
    ghost var db, now := rec.store.db, rec.lapi.clock;
    rec.JournalHere();
    var report;
    ghost var entries, objects, at;
    r, report, entries, objects, at := rec.Run(options);
    rec.JournalHere();
    if r.Ok? {
      FirstQuietInside(rec.trace, |old(rec.trace)|, at);
      forall a
        ensures RowBans(rec.store.db, now, a) <==>
                Reports(rec.store.db.feeds, events, grace, options.allowlist, a)
      {
        RowsBanPlan(rec.cfg, db, objects, rec.trace[at].world.db, now, Blank(report.rejected), report, rec.store.db, a);
        PlanBans(db, events, grace, options.allowlist, options.feedOrder, objects, a);
      }
    }
  }

  lemma FirstQuietInside(tr: seq<Step>, from: int, at: int)
    requires FirstQuiet(tr, from, at)
    ensures from <= at < |tr|
  {
  }

  lemma EnforcedConverges(cfg: Config, db: Tables, objects: seq<Object>, planned: Tables, now: Seconds, blank: Report,
                          report: Report, db': Tables)
    requires Enforced(cfg, db, objects, planned, now, blank, report, db')
    ensures Converged(db', now)
  {
    hide Converged;
  }

  /** An unchanged trace ends in an unchanged world. */
  lemma SameClock(rec: Reconciler, db: Tables, now: Seconds)
    requires rec.Valid() && rec.trace[|rec.trace| - 1].world.clock == now
    ensures rec.lapi.clock == now
  {
    hide History;
  }

  lemma PredictionHolds(cfg: Config, db: Tables, allowlist: seq<Prefix>, order: map<int, int>, objects: seq<Object>,
                        planned: Tables,
                        now: Seconds, dry: Report, report: Report, db': Tables)
    requires ValidConfig(cfg) && Journal(db) && Catalog(db) && Quiescent(db) &&
             PlanOf(db, allowlist, order, objects) && dry.rejected == report.rejected
    requires DryCounted(db, objects, now, cfg.refreshBefore, Blank(dry.rejected), dry)
    requires Enforced(cfg, db, objects, planned, now, Blank(report.rejected), report, db')
    ensures dry.removed == report.removed && dry.added + dry.refreshed == report.added + report.refreshed
    ensures dry.added == report.added && dry.refreshed == report.refreshed <==> !SomeRunOut(db, objects, now)
  {
    hide PlanOf, Enforced, Journal, DryCounted, Quiescent, SomeRunOut, FeedsOk;
    PlanMeetsStore(db, allowlist, order, objects);
    DryRunPredicts(cfg, db, objects, planned, now, Blank(dry.rejected), dry, report, db');
  }
}
