/**
 Concrete histories, from an empty journal on, for two expectations that fail: one feed, one
 host, one decision.
 */
module Witnesses {
  import opened Prefixes
  import opened Safety
  import opened Planner
  import opened Database
  import opened Invariants
  import opened Remote
  import opened Protocol
  import opened ProtocolLaws
  import opened Lapi
  import opened Effects
  import opened OperationFacts
  import opened RunFacts
  import opened Prediction
  import opened Reconciliation
  import opened Convergence
  import opened Gaps

  // ----- A host that is safe to ban: 64.0.0.1 -----

  const HOST: Prefix := Prefix(V4, 0x4000_0001, 32)

  lemma ShiftFour(v: nat)
    ensures ShiftRight(v, 4) == v / 16
  {
    assert ShiftRight(v, 4) == ShiftRight(v / 2 / 2, 2);
  }

  lemma ShiftEight(v: nat)
    ensures ShiftRight(v, 8) == v / 0x100
  {
    hide ShiftRight;
    ShiftRightTwice(v, 4, 4);
    ShiftFour(v);
    ShiftFour(v / 0x10);
  }

  lemma ShiftSixteen(v: nat)
    ensures ShiftRight(v, 16) == v / 0x1_0000
  {
    hide ShiftRight;
    ShiftRightTwice(v, 8, 8);
    ShiftEight(v);
    ShiftEight(v / 0x100);
  }

  lemma ShiftTwelve(v: nat)
    ensures ShiftRight(v, 12) == v / 0x1000
  {
    hide ShiftRight;
    ShiftRightTwice(v, 8, 4);
    ShiftEight(v);
    ShiftFour(v / 0x100);
  }

  lemma ShiftTwentyEight(v: nat)
    ensures ShiftRight(v, 28) == v / 0x1000_0000
  {
    hide ShiftRight;
    ShiftRightTwice(v, 16, 12);
    ShiftSixteen(v);
    ShiftTwelve(v / 0x1_0000);
  }

  lemma HostIsMasked()
    ensures IsValid(HOST) && Masked(HOST) == HOST && IsHost(HOST)
  {
    ShiftTwentyEight(HOST.value);
    ShiftFour(4);
    ShiftRightTwice(HOST.value, 28, 4);
  }

  /** Blocks that start with another digit are elsewhere. */
  lemma Elsewhere(q: Prefix)
    requires q.Prefix? && (q.family == V4 ==> q.bits >= 4 && q.value / 0x1000_0000 != 4)
    ensures !Overlaps(HOST, q) && !Contains(q, Base(HOST))
  {
    HostIsMasked();
    ShiftTwentyEight(HOST.value);
    ShiftTwentyEight(q.value);
    if q.family == V4 && q.bits <= 32 && Block(V4, q.bits, HOST.value) == Block(V4, q.bits, q.value) {
      ShorterBlock(V4, 4, q.bits, HOST.value, q.value);
    }
  }

  lemma HostIsSafe()
    ensures IsSafePrefix(HOST)
  {
    hide Contains, Overlaps, Masked, IsValid;
    HostIsMasked();
    Elsewhere(LOOPBACK_V4); Elsewhere(LOOPBACK_V6); Elsewhere(MULTICAST_V4); Elsewhere(MULTICAST_V6);
    Elsewhere(LINK_LOCAL_V4); Elsewhere(LINK_LOCAL_V6);
    forall special | special in SAFETY_PREFIXES
      ensures !Overlaps(HOST, special)
    {
      Elsewhere(special);
    }
  }

  // ----- The objects and worlds -----

  const FEED := "a"
  const TOKEN := "00000000000000000000000000000000"
  const SOURCE := Contributor(1, FEED, 0, KindIP)
  const WANTED := Object(HOST, ScopeIP, [SOURCE], SOURCE, true, SuppressedNone, None)

  function EmptyTables(): Tables {
    Tables(map[1 := FeedRow(FEED, true)], map[], map[], map[], map[], map[], map[])
  }

  function FirstWorld(): World {
    World(EmptyTables(), Server(map[], 1, 1, {}, {}), 0, {}, [], None)
  }

  function FirstOperation(cfg: Config): Operation {
    Operation(TOKEN, Create, 1, FEED, cfg.duration, Pending, [Item(HOST, None)], 0)
  }

  function FirstDecision(cfg: Config): VerifiedDecision {
    VerifiedDecision(HOST, 1, Scenario(FEED), ScopeIP, ObjectValue(HOST, ScopeIP), cfg.duration)
  }

  function FirstAlert(cfg: Config): VerifiedAlert {
    VerifiedAlert(1, cfg.machineId, Scenario(FEED), [FirstDecision(cfg)])
  }

  function PlannedTables1(): Tables {
    EmptyTables().(objects := map[HOST := RowOf(WANTED, 0)])
  }

  function PlannedWorld(): World { FirstWorld().(db := PlannedTables1()) }

  function BegunWorld(cfg: Config): World {
    PlannedWorld().(db := Begun(PlannedTables1(), FirstOperation(cfg)), tokens := {TOKEN})
  }

  function CreatedWorld(cfg: Config): World {
    var w := BegunWorld(cfg);
    w.(server := Created(cfg.machineId, w.server, 0, Scenario(FEED), TOKEN, cfg.duration, [InputFor(HOST, ScopeIP)]),
       writes := [CreateWrite(TOKEN)])
  }

  function ReadWorld(cfg: Config): World {
    var w := CreatedWorld(cfg);
    w.(shown := Some(View(1, w.server.alerts[1])))
  }

  function RecordedWorld(cfg: Config): World {
    var w := ReadWorld(cfg);
    w.(db := w.db.(
         operations := w.db.operations[TOKEN := w.db.operations[TOKEN].(status := Verified)],
         alerts := map[TOKEN := AlertRow(1, cfg.machineId, Scenario(FEED), 0)],
         decisions := map[1 := NewDecision(TOKEN, FirstDecision(cfg), 0)]))
  }

  function SettledWorld(cfg: Config): World {
    RecordedWorld(cfg).(db := Complete(RecordedWorld(cfg).db, TOKEN, 0))
  }

  /** The first plan, its one operation and its one decision, each call answered. */
  ghost function FirstRun(cfg: Config): seq<Step> {
    [Step(Restart, FirstWorld()), Step(ApplyPlan([WANTED], 0), PlannedWorld()),
     Step(BeginOperation(FirstOperation(cfg)), BegunWorld(cfg)),
     Step(SendCreate(TOKEN, cfg.duration, [InputFor(HOST, ScopeIP)]), CreatedWorld(cfg)),
     Step(ReadAlert(1, ReadWorld(cfg).shown), ReadWorld(cfg)),
     Step(RecordVerified(TOKEN, FirstAlert(cfg), 0), RecordedWorld(cfg)),
     Step(CompleteOperation(TOKEN, 0), SettledWorld(cfg))]
  }

  lemma WantedFits(db: Tables)
    requires 1 in db.feeds
    ensures PlanFits(db, [WANTED]) && Wants([WANTED], HOST)
  {
    hide IsSafePrefix, Masked;
    HostIsMasked();
    HostIsSafe();
    assert SOURCE in WANTED.contributors;
    assert WANTED in [WANTED];
  }

  lemma Starts(cfg: Config)
    requires ValidConfig(cfg)
    ensures Init(cfg, FirstWorld())
  {
    assert ValidFeedName(FEED);
  }

  lemma PlanStep(cfg: Config)
    ensures Next(cfg, FirstWorld(), ApplyPlan([WANTED], 0), PlannedWorld())
  {
    hide PlanFits;
    WantedFits(EmptyTables());
    assert PlanPrefixes([WANTED]) == {HOST} by { assert WANTED in [WANTED]; }
  }

  lemma BeginStep(cfg: Config)
    requires ValidConfig(cfg)
    ensures Next(cfg, PlannedWorld(), BeginOperation(FirstOperation(cfg)), BegunWorld(cfg))
  {
    assert ValidToken(TOKEN);
    assert forall p :: !Busy(PlannedTables1(), p);
  }

  lemma CreateStep(cfg: Config)
    requires ValidConfig(cfg)
    ensures Next(cfg, BegunWorld(cfg), SendCreate(TOKEN, cfg.duration, [InputFor(HOST, ScopeIP)]), CreatedWorld(cfg))
  {
    hide Created;
  }

  lemma BanIsGenuine(cfg: Config)
    ensures GenuineDecision(CreatedWorld(cfg).server, 1, FirstDecision(cfg)) &&
            Genuine(CreatedWorld(cfg).server, TOKEN, FirstAlert(cfg))
  {
    var s := CreatedWorld(cfg).server;
    assert s.alerts[1].bans[0] in s.alerts[1].bans;
    assert FirstAlert(cfg).decisions == [FirstDecision(cfg)];
    assert FirstDecision(cfg) in FirstAlert(cfg).decisions;
  }

  lemma ReadStep(cfg: Config)
    ensures Next(cfg, CreatedWorld(cfg), ReadAlert(1, ReadWorld(cfg).shown), ReadWorld(cfg))
  {
    hide View;
    assert View(1, CreatedWorld(cfg).server.alerts[1]).id == 1;
  }

  lemma OneAlert(cfg: Config)
    ensures OnlyLive(CreatedWorld(cfg).server, 0, TOKEN, 1)
  {
  }

  lemma RecordStep(cfg: Config)
    requires ValidConfig(cfg)
    ensures Next(cfg, ReadWorld(cfg), RecordVerified(TOKEN, FirstAlert(cfg), 0), RecordedWorld(cfg))
  {
    hide Genuine, Created, GenuineDecision, OnlyLive, View;
    BanIsGenuine(cfg);
    OneAlert(cfg);
    var w, v := ReadWorld(cfg), FirstAlert(cfg);
    assert Item(HOST, None) in w.db.operations[TOKEN].items;
    assert DecisionFits(w.db, v.scenario, cfg.duration, 0, FirstDecision(cfg));
    assert NewIds(v) == {1} by { assert FirstDecision(cfg) in v.decisions; }
  }

  lemma CompleteStep(cfg: Config)
    ensures Next(cfg, RecordedWorld(cfg), CompleteOperation(TOKEN, 0), SettledWorld(cfg))
  {
    hide Created;
  }

  lemma FirstRunIsHistory(cfg: Config)
    requires ValidConfig(cfg)
    ensures History(cfg, FirstRun(cfg))
  {
    hide Next, Init, FirstWorld, PlannedWorld, BegunWorld, CreatedWorld, ReadWorld, RecordedWorld, SettledWorld;
    Starts(cfg);
    PlanStep(cfg);
    BeginStep(cfg);
    CreateStep(cfg);
    ReadStep(cfg);
    RecordStep(cfg);
    CompleteStep(cfg);
  }

  // ----- No live ban for a wanted object -----

  /** The one ban of the one alert has ended. */
  lemma NothingLive(cfg: Config, w: World)
    requires w.server == Ended(SettledWorld(cfg).server, 0, 1) && w.clock == 0
    ensures !OwnedLiveBan(w, HOST)
  {
    var s := SettledWorld(cfg).server;
    forall a, b | a in w.server.alerts && b in w.server.alerts[a].bans
      ensures !IsLiveBan(b, 0)
    {
      var was := EndedBan(s, 0, 1, a, b);
    }
  }

  lemma SettledFacts(cfg: Config)
    requires ValidConfig(cfg)
    ensures var w := SettledWorld(cfg);
            Quiescent(w.db) && Holds(w.db, HOST, 1) && Serves(w.db, HOST, 1) && w.clock < w.db.decisions[1].expiresAt &&
            w.db.decisions[1].expiresAt == cfg.duration && w.clock == 0 && w.db.feeds == EmptyTables().feeds &&
            w.db.objects == map[HOST := RowOf(WANTED, 0)] && w.db.decisions.Keys == {1}
    ensures PlanApplied(EmptyTables(), [WANTED], 0, EmptyTables().(objects := SettledWorld(cfg).db.objects))
  {
    hide Created;
    assert PlanPrefixes([WANTED]) == {HOST} by { assert WANTED in [WANTED]; }
  }

  /**
   A history from an empty journal, with nothing open at any plan: the object is wanted, its row is active, in time and
   as planned, so that a run on the same plan has nothing to do, and the server holds no live ban for it at all.
   */
  lemma InterruptedRemoval(cfg: Config) returns (tr: seq<Step>)
    requires ValidConfig(cfg) && cfg.honest
    ensures History(cfg, tr)
    ensures forall k :: 0 <= k < |tr| && tr[k].action.ApplyPlan? ==> Quiescent(tr[k].world.db)
    ensures var w := tr[|tr| - 1].world;
            IsWanted(w.db, HOST) && Holds(w.db, HOST, 1) && w.clock < w.db.decisions[1].expiresAt &&
            ToAdd(w.db, w.clock) == {} && ToRefresh(w.db, w.clock, cfg.refreshBefore) == {} && ToRemove(w.db) == {} &&
            !OwnedLiveBan(w, HOST)
  {
    hide History, Inv, SettledWorld, Serves, Posted, Ended, PlanApplied, PlanFits, OwnedLiveBan, BackedBy, Quiescent;
    FirstRunIsHistory(cfg);
    SettledFacts(cfg);
    WantedFits(SettledWorld(cfg).db);
    tr := RemovalGap(cfg, FirstRun(cfg), [WANTED], HOST, 1);
    var w := tr[|tr| - 1].world;
    NothingLive(cfg, w);
    HistoryInv(cfg, tr, |tr| - 1);
    OneObject(cfg, w, SettledWorld(cfg).db);
    EarlyPlansQuiet(cfg, tr);
  }

  lemma EarlyPlansQuiet(cfg: Config, tr: seq<Step>)
    requires |tr| >= 7 && tr[..7] == FirstRun(cfg)
    ensures forall k :: 0 <= k < 7 && tr[k].action.ApplyPlan? ==> Quiescent(tr[k].world.db)
  {
    hide BegunWorld, CreatedWorld, ReadWorld, RecordedWorld, SettledWorld;
    forall k | 0 <= k < 7 ensures tr[k] == FirstRun(cfg)[k] {}
    assert Quiescent(PlannedWorld().db);
  }

  lemma OneObject(cfg: Config, w: World, db: Tables)
    requires Inv(cfg, w) && ValidConfig(cfg) && w.clock == 0 && w.db == Posted(Posted(db, [], 0), [WANTED], 0)
    requires db.objects.Keys == {HOST} && Holds(w.db, HOST, 1) && Serves(w.db, HOST, 1) &&
             w.db.decisions[1].expiresAt == cfg.duration
    ensures IsWanted(w.db, HOST)
    ensures ToAdd(w.db, 0) == {} && ToRefresh(w.db, 0, cfg.refreshBefore) == {} && ToRemove(w.db) == {}
  {
    hide RowsOk, OperationsOk, AlertIdsUnique, OneOpen, UnrecordedOk, VerifiedOk, ExpiringOk, CompletedOk, Catalog,
         Owned, Ledger, Serves, PlannedRow;
    assert WANTED in [WANTED];
    PostedApplies(Posted(db, [], 0), [WANTED], 0);
    assert PlanPrefixes([WANTED]) == {HOST} && PlanPrefixes([]) == {};
    assert w.db.objects.Keys == {HOST};
    assert Keeps(w.db, HOST, 1, 0, cfg.refreshBefore);
    assert forall r :: Holds(w.db, HOST, r) ==> r == 1;
  }

  // ----- A second run that is not quiet -----

  const NEXT_TOKEN := "11111111111111111111111111111111"

  /** The same tables with the plan posted again. */
  function PostedAgain(db: Tables, now: Seconds): Tables { db.(objects := map[HOST := RowOf(WANTED, now)]) }

  /** A run starts one second above the threshold, and the next one second later. */
  function Early(cfg: Config): Seconds { cfg.duration - cfg.refreshBefore - 1 }

  function AfterFirst(cfg: Config): Tables { PostedAgain(SettledWorld(cfg).db, Early(cfg)) }

  /** The second run replaces the row. */
  function AfterSecond(cfg: Config): Tables {
    var now := Early(cfg) + 1;
    var db := PostedAgain(AfterFirst(cfg), now);
    var renewed := FirstDecision(cfg).(decisionId := 2, expiresAt := now + cfg.duration);
    db.(operations := db.operations[NEXT_TOKEN :=
          OperationRow(Refresh, 1, cfg.duration, Completed, [Item(HOST, Some(1))], now, Some(now))],
        alerts := db.alerts[NEXT_TOKEN := AlertRow(2, cfg.machineId, Scenario(FEED), now)],
        decisions := map[
          1 := NewDecision(TOKEN, FirstDecision(cfg), 0).(status := Expired, verifiedAt := now, replacedBy := Some(2)),
          2 := NewDecision(NEXT_TOKEN, renewed, now)])
  }

  lemma PostedAgainApplies(db: Tables, now: Seconds)
    requires db.objects.Keys == {HOST}
    ensures PlanApplied(db, [WANTED], now, PostedAgain(db, now))
  {
    assert PlanPrefixes([WANTED]) == {HOST} by { assert WANTED in [WANTED]; }
  }

  /** What the posted tables call for, given their only row. */
  lemma OnlyRow(db: Tables, r: int, now: Seconds, refreshBefore: Seconds)
    requires OneActive(db) && refreshBefore > 0 && db.objects.Keys == {HOST} && db.objects[HOST].desired
    requires Serves(db, HOST, r) && db.decisions[r].expiresAt > now
    ensures ToAdd(db, now) == {} && ToRemove(db) == {} && Unwanted(db) == {}
    ensures db.decisions[r].expiresAt - now > refreshBefore ==>
            ToKeep(db, now, refreshBefore) == {HOST} && ToRefresh(db, now, refreshBefore) == {}
    ensures db.decisions[r].expiresAt - now <= refreshBefore ==>
            ToKeep(db, now, refreshBefore) == {} && ToRefresh(db, now, refreshBefore) == {HOST}
    ensures Served(db, HOST, now)
  {
    assert Holds(db, HOST, r) && forall q :: Holds(db, HOST, q) ==> q == r;
    assert Keeps(db, HOST, r, now, refreshBefore) <==> db.decisions[r].expiresAt - now > refreshBefore;
    assert forall q :: Keeps(db, HOST, q, now, refreshBefore) ==> q == r;
  }

  lemma NothingBusy(db: Tables)
    requires Quiescent(db)
    ensures BusyObjects(db) == {}
  {
    forall p ensures !Busy(db, p) { QuiescentNotBusy(db, p); }
  }

  lemma FirstTables(cfg: Config)
    requires ValidConfig(cfg)
    ensures var db := AfterFirst(cfg);
            Journal(db) && Quiescent(db) && Serves(db, HOST, 1) && db.decisions[1].expiresAt == cfg.duration &&
            db.objects.Keys == {HOST} && db.objects[HOST].desired
  {
    hide Journal, History, Inv, SettledWorld, Serves, PlanApplied;
    FirstRunIsHistory(cfg);
    HistoryInv(cfg, FirstRun(cfg), 6);
    SettledFacts(cfg);
    PostedAgainApplies(SettledWorld(cfg).db, Early(cfg));
    JournalOf(cfg, SettledWorld(cfg));
    PlanKeeps(SettledWorld(cfg).db, [WANTED], Early(cfg), AfterFirst(cfg));
    ServesPostedAgain(SettledWorld(cfg).db, 0, Early(cfg));
    QuietPostedAgain(SettledWorld(cfg).db, Early(cfg));
  }

  lemma JournalOf(cfg: Config, w: World)
    requires Inv(cfg, w)
    ensures Journal(w.db)
  {
    hide Journal, Catalog, Owned, Ledger;
  }

  lemma ServesPostedAgain(db: Tables, was: Seconds, now: Seconds)
    requires Serves(db, HOST, 1) && db.objects == map[HOST := RowOf(WANTED, was)]
    ensures Serves(PostedAgain(db, now), HOST, 1)
  {
  }

  lemma QuietPostedAgain(db: Tables, now: Seconds)
    requires Quiescent(db)
    ensures Quiescent(PostedAgain(db, now))
  {
  }

  lemma FirstIsEnforced(cfg: Config)
    requires ValidConfig(cfg)
    ensures Enforced(
              cfg, SettledWorld(cfg).db, [WANTED], AfterFirst(cfg), Early(cfg), Blank(0),
              Blank(0).(skipped := 1), AfterFirst(cfg))
  {
    hide Journal, SettledWorld, Serves, PlanApplied, PlanFits, ToAdd, ToRefresh, ToKeep, ToRemove, Unwanted, Served,
         Quiescent, OneActive, BusyObjects;
    SettledFacts(cfg);
    FirstTables(cfg);
    WantedFits(SettledWorld(cfg).db);
    PostedAgainApplies(SettledWorld(cfg).db, Early(cfg));
    JournalOneActive(AfterFirst(cfg));
    OnlyRow(AfterFirst(cfg), 1, Early(cfg), cfg.refreshBefore);
    NothingBusy(SettledWorld(cfg).db);
  }

  lemma SecondRow(cfg: Config)
    requires ValidConfig(cfg)
    ensures var db, now := AfterSecond(cfg), Early(cfg) + 1;
            Serves(db, HOST, 2) && db.decisions[2].expiresAt == now + cfg.duration && Quiescent(db) &&
            db.objects == PostedAgain(AfterFirst(cfg), now).objects && db.feeds == AfterFirst(cfg).feeds
  {
    hide Created;
  }

  lemma SecondIsEnforced(cfg: Config)
    requires ValidConfig(cfg)
    ensures Enforced(
              cfg, AfterFirst(cfg), [WANTED], PostedAgain(AfterFirst(cfg), Early(cfg) + 1), Early(cfg) + 1, Blank(0),
              Blank(0).(refreshed := 1, requests := 3), AfterSecond(cfg))
  {
    hide Journal, SettledWorld, AfterFirst, AfterSecond, Serves, PlanApplied, PlanFits, Quiescent, OneActive, Enforced;
    var now := Early(cfg) + 1;
    var planned := PostedAgain(AfterFirst(cfg), now);
    FirstTables(cfg);
    SecondRow(cfg);
    FirstFeeds(cfg);
    WantedFits(AfterFirst(cfg));
    PostedAgainApplies(AfterFirst(cfg), now);
    PlanKeeps(AfterFirst(cfg), [WANTED], now, planned);
    JournalOneActive(planned);
    ServesPostedAgain(AfterFirst(cfg), Early(cfg), now);
    QuietPostedAgain(AfterFirst(cfg), now);
    Replaced(cfg, AfterFirst(cfg), planned, now, AfterSecond(cfg));
  }

  /** A run that replaces the only row, which is due. */
  lemma Replaced(cfg: Config, db: Tables, planned: Tables, now: Seconds, db': Tables)
    requires ValidConfig(cfg) && PlanFits(db, [WANTED]) && Quiescent(db) && Quiescent(db')
    requires planned == db.(objects := db'.objects) && PlanApplied(db, [WANTED], now, planned) &&
             OneActive(planned) && Quiescent(planned)
    requires planned.objects.Keys == {HOST} && planned.objects[HOST].desired && Serves(planned, HOST, 1)
    requires now < planned.decisions[1].expiresAt <= now + cfg.refreshBefore
    requires Serves(db', HOST, 2) && db'.decisions[2].expiresAt == now + cfg.duration
    ensures Enforced(cfg, db, [WANTED], planned, now, Blank(0), Blank(0).(refreshed := 1, requests := 3), db')
  {
    hide Serves, PlanApplied, PlanFits, ToAdd, ToRefresh, ToKeep, ToRemove, Unwanted, Quiescent, OneActive, BusyObjects,
         AllServed, Converged;
    OnlyRow(planned, 1, now, cfg.refreshBefore);
    NothingBusy(db);
    HostConverged(db', 2, now, Floor(cfg, now, cfg.duration));
    assert Work(planned, now, cfg.refreshBefore) == {HOST};
  }

  lemma HostConverged(db: Tables, r: int, now: Seconds, floor: Seconds)
    requires Quiescent(db) && db.objects.Keys == {HOST} && db.objects[HOST].desired && Serves(db, HOST, r)
    requires db.decisions[r].expiresAt > floor >= now
    ensures Converged(db, now) && forall targets: set<Prefix> :: targets <= {HOST} ==> AllServed(db, targets, floor)
  {
    hide Serves, Quiescent;
    RowServes(db, r, floor);
    RowServes(db, r, now);
  }

  lemma RowServes(db: Tables, r: int, floor: Seconds)
    requires Serves(db, HOST, r) && db.decisions[r].expiresAt > floor
    ensures Served(db, HOST, floor)
  {
  }

  lemma FirstFeeds(cfg: Config)
    ensures 1 in AfterFirst(cfg).feeds && AfterFirst(cfg).objects == map[HOST := RowOf(WANTED, Early(cfg))]
  {
    hide Created;
  }

  /**
   "A second run within duration - refreshBefore is quiet" is false, whatever the configuration leaves between the
   two: on the tables of a real history, a first run succeeds and sends nothing, because its row is one second above
   the threshold, and a second run one second later succeeds and has to replace the row. No run at that time could
   send nothing.
   */
  lemma KeptThenDue(cfg: Config)
    requires ValidConfig(cfg) && cfg.duration - cfg.refreshBefore > 1
    ensures var now := Early(cfg);
            var now' := now + 1;
            now' - now < cfg.duration - cfg.refreshBefore && History(cfg, FirstRun(cfg)) && Journal(AfterFirst(cfg)) &&
            Enforced(cfg, FirstRun(cfg)[6].world.db, [WANTED], AfterFirst(cfg), now, Blank(0),
                Blank(0).(skipped := 1), AfterFirst(cfg)) &&
            Enforced(
              cfg, AfterFirst(cfg), [WANTED], PostedAgain(AfterFirst(cfg), now'), now', Blank(0),
              Blank(0).(refreshed := 1, requests := 3), AfterSecond(cfg)) &&
            NoRunIsQuiet(cfg, AfterFirst(cfg), now')
  {
    hide History, Journal, SettledWorld, AfterFirst, AfterSecond, Enforced;
    FirstRunIsHistory(cfg);
    FirstTables(cfg);
    FirstIsEnforced(cfg);
    SecondIsEnforced(cfg);
    assert !AllFar(AfterFirst(cfg), Early(cfg) + 1, cfg.refreshBefore) by { assert Holds(AfterFirst(cfg), HOST, 1); }
    DueIsSent(cfg, SettledWorld(cfg).db, Early(cfg), AfterFirst(cfg), Early(cfg) + 1);
  }

  /** Every run that succeeds on these tables at that time sends something. */
  ghost predicate NoRunIsQuiet(cfg: Config, db: Tables, now: Seconds) {
    forall planned, report, db' :: Enforced(cfg, db, [WANTED], planned, now, Blank(0), report, db') ==>
        report.requests > 0
  }

  lemma DueIsSent(cfg: Config, db0: Tables, now: Seconds, db: Tables, now': Seconds)
    requires Journal(db) && cfg.refreshBefore > 0 && !AllFar(db, now', cfg.refreshBefore)
    requires Enforced(cfg, db0, [WANTED], db, now, Blank(0), Blank(0).(skipped := 1), db)
    ensures NoRunIsQuiet(cfg, db, now')
  {
    hide Journal, Enforced, AllFar;
    forall planned, report, db' | Enforced(cfg, db, [WANTED], planned, now', Blank(0), report, db')
      ensures report.requests > 0
    {
      SecondRunQuietIff(cfg, db0, [WANTED], db, now, Blank(0), Blank(0).(skipped := 1), db, planned, now', Blank(0),
          report, db');
    }
  }
}
