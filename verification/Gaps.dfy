/**
 Where the protocol does leave a wanted object without its ban: an expire request that took
 effect but was never marked, followed by the object being wanted again.
 */
module Gaps {
  import opened Prefixes
  import opened Planner
  import opened Database
  import opened Invariants
  import opened Remote
  import opened Protocol
  import opened ProtocolLaws
  import opened Effects
  import opened Prediction

  ghost function PlannedRow(db: Tables, objects: seq<Object>, now: Seconds, p: Prefix): ObjectRow
    requires p in db.objects || p in PlanPrefixes(objects)
  {
    if p in PlanPrefixes(objects) then var o :| o in objects &&
        o.prefix == p; RowOf(o, now) else StaleRow(db.objects[p], now)
  }

  /** The tables after a plan is posted. */
  ghost function Posted(db: Tables, objects: seq<Object>, now: Seconds): Tables {
    db.(objects := map p | p in db.objects.Keys + PlanPrefixes(objects) :: PlannedRow(db, objects, now, p))
  }

  lemma PostedApplies(db: Tables, objects: seq<Object>, now: Seconds)
    requires DistinctPrefixes(objects)
    ensures PlanApplied(db, objects, now, Posted(db, objects, now))
  {
    forall o | o in objects
      ensures Posted(db, objects, now).objects[o.prefix] == RowOf(o, now)
    {
      assert o.prefix in PlanPrefixes(objects);
      var x :| x in objects && x.prefix == o.prefix && PlannedRow(db, objects, now, o.prefix) == RowOf(x, now);
      SamePrefix(objects, x, o);
    }
  }

  /** A row whose object no plan names any more is unwanted, and may be expired. */
  lemma DroppedMayExpire(db: Tables, now: Seconds, p: Prefix, n: int)
    requires RowsOk(db) && Holds(db, p, n) && Quiescent(db)
    ensures var dropped := Posted(db, [], now);
            ExpireGuard(dropped, n) && dropped == db.(objects := dropped.objects) && Quiescent(dropped)
  {
    assert PlanPrefixes([]) == {};
    QuiescentNotBusy(Posted(db, [], now), p);
  }

  lemma RowKnown(cfg: Config, w: World, n: int)
    requires Inv(cfg, w) && cfg.honest && n in w.db.decisions
    ensures Knows(w.server, n)
  {
    hide Journal, Catalog, Owned, ServerOk, OneLiveAlert, UnrecordedUntouched, ScenariosAgree;
    var b :| BackedBy(w, n, b);
  }

  /** An honest server shows every recorded row, once and unchanged. */
  lemma RowShown(cfg: Config, w: World, n: int) returns (home: int)
    requires Inv(cfg, w) && cfg.honest && n in w.db.decisions
    ensures home in w.server.alerts && StillShows(cfg, w.db, n, View(home, w.server.alerts[home]))
  {
    hide Journal, Catalog, Owned, OneLiveAlert, UnrecordedUntouched, ScenariosAgree, Foreign;
    var b :| BackedBy(w, n, b);
    home := w.db.alerts[w.db.decisions[n].token].alertId;
    var bans := w.server.alerts[home].bans;
    var i :| 0 <= i < |bans| && bans[i] == b;
    assert MineOk(cfg.machineId, w.tokens, w.clock, w.server.alerts[home]);
    assert ShowsRow(n, w.db.decisions[n], View(home, w.server.alerts[home]).decisions[i]);
    forall j | 0 <= j < |bans| && WireOf(bans[j]).id == n
      ensures j == i
    {
      assert HasBan(w.server.alerts, home, i) && HasBan(w.server.alerts, home, j) &&
             SameId(w.server.alerts, home, i, home, j);
    }
  }

  lemma PlanFitsAgain(db: Tables, db': Tables, objects: seq<Object>)
    requires PlanFits(db, objects) && db'.feeds == db.feeds
    ensures PlanFits(db', objects)
  {
    hide ValidObject;
    forall o | o in objects ensures SourcesFit(db', o.contributors) { assert SourcesFit(db, o.contributors); }
  }

  /** What the five steps of an interrupted removal, with the object wanted again, lead to. */
  ghost function Dropped(w: World): World { w.(db := Posted(w.db, [], w.clock)) }

  ghost function Shown(w: World, alert: WireAlert): World { w.(shown := Some(alert)) }

  ghost function Cut(w: World, n: int): World {
    w.(server := Ended(w.server, w.clock, n), writes := w.writes + [ExpireWrite(n)], shown := None)
  }

  ghost function WantedAgain(w: World, objects: seq<Object>): World { w.(db := Posted(w.db, objects, w.clock)) }

  /**
   From any history that ends with nothing open: the next plan drops the object, its row is read, the expire request
   takes effect, the process dies before it can mark the row, and a later plan wants the object again. Nothing is
   open at any of these plans. The row is still active and in time, the tables are what they were but for time
   stamps, and no ban behind the row is live. A run on the unchanged plan then keeps the row.
   */
  lemma RemovalGap(cfg: Config, tr: seq<Step>, objects: seq<Object>, p: Prefix, n: int) returns (longer: seq<Step>)
    requires History(cfg, tr) && cfg.honest
    requires var w := tr[|tr| - 1].world;
             Quiescent(w.db) && PlanFits(w.db, objects) && Wants(objects, p) && Holds(w.db, p, n) &&
             w.clock < w.db.decisions[n].expiresAt
    ensures History(cfg, longer) && |longer| == |tr| + 5 && longer[..|tr|] == tr
    ensures forall k :: |tr| <= k < |longer| ==> Quiescent(longer[k].world.db)
    ensures var w, v := tr[|tr| - 1].world, longer[|longer| - 1].world;
            v.clock == w.clock && v.db == w.db.(objects := v.db.objects) && v.server == Ended(w.server, w.clock, n) &&
            IsWanted(v.db, p) && Holds(v.db, p, n) && (forall b :: BackedBy(v, n, b) ==> !IsLiveBan(b, v.clock)) &&
            v.db == Posted(Posted(w.db, [], w.clock), objects, w.clock)
    ensures var w, v := tr[|tr| - 1].world, longer[|longer| - 1].world;
            forall db0: Tables, t: Seconds :: PlanApplied(db0, objects, t, db0.(objects := w.db.objects)) ==>
              forall r :: Serves(v.db, p, r) <==> Serves(w.db, p, r)
  {
    hide Inv, Next, History, PlanFits, PlanApplied, Posted, Ended, Knows, ExpireGuard, Serves, StillShows, View,
         Quiescent;
    HistoryBegins(cfg, tr);
    var w := tr[|tr| - 1].world;
    HistoryInv(cfg, tr, |tr| - 1);
    RowKnown(cfg, w, n);
    var home := RowShown(cfg, w, n);
    var alert := View(home, w.server.alerts[home]);
    var w1, w2 := Dropped(w), Shown(Dropped(w), alert);
    var w3 := Cut(w2, n);
    var w4 := WantedAgain(w3, objects);
    GapSteps(cfg, w, objects, p, n, home);
    HistoryExtends(cfg, tr, ApplyPlan([], w.clock), w1);
    var one := tr + [Step(ApplyPlan([], w.clock), w1)];
    HistoryExtends(cfg, one, ReadAlert(home, Some(alert)), w2);
    var two := one + [Step(ReadAlert(home, Some(alert)), w2)];
    HistoryExtends(cfg, two, SendExpire(n), w3);
    var three := two + [Step(SendExpire(n), w3)];
    HistoryExtends(cfg, three, Restart, w3);
    var four := three + [Step(Restart, w3)];
    HistoryExtends(cfg, four, ApplyPlan(objects, w.clock), w4);
    longer := four + [Step(ApplyPlan(objects, w.clock), w4)];
    HistoryInv(cfg, longer, |longer| - 1);
    GapState(cfg, w, objects, p, n, w4);
    QuietThroughout(w, objects);
  }

  lemma QuietThroughout(w: World, objects: seq<Object>)
    requires Quiescent(w.db)
    ensures Quiescent(Posted(w.db, [], w.clock)) && Quiescent(Posted(Posted(w.db, [], w.clock), objects, w.clock))
  {
    hide PlannedRow;
  }

  lemma HistoryBegins(cfg: Config, tr: seq<Step>)
    requires History(cfg, tr)
    ensures tr != []
  {
  }

  lemma GapSteps(cfg: Config, w: World, objects: seq<Object>, p: Prefix, n: int, home: int)
    requires Inv(cfg, w) && cfg.honest && PlanFits(w.db, objects) && Holds(w.db, p, n) && Knows(w.server, n) &&
             Quiescent(w.db)
    requires home in w.server.alerts && StillShows(cfg, w.db, n, View(home, w.server.alerts[home]))
    ensures var alert := View(home, w.server.alerts[home]);
            var w2 := Shown(Dropped(w), alert);
            Next(cfg, w, ApplyPlan([], w.clock), Dropped(w)) &&
            Next(cfg, Dropped(w), ReadAlert(home, Some(alert)), w2) &&
            Next(cfg, w2, SendExpire(n), Cut(w2, n)) && Next(cfg, Cut(w2, n), Restart, Cut(w2, n)) &&
            Next(cfg, Cut(w2, n), ApplyPlan(objects, w.clock), WantedAgain(Cut(w2, n), objects))
  {
    hide Inv, PlanFits, PlanApplied, Posted, Ended, Knows, ExpireGuard, StillShows, Quiescent, View, Next;
    RowsOf(cfg, w);
    DroppedMayExpire(w.db, w.clock, p, n);
    NothingFits(w.db);
    PlanIsStep(cfg, w, []);
    var alert := View(home, w.server.alerts[home]);
    assert alert.id == home;
    ReadIsStep(cfg, Dropped(w), home, alert);
    SameRowShown(cfg, w.db, Dropped(w).db, n, alert);
    ExpireIsStep(cfg, Shown(Dropped(w), alert), n);
    var w3 := Cut(Shown(Dropped(w), alert), n);
    RestartIsStep(cfg, w3);
    PlanFitsAgain(w.db, w3.db, objects);
    PlanIsStep(cfg, w3, objects);
  }

  lemma RowsOf(cfg: Config, w: World)
    requires Inv(cfg, w)
    ensures RowsOk(w.db)
  {
    hide RowsOk, OperationsOk, AlertIdsUnique, OneActive, OneOpen, UnrecordedOk, VerifiedOk, ExpiringOk, CompletedOk,
         Catalog, Owned, Ledger;
  }

  lemma PlanIsStep(cfg: Config, w: World, objects: seq<Object>)
    requires PlanFits(w.db, objects)
    ensures Next(cfg, w, ApplyPlan(objects, w.clock), WantedAgain(w, objects))
  {
    hide PlanFits, PlanApplied, Posted;
    FitsDistinct(w.db, objects);
    PostedApplies(w.db, objects, w.clock);
  }

  lemma ReadIsStep(cfg: Config, w: World, home: int, alert: WireAlert)
    requires alert.id == home && home in w.server.alerts && alert == View(home, w.server.alerts[home])
    ensures Next(cfg, w, ReadAlert(home, Some(alert)), Shown(w, alert))
  {
    hide View;
  }

  lemma ExpireIsStep(cfg: Config, w: World, n: int)
    requires Knows(w.server, n) && ExpireGuard(w.db, n) && w.shown.Some? && StillShows(cfg, w.db, n, w.shown.value)
    ensures Next(cfg, w, SendExpire(n), Cut(w, n))
  {
    hide Knows, ExpireGuard, StillShows, Ended;
  }

  lemma RestartIsStep(cfg: Config, w: World)
    requires w.shown == None
    ensures Next(cfg, w, Restart, w)
  {
  }

  lemma SameRowShown(cfg: Config, db: Tables, db': Tables, n: int, remote: WireAlert)
    requires StillShows(cfg, db, n, remote) && db'.decisions == db.decisions && db'.alerts == db.alerts
    ensures StillShows(cfg, db', n, remote)
  {
  }

  lemma NothingFits(db: Tables)
    ensures PlanFits(db, [])
  {
  }

  lemma FitsDistinct(db: Tables, objects: seq<Object>)
    requires PlanFits(db, objects)
    ensures DistinctPrefixes(objects)
  {
  }

  lemma GapState(cfg: Config, w: World, objects: seq<Object>, p: Prefix, n: int, v: World)
    requires Inv(cfg, v) && cfg.honest && PlanFits(w.db, objects) && Wants(objects, p) && Holds(w.db, p, n)
    requires v.db == Posted(Posted(w.db, [], w.clock), objects, w.clock) && v.server == Ended(w.server, w.clock, n) &&
             v.clock == w.clock
    ensures v.db == w.db.(objects := v.db.objects) && IsWanted(v.db, p) && Holds(v.db, p, n)
    ensures forall b :: BackedBy(v, n, b) ==> !IsLiveBan(b, v.clock)
    ensures forall db0: Tables, t: Seconds :: PlanApplied(db0, objects, t, db0.(objects := w.db.objects)) ==>
            forall r :: Serves(v.db, p, r) <==> Serves(w.db, p, r)
  {
    hide Journal, Catalog, Owned, Ledger, PlanFits, PlanApplied, Serves, PlannedRow;
    FitsDistinct(w.db, objects);
    var dropped := Posted(w.db, [], w.clock);
    PostedApplies(dropped, objects, w.clock);
    PlannedTables(dropped, objects, w.clock, v.db, p);
    forall b | BackedBy(v, n, b) ensures !IsLiveBan(b, v.clock) { BanEnded(cfg, v, n, b); }
    forall db0: Tables, t: Seconds | PlanApplied(db0, objects, t, db0.(objects := w.db.objects))
      ensures forall r :: Serves(v.db, p, r) <==> Serves(w.db, p, r)
    {
      ServesAgain(db0, t, w.db, dropped, objects, w.clock, v.db, p);
    }
  }

  lemma ServesAgain(db0: Tables, t: Seconds, db: Tables, dropped: Tables, objects: seq<Object>, now: Seconds,
                    db': Tables, p: Prefix)
    requires PlanApplied(db0, objects, t, db0.(objects := db.objects)) && PlanApplied(dropped, objects, now, db') &&
             Wants(objects, p)
    requires db'.decisions == db.decisions && db'.feeds == db.feeds
    ensures forall r :: Serves(db', p, r) <==> Serves(db, p, r)
  {
    var o :| o in objects && o.desired && o.prefix == p;
    assert db0.(objects := db.objects).objects[p] == RowOf(o, t);
    assert db'.objects[p] == RowOf(o, now);
  }
}
