/**
 internal/reconcile/reconcile.go: the reconciler, which drives the store against the LAPI. Each
 call it makes is logged as a step of `Protocol`, so every run, and every prefix of a run that a
 crash cuts short, is a history in the sense of `ProtocolLaws`.
 */
module Reconciliation {
  import opened Collections
  import opened Prefixes
  import opened Planner
  import opened Database
  import opened Invariants
  import opened Remote
  import opened Protocol
  import opened ProtocolLaws
  import opened StateStore
  import opened Lapi
  import opened Verification
  import opened Effects
  import opened Workload
  import opened Intake
  import opened OperationFacts
  import opened RunFacts
  import opened Prediction

  /** `entries` overrides the stored entries, for a dry run only. */
  datatype RunOptions = RunOptions(allowlist: seq<Prefix>, feedOrder: map<int, int>, dryRun: bool,
      entries: Option<seq<StoredEntry>>)

  function Blank(rejected: nat): Report { Report(0, 0, 0, 0, rejected, 0, 0) }

  /** A run reports every object of the store once. */
  lemma RunCounts(cfg: Config, db: Tables, objects: seq<Object>, planned: Tables, now: Seconds, rejected: nat,
                  report: Report, db': Tables)
    requires Enforced(cfg, db, objects, planned, now, Blank(rejected), report, db') && cfg.refreshBefore > 0
    ensures report.added + report.refreshed + report.skipped == |db'.objects| && report.rejected == rejected
  {
    hide PlanFits, PlanApplied, Converged, AllServed, ToAdd, ToRefresh, ToKeep, Unwanted, ToRemove;
    PartitionCounts(planned, now, cfg.refreshBefore);
  }

  class Reconciler {
    const cfg: Config
    const store: Store
    const lapi: Client

    /** The operation tokens drawn so far; a draw that repeats one counts as a failed draw. */
    var tokens: set<Token>

    ghost var trace: seq<Step>

    ghost function Here(): World
      reads this, store, lapi
    {
      World(store.db, lapi.server, lapi.clock, tokens, lapi.writes, lapi.shown)
    }

    ghost predicate Wired()
      reads this
    {
      ValidConfig(cfg) && lapi.machineId == cfg.machineId && lapi.honest == cfg.honest
    }

    /** The trace is a history that ends here. */
    ghost predicate Valid()
      reads this, store, lapi
    {
      Wired() && History(cfg, trace) && trace != [] && trace[|trace| - 1].world == Here()
    }

    constructor (cfg: Config, store: Store, lapi: Client)
      requires ValidConfig(cfg) && lapi.machineId == cfg.machineId && lapi.honest == cfg.honest
      requires Init(cfg, World(store.db, lapi.server, lapi.clock, {}, lapi.writes, lapi.shown))
      ensures Valid() && this.cfg == cfg && this.store == store && this.lapi == lapi && tokens == {}
    {
      this.cfg, this.store, this.lapi, this.tokens := cfg, store, lapi, {};
      trace := [Step(Restart, World(store.db, lapi.server, lapi.clock, {}, lapi.writes, lapi.shown))];
    }

    /** A process started again after a crash: it goes on from wherever the history ended, but was shown nothing yet. */
    constructor Resume(cfg: Config, store: Store, lapi: Client, tokens: set<Token>, ghost trace: seq<Step>,
                       ghost w: World)
      requires ValidConfig(cfg) && lapi.machineId == cfg.machineId && lapi.honest == cfg.honest && History(cfg, trace)
      requires w == trace[|trace| - 1].world && lapi.shown == None
      requires w.(shown := None) == World(store.db, lapi.server, lapi.clock, tokens, lapi.writes, None)
      ensures Valid() && this.cfg == cfg && this.store == store && this.lapi == lapi && this.tokens == tokens
      ensures this.trace == trace + [Step(Restart, w.(shown := None))]
    {
      HistoryExtends(cfg, trace, Restart, w.(shown := None));
      this.cfg, this.store, this.lapi, this.tokens := cfg, store, lapi, tokens;
      this.trace := trace + [Step(Restart, w.(shown := None))];
    }

    lemma Sound()
      requires Valid()
      ensures Inv(cfg, Here())
    {
      hide Inv;
      HistoryInv(cfg, trace, |trace| - 1);
    }

    ghost method Log(a: Action)
      requires Wired() && History(cfg, trace) && Next(cfg, trace[|trace| - 1].world, a, Here())
      modifies this`trace
      ensures Valid() && trace == old(trace) + [Step(a, Here())]
    {
      hide Next;
      HistoryExtends(cfg, trace, a, Here());
      trace := trace + [Step(a, Here())];
    }

    // ----- Single steps -----

    /** Time passes and others act. */
    method Wait()
      requires Valid()
      modifies this`trace, lapi`server, lapi`clock
      ensures Valid() && Steps(old(trace), trace) && Extends(old(trace), trace) && old(lapi.clock) <= lapi.clock
      ensures cfg.honest ==>
              Interferes(cfg.machineId, tokens, old(lapi.server), old(lapi.clock), lapi.server, lapi.clock)
    {
      hide History, Journal, Catalog, Owned, ServerOk, RowsBacked, OneLiveAlert, UnrecordedUntouched, ScenariosAgree,
           Interferes;
      Sound();
      lapi.Interfere(tokens);
      Log(Interference);
    }

    method PostPlan(objects: seq<Object>, now: Seconds) returns (r: Outcome, records: RecordMap)
      requires Valid()
      modifies this`trace, store
      ensures Valid() && Steps(old(trace), trace) && Extends(old(trace), trace)
      ensures r.Ok? ==> records == ReadObjects(store.db)
      ensures store.db == old(store.db) ||
              (PlanFits(old(store.db), objects) && PlanApplied(old(store.db), objects, now, store.db))
      ensures r.Ok? ==> PlanFits(old(store.db), objects) && PlanApplied(old(store.db), objects, now, store.db)
      ensures r.Ok? ==> trace == old(trace) + [Step(ApplyPlan(objects, now), Here())]
    {
      hide History, PlanFits, PlanApplied, ReadObjects;
      var result, list := store.ApplyEnforcementPlan(objects, now);
      if result == Stored { Log(ApplyPlan(objects, now)); }
      if list == None {
        return Err(ErrState), map[];
      }
      return Ok, list.value;
    }

    method Open(op: Operation) returns (r: Outcome)
      requires Valid() && op.token !in tokens
      requires forall it :: it in op.items ==>
               !Busy(store.db, it.target) && (it.prior == None ==> NoActive(store.db, it.target))
      modifies this`trace, this`tokens, store
      ensures Valid() && Steps(old(trace), trace) && Extends(old(trace), trace)
      ensures r.Ok? ==> BeginFits(old(store.db), op) && store.db == Begun(old(store.db), op)
      ensures !r.Ok? ==> store.db == old(store.db)
    {
      hide History, Journal, Catalog, Ledger, BeginFits, Busy, NoActive;
      Sound();
      var result := store.BeginOperation(op);
      if result != Stored {
        return Err(ErrState);
      }
      tokens := tokens + {op.token};
      Log(Action.BeginOperation(op));
      return Ok;
    }

    method Flag(token: Token, status: OperationStatus, now: Seconds) returns (r: Outcome)
      requires Valid() && (status == Ambiguous || status == Failed)
      requires cfg.honest && status == Failed ==> NoLiveAlert(lapi.server, lapi.clock, token)
      modifies this`trace, store
      ensures Valid() && Steps(old(trace), trace) && Extends(old(trace), trace)
      ensures r.Ok? ==> StatusFits(old(store.db), token) && store.db == WithStatus(old(store.db), token, status, now)
      ensures !r.Ok? ==> store.db == old(store.db)
    {
      hide History, Journal, Frees, Busy, Restatus, NoLiveAlert;
      var result := store.SetOperationStatus(token, status, now);
      if result != Stored {
        return Err(ErrState);
      }
      Log(SetStatus(token, status, now));
      return Ok;
    }

    method Close(token: Token, now: Seconds) returns (r: Outcome)
      requires Valid() && Closes(store.db, token, Completed)
      modifies this`trace, store
      ensures Valid() && Steps(old(trace), trace) && Extends(old(trace), trace)
      ensures r.Ok? ==> store.db == Complete(old(store.db), token, now)
      ensures !r.Ok? ==> store.db == old(store.db)
    {
      hide History, PriorsRetired, Journal, Frees;
      var result := store.CompleteOperation(token, now);
      if result != Stored {
        return Err(ErrState);
      }
      Log(Action.CompleteOperation(token, now));
      return Ok;
    }

    method Retire(id: int, now: Seconds) returns (r: Outcome)
      requires Valid() && now <= lapi.clock && GiveUpGuard(store.db, id, now)
      requires cfg.honest ==> NotLive(lapi.server, lapi.clock, id)
      modifies this`trace, store
      ensures Valid() && Steps(old(trace), trace) && Extends(old(trace), trace)
      ensures r.Ok? ==> store.db == Marked(old(store.db), id, now)
      ensures !r.Ok? ==> store.db == old(store.db)
    {
      hide History, GiveUpGuard, Journal, NoActive, MarkGuard, NotLive;
      var result := store.MarkDecisionExpired(id, now);
      if result != Stored {
        return Err(ErrState);
      }
      Log(MarkExpired(id, now));
      return Ok;
    }

    method Confirm(token: Token, v: VerifiedAlert, now: Seconds) returns (r: Outcome)
      requires Valid() && StatusFits(store.db, token) && v.machineId == cfg.machineId
      requires cfg.honest ==> Genuine(lapi.server, token, v) && OnlyLive(lapi.server, lapi.clock, token, v.alertId)
      modifies this`trace, store
      ensures Valid() && Steps(old(trace), trace) && Extends(old(trace), trace)
      ensures r.Ok? ==> Records(old(store.db), token, v, now, store.db)
      ensures !r.Ok? ==> store.db == old(store.db)
    {
      hide History, Genuine, OnlyLive, NoOrphans, RecordFits, Recorded, Ledger, Catalog, Owned;
      hide RowsOk, AlertIdsUnique, OneActive, OneOpen, UnrecordedOk, VerifiedOk, ExpiringOk, CompletedOk;
      Sound();
      var result := store.RecordVerifiedOperation(token, v, now);
      if result != Stored {
        return Err(ErrState);
      }
      Log(RecordVerified(token, v, now));
      return Ok;
    }

    /** Asks the remote to create the operation's alert; the bans of an alert made that way last the full duration. */
    method Post(op: Operation, decisions: seq<DecisionInput>) returns (r: CreateReply)
      requires Valid() && StatusFits(store.db, op.token) && store.db.operations[op.token].feedId in store.db.feeds
      requires op == ReadOperation(store.db, op.token) && op.duration <= MAX_DURATION
      requires cfg.honest ==> NoLiveAlert(lapi.server, lapi.clock, op.token)
      modifies this`trace, lapi`server, lapi`writes
      ensures Valid() && Steps(old(trace), trace) && Extends(old(trace), trace)
      ensures lapi.writes == old(lapi.writes) || lapi.writes == old(lapi.writes) + [CreateWrite(op.token)]
      ensures cfg.honest && r.Made? ==>
                EndsAt(lapi.server, r.alertId, lapi.clock + op.duration) &&
                OnlyLive(lapi.server, lapi.clock, op.token, r.alertId)
    {
      hide History, WireFits, NoLiveAlert, OnlyLive;
      ghost var server := lapi.server;
      var request := CreateRequest(op.feedName, op.token, op.duration, decisions);
      ghost var wire;
      r, wire := lapi.CreateAlert(request);
      if cfg.honest && r.Made? {
        CreatedOnlyLive(cfg, server, lapi.clock, Scenario(op.feedName), op.token, op.duration, wire);
      }
      if WireFits(request, wire) { Log(SendCreate(op.token, op.duration, wire)); }
    }

    /** Reads an alert; what it shows is remembered until it is acted on. */
    method Read(alertId: int) returns (r: GetReply)
      requires Valid()
      modifies this`trace, lapi`shown
      ensures Valid() && trace == old(trace) + [Step(ReadAlert(alertId, lapi.shown), Here())]
      ensures r.Got? ==> r.alert.id == alertId
      ensures lapi.shown == if r.Got? then Some(r.alert) else None
      ensures cfg.honest && r.Got? ==>
              alertId in lapi.server.alerts && r.alert == View(alertId, lapi.server.alerts[alertId])
      ensures cfg.honest && r.GetNotFound? ==> alertId !in lapi.server.alerts
    {
      hide History, View;
      r := lapi.GetAlert(alertId);
      Log(ReadAlert(alertId, lapi.shown));
    }

    method Expire(id: int) returns (r: ExpireReply)
      requires Valid() && id > 0 && ExpireGuard(store.db, id) && lapi.shown.Some? &&
               StillShows(cfg, store.db, id, lapi.shown.value)
      modifies this`trace, lapi`server, lapi`writes, lapi`shown
      ensures Valid() && Steps(old(trace), trace) && Extends(old(trace), trace)
      ensures lapi.writes == old(lapi.writes) + [ExpireWrite(id)]
      ensures cfg.honest && r != ExpireFailed ==> NotLive(lapi.server, lapi.clock, id)
    {
      hide History, ExpireGuard, Knows, Ended, StillShows, NotLive;
      ghost var server := lapi.server;
      r := lapi.ExpireDecision(id);
      if cfg.honest && r != ExpireFailed { EndedIsNotLive(server, lapi.server, lapi.clock, id); }
      Log(SendExpire(id));
    }

    // ----- Operations -----

    /** The one decision of the alert that still shows the row as it was recorded. */
    method MatchRow(d: DecisionRecord, remote: WireAlert) returns (matched: Option<nat>)
      requires d.id in store.db.decisions && store.db.decisions[d.id].token in store.db.alerts
      requires d == ReadDecision(store.db, d.id)
      ensures matched.Some? ==>
                matched.value < |remote.decisions| && remote.decisions[matched.value].id == d.id &&
                StillShows(cfg, store.db, d.id, remote)
      ensures matched == None ==> !StillShows(cfg, store.db, d.id, remote)
    {
      if remote.id != d.alertId || remote.machineId != cfg.machineId || remote.scenario != d.row.scenario {
        return None;
      }
      matched := FindDecision(remote.decisions, d.id);
      if matched.Some? && !ShowsRow(d.id, d.row, remote.decisions[matched.value]) {
        return None;
      }
      if matched.Some? { ShowsIs(cfg, store.db, d, remote, matched.value); }
    }

    /**
     Expires a row remotely after reading its alert again, and marks it. A row whose alert is
     gone, or whose remote decision has ended, is only marked.
     */
    method ExpireOwned(d: DecisionRecord, report: Report, now: Seconds) returns (r: Outcome, report': Report)
      requires Valid() && now <= lapi.clock
      requires ExpireGuard(store.db, d.id) && GiveUpGuard(store.db, d.id, now)
      requires store.db.decisions[d.id].token in store.db.alerts && d == ReadDecision(store.db, d.id)
      modifies this`trace, store, lapi
      ensures Valid() && Extends(old(trace), trace) && old(lapi.clock) <= lapi.clock
      ensures r.Ok? ==> store.db == Marked(old(store.db), d.id, now)
      ensures !r.Ok? ==> store.db == old(store.db)
      ensures cfg.honest && r.Ok? ==> NotLive(lapi.server, lapi.clock, d.id)
      ensures lapi.writes == old(lapi.writes) || lapi.writes == old(lapi.writes) + [ExpireWrite(d.id)]
      ensures lapi.writes != old(lapi.writes) ==>
              exists j :: |old(trace)| <= j < |trace| && ReadShows(cfg, old(store.db), d.id, trace[j].action)
      ensures Steady(trace, |old(trace)|, |trace|, old(store.db).operations)
      ensures Spent(report, report', old(lapi.writes), lapi.writes) && report'.requests > report.requests
    {
      hide ShowsRow, DecisionExpiry, ReadDecision;
      hide History, GiveUpGuard, Marked, ExpireGuard, Interferes, StillShows, NotLive, Steady, Extends, Steps;
      ghost var ops, start := store.db.operations, trace;
      SteadyNone(trace, ops);
      ExpireTarget(store.db, d.id);
      IdPositive(d);
      Wait();
      SteadyStep(start, start, trace, ops);
      ghost var before := trace;
      var reply := Read(d.alertId);
      SteadyStep(start, before, trace, ops);
      ghost var seen := trace;
      MarkedOperations(store.db, d.id, now);
      report' := report.(requests := report.requests + 1);
      if reply.GetNotFound? {
        if cfg.honest { HomeKnown(d); }
        r := Retire(d.id, now);
        SteadyStep(start, seen, trace, ops);
        return;
      }
      if reply.GetFailed? {
        r := Err(ErrLapi);
        return;
      }
      var remote := reply.alert;
      var matched := MatchRow(d, remote);
      if matched == None {
        r := Err(ErrOwnership);
        return;
      }
      var expiry := DecisionExpiry(remote.decisions[matched.value].expiry, now, cfg.duration);
      if expiry == None {
        r := Err(ErrOwnership);
        return;
      }
      if expiry.value <= now {
        if cfg.honest { EndedHere(d.id, remote, matched.value, now); }
        r := Retire(d.id, now);
        SteadyStep(start, seen, trace, ops);
        return;
      }
      assert ReadShows(cfg, store.db, d.id, trace[|before|].action);
      r := ExpireShown(d.id, now);
      ExtendsAt(seen, trace);
      SteadyJoin(start, seen, trace, ops);
      report' := report'.(requests := report'.requests + 1);
    }

    /** Sends the expire request for a row just shown, and marks the row. */
    method ExpireShown(id: int, now: Seconds) returns (r: Outcome)
      requires Valid() && now <= lapi.clock && id > 0 && ExpireGuard(store.db, id) && GiveUpGuard(store.db, id, now)
      requires lapi.shown.Some? && StillShows(cfg, store.db, id, lapi.shown.value)
      modifies this`trace, store, lapi
      ensures Valid() && Extends(old(trace), trace) && old(lapi.clock) <= lapi.clock
      ensures r.Ok? ==> store.db == Marked(old(store.db), id, now)
      ensures !r.Ok? ==> store.db == old(store.db)
      ensures cfg.honest && r.Ok? ==> NotLive(lapi.server, lapi.clock, id)
      ensures lapi.writes == old(lapi.writes) + [ExpireWrite(id)]
      ensures Steady(trace, |old(trace)|, |trace|, old(store.db).operations)
    {
      hide History, GiveUpGuard, Marked, ExpireGuard, Interferes, StillShows, NotLive, Steady, Extends, Steps;
      ghost var ops, start := store.db.operations, trace;
      SteadyNone(trace, ops);
      ExpireTarget(store.db, id);
      MarkedOperations(store.db, id, now);
      Wait();
      SteadyStep(start, start, trace, ops);
      ghost var seen := trace;
      var gone := Expire(id);
      SteadyStep(start, seen, trace, ops);
      seen := trace;
      if gone == ExpireFailed {
        return Err(ErrLapi);
      }
      r := Retire(id, now);
      SteadyStep(start, seen, trace, ops);
    }

    /** The alert a row was recorded from never goes away on an honest server. */
    lemma HomeKnown(d: DecisionRecord)
      requires Valid() && cfg.honest && d.id in store.db.decisions
      requires store.db.decisions[d.id].token in store.db.alerts && d == ReadDecision(store.db, d.id)
      ensures d.alertId in lapi.server.alerts
    {
      hide History, Inv;
      Sound();
      RowHome(cfg, Here(), d.id);
      MineHere();
    }

    lemma EndedHere(id: int, remote: WireAlert, i: nat, now: Seconds)
      requires Valid() && cfg.honest && now <= lapi.clock && i < |remote.decisions| && remote.decisions[i].id == id
      requires remote.id in lapi.server.alerts && remote == View(remote.id, lapi.server.alerts[remote.id])
      requires DecisionExpiry(remote.decisions[i].expiry, now, cfg.duration).Some?
      requires DecisionExpiry(remote.decisions[i].expiry, now, cfg.duration).value <= now
      ensures NotLive(lapi.server, lapi.clock, id)
    {
      hide History, Inv, NotLive;
      Sound();
      assert remote.decisions[i] == WireOf(lapi.server.alerts[remote.id].bans[i]);
      ShownEnded(cfg, Here(), id, remote.id, i);
    }

    lemma IdPositive(d: DecisionRecord)
      requires Valid() && d.id in store.db.decisions
      ensures d.id > 0
    {
      hide History, Catalog, Owned, Ledger, OperationsOk, AlertIdsUnique, OneActive, OneOpen, UnrecordedOk, VerifiedOk,
           ExpiringOk, CompletedOk;
      Sound();
    }

    /** Expires whatever the operation replaced, then completes it. */
    method FinishVerified(op: Operation, report: Report, now: Seconds) returns (r: Outcome, report': Report)
      requires Valid() && now <= lapi.clock
      requires op.token in store.db.operations && store.db.operations[op.token].status == Verified
      requires store.db.operations[op.token].items == op.items
      modifies this`trace, store, lapi
      ensures Valid() && Extends(old(trace), trace) && old(lapi.clock) <= lapi.clock
      ensures exists mid :: FinishedVia(old(store.db), op, now, r.Ok?, mid, store.db)
      ensures cfg.honest && r.Ok? ==> PriorsLifted(lapi.server, lapi.clock, op.items)
      ensures Working(trace, |old(trace)|, |trace| - 1, op.token)
      ensures Spent(report, report', old(lapi.writes), lapi.writes)
    {
      hide History, Fading, Complete, GiveUpGuard, ExpireGuard, Steady, Working, Extends, Steps, PriorsLifted;
      ghost var ops, start := store.db.operations, trace;
      SteadyNone(trace, ops);
      report' := report;
      FadingSelf(store.db, op.items, now);
      for i := 0 to |op.items|
        invariant Valid() && Extends(old(trace), trace) && old(lapi.clock) <= lapi.clock
        invariant Fading(old(store.db), op.items, now, store.db)
        invariant forall j :: 0 <= j < i ==> PriorGone(store.db, op.items[j])
        invariant Steady(trace, |start|, |trace|, ops)
        invariant Spent(report, report', old(lapi.writes), lapi.writes)
      {
        FadingKeepsOperations(old(store.db), op.items, now, store.db);
        ghost var before := store.db;
        var spent := report';
        ghost var sent := lapi.writes;
        ghost var seen := trace;
        r, report' := FinishItem(op, i, report', now);
        SteadyJoin(start, seen, trace, ops);
        SpentTrans(report, spent, report', old(lapi.writes), sent, lapi.writes);
        if !r.Ok? {
          SteadyWorks(trace, |start|, |trace|, ops, op.token);
          WorkingLess(trace, |start|, op.token);
          assert FinishedVia(old(store.db), op, now, false, store.db, store.db);
          return;
        }
        forall j | 0 <= j < i
          ensures PriorGone(store.db, op.items[j])
        {
          GoneStays(before, op.items[j], op.items[i], now, store.db);
        }
        FadingOn(old(store.db), op.items, now, before, op.items[i], store.db);
      }
      FadingKeepsOperations(old(store.db), op.items, now, store.db);
      AllGone(store.db, op.items);
      if cfg.honest { RetiredAreLifted(op.items); }
      ghost var mid := store.db;
      SteadyWorks(trace, |start|, |trace|, ops, op.token);
      ghost var seen := trace;
      r := Close(op.token, now);
      WorkingStep(start, seen, trace, op.token);
      assert FinishedVia(old(store.db), op, now, r.Ok?, mid, store.db);
    }

    /** Retires what one item replaced, if it is still live. */
    method FinishItem(op: Operation, i: nat, report: Report, now: Seconds) returns (r: Outcome, report': Report)
      requires Valid() && now <= lapi.clock && i < |op.items|
      requires op.token in store.db.operations && store.db.operations[op.token].status == Verified
      requires store.db.operations[op.token].items == op.items
      modifies this`trace, store, lapi
      ensures Valid() && Extends(old(trace), trace) && old(lapi.clock) <= lapi.clock
      ensures r.Ok? ==> FinishedItem(old(store.db), op.items[i], now, store.db)
      ensures !r.Ok? ==> store.db == old(store.db)
      ensures Steady(trace, |old(trace)|, |trace|, old(store.db).operations)
      ensures Spent(report, report', old(lapi.writes), lapi.writes)
    {
      hide History, GiveUpGuard, ExpireGuard, ListsDecisions, Steady, Extends, Steps;
      report' := report;
      SteadyNone(trace, store.db.operations);
      var it := op.items[i];
      if it.prior == None {
        return Ok, report';
      }
      PriorFading(op, it);
      var live := store.ListDecisions({Active, Expiring});
      if live == None {
        return Err(ErrState), report';
      }
      var found := FindRow(live.value, it.prior.value);
      LiveRow(store.db, live.value, it.prior.value, found);
      if found == None {
        return Ok, report';
      }
      r, report' := ExpireOwned(found.value, report', now);
    }

    lemma RetiredAreLifted(items: seq<Item>)
      requires Valid() && cfg.honest && PriorsRetired(store.db, items)
      ensures PriorsLifted(lapi.server, lapi.clock, items)
    {
      hide History, Inv, NotLive;
      Sound();
      forall it | it in items && it.prior.Some?
        ensures NotLive(lapi.server, lapi.clock, it.prior.value)
      {
        RetiredIsLifted(cfg, Here(), it.prior.value);
      }
    }

    /** What a recorded operation replaced is not active any more, and may be expired if still live. */
    lemma PriorFading(op: Operation, it: Item)
      requires Valid() && op.token in store.db.operations && store.db.operations[op.token].status == Verified
      requires it in store.db.operations[op.token].items && it.prior.Some?
      ensures var r := it.prior.value;
              r in store.db.decisions && store.db.decisions[r].status != Active &&
              store.db.decisions[r].token in store.db.alerts &&
              (IsLive(store.db.decisions[r].status) ==>
                  ExpireGuard(store.db, r) && forall now :: GiveUpGuard(store.db, r, now))
    {
      hide History, Catalog, Owned, Ledger, OperationsOk, AlertIdsUnique, OneActive, OneOpen, UnrecordedOk, ExpiringOk,
           CompletedOk;
      Sound();
      assert ItemReplaced(store.db, op.token, it);
    }

    /** The journal's copy of an unrecorded operation is sound. */
    lemma OperationSound(op: Operation)
      requires Valid() && op.token in store.db.operations
      ensures var row := store.db.operations[op.token];
              row.feedId in store.db.feeds && DistinctObjects(row.items) && 1 <= row.duration <= MAX_DURATION
    {
      hide History, Catalog, Owned, Ledger, RowsOk, AlertIdsUnique, OneActive, OneOpen, UnrecordedOk, VerifiedOk,
           ExpiringOk, CompletedOk;
      Sound();
    }

    /** Marks the operation ambiguous or failed. */
    method FlagOperation(op: Operation, status: OperationStatus, now: Seconds) returns (r: Outcome)
      requires Valid() && (status == Ambiguous || status == Failed) && IsCurrent(store.db, op) &&
               StatusFits(store.db, op.token)
      requires cfg.honest && status == Failed ==> NoLiveAlert(lapi.server, lapi.clock, op.token)
      modifies this`trace, store
      ensures Valid() && Steps(old(trace), trace) && Extends(old(trace), trace)
      ensures Handled(old(store.db), op, store.db)
      ensures r.Ok? && status == Failed ==> !IsOpen(store.db.operations[op.token].status)
    {
      hide History, Within, OthersSame, NoLiveAlert;
      ghost var db := store.db;
      WithinSelf(db, ItemObjects(op.items));
      OthersSelf(db, op.token);
      r := Flag(op.token, status, now);
      if r.Ok? {
        RestatusWithin(db, op.token, status, if status == Failed then Some(now) else None);
        WithinMore(db, store.db, {}, ItemObjects(op.items));
      }
    }

    /** Records a verified alert and retires what it replaces. */
    method RecordAndFinish(op: Operation, v: VerifiedAlert, report: Report, now: Seconds,
                           ghost floor: Seconds) returns (r: Outcome, report': Report)
      requires forall d :: d in v.decisions ==> d.expiresAt > floor
      requires Valid() && now <= lapi.clock && IsCurrent(store.db, op) && StatusFits(store.db, op.token)
      requires v.machineId == cfg.machineId
      requires cfg.honest ==>
                 Genuine(lapi.server, op.token, v) && OnlyLive(lapi.server, lapi.clock, op.token, v.alertId)
      modifies this`trace, store, lapi
      ensures Valid() && Extends(old(trace), trace) && old(lapi.clock) <= lapi.clock
      ensures Handled(old(store.db), op, store.db)
      ensures r.Ok? ==> !IsOpen(store.db.operations[op.token].status) && AllDone(store.db, op, floor)
      ensures Working(trace, |old(trace)|, |trace| - 1, op.token)
      ensures Spent(report, report', old(lapi.writes), lapi.writes)
    {
      hide History, Inv, Genuine, OnlyLive, PriorsLifted, Records, Within, OthersSame, ItemDone, Fading, Journal,
           Working, Extends, Steps;
      ghost var start := trace;
      WorkingNone(trace, op.token);
      ghost var db := store.db;
      report' := report;
      WithinSelf(db, ItemObjects(op.items));
      OthersSelf(db, op.token);
      JournalHere();
      r := Confirm(op.token, v, now);
      WorkingStep(start, start, trace, op.token);
      if !r.Ok? {
        return;
      }
      RecordedOperation(db, op, v, now, store.db, floor);
      ghost var recorded := store.db;
      JournalHere();
      ghost var seen := trace;
      r, report' := FinishVerified(op, report', now);
      WorkingJoin(start, seen, trace, op.token);
      ghost var mid :| FinishedVia(recorded, op, now, r.Ok?, mid, store.db);
      FinishEffects(db, op, recorded, now, mid, floor);
    }

    lemma JournalHere()
      requires Valid()
      ensures Journal(store.db) && Catalog(store.db)
    {
      hide History, Journal, Catalog;
      Sound();
    }

    lemma NothingLiveLater(s: Server, clock: Seconds, token: Token)
      requires Valid() && cfg.honest && NoLiveAlert(s, clock, token)
      requires Interferes(cfg.machineId, tokens, s, clock, lapi.server, lapi.clock) && s.mine <= s.alerts.Keys
      ensures NoLiveAlert(lapi.server, lapi.clock, token)
    {
      hide History, ServerOk;
      forall a | LiveFor(lapi.server, lapi.clock, a, token)
        ensures LiveFor(s, clock, a, token)
      {
      }
    }

    lemma OnlyLiveLater(s: Server, clock: Seconds, token: Token, alertId: int)
      requires Valid() && cfg.honest && OnlyLive(s, clock, token, alertId)
      requires Interferes(cfg.machineId, tokens, s, clock, lapi.server, lapi.clock) && s.mine <= s.alerts.Keys
      ensures OnlyLive(lapi.server, lapi.clock, token, alertId)
    {
      hide History, ServerOk;
      forall a | LiveFor(lapi.server, lapi.clock, a, token)
        ensures LiveFor(s, clock, a, token)
      {
      }
    }

    lemma MineHere()
      requires Valid() && cfg.honest
      ensures lapi.server.mine <= lapi.server.alerts.Keys
    {
      hide History, Journal, Catalog, Owned, RowsBacked, OneLiveAlert, UnrecordedUntouched, ScenariosAgree,
           BanIdsUnique, MineOk, Foreign;
      Sound();
    }

    /** Creates the alert of a journalled operation, verifies it, records it and finishes. */
    method CreateForOperation(op: Operation, records: RecordMap, report: Report, now: Seconds)
      returns (r: Outcome, report': Report)
      requires Valid() && now <= lapi.clock && IsCurrent(store.db, op) && StatusFits(store.db, op.token)
      requires cfg.honest ==> NoLiveAlert(lapi.server, lapi.clock, op.token)
      modifies this`trace, store, lapi
      ensures Valid() && Extends(old(trace), trace) && old(lapi.clock) <= lapi.clock
      ensures Handled(old(store.db), op, store.db)
      ensures r.Ok? ==> !IsOpen(store.db.operations[op.token].status)
      ensures r.Ok? && AllWanted(records, op.items) ==>
                AllDone(store.db, op, Floor(cfg, now, op.duration)) && report'.requests > report.requests
      ensures Working(trace, |old(trace)|, |trace| - 1, op.token)
      ensures Spent(report, report', old(lapi.writes), lapi.writes)
    {
      hide History, NoLiveAlert, Interferes, Handled, StatusFits, AllDone, Verifies, Genuine, OnlyLive, EndsAt, Floor,
           View, Working, Extends, Steps;
      ghost var start := trace;
      WorkingNone(trace, op.token);
      UnrecordedIsOpen(store.db, op.token);
      report' := report;
      OperationSound(op);
      var decisions: seq<DecisionInput> := [];
      for i := 0 to |op.items|
        invariant Valid() && trace == old(trace) && store.db == old(store.db) && lapi.clock == old(lapi.clock) &&
                  lapi.writes == old(lapi.writes)
        invariant lapi.server == old(lapi.server)
        invariant forall j :: 0 <= j < i ==> op.items[j].target in records && records[op.items[j].target].desired
      {
        var p := op.items[i].target;
        if p !in records || !records[p].desired {
          assert op.items[i] in op.items;
          r := FlagOperation(op, Failed, now);
          WorkingStep(start, start, trace, op.token);
          return;
        }
        decisions := decisions + [InputFor(p, records[p].scope)];
      }
      if cfg.honest { MineHere(); }
      Wait();
      WorkingStep(start, start, trace, op.token);
      ghost var seen := trace;
      if cfg.honest { NothingLiveLater(old(lapi.server), old(lapi.clock), op.token); }
      var made := Post(op, decisions);
      WorkingStep(start, seen, trace, op.token);
      seen := trace;
      report' := report'.(requests := report'.requests + 1);
      if made.CreateFailed? {
        var ignored := FlagOperation(op, Ambiguous, now);
        WorkingStep(start, seen, trace, op.token);
        return Err(ErrLapi), report';
      }
      ghost var spent, sent := report', lapi.writes;
      r, report' := VerifyCreated(op, made.alertId, lapi.clock + op.duration, records, report', now);
      WorkingJoin(start, seen, trace, op.token);
      SpentTrans(report, spent, report', old(lapi.writes), sent, lapi.writes);
    }

    /** Reads the new alert back, verifies it, records it and finishes. */
    method VerifyCreated(op: Operation, alertId: int, ghost until: Seconds, records: RecordMap, report: Report,
                         now: Seconds)
      returns (r: Outcome, report': Report)
      requires Valid() && now <= lapi.clock && IsCurrent(store.db, op) && StatusFits(store.db, op.token) &&
               now + op.duration <= until
      requires cfg.honest ==>
                 EndsAt(lapi.server, alertId, until) && OnlyLive(lapi.server, lapi.clock, op.token, alertId)
      modifies this`trace, store, lapi
      ensures Valid() && Extends(old(trace), trace) && old(lapi.clock) <= lapi.clock
      ensures Handled(old(store.db), op, store.db)
      ensures r.Ok? ==>
              !IsOpen(store.db.operations[op.token].status) && AllDone(store.db, op, Floor(cfg, now, op.duration))
      ensures Working(trace, |old(trace)|, |trace| - 1, op.token)
      ensures Spent(report, report', old(lapi.writes), lapi.writes)
    {
      hide History, Interferes, Handled, StatusFits, AllDone, Verifies, Genuine, OnlyLive, EndsAt, Floor, View, Working,
           Extends, Steps;
      ghost var start := trace;
      WorkingNone(trace, op.token);
      UnrecordedIsOpen(store.db, op.token);
      OperationSound(op);
      if cfg.honest { MineHere(); }
      Wait();
      WorkingStep(start, start, trace, op.token);
      ghost var seen := trace;
      if cfg.honest {
        EndStays(cfg, tokens, old(lapi.server), old(lapi.clock), lapi.server, lapi.clock, alertId, until);
        OnlyLiveLater(old(lapi.server), old(lapi.clock), op.token, alertId);
      }
      var got := Read(alertId);
      WorkingStep(start, seen, trace, op.token);
      seen := trace;
      report' := report.(requests := report.requests + 1);
      if !got.Got? {
        var ignored := FlagOperation(op, Ambiguous, now);
        WorkingStep(start, seen, trace, op.token);
        return Err(ErrLapi), report';
      }
      var verdict, v := VerifyAlert(cfg, op, got.alert, records, now);
      if !verdict.Ok? {
        var ignored := FlagOperation(op, Ambiguous, now);
        WorkingStep(start, seen, trace, op.token);
        return verdict, report';
      }
      GenuineHere(op, got.alert, records, now, v);
      FloorHolds(cfg, op, lapi.server, lapi.clock, alertId, until, got.alert, records, now, v);
      ghost var spent, sent := report', lapi.writes;
      r, report' := RecordAndFinish(op, v, report', now, Floor(cfg, now, op.duration));
      WorkingJoin(start, seen, trace, op.token);
      SpentTrans(report, spent, report', old(lapi.writes), sent, lapi.writes);
    }

    lemma GenuineHere(op: Operation, remote: WireAlert, records: RecordMap, now: Seconds, v: VerifiedAlert)
      requires Valid() && Verifies(cfg, op, remote, records, now, v)
      requires cfg.honest ==>
               remote.id in lapi.server.alerts && remote == View(remote.id, lapi.server.alerts[remote.id])
      ensures v.alertId == remote.id && v.machineId == cfg.machineId
      ensures cfg.honest ==> Genuine(lapi.server, op.token, v)
    {
      hide History, Inv, Genuine;
      Sound();
      if cfg.honest { VerifiedIsGenuine(cfg, Here(), op, remote, records, now, v); }
    }

    /** A search that finds nothing rules out a live alert: what it misses has run out. */
    lemma AbsentIsNotLive(op: Operation)
      requires Valid() && cfg.honest && IsCurrent(store.db, op)
      requires forall a :: InWindow(lapi.server, lapi.clock, Scenario(op.feedName), a) ==>
               lapi.server.alerts[a].scenarioHash != TokenHash(op.token)
      ensures NoLiveAlert(lapi.server, lapi.clock, op.token)
    {
      hide History, Inv, InWindow, IsCurrent;
      Sound();
      forall a | LiveFor(lapi.server, lapi.clock, a, op.token)
        ensures false
      {
        LiveIsInWindow(cfg, Here(), op, a);
      }
    }

    /** A search that finds one alert rules out any other live one. */
    lemma FoundIsOnlyLive(op: Operation, id: int)
      requires Valid() && cfg.honest && IsCurrent(store.db, op)
      requires forall a :: a in Window(lapi.server, lapi.clock, Scenario(op.feedName)) ==>
                 lapi.server.alerts[a].scenarioHash == TokenHash(op.token) ==> a == id
      ensures OnlyLive(lapi.server, lapi.clock, op.token, id)
    {
      hide History, Inv, IsCurrent;
      Sound();
      forall a | LiveFor(lapi.server, lapi.clock, a, op.token)
        ensures a == id
      {
        LiveIsInWindow(cfg, Here(), op, a);
        assert a in Window(lapi.server, lapi.clock, Scenario(op.feedName));
      }
    }

    /** With the operation closed, no ban of its alerts is forgotten. */
    lemma SettledHere(token: Token)
      requires Valid() && cfg.honest && token in store.db.operations && !IsOpen(store.db.operations[token].status)
      ensures TokenSettled(Here(), token)
    {
      hide History, Inv, TokenSettled;
      Sound();
      ClosedIsSettled(cfg, Here(), token);
    }

    /** With nothing open, every ban in force is that of an active row. */
    lemma HeldHere()
      requires Valid() && cfg.honest && Quiescent(store.db)
      ensures BansHeld(Here())
    {
      hide History, Inv, BansHeld, Quiescent;
      Sound();
      QuietBansHeld(cfg, Here());
    }

    /** Adopts the alert of an unrecorded operation if the search finds it, and creates it again otherwise. */
    method RecoverUnrecorded(op: Operation, records: RecordMap, report: Report, now: Seconds)
      returns (r: Outcome, report': Report)
      requires Valid() && now <= lapi.clock && IsCurrent(store.db, op) && StatusFits(store.db, op.token)
      modifies this`trace, store, lapi
      ensures Valid() && Extends(old(trace), trace) && old(lapi.clock) <= lapi.clock
      ensures Handled(old(store.db), op, store.db)
      ensures r.Ok? ==> !IsOpen(store.db.operations[op.token].status)
      ensures Working(trace, |old(trace)|, |trace| - 1, op.token)
      ensures Spent(report, report', old(lapi.writes), lapi.writes)
    {
      hide History, NoLiveAlert, Interferes, Handled, AllDone, Verifies, Genuine, OnlyLive, Fading, Journal, Working,
           Extends, Steps, StatusFits;
      hide InWindow, Scenario, TokenHash, View, Window;
      ghost var start := trace;
      WorkingNone(trace, op.token);
      UnrecordedIsOpen(store.db, op.token);
      report' := report;
      OperationSound(op);
      Wait();
      WorkingStep(start, start, trace, op.token);
      ghost var seen := trace;
      var found := lapi.FindOperation(op.feedName, op.token);
      report' := report'.(requests := report'.requests + 1);
      if found.FindFailed? {
        HandledSelf(store.db, op);
        return Err(ErrLapi), report';
      }
      ghost var spent, sent := report', lapi.writes;
      if found.Found? {
        var verdict, v := VerifyAlert(cfg, op, found.alert, records, now);
        if !verdict.Ok? {
          HandledSelf(store.db, op);
          return verdict, report';
        }
        GenuineHere(op, found.alert, records, now, v);
        if cfg.honest { FoundIsOnlyLive(op, found.alert.id); }
        VerifiedInTime(cfg, op, found.alert, records, now, v);
        r, report' := RecordAndFinish(op, v, report', now, now);
      } else {
        if cfg.honest { AbsentIsNotLive(op); }
        r, report' := CreateForOperation(op, records, report', now);
      }
      WorkingJoin(start, seen, trace, op.token);
      SpentTrans(report, spent, report', old(lapi.writes), sent, lapi.writes);
    }

    /**
     Brings one open operation to its end: finish it, adopt its alert, or create it again. On success no ban of its
     alerts that is in force is without a live row.
     */
    method RecoverOne(op: Operation, records: RecordMap, report: Report, now: Seconds)
      returns (r: Outcome, report': Report)
      requires Valid() && now <= lapi.clock && IsCurrent(store.db, op) && IsOpen(op.status)
      modifies this`trace, store, lapi
      ensures Valid() && Extends(old(trace), trace) && old(lapi.clock) <= lapi.clock
      ensures Handled(old(store.db), op, store.db)
      ensures r.Ok? ==> !IsOpen(store.db.operations[op.token].status)
      ensures cfg.honest && r.Ok? ==> TokenSettled(Here(), op.token)
      ensures Working(trace, |old(trace)|, |trace| - 1, op.token)
      ensures Spent(report, report', old(lapi.writes), lapi.writes)
    {
      hide History, Handled, TokenSettled, PriorsLifted, Fading, Journal, Working, Extends;
      ghost var db := store.db;
      if op.status == Verified {
        JournalHere();
        r, report' := FinishVerified(op, report, now);
        ghost var mid :| FinishedVia(db, op, now, r.Ok?, mid, store.db);
        FinishHandles(db, op, now, mid);
      } else {
        r, report' := RecoverUnrecorded(op, records, report, now);
      }
      HandledKeepsCatalog(db, op, store.db);
      if cfg.honest && r.Ok? { SettledHere(op.token); }
    }

    /** Ends every open operation, or stops at the first error. */
    method Recover(records: RecordMap, report: Report, now: Seconds) returns (r: Outcome, report': Report)
      requires Valid() && now <= lapi.clock
      modifies this`trace, store, lapi
      ensures Valid() && Extends(old(trace), trace) && old(lapi.clock) <= lapi.clock &&
              SameCatalog(old(store.db), store.db)
      ensures r.Ok? ==> Quiescent(store.db) && forall x :: x in store.db.decisions ==>
              store.db.decisions[x].status != Expiring
      ensures Quiescent(old(store.db)) ==>
              store.db == old(store.db) && report' == report && lapi.writes == old(lapi.writes)
      ensures cfg.honest && r.Ok? ==> BansHeld(Here())
      ensures r.Ok? ==> FirstQuiet(trace, |old(trace)| - 1, |trace| - 1)
      ensures r.Ok? ==> report'.recovered == report.recovered + |BusyObjects(old(store.db))|
      ensures Spent(report, report'.(recovered := report.recovered), old(lapi.writes), lapi.writes)
    {
      hide History, Handled, IsCurrent, Journal, Catalog, NotYet, Working, Quiescent, Extends, Steps;
      hide BansHeld, TokenSettled, StillOpen, ListsOpen, ReadOperation, OpenIn, ObjectsOf, BusyObjects;
      report' := report;
      ExtendsSelf(trace);
      JournalHere();
      var open := store.OpenOperations();
      if open == None {
        return Err(ErrState), report';
      }
      var ops := open.value;
      ListedAreCurrent(store.db, ops);
      ghost var start, first := trace, store.db;
      BusyNone(trace);
      NoObjectsYet(ops);
      for i := 0 to |ops|
        invariant Valid() && Extends(old(trace), trace) && old(lapi.clock) <= lapi.clock &&
                  SameCatalog(old(store.db), store.db)
        invariant StillOpen(store.db, ops, i)
        invariant i == 0 ==> store.db == old(store.db) && report' == report && lapi.writes == old(lapi.writes)
        invariant |start| <= |trace| && NotYet(trace, |start| - 1, |trace| - 1)
        invariant report'.recovered == report.recovered + |ObjectsOf(ops[..i])|
        invariant Spent(report, report'.(recovered := report.recovered), old(lapi.writes), lapi.writes)
      {
        ghost var db, spent, sent := store.db, report', lapi.writes;
        ghost var seen := trace;
        StillOpenBusy(db, ops, i);
        r, report' := RecoverOne(ops[i], records, report', now);
        ExtendsTrans(start, seen, trace);
        NotYetJoin(seen, trace, |start| - 1, ops[i].token);
        HandledKeepsCatalog(db, ops[i], store.db);
        SpentTrans(report, spent.(recovered := report.recovered), report'.(recovered := report.recovered),
            old(lapi.writes), sent, lapi.writes);
        if !r.Ok? {
          return;
        }
        StillOpenStep(db, ops, i, store.db);
        ObjectsStep(first, ops, i);
        report' := report'.(recovered := report'.recovered + |ops[i].items|);
      }
      StillOpenNone(store.db, ops);
      assert ops[..|ops|] == ops;
      ObjectsAreBusy(first, ops);
      JournalHere();
      QuiescentNothingExpiring(store.db);
      if cfg.honest { HeldHere(); }
      return Ok, report';
    }

    // ----- Planning -----

    /** Sorts the objects into creates, refreshes, removals and rows to keep; marks rows that ran out. */
    method PlanActions(records: RecordMap, active: ActiveMap, report: Report, now: Seconds)
      returns (r: Outcome, report': Report, groups: Groups, removals: seq<DecisionRecord>)
      requires Valid() && now <= lapi.clock && Quiescent(store.db)
      requires records == ReadObjects(store.db) && IsActiveMap(store.db, active)
      modifies this`trace, store
      ensures Valid() && Extends(old(trace), trace) && SameCatalog(old(store.db), store.db)
      ensures r.Ok? ==>
                var db, all := old(store.db), old(store.db).objects.Keys;
                Planned(db, now, cfg.refreshBefore, all, groups) && Lapsed(db, now, all, store.db) &&
                RemovalsOk(db, all, removals) &&
                report' == report.(skipped := report.skipped + |ToKeep(db, now, cfg.refreshBefore)|)
      ensures !r.Ok? ==> report' == report.(skipped := report'.skipped)
    {
      hide History, Sifted, Fits, Journal, Catalog, OneActive, Quiescent, IsActiveMap, ReadObjects, ReadObject,
           GiveUpGuard, ToKeep;
      hide Planned, Lapsed, RemovalsOk, AddAction, Marked, Inv, Next, ValidConfig;
      ghost var db := store.db;
      report', groups, removals := report, map[], [];
      JournalHere();
      JournalOneActive(db);
      SiftNothing(db, now, cfg.refreshBefore);
      var left := records.Keys;
      ghost var kept: set<Prefix> := {};
      ghost var done: set<Prefix> := {};
      RecordKeys(db);
      while left != {}
        invariant Valid() && Extends(old(trace), trace) && SameCatalog(db, store.db)
        invariant left <= records.Keys && done == records.Keys - left
        invariant Sifted(db, now, cfg.refreshBefore, done, groups, removals, kept, store.db)
        invariant report' == report.(skipped := report.skipped + |kept|)
      {
        var p := Pick(left);
        assert records.Keys - (left - {p}) == done + {p};
        left := left - {p};
        RecordAt(db, p);
        var decision := if p in active then Some(active[p]) else None;
        r, report', groups, removals, kept := PlanOne(db, done, p, records[p], decision, active, report', groups,
            removals, kept, now);
        if !r.Ok? {
          return;
        }
        done := done + {p};
      }
      assert done == db.objects.Keys;
      SiftedAll(db, now, cfg.refreshBefore, groups, removals, kept, store.db);
      return Ok, report', groups, removals;
    }

    lemma RunOutHere(id: int, now: Seconds)
      requires Valid() && cfg.honest && now <= lapi.clock && id in store.db.decisions
      requires store.db.decisions[id].expiresAt <= now
      ensures NotLive(lapi.server, lapi.clock, id)
    {
      hide History, Inv, NotLive;
      Sound();
      RunOutIsNotLive(cfg, Here(), id);
    }

    /** One turn of the planning loop. */
    method PlanOne(ghost db: Tables, ghost done: set<Prefix>, p: Prefix, record: EnforcementRecord,
                   decision: Option<DecisionRecord>, ghost active: ActiveMap, report: Report, groups: Groups,
                   removals: seq<DecisionRecord>, ghost kept: set<Prefix>, now: Seconds)
      returns (r: Outcome, report': Report, groups': Groups, removals': seq<DecisionRecord>, ghost kept': set<Prefix>)
      requires Valid() && now <= lapi.clock && Quiescent(db) && OneActive(db) && Catalog(db) && IsActiveMap(db, active)
      requires p in db.objects && record == ReadObject(db, p) &&
               decision == if p in active then Some(active[p]) else None
      requires p !in done && Sifted(db, now, cfg.refreshBefore, done, groups, removals, kept, store.db) &&
               SameCatalog(db, store.db)
      modifies this`trace, store
      ensures Valid() && Extends(old(trace), trace) && SameCatalog(db, store.db)
      ensures r.Ok? ==> Sifted(db, now, cfg.refreshBefore, done + {p}, groups', removals', kept', store.db)
      ensures report' == report.(skipped := report'.skipped) && report'.skipped - report.skipped == |kept'| - |kept|
    {
      hide History, Sifted, Fits, Catalog, OneActive, Quiescent, IsActiveMap, ReadObject, GiveUpGuard, ValidConfig,
           AddAction;
      r, report', groups', removals', kept' := Ok, report, groups, removals, kept;
      var choice, feed := Choose(db, p, record, decision, active, now);
      if choice == MarkAndAdd {
        SiftedMayMark(db, now, cfg.refreshBefore, done, groups, removals, kept, store.db, p, feed, decision);
        if cfg.honest { RunOutHere(decision.value.id, now); }
        r := Retire(decision.value.id, now);
        groups' := AddAction(groups, GroupKey(Create, feed.id, feed.name), Item(p, None));
        return;
      }
      SiftStep(db, now, cfg.refreshBefore, done, groups, removals, kept, store.db, p, choice, feed, decision);
      match choice
      case Leave =>
      case Remove => removals' := removals + [decision.value];
      case Add => groups' := AddAction(groups, GroupKey(Create, feed.id, feed.name), Item(p, None));
      case Replace => groups' := AddAction(groups, GroupKey(Refresh, feed.id, feed.name),
          Item(p, Some(decision.value.id)));
      case Keep =>
        report' := report.(skipped := report.skipped + 1);
        kept' := kept + {p};
    }

    /** The branches of the planning loop for one object. */
    method Choose(ghost db: Tables, p: Prefix, record: EnforcementRecord, decision: Option<DecisionRecord>,
                  ghost active: ActiveMap, now: Seconds)
      returns (choice: Choice, feed: Feed)
      requires ValidConfig(cfg) && OneActive(db) && Catalog(db) && IsActiveMap(db, active)
      requires p in db.objects && record == ReadObject(db, p) &&
               decision == if p in active then Some(active[p]) else None
      ensures choice != Stop && Fits(db, p, choice, feed, decision, now, cfg.refreshBefore)
      ensures choice == Remove || choice == MarkAndAdd || choice == Replace ==> decision.Some?
    {
      hide Catalog, IsActiveMap, OneActive;
      HolderIs(db, active, p);
      feed := Feed(0, "");
      if !record.desired {
        if decision.Some? { return Remove, feed; } else { return Leave, feed; }
      }
      WantedHasPrimary(db, p);
      var primary := PrimaryFeed(record);
      if primary == None {
        assert false;
        return Stop, feed;
      }
      feed := primary.value;
      if decision == None {
        return Add, feed;
      }
      var row := decision.value.row;
      if row.expiresAt <= now {
        return MarkAndAdd, feed;
      }
      if row.expiresAt - now <= cfg.refreshBefore || row.scope != record.scope ||
          row.value != ObjectValue(p, record.scope) ||
         row.scenario != Scenario(feed.name) {
        return Replace, feed;
      }
      assert Keeps(db, p, decision.value.id, now, cfg.refreshBefore);
      return Keep, feed;
    }

    // ----- Batches -----

    /** A fresh token; anything else the generator hands out is refused. */
    method NewOperation(key: GroupKey, batch: seq<Item>, now: Seconds) returns (r: Outcome, op: Operation)
      requires Valid()
      ensures r.Ok? ==> op.token !in tokens
      ensures op == Operation(op.token, key.kind, key.feedId, key.feedName, cfg.duration, Pending, batch, now)
    {
      var token: Token := *;
      op := Operation(token, key.kind, key.feedId, key.feedName, cfg.duration, Pending, batch, now);
      if |token| != 32 || token in tokens { return Err(ErrToken), op; } else { return Ok, op; }
    }

    lemma NewTokenNotLive(token: Token)
      requires Valid() && cfg.honest && token !in tokens
      ensures NoLiveAlert(lapi.server, lapi.clock, token)
    {
      hide History, Journal, Catalog, Owned, ServerOk, RowsBacked, OneLiveAlert, UnrecordedUntouched, ScenariosAgree;
      Sound();
      forall a | LiveFor(lapi.server, lapi.clock, a, token)
        ensures false
      {
        MineTokensDrawn(cfg, Here(), a, token);
      }
    }

    /** Journals, creates, verifies and finishes one batch. */
    method RunBatch(key: GroupKey, batch: seq<Item>, records: RecordMap, report: Report,
                    now: Seconds) returns (r: Outcome, report': Report)
      requires Valid() && now <= lapi.clock && batch != [] && GroupReady(store.db, key, batch) &&
               AllWanted(records, batch)
      modifies this`trace, this`tokens, store, lapi
      ensures Valid() && Extends(old(trace), trace) && old(lapi.clock) <= lapi.clock
      ensures Within(old(store.db), store.db, ItemObjects(batch))
      ensures r.Ok? ==>
                AllServed(store.db, ItemObjects(batch), Floor(cfg, now, cfg.duration)) &&
                (Quiescent(old(store.db)) ==> Quiescent(store.db)) && report'.requests > report.requests
      ensures Spent(report, report', old(lapi.writes), lapi.writes)
    {
      hide History, ItemReady, NoLiveAlert, BeginFits, Begun, Handled, AllDone, AllServed, Within, Quiescent,
           StatusFits, IsCurrent, AllWanted;
      report' := report;
      ghost var db := store.db;
      WithinSelf(db, ItemObjects(batch));
      var op;
      r, op := NewOperation(key, batch, now);
      if !r.Ok? {
        return;
      }
      if cfg.honest { NewTokenNotLive(op.token); }
      ReadyMayBegin(db, key, batch);
      r := Open(op);
      if !r.Ok? {
        return;
      }
      ghost var begun := store.db;
      BegunIsCurrent(db, key, op);
      r, report' := CreateForOperation(op, records, report', now);
      BatchWithin(db, op, begun, store.db);
      if r.Ok? { BatchServes(db, key, op, begun, store.db, Floor(cfg, now, cfg.duration)); }
    }

    /** One group, in batches of the configured size; an error in one batch does not stop the next. */
    method RunGroup(key: GroupKey, actions: seq<Item>, records: RecordMap, report: Report,
                    now: Seconds) returns (r: Outcome, report': Report)
      requires Valid() && now <= lapi.clock && actions != [] && GroupReady(store.db, key, actions) &&
               AllWanted(records, actions)
      modifies this`trace, this`tokens, store, lapi
      ensures Valid() && Extends(old(trace), trace) && old(lapi.clock) <= lapi.clock
      ensures Within(old(store.db), store.db, ItemObjects(actions))
      ensures r.Ok? ==>
                AllServed(store.db, ItemObjects(actions), Floor(cfg, now, cfg.duration)) &&
                (Quiescent(old(store.db)) ==> Quiescent(store.db)) &&
                report' == Credit(report, key.kind, |actions|).(requests := report'.requests) &&
                report'.requests > report.requests
      ensures Spent(report, Uncredited(report', report), old(lapi.writes), lapi.writes)
    {
      hide History, GroupReady, AllServed, Within, Quiescent, AllWanted, Served, ValidConfig;
      r, report' := Ok, report;
      ghost var db := store.db;
      WithinSelf(db, ItemObjects(actions[..0]));
      NothingServed(db, Floor(cfg, now, cfg.duration));
      var start := 0;
      BatchSizePositive(cfg);
      while start < |actions|
        invariant 0 <= start <= |actions|
        invariant Valid() && Extends(old(trace), trace) && old(lapi.clock) <= lapi.clock
        invariant Within(db, store.db, ItemObjects(actions[..start]))
        invariant r.Ok? ==>
                  AllServed(store.db, ItemObjects(actions[..start]), Floor(cfg, now, cfg.duration)) &&
                  (Quiescent(db) ==> Quiescent(store.db))
        invariant r.Ok? ==> report' == Credit(report, key.kind, start).(requests := report'.requests)
        invariant r.Ok? && start > 0 ==> report'.requests > report.requests
        invariant Spent(report, Uncredited(report', report), old(lapi.writes), lapi.writes)
      {
        var end := if start + cfg.batchSize <= |actions| then start + cfg.batchSize else |actions|;
        var batch := actions[start..end];
        ghost var before, spent, sent := store.db, report', lapi.writes;
        BatchReady(db, key, actions, start, end, before, records);
        var one;
        one, report' := RunBatch(key, batch, records, report', now);
        SpentTrans(report, Uncredited(spent, report), Uncredited(report', report), old(lapi.writes), sent, lapi.writes);
        BatchJoins(db, actions, start, end, before, store.db, Floor(cfg, now, cfg.duration));
        if !one.Ok? {
          if r.Ok? { r := one; }
        } else {
          report' := Credit(report', key.kind, |batch|);
        }
        start := end;
      }
      assert actions[..|actions|] == actions;
    }

    /**
     Every group, in some order. `planned` are the tables the plan was made on. If no batch fails,
     everything the plan found missing or ageing is served and the counters say how much that was.
     */
    method RunGroups(ghost planned: Tables, groups: Groups, records: RecordMap, report: Report,
                     now: Seconds) returns (r: Outcome, report': Report)
      requires Valid() && now <= lapi.clock && Journal(planned) && Quiescent(planned) && records == ReadObjects(planned)
      requires Planned(planned, now, cfg.refreshBefore, planned.objects.Keys, groups) &&
               Lapsed(planned, now, planned.objects.Keys, store.db)
      modifies this`trace, this`tokens, store, lapi
      ensures Valid() && Extends(old(trace), trace) && old(lapi.clock) <= lapi.clock
      ensures Within(old(store.db), store.db, Work(planned, now, cfg.refreshBefore))
      ensures r.Ok? ==>
                Quiescent(store.db) && AllServed(store.db, Work(planned, now, cfg.refreshBefore),
                    Floor(cfg, now, cfg.duration)) &&
                report' == report.(
                  added := report.added + |ToAdd(planned, now)|,
                  refreshed := report.refreshed + |ToRefresh(planned, now, cfg.refreshBefore)|,
                  requests := report'.requests) &&
                (report'.requests == report.requests <==> Work(planned, now, cfg.refreshBefore) == {})
      ensures Spent(report, Uncredited(report', report), old(lapi.writes), lapi.writes)
    {
      hide History, Planned, Lapsed, Within, Quiescent, OneActive, AllServed, GroupReady, AllWanted, ValidConfig,
           Served, Journal, ReadObjects;
      hide Both, Credited, ToAdd, ToRefresh, Work;
      r, report' := Ok, report;
      ghost var db := store.db;
      JournalOneActive(planned);
      RefreshPositive(cfg);
      LapsedQuiescent(planned, now, planned.objects.Keys, db);
      var left := groups.Keys;
      ghost var done: set<GroupKey> := {};
      GroupsBegin(groups, db, Floor(cfg, now, cfg.duration));
      while left != {}
        invariant left <= groups.Keys && done == groups.Keys - left
        invariant Valid() && Extends(old(trace), trace) && old(lapi.clock) <= lapi.clock
        invariant Within(db, store.db, Both(groups, done))
        invariant r.Ok? ==>
                  Quiescent(store.db) && AllServed(store.db, Both(groups, done), Floor(cfg, now, cfg.duration))
        invariant r.Ok? ==> Credited(report, groups, done, report')
        invariant Spent(report, Uncredited(report', report), old(lapi.writes), lapi.writes)
      {
        var key := Pick(left);
        assert groups.Keys - (left - {key}) == done + {key};
        left := left - {key};
        ghost var before, spent, sent := store.db, report', lapi.writes;
        GroupIsReady(planned, now, cfg.refreshBefore, groups, done, key, db, before);
        PlannedWanted(planned, now, cfg.refreshBefore, groups, key);
        var one;
        one, report' := RunGroup(key, groups[key], records, report', now);
        SpentTrans(report, Uncredited(spent, report), Uncredited(report', report), old(lapi.writes), sent, lapi.writes);
        GroupJoins(planned, now, cfg.refreshBefore, groups, done, key, db, before, store.db,
            Floor(cfg, now, cfg.duration));
        if one.Ok? && r.Ok? { CreditGroup(planned, now, cfg.refreshBefore, groups, done, key, report, spent, report'); }
        if r.Ok? { r := one; }
        done := done + {key};
      }
      assert done == groups.Keys;
      WorkDone(planned, now, cfg.refreshBefore, groups, report, report');
    }

    /** Expires the rows of objects no longer wanted; an error with one does not stop the next. */
    method RunRemovals(removals: seq<DecisionRecord>, report: Report, now: Seconds) returns (r: Outcome,
                       report': Report)
      requires Valid() && now <= lapi.clock && Quiescent(store.db)
      requires forall d :: d in removals ==> RemovalReady(store.db, d)
      requires forall i, j :: 0 <= i < j < |removals| ==> removals[i].row.target != removals[j].row.target
      modifies this`trace, store, lapi
      ensures Valid() && Extends(old(trace), trace) && old(lapi.clock) <= lapi.clock
      ensures Within(old(store.db), store.db, RemovalTargets(removals)) && Quiescent(store.db)
      ensures r.Ok? ==>
                (forall p :: p in RemovalTargets(removals) ==> NoActive(store.db, p)) &&
                report' == report.(removed := report.removed + |removals|, requests := report'.requests) &&
                (report'.requests == report.requests <==> removals == [])
      ensures cfg.honest && r.Ok? ==> forall d :: d in removals ==> NotLive(lapi.server, lapi.clock, d.id)
      ensures Spent(report, report'.(removed := report.removed), old(lapi.writes), lapi.writes)
    {
      hide History, Within, Quiescent, RemovalReady, NoActive, Marked, GiveUpGuard, ExpireGuard, RemovalTargets,
           ReadShows, Journal,
           Catalog, NotLive;
      r, report' := Ok, report;
      ghost var db := store.db;
      SpentSelf(report, lapi.writes);
      NothingRemoved(removals);
      WithinSelf(db, RemovalTargets(removals[..0]));
      for i := 0 to |removals|
        invariant Valid() && Extends(old(trace), trace) && old(lapi.clock) <= lapi.clock && Quiescent(store.db)
        invariant Within(db, store.db, RemovalTargets(removals[..i]))
        invariant r.Ok? ==> forall p :: p in RemovalTargets(removals[..i]) ==> NoActive(store.db, p)
        invariant r.Ok? ==> report' == report.(removed := report.removed + i, requests := report'.requests)
        invariant report'.requests >= report.requests && (r.Ok? ==> (report'.requests == report.requests <==> i == 0))
        invariant Spent(report, report'.(removed := report.removed), old(lapi.writes), lapi.writes)
      {
        ghost var before, spent, sent := store.db, report', lapi.writes;
        RemovalStillReady(db, before, removals, i, now);
        JournalHere();
        var one;
        one, report' := ExpireOwned(removals[i], report', now);
        SpentTrans(report, spent.(removed := report.removed), report'.(removed := report.removed), old(lapi.writes),
            sent, lapi.writes);
        RemovalStep(db, before, removals, i, now);
        if one.Ok? {
          report' := report'.(removed := report'.removed + 1);
        } else if r.Ok? {
          r := one;
        }
      }
      assert removals[..|removals|] == removals;
      if cfg.honest && r.Ok? { RemovedAreLifted(db, removals); }
    }

    lemma RemovedAreLifted(db: Tables, removals: seq<DecisionRecord>)
      requires Valid() && cfg.honest && Quiescent(store.db) && Within(db, store.db, RemovalTargets(removals))
      requires forall d :: d in removals ==> RemovalReady(db, d)
      requires forall p :: p in RemovalTargets(removals) ==> NoActive(store.db, p)
      ensures forall d :: d in removals ==> NotLive(lapi.server, lapi.clock, d.id)
    {
      hide History, Inv, Quiescent, Within, RemovalReady, NotLive, Journal, Catalog;
      Sound();
      JournalHere();
      QuiescentNothingExpiring(store.db);
      forall d | d in removals
        ensures NotLive(lapi.server, lapi.clock, d.id)
      {
        RemovedIsRetired(db, store.db, removals, d);
        RetiredIsLifted(cfg, Here(), d.id);
      }
    }

    // ----- Runs -----

    /** Everything after the plan is known: journal it, recover, and bring the remote in line. */
    method Enforce(objects: seq<Object>, report: Report, now: Seconds) returns (r: Outcome, report': Report,
                   ghost at: nat)
      requires Valid() && now <= lapi.clock && report.requests == 0
      modifies this`trace, this`tokens, store, lapi
      ensures Valid() && Extends(old(trace), trace) && old(lapi.clock) <= lapi.clock
      ensures store.db.feeds == old(store.db.feeds) && store.db.entries == old(store.db.entries)
      ensures r.Ok? ==>
                FirstQuiet(trace, |old(trace)|, at) && trace[|old(trace)|].action == ApplyPlan(objects, now) &&
                Enforced(cfg, old(store.db), objects, trace[at].world.db, now, report, report', store.db)
      ensures cfg.honest && r.Ok? ==> BansServed(Here())
      ensures old(lapi.writes) <= lapi.writes && (report'.requests == 0 ==> lapi.writes == old(lapi.writes))
    {
      hide History, PlanFits, PlanApplied, Quiescent, Journal, Catalog, ReadObjects, Enforced, IsActiveMap, Planned,
           Lapsed, RemovalsOk;
      hide ListsDecisions, Within, AllServed, Work, ToAdd, ToRefresh, ToKeep, RemovalReady, RemovalTargets, NoActive,
           Settles, Extends, FirstQuiet, BusyObjects, BansServed, BansHeld;
      ghost var db, start := store.db, trace;
      at := 0;
      ExtendsSelf(trace);
      JournalHere();
      report' := report;
      var records;
      r, records := PostPlan(objects, now);
      PostedCatalog(db, objects, now, store.db);
      if !r.Ok? {
        return;
      }
      ghost var posted, first := store.db, trace;
      var unwanted := CountUnwanted(records);
      report' := report'.(skipped := report'.skipped + unwanted);
      r, report' := Recover(records, report', now);
      ExtendsTrans(start, first, trace);
      if !r.Ok? {
        return;
      }
      ghost var planned, seen := store.db, trace;
      at := |trace| - 1;
      JournalHere();
      SameRecords(posted, planned);
      ghost var recovered, sent := report', lapi.writes;
      r, report' := Carry(records, report', now);
      ExtendsTrans(start, seen, trace);
      ExtendsAt(first, seen);
      ExtendsAt(seen, trace);
      if r.Ok? {
        FirstQuietStays(seen, trace, |start|, at);
        EnforcedIs(cfg, db, objects, posted, planned, now, report, unwanted, recovered, report', store.db);
        if cfg.honest { ServedHere(objects, planned, now, report, report', db); }
      }
    }

    lemma ServedHere(objects: seq<Object>, planned: Tables, now: Seconds, report: Report, report': Report, db: Tables)
      requires Valid() && cfg.honest && Enforced(cfg, db, objects, planned, now, report, report', store.db)
      ensures BansServed(Here())
    {
      hide History, Inv, BansServed, PlanFits, PlanApplied, Converged, AllServed;
      Sound();
      ConvergedBansServed(cfg, Here(), now);
    }

    /** Planning, batches and removals, once nothing is left open. */
    method Carry(records: RecordMap, report: Report, now: Seconds) returns (r: Outcome, report': Report)
      requires Valid() && now <= lapi.clock && Quiescent(store.db) && records == ReadObjects(store.db)
      modifies this`trace, this`tokens, store, lapi
      ensures Valid() && Extends(old(trace), trace) && old(lapi.clock) <= lapi.clock &&
              SameCatalog(old(store.db), store.db)
      ensures r.Ok? ==> Settles(cfg, old(store.db), now, report, report', store.db)
      ensures report.requests <= report'.requests && old(lapi.writes) <= lapi.writes
      ensures |lapi.writes| - |old(lapi.writes)| <= report'.requests - report.requests
    {
      hide History, Quiescent, Journal, Catalog, ReadObjects, IsActiveMap, Planned, Lapsed, RemovalsOk;
      hide ListsDecisions, Within, AllServed, Work, ToAdd, ToRefresh, ToKeep, RemovalReady, RemovalTargets, NoActive,
           Settles;
      ghost var planned := store.db;
      report' := report;
      JournalHere();
      var list := store.ListDecisions({Active});
      if list == None {
        return Err(ErrState), report';
      }
      var active;
      r, active := ActiveByObject(planned, list.value);
      var groups, removals;
      r, report', groups, removals := PlanActions(records, active, report', now);
      if !r.Ok? {
        return;
      }
      ghost var lapsed, sifted := store.db, report';
      r, report' := RunGroups(planned, groups, records, report', now);
      WithinCatalog(lapsed, store.db, Work(planned, now, cfg.refreshBefore));
      if !r.Ok? {
        return;
      }
      ghost var served, credited, sent := store.db, report', lapi.writes;
      RemovalsReady(planned, now, cfg.refreshBefore, removals, lapsed, served);
      r, report' := RunRemovals(removals, report', now);
      WithinCatalog(served, store.db, RemovalTargets(removals));
      if r.Ok? {
        RunSettles(cfg, planned, now, removals, lapsed, served, store.db, report, sifted, credited, report');
      }
    }

    /** Counts what a run would do, and changes nothing. */
    method DryRun(objects: seq<Object>, report: Report, now: Seconds) returns (r: Outcome, report': Report)
      requires Valid() && DistinctPrefixes(objects)
      ensures r.Ok? ==> DryCounted(store.db, objects, now, cfg.refreshBefore, report, report')
      ensures report'.requests == report.requests
    {
      hide History, Journal, Catalog, ListsDecisions, IsActiveMap, ReadObjects, DistinctPrefixes, DryAdd, DryRefresh,
           DryRemove;
      JournalHere();
      var existing := store.ListEnforcementObjects();
      if existing == None {
        return Err(ErrState), report;
      }
      var decisions := store.ListDecisions({Active});
      if decisions == None {
        return Err(ErrState), report;
      }
      var verdict, active := ActiveByObject(store.db, decisions.value);
      report' := DryCounts(store.db, objects, existing.value, active, report, now, cfg.refreshBefore);
      return Ok, report';
    }

    /**
     One run. Whatever it returns, the trace is still a history. An enforcing run that returns no
     error has converged on the plan of the entries stored when it began. `at` is where planning
     began: the first world of the run, after the plan was posted, with nothing open.
     */
    method Run(options: RunOptions) returns (r: Outcome, report: Report, ghost entries: seq<StoredEntry>,
               ghost objects: seq<Object>, ghost at: nat)
      requires Valid()
      modifies this`trace, this`tokens, store, lapi
      ensures Valid() && Extends(old(trace), trace) && old(lapi.clock) <= lapi.clock
      ensures store.db.feeds == old(store.db.feeds) && store.db.entries == old(store.db.entries)
      ensures old(lapi.writes) <= lapi.writes && (report.requests == 0 ==> lapi.writes == old(lapi.writes))
      ensures options.dryRun ==> store.db == old(store.db) && trace == old(trace) && report.requests == 0
      ensures options.entries.Some? && !options.dryRun ==> r == Err(ErrContract)
      ensures r.Ok? ==>
                (if options.entries.Some? then entries == options.entries.value else ListsEntries(old(store.db),
                    entries)) &&
                IsPlan(CandidatesOf(entries, options.feedOrder), options.allowlist, objects) &&
                report.rejected == Rejections(CandidatesOf(entries, options.feedOrder))
      ensures r.Ok? && options.dryRun ==>
                DryCounted(store.db, objects, lapi.clock, cfg.refreshBefore, Blank(report.rejected), report)
      ensures cfg.honest && r.Ok? && !options.dryRun ==> BansServed(Here())
      ensures r.Ok? && !options.dryRun ==>
                FirstQuiet(trace, |old(trace)|, at) &&
                trace[|old(trace)|].action == ApplyPlan(objects, old(lapi.clock)) &&
                Enforced(cfg, old(store.db), objects, trace[at].world.db, old(lapi.clock), Blank(report.rejected),
                    report, store.db) &&
                report.added + report.refreshed + report.skipped == |store.db.objects|
    {
      hide History, ListsEntries, IsPlan, DryCounted, Enforced, Rejections, ValidConfig, NotYet, Quiescent, BansServed;
      var now := lapi.clock;
      entries, objects, at := [], [], 0;
      report := Blank(0);
      if options.entries.Some? && !options.dryRun {
        return Err(ErrContract), report, entries, objects, at;
      }
      var list := options.entries;
      if list == None { list := store.ListActiveEntries(); }
      if list == None {
        return Err(ErrState), report, entries, objects, at;
      }
      var plan, summary;
      r, plan, summary := BuildObjects(list.value, options.allowlist, options.feedOrder);
      if !r.Ok? {
        return;
      }
      entries, objects := list.value, plan;
      report := Blank(summary.rejectedSafety);
      if options.dryRun {
        PlanIsDistinct(CandidatesOf(entries, options.feedOrder), options.allowlist, objects);
        r, report := DryRun(plan, report, now);
        RejectedStays(store.db, objects, now, cfg.refreshBefore, Blank(summary.rejectedSafety), report);
        return;
      }
      r, report, at := Enforce(plan, report, now);
      if r.Ok? {
        RefreshPositive(cfg);
        RunCounts(cfg, old(store.db), objects, trace[at].world.db, now, summary.rejectedSafety, report, store.db);
      }
    }
  }

  lemma RejectedStays(db: Tables, objects: seq<Object>, now: Seconds, refreshBefore: Seconds, report: Report,
                      report': Report)
    ensures DryCounted(db, objects, now, refreshBefore, report, report') ==> report'.rejected == report.rejected
  {
  }
}
