/**
 What holds over every history of the reconciliation protocol: any interleaving of runs,
 LAPI failures, crashes, prunes and the acts of others, starting from an empty journal.
 */
module ProtocolLaws {
  import opened Prefixes
  import opened Safety
  import opened Special
  import opened Planner
  import opened Database
  import opened Invariants
  import opened Prune
  import opened Remote
  import opened Protocol

  /** An action and the world it leads to. */
  datatype Step = Step(action: Action, world: World)

  ghost predicate Init(cfg: Config, w: World) {
    w.db.operations == map[] && w.db.alerts == map[] && w.db.decisions == map[] && Catalog(w.db) && w.shown == None &&
    (cfg.honest ==>
       w.server.mine == {} && w.server.expired == {} && ServerOk(cfg.machineId, w.tokens, w.clock, w.server))
  }

  ghost predicate History(cfg: Config, tr: seq<Step>) {
    tr != [] && Init(cfg, tr[0].world) &&
    forall i :: 0 <= i < |tr| - 1 ==> Next(cfg, tr[i].world, tr[i + 1].action, tr[i + 1].world)
  }

  lemma InitInv(cfg: Config, w: World)
    requires Init(cfg, w)
    ensures Inv(cfg, w)
  {
    hide Journal, Catalog, ServerOk;
    EmptyJournal(w.db);
  }

  lemma {:induction false} HistoryInv(cfg: Config, tr: seq<Step>, i: nat)
    requires History(cfg, tr) && i < |tr|
    ensures Inv(cfg, tr[i].world)
  {
    hide Inv, Next, Init;
    if i == 0 {
      InitInv(cfg, tr[0].world);
    } else {
      HistoryInv(cfg, tr, i - 1);
      NextKeepsInv(cfg, tr[i - 1].world, tr[i].action, tr[i].world);
    }
  }

  lemma HistoryExtends(cfg: Config, tr: seq<Step>, a: Action, w: World)
    requires History(cfg, tr) && Next(cfg, tr[|tr| - 1].world, a, w)
    ensures History(cfg, tr + [Step(a, w)])
  {
    hide Next, Init;
    var longer := tr + [Step(a, w)];
    forall i | 0 <= i < |longer| - 1
      ensures Next(cfg, longer[i].world, longer[i + 1].action, longer[i + 1].world)
    {
      assert i < |tr| - 1 ==> longer[i + 1] == tr[i + 1];
    }
  }

  // ----- One owner per object -----

  /** In every reachable world: one active decision and one open operation per object, and unrecorded items wait. */
  lemma OneOwnerPerObject(cfg: Config, tr: seq<Step>, i: nat)
    requires History(cfg, tr) && i < |tr|
    ensures var db := tr[i].world.db;
            (forall p, q, r :: Holds(db, p, q) && Holds(db, p, r) ==> q == r) &&
            (forall s, t, p :: OpenFor(db, s, p) && OpenFor(db, t, p) ==> s == t) &&
            (forall t, it :: StatusFits(db, t) && it in db.operations[t].items ==>
               if it.prior == None then NoActive(db, it.target) else Holds(db, it.target, it.prior.value))
  {
    hide History, Ledger, Owned, RowsOk, OperationsOk, AlertIdsUnique, VerifiedOk, ExpiringOk, CompletedOk;
    HistoryInv(cfg, tr, i);
    var db := tr[i].world.db;
    forall t, it | StatusFits(db, t) && it in db.operations[t].items
      ensures if it.prior == None then NoActive(db, it.target) else Holds(db, it.target, it.prior.value)
    {
      assert ItemWaits(db, it);
    }
  }

  /** No leaked replacement: with no operation open, nothing is left expiring. */
  lemma NoLeakedReplacement(cfg: Config, tr: seq<Step>, i: nat)
    requires History(cfg, tr) && i < |tr|
    ensures var db := tr[i].world.db;
            (forall r :: r in db.decisions && db.decisions[r].status == Expiring ==> exists t :: Retires(db, t, r)) &&
            (forall t :: t in db.operations && db.operations[t].status == Completed ==>
                PriorsRetired(db, db.operations[t].items)) &&
            (Quiescent(db) ==> forall r :: r in db.decisions ==> db.decisions[r].status != Expiring)
  {
    hide History, Ledger, Owned, RowsOk, OperationsOk, AlertIdsUnique, OneActive, OneOpen, UnrecordedOk, VerifiedOk;
    HistoryInv(cfg, tr, i);
    if Quiescent(tr[i].world.db) { QuiescentNothingExpiring(tr[i].world.db); }
  }

  /**
   In every reachable world a recorded decision is for a stored object of its alert, carries that object's own text,
   ends after it was recorded and at most ten minutes past the longest duration, and bans no special-purpose address.
   */
  lemma RecordedRowsSound(cfg: Config, tr: seq<Step>, i: nat, r: int)
    requires History(cfg, tr) && i < |tr| && r in tr[i].world.db.decisions
    ensures var db := tr[i].world.db;
            var d := db.decisions[r];
            r > 0 && d.target in db.objects && d.token in db.alerts && d.scenario == db.alerts[d.token].scenario &&
            d.value == ObjectValue(d.target, d.scope) &&
            d.createdAt < d.expiresAt <= d.createdAt + 7 * 24 * 3600 + 600 &&
            forall a :: Contains(d.target, a) ==> !IsSpecial(a)
  {
    hide History, Ledger, Owned, OperationsOk, AlertIdsUnique, OneActive, OneOpen, UnrecordedOk, VerifiedOk, ExpiringOk,
         CompletedOk, IsSafePrefix, IsSpecial, Contains, FeedsOk;
    HistoryInv(cfg, tr, i);
    var db := tr[i].world.db;
    assert ObjectOk(db, db.decisions[r].target, db.objects[db.decisions[r].target]);
    SafeIffNoSpecial(db.decisions[r].target);
  }

  // ----- Make before break -----

  /**
   The replacement that an expiring row points at: active, for the same object, recorded by the
   operation retiring it.
   */
  lemma ExpiringHasReplacement(db: Tables, r: int) returns (t: Token, n: int)
    requires Journal(db) && r in db.decisions && db.decisions[r].status == Expiring
    ensures Retires(db, t, r) && db.decisions[r].replacedBy == Some(n)
    ensures IsReplacement(db, t, db.decisions[r].target, n) && n != r
  {
    hide RowsOk, AlertIdsUnique, OneActive, OneOpen, UnrecordedOk, CompletedOk;
    t :| Retires(db, t, r);
    var it :| it in db.operations[t].items && it.prior == Some(r);
    assert ItemReplaced(db, t, it);
    assert PriorOk(db, it);
    n := db.decisions[r].replacedBy.value;
  }

  /**
   At every expire request of every history, against any remote: the target is a live row of the
   journal, and either its object is not wanted, or a replacement for the same object has been
   verified and durably recorded and is still active.
   */
  lemma MakeBeforeBreak(cfg: Config, tr: seq<Step>, i: nat)
    requires History(cfg, tr) && i + 1 < |tr| && tr[i + 1].action.SendExpire?
    ensures var id, db := tr[i + 1].action.id, tr[i].world.db;
            id in db.decisions && IsLive(db.decisions[id].status) && db.decisions[id].target in db.objects &&
            (!db.objects[db.decisions[id].target].desired ||
             exists t, n :: Retires(db, t, id) && n != id && IsReplacement(db, t, db.decisions[id].target, n))
  {
    hide Ledger, Owned, OperationsOk, AlertIdsUnique, OneActive, OneOpen, UnrecordedOk, VerifiedOk, ExpiringOk,
         CompletedOk;
    HistoryInv(cfg, tr, i);
    assert Next(cfg, tr[i].world, tr[i + 1].action, tr[i + 1].world);
    var id, db := tr[i + 1].action.id, tr[i].world.db;
    assert ExpireGuard(db, id);
    if db.decisions[id].status == Expiring {
      var t, n := ExpiringHasReplacement(db, id);
    }
  }

  /** A ban on exactly the addresses of `p`. */
  predicate BansPrefix(b: Ban, p: Prefix) {
    b.origin == ORIGIN && b.kind == "ban" &&
    ((b.scope == ScopeText(ScopeIP) && b.value == ObjectValue(p, ScopeIP)) ||
     (b.scope == ScopeText(ScopeRange) && b.value == ObjectValue(p, ScopeRange)))
  }

  /** The server holds a live ban for `p` in an alert of this program. */
  ghost predicate OwnedLiveBan(w: World, p: Prefix) {
    exists a, b :: a in w.server.mine && a in w.server.alerts && b in w.server.alerts[a].bans &&
                   BansPrefix(b, p) && IsLiveBan(b, w.clock)
  }

  /** Some active row of `p` has not been expired by id. */
  ghost predicate Shielded(w: World, p: Prefix) {
    exists n :: Holds(w.db, p, n) && n !in w.server.expired
  }

  /** `p` is wanted, and no active row of it has run out. */
  ghost predicate WantedInTime(w: World, p: Prefix) {
    p in w.db.objects && w.db.objects[p].desired && forall n :: Holds(w.db, p, n) ==>
        w.clock < w.db.decisions[n].expiresAt
  }

  lemma ShieldIsLiveBan(cfg: Config, w: World, p: Prefix)
    requires Inv(cfg, w) && cfg.honest && Shielded(w, p) && WantedInTime(w, p)
    ensures OwnedLiveBan(w, p)
  {
    hide Journal, Catalog, Owned, ServerOk, OneLiveAlert, UnrecordedUntouched, ScenariosAgree, BackedBy;
    var n :| Holds(w.db, p, n) && n !in w.server.expired;
    var b :| BackedBy(w, n, b);
    RowBans(cfg, w, p, n, b);
  }

  /** The ban behind an active row bans the row's object. */
  lemma RowBans(cfg: Config, w: World, p: Prefix, n: int, b: Ban)
    requires Journal(w.db) && Holds(w.db, p, n) && BackedBy(w, n, b)
    ensures BansPrefix(b, p) && (b.until >= w.db.decisions[n].expiresAt || n in w.server.expired)
    ensures exists a :: a in w.server.mine && a in w.server.alerts && b in w.server.alerts[a].bans
  {
    hide OperationsOk, AlertIdsUnique, OneActive, OneOpen, UnrecordedOk, VerifiedOk, ExpiringOk, CompletedOk;
  }

  /** A freshly recorded decision has not been expired by id. */
  lemma RecordedIsUntouched(cfg: Config, w: World, t: Token, v: VerifiedAlert, now: Seconds, db': Tables,
                            d: VerifiedDecision)
    requires Ledger(cfg, w) && Records(w.db, t, v, now, db') && Genuine(w.server, t, v) && d in v.decisions
    ensures d.decisionId !in w.server.expired
  {
    hide ServerOk, RowsBacked, OneLiveAlert, ScenariosAgree, Records;
    RecordShape(w.db, t, v, now, db');
    assert GenuineDecision(w.server, v.alertId, d);
    assert CarriesToken(w.server, v.alertId, t) && StatusFits(w.db, t);
  }

  lemma RecordKeepsShield(cfg: Config, w: World, t: Token, v: VerifiedAlert, now: Seconds, w': World, p: Prefix)
    requires Inv(cfg, w) && cfg.honest && Shielded(w, p) && Next(cfg, w, RecordVerified(t, v, now), w')
    ensures Shielded(w', p)
  {
    hide RowsOk, AlertIdsUnique, OneOpen, VerifiedOk, ExpiringOk, CompletedOk, Ledger, Records, Genuine;
    RecordShape(w.db, t, v, now, w'.db);
    if p in ItemObjects(w.db.operations[t].items) {
      var it :| it in w.db.operations[t].items && it.target == p;
      var d := RecordDecides(w.db, t, v, now, w'.db, it);
      RecordedIsUntouched(cfg, w, t, v, now, w'.db, d);
      assert Holds(w'.db, p, d.decisionId);
    } else {
      var n :| Holds(w.db, p, n) && n !in w.server.expired;
      RecordHolder(w.db, t, v, now, w'.db, p, n);
      assert Holds(w'.db, p, n);
    }
  }

  lemma PlainKeepsShield(cfg: Config, w: World, a: Action, w': World, p: Prefix, n: int)
    requires Next(cfg, w, a, w') && cfg.honest && Holds(w.db, p, n) && n !in w.server.expired
    requires WantedInTime(w, p) && !a.RecordVerified?
    ensures Holds(w'.db, p, n) && n !in w'.server.expired
  {
    hide PlanFits, BeginGuard, Genuine, Busy, Records, Pruned, ServerOk, NoLiveAlert, PriorsRetired;
    match a
    case PruneHistory(cutoff, keep) => PruneHolds(w.db, cutoff, keep, p, n);
    case _ =>
  }

  lemma ShieldStep(cfg: Config, w: World, a: Action, w': World, p: Prefix)
    requires Inv(cfg, w) && cfg.honest && Next(cfg, w, a, w') && Shielded(w, p) && WantedInTime(w, p)
    ensures Shielded(w', p)
  {
    hide Inv, Next, WantedInTime;
    if a.RecordVerified? {
      RecordKeepsShield(cfg, w, a.token, a.alert, a.now, w', p);
    } else {
      var n :| Holds(w.db, p, n) && n !in w.server.expired;
      PlainKeepsShield(cfg, w, a, w', p, n);
    }
  }

  lemma {:induction false} ShieldPersists(cfg: Config, tr: seq<Step>, i: nat, j: nat, p: Prefix)
    requires History(cfg, tr) && cfg.honest && i <= j < |tr| && Shielded(tr[i].world, p)
    requires forall k :: i <= k <= j ==> WantedInTime(tr[k].world, p)
    ensures Shielded(tr[j].world, p)
  {
    hide Inv, Next, Init, Shielded, WantedInTime;
    if i < j {
      ShieldPersists(cfg, tr, i, j - 1, p);
      HistoryInv(cfg, tr, j - 1);
      ShieldStep(cfg, tr[j - 1].world, tr[j].action, tr[j].world, p);
    }
  }

  /**
   No gap: from a world in which `p` is shielded, for as long as `p` stays wanted and its active row
   has not run out, the server holds an owned live ban for it at every step, across every refresh,
   failure and crash.
   */
  lemma NoGap(cfg: Config, tr: seq<Step>, i: nat, j: nat, p: Prefix)
    requires History(cfg, tr) && cfg.honest && i <= j < |tr| && Shielded(tr[i].world, p)
    requires forall k :: i <= k <= j ==> WantedInTime(tr[k].world, p)
    ensures OwnedLiveBan(tr[j].world, p)
  {
    hide History, Inv, Shielded, WantedInTime;
    ShieldPersists(cfg, tr, i, j, p);
    HistoryInv(cfg, tr, j);
    ShieldIsLiveBan(cfg, tr[j].world, p);
  }

  /** Recording an alert shields every object of its operation. */
  lemma RecordingShields(cfg: Config, tr: seq<Step>, i: nat, p: Prefix)
    requires History(cfg, tr) && cfg.honest && i + 1 < |tr| && tr[i + 1].action.RecordVerified?
    requires tr[i + 1].action.token in tr[i].world.db.operations
    requires p in ItemObjects(tr[i].world.db.operations[tr[i + 1].action.token].items)
    ensures Shielded(tr[i + 1].world, p)
  {
    hide RowsOk, AlertIdsUnique, OneActive, OneOpen, UnrecordedOk, VerifiedOk, ExpiringOk, CompletedOk, Ledger, Records,
         Genuine;
    HistoryInv(cfg, tr, i);
    var w, a, w' := tr[i].world, tr[i + 1].action, tr[i + 1].world;
    assert Next(cfg, w, a, w');
    var it :| it in w.db.operations[a.token].items && it.target == p;
    var d := RecordDecides(w.db, a.token, a.alert, a.now, w'.db, it);
    RecordedIsUntouched(cfg, w, a.token, a.alert, a.now, w'.db, d);
    assert Holds(w'.db, p, d.decisionId);
  }

  // ----- When an active row has no live ban -----

  /** A removal of row `n` took effect on the server, at a time its object was not wanted. */
  ghost predicate Removed(tr: seq<Step>, k: int, n: int, p: Prefix) {
    0 <= k < |tr| - 1 && tr[k + 1].action == SendExpire(n) && n in tr[k + 1].world.server.expired &&
    Holds(tr[k].world.db, p, n) && p in tr[k].world.db.objects && !tr[k].world.db.objects[p].desired
  }

  lemma ActiveBefore(cfg: Config, w: World, a: Action, w': World, p: Prefix, n: int)
    requires Inv(cfg, w) && cfg.honest && Next(cfg, w, a, w') && Holds(w'.db, p, n) && n in w.server.expired
    ensures Holds(w.db, p, n)
  {
    hide RowsOk, AlertIdsUnique, OneActive, OneOpen, UnrecordedOk, VerifiedOk, ExpiringOk, CompletedOk, Ledger, Records,
         Genuine;
    hide ServerStep, PlanFits, BeginGuard, Closes, Busy, Pruned;
    match a
    case RecordVerified(t, v, now) =>
      if n in w.db.decisions {
        RecordKeepsRow(w.db, t, v, now, w'.db, n);
      } else {
        var d := RecordNewRow(w.db, t, v, now, w'.db, n);
        RecordedIsUntouched(cfg, w, t, v, now, w'.db, d);
      }
    case PruneHistory(cutoff, keep) => PruneHolds(w.db, cutoff, keep, p, n);
    case CompleteOperation(t, now) => CloseStep(w.db, t, Completed, now);
    case SetStatus(t, status, now) => CloseStep(w.db, t, status, now);
    case _ =>
  }

  lemma OnlyExpireEnds(cfg: Config, w: World, a: Action, w': World, n: int)
    requires Next(cfg, w, a, w') && cfg.honest
    ensures w.server.expired <= w'.server.expired
    ensures n in w'.server.expired && n !in w.server.expired ==>
            a == SendExpire(n) && w'.db == w.db && ExpireGuard(w.db, n)
  {
    hide PlanFits, PlanApplied, BeginGuard, Closes, Genuine, GiveUpGuard, Records, Pruned, ServerOk, NoLiveAlert,
         ExpireGuard;
  }

  lemma {:induction false} EndedOnlyByRemoval(cfg: Config, tr: seq<Step>, j: nat, p: Prefix, n: int) returns (k: nat)
    requires History(cfg, tr) && cfg.honest && j < |tr|
    requires Holds(tr[j].world.db, p, n) && n in tr[j].world.server.expired
    ensures k < j && Removed(tr, k, n, p)
  {
    hide Inv, Next, ServerOk;
    var w, w' := tr[if j == 0 then 0 else j - 1].world, tr[j].world;
    assert j != 0;
    HistoryInv(cfg, tr, j - 1);
    assert Next(cfg, w, tr[j].action, w');
    OnlyExpireEnds(cfg, w, tr[j].action, w', n);
    if n in w.server.expired {
      ActiveBefore(cfg, w, tr[j].action, w', p, n);
      k := EndedOnlyByRemoval(cfg, tr, j - 1, p, n);
    } else {
      k := j - 1;
    }
  }

  lemma {:induction false} EndedStays(cfg: Config, tr: seq<Step>, i: nat, j: nat, n: int)
    requires History(cfg, tr) && cfg.honest && i <= j < |tr| && n in tr[i].world.server.expired
    ensures n in tr[j].world.server.expired
  {
    hide Next, Init;
    if i < j {
      EndedStays(cfg, tr, i, j - 1, n);
      OnlyExpireEnds(cfg, tr[j - 1].world, tr[j].action, tr[j].world, n);
    }
  }

  lemma BanEnded(cfg: Config, w: World, n: int, b: Ban)
    requires Ledger(cfg, w) && BackedBy(w, n, b)
    ensures n in w.server.expired ==> !IsLiveBan(b, w.clock)
    ensures n !in w.server.expired && w.clock < w.db.decisions[n].expiresAt ==> IsLiveBan(b, w.clock)
  {
    hide BanIdsUnique, MineOk, Foreign, RowsBacked, OneLiveAlert, UnrecordedUntouched, ScenariosAgree;
  }

  /**
   The exact condition under which an active row that has not run out lacks its ban: a removal of
   that very row took effect earlier, while its object was not wanted, and the row was never marked.
   */
  lemma ActiveRowLiveIff(cfg: Config, tr: seq<Step>, j: nat, p: Prefix, n: int)
    requires History(cfg, tr) && cfg.honest && j < |tr|
    requires Holds(tr[j].world.db, p, n) && tr[j].world.clock < tr[j].world.db.decisions[n].expiresAt
    ensures (exists b :: BackedBy(tr[j].world, n, b) && IsLiveBan(b, tr[j].world.clock))
            <==> !exists k :: k < j && Removed(tr, k, n, p)
  {
    hide History, Journal, Owned, BackedBy, ServerOk, UnrecordedUntouched, ScenariosAgree, OneLiveAlert;
    var w := tr[j].world;
    HistoryInv(cfg, tr, j);
    var b :| BackedBy(w, n, b);
    BanEnded(cfg, w, n, b);
    if n in w.server.expired {
      var k := EndedOnlyByRemoval(cfg, tr, j, p, n);
      forall c | BackedBy(w, n, c) ensures !IsLiveBan(c, w.clock) { BanEnded(cfg, w, n, c); }
    } else {
      forall k | k < j && Removed(tr, k, n, p)
        ensures false
      {
        EndedStays(cfg, tr, k + 1, j, n);
      }
    }
  }

  // ----- Ownership -----

  /**
   Every row comes from an alert made by this program's own create call, bearing its machine id and
   the operation's token.
   */
  lemma OnlyOwnDecisionsRecorded(cfg: Config, tr: seq<Step>, i: nat, r: int)
    requires History(cfg, tr) && cfg.honest && i < |tr| && r in tr[i].world.db.decisions
    ensures var w := tr[i].world;
            var t := w.db.decisions[r].token;
            t in w.db.alerts && w.db.alerts[t].machineId == cfg.machineId &&
            CarriesToken(w.server, w.db.alerts[t].alertId, t) &&
            w.server.alerts[w.db.alerts[t].alertId].machineId == cfg.machineId
  {
    hide History, Journal, BanIdsUnique, Foreign, UnrecordedUntouched, ScenariosAgree, OneLiveAlert;
    HistoryInv(cfg, tr, i);
    var b :| BackedBy(tr[i].world, r, b);
  }

  // ----- Every expire follows a read -----

  /** Neither a read, nor an expire request, nor a new process, lies between. */
  ghost predicate Undisturbed(tr: seq<Step>, j: int, i: int)
    requires 0 <= j <= i < |tr|
  {
    forall k :: j < k <= i ==> !tr[k].action.ReadAlert? && !tr[k].action.SendExpire? && !tr[k].action.Restart?
  }

  lemma {:induction false} LastRead(cfg: Config, tr: seq<Step>, i: nat) returns (j: nat)
    requires History(cfg, tr) && i < |tr| && tr[i].world.shown.Some?
    ensures 0 < j <= i && tr[j].action.ReadAlert? && tr[j].action.reply == tr[i].world.shown && Undisturbed(tr, j, i)
    ensures Next(cfg, tr[j - 1].world, tr[j].action, tr[j].world)
  {
    hide DbStep, ServerStep, Catalog, ServerOk;
    assert i > 0;
    assert Next(cfg, tr[i - 1].world, tr[i].action, tr[i].world);
    if tr[i].action.ReadAlert? {
      j := i;
    } else {
      j := LastRead(cfg, tr, i - 1);
    }
  }

  lemma AlertCounterGrows(cfg: Config, w: World, a: Action, w': World, id: int)
    requires cfg.honest && Next(cfg, w, a, w') && !a.SendExpire? && id in w'.server.mine && id < w.server.nextAlert
    requires w.server.mine <= w.server.alerts.Keys
    ensures w.server.nextAlert <= w'.server.nextAlert && id in w.server.mine
    ensures id in w'.server.alerts && w'.server.alerts[id] == w.server.alerts[id]
  {
    hide DbStep, NoLiveAlert, ServerOk, StatusFits;
  }

  lemma CounterNeverFalls(cfg: Config, w: World, a: Action, w': World)
    requires cfg.honest && Next(cfg, w, a, w')
    ensures w.server.nextAlert <= w'.server.nextAlert
  {
    hide DbStep, NoLiveAlert, ServerOk, StatusFits, ExpireGuard, StillShows, Knows;
  }

  lemma {:induction false} CounterGrows(cfg: Config, tr: seq<Step>, j: nat, i: nat)
    requires History(cfg, tr) && cfg.honest && j <= i < |tr|
    ensures tr[j].world.server.nextAlert <= tr[i].world.server.nextAlert
  {
    hide Next, Init;
    if j < i {
      CounterGrows(cfg, tr, j, i - 1);
      CounterNeverFalls(cfg, tr[i - 1].world, tr[i].action, tr[i].world);
    }
  }

  /** An alert of this program does not change as long as nothing is expired. */
  lemma {:induction false} OwnAlertStays(cfg: Config, tr: seq<Step>, j: nat, i: nat, id: int)
    requires History(cfg, tr) && cfg.honest && j <= i < |tr| && forall k :: j < k <= i ==> !tr[k].action.SendExpire?
    requires id < tr[j].world.server.nextAlert && id in tr[i].world.server.mine
    ensures id in tr[j].world.server.mine && id in tr[j].world.server.alerts && id in tr[i].world.server.alerts
    ensures tr[i].world.server.alerts[id] == tr[j].world.server.alerts[id]
  {
    hide Next, Init, Inv, Ledger;
    HistoryInv(cfg, tr, if i > j then i - 1 else i);
    LedgerHere(cfg, tr[if i > j then i - 1 else i].world);
    MineKnown(cfg, tr[if i > j then i - 1 else i].world);
    if j < i {
      CounterGrows(cfg, tr, j, i - 1);
      AlertCounterGrows(cfg, tr[i - 1].world, tr[i].action, tr[i].world, id);
      OwnAlertStays(cfg, tr, j, i - 1, id);
    }
  }

  lemma RowHome(cfg: Config, w: World, n: int)
    requires Inv(cfg, w) && cfg.honest && n in w.db.decisions
    ensures w.db.decisions[n].token in w.db.alerts && w.db.alerts[w.db.decisions[n].token].alertId in w.server.mine
  {
    hide Journal, Catalog, Owned, ServerOk, OneLiveAlert, UnrecordedUntouched, ScenariosAgree;
    var b :| BackedBy(w, n, b);
  }

  /**
   At every expire request of every history, against any remote: the same process has read the alert the row was
   recorded from, nothing was read, expired or restarted since, and the reply showed the row once, unchanged and
   under this machine's name. Against an honest remote the reply was the server's own view, and still is.
   */
  lemma ExpireFollowsRead(cfg: Config, tr: seq<Step>, i: nat) returns (j: nat)
    requires History(cfg, tr) && i + 1 < |tr| && tr[i + 1].action.SendExpire?
    ensures 0 < j <= i && tr[j].action.ReadAlert? && tr[j].action.reply.Some? && Undisturbed(tr, j, i)
    ensures StillShows(cfg, tr[i].world.db, tr[i + 1].action.id, tr[j].action.reply.value)
    ensures var (db, id, remote) := (tr[i].world.db, tr[i + 1].action.id, tr[j].action.reply.value);
            id in db.decisions && db.decisions[id].token in db.alerts &&
            remote.id == db.alerts[db.decisions[id].token].alertId && remote.machineId == cfg.machineId &&
            remote.scenario == db.decisions[id].scenario &&
            exists k :: 0 <= k < |remote.decisions| && IsRowBan(id, db.decisions[id], remote.decisions[k]) &&
                        forall m :: 0 <= m < |remote.decisions| && remote.decisions[m].id == id ==> m == k
    ensures cfg.honest ==>
              var a := tr[j].action.alertId;
              a in tr[j].world.server.alerts && tr[j].action.reply.value == View(a, tr[j].world.server.alerts[a]) &&
              a in tr[i].world.server.alerts && tr[i].world.server.alerts[a] == tr[j].world.server.alerts[a]
  {
    hide Inv, Init, DbStep, ServerStep, StillShows, View, Ledger, IsRowBan;
    var n := tr[i + 1].action.id;
    assert Next(cfg, tr[i].world, tr[i + 1].action, tr[i + 1].world);
    ExpireWasShown(cfg, tr[i].world, n, tr[i + 1].world);
    j := LastRead(cfg, tr, i);
    ReadIsView(cfg, tr[j - 1].world, tr[j].action, tr[j].world);
    ShownIsHome(cfg, tr[i].world.db, n, tr[j].action.reply.value);
    ShownIsRow(cfg, tr[i].world.db, n, tr[j].action.reply.value);
    if cfg.honest {
      HistoryInv(cfg, tr, i);
      HistoryInv(cfg, tr, j);
      RowHome(cfg, tr[i].world, n);
      LedgerHere(cfg, tr[j].world);
      KnownIsOld(cfg, tr[j].world, tr[j].action.alertId);
      OwnAlertStays(cfg, tr, j, i, tr[j].action.alertId);
    }
  }

  /** A ban of this program with the row's id, scenario, scope and value. */
  predicate IsRowBan(id: int, row: DecisionRow, x: WireDecision) {
    x.id == id && x.origin == "crowdshield" && x.kind == "ban" && x.scenario == row.scenario &&
    x.scope == (if row.scope == ScopeIP then "Ip" else "Range") && x.value == row.value
  }

  lemma ShownIsRow(cfg: Config, db: Tables, id: int, remote: WireAlert)
    requires StillShows(cfg, db, id, remote)
    ensures id in db.decisions && db.decisions[id].token in db.alerts
    ensures remote.id == db.alerts[db.decisions[id].token].alertId && remote.machineId == cfg.machineId
    ensures remote.scenario == db.decisions[id].scenario
    ensures exists k :: 0 <= k < |remote.decisions| && IsRowBan(id, db.decisions[id], remote.decisions[k]) &&
                        forall m :: 0 <= m < |remote.decisions| && remote.decisions[m].id == id ==> m == k
  {
    var k :| 0 <= k < |remote.decisions| && ShowsRow(id, db.decisions[id], remote.decisions[k]) &&
      forall m :: 0 <= m < |remote.decisions| && remote.decisions[m].id == id ==> m == k;
    assert IsRowBan(id, db.decisions[id], remote.decisions[k]);
  }

  lemma ExpireWasShown(cfg: Config, w: World, n: int, w': World)
    requires Next(cfg, w, SendExpire(n), w')
    ensures w.shown.Some? && StillShows(cfg, w.db, n, w.shown.value)
  {
    hide DbStep, ExpireGuard, Knows, StillShows;
  }

  lemma ReadIsView(cfg: Config, w: World, a: Action, w': World)
    requires Next(cfg, w, a, w') && a.ReadAlert?
    ensures w'.server == w.server && (a.reply.Some? ==> a.reply.value.id == a.alertId)
    ensures cfg.honest && a.reply.Some? ==>
            a.alertId in w.server.alerts && a.reply.value == View(a.alertId, w.server.alerts[a.alertId])
  {
    hide DbStep, View;
  }

  lemma ShownIsHome(cfg: Config, db: Tables, n: int, remote: WireAlert)
    requires StillShows(cfg, db, n, remote)
    ensures n in db.decisions && db.decisions[n].token in db.alerts &&
            remote.id == db.alerts[db.decisions[n].token].alertId
  {
  }

  lemma KnownIsOld(cfg: Config, w: World, id: int)
    requires ServerOk(cfg.machineId, w.tokens, w.clock, w.server) && id in w.server.alerts
    ensures id < w.server.nextAlert
  {
    hide BanIdsUnique, MineOk, Foreign;
  }

  lemma EndLeavesOthers(cfg: Config, w: World, id: int, a: int)
    requires Ledger(cfg, w) && id in w.db.decisions && a in w.server.alerts && a !in w.server.mine
    ensures Ended(w.server, w.clock, id).alerts[a] == w.server.alerts[a]
  {
    hide MineOk, Foreign, BanIdsUnique, RowsBacked, UnrecordedUntouched, ScenariosAgree, OneLiveAlert;
    forall b | b in w.server.alerts[a].bans
      ensures b.id != id
    {
      if b.id == id { RowAlert(cfg, w, id, a, b); }
    }
    assert EndIn(w.server.alerts[a], id, w.clock).bans == w.server.alerts[a].bans;
  }

  /** Whatever this program does, with any foreign alerts present, every foreign alert stays as it is. */
  lemma ForeignAlertsUntouched(cfg: Config, tr: seq<Step>, i: nat, a: int)
    requires History(cfg, tr) && cfg.honest && i + 1 < |tr| && !tr[i + 1].action.Interference?
    requires a in tr[i].world.server.alerts && a !in tr[i].world.server.mine
    ensures a in tr[i + 1].world.server.alerts && a !in tr[i + 1].world.server.mine
    ensures tr[i + 1].world.server.alerts[a] == tr[i].world.server.alerts[a]
  {
    hide Inv, DbStep, Ledger, NoLiveAlert, Knows;
    HistoryInv(cfg, tr, i);
    var w, act, w' := tr[i].world, tr[i + 1].action, tr[i + 1].world;
    assert Next(cfg, w, act, w');
    LedgerHere(cfg, w);
    AlertIdFresh(cfg, w);
    if act.SendExpire? && w'.server != w.server {
      EndLeavesOthers(cfg, w, act.id, a);
    }
  }

  lemma LedgerHere(cfg: Config, w: World)
    requires Inv(cfg, w) && cfg.honest
    ensures Ledger(cfg, w) && ServerOk(cfg.machineId, w.tokens, w.clock, w.server)
  {
    hide Journal, Owned;
  }

  // ----- At most one live alert per token -----

  lemma AtMostOneLiveAlertPerToken(cfg: Config, tr: seq<Step>, i: nat, a: int, b: int, t: Token)
    requires History(cfg, tr) && cfg.honest && i < |tr|
    requires LiveFor(tr[i].world.server, tr[i].world.clock, a, t) &&
             LiveFor(tr[i].world.server, tr[i].world.clock, b, t)
    ensures a == b
  {
    hide History, Journal, Owned, ServerOk, RowsBacked, UnrecordedUntouched, ScenariosAgree;
    HistoryInv(cfg, tr, i);
  }

  // ----- No ban is forgotten -----

  /**
   In every world of every history against an honest remote, whatever replies were lost and wherever the process was cut
   off: a ban of this program that is in force either has a live row recorded from its very alert, or its alert carries
   the token of an open operation that is still to be recorded.
   */
  lemma NoOrphanBan(cfg: Config, tr: seq<Step>, i: nat, a: int, b: Ban)
    requires History(cfg, tr) && cfg.honest && i < |tr| && LiveBanIn(tr[i].world.server, tr[i].world.clock, a, b)
    ensures exists t :: CarriesToken(tr[i].world.server, a, t) &&
                        (StatusFits(tr[i].world.db, t) || RowFor(tr[i].world.db, t, a, b.id))
  {
    hide History, Journal, Catalog, Owned, Ledger;
    HistoryInv(cfg, tr, i);
  }

  /** Every ban of this program that is in force is that of an active row. */
  ghost predicate BansHeld(w: World) {
    forall a, b :: LiveBanIn(w.server, w.clock, a, b) ==>
      b.id in w.db.decisions && Holds(w.db, w.db.decisions[b.id].target, b.id) && BackedBy(w, b.id, b)
  }

  /** With nothing open, nothing but active rows is in force. */
  lemma QuietBansHeld(cfg: Config, w: World)
    requires Inv(cfg, w) && cfg.honest && Quiescent(w.db)
    ensures BansHeld(w)
  {
    hide Catalog, Owned, Journal, OneLiveAlert, UnrecordedUntouched, ScenariosAgree, MineOk, Foreign, BackedBy;
    QuiescentNothingExpiring(w.db);
    forall a, b | LiveBanIn(w.server, w.clock, a, b)
      ensures b.id in w.db.decisions && Holds(w.db, w.db.decisions[b.id].target, b.id) && BackedBy(w, b.id, b)
    {
      var t :| CarriesToken(w.server, a, t) && (StatusFits(w.db, t) || RowFor(w.db, t, a, b.id));
      assert RowFor(w.db, t, a, b.id);
      RowAlert(cfg, w, b.id, a, b);
    }
  }

  /** The bans that carry the token of an operation no longer to be recorded all have live rows. */
  ghost predicate TokenSettled(w: World, t: Token) {
    forall a, b :: LiveBanIn(w.server, w.clock, a, b) && CarriesToken(w.server, a, t) ==> RowFor(w.db, t, a, b.id)
  }

  lemma ClosedIsSettled(cfg: Config, w: World, t: Token)
    requires Inv(cfg, w) && cfg.honest && !StatusFits(w.db, t)
    ensures TokenSettled(w, t)
  {
    hide Catalog, Owned, Journal, Ledger;
    forall a, b | LiveBanIn(w.server, w.clock, a, b) && CarriesToken(w.server, a, t)
      ensures RowFor(w.db, t, a, b.id)
    {
      var s :| CarriesToken(w.server, a, s) && (StatusFits(w.db, s) || RowFor(w.db, s, a, b.id));
      TokenHashInjective(s, t);
    }
  }

  lemma RowIsRecorded(cfg: Config, w: World, id: int)
    requires Inv(cfg, w) && id in w.db.decisions
    ensures !StatusFits(w.db, w.db.decisions[id].token)
  {
    hide Catalog, Owned, Ledger, NoOrphans, OperationsOk, AlertIdsUnique, OneActive, OneOpen, VerifiedOk, ExpiringOk,
         CompletedOk;
  }

  /** A ban whose row is no longer live is no longer in force. */
  lemma RetiredIsLifted(cfg: Config, w: World, id: int)
    requires Inv(cfg, w) && cfg.honest && id in w.db.decisions && !IsLive(w.db.decisions[id].status)
    ensures NotLive(w.server, w.clock, id)
  {
    hide Catalog, Owned, Journal, OneLiveAlert, UnrecordedUntouched, ScenariosAgree, MineOk, Foreign, NoOrphans;
    RowIsRecorded(cfg, w, id);
    ClosedIsSettled(cfg, w, w.db.decisions[id].token);
    forall a, b | a in w.server.alerts && b in w.server.alerts[a].bans && b.id == id
      ensures !IsLiveBan(b, w.clock)
    {
      RowAlert(cfg, w, id, a, b);
    }
  }

  /** A row that has run out has no ban in force. */
  lemma RunOutIsNotLive(cfg: Config, w: World, id: int)
    requires Inv(cfg, w) && cfg.honest && id in w.db.decisions && w.db.decisions[id].expiresAt <= w.clock
    ensures NotLive(w.server, w.clock, id)
  {
    hide Catalog, Owned, Journal, OneLiveAlert, UnrecordedUntouched, ScenariosAgree, MineOk, Foreign, NoOrphans;
    forall a, b | a in w.server.alerts && b in w.server.alerts[a].bans && b.id == id
      ensures !IsLiveBan(b, w.clock)
    {
      RowAlert(cfg, w, id, a, b);
    }
  }

  /** A ban shown as ended has ended. */
  lemma ShownEnded(cfg: Config, w: World, id: int, a: int, i: nat)
    requires Inv(cfg, w) && cfg.honest && a in w.server.alerts && i < |w.server.alerts[a].bans|
    requires w.server.alerts[a].bans[i].id == id && w.server.alerts[a].bans[i].until <= w.clock
    ensures NotLive(w.server, w.clock, id)
  {
    hide Catalog, Owned, Journal, RowsBacked, OneLiveAlert, UnrecordedUntouched, ScenariosAgree, MineOk, Foreign,
         NoOrphans;
    forall c, b | c in w.server.alerts && b in w.server.alerts[c].bans && b.id == id
      ensures !IsLiveBan(b, w.clock)
    {
      var j :| 0 <= j < |w.server.alerts[c].bans| && w.server.alerts[c].bans[j] == b;
      assert HasBan(w.server.alerts, a, i) && HasBan(w.server.alerts, c, j) && SameId(w.server.alerts, a, i, c, j);
    }
  }

  /** An expire request that was answered has ended the ban, or there was none. */
  lemma EndedIsNotLive(s: Server, s': Server, clock: Seconds, id: int)
    requires s' == Ended(s, clock, id) || (s' == s && !Knows(s, id))
    ensures NotLive(s', clock, id)
  {
    forall a, b | a in s'.alerts && b in s'.alerts[a].bans && b.id == id
      ensures !IsLiveBan(b, clock)
    {
      if s' == Ended(s, clock, id) {
        var was := EndedBan(s, clock, id, a, b);
      }
    }
  }

  /** In every world of every history against an honest remote, every row that was retired has its ban lifted. */
  lemma RetiredRowIsLifted(cfg: Config, tr: seq<Step>, i: nat, id: int)
    requires History(cfg, tr) && cfg.honest && i < |tr| && id in tr[i].world.db.decisions
    requires !IsLive(tr[i].world.db.decisions[id].status)
    ensures NotLive(tr[i].world.server, tr[i].world.clock, id)
  {
    hide History, Inv, NotLive;
    HistoryInv(cfg, tr, i);
    RetiredIsLifted(cfg, tr[i].world, id);
  }
}
