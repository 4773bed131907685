/**
 The reconciliation protocol as a state machine over the store, the remote and the clock.
 An action is one atomic store transaction or one LAPI call, whatever its outcome. There is
 no program counter: a crash leaves the world as it is, and any later action that a restarted
 run takes is again one of these. `Reconciler` shows that internal/reconcile/reconcile.go
 takes no other step.
 */
module Protocol {
  import opened Prefixes
  import opened Safety
  import opened Planner
  import opened Database
  import opened Invariants
  import opened Prune
  import opened Remote

  /** `honest` selects the mock's behaviour for the remote; otherwise its state and replies are arbitrary. */
  datatype Config = Config(machineId: string, duration: Seconds, refreshBefore: Seconds, batchSize: nat, honest: bool)

  /** The LAPI requests that can change the remote. */
  datatype Write = CreateWrite(token: Token) | ExpireWrite(id: int)

  /**
   `tokens` are the operation tokens drawn so far and `writes` the requests sent so far. `shown` is what
   the present process was last shown of an alert, until it acts on it.
   */
  datatype World = World(
    db: Tables, server: Server, clock: Seconds, tokens: set<Token>, writes: seq<Write>, shown: Option<WireAlert>)

  datatype Action =
    | Interference
    | FeedWork
    | ApplyPlan(objects: seq<Object>, now: Seconds)
    | BeginOperation(operation: Operation)
    | SendCreate(token: Token, duration: Seconds, inputs: seq<DecisionInput>)
    | RecordVerified(token: Token, alert: VerifiedAlert, now: Seconds)
    | ReadAlert(alertId: int, reply: Option<WireAlert>)
    | SendExpire(id: int)
    | MarkExpired(id: int, now: Seconds)
    | CompleteOperation(token: Token, now: Seconds)
    | SetStatus(token: Token, status: OperationStatus, now: Seconds)
    | PruneHistory(cutoff: Seconds, keep: nat)
    | Restart

  predicate ValidConfig(cfg: Config) {
    cfg.machineId != "" && MINUTE <= cfg.duration <= MAX_DURATION &&
    0 < cfg.refreshBefore < cfg.duration && 1 <= cfg.batchSize <= 500
  }

  // ----- Guards the program establishes before it acts -----

  /** No live alert of this program carries the token already. */
  ghost predicate NoLiveAlert(s: Server, clock: Seconds, token: Token) {
    forall a :: !LiveFor(s, clock, a, token)
  }

  predicate Matches(b: Ban, id: int, scope: Scope, value: Text, scenario: string) {
    b.id == id && b.origin == ORIGIN && b.kind == "ban" && b.scope == ScopeText(scope) &&
    b.value == value && b.scenario == scenario
  }

  ghost predicate GenuineDecision(s: Server, alertId: int, d: VerifiedDecision)
    requires alertId in s.alerts
  {
    exists b :: b in s.alerts[alertId].bans && Matches(b, d.decisionId, d.scope, d.value, d.scenario) &&
                b.until == d.expiresAt
  }

  /** What is recorded is on the server: the whole of an alert of this program that carries the token. */
  ghost predicate Genuine(s: Server, token: Token, v: VerifiedAlert) {
    v.alertId in s.mine && v.alertId in s.alerts && s.alerts[v.alertId].scenarioHash == TokenHash(token) &&
    s.alerts[v.alertId].scenario == v.scenario &&
    (forall b :: b in s.alerts[v.alertId].bans ==> b.id in NewIds(v)) &&
    forall d :: d in v.decisions ==> GenuineDecision(s, v.alertId, d)
  }

  /** No other alert of this program with a live ban carries the token. */
  ghost predicate OnlyLive(s: Server, clock: Seconds, token: Token, alertId: int) {
    forall a :: LiveFor(s, clock, a, token) ==> a == alertId
  }

  /** No ban with this id is in force. */
  ghost predicate NotLive(s: Server, clock: Seconds, id: int) {
    forall a, b :: a in s.alerts && b in s.alerts[a].bans && b.id == id ==> !IsLiveBan(b, clock)
  }

  /** A row is expired remotely only once replaced, or when its object is not wanted and nothing is under way for it. */
  ghost predicate ExpireGuard(db: Tables, id: int) {
    MarkFits(db, id) &&
    (db.decisions[id].status == Expiring ||
     (db.decisions[id].target in db.objects && !db.objects[db.decisions[id].target].desired &&
      !Busy(db, db.decisions[id].target)))
  }

  predicate ShowsRow(id: int, d: DecisionRow, x: WireDecision) {
    x.id == id && x.origin == ORIGIN && x.kind == "ban" && x.scenario == d.scenario &&
    x.scope == ScopeText(d.scope) && x.value == d.value
  }

  /** The alert is the one the row was recorded from, under this machine's name, and shows the row once, unchanged. */
  ghost predicate StillShows(cfg: Config, db: Tables, id: int, remote: WireAlert) {
    id in db.decisions && db.decisions[id].token in db.alerts &&
    remote.id == db.alerts[db.decisions[id].token].alertId &&
    remote.machineId == cfg.machineId && remote.scenario == db.decisions[id].scenario &&
    exists i :: 0 <= i < |remote.decisions| && ShowsRow(id, db.decisions[id], remote.decisions[i]) &&
                forall j :: 0 <= j < |remote.decisions| && remote.decisions[j].id == id ==> j == i
  }

  /** An active row is given up only when its object is not wanted or its time is over. */
  ghost predicate GiveUpGuard(db: Tables, id: int, now: Seconds) {
    MarkGuard(db, id) &&
    (db.decisions[id].status == Active ==>
       db.decisions[id].expiresAt <= now ||
       (db.decisions[id].target in db.objects && !db.objects[db.decisions[id].target].desired))
  }

  /** Feeds are added or toggled; a feed id keeps its name. */
  ghost predicate FeedsGrow(db: Tables, db': Tables) {
    db' == db.(feeds := db'.feeds, entries := db'.entries, syncRuns := db'.syncRuns) && FeedsOk(db'.feeds) &&
    forall f :: f in db.feeds ==> f in db'.feeds && db'.feeds[f].name == db.feeds[f].name
  }

  // ----- The step relation -----

  ghost predicate DbStep(cfg: Config, w: World, a: Action, db': Tables) {
    match a
    case FeedWork => FeedsGrow(w.db, db')
    case ApplyPlan(objects, now) => PlanFits(w.db, objects) && PlanApplied(w.db, objects, now, db')
    case BeginOperation(op) => BeginGuard(w.db, op) && op.token !in w.tokens && db' == Begun(w.db, op)
    case RecordVerified(t, v, now) =>
      Records(w.db, t, v, now, db') && v.machineId == cfg.machineId &&
      (cfg.honest ==> Genuine(w.server, t, v) && OnlyLive(w.server, w.clock, t, v.alertId))
    case MarkExpired(id, now) =>
      now <= w.clock && GiveUpGuard(w.db, id, now) && db' == Marked(w.db, id, now) &&
      (cfg.honest ==> NotLive(w.server, w.clock, id))
    case CompleteOperation(t, now) => Closes(w.db, t, Completed) && db' == Complete(w.db, t, now)
    case SetStatus(t, status, now) =>
      status != Completed && Closes(w.db, t, status) && db' == WithStatus(w.db, t, status, now) &&
      (cfg.honest && status == Failed ==> NoLiveAlert(w.server, w.clock, t))
    case PruneHistory(cutoff, keep) => db' == Pruned(w.db, cutoff, keep)
    case _ => db' == w.db
  }

  ghost predicate ServerStep(cfg: Config, w: World, a: Action, s': Server, clock': Seconds) {
    match a
    case Interference =>
      w.clock <= clock' &&
      (cfg.honest ==> Interferes(cfg.machineId, w.tokens, w.server, w.clock, s', clock'))
    case SendCreate(t, duration, inputs) =>
      clock' == w.clock && StatusFits(w.db, t) && duration <= MAX_DURATION && w.db.operations[t].feedId in w.db.feeds &&
      (cfg.honest ==>
         NoLiveAlert(w.server, w.clock, t) &&
         (s' == w.server ||
          s' == Created(cfg.machineId, w.server, w.clock, Scenario(w.db.feeds[w.db.operations[t].feedId].name), t,
              duration, inputs)))
    case SendExpire(id) =>
      clock' == w.clock && ExpireGuard(w.db, id) && w.shown.Some? && StillShows(cfg, w.db, id, w.shown.value) &&
      (cfg.honest ==> s' == w.server || (Knows(w.server, id) && s' == Ended(w.server, w.clock, id)))
    case ReadAlert(alertId, reply) =>
      s' == w.server && clock' == w.clock && (reply.Some? ==> reply.value.id == alertId) &&
      (cfg.honest && reply.Some? ==>
          alertId in w.server.alerts && reply.value == View(alertId, w.server.alerts[alertId]))
    case _ => s' == w.server && clock' == w.clock
  }

  function TokensAfter(w: World, a: Action): set<Token> {
    match a
    case BeginOperation(op) => w.tokens + {op.token}
    case _ => w.tokens
  }

  function WritesAfter(w: World, a: Action): seq<Write> {
    match a
    case SendCreate(t, _, _) => w.writes + [CreateWrite(t)]
    case SendExpire(id) => w.writes + [ExpireWrite(id)]
    case _ => w.writes
  }

  /** A new process has been shown nothing, and what was shown is good for one expire request. */
  function ShownAfter(w: World, a: Action): Option<WireAlert> {
    match a
    case ReadAlert(_, reply) => reply
    case SendExpire(_) => None
    case Restart => None
    case _ => w.shown
  }

  ghost predicate Next(cfg: Config, w: World, a: Action, w': World) {
    DbStep(cfg, w, a, w'.db) && ServerStep(cfg, w, a, w'.server, w'.clock) &&
    w'.tokens == TokensAfter(w, a) && w'.writes == WritesAfter(w, a) && w'.shown == ShownAfter(w, a)
  }

  // ----- The invariant -----

  /** The ban on the server behind the row `r`: it ends when the row says, unless it was expired by id. */
  ghost predicate BackedBy(w: World, r: int, b: Ban) {
    r in w.db.decisions && w.db.decisions[r].token in w.db.alerts &&
    var d := w.db.decisions[r];
    var a := w.db.alerts[d.token].alertId;
    a in w.server.mine && a in w.server.alerts && w.server.alerts[a].scenarioHash == TokenHash(d.token) &&
    w.server.alerts[a].scenario == d.scenario &&
    b in w.server.alerts[a].bans && Matches(b, r, d.scope, d.value, d.scenario) &&
    (b.until == d.expiresAt || r in w.server.expired)
  }

  ghost predicate RowsBacked(w: World) {
    forall r :: r in w.db.decisions ==> exists b :: BackedBy(w, r, b)
  }

  predicate CarriesToken(s: Server, a: int, t: Token) {
    a in s.mine && a in s.alerts && s.alerts[a].scenarioHash == TokenHash(t)
  }

  predicate LiveFor(s: Server, clock: Seconds, a: int, t: Token) {
    CarriesToken(s, a, t) && HasLiveBan(s.alerts[a], clock)
  }

  /** At most one alert of this program per token has a live ban. */
  ghost predicate OneLiveAlert(s: Server, clock: Seconds) {
    forall a, b, t :: LiveFor(s, clock, a, t) && LiveFor(s, clock, b, t) ==> a == b
  }

  /** Nothing expires a ban before the journal has recorded it. */
  ghost predicate UnrecordedUntouched(w: World) {
    forall a, t :: CarriesToken(w.server, a, t) && StatusFits(w.db, t) ==>
      forall b :: b in w.server.alerts[a].bans ==> b.id !in w.server.expired
  }

  ghost predicate ScenariosAgree(w: World) {
    forall a, t :: CarriesToken(w.server, a, t) && t in w.db.operations ==>
      w.db.operations[t].feedId in w.db.feeds &&
      w.server.alerts[a].scenario == Scenario(w.db.feeds[w.db.operations[t].feedId].name)
  }

  /** The row `id`, recorded from the alert `a` of the operation `t`, is live. */
  predicate RowFor(db: Tables, t: Token, a: int, id: int) {
    id in db.decisions && db.decisions[id].token == t && IsLive(db.decisions[id].status) &&
    t in db.alerts && db.alerts[t].alertId == a
  }

  /** The journal answers for a ban: a live row stands for it, or its operation is still to be recorded. */
  ghost predicate Accounted(db: Tables, s: Server, a: int, id: int) {
    exists t :: CarriesToken(s, a, t) && (StatusFits(db, t) || RowFor(db, t, a, id))
  }

  /** An alert of this program holds a ban in force. */
  predicate LiveBanIn(s: Server, clock: Seconds, a: int, b: Ban) {
    a in s.mine && a in s.alerts && b in s.alerts[a].bans && IsLiveBan(b, clock)
  }

  /** No ban of this program that is in force is forgotten. */
  ghost predicate NoOrphans(w: World) {
    forall a, b :: LiveBanIn(w.server, w.clock, a, b) ==> Accounted(w.db, w.server, a, b.id)
  }

  /** What holds against the mock's remote. */
  ghost predicate Ledger(cfg: Config, w: World) {
    ServerOk(cfg.machineId, w.tokens, w.clock, w.server) && RowsBacked(w) && OneLiveAlert(w.server, w.clock) &&
    UnrecordedUntouched(w) && ScenariosAgree(w)
  }

  ghost predicate Owned(cfg: Config, w: World) {
    w.db.operations.Keys <= w.tokens && w.db.alerts.Keys <= w.tokens &&
    forall t :: t in w.db.alerts ==> w.db.alerts[t].machineId == cfg.machineId
  }

  ghost predicate Inv(cfg: Config, w: World) {
    Journal(w.db) && Catalog(w.db) && Owned(cfg, w) && (cfg.honest ==> Ledger(cfg, w) && NoOrphans(w))
  }

  // ----- Preservation: the journal -----

  lemma DbStepKeepsJournal(cfg: Config, w: World, a: Action, db': Tables)
    requires Journal(w.db) && DbStep(cfg, w, a, db')
    ensures Journal(db')
  {
    hide Journal, PlanFits, PlanApplied, BeginGuard, Closes, Pruned, Genuine, MarkGuard, Records;
    match a
    case FeedWork => FeedsKeepJournal(w.db, db');
    case ApplyPlan(objects, now) => PlanKeeps(w.db, objects, now, db');
    case BeginOperation(op) => BeginKeeps(w.db, op);
    case RecordVerified(t, v, now) => RecordKeeps(w.db, t, v, now, db');
    case MarkExpired(id, now) => MarkKeeps(w.db, id, now);
    case CompleteOperation(t, now) => CloseStep(w.db, t, Completed, now); CloseKeeps(w.db, t, Completed, Some(now));
    case SetStatus(t, status, now) =>
      CloseStep(w.db, t, status, now);
      CloseKeeps(w.db, t, status, if status == Failed then Some(now) else None);
    case PruneHistory(cutoff, keep) => PruneKeepsJournal(w.db, cutoff, keep);
    case _ =>
  }

  lemma FeedsKeepJournal(db: Tables, db': Tables)
    requires Journal(db) && FeedsGrow(db, db')
    ensures Journal(db')
  {
    hide Journal;
    forall f | f in db.feeds.Keys ensures f in db'.feeds.Keys {}
    SameJournalKeeps(db, db');
  }

  lemma CloseStep(db: Tables, t: Token, status: OperationStatus, now: Seconds)
    requires Closes(db, t, status)
    ensures t in db.operations
    ensures Complete(db, t, now) == Restatus(db, t, Completed, Some(now))
    ensures WithStatus(db, t, status, now) == Restatus(db, t, status, if status == Failed then Some(now) else None)
  {
  }

  // ----- Preservation: the catalogue -----

  lemma DbStepKeepsCatalog(cfg: Config, w: World, a: Action, db': Tables)
    requires Catalog(w.db) && DbStep(cfg, w, a, db')
    ensures Catalog(db')
  {
    hide PlanFits, PlanApplied, BeginGuard, Closes, Genuine, GiveUpGuard, Records, Pruned, FeedsOk, IsSafePrefix,
         IsValid, IsHost;
    match a
    case FeedWork => FeedsKeepCatalog(w.db, db');
    case ApplyPlan(objects, now) => PlanKeepsCatalog(w.db, objects, now, db');
    case RecordVerified(t, v, now) => RecordShape(w.db, t, v, now, db');
    case CompleteOperation(t, now) => CloseStep(w.db, t, Completed, now);
    case SetStatus(t, status, now) => CloseStep(w.db, t, status, now);
    case MarkExpired(id, now) =>
    case PruneHistory(cutoff, keep) => PruneKeepsObjects(w.db, cutoff, keep);
    case _ =>
  }

  lemma FeedsKeepCatalog(db: Tables, db': Tables)
    requires Catalog(db) && FeedsGrow(db, db')
    ensures Catalog(db')
  {
    hide FeedsOk, IsSafePrefix, IsValid, IsHost;
    forall p | p in db'.objects
      ensures ObjectOk(db', p, db'.objects[p])
    {
      assert ObjectOk(db, p, db.objects[p]);
      if db.objects[p].desired {
        var f := db.objects[p].primary.value;
        assert f in db.feeds;
        assert f in db'.feeds;
      }
    }
  }

  lemma PruneKeepsObjects(db: Tables, cutoff: Seconds, keep: nat)
    ensures var db' := Pruned(db, cutoff, keep);
            db'.feeds == db.feeds && forall p :: p in db'.objects ==> p in db.objects && db'.objects[p] == db.objects[p]
  {
    hide OldRuns, OldOperations, OldDecisions, OldAlerts, OldObjects, OldEntries;
  }

  // ----- Preservation: ownership -----

  lemma DbStepKeepsOwned(cfg: Config, w: World, a: Action, w': World)
    requires Owned(cfg, w) && Next(cfg, w, a, w')
    ensures Owned(cfg, w')
  {
    hide ServerStep, PlanFits, BeginGuard, Closes, Genuine, MarkGuard, Records;
    match a
    case RecordVerified(t, v, now) => RecordShape(w.db, t, v, now, w'.db);
    case CompleteOperation(t, now) => CloseStep(w.db, t, Completed, now);
    case SetStatus(t, status, now) => CloseStep(w.db, t, status, now);
    case _ =>
  }

  // ----- Preservation: the ledger under store transactions -----

  /** The fields of a row that never change once it is recorded. */
  predicate SameCore(d: DecisionRow, d': DecisionRow) {
    d'.token == d.token && d'.scenario == d.scenario && d'.scope == d.scope && d'.value == d.value &&
    d'.expiresAt == d.expiresAt && d'.target == d.target
  }

  /** Rows that stay keep their core and their alert. */
  ghost predicate RowsShrink(db: Tables, db': Tables) {
    (forall r :: r in db'.decisions ==> r in db.decisions && SameCore(db.decisions[r], db'.decisions[r])) &&
    forall t :: t in db.alerts && t in db'.alerts ==> db'.alerts[t] == db.alerts[t]
  }

  /** Operations keep their feed, do not go back to unrecorded, and new ones bear a new token. */
  ghost predicate OperationsAdvance(w: World, db': Tables) {
    (forall f :: f in w.db.feeds ==> f in db'.feeds && db'.feeds[f].name == w.db.feeds[f].name) &&
    forall t :: t in db'.operations ==>
      t !in w.tokens ||
      (t in w.db.operations && db'.operations[t].feedId == w.db.operations[t].feedId &&
       (StatusFits(db', t) ==> StatusFits(w.db, t)))
  }

  lemma MineTokensDrawn(cfg: Config, w: World, a: int, t: Token)
    requires ServerOk(cfg.machineId, w.tokens, w.clock, w.server) && CarriesToken(w.server, a, t)
    ensures t in w.tokens
  {
    hide Foreign, BanIdsUnique;
    var s :| s in w.tokens && w.server.alerts[a].scenarioHash == TokenHash(s);
    TokenHashInjective(s, t);
  }

  lemma TransactionKeepsAgreement(cfg: Config, w: World, w': World)
    requires Ledger(cfg, w) && w'.server == w.server && w'.clock == w.clock && w.tokens <= w'.tokens
    requires OperationsAdvance(w, w'.db)
    ensures UnrecordedUntouched(w') && ScenariosAgree(w')
  {
    hide ServerOk, RowsBacked, HasLiveBan;
    forall a, t | CarriesToken(w'.server, a, t)
      ensures t in w.tokens
    {
      MineTokensDrawn(cfg, w, a, t);
    }
  }

  lemma ServerOkMoreTokens(machineId: string, tokens: set<Token>, tokens': set<Token>, clock: Seconds, s: Server)
    requires ServerOk(machineId, tokens, clock, s) && tokens <= tokens'
    ensures ServerOk(machineId, tokens', clock, s)
  {
    hide Foreign, BanIdsUnique;
    forall a | a in s.mine
      ensures MineOk(machineId, tokens', clock, s.alerts[a])
    {
      var t :| t in tokens && s.alerts[a].scenarioHash == TokenHash(t);
      assert t in tokens';
    }
  }

  lemma TransactionKeepsRows(w: World, w': World)
    requires RowsBacked(w) && w'.server == w.server && RowsShrink(w.db, w'.db) && RowsOk(w'.db)
    ensures RowsBacked(w')
  {
    forall r | r in w'.db.decisions
      ensures exists b :: BackedBy(w', r, b)
    {
      var b :| BackedBy(w, r, b);
      assert BackedBy(w', r, b);
    }
  }

  lemma TransactionKeepsLedger(cfg: Config, w: World, w': World)
    requires Ledger(cfg, w) && w'.server == w.server && w'.clock == w.clock && w.tokens <= w'.tokens
    requires RowsShrink(w.db, w'.db) && OperationsAdvance(w, w'.db) && RowsOk(w'.db)
    ensures Ledger(cfg, w')
  {
    hide ServerOk, RowsBacked, UnrecordedUntouched, ScenariosAgree, RowsShrink, OperationsAdvance, RowsOk;
    TransactionKeepsAgreement(cfg, w, w');
    TransactionKeepsRows(w, w');
    ServerOkMoreTokens(cfg.machineId, w.tokens, w'.tokens, w.clock, w.server);
  }

  lemma PruneShrinks(w: World, cutoff: Seconds, keep: nat)
    ensures RowsShrink(w.db, Pruned(w.db, cutoff, keep)) && OperationsAdvance(w, Pruned(w.db, cutoff, keep))
  {
    hide OldRuns, OldOperations, OldDecisions, OldAlerts, OldObjects, OldEntries;
  }

  lemma PlainTransaction(cfg: Config, w: World, a: Action, w': World)
    requires Next(cfg, w, a, w') && !a.RecordVerified? && w.db.operations.Keys <= w.tokens
    ensures RowsShrink(w.db, w'.db) && OperationsAdvance(w, w'.db)
  {
    hide ServerStep, PlanFits, BeginGuard, Closes, Genuine, Busy, Records, Pruned;
    match a
    case CompleteOperation(t, now) => CloseAdvances(w, t, Completed, now);
    case SetStatus(t, status, now) => CloseAdvances(w, t, status, now);
    case PruneHistory(cutoff, keep) => PruneShrinks(w, cutoff, keep);
    case _ =>
  }

  lemma CloseAdvances(w: World, t: Token, status: OperationStatus, now: Seconds)
    requires Closes(w.db, t, status)
    ensures t in w.db.operations
    ensures status == Completed ==>
            RowsShrink(w.db, Complete(w.db, t, now)) && OperationsAdvance(w, Complete(w.db, t, now))
    ensures status != Completed ==>
            RowsShrink(w.db, WithStatus(w.db, t, status, now)) && OperationsAdvance(w, WithStatus(w.db, t, status, now))
  {
  }

  // ----- Preservation: the ledger when an alert is recorded -----

  lemma RecordKeepsRowsBacked(cfg: Config, w: World, t: Token, v: VerifiedAlert, now: Seconds, w': World)
    requires OperationsOk(w.db) && RowsOk(w.db) && RowsBacked(w) && w'.server == w.server
    requires Records(w.db, t, v, now, w'.db) && Genuine(w.server, t, v)
    ensures RowsBacked(w')
  {
    hide OperationsOk, Records, GenuineDecision;
    RecordShape(w.db, t, v, now, w'.db);
    forall r | r in w'.db.decisions
      ensures exists b :: BackedBy(w', r, b)
    {
      if r in w.db.decisions {
        RecordKeepsRow(w.db, t, v, now, w'.db, r);
        var b :| BackedBy(w, r, b);
        assert BackedBy(w', r, b);
      } else {
        var d := RecordNewRow(w.db, t, v, now, w'.db, r);
        NewRowBacked(w', t, v, d, now, r);
      }
    }
  }

  lemma NewRowBacked(w: World, t: Token, v: VerifiedAlert, d: VerifiedDecision, now: Seconds, r: int)
    requires t in w.db.alerts && w.db.alerts[t].alertId == v.alertId && Genuine(w.server, t, v)
    requires d in v.decisions && d.decisionId == r && d.scenario == v.scenario
    requires r in w.db.decisions && w.db.decisions[r] == NewDecision(t, d, now)
    ensures exists b :: BackedBy(w, r, b)
  {
    assert GenuineDecision(w.server, v.alertId, d);
    var b :| b in w.server.alerts[v.alertId].bans && Matches(b, d.decisionId, d.scope, d.value, d.scenario) &&
        b.until == d.expiresAt;
    assert BackedBy(w, r, b);
  }

  lemma RecordAdvances(w: World, t: Token, v: VerifiedAlert, now: Seconds, db': Tables)
    requires Records(w.db, t, v, now, db')
    ensures OperationsAdvance(w, db')
  {
    hide Records;
    RecordShape(w.db, t, v, now, db');
  }

  lemma RecordKeepsLedger(cfg: Config, w: World, t: Token, v: VerifiedAlert, now: Seconds, w': World)
    requires Journal(w.db) && Ledger(cfg, w) && cfg.honest && Next(cfg, w, RecordVerified(t, v, now), w')
    ensures Ledger(cfg, w')
  {
    hide ServerOk, RowsBacked, UnrecordedUntouched, ScenariosAgree, OperationsAdvance, RowsOk, OperationsOk;
    hide AlertIdsUnique, OneActive, OneOpen, UnrecordedOk, VerifiedOk, ExpiringOk, CompletedOk, Records, Genuine;
    RecordAdvances(w, t, v, now, w'.db);
    TransactionKeepsAgreement(cfg, w, w');
    RecordKeepsRowsBacked(cfg, w, t, v, now, w');
  }

  // ----- Preservation: the ledger when the remote moves -----

  lemma InterferenceKeepsLedger(cfg: Config, w: World, w': World)
    requires Ledger(cfg, w) && w'.db == w.db && w'.tokens == w.tokens
    requires Interferes(cfg.machineId, w.tokens, w.server, w.clock, w'.server, w'.clock)
    ensures Ledger(cfg, w')
  {
    hide ServerOk, Matches;
    InterferenceKeepsRows(w, w', cfg);
    assert forall a, t :: CarriesToken(w'.server, a, t) ==> a in w.server.mine;
    MineKnown(cfg, w);
    assert forall a, t :: CarriesToken(w'.server, a, t) ==> CarriesToken(w.server, a, t);
    forall a, t | LiveFor(w'.server, w'.clock, a, t) ensures LiveFor(w.server, w.clock, a, t) {}
  }

  lemma MineKnown(cfg: Config, w: World)
    requires ServerOk(cfg.machineId, w.tokens, w.clock, w.server)
    ensures w.server.mine <= w.server.alerts.Keys
  {
  }

  lemma InterferenceKeepsRows(w: World, w': World, cfg: Config)
    requires RowsBacked(w) && w'.db == w.db
    requires Interferes(cfg.machineId, w.tokens, w.server, w.clock, w'.server, w'.clock)
    ensures RowsBacked(w')
  {
    hide ServerOk, Matches;
    forall r | r in w'.db.decisions
      ensures exists b :: BackedBy(w', r, b)
    {
      var b :| BackedBy(w, r, b);
      assert BackedBy(w', r, b);
    }
  }

  lemma CreateKeepsLedger(cfg: Config, w: World, t: Token, duration: Seconds, inputs: seq<DecisionInput>, w': World)
    requires Ledger(cfg, w) && w'.db == w.db && w'.tokens == w.tokens && w'.clock == w.clock
    requires t in w.tokens && StatusFits(w.db, t) && duration <= MAX_DURATION && w.db.operations[t].feedId in w.db.feeds
    requires NoLiveAlert(w.server, w.clock, t)
    requires w'.server == Created(cfg.machineId, w.server, w.clock,
             Scenario(w.db.feeds[w.db.operations[t].feedId].name), t, duration, inputs)
    ensures Ledger(cfg, w')
  {
    hide ServerOk, Matches, RowsBacked, UnrecordedUntouched;
    CreateKeepsServer(cfg.machineId, w.tokens, w.server, w.clock,
        Scenario(w.db.feeds[w.db.operations[t].feedId].name), t, duration, inputs);
    AlertIdFresh(cfg, w);
    var newest := w.server.nextAlert;
    forall a, s | CarriesToken(w'.server, a, s)
      ensures if a == newest then s == t else CarriesToken(w.server, a, s)
    {
      if a == newest { TokenHashInjective(s, t); }
    }
    forall a, s | LiveFor(w'.server, w'.clock, a, s)
      ensures a == newest || LiveFor(w.server, w.clock, a, s)
    {
    }
    assert OneLiveAlert(w'.server, w'.clock);
    assert ScenariosAgree(w');
    CreateKeepsUntouched(cfg, w, t, w');
    CreateKeepsRows(cfg, w, w');
  }

  lemma AlertIdFresh(cfg: Config, w: World)
    requires ServerOk(cfg.machineId, w.tokens, w.clock, w.server)
    ensures w.server.nextAlert !in w.server.alerts && w.server.nextAlert !in w.server.mine
    ensures forall id :: id in w.server.expired ==> id < w.server.nextBan
  {
    hide BanIdsUnique, MineOk, Foreign;
  }

  ghost predicate AddsAlert(s: Server, s': Server) {
    s'.expired == s.expired && s'.mine == s.mine + {s.nextAlert} && s.nextAlert in s'.alerts &&
    s'.alerts == s.alerts[s.nextAlert := s'.alerts[s.nextAlert]] &&
    forall b :: b in s'.alerts[s.nextAlert].bans ==> b.id >= s.nextBan
  }

  lemma CreateKeepsUntouched(cfg: Config, w: World, t: Token, w': World)
    requires Ledger(cfg, w) && w'.db == w.db && AddsAlert(w.server, w'.server)
    ensures UnrecordedUntouched(w')
  {
    hide ServerOk, RowsBacked, OneLiveAlert, ScenariosAgree;
    AlertIdFresh(cfg, w);
    forall a, s | CarriesToken(w'.server, a, s) && StatusFits(w'.db, s)
      ensures forall b :: b in w'.server.alerts[a].bans ==> b.id !in w'.server.expired
    {
      assert a != w.server.nextAlert ==> CarriesToken(w.server, a, s);
    }
  }

  lemma CreateKeepsRows(cfg: Config, w: World, w': World)
    requires RowsBacked(w) && w'.db == w.db && AddsAlert(w.server, w'.server) && w.server.nextAlert !in w.server.alerts
    ensures RowsBacked(w')
  {
    hide Matches;
    forall r | r in w'.db.decisions
      ensures exists b :: BackedBy(w', r, b)
    {
      var b :| BackedBy(w, r, b);
      assert BackedBy(w', r, b);
    }
  }

  lemma ExpireKeepsRows(w: World, id: int, w': World)
    requires RowsBacked(w) && w'.db == w.db && w'.server == Ended(w.server, w.clock, id)
    ensures RowsBacked(w')
  {
    forall r | r in w'.db.decisions
      ensures exists b :: BackedBy(w', r, b)
    {
      var b :| BackedBy(w, r, b);
      var alert := w.server.alerts[w.db.alerts[w.db.decisions[r].token].alertId];
      var i :| 0 <= i < |alert.bans| && alert.bans[i] == b;
      var b' := EndBan(b, id, w.clock);
      assert EndIn(alert, id, w.clock).bans[i] == b';
      assert BackedBy(w', r, b');
    }
  }

  /** The ban with a row's id sits in the alert the row was recorded from, and nowhere else. */
  lemma RowAlert(cfg: Config, w: World, r: int, a: int, b: Ban)
    requires BanIdsUnique(w.server.alerts) && RowsBacked(w) && r in w.db.decisions
    requires a in w.server.alerts && b in w.server.alerts[a].bans && b.id == r
    ensures w.db.decisions[r].token in w.db.alerts && a == w.db.alerts[w.db.decisions[r].token].alertId
    ensures CarriesToken(w.server, a, w.db.decisions[r].token) && BackedBy(w, r, b)
  {
    var c :| BackedBy(w, r, c);
    var home := w.db.alerts[w.db.decisions[r].token].alertId;
    var i :| 0 <= i < |w.server.alerts[home].bans| && w.server.alerts[home].bans[i] == c;
    var j :| 0 <= j < |w.server.alerts[a].bans| && w.server.alerts[a].bans[j] == b;
    assert HasBan(w.server.alerts, home, i) && HasBan(w.server.alerts, a, j) && SameId(w.server.alerts, home, i, a, j);
  }

  lemma ExpireKeepsUntouched(cfg: Config, w: World, id: int, w': World)
    requires Journal(w.db) && Ledger(cfg, w) && w'.db == w.db && id in w.db.decisions
    requires w'.server == Ended(w.server, w.clock, id)
    ensures UnrecordedUntouched(w')
  {
    hide RowsBacked, OneLiveAlert, ScenariosAgree, OneActive, OneOpen, VerifiedOk, ExpiringOk, CompletedOk, RowsOk,
         OperationsOk, BanIdsUnique;
    forall a, t, b | CarriesToken(w'.server, a, t) && StatusFits(w'.db, t) && b in w'.server.alerts[a].bans
      ensures b.id !in w'.server.expired
    {
      var was := EndedBan(w.server, w.clock, id, a, b);
      assert CarriesToken(w.server, a, t);
      if was.id == id {
        RowAlert(cfg, w, id, a, was);
        TokenHashInjective(t, w.db.decisions[id].token);
      }
    }
  }

  lemma ExpireKeepsLedger(cfg: Config, w: World, id: int, w': World)
    requires Journal(w.db) && Ledger(cfg, w) && w'.db == w.db && w'.tokens == w.tokens && w'.clock == w.clock
    requires id in w.db.decisions && Knows(w.server, id) && w'.server == Ended(w.server, w.clock, id)
    ensures Ledger(cfg, w')
  {
    hide ServerOk, Journal, RowsBacked, UnrecordedUntouched, Knows;
    EndKeepsServer(cfg.machineId, w.tokens, w.server, w.clock, id);
    ExpireKeepsRows(w, id, w');
    ExpireKeepsUntouched(cfg, w, id, w');
    forall a, t | LiveFor(w'.server, w'.clock, a, t)
      ensures LiveFor(w.server, w.clock, a, t)
    {
      var b :| b in w'.server.alerts[a].bans && IsLiveBan(b, w'.clock);
      var was := EndedBan(w.server, w.clock, id, a, b);
      assert IsLiveBan(was, w.clock);
    }
    forall a, t | CarriesToken(w'.server, a, t)
      ensures CarriesToken(w.server, a, t) && w'.server.alerts[a].scenario == w.server.alerts[a].scenario
    {
    }
  }

  // ----- Preservation: no ban is forgotten -----

  /** Live rows stay live with their alert, and unrecorded operations stay unrecorded. */
  ghost predicate KeepsAccounts(db: Tables, db': Tables) {
    (forall t :: StatusFits(db, t) ==> StatusFits(db', t)) &&
    forall t, a, id :: RowFor(db, t, a, id) ==> RowFor(db', t, a, id)
  }

  lemma AccountsKept(w: World, w': World)
    requires NoOrphans(w) && KeepsAccounts(w.db, w'.db) && w'.server == w.server && w'.clock == w.clock
    ensures NoOrphans(w')
  {
    hide RowFor, StatusFits;
    forall a, b | LiveBanIn(w'.server, w'.clock, a, b)
      ensures Accounted(w'.db, w'.server, a, b.id)
    {
      assert LiveBanIn(w.server, w.clock, a, b);
      var t :| CarriesToken(w.server, a, t) && (StatusFits(w.db, t) || RowFor(w.db, t, a, b.id));
      assert CarriesToken(w'.server, a, t) && (StatusFits(w'.db, t) || RowFor(w'.db, t, a, b.id));
    }
  }

  lemma PruneKeepsAccounts(db: Tables, cutoff: Seconds, keep: nat)
    requires RowsOk(db)
    ensures KeepsAccounts(db, Pruned(db, cutoff, keep))
  {
    hide OldRuns, OldObjects, OldEntries, Named, RowsOk;
    forall t, a, id | RowFor(db, t, a, id)
      ensures RowFor(Pruned(db, cutoff, keep), t, a, id)
    {
      assert AlertUsed(db, OldDecisions(db, cutoff), t);
    }
  }

  /** Transactions that neither record, nor mark, nor give up an operation. */
  lemma PlainKeepsAccounts(cfg: Config, w: World, a: Action, w': World)
    requires Next(cfg, w, a, w') && RowsOk(w.db) && !a.RecordVerified? && !a.MarkExpired?
    requires !(a.SetStatus? && a.status == Failed)
    ensures KeepsAccounts(w.db, w'.db)
  {
    hide ServerStep, PlanFits, BeginGuard, Genuine, Busy, Records, Pruned, PriorsRetired, NoLiveAlert, RowsOk;
    match a
    case PruneHistory(cutoff, keep) => PruneKeepsAccounts(w.db, cutoff, keep);
    case BeginOperation(op) => BeginIsNew(w.db, op);
    case _ =>
  }

  lemma BeginIsNew(db: Tables, op: Operation)
    requires BeginGuard(db, op)
    ensures op.token !in db.operations
  {
  }

  lemma MarkKeepsAccounts(w: World, id: int, now: Seconds, w': World)
    requires NoOrphans(w) && id in w.db.decisions && NotLive(w.server, w.clock, id)
    requires w'.db == Marked(w.db, id, now) && w'.server == w.server && w'.clock == w.clock
    ensures NoOrphans(w')
  {
    forall a, b | LiveBanIn(w'.server, w'.clock, a, b)
      ensures Accounted(w'.db, w'.server, a, b.id)
    {
      assert LiveBanIn(w.server, w.clock, a, b) && b.id != id;
      var t :| CarriesToken(w.server, a, t) && (StatusFits(w.db, t) || RowFor(w.db, t, a, b.id));
      assert StatusFits(w'.db, t) || RowFor(w'.db, t, a, b.id);
    }
  }

  lemma FailKeepsAccounts(w: World, t: Token, now: Seconds, w': World)
    requires NoOrphans(w) && Closes(w.db, t, Failed) && NoLiveAlert(w.server, w.clock, t)
    requires w'.db == WithStatus(w.db, t, Failed, now) && w'.server == w.server && w'.clock == w.clock
    ensures NoOrphans(w')
  {
    forall a, b | LiveBanIn(w'.server, w'.clock, a, b)
      ensures Accounted(w'.db, w'.server, a, b.id)
    {
      assert LiveBanIn(w.server, w.clock, a, b);
      var s :| CarriesToken(w.server, a, s) && (StatusFits(w.db, s) || RowFor(w.db, s, a, b.id));
      assert s == t ==> LiveFor(w.server, w.clock, a, t);
      assert StatusFits(w'.db, s) || RowFor(w'.db, s, a, b.id);
    }
  }

  /** Recording turns every ban of the alert into a live row. */
  lemma RecordKeepsAccounts(w: World, t: Token, v: VerifiedAlert, now: Seconds, w': World)
    requires OperationsOk(w.db) && NoOrphans(w) && Records(w.db, t, v, now, w'.db) && Genuine(w.server, t, v)
    requires OnlyLive(w.server, w.clock, t, v.alertId) && w'.server == w.server && w'.clock == w.clock
    ensures NoOrphans(w')
  {
    hide OperationsOk, Records, GenuineDecision;
    RecordShape(w.db, t, v, now, w'.db);
    forall a, b | LiveBanIn(w'.server, w'.clock, a, b)
      ensures Accounted(w'.db, w'.server, a, b.id)
    {
      assert LiveBanIn(w.server, w.clock, a, b);
      var s :| CarriesToken(w.server, a, s) && (StatusFits(w.db, s) || RowFor(w.db, s, a, b.id));
      if s == t {
        assert LiveFor(w.server, w.clock, a, t);
        RecordedRowIs(w.db, t, v, now, w'.db, b.id);
        assert RowFor(w'.db, t, a, b.id);
      } else if RowFor(w.db, s, a, b.id) {
        RecordKeepsRow(w.db, t, v, now, w'.db, b.id);
        assert RowFor(w'.db, s, a, b.id);
      } else {
        assert StatusFits(w'.db, s);
      }
    }
  }

  lemma RecordedRowIs(db: Tables, t: Token, v: VerifiedAlert, now: Seconds, db': Tables, id: int)
    requires Records(db, t, v, now, db') && id in NewIds(v)
    ensures id in db'.decisions && db'.decisions[id].token == t && db'.decisions[id].status == Active
  {
    hide DecisionFits;
    var d :| d in v.decisions && d.decisionId == id;
  }

  lemma InterferenceKeepsAccounts(cfg: Config, w: World, w': World)
    requires NoOrphans(w) && w'.db == w.db && w.server.mine <= w.server.alerts.Keys
    requires Interferes(cfg.machineId, w.tokens, w.server, w.clock, w'.server, w'.clock)
    ensures NoOrphans(w')
  {
    hide ServerOk, RowFor, StatusFits;
    forall a, b | LiveBanIn(w'.server, w'.clock, a, b)
      ensures Accounted(w'.db, w'.server, a, b.id)
    {
      assert LiveBanIn(w.server, w.clock, a, b);
      var t :| CarriesToken(w.server, a, t) && (StatusFits(w.db, t) || RowFor(w.db, t, a, b.id));
      assert CarriesToken(w'.server, a, t);
    }
  }

  lemma CreateKeepsAccounts(cfg: Config, w: World, t: Token, duration: Seconds, inputs: seq<DecisionInput>, w': World)
    requires NoOrphans(w) && w'.db == w.db && w'.clock == w.clock && StatusFits(w.db, t)
    requires w.db.operations[t].feedId in w.db.feeds && w.server.nextAlert !in w.server.alerts
    requires w'.server ==
             Created(cfg.machineId, w.server, w.clock, Scenario(w.db.feeds[w.db.operations[t].feedId].name), t,
                     duration, inputs)
    ensures NoOrphans(w')
  {
    hide RowFor;
    forall a, b | LiveBanIn(w'.server, w'.clock, a, b)
      ensures Accounted(w'.db, w'.server, a, b.id)
    {
      if a == w.server.nextAlert {
        assert CarriesToken(w'.server, a, t);
      } else {
        assert LiveBanIn(w.server, w.clock, a, b);
        var s :| CarriesToken(w.server, a, s) && (StatusFits(w.db, s) || RowFor(w.db, s, a, b.id));
        assert CarriesToken(w'.server, a, s);
      }
    }
  }

  lemma ExpireKeepsAccounts(w: World, id: int, w': World)
    requires NoOrphans(w) && w'.db == w.db && w'.clock == w.clock && w'.server == Ended(w.server, w.clock, id)
    ensures NoOrphans(w')
  {
    hide RowFor, StatusFits;
    forall a, b | LiveBanIn(w'.server, w'.clock, a, b)
      ensures Accounted(w'.db, w'.server, a, b.id)
    {
      var was := EndedBan(w.server, w.clock, id, a, b);
      assert LiveBanIn(w.server, w.clock, a, was) && was.id == b.id;
      var t :| CarriesToken(w.server, a, t) && (StatusFits(w.db, t) || RowFor(w.db, t, a, b.id));
      assert CarriesToken(w'.server, a, t);
    }
  }

  lemma NextKeepsAccounts(cfg: Config, w: World, a: Action, w': World)
    requires Inv(cfg, w) && cfg.honest && Next(cfg, w, a, w')
    ensures NoOrphans(w')
  {
    hide Journal, Ledger, Interferes, NoLiveAlert, ExpireGuard, StillShows, NoOrphans, Genuine, OnlyLive, NotLive,
         Records, Closes, GiveUpGuard, Pruned, PlanFits, PlanApplied, BeginGuard, Knows, Created, Ended, StatusFits;
    InvParts(cfg, w);
    match a
    case Interference => InterferenceKeepsAccounts(cfg, w, w');
    case SendCreate(t, duration, inputs) =>
      if w'.server == w.server {
        AccountsSame(w, w');
      } else {
        CreateKeepsAccounts(cfg, w, t, duration, inputs, w');
      }
    case SendExpire(id) =>
      if w'.server == w.server {
        AccountsSame(w, w');
      } else {
        ExpireKeepsAccounts(w, id, w');
      }
    case RecordVerified(t, v, now) => RecordKeepsAccounts(w, t, v, now, w');
    case MarkExpired(id, now) =>
      GiveUpTarget(w.db, id, now);
      MarkKeepsAccounts(w, id, now, w');
    case SetStatus(t, status, now) =>
      if status == Failed {
        FailKeepsAccounts(w, t, now, w');
      } else {
        PlainKeepsAccounts(cfg, w, a, w');
        AccountsKept(w, w');
      }
    case _ =>
      PlainKeepsAccounts(cfg, w, a, w');
      AccountsKept(w, w');
  }

  lemma AccountsSame(w: World, w': World)
    requires NoOrphans(w) && w'.db == w.db && w'.server == w.server && w'.clock == w.clock
    ensures NoOrphans(w')
  {
    hide RowFor, StatusFits;
    AccountsKept(w, w');
  }

  lemma GiveUpTarget(db: Tables, id: int, now: Seconds)
    requires GiveUpGuard(db, id, now)
    ensures id in db.decisions && IsLive(db.decisions[id].status)
  {
  }

  lemma InvParts(cfg: Config, w: World)
    requires Inv(cfg, w) && cfg.honest
    ensures NoOrphans(w) && OperationsOk(w.db) && RowsOk(w.db)
    ensures w.server.mine <= w.server.alerts.Keys && w.server.nextAlert !in w.server.alerts
  {
    hide OperationsOk, RowsOk, AlertIdsUnique, OneActive, OneOpen, UnrecordedOk, VerifiedOk, ExpiringOk, CompletedOk,
         NoOrphans, RowsBacked, OneLiveAlert, UnrecordedUntouched, ScenariosAgree, BanIdsUnique, MineOk, Foreign;
  }

  // ----- The theorem -----

  lemma NextKeepsLedger(cfg: Config, w: World, a: Action, w': World)
    requires Inv(cfg, w) && cfg.honest && Next(cfg, w, a, w') && Journal(w'.db)
    ensures Ledger(cfg, w')
  {
    hide Journal, Ledger, Interferes, NoLiveAlert, ExpireGuard, DbStep;
    match a
    case Interference => NextUnfold(cfg, w, a, w'); InterferenceKeepsLedger(cfg, w, w');
    case SendCreate(t, duration, inputs) =>
      NextUnfold(cfg, w, a, w');
      if w'.server == w.server {
        PlainKeepsLedger(cfg, w, a, w');
      } else {
        CreateKeepsLedger(cfg, w, t, duration, inputs, w');
      }
    case SendExpire(id) =>
      NextUnfold(cfg, w, a, w');
      if w'.server == w.server {
        PlainKeepsLedger(cfg, w, a, w');
      } else {
        ExpireTarget(w.db, id);
        ExpireKeepsLedger(cfg, w, id, w');
      }
    case RecordVerified(t, v, now) => RecordKeepsLedger(cfg, w, t, v, now, w');
    case _ => PlainKeepsLedger(cfg, w, a, w');
  }

  lemma ExpireTarget(db: Tables, id: int)
    requires ExpireGuard(db, id)
    ensures id in db.decisions && IsLive(db.decisions[id].status)
  {
  }

  lemma NextUnfold(cfg: Config, w: World, a: Action, w': World)
    requires Next(cfg, w, a, w') && (a.Interference? || a.SendCreate? || a.SendExpire?)
    ensures w'.db == w.db && w'.tokens == w.tokens
  {
  }

  lemma PlainKeepsLedger(cfg: Config, w: World, a: Action, w': World)
    requires Inv(cfg, w) && cfg.honest && Next(cfg, w, a, w') && Journal(w'.db) && !a.RecordVerified?
    requires w'.server == w.server && w'.clock == w.clock
    ensures Ledger(cfg, w')
  {
    hide Ledger, Next, OperationsOk, AlertIdsUnique, OneActive, OneOpen, UnrecordedOk, VerifiedOk, ExpiringOk,
         CompletedOk, RowsOk;
    PlainTransaction(cfg, w, a, w');
    TokensGrow(cfg, w, a, w');
    TransactionKeepsLedger(cfg, w, w');
  }

  lemma TokensGrow(cfg: Config, w: World, a: Action, w': World)
    requires Next(cfg, w, a, w')
    ensures w.tokens <= w'.tokens && w.clock <= w'.clock
  {
    hide DbStep, Interferes, NoLiveAlert, ExpireGuard;
  }

  /** Every step keeps the invariant. */
  lemma NextKeepsInv(cfg: Config, w: World, a: Action, w': World)
    requires Inv(cfg, w) && Next(cfg, w, a, w')
    ensures Inv(cfg, w')
  {
    hide Journal, Catalog, Owned, Ledger, NoOrphans, DbStep, ServerStep;
    DbStepKeepsJournal(cfg, w, a, w'.db);
    DbStepKeepsCatalog(cfg, w, a, w'.db);
    DbStepKeepsOwned(cfg, w, a, w');
    if cfg.honest {
      NextKeepsLedger(cfg, w, a, w');
      NextKeepsAccounts(cfg, w, a, w');
    }
  }
}
