/**
 The invariant of the write-ahead journal, and the proof that every transaction keeps it
 when the reconciler calls it as it does.
 */
module Invariants {
  import opened Collections
  import opened Prefixes
  import opened Safety
  import opened Planner
  import opened Database

  ghost predicate OpenFor(db: Tables, t: Token, p: Prefix) {
    t in db.operations && IsOpen(db.operations[t].status) && p in ItemObjects(db.operations[t].items)
  }

  /** `p` is in the hands of an operation that has not finished. */
  ghost predicate Busy(db: Tables, p: Prefix) {
    exists t :: OpenFor(db, t, p)
  }

  predicate Holds(db: Tables, p: Prefix, r: int) {
    r in db.decisions && db.decisions[r].target == p && db.decisions[r].status == Active
  }

  ghost predicate NoActive(db: Tables, p: Prefix) {
    forall r :: r in db.decisions ==> !Holds(db, p, r)
  }

  /** `n` is the active row that the operation `t` created for `p`. */
  predicate IsReplacement(db: Tables, t: Token, p: Prefix, n: int) {
    Holds(db, p, n) && db.decisions[n].token == t
  }

  ghost predicate RowsOk(db: Tables) {
    forall r :: r in db.decisions ==>
      var d := db.decisions[r];
      r > 0 && d.target in db.objects && d.token in db.alerts && d.scenario == db.alerts[d.token].scenario &&
      d.value == ObjectValue(d.target, d.scope) && (d.replacedBy.Some? ==> d.replacedBy.value in db.decisions) &&
      d.createdAt < d.expiresAt <= d.createdAt + 7 * 24 * 3600 + 600
  }

  predicate PriorOk(db: Tables, it: Item) {
    it.prior.Some? ==> it.prior.value in db.decisions && db.decisions[it.prior.value].target == it.target
  }

  ghost predicate OperationsOk(db: Tables) {
    forall t :: t in db.operations ==>
      var op := db.operations[t];
      op.feedId in db.feeds && DistinctObjects(op.items) && op.items != [] && 1 <= op.duration <= MAX_DURATION &&
      forall it :: it in op.items ==> it.target in db.objects && PriorOk(db, it)
  }

  ghost predicate AlertIdsUnique(db: Tables) {
    forall s, t :: s in db.alerts && t in db.alerts && db.alerts[s].alertId == db.alerts[t].alertId ==> s == t
  }

  /** Each object has at most one active decision. */
  ghost predicate OneActive(db: Tables) {
    forall p, q, r :: Holds(db, p, q) && Holds(db, p, r) ==> q == r
  }

  /** Each object sits in at most one open operation. */
  ghost predicate OneOpen(db: Tables) {
    forall s, t, p :: OpenFor(db, s, p) && OpenFor(db, t, p) ==> s == t
  }

  /** A create has no active decision yet; a refresh still has the one it replaces. */
  ghost predicate ItemWaits(db: Tables, it: Item) {
    match it.prior
    case None => NoActive(db, it.target)
    case Some(r) => Holds(db, it.target, r)
  }

  ghost predicate UnrecordedOk(db: Tables) {
    forall t :: t in db.operations && IsUnrecorded(db.operations[t].status) ==>
      t !in db.alerts && forall it :: it in db.operations[t].items ==> ItemWaits(db, it)
  }

  /** A recorded item has its replacement active, and what it replaces is on the way out. */
  ghost predicate ItemReplaced(db: Tables, t: Token, it: Item) {
    (exists n :: IsReplacement(db, t, it.target, n)) &&
    (it.prior.Some? ==>
       it.prior.value in db.decisions && db.decisions[it.prior.value].status != Active &&
       (db.decisions[it.prior.value].status == Expiring ==>
          db.decisions[it.prior.value].replacedBy.Some? &&
          IsReplacement(db, t, it.target, db.decisions[it.prior.value].replacedBy.value)))
  }

  ghost predicate VerifiedOk(db: Tables) {
    forall t :: t in db.operations && db.operations[t].status == Verified ==>
      t in db.alerts && forall it :: it in db.operations[t].items ==> ItemReplaced(db, t, it)
  }

  ghost predicate Retires(db: Tables, t: Token, r: int) {
    t in db.operations && db.operations[t].status == Verified && r in Olds(db.operations[t].items)
  }

  /** No leaked replacement: an expiring row belongs to an operation that will retire it. */
  ghost predicate ExpiringOk(db: Tables) {
    forall r :: r in db.decisions && db.decisions[r].status == Expiring ==> exists t :: Retires(db, t, r)
  }

  ghost predicate PriorsRetired(db: Tables, items: seq<Item>) {
    forall it :: it in items && it.prior.Some? ==>
      it.prior.value in db.decisions && !IsLive(db.decisions[it.prior.value].status)
  }

  /** A completed operation has retired everything it replaced. */
  ghost predicate CompletedOk(db: Tables) {
    forall t :: t in db.operations && db.operations[t].status == Completed ==>
      PriorsRetired(db, db.operations[t].items)
  }

  ghost predicate Journal(db: Tables) {
    RowsOk(db) && OperationsOk(db) && AlertIdsUnique(db) && OneActive(db) && OneOpen(db) &&
    UnrecordedOk(db) && VerifiedOk(db) && ExpiringOk(db) && CompletedOk(db)
  }

  // ----- The catalogue: feeds and objects -----

  /** What the configuration guarantees of a feed name (internal/state/feed_repository.go:84-86). */
  predicate FeedNameOk(name: string) { ValidFeedName(name) && |name| <= 64 }

  ghost predicate FeedsOk(feeds: map<int, FeedRow>) {
    (forall f :: f in feeds ==> f > 0 && FeedNameOk(feeds[f].name)) &&
    forall f, g :: f in feeds && g in feeds && feeds[f].name == feeds[g].name ==> f == g
  }

  /** A stored object is safe to ban, and a wanted one has its primary feed among its sources. */
  ghost predicate ObjectOk(db: Tables, p: Prefix, row: ObjectRow) {
    IsSafePrefix(p) && IsValid(p) && (row.scope == ScopeIP ==> IsHost(p)) &&
    (row.desired ==>
       row.primary.Some? && row.primary.value in db.feeds && exists k :: (row.primary.value, k) in row.sources)
  }

  ghost predicate Catalog(db: Tables) {
    FeedsOk(db.feeds) && forall p :: p in db.objects ==> ObjectOk(db, p, db.objects[p])
  }

  lemma PlannedObjectOk(db: Tables, o: Object, now: Seconds)
    requires ValidObject(o) && SourcesFit(db, o.contributors)
    ensures ObjectOk(db, o.prefix, RowOf(o, now))
  {
    hide IsSafePrefix, Masked;
    SafeIsValid(o.prefix);
    var k :| k in o.contributors && k.feedId == o.primary.feedId && k.kind == o.primary.kind;
    assert (k.feedId, k.kind) in SourceSet(o.contributors);
  }

  lemma PlanKeepsCatalog(db: Tables, objects: seq<Object>, now: Seconds, db': Tables)
    requires Catalog(db) && PlanFits(db, objects) && PlanApplied(db, objects, now, db')
    ensures Catalog(db')
  {
    hide ValidObject, SourcesFit, IsSafePrefix, IsValid, FeedsOk;
    forall p | p in db'.objects
      ensures ObjectOk(db', p, db'.objects[p])
    {
      if p in PlanPrefixes(objects) {
        var o :| o in objects && o.prefix == p;
        PlannedObjectOk(db, o, now);
      }
    }
  }

  /** Every operation has finished. */
  ghost predicate Quiescent(db: Tables) {
    forall t :: t in db.operations ==> !IsOpen(db.operations[t].status)
  }

  lemma EmptyJournal(db: Tables)
    requires db.operations == map[] && db.alerts == map[] && db.decisions == map[]
    ensures Journal(db)
  {
  }

  lemma QuiescentNotBusy(db: Tables, p: Prefix)
    requires Quiescent(db)
    ensures !Busy(db, p)
  {
  }

  /** Recovery done means no row is left half replaced. */
  lemma QuiescentNothingExpiring(db: Tables)
    requires Journal(db) && Quiescent(db)
    ensures forall r :: r in db.decisions ==> db.decisions[r].status != Expiring
  {
    hide RowsOk, OperationsOk, AlertIdsUnique, OneActive, OneOpen, UnrecordedOk, VerifiedOk, CompletedOk;
    forall r | r in db.decisions
      ensures db.decisions[r].status != Expiring
    {
      assert forall t :: !Retires(db, t, r);
    }
  }

  // ----- Transactions that leave operations, alerts and decisions alone -----

  /** Same journal tables, and no referenced object or feed lost. */
  ghost predicate SameJournal(db: Tables, db': Tables) {
    db'.operations == db.operations && db'.alerts == db.alerts && db'.decisions == db.decisions &&
    db.objects.Keys <= db'.objects.Keys && db.feeds.Keys <= db'.feeds.Keys
  }

  lemma SameJournalKeeps(db: Tables, db': Tables)
    requires Journal(db) && SameJournal(db, db')
    ensures Journal(db')
  {
    assert forall p, r :: Holds(db', p, r) <==> Holds(db, p, r);
    assert forall t, p, n :: IsReplacement(db', t, p, n) <==> IsReplacement(db, t, p, n);
    assert forall t, p :: OpenFor(db', t, p) <==> OpenFor(db, t, p);
    assert forall it :: PriorOk(db', it) <==> PriorOk(db, it);
    SameWaits(db, db');
    SameReplaced(db, db');
    SameExpiring(db, db');
  }

  lemma SameWaits(db: Tables, db': Tables)
    requires SameJournal(db, db') && UnrecordedOk(db)
    ensures UnrecordedOk(db')
  {
    assert forall p, r :: Holds(db', p, r) <==> Holds(db, p, r);
    forall it | ItemWaits(db, it) ensures ItemWaits(db', it) {}
  }

  lemma SameReplaced(db: Tables, db': Tables)
    requires SameJournal(db, db') && VerifiedOk(db)
    ensures VerifiedOk(db')
  {
    assert forall t, p, n :: IsReplacement(db', t, p, n) <==> IsReplacement(db, t, p, n);
    forall t, it | ItemReplaced(db, t, it) ensures ItemReplaced(db', t, it) {
      var n :| IsReplacement(db, t, it.target, n);
      assert IsReplacement(db', t, it.target, n);
    }
  }

  lemma SameExpiring(db: Tables, db': Tables)
    requires SameJournal(db, db') && ExpiringOk(db)
    ensures ExpiringOk(db')
  {
    forall r | r in db'.decisions && db'.decisions[r].status == Expiring
      ensures exists t :: Retires(db', t, r)
    {
      var t :| Retires(db, t, r);
      assert Retires(db', t, r);
    }
  }

  lemma PlanKeeps(db: Tables, objects: seq<Object>, now: Seconds, db': Tables)
    requires Journal(db) && PlanApplied(db, objects, now, db')
    ensures Journal(db') && SameJournal(db, db')
  {
    hide Journal, PlanPrefixes;
    SameJournalKeeps(db, db');
  }

  // ----- BeginOperation -----

  /** What the reconciler guarantees beyond the store's own tests: idle objects, a new token. */
  ghost predicate BeginGuard(db: Tables, op: Operation) {
    BeginFits(db, op) && op.token !in db.alerts &&
    forall it :: it in op.items ==> !Busy(db, it.target) && (it.prior == None ==> NoActive(db, it.target))
  }

  lemma BeginKeeps(db: Tables, op: Operation)
    requires Journal(db) && BeginGuard(db, op)
    ensures Journal(Begun(db, op))
  {
    BeginRows(db, op);
    BeginOpen(db, op);
    BeginWaits(db, op);
    BeginOthers(db, op);
  }

  lemma BeginRows(db: Tables, op: Operation)
    requires RowsOk(db) && OperationsOk(db) && AlertIdsUnique(db) && OneActive(db) && BeginFits(db, op)
    ensures var db' := Begun(db, op);
            RowsOk(db') && OperationsOk(db') && AlertIdsUnique(db') && OneActive(db')
  {
    var db' := Begun(db, op);
    assert forall p, r :: Holds(db', p, r) <==> Holds(db, p, r);
    assert forall it :: PriorOk(db', it) <==> PriorOk(db, it);
    forall it | it in op.items
      ensures PriorOk(db, it) && it.target in db.objects
    {
      assert ItemBegins(db, op.feedId, it);
    }
  }

  lemma BeginOpen(db: Tables, op: Operation)
    requires OneOpen(db) && BeginGuard(db, op)
    ensures OneOpen(Begun(db, op))
  {
    var db' := Begun(db, op);
    forall t, p | OpenFor(db', t, p)
      ensures if t == op.token then !Busy(db, p) else OpenFor(db, t, p)
    {
      if t == op.token {
        var it :| it in op.items && it.target == p;
      }
    }
  }

  lemma BeginWaits(db: Tables, op: Operation)
    requires UnrecordedOk(db) && BeginGuard(db, op)
    ensures UnrecordedOk(Begun(db, op))
  {
    var db' := Begun(db, op);
    assert forall p, r :: Holds(db', p, r) <==> Holds(db, p, r);
    forall it | ItemWaits(db, it) ensures ItemWaits(db', it) {}
    forall it | it in op.items
      ensures ItemWaits(db, it)
    {
      assert ItemBegins(db, op.feedId, it);
    }
  }

  lemma BeginOthers(db: Tables, op: Operation)
    requires VerifiedOk(db) && ExpiringOk(db) && CompletedOk(db) && op.token !in db.operations
    ensures var db' := Begun(db, op); VerifiedOk(db') && ExpiringOk(db') && CompletedOk(db')
  {
    var db' := Begun(db, op);
    assert forall t, p, n :: IsReplacement(db', t, p, n) <==> IsReplacement(db, t, p, n);
    forall t, it | ItemReplaced(db, t, it) ensures ItemReplaced(db', t, it) {
      var n :| IsReplacement(db, t, it.target, n);
      assert IsReplacement(db', t, it.target, n);
    }
    forall r | r in db'.decisions && db'.decisions[r].status == Expiring
      ensures exists t :: Retires(db', t, r)
    {
      var t :| Retires(db, t, r);
      assert Retires(db', t, r);
    }
  }

  // ----- CompleteOperation and SetOperationStatus -----

  /** The two ways an operation's status moves without touching a decision. */
  ghost predicate Closes(db: Tables, t: Token, status: OperationStatus) {
    t in db.operations &&
    (if status == Completed then db.operations[t].status == Verified && PriorsRetired(db, db.operations[t].items)
     else (status == Ambiguous || status == Failed) && IsUnrecorded(db.operations[t].status))
  }

  function Restatus(db: Tables, t: Token, status: OperationStatus, at: Option<Seconds>): Tables
    requires t in db.operations
  {
    db.(operations := db.operations[t := db.operations[t].(status := status, completedAt := at)])
  }

  lemma CloseKeeps(db: Tables, t: Token, status: OperationStatus, at: Option<Seconds>)
    requires Journal(db) && Closes(db, t, status)
    ensures Journal(Restatus(db, t, status, at))
  {
    hide Closes, RowsOk, OperationsOk, AlertIdsUnique, OneActive, OneOpen, UnrecordedOk, VerifiedOk, ExpiringOk,
         CompletedOk;
    CloseRows(db, t, status, at);
    CloseWaits(db, t, status, at);
    CloseReplaced(db, t, status, at);
    CloseExpiring(db, t, status, at);
  }

  lemma CloseRows(db: Tables, t: Token, status: OperationStatus, at: Option<Seconds>)
    requires RowsOk(db) && OperationsOk(db) && AlertIdsUnique(db) && OneActive(db) && OneOpen(db) &&
             Closes(db, t, status)
    ensures var db' := Restatus(db, t, status, at);
            RowsOk(db') && OperationsOk(db') && AlertIdsUnique(db') && OneActive(db') && OneOpen(db')
  {
    var db' := Restatus(db, t, status, at);
    assert forall p, r :: Holds(db', p, r) <==> Holds(db, p, r);
    assert forall it :: PriorOk(db', it) <==> PriorOk(db, it);
    assert forall s, p :: OpenFor(db', s, p) ==> OpenFor(db, s, p);
  }

  lemma CloseWaits(db: Tables, t: Token, status: OperationStatus, at: Option<Seconds>)
    requires UnrecordedOk(db) && CompletedOk(db) && Closes(db, t, status)
    ensures var db' := Restatus(db, t, status, at); UnrecordedOk(db') && CompletedOk(db')
  {
    var db' := Restatus(db, t, status, at);
    assert forall p, r :: Holds(db', p, r) <==> Holds(db, p, r);
    forall it | ItemWaits(db, it) ensures ItemWaits(db', it) {}
  }

  lemma CloseReplaced(db: Tables, t: Token, status: OperationStatus, at: Option<Seconds>)
    requires VerifiedOk(db) && Closes(db, t, status)
    ensures VerifiedOk(Restatus(db, t, status, at))
  {
    var db' := Restatus(db, t, status, at);
    assert forall s, p, n :: IsReplacement(db', s, p, n) <==> IsReplacement(db, s, p, n);
    forall s, it | ItemReplaced(db, s, it) ensures ItemReplaced(db', s, it) {
      var n :| IsReplacement(db, s, it.target, n);
      assert IsReplacement(db', s, it.target, n);
    }
  }

  lemma CloseExpiring(db: Tables, t: Token, status: OperationStatus, at: Option<Seconds>)
    requires ExpiringOk(db) && Closes(db, t, status)
    ensures ExpiringOk(Restatus(db, t, status, at))
  {
    var db' := Restatus(db, t, status, at);
    forall r | r in db'.decisions && db'.decisions[r].status == Expiring
      ensures exists s :: Retires(db', s, r)
    {
      var s :| Retires(db, s, r);
      assert Retires(db', s, r);
    }
  }

  // ----- MarkDecisionExpired -----

  /** A row is retired when it was replaced, or when no open operation needs it. */
  ghost predicate MarkGuard(db: Tables, id: int) {
    MarkFits(db, id) && (db.decisions[id].status == Active ==> !Busy(db, db.decisions[id].target))
  }

  lemma MarkKeeps(db: Tables, id: int, now: Seconds)
    requires Journal(db) && MarkGuard(db, id)
    ensures Journal(Marked(db, id, now))
  {
    hide RowsOk, OperationsOk, AlertIdsUnique, OneActive, OneOpen, UnrecordedOk, VerifiedOk, ExpiringOk, CompletedOk;
    hide MarkGuard;
    MarkRows(db, id, now);
    MarkWaits(db, id, now);
    MarkReplaced(db, id, now);
    MarkExpiring(db, id, now);
  }

  lemma MarkRows(db: Tables, id: int, now: Seconds)
    requires RowsOk(db) && OperationsOk(db) && AlertIdsUnique(db) && OneActive(db) && OneOpen(db) && MarkGuard(db, id)
    ensures var db' := Marked(db, id, now);
            RowsOk(db') && OperationsOk(db') && AlertIdsUnique(db') && OneActive(db') && OneOpen(db')
  {
    var db' := Marked(db, id, now);
    assert forall p, r :: Holds(db', p, r) ==> Holds(db, p, r);
    assert forall it :: PriorOk(db', it) <==> PriorOk(db, it);
    assert forall s, p :: OpenFor(db', s, p) <==> OpenFor(db, s, p);
  }

  lemma MarkWaits(db: Tables, id: int, now: Seconds)
    requires UnrecordedOk(db) && CompletedOk(db) && MarkGuard(db, id)
    ensures var db' := Marked(db, id, now); UnrecordedOk(db') && CompletedOk(db')
  {
    var db' := Marked(db, id, now);
    assert forall p, r :: Holds(db', p, r) ==> Holds(db, p, r);
    forall t, it | t in db.operations && IsUnrecorded(db.operations[t].status) && it in db.operations[t].items
      ensures ItemWaits(db', it)
    {
      assert ItemWaits(db, it);
      assert OpenFor(db, t, it.target);
    }
  }

  lemma MarkReplaced(db: Tables, id: int, now: Seconds)
    requires VerifiedOk(db) && MarkGuard(db, id)
    ensures VerifiedOk(Marked(db, id, now))
  {
    var db' := Marked(db, id, now);
    forall t, it | t in db.operations && db.operations[t].status == Verified && it in db.operations[t].items
      ensures ItemReplaced(db', t, it)
    {
      assert ItemReplaced(db, t, it);
      assert OpenFor(db, t, it.target);
      assert forall n :: IsReplacement(db, t, it.target, n) ==> IsReplacement(db', t, it.target, n);
    }
  }

  lemma MarkExpiring(db: Tables, id: int, now: Seconds)
    requires ExpiringOk(db) && MarkGuard(db, id)
    ensures ExpiringOk(Marked(db, id, now))
  {
    var db' := Marked(db, id, now);
    forall r | r in db'.decisions && db'.decisions[r].status == Expiring
      ensures exists s :: Retires(db', s, r)
    {
      var s :| Retires(db, s, r);
      assert Retires(db', s, r);
    }
  }

  // ----- RecordVerifiedOperation -----

  lemma {:induction false} ItemCount(items: seq<Item>)
    requires DistinctObjects(items)
    ensures |ItemObjects(items)| == |items|
  {
    if items != [] {
      var n := |items| - 1;
      ItemCount(items[..n]);
      assert items == items[..n] + [items[n]];
      assert ItemObjects(items) == ItemObjects(items[..n]) + {items[n].target};
      assert items[n].target !in ItemObjects(items[..n]);
    }
  }

  ghost function DecisionObjects(ds: seq<VerifiedDecision>): set<Prefix> {
    set d | d in ds :: d.target
  }

  lemma {:induction false} DecisionCount(ds: seq<VerifiedDecision>)
    requires DistinctDecisions(ds)
    ensures |DecisionObjects(ds)| == |ds|
  {
    if ds != [] {
      var n := |ds| - 1;
      DecisionCount(ds[..n]);
      assert ds == ds[..n] + [ds[n]];
      assert DecisionObjects(ds) == DecisionObjects(ds[..n]) + {ds[n].target};
      assert ds[n].target !in DecisionObjects(ds[..n]);
    }
  }

  lemma EveryItemDecided(items: seq<Item>, ds: seq<VerifiedDecision>)
    requires DistinctObjects(items) && DistinctDecisions(ds) && |items| == |ds|
    requires forall d :: d in ds ==> d.target in ItemObjects(items)
    ensures DecisionObjects(ds) == ItemObjects(items)
    ensures forall it :: it in items ==> exists d :: d in ds && d.target == it.target
  {
    ItemCount(items);
    DecisionCount(ds);
    Pigeonhole(ItemObjects(items), DecisionObjects(ds));
    forall it | it in items
      ensures exists d :: d in ds && d.target == it.target
    {
      assert it.target in DecisionObjects(ds);
    }
  }

  ghost predicate Records(db: Tables, token: Token, v: VerifiedAlert, now: Seconds, db': Tables) {
    RecordFits(db, token, v, now) && Recorded(db, token, v, now, db')
  }

  lemma RecordDecides(db: Tables, token: Token, v: VerifiedAlert, now: Seconds, db': Tables, it: Item)
    returns (d: VerifiedDecision)
    requires OperationsOk(db) && Records(db, token, v, now, db') && it in db.operations[token].items
    ensures d in v.decisions && d.target == it.target && IsReplacement(db', token, it.target, d.decisionId)
    ensures it.prior.Some? ==>
              it.prior.value in db.decisions && it.prior.value in db'.decisions &&
              it.prior.value in Olds(db.operations[token].items) &&
              db'.decisions[it.prior.value] ==
              db.decisions[it.prior.value].(status := Expiring, replacedBy := Some(d.decisionId))
  {
    hide DecisionFits;
    EveryItemDecided(db.operations[token].items, v.decisions);
    d :| d in v.decisions && d.target == it.target;
    assert it.prior.Some? && it.prior.value in db.decisions ==> Replaces(db, it, d);
    assert d.decisionId in NewIds(v);
  }

  /** Recording keeps every row, and changes only the replaced ones. */
  lemma RecordKeepsRow(db: Tables, token: Token, v: VerifiedAlert, now: Seconds, db': Tables, r: int)
    requires OperationsOk(db) && Records(db, token, v, now, db') && r in db.decisions
    ensures r in db'.decisions && db'.decisions[r].target == db.decisions[r].target
    ensures db'.decisions[r] ==
            db.decisions[r].(status := db'.decisions[r].status, replacedBy := db'.decisions[r].replacedBy)
    ensures db'.decisions[r].replacedBy == db.decisions[r].replacedBy ||
            (db'.decisions[r].replacedBy.Some? && db'.decisions[r].replacedBy.value in db'.decisions)
    ensures r !in Olds(db.operations[token].items) ==> db'.decisions[r] == db.decisions[r]
    ensures r in Olds(db.operations[token].items) ==>
              db.decisions[r].status == Active && db'.decisions[r].status == Expiring &&
              db.decisions[r].target in ItemObjects(db.operations[token].items)
  {
    hide DecisionFits;
    if r in Olds(db.operations[token].items) {
      var it :| it in db.operations[token].items && it.prior.Some? && it.prior.value == r;
      var d := RecordDecides(db, token, v, now, db', it);
    }
  }

  /** A row that recording added is active, for an object of the operation. */
  lemma RecordNewRow(db: Tables, token: Token, v: VerifiedAlert, now: Seconds, db': Tables, r: int)
    returns (d: VerifiedDecision)
    requires Records(db, token, v, now, db') && r in db'.decisions && r !in db.decisions
    ensures d in v.decisions && d.decisionId == r && db'.decisions[r] == NewDecision(token, d, now)
    ensures d.target in ItemObjects(db.operations[token].items)
    ensures DecisionFits(db, v.scenario, db.operations[token].duration, now, d)
  {
    hide DecisionFits;
    assert r in NewIds(v);
    d :| d in v.decisions && d.decisionId == r;
  }

  /** Whoever holds an object of the operation afterwards is its new row; elsewhere nothing changes. */
  lemma RecordHolder(db: Tables, token: Token, v: VerifiedAlert, now: Seconds, db': Tables, p: Prefix, r: int)
    requires OperationsOk(db) && OneActive(db) && UnrecordedOk(db) && Records(db, token, v, now, db')
    ensures p !in ItemObjects(db.operations[token].items) ==> (Holds(db', p, r) <==> Holds(db, p, r))
    ensures p in ItemObjects(db.operations[token].items) && Holds(db', p, r) ==>
              exists d :: d in v.decisions && d.decisionId == r && d.target == p
  {
    hide DecisionFits;
    var items := db.operations[token].items;
    if r in db.decisions {
      RecordKeepsRow(db, token, v, now, db', r);
      if p in ItemObjects(items) {
        var it :| it in items && it.target == p;
        assert ItemWaits(db, it);
        assert Holds(db, p, r) ==> it.prior == Some(r);
        assert !Holds(db', p, r);
      }
    } else if r in db'.decisions {
      var d := RecordNewRow(db, token, v, now, db', r);
    }
  }

  lemma RecordRows(db: Tables, token: Token, v: VerifiedAlert, now: Seconds, db': Tables)
    requires RowsOk(db) && OperationsOk(db) && Records(db, token, v, now, db')
    ensures RowsOk(db')
  {
    hide OperationsOk, Records;
    RecordShape(db, token, v, now, db');
    DurationBounded(db, token);
    forall r | r in db'.decisions
      ensures var d := db'.decisions[r];
              r > 0 && d.target in db'.objects && d.token in db'.alerts &&
              d.scenario == db'.alerts[d.token].scenario && d.value == ObjectValue(d.target, d.scope) &&
              (d.replacedBy.Some? ==> d.replacedBy.value in db'.decisions) &&
              d.createdAt < d.expiresAt <= d.createdAt + 7 * 24 * 3600 + 600
    {
      if r in db.decisions {
        RecordKeepsRow(db, token, v, now, db', r);
        if db.decisions[r].replacedBy.Some? {
          RecordKeepsRow(db, token, v, now, db', db.decisions[r].replacedBy.value);
        }
      } else {
        var d := RecordNewRow(db, token, v, now, db', r);
      }
    }
  }

  lemma DurationBounded(db: Tables, t: Token)
    requires OperationsOk(db) && t in db.operations
    ensures 1 <= db.operations[t].duration <= 7 * 24 * 3600
  {
  }

  lemma RecordShape(db: Tables, token: Token, v: VerifiedAlert, now: Seconds, db': Tables)
    requires Records(db, token, v, now, db')
    ensures token in db.operations && IsUnrecorded(db.operations[token].status) && token !in db.alerts
    ensures db'.objects == db.objects && db'.feeds == db.feeds && db'.entries == db.entries &&
            db'.syncRuns == db.syncRuns
    ensures db'.alerts == db.alerts[token := AlertRow(v.alertId, v.machineId, v.scenario, now)]
    ensures db'.operations == db.operations[token := db.operations[token].(status := Verified)]
    ensures forall t :: t in db.alerts ==> db.alerts[t].alertId != v.alertId
  {
  }

  lemma RecordOperations(db: Tables, token: Token, v: VerifiedAlert, now: Seconds, db': Tables)
    requires OperationsOk(db) && AlertIdsUnique(db) && OneOpen(db) && Records(db, token, v, now, db')
    ensures OperationsOk(db') && AlertIdsUnique(db') && OneOpen(db')
  {
    hide Records;
    RecordShape(db, token, v, now, db');
    forall it | PriorOk(db, it)
      ensures PriorOk(db', it)
    {
      if it.prior.Some? { RecordKeepsRow(db, token, v, now, db', it.prior.value); }
    }
    assert forall s, p :: OpenFor(db', s, p) <==> OpenFor(db, s, p);
  }

  lemma RecordOneActive(db: Tables, token: Token, v: VerifiedAlert, now: Seconds, db': Tables)
    requires OperationsOk(db) && OneActive(db) && UnrecordedOk(db) && Records(db, token, v, now, db')
    ensures OneActive(db')
  {
    hide OperationsOk, UnrecordedOk, DecisionFits, Recorded;
    forall p, q, r | Holds(db', p, q) && Holds(db', p, r)
      ensures q == r
    {
      RecordHolder(db, token, v, now, db', p, q);
      RecordHolder(db, token, v, now, db', p, r);
    }
  }

  lemma OthersDisjoint(db: Tables, s: Token, t: Token, it: Item)
    requires OneOpen(db) && s in db.operations && t in db.operations && s != t
    requires IsOpen(db.operations[s].status) && IsOpen(db.operations[t].status) && it in db.operations[s].items
    ensures it.target !in ItemObjects(db.operations[t].items)
  {
    assert OpenFor(db, s, it.target);
    assert it.target in ItemObjects(db.operations[t].items) ==> OpenFor(db, t, it.target);
  }

  lemma RecordWaits(db: Tables, token: Token, v: VerifiedAlert, now: Seconds, db': Tables)
    requires OperationsOk(db) && OneActive(db) && OneOpen(db) && UnrecordedOk(db) && Records(db, token, v, now, db')
    ensures UnrecordedOk(db')
  {
    hide OperationsOk, OneActive, OneOpen, Records;
    RecordShape(db, token, v, now, db');
    forall t, it | t in db'.operations && IsUnrecorded(db'.operations[t].status) && it in db'.operations[t].items
      ensures ItemWaits(db', it)
    {
      assert ItemWaits(db, it);
      OthersDisjoint(db, t, token, it);
      forall r ensures Holds(db', it.target, r) <==> Holds(db, it.target, r) {
        RecordHolder(db, token, v, now, db', it.target, r);
      }
    }
  }

  lemma RecordReplacesOwn(db: Tables, token: Token, v: VerifiedAlert, now: Seconds, db': Tables, it: Item)
    requires OperationsOk(db) && Records(db, token, v, now, db') && it in db.operations[token].items
    ensures ItemReplaced(db', token, it)
  {
    hide OperationsOk, Records;
    RecordShape(db, token, v, now, db');
    var d := RecordDecides(db, token, v, now, db', it);
  }

  lemma RecordReplacesOther(db: Tables, token: Token, v: VerifiedAlert, now: Seconds, db': Tables, t: Token, it: Item)
    requires OperationsOk(db) && OneActive(db) && OneOpen(db) && UnrecordedOk(db) && Records(db, token, v, now, db')
    requires t in db.operations && db.operations[t].status == Verified && it in db.operations[t].items &&
             ItemReplaced(db, t, it)
    ensures ItemReplaced(db', t, it)
  {
    hide OperationsOk, OneActive, OneOpen, UnrecordedOk, Records;
    RecordShape(db, token, v, now, db');
    OthersDisjoint(db, t, token, it);
    forall n | IsReplacement(db, t, it.target, n)
      ensures IsReplacement(db', t, it.target, n)
    {
      RecordHolder(db, token, v, now, db', it.target, n);
      RecordKeepsRow(db, token, v, now, db', n);
    }
    var n :| IsReplacement(db, t, it.target, n);
    assert IsReplacement(db', t, it.target, n);
    if it.prior.Some? { RecordKeepsRow(db, token, v, now, db', it.prior.value); }
  }

  lemma RecordReplaced(db: Tables, token: Token, v: VerifiedAlert, now: Seconds, db': Tables)
    requires OperationsOk(db) && OneActive(db) && OneOpen(db) && UnrecordedOk(db) && VerifiedOk(db) &&
             Records(db, token, v, now, db')
    ensures VerifiedOk(db')
  {
    hide OperationsOk, OneActive, OneOpen, UnrecordedOk, Records, ItemReplaced;
    RecordShape(db, token, v, now, db');
    forall t, it | t in db'.operations && db'.operations[t].status == Verified && it in db'.operations[t].items
      ensures ItemReplaced(db', t, it)
    {
      if t == token {
        RecordReplacesOwn(db, token, v, now, db', it);
      } else {
        RecordReplacesOther(db, token, v, now, db', t, it);
      }
    }
  }

  lemma RecordExpiring(db: Tables, token: Token, v: VerifiedAlert, now: Seconds, db': Tables)
    requires OperationsOk(db) && ExpiringOk(db) && CompletedOk(db) && Records(db, token, v, now, db')
    ensures ExpiringOk(db') && CompletedOk(db')
  {
    hide OperationsOk, Records;
    RecordShape(db, token, v, now, db');
    forall r | r in db'.decisions && db'.decisions[r].status == Expiring
      ensures exists t :: Retires(db', t, r)
    {
      if r in db.decisions {
        RecordKeepsRow(db, token, v, now, db', r);
        if r in Olds(db.operations[token].items) {
          assert Retires(db', token, r);
        } else {
          var t :| Retires(db, t, r);
          assert Retires(db', t, r);
        }
      } else {
        var d := RecordNewRow(db, token, v, now, db', r);
      }
    }
    forall t | t in db'.operations && db'.operations[t].status == Completed
      ensures PriorsRetired(db', db'.operations[t].items)
    {
      assert PriorsRetired(db, db.operations[t].items);
      forall it | it in db.operations[t].items && it.prior.Some?
        ensures it.prior.value in db'.decisions && !IsLive(db'.decisions[it.prior.value].status)
      {
        RecordKeepsRow(db, token, v, now, db', it.prior.value);
      }
    }
  }

  lemma RecordKeeps(db: Tables, token: Token, v: VerifiedAlert, now: Seconds, db': Tables)
    requires Journal(db) && Records(db, token, v, now, db')
    ensures Journal(db')
  {
    hide RowsOk, OperationsOk, AlertIdsUnique, OneActive, OneOpen, UnrecordedOk, VerifiedOk, ExpiringOk, CompletedOk,
         Records;
    RecordRows(db, token, v, now, db');
    RecordOperations(db, token, v, now, db');
    RecordOneActive(db, token, v, now, db');
    RecordWaits(db, token, v, now, db');
    RecordReplaced(db, token, v, now, db');
    RecordExpiring(db, token, v, now, db');
  }
}
