/**
 What one step, one operation or one batch of the reconciler changes in the store, and what it
 leaves alone.
 */
module Effects {
  import opened Prefixes
  import opened Database
  import opened Invariants

  ghost predicate SameCatalog(db: Tables, db': Tables) {
    db'.objects == db.objects && db'.feeds == db.feeds && db'.entries == db.entries && db'.syncRuns == db.syncRuns
  }

  /** Rows and open operations changed only for the given objects; no row was deleted. */
  ghost predicate Within(db: Tables, db': Tables, targets: set<Prefix>) {
    SameCatalog(db, db') &&
    (forall r :: r in db.decisions ==> r in db'.decisions && db'.decisions[r].target == db.decisions[r].target) &&
    (forall r :: r in db'.decisions && db'.decisions[r].target !in targets ==>
       r in db.decisions && db'.decisions[r] == db.decisions[r]) &&
    (forall t :: t in db.alerts ==> t in db'.alerts && db'.alerts[t] == db.alerts[t]) &&
    forall t, p :: p !in targets && OpenFor(db', t, p) ==> OpenFor(db, t, p)
  }

  /** Every other operation is as it was. */
  ghost predicate OthersSame(db: Tables, db': Tables, token: Token) {
    forall t :: t != token ==>
      (t in db'.operations <==> t in db.operations) && (t in db.operations ==> db'.operations[t] == db.operations[t])
  }

  lemma WithinSelf(db: Tables, targets: set<Prefix>)
    ensures Within(db, db, targets)
  {
  }

  lemma WithinTrans(a: Tables, b: Tables, c: Tables, s: set<Prefix>, t: set<Prefix>)
    requires Within(a, b, s) && Within(b, c, t)
    ensures Within(a, c, s + t)
  {
  }

  lemma WithinMore(a: Tables, b: Tables, s: set<Prefix>, t: set<Prefix>)
    requires Within(a, b, s) && s <= t
    ensures Within(a, b, t)
  {
  }

  /** Outside the targets nothing moved. */
  lemma WithinHolds(db: Tables, db': Tables, targets: set<Prefix>, p: Prefix)
    requires Within(db, db', targets) && p !in targets
    ensures forall r :: Holds(db', p, r) <==> Holds(db, p, r)
    ensures forall r :: Holds(db, p, r) ==> db'.decisions[r] == db.decisions[r]
    ensures Busy(db', p) ==> Busy(db, p)
  {
    forall r | Holds(db, p, r) ensures r in db'.decisions && db'.decisions[r] == db.decisions[r] {}
  }

  lemma BeginWithin(db: Tables, op: Operation)
    requires op.token !in db.operations
    ensures Within(db, Begun(db, op), ItemObjects(op.items)) && OthersSame(db, Begun(db, op), op.token)
  {
  }

  lemma MarkWithin(db: Tables, id: int, now: Seconds)
    requires id in db.decisions
    ensures Within(db, Marked(db, id, now), {db.decisions[id].target})
    ensures Marked(db, id, now).operations == db.operations && Marked(db, id, now).alerts == db.alerts
  {
  }

  lemma RestatusWithin(db: Tables, t: Token, status: OperationStatus, at: Option<Seconds>)
    requires t in db.operations && (IsOpen(status) ==> IsOpen(db.operations[t].status))
    ensures Within(db, Restatus(db, t, status, at), {}) && OthersSame(db, Restatus(db, t, status, at), t)
    ensures t in Restatus(db, t, status, at).operations && Restatus(db, t, status, at).operations[t].status == status
    ensures Restatus(db, t, status, at).operations[t].items == db.operations[t].items
  {
  }

  lemma RecordWithin(db: Tables, token: Token, v: VerifiedAlert, now: Seconds, db': Tables)
    requires Journal(db) && Records(db, token, v, now, db')
    ensures Within(db, db', ItemObjects(db.operations[token].items)) && OthersSame(db, db', token)
    ensures token in db'.operations && db'.operations[token] == db.operations[token].(status := Verified)
  {
    hide RowsOk, AlertIdsUnique, OneActive, OneOpen, UnrecordedOk, VerifiedOk, ExpiringOk, CompletedOk, Records,
         OperationsOk, ItemObjects;
    RecordShape(db, token, v, now, db');
    RecordRowsWithin(db, token, v, now, db');
    assert forall t, p :: OpenFor(db', t, p) ==> OpenFor(db, t, p);
  }

  lemma RecordRowsWithin(db: Tables, token: Token, v: VerifiedAlert, now: Seconds, db': Tables)
    requires OperationsOk(db) && Records(db, token, v, now, db')
    ensures forall r :: r in db.decisions ==> r in db'.decisions && db'.decisions[r].target == db.decisions[r].target
    ensures forall r :: r in db'.decisions && db'.decisions[r].target !in ItemObjects(db.operations[token].items) ==>
              r in db.decisions && db'.decisions[r] == db.decisions[r]
  {
    hide Records, OperationsOk, ItemObjects;
    RecordShape(db, token, v, now, db');
    forall r | r in db.decisions
      ensures r in db'.decisions && db'.decisions[r].target == db.decisions[r].target
      ensures db.decisions[r].target !in ItemObjects(db.operations[token].items) ==> db'.decisions[r] == db.decisions[r]
    {
      RecordKeepsRow(db, token, v, now, db', r);
    }
    forall r | r in db'.decisions && r !in db.decisions
      ensures db'.decisions[r].target in ItemObjects(db.operations[token].items)
    {
      var d := RecordNewRow(db, token, v, now, db', r);
    }
  }

  // ----- Finishing a recorded operation -----

  /** Some of the replaced rows went from expiring to expired; nothing else changed. */
  ghost predicate Fading(db: Tables, items: seq<Item>, now: Seconds, db': Tables) {
    db' == db.(decisions := db'.decisions) && db'.decisions.Keys == db.decisions.Keys &&
    forall r :: r in db.decisions ==>
      db'.decisions[r] == db.decisions[r] ||
      (r in Olds(items) && db.decisions[r].status == Expiring &&
       db'.decisions[r] == db.decisions[r].(status := Expired, verifiedAt := now))
  }

  lemma FadingHolds(db: Tables, items: seq<Item>, now: Seconds, db': Tables, p: Prefix, r: int)
    requires Fading(db, items, now, db')
    ensures Holds(db', p, r) <==> Holds(db, p, r)
    ensures Holds(db, p, r) ==> db'.decisions[r] == db.decisions[r]
  {
  }

  lemma FadingStep(db: Tables, items: seq<Item>, now: Seconds, mid: Tables, id: int)
    requires Fading(db, items, now, mid) && id in Olds(items) && id in mid.decisions &&
             mid.decisions[id].status == Expiring
    ensures Fading(db, items, now, Marked(mid, id, now))
  {
  }

  lemma FadingWithin(db: Tables, items: seq<Item>, now: Seconds, db': Tables)
    requires Fading(db, items, now, db')
    requires forall it :: it in items ==> PriorOk(db, it)
    ensures Within(db, db', ItemObjects(items)) && db'.operations == db.operations
  {
    forall r | r in db.decisions && db'.decisions[r] != db.decisions[r]
      ensures db.decisions[r].target in ItemObjects(items)
    {
      var it :| it in items && it.prior.Some? && it.prior.value == r;
      assert PriorOk(db, it);
    }
    assert forall t, p :: OpenFor(db', t, p) ==> OpenFor(db, t, p);
  }

  // ----- Rows that do their job -----

  /** The row enforces `p` as the plan wants it. */
  predicate Serves(db: Tables, p: Prefix, r: int) {
    Holds(db, p, r) && p in db.objects &&
    db.decisions[r].scope == db.objects[p].scope && db.decisions[r].value == ObjectValue(p, db.objects[p].scope) &&
    db.objects[p].primary.Some? && db.objects[p].primary.value in db.feeds &&
    db.decisions[r].scenario == Scenario(db.feeds[db.objects[p].primary.value].name)
  }

  ghost predicate Served(db: Tables, p: Prefix, now: Seconds) {
    exists r :: Serves(db, p, r) && db.decisions[r].expiresAt > now
  }

  lemma WithinServes(db: Tables, db': Tables, targets: set<Prefix>, p: Prefix, now: Seconds)
    requires Within(db, db', targets) && p !in targets && Served(db, p, now)
    ensures Served(db', p, now)
  {
    WithinHolds(db, db', targets, p);
    var r :| Serves(db, p, r) && db.decisions[r].expiresAt > now;
    assert Serves(db', p, r);
  }

  /** The row an operation recorded for an item, with what was checked of it; it ends after `floor`. */
  ghost predicate ItemDone(db: Tables, token: Token, feedName: string, it: Item, floor: Seconds) {
    it.target in db.objects &&
    exists r :: IsReplacement(db, token, it.target, r) && db.decisions[r].scenario == Scenario(feedName) &&
                db.decisions[r].scope == db.objects[it.target].scope &&
                db.decisions[r].value == ObjectValue(it.target, db.objects[it.target].scope) &&
                db.decisions[r].expiresAt > floor
  }

  lemma RecordDoes(db: Tables, token: Token, v: VerifiedAlert, now: Seconds, db': Tables, it: Item, floor: Seconds)
    requires Journal(db) && Records(db, token, v, now, db') && it in db.operations[token].items
    requires forall d :: d in v.decisions ==> d.expiresAt > floor
    ensures db.operations[token].feedId in db.feeds
    ensures ItemDone(db', token, db.feeds[db.operations[token].feedId].name, it, floor)
  {
    hide RowsOk, AlertIdsUnique, OneActive, OneOpen, UnrecordedOk, VerifiedOk, ExpiringOk, CompletedOk;
    var d := RecordDecides(db, token, v, now, db', it);
    assert DecisionFits(db, v.scenario, db.operations[token].duration, now, d);
    assert db'.decisions[d.decisionId] == NewDecision(token, d, now);
  }

  lemma FadingDone(db: Tables, items: seq<Item>, now: Seconds, db': Tables, token: Token, feedName: string, it: Item,
                   floor: Seconds)
    requires Fading(db, items, now, db') && ItemDone(db, token, feedName, it, floor)
    ensures ItemDone(db', token, feedName, it, floor)
  {
    var r :| IsReplacement(db, token, it.target, r) && db.decisions[r].scenario == Scenario(feedName) &&
             db.decisions[r].scope == db.objects[it.target].scope &&
             db.decisions[r].value == ObjectValue(it.target, db.objects[it.target].scope) &&
             db.decisions[r].expiresAt > floor;
    FadingHolds(db, items, now, db', it.target, r);
    assert IsReplacement(db', token, it.target, r);
  }

  // ----- What a run has to do -----

  /** The row may stay: it serves, and it is not close to its end. */
  predicate Keeps(db: Tables, p: Prefix, r: int, now: Seconds, refreshBefore: Seconds) {
    Serves(db, p, r) && db.decisions[r].expiresAt - now > refreshBefore
  }

  ghost predicate IsWanted(db: Tables, p: Prefix) { p in db.objects && db.objects[p].desired }

  /** Wanted, with no active row left in time. */
  ghost predicate NeedsCreate(db: Tables, p: Prefix, now: Seconds) {
    IsWanted(db, p) && forall r :: Holds(db, p, r) ==> db.decisions[r].expiresAt <= now
  }

  /** Wanted, with an active row in time that may not stay. */
  ghost predicate NeedsRefresh(db: Tables, p: Prefix, now: Seconds, refreshBefore: Seconds) {
    IsWanted(db, p) &&
    exists r :: Holds(db, p, r) && db.decisions[r].expiresAt > now && !Keeps(db, p, r, now, refreshBefore)
  }

  ghost predicate IsKept(db: Tables, p: Prefix, now: Seconds, refreshBefore: Seconds) {
    IsWanted(db, p) && exists r :: Keeps(db, p, r, now, refreshBefore)
  }

  ghost predicate NeedsRemoval(db: Tables, p: Prefix) {
    p in db.objects && !db.objects[p].desired && exists r :: Holds(db, p, r)
  }

  ghost function ToAdd(db: Tables, now: Seconds): set<Prefix> {
    set p | p in db.objects && NeedsCreate(db, p, now)
  }

  ghost function ToRefresh(db: Tables, now: Seconds, refreshBefore: Seconds): set<Prefix> {
    set p | p in db.objects && NeedsRefresh(db, p, now, refreshBefore)
  }

  ghost function ToKeep(db: Tables, now: Seconds, refreshBefore: Seconds): set<Prefix> {
    set p | p in db.objects && IsKept(db, p, now, refreshBefore)
  }

  ghost function ToRemove(db: Tables): set<Prefix> {
    set p | p in db.objects && NeedsRemoval(db, p)
  }

  ghost function Unwanted(db: Tables): set<Prefix> {
    set p | p in db.objects && !db.objects[p].desired
  }

  /** Each object falls under exactly one heading. */
  lemma Partition(db: Tables, p: Prefix, now: Seconds, refreshBefore: Seconds)
    requires OneActive(db) && refreshBefore > 0 && p in db.objects
    ensures p in Unwanted(db) <==>
            p !in ToAdd(db, now) && p !in ToRefresh(db, now, refreshBefore) && p !in ToKeep(db, now, refreshBefore)
    ensures p in ToAdd(db, now) ==> p !in ToRefresh(db, now, refreshBefore) && p !in ToKeep(db, now, refreshBefore)
    ensures p in ToRefresh(db, now, refreshBefore) ==> p !in ToKeep(db, now, refreshBefore)
  {
    hide Serves;
    forall r | Keeps(db, p, r, now, refreshBefore) ensures Holds(db, p, r) { KeepsHolds(db, p, r, now, refreshBefore); }
    if db.objects[p].desired && p !in ToAdd(db, now) {
      var r :| Holds(db, p, r) && db.decisions[r].expiresAt > now;
      assert forall q :: Holds(db, p, q) ==> q == r;
    }
  }

  lemma KeepsHolds(db: Tables, p: Prefix, r: int, now: Seconds, refreshBefore: Seconds)
    requires Keeps(db, p, r, now, refreshBefore)
    ensures Holds(db, p, r) && db.decisions[r].expiresAt - now > refreshBefore
  {
  }

  /** The headings add up to the number of objects. */
  lemma PartitionCounts(db: Tables, now: Seconds, refreshBefore: Seconds)
    requires OneActive(db) && refreshBefore > 0
    ensures |db.objects| ==
            |ToAdd(db, now)| + |ToRefresh(db, now, refreshBefore)| + |ToKeep(db, now, refreshBefore)| + |Unwanted(db)|
  {
    hide NeedsCreate, NeedsRefresh, IsKept;
    forall p | p in db.objects
      ensures p in Unwanted(db) <==>
              p !in ToAdd(db, now) && p !in ToRefresh(db, now, refreshBefore) && p !in ToKeep(db, now, refreshBefore)
      ensures p in ToAdd(db, now) ==> p !in ToRefresh(db, now, refreshBefore) && p !in ToKeep(db, now, refreshBefore)
      ensures p in ToRefresh(db, now, refreshBefore) ==> p !in ToKeep(db, now, refreshBefore)
    {
      Partition(db, p, now, refreshBefore);
    }
    var a, b, c, d := ToAdd(db, now), ToRefresh(db, now, refreshBefore), ToKeep(db, now, refreshBefore), Unwanted(db);
    assert a !! b && (a + b) !! c && (a + b + c) !! d;
    assert db.objects.Keys == a + b + c + d;
  }
}
