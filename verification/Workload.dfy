/**
 What the planning loop of `Run` works out before anything is sent: the batches to create or
 refresh, the rows to remove, and the rows that ran out.
 */
module Workload {
  import opened Prefixes
  import opened Safety
  import opened Planner
  import opened Database
  import opened Invariants
  import opened Protocol
  import opened StateStore
  import opened Lapi
  import opened Effects

  datatype GroupKey = GroupKey(kind: OperationKind, feedId: int, feedName: string)

  type Groups = map<GroupKey, seq<Item>>

  function AddAction(groups: Groups, key: GroupKey, it: Item): Groups {
    groups[key := (if key in groups then groups[key] else []) + [it]]
  }

  /** The key names the primary feed of `p`. */
  predicate KeyFor(db: Tables, p: Prefix, key: GroupKey) {
    p in db.objects && db.objects[p].desired && db.objects[p].primary == Some(key.feedId) && key.feedId in db.feeds &&
    key.feedName == db.feeds[key.feedId].name
  }

  ghost predicate PlannedItem(db: Tables, now: Seconds, refreshBefore: Seconds, key: GroupKey, it: Item) {
    KeyFor(db, it.target, key) &&
    match key.kind
    case Create => it.prior == None && NeedsCreate(db, it.target, now)
    case Refresh => it.prior.Some? && Holds(db, it.target, it.prior.value) &&
        NeedsRefresh(db, it.target, now, refreshBefore)
    case _ => false
  }

  ghost predicate InGroups(groups: Groups, p: Prefix) {
    exists key :: key in groups && p in ItemObjects(groups[key])
  }

  /** The groups hold one item for each object of `done` that needs one, under its feed and kind. */
  ghost predicate Planned(db: Tables, now: Seconds, refreshBefore: Seconds, done: set<Prefix>, groups: Groups) {
    (forall key, it :: key in groups && it in groups[key] ==>
        it.target in done && PlannedItem(db, now, refreshBefore, key, it)) &&
    (forall key :: key in groups ==> groups[key] != [] && DistinctObjects(groups[key])) &&
    forall p :: p in done && (NeedsCreate(db, p, now) || NeedsRefresh(db, p, now, refreshBefore)) ==>
        InGroups(groups, p)
  }

  lemma PlannedNothing(db: Tables, now: Seconds, refreshBefore: Seconds)
    ensures Planned(db, now, refreshBefore, {}, map[])
  {
  }

  lemma PlannedSkip(db: Tables, now: Seconds, refreshBefore: Seconds, done: set<Prefix>, groups: Groups, p: Prefix)
    requires Planned(db, now, refreshBefore, done, groups)
    requires !NeedsCreate(db, p, now) && !NeedsRefresh(db, p, now, refreshBefore)
    ensures Planned(db, now, refreshBefore, done + {p}, groups)
  {
    hide NeedsCreate, NeedsRefresh, KeyFor, PlannedItem;
  }

  lemma PlannedAdd(db: Tables, now: Seconds, refreshBefore: Seconds, done: set<Prefix>, groups: Groups, key: GroupKey,
                   it: Item)
    requires Planned(db, now, refreshBefore, done, groups) && it.target !in done
    requires PlannedItem(db, now, refreshBefore, key, it)
    ensures Planned(db, now, refreshBefore, done + {it.target}, AddAction(groups, key, it))
  {
    hide NeedsCreate, NeedsRefresh, KeyFor, PlannedItem;
    var was := if key in groups then groups[key] else [];
    var groups' := AddAction(groups, key, it);
    assert groups'[key] == was + [it];
    assert DistinctObjects(was + [it]) by {
      forall i | 0 <= i < |was| ensures was[i].target != it.target { assert was[i] in groups[key]; }
    }
    assert it in groups'[key];
    forall p | InGroups(groups, p)
      ensures InGroups(groups', p)
    {
      var k :| k in groups && p in ItemObjects(groups[k]);
      assert forall x :: x in groups[k] ==> x in groups'[k];
    }
    assert InGroups(groups', it.target);
  }

  // ----- Rows that ran out -----

  predicate RunOut(db: Tables, now: Seconds, done: set<Prefix>, r: int) {
    r in db.decisions && db.decisions[r].status == Active && db.decisions[r].target in done &&
    db.decisions[r].target in db.objects && db.objects[db.decisions[r].target].desired &&
    db.decisions[r].expiresAt <= now
  }

  /** The run-out active rows of wanted objects in `done` have been marked; nothing else changed. */
  ghost predicate Lapsed(db: Tables, now: Seconds, done: set<Prefix>, db': Tables) {
    db' == db.(decisions := db'.decisions) && db'.decisions.Keys == db.decisions.Keys &&
    forall r :: r in db.decisions ==>
      db'.decisions[r] == if RunOut(db, now, done, r) then db.decisions[r].(status := Expired,
          verifiedAt := now) else db.decisions[r]
  }

  lemma LapsedNothing(db: Tables, now: Seconds)
    ensures Lapsed(db, now, {}, db)
  {
  }

  lemma LapsedSkip(db: Tables, now: Seconds, done: set<Prefix>, db': Tables, p: Prefix)
    requires Lapsed(db, now, done, db')
    requires forall r :: Holds(db, p, r) ==> !IsWanted(db, p) || db.decisions[r].expiresAt > now
    ensures Lapsed(db, now, done + {p}, db')
  {
    forall r | r in db.decisions
      ensures RunOut(db, now, done + {p}, r) <==> RunOut(db, now, done, r)
    {
      assert RunOut(db, now, done + {p}, r) && !RunOut(db, now, done, r) ==> Holds(db, p, r);
    }
  }

  lemma LapsedMark(db: Tables, now: Seconds, done: set<Prefix>, db': Tables, p: Prefix, id: int)
    requires Lapsed(db, now, done, db') && OneActive(db) && p !in done
    requires Holds(db, p, id) && IsWanted(db, p) && db.decisions[id].expiresAt <= now
    ensures id in db'.decisions && Lapsed(db, now, done + {p}, Marked(db', id, now))
  {
    forall r | r in db.decisions
      ensures RunOut(db, now, done + {p}, r) <==> RunOut(db, now, done, r) || r == id
    {
      assert RunOut(db, now, done + {p}, r) && !RunOut(db, now, done, r) ==> Holds(db, p, r);
    }
  }

  /** A row outside `done` is still as it was. */
  lemma LapsedRow(db: Tables, now: Seconds, done: set<Prefix>, db': Tables, p: Prefix, id: int)
    requires Lapsed(db, now, done, db') && Holds(db, p, id) && p !in done
    ensures Holds(db', p, id) && db'.decisions[id] == db.decisions[id] && (Busy(db', p) ==> Busy(db, p))
  {
    assert forall t :: OpenFor(db', t, p) ==> OpenFor(db, t, p);
  }

  // ----- Rows to remove -----

  /** A removal still names an active row of an object that is not wanted. */
  predicate RemovalReady(db: Tables, d: DecisionRecord) {
    d.id in db.decisions && db.decisions[d.id].token in db.alerts && d == ReadDecision(db, d.id) &&
    Holds(db, d.row.target, d.id) && d.row.target in db.objects && !db.objects[d.row.target].desired
  }

  ghost function RemovalTargets(removals: seq<DecisionRecord>): set<Prefix> {
    set d | d in removals :: d.row.target
  }

  ghost predicate RemovalsOk(db: Tables, done: set<Prefix>, removals: seq<DecisionRecord>) {
    (forall d :: d in removals ==> RemovalReady(db, d)) &&
    (forall i, j :: 0 <= i < j < |removals| ==> removals[i].row.target != removals[j].row.target) &&
    RemovalTargets(removals) == (set p | p in done && NeedsRemoval(db, p))
  }

  lemma RemovalsNothing(db: Tables)
    ensures RemovalsOk(db, {}, [])
  {
    assert RemovalTargets([]) == {};
  }

  lemma RemovalsSkip(db: Tables, done: set<Prefix>, removals: seq<DecisionRecord>, p: Prefix)
    requires RemovalsOk(db, done, removals) && !NeedsRemoval(db, p)
    ensures RemovalsOk(db, done + {p}, removals)
  {
    hide NeedsRemoval;
  }

  lemma RemovalsAdd(db: Tables, done: set<Prefix>, removals: seq<DecisionRecord>, d: DecisionRecord)
    requires RemovalsOk(db, done, removals) && RemovalReady(db, d) && d.row.target !in done
    ensures RemovalsOk(db, done + {d.row.target}, removals + [d])
  {
    var more := removals + [d];
    assert RemovalTargets(more) == RemovalTargets(removals) + {d.row.target};
    forall i | 0 <= i < |removals|
      ensures removals[i].row.target != d.row.target
    {
      assert removals[i].row.target in RemovalTargets(removals);
    }
    assert NeedsRemoval(db, d.row.target);
  }

  lemma {:induction false} RemovalCount(removals: seq<DecisionRecord>)
    requires forall i, j :: 0 <= i < j < |removals| ==> removals[i].row.target != removals[j].row.target
    ensures |RemovalTargets(removals)| == |removals|
  {
    if removals != [] {
      var n := |removals| - 1;
      RemovalCount(removals[..n]);
      assert removals == removals[..n] + [removals[n]];
      assert RemovalTargets(removals) == RemovalTargets(removals[..n]) + {removals[n].row.target};
      assert removals[n].row.target !in RemovalTargets(removals[..n]);
    }
  }

  // ----- Items ready to be sent -----

  /** The item can be journalled now. */
  ghost predicate ItemReady(db: Tables, key: GroupKey, it: Item) {
    KeyFor(db, it.target, key) && !Busy(db, it.target) &&
    match key.kind
    case Create => it.prior == None && NoActive(db, it.target)
    case Refresh => it.prior.Some? && Holds(db, it.target, it.prior.value)
    case _ => false
  }

  ghost predicate GroupReady(db: Tables, key: GroupKey, items: seq<Item>) {
    DistinctObjects(items) && forall it :: it in items ==> ItemReady(db, key, it)
  }

  lemma PlannedIsReady(db: Tables, now: Seconds, refreshBefore: Seconds, done: set<Prefix>, groups: Groups,
                       db': Tables, key: GroupKey)
    requires Quiescent(db) && OneActive(db) && Planned(db, now, refreshBefore, done, groups) &&
             Lapsed(db, now, done, db') && key in groups
    ensures GroupReady(db', key, groups[key])
  {
    hide Planned, Lapsed;
    forall it | it in groups[key]
      ensures ItemReady(db', key, it)
    {
      PlannedHere(db, now, refreshBefore, done, groups, key, it);
      PlannedItemIsReady(db, now, refreshBefore, done, db', key, it);
    }
    PlannedDistinct(db, now, refreshBefore, done, groups, key);
  }

  lemma PlannedHere(db: Tables, now: Seconds, refreshBefore: Seconds, done: set<Prefix>, groups: Groups,
                    key: GroupKey, it: Item)
    requires Planned(db, now, refreshBefore, done, groups) && key in groups && it in groups[key]
    ensures it.target in done && PlannedItem(db, now, refreshBefore, key, it)
  {
    hide PlannedItem, NeedsCreate, NeedsRefresh;
  }

  lemma PlannedDistinct(db: Tables, now: Seconds, refreshBefore: Seconds, done: set<Prefix>, groups: Groups,
                        key: GroupKey)
    requires Planned(db, now, refreshBefore, done, groups) && key in groups
    ensures DistinctObjects(groups[key]) && groups[key] != []
  {
    hide PlannedItem, NeedsCreate, NeedsRefresh;
  }

  lemma PlannedItemIsReady(db: Tables, now: Seconds, refreshBefore: Seconds, done: set<Prefix>, db': Tables,
                           key: GroupKey, it: Item)
    requires Quiescent(db) && OneActive(db) && Lapsed(db, now, done, db')
    requires it.target in done && PlannedItem(db, now, refreshBefore, key, it)
    ensures ItemReady(db', key, it)
  {
    hide Keeps;
    QuiescentNotBusy(db', it.target);
    if key.kind == Create {
      forall r | r in db'.decisions
        ensures !Holds(db', it.target, r)
      {
        if Holds(db, it.target, r) { assert RunOut(db, now, done, r); }
      }
    } else {
      var r := it.prior.value;
      var q :| Holds(db, it.target, q) && db.decisions[q].expiresAt > now &&
          !Keeps(db, it.target, q, now, refreshBefore);
      assert q == r;
      assert !RunOut(db, now, done, r);
    }
  }

  lemma ReadyStays(db: Tables, db': Tables, targets: set<Prefix>, key: GroupKey, it: Item)
    requires ItemReady(db, key, it) && Within(db, db', targets) && it.target !in targets
    ensures ItemReady(db', key, it)
  {
    hide Busy;
    WithinHolds(db, db', targets, it.target);
  }

  // ----- How the groups divide the work -----

  /** The objects of the groups with the given keys and kind. */
  ghost function Targets(groups: Groups, keys: set<GroupKey>, kind: OperationKind): set<Prefix> {
    set key, it | key in keys && key in groups && key.kind == kind && it in groups[key] :: it.target
  }

  lemma TargetsStep(groups: Groups, keys: set<GroupKey>, kind: OperationKind, key: GroupKey)
    requires key in groups
    ensures Targets(groups, keys + {key}, kind) ==
            Targets(groups, keys, kind) + if key.kind == kind then ItemObjects(groups[key]) else {}
  {
    var more := Targets(groups, keys + {key}, kind);
    forall p | p in ItemObjects(groups[key]) && key.kind == kind
      ensures p in more
    {
      var it :| it in groups[key] && it.target == p;
    }
    forall p | p in Targets(groups, keys, kind)
      ensures p in more
    {
      var k, it :| k in keys && k in groups && k.kind == kind && it in groups[k] && it.target == p;
      assert k in keys + {key};
    }
  }

  /** An object sits in one group only: the plan fixes its kind and its feed. */
  lemma OneGroup(db: Tables, now: Seconds, refreshBefore: Seconds, done: set<Prefix>, groups: Groups, k: GroupKey,
                 l: GroupKey, p: Prefix)
    requires OneActive(db) && refreshBefore > 0 && Planned(db, now, refreshBefore, done, groups) && k in groups &&
             l in groups
    requires p in ItemObjects(groups[k]) && p in ItemObjects(groups[l])
    ensures k == l
  {
    hide Planned;
    var it :| it in groups[k] && it.target == p;
    var jt :| jt in groups[l] && jt.target == p;
    PlannedHere(db, now, refreshBefore, done, groups, k, it);
    PlannedHere(db, now, refreshBefore, done, groups, l, jt);
    Partition(db, p, now, refreshBefore);
  }

  lemma GroupsDisjoint(db: Tables, now: Seconds, refreshBefore: Seconds, done: set<Prefix>, groups: Groups,
                       keys: set<GroupKey>, key: GroupKey)
    requires OneActive(db) && refreshBefore > 0 && Planned(db, now, refreshBefore, done, groups) && key in groups &&
             key !in keys
    ensures Targets(groups, keys, Create) !! ItemObjects(groups[key]) &&
            Targets(groups, keys, Refresh) !! ItemObjects(groups[key])
  {
    hide Planned, OneActive;
    forall p, kind | p in Targets(groups, keys, kind)
      ensures p !in ItemObjects(groups[key])
    {
      var k, it :| k in keys && k in groups && k.kind == kind && it in groups[k] && it.target == p;
      if p in ItemObjects(groups[key]) { OneGroup(db, now, refreshBefore, done, groups, k, key, p); }
    }
  }

  /** All groups together are the whole work. */
  lemma GroupsAreWork(db: Tables, now: Seconds, refreshBefore: Seconds, groups: Groups)
    requires OneActive(db) && refreshBefore > 0 && Planned(db, now, refreshBefore, db.objects.Keys, groups)
    ensures Targets(groups, groups.Keys, Create) == ToAdd(db, now)
    ensures Targets(groups, groups.Keys, Refresh) == ToRefresh(db, now, refreshBefore)
  {
    hide Keeps, NeedsCreate, NeedsRefresh, Planned, OneActive;
    forall key, it | key in groups && it in groups[key]
      ensures key.kind == Create ==> it.target in ToAdd(db, now)
      ensures key.kind == Refresh ==> it.target in ToRefresh(db, now, refreshBefore)
    {
      PlannedHere(db, now, refreshBefore, db.objects.Keys, groups, key, it);
    }
    forall p | p in ToAdd(db, now) || p in ToRefresh(db, now, refreshBefore)
      ensures p in ToAdd(db, now) ==> p in Targets(groups, groups.Keys, Create)
      ensures p in ToRefresh(db, now, refreshBefore) ==> p in Targets(groups, groups.Keys, Refresh)
    {
      PlannedSomewhere(db, now, refreshBefore, groups, p);
      var key :| key in groups && p in ItemObjects(groups[key]);
      var it :| it in groups[key] && it.target == p;
      PlannedHere(db, now, refreshBefore, db.objects.Keys, groups, key, it);
      Partition(db, p, now, refreshBefore);
    }
  }

  lemma PlannedSomewhere(db: Tables, now: Seconds, refreshBefore: Seconds, groups: Groups, p: Prefix)
    requires Planned(db, now, refreshBefore, db.objects.Keys, groups)
    requires p in ToAdd(db, now) || p in ToRefresh(db, now, refreshBefore)
    ensures InGroups(groups, p)
  {
    hide NeedsCreate, NeedsRefresh, PlannedItem;
  }

  // ----- A planned batch passes the journal's tests and the wire builder's -----

  /** The request the reconciler makes for a batch. */
  function BatchRequest(db: Tables, op: Operation): CreateRequest
    requires forall it :: it in op.items ==> it.target in db.objects
  {
    CreateRequest(op.feedName, op.token, op.duration,
      seq(|op.items|, i requires 0 <= i < |op.items| =>
        assert op.items[i] in op.items; InputFor(op.items[i].target, db.objects[op.items[i].target].scope)))
  }

  /**
   Whatever group the planning loop makes, each batch of at most batchSize items with a fresh well-formed token
   passes every check of `BeginOperation`, and its request passes the wire builder unchanged.
   */
  lemma PlannedBatchAccepted(cfg: Config, db: Tables, key: GroupKey, batch: seq<Item>, token: Token, now: Seconds)
    requires ValidConfig(cfg) && Catalog(db) && GroupReady(db, key, batch) && 1 <= |batch| <= cfg.batchSize
    requires ValidToken(token) && token !in db.operations
    ensures var op := Operation(token, key.kind, key.feedId, key.feedName, cfg.duration, Pending, batch, now);
            BeginFits(db, op) && WireFits(BatchRequest(db, op), BatchRequest(db, op).decisions)
  {
    hide ValidToken, IsSafePrefix, Busy, NoActive, InputFor, IsHost, IsValid;
    var op := Operation(token, key.kind, key.feedId, key.feedName, cfg.duration, Pending, batch, now);
    assert ItemReady(db, key, batch[0]);
    forall it | it in batch
      ensures ItemBegins(db, key.feedId, it) && ItemFits(key.kind, it)
    {
      assert ItemReady(db, key, it);
    }
    FeedNamed(db, key);
    BatchWire(db, op);
  }

  lemma FeedNamed(db: Tables, key: GroupKey)
    requires Catalog(db) && key.feedId in db.feeds && key.feedName == db.feeds[key.feedId].name
    ensures key.feedId > 0 && ValidFeedName(key.feedName) && |key.feedName| <= 64
  {
  }

  lemma BatchWire(db: Tables, op: Operation)
    requires Catalog(db) && DistinctObjects(op.items) && (forall it :: it in op.items ==> it.target in db.objects)
    requires ValidFeedName(op.feedName) && |op.feedName| <= 64 && ValidToken(op.token) &&
             MINUTE <= op.duration <= MAX_DURATION && 1 <= |op.items| <= 500
    ensures WireFits(BatchRequest(db, op), BatchRequest(db, op).decisions)
  {
    hide ValidToken, ValidFeedName, IsSafePrefix, InputFor, IsHost, IsValid, WireFits, FeedsOk;
    forall it | it in op.items ensures ObjectOk(db, it.target, db.objects[it.target]) {}
    var targets := seq(|op.items|, i requires 0 <= i < |op.items| => op.items[i].target);
    var scopes := seq(|op.items|, i requires 0 <= i < |op.items| =>
      assert op.items[i] in op.items; db.objects[op.items[i].target].scope);
    forall i | 0 <= i < |targets|
      ensures IsSafePrefix(targets[i]) && IsValid(targets[i]) && (scopes[i] == ScopeIP ==> IsHost(targets[i]))
    {
      assert op.items[i] in op.items;
    }
    BatchPassesWire(BatchRequest(db, op), targets, scopes);
  }
}
