/**
 internal/state: the store, whose transactions rewrite tables row by row and either commit as a
 whole or leave everything as it was. A call may also find the database unavailable.
 */
module StateStore {
  import opened Collections
  import opened Prefixes
  import opened Safety
  import opened Special
  import opened Orders
  import opened Planner
  import opened Database
  import opened Invariants
  import opened Prune
  import opened Retention
  import Grace

  /** `Refused` is the store's own contract error; `Unavailable` any failure of the database. */
  datatype StoreResult = Stored | Refused | Unavailable

  /** A decision row joined with its alert, as the list queries return it. */
  datatype DecisionRecord = DecisionRecord(id: int, alertId: int, row: DecisionRow)

  /** An active feed entry with its feed, as the planner reads it. */
  datatype StoredEntry = StoredEntry(feedId: int, feedName: string, prefix: Prefix, kind: Kind)

  predicate IsActiveEntry(db: Tables, k: EntryKey) {
    k in db.entries && db.entries[k].active && k.feedId in db.feeds && db.feeds[k.feedId].enabled
  }

  function ReadEntry(db: Tables, k: EntryKey): StoredEntry
    requires IsActiveEntry(db, k)
  {
    StoredEntry(k.feedId, db.feeds[k.feedId].name, k.prefix, k.kind)
  }

  /** A fixed total order: by feed name first, as the query orders its rows. */
  predicate EntryLess(a: StoredEntry, b: StoredEntry) {
    if a.feedName != b.feedName then StringLess(a.feedName, b.feedName)
    else if a.prefix != b.prefix then PrefixLess(a.prefix, b.prefix)
    else if a.kind != b.kind then KindRank(a.kind) < KindRank(b.kind)
    else a.feedId < b.feedId
  }

  /** Every entry of an enabled feed once, in the query's order. */
  ghost predicate ListsEntries(db: Tables, list: seq<StoredEntry>) {
    Ascending(list, EntryLess) &&
    forall e :: e in list <==> exists k :: k in db.entries && IsActiveEntry(db, k) && e == ReadEntry(db, k)
  }

  lemma EntryOrder()
    ensures StrictOrder(EntryLess)
    ensures forall a, b :: a == b || EntryLess(a, b) || EntryLess(b, a)
  {
    hide StringLess, PrefixLess;
    forall a: StoredEntry ensures !StringLess(a.feedName, a.feedName) { StringIrreflexive(a.feedName); }
    forall a, b, c | EntryLess(a, b) && EntryLess(b, c)
      ensures EntryLess(a, c)
    {
      if StringLess(a.feedName, b.feedName) &&
          StringLess(b.feedName, c.feedName) { StringTransitive(a.feedName, b.feedName, c.feedName); }
      PrefixOrder(a.prefix, b.prefix, c.prefix);
      StringIrreflexive(a.feedName);
      StringAsymmetric(a.feedName, b.feedName);
    }
    forall a: StoredEntry, b: StoredEntry
      ensures a == b || EntryLess(a, b) || EntryLess(b, a)
    {
      StringTotal(a.feedName, b.feedName);
      PrefixOrder(a.prefix, b.prefix, b.prefix);
      StringAsymmetric(a.feedName, b.feedName);
    }
  }

  lemma StringAsymmetric(a: string, b: string)
    ensures !(StringLess(a, b) && StringLess(b, a))
  {
    if StringLess(a, b) && StringLess(b, a) {
      StringTransitive(a, b, a);
      StringIrreflexive(a);
    }
  }

  lemma PrefixOrder(p: Prefix, q: Prefix, r: Prefix)
    ensures !PrefixLess(p, p) && (PrefixLess(p, q) && PrefixLess(q, r) ==> PrefixLess(p, r))
    ensures p == q || PrefixLess(p, q) || PrefixLess(q, p)
  {
  }

  /** The same feeds and entries are listed in the same order. */
  lemma EntriesDetermined(db: Tables, db': Tables, list: seq<StoredEntry>, list': seq<StoredEntry>)
    requires db'.entries == db.entries && db'.feeds == db.feeds && ListsEntries(db, list) && ListsEntries(db', list')
    ensures list == list'
  {
    EntryOrder();
    assert forall k :: IsActiveEntry(db, k) <==> IsActiveEntry(db', k);
    AscendingUnique(list, list', EntryLess);
  }

  /** An object with its sources' feed names, as the list query returns it. */
  datatype EnforcementRecord = EnforcementRecord(scope: Scope, desired: bool, primary: Option<int>,
      sources: set<(int, string)>)

  function ReadObject(db: Tables, p: Prefix): EnforcementRecord
    requires p in db.objects
  {
    var row := db.objects[p];
    EnforcementRecord(row.scope, row.desired, row.primary, set s | s in row.sources &&
        s.0 in db.feeds :: (s.0, db.feeds[s.0].name))
  }

  type RecordMap = map<Prefix, EnforcementRecord>

  function ReadObjects(db: Tables): RecordMap {
    map p | p in db.objects :: ReadObject(db, p)
  }

  function ReadOperation(db: Tables, t: Token): Operation
    requires t in db.operations && db.operations[t].feedId in db.feeds
  {
    var op := db.operations[t];
    Operation(t, op.kind, op.feedId, db.feeds[op.feedId].name, op.duration, op.status, op.items, op.startedAt)
  }

  function ReadDecision(db: Tables, id: int): DecisionRecord
    requires id in db.decisions && db.decisions[id].token in db.alerts
  {
    DecisionRecord(id, db.alerts[db.decisions[id].token].alertId, db.decisions[id])
  }

  predicate IsListed(db: Tables, t: Token) {
    t in db.operations && IsOpen(db.operations[t].status) && db.operations[t].feedId in db.feeds
  }

  predicate IsListedRow(db: Tables, statuses: set<DecisionStatus>, r: int) {
    r in db.decisions && db.decisions[r].status in statuses && db.decisions[r].token in db.alerts
  }

  /** The open operations, each once, in some order. */
  ghost predicate ListsOpen(db: Tables, ops: seq<Operation>) {
    (forall i :: 0 <= i < |ops| ==>
       ops[i].token in db.operations && db.operations[ops[i].token].feedId in db.feeds &&
       IsOpen(ops[i].status) && ops[i] == ReadOperation(db, ops[i].token)) &&
    (forall i, j :: 0 <= i < j < |ops| ==> ops[i].token != ops[j].token) &&
    forall t :: t in db.operations && IsOpen(db.operations[t].status) && db.operations[t].feedId in db.feeds ==>
      exists i :: 0 <= i < |ops| && ops[i].token == t
  }

  /** The rows with one of the given statuses, each once, in some order. */
  ghost predicate ListsDecisions(db: Tables, statuses: set<DecisionStatus>, list: seq<DecisionRecord>) {
    (forall i :: 0 <= i < |list| ==>
       list[i].id in db.decisions && db.decisions[list[i].id].token in db.alerts &&
       list[i].row.status in statuses && list[i] == ReadDecision(db, list[i].id)) &&
    (forall i, j :: 0 <= i < j < |list| ==> list[i].id != list[j].id) &&
    forall r :: r in db.decisions && db.decisions[r].status in statuses && db.decisions[r].token in db.alerts ==>
      exists i :: 0 <= i < |list| && list[i].id == r
  }

  /** The objects after the first `n` of a plan have been written over the stale ones. */
  ghost predicate Upserted(db: Tables, objects: seq<Object>, n: nat, now: Seconds, table: map<Prefix, ObjectRow>)
    requires n <= |objects|
  {
    table.Keys == db.objects.Keys + PlanPrefixes(objects[..n]) &&
    (forall i :: 0 <= i < n ==> table[objects[i].prefix] == RowOf(objects[i], now)) &&
    forall p :: p in db.objects && p !in PlanPrefixes(objects[..n]) ==> table[p] == StaleRow(db.objects[p], now)
  }

  lemma UpsertStep(db: Tables, objects: seq<Object>, n: nat, now: Seconds, table: map<Prefix, ObjectRow>)
    requires n < |objects| && DistinctPrefixes(objects) && Upserted(db, objects, n, now, table)
    ensures Upserted(db, objects, n + 1, now, table[objects[n].prefix := RowOf(objects[n], now)])
  {
    hide RowOf, StaleRow;
    assert objects[..n + 1] == objects[..n] + [objects[n]];
    assert PlanPrefixes(objects[..n + 1]) == PlanPrefixes(objects[..n]) + {objects[n].prefix};
    forall i | 0 <= i < n ensures objects[i].prefix != objects[n].prefix {}
  }

  lemma UpsertDone(db: Tables, objects: seq<Object>, now: Seconds, table: map<Prefix, ObjectRow>)
    requires Upserted(db, objects, |objects|, now, table)
    ensures PlanApplied(db, objects, now, db.(objects := table))
  {
    assert objects[..|objects|] == objects;
    forall o | o in objects
      ensures table[o.prefix] == RowOf(o, now)
    {
      var i :| 0 <= i < |objects| && objects[i] == o;
    }
  }

  lemma RecordedRows(db: Tables, token: Token, v: VerifiedAlert, now: Seconds, db': Tables)
    requires token in db.operations && Recorded(db, token, v, now, db')
    requires forall d :: d in v.decisions ==> DecisionFits(db, v.scenario, db.operations[token].duration, now, d)
    ensures forall d :: d in v.decisions ==>
              d.decisionId !in db.decisions && now < d.expiresAt <= now + db.operations[token].duration + 600 &&
              d.decisionId in db'.decisions && d.target in db.objects && d.scope == db.objects[d.target].scope &&
              db'.decisions[d.decisionId] == DecisionRow(
                d.target, token, v.scenario, d.scope, d.value, now, d.expiresAt, now, Active, None)
  {
    forall d | d in v.decisions ensures d.decisionId in NewIds(v) {}
  }

  lemma UpsertedRows(db: Tables, objects: seq<Object>, now: Seconds, table: map<Prefix, ObjectRow>)
    requires PlanApplied(db, objects, now, db.(objects := table))
    ensures forall p :: p in table ==>
              table[p].updatedAt == now &&
              ((exists o :: o in objects && o.prefix == p && table[p].desired == o.desired &&
                  table[p].scope == o.scope && table[p].suppression == o.suppression &&
                  table[p].primary == Some(o.primary.feedId)) ||
               (p in db.objects && !table[p].desired && table[p].suppression == SuppressedStale &&
                table[p].primary == None && table[p].scope == db.objects[p].scope))
  {
    forall p | p in table && p in PlanPrefixes(objects)
      ensures exists o :: o in objects && o.prefix == p && table[p] == RowOf(o, now)
    {
      var o :| o in objects && o.prefix == p;
      assert table[o.prefix] == RowOf(o, now);
    }
  }

  class Store {
    var db: Tables

    constructor (db: Tables)
      ensures this.db == db
    {
      this.db := db;
    }

    /** `records` is missing when the plan was committed but could not be read back. */
    method ApplyEnforcementPlan(objects: seq<Object>, now: Seconds) returns (r: StoreResult, records: Option<RecordMap>)
      modifies this
      ensures records.Some? ==> r == Stored && records.value == ReadObjects(db)
      ensures r == Stored ==> PlanFits(old(db), objects) && PlanApplied(old(db), objects, now, db)
      ensures r != Stored ==> db == old(db)
      ensures r == Refused ==> !PlanFits(old(db), objects)
      ensures r == Stored ==>
                forall p :: p in db.objects ==>
                  db.objects[p].updatedAt == now &&
                  ((exists o :: o in objects && o.prefix == p && db.objects[p].desired == o.desired &&
                      db.objects[p].scope == o.scope && db.objects[p].suppression == o.suppression &&
                      db.objects[p].primary == Some(o.primary.feedId)) ||
                   (p in old(db).objects && !db.objects[p].desired && db.objects[p].suppression == SuppressedStale &&
                    db.objects[p].primary == None && db.objects[p].scope == old(db).objects[p].scope))
    {
      hide ValidObject, SourcesFit, Upserted, PlanApplied;
      var seen: set<Prefix> := {};
      for i := 0 to |objects|
        invariant db == old(db)
        invariant seen == PlanPrefixes(objects[..i])
        invariant forall j :: 0 <= j < i ==> ValidObject(objects[j])
        invariant DistinctPrefixes(objects[..i])
      {
        assert objects[..i + 1] == objects[..i] + [objects[i]];
        assert objects[i] in objects;
        if !ValidObject(objects[i]) {
          return Refused, None;
        }
        if objects[i].prefix in seen {
          assert objects[i].prefix in PlanPrefixes(objects[..i]);
          return Refused, None;
        }
        seen := seen + {objects[i].prefix};
      }
      assert objects[..|objects|] == objects;
      var up: bool := *;
      if !up {
        return Unavailable, None;
      }
      var table := map p | p in db.objects :: StaleRow(db.objects[p], now);
      NothingUpserted(db, objects, now, table);
      for i := 0 to |objects|
        invariant db == old(db)
        invariant Upserted(db, objects, i, now, table)
        invariant forall j :: 0 <= j < i ==> SourcesFit(db, objects[j].contributors)
      {
        assert objects[i] in objects;
        if !SourcesFit(db, objects[i].contributors) {
          return Refused, None;
        }
        UpsertStep(db, objects, i, now, table);
        table := table[objects[i].prefix := RowOf(objects[i], now)];
      }
      UpsertDone(db, objects, now, table);
      UpsertedRows(db, objects, now, table);
      db := db.(objects := table);
      records := ListEnforcementObjects();
      return Stored, records;
    }

    method ListEnforcementObjects() returns (r: Option<RecordMap>)
      ensures r.Some? ==> r.value == ReadObjects(db)
      ensures r.Some? ==>
                r.value.Keys == db.objects.Keys &&
                forall p :: p in r.value ==>
                  r.value[p].scope == db.objects[p].scope && r.value[p].desired == db.objects[p].desired &&
                  r.value[p].primary == db.objects[p].primary
    {
      var up: bool := *;
      if up { return Some(ReadObjects(db)); } else { return None; }
    }

    method BeginOperation(op: Operation) returns (r: StoreResult)
      modifies this
      ensures r == Stored ==> BeginFits(old(db), op) && db == Begun(old(db), op)
      ensures r != Stored ==> db == old(db)
      ensures r == Refused ==> !BeginFits(old(db), op)
      ensures r == Stored ==>
                op.token !in old(db).operations && 1 <= op.duration <= 7 * 24 * 3600 && op.items != [] &&
                op.feedId in old(db).feeds &&
                (forall it :: it in op.items ==>
                   it.target in old(db).objects && old(db).objects[it.target].primary == Some(op.feedId) &&
                   (op.kind == Create ==> it.prior == None) && (op.kind == Refresh ==> it.prior.Some?) &&
                   (it.prior.Some? ==> Holds(old(db), it.target, it.prior.value))) &&
                db == old(db).(operations := old(db).operations[op.token := OperationRow(
                  op.kind, op.feedId, op.duration, Pending, op.items, op.startedAt, None)])
    {
      if !ValidToken(op.token) || op.feedId <= 0 || op.duration < 1 || op.duration > MAX_DURATION || op.items == [] {
        return Refused;
      }
      var seen: set<Prefix> := {};
      for i := 0 to |op.items|
        invariant forall j :: 0 <= j < i ==> op.items[j].target in seen
        invariant forall p :: p in seen ==> exists j :: 0 <= j < i && op.items[j].target == p
        invariant DistinctObjects(op.items[..i])
        invariant forall j :: 0 <= j < i ==> ItemFits(op.kind, op.items[j])
      {
        var it := op.items[i];
        assert it in op.items;
        if it.target in seen || !ItemFits(op.kind, it) {
          return Refused;
        }
        seen := seen + {it.target};
      }
      assert op.items[..|op.items|] == op.items;
      var up: bool := *;
      if !up {
        return Unavailable;
      }
      if op.feedId !in db.feeds {
        return Refused;
      }
      for i := 0 to |op.items|
        invariant forall j :: 0 <= j < i ==> ItemBegins(db, op.feedId, op.items[j])
      {
        if !ItemBegins(db, op.feedId, op.items[i]) {
          assert op.items[i] in op.items;
          return Refused;
        }
      }
      if op.token in db.operations {
        return Refused;
      }
      db := Begun(db, op);
      return Stored;
    }

    method OpenOperations() returns (r: Option<seq<Operation>>)
      ensures r.Some? ==> ListsOpen(db, r.value)
      ensures r.Some? ==> forall op :: op in r.value ==>
                op.token in db.operations && db.operations[op.token].feedId in db.feeds &&
                var row := db.operations[op.token];
                (row.status == Pending || row.status == Ambiguous || row.status == Verified) &&
                op == Operation(op.token, row.kind, row.feedId, db.feeds[row.feedId].name, row.duration, row.status,
                  row.items, row.startedAt)
    {
      var up: bool := *;
      if !up {
        return None;
      }
      var ops: seq<Operation> := [];
      var left := db.operations.Keys;
      while left != {}
        invariant left <= db.operations.Keys
        invariant forall i :: 0 <= i < |ops| ==>
          ops[i].token in db.operations && ops[i].token !in left && db.operations[ops[i].token].feedId in db.feeds &&
          IsOpen(ops[i].status) && ops[i] == ReadOperation(db, ops[i].token)
        invariant forall i, j :: 0 <= i < j < |ops| ==> ops[i].token != ops[j].token
        invariant forall t :: t in db.operations && t !in left && IsListed(db, t) ==>
          exists i :: 0 <= i < |ops| && ops[i].token == t
      {
        var t :| t in left;
        left := left - {t};
        if IsOpen(db.operations[t].status) && db.operations[t].feedId in db.feeds {
          ghost var before := ops;
          ops := ops + [ReadOperation(db, t)];
          assert ops[|ops| - 1].token == t;
          assert forall i :: 0 <= i < |before| ==> ops[i] == before[i];
        }
      }
      return Some(ops);
    }

    method ListDecisions(statuses: set<DecisionStatus>) returns (r: Option<seq<DecisionRecord>>)
      ensures r.Some? ==> ListsDecisions(db, statuses, r.value)
      ensures r.Some? ==> forall x :: x in r.value ==>
                x.id in db.decisions && x.row == db.decisions[x.id] && x.row.status in statuses &&
                x.row.token in db.alerts && x.alertId == db.alerts[x.row.token].alertId
    {
      var up: bool := *;
      if !up {
        return None;
      }
      var list: seq<DecisionRecord> := [];
      var left := db.decisions.Keys;
      while left != {}
        invariant left <= db.decisions.Keys
        invariant forall i :: 0 <= i < |list| ==>
          list[i].id in db.decisions && list[i].id !in left && db.decisions[list[i].id].token in db.alerts &&
          list[i].row.status in statuses && list[i] == ReadDecision(db, list[i].id)
        invariant forall i, j :: 0 <= i < j < |list| ==> list[i].id != list[j].id
        invariant forall x :: x in db.decisions && x !in left && IsListedRow(db, statuses, x) ==>
          exists i :: 0 <= i < |list| && list[i].id == x
      {
        var x := Pick(left);
        left := left - {x};
        if db.decisions[x].status in statuses && db.decisions[x].token in db.alerts {
          ghost var before := list;
          list := list + [ReadDecision(db, x)];
          assert list[|list| - 1].id == x;
          assert forall i :: 0 <= i < |before| ==> list[i] == before[i];
        }
      }
      return Some(list);
    }

    method CompleteOperation(token: Token, now: Seconds) returns (r: StoreResult)
      modifies this
      ensures r == Stored ==> CompleteFits(old(db), token) && db == Complete(old(db), token, now)
      ensures r != Stored ==> db == old(db)
      ensures r == Refused ==> !CompleteFits(old(db), token)
      ensures r == Stored ==>
                token in old(db).operations &&
                (old(db).operations[token].status == Verified || old(db).operations[token].status == Completed) &&
                db == old(db).(operations := old(db).operations[token :=
                  old(db).operations[token].(status := Completed, completedAt := Some(now))])
      ensures r == Stored && Journal(old(db)) && Closes(old(db), token, Completed) ==>
              Journal(db) && Frees(old(db), token, db)
    {
      hide Journal, Frees, Busy, PriorsRetired;
      var up: bool := *;
      if !up {
        return Unavailable;
      }
      if !CompleteFits(db, token) {
        return Refused;
      }
      if Journal(db) && Closes(db, token, Completed) { CloseFrees(db, token, Completed, Some(now)); }
      db := Complete(db, token, now);
      return Stored;
    }

    method SetOperationStatus(token: Token, status: OperationStatus, now: Seconds) returns (r: StoreResult)
      modifies this
      ensures r == Stored ==>
                (status == Ambiguous || status == Failed) && StatusFits(old(db), token) &&
                db == WithStatus(old(db), token, status, now)
      ensures r != Stored ==> db == old(db)
      ensures r == Refused ==> !(status == Ambiguous || status == Failed) || !StatusFits(old(db), token)
      ensures r == Stored ==>
                token in old(db).operations &&
                (old(db).operations[token].status == Pending || old(db).operations[token].status == Ambiguous) &&
                db == old(db).(operations := old(db).operations[token := old(db).operations[token].(
                  status := status, completedAt := if status == Failed then Some(now) else None)])
      ensures r == Stored && Journal(old(db)) ==> Journal(db)
      ensures r == Stored && Journal(old(db)) && status == Failed ==>
                Frees(old(db), token, db) && !StatusFits(db, token) && !CompleteFits(db, token)
      ensures r == Stored && status == Ambiguous ==> StatusFits(db, token) && forall p :: Busy(db, p) <==>
              Busy(old(db), p)
    {
      hide Journal, Frees, Busy;
      if status != Ambiguous && status != Failed {
        return Refused;
      }
      var up: bool := *;
      if !up {
        return Unavailable;
      }
      if !StatusFits(db, token) {
        return Refused;
      }
      if Journal(db) {
        CloseKeeps(db, token, status, if status == Failed then Some(now) else None);
        if status == Failed { CloseFrees(db, token, Failed, Some(now)); }
      }
      if status == Ambiguous { AmbiguousHolds(db, token); }
      db := WithStatus(db, token, status, now);
      return Stored;
    }

    method MarkDecisionExpired(id: int, now: Seconds) returns (r: StoreResult)
      modifies this
      ensures r == Stored ==> MarkFits(old(db), id) && db == Marked(old(db), id, now)
      ensures r != Stored ==> db == old(db)
      ensures r == Refused ==> !MarkFits(old(db), id)
      ensures r == Stored ==>
                id in old(db).decisions &&
                (old(db).decisions[id].status == Active || old(db).decisions[id].status == Expiring) &&
                db == old(db).(decisions := old(db).decisions[id :=
                  old(db).decisions[id].(status := Expired, verifiedAt := now)])
      ensures r == Stored ==> !MarkFits(db, id) && forall p, x :: x != id ==>
              (Holds(db, p, x) <==> Holds(old(db), p, x))
      ensures r == Stored && Journal(old(db)) ==> forall p :: Holds(old(db), p, id) ==> NoActive(db, p)
      ensures r == Stored && Journal(old(db)) && MarkGuard(old(db), id) ==> Journal(db)
    {
      hide Journal, NoActive, Busy;
      var up: bool := *;
      if !up {
        return Unavailable;
      }
      if !MarkFits(db, id) {
        return Refused;
      }
      if Journal(db) {
        MarkEmpties(db, id, now);
        if MarkGuard(db, id) { MarkKeeps(db, id, now); }
      }
      db := Marked(db, id, now);
      return Stored;
    }

    /** The store's tests on a verified alert, one decision at a time. */
    method CheckDecisions(op: OperationRow, v: VerifiedAlert, now: Seconds) returns (ok: bool)
      ensures ok <==>
                DistinctDecisions(v.decisions) &&
                forall d :: d in v.decisions ==>
                  d.target in ItemObjects(op.items) && DecisionFits(db, v.scenario, op.duration, now, d)
    {
      hide DecisionFits;
      var expected := set it | it in op.items :: it.target;
      assert expected == ItemObjects(op.items);
      var seenObjects: set<Prefix>, seenDecisions: set<int> := {}, {};
      for i := 0 to |v.decisions|
        invariant seenObjects == set j | 0 <= j < i :: v.decisions[j].target
        invariant seenDecisions == set j | 0 <= j < i :: v.decisions[j].decisionId
        invariant DistinctDecisions(v.decisions[..i])
        invariant forall j :: 0 <= j < i ==>
          v.decisions[j].target in expected && DecisionFits(db, v.scenario, op.duration, now, v.decisions[j])
      {
        var d := v.decisions[i];
        assert d in v.decisions;
        if d.target !in expected || !DecisionFits(db, v.scenario, op.duration, now, d) ||
           d.target in seenObjects || d.decisionId in seenDecisions {
          return false;
        }
        seenObjects := seenObjects + {d.target};
        seenDecisions := seenDecisions + {d.decisionId};
      }
      assert v.decisions[..|v.decisions|] == v.decisions;
      return true;
    }

    /** An operation already recorded is reported again without change; a failed one is refused. */
    method RecordVerifiedOperation(token: Token, v: VerifiedAlert, now: Seconds) returns (r: StoreResult)
      requires token in db.operations ==> DistinctObjects(db.operations[token].items) // the items' primary key
      modifies this
      ensures r == Stored && StatusFits(old(db), token) ==>
                RecordFits(old(db), token, v, now) && Recorded(old(db), token, v, now, db)
      ensures r == Stored && !StatusFits(old(db), token) ==> CompleteFits(old(db), token) && db == old(db)
      ensures r != Stored ==> db == old(db)
      ensures r == Refused && StatusFits(old(db), token) ==> !RecordFits(old(db), token, v, now)
      ensures r == Stored && StatusFits(old(db), token) ==>
                v.alertId > 0 && v.machineId != "" && db.operations[token].status == Verified &&
                db.alerts == old(db).alerts[token := AlertRow(v.alertId, v.machineId, v.scenario, now)] &&
                forall d :: d in v.decisions ==>
                  d.decisionId !in old(db).decisions && now < d.expiresAt &&
                  d.expiresAt <= now + old(db).operations[token].duration + 600 &&
                  d.decisionId in db.decisions && d.target in old(db).objects &&
                  d.scope == old(db).objects[d.target].scope &&
                  db.decisions[d.decisionId] == DecisionRow(
                    d.target, token, v.scenario, d.scope, d.value, now, d.expiresAt, now, Active, None)
    {
      hide DecisionFits, Inserted, Retired, Recorded, DistinctDecisions;
      if v.alertId <= 0 || v.machineId == "" {
        return Refused;
      }
      var up: bool := *;
      if !up {
        return Unavailable;
      }
      if token !in db.operations {
        return Refused;
      }
      var op := db.operations[token];
      if CompleteFits(db, token) {
        var known := exists x :: x in db.decisions && db.decisions[x].token == token;
        if known { return Stored; } else { return Refused; }
      }
      if !IsUnrecorded(op.status) || op.feedId !in db.feeds || v.scenario != Scenario(db.feeds[op.feedId].name) ||
         v.decisions == [] || |op.items| != |v.decisions| {
        return Refused;
      }
      var fits := CheckDecisions(op, v, now);
      var unused := token !in db.alerts && forall t :: t in db.alerts ==> db.alerts[t].alertId != v.alertId;
      var priors := forall it :: it in op.items ==> it.prior.Some? ==>
        it.prior.value in db.decisions && db.decisions[it.prior.value].target == it.target &&
        db.decisions[it.prior.value].status == Active;
      if !fits || !unused || !priors {
        return Refused;
      }
      forall d | d in v.decisions
        ensures d.decisionId !in db.decisions
      {
        FitsIsNew(db, v.scenario, op.duration, now, d);
      }
      var inserted := InsertDecisions(token, v, now);
      var rows := RetirePriors(op.items, v, token, now, inserted);
      RecordedFrom(db, token, v, now, inserted, rows);
      db := db.(
        operations := db.operations[token := op.(status := Verified)],
        alerts := db.alerts[token := AlertRow(v.alertId, v.machineId, v.scenario, now)],
        decisions := rows);
      RecordedRows(old(db), token, v, now, db);
      return Stored;
    }

    /** The entries of enabled feeds, joined with the feed's name. */
    method ListActiveEntries() returns (r: Option<seq<StoredEntry>>)
      ensures r.Some? ==> ListsEntries(db, r.value)
      ensures r.Some? ==> forall e :: e in r.value <==>
                exists k :: k in db.entries && db.entries[k].active &&
                            k.feedId in db.feeds && db.feeds[k.feedId].enabled &&
                            e == StoredEntry(k.feedId, db.feeds[k.feedId].name, k.prefix, k.kind)
    {
      hide EntryLess, Insert;
      var up: bool := *;
      if !up {
        return None;
      }
      EntryOrder();
      var list: seq<StoredEntry> := [];
      var left := db.entries.Keys;
      while left != {}
        invariant left <= db.entries.Keys
        invariant Ascending(list, EntryLess)
        invariant forall e :: e in list <==>
                  exists k :: k in db.entries && k !in left && IsActiveEntry(db, k) && e == ReadEntry(db, k)
      {
        var k :| k in left;
        left := left - {k};
        if IsActiveEntry(db, k) && ReadEntry(db, k) !in list {
          InsertAscends(ReadEntry(db, k), list, EntryLess);
          list := Insert(ReadEntry(db, k), list, EntryLess);
        }
      }
      return Some(list);
    }

    /** `validateSnapshot`. */
    method CheckSnapshot(list: seq<Grace.SnapshotEntry>, grace: int) returns (ok: bool)
      ensures ok <==> Grace.SnapshotFits(list, grace)
      ensures ok <==>
                1 <= grace <= 100 && (forall e :: e in list ==> MayBan(e.prefix, e.kind)) &&
                forall i, j :: 0 <= i < j < |list| ==>
                  (Masked(list[i].prefix), list[i].kind) != (Masked(list[j].prefix), list[j].kind)
    {
      hide Grace.EntryFits, Masked, MayBan;
      forall e: Grace.SnapshotEntry ensures Grace.EntryFits(e) <==> MayBan(e.prefix, e.kind) { Grace.FitsMeans(e); }
      if grace < 1 || grace > 100 {
        return false;
      }
      var seen: set<EntryKey> := {};
      for i := 0 to |list|
        invariant seen == set j | 0 <= j < i :: Grace.KeyOfEntry(0, list[j])
        invariant forall e :: e in list[..i] ==> Grace.EntryFits(e)
        invariant forall j, k :: 0 <= j < k < i ==> Grace.KeyOfEntry(0, list[j]) != Grace.KeyOfEntry(0, list[k])
      {
        assert list[..i + 1] == list[..i] + [list[i]];
        assert list[i] in list;
        if !Grace.EntryFits(list[i]) || Grace.KeyOfEntry(0, list[i]) in seen {
          return false;
        }
        seen := seen + {Grace.KeyOfEntry(0, list[i])};
      }
      assert list[..|list|] == list;
      return true;
    }

    /** Writes the snapshot's entries one by one, counting new and returning ones. */
    method UpsertEntries(feedId: int, list: seq<Grace.SnapshotEntry>, now: Seconds) returns (tx: Grace.Entries,
                         added: nat, reactivated: nat)
      requires Grace.SnapshotFits(list, 1)
      ensures Grace.Upserted(db.entries, feedId, Grace.PresentKeys(feedId, list), now, tx)
      ensures added == |Grace.AddedBy(db.entries, Grace.PresentKeys(feedId, list))|
      ensures reactivated == |Grace.ReactivatedBy(db.entries, Grace.PresentKeys(feedId, list))|
    {
      hide Grace.SnapshotFits, Masked, Grace.Upserted, Grace.PresentKeys;
      tx := Grace.Incremented(db.entries, feedId);
      added, reactivated := 0, 0;
      ghost var present: set<EntryKey> := {};
      Grace.NothingUpserted(db.entries, feedId, list, now);
      for i := 0 to |list|
        invariant present == Grace.PresentKeys(feedId, list[..i])
        invariant Grace.Upserted(db.entries, feedId, present, now, tx)
        invariant added == |Grace.AddedBy(db.entries, present)| &&
                  reactivated == |Grace.ReactivatedBy(db.entries, present)|
      {
        var key := Grace.KeyOfEntry(feedId, list[i]);
        Grace.PresentStep(feedId, list, i);
        Grace.UpsertMore(db.entries, feedId, present, now, tx, key);
        Grace.CountMore(db.entries, present, key);
        if key !in db.entries {
          added := added + 1;
        } else if !db.entries[key].active {
          reactivated := reactivated + 1;
        }
        tx := tx[key := EntryRow(now, 0, true)];
        present := present + {key};
      }
      assert list[..|list|] == list;
    }

    /** Active rows of the feed that the snapshot lacks. */
    method CountMissing(feedId: int, ghost present: set<EntryKey>, keys: set<EntryKey>) returns (n: nat)
      requires keys == present
      ensures n == |Grace.MissingFrom(db.entries, feedId, present)|
    {
      n := 0;
      var left := db.entries.Keys;
      ghost var missing: set<EntryKey> := {};
      while left != {}
        invariant left <= db.entries.Keys
        invariant missing == set k | k in db.entries && k !in left && k !in present && db.entries[k].active &&
                  k.feedId == feedId
        invariant n == |missing|
      {
        var k := Pick(left);
        left := left - {k};
        if k !in keys && k.feedId == feedId && db.entries[k].active {
          n := n + 1;
          missing := missing + {k};
        }
      }
      assert missing == Grace.MissingFrom(db.entries, feedId, present);
    }

    method ApplyFeedSnapshot(feedId: int, list: seq<Grace.SnapshotEntry>, grace: int, now: Seconds)
      returns (r: StoreResult, result: Grace.SnapshotResult)
      modifies this
      ensures r == Stored ==>
                Grace.SnapshotFits(list, grace) && feedId in old(db.feeds) &&
                db == old(db).(entries := Grace.Applied(old(db.entries), feedId, Grace.PresentKeys(feedId, list),
                    grace, now)) &&
                Grace.SnapshotCounted(old(db.entries), feedId, Grace.PresentKeys(feedId, list), grace, result)
      ensures r == Stored ==>
                db.entries == Grace.After(
                  old(db.entries), Grace.Snapshot(feedId, Grace.PresentKeys(feedId, list), now), grace)
      ensures r != Stored ==> db == old(db)
      ensures r == Refused ==> !(Grace.SnapshotFits(list, grace) && feedId in old(db.feeds))
      ensures r == Stored ==> Grace.SnapshotEffect(old(db.entries), feedId, list, grace, now, db.entries, result)
    {
      hide Masked, Grace.Upserted, Grace.Overdue, Grace.Deactivated, Grace.Applied, Grace.DeactivatedBy, Grace.AddedBy,
           Grace.ReactivatedBy, Grace.MissingFrom, Grace.SnapshotEffect;
      result := Grace.SnapshotResult(0, 0, 0, 0);
      var fits := CheckSnapshot(list, grace);
      if !fits {
        return Refused, result;
      }
      var up: bool := *;
      if !up {
        return Unavailable, result;
      }
      if feedId !in db.feeds {
        return Refused, result;
      }
      var tx, added, reactivated := UpsertEntries(feedId, list, now);
      var keys := set e | e in list :: Grace.KeyOfEntry(feedId, e);
      assert keys == Grace.PresentKeys(feedId, list);
      var missing := CountMissing(feedId, keys, keys);
      var overdue := Grace.Overdue(tx, feedId, grace);
      Grace.StepsApply(db.entries, feedId, keys, grace, now, tx);
      result := Grace.SnapshotResult(added, reactivated, missing, |overdue|);
      Grace.AppliedEffect(db.entries, feedId, list, grace, now, result);
      db := db.(entries := Grace.Deactivated(tx, overdue));
      return Stored, result;
    }

    /** Table by table, in the order the foreign keys allow; a retention or count out of range is refused. */
    method PruneHistory(now: Seconds, retention: Seconds, keep: int) returns (r: StoreResult, result: PruneResult)
      modifies this
      ensures r == Refused <==>
              !(now >= 0 && 3600 <= retention <= 10 * 365 * 24 * 3600 && 1 <= keep <= 1_000_000)
      ensures r == Stored ==> keep >= 1 && var cutoff := now - retention;
                db == Pruned(old(db), cutoff, keep) && result == PlanPrune(old(db), cutoff, keep) &&
                Retained(old(db), db, cutoff, keep) && CountsLost(old(db), db, result) &&
                forall grace: nat :: db.entries == Grace.After(old(db.entries), Grace.PruneEntries(cutoff), grace)
      ensures r != Stored ==> db == old(db)
    {
      hide OldRuns, Named, AlertUsed, ObjectUsed, Grace.After, Retained, CountsLost;
      result := PruneResult(0, 0, 0, 0, 0, 0);
      if now < 0 || retention < 3600 || retention > 10 * 365 * 24 * 3600 || keep < 1 || keep > 1_000_000 {
        return Refused, result;
      }
      var cutoff := now - retention;
      PruneRetains(db, cutoff, keep);
      PlanCounts(db, cutoff, keep);
      var up: bool := *;
      if !up {
        return Unavailable, result;
      }
      var tx := db;
      var oldRuns := OldRuns(tx.syncRuns, cutoff, keep);
      tx := tx.(syncRuns := tx.syncRuns - oldRuns);

      var oldOperations := set t | t in tx.operations && OldOperation(tx.operations[t], cutoff);
      tx := tx.(operations := tx.operations - oldOperations);

      var oldDecisions := set x | x in tx.decisions && OldDecision(tx.decisions[x], cutoff) && !Named(tx, {}, x);
      DecisionsPlanned(db, tx, cutoff, keep, oldDecisions);
      tx := tx.(decisions := DecisionsWithout(tx.decisions, oldDecisions));

      var oldAlerts := set t | t in tx.alerts && tx.alerts[t].createdAt < cutoff && !AlertUsed(tx, {}, t);
      AlertsPlanned(db, tx, cutoff, oldAlerts);
      tx := tx.(alerts := tx.alerts - oldAlerts);

      var oldObjects := set p | p in tx.objects && !tx.objects[p].desired && tx.objects[p].updatedAt < cutoff &&
          !ObjectUsed(tx, {}, {}, p);
      ObjectsPlanned(db, tx, cutoff, oldObjects);
      tx := tx.(objects := tx.objects - oldObjects);

      var oldEntries := set k | k in tx.entries && !tx.entries[k].active && tx.entries[k].lastSeen < cutoff;
      tx := tx.(entries := tx.entries - oldEntries);

      result := PruneResult(|oldRuns|, |oldOperations|, |oldDecisions|, |oldAlerts|, |oldObjects|, |oldEntries|);
      assert oldOperations == OldOperations(db, cutoff);
      assert oldEntries == OldEntries(db, cutoff);
      forall grace: nat
        ensures Pruned(db, cutoff, keep).entries == Grace.After(db.entries, Grace.PruneEntries(cutoff), grace)
      {
        Grace.PruneIsEvent(db, cutoff, keep, grace);
      }
      db := tx;
      r := Stored;
    }

    method InsertDecisions(token: Token, v: VerifiedAlert, now: Seconds) returns (rows: map<int, DecisionRow>)
      requires DistinctDecisions(v.decisions)
      requires forall d :: d in v.decisions ==> d.decisionId !in db.decisions
      ensures Inserted(db.decisions, token, v, now, rows)
    {
      rows := db.decisions;
      for i := 0 to |v.decisions|
        invariant rows.Keys == db.decisions.Keys + set j | 0 <= j < i :: v.decisions[j].decisionId
        invariant forall j :: 0 <= j < i ==> rows[v.decisions[j].decisionId] == NewDecision(token, v.decisions[j], now)
        invariant forall x :: x in db.decisions ==> rows[x] == db.decisions[x]
      {
        assert v.decisions[i] in v.decisions;
        rows := rows[v.decisions[i].decisionId := NewDecision(token, v.decisions[i], now)];
      }
      assert NewIds(v) == set j | 0 <= j < |v.decisions| :: v.decisions[j].decisionId;
    }

    /** Marks each replaced row expiring and points it at the new row of the same object. */
    method RetirePriors(items: seq<Item>, v: VerifiedAlert, token: Token, now: Seconds, inserted: map<int, DecisionRow>)
      returns (rows: map<int, DecisionRow>)
      requires DistinctDecisions(v.decisions) && Inserted(db.decisions, token, v, now, inserted)
      requires forall d :: d in v.decisions ==> d.decisionId !in db.decisions && d.target in ItemObjects(items)
      requires |items| == |v.decisions| && DistinctObjects(items)
      requires forall it :: it in items && it.prior.Some? ==>
                 it.prior.value in db.decisions && db.decisions[it.prior.value].target == it.target
      ensures Retired(db.decisions, items, v, |items|, inserted, rows)
    {
      hide Inserted;
      rows := inserted;
      EveryItemDecided(items, v.decisions);
      NothingRetired(db.decisions, items, v, token, now, inserted);
      for i := 0 to |items|
        invariant Retired(db.decisions, items, v, i, inserted, rows)
      {
        var it := items[i];
        assert it in items;
        if it.prior.Some? {
          var d :| d in v.decisions && d.target == it.target;
          RetireStep(db.decisions, items, v, i, token, now, inserted, rows, d);
          rows := rows[it.prior.value := rows[it.prior.value].(status := Expiring, replacedBy := Some(d.decisionId))];
        } else {
          RetireSkip(db.decisions, items, v, i, inserted, rows);
        }
      }
    }
  }

  /** The operation's objects are idle again, and for all others nothing changed. */
  ghost predicate Frees(db: Tables, token: Token, db': Tables) {
    token in db.operations &&
    forall p :: if p in ItemObjects(db.operations[token].items) then !Busy(db', p) else Busy(db', p) <==> Busy(db, p)
  }

  lemma CloseFrees(db: Tables, t: Token, status: OperationStatus, at: Option<Seconds>)
    requires Journal(db) && Closes(db, t, status) && (status == Completed || status == Failed)
    ensures Journal(Restatus(db, t, status, at)) && Frees(db, t, Restatus(db, t, status, at))
  {
    hide RowsOk, OperationsOk, AlertIdsUnique, OneActive, UnrecordedOk, VerifiedOk, ExpiringOk, CompletedOk;
    CloseKeeps(db, t, status, at);
    var db' := Restatus(db, t, status, at);
    assert forall s, p :: OpenFor(db', s, p) <==> s != t && OpenFor(db, s, p);
    forall p
      ensures if p in ItemObjects(db.operations[t].items) then !Busy(db', p) else Busy(db', p) <==> Busy(db, p)
    {
      if p in ItemObjects(db.operations[t].items) {
        assert OpenFor(db, t, p);
      } else if Busy(db, p) {
        var s :| OpenFor(db, s, p);
        assert OpenFor(db', s, p);
      }
    }
  }

  lemma AmbiguousHolds(db: Tables, t: Token)
    requires StatusFits(db, t)
    ensures forall p :: Busy(Restatus(db, t, Ambiguous, None), p) <==> Busy(db, p)
  {
    var db' := Restatus(db, t, Ambiguous, None);
    assert forall s, p :: OpenFor(db', s, p) <==> OpenFor(db, s, p);
    forall p
      ensures Busy(db', p) <==> Busy(db, p)
    {
      if Busy(db, p) { var s :| OpenFor(db, s, p); assert OpenFor(db', s, p); }
    }
  }

  lemma MarkEmpties(db: Tables, id: int, now: Seconds)
    requires Journal(db) && id in db.decisions
    ensures forall p :: Holds(db, p, id) ==> NoActive(Marked(db, id, now), p)
  {
    hide RowsOk, OperationsOk, AlertIdsUnique, OneOpen, UnrecordedOk, VerifiedOk, ExpiringOk, CompletedOk;
    var db' := Marked(db, id, now);
    assert forall p, r :: Holds(db', p, r) ==> Holds(db, p, r) && r != id;
  }

  ghost predicate Inserted(decisions: map<int, DecisionRow>, token: Token, v: VerifiedAlert, now: Seconds,
                           rows: map<int, DecisionRow>) {
    rows.Keys == decisions.Keys + NewIds(v) &&
    (forall d :: d in v.decisions ==> rows[d.decisionId] == NewDecision(token, d, now)) &&
    forall x :: x in decisions ==> rows[x] == decisions[x]
  }

  /** The decision delete, run after the operation delete, removes the planned rows. */
  lemma DecisionsPlanned(db: Tables, tx: Tables, cutoff: Seconds, keep: nat, gone: set<int>)
    requires tx.operations == db.operations - OldOperations(db, cutoff) && tx.decisions == db.decisions
    requires gone == set x | x in tx.decisions && OldDecision(tx.decisions[x], cutoff) && !Named(tx, {}, x)
    ensures gone == OldDecisions(db, cutoff)
  {
    hide OldOperations, Named;
    forall x
      ensures Named(tx, {}, x) <==> Named(db, OldOperations(db, cutoff), x)
    {
      NamedAfterDelete(db, cutoff, x);
      NamedDependsOnOperations(tx, db.(operations := db.operations - OldOperations(db, cutoff)), x);
    }
  }

  lemma AlertsPlanned(db: Tables, tx: Tables, cutoff: Seconds, gone: set<Token>)
    requires tx.decisions == DecisionsWithout(db.decisions, OldDecisions(db, cutoff)) && tx.alerts == db.alerts
    requires gone == set t | t in tx.alerts && tx.alerts[t].createdAt < cutoff && !AlertUsed(tx, {}, t)
    ensures gone == OldAlerts(db, cutoff)
  {
    hide OldDecisions, DecisionsWithout;
    forall t
      ensures AlertUsed(tx, {}, t) <==> AlertUsed(db, OldDecisions(db, cutoff), t)
    {
      AlertUsedAfterDelete(db, tx.decisions, OldDecisions(db, cutoff), t);
    }
  }

  lemma ObjectsPlanned(db: Tables, tx: Tables, cutoff: Seconds, gone: set<Prefix>)
    requires tx.operations == db.operations - OldOperations(db, cutoff) && tx.objects == db.objects
    requires tx.decisions == DecisionsWithout(db.decisions, OldDecisions(db, cutoff))
    requires gone == set p | p in tx.objects && !tx.objects[p].desired && tx.objects[p].updatedAt < cutoff &&
             !ObjectUsed(tx, {}, {}, p)
    ensures gone == OldObjects(db, cutoff)
  {
    hide OldDecisions, OldOperations, DecisionsWithout, ObjectUsed;
    forall p
      ensures ObjectUsed(tx, {}, {}, p) <==> ObjectUsed(db, OldOperations(db, cutoff), OldDecisions(db, cutoff), p)
    {
      ObjectUsedAfterDelete(db, tx, OldOperations(db, cutoff), OldDecisions(db, cutoff), p);
    }
  }

  lemma FitsIsNew(db: Tables, scenario: string, duration: Seconds, now: Seconds, d: VerifiedDecision)
    requires DecisionFits(db, scenario, duration, now, d)
    ensures d.decisionId !in db.decisions
  {
  }

  predicate PriorAmong(items: seq<Item>, n: nat, x: int)
    requires n <= |items|
  {
    exists i :: 0 <= i < n && items[i].prior == Some(x)
  }

  /** The rows after the first `n` items have retired what they replace. */
  ghost predicate Retired(decisions: map<int, DecisionRow>, items: seq<Item>, v: VerifiedAlert, n: nat,
                          inserted: map<int, DecisionRow>, rows: map<int, DecisionRow>)
    requires n <= |items|
  {
    rows.Keys == inserted.Keys &&
    (forall i, d :: 0 <= i < n && items[i].prior.Some? && d in v.decisions && d.target == items[i].target ==>
       items[i].prior.value in decisions && items[i].prior.value in rows &&
       rows[items[i].prior.value] == decisions[items[i].prior.value].(status := Expiring,
           replacedBy := Some(d.decisionId))) &&
    forall x :: x in inserted && !PriorAmong(items, n, x) ==> rows[x] == inserted[x]
  }

  lemma NothingRetired(decisions: map<int, DecisionRow>, items: seq<Item>, v: VerifiedAlert, token: Token, now: Seconds,
                       inserted: map<int, DecisionRow>)
    requires Inserted(decisions, token, v, now, inserted)
    ensures Retired(decisions, items, v, 0, inserted, inserted)
  {
  }

  lemma RetireSkip(decisions: map<int, DecisionRow>, items: seq<Item>, v: VerifiedAlert, n: nat,
                   inserted: map<int, DecisionRow>, rows: map<int, DecisionRow>)
    requires n < |items| && items[n].prior == None && Retired(decisions, items, v, n, inserted, rows)
    ensures Retired(decisions, items, v, n + 1, inserted, rows)
  {
    forall x | PriorAmong(items, n, x) ensures PriorAmong(items, n + 1, x) {}
    forall x | PriorAmong(items, n + 1, x) ensures PriorAmong(items, n, x) {}
  }

  lemma RetireStep(decisions: map<int, DecisionRow>, items: seq<Item>, v: VerifiedAlert, n: nat, token: Token,
                   now: Seconds,
                   inserted: map<int, DecisionRow>, rows: map<int, DecisionRow>, d: VerifiedDecision)
    requires n < |items| && items[n].prior.Some? && Retired(decisions, items, v, n, inserted, rows)
    requires DistinctObjects(items) && DistinctDecisions(v.decisions) && Inserted(decisions, token, v, now, inserted)
    requires forall it :: it in items && it.prior.Some? ==>
               it.prior.value in decisions && decisions[it.prior.value].target == it.target
    requires d in v.decisions && d.target == items[n].target
    ensures items[n].prior.value in rows
    ensures Retired(decisions, items, v, n + 1, inserted,
              rows[items[n].prior.value := rows[items[n].prior.value].(status := Expiring,
                  replacedBy := Some(d.decisionId))])
  {
    hide DistinctObjects, DistinctDecisions, Inserted, PriorAmong;
    var x := items[n].prior.value;
    assert items[n] in items;
    NewPrior(decisions, items, n);
    InsertedKeeps(decisions, token, v, now, inserted, x);
    assert rows[x] == decisions[x];
    var rows' := rows[x := rows[x].(status := Expiring, replacedBy := Some(d.decisionId))];
    forall i, e | 0 <= i < n + 1 && items[i].prior.Some? && e in v.decisions && e.target == items[i].target
      ensures items[i].prior.value in decisions && items[i].prior.value in rows'
      ensures rows'[items[i].prior.value] == decisions[items[i].prior.value].(status := Expiring,
              replacedBy := Some(e.decisionId))
    {
      assert items[i] in items;
      if i == n { OneDecision(v.decisions, d, e); }
    }
  }

  /** Distinct items replace distinct rows. */
  lemma NewPrior(decisions: map<int, DecisionRow>, items: seq<Item>, n: nat)
    requires n < |items| && items[n].prior.Some? && DistinctObjects(items)
    requires forall it :: it in items && it.prior.Some? ==>
               it.prior.value in decisions && decisions[it.prior.value].target == it.target
    ensures var x := items[n].prior.value;
            !PriorAmong(items, n, x) && PriorAmong(items, n + 1, x) && forall y :: PriorAmong(items, n, y) ==>
                PriorAmong(items, n + 1, y) && y != x
    ensures forall i :: 0 <= i < n ==> items[i].prior != items[n].prior
  {
    assert items[n] in items;
    forall i | 0 <= i < n
      ensures items[i].prior != items[n].prior
    {
      assert items[i] in items;
    }
  }

  lemma InsertedKeeps(decisions: map<int, DecisionRow>, token: Token, v: VerifiedAlert, now: Seconds,
                      inserted: map<int, DecisionRow>, x: int)
    requires Inserted(decisions, token, v, now, inserted) && x in decisions
    ensures x in inserted && inserted[x] == decisions[x]
  {
  }

  lemma OneDecision(ds: seq<VerifiedDecision>, d: VerifiedDecision, e: VerifiedDecision)
    requires DistinctDecisions(ds) && d in ds && e in ds && d.target == e.target
    ensures d == e
  {
  }

  lemma RecordedFrom(db: Tables, token: Token, v: VerifiedAlert, now: Seconds, inserted: map<int, DecisionRow>,
                     rows: map<int, DecisionRow>)
    requires token in db.operations
    requires Inserted(db.decisions, token, v, now, inserted)
    requires Retired(db.decisions, db.operations[token].items, v, |db.operations[token].items|, inserted, rows)
    requires forall it :: it in db.operations[token].items && it.prior.Some? ==> it.prior.value in db.decisions
    requires forall d :: d in v.decisions ==> d.decisionId !in db.decisions
    ensures Recorded(db, token, v, now, db.(
              operations := db.operations[token := db.operations[token].(status := Verified)],
              alerts := db.alerts[token := AlertRow(v.alertId, v.machineId, v.scenario, now)],
              decisions := rows))
  {
    var items := db.operations[token].items;
    forall x | PriorAmong(items, |items|, x)
      ensures x in Olds(items)
    {
      var i :| 0 <= i < |items| && items[i].prior == Some(x);
      assert items[i] in items;
    }
    forall x | x in Olds(items)
      ensures x in db.decisions
    {
    }
    forall it, d | it in items && it.prior.Some? && d in v.decisions && d.target == it.target
      ensures rows[it.prior.value] == db.decisions[it.prior.value].(status := Expiring,
              replacedBy := Some(d.decisionId))
    {
      var i :| 0 <= i < |items| && items[i] == it;
    }
  }

  lemma NothingUpserted(db: Tables, objects: seq<Object>, now: Seconds, table: map<Prefix, ObjectRow>)
    requires table == map p | p in db.objects :: StaleRow(db.objects[p], now)
    ensures Upserted(db, objects, 0, now, table)
  {
    assert PlanPrefixes(objects[..0]) == {};
  }
}
