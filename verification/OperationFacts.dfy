/**
 What carrying one journalled operation to its end does: the steps of internal/reconcile/reconcile.go
 that read a remote alert again, retire replaced rows, and leave every other operation alone.
 */
module OperationFacts {
  import opened Prefixes
  import opened Database
  import opened Invariants
  import opened Remote
  import opened Protocol
  import opened ProtocolLaws
  import opened StateStore
  import opened Lapi
  import opened Verification
  import opened Effects

  /** Only the request count moved, by at least the number of requests that can change the remote. */
  ghost predicate Spent(a: Report, b: Report, writes: seq<Write>, writes': seq<Write>) {
    b == a.(requests := b.requests) && a.requests <= b.requests && writes <= writes' &&
    |writes'| - |writes| <= b.requests - a.requests
  }

  lemma SpentSelf(a: Report, writes: seq<Write>)
    ensures Spent(a, a, writes, writes)
  {
  }

  lemma SpentTrans(a: Report, b: Report, c: Report, u: seq<Write>, v: seq<Write>, w: seq<Write>)
    requires Spent(a, b, u, v) && Spent(b, c, v, w)
    ensures Spent(a, c, u, w)
  {
  }

  // ----- Worlds passed through -----

  ghost predicate Extends(a: seq<Step>, b: seq<Step>) { a <= b }

  /** One step at most was added. */
  ghost predicate Steps(a: seq<Step>, b: seq<Step>) { a <= b && |b| <= |a| + 1 && b != [] }

  lemma ExtendsAt(a: seq<Step>, b: seq<Step>)
    requires Extends(a, b)
    ensures |a| <= |b| && forall k :: 0 <= k < |a| ==> b[k] == a[k]
  {
  }

  lemma ExtendsSelf(a: seq<Step>)
    ensures Extends(a, a)
  {
  }

  lemma ExtendsTrans(a: seq<Step>, b: seq<Step>, c: seq<Step>)
    requires Extends(a, b) && Extends(b, c)
    ensures Extends(a, c) && |a| <= |c|
    ensures forall k :: 0 <= k < |a| ==> c[k] == a[k]
  {
  }

  predicate OpenIn(db: Tables, token: Token) { token in db.operations && IsOpen(db.operations[token].status) }

  /** From `from` up to `to` the trace passes only through worlds with these operations. */
  ghost predicate Steady(tr: seq<Step>, from: int, to: int, operations: map<Token, OperationRow>) {
    0 <= from && to <= |tr| && forall k :: from <= k < to ==> tr[k].world.db.operations == operations
  }

  /** From `from` up to `to` the trace passes only through worlds in which the operation is open. */
  ghost predicate Working(tr: seq<Step>, from: int, to: int, token: Token) {
    0 <= from && to <= |tr| && forall k :: from <= k < to ==> OpenIn(tr[k].world.db, token)
  }

  lemma SteadyStep(start: seq<Step>, a: seq<Step>, b: seq<Step>, operations: map<Token, OperationRow>)
    requires Extends(start, a) && Steps(a, b) && Steady(a, |start|, |a|, operations)
    requires b[|b| - 1].world.db.operations == operations
    ensures Extends(start, b) && Steady(b, |start|, |b|, operations)
  {
    forall k | |start| <= k < |a| ensures b[k] == a[k] {}
  }

  lemma SteadyJoin(start: seq<Step>, a: seq<Step>, b: seq<Step>, operations: map<Token, OperationRow>)
    requires Extends(start, a) && Extends(a, b) && Steady(a, |start|, |a|, operations) &&
             Steady(b, |a|, |b|, operations)
    ensures Extends(start, b) && Steady(b, |start|, |b|, operations)
  {
    forall k | |start| <= k < |a| ensures b[k] == a[k] {}
  }

  lemma SteadyWorks(tr: seq<Step>, from: int, to: int, operations: map<Token, OperationRow>, token: Token)
    requires Steady(tr, from, to, operations) && token in operations && IsOpen(operations[token].status)
    ensures Working(tr, from, to, token)
  {
  }

  lemma WorkingStep(start: seq<Step>, a: seq<Step>, b: seq<Step>, token: Token)
    requires Extends(start, a) && Steps(a, b) && Working(a, |start|, |a|, token)
    ensures Extends(start, b) && Working(b, |start|, |b| - 1, token)
    ensures OpenIn(b[|b| - 1].world.db, token) ==> Working(b, |start|, |b|, token)
  {
    forall k | |start| <= k < |a| ensures b[k] == a[k] {}
  }

  lemma WorkingJoin(start: seq<Step>, a: seq<Step>, b: seq<Step>, token: Token)
    requires Extends(start, a) && Extends(a, b) && Working(a, |start|, |a|, token) && Working(b, |a|, |b| - 1, token)
    ensures Extends(start, b) && Working(b, |start|, |b| - 1, token)
  {
    forall k | |start| <= k < |a| ensures b[k] == a[k] {}
  }

  lemma WorkingNone(tr: seq<Step>, token: Token)
    ensures Extends(tr, tr) && Working(tr, |tr|, |tr|, token) && Working(tr, |tr|, |tr| - 1, token)
  {
  }

  lemma WorkingLess(tr: seq<Step>, from: int, token: Token)
    requires Working(tr, from, |tr|, token)
    ensures Working(tr, from, |tr| - 1, token)
  {
  }

  lemma UnrecordedIsOpen(db: Tables, token: Token)
    requires StatusFits(db, token)
    ensures OpenIn(db, token)
  {
  }

  lemma MarkedOperations(db: Tables, id: int, now: Seconds)
    requires id in db.decisions
    ensures Marked(db, id, now).operations == db.operations
  {
  }

  /** From `from` up to `to` every world of the trace still has something open. */
  ghost predicate NotYet(tr: seq<Step>, from: int, to: int) {
    0 <= from && to <= |tr| && forall k :: from <= k < to ==> !Quiescent(tr[k].world.db)
  }

  /** The first world from `from` on in which nothing is open. */
  ghost predicate FirstQuiet(tr: seq<Step>, from: int, at: int) {
    from <= at < |tr| && NotYet(tr, from, at) && Quiescent(tr[at].world.db)
  }

  lemma FirstQuietStays(a: seq<Step>, b: seq<Step>, from: int, at: int)
    requires FirstQuiet(a, from, at) && Extends(a, b)
    ensures FirstQuiet(b, from, at) && b[at] == a[at]
  {
    forall k | from <= k < at ensures b[k] == a[k] {}
  }

  lemma BusyNone(tr: seq<Step>)
    requires tr != []
    ensures NotYet(tr, |tr| - 1, |tr| - 1)
  {
  }

  /** One more operation was worked on, from the last world of `a`, and open in all worlds but perhaps the last. */
  lemma NotYetJoin(a: seq<Step>, b: seq<Step>, from: nat, token: Token)
    requires a != [] && Extends(a, b) && from <= |a| - 1 && NotYet(a, from, |a| - 1)
    requires OpenIn(a[|a| - 1].world.db, token) && Working(b, |a|, |b| - 1, token)
    ensures NotYet(b, from, |b| - 1)
  {
    forall k | from <= k < |b| - 1
      ensures !Quiescent(b[k].world.db)
    {
      if k < |a| - 1 {
        assert b[k] == a[k];
      } else if k == |a| - 1 {
        assert b[k] == a[k];
        OpenNotQuiescent(a[k].world.db, token);
      } else {
        OpenNotQuiescent(b[k].world.db, token);
      }
    }
  }

  lemma OpenNotQuiescent(db: Tables, token: Token)
    requires OpenIn(db, token)
    ensures !Quiescent(db)
  {
  }

  lemma SteadyNone(tr: seq<Step>, operations: map<Token, OperationRow>)
    ensures Extends(tr, tr) && Steady(tr, |tr|, |tr|, operations)
  {
  }

  /** The action is a read whose reply still shows the row. */
  ghost predicate ReadShows(cfg: Config, db: Tables, id: int, a: Action) {
    a.ReadAlert? && a.reply.Some? && StillShows(cfg, db, id, a.reply.value)
  }

  lemma ShowsIs(cfg: Config, db: Tables, d: DecisionRecord, remote: WireAlert, i: nat)
    requires d.id in db.decisions && db.decisions[d.id].token in db.alerts && d == ReadDecision(db, d.id)
    requires remote.id == d.alertId && remote.machineId == cfg.machineId && remote.scenario == d.row.scenario
    requires i < |remote.decisions| && ShowsRow(d.id, d.row, remote.decisions[i])
    requires forall j :: 0 <= j < |remote.decisions| && remote.decisions[j].id == d.id ==> j == i
    ensures StillShows(cfg, db, d.id, remote)
  {
  }

  /** The one decision with the given id; None if there is none or more than one. */
  method FindDecision(decisions: seq<WireDecision>, id: int) returns (matched: Option<nat>)
    ensures matched.Some? ==>
              matched.value < |decisions| && decisions[matched.value].id == id &&
              forall j :: 0 <= j < |decisions| && decisions[j].id == id ==> j == matched.value
    ensures matched == None ==>
              (forall j :: 0 <= j < |decisions| ==> decisions[j].id != id) ||
              exists i, j :: 0 <= i < j < |decisions| && decisions[i].id == id == decisions[j].id
  {
    matched := None;
    for i := 0 to |decisions|
      invariant matched == None ==> forall j :: 0 <= j < i ==> decisions[j].id != id
      invariant matched.Some? ==> matched.value < i && decisions[matched.value].id == id
      invariant matched.Some? ==> forall j :: 0 <= j < i && decisions[j].id == id ==> j == matched.value
    {
      if decisions[i].id == id {
        if matched.Some? {
          return None;
        }
        matched := Some(i);
      }
    }
  }

  /** The objects of open operations. */
  ghost function BusyObjects(db: Tables): set<Prefix> {
    set p | p in db.objects && Busy(db, p)
  }

  ghost function ObjectsOf(ops: seq<Operation>): set<Prefix> {
    if ops == [] then {} else ObjectsOf(ops[..|ops| - 1]) + ItemObjects(ops[|ops| - 1].items)
  }

  lemma NoObjectsYet(ops: seq<Operation>)
    ensures ObjectsOf(ops[..0]) == {}
  {
  }

  lemma {:induction false} ObjectsOfMeans(ops: seq<Operation>, p: Prefix)
    ensures p in ObjectsOf(ops) <==> exists j :: 0 <= j < |ops| && p in ItemObjects(ops[j].items)
  {
    if ops != [] {
      ObjectsOfMeans(ops[..|ops| - 1], p);
      if p in ObjectsOf(ops[..|ops| - 1]) {
        var j :| 0 <= j < |ops| - 1 && p in ItemObjects(ops[..|ops| - 1][j].items);
        assert ops[j] == ops[..|ops| - 1][j];
      }
      forall j | 0 <= j < |ops| && p in ItemObjects(ops[j].items)
        ensures p in ObjectsOf(ops)
      {
        if j < |ops| - 1 { assert ops[..|ops| - 1][j] == ops[j]; }
      }
    }
  }

  lemma ObjectsStep(db: Tables, ops: seq<Operation>, i: nat)
    requires Journal(db) && StillOpen(db, ops, 0) && i < |ops|
    ensures |ObjectsOf(ops[..i + 1])| == |ObjectsOf(ops[..i])| + |ops[i].items|
  {
    hide RowsOk, AlertIdsUnique, OneActive, UnrecordedOk, VerifiedOk, ExpiringOk, CompletedOk;
    assert ops[..i + 1][..i] == ops[..i];
    ItemCount(ops[i].items);
    forall p | p in ObjectsOf(ops[..i])
      ensures p !in ItemObjects(ops[i].items)
    {
      ObjectsOfMeans(ops[..i], p);
      var j :| 0 <= j < i && p in ItemObjects(ops[..i][j].items);
      assert OpenFor(db, ops[j].token, p);
      assert p in ItemObjects(ops[i].items) ==> OpenFor(db, ops[i].token, p);
    }
  }

  lemma ObjectsAreBusy(db: Tables, ops: seq<Operation>)
    requires Journal(db) && StillOpen(db, ops, 0)
    ensures ObjectsOf(ops) == BusyObjects(db)
  {
    hide RowsOk, AlertIdsUnique, OneActive, OneOpen, UnrecordedOk, VerifiedOk, ExpiringOk, CompletedOk, ObjectsOf;
    forall p
      ensures p in ObjectsOf(ops) <==> p in BusyObjects(db)
    {
      ObjectsOfMeans(ops, p);
      if p in ObjectsOf(ops) {
        var j :| 0 <= j < |ops| && p in ItemObjects(ops[j].items);
        assert OpenFor(db, ops[j].token, p);
      }
      if Busy(db, p) {
        var t :| OpenFor(db, t, p);
        var j :| 0 <= j < |ops| && ops[j].token == t;
      }
    }
  }

  /** The operations from `i` on are exactly the open ones, unchanged. */
  ghost predicate StillOpen(db: Tables, ops: seq<Operation>, i: nat) {
    (forall j, k :: 0 <= j < k < |ops| ==> ops[j].token != ops[k].token) &&
    (forall j :: i <= j < |ops| ==> IsCurrent(db, ops[j]) && IsOpen(ops[j].status)) &&
    forall t :: t in db.operations && IsOpen(db.operations[t].status) ==>
        exists j :: i <= j < |ops| && ops[j].token == t
  }

  lemma ListedAreCurrent(db: Tables, ops: seq<Operation>)
    requires Journal(db) && ListsOpen(db, ops)
    ensures StillOpen(db, ops, 0) && (Quiescent(db) ==> ops == [])
  {
    assert ops != [] ==> ops[0].token in db.operations && IsOpen(db.operations[ops[0].token].status);
    hide RowsOk, AlertIdsUnique, OneActive, OneOpen, UnrecordedOk, VerifiedOk, ExpiringOk, CompletedOk;
  }

  lemma StillOpenBusy(db: Tables, ops: seq<Operation>, i: nat)
    requires i < |ops| && StillOpen(db, ops, i)
    ensures IsCurrent(db, ops[i]) && IsOpen(ops[i].status) && OpenIn(db, ops[i].token)
  {
  }

  lemma StillOpenNone(db: Tables, ops: seq<Operation>)
    requires StillOpen(db, ops, |ops|)
    ensures Quiescent(db)
  {
  }

  lemma StillOpenStep(db: Tables, ops: seq<Operation>, i: nat, db': Tables)
    requires i < |ops| && StillOpen(db, ops, i) && Handled(db, ops[i], db') &&
             !IsOpen(db'.operations[ops[i].token].status)
    ensures StillOpen(db', ops, i + 1)
  {
    forall t | t in db'.operations && IsOpen(db'.operations[t].status)
      ensures exists j :: i + 1 <= j < |ops| && ops[j].token == t
    {
      assert t in db.operations && IsOpen(db.operations[t].status);
      var j :| i <= j < |ops| && ops[j].token == t;
    }
    forall j | i + 1 <= j < |ops|
      ensures IsCurrent(db', ops[j])
    {
      assert ops[i].token != ops[j].token;
    }
  }

  lemma HandledKeepsCatalog(db: Tables, op: Operation, db': Tables)
    requires Handled(db, op, db')
    ensures SameCatalog(db, db') && op.token in db'.operations
  {
  }

  /** The replaced rows fade one by one, and the operation completes if all are gone. */
  ghost predicate FinishedVia(db: Tables, op: Operation, now: Seconds, ok: bool, mid: Tables, db': Tables) {
    Fading(db, op.items, now, mid) && op.token in mid.operations &&
    db' == if ok then Complete(mid, op.token, now) else mid
  }

  /** The operation as the journal has it now. */
  ghost predicate IsCurrent(db: Tables, op: Operation) {
    op.token in db.operations && db.operations[op.token].feedId in db.feeds && op == ReadOperation(db, op.token)
  }

  ghost predicate AllWanted(records: RecordMap, items: seq<Item>) {
    forall it :: it in items ==> it.target in records && records[it.target].desired
  }

  ghost predicate AllDone(db: Tables, op: Operation, floor: Seconds) {
    forall it :: it in op.items ==> ItemDone(db, op.token, op.feedName, it, floor)
  }

  /** A new row ends after this: against the mock's remote, no sooner than a full duration from now. */
  function Floor(cfg: Config, now: Seconds, duration: Seconds): Seconds {
    if cfg.honest then now + duration - 1 else now
  }

  /** The alert is this program's, and its bans all end at the given time. */
  ghost predicate EndsAt(s: Server, a: int, until: Seconds) {
    a in s.mine && a in s.alerts && forall i :: 0 <= i < |s.alerts[a].bans| ==> s.alerts[a].bans[i].until == until
  }

  /** Whatever the items replaced is in force no longer. */
  ghost predicate PriorsLifted(s: Server, clock: Seconds, items: seq<Item>) {
    forall it :: it in items && it.prior.Some? ==> NotLive(s, clock, it.prior.value)
  }

  lemma CreatedOnlyLive(cfg: Config, s: Server, clock: Seconds, scenario: string, token: Token, duration: Seconds,
                        inputs: seq<DecisionInput>)
    requires NoLiveAlert(s, clock, token)
    ensures OnlyLive(Created(cfg.machineId, s, clock, scenario, token, duration, inputs), clock, token, s.nextAlert)
  {
    var s' := Created(cfg.machineId, s, clock, scenario, token, duration, inputs);
    forall a | LiveFor(s', clock, a, token) && a != s.nextAlert
      ensures LiveFor(s, clock, a, token)
    {
    }
  }

  lemma EndStays(cfg: Config, tokens: set<Token>, s: Server, clock: Seconds, s': Server, clock': Seconds, a: int,
                 until: Seconds)
    requires EndsAt(s, a, until) && Interferes(cfg.machineId, tokens, s, clock, s', clock')
    ensures EndsAt(s', a, until)
  {
    hide ServerOk;
  }

  lemma VerifiedInTime(cfg: Config, op: Operation, remote: WireAlert, records: RecordMap, now: Seconds,
                       v: VerifiedAlert)
    requires Verifies(cfg, op, remote, records, now, v)
    ensures forall d :: d in v.decisions ==> d.expiresAt > now
  {
    forall d | d in v.decisions
      ensures d.expiresAt > now
    {
      var i :| 0 <= i < |v.decisions| && v.decisions[i] == d;
      assert Attests(cfg, records, v.scenario, now, remote.decisions[i], v.decisions[i]);
    }
  }

  lemma FloorHolds(cfg: Config, op: Operation, s: Server, clock: Seconds, a: int, until: Seconds, remote: WireAlert,
                   records: RecordMap, now: Seconds, v: VerifiedAlert)
    requires Verifies(cfg, op, remote, records, now, v) && now + op.duration <= until
    requires cfg.honest ==> EndsAt(s, a, until) && remote == View(a, s.alerts[a])
    ensures forall d :: d in v.decisions ==> d.expiresAt > Floor(cfg, now, op.duration)
  {
    VerifiedInTime(cfg, op, remote, records, now, v);
    forall d | d in v.decisions
      ensures d.expiresAt > Floor(cfg, now, op.duration)
    {
      var i :| 0 <= i < |v.decisions| && v.decisions[i] == d;
      assert Attests(cfg, records, v.scenario, now, remote.decisions[i], v.decisions[i]);
    }
  }

  /** Only the operation's own row and its own objects were touched. */
  ghost predicate Handled(db: Tables, op: Operation, db': Tables) {
    Within(db, db', ItemObjects(op.items)) && OthersSame(db, db', op.token) &&
    op.token in db'.operations && db'.operations[op.token].items == op.items
  }

  lemma LiveIsInWindow(cfg: Config, w: World, op: Operation, a: int)
    requires Inv(cfg, w) && cfg.honest && IsCurrent(w.db, op) && LiveFor(w.server, w.clock, a, op.token)
    ensures InWindow(w.server, w.clock, Scenario(op.feedName), a) &&
            w.server.alerts[a].scenarioHash == TokenHash(op.token)
  {
    hide Journal, Catalog, Owned, RowsBacked, OneLiveAlert, UnrecordedUntouched, BanIdsUnique, Foreign;
    assert MineOk(cfg.machineId, w.tokens, w.clock, w.server.alerts[a]);
  }

  lemma HandledSelf(db: Tables, op: Operation)
    requires IsCurrent(db, op)
    ensures Handled(db, op, db)
  {
    WithinSelf(db, ItemObjects(op.items));
  }

  lemma OthersSelf(db: Tables, token: Token)
    ensures OthersSame(db, db, token)
  {
  }

  lemma RecordedOperation(db: Tables, op: Operation, v: VerifiedAlert, now: Seconds, db': Tables, floor: Seconds)
    requires forall d :: d in v.decisions ==> d.expiresAt > floor
    requires Journal(db) && IsCurrent(db, op) && Records(db, op.token, v, now, db')
    ensures Handled(db, op, db') && db'.operations[op.token].status == Verified && AllDone(db', op, floor)
  {
    hide Journal, Records, Within, OthersSame, ItemDone;
    RecordWithin(db, op.token, v, now, db');
    forall it | it in op.items
      ensures ItemDone(db', op.token, op.feedName, it, floor)
    {
      RecordDoes(db, op.token, v, now, db', it, floor);
    }
  }

  lemma FinishHandles(db: Tables, op: Operation, now: Seconds, mid: Tables)
    requires Journal(db) && op.token in db.operations && db.operations[op.token].items == op.items
    requires db.operations[op.token].status == Verified && Fading(db, op.items, now, mid)
    ensures Handled(db, op, mid) && op.token in mid.operations && Handled(db, op, Complete(mid, op.token, now))
  {
    hide Fading, RowsOk, AlertIdsUnique, OneActive, OneOpen, UnrecordedOk, VerifiedOk, ExpiringOk, CompletedOk, Within;
    FadingWithin(db, op.items, now, mid);
    FadingKeepsOperations(db, op.items, now, mid);
    RestatusWithin(mid, op.token, Completed, Some(now));
    var targets := ItemObjects(op.items);
    WithinTrans(db, mid, Complete(mid, op.token, now), targets, {});
    assert targets + {} == targets;
  }

  lemma FinishEffects(db: Tables, op: Operation, recorded: Tables, now: Seconds, mid: Tables, floor: Seconds)
    requires Journal(recorded) && Handled(db, op, recorded) && recorded.operations[op.token].status == Verified
    requires AllDone(recorded, op, floor) && Fading(recorded, op.items, now, mid)
    ensures Handled(db, op, mid) && AllDone(mid, op, floor)
    ensures op.token in mid.operations && Handled(db, op, Complete(mid, op.token, now)) &&
            AllDone(Complete(mid, op.token, now), op, floor)
  {
    hide Journal, Fading, Within, ItemDone;
    FinishHandles(recorded, op, now, mid);
    var targets := ItemObjects(op.items);
    var final := Complete(mid, op.token, now);
    WithinTrans(db, recorded, mid, targets, targets);
    WithinTrans(db, recorded, final, targets, targets);
    assert targets + targets == targets;
    forall it | it in op.items
      ensures ItemDone(mid, op.token, op.feedName, it, floor) && ItemDone(final, op.token, op.feedName, it, floor)
    {
      FadingDone(recorded, op.items, now, mid, op.token, op.feedName, it, floor);
      CompleteDone(mid, op.token, op.feedName, it, now, floor);
    }
  }

  lemma CompleteDone(db: Tables, token: Token, feedName: string, it: Item, now: Seconds, floor: Seconds)
    requires token in db.operations && ItemDone(db, token, feedName, it, floor)
    ensures ItemDone(Complete(db, token, now), token, feedName, it, floor)
  {
    var r :| IsReplacement(db, token, it.target, r) && db.decisions[r].scenario == Scenario(feedName) &&
             db.decisions[r].scope == db.objects[it.target].scope &&
             db.decisions[r].value == ObjectValue(it.target, db.objects[it.target].scope) &&
             db.decisions[r].expiresAt > floor;
    assert IsReplacement(Complete(db, token, now), token, it.target, r);
  }

  predicate PriorGone(db: Tables, it: Item) {
    it.prior.Some? ==> it.prior.value in db.decisions && !IsLive(db.decisions[it.prior.value].status)
  }

  /** The item's old row was expiring and has been marked, or was not live any more. */
  ghost predicate FinishedItem(db: Tables, it: Item, now: Seconds, db': Tables) {
    if it.prior.Some? && it.prior.value in db.decisions && db.decisions[it.prior.value].status == Expiring
    then db' == Marked(db, it.prior.value, now)
    else db' == db && PriorGone(db, it)
  }

  method FindRow(list: seq<DecisionRecord>, id: int) returns (r: Option<DecisionRecord>)
    ensures r.Some? ==> r.value in list && r.value.id == id
    ensures r == None ==> forall i :: 0 <= i < |list| ==> list[i].id != id
  {
    for i := 0 to |list|
      invariant forall j :: 0 <= j < i ==> list[j].id != id
    {
      if list[i].id == id {
        return Some(list[i]);
      }
    }
    return None;
  }

  lemma LiveRow(db: Tables, list: seq<DecisionRecord>, id: int, found: Option<DecisionRecord>)
    requires ListsDecisions(db, {Active, Expiring}, list) && id in db.decisions && db.decisions[id].token in db.alerts
    requires found.Some? ==> found.value in list && found.value.id == id
    requires found == None ==> forall i :: 0 <= i < |list| ==> list[i].id != id
    ensures found == None <==> !IsLive(db.decisions[id].status)
    ensures found.Some? ==> found.value == ReadDecision(db, id)
  {
    if found.Some? {
      var i :| 0 <= i < |list| && list[i] == found.value;
    }
  }

  lemma FadingSelf(db: Tables, items: seq<Item>, now: Seconds)
    ensures Fading(db, items, now, db)
  {
  }

  lemma FadingKeepsOperations(db: Tables, items: seq<Item>, now: Seconds, db': Tables)
    requires Fading(db, items, now, db')
    ensures db'.operations == db.operations && SameCatalog(db, db') && db'.alerts == db.alerts
  {
  }

  lemma FadingOn(db: Tables, items: seq<Item>, now: Seconds, mid: Tables, it: Item, db': Tables)
    requires Fading(db, items, now, mid) && it in items && FinishedItem(mid, it, now, db')
    ensures Fading(db, items, now, db') && PriorGone(db', it)
  {
    if it.prior.Some? && it.prior.value in mid.decisions && mid.decisions[it.prior.value].status == Expiring {
      FadingStep(db, items, now, mid, it.prior.value);
    }
  }

  lemma GoneStays(db: Tables, it: Item, other: Item, now: Seconds, db': Tables)
    requires PriorGone(db, it) && FinishedItem(db, other, now, db')
    ensures PriorGone(db', it)
  {
  }

  lemma AllGone(db: Tables, items: seq<Item>)
    requires forall i :: 0 <= i < |items| ==> PriorGone(db, items[i])
    ensures PriorsRetired(db, items)
  {
  }
}
