/**
 The tables of migrations/001_initial.sql as finite maps, and what each transaction of
 internal/state/enforcement_repository.go does to them.

 A surrogate row id is replaced by the UNIQUE column it stands for: an object by its prefix,
 an alert by its operation token, a decision by its LAPI decision id. Foreign keys forbid
 deleting a referenced row, so a reference means the same under either key.
 */
module Database {
  import opened Prefixes
  import opened Safety
  import opened Planner

  type Token = string

  /** Times are Unix seconds, as the store keeps them. */
  type Seconds = int

  const MINUTE: Seconds := 60
  const MAX_DURATION: Seconds := 7 * 24 * 3600
  const ORIGIN := "crowdshield"

  /** The text of a decision value; rendering an address or a prefix is injective. */
  datatype Text = AddrText(addr: Addr) | CidrText(prefix: Prefix) | OtherText(text: string)

  datatype OperationKind = Create | Refresh | Expire | Recover

  datatype OperationStatus = Pending | Verified | Completed | Failed | Ambiguous

  datatype DecisionStatus = Active | Expiring | Expired | Orphaned

  datatype Item = Item(target: Prefix, prior: Option<int>)

  datatype Operation = Operation(
    token: Token, kind: OperationKind, feedId: int, feedName: string,
    duration: Seconds, status: OperationStatus, items: seq<Item>, startedAt: Seconds)

  datatype VerifiedDecision = VerifiedDecision(
    target: Prefix, decisionId: int, scenario: string, scope: Scope, value: Text, expiresAt: Seconds)

  datatype VerifiedAlert = VerifiedAlert(
    alertId: int, machineId: string, scenario: string, decisions: seq<VerifiedDecision>)

  datatype FeedRow = FeedRow(name: string, enabled: bool)

  datatype EntryKey = EntryKey(feedId: int, prefix: Prefix, kind: Kind)

  datatype EntryRow = EntryRow(lastSeen: Seconds, missingRuns: nat, active: bool)

  datatype ObjectRow = ObjectRow(
    scope: Scope, desired: bool, suppression: Suppression,
    primary: Option<int>, sources: set<(int, Kind)>, updatedAt: Seconds)

  datatype OperationRow = OperationRow(
    kind: OperationKind, feedId: int, duration: Seconds, status: OperationStatus,
    items: seq<Item>, startedAt: Seconds, completedAt: Option<Seconds>)

  datatype AlertRow = AlertRow(alertId: int, machineId: string, scenario: string, createdAt: Seconds)

  datatype DecisionRow = DecisionRow(
    target: Prefix, token: Token, scenario: string, scope: Scope, value: Text,
    createdAt: Seconds, expiresAt: Seconds, verifiedAt: Seconds,
    status: DecisionStatus, replacedBy: Option<int>)

  datatype SyncRun = SyncRun(startedAt: Seconds, completedAt: Option<Seconds>, terminal: bool)

  datatype Tables = Tables(
    feeds: map<int, FeedRow>, entries: map<EntryKey, EntryRow>,
    objects: map<Prefix, ObjectRow>, operations: map<Token, OperationRow>,
    alerts: map<Token, AlertRow>, decisions: map<int, DecisionRow>,
    syncRuns: map<int, SyncRun>)

  function Scenario(feedName: string): string { "crowdshield/" + feedName }

  /** A scenario names one feed. */
  lemma ScenarioNamesFeed(a: string, b: string)
    ensures Scenario(a) == Scenario(b) <==> a == b
    ensures Scenario(a) == "crowdshield/" + a
  {
    assert Scenario(a)[12..] == a && Scenario(b)[12..] == b;
  }

  function ScopeText(scope: Scope): string {
    match scope case ScopeIP => "Ip" case ScopeRange => "Range"
  }

  /** The value a decision on `p` must carry: the bare address, or the prefix. */
  function ObjectValue(p: Prefix, scope: Scope): Text {
    if scope == ScopeIP && p.Prefix? then AddrText(Base(p)) else CidrText(p)
  }

  predicate IsOpen(s: OperationStatus) { s == Pending || s == Ambiguous || s == Verified }

  predicate IsUnrecorded(s: OperationStatus) { s == Pending || s == Ambiguous }

  predicate IsLive(s: DecisionStatus) { s == Active || s == Expiring }

  // ----- Identifiers -----

  predicate SlugChar(c: char) { 'a' <= c <= 'z' || '0' <= c <= '9' }

  /** `^[a-z0-9](?:[a-z0-9-]*[a-z0-9])?$` */
  predicate ValidFeedName(s: string) {
    s != "" && SlugChar(s[0]) && SlugChar(s[|s| - 1]) && forall c :: c in s ==> SlugChar(c) || c == '-'
  }

  /** `^[a-f0-9]{32}$` */
  predicate ValidToken(t: Token) {
    |t| == 32 && forall c :: c in t ==> 'a' <= c <= 'f' || '0' <= c <= '9'
  }

  // ----- ApplyEnforcementPlan -----

  predicate ValidContributor(k: Contributor) {
    k.feedId > 0 && ValidFeedName(k.feedName) && (k.kind == KindIP || k.kind == KindRange)
  }

  predicate ValidObject(o: Object) {
    IsSafePrefix(Masked(o.prefix)) && Masked(o.prefix) == o.prefix && o.contributors != [] &&
    (o.scope == ScopeIP ==> IsHost(o.prefix)) &&
    (o.desired <==> o.suppression == SuppressedNone) &&
    (forall k :: k in o.contributors ==> ValidContributor(k)) &&
    exists k :: k in o.contributors && k.feedId == o.primary.feedId && k.kind == o.primary.kind
  }

  function SourceSet(contributors: seq<Contributor>): set<(int, Kind)> {
    set k | k in contributors :: (k.feedId, k.kind)
  }

  /** The constraints of the source table: known feeds, one row per feed and kind. */
  predicate SourcesFit(db: Tables, contributors: seq<Contributor>) {
    (forall k :: k in contributors ==> k.feedId in db.feeds) &&
    forall i, j :: 0 <= i < j < |contributors| ==>
      (contributors[i].feedId, contributors[i].kind) != (contributors[j].feedId, contributors[j].kind)
  }

  predicate DistinctPrefixes(objects: seq<Object>) {
    forall i, j :: 0 <= i < j < |objects| ==> objects[i].prefix != objects[j].prefix
  }

  predicate PlanFits(db: Tables, objects: seq<Object>) {
    DistinctPrefixes(objects) &&
    forall o :: o in objects ==> ValidObject(o) && SourcesFit(db, o.contributors)
  }

  function RowOf(o: Object, now: Seconds): ObjectRow {
    ObjectRow(o.scope, o.desired, o.suppression, Some(o.primary.feedId), SourceSet(o.contributors), now)
  }

  function StaleRow(row: ObjectRow, now: Seconds): ObjectRow {
    row.(desired := false, suppression := SuppressedStale, primary := None, updatedAt := now)
  }

  function PlanPrefixes(objects: seq<Object>): set<Prefix> {
    set o | o in objects :: o.prefix
  }

  /** Planned objects take the plan's row; every other object becomes stale. */
  ghost predicate PlanApplied(db: Tables, objects: seq<Object>, now: Seconds, db': Tables) {
    db' == db.(objects := db'.objects) &&
    db'.objects.Keys == db.objects.Keys + PlanPrefixes(objects) &&
    (forall o :: o in objects ==> db'.objects[o.prefix] == RowOf(o, now)) &&
    forall p :: p in db.objects && p !in PlanPrefixes(objects) ==> db'.objects[p] == StaleRow(db.objects[p], now)
  }

  // ----- BeginOperation -----

  predicate ItemFits(kind: OperationKind, it: Item) {
    (kind == Create ==> it.prior == None) && (kind == Refresh ==> it.prior.Some?)
  }

  predicate DistinctObjects(items: seq<Item>) {
    forall i, j :: 0 <= i < j < |items| ==> items[i].target != items[j].target
  }

  predicate ValidOperation(op: Operation) {
    ValidToken(op.token) && op.feedId > 0 && 1 <= op.duration <= MAX_DURATION && op.items != [] &&
    DistinctObjects(op.items) && forall it :: it in op.items ==> ItemFits(op.kind, it)
  }

  predicate ItemBegins(db: Tables, feedId: int, it: Item) {
    it.target in db.objects && db.objects[it.target].primary == Some(feedId) &&
    (it.prior.Some? ==>
       it.prior.value in db.decisions && db.decisions[it.prior.value].target == it.target &&
       db.decisions[it.prior.value].status == Active)
  }

  predicate BeginFits(db: Tables, op: Operation) {
    ValidOperation(op) && op.feedId in db.feeds && op.token !in db.operations &&
    forall it :: it in op.items ==> ItemBegins(db, op.feedId, it)
  }

  function Begun(db: Tables, op: Operation): Tables {
    db.(operations := db.operations[op.token :=
      OperationRow(op.kind, op.feedId, op.duration, Pending, op.items, op.startedAt, None)])
  }

  // ----- RecordVerifiedOperation -----

  ghost function ItemObjects(items: seq<Item>): set<Prefix> {
    set it | it in items :: it.target
  }

  ghost function Olds(items: seq<Item>): set<int> {
    set it | it in items && it.prior.Some? :: it.prior.value
  }

  predicate DecisionFits(db: Tables, scenario: string, duration: Seconds, now: Seconds, d: VerifiedDecision) {
    d.target in db.objects && d.decisionId > 0 && d.decisionId !in db.decisions && d.scenario == scenario &&
    d.scope == db.objects[d.target].scope && d.value == ObjectValue(d.target, d.scope) &&
    now < d.expiresAt <= now + duration + 10 * MINUTE
  }

  predicate DistinctDecisions(ds: seq<VerifiedDecision>) {
    (forall i, j :: 0 <= i < j < |ds| ==> ds[i].target != ds[j].target) &&
    (forall i, j :: 0 <= i < j < |ds| ==> ds[i].decisionId != ds[j].decisionId)
  }

  /** The store's own tests, with the UNIQUE columns of the alert and decision tables. */
  ghost predicate RecordFits(db: Tables, token: Token, v: VerifiedAlert, now: Seconds) {
    token in db.operations && IsUnrecorded(db.operations[token].status) && v.alertId > 0 && v.machineId != "" &&
    var op := db.operations[token];
    op.feedId in db.feeds && v.scenario == Scenario(db.feeds[op.feedId].name) && v.decisions != [] &&
    |op.items| == |v.decisions| && DistinctDecisions(v.decisions) &&
    (forall d :: d in v.decisions ==>
       d.target in ItemObjects(op.items) && DecisionFits(db, v.scenario, op.duration, now, d)) &&
    token !in db.alerts && (forall t :: t in db.alerts ==> db.alerts[t].alertId != v.alertId) &&
    forall it :: it in op.items && it.prior.Some? ==>
      it.prior.value in db.decisions && db.decisions[it.prior.value].target == it.target &&
      db.decisions[it.prior.value].status == Active
  }

  function NewDecision(token: Token, d: VerifiedDecision, now: Seconds): DecisionRow {
    DecisionRow(d.target, token, d.scenario, d.scope, d.value, now, d.expiresAt, now, Active, None)
  }

  ghost function NewIds(v: VerifiedAlert): set<int> {
    set d | d in v.decisions :: d.decisionId
  }

  /** The decision is for the item's object, and the item replaces a known row. */
  predicate Replaces(db: Tables, it: Item, d: VerifiedDecision) {
    it.prior.Some? && d.target == it.target && it.prior.value in db.decisions
  }

  /** One active row per verified decision; each replaced row is expiring and points at its replacement. */
  ghost predicate Recorded(db: Tables, token: Token, v: VerifiedAlert, now: Seconds, db': Tables)
    requires token in db.operations
  {
    var op := db.operations[token];
    db' == db.(
      operations := db.operations[token := op.(status := Verified)],
      alerts := db.alerts[token := AlertRow(v.alertId, v.machineId, v.scenario, now)],
      decisions := db'.decisions) &&
    db'.decisions.Keys == db.decisions.Keys + NewIds(v) &&
    (forall d :: d in v.decisions ==> db'.decisions[d.decisionId] == NewDecision(token, d, now)) &&
    (forall it, d :: it in op.items && d in v.decisions && Replaces(db, it, d) ==>
       db'.decisions[it.prior.value] ==
       db.decisions[it.prior.value].(status := Expiring, replacedBy := Some(d.decisionId))) &&
    forall r :: r in db.decisions && r !in Olds(op.items) ==> db'.decisions[r] == db.decisions[r]
  }

  // ----- The remaining transactions -----

  predicate CompleteFits(db: Tables, token: Token) {
    token in db.operations && (db.operations[token].status == Verified || db.operations[token].status == Completed)
  }

  function Complete(db: Tables, token: Token, now: Seconds): Tables
    requires token in db.operations
  {
    db.(operations := db.operations[token := db.operations[token].(status := Completed, completedAt := Some(now))])
  }

  predicate StatusFits(db: Tables, token: Token) {
    token in db.operations && IsUnrecorded(db.operations[token].status)
  }

  function WithStatus(db: Tables, token: Token, status: OperationStatus, now: Seconds): Tables
    requires token in db.operations
  {
    db.(operations := db.operations[token := db.operations[token].(
      status := status, completedAt := if status == Failed then Some(now) else None)])
  }

  predicate MarkFits(db: Tables, id: int) {
    id in db.decisions && IsLive(db.decisions[id].status)
  }

  function Marked(db: Tables, id: int, now: Seconds): Tables
    requires id in db.decisions
  {
    db.(decisions := db.decisions[id := db.decisions[id].(status := Expired, verifiedAt := now)])
  }
}
