/**
 The parts of internal/reconcile/reconcile.go that read but change nothing: what a remote alert
 must show before it is recorded, and the lookups the planning loop makes.
 */
module Verification {
  import opened Collections
  import opened Prefixes
  import opened Safety
  import opened Planner
  import opened Database
  import opened Invariants
  import opened Remote
  import opened Protocol
  import opened StateStore
  import opened Lapi

  datatype ReconcileError = ErrContract | ErrState | ErrLapi | ErrOwnership | ErrToken

  datatype Outcome = Ok | Err(error: ReconcileError)

  datatype Report = Report(
    added: nat, refreshed: nat, removed: nat, recovered: nat, rejected: nat, skipped: nat, requests: nat)

  /** The end of a decision: a given time, or a remaining length no longer than was asked for. */
  function DecisionExpiry(e: Expiry, now: Seconds, longest: Seconds): Option<Seconds> {
    match e
    case Until(at) => Some(at)
    case Remaining(length) => if 0 <= length <= longest then Some(now + length) else None
    case Unreadable => None
  }

  /** The verified decision `d` says of the remote decision `x` what the reconciler demands of it. */
  predicate Attests(cfg: Config, records: RecordMap, scenario: string, now: Seconds, x: WireDecision,
                    d: VerifiedDecision) {
    d.decisionId == x.id > 0 && x.origin == ORIGIN && x.kind == "ban" && d.scenario == x.scenario == scenario &&
    d.target in records && d.scope == records[d.target].scope && x.scope == ScopeText(d.scope) &&
    d.value == x.value == ObjectValue(d.target, d.scope) &&
    DecisionExpiry(x.expiry, now, cfg.duration) == Some(d.expiresAt) && d.expiresAt > now
  }

  /** The header is this machine's, for this feed and token; decisions and items are in bijection. */
  ghost predicate Verifies(cfg: Config, op: Operation, remote: WireAlert, records: RecordMap, now: Seconds,
                           v: VerifiedAlert) {
    v.alertId == remote.id > 0 && v.machineId == remote.machineId == cfg.machineId &&
    v.scenario == remote.scenario == Scenario(op.feedName) && remote.scenarioHash == TokenHash(op.token) &&
    |v.decisions| == |remote.decisions| == |op.items| &&
    (forall i :: 0 <= i < |v.decisions| ==>
        Attests(cfg, records, v.scenario, now, remote.decisions[i], v.decisions[i])) &&
    DistinctTargets(v.decisions) && DecisionObjects(v.decisions) == ItemObjects(op.items)
  }

  /** The scope and value each item must show, mapped back to its object. */
  method ExpectedValues(items: seq<Item>, records: RecordMap) returns (r: Option<map<DecisionInput, Prefix>>)
    ensures r == None <==> exists it :: it in items && it.target !in records
    ensures r.Some? ==> forall x :: x in r.value ==>
                          r.value[x] in ItemObjects(items) && r.value[x] in records &&
                          x == InputFor(r.value[x], records[r.value[x]].scope)
    ensures r.Some? ==> forall it :: it in items ==>
            it.target in records && InputFor(it.target, records[it.target].scope) in r.value
  {
    hide InputFor;
    var expected: map<DecisionInput, Prefix> := map[];
    for i := 0 to |items|
      invariant forall j :: 0 <= j < i ==>
                items[j].target in records && InputFor(items[j].target, records[items[j].target].scope) in expected
      invariant forall x :: x in expected ==>
        expected[x] in ItemObjects(items) && expected[x] in records &&
        x == InputFor(expected[x], records[expected[x]].scope)
    {
      var p := items[i].target;
      assert items[i] in items;
      if p !in records {
        return None;
      }
      expected := expected[InputFor(p, records[p].scope) := p];
    }
    return Some(expected);
  }

  /** One remote decision against what is expected. */
  method VerifyDecision(cfg: Config, records: RecordMap, expected: map<DecisionInput, Prefix>, scenario: string,
                        now: Seconds, x: WireDecision)
    returns (r: Option<VerifiedDecision>)
    requires forall k :: k in expected ==>
             expected[k] in records && k == InputFor(expected[k], records[expected[k]].scope)
    ensures r.Some? ==> Attests(cfg, records, scenario, now, x, r.value) && r.value.target in expected.Values
    ensures r == None ==> forall d :: Attests(cfg, records, scenario, now, x, d) ==>
              d.target in records && InputFor(d.target, records[d.target].scope) !in expected
  {
    var key := DecisionInput(x.scope, x.value);
    if key !in expected || x.id <= 0 || x.origin != ORIGIN || x.kind != "ban" || x.scenario != scenario {
      return None;
    }
    var p := expected[key];
    var expires := DecisionExpiry(x.expiry, now, cfg.duration);
    if expires == None || expires.value <= now {
      return None;
    }
    return Some(VerifiedDecision(p, x.id, x.scenario, records[p].scope, x.value, expires.value));
  }

  method VerifyAlert(cfg: Config, op: Operation, remote: WireAlert, records: RecordMap, now: Seconds)
    returns (r: Outcome, v: VerifiedAlert)
    requires DistinctObjects(op.items)
    ensures r.Ok? ==> Verifies(cfg, op, remote, records, now, v)
    ensures r.Ok? ==>
              remote.id > 0 && remote.machineId == cfg.machineId && remote.scenario == "crowdshield/" + op.feedName &&
              remote.scenarioHash == "crowdshield:" + op.token && |v.decisions| == |remote.decisions| == |op.items| &&
              forall i :: 0 <= i < |v.decisions| ==> IsOurs(op, remote.decisions[i], v.decisions[i])
    ensures r.Ok? ==> forall i :: 0 <= i < |v.decisions| ==>
              v.decisions[i].expiresAt > now &&
              match remote.decisions[i].expiry
              case Until(at) => v.decisions[i].expiresAt == at
              case Remaining(length) => length <= cfg.duration && v.decisions[i].expiresAt == now + length
              case Unreadable => false
    ensures !r.Ok? && RecordsOk(records) ==> forall other :: !Verifies(cfg, op, remote, records, now, other)
  {
    hide DistinctObjects, Attests, InputFor, Scenario, TokenHash, RecordsOk, Attested, ItemObjects, DecisionObjects;
    v := VerifiedAlert(remote.id, remote.machineId, remote.scenario, []);
    if remote.id <= 0 || remote.machineId != cfg.machineId || remote.scenario != Scenario(op.feedName) ||
       remote.scenarioHash != TokenHash(op.token) || |remote.decisions| != |op.items| {
      return Err(ErrOwnership), v;
    }
    var expected := ExpectedValues(op.items, records);
    if expected == None {
      NoneWithout(cfg, op, remote, records, now);
      return Err(ErrState), v;
    }
    var decisions := VerifyDecisions(cfg, records, expected.value, op.items, remote.scenario, now, remote.decisions);
    if decisions == None {
      if RecordsOk(records) { NoneAttested(cfg, op, remote, records, now); }
      return Err(ErrOwnership), v;
    }
    ItemCount(op.items);
    Pigeonhole(ItemObjects(op.items), DecisionObjects(decisions.value));
    v := v.(decisions := decisions.value);
    forall i | 0 <= i < |v.decisions| { AttestedIsOurs(cfg, records, op, now, remote.decisions[i], v.decisions[i]); }
    TextsOf(op.feedName, op.token);
    return Ok, v;
  }

  /** A ban of this program on the decision's object, under the feed's scenario. */
  predicate IsOurs(op: Operation, x: WireDecision, d: VerifiedDecision) {
    x.id == d.decisionId > 0 && x.origin == "crowdshield" && x.kind == "ban" &&
    x.scenario == d.scenario == "crowdshield/" + op.feedName && x.value == d.value &&
    match d.scope
    case ScopeIP => x.scope == "Ip" && (d.target.Prefix? ==> d.value == AddrText(Base(d.target)))
    case ScopeRange => x.scope == "Range" && d.value == CidrText(d.target)
  }

  lemma TextsOf(feedName: string, token: Token)
    ensures Scenario(feedName) == "crowdshield/" + feedName && TokenHash(token) == "crowdshield:" + token
  {
  }

  lemma AttestedIsOurs(cfg: Config, records: RecordMap, op: Operation, now: Seconds, x: WireDecision,
                       d: VerifiedDecision)
    requires Attests(cfg, records, Scenario(op.feedName), now, x, d)
    ensures IsOurs(op, x, d) && d.expiresAt > now
    ensures match x.expiry
            case Until(at) => d.expiresAt == at
            case Remaining(length) => length <= cfg.duration && d.expiresAt == now + length
            case Unreadable => false
  {
  }

  predicate DistinctTargets(ds: seq<VerifiedDecision>) {
    forall i, j :: 0 <= i < j < |ds| ==> ds[i].target != ds[j].target
  }

  /** The loop over the remote decisions: each is expected, and no object comes twice. */
  method VerifyDecisions(cfg: Config, records: RecordMap, expected: map<DecisionInput, Prefix>,
                         ghost items: seq<Item>, scenario: string,
                         now: Seconds, xs: seq<WireDecision>)
    returns (r: Option<seq<VerifiedDecision>>)
    requires forall k :: k in expected ==>
               expected[k] in ItemObjects(items) && expected[k] in records &&
               k == InputFor(expected[k], records[expected[k]].scope)
    requires forall it :: it in items ==>
             it.target in records && InputFor(it.target, records[it.target].scope) in expected
    ensures r.Some? ==>
              |r.value| == |xs| == |DecisionObjects(r.value)| && DecisionObjects(r.value) <= ItemObjects(items) &&
              DistinctTargets(r.value) &&
              forall i :: 0 <= i < |xs| ==> Attests(cfg, records, scenario, now, xs[i], r.value[i])
    ensures r == None && RecordsOk(records) ==> forall ds :: !Attested(cfg, records, items, scenario, now, xs, ds)
  {
    hide Attests, InputFor, ItemObjects, DecisionObjects, RecordsOk, Attested;
    var seen: set<Prefix> := {};
    var decisions: seq<VerifiedDecision> := [];
    NoObjects();
    for i := 0 to |xs|
      invariant |decisions| == i
      invariant seen == DecisionObjects(decisions)
      invariant seen <= ItemObjects(items) && |seen| == i
      invariant forall j :: 0 <= j < i ==> Attests(cfg, records, scenario, now, xs[j], decisions[j])
      invariant DistinctTargets(decisions)
    {
      var d := VerifyDecision(cfg, records, expected, scenario, now, xs[i]);
      if d == None {
        NoneHere(cfg, records, expected, items, scenario, now, xs, i);
        return None;
      }
      if d.value.target in seen {
        if RecordsOk(records) { NoneTwice(cfg, records, items, scenario, now, xs, decisions, d.value); }
        return None;
      }
      ObjectsGrow(decisions, d.value);
      seen := seen + {d.value.target};
      decisions := decisions + [d.value];
    }
    return Some(decisions);
  }

  // ----- Why a refusal is right -----

  /** A record with an address scope is a host, as the catalogue guarantees. */
  ghost predicate RecordsOk(records: RecordMap) {
    forall p :: p in records && records[p].scope == ScopeIP ==> IsHost(p)
  }

  /** Decisions that say of the remote ones what is demanded, one object each, all of the operation. */
  ghost predicate Attested(cfg: Config, records: RecordMap, items: seq<Item>, scenario: string, now: Seconds,
                           xs: seq<WireDecision>, ds: seq<VerifiedDecision>) {
    |ds| == |xs| && DistinctTargets(ds) && (forall d :: d in ds ==> d.target in ItemObjects(items)) &&
    forall i :: 0 <= i < |xs| ==> Attests(cfg, records, scenario, now, xs[i], ds[i])
  }

  lemma AttestedAt(cfg: Config, records: RecordMap, items: seq<Item>, scenario: string, now: Seconds,
                   xs: seq<WireDecision>, ds: seq<VerifiedDecision>, i: nat)
    requires Attested(cfg, records, items, scenario, now, xs, ds) && i < |xs|
    ensures |ds| == |xs| && Attests(cfg, records, scenario, now, xs[i], ds[i]) &&
            ds[i].target in ItemObjects(items) && DistinctTargets(ds)
  {
    hide Attests;
    assert ds[i] in ds;
  }

  lemma NoneHere(cfg: Config, records: RecordMap, expected: map<DecisionInput, Prefix>, items: seq<Item>,
                 scenario: string, now: Seconds, xs: seq<WireDecision>, i: nat)
    requires i < |xs| && forall d :: Attests(cfg, records, scenario, now, xs[i], d) ==>
             d.target in records && InputFor(d.target, records[d.target].scope) !in expected
    requires forall it :: it in items ==>
             it.target in records && InputFor(it.target, records[it.target].scope) in expected
    ensures forall ds :: !Attested(cfg, records, items, scenario, now, xs, ds)
  {
    hide Attests, InputFor, Attested;
    forall ds | Attested(cfg, records, items, scenario, now, xs, ds)
      ensures false
    {
      AttestedAt(cfg, records, items, scenario, now, xs, ds, i);
    }
  }

  /** The scope and value of a remote decision name one object. */
  lemma AttestsOne(cfg: Config, records: RecordMap, scenario: string, now: Seconds, x: WireDecision,
                   d: VerifiedDecision, e: VerifiedDecision)
    requires RecordsOk(records) && Attests(cfg, records, scenario, now, x, d) &&
             Attests(cfg, records, scenario, now, x, e)
    ensures d.target == e.target
  {
    hide IsHost;
    if d.target != e.target { InputsDiffer(d.target, e.target, d.scope, e.scope); }
  }

  lemma NoneTwice(cfg: Config, records: RecordMap, items: seq<Item>, scenario: string, now: Seconds,
                  xs: seq<WireDecision>, found: seq<VerifiedDecision>, d: VerifiedDecision)
    requires RecordsOk(records) && |found| < |xs| && d.target in DecisionObjects(found) &&
             Attests(cfg, records, scenario, now, xs[|found|], d)
    requires forall j :: 0 <= j < |found| ==> Attests(cfg, records, scenario, now, xs[j], found[j])
    ensures forall ds :: !Attested(cfg, records, items, scenario, now, xs, ds)
  {
    hide Attests, RecordsOk, Attested;
    var n := |found|;
    var e :| e in found && e.target == d.target;
    var j :| 0 <= j < n && found[j] == e;
    forall ds | Attested(cfg, records, items, scenario, now, xs, ds)
      ensures false
    {
      AttestedAt(cfg, records, items, scenario, now, xs, ds, n);
      AttestedAt(cfg, records, items, scenario, now, xs, ds, j);
      AttestsOne(cfg, records, scenario, now, xs[n], ds[n], d);
      AttestsOne(cfg, records, scenario, now, xs[j], ds[j], found[j]);
    }
  }

  lemma NoneWithout(cfg: Config, op: Operation, remote: WireAlert, records: RecordMap, now: Seconds)
    requires exists it :: it in op.items && it.target !in records
    ensures forall v :: !Verifies(cfg, op, remote, records, now, v)
  {
    hide Scenario, TokenHash;
    var it :| it in op.items && it.target !in records;
    forall v | Verifies(cfg, op, remote, records, now, v)
      ensures false
    {
      TargetKnown(cfg, op, remote, records, now, v, it);
    }
  }

  lemma TargetKnown(cfg: Config, op: Operation, remote: WireAlert, records: RecordMap, now: Seconds, v: VerifiedAlert,
                    it: Item)
    requires Verifies(cfg, op, remote, records, now, v) && it in op.items
    ensures it.target in records
  {
    hide Scenario, TokenHash;
    assert it.target in DecisionObjects(v.decisions);
    var d :| d in v.decisions && d.target == it.target;
    var i :| 0 <= i < |v.decisions| && v.decisions[i] == d;
    assert Attests(cfg, records, v.scenario, now, remote.decisions[i], v.decisions[i]);
  }

  lemma NoneAttested(cfg: Config, op: Operation, remote: WireAlert, records: RecordMap, now: Seconds)
    requires forall ds :: !Attested(cfg, records, op.items, remote.scenario, now, remote.decisions, ds)
    ensures forall v :: !Verifies(cfg, op, remote, records, now, v)
  {
    hide Attests, Scenario, TokenHash;
    forall v | Verifies(cfg, op, remote, records, now, v)
      ensures false
    {
      VerifiesAttests(cfg, op, remote, records, now, v);
    }
  }

  lemma VerifiesAttests(cfg: Config, op: Operation, remote: WireAlert, records: RecordMap, now: Seconds,
                        v: VerifiedAlert)
    requires Verifies(cfg, op, remote, records, now, v)
    ensures Attested(cfg, records, op.items, remote.scenario, now, remote.decisions, v.decisions)
  {
    hide Attests, Scenario, TokenHash;
    forall d | d in v.decisions ensures d.target in DecisionObjects(v.decisions) {}
  }

  // ----- The round trip: what is created verifies -----

  /** What the verified decisions of a fresh alert are. */
  function Expected(op: Operation, records: RecordMap, first: int, until: Seconds): (r: seq<VerifiedDecision>)
    requires forall it :: it in op.items ==> it.target in records
    ensures |r| == |op.items|
    ensures forall i :: 0 <= i < |r| ==>
              r[i].target == op.items[i].target && op.items[i].target in records &&
              r[i] == VerifiedDecision(
                r[i].target, first + i, Scenario(op.feedName), records[r[i].target].scope,
                ObjectValue(r[i].target, records[r[i].target].scope), until)
  {
    seq(|op.items|, i requires 0 <= i < |op.items| =>
      assert op.items[i] in op.items;
      var p := op.items[i].target;
      VerifiedDecision(p, first + i, Scenario(op.feedName), records[p].scope, ObjectValue(p, records[p].scope), until))
  }

  /**
   The alert that an honest server makes of a journalled operation verifies for as long as its decisions are in
   time, so that neither the run that created it nor a later recovery refuses it.
   */
  lemma CreatedVerifies(cfg: Config, op: Operation, records: RecordMap, s: Server, clock: Seconds, now: Seconds,
                        inputs: seq<DecisionInput>)
    requires DistinctObjects(op.items) && (forall it :: it in op.items ==> it.target in records)
    requires |inputs| == |op.items| &&
             forall i :: 0 <= i < |inputs| ==>
               op.items[i].target in records &&
               inputs[i] == InputFor(op.items[i].target, records[op.items[i].target].scope)
    requires s.nextAlert > 0 && s.nextBan > 0 && now < clock + op.duration
    ensures var s' := Created(cfg.machineId, s, clock, Scenario(op.feedName), op.token, op.duration, inputs);
            Verifies(
              cfg, op, View(s.nextAlert, s'.alerts[s.nextAlert]), records, now,
              VerifiedAlert(s.nextAlert, cfg.machineId, Scenario(op.feedName),
                  Expected(op, records, s.nextBan, clock + op.duration)))
  {
    hide Scenario, TokenHash, Expected;
    var s' := Created(cfg.machineId, s, clock, Scenario(op.feedName), op.token, op.duration, inputs);
    var remote, ds := View(s.nextAlert, s'.alerts[s.nextAlert]), Expected(op, records, s.nextBan, clock + op.duration);
    forall i | 0 <= i < |ds|
      ensures Attests(cfg, records, Scenario(op.feedName), now, remote.decisions[i], ds[i])
    {
      assert remote.decisions[i] == WireOf(s'.alerts[s.nextAlert].bans[i]);
    }
    SameObjects(op.items, ds);
  }

  // ----- A response that gives remaining lengths -----

  function AsLength(x: WireDecision, read: Seconds): WireDecision {
    if x.expiry.Until? then x.(expiry := Remaining(x.expiry.at - read)) else x
  }

  /** The alert as a server shows it at `read` when it gives remaining lengths instead of times. */
  function AsLengths(remote: WireAlert, read: Seconds): (r: WireAlert)
    ensures |r.decisions| == |remote.decisions| && r == remote.(decisions := r.decisions)
    ensures forall i :: 0 <= i < |r.decisions| ==> r.decisions[i] == AsLength(remote.decisions[i], read)
  {
    remote.(decisions := seq(|remote.decisions|, i requires 0 <= i < |remote.decisions| =>
      AsLength(remote.decisions[i], read)))
  }

  /** The same decisions, each ending `delay` seconds earlier. */
  function Sooner(ds: seq<VerifiedDecision>, delay: int): (r: seq<VerifiedDecision>)
    ensures |r| == |ds|
    ensures forall i :: 0 <= i < |r| ==> r[i] == ds[i].(expiresAt := ds[i].expiresAt - delay)
  {
    seq(|ds|, i requires 0 <= i < |ds| => ds[i].(expiresAt := ds[i].expiresAt - delay))
  }

  lemma LengthAttests(cfg: Config, records: RecordMap, scenario: string, now: Seconds, read: Seconds, x: WireDecision,
                      d: VerifiedDecision)
    requires x.expiry.Until?
    ensures Attests(cfg, records, scenario, now, AsLength(x, read), d.(expiresAt := d.expiresAt - (read - now))) <==>
            Attests(cfg, records, scenario, read, x, d) && x.expiry.at - read <= cfg.duration
  {
  }

  lemma SoonerObjects(ds: seq<VerifiedDecision>, delay: int)
    ensures DistinctTargets(Sooner(ds, delay)) <==> DistinctTargets(ds)
    ensures DecisionObjects(Sooner(ds, delay)) == DecisionObjects(ds)
  {
    TargetsWithin(ds, Sooner(ds, delay));
    TargetsWithin(Sooner(ds, delay), ds);
  }

  lemma TargetsWithin(ds: seq<VerifiedDecision>, es: seq<VerifiedDecision>)
    requires |ds| == |es| && forall i :: 0 <= i < |ds| ==> ds[i].target == es[i].target
    ensures DecisionObjects(ds) <= DecisionObjects(es)
  {
    forall p | p in DecisionObjects(ds)
      ensures p in DecisionObjects(es)
    {
      var d :| d in ds && d.target == p;
      var i :| 0 <= i < |ds| && ds[i] == d;
      assert es[i] in es;
    }
  }

  /**
   Remaining lengths read at `read` by a run that began at `now` verify exactly when the times would at `read`, none
   further off than the duration; each end is then recorded early, by just the time that passed since the run began.
   */
  lemma LengthsVerify(cfg: Config, op: Operation, remote: WireAlert, records: RecordMap, now: Seconds, read: Seconds,
                      v: VerifiedAlert)
    requires |v.decisions| == |remote.decisions| && forall x :: x in remote.decisions ==> x.expiry.Until?
    ensures Verifies(cfg, op, AsLengths(remote, read), records, now,
              v.(decisions := Sooner(v.decisions, read - now))) <==>
            Verifies(cfg, op, remote, records, read, v) &&
            forall x :: x in remote.decisions ==> x.expiry.at - read <= cfg.duration
  {
    hide Attests, ItemObjects, DecisionObjects, DistinctTargets;
    SoonerObjects(v.decisions, read - now);
    forall i | 0 <= i < |remote.decisions|
      ensures Attests(cfg, records, v.scenario, now, AsLength(remote.decisions[i], read),
                v.decisions[i].(expiresAt := v.decisions[i].expiresAt - (read - now))) <==>
              Attests(cfg, records, v.scenario, read, remote.decisions[i], v.decisions[i]) &&
              remote.decisions[i].expiry.at - read <= cfg.duration
    {
      assert remote.decisions[i] in remote.decisions;
      LengthAttests(cfg, records, v.scenario, now, read, remote.decisions[i], v.decisions[i]);
    }
  }

  lemma SameObjects(items: seq<Item>, ds: seq<VerifiedDecision>)
    requires DistinctObjects(items) && |ds| == |items| && forall i :: 0 <= i < |ds| ==> ds[i].target == items[i].target
    ensures DistinctTargets(ds) && DecisionObjects(ds) == ItemObjects(items)
  {
    forall p | p in DecisionObjects(ds)
      ensures p in ItemObjects(items)
    {
      var d :| d in ds && d.target == p;
      var i :| 0 <= i < |ds| && ds[i] == d;
      assert items[i] in items;
    }
    forall p | p in ItemObjects(items)
      ensures p in DecisionObjects(ds)
    {
      var it :| it in items && it.target == p;
      var i :| 0 <= i < |items| && items[i] == it;
      assert ds[i] in ds;
    }
  }

  lemma NoObjects()
    ensures DecisionObjects([]) == {}
  {
  }

  lemma ObjectsGrow(ds: seq<VerifiedDecision>, d: VerifiedDecision)
    ensures DecisionObjects(ds + [d]) == DecisionObjects(ds) + {d.target}
    ensures d.target !in DecisionObjects(ds) ==> forall j :: 0 <= j < |ds| ==> ds[j].target != d.target
  {
    forall j | 0 <= j < |ds| ensures ds[j].target in DecisionObjects(ds) {}
  }

  /** What the honest server showed is what the journal may record. */
  lemma VerifiedIsGenuine(cfg: Config, w: World, op: Operation, remote: WireAlert, records: RecordMap, now: Seconds,
                          v: VerifiedAlert)
    requires Inv(cfg, w) && cfg.honest && Verifies(cfg, op, remote, records, now, v)
    requires remote.id in w.server.alerts && remote == View(remote.id, w.server.alerts[remote.id])
    ensures Genuine(w.server, op.token, v)
  {
    hide Journal, Catalog, Owned, RowsBacked, OneLiveAlert, UnrecordedUntouched, ScenariosAgree, BanIdsUnique, MineOk;
    TokenHashIsOne(op.token);
    var alert := w.server.alerts[remote.id];
    assert !Foreign(cfg.machineId, alert);
    forall b | b in alert.bans
      ensures b.id in NewIds(v)
    {
      var i :| 0 <= i < |alert.bans| && alert.bans[i] == b;
      assert Attests(cfg, records, v.scenario, now, remote.decisions[i], v.decisions[i]);
      assert remote.decisions[i] == WireOf(alert.bans[i]);
      assert v.decisions[i] in v.decisions;
    }
    forall d | d in v.decisions
      ensures GenuineDecision(w.server, v.alertId, d)
    {
      var i :| 0 <= i < |v.decisions| && v.decisions[i] == d;
      assert Attests(cfg, records, v.scenario, now, remote.decisions[i], d);
      assert remote.decisions[i] == WireOf(alert.bans[i]);
      assert alert.bans[i] in alert.bans;
    }
  }

  // ----- Lookups of the planning loop -----

  datatype Feed = Feed(id: int, name: string)

  /** The primary feed, if it is still among the sources. */
  method PrimaryFeed(record: EnforcementRecord) returns (r: Option<Feed>)
    ensures r.Some? ==> record.primary == Some(r.value.id) && (r.value.id, r.value.name) in record.sources
    ensures r == None ==> record.primary == None || forall s :: s in record.sources ==> s.0 != record.primary.value
  {
    if record.primary == None {
      return None;
    }
    var left := record.sources;
    while left != {}
      invariant left <= record.sources
      invariant forall s :: s in record.sources && s !in left ==> s.0 != record.primary.value
    {
      var s := Pick(left);
      if s.0 == record.primary.value {
        return Some(Feed(s.0, s.1));
      }
      left := left - {s};
    }
    return None;
  }

  /** A wanted object always has its primary feed among its sources, so planning never stops there. */
  lemma WantedHasPrimary(db: Tables, p: Prefix)
    requires Catalog(db) && p in db.objects && db.objects[p].desired
    ensures var record := ReadObject(db, p);
            record.primary.Some? && record.primary.value in db.feeds &&
            (record.primary.value, db.feeds[record.primary.value].name) in record.sources &&
            forall s :: s in record.sources && s.0 == record.primary.value ==> s.1 == db.feeds[s.0].name
  {
    hide FeedsOk, IsSafePrefix, IsValid, IsHost;
    assert ObjectOk(db, p, db.objects[p]);
    var f := db.objects[p].primary.value;
    var k :| (f, k) in db.objects[p].sources;
    assert (f, k).0 in db.feeds;
  }

  type ActiveMap = map<Prefix, DecisionRecord>

  /** The active rows by object. */
  ghost predicate IsActiveMap(db: Tables, active: ActiveMap) {
    (forall p :: p in active ==>
       active[p].id in db.decisions && db.decisions[active[p].id].token in db.alerts &&
       active[p] == ReadDecision(db, active[p].id) && Holds(db, p, active[p].id)) &&
    forall p, r :: Holds(db, p, r) ==> p in active && active[p].id == r
  }

  /** Fails on a second active row for one object, which the journal rules out. */
  method ActiveByObject(ghost db: Tables, decisions: seq<DecisionRecord>) returns (r: Outcome, active: ActiveMap)
    requires Journal(db) && ListsDecisions(db, {Active}, decisions)
    ensures r.Ok? && IsActiveMap(db, active)
  {
    hide Journal;
    active := map[];
    for i := 0 to |decisions|
      invariant forall p :: p in active ==>
                exists j :: 0 <= j < i && decisions[j] == active[p] && decisions[j].row.target == p
      invariant forall j :: 0 <= j < i ==> decisions[j].row.target in active
    {
      if decisions[i].row.target in active {
        var j :| 0 <= j < i && decisions[j] == active[decisions[i].row.target] &&
            decisions[j].row.target == decisions[i].row.target;
        NotTwice(db, decisions, j, i);
        assert false;
        return Err(ErrState), active;
      }
      active := active[decisions[i].row.target := decisions[i]];
      assert decisions[i] == active[decisions[i].row.target];
    }
    ActiveIsAll(db, decisions, active);
    return Ok, active;
  }

  lemma NotTwice(db: Tables, decisions: seq<DecisionRecord>, j: nat, i: nat)
    requires Journal(db) && ListsDecisions(db, {Active}, decisions) && j < i < |decisions|
    ensures decisions[j].row.target != decisions[i].row.target
  {
    hide RowsOk, OperationsOk, AlertIdsUnique, OneOpen, UnrecordedOk, VerifiedOk, ExpiringOk, CompletedOk,
         ListsDecisions, Holds;
    ListedHolds(db, decisions, i);
    ListedHolds(db, decisions, j);
    assert decisions[i].id != decisions[j].id by { ListedOnce(db, decisions, j, i); }
  }

  lemma ListedHolds(db: Tables, decisions: seq<DecisionRecord>, i: nat)
    requires ListsDecisions(db, {Active}, decisions) && i < |decisions|
    ensures Holds(db, decisions[i].row.target, decisions[i].id)
  {
  }

  lemma ListedOnce(db: Tables, decisions: seq<DecisionRecord>, j: nat, i: nat)
    requires ListsDecisions(db, {Active}, decisions) && j < i < |decisions|
    ensures decisions[i].id != decisions[j].id
  {
  }

  lemma ActiveIsAll(db: Tables, decisions: seq<DecisionRecord>, active: ActiveMap)
    requires Journal(db) && ListsDecisions(db, {Active}, decisions)
    requires forall p :: p in active ==>
             exists j :: 0 <= j < |decisions| && decisions[j] == active[p] && decisions[j].row.target == p
    requires forall j :: 0 <= j < |decisions| ==> decisions[j].row.target in active
    ensures IsActiveMap(db, active)
  {
    hide OperationsOk, AlertIdsUnique, OneOpen, UnrecordedOk, VerifiedOk, ExpiringOk, CompletedOk;
    forall p | p in active
      ensures active[p].id in db.decisions && db.decisions[active[p].id].token in db.alerts
      ensures active[p] == ReadDecision(db, active[p].id) && Holds(db, p, active[p].id)
    {
      var j :| 0 <= j < |decisions| && decisions[j] == active[p] && decisions[j].row.target == p;
    }
    forall p, r | Holds(db, p, r)
      ensures p in active && active[p].id == r
    {
      var i :| 0 <= i < |decisions| && decisions[i].id == r;
      assert Holds(db, p, active[p].id);
    }
  }
}
