/**
 The lookup of `ExplainCLI` in internal/app/operator_read.go. It recomputes, from the stored
 objects alone, the range that covers an address, and agrees with the planner.
 */
module Explain {
  import opened Prefixes
  import opened Safety
  import opened Orders
  import opened Planner
  import opened PlannerLaws
  import opened Database
  import opened Invariants
  import opened Prune
  import opened Protocol
  import opened ProtocolLaws
  import opened Intake
  import opened Prediction

  datatype StoredObject = StoredObject(prefix: Prefix, row: ObjectRow)

  /** What the lookup found: the object itself and the range around it. */
  datatype Found = Found(exact: Option<nat>, cover: Option<nat>)

  predicate PrefixCovers(cover: Prefix, target: Prefix) {
    IsValid(cover) && IsValid(target) && BitLen(cover.family) == BitLen(target.family) &&
    cover.bits <= target.bits && Contains(cover, Base(target))
  }

  predicate IsCover(o: StoredObject, target: Prefix) {
    o.prefix != target && o.row.desired && o.row.scope == ScopeRange && PrefixCovers(o.prefix, target)
  }

  /** The loop's preference between two covers: longer first, then the lower address. */
  predicate Better(p: Prefix, q: Prefix) {
    p.Prefix? && q.Prefix? && (p.bits > q.bits || (p.bits == q.bits && p.value < q.value))
  }

  method Lookup(objects: seq<StoredObject>, target: Prefix) returns (r: Found)
    ensures r.exact.Some? ==> r.exact.value < |objects| && objects[r.exact.value].prefix == target
    ensures r.exact.Some? ==> forall j :: r.exact.value < j < |objects| ==> objects[j].prefix != target
    ensures r.exact == None ==> forall i :: 0 <= i < |objects| ==> objects[i].prefix != target
    ensures r.cover.Some? ==>
              r.cover.value < |objects| && IsCover(objects[r.cover.value], target) &&
              forall i :: 0 <= i < |objects| && IsCover(objects[i], target) ==>
                  objects[i].prefix.bits <= objects[r.cover.value].prefix.bits
    ensures r.cover == None ==> forall i :: 0 <= i < |objects| ==> !IsCover(objects[i], target)
  {
    hide Contains, IsValid;
    r := Found(None, None);
    for i := 0 to |objects|
      invariant r.exact.Some? ==> r.exact.value < i && objects[r.exact.value].prefix == target
      invariant r.exact.Some? ==> forall j :: r.exact.value < j < i ==> objects[j].prefix != target
      invariant r.exact == None ==> forall j :: 0 <= j < i ==> objects[j].prefix != target
      invariant r.cover.Some? ==> r.cover.value < i && IsCover(objects[r.cover.value], target)
      invariant r.cover.Some? ==> objects[r.cover.value].prefix.Prefix?
      invariant r.cover.Some? ==>
        forall j :: 0 <= j < i && IsCover(objects[j], target) ==>
          objects[j].prefix.Prefix? && objects[j].prefix.bits <= objects[r.cover.value].prefix.bits
      invariant r.cover == None ==> forall j :: 0 <= j < i ==> !IsCover(objects[j], target)
    {
      CoverIsPrefix(objects[i], target);
      if objects[i].prefix == target {
        r := r.(exact := Some(i));
      } else if IsCover(objects[i], target) &&
          (r.cover == None || Better(objects[i].prefix, objects[r.cover.value].prefix)) {
        r := r.(cover := Some(i));
      }
    }
  }

  lemma CoverIsPrefix(o: StoredObject, target: Prefix)
    ensures IsCover(o, target) ==> o.prefix.Prefix?
  {
  }

  /** The whole lookup, with its exit for a covered object that nothing covers. */
  method ExplainTarget(objects: seq<StoredObject>, target: Prefix) returns (r: Option<Found>)
    ensures r == None <==>
              exists i :: 0 <= i < |objects| && objects[i].prefix == target &&
                          objects[i].row.suppression == SuppressedCovered &&
                          (forall j :: i < j < |objects| ==> objects[j].prefix != target) &&
                          forall j :: 0 <= j < |objects| ==> !IsCover(objects[j], target)
    ensures r.Some? && r.value.cover.Some? ==>
              r.value.cover.value < |objects| && IsCover(objects[r.value.cover.value], target) &&
              forall i :: 0 <= i < |objects| && IsCover(objects[i], target) ==>
                  objects[i].prefix.bits <= objects[r.value.cover.value].prefix.bits
    ensures r.Some? && r.value.cover == None ==> forall i :: 0 <= i < |objects| ==> !IsCover(objects[i], target)
  {
    hide IsCover;
    var found := Lookup(objects, target);
    if found.cover == None && found.exact.Some? && objects[found.exact.value].row.suppression == SuppressedCovered {
      return None;
    }
    return Some(found);
  }

  // ----- Agreement with the planner -----

  /** The list holds the stored objects and nothing else. */
  ghost predicate ListsStored(db: Tables, list: seq<StoredObject>) {
    (forall i :: 0 <= i < |list| ==> list[i].prefix in db.objects && list[i].row == db.objects[list[i].prefix]) &&
    forall p :: p in db.objects ==> exists i :: 0 <= i < |list| && list[i].prefix == p
  }

  /** The stored objects are those of a plan, less some that were not wanted, and stale ones beside them. */
  ghost predicate PlanStored(objects: seq<Object>, now: Seconds, db: Tables) {
    (forall p :: p in db.objects ==>
       if p in PlanPrefixes(objects) then exists o :: o in objects && o.prefix == p && db.objects[p] == RowOf(o, now)
       else !db.objects[p].desired && db.objects[p].suppression == SuppressedStale) &&
    forall o :: o in objects && o.desired ==> o.prefix in db.objects
  }

  lemma AppliedIsStored(db: Tables, objects: seq<Object>, now: Seconds, db': Tables)
    requires PlanApplied(db, objects, now, db')
    ensures PlanStored(objects, now, db')
  {
    forall p | p in PlanPrefixes(objects)
      ensures exists o :: o in objects && o.prefix == p && db'.objects[p] == RowOf(o, now)
    {
      var o :| o in objects && o.prefix == p;
    }
  }

  /** Rows are kept or dropped, and wanted ones kept. */
  ghost predicate ObjectsShrink(db: Tables, db': Tables) {
    (forall p :: p in db'.objects ==> p in db.objects && db'.objects[p] == db.objects[p]) &&
    forall p :: p in db.objects && db.objects[p].desired ==> p in db'.objects
  }

  lemma PruneShrinksObjects(db: Tables, cutoff: Seconds, keep: nat)
    ensures ObjectsShrink(db, Pruned(db, cutoff, keep))
  {
    hide OldRuns, OldOperations, OldDecisions, OldAlerts, OldEntries, ObjectUsed;
  }

  /** No step but a new plan changes what is stored of the last one. */
  lemma StepShrinksObjects(cfg: Config, w: World, a: Action, w': World)
    requires Next(cfg, w, a, w') && !a.ApplyPlan?
    ensures ObjectsShrink(w.db, w'.db)
  {
    hide ServerStep, BeginGuard, Closes, Genuine, GiveUpGuard, Records, Pruned;
    match a
    case RecordVerified(t, v, now) => RecordShape(w.db, t, v, now, w'.db);
    case CompleteOperation(t, now) => CloseStep(w.db, t, Completed, now);
    case SetStatus(t, status, now) => CloseStep(w.db, t, status, now);
    case PruneHistory(cutoff, keep) => PruneShrinksObjects(w.db, cutoff, keep);
    case _ =>
  }

  lemma StoredStays(objects: seq<Object>, now: Seconds, db: Tables, db': Tables)
    requires PlanStored(objects, now, db) && ObjectsShrink(db, db') && DistinctPrefixes(objects)
    ensures PlanStored(objects, now, db')
  {
    forall o | o in objects && o.desired
      ensures o.prefix in db'.objects
    {
      assert o.prefix in PlanPrefixes(objects);
      WantedIsStored(objects, now, db, o);
      var x :| x in objects && x.prefix == o.prefix && db.objects[o.prefix] == RowOf(x, now);
      SamePrefix(objects, x, o);
    }
  }

  lemma WantedIsStored(objects: seq<Object>, now: Seconds, db: Tables, o: Object)
    requires PlanStored(objects, now, db) && o in objects && o.desired
    ensures o.prefix in db.objects
  {
  }

  /** The plan in force: posted at step `j`, and none after it up to `i`. */
  ghost predicate InForce(tr: seq<Step>, j: int, i: int, objects: seq<Object>) {
    0 < j <= i < |tr| && tr[j].action.ApplyPlan? && tr[j].action.objects == objects &&
    forall k :: j < k <= i ==> !tr[k].action.ApplyPlan?
  }

  lemma {:induction false} PlanStaysStored(cfg: Config, tr: seq<Step>, j: nat, i: nat, objects: seq<Object>)
    requires History(cfg, tr) && InForce(tr, j, i, objects) && DistinctPrefixes(objects)
    ensures PlanStored(objects, tr[j].action.now, tr[i].world.db)
  {
    hide Init, Next, PlanStored, ObjectsShrink;
    assert Next(cfg, tr[i - 1].world, tr[i].action, tr[i].world);
    if i == j {
      PostedIsStored(cfg, tr[i - 1].world, tr[i].action, tr[i].world);
    } else {
      PlanStaysStored(cfg, tr, j, i - 1, objects);
      StepShrinksObjects(cfg, tr[i - 1].world, tr[i].action, tr[i].world);
      StoredStays(objects, tr[j].action.now, tr[i - 1].world.db, tr[i].world.db);
    }
  }

  lemma PostedIsStored(cfg: Config, w: World, a: Action, w': World)
    requires Next(cfg, w, a, w') && a.ApplyPlan?
    ensures PlanStored(a.objects, a.now, w'.db)
  {
    hide ServerStep, PlanFits, PlanApplied, PlanStored;
    AppliedIsStored(w.db, a.objects, a.now, w'.db);
  }

  /** A stored cover of a host is a covering range of the plan. */
  lemma StoredCoverIsPlanned(cs: seq<Candidate>, allowlist: seq<Prefix>, drafts: seq<Object>, objects: seq<Object>,
                             now: Seconds, db: Tables, host: Prefix, s: StoredObject) returns (d: Object)
    requires IsPlanFrom(cs, allowlist, drafts, objects) && PlanStored(objects, now, db)
    requires s.prefix in db.objects && s.row == db.objects[s.prefix] && IsCover(s, host) && IsHost(host) &&
             Masked(host) == host
    ensures d in drafts && d.prefix == s.prefix && Covers(d, host)
  {
    hide DraftsOk, LongestCover, Masked, Contains;
    assert s.prefix in PlanPrefixes(objects);
    var o :| o in objects && o.prefix == s.prefix && s.row == RowOf(o, now);
    var i :| 0 <= i < |objects| && objects[i] == o;
    d := drafts[i];
    assert Settled(drafts, d, o) && o == d;
    DraftIsMasked(cs, allowlist, drafts, d);
    NotFullLength(d.prefix, host);
  }

  lemma DraftIsMasked(cs: seq<Candidate>, allowlist: seq<Prefix>, drafts: seq<Object>, d: Object)
    requires DraftsOk(cs, allowlist, drafts) && d in drafts
    ensures IsValid(d.prefix) && Masked(d.prefix) == d.prefix
  {
    hide Drafted, Ascending, AcceptedPrefix, IsSafePrefix, Masked;
    AcceptedIsValid(cs, d.prefix);
    SafeIsValid(d.prefix);
  }

  /** A different prefix around a host is shorter than the host. */
  lemma NotFullLength(p: Prefix, host: Prefix)
    requires p != host && PrefixCovers(p, host) && IsHost(host) && Masked(host) == host && Masked(p) == p
    ensures p.bits < BitLen(host.family)
  {
    hide Masked;
    assert Contains(host, Base(host));
    if p.bits == host.bits { EqualLengthOverlap(p, host, Base(host)); }
  }

  /** A covering range of the plan is stored as a cover. */
  lemma PlannedCoverIsStored(cs: seq<Candidate>, allowlist: seq<Prefix>, drafts: seq<Object>, objects: seq<Object>,
                             now: Seconds, db: Tables, host: Prefix, d: Object)
    requires IsPlanFrom(cs, allowlist, drafts, objects) && PlanStored(objects, now, db) && d in drafts &&
             Covers(d, host) && IsHost(host)
    ensures d.prefix in db.objects && IsCover(StoredObject(d.prefix, db.objects[d.prefix]), host)
  {
    hide LongestCover, Masked, DraftsOk;
    RangeSurvives(cs, allowlist, drafts, objects, d, host);
    PlanIsDistinct(cs, allowlist, objects);
    assert d.prefix in PlanPrefixes(objects);
    var o :| o in objects && o.prefix == d.prefix && db.objects[d.prefix] == RowOf(o, now);
    SamePrefix(objects, o, d);
  }

  /** A longest stored cover of a covered object is the prefix the planner recorded. */
  lemma StoredAgrees(cs: seq<Candidate>, allowlist: seq<Prefix>, objects: seq<Object>, now: Seconds, db: Tables,
                      list: seq<StoredObject>, o: Object, cover: nat)
    requires IsPlan(cs, allowlist, objects) && PlanStored(objects, now, db) && ListsStored(db, list)
    requires o in objects && o.suppression == SuppressedCovered
    requires cover < |list| && IsCover(list[cover], o.prefix)
    requires forall i :: 0 <= i < |list| && IsCover(list[i], o.prefix) ==>
             list[i].prefix.bits <= list[cover].prefix.bits
    ensures o.coveredBy == Some(list[cover].prefix)
  {
    hide DraftsOk, PlanStored, Covers, IsCover;
    var drafts: seq<Object> :| IsPlanFrom(cs, allowlist, drafts, objects);
    var host := o.prefix;
    CoveredIsHost(cs, allowlist, drafts, objects, o);
    var d := StoredCoverIsPlanned(cs, allowlist, drafts, objects, now, db, host, list[cover]);
    CoverIsPrefix(list[cover], host);
    forall x | x in drafts && Covers(x, host)
      ensures x.prefix.Prefix? && x.prefix.bits <= d.prefix.bits
    {
      PlannedCoverIsStored(cs, allowlist, drafts, objects, now, db, host, x);
      var i :| 0 <= i < |list| && list[i].prefix == x.prefix;
      assert list[i] == StoredObject(x.prefix, db.objects[x.prefix]);
      CoverIsPrefix(list[i], host);
    }
    assert LongestCover(drafts, host, d.prefix);
    LongestCoverUnique(cs, allowlist, drafts, host, d.prefix, o.coveredBy.value);
  }

  lemma CoveredIsHost(cs: seq<Candidate>, allowlist: seq<Prefix>, drafts: seq<Object>, objects: seq<Object>, o: Object)
    requires IsPlanFrom(cs, allowlist, drafts, objects) && o in objects && o.suppression == SuppressedCovered
    ensures IsHost(o.prefix) && Masked(o.prefix) == o.prefix
    ensures o.coveredBy.Some? && LongestCover(drafts, o.prefix, o.coveredBy.value)
  {
    hide Masked, Covers, LongestCover, AcceptedPrefix, Ascending, OverlapsAllowlist, Sources;
    var i :| 0 <= i < |objects| && objects[i] == o;
    var d := drafts[i];
    assert d in drafts && Settled(drafts, d, o) && Drafted(cs, allowlist, d);
    IPScopeIsHost(cs, allowlist, d);
    DraftIsMasked(cs, allowlist, drafts, d);
  }

  /** A stored object that the planner suppressed as covered has its cover stored. */
  lemma StoredIsCovered(cs: seq<Candidate>, allowlist: seq<Prefix>, objects: seq<Object>, now: Seconds, db: Tables,
                                 list: seq<StoredObject>, i: nat)
    requires IsPlan(cs, allowlist, objects) && PlanStored(objects, now, db) && ListsStored(db, list)
    requires i < |list| && list[i].row.suppression == SuppressedCovered
    ensures exists j :: 0 <= j < |list| && IsCover(list[j], list[i].prefix)
  {
    hide DraftsOk, Covers, IsCover, Settled, LongestCover;
    var drafts: seq<Object> :| IsPlanFrom(cs, allowlist, drafts, objects);
    var host := list[i].prefix;
    assert host in PlanPrefixes(objects);
    var o :| o in objects && o.prefix == host && db.objects[host] == RowOf(o, now);
    CoveredIsHost(cs, allowlist, drafts, objects, o);
    var d := LongestWitness(drafts, host, o.coveredBy.value);
    PlannedCoverIsStored(cs, allowlist, drafts, objects, now, db, host, d);
    var j :| 0 <= j < |list| && list[j].prefix == d.prefix;
    assert list[j] == StoredObject(d.prefix, db.objects[d.prefix]);
  }

  lemma LongestWitness(drafts: seq<Object>, host: Prefix, q: Prefix) returns (d: Object)
    requires LongestCover(drafts, host, q)
    ensures d in drafts && Covers(d, host) && d.prefix == q
  {
    hide Covers;
    d :| d in drafts && Covers(d, host) && d.prefix == q;
  }

  /**
   In every world of every history, whatever was recorded, expired or pruned since the plan in force was posted: a
   lookup for an object that plan suppressed as covered finds exactly the prefix that the planner recorded.
   */
  lemma ExplainAgrees(cfg: Config, tr: seq<Step>, j: nat, i: nat, cs: seq<Candidate>, allowlist: seq<Prefix>,
                      objects: seq<Object>,
                      list: seq<StoredObject>, o: Object, cover: nat)
    requires History(cfg, tr) && InForce(tr, j, i, objects) && IsPlan(cs, allowlist, objects) &&
             ListsStored(tr[i].world.db, list)
    requires o in objects && o.suppression == SuppressedCovered
    requires cover < |list| && IsCover(list[cover], o.prefix)
    requires forall k :: 0 <= k < |list| && IsCover(list[k], o.prefix) ==>
             list[k].prefix.bits <= list[cover].prefix.bits
    ensures o.coveredBy == Some(list[cover].prefix)
  {
    hide History, IsPlan, ListsStored, IsCover, PlanStored;
    PlanIsDistinct(cs, allowlist, objects);
    PlanStaysStored(cfg, tr, j, i, objects);
    StoredAgrees(cs, allowlist, objects, tr[j].action.now, tr[i].world.db, list, o, cover);
  }

  /** And in every such world the inconsistency exit is unreachable, for every target. */
  lemma ExplainNeverInconsistent(cfg: Config, tr: seq<Step>, j: nat, i: nat, cs: seq<Candidate>,
                                 allowlist: seq<Prefix>, objects: seq<Object>,
                                 list: seq<StoredObject>, target: nat)
    requires History(cfg, tr) && InForce(tr, j, i, objects) && IsPlan(cs, allowlist, objects) &&
             ListsStored(tr[i].world.db, list)
    requires target < |list| && list[target].row.suppression == SuppressedCovered
    ensures exists k :: 0 <= k < |list| && IsCover(list[k], list[target].prefix)
  {
    hide History, IsPlan, ListsStored, IsCover, PlanStored;
    PlanIsDistinct(cs, allowlist, objects);
    PlanStaysStored(cfg, tr, j, i, objects);
    StoredIsCovered(cs, allowlist, objects, tr[j].action.now, tr[i].world.db, list, target);
  }
}
