/**
 `buildObjects` of internal/reconcile/reconcile.go: stored entries become candidates, and
 candidates a plan. What the planner produces from the store's own entries is what the store
 accepts.
 */
module Intake {
  import opened Prefixes
  import opened Safety
  import opened Orders
  import opened Planner
  import opened PlannerLaws
  import opened Database
  import opened Invariants
  import opened StateStore
  import opened Verification

  /** Feeds without a configured order are numbered by first appearance. */
  function DerivedOrder(entries: seq<StoredEntry>, order: map<int, int>): (r: map<int, int>)
    ensures forall e :: e in entries && e.feedId !in order ==> e.feedId in r
  {
    if entries == [] then map[]
    else
      var n := |entries| - 1;
      assert entries == entries[..n] + [entries[n]];
      var earlier := DerivedOrder(entries[..n], order);
      if entries[n].feedId in order ||
          entries[n].feedId in earlier then earlier else earlier[entries[n].feedId := |earlier|]
  }

  function FeedOrder(entries: seq<StoredEntry>, order: map<int, int>, e: StoredEntry): int
    requires e in entries
  {
    if e.feedId in order then order[e.feedId] else DerivedOrder(entries, order)[e.feedId]
  }

  function CandidateFrom(e: StoredEntry, feedOrder: int): Candidate {
    Candidate(e.prefix, e.kind, e.feedId, e.feedName, feedOrder)
  }

  function CandidatesOf(entries: seq<StoredEntry>, order: map<int, int>): (r: seq<Candidate>)
    ensures |r| == |entries|
    ensures forall i :: 0 <= i < |r| ==> r[i] == CandidateFrom(entries[i], FeedOrder(entries, order, entries[i]))
  {
    seq(|entries|, i requires 0 <= i < |entries| => CandidateFrom(entries[i], FeedOrder(entries, order, entries[i])))
  }

  /** Later entries do not renumber earlier feeds. */
  lemma {:induction false} DerivedGrows(entries: seq<StoredEntry>, order: map<int, int>, i: nat)
    requires i <= |entries|
    ensures forall f :: f in DerivedOrder(entries[..i], order) ==>
              f in DerivedOrder(entries, order) &&
              DerivedOrder(entries, order)[f] == DerivedOrder(entries[..i], order)[f]
  {
    if i < |entries| {
      var n := |entries| - 1;
      assert entries[..n][..i] == entries[..i];
      DerivedGrows(entries[..n], order, i);
    } else {
      assert entries[..i] == entries;
    }
  }

  predicate AllowlistOk(allowlist: seq<Prefix>) {
    forall p :: p in allowlist ==> IsValid(p) && Masked(p) == p
  }

  method BuildObjects(entries: seq<StoredEntry>, allowlist: seq<Prefix>, order: map<int, int>)
    returns (r: Outcome, objects: seq<Object>, summary: Summary)
    ensures r == if AllowlistOk(allowlist) then Ok else Err(ErrContract)
    ensures r.Ok? <==>
            forall i :: 0 <= i < |allowlist| ==> IsValid(allowlist[i]) && Masked(allowlist[i]) == allowlist[i]
    ensures r.Ok? ==>
            IsPlan(CandidatesOf(entries, order), allowlist, objects) &&
            Counted(CandidatesOf(entries, order), objects, summary)
  {
    hide IsPlan, Counted, Masked, IsValid;
    objects, summary := [], Summary(0, 0, 0, 0, 0, 0, 0);
    for i := 0 to |allowlist|
      invariant forall j :: 0 <= j < i ==> IsValid(allowlist[j]) && Masked(allowlist[j]) == allowlist[j]
    {
      if !IsValid(allowlist[i]) || Masked(allowlist[i]) != allowlist[i] {
        assert allowlist[i] in allowlist;
        return Err(ErrContract), objects, summary;
      }
    }
    var candidates := ToCandidates(entries, order);
    objects, summary := BuildDesired(candidates, allowlist);
    return Ok, objects, summary;
  }

  method ToCandidates(entries: seq<StoredEntry>, order: map<int, int>) returns (candidates: seq<Candidate>)
    ensures candidates == CandidatesOf(entries, order)
  {
    hide DerivedOrder;
    var derived: map<int, int>, next := map[], 0;
    candidates := [];
    DerivedEmpty(entries, order);
    for i := 0 to |entries|
      invariant |candidates| == i
      invariant derived == DerivedOrder(entries[..i], order) && next == |derived|
      invariant forall j :: 0 <= j < i ==>
                candidates[j] == CandidateFrom(entries[j], FeedOrder(entries, order, entries[j]))
    {
      var e := entries[i];
      DerivedStep(entries, order, i);
      var feedOrder;
      if e.feedId in order {
        feedOrder := order[e.feedId];
      } else if e.feedId in derived {
        feedOrder := derived[e.feedId];
      } else {
        feedOrder := next;
        derived := derived[e.feedId := feedOrder];
        next := next + 1;
      }
      DerivedGrows(entries, order, i + 1);
      candidates := candidates + [CandidateFrom(e, feedOrder)];
    }
    assert candidates == CandidatesOf(entries, order);
  }

  lemma DerivedEmpty(entries: seq<StoredEntry>, order: map<int, int>)
    ensures DerivedOrder(entries[..0], order) == map[]
  {
  }

  lemma DerivedStep(entries: seq<StoredEntry>, order: map<int, int>, i: nat)
    requires i < |entries|
    ensures var earlier := DerivedOrder(entries[..i], order);
            DerivedOrder(entries[..i + 1], order) ==
            if entries[i].feedId in order ||
                entries[i].feedId in earlier then earlier else earlier[entries[i].feedId := |earlier|]
  {
    assert entries[..i + 1][..i] == entries[..i];
  }

  // ----- Determinism on the store's entries -----

  /** Listed entries name their feed as the store does. */
  lemma ListedNames(db: Tables, entries: seq<StoredEntry>, e: StoredEntry)
    requires ListsEntries(db, entries) && e in entries
    ensures e.feedId in db.feeds && e.feedName == db.feeds[e.feedId].name
  {
    hide Ascending;
  }

  lemma CandidateSource(entries: seq<StoredEntry>, order: map<int, int>, c: Candidate) returns (e: StoredEntry)
    requires c in CandidatesOf(entries, order)
    ensures e in entries && c == CandidateFrom(e, FeedOrder(entries, order, e))
  {
    var i :| 0 <= i < |entries| && CandidatesOf(entries, order)[i] == c;
    e := entries[i];
  }

  lemma ListedFeedsAgree(db: Tables, entries: seq<StoredEntry>, order: map<int, int>)
    requires ListsEntries(db, entries)
    ensures FeedsAgree(CandidatesOf(entries, order))
  {
    hide ListsEntries, CandidatesOf;
    var cs := CandidatesOf(entries, order);
    forall c, d | c in cs && d in cs && c.feedId == d.feedId
      ensures c.feedName == d.feedName && c.feedOrder == d.feedOrder
    {
      var e := CandidateSource(entries, order, c);
      var f := CandidateSource(entries, order, d);
      ListedNames(db, entries, e);
      ListedNames(db, entries, f);
    }
  }

  /** The plan the store's present entries call for. */
  ghost predicate PlanOf(db: Tables, allowlist: seq<Prefix>, order: map<int, int>, objects: seq<Object>) {
    exists entries :: ListsEntries(db, entries) && IsPlan(CandidatesOf(entries, order), allowlist, objects)
  }

  /** Unchanged feeds and entries give the same plan, run after run. */
  lemma PlanRepeats(db: Tables, db': Tables, allowlist: seq<Prefix>, order: map<int, int>, a: seq<Object>,
                    b: seq<Object>)
    requires db'.entries == db.entries && db'.feeds == db.feeds
    requires PlanOf(db, allowlist, order, a) && PlanOf(db', allowlist, order, b)
    ensures a == b
  {
    hide ListsEntries, IsPlan, CandidatesOf, FeedsAgree;
    var e :| ListsEntries(db, e) && IsPlan(CandidatesOf(e, order), allowlist, a);
    var f :| ListsEntries(db', f) && IsPlan(CandidatesOf(f, order), allowlist, b);
    EntriesDetermined(db, db', e, f);
    ListedFeedsAgree(db, e, order);
    PlanDeterministic(CandidatesOf(e, order), CandidatesOf(f, order), allowlist, a, b);
  }

  // ----- The producer meets the store's validation -----

  lemma SourceIsListed(db: Tables, entries: seq<StoredEntry>, order: map<int, int>, p: Prefix, k: Contributor)
    requires ListsEntries(db, entries) && k in Sources(CandidatesOf(entries, order), p)
    ensures k.feedId in db.feeds && k.feedName == db.feeds[k.feedId].name && (k.kind == KindIP || k.kind == KindRange)
    ensures IsSafePrefix(p) && Masked(p) == p
  {
    hide ListsEntries, CandidatesOf, IsSafePrefix, Masked;
    var cs := CandidatesOf(entries, order);
    var c :| c in cs && Accepted(c) && Masked(c.prefix) == p && ContributorOf(c) == k;
    var e := CandidateSource(entries, order, c);
    ListedNames(db, entries, e);
    SafeIsValid(p);
    KindIsKnown(p, c.kind);
  }

  lemma KindIsKnown(p: Prefix, kind: Kind)
    requires ValidateKind(p, kind)
    ensures kind == KindIP || kind == KindRange
  {
  }

  /** What an object keeps from its draft. */
  lemma SettledKeeps(drafts: seq<Object>, d: Object, o: Object)
    requires Settled(drafts, d, o)
    ensures o.prefix == d.prefix && o.scope == d.scope && o.contributors == d.contributors && o.primary == d.primary
    ensures (d.desired <==> d.suppression == SuppressedNone) ==> (o.desired <==> o.suppression == SuppressedNone)
  {
    hide LongestCover, Covers;
  }

  lemma PlannedObjectFits(db: Tables, entries: seq<StoredEntry>, order: map<int, int>, allowlist: seq<Prefix>,
                          drafts: seq<Object>, d: Object, o: Object)
    requires FeedsOk(db.feeds) && ListsEntries(db, entries) && Drafted(CandidatesOf(entries, order), allowlist, d) &&
             Settled(drafts, d, o)
    ensures ValidObject(o) && SourcesFit(db, o.contributors)
    ensures o.primary.feedId in db.feeds && o.primary.feedName == db.feeds[o.primary.feedId].name
  {
    hide ListsEntries, CandidatesOf, IsSafePrefix, Masked, Sources, Ascending, OverlapsAllowlist, IsHost, Settled;
    var cs := CandidatesOf(entries, order);
    SettledKeeps(drafts, d, o);
    forall k | k in o.contributors
      ensures k.feedId in db.feeds && k.feedName == db.feeds[k.feedId].name && ValidContributor(k)
      ensures IsSafePrefix(o.prefix) && Masked(o.prefix) == o.prefix
    {
      SourceIsListed(db, entries, order, o.prefix, k);
    }
    assert o.primary in o.contributors;
    if d.scope == ScopeIP { IPScopeIsHost(cs, allowlist, d); }
    forall i, j | 0 <= i < j < |o.contributors|
      ensures (o.contributors[i].feedId, o.contributors[i].kind) != (o.contributors[j].feedId, o.contributors[j].kind)
    {
      assert o.contributors[i] in o.contributors && o.contributors[j] in o.contributors;
      assert KeyOf(o.contributors[i]) != KeyOf(o.contributors[j]);
    }
  }

  /** A plan names each prefix once. */
  lemma PlanIsDistinct(cs: seq<Candidate>, allowlist: seq<Prefix>, objects: seq<Object>)
    requires IsPlan(cs, allowlist, objects)
    ensures DistinctPrefixes(objects)
  {
    hide Drafted, Settled, AcceptedPrefix;
    var drafts: seq<Object> :| IsPlanFrom(cs, allowlist, drafts, objects);
    forall i, j | 0 <= i < j < |objects|
      ensures objects[i].prefix != objects[j].prefix
    {
      SettledKeeps(drafts, drafts[i], objects[i]);
      SettledKeeps(drafts, drafts[j], objects[j]);
      assert ObjectLess(drafts[i], drafts[j]);
      PrefixOrder(drafts[i].prefix, drafts[j].prefix, drafts[j].prefix);
    }
  }

  /** Every plan made from the store's entries passes the store's validation, and names feeds as the store does. */
  lemma PlanMeetsStore(db: Tables, allowlist: seq<Prefix>, order: map<int, int>, objects: seq<Object>)
    requires FeedsOk(db.feeds) && PlanOf(db, allowlist, order, objects)
    ensures PlanFits(db, objects)
    ensures forall o :: o in objects ==>
            o.primary.feedId in db.feeds && o.primary.feedName == db.feeds[o.primary.feedId].name
  {
    hide ListsEntries, CandidatesOf, Drafted, Settled, FeedsOk, AcceptedPrefix, ValidObject, SourcesFit;
    var entries: seq<StoredEntry> :| ListsEntries(db, entries) &&
        IsPlan(CandidatesOf(entries, order), allowlist, objects);
    var drafts: seq<Object> :| IsPlanFrom(CandidatesOf(entries, order), allowlist, drafts, objects);
    forall i | 0 <= i < |objects|
      ensures ValidObject(objects[i]) && SourcesFit(db, objects[i].contributors)
      ensures objects[i].primary.feedId in db.feeds &&
              objects[i].primary.feedName == db.feeds[objects[i].primary.feedId].name
    {
      assert drafts[i] in drafts;
      PlannedObjectFits(db, entries, order, allowlist, drafts, drafts[i], objects[i]);
    }
    PlanIsDistinct(CandidatesOf(entries, order), allowlist, objects);
  }
}
