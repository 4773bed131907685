/**
 From the feeds' snapshots to the bans, across internal/state/feed_repository.go, internal/network/dedupe.go and
 internal/reconcile/reconcile.go: which entries a run reads, which feeds stand behind an object, which feed leads it,
 and which addresses a successful run leaves banned.
 */
module Pipeline {
  import opened Prefixes
  import opened Safety
  import opened Special
  import opened Orders
  import opened Planner
  import opened PlannerLaws
  import opened Provenance
  import opened Database
  import opened Invariants
  import opened StateStore
  import opened Intake
  import Grace

  // ----- The entries a run reads -----

  /** The entry's feed is enabled, and one of its last `grace` accepted snapshots holds the entry. */
  ghost predicate Current(feeds: map<int, FeedRow>, events: seq<Grace.FeedEvent>, grace: nat, k: EntryKey) {
    k.feedId in feeds && feeds[k.feedId].enabled &&
    var snaps := Grace.Snapshots(events, k.feedId);
    exists i :: 0 <= i < |snaps| && i >= |snaps| - grace && k in snaps[i]
  }

  /** The entries are those that the feeds' history left. */
  ghost predicate Follows(db: Tables, events: seq<Grace.FeedEvent>, grace: nat) {
    grace >= 1 && (forall e :: e in events ==> Grace.ValidEvent(e)) && db.entries == Grace.Replay(events, grace)
  }

  lemma ActiveIsCurrent(db: Tables, events: seq<Grace.FeedEvent>, grace: nat, k: EntryKey)
    requires Follows(db, events, grace)
    ensures k in db.entries && db.entries[k].active && k.feedId in db.feeds && db.feeds[k.feedId].enabled <==>
            Current(db.feeds, events, grace, k)
  {
    hide Grace.Replay, Grace.Snapshots;
    Grace.GraceWindow(events, k.feedId, grace);
    assert k in Grace.ActiveOf(db.entries, k.feedId) <==> k in db.entries && db.entries[k].active;
  }

  /** A run reads exactly the entries of the last `grace` snapshots of the enabled feeds. */
  lemma ListedIsCurrent(db: Tables, events: seq<Grace.FeedEvent>, grace: nat, list: seq<StoredEntry>, e: StoredEntry)
    requires Follows(db, events, grace) && ListsEntries(db, list)
    ensures e in list <==>
            exists k :: Current(db.feeds, events, grace, k) &&
                        e == StoredEntry(k.feedId, db.feeds[k.feedId].name, k.prefix, k.kind)
  {
    hide Follows, Ascending;
    forall k
      ensures IsActiveEntry(db, k) <==> Current(db.feeds, events, grace, k)
    {
      ActiveIsCurrent(db, events, grace, k);
    }
  }

  // ----- Which feeds stand behind an object -----

  /** The feed is enabled and holds an active entry of this kind for the block. */
  ghost predicate Backs(db: Tables, p: Prefix, f: int, kind: Kind) {
    exists k :: k in db.entries && db.entries[k].active && k.feedId in db.feeds && db.feeds[k.feedId].enabled &&
      k.feedId == f && k.kind == kind && MayBan(k.prefix, k.kind) && Masked(k.prefix) == p
  }

  lemma EntryOfCandidate(db: Tables, list: seq<StoredEntry>, order: map<int, int>, c: Candidate, p: Prefix)
    returns (k: EntryKey)
    requires ListsEntries(db, list) && c in CandidatesOf(list, order) && Names(c, p)
    ensures k == EntryKey(c.feedId, c.prefix, c.kind) && k in db.entries && db.entries[k].active
    ensures k.feedId in db.feeds && db.feeds[k.feedId].enabled && c.feedName == db.feeds[k.feedId].name
    ensures MayBan(k.prefix, k.kind) && Masked(k.prefix) == p
  {
    hide Contains, IsSpecial, Masked, IsValid, Ascending, DerivedOrder;
    var e := CandidateSource(list, order, c);
    k :| k in db.entries && IsActiveEntry(db, k) && e == ReadEntry(db, k);
  }

  lemma CandidateOfEntry(db: Tables, list: seq<StoredEntry>, order: map<int, int>, k: EntryKey, p: Prefix)
    returns (c: Candidate)
    requires FeedsOk(db.feeds) && ListsEntries(db, list) && MayBan(k.prefix, k.kind) && Masked(k.prefix) == p
    requires k in db.entries && db.entries[k].active && k.feedId in db.feeds && db.feeds[k.feedId].enabled
    ensures c in CandidatesOf(list, order) && Names(c, p)
    ensures c.prefix == k.prefix && c.kind == k.kind && c.feedId == k.feedId
    ensures c.feedName == db.feeds[k.feedId].name
  {
    hide Contains, IsSpecial, Masked, IsValid, Ascending, DerivedOrder;
    var e := ReadEntry(db, k);
    assert IsActiveEntry(db, k) && e in list;
    var i :| 0 <= i < |list| && list[i] == e;
    c := CandidatesOf(list, order)[i];
    assert FeedNameOk(db.feeds[k.feedId].name);
  }

  /** Under the plan's own candidates, a block's sources are the feeds that back it. */
  lemma NamedIsBacked(db: Tables, order: map<int, int>, list: seq<StoredEntry>, p: Prefix, f: int, kind: Kind)
    requires FeedsOk(db.feeds) && ListsEntries(db, list)
    ensures Backs(db, p, f, kind) <==>
            exists c :: c in CandidatesOf(list, order) && Names(c, p) && c.feedId == f && c.kind == kind
  {
    hide FeedsOk, ListsEntries, CandidatesOf, Names, MayBan, Masked;
    if c :| c in CandidatesOf(list, order) && Names(c, p) && c.feedId == f && c.kind == kind {
      var k := EntryOfCandidate(db, list, order, c, p);
    }
    if Backs(db, p, f, kind) {
      var k :| k in db.entries && db.entries[k].active && k.feedId in db.feeds && db.feeds[k.feedId].enabled &&
        k.feedId == f && k.kind == kind && MayBan(k.prefix, k.kind) && Masked(k.prefix) == p;
      var c := CandidateOfEntry(db, list, order, k, p);
    }
  }

  /** The sources of a planned object are exactly the enabled feeds with an active entry for its block. */
  lemma PlanSources(db: Tables, allowlist: seq<Prefix>, order: map<int, int>, list: seq<StoredEntry>,
                    objects: seq<Object>, o: Object, f: int, kind: Kind)
    requires FeedsOk(db.feeds) && ListsEntries(db, list) && IsPlan(CandidatesOf(list, order), allowlist, objects)
    requires o in objects
    ensures (f, kind) in SourceSet(o.contributors) <==> Backs(db, o.prefix, f, kind)
  {
    hide FeedsOk, ListsEntries, IsPlan, CandidatesOf, Names, Backs, DistinctKeys;
    NamedIsBacked(db, order, list, o.prefix, f, kind);
    SourcesExact(CandidatesOf(list, order), allowlist, objects, o);
  }

  // ----- Which feed leads an object -----

  /** Feeds and names correspond, and the list runs through the names in order. */
  ghost predicate ByName(list: seq<StoredEntry>) {
    (forall d, e :: d in list && e in list ==> (d.feedId == e.feedId <==> d.feedName == e.feedName)) &&
    forall i, j :: 0 <= i <= j < |list| ==>
      list[i].feedName == list[j].feedName || StringLess(list[i].feedName, list[j].feedName)
  }

  lemma ListedByName(db: Tables, list: seq<StoredEntry>)
    requires FeedsOk(db.feeds) && ListsEntries(db, list)
    ensures ByName(list)
  {
    hide StringLess, PrefixLess, FeedNameOk;
    forall e | e in list
      ensures e.feedId in db.feeds && e.feedName == db.feeds[e.feedId].name
    {
      ListedNames(db, list, e);
    }
  }

  /** The feeds without a configured order that come before `name` in the list. */
  ghost function Earlier(list: seq<StoredEntry>, order: map<int, int>, name: string): set<int> {
    set e | e in list && e.feedId !in order && StringLess(e.feedName, name) :: e.feedId
  }

  ghost function Unordered(list: seq<StoredEntry>, order: map<int, int>): set<int> {
    set e | e in list && e.feedId !in order :: e.feedId
  }

  lemma EarlierKeeps(list: seq<StoredEntry>, order: map<int, int>, name: string)
    requires list != [] && !StringLess(list[|list| - 1].feedName, name)
    ensures Earlier(list, order, name) == Earlier(list[..|list| - 1], order, name)
  {
    hide StringLess;
    var n := |list| - 1;
    assert list == list[..n] + [list[n]];
    assert forall e :: e in list && e != list[n] ==> e in list[..n];
  }

  /** A feed new at the end of the list has every earlier feed before it. */
  lemma EarlierOfLast(list: seq<StoredEntry>, order: map<int, int>)
    requires list != [] && ByName(list)
    requires list[|list| - 1].feedId !in Unordered(list[..|list| - 1], order)
    ensures list[|list| - 1].feedId !in order ==>
            Earlier(list, order, list[|list| - 1].feedName) == Unordered(list[..|list| - 1], order)
  {
    hide StringLess;
    var n := |list| - 1;
    var last, rest := list[n], list[..n];
    StringIrreflexive(last.feedName);
    EarlierKeeps(list, order, last.feedName);
    if last.feedId !in order {
      forall e | e in rest && e.feedId !in order
        ensures StringLess(e.feedName, last.feedName)
      {
        var i :| 0 <= i < n && list[i] == e;
        assert e in list && last in list;
      }
    }
  }

  lemma ByNameSoFar(list: seq<StoredEntry>)
    requires list != [] && ByName(list)
    ensures ByName(list[..|list| - 1])
    ensures forall e :: e in list ==> !StringLess(list[|list| - 1].feedName, e.feedName)
  {
    hide StringLess;
    var n := |list| - 1;
    forall e | e in list
      ensures !StringLess(list[n].feedName, e.feedName)
    {
      var i :| 0 <= i <= n && list[i] == e;
      StringAsymmetric(e.feedName, list[n].feedName);
      StringIrreflexive(e.feedName);
    }
    assert forall e :: e in list[..n] ==> e in list;
  }

  lemma {:induction false} DerivedKeys(list: seq<StoredEntry>, order: map<int, int>)
    ensures DerivedOrder(list, order).Keys == Unordered(list, order)
  {
    if list != [] {
      var n := |list| - 1;
      assert list == list[..n] + [list[n]];
      DerivedKeys(list[..n], order);
    }
  }

  /** Each derived number counts the feeds before it. */
  ghost predicate Ranked(list: seq<StoredEntry>, order: map<int, int>, e: StoredEntry) {
    e.feedId in DerivedOrder(list, order) &&
    DerivedOrder(list, order)[e.feedId] == |Earlier(list, order, e.feedName)|
  }

  lemma RankStep(list: seq<StoredEntry>, order: map<int, int>, e: StoredEntry)
    requires list != [] && ByName(list) && e in list && e.feedId !in order
    requires forall d :: d in list[..|list| - 1] && d.feedId !in order ==> Ranked(list[..|list| - 1], order, d)
    ensures Ranked(list, order, e)
  {
    hide StringLess, ByName, Earlier, Unordered;
    var n := |list| - 1;
    var rest := list[..n];
    DerivedKeys(rest, order);
    ByNameSoFar(list);
    EarlierKeeps(list, order, e.feedName);
    RankOfTwin(list, order, e);
    if e.feedId in Unordered(rest, order) {
      var d :| d in rest && d.feedId == e.feedId && d.feedName == e.feedName;
      assert Ranked(rest, order, d);
    } else {
      EarlierOfLast(list, order);
    }
  }

  /** The number derived for a feed counts the feeds without a configured order whose names come first. */
  lemma {:induction false} DerivedIsRank(list: seq<StoredEntry>, order: map<int, int>, e: StoredEntry)
    requires ByName(list) && e in list && e.feedId !in order
    ensures Ranked(list, order, e)
  {
    hide StringLess, ByName, Ranked;
    var rest := list[..|list| - 1];
    ByNameSoFar(list);
    forall d | d in rest && d.feedId !in order ensures Ranked(rest, order, d) { DerivedIsRank(rest, order, d); }
    RankStep(list, order, e);
  }

  /** An entry in the list is in the rest of it too, or another entry of its feed is, or its feed is new. */
  lemma RankOfTwin(list: seq<StoredEntry>, order: map<int, int>, e: StoredEntry)
    requires list != [] && ByName(list) && e in list && e.feedId !in order
    ensures e.feedId in Unordered(list[..|list| - 1], order) ==>
            exists d :: d in list[..|list| - 1] && d.feedId == e.feedId && d.feedName == e.feedName
    ensures e.feedId !in Unordered(list[..|list| - 1], order) ==> e == list[|list| - 1]
  {
    var n := |list| - 1;
    assert list == list[..n] + [list[n]];
    if e.feedId in Unordered(list[..n], order) {
      var d :| d in list[..n] && d.feedId !in order && d.feedId == e.feedId;
      assert d in list;
    }
  }

  /** The enabled feeds that have an active entry but no configured order, and whose names come before `name`. */
  ghost function Ahead(db: Tables, order: map<int, int>, name: string): set<int> {
    set k | k in db.entries && db.entries[k].active && k.feedId in db.feeds && db.feeds[k.feedId].enabled &&
      k.feedId !in order && Precedes(db.feeds[k.feedId].name, name) :: k.feedId
  }

  /** A feed's place: its configured order, or how many other feeds without one have earlier names. */
  ghost function Place(db: Tables, order: map<int, int>, f: int): int
    requires f in db.feeds
  {
    if f in order then order[f] else |Ahead(db, order, db.feeds[f].name)|
  }

  lemma EarlierIsAhead(db: Tables, list: seq<StoredEntry>, order: map<int, int>, name: string)
    requires ListsEntries(db, list)
    ensures Earlier(list, order, name) == Ahead(db, order, name)
  {
    hide Ascending, StringLess, Precedes;
    forall e | e in list ensures StringLess(e.feedName, name) <==> Precedes(e.feedName, name) {
      StringLessMeans(e.feedName, name);
    }
    forall f | f in Ahead(db, order, name)
      ensures f in Earlier(list, order, name)
    {
      var k :| k in db.entries && IsActiveEntry(db, k) && k.feedId == f && k.feedId !in order &&
        Precedes(db.feeds[k.feedId].name, name);
      assert ReadEntry(db, k) in list;
    }
  }

  lemma OrderIsPlace(db: Tables, list: seq<StoredEntry>, order: map<int, int>, e: StoredEntry)
    requires FeedsOk(db.feeds) && ListsEntries(db, list) && e in list
    ensures e.feedId in db.feeds && FeedOrder(list, order, e) == Place(db, order, e.feedId)
  {
    hide FeedsOk, ListsEntries, DerivedOrder, Earlier, Ahead, ByName;
    ListedNames(db, list, e);
    if e.feedId !in order {
      ListedByName(db, list);
      DerivedIsRank(list, order, e);
      EarlierIsAhead(db, list, order, e.feedName);
    }
  }

  /** A source of a planned object carries the place of its feed. */
  lemma SourcePlace(db: Tables, list: seq<StoredEntry>, order: map<int, int>, p: Prefix, x: Contributor)
    requires FeedsOk(db.feeds) && ListsEntries(db, list) && SourceOf(CandidatesOf(list, order), p, x)
    ensures x.feedId in db.feeds && x.feedName == db.feeds[x.feedId].name && x.feedOrder == Place(db, order, x.feedId)
  {
    hide FeedsOk, ListsEntries, CandidatesOf, Names, Place, FeedOrder;
    var c :| c in CandidatesOf(list, order) && Names(c, p) &&
      c.feedId == x.feedId && c.feedName == x.feedName && c.feedOrder == x.feedOrder && c.kind == x.kind;
    var e := CandidateSource(list, order, c);
    ListedNames(db, list, e);
    OrderIsPlace(db, list, order, e);
  }

  /** What the store holds of an object: the feeds that back it, led by the one in the first place. */
  ghost predicate WellLed(db: Tables, order: map<int, int>, p: Prefix, row: ObjectRow) {
    (forall f, kind :: (f, kind) in row.sources <==> Backs(db, p, f, kind)) &&
    row.primary.Some? && row.primary.value in db.feeds &&
    (exists kind :: (row.primary.value, kind) in row.sources) &&
    forall s :: s in row.sources && s.0 in db.feeds ==> Outranks(db, order, row.primary.value, s.0)
  }

  /** A lower place, or the same place and an earlier name. */
  ghost predicate Outranks(db: Tables, order: map<int, int>, f: int, g: int)
    requires f in db.feeds && g in db.feeds
  {
    Place(db, order, f) <= Place(db, order, g) &&
    (Place(db, order, f) == Place(db, order, g) ==> f == g || Precedes(db.feeds[f].name, db.feeds[g].name))
  }

  lemma LeaderPlace(db: Tables, allowlist: seq<Prefix>, order: map<int, int>, list: seq<StoredEntry>,
                    objects: seq<Object>, o: Object, x: Contributor)
    requires FeedsOk(db.feeds) && ListsEntries(db, list) && IsPlan(CandidatesOf(list, order), allowlist, objects)
    requires o in objects && x in o.contributors
    ensures o.primary in o.contributors && o.primary.feedId in db.feeds && x.feedId in db.feeds
    ensures Outranks(db, order, o.primary.feedId, x.feedId)
  {
    hide ListsEntries, IsPlan, CandidatesOf, Place, Precedes, SourceOf, FeedNameOk;
    var cs := CandidatesOf(list, order);
    PrimaryLeads(cs, allowlist, objects, o);
    SourcesExact(cs, allowlist, objects, o);
    SourcePlace(db, list, order, o.prefix, o.primary);
    SourcePlace(db, list, order, o.prefix, x);
    assert Leads(o.primary, x);
  }

  /** The stored primary of a planned object is the source in the first place, ties going to the earlier name. */
  lemma StoredPrimary(db: Tables, allowlist: seq<Prefix>, order: map<int, int>, objects: seq<Object>, now: Seconds,
                      db': Tables, p: Prefix)
    requires FeedsOk(db.feeds) && PlanOf(db, allowlist, order, objects) && PlanApplied(db, objects, now, db')
    requires p in PlanPrefixes(objects)
    ensures p in db'.objects && WellLed(db, order, p, db'.objects[p])
  {
    hide FeedsOk, ListsEntries, IsPlan, CandidatesOf, Backs, Outranks, StaleRow;
    var list: seq<StoredEntry> :| ListsEntries(db, list) && IsPlan(CandidatesOf(list, order), allowlist, objects);
    var o :| o in objects && o.prefix == p;
    forall f, kind
      ensures (f, kind) in SourceSet(o.contributors) <==> Backs(db, p, f, kind)
    {
      PlanSources(db, allowlist, order, list, objects, o, f, kind);
    }
    PrimaryLeads(CandidatesOf(list, order), allowlist, objects, o);
    LeaderPlace(db, allowlist, order, list, objects, o, o.primary);
    assert (o.primary.feedId, o.primary.kind) in SourceSet(o.contributors);
    forall s | s in SourceSet(o.contributors) && s.0 in db.feeds
      ensures Outranks(db, order, o.primary.feedId, s.0)
    {
      var x :| x in o.contributors && (x.feedId, x.kind) == s;
      LeaderPlace(db, allowlist, order, list, objects, o, x);
    }
  }

  // ----- From snapshots to objects and addresses -----

  /** Some current entry of feed `f` names the block as a ban of this kind. */
  ghost predicate Reported(feeds: map<int, FeedRow>, events: seq<Grace.FeedEvent>, grace: nat, p: Prefix, f: int,
                           kind: Kind) {
    exists k :: Current(feeds, events, grace, k) && k.feedId == f && k.kind == kind && MayBan(k.prefix, k.kind) &&
      Masked(k.prefix) == p
  }

  lemma BackedIsReported(db: Tables, events: seq<Grace.FeedEvent>, grace: nat, p: Prefix, f: int, kind: Kind)
    requires Follows(db, events, grace)
    ensures Backs(db, p, f, kind) <==> Reported(db.feeds, events, grace, p, f, kind)
  {
    hide Follows, MayBan, Masked, Current;
    forall k
      ensures IsActiveEntry(db, k) <==> Current(db.feeds, events, grace, k)
    {
      ActiveIsCurrent(db, events, grace, k);
    }
    if Backs(db, p, f, kind) {
      var k :| IsActiveEntry(db, k) && k.feedId == f && k.kind == kind && MayBan(k.prefix, k.kind) &&
        Masked(k.prefix) == p;
    }
    if Reported(db.feeds, events, grace, p, f, kind) {
      var k :| Current(db.feeds, events, grace, k) && k.feedId == f && k.kind == kind && MayBan(k.prefix, k.kind) &&
        Masked(k.prefix) == p;
      assert IsActiveEntry(db, k);
    }
  }

  /**
   What a feed contributes to a plan: exactly the bannable entries of its last `grace` accepted snapshots, and
   nothing when the feed is disabled.
   */
  lemma FeedContributes(db: Tables, events: seq<Grace.FeedEvent>, grace: nat, allowlist: seq<Prefix>,
                        order: map<int, int>, objects: seq<Object>, p: Prefix, f: int, kind: Kind)
    requires FeedsOk(db.feeds) && Follows(db, events, grace) && PlanOf(db, allowlist, order, objects)
    ensures (exists o :: o in objects && o.prefix == p && (f, kind) in SourceSet(o.contributors)) <==>
            Reported(db.feeds, events, grace, p, f, kind)
    ensures f in db.feeds && !db.feeds[f].enabled ==>
            forall o :: o in objects ==> (f, kind) !in SourceSet(o.contributors)
  {
    hide FeedsOk, ListsEntries, IsPlan, CandidatesOf, Backs, SourceSet, Follows, Names, Reported;
    var list: seq<StoredEntry> :| ListsEntries(db, list) && IsPlan(CandidatesOf(list, order), allowlist, objects);
    forall o | o in objects
      ensures (f, kind) in SourceSet(o.contributors) <==> Reported(db.feeds, events, grace, o.prefix, f, kind)
    {
      PlanSources(db, allowlist, order, list, objects, o, f, kind);
      BackedIsReported(db, events, grace, o.prefix, f, kind);
    }
    if Reported(db.feeds, events, grace, p, f, kind) {
      BackedIsReported(db, events, grace, p, f, kind);
      NamedIsBacked(db, order, list, p, f, kind);
      PlanCatalogs(CandidatesOf(list, order), allowlist, objects);
    }
    forall q ensures f in db.feeds && !db.feeds[f].enabled ==> !Reported(db.feeds, events, grace, q, f, kind) {
      DisabledReportsNothing(db.feeds, events, grace, q, f, kind);
    }
  }

  lemma DisabledReportsNothing(feeds: map<int, FeedRow>, events: seq<Grace.FeedEvent>, grace: nat, p: Prefix, f: int,
                               kind: Kind)
    ensures f in feeds && !feeds[f].enabled ==> !Reported(feeds, events, grace, p, f, kind)
  {
  }

  /** The address is in a bannable current entry that touches no allowlisted address. */
  ghost predicate Reports(feeds: map<int, FeedRow>, events: seq<Grace.FeedEvent>, grace: nat, allowlist: seq<Prefix>,
                          a: Addr) {
    exists k :: Current(feeds, events, grace, k) && MayBan(k.prefix, k.kind) &&
      (forall q :: q in allowlist ==> !Meet(k.prefix, q)) && Contains(k.prefix, a)
  }

  lemma ListsMeans(c: Candidate, allowlist: seq<Prefix>)
    ensures Accepted(c) && !OverlapsAllowlist(Masked(c.prefix), allowlist) <==>
            Names(c, Masked(c.prefix)) && forall q :: q in allowlist ==> !Meet(c.prefix, q)
  {
    hide Accepted, Names, Masked, OverlapsAllowlist, Contains;
    AcceptedMeans(c, Masked(c.prefix));
    AllowlistMeans(Masked(c.prefix), allowlist);
    MaskedIsMasked(c.prefix);
    forall a
      ensures Contains(Masked(c.prefix), a) <==> Contains(c.prefix, a)
    {
      assert a in Addresses(Masked(c.prefix)) <==> a in Addresses(c.prefix);
    }
  }

  /** The plan bans exactly the reported addresses. */
  lemma PlanBans(db: Tables, events: seq<Grace.FeedEvent>, grace: nat, allowlist: seq<Prefix>, order: map<int, int>,
                 objects: seq<Object>, a: Addr)
    requires FeedsOk(db.feeds) && Follows(db, events, grace) && PlanOf(db, allowlist, order, objects)
    ensures Bans(objects, a) <==> Reports(db.feeds, events, grace, allowlist, a)
  {
    hide FeedsOk, ListsEntries, IsPlan, CandidatesOf, Follows, Names, Accepted, Masked, OverlapsAllowlist, Meet,
         Contains, Current, MayBan;
    var list: seq<StoredEntry> :| ListsEntries(db, list) && IsPlan(CandidatesOf(list, order), allowlist, objects);
    var cs := CandidatesOf(list, order);
    PlanPreservesMeaning(cs, allowlist, objects);
    assert Bans(objects, a) <==> a in Banned(objects);
    assert Lists(cs, allowlist, a) <==> a in Listed(cs, allowlist);
    if Lists(cs, allowlist, a) {
      var c :| c in cs && Accepted(c) && !OverlapsAllowlist(Masked(c.prefix), allowlist) && Contains(c.prefix, a);
      ListsMeans(c, allowlist);
      var k := EntryOfCandidate(db, list, order, c, Masked(c.prefix));
      ActiveIsCurrent(db, events, grace, k);
    }
    if Reports(db.feeds, events, grace, allowlist, a) {
      var k :| Current(db.feeds, events, grace, k) && MayBan(k.prefix, k.kind) &&
        (forall q :: q in allowlist ==> !Meet(k.prefix, q)) && Contains(k.prefix, a);
      ActiveIsCurrent(db, events, grace, k);
      var c := CandidateOfEntry(db, list, order, k, Masked(k.prefix));
      ListsMeans(c, allowlist);
    }
  }
}
