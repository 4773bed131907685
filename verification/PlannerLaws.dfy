/**
 What every plan of internal/network/dedupe.go means: the addresses it bans, that it does
 not depend on the order of its input, and which range a suppressed host is covered by.
 */
module PlannerLaws {
  import opened Prefixes
  import opened Safety
  import opened Special
  import opened Orders
  import opened Planner

  ghost predicate Bans(objects: seq<Object>, a: Addr) {
    exists o :: o in objects && o.desired && Contains(o.prefix, a)
  }

  /** `a` belongs to a safe, well-kinded candidate whose prefix meets no allowlist entry. */
  ghost predicate Lists(cs: seq<Candidate>, allowlist: seq<Prefix>, a: Addr) {
    exists c :: c in cs && Accepted(c) && !OverlapsAllowlist(Masked(c.prefix), allowlist) && Contains(c.prefix, a)
  }

  ghost predicate Allows(allowlist: seq<Prefix>, a: Addr) {
    exists p :: p in allowlist && Contains(p, a)
  }

  ghost function Banned(objects: seq<Object>): iset<Addr> {
    iset a: Addr | Bans(objects, a)
  }

  ghost function Listed(cs: seq<Candidate>, allowlist: seq<Prefix>): iset<Addr> {
    iset a: Addr | Lists(cs, allowlist, a)
  }

  ghost function Allowed(allowlist: seq<Prefix>): iset<Addr> {
    iset a: Addr | Allows(allowlist, a)
  }

  lemma CandidateOf(cs: seq<Candidate>, p: Prefix) returns (c: Candidate)
    requires AcceptedPrefix(cs, p)
    ensures c in cs && Accepted(c) && Masked(c.prefix) == p && IsValid(p) && Addresses(c.prefix) == Addresses(p)
  {
    hide Accepted, Masked, Addresses;
    AcceptedIsValid(cs, p);
    var k :| k in Sources(cs, p);
    c :| c in cs && Accepted(c) && Masked(c.prefix) == p && ContributorOf(c) == k;
    MaskedIsMasked(c.prefix);
  }

  lemma AcceptedHere(cs: seq<Candidate>, c: Candidate)
    requires c in cs && Accepted(c)
    ensures AcceptedPrefix(cs, Masked(c.prefix)) && IsSafePrefix(Masked(c.prefix))
    ensures Addresses(c.prefix) == Addresses(Masked(c.prefix))
  {
    hide IsSafePrefix, ValidateKind, Masked, Addresses;
    assert ContributorOf(c) in Sources(cs, Masked(c.prefix));
    MaskedIsMasked(c.prefix);
  }

  /** An object of a plan comes from an accepted prefix and is desired only off the allowlist. */
  lemma PlanObject(cs: seq<Candidate>, allowlist: seq<Prefix>, drafts: seq<Object>, objects: seq<Object>, o: Object)
    requires IsPlanFrom(cs, allowlist, drafts, objects) && o in objects
    ensures AcceptedPrefix(cs, o.prefix)
    ensures o.desired ==> !OverlapsAllowlist(o.prefix, allowlist)
  {
    hide Sources, OverlapsAllowlist, Covers, LongestCover;
    var i :| 0 <= i < |objects| && objects[i] == o;
    assert drafts[i] in drafts;
  }

  /** A host inside a desired range bans nothing the range does not. */
  lemma CoveredAddsNothing(r: Object, host: Prefix, a: Addr)
    requires Covers(r, host) && IsHost(host) && Contains(host, a)
    ensures Contains(r.prefix, a)
  {
    HostIsOneAddress(host, a);
  }

  /** Ranges keep their verdict through the coverage pass. */
  lemma RangeSurvives(cs: seq<Candidate>, allowlist: seq<Prefix>, drafts: seq<Object>, objects: seq<Object>,
                      r: Object, host: Prefix)
    requires IsPlanFrom(cs, allowlist, drafts, objects) && r in drafts && Covers(r, host)
    ensures r in objects
  {
    hide Sources, OverlapsAllowlist, LongestCover, DraftsOk;
    var i :| 0 <= i < |drafts| && drafts[i] == r;
    assert Settled(drafts, drafts[i], objects[i]);
    assert objects[i] == r;
  }

  lemma IPScopeIsHost(cs: seq<Candidate>, allowlist: seq<Prefix>, d: Object)
    requires Drafted(cs, allowlist, d) && d.scope == ScopeIP
    ensures IsHost(d.prefix)
  {
    hide OverlapsAllowlist, IsSafePrefix, Masked;
    var k :| k in d.contributors && k.kind == KindIP;
    assert k in Sources(cs, d.prefix);
    var c :| c in cs && Accepted(c) && Masked(c.prefix) == d.prefix && ContributorOf(c) == k;
    assert ValidateKind(d.prefix, KindIP);
  }

  /** The draft and the final object of an accepted prefix. */
  lemma PlanEntry(cs: seq<Candidate>, allowlist: seq<Prefix>, drafts: seq<Object>, objects: seq<Object>, p: Prefix)
    returns (d: Object, o: Object)
    requires IsPlanFrom(cs, allowlist, drafts, objects) && AcceptedPrefix(cs, p)
    ensures d in drafts && o in objects && d.prefix == p && Drafted(cs, allowlist, d) && Settled(drafts, d, o)
  {
    hide AcceptedPrefix, Drafted, Settled;
    d :| d in drafts && d.prefix == p;
    var i :| 0 <= i < |drafts| && drafts[i] == d;
    o := objects[i];
  }

  /** Every listed address is banned, by its own object or by the range that covers it. */
  lemma ListedIsBanned(cs: seq<Candidate>, allowlist: seq<Prefix>, drafts: seq<Object>, objects: seq<Object>,
                       p: Prefix, a: Addr)
    requires IsPlanFrom(cs, allowlist, drafts, objects)
    requires AcceptedPrefix(cs, p) && !OverlapsAllowlist(p, allowlist) && Contains(p, a)
    ensures Bans(objects, a)
  {
    hide AcceptedPrefix, OverlapsAllowlist, LongestCover, Contains, Covers, IsPlanFrom, ContributorsOk, Sources;
    var d, o := PlanEntry(cs, allowlist, drafts, objects, p);
    if !o.desired {
      var r :| r in drafts && Covers(r, p);
      IPScopeIsHost(cs, allowlist, d);
      CoveredAddsNothing(r, p, a);
      RangeSurvives(cs, allowlist, drafts, objects, r, p);
      CoverIsDesired(r, p);
    }
  }

  lemma CoverIsDesired(r: Object, host: Prefix)
    requires Covers(r, host)
    ensures r.desired && r.scope == ScopeRange
  {
  }

  /** The planner preserves meaning: it bans exactly the listed addresses. */
  lemma PlanPreservesMeaning(cs: seq<Candidate>, allowlist: seq<Prefix>, objects: seq<Object>)
    requires IsPlan(cs, allowlist, objects)
    ensures Banned(objects) == Listed(cs, allowlist)
  {
    hide Contains, Accepted, Masked, OverlapsAllowlist, IsPlanFrom, AcceptedPrefix, IsSafePrefix;
    var drafts :| IsPlanFrom(cs, allowlist, drafts, objects);
    forall a | a in Banned(objects)
      ensures a in Listed(cs, allowlist)
    {
      var o :| o in objects && o.desired && Contains(o.prefix, a);
      PlanObject(cs, allowlist, drafts, objects, o);
      var c := CandidateOf(cs, o.prefix);
      assert a in Addresses(o.prefix);
      assert a in Addresses(c.prefix);
    }
    forall a | a in Listed(cs, allowlist)
      ensures a in Banned(objects)
    {
      var c :| c in cs && Accepted(c) && !OverlapsAllowlist(Masked(c.prefix), allowlist) && Contains(c.prefix, a);
      AcceptedHere(cs, c);
      assert a in Addresses(c.prefix);
      assert a in Addresses(Masked(c.prefix));
      ListedIsBanned(cs, allowlist, drafts, objects, Masked(c.prefix), a);
    }
  }

  lemma OffAllowlist(p: Prefix, allowlist: seq<Prefix>, allowed: Prefix, a: Addr)
    requires !OverlapsAllowlist(p, allowlist) && allowed in allowlist && Contains(p, a)
    ensures !Contains(allowed, a)
  {
    if Contains(allowed, a) {
      MaskedIsMasked(allowed);
      assert a in Addresses(allowed);
      assert a in Addresses(Masked(allowed));
      OverlapMeansSharing(p, Masked(allowed));
    }
  }

  /** No plan bans an allowlisted address or one of the special-purpose table. */
  lemma PlanSparesProtected(cs: seq<Candidate>, allowlist: seq<Prefix>, objects: seq<Object>)
    requires IsPlan(cs, allowlist, objects)
    ensures Banned(objects) !! Allowed(allowlist)
    ensures Banned(objects) !! SpecialAddresses() && forall a :: a in Banned(objects) ==> !IsSpecial(a)
  {
    hide Contains, Accepted, Masked, OverlapsAllowlist, IsPlanFrom, AcceptedPrefix, IsSafePrefix, IsSpecial;
    var drafts :| IsPlanFrom(cs, allowlist, drafts, objects);
    forall a | a in Banned(objects)
      ensures a !in Allowed(allowlist) && a !in SpecialAddresses() && !IsSpecial(a)
    {
      var o :| o in objects && o.desired && Contains(o.prefix, a);
      PlanObject(cs, allowlist, drafts, objects, o);
      forall p | p in allowlist ensures !Contains(p, a) { OffAllowlist(o.prefix, allowlist, p, a); }
      AcceptedIsValid(cs, o.prefix);
      SafeMissesSpecial(o.prefix);
      SafeIffNoSpecial(o.prefix);
      assert a in Addresses(o.prefix);
    }
  }

  // ----- Determinism -----

  /** Feed name and order are functions of the feed id, as the store and the engine make them. */
  ghost predicate FeedsAgree(cs: seq<Candidate>) {
    forall c, d :: c in cs && d in cs && c.feedId == d.feedId ==> c.feedName == d.feedName && c.feedOrder == d.feedOrder
  }

  ghost predicate SameCandidates(cs: seq<Candidate>, ds: seq<Candidate>) {
    forall c :: c in cs <==> c in ds
  }

  lemma SourcesAgree(cs: seq<Candidate>, ds: seq<Candidate>, p: Prefix)
    requires SameCandidates(cs, ds)
    ensures Sources(cs, p) == Sources(ds, p)
  {
    hide Accepted, Masked;
  }

  /** When feeds agree, the kept contributors are exactly the sources. */
  lemma KeepsAllSources(cs: seq<Candidate>, p: Prefix, contributors: seq<Contributor>)
    requires FeedsAgree(cs) && ContributorsOk(Sources(cs, p), contributors)
    ensures forall k :: k in contributors <==> k in Sources(cs, p)
  {
    hide Accepted, Masked;
    forall k | k in Sources(cs, p)
      ensures k in contributors
    {
      assert KeyOf(k) in Keys(contributors);
      var x :| x in contributors && KeyOf(x) == KeyOf(k);
      assert x in Sources(cs, p);
      var c :| c in cs && Accepted(c) && Masked(c.prefix) == p && ContributorOf(c) == k;
      var d :| d in cs && Accepted(d) && Masked(d.prefix) == p && ContributorOf(d) == x;
      assert c.feedId == d.feedId;
    }
  }

  lemma DraftUnique(cs: seq<Candidate>, ds: seq<Candidate>, allowlist: seq<Prefix>, a: Object, b: Object)
    requires SameCandidates(cs, ds) && FeedsAgree(cs) && FeedsAgree(ds)
    requires Drafted(cs, allowlist, a) && Drafted(ds, allowlist, b) && a.prefix == b.prefix
    ensures a == b
  {
    hide Sources, OverlapsAllowlist;
    SourcesAgree(cs, ds, a.prefix);
    KeepsAllSources(cs, a.prefix, a.contributors);
    KeepsAllSources(ds, b.prefix, b.contributors);
    ContributorOrder();
    AscendingUnique(a.contributors, b.contributors, ContributorLess);
  }

  lemma DraftIncluded(cs: seq<Candidate>, ds: seq<Candidate>, allowlist: seq<Prefix>, a: seq<Object>, b: seq<Object>,
                      o: Object)
    requires SameCandidates(cs, ds) && FeedsAgree(cs) && FeedsAgree(ds)
    requires DraftsOk(cs, allowlist, a) && DraftsOk(ds, allowlist, b) && o in a
    ensures o in b
  {
    hide Sources, Drafted, Ascending, SameCandidates, FeedsAgree;
    SourcesAgree(cs, ds, o.prefix);
    assert AcceptedPrefix(ds, o.prefix);
    var x :| x in b && x.prefix == o.prefix;
    DraftUnique(cs, ds, allowlist, o, x);
  }

  /** The covering range of a host is unique: two longest covers are the same prefix. */
  lemma LongestCoverUnique(cs: seq<Candidate>, allowlist: seq<Prefix>, drafts: seq<Object>, host: Prefix, p: Prefix,
                           q: Prefix)
    requires DraftsOk(cs, allowlist, drafts)
    requires LongestCover(drafts, host, p) && LongestCover(drafts, host, q)
    ensures p == q
  {
    hide Drafted, AcceptedPrefix, Contains, IsSafePrefix, Masked;
    var o :| o in drafts && Covers(o, host) && o.prefix == p;
    var r :| r in drafts && Covers(r, host) && r.prefix == q;
    AcceptedIsValid(cs, p);
    AcceptedIsValid(cs, q);
    SafeIsValid(p);
    SafeIsValid(q);
    EqualLengthOverlap(p, q, Base(host));
  }

  lemma SettledUnique(cs: seq<Candidate>, allowlist: seq<Prefix>, drafts: seq<Object>, d: Object, a: Object, b: Object)
    requires DraftsOk(cs, allowlist, drafts) && Settled(drafts, d, a) && Settled(drafts, d, b)
    ensures a == b
  {
    hide Covers, LongestCover, DraftsOk;
    if a != d || b != d {
      LongestCoverUnique(cs, allowlist, drafts, d.prefix, a.coveredBy.value, b.coveredBy.value);
    }
  }

  /** Whatever the order of the candidates and of map iteration, the plan is the same sequence. */
  lemma PlanDeterministic(cs: seq<Candidate>, ds: seq<Candidate>, allowlist: seq<Prefix>, a: seq<Object>,
                          b: seq<Object>)
    requires SameCandidates(cs, ds) && FeedsAgree(cs)
    requires IsPlan(cs, allowlist, a) && IsPlan(ds, allowlist, b)
    ensures a == b
  {
    hide DraftsOk, Settled;
    assert FeedsAgree(ds);
    var x :| IsPlanFrom(cs, allowlist, x, a);
    var y :| IsPlanFrom(ds, allowlist, y, b);
    forall o
      ensures o in x <==> o in y
    {
      if o in x { DraftIncluded(cs, ds, allowlist, x, y, o); }
      if o in y { DraftIncluded(ds, cs, allowlist, y, x, o); }
    }
    DraftsAscend(cs, allowlist, x);
    DraftsAscend(ds, allowlist, y);
    ObjectOrder();
    AscendingUnique(x, y, ObjectLess);
    forall i | 0 <= i < |x|
      ensures a[i] == b[i]
    {
      SettledUnique(cs, allowlist, x, x[i], a[i], b[i]);
    }
  }

  lemma DraftsAscend(cs: seq<Candidate>, allowlist: seq<Prefix>, drafts: seq<Object>)
    requires DraftsOk(cs, allowlist, drafts)
    ensures Ascending(drafts, ObjectLess)
  {
  }
}
