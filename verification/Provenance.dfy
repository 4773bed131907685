/**
 What the objects of a plan are, said of the candidates and addresses alone: which candidates an object comes from,
 which of them leads, and why an object is not wanted.
 */
module Provenance {
  import opened Prefixes
  import opened Safety
  import opened Special
  import opened Orders
  import opened Planner
  import opened PlannerLaws

  /** `a` is a proper beginning of `b`, or smaller at the first place where they differ. */
  ghost predicate Precedes(a: string, b: string) {
    exists n :: 0 <= n < |b| && n <= |a| && a[..n] == b[..n] && (n == |a| || a[n] < b[n])
  }

  lemma SameStart(a: string, b: string, n: nat)
    requires n <= |a| && n <= |b| && a[..n] == b[..n]
    ensures n != 0 ==> a[0] == b[0]
  {
    assert n != 0 ==> a[..n][0] == a[0] && b[..n][0] == b[0];
  }

  lemma {:induction false} StringLessMeans(a: string, b: string)
    ensures StringLess(a, b) <==> Precedes(a, b)
  {
    if b != [] && a != [] && a[0] == b[0] {
      StringLessMeans(a[1..], b[1..]);
      if Precedes(a[1..], b[1..]) {
        var n :| 0 <= n < |b[1..]| && n <= |a[1..]| && a[1..][..n] == b[1..][..n] &&
          (n == |a[1..]| || a[1..][n] < b[1..][n]);
        assert a[..n + 1] == [a[0]] + a[1..][..n] && b[..n + 1] == [b[0]] + b[1..][..n];
        assert 0 <= n + 1 < |b|;
      }
      if Precedes(a, b) {
        var n :| 0 <= n < |b| && n <= |a| && a[..n] == b[..n] && (n == |a| || a[n] < b[n]);
        assert n != 0;
        assert a[1..][..n - 1] == a[..n][1..] && b[1..][..n - 1] == b[..n][1..];
        assert 0 <= n - 1 < |b[1..]|;
      }
    } else if b != [] {
      assert a[..0] == b[..0];
      if Precedes(a, b) && a != [] {
        var n :| 0 <= n < |b| && n <= |a| && a[..n] == b[..n] && (n == |a| || a[n] < b[n]);
        SameStart(a, b, n);
      }
    }
  }

  /** The candidate names the block `p`: its prefix may become a ban, and it comes from a named feed. */
  ghost predicate Names(c: Candidate, p: Prefix) {
    MayBan(c.prefix, c.kind) && Masked(c.prefix) == p && c.feedId >= 1 && c.feedName != ""
  }

  lemma AcceptedMeans(c: Candidate, p: Prefix)
    ensures Accepted(c) && Masked(c.prefix) == p <==> Names(c, p)
  {
    hide MayBan, IsSafePrefix, ValidateKind, Masked;
    MayBanMeans(c.prefix, c.kind);
  }

  /** The prefixes share an address. */
  ghost predicate Meet(p: Prefix, q: Prefix) { exists a :: Contains(p, a) && Contains(q, a) }

  lemma AllowlistMeans(p: Prefix, allowlist: seq<Prefix>)
    ensures OverlapsAllowlist(p, allowlist) <==> exists q :: q in allowlist && Meet(p, q)
  {
    hide Contains, IsValid, Overlaps, Masked;
    forall q | q in allowlist
      ensures IsValid(q) && Overlaps(p, Masked(q)) <==> Meet(p, q)
    {
      MeetMasked(p, q);
    }
  }

  lemma MeetMasked(p: Prefix, q: Prefix)
    ensures IsValid(q) && Overlaps(p, Masked(q)) <==> Meet(p, q)
  {
    hide Overlaps, Masked;
    MaskedIsMasked(q);
    OverlapMeansSharing(p, Masked(q));
    forall a
      ensures Contains(Masked(q), a) <==> Contains(q, a)
    {
      assert a in Addresses(Masked(q)) <==> a in Addresses(q);
    }
  }

  /** `k` is one source of the block: the feed, the kind and the order of a candidate that names it. */
  ghost predicate SourceOf(cs: seq<Candidate>, p: Prefix, k: Contributor) {
    exists c :: c in cs && Names(c, p) &&
      c.feedId == k.feedId && c.feedName == k.feedName && c.feedOrder == k.feedOrder && c.kind == k.kind
  }

  lemma SourcesMean(cs: seq<Candidate>, p: Prefix, k: Contributor)
    ensures k in Sources(cs, p) <==> SourceOf(cs, p, k)
  {
    hide Accepted, Names, Masked;
    if k in Sources(cs, p) {
      var c :| c in cs && Accepted(c) && Masked(c.prefix) == p && ContributorOf(c) == k;
      AcceptedMeans(c, p);
    }
    if SourceOf(cs, p, k) {
      var c :| c in cs && Names(c, p) &&
        c.feedId == k.feedId && c.feedName == k.feedName && c.feedOrder == k.feedOrder && c.kind == k.kind;
      AcceptedMeans(c, p);
    }
  }

  /** `a` comes before `b`: by configured order, then feed name, then feed id, then single addresses before ranges. */
  ghost predicate Leads(a: Contributor, b: Contributor) {
    a.feedOrder <= b.feedOrder &&
    (a.feedOrder == b.feedOrder ==> a.feedName == b.feedName || Precedes(a.feedName, b.feedName)) &&
    (a.feedOrder == b.feedOrder && a.feedName == b.feedName ==> a.feedId <= b.feedId) &&
    (a.feedOrder == b.feedOrder && a.feedName == b.feedName && a.feedId == b.feedId ==>
       a.kind == b.kind || b.kind == KindRange)
  }

  lemma DraftLeads(cs: seq<Candidate>, allowlist: seq<Prefix>, d: Object, i: nat, j: nat)
    requires Drafted(cs, allowlist, d) && i <= j < |d.contributors|
    ensures Leads(d.contributors[i], d.contributors[j])
  {
    hide OverlapsAllowlist, Precedes, StringLess, Accepted, Masked;
    var a, b := d.contributors[i], d.contributors[j];
    assert a in d.contributors && b in d.contributors;
    if i < j {
      StringLessMeans(a.feedName, b.feedName);
      SourcesMean(cs, d.prefix, a);
      SourcesMean(cs, d.prefix, b);
    }
  }

  /** The draft behind an object of a plan, and what the object kept of it. */
  lemma DraftOf(cs: seq<Candidate>, allowlist: seq<Prefix>, drafts: seq<Object>, objects: seq<Object>, o: Object)
    returns (d: Object)
    requires IsPlanFrom(cs, allowlist, drafts, objects) && o in objects
    ensures d in drafts && Drafted(cs, allowlist, d) && Settled(drafts, d, o)
    ensures o.prefix == d.prefix && o.scope == d.scope && o.contributors == d.contributors && o.primary == d.primary
  {
    hide Drafted, AcceptedPrefix, LongestCover, Covers;
    var i :| 0 <= i < |objects| && objects[i] == o;
    d := drafts[i];
  }

  /** The sources of an object are in order, the primary is the first, and no source comes before it. */
  lemma PrimaryLeads(cs: seq<Candidate>, allowlist: seq<Prefix>, objects: seq<Object>, o: Object)
    requires IsPlan(cs, allowlist, objects) && o in objects
    ensures o.primary in o.contributors
    ensures forall i, j :: 0 <= i <= j < |o.contributors| ==> Leads(o.contributors[i], o.contributors[j])
    ensures forall k :: k in o.contributors ==> Leads(o.primary, k)
  {
    hide IsPlanFrom, Drafted, Settled, Leads;
    var drafts: seq<Object> :| IsPlanFrom(cs, allowlist, drafts, objects);
    var d := DraftOf(cs, allowlist, drafts, objects, o);
    forall i, j | 0 <= i <= j < |o.contributors|
      ensures Leads(o.contributors[i], o.contributors[j])
    {
      DraftLeads(cs, allowlist, d, i, j);
    }
    PrimaryFirst(cs, allowlist, d);
  }

  lemma PrimaryFirst(cs: seq<Candidate>, allowlist: seq<Prefix>, d: Object)
    requires Drafted(cs, allowlist, d)
    ensures d.contributors != [] && d.primary == d.contributors[0]
  {
  }

  /** An object's sources are the candidates that name its block, each feed and kind once. */
  lemma SourcesExact(cs: seq<Candidate>, allowlist: seq<Prefix>, objects: seq<Object>, o: Object)
    requires IsPlan(cs, allowlist, objects) && o in objects
    ensures forall k :: k in o.contributors ==> SourceOf(cs, o.prefix, k)
    ensures forall c :: c in cs && Names(c, o.prefix) ==>
              exists k :: k in o.contributors && k.feedId == c.feedId && k.feedName == c.feedName && k.kind == c.kind
    ensures DistinctKeys(o.contributors)
  {
    hide IsPlanFrom, Settled, Names, SourceOf, Ascending, OverlapsAllowlist, Accepted, Masked;
    var drafts: seq<Object> :| IsPlanFrom(cs, allowlist, drafts, objects);
    var d := DraftOf(cs, allowlist, drafts, objects, o);
    forall k | k in o.contributors ensures SourceOf(cs, o.prefix, k) { SourcesMean(cs, o.prefix, k); }
    forall c | c in cs && Names(c, o.prefix)
      ensures exists k :: k in o.contributors && k.feedId == c.feedId && k.feedName == c.feedName && k.kind == c.kind
    {
      AcceptedMeans(c, o.prefix);
      assert ContributorOf(c) in Sources(cs, o.prefix);
      assert KeyOf(ContributorOf(c)) in Keys(o.contributors);
    }
  }

  /** A plan has an object for each block that some candidate names, and no other. */
  lemma PlanCatalogs(cs: seq<Candidate>, allowlist: seq<Prefix>, objects: seq<Object>)
    requires IsPlan(cs, allowlist, objects)
    ensures forall o :: o in objects ==> exists c :: c in cs && Names(c, o.prefix)
    ensures forall c, p :: c in cs && Names(c, p) ==> exists o :: o in objects && o.prefix == p
  {
    hide Names, Accepted, Masked, Drafted, Settled, Ascending;
    var drafts: seq<Object> :| IsPlanFrom(cs, allowlist, drafts, objects);
    forall o | o in objects ensures exists c :: c in cs && Names(c, o.prefix) {
      PlanNames(cs, allowlist, drafts, objects, o);
    }
    forall c, p | c in cs && Names(c, p)
      ensures exists o :: o in objects && o.prefix == p
    {
      AcceptedMeans(c, p);
      assert ContributorOf(c) in Sources(cs, p);
      var d, o := PlanEntry(cs, allowlist, drafts, objects, p);
      SettledPrefix(drafts, d, o);
    }
  }

  /** IPv4 first, then by address, wider blocks first; so no block occurs twice. */
  lemma PlanInOrder(cs: seq<Candidate>, allowlist: seq<Prefix>, objects: seq<Object>)
    requires IsPlan(cs, allowlist, objects)
    ensures forall i, j :: 0 <= i < j < |objects| ==> InOrder(objects[i].prefix, objects[j].prefix)
  {
    hide Drafted, Settled, AcceptedPrefix, IsSafePrefix;
    var drafts: seq<Object> :| IsPlanFrom(cs, allowlist, drafts, objects);
    forall i, j | 0 <= i < j < |objects|
      ensures InOrder(objects[i].prefix, objects[j].prefix)
    {
      assert drafts[i] in drafts && drafts[j] in drafts;
      SettledPrefix(drafts, drafts[i], objects[i]);
      SettledPrefix(drafts, drafts[j], objects[j]);
      AcceptedIsValid(cs, drafts[i].prefix);
      AcceptedIsValid(cs, drafts[j].prefix);
      assert ObjectLess(drafts[i], drafts[j]);
    }
  }

  ghost predicate InOrder(p: Prefix, q: Prefix) {
    p.Prefix? && q.Prefix? &&
    ((p.family == V4 && q.family == V6) ||
     (p.family == q.family && (p.value < q.value || (p.value == q.value && p.bits < q.bits))))
  }

  lemma SettledPrefix(drafts: seq<Object>, d: Object, o: Object)
    requires Settled(drafts, d, o)
    ensures o.prefix == d.prefix
  {
    hide LongestCover, Covers;
  }

  lemma PlanNames(cs: seq<Candidate>, allowlist: seq<Prefix>, drafts: seq<Object>, objects: seq<Object>, o: Object)
    requires IsPlanFrom(cs, allowlist, drafts, objects) && o in objects
    ensures exists c :: c in cs && Names(c, o.prefix)
  {
    hide Names, Accepted, Masked, IsPlanFrom;
    PlanObject(cs, allowlist, drafts, objects, o);
    var c := CandidateOf(cs, o.prefix);
    AcceptedMeans(c, o.prefix);
  }

  /** `r` is a wanted range around the block of `o`. */
  ghost predicate Wraps(objects: seq<Object>, r: Object, o: Object) {
    r in objects && r.desired && r.scope == ScopeRange && r.prefix.Prefix? && o.prefix.Prefix? &&
    r.prefix.bits < o.prefix.bits && Addresses(o.prefix) <= Addresses(r.prefix)
  }

  /** The object is wanted, or there is exactly the reason it states. */
  ghost predicate Justified(cs: seq<Candidate>, allowlist: seq<Prefix>, objects: seq<Object>, o: Object) {
    (o.scope == ScopeIP <==> exists c :: c in cs && Names(c, o.prefix) && c.kind == KindIP) &&
    (o.suppression == SuppressedAllowlist <==> exists q :: q in allowlist && Meet(o.prefix, q)) &&
    (o.suppression == SuppressedCovered <==>
       o.scope == ScopeIP && (forall q :: q in allowlist ==> !Meet(o.prefix, q)) && exists r :: Wraps(objects, r, o)) &&
    (o.desired <==> o.suppression == SuppressedNone) && o.suppression != SuppressedStale &&
    (o.coveredBy.Some? <==> o.suppression == SuppressedCovered) &&
    (o.coveredBy.Some? ==>
       o.coveredBy.value.Prefix? && (exists r :: Wraps(objects, r, o) && r.prefix == o.coveredBy.value) &&
       forall r :: Wraps(objects, r, o) ==> r.prefix.bits <= o.coveredBy.value.bits)
  }

  lemma CoversMeans(objects: seq<Object>, r: Object, o: Object)
    requires r in objects && IsHost(o.prefix)
    ensures Covers(r, o.prefix) <==> Wraps(objects, r, o)
  {
    if Covers(r, o.prefix) {
      forall a | a in Addresses(o.prefix) ensures a in Addresses(r.prefix) { HostIsOneAddress(o.prefix, a); }
    }
    if Wraps(objects, r, o) {
      assert Base(o.prefix) in Addresses(o.prefix);
    }
  }

  lemma ScopeMeans(cs: seq<Candidate>, allowlist: seq<Prefix>, objects: seq<Object>, d: Object)
    requires Drafted(cs, allowlist, d)
    ensures d.scope == ScopeIP <==> exists c :: c in cs && Names(c, d.prefix) && c.kind == KindIP
    ensures d.scope == ScopeIP ==> IsHost(d.prefix)
  {
    hide Names, Accepted, Masked, Ascending, OverlapsAllowlist;
    if k :| k in d.contributors && k.kind == KindIP {
      SourcesMean(cs, d.prefix, k);
    }
    if c :| c in cs && Names(c, d.prefix) && c.kind == KindIP {
      AcceptedMeans(c, d.prefix);
      assert ContributorOf(c) in Sources(cs, d.prefix);
      assert KeyOf(ContributorOf(c)) in Keys(d.contributors);
    }
    if d.scope == ScopeIP { IPScopeIsHost(cs, allowlist, d); }
  }

  lemma FramesAgree(cs: seq<Candidate>, allowlist: seq<Prefix>, drafts: seq<Object>, objects: seq<Object>, host: Prefix)
    requires IsPlanFrom(cs, allowlist, drafts, objects)
    ensures (exists r :: r in drafts && Covers(r, host)) <==> (exists r :: r in objects && Covers(r, host))
    ensures forall q :: LongestCover(drafts, host, q) <==> LongestCover(objects, host, q)
  {
    hide Covers, LongestCover, Drafted, AcceptedPrefix;
    CoverUnchanged(drafts, objects, host);
  }

  lemma ObjectJustified(cs: seq<Candidate>, allowlist: seq<Prefix>, objects: seq<Object>, o: Object)
    requires IsPlan(cs, allowlist, objects) && o in objects
    ensures Justified(cs, allowlist, objects, o)
  {
    hide IsPlanFrom, Names, Meet, Ascending, OverlapsAllowlist, Covers, Wraps, ContributorsOk, IsHost;
    var drafts: seq<Object> :| IsPlanFrom(cs, allowlist, drafts, objects);
    var d := DraftOf(cs, allowlist, drafts, objects, o);
    ScopeMeans(cs, allowlist, objects, d);
    AllowlistMeans(o.prefix, allowlist);
    FramesAgree(cs, allowlist, drafts, objects, o.prefix);
    forall r | r in objects && IsHost(o.prefix) ensures Covers(r, o.prefix) <==> Wraps(objects, r, o) {
      CoversMeans(objects, r, o);
    }
    assert forall r :: Wraps(objects, r, o) ==> r in objects by { WrapsListed(objects, o); }
    assert o.scope == ScopeIP ==>
        ((exists r :: r in objects && Covers(r, o.prefix)) <==> exists r :: Wraps(objects, r, o));
  }

  lemma WrapsListed(objects: seq<Object>, o: Object)
    ensures forall r :: Wraps(objects, r, o) ==> r in objects
  {
  }

  // ----- What the summary counts -----

  lemma {:induction false} RejectionsCount(cs: seq<Candidate>)
    ensures Rejections(cs) == |set i | 0 <= i < |cs| && !Accepted(cs[i])|
  {
    hide Accepted;
    if cs != [] {
      var n := |cs| - 1;
      RejectionsCount(cs[..n]);
      var all, rest := set i | 0 <= i < |cs| && !Accepted(cs[i]), set i | 0 <= i < n && !Accepted(cs[..n][i]);
      if Accepted(cs[n]) { assert all == rest; } else { assert all == rest + {n}; }
    }
  }

  lemma {:induction false} TallyCount(objects: seq<Object>, s: Suppression)
    ensures Tally(objects, s) == |set i | 0 <= i < |objects| && objects[i].suppression == s|
  {
    if objects != [] {
      var n := |objects| - 1;
      TallyCount(objects[..n], s);
      var all := set i | 0 <= i < |objects| && objects[i].suppression == s;
      var rest := set i | 0 <= i < n && objects[..n][i].suppression == s;
      if objects[n].suppression == s { assert all == rest + {n}; } else { assert all == rest; }
    }
  }

  /** Every candidate is rejected, or the first or a further one of its block, and every object has one verdict. */
  lemma SummaryMeans(cs: seq<Candidate>, objects: seq<Object>, s: Summary)
    requires Counted(cs, objects, s)
    ensures s.input == |cs| && s.objects == |objects| && s.exactDuplicates == |cs| - s.rejectedSafety - |objects|
    ensures s.rejectedSafety == |set i | 0 <= i < |cs| && !Names(cs[i], Masked(cs[i].prefix))|
    ensures s.desired == |set i | 0 <= i < |objects| && objects[i].suppression == SuppressedNone|
    ensures s.allowlisted == |set i | 0 <= i < |objects| && objects[i].suppression == SuppressedAllowlist|
    ensures s.coveredHosts == |set i | 0 <= i < |objects| && objects[i].suppression == SuppressedCovered|
  {
    hide Accepted, Names, Masked, Rejections, Tally;
    RejectionsCount(cs);
    TallyCount(objects, SuppressedNone);
    TallyCount(objects, SuppressedAllowlist);
    TallyCount(objects, SuppressedCovered);
    forall i | 0 <= i < |cs| { AcceptedMeans(cs[i], Masked(cs[i].prefix)); }
    assert (set i | 0 <= i < |cs| && !Accepted(cs[i])) == set i | 0 <= i < |cs| && !Names(cs[i], Masked(cs[i].prefix));
  }
}
