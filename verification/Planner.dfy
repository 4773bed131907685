/**
 internal/network/dedupe.go: candidates from the feeds become enforcement objects.
 `BuildDesired` is the imperative planner; `IsPlan` is what it promises, stated without
 its loops, maps or sorts.
 */
module Planner {
  import opened Prefixes
  import opened Safety
  import opened Orders

  datatype Scope = ScopeIP | ScopeRange

  /** `SuppressedStale` is set by the store on objects that a later plan no longer names. */
  datatype Suppression = SuppressedNone | SuppressedAllowlist | SuppressedCovered | SuppressedStale

  datatype Candidate = Candidate(prefix: Prefix, kind: Kind, feedId: int, feedName: string, feedOrder: int)

  datatype Contributor = Contributor(feedId: int, feedName: string, feedOrder: int, kind: Kind)

  datatype ContributorKey = ContributorKey(feedId: int, feedName: string, kind: Kind)

  datatype Object = Object(
    prefix: Prefix, scope: Scope, contributors: seq<Contributor>, primary: Contributor,
    desired: bool, suppression: Suppression, coveredBy: Option<Prefix>)

  datatype Summary = Summary(
    input: nat, objects: nat, desired: nat, exactDuplicates: nat,
    rejectedSafety: nat, allowlisted: nat, coveredHosts: nat)

  datatype Builder = Builder(contributors: seq<Contributor>, seen: set<ContributorKey>)

  function KindRank(k: Kind): int {
    match k case KindInvalid => 0 case KindIP => 1 case KindRange => 2
  }

  predicate ContributorLess(a: Contributor, b: Contributor) {
    if a.feedOrder != b.feedOrder then a.feedOrder < b.feedOrder
    else if a.feedName != b.feedName then StringLess(a.feedName, b.feedName)
    else if a.feedId != b.feedId then a.feedId < b.feedId
    else KindRank(a.kind) < KindRank(b.kind)
  }

  predicate PrefixLess(p: Prefix, q: Prefix) {
    match (p, q)
    case (_, Invalid) => false
    case (Invalid, _) => true
    case (Prefix(f, v, b), Prefix(g, w, c)) =>
      if f != g then f == V4 else if v != w then v < w else b < c
  }

  predicate ObjectLess(a: Object, b: Object) {
    PrefixLess(a.prefix, b.prefix)
  }

  predicate OverlapsAllowlist(p: Prefix, allowlist: seq<Prefix>) {
    exists allowed :: allowed in allowlist && IsValid(allowed) && Overlaps(p, Masked(allowed))
  }

  /** The candidates that survive the safety, kind and identity tests. */
  predicate Accepted(c: Candidate) {
    IsSafePrefix(Masked(c.prefix)) && ValidateKind(Masked(c.prefix), c.kind) &&
    c.feedId >= 1 && c.feedName != ""
  }

  function ContributorOf(c: Candidate): Contributor {
    Contributor(c.feedId, c.feedName, c.feedOrder, c.kind)
  }

  function KeyOf(c: Contributor): ContributorKey {
    ContributorKey(c.feedId, c.feedName, c.kind)
  }

  function Rejections(cs: seq<Candidate>): (n: nat)
    ensures n <= |cs|
  {
    if cs == [] then 0
    else Rejections(cs[..|cs| - 1]) + if Accepted(cs[|cs| - 1]) then 0 else 1
  }

  function Tally(objects: seq<Object>, s: Suppression): (n: nat) {
    if objects == [] then 0
    else Tally(objects[..|objects| - 1], s) + if objects[|objects| - 1].suppression == s then 1 else 0
  }

  /** A desired range strictly wider than a host, holding the host's address. */
  predicate Covers(o: Object, host: Prefix) {
    o.desired && o.scope == ScopeRange && IsValid(host) && o.prefix.Prefix? &&
    o.prefix.bits < BitLen(host.family) && Contains(o.prefix, Base(host))
  }

  /** Every source of a prefix among the accepted candidates. */
  function Sources(cs: seq<Candidate>, p: Prefix): set<Contributor> {
    set c | c in cs && Accepted(c) && Masked(c.prefix) == p :: ContributorOf(c)
  }

  function Keys(contributors: seq<Contributor>): set<ContributorKey> {
    set k | k in contributors :: KeyOf(k)
  }

  /** The provenance kept for one prefix: every distinct source of it, each key once. */
  ghost predicate ContributorsOk(sources: set<Contributor>, contributors: seq<Contributor>) {
    contributors != [] && DistinctKeys(contributors) &&
    (forall k :: k in contributors ==> k in sources) &&
    (forall k :: k in sources ==> KeyOf(k) in Keys(contributors))
  }

  predicate DistinctKeys(contributors: seq<Contributor>) {
    forall i, j :: 0 <= i < j < |contributors| ==> KeyOf(contributors[i]) != KeyOf(contributors[j])
  }

  /** An object before hosts inside ranges are suppressed. */
  ghost predicate Drafted(cs: seq<Candidate>, allowlist: seq<Prefix>, o: Object) {
    ContributorsOk(Sources(cs, o.prefix), o.contributors) && Ascending(o.contributors, ContributorLess) &&
    o.primary == o.contributors[0] &&
    (o.scope == ScopeIP <==> exists k :: k in o.contributors && k.kind == KindIP) &&
    o.coveredBy == None &&
    o.desired == !OverlapsAllowlist(o.prefix, allowlist) &&
    o.suppression == (if o.desired then SuppressedNone else SuppressedAllowlist)
  }

  /** `q` is the longest range among `objects` that covers `host`. */
  ghost predicate LongestCover(objects: seq<Object>, host: Prefix, q: Prefix) {
    q.Prefix? &&
    (exists o :: o in objects && Covers(o, host) && o.prefix == q) &&
    (forall o :: o in objects && Covers(o, host) ==> o.prefix.bits <= q.bits)
  }

  /** What an object becomes once hosts inside a desired range are suppressed. */
  ghost predicate Settled(objects: seq<Object>, draft: Object, o: Object) {
    if draft.desired && draft.scope == ScopeIP && (exists r :: r in objects && Covers(r, draft.prefix))
    then
      o.coveredBy.Some? && LongestCover(objects, draft.prefix, o.coveredBy.value) &&
      o == draft.(desired := false, suppression := SuppressedCovered, coveredBy := o.coveredBy)
    else o == draft
  }

  ghost predicate AcceptedPrefix(cs: seq<Candidate>, p: Prefix) {
    Sources(cs, p) != {}
  }

  ghost predicate DraftsOk(cs: seq<Candidate>, allowlist: seq<Prefix>, drafts: seq<Object>) {
    Ascending(drafts, ObjectLess) &&
    (forall d :: d in drafts ==> AcceptedPrefix(cs, d.prefix) && Drafted(cs, allowlist, d)) &&
    (forall p :: AcceptedPrefix(cs, p) ==> exists d :: d in drafts && d.prefix == p)
  }

  /** The whole promise: `drafts` is the plan before the coverage pass. */
  ghost predicate IsPlanFrom(cs: seq<Candidate>, allowlist: seq<Prefix>, drafts: seq<Object>, objects: seq<Object>) {
    DraftsOk(cs, allowlist, drafts) && |objects| == |drafts| &&
    forall i :: 0 <= i < |drafts| ==> Settled(drafts, drafts[i], objects[i])
  }

  ghost predicate IsPlan(cs: seq<Candidate>, allowlist: seq<Prefix>, objects: seq<Object>) {
    exists drafts :: IsPlanFrom(cs, allowlist, drafts, objects)
  }

  ghost predicate Counted(cs: seq<Candidate>, objects: seq<Object>, s: Summary) {
    s.input == |cs| && s.rejectedSafety == Rejections(cs) && s.objects == |objects| &&
    s.input == s.rejectedSafety + s.objects + s.exactDuplicates &&
    s.desired == Tally(objects, SuppressedNone) &&
    s.allowlisted == Tally(objects, SuppressedAllowlist) &&
    s.coveredHosts == Tally(objects, SuppressedCovered) &&
    s.objects == s.desired + s.allowlisted + s.coveredHosts
  }

  lemma ContributorOrder()
    ensures StrictOrder(ContributorLess)
    ensures forall x: Contributor, y: Contributor :: x == y || ContributorLess(x, y) || ContributorLess(y, x)
  {
    forall x: Contributor { StringIrreflexive(x.feedName); }
    forall x: Contributor, y: Contributor
      ensures x == y || ContributorLess(x, y) || ContributorLess(y, x)
    {
      StringTotal(x.feedName, y.feedName);
    }
    forall x: Contributor, y: Contributor, z: Contributor | ContributorLess(x, y) && ContributorLess(y, z)
      ensures ContributorLess(x, z)
    {
      if x.feedOrder == y.feedOrder == z.feedOrder && x.feedName != y.feedName && y.feedName != z.feedName {
        StringTransitive(x.feedName, y.feedName, z.feedName);
        StringIrreflexive(x.feedName);
      }
    }
  }

  lemma ObjectOrder()
    ensures StrictOrder(ObjectLess)
    ensures forall x: Object, y: Object :: x.prefix == y.prefix || ObjectLess(x, y) || ObjectLess(y, x)
  {
  }

  // ----- Gathering: candidates into one builder per prefix -----

  ghost predicate BuilderOk(sources: set<Contributor>, b: Builder) {
    ContributorsOk(sources, b.contributors) && b.seen == Keys(b.contributors)
  }

  ghost predicate Gathered(cs: seq<Candidate>, builders: map<Prefix, Builder>) {
    forall p ::
      (p in builders <==> AcceptedPrefix(cs, p)) &&
      (p in builders ==> BuilderOk(Sources(cs, p), builders[p]))
  }

  function AddTo(b: Builder, k: Contributor): Builder {
    if KeyOf(k) in b.seen then b
    else Builder(b.contributors + [k], b.seen + {KeyOf(k)})
  }

  lemma SourcesStep(cs: seq<Candidate>, c: Candidate, p: Prefix)
    ensures Sources(cs + [c], p) ==
            Sources(cs, p) + if Accepted(c) && Masked(c.prefix) == p then {ContributorOf(c)} else {}
  {
    hide Accepted, Masked;
    var grown := Sources(cs + [c], p);
    forall d | d in cs
      ensures d in cs + [c]
    {
    }
    assert c in cs + [c];
    assert forall d :: d in cs + [c] ==> d in cs || d == c;
  }

  lemma GatherReject(cs: seq<Candidate>, c: Candidate, builders: map<Prefix, Builder>)
    requires Gathered(cs, builders) && !Accepted(c)
    ensures Gathered(cs + [c], builders)
  {
    hide Accepted, Masked, BuilderOk;
    forall p ensures Sources(cs + [c], p) == Sources(cs, p) { SourcesStep(cs, c, p); }
  }

  lemma KeysStep(contributors: seq<Contributor>, k: Contributor)
    ensures Keys(contributors + [k]) == Keys(contributors) + {KeyOf(k)}
  {
    assert k in contributors + [k];
    assert forall x :: x in contributors ==> x in contributors + [k];
  }

  lemma AddToOk(sources: set<Contributor>, k: Contributor, b: Builder)
    requires BuilderOk(sources, b) || (sources == {} && b == Builder([], {}))
    ensures BuilderOk(sources + {k}, AddTo(b, k))
  {
    KeysStep(b.contributors, k);
    if KeyOf(k) !in b.seen {
      forall i | 0 <= i < |b.contributors|
        ensures KeyOf(b.contributors[i]) != KeyOf(k)
      {
        assert KeyOf(b.contributors[i]) in Keys(b.contributors);
      }
    }
  }

  lemma GatherAccept(cs: seq<Candidate>, c: Candidate, builders: map<Prefix, Builder>, b: Builder)
    requires Gathered(cs, builders) && Accepted(c)
    requires BuilderOk(Sources(cs + [c], Masked(c.prefix)), b)
    ensures Gathered(cs + [c], builders[Masked(c.prefix) := b])
  {
    hide Accepted, Masked, BuilderOk;
    var grown := builders[Masked(c.prefix) := b];
    forall p
      ensures p in grown <==> AcceptedPrefix(cs + [c], p)
      ensures p in grown ==> BuilderOk(Sources(cs + [c], p), grown[p])
    {
      SourcesStep(cs, c, p);
      if p != Masked(c.prefix) { assert Sources(cs + [c], p) == Sources(cs, p); }
    }
  }

  lemma GatherStep(cs: seq<Candidate>, c: Candidate, builders: map<Prefix, Builder>)
    requires Gathered(cs, builders) && Accepted(c)
    ensures var p := Masked(c.prefix);
            var b := if p in builders then builders[p] else Builder([], {});
            Gathered(cs + [c], builders[p := AddTo(b, ContributorOf(c))])
  {
    hide Accepted, Masked, BuilderOk;
    var p := Masked(c.prefix);
    var b := if p in builders then builders[p] else Builder([], {});
    AddToOk(Sources(cs, p), ContributorOf(c), b);
    SourcesStep(cs, c, p);
    GatherAccept(cs, c, builders, AddTo(b, ContributorOf(c)));
  }

  method Gather(candidates: seq<Candidate>)
    returns (builders: map<Prefix, Builder>, rejected: nat, duplicates: nat)
    ensures Gathered(candidates, builders)
    ensures rejected == Rejections(candidates)
    ensures |candidates| == rejected + |builders| + duplicates
  {
    hide Gathered, Accepted, Masked;
    builders, rejected, duplicates := map[], 0, 0;
    NothingGathered();
    for i := 0 to |candidates|
      invariant Gathered(candidates[..i], builders)
      invariant rejected == Rejections(candidates[..i])
      invariant i == rejected + |builders| + duplicates
    {
      var c := candidates[i];
      assert candidates[..i + 1] == candidates[..i] + [c];
      assert candidates[..i + 1][..i] == candidates[..i];
      var p := Masked(c.prefix);
      if !Accepted(c) {
        GatherReject(candidates[..i], c, builders);
        rejected := rejected + 1;
      } else {
        GatherStep(candidates[..i], c, builders);
        var b := Builder([], {});
        if p in builders {
          b := builders[p];
          duplicates := duplicates + 1;
        }
        builders := builders[p := AddTo(b, ContributorOf(c))];
      }
    }
    assert candidates[..|candidates|] == candidates;
  }

  lemma NothingGathered()
    ensures Gathered([], map[])
  {
    hide Accepted, Masked;
  }

  // ----- Drafting: one object per builder, then sorted -----

  function ScopeOf(contributors: seq<Contributor>): (s: Scope)
    ensures s == ScopeIP <==> exists k :: k in contributors && k.kind == KindIP
  {
    if exists k :: k in contributors && k.kind == KindIP then ScopeIP else ScopeRange
  }

  function Draft(p: Prefix, contributors: seq<Contributor>, allowlist: seq<Prefix>): Object
    requires contributors != []
  {
    var sorted := Sort(contributors, ContributorLess);
    var banned := !OverlapsAllowlist(p, allowlist);
    Object(p, ScopeOf(sorted), sorted, sorted[0], banned, if banned then SuppressedNone else SuppressedAllowlist, None)
  }

  lemma SortKeepsContributors(sources: set<Contributor>, contributors: seq<Contributor>)
    requires ContributorsOk(sources, contributors)
    ensures ContributorsOk(sources, Sort(contributors, ContributorLess))
    ensures Ascending(Sort(contributors, ContributorLess), ContributorLess)
  {
    var sorted := Sort(contributors, ContributorLess);
    ContributorOrder();
    SortAscends(contributors, ContributorLess);
    assert Keys(sorted) == Keys(contributors);
    forall i, j | 0 <= i < j < |sorted|
      ensures KeyOf(sorted[i]) != KeyOf(sorted[j])
    {
      assert ContributorLess(sorted[i], sorted[j]);
      assert sorted[i] != sorted[j];
      assert sorted[i] in contributors && sorted[j] in contributors;
    }
  }

  lemma DraftIsDrafted(cs: seq<Candidate>, p: Prefix, b: Builder, allowlist: seq<Prefix>)
    requires BuilderOk(Sources(cs, p), b)
    ensures Drafted(cs, allowlist, Draft(p, b.contributors, allowlist))
  {
    hide Sources, OverlapsAllowlist;
    SortKeepsContributors(Sources(cs, p), b.contributors);
  }

  /** Objects built so far, for the prefixes already taken from the map. */
  ghost predicate DraftedFor(cs: seq<Candidate>, allowlist: seq<Prefix>, done: set<Prefix>, objects: seq<Object>) {
    (forall o :: o in objects ==> o.prefix in done && Drafted(cs, allowlist, o)) &&
    (forall p :: p in done ==> exists o :: o in objects && o.prefix == p) &&
    (forall i, j :: 0 <= i < j < |objects| ==> objects[i].prefix != objects[j].prefix)
  }

  lemma DraftedForStep(cs: seq<Candidate>, allowlist: seq<Prefix>, done: set<Prefix>, objects: seq<Object>, o: Object)
    requires DraftedFor(cs, allowlist, done, objects) && o.prefix !in done && Drafted(cs, allowlist, o)
    ensures DraftedFor(cs, allowlist, done + {o.prefix}, objects + [o])
  {
    hide Drafted;
    var more := objects + [o];
    assert o in more;
    forall p | p in done + {o.prefix}
      ensures exists x :: x in more && x.prefix == p
    {
      if p in done {
        var x :| x in objects && x.prefix == p;
        assert x in more;
      }
    }
  }

  /** Map iteration order is arbitrary: the next prefix is any that is left. */
  method DraftObjects(ghost cs: seq<Candidate>, builders: map<Prefix, Builder>, allowlist: seq<Prefix>)
    returns (objects: seq<Object>, allowlisted: nat)
    requires Gathered(cs, builders)
    ensures DraftedFor(cs, allowlist, builders.Keys, objects)
    ensures |objects| == |builders|
    ensures allowlisted == Tally(objects, SuppressedAllowlist)
  {
    hide DraftedFor, Drafted, BuilderOk, Draft, Accepted, Masked, Sources;
    objects, allowlisted := [], 0;
    var left := builders.Keys;
    NothingDrafted(cs, allowlist);
    assert builders.Keys - left == {};
    while left != {}
      invariant left <= builders.Keys
      invariant DraftedFor(cs, allowlist, builders.Keys - left, objects)
      invariant |objects| == |builders.Keys| - |left|
      invariant allowlisted == Tally(objects, SuppressedAllowlist)
    {
      var p :| p in left;
      BuilderNonEmpty(Sources(cs, p), builders[p]);
      var draft := Draft(p, builders[p].contributors, allowlist);
      DraftIsDrafted(cs, p, builders[p], allowlist);
      DraftShape(p, builders[p].contributors, allowlist);
      if !draft.desired {
        allowlisted := allowlisted + 1;
      }
      DraftedForStep(cs, allowlist, builders.Keys - left, objects, draft);
      assert (objects + [draft])[..|objects|] == objects;
      objects := objects + [draft];
      assert builders.Keys - (left - {p}) == builders.Keys - left + {p};
      left := left - {p};
    }
    assert builders.Keys - left == builders.Keys;
  }

  lemma NothingDrafted(cs: seq<Candidate>, allowlist: seq<Prefix>)
    ensures DraftedFor(cs, allowlist, {}, [])
  {
  }

  lemma BuilderNonEmpty(sources: set<Contributor>, b: Builder)
    requires BuilderOk(sources, b)
    ensures b.contributors != []
  {
  }

  lemma DraftShape(p: Prefix, contributors: seq<Contributor>, allowlist: seq<Prefix>)
    requires contributors != []
    ensures Draft(p, contributors, allowlist).prefix == p
    ensures var o := Draft(p, contributors, allowlist); !o.desired <==> o.suppression == SuppressedAllowlist
  {
  }

  lemma SortedDrafts(cs: seq<Candidate>, allowlist: seq<Prefix>, builders: map<Prefix, Builder>, objects: seq<Object>)
    requires Gathered(cs, builders) && DraftedFor(cs, allowlist, builders.Keys, objects)
    ensures DraftsOk(cs, allowlist, Sort(objects, ObjectLess))
  {
    hide Drafted, BuilderOk, Sources;
    ObjectOrder();
    SortAscends(objects, ObjectLess);
    var drafts := Sort(objects, ObjectLess);
    forall p | AcceptedPrefix(cs, p)
      ensures exists d :: d in drafts && d.prefix == p
    {
      assert p in builders;
      var d :| d in objects && d.prefix == p;
      assert d in drafts;
    }
  }

  lemma {:induction false} TallyInsert(x: Object, s: seq<Object>, t: Suppression)
    ensures Tally(Insert(x, s, ObjectLess), t) == Tally(s, t) + if x.suppression == t then 1 else 0
  {
    if s == [] {
      assert [x][..0] == [];
    } else if ObjectLess(x, s[0]) {
      TallyConcat([x], s, t);
      assert [x][..0] == [];
    } else {
      TallyInsert(x, s[1..], t);
      TallyConcat([s[0]], Insert(x, s[1..], ObjectLess), t);
      TallyConcat([s[0]], s[1..], t);
      assert [s[0]] + s[1..] == s;
    }
  }

  lemma {:induction false} TallyConcat(a: seq<Object>, b: seq<Object>, t: Suppression)
    ensures Tally(a + b, t) == Tally(a, t) + Tally(b, t)
  {
    if b == [] {
      assert a + b == a;
    } else {
      TallyConcat(a, b[..|b| - 1], t);
      assert (a + b)[..|a + b| - 1] == a + b[..|b| - 1];
    }
  }

  lemma {:induction false} TallySort(s: seq<Object>, t: Suppression)
    ensures Tally(Sort(s, ObjectLess), t) == Tally(s, t)
  {
    if s != [] {
      TallySort(s[1..], t);
      TallyInsert(s[0], Sort(s[1..], ObjectLess), t);
      TallyConcat([s[0]], s[1..], t);
      assert [s[0]][..0] == [];
      assert [s[0]] + s[1..] == s;
    }
  }

  // ----- Coverage: hosts inside a desired range are suppressed -----

  /** The inner loop: the longest range that covers `host`, ties broken by the lower address. */
  method FindCover(objects: seq<Object>, host: Prefix) returns (covering: Option<Prefix>)
    requires IsValid(host)
    ensures covering == None <==> !exists o :: o in objects && Covers(o, host)
    ensures covering.Some? ==> LongestCover(objects, host, covering.value)
  {
    hide Contains, IsValid;
    covering := None;
    for j := 0 to |objects|
      invariant covering == None ==> forall k :: 0 <= k < j ==> !Covers(objects[k], host)
      invariant covering.Some? ==> covering.value.Prefix?
      invariant covering.Some? ==>
        exists k :: 0 <= k < j && Covers(objects[k], host) && objects[k].prefix == covering.value
      invariant covering.Some? ==>
        forall k :: 0 <= k < j && Covers(objects[k], host) ==> objects[k].prefix.bits <= covering.value.bits
    {
      var o := objects[j];
      if Covers(o, host) {
        if covering == None || o.prefix.bits > covering.value.bits ||
           (o.prefix.bits == covering.value.bits && PrefixLess(o.prefix, covering.value)) {
          covering := Some(o.prefix);
        }
      }
    }
  }

  lemma OnlyRangesCover(a: Object, b: Object, host: Prefix)
    requires a.prefix == b.prefix && a.scope == b.scope
    requires a.scope == ScopeRange ==> a.desired == b.desired
    ensures Covers(a, host) <==> Covers(b, host)
  {
  }

  /** Suppressing hosts leaves every range, so what covers a host, as it was. */
  lemma CoverUnchanged(drafts: seq<Object>, objects: seq<Object>, host: Prefix)
    requires |drafts| == |objects|
    requires forall k :: 0 <= k < |drafts| ==>
               drafts[k].prefix == objects[k].prefix && drafts[k].scope == objects[k].scope &&
               (drafts[k].scope == ScopeRange ==> drafts[k].desired == objects[k].desired)
    ensures (exists o :: o in drafts && Covers(o, host)) <==> (exists o :: o in objects && Covers(o, host))
    ensures forall q :: LongestCover(drafts, host, q) <==> LongestCover(objects, host, q)
  {
    hide Covers;
    forall k | 0 <= k < |drafts|
      ensures Covers(drafts[k], host) <==> Covers(objects[k], host)
    {
      OnlyRangesCover(drafts[k], objects[k], host);
    }
    MatchLists(drafts, objects, host);
    MatchLists(objects, drafts, host);
    forall q
      ensures LongestCover(drafts, host, q) <==> LongestCover(objects, host, q)
    {
    }
  }

  lemma MatchLists(a: seq<Object>, b: seq<Object>, host: Prefix)
    requires |a| == |b|
    requires forall k :: 0 <= k < |a| ==> a[k].prefix == b[k].prefix && (Covers(a[k], host) <==> Covers(b[k], host))
    ensures forall o :: o in a && Covers(o, host) ==> exists x :: x in b && Covers(x, host) && x.prefix == o.prefix
  {
    hide Covers;
    forall o | o in a && Covers(o, host)
      ensures exists x :: x in b && Covers(x, host) && x.prefix == o.prefix
    {
      var k :| 0 <= k < |a| && a[k] == o;
      assert b[k] in b;
    }
  }

  ghost predicate SameFrame(drafts: seq<Object>, objects: seq<Object>) {
    |drafts| == |objects| &&
    forall k :: 0 <= k < |drafts| ==>
      drafts[k].prefix == objects[k].prefix && drafts[k].scope == objects[k].scope &&
      (drafts[k].scope == ScopeRange ==> drafts[k].desired == objects[k].desired)
  }

  predicate DraftLike(o: Object) {
    IsValid(o.prefix) && (o.suppression == SuppressedNone || o.suppression == SuppressedAllowlist) &&
    (o.desired <==> o.suppression == SuppressedNone)
  }

  /** The coverage pass, flipping objects in place from left to right. */
  method SuppressCovered(drafts: seq<Object>) returns (objects: seq<Object>, covered: nat)
    requires forall d :: d in drafts ==> DraftLike(d)
    ensures |objects| == |drafts|
    ensures forall i :: 0 <= i < |drafts| ==> Settled(drafts, drafts[i], objects[i])
    ensures covered == Tally(objects, SuppressedCovered)
    ensures Tally(objects, SuppressedAllowlist) == Tally(drafts, SuppressedAllowlist)
  {
    hide Settled, LongestCover, Covers;
    objects, covered := drafts, 0;
    NoneCovered(drafts);
    for i := 0 to |drafts|
      invariant |objects| == |drafts|
      invariant forall k :: i <= k < |drafts| ==> objects[k] == drafts[k]
      invariant forall k :: 0 <= k < i ==> Settled(drafts, drafts[k], objects[k])
      invariant SameFrame(drafts, objects)
      invariant covered == Tally(objects, SuppressedCovered)
      invariant Tally(objects, SuppressedAllowlist) == Tally(drafts, SuppressedAllowlist)
    {
      var o := objects[i];
      assert o == drafts[i] && o in drafts;
      if o.desired && o.scope == ScopeIP {
        CoverUnchanged(drafts, objects, o.prefix);
        var covering := FindCover(objects, o.prefix);
        SettledEither(drafts, o, covering);
        if covering.Some? {
          TallyUpdate(objects, i, o.(desired := false, suppression := SuppressedCovered, coveredBy := covering));
          objects := objects[i := o.(desired := false, suppression := SuppressedCovered, coveredBy := covering)];
          covered := covered + 1;
        }
      } else {
        SettledAsIs(drafts, o);
      }
    }
  }

  lemma SettledAsIs(drafts: seq<Object>, o: Object)
    requires !(o.desired && o.scope == ScopeIP)
    ensures Settled(drafts, o, o)
  {
  }

  lemma SettledEither(drafts: seq<Object>, o: Object, covering: Option<Prefix>)
    requires o.desired && o.scope == ScopeIP
    requires covering == None <==> !exists r :: r in drafts && Covers(r, o.prefix)
    requires covering.Some? ==> LongestCover(drafts, o.prefix, covering.value)
    ensures Settled(drafts, o, if covering == None then o
              else o.(desired := false, suppression := SuppressedCovered, coveredBy := covering))
  {
    hide Covers;
  }

  lemma {:induction false} NoneCovered(drafts: seq<Object>)
    requires forall d :: d in drafts ==> DraftLike(d)
    ensures Tally(drafts, SuppressedCovered) == 0
  {
    hide IsValid;
    if drafts != [] {
      assert drafts[|drafts| - 1] in drafts;
      NoneCovered(drafts[..|drafts| - 1]);
    }
  }

  lemma {:induction false} TallyUpdate(objects: seq<Object>, i: nat, o: Object)
    requires i < |objects| && objects[i].suppression == SuppressedNone && o.suppression == SuppressedCovered
    ensures Tally(objects[i := o], SuppressedCovered) == Tally(objects, SuppressedCovered) + 1
    ensures Tally(objects[i := o], SuppressedAllowlist) == Tally(objects, SuppressedAllowlist)
  {
    var n := |objects| - 1;
    if i == n {
      assert objects[i := o][..n] == objects[..n];
    } else {
      TallyUpdate(objects[..n], i, o);
      assert objects[i := o][..n] == objects[..n][i := o];
    }
  }

  lemma AcceptedIsValid(cs: seq<Candidate>, p: Prefix)
    requires AcceptedPrefix(cs, p)
    ensures IsSafePrefix(p) && IsValid(p)
  {
    hide IsSafePrefix, ValidateKind, Masked;
    var k :| k in Sources(cs, p);
    var c :| c in cs && Accepted(c) && Masked(c.prefix) == p && ContributorOf(c) == k;
    SafeIsValid(p);
  }

  lemma SafeIsValid(p: Prefix)
    requires IsSafePrefix(p)
    ensures IsValid(p) && Masked(p) == p
  {
  }

  lemma DraftsAreDraftLike(cs: seq<Candidate>, allowlist: seq<Prefix>, drafts: seq<Object>)
    requires DraftsOk(cs, allowlist, drafts)
    ensures forall d :: d in drafts ==> DraftLike(d)
  {
    hide Sources, IsValid, OverlapsAllowlist;
    forall d | d in drafts ensures DraftLike(d) { AcceptedIsValid(cs, d.prefix); }
  }

  lemma {:induction false} TallyTotal(objects: seq<Object>)
    requires forall o :: o in objects ==> o.suppression != SuppressedStale
    ensures |objects| ==
            Tally(objects, SuppressedNone) + Tally(objects, SuppressedAllowlist) + Tally(objects, SuppressedCovered)
  {
    if objects != [] {
      assert objects[|objects| - 1] in objects;
      TallyTotal(objects[..|objects| - 1]);
    }
  }

  lemma SettledShape(drafts: seq<Object>, objects: seq<Object>)
    requires |objects| == |drafts|
    requires forall d :: d in drafts ==> DraftLike(d)
    requires forall i :: 0 <= i < |drafts| ==> Settled(drafts, drafts[i], objects[i])
    ensures forall o :: o in objects ==>
            o.suppression != SuppressedStale && (o.desired <==> o.suppression == SuppressedNone)
  {
    hide Covers, LongestCover, IsValid;
    forall i | 0 <= i < |objects|
      ensures objects[i].suppression != SuppressedStale
      ensures objects[i].desired <==> objects[i].suppression == SuppressedNone
    {
      assert drafts[i] in drafts;
    }
  }

  method CountDesired(objects: seq<Object>) returns (n: nat)
    requires forall o :: o in objects ==> (o.desired <==> o.suppression == SuppressedNone)
    ensures n == Tally(objects, SuppressedNone)
  {
    n := 0;
    for i := 0 to |objects|
      invariant n == Tally(objects[..i], SuppressedNone)
    {
      assert objects[..i + 1][..i] == objects[..i];
      assert objects[i] in objects;
      if objects[i].desired { n := n + 1; }
    }
    assert objects[..|objects|] == objects;
  }

  /** Converts candidates into enforcement objects. It never expands or merges prefixes. */
  method BuildDesired(candidates: seq<Candidate>, allowlist: seq<Prefix>)
    returns (objects: seq<Object>, summary: Summary)
    ensures IsPlan(candidates, allowlist, objects)
    ensures Counted(candidates, objects, summary)
  {
    hide Gathered, DraftedFor, DraftsOk, DraftLike, Settled, Tally, Rejections, Sort, Accepted, Masked;
    var builders, rejected, duplicates := Gather(candidates);
    var drafts, allowlisted := DraftObjects(candidates, builders, allowlist);
    SortedDrafts(candidates, allowlist, builders, drafts);
    TallySort(drafts, SuppressedAllowlist);
    drafts := Sort(drafts, ObjectLess);
    DraftsAreDraftLike(candidates, allowlist, drafts);
    var covered;
    objects, covered := SuppressCovered(drafts);
    assert IsPlanFrom(candidates, allowlist, drafts, objects);
    SettledShape(drafts, objects);
    TallyTotal(objects);
    var desired := CountDesired(objects);
    summary := Summary(|candidates|, |objects|, desired, duplicates, rejected, allowlisted, covered);
  }
}
