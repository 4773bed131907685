/**
 internal/feed: parsing and validation of one feed file, over lines that are already split and
 decoded. Nothing in the file is lost: every record is accepted, rejected or a duplicate.
 */
module FeedFiles {
  import opened Collections
  import opened Prefixes
  import opened Safety
  import opened Special
  import opened Orders
  import opened Planner
  import Grace

  datatype FamilyLimit = AnyFamily | OnlyV4 | OnlyV6

  datatype Limits = Limits(family: FamilyLimit, maxMalformed: nat, maxRatio: real)

  datatype Entry = Entry(prefix: Prefix, kind: Kind)

  datatype Metadata = Metadata(generatedAt: int, declared: int)

  datatype Parsed = Parsed(entries: seq<Entry>, total: nat, malformed: nat, metadata: Option<Metadata>)

  /** A line of a Spamhaus file. `Garbage` is not JSON; a record with no prefix could not be read as one. */
  datatype SpamhausLine =
    | EmptyLine
    | Garbage
    | BadMetadataLine
    | MetadataLine(metadata: Metadata)
    | RecordLine(prefix: Option<Prefix>)

  /** A line of a netset, once comments are gone. */
  datatype NetsetLine = NoValue | Unreadable | Value(entry: Entry)

  predicate FamilyMatches(p: Prefix, limit: FamilyLimit) {
    p.Prefix? && (limit == AnyFamily || (limit == OnlyV4 && p.family == V4) || (limit == OnlyV6 && p.family == V6))
  }

  predicate MalformedAllowed(malformed: nat, total: nat, limits: Limits) {
    malformed <= limits.maxMalformed &&
    if total == 0 then malformed == 0 else malformed as real / total as real <= limits.maxRatio
  }

  // ----- What a file holds -----

  predicate IsRecord(line: SpamhausLine) { line.Garbage? || line.RecordLine? }

  function SpamhausEntry(line: SpamhausLine, limit: FamilyLimit): Option<Entry> {
    if line.RecordLine? && line.prefix.Some? &&
        FamilyMatches(line.prefix.value, limit) then Some(Entry(line.prefix.value, KindRange)) else None
  }

  function NetsetEntry(line: NetsetLine, limit: FamilyLimit): Option<Entry> {
    if line.Value? && FamilyMatches(line.entry.prefix, limit) then Some(line.entry) else None
  }

  predicate IsValueLine(line: NetsetLine) { !line.NoValue? }

  function SpamhausReader(limit: FamilyLimit): SpamhausLine -> Option<Entry> { line => SpamhausEntry(line, limit) }

  function UnreadableRecord(limit: FamilyLimit): SpamhausLine -> bool { line => IsRecord(line) &&
                            SpamhausEntry(line, limit) == None }

  function UnreadableValue(limit: FamilyLimit): NetsetLine -> bool { line => IsValueLine(line) &&
                           NetsetEntry(line, limit) == None }

  function NetsetReader(limit: FamilyLimit): NetsetLine -> Option<Entry> { line => NetsetEntry(line, limit) }

  /** The readable entries of the lines, in order. */
  function Readable<L>(lines: seq<L>, read: L -> Option<Entry>): seq<Entry> {
    if lines == [] then []
    else Readable(lines[..|lines| - 1], read) + match read(lines[|lines| - 1]) case Some(e) => [e] case None => []
  }

  function Tally<L>(lines: seq<L>, counts: L -> bool): nat {
    if lines == [] then 0 else Tally(lines[..|lines| - 1], counts) + if counts(lines[|lines| - 1]) then 1 else 0
  }

  /** The first metadata of the lines. */
  function MetadataIn(lines: seq<SpamhausLine>): Option<Metadata> {
    if lines == [] then None
    else if lines[0].MetadataLine? then Some(lines[0].metadata)
    else MetadataIn(lines[1..])
  }

  /** One metadata line, well formed and declaring the true count, with no record after it. */
  ghost predicate SpamhausOk(lines: seq<SpamhausLine>) {
    (forall line :: line in lines ==> !line.BadMetadataLine?) &&
    exists m :: 0 <= m < |lines| && lines[m].MetadataLine? && lines[m].metadata.declared == Tally(lines, IsRecord) &&
                forall j :: 0 <= j < |lines| ==>
                    (j != m ==> !lines[j].MetadataLine?) && (j > m ==> !lines[j].RecordLine?)
  }

  /** Where the one metadata line of the first `n` lines is, if it has been seen. */
  ghost predicate MetadataAt(lines: seq<SpamhausLine>, n: nat, found: Option<Metadata>)
    requires n <= |lines|
  {
    (forall j :: 0 <= j < n ==> !lines[j].BadMetadataLine?) &&
    if found == None then forall j :: 0 <= j < n ==> !lines[j].MetadataLine?
    else exists m :: 0 <= m < n && lines[m] == MetadataLine(found.value) &&
                     forall j :: 0 <= j < n ==>
                         (j != m ==> !lines[j].MetadataLine?) && (j > m ==> !lines[j].RecordLine?)
  }

  lemma ReadableStep<L>(lines: seq<L>, i: nat, read: L -> Option<Entry>, counts: L -> bool)
    requires i < |lines|
    ensures Readable(lines[..i + 1], read) == Readable(lines[..i],
            read) + match read(lines[i]) case Some(e) => [e] case None => []
    ensures Tally(lines[..i + 1], counts) == Tally(lines[..i], counts) + if counts(lines[i]) then 1 else 0
  {
    assert lines[..i + 1][..i] == lines[..i];
  }

  lemma NothingRead(lines: seq<SpamhausLine>, read: SpamhausLine -> Option<Entry>, limit: FamilyLimit)
    ensures Readable(lines[..0], read) == [] && Tally(lines[..0], IsRecord) == 0 &&
            Tally(lines[..0], UnreadableRecord(limit)) == 0
    ensures MetadataAt(lines, 0, None)
  {
  }

  lemma MetadataStays(lines: seq<SpamhausLine>, n: nat, found: Option<Metadata>)
    requires n < |lines| && MetadataAt(lines, n, found)
    requires lines[n].EmptyLine? || lines[n].Garbage? || (lines[n].RecordLine? && found == None)
    ensures MetadataAt(lines, n + 1, found)
  {
    if found.Some? {
      var m :| 0 <= m < n && lines[m] == MetadataLine(found.value) &&
               forall j :: 0 <= j < n ==> (j != m ==> !lines[j].MetadataLine?) && (j > m ==> !lines[j].RecordLine?);
    }
  }

  lemma MetadataFound(lines: seq<SpamhausLine>, n: nat, m: Metadata)
    requires n < |lines| && MetadataAt(lines, n, None) && lines[n] == MetadataLine(m)
    ensures MetadataAt(lines, n + 1, Some(m))
  {
  }

  lemma BadMetadata(lines: seq<SpamhausLine>, n: nat, found: Option<Metadata>)
    requires n < |lines| && MetadataAt(lines, n, found)
    requires lines[n].BadMetadataLine? || (lines[n].MetadataLine? && found.Some?) ||
             (lines[n].RecordLine? && found.Some?)
    ensures !SpamhausOk(lines)
  {
    if lines[n].BadMetadataLine? {
      assert lines[n] in lines;
    } else {
      var m :| 0 <= m < n && lines[m] == MetadataLine(found.value);
    }
  }

  /**
   Every record line is an entry or malformed; the file is refused exactly when its metadata or its
   malformed share is.
   */
  method ParseSpamhaus(lines: seq<SpamhausLine>, limits: Limits) returns (r: Option<Parsed>)
    ensures r.Some? ==>
              r.value.entries == Readable(lines, SpamhausReader(limits.family)) &&
              r.value.total == Tally(lines, IsRecord) &&
              |r.value.entries| + r.value.malformed == r.value.total && r.value.metadata.Some? &&
              r.value.metadata.value.declared == r.value.total && r.value.metadata == MetadataIn(lines)
    ensures r.Some? <==>
              SpamhausOk(lines) && MalformedAllowed(Tally(lines, UnreadableRecord(limits.family)),
                  Tally(lines, IsRecord), limits)
  {
    hide FamilyMatches, MalformedAllowed, MetadataAt, MetadataIn, SpamhausOk, Readable, Tally;
    var read := SpamhausReader(limits.family);
    NothingRead(lines, read, limits.family);
    var entries: seq<Entry>, total: nat, malformed: nat, metadata: Option<Metadata> := [], 0, 0, None;
    for i := 0 to |lines|
      invariant entries == Readable(lines[..i], read) && total == Tally(lines[..i], IsRecord) &&
                |entries| + malformed == total
      invariant malformed == Tally(lines[..i], UnreadableRecord(limits.family))
      invariant MetadataAt(lines, i, metadata)
    {
      ReadableStep(lines, i, read, IsRecord);
      ReadableStep(lines, i, read, UnreadableRecord(limits.family));
      match lines[i] {
        case EmptyLine =>
          MetadataStays(lines, i, metadata);
        case Garbage =>
          MetadataStays(lines, i, metadata);
          total, malformed := total + 1, malformed + 1;
        case BadMetadataLine =>
          BadMetadata(lines, i, metadata);
          return None;
        case MetadataLine(m) =>
          if metadata.Some? {
            BadMetadata(lines, i, metadata);
            return None;
          }
          MetadataFound(lines, i, m);
          metadata := Some(m);
        case RecordLine(prefix) =>
          if metadata.Some? {
            BadMetadata(lines, i, metadata);
            return None;
          }
          MetadataStays(lines, i, metadata);
          total := total + 1;
          if prefix == None || !FamilyMatches(prefix.value, limits.family) {
            malformed := malformed + 1;
          } else {
            entries := entries + [Entry(prefix.value, KindRange)];
          }
      }
    }
    assert lines[..|lines|] == lines;
    MetadataDecides(lines, metadata, total);
    if metadata == None || metadata.value.declared != total || !MalformedAllowed(malformed, total, limits) {
      return None;
    }
    return Some(Parsed(entries, total, malformed, metadata));
  }

  lemma MetadataDecides(lines: seq<SpamhausLine>, found: Option<Metadata>, total: nat)
    requires MetadataAt(lines, |lines|, found) && total == Tally(lines, IsRecord)
    ensures SpamhausOk(lines) <==> found.Some? && found.value.declared == total
    ensures found.Some? ==> MetadataIn(lines) == found
  {
    hide Tally, MetadataIn;
    if found.Some? {
      var m :| 0 <= m < |lines| && lines[m] == MetadataLine(found.value) &&
               forall j :: 0 <= j < |lines| ==>
                   (j != m ==> !lines[j].MetadataLine?) && (j > m ==> !lines[j].RecordLine?);
      MetadataIsThere(lines, m);
    }
  }

  lemma {:induction false} MetadataIsThere(lines: seq<SpamhausLine>, m: nat)
    requires m < |lines| && lines[m].MetadataLine? && forall j :: 0 <= j < m ==> !lines[j].MetadataLine?
    ensures MetadataIn(lines) == Some(lines[m].metadata)
  {
    if m > 0 {
      assert lines[1..][m - 1] == lines[m];
      MetadataIsThere(lines[1..], m - 1);
    }
  }

  method ParseNetset(lines: seq<NetsetLine>, limits: Limits) returns (r: Option<Parsed>)
    ensures r.Some? ==>
              r.value.entries == Readable(lines, NetsetReader(limits.family)) &&
              r.value.total == Tally(lines, IsValueLine) &&
              |r.value.entries| + r.value.malformed == r.value.total && r.value.metadata == None
    ensures r.Some? <==>
              Tally(lines, IsValueLine) > 0 &&
              MalformedAllowed(Tally(lines, UnreadableValue(limits.family)), Tally(lines, IsValueLine), limits)
  {
    hide FamilyMatches, MalformedAllowed;
    var read, counts := NetsetReader(limits.family), IsValueLine;
    var entries: seq<Entry>, total: nat, malformed: nat := [], 0, 0;
    for i := 0 to |lines|
      invariant entries == Readable(lines[..i], read) && total == Tally(lines[..i], counts) &&
                |entries| + malformed == total
      invariant malformed == Tally(lines[..i], UnreadableValue(limits.family))
    {
      ReadableStep(lines, i, read, counts);
      ReadableStep(lines, i, read, UnreadableValue(limits.family));
      match lines[i] {
        case NoValue =>
        case Unreadable => total, malformed := total + 1, malformed + 1;
        case Value(entry) =>
          total := total + 1;
          if !FamilyMatches(entry.prefix, limits.family) {
            malformed := malformed + 1;
          } else {
            entries := entries + [entry];
          }
      }
    }
    assert lines[..|lines|] == lines;
    if total == 0 || !MalformedAllowed(malformed, total, limits) {
      return None;
    }
    return Some(Parsed(entries, total, malformed, None));
  }

  // ----- Validation -----

  datatype Policy = Policy(least: nat, most: nat, previous: nat, maxGrowth: real, maxShrink: real, now: int,
      maxAge: int, maxSkew: int)

  datatype Snapshot = Snapshot(entries: seq<Entry>, raw: nat, rejected: nat, duplicates: nat)

  predicate ValidPolicy(p: Policy) {
    p.least >= 1 && p.most >= p.least && 1.0 <= p.maxGrowth <= 100.0 && 0.0 < p.maxShrink <= 1.0 && p.maxAge >= 0 &&
    p.maxSkew >= 0
  }

  predicate FreshEnough(m: Option<Metadata>, p: Policy) {
    m.Some? ==> m.value.generatedAt <= p.now + p.maxSkew && (p.maxAge > 0 ==> m.value.generatedAt >= p.now - p.maxAge)
  }

  predicate CountFits(count: nat, p: Policy) {
    p.least <= count <= p.most &&
    (p.previous > 0 ==> p.maxShrink <= count as real / p.previous as real <= p.maxGrowth)
  }

  lemma RatioMeans(count: nat, whole: nat, ratio: real)
    requires whole > 0
    ensures count as real / whole as real <= ratio <==> count as real <= ratio * whole as real
    ensures ratio <= count as real / whole as real <==> ratio * whole as real <= count as real
  {
    var q, w := count as real / whole as real, whole as real;
    assert q * w == count as real;
    if q <= ratio { assert (ratio - q) * w >= 0.0; } else { assert (q - ratio) * w > 0.0; }
    if ratio <= q { assert (q - ratio) * w >= 0.0; } else { assert (ratio - q) * w > 0.0; }
  }

  /** The count lies within its bounds, and within the allowed multiples of the previous one. */
  lemma CountMeans(count: nat, p: Policy)
    ensures CountFits(count, p) <==>
            p.least <= count <= p.most &&
            (p.previous > 0 ==>
               p.maxShrink * p.previous as real <= count as real <= p.maxGrowth * p.previous as real)
  {
    if p.previous > 0 {
      RatioMeans(count, p.previous, p.maxShrink);
      RatioMeans(count, p.previous, p.maxGrowth);
    }
  }

  /** At most so many malformed records, and at most such a share of all. */
  lemma MalformedMeans(malformed: nat, total: nat, limits: Limits)
    requires malformed <= total
    ensures MalformedAllowed(malformed, total, limits) <==>
            malformed <= limits.maxMalformed && malformed as real <= limits.maxRatio * total as real
  {
    if total > 0 { RatioMeans(malformed, total, limits.maxRatio); }
  }

  predicate Acceptable(e: Entry) { IsSafePrefix(Masked(e.prefix)) && ValidateKind(Masked(e.prefix), e.kind) }

  predicate IsRefused(e: Entry) { !Acceptable(e) }

  function Canonical(e: Entry): Entry { Entry(Masked(e.prefix), e.kind) }

  /** What the file contributes: its acceptable entries, masked, each once. */
  ghost function Accepted(entries: seq<Entry>): set<Entry> {
    set e | e in entries && Acceptable(e) :: Canonical(e)
  }

  predicate EntryLess(a: Entry, b: Entry) {
    if a.prefix != b.prefix then PrefixLess(a.prefix, b.prefix) else KindRank(a.kind) < KindRank(b.kind)
  }

  /** IPv4 first, then by address, wider blocks first; of one block, the single address before the range. */
  predicate Before(a: Entry, b: Entry) {
    match (a.prefix, b.prefix)
    case (Prefix(f, v, n), Prefix(g, w, m)) =>
      (f == V4 && g == V6) ||
      (f == g && (v < w || (v == w && (n < m || (n == m && a.kind != KindRange && b.kind != a.kind)))))
    case _ => b.prefix.Prefix? || (a.prefix == b.prefix && a.kind != KindRange && b.kind != a.kind)
  }

  lemma LessIsBefore(a: Entry, b: Entry)
    requires EntryLess(a, b)
    ensures Before(a, b)
  {
  }

  lemma EntryOrder()
    ensures StrictOrder(EntryLess)
    ensures forall a, b :: a == b || EntryLess(a, b) || EntryLess(b, a)
  {
  }

  predicate Distinct(entries: seq<Entry>) {
    forall i, j :: 0 <= i < j < |entries| ==> entries[i] != entries[j]
  }

  /**
   The entries are exactly what the file contributes, in one fixed order, and every raw entry is
   accounted for. A snapshot is refused exactly by policy, age, count or ratio.
   */
  ghost predicate Validates(p: Parsed, policy: Policy, s: Snapshot) {
    Ascending(s.entries, EntryLess) && (forall e :: e in s.entries <==> e in Accepted(p.entries)) &&
    s.raw == |p.entries| && |s.entries| + s.rejected + s.duplicates == s.raw &&
    s.rejected == Tally(p.entries, IsRefused) &&
    ValidPolicy(policy) && FreshEnough(p.metadata, policy) && CountFits(|s.entries|, policy)
  }

  method Validate(p: Parsed, policy: Policy) returns (r: Option<Snapshot>)
    ensures r.Some? ==> Validates(p, policy, r.value)
    ensures r == None ==> forall s :: !Validates(p, policy, s)
    ensures r.Some? <==>
              ValidPolicy(policy) && FreshEnough(p.metadata, policy) && CountFits(|Accepted(p.entries)|, policy)
  {
    hide Acceptable, Canonical, EntryLess, CountFits, ValidPolicy, FreshEnough;
    if !ValidPolicy(policy) || !FreshEnough(p.metadata, policy) {
      return None;
    }
    var entries, rejected, duplicates := Sift(p.entries);
    DistinctSize(entries, Accepted(p.entries));
    EntryOrder();
    var sorted := Sort(entries, EntryLess);
    SortAscends(entries, EntryLess);
    var s := Snapshot(sorted, |p.entries|, rejected, duplicates);
    if !CountFits(|sorted|, policy) {
      forall other | Validates(p, policy, other)
        ensures false
      {
        AscendingUnique(sorted, other.entries, EntryLess);
      }
      return None;
    }
    return Some(s);
  }

  /** The loop of `Validate`: reject, drop repeats, keep the rest in file order. */
  method Sift(raw: seq<Entry>) returns (entries: seq<Entry>, rejected: nat, duplicates: nat)
    ensures Distinct(entries) && forall e :: e in entries <==> e in Accepted(raw)
    ensures |entries| + rejected + duplicates == |raw|
    ensures rejected == Tally(raw, IsRefused)
  {
    hide Acceptable, Canonical;
    entries, rejected, duplicates := [], 0, 0;
    for i := 0 to |raw|
      invariant Distinct(entries) && (forall e :: e in entries <==> e in Accepted(raw[..i]))
      invariant |entries| + rejected + duplicates == i && rejected == Tally(raw[..i], IsRefused)
    {
      assert raw[..i + 1] == raw[..i] + [raw[i]];
      ReadableStep(raw, i, e => None, IsRefused);
      AcceptedStep(raw, i);
      if !Acceptable(raw[i]) {
        rejected := rejected + 1;
      } else if Canonical(raw[i]) in entries {
        duplicates := duplicates + 1;
      } else {
        entries := entries + [Canonical(raw[i])];
      }
    }
    assert raw[..|raw|] == raw;
  }

  lemma AcceptedStep(raw: seq<Entry>, i: nat)
    requires i < |raw|
    ensures Accepted(raw[..i + 1]) == Accepted(raw[..i]) + if Acceptable(raw[i]) then {Canonical(raw[i])} else {}
  {
    hide Acceptable, Canonical;
    assert raw[..i + 1] == raw[..i] + [raw[i]];
  }

  // ----- End to end -----

  /** A fetched file in one of the configured formats. */
  datatype FeedFile = SpamhausFile(records: seq<SpamhausLine>) | NetsetFile(values: seq<NetsetLine>)

  function RecordCount(file: FeedFile): nat {
    match file
    case SpamhausFile(lines) => Tally(lines, IsRecord)
    case NetsetFile(lines) => Tally(lines, IsValueLine)
  }

  function ReadableOf(file: FeedFile, limit: FamilyLimit): seq<Entry> {
    match file
    case SpamhausFile(lines) => Readable(lines, SpamhausReader(limit))
    case NetsetFile(lines) => Readable(lines, NetsetReader(limit))
  }

  /** What the file says of itself; only one of the formats does. */
  function MetadataOf(file: FeedFile): Option<Metadata> {
    match file
    case SpamhausFile(lines) => MetadataIn(lines)
    case NetsetFile(_) => None
  }

  /** The parser of the format accepts the file. */
  ghost predicate Parses(file: FeedFile, limits: Limits) {
    match file
    case SpamhausFile(lines) =>
      SpamhausOk(lines) && MalformedAllowed(Tally(lines, UnreadableRecord(limits.family)), RecordCount(file), limits)
    case NetsetFile(lines) =>
      RecordCount(file) > 0 && MalformedAllowed(Tally(lines, UnreadableValue(limits.family)), RecordCount(file), limits)
  }

  /** Every counted line is read or malformed. */
  lemma {:induction false} Conserved<L>(lines: seq<L>, read: L -> Option<Entry>, counts: L -> bool, bad: L -> bool)
    requires forall l :: (read(l).Some? || bad(l) <==> counts(l)) && !(read(l).Some? && bad(l))
    ensures |Readable(lines, read)| + Tally(lines, bad) == Tally(lines, counts)
  {
    if lines != [] { Conserved(lines[..|lines| - 1], read, counts, bad); }
  }

  /** The records of the file that no entry could be read from. */
  function MalformedIn(file: FeedFile, limit: FamilyLimit): int {
    RecordCount(file) - |ReadableOf(file, limit)|
  }

  /** The parser's verdict in terms of what the file holds. */
  lemma ParsesMeans(file: FeedFile, limits: Limits)
    ensures MalformedIn(file, limits.family) >= 0
    ensures Parses(file, limits) <==>
            (match file case SpamhausFile(lines) => SpamhausOk(lines) case NetsetFile(_) => RecordCount(file) > 0) &&
            MalformedIn(file, limits.family) <= limits.maxMalformed &&
            MalformedIn(file, limits.family) as real <= limits.maxRatio * RecordCount(file) as real
  {
    hide SpamhausOk, MalformedAllowed, Readable, Tally, FamilyMatches;
    match file
    case SpamhausFile(lines) =>
      Conserved(lines, SpamhausReader(limits.family), IsRecord, UnreadableRecord(limits.family));
      MalformedMeans(Tally(lines, UnreadableRecord(limits.family)), RecordCount(file), limits);
    case NetsetFile(lines) =>
      Conserved(lines, NetsetReader(limits.family), IsValueLine, UnreadableValue(limits.family));
      MalformedMeans(Tally(lines, UnreadableValue(limits.family)), RecordCount(file), limits);
  }

  /** `Parse`, on the configured format. */
  method Parse(file: FeedFile, limits: Limits) returns (r: Option<Parsed>)
    ensures r.Some? <==> Parses(file, limits)
    ensures r.Some? ==>
              r.value.entries == ReadableOf(file, limits.family) && r.value.total == RecordCount(file) &&
              |r.value.entries| + r.value.malformed == r.value.total && r.value.metadata == MetadataOf(file)
  {
    hide SpamhausReader, NetsetReader, MalformedAllowed, SpamhausOk, Tally, Readable, UnreadableRecord, UnreadableValue,
         MetadataIn;
    match file
    case SpamhausFile(lines) => r := ParseSpamhaus(lines, limits);
    case NetsetFile(lines) => r := ParseNetset(lines, limits);
  }

  /**
   `parseFetched`, for every format: accepted plus rejected is the number of records in the file, and what is accepted
   is exactly the file's safe, well-kinded entries, masked, each once, in one fixed order. A file is accepted exactly
   when its parser accepts it, the policy is valid, its metadata is fresh and the number of its entries fits.
   */
  method ParseFetched(file: FeedFile, limits: Limits, policy: Policy) returns (r: Option<Snapshot>, rejected: nat)
    ensures r.Some? ==> |r.value.entries| + rejected == RecordCount(file)
    ensures r.Some? ==>
              Ascending(r.value.entries, EntryLess) &&
              forall e :: e in r.value.entries <==> e in Accepted(ReadableOf(file, limits.family))
    ensures r.Some? <==>
              Parses(file, limits) && ValidPolicy(policy) && FreshEnough(MetadataOf(file), policy) &&
              CountFits(|Accepted(ReadableOf(file, limits.family))|, policy)
    ensures r.Some? ==> forall i, j :: 0 <= i < j < |r.value.entries| ==> Before(r.value.entries[i], r.value.entries[j])
    ensures r.Some? ==>
              MalformedIn(file, limits.family) <= limits.maxMalformed &&
              MalformedIn(file, limits.family) as real <= limits.maxRatio * RecordCount(file) as real
    ensures Parses(file, limits) ==>
              var count := |Accepted(ReadableOf(file, limits.family))|;
              r.Some? <==>
                1 <= policy.least <= policy.most && 1.0 <= policy.maxGrowth <= 100.0 &&
                0.0 < policy.maxShrink <= 1.0 && policy.maxAge >= 0 && policy.maxSkew >= 0 &&
                (MetadataOf(file).Some? ==>
                   var made := MetadataOf(file).value.generatedAt;
                   made - policy.now <= policy.maxSkew && (policy.maxAge == 0 || policy.now - made <= policy.maxAge)) &&
                policy.least <= count <= policy.most &&
                (policy.previous > 0 ==>
                   policy.maxShrink * policy.previous as real <= count as real &&
                   count as real <= policy.maxGrowth * policy.previous as real)
  {
    PolicyMeans(file, policy);
    ParsesMeans(file, limits);
    CountMeans(|Accepted(ReadableOf(file, limits.family))|, policy);
    hide MalformedIn, Before;
    hide MetadataOf, RecordCount, ReadableOf, Parses, Accepted, EntryLess, CountFits, ValidPolicy, FreshEnough;
    rejected := 0;
    var parsed := Parse(file, limits);
    if parsed == None {
      return None, rejected;
    }
    r := Validate(parsed.value, policy);
    if r.Some? {
      rejected := parsed.value.malformed + r.value.rejected + r.value.duplicates;
      forall i, j | 0 <= i < j < |r.value.entries| ensures Before(r.value.entries[i], r.value.entries[j]) {
        LessIsBefore(r.value.entries[i], r.value.entries[j]);
      }
    }
  }

  // ----- What an accepted file contributes -----

  lemma {:induction false} ReadableMeans<L>(lines: seq<L>, read: L -> Option<Entry>, e: Entry)
    ensures e in Readable(lines, read) <==> exists l :: l in lines && read(l) == Some(e)
  {
    if lines != [] {
      var n := |lines| - 1;
      assert lines == lines[..n] + [lines[n]];
      ReadableMeans(lines[..n], read, e);
    }
  }

  /** The file lists the entry, and its family is wanted; every prefix of a Spamhaus file is a range. */
  predicate Offers(file: FeedFile, limit: FamilyLimit, e: Entry) {
    (match file
     case SpamhausFile(lines) => RecordLine(Some(e.prefix)) in lines && e.kind == KindRange
     case NetsetFile(lines) => Value(e) in lines) &&
    e.prefix.Prefix? && (limit == OnlyV4 ==> e.prefix.family == V4) && (limit == OnlyV6 ==> e.prefix.family == V6)
  }

  lemma ReadableIsOffered(file: FeedFile, limit: FamilyLimit, e: Entry)
    ensures e in ReadableOf(file, limit) <==> Offers(file, limit, e)
  {
    hide Readable;
    match file
    case SpamhausFile(lines) =>
      ReadableMeans(lines, SpamhausReader(limit), e);
      if Offers(file, limit, e) { assert SpamhausReader(limit)(RecordLine(Some(e.prefix))) == Some(e); }
    case NetsetFile(lines) =>
      ReadableMeans(lines, NetsetReader(limit), e);
      if Offers(file, limit, e) { assert NetsetReader(limit)(Value(e)) == Some(e); }
  }

  /** An accepted file contributes exactly its listed blocks that may become bans. */
  lemma FileContributes(file: FeedFile, limit: FamilyLimit, e: Entry)
    ensures e in Accepted(ReadableOf(file, limit)) <==>
            exists x :: Offers(file, limit, x) && MayBan(x.prefix, x.kind) && e == Entry(Masked(x.prefix), x.kind)
  {
    hide Offers, ReadableOf, MayBan, Masked, IsSafePrefix, ValidateKind;
    forall x
      ensures x in ReadableOf(file, limit) <==> Offers(file, limit, x)
      ensures Acceptable(x) <==> MayBan(x.prefix, x.kind)
    {
      ReadableIsOffered(file, limit, x);
      MayBanMeans(x.prefix, x.kind);
    }
  }

  lemma PolicyMeans(file: FeedFile, policy: Policy)
    ensures ValidPolicy(policy) && FreshEnough(MetadataOf(file), policy) <==>
            1 <= policy.least <= policy.most && 1.0 <= policy.maxGrowth <= 100.0 &&
            0.0 < policy.maxShrink <= 1.0 && policy.maxAge >= 0 && policy.maxSkew >= 0 &&
            (MetadataOf(file).Some? ==>
               var made := MetadataOf(file).value.generatedAt;
               made - policy.now <= policy.maxSkew && (policy.maxAge == 0 || policy.now - made <= policy.maxAge))
  {
    hide MetadataOf;
  }

  function ToStore(s: Snapshot): (r: seq<Grace.SnapshotEntry>)
    ensures |r| == |s.entries| && forall i :: 0 <= i < |r| ==>
            r[i] == Grace.SnapshotEntry(s.entries[i].prefix, s.entries[i].kind)
  {
    seq(|s.entries|, i requires 0 <= i < |s.entries| => Grace.SnapshotEntry(s.entries[i].prefix, s.entries[i].kind))
  }

  /** Every validated snapshot passes the store's own validation. */
  lemma SnapshotMeetsStore(p: Parsed, policy: Policy, s: Snapshot, grace: int)
    requires Validates(p, policy, s) && 1 <= grace <= 100
    ensures Grace.SnapshotFits(ToStore(s), grace)
  {
    hide IsSafePrefix, Masked, ValidateKind, EntryLess, CountFits;
    EntryOrder();
    forall i | 0 <= i < |s.entries|
      ensures Grace.EntryFits(ToStore(s)[i]) && Masked(s.entries[i].prefix) == s.entries[i].prefix
    {
      assert s.entries[i] in Accepted(p.entries);
      var e :| e in p.entries && Acceptable(e) && Canonical(e) == s.entries[i];
      MaskedIsMasked(e.prefix);
    }
    forall i, j | 0 <= i < j < |s.entries|
      ensures s.entries[i] != s.entries[j]
    {
      assert EntryLess(s.entries[i], s.entries[j]);
    }
  }
}
