/**
 internal/state/feed_repository.go: the missing-run counters of feed entries. A feed's active
 entries are exactly those of its last `grace` accepted snapshots.
 */
module Grace {
  import opened Collections
  import opened Prefixes
  import opened Safety
  import opened Special
  import opened Database
  import opened Prune

  type Entries = map<EntryKey, EntryRow>

  datatype SnapshotResult = SnapshotResult(added: nat, reactivated: nat, missing: nat, deactivated: nat)

  predicate OfFeed(present: set<EntryKey>, feedId: int) { forall k :: k in present ==> k.feedId == feedId }

  /** A row of the feed that the snapshot lacks: one more run missed, and inactive once `grace` are. */
  function Aged(row: EntryRow, grace: nat): EntryRow {
    if row.active then EntryRow(row.lastSeen, row.missingRuns + 1, row.missingRuns + 1 < grace) else row
  }

  /** The entries after a snapshot of the feed. */
  function Applied(entries: Entries, feedId: int, present: set<EntryKey>, grace: nat, now: Seconds): Entries {
    map k | k in entries.Keys + present ::
      if k in present then EntryRow(now, 0, true)
      else if k.feedId == feedId then Aged(entries[k], grace)
      else entries[k]
  }

  predicate IsActive(entries: Entries, k: EntryKey) { k in entries && entries[k].active }

  ghost function ActiveOf(entries: Entries, feedId: int): set<EntryKey> {
    set k | k in entries && entries[k].active && k.feedId == feedId
  }

  ghost function AddedBy(entries: Entries, present: set<EntryKey>): set<EntryKey> {
    set k | k in present && k !in entries
  }

  ghost function ReactivatedBy(entries: Entries, present: set<EntryKey>): set<EntryKey> {
    set k | k in present && k in entries && !entries[k].active
  }

  ghost function MissingFrom(entries: Entries, feedId: int, present: set<EntryKey>): set<EntryKey> {
    set k | k in entries && k !in present && entries[k].active && k.feedId == feedId
  }

  ghost function DeactivatedBy(entries: Entries, feedId: int, present: set<EntryKey>, grace: nat): set<EntryKey> {
    set k | k in entries && k !in present && entries[k].active && k.feedId == feedId &&
    entries[k].missingRuns + 1 >= grace
  }

  ghost predicate SnapshotCounted(entries: Entries, feedId: int, present: set<EntryKey>, grace: nat,
                                  r: SnapshotResult) {
    r.added == |AddedBy(entries, present)| && r.reactivated == |ReactivatedBy(entries, present)| &&
    r.missing == |MissingFrom(entries, feedId, present)| &&
    r.deactivated == |DeactivatedBy(entries, feedId, present, grace)|
  }

  /** The active count moves by exactly what the snapshot reports. */
  lemma ActiveCount(entries: Entries, feedId: int, present: set<EntryKey>, grace: nat, now: Seconds, r: SnapshotResult)
    requires OfFeed(present, feedId) && grace >= 1 && SnapshotCounted(entries, feedId, present, grace, r)
    ensures |ActiveOf(Applied(entries, feedId, present, grace, now), feedId)| ==
            |ActiveOf(entries, feedId)| + r.added + r.reactivated - r.deactivated
    ensures r.deactivated <= r.missing
  {
    hide ActiveOf, Applied;
    ActiveAfter(entries, feedId, present, grace, now);
    var before, gone := ActiveOf(entries, feedId), DeactivatedBy(entries, feedId, present, grace);
    assert gone <= before && |before - gone| == |before| - |gone|;
    SubsetSize(gone, MissingFrom(entries, feedId, present));
  }

  lemma ActiveAfter(entries: Entries, feedId: int, present: set<EntryKey>, grace: nat, now: Seconds)
    requires OfFeed(present, feedId) && grace >= 1
    ensures var before, gone := ActiveOf(entries, feedId), DeactivatedBy(entries, feedId, present, grace);
            var back, newcomers := ReactivatedBy(entries, present), AddedBy(entries, present);
            gone <= before && (before - gone) !! back && ((before - gone) + back) !! newcomers &&
            ActiveOf(Applied(entries, feedId, present, grace, now), feedId) == (before - gone) + back + newcomers
  {
  }

  // ----- The transaction's own steps -----

  datatype SnapshotEntry = SnapshotEntry(prefix: Prefix, kind: Kind)

  function KeyOfEntry(feedId: int, e: SnapshotEntry): EntryKey { EntryKey(feedId, Masked(e.prefix), e.kind) }

  predicate EntryFits(e: SnapshotEntry) { IsSafePrefix(Masked(e.prefix)) && ValidateKind(Masked(e.prefix), e.kind) }

  lemma FitsMeans(e: SnapshotEntry)
    ensures EntryFits(e) <==> MayBan(e.prefix, e.kind)
  {
    hide IsSafePrefix, ValidateKind, Masked, MayBan;
    MayBanMeans(e.prefix, e.kind);
  }

  /** `validateSnapshot`: a grace in range, and safe entries without a repeated key. */
  predicate SnapshotFits(list: seq<SnapshotEntry>, grace: int) {
    1 <= grace <= 100 && (forall e :: e in list ==> EntryFits(e)) &&
    forall i, j :: 0 <= i < j < |list| ==> KeyOfEntry(0, list[i]) != KeyOfEntry(0, list[j])
  }

  ghost function PresentKeys(feedId: int, list: seq<SnapshotEntry>): set<EntryKey> {
    set e | e in list :: KeyOfEntry(feedId, e)
  }

  /**
   Entries of the snapshot are seen now and active. An active entry of the feed that it lacks has missed one run more,
   and stays active below the grace. Every other row is as it was.
   */
  ghost predicate RowsFollow(was: Entries, feedId: int, present: set<EntryKey>, grace: int, now: Seconds,
                             entries: Entries) {
    entries.Keys == was.Keys + present &&
    (forall k :: k in present ==> entries[k] == EntryRow(now, 0, true)) &&
    forall k :: k in was && k !in present ==>
      if k.feedId == feedId && was[k].active
      then entries[k] == EntryRow(was[k].lastSeen, was[k].missingRuns + 1, was[k].missingRuns + 1 < grace)
      else entries[k] == was[k]
  }

  /** The rows and the four counts after a snapshot, said of the tables before and after. */
  ghost predicate SnapshotEffect(was: Entries, feedId: int, list: seq<SnapshotEntry>, grace: int, now: Seconds,
                                 entries: Entries, result: SnapshotResult) {
    var present := set e | e in list :: EntryKey(feedId, Masked(e.prefix), e.kind);
    RowsFollow(was, feedId, present, grace, now, entries) &&
    result.added == |set k | k in present && k !in was| &&
    result.reactivated == |set k | k in present && k in was && !was[k].active| &&
    result.missing == |set k | k in was && k.feedId == feedId && was[k].active && k !in present| &&
    result.deactivated == |set k | k in was && k in entries && was[k].active && !entries[k].active|
  }

  lemma AppliedEffect(was: Entries, feedId: int, list: seq<SnapshotEntry>, grace: nat, now: Seconds, r: SnapshotResult)
    requires SnapshotCounted(was, feedId, PresentKeys(feedId, list), grace, r)
    ensures SnapshotEffect(was, feedId, list, grace, now,
              Applied(was, feedId, PresentKeys(feedId, list), grace, now), r)
  {
    hide Masked;
    var present := set e | e in list :: EntryKey(feedId, Masked(e.prefix), e.kind);
    assert present == PresentKeys(feedId, list);
    var entries := Applied(was, feedId, present, grace, now);
    assert entries.Keys == was.Keys + present;
    assert ReactivatedBy(was, present) == set k | k in present && k in was && !was[k].active;
    assert MissingFrom(was, feedId, present) ==
           set k | k in was && k.feedId == feedId && was[k].active && k !in present;
    assert DeactivatedBy(was, feedId, present, grace) ==
           set k | k in was && k in entries && was[k].active && !entries[k].active;
  }

  /** The first update: one more missed run for every active row of the feed. */
  function Incremented(entries: Entries, feedId: int): Entries {
    map k | k in entries ::
      if k.feedId == feedId && entries[k].active then entries[k].(missingRuns := entries[k].missingRuns + 1)
      else entries[k]
  }

  /** After the keys of `present` have been written over the incremented rows. */
  ghost predicate Upserted(entries: Entries, feedId: int, present: set<EntryKey>, now: Seconds, tx: Entries) {
    tx.Keys == entries.Keys + present &&
    (forall k :: k in present ==> tx[k] == EntryRow(now, 0, true)) &&
    forall k :: k in entries && k !in present ==> tx[k] == Incremented(entries, feedId)[k]
  }

  /** The last update: rows of the feed that missed too many runs go inactive. */
  function Overdue(tx: Entries, feedId: int, grace: nat): set<EntryKey> {
    set k | k in tx && k.feedId == feedId && tx[k].active && tx[k].missingRuns >= grace
  }

  function Deactivated(tx: Entries, gone: set<EntryKey>): Entries {
    map k | k in tx :: if k in gone then tx[k].(active := false) else tx[k]
  }

  lemma StepsApply(entries: Entries, feedId: int, present: set<EntryKey>, grace: nat, now: Seconds, tx: Entries)
    requires grace >= 1 && OfFeed(present, feedId) && Upserted(entries, feedId, present, now, tx)
    ensures Overdue(tx, feedId, grace) == DeactivatedBy(entries, feedId, present, grace)
    ensures Deactivated(tx, Overdue(tx, feedId, grace)) == Applied(entries, feedId, present, grace, now)
  {
    var done, want := Deactivated(tx, Overdue(tx, feedId, grace)), Applied(entries, feedId, present, grace, now);
    assert done.Keys == want.Keys;
    forall k | k in want
      ensures done[k] == want[k]
    {
    }
  }

  lemma NothingUpserted(entries: Entries, feedId: int, list: seq<SnapshotEntry>, now: Seconds)
    ensures Upserted(entries, feedId, {}, now, Incremented(entries, feedId)) && PresentKeys(feedId, list[..0]) == {}
  {
  }

  lemma CountMore(entries: Entries, present: set<EntryKey>, key: EntryKey)
    requires key !in present
    ensures |AddedBy(entries, present + {key})| == |AddedBy(entries, present)| + if key !in entries then 1 else 0
    ensures |ReactivatedBy(entries, present + {key})| == |ReactivatedBy(entries, present)| + if key in entries &&
            !entries[key].active then 1 else 0
  {
    hide AddedBy, ReactivatedBy;
    AddedMore(entries, present, key);
    ReactivatedMore(entries, present, key);
  }

  lemma AddedMore(entries: Entries, present: set<EntryKey>, key: EntryKey)
    requires key !in present
    ensures AddedBy(entries, present + {key}) == AddedBy(entries, present) + (if key !in entries then {key} else {})
    ensures key !in AddedBy(entries, present)
  {
  }

  lemma ReactivatedMore(entries: Entries, present: set<EntryKey>, key: EntryKey)
    requires key !in present
    ensures ReactivatedBy(entries, present + {key}) == ReactivatedBy(entries, present) + (if key in entries &&
            !entries[key].active then {key} else {})
    ensures key !in ReactivatedBy(entries, present)
  {
  }

  lemma UpsertMore(entries: Entries, feedId: int, present: set<EntryKey>, now: Seconds, tx: Entries, key: EntryKey)
    requires Upserted(entries, feedId, present, now, tx)
    ensures Upserted(entries, feedId, present + {key}, now, tx[key := EntryRow(now, 0, true)])
  {
  }

  lemma PresentStep(feedId: int, list: seq<SnapshotEntry>, i: nat)
    requires i < |list|
    ensures PresentKeys(feedId, list[..i + 1]) == PresentKeys(feedId, list[..i]) + {KeyOfEntry(feedId, list[i])}
    ensures SnapshotFits(list, 1) ==> KeyOfEntry(feedId, list[i]) !in PresentKeys(feedId, list[..i])
  {
    hide EntryFits, Masked;
    assert list[..i + 1] == list[..i] + [list[i]];
    if SnapshotFits(list, 1) {
      forall e | e in list[..i]
        ensures KeyOfEntry(feedId, e) != KeyOfEntry(feedId, list[i])
      {
        var j :| 0 <= j < i && list[j] == e;
        assert KeyOfEntry(0, list[j]) != KeyOfEntry(0, list[i]);
      }
    }
  }

  /** A prune of the tables is a prune of the entries. */
  lemma PruneIsEvent(db: Tables, cutoff: Seconds, keep: nat, grace: nat)
    ensures Pruned(db, cutoff, keep).entries == After(db.entries, PruneEntries(cutoff), grace)
  {
    hide OldRuns, OldOperations, OldDecisions, OldAlerts, OldObjects;
  }

  // ----- Whole histories -----

  /**
   What can happen to the entries: a snapshot of some feed, a failed or unmodified fetch, or a prune
   of inactive rows.
   */
  datatype FeedEvent =
    | Snapshot(feedId: int, present: set<EntryKey>, now: Seconds)
    | FetchFailed
    | NotModified
    | PruneEntries(cutoff: Seconds)

  predicate ValidEvent(e: FeedEvent) { e.Snapshot? ==> OfFeed(e.present, e.feedId) }

  function After(entries: Entries, e: FeedEvent, grace: nat): Entries {
    match e
    case Snapshot(feedId, present, now) => Applied(entries, feedId, present, grace, now)
    case PruneEntries(cutoff) => map k | k in entries &&
        !(!entries[k].active && entries[k].lastSeen < cutoff) :: entries[k]
    case _ => entries
  }

  function Replay(events: seq<FeedEvent>, grace: nat): Entries {
    if events == [] then map[] else After(Replay(events[..|events| - 1], grace), events[|events| - 1], grace)
  }

  /** The accepted snapshots of a feed, oldest first. */
  function Snapshots(events: seq<FeedEvent>, feedId: int): seq<set<EntryKey>> {
    if events == [] then []
    else
      var last := events[|events| - 1];
      Snapshots(events[..|events| - 1], feedId) + if last.Snapshot? && last.feedId == feedId then [last.present] else []
  }

  /** `k` is in one of the last `grace` snapshots. */
  ghost predicate Recent(snaps: seq<set<EntryKey>>, k: EntryKey, grace: nat) {
    exists i :: 0 <= i < |snaps| && i >= |snaps| - grace && k in snaps[i]
  }

  /** How many snapshots in a row, counted from the last, lack `k`. */
  function Missed(snaps: seq<set<EntryKey>>, k: EntryKey): nat {
    if snaps == [] || k in snaps[|snaps| - 1] then 0 else 1 + Missed(snaps[..|snaps| - 1], k)
  }

  /** The rows of a feed say of each key whether it is recent, and the counter how long it has been missing. */
  ghost predicate Tracks(entries: Entries, feedId: int, snaps: seq<set<EntryKey>>, grace: nat) {
    forall k: EntryKey :: k.feedId == feedId ==>
      (IsActive(entries, k) <==> Recent(snaps, k, grace)) &&
      (IsActive(entries, k) ==> entries[k].missingRuns == Missed(snaps, k) < grace)
  }

  lemma RecentStep(snaps: seq<set<EntryKey>>, present: set<EntryKey>, k: EntryKey, grace: nat)
    requires grace >= 1
    ensures k in present ==> Recent(snaps + [present], k, grace) && Missed(snaps + [present], k) == 0
    ensures k !in present ==> Missed(snaps + [present], k) == Missed(snaps, k) + 1
    ensures k !in present && Recent(snaps + [present], k, grace) ==> Recent(snaps, k, grace)
    ensures k !in present && Recent(snaps, k, grace) ==>
            (Recent(snaps + [present], k, grace) <==> Missed(snaps, k) + 1 < grace)
  {
    var more := snaps + [present];
    assert more[..|more| - 1] == snaps;
    if k in present {
      assert k in more[|snaps|];
    } else {
      forall i | 0 <= i < |more| && i >= |more| - grace && k in more[i]
        ensures k in snaps[i] && Recent(snaps, k, grace) && Missed(snaps, k) + 1 < grace
      {
        MissedBound(snaps, k, i);
      }
      if Recent(snaps, k, grace) {
        var i := LastPresence(snaps, k);
        assert k in more[i];
      }
    }
  }

  lemma {:induction false} MissedBound(snaps: seq<set<EntryKey>>, k: EntryKey, i: nat)
    requires i < |snaps| && k in snaps[i]
    ensures Missed(snaps, k) <= |snaps| - 1 - i
  {
    if k !in snaps[|snaps| - 1] {
      assert snaps[..|snaps| - 1][i] == snaps[i];
      MissedBound(snaps[..|snaps| - 1], k, i);
    }
  }

  lemma {:induction false} LastPresence(snaps: seq<set<EntryKey>>, k: EntryKey) returns (i: nat)
    requires exists j :: 0 <= j < |snaps| && k in snaps[j]
    ensures i < |snaps| && k in snaps[i] && i == |snaps| - 1 - Missed(snaps, k)
  {
    if k in snaps[|snaps| - 1] {
      i := |snaps| - 1;
    } else {
      var j :| 0 <= j < |snaps| && k in snaps[j];
      assert k in snaps[..|snaps| - 1][j];
      i := LastPresence(snaps[..|snaps| - 1], k);
    }
  }

  lemma SnapshotTracks(entries: Entries, feedId: int, present: set<EntryKey>, now: Seconds, snaps: seq<set<EntryKey>>,
                       grace: nat)
    requires grace >= 1 && OfFeed(present, feedId) && Tracks(entries, feedId, snaps, grace)
    ensures Tracks(Applied(entries, feedId, present, grace, now), feedId, snaps + [present], grace)
  {
    hide Recent, Missed;
    var entries' := Applied(entries, feedId, present, grace, now);
    forall k: EntryKey | k.feedId == feedId
      ensures IsActive(entries', k) <==> Recent(snaps + [present], k, grace)
      ensures IsActive(entries', k) ==> entries'[k].missingRuns == Missed(snaps + [present], k) < grace
    {
      RecentStep(snaps, present, k, grace);
    }
  }

  lemma {:induction false} ReplayTracks(events: seq<FeedEvent>, feedId: int, grace: nat)
    requires grace >= 1 && forall e :: e in events ==> ValidEvent(e)
    ensures Tracks(Replay(events, grace), feedId, Snapshots(events, feedId), grace)
  {
    hide Recent, Missed, Applied;
    if events == [] {
      NothingRecent(grace);
    } else {
      var earlier, last := events[..|events| - 1], events[|events| - 1];
      ReplayTracks(earlier, feedId, grace);
      assert ValidEvent(last);
      assert Snapshots(earlier, feedId) + [] == Snapshots(earlier, feedId);
      var entries := Replay(earlier, grace);
      if last.Snapshot? {
        if last.feedId == feedId {
          SnapshotTracks(entries, feedId, last.present, last.now, Snapshots(earlier, feedId), grace);
        } else {
          OtherFeedTracks(entries, feedId, last, Snapshots(earlier, feedId), grace);
        }
      } else if last.PruneEntries? {
        assert forall k :: IsActive(After(entries, last, grace), k) <==> IsActive(entries, k);
      }
    }
  }

  lemma NothingRecent(grace: nat)
    ensures forall feedId :: Tracks(map[], feedId, [], grace)
  {
  }

  lemma OtherFeedTracks(entries: Entries, feedId: int, e: FeedEvent, snaps: seq<set<EntryKey>>, grace: nat)
    requires e.Snapshot? && e.feedId != feedId && OfFeed(e.present, e.feedId) && Tracks(entries, feedId, snaps, grace)
    ensures Tracks(After(entries, e, grace), feedId, snaps, grace)
  {
    hide Recent, Missed;
    forall k: EntryKey | k.feedId == feedId
      ensures IsActive(After(entries, e, grace), k) <==> IsActive(entries, k)
      ensures IsActive(entries, k) ==> After(entries, e, grace)[k] == entries[k]
    {
    }
  }

  /** The union of the last `grace` accepted snapshots. */
  ghost function Window(snaps: seq<set<EntryKey>>, grace: nat): iset<EntryKey> {
    iset k | Recent(snaps, k, grace)
  }

  /**
   A sliding window: after any history of snapshots of any feeds, failures, unmodified results and prunes,
   a feed's active entries are exactly the union of its last `grace` accepted snapshots.
   */
  lemma GraceWindow(events: seq<FeedEvent>, feedId: int, grace: nat)
    requires grace >= 1 && forall e :: e in events ==> ValidEvent(e)
    ensures forall k: EntryKey :: k in ActiveOf(Replay(events, grace), feedId) <==>
            k in Window(Snapshots(events, feedId), grace)
  {
    hide Recent, Missed, Replay;
    ReplayTracks(events, feedId, grace);
    forall k | Recent(Snapshots(events, feedId), k, grace)
      ensures k.feedId == feedId
    {
      SnapshotsOfFeed(events, feedId, k, grace);
    }
  }

  lemma {:induction false} SnapshotsOwn(events: seq<FeedEvent>, feedId: int, i: nat)
    requires (forall e :: e in events ==> ValidEvent(e)) && i < |Snapshots(events, feedId)|
    ensures OfFeed(Snapshots(events, feedId)[i], feedId)
  {
    var earlier, last := events[..|events| - 1], events[|events| - 1];
    assert ValidEvent(last);
    if i < |Snapshots(earlier, feedId)| { SnapshotsOwn(earlier, feedId, i); }
  }

  lemma SnapshotsOfFeed(events: seq<FeedEvent>, feedId: int, k: EntryKey, grace: nat)
    requires (forall e :: e in events ==> ValidEvent(e)) && Recent(Snapshots(events, feedId), k, grace)
    ensures k.feedId == feedId
  {
    var snaps := Snapshots(events, feedId);
    var i :| 0 <= i < |snaps| && i >= |snaps| - grace && k in snaps[i];
    SnapshotsOwn(events, feedId, i);
  }
}
