/**
 internal/notify/manager.go: the repeated-failure record and the notices it leads to. The record
 is persistent, so what is proved here holds across restarts.
 */
module Notify {
  import opened Prefixes

  datatype Outcome = Success | Degraded | Failed | Other

  datatype FeedResult = FeedResult(name: string, outcome: Outcome, failure: string)

  datatype SyncResult = SyncResult(outcome: Outcome, failure: string, feeds: seq<FeedResult>)

  datatype Notice = FailureNotice(failure: string, feed: string, count: nat) | RecoveryNotice(failure: string,
      feed: string)

  datatype Severity = Info | Warning | Error

  datatype Policy = Policy(threshold: nat, cooldown: int, recovery: bool, minimum: Severity)

  /** The persistent record. */
  datatype FailureRecord = FailureRecord(
    failure: string, feed: string, consecutive: nat, notified: bool, recoveryPending: bool, lastAttempt: Option<int>)

  const BLANK := FailureRecord("", "", 0, false, false, None)

  /** What the world does while one result is handled: the load, the saves and the transport may fail. */
  datatype Weather = Weather(load: bool, save: bool, attemptSave: bool, send: bool, finalSave: bool, now: int)

  /** One handled result and the notice it delivered, if any. */
  datatype Handled = Handled(result: SyncResult, weather: Weather, delivered: Option<Notice>)

  function Rank(s: Severity): nat { match s case Info => 1 case Warning => 2 case Error => 3 }

  predicate IsFailure(result: SyncResult) { result.outcome == Failed || result.outcome == Degraded }

  /** The first feed that failed for the run's own reason. */
  function FailedFeedIn(feeds: seq<FeedResult>, failure: string): string {
    if feeds == [] then ""
    else if (feeds[0].outcome == Failed || feeds[0].outcome == Degraded) &&
        feeds[0].failure == failure then feeds[0].name
    else FailedFeedIn(feeds[1..], failure)
  }

  function FailedFeed(result: SyncResult): string { FailedFeedIn(result.feeds, result.failure) }

  predicate WithinCooldown(policy: Policy, last: Option<int>, now: int) {
    last.Some? && (now < last.value || now - last.value < policy.cooldown)
  }

  // ----- What histories are judged by -----

  /** How many of the last results, leaving out those that are neither success nor failure, failed this way. */
  function Streak(log: seq<Handled>, failure: string, feed: string): nat {
    if log == [] then 0
    else
      var last, earlier := log[|log| - 1].result, log[..|log| - 1];
      if last.outcome == Other then Streak(earlier, failure, feed)
      else if IsFailure(last) && last.failure == failure &&
          FailedFeed(last) == feed then 1 + Streak(earlier, failure, feed)
      else 0
  }

  /** The last notice delivered was a failure notice. */
  predicate Owes(log: seq<Handled>) {
    if log == [] then false
    else match log[|log| - 1].delivered
      case Some(FailureNotice(_, _, _)) => true
      case Some(RecoveryNotice(_, _)) => false
      case None => Owes(log[..|log| - 1])
  }

  predicate IsRecovery(h: Handled) { h.delivered.Some? && h.delivered.value.RecoveryNotice? }

  predicate IsAlarm(h: Handled) { h.delivered.Some? && h.delivered.value.FailureNotice? }

  /** The record was read and first written without error while handling `h`. */
  predicate Kept(h: Handled) { h.weather.load && h.weather.save }

  /** A delivered recovery was also recorded as delivered. */
  predicate Closed(h: Handled) { IsRecovery(h) ==> h.weather.finalSave }

  ghost predicate AllKept(log: seq<Handled>) { forall h :: h in log ==> Kept(h) }

  ghost predicate AllClosed(log: seq<Handled>) { forall h :: h in log ==> Closed(h) }

  /** A failure notice is sent only after threshold failures in a row of one category and feed. */
  ghost predicate AlarmsEarned(policy: Policy, log: seq<Handled>) {
    forall i :: 0 <= i < |log| && IsAlarm(log[i]) && AllKept(log[..i + 1]) ==>
      var n := log[i].delivered.value;
      Streak(log[..i + 1], n.failure, n.feed) >= policy.threshold
  }

  /** Between two delivered recovery notices there is a delivered failure notice. */
  ghost predicate RecoveriesApart(log: seq<Handled>) {
    forall i, j :: 0 <= i < j < |log| && IsRecovery(log[i]) && IsRecovery(log[j]) && AllClosed(log[..j]) ==>
      exists k :: i < k < j && IsAlarm(log[k])
  }

  /** The present streak of failures of this category and feed has been announced. */
  predicate Announced(log: seq<Handled>, failure: string, feed: string) {
    log != [] &&
    var last, earlier := log[|log| - 1], log[..|log| - 1];
    if last.result.outcome == Other then Announced(earlier, failure, feed)
    else
      IsFailure(last.result) && last.result.failure == failure && FailedFeed(last.result) == feed &&
      (IsAlarm(last) || Announced(earlier, failure, feed))
  }

  /** The record was kept, and a delivered failure notice was recorded as delivered. */
  predicate Saved(h: Handled) { Kept(h) && (IsAlarm(h) ==> h.weather.finalSave) }

  ghost predicate AllSaved(log: seq<Handled>) { forall h :: h in log ==> Saved(h) }

  /** No streak is announced twice. */
  ghost predicate AnnouncedOnce(log: seq<Handled>) {
    forall i :: 0 <= i < |log| && IsAlarm(log[i]) && AllSaved(log[..i]) ==>
      !Announced(log[..i], log[i].delivered.value.failure, log[i].delivered.value.feed)
  }

  /** The record is of this failure, announced, with no recovery in between. */
  predicate IsMarked(stored: Option<FailureRecord>, failure: string, feed: string) {
    stored.Some? && stored.value.failure == failure && stored.value.feed == feed && stored.value.notified &&
    !stored.value.recoveryPending
  }

  /** Whatever streak has been announced is marked as such. */
  ghost predicate Remembers(stored: Option<FailureRecord>, log: seq<Handled>) {
    forall failure, feed :: Announced(log, failure, feed) ==> IsMarked(stored, failure, feed)
  }

  /** The record agrees with the history. */
  ghost predicate Faithful(policy: Policy, stored: Option<FailureRecord>, log: seq<Handled>) {
    AlarmsEarned(policy, log) && RecoveriesApart(log) && AnnouncedOnce(log) &&
    (AllSaved(log) ==> Remembers(stored, log)) &&
    (stored.Some? && stored.value.recoveryPending ==> stored.value.consecutive == 0) &&
    (AllKept(log) && stored.Some? ==>
        stored.value.consecutive <= Streak(log, stored.value.failure, stored.value.feed)) &&
    (AllClosed(log) && stored.Some? && (stored.value.notified || stored.value.recoveryPending) ==> Owes(log))
  }

  class Manager {
    const policy: Policy
    var stored: Option<FailureRecord>
    ghost var log: seq<Handled>

    ghost predicate Valid()
      reads this
    {
      Faithful(policy, stored, log)
    }

    /** A start, or a restart on what an earlier process left. */
    constructor (policy: Policy, stored: Option<FailureRecord>, ghost log: seq<Handled>)
      requires Faithful(policy, stored, log)
      ensures Valid() && this.policy == policy && this.stored == stored && this.log == log
    {
      this.policy, this.stored, this.log := policy, stored, log;
    }

    /** `attempt`: saves the time of the attempt, sends, and saves `after` once sent. */
    method Attempt(severity: Severity, state: FailureRecord, after: FailureRecord,
                   weather: Weather) returns (sent: bool)
      modifies this`stored
      ensures sent <==> Sends(policy, severity, state, weather)
      ensures stored == AfterAttempt(policy, severity, state, after, weather, old(stored))
      ensures sent <==>
                (policy.minimum == Info || severity == Error || (policy.minimum == Warning && severity == Warning)) &&
                weather.attemptSave && weather.send &&
                (state.lastAttempt.Some? ==>
                   weather.now >= state.lastAttempt.value &&
                   weather.now - state.lastAttempt.value >= policy.cooldown)
      ensures sent && !weather.finalSave ==> stored.Some? && forall t :: t < weather.now + policy.cooldown ==>
              WithinCooldown(policy, stored.value.lastAttempt, t)
    {
      if Rank(severity) < Rank(policy.minimum) || WithinCooldown(policy, state.lastAttempt, weather.now) {
        return false;
      }
      if !weather.attemptSave {
        return false;
      }
      stored := Some(state.(lastAttempt := Some(weather.now)));
      if !weather.send {
        return false;
      }
      if weather.finalSave { stored := Some(after); }
      return true;
    }

    method HandleFailure(result: SyncResult, weather: Weather) returns (delivered: Option<Notice>)
      requires IsFailure(result)
      modifies this`stored
      ensures stored == AfterFailure(policy, old(stored), result, weather)
      ensures delivered == Alarm(policy, old(stored), result, weather)
      ensures delivered.Some? ==>
                stored.Some? && stored.value.consecutive >= policy.threshold &&
                !IsMarked(old(stored), result.failure, FailedFeed(result)) &&
                delivered == Some(FailureNotice(result.failure, FailedFeed(result), stored.value.consecutive)) &&
                (weather.finalSave ==> IsMarked(stored, result.failure, FailedFeed(result)))
      ensures IsMarked(old(stored), result.failure, FailedFeed(result)) ==>
              IsMarked(stored, result.failure, FailedFeed(result))
    {
      if !weather.load {
        return None;
      }
      var state := if stored.Some? then stored.value else BLANK;
      var feed := FailedFeed(result);
      if state.failure != result.failure || state.feed != feed || state.recoveryPending {
        state := BLANK.(failure := result.failure, feed := feed, consecutive := 1);
      } else if state.consecutive < 100 {
        state := state.(consecutive := state.consecutive + 1);
      }
      if !weather.save {
        return None;
      }
      stored := Some(state);
      if state.notified || state.consecutive < policy.threshold {
        return None;
      }
      var sent := Attempt(Warning, state, state.(lastAttempt := Some(weather.now), notified := true), weather);
      return if sent then Some(FailureNotice(result.failure, feed, state.consecutive)) else None;
    }

    method ClearFailure(weather: Weather) returns (delivered: Option<Notice>)
      modifies this`stored
      ensures stored == AfterSuccess(policy, old(stored), weather)
      ensures delivered == AllClear(policy, old(stored), weather)
      ensures old(stored).Some? && Announces(policy, old(stored).value) ==>
                stored.Some? && (Announces(policy, stored.value) || (delivered.Some? && weather.finalSave))
      ensures delivered.Some? ==>
                old(stored).Some? && (old(stored).value.notified || old(stored).value.recoveryPending) &&
                delivered == Some(RecoveryNotice(old(stored).value.failure, old(stored).value.feed)) &&
                (weather.finalSave ==> stored == Some(BLANK))
      ensures weather.load && weather.save && stored.Some? ==> IsIdle(stored.value) || Announces(policy, stored.value)
    {
      if !weather.load || stored == None {
        return None;
      }
      var state := stored.value;
      if state.consecutive == 0 && !state.notified && !state.recoveryPending {
        return None;
      }
      if !policy.recovery || (!state.notified && !state.recoveryPending) {
        if weather.save { stored := Some(BLANK); }
        return None;
      }
      if !state.recoveryPending {
        state := state.(recoveryPending := true, notified := false, consecutive := 0, lastAttempt := None);
        if !weather.save {
          return None;
        }
        stored := Some(state);
      }
      var sent := Attempt(Info, state, BLANK, weather);
      return if sent then Some(RecoveryNotice(state.failure, state.feed)) else None;
    }

    /** Handles one synchronization result; the record stays faithful to the history. */
    method HandleSync(result: SyncResult, weather: Weather) returns (delivered: Option<Notice>)
      requires Valid()
      modifies this
      ensures Valid() && log == old(log) + [Handled(result, weather, delivered)]
      ensures stored == After(policy, old(stored), (result, weather))
      ensures delivered == Delivers(policy, old(stored), (result, weather))
    {
      hide Faithful, AfterFailure, Alarm, AfterSuccess, AllClear;
      ghost var before := stored;
      delivered := None;
      if IsFailure(result) {
        delivered := HandleFailure(result, weather);
        FailureKeepsFaith(policy, before, log, result, weather);
      } else if result.outcome == Success {
        delivered := ClearFailure(weather);
        SuccessKeepsFaith(policy, before, log, result, weather);
      } else {
        OtherKeepsFaith(policy, stored, log, result, weather);
      }
      log := log + [Handled(result, weather, delivered)];
    }
  }

  /** The record a failure leads to, before any notice. */
  function Raised(stored: Option<FailureRecord>, result: SyncResult): FailureRecord {
    var state := if stored.Some? then stored.value else BLANK;
    if state.failure != result.failure || state.feed != FailedFeed(result) || state.recoveryPending
    then BLANK.(failure := result.failure, feed := FailedFeed(result), consecutive := 1)
    else if state.consecutive < 100 then state.(consecutive := state.consecutive + 1) else state
  }

  /** A notice goes out: severe enough, not too soon, noted first, and accepted by the transport. */
  predicate Sends(policy: Policy, severity: Severity, state: FailureRecord, weather: Weather) {
    Rank(severity) >= Rank(policy.minimum) && !WithinCooldown(policy, state.lastAttempt, weather.now) &&
    weather.attemptSave && weather.send
  }

  function AfterAttempt(policy: Policy, severity: Severity, state: FailureRecord, after: FailureRecord,
                        weather: Weather,
                        stored: Option<FailureRecord>): Option<FailureRecord>
  {
    if Rank(severity) < Rank(policy.minimum) || WithinCooldown(policy, state.lastAttempt, weather.now) ||
        !weather.attemptSave then stored
    else if weather.send && weather.finalSave then Some(after)
    else Some(state.(lastAttempt := Some(weather.now)))
  }

  /** The failure has lasted long enough and has not been announced. */
  predicate IsDue(policy: Policy, state: FailureRecord) { !state.notified && state.consecutive >= policy.threshold }

  function AfterFailure(policy: Policy, stored: Option<FailureRecord>, result: SyncResult,
                        weather: Weather): Option<FailureRecord> {
    var state := Raised(stored, result);
    if !weather.load || !weather.save then stored
    else if !IsDue(policy, state) then Some(state)
    else AfterAttempt(policy, Warning, state, state.(lastAttempt := Some(weather.now), notified := true), weather,
        Some(state))
  }

  function Alarm(policy: Policy, stored: Option<FailureRecord>, result: SyncResult, weather: Weather): Option<Notice> {
    var state := Raised(stored, result);
    if weather.load && weather.save && IsDue(policy, state) && Sends(policy, Warning, state, weather)
    then Some(FailureNotice(result.failure, FailedFeed(result), state.consecutive))
    else None
  }

  /** The record while a recovery notice is owed. */
  function Pending(state: FailureRecord): FailureRecord {
    if state.recoveryPending then state
    else state.(recoveryPending := true, notified := false, consecutive := 0, lastAttempt := None)
  }

  predicate IsIdle(state: FailureRecord) { state.consecutive == 0 && !state.notified && !state.recoveryPending }

  /** A recovery is to be announced. */
  predicate Announces(policy: Policy, state: FailureRecord) { policy.recovery &&
                      (state.notified || state.recoveryPending) }

  function AfterSuccess(policy: Policy, stored: Option<FailureRecord>, weather: Weather): Option<FailureRecord> {
    if !weather.load || stored == None || IsIdle(stored.value) then stored
    else if !Announces(policy, stored.value) then (if weather.save then Some(BLANK) else stored)
    else if !stored.value.recoveryPending && !weather.save then stored
    else AfterAttempt(policy, Info, Pending(stored.value), BLANK, weather, Some(Pending(stored.value)))
  }

  function AllClear(policy: Policy, stored: Option<FailureRecord>, weather: Weather): Option<Notice> {
    if weather.load && stored.Some? && Announces(policy, stored.value) &&
        (stored.value.recoveryPending || weather.save) &&
       Sends(policy, Info, Pending(stored.value), weather)
    then Some(RecoveryNotice(stored.value.failure, stored.value.feed))
    else None
  }

  // ----- The record stays faithful -----

  lemma {:induction false} OwesMeans(log: seq<Handled>, i: nat)
    requires Owes(log) && i < |log| && IsRecovery(log[i])
    ensures exists k :: i < k < |log| && IsAlarm(log[k])
  {
    var last := |log| - 1;
    if log[last].delivered == None {
      OwesMeans(log[..last], i);
      var k :| i < k < last && IsAlarm(log[..last][k]);
      assert IsAlarm(log[k]);
    } else {
      assert IsAlarm(log[last]);
    }
  }

  lemma LogGrows(log: seq<Handled>, h: Handled)
    ensures AllKept(log + [h]) <==> AllKept(log) && Kept(h)
    ensures AllClosed(log + [h]) <==> AllClosed(log) && Closed(h)
    ensures (log + [h])[..|log|] == log
  {
    assert forall x :: x in log ==> x in log + [h];
    assert h in log + [h];
  }

  lemma AlarmsGrow(policy: Policy, log: seq<Handled>, h: Handled)
    requires AlarmsEarned(policy, log)
    requires IsAlarm(h) && AllKept(log + [h]) ==>
             Streak(log + [h], h.delivered.value.failure, h.delivered.value.feed) >= policy.threshold
    ensures AlarmsEarned(policy, log + [h])
  {
    hide Streak, AllKept;
    var longer := log + [h];
    assert longer[..|longer|] == longer;
    forall i | 0 <= i < |longer| && IsAlarm(longer[i]) && AllKept(longer[..i + 1])
      ensures var n := longer[i].delivered.value; Streak(longer[..i + 1], n.failure, n.feed) >= policy.threshold
    {
      if i < |log| { assert longer[..i + 1] == log[..i + 1]; }
    }
  }

  lemma RecoveriesGrow(log: seq<Handled>, h: Handled)
    requires RecoveriesApart(log) && (IsRecovery(h) && AllClosed(log) ==> Owes(log))
    ensures RecoveriesApart(log + [h])
  {
    hide AllClosed;
    var longer := log + [h];
    forall i, j | 0 <= i < j < |longer| && IsRecovery(longer[i]) && IsRecovery(longer[j]) && AllClosed(longer[..j])
      ensures exists k :: i < k < j && IsAlarm(longer[k])
    {
      assert longer[..j] == log[..j];
      if j == |log| {
        assert log[..j] == log;
        OwesMeans(log, i);
        var k :| i < k < |log| && IsAlarm(log[k]);
        assert IsAlarm(longer[k]);
      } else {
        var k :| i < k < j && IsAlarm(log[k]);
        assert IsAlarm(longer[k]);
      }
    }
  }

  lemma AnnouncementsGrow(log: seq<Handled>, h: Handled)
    requires AnnouncedOnce(log)
    requires IsAlarm(h) && AllSaved(log) ==> !Announced(log, h.delivered.value.failure, h.delivered.value.feed)
    ensures AnnouncedOnce(log + [h])
  {
    hide Announced, AllSaved;
    var longer := log + [h];
    forall i | 0 <= i < |longer| && IsAlarm(longer[i]) && AllSaved(longer[..i])
      ensures !Announced(longer[..i], longer[i].delivered.value.failure, longer[i].delivered.value.feed)
    {
      assert longer[..i] == log[..i];
      if i == |log| { assert log[..i] == log; }
    }
  }

  lemma SavedGrows(log: seq<Handled>, h: Handled)
    ensures AllSaved(log + [h]) <==> AllSaved(log) && Saved(h)
    ensures (log + [h])[..|log|] == log
  {
    assert forall x :: x in log ==> x in log + [h];
    assert h in log + [h];
  }

  lemma FailureRemembers(policy: Policy, stored: Option<FailureRecord>, log: seq<Handled>, result: SyncResult,
                         weather: Weather)
    requires IsFailure(result) && (AllSaved(log) ==> Remembers(stored, log))
    ensures var h := Handled(result, weather, Alarm(policy, stored, result, weather));
            (IsAlarm(h) && AllSaved(log) ==> !Announced(log, result.failure, FailedFeed(result))) &&
            (AllSaved(log + [h]) ==> Remembers(AfterFailure(policy, stored, result, weather), log + [h]))
  {
    hide AllSaved, FailedFeedIn, WithinCooldown;
    var h := Handled(result, weather, Alarm(policy, stored, result, weather));
    SavedGrows(log, h);
    if AllSaved(log + [h]) {
      forall failure, feed | Announced(log + [h], failure, feed)
        ensures IsMarked(AfterFailure(policy, stored, result, weather), failure, feed)
      {
        assert failure == result.failure && feed == FailedFeed(result);
        assert IsAlarm(h) || Announced(log, failure, feed);
      }
    }
  }

  lemma FailureKeepsFaith(policy: Policy, stored: Option<FailureRecord>, log: seq<Handled>, result: SyncResult,
                          weather: Weather)
    requires Faithful(policy, stored, log) && IsFailure(result)
    ensures Faithful(policy, AfterFailure(policy, stored, result, weather),
            log + [Handled(result, weather, Alarm(policy, stored, result, weather))])
  {
    hide AlarmsEarned, RecoveriesApart, AllKept, AllClosed, AllSaved, AnnouncedOnce, Remembers, Announced, FailedFeedIn,
         WithinCooldown;
    var h := Handled(result, weather, Alarm(policy, stored, result, weather));
    LogGrows(log, h);
    var state := Raised(stored, result);
    assert Streak(log + [h], result.failure, FailedFeed(result)) == 1 + Streak(log, result.failure, FailedFeed(result));
    assert AllKept(log + [h]) ==> state.consecutive <= Streak(log + [h], state.failure, state.feed);
    AlarmsGrow(policy, log, h);
    RecoveriesGrow(log, h);
    FailureRemembers(policy, stored, log, result, weather);
    AnnouncementsGrow(log, h);
  }

  lemma SuccessKeepsFaith(policy: Policy, stored: Option<FailureRecord>, log: seq<Handled>, result: SyncResult,
                          weather: Weather)
    requires Faithful(policy, stored, log) && result.outcome == Success
    ensures Faithful(policy, AfterSuccess(policy, stored, weather),
            log + [Handled(result, weather, AllClear(policy, stored, weather))])
  {
    hide AlarmsEarned, RecoveriesApart, AllKept, AllClosed, AllSaved, AnnouncedOnce, FailedFeedIn, WithinCooldown;
    var h := Handled(result, weather, AllClear(policy, stored, weather));
    LogGrows(log, h);
    AlarmsGrow(policy, log, h);
    RecoveriesGrow(log, h);
    SavedGrows(log, h);
    AnnouncementsGrow(log, h);
  }

  lemma OtherKeepsFaith(policy: Policy, stored: Option<FailureRecord>, log: seq<Handled>, result: SyncResult,
                        weather: Weather)
    requires Faithful(policy, stored, log) && result.outcome == Other
    ensures Faithful(policy, stored, log + [Handled(result, weather, None)])
  {
    hide AlarmsEarned, RecoveriesApart, AllKept, AllClosed, AllSaved, AnnouncedOnce;
    var h := Handled(result, weather, None);
    LogGrows(log, h);
    AlarmsGrow(policy, log, h);
    RecoveriesGrow(log, h);
    SavedGrows(log, h);
    AnnouncementsGrow(log, h);
  }

  // ----- The two promises, and where they end -----

  /** Handling a whole history of results, from nothing stored. */
  function Replay(policy: Policy, inputs: seq<(SyncResult, Weather)>): (Option<FailureRecord>, seq<Handled>) {
    if inputs == [] then (None, [])
    else
      var (stored, log) := Replay(policy, inputs[..|inputs| - 1]);
      var (result, weather) := inputs[|inputs| - 1];
      if IsFailure(result) then (AfterFailure(policy, stored, result, weather),
          log + [Handled(result, weather, Alarm(policy, stored, result, weather))])
      else if result.outcome == Success then (AfterSuccess(policy, stored, weather),
          log + [Handled(result, weather, AllClear(policy, stored, weather))])
      else (stored, log + [Handled(result, weather, None)])
  }

  lemma {:induction false} ReplayFaithful(policy: Policy, inputs: seq<(SyncResult, Weather)>)
    ensures Faithful(policy, Replay(policy, inputs).0, Replay(policy, inputs).1)
  {
    hide Faithful, AfterFailure, AfterSuccess, Alarm, AllClear;
    if inputs == [] {
      EmptyFaithful(policy);
    } else {
      ReplayFaithful(policy, inputs[..|inputs| - 1]);
      var (stored, log) := Replay(policy, inputs[..|inputs| - 1]);
      var (result, weather) := inputs[|inputs| - 1];
      if IsFailure(result) {
        FailureKeepsFaith(policy, stored, log, result, weather);
      } else if result.outcome == Success {
        SuccessKeepsFaith(policy, stored, log, result, weather);
      } else {
        OtherKeepsFaith(policy, stored, log, result, weather);
      }
    }
  }

  lemma EmptyFaithful(policy: Policy)
    ensures Faithful(policy, None, [])
  {
  }

  /**
   Over every history of results and of storage and transport failures: a failure notice goes out only
   after threshold failures in a row with one category and feed, if the record was read and written
   each time; no streak of failures is announced twice, if deliveries were also recorded; and between two
   delivered recoveries a failure was announced, if each delivered recovery was recorded.
   */
  lemma NoticesEarned(policy: Policy, inputs: seq<(SyncResult, Weather)>)
    ensures AlarmsEarned(policy, Replay(policy, inputs).1)
    ensures AnnouncedOnce(Replay(policy, inputs).1)
    ensures RecoveriesApart(Replay(policy, inputs).1)
  {
    hide AlarmsEarned, AnnouncedOnce, RecoveriesApart, Remembers, AllSaved, Replay, AllKept, AllClosed, Streak, Owes;
    ReplayFaithful(policy, inputs);
  }

  // ----- Exactly when two recoveries are apart -----

  function After(policy: Policy, stored: Option<FailureRecord>, x: (SyncResult, Weather)): Option<FailureRecord> {
    if IsFailure(x.0) then AfterFailure(policy, stored, x.0, x.1)
    else if x.0.outcome == Success then AfterSuccess(policy, stored, x.1)
    else stored
  }

  function Delivers(policy: Policy, stored: Option<FailureRecord>, x: (SyncResult, Weather)): Option<Notice> {
    if IsFailure(x.0) then Alarm(policy, stored, x.0, x.1)
    else if x.0.outcome == Success then AllClear(policy, stored, x.1)
    else None
  }

  /** What is stored after the first `n` inputs. */
  function StoredAt(policy: Policy, inputs: seq<(SyncResult, Weather)>, n: nat): Option<FailureRecord>
    requires n <= |inputs|
  {
    Replay(policy, inputs[..n]).0
  }

  lemma {:induction false} ReplayAt(policy: Policy, inputs: seq<(SyncResult, Weather)>, k: nat)
    requires k < |inputs|
    ensures |Replay(policy, inputs).1| == |inputs|
    ensures Replay(policy, inputs).1[k] ==
            Handled(inputs[k].0, inputs[k].1, Delivers(policy, StoredAt(policy, inputs, k), inputs[k]))
  {
    hide AfterFailure, AfterSuccess, Alarm, AllClear;
    var n := |inputs| - 1;
    var earlier := inputs[..n];
    assert inputs[..|inputs|] == inputs;
    if n == 0 {
      assert inputs[..0] == [];
    } else {
      ReplayAt(policy, earlier, if k < n then k else 0);
      if k < n { assert earlier[..k] == inputs[..k]; }
    }
  }

  lemma StoredNext(policy: Policy, inputs: seq<(SyncResult, Weather)>, n: nat)
    requires n < |inputs|
    ensures StoredAt(policy, inputs, n + 1) == After(policy, StoredAt(policy, inputs, n), inputs[n])
  {
    hide AfterFailure, AfterSuccess, Alarm, AllClear;
    assert inputs[..n + 1][..n] == inputs[..n];
  }

  /** The record says that a recovery is owed. */
  predicate Armed(stored: Option<FailureRecord>) {
    stored.Some? && (stored.value.notified || stored.value.recoveryPending)
  }

  predicate Notified(stored: Option<FailureRecord>) { stored.Some? && stored.value.notified }

  predicate Both(stored: Option<FailureRecord>) { Notified(stored) && stored.value.recoveryPending }

  lemma NeverBothStep(policy: Policy, stored: Option<FailureRecord>, x: (SyncResult, Weather))
    requires !Both(stored)
    ensures !Both(After(policy, stored, x))
  {
    hide WithinCooldown, FailedFeedIn;
  }

  /** A failure is never both announced and waiting for its recovery to be delivered. */
  lemma {:induction false} NeverBoth(policy: Policy, inputs: seq<(SyncResult, Weather)>, n: nat)
    requires n <= |inputs|
    ensures !Both(StoredAt(policy, inputs, n))
  {
    hide After, Replay;
    if n == 0 {
      NothingHandled(policy);
      assert inputs[..0] == [];
    } else {
      NeverBoth(policy, inputs, n - 1);
      StoredNext(policy, inputs, n - 1);
      NeverBothStep(policy, StoredAt(policy, inputs, n - 1), inputs[n - 1]);
    }
  }

  /** The notice is a failure notice. */
  predicate Alarms(policy: Policy, stored: Option<FailureRecord>, x: (SyncResult, Weather)) {
    Delivers(policy, stored, x).Some? && Delivers(policy, stored, x).value.FailureNotice?
  }

  predicate Clears(policy: Policy, stored: Option<FailureRecord>, x: (SyncResult, Weather)) {
    Delivers(policy, stored, x).Some? && Delivers(policy, stored, x).value.RecoveryNotice?
  }

  /** Without an alarm nothing becomes announced, and nothing becomes owed. */
  lemma QuietStep(policy: Policy, stored: Option<FailureRecord>, x: (SyncResult, Weather))
    requires !Alarms(policy, stored, x)
    ensures !Notified(stored) ==> !Notified(After(policy, stored, x))
    ensures !Armed(stored) ==> !Armed(After(policy, stored, x))
    ensures !Notified(stored) && IsFailure(x.0) && x.1.load && x.1.save ==> !Armed(After(policy, stored, x))
  {
    hide WithinCooldown, FailedFeedIn;
  }

  /** A recovery is delivered only if owed; then nothing is announced, and nothing owed if that was recorded. */
  lemma ClearStep(policy: Policy, stored: Option<FailureRecord>, x: (SyncResult, Weather))
    requires Clears(policy, stored, x) && !Both(stored)
    ensures Armed(stored) && !Notified(After(policy, stored, x))
    ensures x.1.finalSave ==> !Armed(After(policy, stored, x))
  {
    hide WithinCooldown, FailedFeedIn;
  }

  /** No failure notice from `m` up to `n`. */
  ghost predicate Silent(policy: Policy, inputs: seq<(SyncResult, Weather)>, m: nat, n: nat)
    requires n <= |inputs|
  {
    forall k :: m <= k < n ==> !Alarms(policy, StoredAt(policy, inputs, k), inputs[k])
  }

  lemma {:induction false} StaysQuiet(policy: Policy, inputs: seq<(SyncResult, Weather)>, m: nat, n: nat)
    requires m <= n <= |inputs| && Silent(policy, inputs, m, n)
    ensures !Notified(StoredAt(policy, inputs, m)) ==> !Notified(StoredAt(policy, inputs, n))
    ensures !Armed(StoredAt(policy, inputs, m)) ==> !Armed(StoredAt(policy, inputs, n))
  {
    hide After, Replay, Alarms, Notified, Armed;
    if m < n {
      StaysQuiet(policy, inputs, m, n - 1);
      StoredNext(policy, inputs, n - 1);
      QuietStep(policy, StoredAt(policy, inputs, n - 1), inputs[n - 1]);
    }
  }

  /** A failure kept in the record, and not announced, cancels an owed recovery. */
  lemma FailureCancels(policy: Policy, inputs: seq<(SyncResult, Weather)>, m: nat, k: nat, n: nat)
    requires m <= k < n <= |inputs| && Silent(policy, inputs, m, n) && !Notified(StoredAt(policy, inputs, m))
    requires IsFailure(inputs[k].0) && inputs[k].1.load && inputs[k].1.save
    ensures !Armed(StoredAt(policy, inputs, n))
  {
    hide After, Replay, Alarms, Notified, Armed;
    StaysQuiet(policy, inputs, m, k);
    StoredNext(policy, inputs, k);
    QuietStep(policy, StoredAt(policy, inputs, k), inputs[k]);
    StaysQuiet(policy, inputs, k + 1, n);
  }

  /** Some failure strictly between was kept in the record. */
  ghost predicate KeptFailureBetween(log: seq<Handled>, i: int, j: int)
    requires 0 <= i < j < |log|
  {
    exists k :: i < k < j && IsFailure(log[k].result) && Kept(log[k])
  }

  ghost predicate AlarmBetween(log: seq<Handled>, i: int, j: int)
    requires 0 <= i < j < |log|
  {
    exists k :: i < k < j && IsAlarm(log[k])
  }

  /**
   Over every history of results and of storage and transport failures: between two delivered recovery notices there
   is a delivered failure notice if and only if the first recovery was recorded as delivered, or some failure between
   them was kept in the record.
   */
  lemma RecoveriesApartIff(policy: Policy, inputs: seq<(SyncResult, Weather)>, i: nat, j: nat)
    requires i < j < |inputs| == |Replay(policy, inputs).1|
    requires IsRecovery(Replay(policy, inputs).1[i]) && IsRecovery(Replay(policy, inputs).1[j])
    ensures var log := Replay(policy, inputs).1;
            AlarmBetween(log, i, j) <==> log[i].weather.finalSave || KeptFailureBetween(log, i, j)
  {
    hide Replay, Delivers, After, Both, StoredAt;
    var log := Replay(policy, inputs).1;
    forall k | i <= k <= j
      ensures log[k] == Handled(inputs[k].0, inputs[k].1, Delivers(policy, StoredAt(policy, inputs, k), inputs[k]))
    {
      ReplayAt(policy, inputs, k);
    }
    forall k | i < k < j && IsAlarm(log[k])
      ensures IsFailure(log[k].result) && Kept(log[k])
    {
      AlarmIsKept(policy, StoredAt(policy, inputs, k), inputs[k]);
    }
    if !AlarmBetween(log, i, j) {
      assert Silent(policy, inputs, i + 1, j) by {
        forall k | i + 1 <= k < j
          ensures !Alarms(policy, StoredAt(policy, inputs, k), inputs[k])
        {
          assert !IsAlarm(log[k]);
        }
      }
      NeverBoth(policy, inputs, i);
      NeverBoth(policy, inputs, j);
      StoredNext(policy, inputs, i);
      ClearStep(policy, StoredAt(policy, inputs, i), inputs[i]);
      ClearStep(policy, StoredAt(policy, inputs, j), inputs[j]);
      StaysQuiet(policy, inputs, i + 1, j);
      forall k | i < k < j && IsFailure(log[k].result) && Kept(log[k])
        ensures false
      {
        FailureCancels(policy, inputs, i + 1, k, j);
      }
    }
  }

  lemma AlarmIsKept(policy: Policy, stored: Option<FailureRecord>, x: (SyncResult, Weather))
    requires Alarms(policy, stored, x)
    ensures IsFailure(x.0) && x.1.load && x.1.save
  {
    hide WithinCooldown, FailedFeedIn;
  }

  /** The world answers everything, except that the last save may fail. */
  function Fair(finalSave: bool, now: int): Weather { Weather(true, true, true, true, finalSave, now) }

  /**
   The failing instance of that condition: a failure is announced, its recovery is delivered but not
   recorded, and the next success delivers the recovery again, with no failure notice between the two.
   */
  lemma RecoveryRepeats(policy: Policy, failure: string)
    requires policy.threshold == 1 && policy.recovery && policy.minimum == Info && policy.cooldown >= 0 && failure != ""
    ensures var bad, good := SyncResult(Failed, failure, []), SyncResult(Success, "", []);
            var log := Replay(policy, [(bad, Fair(true, 0)), (good, Fair(false, 0)),
                (good, Fair(true, policy.cooldown))]).1;
            |log| == 3 && IsAlarm(log[0]) && IsRecovery(log[1]) && IsRecovery(log[2]) &&
            !AlarmBetween(log, 1, 2) && !log[1].weather.finalSave && !KeptFailureBetween(log, 1, 2)
  {
    hide Replay, FailedFeedIn;
    var bad, good := SyncResult(Failed, failure, []), SyncResult(Success, "", []);
    var none: seq<(SyncResult, Weather)> := [];
    var one := none + [(bad, Fair(true, 0))];
    var two := one + [(good, Fair(false, 0))];
    NothingHandled(policy);
    ReplayNext(policy, none, bad, Fair(true, 0));
    ReplayNext(policy, one, good, Fair(false, 0));
    ReplayNext(policy, two, good, Fair(true, policy.cooldown));
    assert two + [(good, Fair(true, policy.cooldown))] == [(bad, Fair(true, 0)), (good, Fair(false, 0)),
           (good, Fair(true, policy.cooldown))];
  }

  lemma NothingHandled(policy: Policy)
    ensures Replay(policy, []) == (None, [])
  {
  }

  lemma ReplayNext(policy: Policy, inputs: seq<(SyncResult, Weather)>, result: SyncResult, weather: Weather)
    requires IsFailure(result) || result.outcome == Success
    ensures var (stored, log) := Replay(policy, inputs);
            Replay(policy, inputs + [(result, weather)]) ==
            if IsFailure(result)
            then (AfterFailure(policy, stored, result, weather),
                log + [Handled(result, weather, Alarm(policy, stored, result, weather))])
            else (AfterSuccess(policy, stored, weather),
                log + [Handled(result, weather, AllClear(policy, stored, weather))])
  {
    assert (inputs + [(result, weather)])[..|inputs|] == inputs;
  }
}
