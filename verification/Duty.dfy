/**
 What internal/notify/manager.go owes its operator: a failure that lasts is announced, and so is its end. The laws of
 Notify say which notices may not go out; these say which must.
 */
module Duty {
  import opened Prefixes
  import opened Notify

  /** The manager accepts a threshold from 1 to 100 and a positive cooldown. */
  predicate ValidPolicy(policy: Policy) { 1 <= policy.threshold <= 100 && policy.cooldown > 0 }

  /** Some result of the present streak was handled at time `t`. */
  predicate HandledAt(log: seq<Handled>, failure: string, feed: string, t: int) {
    log != [] &&
    var last, earlier := log[|log| - 1], log[..|log| - 1];
    if last.result.outcome == Other then HandledAt(earlier, failure, feed, t)
    else
      IsFailure(last.result) && last.result.failure == failure && FailedFeed(last.result) == feed &&
      (last.weather.now == t || HandledAt(earlier, failure, feed, t))
  }

  function Capped(n: nat): nat { if n < 100 then n else 100 }

  /** The record counts the present streak, and what it says of notices and attempts happened in that streak. */
  ghost predicate Exact(stored: Option<FailureRecord>, log: seq<Handled>) {
    (forall f, feed :: Streak(log, f, feed) > 0 ==>
       stored.Some? && stored.value.failure == f && stored.value.feed == feed && !stored.value.recoveryPending) &&
    (stored.Some? ==>
       var s := stored.value;
       s.consecutive == Capped(Streak(log, s.failure, s.feed)) &&
       (s.notified ==> !s.recoveryPending && Announced(log, s.failure, s.feed)) &&
       (s.consecutive == 0 && !s.recoveryPending ==> s.lastAttempt == None) &&
       (s.lastAttempt.Some? && !s.recoveryPending ==> HandledAt(log, s.failure, s.feed, s.lastAttempt.value)))
  }

  lemma FailureExact(policy: Policy, stored: Option<FailureRecord>, log: seq<Handled>, result: SyncResult,
                     weather: Weather)
    requires Exact(stored, log) && IsFailure(result) && weather.load && weather.save
    ensures Exact(AfterFailure(policy, stored, result, weather),
              log + [Handled(result, weather, Alarm(policy, stored, result, weather))])
  {
    hide FailedFeedIn, WithinCooldown, Rank;
    var h := Handled(result, weather, Alarm(policy, stored, result, weather));
    var longer := log + [h];
    assert longer[..|longer| - 1] == log && longer[|longer| - 1] == h;
    var f, feed := result.failure, FailedFeed(result);
    assert Streak(longer, f, feed) == 1 + Streak(log, f, feed);
    assert Raised(stored, result).consecutive == Capped(Streak(longer, f, feed));
  }

  lemma SuccessExact(policy: Policy, stored: Option<FailureRecord>, log: seq<Handled>, result: SyncResult,
                     weather: Weather)
    requires Exact(stored, log) && result.outcome == Success && weather.load && weather.save
    ensures Exact(AfterSuccess(policy, stored, weather),
              log + [Handled(result, weather, AllClear(policy, stored, weather))])
  {
    hide FailedFeedIn, WithinCooldown, Rank, HandledAt, Announced;
    var h := Handled(result, weather, AllClear(policy, stored, weather));
    var longer := log + [h];
    assert longer[..|longer| - 1] == log && longer[|longer| - 1] == h;
    assert forall f, feed :: Streak(longer, f, feed) == 0;
    if stored.Some? { assert stored.value.recoveryPending ==> stored.value.consecutive == 0; }
  }

  lemma OtherExact(stored: Option<FailureRecord>, log: seq<Handled>, result: SyncResult, weather: Weather)
    requires Exact(stored, log) && result.outcome == Other
    ensures Exact(stored, log + [Handled(result, weather, None)])
  {
    hide FailedFeedIn;
    var longer := log + [Handled(result, weather, None)];
    assert longer[..|longer| - 1] == log;
    assert forall f, feed :: Streak(longer, f, feed) == Streak(log, f, feed);
  }

  /** As long as the record is read and written, it is exact after every history. */
  lemma {:induction false} ReplayExact(policy: Policy, inputs: seq<(SyncResult, Weather)>)
    requires forall x :: x in inputs ==> x.1.load && x.1.save
    ensures Exact(Replay(policy, inputs).0, Replay(policy, inputs).1)
  {
    hide AfterFailure, AfterSuccess, Alarm, AllClear, Exact;
    if inputs == [] {
      NothingExact();
    } else {
      var earlier := inputs[..|inputs| - 1];
      var (result, weather) := inputs[|inputs| - 1];
      assert inputs[|inputs| - 1] in inputs;
      ReplayExact(policy, earlier);
      var (stored, log) := Replay(policy, earlier);
      if IsFailure(result) {
        FailureExact(policy, stored, log, result, weather);
      } else if result.outcome == Success {
        SuccessExact(policy, stored, log, result, weather);
      } else {
        OtherExact(stored, log, result, weather);
      }
    }
  }

  lemma NothingExact()
    ensures Exact(None, [])
  {
  }

  /** While the record is read and written, it counts the present streak, up to 100. */
  lemma CountIsStreak(policy: Policy, inputs: seq<(SyncResult, Weather)>, failure: string, feed: string)
    requires forall x :: x in inputs ==> x.1.load && x.1.save
    ensures var (stored, log) := Replay(policy, inputs);
            Streak(log, failure, feed) > 0 ==>
              stored.Some? && stored.value.failure == failure && stored.value.feed == feed &&
              stored.value.consecutive == if Streak(log, failure, feed) < 100 then Streak(log, failure, feed) else 100
  {
    ReplayExact(policy, inputs);
  }

  // ----- A lasting failure is announced -----

  lemma AnnouncedHere(policy: Policy, stored: Option<FailureRecord>, log: seq<Handled>, result: SyncResult,
                      weather: Weather)
    requires ValidPolicy(policy) && policy.minimum != Error && Exact(stored, log) && IsFailure(result)
    requires weather.load && weather.save && weather.attemptSave && weather.send
    requires Streak(log, result.failure, FailedFeed(result)) + 1 >= policy.threshold
    requires forall t :: HandledAt(log, result.failure, FailedFeed(result), t) ==> weather.now >= t + policy.cooldown
    ensures Announced(log + [Handled(result, weather, Alarm(policy, stored, result, weather))],
              result.failure, FailedFeed(result))
  {
    hide FailedFeedIn, Exact, HandledAt, Announced, Streak, Raised;
    RaisedExact(stored, log, result);
    RaisedTraces(stored, log, result);
    AnnouncedGrows(log, Handled(result, weather, Alarm(policy, stored, result, weather)));
  }

  /** What the raised record says of notices and attempts happened in the streak it continues. */
  lemma RaisedTraces(stored: Option<FailureRecord>, log: seq<Handled>, result: SyncResult)
    requires Exact(stored, log)
    ensures Raised(stored, result).notified ==> Announced(log, result.failure, FailedFeed(result))
    ensures Raised(stored, result).lastAttempt.Some? ==>
            HandledAt(log, result.failure, FailedFeed(result), Raised(stored, result).lastAttempt.value)
  {
    hide FailedFeedIn, Announced, HandledAt, Streak;
  }

  lemma AnnouncedGrows(log: seq<Handled>, h: Handled)
    requires IsFailure(h.result)
    ensures IsAlarm(h) || Announced(log, h.result.failure, FailedFeed(h.result)) ==>
            Announced(log + [h], h.result.failure, FailedFeed(h.result))
  {
    hide FailedFeedIn;
    var longer := log + [h];
    assert longer[..|longer| - 1] == log && longer[|longer| - 1] == h;
  }

  /**
   If the last threshold results, leaving out those that are neither success nor failure, failed one way, the record
   was read and written each time, and at the last of them the notice can be sent and the cooldown is over, then the
   streak has been announced, now or before.
   */
  lemma LastingFailureAnnounced(policy: Policy, inputs: seq<(SyncResult, Weather)>, result: SyncResult,
                                weather: Weather)
    requires ValidPolicy(policy) && policy.minimum != Error && (result.outcome == Failed || result.outcome == Degraded)
    requires (forall x :: x in inputs ==> x.1.load && x.1.save) && weather.load && weather.save
    requires weather.attemptSave && weather.send
    requires forall t :: HandledAt(Replay(policy, inputs).1, result.failure, FailedFeed(result), t) ==>
             weather.now >= t + policy.cooldown
    requires Streak(Replay(policy, inputs + [(result, weather)]).1, result.failure, FailedFeed(result)) >=
             policy.threshold
    ensures Announced(Replay(policy, inputs + [(result, weather)]).1, result.failure, FailedFeed(result))
  {
    hide AfterFailure, AfterSuccess, Alarm, AllClear, Exact, FailedFeedIn, HandledAt, Announced;
    ReplayExact(policy, inputs);
    ReplayNext(policy, inputs, result, weather);
    var (stored, log) := Replay(policy, inputs);
    var longer := log + [Handled(result, weather, Alarm(policy, stored, result, weather))];
    assert longer[..|longer| - 1] == log;
    AnnouncedHere(policy, stored, log, result, weather);
  }

  // ----- When nothing goes wrong -----

  predicate Smooth(w: Weather) { w.load && w.save && w.attemptSave && w.send && w.finalSave }

  /** Everything is read, written and sent. */
  ghost predicate AllSmooth(inputs: seq<(SyncResult, Weather)>) { forall x :: x in inputs ==> Smooth(x.1) }

  /** A record that never missed anything: announced exactly from the threshold on, and nothing left owing. */
  ghost predicate Prompt(policy: Policy, stored: Option<FailureRecord>, log: seq<Handled>) {
    Exact(stored, log) &&
    (stored.Some? && !stored.value.recoveryPending ==>
       (stored.value.notified <==> Streak(log, stored.value.failure, stored.value.feed) >= policy.threshold) &&
       (!stored.value.notified ==> stored.value.lastAttempt == None)) &&
    (stored.Some? && policy.minimum == Info ==> !stored.value.recoveryPending)
  }

  lemma FailurePrompt(policy: Policy, stored: Option<FailureRecord>, log: seq<Handled>, result: SyncResult,
                      weather: Weather)
    requires ValidPolicy(policy) && policy.minimum != Error && Prompt(policy, stored, log)
    requires IsFailure(result) && Smooth(weather)
    ensures var longer := log + [Handled(result, weather, Alarm(policy, stored, result, weather))];
            Prompt(policy, AfterFailure(policy, stored, result, weather), longer) &&
            Alarm(policy, stored, result, weather) ==
              if Streak(longer, result.failure, FailedFeed(result)) == policy.threshold
              then Some(FailureNotice(result.failure, FailedFeed(result), policy.threshold)) else None
  {
    hide FailedFeedIn, Exact, Announced, HandledAt;
    var longer := log + [Handled(result, weather, Alarm(policy, stored, result, weather))];
    assert longer[..|longer| - 1] == log;
    var f, feed := result.failure, FailedFeed(result);
    FailureExact(policy, stored, log, result, weather);
    RaisedExact(stored, log, result);
    assert Streak(longer, f, feed) == 1 + Streak(log, f, feed);
  }

  lemma RaisedExact(stored: Option<FailureRecord>, log: seq<Handled>, result: SyncResult)
    requires Exact(stored, log)
    ensures Raised(stored, result).consecutive == Capped(1 + Streak(log, result.failure, FailedFeed(result)))
    ensures Raised(stored, result).failure == result.failure && Raised(stored, result).feed == FailedFeed(result)
    ensures Raised(stored, result).notified ==>
            stored.Some? && stored.value.failure == result.failure && stored.value.feed == FailedFeed(result) &&
            stored.value.notified
    ensures Streak(log, result.failure, FailedFeed(result)) > 0 ==>
            stored.Some? && !stored.value.recoveryPending && Raised(stored, result).notified == stored.value.notified &&
            Raised(stored, result).lastAttempt == stored.value.lastAttempt
  {
    hide FailedFeedIn, Announced, HandledAt;
    assert Streak(log, result.failure, FailedFeed(result)) >= 0;
  }

  lemma SuccessPrompt(policy: Policy, stored: Option<FailureRecord>, log: seq<Handled>, result: SyncResult,
                      weather: Weather)
    requires ValidPolicy(policy) && Prompt(policy, stored, log) && result.outcome == Success && Smooth(weather)
    ensures Prompt(policy, AfterSuccess(policy, stored, weather),
              log + [Handled(result, weather, AllClear(policy, stored, weather))])
  {
    hide FailedFeedIn, Announced, HandledAt;
    var longer := log + [Handled(result, weather, AllClear(policy, stored, weather))];
    assert longer[..|longer| - 1] == log;
    SuccessExact(policy, stored, log, result, weather);
    assert forall f, feed :: Streak(longer, f, feed) == 0;
  }

  lemma OtherPrompt(policy: Policy, stored: Option<FailureRecord>, log: seq<Handled>, result: SyncResult,
                    weather: Weather)
    requires Prompt(policy, stored, log) && result.outcome == Other
    ensures Prompt(policy, stored, log + [Handled(result, weather, None)])
  {
    hide Exact, Announced, HandledAt;
    var longer := log + [Handled(result, weather, None)];
    assert longer[..|longer| - 1] == log;
    OtherExact(stored, log, result, weather);
  }

  lemma {:induction false} ReplayPrompt(policy: Policy, inputs: seq<(SyncResult, Weather)>)
    requires ValidPolicy(policy) && policy.minimum != Error && AllSmooth(inputs)
    ensures Prompt(policy, Replay(policy, inputs).0, Replay(policy, inputs).1)
  {
    hide AfterFailure, AfterSuccess, Alarm, AllClear, Prompt, Smooth;
    if inputs == [] {
      NothingPrompt(policy);
    } else {
      var earlier := inputs[..|inputs| - 1];
      var (result, weather) := inputs[|inputs| - 1];
      assert inputs[|inputs| - 1] in inputs;
      ReplayPrompt(policy, earlier);
      var (stored, log) := Replay(policy, earlier);
      if IsFailure(result) {
        FailurePrompt(policy, stored, log, result, weather);
      } else if result.outcome == Success {
        SuccessPrompt(policy, stored, log, result, weather);
      } else {
        OtherPrompt(policy, stored, log, result, weather);
      }
    }
  }

  lemma NothingPrompt(policy: Policy)
    ensures Prompt(policy, None, [])
  {
  }

  lemma {:induction false} LogSoFar(policy: Policy, inputs: seq<(SyncResult, Weather)>, n: nat)
    requires n <= |inputs|
    ensures |Replay(policy, inputs).1| == |inputs| && Replay(policy, inputs[..n]).1 == Replay(policy, inputs).1[..n]
  {
    hide AfterFailure, AfterSuccess, Alarm, AllClear;
    if inputs != [] {
      var earlier := inputs[..|inputs| - 1];
      LogSoFar(policy, earlier, if n < |inputs| then n else 0);
      if n < |inputs| { assert earlier[..n] == inputs[..n]; } else { assert inputs[..n] == inputs; }
    }
  }

  /** When nothing goes wrong, a failure notice goes out exactly when a streak reaches the threshold. */
  lemma AlarmAtThreshold(policy: Policy, inputs: seq<(SyncResult, Weather)>, n: nat)
    requires ValidPolicy(policy) && policy.minimum != Error && AllSmooth(inputs) && n < |inputs|
    ensures var log := Replay(policy, inputs).1;
            |log| == |inputs| &&
            var (result, f, feed) := (inputs[n].0, inputs[n].0.failure, FailedFeed(inputs[n].0));
            (IsAlarm(log[n]) <==>
               (result.outcome == Failed || result.outcome == Degraded) &&
               Streak(log[..n + 1], f, feed) == policy.threshold) &&
            (IsAlarm(log[n]) ==> log[n].delivered == Some(FailureNotice(f, feed, policy.threshold)))
  {
    hide AfterFailure, AfterSuccess, Alarm, Prompt, Smooth, FailedFeedIn, Streak, Replay;
    var (result, weather) := inputs[n];
    assert inputs[n] in inputs;
    var (stored, log) := Replay(policy, inputs[..n]);
    ReplayPrompt(policy, inputs[..n]);
    ReplayAt(policy, inputs, n);
    LogSoFar(policy, inputs, n);
    var all := Replay(policy, inputs).1;
    assert all[..n + 1] == all[..n] + [all[n]];
    if IsFailure(result) {
      FailurePrompt(policy, stored, log, result, weather);
    } else {
      assert result.outcome == Success ==> Delivers(policy, stored, inputs[n]) == AllClear(policy, stored, weather);
    }
  }

  // ----- The end of a failure is announced -----

  /** After an announced failure whose notices were recorded, a success that can send delivers its recovery. */
  lemma RecoveryFollows(policy: Policy, inputs: seq<(SyncResult, Weather)>, failure: string, feed: string,
                        result: SyncResult, weather: Weather)
    requires policy.recovery && policy.minimum == Info && result.outcome == Success
    requires AllSaved(Replay(policy, inputs).1) && Announced(Replay(policy, inputs).1, failure, feed)
    requires weather.load && weather.save && weather.attemptSave && weather.send
    ensures Replay(policy, inputs + [(result, weather)]).1 ==
            Replay(policy, inputs).1 + [Handled(result, weather, Some(RecoveryNotice(failure, feed)))]
  {
    hide AllSaved, Announced, Replay, AlarmsEarned, RecoveriesApart, AnnouncedOnce;
    ReplayFaithful(policy, inputs);
    ReplayNext(policy, inputs, result, weather);
    assert IsMarked(Replay(policy, inputs).0, failure, feed);
  }

  /** When nothing goes wrong, a success delivers a recovery exactly when the streak it ends reached the threshold. */
  lemma RecoveryAtSuccess(policy: Policy, inputs: seq<(SyncResult, Weather)>, n: nat)
    requires ValidPolicy(policy) && policy.recovery && policy.minimum == Info && AllSmooth(inputs)
    requires n < |inputs| && inputs[n].0.outcome == Success
    ensures var log := Replay(policy, inputs).1;
            |log| == |inputs| &&
            (IsRecovery(log[n]) <==> exists f, feed :: Streak(log[..n], f, feed) >= policy.threshold) &&
            forall f, feed :: Streak(log[..n], f, feed) >= policy.threshold ==>
              log[n].delivered == Some(RecoveryNotice(f, feed))
  {
    hide AfterFailure, AfterSuccess, Alarm, Smooth, FailedFeedIn, Streak, Replay, Announced, HandledAt;
    assert inputs[n] in inputs && Smooth(inputs[n].1);
    var (stored, log) := Replay(policy, inputs[..n]);
    ReplayPrompt(policy, inputs[..n]);
    ReplayAt(policy, inputs, n);
    LogSoFar(policy, inputs, n);
    SmoothSuccess(policy, stored, log, inputs[n].0, inputs[n].1);
  }

  lemma SmoothSuccess(policy: Policy, stored: Option<FailureRecord>, log: seq<Handled>, result: SyncResult,
                      weather: Weather)
    requires ValidPolicy(policy) && policy.recovery && policy.minimum == Info
    requires Prompt(policy, stored, log) && Smooth(weather)
    ensures AllClear(policy, stored, weather).Some? ==>
              stored.Some? && Streak(log, stored.value.failure, stored.value.feed) >= policy.threshold
    ensures forall f, feed :: Streak(log, f, feed) >= policy.threshold ==>
            AllClear(policy, stored, weather) == Some(RecoveryNotice(f, feed))
    ensures AllClear(policy, stored, weather).Some? ==> AllClear(policy, stored, weather).value.RecoveryNotice?
  {
    hide Streak, Announced, HandledAt;
  }

  // ----- What the severity mutes -----

  /** With the highest minimum nothing is ever sent, and above the lowest no recovery is. */
  lemma MutedBySeverity(policy: Policy, inputs: seq<(SyncResult, Weather)>, n: nat)
    requires n < |inputs|
    ensures var log := Replay(policy, inputs).1;
            |log| == |inputs| && (policy.minimum == Error ==> log[n].delivered == None) &&
            (policy.minimum != Info ==> !IsRecovery(log[n]))
  {
    hide Replay, WithinCooldown, FailedFeedIn;
    ReplayAt(policy, inputs, n);
  }

  // ----- Which feed is named -----

  predicate FailedFor(x: FeedResult, failure: string) {
    x.failure == failure && (x.outcome == Failed || x.outcome == Degraded)
  }

  /** The feed named is the first that failed for the run's own reason; without one, none is named. */
  lemma {:induction false} FirstFailedFeed(feeds: seq<FeedResult>, failure: string)
    ensures (exists i :: 0 <= i < |feeds| && FailedFor(feeds[i], failure) &&
               (forall j :: 0 <= j < i ==> !FailedFor(feeds[j], failure)) &&
               FailedFeedIn(feeds, failure) == feeds[i].name) ||
            ((forall j :: 0 <= j < |feeds| ==> !FailedFor(feeds[j], failure)) && FailedFeedIn(feeds, failure) == "")
  {
    if feeds != [] {
      FirstFailedFeed(feeds[1..], failure);
    }
  }
}
