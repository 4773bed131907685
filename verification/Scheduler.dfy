/**
 internal/scheduler/scheduler.go and the backoff of internal/syncer/engine.go: deadlines anchored
 to the first one, bounded retries, and capped exponential delays. Times are whole nanoseconds.
 An endless run is represented by its finite prefixes.
 */
module Scheduling {
  // ----- Backoff -----

  /** `initial * 2^k`. */
  function Doubled(initial: nat, k: nat): nat {
    if k == 0 then initial else 2 * Doubled(initial, k - 1)
  }

  function Min(a: nat, b: nat): nat { if a <= b then a else b }

  function Max(a: int, b: int): int { if a >= b then a else b }

  lemma {:induction false} DoubledGrows(initial: nat, j: nat, k: nat)
    requires j <= k
    ensures Doubled(initial, j) <= Doubled(initial, k)
  {
    if j < k { DoubledGrows(initial, j, k - 1); }
  }

  /** The values the loop variable takes: it starts at `initial`, and below the cap it doubles, but not past the cap. */
  ghost predicate Climbs(initial: nat, longest: nat, values: seq<nat>) {
    values != [] && values[0] == initial &&
    forall i :: 0 <= i < |values| - 1 ==> values[i] < longest && values[i + 1] == Min(2 * values[i], longest)
  }

  /**
   `retryDelay`: min(initial * 2^(n-1), longest) after the n-th failed attempt. `values` are the values of the
   variable, up to the n-th or the first at the cap; none passes the cap, so the doubling cannot overflow.
   */
  method RetryDelay(initial: nat, longest: nat, failedAttempt: int) returns (delay: nat, ghost values: seq<nat>)
    ensures delay == Min(Doubled(initial, if failedAttempt <= 1 then 0 else failedAttempt - 1), longest)
    ensures Climbs(initial, longest, values) && delay == Min(values[|values| - 1], longest)
    ensures |values| == Max(1, failedAttempt) || (|values| < failedAttempt && values[|values| - 1] >= longest)
    ensures initial <= longest ==> forall v :: v in values ==> v <= longest
  {
    delay, values := initial, [initial];
    var attempt := 1;
    while attempt < failedAttempt && delay < longest
      invariant attempt >= 1 && (failedAttempt >= 1 ==> attempt <= failedAttempt) &&
                (failedAttempt < 1 ==> attempt == 1)
      invariant Min(delay, longest) == Min(Doubled(initial, attempt - 1), longest)
      invariant |values| == attempt && values[attempt - 1] == delay && Climbs(initial, longest, values)
      invariant initial <= longest ==> forall v :: v in values ==> v <= longest
    {
      if delay > longest / 2 { delay := longest; } else { delay := delay * 2; }
      values := values + [delay];
      attempt := attempt + 1;
    }
    if attempt < failedAttempt { DoubledGrows(initial, attempt - 1, failedAttempt - 1); }
    if delay > longest { delay := longest; }
  }

  /** The syncer's form counts failures so far and honours a longer delay a server asked for. */
  method SyncerDelay(initial: nat, longest: nat, consecutiveFailures: int, requested: int) returns (delay: nat)
    ensures delay == Max(Min(Doubled(initial, if consecutiveFailures <= 0 then 0 else consecutiveFailures), longest),
            requested)
  {
    delay := initial;
    var attempt := 0;
    while attempt < consecutiveFailures && delay < longest
      invariant attempt >= 0 && (consecutiveFailures >= 0 ==> attempt <= consecutiveFailures) &&
                (consecutiveFailures < 0 ==> attempt == 0)
      invariant Min(delay, longest) == Min(Doubled(initial, attempt), longest)
    {
      if delay > longest / 2 { delay := longest; } else { delay := delay * 2; }
      attempt := attempt + 1;
    }
    if attempt < consecutiveFailures { DoubledGrows(initial, attempt, consecutiveFailures); }
    if delay > longest { delay := longest; }
    if requested > delay { delay := requested; }
  }

  /** With no server request, the syncer after k failures waits as the scheduler after attempt k + 1. */
  method BackoffsAgree(initial: nat, longest: nat, k: nat) returns (syncer: nat, scheduler: nat)
    ensures syncer == scheduler == Min(Doubled(initial, k), longest)
  {
    ghost var values;
    syncer := SyncerDelay(initial, longest, k, 0);
    scheduler, values := RetryDelay(initial, longest, k + 1);
  }

  // ----- Deadlines -----

  /** The k-th deadline of the schedule. */
  function Tick(first: int, interval: int, k: nat): int {
    if k == 0 then first else Tick(first, interval, k - 1) + interval
  }

  lemma {:induction false} TickIsLinear(first: int, interval: int, k: nat)
    ensures Tick(first, interval, k) == first + k * interval
  {
    if k != 0 {
      TickIsLinear(first, interval, k - 1);
      assert k * interval == (k - 1) * interval + interval;
    }
  }

  lemma {:induction false} TickGrows(first: int, interval: int, j: nat, k: nat)
    requires interval > 0 && j < k
    ensures Tick(first, interval, j) < Tick(first, interval, k)
  {
    if j < k - 1 { TickGrows(first, interval, j, k - 1); }
  }

  /** The least tick after both the last deadline and the present. */
  ghost predicate IsNextTick(first: int, interval: int, last: int, now: int, next: int) {
    next > last && next > now && (exists k: nat :: next == Tick(first, interval, k)) &&
    forall k: nat :: Tick(first, interval, k) > last && Tick(first, interval, k) > now ==>
        next <= Tick(first, interval, k)
  }

  method NextDeadline(ghost first: int, ghost k: nat, last: int, now: int, interval: int) returns (next: int,
                      ghost j: nat)
    requires interval > 0 && last == Tick(first, interval, k)
    ensures IsNextTick(first, interval, last, now, next) && next == Tick(first, interval, j) && j > k
  {
    next, j := last + interval, k + 1;
    while next <= now
      invariant j > k && next == Tick(first, interval, j)
      invariant j > k + 1 ==> Tick(first, interval, j - 1) <= now
      decreases now - next
    {
      next, j := next + interval, j + 1;
    }
    TickGrows(first, interval, k, j);
    forall i: nat | Tick(first, interval, i) > last && Tick(first, interval, i) > now
      ensures next <= Tick(first, interval, i)
    {
      if i < j - 1 { TickGrows(first, interval, i, j - 1); }
      if i > j { TickGrows(first, interval, j, i); }
      assert i == j - 1 ==> Tick(first, interval, i) <= Max(last, now);
    }
  }

  // ----- One cycle of attempts -----

  datatype JobOutcome = Success | Degraded | Failed | Cancelled

  /** What the world does to one attempt: the job's result, a cancelled context, and whether the wait after it ends. */
  datatype Attempt = Attempt(valid: bool, outcome: JobOutcome, retryable: bool, stopped: bool, waits: bool)

  datatype Event = Retrying(attempt: nat) | Recovered(attempt: nat)

  /** The cycle goes on after this attempt. */
  predicate Continues(a: Attempt) {
    a.valid && !a.stopped && (a.outcome == Failed || a.outcome == Degraded) && a.retryable && a.waits
  }

  predicate Succeeds(a: Attempt) { a.valid && !a.stopped && a.outcome == Success }

  /** The attempt failed and is to be retried, whether or not the wait completes. */
  predicate Retries(a: Attempt) {
    a.valid && !a.stopped && (a.outcome == Failed || a.outcome == Degraded) && a.retryable
  }

  /**
   The cycle runs exactly this many attempts: all but the last go on, and the last is the last
   allowed or does not.
   */
  predicate Ends(script: seq<Attempt>, runs: nat) {
    1 <= runs <= |script| && (forall i :: 0 <= i < runs - 1 ==> Continues(script[i])) &&
    (runs < |script| ==> !Continues(script[runs - 1]))
  }

  /** One retry notice per wait, for the attempt that follows it. */
  function RetryEvents(n: nat): (r: seq<Event>)
    ensures |r| == n && forall i :: 0 <= i < n ==> r[i] == Retrying(i + 2)
  {
    if n == 0 then [] else RetryEvents(n - 1) + [Retrying(n + 1)]
  }

  /** The first n backoffs. */
  function Backoffs(policy: Policy, n: nat): (r: seq<nat>)
    ensures |r| == n && forall i :: 0 <= i < n ==> r[i] == Min(Doubled(policy.initial, i), policy.longest)
  {
    if n == 0 then [] else Backoffs(policy, n - 1) + [Min(Doubled(policy.initial, n - 1), policy.longest)]
  }

  datatype Policy = Policy(maxAttempts: nat, initial: nat, longest: nat)

  /**
   Runs at most maxAttempts attempts; every one but the last was a failure worth retrying, and the wait after the
   n-th is the n-th backoff. Recovery is announced exactly when a success follows a failure.
   */
  method ExecuteCycle(policy: Policy, script: seq<Attempt>) returns (ok: bool, runs: nat, events: seq<Event>,
                      delays: seq<nat>)
    requires policy.maxAttempts >= 1 && |script| == policy.maxAttempts
    ensures Ends(script, runs) && (ok <==> script[runs - 1].valid)
    ensures delays == Backoffs(policy, if runs < policy.maxAttempts &&
            Retries(script[runs - 1]) then runs else runs - 1)
    ensures events == RetryEvents(|delays|) + if runs > 1 && Succeeds(script[runs - 1]) then [Recovered(runs)] else []
    ensures forall i :: 0 <= i < runs - 1 ==>
              script[i].valid && !script[i].stopped && (script[i].outcome == Failed || script[i].outcome == Degraded) &&
              script[i].retryable && script[i].waits
    ensures var last := script[runs - 1];
            runs < policy.maxAttempts ==>
              !last.valid || last.stopped || last.outcome == Success || last.outcome == Cancelled || !last.retryable ||
              !last.waits
    ensures Recovered(runs) in events <==>
              runs > 1 && script[runs - 1].valid && !script[runs - 1].stopped && script[runs - 1].outcome == Success
  {
    hide Doubled, Min;
    var hadFailure := false;
    events, delays := [], [];
    for attempt := 1 to policy.maxAttempts + 1
      invariant hadFailure == (attempt > 1)
      invariant forall i :: 0 <= i < attempt - 1 ==> Continues(script[i])
      invariant delays == Backoffs(policy, attempt - 1) && events == RetryEvents(attempt - 1)
      invariant attempt <= policy.maxAttempts
    {
      var a := script[attempt - 1];
      if !a.valid {
        return false, attempt, events, delays;
      }
      if a.stopped || a.outcome == Cancelled {
        return true, attempt, events, delays;
      }
      if a.outcome == Success {
        if hadFailure { events := events + [Recovered(attempt)]; }
        return true, attempt, events, delays;
      }
      if !a.retryable || attempt == policy.maxAttempts {
        return true, attempt, events, delays;
      }
      hadFailure := true;
      events := events + [Retrying(attempt + 1)];
      ghost var values;
      var delay;
      delay, values := RetryDelay(policy.initial, policy.longest, attempt);
      delays := delays + [delay];
      if !a.waits {
        return true, attempt, events, delays;
      }
    }
    assert false;
  }

  /** A cycle, of which a run needs only how many attempts it took and whether it ended well. */
  method RunCycle(policy: Policy, script: seq<Attempt>) returns (ok: bool, runs: nat)
    requires policy.maxAttempts >= 1 && |script| == policy.maxAttempts
    ensures Ends(script, runs) && (ok <==> script[runs - 1].valid)
  {
    var events, delays;
    ok, runs, events, delays := ExecuteCycle(policy, script);
  }

  // ----- A run -----

  /**
   One turn of the endless loop: the clock when the cycle before it ended, whether the wait
   completes, and the cycle.
   */
  datatype Turn = Turn(now: int, waits: bool, script: seq<Attempt>)

  /** The cycle that follows a deadline, and whether its wait completes. */
  function TurnAt(first: Turn, turns: seq<Turn>, i: nat): Turn
    requires i <= |turns|
  {
    if i == 0 then first else turns[i - 1]
  }

  /** The cycle ends with a valid result. */
  predicate EndsWell(script: seq<Attempt>, runs: nat) { 1 <= runs <= |script| && script[runs - 1].valid }

  /** Each deadline is the next tick after the one before it and after the clock at that time. */
  ghost predicate OnTicks(interval: int, deadlines: seq<int>, turns: seq<Turn>) {
    1 <= |deadlines| <= |turns| + 1 &&
    forall i :: 0 <= i < |deadlines| - 1 ==>
        IsNextTick(deadlines[0], interval, deadlines[i], turns[i].now, deadlines[i + 1])
  }

  /** One cycle for each of the first deadlines, whose waits completed; all but the last ended well. */
  ghost predicate Cycled(first: Turn, turns: seq<Turn>, cycles: seq<nat>) {
    |cycles| <= |turns| + 1 &&
    (forall i :: 0 <= i < |cycles| ==>
        TurnAt(first, turns, i).waits && Ends(TurnAt(first, turns, i).script, cycles[i])) &&
    forall i :: 0 <= i < |cycles| - 1 ==> EndsWell(TurnAt(first, turns, i).script, cycles[i])
  }

  /** The last cycle, if there was one, ended well. */
  ghost predicate LastWell(first: Turn, turns: seq<Turn>, cycles: seq<nat>)
    requires |cycles| <= |turns| + 1
  {
    cycles == [] || EndsWell(TurnAt(first, turns, |cycles| - 1).script, cycles[|cycles| - 1])
  }

  lemma TicksGrow(interval: int, deadlines: seq<int>, turns: seq<Turn>, next: int)
    requires OnTicks(interval, deadlines, turns) && |deadlines| <= |turns|
    requires IsNextTick(deadlines[0], interval, deadlines[|deadlines| - 1], turns[|deadlines| - 1].now, next)
    ensures OnTicks(interval, deadlines + [next], turns)
  {
    hide IsNextTick;
    var more := deadlines + [next];
    forall i | 0 <= i < |more| - 1
      ensures IsNextTick(more[0], interval, more[i], turns[i].now, more[i + 1])
    {
      assert i < |deadlines| - 1 ==> more[i + 1] == deadlines[i + 1];
    }
  }

  lemma CyclesGrow(first: Turn, turns: seq<Turn>, cycles: seq<nat>, runs: nat)
    requires Cycled(first, turns, cycles) && |cycles| <= |turns| && LastWell(first, turns, cycles)
    requires TurnAt(first, turns, |cycles|).waits && Ends(TurnAt(first, turns, |cycles|).script, runs)
    ensures Cycled(first, turns, cycles + [runs])
    ensures LastWell(first, turns, cycles + [runs]) <==> TurnAt(first, turns, |cycles|).script[runs - 1].valid
  {
    hide Ends;
    EndsHas(TurnAt(first, turns, |cycles|).script, runs);
    var more := cycles + [runs];
    forall i | 0 <= i < |more|
      ensures TurnAt(first, turns, i).waits && Ends(TurnAt(first, turns, i).script, more[i])
    {
      assert i < |cycles| ==> more[i] == cycles[i];
    }
  }

  /**
   The deadlines a run waits for and the attempts of each cycle. The first deadline is the start plus jitter, plus one
   interval unless the run begins at once; each next one is the least tick after both the last deadline and the present,
   so missed ticks are skipped, never replayed. Each deadline has one cycle, unless its wait is cut short, which ends
   the run; and the run ends early only so or by an invalid result.
   */
  method Run(policy: Policy, start: int, jitter: nat, interval: int, runImmediately: bool, first: Turn,
             turns: seq<Turn>)
    returns (deadlines: seq<int>, cycles: seq<nat>)
    requires interval > 0 && policy.maxAttempts >= 1
    requires |first.script| == policy.maxAttempts && forall t :: t in turns ==> |t.script| == policy.maxAttempts
    ensures OnTicks(interval, deadlines, turns) &&
            deadlines[0] == start + jitter + if runImmediately then 0 else interval
    ensures Cycled(first, turns, cycles)
    ensures |cycles| == if TurnAt(first, turns, |deadlines| - 1).waits then |deadlines| else |deadlines| - 1
    ensures |deadlines| < |turns| + 1 && |cycles| == |deadlines| ==> !LastWell(first, turns, cycles)
  {
    hide Continues, Retries, Succeeds, Ends, Doubled, IsNextTick, OnTicks, Cycled, LastWell, RetryEvents, Backoffs;
    var delay := jitter;
    if !runImmediately { delay := delay + interval; }
    var deadline := start + delay;
    deadlines, cycles := [deadline], [];
    NothingYet(interval, deadline, first, turns);
    if !first.waits {
      return;
    }
    var ok, runs := RunCycle(policy, first.script);
    EndsHas(first.script, runs);
    CyclesGrow(first, turns, [], runs);
    cycles := [] + [runs];
    if !ok {
      return;
    }
    ghost var k: nat := 0;
    for i := 0 to |turns|
      invariant |deadlines| == i + 1 == |cycles| && deadlines[0] == start + delay && deadlines[i] == deadline
      invariant deadline == Tick(deadlines[0], interval, k) && TurnAt(first, turns, i).waits
      invariant OnTicks(interval, deadlines, turns) && Cycled(first, turns, cycles) && LastWell(first, turns, cycles)
    {
      deadline, k := NextDeadline(deadlines[0], k, deadline, turns[i].now, interval);
      TicksGrow(interval, deadlines, turns, deadline);
      deadlines := deadlines + [deadline];
      if !turns[i].waits {
        return;
      }
      assert turns[i] in turns;
      ok, runs := RunCycle(policy, turns[i].script);
      EndsHas(turns[i].script, runs);
      CyclesGrow(first, turns, cycles, runs);
      cycles := cycles + [runs];
      if !ok {
        return;
      }
    }
  }

  lemma NothingYet(interval: int, deadline: int, first: Turn, turns: seq<Turn>)
    ensures OnTicks(interval, [deadline], turns) && Cycled(first, turns, []) && LastWell(first, turns, [])
  {
  }

  lemma EndsHas(script: seq<Attempt>, runs: nat)
    requires Ends(script, runs)
    ensures 1 <= runs <= |script|
  {
  }

  /** Every deadline is first + k * interval, with k growing from one deadline to the next. */
  lemma {:induction false} DeadlinesAnchored(first: int, interval: int, nows: seq<int>,
                                             deadlines: seq<int>) returns (ks: seq<nat>)
    requires interval > 0 && |nows| + 1 == |deadlines| && deadlines[0] == first
    requires forall j :: 0 <= j < |deadlines| - 1 ==>
             IsNextTick(first, interval, deadlines[j], nows[j], deadlines[j + 1])
    ensures |ks| == |deadlines| && ks[0] == 0
    ensures forall i :: 0 <= i < |ks| ==> deadlines[i] == first + ks[i] * interval
    ensures forall i :: 0 <= i < |ks| - 1 ==> ks[i] < ks[i + 1]
    decreases |nows|
  {
    if nows == [] {
      ks := [0];
    } else {
      var n := |nows| - 1;
      var earlier := DeadlinesAnchored(first, interval, nows[..n], deadlines[..n + 1]);
      assert IsNextTick(first, interval, deadlines[n], nows[n], deadlines[n + 1]);
      var k: nat :| deadlines[n + 1] == Tick(first, interval, k);
      NextIsLater(first, interval, earlier[n], k, deadlines[n], deadlines[n + 1]);
      ks := earlier + [k];
    }
  }

  lemma NextIsLater(first: int, interval: int, j: nat, k: nat, last: int, next: int)
    requires interval > 0 && last == first + j * interval && next == Tick(first, interval, k) && next > last
    ensures j < k && next == first + k * interval
  {
    TickIsLinear(first, interval, j);
    TickIsLinear(first, interval, k);
    if k < j { TickGrows(first, interval, k, j); }
  }
}
