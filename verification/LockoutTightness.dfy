/** The lockout bound is attained: with m attempts open at once, 4 + m wrong passwords fit one window. */
module LockoutTightness {
  import opened Common
  import opened Lockout

  lemma Then(s: State, user: UserId, steps: seq<(Step, Time)>, m: nat, step: Step) returns (more: seq<(Step, Time)>)
    requires s.mark <= |s.log| && Schedule(s, user, steps, m) && Within(Run(s, user, steps), step, m)
    ensures Schedule(s, user, more, m)
    ensures var r := Run(s, user, steps); Run(s, user, more) == Next(r, user, step, r.clock + 1)
  {
    more := steps + [(step, Run(s, user, steps).clock + 1)];
    assert more[..|steps|] == steps;
  }

  /** k attempts let past the lock check. */
  function Open(k: nat): (r: map<nat, Phase>)
    ensures forall op: nat :: op in r <==> op < k
    ensures forall op: nat | op in r :: r[op].Passed?
    ensures |r| == k
  {
    if k == 0 then map[] else Open(k - 1)[k - 1 := Passed]
  }

  /** m attempts are open, and all but the first `done` have only passed the check. */
  ghost predicate Mixed(flights: map<nat, Phase>, m: nat, done: nat) {
    && (forall op: nat :: op in flights <==> op < m)
    && (forall op: nat | done <= op < m :: flights[op].Passed?)
  }

  /** Only wrong passwords of this account are on record, and nothing is locked. */
  ghost predicate OnlyBad(r: State, user: UserId) {
    && r.mark == 0 && r.lockedUntil.None?
    && forall e | e in r.log :: IsLogin(e, user, FAILURE) && e.reason.BAD_PASSWORD?
  }

  lemma CheckNext(s: State, user: UserId, m: nat, steps: seq<(Step, Time)>, op: nat) returns (more: seq<(Step, Time)>)
    requires s.mark <= |s.log| && Schedule(s, user, steps, m)
    requires var r := Run(s, user, steps); OnlyBad(r, user) && op !in r.flights && |r.flights| < m
    ensures Schedule(s, user, more, m)
    ensures var r := Run(s, user, steps);
      Run(s, user, more) == r.(clock := r.clock + 1, flights := r.flights[op := Passed])
  {
    more := Then(s, user, steps, m, Check(op, false, false));
  }

  lemma RecordNext(s: State, user: UserId, m: nat, steps: seq<(Step, Time)>, op: nat) returns (more: seq<(Step, Time)>)
    requires s.mark <= |s.log| && Schedule(s, user, steps, m)
    requires var r := Run(s, user, steps); OnlyBad(r, user) && op in r.flights && r.flights[op].Passed?
    ensures Schedule(s, user, more, m)
    ensures var r := Run(s, user, steps);
      && Run(s, user, more) == r.(clock := r.clock + 1, flights := r.flights[op := Recorded],
           log := r.log + [Entry(user, AUTH_LOGIN, FAILURE, BAD_PASSWORD, r.clock + 1)])
      && OnlyBad(Run(s, user, more), user)
  {
    var r := Run(s, user, steps);
    more := steps + [(Record(op), r.clock + 1)];
    assert more[..|steps|] == steps;
    RecordIs(r, user, op, r.clock + 1);
  }

  lemma RecordIs(r: State, user: UserId, op: nat, now: Time)
    requires r.mark <= |r.log| && OnlyBad(r, user) && op in r.flights && r.flights[op].Passed?
    ensures Next(r, user, Record(op), now) == r.(clock := now, flights := r.flights[op := Recorded],
      log := r.log + [Entry(user, AUTH_LOGIN, FAILURE, BAD_PASSWORD, now)])
    ensures OnlyBad(Next(r, user, Record(op), now), user)
  {
  }

  lemma {:induction false} CountAtMost(log: seq<Entry>, user: UserId, after: Time)
    ensures CountFailures(log, user, after) <= |log|
  {
    if log != [] { CountAtMost(log[..|log| - 1], user, after); }
  }

  lemma TooFewToLock(log: seq<Entry>, user: UserId, windowStart: Time)
    requires |log| <= 4
    ensures QueryCount(log, user, windowStart) < MAX_FAILURES
  {
    CountAtMost(log, user, CountFrom(log, user, windowStart));
  }

  lemma CountUnlocked(r: State, user: UserId, op: nat, now: Time)
    requires r.mark <= |r.log| && r.lockedUntil.None? && op in r.flights && r.flights[op].Recorded?
    requires QueryCount(r.log, user, now - WINDOW) < MAX_FAILURES
    ensures Next(r, user, Count(op, now), now) == r.(clock := now, flights := r.flights - {op})
  {
  }

  /** Too few on record to lock. */
  lemma CountNext(s: State, user: UserId, m: nat, steps: seq<(Step, Time)>, op: nat) returns (more: seq<(Step, Time)>)
    requires s.mark <= |s.log| && Schedule(s, user, steps, m)
    requires var r := Run(s, user, steps); r.lockedUntil.None? && op in r.flights && r.flights[op].Recorded? && |r.log| <= 4
    ensures Schedule(s, user, more, m)
    ensures var r := Run(s, user, steps);
      Run(s, user, more) == r.(clock := r.clock + 1, flights := r.flights - {op})
  {
    var now := Run(s, user, steps).clock + 1;
    TooFewToLock(Run(s, user, steps).log, user, now - WINDOW);
    CountUnlocked(Run(s, user, steps), user, op, now);
    more := Then(s, user, steps, m, Count(op, now));
  }

  /** Checks in a row, all before any is recorded. */
  lemma {:induction false} Checks(s: State, user: UserId, m: nat, k: nat) returns (steps: seq<(Step, Time)>)
    requires Fresh(s) && k <= m
    ensures Schedule(s, user, steps, m)
    ensures var r := Run(s, user, steps); r.log == [] && r.flights == Open(k) && OnlyBad(r, user)
  {
    if k == 0 {
      steps := [];
    } else {
      steps := Checks(s, user, m, k - 1);
      steps := CheckNext(s, user, m, steps, k - 1);
    }
  }

  /** One more attempt from check to count, too early to lock. */
  lemma OneSerial(s: State, user: UserId, m: nat, steps: seq<(Step, Time)>, k: nat) returns (more: seq<(Step, Time)>)
    requires s.mark <= |s.log| && k < m && Schedule(s, user, steps, m)
    requires var r := Run(s, user, steps); r.flights == Open(k) && OnlyBad(r, user) && |r.log| < 4
    ensures Schedule(s, user, more, m)
    ensures var r, t := Run(s, user, steps), Run(s, user, more);
      && t.flights == Open(k) && OnlyBad(t, user) && t.clock == r.clock + 3
      && t.log == r.log + [Entry(user, AUTH_LOGIN, FAILURE, BAD_PASSWORD, r.clock + 2)]
  {
    more := CheckNext(s, user, m, steps, k);
    more := RecordNext(s, user, m, more, k);
    more := CountNext(s, user, m, more, k);
    Reopened(k);
  }

  lemma Reopened(k: nat)
    ensures Open(k)[k := Passed][k := Recorded] - {k} == Open(k)
  {
  }

  /** Four of them, one after another. */
  lemma FourSerial(s: State, user: UserId, m: nat, steps: seq<(Step, Time)>, k: nat) returns (more: seq<(Step, Time)>)
    requires s.mark <= |s.log| && k < m && Schedule(s, user, steps, m)
    requires var r := Run(s, user, steps); r.flights == Open(k) && OnlyBad(r, user) && r.log == []
    ensures Schedule(s, user, more, m)
    ensures var r, t := Run(s, user, steps), Run(s, user, more);
      && t.flights == Open(k) && OnlyBad(t, user) && t.clock == r.clock + 12
      && |t.log| == 4 && t.log[0].occurredAt == r.clock + 2
  {
    more := OneSerial(s, user, m, steps, k);
    more := OneSerial(s, user, m, more, k);
    more := OneSerial(s, user, m, more, k);
    more := OneSerial(s, user, m, more, k);
  }

  /** From r to t the first `done` open attempts were recorded, one a tick. */
  ghost predicate RecordedTo(r: State, t: State, user: UserId, m: nat, done: nat)
    requires done <= m
  {
    && Mixed(t.flights, m, done) && OnlyBad(t, user) && t.clock == r.clock + done
    && |t.log| == |r.log| + done && r.log <= t.log
    && (done > 0 ==> t.log[|t.log| - 1].occurredAt == t.clock)
  }

  lemma OneMoreRecorded(s: State, user: UserId, m: nat, r: State, before: seq<(Step, Time)>, done: nat) returns (more: seq<(Step, Time)>)
    requires s.mark <= |s.log| && 0 < done <= m && Schedule(s, user, before, m)
    requires RecordedTo(r, Run(s, user, before), user, m, done - 1)
    ensures Schedule(s, user, more, m) && RecordedTo(r, Run(s, user, more), user, m, done)
  {
    more := RecordNext(s, user, m, before, done - 1);
  }

  /** Then everything open is recorded, lock or no lock. */
  lemma {:induction false} Records(s: State, user: UserId, m: nat, steps: seq<(Step, Time)>, done: nat) returns (more: seq<(Step, Time)>)
    requires s.mark <= |s.log| && done <= m && Schedule(s, user, steps, m)
    requires Mixed(Run(s, user, steps).flights, m, 0) && OnlyBad(Run(s, user, steps), user)
    ensures Schedule(s, user, more, m) && RecordedTo(Run(s, user, steps), Run(s, user, more), user, m, done)
  {
    more := steps;
    if done > 0 {
      more := Records(s, user, m, steps, done - 1);
      more := OneMoreRecorded(s, user, m, Run(s, user, steps), more, done);
    }
  }

  lemma {:induction false} AllAreBad(log: seq<Entry>, user: UserId)
    requires forall e | e in log :: IsLogin(e, user, FAILURE) && e.reason.BAD_PASSWORD?
    ensures |BadTimes(log, user)| == |log|
    ensures forall k | 0 <= k < |log| :: BadTimes(log, user)[k] == log[k].occurredAt
  {
    if log != [] { AllAreBad(log[..|log| - 1], user); }
  }

  /**
   * For every m there is room for in one window of ticks: m - 1 attempts pass the check, four more
   * are counted one by one, one more passes, and then all m are recorded.
   */
  lemma BoundIsAttained(s: State, user: UserId, m: nat) returns (steps: seq<(Step, Time)>)
    requires Fresh(s) && 1 <= m < WINDOW - 11
    ensures Schedule(s, user, steps, m)
    ensures var bad := Bad(Run(s, user, steps), user); |bad| == 4 + m && bad[|bad| - 1] - bad[0] < 900_000
  {
    steps := Checks(s, user, m, m - 1);
    steps := FourSerial(s, user, m, steps, m - 1);
    steps := CheckNext(s, user, m, steps, m - 1);
    steps := AllRecorded(s, user, m, steps);
  }

  lemma AllRecorded(s: State, user: UserId, m: nat, steps: seq<(Step, Time)>) returns (more: seq<(Step, Time)>)
    requires s.mark <= |s.log| && 1 <= m < WINDOW - 11 && Schedule(s, user, steps, m)
    requires var r := Run(s, user, steps);
      r.flights == Open(m) && OnlyBad(r, user) && |r.log| == 4 && r.log[0].occurredAt + 11 == r.clock
    ensures Schedule(s, user, more, m)
    ensures var bad := Bad(Run(s, user, more), user); |bad| == 4 + m && bad[|bad| - 1] - bad[0] < 900_000
  {
    more := Records(s, user, m, steps, m);
    var r := Run(s, user, more);
    assert r.log[0..] == r.log;
    AllAreBad(r.log, user);
  }

  lemma {:induction false} MoreMayBeOpen(s: State, user: UserId, steps: seq<(Step, Time)>, m: nat, n: nat)
    requires s.mark <= |s.log| && Schedule(s, user, steps, m) && m <= n
    ensures Schedule(s, user, steps, n)
  {
    if steps != [] { MoreMayBeOpen(s, user, steps[..|steps| - 1], m, n); }
  }

  /** Every stretch under fifteen minutes holds at most so many wrong passwords, over every schedule of m at once. */
  ghost predicate AtMost(s: State, user: UserId, m: nat, most: nat)
    requires s.mark <= |s.log|
  {
    forall steps, i: nat, j: nat | Schedule(s, user, steps, m) && i <= j < |Bad(Run(s, user, steps), user)|
      && Bad(Run(s, user, steps), user)[j] - Bad(Run(s, user, steps), user)[i] < 900_000 :: j - i + 1 <= most
  }

  /** Five per window holds exactly for attempts one at a time. */
  lemma FivePerWindowIff(s: State, user: UserId, m: nat)
    requires Fresh(s)
    ensures AtMost(s, user, m, 5) <==> m <= 1
  {
    if m <= 1 {
      forall steps, i: nat, j: nat | Schedule(s, user, steps, m) && i <= j < |Bad(Run(s, user, steps), user)|
        && Bad(Run(s, user, steps), user)[j] - Bad(Run(s, user, steps), user)[i] < 900_000 ensures j - i + 1 <= 5
      {
        LockoutBound(s, user, steps, m, i, j);
      }
    } else {
      var steps := BoundIsAttained(s, user, 2);
      MoreMayBeOpen(s, user, steps, 2, m);
      var bad := Bad(Run(s, user, steps), user);
      assert bad[5] - bad[0] < 900_000;
    }
  }

  /** In general 4 + m is the least bound, as long as the window has ticks enough for so many entries. */
  lemma LeastBound(s: State, user: UserId, m: nat, most: nat)
    requires Fresh(s) && 1 <= m < WINDOW - 11
    ensures AtMost(s, user, m, most) <==> most >= 4 + m
  {
    if most >= 4 + m {
      forall steps, i: nat, j: nat | Schedule(s, user, steps, m) && i <= j < |Bad(Run(s, user, steps), user)|
        && Bad(Run(s, user, steps), user)[j] - Bad(Run(s, user, steps), user)[i] < 900_000 ensures j - i + 1 <= most
      {
        LockoutBound(s, user, steps, m, i, j);
      }
    } else {
      var steps := BoundIsAttained(s, user, m);
      var bad := Bad(Run(s, user, steps), user);
      assert bad[3 + m] - bad[0] < 900_000;
    }
  }
}
