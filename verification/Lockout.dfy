/**
 * Sign-in lockout, decided from an append-only audit log. A failed attempt is three steps: read
 * the account and test its lock, write the failure, then count and maybe lock. A successful one is
 * two: clear the lock, then write the success. Attempts interleave.
 */
module Lockout {
  import opened Common

  type UserId = nat

  const WINDOW: int := 15 * 60_000
  const MAX_FAILURES: int := 5
  const LOCKOUT: int := 30 * 60_000

  datatype Action = AUTH_LOGIN | AUTH_LOGOUT | AUTH_PASSWORD_SET | AUTH_REGISTER | AUTH_PASSWORD_RESET_REQUEST

  datatype Outcome = SUCCESS | FAILURE

  datatype Reason = NoReason | BAD_PASSWORD | LOCKED | STATUS_SUSPENDED

  datatype Entry = Entry(actor: UserId, action: Action, outcome: Outcome, reason: Reason, occurredAt: Time)

  predicate IsLogin(e: Entry, user: UserId, outcome: Outcome) {
    e.actor == user && e.action.AUTH_LOGIN? && e.outcome == outcome
  }

  // --- The two queries ----------------------------------------------------------------

  /** The newest successful sign-in at or after `from`. */
  function LastSuccess(log: seq<Entry>, user: UserId, from: Time): Option<Time> {
    if log == [] then None
    else
      var e := log[|log| - 1];
      if IsLogin(e, user, SUCCESS) && e.occurredAt >= from then Some(e.occurredAt)
      else LastSuccess(log[..|log| - 1], user, from)
  }

  function CountFailures(log: seq<Entry>, user: UserId, after: Time): nat {
    if log == [] then 0
    else
      var e := log[|log| - 1];
      CountFailures(log[..|log| - 1], user, after)
      + if IsLogin(e, user, FAILURE) && e.occurredAt > after then 1 else 0
  }

  /** Where the count starts: the window's edge, or the last success inside it. */
  function CountFrom(log: seq<Entry>, user: UserId, windowStart: Time): Time {
    match LastSuccess(log, user, windowStart)
    case Some(at) => if at > windowStart then at else windowStart
    case None => windowStart
  }

  function QueryCount(log: seq<Entry>, user: UserId, windowStart: Time): nat {
    CountFailures(log, user, CountFrom(log, user, windowStart))
  }

  /** What the queries are for: the failures after the last success that lie inside the window. */
  function TrailingFailures(log: seq<Entry>, user: UserId, windowStart: Time): nat {
    if log == [] then 0
    else
      var e := log[|log| - 1];
      if IsLogin(e, user, SUCCESS) then 0
      else TrailingFailures(log[..|log| - 1], user, windowStart)
           + if IsLogin(e, user, FAILURE) && e.occurredAt > windowStart then 1 else 0
  }

  ghost predicate Ordered(log: seq<Entry>) {
    forall i, j | 0 <= i < j < |log| :: log[i].occurredAt < log[j].occurredAt
  }

  lemma {:induction false} NothingAfter(log: seq<Entry>, user: UserId, after: Time)
    requires forall e | e in log :: e.occurredAt <= after
    ensures CountFailures(log, user, after) == 0
  {
    if log != [] { NothingAfter(log[..|log| - 1], user, after); }
  }

  /** A success too old for the window leaves nothing before it inside the window. */
  lemma {:induction false} NothingTrailing(log: seq<Entry>, user: UserId, windowStart: Time)
    requires forall e | e in log :: e.occurredAt <= windowStart
    ensures TrailingFailures(log, user, windowStart) == 0
  {
    if log != [] { NothingTrailing(log[..|log| - 1], user, windowStart); }
  }

  lemma {:induction false} NoSuccessFrom(log: seq<Entry>, user: UserId, from: Time)
    requires forall e | e in log :: e.occurredAt < from
    ensures LastSuccess(log, user, from).None?
  {
    if log != [] { NoSuccessFrom(log[..|log| - 1], user, from); }
  }

  lemma {:induction false} LastSuccessInLog(log: seq<Entry>, user: UserId, from: Time)
    ensures LastSuccess(log, user, from).Some? ==>
      exists e :: e in log && e.occurredAt == LastSuccess(log, user, from).value
  {
    if log != [] {
      var e := log[|log| - 1];
      assert e in log;
      if !(IsLogin(e, user, SUCCESS) && e.occurredAt >= from) { LastSuccessInLog(log[..|log| - 1], user, from); }
    }
  }

  /** The query-based count is the number of failures in the trailing run inside the window. */
  lemma {:induction false} QueryCountsTrailingRun(log: seq<Entry>, user: UserId, windowStart: Time)
    requires Ordered(log)
    ensures QueryCount(log, user, windowStart) == TrailingFailures(log, user, windowStart)
  {
    if log != [] {
      var prefix, e := log[..|log| - 1], log[|log| - 1];
      assert forall f | f in prefix :: f.occurredAt < e.occurredAt;
      if IsLogin(e, user, SUCCESS) {
        if e.occurredAt >= windowStart {
          NothingAfter(prefix, user, e.occurredAt);
        } else {
          NoSuccessFrom(prefix, user, windowStart);
          NothingAfter(prefix, user, windowStart);
        }
      } else {
        QueryCountsTrailingRun(prefix, user, windowStart);
        LastSuccessInLog(prefix, user, windowStart);
      }
    }
  }

  // --- The protocol for one account ---------------------------------------------------

  /** A wrong password let past the lock, then recorded; or a right one let past it, then with the lock cleared. */
  datatype Phase = Passed | Recorded | Accepted | Unlocked

  /** `mark` is the log length at the last success or lock clearing. */
  datatype State = State(
    log: seq<Entry>, lockedUntil: Option<Time>, flights: map<nat, Phase>, mark: nat, clock: Time)

  datatype Step =
    | Check(op: nat, matched: bool, suspended: bool)
    | Unlock(op: nat)               // an accepted sign-in clears the lock, whoever set it since the check
    | Succeed(op: nat)              // and then its success is recorded
    | Record(op: nat)
    | Count(op: nat, written: Time) // counted at the step's time, lock stamped at `written`
    | Clear                         // a password set by token, or a suspension, clears the lock
    | Elsewhere(entry: Entry)       // any entry that is not a sign-in of this account

  predicate IsLocked(lockedUntil: Option<Time>, now: Time) {
    lockedUntil.Some? && lockedUntil.value > now
  }

  function Append(s: State, user: UserId, outcome: Outcome, reason: Reason, now: Time): State {
    s.(log := s.log + [Entry(user, AUTH_LOGIN, outcome, reason, now)])
  }

  function Begin(s: State, op: nat, phase: Phase): State {
    s.(flights := s.flights[op := phase])
  }

  function Next(s: State, user: UserId, step: Step, now: Time): State
    requires s.mark <= |s.log|
  {
    var t := s.(clock := now);
    match step
    case Check(op, matched, suspended) =>
      if op in s.flights then t
      else if IsLocked(s.lockedUntil, now) then Append(t, user, FAILURE, LOCKED, now)
      else if !matched then Begin(t, op, Passed)
      else if suspended then Append(t, user, FAILURE, STATUS_SUSPENDED, now)
      else Begin(t, op, Accepted)
    case Unlock(op) =>
      if op in s.flights && s.flights[op].Accepted?
      then Begin(t, op, Unlocked).(lockedUntil := None, mark := |s.log|) else t
    case Succeed(op) =>
      if op in s.flights && s.flights[op].Unlocked?
      then Append(t, user, SUCCESS, NoReason, now).(flights := s.flights - {op}, mark := |s.log| + 1) else t
    case Record(op) =>
      if op in s.flights && s.flights[op].Passed?
      then Begin(Append(t, user, FAILURE, BAD_PASSWORD, now), op, Recorded) else t
    case Count(op, written) =>
      if op in s.flights && s.flights[op].Recorded? then
        t.(clock := Max(now, written), flights := s.flights - {op},
           lockedUntil := if QueryCount(s.log, user, now - WINDOW) >= MAX_FAILURES
                          then Some(Max(now, written) + LOCKOUT) else s.lockedUntil)
      else t
    case Clear => t.(lockedUntil := None, mark := |s.log|)
    case Elsewhere(entry) =>
      if entry.actor == user && entry.action.AUTH_LOGIN? then t
      else t.(log := s.log + [entry.(occurredAt := now)])
  }

  // --- At most four plus the attempts in flight -----------------------------------------

  function BadTimes(log: seq<Entry>, user: UserId): seq<Time> {
    if log == [] then []
    else
      var e := log[|log| - 1];
      BadTimes(log[..|log| - 1], user)
      + if IsLogin(e, user, FAILURE) && e.reason.BAD_PASSWORD? then [e.occurredAt] else []
  }

  /** The wrong passwords recorded since the last success or lock clearing. */
  function Bad(s: State, user: UserId): seq<Time>
    requires s.mark <= |s.log|
  {
    BadTimes(s.log[s.mark..], user)
  }

  ghost function In(flights: map<nat, Phase>, phase: Phase): set<nat> {
    set op | op in flights && flights[op] == phase
  }

  ghost predicate Sorted(times: seq<Time>) {
    forall i, j | 0 <= i < j < |times| :: times[i] < times[j]
  }

  /**
   * For a window opening at wrong password i with at least four more behind it: nobody has counted
   * since the fifth, or the window has closed, or the account is locked past its end and those
   * still able to record are few enough.
   */
  ghost predicate Covered(s: State, bad: seq<Time>, i: nat, m: nat)
    requires i + 5 <= |bad|
  {
    || |bad| - i - 4 <= |In(s.flights, Recorded)|
    || s.clock >= bad[i] + WINDOW
    || (s.lockedUntil.Some? && s.lockedUntil.value >= bad[i] + WINDOW && |bad| - i - 4 + |In(s.flights, Passed)| <= m)
  }

  /** No window shorter than fifteen minutes holds more than 4 + m wrong passwords. */
  ghost predicate Bounded(bad: seq<Time>, m: nat) {
    forall i, j | 0 <= i && i + 4 + m <= j < |bad| :: bad[j] - bad[i] >= WINDOW
  }

  ghost predicate Safe(s: State, user: UserId, m: nat) {
    SafeLog(s, user, m) && SafeWindows(s, Bad(s, user), m)
  }

  ghost predicate SafeLog(s: State, user: UserId, m: nat) {
    && s.mark <= |s.log| && Ordered(s.log)
    && (forall e | e in s.log :: e.occurredAt <= s.clock)
    && |s.flights| <= m
    && (forall k | s.mark <= k < |s.log| :: !IsLogin(s.log[k], user, SUCCESS))
  }

  ghost predicate SafeWindows(s: State, bad: seq<Time>, m: nat) {
    && Sorted(bad) && (forall i | 0 <= i < |bad| :: bad[i] <= s.clock)
    && Bounded(bad, m)
    && forall i | 0 <= i && i + 5 <= |bad| :: Covered(s, bad, i, m)
  }

  lemma BadAppend(log: seq<Entry>, e: Entry, user: UserId)
    ensures BadTimes(log + [e], user)
         == BadTimes(log, user) + if IsLogin(e, user, FAILURE) && e.reason.BAD_PASSWORD? then [e.occurredAt] else []
  {
    assert (log + [e])[..|log|] == log;
  }

  /** How many entries of a sorted list lie after `after`. */
  function CountAfter(times: seq<Time>, after: Time): nat {
    if times == [] then 0
    else CountAfter(times[..|times| - 1], after) + if times[|times| - 1] > after then 1 else 0
  }

  lemma {:induction false} CountAfterTail(times: seq<Time>, after: Time, i: nat)
    requires i < |times| && Sorted(times) && times[i] > after
    ensures CountAfter(times, after) >= |times| - i
  {
    if i + 1 < |times| {
      CountAfterTail(times[..|times| - 1], after, i);
    }
  }

  lemma CountAfterAppend(times: seq<Time>, t: Time, after: Time)
    ensures CountAfter(times + [t], after) == CountAfter(times, after) + if t > after then 1 else 0
  {
    assert (times + [t])[..|times|] == times;
  }

  lemma TrailingAppend(log: seq<Entry>, e: Entry, user: UserId, after: Time)
    ensures TrailingFailures(log + [e], user, after)
         == if IsLogin(e, user, SUCCESS) then 0
            else TrailingFailures(log, user, after) + if IsLogin(e, user, FAILURE) && e.occurredAt > after then 1 else 0
  {
    assert (log + [e])[..|log|] == log;
  }

  lemma BadCountAppend(log: seq<Entry>, e: Entry, user: UserId, after: Time)
    ensures CountAfter(BadTimes(log + [e], user), after)
         == CountAfter(BadTimes(log, user), after)
            + if IsLogin(e, user, FAILURE) && e.reason.BAD_PASSWORD? && e.occurredAt > after then 1 else 0
  {
    BadAppend(log, e, user);
    CountAfterAppend(BadTimes(log, user), e.occurredAt, after);
    assert BadTimes(log, user) + [] == BadTimes(log, user);
  }

  /** The trailing run counts every wrong password of a stretch without a success. */
  lemma {:induction false} BadAreTrailing(log: seq<Entry>, user: UserId, stretch: seq<Entry>, after: Time)
    requires forall k | 0 <= k < |stretch| :: !IsLogin(stretch[k], user, SUCCESS)
    ensures TrailingFailures(log + stretch, user, after) >= CountAfter(BadTimes(stretch, user), after)
  {
    if stretch != [] {
      var prefix, e := stretch[..|stretch| - 1], stretch[|stretch| - 1];
      BadAreTrailing(log, user, prefix, after);
      TrailingAppend(log + prefix, e, user, after);
      BadCountAppend(prefix, e, user, after);
      assert stretch == prefix + [e] && log + stretch == log + prefix + [e];
    }
  }

  // --- Every step keeps it ------------------------------------------------------------

  /** Time passing, with nobody moving, keeps every window covered. */
  lemma StillCovered(s: State, r: State, bad: seq<Time>, m: nat)
    requires r.flights == s.flights && r.lockedUntil == s.lockedUntil && r.clock >= s.clock
    requires forall i | 0 <= i && i + 5 <= |bad| :: Covered(s, bad, i, m)
    ensures forall i | 0 <= i && i + 5 <= |bad| :: Covered(r, bad, i, m)
  {
    forall i | 0 <= i && i + 5 <= |bad| ensures Covered(r, bad, i, m) {
      assert Covered(s, bad, i, m);
    }
  }

  lemma LaterKeeps(s: State, user: UserId, m: nat, now: Time)
    requires Safe(s, user, m) && now > s.clock
    ensures Safe(s.(clock := now), user, m)
  {
    StillCovered(s, s.(clock := now), Bad(s, user), m);
  }

  /** Appending any entry but a success of this account. */
  lemma AppendSafeLog(s: State, r: State, user: UserId, m: nat, e: Entry)
    requires SafeLog(s, user, m) && e.occurredAt > s.clock && !IsLogin(e, user, SUCCESS)
    requires r.log == s.log + [e] && r.mark == s.mark && r.clock == e.occurredAt && |r.flights| <= m
    ensures SafeLog(r, user, m)
  {
  }

  lemma NeutralEntryBad(s: State, user: UserId, e: Entry, r: State)
    requires s.mark <= |s.log| && r.log == s.log + [e] && r.mark == s.mark
    requires !(IsLogin(e, user, FAILURE) && e.reason.BAD_PASSWORD?)
    ensures Bad(r, user) == Bad(s, user)
  {
    BadAppend(s.log[s.mark..], e, user);
    assert r.log[s.mark..] == s.log[s.mark..] + [e];
    assert BadTimes(s.log[s.mark..], user) + [] == BadTimes(s.log[s.mark..], user);
  }

  /** An entry that is neither a success nor a wrong password of this account. */
  lemma NeutralEntryKeeps(s: State, user: UserId, m: nat, e: Entry, now: Time)
    requires Safe(s, user, m) && now > s.clock && e.occurredAt == now
    requires !IsLogin(e, user, SUCCESS) && !(IsLogin(e, user, FAILURE) && e.reason.BAD_PASSWORD?)
    ensures Safe(s.(clock := now, log := s.log + [e]), user, m)
  {
    var r := s.(clock := now, log := s.log + [e]);
    AppendSafeLog(s, r, user, m, e);
    NeutralEntryBad(s, user, e, r);
    StillCovered(s, r, Bad(s, user), m);
  }

  lemma ResetKeeps(s: State, user: UserId, m: nat, now: Time)
    requires Safe(s, user, m) && now > s.clock
    ensures Safe(s.(clock := now, lockedUntil := None, mark := |s.log|), user, m)
  {
    assert s.log[|s.log|..] == [];
  }

  lemma UnlockKeeps(s: State, user: UserId, m: nat, op: nat, now: Time)
    requires Safe(s, user, m) && now > s.clock && op in s.flights && s.flights[op].Accepted?
    ensures Safe(Next(s, user, Unlock(op), now), user, m)
  {
    assert s.log[|s.log|..] == [];
    assert s.flights[op := Unlocked].Keys == s.flights.Keys;
    assert |s.flights[op := Unlocked].Keys| == |s.flights.Keys|;
  }

  lemma SucceedKeeps(s: State, user: UserId, m: nat, op: nat, now: Time)
    requires Safe(s, user, m) && now > s.clock && op in s.flights && s.flights[op].Unlocked?
    ensures Safe(Next(s, user, Succeed(op), now), user, m)
  {
    var log := s.log + [Entry(user, AUTH_LOGIN, SUCCESS, NoReason, now)];
    assert log[|s.log| + 1..] == [];
    assert (s.flights - {op}).Keys == s.flights.Keys - {op};
    assert |(s.flights - {op}).Keys| == |s.flights.Keys| - 1;
  }

  /** A right password, too, is only let past: nothing is cleared yet. */
  lemma PassKeeps(s: State, user: UserId, m: nat, op: nat, phase: Phase, now: Time)
    requires Safe(s, user, m) && now > s.clock && !phase.Recorded?
    requires op !in s.flights && |s.flights| < m && !IsLocked(s.lockedUntil, now)
    ensures Safe(Begin(s.(clock := now), op, phase), user, m)
  {
    var r := Begin(s.(clock := now), op, phase);
    var bad := Bad(s, user);
    assert In(r.flights, Recorded) == In(s.flights, Recorded);
    forall i | 0 <= i && i + 5 <= |bad| ensures Covered(r, bad, i, m) {
      assert Covered(s, bad, i, m);
    }
  }

  lemma {:induction false} Below(a: set<nat>, b: set<nat>)
    requires a <= b
    ensures |a| <= |b|
  {
    if a != {} {
      var x :| x in a;
      Below(a - {x}, b - {x});
    }
  }

  lemma PhaseSizes(s: State)
    ensures |In(s.flights, Passed)| + |In(s.flights, Recorded)| <= |s.flights|
  {
    Below(In(s.flights, Passed) + In(s.flights, Recorded), s.flights.Keys);
    assert In(s.flights, Passed) !! In(s.flights, Recorded);
  }

  /** One more wrong password: the attempts that could still have been recording are too few to overfill a window. */
  lemma RecordKeeps(s: State, user: UserId, m: nat, op: nat, now: Time)
    requires Safe(s, user, m) && now > s.clock && op in s.flights && s.flights[op].Passed?
    ensures Safe(Next(s, user, Record(op), now), user, m)
  {
    var e := Entry(user, AUTH_LOGIN, FAILURE, BAD_PASSWORD, now);
    var r := Next(s, user, Record(op), now);
    PhaseSizes(s);
    RecordPhases(s.flights, op);
    AppendSafeLog(s, r, user, m, e);
    RecordBad(s, r, user, e);
    RecordWindows(s, r, user, m, now);
  }

  lemma RecordBad(s: State, r: State, user: UserId, e: Entry)
    requires s.mark <= |s.log| && r.log == s.log + [e] && r.mark == s.mark
    requires IsLogin(e, user, FAILURE) && e.reason.BAD_PASSWORD?
    ensures Bad(r, user) == Bad(s, user) + [e.occurredAt]
  {
    assert r.log[s.mark..] == s.log[s.mark..] + [e];
    BadAppend(s.log[s.mark..], e, user);
  }

  lemma RecordWindows(s: State, r: State, user: UserId, m: nat, now: Time)
    requires Safe(s, user, m) && now > s.clock && r.clock == now && r.lockedUntil == s.lockedUntil
    requires |In(r.flights, Recorded)| == |In(s.flights, Recorded)| + 1 && |In(r.flights, Passed)| == |In(s.flights, Passed)| - 1
    requires |In(s.flights, Passed)| >= 1 && |In(s.flights, Passed)| + |In(s.flights, Recorded)| <= m
    ensures SafeWindows(r, Bad(s, user) + [now], m)
  {
    RecordCovered(s, r, user, m, now);
    RecordBounded(s, user, m, now);
  }

  lemma RecordPhases(flights: map<nat, Phase>, op: nat)
    requires op in flights && flights[op].Passed?
    ensures var r := flights[op := Recorded];
      && |r| == |flights|
      && |In(r, Recorded)| == |In(flights, Recorded)| + 1
      && |In(r, Passed)| == |In(flights, Passed)| - 1
  {
    var r := flights[op := Recorded];
    assert r.Keys == flights.Keys;
    assert In(r, Recorded) == In(flights, Recorded) + {op};
    assert In(r, Passed) == In(flights, Passed) - {op} && op in In(flights, Passed);
  }

  lemma RecordCovered(s: State, r: State, user: UserId, m: nat, now: Time)
    requires Safe(s, user, m) && now > s.clock && r.clock == now && r.lockedUntil == s.lockedUntil
    requires |In(r.flights, Recorded)| == |In(s.flights, Recorded)| + 1 && |In(r.flights, Passed)| == |In(s.flights, Passed)| - 1
    ensures var bad := Bad(s, user) + [now]; forall i | 0 <= i && i + 5 <= |bad| :: Covered(r, bad, i, m)
  {
    var old_, bad := Bad(s, user), Bad(s, user) + [now];
    forall i | 0 <= i && i + 5 <= |bad| ensures Covered(r, bad, i, m) {
      if i + 5 <= |old_| {
        assert Covered(s, old_, i, m);
        assert bad[i] == old_[i];
      }
    }
  }

  lemma RecordBounded(s: State, user: UserId, m: nat, now: Time)
    requires Safe(s, user, m) && now > s.clock
    requires |In(s.flights, Passed)| >= 1 && |In(s.flights, Passed)| + |In(s.flights, Recorded)| <= m
    ensures Bounded(Bad(s, user) + [now], m)
  {
    var bad := Bad(s, user);
    forall i, j | 0 <= i && i + 4 + m <= j < |bad + [now]|
      ensures (bad + [now])[j] - (bad + [now])[i] >= WINDOW
    {
      if j == |bad| {
        assert Covered(s, bad, i, m);
      }
    }
  }

  /** A count that sees the fifth failure inside the window locks; one that does not came too late to matter. */
  lemma CountKeeps(s: State, user: UserId, m: nat, op: nat, now: Time, written: Time)
    requires Safe(s, user, m) && now > s.clock && op in s.flights && s.flights[op].Recorded?
    ensures Safe(Next(s, user, Count(op, written), now), user, m)
  {
    var r := Next(s, user, Count(op, written), now);
    var bad := Bad(s, user);
    PhaseSizes(s);
    assert In(r.flights, Passed) == In(s.flights, Passed);
    assert r.flights.Keys == s.flights.Keys - {op};
    assert |r.flights| == |r.flights.Keys| == |s.flights| - 1;
    forall i | 0 <= i && i + 5 <= |bad| ensures Covered(r, bad, i, m) {
      assert Covered(s, bad, i, m);
      if bad[i] > now - WINDOW {
        CountSees(s, user, m, i, now - WINDOW);
      }
    }
  }

  lemma CountSees(s: State, user: UserId, m: nat, i: nat, windowStart: Time)
    requires Safe(s, user, m) && i + 5 <= |Bad(s, user)| && Bad(s, user)[i] > windowStart
    ensures QueryCount(s.log, user, windowStart) >= MAX_FAILURES
  {
    QueryCountsTrailingRun(s.log, user, windowStart);
    assert s.log == s.log[..s.mark] + s.log[s.mark..];
    BadAreTrailing(s.log[..s.mark], user, s.log[s.mark..], windowStart);
    CountAfterTail(Bad(s, user), windowStart, i);
  }

  /** The schedule never has more than m attempts of this account open at once. */
  ghost predicate Within(s: State, step: Step, m: nat) {
    step.Check? && step.op !in s.flights ==> |s.flights| < m
  }

  lemma StepKeeps(s: State, user: UserId, step: Step, now: Time, m: nat)
    requires Safe(s, user, m) && now > s.clock && Within(s, step, m)
    ensures Safe(Next(s, user, step, now), user, m)
  {
    LaterKeeps(s, user, m, now);
    match step
    case Check(op, matched, suspended) =>
      if op !in s.flights {
        if IsLocked(s.lockedUntil, now) {
          NeutralEntryKeeps(s, user, m, Entry(user, AUTH_LOGIN, FAILURE, LOCKED, now), now);
        } else if !matched {
          PassKeeps(s, user, m, op, Passed, now);
        } else if suspended {
          NeutralEntryKeeps(s, user, m, Entry(user, AUTH_LOGIN, FAILURE, STATUS_SUSPENDED, now), now);
        } else {
          PassKeeps(s, user, m, op, Accepted, now);
        }
      }
    case Unlock(op) => if op in s.flights && s.flights[op].Accepted? { UnlockKeeps(s, user, m, op, now); }
    case Succeed(op) => if op in s.flights && s.flights[op].Unlocked? { SucceedKeeps(s, user, m, op, now); }
    case Record(op) => if op in s.flights && s.flights[op].Passed? { RecordKeeps(s, user, m, op, now); }
    case Count(op, written) => if op in s.flights && s.flights[op].Recorded? { CountKeeps(s, user, m, op, now, written); }
    case Clear => ResetKeeps(s, user, m, now);
    case Elsewhere(entry) =>
      if !(entry.actor == user && entry.action.AUTH_LOGIN?) {
        NeutralEntryKeeps(s, user, m, entry.(occurredAt := now), now);
      }
  }

  // --- Whole runs -----------------------------------------------------------------------

  function Run(s: State, user: UserId, steps: seq<(Step, Time)>): (r: State)
    requires s.mark <= |s.log|
    ensures r.mark <= |r.log|
  {
    if steps == [] then s
    else
      var before := Run(s, user, steps[..|steps| - 1]);
      var (step, now) := steps[|steps| - 1];
      Next(before, user, step, now)
  }

  /** A schedule with increasing ticks and at most m attempts of the account open at once. */
  ghost predicate Schedule(s: State, user: UserId, steps: seq<(Step, Time)>, m: nat)
    requires s.mark <= |s.log|
  {
    steps != [] ==>
      && Schedule(s, user, steps[..|steps| - 1], m)
      && var before := Run(s, user, steps[..|steps| - 1]);
         steps[|steps| - 1].1 > before.clock && Within(before, steps[|steps| - 1].0, m)
  }

  ghost predicate Fresh(s: State) {
    s.log == [] && s.lockedUntil.None? && s.flights == map[] && s.mark == 0
  }

  lemma {:induction false} RunKeeps(s: State, user: UserId, steps: seq<(Step, Time)>, m: nat)
    requires Fresh(s) && Schedule(s, user, steps, m)
    ensures Safe(Run(s, user, steps), user, m)
  {
    if steps != [] {
      RunKeeps(s, user, steps[..|steps| - 1], m);
      var (step, now) := steps[|steps| - 1];
      StepKeeps(Run(s, user, steps[..|steps| - 1]), user, step, now, m);
    }
  }

  /**
   * Over every schedule with at most m attempts open at once, no stretch shorter than fifteen
   * minutes since the last success or lock clearing holds more than 4 + m wrong passwords.
   */
  lemma LockoutBound(s: State, user: UserId, steps: seq<(Step, Time)>, m: nat, i: nat, j: nat)
    requires Fresh(s) && Schedule(s, user, steps, m)
    requires var bad := Bad(Run(s, user, steps), user); i <= j < |bad| && bad[j] - bad[i] < 900_000
    ensures j - i + 1 <= 4 + m
  {
    RunKeeps(s, user, steps, m);
  }

  lemma RecordAddsOne(s: State, user: UserId, op: nat, now: Time)
    requires s.mark <= |s.log| && op in s.flights && s.flights[op].Passed?
    ensures var r := Next(s, user, Record(op), now);
      && r.mark == s.mark && r.mark <= |r.log|
      && r.flights == s.flights[op := Recorded] && Bad(r, user) == Bad(s, user) + [now]
  {
    var e := Entry(user, AUTH_LOGIN, FAILURE, BAD_PASSWORD, now);
    assert (s.log + [e])[s.mark..] == s.log[s.mark..] + [e];
    BadAppend(s.log[s.mark..], e, user);
  }

  /** Two attempts let through together are both recorded, lock or no lock. */
  lemma OverlapAddsBoth(s: State, user: UserId, a: nat, b: nat, now: Time)
    requires s.mark <= |s.log| && a !in s.flights && b !in s.flights && a != b
    requires !IsLocked(s.lockedUntil, now)
    ensures var waiting := Next(Next(s, user, Check(a, false, false), now), user, Check(b, false, false), now + 1);
      Bad(Next(Next(waiting, user, Record(a), now + 2), user, Record(b), now + 3), user) == Bad(s, user) + [now + 2, now + 3]
  {
    var waiting := Next(Next(s, user, Check(a, false, false), now), user, Check(b, false, false), now + 1);
    assert waiting.log == s.log && waiting.mark == s.mark && waiting.flights == s.flights[a := Passed][b := Passed];
    RecordAddsOne(waiting, user, a, now + 2);
    RecordAddsOne(Next(waiting, user, Record(a), now + 2), user, b, now + 3);
    assert Bad(s, user) + [now + 2] + [now + 3] == Bad(s, user) + [now + 2, now + 3];
  }

  // --- The service -------------------------------------------------------------------------

  datatype AccountStatus = ACTIVE | INVITED | SUSPENDED

  datatype Account = Account(status: AccountStatus, failedLogins: nat, lockedUntil: Option<Time>)

  datatype LoginResult = Unauthorized | SignedIn(user: UserId, mustResetPassword: bool)

  function FirstMatch(candidates: seq<UserId>, verify: UserId -> bool): Option<UserId> {
    if candidates == [] then None
    else if verify(candidates[0]) then Some(candidates[0])
    else FirstMatch(candidates[1..], verify)
  }

  /** The account an attempt is charged to: the first whose password matches, else the first of all. */
  function Charged(candidates: seq<UserId>, verify: UserId -> bool): Option<(UserId, bool)> {
    if candidates == [] then None
    else
      match FirstMatch(candidates, verify)
      case Some(user) => Some((user, true))
      case None => Some((candidates[0], false))
  }

  ghost predicate IsFirstMatch(candidates: seq<UserId>, verify: UserId -> bool, user: UserId, i: int) {
    0 <= i < |candidates| && candidates[i] == user && verify(user) && forall j | 0 <= j < i :: !verify(candidates[j])
  }

  lemma {:induction false} FirstMatchIs(candidates: seq<UserId>, verify: UserId -> bool)
    ensures FirstMatch(candidates, verify).None? ==> forall c | c in candidates :: !verify(c)
    ensures FirstMatch(candidates, verify).Some? ==>
      exists i :: IsFirstMatch(candidates, verify, FirstMatch(candidates, verify).value, i)
  {
    if candidates != [] {
      if verify(candidates[0]) {
        assert IsFirstMatch(candidates, verify, candidates[0], 0);
      } else {
        var rest := candidates[1..];
        FirstMatchIs(rest, verify);
        if FirstMatch(rest, verify).Some? {
          var user := FirstMatch(rest, verify).value;
          var i :| IsFirstMatch(rest, verify, user, i);
          assert candidates[i + 1] == rest[i];
          forall j | 0 <= j < i + 1 ensures !verify(candidates[j]) {
            if j > 0 { assert rest[j - 1] == candidates[j]; }
          }
          assert IsFirstMatch(candidates, verify, user, i + 1);
        }
      }
    }
  }

  /** The charged account is a candidate, and it is charged a match exactly when its password matched. */
  lemma ChargedIsCandidate(candidates: seq<UserId>, verify: UserId -> bool)
    ensures Charged(candidates, verify).Some? <==> candidates != []
    ensures Charged(candidates, verify).Some? ==>
      var (user, matched) := Charged(candidates, verify).value; user in candidates && (matched <==> verify(user))
  {
    FirstMatchIs(candidates, verify);
  }

  class AuthService {
    var log: seq<Entry>
    var accounts: map<UserId, Account>

    constructor ()
      ensures log == [] && accounts == map[]
    {
      log, accounts := [], map[];
    }

    method Resolve(candidates: seq<UserId>, verify: UserId -> bool) returns (r: Option<(UserId, bool)>)
      ensures r == Charged(candidates, verify)
    {
      var i := 0;
      while i < |candidates|
        invariant i <= |candidates|
        invariant FirstMatch(candidates, verify) == FirstMatch(candidates[i..], verify)
      {
        if verify(candidates[i]) { return Some((candidates[i], true)); }
        assert candidates[i..][1..] == candidates[i + 1..];
        i := i + 1;
      }
      if |candidates| == 0 { return None; }
      return Some((candidates[0], false));
    }

    method FindLastSuccess(user: UserId, from: Time) returns (r: Option<Time>)
      ensures r == LastSuccess(log, user, from)
    {
      var i := |log|;
      assert log[..i] == log;
      while i > 0
        invariant 0 <= i <= |log|
        invariant LastSuccess(log, user, from) == LastSuccess(log[..i], user, from)
      {
        i := i - 1;
        assert log[..i + 1][..i] == log[..i];
        if IsLogin(log[i], user, SUCCESS) && log[i].occurredAt >= from { return Some(log[i].occurredAt); }
      }
      return None;
    }

    method CountFailuresAfter(user: UserId, after: Time) returns (count: nat)
      ensures count == CountFailures(log, user, after)
    {
      count := 0;
      var i := 0;
      while i < |log|
        invariant i <= |log|
        invariant count == CountFailures(log[..i], user, after)
      {
        assert log[..i + 1][..i] == log[..i];
        if IsLogin(log[i], user, FAILURE) && log[i].occurredAt > after { count := count + 1; }
        i := i + 1;
      }
      assert log[..i] == log;
    }

    /** The two queries together count the trailing run. */
    method CountRecentFailures(user: UserId, windowStart: Time) returns (count: nat)
      requires Ordered(log)
      ensures count == TrailingFailures(log, user, windowStart)
    {
      var lastSuccess := FindLastSuccess(user, windowStart);
      var countFrom := if lastSuccess.Some? && lastSuccess.value > windowStart then lastSuccess.value else windowStart;
      count := CountFailuresAfter(user, countFrom);
      QueryCountsTrailingRun(log, user, windowStart);
    }

    /** Records the wrong password, then sets the counter to the trailing run and locks at five. */
    method RegisterFailure(user: UserId, now: Time, counted: Time)
      requires user in accounts && counted >= now
      requires Ordered(log) && forall e | e in log :: e.occurredAt < now
      modifies this
      ensures log == old(log) + [Entry(user, AUTH_LOGIN, FAILURE, BAD_PASSWORD, now)] && Ordered(log)
      ensures var run := TrailingFailures(log, user, counted - 900_000);
        accounts == old(accounts)[user := old(accounts)[user].(
          failedLogins := run,
          lockedUntil := if run >= 5 then Some(counted + 1_800_000) else old(accounts)[user].lockedUntil)]
    {
      log := log + [Entry(user, AUTH_LOGIN, FAILURE, BAD_PASSWORD, now)];
      var failures := CountRecentFailures(user, counted - WINDOW);
      var account := accounts[user].(failedLogins := failures);
      if failures >= MAX_FAILURES { account := account.(lockedUntil := Some(counted + LOCKOUT)); }
      accounts := accounts[user := account];
    }

    /**
     * One whole attempt with nothing in between: what the charged account's lock, the password and
     * its status decide, in that order, and what each outcome writes.
     */
    method Login(candidates: seq<UserId>, verify: UserId -> bool, now: Time, counted: Time) returns (r: LoginResult)
      requires forall c | c in candidates :: c in accounts
      requires counted >= now && Ordered(log) && forall e | e in log :: e.occurredAt < now
      modifies this
      ensures Ordered(log)
      ensures match Charged(candidates, verify)
        case None => r.Unauthorized? && log == old(log) && accounts == old(accounts)
        case Some((user, matched)) =>
          && user in old(accounts)
          && var was := old(accounts)[user];
             if IsLocked(was.lockedUntil, now) then
               r.Unauthorized? && accounts == old(accounts)
               && log == old(log) + [Entry(user, AUTH_LOGIN, FAILURE, LOCKED, now)]
             else if !matched then
               r.Unauthorized? && log == old(log) + [Entry(user, AUTH_LOGIN, FAILURE, BAD_PASSWORD, now)]
               && var run := TrailingFailures(log, user, counted - 900_000);
                  accounts == old(accounts)[user := was.(
                    failedLogins := run,
                    lockedUntil := if run >= 5 then Some(counted + 1_800_000) else was.lockedUntil)]
             else if was.status.SUSPENDED? then
               r.Unauthorized? && accounts == old(accounts)
               && log == old(log) + [Entry(user, AUTH_LOGIN, FAILURE, STATUS_SUSPENDED, now)]
             else
               r == SignedIn(user, was.status.INVITED?)
               && accounts == old(accounts)[user := was.(failedLogins := 0, lockedUntil := None)]
               && log == old(log) + [Entry(user, AUTH_LOGIN, SUCCESS, NoReason, now)]
    {
      var resolved := Resolve(candidates, verify);
      if resolved.None? { return Unauthorized; }
      ChargedIsCandidate(candidates, verify);
      var (user, matched) := resolved.value;
      var row := accounts[user];
      if row.lockedUntil.Some? && row.lockedUntil.value > now {
        log := log + [Entry(user, AUTH_LOGIN, FAILURE, LOCKED, now)];
        return Unauthorized;
      }
      if !matched {
        RegisterFailure(user, now, counted);
        return Unauthorized;
      }
      if row.status.SUSPENDED? {
        log := log + [Entry(user, AUTH_LOGIN, FAILURE, STATUS_SUSPENDED, now)];
        return Unauthorized;
      }
      accounts := accounts[user := row.(failedLogins := 0, lockedUntil := None)];
      log := log + [Entry(user, AUTH_LOGIN, SUCCESS, NoReason, now)];
      return SignedIn(user, row.status.INVITED?);
    }

    /** The lock-clearing part of setting a password from an emailed link: no sign-in entry is written. */
    method ClearLock(user: UserId, now: Time)
      requires user in accounts && Ordered(log) && forall e | e in log :: e.occurredAt < now
      modifies this
      ensures accounts == old(accounts)[user := Account(ACTIVE, 0, None)]
      ensures log == old(log) + [Entry(user, AUTH_PASSWORD_SET, SUCCESS, NoReason, now)] && Ordered(log)
      // the failures behind the cleared lock still count against the next one
      ensures forall w: Time :: TrailingFailures(log, user, w) == TrailingFailures(old(log), user, w)
    {
      accounts := accounts[user := Account(ACTIVE, 0, None)];
      log := log + [Entry(user, AUTH_PASSWORD_SET, SUCCESS, NoReason, now)];
      forall w: Time ensures TrailingFailures(log, user, w) == TrailingFailures(old(log), user, w) {
        TrailingAppend(old(log), log[|old(log)|], user, w);
      }
    }
  }
}
