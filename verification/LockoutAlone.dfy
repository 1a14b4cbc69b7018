/** Sign-in attempts whose steps nothing comes between, and what clearing a lock does. */
module LockoutAlone {
  import opened Common
  import opened Lockout

  /** A check that refuses at once writes its entry and nothing else. */
  lemma RefusedAtOnce(s: State, user: UserId, op: nat, matched: bool, suspended: bool, now: Time)
    requires s.mark <= |s.log| && op !in s.flights
    ensures var locked := s.lockedUntil.Some? && s.lockedUntil.value > now;
      var checked := Next(s, user, Check(op, matched, suspended), now);
      && (checked.log != s.log <==> locked || (matched && suspended))
      && (checked.log != s.log ==>
            checked == s.(clock := now, log := s.log
              + [Entry(user, AUTH_LOGIN, FAILURE, if locked then LOCKED else STATUS_SUSPENDED, now)]))
  {
  }

  /**
   * A wrong password whose steps nothing comes between: the fifth failure of the trailing run inside
   * fifteen minutes locks the account for thirty.
   */
  lemma UndisturbedFailure(s: State, user: UserId, op: nat, suspended: bool, read: Time, written: Time, counted: Time)
    requires s.mark <= |s.log| && op !in s.flights && Ordered(s.log) && forall e | e in s.log :: e.occurredAt < written
    requires read <= written <= counted && !(s.lockedUntil.Some? && s.lockedUntil.value > read)
    ensures var recorded := Next(Next(s, user, Check(op, false, suspended), read), user, Record(op), written);
      var after := Next(recorded, user, Count(op, counted), counted);
      && after.flights == s.flights && after.log == s.log + [Entry(user, AUTH_LOGIN, FAILURE, BAD_PASSWORD, written)]
      && after.lockedUntil == if TrailingFailures(after.log, user, counted - 900_000) >= 5
                              then Some(counted + 1_800_000) else s.lockedUntil
  {
    var log := s.log + [Entry(user, AUTH_LOGIN, FAILURE, BAD_PASSWORD, written)];
    var recorded := Next(Next(s, user, Check(op, false, suspended), read), user, Record(op), written);
    assert recorded.log == log && recorded.flights == s.flights[op := Recorded] && recorded.lockedUntil == s.lockedUntil;
    QueryCountsTrailingRun(log, user, counted - WINDOW);
    assert recorded.flights - {op} == s.flights;
  }

  /** A right one whose steps nothing comes between clears the lock and records its success. */
  lemma UndisturbedSuccess(s: State, user: UserId, op: nat, read: Time, cleared: Time, written: Time)
    requires s.mark <= |s.log| && op !in s.flights && !(s.lockedUntil.Some? && s.lockedUntil.value > read)
    ensures var unlocked := Next(Next(s, user, Check(op, true, false), read), user, Unlock(op), cleared);
      var after := Next(unlocked, user, Succeed(op), written);
      && unlocked.lockedUntil.None? && unlocked.log == s.log
      && after == s.(clock := written, mark := |s.log| + 1, lockedUntil := None,
                     log := s.log + [Entry(user, AUTH_LOGIN, SUCCESS, NoReason, written)])
  {
    var unlocked := Next(Next(s, user, Check(op, true, false), read), user, Unlock(op), cleared);
    assert unlocked.flights == s.flights[op := Unlocked] && unlocked.flights - {op} == s.flights;
  }

  /** Whatever lock was on, clearing it lets the next attempt through, and writes nothing to the log. */
  lemma ClearLetsIn(s: State, user: UserId, op: nat, matched: bool, cleared: Time, read: Time)
    requires s.mark <= |s.log| && op !in s.flights
    ensures var checked := Next(Next(s, user, Clear, cleared), user, Check(op, matched, false), read);
      && checked.log == s.log && checked.lockedUntil.None?
      && op in checked.flights && checked.flights[op] == if matched then Accepted else Passed
  {
    var open := Next(s, user, Clear, cleared);
    assert open.lockedUntil.None? && open.flights == s.flights && open.log == s.log;
  }
}
