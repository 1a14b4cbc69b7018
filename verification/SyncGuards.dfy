/**
 * The same protocol with the pull's two writes conditional on what is stored: what a version test in
 * the update itself, instead of one in an earlier transaction, would give.
 */
module SyncGuards {
  import opened Common
  import opened ZohoRecords
  import opened SyncProtocol
  import opened SyncLines

  /** A version no newer than the stored one is not written, and line items no newer than the stored ones are not stored. */
  ghost function NextGuarded(s: State, step: Step, now: Time): State {
    if step.Write? && Ready(s, step.pull) && WriteRefused(s, s.pulls[step.pull].work.value) then
      WithPull(s.(clock := now), step.pull, s.pulls[step.pull].(work := None))
    else if step.Refresh? && RefreshRefused(s, step.pull) then
      WithPull(s.(clock := now), step.pull, s.pulls[step.pull].(work := Some(s.pulls[step.pull].work.value.(stale := false))))
    else Next(s, step, now)
  }

  predicate WriteRefused(s: State, w: Work) {
    IsOwnPushEcho(Some(w.version), VersionOf(s, w.rec))
  }

  ghost predicate RefreshRefused(s: State, id: PullId) {
    && id in s.pulls && s.pulls[id].work.Some? && s.pulls[id].work.value.stale && s.pulls[id].work.value.rec in s.remote
    && IsOwnPushEcho(Some(RefreshedTo(s, s.pulls[id])), LinesOf(s, s.pulls[id].work.value.rec))
  }

  ghost function RunGuarded(s: State, steps: seq<(Step, Time)>): State {
    if steps == [] then s
    else NextGuarded(RunGuarded(s, steps[..|steps| - 1]), steps[|steps| - 1].0, steps[|steps| - 1].1)
  }

  ghost predicate TicksGuarded(s: State, steps: seq<(Step, Time)>) {
    steps != [] ==>
      && TicksGuarded(s, steps[..|steps| - 1])
      && steps[|steps| - 1].1 > RunGuarded(s, steps[..|steps| - 1]).clock
  }

  // --- Coverage ------------------------------------------------------------------------------

  lemma RefusedWriteKeeps(s: State, id: PullId, now: Time)
    requires Inv(s) && now > s.clock && Ready(s, id) && WriteRefused(s, s.pulls[id].work.value)
    ensures Inv(NextGuarded(s, Write(id), now))
  {
    var t := NextGuarded(s, Write(id), now);
    LaterKeeps(s, now);
    assert TimedPull(s, s.pulls[id]);
    TimedKept(s, t);
    OwnEntryKeeps(s.(clock := now), t, id);
  }

  lemma RefusedRefreshKeeps(s: State, id: PullId, now: Time)
    requires Inv(s) && now > s.clock && RefreshRefused(s, id)
    ensures Inv(NextGuarded(s, Refresh(id), now))
  {
    var t := NextGuarded(s, Refresh(id), now);
    LaterKeeps(s, now);
    assert TimedPull(s, s.pulls[id]);
    TimedKept(s, t);
    OwnEntryKeeps(s.(clock := now), t, id);
  }

  lemma GuardedStepKeeps(s: State, step: Step, now: Time)
    requires Inv(s) && now > s.clock
    ensures Inv(NextGuarded(s, step, now))
  {
    if step.Write? && Ready(s, step.pull) && WriteRefused(s, s.pulls[step.pull].work.value) {
      RefusedWriteKeeps(s, step.pull, now);
    } else if step.Refresh? && RefreshRefused(s, step.pull) {
      RefusedRefreshKeeps(s, step.pull, now);
    } else {
      StepKeepsIff(s, step, now);
    }
  }

  lemma {:induction false} GuardedRunKeeps(s: State, steps: seq<(Step, Time)>)
    requires Initial(s) && TicksGuarded(s, steps)
    ensures Inv(RunGuarded(s, steps))
  {
    if steps == [] {
      InitialCovered(s);
    } else {
      GuardedRunKeeps(s, steps[..|steps| - 1]);
      GuardedStepKeeps(RunGuarded(s, steps[..|steps| - 1]), steps[|steps| - 1].0, steps[|steps| - 1].1);
    }
  }

  /**
   * With the header's write conditional no update is ever lost, whatever overlaps: what Zoho last
   * changed before the cursor is stored at exactly that version, or that version's failure is on record.
   */
  lemma ConditionalWritesLoseNothing(s: State, steps: seq<(Step, Time)>, r: Rec)
    requires Initial(s) && TicksGuarded(s, steps)
    ensures var t := RunGuarded(s, steps);
      r in t.remote && Before(t.remote[r].mtime, t.cursor) ==>
        || VersionOf(t, r) == Some(t.remote[r].mtime)
        || Item(r, t.remote[r].mtime) in t.failed
  {
    GuardedRunKeeps(s, steps);
    CoveredMeans(RunGuarded(s, steps), r);
  }

  // --- Line items ----------------------------------------------------------------------------

  /** Work that waits for a refresh has line items to refresh; other work finds them at least as new as itself, if there are any. */
  ghost predicate WorkLines(s: State, w: Work) {
    if w.stale then LinesOf(s, w.rec).Some? else LinesOf(s, w.rec).Some? ==> w.version <= LinesOf(s, w.rec).value
  }

  ghost predicate LinesInv(s: State) {
    LinesTrue(s) && forall id | id in s.pulls && s.pulls[id].work.Some? :: WorkLines(s, s.pulls[id].work.value)
  }

  /** Line items only get newer, and the first ones of a record are Zoho's current ones or the platform's own. */
  lemma LinesMove(s: State, step: Step, now: Time, r: Rec)
    requires Timed(s) && LinesInv(s) && now > s.clock
    ensures var t := NextGuarded(s, step, now);
      && (LinesOf(s, r).Some? ==> LinesOf(t, r).Some? && LinesOf(t, r).value >= LinesOf(s, r).value)
      && (LinesOf(s, r).None? && LinesOf(t, r).Some? && r in s.remote ==> LinesOf(t, r).value >= s.remote[r].mtime)
  {
    if step.Refresh? {
      RefreshLinesMove(s, step.pull, now, r);
    } else if r in s.rows {
      assert TimedRow(s, r);
    }
  }

  lemma RefreshLinesMove(s: State, id: PullId, now: Time, r: Rec)
    requires Timed(s) && LinesInv(s)
    ensures var t := NextGuarded(s, Refresh(id), now);
      && (LinesOf(s, r).Some? ==> LinesOf(t, r).Some? && LinesOf(t, r).value >= LinesOf(s, r).value)
      && (LinesOf(s, r).None? ==> LinesOf(t, r).None?)
  {
    if id in s.pulls && s.pulls[id].work.Some? {
      assert WorkLines(s, s.pulls[id].work.value);
    }
  }

  /** Work a pull had before the step, as it was or just refreshed, or work from its check. */
  lemma PullWorkLines(s: State, step: Step, now: Time, id: PullId)
    requires Timed(s) && LinesInv(s) && now > s.clock
    requires var t := NextGuarded(s, step, now); id in t.pulls && t.pulls[id].work.Some?
    ensures var t := NextGuarded(s, step, now); WorkLines(t, t.pulls[id].work.value)
  {
    var t := NextGuarded(s, step, now);
    var w := t.pulls[id].work.value;
    if id in s.pulls && s.pulls[id].work == Some(w) {
      LinesMove(s, step, now, w.rec);
      assert TimedPull(s, s.pulls[id]) && WorkLines(s, w);
      KeptWorkLines(s, t, w);
    } else if step.Refresh? {
      RefreshWorks(s, now, step.pull, id);
      RefreshedWorkLines(s, id, now);
    } else {
      CheckedWorkLines(s, step, now, id);
    }
  }

  lemma KeptWorkLines(s: State, t: State, w: Work)
    requires WorkLines(s, w) && w.rec in s.remote && w.version <= s.remote[w.rec].mtime
    requires LinesOf(s, w.rec).Some? ==> LinesOf(t, w.rec).Some? && LinesOf(t, w.rec).value >= LinesOf(s, w.rec).value
    requires LinesOf(s, w.rec).None? && LinesOf(t, w.rec).Some? ==> LinesOf(t, w.rec).value >= s.remote[w.rec].mtime
    ensures WorkLines(t, w)
  {
  }

  lemma RefreshWorks(s: State, now: Time, q: PullId, id: PullId)
    requires var t := NextGuarded(s, Refresh(q), now);
      && id in t.pulls && t.pulls[id].work.Some? && !(id in s.pulls && s.pulls[id].work == t.pulls[id].work)
    ensures q == id && id in s.pulls && s.pulls[id].work.Some? && s.pulls[id].work.value.stale
  {
  }

  lemma CheckedWorkLines(s: State, step: Step, now: Time, id: PullId)
    requires !step.Refresh?
    requires var t := NextGuarded(s, step, now);
      && id in t.pulls && t.pulls[id].work.Some? && !(id in s.pulls && s.pulls[id].work == t.pulls[id].work)
    ensures var t := NextGuarded(s, step, now); WorkLines(t, t.pulls[id].work.value)
  {
    assert step.Check?;
  }

  lemma RefreshedWorkLines(s: State, id: PullId, now: Time)
    requires Timed(s) && LinesInv(s) && id in s.pulls && s.pulls[id].work.Some? && s.pulls[id].work.value.stale
    ensures var t := NextGuarded(s, Refresh(id), now); t.pulls[id].work.Some? ==> WorkLines(t, t.pulls[id].work.value)
  {
    assert TimedPull(s, s.pulls[id]) && WorkLines(s, s.pulls[id].work.value);
  }

  lemma GuardedStepKeepsLines(s: State, step: Step, now: Time)
    requires Timed(s) && LinesInv(s) && now > s.clock
    ensures LinesInv(NextGuarded(s, step, now))
  {
    var t := NextGuarded(s, step, now);
    forall id | id in t.pulls && t.pulls[id].work.Some? ensures WorkLines(t, t.pulls[id].work.value) {
      PullWorkLines(s, step, now, id);
    }
    GuardedRowsTrue(s, step, now);
  }

  lemma GuardedRowsTrue(s: State, step: Step, now: Time)
    requires Timed(s) && LinesInv(s)
    ensures LinesTrue(NextGuarded(s, step, now))
  {
    var t := NextGuarded(s, step, now);
    if t == Next(s, step, now) {
      if (step.Write? || step.Refresh?) && step.pull in s.pulls && s.pulls[step.pull].work.Some? {
        var w := s.pulls[step.pull].work.value;
        assert WorkLines(s, w) && TrueRow(s, w.rec);
      }
      StepKeepsLinesIff(s, step, now);
    } else {
      forall r ensures TrueRow(t, r) {
        assert TrueRow(s, r);
      }
    }
  }

  /** With both writes conditional, line items are never behind the version beside them. */
  lemma {:induction false} ConditionalWritesKeepLines(s: State, steps: seq<(Step, Time)>)
    requires Initial(s) && TicksGuarded(s, steps)
    ensures LinesInv(RunGuarded(s, steps))
  {
    if steps != [] {
      var prefix := steps[..|steps| - 1];
      ConditionalWritesKeepLines(s, prefix);
      GuardedRunKeeps(s, prefix);
      GuardedStepKeepsLines(RunGuarded(s, prefix), steps[|steps| - 1].0, steps[|steps| - 1].1);
    }
  }
}
