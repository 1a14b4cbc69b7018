/** Line items and their version over whole runs, and pulls that find nothing new. */
module SyncLines {
  import opened Common
  import opened ZohoRecords
  import opened SyncProtocol
  import opened SyncWriters
  import opened SyncEchoes
  import opened SyncMasks

  // --- The steps that leave line items behind their version ------------------------------------

  /** The line items are at least as new as the version beside them. */
  ghost predicate TrueRow(s: State, r: Rec) {
    VersionOf(s, r).Some? && LinesOf(s, r).Some? ==> VersionOf(s, r).value <= LinesOf(s, r).value
  }

  ghost predicate LinesTrue(s: State) {
    forall r :: TrueRow(s, r)
  }

  /** The version whose line items a refresh stores: a scheduled pull fetches them now, a targeted one has them already. */
  ghost function RefreshedTo(s: State, p: Pull): Time
    requires p.work.Some? && p.work.value.rec in s.remote
  {
    if p.scheduled then s.remote[p.work.value.rec].mtime else p.work.value.version
  }

  /** A refresh with line items older than the stored version, or a header's write newer than the stored line items. */
  ghost predicate LeavesLinesBehind(s: State, step: Step) {
    || (step.Refresh? && step.pull in s.pulls && s.pulls[step.pull].work.Some? && s.pulls[step.pull].work.value.stale
        && var r := s.pulls[step.pull].work.value.rec;
           r in s.remote && VersionOf(s, r).Some? && RefreshedTo(s, s.pulls[step.pull]) < VersionOf(s, r).value)
    || (step.Write? && Ready(s, step.pull)
        && var w := s.pulls[step.pull].work.value; LinesOf(s, w.rec).Some? && LinesOf(s, w.rec).value < w.version)
  }

  /** While all line items are as new as their versions, a step keeps them so exactly when it is neither of those two. */
  lemma StepKeepsLinesIff(s: State, step: Step, now: Time)
    requires Timed(s) && LinesTrue(s)
    ensures LinesTrue(Next(s, step, now)) <==> !LeavesLinesBehind(s, step)
  {
    if (step.Refresh? || step.Write?) && step.pull in s.pulls && s.pulls[step.pull].work.Some? {
      var r := s.pulls[step.pull].work.value.rec;
      assert TimedPull(s, s.pulls[step.pull]) && TrueRow(s, r);
      OneRowChanges(s, step, now, r);
    } else {
      OtherStepKeepsLines(s, step, now);
    }
  }

  lemma OtherStepKeepsLines(s: State, step: Step, now: Time)
    requires Timed(s) && LinesTrue(s)
    requires step.Refresh? || step.Write? ==> step.pull !in s.pulls || s.pulls[step.pull].work.None?
    ensures LinesTrue(Next(s, step, now))
  {
    var t := Next(s, step, now);
    forall r ensures TrueRow(t, r) {
      assert TrueRow(s, r);
      if r in s.rows { assert TimedRow(s, r); }
    }
  }

  lemma OneRowChanges(s: State, step: Step, now: Time, r: Rec)
    requires LinesTrue(s) && (step.Refresh? || step.Write?)
    requires step.pull in s.pulls && s.pulls[step.pull].work.Some? && s.pulls[step.pull].work.value.rec == r
    ensures LinesTrue(Next(s, step, now)) <==> TrueRow(Next(s, step, now), r)
  {
    var t := Next(s, step, now);
    if TrueRow(t, r) {
      forall q ensures TrueRow(t, q) {
        assert TrueRow(s, q);
      }
    }
  }

  ghost predicate LinesKept(s: State, steps: seq<(Step, Time)>) {
    forall k | 0 <= k < |steps| :: !LeavesLinesBehind(Run(s, steps[..k]), steps[k].0)
  }

  ghost predicate LinesTrueThroughout(s: State, steps: seq<(Step, Time)>) {
    forall k | 0 <= k <= |steps| :: LinesTrue(Run(s, steps[..k]))
  }

  lemma {:induction false} KeptIsTrue(s: State, steps: seq<(Step, Time)>)
    requires Initial(s) && Ticks(s, steps) && LinesKept(s, steps)
    ensures LinesTrue(Run(s, steps))
  {
    if steps != [] {
      var prefix := steps[..|steps| - 1];
      forall k | 0 <= k < |prefix| ensures !LeavesLinesBehind(Run(s, prefix[..k]), prefix[k].0) {
        assert prefix[..k] == steps[..k];
      }
      KeptIsTrue(s, prefix);
      RunTimed(s, prefix);
      assert steps[..|steps| - 1] == prefix;
      StepKeepsLinesIff(Run(s, prefix), steps[|steps| - 1].0, steps[|steps| - 1].1);
    }
  }

  /** Over any run, all line items stay as new as their versions exactly when no step is one of those two. */
  lemma LinesNeverBehindIff(s: State, steps: seq<(Step, Time)>)
    requires Initial(s) && Ticks(s, steps)
    ensures LinesTrueThroughout(s, steps) <==> LinesKept(s, steps)
  {
    if LinesKept(s, steps) {
      forall k | 0 <= k <= |steps| ensures LinesTrue(Run(s, steps[..k])) {
        TicksPrefix(s, steps, k);
        forall j | 0 <= j < k ensures !LeavesLinesBehind(Run(s, steps[..k][..j]), steps[..k][j].0) {
          assert steps[..k][..j] == steps[..j];
        }
        KeptIsTrue(s, steps[..k]);
      }
    }
    if LinesTrueThroughout(s, steps) {
      forall k | 0 <= k < |steps| ensures !LeavesLinesBehind(Run(s, steps[..k]), steps[k].0) {
        TicksPrefix(s, steps, k);
        RunTimed(s, steps[..k]);
        assert LinesTrue(Run(s, steps[..k])) && LinesTrue(Run(s, steps[..k + 1]));
        assert steps[..k + 1][..k] == steps[..k];
        StepKeepsLinesIff(Run(s, steps[..k]), steps[k].0, steps[k].1);
      }
    }
  }

  /** After such a run, an up-to-date version means up-to-date line items. */
  lemma LinesNeverBehind(s: State, steps: seq<(Step, Time)>, r: Rec)
    requires Initial(s) && Ticks(s, steps) && LinesKept(s, steps)
    ensures var t := Run(s, steps);
      r in t.rows && r in t.remote && t.rows[r].version == Some(t.remote[r].mtime) && t.rows[r].lines.Some? ==>
        t.rows[r].lines == Some(t.remote[r].mtime)
  {
    RunTimed(s, steps);
    KeptIsTrue(s, steps);
    LinesCurrent(Run(s, steps), r);
  }

  lemma LinesCurrent(t: State, r: Rec)
    requires Timed(t) && LinesTrue(t)
    ensures r in t.rows && r in t.remote && t.rows[r].version == Some(t.remote[r].mtime) && t.rows[r].lines.Some? ==>
      t.rows[r].lines == Some(t.remote[r].mtime)
  {
    assert TrueRow(t, r);
    if r in t.rows { assert TimedRow(t, r); }
  }

  /**
   * From any state with a targeted pull about to refresh: a push and then that pull's refresh leave
   * Zoho's current version beside older line items.
   */
  lemma PushBeforeRefreshLeavesOldLines(s: State, r: Rec, id: PullId, now: Time)
    requires Timed(s) && now > s.clock && id in s.pulls && !s.pulls[id].scheduled
    requires s.pulls[id].work.Some? && s.pulls[id].work.value.rec == r && s.pulls[id].work.value.stale
    ensures var pushed := Next(s, Push(r), now); var t := Next(pushed, Refresh(id), now + 1);
      && LeavesLinesBehind(pushed, Refresh(id))
      && VersionOf(t, r) == Some(t.remote[r].mtime) && LinesOf(t, r) == Some(s.pulls[id].work.value.version)
      && s.pulls[id].work.value.version < t.remote[r].mtime
  {
    assert TimedPull(s, s.pulls[id]);
  }

  // --- One writer and pushes apart are enough ----------------------------------------------------

  /** No stamped push lands on a record between a pull's check of it and its write. */
  ghost predicate PushesApart(s: State, step: Step) {
    step.Push? ==> !WorkedOn(s, step.rec)
  }

  ghost predicate PushesApartThroughout(s: State, steps: seq<(Step, Time)>) {
    forall k | 0 <= k < |steps| :: PushesApart(Run(s, steps[..k]), steps[k].0)
  }

  /** A pending write is newer than the row, and once refreshed its line items are as new as itself. */
  ghost predicate TrueWork(s: State, w: Work) {
    && (VersionOf(s, w.rec).Some? ==> VersionOf(s, w.rec).value < w.version)
    && (!w.stale && LinesOf(s, w.rec).Some? ==> w.version <= LinesOf(s, w.rec).value)
  }

  ghost predicate True(s: State) {
    && LinesTrue(s)
    && (forall id | id in s.pulls && s.pulls[id].work.Some? :: TrueWork(s, s.pulls[id].work.value))
  }

  // --- Every step keeps it -----------------------------------------------------------------

  /** Rows stay, and the only pending work that is new is true. */
  lemma SameRowsTrue(s: State, t: State)
    requires True(s) && t.rows == s.rows
    requires forall id | id in t.pulls && t.pulls[id].work.Some? ::
      TrueWork(s, t.pulls[id].work.value) || (id in s.pulls && s.pulls[id].work == t.pulls[id].work)
    ensures True(t)
  {
    forall r ensures TrueRow(t, r) {
      assert TrueRow(s, r);
    }
    forall id | id in t.pulls && t.pulls[id].work.Some? ensures TrueWork(t, t.pulls[id].work.value) {
      assert TrueWork(s, t.pulls[id].work.value);
    }
  }

  /** One row changes truly, and whatever works on it stays true. */
  lemma RowTrue(s: State, t: State, r: Rec)
    requires True(s) && TrueRow(t, r)
    requires forall q | q != r :: VersionOf(t, q) == VersionOf(s, q) && LinesOf(t, q) == LinesOf(s, q)
    requires forall id | id in t.pulls && t.pulls[id].work.Some? ::
      id in s.pulls && s.pulls[id].work.Some? && (s.pulls[id].work == t.pulls[id].work || t.pulls[id].work.value.rec == r)
    requires forall id | id in t.pulls && t.pulls[id].work.Some? && t.pulls[id].work.value.rec == r ::
      TrueWork(t, t.pulls[id].work.value)
    ensures True(t)
  {
    forall q ensures TrueRow(t, q) {
      assert TrueRow(s, q);
    }
    forall id | id in t.pulls && t.pulls[id].work.Some? ensures TrueWork(t, t.pulls[id].work.value) {
      if t.pulls[id].work.value.rec != r { assert TrueWork(s, s.pulls[id].work.value); }
    }
  }

  /** The row of a write or an enrichment: nobody at work on it is older than the new line items. */
  lemma RemoteWriteTrue(s: State, step: Step, now: Time)
    requires Timed(s) && True(s) && now > s.clock && IsRemoteWrite(step) && PushesApart(s, step)
    ensures True(Next(s, step, now))
  {
    var t := Next(s, step, now);
    if step.Edit? || step.Touch? {
      SameRowsTrue(s, t);
    } else {
      forall id | id in t.pulls && t.pulls[id].work.Some? && t.pulls[id].work.value.rec == step.rec
        ensures TrueWork(t, t.pulls[id].work.value)
      {
        assert TimedPull(s, s.pulls[id]);
        assert step.PushUnstamped?;
      }
      RowTrue(s, t, step.rec);
    }
  }

  lemma EnrichTrue(s: State, r: Rec, now: Time)
    requires Timed(s) && True(s)
    ensures True(Next(s, Enrich(r), now))
  {
    var t := Next(s, Enrich(r), now);
    if r in s.rows && r in s.remote && s.rows[r].lines.None? {
      assert TimedRow(s, r);
      forall id | id in t.pulls && t.pulls[id].work.Some? && t.pulls[id].work.value.rec == r
        ensures TrueWork(t, t.pulls[id].work.value)
      {
        assert TimedPull(s, s.pulls[id]) && TrueWork(s, s.pulls[id].work.value);
      }
      RowTrue(s, t, r);
    } else {
      SameRowsTrue(s, t);
    }
  }

  lemma RefreshTrue(s: State, id: PullId)
    requires Timed(s) && Alone(s) && True(s) && id in s.pulls
    ensures True(PullNext(s, Refresh(id), s.pulls[id]))
  {
    var p, t := s.pulls[id], PullNext(s, Refresh(id), s.pulls[id]);
    if p.work.Some? && p.work.value.rec in s.rows && p.work.value.rec in s.remote {
      var w := p.work.value;
      assert TimedPull(s, p) && TimedRow(s, w.rec) && TrueWork(s, w);
      forall q | q in t.pulls && t.pulls[q].work.Some? && t.pulls[q].work.value.rec == w.rec
        ensures TrueWork(t, t.pulls[q].work.value)
      {
        assert q == id;
      }
      RowTrue(s, t, w.rec);
    }
  }

  lemma WriteTrue(s: State, id: PullId)
    requires Alone(s) && True(s) && id in s.pulls
    ensures True(PullNext(s, Write(id), s.pulls[id]))
  {
    var p, t := s.pulls[id], PullNext(s, Write(id), s.pulls[id]);
    if p.work.Some? && !p.work.value.stale {
      assert TrueWork(s, p.work.value);
      assert forall q | q in t.pulls && t.pulls[q].work.Some? :: q != id && s.pulls[q].work.Some?;
      RowTrue(s, t, p.work.value.rec);
    }
  }

  lemma StepTrue(s: State, step: Step, now: Time)
    requires Timed(s) && Alone(s) && True(s) && now > s.clock && PushesApart(s, step)
    ensures True(Next(s, step, now))
  {
    var t := s.(clock := now);
    if IsRemoteWrite(step) {
      RemoteWriteTrue(s, step, now);
    } else if step.Enrich? {
      EnrichTrue(s, step.rec, now);
    } else if step.Refresh? && step.pull in s.pulls {
      LaterTimed(s, now);
      SameRowsTrue(s, t);
      RefreshTrue(t, step.pull);
    } else if step.Write? && step.pull in s.pulls {
      SameRowsTrue(s, t);
      WriteTrue(t, step.pull);
    } else {
      SameRowsTrue(s, Next(s, step, now));
    }
  }

  lemma {:induction false} RunTrue(s: State, steps: seq<(Step, Time)>)
    requires Initial(s) && Ticks(s, steps) && OneWriterThroughout(s, steps) && PushesApartThroughout(s, steps)
    ensures Timed(Run(s, steps)) && Alone(Run(s, steps)) && True(Run(s, steps))
  {
    OneWriterLosesNothing(s, steps);
    if steps != [] {
      var prefix := steps[..|steps| - 1];
      forall k | 0 <= k < |prefix|
        ensures OneWriter(Run(s, prefix[..k]), prefix[k].0) && PushesApart(Run(s, prefix[..k]), prefix[k].0)
      {
        assert prefix[..k] == steps[..k];
      }
      RunTrue(s, prefix);
      assert steps[..|steps| - 1] == prefix;
      StepTrue(Run(s, prefix), steps[|steps| - 1].0, steps[|steps| - 1].1);
    }
  }

  lemma PrefixSeparate(s: State, steps: seq<(Step, Time)>, k: nat)
    requires Initial(s) && Ticks(s, steps) && OneWriterThroughout(s, steps) && PushesApartThroughout(s, steps) && k <= |steps|
    ensures True(Run(s, steps[..k])) && Timed(Run(s, steps[..k]))
  {
    TicksPrefix(s, steps, k);
    forall j | 0 <= j < k
      ensures OneWriter(Run(s, steps[..k][..j]), steps[..k][j].0) && PushesApart(Run(s, steps[..k][..j]), steps[..k][j].0)
    {
      assert steps[..k][..j] == steps[..j];
    }
    RunTrue(s, steps[..k]);
  }

  /** Neither step occurs with one writer per record and stamped pushes apart from pending writes. */
  lemma SeparateWritersKeepLines(s: State, steps: seq<(Step, Time)>)
    requires Initial(s) && Ticks(s, steps) && OneWriterThroughout(s, steps) && PushesApartThroughout(s, steps)
    ensures LinesKept(s, steps)
  {
    forall k | 0 <= k < |steps| ensures !LeavesLinesBehind(Run(s, steps[..k]), steps[k].0) {
      PrefixSeparate(s, steps, k);
      PrefixSeparate(s, steps, k + 1);
      StillTrue(s, steps, k);
    }
  }

  lemma StillTrue(s: State, steps: seq<(Step, Time)>, k: nat)
    requires k < |steps| && Timed(Run(s, steps[..k])) && LinesTrue(Run(s, steps[..k])) && LinesTrue(Run(s, steps[..k + 1]))
    ensures !LeavesLinesBehind(Run(s, steps[..k]), steps[k].0)
  {
    assert steps[..k + 1][..k] == steps[..k];
    StepKeepsLinesIff(Run(s, steps[..k]), steps[k].0, steps[k].1);
  }

  /** With one writer per record and stamped pushes apart, a versioned row is rewritten only for a foreign edit or an unstamped own write. */
  lemma PullsRewriteOnlyForeignEdits(s: State, steps: seq<(Step, Time)>, step: Step, now: Time, r: Rec, x: Time)
    requires Initial(s) && Ticks(s, steps) && OneWriterThroughout(s, steps) && PushesApartThroughout(s, steps)
    requires VersionOf(Run(s, steps), r) == Some(x) && (step.Refresh? || step.Write?)
    requires Next(Run(s, steps), step, now).rows[r] != Run(s, steps).rows[r]
    ensures r in Run(s, steps).remote && (Run(s, steps).remote[r].foreign > x || UnstampedSince(s, steps, r, x))
  {
    RunTrue(s, steps);
    RewriteIsNewer(Run(s, steps), step, now, r, x);
    RewritesAreExplained(s, steps, step, now, r, x);
  }

  lemma RewriteIsNewer(t: State, step: Step, now: Time, r: Rec, x: Time)
    requires Timed(t) && True(t) && VersionOf(t, r) == Some(x) && (step.Refresh? || step.Write?)
    requires Next(t, step, now).rows[r] != t.rows[r]
    ensures step.pull in t.pulls && t.pulls[step.pull].work.Some? && t.pulls[step.pull].work.value.version > x
  {
    WorkIsKnown(t, step, now, r);
    assert TrueWork(t, t.pulls[step.pull].work.value);
  }

  // --- A second pull with nothing new ------------------------------------------------------------

  /** Every record is stored at Zoho's version and no pull is about to write. */
  ghost predicate Settled(s: State) {
    && (forall r | r in s.remote :: VersionOf(s, r).Some? && VersionOf(s, r).value >= s.remote[r].mtime)
    && (forall id | id in s.pulls :: s.pulls[id].work.None?)
  }

  lemma SettledStep(s: State, step: Step, now: Time)
    requires Timed(s) && Settled(s) && IsPullStep(step)
    ensures var t := Next(s, step, now); t.remote == s.remote && t.rows == s.rows && t.failed == s.failed && Settled(t)
  {
    if step.Check? && step.pull in s.pulls {
      assert TimedPull(s, s.pulls[step.pull]);
      if step.item in s.pulls[step.pull].todo { assert KnownItem(s, step.item); }
    }
  }

  lemma {:induction false} SettledRun(s: State, steps: seq<(Step, Time)>)
    requires Timed(s) && Settled(s) && Ticks(s, steps) && forall k | 0 <= k < |steps| :: IsPullStep(steps[k].0)
    ensures var t := Run(s, steps); Timed(t) && Settled(t) && t.rows == s.rows && t.failed == s.failed
  {
    if steps != [] {
      var before, last := steps[..|steps| - 1], steps[|steps| - 1];
      SettledRun(s, before);
      StepTimed(Run(s, before), last.0, last.1);
      SettledStep(Run(s, before), last.0, last.1);
    }
  }

  lemma CoveredSettles(t: State)
    requires Inv(t)
    requires forall r | r in t.remote :: Before(t.remote[r].mtime, t.cursor) && Item(r, t.remote[r].mtime) !in t.failed
    requires forall id | id in t.pulls :: t.pulls[id].work.None?
    ensures Settled(t)
  {
    forall r | r in t.remote ensures VersionOf(t, r).Some? && VersionOf(t, r).value >= t.remote[r].mtime {
      assert Held(t, r);
    }
  }

  /**
   * After a pull that covered everything without a recorded failure, any further pulls, scheduled
   * or targeted, write nothing at all while nobody edits and nobody pushes.
   */
  lemma SecondPullIsNoOp(s: State, first: seq<(Step, Time)>, second: seq<(Step, Time)>)
    requires Initial(s) && Ticks(s, first) && LosesNothing(s, first)
    requires var t := Run(s, first);
      && (forall r | r in t.remote :: Before(t.remote[r].mtime, t.cursor) && Item(r, t.remote[r].mtime) !in t.failed)
      && (forall id | id in t.pulls :: t.pulls[id].work.None?)
      && Ticks(t, second) && forall k | 0 <= k < |second| :: IsPullStep(second[k].0)
    ensures Run(Run(s, first), second).rows == Run(s, first).rows
    ensures Run(Run(s, first), second).failed == Run(s, first).failed
  {
    InitialCovered(s);
    LosesNothingCovered(s, first);
    CoveredSettles(Run(s, first));
    SettledRun(Run(s, first), second);
  }
}
