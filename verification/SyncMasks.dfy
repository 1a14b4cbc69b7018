/** What a stamped push hides: the foreign edits not yet read, and for how long. */
module SyncMasks {
  import opened Common
  import opened ZohoRecords
  import opened SyncProtocol
  import opened SyncWriters
  import opened SyncEchoes

  /** Some pull has stored the record at this version or a newer one. */
  ghost predicate Pulled(s: State, steps: seq<(Step, Time)>, r: Rec, f: Time) {
    exists j, v :: Stores(s, steps, j, r, v) && v >= f
  }

  predicate Disturbs(step: Step, r: Rec) {
    IsRemoteWrite(step) && step.rec == r
  }

  /** The run goes on without anyone writing the record in Zoho. */
  ghost predicate Continues(base: seq<(Step, Time)>, more: seq<(Step, Time)>, r: Rec) {
    base <= more && forall k | |base| <= k < |more| :: !Disturbs(more[k].0, r)
  }

  ghost predicate ByPulls(base: seq<(Step, Time)>, more: seq<(Step, Time)>) {
    base <= more && forall k | |base| <= k < |more| :: IsPullStep(more[k].0)
  }

  /** However the run goes on, no pull stores the record at this version or a newer one. */
  ghost predicate Hidden(s: State, base: seq<(Step, Time)>, r: Rec, f: Time) {
    forall more | Ticks(s, more) && Continues(base, more, r) :: !Pulled(s, more, r, f)
  }

  /** The same while nothing but pulls runs. */
  ghost predicate HiddenFromPulls(s: State, base: seq<(Step, Time)>, r: Rec, f: Time) {
    forall more | Ticks(s, more) && ByPulls(base, more) :: !Pulled(s, more, r, f)
  }

  // --- A row at Zoho's own version, with nobody at work on it -------------------------------

  ghost predicate Masked(s: State, r: Rec) {
    && Timed(s) && r in s.remote && !WorkedOn(s, r)
    && VersionOf(s, r).Some? && VersionOf(s, r).value >= s.remote[r].mtime
  }

  /** Nothing but a write in Zoho brings work on it. */
  lemma NoNewWork(s: State, step: Step, now: Time, r: Rec)
    requires Masked(s, r) && now > s.clock && !Disturbs(step, r)
    ensures !WorkedOn(Next(s, step, now), r)
  {
    var t := Next(s, step, now);
    forall id | id in t.pulls && t.pulls[id].work.Some? ensures t.pulls[id].work.value.rec != r {
      if !(id in s.pulls && s.pulls[id].work.Some? && s.pulls[id].work.value.rec == t.pulls[id].work.value.rec) {
        NewWorkPassed(s, step, now, id);
        assert TimedPull(s, s.pulls[id]) && KnownItem(s, step.item);
      }
    }
  }

  lemma QuietRow(s: State, step: Step, now: Time, r: Rec)
    requires Masked(s, r) && !Disturbs(step, r)
    ensures var t := Next(s, step, now);
      && r in t.remote && t.remote[r] == s.remote[r] && VersionOf(t, r) == VersionOf(s, r)
      && (LinesOf(s, r).Some? ==> LinesOf(t, r) == LinesOf(s, r))
  {
    if step.Refresh? || step.Write? {
      assert step.pull in s.pulls && s.pulls[step.pull].work.Some? ==> s.pulls[step.pull].work.value.rec != r;
    }
  }

  lemma {:induction false} MaskedRun(s: State, base: seq<(Step, Time)>, more: seq<(Step, Time)>, r: Rec)
    requires Initial(s) && Ticks(s, more) && Continues(base, more, r) && Masked(Run(s, base), r)
    ensures Masked(Run(s, more), r) && VersionOf(Run(s, more), r) == VersionOf(Run(s, base), r)
    ensures LinesOf(Run(s, base), r).Some? ==> LinesOf(Run(s, more), r) == LinesOf(Run(s, base), r)
    ensures Run(s, more).remote[r] == Run(s, base).remote[r]
    ensures forall j: nat, v | |base| <= j :: !Stores(s, more, j, r, v)
  {
    if |more| == |base| {
      assert more == base;
    } else {
      var prefix, step, now := more[..|more| - 1], more[|more| - 1].0, more[|more| - 1].1;
      assert base <= prefix;
      MaskedRun(s, base, prefix, r);
      var p := Run(s, prefix);
      StepTimed(p, step, now);
      NoNewWork(p, step, now, r);
      QuietRow(p, step, now, r);
      forall j: nat, v | |base| <= j ensures !Stores(s, more, j, r, v) {
        if j < |prefix| {
          StoresExtends(s, prefix, more, j, r, v);
        } else if j == |prefix| {
          assert more[..j] == prefix;
        }
      }
    }
  }

  // --- Hidden --------------------------------------------------------------------------------

  lemma PulledExtends(s: State, prefix: seq<(Step, Time)>, steps: seq<(Step, Time)>, r: Rec, f: Time)
    requires prefix <= steps && Pulled(s, prefix, r, f)
    ensures Pulled(s, steps, r, f)
  {
    var j, v :| Stores(s, prefix, j, r, v) && v >= f;
    StoresExtends(s, prefix, steps, j, r, v);
  }

  /** Not read before the push, and nobody at work on the record at the push: hidden for good. */
  lemma PushHides(s: State, steps: seq<(Step, Time)>, r: Rec, now: Time, f: Time)
    requires Initial(s) && Ticks(s, steps) && now > Run(s, steps).clock
    requires !Pulled(s, steps, r, f) && !WorkedOn(Run(s, steps), r)
    ensures Hidden(s, steps + [(Push(r), now)], r, f)
  {
    var t, after := Run(s, steps), steps + [(Push(r), now)];
    PushMasks(s, steps, r, now);
    forall more | Ticks(s, more) && Continues(after, more, r) ensures !Pulled(s, more, r, f) {
      MaskedRun(s, after, more, r);
      assert steps <= more && more[|steps|] == after[|steps|];
      forall j: nat, v | Stores(s, more, j, r, v) ensures v < f {
        if j < |steps| {
          StoresExtends(s, steps, more, j, r, v);
        }
      }
    }
  }

  lemma PushMasks(s: State, steps: seq<(Step, Time)>, r: Rec, now: Time)
    requires Initial(s) && Ticks(s, steps) && now > Run(s, steps).clock && !WorkedOn(Run(s, steps), r)
    ensures Masked(Run(s, steps + [(Push(r), now)]), r)
  {
    var t, after := Run(s, steps), steps + [(Push(r), now)];
    assert after[..|steps|] == steps;
    RunTimed(s, steps);
    RemoteWriteTimed(t, Push(r), now);
  }

  // --- Read after all ----------------------------------------------------------------------------

  lemma GoOn(s: State, base: seq<(Step, Time)>, steps: seq<(Step, Time)>, step: Step) returns (more: seq<(Step, Time)>)
    requires Ticks(s, steps) && ByPulls(base, steps) && IsPullStep(step)
    ensures Ticks(s, more) && ByPulls(base, more) && |more| == |steps| + 1 && steps == more[..|steps|] && more[|steps|].0 == step
    ensures Run(s, more) == Next(Run(s, steps), step, Run(s, steps).clock + 1)
  {
    more := steps + [(step, Run(s, steps).clock + 1)];
    assert more[..|steps|] == steps;
    assert forall k | |base| <= k < |steps| :: more[k] == steps[k];
  }

  lemma ReadyOnceRefreshed(t: State, id: PullId, now: Time)
    requires Timed(t) && id in t.pulls && t.pulls[id].work.Some? && t.pulls[id].work.value.rec in t.rows
    ensures var u := Next(t, Refresh(id), now);
      u.remote == t.remote && Ready(u, id) && u.pulls[id].work.value == t.pulls[id].work.value.(stale := false)
  {
    assert TimedPull(t, t.pulls[id]);
  }

  lemma RefreshOut(s: State, base: seq<(Step, Time)>, steps: seq<(Step, Time)>, id: PullId) returns (more: seq<(Step, Time)>)
    requires Ticks(s, steps) && ByPulls(base, steps) && Timed(Run(s, steps)) && id in Run(s, steps).pulls
    requires Run(s, steps).pulls[id].work.Some? && Run(s, steps).pulls[id].work.value.rec in Run(s, steps).rows
    ensures Ticks(s, more) && ByPulls(base, more) && Run(s, more).remote == Run(s, steps).remote && Ready(Run(s, more), id)
    ensures Run(s, more).pulls[id].work.value == Run(s, steps).pulls[id].work.value.(stale := false)
  {
    more := GoOn(s, base, steps, Refresh(id));
    ReadyOnceRefreshed(Run(s, steps), id, Run(s, steps).clock + 1);
  }

  lemma WrittenVersion(t: State, id: PullId, now: Time)
    requires Ready(t, id)
    ensures var u := Next(t, Write(id), now);
      u.remote == t.remote && VersionOf(u, t.pulls[id].work.value.rec) == Some(t.pulls[id].work.value.version)
  {
  }

  lemma WriteReady(s: State, base: seq<(Step, Time)>, steps: seq<(Step, Time)>, id: PullId) returns (more: seq<(Step, Time)>)
    requires Ticks(s, steps) && ByPulls(base, steps) && Ready(Run(s, steps), id)
    ensures Ticks(s, more) && ByPulls(base, more) && Run(s, more).remote == Run(s, steps).remote
    ensures var w := Run(s, steps).pulls[id].work.value;
      VersionOf(Run(s, more), w.rec) == Some(w.version) && Stores(s, more, |steps|, w.rec, w.version)
  {
    more := GoOn(s, base, steps, Write(id));
    WrittenVersion(Run(s, steps), id, Run(s, steps).clock + 1);
  }

  /** Pending work is refreshed and written. */
  lemma WriteOut(s: State, base: seq<(Step, Time)>, steps: seq<(Step, Time)>, id: PullId, r: Rec, f: Time)
    returns (more: seq<(Step, Time)>)
    requires Ticks(s, steps) && ByPulls(base, steps) && Timed(Run(s, steps)) && r in Run(s, steps).rows
    requires id in Run(s, steps).pulls && Run(s, steps).pulls[id].work.Some? && Run(s, steps).pulls[id].work.value.rec == r
    ensures Ticks(s, more) && ByPulls(base, more) && Run(s, more).remote == Run(s, steps).remote
    ensures VersionOf(Run(s, more), r) == Some(Run(s, steps).pulls[id].work.value.version)
    ensures Run(s, steps).pulls[id].work.value.version >= f ==> Pulled(s, more, r, f)
  {
    var ready := RefreshOut(s, base, steps, id);
    more := WriteReady(s, base, ready, id);
  }

  /** The next targeted pull of a record whose stored version was put back reads Zoho's current one. */
  lemma ReadAgain(s: State, base: seq<(Step, Time)>, steps: seq<(Step, Time)>, r: Rec, f: Time) returns (more: seq<(Step, Time)>)
    requires Initial(s) && Ticks(s, steps) && ByPulls(base, steps)
    requires r in Run(s, steps).rows && r in Run(s, steps).remote && Run(s, steps).remote[r].mtime >= f
    requires VersionOf(Run(s, steps), r).Some? && VersionOf(Run(s, steps), r).value < Run(s, steps).remote[r].mtime
    ensures Ticks(s, more) && ByPulls(base, more) && Pulled(s, more, r, f)
  {
    var id := UnusedId(Run(s, steps).pulls.Keys);
    more := FetchAndCheck(s, base, steps, r, id);
    RunTimed(s, more);
    more := WriteOut(s, base, more, id, r, f);
  }

  lemma FetchAndCheck(s: State, base: seq<(Step, Time)>, steps: seq<(Step, Time)>, r: Rec, id: PullId) returns (more: seq<(Step, Time)>)
    requires Ticks(s, steps) && ByPulls(base, steps) && id !in Run(s, steps).pulls.Keys && r in Run(s, steps).remote
    requires VersionOf(Run(s, steps), r).Some? && VersionOf(Run(s, steps), r).value < Run(s, steps).remote[r].mtime
    ensures Ticks(s, more) && ByPulls(base, more) && Run(s, more).rows == Run(s, steps).rows
    ensures var t := Run(s, more);
      && id in t.pulls && t.pulls[id].work.Some?
      && t.pulls[id].work.value.rec == r && t.pulls[id].work.value.version == Run(s, steps).remote[r].mtime
  {
    var t := Run(s, steps);
    var item := Item(r, t.remote[r].mtime);
    more := GoOn(s, base, steps, Target(id, r));
    assert Run(s, more).pulls[id] == Pull(false, t.clock + 1, None, {item}, {item}, true, None) && Run(s, more).rows == t.rows;
    more := GoOn(s, base, more, Check(id, item));
  }

  /** A pull past its check of the record reads the edit after all, or puts the version back so that the next pull does. */
  lemma PendingWorkUnmasks(s: State, steps: seq<(Step, Time)>, r: Rec, now: Time, id: PullId) returns (more: seq<(Step, Time)>)
    requires Initial(s) && Ticks(s, steps) && now > Run(s, steps).clock && r in Run(s, steps).remote
    requires id in Run(s, steps).pulls && Run(s, steps).pulls[id].work.Some? && Run(s, steps).pulls[id].work.value.rec == r
    ensures Ticks(s, more) && ByPulls(steps + [(Push(r), now)], more)
    ensures Pulled(s, more, r, Run(s, steps).remote[r].foreign)
  {
    var t, after := Run(s, steps), steps + [(Push(r), now)];
    var f, w := t.remote[r].foreign, t.pulls[id].work.value;
    assert after[..|steps|] == steps;
    RunTimed(s, steps);
    assert TimedPull(t, t.pulls[id]);
    RunTimed(s, after);
    assert Run(s, after).pulls == t.pulls && Run(s, after).remote[r] == Remote(now, f);
    more := WriteOut(s, after, after, id, r, f);
    if w.version < f {
      more := ReadAgain(s, after, more, r, f);
    }
  }

  lemma PullsDisturbNothing(base: seq<(Step, Time)>, more: seq<(Step, Time)>, r: Rec)
    requires ByPulls(base, more)
    ensures Continues(base, more, r)
  {
  }

  /**
   * A stamped push hides the latest foreign edit for good exactly when no pull had stored it before
   * and none was past its check of the record at the push. What goes on afterwards may be pulls
   * alone, or anything that does not write the record in Zoho. Of a record nobody else has ever
   * written, `foreign` is 0 and the statement is about any version at all.
   */
  lemma PushHidesIff(s: State, steps: seq<(Step, Time)>, r: Rec, now: Time)
    requires Initial(s) && Ticks(s, steps) && now > Run(s, steps).clock && r in Run(s, steps).remote
    ensures var f, after := Run(s, steps).remote[r].foreign, steps + [(Push(r), now)];
      && (Hidden(s, after, r, f) <==> !Pulled(s, steps, r, f) && !WorkedOn(Run(s, steps), r))
      && (HiddenFromPulls(s, after, r, f) <==> Hidden(s, after, r, f))
  {
    var t, after := Run(s, steps), steps + [(Push(r), now)];
    var f := t.remote[r].foreign;
    assert after[..|steps|] == steps;
    if Pulled(s, steps, r, f) {
      PulledExtends(s, steps, after, r, f);
      assert ByPulls(after, after);
      assert !HiddenFromPulls(s, after, r, f);
    } else if WorkedOn(t, r) {
      var id :| id in t.pulls && t.pulls[id].work.Some? && t.pulls[id].work.value.rec == r;
      var more := PendingWorkUnmasks(s, steps, r, now, id);
      assert !HiddenFromPulls(s, after, r, f);
    } else {
      PushHides(s, steps, r, now, f);
    }
    forall more | ByPulls(after, more) ensures Continues(after, more, r) {
      PullsDisturbNothing(after, more, r);
    }
  }

  /** One record that someone else created in Zoho, and nothing here. */
  function OneForeign(): State {
    State(map[0 := Remote(0, 0)], map[], {}, None, map[], 0)
  }

  /** A targeted pull fetches it and passes its check. */
  lemma FetchedAndChecked() returns (steps: seq<(Step, Time)>)
    ensures Ticks(OneForeign(), steps) && |steps| == 2 && forall k | 0 <= k < 2 :: !steps[k].0.Write?
    ensures Run(OneForeign(), steps)
         == OneForeign().(clock := 2, pulls := map[1 := Pull(false, 1, None, {Item(0, 0)}, {}, true, Some(Work(0, 0, false)))])
  {
    var fetched := GoOn(OneForeign(), [], [], Target(1, 0));
    assert Run(OneForeign(), fetched) == OneForeign().(clock := 1, pulls := map[1 := Pull(false, 1, None, {Item(0, 0)}, {Item(0, 0)}, true, None)]);
    steps := GoOn(OneForeign(), [], fetched, Check(1, Item(0, 0)));
    assert {Item(0, 0)} - {Item(0, 0)} == {};
    assert steps[..1] == fetched && steps[0] == fetched[0];
  }

  /** The push lands before its write, which then stores the edit: nothing was pulled before the push, and the edit was not masked. */
  lemma PushDoesNotMask() returns (steps: seq<(Step, Time)>, more: seq<(Step, Time)>)
    ensures Initial(OneForeign()) && Ticks(OneForeign(), steps) && !Pulled(OneForeign(), steps, 0, 0)
    ensures Ticks(OneForeign(), more) && more == steps + [(Push(0), 3), (Write(1), 4)]
    ensures Run(OneForeign(), steps).remote == map[0 := Remote(0, 0)] && Pulled(OneForeign(), more, 0, 0)
  {
    steps := FetchedAndChecked();
    var after := steps + [(Push(0), 3)];
    assert after[..2] == steps;
    assert ByPulls(after, after) && Ready(Run(OneForeign(), after), 1);
    more := GoOn(OneForeign(), after, after, Write(1));
    assert Stores(OneForeign(), more, 3, 0, 0) by { assert more[..3] == after; }
    assert Run(OneForeign(), after).clock == 3;
    assert more == steps + [(Push(0), 3), (Write(1), 4)];
  }
}
