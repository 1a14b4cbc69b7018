/** When two pulls write one record: what keeps them apart is enough, and without it an update can always be lost. */
module SyncWriters {
  import opened Common
  import opened ZohoRecords
  import opened SyncProtocol

  // --- One writer per record is enough -------------------------------------------------------

  ghost predicate WorkedOn(s: State, r: Rec) {
    exists id :: id in s.pulls && s.pulls[id].work.Some? && s.pulls[id].work.value.rec == r
  }

  /** No two pulls are ever past the echo check of the same record at once. */
  ghost predicate OneWriter(s: State, step: Step) {
    step.Check? ==> !WorkedOn(s, step.item.rec)
  }

  ghost predicate OneWriterThroughout(s: State, steps: seq<(Step, Time)>) {
    forall k | 0 <= k < |steps| :: OneWriter(Run(s, steps[..k]), steps[k].0)
  }

  ghost predicate Alone(s: State) {
    forall i, j | i in s.pulls && j in s.pulls && i != j && s.pulls[i].work.Some? && s.pulls[j].work.Some? ::
      s.pulls[i].work.value.rec != s.pulls[j].work.value.rec
  }

  /** A pending write that would overwrite the current version overwrites nothing relied on. */
  ghost predicate Harmless(s: State) {
    forall id | id in s.pulls && s.pulls[id].work.Some? && OverwritesHeld(s, s.pulls[id].work.value) ::
      !Relied(s, s.pulls[id].work.value.rec)
  }

  /** A pull comes to work on a record only by a check that finds it no echo. */
  lemma NewWorkPassed(s: State, step: Step, now: Time, id: PullId)
    requires var t := Next(s, step, now); id in t.pulls && t.pulls[id].work.Some?
    requires !(id in s.pulls && s.pulls[id].work.Some? && s.pulls[id].work.value.rec == Next(s, step, now).pulls[id].work.value.rec)
    ensures step.Check? && step.pull == id && id in s.pulls && step.item in s.pulls[id].todo
    ensures step.item.rec == Next(s, step, now).pulls[id].work.value.rec
    ensures !IsOwnPushEcho(Some(step.item.version), VersionOf(s, step.item.rec))
  {
  }

  lemma StepAlone(s: State, step: Step, now: Time)
    requires Alone(s) && OneWriter(s, step)
    ensures Alone(Next(s, step, now))
  {
    var t := Next(s, step, now);
    forall i, j | i in t.pulls && j in t.pulls && i != j && t.pulls[i].work.Some? && t.pulls[j].work.Some?
      ensures t.pulls[i].work.value.rec != t.pulls[j].work.value.rec
    {
      OldOrChecked(s, step, now, i);
      OldOrChecked(s, step, now, j);
    }
  }

  /** A pull was at work on the record before the step, or nobody was. */
  lemma OldOrChecked(s: State, step: Step, now: Time, id: PullId)
    requires OneWriter(s, step)
    requires var t := Next(s, step, now); id in t.pulls && t.pulls[id].work.Some?
    ensures var r := Next(s, step, now).pulls[id].work.value.rec;
      || (id in s.pulls && s.pulls[id].work.Some? && s.pulls[id].work.value.rec == r)
      || (step.Check? && step.pull == id && !WorkedOn(s, r))
  {
    var r := Next(s, step, now).pulls[id].work.value.rec;
    if !(id in s.pulls && s.pulls[id].work.Some? && s.pulls[id].work.value.rec == r) {
      NewWorkPassed(s, step, now, id);
    }
  }

  /** Nothing becomes relied on while a pull is past its check of it. */
  lemma NothingNewRelied(s: State, step: Step, now: Time, id: PullId)
    requires Timed(s) && now > s.clock && Alone(s) && OneWriter(s, step)
    requires id in s.pulls && s.pulls[id].work.Some?
    requires var t := Next(s, step, now); id in t.pulls && t.pulls[id].work.Some? && t.pulls[id].work.value.rec == s.pulls[id].work.value.rec
    requires s.pulls[id].work.value.rec in s.remote && s.pulls[id].work.value.rec in Next(s, step, now).remote
    requires var r := s.pulls[id].work.value.rec; Next(s, step, now).remote[r].mtime == s.remote[r].mtime
    ensures Relied(Next(s, step, now), s.pulls[id].work.value.rec) ==> Relied(s, s.pulls[id].work.value.rec)
  {
    var t, r := Next(s, step, now), s.pulls[id].work.value.rec;
    var i := Item(r, s.remote[r].mtime);
    assert WorkedOn(s, r);
    if Relied(t, r) && !Before(i.version, t.cursor) {
      var q :| q in t.pulls && Behind(t.pulls[q], i);
      if q in s.pulls {
        BehindBefore(s, step, now, id, q);
      }
    } else if Before(i.version, t.cursor) && !Before(i.version, s.cursor) {
      assert step.Finish? && Behind(s.pulls[step.pull], i);
    }
  }

  lemma BehindBefore(s: State, step: Step, now: Time, id: PullId, q: PullId)
    requires Alone(s) && OneWriter(s, step) && id in s.pulls && s.pulls[id].work.Some? && s.pulls[id].work.value.rec in s.remote
    requires q in s.pulls && q in Next(s, step, now).pulls
    requires var t := Next(s, step, now); id in t.pulls && t.pulls[id].work.Some? && t.pulls[id].work.value.rec == s.pulls[id].work.value.rec
    requires var r := s.pulls[id].work.value.rec; Behind(Next(s, step, now).pulls[q], Item(r, s.remote[r].mtime))
    ensures var r := s.pulls[id].work.value.rec; Behind(s.pulls[q], Item(r, s.remote[r].mtime))
  {
    assert WorkedOn(s, s.pulls[id].work.value.rec);
  }

  lemma StepHarmless(s: State, step: Step, now: Time)
    requires Timed(s) && Alone(s) && Harmless(s) && now > s.clock && OneWriter(s, step)
    ensures Harmless(Next(s, step, now))
  {
    var t := Next(s, step, now);
    forall id | id in t.pulls && t.pulls[id].work.Some? && OverwritesHeld(t, t.pulls[id].work.value)
      ensures !Relied(t, t.pulls[id].work.value.rec)
    {
      StepHarmlessFor(s, step, now, id);
    }
  }

  lemma StepHarmlessFor(s: State, step: Step, now: Time, id: PullId)
    requires Timed(s) && Alone(s) && Harmless(s) && now > s.clock && OneWriter(s, step)
    requires var t := Next(s, step, now); id in t.pulls && t.pulls[id].work.Some? && OverwritesHeld(t, t.pulls[id].work.value)
    ensures !Relied(Next(s, step, now), Next(s, step, now).pulls[id].work.value.rec)
  {
    var t := Next(s, step, now);
    var r := t.pulls[id].work.value.rec;
    StepTimed(s, step, now);
    if IsRemoteWrite(step) && step.rec == r {
      if r in s.rows { assert TimedRow(s, r); }
      FreshNotRelied(s, step, now);
    } else {
      OldWork(s, step, now, id);
      NothingNewRelied(s, step, now, id);
    }
  }

  /** The same work was pending over the same remote and the same version. */
  ghost predicate SamePending(s: State, t: State, id: PullId)
    requires id in t.pulls && t.pulls[id].work.Some? && t.pulls[id].work.value.rec in t.remote
  {
    var r := t.pulls[id].work.value.rec;
    && id in s.pulls && s.pulls[id].work.Some? && s.pulls[id].work.value.rec == r
    && r in s.remote && s.remote[r].mtime == t.remote[r].mtime
    && OverwritesHeld(s, s.pulls[id].work.value)
  }

  /** A write that overwrites the current version passed its check earlier, and the row has not moved since. */
  lemma OldWork(s: State, step: Step, now: Time, id: PullId)
    requires Alone(s) && OneWriter(s, step)
    requires var t := Next(s, step, now); id in t.pulls && t.pulls[id].work.Some? && OverwritesHeld(t, t.pulls[id].work.value)
    requires IsRemoteWrite(step) ==> step.rec != Next(s, step, now).pulls[id].work.value.rec
    ensures SamePending(s, Next(s, step, now), id)
  {
    if InPull(step) {
      if step.pull in s.pulls { OldPullWork(s.(clock := now), step, s.pulls[step.pull], id); }
    }
  }

  lemma OldPullWork(s: State, step: Step, p: Pull, id: PullId)
    requires InPull(step) && Alone(s) && step.pull in s.pulls && s.pulls[step.pull] == p
    requires var t := PullNext(s, step, p); id in t.pulls && t.pulls[id].work.Some? && OverwritesHeld(t, t.pulls[id].work.value)
    ensures SamePending(s, PullNext(s, step, p), id)
  {
  }

  lemma FreshNotRelied(s: State, step: Step, now: Time)
    requires Timed(s) && now > s.clock && IsRemoteWrite(step) && step.rec in Next(s, step, now).remote
    ensures !Relied(Next(s, step, now), step.rec)
  {
    var t := Next(s, step, now);
    forall id | id in t.pulls ensures !Behind(t.pulls[id], Item(step.rec, now)) {
      assert TimedPull(s, s.pulls[id]);
    }
  }

  lemma {:induction false} OneWriterLosesNothing(s: State, steps: seq<(Step, Time)>)
    requires Initial(s) && Ticks(s, steps) && OneWriterThroughout(s, steps)
    ensures LosesNothing(s, steps)
    ensures Timed(Run(s, steps)) && Alone(Run(s, steps)) && Harmless(Run(s, steps))
  {
    RunTimed(s, steps);
    if steps != [] {
      var prefix, step, now := steps[..|steps| - 1], steps[|steps| - 1].0, steps[|steps| - 1].1;
      forall k | 0 <= k < |prefix| ensures OneWriter(Run(s, prefix[..k]), prefix[k].0) {
        assert prefix[..k] == steps[..k];
      }
      OneWriterLosesNothing(s, prefix);
      assert steps[..|steps| - 1] == prefix;
      forall k | 0 <= k < |steps| ensures !LosesUpdate(Run(s, steps[..k]), steps[k].0) {
        if k < |prefix| { assert prefix[..k] == steps[..k]; }
      }
      StepAlone(Run(s, prefix), step, now);
      StepHarmless(Run(s, prefix), step, now);
    }
  }

  // --- Without it the loss is always within reach ------------------------------------------------

  /** The current version was changed before the cursor, is not stored, and has no failure on record: no scan lists it again. */
  ghost predicate Lost(s: State, r: Rec) {
    r in s.remote && Before(s.remote[r].mtime, s.cursor) && !Held(s, r)
  }

  /** The pull is past its check with a version Zoho has moved on from, and the newer one has not failed. */
  ghost predicate Outdated(s: State, id: PullId, w: Work) {
    && id in s.pulls && s.pulls[id].work == Some(w) && w.rec in s.remote && w.version < s.remote[w.rec].mtime
    && Item(w.rec, s.remote[w.rec].mtime) !in s.failed
    && (w.stale ==> w.rec in s.rows)
  }

  lemma Then(s: State, steps: seq<(Step, Time)>, step: Step) returns (more: seq<(Step, Time)>, t: State)
    requires Ticks(s, steps)
    ensures Ticks(s, more) && t == Run(s, more)
    ensures var r := Run(s, steps); t == Next(r, step, r.clock + 1)
  {
    var r := Run(s, steps);
    more := steps + [(step, r.clock + 1)];
    assert more[..|steps|] == steps;
    t := Run(s, more);
  }

  lemma {:induction false} UnusedId(used: set<PullId>) returns (id: PullId)
    ensures id !in used && forall x | x in used :: x < id
  {
    if used == {} {
      id := 0;
    } else {
      var x :| x in used;
      var below := UnusedId(used - {x});
      id := if x < below then below else x + 1;
      assert forall y | y in used :: y == x || y in used - {x};
    }
  }

  /** A scheduled pull with nothing left but checks of current versions, and the work it may be at. */
  ghost predicate Draining(s: State, q: PullId, id: PullId, r: Rec) {
    && q != id && q in s.pulls && s.pulls[q].scheduled && s.pulls[q].listed
    && r in s.remote && s.remote[r].mtime < s.pulls[q].startedAt
    && (forall i | i in s.pulls[q].todo :: i.rec in s.remote && i.version == s.remote[i.rec].mtime)
    && (s.pulls[q].work.Some? && s.pulls[q].work.value.stale ==> s.pulls[q].work.value.rec in s.rows)
  }

  /** A step of the draining pull leaves the outdated one alone. */
  ghost predicate Drained(s: State, t: State, id: PullId, w: Work, q: PullId) {
    && Outdated(t, id, w) && Draining(t, q, id, w.rec) && t.remote == s.remote
  }

  /** A scheduled pull that has only begun to list. */
  ghost predicate Scanning(s: State, q: PullId, id: PullId, r: Rec) {
    && q != id && q in s.pulls && s.pulls[q].scheduled && !s.pulls[q].listed && s.pulls[q].work.None?
    && r in s.remote && s.remote[r].mtime < s.pulls[q].startedAt
    && s.pulls[q].seen == s.pulls[q].todo
  }

  lemma StartNext(s: State, id: PullId, w: Work) returns (steps: seq<(Step, Time)>, q: PullId)
    requires Timed(s) && Outdated(s, id, w)
    ensures var t := Run(s, steps);
      Ticks(s, steps) && Outdated(t, id, w) && t.remote == s.remote && Scanning(t, q, id, w.rec) && t.pulls[q].todo == {}
  {
    q := UnusedId(s.pulls.Keys);
    assert q !in s.pulls;
    var t;
    steps := [];
    steps, t := Then(s, steps, Start(q));
  }

  lemma ListNext(s: State, steps: seq<(Step, Time)>, id: PullId, w: Work, q: PullId) returns (more: seq<(Step, Time)>)
    requires Ticks(s, steps) && Outdated(Run(s, steps), id, w) && Scanning(Run(s, steps), q, id, w.rec) && Run(s, steps).pulls[q].todo == {}
    ensures var t := Run(s, more);
      && Ticks(s, more) && Outdated(t, id, w) && t.remote == Run(s, steps).remote && Scanning(t, q, id, w.rec)
      && t.pulls[q].todo == Listed(t, t.remote.Keys)
  {
    var t;
    more, t := Then(s, steps, ListPage(q, Run(s, steps).remote.Keys));
    assert Listed(t, t.remote.Keys) == Listed(Run(s, steps), Run(s, steps).remote.Keys);
    assert {} + Listed(t, t.remote.Keys) == Listed(t, t.remote.Keys);
  }

  lemma DoneNext(s: State, steps: seq<(Step, Time)>, id: PullId, w: Work, q: PullId) returns (more: seq<(Step, Time)>)
    requires Ticks(s, steps) && Outdated(Run(s, steps), id, w) && Scanning(Run(s, steps), q, id, w.rec)
    requires Run(s, steps).pulls[q].todo == Listed(Run(s, steps), Run(s, steps).remote.Keys)
    ensures Ticks(s, more) && Drained(Run(s, steps), Run(s, more), id, w, q) && Run(s, more).pulls[q].work.None?
  {
    var u := Run(s, steps);
    more := steps + [(ListDone(q), u.clock + 1)];
    assert more[..|steps|] == steps;
    ListDoneDrains(u, id, w, q, u.clock + 1);
  }

  lemma ListDoneDrains(s: State, id: PullId, w: Work, q: PullId, now: Time)
    requires Outdated(s, id, w) && Scanning(s, q, id, w.rec) && s.pulls[q].todo == Listed(s, s.remote.Keys)
    ensures Drained(s, Next(s, ListDone(q), now), id, w, q) && Next(s, ListDone(q), now).pulls[q].work.None?
  {
    AllListed(s, q, now);
  }

  lemma AllListed(s: State, q: PullId, now: Time)
    requires q in s.pulls && Listed(s, s.remote.Keys) <= s.pulls[q].seen
    ensures Next(s, ListDone(q), now) == s.(clock := now, pulls := s.pulls[q := s.pulls[q].(listed := true)])
  {
    forall r | r in s.remote ensures Item(r, s.remote[r].mtime) in s.pulls[q].seen {
      assert Item(r, s.remote[r].mtime) in Listed(s, s.remote.Keys);
    }
  }

  lemma CheckNext(s: State, steps: seq<(Step, Time)>, id: PullId, w: Work, q: PullId, item: Item) returns (more: seq<(Step, Time)>)
    requires Ticks(s, steps) && Outdated(Run(s, steps), id, w) && Draining(Run(s, steps), q, id, w.rec)
    requires Run(s, steps).pulls[q].work.None? && item in Run(s, steps).pulls[q].todo
    ensures Ticks(s, more) && Drained(Run(s, steps), Run(s, more), id, w, q)
    ensures var p := Run(s, more).pulls[q];
      && p.todo == Run(s, steps).pulls[q].todo - {item}
      && (p.work.Some? ==> p.work.value.rec == item.rec)
  {
    var t;
    more, t := Then(s, steps, Check(q, item));
  }

  lemma FailNext(s: State, steps: seq<(Step, Time)>, id: PullId, w: Work, q: PullId) returns (more: seq<(Step, Time)>)
    requires Ticks(s, steps) && Outdated(Run(s, steps), id, w) && Draining(Run(s, steps), q, id, w.rec)
    requires Run(s, steps).pulls[q].work.Some? && Run(s, steps).pulls[q].work.value.rec != w.rec
    ensures Ticks(s, more) && Drained(Run(s, steps), Run(s, more), id, w, q)
    ensures var p := Run(s, more).pulls[q]; p.todo == Run(s, steps).pulls[q].todo && p.work.None?
  {
    var t;
    more, t := Then(s, steps, Fail(q));
  }

  lemma RefreshNext(s: State, steps: seq<(Step, Time)>, id: PullId, w: Work, q: PullId) returns (more: seq<(Step, Time)>)
    requires Ticks(s, steps) && Outdated(Run(s, steps), id, w) && Draining(Run(s, steps), q, id, w.rec)
    requires Run(s, steps).pulls[q].work.Some? && Run(s, steps).pulls[q].work.value.rec == w.rec
    ensures Ticks(s, more) && Drained(Run(s, steps), Run(s, more), id, w, q)
    ensures var p := Run(s, more).pulls[q]; p.todo == Run(s, steps).pulls[q].todo && p.work.Some? && !p.work.value.stale
  {
    more := steps;
    if Run(s, steps).pulls[q].work.value.stale {
      var t;
      more, t := Then(s, steps, Refresh(q));
    }
  }

  lemma WriteNext(s: State, steps: seq<(Step, Time)>, id: PullId, w: Work, q: PullId) returns (more: seq<(Step, Time)>)
    requires Ticks(s, steps) && Outdated(Run(s, steps), id, w) && Draining(Run(s, steps), q, id, w.rec)
    requires Run(s, steps).pulls[q].work.Some? && !Run(s, steps).pulls[q].work.value.stale
    ensures Ticks(s, more) && Drained(Run(s, steps), Run(s, more), id, w, q)
    ensures var p := Run(s, more).pulls[q]; p.todo == Run(s, steps).pulls[q].todo && p.work.None?
  {
    var t;
    more, t := Then(s, steps, Write(q));
  }

  /** One item is checked and, if it passes, written or given up; the outdated pull stays as it is. */
  lemma DrainOne(s: State, steps: seq<(Step, Time)>, id: PullId, w: Work, q: PullId, item: Item)
    returns (more: seq<(Step, Time)>)
    requires Ticks(s, steps) && Outdated(Run(s, steps), id, w) && Draining(Run(s, steps), q, id, w.rec)
    requires Run(s, steps).pulls[q].work.None? && item in Run(s, steps).pulls[q].todo
    ensures Ticks(s, more) && Drained(Run(s, steps), Run(s, more), id, w, q)
    ensures Run(s, more).pulls[q].work.None? && Run(s, more).pulls[q].todo == Run(s, steps).pulls[q].todo - {item}
  {
    more := CheckNext(s, steps, id, w, q, item);
    if Run(s, more).pulls[q].work.Some? {
      if item.rec != w.rec {
        more := FailNext(s, more, id, w, q);
      } else {
        more := RefreshNext(s, more, id, w, q);
        more := WriteNext(s, more, id, w, q);
      }
    }
  }

  lemma {:induction false} Drain(s: State, steps: seq<(Step, Time)>, id: PullId, w: Work, q: PullId) returns (more: seq<(Step, Time)>)
    requires Ticks(s, steps) && Outdated(Run(s, steps), id, w) && Draining(Run(s, steps), q, id, w.rec)
    requires Run(s, steps).pulls[q].work.None?
    ensures Ticks(s, more) && Drained(Run(s, steps), Run(s, more), id, w, q)
    ensures Run(s, more).pulls[q].work.None? && Run(s, more).pulls[q].todo == {}
    decreases |Run(s, steps).pulls[q].todo|
  {
    if Run(s, steps).pulls[q].todo == {} {
      more := steps;
    } else {
      var item :| item in Run(s, steps).pulls[q].todo;
      more := DrainOne(s, steps, id, w, q, item);
      more := Drain(s, more, id, w, q);
    }
  }

  lemma FinishNext(s: State, steps: seq<(Step, Time)>, id: PullId, w: Work, q: PullId) returns (more: seq<(Step, Time)>)
    requires Ticks(s, steps) && Outdated(Run(s, steps), id, w) && Draining(Run(s, steps), q, id, w.rec)
    requires Run(s, steps).pulls[q].work.None? && Run(s, steps).pulls[q].todo == {}
    ensures var t := Run(s, more);
      && Ticks(s, more) && Outdated(t, id, w) && t.remote == Run(s, steps).remote
      && Before(t.remote[w.rec].mtime, t.cursor)
  {
    var t;
    more, t := Then(s, steps, Finish(q));
  }

  lemma OutdatedRefreshNext(s: State, steps: seq<(Step, Time)>, id: PullId, w: Work) returns (more: seq<(Step, Time)>)
    requires Ticks(s, steps) && Outdated(Run(s, steps), id, w)
    requires Before(Run(s, steps).remote[w.rec].mtime, Run(s, steps).cursor)
    ensures var t := Run(s, more);
      && Ticks(s, more) && Outdated(t, id, w.(stale := false)) && t.remote == Run(s, steps).remote
      && Before(t.remote[w.rec].mtime, t.cursor)
  {
    more := steps;
    if w.stale {
      var t;
      more, t := Then(s, steps, Refresh(id));
    } else {
      assert w.(stale := false) == w;
    }
  }

  lemma OutdatedWriteNext(s: State, steps: seq<(Step, Time)>, id: PullId, w: Work) returns (more: seq<(Step, Time)>)
    requires Ticks(s, steps) && Outdated(Run(s, steps), id, w) && !w.stale
    requires Before(Run(s, steps).remote[w.rec].mtime, Run(s, steps).cursor)
    ensures var t := Run(s, more);
      && Ticks(s, more) && t.remote == Run(s, steps).remote
      && Lost(t, w.rec) && VersionOf(t, w.rec) == Some(w.version)
  {
    var t;
    more, t := Then(s, steps, Write(id));
  }

  /**
   * From every state in which some pull is past its check with an outdated version, pulls alone,
   * with no further edit, can lose the newer one: another pull applies it and moves the cursor past
   * it, and then the outdated write lands.
   */
  lemma OutdatedWorkCanLose(s: State, id: PullId, w: Work) returns (steps: seq<(Step, Time)>)
    requires Timed(s) && Outdated(s, id, w)
    ensures Ticks(s, steps) && Run(s, steps).remote == s.remote
    ensures Lost(Run(s, steps), w.rec) && VersionOf(Run(s, steps), w.rec) == Some(w.version)
  {
    var q;
    steps, q := StartNext(s, id, w);
    steps := ListNext(s, steps, id, w, q);
    steps := DoneNext(s, steps, id, w, q);
    steps := Drain(s, steps, id, w, q);
    steps := FinishNext(s, steps, id, w, q);
    steps := OutdatedRefreshNext(s, steps, id, w);
    steps := OutdatedWriteNext(s, steps, id, w.(stale := false));
  }
}
