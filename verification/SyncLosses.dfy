/** After the one write that can lose an update, pulls alone can lose it. */
module SyncLosses {
  import opened Common
  import opened ZohoRecords
  import opened SyncProtocol
  import opened SyncWriters

  /** Pulls list, check, give up and finish, and write nothing. */
  ghost predicate Unwriting(steps: seq<(Step, Time)>) {
    forall k | 0 <= k < |steps| :: InPull(steps[k].0) && !steps[k].0.Write? && !steps[k].0.Refresh?
  }

  lemma GoOn(s: State, steps: seq<(Step, Time)>, step: Step) returns (more: seq<(Step, Time)>)
    requires Ticks(s, steps) && Unwriting(steps) && InPull(step) && !step.Write? && !step.Refresh?
    ensures Ticks(s, more) && Unwriting(more) && Run(s, more) == Next(Run(s, steps), step, Run(s, steps).clock + 1)
  {
    more := steps + [(step, Run(s, steps).clock + 1)];
    assert more[..|steps|] == steps;
  }

  /** A scheduled pull that will move the cursor past an unheld record without meeting it again. */
  ghost predicate Forgetting(s: State, q: PullId, r: Rec) {
    && r in s.remote && !Held(s, r)
    && q in s.pulls && Behind(s.pulls[q], Item(r, s.remote[r].mtime))
  }

  lemma FailForgets(s: State, q: PullId, r: Rec, now: Time)
    requires Forgetting(s, q, r) && s.pulls[q].work.Some?
    ensures var t := Next(s, Fail(q), now);
      Forgetting(t, q, r) && t.remote == s.remote && t.pulls[q] == s.pulls[q].(work := None)
  {
  }

  /** It gives up what it is at. */
  lemma GiveUp(s: State, steps: seq<(Step, Time)>, q: PullId, r: Rec) returns (more: seq<(Step, Time)>)
    requires Ticks(s, steps) && Unwriting(steps) && Forgetting(Run(s, steps), q, r)
    ensures Ticks(s, more) && Unwriting(more) && Forgetting(Run(s, more), q, r) && Run(s, more).remote == Run(s, steps).remote
    ensures Run(s, more).pulls[q] == Run(s, steps).pulls[q].(work := None)
  {
    more := steps;
    if Run(s, steps).pulls[q].work.Some? {
      more := GoOn(s, steps, Fail(q));
      FailForgets(Run(s, steps), q, r, Run(s, steps).clock + 1);
    } else {
      assert Run(s, steps).pulls[q].(work := None) == Run(s, steps).pulls[q];
    }
  }

  /** It lists everything else. */
  lemma ListOthers(s: State, steps: seq<(Step, Time)>, q: PullId, r: Rec) returns (more: seq<(Step, Time)>)
    requires Ticks(s, steps) && Unwriting(steps) && Forgetting(Run(s, steps), q, r) && Run(s, steps).pulls[q].work.None?
    ensures Ticks(s, more) && Unwriting(more) && Forgetting(Run(s, more), q, r) && Run(s, more).remote == Run(s, steps).remote
    ensures var p := Run(s, more).pulls[q];
      p.work.None? && (p.listed || Listed(Run(s, more), Run(s, more).remote.Keys - {r}) <= p.seen)
  {
    more := GoOn(s, steps, ListPage(q, Run(s, steps).remote.Keys - {r}));
    assert Listed(Run(s, more), Run(s, more).remote.Keys - {r}) == Listed(Run(s, steps), Run(s, steps).remote.Keys - {r});
    assert Item(r, Run(s, steps).remote[r].mtime) !in Listed(Run(s, steps), Run(s, steps).remote.Keys - {r});
  }

  lemma CompleteWithout(s: State, q: PullId, r: Rec)
    requires Forgetting(s, q, r)
    requires s.pulls[q].listed || Listed(s, s.remote.Keys - {r}) <= s.pulls[q].seen
    ensures !s.pulls[q].listed ==> Complete(s, s.pulls[q])
  {
    if !s.pulls[q].listed {
      forall o | o in s.remote && o != r ensures Item(o, s.remote[o].mtime) in s.pulls[q].seen {
        assert Item(o, s.remote[o].mtime) in Listed(s, s.remote.Keys - {r});
      }
    }
  }

  lemma ListDoneForgets(s: State, q: PullId, r: Rec, now: Time)
    requires Forgetting(s, q, r) && s.pulls[q].work.None? && Complete(s, s.pulls[q])
    ensures var t := Next(s, ListDone(q), now);
      Forgetting(t, q, r) && t.remote == s.remote && t.pulls[q].work.None? && t.pulls[q].listed
  {
    assert Complete(s.(clock := now), s.pulls[q]);
  }

  lemma EndListing(s: State, steps: seq<(Step, Time)>, q: PullId, r: Rec) returns (more: seq<(Step, Time)>)
    requires Ticks(s, steps) && Unwriting(steps) && Forgetting(Run(s, steps), q, r) && Run(s, steps).pulls[q].work.None?
    requires Run(s, steps).pulls[q].listed || Complete(Run(s, steps), Run(s, steps).pulls[q])
    ensures Ticks(s, more) && Unwriting(more) && Forgetting(Run(s, more), q, r) && Run(s, more).remote == Run(s, steps).remote
    ensures Run(s, more).pulls[q].work.None? && Run(s, more).pulls[q].listed
  {
    more := steps;
    if !Run(s, steps).pulls[q].listed {
      more := GoOn(s, steps, ListDone(q));
      ListDoneForgets(Run(s, steps), q, r, Run(s, steps).clock + 1);
    }
  }

  lemma CheckForgets(s: State, q: PullId, r: Rec, item: Item, now: Time)
    requires Forgetting(s, q, r) && s.pulls[q].work.None? && s.pulls[q].listed && item in s.pulls[q].todo
    ensures var t := Next(s, Check(q, item), now);
      Forgetting(t, q, r) && t.remote == s.remote && t.pulls[q].listed && t.pulls[q].todo == s.pulls[q].todo - {item}
  {
  }

  lemma CheckOne(s: State, steps: seq<(Step, Time)>, q: PullId, r: Rec, item: Item) returns (more: seq<(Step, Time)>)
    requires Ticks(s, steps) && Unwriting(steps) && Forgetting(Run(s, steps), q, r)
    requires var p := Run(s, steps).pulls[q]; p.work.None? && p.listed && item in p.todo
    ensures Ticks(s, more) && Unwriting(more) && Forgetting(Run(s, more), q, r) && Run(s, more).remote == Run(s, steps).remote
    ensures Run(s, more).pulls[q].listed && Run(s, more).pulls[q].todo == Run(s, steps).pulls[q].todo - {item}
  {
    more := GoOn(s, steps, Check(q, item));
    CheckForgets(Run(s, steps), q, r, item, Run(s, steps).clock + 1);
  }

  lemma {:induction false} CheckAll(s: State, steps: seq<(Step, Time)>, q: PullId, r: Rec) returns (more: seq<(Step, Time)>)
    requires Ticks(s, steps) && Unwriting(steps) && Forgetting(Run(s, steps), q, r)
    requires Run(s, steps).pulls[q].work.None? && Run(s, steps).pulls[q].listed
    ensures Ticks(s, more) && Unwriting(more) && Forgetting(Run(s, more), q, r) && Run(s, more).remote == Run(s, steps).remote
    ensures var p := Run(s, more).pulls[q]; p.work.None? && p.listed && p.todo == {}
    decreases |Run(s, steps).pulls[q].todo|
  {
    more := steps;
    if Run(s, steps).pulls[q].todo != {} {
      var item :| item in Run(s, steps).pulls[q].todo;
      more := CheckOne(s, steps, q, r, item);
      more := GiveUp(s, more, q, r);
      more := CheckAll(s, more, q, r);
    }
  }

  lemma FinishMoves(s: State, q: PullId, r: Rec, now: Time)
    requires Forgetting(s, q, r)
    requires s.pulls[q].work.None? && s.pulls[q].listed && s.pulls[q].todo == {}
    ensures Next(s, Finish(q), now).remote == s.remote && Lost(Next(s, Finish(q), now), r)
  {
  }

  lemma FinishPast(s: State, steps: seq<(Step, Time)>, q: PullId, r: Rec) returns (more: seq<(Step, Time)>)
    requires Ticks(s, steps) && Unwriting(steps) && Forgetting(Run(s, steps), q, r)
    requires var p := Run(s, steps).pulls[q]; p.work.None? && p.listed && p.todo == {}
    ensures Ticks(s, more) && Unwriting(more) && Run(s, more).remote == Run(s, steps).remote && Lost(Run(s, more), r)
  {
    more := GoOn(s, steps, Finish(q));
    FinishMoves(Run(s, steps), q, r, Run(s, steps).clock + 1);
  }

  /** A relied-on record that is not held is lost already, or some pull, running to its end, loses it. */
  lemma UnheldCanBeLost(s: State, r: Rec) returns (steps: seq<(Step, Time)>)
    requires r in s.remote && Relied(s, r) && !Held(s, r)
    ensures Ticks(s, steps) && Unwriting(steps) && Run(s, steps).remote == s.remote && Lost(Run(s, steps), r)
  {
    steps := [];
    if !Before(s.remote[r].mtime, s.cursor) {
      var q :| q in s.pulls && Behind(s.pulls[q], Item(r, s.remote[r].mtime));
      steps := GiveUp(s, steps, q, r);
      steps := ListOthers(s, steps, q, r);
      CompleteWithout(Run(s, steps), q, r);
      steps := EndListing(s, steps, q, r);
      steps := CheckAll(s, steps, q, r);
      steps := FinishPast(s, steps, q, r);
    }
  }

  /** Right after the one write that can lose an update, pulls alone can lose it for good. */
  lemma LosingWriteCanLose(s: State, id: PullId, now: Time) returns (steps: seq<(Step, Time)>)
    requires Timed(s) && now > s.clock && LosesUpdate(s, Write(id))
    ensures var t, r := Next(s, Write(id), now), s.pulls[id].work.value.rec;
      Ticks(t, steps) && Unwriting(steps) && Run(t, steps).remote == s.remote && Lost(Run(t, steps), r)
  {
    var u := s.(clock := now);
    LaterTimed(s, now);
    SameLoss(s, now, Write(id));
    WriteUnholdsIff(u, id);
    WriteRelied(u, id, s.pulls[id].work.value.rec);
    steps := UnheldCanBeLost(Next(s, Write(id), now), s.pulls[id].work.value.rec);
  }

  /**
   * Coverage is exactly what keeps updates from being lost: in a covered state no run, of any steps
   * but that one kind of write, loses a record; in an uncovered one pulls that write nothing lose one.
   */
  lemma CoveredIffNothingLost(s: State)
    requires Timed(s)
    ensures Covered(s) <==> forall steps, r | Ticks(s, steps) && LosesNothing(s, steps) :: !Lost(Run(s, steps), r)
  {
    if Covered(s) {
      forall steps, r | Ticks(s, steps) && LosesNothing(s, steps) ensures !Lost(Run(s, steps), r) {
        LosesNothingCovered(s, steps);
      }
    } else {
      var r :| r in s.remote && Relied(s, r) && !Held(s, r);
      var steps := UnheldCanBeLost(s, r);
      assert LosesNothing(s, steps);
    }
  }
}
