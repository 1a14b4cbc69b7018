/** Concrete schedules that break the conditions the protocol's guarantees rest on. */
module SyncRaces {
  import opened Common
  import opened ZohoRecords
  import opened SyncProtocol
  import opened SyncWriters
  import opened SyncEchoes
  import opened SyncMasks

  function Empty(): State {
    State(map[], map[], {}, None, map[], 0)
  }

  function Targeted(work: Option<Work>): Pull {
    Pull(false, 2, None, {Item(0, 1)}, {}, true, work)
  }

  function Scheduled(todo: set<Item>, listed: bool, work: Option<Work>): Pull {
    Pull(true, 5, None, {Item(0, 4)}, todo, listed, work)
  }

  /** Ticks increase, and no step but the eighth lets two pulls past the check of one record. */
  ghost predicate OneSlip(steps: seq<(Step, Time)>) {
    steps != [] ==>
      var n := |steps| - 1;
      && OneSlip(steps[..n])
      && steps[n].1 > Run(Empty(), steps[..n]).clock
      && (n == 7 || OneWriter(Run(Empty(), steps[..n]), steps[n].0))
  }

  lemma Next1(steps: seq<(Step, Time)>, step: Step) returns (more: seq<(Step, Time)>, t: State)
    requires OneSlip(steps) && (|steps| == 7 || OneWriter(Run(Empty(), steps), step))
    ensures OneSlip(more) && |more| == |steps| + 1 && more[..|steps|] == steps && more[|steps|].0 == step
    ensures var r := Run(Empty(), steps); t == Run(Empty(), more) == Next(r, step, r.clock + 1)
  {
    var r := Run(Empty(), steps);
    more := steps + [(step, r.clock + 1)];
    assert more[..|steps|] == steps;
    t := Run(Empty(), more);
  }

  lemma {:induction false} OneSlipMeans(steps: seq<(Step, Time)>)
    requires OneSlip(steps)
    ensures Ticks(Empty(), steps)
    ensures forall k | 0 <= k < |steps| && k != 7 :: OneWriter(Run(Empty(), steps[..k]), steps[k].0)
  {
    if steps != [] {
      var prefix := steps[..|steps| - 1];
      OneSlipMeans(prefix);
      forall k | 0 <= k < |steps| && k != 7 ensures OneWriter(Run(Empty(), steps[..k]), steps[k].0) {
        if k < |prefix| { assert prefix[..k] == steps[..k]; }
      }
    }
  }

  /** Only stamped pushes, payments and pulls. */
  ghost predicate OwnOnly(steps: seq<(Step, Time)>) {
    forall k | 0 <= k < |steps| :: !steps[k].0.Edit? && !steps[k].0.PushUnstamped?
  }

  lemma OwnOnlyGrows(steps: seq<(Step, Time)>, more: seq<(Step, Time)>)
    requires OwnOnly(steps) && |more| == |steps| + 1 && more[..|steps|] == steps
    requires !more[|steps|].0.Edit? && !more[|steps|].0.PushUnstamped?
    ensures OwnOnly(more)
  {
    forall k | 0 <= k < |more| ensures !more[k].0.Edit? && !more[k].0.PushUnstamped? {
      if k < |steps| { assert more[..|steps|][k] == more[k]; }
    }
  }

  /** A targeted pull fetches version 1 and passes its check; Zoho then moves to version 4. */
  lemma Opening() returns (steps: seq<(Step, Time)>)
    ensures OneSlip(steps) && |steps| == 4
    ensures Run(Empty(), steps)
         == State(map[0 := Remote(4, 4)], map[], {}, None, map[1 := Targeted(Some(Work(0, 1, false)))], 4)
  {
    var t;
    steps := [];
    assert Run(Empty(), steps) == Empty();
    steps, t := Next1(steps, Edit(0));
    steps, t := Next1(steps, Target(1, 0));
    assert t.pulls == map[1 := Pull(false, 2, None, {Item(0, 1)}, {Item(0, 1)}, true, None)];
    steps, t := Next1(steps, Check(1, Item(0, 1)));
    assert {Item(0, 1)} - {Item(0, 1)} == {};
    assert t.pulls == map[1 := Targeted(Some(Work(0, 1, false)))];
    steps, t := Next1(steps, Edit(0));
  }

  /** A scheduled pull starts, with one record in Zoho and no cursor yet. */
  lemma StartPart(steps: seq<(Step, Time)>, s: State, id: PullId) returns (more: seq<(Step, Time)>, t: State)
    requires OneSlip(steps) && s == Run(Empty(), steps) && id !in s.pulls && s.cursor.None?
    ensures OneSlip(more) && |more| == |steps| + 1 && more[..|steps|] == steps && more[|steps|].0 == Start(id) && t == Run(Empty(), more)
    ensures t == s.(clock := s.clock + 1, pulls := s.pulls[id := Pull(true, s.clock + 1, None, {}, {}, false, None)])
  {
    more, t := Next1(steps, Start(id));
  }

  /** It lists that record. */
  lemma PagePart(steps: seq<(Step, Time)>, s: State, id: PullId, m: Remote) returns (more: seq<(Step, Time)>, t: State)
    requires OneSlip(steps) && s == Run(Empty(), steps) && s.remote == map[0 := m] && id in s.pulls
    requires s.pulls[id] == Pull(true, s.clock, None, {}, {}, false, None)
    ensures OneSlip(more) && |more| == |steps| + 1 && more[..|steps|] == steps && more[|steps|].0 == ListPage(id, {0}) && t == Run(Empty(), more)
    ensures var i := Item(0, m.mtime);
      t == s.(clock := s.clock + 1, pulls := s.pulls[id := Pull(true, s.clock, None, {i}, {i}, false, None)])
  {
    assert Listed(s, {0}) == {Item(0, m.mtime)};
    assert Listed(s.(clock := s.clock + 1), {0}) == {Item(0, m.mtime)};
    assert {} + {Item(0, m.mtime)} == {Item(0, m.mtime)};
    more, t := Next1(steps, ListPage(id, {0}));
  }

  lemma DonePart(steps: seq<(Step, Time)>, s: State, id: PullId, m: Remote) returns (more: seq<(Step, Time)>, t: State)
    requires OneSlip(steps) && s == Run(Empty(), steps) && s.remote == map[0 := m] && id in s.pulls
    requires Item(0, m.mtime) in s.pulls[id].seen && !s.pulls[id].listed
    ensures OneSlip(more) && |more| == |steps| + 1 && t == Run(Empty(), more)
    ensures t == s.(clock := s.clock + 1, pulls := s.pulls[id := s.pulls[id].(listed := true)])
  {
    more, t := Next1(steps, ListDone(id));
  }

  /** A scheduled pull starts and lists version 4. */
  lemma ListingPart(steps: seq<(Step, Time)>) returns (more: seq<(Step, Time)>, t: State)
    requires OneSlip(steps) && |steps| == 4
    requires Run(Empty(), steps) == State(map[0 := Remote(4, 4)], map[], {}, None, map[1 := Targeted(Some(Work(0, 1, false)))], 4)
    ensures OneSlip(more) && |more| == 7
    ensures t == Run(Empty(), more) && t.remote == map[0 := Remote(4, 4)] && t.rows == map[] && t.failed == {}
    ensures t.pulls == map[1 := Targeted(Some(Work(0, 1, false))), 2 := Scheduled({Item(0, 4)}, true, None)]
  {
    more, t := StartPart(steps, Run(Empty(), steps), 2);
    more, t := PagePart(more, t, 2, Remote(4, 4));
    more, t := DonePart(more, t, 2, Remote(4, 4));
  }

  /** An idle pull with one item left checks it, and passes. */
  lemma CheckPart(steps: seq<(Step, Time)>, s: State, id: PullId, item: Item) returns (more: seq<(Step, Time)>, t: State)
    requires OneSlip(steps) && s == Run(Empty(), steps) && (|steps| == 7 || !WorkedOn(s, item.rec))
    requires id in s.pulls && s.pulls[id].todo == {item} && s.pulls[id].work.None?
    requires !IsOwnPushEcho(Some(item.version), VersionOf(s, item.rec))
    ensures OneSlip(more) && |more| == |steps| + 1 && more[..|steps|] == steps && more[|steps|].0 == Check(id, item) && t == Run(Empty(), more)
    ensures t == s.(clock := s.clock + 1, pulls := s.pulls[id := s.pulls[id].(
      todo := {}, work := Some(Work(item.rec, item.version, LinesOf(s, item.rec).Some?)))])
  {
    assert {item} - {item} == {};
    more, t := Next1(steps, Check(id, item));
  }

  /** It applies version 4: its check is the slip. */
  lemma ApplyingPart(steps: seq<(Step, Time)>, s: State) returns (more: seq<(Step, Time)>, t: State)
    requires OneSlip(steps) && |steps| == 7
    requires s == Run(Empty(), steps) && s.remote == map[0 := Remote(4, 4)] && s.rows == map[] && s.failed == {}
    requires s.pulls == map[1 := Targeted(Some(Work(0, 1, false))), 2 := Scheduled({Item(0, 4)}, true, None)]
    ensures OneSlip(more) && |more| == 9 && t == Run(Empty(), more) && more[..7] == steps && more[7].0 == Check(2, Item(0, 4))
    ensures t.pulls == map[1 := Targeted(Some(Work(0, 1, false))), 2 := Scheduled({}, true, None)]
    ensures t.remote == map[0 := Remote(4, 4)] && t.failed == {} && t.rows == map[0 := Row(Some(4), None)]
  {
    var checked;
    checked, t := CheckPart(steps, s, 2, Item(0, 4));
    assert t.pulls[2] == Scheduled({}, true, Some(Work(0, 4, false)));
    more, t := WritePart(checked, t, 2);
    assert more[..7] == checked[..7];
  }

  /** It finishes, moving the cursor to its start, and the targeted pull's write lands. */
  lemma FinishingPart(steps: seq<(Step, Time)>, s: State) returns (more: seq<(Step, Time)>, t: State)
    requires OneSlip(steps) && |steps| == 9 && s == Run(Empty(), steps) && s.remote == map[0 := Remote(4, 4)] && s.failed == {}
    requires s.pulls == map[1 := Targeted(Some(Work(0, 1, false))), 2 := Scheduled({}, true, None)]
    ensures OneSlip(more) && |more| == 11 && t == Run(Empty(), more) && more[..9] == steps
    ensures t.remote == map[0 := Remote(4, 4)] && t.failed == {} && t.cursor == Some(5) && VersionOf(t, 0) == Some(1)
  {
    var mid;
    mid, t := FinishPart(steps, s, 2);
    assert t.pulls == map[1 := Targeted(Some(Work(0, 1, false)))];
    more, t := WritePart(mid, t, 1);
    assert more[..9] == mid[..9];
  }

  /** A listed scheduled pull with nothing left moves the cursor to its start. */
  lemma FinishPart(steps: seq<(Step, Time)>, s: State, id: PullId) returns (more: seq<(Step, Time)>, t: State)
    requires OneSlip(steps) && s == Run(Empty(), steps)
    requires id in s.pulls && s.pulls[id].scheduled && s.pulls[id].listed && s.pulls[id].todo == {} && s.pulls[id].work.None?
    ensures OneSlip(more) && |more| == |steps| + 1 && more[..|steps|] == steps && t == Run(Empty(), more)
    ensures t == s.(clock := s.clock + 1, pulls := s.pulls - {id}, cursor := Some(s.pulls[id].startedAt))
  {
    more, t := Next1(steps, Finish(id));
  }

  /** A ready header is written. */
  lemma WritePart(steps: seq<(Step, Time)>, s: State, id: PullId) returns (more: seq<(Step, Time)>, t: State)
    requires OneSlip(steps) && s == Run(Empty(), steps) && Ready(s, id)
    ensures OneSlip(more) && |more| == |steps| + 1 && more[..|steps|] == steps && t == Run(Empty(), more)
    ensures var w := s.pulls[id].work.value;
      t == s.(clock := s.clock + 1, pulls := s.pulls[id := s.pulls[id].(work := None)],
              rows := s.rows[w.rec := Row(Some(w.version), LinesOf(s, w.rec))])
  {
    more, t := Next1(steps, Write(id));
  }

  /**
   * Two writers at once lose an update: a targeted pull that passed its check before the edit
   * writes after a scheduled pull has applied the edit and moved the cursor past it. The old
   * version stands, no failure is on record, and no scan since that cursor lists the record again.
   * The scheduled pull's check is the only step of the run that lets in a second writer.
   */
  lemma OverlappingWritersLoseAnUpdate() returns (steps: seq<(Step, Time)>)
    ensures Initial(Empty()) && Ticks(Empty(), steps)
    ensures forall k | 0 <= k < |steps| :: OneWriter(Run(Empty(), steps[..k]), steps[k].0) <==> k != 7
    ensures |steps| == 11 && steps[7].0 == Check(2, Item(0, 4))
    ensures Lost(Run(Empty(), steps), 0) && VersionOf(Run(Empty(), steps), 0) == Some(1)
    ensures Run(Empty(), steps).failed == {}
  {
    steps := Opening();
    var listed, s := ListingPart(steps);
    assert WorkedOn(s, 0) by {
      assert s.pulls[1].work.Some? && s.pulls[1].work.value.rec == 0;
    }
    var applied, u := ApplyingPart(listed, s);
    var t;
    steps, t := FinishingPart(applied, u);
    OneSlipMeans(steps);
    assert steps[..7] == applied[..7] && steps[7] == applied[7];
  }

  // --- The platform's own writes ------------------------------------------------------------------

  /**
   * Issue, settle, push the payment, pull: the payment moves the invoice in Zoho and stamps nothing
   * here, so the next scheduled pull passes its check of an invoice nobody else has ever edited.
   */
  lemma PaymentPushIsReadBack() returns (steps: seq<(Step, Time)>)
    ensures Initial(Empty()) && Ticks(Empty(), steps) && OwnOnly(steps)
    ensures var t := Run(Empty(), steps);
      && t.rows == map[0 := Row(Some(1), Some(1))] && t.remote == map[0 := Remote(2, 0)]
      && 1 in t.pulls && t.pulls[1].work == Some(Work(0, 2, true))
  {
    var one, t := Next1([], Push(0));
    OwnOnlyGrows([], one);
    assert t.remote == map[0 := Remote(1, 0)] && t.rows == map[0 := Row(Some(1), Some(1))] && t.pulls == map[];
    var two;
    two, t := PaymentPart(one, t);
    steps := PaymentRead(two, t);
    OneSlipMeans(steps);
  }

  lemma PaymentPart(steps: seq<(Step, Time)>, s: State) returns (more: seq<(Step, Time)>, t: State)
    requires OneSlip(steps) && OwnOnly(steps) && s == Run(Empty(), steps) && s.remote == map[0 := Remote(1, 0)] && s.clock == 1
    ensures OneSlip(more) && OwnOnly(more) && t == Run(Empty(), more) && |more| == |steps| + 1
    ensures t == s.(clock := 2, remote := map[0 := Remote(2, 0)])
  {
    more, t := Next1(steps, Touch(0));
    OwnOnlyGrows(steps, more);
    assert t.remote == map[0 := Remote(2, 0)];
  }

  lemma PaymentRead(steps: seq<(Step, Time)>, s: State) returns (more: seq<(Step, Time)>)
    requires OneSlip(steps) && OwnOnly(steps) && s == Run(Empty(), steps) && s.pulls == map[] && s.clock == 2 && s.cursor.None?
    requires s.rows == map[0 := Row(Some(1), Some(1))] && s.remote == map[0 := Remote(2, 0)]
    ensures OneSlip(more) && OwnOnly(more)
    ensures var t := Run(Empty(), more);
      && t.rows == s.rows && t.remote == s.remote && 1 in t.pulls && t.pulls[1].work == Some(Work(0, 2, true))
  {
    var a, t := StartPart(steps, s, 1);
    OwnOnlyGrows(steps, a);
    var b;
    b, t := PagePart(a, t, 1, Remote(2, 0));
    OwnOnlyGrows(a, b);
    more, t := CheckPart(b, t, 1, Item(0, 2));
    OwnOnlyGrows(b, more);
  }

  /**
   * A push between a pull's check and its write: the pull stamps the version it listed, older than
   * the push. The platform's own write is then newer than the stored version and is no longer
   * taken for an echo, though nobody else has edited the record since.
   */
  lemma PushBetweenCheckAndWriteLosesTheEcho(s: State, r: Rec, id: PullId, now: Time)
    requires Timed(s) && now > s.clock && r in s.remote
    requires id in s.pulls && s.pulls[id].work.Some? && s.pulls[id].work.value.rec == r && !s.pulls[id].work.value.stale
    requires s.remote[r].mtime == s.pulls[id].work.value.version
    ensures var t := Next(Next(s, Push(r), now), Write(id), now + 1);
      && VersionOf(t, r).Some? && !IsOwnPushEcho(Some(t.remote[r].mtime), VersionOf(t, r))
      && t.remote[r].foreign <= VersionOf(t, r).value
  {
  }

  // --- Line items behind their version ------------------------------------------------------------

  /** Pushed at 1 and edited in Zoho at 2; a targeted pull of version 2 passes its check and waits for its refresh. */
  lemma EditedAndChecked() returns (steps: seq<(Step, Time)>, t: State)
    ensures OneSlip(steps) && t == Run(Empty(), steps)
    ensures t == State(map[0 := Remote(2, 2)], map[0 := Row(Some(1), Some(1))], {}, None,
                       map[1 := Pull(false, 3, None, {Item(0, 2)}, {}, true, Some(Work(0, 2, true)))], 4)
  {
    steps, t := Next1([], Push(0));
    assert t == State(map[0 := Remote(1, 0)], map[0 := Row(Some(1), Some(1))], {}, None, map[], 1);
    steps, t := EditAndFetch(steps, t);
    steps, t := CheckPart(steps, t, 1, Item(0, 2));
  }

  lemma EditAndFetch(steps: seq<(Step, Time)>, s: State) returns (more: seq<(Step, Time)>, t: State)
    requires OneSlip(steps) && s == Run(Empty(), steps)
    requires s == State(map[0 := Remote(1, 0)], map[0 := Row(Some(1), Some(1))], {}, None, map[], 1)
    ensures OneSlip(more) && t == Run(Empty(), more)
    ensures t == s.(remote := map[0 := Remote(2, 2)], clock := 3,
                    pulls := map[1 := Pull(false, 3, None, {Item(0, 2)}, {Item(0, 2)}, true, None)])
  {
    more, t := Next1(steps, Edit(0));
    assert t == s.(remote := map[0 := Remote(2, 2)], clock := 2);
    more, t := Next1(more, Target(1, 0));
  }

  /** A push at 5, then the refresh at 6 with the line items of version 2, and a header that cannot be written. */
  lemma PushedRefreshedFailed(steps: seq<(Step, Time)>, s: State) returns (more: seq<(Step, Time)>, t: State)
    requires OneSlip(steps) && s == Run(Empty(), steps)
    requires s == State(map[0 := Remote(2, 2)], map[0 := Row(Some(1), Some(1))], {}, None,
                        map[1 := Pull(false, 3, None, {Item(0, 2)}, {}, true, Some(Work(0, 2, true)))], 4)
    ensures OneSlip(more) && t == Run(Empty(), more) && t.remote == map[0 := Remote(5, 2)] && t.rows == map[0 := Row(Some(5), Some(2))]
    ensures !WorkedOn(t, 0)
  {
    more, t := Next1(steps, Push(0));
    assert t == s.(clock := 5, remote := map[0 := Remote(5, 2)], rows := map[0 := Row(Some(5), Some(5))]);
    more, t := RefreshAndFail(more, t);
  }

  lemma RefreshAndFail(steps: seq<(Step, Time)>, s: State) returns (more: seq<(Step, Time)>, t: State)
    requires OneSlip(steps) && s == Run(Empty(), steps) && s.remote == map[0 := Remote(5, 2)] && s.rows == map[0 := Row(Some(5), Some(5))]
    requires s.pulls == map[1 := Pull(false, 3, None, {Item(0, 2)}, {}, true, Some(Work(0, 2, true)))]
    ensures OneSlip(more) && t == Run(Empty(), more) && t.remote == s.remote && t.rows == map[0 := Row(Some(5), Some(2))]
    ensures !WorkedOn(t, 0)
  {
    more, t := RefreshPart(steps, s, 1);
    more, t := FailPart(more, t, 1);
    assert t.rows == map[0 := Row(Some(5), Some(2))];
  }

  /** A targeted pull's line items are stored. */
  lemma RefreshPart(steps: seq<(Step, Time)>, s: State, id: PullId) returns (more: seq<(Step, Time)>, t: State)
    requires OneSlip(steps) && s == Run(Empty(), steps) && id in s.pulls && !s.pulls[id].scheduled && s.pulls[id].work.Some?
    requires var w := s.pulls[id].work.value; w.stale && w.rec in s.rows && w.rec in s.remote
    ensures OneSlip(more) && t == Run(Empty(), more)
    ensures var w := s.pulls[id].work.value;
      t == s.(clock := s.clock + 1, pulls := s.pulls[id := s.pulls[id].(work := Some(w.(stale := false)))],
              rows := s.rows[w.rec := s.rows[w.rec].(lines := Some(w.version))])
  {
    more, t := Next1(steps, Refresh(id));
  }

  lemma FailPart(steps: seq<(Step, Time)>, s: State, id: PullId) returns (more: seq<(Step, Time)>, t: State)
    requires OneSlip(steps) && s == Run(Empty(), steps) && id in s.pulls && s.pulls[id].work.Some?
    ensures OneSlip(more) && t == Run(Empty(), more) && t.remote == s.remote && t.rows == s.rows
    ensures t.pulls == s.pulls[id := s.pulls[id].(work := None)]
  {
    more, t := Next1(steps, Fail(id));
  }

  /**
   * Zoho's version 5 is stored beside line items of version 2, and stays so however the run goes on
   * without another write of the record in Zoho: every later check takes it for an echo.
   */
  lemma TargetedRefreshLeavesOldLines() returns (steps: seq<(Step, Time)>)
    ensures Initial(Empty()) && Ticks(Empty(), steps)
    ensures Run(Empty(), steps).remote == map[0 := Remote(5, 2)]
    ensures forall more | Ticks(Empty(), more) && Continues(steps, more, 0) ::
      0 in Run(Empty(), more).rows && Run(Empty(), more).rows[0] == Row(Some(5), Some(2))
  {
    var t;
    steps, t := EditedAndChecked();
    steps, t := PushedRefreshedFailed(steps, t);
    OneSlipMeans(steps);
    RunTimed(Empty(), steps);
    assert Masked(t, 0);
    forall more | Ticks(Empty(), more) && Continues(steps, more, 0)
      ensures 0 in Run(Empty(), more).rows && Run(Empty(), more).rows[0] == Row(Some(5), Some(2))
    {
      MaskedRun(Empty(), steps, more, 0);
    }
  }
}
