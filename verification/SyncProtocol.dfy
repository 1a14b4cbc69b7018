/**
 * Zoho and the local invoices of one brand as a protocol: edits in Zoho, pushes from here, any
 * number of overlapping scheduled pulls, and targeted pulls of single invoices. The read that
 * decides whether a listed invoice is an echo and the write that stamps it are separate steps.
 */
module SyncProtocol {
  import opened Common
  import opened ZohoRecords

  type Rec = nat
  type PullId = nat

  /** What Zoho reports of a record, and when someone other than this platform last edited it. */
  datatype Remote = Remote(mtime: Time, foreign: Time)

  /** The stored version, and the remote version the stored line items reflect (none while there are none). */
  datatype Row = Row(version: Option<Time>, lines: Option<Time>)

  /** A record as one list page or detail showed it. */
  datatype Item = Item(rec: Rec, version: Time)

  /** A record past its echo check; `stale` while stored line items await their refresh. */
  datatype Work = Work(rec: Rec, version: Time, stale: bool)

  datatype Pull = Pull(
    scheduled: bool, startedAt: Time, since: Option<Time>,
    seen: set<Item>, todo: set<Item>, listed: bool, work: Option<Work>)

  datatype State = State(
    remote: map<Rec, Remote>, rows: map<Rec, Row>, failed: set<Item>,
    cursor: Option<Time>, pulls: map<PullId, Pull>, clock: Time)

  datatype Step =
    | Edit(rec: Rec)                      // someone else creates or edits the record in Zoho
    | Push(rec: Rec)                      // this platform writes it; the response carries the timestamp
    | PushUnstamped(rec: Rec)             // the same, with no timestamp to be had: the version is cleared
    | Touch(rec: Rec)                     // an own write that stamps nothing: a payment applied, a push that failed after Zoho took it
    | Start(pull: PullId)
    | Target(pull: PullId, rec: Rec)      // a webhook's targeted pull fetches the detail
    | ListPage(pull: PullId, recs: set<Rec>)
    | ListDone(pull: PullId)
    | Check(pull: PullId, item: Item)     // reads the local row and decides
    | Refresh(pull: PullId)               // line items of an invoice that had some at the check
    | Write(pull: PullId)                 // the header, with the version
    | Fail(pull: PullId)                  // a record-specific failure, recorded and tolerated
    | Abort(pull: PullId)                 // a systemic or unknown error ends the pull
    | Finish(pull: PullId)
    | Enrich(rec: Rec)                    // line items fetched when the invoice is first opened

  function VersionOf(s: State, r: Rec): Option<Time> {
    if r in s.rows then s.rows[r].version else None
  }

  function LinesOf(s: State, r: Rec): Option<Time> {
    if r in s.rows then s.rows[r].lines else None
  }

  function ForeignOf(s: State, r: Rec): Time {
    if r in s.remote then s.remote[r].foreign else 0
  }

  /** The scan reached its last page: everything modified since the cursor and not touched during the scan was listed. */
  ghost predicate Complete(s: State, p: Pull) {
    forall r | r in s.remote && s.remote[r].mtime < p.startedAt && !Before(s.remote[r].mtime, p.since) ::
      Item(r, s.remote[r].mtime) in p.seen
  }

  predicate Before(t: Time, cursor: Option<Time>) {
    cursor.Some? && t < cursor.value
  }

  function Listed(s: State, recs: set<Rec>): set<Item> {
    set r | r in recs && r in s.remote :: Item(r, s.remote[r].mtime)
  }

  function WithPull(s: State, id: PullId, p: Pull): State {
    s.(pulls := s.pulls[id := p])
  }

  ghost function Next(s: State, step: Step, now: Time): State {
    var t := s.(clock := now);
    match step
    case Edit(r) => t.(remote := s.remote[r := Remote(now, now)])
    case Push(r) =>
      t.(remote := s.remote[r := Remote(now, ForeignOf(s, r))], rows := s.rows[r := Row(Some(now), Some(now))])
    case PushUnstamped(r) =>
      t.(remote := s.remote[r := Remote(now, ForeignOf(s, r))], rows := s.rows[r := Row(None, Some(now))])
    case Touch(r) => t.(remote := s.remote[r := Remote(now, ForeignOf(s, r))])
    case Start(id) =>
      if id in s.pulls then t else WithPull(t, id, Pull(true, now, s.cursor, {}, {}, false, None))
    case Target(id, r) =>
      if id in s.pulls || r !in s.remote then t
      else
        var item := Item(r, s.remote[r].mtime);
        WithPull(t, id, Pull(false, now, None, {item}, {item}, true, None))
    case Enrich(r) =>
      if r in s.rows && r in s.remote && s.rows[r].lines.None?
      then t.(rows := s.rows[r := s.rows[r].(lines := Some(s.remote[r].mtime))]) else t
    case _ =>
      if step.pull in s.pulls then PullNext(t, step, s.pulls[step.pull]) else t
  }

  /** The steps of a pull that is under way. */
  predicate InPull(step: Step) {
    step.ListPage? || step.ListDone? || step.Check? || step.Refresh? || step.Write? || step.Fail? || step.Abort? || step.Finish?
  }

  predicate IsPullStep(step: Step) {
    InPull(step) || step.Start? || step.Target?
  }

  /** A step of a pull that is under way. */
  ghost function PullNext(s: State, step: Step, p: Pull): State
    requires InPull(step)
  {
    match step
    case ListPage(id, recs) =>
      if p.listed then s
      else WithPull(s, id, p.(seen := p.seen + Listed(s, recs), todo := p.todo + Listed(s, recs)))
    case ListDone(id) =>
      if Complete(s, p) then WithPull(s, id, p.(listed := true)) else s
    case Check(id, item) =>
      if item !in p.todo || p.work.Some? then s
      else if IsOwnPushEcho(Some(item.version), VersionOf(s, item.rec)) then WithPull(s, id, p.(todo := p.todo - {item}))
      else WithPull(s, id, p.(
        todo := p.todo - {item}, work := Some(Work(item.rec, item.version, LinesOf(s, item.rec).Some?))))
    case Refresh(id) =>
      if p.work.None? || !p.work.value.stale || p.work.value.rec !in s.rows || p.work.value.rec !in s.remote then s
      else
        var w := p.work.value;
        var lines := if p.scheduled then s.remote[w.rec].mtime else w.version;
        WithPull(s, id, p.(work := Some(w.(stale := false)))).(
          rows := s.rows[w.rec := s.rows[w.rec].(lines := Some(lines))])
    case Write(id) =>
      if p.work.None? || p.work.value.stale then s
      else
        var w := p.work.value;
        WithPull(s, id, p.(work := None)).(rows := s.rows[w.rec := Row(Some(w.version), LinesOf(s, w.rec))])
    case Fail(id) =>
      if p.work.None? then s
      else WithPull(s, id, p.(work := None)).(failed := s.failed + {Item(p.work.value.rec, p.work.value.version)})
    case Abort(id) => s.(pulls := s.pulls - {id})
    case Finish(id) =>
      if !p.listed || p.todo != {} || p.work.Some? then s
      else s.(pulls := s.pulls - {id}, cursor := if p.scheduled then Some(p.startedAt) else s.cursor)
  }

  ghost function Run(s: State, steps: seq<(Step, Time)>): State {
    if steps == [] then s
    else
      var (step, now) := steps[|steps| - 1];
      Next(Run(s, steps[..|steps| - 1]), step, now)
  }

  /** Increasing ticks, and nothing else: any overlap of pulls, pushes and edits. */
  ghost predicate Ticks(s: State, steps: seq<(Step, Time)>) {
    steps != [] ==>
      && Ticks(s, steps[..|steps| - 1])
      && steps[|steps| - 1].1 > Run(s, steps[..|steps| - 1]).clock
  }

  /** Nothing pulled, nothing pushed; Zoho may already hold anything others have put there. */
  ghost predicate Initial(s: State) {
    && s.rows == map[] && s.failed == {} && s.cursor.None? && s.pulls == map[] && s.clock >= 0
    && forall r | r in s.remote :: 0 <= s.remote[r].foreign == s.remote[r].mtime <= s.clock
  }

  /** A scheduled pull's scan may end exactly when it has listed whatever changed since the cursor, and then lists no more. */
  lemma ScanEndsIff(s: State, id: PullId, recs: set<Rec>, more: set<Rec>, now: Time)
    requires id !in s.pulls && forall r | r in s.remote :: s.remote[r].mtime < now
    ensures var listed := Next(Next(s, Start(id), now), ListPage(id, recs), now + 1);
      var t := Next(listed, ListDone(id), now + 2);
      && id in t.pulls && t.pulls[id].startedAt == now
      && (t.pulls[id].listed <==>
            forall r | r in s.remote && (s.cursor.None? || s.cursor.value <= s.remote[r].mtime) :: r in recs)
      && (t.pulls[id].listed ==> Next(t, ListPage(id, more), now + 3).pulls == t.pulls)
  {
    var listed := Next(Next(s, Start(id), now), ListPage(id, recs), now + 1);
    assert listed.pulls[id].seen == Listed(s, recs);
    forall r | r in s.remote ensures Item(r, s.remote[r].mtime) in Listed(s, recs) <==> r in recs {
    }
  }

  // --- Times ---------------------------------------------------------------------------------

  ghost predicate KnownItem(s: State, i: Item) {
    i.rec in s.remote && i.version <= s.remote[i.rec].mtime
  }

  /** Times never run ahead: of a row, of its remote; of a remote, of the clock. */
  ghost predicate Timed(s: State) {
    && s.clock >= 0
    && (s.cursor.Some? ==> s.cursor.value <= s.clock)
    && (forall r | r in s.remote :: 0 <= s.remote[r].foreign <= s.remote[r].mtime <= s.clock)
    && (forall r | r in s.rows :: TimedRow(s, r))
    && (forall id | id in s.pulls :: TimedPull(s, s.pulls[id]))
  }

  ghost predicate TimedRow(s: State, r: Rec)
    requires r in s.rows
  {
    && (s.rows[r].version.Some? ==> KnownItem(s, Item(r, s.rows[r].version.value)))
    && (s.rows[r].lines.Some? ==> KnownItem(s, Item(r, s.rows[r].lines.value)))
  }

  ghost predicate TimedPull(s: State, p: Pull) {
    && p.startedAt <= s.clock
    && (forall i | i in p.todo :: KnownItem(s, i))
    && (p.work.Some? ==>
          && KnownItem(s, Item(p.work.value.rec, p.work.value.version))
          && (p.work.value.stale ==> p.work.value.rec in s.rows))
  }

  /** Pulls, rows and remotes keep their times when remotes only move forward and what is new is known. */
  lemma TimedKept(s: State, t: State)
    requires Timed(s) && t.clock >= s.clock && (t.cursor.Some? ==> t.cursor.value <= t.clock)
    requires forall r | r in s.remote :: r in t.remote && s.remote[r].mtime <= t.remote[r].mtime
    requires forall r | r in t.remote :: 0 <= t.remote[r].foreign <= t.remote[r].mtime <= t.clock
    requires s.rows.Keys <= t.rows.Keys
    requires forall r | r in t.rows :: (r in s.rows && t.rows[r] == s.rows[r]) || TimedRow(t, r)
    requires forall id | id in t.pulls :: (id in s.pulls && t.pulls[id] == s.pulls[id]) || TimedPull(t, t.pulls[id])
    ensures Timed(t)
  {
    forall r | r in t.rows ensures TimedRow(t, r) {
      if r in s.rows { assert TimedRow(s, r); }
    }
    forall id | id in t.pulls ensures TimedPull(t, t.pulls[id]) {
      if id in s.pulls { assert TimedPull(s, s.pulls[id]); }
    }
  }

  lemma RefreshTimed(s: State, id: PullId)
    requires Timed(s) && id in s.pulls
    ensures Timed(PullNext(s, Refresh(id), s.pulls[id]))
  {
    var p := s.pulls[id];
    assert TimedPull(s, p);
    if p.work.Some? && p.work.value.rec in s.rows {
      assert TimedRow(s, p.work.value.rec);
    }
    TimedKept(s, PullNext(s, Refresh(id), p));
  }

  lemma WriteTimed(s: State, id: PullId)
    requires Timed(s) && id in s.pulls
    ensures Timed(PullNext(s, Write(id), s.pulls[id]))
  {
    var p := s.pulls[id];
    assert TimedPull(s, p);
    if p.work.Some? && p.work.value.rec in s.rows {
      assert TimedRow(s, p.work.value.rec);
    }
    TimedKept(s, PullNext(s, Write(id), p));
  }

  lemma CheckTimed(s: State, id: PullId, item: Item)
    requires Timed(s) && id in s.pulls
    ensures Timed(PullNext(s, Check(id, item), s.pulls[id]))
  {
    assert TimedPull(s, s.pulls[id]);
    if item in s.pulls[id].todo { assert KnownItem(s, item); }
    TimedKept(s, PullNext(s, Check(id, item), s.pulls[id]));
  }

  lemma ListPageTimed(s: State, id: PullId, recs: set<Rec>)
    requires Timed(s) && id in s.pulls
    ensures Timed(PullNext(s, ListPage(id, recs), s.pulls[id]))
  {
    assert TimedPull(s, s.pulls[id]);
    TimedKept(s, PullNext(s, ListPage(id, recs), s.pulls[id]));
  }

  lemma PullStepTimed(s: State, step: Step, p: Pull)
    requires Timed(s) && InPull(step) && step.pull in s.pulls && s.pulls[step.pull] == p
    ensures Timed(PullNext(s, step, p))
  {
    assert TimedPull(s, p);
    if step.Refresh? {
      RefreshTimed(s, step.pull);
    } else if step.Write? {
      WriteTimed(s, step.pull);
    } else if step.Check? {
      CheckTimed(s, step.pull, step.item);
    } else if step.ListPage? {
      ListPageTimed(s, step.pull, step.recs);
    } else {
      TimedKept(s, PullNext(s, step, p));
    }
  }

  lemma LaterTimed(s: State, now: Time)
    requires Timed(s) && now > s.clock
    ensures Timed(s.(clock := now))
  {
    TimedKept(s, s.(clock := now));
  }

  predicate IsRemoteWrite(step: Step) {
    step.Edit? || step.Push? || step.PushUnstamped? || step.Touch?
  }

  lemma RemoteWriteTimed(s: State, step: Step, now: Time)
    requires Timed(s) && now > s.clock && IsRemoteWrite(step)
    ensures Timed(Next(s, step, now))
  {
    TimedKept(s, Next(s, step, now));
  }

  lemma OutsideTimed(s: State, step: Step, now: Time)
    requires Timed(s) && now > s.clock && !InPull(step)
    ensures Timed(Next(s, step, now))
  {
    if IsRemoteWrite(step) {
      RemoteWriteTimed(s, step, now);
    } else {
      if step.Enrich? && step.rec in s.rows { assert TimedRow(s, step.rec); }
      TimedKept(s, Next(s, step, now));
    }
  }

  lemma StepTimed(s: State, step: Step, now: Time)
    requires Timed(s) && now > s.clock
    ensures Timed(Next(s, step, now))
  {
    if InPull(step) {
      LaterTimed(s, now);
      if step.pull in s.pulls { PullStepTimed(s.(clock := now), step, s.pulls[step.pull]); }
    } else {
      OutsideTimed(s, step, now);
    }
  }

  lemma {:induction false} RunTimed(s: State, steps: seq<(Step, Time)>)
    requires Initial(s) && Ticks(s, steps)
    ensures Timed(Run(s, steps))
  {
    if steps != [] {
      RunTimed(s, steps[..|steps| - 1]);
      StepTimed(Run(s, steps[..|steps| - 1]), steps[|steps| - 1].0, steps[|steps| - 1].1);
    }
  }

  // --- The invariant ---------------------------------------------------------------------------

  /** Zoho's current version is stored, or its failure is on record. */
  ghost predicate Held(s: State, r: Rec)
    requires r in s.remote
  {
    || Item(r, s.remote[r].mtime) in s.failed
    || (VersionOf(s, r).Some? && VersionOf(s, r).value >= s.remote[r].mtime)
  }

  /** The pull still has this version of the record to list, check or write. */
  ghost predicate Ahead(p: Pull, i: Item) {
    || i in p.todo
    || (p.work.Some? && p.work.value.rec == i.rec && p.work.value.version == i.version)
    || (!p.listed && !Before(i.version, p.since) && i !in p.seen)
  }

  /** The pull will move the cursor past this version without meeting it again. */
  ghost predicate Behind(p: Pull, i: Item) {
    p.scheduled && i.version < p.startedAt && !Ahead(p, i)
  }

  /** No scan will list the record's current version again, or some pull is on its way to seeing to that. */
  ghost predicate Relied(s: State, r: Rec)
    requires r in s.remote
  {
    || Before(s.remote[r].mtime, s.cursor)
    || exists id :: id in s.pulls && Behind(s.pulls[id], Item(r, s.remote[r].mtime))
  }

  /** Whatever is relied on is held. */
  ghost predicate Covered(s: State) {
    forall r | r in s.remote && Relied(s, r) :: Held(s, r)
  }

  ghost predicate Inv(s: State) {
    Timed(s) && Covered(s)
  }

  // --- The one step that can lose an update ------------------------------------------------------

  /** A write that is ready to be made. */
  predicate Ready(s: State, id: PullId) {
    id in s.pulls && s.pulls[id].work.Some? && !s.pulls[id].work.value.stale
  }

  /** It would put an older version over the one Zoho holds now: the test a conditional update would make. */
  predicate OverwritesHeld(s: State, w: Work) {
    && w.rec in s.remote && w.version < s.remote[w.rec].mtime
    && VersionOf(s, w.rec).Some? && VersionOf(s, w.rec).value >= s.remote[w.rec].mtime
  }

  /** The step overwrites a current version that is relied on and whose failure is not on record. */
  ghost predicate LosesUpdate(s: State, step: Step) {
    && step.Write? && Ready(s, step.pull)
    && var w := s.pulls[step.pull].work.value;
       OverwritesHeld(s, w) && Relied(s, w.rec) && Item(w.rec, s.remote[w.rec].mtime) !in s.failed
  }

  /** A ready write makes a held record unheld exactly when it overwrites the current version with an older one. */
  lemma WriteUnholdsIff(s: State, id: PullId)
    requires Timed(s) && Ready(s, id)
    ensures var w := s.pulls[id].work.value; var t := PullNext(s, Write(id), s.pulls[id]);
      && w.rec in s.remote && w.rec in t.remote
      && (Held(s, w.rec) && !Held(t, w.rec)
          <==> OverwritesHeld(s, w) && Item(w.rec, s.remote[w.rec].mtime) !in s.failed)
      && forall r | r in s.remote && r != w.rec :: r in t.remote && (Held(s, r) <==> Held(t, r))
  {
    assert TimedPull(s, s.pulls[id]);
  }

  // --- Every other step keeps it --------------------------------------------------------------------

  /** What was held stays held while its remote and its version do. */
  lemma HeldKept(s: State, t: State, r: Rec)
    requires r in s.remote && r in t.remote && t.remote[r].mtime == s.remote[r].mtime
    requires s.failed <= t.failed && VersionOf(t, r) == VersionOf(s, r)
    ensures Held(s, r) ==> Held(t, r)
  {
  }

  /** A remote write lands after every cursor and every pull's start, so it is nobody's obligation yet. */
  lemma RemoteWriteKeeps(s: State, t: State, r: Rec)
    requires Inv(s) && Timed(t) && t.clock > s.clock
    requires t.remote.Keys == s.remote.Keys + {r} && t.remote[r].mtime == t.clock
    requires forall q | q in s.remote && q != r :: t.remote[q] == s.remote[q] && VersionOf(t, q) == VersionOf(s, q)
    requires t.failed == s.failed && t.cursor == s.cursor && t.pulls == s.pulls
    ensures Inv(t)
  {
    forall id | id in t.pulls ensures !Behind(t.pulls[id], Item(r, t.clock)) {
      assert TimedPull(s, s.pulls[id]);
    }
    assert !Relied(t, r);
    forall q | q in t.remote && Relied(t, q) ensures Held(t, q) {
      ReliedBefore(s, t, q);
      HeldKept(s, t, q);
    }
  }

  lemma ReliedBefore(s: State, t: State, r: Rec)
    requires r in s.remote && r in t.remote && t.remote[r].mtime == s.remote[r].mtime
    requires t.cursor == s.cursor && t.pulls == s.pulls
    ensures Relied(t, r) <==> Relied(s, r)
  {
  }

  /** Versions and failures are only added to, and no pull falls behind on anything that is not held. */
  lemma PullsMoveKeeps(s: State, t: State)
    requires Inv(s) && Timed(t) && t.remote == s.remote && s.failed <= t.failed && t.cursor == s.cursor
    requires forall r | r in s.remote :: VersionOf(t, r) == VersionOf(s, r)
    requires forall id, r | id in t.pulls && r in s.remote && Behind(t.pulls[id], Item(r, s.remote[r].mtime)) ::
      Held(t, r) || (id in s.pulls && Behind(s.pulls[id], Item(r, s.remote[r].mtime)))
    ensures Inv(t)
  {
    forall r | r in t.remote && Relied(t, r) ensures Held(t, r) {
      if !Held(t, r) {
        assert Relied(s, r);
        HeldKept(s, t, r);
      }
    }
  }

  /** A new pull relies on the cursor alone: it still has everything since then to list. */
  lemma StartKeeps(s: State, id: PullId, now: Time)
    requires Inv(s) && now > s.clock && id !in s.pulls
    ensures Inv(Next(s, Start(id), now))
  {
    var t := Next(s, Start(id), now);
    StepTimed(s, Start(id), now);
    forall q, r | q in t.pulls && r in s.remote && Behind(t.pulls[q], Item(r, s.remote[r].mtime))
      ensures Held(t, r) || (q in s.pulls && Behind(s.pulls[q], Item(r, s.remote[r].mtime)))
    {
      if q == id {
        assert Before(s.remote[r].mtime, s.cursor) && Relied(s, r);
        HeldKept(s, t, r);
      }
    }
    PullsMoveKeeps(s, t);
  }

  /** A pull changes its own entry alone, and falls behind on nothing that is not held. */
  lemma OwnEntryKeeps(s: State, t: State, id: PullId)
    requires Inv(s) && Timed(t) && id in s.pulls && id in t.pulls
    requires t.remote == s.remote && t.rows == s.rows && s.failed <= t.failed && t.cursor == s.cursor
    requires t.pulls == s.pulls[id := t.pulls[id]] && t.pulls[id].startedAt == s.pulls[id].startedAt
    requires forall r | r in s.remote && s.remote[r].mtime < s.pulls[id].startedAt && Ahead(s.pulls[id], Item(r, s.remote[r].mtime)) ::
      Ahead(t.pulls[id], Item(r, s.remote[r].mtime)) || Held(t, r)
    requires t.pulls[id].scheduled ==> s.pulls[id].scheduled
    ensures Inv(t)
  {
    PullsMoveKeeps(s, t);
  }

  lemma CheckKeeps(s: State, id: PullId, item: Item)
    requires Inv(s) && id in s.pulls
    ensures Inv(PullNext(s, Check(id, item), s.pulls[id]))
  {
    var t := PullNext(s, Check(id, item), s.pulls[id]);
    PullStepTimed(s, Check(id, item), s.pulls[id]);
    OwnEntryKeeps(s, t, id);
  }

  lemma FailKeeps(s: State, id: PullId)
    requires Inv(s) && id in s.pulls
    ensures Inv(PullNext(s, Fail(id), s.pulls[id]))
  {
    var t := PullNext(s, Fail(id), s.pulls[id]);
    PullStepTimed(s, Fail(id), s.pulls[id]);
    OwnEntryKeeps(s, t, id);
  }

  /**
   * A refresh of line items keeps coverage, stamps no version, and leaves an item that was due still
   * due: if its write never comes, the next pull meets it again.
   */
  lemma RefreshKeeps(s: State, id: PullId)
    requires Inv(s) && id in s.pulls
    ensures var t := PullNext(s, Refresh(id), s.pulls[id]);
      && Inv(t)
      && (forall r :: VersionOf(t, r) == VersionOf(s, r))
      && (s.pulls[id].work.Some? ==> var w := s.pulls[id].work.value;
           IsOwnPushEcho(Some(w.version), VersionOf(t, w.rec)) <==> IsOwnPushEcho(Some(w.version), VersionOf(s, w.rec)))
  {
    var t := PullNext(s, Refresh(id), s.pulls[id]);
    PullStepTimed(s, Refresh(id), s.pulls[id]);
    forall q, r | q in t.pulls && r in s.remote && Behind(t.pulls[q], Item(r, s.remote[r].mtime))
      ensures q in s.pulls && Behind(s.pulls[q], Item(r, s.remote[r].mtime))
    {
    }
    PullsMoveKeeps(s, t);
  }

  /** A write keeps coverage exactly when it is not the one step that loses an update. */
  lemma WriteKeepsIff(s: State, id: PullId)
    requires Inv(s) && id in s.pulls
    ensures Inv(PullNext(s, Write(id), s.pulls[id])) <==> !LosesUpdate(s, Write(id))
  {
    var t := PullNext(s, Write(id), s.pulls[id]);
    PullStepTimed(s, Write(id), s.pulls[id]);
    if Ready(s, id) {
      var w := s.pulls[id].work.value;
      WriteUnholdsIff(s, id);
      forall r | r in s.remote && (r != w.rec || w.version < s.remote[r].mtime) ensures Relied(t, r) <==> Relied(s, r) {
        WriteRelied(s, id, r);
      }
      if !LosesUpdate(s, Write(id)) {
        forall r | r in t.remote && Relied(t, r) ensures Held(t, r) {
          if r != w.rec || w.version < s.remote[r].mtime { assert Relied(s, r) && Held(s, r); }
        }
      } else {
        assert Relied(t, w.rec) && !Held(t, w.rec);
      }
    }
  }

  /** Ending its work puts the pull behind on nothing but the version it worked on. */
  lemma WriteRelied(s: State, id: PullId, r: Rec)
    requires Timed(s) && Ready(s, id) && r in s.remote
    requires r != s.pulls[id].work.value.rec || s.pulls[id].work.value.version < s.remote[r].mtime
    ensures var t := PullNext(s, Write(id), s.pulls[id]); r in t.remote && (Relied(t, r) <==> Relied(s, r))
  {
    var t := PullNext(s, Write(id), s.pulls[id]);
    var i := Item(r, s.remote[r].mtime);
    assert Ahead(t.pulls[id], i) <==> Ahead(s.pulls[id], i);
    assert forall q | q in s.pulls :: Behind(t.pulls[q], i) <==> Behind(s.pulls[q], i);
  }

  /** A pull may move the cursor to its own start because by then everything older is held. */
  lemma FinishCovers(s: State, id: PullId)
    requires Inv(s) && id in s.pulls && s.pulls[id].scheduled
    requires s.pulls[id].listed && s.pulls[id].todo == {} && s.pulls[id].work.None?
    ensures forall r | r in s.remote && s.remote[r].mtime < s.pulls[id].startedAt :: Held(s, r)
  {
    forall r | r in s.remote && s.remote[r].mtime < s.pulls[id].startedAt ensures Held(s, r) {
      assert Behind(s.pulls[id], Item(r, s.remote[r].mtime));
    }
  }

  /** The pull is gone: finished with everything listed and dealt with, or aborted without moving the cursor. */
  lemma EndKeeps(s: State, t: State, id: PullId)
    requires Inv(s) && Timed(t) && id in s.pulls && t == s.(pulls := s.pulls - {id}, cursor := t.cursor)
    requires t.cursor == s.cursor || forall r | r in s.remote && Before(s.remote[r].mtime, t.cursor) :: Held(s, r)
    ensures Inv(t)
  {
    forall r | r in t.remote && Relied(t, r) ensures Held(t, r) {
      if !Before(t.remote[r].mtime, t.cursor) || t.cursor == s.cursor {
        assert Relied(s, r);
      }
      assert Held(s, r);
    }
  }

  lemma PullStepKeepsIff(s: State, step: Step, p: Pull)
    requires InPull(step) && Inv(s) && step.pull in s.pulls && s.pulls[step.pull] == p
    ensures Inv(PullNext(s, step, p)) <==> !LosesUpdate(s, step)
  {
    var t := PullNext(s, step, p);
    PullStepTimed(s, step, p);
    match step
    case ListPage(id, recs) => OwnEntryKeeps(s, t, id);
    case ListDone(id) => OwnEntryKeeps(s, t, id);
    case Check(id, item) => CheckKeeps(s, id, item);
    case Refresh(id) => RefreshKeeps(s, id);
    case Write(id) => WriteKeepsIff(s, id);
    case Fail(id) => FailKeeps(s, id);
    case Abort(id) => EndKeeps(s, t, id);
    case Finish(id) =>
      if p.listed && p.todo == {} && p.work.None? {
        if p.scheduled { FinishCovers(s, id); }
        EndKeeps(s, t, id);
      }
  }

  lemma LaterKeeps(s: State, now: Time)
    requires Inv(s) && now > s.clock
    ensures Inv(s.(clock := now))
  {
    LaterTimed(s, now);
    PullsMoveKeeps(s, s.(clock := now));
  }

  lemma SameLoss(s: State, now: Time, step: Step)
    ensures LosesUpdate(s.(clock := now), step) <==> LosesUpdate(s, step)
  {
    var t := s.(clock := now);
    if step.Write? && Ready(s, step.pull) && s.pulls[step.pull].work.value.rec in s.remote {
      ReliedBefore(s, t, s.pulls[step.pull].work.value.rec);
    }
  }

  /** From a covered state, a step leaves a covered state exactly when it is not such a write. */
  lemma StepKeepsIff(s: State, step: Step, now: Time)
    requires Inv(s) && now > s.clock
    ensures Inv(Next(s, step, now)) <==> !LosesUpdate(s, step)
  {
    StepTimed(s, step, now);
    if InPull(step) {
      LaterKeeps(s, now);
      SameLoss(s, now, step);
      if step.pull in s.pulls { PullStepKeepsIff(s.(clock := now), step, s.pulls[step.pull]); }
    } else {
      OutsideStepKeeps(s, step, now);
    }
  }

  lemma RemoteStepKeeps(s: State, step: Step, now: Time)
    requires Inv(s) && now > s.clock && IsRemoteWrite(step)
    ensures Inv(Next(s, step, now))
  {
    var t := Next(s, step, now);
    OutsideTimed(s, step, now);
    RemoteWriteKeeps(s, t, step.rec);
  }

  lemma OutsideStepKeeps(s: State, step: Step, now: Time)
    requires Inv(s) && now > s.clock && !InPull(step)
    ensures Inv(Next(s, step, now))
  {
    if IsRemoteWrite(step) {
      RemoteStepKeeps(s, step, now);
    } else if step.Start? && step.pull !in s.pulls {
      StartKeeps(s, step.pull, now);
    } else {
      OutsideTimed(s, step, now);
      PullsMoveKeeps(s, Next(s, step, now));
    }
  }

  // --- Whole runs -----------------------------------------------------------------------------------

  ghost predicate LosesNothing(s: State, steps: seq<(Step, Time)>) {
    forall k | 0 <= k < |steps| :: !LosesUpdate(Run(s, steps[..k]), steps[k].0)
  }

  ghost predicate AlwaysCovered(s: State, steps: seq<(Step, Time)>) {
    forall k | 0 <= k <= |steps| :: Covered(Run(s, steps[..k]))
  }

  lemma InitialCovered(s: State)
    requires Initial(s)
    ensures Inv(s)
  {
  }

  lemma {:induction false} LosesNothingCovered(s: State, steps: seq<(Step, Time)>)
    requires Inv(s) && Ticks(s, steps) && LosesNothing(s, steps)
    ensures Inv(Run(s, steps))
  {
    if steps != [] {
      var prefix := steps[..|steps| - 1];
      forall k | 0 <= k < |prefix| ensures !LosesUpdate(Run(s, prefix[..k]), prefix[k].0) {
        assert prefix[..k] == steps[..k];
      }
      LosesNothingCovered(s, prefix);
      assert steps[..|steps| - 1] == prefix;
      StepKeepsIff(Run(s, prefix), steps[|steps| - 1].0, steps[|steps| - 1].1);
    }
  }

  lemma {:induction false} TicksPrefix(s: State, steps: seq<(Step, Time)>, k: nat)
    requires Ticks(s, steps) && k <= |steps|
    ensures Ticks(s, steps[..k])
    ensures k < |steps| ==> steps[k].1 > Run(s, steps[..k]).clock
  {
    if k < |steps| {
      TicksPrefix(s, steps[..|steps| - 1], k);
      assert steps[..|steps| - 1][..k] == steps[..k];
    } else {
      assert steps[..k] == steps;
    }
  }

  /** A run is covered throughout exactly when none of its steps is such a write. */
  lemma AlwaysCoveredIff(s: State, steps: seq<(Step, Time)>)
    requires Initial(s) && Ticks(s, steps)
    ensures AlwaysCovered(s, steps) <==> LosesNothing(s, steps)
  {
    InitialCovered(s);
    if LosesNothing(s, steps) {
      forall k | 0 <= k <= |steps| ensures Covered(Run(s, steps[..k])) {
        TicksPrefix(s, steps, k);
        forall j | 0 <= j < k ensures !LosesUpdate(Run(s, steps[..k][..j]), steps[..k][j].0) {
          assert steps[..k][..j] == steps[..j];
        }
        LosesNothingCovered(s, steps[..k]);
      }
    }
    if AlwaysCovered(s, steps) {
      forall k | 0 <= k < |steps| ensures !LosesUpdate(Run(s, steps[..k]), steps[k].0) {
        TicksPrefix(s, steps, k);
        RunTimed(s, steps[..k]);
        assert Covered(Run(s, steps[..k])) && Covered(Run(s, steps[..k + 1]));
        assert steps[..k + 1][..k] == steps[..k];
        StepTimed(Run(s, steps[..k]), steps[k].0, steps[k].1);
        StepKeepsIff(Run(s, steps[..k]), steps[k].0, steps[k].1);
      }
    }
  }

  lemma CoveredMeans(t: State, r: Rec)
    requires Inv(t)
    ensures r in t.remote && Before(t.remote[r].mtime, t.cursor) ==>
      || VersionOf(t, r) == Some(t.remote[r].mtime)
      || Item(r, t.remote[r].mtime) in t.failed
  {
    if r in t.remote && Before(t.remote[r].mtime, t.cursor) {
      assert Held(t, r);
      if r in t.rows { assert TimedRow(t, r); }
    }
  }

  /**
   * No lost update: for any overlap of pulls, unless some write put an older version over a current
   * one that was relied on, whatever Zoho last changed before the cursor is stored at exactly that
   * version, or that version's own failure is on record.
   */
  lemma NoLostUpdate(s: State, steps: seq<(Step, Time)>, r: Rec)
    requires Initial(s) && Ticks(s, steps) && LosesNothing(s, steps)
    ensures var t := Run(s, steps);
      r in t.remote && Before(t.remote[r].mtime, t.cursor) ==>
        || VersionOf(t, r) == Some(t.remote[r].mtime)
        || Item(r, t.remote[r].mtime) in t.failed
  {
    InitialCovered(s);
    LosesNothingCovered(s, steps);
    CoveredMeans(Run(s, steps), r);
  }
}
