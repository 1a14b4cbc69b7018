/** When the platform's own write is taken for a foreign edit. */
module SyncEchoes {
  import opened Common
  import opened ZohoRecords
  import opened SyncProtocol

  /** A stored version is never newer than Zoho's own, whatever overlaps. */
  lemma StoredNeverAhead(s: State, steps: seq<(Step, Time)>, r: Rec)
    requires Initial(s) && Ticks(s, steps)
    ensures VersionOf(Run(s, steps), r).Some? ==>
      r in Run(s, steps).remote && VersionOf(Run(s, steps), r).value <= Run(s, steps).remote[r].mtime
  {
    RunTimed(s, steps);
    if r in Run(s, steps).rows { assert TimedRow(Run(s, steps), r); }
  }

  // --- The history of a record ------------------------------------------------------------

  /** Step j is a pull's write that stores version v of the record. */
  ghost predicate Stores(s: State, steps: seq<(Step, Time)>, j: nat, r: Rec, v: Time) {
    && j < |steps| && steps[j].0.Write? && Ready(Run(s, steps[..j]), steps[j].0.pull)
    && Run(s, steps[..j]).pulls[steps[j].0.pull].work.value.rec == r
    && Run(s, steps[..j]).pulls[steps[j].0.pull].work.value.version == v
  }

  /** A pull later stored a version older than the given time. */
  ghost predicate SetBack(s: State, steps: seq<(Step, Time)>, i: nat, r: Rec, t: Time) {
    exists j, v :: i < j && v < t && Stores(s, steps, j, r, v)
  }

  predicate IsOwnWrite(step: Step, r: Rec) {
    (step.Push? || step.PushUnstamped? || step.Touch?) && step.rec == r
  }

  /**
   * Step i is this platform's own write of the record and its version is not the one stored: one
   * that stamps nothing, one with no timestamp to be had, or a stamped one that a pull past its
   * check has since put back to an older version.
   */
  ghost predicate LeftUnstamped(s: State, steps: seq<(Step, Time)>, i: nat, r: Rec) {
    && i < |steps| && IsOwnWrite(steps[i].0, r)
    && (steps[i].0.Push? ==> SetBack(s, steps, i, r, steps[i].1))
  }

  ghost predicate UnstampedSince(s: State, steps: seq<(Step, Time)>, r: Rec, x: Time) {
    exists i: nat :: LeftUnstamped(s, steps, i, r) && steps[i].1 > x
  }

  lemma StoresExtends(s: State, prefix: seq<(Step, Time)>, steps: seq<(Step, Time)>, j: nat, r: Rec, v: Time)
    requires prefix <= steps && j < |prefix|
    ensures Stores(s, steps, j, r, v) <==> Stores(s, prefix, j, r, v)
  {
    assert prefix[..j] == steps[..j];
  }

  lemma SetBackExtends(s: State, prefix: seq<(Step, Time)>, steps: seq<(Step, Time)>, i: nat, r: Rec, t: Time)
    requires prefix <= steps && SetBack(s, prefix, i, r, t)
    ensures SetBack(s, steps, i, r, t)
  {
    var j, v :| i < j && v < t && Stores(s, prefix, j, r, v);
    StoresExtends(s, prefix, steps, j, r, v);
  }

  /** One step moves a remote only by an edit or an own write, and a version only by a push or a pull's write. */
  lemma StepMoves(s: State, step: Step, now: Time, r: Rec)
    requires r in Next(s, step, now).remote
    ensures var t := Next(s, step, now);
      && (step == Edit(r) ==> t.remote[r] == Remote(now, now))
      && (IsOwnWrite(step, r) ==> t.remote[r] == Remote(now, ForeignOf(s, r)))
      && (step != Edit(r) && !IsOwnWrite(step, r) ==>
            && r in s.remote && t.remote[r] == s.remote[r]
            && (VersionOf(t, r) == VersionOf(s, r)
                || (step.Write? && Ready(s, step.pull) && s.pulls[step.pull].work.value.rec == r
                    && VersionOf(t, r) == Some(s.pulls[step.pull].work.value.version))))
  {
  }

  /**
   * When someone other than an editor moved the record last, it was an own write of exactly that
   * time; if that write was stamped, its version is still stored or a pull has put an older one back.
   */
  lemma {:induction false} LastOwnWrite(s: State, steps: seq<(Step, Time)>, r: Rec) returns (i: nat)
    requires Initial(s) && Ticks(s, steps) && r in Run(s, steps).remote
    requires Run(s, steps).remote[r].mtime > Run(s, steps).remote[r].foreign
    ensures i < |steps| && IsOwnWrite(steps[i].0, r) && steps[i].1 == Run(s, steps).remote[r].mtime
    ensures steps[i].0.Push? ==>
      || (VersionOf(Run(s, steps), r).Some? && VersionOf(Run(s, steps), r).value >= steps[i].1)
      || SetBack(s, steps, i, r, steps[i].1)
  {
    var prefix, step, now := steps[..|steps| - 1], steps[|steps| - 1].0, steps[|steps| - 1].1;
    StepMoves(Run(s, prefix), step, now, r);
    if IsOwnWrite(step, r) {
      i := |steps| - 1;
    } else {
      i := LastOwnWrite(s, prefix, r);
      assert prefix[..i] == steps[..i];
      if steps[i].0.Push? {
        if SetBack(s, prefix, i, r, steps[i].1) {
          SetBackExtends(s, prefix, steps, i, r, steps[i].1);
        } else if VersionOf(Run(s, steps), r) != VersionOf(Run(s, prefix), r) {
          assert Stores(s, steps, |prefix|, r, VersionOf(Run(s, steps), r).value);
        }
      }
    }
  }

  /** Zoho's time of a record only grows. */
  lemma {:induction false} MtimeGrows(s: State, steps: seq<(Step, Time)>, i: nat, r: Rec)
    requires Initial(s) && Ticks(s, steps) && i <= |steps| && r in Run(s, steps[..i]).remote
    ensures r in Run(s, steps).remote && Run(s, steps).remote[r].mtime >= Run(s, steps[..i]).remote[r].mtime
  {
    if i == |steps| {
      assert steps[..i] == steps;
    } else {
      var prefix := steps[..|steps| - 1];
      assert prefix[..i] == steps[..i];
      MtimeGrows(s, prefix, i, r);
      RunTimed(s, prefix);
      RemoteStays(Run(s, prefix), steps[|steps| - 1].0, steps[|steps| - 1].1, r);
    }
  }

  lemma RemoteStays(s: State, step: Step, now: Time, r: Rec)
    requires Timed(s) && now > s.clock && r in s.remote
    ensures r in Next(s, step, now).remote && Next(s, step, now).remote[r].mtime >= s.remote[r].mtime
  {
  }

  /**
   * Over any run, Zoho is ahead of the stored version exactly when someone else edited the record
   * since that version or an own write since it was left unstamped.
   */
  lemma AheadIff(s: State, steps: seq<(Step, Time)>, r: Rec, x: Time)
    requires Initial(s) && Ticks(s, steps) && r in Run(s, steps).remote && VersionOf(Run(s, steps), r) == Some(x)
    ensures Run(s, steps).remote[r].mtime > x
       <==> Run(s, steps).remote[r].foreign > x || UnstampedSince(s, steps, r, x)
  {
    var t := Run(s, steps);
    RunTimed(s, steps);
    if t.remote[r].mtime > x && t.remote[r].foreign <= x {
      var i := LastOwnWrite(s, steps, r);
      assert LeftUnstamped(s, steps, i, r);
    }
    if UnstampedSince(s, steps, r, x) {
      var i: nat :| LeftUnstamped(s, steps, i, r) && steps[i].1 > x;
      OwnWriteMoves(s, steps, i, r);
      MtimeGrows(s, steps, i + 1, r);
    }
  }

  lemma OwnWriteMoves(s: State, steps: seq<(Step, Time)>, i: nat, r: Rec)
    requires LeftUnstamped(s, steps, i, r)
    ensures r in Run(s, steps[..i + 1]).remote && Run(s, steps[..i + 1]).remote[r].mtime == steps[i].1
  {
    assert steps[..i + 1][..i] == steps[..i];
  }

  // --- What the check makes of it -------------------------------------------------------------

  /** An idle pull is about to check an item. */
  ghost predicate AboutToCheck(t: State, id: PullId, item: Item) {
    id in t.pulls && t.pulls[id].work.None? && item in t.pulls[id].todo
  }

  /**
   * The check of the current version passes exactly when someone else edited since the stored one or
   * an own write was left unstamped: without a foreign edit, exactly for an own write left unstamped.
   */
  lemma CheckPassesIff(s: State, steps: seq<(Step, Time)>, id: PullId, r: Rec, x: Time, now: Time)
    requires Initial(s) && Ticks(s, steps) && r in Run(s, steps).remote && VersionOf(Run(s, steps), r) == Some(x)
    requires AboutToCheck(Run(s, steps), id, Item(r, Run(s, steps).remote[r].mtime))
    ensures var t := Run(s, steps);
      Next(t, Check(id, Item(r, t.remote[r].mtime)), now).pulls[id].work.Some?
      <==> t.remote[r].foreign > x || UnstampedSince(s, steps, r, x)
  {
    AheadIff(s, steps, r, x);
  }

  /**
   * A pull that rewrites a versioned row does so for a foreign edit or an own write left unstamped
   * exactly when the stored version is not Zoho's current one; over the current one it is always a
   * pull overtaken since its check.
   */
  lemma RewritesAreExplained(s: State, steps: seq<(Step, Time)>, step: Step, now: Time, r: Rec, x: Time)
    requires Initial(s) && Ticks(s, steps) && VersionOf(Run(s, steps), r) == Some(x)
    requires (step.Refresh? || step.Write?) && Next(Run(s, steps), step, now).rows[r] != Run(s, steps).rows[r]
    ensures var t := Run(s, steps);
      && r in t.remote && step.pull in t.pulls && t.pulls[step.pull].work.Some?
      && (t.remote[r].foreign > x || UnstampedSince(s, steps, r, x) <==> t.remote[r].mtime != x)
      && (t.remote[r].mtime == x ==> t.pulls[step.pull].work.value.version <= x)
  {
    var t := Run(s, steps);
    RunTimed(s, steps);
    WorkIsKnown(t, step, now, r);
    AheadIff(s, steps, r, x);
    StoredNeverAhead(s, steps, r);
  }

  lemma WorkIsKnown(t: State, step: Step, now: Time, r: Rec)
    requires Timed(t) && r in t.rows && (step.Refresh? || step.Write?) && Next(t, step, now).rows[r] != t.rows[r]
    ensures step.pull in t.pulls && t.pulls[step.pull].work.Some? && t.pulls[step.pull].work.value.rec == r
    ensures r in t.remote && t.pulls[step.pull].work.value.version <= t.remote[r].mtime
  {
    if step.pull in t.pulls { assert TimedPull(t, t.pulls[step.pull]); }
  }
}
