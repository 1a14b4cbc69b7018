/** Deletion inferred from absence: hourly scans of Zoho's whole invoice list against the local rows. */
module InvoicePresence {
  import opened Common
  import opened InvoiceTransitions
  import opened ZohoRecords

  type InvoiceId = nat
  type RemoteId = nat

  datatype Row = Row(
    remoteId: Option<RemoteId>, status: InvoiceStatus, tokenActive: bool, missingSince: Option<Time>, createdAt: Time)

  /** One completed scan: what Zoho listed, when the rows were judged, and when a missing one was stamped. */
  datatype Scan = Scan(seen: set<RemoteId>, judgedAt: Time, stampedAt: Time)

  /** What one scan does to one row. */
  function Reconciled(row: Row, scan: Scan): Row {
    if scan.seen == {} || row.remoteId.None? then row
    else if row.remoteId.value !in scan.seen && row.missingSince.None? && row.createdAt <= scan.judgedAt - RECONCILE_CREATION_GRACE then
      row.(missingSince := Some(scan.stampedAt), tokenActive := false)
    else if row.remoteId.value in scan.seen && row.missingSince.Some? then
      row.(missingSince := None, tokenActive := true)
    else row
  }

  function After(row: Row, scans: seq<Scan>): Row {
    if scans == [] then row else Reconciled(After(row, scans[..|scans| - 1]), scans[|scans| - 1])
  }

  // --- The history of one invoice ------------------------------------------------------

  predicate Shown(row: Row, scan: Scan) {
    row.remoteId.Some? && row.remoteId.value in scan.seen
  }

  /** A scan that could tell: it listed something, and this invoice was ten minutes old, old enough to count. */
  predicate MissedPastGrace(row: Row, scan: Scan) {
    scan.seen != {} && row.remoteId.Some? && !Shown(row, scan) && row.createdAt <= scan.judgedAt - 600_000
  }

  /** Scan i missed the invoice past its grace, and no scan since has shown it. */
  ghost predicate MissedSince(row: Row, scans: seq<Scan>, i: nat) {
    && i < |scans| && MissedPastGrace(row, scans[i])
    && forall j | i < j < |scans| :: !Shown(row, scans[j])
  }

  ghost predicate EarliestMiss(row: Row, scans: seq<Scan>, i: nat) {
    MissedSince(row, scans, i) && forall k | 0 <= k < i :: !MissedSince(row, scans, k)
  }

  lemma {:induction false} ScansKeepIdentity(row: Row, scans: seq<Scan>)
    ensures var r := After(row, scans); r.remoteId == row.remoteId && r.status == row.status && r.createdAt == row.createdAt
  {
    if scans != [] { ScansKeepIdentity(row, scans[..|scans| - 1]); }
  }

  lemma EarliestExtends(row: Row, scans: seq<Scan>, last: Scan, i: nat)
    requires i < |scans|
    ensures EarliestMiss(row, scans + [last], i) <==> EarliestMiss(row, scans, i) && !Shown(row, last)
  {
    var longer := scans + [last];
    assert longer[|scans|] == last;
    forall k | 0 <= k <= i ensures MissedSince(row, longer, k) <==> MissedSince(row, scans, k) && !Shown(row, last) {
      assert forall j | k <= j < |scans| :: longer[j] == scans[j];
    }
    if EarliestMiss(row, longer, i) {
      forall k | 0 <= k < i ensures !MissedSince(row, scans, k) {
        assert !MissedSince(row, longer, k);
      }
    }
  }

  lemma EarliestAtEnd(row: Row, scans: seq<Scan>, last: Scan)
    ensures EarliestMiss(row, scans + [last], |scans|)
       <==> MissedPastGrace(row, last) && forall k | 0 <= k < |scans| :: !MissedSince(row, scans, k)
  {
    var longer := scans + [last];
    assert longer[|scans|] == last;
    forall k | 0 <= k < |scans| ensures MissedSince(row, longer, k) <==> MissedSince(row, scans, k) && !Shown(row, last) {
      assert forall j | k <= j < |scans| :: longer[j] == scans[j];
    }
  }

  /** The flag is exactly the stamp of the earliest past-grace scan in the run of scans without the invoice. */
  lemma {:induction false} MissingSinceRefinesHistory(row: Row, scans: seq<Scan>, t: Time)
    requires row.missingSince.None?
    ensures After(row, scans).missingSince == Some(t)
       <==> exists i :: 0 <= i < |scans| && EarliestMiss(row, scans, i) && scans[i].stampedAt == t
  {
    if scans != [] {
      var prefix, last := scans[..|scans| - 1], scans[|scans| - 1];
      assert scans == prefix + [last];
      MissingSinceRefinesHistory(row, prefix, t);
      ScansKeepIdentity(row, prefix);
      EarliestAtEnd(row, prefix, last);
      forall i | 0 <= i < |prefix| ensures EarliestMiss(row, scans, i) <==> EarliestMiss(row, prefix, i) && !Shown(row, last) {
        EarliestExtends(row, prefix, last, i);
      }
      MissingUnlessMissed(row, prefix);
      MissingStep(row, prefix, last, t);
    }
  }

  /** Not flagged exactly when no scan missed it since it was last shown. */
  lemma {:induction false} MissingUnlessMissed(row: Row, scans: seq<Scan>)
    requires row.missingSince.None?
    ensures After(row, scans).missingSince.None? <==> forall k | 0 <= k < |scans| :: !MissedSince(row, scans, k)
  {
    if scans != [] {
      var prefix, last := scans[..|scans| - 1], scans[|scans| - 1];
      MissingUnlessMissed(row, prefix);
      ScansKeepIdentity(row, prefix);
      forall k | 0 <= k < |prefix| ensures MissedSince(row, scans, k) <==> MissedSince(row, prefix, k) && !Shown(row, last) {
        assert forall j | k <= j < |prefix| :: scans[j] == prefix[j];
      }
      assert MissedSince(row, scans, |prefix|) <==> MissedPastGrace(row, last);
    }
  }

  lemma MissingStep(row: Row, prefix: seq<Scan>, last: Scan, t: Time)
    requires row.missingSince.None?
    requires var r := After(row, prefix); r.remoteId == row.remoteId && r.createdAt == row.createdAt
    requires After(row, prefix).missingSince.None? <==> forall k | 0 <= k < |prefix| :: !MissedSince(row, prefix, k)
    requires After(row, prefix).missingSince == Some(t)
       <==> exists i :: 0 <= i < |prefix| && EarliestMiss(row, prefix, i) && prefix[i].stampedAt == t
    requires forall i | 0 <= i < |prefix| :: EarliestMiss(row, prefix + [last], i) <==> EarliestMiss(row, prefix, i) && !Shown(row, last)
    requires EarliestMiss(row, prefix + [last], |prefix|)
       <==> MissedPastGrace(row, last) && forall k | 0 <= k < |prefix| :: !MissedSince(row, prefix, k)
    ensures Reconciled(After(row, prefix), last).missingSince == Some(t)
       <==> exists i :: 0 <= i < |prefix + [last]| && EarliestMiss(row, prefix + [last], i) && (prefix + [last])[i].stampedAt == t
  {
    var before, scans := After(row, prefix), prefix + [last];
    assert scans[|prefix|] == last;
    if before.missingSince.Some? {
      if exists i :: 0 <= i < |prefix| && EarliestMiss(row, prefix, i) && prefix[i].stampedAt == t {
        var i :| 0 <= i < |prefix| && EarliestMiss(row, prefix, i) && prefix[i].stampedAt == t;
        assert scans[i] == prefix[i];
        assert EarliestMiss(row, scans, i) <==> !Shown(row, last);
      }
    }
    if exists i :: 0 <= i < |scans| && EarliestMiss(row, scans, i) && scans[i].stampedAt == t {
      var i :| 0 <= i < |scans| && EarliestMiss(row, scans, i) && scans[i].stampedAt == t;
      if i < |prefix| { assert prefix[i] == scans[i] && EarliestMiss(row, prefix, i); }
    }
  }

  /** For an invoice whose link was live: dead exactly while flagged, and nothing else about it ever changes. */
  lemma {:induction false} LinkDeadExactlyWhileMissing(row: Row, scans: seq<Scan>)
    requires row.tokenActive && row.missingSince.None?
    ensures var r := After(row, scans);
      && (r.tokenActive <==> r.missingSince.None?)
      && r == row.(tokenActive := r.tokenActive, missingSince := r.missingSince)
  {
    if scans != [] { LinkDeadExactlyWhileMissing(row, scans[..|scans| - 1]); }
  }

  /**
   * Whatever came before, a scan that shows the invoice gives back the row as it was, exactly when
   * its link had been live or no scan ever missed it: a dead link that went missing comes back live.
   */
  lemma ReappearingRestoresIff(row: Row, scans: seq<Scan>, last: Scan)
    requires row.missingSince.None? && Shown(row, last)
    ensures After(row, scans + [last]) == row
       <==> row.tokenActive || forall k | 0 <= k < |scans| :: !MissedPastGrace(row, scans[k])
  {
    assert (scans + [last])[..|scans|] == scans;
    ScansKeepIdentity(row, scans);
    if row.tokenActive {
      LinkDeadExactlyWhileMissing(row, scans);
    } else {
      DeadLinkHistory(row, scans);
    }
  }

  lemma {:induction false} DeadLinkHistory(row: Row, scans: seq<Scan>)
    requires row.missingSince.None? && !row.tokenActive
    ensures (forall k | 0 <= k < |scans| :: !MissedPastGrace(row, scans[k])) ==> After(row, scans) == row
    ensures (exists k :: 0 <= k < |scans| && MissedPastGrace(row, scans[k])) ==>
      After(row, scans).tokenActive || After(row, scans).missingSince.Some?
  {
    if scans != [] {
      var prefix, last := scans[..|scans| - 1], scans[|scans| - 1];
      DeadLinkHistory(row, prefix);
      ScansKeepIdentity(row, prefix);
      assert scans == prefix + [last];
      if exists k :: 0 <= k < |scans| && MissedPastGrace(row, scans[k]) {
        var k :| 0 <= k < |scans| && MissedPastGrace(row, scans[k]);
        if k < |prefix| { assert prefix[k] == scans[k]; }
      } else {
        assert forall k | 0 <= k < |prefix| :: prefix[k] == scans[k];
      }
    }
  }

  // --- The scan ------------------------------------------------------------------------------

  datatype Outcome = Reconciliation | Skipped | ScanFailed

  class Invoices {
    var rows: map<InvoiceId, Row>

    constructor (rows: map<InvoiceId, Row>)
      ensures this.rows == rows
    {
      this.rows := rows;
    }

    /** Pages until one says there are no more; a page that cannot be fetched ends the scan. */
    method ListAll(pages: seq<Option<seq<RemoteId>>>) returns (seen: Option<set<RemoteId>>)
      ensures seen == Some({}) ==> forall k | 0 <= k < |pages| :: pages[k] == Some([])
      ensures seen.Some? <==> forall k | 0 <= k < |pages| :: pages[k].Some?
      ensures seen.Some? ==> forall r :: r in seen.value <==> exists k :: 0 <= k < |pages| && pages[k].Some? && r in pages[k].value
    {
      var found := {};
      var page := 0;
      while page < |pages|
        invariant page <= |pages|
        invariant forall k | 0 <= k < page :: pages[k].Some?
        invariant found == {} ==> forall k | 0 <= k < page :: pages[k] == Some([])
        invariant forall r :: r in found <==> exists k :: 0 <= k < page && pages[k].Some? && r in pages[k].value
      {
        if pages[page].None? { return None; }
        found := found + set r | r in pages[page].value;
        assert pages[page].value != [] ==> pages[page].value[0] in found;
        page := page + 1;
      }
      return Some(found);
    }

    /** Two writes: the newly missing first, then the reappeared. */
    method Apply(seen: set<RemoteId>, judgedAt: Time, stampedAt: Time)
      requires seen != {}
      modifies this
      ensures rows.Keys == old(rows).Keys
      ensures forall id | id in rows :: rows[id] == Reconciled(old(rows)[id], Scan(seen, judgedAt, stampedAt))
    {
      var createdBefore := judgedAt - RECONCILE_CREATION_GRACE;
      var nowMissing := set id | id in rows && rows[id].remoteId.Some? && rows[id].remoteId.value !in seen
        && rows[id].missingSince.None? && rows[id].createdAt <= createdBefore;
      var reappeared := set id | id in rows && rows[id].remoteId.Some? && rows[id].remoteId.value in seen
        && rows[id].missingSince.Some?;
      rows := map id | id in rows ::
        if id in nowMissing then rows[id].(missingSince := Some(stampedAt), tokenActive := false) else rows[id];
      rows := map id | id in rows ::
        if id in reappeared then rows[id].(missingSince := None, tokenActive := true) else rows[id];
    }

    method ReconcilePresence(pages: seq<Option<seq<RemoteId>>>, judgedAt: Time, stampedAt: Time)
      returns (r: Outcome, seen: set<RemoteId>)
      modifies this
      ensures r.ScanFailed? <==> exists k :: 0 <= k < |pages| && pages[k].None?
      ensures r.Skipped? <==> forall k | 0 <= k < |pages| :: pages[k] == Some([])
      ensures !r.Reconciliation? ==> rows == old(rows)
      ensures rows.Keys == old(rows).Keys
      ensures r.Reconciliation? ==>
        forall x :: x in seen <==> exists k :: 0 <= k < |pages| && pages[k].Some? && x in pages[k].value
      ensures r.Reconciliation? ==>
        forall id | id in rows :: rows[id] == Reconciled(old(rows)[id], Scan(seen, judgedAt, stampedAt))
    {
      var scanned := ListAll(pages);
      if scanned.None? { return ScanFailed, {}; }
      seen := scanned.value;
      if |seen| == 0 {
        return Skipped, seen;
      }
      Apply(seen, judgedAt, stampedAt);
      return Reconciliation, seen;
    }
  }
}
