/** The pull of one invoice as it runs is a path of the protocol: a check, then a refresh and a write, or a failure. */
module SyncRefinement {
  import opened Common
  import opened ZohoRecords
  import P = SyncProtocol
  import Q = InvoicePull

  /** The protocol state and the stored invoices agree on one record, and the pull is about to check it. */
  ghost predicate About(s: P.State, store: Q.Store, id: P.PullId, item: Q.ListItem) {
    var r := item.invoiceId;
    && item.lastModified.Some? && r in s.remote
    && id in s.pulls && s.pulls[id].work.None? && P.Item(r, item.lastModified.value) in s.pulls[id].todo
    && (r in s.rows <==> r in store.invoices)
    && P.VersionOf(s, r) == Q.VersionOf(store.invoices, r)
    && (P.LinesOf(s, r).Some? <==> r in store.invoices && store.invoices[r].lines != [])
  }

  function Checking(id: P.PullId, item: Q.ListItem): P.Step
    requires item.lastModified.Some?
  {
    P.Check(id, P.Item(item.invoiceId, item.lastModified.value))
  }

  /** The check of the protocol passes exactly when the pull does not skip, and leaves the rows alone. */
  lemma CheckRefines(s: P.State, store: Q.Store, id: P.PullId, item: Q.ListItem, now: Time)
    requires About(s, store, id, item)
    ensures var t := P.Next(s, Checking(id, item), now);
      && t.rows == s.rows && t.remote == s.remote && id in t.pulls
      && (t.pulls[id].work.None? <==> IsOwnPushEcho(item.lastModified, Q.VersionOf(store.invoices, item.invoiceId)))
      && (t.pulls[id].work.Some? ==>
            t.pulls[id].work.value == P.Work(item.invoiceId, item.lastModified.value, P.LinesOf(s, item.invoiceId).Some?))
  {
  }

  /** Undisturbed, an applied invoice ends at the version the protocol's refresh and write store. */
  lemma AppliedRefinesWrite(
    s: P.State, store: Q.Store, id: P.PullId, item: Q.ListItem, now: Time,
    reserved: set<string>, prefetched: Option<Q.D.Detail>, answers: Q.Answers)
    requires About(s, store, id, item)
    requires Q.PullOne(store, reserved, item, prefetched, answers).0 == Success(true)
    ensures var after := Q.PullOne(store, reserved, item, prefetched, answers).1;
      var t := P.Next(P.Next(P.Next(s, Checking(id, item), now), P.Refresh(id), now + 1), P.Write(id), now + 2);
      P.VersionOf(t, item.invoiceId) == Q.VersionOf(after.invoices, item.invoiceId) && t.pulls[id].work.None?
  {
    CheckRefines(s, store, id, item, now);
    RefreshedAndWritten(P.Next(s, Checking(id, item), now), id, now + 1);
    Q.AppliedHeader(store, reserved, item, prefetched, answers);
  }

  /** A refresh where there is something to refresh, then the write: the version is the worked one. */
  lemma RefreshedAndWritten(c: P.State, id: P.PullId, now: Time)
    requires id in c.pulls && c.pulls[id].work.Some? && c.pulls[id].work.value.rec in c.remote
    requires c.pulls[id].work.value.stale ==> c.pulls[id].work.value.rec in c.rows
    ensures var w := c.pulls[id].work.value;
      var t := P.Next(P.Next(c, P.Refresh(id), now), P.Write(id), now + 1);
      P.VersionOf(t, w.rec) == Some(w.version) && t.pulls[id].work.None?
  {
    var u := P.Next(c, P.Refresh(id), now);
    assert id in u.pulls && u.pulls[id].work.Some? && !u.pulls[id].work.value.stale;
  }

  /** A failed one ends at the version it had, as the protocol's failure does before or after the refresh. */
  lemma FailedRefinesFail(
    s: P.State, store: Q.Store, id: P.PullId, item: Q.ListItem, now: Time,
    reserved: set<string>, prefetched: Option<Q.D.Detail>, answers: Q.Answers)
    requires About(s, store, id, item)
    requires Q.PullOne(store, reserved, item, prefetched, answers).0.Failure?
    ensures var after := Q.PullOne(store, reserved, item, prefetched, answers).1;
      var checked := P.Next(s, Checking(id, item), now);
      var early := P.Next(checked, P.Fail(id), now + 1);
      var late := P.Next(P.Next(checked, P.Refresh(id), now + 1), P.Fail(id), now + 2);
      && P.VersionOf(early, item.invoiceId) == P.VersionOf(late, item.invoiceId) == Q.VersionOf(after.invoices, item.invoiceId)
      && P.Item(item.invoiceId, item.lastModified.value) in early.failed && P.Item(item.invoiceId, item.lastModified.value) in late.failed
  {
    CheckRefines(s, store, id, item, now);
    Q.SkippedIffEcho(store, reserved, item, prefetched, answers);
    Q.FailureIsRetried(store, reserved, item, prefetched, answers);
    RefreshedAndFailed(P.Next(s, Checking(id, item), now), id, now + 1);
  }

  lemma RefreshedAndFailed(c: P.State, id: P.PullId, now: Time)
    requires id in c.pulls && c.pulls[id].work.Some?
    ensures var w := c.pulls[id].work.value;
      var early := P.Next(c, P.Fail(id), now);
      var late := P.Next(P.Next(c, P.Refresh(id), now), P.Fail(id), now + 1);
      && P.VersionOf(early, w.rec) == P.VersionOf(c, w.rec) == P.VersionOf(late, w.rec)
      && P.Item(w.rec, w.version) in early.failed && P.Item(w.rec, w.version) in late.failed
  {
    var u := P.Next(c, P.Refresh(id), now);
    assert id in u.pulls && u.pulls[id].work.Some? && u.pulls[id].work.value.rec == c.pulls[id].work.value.rec;
    assert P.VersionOf(u, c.pulls[id].work.value.rec) == P.VersionOf(c, c.pulls[id].work.value.rec);
  }
}
