/** What the pull's phases share: error classes, echo detection and the creation grace. */
module ZohoRecords {
  import opened Common

  /** `Unknown` is any error that is not a classified integration error. */
  datatype ErrorClass = AUTHENTICATION | TRANSIENT | VALIDATION | CONFLICT | PERMANENT | Unknown

  /** Only a positively identified record-specific failure may be continued past. */
  predicate Tolerated(error: ErrorClass) {
    error.VALIDATION? || error.CONFLICT? || error.PERMANENT?
  }

  /** Zoho's version is one this platform already stored; without both versions it cannot be told. */
  predicate IsOwnPushEcho(remote: Option<Time>, stored: Option<Time>) {
    remote.Some? && stored.Some? && remote.value <= stored.value
  }

  /** How recently a record may have been created and still not count as missing. */
  const RECONCILE_CREATION_GRACE: int := 10 * 60 * 1000
}
