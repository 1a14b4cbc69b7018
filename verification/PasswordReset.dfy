/** Set-password links: rows of hashed tokens that behave as one slot per user. */
module PasswordReset {
  import opened Common

  type UserId = nat
  type Token = nat
  type Digest = nat

  const TOKEN_TTL: int := 24 * 3600 * 1000

  datatype Row = Row(userId: UserId, expiresAt: Time, usedAt: Option<Time>)

  // --- The history, and what it says about a token -------------------------------------

  datatype Event =
    | Issued(user: UserId, token: Token, expiresAt: Time)
    | Consumed(user: UserId, token: Token)

  /** The one link a user holds: the latest issued and not yet spent. */
  datatype Slot = Slot(token: Token, expiresAt: Time)

  function Slots(log: seq<Event>): map<UserId, Slot> {
    if log == [] then map[]
    else
      var before := Slots(log[..|log| - 1]);
      match log[|log| - 1]
      case Issued(user, token, expiresAt) => before[user := Slot(token, expiresAt)]
      case Consumed(user, token) => before - {user}
  }

  /** The token was issued to this user and neither another issue to them nor a consumption followed. */
  ghost predicate LatestUnspent(log: seq<Event>, user: UserId, token: Token, expiresAt: Time) {
    exists i :: 0 <= i < |log| && log[i] == Issued(user, token, expiresAt)
      && forall j | i < j < |log| :: log[j].user != user
  }

  lemma {:induction false} SlotIsLatestUnspent(log: seq<Event>, user: UserId, token: Token, expiresAt: Time)
    ensures user in Slots(log) && Slots(log)[user] == Slot(token, expiresAt)
       <==> LatestUnspent(log, user, token, expiresAt)
  {
    if log != [] {
      var prefix, last := log[..|log| - 1], log[|log| - 1];
      SlotIsLatestUnspent(prefix, user, token, expiresAt);
      if LatestUnspent(prefix, user, token, expiresAt) && last.user != user {
        var i :| 0 <= i < |prefix| && prefix[i] == Issued(user, token, expiresAt)
          && forall j | i < j < |prefix| :: prefix[j].user != user;
        assert log[i] == Issued(user, token, expiresAt);
        assert forall j | i < j < |log| :: log[j].user != user;
      }
      if LatestUnspent(log, user, token, expiresAt) && last.user != user {
        var i :| 0 <= i < |log| && log[i] == Issued(user, token, expiresAt)
          && forall j | i < j < |log| :: log[j].user != user;
        assert prefix[i] == Issued(user, token, expiresAt);
        assert forall j | i < j < |prefix| :: prefix[j].user != user;
      }
      if last == Issued(user, token, expiresAt) {
        assert log[|log| - 1] == Issued(user, token, expiresAt);
      }
    }
  }

  ghost predicate IssuedIn(log: seq<Event>, token: Token) {
    exists i :: 0 <= i < |log| && log[i].Issued? && log[i].token == token
  }

  /** Fresh tokens, and every consumption spent the slot of its user: the histories the service produces. */
  ghost predicate WellFormed(log: seq<Event>) {
    log != [] ==>
      var prefix, last := log[..|log| - 1], log[|log| - 1];
      && WellFormed(prefix)
      && (last.Issued? ==> !IssuedIn(prefix, last.token))
      && (last.Consumed? ==> last.user in Slots(prefix) && Slots(prefix)[last.user].token == last.token)
  }

  lemma {:induction false} SlotTokensIssued(log: seq<Event>, user: UserId)
    requires user in Slots(log)
    ensures exists i :: 0 <= i < |log| && log[i] == Issued(user, Slots(log)[user].token, Slots(log)[user].expiresAt)
  {
    var slot := Slots(log)[user];
    SlotIsLatestUnspent(log, user, slot.token, slot.expiresAt);
  }

  /** No two users ever hold the same token. */
  lemma {:induction false} SlotTokensDistinct(log: seq<Event>, u: UserId, v: UserId)
    requires WellFormed(log) && u in Slots(log) && v in Slots(log) && Slots(log)[u].token == Slots(log)[v].token
    ensures u == v
  {
    var prefix, last := log[..|log| - 1], log[|log| - 1];
    match last
    case Consumed(_, _) => SlotTokensDistinct(prefix, u, v);
    case Issued(user, token, _) =>
      if u != user && v != user {
        SlotTokensDistinct(prefix, u, v);
      } else if u != v {
        SlotTokensIssued(prefix, if u == user then v else u);
      }
  }

  /** A token leaves its slot for good: once spent or replaced it never comes back. */
  lemma {:induction false} SpentStaysSpent(log: seq<Event>, i: nat, user: UserId)
    requires WellFormed(log) && i < |log| && log[i].Consumed? && user in Slots(log)
    ensures Slots(log)[user].token != log[i].token
  {
    var prefix, last := log[..|log| - 1], log[|log| - 1];
    if i < |log| - 1 {
      assert prefix[i] == log[i];
      if last.Issued? && last.user == user {
        ConsumedWasIssued(prefix, i);
      } else {
        SpentStaysSpent(prefix, i, user);
      }
    } else {
      if Slots(log)[user].token == last.token {
        SlotTokensDistinct(prefix, user, last.user);
      }
    }
  }

  lemma {:induction false} ConsumedWasIssued(log: seq<Event>, i: nat)
    requires WellFormed(log) && i < |log| && log[i].Consumed?
    ensures IssuedIn(log, log[i].token)
  {
    var prefix := log[..|log| - 1];
    if i < |log| - 1 {
      ConsumedWasIssued(prefix, i);
      var k :| 0 <= k < |prefix| && prefix[k].Issued? && prefix[k].token == log[i].token;
      assert log[k].token == log[i].token;
    } else {
      SlotTokensIssued(prefix, log[i].user);
      var k :| 0 <= k < |prefix| && prefix[k] == Issued(log[i].user, Slots(prefix)[log[i].user].token, Slots(prefix)[log[i].user].expiresAt);
      assert log[k].Issued? && log[k].token == log[i].token;
    }
  }

  /** Each token succeeds at most once in any history. */
  lemma {:induction false} ConsumedOnce(log: seq<Event>, i: nat, j: nat)
    requires WellFormed(log) && i < |log| && j < |log|
    requires log[i].Consumed? && log[j].Consumed? && log[i].token == log[j].token
    ensures i == j
  {
    var prefix := log[..|log| - 1];
    if i < |prefix| && j < |prefix| {
      ConsumedOnce(prefix, i, j);
    } else if i != j {
      var earlier := if i < j then i else j;
      assert prefix[earlier] == log[earlier];
      SpentStaysSpent(prefix, earlier, log[|log| - 1].user);
    }
  }

  // --- The table ----------------------------------------------------------------------

  function Cleared(rows: map<Digest, Row>, user: UserId, now: Time): (r: map<Digest, Row>)
    ensures r.Keys == rows.Keys
  {
    map d | d in rows ::
      if rows[d].userId == user && rows[d].usedAt.None? then rows[d].(usedAt := Some(now)) else rows[d]
  }

  /** `Spend` is a consume that claimed its row. */
  datatype Statement = Invalidate(user: UserId) | Insert(user: UserId, token: Token) | Spend(user: UserId, token: Token)

  /** What one statement does to the rows. */
  function Executed(rows: map<Digest, Row>, hash: Token -> Digest, statement: Statement, now: Time): map<Digest, Row> {
    match statement
    case Invalidate(user) => Cleared(rows, user, now)
    case Insert(user, token) => rows[hash(token) := Row(user, now + TOKEN_TTL, None)]
    case Spend(_, token) =>
      if hash(token) in rows && rows[hash(token)].usedAt.None?
      then rows[hash(token) := rows[hash(token)].(usedAt := Some(now))] else rows
  }

  lemma IssuedGrows(log: seq<Event>, e: Event, token: Token)
    ensures IssuedIn(log, token) ==> IssuedIn(log + [e], token)
    ensures e.Issued? && e.token == token ==> IssuedIn(log + [e], token)
  {
    if IssuedIn(log, token) {
      var i :| 0 <= i < |log| && log[i].Issued? && log[i].token == token;
      assert (log + [e])[i] == log[i];
    }
    assert (log + [e])[|log|] == e;
  }

  /** A row exists only for an issued token, and the unused rows are the slots, less the purged ones. */
  ghost predicate Linked(hash: Token -> Digest, rows: map<Digest, Row>, log: seq<Event>, clock: Time) {
    && (forall t, u :: hash(t) == hash(u) ==> t == u)
    && WellFormed(log)
    && (forall t :: hash(t) in rows ==> IssuedIn(log, t))
    && (forall t :: hash(t) in rows && rows[hash(t)].usedAt.None? ==>
      HasSlot(log, rows[hash(t)].userId, Slot(t, rows[hash(t)].expiresAt)))
    && (forall u :: u in Slots(log) ==>
      || Slots(log)[u].expiresAt < clock
      || Stored(hash, rows, u, Slots(log)[u]))
  }

  ghost predicate HasSlot(log: seq<Event>, user: UserId, slot: Slot) {
    user in Slots(log) && Slots(log)[user] == slot
  }

  ghost predicate Stored(hash: Token -> Digest, rows: map<Digest, Row>, user: UserId, slot: Slot) {
    hash(slot.token) in rows && rows[hash(slot.token)] == Row(user, slot.expiresAt, None)
  }

  function AfterIssue(rows: map<Digest, Row>, hash: Token -> Digest, user: UserId, token: Token, now: Time): map<Digest, Row> {
    Executed(Executed(rows, hash, Invalidate(user), now), hash, Insert(user, token), now)
  }

  lemma IssueLinked(hash: Token -> Digest, rows: map<Digest, Row>, log: seq<Event>, clock: Time, user: UserId, token: Token, now: Time)
    requires Linked(hash, rows, log, clock) && clock <= now && !IssuedIn(log, token)
    ensures Linked(hash, AfterIssue(rows, hash, user, token, now), log + [Issued(user, token, now + TOKEN_TTL)], now)
  {
    var e := Issued(user, token, now + TOKEN_TTL);
    var log', rows' := log + [e], AfterIssue(rows, hash, user, token, now);
    assert log'[..|log'| - 1] == log;
    forall t | hash(t) in rows' ensures IssuedIn(log', t) {
      IssuedGrows(log, e, t);
    }
    forall u | u in Slots(log') && Slots(log')[u].expiresAt >= now ensures Stored(hash, rows', u, Slots(log')[u]) {
      if u != user {
        assert Slots(log')[u] == Slots(log)[u];
        SlotTokensIssued(log, u);
      }
    }
  }

  lemma ConsumeLinked(hash: Token -> Digest, rows: map<Digest, Row>, log: seq<Event>, clock: Time, user: UserId, token: Token, now: Time)
    requires Linked(hash, rows, log, clock) && clock <= now
    requires hash(token) in rows && rows[hash(token)].usedAt.None? && rows[hash(token)].userId == user
    ensures HasSlot(log, user, Slot(token, rows[hash(token)].expiresAt))
    ensures Linked(hash, Executed(rows, hash, Spend(user, token), now), log + [Consumed(user, token)], now)
  {
    var e := Consumed(user, token);
    var log', rows' := log + [e], Executed(rows, hash, Spend(user, token), now);
    assert HasSlot(log, user, Slot(token, rows[hash(token)].expiresAt));
    assert log'[..|log'| - 1] == log;
    forall t | hash(t) in rows' ensures IssuedIn(log', t) {
      IssuedGrows(log, e, t);
    }
    forall t | hash(t) in rows' && rows'[hash(t)].usedAt.None?
      ensures HasSlot(log', rows'[hash(t)].userId, Slot(t, rows'[hash(t)].expiresAt))
    {
      assert t != token;
    }
    forall u | u in Slots(log') && Slots(log')[u].expiresAt >= now ensures Stored(hash, rows', u, Slots(log')[u]) {
      if Slots(log')[u].token == token { SlotTokensDistinct(log, u, user); }
    }
  }

  class ResetTokens {
    var rows: map<Digest, Row>
    const hash: Token -> Digest
    ghost var log: seq<Event>
    ghost var clock: Time

    ghost predicate Valid()
      reads this
    {
      Linked(hash, rows, log, clock)
    }

    constructor (hash: Token -> Digest, now: Time)
      requires forall t, u :: hash(t) == hash(u) ==> t == u
      ensures Valid() && this.hash == hash && rows == map[] && log == [] && clock == now
    {
      this.hash := hash;
      rows := map[];
      log := [];
      clock := now;
    }

    /** A new link replaces the user's slot, whatever was in it. */
    method Issue(user: UserId, token: Token, now: Time) returns (expiresAt: Time)
      requires Valid() && clock <= now
      requires !IssuedIn(log, token)
      modifies this
      ensures Valid() && clock == now
      ensures expiresAt == now + 86_400_000
      ensures log == old(log) + [Issued(user, token, expiresAt)]
      ensures Slots(log) == old(Slots(log))[user := Slot(token, expiresAt)]
      ensures rows == Executed(Executed(old(rows), hash, Invalidate(user), now), hash, Insert(user, token), now)
    {
      IssueLinked(hash, rows, log, clock, user, token, now);
      expiresAt := now + TOKEN_TTL;
      rows := Cleared(rows, user, now);
      rows := rows[hash(token) := Row(user, expiresAt, None)];
      log := log + [Issued(user, token, expiresAt)];
      clock := now;
      assert log[..|log| - 1] == old(log);
    }

    /** Succeeds exactly for the token in its user's slot before its expiry, and empties that slot. */
    method Consume(token: Token, now: Time) returns (r: Option<UserId>)
      requires Valid() && clock <= now
      modifies this
      ensures Valid() && clock == now
      ensures r.Some? <==> exists u :: u in old(Slots(log)) && old(Slots(log))[u].token == token && now < old(Slots(log))[u].expiresAt
      ensures r.Some? ==>
        && r.value in old(Slots(log)) && old(Slots(log))[r.value].token == token && now < old(Slots(log))[r.value].expiresAt
        && log == old(log) + [Consumed(r.value, token)]
        && Slots(log) == old(Slots(log)) - {r.value}
        && rows == Executed(old(rows), hash, Spend(r.value, token), now) && rows != old(rows)
      ensures r.None? ==> rows == old(rows) && log == old(log)
    {
      var tokenHash := hash(token);
      clock := now;
      var claimed := tokenHash in rows && rows[tokenHash].usedAt.None? && rows[tokenHash].expiresAt > now;
      if !claimed {
        assert forall u :: u in Slots(log) && Slots(log)[u].token == token && now < Slots(log)[u].expiresAt ==>
          Stored(hash, rows, u, Slots(log)[u]);
        return None;
      }
      var userId := rows[tokenHash].userId;
      ConsumeLinked(hash, rows, log, old(clock), userId, token, now);
      rows := rows[tokenHash := rows[tokenHash].(usedAt := Some(now))];
      log := log + [Consumed(userId, token)];
      assert log[..|log| - 1] == old(log);
      return Some(userId);
    }

    /** Deletes the rows past their expiry; no token's answer changes. */
    method PurgeExpired(now: Time) returns (count: nat)
      requires Valid() && clock <= now
      modifies this
      ensures Valid() && clock == now && log == old(log)
      ensures rows == map d | d in old(rows) && !(old(rows)[d].expiresAt < now) :: old(rows)[d]
      ensures count == |old(rows)| - |rows|
    {
      var expired := set d | d in rows && rows[d].expiresAt < now;
      assert rows.Keys - expired == (rows - expired).Keys;
      assert |rows.Keys - expired| == |rows.Keys| - |expired|;
      rows := rows - expired;
      clock := now;
      count := |expired|;
      assert rows == map d | d in old(rows) && !(old(rows)[d].expiresAt < now) :: old(rows)[d];
    }
  }

  // --- Overlapping issues: invalidating and inserting are two statements, not one transaction ---

  /** The tokens each statement leaves live, before expiry. */
  function Live(run: seq<Statement>): map<Token, UserId> {
    if run == [] then map[]
    else
      var before := Live(run[..|run| - 1]);
      match run[|run| - 1]
      case Invalidate(user) => map t | t in before && before[t] != user :: before[t]
      case Insert(user, token) => before[token := user]
      case Spend(_, token) => before - {token}
  }

  /** The rows after a run, statement k at time at(k). */
  function Rows(run: seq<Statement>, hash: Token -> Digest, at: nat -> Time): map<Digest, Row> {
    if run == [] then map[]
    else Executed(Rows(run[..|run| - 1], hash, at), hash, run[|run| - 1], at(|run| - 1))
  }

  /** The live tokens are the unused rows. */
  lemma {:induction false} LiveAreUnusedRows(run: seq<Statement>, hash: Token -> Digest, at: nat -> Time)
    requires forall t, u :: hash(t) == hash(u) ==> t == u
    ensures forall t :: t in Live(run) <==> hash(t) in Rows(run, hash, at) && Rows(run, hash, at)[hash(t)].usedAt.None?
    ensures forall t | t in Live(run) :: Rows(run, hash, at)[hash(t)].userId == Live(run)[t]
  {
    if run != [] {
      LiveAreUnusedRows(run[..|run| - 1], hash, at);
    }
  }

  lemma {:induction false} RowsWereInserted(run: seq<Statement>, hash: Token -> Digest, at: nat -> Time, d: Digest)
    requires d in Rows(run, hash, at)
    ensures exists i :: 0 <= i < |run| && run[i].Insert? && hash(run[i].token) == d
  {
    var prefix, last := run[..|run| - 1], run[|run| - 1];
    if last.Insert? && hash(last.token) == d {
      assert run[|run| - 1] == last;
    } else {
      RowsWereInserted(prefix, hash, at, d);
      var i :| 0 <= i < |prefix| && prefix[i].Insert? && hash(prefix[i].token) == d;
      assert run[i] == prefix[i];
    }
  }

  /** A used row keeps the moment of its use, whatever is executed after. */
  lemma {:induction false} UsedIsFinal(run: seq<Statement>, hash: Token -> Digest, at: nat -> Time, k: nat, d: Digest)
    requires (forall t, u :: hash(t) == hash(u) ==> t == u) && FreshTokens(run) && k <= |run|
    requires d in Rows(run[..k], hash, at) && Rows(run[..k], hash, at)[d].usedAt.Some?
    ensures d in Rows(run, hash, at) && Rows(run, hash, at)[d] == Rows(run[..k], hash, at)[d]
  {
    if k == |run| {
      assert run[..k] == run;
    } else {
      var prefix, last := run[..|run| - 1], run[|run| - 1];
      assert prefix[..k] == run[..k];
      UsedIsFinal(prefix, hash, at, k, d);
      RowsWereInserted(prefix, hash, at, d);
      var i :| 0 <= i < |prefix| && prefix[i].Insert? && hash(prefix[i].token) == d;
      assert run[i] == prefix[i] && run[|run| - 1] == last;
    }
  }

  /** Tokens are fresh: no statement inserts one that an earlier statement inserted. */
  ghost predicate FreshTokens(run: seq<Statement>) {
    forall i, j | 0 <= i < j < |run| && run[i].Insert? && run[j].Insert? :: run[i].token != run[j].token
  }

  /** The statement takes the link of this insert away. */
  predicate Ends(statement: Statement, insert: Statement)
    requires insert.Insert?
  {
    statement == Invalidate(insert.user) || (statement.Spend? && statement.token == insert.token)
  }

  /** Between any two links inserted for one user, the first is taken away. */
  ghost predicate Serial(run: seq<Statement>) {
    forall i, j | 0 <= i < j < |run| && run[i].Insert? && run[j].Insert? && run[i].user == run[j].user ::
      exists k :: i < k < j && Ends(run[k], run[i])
  }

  /** No user holds two live tokens. */
  ghost predicate OneEach(run: seq<Statement>) {
    forall t, u | t in Live(run) && u in Live(run) && Live(run)[t] == Live(run)[u] :: t == u
  }

  /** A live token was inserted, and nothing since has taken it away. */
  lemma {:induction false} LiveWasInserted(run: seq<Statement>, token: Token) returns (i: nat)
    requires token in Live(run)
    ensures i < |run| && run[i] == Insert(Live(run)[token], token)
    ensures forall k | i < k < |run| :: !Ends(run[k], run[i])
  {
    var prefix, last := run[..|run| - 1], run[|run| - 1];
    if last.Insert? && last.token == token {
      i := |run| - 1;
    } else {
      i := LiveWasInserted(prefix, token);
      assert run == prefix + [last];
    }
  }

  /** What was inserted and not taken away is live. */
  lemma {:induction false} InsertedStaysLive(run: seq<Statement>, i: nat)
    requires FreshTokens(run) && i < |run| && run[i].Insert?
    requires forall k | i < k < |run| :: !Ends(run[k], run[i])
    ensures run[i].token in Live(run) && Live(run)[run[i].token] == run[i].user
  {
    var prefix, last := run[..|run| - 1], run[|run| - 1];
    if i < |run| - 1 {
      assert run == prefix + [last] && prefix[i] == run[i];
      InsertedStaysLive(prefix, i);
      assert last.Insert? ==> last.token != run[i].token;
    }
  }

  lemma SerialLeavesOneEach(run: seq<Statement>, n: nat)
    requires Serial(run) && n <= |run|
    ensures OneEach(run[..n])
  {
    var prefix := run[..n];
    forall t, u | t in Live(prefix) && u in Live(prefix) && Live(prefix)[t] == Live(prefix)[u] ensures t == u {
      var i := LiveWasInserted(prefix, t);
      var j := LiveWasInserted(prefix, u);
      assert prefix[i] == run[i] && prefix[j] == run[j];
      assert forall k | 0 <= k < n :: prefix[k] == run[k];
      assert i == j;
    }
  }

  /**
   * Over any statements with fresh tokens: no user is ever left with two live links exactly when
   * between any two inserted for one user the first is invalidated or spent.
   */
  lemma OneLinkEachIff(run: seq<Statement>)
    requires FreshTokens(run)
    ensures (forall n | 0 <= n <= |run| :: OneEach(run[..n])) <==> Serial(run)
  {
    if Serial(run) {
      forall n | 0 <= n <= |run| ensures OneEach(run[..n]) {
        SerialLeavesOneEach(run, n);
      }
    } else {
      var i, j :| 0 <= i < j < |run| && run[i].Insert? && run[j].Insert? && run[i].user == run[j].user
        && forall k :: i < k < j ==> !Ends(run[k], run[i]);
      var prefix := run[..j + 1];
      assert FreshTokens(prefix);
      assert forall k | i < k < |prefix| :: prefix[k] == run[k] && !Ends(prefix[k], prefix[i]);
      InsertedStaysLive(prefix, i);
      InsertedStaysLive(prefix, j);
      assert !OneEach(run[..j + 1]);
    }
  }

  /** Two overlapping issues: both invalidate before either inserts, and both links stay live. */
  lemma OverlappingIssuesLeaveTwoLinks(user: UserId, t: Token, u: Token)
    requires t != u
    ensures var run := [Invalidate(user), Invalidate(user), Insert(user, t), Insert(user, u)];
      !Serial(run) && Live(run) == map[t := user, u := user]
  {
    var run := [Invalidate(user), Invalidate(user), Insert(user, t), Insert(user, u)];
    assert FreshTokens(run);
    assert run[2] == Insert(user, t) && run[3] == Insert(user, u);
    InsertedStaysLive(run, 2);
    InsertedStaysLive(run, 3);
    forall x | x in Live(run) ensures (x == t || x == u) && Live(run)[x] == user {
      var i := LiveWasInserted(run, x);
    }
  }
}
