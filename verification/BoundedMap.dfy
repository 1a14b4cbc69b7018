/**
 * The bounded-concurrency map. Each worker is a coroutine that runs undisturbed from one
 * `await` to the next, so a schedule is a choice, at every turn, of the worker that resumes.
 */
module BoundedMap {
  import opened Common

  /** Where one worker is parked. */
  datatype Worker =
    | Ready                // spawned, not yet run
    | Awaiting(index: nat) // its call for items[index] is in flight
    | Done                 // its loop ended, or its call rejected

  datatype Outcome<R, E> = Resolved(results: seq<Option<R>>) | Rejected(error: E)

  function InFlight(pool: seq<Worker>): (s: set<nat>) {
    set w: nat | 0 <= w < |pool| && pool[w].Awaiting?
  }

  ghost function Live(pool: seq<Worker>): (s: set<nat>) {
    set w: nat | w < |pool| && !pool[w].Done?
  }

  function PoolSize(limit: int, n: nat): (k: nat)
    ensures k <= n && (k == 0 <==> limit <= 0 || n == 0)
    ensures limit >= 0 ==> k <= limit
  {
    if limit <= 0 then 0 else Min(limit, n)
  }

  /** `flying` maps each index in flight to the one worker awaiting it; its slot is still empty. */
  ghost predicate Owned<R>(pool: seq<Worker>, flying: map<nat, nat>, results: seq<Option<R>>) {
    && (forall w | 0 <= w < |pool| && pool[w].Awaiting? ::
          pool[w].index in flying && flying[pool[w].index] == w)
    && (forall i | i in flying ::
          flying[i] < |pool| && pool[flying[i]] == Awaiting(i) && i < |results| && results[i].None?)
  }

  /** Every claimed index is stored at its own place, still in flight, or its call rejected. */
  ghost predicate Accounted<T, R, E>(
    items: seq<T>, worker: (T, nat) -> Result<R, E>,
    flying: map<nat, nat>, next: nat, results: seq<Option<R>>, rejection: Option<E>)
    requires next <= |results| == |items|
  {
    && (forall i | i in flying :: i < next)
    && (forall i | 0 <= i < |items| && results[i].Some? ::
          i < next && worker(items[i], i) == Success(results[i].value))
    && (forall i | 0 <= i < next ::
          results[i].Some? || i in flying || (worker(items[i], i).Failure? && rejection.Some?))
    && (rejection.Some? ==>
          exists i :: 0 <= i < next && worker(items[i], i) == Failure(rejection.value))
  }

  /** What a schedule can see of the pool between two turns. */
  datatype Snapshot = Snapshot(workers: seq<Worker>, next: nat)

  /** Worker w runs once: it is handed the next index, which then is no longer the next, or it ends. */
  predicate Turn(a: Snapshot, b: Snapshot, w: nat)
    requires w < |a.workers|
  {
    && !a.workers[w].Done?
    && (b == Snapshot(a.workers[w := Awaiting(a.next)], a.next + 1) || b == Snapshot(a.workers[w := Done], a.next))
  }

  ghost predicate SomeTurn(a: Snapshot, b: Snapshot) {
    exists w | 0 <= w < |a.workers| :: Turn(a, b, w)
  }

  /** The snapshots of one execution: all workers ready at first, and one of them runs at every turn. */
  ghost predicate Execution(history: seq<Snapshot>, size: nat) {
    && history != [] && history[0] == Snapshot(seq(size, _ => Ready), 0)
    && forall k | 0 < k < |history| :: SomeTurn(history[k - 1], history[k])
  }

  ghost predicate AllDone(s: Snapshot) {
    forall w | 0 <= w < |s.workers| :: s.workers[w].Done?
  }

  /** No more calls in flight than workers, each for an index of its own, already handed out. */
  ghost predicate Capped(s: Snapshot, size: nat) {
    && |s.workers| == size && |InFlight(s.workers)| <= size
    && (forall w | 0 <= w < size && s.workers[w].Awaiting? :: s.workers[w].index < s.next)
    && (forall v, w | 0 <= v < w < size && s.workers[v].Awaiting? && s.workers[w].Awaiting? ::
          s.workers[v].index != s.workers[w].index)
  }

  /** A set of indices below n has at most n members. */
  lemma {:induction false} SizeBelow(a: set<nat>, n: nat)
    requires forall x | x in a :: x < n
    ensures |a| <= n
  {
    if n > 0 {
      SizeBelow(a - {n - 1}, n - 1);
    }
  }

  /** In every state of every execution. */
  lemma {:induction false} CapHolds(history: seq<Snapshot>, size: nat, k: nat)
    requires Execution(history, size) && k < |history|
    ensures Capped(history[k], size)
  {
    SizeBelow(InFlight(history[k].workers), |history[k].workers|);
    if k > 0 {
      CapHolds(history, size, k - 1);
      assert SomeTurn(history[k - 1], history[k]);
    }
  }

  /** The first so many workers have run once: each has its own call in flight. */
  ghost predicate Started(s: Snapshot, size: nat, started: nat) {
    && |s.workers| == size && s.next == started
    && forall w | 0 <= w < size :: s.workers[w] == if w < started then Awaiting(w) else Ready
  }

  /** And it is reached: some execution comes to have every worker's call in flight at once. */
  lemma {:induction false} CapIsReached(size: nat, started: nat) returns (history: seq<Snapshot>)
    requires started <= size
    ensures Execution(history, size) && Started(history[|history| - 1], size, started)
    ensures |InFlight(history[|history| - 1].workers)| == started
  {
    if started == 0 {
      history := [Snapshot(seq(size, _ => Ready), 0)];
    } else {
      var before := CapIsReached(size, started - 1);
      var a := before[|before| - 1];
      var b := Snapshot(a.workers[started - 1 := Awaiting(a.next)], a.next + 1);
      Extended(before, size, b, started - 1);
      history := before + [b];
    }
    FirstAre(InFlight(history[|history| - 1].workers), started);
  }

  lemma {:induction false} FirstAre(a: set<nat>, n: nat)
    requires forall x: nat :: x in a <==> x < n
    ensures |a| == n
  {
    if n == 0 {
      assert a == {};
    } else {
      FirstAre(a - {n - 1}, n - 1);
    }
  }

  /** Turn j starts the call for this index. */
  predicate HandsOut(history: seq<Snapshot>, j: nat, index: nat) {
    0 < j < |history| && history[j - 1].next == index && history[j].next == index + 1
  }

  lemma {:induction false} NextOnlyGrows(history: seq<Snapshot>, size: nat, i: nat, j: nat)
    requires Execution(history, size) && i <= j < |history|
    ensures history[i].next <= history[j].next
  {
    if i < j {
      NextOnlyGrows(history, size, i, j - 1);
      assert SomeTurn(history[j - 1], history[j]);
    }
  }

  /** Every index below `next` was handed out, at exactly one turn of the execution. */
  lemma {:induction false} HandedOutOnce(history: seq<Snapshot>, size: nat, k: nat, index: nat) returns (turn: nat)
    requires Execution(history, size) && k < |history| && index < history[k].next
    ensures turn <= k && forall j: nat :: HandsOut(history, j, index) <==> j == turn
  {
    assert SomeTurn(history[k - 1], history[k]);
    if index < history[k - 1].next {
      turn := HandedOutOnce(history, size, k - 1, index);
    } else {
      turn := k;
      forall j: nat | HandsOut(history, j, index) ensures j == k {
        if j < k { NextOnlyGrows(history, size, j, k - 1); }
        if k < j { NextOnlyGrows(history, size, k, j - 1); }
      }
    }
  }

  lemma EndedIsFewer(workers: seq<Worker>, w: nat)
    requires w < |workers| && !workers[w].Done?
    ensures |Live(workers[w := Done])| < |Live(workers)|
  {
    assert w in Live(workers) && Live(workers[w := Done]) == Live(workers) - {w};
  }

  lemma Extended(history: seq<Snapshot>, size: nat, s: Snapshot, w: nat)
    requires Execution(history, size)
    requires w < |history[|history| - 1].workers| && Turn(history[|history| - 1], s, w)
    ensures Execution(history + [s], size)
  {
    var longer := history + [s];
    assert forall k | 0 <= k < |history| :: longer[k] == history[k];
    assert SomeTurn(history[|history| - 1], s);
  }

  lemma AlwaysCapped(history: seq<Snapshot>, size: nat, n: nat)
    requires Execution(history, size) && history[|history| - 1].next <= n
    ensures forall k | 0 <= k < |history| :: Capped(history[k], size) && history[k].next <= n
  {
    forall k | 0 <= k < |history| ensures Capped(history[k], size) && history[k].next <= n {
      CapHolds(history, size, k);
      NextOnlyGrows(history, size, k, |history| - 1);
    }
  }

  /** The state the workers of one call share. */
  class Pool<T, R, E> {
    const items: seq<T>
    const worker: (T, nat) -> Result<R, E>
    const results: array<Option<R>>
    var next: nat
    var workers: seq<Worker>
    var rejection: Option<E>
    ghost var flying: map<nat, nat>

    ghost predicate Valid()
      reads this, results
    {
      && results.Length == |items|
      && next <= |items|
      && Owned(workers, flying, results[..])
      && Accounted(items, worker, flying, next, results[..], rejection)
      && (rejection.None? ==> forall w | 0 <= w < |workers| && workers[w].Done? :: next == |items|)
    }

    constructor (items: seq<T>, limit: int, worker: (T, nat) -> Result<R, E>)
      ensures Valid() && fresh(results)
      ensures this.items == items && this.worker == worker
      ensures next == 0 && rejection.None? && |workers| == PoolSize(limit, |items|)
      ensures forall w | 0 <= w < |workers| :: workers[w].Ready?
    {
      this.items, this.worker := items, worker;
      results := new Option<R>[|items|](_ => None);
      next := 0;
      workers := seq(PoolSize(limit, |items|), _ => Ready);
      rejection := None;
      flying := map[];
    }

    /** With every loop ended: all claimed and stored when nothing rejected, none stored when there was no worker. */
    lemma AllEnded(limit: int)
      requires Valid() && |workers| == PoolSize(limit, |items|) && (|workers| == 0 ==> next == 0)
      requires forall w | 0 <= w < |workers| :: workers[w].Done?
      ensures limit >= 1 && rejection.None? ==> next == |items|
      ensures limit >= 1 && rejection.None? ==> forall i | 0 <= i < |items| :: worker(items[i], i).Success?
      ensures rejection.Some? ==> limit >= 1
      ensures rejection.None? && |items| > 0 && limit <= 0 ==> results[0].None?
      ensures rejection.None? && limit >= 1 ==> forall i | 0 <= i < |items| :: results[i].Some?
    {
      if |workers| > 0 { assert workers[0].Done?; }
      assert forall i | i in flying :: !workers[flying[i]].Done?;
      if rejection.None? && limit >= 1 {
        forall i | 0 <= i < |items| ensures results[i].Some? && worker(items[i], i).Success? {
          assert results[..][i] == results[i];
        }
      }
      if |items| > 0 { assert results[..][0] == results[0]; }
    }

    /** The awaited call of worker w settles. */
    method Settle(w: nat)
      requires Valid() && w < |workers| && workers[w].Awaiting?
      modifies this, results
      ensures Valid() && next == old(next)
      ensures workers == old(workers)[w := if Rejects(old(workers)[w].index) then Done else Ready]
    {
      var index := workers[w].index;
      flying := flying - {index};
      match worker(items[index], index) {
        case Success(value) =>
          results[index] := Some(value);
          workers := workers[w := Ready];
        case Failure(error) =>
          if rejection.None? { rejection := Some(error); }
          workers := workers[w := Done];
      }
    }

    predicate Rejects(index: nat) {
      index < |items| && worker(items[index], index).Failure?
    }

    /** The loop test of worker w, and its next claim. */
    method Claim(w: nat)
      requires Valid() && w < |workers| && workers[w].Ready?
      modifies this
      ensures Valid()
      ensures workers == old(workers)[w := if old(next) < |items| then Awaiting(old(next)) else Done]
      ensures next == Min(old(next) + 1, |items|)
    {
      if next < |items| {
        workers := workers[w := Awaiting(next)];
        flying := flying[next := w];
        next := next + 1;
      } else {
        workers := workers[w := Done];
      }
    }

    /** One worker runs from where it is parked to its next `await`, or to its end. */
    method Resume(w: nat)
      requires Valid() && w < |workers| && !workers[w].Done?
      modifies this, results
      ensures Valid() && |workers| == |old(workers)|
      ensures Turn(Snapshot(old(workers), old(next)), Snapshot(workers, next), w)
    {
      if workers[w].Awaiting? { Settle(w); }
      if workers[w].Ready? { Claim(w); }
    }
  }

  /**
   * Runs `worker` over `items` under a scheduler that may resume any live worker at any turn;
   * `history` is what it went through.
   */
  method MapWithConcurrency<T, R, E>(items: seq<T>, limit: int, worker: (T, nat) -> Result<R, E>)
    returns (outcome: Outcome<R, E>, history: seq<Snapshot>)
    // whatever the schedule, an execution of that many workers, run to its end
    ensures Execution(history, PoolSize(limit, |items|))
    ensures |history[0].workers| == if limit < 0 then 0 else if limit < |items| then limit else |items|
    ensures AllDone(history[|history| - 1])
    // the cap holds in every state, and the indices handed out are the first so many
    ensures forall k | 0 <= k < |history| :: Capped(history[k], PoolSize(limit, |items|)) && history[k].next <= |items|
    ensures limit >= 1 && outcome.Resolved? ==> history[|history| - 1].next == |items|
    // with a positive limit the map resolves exactly when no call rejects, whatever the schedule
    ensures limit >= 1 ==>
      (outcome.Resolved? <==> forall i | 0 <= i < |items| :: worker(items[i], i).Success?)
    ensures outcome.Rejected? ==>
      exists i :: 0 <= i < history[|history| - 1].next && worker(items[i], i) == Failure(outcome.error)
    // results sit at their item's own index; they are complete exactly when anything ran at all
    ensures outcome.Resolved? ==> |outcome.results| == |items|
    ensures outcome.Resolved? ==> forall i | 0 <= i < |items| && outcome.results[i].Some? ::
      worker(items[i], i) == Success(outcome.results[i].value)
    ensures outcome.Resolved? ==>
      ((forall i | 0 <= i < |items| :: outcome.results[i].Some?) <==> limit >= 1 || |items| == 0)
  {
    var pool := new Pool(items, limit, worker);
    history := [Snapshot(pool.workers, pool.next)];
    assert pool.workers == seq(PoolSize(limit, |items|), _ => Ready);
    while exists w :: 0 <= w < |pool.workers| && !pool.workers[w].Done?
      invariant pool.Valid() && |pool.workers| == PoolSize(limit, |items|)
      invariant |pool.workers| == 0 ==> pool.next == 0
      invariant Execution(history, PoolSize(limit, |items|))
      invariant history[|history| - 1] == Snapshot(pool.workers, pool.next)
      decreases |items| - pool.next, |Live(pool.workers)|
    {
      var w :| 0 <= w < |pool.workers| && !pool.workers[w].Done?;
      EndedIsFewer(pool.workers, w);
      pool.Resume(w);
      Extended(history, PoolSize(limit, |items|), Snapshot(pool.workers, pool.next), w);
      history := history + [Snapshot(pool.workers, pool.next)];
    }
    pool.AllEnded(limit);
    AlwaysCapped(history, PoolSize(limit, |items|), |items|);
    outcome := if pool.rejection.Some? then Rejected(pool.rejection.value) else Resolved(pool.results[..]);
  }
}
