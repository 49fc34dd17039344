/** Admission control over concurrent signing jobs: the `jobCounter` /
    `maxConcurrentJobs` state machine behind `acquireJob` and `releaseJob`
    (internal/server.go). The counter is modelled sequentially, one atomic
    acquire or release at a time, which is what the mutex guarantees. */
module Admission {

  /** The answer of `acquireJob` and the counter it leaves behind. */
  datatype Acquired = Acquired(admitted: bool, counter: int)

  /** `acquireJob` with limit `limit` on counter `counter`. */
  function Acquire(limit: int, counter: int): Acquired
  {
    if limit <= 0 then Acquired(true, counter)
    else if counter >= limit then Acquired(false, counter)
    else Acquired(true, counter + 1)
  }

  /** `releaseJob`: the counter it leaves behind. */
  function Release(limit: int, counter: int): int
  {
    if limit > 0 then counter - 1 else counter
  }

  /** A limit of zero or below means unlimited: every acquire succeeds, and
      neither acquire nor release touches the counter. */
  lemma UnlimitedIsFree(limit: int, counter: int)
    requires limit <= 0
    ensures Acquire(limit, counter) == Acquired(true, counter)
    ensures Release(limit, counter) == counter
  {
  }

  /** With a positive limit an acquire is refused, leaving the counter, exactly
      when the counter has reached the limit; otherwise it counts one more job,
      and a release takes that job off again. */
  lemma LimitedAcquire(limit: int, counter: int)
    requires limit > 0
    ensures !Acquire(limit, counter).admitted <==> counter >= limit
    ensures Acquire(limit, counter).counter
            == if counter >= limit then counter else counter + 1
    ensures Acquire(limit, counter).admitted
            ==> Release(limit, Acquire(limit, counter).counter) == counter
  {
  }

  /** One event on the shared counter: a request tries to acquire a slot
      (`Begin`), or a request that holds one releases it (`End`). */
  datatype JobEvent = Begin | End

  /** The counter together with the number of requests currently holding a
      slot; the latter is bookkeeping of the model, not a field of the source. */
  datatype Jobs = Jobs(counter: int, holders: nat)

  function Step(limit: int, s: Jobs, e: JobEvent): Jobs
    requires e == End ==> s.holders > 0
  {
    match e
    case Begin =>
      var a := Acquire(limit, s.counter);
      Jobs(a.counter, if a.admitted then s.holders + 1 else s.holders)
    case End => Jobs(Release(limit, s.counter), s.holders - 1)
  }

  /** Every `End` in `trace` is performed by a request holding a slot: the
      pairing the handler's deferred `releaseJob` guarantees. */
  predicate Paired(limit: int, s: Jobs, trace: seq<JobEvent>)
    decreases |trace|
  {
    trace == []
    || ((trace[0] == End ==> s.holders > 0) && Paired(limit, Step(limit, s, trace[0]), trace[1..]))
  }

  function Run(limit: int, s: Jobs, trace: seq<JobEvent>): Jobs
    requires Paired(limit, s, trace)
    decreases |trace|
  {
    if trace == [] then s else Run(limit, Step(limit, s, trace[0]), trace[1..])
  }

  /** The counter's invariant: with a positive limit it counts exactly the
      slot holders and never exceeds the limit; without one it stays zero. */
  predicate Inv(limit: int, s: Jobs)
  {
    if limit > 0 then s.counter == s.holders <= limit else s.counter == 0
  }

  /** Every paired sequence of acquires and releases keeps the invariant. */
  lemma {:induction false} RunKeepsInv(limit: int, s: Jobs, trace: seq<JobEvent>)
    requires Inv(limit, s) && Paired(limit, s, trace)
    ensures Inv(limit, Run(limit, s, trace))
    decreases |trace|
  {
    if trace != [] {
      RunKeepsInv(limit, Step(limit, s, trace[0]), trace[1..]);
    }
  }

  /** From an idle server, no paired sequence ever lets more than `limit`
      requests hold a slot, and the counter stays within `0..limit`. */
  lemma CounterBounded(limit: int, trace: seq<JobEvent>)
    requires limit > 0 && Paired(limit, Jobs(0, 0), trace)
    ensures 0 <= Run(limit, Jobs(0, 0), trace).counter <= limit
    ensures Run(limit, Jobs(0, 0), trace).holders <= limit
  {
    RunKeepsInv(limit, Jobs(0, 0), trace);
  }

  /** The answers of `n` acquire attempts made one after the other with no
      release in between. */
  function AcquireBurst(limit: int, counter: int, n: nat): seq<bool>
    decreases n
  {
    if n == 0 then []
    else
      var a := Acquire(limit, counter);
      [a.admitted] + AcquireBurst(limit, a.counter, n - 1)
  }

  /** Acquire never waits: of a burst, exactly the attempts that still find
      a free slot succeed, and every later one is refused at once. */
  lemma {:induction false} BurstAdmitsUpToLimit(limit: int, counter: int, n: nat)
    requires limit > 0 && 0 <= counter <= limit
    ensures |AcquireBurst(limit, counter, n)| == n
    ensures forall k :: 0 <= k < n ==> AcquireBurst(limit, counter, n)[k] == (counter + k < limit)
    decreases n
  {
    if n > 0 {
      var a := Acquire(limit, counter);
      BurstAdmitsUpToLimit(limit, a.counter, n - 1);
      var rest := AcquireBurst(limit, a.counter, n - 1);
      assert AcquireBurst(limit, counter, n) == [a.admitted] + rest;
      forall k | 1 <= k < n
        ensures AcquireBurst(limit, counter, n)[k] == (counter + k < limit)
      {
        assert AcquireBurst(limit, counter, n)[k] == rest[k - 1];
      }
    }
  }

  /** With limit K, K + 1 simultaneous requests on an idle server: the first
      K are admitted and exactly the last is refused. */
  lemma OneTooMany(k: int)
    requires k > 0
    ensures AcquireBurst(k, 0, k + 1) == seq(k, _ => true) + [false]
  {
    BurstAdmitsUpToLimit(k, 0, k + 1);
  }
}
