/** The worker's concurrent loop, processRequests in worker/run-batch.mjs: a shared index, one coroutine per worker,
    switching at every await. */
module WorkerPool {
  import opened Text
  import opened Protocol

  const MAX_WORKER_CONCURRENCY := 8

  /** Where a coroutine is: about to claim an index, awaiting the outcome of one, or returned. */
  datatype Worker = Ready | Busy(index: nat) | Finished

  /** next is the shared index; claims is the history of the indices that were claimed. */
  datatype Pool = Pool(next: nat, workers: seq<Worker>, results: seq<Option<RequestResult>>, claims: seq<nat>)

  /** One stretch of a coroutine between awaits. */
  datatype Event = Claim(worker: nat) | Settle(worker: nat, result: RequestResult)

  /** Which results processing of the i-th request can settle with. */
  type Outcomes = (nat, RequestResult) -> bool

  function ClampConcurrency(value: int): (r: nat)
    ensures 1 <= r <= 8
    ensures 1 <= value <= 8 ==> r == value
    ensures value > 8 ==> r == 8
  {
    var capped := if value < MAX_WORKER_CONCURRENCY then value else MAX_WORKER_CONCURRENCY;
    if capped < 1 then 1 else capped
  }

  function WorkerCount(concurrency: nat, total: nat): (r: nat)
    ensures r >= 1 && r <= (if total == 0 then 1 else total) && (concurrency >= 1 ==> r <= concurrency)
    ensures total > 0 && concurrency > 0 ==> r == total || r == concurrency
  {
    var atMost := if total == 0 then 1 else total;
    var count := if concurrency < atMost then concurrency else atMost;
    if count < 1 then 1 else count
  }

  function Init(concurrency: nat, total: nat): Pool {
    Pool(0, seq(WorkerCount(concurrency, total), _ => Ready), seq(total, _ => None), [])
  }

  ghost predicate Enabled(outcomes: Outcomes, pool: Pool, event: Event) {
    match event
    case Claim(w) => w < |pool.workers| && pool.workers[w].Ready?
    case Settle(w, result) => w < |pool.workers| && pool.workers[w].Busy? && outcomes(pool.workers[w].index, result)
  }

  /** A claim past the end makes the coroutine return. */
  function ClaimStep(pool: Pool, w: nat): Pool
    requires w < |pool.workers|
  {
    if pool.next >= |pool.results| then pool.(next := pool.next + 1, workers := pool.workers[w := Finished])
    else pool.(next := pool.next + 1, workers := pool.workers[w := Busy(pool.next)],
               claims := pool.claims + [pool.next])
  }

  function SettleStep(pool: Pool, w: nat, result: RequestResult): Pool
    requires w < |pool.workers| && pool.workers[w].Busy? && pool.workers[w].index < |pool.results|
  {
    pool.(workers := pool.workers[w := Ready], results := pool.results[pool.workers[w].index := Some(result)])
  }

  ghost function Step(outcomes: Outcomes, pool: Pool, event: Event): Pool
    requires Enabled(outcomes, pool, event)
  {
    match event
    case Claim(w) => ClaimStep(pool, w)
    case Settle(w, result) => if pool.workers[w].index < |pool.results| then SettleStep(pool, w, result) else pool
  }

  /** Any interleaving of the coroutines. */
  ghost predicate IsRun(outcomes: Outcomes, concurrency: nat, total: nat, events: seq<Event>)
    decreases |events|, 0
  {
    events == []
    || (IsRun(outcomes, concurrency, total, events[..|events| - 1])
        && Enabled(outcomes, After(outcomes, concurrency, total, events[..|events| - 1]), events[|events| - 1]))
  }

  ghost function After(outcomes: Outcomes, concurrency: nat, total: nat, events: seq<Event>): Pool
    requires IsRun(outcomes, concurrency, total, events)
    decreases |events|, 1
  {
    if events == [] then Init(concurrency, total)
    else Step(outcomes, After(outcomes, concurrency, total, events[..|events| - 1]), events[|events| - 1])
  }

  // ----- invariant -----

  function CountFinished(workers: seq<Worker>): nat {
    if workers == [] then 0
    else CountFinished(workers[..|workers| - 1]) + if workers[|workers| - 1].Finished? then 1 else 0
  }

  function CountBusy(workers: seq<Worker>): nat {
    if workers == [] then 0
    else CountBusy(workers[..|workers| - 1]) + if workers[|workers| - 1].Busy? then 1 else 0
  }

  function CountOpen(results: seq<Option<RequestResult>>): nat {
    if results == [] then 0
    else CountOpen(results[..|results| - 1]) + if results[|results| - 1].None? then 1 else 0
  }

  lemma {:induction false} CountUpdate(workers: seq<Worker>, w: nat, worker: Worker)
    requires w < |workers|
    ensures CountFinished(workers[w := worker])
            == CountFinished(workers) + (if worker.Finished? then 1 else 0) - (if workers[w].Finished? then 1 else 0)
  {
    var last := |workers| - 1;
    if w < last {
      CountUpdate(workers[..last], w, worker);
      assert workers[w := worker][..last] == workers[..last][w := worker];
    } else {
      assert workers[w := worker][..last] == workers[..last];
    }
  }

  lemma {:induction false} OpenUpdate(results: seq<Option<RequestResult>>, i: nat, result: RequestResult)
    requires i < |results| && results[i].None?
    ensures CountOpen(results[i := Some(result)]) == CountOpen(results) - 1
  {
    var last := |results| - 1;
    if i < last {
      OpenUpdate(results[..last], i, result);
      assert results[i := Some(result)][..last] == results[..last][i := Some(result)];
    } else {
      assert results[i := Some(result)][..last] == results[..last];
    }
  }

  lemma {:induction false} CountBounds(workers: seq<Worker>)
    ensures CountFinished(workers) + CountBusy(workers) <= |workers|
    ensures (exists w :: 0 <= w < |workers| && !workers[w].Finished?) ==> CountFinished(workers) < |workers|
    ensures (forall w :: 0 <= w < |workers| ==> workers[w].Finished?) ==> CountFinished(workers) == |workers|
  {
    if workers != [] {
      CountBounds(workers[..|workers| - 1]);
    }
  }

  ghost predicate Claimed(pool: Pool, i: nat) {
    exists w :: 0 <= w < |pool.workers| && pool.workers[w] == Busy(i)
  }

  /** Every index below next is settled or with one worker, every index from next on is untouched, and the workers
      that returned are those that claimed past the end. */
  ghost predicate Inv(outcomes: Outcomes, pool: Pool) {
    var total := |pool.results|;
    && (forall w :: 0 <= w < |pool.workers| && pool.workers[w].Busy? ==>
          pool.workers[w].index < total && pool.workers[w].index < pool.next
            && pool.results[pool.workers[w].index].None?)
    && (forall v, w :: 0 <= v < w < |pool.workers| && pool.workers[v].Busy? && pool.workers[w].Busy? ==>
          pool.workers[v].index != pool.workers[w].index)
    && (forall i :: 0 <= i < total ==> (pool.results[i].Some? ==> i < pool.next && outcomes(i, pool.results[i].value)))
    && (forall i :: 0 <= i < total && i < pool.next && pool.results[i].None? ==> Claimed(pool, i))
    && CountFinished(pool.workers) == (if pool.next <= total then 0 else pool.next - total)
    && |pool.claims| == (if pool.next <= total then pool.next else total)
    && forall i :: 0 <= i < |pool.claims| ==> pool.claims[i] == i
  }

  lemma {:induction false} InitInv(outcomes: Outcomes, concurrency: nat, total: nat)
    ensures Inv(outcomes, Init(concurrency, total))
    ensures CountOpen(Init(concurrency, total).results) == total
  {
    NoneFinished(Init(concurrency, total).workers);
    AllOpen(Init(concurrency, total).results);
  }

  lemma {:induction false} NoneFinished(workers: seq<Worker>)
    requires forall w :: 0 <= w < |workers| ==> workers[w].Ready?
    ensures CountFinished(workers) == 0
  {
    if workers != [] {
      NoneFinished(workers[..|workers| - 1]);
    }
  }

  lemma {:induction false} AllOpen(results: seq<Option<RequestResult>>)
    requires forall i :: 0 <= i < |results| ==> results[i].None?
    ensures CountOpen(results) == |results|
  {
    if results != [] {
      AllOpen(results[..|results| - 1]);
    }
  }

  lemma {:induction false} ClaimInv(outcomes: Outcomes, pool: Pool, w: nat)
    requires Inv(outcomes, pool) && w < |pool.workers| && pool.workers[w].Ready?
    ensures Inv(outcomes, ClaimStep(pool, w))
  {
    var after := ClaimStep(pool, w);
    CountUpdate(pool.workers, w, after.workers[w]);
    CountBounds(pool.workers);
    forall i | 0 <= i < |after.results| && i < after.next && after.results[i].None? ensures Claimed(after, i) {
      if i < pool.next {
        assert Claimed(pool, i);
        var v :| 0 <= v < |pool.workers| && pool.workers[v] == Busy(i);
        assert after.workers[v] == Busy(i);
      } else {
        assert after.workers[w] == Busy(i);
      }
    }
  }

  lemma {:induction false} SettleInv(outcomes: Outcomes, pool: Pool, w: nat, result: RequestResult)
    requires Inv(outcomes, pool) && w < |pool.workers| && pool.workers[w].Busy?
    requires outcomes(pool.workers[w].index, result)
    ensures Inv(outcomes, SettleStep(pool, w, result))
    ensures CountOpen(SettleStep(pool, w, result).results) == CountOpen(pool.results) - 1
  {
    var after := SettleStep(pool, w, result);
    CountUpdate(pool.workers, w, Ready);
    OpenUpdate(pool.results, pool.workers[w].index, result);
    forall i | 0 <= i < |after.results| && i < after.next && after.results[i].None? ensures Claimed(after, i) {
      assert Claimed(pool, i);
      var v :| 0 <= v < |pool.workers| && pool.workers[v] == Busy(i);
      assert after.workers[v] == Busy(i);
    }
  }

  /** Steps still to come. */
  ghost function Remaining(pool: Pool): int {
    |pool.results| + |pool.workers| - pool.next + CountOpen(pool.results)
  }

  /** After every schedule the invariant holds, and each step taken is one fewer to take. */
  lemma {:induction false} RunInv(outcomes: Outcomes, concurrency: nat, total: nat, events: seq<Event>)
    requires IsRun(outcomes, concurrency, total, events)
    ensures var pool := After(outcomes, concurrency, total, events);
            && Inv(outcomes, pool) && |pool.results| == total && |pool.workers| == WorkerCount(concurrency, total)
            && Remaining(pool) + |events| == 2 * total + WorkerCount(concurrency, total)
  {
    hide Inv, WorkerCount;
    if events == [] {
      InitInv(outcomes, concurrency, total);
    } else {
      var last := |events| - 1;
      var before := After(outcomes, concurrency, total, events[..last]);
      RunInv(outcomes, concurrency, total, events[..last]);
      match events[last]
      case Claim(w) => ClaimInv(outcomes, before, w);
      case Settle(w, result) =>
        BusyInRange(outcomes, before, w);
        SettleInv(outcomes, before, w, result);
    }
  }

  lemma {:induction false} BusyInRange(outcomes: Outcomes, pool: Pool, w: nat)
    requires Inv(outcomes, pool) && w < |pool.workers| && pool.workers[w].Busy?
    ensures pool.workers[w].index < |pool.results|
  {
  }

  lemma {:induction false} RemainingBounds(outcomes: Outcomes, pool: Pool)
    requires Inv(outcomes, pool)
    ensures Remaining(pool) >= 0
  {
    CountBounds(pool.workers);
  }

  ghost predicate AllFinished(pool: Pool) {
    forall w :: 0 <= w < |pool.workers| ==> pool.workers[w].Finished?
  }

  /** When all workers have returned, every request has a result that processing it produced, each index was claimed
      once and in order, and the shared index has passed the end once for each worker. */
  lemma {:induction false} PoolCompletes(outcomes: Outcomes, concurrency: nat, total: nat, events: seq<Event>)
    requires IsRun(outcomes, concurrency, total, events)
    requires AllFinished(After(outcomes, concurrency, total, events))
    ensures var pool := After(outcomes, concurrency, total, events);
            && |pool.results| == total
            && (forall i :: 0 <= i < total ==> pool.results[i].Some? && outcomes(i, pool.results[i].value))
            && pool.claims == seq(total, i => i)
            && pool.next == total + WorkerCount(concurrency, total)
            && |events| == 2 * total + WorkerCount(concurrency, total)
  {
    hide After, IsRun;
    RunInv(outcomes, concurrency, total, events);
    var pool := After(outcomes, concurrency, total, events);
    AllSettled(outcomes, pool);
    NoOpen(pool.results);
  }

  lemma {:induction false} AllSettled(outcomes: Outcomes, pool: Pool)
    requires Inv(outcomes, pool) && AllFinished(pool) && pool.workers != []
    ensures pool.next == |pool.results| + |pool.workers|
    ensures forall i :: 0 <= i < |pool.results| ==> pool.results[i].Some? && outcomes(i, pool.results[i].value)
  {
    CountBounds(pool.workers);
  }

  lemma {:induction false} NoOpen(results: seq<Option<RequestResult>>)
    requires forall i :: 0 <= i < |results| ==> results[i].Some?
    ensures CountOpen(results) == 0
  {
    if results != [] {
      NoOpen(results[..|results| - 1]);
    }
  }

  /** At no moment are more requests in flight than the clamped concurrency or the number of requests, and no two
      workers hold the same one. */
  lemma {:induction false} InFlightBounded(outcomes: Outcomes, value: int, total: nat, events: seq<Event>)
    requires total > 0 && IsRun(outcomes, ClampConcurrency(value), total, events)
    ensures var pool := After(outcomes, ClampConcurrency(value), total, events);
            && CountBusy(pool.workers) <= ClampConcurrency(value) <= 8
               && CountBusy(pool.workers) <= total
            && forall v, w :: 0 <= v < w < |pool.workers| && pool.workers[v].Busy? && pool.workers[w].Busy? ==>
                 pool.workers[v].index != pool.workers[w].index
  {
    hide After, IsRun;
    RunInv(outcomes, ClampConcurrency(value), total, events);
    CountBounds(After(outcomes, ClampConcurrency(value), total, events).workers);
  }

  ghost predicate CanSettle(outcomes: Outcomes, i: nat) {
    exists result :: outcomes(i, result)
  }

  /** Until all workers have returned one of them can go on, provided that processing a request settles. */
  lemma {:induction false} NeverStuck(outcomes: Outcomes, concurrency: nat, total: nat, events: seq<Event>)
    requires IsRun(outcomes, concurrency, total, events)
    requires forall i :: 0 <= i < total ==> CanSettle(outcomes, i)
    requires !AllFinished(After(outcomes, concurrency, total, events))
    ensures exists event :: IsRun(outcomes, concurrency, total, events + [event])
  {
    RunInv(outcomes, concurrency, total, events);
    var pool := After(outcomes, concurrency, total, events);
    var w :| 0 <= w < |pool.workers| && !pool.workers[w].Finished?;
    var event: Event;
    if pool.workers[w].Ready? {
      event := Claim(w);
    } else {
      BusyInRange(outcomes, pool, w);
      assert CanSettle(outcomes, pool.workers[w].index);
      var result :| outcomes(pool.workers[w].index, result);
      event := Settle(w, result);
    }
    hide Inv;
    assert (events + [event])[..|events|] == events;
    assert IsRun(outcomes, concurrency, total, events + [event]);
  }

  // ----- the loop itself -----

  /** The event loop: at each turn some coroutine that has not returned runs to its next await. What processing the
      i-th request settles with is given by outcome. */
  method ProcessRequests(requests: seq<RequestItem>, concurrency: nat, outcome: nat -> RequestResult)
    returns (results: seq<RequestResult>)
    ensures |results| == |requests|
    ensures forall i :: 0 <= i < |requests| ==> results[i] == outcome(i)
  {
    hide Inv, WorkerCount, CountOpen;
    var total := |requests|;
    var settled := new Option<RequestResult>[total](_ => None);
    var nextIndex: nat := 0;
    var workers: seq<Worker> := Init(concurrency, total).workers;
    ghost var claims: seq<nat> := [];
    ghost var outcomes: Outcomes := (i: nat, result: RequestResult) => result == outcome(i);
    InitInv(outcomes, concurrency, total);
    assert settled[..] == Init(concurrency, total).results;
    while exists w :: 0 <= w < |workers| && !workers[w].Finished?
      invariant |workers| > 0
      invariant Inv(outcomes, Pool(nextIndex, workers, settled[..], claims))
      decreases Remaining(Pool(nextIndex, workers, settled[..], claims))
    {
      var w :| 0 <= w < |workers| && !workers[w].Finished?;
      ghost var pool := Pool(nextIndex, workers, settled[..], claims);
      RemainingBounds(outcomes, pool);
      if workers[w].Busy? {
        var index := workers[w].index;
        BusyInRange(outcomes, pool, w);
        SettleInv(outcomes, pool, w, outcome(index));
        settled[index] := Some(outcome(index));
        workers := workers[w := Ready];
        assert settled[..] == pool.results[index := Some(outcome(index))];
      } else {
        ClaimInv(outcomes, pool, w);
        var index := nextIndex;
        nextIndex := nextIndex + 1;
        if index >= total {
          workers := workers[w := Finished];
        } else {
          workers := workers[w := Busy(index)];
          claims := claims + [index];
        }
      }
    }
    ghost var pool := Pool(nextIndex, workers, settled[..], claims);
    AllSettled(outcomes, pool);
    assert forall i :: 0 <= i < total ==> settled[i] == pool.results[i];
    results := seq(total, i requires 0 <= i < total && settled.Length == total
                   && settled[i].Some? reads settled => settled[i].value);
  }
}
