/** No buffered request starves: in every run each tick that goes through brings it nearer to its answer. */
module AgentProgress {
  import opened Text
  import opened Protocol
  import opened Validation
  import opened Wire
  import opened AgentModel
  import opened AgentLedger
  import opened AgentOrigins
  import opened AgentRuns
  import opened AgentTheorems
  import opened Chunk

  /** The ticks that went through, whether they rejected the buffer or picked from it. */
  function Ticks(events: seq<Event>): nat {
    if events == [] then 0
    else Ticks(events[..|events| - 1]) + if events[|events| - 1].Proceed? then 1 else 0
  }

  /** An accepted request that has left the queue and has at most k others ahead of it if it is still buffered. */
  ghost predicate Ahead(state: State, item: Pending, k: int) {
    item in state.accepted && item !in state.queue && NotPast(state.pending, item, k)
  }

  ghost predicate NotPast(pending: seq<Pending>, item: Pending, k: int) {
    forall i :: 0 <= i < |pending| && i > k ==> pending[i] != item
  }

  /** What stays behind moves up, since the head never stays. */
  lemma {:induction false} SelectMovesUp(pending: seq<Pending>, fates: seq<Fate>, i: nat) returns (j: nat)
    requires |pending| == |fates| && i < |Select(pending, fates, Left)| && fates[0] != Left
    ensures i < j < |pending| && pending[j] == Select(pending, fates, Left)[i]
  {
    var last := |pending| - 1;
    if i < |Select(pending[..last], fates[..last], Left)| {
      j := SelectMovesUp(pending[..last], fates[..last], i);
    } else {
      SelectShorter(pending[..last], fates[..last]);
      j := last;
    }
  }

  lemma {:induction false} PickMovesUp(config: Config, core: Core, pending: seq<Pending>, item: Pending, k: int)
    requires config.settings.maxBatchRequests > 0
    requires NotPast(pending, item, k)
    ensures NotPast(PickChunk(config, core, pending).remaining, item, k - 1)
  {
    hide PickChunk, ChunkOK, EstimatedSize;
    var fates := PickFates(config, core, pending);
    var remaining := PickChunk(config, core, pending).remaining;
    forall i | 0 <= i < |remaining| && i > k - 1 ensures remaining[i] != item {
      SelectShorter(pending, fates);
      var j := SelectMovesUp(pending, fates, i);
    }
  }

  lemma {:induction false} BeginKeepsBuffer(config: Config, state: State, chunk: seq<Pending>, event: Event)
    requires event.Proceed?
    ensures var after := BeginDispatch(config, state, chunk, event.prepareAt, event.startAt, event.batchID,
                                       event.sentAt,
                                       event.times);
            after.pending == state.pending && after.queue == state.queue && after.accepted == state.accepted
  {
    hide Prepare, FailUnits, BatchOK, BatchSizeBytes, MakeBatch;
  }

  lemma {:induction false} ProceedAhead(config: Config, state: State, event: Event, item: Pending, k: int)
    requires config.settings.maxBatchRequests > 0
    requires event.Proceed? && state.phase.Ticking? && Ahead(state, item, k)
    ensures Ahead(ProceedStep(config, state, event), item, k - 1)
  {
    hide AnswerError, PickChunk, BeginDispatch;
    PickMovesUp(config, state.core, state.pending, item, k);
    var pick := PickChunk(config, state.core, state.pending);
    var checked := AfterBackpressureCheck(state.(clock := event.startAt, phase := Idle), state.phase.readAt);
    var picked := checked.(core := pick.core, pending := pick.remaining, pendingInBatchBuffer := |pick.remaining|);
    BeginKeepsBuffer(config, picked, pick.chunk, event);
    var after := ProceedStep(config, state, event);
    assert after.accepted == state.accepted && after.queue == state.queue;
    assert after.pending == [] || after.pending == pick.remaining;
  }

  lemma {:induction false} NextAhead(config: Config, state: State, event: Event, item: Pending, k: int)
    requires config.settings.maxBatchRequests > 0 && AcceptedOK(state.accepted) && Enabled(config, state, event)
    requires Ahead(state, item, k)
    ensures Ahead(Next(config, state, event), item, if event.Proceed? then k - 1 else k)
  {
    hide ProceedStep, AnswerError, EvictExpired, FailUnits, DeliverUnits, Accepted, ResultsByID, IsRunDelayed,
         Normalized;
    if event.Proceed? {
      ProceedAhead(config, state, event, item, k);
    }
  }

  lemma {:induction false} ChannelsNumbered(config: Config, start: int, events: seq<Event>, state: State)
    requires config.settings.Valid() && start >= 0 && LeadsTo(config, start, events, state)
    ensures AcceptedOK(state.accepted)
  {
    hide After, IsRun, AcceptedOK, Conserved, GaugesOK, FlightOK, Calls, CoreOK, CountersOK;
    RunInv(config, start, events);
  }

  lemma {:induction false} RunAhead(config: Config, start: int, events: seq<Event>, state: State, more: seq<Event>,
                                    after: State, item: Pending, k: int)
    requires config.settings.Valid() && start >= 0 && Ahead(state, item, k)
    requires LeadsTo(config, start, events, state) && LeadsTo(config, start, events + more, after)
    ensures Ahead(after, item, k - Ticks(more))
    decreases |more|
  {
    hide IsRun, After, Enabled, Next, Ahead, AcceptedOK;
    if more == [] {
      assert events + more == events;
    } else {
      var last := |more| - 1;
      var before := LeadsBack(config, start, events, more, after);
      RunAhead(config, start, events, state, more[..last], before, item, k);
      ChannelsNumbered(config, start, events + more[..last], before);
      NextAhead(config, before, more[last], item, k - Ticks(more[..last]));
    }
  }

  lemma {:induction false} OncePlaced(config: Config, start: int, events: seq<Event>, state: State, k: nat)
    requires config.settings.Valid() && start >= 0 && LeadsTo(config, start, events, state) && k < |state.pending|
    ensures Ahead(state, state.pending[k], k)
  {
    hide After, IsRun, GaugesOK, FlightOK, Calls, CoreOK, CountersOK, UnitItems, AcceptedOK;
    RunInv(config, start, events);
    var item := state.pending[k];
    AcceptedOnce(state.accepted);
    assert item in multiset(state.pending);
    assert item in multiset(state.accepted);
    assert multiset(state.accepted)[item] == 1;
    assert multiset(state.queue)[item] == 0;
    forall i | k < i < |state.pending| ensures state.pending[i] != item {
      if state.pending[i] == item {
        TwiceInMultiset(state.pending, k, i);
      }
    }
  }

  /** In every run a request with k others ahead of it in the buffer has left it once k + 1 ticks have gone through,
      with or without backpressure: it is answered or with the dispatcher. */
  lemma {:induction false} LeavesWithinTicks(config: Config, start: int, events: seq<Event>, state: State, k: nat,
                                             more: seq<Event>, after: State)
    requires config.settings.Valid() && start >= 0
    requires LeadsTo(config, start, events, state) && LeadsTo(config, start, events + more, after)
    requires k < |state.pending| && Ticks(more) >= k + 1
    ensures var item := state.pending[k];
            && item !in after.pending && item !in after.queue
            && multiset(Sent(after.core.outbox))[item] + Working(after.phase)[item] == 1
  {
    hide After, IsRun, Sent, Working;
    var item := state.pending[k];
    OncePlaced(config, start, events, state, k);
    RunAhead(config, start, events, state, more, after, item, k);
    InOnePlace(config, start, events + more, item);
    assert multiset(after.pending)[item] == 0;
    assert multiset(after.queue)[item] == 0;
  }

  // ----- from the queue on -----

  /** The requests that Run took from the queue. */
  function Receives(events: seq<Event>): nat {
    if events == [] then 0
    else Receives(events[..|events| - 1]) + if events[|events| - 1].Receive? then 1 else 0
  }

  /** An accepted request with at most q others ahead of it if it is still queued. */
  ghost predicate Waits(state: State, item: Pending, q: int) {
    item in state.accepted && NotPast(state.queue, item, q)
  }

  lemma {:induction false} ProceedKeepsQueue(config: Config, state: State, event: Event)
    requires event.Proceed? && state.phase.Ticking?
    ensures var after := ProceedStep(config, state, event);
            after.queue == state.queue && after.accepted == state.accepted
  {
    hide AnswerError, PickChunk, BeginDispatch;
    var pick := PickChunk(config, state.core, state.pending);
    var checked := AfterBackpressureCheck(state.(clock := event.startAt, phase := Idle), state.phase.readAt);
    var picked := checked.(core := pick.core, pending := pick.remaining, pendingInBatchBuffer := |pick.remaining|);
    BeginKeepsBuffer(config, picked, pick.chunk, event);
  }

  lemma {:induction false} NextWaits(config: Config, state: State, event: Event, item: Pending, q: int)
    requires AcceptedOK(state.accepted) && Enabled(config, state, event) && Waits(state, item, q)
    ensures Waits(Next(config, state, event), item, if event.Receive? then q - 1 else q)
  {
    hide ProceedStep, AnswerError, EvictExpired, FailUnits, DeliverUnits, Accepted, ResultsByID, IsRunDelayed,
         Normalized;
    if event.Proceed? {
      ProceedKeepsQueue(config, state, event);
    }
  }

  lemma {:induction false} RunWaits(config: Config, start: int, events: seq<Event>, state: State, more: seq<Event>,
                                    after: State, item: Pending, q: int)
    requires config.settings.Valid() && start >= 0 && Waits(state, item, q)
    requires LeadsTo(config, start, events, state) && LeadsTo(config, start, events + more, after)
    ensures Waits(after, item, q - Receives(more))
    decreases |more|
  {
    hide IsRun, After, Enabled, Next, Waits, AcceptedOK;
    if more == [] {
      assert events + more == events;
    } else {
      var last := |more| - 1;
      var before := LeadsBack(config, start, events, more, after);
      RunWaits(config, start, events, state, more[..last], before, item, q);
      ChannelsNumbered(config, start, events + more[..last], before);
      NextWaits(config, before, more[last], item, q - Receives(more[..last]));
    }
  }

  lemma {:induction false} OnceQueued(config: Config, start: int, events: seq<Event>, state: State, q: nat)
    requires config.settings.Valid() && start >= 0 && LeadsTo(config, start, events, state) && q < |state.queue|
    ensures Waits(state, state.queue[q], q)
  {
    hide After, IsRun, GaugesOK, FlightOK, Calls, CoreOK, CountersOK, UnitItems, AcceptedOK;
    RunInv(config, start, events);
    var item := state.queue[q];
    AcceptedOnce(state.accepted);
    assert item in multiset(state.queue);
    assert item in multiset(state.accepted);
    forall i | q < i < |state.queue| ensures state.queue[i] != item {
      if state.queue[i] == item {
        TwiceInMultiset(state.queue, q, i);
      }
    }
  }

  /** Every accepted request is answered: one that had q others ahead of it in the queue, once q + 1 requests were
      received, as many ticks as were then buffered have gone through, and no batch is with the dispatcher. It is
      answered once. */
  lemma {:induction false} AnsweredInTime(config: Config, start: int, events: seq<Event>, state: State, q: nat,
                                          more: seq<Event>, received: State, rest: seq<Event>, after: State)
    requires config.settings.Valid() && start >= 0 && q < |state.queue|
    requires LeadsTo(config, start, events, state) && LeadsTo(config, start, events + more, received)
    requires LeadsTo(config, start, events + more + rest, after)
    requires Receives(more) >= q + 1 && Ticks(rest) >= |received.pending| && !after.phase.InFlight?
    ensures multiset(Sent(after.core.outbox))[state.queue[q]] == 1
  {
    hide After, IsRun, Sent;
    var item := state.queue[q];
    OnceQueued(config, start, events, state, q);
    RunWaits(config, start, events, state, more, received, item, q);
    var ahead := |received.pending| - 1;
    assert Ahead(received, item, ahead);
    RunAhead(config, start, events + more, received, rest, after, item, ahead);
    InOnePlace(config, start, events + more + rest, item);
    assert multiset(after.pending)[item] == 0;
    assert multiset(after.queue)[item] == 0;
  }
}
