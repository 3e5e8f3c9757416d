/** Which submissions are accepted: those that pass classification and backpressure and find room in the queue, and no
    others; every one that is not is counted as rejected. */
module AgentSubmissions {
  import opened Text
  import opened Protocol
  import opened Validation
  import opened Wire
  import opened AgentModel
  import opened AgentLedger
  import opened AgentRuns
  import opened AgentRetention

  /** The submission passes: nothing is wrong with the request, and no deadline stands that is later than its
      reading. */
  ghost predicate Passes(state: State, event: Event) {
    event.Check? && event.verdict.None? && !(state.backpressureUntil != 0 && event.at < state.backpressureUntil)
  }

  ghost predicate OneMoreRejected(a: State, b: State) {
    b.core == a.core.(counters := a.core.counters.(localRejected := a.core.counters.localRejected + 1,
                                                   failed := a.core.counters.failed + 1))
  }

  ghost predicate SameForCallers(a: State, b: State) {
    && a.accepted == b.accepted && a.queue == b.queue && a.pending == b.pending && a.phase == b.phase
    && a.dispatches == b.dispatches && a.activations == b.activations && a.unrecorded == b.unrecorded
  }

  /** A submission goes on to the queue if and only if it passes; otherwise it is counted as rejected. Either way only
      a deadline that it finds over is cleared, and none by a request that classification refuses. */
  lemma {:induction false} CheckSettled(config: Config, state: State, event: Event)
    requires event.Check? && Enabled(config, state, event)
    ensures var after := Next(config, state, event);
            && SameForCallers(state, after)
            && (if Passes(state, event) then after.offered == state.offered + [event.item] && after.core == state.core
                else after.offered == state.offered && OneMoreRejected(state, after))
            && after.backpressureUntil
               == if event.verdict.None? && event.at >= state.backpressureUntil then 0 else state.backpressureUntil
  {
  }

  /** A submission that passed is accepted, at the end of the queue and under a number of its own, if and only if the
      queue has room; otherwise it is counted as rejected. */
  lemma {:induction false} QueueSettled(config: Config, state: State, event: Event)
    requires event.Enqueue? && Enabled(config, state, event)
    ensures var after, i := Next(config, state, event), event.offer;
            var item := Pending(state.offered[i], |state.accepted|);
            && after.offered == state.offered[..i] + state.offered[i + 1..] && after.pending == state.pending
            && after.backpressureUntil == state.backpressureUntil && after.phase == state.phase
            && if |state.queue| < config.settings.maxQueueRequests
               then after.queue == state.queue + [item] && after.accepted == state.accepted + [item]
                    && after.core == state.core && after.unrecorded == state.unrecorded + 1
               else after.queue == state.queue && after.accepted == state.accepted && OneMoreRejected(state, after)
                    && after.unrecorded == state.unrecorded
  {
  }

  // ----- over whole runs -----

  /** Some submission of this request passed, in the state that it met. */
  ghost predicate Admitted(config: Config, start: int, events: seq<Event>, request: RequestItem)
    requires IsRun(config, start, events)
  {
    exists i :: 0 <= i < |events| && AdmittedAt(config, start, events, i, request)
  }

  ghost predicate AdmittedAt(config: Config, start: int, events: seq<Event>, i: nat, request: RequestItem) {
    && i < |events| && IsRun(config, start, events[..i])
    && events[i].Check? && events[i].item == request && Passes(After(config, start, events[..i]), events[i])
  }

  lemma {:induction false} AdmittedLater(config: Config, start: int, events: seq<Event>, request: RequestItem)
    requires events != [] && IsRun(config, start, events)
    requires Admitted(config, start, events[..|events| - 1], request)
    ensures Admitted(config, start, events, request)
  {
    hide IsRun, After, Passes;
    var front := events[..|events| - 1];
    var i :| 0 <= i < |front| && AdmittedAt(config, start, front, i, request);
    assert front[..i] == events[..i] && front[i] == events[i];
    assert AdmittedAt(config, start, events, i, request);
  }

  lemma {:induction false} AdmittedNow(config: Config, start: int, events: seq<Event>)
    requires events != [] && IsRun(config, start, events)
    requires IsRun(config, start, events[..|events| - 1])
    requires Passes(After(config, start, events[..|events| - 1]), events[|events| - 1])
    ensures Admitted(config, start, events, events[|events| - 1].item)
  {
    hide IsRun, After;
    assert AdmittedAt(config, start, events, |events| - 1, events[|events| - 1].item);
  }

  ghost predicate AllAdmitted(config: Config, start: int, events: seq<Event>, state: State)
    requires IsRun(config, start, events)
  {
    && (forall i :: 0 <= i < |state.offered| ==> Admitted(config, start, events, state.offered[i]))
    && (forall i :: 0 <= i < |state.accepted| ==> Admitted(config, start, events, state.accepted[i].request))
  }

  /** What an event does to the submissions under way. */
  ghost predicate Grows(a: State, b: State, event: Event) {
    && (forall i :: 0 <= i < |b.offered| ==>
          b.offered[i] in a.offered || (Passes(a, event) && b.offered[i] == event.item))
    && (forall i :: 0 <= i < |b.accepted| ==> b.accepted[i] in a.accepted || b.accepted[i].request in a.offered)
  }

  lemma {:induction false} RunKeepsSubmissions(config: Config, state: State, event: Event)
    requires Enabled(config, state, event) && !event.Check? && !event.Enqueue?
    ensures var after := Next(config, state, event);
            && after.offered == state.offered && after.accepted == state.accepted
            && after.core.counters.localRejected == state.core.counters.localRejected
  {
    hide ProceedStep, ReturnStep, AnswerError, EvictExpired;
    match event {
      case Proceed(_, _, _, _, _) => ProceedKeepsSubmissions(config, state, event);
      case Return(_, _, _, _) => ReturnKeepsSubmissions(config, state, event);
      case Stop => ErrorsLedger(state.core, state.pending, config.redaction, WorkerError, AgentStopped);
      case _ =>
    }
  }

  lemma {:induction false} BeginKeepsSubmissions(config: Config, state: State, chunk: seq<Pending>, event: Event)
    requires event.Proceed?
    ensures var after := BeginDispatch(config, state, chunk, event.prepareAt, event.startAt, event.batchID,
                                       event.sentAt, event.times);
            && after.offered == state.offered && after.accepted == state.accepted
            && after.core.counters.localRejected == state.core.counters.localRejected
  {
    hide Prepare, FailUnits, BatchOK, BatchSizeBytes, MakeBatch, UnitItems, Sent, CountOK;
    var prep := Prepare(config, state.core, chunk, event.prepareAt);
    var hits := PrepareLedger(config, state.core, chunk, event.prepareAt);
    FailUnitsLedger(config, prep.core, prep.units, WorkerError, BatchInvalid, event.times);
    FailUnitsLedger(config, prep.core, prep.units, BatchTooLarge, BatchTooBig, event.times);
  }

  lemma {:induction false} ProceedKeepsSubmissions(config: Config, state: State, event: Event)
    requires event.Proceed? && state.phase.Ticking?
    ensures var after := ProceedStep(config, state, event);
            && after.offered == state.offered && after.accepted == state.accepted
            && after.core.counters.localRejected == state.core.counters.localRejected
  {
    hide PickChunk, BeginDispatch, AnswerError, Sent, CountOK;
    ErrorsLedger(state.core, state.pending, config.redaction, RunDelayed, RunStartDelayed);
    var rejected := PickLedger(config, state.core, state.pending);
    var pick := PickChunk(config, state.core, state.pending);
    var checked := AfterBackpressureCheck(state.(clock := event.startAt, phase := Idle), state.phase.readAt);
    BeginKeepsSubmissions(config, checked.(core := pick.core, pending := pick.remaining,
                                           pendingInBatchBuffer := |pick.remaining|), pick.chunk, event);
  }

  lemma {:induction false} ReturnKeepsSubmissions(config: Config, state: State, event: Event)
    requires event.Return? && state.phase.InFlight?
    ensures var after := if state.dispatches == [] then state else ReturnStep(config, state, event);
            && after.offered == state.offered && after.accepted == state.accepted
            && after.core.counters.localRejected == state.core.counters.localRejected
  {
    hide FailUnits, DeliverUnits, Accepted, ResultsByID, IsRunDelayed, UnitItems, Sent, CountOK;
    var units, index, times := state.phase.units, |state.dispatches| - 1, Times(event.env);
    match event.reply {
      case Failure(message) =>
        FailUnitsLedger(config, state.core, units, RunDelayed, Reason(message), times);
        FailUnitsLedger(config, state.core, units, DispatchFailed, Reason(message), times);
      case Package(pkg) =>
        FailUnitsLedger(config, state.core, units, ResultPackageNotFound, VerificationFailed, times);
        if index >= 0 {
          DeliverUnitsLedger(config, state.core, units, ResultsByID(pkg.results), index, event.env);
        }
    }
  }

  lemma {:induction false} NextGrows(config: Config, state: State, event: Event)
    requires Enabled(config, state, event)
    ensures Grows(state, Next(config, state, event), event)
  {
    hide Next;
    if event.Check? {
      CheckSettled(config, state, event);
    } else if event.Enqueue? {
      QueueSettled(config, state, event);
    } else {
      RunKeepsSubmissions(config, state, event);
    }
  }

  lemma {:induction false} GrownAdmitted(config: Config, start: int, events: seq<Event>, before: State, after: State)
    requires events != [] && IsRun(config, start, events) && IsRun(config, start, events[..|events| - 1])
    requires before == After(config, start, events[..|events| - 1]) && Grows(before, after, events[|events| - 1])
    requires AllAdmitted(config, start, events[..|events| - 1], before)
    ensures AllAdmitted(config, start, events, after)
  {
    hide IsRun, After, Admitted, Passes;
    var event, front := events[|events| - 1], events[..|events| - 1];
    forall i | 0 <= i < |after.offered| ensures Admitted(config, start, events, after.offered[i]) {
      if after.offered[i] in before.offered {
        AdmittedLater(config, start, events, after.offered[i]);
      } else {
        AdmittedNow(config, start, events);
      }
    }
    forall i | 0 <= i < |after.accepted| ensures Admitted(config, start, events, after.accepted[i].request) {
      AdmittedLater(config, start, events, after.accepted[i].request);
    }
  }

  lemma {:induction false} RunAdmits(config: Config, start: int, events: seq<Event>)
    requires IsRun(config, start, events)
    ensures AllAdmitted(config, start, events, After(config, start, events))
  {
    hide AllAdmitted, Enabled, Next;
    if events == [] {
      NoneAdmitted(config, start);
    } else {
      var front := events[..|events| - 1];
      RunAdmits(config, start, front);
      NextGrows(config, After(config, start, front), events[|events| - 1]);
      GrownAdmitted(config, start, events, After(config, start, front), After(config, start, events));
    }
  }

  lemma {:induction false} NoneAdmitted(config: Config, start: int)
    requires IsRun(config, start, [])
    ensures AllAdmitted(config, start, [], Init(start))
  {
  }

  /** In every run each accepted request is one that was submitted, that classification let pass, and that found no
      backpressure when it was checked. */
  lemma {:induction false} AcceptedWereAdmitted(config: Config, start: int, events: seq<Event>, item: Pending)
    requires IsRun(config, start, events) && item in After(config, start, events).accepted
    ensures Admitted(config, start, events, item.request)
  {
    hide IsRun, After, Admitted;
    RunAdmits(config, start, events);
  }

  function Submissions(events: seq<Event>): nat {
    if events == [] then 0
    else Submissions(events[..|events| - 1]) + if events[|events| - 1].Check? then 1 else 0
  }

  /** In every run each submission is accepted, on its way to the queue, or counted as rejected. */
  lemma {:induction false} SubmissionsBalance(config: Config, start: int, events: seq<Event>)
    requires IsRun(config, start, events)
    ensures var state := After(config, start, events);
            Submissions(events) == |state.accepted| + |state.offered| + state.core.counters.localRejected
  {
    hide Enabled, Next;
    if events != [] {
      var front, event := events[..|events| - 1], events[|events| - 1];
      SubmissionsBalance(config, start, front);
      NextBalance(config, After(config, start, front), event);
    }
  }

  lemma {:induction false} NextBalance(config: Config, state: State, event: Event)
    requires Enabled(config, state, event)
    ensures var after := Next(config, state, event);
            |after.accepted| + |after.offered| + after.core.counters.localRejected
            == |state.accepted| + |state.offered| + state.core.counters.localRejected + if event.Check? then 1 else 0
  {
    hide Next;
    if event.Check? {
      CheckSettled(config, state, event);
    } else if event.Enqueue? {
      QueueSettled(config, state, event);
    } else {
      RunKeepsSubmissions(config, state, event);
    }
  }
}
