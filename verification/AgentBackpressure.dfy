/** Backpressure against Submit calls that run while a tick stands between its clock reading and its look at the
    deadline. */
module AgentBackpressure {
  import opened Text
  import opened Protocol
  import opened Validation
  import opened Wire
  import opened AgentModel
  import opened AgentLedger
  import opened AgentCache
  import opened AgentOrigins
  import opened AgentRuns
  import opened AgentTheorems
  import opened Outage

  /** A Submit that passes classification and reads the clock at or past the deadline clears it. */
  predicate Clears(event: Event, deadline: int) {
    event.Check? && event.verdict.None? && event.at >= deadline
  }

  ghost predicate Cleared(events: seq<Event>, deadline: int) {
    exists i :: 0 <= i < |events| && Clears(events[i], deadline)
  }

  ghost predicate NoProceed(events: seq<Event>) {
    forall i :: 0 <= i < |events| ==> !events[i].Proceed?
  }

  /** The part of the state that Submit leaves to Run. */
  ghost predicate SameForRun(a: State, b: State) {
    && a.phase == b.phase && a.pending == b.pending && a.dispatches == b.dispatches && a.activations == b.activations
    && a.core.outbox == b.core.outbox && a.core.cache == b.core.cache && a.core.stores == b.core.stores
  }

  lemma {:induction false} SubmitStep(config: Config, state: State, event: Event, deadline: int)
    requires state.phase.Ticking? && !event.Proceed? && Enabled(config, state, event)
    requires deadline != 0 && state.backpressureUntil in {0, deadline}
    ensures var next := Next(config, state, event);
            && SameForRun(state, next)
            && next.backpressureUntil == if Clears(event, deadline) then 0 else state.backpressureUntil
  {
    hide TickStep, ProceedStep, ReturnStep, StopStep;
  }

  lemma {:induction false} TickingOn(config: Config, start: int, events: seq<Event>, before: State, event: Event,
                                     after: State, deadline: int)
    requires LeadsTo(config, start, events, before) && LeadsTo(config, start, events + [event], after)
    requires before.phase.Ticking? && !event.Proceed?
    requires deadline != 0 && before.backpressureUntil in {0, deadline}
    ensures SameForRun(before, after)
            && after.backpressureUntil == if Clears(event, deadline) then 0 else before.backpressureUntil
  {
    hide Enabled, Next, SameForRun, Clears;
    assert (events + [event])[..|events|] == events;
    SubmitStep(config, before, event, deadline);
  }

  lemma {:induction false} WhileTicking(config: Config, start: int, events: seq<Event>, mid: seq<Event>, state: State,
                                        after: State, deadline: int)
    requires LeadsTo(config, start, events, state) && state.phase.Ticking?
    requires deadline != 0 && state.backpressureUntil == deadline
    requires LeadsTo(config, start, events + mid, after) && NoProceed(mid)
    ensures SameForRun(state, after) && after.backpressureUntil == if Cleared(mid, deadline) then 0 else deadline
  {
    hide IsRun, After, Cleared, Clears, Enabled, Next;
    if mid == [] {
      assert events + mid == events;
      NothingCleared(deadline);
    } else {
      var last := |mid| - 1;
      assert (events + mid[..last]) + [mid[last]] == events + mid;
      var before := LeadsBack(config, start, events, mid, after);
      WhileTicking(config, start, events, mid[..last], state, before, deadline);
      TickingOn(config, start, events + mid[..last], before, mid[last], after, deadline);
      ClearedStep(mid, deadline);
    }
  }

  lemma {:induction false} NothingCleared(deadline: int)
    ensures !Cleared([], deadline)
  {
  }

  lemma {:induction false} ClearedStep(mid: seq<Event>, deadline: int)
    requires mid != []
    ensures var last := |mid| - 1;
            Cleared(mid, deadline) <==> Cleared(mid[..last], deadline) || Clears(mid[last], deadline)
  {
    var last := |mid| - 1;
    if Cleared(mid[..last], deadline) {
      var i :| 0 <= i < last && Clears(mid[..last][i], deadline);
      assert Clears(mid[i], deadline);
    }
    if Cleared(mid, deadline) {
      var i :| 0 <= i < |mid| && Clears(mid[i], deadline);
      assert i < last ==> Clears(mid[..last][i], deadline);
    }
  }

  // ----- what a tick that is not rejected answers -----

  ghost predicate Delayed(config: Config, send: Send) {
    IsError(config, send, RunDelayed, RunStartDelayed)
  }

  ghost predicate NoneDelayed(config: Config, a: Core, b: Core) {
    a.outbox <= b.outbox && forall i :: |a.outbox| <= i < |b.outbox| ==> !Delayed(config, b.outbox[i])
  }

  lemma {:induction false} OtherCode(config: Config, send: Send, code: Code, message: Message)
    requires code.WorkerError? || code.BatchTooLarge?
    requires IsError(config, send, code, message)
    ensures !Delayed(config, send)
  {
    hide MessageText;
    assert CodeText(RunDelayed)[0] != CodeText(code)[0];
  }

  lemma {:induction false} NoneDelayedChain(config: Config, a: Core, b: Core, c: Core)
    requires NoneDelayed(config, a, b) && NoneDelayed(config, b, c)
    ensures NoneDelayed(config, a, c)
  {
    hide Delayed;
  }

  lemma {:induction false} PickNotDelayed(config: Config, core: Core, pending: seq<Pending>)
    ensures NoneDelayed(config, core, PickChunk(config, core, pending).core)
  {
    hide ErrorResult, EstimatedSize, Delayed;
    if pending != [] {
      var last := |pending| - 1;
      PickNotDelayed(config, core, pending[..last]);
      var item := pending[last];
      OtherCode(config, Send(item, ErrorResult(config.redaction, item.request.requestID, BatchTooLarge, RequestTooBig),
                             Local),
                BatchTooLarge, RequestTooBig);
    }
  }

  lemma {:induction false} PrepareNotDelayed(config: Config, core: Core, chunk: seq<Pending>, now: int)
    ensures NoneDelayed(config, core, Prepare(config, core, chunk, now).core)
  {
    var after := Prepare(config, core, chunk, now).core;
    var hits := PrepareLedger(config, core, chunk, now);
    hide Prepare, ErrorResult;
    forall i | |core.outbox| <= i < |after.outbox| ensures !Delayed(config, after.outbox[i]) {
      FreshSendsComeFromCache(config, core, chunk, now, i);
    }
  }

  lemma {:induction false} FailNotDelayed(config: Config, core: Core, units: seq<Unit>, code: Code, message: Message,
                                          times: seq<int>)
    requires (code.WorkerError? || code.BatchTooLarge?) && KeysAbsent(units, core.cache)
    ensures NoneDelayed(config, core, FailUnits(config, core, units, code, message, times))
  {
    FailUnitsErrors(config, core, units, code, message, times);
    var after := FailUnits(config, core, units, code, message, times);
    hide FailUnits, IsError, Delayed;
    forall i | |core.outbox| <= i < |after.outbox| ensures !Delayed(config, after.outbox[i]) {
      OtherCode(config, after.outbox[i], code, Redacted(message));
    }
  }

  /** It starts a dispatch, or gives no one the error of backpressure. */
  lemma {:induction false} BeginNotDelayed(config: Config, state: State, chunk: seq<Pending>, event: Event)
    requires event.Proceed? && (config.settings.CacheEnabled() || state.core.cache == map[])
    ensures var after := BeginDispatch(config, state, chunk, event.prepareAt, event.startAt, event.batchID,
                                       event.sentAt,
                                       event.times);
            after.dispatches != state.dispatches || NoneDelayed(config, state.core, after.core)
  {
    hide NoneDelayed, Prepare, FailUnits, BatchOK, BatchSizeBytes, MakeBatch, UnitsOK, IndexOK, KeysAbsent, SameLookups;
    var prep := Prepare(config, state.core, chunk, event.prepareAt);
    PrepareNotDelayed(config, state.core, chunk, event.prepareAt);
    PrepareGroups(config, state.core, chunk, event.prepareAt);
    FailNotDelayed(config, prep.core, prep.units, WorkerError, BatchInvalid, event.times);
    FailNotDelayed(config, prep.core, prep.units, BatchTooLarge, BatchTooBig, event.times);
    var invalid := FailUnits(config, prep.core, prep.units, WorkerError, BatchInvalid, event.times);
    var large := FailUnits(config, prep.core, prep.units, BatchTooLarge, BatchTooBig, event.times);
    NoneDelayedChain(config, state.core, prep.core, invalid);
    NoneDelayedChain(config, state.core, prep.core, large);
  }

  lemma {:induction false} ProceedNotDelayed(config: Config, state: State, event: Event)
    requires event.Proceed? && state.phase.Ticking? && (config.settings.CacheEnabled() || state.core.cache == map[])
    requires !BackpressureActive(state, state.phase.readAt)
    ensures var after := ProceedStep(config, state, event);
            after.dispatches != state.dispatches || NoneDelayed(config, state.core, after.core)
  {
    hide NoneDelayed, PickChunk, BeginDispatch, AnswerError;
    var pick := PickChunk(config, state.core, state.pending);
    var checked := AfterBackpressureCheck(state.(clock := event.startAt, phase := Idle), state.phase.readAt);
    var picked := checked.(core := pick.core, pending := pick.remaining, pendingInBatchBuffer := |pick.remaining|);
    PickNotDelayed(config, state.core, state.pending);
    PickKeepsCache(config, state.core, state.pending);
    BeginNotDelayed(config, picked, pick.chunk, event);
    var begun := BeginDispatch(config, picked, pick.chunk, event.prepareAt, event.startAt, event.batchID, event.sentAt,
                               event.times);
    if begun.dispatches == state.dispatches {
      NoneDelayedChain(config, state.core, pick.core, begun.core);
    }
  }

  lemma {:induction false} PickKeepsCache(config: Config, core: Core, pending: seq<Pending>)
    ensures PickChunk(config, core, pending).core.cache == core.cache
  {
    hide ErrorResult, EstimatedSize;
    if pending != [] {
      PickKeepsCache(config, core, pending[..|pending| - 1]);
    }
  }

  // ----- the tick as a whole -----

  /** Every pending request is answered RUN_DELAYED, in order, and nothing is dispatched or left behind. */
  ghost predicate RejectsAll(config: Config, before: State, after: State) {
    && after.pending == [] && after.dispatches == before.dispatches && after.queue == before.queue
    && before.core.outbox <= after.core.outbox
    && Sent(after.core.outbox) == Sent(before.core.outbox) + before.pending
    && forall i :: |before.core.outbox| <= i < |after.core.outbox| ==> Delayed(config, after.core.outbox[i])
  }

  lemma {:induction false} NotAllRejected(config: Config, before: State, after: State)
    requires before.pending != []
    requires after.dispatches != before.dispatches || NoneDelayed(config, before.core, after.core)
    ensures !RejectsAll(config, before, after)
  {
    hide Delayed;
    if |after.core.outbox| > |before.core.outbox| && after.dispatches == before.dispatches {
      assert !Delayed(config, after.core.outbox[|before.core.outbox|]);
    }
  }

  lemma {:induction false} ActiveRejectsAll(config: Config, before: State, event: Event)
    requires event.Proceed? && before.phase.Ticking? && BackpressureActive(before, before.phase.readAt)
    ensures RejectsAll(config, before, ProceedStep(config, before, event))
  {
    hide AnswerError, PickChunk, BeginDispatch, IsError;
    AnswerErrorSends(config, before.core, before.pending, RunDelayed, RunStartDelayed);
  }

  /** The look at the deadline, after it was left standing or cleared. */
  lemma {:induction false} LookDecides(config: Config, before: State, event: Event, deadline: int, cleared: bool)
    requires event.Proceed? && before.phase.Ticking? && before.phase.readAt < deadline && before.pending != []
    requires before.backpressureUntil == (if cleared then 0 else deadline) && deadline != 0
    requires config.settings.CacheEnabled() || before.core.cache == map[]
    ensures RejectsAll(config, before, ProceedStep(config, before, event)) <==> !cleared
  {
    hide ProceedStep, RejectsAll, NoneDelayed;
    if cleared {
      ProceedNotDelayed(config, before, event);
      NotAllRejected(config, before, ProceedStep(config, before, event));
    } else {
      ActiveRejectsAll(config, before, event);
    }
  }

  lemma {:induction false} CacheOff(config: Config, state: State)
    requires Inv(config, state)
    ensures config.settings.CacheEnabled() || state.core.cache == map[]
  {
    hide Flow, GaugesOK, FlightOK, Calls, SendsOK, StoresOK;
  }

  lemma {:induction false} InvCalls(config: Config, state: State)
    requires Inv(config, state)
    ensures Calls(config, state)
  {
    hide Flow, GaugesOK, FlightOK, CoreOK;
  }

  /** Within the cooldown the deadline is the one that the last activation set. */
  lemma {:induction false} DeadlineStands(config: Config, state: State, tickAt: int)
    requires Calls(config, state) && state.activations != [] && state.clock <= tickAt
    requires tickAt < state.activations[|state.activations| - 1].at + config.settings.backpressureCooldown
    ensures state.backpressureUntil == state.activations[|state.activations| - 1].at
            + config.settings.backpressureCooldown
    ensures state.backpressureUntil > 0
  {
    hide DispatchOK;
  }

  lemma {:induction false} PrefixRun(config: Config, start: int, events: seq<Event>, more: seq<Event>)
    requires IsRun(config, start, events + more)
    ensures IsRun(config, start, events)
  {
    if more == [] {
      assert events + more == events;
    } else {
      assert (events + more)[..|events + more| - 1] == events + more[..|more| - 1];
      PrefixRun(config, start, events, more[..|more| - 1]);
    }
  }

  lemma {:induction false} TickLeads(config: Config, start: int, events: seq<Event>, state: State, tickAt: int,
                                     mid: seq<Event>)
    requires LeadsTo(config, start, events, state) && IsRun(config, start, events + [Tick(tickAt)] + mid)
    ensures state.phase.Idle? && state.clock <= tickAt
    ensures LeadsTo(config, start, events + [Tick(tickAt)], TickStep(config, state, tickAt))
  {
    PrefixRun(config, start, events + [Tick(tickAt)], mid);
    hide TickStep;
    assert (events + [Tick(tickAt)])[..|events|] == events;
  }

  lemma {:induction false} StandsOrCleared(config: Config, start: int, events: seq<Event>, state: State, tickAt: int,
                                           mid: seq<Event>, before: State)
    requires config.settings.Valid() && start >= 0 && NoProceed(mid) && state.pending != [] && state.activations != []
    requires LeadsTo(config, start, events, state) && LeadsTo(config, start, events + [Tick(tickAt)] + mid, before)
    requires tickAt < state.activations[|state.activations| - 1].at + config.settings.backpressureCooldown
    ensures var deadline := state.activations[|state.activations| - 1].at + config.settings.backpressureCooldown;
            && deadline > 0 && before.phase == Ticking(tickAt) && before.pending == state.pending
            && before.backpressureUntil == if Cleared(mid, deadline) then 0 else deadline
  {
    hide After, IsRun, Inv, EvictExpired, Cleared;
    RunInv(config, start, events);
    InvCalls(config, state);
    TickLeads(config, start, events, state, tickAt, mid);
    DeadlineStands(config, state, tickAt);
    WhileTicking(config, start, events + [Tick(tickAt)], mid, TickStep(config, state, tickAt), before,
                 state.backpressureUntil);
  }

  /** A tick that reads the clock within the cooldown, with requests pending: all of them are answered RUN_DELAYED if
      and only if no Submit with a reading at or past the deadline cleared it between that reading and the tick's look
      at it. */
  lemma {:induction false} RejectedWhileCooling(config: Config, start: int, events: seq<Event>, state: State,
                                                tickAt: int,
                                                mid: seq<Event>, before: State, proceed: Event)
    requires config.settings.Valid() && start >= 0 && NoProceed(mid) && state.pending != [] && state.activations != []
    requires LeadsTo(config, start, events, state) && LeadsTo(config, start, events + [Tick(tickAt)] + mid, before)
    requires proceed.Proceed? && Enabled(config, before, proceed)
    requires tickAt < state.activations[|state.activations| - 1].at + config.settings.backpressureCooldown
    ensures var deadline := state.activations[|state.activations| - 1].at + config.settings.backpressureCooldown;
            RejectsAll(config, before, Next(config, before, proceed)) <==> !Cleared(mid, deadline)
  {
    hide After, IsRun, Inv, Cleared, NoProceed, RejectsAll, ProceedStep;
    var deadline := state.activations[|state.activations| - 1].at + config.settings.backpressureCooldown;
    StandsOrCleared(config, start, events, state, tickAt, mid, before);
    RunInv(config, start, events + [Tick(tickAt)] + mid);
    CacheOff(config, before);
    LookDecides(config, before, proceed, deadline, Cleared(mid, deadline));
  }
}
