/** No request is sent twice: in every run each accepted request is carried by at most one batch. */
module AgentDispatches {
  import opened Text
  import opened Protocol
  import opened Validation
  import opened Wire
  import opened AgentModel
  import opened AgentLedger
  import opened AgentOrigins
  import opened AgentRuns
  import opened AgentTheorems

  /** Every request that some dispatch carried, as primary or as duplicate. */
  function Carried(dispatches: seq<Dispatch>): multiset<Pending> {
    if dispatches == [] then multiset{}
    else Carried(dispatches[..|dispatches| - 1]) + UnitItems(dispatches[|dispatches| - 1].units)
  }

  /** What was carried is answered or with the dispatcher. */
  ghost predicate OnceOK(state: State) {
    Carried(state.dispatches) <= multiset(Sent(state.core.outbox)) + Working(state.phase)
  }

  lemma {:induction false} OnceFrame(a: State, b: State)
    requires OnceOK(a) && a.dispatches == b.dispatches
    requires multiset(Sent(a.core.outbox)) + Working(a.phase) <= multiset(Sent(b.core.outbox)) + Working(b.phase)
    ensures OnceOK(b)
  {
    hide Carried, Working, Sent;
  }

  /** Another answer takes nothing away. */
  lemma {:induction false} LedgerOnce(a: State, b: State, items: multiset<Pending>)
    requires OnceOK(a) && a.dispatches == b.dispatches && Working(a.phase) == Working(b.phase)
    requires Ledger(a.core, b.core, items)
    ensures OnceOK(b)
  {
    hide OnceOK, Working, Sent, CountOK;
    assert multiset(Sent(a.core.outbox)) <= multiset(Sent(a.core.outbox)) + items;
    OnceFrame(a, b);
  }

  lemma {:induction false} CarriedAppend(dispatches: seq<Dispatch>, dispatch: Dispatch)
    ensures Carried(dispatches + [dispatch]) == Carried(dispatches) + UnitItems(dispatch.units)
  {
    assert (dispatches + [dispatch])[..|dispatches|] == dispatches;
  }

  lemma {:induction false} CarriedReply(dispatches: seq<Dispatch>, reply: Option<Reply>)
    requires dispatches != []
    ensures var last := |dispatches| - 1;
            Carried(dispatches[last := dispatches[last].(reply := reply)]) == Carried(dispatches)
  {
    var last := |dispatches| - 1;
    assert dispatches[last := dispatches[last].(reply := reply)][..last] == dispatches[..last];
  }

  lemma {:induction false} LaunchOnce(a: State, b: State, dispatch: Dispatch)
    requires OnceOK(a) && !a.phase.InFlight? && b.phase == InFlight(dispatch.units)
    requires b.dispatches == a.dispatches + [dispatch] && b.core.outbox == a.core.outbox
    ensures OnceOK(b)
  {
    hide Carried, UnitItems, Sent;
    CarriedAppend(a.dispatches, dispatch);
  }

  lemma {:induction false} LandOnce(a: State, b: State, units: seq<Unit>, reply: Option<Reply>)
    requires OnceOK(a) && a.phase == InFlight(units) && b.phase.Idle? && a.dispatches != []
    requires b.dispatches == a.dispatches[|a.dispatches| - 1 := a.dispatches[|a.dispatches| - 1].(reply := reply)]
    requires Ledger(a.core, b.core, UnitItems(units))
    ensures OnceOK(b)
  {
    hide Carried, UnitItems, Sent, CountOK;
    CarriedReply(a.dispatches, reply);
  }

  lemma {:induction false} PreparedOnce(config: Config, state: State, chunk: seq<Pending>, now: int)
    requires OnceOK(state)
    ensures OnceOK(state.(core := Prepare(config, state.core, chunk, now).core, chunked := state.chunked + |chunk|))
  {
    var hits := PrepareLedger(config, state.core, chunk, now);
    hide OnceOK, Prepare, Ledger, Working;
    LedgerOnce(state, state.(core := Prepare(config, state.core, chunk, now).core, chunked := state.chunked + |chunk|),
               hits);
  }

  lemma {:induction false} FailedOnce(config: Config, a: State, b: State, units: seq<Unit>, code: Code,
                                      message: Message,
                                      times: seq<int>)
    requires OnceOK(a) && b.dispatches == a.dispatches && b.phase == a.phase
    requires b.core == FailUnits(config, a.core, units, code, message, times)
    ensures OnceOK(b)
  {
    FailUnitsLedger(config, a.core, units, code, message, times);
    hide OnceOK, Ledger, FailUnits, UnitItems, Working;
    LedgerOnce(a, b, UnitItems(units));
  }

  ghost predicate FailedAs(config: Config, prepared: State, units: seq<Unit>, code: Code, message: Message,
                           times: seq<int>, after: State) {
    && after.core == FailUnits(config, prepared.core, units, code, message, times)
    && after.dispatches == prepared.dispatches && after.phase == prepared.phase
  }

  ghost predicate LaunchedAs(prepared: State, dispatch: Dispatch, after: State) {
    && after.phase == InFlight(dispatch.units) && after.core.outbox == prepared.core.outbox
    && after.dispatches == prepared.dispatches + [dispatch]
  }

  /** What a chunk leads to after its preparation, whichever way that goes. */
  ghost predicate Begun(config: Config, prepared: State, dispatch: Dispatch, times: seq<int>, after: State) {
    || after == prepared
    || FailedAs(config, prepared, dispatch.units, WorkerError, BatchInvalid, times, after)
    || FailedAs(config, prepared, dispatch.units, BatchTooLarge, BatchTooBig, times, after)
    || LaunchedAs(prepared, dispatch, after)
  }

  lemma {:induction false} BegunOnce(config: Config, prepared: State, dispatch: Dispatch, times: seq<int>, after: State)
    requires OnceOK(prepared) && prepared.phase.Idle? && Begun(config, prepared, dispatch, times, after)
    ensures OnceOK(after)
  {
    hide OnceOK, FailUnits;
    if FailedAs(config, prepared, dispatch.units, WorkerError, BatchInvalid, times, after) {
      FailedOnce(config, prepared, after, dispatch.units, WorkerError, BatchInvalid, times);
    } else if FailedAs(config, prepared, dispatch.units, BatchTooLarge, BatchTooBig, times, after) {
      FailedOnce(config, prepared, after, dispatch.units, BatchTooLarge, BatchTooBig, times);
    } else if LaunchedAs(prepared, dispatch, after) {
      LaunchOnce(prepared, after, dispatch);
    }
  }

  ghost function NextDispatch(config: Config, units: seq<Unit>, event: Event): Dispatch
    requires event.Proceed?
  {
    Dispatch(MakeBatch(Primaries(units), config.settings, event.batchID, event.sentAt), units, event.startAt, None)
  }

  lemma {:induction false} BeginsSo(config: Config, state: State, chunk: seq<Pending>, event: Event)
    requires event.Proceed?
    ensures var prep := Prepare(config, state.core, chunk, event.prepareAt);
            Begun(config, state.(core := prep.core, chunked := state.chunked + |chunk|),
                  NextDispatch(config, prep.units, event), event.times,
                  BeginDispatch(config, state, chunk, event.prepareAt, event.startAt, event.batchID, event.sentAt,
                                event.times))
  {
    hide Prepare, FailUnits, BatchOK, BatchSizeBytes, MakeBatch;
  }

  lemma {:induction false} BeginDispatchOnce(config: Config, state: State, chunk: seq<Pending>, event: Event)
    requires event.Proceed? && OnceOK(state) && state.phase.Idle?
    ensures OnceOK(BeginDispatch(config, state, chunk, event.prepareAt, event.startAt, event.batchID, event.sentAt,
                                 event.times))
  {
    hide OnceOK, Prepare, BeginDispatch, NextDispatch, Begun;
    var prep := Prepare(config, state.core, chunk, event.prepareAt);
    PreparedOnce(config, state, chunk, event.prepareAt);
    BeginsSo(config, state, chunk, event);
    BegunOnce(config, state.(core := prep.core, chunked := state.chunked + |chunk|),
              NextDispatch(config, prep.units, event), event.times,
              BeginDispatch(config, state, chunk, event.prepareAt, event.startAt, event.batchID, event.sentAt,
                            event.times));
  }

  lemma {:induction false} ProceedOnce(config: Config, state: State, event: Event)
    requires event.Proceed? && OnceOK(state) && state.phase.Ticking?
    ensures OnceOK(ProceedStep(config, state, event))
  {
    var now, ready := state.phase.readAt, state.(clock := event.startAt, phase := Idle);
    var checked := AfterBackpressureCheck(ready, now);
    OnceFrame(state, checked);
    hide OnceOK, Ledger, AnswerError, PickChunk, BeginDispatch, Working;
    var after := ProceedStep(config, state, event);
    if BackpressureActive(ready, now) {
      ErrorsLedger(state.core, state.pending, config.redaction, RunDelayed, RunStartDelayed);
      LedgerOnce(checked, after, multiset(state.pending));
    } else {
      var pick := PickChunk(config, state.core, state.pending);
      var picked := checked.(core := pick.core, pending := pick.remaining, pendingInBatchBuffer := |pick.remaining|);
      var rejected := PickLedger(config, state.core, state.pending);
      LedgerOnce(checked, picked, rejected);
      if pick.chunk != [] {
        BeginDispatchOnce(config, picked, pick.chunk, event);
      }
    }
  }

  lemma {:induction false} ReturnOnce(config: Config, state: State, event: Event)
    requires event.Return? && OnceOK(state) && state.phase.InFlight? && state.dispatches != []
    ensures OnceOK(ReturnStep(config, state, event))
  {
    hide OnceOK, Ledger, FailUnits, DeliverUnits, Accepted, ResultsByID, IsRunDelayed, UnitItems;
    var units, index := state.phase.units, |state.dispatches| - 1;
    var batch := state.dispatches[index].batch;
    match event.reply {
      case Failure(message) =>
        var code := if IsRunDelayed(message) then RunDelayed else DispatchFailed;
        FailUnitsLedger(config, state.core, units, code, Reason(message), Times(event.env));
      case Package(pkg) =>
        if Accepted(pkg, batch.batchID, RequestIDs(batch.requests)) {
          DeliverUnitsLedger(config, state.core, units, ResultsByID(pkg.results), index, event.env);
        } else {
          FailUnitsLedger(config, state.core, units, ResultPackageNotFound, VerificationFailed, Times(event.env));
        }
    }
    LandOnce(state, ReturnStep(config, state, event), units, Some(event.reply));
  }

  lemma {:induction false} NextOnce(config: Config, state: State, event: Event)
    requires OnceOK(state) && Enabled(config, state, event)
    ensures OnceOK(Next(config, state, event))
  {
    hide OnceOK, Ledger, AnswerError, Working, EvictExpired, ProceedStep, ReturnStep;
    var after := Next(config, state, event);
    match event
    case Check(_, _, _) => OnceFrame(state, after);
    case Enqueue(_) => OnceFrame(state, after);
    case Record => OnceFrame(state, after);
    case Receive => OnceFrame(state, after);
    case Tick(_) =>
      NotWorking(state.phase);
      NotWorking(after.phase);
      OnceFrame(state, after);
    case Proceed(_, _, _, _, _) => ProceedOnce(config, state, event);
    case Return(_, _, _, _) =>
      if state.dispatches != [] {
        ReturnOnce(config, state, event);
      }
    case Stop =>
      ErrorsLedger(state.core, state.pending, config.redaction, WorkerError, AgentStopped);
      NotWorking(state.phase);
      NotWorking(after.phase);
      LedgerOnce(state, after, multiset(state.pending));
  }

  lemma {:induction false} NotWorking(phase: Phase)
    requires !phase.InFlight?
    ensures Working(phase) == multiset{}
  {
  }

  lemma {:induction false} RunOnce(config: Config, start: int, events: seq<Event>)
    requires IsRun(config, start, events)
    ensures OnceOK(After(config, start, events))
  {
    hide OnceOK, Next, Enabled;
    if events == [] {
      InitOnce(start);
    } else {
      var last := |events| - 1;
      RunOnce(config, start, events[..last]);
      NextOnce(config, After(config, start, events[..last]), events[last]);
    }
  }

  lemma {:induction false} InitOnce(start: int)
    ensures OnceOK(Init(start))
  {
  }

  lemma {:induction false} CarriedTwice(dispatches: seq<Dispatch>, i: nat, j: nat, item: Pending)
    requires i < j < |dispatches|
    ensures Carried(dispatches)[item] >= UnitItems(dispatches[i].units)[item] + UnitItems(dispatches[j].units)[item]
  {
    hide UnitItems;
    var last := |dispatches| - 1;
    if j < last {
      CarriedTwice(dispatches[..last], i, j, item);
    } else {
      CarriedHas(dispatches[..last], i, item);
    }
  }

  lemma {:induction false} CarriedHas(dispatches: seq<Dispatch>, i: nat, item: Pending)
    requires i < |dispatches|
    ensures Carried(dispatches)[item] >= UnitItems(dispatches[i].units)[item]
  {
    hide UnitItems;
    if i < |dispatches| - 1 {
      CarriedHas(dispatches[..|dispatches| - 1], i, item);
    }
  }

  /** In every run a dispatch carries accepted requests only, each once, and no two dispatches carry the same one. */
  lemma {:induction false} CarriedOnce(config: Config, start: int, events: seq<Event>, i: nat, j: nat, item: Pending)
    requires config.settings.Valid() && start >= 0 && IsRun(config, start, events)
    requires i < |After(config, start, events).dispatches| && j < |After(config, start, events).dispatches|
    requires item in UnitItems(After(config, start, events).dispatches[i].units)
    ensures var state := After(config, start, events);
            && item in state.accepted && UnitItems(state.dispatches[i].units)[item] == 1
            && (item in UnitItems(state.dispatches[j].units) ==> i == j)
  {
    hide After, IsRun, UnitItems, GaugesOK, FlightOK, Calls, CoreOK, CountersOK, Carried, AcceptedOK;
    RunInv(config, start, events);
    RunOnce(config, start, events);
    var state := After(config, start, events);
    AcceptedOnce(state.accepted);
    CarriedHas(state.dispatches, i, item);
    assert Carried(state.dispatches)[item] <= multiset(state.accepted)[item];
    assert item in multiset(state.accepted);
    if i < j {
      CarriedTwice(state.dispatches, i, j, item);
    } else if j < i {
      CarriedTwice(state.dispatches, j, i, item);
    }
  }
}
