/** The agent object driven by an arbitrary schedule of its goroutines: whatever the schedule, the object goes through a
    run of the state machine, and so has every property that all runs have. */
module AgentService {
  import opened Text
  import opened Protocol
  import opened AgentModel
  import opened AgentCache
  import opened AgentLedger
  import opened AgentOrigins
  import opened AgentRuns
  import opened AgentTheorems
  import opened Agent

  /** What the scheduler and the environment may do next. */
  datatype Action =
    | Offer(item: RequestItem, verdict: Option<ResultError>, at: int)
    | Queue(offer: nat)
    | Count
    | Take
    | Beat(tickAt: int)
    | Go(proceed: Event)
    | Answered(reply: Reply, returnAt: int, endAt: int, readings: seq<Readings>)
    | Cancel

  predicate Possible(agent: Agent, action: Action)
    reads agent
  {
    match action
    case Offer(item, _, _) => Normalized(item)
    case Queue(offer) => offer < |agent.offered|
    case Count => agent.unrecorded > 0
    case Take => agent.phase.Idle? && agent.queue != []
    case Beat(tickAt) => agent.phase.Idle? && agent.clock <= tickAt
    case Go(proceed) =>
      agent.phase.Ticking? && proceed.Proceed? && agent.clock <= proceed.prepareAt <= proceed.startAt
    case Answered(_, returnAt, endAt, readings) =>
      agent.phase.InFlight? && agent.clock <= returnAt <= endAt && |readings| == |agent.phase.units|
      && forall i :: 0 <= i < |readings| ==> returnAt <= readings[i].storeAt <= endAt
    case Cancel => agent.phase.Idle?
  }

  ghost predicate Stepped(config: Config, before: State, event: Event, after: State) {
    Enabled(config, before, event) && after == Next(config, before, event)
  }

  /** What callers' goroutines may do is a step of the state machine. */
  method PerformSubmit(agent: Agent, action: Action) returns (ghost event: Event)
    requires agent.Ready() && Possible(agent, action) && (action.Offer? || action.Queue? || action.Count?)
    modifies agent
    ensures agent.Ready() && Stepped(agent.config, old(agent.model), event, agent.model)
  {
    hide CheckStep, EnqueueStep, RecordStep;
    match action {
    case Offer(item, verdict, at) =>
      event := Check(item, verdict, at);
      var admitted := agent.CheckSubmission(item, verdict, at);
    case Queue(offer) =>
      event := Enqueue(offer);
      var channel := agent.Enqueue(offer);
    case Count =>
      event := Record;
      agent.RecordSubmitted();
    }
  }

  /** So is what Run may do when it waits for something to happen. */
  method PerformSelect(agent: Agent, action: Action) returns (ghost event: Event)
    requires agent.Ready() && Possible(agent, action) && (action.Take? || action.Beat? || action.Cancel?)
    modifies agent
    ensures agent.Ready() && Stepped(agent.config, old(agent.model), event, agent.model)
  {
    hide ReceiveStep, TickStep, StopStep;
    match action {
    case Take =>
      event := Receive;
      agent.Receive();
    case Beat(tickAt) =>
      event := Tick(tickAt);
      agent.Tick(tickAt);
    case Cancel =>
      event := Stop;
      agent.Stop();
    }
  }

  /** And so is what it does about a batch. */
  method PerformBatch(agent: Agent, action: Action) returns (ghost event: Event)
    requires agent.Ready() && Possible(agent, action) && (action.Go? || action.Answered?)
    modifies agent
    ensures agent.Ready() && Stepped(agent.config, old(agent.model), event, agent.model)
  {
    hide ProceedStep, ReturnStep, Read;
    match action {
    case Go(proceed) =>
      event := proceed;
      agent.Proceed(proceed);
    case Answered(reply, returnAt, endAt, readings) =>
      ghost var env := agent.Return(reply, returnAt, endAt, readings);
      event := Return(reply, returnAt, endAt, env);
      ReadInTime(readings, env, returnAt, endAt);
    }
  }

  /** One action is one step of the state machine. */
  method Perform(agent: Agent, start: int, action: Action, ghost events: seq<Event>) returns (ghost event: Event)
    requires agent.Ready() && Possible(agent, action) && LeadsTo(agent.config, start, events, agent.model)
    modifies agent
    ensures agent.Ready() && LeadsTo(agent.config, start, events + [event], agent.model)
  {
    hide LeadsTo, Enabled, Next, Agent.Ready, Possible;
    ghost var before := agent.model;
    if action.Offer? || action.Queue? || action.Count? {
      event := PerformSubmit(agent, action);
    } else if action.Go? || action.Answered? {
      event := PerformBatch(agent, action);
    } else {
      event := PerformSelect(agent, action);
    }
    LeadsOn(agent.config, start, events, before, event);
  }

  lemma {:induction false} ReadInTime(readings: seq<Readings>, env: seq<UnitEnv>, returnAt: int, endAt: int)
    requires Read(readings, env)
    requires forall i :: 0 <= i < |readings| ==> returnAt <= readings[i].storeAt <= endAt
    ensures |env| == |readings| && forall i :: 0 <= i < |env| ==> returnAt <= env[i].storeAt <= endAt
  {
  }

  ghost predicate OwnChannels(outbox: seq<Send>) {
    forall i, j :: 0 <= i < j < |outbox| ==> outbox[i].item.channel != outbox[j].item.channel
  }

  ghost predicate Holds(buffers: map<nat, RequestResult>, send: Send) {
    send.item.channel in buffers && buffers[send.item.channel] == send.result
  }

  /** When every send has a channel of its own, each channel holds what was sent on it. */
  lemma {:induction false} BuffersHold(outbox: seq<Send>)
    requires OwnChannels(outbox)
    ensures |Buffers(outbox)| == |outbox|
    ensures forall channel :: channel in Buffers(outbox) <==> HasSend(outbox, channel)
    ensures forall i :: 0 <= i < |outbox| ==> Holds(Buffers(outbox), outbox[i])
  {
    hide HasSend;
    if outbox == [] {
      NoSends();
    } else {
      var last := |outbox| - 1;
      var front, channel := outbox[..last], outbox[last].item.channel;
      assert OwnChannels(front);
      BuffersHold(front);
      assert !HasSend(front, channel) by {
        NotSent(outbox);
      }
      assert |Buffers(front)[channel := outbox[last].result]| == |Buffers(front)| + 1;
      forall other ensures HasSend(outbox, other) <==> HasSend(front, other) || other == channel {
        HasSendStep(outbox, other);
      }
      forall i | 0 <= i < |outbox| ensures Holds(Buffers(outbox), outbox[i]) {
        if i < last {
          assert Holds(Buffers(front), front[i]);
        }
      }
    }
  }

  lemma {:induction false} NoSends()
    ensures forall channel :: !HasSend([], channel)
  {
  }

  lemma {:induction false} NotSent(outbox: seq<Send>)
    requires outbox != [] && OwnChannels(outbox)
    ensures !HasSend(outbox[..|outbox| - 1], outbox[|outbox| - 1].item.channel)
  {
  }

  ghost predicate HasSend(outbox: seq<Send>, channel: nat) {
    exists i :: 0 <= i < |outbox| && outbox[i].item.channel == channel
  }

  lemma {:induction false} HasSendStep(outbox: seq<Send>, channel: nat)
    requires outbox != []
    ensures var last := |outbox| - 1;
            HasSend(outbox, channel) <==> HasSend(outbox[..last], channel) || channel == outbox[last].item.channel
  {
    var last := |outbox| - 1;
    if HasSend(outbox[..last], channel) {
      var i :| 0 <= i < last && outbox[..last][i].item.channel == channel;
      assert outbox[i].item.channel == channel;
    }
    if HasSend(outbox, channel) {
      var i :| 0 <= i < |outbox| && outbox[i].item.channel == channel;
      assert i < last ==> outbox[..last][i].item.channel == channel;
    }
  }

  /** The answer was sent for the request accepted under this number, and is the right one: an error of the agent's own,
      or the sanitized result of an accepted package, from its own batch or in time from the cache. */
  ghost predicate RightAnswer(config: Config, state: State, channel: nat, result: RequestResult) {
    channel < |state.accepted|
    && exists i :: 0 <= i < |state.core.outbox| && state.core.outbox[i].item == state.accepted[channel]
                   && state.core.outbox[i].result == result
                   && SendOK(config, state.core.outbox[i], state.core.stores, state.dispatches)
  }

  /** What callers and operators can see of an agent at any time: each channel that was answered holds the right answer
      to the request accepted under its number, and none was overwritten; nothing stale was served; the answers and the
      requests still waiting or with the dispatcher make up those accepted; and the cache is within its bound. */
  ghost predicate Sound(agent: Agent)
    reads agent
  {
    && (forall channel :: channel in agent.channels ==>
          RightAnswer(agent.config, agent.model, channel, agent.channels[channel]))
    && |agent.channels| == |agent.model.core.outbox|
    && agent.counters.failOpenServed == 0
    && |agent.model.accepted| == |agent.channels| + |agent.queue| + |agent.pending| + |Working(agent.phase)|
    && |agent.cache| <= agent.config.settings.cacheMaxEntries
  }

  /** Drives an agent by the possible actions of a schedule. */
  method Serve(config: Config, start: int, schedule: seq<Action>) returns (agent: Agent, ghost events: seq<Event>)
    requires config.settings.Valid() && start >= 0
    ensures fresh(agent) && agent.config == config && agent.Ready() && LeadsTo(config, start, events, agent.model)
    ensures Sound(agent)
  {
    agent := new Agent(config, start);
    events := [];
    assert LeadsTo(config, start, events, agent.model);
    hide LeadsTo, Agent.Ready, Possible, Sound;
    for i := 0 to |schedule|
      invariant fresh(agent) && agent.config == config && agent.Ready() && LeadsTo(config, start, events, agent.model)
    {
      if Possible(agent, schedule[i]) {
        ghost var event := Perform(agent, start, schedule[i], events);
        events := events + [event];
      }
    }
    RunsAreSound(agent, start, events);
  }

  /** An answered request was accepted, under the number of its channel. */
  lemma {:induction false} SentWasAccepted(state: State, i: nat)
    requires i < |state.core.outbox| && Conserved(state, multiset{}) && AcceptedOK(state.accepted)
    ensures var item := state.core.outbox[i].item;
            item.channel < |state.accepted| && state.accepted[item.channel] == item
  {
    hide UnitItems;
    var item := state.core.outbox[i].item;
    assert Sent(state.core.outbox)[i] == item;
    assert item in multiset(Sent(state.core.outbox));
    assert item in multiset(state.accepted);
    assert item in state.accepted;
  }

  lemma {:induction false} ChannelsSound(config: Config, start: int, events: seq<Event>, state: State, channel: nat)
    requires config.settings.Valid() && start >= 0 && LeadsTo(config, start, events, state)
    requires OwnChannels(state.core.outbox) && channel in Buffers(state.core.outbox)
    ensures RightAnswer(config, state, channel, Buffers(state.core.outbox)[channel])
  {
    hide IsRun, After, Buffers, Conserved, AcceptedOK, GaugesOK, FlightOK, Calls, CountersOK, SendOK, StoresOK,
         CacheLogged;
    BuffersHold(state.core.outbox);
    var i :| 0 <= i < |state.core.outbox| && state.core.outbox[i].item.channel == channel;
    RunInv(config, start, events);
    SentWasAccepted(state, i);
    assert Holds(Buffers(state.core.outbox), state.core.outbox[i]);
    assert SendOK(config, state.core.outbox[i], state.core.stores, state.dispatches);
  }

  lemma {:induction false} CountsSound(config: Config, start: int, events: seq<Event>, state: State)
    requires config.settings.Valid() && start >= 0 && LeadsTo(config, start, events, state)
    ensures |state.accepted| == |state.core.outbox| + |state.queue| + |state.pending| + |Working(state.phase)|
    ensures OwnChannels(state.core.outbox)
    ensures |state.core.cache| <= config.settings.cacheMaxEntries && state.core.counters.failOpenServed == 0
  {
    hide IsRun, After, AcceptedOK, GaugesOK, FlightOK, Calls, CountersOK, Working, SendsOK, StoresOK;
    RunInv(config, start, events);
    assert |multiset(state.accepted)|
           == |multiset(Sent(state.core.outbox)) + multiset(state.queue) + multiset(state.pending) + multiset{}
              + Working(state.phase)|;
    forall i, j | 0 <= i < j < |state.core.outbox| ensures state.core.outbox[i].item.channel
      != state.core.outbox[j].item.channel {
      NoSendBlocks(config, start, events, i, j);
    }
  }

  lemma {:induction false} RunsAreSound(agent: Agent, start: int, events: seq<Event>)
    requires agent.config.settings.Valid() && start >= 0
    requires agent.Ready() && LeadsTo(agent.config, start, events, agent.model)
    ensures Sound(agent)
  {
    hide LeadsTo, OwnChannels, Buffers, Working, RightAnswer;
    var state := agent.model;
    CountsSound(agent.config, start, events, state);
    BuffersHold(state.core.outbox);
    forall channel | channel in agent.channels
      ensures RightAnswer(agent.config, state, channel, agent.channels[channel])
    {
      ChannelsSound(agent.config, start, events, state, channel);
    }
  }
}
