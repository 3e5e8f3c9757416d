/** The dispatcher of client/internal/githubapi/dispatcher.go: three timed polling loops and the clock that every
    response updates. Times and durations are in nanoseconds. */
module GitHub {
  import opened Text
  import opened Protocol
  import opened Validation
  import opened ServerClock
  import opened AgentModel

  // ----- what GitHub answers -----

  /** One call: no response at all, or a response with its local times, its Date header if valid, and its content. */
  datatype Answer<+T> = Lost(message: string) | Answered(localStart: int, localEnd: int, date: Option<int>, content: T)

  datatype WorkflowRun = WorkflowRun(id: int, displayTitle: string, name: string, createdAt: Option<int>)

  datatype Listing = Runs(runs: seq<WorkflowRun>) | BadListing(message: string)
  datatype Completed = Completed
  datatype Progress = Progress(completed: bool, success: bool) | BadProgress(message: string)
  datatype Download = Missing | Downloaded(pkg: ResultPackage) | BadDownload(message: string)
  datatype Plain = Fine | Bad(message: string)

  /** What one poll means to its loop. */
  datatype Step<+T> = Wait | Done(value: T) | Halt(message: string)

  /** What the k-th turn of a loop meets: a clock reading, a call, and whether the caller has gone by the end of the
      wait. */
  datatype Script<!T> = Script(started: int, clock: nat -> int, answer: nat -> Answer<T>, cancelled: nat -> bool)

  datatype Outcome<+T> = Found(value: T) | Failed(message: string) | TimedOut | Cancelled

  /** The clock after a call, and after the first n calls of a loop. */
  function Noted<T>(clock: Clock, answer: Answer<T>): Clock {
    match answer
    case Answered(start, end, Some(date), _) => Clock(Offset(date, start, end), true)
    case _ => clock
  }

  function NotedAll<T>(clock: Clock, answers: nat -> Answer<T>, n: nat): Clock {
    if n == 0 then clock else Noted(NotedAll(clock, answers, n - 1), answers(n - 1))
  }

  lemma {:induction false} StaysSynced<T>(clock: Clock, answers: nat -> Answer<T>, n: nat)
    requires clock.synced
    ensures NotedAll(clock, answers, n).synced
  {
    if n > 0 {
      StaysSynced(clock, answers, n - 1);
    }
  }

  // ----- what each poll looks for -----

  predicate Matches(run: WorkflowRun, batchID: string, earliest: int) {
    && (Contains(run.displayTitle, batchID) || Contains(run.name, batchID))
    && run.createdAt.Some? && FloorSecond(run.createdAt.value) >= earliest
  }

  /** The first run in the listing that is named after the batch and not too old. */
  ghost predicate FirstMatch(runs: seq<WorkflowRun>, batchID: string, earliest: int, i: nat) {
    && i < |runs| && Matches(runs[i], batchID, earliest)
    && forall j :: 0 <= j < i ==> !Matches(runs[j], batchID, earliest)
  }

  ghost predicate ListingStep(answer: Answer<Listing>, batchID: string, earliest: int, step: Step<int>) {
    match answer
    case Lost(message) => step == Halt(message)
    case Answered(_, _, _, BadListing(message)) => step == Halt(message)
    case Answered(_, _, _, Runs(runs)) =>
      match step
      case Halt(_) => false
      case Wait => forall i :: 0 <= i < |runs| ==> !Matches(runs[i], batchID, earliest)
      case Done(id) => exists i: nat :: FirstMatch(runs, batchID, earliest, i) && runs[i].id == id
  }

  ghost predicate ProgressStep(answer: Answer<Progress>, step: Step<Completed>) {
    match answer
    case Answered(_, _, _, Progress(completed, success)) =>
      && (step.Wait? <==> !completed) && (step.Done? <==> completed && success)
      && (step.Halt? ==> "WORKER_ERROR" <= step.message)
    case Answered(_, _, _, BadProgress(message)) => step == Halt(message)
    case Lost(message) => step == Halt(message)
  }

  ghost predicate DownloadStep(answer: Answer<Download>, step: Step<ResultPackage>) {
    match answer
    case Answered(_, _, _, Missing) => step.Wait?
    case Answered(_, _, _, Downloaded(pkg)) => step == Done(pkg)
    case Answered(_, _, _, BadDownload(message)) => step == Halt(message)
    case Lost(message) => step == Halt(message)
  }

  ghost predicate ListingSteps(script: Script<Listing>, batchID: string, earliest: int, steps: seq<Step<int>>) {
    forall j :: 0 <= j < |steps| ==> ListingStep(script.answer(j), batchID, earliest, steps[j])
  }

  ghost predicate ProgressSteps(script: Script<Progress>, steps: seq<Step<Completed>>) {
    forall j :: 0 <= j < |steps| ==> ProgressStep(script.answer(j), steps[j])
  }

  ghost predicate DownloadSteps(script: Script<Download>, steps: seq<Step<ResultPackage>>) {
    forall j :: 0 <= j < |steps| ==> DownloadStep(script.answer(j), steps[j])
  }

  // ----- how a loop ends -----

  /** The loops that look at the clock before each call. */
  ghost predicate CheckedFirst<T, U>(script: Script<T>, deadline: int, steps: seq<Step<U>>, outcome: Outcome<U>) {
    var calls := |steps|;
    && (forall j :: 0 <= j < calls ==> script.clock(j) <= deadline)
    && (forall j :: 0 <= j < calls - 1 ==> steps[j].Wait? && !script.cancelled(j))
    && match outcome
       case Found(value) => calls > 0 && steps[calls - 1] == Done(value)
       case Failed(message) => calls > 0 && steps[calls - 1] == Halt(message)
       case Cancelled => calls > 0 && steps[calls - 1].Wait? && script.cancelled(calls - 1)
       case TimedOut =>
         script.clock(calls) > deadline && (calls > 0 ==> steps[calls - 1].Wait? && !script.cancelled(calls - 1))
  }

  /** The loop that looks at the clock after each call. */
  ghost predicate PolledFirst<T, U>(script: Script<T>, deadline: int, steps: seq<Step<U>>, outcome: Outcome<U>) {
    var calls := |steps|;
    && calls > 0
    && (forall j :: 0 <= j < calls - 1 ==> steps[j].Wait? && script.clock(j) <= deadline && !script.cancelled(j))
    && match outcome
       case Found(value) => steps[calls - 1] == Done(value)
       case Failed(message) => steps[calls - 1] == Halt(message)
       case Cancelled => steps[calls - 1].Wait? && script.clock(calls - 1) <= deadline && script.cancelled(calls - 1)
       case TimedOut => steps[calls - 1].Wait? && script.clock(calls - 1) > deadline
  }

  /** Turns that found nothing. */
  ghost predicate Waited<T, U>(script: Script<T>, deadline: int, steps: seq<Step<U>>) {
    forall j :: 0 <= j < |steps| ==> script.clock(j) <= deadline && steps[j].Wait? && !script.cancelled(j)
  }

  lemma {:induction false} WaitedOn<T, U>(script: Script<T>, deadline: int, steps: seq<Step<U>>, step: Step<U>)
    requires Waited(script, deadline, steps) && script.clock(|steps|) <= deadline
    ensures step.Wait? && !script.cancelled(|steps|) ==> Waited(script, deadline, steps + [step])
    ensures step.Done? ==> CheckedFirst(script, deadline, steps + [step], Found(step.value))
    ensures step.Halt? ==> CheckedFirst(script, deadline, steps + [step], Failed(step.message))
    ensures step.Wait? && script.cancelled(|steps|) ==> CheckedFirst(script, deadline, steps + [step], Cancelled)
  {
  }

  lemma {:induction false} WaitedTooLong<T, U>(script: Script<T>, deadline: int, steps: seq<Step<U>>)
    requires Waited(script, deadline, steps) && script.clock(|steps|) > deadline
    ensures CheckedFirst(script, deadline, steps, TimedOut)
  {
  }

  lemma {:induction false} WaitedPolling<T, U>(script: Script<T>, deadline: int, steps: seq<Step<U>>, step: Step<U>)
    requires Waited(script, deadline, steps)
    ensures var late, cancelled := script.clock(|steps|) > deadline, script.cancelled(|steps|);
            && (step.Done? ==> PolledFirst(script, deadline, steps + [step], Found(step.value)))
            && (step.Halt? ==> PolledFirst(script, deadline, steps + [step], Failed(step.message)))
            && (step.Wait? && late ==> PolledFirst(script, deadline, steps + [step], TimedOut))
            && (step.Wait? && !late && cancelled ==> PolledFirst(script, deadline, steps + [step], Cancelled))
            && (step.Wait? && !late && !cancelled ==> Waited(script, deadline, steps + [step]))
  {
  }

  /** The clock advances by at least the poll interval from each turn to the next. */
  ghost predicate Paced<T(!new)>(script: Script<T>, interval: int) {
    script.clock(0) >= script.started && forall j: nat, k: nat :: j < k
                                           ==> script.clock(k) >= script.clock(j) + interval
  }

  lemma {:induction false} Elapsed<T(!new)>(script: Script<T>, interval: nat, k: nat)
    requires interval > 0 && Paced(script, interval)
    ensures script.clock(k) >= script.started + Ticks(k, interval)
  {
    if k > 0 {
      Elapsed(script, interval, k - 1);
      assert script.clock(k) >= script.clock(k - 1) + interval;
    }
  }

  /** The time that k waits take, and the number of whole waits within a timeout. */
  function Ticks(k: nat, interval: nat): nat {
    if k == 0 then 0 else Ticks(k - 1, interval) + interval
  }

  function Turns(timeout: nat, interval: nat): nat
    requires interval > 0
  {
    timeout / interval
  }

  lemma {:induction false} TicksProduct(k: nat, interval: nat)
    ensures Ticks(k, interval) == k * interval
  {
    if k > 0 {
      TicksProduct(k - 1, interval);
      assert k * interval == (k - 1) * interval + interval;
    }
  }

  lemma {:induction false} TurnsFit(interval: nat, timeout: nat)
    requires interval > 0
    ensures Ticks(Turns(timeout, interval), interval) <= timeout < Ticks(Turns(timeout, interval) + 1, interval)
  {
    TicksProduct(timeout / interval, interval);
    assert timeout == timeout / interval * interval + timeout % interval;
  }

  lemma {:induction false} TicksWithin(k: nat, interval: nat, timeout: nat)
    requires interval > 0
    ensures Ticks(k, interval) <= timeout <==> k <= Turns(timeout, interval)
  {
    hide Turns;
    TurnsFit(interval, timeout);
    var n := Turns(timeout, interval);
    if k < n {
      TicksIncrease(k, n, interval);
    } else if k > n + 1 {
      TicksIncrease(n + 1, k, interval);
    }
  }

  lemma {:induction false} TicksIncrease(j: nat, k: nat, interval: nat)
    requires j < k && interval > 0
    ensures Ticks(k, interval) >= Ticks(j, interval) + interval
  {
    if j < k - 1 {
      TicksIncrease(j, k - 1, interval);
    }
  }

  lemma {:induction false} CheckedFirstBound<T(!new), U>(script: Script<T>, interval: nat, timeout: nat,
                                               steps: seq<Step<U>>, outcome: Outcome<U>)
    requires interval > 0 && Paced(script, interval) && CheckedFirst(script, script.started + timeout, steps, outcome)
    ensures |steps| <= Turns(timeout, interval) + 1
  {
    if |steps| > 0 {
      Elapsed(script, interval, |steps| - 1);
      TicksWithin(|steps| - 1, interval, timeout);
    }
  }

  lemma {:induction false} PolledFirstBound<T(!new), U>(script: Script<T>, interval: nat, timeout: nat,
                                              steps: seq<Step<U>>, outcome: Outcome<U>)
    requires interval > 0 && Paced(script, interval) && PolledFirst(script, script.started + timeout, steps, outcome)
    ensures |steps| <= Turns(timeout, interval) + 2
  {
    if |steps| > 1 {
      Elapsed(script, interval, |steps| - 2);
      TicksWithin(|steps| - 2, interval, timeout);
    }
  }

  /** Turns exactly one interval apart. */
  function SlowScript<T>(started: int, interval: nat, answer: nat -> Answer<T>): Script<T> {
    Script(started, (k: nat) => started + Ticks(k, interval), answer, (k: nat) => false)
  }

  /** Both bounds are reached, and by loops that end well, whatever the interval and the timeout. */
  lemma {:induction false} BoundsReached<T(!new), U>(started: int, interval: nat, timeout: nat,
                                                     answer: nat -> Answer<T>, value: U)
    requires interval > 0
    ensures var script, waits := SlowScript(started, interval, answer), Turns(timeout, interval);
            && Paced(script, interval)
            && CheckedFirst(script, started + timeout, seq(waits, _ => Wait) + [Done(value)], Found(value))
            && PolledFirst(script, started + timeout, seq(waits + 1, _ => Wait) + [Done(value)], Found(value))
  {
    SlowPaced(started, interval, answer);
    hide Ticks, Turns, Paced;
    forall k: nat ensures Ticks(k, interval) <= timeout <==> k <= Turns(timeout, interval) {
      TicksWithin(k, interval, timeout);
    }
  }

  lemma {:induction false} SlowPaced<T(!new)>(started: int, interval: nat, answer: nat -> Answer<T>)
    requires interval > 0
    ensures Paced(SlowScript(started, interval, answer), interval)
  {
    assert Ticks(0, interval) == 0;
    hide Ticks;
    forall j: nat, k: nat | j < k ensures Ticks(k, interval) >= Ticks(j, interval) + interval {
      TicksIncrease(j, k, interval);
    }
  }

  /** A loop that finds nothing for a number of turns within its deadline, and then something, ends there. */
  lemma {:induction false} CheckedWaits<T, U>(script: Script<T>, deadline: int, steps: seq<Step<U>>,
                                              outcome: Outcome<U>, waits: nat, value: U)
    requires CheckedFirst(script, deadline, steps, outcome)
    requires forall k: nat :: k <= waits ==> script.clock(k) <= deadline && !script.cancelled(k)
    requires forall j: nat :: j < |steps| ==> if j < waits then steps[j].Wait? else steps[j] == Done(value)
    ensures outcome == Found(value) && |steps| == waits + 1
  {
    if waits < |steps| {
      assert steps[waits] == Done(value);
    }
  }

  lemma {:induction false} PolledWaits<T, U>(script: Script<T>, deadline: int, steps: seq<Step<U>>,
                                             outcome: Outcome<U>, waits: nat, value: U)
    requires PolledFirst(script, deadline, steps, outcome)
    requires forall k: nat :: k < waits ==> script.clock(k) <= deadline && !script.cancelled(k)
    requires forall j: nat :: j < |steps| ==> if j < waits then steps[j].Wait? else steps[j] == Done(value)
    ensures outcome == Found(value) && |steps| == waits + 1
  {
    if waits < |steps| {
      assert steps[waits] == Done(value);
    }
  }

  lemma {:induction false} TurnsBound(x: nat, interval: nat, most: nat, least: nat)
    requires 0 < least <= interval && x <= most
    ensures Turns(x, interval) <= Turns(most, least)
  {
    hide Ticks, Turns;
    var n := Turns(x, interval);
    TicksWithin(n, interval, x);
    assert Ticks(n, least) <= Ticks(n, interval) by {
      TicksMonotone(n, least, interval);
    }
    TicksWithin(n, least, most);
  }

  lemma {:induction false} TicksMonotone(k: nat, a: nat, b: nat)
    requires a <= b
    ensures Ticks(k, a) <= Ticks(k, b)
  {
    if k > 0 {
      TicksMonotone(k - 1, a, b);
    }
  }

  // ----- a whole batch -----

  const MAX_RUN_START_TIMEOUT := 600_000_000_000
  const MAX_RUN_WAIT_TIMEOUT := 1_800_000_000_000
  const MIN_POLL_INTERVAL := 500_000_000

  /** The calls that one batch may cost. */
  function CallBudget(runStartTimeout: nat, runCompletionTimeout: nat, pollInterval: nat): nat
    requires pollInterval > 0
  {
    Turns(runStartTimeout, pollInterval) + 2 * Turns(runCompletionTimeout, pollInterval) + 6
  }

  lemma {:induction false} ExtremePolls()
    ensures Turns(MAX_RUN_START_TIMEOUT, MIN_POLL_INTERVAL) == 1200
            && Turns(MAX_RUN_WAIT_TIMEOUT, MIN_POLL_INTERVAL) == 3600
  {
    hide Ticks, Turns;
    ExactTurns(MAX_RUN_START_TIMEOUT, MIN_POLL_INTERVAL, 1200);
    ExactTurns(MAX_RUN_WAIT_TIMEOUT, MIN_POLL_INTERVAL, 3600);
  }

  lemma {:induction false} ExactTurns(timeout: nat, interval: nat, k: nat)
    requires interval > 0 && timeout == k * interval
    ensures Turns(timeout, interval) == k
  {
    TicksProduct(k, interval);
    TicksWithin(k, interval, timeout);
    TicksWithin(k + 1, interval, timeout);
    hide Turns;
    assert Ticks(k + 1, interval) == Ticks(k, interval) + interval;
  }

  /** With a validated configuration a batch never costs more than 8406 calls; the extreme settings allow exactly
      that. */
  lemma {:induction false} ConfiguredBudget(runStartTimeout: nat, runCompletionTimeout: nat, pollInterval: nat)
    requires 30_000_000_000 <= runStartTimeout <= 600_000_000_000
    requires 60_000_000_000 <= runCompletionTimeout <= 1_800_000_000_000
    requires 500_000_000 <= pollInterval <= 10_000_000_000
    ensures CallBudget(runStartTimeout, runCompletionTimeout, pollInterval) <= 8406
    ensures CallBudget(600_000_000_000, 1_800_000_000_000, 500_000_000) == 8406
  {
    hide Turns;
    ExtremePolls();
    TurnsBound(runStartTimeout, pollInterval, MAX_RUN_START_TIMEOUT, MIN_POLL_INTERVAL);
    TurnsBound(runCompletionTimeout, pollInterval, MAX_RUN_WAIT_TIMEOUT, MIN_POLL_INTERVAL);
  }

  /** Everything one batch meets: what the polls of a run find depends on the run, what downloads find on the batch. */
  datatype Session = Session(
    sync: Answer<Plain>, dispatch: Answer<Plain>, dispatchedNow: int,
    runs: Script<Listing>, completion: int -> Script<Progress>, results: string -> Script<Download>)

  /** History: one call to GitHub. The polls name what they ask for and count within their loop. */
  datatype Call =
    | SyncCall | DispatchCall | ListCall(n: nat) | RunCall(id: int, n: nat) | ResultCall(batchID: string, n: nat)

  function ListCalls(n: nat): (calls: seq<Call>)
    ensures |calls| == n
  {
    seq(n, i requires 0 <= i < n => ListCall(i))
  }

  function RunCalls(id: int, n: nat): (calls: seq<Call>)
    ensures |calls| == n
  {
    seq(n, i requires 0 <= i < n => RunCall(id, i))
  }

  function ResultCalls(batchID: string, n: nat): (calls: seq<Call>)
    ensures |calls| == n
  {
    seq(n, i requires 0 <= i < n => ResultCall(batchID, i))
  }

  /** The wording of the dispatcher's own errors; where they begin with a code, what follows it. */
  datatype Wording = Wording(
    invalid: string, noDate: string, runStart: string, runCompletion: string, runFailed: string, noResult: string,
    cancelled: string, invalidResult: string)

  /** How far a batch got. */
  datatype Stage =
    | Preparing | Searching(search: Outcome<int>) | Running(run: Outcome<Completed>)
    | Fetching(fetch: Outcome<ResultPackage>)

  /** Some listing gave this run first among those named after the batch and created no earlier, to the second, than
      the dispatch was accepted. */
  ghost predicate RunChosen(session: Session, batchID: string, accepted: int, id: int, n: nat, i: nat) {
    var answer := session.runs.answer(n);
    answer.Answered? && answer.content.Runs?
    && FirstMatch(answer.content.runs, batchID, FloorSecond(accepted), i) && answer.content.runs[i].id == id
  }

  ghost predicate RunFound(session: Session, batchID: string, accepted: int, id: int, n: nat) {
    exists i: nat :: RunChosen(session, batchID, accepted, id, n, i)
  }

  /** How far a batch got, the calls made for it in order, the server's time of acceptance, the run it was given, and
      what each turn of the three loops came to. */
  datatype Report = Report(
    stage: Stage, calls: seq<Call>, acceptedAt: int, runID: int,
    searched: seq<Step<int>>, watched: seq<Step<Completed>>, fetched: seq<Step<ResultPackage>>)

  /** The clock can be read from the reply, or has been before. */
  predicate CanSync(synced: bool, answer: Answer<Plain>) {
    synced || (answer.Answered? && answer.content.Fine? && answer.date.Some?)
  }

  predicate Dispatched(answer: Answer<Plain>) {
    answer.Answered? && answer.content.Fine?
  }

  function Opening(synced: bool): seq<Call> {
    (if synced then [] else [SyncCall]) + [DispatchCall]
  }

  function CallsOf(synced: bool, batchID: string, report: Report): seq<Call> {
    Opening(synced) + ListCalls(|report.searched|) + RunCalls(report.runID, |report.watched|)
    + ResultCalls(batchID, |report.fetched|)
  }

  ghost predicate Listed(session: Session, batchID: string, report: Report, timeout: int, outcome: Outcome<int>) {
    && CheckedFirst(session.runs, session.runs.started + timeout, report.searched, outcome)
    && ListingSteps(session.runs, batchID, FloorSecond(report.acceptedAt), report.searched)
  }

  ghost predicate Watched(session: Session, report: Report, timeout: int, outcome: Outcome<Completed>) {
    var script := session.completion(report.runID);
    CheckedFirst(script, script.started + timeout, report.watched, outcome) && ProgressSteps(script, report.watched)
  }

  ghost predicate Fetched(session: Session, batchID: string, report: Report, timeout: int,
                          outcome: Outcome<ResultPackage>) {
    var script := session.results(batchID);
    PolledFirst(script, script.started + timeout, report.fetched, outcome) && DownloadSteps(script, report.fetched)
  }

  /** The loops that a batch went through, each of which but the last had to find something. */
  ghost predicate Traced(session: Session, batchID: string, report: Report, runStartTimeout: int,
                         runCompletionTimeout: int) {
    match report.stage
    case Preparing => report.searched == [] && report.watched == [] && report.fetched == []
    case Searching(search) =>
      && !search.Found? && Listed(session, batchID, report, runStartTimeout, search)
      && report.watched == [] && report.fetched == []
    case Running(run) =>
      && Listed(session, batchID, report, runStartTimeout, Found(report.runID))
      && !run.Found? && Watched(session, report, runCompletionTimeout, run) && report.fetched == []
    case Fetching(fetch) =>
      && Listed(session, batchID, report, runStartTimeout, Found(report.runID))
      && Watched(session, report, runCompletionTimeout, Found(Completed))
      && Fetched(session, batchID, report, runCompletionTimeout, fetch)
  }

  /** What the agent is given: the package that was fetched, if it is well formed and of this batch, or the error that
      ended the last loop. Only the first two loops report a delay when they run out of time. */
  ghost predicate Replied(reply: Reply, stage: Stage, batchID: string, wording: Wording) {
    match stage
    case Preparing => reply.Failure?
    case Searching(outcome) => GaveUp(reply, outcome, "RUN_DELAYED" + wording.runStart, wording)
    case Running(outcome) => GaveUp(reply, outcome, "RUN_DELAYED" + wording.runCompletion, wording)
    case Fetching(Found(pkg)) =>
      reply == if PackageOK(pkg) && pkg.batchID == batchID then Package(pkg) else Failure(wording.invalidResult)
    case Fetching(outcome) => GaveUp(reply, outcome, "RESULT_PACKAGE_NOT_FOUND" + wording.noResult, wording)
  }

  ghost predicate GaveUp<T>(reply: Reply, outcome: Outcome<T>, timedOut: string, wording: Wording) {
    match outcome
    case Found(_) => false
    case Failed(message) => reply == Failure(message)
    case TimedOut => reply == Failure(timedOut)
    case Cancelled => reply == Failure(wording.cancelled)
  }

  ghost predicate ListedAt(session: Session, batchID: string, report: Report, a: nat) {
    && a < |report.calls| && report.calls[a].ListCall?
    && RunFound(session, batchID, report.acceptedAt, report.runID, report.calls[a].n)
  }

  ghost predicate SucceededAt(session: Session, report: Report, b: nat) {
    && b < |report.calls| && report.calls[b].RunCall? && report.calls[b].id == report.runID
    && ProgressStep(session.completion(report.runID).answer(report.calls[b].n), Done(Completed))
  }

  ghost predicate FetchedAt(session: Session, batchID: string, report: Report, pkg: ResultPackage, c: nat) {
    && c < |report.calls| && report.calls[c].ResultCall? && report.calls[c].batchID == batchID
    && DownloadStep(session.results(batchID).answer(report.calls[c].n), Done(pkg))
  }

  /** A listing gave the run, a later poll of that run found that it had succeeded, and a still later download of this
      batch's results gave the package. */
  ghost predicate FetchedInOrder(session: Session, batchID: string, report: Report, pkg: ResultPackage) {
    exists a: nat, b: nat, c: nat :: a < b < c
      && ListedAt(session, batchID, report, a) && SucceededAt(session, report, b)
      && FetchedAt(session, batchID, report, pkg, c)
  }

  class Dispatcher {
    const pollInterval: int
    const runStartTimeout: int
    const runCompletionTimeout: int
    var serverClockOffset: int
    var serverClockSynced: bool

    constructor (pollInterval: int, runStartTimeout: int, runCompletionTimeout: int)
      ensures this.pollInterval == pollInterval
      ensures this.runStartTimeout == runStartTimeout && this.runCompletionTimeout == runCompletionTimeout
      ensures ClockState() == Clock(0, false)
    {
      this.pollInterval, this.runStartTimeout, this.runCompletionTimeout := pollInterval, runStartTimeout,
        runCompletionTimeout;
      serverClockOffset, serverClockSynced := 0, false;
    }

    function ClockState(): Clock
      reads this
    {
      Clock(serverClockOffset, serverClockSynced)
    }

    method UpdateServerClock(date: Option<int>, localStart: int, localEnd: int)
      modifies this`serverClockOffset, this`serverClockSynced
      ensures ClockState() == if date.Some? then Clock(Offset(date.value, localStart, localEnd), true)
                                else old(ClockState())
    {
      if date.None? {
        return;
      }
      var midpoint := localStart + Half(localEnd - localStart);
      serverClockOffset := date.value - midpoint;
      serverClockSynced := true;
    }

    method FindRunForBatch(answer: Answer<Listing>, batchID: string, earliest: int) returns (step: Step<int>)
      modifies this`serverClockOffset, this`serverClockSynced
      ensures ClockState() == Noted(old(ClockState()), answer)
      ensures ListingStep(answer, batchID, earliest, step)
    {
      if answer.Lost? {
        return Halt(answer.message);
      }
      UpdateServerClock(answer.date, answer.localStart, answer.localEnd);
      if answer.content.BadListing? {
        return Halt(answer.content.message);
      }
      var runs := answer.content.runs;
      for i := 0 to |runs|
        invariant forall j :: 0 <= j < i ==> !Matches(runs[j], batchID, earliest)
      {
        var run := runs[i];
        if !(Contains(run.displayTitle, batchID) || Contains(run.name, batchID)) {
          continue;
        }
        if run.createdAt.None? {
          continue;
        }
        var createdAt := FloorSecond(run.createdAt.value);
        if createdAt < earliest {
          continue;
        }
        assert FirstMatch(runs, batchID, earliest, i);
        return Done(run.id);
      }
      return Wait;
    }

    method GetRun(answer: Answer<Progress>, wording: Wording) returns (step: Step<Completed>)
      modifies this`serverClockOffset, this`serverClockSynced
      ensures ClockState() == Noted(old(ClockState()), answer)
      ensures ProgressStep(answer, step)
    {
      if answer.Lost? {
        return Halt(answer.message);
      }
      UpdateServerClock(answer.date, answer.localStart, answer.localEnd);
      if answer.content.BadProgress? {
        return Halt(answer.content.message);
      }
      if !answer.content.completed {
        return Wait;
      }
      if !answer.content.success {
        return Halt(CodeText(WorkerError) + wording.runFailed);
      }
      return Done(Completed);
    }

    method DownloadResultPackage(answer: Answer<Download>) returns (step: Step<ResultPackage>)
      modifies this`serverClockOffset, this`serverClockSynced
      ensures ClockState() == Noted(old(ClockState()), answer)
      ensures DownloadStep(answer, step)
    {
      if answer.Lost? {
        return Halt(answer.message);
      }
      UpdateServerClock(answer.date, answer.localStart, answer.localEnd);
      match answer.content
      case Missing => return Wait;
      case Downloaded(pkg) => return Done(pkg);
      case BadDownload(message) => return Halt(message);
    }

    method WaitForRun(script: Script<Listing>, batchID: string, earliest: int)
      returns (outcome: Outcome<int>, ghost steps: seq<Step<int>>)
      requires pollInterval > 0 && Paced(script, pollInterval)
      modifies this`serverClockOffset, this`serverClockSynced
      ensures CheckedFirst(script, script.started + runStartTimeout, steps, outcome)
      ensures ListingSteps(script, batchID, earliest, steps)
      ensures ClockState() == NotedAll(old(ClockState()), script.answer, |steps|)
    {
      var deadline := script.started + runStartTimeout;
      var turn: nat := 0;
      steps := [];
      assert Waited(script, deadline, steps);
      hide Noted, ListingStep, Waited, CheckedFirst;
      while true
        invariant |steps| == turn
        invariant Waited(script, deadline, steps)
        invariant ListingSteps(script, batchID, earliest, steps)
        invariant ClockState() == NotedAll(old(ClockState()), script.answer, turn)
        decreases deadline - script.clock(turn)
      {
        if script.clock(turn) > deadline {
          WaitedTooLong(script, deadline, steps);
          return TimedOut, steps;
        }
        var step := FindRunForBatch(script.answer(turn), batchID, earliest);
        WaitedOn(script, deadline, steps, step);
        steps := steps + [step];
        if step.Halt? {
          return Failed(step.message), steps;
        }
        if step.Done? {
          return Found(step.value), steps;
        }
        if script.cancelled(turn) {
          return Cancelled, steps;
        }
        turn := turn + 1;
      }
    }

    method WaitForRunCompletion(script: Script<Progress>, wording: Wording)
      returns (outcome: Outcome<Completed>, ghost steps: seq<Step<Completed>>)
      requires pollInterval > 0 && Paced(script, pollInterval)
      modifies this`serverClockOffset, this`serverClockSynced
      ensures CheckedFirst(script, script.started + runCompletionTimeout, steps, outcome)
      ensures ProgressSteps(script, steps)
      ensures ClockState() == NotedAll(old(ClockState()), script.answer, |steps|)
    {
      var deadline := script.started + runCompletionTimeout;
      var turn: nat := 0;
      steps := [];
      assert Waited(script, deadline, steps);
      hide Noted, ProgressStep, Waited, CheckedFirst;
      while true
        invariant |steps| == turn
        invariant Waited(script, deadline, steps)
        invariant ProgressSteps(script, steps)
        invariant ClockState() == NotedAll(old(ClockState()), script.answer, turn)
        decreases deadline - script.clock(turn)
      {
        if script.clock(turn) > deadline {
          WaitedTooLong(script, deadline, steps);
          return TimedOut, steps;
        }
        var step := GetRun(script.answer(turn), wording);
        WaitedOn(script, deadline, steps, step);
        steps := steps + [step];
        if step.Halt? {
          return Failed(step.message), steps;
        }
        if step.Done? {
          return Found(step.value), steps;
        }
        if script.cancelled(turn) {
          return Cancelled, steps;
        }
        turn := turn + 1;
      }
    }

    method WaitForResultPackage(script: Script<Download>)
      returns (outcome: Outcome<ResultPackage>, ghost steps: seq<Step<ResultPackage>>)
      requires pollInterval > 0 && Paced(script, pollInterval)
      modifies this`serverClockOffset, this`serverClockSynced
      ensures PolledFirst(script, script.started + runCompletionTimeout, steps, outcome)
      ensures DownloadSteps(script, steps)
      ensures ClockState() == NotedAll(old(ClockState()), script.answer, |steps|)
    {
      var deadline := script.started + runCompletionTimeout;
      var turn: nat := 0;
      steps := [];
      assert Waited(script, deadline, steps);
      hide Noted, DownloadStep, Waited, PolledFirst;
      while true
        invariant |steps| == turn
        invariant Waited(script, deadline, steps)
        invariant DownloadSteps(script, steps)
        invariant ClockState() == NotedAll(old(ClockState()), script.answer, turn)
        decreases deadline - script.clock(turn)
      {
        var step := DownloadResultPackage(script.answer(turn));
        WaitedPolling(script, deadline, steps, step);
        steps := steps + [step];
        if step.Halt? {
          return Failed(step.message), steps;
        }
        if step.Done? {
          return Found(step.value), steps;
        }
        if script.clock(turn) > deadline {
          return TimedOut, steps;
        }
        if script.cancelled(turn) {
          return Cancelled, steps;
        }
        turn := turn + 1;
      }
    }

    method SyncServerClock(answer: Answer<Plain>, wording: Wording) returns (error: Option<string>, ghost calls: nat)
      modifies this`serverClockOffset, this`serverClockSynced
      ensures calls == if old(serverClockSynced) then 0 else 1
      ensures old(serverClockSynced) ==> error.None? && ClockState() == old(ClockState())
      ensures error.None? ==> ClockState().synced
      ensures error.None? <==> CanSync(old(serverClockSynced), answer)
      ensures error.None? && !old(serverClockSynced) ==> ClockState() == Noted(old(ClockState()), answer)
    {
      if serverClockSynced {
        return None, 0;
      }
      calls := 1;
      if answer.Lost? {
        return Some(answer.message), calls;
      }
      if answer.content.Bad? {
        return Some(answer.content.message), calls;
      }
      UpdateServerClock(answer.date, answer.localStart, answer.localEnd);
      if answer.date.None? {
        return Some(wording.noDate), calls;
      }
      return None, calls;
    }

    /** acceptedAt is the reply's Date, or without one the estimate of the server's time. */
    method DispatchBatch(answer: Answer<Plain>, now: int) returns (acceptedAt: int, error: Option<string>)
      modifies this`serverClockOffset, this`serverClockSynced
      ensures ClockState() == Noted(old(ClockState()), answer)
      ensures old(serverClockSynced) ==> serverClockSynced
      ensures error.None? <==> Dispatched(answer)
      ensures error.None? ==>
                acceptedAt == if answer.date.Some? then answer.date.value else ServerNow(old(ClockState()), now)
    {
      if answer.Lost? {
        return 0, Some(answer.message);
      }
      UpdateServerClock(answer.date, answer.localStart, answer.localEnd);
      if answer.content.Bad? {
        return 0, Some(answer.content.message);
      }
      if answer.date.None? {
        return now + serverClockOffset, None;
      }
      return answer.date.value, None;
    }

    /** A batch goes through the three loops in turn as far as each finds something. A package is handed back if and
        only if a download of this batch's results gave it after the run chosen for this batch was found to have
        succeeded, and it is well formed and bears the batch's identifier. The calls made stay within the budget. */
    method ProcessBatch(batch: RequestBatch, validTime: string -> bool, session: Session, wording: Wording)
      returns (reply: Reply, ghost report: Report)
      requires pollInterval > 0 && runStartTimeout >= 0 && runCompletionTimeout >= 0
      requires Paced(session.runs, pollInterval)
      requires forall id :: Paced(session.completion(id), pollInterval)
      requires forall batchID :: Paced(session.results(batchID), pollInterval)
      modifies this`serverClockOffset, this`serverClockSynced
      ensures |report.calls| <= CallBudget(runStartTimeout, runCompletionTimeout, pollInterval)
      ensures old(serverClockSynced) ==>
                |report.calls| < CallBudget(runStartTimeout, runCompletionTimeout, pollInterval)
      ensures reply.Package? ==>
                && PackageOK(reply.pkg) && reply.pkg.batchID == batch.batchID && BatchOK(batch, validTime)
                && FetchedInOrder(session, batch.batchID, report, reply.pkg) && serverClockSynced
      ensures report.stage.Preparing?
              <==> !(BatchOK(batch, validTime) && CanSync(old(serverClockSynced), session.sync)
                     && Dispatched(session.dispatch))
      ensures Traced(session, batch.batchID, report, runStartTimeout, runCompletionTimeout)
      ensures !report.stage.Preparing? ==> report.calls == CallsOf(old(serverClockSynced), batch.batchID, report)
      ensures !report.stage.Preparing? && session.dispatch.date.Some? ==>
                report.acceptedAt == session.dispatch.date.value
      ensures Replied(reply, report.stage, batch.batchID, wording)
      ensures report.stage == Searching(TimedOut) || report.stage == Running(TimedOut) ==>
                reply.Failure? && IsRunDelayed(reply.message)
    {
      hide ListingStep, ProgressStep, DownloadStep, CheckedFirst, PolledFirst, Noted, NotedAll, PackageOK, BatchOK,
           IsRunDelayed, RunFound, ListingSteps, ProgressSteps, DownloadSteps, Paced, CodeText, FloorSecond, Offset,
             Turns,
           FetchedInOrder, ListCalls, RunCalls, ResultCalls, GaveUp, FailureText;
      report := Report(Preparing, [], 0, 0, [], [], []);
      var invalid := ValidateRequestBatch(batch, validTime);
      if invalid.Some? {
        return Failure(wording.invalid), report;
      }
      var error, synced := SyncServerClock(session.sync, wording);
      report := report.(calls := if synced == 0 then [] else [SyncCall]);
      if error.Some? {
        return Failure(error.value), report;
      }
      var accepted;
      accepted, error := DispatchBatch(session.dispatch, session.dispatchedNow);
      report := report.(calls := report.calls + [DispatchCall], acceptedAt := accepted);
      if error.Some? {
        return Failure(error.value), report;
      }

      ghost var hadClock, searchClock := old(serverClockSynced), ClockState();
      var search, searched := WaitForRun(session.runs, batch.batchID, FloorSecond(accepted));
      StaysSynced(searchClock, session.runs.answer, |searched|);
      report := report.(stage := Searching(search), calls := report.calls + ListCalls(|searched|),
                       searched := searched);
      if !search.Found? {
        WithinBudget(session, batch.batchID, report, hadClock, pollInterval, runStartTimeout, runCompletionTimeout);
        GivesUpDelayed(search, wording.runStart, wording);
        return Failure(FailureText(search, CodeText(RunDelayed) + wording.runStart, wording)), report;
      }
      var runID := search.value;
      report := report.(runID := runID);

      ghost var runClock := ClockState();
      var run, watched := WaitForRunCompletion(session.completion(runID), wording);
      StaysSynced(runClock, session.completion(runID).answer, |watched|);
      report := report.(stage := Running(run), calls := report.calls + RunCalls(runID, |watched|), watched := watched);
      if !run.Found? {
        WithinBudget(session, batch.batchID, report, hadClock, pollInterval, runStartTimeout, runCompletionTimeout);
        GivesUpDelayed(run, wording.runCompletion, wording);
        return Failure(FailureText(run, CodeText(RunDelayed) + wording.runCompletion, wording)), report;
      }
      assert run.value == Completed;

      ghost var fetchClock := ClockState();
      var fetch, fetched := WaitForResultPackage(session.results(batch.batchID));
      StaysSynced(fetchClock, session.results(batch.batchID).answer, |fetched|);
      report := report.(stage := Fetching(fetch), calls := report.calls + ResultCalls(batch.batchID, |fetched|),
                       fetched := fetched);
      WithinBudget(session, batch.batchID, report, hadClock, pollInterval, runStartTimeout, runCompletionTimeout);
      if !fetch.Found? {
        GivesUpMissing(fetch, wording);
        return Failure(FailureText(fetch, CodeText(ResultPackageNotFound) + wording.noResult, wording)), report;
      }
      InOrder(session, batch.batchID, report, fetch.value, hadClock, runStartTimeout, runCompletionTimeout);

      var malformed := ValidateResultPackage(fetch.value);
      if malformed.Some? || fetch.value.batchID != batch.batchID {
        return Failure(wording.invalidResult), report;
      }
      return Package(fetch.value), report;
    }
  }

  function FailureText<T>(outcome: Outcome<T>, timedOut: string, wording: Wording): string
    requires !outcome.Found?
  {
    match outcome
    case Failed(message) => message
    case TimedOut => timedOut
    case Cancelled => wording.cancelled
  }

  lemma {:induction false} GivesUpDelayed<T>(outcome: Outcome<T>, rest: string, wording: Wording)
    requires !outcome.Found?
    ensures GaveUp(Failure(FailureText(outcome, CodeText(RunDelayed) + rest, wording)), outcome, "RUN_DELAYED" + rest,
                   wording)
    ensures outcome.TimedOut? ==> IsRunDelayed(FailureText(outcome, CodeText(RunDelayed) + rest, wording))
  {
    RunDelayedText(rest);
    hide IsRunDelayed;
  }

  lemma {:induction false} GivesUpMissing<T>(outcome: Outcome<T>, wording: Wording)
    requires !outcome.Found?
    ensures GaveUp(Failure(FailureText(outcome, CodeText(ResultPackageNotFound) + wording.noResult, wording)), outcome,
                   "RESULT_PACKAGE_NOT_FOUND" + wording.noResult, wording)
  {
  }

  lemma {:induction false} RunDelayedText(rest: string)
    ensures IsRunDelayed(CodeText(RunDelayed) + rest)
  {
    hide CodeText;
    assert OccursAt(CodeText(RunDelayed) + rest, CodeText(RunDelayed), 0);
  }

  lemma {:induction false} ListingFound(session: Session, batchID: string, accepted: int, id: int, deadline: int,
                                        steps: seq<Step<int>>)
    requires CheckedFirst(session.runs, deadline, steps, Found(id))
    requires ListingSteps(session.runs, batchID, FloorSecond(accepted), steps)
    ensures |steps| > 0 && RunFound(session, batchID, accepted, id, |steps| - 1)
  {
    var n := |steps| - 1;
    var answer := session.runs.answer(n);
    assert ListingStep(answer, batchID, FloorSecond(accepted), steps[n]);
    var i: nat :| FirstMatch(answer.content.runs, batchID, FloorSecond(accepted), i) && answer.content.runs[i].id == id;
    assert RunChosen(session, batchID, accepted, id, n, i);
  }

  lemma {:induction false} ProgressFound(script: Script<Progress>, deadline: int, steps: seq<Step<Completed>>)
    requires CheckedFirst(script, deadline, steps, Found(Completed)) && ProgressSteps(script, steps)
    ensures |steps| > 0 && ProgressStep(script.answer(|steps| - 1), Done(Completed))
  {
    assert ProgressStep(script.answer(|steps| - 1), steps[|steps| - 1]);
  }

  lemma {:induction false} DownloadFound(script: Script<Download>, pkg: ResultPackage, deadline: int,
                                         steps: seq<Step<ResultPackage>>)
    requires PolledFirst(script, deadline, steps, Found(pkg)) && DownloadSteps(script, steps)
    ensures |steps| > 0 && DownloadStep(script.answer(|steps| - 1), Done(pkg))
  {
    assert DownloadStep(script.answer(|steps| - 1), steps[|steps| - 1]);
  }

  /** The last listing, the last poll of the run and the last download are those that found something. */
  lemma {:induction false} InOrder(session: Session, batchID: string, report: Report, pkg: ResultPackage, synced: bool,
                                   runStartTimeout: int, runCompletionTimeout: int)
    requires report.stage == Fetching(Found(pkg)) && report.calls == CallsOf(synced, batchID, report)
    requires Traced(session, batchID, report, runStartTimeout, runCompletionTimeout)
    ensures FetchedInOrder(session, batchID, report, pkg)
  {
    hide CheckedFirst, PolledFirst, ListingSteps, ProgressSteps, DownloadSteps, RunFound, ProgressStep, DownloadStep,
         Opening;
    var run, results := session.completion(report.runID), session.results(batchID);
    var searched, watched, fetched := report.searched, report.watched, report.fetched;
    ListingFound(session, batchID, report.acceptedAt, report.runID, session.runs.started + runStartTimeout, searched);
    ProgressFound(run, run.started + runCompletionTimeout, watched);
    DownloadFound(results, pkg, results.started + runCompletionTimeout, fetched);
    var a := |Opening(synced)| + |searched| - 1;
    var b, c := a + |watched|, a + |watched| + |fetched|;
    assert report.calls[a] == ListCalls(|searched|)[|searched| - 1];
    assert report.calls[b] == RunCalls(report.runID, |watched|)[|watched| - 1];
    assert report.calls[c] == ResultCalls(batchID, |fetched|)[|fetched| - 1];
    assert ListedAt(session, batchID, report, a) && SucceededAt(session, report, b);
    assert FetchedAt(session, batchID, report, pkg, c);
  }

  /** Every loop keeps to its share of the budget, and the opening calls to the rest. */
  lemma {:induction false} WithinBudget(session: Session, batchID: string, report: Report, synced: bool, interval: nat,
                                        runStartTimeout: nat, runCompletionTimeout: nat)
    requires interval > 0 && Paced(session.runs, interval)
    requires Paced(session.completion(report.runID), interval) && Paced(session.results(batchID), interval)
    requires Traced(session, batchID, report, runStartTimeout, runCompletionTimeout)
    ensures |CallsOf(synced, batchID, report)| <= CallBudget(runStartTimeout, runCompletionTimeout, interval)
    ensures synced ==>
              |CallsOf(synced, batchID, report)| < CallBudget(runStartTimeout, runCompletionTimeout, interval)
  {
    hide CheckedFirst, PolledFirst, ListingSteps, ProgressSteps, DownloadSteps, Paced, Turns;
    var run, results := session.completion(report.runID), session.results(batchID);
    match report.stage
    case Preparing =>
    case Searching(search) =>
      CheckedFirstBound(session.runs, interval, runStartTimeout, report.searched, search);
    case Running(outcome) =>
      CheckedFirstBound(session.runs, interval, runStartTimeout, report.searched, Found(report.runID));
      CheckedFirstBound(run, interval, runCompletionTimeout, report.watched, outcome);
    case Fetching(outcome) =>
      CheckedFirstBound(session.runs, interval, runStartTimeout, report.searched, Found(report.runID));
      CheckedFirstBound(run, interval, runCompletionTimeout, report.watched, Found(Completed));
      PolledFirstBound(results, interval, runCompletionTimeout, report.fetched, outcome);
  }

  // ----- a batch that takes as long as it may -----

  function SlowRun(batchID: string, at: int): WorkflowRun {
    WorkflowRun(1, batchID, "", Some(at))
  }

  function SlowListing(batchID: string, at: int, waits: nat): nat -> Answer<Listing> {
    (k: nat) => Answered(at, at, None, Runs(if k < waits then [] else [SlowRun(batchID, at)]))
  }

  function SlowProgress(at: int, waits: nat): nat -> Answer<Progress> {
    (k: nat) => Answered(at, at, None, Progress(k >= waits, true))
  }

  function SlowDownload(at: int, waits: nat, pkg: ResultPackage): nat -> Answer<Download> {
    (k: nat) => Answered(at, at, None, if k <= waits then Missing else Downloaded(pkg))
  }

  /** Run, completion and package all come at the last moment; each loop starts when the one before it ended. */
  function SlowSession(batchID: string, pkg: ResultPackage, at: int, interval: nat, runStartTimeout: nat,
                       runCompletionTimeout: nat): Session
    requires interval > 0
  {
    var starts, runs := Turns(runStartTimeout, interval), Turns(runCompletionTimeout, interval);
    var started := at + Ticks(starts, interval);
    var completed := started + Ticks(runs, interval);
    Session(
      Answered(at, at, Some(at), Fine), Answered(at, at, Some(at), Fine), at,
      SlowScript(at, interval, SlowListing(batchID, at, starts)),
      (id: int) => SlowScript(started, interval, SlowProgress(at, runs)),
      (name: string) => SlowScript(completed, interval, SlowDownload(at, runs, pkg)))
  }

  lemma {:induction false} SlowSearch(batchID: string, at: int, interval: nat, timeout: nat, steps: seq<Step<int>>,
                                      outcome: Outcome<int>)
    requires interval > 0
    requires var script := SlowScript(at, interval, SlowListing(batchID, at, Turns(timeout, interval)));
             CheckedFirst(script, at + timeout, steps, outcome)
             && ListingSteps(script, batchID, FloorSecond(at), steps)
    ensures outcome == Found(1) && |steps| == Turns(timeout, interval) + 1
  {
    var waits := Turns(timeout, interval);
    var script := SlowScript(at, interval, SlowListing(batchID, at, waits));
    SlowClock(at, interval, timeout, SlowListing(batchID, at, waits));
    assert Matches(SlowRun(batchID, at), batchID, FloorSecond(at)) by {
      assert OccursAt(batchID, batchID, 0);
    }
    forall j: nat | j < |steps| ensures if j < waits then steps[j].Wait? else steps[j] == Done(1) {
      assert ListingStep(script.answer(j), batchID, FloorSecond(at), steps[j]);
      if j >= waits {
        assert script.answer(j).content.runs[0] == SlowRun(batchID, at);
      }
    }
    hide ListingStep, SlowListing, FloorSecond, CheckedFirst, ListingSteps;
    CheckedWaits(script, at + timeout, steps, outcome, waits, 1);
  }

  lemma {:induction false} SlowClock<T>(started: int, interval: nat, timeout: nat, answer: nat -> Answer<T>)
    requires interval > 0
    ensures var script := SlowScript(started, interval, answer);
            forall k: nat :: !script.cancelled(k)
                             && (k <= Turns(timeout, interval) ==> script.clock(k) <= started + timeout)
  {
    hide Ticks, Turns;
    forall k: nat ensures Ticks(k, interval) <= timeout <==> k <= Turns(timeout, interval) {
      TicksWithin(k, interval, timeout);
    }
  }

  lemma {:induction false} SlowWatch(started: int, at: int, interval: nat, timeout: nat, steps: seq<Step<Completed>>,
                                     outcome: Outcome<Completed>)
    requires interval > 0
    requires var script := SlowScript(started, interval, SlowProgress(at, Turns(timeout, interval)));
             CheckedFirst(script, started + timeout, steps, outcome) && ProgressSteps(script, steps)
    ensures outcome == Found(Completed) && |steps| == Turns(timeout, interval) + 1
  {
    var waits := Turns(timeout, interval);
    var script := SlowScript(started, interval, SlowProgress(at, waits));
    SlowClock(started, interval, timeout, SlowProgress(at, waits));
    forall j: nat | j < |steps| ensures if j < waits then steps[j].Wait? else steps[j] == Done(Completed) {
      assert ProgressStep(script.answer(j), steps[j]);
      if j >= waits {
        assert steps[j].value == Completed;
      }
    }
    hide SlowProgress, CheckedFirst, ProgressSteps;
    CheckedWaits(script, started + timeout, steps, outcome, waits, Completed);
  }

  lemma {:induction false} SlowFetch(started: int, at: int, interval: nat, timeout: nat, pkg: ResultPackage,
                                     steps: seq<Step<ResultPackage>>, outcome: Outcome<ResultPackage>)
    requires interval > 0
    requires var script := SlowScript(started, interval, SlowDownload(at, Turns(timeout, interval), pkg));
             PolledFirst(script, started + timeout, steps, outcome) && DownloadSteps(script, steps)
    ensures outcome == Found(pkg) && |steps| == Turns(timeout, interval) + 2
  {
    var waits := Turns(timeout, interval) + 1;
    var script := SlowScript(started, interval, SlowDownload(at, waits - 1, pkg));
    SlowClock(started, interval, timeout, SlowDownload(at, waits - 1, pkg));
    forall j: nat | j < |steps| ensures if j < waits then steps[j].Wait? else steps[j] == Done(pkg) {
      assert DownloadStep(script.answer(j), steps[j]);
    }
    hide SlowDownload, PolledFirst, DownloadSteps;
    PolledWaits(script, started + timeout, steps, outcome, waits, pkg);
  }

  lemma {:induction false} SlowTrace(session: Session, batchID: string, report: Report, reply: Reply,
                                     pkg: ResultPackage, wording: Wording, at: int, interval: nat,
                                     runStartTimeout: nat, runCompletionTimeout: nat)
    requires interval > 0 && PackageOK(pkg) && pkg.batchID == batchID
    requires session == SlowSession(batchID, pkg, at, interval, runStartTimeout, runCompletionTimeout)
    requires !report.stage.Preparing? && report.acceptedAt == at
    requires Traced(session, batchID, report, runStartTimeout, runCompletionTimeout)
    requires Replied(reply, report.stage, batchID, wording) && report.calls == CallsOf(false, batchID, report)
    ensures reply == Package(pkg)
    ensures |report.calls| == CallBudget(runStartTimeout, runCompletionTimeout, interval)
  {
    hide CheckedFirst, PolledFirst, ListingSteps, ProgressSteps, DownloadSteps, SlowListing, SlowProgress,
         SlowDownload, PackageOK, Turns, Ticks;
    var search := if report.stage.Searching? then report.stage.search else Found(report.runID);
    SlowSearch(batchID, at, interval, runStartTimeout, report.searched, search);
    var started := at + Ticks(Turns(runStartTimeout, interval), interval);
    var run := if report.stage.Running? then report.stage.run else Found(Completed);
    SlowWatch(started, at, interval, runCompletionTimeout, report.watched, run);
    var completed := started + Ticks(Turns(runCompletionTimeout, interval), interval);
    SlowFetch(completed, at, interval, runCompletionTimeout, pkg, report.fetched, report.stage.fetch);
  }

  /** The budget is tight: whatever the settings, a batch can cost all of it and end well. */
  method SlowBatch(batch: RequestBatch, pkg: ResultPackage, validTime: string -> bool, wording: Wording, at: int,
                   interval: nat, runStartTimeout: nat, runCompletionTimeout: nat)
    returns (reply: Reply, ghost report: Report)
    requires interval > 0 && BatchOK(batch, validTime) && PackageOK(pkg) && pkg.batchID == batch.batchID
    ensures reply == Package(pkg)
    ensures |report.calls| == CallBudget(runStartTimeout, runCompletionTimeout, interval)
  {
    hide BatchOK, PackageOK, Paced, CallBudget, Traced, Replied, CallsOf, SlowListing, SlowProgress, SlowDownload,
         FetchedInOrder, IsRunDelayed, SlowScript, Turns, Ticks;
    var session := SlowSession(batch.batchID, pkg, at, interval, runStartTimeout, runCompletionTimeout);
    SlowSessionPaced(batch.batchID, pkg, at, interval, runStartTimeout, runCompletionTimeout);
    var dispatcher := new Dispatcher(interval, runStartTimeout, runCompletionTimeout);
    reply, report := dispatcher.ProcessBatch(batch, validTime, session, wording);
    SlowTrace(session, batch.batchID, report, reply, pkg, wording, at, interval, runStartTimeout, runCompletionTimeout);
  }

  lemma {:induction false} SlowSessionPaced(batchID: string, pkg: ResultPackage, at: int, interval: nat,
                                            runStartTimeout: nat, runCompletionTimeout: nat)
    requires interval > 0
    ensures var session := SlowSession(batchID, pkg, at, interval, runStartTimeout, runCompletionTimeout);
            && Paced(session.runs, interval)
            && (forall id :: Paced(session.completion(id), interval))
            && forall name :: Paced(session.results(name), interval)
  {
    hide Ticks, Turns, Paced, SlowListing, SlowProgress, SlowDownload, SlowScript;
    var starts, runs := Turns(runStartTimeout, interval), Turns(runCompletionTimeout, interval);
    var started := at + Ticks(starts, interval);
    SlowPaced(at, interval, SlowListing(batchID, at, starts));
    SlowPaced(started, interval, SlowProgress(at, runs));
    SlowPaced(started + Ticks(runs, interval), interval, SlowDownload(at, runs, pkg));
  }
}
