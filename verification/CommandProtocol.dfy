/**
 The serial command worker of a session as a transition system. Submitters, waiters,
 shutdown callers and the worker thread interleave freely; each section under the
 worker's lock, each queue operation and each event operation is one step.
 */
module CommandProtocol {
  import opened Common

  type RequestId = string

  /** An event is named by the position of the job it was made for. */
  type EventId = nat

  datatype Job = Job(name: string, requestId: Option<RequestId>)

  datatype Item = Execute(job: Job) | ShutdownMark

  datatype Outcome = Done | Raised(error: string)

  datatype Ack = Ack(requestId: string, ok: bool, error: Option<string>)

  function AckOf(job: Job, outcome: Outcome): Ack {
    var id := match job.requestId case None => "" case Some(r) => r;
    match outcome
    case Done => Ack(id, true, None)
    case Raised(error) => Ack(id, false, Some(if error == "" then job.name + " failed" else error))
  }

  // ---------------------------------------------------------------- shared fields

  /** The queue and the fields guarded by the lock. */
  datatype Shared = Shared(
    queue: seq<Item>,
    results: map<RequestId, Ack>,
    events: map<RequestId, EventId>,
    closed: bool,
    threadStarted: bool)

  const INITIAL_SHARED := Shared([], map[], map[], false, false)

  /** `submit`, once the closed check has passed; `event` is new. */
  function Accept(sh: Shared, job: Job, event: EventId): Shared {
    sh.(queue := sh.queue + [Execute(job)],
        events := if job.requestId.Some? then sh.events[job.requestId.value := event] else sh.events,
        threadStarted := true)
  }

  /** The locked part of `shutdown`. */
  function Close(sh: Shared): Shared {
    sh.(queue := if sh.threadStarted && !sh.closed then sh.queue + [ShutdownMark] else sh.queue, closed := true)
  }

  /** The last locked part of `wait`; it raises when `id` has no result. */
  function Collect(sh: Shared, id: RequestId): Shared {
    sh.(events := sh.events - {id}, results := sh.results - {id})
  }

  // ------------------------------------------------------------------ whole system

  datatype Worker =
    | Idle
    | Running(job: Job)
    | Returned(job: Job, ack: Ack)       // the function has ended, its result is not stored
    | Stored(event: Option<EventId>)     // stored, the event found is not set yet
    | Exited

  datatype Waiter = Waiter(id: RequestId, event: EventId)

  /** A shutdown caller; `hadThread` is what it read under the lock. */
  datatype Caller = Joining(hadThread: bool) | Drained | TimedOut

  datatype System = System(
    sh: Shared,
    worker: Worker,
    fired: set<EventId>,
    waiters: map<nat, Waiter>,
    callers: map<nat, Caller>,
    accepted: seq<Job>,        // every job `submit` took, in order
    outcomes: seq<Outcome>,    // of the jobs whose functions ended, in order
    served: set<EventId>)      // jobs whose acknowledgement some wait has collected

  const INITIAL := System(INITIAL_SHARED, Idle, {}, map[], map[], [], [], {})

  datatype Step =
    | Submit(job: Job)
    | WaitBegin(w: nat, id: RequestId)
    | WaitTimeout(w: nat)
    | WaitEnd(w: nat)
    | ShutdownCall(c: nat)
    | JoinReturns(c: nat)
    | JoinTimesOut(c: nat)
    | Take
    | FunctionEnds(outcome: Outcome)
    | Store
    | Signal

  /** The thread a shutdown caller joined has ended, or there was none. */
  predicate CanJoin(s: System, c: nat) {
    c in s.callers && s.callers[c].Joining? && (!s.callers[c].hadThread || s.worker.Exited?)
  }

  predicate Enabled(s: System, step: Step) {
    match step
    case Submit(_) => true
    case WaitBegin(w, id) => w !in s.waiters
    case WaitTimeout(w) => w in s.waiters && s.waiters[w].event !in s.fired
    case WaitEnd(w) => w in s.waiters && s.waiters[w].event in s.fired
    case ShutdownCall(c) => c !in s.callers
    case JoinReturns(c) => CanJoin(s, c)
    case JoinTimesOut(c) => c in s.callers && s.callers[c].Joining? && !CanJoin(s, c)
    case Take => s.sh.threadStarted && s.worker.Idle? && s.sh.queue != []
    case FunctionEnds(_) => s.worker.Running?
    case Store => s.worker.Returned?
    case Signal => s.worker.Stored?
  }

  function TakeNext(s: System): System
    requires s.sh.queue != []
  {
    s.(sh := s.sh.(queue := s.sh.queue[1..]),
       worker := match s.sh.queue[0] case Execute(job) => Running(job) case ShutdownMark => Exited)
  }

  function StoreResult(s: System): System
    requires s.worker.Returned?
  {
    match s.worker.job.requestId
    case None => s.(worker := Idle)
    case Some(id) =>
      s.(sh := s.sh.(results := s.sh.results[id := s.worker.ack]),
         worker := Stored(if id in s.sh.events then Some(s.sh.events[id]) else None))
  }

  function Next(s: System, step: Step): System
    requires Enabled(s, step)
  {
    match step
    case Submit(job) =>
      if s.sh.closed then s
      else s.(sh := Accept(s.sh, job, |s.accepted|), accepted := s.accepted + [job])
    case WaitBegin(w, id) =>
      if id in s.sh.events then s.(waiters := s.waiters[w := Waiter(id, s.sh.events[id])]) else s
    case WaitTimeout(w) => s.(waiters := s.waiters - {w})
    case WaitEnd(w) =>
      var id := s.waiters[w].id;
      s.(sh := Collect(s.sh, id), waiters := s.waiters - {w}, served := s.served + {s.waiters[w].event})
    case ShutdownCall(c) =>
      s.(sh := Close(s.sh), callers := s.callers[c := Joining(s.sh.threadStarted)])
    case JoinReturns(c) => s.(callers := s.callers[c := Drained])
    case JoinTimesOut(c) => s.(callers := s.callers[c := TimedOut])
    case Take => TakeNext(s)
    case FunctionEnds(outcome) =>
      s.(worker := Returned(s.worker.job, AckOf(s.worker.job, outcome)), outcomes := s.outcomes + [outcome])
    case Store => StoreResult(s)
    case Signal =>
      s.(worker := Idle, fired := if s.worker.event.Some? then s.fired + {s.worker.event.value} else s.fired)
  }

  /** Successive states of the system, from any state. */
  ghost predicate Path(states: seq<System>, steps: seq<Step>) {
    && |states| == |steps| + 1
    && forall i {:trigger steps[i]} :: 0 <= i < |steps| ==> Enabled(states[i], steps[i]) && states[i + 1] == Next(states[i], steps[i])
  }

  ghost predicate Run(states: seq<System>, steps: seq<Step>) {
    Path(states, steps) && states[0] == INITIAL
  }
}
