/** `LimitedScheduler` as a state machine: every shared read or write of its workers, of the threads
    that call `schedule`, and of the thread that calls `close` is one step. */
module Scheduler {
  import opened Wrappers

  const LEVELS := 2
  const MIN_THREADS := 2 * LEVELS
  const MAX_THREADS := 64

  type Tid = nat

  /** A scheduled task and the task, if any, during which it was scheduled. */
  datatype Task = Task(id: nat, parent: Option<Task>)

  function Depth(t: Task): nat {
    match t.parent
    case None => 0
    case Some(p) => 1 + Depth(p)
  }

  datatype Mark = Free | Working

  /** Where a worker is in its thread function. */
  datatype WorkerPc =
    | Fresh                  // not yet in the state map
    | Registering            // in the state map, not yet in the level map
    | Top                    // about to test the cancel flag
    | Waiting                // in the condition variable's wait
    | Marking                // about to mark itself working
    | Popping                // about to try to pop a task
    | Running(task: Task)
    | Unmarking              // about to mark itself free
    | Gone

  /** Where a thread is in `schedule`, after the closed test and the level lookup. */
  datatype CallPc =
    | CancelCheck | AtPush | SizeCheck | BacklogCheck | Scan
    | Lock | Recheck | Make | Enqueue(made: Tid) | Unlock
    | Notify

  datatype Call = NoCall | InCall(level: nat, task: Task, at: CallPc)

  datatype Agent = External(call: Call) | Worker(level: nat, pc: WorkerPc, call: Call)

  /** One level: its task queue, thread queue, creation lock and limit, and what has passed through
      them so far: tasks pushed and taken, threads made and joined. */
  datatype Level = Level(
    tasks: seq<Task>, threads: seq<Tid>, lock: Option<Tid>, limit: nat,
    pushed: seq<Task>, taken: seq<Task>, made: seq<Tid>, joined: seq<Tid>)

  datatype Closer = Open | Draining(level: nat) | Joining(level: nat, thread: Tid) | Closed

  datatype State = State(
    levels: seq<Level>, agents: map<Tid, Agent>,
    levelOf: map<Tid, nat>, markOf: map<Tid, Mark>,
    cancel: bool, closed: bool, closer: Closer, nextTask: nat)

  datatype CallAction =
    | Begin | TestCancel | PushTask | TestSize | TestBacklog
    | FindFree(worker: Tid) | FindNone | TakeLock | TestSizeAgain | MakeThread(made: Tid) | EnqueueThread | DropLock
    | NotifyOne

  datatype WorkerAction =
    | RegisterState | RegisterLevel | TestStop | Wake | MarkWorking | PopTask | FinishTask | MarkFree

  datatype CloserAction = SetCancel | PopThread | JoinThread | NextLevel

  datatype Action =
    | Arrive(t: Tid)                               // a thread from outside appears
    | Calling(t: Tid, call: CallAction)
    | Serving(t: Tid, work: WorkerAction)
    | Closing(close: CloserAction)

  // ---------------------------------------------------------------- limits

  function Clamp(request: nat): (clamped: nat)
    ensures MIN_THREADS <= clamped <= MAX_THREADS
    ensures MIN_THREADS <= request <= MAX_THREADS ==> clamped == request
    ensures request < MIN_THREADS ==> clamped == MIN_THREADS
    ensures request > MAX_THREADS ==> clamped == MAX_THREADS
  {
    if request < MIN_THREADS then MIN_THREADS else if request > MAX_THREADS then MAX_THREADS else request
  }

  /** The thread limit of each level: the clamped request divided among the levels, rounded up. */
  function ThreadLimit(request: nat): (limit: nat)
    ensures 2 <= limit <= 32
    ensures LEVELS * limit <= MAX_THREADS
    ensures Clamp(request) <= LEVELS * limit <= Clamp(request) + 1
  {
    (Clamp(request) + LEVELS - 1) / LEVELS
  }

  /** After the constructor: one worker thread per level, created and queued. */
  function Initial(request: nat): State {
    State(
      [Level([], [0], None, ThreadLimit(request), [], [], [0], []),
       Level([], [1], None, ThreadLimit(request), [], [], [1], [])],
      map[0 := Worker(0, Fresh, NoCall), 1 := Worker(1, Fresh, NoCall)],
      map[], map[], false, false, Open, 0)
  }

  // ---------------------------------------------------------------- steps

  function At(s: State, t: Tid, c: Call): State
    requires t in s.agents
  {
    s.(agents := s.agents[t := s.agents[t].(call := c)])
  }

  function Moved(s: State, t: Tid, pc: WorkerPc): State
    requires t in s.agents && s.agents[t].Worker?
  {
    s.(agents := s.agents[t := s.agents[t].(pc := pc)])
  }

  function WithLevel(s: State, l: nat, level: Level): State
    requires l < |s.levels|
  {
    s.(levels := s.levels[l := level])
  }

  predicate MayCall(s: State, t: Tid) {
    t in s.agents && s.agents[t].call.NoCall? && (s.agents[t].Worker? ==> s.agents[t].pc.Running?)
  }

  /** The level a call gets: one below the caller's, or the first for a thread not in the level map. */
  function LevelFor(s: State, t: Tid): nat {
    if t in s.levelOf then s.levelOf[t] + 1 else 0
  }

  function NewTask(s: State, t: Tid): Task
    requires MayCall(s, t)
  {
    Task(s.nextTask, if s.agents[t].Worker? then Some(s.agents[t].pc.task) else None)
  }

  function StepCall(s: State, t: Tid, a: CallAction): Option<State> {
    if a.Begin? then
      if MayCall(s, t) && !s.closed && LevelFor(s, t) < LEVELS
      then Some(At(s, t, InCall(LevelFor(s, t), NewTask(s, t), CancelCheck)).(nextTask := s.nextTask + 1))
      else None
    else if t !in s.agents || s.agents[t].call.NoCall? || s.agents[t].call.level >= |s.levels| then None
    else
      var c := s.agents[t].call;
      var v := s.levels[c.level];
      match (a, c.at)
      case (TestCancel, CancelCheck) =>
        if s.cancel && c.level == 0 then Some(At(s, t, NoCall)) else Some(At(s, t, c.(at := AtPush)))
      case (PushTask, AtPush) =>
        Some(WithLevel(At(s, t, c.(at := SizeCheck)), c.level, v.(tasks := v.tasks + [c.task], pushed := v.pushed + [c.task])))
      case (TestSize, SizeCheck) =>
        Some(At(s, t, c.(at := if |v.threads| >= v.limit then Notify else BacklogCheck)))
      case (TestBacklog, BacklogCheck) =>
        Some(At(s, t, c.(at := if |v.tasks| <= 1 then Notify else Scan)))
      case (FindFree(w), Scan) =>
        if w in s.levelOf && s.levelOf[w] == c.level && w in s.markOf && s.markOf[w] == Free
        then Some(At(s, t, c.(at := Notify))) else None
      case (FindNone, Scan) =>
        // The scan is not atomic: it may miss a worker that is free by now.
        Some(At(s, t, c.(at := Lock)))
      case (TakeLock, Lock) =>
        if v.lock.None? then Some(WithLevel(At(s, t, c.(at := Recheck)), c.level, v.(lock := Some(t)))) else None
      case (TestSizeAgain, Recheck) =>
        Some(At(s, t, c.(at := if |v.threads| >= v.limit then Unlock else Make)))
      case (MakeThread(w), Make) =>
        if w in s.agents then None
        else
          var s' := WithLevel(At(s, t, c.(at := Enqueue(w))), c.level, v.(made := v.made + [w]));
          Some(s'.(agents := s'.agents[w := Worker(c.level, Fresh, NoCall)]))
      case (EnqueueThread, Enqueue(w)) =>
        Some(WithLevel(At(s, t, c.(at := Unlock)), c.level, v.(threads := v.threads + [w])))
      case (DropLock, Unlock) =>
        Some(WithLevel(At(s, t, c.(at := Notify)), c.level, v.(lock := None)))
      case (NotifyOne, Notify) => Some(At(s, t, NoCall))
      case _ => None
  }

  function StepWorker(s: State, t: Tid, a: WorkerAction): Option<State> {
    if t !in s.agents || !s.agents[t].Worker? || s.agents[t].level >= |s.levels| then None
    else
      var w := s.agents[t];
      var v := s.levels[w.level];
      match (a, w.pc)
      case (RegisterState, Fresh) => Some(Moved(s, t, Registering).(markOf := s.markOf[t := Free]))
      case (RegisterLevel, Registering) => Some(Moved(s, t, Top).(levelOf := s.levelOf[t := w.level]))
      case (TestStop, Top) => Some(Moved(s, t, if s.cancel then Gone else Waiting))
      case (Wake, Waiting) => if v.tasks != [] || s.cancel then Some(Moved(s, t, Marking)) else None
      case (MarkWorking, Marking) => Some(Moved(s, t, Popping).(markOf := s.markOf[t := Working]))
      case (PopTask, Popping) =>
        if v.tasks == [] then Some(Moved(s, t, Unmarking))
        else Some(WithLevel(Moved(s, t, Running(v.tasks[0])), w.level,
                            v.(tasks := v.tasks[1..], taken := v.taken + [v.tasks[0]])))
      case (FinishTask, Running(_)) => if w.call.NoCall? then Some(Moved(s, t, Popping)) else None
      case (MarkFree, Unmarking) => Some(Moved(s, t, Top).(markOf := s.markOf[t := Free]))
      case _ => None
  }

  function StepCloser(s: State, a: CloserAction): Option<State> {
    match (a, s.closer)
    case (SetCancel, Open) => Some(s.(cancel := true, closer := Draining(0)))
    case (PopThread, Draining(l)) =>
      if l < |s.levels| && s.levels[l].threads != [] then
        var v := s.levels[l];
        Some(WithLevel(s, l, v.(threads := v.threads[1..], joined := v.joined + [v.threads[0]]))
             .(closer := Joining(l, v.threads[0])))
      else None
    case (JoinThread, Joining(l, t)) =>
      if t in s.agents && s.agents[t].Worker? && s.agents[t].pc.Gone? then Some(s.(closer := Draining(l))) else None
    case (NextLevel, Draining(l)) =>
      if l < |s.levels| && s.levels[l].threads == []
      then Some(if l + 1 < LEVELS then s.(closer := Draining(l + 1)) else s.(closer := Closed, closed := true))
      else None
    case _ => None
  }

  function Step(s: State, a: Action): Option<State> {
    match a
    case Arrive(t) => if t in s.agents then None else Some(s.(agents := s.agents[t := External(NoCall)]))
    case Calling(t, call) => StepCall(s, t, call)
    case Serving(t, work) => StepWorker(s, t, work)
    case Closing(close) => StepCloser(s, close)
  }

  function Run(request: nat, actions: seq<Action>): Option<State> {
    if actions == [] then Some(Initial(request))
    else
      match Run(request, actions[..|actions| - 1])
      case None => None
      case Some(s) => Step(s, actions[|actions| - 1])
  }
}
