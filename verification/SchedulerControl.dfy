/** What each thread of the scheduler decides, when it can go on, and what an uninterrupted call does. */
module SchedulerControl {
  import opened Wrappers
  import opened Scheduler
  import opened SchedulerTheorems
  import opened SchedulerThreads
  import opened SchedulerShutdown

  // ---------------------------------------------------------------- decisions

  /** Only its own steps move a worker. */
  lemma OthersLeaveItAlone(s: State, t: Tid, a: Action)
    requires Step(s, a).Some? && t in s.agents && s.agents[t].Worker? && !(a.Serving? && a.t == t)
    ensures var s' := Step(s, a).value;
      t in s'.agents && s'.agents[t].Worker? && s'.agents[t].level == s.agents[t].level && s'.agents[t].pc == s.agents[t].pc
  {
    match a
    case Calling(u, c) => CallFrame(s, u, c);
    case Serving(u, w) => WorkerFrame(s, u, w);
    case Closing(c) =>
    case Arrive(u) =>
  }

  /** What moves a worker from place to place in its own step. */
  lemma OwnStep(s: State, t: Tid, w: WorkerAction)
    requires StepWorker(s, t, w).Some?
    ensures var s' := StepWorker(s, t, w).value;
      && t in s.agents && s.agents[t].Worker? && s.agents[t].level < |s.levels|
      && t in s'.agents && s'.agents[t].Worker? && s'.agents[t].level == s.agents[t].level
      && Moves(s, s.agents[t].level, s.agents[t].pc, s'.agents[t].pc)
  {
  }

  /** A worker leaves its loop over the queue only when it has found the queue empty; it leaves its wait only for a
      queued task or for the cancel flag; it returns only for the flag, and looks at it after each round. */
  predicate Moves(s: State, l: nat, pc: WorkerPc, pc': WorkerPc)
    requires l < |s.levels|
  {
    && (pc'.Unmarking? && !pc.Unmarking? ==> s.levels[l].tasks == [])
    && (Busy(pc) && !Busy(pc') ==> pc.Unmarking? && pc'.Top?)
    && (pc.Waiting? && !pc'.Waiting? ==> s.levels[l].tasks != [] || s.cancel)
    && (pc'.Gone? && !pc.Gone? ==> s.cancel)
  }

  lemma WorkersMoveForAReason(s: State, t: Tid, a: Action)
    requires LevelDiscipline(s) && Step(s, a).Some? && t in s.agents && s.agents[t].Worker?
    ensures var s' := Step(s, a).value;
      && s.agents[t].level < |s.levels| && t in s'.agents && s'.agents[t].Worker?
      && Moves(s, s.agents[t].level, s.agents[t].pc, s'.agents[t].pc)
  {
    assert AgentOk(s, t);
    if a.Serving? && a.t == t {
      OwnStep(s, t, a.work);
    } else {
      OthersLeaveItAlone(s, t, a);
    }
  }

  lemma CancelStays(s: State, a: Action)
    requires Step(s, a).Some? && s.cancel
    ensures Step(s, a).value.cancel
  {
    match a
    case Calling(u, c) => CallKeepsCloser(s, u, c);
    case Serving(u, w) => WorkerKeepsCloser(s, u, w);
    case Closing(c) =>
    case Arrive(u) =>
  }

  /** No worker has returned while the cancel flag is not set, in any run. */
  lemma {:induction false} GoneMeansCancelled(request: nat, actions: seq<Action>, t: Tid)
    requires Run(request, actions).Some?
    ensures var s := Run(request, actions).value;
      t in s.agents && s.agents[t].Worker? && s.agents[t].pc.Gone? ==> s.cancel
  {
    if actions != [] {
      var front, a := actions[..|actions| - 1], actions[|actions| - 1];
      var s := Run(request, front).value;
      GoneMeansCancelled(request, front, t);
      EveryRunIsSafe(request, front);
      if s.cancel {
        CancelStays(s, a);
      } else if t in s.agents && s.agents[t].Worker? {
        WorkersMoveForAReason(s, t, a);
      } else {
        NewWorkersAreFresh(s, t, a);
      }
    }
  }

  lemma NewWorkersAreFresh(s: State, t: Tid, a: Action)
    requires Step(s, a).Some? && !(t in s.agents && s.agents[t].Worker?)
    ensures var s' := Step(s, a).value;
      t in s'.agents && s'.agents[t].Worker? ==> s'.agents[t].pc.Fresh?
  {
    match a
    case Calling(u, c) => CallFrame(s, u, c);
    case Serving(u, w) => WorkerFrame(s, u, w);
    case Closing(c) =>
    case Arrive(u) =>
  }

  /** The search finds a free worker exactly when it looks at a registered worker of the level that is not at work. */
  lemma FindsFreeExactly(s: State, t: Tid, w: Tid)
    requires Bookkeeping(s) && t in s.agents && s.agents[t].call.InCall? && s.agents[t].call.at.Scan?
    requires s.agents[t].call.level < |s.levels|
    ensures StepCall(s, t, FindFree(w)).Some? <==>
      && w in s.levelOf && w in s.agents && s.agents[w].Worker?
      && s.agents[w].level == s.agents[t].call.level && !Busy(s.agents[w].pc)
  {
    assert Booked(s, w);
  }

  /** Why a call adds a thread or not: with its task pushed, it gives up exactly when the level is full, when at most
      one task is queued, or when it sees a free worker; and under the lock exactly when the level is full by then. */
  lemma AddsThreadsForAReason(s: State, t: Tid, c: CallAction)
    requires StepCall(s, t, c).Some? && t in s.agents && s.agents[t].call.InCall? && s.agents[t].call.level < |s.levels|
    ensures var s', call := StepCall(s, t, c).value, s.agents[t].call;
      var v := s.levels[call.level];
      t in s'.agents &&
      match call.at
      case SizeCheck => CallIs(s', t, call, if |v.threads| >= v.limit then Notify else BacklogCheck)
      case BacklogCheck => CallIs(s', t, call, if |v.tasks| <= 1 then Notify else Scan)
      case Scan => CallIs(s', t, call, if c.FindFree? then Notify else Lock)
      case Lock => CallIs(s', t, call, Recheck)
      case Recheck => CallIs(s', t, call, if |v.threads| >= v.limit then Unlock else Make)
      case Make => c.MakeThread? && CallIs(s', t, call, Enqueue(c.made)) && c.made in s'.agents && s'.agents[c.made] == Worker(call.level, Fresh, NoCall)
      case Enqueue(w) => CallIs(s', t, call, Unlock) && |s'.levels| == |s.levels| && s'.levels[call.level].threads == v.threads + [w]
      case Unlock => CallIs(s', t, call, Notify)
      case Notify => s'.agents[t].call.NoCall?
      case _ => true
  {
  }

  predicate CallIs(s: State, t: Tid, call: Call, at: CallPc)
    requires call.InCall?
  {
    t in s.agents && s.agents[t].call == call.(at := at)
  }

  /** A call is accepted exactly from a thread from outside or from a task above the lowest level, before the
      scheduler is closed. */
  lemma BeginsExactly(s: State, t: Tid)
    requires Bookkeeping(s) && t in s.agents && s.agents[t].call.NoCall?
    ensures StepCall(s, t, Begin).Some? <==>
      !s.closed && (s.agents[t].Worker? ==> s.agents[t].pc.Running? && s.agents[t].level + 1 < LEVELS)
  {
    assert Booked(s, t);
  }

  // ---------------------------------------------------------------- limits

  /** The limits of the levels are those of the request, each level has a thread, and nothing is joined before
      `close` is called. */
  ghost predicate WithinLimits(request: nat, s: State, l: nat) {
    && |s.levels| == LEVELS
    && (l < LEVELS ==>
          && s.levels[l].limit == ThreadLimit(request) && s.levels[l].made != []
          && (s.closer.Open? ==> s.levels[l].joined == []))
  }

  lemma CallKeepsLimits(request: nat, s: State, t: Tid, c: CallAction, l: nat)
    requires WithinLimits(request, s, l) && StepCall(s, t, c).Some?
    ensures WithinLimits(request, StepCall(s, t, c).value, l)
  {
    CallKeepsCloser(s, t, c);
  }

  lemma StepKeepsLimits(request: nat, s: State, a: Action, l: nat)
    requires WithinLimits(request, s, l) && Step(s, a).Some?
    ensures WithinLimits(request, Step(s, a).value, l)
  {
    match a
    case Calling(t, c) => CallKeepsLimits(request, s, t, c, l);
    case Serving(t, w) =>
      WorkerSameThreads(s, t, w);
      WorkerKeepsCloser(s, t, w);
    case Closing(c) =>
    case Arrive(t) =>
  }

  lemma {:induction false} RunKeepsLimits(request: nat, actions: seq<Action>, l: nat)
    requires Run(request, actions).Some?
    ensures WithinLimits(request, Run(request, actions).value, l)
  {
    if actions != [] {
      RunKeepsLimits(request, actions[..|actions| - 1], l);
      StepKeepsLimits(request, Run(request, actions[..|actions| - 1]).value, actions[|actions| - 1], l);
    }
  }

  /** In every interleaving before `close` is called, each level has made at least one thread and at most its share
      of the clamped request, rounded up: at most 32, and together at most one more than the request. */
  lemma ThreadsWithinRequest(request: nat, actions: seq<Action>)
    requires Run(request, actions).Some? && Run(request, actions).value.closer.Open?
    ensures var s := Run(request, actions).value;
      && |s.levels| == LEVELS
      && (forall l :: 0 <= l < LEVELS ==> 1 <= |s.levels[l].made| <= ThreadLimit(request))
      && LEVELS <= |s.levels[0].made| + |s.levels[1].made| <= Clamp(request) + 1
  {
    var s := Run(request, actions).value;
    EveryRunIsSafe(request, actions);
    forall l: nat | l < LEVELS ensures 1 <= |s.levels[l].made| <= ThreadLimit(request) {
      RunKeepsLimits(request, actions, l);
      assert ThreadsOk(s, l);
    }
  }

  // ---------------------------------------------------------------- going on

  /** The next step of a call at each place; `w` is the id for a new thread, if it comes to that. */
  function NextCall(at: CallPc, w: Tid): CallAction {
    match at
    case CancelCheck => TestCancel
    case AtPush => PushTask
    case SizeCheck => TestSize
    case BacklogCheck => TestBacklog
    case Scan => FindNone
    case Lock => TakeLock
    case Recheck => TestSizeAgain
    case Make => MakeThread(w)
    case Enqueue(_) => EnqueueThread
    case Unlock => DropLock
    case Notify => NotifyOne
  }

  /** A call is never stuck, except before a lock that another call holds. */
  lemma CallsGoOn(s: State, t: Tid, w: Tid)
    requires LevelDiscipline(s) && t in s.agents && s.agents[t].call.InCall? && w !in s.agents
    ensures s.agents[t].call.level < |s.levels|
    ensures var c := s.agents[t].call;
      StepCall(s, t, NextCall(c.at, w)).Some? <==> !(c.at.Lock? && s.levels[c.level].lock.Some?)
  {
    CallDepth(s, t);
  }

  function NextWork(pc: WorkerPc): WorkerAction {
    match pc
    case Fresh => RegisterState
    case Registering => RegisterLevel
    case Top => TestStop
    case Waiting => Wake
    case Marking => MarkWorking
    case Popping => PopTask
    case Running(_) => FinishTask
    case Unmarking => MarkFree
    case Gone => TestStop
  }

  /** A worker that has not returned is never stuck, except in its wait without a reason to leave it, and in a task
      that is itself in a call. */
  lemma WorkersGoOn(s: State, t: Tid)
    requires LevelDiscipline(s) && t in s.agents && s.agents[t].Worker?
    ensures s.agents[t].level < |s.levels|
    ensures var w := s.agents[t];
      StepWorker(s, t, NextWork(w.pc)).Some? <==>
        !w.pc.Gone? && !(w.pc.Waiting? && s.levels[w.level].tasks == [] && !s.cancel) && !(w.pc.Running? && w.call.InCall?)
  {
    assert AgentOk(s, t);
  }

  /** The closing thread is never stuck, except in a join with a worker that has not returned. */
  lemma CloserGoesOn(s: State)
    requires |s.levels| == LEVELS && CloserOk(s)
    ensures (exists a :: StepCloser(s, a).Some?) <==>
      !s.closer.Closed? && !(s.closer.Joining? && !(s.closer.thread in s.agents && s.agents[s.closer.thread].Worker? && s.agents[s.closer.thread].pc.Gone?))
  {
    match s.closer
    case Open => assert StepCloser(s, SetCancel).Some?;
    case Draining(l) => assert StepCloser(s, if s.levels[l].threads != [] then PopThread else NextLevel).Some?;
    case Joining(_, _) => assert StepCloser(s, JoinThread).Some? || forall a :: StepCloser(s, a).None?;
    case Closed =>
  }
}
