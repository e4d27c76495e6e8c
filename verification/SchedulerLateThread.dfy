/** Closing while calls from outside are in progress: which of them can make a task start after `close`. */
module SchedulerLateThread {
  import opened Wrappers
  import opened Scheduler
  import opened SchedulerTheorems
  import opened SchedulerThreads
  import opened SchedulerShutdown

  /** A worker past a test of the cancel flag, and not back at it. */
  predicate Active(pc: WorkerPc) {
    !pc.Fresh? && !pc.Registering? && !pc.Top? && !pc.Gone?
  }

  predicate Idle(s: State, w: Tid) {
    w in s.agents && s.agents[w].Worker? && !Active(s.agents[w].pc)
  }

  predicate HoldsThread(s: State, t: Tid) {
    t in s.agents && s.agents[t].External? && s.agents[t].call.InCall? && s.agents[t].call.at.Enqueue?
  }

  /** When the cancel flag is set, no call from outside has in hand a thread that it made, did not queue yet,
      and that is past its cancel test already. Calls at any other place are allowed. */
  ghost predicate Prudent(s: State, a: Action) {
    a == Closing(SetCancel) ==> forall t :: HoldsThread(s, t) ==> Idle(s, s.agents[t].call.at.made)
  }

  /** After cancelling, a thread in the hands of a call from outside never gets past its first test; and no
      worker of a level the closing thread is done with is active. */
  ghost predicate CalmAgent(s: State, t: Tid) {
    && (s.cancel && HoldsThread(s, t) ==> Idle(s, s.agents[t].call.at.made))
    && (t in s.agents && s.agents[t].Worker? && Past(s.closer, s.agents[t].level) ==> !Active(s.agents[t].pc))
  }

  /** Threads made are workers of the level, and the joined ones are gone except the one being joined. */
  ghost predicate CalmLevel(s: State, l: nat) {
    l < |s.levels| ==>
      var v := s.levels[l];
      && (forall i :: 0 <= i < |v.made| ==> v.made[i] in s.agents && s.agents[v.made[i]].Worker? && s.agents[v.made[i]].level == l)
      && (forall i :: 0 <= i < |v.joined| ==>
            v.joined[i] in s.agents && s.agents[v.joined[i]].Worker? &&
            (s.agents[v.joined[i]].pc.Gone? || s.closer == Joining(l, v.joined[i])))
  }

  ghost predicate Calm(s: State) {
    && Bookkeeping(s) && LevelDiscipline(s) && Threads(s) && CloserOk(s)
    && (forall t :: CalmAgent(s, t)) && (forall l :: CalmLevel(s, l))
  }

  // ---------------------------------------------------------------- steps of calls and workers

  /** Only making a thread puts one in a caller's hands, and that one is fresh. */
  lemma CallHolds(s: State, t: Tid, a: CallAction, u: Tid)
    requires StepCall(s, t, a).Some? && HoldsThread(StepCall(s, t, a).value, u)
    ensures var s' := StepCall(s, t, a).value;
      var w := s'.agents[u].call.at.made;
      (HoldsThread(s, u) && s.agents[u].call.at.made == w) || (w in s'.agents && s'.agents[w].Worker? && s'.agents[w].pc.Fresh?)
  {
  }

  lemma CallKeepsCalmAgent(s: State, t: Tid, a: CallAction, u: Tid)
    requires Calm(s) && StepCall(s, t, a).Some?
    ensures CalmAgent(StepCall(s, t, a).value, u)
  {
    var s' := StepCall(s, t, a).value;
    CallFrame(s, t, a);
    CallKeepsCloser(s, t, a);
    assert CalmAgent(s, u);
    if HoldsThread(s', u) {
      CallHolds(s, t, a, u);
    }
  }

  lemma CallKeepsCalmLevel(s: State, t: Tid, a: CallAction, l: nat)
    requires Calm(s) && StepCall(s, t, a).Some?
    ensures CalmLevel(StepCall(s, t, a).value, l)
  {
    CallFrame(s, t, a);
    CallKeepsCloser(s, t, a);
    assert CalmLevel(s, l);
    if a.MakeThread? {
      MakeKeepsCalmLevel(s, t, a, l);
    }
  }

  lemma MakeKeepsCalmLevel(s: State, t: Tid, a: CallAction, l: nat)
    requires a.MakeThread? && StepCall(s, t, a).Some? && CalmLevel(s, l)
    ensures CalmLevel(StepCall(s, t, a).value, l)
  {
  }

  /** With the flag set, an idle worker stays idle. */
  lemma IdleStaysIdle(s: State, t: Tid, a: WorkerAction)
    requires s.cancel && StepWorker(s, t, a).Some? && Idle(s, t)
    ensures Idle(StepWorker(s, t, a).value, t)
  {
  }

  lemma WorkerKeepsCalmAgent(s: State, t: Tid, a: WorkerAction, u: Tid)
    requires Calm(s) && StepWorker(s, t, a).Some?
    ensures CalmAgent(StepWorker(s, t, a).value, u)
  {
    WorkerFrame(s, t, a);
    WorkerKeepsCloser(s, t, a);
    assert CalmAgent(s, u) && CalmAgent(s, t);
    if s.cancel && Idle(s, t) {
      IdleStaysIdle(s, t, a);
    }
  }

  lemma WorkerKeepsCalmLevel(s: State, t: Tid, a: WorkerAction, l: nat)
    requires Calm(s) && StepWorker(s, t, a).Some?
    ensures CalmLevel(StepWorker(s, t, a).value, l)
  {
    WorkerFrame(s, t, a);
    WorkerSameThreads(s, t, a);
    WorkerKeepsCloser(s, t, a);
    assert CalmLevel(s, l);
  }

  // ---------------------------------------------------------------- steps of the closing thread

  /** The thread pending at a level that the closing thread has come to is idle: its maker is from outside,
      because the workers one level up are done. */
  lemma PendingIsIdle(s: State, l: nat)
    requires Calm(s) && s.closer == Draining(l) && l < |s.levels|
    ensures forall i :: 0 <= i < |Pending(s, l)| ==> Idle(s, Pending(s, l)[i])
  {
    match s.levels[l].lock
    case None =>
    case Some(u) => assert AgentOk(s, u) && CalmAgent(s, u);
  }

  lemma LevelIsIdle(s: State, l: nat, t: Tid)
    requires Calm(s) && s.closer == Draining(l) && l < |s.levels| && s.levels[l].threads == []
    requires t in s.agents && s.agents[t].Worker? && s.agents[t].level == l
    ensures !Active(s.agents[t].pc)
  {
    var v := s.levels[l];
    PendingIsIdle(s, l);
    assert MadeOk(s, t) && ThreadsOk(s, l) && CalmLevel(s, l);
    assert v.made == v.joined + Pending(s, l);
    var i :| 0 <= i < |v.made| && v.made[i] == t;
    assert if i < |v.joined| then v.joined[i] == t else Pending(s, l)[i - |v.joined|] == t;
  }

  lemma CloserKeepsCalmAgent(s: State, a: CloserAction, t: Tid)
    requires Calm(s) && Prudent(s, Closing(a)) && StepCloser(s, a).Some?
    ensures CalmAgent(StepCloser(s, a).value, t)
  {
    assert CalmAgent(s, t);
    if a.NextLevel? && t in s.agents && s.agents[t].Worker? && s.agents[t].level == s.closer.level {
      LevelIsIdle(s, s.closer.level, t);
    }
    if a.NextLevel? && t in s.agents && s.agents[t].Worker? {
      assert AgentOk(s, t);
    }
  }

  lemma CloserKeepsCalmLevel(s: State, a: CloserAction, l: nat)
    requires Calm(s) && StepCloser(s, a).Some?
    ensures CalmLevel(StepCloser(s, a).value, l)
  {
    assert CalmLevel(s, l) && ThreadsOk(s, l);
    if a.PopThread? && l == s.closer.level {
      var v := s.levels[l];
      assert v.made[|v.joined|] == v.threads[0];
    }
  }

  lemma StepKeepsCalm(s: State, a: Action)
    requires Calm(s) && Prudent(s, a) && Step(s, a).Some?
    ensures Calm(Step(s, a).value)
  {
    var s' := Step(s, a).value;
    StepKeepsBookkeeping(s, a);
    StepKeepsDiscipline(s, a);
    StepKeepsThreads(s, a);
    match a
    case Calling(t, c) =>
      CallKeepsCloser(s, t, c);
      forall u ensures CalmAgent(s', u) { CallKeepsCalmAgent(s, t, c, u); }
      forall l ensures CalmLevel(s', l) { CallKeepsCalmLevel(s, t, c, l); }
    case Serving(t, w) =>
      WorkerKeepsCloser(s, t, w);
      forall u ensures CalmAgent(s', u) { WorkerKeepsCalmAgent(s, t, w, u); }
      forall l ensures CalmLevel(s', l) { WorkerKeepsCalmLevel(s, t, w, l); }
    case Closing(c) =>
      forall u ensures CalmAgent(s', u) { CloserKeepsCalmAgent(s, c, u); }
      forall l ensures CalmLevel(s', l) { CloserKeepsCalmLevel(s, c, l); }
    case Arrive(_) =>
      forall u ensures CalmAgent(s', u) { assert CalmAgent(s, u); }
      forall l ensures CalmLevel(s', l) { assert CalmLevel(s, l); }
  }

  // ---------------------------------------------------------------- whole runs

  ghost predicate PrudentRun(request: nat, actions: seq<Action>) {
    actions == [] ||
    var front := actions[..|actions| - 1];
    PrudentRun(request, front) && (Run(request, front).Some? ==> Prudent(Run(request, front).value, actions[|actions| - 1]))
  }

  /** A run without outside calls past their cancel test is prudent. */
  lemma {:induction false} OrderlyRunIsPrudent(request: nat, actions: seq<Action>)
    requires OrderlyRun(request, actions)
    ensures PrudentRun(request, actions)
  {
    if actions != [] {
      var n := |actions| - 1;
      var front := actions[..n];
      forall i | 0 <= i < n && Run(request, front[..i]).Some? ensures Orderly(Run(request, front[..i]).value, front[i]) {
        assert front[..i] == actions[..i];
      }
      OrderlyRunIsPrudent(request, front);
      assert Run(request, front).Some? ==> Orderly(Run(request, front).value, actions[n]);
    }
  }

  lemma InitialIsCalm(request: nat)
    ensures Calm(Initial(request))
  {
    InitialIsQuiet(request);
    var s := Initial(request);
    forall t ensures CalmAgent(s, t) {}
    forall l ensures CalmLevel(s, l) {}
  }

  lemma {:induction false} PrudentRunsStayCalm(request: nat, actions: seq<Action>)
    requires Run(request, actions).Some? && PrudentRun(request, actions)
    ensures Calm(Run(request, actions).value)
  {
    if actions == [] {
      InitialIsCalm(request);
    } else {
      var n := |actions| - 1;
      PrudentRunsStayCalm(request, actions[..n]);
      StepKeepsCalm(Run(request, actions[..n]).value, actions[n]);
    }
  }

  lemma NoTaskTakenAfterClose(s: State, a: Action)
    requires Calm(s) && s.closed && Step(s, a).Some?
    ensures var s' := Step(s, a).value;
      && s'.closed && |s'.levels| == |s.levels|
      && forall l :: 0 <= l < |s.levels| ==> s'.levels[l].taken == s.levels[l].taken
  {
    match a
    case Calling(t, c) =>
      CallFrame(s, t, c);
      CallKeepsCloser(s, t, c);
    case Serving(t, w) =>
      assert CalmAgent(s, t);
      WorkerKeepsCloser(s, t, w);
    case _ =>
  }

  /** The scheduler is closed, and no task was taken between the two states. */
  ghost predicate NoneTaken(s: State, s': State) {
    && s'.closed && |s.levels| == |s'.levels| == LEVELS
    && forall l :: 0 <= l < LEVELS ==> s'.levels[l].taken == s.levels[l].taken
  }

  lemma NoneTakenAtLast(request: nat, actions: seq<Action>)
    requires actions != [] && PrudentRun(request, actions) && Run(request, actions).Some?
    requires Run(request, actions[..|actions| - 1]).value.closed
    ensures NoneTaken(Run(request, actions[..|actions| - 1]).value, Run(request, actions).value)
  {
    var n := |actions| - 1;
    PrudentRunsStayCalm(request, actions[..n]);
    NoTaskTakenAfterClose(Run(request, actions[..n]).value, actions[n]);
  }

  lemma NoneTakenAtFirst(request: nat, actions: seq<Action>)
    requires PrudentRun(request, actions) && Run(request, actions).Some? && Run(request, actions).value.closed
    ensures NoneTaken(Run(request, actions).value, Run(request, actions).value)
  {
    EveryRunIsSafe(request, actions);
  }

  lemma NoneTakenYet(s: State, t: State, u: State)
    requires NoneTaken(s, t) && NoneTaken(t, u)
    ensures NoneTaken(s, u)
  {
  }

  /** In every prudent run, once `close` has returned no task ever starts, however the run goes on, although
      calls from outside may still be in progress and make threads. */
  lemma {:induction false} NoTaskStartsAfterClose(request: nat, actions: seq<Action>, more: seq<Action>)
    requires PrudentRun(request, actions + more) && Run(request, actions + more).Some?
    requires Run(request, actions).Some? && Run(request, actions).value.closed
    ensures NoneTaken(Run(request, actions).value, Run(request, actions + more).value)
    decreases |more|
  {
    var all := actions + more;
    if more == [] {
      assert all == actions;
      NoneTakenAtFirst(request, actions);
    } else {
      var before := actions + more[..|more| - 1];
      assert all[..|all| - 1] == before;
      NoTaskStartsAfterClose(request, actions, more[..|more| - 1]);
      NoneTakenAtLast(request, all);
      NoneTakenYet(Run(request, actions).value, Run(request, before).value, Run(request, all).value);
    }
  }
}
