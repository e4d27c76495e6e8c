/** Closing the scheduler. */
module SchedulerShutdown {
  import opened Wrappers
  import opened Scheduler
  import opened SchedulerTheorems
  import opened SchedulerThreads

  /** The cancel flag is set while no thread from outside is past its own test of that flag. */
  ghost predicate Orderly(s: State, a: Action) {
    a == Closing(SetCancel) ==>
      forall t :: t in s.agents && s.agents[t].External? && s.agents[t].call.InCall? ==> s.agents[t].call.at.CancelCheck?
  }

  /** The closing thread has started on level `l`, or is done with it. */
  predicate Reached(c: Closer, l: nat) {
    c.Closed? || ((c.Draining? || c.Joining?) && c.level >= l)
  }

  predicate Past(c: Closer, l: nat) {
    c.Closed? || ((c.Draining? || c.Joining?) && c.level > l)
  }

  ghost predicate CloserOk(s: State) {
    && (s.cancel <==> !s.closer.Open?) && (s.closed <==> s.closer.Closed?)
    && (s.closer.Draining? || s.closer.Joining? ==> s.closer.level < LEVELS)
  }

  /** After cancelling, a thread from outside gets no further than its test; and the workers of a
      level the closing thread is done with are gone. */
  ghost predicate QuietAgent(s: State, t: Tid) {
    t in s.agents ==>
      match s.agents[t]
      case External(c) => s.cancel && c.InCall? ==> c.at.CancelCheck?
      case Worker(l, pc, _) => Past(s.closer, l) ==> pc.Gone?
  }

  /** Threads made are workers of the level, the joined ones are gone except the one being joined,
      none is joined before the closing thread reaches the level, and the limit holds. */
  ghost predicate QuietLevel(s: State, l: nat) {
    l < |s.levels| ==>
      var v := s.levels[l];
      && (forall i :: 0 <= i < |v.made| ==> v.made[i] in s.agents && s.agents[v.made[i]].Worker? && s.agents[v.made[i]].level == l)
      && (forall i :: 0 <= i < |v.joined| ==>
            v.joined[i] in s.agents && s.agents[v.joined[i]].Worker? &&
            (s.agents[v.joined[i]].pc.Gone? || s.closer == Joining(l, v.joined[i])))
      && (v.joined != [] ==> Reached(s.closer, l))
      && |v.made| <= v.limit
  }

  ghost predicate Quiet(s: State) {
    && Bookkeeping(s) && LevelDiscipline(s) && Threads(s) && CloserOk(s)
    && (forall t :: QuietAgent(s, t)) && (forall l :: QuietLevel(s, l))
  }

  /** Once the closing thread has reached a level, no call for it is past the cancel test: calls for
      level 0 come from outside, and calls for level 1 from level-0 workers, which are all joined
      before level 1 is begun. */
  lemma ReachedMeansNoCalls(s: State, l: nat, t: Tid)
    requires Quiet(s) && Reached(s.closer, l) && CallsAt(s, t, l)
    ensures s.agents[t].call.at.CancelCheck?
  {
    assert AgentOk(s, t) && QuietAgent(s, t);
  }

  /** A thread is made only on a level that the closing thread has not reached. */
  lemma MakerIsAhead(s: State, t: Tid, a: CallAction)
    requires Quiet(s) && StepCall(s, t, a).Some?
    ensures a.MakeThread? ==> t in s.agents && s.agents[t].call.InCall? && !Reached(s.closer, s.agents[t].call.level)
  {
    assert AgentOk(s, t) && QuietAgent(s, t);
  }

  lemma CallKeepsQuietAgent(s: State, t: Tid, a: CallAction, u: Tid)
    requires Quiet(s) && StepCall(s, t, a).Some?
    ensures QuietAgent(StepCall(s, t, a).value, u)
  {
    var s' := StepCall(s, t, a).value;
    CallFrame(s, t, a);
    CallKeepsCloser(s, t, a);
    assert QuietAgent(s, u) && QuietAgent(s, t) && AgentOk(s, t) && Booked(s, t);
    MakerIsAhead(s, t, a);
  }

  lemma CallKeepsCloser(s: State, t: Tid, a: CallAction)
    requires StepCall(s, t, a).Some?
    ensures var s' := StepCall(s, t, a).value;
      && s'.closer == s.closer && s'.cancel == s.cancel && s'.closed == s.closed
      && |s'.levels| == |s.levels|
      && (forall l :: 0 <= l < |s.levels| ==> s'.levels[l].joined == s.levels[l].joined && s'.levels[l].limit == s.levels[l].limit)
      && (!a.MakeThread? ==> s'.agents.Keys == s.agents.Keys && forall l :: 0 <= l < |s.levels| ==> s'.levels[l].made == s.levels[l].made)
  {
  }

  lemma CallKeepsQuietLevel(s: State, t: Tid, a: CallAction, l: nat)
    requires Quiet(s) && StepCall(s, t, a).Some?
    ensures QuietLevel(StepCall(s, t, a).value, l)
  {
    CallFrame(s, t, a);
    CallKeepsCloser(s, t, a);
    assert QuietLevel(s, l);
    MakerIsAhead(s, t, a);
    if a.MakeThread? {
      CallKeepsThreads(s, t, a, l);
      MakeKeepsQuietLevel(s, t, a, l);
    }
  }

  lemma MakeKeepsQuietLevel(s: State, t: Tid, a: CallAction, l: nat)
    requires a.MakeThread? && StepCall(s, t, a).Some? && QuietLevel(s, l)
    requires !Reached(s.closer, s.agents[t].call.level)
    requires ThreadsOk(StepCall(s, t, a).value, l)
    ensures QuietLevel(StepCall(s, t, a).value, l)
  {
  }

  lemma StepKeepsQuietCall(s: State, t: Tid, a: CallAction)
    requires Quiet(s) && StepCall(s, t, a).Some?
    ensures Quiet(StepCall(s, t, a).value)
  {
    var s' := StepCall(s, t, a).value;
    assert Step(s, Calling(t, a)) == Some(s');
    StepKeepsBookkeeping(s, Calling(t, a));
    StepKeepsDiscipline(s, Calling(t, a));
    StepKeepsThreads(s, Calling(t, a));
    CallKeepsCloser(s, t, a);
    forall u ensures QuietAgent(s', u) { CallKeepsQuietAgent(s, t, a, u); }
    forall l ensures QuietLevel(s', l) { CallKeepsQuietLevel(s, t, a, l); }
  }

  lemma StepKeepsQuietWorker(s: State, t: Tid, a: WorkerAction)
    requires Quiet(s) && StepWorker(s, t, a).Some?
    ensures Quiet(StepWorker(s, t, a).value)
  {
    var s' := StepWorker(s, t, a).value;
    assert Step(s, Serving(t, a)) == Some(s');
    StepKeepsBookkeeping(s, Serving(t, a));
    StepKeepsDiscipline(s, Serving(t, a));
    StepKeepsThreads(s, Serving(t, a));
    WorkerFrame(s, t, a);
    WorkerSameThreads(s, t, a);
    WorkerKeepsCloser(s, t, a);
    forall u ensures QuietAgent(s', u) { assert QuietAgent(s, u); }
    forall l ensures QuietLevel(s', l) { assert QuietLevel(s, l); }
  }

  /** A worker that is gone takes no step, and no worker's step touches the closing thread. */
  lemma WorkerKeepsCloser(s: State, t: Tid, a: WorkerAction)
    requires StepWorker(s, t, a).Some?
    ensures var s' := StepWorker(s, t, a).value;
      s'.closer == s.closer && s'.cancel == s.cancel && s'.closed == s.closed && !s.agents[t].pc.Gone?
  {
  }

  /** When the closing thread finds a level's thread queue empty, every worker of that level is gone. */
  lemma LevelIsDone(s: State, l: nat, t: Tid)
    requires Quiet(s) && s.closer == Draining(l) && l < |s.levels| && s.levels[l].threads == []
    requires t in s.agents && s.agents[t].Worker? && s.agents[t].level == l
    ensures s.agents[t].pc.Gone?
  {
    var v := s.levels[l];
    forall u | CallsAt(s, u, l) ensures s.agents[u].call.at.CancelCheck? { ReachedMeansNoCalls(s, l, u); }
    assert MadeOk(s, t) && ThreadsOk(s, l) && QuietLevel(s, l);
    assert v.made == v.joined;
    var i :| 0 <= i < |v.made| && v.made[i] == t;
  }

  lemma CloserKeepsQuietAgent(s: State, a: CloserAction, t: Tid)
    requires Quiet(s) && Orderly(s, Closing(a)) && StepCloser(s, a).Some?
    ensures QuietAgent(StepCloser(s, a).value, t)
  {
    assert QuietAgent(s, t) && AgentOk(s, t);
    if a.NextLevel? && t in s.agents && s.agents[t].Worker? && s.agents[t].level == s.closer.level {
      LevelIsDone(s, s.closer.level, t);
    }
  }

  lemma CloserKeepsQuietLevel(s: State, a: CloserAction, l: nat)
    requires Quiet(s) && StepCloser(s, a).Some?
    ensures QuietLevel(StepCloser(s, a).value, l)
  {
    assert QuietLevel(s, l) && ThreadsOk(s, l);
    if a.PopThread? && l == s.closer.level {
      var v := s.levels[l];
      assert v.made[|v.joined|] == v.threads[0];
    }
  }

  lemma StepKeepsQuiet(s: State, a: Action)
    requires Quiet(s) && Orderly(s, a) && Step(s, a).Some?
    ensures Quiet(Step(s, a).value)
  {
    var s' := Step(s, a).value;
    match a
    case Calling(t, c) => StepKeepsQuietCall(s, t, c);
    case Serving(t, w) => StepKeepsQuietWorker(s, t, w);
    case Closing(c) =>
      StepKeepsBookkeeping(s, a);
      StepKeepsDiscipline(s, a);
      StepKeepsThreads(s, a);
      forall u ensures QuietAgent(s', u) { CloserKeepsQuietAgent(s, c, u); }
      forall l ensures QuietLevel(s', l) { CloserKeepsQuietLevel(s, c, l); }
    case Arrive(_) =>
      StepKeepsBookkeeping(s, a);
      StepKeepsDiscipline(s, a);
      StepKeepsThreads(s, a);
      forall u ensures QuietAgent(s', u) { assert QuietAgent(s, u); }
      forall l ensures QuietLevel(s', l) { assert QuietLevel(s, l); }
  }

  // ---------------------------------------------------------------- whole runs

  ghost predicate Safe(s: State) {
    Bookkeeping(s) && LevelDiscipline(s) && Threads(s)
  }

  lemma InitialIsQuiet(request: nat)
    ensures Quiet(Initial(request)) && Safe(Initial(request))
  {
    var s := Initial(request);
    forall t ensures Booked(s, t) && AgentOk(s, t) && LockOk(s, t) && MadeOk(s, t) && QuietAgent(s, t) {}
    forall l ensures LevelOk(s, l) && ThreadsOk(s, l) && QuietLevel(s, l) {}
  }

  /** In every interleaving: tasks are taken in the order pushed, none lost or repeated; every task
      is at the level of its ancestry and runs on a worker of that level; bookkeeping is right; and
      until the closing thread takes the first thread of a level, at most the limit were made there. */
  lemma {:induction false} EveryRunIsSafe(request: nat, actions: seq<Action>)
    requires Run(request, actions).Some?
    ensures Safe(Run(request, actions).value)
  {
    if actions == [] {
      InitialIsQuiet(request);
    } else {
      var before := actions[..|actions| - 1];
      EveryRunIsSafe(request, before);
      var s, a := Run(request, before).value, actions[|actions| - 1];
      StepKeepsBookkeeping(s, a);
      StepKeepsDiscipline(s, a);
      StepKeepsThreads(s, a);
    }
  }

  ghost predicate OrderlyRun(request: nat, actions: seq<Action>) {
    forall i :: 0 <= i < |actions| && Run(request, actions[..i]).Some? ==> Orderly(Run(request, actions[..i]).value, actions[i])
  }

  lemma {:induction false} OrderlyRunsStayQuiet(request: nat, actions: seq<Action>)
    requires Run(request, actions).Some? && OrderlyRun(request, actions)
    ensures Quiet(Run(request, actions).value)
  {
    if actions == [] {
      InitialIsQuiet(request);
    } else {
      var n := |actions| - 1;
      var before := actions[..n];
      forall i | 0 <= i < |before| && Run(request, before[..i]).Some? ensures Orderly(Run(request, before[..i]).value, before[i]) {
        assert before[..i] == actions[..i];
      }
      OrderlyRunsStayQuiet(request, before);
      StepKeepsQuiet(Run(request, before).value, actions[n]);
    }
  }

  lemma ClosedMeansGone(s: State)
    requires Quiet(s) && s.closed
    ensures forall t :: t in s.agents && s.agents[t].Worker? ==> s.agents[t].pc.Gone?
  {
    forall t | t in s.agents && s.agents[t].Worker? ensures s.agents[t].pc.Gone? { assert QuietAgent(s, t); }
  }

  /** After `close` has returned, nothing starts any more: a step makes no thread, starts no task and
      leaves the scheduler closed. */
  lemma NothingStartsAfterClose(s: State, a: Action)
    requires Quiet(s) && s.closed && Step(s, a).Some?
    ensures var s' := Step(s, a).value;
      && s'.closed
      && (forall t :: t in s'.agents && s'.agents[t].Worker? ==> t in s.agents && s'.agents[t].pc.Gone?)
      && |s'.levels| == |s.levels|
      && forall l :: 0 <= l < |s.levels| ==> s'.levels[l].taken == s.levels[l].taken && s'.levels[l].made == s.levels[l].made
  {
    var s' := Step(s, a).value;
    ClosedMeansGone(s);
    match a
    case Calling(t, c) =>
      CallFrame(s, t, c);
      CallKeepsCloser(s, t, c);
      MakerIsAhead(s, t, c);
    case Serving(t, w) => WorkerKeepsCloser(s, t, w);
    case Closing(c) =>
    case Arrive(u) =>
  }

  /** Shutdown: in every orderly run, once `close` has returned every worker is gone, and however the
      run goes on, no task is ever taken and no thread ever made again. */
  lemma {:induction false} ShutdownIsFinal(request: nat, actions: seq<Action>, more: seq<Action>)
    requires OrderlyRun(request, actions + more) && Run(request, actions + more).Some?
    requires Run(request, actions).Some? && Run(request, actions).value.closed
    ensures var s, s' := Run(request, actions).value, Run(request, actions + more).value;
      && (forall t :: t in s.agents && s.agents[t].Worker? ==> s.agents[t].pc.Gone?)
      && s'.closed && (forall t :: t in s'.agents && s'.agents[t].Worker? ==> s'.agents[t].pc.Gone?)
      && |s.levels| == |s'.levels| == LEVELS
      && forall l :: 0 <= l < LEVELS ==> s'.levels[l].taken == s.levels[l].taken && s'.levels[l].made == s.levels[l].made
    decreases |more|
  {
    var s := Run(request, actions).value;
    if more == [] {
      assert actions + more == actions;
      OrderlyRunsStayQuiet(request, actions);
      ClosedMeansGone(s);
    } else {
      var n := |more| - 1;
      var all := actions + more;
      var before := actions + more[..n];
      assert all[..|all| - 1] == before && all[|all| - 1] == more[n];
      forall i | 0 <= i < |before| && Run(request, before[..i]).Some? ensures Orderly(Run(request, before[..i]).value, before[i]) {
        assert before[..i] == all[..i];
      }
      ShutdownIsFinal(request, actions, more[..n]);
      OrderlyRunsStayQuiet(request, before);
      NothingStartsAfterClose(Run(request, before).value, more[n]);
    }
  }
}
