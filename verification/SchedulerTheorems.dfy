/** What every interleaving of the scheduler keeps. */
module SchedulerTheorems {
  import opened Wrappers
  import opened Scheduler

  // ---------------------------------------------------------------- worker bookkeeping

  predicate Busy(pc: WorkerPc) {
    pc.Popping? || pc.Running? || pc.Unmarking?
  }

  /** A thread in the level map is also in the state map; both maps speak of workers only and
      correctly; a registered worker is marked working exactly between its two markings. */
  ghost predicate Booked(s: State, t: Tid) {
    && (t in s.levelOf ==> t in s.markOf && t in s.agents && s.agents[t].Worker? && s.levelOf[t] == s.agents[t].level)
    && (t in s.markOf ==> t in s.agents && s.agents[t].Worker? && !s.agents[t].pc.Fresh?)
    && (t in s.agents && s.agents[t].Worker? ==>
          && (!s.agents[t].pc.Fresh? ==> t in s.markOf && (s.markOf[t] == Working <==> Busy(s.agents[t].pc)))
          && (!s.agents[t].pc.Fresh? && !s.agents[t].pc.Registering? ==> t in s.levelOf))
  }

  ghost predicate Bookkeeping(s: State) {
    forall t :: Booked(s, t)
  }

  lemma CallKeepsBookkeeping(s: State, t: Tid, a: CallAction)
    requires Bookkeeping(s) && StepCall(s, t, a).Some?
    ensures Bookkeeping(StepCall(s, t, a).value)
  {
    var s' := StepCall(s, t, a).value;
    forall u ensures Booked(s', u) { assert Booked(s, u); }
  }

  lemma WorkerKeepsBookkeeping(s: State, t: Tid, a: WorkerAction)
    requires Bookkeeping(s) && StepWorker(s, t, a).Some?
    ensures Bookkeeping(StepWorker(s, t, a).value)
  {
    var s' := StepWorker(s, t, a).value;
    forall u ensures Booked(s', u) { assert Booked(s, u); }
  }

  lemma StepKeepsBookkeeping(s: State, a: Action)
    requires Bookkeeping(s) && Step(s, a).Some?
    ensures Bookkeeping(Step(s, a).value)
  {
    match a
    case Calling(t, c) => CallKeepsBookkeeping(s, t, c);
    case Serving(t, w) => WorkerKeepsBookkeeping(s, t, w);
    case _ =>
      var s' := Step(s, a).value;
      forall u ensures Booked(s', u) { assert Booked(s, u); }
  }

  // ---------------------------------------------------------------- queues and levels

  /** Tasks leave a level's queue in the order they entered it, none lost and none twice, and every
      task that entered has as many ancestors as the level's number. */
  ghost predicate LevelOk(s: State, l: nat) {
    l < |s.levels| ==>
      && s.levels[l].taken + s.levels[l].tasks == s.levels[l].pushed
      && forall i :: 0 <= i < |s.levels[l].pushed| ==> Depth(s.levels[l].pushed[i]) == l
  }

  /** A call is for the level below its caller's and carries the task during which it was made; a
      worker runs a task that was taken from the queue of its own level. */
  ghost predicate AgentOk(s: State, t: Tid) {
    t in s.agents ==>
      match s.agents[t]
      case External(c) => c.InCall? ==> c.level == 0 && c.task.parent == None
      case Worker(l, pc, c) =>
        && l < LEVELS && l < |s.levels|
        && (pc.Running? ==> pc.task in s.levels[l].taken)
        && (c.InCall? ==> pc.Running? && c.level == l + 1 < LEVELS && c.task.parent == Some(pc.task))
  }

  ghost predicate LevelDiscipline(s: State) {
    |s.levels| == LEVELS && (forall l :: LevelOk(s, l)) && (forall t :: AgentOk(s, t))
  }

  lemma TakenDepth(s: State, l: nat, task: Task)
    requires l < |s.levels| && LevelOk(s, l) && task in s.levels[l].taken
    ensures Depth(task) == l
  {
    var v := s.levels[l];
    var i :| 0 <= i < |v.taken| && v.taken[i] == task;
    assert (v.taken + v.tasks)[i] == v.pushed[i];
  }

  /** A task being scheduled has the depth of the level it is meant for. */
  lemma CallDepth(s: State, t: Tid)
    requires LevelDiscipline(s) && t in s.agents && s.agents[t].call.InCall?
    ensures Depth(s.agents[t].call.task) == s.agents[t].call.level < LEVELS
  {
    assert AgentOk(s, t);
    if s.agents[t].Worker? {
      assert LevelOk(s, s.agents[t].level);
      TakenDepth(s, s.agents[t].level, s.agents[t].pc.task);
    }
  }

  /** What a step of a call can change apart from its own progress: one level's record, where the
      tasks taken stay the same, and one new agent, a worker that has not started. */
  lemma CallFrame(s: State, t: Tid, a: CallAction)
    requires StepCall(s, t, a).Some?
    ensures var s' := StepCall(s, t, a).value;
      && t in s.agents && t in s'.agents && s'.agents[t] == s.agents[t].(call := s'.agents[t].call)
      && |s'.levels| == |s.levels|
      && (forall u :: u in s.agents && u != t ==> u in s'.agents && s'.agents[u] == s.agents[u])
      && (forall u :: u in s'.agents && u !in s.agents ==>
            s'.agents[u] == Worker(s.agents[t].call.level, Fresh, NoCall) && s.agents[t].call.InCall? && s.agents[t].call.level < |s.levels|)
      && (forall l :: 0 <= l < |s.levels| ==> s'.levels[l].taken == s.levels[l].taken)
  {
  }

  lemma CallKeepsAgents(s: State, t: Tid, a: CallAction)
    requires LevelDiscipline(s) && Bookkeeping(s) && StepCall(s, t, a).Some?
    ensures forall u :: AgentOk(StepCall(s, t, a).value, u)
  {
    var s' := StepCall(s, t, a).value;
    CallFrame(s, t, a);
    assert AgentOk(s, t) && Booked(s, t);
    forall u ensures AgentOk(s', u) {
      assert AgentOk(s, u);
      if u == t { CallKeepsCaller(s, t, a); }
    }
  }

  lemma CallKeepsCaller(s: State, t: Tid, a: CallAction)
    requires StepCall(s, t, a).Some? && AgentOk(s, t) && Booked(s, t)
    ensures AgentOk(StepCall(s, t, a).value, t)
  {
    CallFrame(s, t, a);
  }

  lemma CallKeepsLevels(s: State, t: Tid, a: CallAction, l: nat)
    requires LevelDiscipline(s) && StepCall(s, t, a).Some?
    ensures LevelOk(StepCall(s, t, a).value, l)
  {
    var s' := StepCall(s, t, a).value;
    assert LevelOk(s, l);
    if a.PushTask? {
      CallDepth(s, t);
      var v, task := s.levels[s.agents[t].call.level], s.agents[t].call.task;
      assert v.taken + (v.tasks + [task]) == (v.taken + v.tasks) + [task];
    }
  }

  lemma WorkerFrame(s: State, t: Tid, a: WorkerAction)
    requires StepWorker(s, t, a).Some?
    ensures var s' := StepWorker(s, t, a).value;
      && t in s.agents && t in s'.agents && s.agents[t].Worker? && s'.agents[t] == s.agents[t].(pc := s'.agents[t].pc)
      && |s'.levels| == |s.levels|
      && (forall u :: u in s.agents && u != t ==> u in s'.agents && s'.agents[u] == s.agents[u])
      && (forall u :: u in s'.agents ==> u in s.agents)
      && (forall l :: 0 <= l < |s.levels| ==> s.levels[l].taken <= s'.levels[l].taken)
  {
  }

  lemma WorkerKeepsAgents(s: State, t: Tid, a: WorkerAction)
    requires LevelDiscipline(s) && StepWorker(s, t, a).Some?
    ensures forall u :: AgentOk(StepWorker(s, t, a).value, u)
  {
    var s' := StepWorker(s, t, a).value;
    WorkerFrame(s, t, a);
    forall u ensures AgentOk(s', u) {
      assert AgentOk(s, u);
      if u == t { WorkerKeepsItself(s, t, a); }
    }
  }

  lemma WorkerKeepsItself(s: State, t: Tid, a: WorkerAction)
    requires StepWorker(s, t, a).Some? && AgentOk(s, t)
    ensures AgentOk(StepWorker(s, t, a).value, t)
  {
    WorkerFrame(s, t, a);
  }

  lemma WorkerKeepsLevels(s: State, t: Tid, a: WorkerAction, l: nat)
    requires LevelDiscipline(s) && StepWorker(s, t, a).Some?
    ensures LevelOk(StepWorker(s, t, a).value, l)
  {
    assert LevelOk(s, l);
    if l < |s.levels| && s.levels[l].tasks != [] {
      var v := s.levels[l];
      assert (v.taken + [v.tasks[0]]) + v.tasks[1..] == v.taken + v.tasks;
    }
  }

  lemma CloserKeepsDiscipline(s: State, a: CloserAction)
    requires LevelDiscipline(s) && StepCloser(s, a).Some?
    ensures LevelDiscipline(StepCloser(s, a).value)
  {
    var s' := StepCloser(s, a).value;
    assert s'.agents == s.agents && |s'.levels| == |s.levels|;
    assert forall l :: 0 <= l < |s.levels| ==>
      s'.levels[l].taken == s.levels[l].taken && s'.levels[l].tasks == s.levels[l].tasks && s'.levels[l].pushed == s.levels[l].pushed;
    forall l ensures LevelOk(s', l) { assert LevelOk(s, l); }
    forall u ensures AgentOk(s', u) { assert AgentOk(s, u); }
  }

  lemma StepKeepsDiscipline(s: State, a: Action)
    requires LevelDiscipline(s) && Bookkeeping(s) && Step(s, a).Some?
    ensures LevelDiscipline(Step(s, a).value)
  {
    var s' := Step(s, a).value;
    match a
    case Calling(t, c) =>
      CallFrame(s, t, c);
      CallKeepsAgents(s, t, c);
      forall l ensures LevelOk(s', l) { CallKeepsLevels(s, t, c, l); }
    case Serving(t, w) =>
      WorkerFrame(s, t, w);
      WorkerKeepsAgents(s, t, w);
      forall l ensures LevelOk(s', l) { WorkerKeepsLevels(s, t, w, l); }
    case Closing(c) => CloserKeepsDiscipline(s, c);
    case Arrive(_) =>
      forall l ensures LevelOk(s', l) { assert LevelOk(s, l); }
      forall u ensures AgentOk(s', u) { assert AgentOk(s, u); }
  }
}
