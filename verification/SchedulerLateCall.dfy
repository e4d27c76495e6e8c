/** Why shutdown needs calls from outside to be over: a run in which one is not. */
module SchedulerLateCall {
  import opened Wrappers
  import opened Scheduler
  import opened SchedulerShutdown
  import opened SchedulerLateThread

  const FIRST := Task(0, None)
  const SECOND := Task(1, None)
  const CALLER: Tid := 10

  lemma Then(actions: seq<Action>, s: State, a: Action) returns (next: seq<Action>)
    requires Run(4, actions) == Some(s) && Step(s, a).Some?
    ensures next == actions + [a] && Run(4, next) == Step(s, a)
  {
    next := actions + [a];
    assert next[..|actions|] == actions;
  }

  /** The outside caller gets as far as pushing a task on level 0. */
  lemma PushFromOutside(r: seq<Action>, s: State) returns (r': seq<Action>, s': State)
    requires Run(4, r) == Some(s) && !s.cancel && !s.closed && |s.levels| == LEVELS
    requires CALLER in s.agents && s.agents[CALLER] == External(NoCall) && CALLER !in s.levelOf
    ensures Run(4, r') == Some(s')
    ensures var v, task := s.levels[0], Task(s.nextTask, None);
      s' == s.(agents := s.agents[CALLER := External(InCall(0, task, SizeCheck))], nextTask := s.nextTask + 1,
               levels := s.levels[0 := v.(tasks := v.tasks + [task], pushed := v.pushed + [task])])
  {
    r' := Then(r, s, Calling(CALLER, Begin));
    s' := Step(s, Calling(CALLER, Begin)).value;
    r' := Then(r', s', Calling(CALLER, TestCancel));
    s' := Step(s', Calling(CALLER, TestCancel)).value;
    r' := Then(r', s', Calling(CALLER, PushTask));
    s' := Step(s', Calling(CALLER, PushTask)).value;
    assert s'.agents == s.agents[CALLER := External(InCall(0, Task(s.nextTask, None), SizeCheck))];
  }

  /** With one task queued the caller makes no thread. */
  lemma FindNoBacklog(r: seq<Action>, s: State, task: Task) returns (r': seq<Action>, s': State)
    requires Run(4, r) == Some(s) && |s.levels| == LEVELS
    requires CALLER in s.agents && s.agents[CALLER] == External(InCall(0, task, SizeCheck))
    requires |s.levels[0].threads| < s.levels[0].limit && |s.levels[0].tasks| <= 1
    ensures Run(4, r') == Some(s') && s' == s.(agents := s.agents[CALLER := External(InCall(0, task, Notify))])
  {
    r' := Then(r, s, Calling(CALLER, TestSize));
    s' := Step(s, Calling(CALLER, TestSize)).value;
    r' := Then(r', s', Calling(CALLER, TestBacklog));
    s' := Step(s', Calling(CALLER, TestBacklog)).value;
    assert s'.agents == s.agents[CALLER := External(InCall(0, task, Notify))];
  }

  lemma Return(r: seq<Action>, s: State, task: Task) returns (r': seq<Action>, s': State)
    requires Run(4, r) == Some(s) && |s.levels| == LEVELS
    requires CALLER in s.agents && s.agents[CALLER] == External(InCall(0, task, Notify))
    ensures Run(4, r') == Some(s') && s' == s.(agents := s.agents[CALLER := External(NoCall)])
  {
    r' := Then(r, s, Calling(CALLER, NotifyOne));
    s' := Step(s, Calling(CALLER, NotifyOne)).value;
  }

  /** The first task is scheduled; one queued task is no reason for another thread. */
  lemma ScheduleFirst() returns (r: seq<Action>, s: State)
    ensures Run(4, r) == Some(s)
    ensures s == State(
      [Level([FIRST], [0], None, 2, [FIRST], [], [0], []), Level([], [1], None, 2, [], [], [1], [])],
      map[0 := Worker(0, Fresh, NoCall), 1 := Worker(1, Fresh, NoCall), CALLER := External(NoCall)],
      map[], map[], false, false, Open, 1)
  {
    r, s := [], Initial(4);
    r := Then(r, s, Arrive(CALLER));
    s := Step(s, Arrive(CALLER)).value;
    r, s := PushFromOutside(r, s);
    assert s.levels[0].tasks == s.levels[0].pushed == [FIRST];
    r, s := FindNoBacklog(r, s, FIRST);
    r, s := Return(r, s, FIRST);
    assert s.levels == [Level([FIRST], [0], None, 2, [FIRST], [], [0], []), Level([], [1], None, 2, [], [], [1], [])];
    assert s.agents == map[0 := Worker(0, Fresh, NoCall), 1 := Worker(1, Fresh, NoCall), CALLER := External(NoCall)];
  }

  /** With two tasks queued and no free worker registered, the caller reaches the lock. */
  lemma ReachLock(r: seq<Action>, s: State, task: Task) returns (r': seq<Action>, s': State)
    requires Run(4, r) == Some(s) && |s.levels| == LEVELS
    requires CALLER in s.agents && s.agents[CALLER] == External(InCall(0, task, SizeCheck))
    requires |s.levels[0].threads| < s.levels[0].limit && |s.levels[0].tasks| > 1 && s.levelOf == map[]
    ensures Run(4, r') == Some(s') && s' == s.(agents := s.agents[CALLER := External(InCall(0, task, Lock))])
  {
    r' := Then(r, s, Calling(CALLER, TestSize));
    s' := Step(s, Calling(CALLER, TestSize)).value;
    r' := Then(r', s', Calling(CALLER, TestBacklog));
    s' := Step(s', Calling(CALLER, TestBacklog)).value;
    r' := Then(r', s', Calling(CALLER, FindNone));
    s' := Step(s', Calling(CALLER, FindNone)).value;
    assert s'.agents == s.agents[CALLER := External(InCall(0, task, Lock))];
  }

  lemma LockAndTest(r: seq<Action>, s: State, task: Task) returns (r': seq<Action>, s': State)
    requires Run(4, r) == Some(s) && |s.levels| == LEVELS
    requires CALLER in s.agents && s.agents[CALLER] == External(InCall(0, task, Lock))
    requires |s.levels[0].threads| < s.levels[0].limit && s.levels[0].lock == None
    ensures Run(4, r') == Some(s')
    ensures s' == s.(agents := s.agents[CALLER := External(InCall(0, task, Make))],
                     levels := s.levels[0 := s.levels[0].(lock := Some(CALLER))])
  {
    r' := Then(r, s, Calling(CALLER, TakeLock));
    s' := Step(s, Calling(CALLER, TakeLock)).value;
    r' := Then(r', s', Calling(CALLER, TestSizeAgain));
    s' := Step(s', Calling(CALLER, TestSizeAgain)).value;
    assert s'.agents == s.agents[CALLER := External(InCall(0, task, Make))];
  }

  /** Under the lock the caller makes a thread, and is held up before queueing it. */
  lemma MakeUnderLock(r: seq<Action>, s: State, task: Task, w: Tid) returns (r': seq<Action>, s': State)
    requires Run(4, r) == Some(s) && |s.levels| == LEVELS
    requires CALLER in s.agents && s.agents[CALLER] == External(InCall(0, task, Make)) && w !in s.agents
    ensures Run(4, r') == Some(s')
    ensures s' == s.(agents := s.agents[CALLER := External(InCall(0, task, Enqueue(w)))][w := Worker(0, Fresh, NoCall)],
                     levels := s.levels[0 := s.levels[0].(made := s.levels[0].made + [w])])
  {
    r' := Then(r, s, Calling(CALLER, MakeThread(w)));
    s' := Step(s, Calling(CALLER, MakeThread(w))).value;
  }

  /** The second task is scheduled; the caller makes a second thread and is held up before queueing it. */
  lemma MakeSecondThread() returns (r: seq<Action>, s: State)
    ensures Run(4, r) == Some(s)
    ensures s == State(
      [Level([FIRST, SECOND], [0], Some(CALLER), 2, [FIRST, SECOND], [], [0, 2], []), Level([], [1], None, 2, [], [], [1], [])],
      map[0 := Worker(0, Fresh, NoCall), 1 := Worker(1, Fresh, NoCall), 2 := Worker(0, Fresh, NoCall),
          CALLER := External(InCall(0, SECOND, Enqueue(2)))],
      map[], map[], false, false, Open, 2)
  {
    r, s := ScheduleFirst();
    r, s := PushFromOutside(r, s);
    assert s.levels[0].tasks == s.levels[0].pushed == [FIRST, SECOND];
    r, s := ReachLock(r, s, SECOND);
    r, s := LockAndTest(r, s, SECOND);
    r, s := MakeUnderLock(r, s, SECOND, 2);
    assert s.levels[0].made == [0, 2];
    assert s.levels == [Level([FIRST, SECOND], [0], Some(CALLER), 2, [FIRST, SECOND], [], [0, 2], []), Level([], [1], None, 2, [], [], [1], [])];
    assert s.agents == map[0 := Worker(0, Fresh, NoCall), 1 := Worker(1, Fresh, NoCall), 2 := Worker(0, Fresh, NoCall),
                           CALLER := External(InCall(0, SECOND, Enqueue(2)))];
  }

  /** The new worker passes its cancel test; then `close` sets the flag. */
  lemma CancelTooEarly() returns (r: seq<Action>, s: State)
    ensures Run(4, r) == Some(s)
    ensures s == State(
      [Level([FIRST, SECOND], [0], Some(CALLER), 2, [FIRST, SECOND], [], [0, 2], []), Level([], [1], None, 2, [], [], [1], [])],
      map[0 := Worker(0, Fresh, NoCall), 1 := Worker(1, Fresh, NoCall), 2 := Worker(0, Waiting, NoCall),
          CALLER := External(InCall(0, SECOND, Enqueue(2)))],
      map[2 := 0], map[2 := Free], true, false, Draining(0), 2)
  {
    r, s := MakeSecondThread();
    r := Then(r, s, Serving(2, RegisterState));
    s := Step(s, Serving(2, RegisterState)).value;
    r := Then(r, s, Serving(2, RegisterLevel));
    s := Step(s, Serving(2, RegisterLevel)).value;
    r := Then(r, s, Serving(2, TestStop));
    s := Step(s, Serving(2, TestStop)).value;
    r := Then(r, s, Closing(SetCancel));
    s := Step(s, Closing(SetCancel)).value;
    assert s.agents == map[0 := Worker(0, Fresh, NoCall), 1 := Worker(1, Fresh, NoCall), 2 := Worker(0, Waiting, NoCall),
                           CALLER := External(InCall(0, SECOND, Enqueue(2)))];
  }

  /** The two queued threads start, stop at once and are joined; `close` returns. */
  lemma CloseReturns() returns (r: seq<Action>, s: State)
    ensures Run(4, r) == Some(s) && s.closed && |s.levels| == LEVELS
    ensures s.levels[0].tasks == [FIRST, SECOND] && s.levels[0].taken == []
    ensures 2 in s.agents && s.agents[2] == Worker(0, Waiting, NoCall)
  {
    r, s := CancelTooEarly();
    r, s := Leave(r, s, 0);
    r, s := Leave(r, s, 1);
    r, s := DrainOne(r, s, 0);
    r, s := DrainOne(r, s, 1);
  }

  /** The closing thread joins the one queued thread of a level and moves on. */
  lemma DrainOne(r: seq<Action>, s: State, l: nat) returns (r': seq<Action>, s': State)
    requires Run(4, r) == Some(s) && |s.levels| == LEVELS && l < LEVELS && s.closer == Draining(l)
    requires |s.levels[l].threads| == 1
    requires s.levels[l].threads[0] in s.agents
    requires var w := s.agents[s.levels[l].threads[0]]; w.Worker? && w.pc == Gone
    ensures Run(4, r') == Some(s')
    ensures s'.agents == s.agents && s'.markOf == s.markOf && s'.levelOf == s.levelOf
    ensures s'.levels == s.levels[l := s.levels[l].(threads := [], joined := s.levels[l].joined + s.levels[l].threads)]
    ensures if l + 1 < LEVELS then s'.closer == Draining(l + 1) else s'.closed
  {
    r' := Then(r, s, Closing(PopThread));
    s' := Step(s, Closing(PopThread)).value;
    r' := Then(r', s', Closing(JoinThread));
    s' := Step(s', Closing(JoinThread)).value;
    r' := Then(r', s', Closing(NextLevel));
    s' := Step(s', Closing(NextLevel)).value;
    assert [s.levels[l].threads[0]] == s.levels[l].threads;
  }

  lemma Leave(r: seq<Action>, s: State, t: Tid) returns (r': seq<Action>, s': State)
    requires Run(4, r) == Some(s) && s.cancel
    requires t in s.agents && s.agents[t].Worker? && s.agents[t].pc == Fresh && s.agents[t].level < |s.levels|
    ensures Run(4, r') == Some(s')
    ensures s' == s.(agents := s.agents[t := s.agents[t].(pc := Gone)], markOf := s.markOf[t := Free],
                     levelOf := s.levelOf[t := s.agents[t].level])
  {
    r', s' := r, s;
    r' := Then(r', s', Serving(t, RegisterState));
    s' := Step(s', Serving(t, RegisterState)).value;
    r' := Then(r', s', Serving(t, RegisterLevel));
    s' := Step(s', Serving(t, RegisterLevel)).value;
    r' := Then(r', s', Serving(t, TestStop));
    s' := Step(s', Serving(t, TestStop)).value;
    assert s'.agents == s.agents[t := s.agents[t].(pc := Gone)];
  }

  /** With a call from outside that has made a thread and not queued it when the flag is set, `close` can
      return while that thread is alive and past its cancel test, and it then starts a task. */
  lemma LateCallDefeatsShutdown() returns (r: seq<Action>, more: seq<Action>)
    ensures Run(4, r).Some? && Run(4, r).value.closed && Run(4, r + more).Some?
    ensures |Run(4, r).value.levels| == |Run(4, r + more).value.levels| == LEVELS
    ensures Run(4, r).value.levels[0].taken == [] && Run(4, r + more).value.levels[0].taken == [FIRST]
    ensures !OrderlyRun(4, r + more) && !PrudentRun(4, r + more)
  {
    var s: State;
    r, s := CloseReturns();
    var all := Then(r, s, Serving(2, Wake));
    s := Step(s, Serving(2, Wake)).value;
    all := Then(all, s, Serving(2, MarkWorking));
    s := Step(s, Serving(2, MarkWorking)).value;
    all := Then(all, s, Serving(2, PopTask));
    more := [Serving(2, Wake), Serving(2, MarkWorking), Serving(2, PopTask)];
    assert all == r + more;
    if OrderlyRun(4, all) {
      ShutdownIsFinal(4, r, more);
    }
    if PrudentRun(4, all) {
      NoTaskStartsAfterClose(4, r, more);
    }
  }
}
