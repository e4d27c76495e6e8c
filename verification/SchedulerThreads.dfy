/** The creation lock and the thread limit. */
module SchedulerThreads {
  import opened Wrappers
  import opened Scheduler
  import opened SchedulerTheorems

  predicate Critical(at: CallPc) {
    at.Recheck? || at.Make? || at.Enqueue? || at.Unlock?
  }

  predicate CallsAt(s: State, t: Tid, l: nat) {
    t in s.agents && s.agents[t].call.InCall? && s.agents[t].call.level == l
  }

  /** A call between taking and dropping its level's lock is the holder of that lock. */
  ghost predicate LockOk(s: State, t: Tid) {
    t in s.agents && s.agents[t].call.InCall? && s.agents[t].call.level < |s.levels| ==>
      (Critical(s.agents[t].call.at) <==> s.levels[s.agents[t].call.level].lock == Some(t))
  }

  /** A worker that exists was made on its level. */
  ghost predicate MadeOk(s: State, t: Tid) {
    t in s.agents && s.agents[t].Worker? ==>
      s.agents[t].level < |s.levels| && t in s.levels[s.agents[t].level].made
  }

  /** The thread made by the lock holder and not yet put into the thread queue. */
  function Pending(s: State, l: nat): seq<Tid>
    requires l < |s.levels|
  {
    match s.levels[l].lock
    case None => []
    case Some(t) => if CallsAt(s, t, l) && s.agents[t].call.at.Enqueue? then [s.agents[t].call.at.made] else []
  }

  /** The threads made on a level are those joined, those queued and the pending one.  As long as
      the closing thread has taken none, there are never more than the limit, and a holder that has
      passed the second test still finds room. */
  ghost predicate ThreadsOk(s: State, l: nat) {
    l < |s.levels| ==>
      var v := s.levels[l];
      && v.made == v.joined + v.threads + Pending(s, l)
      && (v.joined == [] ==> |v.made| <= v.limit)
      && (v.lock.Some? ==>
            var t := v.lock.value;
            && CallsAt(s, t, l) && Critical(s.agents[t].call.at)
            && (v.joined == [] && s.agents[t].call.at.Make? ==> |v.threads| < v.limit))
  }

  ghost predicate Threads(s: State) {
    |s.levels| == LEVELS && (forall t :: LockOk(s, t)) && (forall t :: MadeOk(s, t)) && (forall l :: ThreadsOk(s, l))
  }

  lemma CallKeepsMade(s: State, t: Tid, a: CallAction, u: Tid)
    requires Threads(s) && StepCall(s, t, a).Some?
    ensures MadeOk(StepCall(s, t, a).value, u)
  {
    assert MadeOk(s, u);
  }

  /** A new call holds no lock: the lock's holder would be inside a call already. */
  lemma BeginKeepsOwnLock(s: State, t: Tid)
    requires Threads(s) && StepCall(s, t, Begin).Some?
    ensures LockOk(StepCall(s, t, Begin).value, t)
  {
    assert ThreadsOk(s, LevelFor(s, t));
  }

  lemma CallKeepsOwnLock(s: State, t: Tid, a: CallAction)
    requires Threads(s) && StepCall(s, t, a).Some?
    ensures LockOk(StepCall(s, t, a).value, t)
  {
    if a.Begin? {
      BeginKeepsOwnLock(s, t);
    } else {
      assert LockOk(s, t) && ThreadsOk(s, s.agents[t].call.level);
    }
  }

  lemma CallKeepsOtherLock(s: State, t: Tid, a: CallAction, u: Tid)
    requires Threads(s) && StepCall(s, t, a).Some? && u != t
    ensures LockOk(StepCall(s, t, a).value, u)
  {
    assert LockOk(s, u) && LockOk(s, t);
  }

  predicate UnderLock(a: CallAction) {
    a.TakeLock? || a.TestSizeAgain? || a.MakeThread? || a.EnqueueThread? || a.DropLock?
  }

  lemma LockedCallKeepsThreads(s: State, t: Tid, a: CallAction, l: nat)
    requires Threads(s) && StepCall(s, t, a).Some? && UnderLock(a)
    ensures ThreadsOk(StepCall(s, t, a).value, l)
  {
    assert ThreadsOk(s, l) && LockOk(s, t);
  }

  lemma CallKeepsThreads(s: State, t: Tid, a: CallAction, l: nat)
    requires Threads(s) && StepCall(s, t, a).Some?
    ensures ThreadsOk(StepCall(s, t, a).value, l)
  {
    if UnderLock(a) {
      LockedCallKeepsThreads(s, t, a, l);
    } else {
      assert ThreadsOk(s, l) && LockOk(s, t);
    }
  }

  /** The two states agree on calls, on which agents are workers, and on a level's threads. */
  ghost predicate SameThreads(s: State, s': State) {
    && |s'.levels| == |s.levels| && s'.agents.Keys == s.agents.Keys
    && (forall u :: u in s.agents ==>
          && s'.agents[u].call == s.agents[u].call && s'.agents[u].Worker? == s.agents[u].Worker?
          && (s.agents[u].Worker? ==> s'.agents[u].level == s.agents[u].level))
    && (forall l :: 0 <= l < |s.levels| ==>
          && s'.levels[l].threads == s.levels[l].threads && s'.levels[l].made == s.levels[l].made
          && s'.levels[l].joined == s.levels[l].joined && s'.levels[l].lock == s.levels[l].lock
          && s'.levels[l].limit == s.levels[l].limit)
  }

  lemma WorkerSameThreads(s: State, t: Tid, a: WorkerAction)
    requires StepWorker(s, t, a).Some?
    ensures SameThreads(s, StepWorker(s, t, a).value)
  {
  }

  lemma SameThreadsKeep(s: State, s': State)
    requires Threads(s) && SameThreads(s, s')
    ensures Threads(s')
  {
    forall u ensures LockOk(s', u) { assert LockOk(s, u); }
    forall u ensures MadeOk(s', u) { assert MadeOk(s, u); }
    forall l: nat ensures ThreadsOk(s', l) {
      assert ThreadsOk(s, l);
      if l < |s.levels| { assert Pending(s', l) == Pending(s, l); }
    }
  }

  lemma PopKeepsThreads(s: State)
    requires Threads(s) && StepCloser(s, PopThread).Some?
    ensures Threads(StepCloser(s, PopThread).value)
  {
    var s' := StepCloser(s, PopThread).value;
    forall u ensures LockOk(s', u) { assert LockOk(s, u); }
    forall u ensures MadeOk(s', u) { assert MadeOk(s, u); }
    forall l: nat ensures ThreadsOk(s', l) {
      assert ThreadsOk(s, l);
      if l < |s.levels| {
        assert Pending(s', l) == Pending(s, l);
        assert s'.levels[l].joined + s'.levels[l].threads == s.levels[l].joined + s.levels[l].threads;
      }
    }
  }

  lemma StepKeepsThreads(s: State, a: Action)
    requires Threads(s) && Step(s, a).Some?
    ensures Threads(Step(s, a).value)
  {
    var s' := Step(s, a).value;
    match a
    case Calling(t, c) =>
      CallFrame(s, t, c);
      forall u ensures LockOk(s', u) { if u == t { CallKeepsOwnLock(s, t, c); } else { CallKeepsOtherLock(s, t, c, u); } }
      forall u ensures MadeOk(s', u) { CallKeepsMade(s, t, c, u); }
      forall l ensures ThreadsOk(s', l) { CallKeepsThreads(s, t, c, l); }
    case Serving(t, w) =>
      WorkerSameThreads(s, t, w);
      SameThreadsKeep(s, s');
    case Closing(c) => if c.PopThread? { PopKeepsThreads(s); } else { SameThreadsKeep(s, s'); }
    case Arrive(_) =>
      forall u ensures LockOk(s', u) { assert LockOk(s, u); }
      forall u ensures MadeOk(s', u) { assert MadeOk(s, u); }
      forall l ensures ThreadsOk(s', l) { assert ThreadsOk(s, l); }
  }
}
