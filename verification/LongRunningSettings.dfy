/** Exactly which settings of a long-running task keep its workers apart. */
module LongRunningSettings {
  import opened Wrappers
  import opened LongRunning

  ghost predicate AlwaysSingle(g: Setting) {
    forall actions :: Run(g, actions).Some? ==> SingleWorker(Run(g, actions).value)
  }

  lemma Then(g: Setting, r: seq<Action>, s: State, a: Action) returns (r': seq<Action>, s': State)
    requires Run(g, r) == Some(s) && Step(g, s, a).Some?
    ensures r' == r + [a] && Run(g, r') == Some(s') == Step(g, s, a)
  {
    r' := r + [a];
    s' := Step(g, s, a).value;
    assert r'[..|r|] == r;
  }

  lemma TakeLock(g: Setting, r: seq<Action>, s: State, t: Tid, op: Op) returns (r': seq<Action>, s': State)
    requires Run(g, r) == Some(s) && t !in s.calls && s.lock.None?
    ensures Run(g, r') == Some(s') && s' == s.(lock := Some(t), calls := s.calls[t := Testing(op)])
  {
    r', s' := Then(g, r, s, Call(t, op));
    r', s' := Then(g, r', s', Advance(t));
    assert s'.calls == s.calls[t := Testing(op)];
  }

  /** A call of `Start` up to the new cancel source. */
  lemma EnterStart(g: Setting, r: seq<Action>, s: State, t: Tid) returns (r': seq<Action>, s': State)
    requires Run(g, r) == Some(s) && t !in s.calls && s.lock.None? && !s.disposed && s.worker.None?
    ensures Run(g, r') == Some(s')
    ensures s' == s.(lock := Some(t), calls := s.calls[t := Publishing(s.sources)], source := Some(s.sources), sources := s.sources + 1)
  {
    r', s' := TakeLock(g, r, s, t, Start);
    r', s' := Then(g, r', s', Advance(t));
    r', s' := Then(g, r', s', Advance(t));
    r', s' := Then(g, r', s', Advance(t));
    assert s'.calls == s.calls[t := Publishing(s.sources)];
  }

  lemma LeaveStart(g: Setting, r: seq<Action>, s: State, t: Tid) returns (r': seq<Action>, s': State)
    requires Run(g, r) == Some(s) && t in s.calls && s.calls[t].Publishing? && s.lock == Some(t)
    ensures Run(g, r') == Some(s')
    ensures var n := s.calls[t].token;
      s' == s.(lock := None, calls := s.calls - {t}, token := Some(n), worker := Some(|s.workers|),
               workers := s.workers + [Worker(n, Scheduled)])
  {
    r', s' := Then(g, r, s, Advance(t));
    r', s' := Then(g, r', s', Advance(t));
    r', s' := Then(g, r', s', Advance(t));
    r', s' := Then(g, r', s', Advance(t));
    assert s'.calls == s.calls - {t};
  }

  lemma PassDisposedTest(g: Setting, r: seq<Action>, s: State, t: Tid, op: Op) returns (r': seq<Action>, s': State)
    requires op == Stop || op == Dispose
    requires Run(g, r) == Some(s) && t !in s.calls && s.lock.None? && !s.disposed
    ensures Run(g, r') == Some(s')
    ensures s' == s.(lock := Some(t), calls := s.calls[t := ReadingWorker(op)], disposed := op == Dispose)
  {
    r', s' := TakeLock(g, r, s, t, op);
    r', s' := Then(g, r', s', Advance(t));
    assert s'.calls == s.calls[t := ReadingWorker(op)];
  }

  /** A call of `Stop` or `Dispose` up to the point where it has forgotten the worker. */
  lemma EnterStop(g: Setting, r: seq<Action>, s: State, t: Tid, op: Op) returns (r': seq<Action>, s': State)
    requires op == Stop || op == Dispose
    requires Run(g, r) == Some(s) && t !in s.calls && s.lock.None? && !s.disposed && s.worker.Some?
    ensures Run(g, r') == Some(s')
    ensures s' == s.(lock := Some(t), calls := s.calls[t := Cancelling(op, s.worker.value)], worker := None, disposed := op == Dispose)
  {
    r', s' := PassDisposedTest(g, r, s, t, op);
    r', s' := Then(g, r', s', Advance(t));
    r', s' := Then(g, r', s', Advance(t));
    assert s'.calls == s.calls[t := Cancelling(op, s.worker.value)];
  }

  /** The rest of it, without waiting for the worker to the end. */
  lemma GiveUp(g: Setting, r: seq<Action>, s: State, t: Tid, op: Op) returns (r': seq<Action>, s': State)
    requires (!g.infinite || g.callbacksThrow) && (op == Stop || op == Dispose)
    requires Run(g, r) == Some(s) && t in s.calls && s.calls[t].Cancelling? && s.calls[t].op == op
    requires s.source.Some? && Live(s, s.calls[t].task)
    ensures Run(g, r') == Some(s')
    ensures s' == s.(lock := None, calls := s.calls - {t}, cancelled := s.cancelled + {s.source.value},
                     disposals := if op == Dispose then s.disposals + 1 else s.disposals)
  {
    r', s' := StopWaiting(g, r, s, t, op);
    r', s' := Then(g, r', s', Advance(t));
    assert s'.calls == s.calls - {t};
  }

  lemma StopWaiting(g: Setting, r: seq<Action>, s: State, t: Tid, op: Op) returns (r': seq<Action>, s': State)
    requires (!g.infinite || g.callbacksThrow) && (op == Stop || op == Dispose)
    requires Run(g, r) == Some(s) && t in s.calls && s.calls[t].Cancelling? && s.calls[t].op == op
    requires s.source.Some? && Live(s, s.calls[t].task)
    ensures Run(g, r') == Some(s')
    ensures s' == s.(calls := s.calls[t := Leaving(op)], cancelled := s.cancelled + {s.source.value})
  {
    if g.callbacksThrow {
      r', s' := Then(g, r, s, Throw(t));
    } else {
      r', s' := Then(g, r, s, Advance(t));
      assert s'.calls[t].Awaiting? && s'.workers == s.workers;
      r', s' := Then(g, r', s', TimeOut(t));
    }
    assert s'.calls == s.calls[t := Leaving(op)];
  }

  /** Start, stop, start: with a stop that gives up, two workers run at once. */
  lemma TwoWorkers(g: Setting) returns (r: seq<Action>, s: State)
    requires !g.infinite || g.callbacksThrow
    ensures Run(g, r) == Some(s)
    ensures |s.workers| == 2 && s.workers[0].status == Running && s.workers[1].status == Running
  {
    r, s := EnterStart(g, [], INITIAL, 0);
    r, s := LeaveStart(g, r, s, 0);
    r, s := Then(g, r, s, Begin(0));
    r, s := EnterStop(g, r, s, 0, Stop);
    r, s := GiveUp(g, r, s, 0, Stop);
    r, s := EnterStart(g, r, s, 0);
    r, s := LeaveStart(g, r, s, 0);
    r, s := Then(g, r, s, Begin(1));
  }

  /** At most one worker is live in every run exactly when stops wait for ever and callbacks never throw. */
  lemma SingleExactlyWhenPatient(g: Setting)
    ensures AlwaysSingle(g) <==> g.infinite && !g.callbacksThrow
  {
    if g.infinite && !g.callbacksThrow {
      forall actions | Run(g, actions).Some? ensures SingleWorker(Run(g, actions).value) {
        PatientNeverGivesUp(g, actions);
        SafeUnlessGivenUp(g, actions);
      }
    } else {
      var r, s := TwoWorkers(g);
      assert Live(s, 0) && Live(s, 1);
    }
  }

  ghost predicate AlwaysQuietAfterDispose(g: Setting) {
    forall actions :: Run(g, actions).Some? ==> QuietAfterDispose(Run(g, actions).value)
  }

  /** Start, dispose: with a stop that gives up, a worker runs on after `Dispose` has returned. */
  lemma LiveAfterDispose(g: Setting) returns (r: seq<Action>, s: State)
    requires !g.infinite || g.callbacksThrow
    ensures Run(g, r) == Some(s) && s.disposals > 0
    ensures |s.workers| == 1 && s.workers[0].status == Running
  {
    r, s := EnterStart(g, [], INITIAL, 0);
    r, s := LeaveStart(g, r, s, 0);
    r, s := Then(g, r, s, Begin(0));
    r, s := EnterStop(g, r, s, 0, Dispose);
    r, s := GiveUp(g, r, s, 0, Dispose);
  }

  /** Nothing is live after a `Dispose` has returned, in every run, under exactly the same settings. */
  lemma QuietExactlyWhenPatient(g: Setting)
    ensures AlwaysQuietAfterDispose(g) <==> g.infinite && !g.callbacksThrow
  {
    if g.infinite && !g.callbacksThrow {
      forall actions | Run(g, actions).Some? ensures QuietAfterDispose(Run(g, actions).value) {
        PatientNeverGivesUp(g, actions);
        SafeUnlessGivenUp(g, actions);
      }
    } else {
      var r, s := LiveAfterDispose(g);
      assert Live(s, 0);
    }
  }
}
