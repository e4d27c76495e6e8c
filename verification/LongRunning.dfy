/** `LongRunningTask` as a state machine: any number of threads call its operations, each access to its
    fields is one step, and workers begin and finish at any time. */
module LongRunning {
  import opened Wrappers

  type Tid = nat

  datatype Op = Start | Stop | StopNoThrow | WaitForStop | Dispose

  /** Where a thread is in a call; every place but `Entering` is under the lock. */
  datatype Pc =
    | Entering(op: Op)               // about to take the lock
    | Testing(op: Op)                // about to test the disposed flag
    | FindingWorker                  // Start: about to test for a worker
    | Renewing                       // Start: about to replace the cancel source
    | Publishing(token: nat)         // Start: about to publish the token
    | Creating(token: nat)           // Start: about to create and start the worker
    | Storing(made: nat)             // Start: about to remember the worker
    | ReadingWorker(op: Op)          // a stop or a plain wait: about to read the worker
    | Clearing(op: Op, task: nat)    // a stop: about to forget the worker
    | Cancelling(op: Op, task: nat)  // a stop: about to cancel the source
    | Awaiting(op: Op, task: nat)    // waiting for the worker
    | Leaving(op: Op)                // about to release the lock

  datatype Status = Scheduled | Running | Finished

  datatype Worker = Worker(token: nat, status: Status)

  /** The fields of the object, the lock, the callers, and every worker and cancel source made so far. */
  datatype State = State(
    lock: Option<Tid>, calls: map<Tid, Pc>,
    worker: Option<nat>, source: Option<nat>, token: Option<nat>, disposed: bool,
    workers: seq<Worker>, sources: nat, cancelled: set<nat>, disposals: nat)

  const INITIAL := State(None, map[], None, None, None, false, [], 0, {}, 0)

  datatype Action =
    | Call(t: Tid, op: Op)
    | Advance(t: Tid)               // the next step of a call
    | TimeOut(t: Tid)               // a wait gives up on a worker that is not finished
    | Throw(t: Tid)                 // a stop fails while cancelling the source, and skips the wait
    | Begin(w: nat)                 // a worker gets to run, or finds its token cancelled
    | Finish(w: nat)                // a worker completes or fails
    | CancelFromInside              // the protected `Cancel`, which takes no lock

  function At(s: State, t: Tid, pc: Pc): State {
    s.(calls := s.calls[t := pc])
  }

  function Left(s: State, t: Tid): State {
    s.(calls := s.calls - {t})
  }

  function Advanced(s: State, t: Tid): Option<State>
    requires t in s.calls
  {
    match s.calls[t]
    case Entering(op) => if s.lock.None? then Some(At(s, t, Testing(op)).(lock := Some(t))) else None
    case Testing(op) =>
      if s.disposed then Some(At(s, t, Leaving(op)))
      else if op == Start then Some(At(s, t, FindingWorker))
      else Some(At(s, t, ReadingWorker(op)).(disposed := op == Dispose))
    case FindingWorker => Some(At(s, t, if s.worker.None? then Renewing else Leaving(Start)))
    case Renewing => Some(At(s, t, Publishing(s.sources)).(source := Some(s.sources), sources := s.sources + 1))
    case Publishing(n) => Some(At(s, t, Creating(n)).(token := Some(n)))
    case Creating(n) => Some(At(s, t, Storing(|s.workers|)).(workers := s.workers + [Worker(n, Scheduled)]))
    case Storing(w) => Some(At(s, t, Leaving(Start)).(worker := Some(w)))
    case ReadingWorker(op) =>
      if s.worker.None? then Some(At(s, t, Leaving(op)))
      else if op == WaitForStop then Some(At(s, t, Awaiting(op, s.worker.value)))
      else Some(At(s, t, Clearing(op, s.worker.value)))
    case Clearing(op, w) => Some(At(s, t, Cancelling(op, w)).(worker := None))
    case Cancelling(op, w) =>
      if s.source.None? then Some(At(s, t, Leaving(op)))
      else Some(At(s, t, Awaiting(op, w)).(cancelled := s.cancelled + {s.source.value}))
    case Awaiting(op, w) =>
      if w < |s.workers| && s.workers[w].status == Finished then Some(At(s, t, Leaving(op))) else None
    case Leaving(op) =>
      Some(Left(s, t).(lock := None, disposals := if op == Dispose then s.disposals + 1 else s.disposals))
  }

  /** Whether the stop timeout is infinite, and whether a callback registered on a token may throw out
      of the source's `Cancel`. */
  datatype Setting = Setting(infinite: bool, callbacksThrow: bool)

  function Step(g: Setting, s: State, a: Action): Option<State> {
    match a
    case Call(t, op) => if t in s.calls then None else Some(At(s, t, Entering(op)))
    case Advance(t) => if t in s.calls then Advanced(s, t) else None
    case TimeOut(t) =>
      if t !in s.calls || !s.calls[t].Awaiting? || s.calls[t].task >= |s.workers| then None
      else if s.workers[s.calls[t].task].status == Finished || (g.infinite && s.calls[t].op != WaitForStop) then None
      else Some(At(s, t, Leaving(s.calls[t].op)))
    case Throw(t) =>
      if g.callbacksThrow && t in s.calls && s.calls[t].Cancelling? && s.source.Some?
      then Some(At(s, t, Leaving(s.calls[t].op)).(cancelled := s.cancelled + {s.source.value}))
      else None
    case Begin(w) =>
      if w < |s.workers| && s.workers[w].status == Scheduled
      then Some(s.(workers := s.workers[w := s.workers[w].(status :=
             if s.workers[w].token in s.cancelled then Finished else Running)]))
      else None
    case Finish(w) =>
      if w < |s.workers| && s.workers[w].status == Running
      then Some(s.(workers := s.workers[w := s.workers[w].(status := Finished)]))
      else None
    case CancelFromInside =>
      if s.source.Some? then Some(s.(cancelled := s.cancelled + {s.source.value})) else None
  }

  function Run(g: Setting, actions: seq<Action>): Option<State> {
    if actions == [] then Some(INITIAL)
    else
      match Run(g, actions[..|actions| - 1])
      case None => None
      case Some(s) => Step(g, s, actions[|actions| - 1])
  }

  // ---------------------------------------------------------------- the invariant

  predicate Live(s: State, w: nat) {
    w < |s.workers| && s.workers[w].status != Finished
  }

  /** Where the lock's holder is. */
  function Held(s: State): Option<Pc> {
    if s.lock.Some? && s.lock.value in s.calls then Some(s.calls[s.lock.value]) else None
  }

  /** The worker that is accounted for: the one remembered, or the one the lock's holder has in hand. */
  function Tracked(s: State): Option<nat> {
    if s.worker.Some? then s.worker
    else
      match Held(s)
      case Some(Storing(w)) => Some(w)
      case Some(Cancelling(_, w)) => Some(w)
      case Some(Awaiting(_, w)) => Some(w)
      case _ => None
  }

  predicate HoldsLock(s: State, t: Tid) {
    t in s.calls && !s.calls[t].Entering?
  }

  ghost predicate Locked(s: State) {
    forall t: Tid :: HoldsLock(s, t) <==> s.lock == Some(t)
  }

  /** What the lock's holder knows at each place. */
  predicate Knows(s: State, pc: Pc) {
    match pc
    case FindingWorker => !s.disposed
    case Renewing => !s.disposed && s.worker.None?
    case Publishing(n) => !s.disposed && s.worker.None? && n == |s.workers| && s.source == Some(n)
    case Creating(n) => !s.disposed && s.worker.None? && n == |s.workers| && s.source == Some(n) && s.token == Some(n)
    case Storing(w) => !s.disposed && s.worker.None? && w < |s.workers| && s.source == s.token == Some(w)
    case ReadingWorker(op) => op != Start && s.disposed == (op == Dispose)
    case Clearing(op, w) => op != Start && op != WaitForStop && s.worker == Some(w) && s.disposed == (op == Dispose)
    case Cancelling(op, w) =>
      op != Start && op != WaitForStop && s.worker.None? && s.source == s.token == Some(w) && w < |s.workers| && s.disposed == (op == Dispose)
    case Awaiting(op, w) => op != Start && w < |s.workers| && s.source == s.token == Some(w) && s.disposed == (op == Dispose)
      && if op == WaitForStop then s.worker == Some(w) else s.worker.None? && w in s.cancelled
    case Leaving(op) =>
      && (op == Dispose ==> s.disposed) && (op == Start ==> s.disposed || s.worker.Some?)
      && (op != Start && op != WaitForStop ==> s.worker.None?)
    case _ => true
  }

  /** The thread that is disposing is still at it. */
  predicate Disposing(s: State) {
    match Held(s)
    case Some(ReadingWorker(op)) => op == Dispose
    case Some(Clearing(op, _)) => op == Dispose
    case Some(Cancelling(op, _)) => op == Dispose
    case Some(Awaiting(op, _)) => op == Dispose
    case _ => false
  }

  predicate BetweenSourceAndWorker(s: State) {
    Held(s).Some? && (Held(s).value.Publishing? || Held(s).value.Creating?)
  }

  predicate Fields(s: State) {
    && (Held(s).Some? ==> Knows(s, Held(s).value))
    && s.sources == |s.workers| + (if BetweenSourceAndWorker(s) then 1 else 0)
    && (s.worker.Some? ==> s.worker.value < |s.workers| && s.source == s.token == s.worker)
    && (s.disposed && !Disposing(s) ==> s.worker.None?)
    && (s.disposals > 0 ==> s.disposed && !Disposing(s))
  }

  /** Worker n holds the n-th token. */
  ghost predicate Tokens(s: State) {
    forall w: nat :: 0 <= w < |s.workers| ==> s.workers[w].token == w
  }

  /** What every run keeps. */
  ghost predicate Base(s: State) {
    Locked(s) && Fields(s) && Tokens(s)
  }

  /** Every live worker is the one accounted for. */
  ghost predicate Workers(s: State) {
    forall w: nat :: Live(s, w) ==> Tracked(s) == Some(w)
  }

  /** What every run keeps in which no stop gives up. */
  ghost predicate Inv(s: State) {
    Base(s) && Workers(s)
  }

  /** A stop that goes on without its worker having finished. */
  predicate GivesUp(s: State, a: Action) {
    a.Throw? || (a.TimeOut? && a.t in s.calls && s.calls[a.t].Awaiting? && s.calls[a.t].op != WaitForStop)
  }

  predicate OfCall(a: Action) {
    a.Call? || a.Advance? || a.TimeOut? || a.Throw?
  }

  lemma StepKeepsHolder(g: Setting, s: State, a: Action, t: Tid)
    requires Locked(s) && Step(g, s, a).Some?
    ensures HoldsLock(Step(g, s, a).value, t) <==> Step(g, s, a).value.lock == Some(t)
  {
    assert HoldsLock(s, t) <==> s.lock == Some(t);
    if OfCall(a) {
      assert HoldsLock(s, a.t) <==> s.lock == Some(a.t);
    }
  }

  lemma StepKeepsLock(g: Setting, s: State, a: Action)
    requires Locked(s) && Step(g, s, a).Some?
    ensures Locked(Step(g, s, a).value)
  {
    forall t: Tid ensures HoldsLock(Step(g, s, a).value, t) <==> Step(g, s, a).value.lock == Some(t) {
      StepKeepsHolder(g, s, a, t);
    }
  }

  /** Where the lock's holder is after a step. */
  lemma HeldAfter(g: Setting, s: State, a: Action)
    requires Locked(s) && Step(g, s, a).Some?
    ensures var s' := Step(g, s, a).value;
      if a.Call? || !OfCall(a) then Held(s') == Held(s)
      else if s.calls[a.t].Leaving? then Held(s') == None && Held(s) == Some(s.calls[a.t])
      else Held(s') == Some(s'.calls[a.t]) && Held(s) == if s.calls[a.t].Entering? then None else Some(s.calls[a.t])
  {
    if OfCall(a) {
      assert HoldsLock(s, a.t) <==> s.lock == Some(a.t);
    }
    if s.lock.Some? {
      assert HoldsLock(s, s.lock.value);
    }
  }

  predicate InStart(pc: Pc) {
    pc.FindingWorker? || pc.Renewing? || pc.Publishing? || pc.Creating? || pc.Storing?
  }

  lemma StartKeepsFields(g: Setting, s: State, t: Tid)
    requires Base(s) && t in s.calls && InStart(s.calls[t]) && Step(g, s, Advance(t)).Some?
    ensures Fields(Step(g, s, Advance(t)).value)
  {
    HeldAfter(g, s, Advance(t));
  }

  predicate InStop(pc: Pc) {
    pc.ReadingWorker? || pc.Clearing? || pc.Cancelling? || pc.Awaiting?
  }

  lemma StopKeepsFields(g: Setting, s: State, t: Tid)
    requires Base(s) && t in s.calls && InStop(s.calls[t]) && Step(g, s, Advance(t)).Some?
    ensures Fields(Step(g, s, Advance(t)).value)
  {
    HeldAfter(g, s, Advance(t));
  }

  lemma StepKeepsFields(g: Setting, s: State, a: Action)
    requires Base(s) && Step(g, s, a).Some?
    ensures Fields(Step(g, s, a).value)
  {
    if a.Advance? && InStart(s.calls[a.t]) {
      StartKeepsFields(g, s, a.t);
    } else if a.Advance? && InStop(s.calls[a.t]) {
      StopKeepsFields(g, s, a.t);
    } else {
      HeldAfter(g, s, a);
    }
  }

  lemma StepKeepsTokens(g: Setting, s: State, a: Action)
    requires Base(s) && Step(g, s, a).Some?
    ensures Tokens(Step(g, s, a).value)
  {
    HeldAfter(g, s, a);
  }

  lemma StepKeepsBase(g: Setting, s: State, a: Action)
    requires Base(s) && Step(g, s, a).Some?
    ensures Base(Step(g, s, a).value)
  {
    StepKeepsLock(g, s, a);
    StepKeepsFields(g, s, a);
    StepKeepsTokens(g, s, a);
  }

  lemma StartKeepsWorkers(g: Setting, s: State, t: Tid)
    requires Inv(s) && t in s.calls && InStart(s.calls[t]) && Step(g, s, Advance(t)).Some?
    ensures Workers(Step(g, s, Advance(t)).value)
  {
    var s' := Step(g, s, Advance(t)).value;
    HeldAfter(g, s, Advance(t));
    forall w: nat | Live(s', w) ensures Tracked(s') == Some(w) {
      assert w < |s.workers| ==> Live(s, w);
    }
  }

  lemma StopKeepsWorkers(g: Setting, s: State, t: Tid)
    requires Inv(s) && t in s.calls && !InStart(s.calls[t]) && Step(g, s, Advance(t)).Some?
    ensures Workers(Step(g, s, Advance(t)).value)
  {
    var s' := Step(g, s, Advance(t)).value;
    HeldAfter(g, s, Advance(t));
    assert s'.workers == s.workers;
    forall w: nat | Live(s', w) ensures Tracked(s') == Some(w) {
      assert Live(s, w);
    }
  }

  lemma StepKeepsWorkers(g: Setting, s: State, a: Action)
    requires Inv(s) && Step(g, s, a).Some? && !GivesUp(s, a)
    ensures Workers(Step(g, s, a).value)
  {
    var s' := Step(g, s, a).value;
    if a.Advance? && InStart(s.calls[a.t]) {
      StartKeepsWorkers(g, s, a.t);
    } else if a.Advance? {
      StopKeepsWorkers(g, s, a.t);
    } else {
      HeldAfter(g, s, a);
      forall w: nat | Live(s', w) ensures Tracked(s') == Some(w) {
        assert Live(s, w);
      }
    }
  }

  lemma StepKeepsInv(g: Setting, s: State, a: Action)
    requires Inv(s) && Step(g, s, a).Some? && !GivesUp(s, a)
    ensures Inv(Step(g, s, a).value)
  {
    StepKeepsBase(g, s, a);
    StepKeepsWorkers(g, s, a);
  }

  // ---------------------------------------------------------------- every run

  /** Some stop in the run went on without its worker having finished. */
  predicate SomeStopGaveUp(g: Setting, actions: seq<Action>) {
    actions != [] &&
    var front := actions[..|actions| - 1];
    SomeStopGaveUp(g, front) || (Run(g, front).Some? && GivesUp(Run(g, front).value, actions[|actions| - 1]))
  }

  lemma {:induction false} RunKeepsBase(g: Setting, actions: seq<Action>)
    requires Run(g, actions).Some?
    ensures Base(Run(g, actions).value)
  {
    if actions == [] {
      forall t: Tid ensures HoldsLock(INITIAL, t) <==> INITIAL.lock == Some(t) {}
    } else {
      var front := actions[..|actions| - 1];
      RunKeepsBase(g, front);
      StepKeepsBase(g, Run(g, front).value, actions[|actions| - 1]);
    }
  }

  lemma {:induction false} RunKeepsInv(g: Setting, actions: seq<Action>)
    requires Run(g, actions).Some? && !SomeStopGaveUp(g, actions)
    ensures Inv(Run(g, actions).value)
  {
    RunKeepsBase(g, actions);
    if actions != [] {
      var front := actions[..|actions| - 1];
      RunKeepsInv(g, front);
      StepKeepsInv(g, Run(g, front).value, actions[|actions| - 1]);
    }
  }

  /** With an infinite timeout and quiet callbacks no stop ever goes on early. */
  lemma {:induction false} PatientNeverGivesUp(g: Setting, actions: seq<Action>)
    requires g.infinite && !g.callbacksThrow && Run(g, actions).Some?
    ensures !SomeStopGaveUp(g, actions)
  {
    if actions != [] {
      PatientNeverGivesUp(g, actions[..|actions| - 1]);
    }
  }

  /** At most one worker is live, and it holds the token made with it, which is the published one and
      the one a stop will cancel. */
  ghost predicate SingleWorker(s: State) {
    && (forall v: nat, w: nat :: Live(s, v) && Live(s, w) ==> v == w)
    && (forall w: nat :: Live(s, w) ==> s.workers[w].token == w && s.source == s.token == Some(w))
  }

  /** Once a `Dispose` has returned nothing is live. */
  ghost predicate QuietAfterDispose(s: State) {
    s.disposals > 0 ==> forall w: nat :: !Live(s, w)
  }

  lemma InvMeansSafe(s: State)
    requires Inv(s)
    ensures SingleWorker(s) && QuietAfterDispose(s)
  {
    forall w: nat | Live(s, w) ensures s.disposals == 0 && s.source == s.token == Some(w) {
      assert Tracked(s) == Some(w);
    }
  }

  lemma SafeUnlessGivenUp(g: Setting, actions: seq<Action>)
    requires Run(g, actions).Some? && !SomeStopGaveUp(g, actions)
    ensures SingleWorker(Run(g, actions).value) && QuietAfterDispose(Run(g, actions).value)
  {
    RunKeepsInv(g, actions);
    InvMeansSafe(Run(g, actions).value);
  }

  lemma NothingStartsWhenDisposed(g: Setting, s: State, a: Action)
    requires Base(s) && s.disposals > 0 && Step(g, s, a).Some?
    ensures |Step(g, s, a).value.workers| == |s.workers| && Step(g, s, a).value.disposals > 0
  {
    if OfCall(a) {
      assert HoldsLock(s, a.t) <==> s.lock == Some(a.t);
    }
  }

  /** After a `Dispose` has returned no worker is ever made again, in any run; and none is live, unless a stop
      has given up. */
  lemma {:induction false} DisposeIsFinal(g: Setting, actions: seq<Action>, more: seq<Action>)
    requires Run(g, actions).Some? && Run(g, actions).value.disposals > 0 && Run(g, actions + more).Some?
    ensures var s, s' := Run(g, actions).value, Run(g, actions + more).value;
      && s'.disposals > 0 && |s'.workers| == |s.workers|
      && (!SomeStopGaveUp(g, actions + more) ==> forall w: nat :: !Live(s', w))
  {
    var all := actions + more;
    if more == [] {
      assert all == actions;
    } else {
      var front := more[..|more| - 1];
      assert all[..|all| - 1] == actions + front;
      DisposeIsFinal(g, actions, front);
      RunKeepsBase(g, actions + front);
      NothingStartsWhenDisposed(g, Run(g, actions + front).value, all[|all| - 1]);
    }
    if !SomeStopGaveUp(g, all) {
      SafeUnlessGivenUp(g, all);
    }
  }

  // ---------------------------------------------------------------- what the operations do

  predicate Stops(op: Op) {
    op == Stop || op == StopNoThrow || op == Dispose
  }

  lemma HolderKnows(s: State, t: Tid)
    requires Base(s) && HoldsLock(s, t)
    ensures Knows(s, s.calls[t])
  {
    assert s.lock == Some(t);
  }

  /** In every run, each stopping operation has cancelled its worker's own token before it waits. */
  lemma StopCancelsItsWorker(g: Setting, actions: seq<Action>, t: Tid)
    requires Run(g, actions).Some?
    ensures var s := Run(g, actions).value;
      t in s.calls && s.calls[t].Awaiting? && s.calls[t].op != WaitForStop ==>
        && Stops(s.calls[t].op) && s.calls[t].task < |s.workers|
        && s.workers[s.calls[t].task].token in s.cancelled
  {
    RunKeepsBase(g, actions);
    var s := Run(g, actions).value;
    if HoldsLock(s, t) {
      HolderKnows(s, t);
    }
  }

  /** Nothing but a stopping operation, in its place, and the protected `Cancel` cancels a token: the latter that of
      the current source, the former no other than its worker's. */
  lemma CancelsOnlyToStop(g: Setting, s: State, a: Action)
    requires Base(s) && Step(g, s, a).Some? && Step(g, s, a).value.cancelled != s.cancelled
    ensures (a.CancelFromInside? && s.source.Some? && Step(g, s, a).value.cancelled == s.cancelled + {s.source.value}) ||
      (&& (a.Advance? || a.Throw?) && a.t in s.calls && s.calls[a.t].Cancelling? && Stops(s.calls[a.t].op)
       && s.calls[a.t].task < |s.workers|
       && Step(g, s, a).value.cancelled == s.cancelled + {s.workers[s.calls[a.t].task].token})
  {
    if (a.Advance? || a.Throw?) && HoldsLock(s, a.t) {
      HolderKnows(s, a.t);
    }
  }

  /** A stopping operation that returns leaves no worker remembered, in any run, and none live, unless a stop has
      given up; a `Start` that returns leaves one remembered, unless the object is disposed. */
  lemma OperationsLeave(g: Setting, actions: seq<Action>, t: Tid)
    requires Run(g, actions).Some? && t in Run(g, actions).value.calls && Run(g, actions).value.calls[t].Leaving?
    ensures var s := Run(g, actions).value;
      var op := s.calls[t].op;
      && (Stops(op) ==> s.worker.None? && (!SomeStopGaveUp(g, actions) ==> forall w: nat :: !Live(s, w)))
      && (op == Dispose ==> s.disposed) && (op == Start && !s.disposed ==> s.worker.Some?)
  {
    var s := Run(g, actions).value;
    RunKeepsBase(g, actions);
    HolderKnows(s, t);
    assert HoldsLock(s, t) <==> s.lock == Some(t);
    if Stops(s.calls[t].op) && !SomeStopGaveUp(g, actions) {
      RunKeepsInv(g, actions);
      forall w: nat ensures !Live(s, w) { assert Live(s, w) ==> Tracked(s) == Some(w); }
    }
  }

  predicate Waits(pc: Pc) {
    match pc
    case Entering(op) => op == WaitForStop
    case Testing(op) => op == WaitForStop
    case ReadingWorker(op) => op == WaitForStop
    case Awaiting(op, _) => op == WaitForStop
    case Leaving(op) => op == WaitForStop
    case _ => false
  }

  /** A plain wait changes nothing but who holds the lock, and ends by itself only when there is no worker or the
      worker has finished, or when the object is disposed. */
  lemma PlainWaitOnlyWaits(g: Setting, s: State, t: Tid)
    requires Base(s) && t in s.calls && Waits(s.calls[t]) && Step(g, s, Advance(t)).Some?
    ensures var s' := Step(g, s, Advance(t)).value;
      && s'.(lock := s.lock, calls := s.calls) == s
      && (t in s'.calls ==> Waits(s'.calls[t]))
      && (t in s'.calls && s'.calls[t].Leaving? ==> s.disposed || s.worker.None? || !Live(s, s.worker.value))
  {
    if HoldsLock(s, t) {
      HolderKnows(s, t);
    }
  }

  /** A wait can give up on an unfinished worker exactly if it is a plain wait, which has a timeout of its own, or if
      the stop timeout is finite; cancelling can throw exactly if a callback may. */
  lemma GivesUpExactly(g: Setting, s: State, t: Tid)
    requires Base(s) && t in s.calls
    ensures Step(g, s, TimeOut(t)).Some? <==>
      s.calls[t].Awaiting? && Live(s, s.calls[t].task) && (s.calls[t].op == WaitForStop || !g.infinite)
    ensures Step(g, s, Throw(t)).Some? <==> s.calls[t].Cancelling? && g.callbacksThrow
  {
    if HoldsLock(s, t) {
      HolderKnows(s, t);
    }
  }

  /** A worker gets to run only if its token is not cancelled by then. */
  lemma RunsOnlyUncancelled(g: Setting, s: State, a: Action, w: nat)
    requires Step(g, s, a).Some? && w < |Step(g, s, a).value.workers| && Step(g, s, a).value.workers[w].status == Running
    ensures w < |s.workers| && s.workers[w].token == Step(g, s, a).value.workers[w].token
    ensures s.workers[w].status == Running || (s.workers[w].status == Scheduled && s.workers[w].token !in s.cancelled)
  {
  }

  /** A worker that gets its turn runs if and only if its token is not cancelled; otherwise it is finished. */
  lemma BeginsUnlessCancelled(g: Setting, s: State, w: nat)
    requires w < |s.workers| && s.workers[w].status == Scheduled
    ensures Step(g, s, Begin(w)).Some? && |Step(g, s, Begin(w)).value.workers| == |s.workers|
    ensures Step(g, s, Begin(w)).value.workers[w].status == if s.workers[w].token in s.cancelled then Finished else Running
  {
  }

  /** The operation a thread is in. */
  function OpOf(pc: Pc): Op {
    if InStart(pc) then Start else pc.op
  }

  /** A step of a thread's own call keeps its operation, from its first place to its last. */
  lemma OwnStepKeepsOperation(g: Setting, s: State, a: Action)
    requires OfCall(a) && Step(g, s, a).Some?
    ensures var s', t := Step(g, s, a).value, a.t;
      && (t in s.calls && t in s'.calls ==> OpOf(s'.calls[t]) == OpOf(s.calls[t]))
      && (t !in s.calls ==> t in s'.calls && a == Call(t, OpOf(s'.calls[t])) && s'.calls[t].Entering?)
      && (t in s.calls && t !in s'.calls ==> a == Advance(t) && s.calls[t].Leaving?)
  {
  }

  /** No step touches another thread's call. */
  lemma OtherCallsStay(g: Setting, s: State, a: Action, t: Tid)
    requires Step(g, s, a).Some? && !(OfCall(a) && a.t == t)
    ensures var s' := Step(g, s, a).value;
      (t in s'.calls <==> t in s.calls) && (t in s.calls ==> s'.calls[t] == s.calls[t])
  {
  }

  /** A call is never stuck, except before the lock while it is held, and in a wait for a worker that has not
      finished; a worker that has not finished is never stuck. */
  lemma CallsGoOn(g: Setting, s: State, t: Tid)
    requires Base(s) && t in s.calls
    ensures Step(g, s, Advance(t)).Some? <==>
      !(s.calls[t].Entering? && s.lock.Some?) && !(s.calls[t].Awaiting? && Live(s, s.calls[t].task))
    ensures forall w: nat :: Live(s, w) ==> Step(g, s, Begin(w)).Some? || Step(g, s, Finish(w)).Some?
  {
    if HoldsLock(s, t) {
      HolderKnows(s, t);
    }
  }
}
