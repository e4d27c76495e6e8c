/** Every task that was ever scheduled is in exactly one place, and each queue is the history of its level. */
module SchedulerTasks {
  import opened Wrappers
  import opened Scheduler
  import opened SchedulerTheorems
  import opened SchedulerThreads
  import opened SchedulerShutdown

  // ---------------------------------------------------------------- histories

  predicate CallsWith(s: State, t: Tid, at: CallPc) {
    t in s.agents && s.agents[t].call.InCall? && s.agents[t].call.at == at
  }

  /** The task of a call for level `l` that goes past its push in a step. */
  function PushedIn(s: State, s': State, a: Action, l: nat): seq<Task> {
    if a.Calling? && CallsWith(s, a.t, AtPush) && s.agents[a.t].call.level == l && !CallsWith(s', a.t, AtPush)
    then [s.agents[a.t].call.task] else []
  }

  /** The task that a worker of level `l` starts in a step. */
  function StartedIn(s: State, s': State, a: Action, l: nat): seq<Task> {
    if a.Serving? && a.t in s.agents && a.t in s'.agents && s'.agents[a.t].Worker? && s'.agents[a.t].level == l
       && s'.agents[a.t].pc.Running? && s.agents[a.t] != s'.agents[a.t]
    then [s'.agents[a.t].pc.task] else []
  }

  /** The task of a call that ends at its test of the cancel flag. */
  function RefusedIn(s: State, s': State, a: Action): seq<Task> {
    if a.Calling? && CallsWith(s, a.t, CancelCheck) && a.t in s'.agents && s'.agents[a.t].call.NoCall?
    then [s.agents[a.t].call.task] else []
  }

  function PushHistory(request: nat, actions: seq<Action>, l: nat): seq<Task> {
    if actions == [] then []
    else
      var front := actions[..|actions| - 1];
      if Run(request, front).None? || Run(request, actions).None? then []
      else PushHistory(request, front, l) + PushedIn(Run(request, front).value, Run(request, actions).value, actions[|actions| - 1], l)
  }

  function StartHistory(request: nat, actions: seq<Action>, l: nat): seq<Task> {
    if actions == [] then []
    else
      var front := actions[..|actions| - 1];
      if Run(request, front).None? || Run(request, actions).None? then []
      else StartHistory(request, front, l) + StartedIn(Run(request, front).value, Run(request, actions).value, actions[|actions| - 1], l)
  }

  function RefusalHistory(request: nat, actions: seq<Action>): seq<Task> {
    if actions == [] then []
    else
      var front := actions[..|actions| - 1];
      if Run(request, front).None? || Run(request, actions).None? then []
      else RefusalHistory(request, front) + RefusedIn(Run(request, front).value, Run(request, actions).value, actions[|actions| - 1])
  }

  lemma CallNotes(s: State, t: Tid, c: CallAction, l: nat)
    requires StepCall(s, t, c).Some? && l < |s.levels|
    ensures var s' := StepCall(s, t, c).value;
      l < |s'.levels| && s'.levels[l].pushed == s.levels[l].pushed + PushedIn(s, s', Calling(t, c), l)
  {
  }

  lemma WorkNotes(s: State, t: Tid, w: WorkerAction, l: nat)
    requires StepWorker(s, t, w).Some? && l < |s.levels|
    ensures var s' := StepWorker(s, t, w).value;
      && l < |s'.levels| && s'.levels[l].pushed == s.levels[l].pushed
      && s'.levels[l].taken == s.levels[l].taken + StartedIn(s, s', Serving(t, w), l)
  {
  }

  lemma StepNotes(s: State, a: Action, l: nat)
    requires Step(s, a).Some? && l < |s.levels|
    ensures var s' := Step(s, a).value;
      && l < |s'.levels| && s'.levels[l].pushed == s.levels[l].pushed + PushedIn(s, s', a, l)
      && s'.levels[l].taken == s.levels[l].taken + StartedIn(s, s', a, l)
  {
    match a
    case Calling(t, c) =>
      CallNotes(s, t, c, l);
      CallFrame(s, t, c);
    case Serving(t, w) => WorkNotes(s, t, w, l);
    case _ =>
  }

  /** In every run, a level's log of pushed tasks is the sequence of the tasks of the calls that went past their
      push, and its log of taken tasks the sequence of the tasks its workers started, each in order. */
  lemma {:induction false} QueuesAreHistories(request: nat, actions: seq<Action>, l: nat)
    requires Run(request, actions).Some? && l < LEVELS
    ensures var s := Run(request, actions).value;
      && |s.levels| == LEVELS && s.levels[l].pushed == PushHistory(request, actions, l)
      && s.levels[l].taken == StartHistory(request, actions, l)
  {
    if actions != [] {
      var front := actions[..|actions| - 1];
      QueuesAreHistories(request, front, l);
      EveryRunIsSafe(request, actions);
      StepNotes(Run(request, front).value, actions[|actions| - 1], l);
    }
  }

  /** First in, first out, by the runs' own histories: what a level's workers have started so far is the beginning
      of what was pushed there, and the rest is still queued. */
  lemma StartedInOrder(request: nat, actions: seq<Action>, l: nat)
    requires Run(request, actions).Some? && l < LEVELS
    ensures |Run(request, actions).value.levels| == LEVELS
    ensures StartHistory(request, actions, l) + Run(request, actions).value.levels[l].tasks == PushHistory(request, actions, l)
  {
    QueuesAreHistories(request, actions, l);
    EveryRunIsSafe(request, actions);
    assert LevelOk(Run(request, actions).value, l);
  }

  // ---------------------------------------------------------------- places

  /** Where a task can be: in a call that has neither pushed it nor been refused, in a level's log of pushed
      tasks, or among the refused ones. */
  datatype Place = Hand(t: Tid) | Log(level: nat, i: nat) | Refusal(i: nat)

  function TaskAt(s: State, refused: seq<Task>, p: Place): Option<Task> {
    match p
    case Hand(t) => if CallsWith(s, t, CancelCheck) || CallsWith(s, t, AtPush) then Some(s.agents[t].call.task) else None
    case Log(l, i) => if l < |s.levels| && i < |s.levels[l].pushed| then Some(s.levels[l].pushed[i]) else None
    case Refusal(i) => if i < |refused| then Some(refused[i]) else None
  }

  predicate Holds(s: State, refused: seq<Task>, p: Place, id: nat) {
    TaskAt(s, refused, p).Some? && TaskAt(s, refused, p).value.id == id
  }

  ghost predicate Somewhere(s: State, refused: seq<Task>, id: nat) {
    exists p: Place :: Holds(s, refused, p, id)
  }

  /** Ids that were given out and places that hold a task correspond one to one. */
  ghost predicate Accounted(s: State, refused: seq<Task>) {
    && (forall p: Place, id: nat :: Holds(s, refused, p, id) ==> id < s.nextTask)
    && (forall p: Place, q: Place, id: nat :: Holds(s, refused, p, id) && Holds(s, refused, q, id) ==> p == q)
    && (forall id: nat :: id < s.nextTask ==> Somewhere(s, refused, id))
  }

  /** What a step does to the places: nothing, a task goes from one to another, or a new task appears. */
  datatype Change = Nothing | Moves(source: Place, target: Place) | Appears(target: Place)

  function ChangeOf(s: State, refused: seq<Task>, a: Action): Change {
    if !a.Calling? || a.t !in s.agents then Nothing
    else if a.call.Begin? then Appears(Hand(a.t))
    else if !s.agents[a.t].call.InCall? || s.agents[a.t].call.level >= |s.levels| then Nothing
    else if a.call.PushTask? then Moves(Hand(a.t), Log(s.agents[a.t].call.level, |s.levels[s.agents[a.t].call.level].pushed|))
    else if a.call.TestCancel? && s.cancel && s.agents[a.t].call.level == 0 then Moves(Hand(a.t), Refusal(|refused|))
    else Nothing
  }

  ghost predicate Changed(s: State, r: seq<Task>, s': State, r': seq<Task>, c: Change) {
    match c
    case Nothing => s'.nextTask == s.nextTask && forall p: Place :: TaskAt(s', r', p) == TaskAt(s, r, p)
    case Moves(x, y) =>
      && s'.nextTask == s.nextTask && x != y && TaskAt(s, r, x).Some? && TaskAt(s, r, y) == None
      && TaskAt(s', r', x) == None && TaskAt(s', r', y) == TaskAt(s, r, x)
      && forall p: Place :: p != x && p != y ==> TaskAt(s', r', p) == TaskAt(s, r, p)
    case Appears(y) =>
      && s'.nextTask == s.nextTask + 1 && TaskAt(s, r, y) == None && Holds(s', r', y, s.nextTask)
      && forall p: Place :: p != y ==> TaskAt(s', r', p) == TaskAt(s, r, p)
  }

  lemma ChangeKeepsAccount(s: State, r: seq<Task>, s': State, r': seq<Task>, c: Change)
    requires Accounted(s, r) && Changed(s, r, s', r', c)
    ensures Accounted(s', r')
  {
    forall id: nat | id < s'.nextTask ensures Somewhere(s', r', id) {
      if id < s.nextTask {
        assert Somewhere(s, r, id);
        var p: Place :| Holds(s, r, p, id);
        assert if c.Moves? && p == c.source then Holds(s', r', c.target, id) else Holds(s', r', p, id);
      } else {
        assert Holds(s', r', c.target, id);
      }
    }
    forall p: Place, id: nat | Holds(s', r', p, id)
      ensures id < s'.nextTask
      ensures if c.Appears? && p == c.target then id == s.nextTask else Holds(s, r, Before(c, p), id)
    {
      assert if c.Appears? && p == c.target then id == s.nextTask else Holds(s, r, Before(c, p), id);
    }
    forall p: Place, q: Place, id: nat | Holds(s', r', p, id) && Holds(s', r', q, id) ensures p == q {
      assert !(c.Appears? && p == c.target) ==> Holds(s, r, Before(c, p), id);
      assert !(c.Appears? && q == c.target) ==> Holds(s, r, Before(c, q), id);
    }
  }

  /** Where the task now at `p` was before. */
  function Before(c: Change, p: Place): Place {
    if c.Moves? && p == c.target then c.source else p
  }

  // ---------------------------------------------------------------- steps

  /** The task a thread has in hand. */
  function InHand(s: State, t: Tid): Option<Task> {
    if CallsWith(s, t, CancelCheck) || CallsWith(s, t, AtPush) then Some(s.agents[t].call.task) else None
  }

  ghost predicate SamePlaces(s: State, s': State) {
    && s'.nextTask == s.nextTask && |s'.levels| == |s.levels|
    && (forall l :: 0 <= l < |s.levels| ==> s'.levels[l].pushed == s.levels[l].pushed)
    && (forall t: Tid :: InHand(s', t) == InHand(s, t))
  }

  lemma SameMeansNothing(s: State, s': State, r: seq<Task>)
    requires SamePlaces(s, s')
    ensures Changed(s, r, s', r, Nothing)
  {
    forall p: Place ensures TaskAt(s', r, p) == TaskAt(s, r, p) {
      if p.Hand? { assert InHand(s', p.t) == InHand(s, p.t); }
    }
  }

  lemma BeginAppears(s: State, r: seq<Task>, t: Tid)
    requires StepCall(s, t, Begin).Some?
    ensures Changed(s, r, StepCall(s, t, Begin).value, r, Appears(Hand(t)))
  {
  }

  lemma PushMoves(s: State, r: seq<Task>, t: Tid)
    requires StepCall(s, t, PushTask).Some?
    ensures Changed(s, r, StepCall(s, t, PushTask).value, r, ChangeOf(s, r, Calling(t, PushTask)))
  {
  }

  lemma TestMoves(s: State, r: seq<Task>, t: Tid)
    requires StepCall(s, t, TestCancel).Some?
    ensures var s' := StepCall(s, t, TestCancel).value;
      Changed(s, r, s', r + RefusedIn(s, s', Calling(t, TestCancel)), ChangeOf(s, r, Calling(t, TestCancel)))
  {
  }

  lemma LaterOwnStep(s: State, t: Tid, c: CallAction)
    requires StepCall(s, t, c).Some? && !c.Begin? && !c.PushTask? && !c.TestCancel?
    ensures InHand(s, t) == InHand(StepCall(s, t, c).value, t) == None && StepCall(s, t, c).value.nextTask == s.nextTask
  {
  }

  lemma LaterCallSteps(s: State, t: Tid, c: CallAction)
    requires StepCall(s, t, c).Some? && !c.Begin? && !c.PushTask? && !c.TestCancel?
    ensures SamePlaces(s, StepCall(s, t, c).value)
    ensures RefusedIn(s, StepCall(s, t, c).value, Calling(t, c)) == []
  {
    var s' := StepCall(s, t, c).value;
    CallFrame(s, t, c);
    LaterOwnStep(s, t, c);
    forall l | 0 <= l < |s.levels| ensures s'.levels[l].pushed == s.levels[l].pushed { CallNotes(s, t, c, l); }
    forall u: Tid ensures InHand(s', u) == InHand(s, u) {}
  }

  lemma WorkerSteps(s: State, t: Tid, w: WorkerAction)
    requires StepWorker(s, t, w).Some?
    ensures SamePlaces(s, StepWorker(s, t, w).value)
  {
    WorkerFrame(s, t, w);
    var s' := StepWorker(s, t, w).value;
    forall l | 0 <= l < |s.levels| ensures s'.levels[l].pushed == s.levels[l].pushed { WorkNotes(s, t, w, l); }
    forall u: Tid ensures InHand(s', u) == InHand(s, u) {}
  }

  lemma CloserSteps(s: State, a: CloserAction)
    requires StepCloser(s, a).Some?
    ensures SamePlaces(s, StepCloser(s, a).value) && StepCloser(s, a).value.agents == s.agents
  {
    var s' := StepCloser(s, a).value;
    assert s'.agents == s.agents;
    forall t: Tid ensures InHand(s', t) == InHand(s, t) {}
  }

  lemma ArriveSteps(s: State, t: Tid)
    requires t !in s.agents
    ensures SamePlaces(s, s.(agents := s.agents[t := External(NoCall)]))
  {
  }

  lemma CallChanges(s: State, r: seq<Task>, t: Tid, c: CallAction)
    requires StepCall(s, t, c).Some?
    ensures var s' := StepCall(s, t, c).value;
      Changed(s, r, s', r + RefusedIn(s, s', Calling(t, c)), ChangeOf(s, r, Calling(t, c)))
  {
    var s' := StepCall(s, t, c).value;
    if c.TestCancel? {
      TestMoves(s, r, t);
    } else {
      assert r + RefusedIn(s, s', Calling(t, c)) == r;
      if c.Begin? {
        BeginAppears(s, r, t);
      } else if c.PushTask? {
        PushMoves(s, r, t);
      } else {
        LaterCallSteps(s, t, c);
        SameMeansNothing(s, s', r);
      }
    }
  }

  lemma StepKeepsAccount(s: State, r: seq<Task>, a: Action)
    requires Accounted(s, r) && Step(s, a).Some?
    ensures Accounted(Step(s, a).value, r + RefusedIn(s, Step(s, a).value, a))
  {
    var s' := Step(s, a).value;
    match a
    case Calling(t, c) =>
      CallChanges(s, r, t, c);
      ChangeKeepsAccount(s, r, s', r + RefusedIn(s, s', a), ChangeOf(s, r, a));
    case Serving(t, w) =>
      WorkerSteps(s, t, w);
      SameKeepsAccount(s, r, a);
    case Closing(c) =>
      CloserSteps(s, c);
      SameKeepsAccount(s, r, a);
    case Arrive(t) =>
      ArriveSteps(s, t);
      SameKeepsAccount(s, r, a);
  }

  lemma SameKeepsAccount(s: State, r: seq<Task>, a: Action)
    requires Accounted(s, r) && Step(s, a).Some? && !a.Calling? && SamePlaces(s, Step(s, a).value)
    ensures Accounted(Step(s, a).value, r + RefusedIn(s, Step(s, a).value, a))
  {
    var s' := Step(s, a).value;
    assert r + RefusedIn(s, s', a) == r;
    SameMeansNothing(s, s', r);
    ChangeKeepsAccount(s, r, s', r, Nothing);
  }

  lemma InitialAccount(request: nat)
    ensures Accounted(Initial(request), [])
  {
    forall p: Place ensures TaskAt(Initial(request), [], p) == None {}
  }

  lemma {:induction false} RunKeepsAccount(request: nat, actions: seq<Action>)
    requires Run(request, actions).Some?
    ensures Accounted(Run(request, actions).value, RefusalHistory(request, actions))
  {
    if actions == [] {
      InitialAccount(request);
    } else {
      var front := actions[..|actions| - 1];
      RunKeepsAccount(request, front);
      StepKeepsAccount(Run(request, front).value, RefusalHistory(request, front), actions[|actions| - 1]);
    }
  }

  /** Refusals happen only to tasks from outside, and only once the cancel flag is set. */
  ghost predicate FairRefusals(s: State, refused: seq<Task>) {
    (refused != [] ==> s.cancel) && forall i :: 0 <= i < |refused| ==> refused[i].parent == None
  }

  lemma StepRefuses(s: State, a: Action)
    requires LevelDiscipline(s) && Step(s, a).Some?
    ensures FairRefusals(s, RefusedIn(s, Step(s, a).value, a)) && (s.cancel ==> Step(s, a).value.cancel)
  {
    if a.Calling? {
      CallKeepsCloser(s, a.t, a.call);
      assert AgentOk(s, a.t);
    } else if a.Serving? {
      WorkerKeepsCloser(s, a.t, a.work);
    }
  }

  lemma {:induction false} RunRefusesFairly(request: nat, actions: seq<Action>)
    requires Run(request, actions).Some?
    ensures FairRefusals(Run(request, actions).value, RefusalHistory(request, actions))
  {
    if actions != [] {
      var front := actions[..|actions| - 1];
      RunRefusesFairly(request, front);
      EveryRunIsSafe(request, front);
      StepRefuses(Run(request, front).value, actions[|actions| - 1]);
    }
  }

  /** A call past its push has its task in its level's log. */
  ghost predicate CallLogged(s: State, t: Tid) {
    t in s.agents && s.agents[t].call.InCall? && !s.agents[t].call.at.CancelCheck? && !s.agents[t].call.at.AtPush? ==>
      s.agents[t].call.level < |s.levels| && s.agents[t].call.task in s.levels[s.agents[t].call.level].pushed
  }

  lemma CallerKeepsLogged(s: State, t: Tid, c: CallAction)
    requires StepCall(s, t, c).Some? && CallLogged(s, t)
    ensures CallLogged(StepCall(s, t, c).value, t)
  {
  }

  lemma CallKeepsLogged(s: State, t: Tid, c: CallAction, u: Tid)
    requires StepCall(s, t, c).Some? && CallLogged(s, u)
    ensures CallLogged(StepCall(s, t, c).value, u)
  {
    if u == t {
      CallerKeepsLogged(s, t, c);
    } else {
      CallFrame(s, t, c);
      forall l | 0 <= l < |s.levels| ensures s.levels[l].pushed <= StepCall(s, t, c).value.levels[l].pushed {
        CallNotes(s, t, c, l);
      }
    }
  }

  lemma StepKeepsLogged(s: State, a: Action, u: Tid)
    requires Step(s, a).Some? && CallLogged(s, u)
    ensures CallLogged(Step(s, a).value, u)
  {
    match a
    case Calling(t, c) => CallKeepsLogged(s, t, c, u);
    case Serving(t, w) =>
      WorkerFrame(s, t, w);
      WorkerSteps(s, t, w);
    case Closing(c) => CloserSteps(s, c);
    case Arrive(_) =>
  }

  lemma {:induction false} RunKeepsLogged(request: nat, actions: seq<Action>, u: Tid)
    requires Run(request, actions).Some?
    ensures CallLogged(Run(request, actions).value, u)
  {
    if actions != [] {
      RunKeepsLogged(request, actions[..|actions| - 1], u);
      StepKeepsLogged(Run(request, actions[..|actions| - 1]).value, actions[|actions| - 1], u);
    }
  }

  /** No task is lost or doubled, at either level and in any interleaving: each one ever created is in exactly one
      place.  Either a call has it in hand before its push; or it was refused, after the cancel flag was set and to
      a caller from outside; or it is in the log of the level that its ancestry says, once. */
  lemma EveryTaskHasOnePlace(request: nat, actions: seq<Action>, id: nat) returns (p: Place)
    requires Run(request, actions).Some? && id < Run(request, actions).value.nextTask
    ensures var s, refused := Run(request, actions).value, RefusalHistory(request, actions);
      && Holds(s, refused, p, id) && (forall q: Place :: Holds(s, refused, q, id) ==> q == p)
      && (p.Log? ==> Depth(TaskAt(s, refused, p).value) == p.level)
      && (p.Refusal? ==> s.cancel && Depth(TaskAt(s, refused, p).value) == 0)
  {
    var s, refused := Run(request, actions).value, RefusalHistory(request, actions);
    RunKeepsAccount(request, actions);
    RunRefusesFairly(request, actions);
    EveryRunIsSafe(request, actions);
    assert Somewhere(s, refused, id);
    p :| Holds(s, refused, p, id);
    if p.Log? {
      assert LevelOk(s, p.level);
    }
  }
}
