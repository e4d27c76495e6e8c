/** `bounded_concurrent_queue` as a state machine over the steps of its producers and consumers. */
module BoundedQueue {
  import opened Wrappers

  /** A producer is outside `push`, has seen a full queue and is about to wait, waits on the
      condition variable, or is past the wait and will push. */
  datatype Producer = Outside | Parking | Waiting | Ready

  /** A consumer is outside `try_pop`, or has popped and not yet notified. */
  datatype Consumer = Resting | Notifying

  datatype State = State(items: seq<nat>, producers: seq<Producer>, consumers: seq<Consumer>)

  datatype Action =
    | Check(p: nat)                              // the size test at the top of wait()
    | Park(p: nat)                               // entering the condition variable's wait
    | Push(p: nat, item: nat)
    | Pop(c: nat)                                // the underlying try_pop succeeds
    | Notify(c: nat, woken: Option<nat>)         // notify_one
    | PopAndNotify(c: nat, woken: Option<nat>)   // both at once, in the hypothetical atomic queue

  /** `atomic` selects whether popping and notifying are one step or two. */
  datatype Config = Config(max: nat, producers: nat, consumers: nat, atomic: bool)

  function Initial(g: Config): State {
    State([], seq(g.producers, i => Outside), seq(g.consumers, i => Resting))
  }

  /** `notify_one` wakes one waiting producer if there is any; a woken producer does not look at the
      size again. */
  function Wake(s: State, woken: Option<nat>): Option<State> {
    match woken
    case None => if Waiting in s.producers then None else Some(s)
    case Some(p) =>
      if p < |s.producers| && s.producers[p] == Waiting then Some(s.(producers := s.producers[p := Ready])) else None
  }

  /** The state after an action, if the action is possible. */
  function Step(g: Config, s: State, a: Action): Option<State> {
    match a
    case Check(p) =>
      if p < |s.producers| && s.producers[p] == Outside
      then Some(s.(producers := s.producers[p := if |s.items| >= g.max then Parking else Ready])) else None
    case Park(p) =>
      if p < |s.producers| && s.producers[p] == Parking
      then Some(s.(producers := s.producers[p := Waiting])) else None
    case Push(p, x) =>
      if p < |s.producers| && s.producers[p] == Ready
      then Some(s.(items := s.items + [x], producers := s.producers[p := Outside])) else None
    case Pop(c) =>
      if !g.atomic && c < |s.consumers| && s.consumers[c] == Resting && s.items != []
      then Some(s.(items := s.items[1..], consumers := s.consumers[c := Notifying])) else None
    case Notify(c, woken) =>
      if c < |s.consumers| && s.consumers[c] == Notifying
      then Wake(s.(consumers := s.consumers[c := Resting]), woken) else None
    case PopAndNotify(c, woken) =>
      if g.atomic && c < |s.consumers| && s.consumers[c] == Resting && s.items != []
      then Wake(s.(items := s.items[1..]), woken) else None
  }

  function Run(g: Config, actions: seq<Action>): Option<State> {
    if actions == [] then Some(Initial(g))
    else
      match Run(g, actions[..|actions| - 1])
      case None => None
      case Some(s) => Step(g, s, actions[|actions| - 1])
  }

  ghost predicate Reachable(g: Config, s: State) {
    exists actions :: Run(g, actions) == Some(s)
  }

  // ---------------------------------------------------------------- the bound holds

  function Count<T(==)>(s: seq<T>, x: T): nat {
    if s == [] then 0 else (if s[0] == x then 1 else 0) + Count(s[1..], x)
  }

  lemma {:induction false} CountUpdate<T>(s: seq<T>, i: nat, v: T, x: T)
    requires i < |s|
    ensures Count(s[i := v], x) == Count(s, x) - (if s[i] == x then 1 else 0) + (if v == x then 1 else 0)
  {
    if i == 0 {
      assert s[0 := v][1..] == s[1..];
    } else {
      assert s[i := v][1..] == s[1..][i - 1 := v];
      CountUpdate(s[1..], i - 1, v, x);
    }
  }

  lemma {:induction false} CountAtMost<T>(s: seq<T>, x: T)
    ensures Count(s, x) <= |s|
  {
    if s != [] { CountAtMost(s[1..], x); }
  }

  lemma {:induction false} CountNone<T>(s: seq<T>, x: T)
    requires forall i :: 0 <= i < |s| ==> s[i] != x
    ensures Count(s, x) == 0
  {
    if s != [] { CountNone(s[1..], x); }
  }

  /** Pushes that nothing can stop any more: what is queued, what producers past the wait will
      push, and what pending notifications may release. */
  function Committed(s: State): nat {
    |s.items| + Count(s.producers, Ready) + Count(s.consumers, Notifying)
  }

  function Limit(g: Config): nat {
    if g.max == 0 || g.producers == 0 then 0
    else g.max - 1 + g.producers + if g.atomic then 0 else g.consumers
  }

  ghost predicate Invariant(g: Config, s: State) {
    && |s.producers| == g.producers && |s.consumers| == g.consumers
    && Committed(s) <= Limit(g)
    && (g.atomic ==> Count(s.consumers, Notifying) == 0)
  }

  lemma WakeKeepsTotal(s: State, woken: Option<nat>)
    ensures Wake(s, woken).Some? ==>
      var t := Wake(s, woken).value;
      && t.items == s.items && t.consumers == s.consumers && |t.producers| == |s.producers|
      && Count(s.producers, Ready) <= Count(t.producers, Ready) <= Count(s.producers, Ready) + 1
  {
    if woken.Some? && woken.value < |s.producers| {
      CountUpdate(s.producers, woken.value, Ready, Ready);
    }
  }

  /** Only the size test can raise the total, and only while the queue is below its maximum. */
  lemma StepKeepsInvariant(g: Config, s: State, a: Action)
    requires Invariant(g, s) && Step(g, s, a).Some?
    ensures Invariant(g, Step(g, s, a).value)
  {
    var t := Step(g, s, a).value;
    match a
    case Check(p) =>
      CountUpdate(s.producers, p, t.producers[p], Ready);
      CountAtMost(t.producers, Ready);
      CountAtMost(s.consumers, Notifying);
    case Park(p) => CountUpdate(s.producers, p, Waiting, Ready);
    case Push(p, _) => CountUpdate(s.producers, p, Outside, Ready);
    case Pop(c) => CountUpdate(s.consumers, c, Notifying, Notifying);
    case Notify(c, woken) =>
      CountUpdate(s.consumers, c, Resting, Notifying);
      WakeKeepsTotal(s.(consumers := s.consumers[c := Resting]), woken);
    case PopAndNotify(c, woken) => WakeKeepsTotal(s.(items := s.items[1..]), woken);
  }

  lemma {:induction false} RunKeepsInvariant(g: Config, actions: seq<Action>)
    requires Run(g, actions).Some?
    ensures Invariant(g, Run(g, actions).value)
  {
    if actions == [] {
      CountNone(Initial(g).producers, Ready);
      CountNone(Initial(g).consumers, Notifying);
    } else {
      RunKeepsInvariant(g, actions[..|actions| - 1]);
      StepKeepsInvariant(g, Run(g, actions[..|actions| - 1]).value, actions[|actions| - 1]);
    }
  }

  // ---------------------------------------------------------------- first in, first out

  /** The items of the push actions, in order. */
  function PushedIn(actions: seq<Action>): seq<nat> {
    if actions == [] then []
    else
      var last := actions[|actions| - 1];
      PushedIn(actions[..|actions| - 1]) + if last.Push? then [last.item] else []
  }

  /** How many items were popped. */
  function PopsIn(actions: seq<Action>): nat {
    if actions == [] then 0
    else
      var last := actions[|actions| - 1];
      PopsIn(actions[..|actions| - 1]) + if last.Pop? || last.PopAndNotify? then 1 else 0
  }

  /** In every run the queue holds what was pushed, in that order, without the first items, one for each pop. */
  lemma {:induction false} FirstInFirstOut(g: Config, actions: seq<Action>)
    requires Run(g, actions).Some?
    ensures PopsIn(actions) <= |PushedIn(actions)| && Run(g, actions).value.items == PushedIn(actions)[PopsIn(actions)..]
  {
    if actions != [] {
      var front, a := actions[..|actions| - 1], actions[|actions| - 1];
      FirstInFirstOut(g, front);
      var s := Run(g, front).value;
      if a.Notify? {
        WakeKeepsTotal(s.(consumers := s.consumers[a.c := Resting]), a.woken);
      } else if a.PopAndNotify? {
        WakeKeepsTotal(s.(items := s.items[1..]), a.woken);
      }
    }
  }

  /** A notification releases exactly one waiting producer if there is any, and otherwise changes no producer. */
  lemma NotifyReleasesOne(s: State, woken: Option<nat>)
    requires Wake(s, woken).Some?
    ensures var t := Wake(s, woken).value;
      if Waiting in s.producers
      then Count(t.producers, Waiting) == Count(s.producers, Waiting) - 1 && Count(t.producers, Ready) == Count(s.producers, Ready) + 1
      else t == s
  {
    if woken.Some? {
      CountUpdate(s.producers, woken.value, Ready, Waiting);
      CountUpdate(s.producers, woken.value, Ready, Ready);
    }
  }

  /** A producer that is not waiting can always take its next step: it waits exactly if it finds the queue full. */
  lemma ProducersGoOn(g: Config, s: State, p: nat, item: nat)
    requires p < |s.producers|
    ensures match s.producers[p]
      case Outside => Step(g, s, Check(p)) == Some(s.(producers := s.producers[p := if |s.items| < g.max then Ready else Parking]))
      case Parking => Step(g, s, Park(p)) == Some(s.(producers := s.producers[p := Waiting]))
      case Waiting => Wake(s, Some(p)) == Some(s.(producers := s.producers[p := Ready]))
      case Ready => Step(g, s, Push(p, item)) == Some(s.(producers := s.producers[p := Outside], items := s.items + [item]))
  {
  }

  /** A consumer can take an item exactly when there is one. */
  lemma ConsumersGoOn(g: Config, s: State, c: nat)
    requires c < |s.consumers| && s.consumers[c] == Resting
    ensures s.items != [] <==> Step(g, s, Pop(c)).Some? || exists woken :: Step(g, s, PopAndNotify(c, woken)).Some?
  {
    if s.items != [] && g.atomic {
      if Waiting in s.producers {
        var p :| 0 <= p < |s.producers| && s.producers[p] == Waiting;
        assert Step(g, s, PopAndNotify(c, Some(p))).Some?;
      } else {
        assert Step(g, s, PopAndNotify(c, None)).Some?;
      }
    }
  }

  // ---------------------------------------------------------------- the bound is reached

  lemma RunSnoc(g: Config, actions: seq<Action>, a: Action)
    requires Run(g, actions).Some?
    ensures Run(g, actions + [a]) == Step(g, Run(g, actions).value, a)
  {
    assert (actions + [a])[..|actions|] == actions;
  }

  /** Reachability is closed under steps. */
  lemma Extend(g: Config, s: State, a: Action)
    requires Reachable(g, s) && Step(g, s, a).Some?
    ensures Reachable(g, Step(g, s, a).value)
  {
    var actions :| Run(g, actions) == Some(s);
    RunSnoc(g, actions, a);
    assert Run(g, actions + [a]) == Some(Step(g, s, a).value);
  }

  /** A producer that finds room pushes one more item. */
  lemma PushOne(g: Config, s: State) returns (t: State)
    requires Reachable(g, s) && s.producers != [] && s.producers[0] == Outside && |s.items| < g.max
    ensures Reachable(g, t) && |t.items| == |s.items| + 1 && t.producers == s.producers && t.consumers == s.consumers
  {
    Extend(g, s, Check(0));
    var u := Step(g, s, Check(0)).value;
    Extend(g, u, Push(0, 0));
    t := Step(g, u, Push(0, 0)).value;
    assert t.producers == s.producers;
  }

  /** Each consumer pops an item and is held up before it notifies. */
  lemma {:induction false} HoldConsumers(g: Config, n: nat) returns (s: State)
    requires g.max >= 1 && g.producers >= 1 && !g.atomic && n <= g.consumers
    ensures Reachable(g, s) && s.items == [] && s.producers == Initial(g).producers
    ensures |s.consumers| == g.consumers
    ensures forall c :: 0 <= c < g.consumers ==> s.consumers[c] == if c < n then Notifying else Resting
  {
    if n == 0 {
      s := Initial(g);
      assert Run(g, []) == Some(s);
    } else {
      var before := HoldConsumers(g, n - 1);
      var filled := PushOne(g, before);
      Extend(g, filled, Pop(n - 1));
      s := Step(g, filled, Pop(n - 1)).value;
    }
  }

  lemma {:induction false} Fill(g: Config, s: State, n: nat) returns (t: State)
    requires Reachable(g, s) && s.producers != [] && s.producers[0] == Outside && s.items == [] && n <= g.max
    ensures Reachable(g, t) && |t.items| == n && t.producers == s.producers && t.consumers == s.consumers
  {
    if n == 0 {
      t := s;
    } else {
      var u := Fill(g, s, n - 1);
      t := PushOne(g, u);
    }
  }

  /** The first `n` producers pass the size test together. */
  lemma {:induction false} PassTogether(g: Config, s: State, n: nat) returns (t: State)
    requires Reachable(g, s) && |s.items| < g.max && n <= |s.producers|
    requires forall p :: 0 <= p < |s.producers| ==> s.producers[p] == Outside
    ensures Reachable(g, t) && t.items == s.items && t.consumers == s.consumers && |t.producers| == |s.producers|
    ensures forall p :: 0 <= p < |s.producers| ==> t.producers[p] == if p < n then Ready else Outside
  {
    if n == 0 {
      t := s;
    } else {
      var u := PassTogether(g, s, n - 1);
      Extend(g, u, Check(n - 1));
      t := Step(g, u, Check(n - 1)).value;
    }
  }

  /** The first `n` of the producers that passed together push. */
  lemma {:induction false} PushTogether(g: Config, s: State, n: nat) returns (t: State)
    requires Reachable(g, s) && n <= |s.producers|
    requires forall p :: 0 <= p < |s.producers| ==> s.producers[p] == Ready
    ensures Reachable(g, t) && |t.items| == |s.items| + n && t.consumers == s.consumers && |t.producers| == |s.producers|
    ensures forall p :: 0 <= p < |s.producers| ==> t.producers[p] == if p < n then Outside else Ready
  {
    if n == 0 {
      t := s;
    } else {
      var u := PushTogether(g, s, n - 1);
      Extend(g, u, Push(n - 1, 0));
      t := Step(g, u, Push(n - 1, 0)).value;
    }
  }

  /** The first `n` held-up consumers each release the first producer into a full queue. */
  lemma {:induction false} ReleaseInto(g: Config, s: State, n: nat) returns (t: State)
    requires Reachable(g, s) && |s.items| >= g.max && s.producers != [] && n <= |s.consumers|
    requires forall p :: 0 <= p < |s.producers| ==> s.producers[p] == Outside
    requires forall c :: 0 <= c < |s.consumers| ==> s.consumers[c] == Notifying
    ensures Reachable(g, t) && |t.items| == |s.items| + n && t.producers == s.producers && |t.consumers| == |s.consumers|
    ensures forall c :: 0 <= c < |s.consumers| ==> t.consumers[c] == if c < n then Resting else Notifying
  {
    if n == 0 {
      t := s;
    } else {
      var u := ReleaseInto(g, s, n - 1);
      Extend(g, u, Check(0));
      var u1 := Step(g, u, Check(0)).value;
      Extend(g, u1, Park(0));
      var u2 := Step(g, u1, Park(0)).value;
      Extend(g, u2, Notify(n - 1, Some(0)));
      var u3 := Step(g, u2, Notify(n - 1, Some(0))).value;
      Extend(g, u3, Push(0, 0));
      t := Step(g, u3, Push(0, 0)).value;
      assert t.producers == s.producers;
    }
  }

  lemma ReachLimit(g: Config) returns (s: State)
    ensures Reachable(g, s) && |s.items| == Limit(g)
  {
    s := Initial(g);
    assert Run(g, []) == Some(s);
    if g.max >= 1 && g.producers >= 1 {
      if !g.atomic { s := HoldConsumers(g, g.consumers); }
      s := Fill(g, s, g.max - 1);
      s := PassTogether(g, s, g.producers);
      s := PushTogether(g, s, g.producers);
      if !g.atomic { s := ReleaseInto(g, s, g.consumers); }
    }
  }

  /** The length moves by at most one at a time, so every smaller length occurs on the way. */
  lemma {:induction false} OnTheWay(g: Config, actions: seq<Action>, n: nat) returns (s: State)
    requires Run(g, actions).Some? && n <= |Run(g, actions).value.items|
    ensures Reachable(g, s) && |s.items| == n
  {
    if |Run(g, actions).value.items| == n {
      s := Run(g, actions).value;
    } else {
      s := OnTheWay(g, actions[..|actions| - 1], n);
    }
  }

  /** The queue's lengths, for every number of producers and consumers and in every run: a length
      occurs exactly when it is at most `Limit`, which lies above the maximum by one less than the
      number of producers, and by the number of consumers more because popping and notifying are
      separate steps. */
  lemma LengthsReached(g: Config, n: nat)
    ensures (exists s :: Reachable(g, s) && |s.items| == n) <==> n <= Limit(g)
  {
    if n <= Limit(g) {
      var top := ReachLimit(g);
      var actions :| Run(g, actions) == Some(top);
      var s := OnTheWay(g, actions, n);
    }
    forall s | Reachable(g, s) ensures |s.items| <= Limit(g) {
      var actions :| Run(g, actions) == Some(s);
      RunKeepsInvariant(g, actions);
    }
  }
}
