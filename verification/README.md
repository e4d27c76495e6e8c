# Verified model of the repository's expression expander, schedulers and stateful helpers

This project models, in Dafny, the parts of the repository whose behaviour is hard to see from the
code, and proves what they guarantee and exactly where they stop guaranteeing it.

* **LinqKit expression expander** (`Trees`, `Expander`, `ExpanderTheorems`, `ExpanderNormalForm`,
  `ExpanderTermination`, `ExpanderReplacement`, `ExpanderMeaning`, `ExpanderLimits`, `Visitor`,
  `Predicates`, `PredicateNesting`). Expression trees are a datatype with a partial, call-by-value
  evaluator; `Expander.Expand` is the visitor with its replacement dictionary, which holds arguments
  unvisited. It is proved that expansion returns on every expression, if captured trees are acyclic and no
  invoked lambda shares a parameter object with a captured tree below it; that every tree it returns is in
  normal form, whatever the scopes, if arguments have nothing to rewrite; that nested invocations with
  parameters of their own and arbitrary arguments amount to one simultaneous replacement; and that it
  succeeds and preserves the value of every expression that meets a syntactic condition on scopes,
  `ExpanderTheorems.Fits`. For predicates combined with `And` and `Or` in any shape the closed results are
  characterised exactly, and are correct.
* **`LimitedScheduler` and its bounded queue** (`Scheduler`, `SchedulerTheorems`, `SchedulerThreads`,
  `SchedulerShutdown`, `SchedulerTasks`, `SchedulerControl`, `SchedulerLateThread`, `SchedulerLateCall`,
  `BoundedQueue`). Each shared access of a worker, a caller of `schedule` and the thread in `close` is one
  step; the theorems are about every interleaving. The exact set of lengths the bounded queue can have is
  given for every number of producers and consumers.
* **Interning table** (`Interning`). The hash-and-collider table is proved to be a plain map for every
  hash function and every run of writes.
* **Lazy stream** (`LazyStream`). The lazily opened stream is compared with the eagerly opened one over
  every run, for every kind of underlying stream, and the runs on which they agree are characterised
  exactly.
* **Long-running task** (`LongRunning`, `LongRunningSettings`). The start/stop/dispose machine, over every
  interleaving of callers and workers, with the exact settings under which at most one worker is alive.
* **Power-of-two rounding** (`Bits`). The bit-smearing computation over any word of 2^k bits.

Verify everything with `dafny verify dfyconfig.toml`.

## What the proofs found

* An argument goes into the replacement dictionary unvisited, so a right-nested `p1.And(p2.And(p3))` with
  three parameter objects loses its meaning, although its expansion has no invocation left. A combination
  of predicates with parameters of their own expands to a closed predicate if and only if, in every
  combination off the left spine, the leftmost predicate of the right operand ignores its parameter; the
  closed results are correct. If every predicate uses its parameter, that leaves the left folds.
* Acyclic, closed captured lambdas are not enough for expansion to terminate: a lambda inside a captured
  tree that binds a key of the dictionary has its bound occurrences replaced as well, and the second visit
  of the expanded body can start over for ever. It takes an invoked lambda that shares a parameter object
  with a captured tree its body refers to; without cycles and such sharing every visit returns.
* A lambda that captures itself, such as a recursive factorial, is not reported with the "cannot be called
  recursively" message; the visit does not return.
* The class comment speaks of expanding calls to `Compile()`; `f.Compile()(x)` fails the cast to a lambda.
* The queue's real bound is not `_max_size`: with P producers and C consumers every length up to
  `_max_size - 1 + P + C` occurs, and no other.
* If a `schedule` call from outside has made a thread and not queued it when `close` sets the cancel flag,
  `close` can return while that thread is alive and past its cancel test, and it then starts a task. If no
  call holds such a thread, no task starts after `close`; if no call is past its own cancel test, no thread
  is left either.
* A lazy `Seek` from the end computes `Length - offset`; it agrees with the eager stream only at offset 0
  when the size is right. Before the stream is open, negative positions are accepted instead of refused.
* A stop of a long-running task forgets the worker before it waits. With a finite stop timeout, or when a
  callback registered on the token throws out of `Cancel`, a later `Start` gives two workers at once, and a
  worker can run on after `Dispose` has returned.
* Rounding up 0 passes the range check and yields 0, which fails the check on the result.

## Model

| member | source | states |
|---|---|---|
| Expander.BindMeaning | Tx/Helpers/DB/LinqKit/ExpressionExpander.cs:47-61 | Filling the dictionary succeeds exactly when no parameter is repeated, already a key, or without an argument; it then maps each parameter to its own argument and keeps all other entries. |
| Expander.FillDictionary | Tx/Helpers/DB/LinqKit/ExpressionExpander.cs:53-61 | The loop of `Add` calls computes that dictionary, and fails exactly when it should. |
| Expander.ExpandAllPointwise | Tx/Helpers/DB/LinqKit/ExpressionVisitor.cs:191-216 | A list of children expands exactly when each child does, elementwise. |
| Expander.FuelIsMonotone | Tx/Helpers/DB/LinqKit/ExpressionExpander.cs:39-139 | The bound on nested captured trees only decides whether the model has an answer, never which one, including which exception. |
| ExpanderTheorems.ScopeOfExpansion | Tx/Helpers/DB/LinqKit/ExpressionExpander.cs:27-139 | With any dictionary, the free parameters of a fitting expression's expansion are among those that were not replaced and those of the dictionary values put in for the others. |
| ExpanderTheorems.FirstVisit | Tx/Helpers/DB/LinqKit/ExpressionExpander.cs:41-63 | A captured lambda's body, expanded once by `TransformExpr`, mentions only the lambda's own parameters and is fit for the second visit with the arguments in the dictionary. |
| ExpanderTheorems.ScopedNormalForm | Tx/Helpers/DB/LinqKit/ExpressionExpander.cs:27-139 | A fitting and tame expression expands to a tree with nothing to rewrite, even next to dictionary entries that are not settled, if these belong to parameters not free in it. |
| ExpanderNormalForm.NormalForm | Tx/Helpers/DB/LinqKit/ExpressionExpander.cs:27-139 | With a dictionary of settled values, every tree that expansion of a tame expression returns has no invocation, no captured tree and no strippable call, whatever the scopes and binders. |
| ExpanderNormalForm.TameReturns | Tx/Helpers/DB/LinqKit/ExpressionExpander.cs:39-139 | A tame expression always returns, with a tree or an exception, even if binders coincide with keys. |
| ExpanderTheorems.ExpansionSucceeds | Tx/Helpers/DB/LinqKit/ExpressionExpander.cs:39-139 | Termination with success for every fitting expression, by the rank of captured trees and size, although captured bodies are visited twice. |
| ExpanderTermination.StaysWithin | Tx/Helpers/DB/LinqKit/ExpressionExpander.cs:27-139 | Whatever the dictionary holds for other parameters, an expansion uses only parameters and captured fields that the expression and the entries for its own parameters could bring in. |
| ExpanderTermination.FirstVisitIsClear | Tx/Helpers/DB/LinqKit/ExpressionExpander.cs:41-63 | The body of an invoked captured lambda comes out of its first visit with captured fields of lower rank only, whose trees mention no key and no parameter of the lambda. |
| ExpanderTermination.InvokingReturns | Tx/Helpers/DB/LinqKit/ExpressionExpander.cs:41-63 | Invoking a captured tree returns, with arbitrary arguments and arbitrary dictionary values, although its body is visited twice. |
| ExpanderTermination.OrderedVisitReturns | Tx/Helpers/DB/LinqKit/ExpressionExpander.cs:27-139 | Termination: if ranks drop along captured fields and no invoked lambda shares a parameter with the captured trees its body refers to, the visit returns with a tree or an exception at a depth bounded by the ranks. Arguments may be anything, and captured trees need not be closed. |
| ExpanderTermination.EveryVisitReturns | Tx/Helpers/DB/LinqKit/ExpressionExpander.cs:27-139 | The same with nothing asked of the expression but that it does not use the captured lambdas' own parameters. |
| ExpanderTermination.NestedInvocationReturns | Tx/Helpers/DB/LinqKit/ExpressionExpander.cs:39-63 | With `twice = y => once.Invoke(once.Invoke(y))` captured, every expression that does not use the parameter objects of `once` and `twice` returns. |
| ExpanderTheorems.SettledIsUnchanged | Tx/Helpers/DB/LinqKit/ExpressionVisitor.cs:113-216 | A tree with nothing to rewrite, none of whose parameters is a key, is returned equal. |
| Visitor.SettledReturnsItself | Tx/Helpers/DB/LinqKit/ExpressionVisitor.cs:113-306 | It is even returned as the same object: no node on the way is rebuilt. |
| Visitor.ItselfIsUnchanged | Tx/Helpers/DB/LinqKit/ExpressionVisitor.cs:113-306 | A visit that hands back its own node has succeeded with an equal tree. |
| ExpanderNormalForm.NormalFormIsReachedOnce | Tx/Helpers/DB/LinqKit/ExpressionExpander.cs:39-108 | Top level: a tame expression returns, and a tree it returns has nothing left to rewrite and is given back by expanding it again at any depth. |
| ExpanderNormalForm.FittingReachesNormalForm | Tx/Helpers/DB/LinqKit/ExpressionExpander.cs:39-108 | If the expression also fits, expansion succeeds and adds no free parameter. |
| ExpanderReplacement.SettledIsReplaced | Tx/Helpers/DB/LinqKit/ExpressionExpander.cs:27-33 | On a tree with nothing to rewrite, and with any dictionary, expansion is plain replacement of parameters. |
| ExpanderReplacement.InvokeReplaces | Tx/Helpers/DB/LinqKit/ExpressionExpander.cs:43-63 | Invoking an inline or quoted lambda with such a body on arbitrary arguments puts them in as they are, or is refused, exactly when the parameters cannot be added. |
| ExpanderReplacement.InvokeCapturedReplaces | Tx/Helpers/DB/LinqKit/ExpressionExpander.cs:41-63 | The same through a captured field whose tree uses no parameter that is a key already. |
| ExpanderReplacement.InlineIsReplaced | Tx/Helpers/DB/LinqKit/ExpressionExpander.cs:39-64 | Invocations nested in any way, with parameters of their own and arbitrary arguments: expansion strips them and replaces all their parameters at once, each by its argument as written. |
| ExpanderReplacement.InvocationsLeft | Tx/Helpers/DB/LinqKit/ExpressionExpander.cs:27-139 | Every invocation left in an expansion comes from a place that is not visited (an argument, a constant, what is stripped) or from a dictionary value. |
| ExpanderReplacement.InvokeNeedsALambda | Tx/Helpers/DB/LinqKit/ExpressionExpander.cs:41-45 | Whatever is no lambda, inline, quoted or captured, fails the cast. |
| ExpanderMeaning.EvalIsStable | Tx/Helpers/DB/LinqKit/ExpressionExpander.cs:27-33 | The evaluator depends on free parameters only and more depth never changes a value; what makes replacing a parameter by its argument sound. |
| ExpanderMeaning.Simulation | Tx/Helpers/DB/LinqKit/ExpressionExpander.cs:27-93 | Meaning preservation with an arbitrary dictionary: if each key's replacement evaluates to what the key stands for, the expansion has every value the expression has. |
| ExpanderMeaning.ExpansionPreservesMeaning | Tx/Helpers/DB/LinqKit/ExpressionExpander.cs:27-93 | For every fitting expression, store, environment and reading of the methods: expansion succeeds, adds no free parameter, and has the same value wherever the expression has one. |
| ExpanderLimits.CyclesNeverExpand | Tx/Helpers/DB/LinqKit/ExpressionExpander.cs:39-139 | No expression that reaches a cycle of captured trees ever expands to a tree, at any depth. |
| ExpanderLimits.CyclesNeverReturn | Tx/Helpers/DB/LinqKit/ExpressionExpander.cs:39-139 | If the way into the cycle and around it passes nothing that could throw, the visit does not return at all, with any dictionary. |
| ExpanderLimits.RecursionNeverReturns | Tx/Helpers/DB/LinqKit/ExpressionExpander.cs:39-63 | Invoking a factorial that captures itself does not return, with any arguments. |
| ExpanderLimits.AcyclicIsNotEnough | Tx/Helpers/DB/LinqKit/ExpressionExpander.cs:39-63 | `(x => thunk.Invoke())(thunk.Invoke())` with a closed `thunk` that has no captured field but shares `x`: expansion needs more depth than any given one. |
| ExpanderLimits.InvokingACompiledTreeFails | Tx/Helpers/DB/LinqKit/ExpressionExpander.cs:41-45 | Invoking the result of `Compile()` fails, although `Compile()` of a captured tree on its own is expanded. |
| Visitor.VisitList | Tx/Helpers/DB/LinqKit/ExpressionVisitor.cs:191-296 | The lazily allocating loop, for any element type and visitor: it returns the elementwise visit, copies exactly when some element changed, and otherwise returns the original. |
| Visitor.VisitExpressionList | Tx/Helpers/DB/LinqKit/ExpressionVisitor.cs:191-216 | The same loop over the expander computes the list visit that the expander's theorems are about. |
| Predicates.SeedIsNeutral | Tx/Helpers/DB/LinqKit/PredicateBuilder.cs:13-14 | A conjunction may start from `True` and a disjunction from `False`; the other seed decides the result. |
| Predicates.RenameKeepsTruth | Tx/Helpers/DB/LinqKit/PredicateBuilder.cs:16-30 | Visiting a predicate's body with its parameter standing for another keeps its truth value at every argument, also where it has none, and leaves only the new parameter free. |
| Predicates.LeftFoldsExpandCorrectly | Tx/Helpers/DB/LinqKit/PredicateBuilder.cs:16-30 | Every left fold with any mix of `And` and `Or`, repetitions included, expands to an invocation-free predicate whose truth value is the same fold of the given predicates' values. |
| PredicateNesting.ExpandCombination | Tx/Helpers/DB/LinqKit/PredicateBuilder.cs:16-30 | How any combination with separate parameters expands: both operands are visited, the right one with its parameter standing for the left one's. |
| PredicateNesting.LeftoverIsExact | Tx/Helpers/DB/LinqKit/ExpressionExpander.cs:55-63 | Exactly which parameters the expansion of any such combination leaves free. |
| PredicateNesting.RightNestingLeaks | Tx/Helpers/DB/LinqKit/ExpressionExpander.cs:55-63 | A right operand that is a combination leaves its parameter unbound if the leftmost predicate of its own right operand uses the one it has. |
| PredicateNesting.ClosedExactlyWithoutLeaks | Tx/Helpers/DB/LinqKit/PredicateBuilder.cs:13-30 | Every combination of predicates with parameters of their own, `True` and `False` included, expands to an invocation-free predicate, which is closed if and only if, off the left spine, the leftmost predicate of each right operand ignores its parameter. |
| PredicateNesting.CorrectWithoutLeaks | Tx/Helpers/DB/LinqKit/PredicateBuilder.cs:13-30 | Those closed results have the combination's truth value at every argument. |
| PredicateNesting.ClosedExactlyForLeftFolds | Tx/Helpers/DB/LinqKit/PredicateBuilder.cs:16-30 | If every predicate uses its parameter, the expansion is closed if and only if the combination is a left fold. |
| PredicateNesting.RightNestingLosesMeaning | Tx/Helpers/DB/LinqKit/PredicateBuilder.cs:24-30 | `p1.And(p2.And(p3))`: true at every argument before expansion, without a value at any after it. |
| BoundedQueue.StepKeepsInvariant | Tx/PplxSchedulers/bounded_concurrent_queue.hpp:15-39 | Items queued, producers past the wait and pending notifications together stay within the limit at each step. |
| BoundedQueue.RunKeepsInvariant | Tx/PplxSchedulers/bounded_concurrent_queue.hpp:15-39 | The same over every run. |
| BoundedQueue.FirstInFirstOut | Tx/PplxSchedulers/bounded_concurrent_queue.hpp:15-31 | In every run the queue holds the items of the pushes, in order, without the first ones, one for each pop. |
| BoundedQueue.NotifyReleasesOne | Tx/PplxSchedulers/bounded_concurrent_queue.hpp:28-29 | A notification releases exactly one waiting producer if there is any. |
| BoundedQueue.ConsumersGoOn | Tx/PplxSchedulers/bounded_concurrent_queue.hpp:25-31 | A consumer can take an item exactly when there is one. |
| BoundedQueue.ReachLimit | Tx/PplxSchedulers/bounded_concurrent_queue.hpp:33-39 | For every number of producers and consumers some run reaches the limit. |
| BoundedQueue.LengthsReached | Tx/PplxSchedulers/bounded_concurrent_queue.hpp:15-39 | A length occurs in some run if and only if it is at most `_max_size - 1 + P + C`, or `_max_size - 1 + P` if popping and notifying were one step; only the empty queue occurs without producers or with a maximum of 0. |
| Scheduler.Clamp | Tx/PplxSchedulers/LimitedScheduler.cpp:26 | The request where it lies in 4..64, else the nearer end of that range. |
| Scheduler.ThreadLimit | Tx/PplxSchedulers/LimitedScheduler.cpp:22-32 | The limit of a level lies in 2..32, all levels together stay within 64, and the sum is the clamped request or one more. |
| SchedulerTheorems.StepKeepsBookkeeping | Tx/PplxSchedulers/LimitedScheduler.cpp:112-137 | Every thread in the level map is in the state map with its right level, and is marked working exactly from its marking to its unmarking, so `addThread`'s lookup never fails or takes a running worker for free. |
| SchedulerTheorems.StepKeepsDiscipline | Tx/PplxSchedulers/LimitedScheduler.cpp:82-137 | At each level, tasks taken followed by tasks queued are the tasks pushed; tasks at level n have n ancestors; a worker runs a task taken from its own level and schedules only one level down. |
| SchedulerTheorems.CallDepth | Tx/PplxSchedulers/LimitedScheduler.cpp:82-95 | A task being scheduled has as many ancestors as its level's number, fewer than the number of levels. |
| SchedulerThreads.StepKeepsThreads | Tx/PplxSchedulers/LimitedScheduler.cpp:145-164 | Threads made are those joined, those queued and the one in the lock holder's hands; before the first is joined they never exceed the limit, despite the unlocked first tests. |
| SchedulerShutdown.EveryRunIsSafe | Tx/PplxSchedulers/LimitedScheduler.cpp:22-164 | Bookkeeping, task order and level discipline, and the thread limit, in every interleaving. |
| SchedulerTasks.QueuesAreHistories | Tx/PplxSchedulers/LimitedScheduler.cpp:95-137 | In every run, a level's log of pushed tasks is the history of the calls that went past their push, and its log of taken tasks that of the tasks its workers started. |
| SchedulerTasks.StartedInOrder | Tx/PplxSchedulers/LimitedScheduler.cpp:95-137 | By those histories: what a level's workers have started, followed by what is queued, is what was pushed there, in order. |
| SchedulerTasks.RunKeepsLogged | Tx/PplxSchedulers/LimitedScheduler.cpp:95-97 | In every run, a call past its push has its task in its level's log. |
| SchedulerTasks.RunRefusesFairly | Tx/PplxSchedulers/LimitedScheduler.cpp:92-93 | Calls end at the cancel test only after the flag is set, and only calls from outside. |
| SchedulerTasks.EveryTaskHasOnePlace | Tx/PplxSchedulers/LimitedScheduler.cpp:77-98 | In every run, each task ever created is in exactly one place: in a call before its push, refused, or once in the log of the level its ancestry says. |
| SchedulerControl.WorkersMoveForAReason | Tx/PplxSchedulers/LimitedScheduler.cpp:115-138 | A worker leaves its loop over the queue only when the queue is empty, its wait only for a task or the flag, returns only for the flag, and looks at the flag after each round. |
| SchedulerControl.GoneMeansCancelled | Tx/PplxSchedulers/LimitedScheduler.cpp:117-118 | In no run has a worker returned while the cancel flag is not set. |
| SchedulerControl.FindsFreeExactly | Tx/PplxSchedulers/LimitedScheduler.cpp:153-157 | The search finds a free worker exactly at a registered worker of the level that is not at work. |
| SchedulerControl.AddsThreadsForAReason | Tx/PplxSchedulers/LimitedScheduler.cpp:145-164 | A call gives up adding a thread exactly when the level is full, at most one task is queued or it sees a free worker, and under the lock exactly when the level is full by then. |
| SchedulerControl.BeginsExactly | Tx/PplxSchedulers/LimitedScheduler.cpp:79-90 | A call is accepted exactly from outside or from a task above the lowest level, before the scheduler is closed. |
| SchedulerControl.ThreadsWithinRequest | Tx/PplxSchedulers/LimitedScheduler.cpp:22-32 | In every interleaving before `close`, each level has made at least one thread and at most its share of the clamped request, together at most one more than it. |
| SchedulerControl.CallsGoOn | Tx/PplxSchedulers/LimitedScheduler.cpp:77-98 | A call is stuck only before a lock that another call holds. |
| SchedulerControl.WorkersGoOn | Tx/PplxSchedulers/LimitedScheduler.cpp:115-138 | A worker that has not returned is stuck only in its wait without a reason to leave, or in a task that is itself in a call. |
| SchedulerControl.CloserGoesOn | Tx/PplxSchedulers/LimitedScheduler.cpp:47-75 | The closing thread is stuck only in a join with a worker that has not returned. |
| SchedulerShutdown.ReachedMeansNoCalls | Tx/PplxSchedulers/LimitedScheduler.cpp:57-72 | When the closing thread is at a level, no call for that level is past its cancel test; for level 1 because level 0 has been joined. |
| SchedulerShutdown.LevelIsDone | Tx/PplxSchedulers/LimitedScheduler.cpp:57-72 | When the closing thread finds a level's thread queue empty, every worker of the level has returned. |
| SchedulerShutdown.OrderlyRunsStayQuiet | Tx/PplxSchedulers/LimitedScheduler.cpp:47-75 | The shutdown invariant in every run where no outside call is past its cancel test when the flag is set. |
| SchedulerShutdown.NothingStartsAfterClose | Tx/PplxSchedulers/LimitedScheduler.cpp:74-93 | After `close` no step makes a thread, takes a task or revives a worker. |
| SchedulerShutdown.ShutdownIsFinal | Tx/PplxSchedulers/LimitedScheduler.cpp:47-138 | In every such run, once `close` has returned all workers are gone, and in every continuation no task is taken and no thread made. |
| SchedulerLateThread.PrudentRunsStayCalm | Tx/PplxSchedulers/LimitedScheduler.cpp:47-164 | In every run where, when the flag is set, no outside call holds a made and unqueued thread past its cancel test: no worker of a level the closing thread is done with is past that test. |
| SchedulerLateThread.OrderlyRunIsPrudent | Tx/PplxSchedulers/LimitedScheduler.cpp:89-97 | Runs without outside calls past their cancel test are a special case. |
| SchedulerLateThread.NoTaskStartsAfterClose | Tx/PplxSchedulers/LimitedScheduler.cpp:47-138 | In every such run, whatever outside calls are still in progress, no task is taken after `close` has returned, in any continuation. |
| SchedulerLateCall.LateCallDefeatsShutdown | Tx/PplxSchedulers/LimitedScheduler.cpp:47-97 | A concrete run in which an outside call holds such a thread: `close` returns with it alive, and it then takes a task. |
| Interning.Convert | Tx/Helpers/DB/Algo/Impl/DbMaxStringValueRestricter.cs:31-37 | The longest prefix of at most 7900 characters. |
| Interning.FindValue | Tx/Helpers/DB/Algo/NonCollidableHashForeignerKey.cs:157-161 | A row with the hash and the value, or none if there is none. |
| Interning.FindKey | Tx/Helpers/DB/Algo/NonCollidableHashForeignerKey.cs:213-220 | A row with the key, or none if there is none. |
| Interning.RowChosen | Tx/Helpers/DB/Algo/NonCollidableHashForeignerKey.cs:148-201 | The row chosen for a value holds it under its hash; a new one gets the number after all those of the hash. |
| Interning.InterningKeepsValues | Tx/Helpers/DB/Algo/NonCollidableHashForeignerKey.cs:147-192 | Storing a value keeps the table sound, gives a key that reads the value, and leaves what every other key reads. |
| Interning.ApplyRefines | Tx/Helpers/DB/Algo/NonCollidableHashForeignerKey.cs:139-219 | One write: its row reads the cut value, or null for null or blank; every other row reads what it did. |
| Interning.InterningRefinesMap | Tx/Helpers/DB/Algo/NonCollidableHashForeignerKey.cs:139-219 | For every hash function, every sound database and every run of writes, a row reads the value last written to it. |
| Interning.StoresWhatWasWritten | Tx/Helpers/DB/Algo/NonCollidableHashForeignerKey.cs:148-201 | From an empty table: keys unique, one row per value, the colliders of each hash exactly 1..n, and the stored values exactly those ever written. |
| Interning.KeysAgreeWithValues | Tx/Helpers/DB/Algo/NonCollidableHashForeignerKey.cs:139-211 | Two rows hold equal keys if and only if they read equal values; a key is null exactly when nothing is read. |
| Interning.NumberedByHash | Tx/Helpers/DB/Algo/NonCollidableHashForeignerKey.cs:174-201 | In every sound table, a row's collider is one more than the number of rows before it with the same hash. |
| Interning.FirstFreeIsNext | Tx/Helpers/DB/Algo/NonCollidableHashForeignerKey.cs:194-201 | In every table, the number for a new row is above all those of its hash and follows the largest; it is 1 if there is none. |
| Interning.StoringExactly | Tx/Helpers/DB/Algo/NonCollidableHashForeignerKey.cs:148-192 | In every table, storing a value that is there adds nothing; otherwise one row is added, with that number. |
| Interning.WriteIsReadBack | Tx/Helpers/DB/Algo/NonCollidableHashForeignerKey.cs:139-211 | Null, empty and blank values read back as null, any other as its first 7900 characters. |
| Interning.ForeignKey.AddNewValue | Tx/Helpers/DB/Algo/NonCollidableHashForeignerKey.cs:182-192 | Appends the row and sets the referencer's key to it. |
| Interning.ForeignKey.InsertOrUpdateValue | Tx/Helpers/DB/Algo/NonCollidableHashForeignerKey.cs:139-180 | On the mutable table: the referencer then reads the value, every other key reads what it did, soundness is kept, and the row is returned, or null for null or blank. |
| LazyStream.OneCall | Tx/Helpers/SmartLowMemory/LazyConstructableStream.cs:31-85 | One call before opening: lazy and eager replies are equal if and only if the call is benign, and the streams then still correspond. |
| LazyStream.AgreesExactlyWhenBenign | Tx/Helpers/SmartLowMemory/LazyConstructableStream.cs:16-85 | Every run: all replies are equal if and only if each call up to the opening one is benign; content and position then agree too. |
| LazyStream.FactoryRunsAtMostOnce | Tx/Helpers/SmartLowMemory/LazyConstructableStream.cs:20-26 | The factory runs at most once in every run, also when setting the position fails. |
| LazyStream.SeekFromEndGoesTheWrongWay | Tx/Helpers/SmartLowMemory/LazyConstructableStream.cs:45-47 | Seeking back from the end by any amount lands that far behind the end. |
| LazyStream.SeekFromEndExactly | Tx/Helpers/SmartLowMemory/LazyConstructableStream.cs:45-59 | For every offset and every answer of the size getter: the reply and the next state of a seek from the end of an unopened stream, and exactly when it throws. |
| LazyStream.UnopenedExactly | Tx/Helpers/SmartLowMemory/LazyConstructableStream.cs:29-85 | Reply and next state of every other call on an unopened stream, negative positions, wrong sizes and failed openings included. |
| LazyStream.OpenExactly | Tx/Helpers/SmartLowMemory/LazyConstructableStream.cs:31-85 | Reply and next state of every call on an open stream; the factory does not run again. |
| LazyStream.LazyConstructableStream.Value | Tx/Helpers/SmartLowMemory/LazyConstructableStream.cs:20-26 | Opens at the virtual position once, and keeps a failure. |
| LazyStream.LazyConstructableStream.Length | Tx/Helpers/SmartLowMemory/LazyConstructableStream.cs:69 | Asks the open stream, else the size getter, else opens the stream. |
| LazyStream.LazyConstructableStream.Seek | Tx/Helpers/SmartLowMemory/LazyConstructableStream.cs:31 | Takes the step of the lazy machine that the run theorems are about. |
| LazyStream.LazyConstructableStream.VirtualSeek | Tx/Helpers/SmartLowMemory/LazyConstructableStream.cs:33-59 | Reply, position and cell for each origin before opening, including an opening by `Length` on the way. |
| LazyStream.LazyConstructableStream.Position | Tx/Helpers/SmartLowMemory/LazyConstructableStream.cs:73 | Reads the virtual or the real position, changing nothing. |
| LazyStream.LazyConstructableStream.SetPosition | Tx/Helpers/SmartLowMemory/LazyConstructableStream.cs:74-84 | Takes the step of the lazy machine for a position change. |
| LazyStream.LazyConstructableStream.Forward | Tx/Helpers/SmartLowMemory/LazyConstructableStream.cs:62-68 | Opens the stream if need be and takes the forwarded step. |
| LongRunning.StepKeepsInv | Tx/Helpers/Tasks/LongRunning/LongRunningTask.cs:22-130 | Each step other than a stop that gives up keeps: one lock holder, every live worker remembered or in the holder's hands, sources and tokens matching their workers. |
| LongRunning.RunKeepsBase | Tx/Helpers/Tasks/LongRunning/LongRunningTask.cs:22-130 | Over every run, giving up or not: one lock holder, what it knows at each place, and tokens and sources matching their workers. |
| LongRunning.RunKeepsInv | Tx/Helpers/Tasks/LongRunning/LongRunningTask.cs:22-130 | The same over every run in which no stop gives up. |
| LongRunning.SafeUnlessGivenUp | Tx/Helpers/Tasks/LongRunning/LongRunningTask.cs:22-130 | In such runs at most one worker is live, with the token of its own start, which is the published one and the one a stop cancels; none is live after a `Dispose` has returned. |
| LongRunning.DisposeIsFinal | Tx/Helpers/Tasks/LongRunning/LongRunningTask.cs:100-113 | After a `Dispose` has returned, in every continuation no worker is made, and none is live unless a stop gave up. |
| LongRunning.StopCancelsItsWorker | Tx/Helpers/Tasks/LongRunning/LongRunningTask.cs:115-130 | In every run, each stopping operation has cancelled its own worker's token before it waits. |
| LongRunning.CancelsOnlyToStop | Tx/Helpers/Tasks/LongRunning/LongRunningTask.cs:92-130 | Nothing but a stopping operation, which cancels its worker's token, and the protected `Cancel`, which cancels the current source, cancels anything. |
| LongRunning.OperationsLeave | Tx/Helpers/Tasks/LongRunning/LongRunningTask.cs:22-113 | A stopping operation that returns leaves no worker remembered and, unless a stop gave up, none live; a `Start` that returns leaves one remembered, unless disposed. |
| LongRunning.PlainWaitOnlyWaits | Tx/Helpers/Tasks/LongRunning/LongRunningTask.cs:59-77 | A plain wait changes nothing but the lock, and ends by itself only without a worker or with a finished one, or when disposed. |
| LongRunning.RunsOnlyUncancelled | Tx/Helpers/Tasks/LongRunning/LongRunningTask.cs:35-40 | A worker gets to run only if its token is not cancelled by then. |
| LongRunning.BeginsUnlessCancelled | Tx/Helpers/Tasks/LongRunning/LongRunningTask.cs:35-40 | A worker that gets its turn runs if its token is not cancelled, and is finished otherwise. |
| LongRunning.OwnStepKeepsOperation | Tx/Helpers/Tasks/LongRunning/LongRunningTask.cs:22-113 | A call remains the operation that was called, from its first place to its last. |
| LongRunning.CallsGoOn | Tx/Helpers/Tasks/LongRunning/LongRunningTask.cs:22-130 | A call is stuck only before a held lock or in a wait for an unfinished worker. |
| LongRunning.GivesUpExactly | Tx/Helpers/Tasks/LongRunning/LongRunningTask.cs:59-130 | A wait can give up on an unfinished worker exactly if it is a plain wait or the stop timeout is finite; cancelling can throw exactly if a callback may. |
| LongRunning.PatientNeverGivesUp | Tx/Helpers/Tasks/LongRunning/LongRunningTask.cs:115-130 | With an infinite stop timeout and quiet callbacks no stop gives up. |
| LongRunningSettings.TwoWorkers | Tx/Helpers/Tasks/LongRunning/LongRunningTask.cs:115-130 | Otherwise start, stop, start can have two workers running at once. |
| LongRunningSettings.SingleExactlyWhenPatient | Tx/Helpers/Tasks/LongRunning/LongRunningTask.cs:22-130 | At most one worker is live in every run if and only if the stop timeout is infinite and no callback throws. |
| LongRunningSettings.LiveAfterDispose | Tx/Helpers/Tasks/LongRunning/LongRunningTask.cs:100-130 | Otherwise start, dispose can leave a worker running after `Dispose` has returned. |
| LongRunningSettings.QuietExactlyWhenPatient | Tx/Helpers/Tasks/LongRunning/LongRunningTask.cs:100-130 | No worker is live after a `Dispose` has returned, in every run, if and only if the stop timeout is infinite and no callback throws. |
| Bits.SmearSetsWindow | BitsAlgorithms.h:50-56 | After k steps a bit is set exactly when one of the 2^k bits from it upwards was. |
| Bits.SmearFills | BitsAlgorithms.h:50-56 | On a value that fits the word, smearing sets exactly the bits up to the top one. |
| Bits.RoundUpIsLeastPower | BitsAlgorithms.h:46-65 | Over any word of 2^k bits: the least power of two not below the input, for inputs from 1 to half the range, and 0 for every other input. |
| Bits.TestIsExact | BitsAlgorithms.h:34-40 | `v & (v - 1)` is zero for a non-zero `v` if and only if `v` is a power of two. |
| Bits.FixedExactlyOnPowers | BitsAlgorithms.h:34-70 | A positive value is left alone if and only if it passes the test; the result passes it if and only if the input is from 1 to half the range. |
| Bits.RoundUp32 | BitsAlgorithms.h:46-69 | The 32-bit code on 1..2^30: the least power of two not below the input, within the same range. |

## Left out

- Values of lambdas: a lambda takes data to data, and parameters stand for data. Passing lambdas to invoked lambdas is outside the evaluator, not outside the rewriting.
- Meaning preservation is stated in one direction: a value of the expression is a value of its expansion. Expansion may give a value where the expression has none, for example when an unused argument throws.
- Node kinds: everything the visitor treats child by child (unary, binary, member access, calls, construction, arrays, initialisers, type tests) is one constructor with a list of children; node types and coalesce conversions are not told apart. `Expression.Invoke` and the `Invoke` extension method, which are rewritten by the same steps, share a constructor.
- Tests on names of closure types, and null or foreign closure objects: a captured field holds a tree, holds data, or is unknown.
- ExpanderTheorems.SettledIsUnchanged: states equality of trees; identity of objects is stated by Visitor.SettledReturnsItself, through a predicate on trees rather than through object references.
- ExpanderTermination.EveryVisitReturns: an invoked captured field holds a lambda, or a constant or ordinary node that cannot become one; the static types of `Invoke` leave nothing else. That invoked lambdas share no parameter with captured trees below them is sufficient, not necessary: sharing may also end in an exception.
- Expander.FuelIsMonotone: the depth bound stands in for a visit that does not return; real stack exhaustion is not modelled.
- Static typing of expression trees: ill-typed trees are allowed and may simply have no value.
- Scheduler liveness: notifications are sent without the mutex and can be lost, so no task is promised to run; only safety is stated.
- Scheduler grain: the closed test and the caller's own level lookup at the start of `schedule` are one step; the search for a free worker may miss one that is free; waiting in a full task queue is a delay before the push; the task queue's pop and notification are one step there.
- Spurious wake-ups, reuse of thread ids, inexact `unsafe_size`, thread locale, tracing and failing thread creation.
- Calls of `close` from a task or from several threads.
- SchedulerShutdown.ShutdownIsFinal: requires that no outside call is past its cancel test when the flag is set; SchedulerLateThread.NoTaskStartsAfterClose asks much less for the part about tasks. Runs that break either condition without harm are not told apart.
- Interning: collation of the database, rows not yet saved, deletion, a hasher that returns null, and overflow of the collider.
- Lazy stream: disposal, timeouts as such, a factory that throws, and a factory whose stream starts at a position other than 0; the eager stream it is compared with starts at 0. `Flush` is taken to change nothing that can be read.
- Long-running task: calls made by cancellation callbacks while the lock is held, failing thread creation, and the exceptions that `Stop` lets through; the work itself and its periodic schedules are arbitrary.
- Bits: the run-time functions declared in `BitsAlgorithms.h`, whose bodies are not in that file.
- Container and allocator helpers, stack walking, exception logging, serialisation, hashing, content management, constraint checks, small LINQ helpers, build scripts: library wrappers, operating-system calls, or code with only easy properties.
