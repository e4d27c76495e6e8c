/** Expression trees as the LinqKit expander sees them, and what they evaluate to. */
module Trees {
  import opened Wrappers

  /** Identity of a `ParameterExpression` object; two parameters are the same only if they are one object. */
  type ParamId = nat
  /** Identity of a field of a compiler-generated closure object. */
  type Field = nat

  /** First-order data: booleans, and everything else under an arbitrary numbering. */
  datatype Data = Truth(b: bool) | Other(id: int)

  /** `Strict` stands for every operator, member access, call, construction or array node that
      evaluates all its children; the other three evaluate lazily. */
  datatype Op = AndAlso | OrElse | Condition | Strict(name: nat)

  datatype Expr =
    | Constant(data: Data)
    | Quoted(tree: Expr)                        // a constant whose value is itself an expression tree
    | Parameter(id: ParamId)
    | Node(op: Op, children: seq<Expr>)         // every node kind that is visited child by child
    | Lambda(params: seq<ParamId>, body: Expr)
    | Invoke(target: Expr, args: seq<Expr>)     // Expression.Invoke and the Invoke extension method
    | Captured(field: Field)                    // a field of a closure object
    | Compile(source: Expr)                     // source.Compile()
    | AsExpandable(source: Expr)                // source.AsExpandable()

  /** What a closure field holds at the time of expansion. */
  datatype Slot = Tree(tree: Expr) | Plain(data: Data)
  type Store = map<Field, Slot>

  predicate HoldsTree(S: Store, f: Field) {
    f in S && S[f].Tree?
  }

  // ---------------------------------------------------------------- syntax

  function FreeParams(e: Expr): set<ParamId> {
    match e
    case Constant(_) => {}
    case Quoted(_) => {}
    case Parameter(p) => {p}
    case Node(_, cs) => set i, p | 0 <= i < |cs| && p in FreeParams(cs[i]) :: p
    case Lambda(ps, b) => FreeParams(b) - Elements(ps)
    case Invoke(t, args) => FreeParams(t) + set i, p | 0 <= i < |args| && p in FreeParams(args[i]) :: p
    case Captured(_) => {}
    case Compile(s) => FreeParams(s)
    case AsExpandable(s) => FreeParams(s)
  }

  function FreeParamsOfAll(es: seq<Expr>): set<ParamId> {
    set i, p | 0 <= i < |es| && p in FreeParams(es[i]) :: p
  }

  function Elements<T>(s: seq<T>): set<T> {
    set x | x in s
  }

  predicate Distinct<T(==)>(s: seq<T>) {
    s == [] || (s[0] !in s[1..] && Distinct(s[1..]))
  }

  /** The association of the i-th key with the i-th value; a later key wins over an equal earlier one. */
  function Zip<K, V>(ks: seq<K>, vs: seq<V>): map<K, V>
    requires |ks| == |vs|
  {
    if ks == [] then map[] else Zip(ks[..|ks| - 1], vs[..|ks| - 1])[ks[|ks| - 1] := vs[|ks| - 1]]
  }

  lemma {:induction false} ZipKeys<K, V>(ks: seq<K>, vs: seq<V>)
    requires |ks| == |vs|
    ensures Zip(ks, vs).Keys == Elements(ks)
  {
    if ks != [] {
      assert ks == ks[..|ks| - 1] + [ks[|ks| - 1]];
      ZipKeys(ks[..|ks| - 1], vs[..|ks| - 1]);
    }
  }

  lemma {:induction false} ZipAt<K, V>(ks: seq<K>, vs: seq<V>, k: K) returns (i: nat)
    requires |ks| == |vs| && k in ks
    ensures i < |ks| && ks[i] == k && k in Zip(ks, vs) && Zip(ks, vs)[k] == vs[i]
  {
    var n := |ks| - 1;
    if ks[n] == k {
      i := n;
    } else {
      i := ZipAt(ks[..n], vs[..n], k);
    }
  }

  // ---------------------------------------------------------------- evaluation

  /** A function value takes data to data. */
  datatype Value = D(data: Data) | Fn(apply: seq<Data> -> Option<Data>)

  type Env = map<ParamId, Data>

  /** What each strict operator or method computes; `None` is an exception. */
  type Methods = (nat, seq<Value>) -> Option<Data>

  predicate AreData(vs: seq<Value>) {
    forall i :: 0 <= i < |vs| ==> vs[i].D?
  }

  function AllData(vs: seq<Value>): Option<seq<Data>> {
    if AreData(vs) then Some(seq(|vs|, i requires 0 <= i < |vs| => if vs[i].D? then vs[i].data else Other(0))) else None
  }

  /** Call-by-value evaluation.  `n` bounds only the nesting of captured trees; an expression
      evaluates to `v` when it does so for some `n`. */
  function Eval(M: Methods, S: Store, n: nat, e: Expr, env: Env): Option<Value>
    decreases n, e, 1
  {
    match e
    case Constant(d) => Some(D(d))
    case Quoted(t) => Eval(M, S, n, t, map[])
    case Parameter(p) => if p in env then Some(D(env[p])) else None
    case Node(op, cs) => EvalNode(M, S, n, op, cs, env)
    case Lambda(ps, b) =>
      Some(Fn((xs: seq<Data>) => if |xs| == |ps| then ToData(Eval(M, S, n, b, env + Zip(ps, xs))) else None))
    case Invoke(t, args) =>
      Apply(Eval(M, S, n, t, env), EvalAll(M, S, n, args, env))
    case Captured(f) =>
      if f !in S then None
      else if S[f].Plain? then Some(D(S[f].data))
      else if n == 0 then None
      else Eval(M, S, n - 1, S[f].tree, map[])
    case Compile(s) =>
      var f := Eval(M, S, n, s, env);
      if f.Some? && f.value.Fn? then f else None
    case AsExpandable(s) => Eval(M, S, n, s, env)
  }

  function Apply(f: Option<Value>, args: Option<seq<Value>>): Option<Value> {
    if f.None? || !f.value.Fn? || args.None? then None else
    var ds :- AllData(args.value);
    var d :- f.value.apply(ds);
    Some(D(d))
  }

  function ToData(v: Option<Value>): Option<Data> {
    if v.Some? && v.value.D? then Some(v.value.data) else None
  }

  function EvalNode(M: Methods, S: Store, n: nat, op: Op, cs: seq<Expr>, env: Env): Option<Value>
    decreases n, cs, 2
  {
    match op
    case AndAlso =>
      if |cs| == 2 then ShortCircuit(false, Eval(M, S, n, cs[0], env), Eval(M, S, n, cs[1], env)) else None
    case OrElse =>
      if |cs| == 2 then ShortCircuit(true, Eval(M, S, n, cs[0], env), Eval(M, S, n, cs[1], env)) else None
    case Condition =>
      if |cs| == 3
      then Choose(Eval(M, S, n, cs[0], env), Eval(M, S, n, cs[1], env), Eval(M, S, n, cs[2], env)) else None
    case Strict(m) =>
      var vs :- EvalAll(M, S, n, cs, env);
      var d :- M(m, vs);
      Some(D(d))
  }

  function TruthOf(v: Option<Value>): Option<bool> {
    if v.Some? && v.value.D? && v.value.data.Truth? then Some(v.value.data.b) else None
  }

  /** A connective decided by a left operand equal to `stop`; the right operand counts only otherwise. */
  function ShortCircuit(stop: bool, l: Option<Value>, r: Option<Value>): Option<Value> {
    if TruthOf(l) == Some(stop) then Some(D(Truth(stop)))
    else if TruthOf(l) == Some(!stop) && TruthOf(r).Some? then Some(D(Truth(TruthOf(r).value)))
    else None
  }

  function Choose(test: Option<Value>, yes: Option<Value>, no: Option<Value>): Option<Value> {
    match TruthOf(test)
    case Some(b) => if b then yes else no
    case None => None
  }

  function EvalAll(M: Methods, S: Store, n: nat, es: seq<Expr>, env: Env): Option<seq<Value>>
    decreases n, es, 0
  {
    if es == [] then Some([])
    else
      var v :- Eval(M, S, n, es[0], env);
      var vs :- EvalAll(M, S, n, es[1..], env);
      Some([v] + vs)
  }

  /** A list evaluates exactly when each element does, to the list of their values. */
  lemma {:induction false} EvalAllPointwise(M: Methods, S: Store, n: nat, es: seq<Expr>, env: Env)
    ensures EvalAll(M, S, n, es, env).Some? <==> forall i :: 0 <= i < |es| ==> Eval(M, S, n, es[i], env).Some?
    ensures EvalAll(M, S, n, es, env).Some? ==>
      && |EvalAll(M, S, n, es, env).value| == |es|
      && forall i :: 0 <= i < |es| ==> Eval(M, S, n, es[i], env) == Some(EvalAll(M, S, n, es, env).value[i])
  {
    if es != [] {
      EvalAllPointwise(M, S, n, es[1..], env);
      assert forall i :: 1 <= i < |es| ==> es[i] == es[1..][i - 1];
      assert forall i :: 0 <= i < |es[1..]| ==> es[1..][i] == es[i + 1];
    }
  }

  /** A conditional takes the branch its test says, and a connective is decided by its left operand where it can be. */
  lemma LazyNodes(M: Methods, S: Store, n: nat, a: Expr, b: Expr, c: Expr, env: Env)
    ensures Eval(M, S, n, Node(Condition, [a, b, c]), env) ==
      match TruthOf(Eval(M, S, n, a, env)) {
        case Some(true) => Eval(M, S, n, b, env)
        case Some(false) => Eval(M, S, n, c, env)
        case None => None
      }
    ensures TruthOf(Eval(M, S, n, Node(AndAlso, [a, b]), env)) ==
      match TruthOf(Eval(M, S, n, a, env)) {
        case Some(true) => TruthOf(Eval(M, S, n, b, env))
        case other => other
      }
    ensures TruthOf(Eval(M, S, n, Node(OrElse, [a, b]), env)) ==
      match TruthOf(Eval(M, S, n, a, env)) {
        case Some(false) => TruthOf(Eval(M, S, n, b, env))
        case other => other
      }
  {
    var two, three := [a, b], [a, b, c];
    assert two[0] == three[0] == a && two[1] == three[1] == b && three[2] == c;
  }

  /** A strict operator gets the values of all its children, in order, or has no value. */
  lemma StrictNodes(M: Methods, S: Store, n: nat, name: nat, cs: seq<Expr>, vs: seq<Value>, env: Env)
    requires |vs| == |cs|
    ensures (forall i :: 0 <= i < |cs| ==> Eval(M, S, n, cs[i], env) == Some(vs[i])) ==>
      ToData(Eval(M, S, n, Node(Strict(name), cs), env)) == M(name, vs)
    ensures (exists i :: 0 <= i < |cs| && Eval(M, S, n, cs[i], env).None?) ==> Eval(M, S, n, Node(Strict(name), cs), env) == None
  {
    EvalAllPointwise(M, S, n, cs, env);
    if forall i :: 0 <= i < |cs| ==> Eval(M, S, n, cs[i], env) == Some(vs[i]) {
      assert EvalAll(M, S, n, cs, env).value == vs;
    }
  }

  /** A constant holding a tree, a captured tree, one stripped of `AsExpandable()` and one that is compiled stand for
      what the tree evaluates to on its own; what is compiled has to be a function. */
  lemma OtherNodes(M: Methods, S: Store, n: nat, t: Expr, f: Field, env: Env)
    ensures Eval(M, S, n, Quoted(t), env) == Eval(M, S, n, t, map[])
    ensures Eval(M, S, n, AsExpandable(t), env) == Eval(M, S, n, t, env)
    ensures Eval(M, S, n, Compile(t), env) ==
      if Eval(M, S, n, t, env).Some? && Eval(M, S, n, t, env).value.Fn? then Eval(M, S, n, t, env) else None
    ensures f in S && S[f].Plain? ==> Eval(M, S, n, Captured(f), env) == Some(D(S[f].data))
    ensures HoldsTree(S, f) ==> Eval(M, S, n + 1, Captured(f), env) == Eval(M, S, n, S[f].tree, map[])
  {
  }

  // ---------------------------------------------------------------- comparing values

  /** `w` is at least as defined as `v` and agrees with it: equal data, or a function that returns
      the same result wherever `v` returns one. */
  ghost predicate Leq(v: Value, w: Value) {
    match v
    case D(d) => w == D(d)
    case Fn(f) => w.Fn? && forall xs: seq<Data> :: f(xs).Some? ==> w.apply(xs) == f(xs)
  }

  ghost predicate LeqAll(vs: seq<Value>, ws: seq<Value>) {
    |vs| == |ws| && forall i :: 0 <= i < |vs| ==> Leq(vs[i], ws[i])
  }

  /** `w` is a value at least as good as the value of `v`, if `v` has one. */
  ghost predicate Refines(v: Option<Value>, w: Option<Value>) {
    v.Some? ==> w.Some? && Leq(v.value, w.value)
  }

  /** Methods observe a function argument only by applying it. */
  ghost predicate Observational(M: Methods) {
    forall m, vs, ws :: LeqAll(vs, ws) && M(m, vs).Some? ==> M(m, ws) == M(m, vs)
  }
}
