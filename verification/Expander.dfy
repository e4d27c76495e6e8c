/** The rewriting done by `ExpressionExpander` on top of the generic visitor. */
module Expander {
  import opened Trees

  /** How a visit ends.  `NotALambda` is the failed cast of an invocation target,
      `InvokedRecursively` the exception for a parameter that is already in the dictionary, and
      `OutOfFuel` marks a visit that needs a deeper nesting of captured trees than it was given. */
  datatype Outcome<+T> = Ok(value: T) | NotALambda | InvokedRecursively | OutOfFuel {
    predicate IsFailure() { !Ok? }
    function PropagateFailure<U>(): Outcome<U>
      requires !Ok?
    {
      match this
      case NotALambda => NotALambda
      case InvokedRecursively => InvokedRecursively
      case OutOfFuel => OutOfFuel
    }
    function Extract(): T requires Ok? { value }
  }

  /** The replacement dictionary of an expander. */
  type Subst = map<ParamId, Expr>

  /** Whether every parameter can be added to a dictionary with keys `D`, each with an argument. */
  predicate Addable(D: set<ParamId>, ps: seq<ParamId>, args: seq<Expr>) {
    |ps| <= |args| && Distinct(ps) && Elements(ps) !! D
  }

  /** The dictionary for visiting the body of an invoked lambda: the enclosing one with every
      parameter added in turn. */
  function Bind(sub: Subst, ps: seq<ParamId>, args: seq<Expr>): Outcome<Subst>
    decreases |ps|
  {
    if ps == [] then Ok(sub)
    else if args == [] || ps[0] in sub then InvokedRecursively
    else Bind(sub[ps[0] := args[0]], ps[1..], args[1..])
  }

  /** Binding succeeds exactly when no parameter is repeated, already a key, or without an argument;
      it then adds each parameter with its own argument and keeps every other entry. */
  lemma {:induction false} BindMeaning(sub: Subst, ps: seq<ParamId>, args: seq<Expr>)
    ensures Bind(sub, ps, args).Ok? <==> Addable(sub.Keys, ps, args)
    ensures !Bind(sub, ps, args).Ok? ==> Bind(sub, ps, args) == InvokedRecursively
    ensures Bind(sub, ps, args).Ok? ==>
      var m := Bind(sub, ps, args).value;
      && m.Keys == sub.Keys + Elements(ps)
      && (forall i :: 0 <= i < |ps| ==> m[ps[i]] == args[i])
      && (forall p :: p in sub ==> m[p] == sub[p])
    decreases |ps|
  {
    if ps != [] && args != [] {
      assert ps == [ps[0]] + ps[1..];
      assert Elements(ps) == {ps[0]} + Elements(ps[1..]);
      if ps[0] !in sub {
        var next: Subst := sub[ps[0] := args[0]];
        BindMeaning(next, ps[1..], args[1..]);
        assert next.Keys == sub.Keys + {ps[0]};
      }
    }
  }

  /** The loop that fills the dictionary, one `Add` at a time. */
  method FillDictionary(sub: Subst, ps: seq<ParamId>, args: seq<Expr>) returns (r: Outcome<Subst>)
    ensures r == Bind(sub, ps, args)
    ensures r.Ok? <==> Addable(sub.Keys, ps, args)
  {
    BindMeaning(sub, ps, args);
    var replaceVars: Subst := sub;
    var i := 0;
    while i < |ps|
      invariant i <= |ps| && i <= |args|
      invariant Bind(sub, ps, args) == Bind(replaceVars, ps[i..], args[i..])
    {
      if i >= |args| || ps[i] in replaceVars {
        return InvokedRecursively;
      }
      assert ps[i..][1..] == ps[i + 1..] && args[i..][1..] == args[i + 1..];
      replaceVars := replaceVars[ps[i] := args[i]];
      i := i + 1;
    }
    r := Ok(replaceVars);
  }

  /** Visits `e` with dictionary `sub`.  `k` bounds the nesting of captured trees that are inlined:
      a visit that terminates is one that gives the same answer for every large enough `k`. */
  function Expand(S: Store, k: nat, sub: Subst, e: Expr): Outcome<Expr>
    decreases k, e, 1
  {
    match e
    case Constant(_) => Ok(e)
    case Quoted(_) => Ok(e)
    case Parameter(p) => Ok(if p in sub then sub[p] else e)
    case Node(op, cs) =>
      var cs' :- ExpandAll(S, k, sub, cs);
      Ok(Node(op, cs'))
    case Lambda(ps, b) =>
      var b' :- Expand(S, k, sub, b);
      Ok(Lambda(ps, b'))
    case Captured(f) =>
      if !HoldsTree(S, f) then Ok(e)
      else if k == 0 then OutOfFuel
      else Expand(S, k - 1, sub, S[f].tree)
    case Compile(s) =>
      if s.Captured? && !HoldsTree(S, s.field) then Ok(e)
      else if s.Captured? then Expand(S, k, sub, s)
      else
        var s' :- Expand(S, k, sub, s);
        Ok(Compile(s'))
    case AsExpandable(s) => Ok(s)
    case Invoke(t, args) =>
      if t.Captured? && HoldsTree(S, t.field) then
        if k == 0 then OutOfFuel else
        var lambda :- Expand(S, k - 1, sub, S[t.field].tree);
        Enter(S, k - 1, sub, lambda, args)
      else
        Enter(S, k, sub, t, args)
  }

  /** Unwraps a constant, insists on a lambda, and visits its body with the arguments in the dictionary. */
  function Enter(S: Store, k: nat, sub: Subst, target: Expr, args: seq<Expr>): Outcome<Expr>
    decreases k, target, 0
  {
    var lambda := if target.Quoted? then target.tree else target;
    if !lambda.Lambda? then NotALambda else
    var inner :- Bind(sub, lambda.params, args);
    Expand(S, k, inner, lambda.body)
  }

  /** The elementwise visit of a list, left to right, stopping at the first failure. */
  function ExpandAll(S: Store, k: nat, sub: Subst, es: seq<Expr>): Outcome<seq<Expr>>
    decreases k, es, 0
  {
    if es == [] then Ok([])
    else
      var e' :- Expand(S, k, sub, es[0]);
      var es' :- ExpandAll(S, k, sub, es[1..]);
      Ok([e'] + es')
  }

  lemma {:induction false} ExpandAllPointwise(S: Store, k: nat, sub: Subst, es: seq<Expr>)
    ensures ExpandAll(S, k, sub, es).Ok? <==> forall i :: 0 <= i < |es| ==> Expand(S, k, sub, es[i]).Ok?
    ensures ExpandAll(S, k, sub, es).Ok? ==>
      && |ExpandAll(S, k, sub, es).value| == |es|
      && forall i :: 0 <= i < |es| ==> Expand(S, k, sub, es[i]) == Ok(ExpandAll(S, k, sub, es).value[i])
  {
    if es != [] {
      ExpandAllPointwise(S, k, sub, es[1..]);
      assert forall i :: 1 <= i < |es| ==> es[i] == es[1..][i - 1];
      assert forall i :: 0 <= i < |es[1..]| ==> es[1..][i] == es[i + 1];
    }
  }

  /** More fuel never changes an answer. */
  lemma {:induction false} FuelIsMonotone(S: Store, k: nat, m: nat, sub: Subst, e: Expr)
    requires k <= m && Expand(S, k, sub, e) != OutOfFuel
    ensures Expand(S, m, sub, e) == Expand(S, k, sub, e)
    decreases k, e, 1
  {
    match e
    case Node(op, cs) => FuelIsMonotoneAll(S, k, m, sub, cs);
    case Lambda(ps, b) => FuelIsMonotone(S, k, m, sub, b);
    case Captured(f) => if HoldsTree(S, f) { FuelIsMonotone(S, k - 1, m - 1, sub, S[f].tree); }
    case Compile(s) => if !(s.Captured? && !HoldsTree(S, s.field)) { FuelIsMonotone(S, k, m, sub, s); }
    case Invoke(t, args) =>
      if t.Captured? && HoldsTree(S, t.field) {
        FuelIsMonotone(S, k - 1, m - 1, sub, S[t.field].tree);
        var lambda := Expand(S, k - 1, sub, S[t.field].tree);
        if lambda.Ok? { EnterIsMonotone(S, k - 1, m - 1, sub, lambda.value, args); }
      } else {
        EnterIsMonotone(S, k, m, sub, t, args);
      }
    case _ =>
  }

  lemma {:induction false} EnterIsMonotone(S: Store, k: nat, m: nat, sub: Subst, target: Expr, args: seq<Expr>)
    requires k <= m && Enter(S, k, sub, target, args) != OutOfFuel
    ensures Enter(S, m, sub, target, args) == Enter(S, k, sub, target, args)
    decreases k, target, 0
  {
    var lambda := if target.Quoted? then target.tree else target;
    if lambda.Lambda? && Bind(sub, lambda.params, args).Ok? {
      FuelIsMonotone(S, k, m, Bind(sub, lambda.params, args).value, lambda.body);
    }
  }

  lemma {:induction false} FuelIsMonotoneAll(S: Store, k: nat, m: nat, sub: Subst, es: seq<Expr>)
    requires k <= m && ExpandAll(S, k, sub, es) != OutOfFuel
    ensures ExpandAll(S, m, sub, es) == ExpandAll(S, k, sub, es)
    decreases k, es, 0
  {
    if es != [] {
      FuelIsMonotone(S, k, m, sub, es[0]);
      if Expand(S, k, sub, es[0]).Ok? {
        FuelIsMonotoneAll(S, k, m, sub, es[1..]);
      }
    }
  }
}
