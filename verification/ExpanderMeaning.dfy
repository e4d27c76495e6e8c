/** Expansion preserves the value of an expression. */
module ExpanderMeaning {
  import opened Wrappers
  import opened Trees
  import opened Expander
  import opened ExpanderTheorems

  // As in `ExpanderTheorems`, preconditions of the form `Fits(...) == true` keep the predicate in one piece.

  lemma ChildScope(op: Op, cs: seq<Expr>, i: nat)
    requires i < |cs|
    ensures FreeParams(cs[i]) <= FreeParams(Node(op, cs))
  {
  }

  lemma ArgScope(t: Expr, args: seq<Expr>, i: nat)
    requires i < |args|
    ensures FreeParams(args[i]) <= FreeParamsOfAll(args) <= FreeParams(Invoke(t, args))
  {
  }

  // ---------------------------------------------------------------- the evaluator

  /** The two environments agree on those parameters in `X` that the first one defines. */
  ghost predicate SameOn(X: set<ParamId>, env: Env, env': Env) {
    forall p :: p in X && p in env ==> p in env' && env'[p] == env[p]
  }

  /** Evaluation depends on the free parameters only, and more depth never changes a value. */
  lemma {:induction false} EvalIsStable(M: Methods, S: Store, n: nat, m: nat, e: Expr, env: Env, env': Env)
    requires Observational(M) && n <= m && SameOn(FreeParams(e), env, env')
    ensures Refines(Eval(M, S, n, e, env), Eval(M, S, m, e, env'))
    decreases n, e
  {
    match e
    case Quoted(t) => EvalIsStable(M, S, n, m, t, map[], map[]);
    case Node(op, cs) =>
      forall i | 0 <= i < |cs| ensures Refines(Eval(M, S, n, cs[i], env), Eval(M, S, m, cs[i], env')) {
        ChildScope(op, cs, i);
        EvalIsStable(M, S, n, m, cs[i], env, env');
      }
      NodeRefines(M, S, n, m, op, cs, cs, env, env');
    case Lambda(ps, b) =>
      forall xs: seq<Data> | |xs| == |ps|
        ensures Refines(Eval(M, S, n, b, env + Zip(ps, xs)), Eval(M, S, m, b, env' + Zip(ps, xs)))
      {
        ZipKeys(ps, xs);
        EvalIsStable(M, S, n, m, b, env + Zip(ps, xs), env' + Zip(ps, xs));
      }
    case Captured(f) => if HoldsTree(S, f) && n > 0 { EvalIsStable(M, S, n - 1, m - 1, S[f].tree, map[], map[]); }
    case Compile(s) => EvalIsStable(M, S, n, m, s, env, env');
    case AsExpandable(s) => EvalIsStable(M, S, n, m, s, env, env');
    case Invoke(t, args) =>
      EvalIsStable(M, S, n, m, t, env, env');
      forall i | 0 <= i < |args| ensures Refines(Eval(M, S, n, args[i], env), Eval(M, S, m, args[i], env')) {
        ArgScope(t, args, i);
        EvalIsStable(M, S, n, m, args[i], env, env');
      }
      ArgsRefine(M, S, n, m, args, args, env, env');
      ApplyRefines(Eval(M, S, n, t, env), Eval(M, S, m, t, env'), EvalAll(M, S, n, args, env), EvalAll(M, S, m, args, env'));
    case _ =>
  }

  ghost predicate RefinesAll(vs: Option<seq<Value>>, ws: Option<seq<Value>>) {
    vs.Some? ==> ws.Some? && LeqAll(vs.value, ws.value)
  }

  lemma ApplyRefines(f: Option<Value>, g: Option<Value>, vs: Option<seq<Value>>, ws: Option<seq<Value>>)
    requires Refines(f, g) && RefinesAll(vs, ws)
    ensures Refines(Apply(f, vs), Apply(g, ws))
  {
    if Apply(f, vs).Some? {
      forall i | 0 <= i < |vs.value| ensures ws.value[i] == vs.value[i] {
        assert Leq(vs.value[i], ws.value[i]);
      }
      assert vs.value == ws.value;
    }
  }

  lemma ShortCircuitRefines(stop: bool, l: Option<Value>, l': Option<Value>, r: Option<Value>, r': Option<Value>)
    requires Refines(l, l') && Refines(r, r')
    ensures Refines(ShortCircuit(stop, l, r), ShortCircuit(stop, l', r'))
  {
  }

  lemma ChooseRefines(c: Option<Value>, c': Option<Value>, l: Option<Value>, l': Option<Value>, r: Option<Value>, r': Option<Value>)
    requires Refines(c, c') && Refines(l, l') && Refines(r, r')
    ensures Refines(Choose(c, l, r), Choose(c', l', r'))
  {
  }

  /** Pointwise refinement of children is refinement of the node. */
  lemma NodeRefines(M: Methods, S: Store, n: nat, m: nat, op: Op, cs: seq<Expr>, cs': seq<Expr>, env: Env, env': Env)
    requires Observational(M) && |cs| == |cs'|
    requires forall i :: 0 <= i < |cs| ==> Refines(Eval(M, S, n, cs[i], env), Eval(M, S, m, cs'[i], env'))
    ensures Refines(EvalNode(M, S, n, op, cs, env), EvalNode(M, S, m, op, cs', env'))
  {
    match op
    case Strict(_) => StrictRefines(M, S, n, m, op, cs, cs', env, env');
    case Condition =>
      if |cs| == 3 {
        ChooseRefines(Eval(M, S, n, cs[0], env), Eval(M, S, m, cs'[0], env'), Eval(M, S, n, cs[1], env),
                      Eval(M, S, m, cs'[1], env'), Eval(M, S, n, cs[2], env), Eval(M, S, m, cs'[2], env'));
      }
    case _ =>
      if |cs| == 2 {
        ShortCircuitRefines(op == OrElse, Eval(M, S, n, cs[0], env), Eval(M, S, m, cs'[0], env'),
                            Eval(M, S, n, cs[1], env), Eval(M, S, m, cs'[1], env'));
      }
  }

  lemma StrictRefines(M: Methods, S: Store, n: nat, m: nat, op: Op, cs: seq<Expr>, cs': seq<Expr>, env: Env, env': Env)
    requires Observational(M) && |cs| == |cs'| && op.Strict?
    requires forall i :: 0 <= i < |cs| ==> Refines(Eval(M, S, n, cs[i], env), Eval(M, S, m, cs'[i], env'))
    ensures Refines(EvalNode(M, S, n, op, cs, env), EvalNode(M, S, m, op, cs', env'))
  {
    ArgsRefine(M, S, n, m, cs, cs', env, env');
    if EvalAll(M, S, n, cs, env).Some? {
      assert LeqAll(EvalAll(M, S, n, cs, env).value, EvalAll(M, S, m, cs', env').value);
    }
  }

  lemma ArgsRefine(M: Methods, S: Store, n: nat, m: nat, es: seq<Expr>, es': seq<Expr>, env: Env, env': Env)
    requires |es| == |es'|
    requires forall i :: 0 <= i < |es| ==> Refines(Eval(M, S, n, es[i], env), Eval(M, S, m, es'[i], env'))
    ensures RefinesAll(EvalAll(M, S, n, es, env), EvalAll(M, S, m, es', env'))
  {
    EvalAllPointwise(M, S, n, es, env);
    EvalAllPointwise(M, S, m, es', env');
    if EvalAll(M, S, n, es, env).Some? {
      var vs := EvalAll(M, S, n, es, env).value;
      forall i | 0 <= i < |es| ensures Eval(M, S, m, es'[i], env').Some? && Leq(vs[i], Eval(M, S, m, es'[i], env').value) {
        assert Eval(M, S, n, es[i], env) == Some(vs[i]);
      }
    }
  }

  // ---------------------------------------------------------------- simulation

  /** `env` is the scope of the unexpanded expression, `env'` that of its expansion: a key's
      dictionary value evaluates in `env'` to what the key stands for in `env`. */
  ghost predicate Agrees(M: Methods, S: Store, n: nat, sub: Subst, X: set<ParamId>, env: Env, env': Env) {
    forall p :: p in X && p in env ==>
      if p in sub then Eval(M, S, n, sub[p], env') == Some(D(env[p])) else p in env' && env'[p] == env[p]
  }

  lemma AgreesOnFewer(M: Methods, S: Store, n: nat, sub: Subst, X: set<ParamId>, Y: set<ParamId>, env: Env, env': Env)
    requires Agrees(M, S, n, sub, X, env, env') && Y <= X
    ensures Agrees(M, S, n, sub, Y, env, env')
  {
  }

  /** The general statement, with a dictionary. */
  lemma {:induction false} Simulation(M: Methods, S: Store, rank: Field -> nat, h: nat, k: nat, n: nat,
                                      F: set<ParamId>, sub: Subst, e: Expr, env: Env, env': Env)
    requires Observational(M)
    requires Fits(S, rank, h, sub.Keys, F, e) == true && Covers(F, sub) && h <= k
    requires Agrees(M, S, n, sub, FreeParams(e), env, env')
    ensures Expand(S, k, sub, e).Ok?
    ensures Refines(Eval(M, S, n, e, env), Eval(M, S, n, Expand(S, k, sub, e).value, env'))
    decreases k, e, 0
  {
    ExpansionSucceeds(S, rank, h, k, F, sub, e);
    match e
    case Constant(_) =>
    case Quoted(t) => EvalIsStable(M, S, n, n, t, map[], map[]);
    case Parameter(_) =>
    case Node(_, _) => SimulateNode(M, S, rank, h, k, n, F, sub, e, env, env');
    case Lambda(_, _) => SimulateLambda(M, S, rank, h, k, n, F, sub, e, env, env');
    case Captured(f) =>
      if HoldsTree(S, f) && n > 0 {
        Simulation(M, S, rank, rank(f), k - 1, n - 1, F, sub, S[f].tree, map[], env');
        EvalIsStable(M, S, n - 1, n, Expand(S, k, sub, e).value, env', env');
      }
    case Compile(s) => Simulation(M, S, rank, h, k, n, F, sub, s, env, env');
    case AsExpandable(s) => EvalIsStable(M, S, n, n, s, env, env');
    case Invoke(t, args) =>
      if Eval(M, S, n, e, env).Some? {
        SimulateInvocation(M, S, rank, h, k, n, F, sub, t, args, env, env');
      }
  }

  lemma {:induction false} SimulateNode(M: Methods, S: Store, rank: Field -> nat, h: nat, k: nat, n: nat,
                                      F: set<ParamId>, sub: Subst, e: Expr, env: Env, env': Env)
    requires Observational(M)
    requires Fits(S, rank, h, sub.Keys, F, e) == true && Covers(F, sub) && h <= k
    requires Agrees(M, S, n, sub, FreeParams(e), env, env') && Expand(S, k, sub, e).Ok?
    requires e.Node?
    ensures Refines(Eval(M, S, n, e, env), Eval(M, S, n, Expand(S, k, sub, e).value, env'))
    decreases k, e.children, 0
  {
    var cs, cs' := e.children, Expand(S, k, sub, e).value.children;
    ExpandAllPointwise(S, k, sub, cs);
    forall i | 0 <= i < |cs| ensures Refines(Eval(M, S, n, cs[i], env), Eval(M, S, n, cs'[i], env')) {
      ChildScope(e.op, cs, i);
      AgreesOnFewer(M, S, n, sub, FreeParams(e), FreeParams(cs[i]), env, env');
      Simulation(M, S, rank, h, k, n, F, sub, cs[i], env, env');
    }
    NodeRefines(M, S, n, n, e.op, cs, cs', env, env');
  }

  lemma {:induction false} SimulateLambda(M: Methods, S: Store, rank: Field -> nat, h: nat, k: nat, n: nat,
                                      F: set<ParamId>, sub: Subst, e: Expr, env: Env, env': Env)
    requires Observational(M)
    requires Fits(S, rank, h, sub.Keys, F, e) == true && Covers(F, sub) && h <= k
    requires Agrees(M, S, n, sub, FreeParams(e), env, env') && Expand(S, k, sub, e).Ok?
    requires e.Lambda?
    ensures Refines(Eval(M, S, n, e, env), Eval(M, S, n, Expand(S, k, sub, e).value, env'))
    decreases k, e.body, 1
  {
    var ps, b' := e.params, Expand(S, k, sub, e).value.body;
    forall xs: seq<Data> | |xs| == |ps|
      ensures Refines(Eval(M, S, n, e.body, env + Zip(ps, xs)), Eval(M, S, n, b', env' + Zip(ps, xs)))
    {
      AgreesUnderBinder(M, S, n, F, sub, e, env, env', xs);
      Simulation(M, S, rank, h, k, n, F, sub, e.body, env + Zip(ps, xs), env' + Zip(ps, xs));
    }
  }

  lemma AgreesUnderBinder(M: Methods, S: Store, n: nat, F: set<ParamId>, sub: Subst, e: Expr, env: Env, env': Env, xs: seq<Data>)
    requires Observational(M) && e.Lambda? && |xs| == |e.params|
    requires Avoids(e.params, sub.Keys + F) && Covers(F, sub) && Agrees(M, S, n, sub, FreeParams(e), env, env')
    ensures Agrees(M, S, n, sub, FreeParams(e.body), env + Zip(e.params, xs), env' + Zip(e.params, xs))
  {
    var z := Zip(e.params, xs);
    ZipKeys(e.params, xs);
    forall p | p in FreeParams(e.body) && p in env + z && p in sub
      ensures Eval(M, S, n, sub[p], env' + z) == Some(D((env + z)[p]))
    {
      assert p !in e.params;
      assert p in FreeParams(e);
      assert SameOn(FreeParams(sub[p]), env', env' + z);
      EvalIsStable(M, S, n, n, sub[p], env', env' + z);
    }
  }

  /** The data `ds` the arguments evaluate to and the data `d` the target returns for them. */
  lemma InvocationUnfolds(M: Methods, S: Store, n: nat, t: Expr, args: seq<Expr>, env: Env)
    returns (ds: seq<Data>, d: Data)
    requires Eval(M, S, n, Invoke(t, args), env).Some?
    ensures |ds| == |args| && EvalAll(M, S, n, args, env).Some?
    ensures AllData(EvalAll(M, S, n, args, env).value) == Some(ds)
    ensures Eval(M, S, n, t, env).Some? && Eval(M, S, n, t, env).value.Fn?
    ensures Eval(M, S, n, t, env).value.apply(ds) == Some(d)
    ensures Eval(M, S, n, Invoke(t, args), env) == Some(D(d))
  {
    EvalAllPointwise(M, S, n, args, env);
    ds := AllData(EvalAll(M, S, n, args, env).value).value;
    d := Eval(M, S, n, t, env).value.apply(ds).value;
  }

  lemma LambdaApplies(M: Methods, S: Store, n: nat, L: Expr, env: Env, ds: seq<Data>)
    requires L.Lambda? && |ds| == |L.params|
    ensures Eval(M, S, n, L, env).Some? && Eval(M, S, n, L, env).value.Fn?
    ensures Eval(M, S, n, L, env).value.apply(ds) == ToData(Eval(M, S, n, L.body, env + Zip(L.params, ds)))
  {
  }

  lemma QuotedApplies(M: Methods, S: Store, n: nat, L: Expr, env: Env, ds: seq<Data>)
    requires L.Lambda? && |ds| == |L.params| && Eval(M, S, n, Quoted(L), env).Some?
    ensures Eval(M, S, n, Quoted(L), env).value.Fn?
    ensures Eval(M, S, n, Quoted(L), env).value.apply(ds) == ToData(Eval(M, S, n, L.body, map[] + Zip(L.params, ds)))
  {
    var none: Env := map[];
    LambdaApplies(M, S, n, L, none, ds);
  }

  lemma CapturedApplies(M: Methods, S: Store, n: nat, f: Field, env: Env, ds: seq<Data>)
    requires HoldsTree(S, f) && S[f].tree.Lambda? && |ds| == |S[f].tree.params|
    requires Eval(M, S, n, Captured(f), env).Some?
    ensures n > 0 && Eval(M, S, n, Captured(f), env).value.Fn?
    ensures Eval(M, S, n, Captured(f), env).value.apply(ds)
         == ToData(Eval(M, S, n - 1, S[f].tree.body, map[] + Zip(S[f].tree.params, ds)))
  {
    var none: Env := map[];
    LambdaApplies(M, S, n - 1, S[f].tree, none, ds);
  }

  lemma {:induction false} SimulateInvocation(M: Methods, S: Store, rank: Field -> nat, h: nat, k: nat, n: nat,
      F: set<ParamId>, sub: Subst, t: Expr, args: seq<Expr>, env: Env, env': Env)
    requires Observational(M)
    requires Fits(S, rank, h, sub.Keys, F, Invoke(t, args)) == true && Covers(F, sub) && h <= k
    requires Agrees(M, S, n, sub, FreeParams(Invoke(t, args)), env, env')
    requires Expand(S, k, sub, Invoke(t, args)).Ok? && Eval(M, S, n, Invoke(t, args), env).Some?
    ensures Refines(Eval(M, S, n, Invoke(t, args), env), Eval(M, S, n, Expand(S, k, sub, Invoke(t, args)).value, env'))
    decreases k, t, 2
  {
    if t.Captured? {
      SimulateCaptured(M, S, rank, h, k, n, F, sub, t, args, env, env');
    } else {
      SimulateInline(M, S, rank, h, k, n, F, sub, t, args, env, env');
    }
  }

  lemma {:induction false} SimulateInline(M: Methods, S: Store, rank: Field -> nat, h: nat, k: nat, n: nat,
      F: set<ParamId>, sub: Subst, t: Expr, args: seq<Expr>, env: Env, env': Env)
    requires !t.Captured?
    requires Observational(M)
    requires Fits(S, rank, h, sub.Keys, F, Invoke(t, args)) == true && Covers(F, sub) && h <= k
    requires Agrees(M, S, n, sub, FreeParams(Invoke(t, args)), env, env')
    requires Expand(S, k, sub, Invoke(t, args)).Ok? && Eval(M, S, n, Invoke(t, args), env).Some?
    ensures Refines(Eval(M, S, n, Invoke(t, args), env), Eval(M, S, n, Expand(S, k, sub, Invoke(t, args)).value, env'))
    decreases k, t, 1
  {
    var L := if t.Quoted? then t.tree else t;
    var ds, d := InvocationUnfolds(M, S, n, t, args, env);
    AgreesOnArgs(M, S, n, sub, t, args, env, env');
    if t.Quoted? {
      assert t == Quoted(L);
      QuotedApplies(M, S, n, L, env, ds);
      SimulateBody(M, S, rank, h, k, n, F, sub, L.params, args, ds, d, L.body, env, env', map[]);
    } else {
      LambdaApplies(M, S, n, L, env, ds);
      SimulateBody(M, S, rank, h, k, n, F, sub, L.params, args, ds, d, L.body, env, env', env);
    }
    assert Expand(S, k, sub, Invoke(t, args)) == Expand(S, k, Bind(sub, L.params, args).value, L.body);
  }

  /** A captured lambda is visited on its own, and its expanded body again with the arguments in
      the dictionary. */
  lemma {:induction false} SimulateCaptured(M: Methods, S: Store, rank: Field -> nat, h: nat, k: nat, n: nat,
      F: set<ParamId>, sub: Subst, t: Expr, args: seq<Expr>, env: Env, env': Env)
    requires t.Captured?
    requires Observational(M)
    requires Fits(S, rank, h, sub.Keys, F, Invoke(t, args)) == true && Covers(F, sub) && h <= k
    requires Agrees(M, S, n, sub, FreeParams(Invoke(t, args)), env, env')
    requires Expand(S, k, sub, Invoke(t, args)).Ok? && Eval(M, S, n, Invoke(t, args), env).Some?
    ensures Refines(Eval(M, S, n, Invoke(t, args), env), Eval(M, S, n, Expand(S, k, sub, Invoke(t, args)).value, env'))
    decreases k, t, 1
  {
    var L := S[t.field].tree;
    var ds, d := InvocationUnfolds(M, S, n, t, args, env);
    CapturedApplies(M, S, n, t.field, env, ds);
    AgreesOnArgs(M, S, n, sub, t, args, env, env');
    SimulateTwoVisits(M, S, rank, rank(t.field), k - 1, n, F, sub, t, args, ds, d, env, env');
    ExpandCaptured(S, k, sub, t, args);
  }

  lemma {:induction false} SimulateTwoVisits(M: Methods, S: Store, rank: Field -> nat, r: nat, k: nat, n: nat,
      F: set<ParamId>, sub: Subst, t: Expr, args: seq<Expr>, ds: seq<Data>, d: Data, env: Env, env': Env)
    requires Observational(M) && Covers(F, sub) && r <= k && n > 0
    requires t.Captured? && HoldsTree(S, t.field) && S[t.field].tree.Lambda?
    requires var L := S[t.field].tree;
      && FreeParams(L) == {} && Callable(sub.Keys, L.params, args)
      && FreeParamsOfAll(args) !! sub.Keys && |ds| == |args|
      && Fits(S, rank, r, sub.Keys, F, L.body) == true
      && Tame(S, rank, r, sub.Keys + Elements(L.params) + F + FreeParamsOfAll(args), L.body) == true
      && Eval(M, S, n - 1, L.body, map[] + Zip(L.params, ds)) == Some(D(d))
    requires EvalAll(M, S, n, args, env).Some? && AllData(EvalAll(M, S, n, args, env).value) == Some(ds)
    requires Agrees(M, S, n, sub, FreeParamsOfAll(args), env, env')
    ensures var L := S[t.field].tree;
      && Expand(S, k, sub, L.body).Ok? && Bind(sub, L.params, args).Ok?
      && var out := Expand(S, k, Bind(sub, L.params, args).value, Expand(S, k, sub, L.body).value);
      && out.Ok? && Eval(M, S, n, out.value, env') == Some(D(d))
    decreases k + 1, t, 0
  {
    var L := S[t.field].tree;
    SimulateFirstVisit(M, S, rank, r, k, n, F, sub, L, map[] + Zip(L.params, ds), d);
    FirstVisit(S, rank, r, k, F, sub, L, args);
    var b := Expand(S, k, sub, L.body).value;
    assert Fits(S, rank, 0, sub.Keys + Elements(L.params), F + FreeParamsOfAll(args), b) == true;
    assert Agrees(M, S, n, sub, FreeParams(b) - Elements(L.params), map[], env') == true;
    SimulateBody(M, S, rank, 0, k, n, F, sub, L.params, args, ds, d, b, env, env', map[]);
  }

  lemma AgreesOnArgs(M: Methods, S: Store, n: nat, sub: Subst, t: Expr, args: seq<Expr>, env: Env, env': Env)
    requires Agrees(M, S, n, sub, FreeParams(Invoke(t, args)), env, env')
    ensures Agrees(M, S, n, sub, FreeParamsOfAll(args), env, env')
    ensures Agrees(M, S, n, sub, FreeParams(t), env, env')
  {
    assert FreeParams(Invoke(t, args)) == FreeParams(t) + FreeParamsOfAll(args);
  }

  lemma ExpandCaptured(S: Store, k: nat, sub: Subst, t: Expr, args: seq<Expr>)
    requires t.Captured? && HoldsTree(S, t.field) && S[t.field].tree.Lambda? && k > 0
    requires Expand(S, k - 1, sub, S[t.field].tree.body).Ok?
    requires Bind(sub, S[t.field].tree.params, args).Ok?
    ensures Expand(S, k, sub, Invoke(t, args))
         == Expand(S, k - 1, Bind(sub, S[t.field].tree.params, args).value, Expand(S, k - 1, sub, S[t.field].tree.body).value)
  {
  }

  lemma {:induction false} SimulateFirstVisit(M: Methods, S: Store, rank: Field -> nat, r: nat, k: nat, n: nat,
      F: set<ParamId>, sub: Subst, L: Expr, scope: Env, d: Data)
    requires Observational(M) && Covers(F, sub) && r <= k && n > 0
    requires L.Lambda? && FreeParams(L) == {} && Elements(L.params) !! sub.Keys
    requires Fits(S, rank, r, sub.Keys, F, L.body) == true
    requires Eval(M, S, n - 1, L.body, scope) == Some(D(d))
    ensures Expand(S, k, sub, L.body).Ok?
    ensures Eval(M, S, n, Expand(S, k, sub, L.body).value, scope) == Some(D(d))
    decreases k, L.body, 2
  {
    ClosedBody(L, sub.Keys);
    Simulation(M, S, rank, r, k, n - 1, F, sub, L.body, scope, scope);
    RefinesDeeper(M, S, n, L.body, Expand(S, k, sub, L.body).value, scope, d);
  }

  lemma RefinesDeeper(M: Methods, S: Store, n: nat, e: Expr, b: Expr, env: Env, d: Data)
    requires Observational(M) && n > 0 && Eval(M, S, n - 1, e, env) == Some(D(d))
    requires Refines(Eval(M, S, n - 1, e, env), Eval(M, S, n - 1, b, env))
    ensures Eval(M, S, n, b, env) == Some(D(d))
  {
    EvalIsStable(M, S, n - 1, n, b, env, env);
  }

  lemma RefinesData(v: Option<Value>, w: Option<Value>, d: Data)
    requires Refines(v, w) && v == Some(D(d))
    ensures w == Some(D(d))
  {
  }

  /** Visiting a body with the arguments in the dictionary gives what the body gives when its
      parameters stand for the arguments' data. */
  lemma {:induction false} SimulateBody(M: Methods, S: Store, rank: Field -> nat, h: nat, k: nat, n: nat, F: set<ParamId>,
      sub: Subst, ps: seq<ParamId>, args: seq<Expr>, ds: seq<Data>, d: Data, b: Expr, env: Env, env': Env, outer: Env)
    requires Observational(M) && Covers(F, sub) && h <= k
    requires Callable(sub.Keys, ps, args) && FreeParamsOfAll(args) !! sub.Keys && |ds| == |ps|
    requires EvalAll(M, S, n, args, env).Some? && AllData(EvalAll(M, S, n, args, env).value) == Some(ds)
    requires Agrees(M, S, n, sub, FreeParamsOfAll(args), env, env')
    requires Agrees(M, S, n, sub, FreeParams(b) - Elements(ps), outer, env')
    requires Fits(S, rank, h, sub.Keys + Elements(ps), F + FreeParamsOfAll(args), b) == true
    requires Eval(M, S, n, b, outer + Zip(ps, ds)) == Some(D(d))
    ensures Bind(sub, ps, args).Ok? && Expand(S, k, Bind(sub, ps, args).value, b).Ok?
    ensures Eval(M, S, n, Expand(S, k, Bind(sub, ps, args).value, b).value, env') == Some(D(d))
    decreases k, b, 1
  {
    CoversBind(F, sub, ps, args);
    AgreesInBody(M, S, n, sub, ps, args, ds, FreeParams(b), env, env', outer);
    Simulation(M, S, rank, h, k, n, F + FreeParamsOfAll(args), Bind(sub, ps, args).value, b, outer + Zip(ps, ds), env');
    RefinesData(Eval(M, S, n, b, outer + Zip(ps, ds)), Eval(M, S, n, Expand(S, k, Bind(sub, ps, args).value, b).value, env'), d);
  }

  /** Arguments enter the dictionary unvisited; because they mention no key they evaluate to the
      same data in both scopes. */
  lemma AgreesInBody(M: Methods, S: Store, n: nat, sub: Subst, ps: seq<ParamId>, args: seq<Expr>, ds: seq<Data>,
                     X: set<ParamId>, env: Env, env': Env, outer: Env)
    requires Observational(M) && Callable(sub.Keys, ps, args) && FreeParamsOfAll(args) !! sub.Keys && |ds| == |ps|
    requires EvalAll(M, S, n, args, env).Some? && AllData(EvalAll(M, S, n, args, env).value) == Some(ds)
    requires Agrees(M, S, n, sub, FreeParamsOfAll(args), env, env')
    requires Agrees(M, S, n, sub, X - Elements(ps), outer, env')
    ensures Bind(sub, ps, args).Ok?
    ensures Agrees(M, S, n, Bind(sub, ps, args).value, X, outer + Zip(ps, ds), env')
  {
    BindMeaning(sub, ps, args);
    ZipKeys(ps, ds);
    EvalAllPointwise(M, S, n, args, env);
    var m := Bind(sub, ps, args).value;
    forall p | p in X && p in Elements(ps) ensures p in m && Eval(M, S, n, m[p], env') == Some(D(Zip(ps, ds)[p])) {
      var i := ZipAt(ps, ds, p);
      forall q | q in FreeParams(args[i]) ensures q in FreeParamsOfAll(args) {}
      EvalIsStable(M, S, n, n, args[i], env, env');
      assert Eval(M, S, n, args[i], env) == Some(D(ds[i]));
    }
  }

  /** For every expression that meets the static condition, every store, every environment and
      every reading of the methods: expansion terminates, and whenever the expression has a value
      its expansion has it too.  Where that value is data the two are equal. */
  lemma ExpansionPreservesMeaning(M: Methods, S: Store, rank: Field -> nat, h: nat, k: nat, n: nat, e: Expr, env: Env)
    requires Observational(M) && Fits(S, rank, h, {}, {}, e) && h <= k
    ensures Expand(S, k, map[], e).Ok?
    ensures var out := Expand(S, k, map[], e).value;
      && FreeParams(out) <= FreeParams(e)
      && Refines(Eval(M, S, n, e, env), Eval(M, S, n, out, env))
      && (forall d :: Eval(M, S, n, e, env) == Some(D(d)) ==> Eval(M, S, n, out, env) == Some(D(d)))
  {
    var none: Subst := map[];
    assert none.Keys == {};
    Simulation(M, S, rank, h, k, n, {}, none, e, env, env);
    ScopeOfExpansion(S, rank, h, k, {}, none, e);
  }
}
