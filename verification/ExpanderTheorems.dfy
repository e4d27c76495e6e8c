/** When expansion terminates, and what its result looks like. */
module ExpanderTheorems {
  import opened Trees
  import opened Expander

  // The recursive predicates below appear as `P(...) == true` in the preconditions of the inductive
  // lemmas.  Written bare, such a precondition is split into all the cases of the predicate at every
  // recursive call; compared with `true`, it is established as one fact.

  // ---------------------------------------------------------------- static conditions

  predicate Avoids(ps: seq<ParamId>, A: set<ParamId>) {
    forall i :: 0 <= i < |ps| ==> ps[i] !in A
  }

  /** Nothing left to rewrite: no invocation, no captured tree, no call that is stripped, also in
      the bodies of quoted lambdas; and no lambda binds a parameter in `A`. */
  predicate Settled(S: Store, A: set<ParamId>, e: Expr) {
    match e
    case Constant(_) => true
    case Quoted(q) => q.Lambda? ==> Settled(S, A, q.body)
    case Parameter(_) => true
    case Node(_, cs) => forall i :: 0 <= i < |cs| ==> Settled(S, A, cs[i])
    case Lambda(ps, b) => Avoids(ps, A) && Settled(S, A, b)
    case Invoke(_, _) => false
    case Captured(f) => !HoldsTree(S, f)
    case Compile(s) => Settled(S, A, s)
    case AsExpandable(_) => false
  }

  predicate AllSettled(S: Store, A: set<ParamId>, es: seq<Expr>) {
    forall i :: 0 <= i < |es| ==> Settled(S, A, es[i])
  }

  /** Captured trees are followed through `rank`, which must drop: a tree of rank `r` is inspected
      with bound `r`.  A tame expression passes settled arguments to every invocation, and no lambda
      that can survive its expansion binds a parameter in `A`. */
  predicate Tame(S: Store, rank: Field -> nat, h: nat, A: set<ParamId>, e: Expr)
    decreases h, e
  {
    match e
    case Constant(_) => true
    case Quoted(_) => Settled(S, A, e)
    case Parameter(_) => true
    case Node(_, cs) => forall i :: 0 <= i < |cs| ==> Tame(S, rank, h, A, cs[i])
    case Lambda(ps, b) => Avoids(ps, A) && Tame(S, rank, h, A, b)
    case Captured(f) => HoldsTree(S, f) ==> rank(f) < h && Tame(S, rank, rank(f), A, S[f].tree)
    case Compile(s) => Tame(S, rank, h, A, s)
    case AsExpandable(s) => Settled(S, A, s)
    case Invoke(t, args) =>
      && AllSettled(S, A, args)
      && match t {
        case Captured(f) =>
          HoldsTree(S, f) ==>
            && rank(f) < h
            && if S[f].tree.Lambda? then Tame(S, rank, rank(f), A, S[f].tree.body) else Tame(S, rank, rank(f), A, S[f].tree)
        case Lambda(_, b) => Tame(S, rank, h, A, b)
        case Quoted(q) => q.Lambda? ==> Tame(S, rank, h, A, q.body)
        case _ => true
      }
  }

  /** The lambda's parameters take the arguments one to one and are new to the dictionary keys `D`. */
  predicate Callable(D: set<ParamId>, ps: seq<ParamId>, args: seq<Expr>) {
    |ps| == |args| && Addable(D, ps, args)
  }

  /** The condition under which an expander whose dictionary has keys `D` and values with free
      parameters in `F` treats `e` correctly:
       - every visited invocation has a lambda as its target, inline, quoted or captured, with
         matching and new parameters;
       - arguments, which enter the dictionary unvisited, mention no key of the dictionary;
       - surviving lambdas bind neither keys nor parameters free in the dictionary;
       - captured trees are closed, of strictly lower rank than the tree that refers to them, and,
         where they are invoked, tame, because their expanded body is visited a second time. */
  predicate Fits(S: Store, rank: Field -> nat, h: nat, D: set<ParamId>, F: set<ParamId>, e: Expr)
    decreases h, e
  {
    match e
    case Constant(_) => true
    case Quoted(_) => true
    case Parameter(_) => true
    case Node(_, cs) => forall i :: 0 <= i < |cs| ==> Fits(S, rank, h, D, F, cs[i])
    case Lambda(ps, b) => Avoids(ps, D + F) && Fits(S, rank, h, D, F, b)
    case Captured(f) =>
      HoldsTree(S, f) ==>
        && rank(f) < h && FreeParams(S[f].tree) == {} && Fits(S, rank, rank(f), D, F, S[f].tree)
    case Compile(s) => Fits(S, rank, h, D, F, s)
    case AsExpandable(s) => FreeParams(s) !! D
    case Invoke(t, args) =>
      && FreeParamsOfAll(args) !! D
      && match t {
        case Captured(f) =>
          && HoldsTree(S, f) && rank(f) < h && S[f].tree.Lambda? && FreeParams(S[f].tree) == {}
          && var ps, b := S[f].tree.params, S[f].tree.body;
          && Callable(D, ps, args)
          && Fits(S, rank, rank(f), D, F, b)
          && Tame(S, rank, rank(f), D + Elements(ps) + F + FreeParamsOfAll(args), b)
        case Lambda(ps, b) =>
          Callable(D, ps, args) && Fits(S, rank, h, D + Elements(ps), F + FreeParamsOfAll(args), b)
        case Quoted(q) =>
          && q.Lambda? && FreeParams(q) == {} && Callable(D, q.params, args)
          && Fits(S, rank, h, D + Elements(q.params), F + FreeParamsOfAll(args), q.body)
        case _ => false
      }
  }

  /** The free parameters of the dictionary's values lie in `F`. */
  ghost predicate Covers(F: set<ParamId>, sub: Subst) {
    forall p :: p in sub ==> FreeParams(sub[p]) <= F
  }

  lemma {:induction false} SettledFits(S: Store, rank: Field -> nat, h: nat, D: set<ParamId>, F: set<ParamId>, e: Expr)
    requires Settled(S, D + F, e) == true
    ensures Fits(S, rank, h, D, F, e)
  {
    match e
    case Node(_, cs) =>
      forall i | 0 <= i < |cs| ensures Fits(S, rank, h, D, F, cs[i]) { SettledFits(S, rank, h, D, F, cs[i]); }
    case Lambda(ps, b) => SettledFits(S, rank, h, D, F, b);
    case Compile(s) => SettledFits(S, rank, h, D, F, s);
    case _ =>
  }

  lemma {:induction false} SettledIsTame(S: Store, rank: Field -> nat, h: nat, A: set<ParamId>, e: Expr)
    requires Settled(S, A, e) == true
    ensures Tame(S, rank, h, A, e)
  {
    match e
    case Node(_, cs) =>
      forall i | 0 <= i < |cs| ensures Tame(S, rank, h, A, cs[i]) { SettledIsTame(S, rank, h, A, cs[i]); }
    case Lambda(ps, b) => SettledIsTame(S, rank, h, A, b);
    case Compile(s) => SettledIsTame(S, rank, h, A, s);
    case _ =>
  }

  lemma {:induction false} SettledWeaker(S: Store, A: set<ParamId>, B: set<ParamId>, e: Expr)
    requires Settled(S, A, e) && B <= A
    ensures Settled(S, B, e)
  {
    match e
    case Node(_, cs) => forall i | 0 <= i < |cs| ensures Settled(S, B, cs[i]) { SettledWeaker(S, A, B, cs[i]); }
    case Quoted(q) => if q.Lambda? { SettledWeaker(S, A, B, q.body); }
    case Lambda(_, b) => SettledWeaker(S, A, B, b);
    case Compile(s) => SettledWeaker(S, A, B, s);
    case _ =>
  }

  lemma {:induction false} SettledExpands(S: Store, k: nat, A: set<ParamId>, sub: Subst, b: Expr)
    requires Settled(S, A, b)
    ensures Expand(S, k, sub, b).Ok?
  {
    match b
    case Node(_, cs) =>
      forall i | 0 <= i < |cs| ensures Expand(S, k, sub, cs[i]).Ok? { SettledExpands(S, k, A, sub, cs[i]); }
      ExpandAllPointwise(S, k, sub, cs);
    case Lambda(_, e) => SettledExpands(S, k, A, sub, e);
    case Compile(s) => SettledExpands(S, k, A, sub, s);
    case _ =>
  }

  // ---------------------------------------------------------------- normal form and scope

  /** Free parameters after replacing those in `X`: the ones that are not keys, and what the
      dictionary has for the ones that are. */
  ghost function Image(sub: Subst, X: set<ParamId>): set<ParamId> {
    (X - sub.Keys) + set q, p | q in X && q in sub && p in FreeParams(sub[q]) :: p
  }

  ghost predicate Scoped(sub: Subst, e: Expr, out: Expr) {
    FreeParams(out) <= Image(sub, FreeParams(e))
  }

  /** The dictionary values that can be inserted into `e` are settled. */
  ghost predicate Ready(S: Store, A: set<ParamId>, sub: Subst, e: Expr) {
    forall q :: q in FreeParams(e) && q in sub ==> Settled(S, A, sub[q])
  }

  lemma {:induction false} ScopeOfExpansion(
      S: Store, rank: Field -> nat, h: nat, k: nat, F: set<ParamId>, sub: Subst, e: Expr)
    requires Fits(S, rank, h, sub.Keys, F, e) == true && Covers(F, sub) && Expand(S, k, sub, e).Ok?
    ensures Scoped(sub, e, Expand(S, k, sub, e).value)
    decreases k, e, 1
  {
    var out := Expand(S, k, sub, e).value;
    match e
    case Node(_, cs) =>
      ExpandAllPointwise(S, k, sub, cs);
      forall p | p in FreeParams(out) ensures p in Image(sub, FreeParams(e)) {
        var i :| 0 <= i < |cs| && p in FreeParams(out.children[i]);
        ScopeOfExpansion(S, rank, h, k, F, sub, cs[i]);
      }
    case Lambda(ps, b) =>
      ScopeOfExpansion(S, rank, h, k, F, sub, b);
    case Captured(f) => if HoldsTree(S, f) { ScopeOfExpansion(S, rank, rank(f), k - 1, F, sub, S[f].tree); }
    case Compile(s) => if !(s.Captured? && !HoldsTree(S, s.field)) { ScopeOfExpansion(S, rank, h, k, F, sub, s); }
    case Invoke(t, args) => ScopeOfInvocation(S, rank, h, k, F, sub, t, args);
    case _ =>
  }

  lemma {:induction false} ScopeOfInvocation(
      S: Store, rank: Field -> nat, h: nat, k: nat, F: set<ParamId>, sub: Subst, t: Expr, args: seq<Expr>)
    requires Fits(S, rank, h, sub.Keys, F, Invoke(t, args)) == true && Covers(F, sub)
    requires Expand(S, k, sub, Invoke(t, args)).Ok?
    ensures Scoped(sub, Invoke(t, args), Expand(S, k, sub, Invoke(t, args)).value)
    decreases k, t, 2
  {
    if t.Captured? {
      var L := S[t.field].tree;
      FirstVisit(S, rank, rank(t.field), k - 1, F, sub, L, args);
      var b := Expand(S, k - 1, sub, L.body).value;
      ScopeOfExpansion(S, rank, 0, k - 1, F + FreeParamsOfAll(args), Bind(sub, L.params, args).value, b);
      ImageOfClosed(sub, L.params, args, FreeParams(b));
    } else {
      var L := if t.Quoted? then t.tree else t;
      CoversBind(F, sub, L.params, args);
      ScopeOfExpansion(S, rank, h, k, F + FreeParamsOfAll(args), Bind(sub, L.params, args).value, L.body);
      ScopeOfLambda(sub, L, args);
    }
    ScopeOfArgs(sub, t, args);
  }

  /** A lambda body's scope under the extended dictionary. */
  lemma ScopeOfLambda(sub: Subst, L: Expr, args: seq<Expr>)
    requires L.Lambda? && Callable(sub.Keys, L.params, args)
    ensures Bind(sub, L.params, args).Ok?
    ensures Image(Bind(sub, L.params, args).value, FreeParams(L.body)) <= FreeParamsOfAll(args) + Image(sub, FreeParams(L))
  {
    ImageOfBind(sub, L.params, args, FreeParams(L.body));
  }

  lemma ImageOfClosed(sub: Subst, ps: seq<ParamId>, args: seq<Expr>, X: set<ParamId>)
    requires Callable(sub.Keys, ps, args) && X <= Elements(ps)
    ensures Bind(sub, ps, args).Ok? && Image(Bind(sub, ps, args).value, X) <= FreeParamsOfAll(args)
  {
    ImageOfBind(sub, ps, args, X);
    assert X - Elements(ps) == {};
  }

  lemma ScopeOfArgs(sub: Subst, t: Expr, args: seq<Expr>)
    requires FreeParamsOfAll(args) !! sub.Keys
    ensures FreeParamsOfAll(args) + Image(sub, FreeParams(t)) <= Image(sub, FreeParams(Invoke(t, args)))
  {
    assert FreeParams(Invoke(t, args)) == FreeParams(t) + FreeParamsOfAll(args);
  }

  lemma ClosedBody(L: Expr, D: set<ParamId>)
    requires L.Lambda? && FreeParams(L) == {} && Elements(L.params) !! D
    ensures FreeParams(L.body) <= Elements(L.params) && FreeParams(L.body) !! D
  {
    forall p | p in FreeParams(L.body) ensures p in Elements(L.params) {
      assert p !in FreeParams(L);
    }
  }

  lemma CoversBind(F: set<ParamId>, sub: Subst, ps: seq<ParamId>, args: seq<Expr>)
    requires Covers(F, sub) && Callable(sub.Keys, ps, args)
    ensures Bind(sub, ps, args).Ok?
    ensures Bind(sub, ps, args).value.Keys == sub.Keys + Elements(ps)
    ensures Covers(F + FreeParamsOfAll(args), Bind(sub, ps, args).value)
  {
    BindMeaning(sub, ps, args);
    var m := Bind(sub, ps, args).value;
    forall p | p in m ensures FreeParams(m[p]) <= F + FreeParamsOfAll(args) {
      if p !in sub {
        var i :| 0 <= i < |ps| && ps[i] == p;
      }
    }
  }

  /** The first visit of an invoked captured lambda `L`, with rank `r`: its body comes out closed
      but for the lambda's own parameters, settled, and fit to be visited again with the arguments
      in the dictionary. */
  lemma {:induction false} FirstVisit(
      S: Store, rank: Field -> nat, r: nat, k: nat, F: set<ParamId>, sub: Subst, L: Expr, args: seq<Expr>)
    requires L.Lambda? && FreeParams(L) == {} && Callable(sub.Keys, L.params, args) && Covers(F, sub)
    requires Fits(S, rank, r, sub.Keys, F, L.body) == true
    requires Tame(S, rank, r, sub.Keys + Elements(L.params) + F + FreeParamsOfAll(args), L.body) == true
    requires Expand(S, k, sub, L.body).Ok?
    ensures FreeParams(Expand(S, k, sub, L.body).value) <= Elements(L.params)
    ensures Bind(sub, L.params, args).Ok?
    ensures Bind(sub, L.params, args).value.Keys == sub.Keys + Elements(L.params)
    ensures Covers(F + FreeParamsOfAll(args), Bind(sub, L.params, args).value)
    ensures Fits(S, rank, 0, Bind(sub, L.params, args).value.Keys, F + FreeParamsOfAll(args),
                 Expand(S, k, sub, L.body).value)
    decreases k, L.body, 3
  {
    var b := Expand(S, k, sub, L.body).value;
    ClosedBody(L, sub.Keys);
    CoversBind(F, sub, L.params, args);
    var A := sub.Keys + Elements(L.params) + F + FreeParamsOfAll(args);
    ScopeOfExpansion(S, rank, r, k, F, sub, L.body);
    ScopedNormalForm(S, rank, r, k, A, F, sub, L.body);
    var m := Bind(sub, L.params, args).value;
    assert m.Keys + (F + FreeParamsOfAll(args)) == A;
    SettledFits(S, rank, 0, m.Keys, F + FreeParamsOfAll(args), b);
  }

  /** Extending a dictionary: the image gains at most the arguments' free parameters. */
  lemma ImageOfBind(sub: Subst, ps: seq<ParamId>, args: seq<Expr>, X: set<ParamId>)
    requires Callable(sub.Keys, ps, args)
    ensures Bind(sub, ps, args).Ok?
    ensures Image(Bind(sub, ps, args).value, X) <= FreeParamsOfAll(args) + Image(sub, X - Elements(ps))
  {
    BindMeaning(sub, ps, args);
    var m := Bind(sub, ps, args).value;
    forall p | p in Image(m, X) ensures p in FreeParamsOfAll(args) + Image(sub, X - Elements(ps)) {
      if p in X - m.Keys {
      } else {
        var q :| q in X && q in m && p in FreeParams(m[q]);
        if q in ps {
          var i :| 0 <= i < |ps| && ps[i] == q;
          assert p in FreeParams(args[i]);
        } else {
          assert m[q] == sub[q];
        }
      }
    }
  }

  /** Expanding a tame and fitting expression leaves nothing to rewrite, even if the dictionary holds
      values that are not settled, as long as they belong to parameters that are not free in it. */
  lemma {:induction false} ScopedNormalForm(
      S: Store, rank: Field -> nat, h: nat, k: nat, A: set<ParamId>, F: set<ParamId>, sub: Subst, e: Expr)
    requires Fits(S, rank, h, sub.Keys, F, e) == true && Covers(F, sub) && Expand(S, k, sub, e).Ok?
    requires Tame(S, rank, h, A, e) == true && Ready(S, A, sub, e)
    ensures Settled(S, A, Expand(S, k, sub, e).value)
    decreases k, e, 0
  {
    var out := Expand(S, k, sub, e).value;
    match e
    case Node(_, cs) =>
      ExpandAllPointwise(S, k, sub, cs);
      forall i | 0 <= i < |cs| ensures Settled(S, A, out.children[i]) {
        ScopedNormalForm(S, rank, h, k, A, F, sub, cs[i]);
      }
    case Lambda(ps, b) => ScopedNormalForm(S, rank, h, k, A, F, sub, b);
    case Captured(f) => if HoldsTree(S, f) { ScopedNormalForm(S, rank, rank(f), k - 1, A, F, sub, S[f].tree); }
    case Compile(s) => if !(s.Captured? && !HoldsTree(S, s.field)) { ScopedNormalForm(S, rank, h, k, A, F, sub, s); }
    case Invoke(t, args) => ScopedNormalFormOfInvocation(S, rank, h, k, A, F, sub, t, args);
    case _ =>
  }

  lemma {:induction false} ScopedNormalFormOfInvocation(
      S: Store, rank: Field -> nat, h: nat, k: nat, A: set<ParamId>, F: set<ParamId>, sub: Subst, t: Expr, args: seq<Expr>)
    requires Fits(S, rank, h, sub.Keys, F, Invoke(t, args)) == true && Covers(F, sub)
    requires Expand(S, k, sub, Invoke(t, args)).Ok?
    requires Tame(S, rank, h, A, Invoke(t, args)) == true && Ready(S, A, sub, Invoke(t, args))
    ensures Settled(S, A, Expand(S, k, sub, Invoke(t, args)).value)
    decreases k, t, 2
  {
    if t.Captured? {
      var L := S[t.field].tree;
      FirstVisit(S, rank, rank(t.field), k - 1, F, sub, L, args);
      var b := Expand(S, k - 1, sub, L.body).value;
      ClosedBody(L, sub.Keys);
      ScopedNormalForm(S, rank, rank(t.field), k - 1, A, F, sub, L.body);
      SettledIsTame(S, rank, 0, A, b);
      ReadyBody(S, A, sub, L, b, args);
      ScopedNormalForm(S, rank, 0, k - 1, A, F + FreeParamsOfAll(args), Bind(sub, L.params, args).value, b);
    } else {
      var L := if t.Quoted? then t.tree else t;
      CoversBind(F, sub, L.params, args);
      ReadyBody(S, A, sub, L, L.body, args);
      ScopedNormalForm(S, rank, h, k, A, F + FreeParamsOfAll(args), Bind(sub, L.params, args).value, L.body);
    }
  }

  lemma ReadyBody(S: Store, A: set<ParamId>, sub: Subst, L: Expr, b: Expr, args: seq<Expr>)
    requires L.Lambda? && Callable(sub.Keys, L.params, args) && AllSettled(S, A, args)
    requires FreeParams(b) <= FreeParams(L) + Elements(L.params)
    requires Ready(S, A, sub, L)
    ensures Bind(sub, L.params, args).Ok? && Ready(S, A, Bind(sub, L.params, args).value, b)
  {
    BindMeaning(sub, L.params, args);
  }

  // ---------------------------------------------------------------- termination

  /** Fuel equal to the rank bound is always enough: expansion of a fitting expression terminates
      and succeeds, although a captured lambda's expanded body is visited a second time. */
  lemma {:induction false} ExpansionSucceeds(
      S: Store, rank: Field -> nat, h: nat, k: nat, F: set<ParamId>, sub: Subst, e: Expr)
    requires Fits(S, rank, h, sub.Keys, F, e) == true && Covers(F, sub) && h <= k
    ensures Expand(S, k, sub, e).Ok?
    decreases k, e
  {
    match e
    case Node(_, cs) =>
      ExpandAllPointwise(S, k, sub, cs);
      forall i | 0 <= i < |cs| ensures Expand(S, k, sub, cs[i]).Ok? {
        ExpansionSucceeds(S, rank, h, k, F, sub, cs[i]);
      }
    case Lambda(ps, b) => ExpansionSucceeds(S, rank, h, k, F, sub, b);
    case Captured(f) => if HoldsTree(S, f) { ExpansionSucceeds(S, rank, rank(f), k - 1, F, sub, S[f].tree); }
    case Compile(s) => ExpansionSucceeds(S, rank, h, k, F, sub, s);
    case Invoke(t, args) =>
      if t.Captured? {
        var L := S[t.field].tree;
        ExpansionSucceeds(S, rank, rank(t.field), k - 1, F, sub, L.body);
        FirstVisit(S, rank, rank(t.field), k - 1, F, sub, L, args);
        var b := Expand(S, k - 1, sub, L.body).value;
        ExpansionSucceeds(S, rank, 0, k - 1, F + FreeParamsOfAll(args), Bind(sub, L.params, args).value, b);
      } else {
        var L := if t.Quoted? then t.tree else t;
        CoversBind(F, sub, L.params, args);
        ExpansionSucceeds(S, rank, h, k, F + FreeParamsOfAll(args), Bind(sub, L.params, args).value, L.body);
      }
    case _ =>
  }

  /** A tree with nothing to rewrite, none of whose parameters is a key, is returned as it is. */
  lemma {:induction false} SettledIsUnchanged(S: Store, k: nat, sub: Subst, e: Expr)
    requires Settled(S, sub.Keys, e) == true && FreeParams(e) !! sub.Keys
    ensures Expand(S, k, sub, e) == Ok(e)
  {
    match e
    case Node(_, cs) =>
      ExpandAllPointwise(S, k, sub, cs);
      forall i | 0 <= i < |cs| ensures Expand(S, k, sub, cs[i]) == Ok(cs[i]) {
        forall p | p in FreeParams(cs[i]) ensures p !in sub.Keys { assert p in FreeParams(e); }
        SettledIsUnchanged(S, k, sub, cs[i]);
      }
      assert ExpandAll(S, k, sub, cs).value == cs;
    case Lambda(ps, b) =>
      forall p | p in FreeParams(b) ensures p !in sub.Keys {
        if p !in ps { assert p in FreeParams(e); }
      }
      SettledIsUnchanged(S, k, sub, b);
    case Compile(s) => SettledIsUnchanged(S, k, sub, s);
    case _ =>
  }
}
