/** Normal forms: what expansion leaves behind, whatever the binders and the scopes. */
module ExpanderNormalForm {
  import opened Trees
  import opened Expander
  import opened ExpanderTheorems

  ghost predicate ValuesSettled(S: Store, A: set<ParamId>, sub: Subst) {
    forall p :: p in sub ==> Settled(S, A, sub[p])
  }

  lemma SettledAfterBind(S: Store, A: set<ParamId>, sub: Subst, ps: seq<ParamId>, args: seq<Expr>)
    requires ValuesSettled(S, A, sub) && AllSettled(S, A, args) && Bind(sub, ps, args).Ok?
    ensures ValuesSettled(S, A, Bind(sub, ps, args).value)
  {
    BindMeaning(sub, ps, args);
    var m := Bind(sub, ps, args).value;
    forall p | p in m ensures Settled(S, A, m[p]) {
      if p !in sub {
        var i :| 0 <= i < |ps| && ps[i] == p;
      }
    }
  }

  /** Whenever expansion succeeds on a tame expression, with a dictionary of settled values, nothing is
      left to rewrite.  Nothing is asked about scopes: arguments may mention parameters that are being
      replaced, captured trees may be open and binders may coincide. */
  lemma {:induction false} NormalForm(
      S: Store, rank: Field -> nat, h: nat, k: nat, A: set<ParamId>, sub: Subst, e: Expr)
    requires Tame(S, rank, h, A, e) == true && ValuesSettled(S, A, sub) && Expand(S, k, sub, e).Ok?
    ensures Settled(S, A, Expand(S, k, sub, e).value)
    decreases k, e, 0
  {
    var out := Expand(S, k, sub, e).value;
    match e
    case Node(_, cs) =>
      ExpandAllPointwise(S, k, sub, cs);
      forall i | 0 <= i < |cs| ensures Settled(S, A, out.children[i]) {
        NormalForm(S, rank, h, k, A, sub, cs[i]);
      }
    case Lambda(ps, b) => NormalForm(S, rank, h, k, A, sub, b);
    case Captured(f) => if HoldsTree(S, f) { NormalForm(S, rank, rank(f), k - 1, A, sub, S[f].tree); }
    case Compile(s) => if !(s.Captured? && !HoldsTree(S, s.field)) { NormalForm(S, rank, h, k, A, sub, s); }
    case Invoke(t, args) =>
      if t.Captured? && HoldsTree(S, t.field) {
        var L := EnteredLambda(S, rank, h, k, A, sub, t.field, args);
        SettledAfterBind(S, A, sub, L.params, args);
        SettledIsTame(S, rank, 0, A, L.body);
        NormalForm(S, rank, 0, k - 1, A, Bind(sub, L.params, args).value, L.body);
      } else {
        var L := if t.Quoted? then t.tree else t;
        SettledAfterBind(S, A, sub, L.params, args);
        NormalForm(S, rank, h, k, A, Bind(sub, L.params, args).value, L.body);
      }
    case _ =>
  }

  /** The lambda that an invoked captured tree has become after its first visit has a settled body. */
  lemma {:induction false} EnteredLambda(
      S: Store, rank: Field -> nat, h: nat, k: nat, A: set<ParamId>, sub: Subst, f: Field, args: seq<Expr>) returns (L: Expr)
    requires Tame(S, rank, h, A, Invoke(Captured(f), args)) == true && ValuesSettled(S, A, sub) && HoldsTree(S, f)
    requires Expand(S, k, sub, Invoke(Captured(f), args)).Ok?
    ensures k > 0 && L.Lambda? && Bind(sub, L.params, args).Ok? && Settled(S, A, L.body)
    ensures Expand(S, k, sub, Invoke(Captured(f), args)) == Expand(S, k - 1, Bind(sub, L.params, args).value, L.body)
    decreases k, Captured(f), 1
  {
    var T := S[f].tree;
    if T.Lambda? {
      NormalForm(S, rank, rank(f), k - 1, A, sub, T.body);
    } else {
      NormalForm(S, rank, rank(f), k - 1, A, sub, T);
    }
    var out := Expand(S, k - 1, sub, T).value;
    L := if out.Quoted? then out.tree else out;
  }

  /** A tame expression always returns, with a tree or an exception, even if binders coincide. */
  lemma {:induction false} TameReturns(
      S: Store, rank: Field -> nat, h: nat, k: nat, A: set<ParamId>, sub: Subst, e: Expr)
    requires Tame(S, rank, h, A, e) == true && ValuesSettled(S, A, sub) && h <= k
    ensures Expand(S, k, sub, e) != OutOfFuel
    decreases k, e, 0
  {
    match e
    case Node(_, cs) => TameReturnsAll(S, rank, h, k, A, sub, cs);
    case Lambda(ps, b) => TameReturns(S, rank, h, k, A, sub, b);
    case Captured(f) => if HoldsTree(S, f) { TameReturns(S, rank, rank(f), k - 1, A, sub, S[f].tree); }
    case Compile(s) => TameReturns(S, rank, h, k, A, sub, s);
    case Invoke(t, args) =>
      if t.Captured? && HoldsTree(S, t.field) {
        TameInvocationReturns(S, rank, h, k, A, sub, t.field, args);
      } else {
        var L := if t.Quoted? then t.tree else t;
        if L.Lambda? {
          BindMeaning(sub, L.params, args);
          if Bind(sub, L.params, args).Ok? {
            SettledAfterBind(S, A, sub, L.params, args);
            TameReturns(S, rank, h, k, A, Bind(sub, L.params, args).value, L.body);
          }
        }
      }
    case _ =>
  }

  lemma {:induction false} TameInvocationReturns(
      S: Store, rank: Field -> nat, h: nat, k: nat, A: set<ParamId>, sub: Subst, f: Field, args: seq<Expr>)
    requires Tame(S, rank, h, A, Invoke(Captured(f), args)) == true && ValuesSettled(S, A, sub) && h <= k && HoldsTree(S, f)
    ensures Expand(S, k, sub, Invoke(Captured(f), args)) != OutOfFuel
    decreases k, Captured(f), 1
  {
    var T := S[f].tree;
    if T.Lambda? {
      TameReturns(S, rank, rank(f), k - 1, A, sub, T.body);
      if Expand(S, k - 1, sub, T).Ok? { NormalForm(S, rank, rank(f), k - 1, A, sub, T.body); }
    } else {
      TameReturns(S, rank, rank(f), k - 1, A, sub, T);
      if Expand(S, k - 1, sub, T).Ok? { NormalForm(S, rank, rank(f), k - 1, A, sub, T); }
    }
    if Expand(S, k - 1, sub, T).Ok? {
      var out := Expand(S, k - 1, sub, T).value;
      var L := if out.Quoted? then out.tree else out;
      if L.Lambda? {
        BindMeaning(sub, L.params, args);
        if Bind(sub, L.params, args).Ok? {
          SettledExpands(S, k - 1, A, Bind(sub, L.params, args).value, L.body);
        }
      }
    }
  }

  lemma {:induction false} TameReturnsAll(
      S: Store, rank: Field -> nat, h: nat, k: nat, A: set<ParamId>, sub: Subst, es: seq<Expr>)
    requires (forall i :: 0 <= i < |es| ==> Tame(S, rank, h, A, es[i])) && ValuesSettled(S, A, sub) && h <= k
    ensures ExpandAll(S, k, sub, es) != OutOfFuel
    decreases k, es, 0
  {
    if es != [] {
      TameReturns(S, rank, h, k, A, sub, es[0]);
      TameReturnsAll(S, rank, h, k, A, sub, es[1..]);
    }
  }

  /** The top-level statement about normal forms: the visit of a tame expression returns, and a tree it
      returns is settled, so that expanding it again, at any depth, gives it back. */
  lemma NormalFormIsReachedOnce(S: Store, rank: Field -> nat, h: nat, k: nat, e: Expr)
    requires Tame(S, rank, h, {}, e) && h <= k
    ensures Expand(S, k, map[], e) != OutOfFuel
    ensures Expand(S, k, map[], e).Ok? ==>
      var out := Expand(S, k, map[], e).value;
      Settled(S, {}, out) && forall m: nat :: Expand(S, m, map[], out) == Ok(out)
  {
    var none: Subst := map[];
    assert none.Keys == {};
    TameReturns(S, rank, h, k, {}, none, e);
    if Expand(S, k, none, e).Ok? {
      NormalForm(S, rank, h, k, {}, none, e);
      var out := Expand(S, k, none, e).value;
      forall m: nat ensures Expand(S, m, none, out) == Ok(out) { SettledIsUnchanged(S, m, none, out); }
    }
  }

  /** An expression that also fits succeeds and gains no free parameter. */
  lemma FittingReachesNormalForm(S: Store, rank: Field -> nat, h: nat, k: nat, e: Expr)
    requires Fits(S, rank, h, {}, {}, e) && Tame(S, rank, h, {}, e) && h <= k
    ensures Expand(S, k, map[], e).Ok?
    ensures var out := Expand(S, k, map[], e).value;
      && Settled(S, {}, out) && FreeParams(out) <= FreeParams(e)
      && forall m: nat :: Expand(S, m, map[], out) == Ok(out)
  {
    var none: Subst := map[];
    assert none.Keys == {};
    ExpansionSucceeds(S, rank, h, k, {}, none, e);
    ScopeOfExpansion(S, rank, h, k, {}, none, e);
    NormalFormIsReachedOnce(S, rank, h, k, e);
  }
}
