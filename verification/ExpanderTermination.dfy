/** Expansion returns, unless an invoked lambda shares a parameter with a captured tree below it. */
module ExpanderTermination {
  import opened Trees
  import opened Expander

  /** Every parameter that occurs anywhere in an expression. */
  function AllParams(e: Expr): set<ParamId> {
    match e
    case Constant(_) => {}
    case Quoted(t) => AllParams(t)
    case Parameter(p) => {p}
    case Node(_, cs) => set i, p | 0 <= i < |cs| && p in AllParams(cs[i]) :: p
    case Lambda(ps, b) => Elements(ps) + AllParams(b)
    case Invoke(t, args) => AllParams(t) + set i, p | 0 <= i < |args| && p in AllParams(args[i]) :: p
    case Captured(_) => {}
    case Compile(s) => AllParams(s)
    case AsExpandable(s) => AllParams(s)
  }

  /** The captured fields with trees that an expression refers to, in its arguments and in quoted lambdas
      that it invokes as well. */
  function Fields(S: Store, e: Expr): set<Field> {
    match e
    case Constant(_) => {}
    case Quoted(_) => {}
    case Parameter(_) => {}
    case Node(_, cs) => set i, f | 0 <= i < |cs| && f in Fields(S, cs[i]) :: f
    case Lambda(_, b) => Fields(S, b)
    case Invoke(t, args) =>
      (if t.Quoted? && t.tree.Lambda? then Fields(S, t.tree.body) else Fields(S, t))
      + set i, f | 0 <= i < |args| && f in Fields(S, args[i]) :: f
    case Captured(f) => if HoldsTree(S, f) then {f} else {}
    case Compile(s) => Fields(S, s)
    case AsExpandable(s) => Fields(S, s)
  }

  /** `reach` gives for each captured field at least the parameters that occur in its tree and in the trees
      that this one refers to.  The parameters in `K` occur in none of the trees of `fields`. */
  ghost predicate Clear(reach: Field -> set<ParamId>, K: set<ParamId>, fields: set<Field>) {
    forall f :: f in fields ==> reach(f) !! K
  }

  /** A captured tree that is invoked: a lambda whose parameters do not occur in the captured trees its
      body refers to, or a tree that is no lambda and does not become one. */
  ghost predicate Callee(S: Store, reach: Field -> set<ParamId>, f: Field)
    requires HoldsTree(S, f)
  {
    match S[f].tree
    case Lambda(ps, b) => Clear(reach, Elements(ps), Fields(S, b))
    case Constant(_) => true
    case Node(_, _) => true
    case _ => false
  }

  /** No lambda that is invoked shares a parameter with the captured trees its body refers to. */
  ghost predicate Ordered(S: Store, reach: Field -> set<ParamId>, e: Expr) {
    match e
    case Constant(_) => true
    case Quoted(_) => true
    case Parameter(_) => true
    case Node(_, cs) => forall i :: 0 <= i < |cs| ==> Ordered(S, reach, cs[i])
    case Lambda(_, b) => Ordered(S, reach, b)
    case Captured(_) => true
    case Compile(s) => Ordered(S, reach, s)
    case AsExpandable(s) => Ordered(S, reach, s)
    case Invoke(t, args) =>
      && (forall i :: 0 <= i < |args| ==> Ordered(S, reach, args[i]))
      && match t {
        case Captured(f) => HoldsTree(S, f) ==> Callee(S, reach, f)
        case Lambda(ps, b) => Clear(reach, Elements(ps), Fields(S, b)) && Ordered(S, reach, b)
        case Quoted(q) => q.Lambda? ==> Clear(reach, Elements(q.params), Fields(S, q.body)) && Ordered(S, reach, q.body)
        case _ => true
      }
  }

  ghost predicate TreeOrdered(S: Store, rank: Field -> nat, reach: Field -> set<ParamId>, f: Field)
    requires HoldsTree(S, f)
  {
    && Ordered(S, reach, S[f].tree) && AllParams(S[f].tree) <= reach(f)
    && forall g :: g in Fields(S, S[f].tree) ==> rank(g) < rank(f) && reach(g) <= reach(f)
  }

  /** Captured trees refer to captured trees of lower rank only, and are ordered. */
  ghost predicate StoreOrdered(S: Store, rank: Field -> nat, reach: Field -> set<ParamId>) {
    forall f :: HoldsTree(S, f) ==> TreeOrdered(S, rank, reach, f)
  }

  // ---------------------------------------------------------------- what a visit brings in

  /** An expression made of parameters in `V` and captured fields of rank below `h`, whose trees mention
      parameters in `V` and none in `Z`. */
  ghost predicate Within(S: Store, rank: Field -> nat, reach: Field -> set<ParamId>, V: set<ParamId>, Z: set<ParamId>, h: nat, e: Expr) {
    && AllParams(e) <= V && Ordered(S, reach, e)
    && forall f :: f in Fields(S, e) ==> rank(f) < h && reach(f) <= V && reach(f) !! Z
  }

  /** The dictionary values for parameters in `V` are within the bounds; nothing is asked of the others. */
  ghost predicate ValuesWithin(S: Store, rank: Field -> nat, reach: Field -> set<ParamId>, V: set<ParamId>, Z: set<ParamId>, h: nat, sub: Subst) {
    forall p :: p in sub && p in V ==> Within(S, rank, reach, V, Z, h, sub[p])
  }

  lemma {:induction false} WithinWider(S: Store, rank: Field -> nat, reach: Field -> set<ParamId>,
      V: set<ParamId>, V': set<ParamId>, Z: set<ParamId>, h: nat, h': nat, e: Expr)
    requires Within(S, rank, reach, V, Z, h, e) && V <= V' && h <= h'
    ensures Within(S, rank, reach, V', Z, h', e)
  {
  }

  lemma ChildWithin(S: Store, rank: Field -> nat, reach: Field -> set<ParamId>, V: set<ParamId>, Z: set<ParamId>, h: nat, e: Expr, i: nat)
    requires e.Node? && i < |e.children| && Within(S, rank, reach, V, Z, h, e)
    ensures Within(S, rank, reach, V, Z, h, e.children[i]) && Fields(S, e.children[i]) <= Fields(S, e)
  {
    assert Fields(S, e.children[i]) <= Fields(S, e);
    assert AllParams(e.children[i]) <= AllParams(e);
  }

  lemma ArgWithin(S: Store, rank: Field -> nat, reach: Field -> set<ParamId>, V: set<ParamId>, Z: set<ParamId>, h: nat, e: Expr, i: nat)
    requires e.Invoke? && i < |e.args| && Within(S, rank, reach, V, Z, h, e)
    ensures Within(S, rank, reach, V, Z, h, e.args[i])
  {
    assert Fields(S, e.args[i]) <= Fields(S, e);
    assert AllParams(e.args[i]) <= AllParams(e);
  }

  /** What an invocation enters is part of it. */
  lemma TargetOccurs(S: Store, t: Expr, args: seq<Expr>)
    ensures t.Captured? && HoldsTree(S, t.field) ==> t.field in Fields(S, Invoke(t, args))
    ensures var L := if t.Quoted? then t.tree else t;
      L.Lambda? ==>
        && Fields(S, L.body) <= Fields(S, Invoke(t, args))
        && Elements(L.params) + AllParams(L.body) <= AllParams(Invoke(t, args))
  {
    var L := if t.Quoted? then t.tree else t;
    if L.Lambda? {
      assert Elements(L.params) + AllParams(L.body) == AllParams(L) <= AllParams(t) <= AllParams(Invoke(t, args));
    }
  }

  lemma ValuesAfterBind(S: Store, rank: Field -> nat, reach: Field -> set<ParamId>, V: set<ParamId>, Z: set<ParamId>, h: nat,
      sub: Subst, e: Expr, ps: seq<ParamId>)
    requires e.Invoke? && Within(S, rank, reach, V, Z, h, e) && ValuesWithin(S, rank, reach, V, Z, h, sub)
    requires Bind(sub, ps, e.args).Ok?
    ensures ValuesWithin(S, rank, reach, V, Z, h, Bind(sub, ps, e.args).value)
    ensures Bind(sub, ps, e.args).value.Keys == sub.Keys + Elements(ps)
  {
    BindMeaning(sub, ps, e.args);
    var m := Bind(sub, ps, e.args).value;
    forall p | p in m && p in V ensures Within(S, rank, reach, V, Z, h, m[p]) {
      if p !in sub {
        var i :| 0 <= i < |ps| && ps[i] == p;
        ArgWithin(S, rank, reach, V, Z, h, e, i);
      }
    }
  }

  /** The expansion stays within the bounds: parameters that occur in a captured tree are no keys while it
      is visited, so nothing of the dictionary gets into it. */
  lemma {:induction false} StaysWithin(S: Store, rank: Field -> nat, reach: Field -> set<ParamId>,
      V: set<ParamId>, Z: set<ParamId>, h: nat, k: nat, sub: Subst, e: Expr)
    requires StoreOrdered(S, rank, reach) && Clear(reach, sub.Keys, Fields(S, e)) && Expand(S, k, sub, e).Ok?
    requires Within(S, rank, reach, V, Z, h, e) && ValuesWithin(S, rank, reach, V, Z, h, sub)
    ensures Within(S, rank, reach, V, Z, h, Expand(S, k, sub, e).value)
    decreases k, e, 1
  {
    var out := Expand(S, k, sub, e).value;
    match e
    case Node(_, cs) =>
      ExpandAllPointwise(S, k, sub, cs);
      forall i | 0 <= i < |cs| ensures Within(S, rank, reach, V, Z, h, out.children[i]) {
        ChildWithin(S, rank, reach, V, Z, h, e, i);
        StaysWithin(S, rank, reach, V, Z, h, k, sub, cs[i]);
      }
    case Lambda(_, b) => StaysWithin(S, rank, reach, V, Z, h, k, sub, b);
    case Captured(f) =>
      if HoldsTree(S, f) { TreeStaysWithin(S, rank, reach, V, Z, h, k, sub, f); }
    case Compile(s) => if !(s.Captured? && !HoldsTree(S, s.field)) { StaysWithin(S, rank, reach, V, Z, h, k, sub, s); }
    case Invoke(_, _) => InvocationStaysWithin(S, rank, reach, V, Z, h, k, sub, e);
    case _ =>
  }

  lemma {:induction false} TreeStaysWithin(S: Store, rank: Field -> nat, reach: Field -> set<ParamId>,
      V: set<ParamId>, Z: set<ParamId>, h: nat, k: nat, sub: Subst, f: Field)
    requires StoreOrdered(S, rank, reach) && HoldsTree(S, f) && reach(f) !! sub.Keys && Expand(S, k, sub, Captured(f)).Ok?
    requires rank(f) < h && reach(f) <= V && reach(f) !! Z
    ensures Within(S, rank, reach, V, Z, h, Expand(S, k, sub, Captured(f)).value)
    decreases k, Captured(f), 0
  {
    assert TreeOrdered(S, rank, reach, f);
    StaysWithin(S, rank, reach, reach(f), Z, rank(f), k - 1, sub, S[f].tree);
    WithinWider(S, rank, reach, reach(f), V, Z, rank(f), h, Expand(S, k, sub, Captured(f)).value);
  }

  lemma {:induction false} InvocationStaysWithin(S: Store, rank: Field -> nat, reach: Field -> set<ParamId>,
      V: set<ParamId>, Z: set<ParamId>, h: nat, k: nat, sub: Subst, e: Expr)
    requires e.Invoke? && StoreOrdered(S, rank, reach) && Clear(reach, sub.Keys, Fields(S, e)) && Expand(S, k, sub, e).Ok?
    requires Within(S, rank, reach, V, Z, h, e) && ValuesWithin(S, rank, reach, V, Z, h, sub)
    ensures Within(S, rank, reach, V, Z, h, Expand(S, k, sub, e).value)
    decreases k, e, 0
  {
    var t, args := e.target, e.args;
    TargetOccurs(S, t, args);
    if t.Captured? && HoldsTree(S, t.field) {
      FirstVisitIsClear(S, rank, reach, k - 1, sub, t.field);
      var L := Expand(S, k - 1, sub, S[t.field].tree).value;
      WithinReach(S, rank, reach, V, Z, h, t.field, L.params, L.body);
      ValuesAfterBind(S, rank, reach, V, Z, h, sub, e, L.params);
      StaysWithin(S, rank, reach, V, Z, h, k - 1, Bind(sub, L.params, args).value, L.body);
    } else {
      var L := if t.Quoted? then t.tree else t;
      ValuesAfterBind(S, rank, reach, V, Z, h, sub, e, L.params);
      StaysWithin(S, rank, reach, V, Z, h, k, Bind(sub, L.params, args).value, L.body);
    }
  }

  lemma WithinReach(S: Store, rank: Field -> nat, reach: Field -> set<ParamId>, V: set<ParamId>, Z: set<ParamId>, h: nat,
      f: Field, ps: seq<ParamId>, b: Expr)
    requires Within(S, rank, reach, reach(f), Elements(ps), rank(f), b)
    requires rank(f) < h && reach(f) <= V && reach(f) !! Z
    ensures Within(S, rank, reach, V, Z, h, b)
  {
  }

  /** The first visit of an invoked captured lambda: its body comes out with captured fields of lower rank
      than its own, none of whose trees mentions a key or a parameter of the lambda. */
  lemma {:induction false} FirstVisitIsClear(S: Store, rank: Field -> nat, reach: Field -> set<ParamId>, k: nat, sub: Subst, f: Field)
    requires StoreOrdered(S, rank, reach) && HoldsTree(S, f) && Callee(S, reach, f) && S[f].tree.Lambda?
    requires reach(f) !! sub.Keys && Expand(S, k, sub, S[f].tree).Ok?
    ensures var ps, b := S[f].tree.params, Expand(S, k, sub, S[f].tree.body).value;
      && Expand(S, k, sub, S[f].tree) == Ok(Lambda(ps, b))
      && Within(S, rank, reach, reach(f), Elements(ps), rank(f), b) && Clear(reach, sub.Keys + Elements(ps), Fields(S, b))
    decreases k, S[f].tree.body, 2
  {
    assert TreeOrdered(S, rank, reach, f);
    StaysWithin(S, rank, reach, reach(f), Elements(S[f].tree.params), rank(f), k, sub, S[f].tree.body);
  }

  // ---------------------------------------------------------------- termination

  ghost predicate FieldsBelow(rank: Field -> nat, h: nat, fields: set<Field>) {
    forall f :: f in fields ==> rank(f) < h
  }

  /** The general form.  Nothing is asked of the dictionary's values, so arguments may hold anything; its keys
      occur in no captured tree that the expression refers to. */
  lemma {:induction false} VisitReturns(S: Store, rank: Field -> nat, reach: Field -> set<ParamId>, h: nat, k: nat, sub: Subst, e: Expr)
    requires StoreOrdered(S, rank, reach) && Ordered(S, reach, e) && h <= k
    requires FieldsBelow(rank, h, Fields(S, e)) && Clear(reach, sub.Keys, Fields(S, e))
    ensures Expand(S, k, sub, e) != OutOfFuel
    decreases k, e, 0
  {
    match e
    case Node(_, cs) => VisitAllReturns(S, rank, reach, h, k, sub, cs);
    case Lambda(_, b) => VisitReturns(S, rank, reach, h, k, sub, b);
    case Captured(f) =>
      if HoldsTree(S, f) {
        assert TreeOrdered(S, rank, reach, f);
        VisitReturns(S, rank, reach, rank(f), k - 1, sub, S[f].tree);
      }
    case Compile(s) => VisitReturns(S, rank, reach, h, k, sub, s);
    case Invoke(t, args) =>
      TargetOccurs(S, t, args);
      if t.Captured? && HoldsTree(S, t.field) {
        InvokingReturns(S, rank, reach, k, sub, t.field, args);
      } else {
        var L := if t.Quoted? then t.tree else t;
        if L.Lambda? {
          BindMeaning(sub, L.params, args);
          if Bind(sub, L.params, args).Ok? {
            VisitReturns(S, rank, reach, h, k, Bind(sub, L.params, args).value, L.body);
          }
        }
      }
    case _ =>
  }

  /** Invoking a captured tree visits it twice, and returns: the second visit finds lower ranks only. */
  lemma {:induction false} InvokingReturns(S: Store, rank: Field -> nat, reach: Field -> set<ParamId>, k: nat, sub: Subst, f: Field, args: seq<Expr>)
    requires StoreOrdered(S, rank, reach) && HoldsTree(S, f) && Callee(S, reach, f) && rank(f) < k && reach(f) !! sub.Keys
    ensures Expand(S, k, sub, Invoke(Captured(f), args)) != OutOfFuel
    decreases k, Captured(f), 1
  {
    assert TreeOrdered(S, rank, reach, f);
    VisitReturns(S, rank, reach, rank(f), k - 1, sub, S[f].tree);
    if S[f].tree.Lambda? && Expand(S, k - 1, sub, S[f].tree).Ok? {
      FirstVisitIsClear(S, rank, reach, k - 1, sub, f);
      var L := Expand(S, k - 1, sub, S[f].tree).value;
      BindMeaning(sub, L.params, args);
      if Bind(sub, L.params, args).Ok? {
        VisitReturns(S, rank, reach, rank(f), k - 1, Bind(sub, L.params, args).value, L.body);
      }
    }
  }

  lemma {:induction false} VisitAllReturns(S: Store, rank: Field -> nat, reach: Field -> set<ParamId>, h: nat, k: nat, sub: Subst, es: seq<Expr>)
    requires StoreOrdered(S, rank, reach) && h <= k
    requires forall i :: 0 <= i < |es| ==>
      Ordered(S, reach, es[i]) && FieldsBelow(rank, h, Fields(S, es[i])) && Clear(reach, sub.Keys, Fields(S, es[i]))
    ensures ExpandAll(S, k, sub, es) != OutOfFuel
    decreases k, es, 0
  {
    if es != [] {
      VisitReturns(S, rank, reach, h, k, sub, es[0]);
      VisitAllReturns(S, rank, reach, h, k, sub, es[1..]);
    }
  }

  /** Termination.  If captured trees refer to trees of lower rank only and no invoked lambda, in the
      expression or in a captured tree, shares a parameter with the captured trees its body refers to, the
      visit returns, with a tree or with one of the exceptions, at a depth bounded by the ranks.  Arguments
      may be anything, invocations and captured trees included; captured trees need not be closed. */
  lemma OrderedVisitReturns(S: Store, rank: Field -> nat, reach: Field -> set<ParamId>, h: nat, k: nat, e: Expr)
    requires StoreOrdered(S, rank, reach) && Ordered(S, reach, e) && FieldsBelow(rank, h, Fields(S, e)) && h <= k
    ensures Expand(S, k, map[], e) != OutOfFuel && Expand(S, k, map[], e) == Expand(S, h, map[], e)
  {
    var none: Subst := map[];
    assert none.Keys == {};
    VisitReturns(S, rank, reach, h, h, none, e);
    FuelIsMonotone(S, h, k, none, e);
  }

  // ---------------------------------------------------------------- every expression

  lemma {:induction false} ForeignIsOrdered(S: Store, reach: Field -> set<ParamId>, A: set<ParamId>, e: Expr)
    requires forall f :: HoldsTree(S, f) ==> Callee(S, reach, f) && reach(f) !! A
    requires AllParams(e) <= A
    ensures Ordered(S, reach, e)
    ensures forall f :: f in Fields(S, e) ==> HoldsTree(S, f)
  {
    match e
    case Node(_, cs) =>
      forall i | 0 <= i < |cs| ensures Ordered(S, reach, cs[i]) && forall f :: f in Fields(S, cs[i]) ==> HoldsTree(S, f) {
        assert AllParams(cs[i]) <= AllParams(e);
        ForeignIsOrdered(S, reach, A, cs[i]);
      }
    case Lambda(_, b) => ForeignIsOrdered(S, reach, A, b);
    case Compile(s) => ForeignIsOrdered(S, reach, A, s);
    case AsExpandable(s) => ForeignIsOrdered(S, reach, A, s);
    case Invoke(t, args) =>
      forall i | 0 <= i < |args| ensures Ordered(S, reach, args[i]) && forall f :: f in Fields(S, args[i]) ==> HoldsTree(S, f) {
        assert AllParams(args[i]) <= AllParams(e);
        ForeignIsOrdered(S, reach, A, args[i]);
      }
      TargetOccurs(S, t, args);
      if t.Quoted? && t.tree.Lambda? {
        ForeignIsOrdered(S, reach, A, t.tree.body);
      } else {
        ForeignIsOrdered(S, reach, A, t);
      }
    case _ =>
  }

  /** With captured lambdas whose parameters are their own, the visit of every expression whatsoever that does
      not use those parameters itself returns. */
  lemma EveryVisitReturns(S: Store, rank: Field -> nat, reach: Field -> set<ParamId>, h: nat, k: nat, e: Expr)
    requires StoreOrdered(S, rank, reach) && h <= k
    requires forall f :: HoldsTree(S, f) ==> rank(f) < h && Callee(S, reach, f) && reach(f) !! AllParams(e)
    ensures Expand(S, k, map[], e) != OutOfFuel && Expand(S, k, map[], e) == Expand(S, h, map[], e)
  {
    ForeignIsOrdered(S, reach, AllParams(e), e);
    OrderedVisitReturns(S, rank, reach, h, k, e);
  }

  /** The captured lambdas `once = x => m(x)` and `twice = y => once.Invoke(once.Invoke(y))`. */
  const ONCE: Expr := Lambda([1], Node(Strict(0), [Parameter(1)]))
  const TWICE: Expr := Lambda([2], Invoke(Captured(0), [Invoke(Captured(0), [Parameter(2)])]))

  const HELPERS: Store := map[0 := Tree(ONCE), 1 := Tree(TWICE)]

  function HelperParams(f: Field): set<ParamId> {
    if f == 0 then {1} else {1, 2}
  }

  lemma OnceIsOrdered()
    ensures TreeOrdered(HELPERS, (f: Field) => f, HelperParams, 0) && Callee(HELPERS, HelperParams, 0)
  {
    assert AllParams(ONCE.body.children[0]) == {1} && Fields(HELPERS, ONCE.body.children[0]) == {};
    assert AllParams(ONCE.body) == {1} && Fields(HELPERS, ONCE.body) == {};
    assert HELPERS[0].tree == ONCE && AllParams(ONCE) == {1} && Fields(HELPERS, ONCE) == {};
    assert Ordered(HELPERS, HelperParams, ONCE.body.children[0]);
    assert Ordered(HELPERS, HelperParams, ONCE.body);
  }

  lemma TwiceIsOrdered()
    ensures TreeOrdered(HELPERS, (f: Field) => f, HelperParams, 1) && Callee(HELPERS, HelperParams, 1)
  {
    OnceIsOrdered();
    var inner := TWICE.body.args[0];
    assert AllParams(inner.args[0]) == {2} && Fields(HELPERS, inner.args[0]) == {};
    assert AllParams(inner) == {2} && Fields(HELPERS, inner) == {0};
    assert AllParams(TWICE.body) == {2} && Fields(HELPERS, TWICE.body) == {0};
    assert HELPERS[1].tree == TWICE && AllParams(TWICE) == {2} && Fields(HELPERS, TWICE) == {0};
    assert Ordered(HELPERS, HelperParams, inner.args[0]);
    assert Ordered(HELPERS, HelperParams, inner);
    assert Ordered(HELPERS, HelperParams, TWICE.body);
  }

  /** Invocations in the arguments of a captured lambda's invocations are no obstacle. */
  lemma NestedInvocationReturns(k: nat, e: Expr)
    requires k >= 2 && AllParams(e) !! {1, 2}
    ensures Expand(HELPERS, k, map[], e) != OutOfFuel
  {
    OnceIsOrdered();
    TwiceIsOrdered();
    forall f | HoldsTree(HELPERS, f) ensures f == 0 || f == 1 {}
    EveryVisitReturns(HELPERS, (f: Field) => f, HelperParams, 2, k, e);
  }
}
