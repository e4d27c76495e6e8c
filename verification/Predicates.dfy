/** Predicates built with `PredicateBuilder`, and what expanding them gives. */
module Predicates {
  import opened Wrappers
  import opened Trees
  import opened Expander
  import opened ExpanderTheorems
  import opened ExpanderNormalForm
  import opened ExpanderMeaning

  // ---------------------------------------------------------------- PredicateBuilder

  function Parameters(ps: seq<ParamId>): seq<Expr> {
    seq(|ps|, i requires 0 <= i < |ps| => Parameter(ps[i]))
  }

  /** `p.And(q)` where `conj`, else `p.Or(q)`: `q` is invoked on `p`'s own parameters. */
  function Join(conj: bool, p: Expr, q: Expr): Expr
    requires p.Lambda?
  {
    Lambda(p.params, Node(if conj then AndAlso else OrElse, [p.body, Invoke(q, Parameters(p.params))]))
  }

  /** How a predicate was put together from given ones. */
  datatype Combo = Leaf(pred: Expr) | Combine(conj: bool, left: Combo, right: Combo)

  predicate IsPredicate(p: Expr) {
    p.Lambda? && |p.params| == 1
  }

  predicate AllPredicates(c: Combo) {
    match c
    case Leaf(p) => IsPredicate(p)
    case Combine(_, l, r) => AllPredicates(l) && AllPredicates(r)
  }

  function Build(c: Combo): (p: Expr)
    requires AllPredicates(c)
    ensures p.Lambda? && p.params == [Root(c)]
  {
    match c
    case Leaf(p) => p
    case Combine(conj, l, r) => Join(conj, Build(l), Build(r))
  }

  /** The parameter of the leftmost predicate, which the combination keeps. */
  function Root(c: Combo): ParamId
    requires AllPredicates(c)
  {
    match c
    case Leaf(p) => p.params[0]
    case Combine(_, l, _) => Root(l)
  }

  /** Folded to the left: every right operand is one of the given predicates. */
  predicate LeftFold(c: Combo) {
    match c
    case Leaf(_) => true
    case Combine(_, l, r) => r.Leaf? && LeftFold(l)
  }

  // ---------------------------------------------------------------- what a combination means

  /** The truth value of a single predicate at `d`. */
  function At(M: Methods, S: Store, n: nat, p: Expr, d: Data): Option<bool>
    requires IsPredicate(p)
  {
    TruthOf(Eval(M, S, n, p.body, map[p.params[0] := d]))
  }

  function Connect(conj: bool, l: Option<bool>, r: Option<bool>): Option<bool> {
    if l == Some(!conj) then l else if l == Some(conj) then r else None
  }

  /** The truth value of a combination at `d`, from those of the predicates in it. */
  function Meaning(M: Methods, S: Store, n: nat, c: Combo, d: Data): Option<bool>
    requires AllPredicates(c)
  {
    match c
    case Leaf(p) => At(M, S, n, p, d)
    case Combine(conj, l, r) => Connect(conj, Meaning(M, S, n, l, d), Meaning(M, S, n, r, d))
  }

  /** `True` and `False`. */
  function Seed(truth: bool, x: ParamId): Expr {
    Lambda([x], Constant(Truth(truth)))
  }

  /** A conjunction may start from `True` and a disjunction from `False`; the other seed decides the result. */
  lemma SeedIsNeutral(M: Methods, S: Store, n: nat, conj: bool, x: ParamId, c: Combo, d: Data)
    requires AllPredicates(c)
    ensures Meaning(M, S, n, Combine(conj, Leaf(Seed(conj, x)), c), d) == Meaning(M, S, n, c, d)
    ensures Meaning(M, S, n, Combine(conj, Leaf(Seed(!conj, x)), c), d) == Some(!conj)
  {
  }

  // ---------------------------------------------------------------- left folds

  /** A given predicate has nothing to rewrite, mentions only its own parameter, and its inner lambdas
      bind neither that parameter nor `root`. */
  predicate Usable(S: Store, root: ParamId, p: Expr) {
    IsPredicate(p) && FreeParams(p.body) <= {p.params[0]} && Settled(S, {root, p.params[0]}, p.body)
  }

  predicate AllUsable(S: Store, root: ParamId, c: Combo) {
    match c
    case Leaf(p) => Usable(S, root, p)
    case Combine(_, l, r) => AllUsable(S, root, l) && AllUsable(S, root, r)
  }

  /** The dictionary with which a right operand is visited. */
  function Renaming(x: ParamId, y: ParamId): Subst {
    map[x := Parameter(y)]
  }

  lemma RenamingCovers(x: ParamId, y: ParamId)
    ensures Covers({y}, Renaming(x, y)) && Renaming(x, y).Keys == {x}
  {
  }

  /** Renaming a settled tree and renaming it back gives the tree. */
  lemma {:induction false} RenameBack(S: Store, k: nat, x: ParamId, y: ParamId, b: Expr)
    requires x != y && y !in FreeParams(b) && Settled(S, {x, y}, b)
    ensures Expand(S, k, Renaming(x, y), b).Ok?
    ensures Expand(S, k, Renaming(y, x), Expand(S, k, Renaming(x, y), b).value) == Ok(b)
  {
    match b
    case Node(op, cs) =>
      ExpandAllPointwise(S, k, Renaming(x, y), cs);
      forall i | 0 <= i < |cs|
        ensures Expand(S, k, Renaming(x, y), cs[i]).Ok?
        ensures Expand(S, k, Renaming(y, x), Expand(S, k, Renaming(x, y), cs[i]).value) == Ok(cs[i])
      {
        ChildScope(op, cs, i);
        RenameBack(S, k, x, y, cs[i]);
      }
      var cs' := ExpandAll(S, k, Renaming(x, y), cs).value;
      ExpandAllPointwise(S, k, Renaming(y, x), cs');
      assert ExpandAll(S, k, Renaming(y, x), cs').value == cs;
    case Lambda(ps, e) =>
      assert y !in Elements(ps);
      RenameBack(S, k, x, y, e);
    case Compile(s) =>
      RenameBack(S, k, x, y, s);
      StaysUncaptured(S, k, x, y, s);
    case _ =>
  }

  lemma StaysUncaptured(S: Store, k: nat, x: ParamId, y: ParamId, s: Expr)
    requires Expand(S, k, Renaming(x, y), s).Ok? && Settled(S, {x, y}, s)
    ensures !s.Captured? ==> !Expand(S, k, Renaming(x, y), s).value.Captured?
  {
    match s
    case Parameter(p) => if p == x { assert Renaming(x, y)[p] == Parameter(y); }
    case Compile(t) => if t.Captured? { assert !HoldsTree(S, t.field); }
    case _ =>
  }

  /** One direction: the renamed body refines the body. */
  lemma RenameRefines(M: Methods, S: Store, k: nat, n: nat, x: ParamId, y: ParamId, b: Expr, d: Data)
    requires Observational(M) && FreeParams(b) <= {x} && Settled(S, {y, x}, b)
    ensures Expand(S, k, Renaming(x, y), b).Ok?
    ensures var out := Expand(S, k, Renaming(x, y), b).value;
      && FreeParams(out) <= {y}
      && Refines(Eval(M, S, n, b, map[x := d]), Eval(M, S, n, out, map[y := d]))
  {
    var rank := (f: Field) => 0;
    RenamingCovers(x, y);
    assert {x} + {y} == {y, x};
    SettledFits(S, rank, 0, {x}, {y}, b);
    Simulation(M, S, rank, 0, k, n, {y}, Renaming(x, y), b, map[x := d], map[y := d]);
    ScopeOfExpansion(S, rank, 0, k, {y}, Renaming(x, y), b);
    RenamedScope(x, y, FreeParams(b));
  }

  lemma RenamedScope(x: ParamId, y: ParamId, X: set<ParamId>)
    requires X <= {x}
    ensures Image(Renaming(x, y), X) <= {y}
  {
  }

  /** Renaming keeps the truth value exactly, also where there is none. */
  lemma RenameKeepsTruth(M: Methods, S: Store, k: nat, n: nat, x: ParamId, y: ParamId, b: Expr, d: Data)
    requires Observational(M) && FreeParams(b) <= {x} && Settled(S, {y, x}, b)
    ensures Expand(S, k, Renaming(x, y), b).Ok?
    ensures FreeParams(Expand(S, k, Renaming(x, y), b).value) <= {y}
    ensures Settled(S, {}, Expand(S, k, Renaming(x, y), b).value)
    ensures TruthOf(Eval(M, S, n, Expand(S, k, Renaming(x, y), b).value, map[y := d])) == TruthOf(Eval(M, S, n, b, map[x := d]))
  {
    RenameRefines(M, S, k, n, x, y, b, d);
    RenamedIsSettled(S, k, {y, x}, x, y, b);
    var out := Expand(S, k, Renaming(x, y), b).value;
    SettledWeaker(S, {y, x}, {}, out);
    if x != y {
      assert {x, y} == {y, x};
      RenameBack(S, k, x, y, b);
      RenameRefines(M, S, k, n, y, x, out, d);
    } else {
      IdentityRenaming(S, k, x, b);
    }
  }

  lemma RenamedIsSettled(S: Store, k: nat, A: set<ParamId>, x: ParamId, y: ParamId, b: Expr)
    requires Settled(S, A, b) && A == {y, x} && Expand(S, k, Renaming(x, y), b).Ok?
    ensures Settled(S, A, Expand(S, k, Renaming(x, y), b).value)
  {
    var rank := (f: Field) => 0;
    SettledIsTame(S, rank, 0, A, b);
    NormalForm(S, rank, 0, k, A, Renaming(x, y), b);
  }

  lemma {:induction false} IdentityRenaming(S: Store, k: nat, x: ParamId, b: Expr)
    requires Settled(S, {x, x}, b)
    ensures Expand(S, k, Renaming(x, x), b) == Ok(b)
  {
    match b
    case Node(op, cs) =>
      ExpandAllPointwise(S, k, Renaming(x, x), cs);
      forall i | 0 <= i < |cs| ensures Expand(S, k, Renaming(x, x), cs[i]) == Ok(cs[i]) {
        IdentityRenaming(S, k, x, cs[i]);
      }
      assert ExpandAll(S, k, Renaming(x, x), cs).value == cs;
    case Lambda(ps, e) => IdentityRenaming(S, k, x, e);
    case Compile(s) => IdentityRenaming(S, k, x, s);
    case _ =>
  }

  /** One step of a left fold: the left operand is expanded in place, the right one is renamed. */
  lemma ExpandJoin(S: Store, k: nat, conj: bool, p: Expr, q: Expr)
    requires IsPredicate(p) && IsPredicate(q)
    requires Expand(S, k, map[], p.body).Ok? && Expand(S, k, Renaming(q.params[0], p.params[0]), q.body).Ok?
    ensures Expand(S, k, map[], Join(conj, p, q)) ==
      Ok(Lambda(p.params, Node(if conj then AndAlso else OrElse,
        [Expand(S, k, map[], p.body).value, Expand(S, k, Renaming(q.params[0], p.params[0]), q.body).value])))
  {
    var none: Subst := map[];
    var args := Parameters(p.params);
    assert args == [Parameter(p.params[0])];
    assert Bind(none, q.params, args) == Ok(Renaming(q.params[0], p.params[0])) by {
      assert q.params[1..] == [];
      assert none[q.params[0] := args[0]] == Renaming(q.params[0], p.params[0]);
    }
    var es := [p.body, Invoke(q, args)];
    assert Expand(S, k, none, es[1]) == Expand(S, k, Renaming(q.params[0], p.params[0]), q.body);
    ExpandAllPointwise(S, k, none, es);
    forall i | 0 <= i < |es| ensures Expand(S, k, none, es[i]).Ok? {
      assert es[i] == p.body || es[i] == es[1];
    }
    assert ExpandAll(S, k, none, es).value
        == [Expand(S, k, none, p.body).value, Expand(S, k, Renaming(q.params[0], p.params[0]), q.body).value];
  }

  lemma ConnectTruths(M: Methods, S: Store, n: nat, conj: bool, l: Expr, r: Expr, env: Env)
    ensures TruthOf(Eval(M, S, n, Node(if conj then AndAlso else OrElse, [l, r]), env))
         == Connect(conj, TruthOf(Eval(M, S, n, l, env)), TruthOf(Eval(M, S, n, r, env)))
  {
    var cs := [l, r];
    assert cs[0] == l && cs[1] == r;
  }

  /** A left fold of usable predicates, the same one as often as wanted, expands to a settled lambda
      whose truth value at every argument is the fold of the predicates' truth values. */
  lemma {:induction false} LeftFoldsExpandCorrectly(M: Methods, S: Store, k: nat, n: nat, c: Combo, d: Data)
    requires AllPredicates(c) && LeftFold(c) && AllUsable(S, Root(c), c) && Observational(M)
    ensures Expand(S, k, map[], Build(c)).Ok?
    ensures var out := Expand(S, k, map[], Build(c)).value;
      && IsPredicate(out) && out.params[0] == Root(c)
      && FreeParams(out.body) <= {Root(c)} && Settled(S, {}, out)
      && At(M, S, n, out, d) == Meaning(M, S, n, c, d)
  {
    var none: Subst := map[];
    match c
    case Leaf(p) =>
      SettledWeaker(S, {Root(c), p.params[0]}, {}, p.body);
      assert none.Keys == {};
      SettledIsUnchanged(S, k, none, p);
    case Combine(conj, l, r) =>
      LeftFoldsExpandCorrectly(M, S, k, n, l, d);
      var p, q := Build(l), r.pred;
      RenameKeepsTruth(M, S, k, n, q.params[0], Root(c), q.body, d);
      ExpandJoin(S, k, conj, p, q);
      assert Build(c) == Join(conj, p, q);
      var out := Expand(S, k, none, Build(c)).value;
      FoldStep(M, S, n, conj, out, Expand(S, k, none, p.body).value,
               Expand(S, k, Renaming(q.params[0], Root(c)), q.body).value, Root(c), d);
  }

  lemma FoldStep(M: Methods, S: Store, n: nat, conj: bool, out: Expr, l: Expr, r: Expr, root: ParamId, d: Data)
    requires out == Lambda([root], Node(if conj then AndAlso else OrElse, [l, r]))
    requires FreeParams(l) <= {root} && FreeParams(r) <= {root} && Settled(S, {}, l) && Settled(S, {}, r)
    ensures FreeParams(out.body) <= {root} && Settled(S, {}, out)
    ensures At(M, S, n, out, d) == Connect(conj, TruthOf(Eval(M, S, n, l, map[root := d])), TruthOf(Eval(M, S, n, r, map[root := d])))
  {
    ConnectTruths(M, S, n, conj, l, r, map[root := d]);
  }
}
