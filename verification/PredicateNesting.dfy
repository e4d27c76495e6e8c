/** Predicates combined in any shape: what their expansion leaves unbound, and when it is correct. */
module PredicateNesting {
  import opened Wrappers
  import opened Trees
  import opened Expander
  import opened ExpanderTheorems
  import opened ExpanderNormalForm
  import opened ExpanderMeaning
  import opened Predicates

  /** All the parameters of the predicates in a combination. */
  function Owners(c: Combo): set<ParamId>
    requires AllPredicates(c)
  {
    match c
    case Leaf(p) => {p.params[0]}
    case Combine(_, l, r) => Owners(l) + Owners(r)
  }

  /** No two predicates share a parameter object, as separately written lambdas never do. */
  predicate Apart(c: Combo)
    requires AllPredicates(c)
  {
    c.Leaf? || (Apart(c.left) && Apart(c.right) && Owners(c.left) !! Owners(c.right))
  }

  /** No predicate mentions a parameter other than its own, and none has anything to rewrite. */
  predicate Clean(S: Store, A: set<ParamId>, c: Combo)
    requires AllPredicates(c)
  {
    match c
    case Leaf(p) => FreeParams(p.body) <= {p.params[0]} && Settled(S, A, p.body)
    case Combine(_, l, r) => Clean(S, A, l) && Clean(S, A, r)
  }

  lemma {:induction false} RootIsOwner(c: Combo)
    requires AllPredicates(c)
    ensures Root(c) in Owners(c)
  {
    if c.Combine? { RootIsOwner(c.left); }
  }

  /** The dictionary with which the right operand of `c` is visited when `c` is visited with `sub`. */
  function Inner(sub: Subst, c: Combo): Subst
    requires AllPredicates(c) && c.Combine?
  {
    sub[Root(c.right) := Parameter(Root(c))]
  }

  /** Visiting the body of a combination visits both operands, the right one with its parameter
      standing for the combination's, which is not visited itself. */
  lemma {:induction false} ExpandCombination(S: Store, k: nat, A: set<ParamId>, sub: Subst, c: Combo)
    requires AllPredicates(c) && Apart(c) && Clean(S, A, c)
    requires sub.Keys * Owners(c) <= {Root(c)}
    ensures Expand(S, k, sub, Build(c).body).Ok?
    ensures c.Combine? ==>
      && Expand(S, k, sub, Build(c.left).body).Ok? && Expand(S, k, Inner(sub, c), Build(c.right).body).Ok?
      && Expand(S, k, sub, Build(c).body).value == Node(if c.conj then AndAlso else OrElse,
           [Expand(S, k, sub, Build(c.left).body).value, Expand(S, k, Inner(sub, c), Build(c.right).body).value])
    decreases c
  {
    match c
    case Leaf(p) => SettledExpands(S, k, A, sub, p.body);
    case Combine(conj, l, r) =>
      RootIsOwner(l);
      RootIsOwner(r);
      ExpandCombination(S, k, A, sub, l);
      InnerKeys(sub, c);
      ExpandCombination(S, k, A, Inner(sub, c), r);
      CombineOperands(S, k, sub, c);
  }

  lemma CombineOperands(S: Store, k: nat, sub: Subst, c: Combo)
    requires AllPredicates(c) && c.Combine? && Root(c.right) !in sub
    requires Expand(S, k, sub, Build(c.left).body).Ok? && Expand(S, k, Inner(sub, c), Build(c.right).body).Ok?
    ensures Expand(S, k, sub, Build(c).body) == Ok(Node(if c.conj then AndAlso else OrElse,
              [Expand(S, k, sub, Build(c.left).body).value, Expand(S, k, Inner(sub, c), Build(c.right).body).value]))
  {
    var q := Build(c.right);
    var call := Invoke(q, Parameters(Build(c.left).params));
    assert Parameters(Build(c.left).params) == [Parameter(Root(c))];
    BindOne(sub, Root(c.right), Parameter(Root(c)));
    assert Expand(S, k, sub, call) == Expand(S, k, Inner(sub, c), q.body);
    ExpandTwo(S, k, sub, Build(c.left).body, call);
    assert Build(c).body == Node(if c.conj then AndAlso else OrElse, [Build(c.left).body, call]);
  }

  lemma InnerKeys(sub: Subst, c: Combo)
    requires AllPredicates(c) && c.Combine? && Apart(c) && sub.Keys * Owners(c) <= {Root(c)}
    ensures Root(c.right) !in sub && Inner(sub, c).Keys * Owners(c.right) <= {Root(c.right)}
    ensures sub.Keys * Owners(c.left) <= {Root(c.left)}
  {
    RootIsOwner(c.left);
    RootIsOwner(c.right);
    forall p | p in sub && p in Owners(c) ensures p == Root(c) {
      assert p in sub.Keys * Owners(c);
    }
    assert Root(c) in Owners(c.left) && Root(c) !in Owners(c.right);
    assert Owners(c) == Owners(c.left) + Owners(c.right);
    forall p | p in Inner(sub, c) && p in Owners(c.right) ensures p == Root(c.right) {
      assert p in sub || p == Root(c.right);
    }
  }

  lemma BindOne(sub: Subst, x: ParamId, e: Expr)
    requires x !in sub
    ensures Bind(sub, [x], [e]) == Ok(sub[x := e])
  {
    assert [x][1..] == [] && [e][1..] == [];
  }

  lemma ExpandTwo(S: Store, k: nat, sub: Subst, a: Expr, b: Expr)
    requires Expand(S, k, sub, a).Ok? && Expand(S, k, sub, b).Ok?
    ensures ExpandAll(S, k, sub, [a, b]) == Ok([Expand(S, k, sub, a).value, Expand(S, k, sub, b).value])
  {
    var es := [a, b];
    ExpandAllPointwise(S, k, sub, es);
    forall i | 0 <= i < |es| ensures Expand(S, k, sub, es[i]).Ok? { assert es[i] == a || es[i] == b; }
    assert ExpandAll(S, k, sub, es).value == [Expand(S, k, sub, a).value, Expand(S, k, sub, b).value];
  }

  // ---------------------------------------------------------------- what is left unbound

  /** The leftmost predicate of a combination mentions its own parameter. */
  predicate RootMentioned(c: Combo)
    requires AllPredicates(c)
  {
    match c
    case Leaf(p) => p.params[0] in FreeParams(p.body)
    case Combine(_, l, _) => RootMentioned(l)
  }

  /** In every combination inside `c`, the right operand's leftmost predicate ignores its parameter. */
  predicate Silent(c: Combo)
    requires AllPredicates(c)
  {
    c.Leaf? || (Silent(c.left) && Silent(c.right) && !RootMentioned(c.right))
  }

  /** The same for every combination that is not on the left spine of `c`. */
  predicate LeakFree(c: Combo)
    requires AllPredicates(c)
  {
    c.Leaf? || (LeakFree(c.left) && Silent(c.right))
  }

  /** The free parameters of the expanded body of a combination whose own parameter becomes `x`. */
  function Leftover(c: Combo, x: ParamId): set<ParamId>
    requires AllPredicates(c)
  {
    match c
    case Leaf(_) => if RootMentioned(c) then {x} else {}
    case Combine(_, l, r) => Leftover(l, x) + Leftover(r, Root(c))
  }

  /** The dictionary `sub` turns the combination's own parameter into `x` and has no other of its parameters. */
  ghost predicate Entered(A: set<ParamId>, sub: Subst, c: Combo, x: ParamId)
    requires AllPredicates(c)
  {
    && Owners(c) <= A && x in A && sub.Keys <= A && sub.Keys * Owners(c) <= {Root(c)}
    && if Root(c) in sub then sub[Root(c)] == Parameter(x) else x == Root(c)
  }

  lemma EnterOperands(A: set<ParamId>, sub: Subst, c: Combo, x: ParamId)
    requires AllPredicates(c) && c.Combine? && Apart(c) && Entered(A, sub, c, x)
    ensures Entered(A, sub, c.left, x) && Entered(A, Inner(sub, c), c.right, Root(c))
  {
    InnerKeys(sub, c);
    RootIsOwner(c);
    RootIsOwner(c.right);
    assert Root(c) == Root(c.left);
    assert Owners(c.right) <= Owners(c) && Owners(c.left) <= Owners(c);
  }

  /** Substituting into a settled tree that mentions at most one key, `q`, puts `x` in its place. */
  lemma {:induction false} SubstitutedParams(S: Store, k: nat, A: set<ParamId>, sub: Subst, b: Expr, q: ParamId, x: ParamId)
    requires Settled(S, A, b) && sub.Keys <= A && x in A && q in sub && sub[q] == Parameter(x)
    requires FreeParams(b) * sub.Keys <= {q}
    ensures Expand(S, k, sub, b).Ok?
    ensures FreeParams(Expand(S, k, sub, b).value) == (FreeParams(b) - {q}) + if q in FreeParams(b) then {x} else {}
  {
    match b
    case Node(op, cs) =>
      forall i | 0 <= i < |cs|
        ensures Expand(S, k, sub, cs[i]).Ok?
        ensures FreeParams(Expand(S, k, sub, cs[i]).value) == (FreeParams(cs[i]) - {q}) + if q in FreeParams(cs[i]) then {x} else {}
      {
        ChildScope(op, cs, i);
        assert FreeParams(cs[i]) * sub.Keys <= FreeParams(b) * sub.Keys;
        SubstitutedParams(S, k, A, sub, cs[i], q, x);
      }
      ExpandAllPointwise(S, k, sub, cs);
      SubstitutedInChildren(cs, Expand(S, k, sub, b).value.children, q, x);
    case Lambda(ps, e) =>
      forall p | p in FreeParams(e) && p in sub ensures p == q {
        assert p !in ps;
        assert p in FreeParams(b) * sub.Keys;
      }
      SubstitutedParams(S, k, A, sub, e, q, x);
      assert q !in ps && x !in ps;
    case Compile(s) => SubstitutedParams(S, k, A, sub, s, q, x);
    case Parameter(p) => if p in sub { assert p in FreeParams(b) * sub.Keys; }
    case _ =>
  }

  lemma SubstitutedInChildren(cs: seq<Expr>, cs': seq<Expr>, q: ParamId, x: ParamId)
    requires |cs| == |cs'|
    requires forall i :: 0 <= i < |cs| ==> FreeParams(cs'[i]) == (FreeParams(cs[i]) - {q}) + if q in FreeParams(cs[i]) then {x} else {}
    ensures FreeParamsOfAll(cs') == (FreeParamsOfAll(cs) - {q}) + if q in FreeParamsOfAll(cs) then {x} else {}
  {
    forall p | p in FreeParamsOfAll(cs) && p != q ensures p in FreeParamsOfAll(cs') {
      var i :| 0 <= i < |cs| && p in FreeParams(cs[i]);
      assert p in FreeParams(cs'[i]);
    }
    if q in FreeParamsOfAll(cs) {
      var i :| 0 <= i < |cs| && q in FreeParams(cs[i]);
      assert x in FreeParams(cs'[i]);
    }
  }

  lemma FreeOfTwo(op: Op, l: Expr, r: Expr)
    ensures FreeParams(Node(op, [l, r])) == FreeParams(l) + FreeParams(r)
  {
    var cs := [l, r];
    ChildScope(op, cs, 0);
    ChildScope(op, cs, 1);
    forall p | p in FreeParams(Node(op, cs)) ensures p in FreeParams(l) + FreeParams(r) {
      var i :| 0 <= i < |cs| && p in FreeParams(cs[i]);
      assert cs[i] == l || cs[i] == r;
    }
  }

  /** Exactly what expansion leaves free, for every combination of predicates with parameters of their own. */
  lemma {:induction false} LeftoverIsExact(S: Store, k: nat, A: set<ParamId>, sub: Subst, c: Combo, x: ParamId)
    requires AllPredicates(c) && Apart(c) && Clean(S, A, c) && Entered(A, sub, c, x)
    ensures Expand(S, k, sub, Build(c).body).Ok?
    ensures FreeParams(Expand(S, k, sub, Build(c).body).value) == Leftover(c, x)
    decreases c
  {
    ExpandCombination(S, k, A, sub, c);
    match c
    case Leaf(p) =>
      LeafKeys(A, sub, c, x);
      if Root(c) in sub {
        SubstitutedParams(S, k, A, sub, p.body, Root(c), x);
      } else {
        SettledWeaker(S, A, sub.Keys, p.body);
        SettledIsUnchanged(S, k, sub, p.body);
      }
    case Combine(conj, l, r) =>
      EnterOperands(A, sub, c, x);
      LeftoverIsExact(S, k, A, sub, l, x);
      LeftoverIsExact(S, k, A, Inner(sub, c), r, Root(c));
      FreeOfTwo(if conj then AndAlso else OrElse, Expand(S, k, sub, Build(l).body).value,
                Expand(S, k, Inner(sub, c), Build(r).body).value);
  }

  lemma LeafKeys(A: set<ParamId>, sub: Subst, c: Combo, x: ParamId)
    requires AllPredicates(c) && c.Leaf? && FreeParams(c.pred.body) <= {Root(c)} && Entered(A, sub, c, x)
    ensures FreeParams(c.pred.body) * sub.Keys <= {Root(c)}
    ensures Root(c) !in sub ==> FreeParams(c.pred.body) !! sub.Keys
  {
  }

  lemma {:induction false} LeftoverBounds(c: Combo, x: ParamId)
    requires AllPredicates(c)
    ensures Leftover(c, x) <= {x} + Owners(c)
    ensures Leftover(c, x) == {} <==> Silent(c) && !RootMentioned(c)
  {
    if c.Combine? {
      LeftoverBounds(c.left, x);
      LeftoverBounds(c.right, Root(c));
      RootIsOwner(c);
    }
  }

  /** A right operand leaves nothing but the left operand's parameter exactly when it is silent. */
  lemma {:induction false} SilentOperands(c: Combo, x: ParamId)
    requires AllPredicates(c) && x !in Owners(c)
    ensures Leftover(c, x) <= {x} <==> Silent(c)
  {
    if c.Combine? {
      SilentOperands(c.left, x);
      LeftoverBounds(c.right, Root(c));
      RootIsOwner(c);
      assert x !in Leftover(c.right, Root(c));
    }
  }

  lemma {:induction false} LeakFreeExactly(c: Combo)
    requires AllPredicates(c) && Apart(c)
    ensures Leftover(c, Root(c)) <= {Root(c)} <==> LeakFree(c)
  {
    if c.Combine? {
      RootIsOwner(c.left);
      LeakFreeExactly(c.left);
      SilentOperands(c.right, Root(c));
    }
  }

  /** A right operand that is itself a combination leaves its own parameter behind, unbound, if the leftmost
      predicate of its right operand mentions the one it has. */
  lemma RightNestingLeaks(S: Store, k: nat, A: set<ParamId>, sub: Subst, c: Combo, x: ParamId)
    requires AllPredicates(c) && Apart(c) && Clean(S, A, c) && Entered(A, sub, c, x)
    requires c.Combine? && c.right.Combine? && AllPredicates(c.right.right) && RootMentioned(c.right.right)
    ensures Expand(S, k, sub, Build(c).body).Ok? && Root(c.right) in FreeParams(Expand(S, k, sub, Build(c).body).value)
  {
    LeftoverIsExact(S, k, A, sub, c, x);
    MentionedIsLeft(c.right.right, Root(c.right));
  }

  lemma {:induction false} MentionedIsLeft(c: Combo, x: ParamId)
    requires AllPredicates(c) && RootMentioned(c)
    ensures x in Leftover(c, x)
  {
    if c.Combine? { MentionedIsLeft(c.left, x); }
  }

  /** For every way of combining predicates with parameters of their own, seeds that ignore theirs included:
      expansion succeeds, nothing is left to rewrite, and the result is closed if and only if, in every
      combination off the left spine, the right operand's leftmost predicate ignores its parameter. */
  lemma ClosedExactlyWithoutLeaks(S: Store, k: nat, c: Combo)
    requires AllPredicates(c) && Apart(c) && Clean(S, Owners(c), c)
    ensures Expand(S, k, map[], Build(c)).Ok?
    ensures Settled(S, {}, Expand(S, k, map[], Build(c)).value)
    ensures FreeParams(Expand(S, k, map[], Build(c)).value) == {} <==> LeakFree(c)
  {
    var none: Subst := map[];
    RootIsOwner(c);
    assert none.Keys == {} && none.Keys * Owners(c) == {};
    LeftoverIsExact(S, k, Owners(c), none, c, Root(c));
    LeakFreeExactly(c);
    var rank := (f: Field) => 0;
    CombinationIsTame(S, rank, 0, Owners(c), c);
    NormalForm(S, rank, 0, k, {}, none, Build(c));
    var out := Expand(S, k, none, Build(c)).value;
    assert out == Lambda([Root(c)], Expand(S, k, none, Build(c).body).value);
    assert FreeParams(out) == Leftover(c, Root(c)) - {Root(c)};
  }

  /** Combinations pass parameters as arguments only, so they are tame, whatever their shape. */
  lemma {:induction false} CombinationIsTame(S: Store, rank: Field -> nat, h: nat, A: set<ParamId>, c: Combo)
    requires AllPredicates(c) && Clean(S, A, c)
    ensures Tame(S, rank, h, {}, Build(c).body)
  {
    match c
    case Leaf(p) =>
      SettledWeaker(S, A, {}, p.body);
      SettledIsTame(S, rank, h, {}, p.body);
    case Combine(conj, l, r) =>
      CombinationIsTame(S, rank, h, A, l);
      CombinationIsTame(S, rank, h, A, r);
      var call := Invoke(Build(r), Parameters(Build(l).params));
      assert Tame(S, rank, h, {}, call);
      var cs := [Build(l).body, call];
      assert Build(c).body == Node(if conj then AndAlso else OrElse, cs);
      forall i | 0 <= i < |cs| ensures Tame(S, rank, h, {}, cs[i]) { assert cs[i] == Build(l).body || cs[i] == call; }
  }

  /** Every predicate mentions its parameter. */
  predicate AllMention(c: Combo)
    requires AllPredicates(c)
  {
    match c
    case Leaf(_) => RootMentioned(c)
    case Combine(_, l, r) => AllMention(l) && AllMention(r)
  }

  lemma {:induction false} MentioningLeaks(c: Combo)
    requires AllPredicates(c) && AllMention(c)
    ensures RootMentioned(c) && (Silent(c) <==> c.Leaf?) && (LeakFree(c) <==> LeftFold(c))
  {
    if c.Combine? {
      MentioningLeaks(c.left);
      MentioningLeaks(c.right);
    }
  }

  /** If every predicate mentions its parameter, the closed results are those of left folds. */
  lemma ClosedExactlyForLeftFolds(S: Store, k: nat, c: Combo)
    requires AllPredicates(c) && Apart(c) && Clean(S, Owners(c), c) && AllMention(c)
    ensures Expand(S, k, map[], Build(c)).Ok?
    ensures FreeParams(Expand(S, k, map[], Build(c)).value) == {} <==> LeftFold(c)
  {
    ClosedExactlyWithoutLeaks(S, k, c);
    MentioningLeaks(c);
  }

  // ---------------------------------------------------------------- closed results are correct

  /** Substitution into a settled tree depends on its free parameters only. */
  lemma {:induction false} SameSubstitution(S: Store, k: nat, A: set<ParamId>, sub: Subst, sub': Subst, b: Expr)
    requires Settled(S, A, b) && sub.Keys <= A && sub'.Keys <= A
    requires forall p :: p in FreeParams(b) ==> (p in sub <==> p in sub') && (p in sub ==> sub[p] == sub'[p])
    ensures Expand(S, k, sub, b).Ok? && Expand(S, k, sub, b) == Expand(S, k, sub', b)
  {
    match b
    case Node(op, cs) =>
      forall i | 0 <= i < |cs| ensures Expand(S, k, sub, cs[i]).Ok? && Expand(S, k, sub, cs[i]) == Expand(S, k, sub', cs[i]) {
        ChildScope(op, cs, i);
        SameSubstitution(S, k, A, sub, sub', cs[i]);
      }
      ExpandAllPointwise(S, k, sub, cs);
      ExpandAllPointwise(S, k, sub', cs);
      assert ExpandAll(S, k, sub, cs).value == ExpandAll(S, k, sub', cs).value;
    case Lambda(ps, e) =>
      forall p | p in FreeParams(e) ensures (p in sub <==> p in sub') && (p in sub ==> sub[p] == sub'[p]) {
        if p !in ps { assert p in FreeParams(b); }
      }
      SameSubstitution(S, k, A, sub, sub', e);
    case Compile(s) => SameSubstitution(S, k, A, sub, sub', s);
    case _ =>
  }

  lemma LeafKeepsTruth(M: Methods, S: Store, k: nat, n: nat, A: set<ParamId>, sub: Subst, c: Combo, x: ParamId, d: Data)
    requires Observational(M) && AllPredicates(c) && c.Leaf? && Clean(S, A, c) && Entered(A, sub, c, x)
    ensures Expand(S, k, sub, Build(c).body).Ok?
    ensures TruthOf(Eval(M, S, n, Expand(S, k, sub, Build(c).body).value, map[x := d])) == Meaning(M, S, n, c, d)
  {
    var b, q := c.pred.body, Root(c);
    LeafKeys(A, sub, c, x);
    if q in sub {
      var only := Renaming(q, x);
      assert only.Keys == {q};
      SameSubstitution(S, k, A, sub, only, b);
      SettledWeaker(S, A, {x, q}, b);
      RenameKeepsTruth(M, S, k, n, q, x, b, d);
    } else {
      SettledWeaker(S, A, sub.Keys, b);
      SettledIsUnchanged(S, k, sub, b);
    }
  }

  lemma ClosedTruth(M: Methods, S: Store, n: nat, e: Expr, env: Env, env': Env)
    requires Observational(M) && FreeParams(e) == {}
    ensures TruthOf(Eval(M, S, n, e, env)) == TruthOf(Eval(M, S, n, e, env'))
  {
    EvalIsStable(M, S, n, n, e, env, env');
    EvalIsStable(M, S, n, n, e, env', env);
  }

  lemma {:induction false} SilentKeepsTruth(M: Methods, S: Store, k: nat, n: nat, A: set<ParamId>, sub: Subst, c: Combo, x: ParamId, d: Data)
    requires Observational(M) && AllPredicates(c) && Apart(c) && Clean(S, A, c) && Entered(A, sub, c, x) && Silent(c)
    ensures Expand(S, k, sub, Build(c).body).Ok?
    ensures TruthOf(Eval(M, S, n, Expand(S, k, sub, Build(c).body).value, map[x := d])) == Meaning(M, S, n, c, d)
    decreases c
  {
    ExpandCombination(S, k, A, sub, c);
    match c
    case Leaf(_) => LeafKeepsTruth(M, S, k, n, A, sub, c, x, d);
    case Combine(conj, l, r) =>
      EnterOperands(A, sub, c, x);
      SilentKeepsTruth(M, S, k, n, A, sub, l, x, d);
      SilentKeepsTruth(M, S, k, n, A, Inner(sub, c), r, Root(c), d);
      LeftoverIsExact(S, k, A, Inner(sub, c), r, Root(c));
      LeftoverBounds(r, Root(c));
      var l', r' := Expand(S, k, sub, Build(l).body).value, Expand(S, k, Inner(sub, c), Build(r).body).value;
      ClosedTruth(M, S, n, r', map[x := d], map[Root(c) := d]);
      ConnectTruths(M, S, n, conj, l', r', map[x := d]);
  }

  lemma {:induction false} SpineKeepsTruth(M: Methods, S: Store, k: nat, n: nat, A: set<ParamId>, c: Combo, d: Data)
    requires Observational(M) && AllPredicates(c) && Apart(c) && Clean(S, A, c) && Owners(c) <= A && LeakFree(c)
    ensures Expand(S, k, map[], Build(c).body).Ok?
    ensures TruthOf(Eval(M, S, n, Expand(S, k, map[], Build(c).body).value, map[Root(c) := d])) == Meaning(M, S, n, c, d)
    decreases c
  {
    var none: Subst := map[];
    RootIsOwner(c);
    assert none.Keys == {} && Entered(A, none, c, Root(c));
    ExpandCombination(S, k, A, none, c);
    match c
    case Leaf(_) => LeafKeepsTruth(M, S, k, n, A, none, c, Root(c), d);
    case Combine(conj, l, r) =>
      EnterOperands(A, none, c, Root(c));
      SpineKeepsTruth(M, S, k, n, A, l, d);
      SilentKeepsTruth(M, S, k, n, A, Inner(none, c), r, Root(c), d);
      ConnectTruths(M, S, n, conj, Expand(S, k, none, Build(l).body).value,
                    Expand(S, k, Inner(none, c), Build(r).body).value, map[Root(c) := d]);
  }

  /** Where nothing leaks, the expansion has the truth value of the combination at every argument. */
  lemma CorrectWithoutLeaks(M: Methods, S: Store, k: nat, n: nat, c: Combo, d: Data)
    requires Observational(M) && AllPredicates(c) && Apart(c) && Clean(S, Owners(c), c) && LeakFree(c)
    ensures Expand(S, k, map[], Build(c)).Ok?
    ensures var out := Expand(S, k, map[], Build(c)).value;
      IsPredicate(out) && FreeParams(out) == {} && At(M, S, n, out, d) == Meaning(M, S, n, c, d)
  {
    ClosedExactlyWithoutLeaks(S, k, c);
    SpineKeepsTruth(M, S, k, n, Owners(c), c, d);
  }

  /** `x => m(x)`, a predicate that calls a method on its argument. */
  function Calls(x: ParamId): Expr {
    Lambda([x], Node(Strict(0), [Parameter(x)]))
  }

  /** `p1.And(p2.And(p3))` with three separate parameters: the combination is true wherever the method
      is, but its expansion has no value at any argument. */
  lemma RightNestingLosesMeaning(S: Store, k: nat, n: nat, d: Data)
    ensures var c := Combine(true, Leaf(Calls(1)), Combine(true, Leaf(Calls(2)), Leaf(Calls(3))));
      var M: Methods := (m, vs) => Some(Truth(true));
      && Expand(S, k, map[], Build(c)).Ok?
      && At(M, S, n, Build(c), d) == Some(true)
      && At(M, S, n, Expand(S, k, map[], Build(c)).value, d) == None
  {
    var M: Methods := (m, vs) => Some(Truth(true));
    var c2 := Combine(true, Leaf(Calls(2)), Leaf(Calls(3)));
    var c := Combine(true, Leaf(Calls(1)), c2);
    var none: Subst := map[];
    var sub2 := Inner(none, c);
    assert sub2 == map[2 := Parameter(1)];
    var sub3 := Inner(sub2, c2);
    assert sub3 == map[2 := Parameter(1), 3 := Parameter(2)];
    CallsExpand(S, k, none, 1);
    CallsExpand(S, k, sub2, 2);
    CallsExpand(S, k, sub3, 3);
    CombineOperands(S, k, sub2, c2);
    CombineOperands(S, k, none, c);
    var env: Env := map[1 := d];
    CallsTrue(M, S, n, Parameter(1), env);
    CallsNone(M, S, n, 2, env);
    var b1, b2, b3 := Node(Strict(0), [Parameter(1)]), Node(Strict(0), [Parameter(1)]), Node(Strict(0), [Parameter(2)]);
    ConnectTruths(M, S, n, true, b2, b3, env);
    ConnectTruths(M, S, n, true, b1, Node(AndAlso, [b2, b3]), env);
    BuiltIsTrue(M, S, n, d);
  }

  lemma CallsExpand(S: Store, k: nat, sub: Subst, x: ParamId)
    requires x in sub ==> sub[x].Parameter?
    ensures Expand(S, k, sub, Calls(x).body) == Ok(Node(Strict(0), [if x in sub then sub[x] else Parameter(x)]))
  {
    var p := Parameter(x);
    assert [p][1..] == [];
    var v := Expand(S, k, sub, p).value;
    assert [v] + [] == [v];
    assert ExpandAll(S, k, sub, [p]) == Ok([v]);
  }

  lemma CallsTrue(M: Methods, S: Store, n: nat, arg: Expr, env: Env)
    requires (forall m, vs :: M(m, vs) == Some(Truth(true))) && Eval(M, S, n, arg, env).Some?
    ensures Eval(M, S, n, Node(Strict(0), [arg]), env) == Some(D(Truth(true)))
  {
    EvalAllPointwise(M, S, n, [arg], env);
  }

  lemma CallsNone(M: Methods, S: Store, n: nat, x: ParamId, env: Env)
    requires x !in env
    ensures Eval(M, S, n, Node(Strict(0), [Parameter(x)]), env) == None
  {
    EvalAllPointwise(M, S, n, [Parameter(x)], env);
  }

  /** Invoking a predicate whose body is true at the argument's data. */
  lemma InvokeTrue(M: Methods, S: Store, n: nat, p: Expr, x: ParamId, d: Data, env: Env)
    requires IsPredicate(p) && x in env && env[x] == d
    requires Eval(M, S, n, p.body, env + map[p.params[0] := d]) == Some(D(Truth(true)))
    ensures Eval(M, S, n, Invoke(p, [Parameter(x)]), env) == Some(D(Truth(true)))
  {
    var args, ds := [Parameter(x)], [d];
    EvalAllPointwise(M, S, n, args, env);
    var vs := EvalAll(M, S, n, args, env).value;
    assert Eval(M, S, n, args[0], env) == Some(vs[0]);
    assert AreData(vs) && AllData(vs).value == ds;
    assert p.params == [p.params[0]];
    assert Zip(p.params, ds) == map[p.params[0] := d];
    LambdaApplies(M, S, n, p, env, ds);
  }

  lemma BuiltIsTrue(M: Methods, S: Store, n: nat, d: Data)
    requires forall m, vs :: M(m, vs) == Some(Truth(true))
    ensures At(M, S, n, Build(Combine(true, Leaf(Calls(1)), Combine(true, Leaf(Calls(2)), Leaf(Calls(3))))), d) == Some(true)
  {
    var q3 := Calls(3);
    var q2 := Build(Combine(true, Leaf(Calls(2)), Leaf(Calls(3))));
    var env1: Env := map[1 := d];
    var env2: Env := env1 + map[2 := d];
    CallsTrue(M, S, n, Parameter(3), env2 + map[3 := d]);
    InvokeTrue(M, S, n, q3, 2, d, env2);
    CallsTrue(M, S, n, Parameter(2), env2);
    assert Parameters([2]) == [Parameter(2)] && Parameters([1]) == [Parameter(1)];
    ConnectTruths(M, S, n, true, Calls(2).body, Invoke(q3, [Parameter(2)]), env2);
    assert TruthOf(Eval(M, S, n, q2.body, env2)) == Some(true);
    InvokeTrue(M, S, n, q2, 1, d, env1);
    CallsTrue(M, S, n, Parameter(1), env1);
    ConnectTruths(M, S, n, true, Calls(1).body, Invoke(q2, [Parameter(1)]), env1);
  }
}
