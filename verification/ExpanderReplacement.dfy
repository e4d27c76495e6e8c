/** Expansion against plain replacement: one fixed dictionary, no visiting order, no nesting of expanders. */
module ExpanderReplacement {
  import opened Wrappers
  import opened Trees
  import opened Expander
  import opened ExpanderTheorems

  // ---------------------------------------------------------------- replacement

  predicate HasLambda(t: Expr) {
    t.Lambda? || (t.Quoted? && t.tree.Lambda?)
  }

  /** The lambda given inline or as a constant. */
  function LambdaOf(t: Expr): Expr
    requires HasLambda(t)
  {
    if t.Quoted? then t.tree else t
  }

  /** Every parameter in `D` is replaced, under binders too, and an invoked lambda leaves its body behind.
      What goes in is not looked at again, and neither are arguments. */
  function Replace(D: Subst, e: Expr): Expr {
    match e
    case Constant(_) => e
    case Quoted(_) => e
    case Parameter(p) => if p in D then D[p] else e
    case Node(op, cs) => Node(op, seq(|cs|, i requires 0 <= i < |cs| => Replace(D, cs[i])))
    case Lambda(ps, b) => Lambda(ps, Replace(D, b))
    case Invoke(t, _) => if t.Lambda? then Replace(D, t.body) else if HasLambda(t) then Replace(D, t.tree.body) else e
    case Captured(_) => e
    case Compile(s) => Compile(Replace(D, s))
    case AsExpandable(s) => s
  }

  /** The parameters that replacement looks up. */
  function Looked(e: Expr): set<ParamId> {
    match e
    case Constant(_) => {}
    case Quoted(_) => {}
    case Parameter(p) => {p}
    case Node(_, cs) => set i, p | 0 <= i < |cs| && p in Looked(cs[i]) :: p
    case Lambda(_, b) => Looked(b)
    case Invoke(t, _) => if t.Lambda? then Looked(t.body) else if HasLambda(t) then Looked(t.tree.body) else {}
    case Captured(_) => {}
    case Compile(s) => Looked(s)
    case AsExpandable(_) => {}
  }

  lemma {:induction false} ReplaceDepends(D: Subst, D': Subst, e: Expr)
    requires forall p :: p in Looked(e) ==> (p in D <==> p in D') && (p in D ==> D[p] == D'[p])
    ensures Replace(D, e) == Replace(D', e)
  {
    match e
    case Node(op, cs) =>
      forall i | 0 <= i < |cs| ensures Replace(D, cs[i]) == Replace(D', cs[i]) {
        assert Looked(cs[i]) <= Looked(e);
        ReplaceDepends(D, D', cs[i]);
      }
      assert Replace(D, e).children == Replace(D', e).children;
    case Lambda(_, b) => ReplaceDepends(D, D', b);
    case Compile(s) => ReplaceDepends(D, D', s);
    case Invoke(t, _) => if HasLambda(t) { ReplaceDepends(D, D', LambdaOf(t).body); }
    case _ =>
  }

  lemma {:induction false} ReplaceNothing(D: Subst, S: Store, A: set<ParamId>, e: Expr)
    requires Settled(S, A, e) && Looked(e) !! D.Keys
    ensures Replace(D, e) == e
  {
    match e
    case Node(op, cs) =>
      forall i | 0 <= i < |cs| ensures Replace(D, cs[i]) == cs[i] {
        assert Looked(cs[i]) <= Looked(e);
        ReplaceNothing(D, S, A, cs[i]);
      }
      assert Replace(D, e).children == cs;
    case Lambda(_, b) => ReplaceNothing(D, S, A, b);
    case Compile(s) => ReplaceNothing(D, S, A, s);
    case _ =>
  }

  // ---------------------------------------------------------------- settled trees

  /** On a tree with nothing to rewrite, and with any dictionary, expansion is replacement. */
  lemma {:induction false} SettledIsReplaced(S: Store, k: nat, A: set<ParamId>, sub: Subst, e: Expr)
    requires Settled(S, A, e)
    ensures Expand(S, k, sub, e) == Ok(Replace(sub, e))
  {
    match e
    case Node(op, cs) =>
      forall i | 0 <= i < |cs| ensures Expand(S, k, sub, cs[i]) == Ok(Replace(sub, cs[i])) {
        SettledIsReplaced(S, k, A, sub, cs[i]);
      }
      ExpandAllPointwise(S, k, sub, cs);
      assert ExpandAll(S, k, sub, cs).value == Replace(sub, e).children;
    case Lambda(_, b) => SettledIsReplaced(S, k, A, sub, b);
    case Compile(s) => SettledIsReplaced(S, k, A, sub, s);
    case _ =>
  }

  /** The dictionary of an invocation: as many arguments as there are parameters. */
  function Given(ps: seq<ParamId>, args: seq<Expr>): Subst
    requires |ps| <= |args|
  {
    Zip(ps, args[..|ps|])
  }

  lemma BindIsGiven(sub: Subst, ps: seq<ParamId>, args: seq<Expr>)
    requires Addable(sub.Keys, ps, args)
    ensures Bind(sub, ps, args) == Ok(sub + Given(ps, args))
    ensures Given(ps, args).Keys == Elements(ps)
  {
    BindMeaning(sub, ps, args);
    var m, z := Bind(sub, ps, args).value, Given(ps, args);
    ZipKeys(ps, args[..|ps|]);
    assert m.Keys == (sub + z).Keys;
    forall p | p in m ensures m[p] == (sub + z)[p] {
      if p in ps {
        var i := ZipAt(ps, args[..|ps|], p);
      }
    }
    assert m == sub + z;
  }

  /** Invoking any lambda, inline or quoted, is visiting its body with the arguments in the dictionary. */
  lemma InvokeEnters(S: Store, k: nat, sub: Subst, t: Expr, args: seq<Expr>)
    requires HasLambda(t)
    ensures var L := LambdaOf(t);
      Expand(S, k, sub, Invoke(t, args)) ==
        if Addable(sub.Keys, L.params, args) then Expand(S, k, sub + Given(L.params, args), L.body) else InvokedRecursively
  {
    var L := LambdaOf(t);
    BindMeaning(sub, L.params, args);
    if Addable(sub.Keys, L.params, args) {
      BindIsGiven(sub, L.params, args);
    }
  }

  /** Every other node keeps its kind, operator and parameters, and each child is replaced by its expansion. */
  lemma KeepsShape(S: Store, k: nat, sub: Subst, e: Expr)
    requires Expand(S, k, sub, e).Ok?
    ensures var out := Expand(S, k, sub, e).value;
      match e
      case Node(op, cs) => out.Node? && out.op == op && |out.children| == |cs|
        && forall i :: 0 <= i < |cs| ==> Expand(S, k, sub, cs[i]) == Ok(out.children[i])
      case Lambda(ps, b) => out.Lambda? && out.params == ps && Expand(S, k, sub, b) == Ok(out.body)
      case Compile(s) => s.Captured? || (out.Compile? && Expand(S, k, sub, s) == Ok(out.source))
      case _ => true
  {
    if e.Node? {
      ExpandAllPointwise(S, k, sub, e.children);
    }
  }

  /** Invoking a lambda with a settled body, inline or quoted, on arbitrary arguments: they go in as they
      are, or the invocation is refused. */
  lemma InvokeReplaces(S: Store, k: nat, A: set<ParamId>, sub: Subst, t: Expr, args: seq<Expr>)
    requires HasLambda(t) && Settled(S, A, LambdaOf(t).body)
    ensures var L := LambdaOf(t);
      Expand(S, k, sub, Invoke(t, args)) ==
        if Addable(sub.Keys, L.params, args) then Ok(Replace(sub + Given(L.params, args), L.body)) else InvokedRecursively
  {
    var L := LambdaOf(t);
    InvokeEnters(S, k, sub, t, args);
    if Addable(sub.Keys, L.params, args) {
      SettledIsReplaced(S, k, A, sub + Given(L.params, args), L.body);
    }
  }

  /** The same through a captured field, if the tree does not use parameters that are keys already. */
  lemma InvokeCapturedReplaces(S: Store, k: nat, A: set<ParamId>, sub: Subst, f: Field, args: seq<Expr>)
    requires k > 0 && HoldsTree(S, f) && S[f].tree.Lambda? && Settled(S, A, S[f].tree.body) && Looked(S[f].tree) !! sub.Keys
    ensures var L := S[f].tree;
      Expand(S, k, sub, Invoke(Captured(f), args)) ==
        if Addable(sub.Keys, L.params, args) then Ok(Replace(sub + Given(L.params, args), L.body)) else InvokedRecursively
  {
    var L := S[f].tree;
    SettledIsReplaced(S, k - 1, A, sub, L.body);
    ReplaceNothing(sub, S, A, L.body);
    InvokeReplaces(S, k - 1, A, sub, L, args);
  }

  /** Invoking a captured tree is invoking what it expands to, and a captured tree expands as it would inline. */
  lemma CapturedIsInline(S: Store, k: nat, sub: Subst, f: Field, args: seq<Expr>)
    requires k > 0 && HoldsTree(S, f)
    ensures var L := Expand(S, k - 1, sub, S[f].tree);
      if L.Ok? && HasLambda(L.value) then Expand(S, k, sub, Invoke(Captured(f), args)) == Expand(S, k - 1, sub, Invoke(L.value, args))
      else !Expand(S, k, sub, Invoke(Captured(f), args)).Ok?
    ensures Expand(S, k, sub, Captured(f)) == Expand(S, k - 1, sub, S[f].tree)
  {
  }

  /** Anything but a lambda, inline, quoted or captured, fails the cast. */
  lemma InvokeNeedsALambda(S: Store, k: nat, sub: Subst, t: Expr, args: seq<Expr>)
    requires !HasLambda(t) && !(t.Captured? && HoldsTree(S, t.field))
    ensures Expand(S, k, sub, Invoke(t, args)) == NotALambda
  {
  }

  // ---------------------------------------------------------------- nested invocations

  /** No captured tree is visited, and every visited invocation has a lambda and enough arguments.  Arguments
      themselves, which are not visited, may be anything. */
  predicate Inline(S: Store, e: Expr) {
    match e
    case Constant(_) => true
    case Quoted(_) => true
    case Parameter(_) => true
    case Node(_, cs) => forall i :: 0 <= i < |cs| ==> Inline(S, cs[i])
    case Lambda(_, b) => Inline(S, b)
    case Captured(f) => !HoldsTree(S, f)
    case Compile(s) => Inline(S, s)
    case AsExpandable(_) => true
    case Invoke(t, args) =>
      if t.Lambda? then |t.params| <= |args| && Inline(S, t.body)
      else HasLambda(t) && |t.tree.params| <= |args| && Inline(S, t.tree.body)
  }

  /** Every visited invocation's parameters with their arguments, all in one dictionary. */
  function Pairs(S: Store, e: Expr): Subst
    requires Inline(S, e)
    decreases e, 1
  {
    match e
    case Node(_, cs) => PairsOfAll(S, cs)
    case Lambda(_, b) => Pairs(S, b)
    case Compile(s) => Pairs(S, s)
    case Invoke(t, args) =>
      if t.Lambda? then Given(t.params, args) + Pairs(S, t.body) else Given(t.tree.params, args) + Pairs(S, t.tree.body)
    case _ => map[]
  }

  function PairsOfAll(S: Store, es: seq<Expr>): Subst
    requires forall i :: 0 <= i < |es| ==> Inline(S, es[i])
    decreases es, 0
  {
    if es == [] then map[] else Pairs(S, es[0]) + PairsOfAll(S, es[1..])
  }

  /** Invoked parameters are new where they are bound, and are bound and looked up in one child only. */
  predicate Separate(S: Store, K: set<ParamId>, e: Expr)
    requires Inline(S, e)
    decreases e
  {
    match e
    case Node(_, cs) =>
      && (forall i :: 0 <= i < |cs| ==> Separate(S, K, cs[i]))
      && (forall i, j :: 0 <= i < |cs| && 0 <= j < |cs| && i != j ==>
            (Looked(cs[i]) + Pairs(S, cs[i]).Keys) !! Pairs(S, cs[j]).Keys)
    case Lambda(_, b) => Separate(S, K, b)
    case Compile(s) => Separate(S, K, s)
    case Invoke(t, args) =>
      if t.Lambda? then Addable(K, t.params, args) && Separate(S, K + Elements(t.params), t.body)
      else Addable(K, t.tree.params, args) && Separate(S, K + Elements(t.tree.params), t.tree.body)
    case _ => true
  }

  /** The entries of the i-th child are entries of the whole, and no other entry concerns that child. */
  lemma {:induction false} PairsOfChild(S: Store, es: seq<Expr>, i: nat)
    requires i < |es| && forall j :: 0 <= j < |es| ==> Inline(S, es[j])
    requires forall j, l :: 0 <= j < |es| && 0 <= l < |es| && j != l ==> (Looked(es[j]) + Pairs(S, es[j]).Keys) !! Pairs(S, es[l]).Keys
    ensures forall p :: p in Pairs(S, es[i]) ==> p in PairsOfAll(S, es) && PairsOfAll(S, es)[p] == Pairs(S, es[i])[p]
    ensures forall p :: p in Looked(es[i]) && p in PairsOfAll(S, es) ==> p in Pairs(S, es[i])
  {
    var rest := es[1..];
    forall j, l | 0 <= j < |rest| && 0 <= l < |rest| && j != l
      ensures (Looked(rest[j]) + Pairs(S, rest[j]).Keys) !! Pairs(S, rest[l]).Keys
    {
      assert rest[j] == es[j + 1] && rest[l] == es[l + 1];
    }
    if i == 0 {
      forall p | p in PairsOfAll(S, rest) ensures p !in Looked(es[0]) + Pairs(S, es[0]).Keys {
        var j := KeyOfChild(S, rest, p);
        assert rest[j] == es[j + 1];
      }
    } else {
      PairsOfChild(S, rest, i - 1);
      assert rest[i - 1] == es[i];
    }
  }

  lemma {:induction false} KeyOfChild(S: Store, es: seq<Expr>, p: ParamId) returns (i: nat)
    requires (forall j :: 0 <= j < |es| ==> Inline(S, es[j])) && p in PairsOfAll(S, es)
    ensures i < |es| && p in Pairs(S, es[i])
  {
    if p in PairsOfAll(S, es[1..]) {
      var j := KeyOfChild(S, es[1..], p);
      i := j + 1;
    } else {
      i := 0;
    }
  }

  lemma ChildrenAreReplaced(S: Store, k: nat, sub: Subst, e: Expr)
    requires e.Node? && Inline(S, e) && Separate(S, sub.Keys, e)
    requires forall i :: 0 <= i < |e.children| ==>
      Expand(S, k, sub, e.children[i]) == Ok(Replace(sub + Pairs(S, e.children[i]), e.children[i]))
    ensures Expand(S, k, sub, e) == Ok(Replace(sub + Pairs(S, e), e))
  {
    var cs, D := e.children, sub + Pairs(S, e);
    forall i | 0 <= i < |cs| ensures Expand(S, k, sub, cs[i]) == Ok(Replace(D, cs[i])) {
      PairsOfChild(S, cs, i);
      ReplaceDepends(sub + Pairs(S, cs[i]), D, cs[i]);
    }
    ExpandAllPointwise(S, k, sub, cs);
    assert ExpandAll(S, k, sub, cs).value == Replace(D, e).children;
  }

  /** Invocations nested in any way, with parameters of their own and arbitrary arguments: expansion strips them
      and replaces all their parameters at once, each by its argument as it was written. */
  lemma {:induction false} InlineIsReplaced(S: Store, k: nat, sub: Subst, e: Expr)
    requires Inline(S, e) && Separate(S, sub.Keys, e)
    ensures Expand(S, k, sub, e) == Ok(Replace(sub + Pairs(S, e), e))
    decreases e
  {
    match e
    case Node(_, cs) =>
      forall i | 0 <= i < |cs| ensures Expand(S, k, sub, cs[i]) == Ok(Replace(sub + Pairs(S, cs[i]), cs[i])) {
        InlineIsReplaced(S, k, sub, cs[i]);
      }
      ChildrenAreReplaced(S, k, sub, e);
    case Lambda(_, b) => InlineIsReplaced(S, k, sub, b);
    case Compile(s) => InlineIsReplaced(S, k, sub, s);
    case Invoke(t, args) =>
      BindIsGiven(sub, LambdaOf(t).params, args);
      InlineIsReplaced(S, k, sub + Given(LambdaOf(t).params, args), LambdaOf(t).body);
      EnteredIsReplaced(S, k, sub, e);
    case _ => assert sub + Pairs(S, e) == sub;
  }

  lemma EnteredIsReplaced(S: Store, k: nat, sub: Subst, e: Expr)
    requires e.Invoke? && Inline(S, e) && Separate(S, sub.Keys, e)
    requires var L := LambdaOf(e.target);
      var m := sub + Given(L.params, e.args);
      Expand(S, k, m, L.body) == Ok(Replace(m + Pairs(S, L.body), L.body))
    ensures Expand(S, k, sub, e) == Ok(Replace(sub + Pairs(S, e), e))
  {
    var L := LambdaOf(e.target);
    InvokeEnters(S, k, sub, e.target, e.args);
    assert (sub + Given(L.params, e.args)) + Pairs(S, L.body) == sub + (Given(L.params, e.args) + Pairs(S, L.body));
  }

  // ---------------------------------------------------------------- what is left

  /** Every invocation anywhere in an expression. */
  function Invocations(e: Expr): set<Expr> {
    match e
    case Constant(_) => {}
    case Quoted(q) => if q.Lambda? then Invocations(q.body) else {}
    case Parameter(_) => {}
    case Node(_, cs) => set i, x | 0 <= i < |cs| && x in Invocations(cs[i]) :: x
    case Lambda(_, b) => Invocations(b)
    case Captured(_) => {}
    case Compile(s) => Invocations(s)
    case AsExpandable(s) => Invocations(s)
    case Invoke(t, args) =>
      {e} + Invocations(t) + set i, x | 0 <= i < |args| && x in Invocations(args[i]) :: x
  }

  /** The invocations in places that are not visited: arguments, constants, and what is stripped. */
  function Passed(e: Expr): set<Expr> {
    match e
    case Constant(_) => {}
    case Quoted(q) => if q.Lambda? then Invocations(q.body) else {}
    case Parameter(_) => {}
    case Node(_, cs) => set i, x | 0 <= i < |cs| && x in Passed(cs[i]) :: x
    case Lambda(_, b) => Passed(b)
    case Captured(_) => {}
    case Compile(s) => Passed(s)
    case AsExpandable(s) => Invocations(s)
    case Invoke(t, args) =>
      (if t.Quoted? && t.tree.Lambda? then Passed(t.tree.body) else Passed(t))
      + set i, x | 0 <= i < |args| && x in Invocations(args[i]) :: x
  }

  lemma {:induction false} PassedOccur(e: Expr)
    ensures Passed(e) <= Invocations(e)
  {
    match e
    case Node(_, cs) => forall i | 0 <= i < |cs| ensures Passed(cs[i]) <= Invocations(cs[i]) { PassedOccur(cs[i]); }
    case Lambda(_, b) => PassedOccur(b);
    case Compile(s) => PassedOccur(s);
    case Invoke(t, _) => if t.Quoted? && t.tree.Lambda? { PassedOccur(t.tree.body); } else { PassedOccur(t); }
    case _ =>
  }

  /** `W` has what the dictionary's values and the captured trees could bring in. */
  ghost predicate Brings(S: Store, W: set<Expr>, sub: Subst) {
    && (forall p :: p in sub ==> Invocations(sub[p]) <= W)
    && (forall f :: HoldsTree(S, f) ==> Passed(S[f].tree) <= W)
  }

  lemma BringsAfterBind(S: Store, W: set<Expr>, sub: Subst, ps: seq<ParamId>, args: seq<Expr>)
    requires Brings(S, W, sub) && Bind(sub, ps, args).Ok?
    requires forall i :: 0 <= i < |args| ==> Invocations(args[i]) <= W
    ensures Brings(S, W, Bind(sub, ps, args).value)
  {
    BindMeaning(sub, ps, args);
    var m := Bind(sub, ps, args).value;
    forall p | p in m ensures Invocations(m[p]) <= W {
      if p !in sub {
        var i :| 0 <= i < |ps| && ps[i] == p;
      }
    }
  }

  /** Every invocation left in an expansion comes from a place that is not visited, in the expression or in a
      captured tree, or from a dictionary value: one that is visited is gone. */
  lemma {:induction false} InvocationsLeft(S: Store, k: nat, W: set<Expr>, sub: Subst, e: Expr)
    requires Brings(S, W, sub) && Passed(e) <= W && Expand(S, k, sub, e).Ok?
    ensures Invocations(Expand(S, k, sub, e).value) <= W
    decreases k, e, 0
  {
    var out := Expand(S, k, sub, e).value;
    match e
    case Node(_, cs) =>
      ExpandAllPointwise(S, k, sub, cs);
      forall i | 0 <= i < |cs| ensures Invocations(out.children[i]) <= W {
        assert Passed(cs[i]) <= Passed(e);
        InvocationsLeft(S, k, W, sub, cs[i]);
      }
    case Lambda(_, b) => InvocationsLeft(S, k, W, sub, b);
    case Captured(f) => if HoldsTree(S, f) { InvocationsLeft(S, k - 1, W, sub, S[f].tree); }
    case Compile(s) => if !(s.Captured? && !HoldsTree(S, s.field)) { InvocationsLeft(S, k, W, sub, s); }
    case Invoke(t, args) =>
      forall i | 0 <= i < |args| ensures Invocations(args[i]) <= W {
        assert Invocations(args[i]) <= Passed(e);
      }
      if t.Captured? && HoldsTree(S, t.field) {
        InvocationsLeft(S, k - 1, W, sub, S[t.field].tree);
        var L := LambdaOf(Expand(S, k - 1, sub, S[t.field].tree).value);
        BringsAfterBind(S, W, sub, L.params, args);
        PassedOccur(L.body);
        InvocationsLeft(S, k - 1, W, Bind(sub, L.params, args).value, L.body);
      } else {
        var L := LambdaOf(t);
        BringsAfterBind(S, W, sub, L.params, args);
        InvocationsLeft(S, k, W, Bind(sub, L.params, args).value, L.body);
      }
    case _ =>
  }
}
