/** Where the expander does not terminate or does not succeed, and why the conditions are needed. */
module ExpanderLimits {
  import opened Trees
  import opened Expander
  import opened ExpanderTheorems
  import opened ExpanderTermination

  /** Some captured field in `C` occurs in `e` at a position that every successful visit reaches:
      anywhere but inside the arguments of an invocation. */
  predicate Reaches(C: set<Field>, e: Expr) {
    match e
    case Constant(_) => false
    case Quoted(_) => false
    case Parameter(_) => false
    case Node(_, cs) => exists i :: 0 <= i < |cs| && Reaches(C, cs[i])
    case Lambda(_, b) => Reaches(C, b)
    case Captured(f) => f in C
    case Compile(s) => Reaches(C, s)
    case AsExpandable(_) => false
    case Invoke(t, _) =>
      match t {
        case Captured(f) => f in C
        case Lambda(_, b) => Reaches(C, b)
        case Quoted(q) => q.Lambda? && Reaches(C, q.body)
        case _ => false
      }
  }

  /** Every field in `C` holds a tree that leads back into `C`. */
  predicate LeadsBack(S: Store, C: set<Field>) {
    forall f :: f in C ==> HoldsTree(S, f) && Reaches(C, S[f].tree)
  }

  /** No expression that reaches a cycle of captured trees ever expands to a tree, at any depth. */
  lemma {:induction false} CyclesNeverExpand(S: Store, C: set<Field>, k: nat, sub: Subst, e: Expr)
    requires LeadsBack(S, C) && Reaches(C, e)
    ensures !Expand(S, k, sub, e).Ok?
    decreases k, e
  {
    match e
    case Node(_, cs) =>
      var i :| 0 <= i < |cs| && Reaches(C, cs[i]);
      CyclesNeverExpand(S, C, k, sub, cs[i]);
      ExpandAllPointwise(S, k, sub, cs);
    case Lambda(_, b) => CyclesNeverExpand(S, C, k, sub, b);
    case Captured(f) => if k > 0 { CyclesNeverExpand(S, C, k - 1, sub, S[f].tree); }
    case Compile(s) => CyclesNeverExpand(S, C, k, sub, s);
    case Invoke(t, args) =>
      if t.Captured? {
        if k > 0 { CyclesNeverExpand(S, C, k - 1, sub, S[t.field].tree); }
      } else {
        var L := if t.Quoted? then t.tree else t;
        if Bind(sub, L.params, args).Ok? {
          CyclesNeverExpand(S, C, k, Bind(sub, L.params, args).value, L.body);
        }
      }
  }

  /** Visiting `e` gets to a captured field in `C` before anything that could throw: only settled children
      come before it, and no inline lambda with parameters is entered on the way. */
  predicate LeadsInto(S: Store, C: set<Field>, e: Expr) {
    match e
    case Constant(_) => false
    case Quoted(_) => false
    case Parameter(_) => false
    case Node(_, cs) => exists i :: 0 <= i < |cs| && LeadsInto(S, C, cs[i]) && AllSettled(S, {}, cs[..i])
    case Lambda(_, b) => LeadsInto(S, C, b)
    case Captured(f) => f in C
    case Compile(s) => LeadsInto(S, C, s)
    case AsExpandable(_) => false
    case Invoke(t, _) =>
      match t {
        case Captured(f) => f in C
        case Lambda(ps, b) => ps == [] && LeadsInto(S, C, b)
        case _ => false
      }
  }

  /** A visit that leads into a cycle of captured trees, each of which leads into it again, never returns,
      at any depth and with any dictionary: a lambda that invokes itself through its closure is not
      reported as recursive. */
  lemma {:induction false} CyclesNeverReturn(S: Store, C: set<Field>, k: nat, sub: Subst, e: Expr)
    requires (forall f :: f in C ==> HoldsTree(S, f) && LeadsInto(S, C, S[f].tree)) && LeadsInto(S, C, e)
    ensures Expand(S, k, sub, e) == OutOfFuel
    decreases k, e
  {
    match e
    case Node(_, cs) =>
      var i :| 0 <= i < |cs| && LeadsInto(S, C, cs[i]) && AllSettled(S, {}, cs[..i]);
      CyclesNeverReturn(S, C, k, sub, cs[i]);
      StuckAtChild(S, k, sub, cs, i);
    case Lambda(_, b) => CyclesNeverReturn(S, C, k, sub, b);
    case Captured(f) => if k > 0 { CyclesNeverReturn(S, C, k - 1, sub, S[f].tree); }
    case Compile(s) => CyclesNeverReturn(S, C, k, sub, s);
    case Invoke(t, args) =>
      if t.Captured? {
        if k > 0 { CyclesNeverReturn(S, C, k - 1, sub, S[t.field].tree); }
      } else {
        CyclesNeverReturn(S, C, k, sub, t.body);
      }
  }

  lemma {:induction false} StuckAtChild(S: Store, k: nat, sub: Subst, es: seq<Expr>, i: nat)
    requires i < |es| && AllSettled(S, {}, es[..i]) && Expand(S, k, sub, es[i]) == OutOfFuel
    ensures ExpandAll(S, k, sub, es) == OutOfFuel
  {
    if i > 0 {
      assert es[..i][0] == es[0];
      SettledExpands(S, k, {}, sub, es[0]);
      assert es[1..][..i - 1] == es[..i][1..];
      StuckAtChild(S, k, sub, es[1..], i - 1);
    }
  }

  /** The recursive lambda `n => n == 0 ? 1 : n * f.Invoke(n - 1)`, captured as `f` in its own closure. */
  const FACTORIAL: Expr :=
    Lambda([0], Node(Condition, [
      Node(Strict(0), [Parameter(0), Constant(Other(0))]),
      Constant(Other(1)),
      Node(Strict(1), [Parameter(0), Invoke(Captured(0), [Node(Strict(2), [Parameter(0), Constant(Other(1))])])])]))

  lemma RecursionNeverReturns(k: nat, sub: Subst, args: seq<Expr>)
    ensures Expand(map[0 := Tree(FACTORIAL)], k, sub, Invoke(Captured(0), args)) == OutOfFuel
  {
    var S: Store := map[0 := Tree(FACTORIAL)];
    var product := FACTORIAL.body.children[2];
    assert LeadsInto(S, {0}, product.children[1]);
    assert LeadsInto(S, {0}, product);
    assert AllSettled(S, {}, FACTORIAL.body.children[..2]);
    assert LeadsInto(S, {0}, FACTORIAL.body);
    CyclesNeverReturn(S, {0}, k, sub, Invoke(Captured(0), args));
  }

  /** The captured lambda `() => g(x => x)`: closed, and with no captured field in it. */
  const THUNK: Expr := Lambda([], Node(Strict(0), [Lambda([1], Parameter(1))]))
  const THUNK_CALL: Expr := Invoke(Captured(0), [])

  /** A surviving lambda of the captured tree binds a parameter that is a dictionary key; the bound
      occurrence is replaced too, by a dictionary value that calls the same tree, and the second visit
      starts over. */
  lemma {:induction false} ThunkStartsOver(k: nat)
    ensures var S: Store := map[0 := Tree(THUNK)];
      Expand(S, k, map[1 := THUNK_CALL], THUNK_CALL) == OutOfFuel
  {
    var S: Store := map[0 := Tree(THUNK)];
    var sub: Subst := map[1 := THUNK_CALL];
    if k > 0 {
      ThunkStartsOver(k - 1);
      var bound := Lambda([1], Parameter(1));
      var replaced := Lambda([1], THUNK_CALL);
      assert Expand(S, k - 1, sub, Parameter(1)) == Ok(THUNK_CALL);
      assert Expand(S, k - 1, sub, bound) == Ok(replaced);
      ExpandSingleton(S, k - 1, sub, bound);
      ExpandSingleton(S, k - 1, sub, replaced);
      var body := Node(Strict(0), [replaced]);
      assert Expand(S, k - 1, sub, THUNK) == Ok(Lambda([], body));
      assert Expand(S, k - 1, sub, replaced) == OutOfFuel;
      assert Expand(S, k - 1, sub, body) == OutOfFuel;
      assert Bind(sub, [], []) == Ok(sub);
      assert Enter(S, k - 1, sub, Lambda([], body), []) == OutOfFuel;
    }
  }

  /** Acyclic and closed captured trees do not make expansion terminate: `(x => thunk.Invoke())(thunk.Invoke())`,
      where `thunk` uses the same parameter object `x`, never returns.  The one condition it breaks is that
      an invoked lambda shares no parameter with the captured trees its body refers to. */
  lemma AcyclicIsNotEnough(k: nat)
    ensures var S: Store := map[0 := Tree(THUNK)];
      && FreeParams(THUNK) == {} && Fields(S, THUNK) == {}
      && Expand(S, k, map[], Invoke(Lambda([1], THUNK_CALL), [THUNK_CALL])) == OutOfFuel
  {
    var S: Store := map[0 := Tree(THUNK)];
    var none: Subst := map[];
    var inner: Subst := map[1 := THUNK_CALL];
    assert [1][1..] == [] && [THUNK_CALL][1..] == [] && none[1 := THUNK_CALL] == inner;
    assert Bind(none, [1], [THUNK_CALL]) == Ok(inner);
    ThunkStartsOver(k);
    assert Fields(S, THUNK.body.children[0]) == {};
    assert Fields(S, THUNK.body) == {};
  }

  lemma ExpandSingleton(S: Store, k: nat, sub: Subst, e: Expr)
    ensures Expand(S, k, sub, e).Ok? ==> ExpandAll(S, k, sub, [e]) == Ok([Expand(S, k, sub, e).value])
    ensures Expand(S, k, sub, e) == OutOfFuel ==> ExpandAll(S, k, sub, [e]) == OutOfFuel
  {
    assert ExpandAll(S, k, sub, [e][1..]) == Ok([]);
    if Expand(S, k, sub, e).Ok? { assert [Expand(S, k, sub, e).value] + [] == [Expand(S, k, sub, e).value]; }
  }

  /** `f.Compile()(x)` is not expanded, although `f.Compile()` on its own is: the target of the
      invocation is a method call, and the cast to a lambda fails. */
  lemma InvokingACompiledTreeFails(S: Store, k: nat, sub: Subst, s: Expr, args: seq<Expr>)
    ensures Expand(S, k, sub, Invoke(Compile(s), args)) == NotALambda
    ensures s.Captured? && HoldsTree(S, s.field) ==> Expand(S, k, sub, Compile(s)) == Expand(S, k, sub, s)
  {
  }
}
