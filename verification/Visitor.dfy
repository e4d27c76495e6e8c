/** The copy-on-write list loop of the generic visitor. */
module Visitor {
  import opened Wrappers
  import opened Trees
  import opened Expander
  import opened ExpanderTheorems

  /** The elementwise visit of a list, stopping at the first failure. */
  function VisitAll<T>(visit: T -> Outcome<T>, items: seq<T>): Outcome<seq<T>> {
    if items == [] then Ok([])
    else
      var head :- visit(items[0]);
      var tail :- VisitAll(visit, items[1..]);
      Ok([head] + tail)
  }

  lemma {:induction false} VisitAllSnoc<T>(visit: T -> Outcome<T>, items: seq<T>, x: T)
    ensures VisitAll(visit, items).Ok? && visit(x).Ok? ==>
      VisitAll(visit, items + [x]) == Ok(VisitAll(visit, items).value + [visit(x).value])
    ensures VisitAll(visit, items).Ok? && !visit(x).Ok? ==> VisitAll(visit, items + [x]) == visit(x).PropagateFailure()
    ensures !VisitAll(visit, items).Ok? ==> VisitAll(visit, items + [x]) == VisitAll(visit, items)
  {
    if items == [] {
      assert [x][1..] == [];
      assert items + [x] == [x];
      if visit(x).Ok? { assert [visit(x).value] + [] == [] + [visit(x).value]; }
    } else {
      assert (items + [x])[1..] == items[1..] + [x];
      VisitAllSnoc(visit, items[1..], x);
      if VisitAll(visit, items).Ok? && visit(x).Ok? {
        var head, tail := visit(items[0]).value, VisitAll(visit, items[1..]).value;
        assert [head] + (tail + [visit(x).value]) == ([head] + tail) + [visit(x).value];
      }
    }
  }

  lemma {:induction false} FailureIsFinal<T>(visit: T -> Outcome<T>, items: seq<T>, more: seq<T>)
    requires !VisitAll(visit, items).Ok?
    ensures VisitAll(visit, items + more) == VisitAll(visit, items)
    decreases |more|
  {
    if more == [] {
      assert items + more == items;
    } else {
      VisitAllSnoc(visit, items, more[0]);
      assert items + more == (items + [more[0]]) + more[1..];
      FailureIsFinal(visit, items + [more[0]], more[1..]);
    }
  }

  predicate Changes<T(==)>(visit: T -> Outcome<T>, x: T) {
    visit(x) != Ok(x)
  }

  /** The visit of one element more, or the end of the whole visit at that element. */
  lemma VisitNext<T>(visit: T -> Outcome<T>, items: seq<T>, i: nat)
    requires i < |items| && VisitAll(visit, items[..i]).Ok?
    ensures visit(items[i]).Ok? ==> VisitAll(visit, items[..i + 1]) == Ok(VisitAll(visit, items[..i]).value + [visit(items[i]).value])
    ensures !visit(items[i]).Ok? ==> VisitAll(visit, items) == visit(items[i]).PropagateFailure()
  {
    assert items[..i + 1] == items[..i] + [items[i]];
    VisitAllSnoc(visit, items[..i], items[i]);
    if !visit(items[i]).Ok? {
      assert items == items[..i + 1] + items[i + 1..];
      FailureIsFinal(visit, items[..i + 1], items[i + 1..]);
    }
  }

  /** The copy of what came before the first changed element. */
  method CopyPrefix<T>(original: seq<T>, n: nat) returns (prefix: seq<T>)
    requires n <= |original|
    ensures prefix == original[..n]
  {
    prefix := [];
    var j := 0;
    while j < n
      invariant j <= n && prefix == original[..j]
    {
      prefix := prefix + [original[j]];
      j := j + 1;
    }
  }

  /** A new list is allocated only once an element changes; up to then the original stands for it.
      The comparison of elements is the one of `T`, which is object identity where `T` is a class. */
  method VisitList<T(==)>(original: seq<T>, visit: T -> Outcome<T>) returns (r: Outcome<seq<T>>, copied: bool)
    ensures r == VisitAll(visit, original)
    ensures r.Ok? ==> (copied <==> exists i :: 0 <= i < |original| && Changes(visit, original[i]))
    ensures r.Ok? && !copied ==> r.value == original
  {
    var list: Option<seq<T>> := None;
    var i := 0;
    while i < |original|
      invariant i <= |original|
      invariant VisitAll(visit, original[..i]) == Ok(if list.Some? then list.value else original[..i])
      invariant list.Some? <==> exists j :: 0 <= j < i && Changes(visit, original[j])
    {
      VisitNext(visit, original, i);
      assert original[..i + 1] == original[..i] + [original[i]];
      var p := visit(original[i]);
      if !p.Ok? {
        return p.PropagateFailure(), list.Some?;
      }
      if list.Some? {
        list := Some(list.value + [p.value]);
      } else if p.value != original[i] {
        assert Changes(visit, original[i]);
        var prefix := CopyPrefix(original, i);
        list := Some(prefix + [p.value]);
      }
      i := i + 1;
    }
    assert original[..i] == original;
    r, copied := Ok(if list.Some? then list.value else original), list.Some?;
  }

  lemma {:induction false} VisitAllExpands(S: Store, k: nat, sub: Subst, es: seq<Expr>)
    ensures VisitAll((e: Expr) => Expand(S, k, sub, e), es) == ExpandAll(S, k, sub, es)
  {
    if es != [] {
      VisitAllExpands(S, k, sub, es[1..]);
    }
  }

  /** The list loop with the expander as the visitor: it computes what the expander's elementwise
      visit specifies, and hands back the original list exactly when every element came back as it was. */
  method VisitExpressionList(S: Store, k: nat, sub: Subst, original: seq<Expr>)
    returns (r: Outcome<seq<Expr>>, copied: bool)
    ensures r == ExpandAll(S, k, sub, original)
    ensures r.Ok? ==> (copied <==> r.value != original)
  {
    VisitAllExpands(S, k, sub, original);
    ExpandAllPointwise(S, k, sub, original);
    var visit := (e: Expr) => Expand(S, k, sub, e);
    r, copied := VisitList(original, visit);
    if r.Ok? && copied {
      var i :| 0 <= i < |original| && Changes(visit, original[i]);
      assert r.value[i] != original[i];
    }
  }

  // ---------------------------------------------------------------- identity of nodes

  /** The visit hands back the very node it was given.  A node is rebuilt as soon as the visit of one child
      gives another object; parameters are objects, so equal ones are the same one. */
  predicate ReturnsItself(S: Store, sub: Subst, e: Expr) {
    match e
    case Constant(_) => true
    case Quoted(_) => true
    case Parameter(p) => p in sub ==> sub[p] == e
    case Node(_, cs) => forall i :: 0 <= i < |cs| ==> ReturnsItself(S, sub, cs[i])
    case Lambda(_, b) => ReturnsItself(S, sub, b)
    case Captured(f) => !HoldsTree(S, f)
    case Compile(s) => ReturnsItself(S, sub, s)
    case AsExpandable(_) => false
    case Invoke(_, _) => false
  }

  /** A visit that hands back its node succeeds, and the list visits on the way copy nothing. */
  lemma {:induction false} ItselfIsUnchanged(S: Store, k: nat, sub: Subst, e: Expr)
    requires ReturnsItself(S, sub, e)
    ensures Expand(S, k, sub, e) == Ok(e)
  {
    match e
    case Node(_, cs) =>
      ExpandAllPointwise(S, k, sub, cs);
      forall i | 0 <= i < |cs| ensures Expand(S, k, sub, cs[i]) == Ok(cs[i]) {
        ItselfIsUnchanged(S, k, sub, cs[i]);
      }
      assert ExpandAll(S, k, sub, cs).value == cs;
    case Lambda(_, b) => ItselfIsUnchanged(S, k, sub, b);
    case Compile(s) => ItselfIsUnchanged(S, k, sub, s);
    case _ =>
  }

  /** A tree with nothing to rewrite, none of whose parameters is a key, comes back as the same object. */
  lemma {:induction false} SettledReturnsItself(S: Store, sub: Subst, e: Expr)
    requires Settled(S, sub.Keys, e) && FreeParams(e) !! sub.Keys
    ensures ReturnsItself(S, sub, e)
  {
    match e
    case Node(_, cs) =>
      forall i | 0 <= i < |cs| ensures ReturnsItself(S, sub, cs[i]) {
        forall p | p in FreeParams(cs[i]) ensures p !in sub.Keys { assert p in FreeParams(e); }
        SettledReturnsItself(S, sub, cs[i]);
      }
    case Lambda(ps, b) =>
      forall p | p in FreeParams(b) ensures p !in sub.Keys {
        if p !in ps { assert p in FreeParams(e); }
      }
      SettledReturnsItself(S, sub, b);
    case Compile(s) => SettledReturnsItself(S, sub, s);
    case _ =>
  }
}
