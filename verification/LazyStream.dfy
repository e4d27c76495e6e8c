/** `LazyConstructableStream` beside the stream it stands for. The operations that it only forwards
    (reads, writes, length changes, capability queries) are an arbitrary function of the stream's
    content and position, so what is proved holds for every kind of stream. */
module LazyStream {
  import opened Wrappers

  datatype Origin = Begin | Current | End | Other

  datatype Op<F> =
    | GetPosition
    | SetPosition(position: int)
    | Seek(offset: int, origin: Origin, hint: Option<int>)
    | GetLength(hint: Option<int>)     // what the size getter, if any, would answer at this call
    | Flush
    | Forwarded(request: F)

  datatype Reply<R> = Number(n: int) | Done | Threw | Answer(r: R)

  /** A kind of stream: the length of a content, and what a forwarded request does. */
  datatype Kind<!C, !F, !R> = Kind(length: C -> nat, forward: (C, nat, F) -> (C, nat, R))

  // ---------------------------------------------------------------- the eager stream

  /** A stream that is open: its content and its position, which is never negative. */
  datatype Eager<C> = Eager(content: C, position: nat)

  function Target(e: Eager, length: nat, offset: int, origin: Origin): int {
    match origin
    case Begin => offset
    case Current => e.position + offset
    case End => length + offset
    case Other => -1
  }

  function EagerStep<C, F, R>(k: Kind<C, F, R>, e: Eager<C>, op: Op<F>): (Eager<C>, Reply<R>) {
    match op
    case GetPosition => (e, Number(e.position))
    case SetPosition(p) => if p < 0 then (e, Threw) else (e.(position := p), Done)
    case Seek(offset, origin, _) =>
      var p := Target(e, k.length(e.content), offset, origin);
      if p < 0 then (e, Threw) else (e.(position := p), Number(p))
    case GetLength(_) => (e, Number(k.length(e.content)))
    case Flush => (e, Done)
    case Forwarded(f) =>
      var (c, p, r) := k.forward(e.content, e.position, f);
      (Eager(c, p), Answer(r))
  }

  // ---------------------------------------------------------------- the lazy stream

  /** The lazy cell: not created, created, or its creation threw; the exception is then kept. */
  datatype Cell<C> = Pending | Created(stream: Eager<C>) | Faulted

  datatype Lazy<C> = Lazy(virtualPosition: int, cell: Cell<C>, factoryRuns: nat)

  const FRESH_POSITION := 0

  function Fresh<C>(): Lazy<C> {
    Lazy(FRESH_POSITION, Pending, 0)
  }

  /** Asks the cell for its value: runs the factory and sets the position, if that was not yet tried. */
  function Force<C>(initial: C, s: Lazy<C>): Lazy<C> {
    if !s.cell.Pending? then s
    else s.(cell := if s.virtualPosition < 0 then Faulted else Created(Eager(initial, s.virtualPosition)),
            factoryRuns := s.factoryRuns + 1)
  }

  function LazyLength<C, F, R>(k: Kind<C, F, R>, initial: C, s: Lazy<C>, hint: Option<int>): (Lazy<C>, Option<int>) {
    if !s.cell.Created? && hint.Some? then (s, hint)
    else
      var s' := Force(initial, s);
      if s'.cell.Created? then (s', Some(k.length(s'.cell.stream.content))) else (s', None)
  }

  /** The end of a virtual seek: the new position is remembered, and set if the stream is there by now. */
  function MoveTo<C, R>(s: Lazy<C>, p: int): (Lazy<C>, Reply<R>) {
    var s' := s.(virtualPosition := p);
    if !s.cell.Created? then (s', Number(p))
    else if p < 0 then (s', Threw)
    else (s'.(cell := Created(s.cell.stream.(position := p))), Number(p))
  }

  function LazyStep<C, F, R>(k: Kind<C, F, R>, initial: C, s: Lazy<C>, op: Op<F>): (Lazy<C>, Reply<R>) {
    if s.cell.Created? then
      var (e, r) := EagerStep(k, s.cell.stream, op);
      (s.(cell := Created(e)), r)
    else
      match op
      case GetPosition => (s, Number(s.virtualPosition))
      case SetPosition(p) => (s.(virtualPosition := p), Done)
      case Seek(offset, Begin, _) => MoveTo(s, offset)
      case Seek(offset, Current, _) => MoveTo(s, s.virtualPosition + offset)
      case Seek(offset, End, hint) =>
        var (s', n) := LazyLength(k, initial, s, hint);
        if n.None? then (s', Threw) else MoveTo(s', n.value - offset)
      case Seek(offset, Other, _) => (s, Threw)
      case GetLength(hint) =>
        var (s', n) := LazyLength(k, initial, s, hint);
        if n.None? then (s', Threw) else (s', Number(n.value))
      case Flush => (s, Done)
      case Forwarded(_) =>
        var s' := Force(initial, s);
        if s'.cell.Faulted? then (s', Threw)
        else
          var (e, r) := EagerStep(k, s'.cell.stream, op);
          (s'.(cell := Created(e)), r)
  }

  // ---------------------------------------------------------------- runs

  function EagerRun<C, F, R>(k: Kind<C, F, R>, e: Eager<C>, ops: seq<Op<F>>): (Eager<C>, seq<Reply<R>>)
    decreases |ops|
  {
    if ops == [] then (e, [])
    else
      var (e', r) := EagerStep(k, e, ops[0]);
      var (end, rs) := EagerRun(k, e', ops[1..]);
      (end, [r] + rs)
  }

  function LazyRun<C, F, R>(k: Kind<C, F, R>, initial: C, s: Lazy<C>, ops: seq<Op<F>>): (Lazy<C>, seq<Reply<R>>)
    decreases |ops|
  {
    if ops == [] then (s, [])
    else
      var (s', r) := LazyStep(k, initial, s, ops[0]);
      var (end, rs) := LazyRun(k, initial, s', ops[1..]);
      (end, [r] + rs)
  }

  // ---------------------------------------------------------------- when the two agree

  /** What a caller has to see to before a call on a stream that is not open yet, whose length is
      `length` and whose position would be `position`. */
  predicate Benign<F>(op: Op<F>, position: nat, length: nat) {
    match op
    case SetPosition(p) => p >= 0
    case Seek(offset, Begin, _) => offset >= 0
    case Seek(offset, Current, _) => position + offset >= 0
    case Seek(offset, End, None) => offset == 0
    case Seek(offset, End, Some(h)) => h - offset == length + offset >= 0
    case GetLength(Some(h)) => h == length
    case _ => true
  }

  predicate Opens<F>(op: Op<F>) {
    match op
    case Forwarded(_) => true
    case GetLength(hint) => hint.None?
    case Seek(_, origin, hint) => origin.End? && hint.None?
    case _ => false
  }

  function PositionAfter<F>(op: Op<F>, position: nat, length: nat): nat
    requires Benign(op, position, length)
  {
    match op
    case SetPosition(p) => p
    case Seek(offset, Begin, _) => offset
    case Seek(offset, Current, _) => position + offset
    case Seek(offset, End, _) => length + offset
    case _ => position
  }

  /** Every call up to and including the one that opens the stream is benign. */
  predicate AllBenign<F>(ops: seq<Op<F>>, position: nat, length: nat) {
    ops == [] ||
    (&& Benign(ops[0], position, length)
     && (Opens(ops[0]) || AllBenign(ops[1..], PositionAfter(ops[0], position, length), length)))
  }

  /** The lazy stream stands for the eager one: open at the same place, or yet to be opened there. */
  ghost predicate StandsFor<C(!new)>(s: Lazy<C>, initial: C, e: Eager<C>) {
    match s.cell
    case Created(stream) => stream == e
    case Pending => s.virtualPosition == e.position && e.content == initial
    case Faulted => false
  }

  /** One call on an unopened stream: the replies are equal exactly when the call is benign, and then
      the streams still stand for each other. */
  lemma OneCall<C(!new), F, R>(k: Kind<C, F, R>, initial: C, s: Lazy<C>, e: Eager<C>, op: Op<F>)
    requires StandsFor(s, initial, e) && s.cell.Pending?
    ensures var (s', r) := LazyStep(k, initial, s, op);
      var (e', q) := EagerStep(k, e, op);
      && (r == q <==> Benign(op, e.position, k.length(initial)))
      && (r == q ==> StandsFor(s', initial, e') && (s'.cell.Created? <==> Opens(op)))
      && (r == q && !Opens(op) ==> e'.position == PositionAfter(op, e.position, k.length(initial)))
  {
  }

  lemma {:induction false} OnceOpen<C(!new), F, R>(k: Kind<C, F, R>, initial: C, s: Lazy<C>, ops: seq<Op<F>>)
    requires s.cell.Created?
    ensures var (s', rs) := LazyRun(k, initial, s, ops);
      var (e', qs) := EagerRun(k, s.cell.stream, ops);
      s'.cell == Created(e') && rs == qs
    decreases |ops|
  {
    if ops != [] {
      OnceOpen(k, initial, LazyStep(k, initial, s, ops[0]).0, ops[1..]);
    }
  }

  /** Over every run, the lazy stream answers as the eager one exactly when every call up to its
      opening is benign; the streams then also end up the same. */
  lemma {:induction false} AgreesExactlyWhenBenign<C(!new), F, R>(k: Kind<C, F, R>, initial: C, s: Lazy<C>, e: Eager<C>, ops: seq<Op<F>>)
    requires StandsFor(s, initial, e) && s.cell.Pending?
    ensures var (s', rs) := LazyRun(k, initial, s, ops);
      var (e', qs) := EagerRun(k, e, ops);
      && (rs == qs <==> AllBenign(ops, e.position, k.length(initial)))
      && (rs == qs ==> StandsFor(s', initial, e'))
    decreases |ops|
  {
    if ops != [] {
      OneCall(k, initial, s, e, ops[0]);
      var (s', r) := LazyStep(k, initial, s, ops[0]);
      var (e', q) := EagerStep(k, e, ops[0]);
      var rs, qs := LazyRun(k, initial, s', ops[1..]).1, EagerRun(k, e', ops[1..]).1;
      assert [r] + rs == [q] + qs <==> r == q && rs == qs by {
        assert ([r] + rs)[1..] == rs && ([q] + qs)[1..] == qs && ([r] + rs)[0] == r && ([q] + qs)[0] == q;
      }
      if r == q {
        if Opens(ops[0]) {
          OnceOpen(k, initial, s', ops[1..]);
        } else {
          AgreesExactlyWhenBenign(k, initial, s', e', ops[1..]);
        }
      }
    }
  }

  ghost predicate RanOnce<C(!new)>(s: Lazy<C>) {
    s.factoryRuns == if s.cell.Pending? then 0 else 1
  }

  /** In every run from a fresh stream the factory runs at most once, whatever the calls. */
  lemma {:induction false} FactoryRunsAtMostOnce<C(!new), F, R>(k: Kind<C, F, R>, initial: C, s: Lazy<C>, ops: seq<Op<F>>)
    requires RanOnce(s)
    ensures RanOnce(LazyRun(k, initial, s, ops).0)
    decreases |ops|
  {
    if ops != [] {
      FactoryRunsAtMostOnce(k, initial, LazyStep(k, initial, s, ops[0]).0, ops[1..]);
    }
  }

  /** Seeking back from the end through an honest size getter: the eager stream lands before the end,
      the lazy one after it. */
  lemma SeekFromEndGoesTheWrongWay<C(!new), F, R>(k: Kind<C, F, R>, initial: C, back: nat)
    requires 0 < back <= k.length(initial)
    ensures var length := k.length(initial);
      var op: Op<F> := Seek(0 - back, End, Some(length));
      && EagerRun(k, Eager(initial, 0), [op]).1 == [Number(length - back)]
      && LazyRun(k, initial, Fresh(), [op]).1 == [Number(length + back)]
  {
    var op: Op<F> := Seek(0 - back, End, Some(k.length(initial)));
    assert [op][1..] == [];
    assert LazyRun(k, initial, LazyStep(k, initial, Fresh(), op).0, []).1 == [];
    assert EagerRun(k, EagerStep(k, Eager(initial, 0), op).0, []).1 == [];
  }

  // ---------------------------------------------------------------- before the stream is open

  /** A seek from the end of a stream that is not open, for every offset and every answer of the size getter: to
      `length - offset`, where the length is the getter's answer, or that of the stream, which is opened for it.
      It throws exactly if opening fails, now or before, or if the stream is opened and the target is negative. */
  lemma SeekFromEndExactly<C(!new), F, R>(k: Kind<C, F, R>, initial: C, s: Lazy<C>, offset: int, hint: Option<int>)
    requires !s.cell.Created?
    ensures var (s', r) := LazyStep(k, initial, s, Seek(offset, End, hint));
      match hint
      case Some(h) => r == Number(h - offset) && s' == s.(virtualPosition := h - offset)
      case None =>
        var p := k.length(initial) - offset;
        if s.cell.Faulted? then r == Threw && s' == s
        else if s.virtualPosition < 0 then r == Threw && s' == Lazy(s.virtualPosition, Faulted, s.factoryRuns + 1)
        else if p < 0 then r == Threw && s' == Lazy(p, Created(Eager(initial, s.virtualPosition)), s.factoryRuns + 1)
        else r == Number(p) && s' == Lazy(p, Created(Eager(initial, p)), s.factoryRuns + 1)
  {
  }

  /** Every other call on a stream that is not open.  Positions are taken as they come, negative ones too; the size
      getter is believed; whatever needs the stream opens it once, at the virtual position, and throws for good if
      that position is negative. */
  lemma UnopenedExactly<C(!new), F, R>(k: Kind<C, F, R>, initial: C, s: Lazy<C>, op: Op<F>)
    requires !s.cell.Created? && !(op.Seek? && op.origin.End?)
    ensures var (s', r) := LazyStep(k, initial, s, op);
      var opens := (op.GetLength? && op.hint.None?) || op.Forwarded?;
      if opens && s.cell.Faulted? then r == Threw && s' == s
      else if opens && s.virtualPosition < 0 then r == Threw && s' == Lazy(s.virtualPosition, Faulted, s.factoryRuns + 1)
      else
        match op
        case GetPosition => r == Number(s.virtualPosition) && s' == s
        case SetPosition(p) => r == Done && s' == s.(virtualPosition := p)
        case Seek(offset, origin, _) =>
          if origin.Other? then r == Threw && s' == s
          else
            var p := if origin.Begin? then offset else s.virtualPosition + offset;
            r == Number(p) && s' == s.(virtualPosition := p)
        case GetLength(hint) =>
          if hint.Some? then r == Number(hint.value) && s' == s
          else r == Number(k.length(initial)) && s' == Lazy(s.virtualPosition, Created(Eager(initial, s.virtualPosition)), s.factoryRuns + 1)
        case Flush => r == Done && s' == s
        case Forwarded(f) =>
          var (c, p, answer) := k.forward(initial, s.virtualPosition, f);
          r == Answer(answer) && s' == Lazy(s.virtualPosition, Created(Eager(c, p)), s.factoryRuns + 1)
  {
  }

  /** An open stream is only passed on to; the factory does not run again. */
  lemma OpenExactly<C(!new), F, R>(k: Kind<C, F, R>, initial: C, s: Lazy<C>, op: Op<F>)
    requires s.cell.Created?
    ensures var (s', r) := LazyStep(k, initial, s, op);
      var e := s.cell.stream;
      s'.cell.Created? && s'.virtualPosition == s.virtualPosition && s'.factoryRuns == s.factoryRuns &&
      match op
      case GetPosition => r == Number(e.position) && s'.cell.stream == e
      case SetPosition(p) => if p < 0 then r == Threw && s'.cell.stream == e else r == Done && s'.cell.stream == Eager(e.content, p)
      case Seek(offset, origin, _) =>
        var p := offset + if origin.Current? then e.position else if origin.End? then k.length(e.content) else 0;
        if origin.Other? || p < 0 then r == Threw && s'.cell.stream == e else r == Number(p) && s'.cell.stream == Eager(e.content, p)
      case GetLength(_) => r == Number(k.length(e.content)) && s'.cell.stream == e
      case Flush => r == Done && s'.cell.stream == e
      case Forwarded(f) => r.Answer? && k.forward(e.content, e.position, f) == (s'.cell.stream.content, s'.cell.stream.position, r.r)
  {
  }

  // ---------------------------------------------------------------- the object

  class LazyConstructableStream<C(!new), F(!new), R(!new)> {
    const kind: Kind<C, F, R>
    const initial: C                  // what the factory's stream holds
    var virtualPosition: int
    var cell: Cell<C>
    ghost var factoryRuns: nat

    ghost function State(): Lazy<C>
      reads this
    {
      Lazy(virtualPosition, cell, factoryRuns)
    }

    ghost predicate Steps(before: Lazy<C>, op: Op<F>, reply: Reply<R>)
      reads this
    {
      LazyStep(kind, initial, before, op) == (State(), reply)
    }

    constructor (kind: Kind<C, F, R>, initial: C)
      ensures this.kind == kind && this.initial == initial && State() == Fresh() && RanOnce(State())
    {
      this.kind, this.initial := kind, initial;
      virtualPosition, cell, factoryRuns := FRESH_POSITION, Pending, 0;
    }

    method Value() returns (stream: Option<Eager<C>>)
      modifies this
      ensures State() == Force(initial, old(State()))
      ensures stream == if cell.Created? then Some(cell.stream) else None
    {
      if cell.Pending? {
        factoryRuns := factoryRuns + 1;
        cell := if virtualPosition < 0 then Faulted else Created(Eager(initial, virtualPosition));
      }
      stream := if cell.Created? then Some(cell.stream) else None;
    }

    method Length(hint: Option<int>) returns (reply: Reply<R>)
      modifies this
      ensures Steps(old(State()), GetLength(hint), reply)
      ensures !reply.Answer? && !reply.Done?
      ensures LazyLength(kind, initial, old(State()), hint) == (State(), if reply.Threw? then None else Some(reply.n))
    {
      if cell.Created? {
        return Number(kind.length(cell.stream.content));
      }
      if hint.Some? {
        return Number(hint.value);
      }
      var stream := Value();
      reply := if stream.None? then Threw else Number(kind.length(stream.value.content));
    }

    method SetPosition(value: int) returns (reply: Reply<R>)
      modifies this
      ensures Steps(old(State()), Op.SetPosition(value), reply)
    {
      if !cell.Created? {
        virtualPosition := value;
        return Done;
      }
      if value < 0 {
        return Threw;
      }
      cell := Created(cell.stream.(position := value));
      reply := Done;
    }

    method Position() returns (reply: Reply<R>)
      ensures Steps(State(), GetPosition, reply)
    {
      reply := Number(if cell.Created? then cell.stream.position else virtualPosition);
    }

    method Seek(offset: int, origin: Origin, hint: Option<int>) returns (reply: Reply<R>)
      modifies this
      ensures Steps(old(State()), Op.Seek(offset, origin, hint), reply)
    {
      if cell.Created? {
        var (e, r) := EagerStep(kind, cell.stream, Op.Seek(offset, origin, hint));
        cell := Created(e);
        return r;
      }
      reply := VirtualSeek(offset, origin, hint);
    }

    method VirtualSeek(offset: int, origin: Origin, hint: Option<int>) returns (reply: Reply<R>)
      requires !cell.Created?
      modifies this
      ensures Steps(old(State()), Op.Seek(offset, origin, hint), reply)
      ensures origin.Begin? ==> reply == Number(offset) && virtualPosition == offset && cell == old(cell)
      ensures origin.Current? ==>
        reply == Number(old(virtualPosition) + offset) && virtualPosition == old(virtualPosition) + offset && cell == old(cell)
      ensures origin.Other? ==> reply == Threw && virtualPosition == old(virtualPosition) && cell == old(cell)
      ensures origin.End? && hint.Some? ==>
        reply == Number(hint.value - offset) && virtualPosition == hint.value - offset && cell == old(cell)
      ensures origin.End? && hint.None? && (old(cell).Faulted? || old(virtualPosition) < 0) ==> reply == Threw && cell.Faulted?
      ensures origin.End? && hint.None? && old(cell).Pending? && old(virtualPosition) >= 0 ==>
        virtualPosition == kind.length(initial) - offset
      ensures origin.End? && hint.None? && old(cell).Pending? && old(virtualPosition) >= 0 && offset <= kind.length(initial) ==>
        reply == Number(kind.length(initial) - offset) && cell == Created(Eager(initial, kind.length(initial) - offset))
      ensures origin.End? && hint.None? && old(cell).Pending? && old(virtualPosition) >= 0 && offset > kind.length(initial) ==>
        reply == Threw && cell == Created(Eager(initial, old(virtualPosition)))
    {
      match origin {
        case Begin => virtualPosition := offset;
        case Current => virtualPosition := virtualPosition + offset;
        case End =>
          var length := Length(hint);
          if length.Threw? {
            return Threw;
          }
          virtualPosition := length.n - offset;
        case Other => return Threw;
      }
      if cell.Created? {
        if virtualPosition < 0 {
          return Threw;
        }
        cell := Created(cell.stream.(position := virtualPosition));
      }
      reply := Number(virtualPosition);
    }

    /** `Read`, `Write`, `SetLength` and the capability queries: open the stream, then ask it. */
    method Forward(request: F) returns (reply: Reply<R>)
      modifies this
      ensures Steps(old(State()), Forwarded(request), reply)
    {
      var stream := Value();
      if stream.None? {
        return Threw;
      }
      var (c, p, r) := kind.forward(stream.value.content, stream.value.position, request);
      cell := Created(Eager(c, p));
      reply := Answer(r);
    }
  }
}
