/**
 * The future state machine of Sources/Future/Future.swift.
 *
 * A future holds an optional value, an optional error and two ordered
 * observer lists. It settles at most once, to a value or to an error; a
 * later settlement attempt does nothing. `then`, `catch` and `always`
 * either invoke their block at once (already settled) or append it to a
 * list that fires, in registration order, when the future settles.
 *
 * The blocks are caller closures in the library. Here a block is an
 * abstract identifier, and invoking it is recorded as an `Event` in a
 * ghost trace, so that "fires once, in order, with this value" can be
 * stated. `State` and the `...Step` functions are the specification;
 * the `Future` and `Resolver` classes are the objects that implement it.
 */
module FutureCore {

  datatype Option<T> = None | Some(value: T)

  /** How a future settled. */
  datatype Outcome<T, E> = Resolved(value: T) | Rejected(error: E)

  /** A block handed to `then`, `catch` or `always`, named by an identifier. */
  datatype Handler = ThenBlock(id: nat) | CatchBlock(id: nat) | AlwaysBlock(id: nat)

  /** An entry of the success-observer list: a `then` block, or the success wrapper `always` adds. */
  datatype ValueObserver = ThenObserver(id: nat) | AlwaysOnValue(id: nat)

  /** An entry of the error-observer list: a `catch` block, or the error wrapper `always` adds. */
  datatype ErrorObserver = CatchObserver(id: nat) | AlwaysOnError(id: nat)

  /** One invocation of a caller's block, with the arguments it received. */
  datatype Event<T, E> =
    | ThenFired(id: nat, value: T)
    | CatchFired(id: nat, error: E)
    | AlwaysFired(id: nat, maybeValue: Option<T>, maybeError: Option<E>)

  /** The fields of a future, with the trace of the blocks it has invoked. */
  datatype State<T, E> = State(
    value: Option<T>,
    error: Option<E>,
    observers: seq<ValueObserver>,
    errorObservers: seq<ErrorObserver>,
    trace: seq<Event<T, E>>)

  /** A freshly constructed future: pending, no observers, nothing invoked. */
  function Init<T, E>(): State<T, E>
  {
    State(None, None, [], [], [])
  }

  /** The library's `isResolved`: a value or an error is stored. */
  predicate IsSettled<T, E>(s: State<T, E>)
  {
    s.value.Some? || s.error.Some?
  }

  /** The outcome a future holds, if any (the value is looked at first, as in `always`). */
  function Settlement<T, E>(s: State<T, E>): Option<Outcome<T, E>>
  {
    if s.value.Some? then Some(Resolved(s.value.value))
    else if s.error.Some? then Some(Rejected(s.error.value))
    else None
  }

  // ---------------------------------------------------------------------
  // Firing the observer lists

  function FireOnValue<T, E>(o: ValueObserver, v: T): Event<T, E>
  {
    match o
    case ThenObserver(id) => ThenFired(id, v)
    case AlwaysOnValue(id) => AlwaysFired(id, Some(v), None)
  }

  function FireOnError<T, E>(o: ErrorObserver, e: E): Event<T, E>
  {
    match o
    case CatchObserver(id) => CatchFired(id, e)
    case AlwaysOnError(id) => AlwaysFired(id, None, Some(e))
  }

  /** `_observers.forEach { $0(value) }`: one event per observer, in list order. */
  function FireValueObservers<T, E>(obs: seq<ValueObserver>, v: T): (evs: seq<Event<T, E>>)
    ensures |evs| == |obs|
    ensures forall i :: 0 <= i < |obs| ==> evs[i] == FireOnValue(obs[i], v)
  {
    if obs == [] then []
    else FireValueObservers(obs[..|obs| - 1], v) + [FireOnValue(obs[|obs| - 1], v)]
  }

  /** `_errorObservers.forEach { $0(error) }`: one event per observer, in list order. */
  function FireErrorObservers<T, E>(obs: seq<ErrorObserver>, e: E): (evs: seq<Event<T, E>>)
    ensures |evs| == |obs|
    ensures forall i :: 0 <= i < |obs| ==> evs[i] == FireOnError(obs[i], e)
  {
    if obs == [] then []
    else FireErrorObservers(obs[..|obs| - 1], e) + [FireOnError(obs[|obs| - 1], e)]
  }

  // ---------------------------------------------------------------------
  // The operations of a future, as transitions of its state

  /** The private `resolve(value:)`: store and fire the success observers, unless already settled. */
  function ResolveStep<T, E>(s: State<T, E>, v: T): (r: State<T, E>)
    ensures IsSettled(r)
    ensures IsSettled(s) ==> r == s
    ensures !IsSettled(s) ==>
      && r.value == Some(v) && r.error == None
      && r.observers == s.observers && r.errorObservers == s.errorObservers
      && |r.trace| == |s.trace| + |s.observers|
      && r.trace[..|s.trace|] == s.trace
      && forall i :: 0 <= i < |s.observers| ==> r.trace[|s.trace| + i] == FireOnValue(s.observers[i], v)
  {
    if IsSettled(s) then s
    else s.(value := Some(v), trace := s.trace + FireValueObservers(s.observers, v))
  }

  /** The private `reject(error:)`: store and fire the error observers, unless already settled. */
  function RejectStep<T, E>(s: State<T, E>, e: E): (r: State<T, E>)
    ensures IsSettled(r)
    ensures IsSettled(s) ==> r == s
    ensures !IsSettled(s) ==>
      && r.error == Some(e) && r.value == None
      && r.observers == s.observers && r.errorObservers == s.errorObservers
      && |r.trace| == |s.trace| + |s.errorObservers|
      && r.trace[..|s.trace|] == s.trace
      && forall i :: 0 <= i < |s.errorObservers| ==> r.trace[|s.trace| + i] == FireOnError(s.errorObservers[i], e)
  {
    if IsSettled(s) then s
    else s.(error := Some(e), trace := s.trace + FireErrorObservers(s.errorObservers, e))
  }

  /** `then`: invoke at once with the stored value, otherwise append (also when rejected). */
  function ThenStep<T, E>(s: State<T, E>, id: nat): State<T, E>
  {
    if s.value.Some? then s.(trace := s.trace + [ThenFired(id, s.value.value)])
    else s.(observers := s.observers + [ThenObserver(id)])
  }

  /** `catch`: invoke at once with the stored error, otherwise append (also when resolved). */
  function CatchStep<T, E>(s: State<T, E>, id: nat): State<T, E>
  {
    if s.error.Some? then s.(trace := s.trace + [CatchFired(id, s.error.value)])
    else s.(errorObservers := s.errorObservers + [CatchObserver(id)])
  }

  /** `always`: invoke at once when settled, otherwise append a wrapper to each list. */
  function AlwaysStep<T, E>(s: State<T, E>, id: nat): State<T, E>
  {
    if s.value.Some? then s.(trace := s.trace + [AlwaysFired(id, s.value, None)])
    else if s.error.Some? then s.(trace := s.trace + [AlwaysFired(id, None, s.error)])
    else s.(observers := s.observers + [AlwaysOnValue(id)],
            errorObservers := s.errorObservers + [AlwaysOnError(id)])
  }

  /** A settlement attempt through the resolver. */
  function SettleStep<T, E>(s: State<T, E>, o: Outcome<T, E>): State<T, E>
  {
    match o
    case Resolved(v) => ResolveStep(s, v)
    case Rejected(e) => RejectStep(s, e)
  }

  function RegisterStep<T, E>(s: State<T, E>, h: Handler): State<T, E>
  {
    match h
    case ThenBlock(id) => ThenStep(s, id)
    case CatchBlock(id) => CatchStep(s, id)
    case AlwaysBlock(id) => AlwaysStep(s, id)
  }

  // ---------------------------------------------------------------------
  // Runs: any interleaving of settlement attempts and registrations

  datatype Op<T, E> = Settle(outcome: Outcome<T, E>) | Register(handler: Handler)

  function Step<T, E>(s: State<T, E>, op: Op<T, E>): State<T, E>
  {
    match op
    case Settle(o) => SettleStep(s, o)
    case Register(h) => RegisterStep(s, h)
  }

  function Run<T, E>(s: State<T, E>, ops: seq<Op<T, E>>): State<T, E>
    decreases |ops|
  {
    if ops == [] then s else Step(Run(s, ops[..|ops| - 1]), ops[|ops| - 1])
  }

  /** The handlers registered by a run, in registration order. */
  function Handlers<T, E>(ops: seq<Op<T, E>>): seq<Handler>
    decreases |ops|
  {
    if ops == [] then []
    else Handlers(ops[..|ops| - 1]) + (if ops[|ops| - 1].Register? then [ops[|ops| - 1].handler] else [])
  }

  /** The first settlement attempt of a run, if any. */
  function FirstSettle<T, E>(ops: seq<Op<T, E>>): Option<Outcome<T, E>>
    decreases |ops|
  {
    if ops == [] then None
    else if FirstSettle(ops[..|ops| - 1]).Some? then FirstSettle(ops[..|ops| - 1])
    else if ops[|ops| - 1].Settle? then Some(ops[|ops| - 1].outcome)
    else None
  }

  /** What one block receives from a future settled with `o`: nothing, or one call. */
  function Invoke<T, E>(h: Handler, o: Outcome<T, E>): seq<Event<T, E>>
  {
    match (h, o)
    case (ThenBlock(id), Resolved(v)) => [ThenFired(id, v)]
    case (ThenBlock(_), Rejected(_)) => []
    case (CatchBlock(_), Resolved(_)) => []
    case (CatchBlock(id), Rejected(e)) => [CatchFired(id, e)]
    case (AlwaysBlock(id), Resolved(v)) => [AlwaysFired(id, Some(v), None)]
    case (AlwaysBlock(id), Rejected(e)) => [AlwaysFired(id, None, Some(e))]
  }

  /** Every block, in registration order, given what `o` delivers to it. */
  function Deliver<T, E>(hs: seq<Handler>, o: Outcome<T, E>): seq<Event<T, E>>
    decreases |hs|
  {
    if hs == [] then [] else Deliver(hs[..|hs| - 1], o) + Invoke(hs[|hs| - 1], o)
  }

  /** The success-observer list a pending future holds after the registrations `hs`. */
  function ValueObserversOf(hs: seq<Handler>): seq<ValueObserver>
    decreases |hs|
  {
    if hs == [] then []
    else
      var h := hs[|hs| - 1];
      ValueObserversOf(hs[..|hs| - 1]) +
        (match h
         case ThenBlock(id) => [ThenObserver(id)]
         case CatchBlock(_) => []
         case AlwaysBlock(id) => [AlwaysOnValue(id)])
  }

  /** The error-observer list a pending future holds after the registrations `hs`. */
  function ErrorObserversOf(hs: seq<Handler>): seq<ErrorObserver>
    decreases |hs|
  {
    if hs == [] then []
    else
      var h := hs[|hs| - 1];
      ErrorObserversOf(hs[..|hs| - 1]) +
        (match h
         case ThenBlock(_) => []
         case CatchBlock(id) => [CatchObserver(id)]
         case AlwaysBlock(id) => [AlwaysOnError(id)])
  }

  /** The events of a trace that belong to the block `id`, in order. */
  function EventsOf<T, E>(trace: seq<Event<T, E>>, id: nat): seq<Event<T, E>>
    decreases |trace|
  {
    if trace == [] then []
    else EventsOf(trace[..|trace| - 1], id) + (if trace[|trace| - 1].id == id then [trace[|trace| - 1]] else [])
  }

  ghost predicate DistinctIds(hs: seq<Handler>)
  {
    forall i, j :: 0 <= i < j < |hs| ==> hs[i].id != hs[j].id
  }

  // ---------------------------------------------------------------------
  // Lemmas

  /** Firing the list a pending future built is delivering to each registration in turn. */
  lemma {:induction false} FireValueObserversDelivers<T, E>(hs: seq<Handler>, v: T)
    ensures FireValueObservers<T, E>(ValueObserversOf(hs), v) == Deliver(hs, Resolved(v))
    decreases |hs|
  {
    if hs != [] {
      var init := hs[..|hs| - 1];
      FireValueObserversDelivers<T, E>(init, v);
      var a := ValueObserversOf(init);
      var b := ValueObserversOf(hs);
      assert b[..|a|] == a;
      if |b| == |a| + 1 {
        assert b[..|b| - 1] == a;
      }
    }
  }

  lemma {:induction false} FireErrorObserversDelivers<T, E>(hs: seq<Handler>, e: E)
    ensures FireErrorObservers<T, E>(ErrorObserversOf(hs), e) == Deliver(hs, Rejected(e))
    decreases |hs|
  {
    if hs != [] {
      var init := hs[..|hs| - 1];
      FireErrorObserversDelivers<T, E>(init, e);
      var a := ErrorObserversOf(init);
      var b := ErrorObserversOf(hs);
      assert b[..|a|] == a;
      if |b| == |a| + 1 {
        assert b[..|b| - 1] == a;
      }
    }
  }

  /** What a state reached by registering `hs` (and settling) looks like. */
  ghost predicate Consistent<T, E>(s: State<T, E>, hs: seq<Handler>)
  {
    && !(s.value.Some? && s.error.Some?)
    && (!IsSettled(s) ==>
          s.trace == [] && s.observers == ValueObserversOf(hs) && s.errorObservers == ErrorObserversOf(hs))
    && (IsSettled(s) ==> s.trace == Deliver(hs, Settlement(s).value))
  }

  lemma StepConsistent<T, E>(s: State<T, E>, hs: seq<Handler>, op: Op<T, E>)
    requires Consistent(s, hs)
    ensures var hs' := hs + (if op.Register? then [op.handler] else []);
      && Consistent(Step(s, op), hs')
      && Settlement(Step(s, op)) ==
           (if IsSettled(s) then Settlement(s) else if op.Settle? then Some(op.outcome) else None)
  {
    var hs' := hs + (if op.Register? then [op.handler] else []);
    match op
    case Settle(o) =>
      assert hs' == hs;
      if !IsSettled(s) {
        match o
        case Resolved(v) => FireValueObserversDelivers<T, E>(hs, v);
        case Rejected(e) => FireErrorObserversDelivers<T, E>(hs, e);
      }
    case Register(h) =>
      assert hs'[..|hs'| - 1] == hs;
  }

  /**
   * The central theorem. Whatever the interleaving of settlement attempts and
   * registrations, the future holds the first settlement, never both a value
   * and an error, and the blocks it has invoked are exactly the registered
   * blocks, in registration order, each given what that first settlement
   * delivers to it; while pending it has invoked nothing.
   */
  lemma {:induction false} RunDeliversToEveryHandler<T, E>(ops: seq<Op<T, E>>)
    ensures var s := Run(Init(), ops);
      && Settlement(s) == FirstSettle(ops)
      && !(s.value.Some? && s.error.Some?)
      && (FirstSettle(ops).None? ==>
            s.trace == [] && s.observers == ValueObserversOf(Handlers(ops))
            && s.errorObservers == ErrorObserversOf(Handlers(ops)))
      && (FirstSettle(ops).Some? ==> s.trace == Deliver(Handlers(ops), FirstSettle(ops).value))
    decreases |ops|
  {
    RunConsistent(ops);
  }

  lemma {:induction false} RunConsistent<T, E>(ops: seq<Op<T, E>>)
    ensures Consistent(Run(Init(), ops), Handlers(ops))
    ensures Settlement(Run(Init(), ops)) == FirstSettle(ops)
    decreases |ops|
  {
    if ops != [] {
      var init := ops[..|ops| - 1];
      RunConsistent(init);
      StepConsistent(Run(Init(), init), Handlers(init), ops[|ops| - 1]);
    }
  }

  lemma {:induction false} EventsOfAppend<T, E>(a: seq<Event<T, E>>, b: seq<Event<T, E>>, id: nat)
    ensures EventsOf(a + b, id) == EventsOf(a, id) + EventsOf(b, id)
    decreases |b|
  {
    if b == [] {
      assert a + b == a;
    } else {
      var b0 := b[..|b| - 1];
      EventsOfAppend(a, b0, id);
      assert (a + b)[..|a + b| - 1] == a + b0;
      assert (a + b)[|a + b| - 1] == b[|b| - 1];
    }
  }

  lemma EventsOfInvoke<T, E>(h: Handler, o: Outcome<T, E>, id: nat)
    ensures EventsOf(Invoke(h, o), id) == if h.id == id then Invoke(h, o) else []
  {
    var evs := Invoke(h, o);
    if evs != [] {
      assert evs[..0] == [];
    }
  }

  lemma {:induction false} EventsOfDeliverOther<T, E>(hs: seq<Handler>, o: Outcome<T, E>, id: nat)
    requires forall k :: 0 <= k < |hs| ==> hs[k].id != id
    ensures EventsOf(Deliver(hs, o), id) == []
    decreases |hs|
  {
    if hs != [] {
      var init := hs[..|hs| - 1];
      EventsOfDeliverOther(init, o, id);
      EventsOfAppend(Deliver(init, o), Invoke(hs[|hs| - 1], o), id);
      EventsOfInvoke(hs[|hs| - 1], o, id);
    }
  }

  /** The events for `id` of one more delivery: those of the earlier blocks, then the last block's own. */
  lemma EventsOfDeliverSnoc<T, E>(hs: seq<Handler>, o: Outcome<T, E>, id: nat)
    requires hs != []
    ensures EventsOf(Deliver(hs, o), id) ==
              EventsOf(Deliver(hs[..|hs| - 1], o), id) + (if hs[|hs| - 1].id == id then Invoke(hs[|hs| - 1], o) else [])
  {
    var init := hs[..|hs| - 1];
    var last := hs[|hs| - 1];
    assert Deliver(hs, o) == Deliver(init, o) + Invoke(last, o);
    EventsOfAppend(Deliver(init, o), Invoke(last, o), id);
    EventsOfInvoke(last, o, id);
  }

  /** Dropping the last block keeps identifiers distinct, and none of the rest shares its identifier. */
  lemma DistinctIdsInit(hs: seq<Handler>)
    requires DistinctIds(hs) && hs != []
    ensures DistinctIds(hs[..|hs| - 1])
    ensures forall k :: 0 <= k < |hs| - 1 ==> hs[k].id != hs[|hs| - 1].id
  {
    var init := hs[..|hs| - 1];
    forall j, k | 0 <= j < k < |init| ensures init[j].id != init[k].id {
      assert init[j] == hs[j] && init[k] == hs[k];
    }
    forall k | 0 <= k < |init| ensures init[k].id != hs[|hs| - 1].id {
      assert init[k] == hs[k];
    }
  }

  /** With distinct identifiers, block `hs[i]` receives exactly what `Invoke` gives it. */
  lemma {:induction false} EventsOfDeliver<T, E>(hs: seq<Handler>, o: Outcome<T, E>, i: nat)
    requires DistinctIds(hs)
    requires i < |hs|
    ensures EventsOf(Deliver(hs, o), hs[i].id) == Invoke(hs[i], o)
    decreases |hs|
  {
    var init := hs[..|hs| - 1];
    var id := hs[i].id;
    EventsOfDeliverSnoc(hs, o, id);
    DistinctIdsInit(hs);
    if i == |hs| - 1 {
      EventsOfDeliverOther(init, o, id);
    } else {
      assert init[i] == hs[i];
      EventsOfDeliver(init, o, i);
    }
  }

  /**
   * Each registered block (identifiers distinct) is invoked exactly once when
   * its channel settles, with the stored value or error, and never otherwise:
   * a `then` block never runs on a rejected future, a `catch` block never on
   * a resolved one, nothing runs on a future that never settles, and an
   * `always` block receives exactly one of value and error.
   */
  lemma HandlerFiresOnce<T, E>(ops: seq<Op<T, E>>, i: nat)
    requires DistinctIds(Handlers(ops))
    requires i < |Handlers(ops)|
    ensures var fired := EventsOf(Run(Init(), ops).trace, Handlers(ops)[i].id);
      match (Handlers(ops)[i], FirstSettle(ops))
      case (ThenBlock(id), Some(Resolved(v))) => fired == [ThenFired(id, v)]
      case (CatchBlock(id), Some(Rejected(e))) => fired == [CatchFired(id, e)]
      case (AlwaysBlock(id), Some(Resolved(v))) => fired == [AlwaysFired(id, Some(v), None)]
      case (AlwaysBlock(id), Some(Rejected(e))) => fired == [AlwaysFired(id, None, Some(e))]
      case _ => fired == []
  {
    RunDeliversToEveryHandler(ops);
    var hs := Handlers(ops);
    match FirstSettle(ops)
    case None =>
    case Some(o) => EventsOfDeliver(hs, o, i);
  }

  /** A block listens on outcome `o` when `o` invokes it. */
  predicate Listens<T, E>(h: Handler, o: Outcome<T, E>)
  {
    match o
    case Resolved(_) => !h.CatchBlock?
    case Rejected(_) => !h.ThenBlock?
  }

  /** When every registered block listens on `o`, the k-th event is the k-th block's call. */
  lemma {:induction false} DeliverInRegistrationOrder<T, E>(hs: seq<Handler>, o: Outcome<T, E>)
    requires forall k :: 0 <= k < |hs| ==> Listens(hs[k], o)
    ensures |Deliver(hs, o)| == |hs|
    ensures forall k :: 0 <= k < |hs| ==> Invoke(hs[k], o) == [Deliver(hs, o)[k]]
    decreases |hs|
  {
    if hs != [] {
      var init := hs[..|hs| - 1];
      DeliverInRegistrationOrder(init, o);
      assert |Invoke(hs[|hs| - 1], o)| == 1;
    }
  }

  /** A settlement attempt on a settled future changes nothing, whatever it carries. */
  lemma SettledIsFinal<T, E>(ops: seq<Op<T, E>>, o: Outcome<T, E>)
    requires FirstSettle(ops).Some?
    ensures Run(Init(), ops + [Settle(o)]) == Run(Init(), ops)
    ensures FirstSettle(ops + [Settle(o)]) == FirstSettle(ops)
  {
    var ops' := ops + [Settle(o)];
    assert ops'[..|ops'| - 1] == ops;
    RunConsistent(ops);
  }

  /** The operations that settle a new future to `r`: none while `r` is pending. */
  function SettleOps<T, E>(r: Option<Outcome<T, E>>): seq<Op<T, E>>
  {
    if r.None? then [] else [Settle(r.value)]
  }

  /**
   * A future nobody has registered on yet, holding `r`: pending when `r` is
   * None, otherwise the value or the error alone.
   */
  function Holding<T, E>(r: Option<Outcome<T, E>>): (s: State<T, E>)
    ensures Settlement(s) == r && !(s.value.Some? && s.error.Some?)
    ensures s.observers == [] && s.errorObservers == [] && s.trace == []
  {
    match r
    case None => Init()
    case Some(Resolved(v)) => State(Some(v), None, [], [], [])
    case Some(Rejected(e)) => State(None, Some(e), [], [], [])
  }

  /** Registrations after a settlement neither settle again nor lose a block. */
  lemma {:induction false} SettledPrefix<T, E>(r: Option<Outcome<T, E>>, regs: seq<Op<T, E>>)
    requires forall k :: 0 <= k < |regs| ==> regs[k].Register?
    ensures FirstSettle(SettleOps(r) + regs) == r
    ensures Handlers(SettleOps(r) + regs) == Handlers(regs)
    decreases |regs|
  {
    var ops := SettleOps(r) + regs;
    if regs == [] {
      assert ops == SettleOps(r);
      if r.Some? {
        assert ops[..0] == [];
      }
    } else {
      var init := regs[..|regs| - 1];
      SettledPrefix(r, init);
      assert ops[..|ops| - 1] == SettleOps(r) + init;
      assert ops[|ops| - 1] == regs[|regs| - 1];
    }
  }

  /** A future holding `r` with nothing registered is where the run settling with `r` ends. */
  lemma {:induction false} HoldingIsRun<T, E>(r: Option<Outcome<T, E>>, regs: seq<Op<T, E>>)
    ensures Run(Holding(r), regs) == Run(Init(), SettleOps(r) + regs)
    decreases |regs|
  {
    var ops := SettleOps(r) + regs;
    if regs == [] {
      assert ops == SettleOps(r);
      if r.Some? {
        assert ops[..0] == [];
        assert Run(Init(), ops) == SettleStep(Init(), r.value);
      }
    } else {
      HoldingIsRun(r, regs[..|regs| - 1]);
      assert ops[..|ops| - 1] == SettleOps(r) + regs[..|regs| - 1];
      assert ops[|ops| - 1] == regs[|regs| - 1];
    }
  }

  /**
   * Blocks registered on a future that holds `r` see what the central theorem
   * says of the run that settles first and registers them afterwards: each
   * block, in registration order, given `r` (nothing while pending).
   */
  lemma RegisterOnHolding<T, E>(r: Option<Outcome<T, E>>, regs: seq<Op<T, E>>)
    requires forall k :: 0 <= k < |regs| ==> regs[k].Register?
    ensures Run(Holding(r), regs) == Run(Init(), SettleOps(r) + regs)
    ensures Settlement(Run(Holding(r), regs)) == r
    ensures r.Some? ==> Run(Holding(r), regs).trace == Deliver(Handlers(regs), r.value)
    ensures r.None? ==> Run(Holding(r), regs).trace == []
  {
    HoldingIsRun(r, regs);
    SettledPrefix(r, regs);
    RunDeliversToEveryHandler(SettleOps(r) + regs);
  }

  /** A run of registrations alone never settles. */
  lemma {:induction false} RegistrationsOnly<T, E>(regs: seq<Op<T, E>>)
    requires forall k :: 0 <= k < |regs| ==> regs[k].Register?
    ensures FirstSettle(regs).None?
    decreases |regs|
  {
    if regs != [] {
      RegistrationsOnly(regs[..|regs| - 1]);
    }
  }

  /**
   * Registering blocks before the settlement or after it makes no difference:
   * the same outcome is held and the same blocks receive the same calls, in
   * registration order.
   */
  lemma SettleBeforeOrAfter<T, E>(o: Outcome<T, E>, regs: seq<Op<T, E>>)
    requires forall k :: 0 <= k < |regs| ==> regs[k].Register?
    ensures Run(Init(), regs + [Settle(o)]).trace == Run(Holding(Some(o)), regs).trace
    ensures Settlement(Run(Init(), regs + [Settle(o)])) == Settlement(Run(Holding(Some(o)), regs))
  {
    var ops := regs + [Settle(o)];
    assert ops[..|ops| - 1] == regs;
    RegistrationsOnly(regs);
    assert FirstSettle(ops) == Some(o);
    assert Handlers(ops) == Handlers(regs);
    RunDeliversToEveryHandler(ops);
    RegisterOnHolding(Some(o), regs);
    assert Run(Holding(Some(o)), regs).trace == Deliver(Handlers(regs), o);
  }

  // ---------------------------------------------------------------------
  // The objects

  class Future<T, E> {
    var value: Option<T>
    var error: Option<E>
    var observers: seq<ValueObserver>
    var errorObservers: seq<ErrorObserver>
    ghost var trace: seq<Event<T, E>>

    ghost function Abs(): State<T, E>
      reads this
    {
      State(value, error, observers, errorObservers, trace)
    }

    constructor ()
      ensures Abs() == Init()
    {
      value := None;
      error := None;
      observers := [];
      errorObservers := [];
      trace := [];
    }

    /** `isResolved`: true once settled either way, so also after a rejection. */
    function IsResolved(): (b: bool)
      reads this
      ensures b <==> Settlement(Abs()).Some?
    {
      value.Some? || error.Some?
    }

    method Resolve(v: T)
      modifies this
      ensures Abs() == ResolveStep(old(Abs()), v)
    {
      if IsResolved() {
        return;
      }
      value := Some(v);
      var i := 0;
      while i < |observers|
        invariant 0 <= i <= |observers|
        invariant value == Some(v) && error == old(error)
        invariant observers == old(observers) && errorObservers == old(errorObservers)
        invariant trace == old(trace) + FireValueObservers(observers[..i], v)
      {
        assert observers[..i + 1][..i] == observers[..i];
        trace := trace + [FireOnValue(observers[i], v)];
        i := i + 1;
      }
      assert observers[..i] == observers;
    }

    method Reject(e: E)
      modifies this
      ensures Abs() == RejectStep(old(Abs()), e)
    {
      if IsResolved() {
        return;
      }
      error := Some(e);
      var i := 0;
      while i < |errorObservers|
        invariant 0 <= i <= |errorObservers|
        invariant error == Some(e) && value == old(value)
        invariant observers == old(observers) && errorObservers == old(errorObservers)
        invariant trace == old(trace) + FireErrorObservers(errorObservers[..i], e)
      {
        assert errorObservers[..i + 1][..i] == errorObservers[..i];
        trace := trace + [FireOnError(errorObservers[i], e)];
        i := i + 1;
      }
      assert errorObservers[..i] == errorObservers;
    }

    method Then(id: nat) returns (self: Future<T, E>)
      modifies this
      ensures self == this
      ensures Abs() == ThenStep(old(Abs()), id)
    {
      if value.Some? {
        trace := trace + [ThenFired(id, value.value)];
      } else {
        observers := observers + [ThenObserver(id)];
      }
      self := this;
    }

    method Catch(id: nat) returns (self: Future<T, E>)
      modifies this
      ensures self == this
      ensures Abs() == CatchStep(old(Abs()), id)
    {
      if error.Some? {
        trace := trace + [CatchFired(id, error.value)];
      } else {
        errorObservers := errorObservers + [CatchObserver(id)];
      }
      self := this;
    }

    method Always(id: nat) returns (self: Future<T, E>)
      modifies this
      ensures self == this
      ensures Abs() == AlwaysStep(old(Abs()), id)
    {
      if value.Some? {
        trace := trace + [AlwaysFired(id, value, None)];
      } else if error.Some? {
        trace := trace + [AlwaysFired(id, None, error)];
      } else {
        observers := observers + [AlwaysOnValue(id)];
        errorObservers := errorObservers + [AlwaysOnError(id)];
      }
      self := this;
    }
  }

  /** The single-use capability that settles a future; it forgets the future after its first use. */
  class Resolver<T, E> {
    var future: Future?<T, E>

    constructor (f: Future<T, E>)
      ensures future == f
    {
      future := f;
    }

    method Resolve(v: T)
      modifies this, future
      ensures future == null
      ensures old(future) != null ==> old(future).Abs() == ResolveStep(old(future.Abs()), v)
    {
      if future != null {
        future.Resolve(v);
      }
      future := null;
    }

    method Reject(e: E)
      modifies this, future
      ensures future == null
      ensures old(future) != null ==> old(future).Abs() == RejectStep(old(future.Abs()), e)
    {
      if future != null {
        future.Reject(e);
      }
      future := null;
    }
  }

  /**
   * `Future(block)`: a pending future and its resolver. The initializer block
   * is the caller's code; it is modelled by what the caller then does with
   * the resolver.
   */
  method NewFuture<T, E>() returns (f: Future<T, E>, r: Resolver<T, E>)
    ensures fresh(f) && fresh(r)
    ensures f.Abs() == Init() && r.future == f
  {
    f := new Future();
    r := new Resolver(f);
  }

  /** The `resolve()` convenience of a resolver whose value type is `Void`. */
  method ResolveUnit<E>(r: Resolver<(), E>)
    modifies r, r.future
    ensures r.future == null
    ensures old(r.future) != null ==> old(r.future).Abs() == ResolveStep(old(r.future.Abs()), ())
  {
    r.Resolve(());
  }
}
