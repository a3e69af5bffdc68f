/**
 * The combinators of Sources/Future/Futures.swift: `all`, `any` and `first`
 * build a parent future whose resolver is driven by the completions of a
 * list of input futures.
 *
 * An input is described by its state when the combinator registers on it
 * (`Some(outcome)` when already settled, `None` when pending) and the later
 * completions of pending inputs form a sequence of events. Already-settled
 * inputs fire synchronously inside the registration loop, in array order,
 * so the completion order is: settled inputs in array order, then the later
 * events in the order they happen.
 */
module Futures {
  import opened FutureCore

  /** Values collected from the inputs, in completion order. */
  datatype ResultCollection<T> = ResultCollection(rawValue: seq<T>) {
    /** `subscript(_ index: Int)`: defined on the positions of `rawValue` only. */
    function Get(index: int): (r: T)
      requires 0 <= index < |rawValue|
      ensures r == rawValue[index]
    {
      rawValue[index]
    }
  }

  /** Errors collected from the inputs, in completion order. */
  datatype ErrorCollection<E> = ErrorCollection(rawValue: seq<E>) {
    /** `subscript(_ index: Int)`: defined on the positions of `rawValue` only. */
    function Get(index: int): (r: E)
      requires 0 <= index < |rawValue|
      ensures r == rawValue[index]
    {
      rawValue[index]
    }
  }

  /** Input number `index`, pending at registration, completes with `outcome`. */
  datatype Completion<T, E> = Completion(index: nat, outcome: Outcome<T, E>)

  /** The rule that tells `all` from `any` when the last input completes. */
  datatype Policy = AllPolicy | AnyPolicy

  // ---------------------------------------------------------------------
  // Specification

  /** The inputs settled at registration, in array order. */
  function SettledOutcomes<T, E>(inputs: seq<Option<Outcome<T, E>>>): seq<Outcome<T, E>>
    decreases |inputs|
  {
    if inputs == [] then []
    else
      var last := inputs[|inputs| - 1];
      SettledOutcomes(inputs[..|inputs| - 1]) + (if last.Some? then [last.value] else [])
  }

  function LaterOutcomes<T, E>(later: seq<Completion<T, E>>): seq<Outcome<T, E>>
    decreases |later|
  {
    if later == [] then [] else LaterOutcomes(later[..|later| - 1]) + [later[|later| - 1].outcome]
  }

  /** The order in which the combinator's callbacks run. */
  function CompletionOrder<T, E>(inputs: seq<Option<Outcome<T, E>>>, later: seq<Completion<T, E>>): seq<Outcome<T, E>>
  {
    SettledOutcomes(inputs) + LaterOutcomes(later)
  }

  /** What `results.rawValue` holds after the completions `outs`. */
  function Successes<T, E>(outs: seq<Outcome<T, E>>): seq<T>
    decreases |outs|
  {
    if outs == [] then []
    else
      var last := outs[|outs| - 1];
      Successes(outs[..|outs| - 1]) + (if last.Resolved? then [last.value] else [])
  }

  /** What `errors.rawValue` holds after the completions `outs`. */
  function Failures<T, E>(outs: seq<Outcome<T, E>>): seq<E>
    decreases |outs|
  {
    if outs == [] then []
    else
      var last := outs[|outs| - 1];
      Failures(outs[..|outs| - 1]) + (if last.Rejected? then [last.error] else [])
  }

  /** How the parent settles once every input has completed. */
  function Decide<T, E>(policy: Policy, results: seq<T>, errors: seq<E>): Outcome<ResultCollection<T>, ErrorCollection<E>>
  {
    match policy
    case AllPolicy =>
      if |errors| == 0 then Resolved(ResultCollection(results)) else Rejected(ErrorCollection(errors))
    case AnyPolicy =>
      if |results| == 0 then Rejected(ErrorCollection(errors)) else Resolved(ResultCollection(results))
  }

  /**
   * How the parent of `all`/`any` over `n` inputs stands after the completions
   * `outs`: it settles at the completion that brings the count to `n`, which
   * never happens when `n` is 0.
   */
  function Aggregate<T, E>(policy: Policy, n: nat, outs: seq<Outcome<T, E>>): Option<Outcome<ResultCollection<T>, ErrorCollection<E>>>
  {
    if 0 < n <= |outs| then Some(Decide(policy, Successes(outs[..n]), Failures(outs[..n]))) else None
  }

  /** How the parent of `first` stands after the completions `outs`. */
  function FirstOutcome<T, E>(outs: seq<Outcome<T, E>>): Option<Outcome<T, E>>
  {
    if outs == [] then None else Some(outs[0])
  }

  /**
   * Completion events that can happen: each names a pending input, and no
   * input completes twice.
   */
  ghost predicate WellFormed<T, E>(inputs: seq<Option<Outcome<T, E>>>, later: seq<Completion<T, E>>)
  {
    && (forall j :: 0 <= j < |later| ==> later[j].index < |inputs| && inputs[later[j].index].None?)
    && (forall j, k :: 0 <= j < k < |later| ==> later[j].index != later[k].index)
  }

  /** Every input has completed: it was settled at registration or completed later. */
  ghost predicate AllCompleted<T, E>(inputs: seq<Option<Outcome<T, E>>>, later: seq<Completion<T, E>>)
  {
    forall i :: 0 <= i < |inputs| && inputs[i].None? ==> exists j :: 0 <= j < |later| && later[j].index == i
  }

  // ---------------------------------------------------------------------
  // Lemmas

  /**
   * Each completion lands in exactly one of the two collections, so their
   * sizes add up to the number of completions; no errors means every input
   * resolved, no results means every input rejected.
   */
  lemma {:induction false} PartitionCounts<T, E>(outs: seq<Outcome<T, E>>)
    ensures |Successes(outs)| + |Failures(outs)| == |outs|
    ensures Failures(outs) == [] <==> forall i :: 0 <= i < |outs| ==> outs[i].Resolved?
    ensures Successes(outs) == [] <==> forall i :: 0 <= i < |outs| ==> outs[i].Rejected?
    decreases |outs|
  {
    if outs != [] {
      var init := outs[..|outs| - 1];
      PartitionCounts(init);
      assert forall i :: 0 <= i < |init| ==> init[i] == outs[i];
    }
  }

  /** When every completion resolved, the results are their values in completion order. */
  lemma {:induction false} SuccessesInOrder<T, E>(outs: seq<Outcome<T, E>>)
    requires forall i :: 0 <= i < |outs| ==> outs[i].Resolved?
    ensures |Successes(outs)| == |outs|
    ensures forall i :: 0 <= i < |outs| ==> Successes(outs)[i] == outs[i].value
    decreases |outs|
  {
    if outs != [] {
      var init := outs[..|outs| - 1];
      SuccessesInOrder(init);
    }
  }

  /** When every completion rejected, the errors are theirs in completion order. */
  lemma {:induction false} FailuresInOrder<T, E>(outs: seq<Outcome<T, E>>)
    requires forall i :: 0 <= i < |outs| ==> outs[i].Rejected?
    ensures |Failures(outs)| == |outs|
    ensures forall i :: 0 <= i < |outs| ==> Failures(outs)[i] == outs[i].error
    decreases |outs|
  {
    if outs != [] {
      var init := outs[..|outs| - 1];
      FailuresInOrder(init);
    }
  }

  /**
   * `all` over n inputs, once n completions are in: it resolves exactly when
   * none of them failed, with all n values in completion order; otherwise it
   * rejects with every error collected.
   */
  lemma AllDecision<T, E>(n: nat, outs: seq<Outcome<T, E>>)
    requires 0 < n <= |outs|
    ensures Aggregate(AllPolicy, n, outs).Some?
    ensures var d := Aggregate(AllPolicy, n, outs).value;
      && (d.Resolved? <==> forall i :: 0 <= i < n ==> outs[i].Resolved?)
      && (d.Resolved? ==>
            |d.value.rawValue| == n && forall i :: 0 <= i < n ==> d.value.rawValue[i] == outs[i].value)
      && (d.Rejected? ==>
            d.error.rawValue == Failures(outs[..n]) && 0 < |d.error.rawValue| <= n)
  {
    var first := outs[..n];
    PartitionCounts(first);
    if forall i :: 0 <= i < n ==> outs[i].Resolved? {
      SuccessesInOrder(first);
    }
  }

  /**
   * `any` over n inputs, once n completions are in: it rejects exactly when
   * all of them failed, with all n errors in completion order; otherwise it
   * resolves with the values collected, possibly fewer than n.
   */
  lemma AnyDecision<T, E>(n: nat, outs: seq<Outcome<T, E>>)
    requires 0 < n <= |outs|
    ensures Aggregate(AnyPolicy, n, outs).Some?
    ensures var d := Aggregate(AnyPolicy, n, outs).value;
      && (d.Rejected? <==> forall i :: 0 <= i < n ==> outs[i].Rejected?)
      && (d.Rejected? ==>
            |d.error.rawValue| == n && forall i :: 0 <= i < n ==> d.error.rawValue[i] == outs[i].error)
      && (d.Resolved? ==>
            d.value.rawValue == Successes(outs[..n]) && 0 < |d.value.rawValue| <= n)
  {
    var first := outs[..n];
    PartitionCounts(first);
    if forall i :: 0 <= i < n ==> outs[i].Rejected? {
      FailuresInOrder(first);
    }
  }

  lemma {:induction false} SettledOutcomesCount<T, E>(inputs: seq<Option<Outcome<T, E>>>)
    ensures |SettledOutcomes(inputs)| + |set i | 0 <= i < |inputs| && inputs[i].None?| == |inputs|
    decreases |inputs|
  {
    if inputs != [] {
      var init := inputs[..|inputs| - 1];
      SettledOutcomesCount(init);
      var last := |inputs| - 1;
      var before := set i | 0 <= i < |init| && init[i].None?;
      var now := set i | 0 <= i < |inputs| && inputs[i].None?;
      if inputs[last].None? {
        assert now == before + {last};
      } else {
        assert now == before;
      }
    }
  }

  lemma {:induction false} LaterIndicesCount<T, E>(later: seq<Completion<T, E>>)
    requires forall j, k :: 0 <= j < k < |later| ==> later[j].index != later[k].index
    ensures |set j | 0 <= j < |later| :: later[j].index| == |later|
    ensures |LaterOutcomes(later)| == |later|
    decreases |later|
  {
    if later != [] {
      var init := later[..|later| - 1];
      LaterIndicesCount(init);
      var last := later[|later| - 1].index;
      var before := set j | 0 <= j < |init| :: init[j].index;
      var now := set j | 0 <= j < |later| :: later[j].index;
      assert now == before + {last};
      assert last !in before;
    }
  }

  /**
   * With completions that can happen, the number of completions never exceeds
   * the number of inputs, and it reaches it exactly when every input has
   * completed. So `all` and `any` settle iff the input list is non-empty and
   * every input has completed.
   */
  lemma CombinatorSettlesIffAllCompleted<T, E>(inputs: seq<Option<Outcome<T, E>>>, later: seq<Completion<T, E>>, policy: Policy)
    requires WellFormed(inputs, later)
    ensures |CompletionOrder(inputs, later)| <= |inputs|
    ensures |CompletionOrder(inputs, later)| == |inputs| <==> AllCompleted(inputs, later)
    ensures Aggregate(policy, |inputs|, CompletionOrder(inputs, later)).Some? <==>
              |inputs| > 0 && AllCompleted(inputs, later)
  {
    var pending := set i | 0 <= i < |inputs| && inputs[i].None?;
    var done := set j | 0 <= j < |later| :: later[j].index;
    SettledOutcomesCount(inputs);
    LaterIndicesCount(later);
    SubsetCardinality(done, pending);
    if AllCompleted(inputs, later) {
      forall i | i in pending ensures i in done {
        var j :| 0 <= j < |later| && later[j].index == i;
      }
    } else {
      var i :| 0 <= i < |inputs| && inputs[i].None? && forall j :: 0 <= j < |later| ==> later[j].index != i;
      assert i in pending && i !in done;
    }
  }

  lemma SubsetCardinality(a: set<nat>, b: set<nat>)
    requires a <= b
    ensures |a| <= |b|
    ensures |a| == |b| <==> b <= a
  {
    assert b == a + (b - a);
    assert a * (b - a) == {};
    if !(b <= a) {
      var x :| x in b && x !in a;
      assert x in b - a;
    }
  }

  /** When no input is settled at registration, nothing completes during registration. */
  lemma {:induction false} NoneSettled<T, E>(inputs: seq<Option<Outcome<T, E>>>)
    requires forall i :: 0 <= i < |inputs| ==> inputs[i].None?
    ensures SettledOutcomes(inputs) == []
    decreases |inputs|
  {
    if inputs != [] {
      NoneSettled(inputs[..|inputs| - 1]);
    }
  }

  /**
   * The tie-break of `first`: when inputs are already settled at registration,
   * the earliest of them in array order wins, whatever happens later.
   */
  lemma {:induction false} FirstEarliestSettledWins<T, E>(inputs: seq<Option<Outcome<T, E>>>, later: seq<Completion<T, E>>, i: nat)
    requires i < |inputs| && inputs[i].Some?
    requires forall j :: 0 <= j < i ==> inputs[j].None?
    ensures FirstOutcome(CompletionOrder(inputs, later)) == inputs[i]
    decreases |inputs|
  {
    FirstSettledAt(inputs, i);
  }

  lemma {:induction false} FirstSettledAt<T, E>(inputs: seq<Option<Outcome<T, E>>>, i: nat)
    requires i < |inputs| && inputs[i].Some?
    requires forall j :: 0 <= j < i ==> inputs[j].None?
    ensures SettledOutcomes(inputs) != [] && SettledOutcomes(inputs)[0] == inputs[i].value
    decreases |inputs|
  {
    var init := inputs[..|inputs| - 1];
    if i == |inputs| - 1 {
      NoneSettled(init);
    } else {
      FirstSettledAt(init, i);
    }
  }

  /** `first` when no input is settled at registration: the first later completion wins. */
  lemma FirstLaterWins<T, E>(inputs: seq<Option<Outcome<T, E>>>, later: seq<Completion<T, E>>)
    requires forall i :: 0 <= i < |inputs| ==> inputs[i].None?
    ensures FirstOutcome(CompletionOrder(inputs, later)) ==
              if later == [] then None else Some(later[0].outcome)
  {
    NoneSettled(inputs);
    if later != [] {
      FirstLaterOutcome(later);
    }
  }

  lemma {:induction false} FirstLaterOutcome<T, E>(later: seq<Completion<T, E>>)
    requires later != []
    ensures LaterOutcomes(later) != [] && LaterOutcomes(later)[0] == later[0].outcome
    decreases |later|
  {
    if |later| > 1 {
      FirstLaterOutcome(later[..|later| - 1]);
    }
  }

  /** One more completion moves the aggregate only when it brings the count to `n`. */
  lemma AggregateExtend<T, E>(policy: Policy, n: nat, outs: seq<Outcome<T, E>>, o: Outcome<T, E>)
    ensures Aggregate(policy, n, outs + [o]) ==
              if |outs| + 1 == n then Some(Decide(policy, Successes(outs + [o]), Failures(outs + [o])))
              else Aggregate(policy, n, outs)
  {
    var outs' := outs + [o];
    if |outs| + 1 == n {
      assert outs'[..n] == outs';
    } else if 0 < n <= |outs| {
      assert outs'[..n] == outs[..n];
    }
  }

  // ---------------------------------------------------------------------
  // The combinators

  /**
   * The state the callback of `all`/`any` captures: the two collections, the
   * input count and the parent's resolver.
   */
  class Collector<T, E> {
    var results: seq<T>
    var errors: seq<E>
    const totalCount: nat
    const policy: Policy
    const resolver: Resolver<ResultCollection<T>, ErrorCollection<E>>
    ghost const parent: Future<ResultCollection<T>, ErrorCollection<E>>

    ghost predicate Valid()
      reads this, resolver
    {
      resolver.future == null || resolver.future == parent
    }

    constructor (totalCount: nat, policy: Policy,
                 resolver: Resolver<ResultCollection<T>, ErrorCollection<E>>,
                 ghost parent: Future<ResultCollection<T>, ErrorCollection<E>>)
      requires resolver.future == parent
      ensures Valid()
      ensures results == [] && errors == []
      ensures this.totalCount == totalCount && this.policy == policy
      ensures this.resolver == resolver && this.parent == parent
    {
      this.results := [];
      this.errors := [];
      this.totalCount := totalCount;
      this.policy := policy;
      this.resolver := resolver;
      this.parent := parent;
    }

    /**
     * The block `all`/`any` passes to `always`: append to one collection, and
     * when the count of completions reaches the input count, settle the
     * parent by the policy. The block force-unwraps the error when no value
     * is given, which `always` guarantees is safe.
     */
    method Complete(result: Option<T>, error: Option<E>)
      requires Valid()
      requires result.Some? || error.Some?
      modifies this, resolver, parent
      ensures Valid()
      ensures results == old(results) + (if result.Some? then [result.value] else [])
      ensures errors == old(errors) + (if result.Some? then [] else [error.value])
      ensures |results| + |errors| == totalCount ==>
                && resolver.future == null
                && parent.Abs() ==
                     if old(resolver.future) == null then old(parent.Abs())
                     else SettleStep(old(parent.Abs()), Decide(policy, results, errors))
      ensures |results| + |errors| != totalCount ==>
                resolver.future == old(resolver.future) && parent.Abs() == old(parent.Abs())
    {
      if result.Some? {
        results := results + [result.value];
      } else {
        errors := errors + [error.value];
      }
      var resolvedCount := |results| + |errors|;
      if resolvedCount == totalCount {
        match policy
        case AllPolicy =>
          if |errors| == 0 {
            resolver.Resolve(ResultCollection(results));
          } else {
            resolver.Reject(ErrorCollection(errors));
          }
        case AnyPolicy =>
          if |results| == 0 {
            resolver.Reject(ErrorCollection(errors));
          } else {
            resolver.Resolve(ResultCollection(results));
          }
      }
    }

    /** The collector has seen the completions `outs` and the parent stands accordingly. */
    ghost predicate Tracks(outs: seq<Outcome<T, E>>)
      reads this, resolver, parent
    {
      && results == Successes(outs) && errors == Failures(outs)
      && parent.Abs() == Holding(Aggregate(policy, totalCount, outs))
      && (resolver.future == null <==> Settlement(parent.Abs()).Some?)
      && (resolver.future != null ==> resolver.future == parent)
    }

    /** Run the block for the completion `o`, as `always` passes it: (value, nil) or (nil, error). */
    method Deliver(o: Outcome<T, E>, ghost outs: seq<Outcome<T, E>>)
      requires Tracks(outs)
      modifies this, resolver, parent
      ensures Tracks(outs + [o])
    {
      PartitionCounts(outs);
      AggregateExtend(policy, totalCount, outs, o);
      var outs' := outs + [o];
      assert outs'[..|outs'| - 1] == outs;
      match o
      case Resolved(v) => Complete(Some(v), None);
      case Rejected(e) => Complete(None, Some(e));
    }
  }

  /** `all` and `any`: register on every input, then run the later completions. */
  method Collect<T, E>(inputs: seq<Option<Outcome<T, E>>>, later: seq<Completion<T, E>>, policy: Policy)
    returns (parent: Future<ResultCollection<T>, ErrorCollection<E>>)
    ensures fresh(parent)
    ensures parent.Abs() == Holding(Aggregate(policy, |inputs|, CompletionOrder(inputs, later)))
  {
    var resolver;
    parent, resolver := NewFuture();
    var c := new Collector(|inputs|, policy, resolver, parent);
    // futures.forEach { $0.always { ... } }: a settled input fires at once
    for i := 0 to |inputs|
      invariant c.resolver == resolver && c.parent == parent
      invariant c.totalCount == |inputs| && c.policy == policy
      invariant c.Tracks(SettledOutcomes(inputs[..i]))
    {
      assert inputs[..i + 1][..i] == inputs[..i];
      assert SettledOutcomes(inputs[..i + 1]) ==
               SettledOutcomes(inputs[..i]) + (if inputs[i].Some? then [inputs[i].value] else []);
      if inputs[i].Some? {
        c.Deliver(inputs[i].value, SettledOutcomes(inputs[..i]));
      } else {
        assert SettledOutcomes(inputs[..i + 1]) == SettledOutcomes(inputs[..i]);
      }
    }
    assert inputs[..|inputs|] == inputs;
    assert CompletionOrder(inputs, later[..0]) == SettledOutcomes(inputs);
    // the pending inputs complete later, one callback each
    for j := 0 to |later|
      invariant c.resolver == resolver && c.parent == parent
      invariant c.totalCount == |inputs| && c.policy == policy
      invariant c.Tracks(CompletionOrder(inputs, later[..j]))
    {
      assert later[..j + 1][..j] == later[..j];
      assert LaterOutcomes(later[..j + 1]) == LaterOutcomes(later[..j]) + [later[j].outcome];
      assert CompletionOrder(inputs, later[..j + 1]) == CompletionOrder(inputs, later[..j]) + [later[j].outcome];
      c.Deliver(later[j].outcome, CompletionOrder(inputs, later[..j]));
    }
    assert later[..|later|] == later;
  }

  /**
   * `Futures.all`: the parent settles at the completion that brings the count
   * to the number of inputs, resolving iff no input failed; with no inputs it
   * stays pending.
   */
  method All<T, E>(inputs: seq<Option<Outcome<T, E>>>, later: seq<Completion<T, E>>)
    returns (parent: Future<ResultCollection<T>, ErrorCollection<E>>)
    ensures fresh(parent)
    ensures parent.Abs() == Holding(Aggregate(AllPolicy, |inputs|, CompletionOrder(inputs, later)))
    ensures |inputs| == 0 ==> !parent.IsResolved()
  {
    parent := Collect(inputs, later, AllPolicy);
  }

  /**
   * `Futures.any`: the parent settles at the same point, rejecting iff every
   * input failed; with no inputs it stays pending.
   */
  method Any<T, E>(inputs: seq<Option<Outcome<T, E>>>, later: seq<Completion<T, E>>)
    returns (parent: Future<ResultCollection<T>, ErrorCollection<E>>)
    ensures fresh(parent)
    ensures parent.Abs() == Holding(Aggregate(AnyPolicy, |inputs|, CompletionOrder(inputs, later)))
    ensures |inputs| == 0 ==> !parent.IsResolved()
  {
    parent := Collect(inputs, later, AnyPolicy);
  }

  /** The blocks `first` passes to `then` and `catch`: forward the outcome to the parent's resolver. */
  method Forward<T, E>(resolver: Resolver<T, E>, o: Outcome<T, E>)
    modifies resolver, resolver.future
    ensures resolver.future == null
    ensures old(resolver.future) != null ==>
              old(resolver.future).Abs() == SettleStep(old(resolver.future.Abs()), o)
  {
    match o
    case Resolved(v) => resolver.Resolve(v);
    case Rejected(e) => resolver.Reject(e);
  }

  /** The parent of `first` has seen the completions `outs`. */
  ghost predicate FirstTracks<T, E>(parent: Future<T, E>, resolver: Resolver<T, E>, outs: seq<Outcome<T, E>>)
    reads parent, resolver
  {
    && parent.Abs() == Holding(FirstOutcome(outs))
    && (resolver.future == null <==> Settlement(parent.Abs()).Some?)
    && (resolver.future != null ==> resolver.future == parent)
  }

  /**
   * `Futures.first`: the parent holds the outcome of the first completion;
   * every later one reaches a spent resolver and changes nothing.
   */
  method First<T, E>(inputs: seq<Option<Outcome<T, E>>>, later: seq<Completion<T, E>>)
    returns (parent: Future<T, E>)
    ensures fresh(parent)
    ensures parent.Abs() == Holding(FirstOutcome(CompletionOrder(inputs, later)))
  {
    var resolver;
    parent, resolver := NewFuture();
    // futures.forEach { $0.then { resolve }.catch { reject } }: a settled input forwards at once
    for i := 0 to |inputs|
      invariant FirstTracks(parent, resolver, SettledOutcomes(inputs[..i]))
    {
      assert inputs[..i + 1][..i] == inputs[..i];
      if inputs[i].Some? {
        Forward(resolver, inputs[i].value);
      }
    }
    assert inputs[..|inputs|] == inputs;
    for j := 0 to |later|
      invariant FirstTracks(parent, resolver, CompletionOrder(inputs, later[..j]))
    {
      assert later[..j + 1][..j] == later[..j];
      Forward(resolver, later[j].outcome);
    }
    assert later[..|later|] == later;
  }
}
