/**
 * The scenarios of the library's test suite (Tests/FutureTests), stated on
 * the model. A future settled inside its initializer is an input already
 * settled at registration; one settled from a delayed dispatch is a later
 * completion.
 */
module Scenarios {
  import opened FutureCore
  import opened Futures

  datatype TestError = Failure | OtherFailure

  /** Running one more operation is one more step. */
  lemma RunSnoc<T, E>(ops: seq<Op<T, E>>, op: Op<T, E>)
    ensures Run(Init(), ops + [op]) == Step(Run(Init(), ops), op)
  {
    assert (ops + [op])[..|ops|] == ops;
  }

  /** testSuccessFuture and testChaining: `then(h1).then(h2).catch(h3)` on a future resolved with true. */
  lemma ChainedThenSeesValue()
    ensures Run<bool, TestError>(Init(), [Settle(Resolved(true)), Register(ThenBlock(1)),
                                          Register(ThenBlock(2)), Register(CatchBlock(3))]).trace
            == [ThenFired(1, true), ThenFired(2, true)]
  {
    var o1: seq<Op<bool, TestError>> := [Settle(Resolved(true))];
    var o2 := o1 + [Register(ThenBlock(1))];
    var o3 := o2 + [Register(ThenBlock(2))];
    RunSnoc([], o1[0]);
    RunSnoc(o1, Register(ThenBlock(1)));
    RunSnoc(o2, Register(ThenBlock(2)));
    RunSnoc(o3, Register(CatchBlock(3)));
    assert o3 + [Register(CatchBlock(3))] ==
      [Settle(Resolved(true)), Register(ThenBlock(1)), Register(ThenBlock(2)), Register(CatchBlock(3))];
  }

  /** testFailingFuture: `then` registered on a rejected future never runs; `catch` gets the error. */
  lemma RejectedFutureSkipsThen()
    ensures Run<bool, TestError>(Init(), [Settle(Rejected(Failure)), Register(ThenBlock(1)),
                                          Register(CatchBlock(2))]).trace
            == [CatchFired(2, Failure)]
  {
    var o1: seq<Op<bool, TestError>> := [Settle(Rejected(Failure))];
    var o2 := o1 + [Register(ThenBlock(1))];
    RunSnoc([], o1[0]);
    RunSnoc(o1, Register(ThenBlock(1)));
    RunSnoc(o2, Register(CatchBlock(2)));
    assert o2 + [Register(CatchBlock(2))] ==
      [Settle(Rejected(Failure)), Register(ThenBlock(1)), Register(CatchBlock(2))];
  }

  /** testAsync: a `then` registered while pending runs once the future resolves. */
  lemma ThenBeforeResolution()
    ensures Run<bool, TestError>(Init(), [Register(ThenBlock(1)), Register(CatchBlock(2)),
                                          Settle(Resolved(true))]).trace
            == [ThenFired(1, true)]
  {
    var o1: seq<Op<bool, TestError>> := [Register(ThenBlock(1))];
    var o2 := o1 + [Register(CatchBlock(2))];
    RunSnoc([], o1[0]);
    RunSnoc(o1, Register(CatchBlock(2)));
    RunSnoc(o2, Settle(Resolved(true)));
    assert o2 + [Settle(Resolved(true))] ==
      [Register(ThenBlock(1)), Register(CatchBlock(2)), Settle(Resolved(true))];
    var pending := Run(Init(), o2);
    assert pending.observers == [ThenObserver(1)];
    assert FireValueObservers<bool, TestError>([ThenObserver(1)], true) == [ThenFired(1, true)];
  }

  /** testAlways: `always` on a rejected future gets (nil, error), on a resolved one (value, nil). */
  lemma AlwaysGetsOneSide()
    ensures Run<bool, TestError>(Init(), [Settle(Rejected(OtherFailure)), Register(AlwaysBlock(1))]).trace
            == [AlwaysFired(1, None, Some(OtherFailure))]
    ensures Run<bool, TestError>(Init(), [Settle(Resolved(true)), Register(AlwaysBlock(2))]).trace
            == [AlwaysFired(2, Some(true), None)]
  {
    var o1: seq<Op<bool, TestError>> := [Settle(Rejected(OtherFailure))];
    var p1: seq<Op<bool, TestError>> := [Settle(Resolved(true))];
    RunSnoc([], o1[0]);
    RunSnoc(o1, Register(AlwaysBlock(1)));
    RunSnoc([], p1[0]);
    RunSnoc(p1, Register(AlwaysBlock(2)));
    assert [] + o1 == o1 && [] + p1 == p1;
  }

  /** One input resolved at registration with 1, the other resolving later with 2. */
  function OneThenTwo(): (seq<Option<Outcome<int, TestError>>>, seq<Completion<int, TestError>>)
  {
    ([Some(Resolved(1)), None], [Completion(1, Resolved(2))])
  }

  /** One input resolved at registration with 1, the other rejecting later. */
  function OneThenFailure(): (seq<Option<Outcome<int, TestError>>>, seq<Completion<int, TestError>>)
  {
    ([Some(Resolved(1)), None], [Completion(1, Rejected(Failure))])
  }

  /** One input rejected at registration, the other rejecting later. */
  function FailureThenFailure(): (seq<Option<Outcome<int, TestError>>>, seq<Completion<int, TestError>>)
  {
    ([Some(Rejected(Failure)), None], [Completion(1, Rejected(Failure))])
  }

  lemma CompletionOrders()
    ensures CompletionOrder(OneThenTwo().0, OneThenTwo().1) == [Resolved(1), Resolved(2)]
    ensures CompletionOrder(OneThenFailure().0, OneThenFailure().1) == [Resolved(1), Rejected(Failure)]
    ensures CompletionOrder(FailureThenFailure().0, FailureThenFailure().1) == [Rejected(Failure), Rejected(Failure)]
  {
    var a: seq<Option<Outcome<int, TestError>>> := [Some(Resolved(1)), None];
    var b: seq<Option<Outcome<int, TestError>>> := [Some(Rejected(Failure)), None];
    assert a[..1] == [Some(Resolved(1))] && a[..1][..0] == [];
    assert b[..1] == [Some(Rejected(Failure))] && b[..1][..0] == [];
    assert SettledOutcomes(a) == [Resolved(1)];
    assert SettledOutcomes(b) == [Rejected(Failure)];
    var l1: seq<Completion<int, TestError>> := [Completion(1, Resolved(2))];
    var l2: seq<Completion<int, TestError>> := [Completion(1, Rejected(Failure))];
    assert l1[..0] == [] && l2[..0] == [];
    assert LaterOutcomes(l1) == [Resolved(2)];
    assert LaterOutcomes(l2) == [Rejected(Failure)];
  }

  /** FutureAllTests: 2 results; 1 error; 2 errors. */
  lemma AllScenarios()
    ensures Aggregate(AllPolicy, 2, CompletionOrder(OneThenTwo().0, OneThenTwo().1))
            == Some(Resolved(ResultCollection([1, 2])))
    ensures Aggregate(AllPolicy, 2, CompletionOrder(OneThenFailure().0, OneThenFailure().1))
            == Some(Rejected(ErrorCollection([Failure])))
    ensures Aggregate(AllPolicy, 2, CompletionOrder(FailureThenFailure().0, FailureThenFailure().1))
            == Some(Rejected(ErrorCollection([Failure, Failure])))
  {
    CompletionOrders();
    SuccessesFailuresOfPairs();
  }

  /** FutureAnyTests: 2 results; 1 result; 2 errors. */
  lemma AnyScenarios()
    ensures Aggregate(AnyPolicy, 2, CompletionOrder(OneThenTwo().0, OneThenTwo().1))
            == Some(Resolved(ResultCollection([1, 2])))
    ensures Aggregate(AnyPolicy, 2, CompletionOrder(OneThenFailure().0, OneThenFailure().1))
            == Some(Resolved(ResultCollection([1])))
    ensures Aggregate(AnyPolicy, 2, CompletionOrder(FailureThenFailure().0, FailureThenFailure().1))
            == Some(Rejected(ErrorCollection([Failure, Failure])))
  {
    CompletionOrders();
    SuccessesFailuresOfPairs();
  }

  lemma SuccessesFailuresOfPairs()
    ensures Successes<int, TestError>([Resolved(1), Resolved(2)]) == [1, 2]
    ensures Failures<int, TestError>([Resolved(1), Resolved(2)]) == []
    ensures Successes<int, TestError>([Resolved(1), Rejected(Failure)]) == [1]
    ensures Failures<int, TestError>([Resolved(1), Rejected(Failure)]) == [Failure]
    ensures Successes<int, TestError>([Rejected(Failure), Rejected(Failure)]) == []
    ensures Failures<int, TestError>([Rejected(Failure), Rejected(Failure)]) == [Failure, Failure]
  {
    var p: seq<Outcome<int, TestError>> := [Resolved(1), Resolved(2)];
    var q: seq<Outcome<int, TestError>> := [Resolved(1), Rejected(Failure)];
    var r: seq<Outcome<int, TestError>> := [Rejected(Failure), Rejected(Failure)];
    assert p[..1][..0] == [] && q[..1][..0] == [] && r[..1][..0] == [];
    assert p[..2] == p && q[..2] == q && r[..2] == r;
  }

  /** FutureFirstTests: the input settled at registration wins over the later one. */
  lemma FirstScenarios()
    ensures FirstOutcome(CompletionOrder(OneThenTwo().0, OneThenTwo().1)) == Some(Resolved(1))
    ensures FirstOutcome(CompletionOrder<int, TestError>([Some(Rejected(Failure)), None],
                                                         [Completion(1, Rejected(OtherFailure))]))
            == Some(Rejected(Failure))
  {
    FirstEarliestSettledWins(OneThenTwo().0, OneThenTwo().1, 0);
    FirstEarliestSettledWins<int, TestError>([Some(Rejected(Failure)), None], [Completion(1, Rejected(OtherFailure))], 0);
  }

  /**
   * `then(1).catch(2)` on the parent of `Futures.all`, as in FutureAllTests:
   * only the `then` block runs, with both results; only the `catch` block
   * runs, with one error; only the `catch` block runs, with both errors.
   */
  method AllTestsThroughFutures()
    returns (p1: Future<ResultCollection<int>, ErrorCollection<TestError>>,
             p2: Future<ResultCollection<int>, ErrorCollection<TestError>>,
             p3: Future<ResultCollection<int>, ErrorCollection<TestError>>)
    ensures p1.trace == [ThenFired(1, ResultCollection([1, 2]))]
    ensures p2.trace == [CatchFired(2, ErrorCollection([Failure]))]
    ensures p3.trace == [CatchFired(2, ErrorCollection([Failure, Failure]))]
  {
    AllScenarios();
    p1 := All(OneThenTwo().0, OneThenTwo().1);
    p1 := p1.Then(1);
    p1 := p1.Catch(2);
    p2 := All(OneThenFailure().0, OneThenFailure().1);
    p2 := p2.Then(1);
    p2 := p2.Catch(2);
    p3 := All(FailureThenFailure().0, FailureThenFailure().1);
    p3 := p3.Then(1);
    p3 := p3.Catch(2);
  }

  /**
   * `then(1).catch(2)` on the parent of `Futures.any`, as in FutureAnyTests:
   * the `then` block gets both results; the `then` block gets the one
   * result; the `catch` block gets both errors.
   */
  method AnyTestsThroughFutures()
    returns (p1: Future<ResultCollection<int>, ErrorCollection<TestError>>,
             p2: Future<ResultCollection<int>, ErrorCollection<TestError>>,
             p3: Future<ResultCollection<int>, ErrorCollection<TestError>>)
    ensures p1.trace == [ThenFired(1, ResultCollection([1, 2]))]
    ensures p2.trace == [ThenFired(1, ResultCollection([1]))]
    ensures p3.trace == [CatchFired(2, ErrorCollection([Failure, Failure]))]
  {
    AnyScenarios();
    p1 := Any(OneThenTwo().0, OneThenTwo().1);
    p1 := p1.Then(1);
    p1 := p1.Catch(2);
    p2 := Any(OneThenFailure().0, OneThenFailure().1);
    p2 := p2.Then(1);
    p2 := p2.Catch(2);
    p3 := Any(FailureThenFailure().0, FailureThenFailure().1);
    p3 := p3.Then(1);
    p3 := p3.Catch(2);
  }

  /**
   * `Futures.first(...).then(1).catch(2)`, as in FutureFirstTests: the
   * `then` block gets 1; the `catch` block gets `.failure`.
   */
  method FirstTestsThroughFutures() returns (p1: Future<int, TestError>, p2: Future<int, TestError>)
    ensures p1.trace == [ThenFired(1, 1)]
    ensures p2.trace == [CatchFired(2, Failure)]
  {
    FirstScenarios();
    p1 := First(OneThenTwo().0, OneThenTwo().1);
    p1 := p1.Then(1);
    p1 := p1.Catch(2);
    p2 := First([Some(Rejected(Failure)), None], [Completion(1, Rejected(OtherFailure))]);
    p2 := p2.Then(1);
    p2 := p2.Catch(2);
  }
}
