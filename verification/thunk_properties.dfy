/** What the cell promises across several calls: the transition table,
    memoisation, reset, clone, and how the functor layer commutes with
    evaluation.
 */
module ThunkProperties {
  import opened Common
  import opened Thunks

  /* ---------------------------------------------------------------------- */
  /* State machine                                                          */
  /* ---------------------------------------------------------------------- */

  /** `Eval` moves a cell only along the table: from `NotEvaluated` through
      the claimed `Evaluating` cell (which is the cell the producer's outcome
      is published into) to a terminal state; from a terminal state it does
      not move at all. */
  lemma EvalFollowsTable<A>(t: Thunk<A>, n: nat)
    requires Valid(t)
    ensures t.state == NotEvaluated ==>
      var claimed := Claim(t).1;
      && Claim(t).0 && claimed.state == Evaluating
      && Transition(t.state, claimed.state)
      && Transition(claimed.state, Eval(t, n).cell.state)
      && Eval(t, n) == Publish(claimed, t.fun.value(n), n + 1)
    ensures t.state != NotEvaluated ==> !Claim(t).0 && Eval(t, n).cell.state == t.state
  {
  }

  /** `ReValue` moves a producer-backed cell along the table: a terminal
      state is reset to `NotEvaluated`, then claimed and published anew, and
      the reset cell is what gets evaluated. A pure cell does not move. */
  lemma ReValueFollowsTable<A>(t: Thunk<A>, n: nat)
    requires Valid(t)
    ensures t.fun.Some? ==>
      var reset := if IsTerminal(t.state) then t.(state := NotEvaluated) else t;
      && Valid(reset) && reset.state == NotEvaluated
      && (IsTerminal(t.state) ==> Transition(t.state, reset.state))
      && Transition(reset.state, Evaluating)
      && Transition(Evaluating, ReValue(t, n).cell.state)
      && ReValue(t, n) == Eval(reset, n)
    ensures IsPure(t) ==> ReValue(t, n).cell == t && ReValue(t, n).invocations == n
  {
  }

  /* ---------------------------------------------------------------------- */
  /* Memoisation                                                            */
  /* ---------------------------------------------------------------------- */

  /** The pure constructors answer their outcome on every `Value()` and
      never change: a success its value, a failure its error, a cancellation
      a failure carrying the cancellation text. */
  lemma PureCellsAnswer<A(0)>(v: A, e: Error, n: nat)
    ensures Value(Success(v), n) == Evaluated(Success(v), Succ(v), n)
    ensures Value(Failed<A>(e), n) == Evaluated(Failed(e), Fail(e), n)
    ensures Value(Cancelled<A>(), n) == Evaluated(Cancelled(), Fail(Cancellation()), n)
  {
  }

  /** Once a cell has answered, every later `Value()` gives the same answer,
      leaves the cell as it is and invokes nothing. */
  lemma Memoised<A>(t: Thunk<A>, n: nat, m: nat)
    requires Valid(t)
    ensures var r := Value(t, n); Value(r.cell, m) == Evaluated(r.cell, r.result, m)
  {
  }

  /** Calling `Value()` `times` times in a row: the producer runs at most once
      (exactly once from an unevaluated cell) and every call returns the
      answer of the first. */
  method ValueRepeatedly<A>(t: Thunk<A>, n: nat, times: nat)
    returns (results: seq<Fin<A>>, last: Thunk<A>, m: nat)
    requires Valid(t)
    ensures |results| == times && Valid(last)
    ensures times == 0 ==> last == t && m == n
    ensures times > 0 ==> last == Value(t, n).cell && m == Value(t, n).invocations
    ensures forall i :: 0 <= i < times ==> results[i] == Value(t, n).result
    ensures m <= n + 1
    ensures IsTerminal(t.state) ==> last == t && m == n
  {
    results := [];
    last := t;
    m := n;
    var i := 0;
    while i < times
      invariant 0 <= i <= times && |results| == i && Valid(last)
      invariant i == 0 ==> last == t && m == n
      invariant i > 0 ==> last == Value(t, n).cell && m == Value(t, n).invocations
      invariant forall j :: 0 <= j < i ==> results[j] == Value(t, n).result
    {
      var r := Value(last, m);
      results := results + [r.result];
      last, m := r.cell, r.invocations;
      i := i + 1;
    }
  }

  /* ---------------------------------------------------------------------- */
  /* ReValue                                                                */
  /* ---------------------------------------------------------------------- */

  /** Calling `ReValue()` `times` times in a row on a producer-backed cell
      runs the producer every time and returns its successive answers; on a
      pure cell it returns the fixed outcome every time and runs nothing. */
  method ReValueRepeatedly<A>(t: Thunk<A>, n: nat, times: nat)
    returns (results: seq<Fin<A>>, m: nat)
    requires Valid(t)
    ensures |results| == times
    ensures t.fun.Some? ==> m == n + times
    ensures t.fun.Some? ==> forall i :: 0 <= i < times ==> results[i] == Caught(t.fun.value(n + i))
    ensures IsPure(t) ==> m == n && forall i :: 0 <= i < times ==> results[i] == Observe(t)
  {
    results := [];
    m := n;
    var cell := t;
    var i := 0;
    while i < times
      invariant 0 <= i <= times && |results| == i
      invariant Valid(cell) && cell.fun == t.fun
      invariant IsPure(t) ==> cell == t
      invariant t.fun.Some? ==> m == n + i
      invariant IsPure(t) ==> m == n
      invariant t.fun.Some? ==> forall j :: 0 <= j < i ==> results[j] == Caught(t.fun.value(n + j))
      invariant IsPure(t) ==> forall j :: 0 <= j < i ==> results[j] == Observe(t)
    {
      var r := ReValue(cell, m);
      results := results + [r.result];
      cell, m := r.cell, r.invocations;
      i := i + 1;
    }
  }

  /** A producer that answers one more than the number of earlier runs gives
      1, then 2, then 3 under `Value`, `ReValue`, `ReValue`. */
  lemma CountingProducer()
    ensures
      var t := Lazy<int>((k: nat) => Returns(Succ(k + 1)));
      var r1 := Value(t, 0);
      var r2 := ReValue(r1.cell, r1.invocations);
      var r3 := ReValue(r2.cell, r2.invocations);
      && r1.result == Succ(1) && r2.result == Succ(2) && r3.result == Succ(3)
      && r3.invocations == 3
  {
  }

  /* ---------------------------------------------------------------------- */
  /* Clone                                                                  */
  /* ---------------------------------------------------------------------- */

  /** Cloning a producer-backed cell and evaluating the clone does what
      `ReValue` on the original does: the producer runs once more, whatever
      the original had memoised. */
  lemma CloneThenValueIsReValue<A(0)>(t: Thunk<A>, n: nat)
    requires Valid(t) && t.fun.Some?
    ensures Value(Clone(t), n).result == ReValue(t, n).result
    ensures Value(Clone(t), n).invocations == ReValue(t, n).invocations == n + 1
    ensures Value(Clone(t), n).cell.state == ReValue(t, n).cell.state
  {
  }

  /** Cloning a pure failed or cancelled cell keeps its outcome, while a clone
      of a pure success answers with `default(A)` instead of the value. */
  lemma ClonePureOutcome<A(0)>(t: Thunk<A>, n: nat)
    requires Valid(t) && IsPure(t)
    ensures t.state != IsSuccess ==> Value(Clone(t), n) == Evaluated(Clone(t), Value(t, n).result, n)
    ensures t.state == IsSuccess ==> Value(Clone(t), n).result == Succ(Default())
  {
  }

  /* ---------------------------------------------------------------------- */
  /* Map                                                                    */
  /* ---------------------------------------------------------------------- */

  /** A derived producer call, once its exception is caught, is the source
      call caught and then mapped. */
  lemma MapCallCaught<A, B>(c: Call<Fin<A>>, f: A -> Call<B>)
    ensures Caught(MapCall(c, f)) == MapFin(Caught(c), f)
  {
  }

  /** Evaluating `Map(f)` of a cell answers what evaluating the cell and then
      mapping its answer does, with as many producer invocations, whether the
      cell was evaluated when `Map` was called or not. */
  lemma MapNatural<A, B(0)>(t: Thunk<A>, f: A -> Call<B>, n: nat)
    requires Valid(t)
    ensures Value(Map(t, f), n).result == MapFin(Value(t, n).result, f)
    ensures Value(Map(t, f), n).invocations == Value(t, n).invocations
  {
    if t.state == NotEvaluated {
      MapCallCaught(t.fun.value(n), f);
    }
  }

  /** The derived cell of an unevaluated source calls the source's raw
      producer, not its memoising `Eval`: evaluating the source and then the
      derived cell runs the producer twice, and the derived answer is the
      second run's, not the source's memoised one. Mapping after evaluating
      runs nothing more. */
  lemma MapRerunsProducer<A, B(0)>(t: Thunk<A>, f: A -> Call<B>, n: nat)
    requires Valid(t) && t.state == NotEvaluated
    ensures
      var source := Value(t, n);
      var early := Value(Map(t, f), source.invocations);
      var late := Value(Map(source.cell, f), source.invocations);
      && early.invocations == n + 2
      && early.result == MapFin(Caught(t.fun.value(n + 1)), f)
      && late.invocations == n + 1
      && late.result == MapFin(source.result, f)
  {
    MapCallCaught(t.fun.value(n + 1), f);
  }

  /* ---------------------------------------------------------------------- */
  /* BiMap                                                                  */
  /* ---------------------------------------------------------------------- */

  /** When neither transform throws and the producer returns rather than
      throws, evaluating `BiMap` of a cell answers what bi-mapping the cell's
      answer does, whether the cell was evaluated when `BiMap` was called or
      not. */
  lemma BiMapNatural<A, B(0)>(t: Thunk<A>, succ: A -> Call<B>, fail: Error -> Call<Error>, n: nat)
    requires Valid(t)
    requires forall a: A :: succ(a).Returns?
    requires forall e: Error :: fail(e).Returns?
    requires t.state == NotEvaluated ==> t.fun.value(n).Returns?
    ensures BiMap(t, succ, fail).Returns?
    ensures BiMapFin(Value(t, n).result, succ, fail).Returns?
    ensures Value(BiMap(t, succ, fail).result, n).result == BiMapFin(Value(t, n).result, succ, fail).result
  {
  }
}
