/** Two places where the cell does not do what it evidently means to do,
    each shown on the definition as written, next to a corrected definition
    with the intended property proved.
 */
module ThunkFindings {
  import opened Common
  import opened Thunks

  /* ---------------------------------------------------------------------- */
  /* Clone of a pure success                                                */
  /* ---------------------------------------------------------------------- */

  /** As written, `Clone` of a pure success keeps the state but not the
      value: for any value other than `default(A)` the clone answers
      differently from the original. */
  lemma CloneDropsSuccessValue<A(0)>(v: A, n: nat)
    requires v != Default<A>()
    ensures Value(Clone(Success(v)), n).result != Value(Success(v), n).result
  {
    assert Value(Clone(Success(v)), n).result == Succ(Default());
  }

  /** The concrete inputs: the clones of `Success(42)` and `Success(43)`
      answer alike, both `Succ(default(int))`, so at least one of them does
      not answer its original's value. */
  lemma CloneDropsSuccessValueExample()
    ensures Value(Clone(Success(42)), 0).result == Value(Clone(Success(43)), 0).result
    ensures Value(Clone(Success(42)), 0).result != Succ(42)
         || Value(Clone(Success(43)), 0).result != Succ(43)
  {
    assert Value(Clone(Success(42)), 0).result == Succ(Default<int>());
    assert Value(Clone(Success(43)), 0).result == Succ(Default<int>());
  }

  /** `Clone` copying a pure cell exactly, value included, so that the clone
      of a pure success answers as the original does, just as the clones of
      pure failed and cancelled cells already do. */
  ghost function CloneExact<A(0)>(t: Thunk<A>): (c: Thunk<A>)
    ensures Valid(t) ==> Valid(c)
    ensures t.fun.Some? ==> c == Clone(t)
    ensures IsPure(t) ==> c == t
  {
    if t.fun.None? then Thunk(None, t.state, t.error, t.value)
    else Lazy(t.fun.value)
  }

  /** The corrected clone of a pure cell answers exactly as the original, in
      every state, and runs nothing. */
  lemma CloneExactReplays<A(0)>(t: Thunk<A>, n: nat)
    requires Valid(t) && IsPure(t)
    ensures Value(CloneExact(t), n) == Value(t, n)
    ensures Value(CloneExact(t), n).invocations == n
  {
  }

  /* ---------------------------------------------------------------------- */
  /* BiMap of an unevaluated cell: exceptions that skip `Fail`              */
  /* ---------------------------------------------------------------------- */

  /** As written, when the source producer throws, the exception leaves the
      derived producer untouched by `Fail`: the derived cell answers with the
      raw exception, while bi-mapping the same source after evaluating it
      answers with `Fail` of that exception. */
  lemma BiMapLazySkipsFail<A(0), B(0)>(p: Producer<A>, succ: A -> Call<B>, fail: Error -> Call<Error>, n: nat)
    requires p(n).Throws?
    requires fail(p(n).exn).Returns? && fail(p(n).exn).result != p(n).exn
    ensures
      var t := Lazy(p);
      var lazily := BiMap(t, succ, fail);
      var eagerly := BiMap(Value(t, n).cell, succ, fail);
      && lazily.Returns? && eagerly.Returns?
      && Value(lazily.result, n).result == Fail(p(n).exn)
      && Value(eagerly.result, n + 1).result == Fail(fail(p(n).exn).result)
      && Value(lazily.result, n).result != Value(eagerly.result, n + 1).result
  {
    var t := Lazy(p);
    var e := p(n).exn;
    var source := Value(t, n);
    assert source.result == Fail(e);
    if e.message == CancelledText {
      assert source.cell.state == IsCancelled;
      assert e == Cancellation();
    } else {
      assert source.cell.state == IsFailed;
    }
  }

  /** As written, the same happens when the producer returns a success and
      `Succ` throws on it: the exception escapes the derived producer, so the
      lazily built cell answers it raw, while the eager branch passes it
      through `Fail` in its `catch`. */
  lemma BiMapLazySkipsFailOnSucc<A(0), B(0)>(p: Producer<A>, succ: A -> Call<B>, fail: Error -> Call<Error>, n: nat)
    requires p(n).Returns? && p(n).result.Succ?
    requires succ(p(n).result.value).Throws?
    requires var e := succ(p(n).result.value).exn; fail(e).Returns? && fail(e).result != e
    ensures
      var e := succ(p(n).result.value).exn;
      var t := Lazy(p);
      var lazily := BiMap(t, succ, fail);
      var eagerly := BiMap(Value(t, n).cell, succ, fail);
      && lazily.Returns? && eagerly.Returns?
      && Value(lazily.result, n).result == Fail(e)
      && Value(eagerly.result, n + 1).result == Fail(fail(e).result)
      && Value(lazily.result, n).result != Value(eagerly.result, n + 1).result
  {
  }

  /** As written, and likewise when the producer returns a failure and `Fail`
      throws on it: the lazily built cell answers that exception raw, while
      the eager branch passes it through `Fail` once more in its `catch`. */
  lemma BiMapLazySkipsFailOnFail<A(0), B(0)>(p: Producer<A>, succ: A -> Call<B>, fail: Error -> Call<Error>, n: nat)
    requires p(n).Returns? && p(n).result.Fail?
    requires fail(p(n).result.error).Throws?
    requires var x := fail(p(n).result.error).exn; fail(x).Returns? && fail(x).result != x
    ensures
      var x := fail(p(n).result.error).exn;
      var t := Lazy(p);
      var lazily := BiMap(t, succ, fail);
      var eagerly := BiMap(Value(t, n).cell, succ, fail);
      && lazily.Returns? && eagerly.Returns?
      && Value(lazily.result, n).result == Fail(x)
      && Value(eagerly.result, n + 1).result == Fail(fail(x).result)
      && Value(lazily.result, n).result != Value(eagerly.result, n + 1).result
  {
  }

  /** The producer the corrected `BiMap` builds: it catches the source's
      exception, as `Eval` would, and bi-maps the caught outcome. */
  function BiMapCaughtCall<A, B>(c: Call<Fin<A>>, succ: A -> Call<B>, fail: Error -> Call<Error>): Call<Fin<B>>
  {
    BiMapFin(Caught(c), succ, fail)
  }

  /** `BiMap` whose lazy branch answers what the eager branches answer for
      the same outcome: the source's exception is turned into data first, and
      an exception from `Succ` or `Fail` goes through `Fail` as in the
      `catch`. */
  ghost function BiMapCaught<A, B(0)>(t: Thunk<A>, succ: A -> Call<B>, fail: Error -> Call<Error>): (r: Call<Thunk<B>>)
    requires Valid(t)
    ensures r.Returns? ==> Valid(r.result)
    ensures IsTerminal(t.state) ==> r == BiMap(t, succ, fail)
    ensures t.state == NotEvaluated ==>
      && r.Returns? && r.result.state == NotEvaluated && r.result.fun.Some?
      && forall k: nat :: r.result.fun.value(k) == BiMapFin(Caught(t.fun.value(k)), succ, fail)
  {
    if t.state == NotEvaluated then
      var fun := t.fun.value;
      Returns(Lazy((k: nat) => BiMapCaughtCall(fun(k), succ, fail)))
    else
      BiMap(t, succ, fail)
  }

  /** With the correction, evaluating the bi-mapped cell answers what
      bi-mapping the source's answer does, whether or not the source had been
      evaluated and whatever its producer did, as long as the transforms
      themselves do not throw on that answer. */
  lemma BiMapCaughtNatural<A, B(0)>(t: Thunk<A>, succ: A -> Call<B>, fail: Error -> Call<Error>, n: nat)
    requires Valid(t)
    requires BiMapFin(Value(t, n).result, succ, fail).Returns?
    ensures BiMapCaught(t, succ, fail).Returns?
    ensures Value(BiMapCaught(t, succ, fail).result, n).result
         == BiMapFin(Value(t, n).result, succ, fail).result
  {
  }
}
