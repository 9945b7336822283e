/** The memoising lazy cell `Thunk<A>` in its sequential reading.

    A cell is an immutable value; every operation that the library performs by
    mutating the object returns the successor cell instead. The producer is an
    oracle indexed by how many producer invocations the world has seen so far
    (`n` below), so a side-effecting producer can answer differently each time,
    and every operation that may invoke a producer returns the new count.
    The compare-and-swap that claims a cell is an atomic step, so `Evaluating`
    is never observed between two operations.
 */
module Thunks {
  import opened Common

  /* ---------------------------------------------------------------------- */
  /* States                                                                 */
  /* ---------------------------------------------------------------------- */

  datatype State = NotEvaluated | Evaluating | IsSuccess | IsCancelled | IsFailed

  /** The order of the library's integer state constants. Their values are
      defined outside this model; only the order matters, and it is assumed
      to be the order of declaration. */
  function Rank(s: State): nat
  {
    match s
    case NotEvaluated => 0
    case Evaluating => 1
    case IsSuccess => 2
    case IsCancelled => 3
    case IsFailed => 4
  }

  predicate IsTerminal(s: State)
  {
    s == IsSuccess || s == IsCancelled || s == IsFailed
  }

  /** The `state >= Thunk.IsSuccess` test of `ReValue`: it holds exactly of
      the terminal states. */
  function HasRun(s: State): (r: bool)
    ensures r <==> IsTerminal(s)
  {
    Rank(s) >= Rank(IsSuccess)
  }

  /** The transition table of the state register: claim, publish, reset. */
  predicate Transition(from: State, to: State)
  {
    || (from == NotEvaluated && to == Evaluating)
    || (from == Evaluating && IsTerminal(to))
    || (IsTerminal(from) && to == NotEvaluated)
  }

  /* ---------------------------------------------------------------------- */
  /* The cell                                                               */
  /* ---------------------------------------------------------------------- */

  /** `fun` returns on its invocation number `n` (counted over the whole
      world) either a `Fin` or an exception. */
  type Producer<A> = nat -> Call<Fin<A>>

  /** The four fields of the class: the producer (absent for a pure cell), the
      state register and the two result slots. An error slot that was never
      written is `None` (the library's `null`). */
  datatype Thunk<A> = Thunk(fun: Option<Producer<A>>, state: State, error: Option<Error>, value: A)

  predicate IsPure<A>(t: Thunk<A>)
  {
    t.fun.None?
  }

  /** What holds of every cell between two operations: no claim is in flight,
      a pure cell is terminal, and a failed or cancelled cell has its error. */
  predicate Valid<A>(t: Thunk<A>)
  {
    && t.state != Evaluating
    && (IsPure(t) ==> IsTerminal(t.state))
    && (t.state == IsFailed || t.state == IsCancelled ==> t.error.Some?)
  }

  /** The C# `default(A)` an unwritten value slot holds. */
  ghost function Default<A(0)>(): A
  {
    var d: A :| true; d
  }

  /** What a terminal cell reports when it is read without running anything. */
  function Observe<A>(t: Thunk<A>): Fin<A>
    requires Valid(t) && IsTerminal(t.state)
  {
    if t.state == IsSuccess then Succ(t.value)
    else if t.state == IsCancelled then Fail(Cancellation())
    else Fail(t.error.value)
  }

  /* ---------------------------------------------------------------------- */
  /* Constructors                                                           */
  /* ---------------------------------------------------------------------- */

  /** `Thunk<A>.Lazy(fun)`. The library rejects a null producer; here the
      producer's type has no null. */
  ghost function Lazy<A(0)>(fun: Producer<A>): (t: Thunk<A>)
    ensures Valid(t) && !IsPure(t)
    ensures t.state == NotEvaluated && t.fun == Some(fun)
  {
    Thunk(Some(fun), NotEvaluated, None, Default())
  }

  /** `Thunk<A>.Success(value)` */
  function Success<A>(value: A): (t: Thunk<A>)
    ensures Valid(t) && IsPure(t) && t.state == IsSuccess
    ensures Observe(t) == Succ(value)
  {
    Thunk(None, IsSuccess, None, value)
  }

  /** `Thunk<A>.Fail(error)` */
  ghost function Failed<A(0)>(error: Error): (t: Thunk<A>)
    ensures Valid(t) && IsPure(t) && t.state == IsFailed
    ensures Observe(t) == Fail(error)
  {
    Thunk(None, IsFailed, Some(error), Default())
  }

  /** `Thunk<A>.Cancelled()`: its error carries the cancellation text. */
  ghost function Cancelled<A(0)>(): (t: Thunk<A>)
    ensures Valid(t) && IsPure(t) && t.state == IsCancelled
    ensures t.error.Some? && t.error.value.message == CancelledText
    ensures Observe(t) == Fail(Cancellation())
  {
    Thunk(None, IsCancelled, Some(Cancellation()), Default())
  }

  /* ---------------------------------------------------------------------- */
  /* The Eval engine                                                        */
  /* ---------------------------------------------------------------------- */

  /** The successor cell, the result handed to the caller, and the world's
      producer-invocation count after the call. */
  datatype Evaluated<A> = Evaluated(cell: Thunk<A>, result: Fin<A>, invocations: nat)

  /** The compare-and-swap `NotEvaluated -> Evaluating`: whether this caller
      won the claim, and the cell after the attempt. */
  function Claim<A>(t: Thunk<A>): (bool, Thunk<A>)
  {
    if t.state == NotEvaluated then (true, t.(state := Evaluating)) else (false, t)
  }

  /** The winner stores the outcome of the producer call and publishes the
      terminal state as its last write. */
  function Publish<A>(t: Thunk<A>, call: Call<Fin<A>>, n: nat): Evaluated<A>
    requires t.state == Evaluating
  {
    match call
    case Returns(Fail(e)) => Evaluated(t.(error := Some(e), state := IsFailed), Fail(e), n)
    case Returns(Succ(v)) => Evaluated(t.(value := v, state := IsSuccess), Succ(v), n)
    case Throws(e) =>
      var s := if e.message == CancelledText then IsCancelled else IsFailed;
      Evaluated(t.(error := Some(e), state := s), Fail(e), n)
  }

  /** `Eval()`: runs the producer exactly when the cell is unevaluated, and
      otherwise replays the memoised outcome. Exceptions become data. */
  function Eval<A>(t: Thunk<A>, n: nat): (r: Evaluated<A>)
    requires Valid(t)
    ensures Valid(r.cell) && IsTerminal(r.cell.state) && r.cell.fun == t.fun
    ensures t.state == NotEvaluated ==>
      var call := t.fun.value(n);
      && r.invocations == n + 1
      && r.result == Caught(call)
      && (r.cell.state == IsSuccess <==> call.Returns? && call.result.Succ?)
      && (r.cell.state == IsCancelled <==> call.Throws? && call.exn.message == CancelledText)
      && (r.result.Succ? ==> r.cell.value == r.result.value && r.cell.error == t.error)
      && (r.result.Fail? ==> r.cell.error == Some(r.result.error) && r.cell.value == t.value)
    ensures t.state != NotEvaluated ==> r == Evaluated(t, Observe(t), n)
  {
    var (won, claimed) := Claim(t);
    if won then Publish(claimed, t.fun.value(n), n + 1)
    else Evaluated(t, Observe(t), n)
  }

  /** `Value()`: the result it returns is what the published cell replays,
      and at most one producer invocation happens. */
  function Value<A>(t: Thunk<A>, n: nat): (r: Evaluated<A>)
    requires Valid(t)
    ensures Valid(r.cell) && IsTerminal(r.cell.state) && r.cell.fun == t.fun
    ensures Observe(r.cell) == r.result
    ensures r.invocations == (if t.state == NotEvaluated then n + 1 else n)
  {
    Eval(t, n)
  }

  /** `ReValue()`: a producer-backed cell forgets its outcome and runs the
      producer once more; a pure cell replays its fixed outcome. */
  function ReValue<A>(t: Thunk<A>, n: nat): (r: Evaluated<A>)
    requires Valid(t)
    ensures Valid(r.cell) && IsTerminal(r.cell.state) && r.cell.fun == t.fun
    ensures t.fun.Some? ==> r.invocations == n + 1 && r.result == Caught(t.fun.value(n))
    ensures IsPure(t) ==> r == Evaluated(t, Observe(t), n)
  {
    var start := if t.fun.Some? && HasRun(t.state) then t.(state := NotEvaluated) else t;
    Value(start, n)
  }

  /* ---------------------------------------------------------------------- */
  /* Clone                                                                  */
  /* ---------------------------------------------------------------------- */

  /** `Clone()`: a producer-backed cell yields a fresh unevaluated cell on the
      same producer; a pure cell yields a cell with the same state and error,
      whose value slot holds `default(A)` (the value is not copied). */
  ghost function Clone<A(0)>(t: Thunk<A>): (c: Thunk<A>)
    ensures Valid(t) ==> Valid(c)
    ensures t.fun.Some? ==> c.fun == t.fun && c.state == NotEvaluated
    ensures IsPure(t) ==> IsPure(c) && c.state == t.state && c.error == t.error
    ensures IsPure(t) ==> c.value == Default()
  {
    if t.fun.None? then Thunk(None, t.state, t.error, Default())
    else Lazy(t.fun.value)
  }

  /* ---------------------------------------------------------------------- */
  /* Functor layer                                                          */
  /* ---------------------------------------------------------------------- */

  /** Mapping an outcome that is already data: `f` applied to a success, an
      exception from `f` becoming a failure, a failure passed through. */
  function MapFin<A, B>(r: Fin<A>, f: A -> Call<B>): Fin<B>
  {
    match r
    case Succ(a) => (match f(a) case Returns(b) => Succ(b) case Throws(e) => Fail(e))
    case Fail(e) => Fail(e)
  }

  /** One call of the producer `Map` builds: it calls the source's raw
      producer, so an exception from it or from `f` escapes the call. */
  function MapCall<A, B>(c: Call<Fin<A>>, f: A -> Call<B>): Call<Fin<B>>
  {
    match c
    case Throws(e) => Throws(e)
    case Returns(Fail(e)) => Returns(Fail(e))
    case Returns(Succ(a)) => (match f(a) case Returns(b) => Returns(Succ(b)) case Throws(e) => Throws(e))
  }

  /** `Map(f)`: a terminal cell is mapped at once into a pure cell (keeping
      cancellation); an unevaluated cell becomes a new lazy cell and nothing
      runs now. */
  ghost function Map<A, B(0)>(t: Thunk<A>, f: A -> Call<B>): (u: Thunk<B>)
    requires Valid(t)
    ensures Valid(u)
    ensures u.state == NotEvaluated <==> t.state == NotEvaluated
    ensures u.state == IsCancelled <==> t.state == IsCancelled
    ensures t.state == NotEvaluated ==>
      u.fun.Some? && forall k: nat :: u.fun.value(k) == MapCall(t.fun.value(k), f)
    ensures IsTerminal(t.state) ==> IsPure(u) && Observe(u) == MapFin(Observe(t), f)
  {
    if t.state == IsSuccess then
      match f(t.value)
      case Returns(b) => Success(b)
      case Throws(e) => Failed(e)
    else if t.state == NotEvaluated then
      var fun := t.fun.value;
      Lazy((k: nat) => MapCall(fun(k), f))
    else if t.state == IsCancelled then
      Cancelled()
    else
      Failed(t.error.value)
  }

  /** A failure from an error that `Fail` may still have refused by throwing. */
  function FailedFin<B>(c: Call<Error>): Call<Fin<B>>
  {
    match c
    case Returns(e) => Returns(Fail(e))
    case Throws(x) => Throws(x)
  }

  /** Bi-mapping an outcome that is already data, as `BiMap` does for a
      terminal cell: a cancellation is an ordinary failure here, and an
      exception from `Succ` or `Fail` is passed through `Fail` once more. */
  function BiMapFin<A, B>(r: Fin<A>, succ: A -> Call<B>, fail: Error -> Call<Error>): Call<Fin<B>>
  {
    match r
    case Succ(a) =>
      (match succ(a)
       case Returns(b) => Returns(Succ(b))
       case Throws(e) => FailedFin(fail(e)))
    case Fail(e) =>
      (match fail(e)
       case Returns(e') => Returns(Fail(e'))
       case Throws(x) => FailedFin(fail(x)))
  }

  /** One call of the producer `BiMap` builds: it calls the source's raw
      producer, so an exception from it escapes without passing `Fail`. */
  function BiMapCall<A, B>(c: Call<Fin<A>>, succ: A -> Call<B>, fail: Error -> Call<Error>): Call<Fin<B>>
  {
    match c
    case Throws(e) => Throws(e)
    case Returns(Succ(a)) =>
      (match succ(a) case Returns(b) => Returns(Succ(b)) case Throws(e) => Throws(e))
    case Returns(Fail(e)) =>
      (match fail(e) case Returns(e') => Returns(Fail(e')) case Throws(x) => Throws(x))
  }

  /** The `catch` of `BiMap`: a pure failed cell from the error `Fail` made
      of the exception, or the exception `Fail` itself threw there. */
  ghost function FailedCell<B(0)>(c: Call<Error>): Call<Thunk<B>>
  {
    match c
    case Returns(e) => Returns(Failed(e))
    case Throws(x) => Throws(x)
  }

  /** `BiMap(Succ, Fail)`: the only operation an exception can escape from
      (one thrown by `Fail` inside its own `catch`). A terminal cell is mapped
      at once and cancellation is not kept; an unevaluated cell becomes a new
      lazy cell and nothing runs now. */
  ghost function BiMap<A, B(0)>(t: Thunk<A>, succ: A -> Call<B>, fail: Error -> Call<Error>): (r: Call<Thunk<B>>)
    requires Valid(t)
    ensures r.Returns? ==> Valid(r.result)
    ensures t.state == NotEvaluated ==>
      && r.Returns? && r.result.state == NotEvaluated && r.result.fun.Some?
      && forall k: nat :: r.result.fun.value(k) == BiMapCall(t.fun.value(k), succ, fail)
    ensures IsTerminal(t.state) ==>
      var expected := BiMapFin(Observe(t), succ, fail);
      && (r.Returns? <==> expected.Returns?)
      && (r.Returns? ==> IsPure(r.result) && r.result.state != IsCancelled && Observe(r.result) == expected.result)
      && (r.Throws? ==> r.exn == expected.exn)
  {
    if t.state == IsSuccess then
      match succ(t.value)
      case Returns(b) => Returns(Success(b))
      case Throws(e) => FailedCell(fail(e))
    else if t.state == NotEvaluated then
      var fun := t.fun.value;
      Returns(Lazy((k: nat) => BiMapCall(fun(k), succ, fail)))
    else if t.state == IsCancelled then
      match fail(Cancellation())
      case Returns(e) => Returns(Failed(e))
      case Throws(x) => FailedCell(fail(x))
    else
      match fail(t.error.value)
      case Returns(e) => Returns(Failed(e))
      case Throws(x) => FailedCell(fail(x))
  }
}
