# Thunk: a memoising lazy cell, modelled in Dafny

This project models `Thunk<A>` of the language-ext library. A thunk is a lazy cell
that runs its producer at most once per evaluation and memoises the outcome. The
library's effect types are built on it. The model follows one thread's view of the cell:
- It has five states: `NotEvaluated`, `Evaluating`, `IsSuccess`, `IsCancelled`, `IsFailed`.
- Pure cells are built directly in a terminal state.
- The `Eval` engine runs the producer only from `NotEvaluated`. It turns an exception
  into a failed result. An exception whose message is the cancellation text sends the
  cell to `IsCancelled`.
- `ReValue` and `Clone` reset or copy a cell, depending on whether it has a producer.
- The functor layer is `Map` and `BiMap`.

How the model is built:
- **Immutable cells.** A cell (`Thunks.Thunk`) is an immutable value. Where the library
  mutates the object, the model returns the successor cell instead, as an
  `Evaluated(cell, result, invocations)` value.
- **The producer is an oracle.** It is a function from the world's count of producer
  invocations so far to what that invocation does: return a `Fin<A>`, or throw. So a
  side-effecting producer can answer differently on every run. The count that every
  evaluating operation hands back is the model's counter of producer invocations.
- **The claim is atomic.** The compare-and-swap that claims the cell is one atomic
  step (`Claim`, then `Publish`). So `Evaluating` never appears between two
  operations: every operation keeps the `Valid` invariant.
- **Unwritten slots.** A value slot that was never written holds C#'s `default(A)`.
  The model writes it as `Default()`, a fixed but unspecified value. An error slot
  that was never written is `None`.
- **Originals are untouched.** `Clone`, `Map` and `BiMap` take a cell and return new
  cells. Because cells are values, the original is unchanged by construction.

Modules:
- `common.dfy`: `Error`, `Fin`, `Call` (the outcome of a delegate that may throw) and
  the cancellation text.
- `thunk.dfy`: the cell and its operations.
- `thunk_properties.dfy`: properties that span several calls.
- `thunk_findings.dfy`: the two findings below.

Two behaviours of the code go beyond the class summary "Runs at most once"
(`ThunkSync.cs:12`). The model follows the code:
- **`Map` and `BiMap` call the raw producer.** On an unevaluated cell, the producer they
  build calls the source's raw `fun()`, not the memoising `Eval()`. Evaluating both the
  source and the derived cell therefore runs the producer twice; see
  `ThunkProperties.MapRerunsProducer`.
- **`BiMap` and a thrown cancellation.** On an unevaluated cell, a source producer that
  throws the cancellation text leaves the derived cell `IsCancelled`. It does not become
  failed.

## Model

| member | source | states |
|---|---|---|
| Thunks.HasRun | LanguageExt.Core/Thunks/ThunkSync.cs:83 | the `state >= IsSuccess` test holds exactly of the three terminal states |
| Thunks.Lazy | LanguageExt.Core/Thunks/ThunkSync.cs:25-68 | a lazy cell starts unevaluated, holding the given producer, and satisfies the cell invariant |
| Thunks.Success | LanguageExt.Core/Thunks/ThunkSync.cs:39-54 | a success cell is pure, in `IsSuccess`, and reading it answers `Succ(value)` |
| Thunks.Failed | LanguageExt.Core/Thunks/ThunkSync.cs:32-61 | a failed cell is pure, in `IsFailed`, and reading it answers `Fail(error)` |
| Thunks.Cancelled | LanguageExt.Core/Thunks/ThunkSync.cs:46-47 | a cancelled cell is pure, in `IsCancelled`, stores an error whose text is the cancellation text, and answers a failure with that text |
| Thunks.Eval | LanguageExt.Core/Thunks/ThunkSync.cs:196-249 | from `NotEvaluated`: exactly one producer invocation; the result is the producer's `Fin`, or `Fail(e)` if it threw `e`; the state is `IsSuccess` iff it returned a success and `IsCancelled` iff it threw the cancellation text; the matching slot is written and the other kept. From a terminal state: cell unchanged, nothing invoked, the memoised outcome replayed. The result is never an exception |
| Thunks.Value | LanguageExt.Core/Thunks/ThunkSync.cs:74-75 | the cell after `Value()` is terminal and replays the result just returned (errors compared by message, see Left out); the producer is invoked once from `NotEvaluated` and otherwise not at all |
| Thunks.ReValue | LanguageExt.Core/Thunks/ThunkSync.cs:81-88 | with a producer, it runs the producer once more and returns that run's outcome, whatever was memoised; a pure cell is left unchanged and replays its fixed outcome without any invocation |
| Thunks.Clone | LanguageExt.Core/Thunks/ThunkSync.cs:99-102 | a producer-backed cell clones to an unevaluated cell on the same producer; a pure cell clones to a pure cell with the same state and error, whose value slot holds `default(A)` |
| Thunks.Map | LanguageExt.Core/Thunks/ThunkSync.cs:108-147 | the result is unevaluated iff the source is, and cancelled iff the source is; a terminal source maps at once to a pure cell answering `f` of its answer, with an exception from `f` becoming `Fail(e)`; an unevaluated source yields a lazy cell whose producer calls the source's raw producer and then `f` |
| Thunks.BiMap | LanguageExt.Core/Thunks/ThunkSync.cs:153-187 | a terminal source maps at once to a pure cell that is never cancelled: cancellation becomes `Fail(Fail(cancellation error))` and failure `Fail(Fail(error))`; an exception `Fail` throws inside the catch escapes `BiMap`; an unevaluated source yields a lazy cell mapping success through `Succ` and failure through `Fail` |
| ThunkProperties.EvalFollowsTable | LanguageExt.Core/Thunks/ThunkSync.cs:200-225 | from `NotEvaluated`, `Eval` wins the claim, moving to `Evaluating`, and is the publication of the producer's outcome into the claimed cell, a table step to a terminal state; from a terminal state the claim is lost and the state does not move |
| ThunkProperties.ReValueFollowsTable | LanguageExt.Core/Thunks/ThunkSync.cs:81-88 | with a producer, `ReValue` is `Eval` of the cell reset to `NotEvaluated` (a table step from any terminal state), so it passes `NotEvaluated -> Evaluating -> terminal`; a pure cell stays exactly as it was and nothing is invoked |
| ThunkProperties.PureCellsAnswer | LanguageExt.Core/Thunks/ThunkSync.cs:229-243 | `Value()` of a pure success, failure or cancellation leaves the cell unchanged, invokes nothing, and answers `Succ(value)`, `Fail(error)` and a failure with the cancellation text respectively |
| ThunkProperties.Memoised | LanguageExt.Core/Thunks/ThunkSync.cs:229-243 | after any `Value()`, a second `Value()` returns the same result, leaves the cell unchanged and invokes nothing |
| ThunkProperties.ValueRepeatedly | LanguageExt.Core/Thunks/ThunkSync.cs:198-246 | any number of successive `Value()` calls all return the first call's answer, with at most one producer invocation in total and none on a terminal cell |
| ThunkProperties.ReValueRepeatedly | LanguageExt.Core/Thunks/ThunkSync.cs:81-88 | successive `ReValue()` calls on a producer-backed cell return the producer's successive answers, one invocation each; on a pure cell they all return the fixed outcome and invoke nothing |
| ThunkProperties.CountingProducer | LanguageExt.Core/Thunks/ThunkSync.cs:81-88 | a producer answering one more than its earlier runs gives 1, 2, 3 under `Value`, `ReValue`, `ReValue` |
| ThunkProperties.CloneThenValueIsReValue | LanguageExt.Core/Thunks/ThunkSync.cs:99-102 | evaluating the clone of a producer-backed cell answers as `ReValue` on the original does, and lands in the same state after one more producer invocation |
| ThunkProperties.ClonePureOutcome | LanguageExt.Core/Thunks/ThunkSync.cs:100-101 | the clone of a pure failed or cancelled cell replays the original's outcome, while the clone of a pure success answers `Succ(default(A))` |
| ThunkProperties.MapCallCaught | LanguageExt.Core/Thunks/ThunkSync.cs:122-133 | once the derived producer's exception is caught, the call equals the source call caught and then mapped |
| ThunkProperties.MapNatural | LanguageExt.Core/Thunks/ThunkSync.cs:108-147 | evaluating `Map(f)` answers what evaluating the source and then mapping its answer does, with the same invocation count, whether or not the source was evaluated when `Map` was called |
| ThunkProperties.MapRerunsProducer | LanguageExt.Core/Thunks/ThunkSync.cs:121-133 | mapping an unevaluated cell, then evaluating both, runs the producer twice, and the derived answer comes from the second run; mapping after evaluation runs nothing more |
| ThunkProperties.BiMapNatural | LanguageExt.Core/Thunks/ThunkSync.cs:153-187 | when neither transform throws and the producer returns, evaluating `BiMap` answers what bi-mapping the source's answer does, evaluated or not |
| ThunkFindings.CloneDropsSuccessValue | LanguageExt.Core/Thunks/ThunkSync.cs:100-101 | the clone of a pure success holding anything but `default(A)` answers differently from the original |
| ThunkFindings.CloneDropsSuccessValueExample | LanguageExt.Core/Thunks/ThunkSync.cs:100-101 | the clones of `Success(42)` and `Success(43)` answer the same, so at least one of them does not answer its original's value |
| ThunkFindings.CloneExact | LanguageExt.Core/Thunks/ThunkSync.cs:93-102 | the corrected clone copies a pure cell exactly and agrees with `Clone` on producer-backed cells |
| ThunkFindings.CloneExactReplays | LanguageExt.Core/Thunks/ThunkSync.cs:93-102 | the corrected clone of a pure cell answers exactly as the original in every state and invokes nothing |
| ThunkFindings.BiMapLazySkipsFail | LanguageExt.Core/Thunks/ThunkSync.cs:166-179 | when the source producer throws `e`, the cell `BiMap` builds lazily answers `Fail(e)`, while `BiMap` after evaluating answers `Fail(Fail(e))` |
| ThunkFindings.BiMapLazySkipsFailOnSucc | LanguageExt.Core/Thunks/ThunkSync.cs:163-185 | when the producer returns a success and `Succ` throws `e` on it, the lazily built cell answers `Fail(e)`, while `BiMap` after evaluating goes through the `catch` and answers `Fail(Fail(e))` |
| ThunkFindings.BiMapLazySkipsFailOnFail | LanguageExt.Core/Thunks/ThunkSync.cs:166-185 | when the producer returns a failure and `Fail` throws `x` on it, the lazily built cell answers `Fail(x)`, while `BiMap` after evaluating goes through the `catch` and answers `Fail(Fail(x))` |
| ThunkFindings.BiMapCaught | LanguageExt.Core/Thunks/ThunkSync.cs:161-186 | on terminal cells it is `BiMap`; on an unevaluated cell, its producer answers, for every run, what the eager branches and their `catch` answer for that run's caught outcome |
| ThunkFindings.BiMapCaughtNatural | LanguageExt.Core/Thunks/ThunkSync.cs:153-187 | with the correction, evaluating the bi-mapped cell answers what bi-mapping the source's answer does, whatever its producer did, evaluated or not |

## Left out

- Concurrency. The model leaves out the `Interlocked.CompareExchange` claim, the `volatile` state, the `SpinWait` loop in `SpinIfEvaluating`, and every multi-thread interleaving. The claim is one atomic step, so `SpinIfEvaluating` is a no-op and has no member. `Eval`'s retry on a lost race cannot happen in one thread.
- The numeric values of the `Thunk.*` state constants and of `Thunk.CancelledText`. They are defined outside this model. The states form an enum whose order is assumed to be the order of declaration. The cancellation text is a fixed string, and no proof depends on its contents.
- `Fin<A>` and `Error` internals. An error is its message. `Error.New(e)` and the implicit exception-to-error conversion keep the message unchanged. `Cast<B>()` of a failure keeps its error.
- `ToString`. It is purely diagnostic string interpolation of arbitrary values.
- Thunks.Lazy: the `ArgumentNullException` for a null producer is not modelled. The producer's type has no null.
- Thunks.Clone: the value slot of a cloned pure cell is stated to be `default(A)`, an unspecified fixed value, because C#'s default of an arbitrary type is not visible to the model.
- Shared producer state. A producer's side effects are seen only through the world invocation count, not as shared mutable state.
- Transforms as functions. `f`, `Succ` and `Fail` are modelled as deterministic functions of their argument: returning a value or throwing. Any side effect they have in C#, or an answer that changes from call to call, is not modelled.
- `Thunk<A>.Fail(null)`: a failed cell built with a null error (`ThunkSync.cs:32`) is not modelled. `Error` has no null, so every failed cell carries an error.
- A re-entrant producer. A producer that calls `Value()` on its own cell finds it `Evaluating` and spins for ever (`ThunkSync.cs:229`, `:259`). The claim is atomic in the model and the producer is an oracle that cannot see its cell, so this case does not arise.
- Thunks.Value: the replayed failure is `Error.New(error)`, a new error built from the stored one (`ThunkSync.cs:243`), while the first answer is `Error.New(e)` of the exception (`:224`). The model identifies an error with its message, so it states that the two are equal; in C# they are equal only in message.
- The async `foldWhile` wrappers of the effect types, and the sample programs. They only sequence calls on types that are not part of this model, or perform console I/O.

## Findings

| source | as written | input that shows it | evidently intended | confidence | as-written member | corrected member |
|---|---|---|---|---|---|---|
| LanguageExt.Core/Thunks/ThunkSync.cs:100-101 | `Clone` of a pure cell copies only `state` and `error`, so a pure success loses its value | the clone of a pure success answers `Succ(default(A))` whatever its value, so the clones of `Success(42)` and `Success(43)` answer alike and at least one of them answers wrongly; C#'s `default(int)` is 0, so it is `Success(42)` (and `Success(43)`) | a pure cell has nothing to re-run, so its clone answers as the original does, as pure failed and cancelled cells already do (`ThunkSync.cs:93-96`) | medium, not executed | ThunkFindings.CloneDropsSuccessValue | ThunkFindings.CloneExactReplays |
| LanguageExt.Core/Thunks/ThunkSync.cs:166-173 | the lazy producer of `BiMap` has no `catch`, so an exception thrown by the source producer, by `Succ` or by `Fail` escapes without passing through `Fail`, while the eager branches send it through `Fail` in their `catch` (:183-185) | `Lazy(() => throw new Exception("boom")).BiMap(s, e => Error.New("mapped")).Value()` answers `Fail("boom")`; evaluating the source first and then bi-mapping answers `Fail("mapped")`. Likewise a `Succ` that throws "boom" on the produced value | the error channel is mapped by `Fail` the same way whether or not the source was already evaluated | medium, not executed | ThunkFindings.BiMapLazySkipsFail, ThunkFindings.BiMapLazySkipsFailOnSucc, ThunkFindings.BiMapLazySkipsFailOnFail | ThunkFindings.BiMapCaughtNatural |
