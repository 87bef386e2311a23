# Option/Result combinators, modelled in Dafny

This project models a small TypeScript library of algebraic data types:
`Option<T>` (a value that may be absent) and `Result<T, E>` (success or failure),
with about sixty pure combinators around them (`src/util.ts`), and a companion
module with its own `Option` encoding and `unwrap` helpers (`src/tool.ts`).

- `util.dfy`, module `Util`: the datatypes `Option` (`Some`/`None`) and `Result`
  (`Ok`/`Err`), two stand-ins for TypeScript's absence sentinels, `Nullable<T>`
  (`T | null`) and `Undefinable<T>` (`T | undefined`), and every non-Promise
  function of `src/util.ts` except `forEach`. Each body follows the branches of the original.
  The `fromOption*` and `fromOptionPredicateOption*` functions repeat a handful of
  bodies under many names; the contract of each one states the composition of
  primitives it equals (`filter`, then `getOrElse`, `orElse`, `toNullable`,
  `toUndefined` or `toResult`), so every name is tied to one small pipeline.
- `util_laws.dfy`, module `UtilLaws`: the laws of the combinators (defining
  equations, functor and monad laws, filter idempotence and fusion, `match` as
  the universal eliminator, `toList` injectivity) and the round trips between
  `Option` and `Result`, `T | null` and `T | undefined`.
- `tool.dfy`, module `Tool`: the second encoding (`_type: "some" | "none"`) as its
  own datatype, with an isomorphism to `Util.Option`; `unwrap`, `unwrapOr`,
  `unwrapExpect`, `toOptional` and `optionalDefined`. A thrown `Error` is the
  outcome `Thrown(message)`. The TypeScript constructors `some(value)` and `none`
  are the datatype constructors `Tool.Some` and `Tool.None`.

Lazy defaults (`() => T`, `() => Option<T>`) are zero-argument function values.
The `predicate` parameter of the source is named `pred`, because `predicate`
is a keyword in Dafny.

## Model

| member | source | states |
|---|---|---|
| Util.IsSome | src/util.ts:24-26 | true exactly when the option is not `None` |
| Util.IsNone | src/util.ts:28-30 | true exactly for `None`; always the negation of `IsSome` |
| Util.IsOk | src/util.ts:32-34 | true exactly for an `Ok` result |
| Util.IsErr | src/util.ts:36-38 | true exactly for an `Err` result; always the negation of `IsOk` |
| Util.Map | src/util.ts:40-46 | keeps the tag; on `Some(x)` the result is `Some(f(x))` |
| Util.FlatMap | src/util.ts:48-57 | `None` stays `None`; on `Some(x)` the result is `f(x)` |
| Util.GetOrElse | src/util.ts:59-65 | the value on `Some`, the default on `None` |
| Util.OrElse | src/util.ts:67-76 | the option itself on `Some`, the default option on `None`; the result is `Some` iff either input is |
| Util.Filter | src/util.ts:78-91 | the result is the input or `None`; it is the input iff the input is `None` or the predicate accepts its value; it is `Some` iff the input is `Some` and accepted |
| Util.Match | src/util.ts:99-109 | on `Some(x)` the result is `onSome(x)`, on `None` it is `onNone()` |
| Util.ToList | src/util.ts:111-117 | length at most 1; length 1 iff the option is `Some`, and then the element is its value |
| Util.ToNullable | src/util.ts:119-125 | `null` exactly for `None`; `Some(x)` gives the value `x` |
| Util.ToUndefined | src/util.ts:127-133 | `undefined` exactly for `None`; `Some(x)` gives the value `x` |
| Util.ToResult | src/util.ts:135-141 | `Ok` iff the option is `Some`; `Some(x)` gives `Ok(x)`, `None` gives `Err(error)` |
| Util.FromNullable | src/util.ts:151-157 | `None` exactly for `null`; a value `x` gives `Some(x)` |
| Util.FromUndefined | src/util.ts:159-165 | `None` exactly for `undefined`; a value `x` gives `Some(x)` |
| Util.FromResult | src/util.ts:167-173 | `Some` iff the result is `Ok`; `Ok(x)` gives `Some(x)` |
| Util.FromPredicate | src/util.ts:181-190 | `Some(value)` iff the predicate holds of `value`, `None` iff it does not |
| Util.FromOption | src/util.ts:192-198 | equals `GetOrElse(o, defaultValue)` for every input |
| Util.FromOptionLazy | src/util.ts:200-206 | equals `GetOrElse(o, defaultValue())` |
| Util.FromOptionNullable | src/util.ts:208-214 | equals `ToNullable(o)` |
| Util.FromOptionUndefined | src/util.ts:216-222 | equals `ToUndefined(o)` |
| Util.FromOptionResult | src/util.ts:224-233 | equals `ToResult(o, error)` |
| Util.FromOptionPredicate | src/util.ts:243-252 | true iff `Filter(o, pred)` is `Some` |
| Util.FromOptionOption | src/util.ts:254-263 | equals `OrElse(o, defaultValue)` |
| Util.FromOptionOptionLazy | src/util.ts:265-274 | equals `OrElse(o, defaultValue())` |
| Util.FromOptionOptionNullable | src/util.ts:276-282 | equals `ToNullable(o)` |
| Util.FromOptionOptionUndefined | src/util.ts:284-290 | equals `ToUndefined(o)` |
| Util.FromOptionOptionResult | src/util.ts:292-301 | equals `ToResult(o, error)` |
| Util.FromOptionPredicateOption | src/util.ts:311-324 | equals `Filter(o, pred)` |
| Util.FromOptionPredicateOptionLazy | src/util.ts:326-340 | equals `OrElse(Filter(o, pred), defaultValue())` |
| Util.FromOptionPredicateOptionNullable | src/util.ts:342-355 | equals `ToNullable(Filter(o, pred))` |
| Util.FromOptionPredicateOptionUndefined | src/util.ts:357-370 | equals `ToUndefined(Filter(o, pred))` |
| Util.FromOptionPredicateOptionResult | src/util.ts:372-386 | equals `ToResult(Filter(o, pred), error)` |
| Util.FromOptionPredicateOptionPredicate | src/util.ts:403-417 | equals `OrElse(Filter(o, pred), defaultValue)` |
| Util.FromOptionPredicateOptionPredicateLazy | src/util.ts:419-433 | equals `OrElse(Filter(o, pred), defaultValue())` |
| Util.FromOptionPredicateOptionPredicateNullable | src/util.ts:435-448 | equals `ToNullable(Filter(o, pred))` |
| Util.FromOptionPredicateOptionPredicateUndefined | src/util.ts:450-463 | equals `ToUndefined(Filter(o, pred))` |
| Util.FromOptionPredicateOptionPredicateResult | src/util.ts:465-479 | equals `ToResult(Filter(o, pred), error)` |
| Util.FromOptionPredicateOptionPredicatePredicate | src/util.ts:496-510 | equals `OrElse(Filter(o, pred), defaultValue)` |
| Util.FromOptionPredicateOptionPredicatePredicateLazy | src/util.ts:512-526 | equals `OrElse(Filter(o, pred), defaultValue())` |
| Util.FromOptionPredicateOptionPredicatePredicateNullable | src/util.ts:528-541 | equals `ToNullable(Filter(o, pred))` |
| Util.FromOptionPredicateOptionPredicatePredicateUndefined | src/util.ts:543-556 | equals `ToUndefined(Filter(o, pred))` |
| Util.FromOptionPredicateOptionPredicatePredicateResult | src/util.ts:558-572 | equals `ToResult(Filter(o, pred), error)` |
| Util.FromOptionPredicateOptionPredicatePredicatePredicate | src/util.ts:589-603 | equals `OrElse(Filter(o, pred), defaultValue)` |
| Util.FromOptionPredicateOptionPredicatePredicatePredicateLazy | src/util.ts:605-619 | equals `OrElse(Filter(o, pred), defaultValue())` |
| Util.FromOptionPredicateOptionPredicatePredicatePredicateNullable | src/util.ts:621-634 | equals `ToNullable(Filter(o, pred))` |
| Util.FromOptionPredicateOptionPredicatePredicatePredicateUndefined | src/util.ts:636-648 | equals `ToUndefined(Filter(o, pred))` |
| Util.FromOptionPredicateOptionPredicatePredicatePredicateResult | src/util.ts:650-663 | equals `ToResult(Filter(o, pred), error)` |
| Util.FromOptionPredicateOptionPredicatePredicatePredicatePredicate | src/util.ts:680-696 | equals `OrElse(Filter(o, pred), defaultValue)` |
| Util.FromOptionPredicateOptionPredicatePredicatePredicatePredicateLazy | src/util.ts:698-714 | equals `OrElse(Filter(o, pred), defaultValue())` |
| Util.FromOptionPredicateOptionPredicatePredicatePredicatePredicateNullable | src/util.ts:716-728 | equals `ToNullable(Filter(o, pred))` |
| Util.FromOptionPredicateOptionPredicatePredicatePredicatePredicateUndefined | src/util.ts:730-742 | equals `ToUndefined(Filter(o, pred))` |
| Util.FromOptionPredicateOptionPredicatePredicatePredicatePredicateResult | src/util.ts:744-757 | equals `ToResult(Filter(o, pred), error)` |
| Util.FromOptionPredicateOptionPredicatePredicatePredicatePredicatePredicate | src/util.ts:773-789 | equals `OrElse(Filter(o, pred), defaultValue)` |
| UtilLaws.ExactlyOneTag | src/util.ts:24-38 | exactly one of `isSome`/`isNone` holds of every option, and exactly one of `isOk`/`isErr` of every result |
| UtilLaws.MapEquations | src/util.ts:40-46 | `map(Some(x), f) == Some(f(x))` and `map(None, f) == None` for every `f` |
| UtilLaws.MapIdentity | src/util.ts:40-46 | mapping the identity function returns the option unchanged |
| UtilLaws.MapComposition | src/util.ts:40-46 | mapping `f` then `g` equals mapping their composition |
| UtilLaws.FlatMapEquations | src/util.ts:48-57 | `flatMap(Some(x), f) == f(x)` and `flatMap(None, f) == None` |
| UtilLaws.FlatMapRightIdentity | src/util.ts:48-57 | `flatMap` into `Some` returns the option unchanged |
| UtilLaws.FlatMapAssociative | src/util.ts:48-57 | two chained `flatMap`s equal one `flatMap` of the chained function |
| UtilLaws.MapIsFlatMap | src/util.ts:40-57 | `map(o, f)` equals `flatMap(o, x => Some(f(x)))` |
| UtilLaws.GetOrElseEquations | src/util.ts:59-65 | `getOrElse(Some(x), d) == x` and `getOrElse(None, d) == d` |
| UtilLaws.OrElseMonoid | src/util.ts:67-76 | `orElse` is associative with `None` as a unit on both sides |
| UtilLaws.FilterEquations | src/util.ts:78-91 | `filter(Some(x), p)` is `Some(x)` iff `p(x)`, otherwise `None`; `filter(None, p) == None` |
| UtilLaws.FilterIdempotent | src/util.ts:78-91 | filtering twice by the same predicate equals filtering once |
| UtilLaws.FilterFusion | src/util.ts:78-91 | filtering by `p` then `q` equals filtering by their conjunction |
| UtilLaws.FilterIsFlatMap | src/util.ts:78-91 | `filter(o, p)` equals `flatMap(o, x => fromPredicate(x, p))` |
| UtilLaws.FromPredicateIsFilter | src/util.ts:181-190 | `fromPredicate(v, p)` equals `filter(Some(v), p)` |
| UtilLaws.MatchEquations | src/util.ts:99-109 | `match(Some(x), s, n) == s(x)` and `match(None, s, n) == n()` |
| UtilLaws.MatchIsUniversal | src/util.ts:99-109 | every function `h` on options equals `match` with branches `x => h(Some(x))` and `() => h(None)` |
| UtilLaws.ToListInjective | src/util.ts:111-117 | two options with the same list are equal |
| UtilLaws.ToListMap | src/util.ts:111-117 | the list of `map(o, f)` is `f` applied to each element of the list of `o` |
| UtilLaws.FromResultToResult | src/util.ts:135-141 | `fromResult(toResult(o, e)) == o` for every error `e` |
| UtilLaws.ToResultFromResult | src/util.ts:167-173 | `toResult(fromResult(r), e) == r` iff `r` is `Ok` or carries the error `e` |
| UtilLaws.NullableRoundTrip | src/util.ts:151-157 | `fromNullable(toNullable(o)) == o` and `toNullable(fromNullable(n)) == n` |
| UtilLaws.UndefinedRoundTrip | src/util.ts:159-165 | `fromUndefined(toUndefined(o)) == o` and `toUndefined(fromUndefined(u)) == u` |
| UtilLaws.ToNullableOnto | src/util.ts:119-125 | every `T \| null` value is `toNullable` of some option |
| UtilLaws.ToUndefinedOnto | src/util.ts:127-133 | every `T \| undefined` value is `toUndefined` of some option |
| UtilLaws.ToResultImage | src/util.ts:135-141 | with the error fixed to `e`, the results `toResult` can produce are exactly the `Ok` results and `Err(e)` |
| UtilLaws.FilterTimesIsFilter | src/util.ts:78-91 | generalises filter idempotence: filtering `k >= 1` times in a row by the same predicate equals filtering once |
| Tool.Unwrap | src/tool.ts:50-55 | returns iff the option is `some`, with its value; on `none` it throws the message "Cannot unwrap a Option" |
| Tool.UnwrapOr | src/tool.ts:57-62 | the value on `some`, the default on `none`; never throws |
| Tool.UnwrapExpect | src/tool.ts:64-69 | returns iff the option is `some`, with its value; on `none` it throws the caller's message |
| Tool.ToOptional | src/tool.ts:31-43 | the lifted function answers `some(arg)` iff the guard accepts `arg`, and `none` iff it rejects it |
| Tool.NotNullish | src/tool.ts:45-47 | the guard `arg != null` rejects exactly `null` and `undefined` |
| Tool.OptionalDefined | src/tool.ts:45-47 | `none` exactly for `null` and `undefined`, otherwise `some(arg)`, whose value is then neither |
| Tool.EncodingsIsomorphic | src/tool.ts:1-6 | translating between this encoding and the one of `src/util.ts` and back is the identity, both ways |
| Tool.UnwrapOrIsGetOrElse | src/tool.ts:57-62 | `unwrapOr` equals `getOrElse` of `src/util.ts` across the translation |
| Tool.UnwrapEquations | src/tool.ts:50-55 | `unwrap(some(v))` returns `v`; `unwrap(none)` throws "Cannot unwrap a Option" |
| Tool.UnwrapOrEquations | src/tool.ts:57-62 | `unwrapOr(some(v), d) == v`, `unwrapOr(none, d) == d`, and on `some` it returns what `unwrap` returns |
| Tool.UnwrapExpectEquations | src/tool.ts:64-69 | `unwrapExpect(some(v), m)` returns `v`; `unwrapExpect(none, m)` throws exactly `m`; `unwrap` is `unwrapExpect` with the fixed message |
| Tool.OptionalDefinedIsFromNullableThenFromUndefined | src/tool.ts:45-47 | `optionalDefined` answers `some` exactly where `fromNullable` then `fromUndefined` of `src/util.ts` answer `Some`, and the input is then that value wrapped |

## Left out

- `toPromise` (src/util.ts:143-149), every `*Promise` variant (src/util.ts:235-241, 303-309, 388-401, 481-494, 574-587, 665-678, 759-771) and `optionResolve` (src/tool.ts:20-29): they depend on asynchronous runtime semantics.
- `forEach` (src/util.ts:93-97): it exists only to run a caller's side effect and returns nothing.
- The commented-out `fromPromise` (src/util.ts:175-179): dead code.
- `optionalCatch` (src/tool.ts:8-14) and the `catch` branch of `toOptional` (src/tool.ts:39-41): they trap an exception thrown by an arbitrary callback, and Dafny functions cannot throw; `Tool.ToOptional` takes a guard that always answers.
- `greet` (src/tool.ts:16-18): a string template with no Option logic.
- `src/index.ts` is not part of this model: it repeats `src/tool.ts` and adds a demo that reads the clock and writes to the console.
- Tool.ToOptional: the type-guard narrowing `O extends I` is a type-level fact; the model returns `Option<I>`, and `Tool.OptionalDefined` states the narrowing as a postcondition (the value it carries is neither `null` nor `undefined`). Both require `T(!new)` so that their contracts may quantify over `T`.
- Util.ToNullable and Util.FromNullable (and the `undefined` pair): when `T` itself admits `null` (or `undefined`), TypeScript merges `Some(null)` and `None` into the same `null`, so the round trip fails there; the model's `Nullable<T>` keeps a value that is itself a null apart from `Null`, so the round trip lemmas hold for every `T` and describe the source only for value types without `null`/`undefined`.
- Evaluation order: the source calls a lazy default, a mapping function or a predicate at most once and only on the branch that needs it; Dafny functions are pure, so the model records results only. Caller-supplied functions are total in the model; in the source an exception thrown by one (in `map`, `flatMap`, `filter`, `match`, `fromPredicate` or a lazy default) propagates out of the combinator unchanged.
- `toList` returns a fresh mutable array in the source; the model returns an immutable sequence.
