/**
  Algebraic laws of the `Util` combinators: the defining equations of each
  combinator on `Some` and `None`, the functor and monad laws of `Map` and
  `FlatMap`, the laws of `Filter`, `Match` as the universal eliminator, the
  round trips between `Option` and `Result`, `T | null` and `T | undefined`.
  That each `fromOption*` variant equals a composition of the primitives is
  stated by that variant's own contract in `Util`.
 */
module UtilLaws {
  import opened Util

  // ---------------------------------------------------------------------------
  // Tags

  /** Exactly one tag holds, for options and for results. */
  lemma ExactlyOneTag<T, E>(o: Option<T>, r: Result<T, E>)
    ensures IsSome(o) == !IsNone(o)
    ensures IsOk(r) == !IsErr(r)
  {
  }

  // ---------------------------------------------------------------------------
  // map and flatMap

  /** The defining equations of `map`, for every `f`. */
  lemma MapEquations<T, U>(x: T, f: T -> U)
    ensures Map(Some(x), f) == Some(f(x))
    ensures Map(None, f) == None
  {
  }

  /** `map` with the identity function changes nothing. */
  lemma MapIdentity<T>(o: Option<T>)
    ensures Map(o, x => x) == o
  {
  }

  /** Mapping twice is mapping once with the composed function. */
  lemma MapComposition<T, U, V>(o: Option<T>, f: T -> U, g: U -> V)
    ensures Map(Map(o, f), g) == Map(o, x => g(f(x)))
  {
  }

  /** The defining equations of `flatMap`. */
  lemma FlatMapEquations<T, U>(x: T, f: T -> Option<U>)
    ensures FlatMap(Some(x), f) == f(x)
    ensures FlatMap(None, f) == None
  {
  }

  /** `flatMap` into `Some` is the identity. */
  lemma FlatMapRightIdentity<T>(o: Option<T>)
    ensures FlatMap(o, x => Some(x)) == o
  {
  }

  /** `flatMap` chains associate. */
  lemma FlatMapAssociative<T, U, V>(o: Option<T>, f: T -> Option<U>, g: U -> Option<V>)
    ensures FlatMap(FlatMap(o, f), g) == FlatMap(o, x => FlatMap(f(x), g))
  {
  }

  /** `map` is `flatMap` with a function that always answers `Some`. */
  lemma MapIsFlatMap<T, U>(o: Option<T>, f: T -> U)
    ensures Map(o, f) == FlatMap(o, x => Some(f(x)))
  {
  }

  // ---------------------------------------------------------------------------
  // getOrElse and orElse

  /** The defining equations of `getOrElse`. */
  lemma GetOrElseEquations<T>(x: T, d: T)
    ensures GetOrElse(Some(x), d) == x
    ensures GetOrElse(None, d) == d
  {
  }

  /** `orElse` is associative and has `None` as a unit on both sides. */
  lemma OrElseMonoid<T>(a: Option<T>, b: Option<T>, c: Option<T>)
    ensures OrElse(None, a) == a && OrElse(a, None) == a
    ensures OrElse(OrElse(a, b), c) == OrElse(a, OrElse(b, c))
  {
  }

  // ---------------------------------------------------------------------------
  // filter

  /** On `Some(x)`, `filter` keeps the option exactly when `pred(x)`, else answers
      `None`; on `None` it always answers `None`. */
  lemma FilterEquations<T>(x: T, pred: T -> bool)
    ensures Filter(Some(x), pred) == Some(x) <==> pred(x)
    ensures !pred(x) ==> Filter(Some(x), pred) == None
    ensures Filter(None, pred) == None
  {
  }

  /** Filtering twice by the same predicate is filtering once. */
  lemma FilterIdempotent<T>(o: Option<T>, pred: T -> bool)
    ensures Filter(Filter(o, pred), pred) == Filter(o, pred)
  {
  }

  /** Two successive filters are one filter by the conjunction. */
  lemma FilterFusion<T>(o: Option<T>, p: T -> bool, q: T -> bool)
    ensures Filter(Filter(o, p), q) == Filter(o, x => p(x) && q(x))
  {
  }

  /** `filter` is `flatMap` with `fromPredicate`. */
  lemma FilterIsFlatMap<T>(o: Option<T>, pred: T -> bool)
    ensures Filter(o, pred) == FlatMap(o, x => FromPredicate(x, pred))
  {
  }

  /** `fromPredicate` is `filter` applied to `Some`. */
  lemma FromPredicateIsFilter<T>(value: T, pred: T -> bool)
    ensures FromPredicate(value, pred) == Filter(Some(value), pred)
  {
  }

  // ---------------------------------------------------------------------------
  // match

  /** The defining equations of `match`. */
  lemma MatchEquations<T, U>(x: T, onSome: T -> U, onNone: () -> U)
    ensures Match(Some(x), onSome, onNone) == onSome(x)
    ensures Match(None, onSome, onNone) == onNone()
  {
  }

  /** Every function on options is a `match`. */
  lemma MatchIsUniversal<T, U>(o: Option<T>, h: Option<T> -> U)
    ensures h(o) == Match(o, x => h(Some(x)), () => h(None))
  {
  }

  // ---------------------------------------------------------------------------
  // toList

  /** `toList` loses nothing: different options give different lists. */
  lemma ToListInjective<T>(a: Option<T>, b: Option<T>)
    ensures ToList(a) == ToList(b) ==> a == b
  {
  }

  /** `toList` turns `map` into the element-wise map of a list. */
  lemma ToListMap<T, U>(o: Option<T>, f: T -> U)
    ensures ToList(Map(o, f)) == seq(|ToList(o)|, i requires 0 <= i < |ToList(o)| => f(ToList(o)[i]))
  {
  }

  // ---------------------------------------------------------------------------
  // Round trips

  /** `fromResult` undoes `toResult`, whatever error was supplied. */
  lemma FromResultToResult<T, E>(o: Option<T>, error: E)
    ensures FromResult(ToResult(o, error)) == o
  {
  }

  /** `toResult` undoes `fromResult` exactly on results it could have produced:
      successes, and failures carrying the error supplied. */
  lemma ToResultFromResult<T, E>(r: Result<T, E>, error: E)
    ensures ToResult(FromResult(r), error) == r <==> IsOk(r) || r.error == error
  {
  }

  /** `fromNullable` undoes `toNullable`, and the other way round. */
  lemma NullableRoundTrip<T>(o: Option<T>, n: Nullable<T>)
    ensures FromNullable(ToNullable(o)) == o
    ensures ToNullable(FromNullable(n)) == n
  {
  }

  /** `fromUndefined` undoes `toUndefined`, and the other way round. */
  lemma UndefinedRoundTrip<T>(o: Option<T>, u: Undefinable<T>)
    ensures FromUndefined(ToUndefined(o)) == o
    ensures ToUndefined(FromUndefined(u)) == u
  {
  }

  /** Every `T | null` value is `toNullable` of some option, so with
      `NullableRoundTrip` the two are mutually inverse bijections. */
  lemma ToNullableOnto<T>(n: Nullable<T>)
    ensures exists o :: ToNullable(o) == n
  {
    NullableRoundTrip(FromNullable(n), n);
  }

  /** Every `T | undefined` value is `toUndefined` of some option. */
  lemma ToUndefinedOnto<T>(u: Undefinable<T>)
    ensures exists o :: ToUndefined(o) == u
  {
    UndefinedRoundTrip(FromUndefined(u), u);
  }

  /** With the error fixed to `error`, `toResult` reaches exactly the successes
      and the failure carrying `error`. */
  lemma ToResultImage<T, E>(r: Result<T, E>, error: E)
    ensures (exists o :: ToResult(o, error) == r) <==> IsOk(r) || r.error == error
  {
    if IsOk(r) || r.error == error {
      ToResultFromResult(r, error);
    }
  }

  // ---------------------------------------------------------------------------
  // Iterated filtering

  /** Filtering `k` times in a row by the same predicate. */
  function FilterTimes<T>(o: Option<T>, pred: T -> bool, k: nat): Option<T>
  {
    if k == 0 then o else Filter(FilterTimes(o, pred, k - 1), pred)
  }

  /** Filter idempotence, generalised: filtering `k >= 1` times in a row by the
      same predicate equals filtering once. */
  lemma {:induction false} FilterTimesIsFilter<T>(o: Option<T>, pred: T -> bool, k: nat)
    requires k >= 1
    ensures FilterTimes(o, pred, k) == Filter(o, pred)
  {
    if k > 1 {
      FilterTimesIsFilter(o, pred, k - 1);
      FilterIdempotent(o, pred);
    }
  }
}
