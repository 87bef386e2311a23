/**
  Model of `src/util.ts`: the `Option`/`Result` tagged unions and the
  side-effect-free combinators around them.

  Every function body follows the branches of its TypeScript original.
  The many `fromOption*` variants repeat one of a few bodies under different
  names; each one's contract states which composition of the primitives
  (`Filter`, `GetOrElse`, `OrElse`, `ToNullable`, `ToUndefined`, `ToResult`)
  it equals.
 */
module Util {

  /** `Option<T>` = `Some<T> | None`: a present value or its absence. */
  datatype Option<T> = Some(value: T) | None

  /** `Result<T, E>` = `Ok<T> | Err<E>`: a success value or an error. */
  datatype Result<T, E> = Ok(value: T) | Err(error: E)

  /** The TypeScript union `T | null`, with `null` as a case of its own. */
  datatype Nullable<T> = NonNull(value: T) | Null

  /** The TypeScript union `T | undefined`, with `undefined` as a case of its own. */
  datatype Undefinable<T> = Defined(value: T) | Undefined

  // ---------------------------------------------------------------------------
  // Tag predicates

  /** `isSome`: the option carries a value. */
  function IsSome<T>(o: Option<T>): (b: bool)
    ensures b <==> o != None
  {
    match o
    case Some(_) => true
    case None => false
  }

  /** `isNone`: the option is the empty case. */
  function IsNone<T>(o: Option<T>): (b: bool)
    ensures b <==> o == None
    ensures b == !IsSome(o)
  {
    match o
    case Some(_) => false
    case None => true
  }

  /** `isOk`: the result is a success. */
  function IsOk<T, E>(r: Result<T, E>): (b: bool)
    ensures b <==> r.Ok?
  {
    match r
    case Ok(_) => true
    case Err(_) => false
  }

  /** `isErr`: the result is a failure. */
  function IsErr<T, E>(r: Result<T, E>): (b: bool)
    ensures b <==> r.Err?
    ensures b == !IsOk(r)
  {
    match r
    case Ok(_) => false
    case Err(_) => true
  }

  // ---------------------------------------------------------------------------
  // Combinators

  /** `map`: applies `f` to the value, if there is one. */
  function Map<T, U>(o: Option<T>, f: T -> U): (r: Option<U>)
    ensures IsSome(r) == IsSome(o)
    ensures IsSome(o) ==> r == Some(f(o.value))
  {
    if IsSome(o) then Some(f(o.value)) else None
  }

  /** `flatMap`: applies the option-returning `f` to the value and flattens one level. */
  function FlatMap<T, U>(o: Option<T>, f: T -> Option<U>): (r: Option<U>)
    ensures IsNone(o) ==> r == None
    ensures IsSome(o) ==> r == f(o.value)
  {
    if IsSome(o) then f(o.value) else None
  }

  /** `getOrElse`: the value, or `defaultValue` when there is none. */
  function GetOrElse<T>(o: Option<T>, defaultValue: T): (r: T)
    ensures IsSome(o) ==> r == o.value
    ensures IsNone(o) ==> r == defaultValue
  {
    if IsSome(o) then o.value else defaultValue
  }

  /** `orElse`: the option itself when it carries a value, otherwise `defaultValue`. */
  function OrElse<T>(o: Option<T>, defaultValue: Option<T>): (r: Option<T>)
    ensures IsSome(o) ==> r == o
    ensures IsNone(o) ==> r == defaultValue
    ensures IsSome(r) <==> IsSome(o) || IsSome(defaultValue)
  {
    if IsSome(o) then o else defaultValue
  }

  /** `filter`: keeps the value only when `predicate` accepts it. */
  function Filter<T>(o: Option<T>, pred: T -> bool): (r: Option<T>)
    ensures r == o || r == None
    ensures r == o <==> IsNone(o) || pred(o.value)
    ensures IsSome(r) <==> IsSome(o) && pred(o.value)
  {
    if IsSome(o) then
      if pred(o.value) then o else None
    else
      None
  }

  /** `match`: the catamorphism; exactly one of the two branches is applied. */
  function Match<T, U>(o: Option<T>, onSome: T -> U, onNone: () -> U): (r: U)
    ensures IsSome(o) ==> r == onSome(o.value)
    ensures IsNone(o) ==> r == onNone()
  {
    if IsSome(o) then onSome(o.value) else onNone()
  }

  // ---------------------------------------------------------------------------
  // Conversions out of Option

  /** `toList`: a list of zero or one elements. */
  function ToList<T>(o: Option<T>): (r: seq<T>)
    ensures |r| <= 1
    ensures |r| == 1 <==> IsSome(o)
    ensures IsSome(o) ==> r[0] == o.value
  {
    if IsSome(o) then [o.value] else []
  }

  /** `toNullable`: the value, or `null`. */
  function ToNullable<T>(o: Option<T>): (r: Nullable<T>)
    ensures r == Null <==> IsNone(o)
    ensures IsSome(o) ==> r == NonNull(o.value)
  {
    if IsSome(o) then NonNull(o.value) else Null
  }

  /** `toUndefined`: the value, or `undefined`. */
  function ToUndefined<T>(o: Option<T>): (r: Undefinable<T>)
    ensures r == Undefined <==> IsNone(o)
    ensures IsSome(o) ==> r == Defined(o.value)
  {
    if IsSome(o) then Defined(o.value) else Undefined
  }

  /** `toResult`: `Ok` with the value, or `Err` carrying the supplied `error`. */
  function ToResult<T, E>(o: Option<T>, error: E): (r: Result<T, E>)
    ensures IsOk(r) == IsSome(o)
    ensures IsSome(o) ==> r == Ok(o.value)
    ensures IsNone(o) ==> r == Err(error)
  {
    if IsSome(o) then Ok(o.value) else Err(error)
  }

  // ---------------------------------------------------------------------------
  // Constructors of Option

  /** `fromNullable`: `None` exactly for `null`. */
  function FromNullable<T>(n: Nullable<T>): (r: Option<T>)
    ensures IsNone(r) <==> n == Null
    ensures n.NonNull? ==> r == Some(n.value)
  {
    if n == Null then None else Some(n.value)
  }

  /** `fromUndefined`: `None` exactly for `undefined`. */
  function FromUndefined<T>(u: Undefinable<T>): (r: Option<T>)
    ensures IsNone(r) <==> u == Undefined
    ensures u.Defined? ==> r == Some(u.value)
  {
    if u == Undefined then None else Some(u.value)
  }

  /** `fromResult`: keeps the success value and forgets the error. */
  function FromResult<T, E>(res: Result<T, E>): (r: Option<T>)
    ensures IsSome(r) == IsOk(res)
    ensures IsOk(res) ==> r == Some(res.value)
  {
    if IsOk(res) then Some(res.value) else None
  }

  /** `fromPredicate`: `Some(value)` exactly when `pred(value)` holds. */
  function FromPredicate<T>(value: T, pred: T -> bool): (r: Option<T>)
    ensures r == Some(value) <==> pred(value)
    ensures r == None <==> !pred(value)
  {
    if pred(value) then Some(value) else None
  }

  // ---------------------------------------------------------------------------
  // The `fromOption*` family: a default or a conversion, without a predicate gate

  /** `fromOption`: the same function as `getOrElse`. */
  function FromOption<T>(o: Option<T>, defaultValue: T): (r: T)
    ensures r == GetOrElse(o, defaultValue)
  {
    if IsSome(o) then o.value else defaultValue
  }

  /** `fromOptionLazy`: `getOrElse` with the default computed by a thunk. */
  function FromOptionLazy<T>(o: Option<T>, defaultValue: () -> T): (r: T)
    ensures r == GetOrElse(o, defaultValue())
  {
    if IsSome(o) then o.value else defaultValue()
  }

  /** `fromOptionNullable`: the same function as `toNullable`. */
  function FromOptionNullable<T>(o: Option<T>): (r: Nullable<T>)
    ensures r == ToNullable(o)
  {
    if IsSome(o) then NonNull(o.value) else Null
  }

  /** `fromOptionUndefined`: the same function as `toUndefined`. */
  function FromOptionUndefined<T>(o: Option<T>): (r: Undefinable<T>)
    ensures r == ToUndefined(o)
  {
    if IsSome(o) then Defined(o.value) else Undefined
  }

  /** `fromOptionResult`: the same function as `toResult`. */
  function FromOptionResult<T, E>(o: Option<T>, error: E): (r: Result<T, E>)
    ensures r == ToResult(o, error)
  {
    if IsSome(o) then Ok(o.value) else Err(error)
  }

  /** `fromOptionPredicate`: whether the predicate gate lets the option through. */
  function FromOptionPredicate<T>(o: Option<T>, pred: T -> bool): (b: bool)
    ensures b == IsSome(Filter(o, pred))
  {
    if IsSome(o) then pred(o.value) else false
  }

  /** `fromOptionOption`: the same function as `orElse`. */
  function FromOptionOption<T>(o: Option<T>, defaultValue: Option<T>): (r: Option<T>)
    ensures r == OrElse(o, defaultValue)
  {
    if IsSome(o) then o else defaultValue
  }

  /** `fromOptionOptionLazy`: `orElse` with the default computed by a thunk. */
  function FromOptionOptionLazy<T>(o: Option<T>, defaultValue: () -> Option<T>): (r: Option<T>)
    ensures r == OrElse(o, defaultValue())
  {
    if IsSome(o) then o else defaultValue()
  }

  /** `fromOptionOptionNullable`: the same function as `toNullable`. */
  function FromOptionOptionNullable<T>(o: Option<T>): (r: Nullable<T>)
    ensures r == ToNullable(o)
  {
    if IsSome(o) then NonNull(o.value) else Null
  }

  /** `fromOptionOptionUndefined`: the same function as `toUndefined`. */
  function FromOptionOptionUndefined<T>(o: Option<T>): (r: Undefinable<T>)
    ensures r == ToUndefined(o)
  {
    if IsSome(o) then Defined(o.value) else Undefined
  }

  /** `fromOptionOptionResult`: the same function as `toResult`. */
  function FromOptionOptionResult<T, E>(o: Option<T>, error: E): (r: Result<T, E>)
    ensures r == ToResult(o, error)
  {
    if IsSome(o) then Ok(o.value) else Err(error)
  }

  // ---------------------------------------------------------------------------
  // The `fromOptionPredicateOption*` family: a predicate gate, then a default or
  // a conversion

  /** `fromOptionPredicateOption`: the same function as `filter`. */
  function FromOptionPredicateOption<T>(o: Option<T>, pred: T -> bool): (r: Option<T>)
    ensures r == Filter(o, pred)
  {
    if IsSome(o) then
      if pred(o.value) then o else None
    else
      None
  }

  /** `fromOptionPredicateOptionLazy`: filter, then a lazily computed default option. */
  function FromOptionPredicateOptionLazy<T>(o: Option<T>, pred: T -> bool, defaultValue: () -> Option<T>): (r: Option<T>)
    ensures r == OrElse(Filter(o, pred), defaultValue())
  {
    if IsSome(o) then
      if pred(o.value) then o else defaultValue()
    else
      defaultValue()
  }

  /** `fromOptionPredicateOptionNullable`: filter, then `toNullable`. */
  function FromOptionPredicateOptionNullable<T>(o: Option<T>, pred: T -> bool): (r: Nullable<T>)
    ensures r == ToNullable(Filter(o, pred))
  {
    if IsSome(o) then
      if pred(o.value) then NonNull(o.value) else Null
    else
      Null
  }

  /** `fromOptionPredicateOptionUndefined`: filter, then `toUndefined`. */
  function FromOptionPredicateOptionUndefined<T>(o: Option<T>, pred: T -> bool): (r: Undefinable<T>)
    ensures r == ToUndefined(Filter(o, pred))
  {
    if IsSome(o) then
      if pred(o.value) then Defined(o.value) else Undefined
    else
      Undefined
  }

  /** `fromOptionPredicateOptionResult`: filter, then `toResult`. */
  function FromOptionPredicateOptionResult<T, E>(o: Option<T>, pred: T -> bool, error: E): (r: Result<T, E>)
    ensures r == ToResult(Filter(o, pred), error)
  {
    if IsSome(o) then
      if pred(o.value) then Ok(o.value) else Err(error)
    else
      Err(error)
  }

  // ---------------------------------------------------------------------------
  // `fromOptionPredicateOptionPredicate*`: the same five bodies again (filter, then
  // orElse, lazy orElse, toNullable, toUndefined or toResult)

  /** `fromOptionPredicateOptionPredicate`: filter, then `orElse`. */
  function FromOptionPredicateOptionPredicate<T>(o: Option<T>, pred: T -> bool, defaultValue: Option<T>): (r: Option<T>)
    ensures r == OrElse(Filter(o, pred), defaultValue)
  {
    if IsSome(o) then
      if pred(o.value) then o else defaultValue
    else
      defaultValue
  }

  /** `fromOptionPredicateOptionPredicateLazy`: filter, then a lazily computed default option. */
  function FromOptionPredicateOptionPredicateLazy<T>(o: Option<T>, pred: T -> bool, defaultValue: () -> Option<T>): (r: Option<T>)
    ensures r == OrElse(Filter(o, pred), defaultValue())
  {
    if IsSome(o) then
      if pred(o.value) then o else defaultValue()
    else
      defaultValue()
  }

  /** `fromOptionPredicateOptionPredicateNullable`: filter, then `toNullable`. */
  function FromOptionPredicateOptionPredicateNullable<T>(o: Option<T>, pred: T -> bool): (r: Nullable<T>)
    ensures r == ToNullable(Filter(o, pred))
  {
    if IsSome(o) then
      if pred(o.value) then NonNull(o.value) else Null
    else
      Null
  }

  /** `fromOptionPredicateOptionPredicateUndefined`: filter, then `toUndefined`. */
  function FromOptionPredicateOptionPredicateUndefined<T>(o: Option<T>, pred: T -> bool): (r: Undefinable<T>)
    ensures r == ToUndefined(Filter(o, pred))
  {
    if IsSome(o) then
      if pred(o.value) then Defined(o.value) else Undefined
    else
      Undefined
  }

  /** `fromOptionPredicateOptionPredicateResult`: filter, then `toResult`. */
  function FromOptionPredicateOptionPredicateResult<T, E>(o: Option<T>, pred: T -> bool, error: E): (r: Result<T, E>)
    ensures r == ToResult(Filter(o, pred), error)
  {
    if IsSome(o) then
      if pred(o.value) then Ok(o.value) else Err(error)
    else
      Err(error)
  }

  // ---------------------------------------------------------------------------
  // `fromOptionPredicateOptionPredicatePredicate*`

  /** `fromOptionPredicateOptionPredicatePredicate`: filter, then `orElse`. */
  function FromOptionPredicateOptionPredicatePredicate<T>(o: Option<T>, pred: T -> bool, defaultValue: Option<T>): (r: Option<T>)
    ensures r == OrElse(Filter(o, pred), defaultValue)
  {
    if IsSome(o) then
      if pred(o.value) then o else defaultValue
    else
      defaultValue
  }

  /** `fromOptionPredicateOptionPredicatePredicateLazy`: filter, then a lazily computed default option. */
  function FromOptionPredicateOptionPredicatePredicateLazy<T>(o: Option<T>, pred: T -> bool, defaultValue: () -> Option<T>): (r: Option<T>)
    ensures r == OrElse(Filter(o, pred), defaultValue())
  {
    if IsSome(o) then
      if pred(o.value) then o else defaultValue()
    else
      defaultValue()
  }

  /** `fromOptionPredicateOptionPredicatePredicateNullable`: filter, then `toNullable`. */
  function FromOptionPredicateOptionPredicatePredicateNullable<T>(o: Option<T>, pred: T -> bool): (r: Nullable<T>)
    ensures r == ToNullable(Filter(o, pred))
  {
    if IsSome(o) then
      if pred(o.value) then NonNull(o.value) else Null
    else
      Null
  }

  /** `fromOptionPredicateOptionPredicatePredicateUndefined`: filter, then `toUndefined`. */
  function FromOptionPredicateOptionPredicatePredicateUndefined<T>(o: Option<T>, pred: T -> bool): (r: Undefinable<T>)
    ensures r == ToUndefined(Filter(o, pred))
  {
    if IsSome(o) then
      if pred(o.value) then Defined(o.value) else Undefined
    else
      Undefined
  }

  /** `fromOptionPredicateOptionPredicatePredicateResult`: filter, then `toResult`. */
  function FromOptionPredicateOptionPredicatePredicateResult<T, E>(o: Option<T>, pred: T -> bool, error: E): (r: Result<T, E>)
    ensures r == ToResult(Filter(o, pred), error)
  {
    if IsSome(o) then
      if pred(o.value) then Ok(o.value) else Err(error)
    else
      Err(error)
  }

  // ---------------------------------------------------------------------------
  // `fromOptionPredicateOptionPredicatePredicatePredicate*`

  /** `fromOptionPredicateOptionPredicatePredicatePredicate`: filter, then `orElse`. */
  function FromOptionPredicateOptionPredicatePredicatePredicate<T>(o: Option<T>, pred: T -> bool, defaultValue: Option<T>): (r: Option<T>)
    ensures r == OrElse(Filter(o, pred), defaultValue)
  {
    if IsSome(o) then
      if pred(o.value) then o else defaultValue
    else
      defaultValue
  }

  /** `fromOptionPredicateOptionPredicatePredicatePredicateLazy`: filter, then a lazily computed default option. */
  function FromOptionPredicateOptionPredicatePredicatePredicateLazy<T>(o: Option<T>, pred: T -> bool, defaultValue: () -> Option<T>): (r: Option<T>)
    ensures r == OrElse(Filter(o, pred), defaultValue())
  {
    if IsSome(o) then
      if pred(o.value) then o else defaultValue()
    else
      defaultValue()
  }

  /** `fromOptionPredicateOptionPredicatePredicatePredicateNullable`: filter, then `toNullable`. */
  function FromOptionPredicateOptionPredicatePredicatePredicateNullable<T>(o: Option<T>, pred: T -> bool): (r: Nullable<T>)
    ensures r == ToNullable(Filter(o, pred))
  {
    if IsSome(o) then
      if pred(o.value) then NonNull(o.value) else Null
    else
      Null
  }

  /** `fromOptionPredicateOptionPredicatePredicatePredicateUndefined`: filter, then `toUndefined`. */
  function FromOptionPredicateOptionPredicatePredicatePredicateUndefined<T>(o: Option<T>, pred: T -> bool): (r: Undefinable<T>)
    ensures r == ToUndefined(Filter(o, pred))
  {
    if IsSome(o) then
      if pred(o.value) then Defined(o.value) else Undefined
    else
      Undefined
  }

  /** `fromOptionPredicateOptionPredicatePredicatePredicateResult`: filter, then `toResult`. */
  function FromOptionPredicateOptionPredicatePredicatePredicateResult<T, E>(o: Option<T>, pred: T -> bool, error: E): (r: Result<T, E>)
    ensures r == ToResult(Filter(o, pred), error)
  {
    if IsSome(o) then
      if pred(o.value) then Ok(o.value) else Err(error)
    else
      Err(error)
  }

  // ---------------------------------------------------------------------------
  // `fromOptionPredicateOptionPredicatePredicatePredicatePredicate*`

  /** `fromOptionPredicateOptionPredicatePredicatePredicatePredicate`: filter, then `orElse`. */
  function FromOptionPredicateOptionPredicatePredicatePredicatePredicate<T>(o: Option<T>, pred: T -> bool, defaultValue: Option<T>): (r: Option<T>)
    ensures r == OrElse(Filter(o, pred), defaultValue)
  {
    if IsSome(o) then
      if pred(o.value) then o else defaultValue
    else
      defaultValue
  }

  /** `fromOptionPredicateOptionPredicatePredicatePredicatePredicateLazy`: filter, then a lazily computed default option. */
  function FromOptionPredicateOptionPredicatePredicatePredicatePredicateLazy<T>(o: Option<T>, pred: T -> bool, defaultValue: () -> Option<T>): (r: Option<T>)
    ensures r == OrElse(Filter(o, pred), defaultValue())
  {
    if IsSome(o) then
      if pred(o.value) then o else defaultValue()
    else
      defaultValue()
  }

  /** `fromOptionPredicateOptionPredicatePredicatePredicatePredicateNullable`: filter, then `toNullable`. */
  function FromOptionPredicateOptionPredicatePredicatePredicatePredicateNullable<T>(o: Option<T>, pred: T -> bool): (r: Nullable<T>)
    ensures r == ToNullable(Filter(o, pred))
  {
    if IsSome(o) then
      if pred(o.value) then NonNull(o.value) else Null
    else
      Null
  }

  /** `fromOptionPredicateOptionPredicatePredicatePredicatePredicateUndefined`: filter, then `toUndefined`. */
  function FromOptionPredicateOptionPredicatePredicatePredicatePredicateUndefined<T>(o: Option<T>, pred: T -> bool): (r: Undefinable<T>)
    ensures r == ToUndefined(Filter(o, pred))
  {
    if IsSome(o) then
      if pred(o.value) then Defined(o.value) else Undefined
    else
      Undefined
  }

  /** `fromOptionPredicateOptionPredicatePredicatePredicatePredicateResult`: filter, then `toResult`. */
  function FromOptionPredicateOptionPredicatePredicatePredicatePredicateResult<T, E>(o: Option<T>, pred: T -> bool, error: E): (r: Result<T, E>)
    ensures r == ToResult(Filter(o, pred), error)
  {
    if IsSome(o) then
      if pred(o.value) then Ok(o.value) else Err(error)
    else
      Err(error)
  }

  // ---------------------------------------------------------------------------
  // `fromOptionPredicateOptionPredicatePredicatePredicatePredicatePredicate`, the last one

  /** `fromOptionPredicateOptionPredicatePredicatePredicatePredicatePredicate`: filter, then `orElse`. */
  function FromOptionPredicateOptionPredicatePredicatePredicatePredicatePredicate<T>(o: Option<T>, pred: T -> bool, defaultValue: Option<T>): (r: Option<T>)
    ensures r == OrElse(Filter(o, pred), defaultValue)
  {
    if IsSome(o) then
      if pred(o.value) then o else defaultValue
    else
      defaultValue
  }
}
