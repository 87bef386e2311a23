/**
  Model of `src/tool.ts`: a second `Option` encoding (a `_type` field holding
  `"some"` or `"none"`), the `unwrap` helpers, and `toOptional`, which turns a
  type guard into a function answering an `Option`.

  A `throw new Error(message)` is modelled as the outcome `Thrown(message)`.
 */
module Tool {
  import Util

  /** `Option<T>` = `Some<T> | None` of `src/tool.ts`, distinct from `Util.Option`.
      The constructors `Some` and `None` stand for `some(value)` and `none`. */
  datatype Option<T> = Some(value: T) | None

  /** What a call that may throw does: return a value, or throw an `Error` with a message. */
  datatype Outcome<T> = Returned(value: T) | Thrown(message: string)

  /** The message `unwrap` throws on `none`. */
  const UnwrapFailure: string := "Cannot unwrap a Option"

  /** `unwrap`: the value of `some`; on `none` it throws with the fixed message. */
  function Unwrap<T>(o: Option<T>): (r: Outcome<T>)
    ensures r.Returned? <==> o.Some?
    ensures o.Some? ==> r.value == o.value
    ensures o.None? ==> r.message == UnwrapFailure
  {
    if o.None? then Thrown(UnwrapFailure) else Returned(o.value)
  }

  /** `unwrapOr`: the value of `some`, or `defaultValue` on `none`; never throws. */
  function UnwrapOr<T>(o: Option<T>, defaultValue: T): (r: T)
    ensures o.Some? ==> r == o.value
    ensures o.None? ==> r == defaultValue
  {
    if o.None? then defaultValue else o.value
  }

  /** `unwrapExpect`: like `unwrap`, but on `none` it throws with the caller's message. */
  function UnwrapExpect<T>(o: Option<T>, message: string): (r: Outcome<T>)
    ensures r.Returned? <==> o.Some?
    ensures o.Some? ==> r.value == o.value
    ensures o.None? ==> r.message == message
  {
    if o.None? then Thrown(message) else Returned(o.value)
  }

  /** `toOptional`: lifts a guard into a function that answers `some(arg)` when
      the guard accepts `arg` and `none` otherwise. */
  function ToOptional<I(!new)>(fn: I -> bool): (lifted: I -> Option<I>)
    ensures forall arg :: lifted(arg) == Some(arg) <==> fn(arg)
    ensures forall arg :: lifted(arg) == None <==> !fn(arg)
  {
    arg => if fn(arg) then Some(arg) else None
  }

  /** The guard of `optionalDefined`, `arg != null`: with the loose comparison it
      rejects both `null` and `undefined`. */
  function NotNullish<T>(arg: Util.Nullable<Util.Undefinable<T>>): (b: bool)
    ensures b <==> arg != Util.Null && arg != Util.NonNull(Util.Undefined)
  {
    match arg
    case Null => false
    case NonNull(Undefined) => false
    case NonNull(Defined(_)) => true
  }

  /** `optionalDefined`: `none` for `null` and `undefined`, `some(arg)` otherwise. */
  function OptionalDefined<T(!new)>(arg: Util.Nullable<Util.Undefinable<T>>): (r: Option<Util.Nullable<Util.Undefinable<T>>>)
    ensures r == None <==> arg == Util.Null || arg == Util.NonNull(Util.Undefined)
    ensures r != None ==> r == Some(arg)
    ensures r.Some? ==> r.value.NonNull? && r.value.value.Defined?
  {
    ToOptional(NotNullish)(arg)
  }

  // ---------------------------------------------------------------------------
  // The two encodings

  /** The `Util.Option` with the same content. */
  function ToUtil<T>(o: Option<T>): Util.Option<T>
  {
    match o
    case Some(v) => Util.Some(v)
    case None => Util.None
  }

  /** The `Tool.Option` with the same content. */
  function FromUtil<T>(u: Util.Option<T>): Option<T>
  {
    match u
    case Some(v) => Some(v)
    case None => None
  }

  /** The encodings are isomorphic: the two translations are mutually inverse. */
  lemma EncodingsIsomorphic<T>(o: Option<T>, u: Util.Option<T>)
    ensures FromUtil(ToUtil(o)) == o
    ensures ToUtil(FromUtil(u)) == u
  {
  }

  /** Across the isomorphism, `unwrapOr` is `getOrElse`. */
  lemma UnwrapOrIsGetOrElse<T>(o: Option<T>, defaultValue: T)
    ensures UnwrapOr(o, defaultValue) == Util.GetOrElse(ToUtil(o), defaultValue)
  {
  }

  // ---------------------------------------------------------------------------
  // Laws of the unwrap helpers

  /** `unwrap(some(v))` returns `v`; `unwrap(none)` throws "Cannot unwrap a Option". */
  lemma UnwrapEquations<T>(v: T)
    ensures Unwrap(Some(v)) == Returned(v)
    ensures Unwrap(Option<T>.None) == Thrown("Cannot unwrap a Option")
  {
  }

  /** `unwrapOr(some(v), d)` is `v`, `unwrapOr(none, d)` is `d`, and on `some`
      `unwrapOr` returns whatever `unwrap` returns. */
  lemma UnwrapOrEquations<T>(v: T, d: T, o: Option<T>)
    ensures UnwrapOr(Some(v), d) == v
    ensures UnwrapOr(None, d) == d
    ensures o.Some? ==> Unwrap(o) == Returned(UnwrapOr(o, d))
  {
  }

  /** `unwrapExpect(some(v), m)` returns `v`; `unwrapExpect(none, m)` throws
      exactly `m`; `unwrap` is `unwrapExpect` with the fixed message. */
  lemma UnwrapExpectEquations<T>(v: T, m: string, o: Option<T>)
    ensures UnwrapExpect(Some(v), m) == Returned(v)
    ensures UnwrapExpect(Option<T>.None, m) == Thrown(m)
    ensures Unwrap(o) == UnwrapExpect(o, UnwrapFailure)
  {
  }

  /** `optionalDefined` accepts exactly the values that `fromNullable` followed by
      `fromUndefined` of `Util` turn into `Some`, and then keeps the whole input. */
  lemma OptionalDefinedIsFromNullableThenFromUndefined<T(!new)>(arg: Util.Nullable<Util.Undefinable<T>>)
    ensures OptionalDefined(arg).Some? <==> Util.IsSome(Util.FlatMap(Util.FromNullable(arg), Util.FromUndefined))
    ensures OptionalDefined(arg).Some? ==>
      arg == Util.NonNull(Util.Defined(Util.FlatMap(Util.FromNullable(arg), Util.FromUndefined).value))
  {
  }
}
