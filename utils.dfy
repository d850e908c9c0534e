/**
 * The two-outcome result type the domain returns instead of throwing for
 * expected business rejections: `Left` carries the failure, `Right` the value.
 * The combinators are the extension functions of utils.kt.
 */
module Utils {

  datatype Either<+L, +R> = Left(left: L) | Right(right: R)

  /** Builds a failed outcome. */
  function Fail<L, R>(value: L): (e: Either<L, R>)
    ensures e.Left? && e.left == value
  {
    Left(value)
  }

  /** Builds a successful outcome. */
  function Success<L, R>(value: R): (e: Either<L, R>)
    ensures e.Right? && e.right == value
  {
    Right(value)
  }

  /** Transforms the success value; a failure passes through untouched. */
  function Map<L, R, R2>(e: Either<L, R>, f: R -> R2): (r: Either<L, R2>)
    ensures r.Left? <==> e.Left?
    ensures r.Left? ==> r.left == e.left
    ensures r.Right? ==> r.right == f(e.right)
  {
    match e
    case Left(l) => Left(l)
    case Right(x) => Right(f(x))
  }

  /** Applies a wrapped function to a wrapped argument; a failed function wins. */
  function Apply<L, R, R2>(ef: Either<L, R -> R2>, e: Either<L, R>): (r: Either<L, R2>)
    ensures ef.Left? ==> r == Left(ef.left)
    ensures ef.Right? ==> r == Map(e, ef.right)
  {
    match ef
    case Left(l) => Left(l)
    case Right(f) => Map(e, f)
  }

  /** Chains a computation that may itself fail; a failure short-circuits. */
  function FlatMap<L, R, R2>(e: Either<L, R>, f: R -> Either<L, R2>): (r: Either<L, R2>)
    ensures e.Left? ==> r == Left(e.left)
    ensures e.Right? ==> r == f(e.right)
  {
    match e
    case Left(l) => Left(l)
    case Right(x) => f(x)
  }

  /** Eliminates the outcome with one handler per side. */
  function Fold<L, R, V>(e: Either<L, R>, foldLeft: L -> V, foldRight: R -> V): (v: V)
    ensures e.Left? ==> v == foldLeft(e.left)
    ensures e.Right? ==> v == foldRight(e.right)
  {
    match e
    case Left(l) => foldLeft(l)
    case Right(x) => foldRight(x)
  }

  /** The success value, or a fallback computed from the failure. */
  function Get<L, R>(e: Either<L, R>, or: L -> R): (v: R)
    ensures e.Right? ==> v == e.right
    ensures e.Left? ==> v == or(e.left)
  {
    match e
    case Left(l) => or(l)
    case Right(x) => x
  }

  // Laws relating the combinators.

  /** Mapping the identity changes nothing. */
  lemma MapIdentity<L, R>(e: Either<L, R>)
    ensures Map(e, x => x) == e
  {
  }

  /** Two maps in a row are one map of the composition. */
  lemma MapComposition<L, R, R2, R3>(e: Either<L, R>, f: R -> R2, g: R2 -> R3)
    ensures Map(Map(e, f), g) == Map(e, x => g(f(x)))
  {
  }

  /** `map` is `flatMap` of a function that always succeeds. */
  lemma MapIsFlatMapOfSuccess<L, R, R2>(e: Either<L, R>, f: R -> R2)
    ensures Map(e, f) == FlatMap(e, x => Right(f(x)))
  {
  }

  /** `flatMap` with the success constructor changes nothing. */
  lemma FlatMapRightIdentity<L, R>(e: Either<L, R>)
    ensures FlatMap(e, (x: R) => Right(x)) == e
  {
  }

  /** Chaining is associative. */
  lemma FlatMapAssociative<L, R, R2, R3>(e: Either<L, R>, f: R -> Either<L, R2>, g: R2 -> Either<L, R3>)
    ensures FlatMap(FlatMap(e, f), g) == FlatMap(e, x => FlatMap(f(x), g))
  {
  }

  /** Applying the successful identity function changes nothing. */
  lemma ApplyIdentity<L, R>(e: Either<L, R>)
    ensures Apply(Right(x => x), e) == e
  {
  }

  /** Applying a successful function to a successful argument is plain application. */
  lemma ApplyHomomorphism<L, R, R2>(f: R -> R2, x: R)
    ensures Apply<L, R, R2>(Right(f), Right(x)) == Right(f(x))
  {
  }

  /** `get` is the fold whose success handler is the identity. */
  lemma GetIsFold<L, R>(e: Either<L, R>, or: L -> R)
    ensures Get(e, or) == Fold(e, or, x => x)
  {
  }

  /** Folding after a map is folding with the composed success handler. */
  lemma FoldAfterMap<L, R, R2, V>(e: Either<L, R>, f: R -> R2, foldLeft: L -> V, foldRight: R2 -> V)
    ensures Fold(Map(e, f), foldLeft, foldRight) == Fold(e, foldLeft, x => foldRight(f(x)))
  {
  }
}
