/** Option and Result, the failure-compatible wrappers used throughout the model. */
module Wrappers {

  datatype Option<+T> = None | Some(value: T)

  datatype Result<+T, +E> = Success(value: T) | Failure(error: E) {
    predicate IsFailure() { Failure? }

    function PropagateFailure<U>(): Result<U, E>
      requires Failure?
    {
      Failure(error)
    }

    function Extract(): T
      requires Success?
    {
      value
    }
  }
}

/** The exceptions the synchronizer's components raise, one constructor per Python exception class. */
module Errors {

  /** Why a GraphQL walk failed: the execution itself raised, or the response carried no data. */
  datatype QueryFailure = ExecutionFailed | NoDataFound

  datatype Error =
    | GraphQLQueryException(reason: QueryFailure)
      /** `.get` called on a response node that is not a dict. */
    | AttributeError
      /** A dict or a list used as a set element (unhashable). */
    | TypeError
    | ValueError(message: string)
      /** The configuration store has no setting under the key. */
    | ResourceNotFoundError(key: string)
      /** Any other configuration-store failure. */
    | AzureError
      /** The data lake refused the file. */
    | DataLakeError
      /** The retry policy gave up: every attempt of one query execution raised. */
    | RetryError
}

/** Enumerating a set in an order the model does not fix, as Python's `list(s)` and dict iteration do. */
module Sets {

  predicate Distinct<T(==)>(xs: seq<T>) {
    forall i, j :: 0 <= i < j < |xs| ==> xs[i] != xs[j]
  }

  /** A non-empty set has an element to pick. */
  lemma HasElement<T>(s: set<T>)
    requires s != {}
    ensures exists x :: x in s
  {
    if forall x :: x !in s {
      assert false;
    }
  }

  /** xs holds each element of s exactly once. */
  predicate Lists<T(==)>(xs: seq<T>, s: set<T>) {
    |xs| == |s| && Distinct(xs) && (forall x :: x in s ==> x in xs) && (forall x :: x in xs ==> x in s)
  }

  /** Some listing of s, for stating what any listing yields. */
  ghost function Listing<T>(s: set<T>): (xs: seq<T>)
    ensures Lists(xs, s)
    decreases |s|
  {
    if s == {} then []
    else
      HasElement(s);
      var x :| x in s;
      var rest := Listing(s - {x});
      assert forall i :: 0 <= i < |rest| ==> rest[i] != x;
      [x] + rest
  }

  /** `list(s)`: each element of s once, in some order. */
  method ListOf<T(==)>(s: set<T>) returns (xs: seq<T>)
    ensures Lists(xs, s)
  {
    xs := [];
    var rest := s;
    while rest != {}
      invariant rest <= s
      invariant forall x :: x in s <==> (x in rest || x in xs)
      invariant forall x :: x in rest ==> x !in xs
      invariant |xs| + |rest| == |s|
      invariant Distinct(xs)
      decreases |rest|
    {
      HasElement(rest);
      var x :| x in rest;
      xs := xs + [x];
      rest := rest - {x};
    }
    assert |xs| == |s| && Distinct(xs);
  }
}
