/** Failure-carrying values: Java's null becomes None, a thrown exception becomes
    Failure (for a value-returning call) or Fail (for a void call). */
module Wrappers {

  datatype Option<+T> = None | Some(value: T) {
    /** The value, or `default` where Java would see null. */
    function GetOr(default: T): T {
      match this
      case Some(v) => v
      case None => default
    }
  }

  datatype Result<+T, +E> = Success(value: T) | Failure(error: E)

  datatype Outcome<+E> = Pass | Fail(error: E)

  /** One entry per element, in order; the first failing element fails the whole. */
  function MapEach<A, T, E>(items: seq<A>, entry: A -> Result<T, E>): Result<seq<T>, E>
    decreases |items|
  {
    if |items| == 0 then Success([])
    else
      match MapEach(items[..|items| - 1], entry)
      case Failure(e) => Failure(e)
      case Success(prefix) =>
        match entry(items[|items| - 1])
        case Failure(e) => Failure(e)
        case Success(v) => Success(prefix + [v])
  }

  /** A mapping succeeds exactly when every item's entry does, and then it has
      one entry per item, the k-th being the k-th item's. */
  lemma {:induction false} MapEachShape<A, T, E>(items: seq<A>, entry: A -> Result<T, E>)
    ensures MapEach(items, entry).Success? <==> forall k :: 0 <= k < |items| ==> entry(items[k]).Success?
    ensures MapEach(items, entry).Success? ==>
            |MapEach(items, entry).value| == |items| &&
            forall k :: 0 <= k < |items| ==> MapEach(items, entry).value[k] == entry(items[k]).value
    decreases |items|
  {
    if |items| > 0 {
      var init := items[..|items| - 1];
      MapEachShape(init, entry);
      assert forall k :: 0 <= k < |init| ==> init[k] == items[k];
    }
  }

  /** A failed mapping reports the error of the first failing item. */
  lemma {:induction false} MapEachFirstFailure<A, T, E>(items: seq<A>, entry: A -> Result<T, E>)
    requires MapEach(items, entry).Failure?
    ensures exists j :: 0 <= j < |items| && entry(items[j]) == Failure(MapEach(items, entry).error) &&
                        forall k :: 0 <= k < j ==> entry(items[k]).Success?
    decreases |items|
  {
    var init := items[..|items| - 1];
    assert forall k :: 0 <= k < |init| ==> init[k] == items[k];
    if MapEach(init, entry).Failure? {
      MapEachFirstFailure(init, entry);
    } else {
      MapEachShape(init, entry);
      assert entry(items[|items| - 1]) == Failure(MapEach(items, entry).error);
    }
  }

  /** Once a prefix fails, the rest of the sequence is not looked at. */
  lemma {:induction false} MapEachPrefixFailure<A, T, E>(items: seq<A>, n: nat, entry: A -> Result<T, E>)
    requires n <= |items|
    requires MapEach(items[..n], entry).Failure?
    ensures MapEach(items, entry) == MapEach(items[..n], entry)
    decreases |items| - n
  {
    if n < |items| {
      var init := items[..|items| - 1];
      assert init[..n] == items[..n];
      MapEachPrefixFailure(init, n, entry);
    } else {
      assert items[..n] == items;
    }
  }

}
