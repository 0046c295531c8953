/** The optional value, the outcome of a call that may raise, and sequences of sequences. */
module Wrappers {

  datatype Option<+T> = None | Some(value: T)

  /** A call that returned a value, or the exception it raised.  Being failure-compatible,
      it lets `:-` stand for an exception that propagates. */
  datatype Result<+T, +E> = Success(value: T) | Failure(error: E) {

    predicate IsFailure() {
      Failure?
    }

    function PropagateFailure<U>(): Result<U, E>
      requires Failure?
    {
      Failure(error)
    }

    function Extract(): T
      requires Success?
    {
      value
    }
  }

  // ---- sequences of sequences ----

  function Flatten<T>(segs: seq<seq<T>>): seq<T> {
    if segs == [] then [] else segs[0] + Flatten(segs[1..])
  }

  lemma {:induction false} FlattenConcat<T>(a: seq<seq<T>>, b: seq<seq<T>>)
    ensures Flatten(a + b) == Flatten(a) + Flatten(b)
  {
    if a == [] {
      assert a + b == b;
    } else {
      assert (a + b)[0] == a[0] && (a + b)[1..] == a[1..] + b;
      FlattenConcat(a[1..], b);
    }
  }

  lemma FlattenOne<T>(seg: seq<T>)
    ensures Flatten([seg]) == seg
  {
    assert [seg][1..] == [];
  }

  lemma FlattenSnoc<T>(groups: seq<seq<T>>, last: seq<T>)
    ensures Flatten(groups + [last]) == Flatten(groups) + last
  {
    FlattenConcat(groups, [last]);
    FlattenOne(last);
  }
}
