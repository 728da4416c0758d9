/**
 * Optional values.  `None` stands for a TypeError the library would throw
 * (reading a property of `undefined` or `null`, calling something that is not a
 * function); `:-` propagates it the way an uncaught exception unwinds.
 */
module Wrappers {

  datatype Option<+T> = None | Some(value: T)
  {
    predicate IsFailure() {
      None?
    }

    function PropagateFailure<U>(): Option<U>
      requires None?
    {
      None
    }

    function Extract(): T
      requires Some?
    {
      value
    }
  }

  /**
   * `f` applied to each element in order, the way `_.each` runs a callback
   * that may throw: the first failure is the result.
   */
  function Traverse<T, U>(xs: seq<T>, f: T -> Option<U>): (r: Option<seq<U>>)
    ensures r.Some? ==> |r.value| == |xs|
    decreases |xs|
  {
    if |xs| == 0 then Some([])
    else
      var init :- Traverse(xs[..|xs| - 1], f);
      var last :- f(xs[|xs| - 1]);
      Some(init + [last])
  }

  /** The traversal succeeds exactly when every call does, and then holds each call's value, in order. */
  lemma {:induction false} TraverseContents<T, U>(xs: seq<T>, f: T -> Option<U>)
    ensures Traverse(xs, f).Some? <==> forall i :: 0 <= i < |xs| ==> f(xs[i]).Some?
    ensures Traverse(xs, f).Some? ==> |Traverse(xs, f).value| == |xs|
    ensures Traverse(xs, f).Some? ==> forall i :: 0 <= i < |xs| ==> Traverse(xs, f).value[i] == f(xs[i]).value
    decreases |xs|
  {
    if |xs| > 0 {
      var prefix := xs[..|xs| - 1];
      TraverseContents(prefix, f);
      if Traverse(prefix, f).None? {
        var j :| 0 <= j < |prefix| && f(prefix[j]).None?;
        assert xs[j] == prefix[j];
      } else if f(xs[|xs| - 1]).Some? {
        forall i | 0 <= i < |xs|
          ensures f(xs[i]).Some?
        {
          if i < |prefix| {
            assert xs[i] == prefix[i];
          }
        }
      }
    }
  }

  /** One more element traversed: the traversal of a prefix, then the call on the next element. */
  lemma TraverseStep<T, U>(xs: seq<T>, f: T -> Option<U>, i: nat)
    requires i < |xs|
    ensures Traverse(xs[..i + 1], f)
         == (match Traverse(xs[..i], f)
             case None => None
             case Some(init) => (match f(xs[i]) case None => None case Some(last) => Some(init + [last])))
  {
    assert xs[..i + 1][..i] == xs[..i];
  }

  /** One element on which the call fails makes the whole traversal fail. */
  lemma TraverseFailsAt<T, U>(xs: seq<T>, f: T -> Option<U>, i: nat)
    requires i < |xs| && f(xs[i]).None?
    ensures Traverse(xs, f).None?
  {
    TraverseStep(xs, f, i);
    TraverseFailsFrom(xs, f, i + 1);
  }

  /** Once a prefix has failed, the whole traversal fails. */
  lemma {:induction false} TraverseFailsFrom<T, U>(xs: seq<T>, f: T -> Option<U>, n: nat)
    requires n <= |xs| && Traverse(xs[..n], f).None?
    ensures Traverse(xs, f).None?
    decreases |xs| - n
  {
    if n < |xs| {
      TraverseStep(xs, f, n);
      TraverseFailsFrom(xs, f, n + 1);
    } else {
      assert xs[..n] == xs;
    }
  }
}
