/** Optional values and results, used wherever the Go code returns a
    possibly-nil value or an (x, err) pair. */
module Wrappers {

  datatype Option<+T> = None | Some(value: T)

  datatype Result<+T, +E> = Ok(value: T) | Err(error: E)

  /** The index of the first failing step of a chain of fallible steps, or
      the number of steps when none fails. */
  function FirstFailure<E>(steps: seq<Option<E>>): (k: nat)
    ensures k <= |steps|
    ensures forall i :: 0 <= i < k ==> steps[i].None?
    ensures k < |steps| ==> steps[k].Some?
  {
    if steps == [] then 0
    else if steps[0].Some? then 0
    else 1 + FirstFailure(steps[1..])
  }

  /** The first failure is determined by the steps themselves: an index
      before which every step succeeded and at which one failed (or the end)
      is that index. */
  lemma {:induction false} FirstFailureIs<E>(steps: seq<Option<E>>, k: nat)
    requires k <= |steps|
    requires forall i :: 0 <= i < k ==> steps[i].None?
    requires k < |steps| ==> steps[k].Some?
    ensures FirstFailure(steps) == k
  {
    if k > 0 {
      assert steps[0].None?;
      FirstFailureIs(steps[1..], k - 1);
    }
  }

  lemma AppendAssoc<T>(a: seq<T>, b: seq<T>, c: seq<T>)
    ensures a + b + c == a + (b + c)
  {
  }
}
