/** Failure-carrying wrappers shared by every module of the model. */
module Wrappers {

  /** A value that may be absent: an unset environment variable, a missing key. */
  datatype Option<+T> = None | Some(value: T)

  /** The outcome of a computation that either produced a value or raised a
      JavaScript `Error` carrying a message. */
  datatype Result<+T> = Ok(value: T) | Err(message: string)

  /** Fail-fast join of two list-valued results, as `Promise.all` followed by
      `flat()` does: the first failure wins, otherwise the lists are concatenated. */
  function Both<T>(a: Result<seq<T>>, b: Result<seq<T>>): (r: Result<seq<T>>)
    ensures r.Ok? <==> a.Ok? && b.Ok?
    ensures r.Ok? ==> r.value == a.value + b.value
    ensures a.Err? ==> r == a
    ensures a.Ok? && b.Err? ==> r == b
  {
    if a.Err? then a else if b.Err? then b else Ok(a.value + b.value)
  }

  lemma BothAssociative<T>(a: Result<seq<T>>, b: Result<seq<T>>, c: Result<seq<T>>)
    ensures Both(Both(a, b), c) == Both(a, Both(b, c))
  {
    if a.Ok? && b.Ok? && c.Ok? {
      assert (a.value + b.value) + c.value == a.value + (b.value + c.value);
    }
  }

  lemma BothUnit<T>(a: Result<seq<T>>)
    ensures Both(Ok([]), a) == a && Both(a, Ok([])) == a
  {
    if a.Ok? {
      assert [] + a.value == a.value;
      assert a.value + [] == a.value;
    }
  }

  /** `Promise.all(tasks)` followed by `flat()`: every list concatenated in
      task order, or the first failure. */
  function JoinAll<T>(rs: seq<Result<seq<T>>>): Result<seq<T>>
  {
    if |rs| == 0 then Ok([]) else Both(rs[0], JoinAll(rs[1..]))
  }

  /** The join succeeds exactly when every task does, and a failing join
      fails with the error of its first failing task. */
  lemma {:induction false} JoinAllFailFast<T>(rs: seq<Result<seq<T>>>)
    ensures JoinAll(rs).Ok? <==> forall i :: 0 <= i < |rs| ==> rs[i].Ok?
    ensures JoinAll(rs).Err? ==>
      exists i :: 0 <= i < |rs| && JoinAll(rs) == rs[i] && forall j :: 0 <= j < i ==> rs[j].Ok?
  {
    if |rs| > 0 {
      var tail := rs[1..];
      JoinAllFailFast(tail);
      assert forall i :: 0 < i < |rs| ==> rs[i] == tail[i - 1];
      if rs[0].Ok? && JoinAll(rs).Err? {
        var i :| 0 <= i < |tail| && JoinAll(tail) == tail[i] && forall j :: 0 <= j < i ==> tail[j].Ok?;
        assert JoinAll(rs) == rs[i + 1];
      }
    }
  }

  /** Joining a concatenation of task lists is joining the two joins. */
  lemma {:induction false} JoinAllAppend<T>(a: seq<Result<seq<T>>>, b: seq<Result<seq<T>>>)
    ensures JoinAll(a + b) == Both(JoinAll(a), JoinAll(b))
  {
    if |a| == 0 {
      assert a + b == b;
      BothUnit(JoinAll(b));
    } else {
      assert (a + b)[1..] == a[1..] + b;
      JoinAllAppend(a[1..], b);
      BothAssociative(a[0], JoinAll(a[1..]), JoinAll(b));
    }
  }
}
