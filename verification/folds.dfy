/** Collecting a sequence of results left to right, as a loop that stops at its first error
    does: the outcome is the list of values when every step succeeds, and the first error
    otherwise. A row of a pass is such a loop over its pairs, a whole pass one over its rows. */
module Folds {
  import opened Results

  /** The values of items[0..n], after a start that may itself have failed; the first failure
      met on the way is the outcome. */
  function Collect<T>(start: Option<Error>, items: seq<Result<T>>, n: nat): (r: Result<seq<T>>)
    requires n <= |items|
    ensures r.Ok? ==> |r.value| == n
  {
    if n == 0 then
      (match start case Some(e) => Err(e) case None => Ok([]))
    else
      var done :- Collect(start, items, n - 1);
      var v :- items[n - 1];
      Ok(done + [v])
  }

  /** Collecting succeeds exactly when the start and each of the first n items do, and then
      holds the items' values in order. */
  lemma {:induction false} CollectCharacterized<T>(start: Option<Error>, items: seq<Result<T>>, n: nat)
    requires n <= |items|
    ensures Collect(start, items, n).Ok? <==> start.None? && forall j :: 0 <= j < n ==> items[j].Ok?
    ensures Collect(start, items, n).Ok? ==>
      forall j :: 0 <= j < n ==> Collect(start, items, n).value[j] == items[j].value
  {
    if n > 0 {
      CollectCharacterized(start, items, n - 1);
    }
  }

  /** One more successful item extends a successful collection by its value. */
  lemma CollectStep<T>(start: Option<Error>, items: seq<Result<T>>, n: nat)
    requires n < |items| && Collect(start, items, n).Ok? && items[n].Ok?
    ensures Collect(start, items, n + 1) == Ok(Collect(start, items, n).value + [items[n].value])
  {}

  /** Once collecting has failed, it keeps that error whatever follows. */
  lemma {:induction false} CollectFailurePersists<T>(start: Option<Error>, items: seq<Result<T>>, n: nat, n': nat)
    requires n <= n' <= |items| && Collect(start, items, n).Err?
    ensures Collect(start, items, n') == Collect(start, items, n)
    decreases n' - n
  {
    if n' > n {
      CollectFailurePersists(start, items, n, n' - 1);
    }
  }

  /** When the start and every item can fail only with e, so can the collection. */
  lemma {:induction false} CollectUniformError<T>(start: Option<Error>, items: seq<Result<T>>, n: nat, e: Error)
    requires n <= |items|
    requires start.Some? ==> start.value == e
    requires forall j :: 0 <= j < n && items[j].Err? ==> items[j].error == e
    ensures Collect(start, items, n).Err? ==> Collect(start, items, n).error == e
  {
    if n > 0 {
      CollectUniformError(start, items, n - 1, e);
    }
  }

  /** A failed start is the outcome of the whole collection. */
  lemma CollectStartFailure<T>(start: Option<Error>, items: seq<Result<T>>)
    requires start.Some?
    ensures Collect(start, items, |items|) == Err(start.value)
  {
    CollectFailurePersists(start, items, 0, |items|);
  }

  /** The first failing item, after a successful prefix, is the outcome of the whole
      collection. */
  lemma CollectFailureAt<T>(start: Option<Error>, items: seq<Result<T>>, n: nat)
    requires n < |items| && Collect(start, items, n).Ok? && items[n].Err?
    ensures Collect(start, items, |items|) == Err(items[n].error)
  {
    assert Collect(start, items, n + 1) == Err(items[n].error);
    CollectFailurePersists(start, items, n + 1, |items|);
  }

  /** A failed collection that started well fails with the error of one of its items. */
  lemma {:induction false} CollectErrorFromItem<T>(items: seq<Result<T>>, n: nat)
    requires n <= |items|
    ensures Collect(None, items, n).Err? ==>
      exists j :: 0 <= j < n && items[j].Err? && items[j].error == Collect(None, items, n).error
  {
    if n > 0 && Collect(None, items, n - 1).Err? {
      CollectErrorFromItem(items, n - 1);
    }
  }
}
