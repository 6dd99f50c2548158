/**
 * Sequential, fail-fast composition of fetches: the shape shared by
 * `AllDivisions`, `AllSchedules` and `ScheduleBoxscores`. Requests are
 * issued one after another, each seeing the history left by the one before;
 * results are collected in request order, and the first error ends the
 * batch, discarding everything collected so far.
 */
module FailFast {
  import opened NcaafbTypes

  /** The outcome of fetching every element of `rs` in order with `fetch`,
      starting from the request history `sent`. Defined on the last element
      so that it follows a loop that appends. */
  function Sequence<R, T>(fetch: (seq<Url>, R) -> Step<Result<T>>, sent: seq<Url>, rs: seq<R>): (r: Step<Result<seq<T>>>)
    ensures r.result.Ok? ==> |r.result.value| == |rs|
    decreases |rs|
  {
    if rs == [] then Step(Ok([]), sent)
    else
      var prior := Sequence(fetch, sent, rs[..|rs| - 1]);
      if prior.result.Err? then prior
      else
        var last := fetch(prior.sent, rs[|rs| - 1]);
        match last.result
        case Err(e) => Step(Err(e), last.sent)
        case Ok(v) => Step(Ok(prior.result.value + [v]), last.sent)
  }

  /** Extending a successful batch by one request runs just that request. */
  lemma SequenceSnoc<R, T>(fetch: (seq<Url>, R) -> Step<Result<T>>, sent: seq<Url>, rs: seq<R>, x: R)
    requires Sequence(fetch, sent, rs).result.Ok?
    ensures
      var prior := Sequence(fetch, sent, rs);
      var last := fetch(prior.sent, x);
      Sequence(fetch, sent, rs + [x]) ==
        if last.result.Err? then Step(Err(last.result.error), last.sent)
        else Step(Ok(prior.result.value + [last.result.value]), last.sent)
  {
    assert (rs + [x])[..|rs|] == rs;
  }

  /** The requests that `sends` says each element issues, concatenated in order. */
  function Sends<R>(sends: R -> seq<Url>, rs: seq<R>): seq<Url>
    decreases |rs|
  {
    if rs == [] then [] else Sends(sends, rs[..|rs| - 1]) + sends(rs[|rs| - 1])
  }

  /** A successful batch's prefixes succeed too, with the matching prefix
      of its results. */
  lemma {:induction false} SequencePrefix<R, T>(fetch: (seq<Url>, R) -> Step<Result<T>>, sent: seq<Url>, rs: seq<R>, k: nat)
    requires k <= |rs|
    requires Sequence(fetch, sent, rs).result.Ok?
    ensures Sequence(fetch, sent, rs[..k]).result == Ok(Sequence(fetch, sent, rs).result.value[..k])
    decreases |rs|
  {
    if k == |rs| {
      assert rs[..k] == rs;
      var value := Sequence(fetch, sent, rs).result.value;
      assert value[..k] == value;
    } else {
      var n := |rs| - 1;
      var front := rs[..n];
      assert rs[..n] == front && front[..k] == rs[..k];
      var prior := Sequence(fetch, sent, front);
      assert prior.result.Ok?;
      var last := fetch(prior.sent, rs[n]);
      assert Sequence(fetch, sent, rs).result.value == prior.result.value + [last.result.value];
      SequencePrefix(fetch, sent, front, k);
      assert (prior.result.value + [last.result.value])[..k] == prior.result.value[..k];
    }
  }

  /** In a successful batch, the i-th result is what the i-th fetch
      returned, at the history the first i fetches left: results come out
      in request order. */
  lemma SequenceAt<R, T>(fetch: (seq<Url>, R) -> Step<Result<T>>, sent: seq<Url>, rs: seq<R>, i: nat)
    requires i < |rs|
    requires Sequence(fetch, sent, rs).result.Ok?
    ensures Sequence(fetch, sent, rs[..i]).result == Ok(Sequence(fetch, sent, rs).result.value[..i])
    ensures fetch(Sequence(fetch, sent, rs[..i]).sent, rs[i]).result == Ok(Sequence(fetch, sent, rs).result.value[i])
  {
    var value := Sequence(fetch, sent, rs).result.value;
    SequencePrefix(fetch, sent, rs, i);
    SequencePrefix(fetch, sent, rs, i + 1);
    var upto := rs[..i + 1];
    assert upto[..i] == rs[..i] && upto[i] == rs[i];
    assert value[..i + 1] == value[..i] + [value[i]];
  }

  /** The batch succeeds exactly when every fetch succeeds, each at the
      history left by the ones before it. */
  lemma {:induction false} SequenceSucceeds<R, T>(fetch: (seq<Url>, R) -> Step<Result<T>>, sent: seq<Url>, rs: seq<R>)
    ensures Sequence(fetch, sent, rs).result.Ok? <==>
      forall i :: 0 <= i < |rs| ==> fetch(Sequence(fetch, sent, rs[..i]).sent, rs[i]).result.Ok?
    decreases |rs|
  {
    if Sequence(fetch, sent, rs).result.Ok? {
      forall i | 0 <= i < |rs| ensures fetch(Sequence(fetch, sent, rs[..i]).sent, rs[i]).result.Ok? {
        SequenceAt(fetch, sent, rs, i);
      }
    } else {
      var n := |rs| - 1;
      var front := rs[..n];
      assert rs[..n] == front;
      if Sequence(fetch, sent, front).result.Err? {
        SequenceSucceeds(fetch, sent, front);
        var k :| 0 <= k < n && !fetch(Sequence(fetch, sent, front[..k]).sent, front[k]).result.Ok?;
        assert rs[..k] == front[..k] && rs[k] == front[k];
      }
    }
  }

  /** Once a prefix of the requests has failed, nothing after it runs: the
      whole batch ends exactly as that prefix did. */
  lemma {:induction false} SequenceStopsAtFailure<R, T>(fetch: (seq<Url>, R) -> Step<Result<T>>, sent: seq<Url>, xs: seq<R>, ys: seq<R>)
    requires xs <= ys
    requires Sequence(fetch, sent, xs).result.Err?
    ensures Sequence(fetch, sent, ys) == Sequence(fetch, sent, xs)
    decreases |ys|
  {
    if |ys| > |xs| {
      var n := |ys| - 1;
      assert xs <= ys[..n];
      SequenceStopsAtFailure(fetch, sent, xs, ys[..n]);
    } else {
      assert xs == ys;
    }
  }

  /** A failed batch failed at one request k: every request before it
      succeeded, request k failed, and the batch returns k's error and the
      history k left, so no request after k was made. */
  lemma {:induction false} SequenceFailsFast<R, T>(fetch: (seq<Url>, R) -> Step<Result<T>>, sent: seq<Url>, rs: seq<R>)
    requires Sequence(fetch, sent, rs).result.Err?
    ensures exists k ::
      && 0 <= k < |rs|
      && Sequence(fetch, sent, rs[..k]).result.Ok?
      && var failed := fetch(Sequence(fetch, sent, rs[..k]).sent, rs[k]);
         failed.result.Err? && Sequence(fetch, sent, rs) == Step(Err(failed.result.error), failed.sent)
    decreases |rs|
  {
    var n := |rs| - 1;
    var front := rs[..n];
    assert rs[..n] == front;
    if Sequence(fetch, sent, front).result.Err? {
      SequenceFailsFast(fetch, sent, front);
      var k :|
        && 0 <= k < n
        && Sequence(fetch, sent, front[..k]).result.Ok?
        && var failed := fetch(Sequence(fetch, sent, front[..k]).sent, front[k]);
           failed.result.Err? && Sequence(fetch, sent, front) == Step(Err(failed.result.error), failed.sent);
      assert rs[..k] == front[..k] && rs[k] == front[k];
    } else {
      assert 0 <= n < |rs| && Sequence(fetch, sent, rs[..n]).result.Ok?;
    }
  }

  /** When each fetch appends to the history exactly the requests `sends`
      names, a successful batch sends the requests of every element, in order. */
  lemma {:induction false} SequenceSendsOnSuccess<R, T>(fetch: (seq<Url>, R) -> Step<Result<T>>, sends: R -> seq<Url>, sent: seq<Url>, rs: seq<R>)
    requires forall h: seq<Url>, i :: 0 <= i < |rs| ==> fetch(h, rs[i]).sent == h + sends(rs[i])
    requires Sequence(fetch, sent, rs).result.Ok?
    ensures Sequence(fetch, sent, rs).sent == sent + Sends(sends, rs)
    decreases |rs|
  {
    if rs != [] {
      var n := |rs| - 1;
      var front := rs[..n];
      assert rs[..n] == front;
      assert forall i :: 0 <= i < n ==> front[i] == rs[i];
      SequenceSendsOnSuccess(fetch, sends, sent, front);
      assert (sent + Sends(sends, front)) + sends(rs[n]) == sent + (Sends(sends, front) + sends(rs[n]));
    }
  }

  /** When each fetch appends to the history exactly the requests `sends`
      names, a batch sends exactly the requests of the elements it reached:
      all of them on success, those up to and including the failing one on
      failure, whose error the batch returns. */
  lemma SequenceSends<R, T>(fetch: (seq<Url>, R) -> Step<Result<T>>, sends: R -> seq<Url>, sent: seq<Url>, rs: seq<R>)
    requires forall h: seq<Url>, i :: 0 <= i < |rs| ==> fetch(h, rs[i]).sent == h + sends(rs[i])
    ensures Sequence(fetch, sent, rs).result.Ok? ==> Sequence(fetch, sent, rs).sent == sent + Sends(sends, rs)
    ensures Sequence(fetch, sent, rs).result.Err? ==>
      exists k ::
        && 0 <= k < |rs|
        && Sequence(fetch, sent, rs[..k]).result.Ok?
        && fetch(Sequence(fetch, sent, rs[..k]).sent, rs[k]).result.Err?
        && Sequence(fetch, sent, rs).result.error == fetch(Sequence(fetch, sent, rs[..k]).sent, rs[k]).result.error
        && Sequence(fetch, sent, rs).sent == sent + Sends(sends, rs[..k + 1])
  {
    if Sequence(fetch, sent, rs).result.Ok? {
      SequenceSendsOnSuccess(fetch, sends, sent, rs);
    } else {
      SequenceFailsFast(fetch, sent, rs);
      var k :|
        && 0 <= k < |rs|
        && Sequence(fetch, sent, rs[..k]).result.Ok?
        && var failed := fetch(Sequence(fetch, sent, rs[..k]).sent, rs[k]);
           failed.result.Err? && Sequence(fetch, sent, rs) == Step(Err(failed.result.error), failed.sent);
      SentUpToFailure(fetch, sends, sent, rs, k);
    }
  }

  /** A batch that failed at request k has sent the requests of elements
      0..k. */
  lemma SentUpToFailure<R, T>(fetch: (seq<Url>, R) -> Step<Result<T>>, sends: R -> seq<Url>, sent: seq<Url>, rs: seq<R>, k: nat)
    requires forall h: seq<Url>, i :: 0 <= i < |rs| ==> fetch(h, rs[i]).sent == h + sends(rs[i])
    requires k < |rs| && Sequence(fetch, sent, rs[..k]).result.Ok?
    requires Sequence(fetch, sent, rs).sent == fetch(Sequence(fetch, sent, rs[..k]).sent, rs[k]).sent
    ensures Sequence(fetch, sent, rs).sent == sent + Sends(sends, rs[..k + 1])
  {
    var front := rs[..k];
    assert forall i :: 0 <= i < k ==> front[i] == rs[i];
    SequenceSendsOnSuccess(fetch, sends, sent, front);
    var upto := rs[..k + 1];
    assert upto[..k] == front && upto[k] == rs[k];
    assert Sends(sends, upto) == Sends(sends, front) + sends(rs[k]);
    assert (sent + Sends(sends, front)) + sends(rs[k]) == sent + (Sends(sends, front) + sends(rs[k]));
  }
}
