/**
 * Requests with retries (`_getUrl` in the worker, `#getUrl` in the manager) on top of
 * the single request helper `ajaxGet`.
 */
module Network {
  import opened Wrappers

  /** The longest pause between two attempts, in seconds. */
  const MaxWait: nat := 60 * 60 * 24

  /** What one request attempt does: it throws, or it yields a response (null included). */
  datatype Attempt = Throws | Returns(response: Option<string>)

  /** What the server side of one request does: the request fails, or it is answered. */
  datatype Outcome = Failure | Answer(body: Option<string>)

  /** `ajaxGet`: every failure is caught inside and turned into null, so it never throws. */
  function AjaxGet(o: Outcome): (a: Attempt)
    ensures a.Returns?
    ensures o.Failure? ==> a.response.None?
  {
    match o
    case Failure => Returns(None)
    case Answer(b) => Returns(b)
  }

  /** A request helper that lets failures escape, the only kind `_getUrl` can retry. */
  function AjaxGetRaising(o: Outcome): (a: Attempt)
    ensures a.Throws? <==> o.Failure?
  {
    match o
    case Failure => Throws
    case Answer(b) => Returns(b)
  }

  /** The pause before attempt number `n`: none for the first, then `n²` seconds up to a day. */
  function Backoff(n: int): (s: nat)
    ensures n <= 1 ==> s == 0
    ensures n > 1 ==> s <= MaxWait && (s == n * n || s == MaxWait) && s <= n * n
  {
    if n > 1 then (if n * n > MaxWait then MaxWait else n * n) else 0
  }

  /** One run of the request loop: the pauses taken, and the result once it is known. */
  datatype Run = Run(waits: seq<nat>, result: Option<Option<string>>)

  /**
   * `_getUrl(url, variant, retry)` over the attempts it would make, `retry` being the
   * attempt number (`true` counts as 1, `None` is "no retry"): it pauses before an
   * attempt numbered above 1, returns the first response, and on a throw either gives
   * up with null (no retry) or tries again with the next number. `result` is `None`
   * while the given attempts are used up without an answer.
   */
  function GetUrl(attempts: seq<Attempt>, retry: Option<int>): (r: Run)
    ensures |r.waits| <= |attempts|
    ensures retry.None? ==> |r.waits| <= 1
    ensures r.result.None? ==> |r.waits| == |attempts| && (|attempts| == 0 || retry.Some?)
    ensures retry.None? && |attempts| > 0 ==>
      r.waits == [0] && r.result == Some(if attempts[0].Throws? then None else attempts[0].response)
    decreases |attempts|
  {
    if |attempts| == 0 then Run([], None)
    else
      var w := match retry case Some(n) => Backoff(n) case None => 0;
      match attempts[0]
      case Returns(v) => Run([w], Some(v))
      case Throws =>
        match retry
        case None => Run([w], Some(None))
        case Some(n) =>
          var rest := GetUrl(attempts[1..], Some(n + 1));
          Run([w] + rest.waits, rest.result)
  }

  /** Index of the first attempt that does not throw, if any. */
  function FirstAnswer(attempts: seq<Attempt>): (i: int)
    ensures -1 <= i < |attempts|
    ensures i >= 0 ==> attempts[i].Returns? && forall j :: 0 <= j < i ==> attempts[j].Throws?
    ensures i == -1 ==> forall j :: 0 <= j < |attempts| ==> attempts[j].Throws?
  {
    if |attempts| == 0 then -1
    else if attempts[0].Returns? then 0
    else
      var i := FirstAnswer(attempts[1..]);
      if i == -1 then -1 else i + 1
  }

  /**
   * With retries, the loop pauses `Backoff(n)`, `Backoff(n + 1)`, ... before its attempts,
   * stops at the first attempt that answers and returns that answer; every pause is at
   * most a day.
   */
  lemma {:induction false} RetrySchedule(attempts: seq<Attempt>, n: int)
    ensures var r := GetUrl(attempts, Some(n));
      var i := FirstAnswer(attempts);
      && (forall j :: 0 <= j < |r.waits| ==> r.waits[j] == Backoff(n + j) && r.waits[j] <= MaxWait)
      && (i >= 0 ==> |r.waits| == i + 1 && r.result == Some(attempts[i].response))
      && (i == -1 ==> r.result.None?)
    decreases |attempts|
  {
    if |attempts| > 0 && attempts[0].Throws? {
      RetrySchedule(attempts[1..], n + 1);
      var rest := GetUrl(attempts[1..], Some(n + 1));
      var r := GetUrl(attempts, Some(n));
      assert r.waits == [Backoff(n)] + rest.waits;
      forall j | 1 <= j < |r.waits|
        ensures r.waits[j] == Backoff(n + j)
      {
        assert r.waits[j] == rest.waits[j - 1];
      }
    }
  }

  /** The pauses never shrink from one attempt to the next once the count starts at 1 or more. */
  lemma BackoffGrows(m: int, n: int)
    requires 1 <= m <= n
    ensures Backoff(m) <= Backoff(n)
  {
    if m > 1 {
      assert m * m <= n * n by {
        ProductGrows(m, m, n);
        ProductGrows(n, m, n);
        assert m * n == n * m;
      }
    }
  }

  /** Multiplying by a non-negative factor keeps the order. */
  lemma ProductGrows(a: int, b: int, c: int)
    requires 0 <= a && b <= c
    ensures a * b <= a * c
  {
    assert a * c - a * b == a * (c - b);
  }

  /**
   * With `ajaxGet` as written a failed request never throws, so on a failure the
   * loop makes exactly one attempt, never pauses when started with `true` or without
   * a retry counter, and returns null: a failed request is never retried. (A
   * successful response is modelled with a working `progressbar` callback.)
   */
  lemma RetriesNeverHappen(outcomes: seq<Outcome>)
    requires |outcomes| > 0
    ensures var r := GetUrl(seq(|outcomes|, i requires 0 <= i < |outcomes| => AjaxGet(outcomes[i])), Some(1));
      && r.waits == [0]
      && (outcomes[0].Failure? ==> r.result == Some(None))
    ensures var r := GetUrl(seq(|outcomes|, i requires 0 <= i < |outcomes| => AjaxGet(outcomes[i])), None);
      && r.waits == [0]
      && r.result == Some(AjaxGet(outcomes[0]).response)
      && (outcomes[0].Failure? ==> r.result == Some(None))
  {
  }

  /**
   * With a helper that lets failures escape, `n` failures followed by an answer give
   * `n` growing pauses and then the answer.
   */
  lemma RetriesWithRaisingHelper(outcomes: seq<Outcome>)
    ensures var attempts := seq(|outcomes|, i requires 0 <= i < |outcomes| => AjaxGetRaising(outcomes[i]));
      var r := GetUrl(attempts, Some(1));
      && (forall j :: 0 <= j < |r.waits| ==> r.waits[j] == Backoff(1 + j))
      && (forall j :: 0 <= j < |outcomes| && outcomes[j].Answer? && (forall k :: 0 <= k < j ==> outcomes[k].Failure?) ==>
            |r.waits| == j + 1 && r.result == Some(outcomes[j].body))
  {
    var attempts := seq(|outcomes|, i requires 0 <= i < |outcomes| => AjaxGetRaising(outcomes[i]));
    RetrySchedule(attempts, 1);
    var i := FirstAnswer(attempts);
    forall j | 0 <= j < |outcomes| && outcomes[j].Answer? && (forall k :: 0 <= k < j ==> outcomes[k].Failure?)
      ensures i == j
    {
      assert attempts[j].Returns?;
    }
  }
}
